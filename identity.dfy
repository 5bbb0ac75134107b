/**
 * Identity resolution (lib/useMe.ts): the closed enums of the data model, the
 * profile and company records, the identity provider's `getUser` outcome, and
 * the `refresh` chain that turns three lookups into `(me, error, isLoading)`.
 */
module Identity {
  import opened Wrappers
  import opened Text

  datatype UserRole = CompanyAdmin | CompanyMember | PlatformAdmin
  datatype CompanyType = Demand | Supply | Both
  datatype CompanyStatus = Active | Inactive

  /** The text stored in the `role` column. */
  function RoleName(r: UserRole): string {
    match r
    case CompanyAdmin => "COMPANY_ADMIN"
    case CompanyMember => "COMPANY_MEMBER"
    case PlatformAdmin => "PLATFORM_ADMIN"
  }

  /** The text stored in the `company_type` column. */
  function CompanyTypeName(t: CompanyType): string {
    match t
    case Demand => "DEMAND"
    case Supply => "SUPPLY"
    case Both => "BOTH"
  }

  /** The text stored in the `status` column of `companies`. */
  function CompanyStatusName(s: CompanyStatus): string {
    match s
    case Active => "ACTIVE"
    case Inactive => "INACTIVE"
  }

  /** A row of `public.users`, keyed by the auth user's id. */
  datatype UserProfile = UserProfile(
    id: string,
    name: string,
    role: UserRole,
    companyId: Option<string>,
    isActive: bool)

  /** A row of `companies`. */
  datatype Company = Company(
    id: string,
    name: string,
    companyType: CompanyType,
    status: CompanyStatus,
    prefecture: Option<string>,
    city: Option<string>,
    phone: Option<string>)

  /** The resolved identity. `avatarUrl` and `displayName` come from the auth user's metadata. */
  datatype Me = Me(
    authUserId: string,
    email: Option<string>,
    profile: Option<UserProfile>,
    company: Option<Company>,
    avatarUrl: Option<string>,
    displayName: Option<string>)

  /** An error object reported by the identity provider (an absent `name` is the empty string). */
  datatype AuthError = AuthError(name: string, message: string)

  /** The authenticated user as the provider reports it, with the two metadata fields the model reads. */
  datatype AuthUser = AuthUser(
    id: string,
    email: Option<string>,
    avatarUrl: Option<string>,
    displayName: Option<string>)

  /** The outcome of `auth.getUser()`: an error, no user, or a user. */
  datatype AuthLookup = AuthFailed(error: AuthError) | NoUser | SignedIn(user: AuthUser)

  /** The outcome of a `maybeSingle` query by key. */
  datatype Lookup<T> = Found(row: T) | Missing | Failed(message: string)

  /**
   * A table as seen through one client: its rows by key, and the keys whose
   * query fails (a row-level security refusal, a network error) with a message.
   */
  datatype Table<T> = Table(rows: map<string, T>, errors: map<string, string>)

  function Query<T>(t: Table<T>, key: string): Lookup<T> {
    if key in t.errors then Failed(t.errors[key])
    else if key in t.rows then Found(t.rows[key])
    else Missing
  }

  /** JavaScript truthiness of a nullable string: neither null nor empty. */
  predicate Truthy(s: Option<string>) {
    s.Some? && s.value != ""
  }

  const SessionMissingName: string := "AuthSessionMissingError"
  const SessionMissingText: string := "Auth session missing"

  /** `isMissingSessionError`: the provider's way of saying that nobody is signed in. */
  predicate IsMissingSessionError(e: AuthError) {
    e.name == SessionMissingName || ContainsIgnoreCase(e.message, SessionMissingText)
  }

  /** The message test is case-insensitive and finds the phrase anywhere in the message. */
  lemma SessionMissingAnyCase(name: string, pre: string, phrase: string, post: string)
    requires Lower(phrase) == Lower(SessionMissingText)
    ensures IsMissingSessionError(AuthError(name, pre + phrase + post))
  {
    ContainsIgnoreCaseInfix(pre, phrase, post, SessionMissingText);
  }

  /** What one `refresh` leaves in `me` and `error`. */
  datatype Resolution = Resolution(me: Option<Me>, error: Option<string>)

  /** The signed-in user with no business profile loaded. */
  function SessionOnly(u: AuthUser): Me {
    Me(u.id, u.email, None, None, None, None)
  }

  /**
   * The resolution chain of `refresh`, as a function of the three lookups it performs.
   * An error is reported exactly when one of the lookups genuinely failed, and the
   * resolved view agrees with the stores: `me` exists exactly for a signed-in user
   * and carries that user's id and email, its profile is that user's row whenever
   * one is found, and its company is the row named by the profile's `company_id`
   * whenever that one is found too. The metadata fields are carried on every path
   * that ends without an error, and are null on the paths that stop at one.
   */
  function Resolve(auth: AuthLookup, users: Table<UserProfile>, companies: Table<Company>): (r: Resolution)
    ensures r.error.Some? <==>
      || (auth.AuthFailed? && !IsMissingSessionError(auth.error))
      || (auth.SignedIn? && Query(users, auth.user.id).Failed?)
      || (auth.SignedIn? && Query(users, auth.user.id).Found? && Truthy(Query(users, auth.user.id).row.companyId)
          && Query(companies, Query(users, auth.user.id).row.companyId.value).Failed?)
    ensures r.me.Some? <==> auth.SignedIn?
    ensures r.me.Some? ==> r.me.value.authUserId == auth.user.id && r.me.value.email == auth.user.email
    ensures r.me.Some? && r.me.value.profile.Some? ==> Query(users, auth.user.id) == Found(r.me.value.profile.value)
    ensures r.me.Some? && r.me.value.company.Some? ==>
      && r.me.value.profile.Some? && r.me.value.profile.value.companyId.Some?
      && Query(companies, r.me.value.profile.value.companyId.value) == Found(r.me.value.company.value)
    ensures auth.SignedIn? && Query(users, auth.user.id).Found? ==>
      r.me.value.profile == Some(Query(users, auth.user.id).row)
    ensures (auth.SignedIn? && Query(users, auth.user.id).Found? && Truthy(Query(users, auth.user.id).row.companyId)
        && Query(companies, Query(users, auth.user.id).row.companyId.value).Found?) ==>
      r.me.value.company == Some(Query(companies, Query(users, auth.user.id).row.companyId.value).row)
    ensures r.me.Some? && r.error.None? ==>
      r.me.value.avatarUrl == auth.user.avatarUrl && r.me.value.displayName == auth.user.displayName
    ensures r.me.Some? && r.error.Some? ==> r.me.value.avatarUrl == None && r.me.value.displayName == None
  {
    match auth
    case AuthFailed(e) =>
      if IsMissingSessionError(e) then Resolution(None, None) else Resolution(None, Some(e.message))
    case NoUser => Resolution(None, None)
    case SignedIn(u) =>
      match Query(users, u.id)
      case Failed(msg) => Resolution(Some(SessionOnly(u)), Some(msg))
      case Missing => Resolution(Some(Me(u.id, u.email, None, None, u.avatarUrl, u.displayName)), None)
      case Found(p) =>
        if !Truthy(p.companyId) then
          Resolution(Some(Me(u.id, u.email, Some(p), None, u.avatarUrl, u.displayName)), None)
        else
          match Query(companies, p.companyId.value)
          case Failed(msg) => Resolution(Some(Me(u.id, u.email, Some(p), None, None, None)), Some(msg))
          case Missing => Resolution(Some(Me(u.id, u.email, Some(p), None, u.avatarUrl, u.displayName)), None)
          case Found(c) => Resolution(Some(Me(u.id, u.email, Some(p), Some(c), u.avatarUrl, u.displayName)), None)
  }

  /** The state of the `useMe` hook. */
  class MeHook {
    var isLoading: bool
    var me: Option<Me>
    var error: Option<string>

    /** The hook's initial state: loading, nobody, no error. */
    constructor ()
      ensures isLoading && me == None && error == None
    {
      isLoading := true;
      me := None;
      error := None;
    }

    /** `refresh`: one sequential pass through the lookups, with early returns. */
    method Refresh(auth: AuthLookup, users: Table<UserProfile>, companies: Table<Company>)
      modifies this
      ensures !isLoading
      ensures Resolution(me, error) == Resolve(auth, users, companies)
    {
      isLoading := true;
      error := None;

      if auth.AuthFailed? {
        if IsMissingSessionError(auth.error) {
          me := None;
          error := None;
          isLoading := false;
          return;
        }
        me := None;
        error := Some(auth.error.message);
        isLoading := false;
        return;
      }

      if auth.NoUser? {
        me := None;
        isLoading := false;
        return;
      }

      var u := auth.user;
      var profile := Query(users, u.id);
      if profile.Failed? {
        me := Some(SessionOnly(u));
        error := Some(profile.message);
        isLoading := false;
        return;
      }

      var company: Option<Company> := None;
      if profile.Found? && Truthy(profile.row.companyId) {
        var companyData := Query(companies, profile.row.companyId.value);
        if companyData.Failed? {
          me := Some(Me(u.id, u.email, Some(profile.row), None, None, None));
          error := Some(companyData.message);
          isLoading := false;
          return;
        }
        company := if companyData.Found? then Some(companyData.row) else None;
      }

      var p := if profile.Found? then Some(profile.row) else None;
      me := Some(Me(u.id, u.email, p, company, u.avatarUrl, u.displayName));
      isLoading := false;
    }

    /** `signOut`: the session is dropped (the provider call is not modelled) and `me` is cleared. */
    method SignOut()
      modifies this`me
      ensures me == None
    {
      me := None;
    }
  }

  // Properties of the resolution chain.

  /** An error that says the session is missing is not surfaced: nobody is signed in and there is no error. */
  lemma MissingSessionIsNotAnError(e: AuthError, users: Table<UserProfile>, companies: Table<Company>)
    requires IsMissingSessionError(e)
    ensures Resolve(AuthFailed(e), users, companies) == Resolution(None, None)
  {
  }

  /** Any other provider error is surfaced with its message. */
  lemma OtherAuthErrorIsSurfaced(e: AuthError, users: Table<UserProfile>, companies: Table<Company>)
    requires !IsMissingSessionError(e)
    ensures Resolve(AuthFailed(e), users, companies) == Resolution(None, Some(e.message))
  {
  }

  /** A failed profile query keeps the session visible, with no profile, no company and the query's message. */
  lemma ProfileErrorKeepsSession(u: AuthUser, users: Table<UserProfile>, companies: Table<Company>)
    requires u.id in users.errors
    ensures var r := Resolve(SignedIn(u), users, companies);
      r.me == Some(Me(u.id, u.email, None, None, None, None)) && r.error == Some(users.errors[u.id])
  {
  }

  /**
   * The company is looked up only for a profile with a non-empty `company_id`:
   * otherwise the company table does not influence the outcome and `company` is null.
   */
  lemma CompanyLookupNeedsCompanyId(auth: AuthLookup, users: Table<UserProfile>, c1: Table<Company>, c2: Table<Company>)
    requires !(auth.SignedIn? && Query(users, auth.user.id).Found? && Truthy(Query(users, auth.user.id).row.companyId))
    ensures Resolve(auth, users, c1) == Resolve(auth, users, c2)
    ensures Resolve(auth, users, c1).me.Some? ==> Resolve(auth, users, c1).me.value.company == None
  {
  }

  /** A failed company query keeps the profile, drops the company and surfaces the message. */
  lemma CompanyErrorKeepsProfile(u: AuthUser, p: UserProfile, users: Table<UserProfile>, companies: Table<Company>)
    requires Query(users, u.id) == Found(p) && Truthy(p.companyId)
    requires p.companyId.value in companies.errors
    ensures var r := Resolve(SignedIn(u), users, companies);
      r.me == Some(Me(u.id, u.email, Some(p), None, None, None))
      && r.error == Some(companies.errors[p.companyId.value])
  {
  }

  /** A missing profile row or a missing company row is not an error. */
  lemma MissingRowsAreNotErrors(u: AuthUser, users: Table<UserProfile>, companies: Table<Company>)
    requires Query(users, u.id).Missing?
      || (Query(users, u.id).Found? && Truthy(Query(users, u.id).row.companyId)
          && Query(companies, Query(users, u.id).row.companyId.value).Missing?)
    ensures var r := Resolve(SignedIn(u), users, companies);
      r.error == None && r.me.Some? && r.me.value.company == None
      && (Query(users, u.id).Missing? ==> r.me.value.profile == None)
      && (Query(users, u.id).Found? ==> r.me.value.profile == Some(Query(users, u.id).row))
  {
  }

  /** When every lookup finds its row, `me` carries the session, both rows and the metadata. */
  lemma FoundRowsAreCarried(u: AuthUser, p: UserProfile, c: Company, users: Table<UserProfile>, companies: Table<Company>)
    requires Query(users, u.id) == Found(p) && Truthy(p.companyId)
    requires Query(companies, p.companyId.value) == Found(c)
    ensures Resolve(SignedIn(u), users, companies)
      == Resolution(Some(Me(u.id, u.email, Some(p), Some(c), u.avatarUrl, u.displayName)), None)
  {
  }
}
