/**
 * Signup provisioning (app/auth/actions.ts): input normalisation and validation in a
 * fixed order, then three writes (auth user, company, profile) with best-effort
 * compensating deletes in reverse order when a later write fails.
 */
module Provisioning {
  import opened Wrappers
  import opened Text
  import opened Identity

  /** `normalizeOptionalText`: the trimmed text, or null when nothing but white space is left. */
  function NormalizeOptionalText(v: Option<string>): (r: Option<string>)
    ensures r.None? <==> (v.None? || IsBlank(v.value))
    ensures r.Some? ==> r.value == Trim(v.value) && r.value != []
    ensures r.Some? ==> !IsJsSpace(r.value[0]) && !IsJsSpace(r.value[|r.value| - 1])
  {
    var t := if v.Some? then Trim(v.value) else "";
    if |t| > 0 then Some(t) else None
  }

  /** `isCompanyType`. */
  predicate IsCompanyType(v: string) {
    v == "DEMAND" || v == "SUPPLY" || v == "BOTH"
  }

  /** The company type a valid text names. */
  function ParseCompanyType(v: string): (t: Option<CompanyType>)
    ensures t.Some? <==> IsCompanyType(v)
    ensures t.Some? ==> CompanyTypeName(t.value) == v
  {
    if v == "DEMAND" then Some(Demand)
    else if v == "SUPPLY" then Some(Supply)
    else if v == "BOTH" then Some(Both)
    else None
  }

  /** `isCompanyType` holds exactly for the names of the three company types. */
  lemma CompanyTypeNamesAreValid(t: CompanyType)
    ensures IsCompanyType(CompanyTypeName(t)) && ParseCompanyType(CompanyTypeName(t)) == Some(t)
  {
  }

  /** `SignUpWithCompanyInput`; `companyType` is the raw text the client sent. */
  datatype SignUpInput = SignUpInput(
    email: string,
    password: string,
    userName: string,
    companyName: string,
    companyType: string,
    prefecture: string,
    city: string,
    phone: string)

  /** The normalised input that passed every check. */
  datatype Validated = Validated(
    email: string,
    password: string,
    userName: string,
    companyName: string,
    companyType: CompanyType,
    phone: string,
    prefecture: string,
    city: string)

  const EmptyEmail: string := "email が空です"
  const EmptyPassword: string := "password が空です"
  const EmptyUserName: string := "担当者名（userName）が空です"
  const EmptyCompanyName: string := "会社名（companyName）が空です"
  const EmptyPhone: string := "電話番号（phone）が空です"
  const EmptyPrefecture: string := "都道府県（prefecture）が空です"
  const EmptyCity: string := "市区町村（city）が空です"
  const BadCompanyType: string := "companyType が不正です"
  const CreateUserFailed: string := "ユーザー作成に失敗しました"
  const CreateCompanyFailed: string := "会社作成に失敗しました"

  /**
   * Normalisation and validation. The first failing check, in the order email,
   * password, userName, companyName, phone, prefecture, city, companyType, decides
   * the message. On success the email is trimmed and lower-cased, the password is
   * passed through untouched and every other text is trimmed and non-empty.
   */
  function Validate(input: SignUpInput): (r: Result<Validated>)
    ensures r.Ok? ==>
      && r.value.email == Lower(Trim(input.email)) && r.value.email != ""
      && r.value.password == input.password && r.value.password != ""
      && r.value.userName == Trim(input.userName) && r.value.userName != ""
      && r.value.companyName == Trim(input.companyName) && r.value.companyName != ""
      && r.value.phone == Trim(input.phone) && r.value.phone != ""
      && r.value.prefecture == Trim(input.prefecture) && r.value.prefecture != ""
      && r.value.city == Trim(input.city) && r.value.city != ""
      && CompanyTypeName(r.value.companyType) == input.companyType
  {
    var email := Lower(Trim(input.email));
    var userName := Trim(input.userName);
    var companyName := Trim(input.companyName);
    var phone := Trim(input.phone);
    var prefecture := NormalizeOptionalText(Some(input.prefecture));
    var city := NormalizeOptionalText(Some(input.city));
    if email == "" then Err(EmptyEmail)
    else if input.password == "" then Err(EmptyPassword)
    else if userName == "" then Err(EmptyUserName)
    else if companyName == "" then Err(EmptyCompanyName)
    else if phone == "" then Err(EmptyPhone)
    else if prefecture.None? then Err(EmptyPrefecture)
    else if city.None? then Err(EmptyCity)
    else if ParseCompanyType(input.companyType).None? then Err(BadCompanyType)
    else Ok(Validated(email, input.password, userName, companyName,
                      ParseCompanyType(input.companyType).value, phone, prefecture.value, city.value))
  }

  /** The first failing check, written out in the order the checks run. */
  function FirstFailure(input: SignUpInput): Option<string> {
    if IsBlank(input.email) then Some(EmptyEmail)
    else if input.password == "" then Some(EmptyPassword)
    else if IsBlank(input.userName) then Some(EmptyUserName)
    else if IsBlank(input.companyName) then Some(EmptyCompanyName)
    else if IsBlank(input.phone) then Some(EmptyPhone)
    else if IsBlank(input.prefecture) then Some(EmptyPrefecture)
    else if IsBlank(input.city) then Some(EmptyCity)
    else if !IsCompanyType(input.companyType) then Some(BadCompanyType)
    else None
  }

  /** Each normalised text is empty exactly when the raw text is blank, so validation stops at the first failure. */
  lemma {:induction false} ValidateFailsOnFirstFailure(input: SignUpInput)
    ensures Validate(input).Err? <==> FirstFailure(input).Some?
    ensures Validate(input).Err? ==> Validate(input).message == FirstFailure(input).value
  {
    assert |Lower(Trim(input.email))| == |Trim(input.email)|;
    var v := Validate(input);
    if IsBlank(input.email) {
      assert v == Err(EmptyEmail);
    } else if input.password == "" {
      assert v == Err(EmptyPassword);
    } else if IsBlank(input.userName) {
      assert v == Err(EmptyUserName);
    } else if IsBlank(input.companyName) {
      assert v == Err(EmptyCompanyName);
    } else if IsBlank(input.phone) {
      assert v == Err(EmptyPhone);
    } else if IsBlank(input.prefecture) {
      assert v == Err(EmptyPrefecture);
    } else if IsBlank(input.city) {
      assert v == Err(EmptyCity);
    } else if !IsCompanyType(input.companyType) {
      assert v == Err(BadCompanyType);
    } else {
      assert v.Ok?;
    }
  }

  /** An account of the identity provider. */
  datatype AuthAccount = AuthAccount(email: string, password: string, emailConfirmed: bool)

  /** The outcome of a create call: the id the store allocated, or a failure with an optional message. */
  datatype Created = Created(id: string) | CreateFailed(message: Option<string>)

  /** The outcomes one signup run meets, in the order it meets them. */
  datatype Outcomes = Outcomes(
    createUser: Created,
    insertCompany: Created,
    upsertFault: Option<string>,
    deleteCompanyFails: bool,
    deleteUserFails: bool)

  datatype SignUpResult = SignedUp(userId: string, companyId: string) | SignUpFailed(error: string)

  /** The three stores the transaction writes. */
  datatype Stores = Stores(
    authUsers: map<string, AuthAccount>,
    companies: map<string, Company>,
    users: map<string, UserProfile>)

  datatype Run = Run(after: Stores, result: SignUpResult)

  function NewAccount(v: Validated): AuthAccount {
    AuthAccount(v.email, v.password, true)
  }

  function NewCompany(companyId: string, v: Validated): Company {
    Company(companyId, v.companyName, v.companyType, Active, Some(v.prefecture), Some(v.city), Some(v.phone))
  }

  function NewProfile(userId: string, companyId: string, v: Validated): UserProfile {
    UserProfile(userId, v.userName, CompanyAdmin, Some(companyId), true)
  }

  /** `signUpWithCompany` as a function of the stores before the run and the outcomes it meets. */
  function SignUp(s: Stores, input: SignUpInput, o: Outcomes): Run {
    Provision(s, Validate(input), o)
  }

  /** The writes that follow validation. */
  function Provision(s: Stores, checked: Result<Validated>, o: Outcomes): Run {
    match checked
    case Err(msg) => Run(s, SignUpFailed(msg))
    case Ok(v) =>
      match o.createUser
      case CreateFailed(m) => Run(s, SignUpFailed(m.GetOr(CreateUserFailed)))
      case Created(userId) =>
        var s1 := s.(authUsers := s.authUsers[userId := NewAccount(v)]);
        match o.insertCompany
        case CreateFailed(m) =>
          var s2 := if o.deleteUserFails then s1 else s1.(authUsers := s1.authUsers - {userId});
          Run(s2, SignUpFailed(m.GetOr(CreateCompanyFailed)))
        case Created(companyId) =>
          var s2 := s1.(companies := s1.companies[companyId := NewCompany(companyId, v)]);
          if o.upsertFault.Some? then
            var s3 := if o.deleteCompanyFails then s2 else s2.(companies := s2.companies - {companyId});
            var s4 := if o.deleteUserFails then s3 else s3.(authUsers := s3.authUsers - {userId});
            Run(s4, SignUpFailed(o.upsertFault.value))
          else
            Run(s2.(users := s2.users[userId := NewProfile(userId, companyId, v)]), SignedUp(userId, companyId))
  }

  /** The auth, companies and users stores behind the privileged client. */
  class ProvisioningStore {
    var authUsers: map<string, AuthAccount>
    var companies: map<string, Company>
    var users: map<string, UserProfile>

    constructor (initial: Stores)
      ensures Stores(authUsers, companies, users) == initial
    {
      authUsers := initial.authUsers;
      companies := initial.companies;
      users := initial.users;
    }

    /** `signUpWithCompany`: validate, then write. */
    method SignUpWithCompany(input: SignUpInput, o: Outcomes) returns (r: SignUpResult)
      modifies this
      ensures var run := SignUp(old(Stores(authUsers, companies, users)), input, o);
        r == run.result && Stores(authUsers, companies, users) == run.after
    {
      var checked := Validate(input);
      r := Write(checked, o);
    }

    /** Create the auth user, insert the company, upsert the profile, undoing earlier writes on failure. */
    method Write(checked: Result<Validated>, o: Outcomes) returns (r: SignUpResult)
      modifies this
      ensures var run := Provision(old(Stores(authUsers, companies, users)), checked, o);
        r == run.result && Stores(authUsers, companies, users) == run.after
    {
      if checked.Err? {
        return SignUpFailed(checked.message);
      }
      var v := checked.value;

      // 1) the auth user
      if o.createUser.CreateFailed? {
        return SignUpFailed(o.createUser.message.GetOr(CreateUserFailed));
      }
      var userId := o.createUser.id;
      authUsers := authUsers[userId := NewAccount(v)];

      // 2) the company
      if o.insertCompany.CreateFailed? {
        if !o.deleteUserFails {
          authUsers := authUsers - {userId};
        }
        return SignUpFailed(o.insertCompany.message.GetOr(CreateCompanyFailed));
      }
      var companyId := o.insertCompany.id;
      companies := companies[companyId := NewCompany(companyId, v)];

      // 3) the profile, upserted on id
      if o.upsertFault.Some? {
        if !o.deleteCompanyFails {
          companies := companies - {companyId};
        }
        if !o.deleteUserFails {
          authUsers := authUsers - {userId};
        }
        return SignUpFailed(o.upsertFault.value);
      }
      users := users[userId := NewProfile(userId, companyId, v)];
      r := SignedUp(userId, companyId);
    }
  }

  // Properties of the transaction.

  /** A validation failure writes nothing and returns the message of the first failing check. */
  lemma ValidationFailureWritesNothing(s: Stores, input: SignUpInput, o: Outcomes)
    requires Validate(input).Err?
    ensures SignUp(s, input, o).after == s && SignUp(s, input, o).result.SignUpFailed?
    ensures FirstFailure(input) == Some(SignUp(s, input, o).result.error)
  {
    ValidateFailsOnFirstFailure(input);
  }

  /** A failed auth-user creation creates neither a company nor a profile. */
  lemma CreateUserFailureWritesNothing(s: Stores, v: Validated, o: Outcomes)
    requires o.createUser.CreateFailed?
    ensures Provision(s, Ok(v), o).after == s && Provision(s, Ok(v), o).result.SignUpFailed?
  {
  }

  /** Deleting a key that was just added to a map where it was absent restores the map. */
  lemma AddThenDelete<V>(m: map<string, V>, k: string, x: V)
    requires k !in m
    ensures m[k := x] - {k} == m
  {
  }

  /**
   * A failed company insert writes no company and no profile, and deletes the
   * auth user just created: with a fresh id and a delete that goes through, the
   * stores are exactly as before.
   */
  lemma CompanyFailureRollsBack(s: Stores, v: Validated, o: Outcomes)
    requires o.createUser.Created? && o.insertCompany.CreateFailed?
    ensures var run := Provision(s, Ok(v), o);
      && run.result.SignUpFailed?
      && run.after.companies == s.companies && run.after.users == s.users
      && (o.createUser.id !in s.authUsers && !o.deleteUserFails ==> run.after == s)
  {
    if o.createUser.id !in s.authUsers && !o.deleteUserFails {
      AddThenDelete(s.authUsers, o.createUser.id, NewAccount(v));
    }
  }

  /**
   * A failed profile upsert deletes the company and then the auth user. The
   * error returned is the upsert's own message even when a compensating delete
   * fails; when both deletes go through on fresh ids, nothing of the run remains.
   */
  lemma ProfileFailureRollsBack(s: Stores, v: Validated, o: Outcomes)
    requires o.createUser.Created? && o.insertCompany.Created? && o.upsertFault.Some?
    ensures var run := Provision(s, Ok(v), o);
      && run.result == SignUpFailed(o.upsertFault.value)
      && run.after.users == s.users
      && (o.createUser.id !in s.authUsers && o.insertCompany.id !in s.companies
          && !o.deleteCompanyFails && !o.deleteUserFails
          ==> run.after == s)
  {
    if o.createUser.id !in s.authUsers && o.insertCompany.id !in s.companies
       && !o.deleteCompanyFails && !o.deleteUserFails
    {
      AddThenDelete(s.authUsers, o.createUser.id, NewAccount(v));
      AddThenDelete(s.companies, o.insertCompany.id, NewCompany(o.insertCompany.id, v));
    }
  }

  /**
   * On success the result carries both new ids; the account holds the normalised
   * email and the untouched password, the company is `ACTIVE` with the normalised
   * fields, and the profile is an active `COMPANY_ADMIN` of the new company. An
   * existing profile row with the same id is replaced, not rejected.
   */
  lemma {:induction false} SuccessWritesAllThree(s: Stores, input: SignUpInput, o: Outcomes)
    requires Validate(input).Ok? && o.createUser.Created? && o.insertCompany.Created? && o.upsertFault.None?
    ensures var run := SignUp(s, input, o);
      var userId := o.createUser.id;
      var companyId := o.insertCompany.id;
      && run.result == SignedUp(userId, companyId)
      && run.after.authUsers == s.authUsers[userId := AuthAccount(Lower(Trim(input.email)), input.password, true)]
      && run.after.companies == s.companies[companyId := Company(companyId, Trim(input.companyName),
           ParseCompanyType(input.companyType).value, Active,
           Some(Trim(input.prefecture)), Some(Trim(input.city)), Some(Trim(input.phone)))]
      && run.after.users == s.users[userId := UserProfile(userId, Trim(input.userName), CompanyAdmin, Some(companyId), true)]
  {
    var v := Validate(input).value;
    assert ParseCompanyType(input.companyType) == Some(v.companyType);
  }

  /**
   * A signup that succeeded resolves: signing in as the new user gives an
   * identity whose profile is a `COMPANY_ADMIN` of the new company and whose
   * company is the new company row, with no error.
   */
  lemma {:induction false} SignUpThenResolve(s: Stores, v: Validated, o: Outcomes, email: Option<string>)
    requires Provision(s, Ok(v), o).result.SignedUp? && o.insertCompany.Created? && o.insertCompany.id != ""
    ensures var run := Provision(s, Ok(v), o);
      var r := Resolve(SignedIn(AuthUser(run.result.userId, email, None, None)),
                       Table(run.after.users, map[]), Table(run.after.companies, map[]));
      && r.error == None && r.me.Some?
      && r.me.value.profile.Some? && r.me.value.profile.value.role == CompanyAdmin
      && r.me.value.company == Some(NewCompany(run.result.companyId, v))
  {
    var run := Provision(s, Ok(v), o);
    var userId := o.createUser.id;
    var companyId := o.insertCompany.id;
    assert run.after.users[userId] == NewProfile(userId, companyId, v);
    assert run.after.companies[companyId] == NewCompany(companyId, v);
  }
}
