/**
 * The platform-admin gate (lib/requirePlatformAdmin.ts): a branch chain over the
 * session lookup and the profile lookup that either redirects or hands back the
 * caller's id.
 */
module AdminGate {
  import opened Wrappers
  import opened Identity

  const SignInPath: string := "/auth"
  const HomePath: string := "/"

  /** A redirect that ends the request, or the context of an admitted platform admin. */
  datatype GateOutcome = Redirect(path: string) | Admitted(authUserId: string)

  /**
   * `requirePlatformAdmin`. Fail closed: it admits exactly a signed-in user whose
   * profile row has role `PLATFORM_ADMIN`, the context carries that user's id,
   * and every other caller is redirected to the sign-in page or the home page.
   */
  function RequirePlatformAdmin(auth: AuthLookup, users: Table<UserProfile>): (g: GateOutcome)
    ensures g.Admitted? <==>
      auth.SignedIn? && Query(users, auth.user.id).Found? && Query(users, auth.user.id).row.role == PlatformAdmin
    ensures g.Admitted? ==> g.authUserId == auth.user.id
    ensures g.Redirect? ==> g.path == SignInPath || g.path == HomePath
  {
    if !auth.SignedIn? then Redirect(SignInPath)
    else
      match Query(users, auth.user.id)
      case Failed(_) => Redirect(SignInPath)
      case Missing => Redirect(SignInPath)
      case Found(p) => if p.role != PlatformAdmin then Redirect(HomePath) else Admitted(auth.user.id)
  }

  /** No session, or a provider error, sends the caller to the sign-in page. */
  lemma NoSessionGoesToSignIn(auth: AuthLookup, users: Table<UserProfile>)
    requires !auth.SignedIn?
    ensures RequirePlatformAdmin(auth, users) == Redirect(SignInPath)
  {
  }

  /** A failed or missing profile is treated as unauthenticated. */
  lemma NoProfileGoesToSignIn(u: AuthUser, users: Table<UserProfile>)
    requires !Query(users, u.id).Found?
    ensures RequirePlatformAdmin(SignedIn(u), users) == Redirect(SignInPath)
  {
  }

  /** Every role other than `PLATFORM_ADMIN` is sent home. */
  lemma OtherRolesGoHome(u: AuthUser, p: UserProfile, users: Table<UserProfile>)
    requires Query(users, u.id) == Found(p) && p.role != PlatformAdmin
    ensures RequirePlatformAdmin(SignedIn(u), users) == Redirect(HomePath)
  {
  }

  /**
   * The checks run in order: an auth failure wins over a profile failure,
   * which wins over a role mismatch. Without a session the profile store does not
   * influence the outcome, and a redirect home happens only once both the session
   * and the profile have resolved.
   */
  lemma ChecksRunInOrder(auth: AuthLookup, users1: Table<UserProfile>, users2: Table<UserProfile>)
    ensures !auth.SignedIn? ==> RequirePlatformAdmin(auth, users1) == RequirePlatformAdmin(auth, users2)
    ensures RequirePlatformAdmin(auth, users1) == Redirect(HomePath) ==>
      auth.SignedIn? && Query(users1, auth.user.id).Found?
  {
  }
}
