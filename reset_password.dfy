/**
 * The password-reset page (app/auth/reset-password/page.tsx): whether the
 * recovery link is usable, the checks on the new password, the submit handler
 * and the rule that disables its button.
 */
module ResetPassword {
  import opened Wrappers
  import opened Text
  import opened Identity

  const RecoveryType: string := "recovery"
  const AuthPath: string := "/auth"
  const MinPasswordLength: nat := 8

  const TooShortMessage: string := "8文字以上の新しいパスワードを入力してください。"
  const MismatchMessage: string := "確認用パスワードが一致しません。"
  const ChangedMessage: string := "パスワードを変更しました。ログイン画面からログインしてください。"

  /** The outcome of `auth.getUser()` for the link's session: a rejected promise, or its answer. */
  datatype UserCheck = CheckRejected | Answered(hasUser: bool, error: Option<string>)

  /** A truthy `type` parameter other than `recovery` rules the link out without asking the provider. */
  predicate ForeignLinkType(typeParam: Option<string>) {
    Truthy(typeParam) && typeParam.value != RecoveryType
  }

  /** The effect's verdict on the link. */
  function TokenValid(typeParam: Option<string>, check: UserCheck): (valid: bool)
    ensures valid <==> !ForeignLinkType(typeParam) && check.Answered? && check.hasUser && check.error.None?
  {
    if ForeignLinkType(typeParam) then false
    else match check
      case CheckRejected => false
      case Answered(hasUser, error) => error.None? && hasUser
  }

  /** A foreign link type decides the verdict whatever the provider would have answered. */
  lemma ForeignTypeIgnoresProvider(typeParam: Option<string>, c1: UserCheck, c2: UserCheck)
    requires ForeignLinkType(typeParam)
    ensures TokenValid(typeParam, c1) == TokenValid(typeParam, c2) == false
  {
  }

  /**
   * The first problem with the new password: empty or shorter than eight UTF-16
   * code units, and then a different confirmation.
   */
  function PasswordProblem(password: string, confirmation: string): (problem: Option<string>)
    ensures problem == Some(TooShortMessage) <==> Utf16Length(password) < MinPasswordLength
    ensures problem == Some(MismatchMessage) <==> Utf16Length(password) >= MinPasswordLength && password != confirmation
    ensures problem.None? <==> Utf16Length(password) >= MinPasswordLength && password == confirmation
  {
    if password == [] || Utf16Length(password) < MinPasswordLength then Some(TooShortMessage)
    else if password != confirmation then Some(MismatchMessage)
    else None
  }

  /** Four characters outside the Basic Multilingual Plane already make a long enough password. */
  lemma {:induction false} AstralCharactersCountTwice(password: string)
    requires |password| == 4 && forall k :: 0 <= k < 4 ==> password[k] as int >= 0x10000
    ensures PasswordProblem(password, password).None?
  {
    assert password[..3][..2][..1][..0] == [];
    assert password[..3][..2] == password[..2];
    assert password[..3][..2][..1] == password[..1];
    assert Utf16Length(password[..1]) == 2;
    assert Utf16Length(password[..2]) == 4;
    assert Utf16Length(password[..3]) == 6;
  }

  /** For a password of ordinary characters (none outside the Basic Multilingual Plane), "too short" means fewer than eight characters. */
  lemma BmpPasswordLength(password: string, confirmation: string)
    requires forall k :: 0 <= k < |password| ==> (password[k] as int) < 0x10000
    ensures PasswordProblem(password, confirmation) == Some(TooShortMessage) <==> |password| < MinPasswordLength
  {
    Utf16LengthOfBmp(password);
  }

  /** `submitting || isTokenValid === false`: an unknown verdict does not disable the button. */
  function Disabled(submitting: bool, isTokenValid: Option<bool>): (disabled: bool)
    ensures disabled <==> submitting || isTokenValid == Some(false)
    ensures isTokenValid.None? ==> (disabled <==> submitting)
  {
    submitting || isTokenValid == Some(false)
  }

  class ResetPasswordPage {
    var formError: Option<string>
    var message: Option<string>
    var submitting: bool
    var isTokenValid: Option<bool>
    /** The passwords sent to `auth.updateUser`, in order. */
    var passwordUpdates: seq<string>
    /** The navigation `setTimeout` schedules, if any. */
    var scheduledRedirect: Option<string>

    constructor ()
      ensures formError == None && message == None && !submitting && isTokenValid == None
      ensures passwordUpdates == [] && scheduledRedirect == None
    {
      formError := None;
      message := None;
      submitting := false;
      isTokenValid := None;
      passwordUpdates := [];
      scheduledRedirect := None;
    }

    /** The effect: the verdict on the link. */
    method CheckToken(typeParam: Option<string>, check: UserCheck)
      modifies this`isTokenValid
      ensures isTokenValid == Some(TokenValid(typeParam, check))
    {
      if Truthy(typeParam) && typeParam.value != RecoveryType {
        isTokenValid := Some(false);
        return;
      }
      match check {
        case CheckRejected =>
          isTokenValid := Some(false);
        case Answered(hasUser, error) =>
          if error.Some? || !hasUser {
            isTokenValid := Some(false);
          } else {
            isTokenValid := Some(true);
          }
      }
    }

    /**
     * `handleSubmit`: a rejected password never reaches the provider; otherwise
     * the update is sent and its error, or the success message and the redirect
     * to the sign-in page, follow. `submitting` ends false.
     */
    method HandleSubmit(password: string, confirmation: string, updateFault: Option<string>)
      modifies this`formError, this`message, this`submitting, this`passwordUpdates, this`scheduledRedirect
      ensures PasswordProblem(password, confirmation).Some? ==>
        && formError == PasswordProblem(password, confirmation) && message == None
        && passwordUpdates == old(passwordUpdates) && scheduledRedirect == old(scheduledRedirect)
        && submitting == old(submitting)
      ensures PasswordProblem(password, confirmation).None? ==>
        && passwordUpdates == old(passwordUpdates) + [password]
        && !submitting
        && formError == updateFault
        && message == (if updateFault.Some? then None else Some(ChangedMessage))
        && scheduledRedirect == (if updateFault.Some? then old(scheduledRedirect) else Some(AuthPath))
    {
      formError := None;
      message := None;
      if password == [] || Utf16Length(password) < MinPasswordLength {
        formError := Some(TooShortMessage);
        return;
      }
      if password != confirmation {
        formError := Some(MismatchMessage);
        return;
      }
      submitting := true;
      passwordUpdates := passwordUpdates + [password];
      if updateFault.Some? {
        formError := updateFault;
      } else {
        message := Some(ChangedMessage);
        scheduledRedirect := Some(AuthPath);
      }
      submitting := false;
    }

    /** The button's state. */
    function ButtonDisabled(): bool
      reads this
    {
      Disabled(submitting, isTokenValid)
    }
  }
}
