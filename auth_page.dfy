/**
 * The sign-in page (app/auth/page.tsx): the three form modes, and the submit
 * handler that sends a password-reset mail, signs in, or provisions a new
 * company account and then signs in.
 */
module AuthPage {
  import opened Wrappers
  import opened Text
  import opened Provisioning

  /** `'login' | 'signup' | 'reset'`: `isLoginMode`, `isSignupMode` and `isResetMode` test one value, so exactly one holds. */
  datatype Mode = LoginMode | SignupMode | ResetMode

  const ResetPath: string := "/auth/reset-password"
  const HomePath: string := "/"
  const OnboardingPath: string := "/me?onboarding=displayName"

  const ResetEmailMissingMessage: string := "パスワードを再設定するメールアドレスを入力してください。"
  const ResetSentMessage: string := "パスワード再設定用のメールを送信しました。メールボックスをご確認ください。"
  const LoggedInMessage: string := "ログインしました。"
  const CompanyTypeMissingMessage: string := "「どちらで登録しますか？」を選択してください。"
  const PhoneMissingMessage: string := "電話番号を入力してください。"
  const RegisteredMessage: string := "登録が完了しました（会社・プロフィール作成済み）。"

  /** The form's fields; `companyType` is `''` until one is chosen. */
  datatype Form = Form(
    email: string,
    password: string,
    userName: string,
    companyName: string,
    companyType: string,
    prefecture: string,
    city: string,
    phone: string)

  /** What the page passes to `signUpWithCompany`: the raw fields, unnormalised. */
  function SignUpRequest(f: Form): SignUpInput {
    SignUpInput(f.email, f.password, f.userName, f.companyName, f.companyType, f.prefecture, f.city, f.phone)
  }

  /** `email.trim().toLowerCase()`. */
  function ResetTarget(email: string): (target: string)
    ensures target == [] <==> IsBlank(email)
    ensures |target| == |Trim(email)|
  {
    Lower(Trim(email))
  }

  /** `origin ? origin + '/auth/reset-password' : undefined`, where a missing origin is `''`. */
  function RedirectTo(origin: string): (r: Option<string>)
    ensures r.None? <==> origin == []
    ensures r.Some? ==> StartsWith(r.value, origin) && r.value[|origin|..] == ResetPath
  {
    if origin != [] then Some(origin + ResetPath) else None
  }

  datatype ResetRequest = ResetRequest(email: string, redirectTo: Option<string>)
  datatype Credentials = Credentials(email: string, password: string)

  /** The provider's answer to each call a submission can make: none, or an error message. */
  datatype ProviderFaults = ProviderFaults(resetFault: Option<string>, signInFault: Option<string>)

  /** The page's state, the provider calls it has made and the provisioning stores it writes through. */
  class SignInPage {
    const provisioning: ProvisioningStore
    var mode: Mode
    var message: Option<string>
    var formError: Option<string>
    var submitting: bool
    /** The router's target after the last navigation, if any. */
    var navigatedTo: Option<string>
    var resetRequests: seq<ResetRequest>
    var signInRequests: seq<Credentials>

    constructor (provisioning: ProvisioningStore)
      ensures this.provisioning == provisioning && mode == LoginMode
      ensures message == None && formError == None && !submitting && navigatedTo == None
      ensures resetRequests == [] && signInRequests == []
    {
      this.provisioning := provisioning;
      mode := LoginMode;
      message := None;
      formError := None;
      submitting := false;
      navigatedTo := None;
      resetRequests := [];
      signInRequests := [];
    }

    /** The login and signup tabs: `setMode` alone. */
    method SelectTab(signup: bool)
      modifies this`mode
      ensures mode == (if signup then SignupMode else LoginMode)
    {
      mode := if signup then SignupMode else LoginMode;
    }

    /** The links to and from the reset form: they also clear the banners. */
    method SwitchResetForm(toReset: bool)
      modifies this`mode, this`message, this`formError
      ensures mode == (if toReset then ResetMode else LoginMode)
      ensures message == None && formError == None
    {
      mode := if toReset then ResetMode else LoginMode;
      message := None;
      formError := None;
    }

    /** The submit button is disabled while a submission runs. */
    function SubmitDisabled(): bool
      reads this
    {
      submitting
    }

    /** The provisioning stores as they are now. */
    function Provisioned(): Stores
      reads provisioning
    {
      Stores(provisioning.authUsers, provisioning.companies, provisioning.users)
    }

    /** After the reset branch: a blank address is refused before the provider is called; otherwise the mail is requested. */
    twostate predicate ResetDone(email: string, origin: string, fault: Option<string>)
      reads this, provisioning
    {
      && Provisioned() == old(Provisioned())
      && signInRequests == old(signInRequests) && navigatedTo == old(navigatedTo)
      && (IsBlank(email) ==>
            resetRequests == old(resetRequests) && formError == Some(ResetEmailMissingMessage) && message == None)
      && (!IsBlank(email) ==>
            && resetRequests == old(resetRequests) + [ResetRequest(ResetTarget(email), RedirectTo(origin))]
            && formError == fault
            && message == (if fault.Some? then None else Some(ResetSentMessage)))
    }

    /** After the login branch: one sign-in request, then its error or the success message and the way home. */
    twostate predicate LoginDone(f: Form, fault: Option<string>)
      reads this, provisioning
    {
      && Provisioned() == old(Provisioned())
      && resetRequests == old(resetRequests)
      && signInRequests == old(signInRequests) + [Credentials(f.email, f.password)]
      && formError == fault
      && message == (if fault.Some? then None else Some(LoggedInMessage))
      && navigatedTo == (if fault.Some? then old(navigatedTo) else Some(HomePath))
    }

    /**
     * `handleSubmit`: the banners are cleared, the mode decides which calls are
     * made, the first failure's message becomes `formError`, and `submitting`
     * ends false on every path.
     */
    method HandleSubmit(f: Form, origin: string, faults: ProviderFaults, o: Outcomes)
      modifies this`message, this`formError, this`submitting, this`navigatedTo,
               this`resetRequests, this`signInRequests, provisioning
      ensures !submitting
      ensures mode == ResetMode ==> ResetDone(f.email, origin, faults.resetFault)
      ensures mode == LoginMode ==> LoginDone(f, faults.signInFault)
      ensures mode == SignupMode ==>
        && resetRequests == old(resetRequests)
        && (f.companyType == [] || IsBlank(f.phone) ==>
              && Provisioned() == old(Provisioned())
              && signInRequests == old(signInRequests)
              && navigatedTo == old(navigatedTo) && message == None
              && formError == Some(if f.companyType == [] then CompanyTypeMissingMessage else PhoneMissingMessage))
        && (f.companyType != [] && !IsBlank(f.phone) ==>
              var run := SignUp(old(Provisioned()), SignUpRequest(f), o);
              && Provisioned() == run.after
              && (run.result.SignUpFailed? ==>
                    && signInRequests == old(signInRequests) && navigatedTo == old(navigatedTo)
                    && formError == Some(run.result.error) && message == None)
              && (run.result.SignedUp? ==>
                    && signInRequests == old(signInRequests) + [Credentials(f.email, f.password)]
                    && formError == faults.signInFault
                    && message == (if faults.signInFault.Some? then None else Some(RegisteredMessage))
                    && navigatedTo == (if faults.signInFault.Some? then old(navigatedTo) else Some(OnboardingPath))))
    {
      if mode == ResetMode {
        SubmitReset(f.email, origin, faults.resetFault);
      } else if mode == LoginMode {
        SubmitLogin(f, faults.signInFault);
      } else {
        SubmitSignUp(f, faults.signInFault, o);
      }
    }

    /** The reset branch, run while `submitting` is set. */
    method SubmitReset(email: string, origin: string, fault: Option<string>)
      modifies this`submitting, this`message, this`formError, this`resetRequests
      ensures !submitting
      ensures ResetDone(email, origin, fault)
    {
      submitting := true;
      message := None;
      formError := None;
      var targetEmail := ResetTarget(email);
      if targetEmail == [] {
        formError := Some(ResetEmailMissingMessage);
      } else {
        resetRequests := resetRequests + [ResetRequest(targetEmail, RedirectTo(origin))];
        if fault.Some? {
          formError := fault;
        } else {
          message := Some(ResetSentMessage);
        }
      }
      submitting := false;
    }

    /** The login branch, run while `submitting` is set. */
    method SubmitLogin(f: Form, fault: Option<string>)
      modifies this`submitting, this`message, this`formError, this`signInRequests, this`navigatedTo
      ensures !submitting
      ensures LoginDone(f, fault)
    {
      submitting := true;
      message := None;
      formError := None;
      SignIn(f.email, f.password, fault, LoggedInMessage, HomePath);
      submitting := false;
    }

    /**
     * The signup branch, run while `submitting` is set: the page's own checks on
     * the company type and the phone number refuse before anything is written;
     * otherwise the stores are as provisioning left them, and a new account is
     * signed in and sent to onboarding.
     */
    method SubmitSignUp(f: Form, fault: Option<string>, o: Outcomes)
      modifies this`submitting, this`message, this`formError, this`navigatedTo, this`signInRequests, provisioning
      ensures !submitting
      ensures f.companyType == [] || IsBlank(f.phone) ==>
            && Provisioned() == old(Provisioned())
            && signInRequests == old(signInRequests)
            && navigatedTo == old(navigatedTo) && message == None
            && formError == Some(if f.companyType == [] then CompanyTypeMissingMessage else PhoneMissingMessage)
      ensures f.companyType != [] && !IsBlank(f.phone) ==>
            var run := SignUp(old(Provisioned()), SignUpRequest(f), o);
            && Provisioned() == run.after
            && (run.result.SignUpFailed? ==>
                  && signInRequests == old(signInRequests) && navigatedTo == old(navigatedTo)
                  && formError == Some(run.result.error) && message == None)
            && (run.result.SignedUp? ==>
                  && signInRequests == old(signInRequests) + [Credentials(f.email, f.password)]
                  && formError == fault
                  && message == (if fault.Some? then None else Some(RegisteredMessage))
                  && navigatedTo == (if fault.Some? then old(navigatedTo) else Some(OnboardingPath)))
    {
      submitting := true;
      message := None;
      formError := None;
      if f.companyType == [] {
        formError := Some(CompanyTypeMissingMessage);
      } else if Trim(f.phone) == [] {
        formError := Some(PhoneMissingMessage);
      } else {
        var result := provisioning.SignUpWithCompany(SignUpRequest(f), o);
        if result.SignUpFailed? {
          formError := Some(result.error);
        } else {
          SignIn(f.email, f.password, fault, RegisteredMessage, OnboardingPath);
        }
      }
      submitting := false;
    }

    /** `signInWithPassword`, then the success message and the navigation. */
    method SignIn(email: string, password: string, fault: Option<string>, success: string, target: string)
      requires message == None && formError == None
      modifies this`message, this`formError, this`signInRequests, this`navigatedTo
      ensures signInRequests == old(signInRequests) + [Credentials(email, password)]
      ensures formError == fault
      ensures message == (if fault.Some? then None else Some(success))
      ensures navigatedTo == (if fault.Some? then old(navigatedTo) else Some(target))
    {
      signInRequests := signInRequests + [Credentials(email, password)];
      if fault.Some? {
        formError := fault;
        return;
      }
      message := Some(success);
      navigatedTo := Some(target);
    }
  }

  /**
   * The page's own checks only pass on what the server's validation would also
   * need: a chosen company type and a phone number that is not blank. The
   * server still decides the rest, in its own order.
   */
  lemma PageChecksAreNecessary(f: Form, s: Stores, o: Outcomes)
    requires f.companyType == [] || IsBlank(f.phone)
    ensures SignUp(s, SignUpRequest(f), o).result.SignUpFailed?
    ensures SignUp(s, SignUpRequest(f), o).after == s
  {
    var input := SignUpRequest(f);
    assert FirstFailure(input).Some?;
    ValidateFailsOnFirstFailure(input);
    ValidationFailureWritesNothing(s, input, o);
  }
}
