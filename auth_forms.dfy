/** The sign-in and sign-up forms: local checks, the error and loading
    fields, and the call into the session store. The store's sign-in and
    sign-up are inputs: an AuthReply says whether the awaited call resolved
    or threw, and with which message. */
module AuthForms {
  import opened Types

  const MismatchMessage := "Passwords do not match"
  const TooShortMessage := "Password must be at least 6 characters"
  const MinPasswordLength := 6
  const LoginFallback := "Login failed"
  const SignUpFallback := "Sign up failed"

  /** The sign-up checks in their order: matching confirmation first, then
      the minimum length. None means the form may call the backend. */
  function SignUpProblem(password: string, confirm: string): (m: Option<string>)
    ensures m.None? <==> password == confirm && |password| >= MinPasswordLength
    ensures password != confirm ==> m == Some(MismatchMessage)
    ensures password == confirm && |password| < MinPasswordLength ==> m == Some(TooShortMessage)
  {
    if password != confirm then Some(MismatchMessage)
    else if |password| < MinPasswordLength then Some(TooShortMessage)
    else None
  }

  /** The thrown message, or the fallback when the message is empty. */
  function FailureText(message: string, fallback: string): (t: string)
    ensures message != "" ==> t == message
    ensures message == "" ==> t == fallback
    ensures fallback != "" ==> t != ""
  {
    if message != "" then message else fallback
  }

  datatype AuthReply = AuthOk | AuthThrew(message: string)

  datatype Credentials = Credentials(email: string, password: string)

  datatype LoginState = LoginState(email: string, password: string, error: string, loading: bool)

  datatype SignUpState = SignUpState(email: string, password: string, confirmPassword: string, error: string, loading: bool)

  const InitialLogin := LoginState("", "", "", false)
  const InitialSignUp := SignUpState("", "", "", "", false)

  /** One login submit: the call it made, the form while the call was
      pending, whether onSuccess ran, and the form afterwards. */
  datatype LoginRun = LoginRun(call: Credentials, pending: LoginState, notified: bool, final: LoginState)

  function LoginSubmit(p: LoginState, reply: AuthReply, hasOnSuccess: bool): (r: LoginRun)
    // No local checks: the backend is always called, with the typed fields.
    ensures r.call == Credentials(p.email, p.password)
    ensures r.pending.error == "" && r.pending.loading
    ensures !r.final.loading
    ensures r.notified <==> reply.AuthOk? && hasOnSuccess
    ensures reply.AuthOk? ==> r.final.error == ""
    ensures reply.AuthThrew? ==> r.final.error != ""
    ensures reply.AuthThrew? && reply.message != "" ==> r.final.error == reply.message
    ensures r.final.email == p.email && r.final.password == p.password
    ensures r.pending.email == p.email && r.pending.password == p.password
  {
    var pending := p.(error := "", loading := true);
    var settled := match reply
      case AuthOk => pending
      case AuthThrew(msg) => pending.(error := FailureText(msg, LoginFallback));
    LoginRun(Credentials(p.email, p.password), pending, reply.AuthOk? && hasOnSuccess, settled.(loading := false))
  }

  /** One sign-up submit; no call and no pending phase when a check fails. */
  datatype SignUpRun = SignUpRun(call: Option<Credentials>, pending: Option<SignUpState>, notified: bool, final: SignUpState)

  function SignUpSubmit(p: SignUpState, reply: AuthReply, hasOnSuccess: bool): (r: SignUpRun)
    // The backend is called exactly when both checks pass.
    ensures r.call.Some? <==> p.password == p.confirmPassword && |p.password| >= MinPasswordLength
    ensures r.call.Some? <==> r.pending.Some?
    // A failed check stops the submit with its message and nothing else changes.
    ensures r.call.None? ==>
      && !r.notified
      && r.final == p.(error := if p.password != p.confirmPassword then MismatchMessage else TooShortMessage)
    ensures r.call.Some? ==>
      && r.call.value == Credentials(p.email, p.password)
      && r.pending.value == p.(error := "", loading := true)
      && !r.final.loading
      && (r.notified <==> reply.AuthOk? && hasOnSuccess)
      && (reply.AuthOk? ==> r.final.error == "")
      && (reply.AuthThrew? ==> r.final.error != "")
      && (reply.AuthThrew? && reply.message != "" ==> r.final.error == reply.message)
    ensures r.final.email == p.email && r.final.password == p.password && r.final.confirmPassword == p.confirmPassword
  {
    var cleared := p.(error := "");
    match SignUpProblem(p.password, p.confirmPassword)
    case Some(message) =>
      SignUpRun(None, None, false, cleared.(error := message))
    case None =>
      var pending := cleared.(loading := true);
      var settled := match reply
        case AuthOk => pending
        case AuthThrew(msg) => pending.(error := FailureText(msg, SignUpFallback));
      SignUpRun(Some(Credentials(p.email, p.password)), Some(pending),
                reply.AuthOk? && hasOnSuccess, settled.(loading := false))
  }

  /** An empty thrown message falls back to the form's own text. */
  lemma EmptyMessageFallsBack(l: LoginState, s: SignUpState, hasOnSuccess: bool)
    requires s.password == s.confirmPassword && |s.password| >= MinPasswordLength
    ensures LoginSubmit(l, AuthThrew(""), hasOnSuccess).final.error == LoginFallback
    ensures SignUpSubmit(s, AuthThrew(""), hasOnSuccess).final.error == SignUpFallback
  {
  }

  /** An example of the length check: a five-character password that
      matches its confirmation is refused locally, before any call. */
  lemma FiveCharacterPasswordRefused(email: string, error: string, loading: bool)
    ensures var r := SignUpSubmit(SignUpState(email, "abcde", "abcde", error, loading), AuthOk, true);
      r.call.None? && r.final.error == TooShortMessage
  {
  }

  /** An example of the check order: when both checks fail, the mismatch
      is what the user is told. */
  lemma MismatchReportedFirst(p: SignUpState, reply: AuthReply, hasOnSuccess: bool)
    requires p.password != p.confirmPassword && |p.password| < MinPasswordLength
    ensures SignUpSubmit(p, reply, hasOnSuccess).final.error == MismatchMessage
  {
  }

  // ---------------------------------------------------------------------
  // The form components

  class LoginForm {
    var email: string
    var password: string
    var error: string
    var loading: bool

    function State(): LoginState
      reads this
    {
      LoginState(email, password, error, loading)
    }

    constructor ()
      ensures State() == InitialLogin
    {
      email, password, error, loading := "", "", "", false;
    }

    method SetEmail(value: string)
      modifies this
      ensures State() == old(State()).(email := value)
    {
      email := value;
    }

    method SetPassword(value: string)
      modifies this
      ensures State() == old(State()).(password := value)
    {
      password := value;
    }

    /** The submit handler; `call` is what it passed to sign-in. */
    method HandleSubmit(reply: AuthReply, hasOnSuccess: bool) returns (call: Credentials, notified: bool)
      modifies this
      ensures var r := LoginSubmit(old(State()), reply, hasOnSuccess);
        State() == r.final && call == r.call && notified == r.notified
    {
      error := "";
      loading := true;
      call := Credentials(email, password);
      notified := false;
      match reply {
        case AuthOk =>
          notified := hasOnSuccess;
        case AuthThrew(msg) =>
          error := FailureText(msg, LoginFallback);
      }
      loading := false;
    }
  }

  class SignUpForm {
    var email: string
    var password: string
    var confirmPassword: string
    var error: string
    var loading: bool

    function State(): SignUpState
      reads this
    {
      SignUpState(email, password, confirmPassword, error, loading)
    }

    constructor ()
      ensures State() == InitialSignUp
    {
      email, password, confirmPassword, error, loading := "", "", "", "", false;
    }

    method SetEmail(value: string)
      modifies this
      ensures State() == old(State()).(email := value)
    {
      email := value;
    }

    method SetPassword(value: string)
      modifies this
      ensures State() == old(State()).(password := value)
    {
      password := value;
    }

    method SetConfirmPassword(value: string)
      modifies this
      ensures State() == old(State()).(confirmPassword := value)
    {
      confirmPassword := value;
    }

    /** The submit handler; `call` is what it passed to sign-up, if anything. */
    method HandleSubmit(reply: AuthReply, hasOnSuccess: bool) returns (call: Option<Credentials>, notified: bool)
      modifies this
      ensures var r := SignUpSubmit(old(State()), reply, hasOnSuccess);
        State() == r.final && call == r.call && notified == r.notified
    {
      error := "";
      call, notified := None, false;
      if password != confirmPassword {
        error := MismatchMessage;
        return;
      }
      if |password| < MinPasswordLength {
        error := TooShortMessage;
        return;
      }
      loading := true;
      call := Some(Credentials(email, password));
      match reply {
        case AuthOk =>
          notified := hasOnSuccess;
        case AuthThrew(msg) =>
          error := FailureText(msg, SignUpFallback);
      }
      loading := false;
    }
  }
}
