/** The registration screen: the checks of `handleRegister`, in order, and how the outcome
    of `register` becomes the error line. */
module RegisterScreen {
  import opened Wrappers
  import opened Text
  import AuthService

  const FILL_ALL: string := "Please fill in all fields"
  const PASSWORD_MISMATCH: string := "Passwords do not match"
  const PASSWORD_TOO_SHORT: string := "Password must be at least 8 characters"
  const USERNAME_EXISTS: string := "Username already exists"
  const REGISTRATION_FAILED: string := "Registration failed. Please try again."
  const MIN_PASSWORD_LENGTH: int := 8

  /** The form checks in source order; `None` when all pass. */
  function CheckFields(username: string, password: string, confirmPassword: string): (r: Option<string>)
    ensures r == Some(FILL_ALL) <==> username == "" || password == "" || confirmPassword == ""
    ensures r == Some(PASSWORD_MISMATCH) <==>
      username != "" && password != "" && confirmPassword != "" && password != confirmPassword
    ensures r == Some(PASSWORD_TOO_SHORT) <==>
      username != "" && password != "" && password == confirmPassword && |password| < MIN_PASSWORD_LENGTH
    ensures r.None? <==> username != "" && password == confirmPassword && |password| >= MIN_PASSWORD_LENGTH
  {
    if username == "" || password == "" || confirmPassword == "" then Some(FILL_ALL)
    else if password != confirmPassword then Some(PASSWORD_MISMATCH)
    else if |password| < MIN_PASSWORD_LENGTH then Some(PASSWORD_TOO_SHORT)
    else None
  }

  /** How `register(username, password)` settles: it resolves to a success flag, or it
      throws an error whose `message` may be absent. */
  datatype RegisterOutcome = Resolved(success: bool) | Threw(message: Option<string>)

  /** The error line after a call: empty on success, the duplicate-name text when the
      thrown message mentions 'exists', the generic text otherwise. */
  function OutcomeError(outcome: RegisterOutcome): (e: string)
    ensures e == "" <==> outcome == Resolved(true)
    ensures e == USERNAME_EXISTS <==> outcome.Threw? && outcome.message.Some? && Contains(outcome.message.value, "exists")
    ensures e != "" && e != USERNAME_EXISTS ==> e == REGISTRATION_FAILED
  {
    match outcome
    case Resolved(success) => if success then "" else REGISTRATION_FAILED
    case Threw(message) =>
      if message.Some? && Contains(message.value, "exists") then USERNAME_EXISTS else REGISTRATION_FAILED
  }

  /** The `TypeError` that calling an undefined `register` throws. */
  const UNBOUND_REGISTER: RegisterOutcome := Threw(Some("undefined is not a function"))

  /** With a `register` that resolves or throws the backend's message, the backend's
      duplicate-name message is shown as the duplicate-name text. */
  lemma TakenUsernameRecognised()
    ensures OutcomeError(Threw(Some(AuthService.USERNAME_TAKEN))) == USERNAME_EXISTS
  {
    assert OccursAt(AuthService.USERNAME_TAKEN, "exists", 17);
  }

  /** The screen's state. */
  class RegisterForm {
    var username: string
    var password: string
    var confirmPassword: string
    var error: string

    constructor()
      ensures username == "" && password == "" && confirmPassword == "" && error == ""
    {
      username := "";
      password := "";
      confirmPassword := "";
      error := "";
    }

    /** `handleRegister`. The error is cleared first; a failed check sets its message and
        `register` is not called; otherwise `outcome` is how the call settled, and a
        successful one navigates to the main screen. */
    method HandleRegister(outcome: RegisterOutcome) returns (called: bool, navigated: bool)
      modifies this
      ensures var check := CheckFields(username, password, confirmPassword);
        && (called <==> check.None?)
        && (check.Some? ==> error == check.value)
        && (check.None? ==> error == OutcomeError(outcome))
        && (navigated <==> called && outcome == Resolved(true))
      ensures username == old(username) && password == old(password) && confirmPassword == old(confirmPassword)
    {
      error := "";
      called, navigated := false, false;
      var check := CheckFields(username, password, confirmPassword);
      if check.Some? {
        error := check.value;
        return;
      }
      called := true;
      match outcome
      case Resolved(success) =>
        if success {
          navigated := true;
        } else {
          error := REGISTRATION_FAILED;
        }
      case Threw(message) =>
        if message.Some? && Contains(message.value, "exists") {
          error := USERNAME_EXISTS;
        } else {
          error := REGISTRATION_FAILED;
        }
    }
  }

  /** As written, the user context provides no `register`, so the call throws
      `UNBOUND_REGISTER`: whatever error an earlier attempt left, a valid form ends with the
      generic error and never navigates. */
  method UnboundRegisterAlwaysFails(username: string, password: string, previous: string)
    returns (error: string, navigated: bool)
    requires username != "" && |password| >= MIN_PASSWORD_LENGTH
    ensures error == REGISTRATION_FAILED && !navigated
  {
    var m := UNBOUND_REGISTER.message.value;
    forall j | 0 <= j < |m| ensures m[j] != 'x' {
    }
    assert !Contains(m, "exists") by {
      forall i | 0 <= i <= |m| ensures !OccursAt(m, "exists", i) {
        if i + 6 <= |m| {
          assert m[i..i + 6][1] == m[i + 1];
        }
      }
    }
    var form := new RegisterForm();
    form.username, form.password, form.confirmPassword, form.error := username, password, password, previous;
    var called;
    called, navigated := form.HandleRegister(UNBOUND_REGISTER);
    error := form.error;
  }

  /** With a `register` bound in the user context: whatever error an earlier attempt left,
      a valid form whose registration succeeds ends with no error. */
  method RetryClearsError(username: string, password: string, previous: string)
    returns (error: string, navigated: bool)
    requires username != "" && |password| >= MIN_PASSWORD_LENGTH
    ensures error == "" && navigated
  {
    var form := new RegisterForm();
    form.username, form.password, form.confirmPassword, form.error := username, password, password, previous;
    var called;
    called, navigated := form.HandleRegister(Resolved(true));
    error := form.error;
  }
}
