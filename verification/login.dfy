/** The sign-in form (src/components/LoginScreen.tsx). */
module Login {
  import opened Wrappers
  import opened Backend

  const EmptyFieldsMessage := "Please enter both email and password."
  const UserNotFoundMessage := "No account found with this email. Please contact admin."
  const WrongPasswordMessage := "Incorrect password."
  const InvalidEmailMessage := "Invalid email format."

  /** The message shown for a failed sign-in: a fixed text for three known codes, the
      service's own message for every other code. */
  function SignInErrorMessage(e: ServiceError): (msg: string)
    ensures e.code == "auth/user-not-found" ==> msg == UserNotFoundMessage
    ensures e.code == "auth/wrong-password" ==> msg == WrongPasswordMessage
    ensures e.code == "auth/invalid-email" ==> msg == InvalidEmailMessage
    ensures e.code !in {"auth/user-not-found", "auth/wrong-password", "auth/invalid-email"} ==> msg == e.message
  {
    if e.code == "auth/user-not-found" then UserNotFoundMessage
    else if e.code == "auth/wrong-password" then WrongPasswordMessage
    else if e.code == "auth/invalid-email" then InvalidEmailMessage
    else e.message
  }

  /** The three known codes are told apart, whatever message the service sends. */
  lemma KnownCodesDistinguished(m1: string, m2: string, m3: string)
    ensures var a, b, c := SignInErrorMessage(ServiceError("auth/user-not-found", m1)),
                           SignInErrorMessage(ServiceError("auth/wrong-password", m2)),
                           SignInErrorMessage(ServiceError("auth/invalid-email", m3));
            a != b && b != c && a != c
  {
  }

  class LoginScreen {
    var email: string
    var password: string
    var error: string
    var loading: bool

    constructor ()
      ensures email == "" && password == "" && error == "" && !loading
    {
      email, password, error, loading := "", "", "", false;
    }

    /** `handleLogin` up to the sign-in call: an empty field reports the error and sends
        nothing; otherwise the error is cleared, loading starts and sign-in is requested. */
    method SubmitLogin() returns (request: Option<Request>)
      modifies this`error, this`loading
      ensures email == "" || password == "" ==>
                request == None && error == EmptyFieldsMessage && loading == old(loading)
      ensures email != "" && password != "" ==>
                request == Some(SignIn(email, password)) && error == "" && loading
    {
      if email == "" || password == "" {
        error := EmptyFieldsMessage;
        request := None;
        return;
      }
      error := "";
      loading := true;
      request := Some(SignIn(email, password));
    }

    /** The end of `handleLogin`: a failure shows its message; success or failure, loading
        ends. */
    method SignInSettled(failure: Option<ServiceError>)
      modifies this`error, this`loading
      ensures !loading
      ensures failure.Some? ==> error == SignInErrorMessage(failure.value)
      ensures failure.None? ==> error == old(error)
    {
      if failure.Some? {
        error := SignInErrorMessage(failure.value);
      }
      loading := false;
    }
  }

  /** A whole attempt with both fields filled: sign-in is requested, loading is over
      afterwards, and the error is cleared on success or mapped on failure. */
  method Attempt(s: LoginScreen, failure: Option<ServiceError>) returns (request: Option<Request>)
    requires s.email != "" && s.password != ""
    modifies s
    ensures request == Some(SignIn(s.email, s.password))
    ensures !s.loading
    ensures failure.None? ==> s.error == ""
    ensures failure.Some? ==> s.error == SignInErrorMessage(failure.value)
  {
    request := s.SubmitLogin();
    s.SignInSettled(failure);
  }
}
