/** The sign-up form: four text fields, an error line and a loading flag;
    submission runs an ordered chain of checks before asking the
    authentication service to register. */
module SignUpForm {
  import opened Wrappers
  import AuthService
  import UserModel

  datatype Field = Username | Email | Password | ConfirmPassword

  const FillAll := "Please fill in all fields"
  const UsernameShort := "Username must be at least 3 characters"
  const PasswordShort := "Password must be at least 6 characters"
  const Mismatch := "Passwords do not match"
  const SignupFallback := "Signup failed. Please try again."

  /** The checks in order; the first failing one gives the error. */
  function SignUpCheck(username: string, email: string, password: string, confirm: string): (r: Option<string>)
    ensures r == None <==>
      username != "" && email != "" && password != "" && |username| >= 3 && |password| >= 6 && password == confirm
    ensures (username == "" || email == "" || password == "") ==> r == Some(FillAll)
    ensures username != "" && email != "" && password != "" ==>
      && (|username| < 3 ==> r == Some(UsernameShort))
      && (|username| >= 3 && |password| < 6 ==> r == Some(PasswordShort))
      && (|username| >= 3 && |password| >= 6 && password != confirm ==> r == Some(Mismatch))
  {
    if username == "" || email == "" || password == "" then Some(FillAll)
    else if |username| < 3 then Some(UsernameShort)
    else if |password| < 6 then Some(PasswordShort)
    else if password != confirm then Some(Mismatch)
    else None
  }

  /** A password the form accepts also passes the backend's password rule. */
  lemma AcceptedPasswordIsStorable(username: string, email: string, password: string, confirm: string)
    requires SignUpCheck(username, email, password, confirm) == None
    ensures UserModel.CheckPassword(Some(password)) == Ok(password)
  {
  }

  /** The form counts the untrimmed username, the backend the trimmed one: a
      username the form accepts can still be refused by the backend. */
  lemma AcceptedUsernameMayBeRefused()
    ensures SignUpCheck("a  ", "a@b.c", "secret", "secret") == None
    ensures UserModel.CheckUsername(Some("a  ")) == Err(UserModel.UsernameTooShort)
  {
    var s := "a  ";
    assert !UserModel.IsSpace('a') && UserModel.IsSpace(' ');
    assert UserModel.TrimStart(s) == s;
    assert s[..2] == "a " && "a "[..1] == "a";
    assert UserModel.TrimEnd("a") == "a";
    assert UserModel.TrimEnd(s) == "a";
  }

  class Form {
    const auth: AuthService.Service
    var username: string
    var email: string
    var password: string
    var confirmPassword: string
    var error: string
    var loading: bool

    constructor (auth: AuthService.Service)
      ensures this.auth == auth
      ensures username == "" && email == "" && password == "" && confirmPassword == ""
      ensures error == "" && !loading
    {
      this.auth := auth;
      username, email, password, confirmPassword := "", "", "", "";
      error, loading := "", false;
    }

    /** `handleChange`: the named field takes the value and the error clears. */
    method HandleChange(field: Field, value: string)
      modifies this
      ensures error == "" && loading == old(loading)
      ensures username == (if field == Username then value else old(username))
      ensures email == (if field == Email then value else old(email))
      ensures password == (if field == Password then value else old(password))
      ensures confirmPassword == (if field == ConfirmPassword then value else old(confirmPassword))
    {
      error := "";
      match field
      case Username => username := value;
      case Email => email := value;
      case Password => password := value;
      case ConfirmPassword => confirmPassword := value;
    }

    /** `handleSubmit`: a failing check sets its error and nothing is sent;
        otherwise the service registers, the error is the thrown message (or
        the fallback when that is empty), and loading ends false. */
    method HandleSubmit(resp: AuthService.Response) returns (succeeded: bool, sent: Option<AuthService.AccountBody>)
      requires auth.Valid()
      modifies this, auth
      ensures auth.Valid()
      ensures username == old(username) && email == old(email) && password == old(password)
      ensures confirmPassword == old(confirmPassword)
      ensures var check := SignUpCheck(old(username), old(email), old(password), old(confirmPassword));
        && (sent.Some? <==> check == None)
        && (sent.Some? ==> sent.value == AuthService.SignupBody(old(username), old(email), old(password)))
        && (check.Some? ==> (!succeeded && error == check.value
              && auth.token == old(auth.token) && auth.user == old(auth.user) && loading == old(loading)))
        && (check == None && resp.Answer? && resp.ok ==> (succeeded && error == "" && !loading
              && auth.token == Some(resp.data.token) && auth.user == resp.data.user))
        && (check == None && !(resp.Answer? && resp.ok) ==>
              (var thrown := AuthService.ReplyError(resp, "Signup failed").value;
              !succeeded && error == (if thrown != "" then thrown else SignupFallback)
              && auth.token == old(auth.token) && auth.user == old(auth.user) && !loading))
    {
      error := "";
      var check := SignUpCheck(username, email, password, confirmPassword);
      if check.Some? {
        error := check.value;
        return false, None;
      }
      loading := true;
      var body, result := auth.Signup(username, email, password, resp);
      if result.Ok? {
        succeeded := true;
      } else {
        succeeded := false;
        error := if result.message != "" then result.message else SignupFallback;
      }
      loading := false;
      sent := Some(body);
    }
  }
}
