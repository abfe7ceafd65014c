/** The login form: two text fields, an error line and a loading flag, and
    a way in as a guest. */
module LoginForm {
  import opened Wrappers
  import AuthService

  datatype Field = Username | Password

  const FillAll := "Please fill in all fields"
  const LoginFallback := "Login failed. Please try again."

  /** Both fields must be non-empty. */
  function LoginCheck(username: string, password: string): (r: Option<string>)
    ensures r == None <==> username != "" && password != ""
    ensures r.Some? ==> r.value == FillAll
  {
    if username == "" || password == "" then Some(FillAll) else None
  }

  class Form {
    const auth: AuthService.Service
    var username: string
    var password: string
    var error: string
    var loading: bool

    constructor (auth: AuthService.Service)
      ensures this.auth == auth
      ensures username == "" && password == "" && error == "" && !loading
    {
      this.auth := auth;
      username, password := "", "";
      error, loading := "", false;
    }

    /** `handleChange`: the named field takes the value and the error clears. */
    method HandleChange(field: Field, value: string)
      modifies this
      ensures error == "" && loading == old(loading)
      ensures username == (if field == Username then value else old(username))
      ensures password == (if field == Password then value else old(password))
    {
      error := "";
      match field
      case Username => username := value;
      case Password => password := value;
    }

    /** `handleSubmit`: with an empty field the error is set and nothing is
        sent; otherwise the service logs in, the error is the thrown message
        (or the fallback), and loading ends false. */
    method HandleSubmit(resp: AuthService.Response) returns (succeeded: bool, sent: Option<AuthService.AccountBody>)
      requires auth.Valid()
      modifies this, auth
      ensures auth.Valid()
      ensures username == old(username) && password == old(password)
      ensures var check := LoginCheck(old(username), old(password));
        && (sent.Some? <==> check == None)
        && (sent.Some? ==> sent.value == AuthService.LoginBody(old(username), old(password)))
        && (check.Some? ==> (!succeeded && error == FillAll
              && auth.token == old(auth.token) && auth.user == old(auth.user) && loading == old(loading)))
        && (check == None && resp.Answer? && resp.ok ==> (succeeded && error == "" && !loading
              && auth.token == Some(resp.data.token) && auth.user == resp.data.user))
        && (check == None && !(resp.Answer? && resp.ok) ==>
              (var thrown := AuthService.ReplyError(resp, "Login failed").value;
              !succeeded && error == (if thrown != "" then thrown else LoginFallback)
              && auth.token == old(auth.token) && auth.user == old(auth.user) && !loading))
    {
      error := "";
      var check := LoginCheck(username, password);
      if check.Some? {
        error := check.value;
        return false, None;
      }
      loading := true;
      var body, result := auth.Login(username, password, resp);
      if result.Ok? {
        succeeded := true;
      } else {
        succeeded := false;
        error := if result.message != "" then result.message else LoginFallback;
      }
      loading := false;
      sent := Some(body);
    }

    /** "Continue as Guest": the form reports success without any check and
        without logging in. */
    method ContinueAsGuest() returns (succeeded: bool, sent: Option<AuthService.AccountBody>)
      ensures succeeded && sent == None
    {
      succeeded, sent := true, None;
    }
  }
}
