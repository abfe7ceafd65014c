/** The front end's authentication service: it holds the token and the
    user, mirrors both into browser storage, and wraps the backend requests.
    A request's reply is a parameter: either the server's answer or a
    failure before any answer (network error, body that is not JSON). */
module AuthService {
  import opened Wrappers
  import opened UserModel
  import opened ScoreModel

  /** The user object the server returns. */
  datatype Profile = Profile(id: nat, username: string, email: string, stats: Option<Summary>)

  /** The fields of a reply body the client reads. */
  datatype Data = Data(
    message: Option<string>, token: string, user: Option<Profile>,
    stats: Option<Summary>, scores: seq<ScoreRecord>)

  datatype Response =
    | Answer(ok: bool, data: Data)
    | Failed(error: string)

  /** The fields a caller adds to a score submission. */
  datatype Extras = Extras(
    controlMode: Option<string>, difficultyLevel: Option<string>,
    totalSlaps: Option<int>, maxSpeed: Option<real>)

  /** The JSON body of a score submission. */
  datatype ScoreBody = ScoreBody(gameMode: string, score: int, extras: Extras)

  /** The JSON body of a sign-up or a login request. */
  datatype AccountBody =
    | SignupBody(username: string, email: string, password: string)
    | LoginBody(username: string, password: string)

  /** The query of a score history request. */
  datatype HistoryQuery = HistoryQuery(gameMode: Option<string>, limit: nat)

  const NotAuthenticated := "Not authenticated"
  /** What reading `stats` of a null user throws. */
  const NullUser := "Cannot set properties of null (setting 'stats')"

  /** `data.message || fallback`. */
  function MessageOr(message: Option<string>, fallback: string): (r: string)
    ensures message.Some? && message.value != "" ==> r == message.value
    ensures message == None || message == Some("") ==> r == fallback
  {
    if message.Some? && message.value != "" then message.value else fallback
  }

  /** The error a reply makes a request throw, or None for an ok answer. */
  function ReplyError(resp: Response, fallback: string): (r: Option<string>)
    ensures r == None <==> resp.Answer? && resp.ok
    ensures resp.Failed? ==> r == Some(resp.error)
    ensures resp.Answer? && !resp.ok ==> r == Some(MessageOr(resp.data.message, fallback))
  {
    match resp
    case Failed(e) => Some(e)
    case Answer(ok, data) => if ok then None else Some(MessageOr(data.message, fallback))
  }

  /** The server answered with a success status. */
  predicate Accepted(resp: Response) {
    resp.Answer? && resp.ok
  }

  predicate Truthy(s: Option<string>) {
    s.Some? && s.value != ""
  }

  class Service {
    var token: Option<string>
    var user: Option<Profile>
    /** The `authToken` and `user` storage entries. */
    var storedToken: Option<string>
    var storedUser: Option<Profile>

    /** Storage always mirrors the two fields. */
    ghost predicate Valid()
      reads this
    {
      storedToken == token && storedUser == user
    }

    /** The service loads both fields from storage. */
    constructor (savedToken: Option<string>, savedUser: Option<Profile>)
      ensures Valid()
      ensures token == savedToken && user == savedUser
    {
      token, user := savedToken, savedUser;
      storedToken, storedUser := savedToken, savedUser;
    }

    /** Both a non-empty token and a user are present. */
    predicate IsAuthenticated()
      reads this
    {
      Truthy(token) && user.Some?
    }

    method SetAuth(t: string, u: Option<Profile>)
      modifies this
      ensures Valid()
      ensures token == Some(t) && user == u
      ensures IsAuthenticated() <==> t != "" && u.Some?
    {
      token, user := Some(t), u;
      storedToken, storedUser := Some(t), u;
    }

    method Logout()
      modifies this
      ensures Valid()
      ensures token == None && user == None
      ensures !IsAuthenticated()
    {
      token, user := None, None;
      storedToken, storedUser := None, None;
    }

    /** `verifyToken`: without a token, false and no request; a failed or
        refused request logs out; an ok answer replaces and stores the user. */
    method VerifyToken(resp: Response) returns (valid: bool, requested: bool)
      requires Valid()
      modifies this
      ensures Valid()
      ensures requested <==> Truthy(old(token))
      ensures !requested ==> !valid && token == old(token) && user == old(user)
      ensures requested && !(resp.Answer? && resp.ok) ==> !valid && token == None && user == None
      ensures requested && resp.Answer? && resp.ok ==> valid && token == old(token) && user == resp.data.user
    {
      if !Truthy(token) {
        return false, false;
      }
      requested := true;
      if resp.Failed? || !resp.ok {
        Logout();
        valid := false;
      } else {
        user := resp.data.user;
        storedUser := resp.data.user;
        valid := true;
      }
    }

    /** `submitScore`: refused before any request without a token; the sent
        body is the mode, the score and the extra fields; an ok answer with
        statistics replaces the user's statistics and stores the user. */
    method SubmitScore(gameMode: string, score: int, extras: Extras, resp: Response)
      returns (sent: Option<ScoreBody>, result: Result<Data>)
      requires Valid()
      modifies this
      ensures Valid() && token == old(token)
      ensures !Truthy(old(token)) ==> sent == None && result == Err(NotAuthenticated) && user == old(user)
      ensures Truthy(old(token)) ==> sent == Some(ScoreBody(gameMode, score, extras))
      ensures Truthy(old(token)) && ReplyError(resp, "Score submission failed").Some? ==>
        result == Err(ReplyError(resp, "Score submission failed").value) && user == old(user)
      ensures Truthy(old(token)) && resp.Answer? && resp.ok ==>
        if resp.data.stats == None then result == Ok(resp.data) && user == old(user)
        else if old(user) == None then result == Err(NullUser) && user == None
        else result == Ok(resp.data) && user == Some(old(user).value.(stats := resp.data.stats))
    {
      if !Truthy(token) {
        return None, Err(NotAuthenticated);
      }
      sent := Some(ScoreBody(gameMode, score, extras));
      var error := ReplyError(resp, "Score submission failed");
      if error.Some? {
        return sent, Err(error.value);
      }
      if resp.data.stats.Some? {
        if user == None {
          return sent, Err(NullUser);
        }
        user := Some(user.value.(stats := resp.data.stats));
        storedUser := user;
      }
      result := Ok(resp.data);
    }

    /** `getUserProfile`: refused without a token; an ok answer replaces and
        stores the user. */
    method GetUserProfile(resp: Response) returns (result: Result<Option<Profile>>)
      requires Valid()
      modifies this
      ensures Valid() && token == old(token)
      ensures !Truthy(old(token)) ==> result == Err(NotAuthenticated) && user == old(user)
      ensures Truthy(old(token)) && ReplyError(resp, "Failed to fetch profile").Some? ==>
        result == Err(ReplyError(resp, "Failed to fetch profile").value) && user == old(user)
      ensures Truthy(old(token)) && resp.Answer? && resp.ok ==>
        result == Ok(resp.data.user) && user == resp.data.user
    {
      if !Truthy(token) {
        return Err(NotAuthenticated);
      }
      var error := ReplyError(resp, "Failed to fetch profile");
      if error.Some? {
        return Err(error.value);
      }
      user := resp.data.user;
      storedUser := user;
      result := Ok(user);
    }

    /** `getScoreHistory`: refused without a token; the mode is sent only
        when given and non-empty, the limit is 10 unless given; nothing on the
        service changes. */
    method GetScoreHistory(gameMode: Option<string>, limit: Option<nat>, resp: Response)
      returns (query: Option<HistoryQuery>, result: Result<seq<ScoreRecord>>)
      requires Valid()
      ensures !Truthy(token) ==> query == None && result == Err(NotAuthenticated)
      ensures Truthy(token) ==> query == Some(HistoryQuery(if Truthy(gameMode) then gameMode else None, limit.GetOr(10)))
      ensures Truthy(token) && ReplyError(resp, "Failed to fetch score history").Some? ==>
        result == Err(ReplyError(resp, "Failed to fetch score history").value)
      ensures Truthy(token) && resp.Answer? && resp.ok ==> result == Ok(resp.data.scores)
    {
      if !Truthy(token) {
        return None, Err(NotAuthenticated);
      }
      query := Some(HistoryQuery(if Truthy(gameMode) then gameMode else None, limit.GetOr(10)));
      var error := ReplyError(resp, "Failed to fetch score history");
      if error.Some? {
        return query, Err(error.value);
      }
      result := Ok(resp.data.scores);
    }

    /** `signup`: the three fields are sent; a refused or failed request
        throws and changes nothing; an ok answer stores the returned token and
        user. */
    method Signup(username: string, email: string, password: string, resp: Response)
      returns (sent: AccountBody, result: Result<Data>)
      requires Valid()
      modifies this
      ensures Valid()
      ensures sent == SignupBody(username, email, password)
      ensures ReplyError(resp, "Signup failed").Some? ==>
        result == Err(ReplyError(resp, "Signup failed").value) && token == old(token) && user == old(user)
      ensures resp.Answer? && resp.ok ==>
        result == Ok(resp.data) && token == Some(resp.data.token) && user == resp.data.user
    {
      sent := SignupBody(username, email, password);
      var error := ReplyError(resp, "Signup failed");
      if error.Some? {
        return sent, Err(error.value);
      }
      SetAuth(resp.data.token, resp.data.user);
      result := Ok(resp.data);
    }

    /** `login`: as `signup`, with the name and password sent and its own
        fallback message. */
    method Login(username: string, password: string, resp: Response)
      returns (sent: AccountBody, result: Result<Data>)
      requires Valid()
      modifies this
      ensures Valid()
      ensures sent == LoginBody(username, password)
      ensures ReplyError(resp, "Login failed").Some? ==>
        result == Err(ReplyError(resp, "Login failed").value) && token == old(token) && user == old(user)
      ensures resp.Answer? && resp.ok ==>
        result == Ok(resp.data) && token == Some(resp.data.token) && user == resp.data.user
    {
      sent := LoginBody(username, password);
      var error := ReplyError(resp, "Login failed");
      if error.Some? {
        return sent, Err(error.value);
      }
      SetAuth(resp.data.token, resp.data.user);
      result := Ok(resp.data);
    }
  }

  /** Signing in needs a non-empty token and a user, while the request guards
      test the token alone: a signed-in service always gets past them, and a
      service without a user is never signed in. */
  lemma SignedInPassesGuard(s: Service)
    ensures s.IsAuthenticated() ==> Truthy(s.token)
    ensures s.user == None ==> !s.IsAuthenticated()
  {
  }

  /** A session that logs in and later logs out: authenticated in between,
      and afterwards the guards refuse requests before sending anything. */
  method LoginThenLogout(t: string, p: Profile, resp: Response) returns (between: bool, after: Result<Data>, sent: Option<ScoreBody>)
    requires t != ""
    ensures between && sent == None && after == Err(NotAuthenticated)
  {
    var service := new Service(None, None);
    var data := Data(None, t, Some(p), None, []);
    var body, r := service.Login("racer", "secret", Answer(true, data));
    between := service.IsAuthenticated();
    service.Logout();
    sent, after := service.SubmitScore("racing", 100, Extras(None, None, None, None), resp);
  }
}
