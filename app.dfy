/** The front-end shell: the screen it shows, the current game's mode,
    difficulty and score, the stored bests, the signed-in user and the last
    gesture from the transport. Each handler is a method. */
module App {
  import opened Wrappers
  import opened Gesture
  import opened ScoreModel
  import opened LocalBest
  import AuthService
  import AnalogRace
  import UserModel

  datatype Screen = AuthScreen | Menu | Playing(mode: GameMode) | LeaderboardScreen | GameOver

  /** What the shell's `currentUser` refers to: the very object the service
      holds as its user, so changes the service makes to that object in place
      are seen through it, or an object the service no longer holds (or null). */
  datatype UserRef = ServiceUser | Detached(user: Option<AuthService.Profile>)

  /** Whether a signed-in game end refreshed the user: the submit and the
      profile fetch both succeeded. */
  predicate Refreshed(signedIn: bool, submitResp: AuthService.Response, profileResp: AuthService.Response) {
    signedIn && AuthService.Accepted(submitResp) && AuthService.Accepted(profileResp)
  }

  /** The service's user after a game end's `submitScore` and, when that
      succeeds, `getUserProfile`: the profile's user when both succeed; the
      same object with the returned statistics written into it when only the
      submit does and it returns statistics; otherwise the user as it was. */
  function UserAfterSubmit(signedIn: bool, user: Option<AuthService.Profile>,
                           submitResp: AuthService.Response, profileResp: AuthService.Response): (r: Option<AuthService.Profile>)
    requires signedIn ==> user.Some?
    ensures !signedIn || !AuthService.Accepted(submitResp) ==> r == user
    ensures Refreshed(signedIn, submitResp, profileResp) ==> r == profileResp.data.user
    ensures signedIn && AuthService.Accepted(submitResp) && !AuthService.Accepted(profileResp) ==>
      r.Some? && r.value.id == user.value.id && r.value.username == user.value.username && r.value.email == user.value.email
      && r.value.stats == (if submitResp.data.stats.Some? then submitResp.data.stats else user.value.stats)
  {
    if !signedIn || !AuthService.Accepted(submitResp) then user
    else if AuthService.Accepted(profileResp) then profileResp.data.user
    else if submitResp.data.stats.Some? then Some(user.value.(stats := submitResp.data.stats))
    else user
  }

  /** The game-over banner for a slap round as written: it compares the
      round's score with `slapStats.score`, which the round end has already
      set to that same score. */
  function SlapBannerAsWritten(score: int, slapStats: SlapBest): bool {
    score >= StoredScore(slapStats) && score > 0
  }

  /** As written the banner shows after every slap round with a positive
      score, even when the stored best is higher. */
  lemma SlapBannerAlwaysShown()
    ensures var stored := SlapBest(Some(500), 10, 18.0);
      && NextSlapBest(Some(stored), 300, 10, 12.0) == stored
      && SlapBannerAsWritten(300, SlapBest(Some(300), 10, 12.0))
  {
  }

  /** The banner as intended: the round's positive score set a new stored best. */
  function SlapBanner(stored: Option<SlapBest>, finalScore: int): (shown: bool)
    ensures shown <==> (finalScore > 0 && NextSlapBest(stored, finalScore, 0, 0.0).score == Some(finalScore)
      && (stored == None || finalScore > StoredScore(stored.value)))
  {
    finalScore > 0 && (stored == None || finalScore > StoredScore(stored.value))
  }

  /** The intended banner shows exactly when the round replaced the stored
      best, and never when a higher best is kept. */
  lemma SlapBannerMeansNewBest(stored: Option<SlapBest>, finalScore: int, slaps: nat, maxSpeed: real)
    requires finalScore > 0
    ensures SlapBanner(stored, finalScore) <==> stored == None || NextSlapBest(stored, finalScore, slaps, maxSpeed) != stored.value
  {
    if stored.Some? && finalScore > StoredScore(stored.value) {
      assert NextSlapBest(stored, finalScore, slaps, maxSpeed).score == Some(finalScore);
      assert stored.value.score != Some(finalScore);
    }
  }

  class Shell {
    const auth: AuthService.Service
    var appState: Screen
    var gameMode: GameMode
    var difficultyLevel: string
    var score: int
    var highScore: int
    var slapStats: SlapBest
    var currentUser: UserRef
    var gesture: Option<Gesture>
    /** String gestures whose 100 ms clear timer has not fired yet. */
    var pendingClears: nat
    /** The `carGameHighScore` and `slapGameHighScore` storage entries. */
    var storedHighScore: Option<int>
    var storedSlapBest: Option<SlapBest>

    /** The service is consistent and the shown high score is the stored one. */
    ghost predicate Valid()
      reads this, auth
    {
      auth.Valid() && highScore == storedHighScore.GetOr(0)
    }

    /** The user object `currentUser` refers to, as the menu shows it. */
    function ShownUser(): Option<AuthService.Profile>
      reads this, auth
    {
      match currentUser
      case ServiceUser => auth.user
      case Detached(u) => u
    }

    /** The first render and the mount effect's storage reads: the auth
        screen, racing at intermediate difficulty, and the stored bests. */
    constructor (auth: AuthService.Service, savedHighScore: Option<int>, savedSlapBest: Option<SlapBest>)
      requires auth.Valid()
      ensures Valid() && this.auth == auth
      ensures appState == AuthScreen && gameMode == Racing && difficultyLevel == "intermediate" && score == 0
      ensures highScore == savedHighScore.GetOr(0)
      ensures slapStats == savedSlapBest.GetOr(SlapBest(Some(0), 0, 0.0))
      ensures currentUser == Detached(None) && gesture == None && pendingClears == 0
      ensures storedHighScore == savedHighScore && storedSlapBest == savedSlapBest
    {
      this.auth := auth;
      appState, gameMode, difficultyLevel, score := AuthScreen, Racing, "intermediate", 0;
      highScore := savedHighScore.GetOr(0);
      slapStats := savedSlapBest.GetOr(SlapBest(Some(0), 0, 0.0));
      currentUser, gesture, pendingClears := Detached(None), None, 0;
      storedHighScore, storedSlapBest := savedHighScore, savedSlapBest;
    }

    /** `checkAuth`: with a stored session the token is verified; a valid one
        opens the menu with the verified user, an invalid one shows the auth
        screen, and the shell's user, which the logout left behind, keeps the
        value it had. Without a session nothing happens. */
    method CheckAuth(resp: AuthService.Response)
      requires Valid()
      modifies this, auth
      ensures Valid()
      ensures score == old(score) && highScore == old(highScore) && gameMode == old(gameMode)
      ensures !old(auth.IsAuthenticated()) ==>
        appState == old(appState) && currentUser == old(currentUser) && auth.token == old(auth.token) && auth.user == old(auth.user)
      ensures old(auth.IsAuthenticated()) && AuthService.Accepted(resp) ==>
        appState == Menu && currentUser == ServiceUser && auth.user == resp.data.user
      ensures old(auth.IsAuthenticated()) && !AuthService.Accepted(resp) ==>
        appState == AuthScreen && !auth.IsAuthenticated() && currentUser == Detached(old(ShownUser()))
    {
      if auth.IsAuthenticated() {
        var held := ShownUser();
        var valid, _ := auth.VerifyToken(resp);
        if valid {
          currentUser := ServiceUser;
          appState := Menu;
        } else {
          currentUser := Detached(held);
          appState := AuthScreen;
        }
      }
    }

    /** `startGame`: score reset, mode and difficulty (default intermediate)
        recorded, and the mode's screen shown. */
    method StartGame(mode: GameMode, difficulty: Option<string>)
      modifies this
      ensures score == 0 && gameMode == mode && difficultyLevel == difficulty.GetOr("intermediate")
      ensures appState == Playing(mode)
      ensures highScore == old(highScore) && slapStats == old(slapStats) && currentUser == old(currentUser)
      ensures storedHighScore == old(storedHighScore) && storedSlapBest == old(storedSlapBest)
      ensures gesture == old(gesture) && pendingClears == old(pendingClears)
    {
      score := 0;
      gameMode := mode;
      difficultyLevel := difficulty.GetOr("intermediate");
      appState := Playing(mode);
    }

    /** "Play Again": the same mode and difficulty once more. */
    method PlayAgain()
      modifies this
      ensures score == 0 && gameMode == old(gameMode) && difficultyLevel == old(difficultyLevel)
      ensures appState == Playing(gameMode)
      ensures highScore == old(highScore) && slapStats == old(slapStats) && currentUser == old(currentUser)
      ensures storedHighScore == old(storedHighScore) && storedSlapBest == old(storedSlapBest)
      ensures gesture == old(gesture) && pendingClears == old(pendingClears)
    {
      StartGame(gameMode, Some(difficultyLevel));
    }

    /** The shared tail of both game ends: when signed in, submit the score
        and, if that succeeds, refresh the user from the profile; a thrown
        error is swallowed. A submit that returns statistics writes them into
        the service's user object, which the shell may be holding too. */
    method SubmitAndRefresh(mode: string, value: int, extras: AuthService.Extras,
                            submitResp: AuthService.Response, profileResp: AuthService.Response)
      returns (sent: Option<AuthService.ScoreBody>)
      requires Valid()
      modifies this, auth
      ensures Valid()
      ensures appState == old(appState) && score == old(score) && highScore == old(highScore)
      ensures gameMode == old(gameMode) && difficultyLevel == old(difficultyLevel) && slapStats == old(slapStats)
      ensures storedHighScore == old(storedHighScore) && storedSlapBest == old(storedSlapBest)
      ensures gesture == old(gesture) && pendingClears == old(pendingClears)
      ensures !old(auth.IsAuthenticated()) ==> auth.token == old(auth.token) && auth.user == old(auth.user)
      ensures sent.Some? <==> old(auth.IsAuthenticated())
      ensures sent.Some? ==> sent.value == AuthService.ScoreBody(mode, value, extras)
      ensures auth.user == UserAfterSubmit(old(auth.IsAuthenticated()), old(auth.user), submitResp, profileResp)
      ensures currentUser == if Refreshed(old(auth.IsAuthenticated()), submitResp, profileResp) then ServiceUser else old(currentUser)
      ensures old(currentUser) == ServiceUser ==> ShownUser() == auth.user
      ensures old(currentUser).Detached? && !Refreshed(old(auth.IsAuthenticated()), submitResp, profileResp) ==>
        ShownUser() == old(ShownUser())
    {
      sent := None;
      if auth.IsAuthenticated() {
        var submitted;
        sent, submitted := auth.SubmitScore(mode, value, extras, submitResp);
        if submitted.Ok? {
          var profile := auth.GetUserProfile(profileResp);
          if profile.Ok? {
            currentUser := ServiceUser;
          }
        }
      }
    }

    /** `handleGameOver` (racing): the game-over screen; the high score and
        its storage entry move only when strictly beaten; then the score is
        submitted with the difficulty when signed in. */
    method HandleGameOver(submitResp: AuthService.Response, profileResp: AuthService.Response)
      returns (sent: Option<AuthService.ScoreBody>)
      requires Valid()
      modifies this, auth
      ensures Valid()
      ensures appState == GameOver && score == old(score) && gameMode == old(gameMode) && difficultyLevel == old(difficultyLevel)
      ensures !old(auth.IsAuthenticated()) ==> auth.token == old(auth.token) && auth.user == old(auth.user)
      ensures slapStats == old(slapStats) && storedSlapBest == old(storedSlapBest)
      ensures gesture == old(gesture) && pendingClears == old(pendingClears)
      ensures gameMode == Racing ==>
        && highScore == NextHighScore(old(highScore), score)
        && (score > old(highScore) ==> storedHighScore == Some(score))
        && (score <= old(highScore) ==> storedHighScore == old(storedHighScore))
        && (sent.Some? <==> old(auth.IsAuthenticated()))
        && (sent.Some? ==> sent.value == AuthService.ScoreBody("racing", score, AuthService.Extras(None, Some(difficultyLevel), None, None)))
        && auth.user == UserAfterSubmit(old(auth.IsAuthenticated()), old(auth.user), submitResp, profileResp)
        && currentUser == (if Refreshed(old(auth.IsAuthenticated()), submitResp, profileResp) then ServiceUser else old(currentUser))
      ensures gameMode != Racing ==>
        && highScore == old(highScore) && storedHighScore == old(storedHighScore) && sent == None
        && currentUser == old(currentUser) && auth.user == old(auth.user)
      ensures old(currentUser) == ServiceUser ==> ShownUser() == auth.user
    {
      appState := GameOver;
      sent := None;
      if gameMode == Racing {
        if score > highScore {
          highScore := score;
          storedHighScore := Some(score);
        }
        sent := SubmitAndRefresh("racing", score, AuthService.Extras(None, Some(difficultyLevel), None, None), submitResp, profileResp);
      }
    }

    /** `handleSlapGameEnd`: the round's figures become the score and the
        shown slap stats, the game-over screen shows, the stored best moves
        only when absent or strictly beaten, and the score is submitted when
        signed in. `banner` is whether the screen should announce a new best. */
    method HandleSlapGameEnd(finalScore: int, slaps: nat, maxSpeed: real,
                             submitResp: AuthService.Response, profileResp: AuthService.Response)
      returns (sent: Option<AuthService.ScoreBody>, banner: bool)
      requires Valid()
      modifies this, auth
      ensures Valid()
      ensures score == finalScore && slapStats == SlapBest(Some(finalScore), slaps, maxSpeed) && appState == GameOver
      ensures storedSlapBest == Some(NextSlapBest(old(storedSlapBest), finalScore, slaps, maxSpeed))
      ensures highScore == old(highScore) && storedHighScore == old(storedHighScore) && gameMode == old(gameMode)
      ensures gesture == old(gesture) && pendingClears == old(pendingClears)
      ensures !old(auth.IsAuthenticated()) ==> auth.token == old(auth.token) && auth.user == old(auth.user)
      ensures sent.Some? <==> old(auth.IsAuthenticated())
      ensures sent.Some? ==> sent.value == AuthService.ScoreBody("slap", finalScore, AuthService.Extras(None, None, Some(slaps), Some(maxSpeed)))
      ensures auth.user == UserAfterSubmit(old(auth.IsAuthenticated()), old(auth.user), submitResp, profileResp)
      ensures currentUser == if Refreshed(old(auth.IsAuthenticated()), submitResp, profileResp) then ServiceUser else old(currentUser)
      ensures old(currentUser) == ServiceUser ==> ShownUser() == auth.user
      ensures banner == SlapBanner(old(storedSlapBest), finalScore)
    {
      banner := SlapBanner(storedSlapBest, finalScore);
      score := finalScore;
      slapStats := SlapBest(Some(finalScore), slaps, maxSpeed);
      appState := GameOver;
      if storedSlapBest.Some? {
        if finalScore > StoredScore(storedSlapBest.value) {
          storedSlapBest := Some(SlapBest(Some(finalScore), slaps, maxSpeed));
        }
      } else {
        storedSlapBest := Some(SlapBest(Some(finalScore), slaps, maxSpeed));
      }
      sent := SubmitAndRefresh("slap", finalScore, AuthService.Extras(None, None, Some(slaps), Some(maxSpeed)), submitResp, profileResp);
    }

    /** `handleScoreUpdate`: the running game reports its score. */
    method ScoreUpdate(newScore: int)
      modifies this`score
      ensures score == newScore
    {
      score := newScore;
    }

    /** `backToMenu`: the menu, keeping the score. */
    method BackToMenu()
      modifies this`appState
      ensures appState == Menu
    {
      appState := Menu;
    }

    /** `exitGame`: the menu, with the score cleared. */
    method ExitGame()
      modifies this`appState, this`score
      ensures appState == Menu && score == 0
    {
      appState := Menu;
      score := 0;
    }

    /** `handleAuthSuccess`: the shell takes hold of the service's user
        object and the menu shows. */
    method HandleAuthSuccess()
      requires Valid()
      modifies this`appState, this`currentUser
      ensures Valid()
      ensures appState == Menu && currentUser == ServiceUser && ShownUser() == auth.user
    {
      currentUser := ServiceUser;
      appState := Menu;
    }

    /** `handleLogout`: the service logs out, no user, the auth screen. */
    method HandleLogout()
      requires Valid()
      modifies this`appState, this`currentUser, auth
      ensures Valid()
      ensures appState == AuthScreen && currentUser == Detached(None) && !auth.IsAuthenticated()
    {
      auth.Logout();
      currentUser := Detached(None);
      appState := AuthScreen;
    }

    /** `showLeaderboard`. */
    method ShowLeaderboard()
      modifies this`appState
      ensures appState == LeaderboardScreen
    {
      appState := LeaderboardScreen;
    }

    /** The transport delivers a gesture: it is stored, and a string gesture
        arms a timer that will clear the stored gesture. */
    method DeliverGesture(g: Gesture)
      modifies this`gesture, this`pendingClears
      ensures gesture == Some(g)
      ensures pendingClears == old(pendingClears) + (if IsText(g) then 1 else 0)
    {
      gesture := Some(g);
      if IsText(g) {
        pendingClears := pendingClears + 1;
      }
    }

    /** A clear timer fires: whatever gesture is stored then, string or not,
        is cleared. */
    method ClearTimerFires()
      modifies this`gesture, this`pendingClears
      ensures old(pendingClears) > 0 ==> gesture == None && pendingClears == old(pendingClears) - 1
      ensures old(pendingClears) == 0 ==> gesture == old(gesture) && pendingClears == 0
    {
      if pendingClears > 0 {
        pendingClears := pendingClears - 1;
        gesture := None;
      }
    }

    /** The racing screen mounts a race board at the chosen difficulty. */
    method RacingBoard() returns (race: AnalogRace.Race)
      requires appState == Playing(Racing)
      ensures fresh(race) && race.Valid()
      ensures race.difficultyLevel == difficultyLevel
      ensures race.score == 0 && race.running && race.obstacles == [] && race.carPosition == 0.0
    {
      race := new AnalogRace.Race(difficultyLevel);
    }
  }

  /** A signed-in player finishes a race; the submit answers with new
      statistics but the profile fetch fails. The menu still shows the new
      statistics, since the shell holds the object the submit updated. */
  method StatsSeenWithoutRefresh(p: AuthService.Profile, s: UserModel.Summary) returns (shown: Option<AuthService.Profile>)
    ensures shown == Some(p.(stats := Some(s)))
  {
    var auth := new AuthService.Service(Some("token"), Some(p));
    var app := new Shell(auth, None, None);
    app.HandleAuthSuccess();
    app.StartGame(Racing, None);
    app.ScoreUpdate(50);
    var submitted := AuthService.Answer(true, AuthService.Data(None, "", None, Some(s), []));
    var sent := app.HandleGameOver(submitted, AuthService.Failed("offline"));
    shown := app.ShownUser();
  }

  /** A guest plays two racing games scoring 120 and then 80: the high score
      and its storage entry end at 120, and nothing is submitted. */
  method TwoGuestRaces() returns (high: int, stored: Option<int>, submitted: bool)
    ensures high == 120 && stored == Some(120) && !submitted
  {
    var auth := new AuthService.Service(None, None);
    var app := new Shell(auth, None, None);
    app.StartGame(Racing, Some("beginner"));
    app.ScoreUpdate(120);
    var none := AuthService.Failed("offline");
    var sent1 := app.HandleGameOver(none, none);
    app.PlayAgain();
    assert app.difficultyLevel == "beginner";
    app.ScoreUpdate(80);
    var sent2 := app.HandleGameOver(none, none);
    high, stored, submitted := app.highScore, app.storedHighScore, sent1.Some? || sent2.Some?;
  }
}
