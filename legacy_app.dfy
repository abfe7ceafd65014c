/** The earlier front-end shell, without accounts: a menu, the two games and
    a game-over screen, the stored bests and the last gesture. The control
    mode it records is handed to a race board that ignores it. */
module LegacyApp {
  import opened Wrappers
  import opened Gesture
  import opened ScoreModel
  import opened LocalBest
  import LaneRace

  datatype Screen = Menu | Playing(mode: GameMode) | GameOver

  class Shell {
    var gameState: Screen
    var gameMode: GameMode
    var controlMode: string
    var score: int
    var highScore: int
    var slapStats: SlapBest
    var gesture: Option<Gesture>
    /** String gestures whose 100 ms clear timer has not fired yet. */
    var pendingClears: nat
    /** The `carGameHighScore` and `slapGameHighScore` storage entries. */
    var storedHighScore: Option<int>
    var storedSlapBest: Option<SlapBest>

    /** The shown high score is the stored one. */
    ghost predicate Valid()
      reads this
    {
      highScore == storedHighScore.GetOr(0)
    }

    /** The first render and the mount effect's storage reads: the menu,
        racing in lane control, and the stored bests. */
    constructor (savedHighScore: Option<int>, savedSlapBest: Option<SlapBest>)
      ensures Valid()
      ensures gameState == Menu && gameMode == Racing && controlMode == "lane" && score == 0
      ensures highScore == savedHighScore.GetOr(0)
      ensures slapStats == savedSlapBest.GetOr(SlapBest(None, 0, 0.0))
      ensures gesture == None && pendingClears == 0
      ensures storedHighScore == savedHighScore && storedSlapBest == savedSlapBest
    {
      gameState, gameMode, controlMode, score := Menu, Racing, "lane", 0;
      highScore := savedHighScore.GetOr(0);
      slapStats := savedSlapBest.GetOr(SlapBest(None, 0, 0.0));
      gesture, pendingClears := None, 0;
      storedHighScore, storedSlapBest := savedHighScore, savedSlapBest;
    }

    /** `startGame`: score reset, mode and control mode (default lane)
        recorded, and the mode's screen shown. */
    method StartGame(mode: GameMode, control: Option<string>)
      modifies this
      ensures score == 0 && gameMode == mode && controlMode == control.GetOr("lane")
      ensures gameState == Playing(mode)
      ensures highScore == old(highScore) && slapStats == old(slapStats)
      ensures storedHighScore == old(storedHighScore) && storedSlapBest == old(storedSlapBest)
      ensures gesture == old(gesture) && pendingClears == old(pendingClears)
    {
      score := 0;
      gameMode := mode;
      controlMode := control.GetOr("lane");
      gameState := Playing(mode);
    }

    /** "Play Again": the same mode and control mode once more. */
    method PlayAgain()
      modifies this
      ensures score == 0 && gameMode == old(gameMode) && controlMode == old(controlMode)
      ensures gameState == Playing(gameMode)
      ensures highScore == old(highScore) && slapStats == old(slapStats)
      ensures storedHighScore == old(storedHighScore) && storedSlapBest == old(storedSlapBest)
      ensures gesture == old(gesture) && pendingClears == old(pendingClears)
    {
      StartGame(gameMode, Some(controlMode));
    }

    /** `handleGameOver`: the game-over screen; in racing the high score and
        its storage entry move only when strictly beaten. */
    method HandleGameOver()
      requires Valid()
      modifies this`gameState, this`highScore, this`storedHighScore
      ensures Valid()
      ensures gameState == GameOver
      ensures gameMode == Racing ==> highScore == NextHighScore(old(highScore), score)
      ensures gameMode == Racing && score > old(highScore) ==> storedHighScore == Some(score)
      ensures gameMode != Racing || score <= old(highScore) ==>
        highScore == old(highScore) && storedHighScore == old(storedHighScore)
    {
      gameState := GameOver;
      if gameMode == Racing && score > highScore {
        highScore := score;
        storedHighScore := Some(score);
      }
    }

    /** `handleSlapGameEnd`: the round's figures become the score and the
        shown stats (without a score), the game-over screen shows, and the
        stored best moves only when absent or strictly beaten. */
    method HandleSlapGameEnd(finalScore: int, slaps: nat, maxSpeed: real)
      modifies this`score, this`slapStats, this`gameState, this`storedSlapBest
      ensures score == finalScore && slapStats == SlapBest(None, slaps, maxSpeed) && gameState == GameOver
      ensures storedSlapBest == Some(NextSlapBest(old(storedSlapBest), finalScore, slaps, maxSpeed))
    {
      score := finalScore;
      slapStats := SlapBest(None, slaps, maxSpeed);
      gameState := GameOver;
      if storedSlapBest.Some? {
        if finalScore > StoredScore(storedSlapBest.value) {
          storedSlapBest := Some(SlapBest(Some(finalScore), slaps, maxSpeed));
        }
      } else {
        storedSlapBest := Some(SlapBest(Some(finalScore), slaps, maxSpeed));
      }
    }

    /** `handleScoreUpdate`: the running game reports its score. */
    method ScoreUpdate(newScore: int)
      modifies this`score
      ensures score == newScore
    {
      score := newScore;
    }

    /** `backToMenu`. */
    method BackToMenu()
      modifies this`gameState
      ensures gameState == Menu
    {
      gameState := Menu;
    }

    /** The transport delivers a gesture: it is stored, and a string gesture
        arms a timer that will clear the stored gesture. */
    method DeliverGesture(g: Gesture)
      modifies this`gesture, this`pendingClears
      ensures gesture == Some(g)
      ensures pendingClears == old(pendingClears) + (if IsText(g) then 1 else 0)
    {
      gesture := Some(g);
      if IsText(g) {
        pendingClears := pendingClears + 1;
      }
    }

    /** A clear timer fires: whatever gesture is stored then is cleared. */
    method ClearTimerFires()
      modifies this`gesture, this`pendingClears
      ensures old(pendingClears) > 0 ==> gesture == None && pendingClears == old(pendingClears) - 1
      ensures old(pendingClears) == 0 ==> gesture == old(gesture) && pendingClears == 0
    {
      if pendingClears > 0 {
        pendingClears := pendingClears - 1;
        gesture := None;
      }
    }

    /** The racing screen mounts the three-lane board; the control mode is
        passed along but the board takes no such input. */
    method RacingBoard() returns (race: LaneRace.Race)
      requires gameState == Playing(Racing)
      ensures fresh(race) && race.Valid()
      ensures race.carLane == 1 && race.score == 0 && race.running && race.obstacles == []
    {
      race := new LaneRace.Race();
    }
  }

  /** A slap round that does not beat the stored best leaves the entry as it
      was, while the shown stats carry the round's own figures. */
  method WeakerSlapRound() returns (stored: Option<SlapBest>, shown: SlapBest, shownScore: int)
    ensures stored == Some(SlapBest(Some(900), 10, 19.5))
    ensures shown == SlapBest(None, 10, 11.0) && shownScore == 400
  {
    var app := new Shell(None, Some(SlapBest(Some(900), 10, 19.5)));
    app.StartGame(Slap, None);
    app.HandleSlapGameEnd(400, 10, 11.0);
    stored, shown, shownScore := app.storedSlapBest, app.slapStats, app.score;
  }
}
