# Gesture racing and slap games: a Dafny model

This project models the game logic and bookkeeping of a two-game web application: a car race steered by a tilt sensor (or the arrow keys), and a slap game scored by the speed and distance of hand movements. A microcontroller publishes gestures, the browser front end runs the games, and an Express/MongoDB backend stores accounts, per-user statistics and score records.

The model covers:

- **Analog race** (`analog_race.dfy`, with the tier table and progression level in `difficulty.dfy`). A car at a real position in [-1, 1] and a field of obstacles. The `Race` class has spawn, the 50 ms tick (advance, collision test, prune and score), and the clamped gesture and key controls.
- **Lane race** (`lane_race.dfy`). The earlier all-integer variant: three lanes, a fixed step of 2, and collision by lane equality.
- **Ten-slap round** (`slap_round.dfy`). Slap recording, payload coercion, the synthetic slap, and the round-end latch with its 100 ms settle delay.
- **Thirty-second round** (`timed_slap_round.dfy`). The earlier countdown round.
- **Slap rating** (`slap_rating.dfy`), shared by both slap screens.
- **Shells.** The front-end shell (`app.dfy`) and the earlier shell (`legacy_app.dfy`): screens, score reset, the strictly-greater high score, and the best-slap store. `local_best.dfy` holds the store rules both shells share.
- **Backend.**
  - `user_model.dfy`: user schema validators and the stats summary.
  - `score_model.dfy`: score schema, the leaderboard and rank pipelines as functions over a sequence of records.
  - `user_routes.dfy`: `POST /score` over a `Database` class, and `GET /scores`.
- **Client.** The authentication service (`auth_service.dfy`) and the sign-up and login forms (`signup_form.dfy`, `login_form.dfy`).

`wrappers.dfy` holds `Option` and `Result`. `gesture.dfy` holds the gesture union and the JavaScript coercions the games use: `parseFloat(x) || 0`, `parseInt(x) || 0` and `Math.round`.

Inputs from outside the program become parameters:

- a gesture is a method argument;
- a timer firing is a method call (`Tick`, `Spawn`, `SettleTimerFires`, `ClearTimerFires`);
- each `Math.random()` draw is a parameter constrained to its range;
- the time `Date.now()` is a parameter `now`;
- each `fetch` answer is a `Response` value, either `Answer(ok, data)` or `Failed(error)` for a thrown error;
- each `localStorage` key is an `Option` field of the object that writes it.

## Model

| member | source | states |
|---|---|---|
| Difficulty.Catalogue | FrontEnd/src/components/GameBoard.jsx:15-31 | the catalogue has an entry exactly for "beginner", "intermediate" and "complex" |
| Difficulty.Displayed | FrontEnd/src/components/GameBoard.jsx:33 | the displayed tier is the catalogue entry, or intermediate for any other name |
| Difficulty.LoopMatchesCatalogue | FrontEnd/src/components/GameBoard.jsx:81-90 | the loop's spawn interval and base speed agree with the catalogue on the three names; any other name plays at 2000 ms and 3.5 while its label falls back to the medium tier |
| Difficulty.ProgressionLevel | FrontEnd/src/components/GameBoard.jsx:66-69 | the level is in 1..5; below a score of 200 it is exactly floor(score/50)+1, and from 200 on it is 5 |
| Difficulty.LevelMonotone | FrontEnd/src/components/GameBoard.jsx:67-68 | a higher score never gives a lower level |
| Difficulty.ObstacleSpeed | FrontEnd/src/components/GameBoard.jsx:92 | the speed lies between the base speed and base + 1.2, hence within [2.0, 4.7] |
| Difficulty.SpeedMonotone | FrontEnd/src/components/GameBoard.jsx:92 | a higher score never lowers the obstacle speed |
| AnalogRace.Clamp | FrontEnd/src/components/GameBoard.jsx:43 | the result is in [-1, 1], equals the input inside that range, and is the nearer bound outside it |
| AnalogRace.Advanced | FrontEnd/src/components/GameBoard.jsx:118-121 | advancing keeps every obstacle, one for one; AdvanceAll states the moved values |
| AnalogRace.Survivors | FrontEnd/src/components/GameBoard.jsx:143-153 | pruning never adds an obstacle; SurvivorsMembers states which ones stay |
| AnalogRace.BandsDisjoint | FrontEnd/src/components/GameBoard.jsx:127-133 | no car position is within the collision radius of two different lane centres |
| AnalogRace.EdgesAreSafe | FrontEnd/src/components/GameBoard.jsx:127-133 | a car at -1.0 or 1.0 is never hit |
| AnalogRace.CentreIsHit | FrontEnd/src/components/GameBoard.jsx:127-133 | a car at a lane centre is hit by that lane's obstacle in the impact band |
| AnalogRace.SurvivorsMembers | FrontEnd/src/components/GameBoard.jsx:143-153 | an obstacle survives pruning exactly when it was on the field with travel at most 100 |
| AnalogRace.SurvivorsKeepOrder | FrontEnd/src/components/GameBoard.jsx:143-153 | pruning keeps ids strictly increasing |
| AnalogRace.SurvivorsKeepBound | FrontEnd/src/components/GameBoard.jsx:143-153 | pruning keeps every id below the id counter |
| AnalogRace.SurvivorsOnField | FrontEnd/src/components/GameBoard.jsx:143-153 | nothing with travel above 100 survives pruning |
| AnalogRace.Reports | FrontEnd/src/components/GameBoard.jsx:145-149 | one report per pruned obstacle: the first is 10 above the starting score, each later one 10 above the one before, and the last is the starting score plus 10 per pruned obstacle |
| AnalogRace.AdvanceAll | FrontEnd/src/components/GameBoard.jsx:118-121 | every obstacle moves on by the speed with nothing else changed, so the id order and bound are kept |
| AnalogRace.FindCollision | FrontEnd/src/components/GameBoard.jsx:124-134 | the answer is whether some advanced obstacle is within 0.25 of the car in the 70..95 band |
| AnalogRace.Prune | FrontEnd/src/components/GameBoard.jsx:143-155 | the kept obstacles are the survivors in order, the score rises by 10 per removed obstacle, and each new score is reported |
| AnalogRace.Race.Level | FrontEnd/src/components/GameBoard.jsx:10 | the race's level is always in 1..5 |
| AnalogRace.Race.constructor | FrontEnd/src/components/GameBoard.jsx:5-12 | a new race is centred, empty, at score 0, running and valid, at the given difficulty |
| AnalogRace.Race.ApplyGesture | FrontEnd/src/components/GameBoard.jsx:36-46 | a running race with a `normX` gesture puts the car at the clamped value; otherwise the car stays; the position stays in [-1, 1] |
| AnalogRace.Race.KeyDown | FrontEnd/src/components/GameBoard.jsx:49-63 | ArrowLeft and ArrowRight move the car 0.08 with clamping while running; any other key, or any key once stopped, changes nothing |
| AnalogRace.Race.Spawn | FrontEnd/src/components/GameBoard.jsx:97-113 | a running race gains exactly one obstacle at travel -10 in the drawn lane and kind, with an id above every earlier id; the old obstacles are untouched |
| AnalogRace.Race.Tick | FrontEnd/src/components/GameBoard.jsx:116-157 | a collision after advancing stops the race with field and score as before the tick; otherwise the field is the pruned advanced field and the score rises by 10 per removed obstacle; a stopped race is unchanged |
| LaneRace.StepLane | src/components/GameBoard.jsx:17-21 | "left" moves down only from lanes 1 and 2, "right" up only from lanes 0 and 1, and anything else leaves the lane |
| LaneRace.Advanced | src/components/GameBoard.jsx:65-68 | advancing keeps every obstacle, one for one; AdvanceAll and AdvancedTwice state the moved values |
| LaneRace.Survivors | src/components/GameBoard.jsx:82-92 | pruning never adds an obstacle; SurvivorsMembers states which ones stay |
| LaneRace.SurvivorsMembers | src/components/GameBoard.jsx:82-92 | an obstacle survives pruning exactly when it was on the field with travel at most 100 |
| LaneRace.SurvivorsKeepOrder | src/components/GameBoard.jsx:82-92 | pruning keeps ids strictly increasing |
| LaneRace.SurvivorsKeepBound | src/components/GameBoard.jsx:82-92 | pruning keeps every id below the id counter |
| LaneRace.SurvivorsOnField | src/components/GameBoard.jsx:82-92 | nothing with travel above 100 survives pruning |
| LaneRace.AdvancedTwice | src/components/GameBoard.jsx:65-68 | advancing by a and then by b is advancing by a + b |
| LaneRace.PruneThenAdvance | src/components/GameBoard.jsx:65-94 | pruning before a forward move loses nothing: the pruned result after the move is the same |
| LaneRace.RunClosedForm | src/components/GameBoard.jsx:63-96 | k collision-free ticks leave the starting field advanced by 2k with everything past 100 removed |
| LaneRace.SurvivorsOfOnField | src/components/GameBoard.jsx:82-92 | pruning a field with nothing past 100 keeps it whole |
| LaneRace.ObstacleLifetime | src/components/GameBoard.jsx:56-83 | a spawned obstacle has travel -10 + 2k after k collision-free ticks and is on the field exactly for k ≤ 55, being removed on the tick it reaches 102 |
| LaneRace.SettledLaneAsWritten | src/components/GameBoard.jsx:14-22 | the lane the gesture effect settles on when each lane change re-runs it with the same command |
| LaneRace.OneGestureReachesEdge | src/components/GameBoard.jsx:14-22 | as written one "left" ends in lane 0 and one "right" in lane 2 from every lane; from lane 2 a single "left" reaches lane 0, not 1 |
| LaneRace.Race.constructor | src/components/GameBoard.jsx:6-11 | a new race is in lane 1, empty, at score 0 and running |
| LaneRace.Race.ApplyGesture | src/components/GameBoard.jsx:14-22 | a running race applies one lane step for a string gesture; anything else, or any gesture once stopped, leaves the lane |
| LaneRace.Race.KeyDown | src/components/GameBoard.jsx:25-38 | ArrowLeft and ArrowRight take one lane step while running; other keys, or keys once stopped, change nothing |
| LaneRace.Race.Spawn | src/components/GameBoard.jsx:47-60 | a running race gains exactly one obstacle at travel -10 with a fresh increasing id; the old obstacles are untouched |
| LaneRace.Race.Tick | src/components/GameBoard.jsx:63-96 | a collision in the car's lane after advancing by 2 stops the race with field and score unchanged; otherwise the field is the pruned advanced field and the score rises by 10 per removed obstacle, staying a multiple of 10 |
| LaneRace.AdvanceAll | src/components/GameBoard.jsx:65-68 | every obstacle moves on by exactly 2, keeping the id order and bound |
| LaneRace.FindCollision | src/components/GameBoard.jsx:71-73 | the answer is whether some advanced obstacle is in the car's lane in the 70..95 band |
| LaneRace.Prune | src/components/GameBoard.jsx:82-94 | the kept obstacles are the survivors in order, the score rises by 10 per removed obstacle, and each new score is reported |
| SlapRating.Rate | FrontEnd/src/components/SlapGame.jsx:145-151 | each rating holds exactly on its points interval: above 200, 150, 100 and 50 in turn, otherwise NICE |
| SlapRating.RateMonotone | src/components/SlapGame.jsx:66-72 | more points never give a lower rating |
| Gesture.ParseFloat | FrontEnd/src/components/SlapGame.jsx:50-53 | a number field is kept as it is, and a missing or unreadable field becomes 0 |
| Gesture.Truncate | FrontEnd/src/components/SlapGame.jsx:52 | the integer part toward zero: within 1 of the value and never farther from 0 than it |
| Gesture.ParseInt | FrontEnd/src/components/SlapGame.jsx:52 | a number field gives its integer part, and a missing or unreadable field gives 0 |
| Gesture.Round | FrontEnd/src/components/SlapGame.jsx:90 | the nearest integer, with halves going up: the value lies in [r - 0.5, r + 0.5) |
| SlapRound.FromPayload | FrontEnd/src/components/SlapGame.jsx:45-55 | every field is coerced with default 0, and the points come from the payload as an integer, not recomputed |
| SlapRound.Synthetic | FrontEnd/src/components/SlapGame.jsx:88-99 | speed is in [5, 20), distance in [3, 10), points are round(speed·10 + distance·5) and lie in 65..250, and magnitude is speed·1.5 |
| SlapRound.MaxSpeed | FrontEnd/src/components/SlapGame.jsx:71-74 | the running maximum is non-negative, bounds every recorded speed, and is 0 or attained |
| SlapRound.SumPointsConcat | FrontEnd/src/components/SlapGame.jsx:58-63 | the running total is additive: the points of two runs of slaps add up to the points of both |
| SlapRound.MaxDistance | FrontEnd/src/components/SlapGame.jsx:75 | the running maximum is non-negative, bounds every recorded distance, and is 0 or attained |
| SlapRound.Window | FrontEnd/src/components/SlapGame.jsx:57 | the shown history holds at most 10 slaps |
| SlapRound.PrependWindow | FrontEnd/src/components/SlapGame.jsx:57 | prepending to the first nine of the window gives the window of the longer history |
| SlapRound.EqualSlapsTotals | FrontEnd/src/components/SlapGame.jsx:58-74 | n equal slaps total n times the points, with their speed as maximum |
| SlapRound.GestureEffectAsWritten | FrontEnd/src/components/SlapGame.jsx:40-81 | as written a gesture that raises a maximum puts two copies of the slap in front of the history, and any other gesture one copy |
| SlapRound.SlapCountedTwiceAsWritten | FrontEnd/src/components/SlapGame.jsx:71-81 | as written one 125-point gesture on an empty round counts 2 slaps and 250 points |
| SlapRound.Game.constructor | FrontEnd/src/components/SlapGame.jsx:4-16 | a new round is empty, active, unlatched and at zero totals |
| SlapRound.Game.Record | FrontEnd/src/components/SlapGame.jsx:57-75 | the slap is prepended to the recorded slaps; the history is their newest ten; the total, count, maxima and refs are their sum, length and maxima |
| SlapRound.Game.CheckEnd | FrontEnd/src/components/SlapGame.jsx:21-36 | at ten slaps while active the round is latched, made inactive and the settle timer armed; otherwise nothing changes |
| SlapRound.Game.HandleGesture | FrontEnd/src/components/SlapGame.jsx:40-81 | while active a slap payload is recorded once, and the round ends exactly when it is the tenth; anything else is ignored |
| SlapRound.Game.SimulateSlap | FrontEnd/src/components/SlapGame.jsx:87-122 | while active a synthetic slap goes through the same recording and end check |
| SlapRound.Game.SettleTimerFires | FrontEnd/src/components/SlapGame.jsx:33-35 | the end callback is delivered once, with the sum, the count 10 and the top speed of the recorded slaps |
| SlapRound.TenEqualSlaps | FrontEnd/src/components/SlapGame.jsx:18-122 | ten synthetic slaps of speed 10 and distance 5 deliver 1250 points, 10 slaps and top speed 10 |
| TimedSlapRound.Game.constructor | src/components/SlapGame.jsx:4-11 | a new round is empty, active, at zero totals with 30 seconds left |
| TimedSlapRound.Game.HandleGesture | src/components/SlapGame.jsx:34-63 | while active a slap payload is prepended to the recorded slaps with no cap on the count; the totals and maxima follow them; anything else is ignored |
| TimedSlapRound.Game.Tick | src/components/SlapGame.jsx:15-31 | at one second or less the time becomes 0, the round deactivates and the current totals are delivered once; otherwise the time drops by 1; an inactive round is unchanged |
| TimedSlapRound.SilentRound | src/components/SlapGame.jsx:9-31 | a round with no slaps ends after exactly 30 ticks with 0 points, 0 slaps and top speed 0 |
| LocalBest.NextHighScore | FrontEnd/src/App.jsx:91-94 | the high score becomes the score only when strictly beaten |
| LocalBest.NextSlapBest | FrontEnd/src/App.jsx:118-134 | the stored best is replaced when absent or strictly beaten, and kept otherwise |
| LocalBest.SlapBestIsMaximum | FrontEnd/src/App.jsx:118-134 | the stored score after a round is the larger of the round's score and the stored one, a missing score reading as 0 |
| LocalBest.HighAfterIsMaximum | src/App.jsx:67-73 | after a run of racing games the high score is the maximum of the start and every score, and is one of them |
| App.SlapBannerAsWritten | FrontEnd/src/App.jsx:499 | the slap banner test as written, comparing against the just-overwritten stats |
| App.SlapBannerAlwaysShown | FrontEnd/src/App.jsx:499 | as written, a 300-point round shows the banner although the kept best is 500 |
| App.SlapBanner | FrontEnd/src/App.jsx:499 | the intended banner: a positive score that sets a new stored best |
| App.SlapBannerMeansNewBest | FrontEnd/src/App.jsx:118-134 | for a positive score the intended banner shows exactly when the stored best is replaced |
| App.UserAfterSubmit | FrontEnd/src/App.jsx:97-104 | without an ok submit the service's user is unchanged; with an ok submit and profile it is the profile's user; with an ok submit alone it is the same user with the returned stats written into it |
| App.Shell.constructor | FrontEnd/src/App.jsx:11-49 | the shell starts on the auth screen, racing at intermediate difficulty, with the stored high score and slap best |
| App.Shell.CheckAuth | FrontEnd/src/App.jsx:25-35 | a session whose token verifies opens the menu holding the service's user object, which is the verified user; one that fails returns to the auth screen logged out, and the user the shell held keeps its value; without a session nothing changes |
| App.Shell.StartGame | FrontEnd/src/App.jsx:81-86 | the score resets, the mode and difficulty (default intermediate) are recorded, and the mode's screen shows |
| App.Shell.PlayAgain | FrontEnd/src/App.jsx:508 | the same mode and difficulty start again with score 0 |
| App.Shell.SubmitAndRefresh | FrontEnd/src/App.jsx:96-108 | a score is sent only when signed in; the service's user becomes UserAfterSubmit; the shell takes hold of the refreshed user when both requests succeed, and otherwise keeps its reference, so a shell holding the service's user sees the stats a lone ok submit wrote in; failures change no screen state |
| App.Shell.HandleGameOver | FrontEnd/src/App.jsx:88-110 | game over shows; in racing the high score and its entry move only when strictly beaten, the score with its difficulty is submitted when signed in, and the users follow SubmitAndRefresh; a slap session submits nothing |
| App.Shell.HandleSlapGameEnd | FrontEnd/src/App.jsx:112-150 | the score and shown stats become the round's; the stored best follows the replace-when-beaten rule; the score with slaps and top speed is submitted when signed in, and the users follow SubmitAndRefresh; the banner is the intended one |
| App.Shell.ScoreUpdate | FrontEnd/src/App.jsx:152-154 | the score becomes the reported one |
| App.Shell.BackToMenu | FrontEnd/src/App.jsx:156-158 | the menu shows and the score is kept |
| App.Shell.ExitGame | FrontEnd/src/App.jsx:160-163 | the menu shows with score 0 |
| App.Shell.HandleAuthSuccess | FrontEnd/src/App.jsx:165-168 | the shell holds the service's user object, so the shown user is the service's, and the menu shows |
| App.Shell.HandleLogout | FrontEnd/src/App.jsx:170-174 | the service is logged out, the shell holds no user, and the auth screen shows |
| App.Shell.ShowLeaderboard | FrontEnd/src/App.jsx:176-178 | the leaderboard screen shows |
| App.Shell.DeliverGesture | FrontEnd/src/App.jsx:67-72 | the gesture is stored, and only a string gesture arms a clear timer |
| App.Shell.ClearTimerFires | FrontEnd/src/App.jsx:71 | a pending clear timer empties the stored gesture, whatever it is by then |
| App.Shell.RacingBoard | FrontEnd/src/App.jsx:439-449 | the racing screen mounts a fresh valid race at the chosen difficulty |
| App.TwoGuestRaces | FrontEnd/src/App.jsx:81-110 | a guest scoring 120 then 80 ends with high score and stored entry 120 and nothing submitted |
| App.StatsSeenWithoutRefresh | FrontEnd/src/App.jsx:96-108 | a signed-in race whose submit returns new stats but whose profile fetch fails still shows the user with the new stats |
| LegacyApp.Shell.constructor | src/App.jsx:7-28 | the shell starts on the menu, racing in lane control, with the stored high score and slap best |
| LegacyApp.Shell.StartGame | src/App.jsx:60-65 | the score resets, the mode and control mode (default lane) are recorded, and the mode's screen shows |
| LegacyApp.Shell.PlayAgain | src/App.jsx:318 | the same mode and control mode start again with score 0 |
| LegacyApp.Shell.HandleGameOver | src/App.jsx:67-73 | game over shows; in racing the high score and its entry move only when strictly beaten |
| LegacyApp.Shell.HandleSlapGameEnd | src/App.jsx:75-97 | the score becomes the round's, the shown stats carry no score, and the stored best follows the replace-when-beaten rule |
| LegacyApp.Shell.ScoreUpdate | src/App.jsx:100-102 | the score becomes the reported one |
| LegacyApp.Shell.BackToMenu | src/App.jsx:104-106 | the menu shows and the score is kept |
| LegacyApp.Shell.DeliverGesture | src/App.jsx:46-51 | the gesture is stored, and only a string gesture arms a clear timer |
| LegacyApp.Shell.ClearTimerFires | src/App.jsx:50 | a pending clear timer empties the stored gesture |
| LegacyApp.Shell.RacingBoard | src/App.jsx:262-268 | the racing screen mounts the lane board in lane 1 whatever the control mode |
| LegacyApp.WeakerSlapRound | src/App.jsx:75-97 | a 400-point round under a stored 900 keeps the stored best while showing its own figures |
| UserModel.StatsSummary | backend/models/User.js:62-77 | the summary copies the high scores, counts, slaps and top speed; the average is 0 without games and otherwise within rounding of total/games |
| UserModel.AverageWithinHighScore | backend/models/User.js:67-69 | for coherent stats the average lies between 0 and the high score |
| UserModel.TrimStart | backend/models/User.js:9 | the result is the suffix after the leading whitespace |
| UserModel.TrimEnd | backend/models/User.js:9 | the result is the prefix before the trailing whitespace |
| UserModel.Trim | backend/models/User.js:9 | the result neither starts nor ends with whitespace |
| UserModel.TrimIdempotent | backend/models/User.js:17 | trimming twice is trimming once |
| UserModel.Lower | backend/models/User.js:18 | ASCII capitals become lower case and nothing else changes |
| UserModel.MatchesEmailIsPattern | backend/models/User.js:19 | the recognizer accepts exactly the strings of the form non-space+ "@" non-space+ "." non-space+ |
| UserModel.CheckUsername | backend/models/User.js:5-12 | a missing username is required; the trimmed value must be 3..20 long, with the schema's message for each failure |
| UserModel.CheckEmail | backend/models/User.js:13-20 | a missing or blank email is required; the trimmed lower-cased value must match the pattern |
| UserModel.CheckPassword | backend/models/User.js:21-25 | a password is accepted exactly when present with at least 6 characters |
| UserModel.ValidateUser | backend/models/User.js:4-43 | a document is accepted exactly when all three fields pass, with default stats; otherwise the errors of the failing fields are listed |
| ScoreModel.ParseMode | backend/models/Score.js:14-19 | only "racing" and "slap" are game modes, each the inverse of its name |
| ScoreModel.SortDesc | backend/models/Score.js:62 | the sort is non-increasing by key and a permutation of its input |
| ScoreModel.SortKeepsDistinct | backend/models/Score.js:74 | sorting keeps keys distinct |
| ScoreModel.UsersOf | backend/models/Score.js:63-66 | the users listed are distinct, and are exactly those with a record |
| ScoreModel.Best | backend/models/Score.js:62-72 | a user's group entry is one of their records that no other record beats on score, then date |
| ScoreModel.Leaderboard | backend/models/Score.js:59-89 | the leaderboard holds at most `limit` entries |
| ScoreModel.LeaderboardOrdered | backend/models/Score.js:74 | entries are ordered by score, non-increasing |
| ScoreModel.LeaderboardOneEntryPerUser | backend/models/Score.js:63-66 | no user appears twice |
| ScoreModel.LeaderboardEntries | backend/models/Score.js:61-72 | every entry belongs to a user with a record in the mode and carries the slaps, top speed and date of that user's best record |
| ScoreModel.LeaderboardKeepsTop | backend/models/Score.js:74-75 | a user left off a full board scores no more than everyone on it |
| ScoreModel.UserRank | backend/models/Score.js:92-113 | no rank without a record in the mode; otherwise the count of users whose best is at least this user's |
| ScoreModel.CountAtLeast | backend/models/Score.js:108-109 | the count never exceeds the number of users |
| ScoreModel.CountAntitone | backend/models/Score.js:108-109 | raising the threshold never counts more users, and counts strictly fewer when some user's best lies between the two thresholds |
| ScoreModel.RankExists | backend/models/Score.js:97-112 | a rank exists exactly when the user has a record in the mode, and is then at least 1 |
| ScoreModel.RankOrder | backend/models/Score.js:99-112 | equal bests give equal ranks, and a strictly higher best a strictly smaller rank |
| UserRoutes.NewRecord | backend/routes/user.js:75-83 | the record keeps the control mode only for racing, slaps and speed only for slap, and takes the schema's difficulty default |
| UserRoutes.NewRecordSchemaValid | backend/models/Score.js:20-46 | a submission's record passes the schema exactly when its score is not negative, a racing control mode is absent, "lane" or "analog", and a slap's figures are not negative |
| UserRoutes.AfterGame | backend/routes/user.js:86-101 | a racing game counts one game, adds the score and takes the maximum; a slap game does likewise for its stats; the other mode's stats are unchanged |
| UserRoutes.ReplaySnoc | backend/routes/user.js:86-101 | replaying one more record is one more stats update |
| UserRoutes.AfterGameCoherent | backend/routes/user.js:86-101 | a schema-valid game keeps the stats coherent |
| UserRoutes.ReplayCoherent | backend/routes/user.js:86-101 | replaying schema-valid records from coherent stats gives coherent stats |
| UserRoutes.StoreKeepsConsistent | backend/routes/user.js:75-103 | storing a record and its stats update keeps every user's stats equal to the replay of their records |
| UserRoutes.UpdateStats | backend/routes/user.js:86-101 | the in-place updates compute the stats update of the new record |
| UserRoutes.Database.constructor | backend/models/User.js:26-34 | a new database holds users with default stats and no scores |
| UserRoutes.Database.SubmitScore | backend/routes/user.js:45-122 | 400 for a missing mode or score, 400 for an unknown mode, 404 for an unknown user, 500 for a record outside the schema's bounds and enums, each changing nothing; otherwise 201 with the stored record, its rank of at least 1 and the summary of the updated stats |
| UserRoutes.StoredStatsCoherent | backend/routes/user.js:86-101 | stats replayed from schema-valid records are coherent |
| UserRoutes.SummaryBounds | backend/models/User.js:67-69 | every stored user's average lies between 0 and their high score |
| UserRoutes.ScoreHistory | backend/routes/user.js:129-138 | only the caller's records of the requested mode, latest first, and exactly min(limit, number selected) of them (limit 10 by default, 0 for all) |
| UserRoutes.HistoryComplete | backend/routes/user.js:136-138 | a selected record is left out only when the page is full, with a positive limit, and then no shown record is older; with limit 0 every selected record is shown exactly once |
| AuthService.MessageOr | FrontEnd/src/services/authService.js:24 | a non-empty message is used, otherwise the fallback |
| AuthService.ReplyError | FrontEnd/src/services/authService.js:119-121 | no error exactly on an ok answer; a thrown error keeps its text; a refusal carries its message or the fallback |
| AuthService.Service.constructor | FrontEnd/src/services/authService.js:5-8 | the token and user are loaded from storage |
| AuthService.SignedInPassesGuard | FrontEnd/src/services/authService.js:220-222 | a signed-in service passes the token guard of every request, and a service without a user is never signed in |
| AuthService.Service.SetAuth | FrontEnd/src/services/authService.js:212-222 | both fields and both storage entries are set, and the service is signed in exactly when the token is non-empty and a user is given |
| AuthService.Service.Logout | FrontEnd/src/services/authService.js:61-66 | both fields and both storage entries are cleared, and the service is signed out |
| AuthService.Service.VerifyToken | FrontEnd/src/services/authService.js:69-95 | without a token nothing is requested; a refused or failed check logs out; an ok one replaces the user |
| AuthService.Service.SubmitScore | FrontEnd/src/services/authService.js:98-134 | without a token nothing is sent; the body sent is the mode, score and extras; an ok answer with stats replaces only the user's stats |
| AuthService.Service.GetUserProfile | FrontEnd/src/services/authService.js:154-179 | without a token nothing is requested; an ok answer replaces and returns the user |
| AuthService.Service.GetScoreHistory | FrontEnd/src/services/authService.js:182-209 | without a token nothing is requested; the mode is sent only when non-empty and the limit is 10 unless given; an ok answer yields the scores |
| AuthService.Service.Signup | FrontEnd/src/services/authService.js:11-33 | the name, email and password are sent; a refusal fails with its message or "Signup failed" and leaves the session; an ok answer signs in with its token and user |
| AuthService.Service.Login | FrontEnd/src/services/authService.js:36-58 | the name and password are sent; a refusal fails with its message or "Login failed" and leaves the session; an ok answer signs in with its token and user |
| AuthService.LoginThenLogout | FrontEnd/src/services/authService.js:36-101 | signed in after a login and signed out after logout, when a score submission is refused before sending |
| SignUpForm.SignUpCheck | FrontEnd/src/components/SignUp.jsx:26-45 | all checks pass exactly when the three fields are filled, the username has 3 and the password 6 characters, and the passwords match; the first failing check names the error |
| SignUpForm.AcceptedPasswordIsStorable | FrontEnd/src/components/SignUp.jsx:37-40 | a password the form accepts passes the backend's password rule |
| SignUpForm.AcceptedUsernameMayBeRefused | FrontEnd/src/components/SignUp.jsx:32-35 | the form accepts the username "a  " which the backend, trimming first, refuses as too short |
| SignUpForm.Form.constructor | FrontEnd/src/components/SignUp.jsx:5-12 | the form starts with empty fields, no error and not loading |
| SignUpForm.Form.HandleChange | FrontEnd/src/components/SignUp.jsx:14-20 | only the named field changes, and the error is cleared |
| SignUpForm.Form.HandleSubmit | FrontEnd/src/components/SignUp.jsx:22-57 | a failing check shows its error and sends nothing; otherwise the typed name, email and password are sent to register, a failure shows its message or the fallback, and loading ends false |
| LoginForm.LoginCheck | FrontEnd/src/components/Login.jsx:24-27 | the check passes exactly when both fields are filled, and otherwise asks to fill them |
| LoginForm.Form.constructor | FrontEnd/src/components/Login.jsx:5-10 | the form starts with empty fields, no error and not loading |
| LoginForm.Form.HandleChange | FrontEnd/src/components/Login.jsx:12-18 | only the named field changes, and the error is cleared |
| LoginForm.Form.HandleSubmit | FrontEnd/src/components/Login.jsx:20-39 | empty fields show the error and send nothing; otherwise the typed name and password are sent to log in, a failure shows its message or the fallback, and loading ends false |
| LoginForm.Form.ContinueAsGuest | FrontEnd/src/components/Login.jsx:109-112 | the guest path succeeds without any check and sends nothing |

## Left out

- The gesture transport (MQTT connection, reconnection, listeners). Gestures are method arguments.
- Timers and React's scheduling. Interval and timeout firings are explicit method calls. Effect re-runs and stale closures are not modelled, except the re-runs recorded under "## Findings".
- AnalogRace.Race.Tick: takes the car position as a parameter rather than reading the position captured when the loop was scheduled.
- Floating point. Positions, speeds and travel are Dafny reals: there is no IEEE rounding drift near the 70, 95 and 100 bounds, and no `toFixed` formatting.
- AnalogRace.Race.ApplyGesture: a `normX` is either a number or absent (`undefined`). Other JSON values are not modelled. JavaScript converts `null`, booleans and numeric strings to numbers, so a `null` puts the car at 0; any other non-number gives NaN.
- Difficulty.Catalogue: a name that is a built-in object key (such as "constructor") is treated like any unknown name, without JavaScript's prototype lookup.
- Presentation: emoji labels, colours, the car's pixel mapping, the leaderboard screen.
- Lengths are counted in characters, not UTF-16 code units.
- UserModel.Lower: lower-cases only ASCII letters, where the schema lower-cases all of Unicode.
- Gesture.ParseInt: reads a numeric payload by truncation and does not model `String()` exponent forms of very large or very small numbers.
- Password hashing and comparison, JWT checking, and the uniqueness of usernames and emails. These are library or database behaviour.
- Mongoose persistence and `Date.now()`: the store is the `Database` class, the time is a parameter `now`, and record ids are not modelled.
- UserRoutes.Database.SubmitScore: a JSON `null` field is read as absent, and a fractional score is kept as given, without the schema's Number casting.
- UserRoutes.ScoreHistory: a negative or non-numeric `limit` is not modelled.
- ScoreModel.Leaderboard: requires a positive limit, since the database refuses a non-positive `$limit`.
- The `GET /profile` route and `authService.getLeaderboard` are thin wrappers over modelled parts and are not part of this model. The same goes for `backend/routes/leaderboard.js`.
- App.Shell: `currentUser` is a reference: either the service's user object (`ServiceUser`), whose in-place changes it sees, or an object the service no longer holds. A form's sign-in replaces the service's user just before `HandleAuthSuccess` runs; the model's shell sees the new user from that moment, as no handler runs in between. When React re-renders the menu after an in-place change is not modelled.
- AuthService.Service.constructor: the storage entries are read as already-parsed `Option`s. The string "undefined" and malformed JSON in storage are not modelled.
- TimedSlapRound.Game.HandleGesture: the thirty-second slap screen has the same effect dependencies as the ten-slap screen, so there too a gesture that raises a maximum is counted twice. The model records it once, and the finding is logged only for the ten-slap screen.

## Findings

| source | as written | input that shows it | evidently intended | confidence | as-written member | corrected member |
|---|---|---|---|---|---|---|
| src/components/GameBoard.jsx:14-22 | the gesture effect lists `carLane` as a dependency, so each lane change re-runs it with the same string, which is cleared only 100 ms later | a single "left" from lane 2 | one lane step per gesture | high, not executed | LaneRace.OneGestureReachesEdge | LaneRace.Race.ApplyGesture |
| FrontEnd/src/components/SlapGame.jsx:40-81 | the gesture effect depends on `maxSpeed` and `maxDistance`, and an object gesture persists, so a slap that raises a maximum is recorded again | one slap of 125 points on an empty round counts 2 slaps and 250 points | each gesture recorded once | high, not executed | SlapRound.SlapCountedTwiceAsWritten | SlapRound.Game.HandleGesture |
| FrontEnd/src/App.jsx:499 | the slap banner compares the score with `slapStats.score`, which the round end has just set to that same score | stored best 500, new round 300 | the banner only when the stored best was beaten | high, not executed | App.SlapBannerAlwaysShown | App.SlapBanner |
