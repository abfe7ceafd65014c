/** The user routes of the backend: score submission, which validates the
    request, stores a score record and updates the user's statistics in
    place, and the score history query. The database is an object holding
    the user documents and the score collection. */
module UserRoutes {
  import opened Wrappers
  import opened UserModel
  import opened ScoreModel

  /** A user document, without its password and dates. */
  datatype Account = Account(username: string, email: string, stats: Stats)

  /** The fields of a submission body; a field left out of the JSON is None. */
  datatype Body = Body(
    gameMode: Option<string>, score: Option<int>, controlMode: Option<string>,
    totalSlaps: Option<int>, maxSpeed: Option<real>)

  /** An HTTP reply: status, message and, on success, the stored record, the
      rank and the statistics summary. */
  datatype Reply = Reply(status: nat, message: string, record: Option<ScoreRecord>, rank: Option<nat>, stats: Option<Summary>)

  function Failure(status: nat, message: string): Reply {
    Reply(status, message, None, None, None)
  }

  const MissingFields := "Game mode and score are required"
  const InvalidMode := "Invalid game mode. Use \"racing\" or \"slap\""
  const UserNotFound := "User not found"
  const SubmitFailed := "Error submitting score"
  const Submitted := "Score submitted successfully"

  /** The record created for a submission: the control mode only for racing,
      the slap figures only for slap (else 0, and 0 when left out), and the
      difficulty always the schema default. */
  function NewRecord(u: UserId, acct: Account, mode: GameMode, score: int, body: Body, now: int): (r: ScoreRecord)
    ensures r.userId == u && r.username == acct.username && r.gameMode == mode && r.score == score && r.date == now
    ensures r.controlMode == if mode == Racing then body.controlMode else None
    ensures r.totalSlaps == if mode == Slap then body.totalSlaps.GetOr(0) else 0
    ensures r.maxSpeed == if mode == Slap then body.maxSpeed.GetOr(0.0) else 0.0
    ensures r.difficultyLevel == Some("intermediate")
  {
    ScoreRecord(u, acct.username, mode, score,
      if mode == Racing then body.controlMode else None,
      Some("intermediate"),
      if mode == Slap then body.totalSlaps.GetOr(0) else 0,
      if mode == Slap then body.maxSpeed.GetOr(0.0) else 0.0,
      now)
  }

  /** A submission's record passes the schema exactly when its score is not
      negative, a racing submission names no control mode or one of "lane"
      and "analog", and a slap submission's figures are not negative; the
      difficulty default is always one the schema accepts. */
  lemma NewRecordSchemaValid(u: UserId, acct: Account, mode: GameMode, score: int, body: Body, now: int)
    ensures SchemaValid(NewRecord(u, acct, mode, score, body, now)) <==>
      && score >= 0
      && (mode == Racing ==> body.controlMode == None || body.controlMode == Some("lane") || body.controlMode == Some("analog"))
      && (mode == Slap ==> body.totalSlaps.GetOr(0) >= 0 && body.maxSpeed.GetOr(0.0) >= 0.0)
  {
  }

  /** The statistics after one stored game: the figures of its mode are
      counted in and the other mode's are untouched. */
  function AfterGame(st: Stats, r: ScoreRecord): (s: Stats)
    ensures r.gameMode == Racing ==>
      && s.racingGamesPlayed == st.racingGamesPlayed + 1
      && s.racingTotalScore == st.racingTotalScore + r.score
      && s.racingHighScore == (if r.score > st.racingHighScore then r.score else st.racingHighScore)
      && s.slapHighScore == st.slapHighScore && s.slapGamesPlayed == st.slapGamesPlayed
      && s.slapTotalSlaps == st.slapTotalSlaps && s.slapMaxSpeed == st.slapMaxSpeed
    ensures r.gameMode == Slap ==>
      && s.slapGamesPlayed == st.slapGamesPlayed + 1
      && s.slapTotalSlaps == st.slapTotalSlaps + r.totalSlaps
      && s.slapHighScore == (if r.score > st.slapHighScore then r.score else st.slapHighScore)
      && s.slapMaxSpeed == (if r.maxSpeed > st.slapMaxSpeed then r.maxSpeed else st.slapMaxSpeed)
      && s.racingHighScore == st.racingHighScore && s.racingGamesPlayed == st.racingGamesPlayed
      && s.racingTotalScore == st.racingTotalScore
  {
    match r.gameMode
    case Racing =>
      st.(racingGamesPlayed := st.racingGamesPlayed + 1,
          racingTotalScore := st.racingTotalScore + r.score,
          racingHighScore := if r.score > st.racingHighScore then r.score else st.racingHighScore)
    case Slap =>
      st.(slapGamesPlayed := st.slapGamesPlayed + 1,
          slapTotalSlaps := st.slapTotalSlaps + r.totalSlaps,
          slapHighScore := if r.score > st.slapHighScore then r.score else st.slapHighScore,
          slapMaxSpeed := if r.maxSpeed > st.slapMaxSpeed then r.maxSpeed else st.slapMaxSpeed)
  }

  /** The statistics obtained by counting in the records one after another. */
  function Replay(st: Stats, rs: seq<ScoreRecord>): Stats
    decreases |rs|
  {
    if rs == [] then st else Replay(AfterGame(st, rs[0]), rs[1..])
  }

  lemma {:induction false} ReplaySnoc(st: Stats, rs: seq<ScoreRecord>, r: ScoreRecord)
    ensures Replay(st, rs + [r]) == AfterGame(Replay(st, rs), r)
    decreases |rs|
  {
    if rs != [] {
      assert (rs + [r])[1..] == rs[1..] + [r];
      ReplaySnoc(AfterGame(st, rs[0]), rs[1..], r);
    }
  }

  /** The statistics figures that the scores themselves bound. */
  ghost predicate Coherent(st: Stats) {
    RacingCoherent(st) && 0.0 <= st.slapMaxSpeed
  }

  /** Counting in a schema-valid record keeps the statistics coherent. */
  lemma AfterGameCoherent(st: Stats, r: ScoreRecord)
    requires Coherent(st) && SchemaValid(r)
    ensures Coherent(AfterGame(st, r))
  {
    if r.gameMode == Racing {
      var hi := if r.score > st.racingHighScore then r.score else st.racingHighScore;
      var g := st.racingGamesPlayed;
      assert g * st.racingHighScore <= g * hi by {
        MulMonotone(g, st.racingHighScore, hi);
      }
      assert (g + 1) * hi == g * hi + hi;
    }
  }

  lemma MulMonotone(g: nat, a: int, b: int)
    requires a <= b
    ensures g * a <= g * b
  {
    assert g * b - g * a == g * (b - a);
  }

  /** A user's statistics replayed from schema-valid records are coherent,
      so the summary's racing average lies between 0 and the high score. */
  lemma {:induction false} ReplayCoherent(st: Stats, rs: seq<ScoreRecord>)
    requires Coherent(st)
    requires forall k :: 0 <= k < |rs| ==> SchemaValid(rs[k])
    ensures Coherent(Replay(st, rs))
    decreases |rs|
  {
    if rs != [] {
      AfterGameCoherent(st, rs[0]);
      ReplayCoherent(AfterGame(st, rs[0]), rs[1..]);
    }
  }

  function IsUser(u: UserId): ScoreRecord -> bool {
    (r: ScoreRecord) => r.userId == u
  }

  lemma {:induction false} FilterSnoc<T(!new)>(s: seq<T>, x: T, keep: T -> bool)
    ensures Filter(s + [x], keep) == Filter(s, keep) + (if keep(x) then [x] else [])
    decreases |s|
  {
    if s != [] {
      assert (s + [x])[1..] == s[1..] + [x];
      FilterSnoc(s[1..], x, keep);
    }
  }

  /** Every stored record is schema-valid and belongs to a known user, and
      each user's statistics are those replayed from that user's records. */
  ghost predicate Consistent(users: map<UserId, Account>, scores: seq<ScoreRecord>) {
    && (forall k :: 0 <= k < |scores| ==> SchemaValid(scores[k]) && scores[k].userId in users)
    && (forall u :: u in users ==> users[u].stats == Replay(DefaultStats, Filter(scores, IsUser(u))))
  }

  /** Storing a schema-valid record of a known user and counting it into that
      user's statistics keeps the database consistent. */
  lemma StoreKeepsConsistent(users: map<UserId, Account>, scores: seq<ScoreRecord>, rec: ScoreRecord)
    requires Consistent(users, scores)
    requires rec.userId in users && SchemaValid(rec)
    ensures Consistent(users[rec.userId := users[rec.userId].(stats := AfterGame(users[rec.userId].stats, rec))], scores + [rec])
  {
    var u := rec.userId;
    var users' := users[u := users[u].(stats := AfterGame(users[u].stats, rec))];
    var scores' := scores + [rec];
    forall v | v in users'
      ensures users'[v].stats == Replay(DefaultStats, Filter(scores', IsUser(v)))
    {
      FilterSnoc(scores, rec, IsUser(v));
      if v == u {
        ReplaySnoc(DefaultStats, Filter(scores, IsUser(u)), rec);
      } else {
        assert Filter(scores, IsUser(v)) + [] == Filter(scores, IsUser(v));
      }
    }
  }

  /** The statistics update of the route, field by field: the record stands
      for the submitted game, whose missing slap figures count as 0. */
  method UpdateStats(st: Stats, mode: GameMode, score: int, body: Body, rec: ScoreRecord) returns (s: Stats)
    requires Coherent(st)
    requires rec.gameMode == mode && rec.score == score
    requires mode == Slap ==> rec.totalSlaps == body.totalSlaps.GetOr(0) && rec.maxSpeed == body.maxSpeed.GetOr(0.0)
    ensures s == AfterGame(st, rec)
  {
    s := st;
    if mode == Racing {
      s := s.(racingGamesPlayed := s.racingGamesPlayed + 1);
      s := s.(racingTotalScore := s.racingTotalScore + score);
      if score > s.racingHighScore {
        s := s.(racingHighScore := score);
      }
    } else {
      s := s.(slapGamesPlayed := s.slapGamesPlayed + 1);
      s := s.(slapTotalSlaps := s.slapTotalSlaps + body.totalSlaps.GetOr(0));
      if score > s.slapHighScore {
        s := s.(slapHighScore := score);
      }
      if body.maxSpeed.Some? && body.maxSpeed.value > s.slapMaxSpeed {
        s := s.(slapMaxSpeed := body.maxSpeed.value);
      }
    }
  }

  /** The user documents and the score collection. */
  class Database {
    var users: map<UserId, Account>
    var scores: seq<ScoreRecord>

    ghost predicate Valid()
      reads this
    {
      Consistent(users, scores)
    }

    /** A database of freshly registered users and no scores. */
    constructor (accounts: map<UserId, Account>)
      requires forall u :: u in accounts ==> accounts[u].stats == DefaultStats
      ensures Valid()
      ensures users == accounts && scores == []
    {
      users := accounts;
      scores := [];
    }

    /** `POST /score` for the authenticated user `u` at time `now`. */
    method SubmitScore(u: UserId, body: Body, now: int) returns (reply: Reply)
      requires Valid()
      modifies this
      ensures Valid()
      ensures (body.gameMode == None || body.gameMode == Some("") || body.score == None) ==>
        reply == Failure(400, MissingFields) && users == old(users) && scores == old(scores)
      ensures body.gameMode.Some? && body.gameMode != Some("") && body.score.Some? ==>
        var parsed := ParseMode(body.gameMode.value);
        && (parsed == None ==> reply == Failure(400, InvalidMode) && users == old(users) && scores == old(scores))
        && (parsed.Some? && u !in old(users) ==> reply == Failure(404, UserNotFound) && users == old(users) && scores == old(scores))
        && (parsed.Some? && u in old(users) ==>
             var rec := NewRecord(u, old(users)[u], parsed.value, body.score.value, body, now);
             && (!SchemaValid(rec) ==> reply == Failure(500, SubmitFailed) && users == old(users) && scores == old(scores))
             && (SchemaValid(rec) ==>
                  && scores == old(scores) + [rec]
                  && users == old(users)[u := old(users)[u].(stats := AfterGame(old(users)[u].stats, rec))]
                  && reply == Reply(201, Submitted, Some(rec), UserRank(scores, u, parsed.value), Some(StatsSummary(users[u].stats)))
                  && reply.rank.Some? && reply.rank.value >= 1))
    {
      if body.gameMode == None || body.gameMode == Some("") || body.score == None {
        return Failure(400, MissingFields);
      }
      var parsed := ParseMode(body.gameMode.value);
      if parsed == None {
        return Failure(400, InvalidMode);
      }
      var mode := parsed.value;
      if u !in users {
        return Failure(404, UserNotFound);
      }
      var acct := users[u];
      var score := body.score.value;
      var rec := NewRecord(u, acct, mode, score, body, now);
      if !SchemaValid(rec) {
        return Failure(500, SubmitFailed);
      }
      StoredStatsCoherent(acct.stats, scores, u);
      var st := UpdateStats(acct.stats, mode, score, body, rec);
      StoreKeepsConsistent(users, scores, rec);
      scores := scores + [rec];
      users := users[u := acct.(stats := st)];
      assert rec in InMode(scores, mode);
      assert InMode(scores, mode)[..] == InMode(scores, mode);
      RankExists(scores, u, mode);
      var rank := UserRank(scores, u, mode);
      reply := Reply(201, Submitted, Some(rec), rank, Some(StatsSummary(st)));
    }
  }

  /** Statistics replayed from schema-valid records are coherent; in
      particular the slap maximum is never negative, so a missing speed (read
      as 0 in the record) never raises it. */
  lemma StoredStatsCoherent(st: Stats, scores: seq<ScoreRecord>, u: UserId)
    requires st == Replay(DefaultStats, Filter(scores, IsUser(u)))
    requires forall k :: 0 <= k < |scores| ==> SchemaValid(scores[k])
    ensures Coherent(st)
  {
    var mine := Filter(scores, IsUser(u));
    forall k | 0 <= k < |mine|
      ensures SchemaValid(mine[k])
    {
      assert mine[k] in mine;
    }
    ReplayCoherent(DefaultStats, mine);
  }

  /** A user's statistics in a valid database satisfy the summary bounds: the
      racing average lies between 0 and the racing high score. */
  lemma SummaryBounds(db: Database, u: UserId)
    requires db.Valid() && u in db.users
    ensures 0 <= StatsSummary(db.users[u].stats).racing.averageScore <= db.users[u].stats.racingHighScore
  {
    StoredStatsCoherent(db.users[u].stats, db.scores, u);
    AverageWithinHighScore(db.users[u].stats);
  }

  // ----- GET /scores -----

  function LaterFirst(r: ScoreRecord): int { r.date }

  /** The records a history query selects: the caller's, and of the named mode
      when a non-empty mode is given. */
  function Selects(u: UserId, mode: Option<string>): ScoreRecord -> bool {
    (r: ScoreRecord) => r.userId == u && (mode == None || mode == Some("") || ModeName(r.gameMode) == mode.value)
  }

  /** `GET /scores`: the selected records, latest first, at most `limit` of
      them (10 when no limit is given; 0 means no limit). */
  function ScoreHistory(scores: seq<ScoreRecord>, u: UserId, mode: Option<string>, limit: Option<nat>): (r: seq<ScoreRecord>)
    ensures forall x :: x in r ==> x in scores && Selects(u, mode)(x)
    ensures forall i, j :: 0 <= i < j < |r| ==> r[i].date >= r[j].date
    ensures limit == None ==> |r| <= 10
    ensures limit.Some? && limit.value > 0 ==> |r| <= limit.value
    ensures var n, m := limit.GetOr(10), |Filter(scores, Selects(u, mode))|;
      |r| == if n == 0 || m <= n then m else n
  {
    var n := limit.GetOr(10);
    var sorted := SortDesc(Filter(scores, Selects(u, mode)), LaterFirst);
    assert forall i, j :: 0 <= i < j < |sorted| ==> LaterFirst(sorted[i]) >= LaterFirst(sorted[j]);
    if n == 0 then sorted else Take(sorted, n)
  }

  /** The history leaves out a selected record only when the page is full,
      and then nothing it shows is older than that record; without a limit
      it holds every selected record exactly once. */
  lemma HistoryComplete(scores: seq<ScoreRecord>, u: UserId, mode: Option<string>, limit: Option<nat>, x: ScoreRecord)
    requires x in scores && Selects(u, mode)(x)
    ensures x !in ScoreHistory(scores, u, mode, limit) ==>
      limit != Some(0) && |ScoreHistory(scores, u, mode, limit)| == limit.GetOr(10)
    ensures x !in ScoreHistory(scores, u, mode, limit) ==>
      forall y :: y in ScoreHistory(scores, u, mode, limit) ==> y.date >= x.date
    ensures limit == Some(0) ==>
      multiset(ScoreHistory(scores, u, mode, limit)) == multiset(Filter(scores, Selects(u, mode)))
  {
    var sorted := SortDesc(Filter(scores, Selects(u, mode)), LaterFirst);
    var r := ScoreHistory(scores, u, mode, limit);
    assert x in sorted;
    var j :| 0 <= j < |sorted| && sorted[j] == x;
    if x !in r {
      forall y | y in r
        ensures y.date >= x.date
      {
        var i :| 0 <= i < |r| && r[i] == y;
        assert sorted[i] == y;
        assert LaterFirst(sorted[i]) >= LaterFirst(sorted[j]);
      }
    }
  }
}
