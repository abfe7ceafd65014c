/** The score document of the backend and the two aggregation pipelines
    over it: the per-mode leaderboard and a user's rank. The collection is a
    sequence of records; pipeline stages become filters, sorts and folds. */
module ScoreModel {
  import opened Wrappers

  /** A user's document identifier. */
  type UserId = nat

  datatype GameMode = Racing | Slap

  /** The mode names accepted by the schema. */
  function ModeName(m: GameMode): string {
    match m
    case Racing => "racing"
    case Slap => "slap"
  }

  /** A mode name, or None for any other string. */
  function ParseMode(s: string): (m: Option<GameMode>)
    ensures m.Some? <==> s == "racing" || s == "slap"
    ensures m.Some? ==> ModeName(m.value) == s
  {
    if s == "racing" then Some(Racing)
    else if s == "slap" then Some(Slap)
    else None
  }

  /** One stored score (`date` is a time stamp). */
  datatype ScoreRecord = ScoreRecord(
    userId: UserId, username: string, gameMode: GameMode, score: int,
    controlMode: Option<string>, difficultyLevel: Option<string>,
    totalSlaps: int, maxSpeed: real, date: int)

  /** The schema's bounds and enumerations. */
  predicate SchemaValid(r: ScoreRecord) {
    && r.score >= 0
    && r.totalSlaps >= 0
    && r.maxSpeed >= 0.0
    && (r.controlMode == None || r.controlMode == Some("lane") || r.controlMode == Some("analog"))
    && (r.difficultyLevel == None || r.difficultyLevel == Some("beginner")
        || r.difficultyLevel == Some("intermediate") || r.difficultyLevel == Some("complex"))
  }

  // ----- sequence helpers -----

  /** The elements of `s` that satisfy `keep`, in order. */
  function Filter<T(!new)>(s: seq<T>, keep: T -> bool): (r: seq<T>)
    ensures |r| <= |s|
    ensures forall x :: x in r <==> x in s && keep(x)
  {
    if s == [] then []
    else if keep(s[0]) then [s[0]] + Filter(s[1..], keep)
    else Filter(s[1..], keep)
  }

  /** The first `n` elements, or all of them. */
  function Take<T>(s: seq<T>, n: nat): (r: seq<T>)
    ensures |r| == if n < |s| then n else |s|
    ensures r == s[..|r|]
  {
    if n < |s| then s[..n] else s
  }

  predicate SortedDesc<T>(s: seq<T>, key: T -> int) {
    forall i, j :: 0 <= i < j < |s| ==> key(s[i]) >= key(s[j])
  }

  predicate DistinctBy<T, K(==)>(s: seq<T>, id: T -> K) {
    forall i, j :: 0 <= i < j < |s| ==> id(s[i]) != id(s[j])
  }

  /** `x` inserted into a sequence sorted by decreasing key, after the
      elements with a larger key and before those with an equal or smaller one. */
  function Insert<T(!new)>(x: T, s: seq<T>, key: T -> int): (r: seq<T>)
    requires SortedDesc(s, key)
    ensures |r| == |s| + 1
    ensures SortedDesc(r, key)
    ensures multiset(r) == multiset(s) + multiset{x}
    ensures forall y :: y in r <==> y == x || y in s
  {
    if s == [] || key(x) >= key(s[0]) then [x] + s
    else
      var rest := Insert(x, s[1..], key);
      assert s == [s[0]] + s[1..];
      assert forall k :: 0 <= k < |rest| ==> key(s[0]) >= key(rest[k]) by {
        forall k | 0 <= k < |rest|
          ensures key(s[0]) >= key(rest[k])
        {
          assert rest[k] in rest;
        }
      }
      [s[0]] + rest
  }

  /** A stable sort by decreasing key. */
  function SortDesc<T(!new)>(s: seq<T>, key: T -> int): (r: seq<T>)
    ensures |r| == |s|
    ensures SortedDesc(r, key)
    ensures multiset(r) == multiset(s)
    ensures forall y :: y in r <==> y in s
  {
    if s == [] then []
    else
      assert s == [s[0]] + s[1..];
      Insert(s[0], SortDesc(s[1..], key), key)
  }

  lemma {:induction false} InsertKeepsDistinct<T(!new), K>(x: T, s: seq<T>, key: T -> int, id: T -> K)
    requires SortedDesc(s, key) && DistinctBy(s, id)
    requires forall k :: 0 <= k < |s| ==> id(s[k]) != id(x)
    ensures DistinctBy(Insert(x, s, key), id)
  {
    if s != [] && key(x) < key(s[0]) {
      var rest := Insert(x, s[1..], key);
      InsertKeepsDistinct(x, s[1..], key, id);
      forall k | 0 <= k < |rest|
        ensures id(rest[k]) != id(s[0])
      {
        assert rest[k] in rest;
        if rest[k] != x {
          var m :| 0 <= m < |s[1..]| && s[1..][m] == rest[k];
          assert s[m + 1] == rest[k];
        }
      }
    }
  }

  /** Sorting keeps identifiers distinct. */
  lemma {:induction false} SortKeepsDistinct<T(!new), K>(s: seq<T>, key: T -> int, id: T -> K)
    requires DistinctBy(s, id)
    ensures DistinctBy(SortDesc(s, key), id)
  {
    if s != [] {
      SortKeepsDistinct(s[1..], key, id);
      var sorted := SortDesc(s[1..], key);
      forall k | 0 <= k < |sorted|
        ensures id(sorted[k]) != id(s[0])
      {
        assert sorted[k] in sorted;
        var m :| 0 <= m < |s[1..]| && s[1..][m] == sorted[k];
        assert s[m + 1] == sorted[k];
      }
      InsertKeepsDistinct(s[0], sorted, key, id);
    }
  }

  // ----- the leaderboard -----

  function IsMode(mode: GameMode): ScoreRecord -> bool {
    (r: ScoreRecord) => r.gameMode == mode
  }

  /** `{ $match: { gameMode } }`. */
  function InMode(scores: seq<ScoreRecord>, mode: GameMode): (r: seq<ScoreRecord>)
    ensures forall x :: x in r <==> x in scores && x.gameMode == mode
  {
    Filter(scores, IsMode(mode))
  }

  predicate HasRecord(rs: seq<ScoreRecord>, u: UserId) {
    exists k :: 0 <= k < |rs| && rs[k].userId == u
  }

  /** The distinct users with a record. */
  function UsersOf(rs: seq<ScoreRecord>): (us: seq<UserId>)
    ensures forall u :: u in us <==> HasRecord(rs, u)
    ensures forall i, j :: 0 <= i < j < |us| ==> us[i] != us[j]
  {
    if rs == [] then []
    else
      var rest := UsersOf(rs[1..]);
      assert forall u :: HasRecord(rs, u) <==> u == rs[0].userId || HasRecord(rs[1..], u) by {
        forall u ensures HasRecord(rs, u) <==> u == rs[0].userId || HasRecord(rs[1..], u) {
          if HasRecord(rs[1..], u) {
            var k :| 0 <= k < |rs[1..]| && rs[1..][k].userId == u;
            assert rs[k + 1].userId == u;
          }
          if HasRecord(rs, u) && u != rs[0].userId {
            var k :| 0 <= k < |rs| && rs[k].userId == u;
            assert rs[1..][k - 1].userId == u;
          }
        }
      }
      if rs[0].userId in rest then rest else [rs[0].userId] + rest
  }

  /** The order of `{ $sort: { score: -1, date: -1 } }`: a higher score, or
      the same score at a later date. */
  predicate Beats(a: ScoreRecord, b: ScoreRecord) {
    a.score > b.score || (a.score == b.score && a.date > b.date)
  }

  /** The first of a user's records in that order: what `$first` picks per group. */
  function Best(rs: seq<ScoreRecord>, u: UserId): (b: ScoreRecord)
    requires HasRecord(rs, u)
    ensures b in rs && b.userId == u
    ensures forall k :: 0 <= k < |rs| && rs[k].userId == u ==> !Beats(rs[k], b)
  {
    if rs[0].userId == u && (!HasRecord(rs[1..], u) || !Beats(Best(rs[1..], u), rs[0])) then
      assert forall k :: 1 <= k < |rs| ==> rs[k] == rs[1..][k - 1];
      rs[0]
    else
      assert HasRecord(rs[1..], u) by {
        if rs[0].userId != u {
          var k :| 0 <= k < |rs| && rs[k].userId == u;
          assert rs[1..][k - 1].userId == u;
        }
      }
      assert forall k :: 1 <= k < |rs| ==> rs[k] == rs[1..][k - 1];
      Best(rs[1..], u)
  }

  /** One leaderboard line. */
  datatype Entry = Entry(
    userId: UserId, username: string, score: int, totalSlaps: int,
    maxSpeed: real, controlMode: Option<string>, date: int)

  /** The `$group` and `$project` stages for one user's chosen record. */
  function EntryOf(r: ScoreRecord): Entry {
    Entry(r.userId, r.username, r.score, r.totalSlaps, r.maxSpeed, r.controlMode, r.date)
  }

  function EntryScore(e: Entry): int { e.score }

  function EntryUser(e: Entry): UserId { e.userId }

  /** One entry per user with a record, in the order of `UsersOf`. */
  function Entries(mine: seq<ScoreRecord>): (es: seq<Entry>)
    ensures |es| == |UsersOf(mine)|
    ensures forall i :: 0 <= i < |es| ==> es[i] == EntryOf(Best(mine, UsersOf(mine)[i]))
  {
    var us := UsersOf(mine);
    seq(|us|, i requires 0 <= i < |us| => EntryOf(Best(mine, us[i])))
  }

  /** `getLeaderboard`: at most `limit` entries, highest best score first.
      The pipeline's `$limit` stage takes only a positive count. */
  function Leaderboard(scores: seq<ScoreRecord>, mode: GameMode, limit: nat): (lb: seq<Entry>)
    requires limit > 0
    ensures |lb| <= limit
  {
    Take(SortDesc(Entries(InMode(scores, mode)), EntryScore), limit)
  }

  /** The leaderboard is ordered by score, nonincreasing. */
  lemma LeaderboardOrdered(scores: seq<ScoreRecord>, mode: GameMode, limit: nat)
    requires limit > 0
    ensures forall i, j :: 0 <= i < j < |Leaderboard(scores, mode, limit)| ==>
      Leaderboard(scores, mode, limit)[i].score >= Leaderboard(scores, mode, limit)[j].score
  {
    var sorted := SortDesc(Entries(InMode(scores, mode)), EntryScore);
    assert forall i, j :: 0 <= i < j < |sorted| ==> EntryScore(sorted[i]) >= EntryScore(sorted[j]);
  }

  /** No user appears twice on the leaderboard. */
  lemma LeaderboardOneEntryPerUser(scores: seq<ScoreRecord>, mode: GameMode, limit: nat)
    requires limit > 0
    ensures forall i, j :: 0 <= i < j < |Leaderboard(scores, mode, limit)| ==>
      Leaderboard(scores, mode, limit)[i].userId != Leaderboard(scores, mode, limit)[j].userId
  {
    var es := Entries(InMode(scores, mode));
    assert DistinctBy(es, EntryUser);
    SortKeepsDistinct(es, EntryScore, EntryUser);
    var sorted := SortDesc(es, EntryScore);
    assert forall i, j :: 0 <= i < j < |sorted| ==> EntryUser(sorted[i]) != EntryUser(sorted[j]);
  }

  /** Every entry is built from one of that user's records in the mode, and
      no record of that user in the mode has a higher score, or the same
      score at a later date. */
  lemma LeaderboardEntries(scores: seq<ScoreRecord>, mode: GameMode, limit: nat)
    requires limit > 0
    ensures forall e :: e in Leaderboard(scores, mode, limit) ==>
      exists k :: 0 <= k < |scores| && scores[k].gameMode == mode && EntryOf(scores[k]) == e
    ensures forall e, k ::
      (e in Leaderboard(scores, mode, limit) && 0 <= k < |scores| && scores[k].gameMode == mode && scores[k].userId == e.userId) ==>
      scores[k].score < e.score || (scores[k].score == e.score && scores[k].date <= e.date)
  {
    var mine := InMode(scores, mode);
    var es := Entries(mine);
    var lb := Leaderboard(scores, mode, limit);
    forall e | e in lb
      ensures e in es
      ensures var b := Best(mine, e.userId);
        HasRecord(mine, e.userId) && e == EntryOf(b) && b in scores && b.gameMode == mode
    {
      assert e in SortDesc(es, EntryScore);
      var i :| 0 <= i < |es| && es[i] == e;
      assert HasRecord(mine, UsersOf(mine)[i]);
    }
    forall e | e in lb
      ensures exists k :: 0 <= k < |scores| && scores[k].gameMode == mode && EntryOf(scores[k]) == e
    {
      var b := Best(mine, e.userId);
      var k :| 0 <= k < |scores| && scores[k] == b;
    }
    forall e, k | e in lb && 0 <= k < |scores| && scores[k].gameMode == mode && scores[k].userId == e.userId
      ensures scores[k].score < e.score || (scores[k].score == e.score && scores[k].date <= e.date)
    {
      assert scores[k] in mine;
      var m :| 0 <= m < |mine| && mine[m] == scores[k];
    }
  }

  /** A user with a record in the mode who is missing from the leaderboard
      was crowded out: the board is full and every entry scores at least that
      user's best. */
  lemma LeaderboardKeepsTop(scores: seq<ScoreRecord>, mode: GameMode, limit: nat, u: UserId)
    requires limit > 0
    requires HasRecord(InMode(scores, mode), u)
    requires forall e :: e in Leaderboard(scores, mode, limit) ==> e.userId != u
    ensures |Leaderboard(scores, mode, limit)| == limit
    ensures forall e :: e in Leaderboard(scores, mode, limit) ==> e.score >= Best(InMode(scores, mode), u).score
  {
    var mine := InMode(scores, mode);
    var es := Entries(mine);
    var sorted := SortDesc(es, EntryScore);
    var lb := Leaderboard(scores, mode, limit);
    var us := UsersOf(mine);
    var i :| 0 <= i < |us| && us[i] == u;
    var mineEntry := es[i];
    assert mineEntry in sorted;
    var j :| 0 <= j < |sorted| && sorted[j] == mineEntry;
    assert limit <= j;
    forall e | e in lb
      ensures e.score >= Best(mine, u).score
    {
      var p :| 0 <= p < |lb| && lb[p] == e;
      assert EntryScore(sorted[p]) >= EntryScore(sorted[j]);
    }
  }

  // ----- the rank -----

  /** How many of the users `us` have a best score of at least `t`. */
  function CountAtLeast(mine: seq<ScoreRecord>, us: seq<UserId>, t: int): (n: nat)
    requires forall k :: 0 <= k < |us| ==> HasRecord(mine, us[k])
    ensures n <= |us|
  {
    if us == [] then 0
    else (if Best(mine, us[0]).score >= t then 1 else 0) + CountAtLeast(mine, us[1..], t)
  }

  /** `getUserRank`: None when the user has no record in the mode; otherwise
      the number of users whose best score in the mode is at least the
      user's, kept only when positive. */
  function UserRank(scores: seq<ScoreRecord>, u: UserId, mode: GameMode): Option<nat> {
    var mine := InMode(scores, mode);
    if !HasRecord(mine, u) then None
    else
      var n := CountAtLeast(mine, UsersOf(mine), Best(mine, u).score);
      if n > 0 then Some(n) else None
  }

  lemma {:induction false} CountIncludes(mine: seq<ScoreRecord>, us: seq<UserId>, t: int, u: UserId)
    requires forall k :: 0 <= k < |us| ==> HasRecord(mine, us[k])
    requires u in us && HasRecord(mine, u) && Best(mine, u).score >= t
    ensures CountAtLeast(mine, us, t) >= 1
  {
    if us[0] != u {
      CountIncludes(mine, us[1..], t, u);
    }
  }

  /** Raising the threshold never counts more users, and counts fewer when a
      user's best lies between the two thresholds. */
  lemma {:induction false} CountAntitone(mine: seq<ScoreRecord>, us: seq<UserId>, t1: int, t2: int)
    requires forall k :: 0 <= k < |us| ==> HasRecord(mine, us[k])
    requires t1 <= t2
    ensures CountAtLeast(mine, us, t2) <= CountAtLeast(mine, us, t1)
    ensures (exists k :: 0 <= k < |us| && t1 <= Best(mine, us[k]).score < t2) ==>
      CountAtLeast(mine, us, t2) < CountAtLeast(mine, us, t1)
  {
    if us != [] {
      CountAntitone(mine, us[1..], t1, t2);
      if exists k :: 0 <= k < |us| && t1 <= Best(mine, us[k]).score < t2 {
        var k :| 0 <= k < |us| && t1 <= Best(mine, us[k]).score < t2;
        if k > 0 {
          assert us[1..][k - 1] == us[k];
        }
      }
    }
  }

  /** A user has a rank exactly when that user has a record in the mode,
      and a rank is at least 1. */
  lemma RankExists(scores: seq<ScoreRecord>, u: UserId, mode: GameMode)
    ensures UserRank(scores, u, mode).Some? <==> HasRecord(InMode(scores, mode), u)
    ensures UserRank(scores, u, mode).Some? ==> UserRank(scores, u, mode).value >= 1
  {
    var mine := InMode(scores, mode);
    if HasRecord(mine, u) {
      CountIncludes(mine, UsersOf(mine), Best(mine, u).score, u);
    }
  }

  /** Users with equal best scores share a rank, and a strictly better best
      gives a strictly better (smaller) rank. */
  lemma RankOrder(scores: seq<ScoreRecord>, u: UserId, v: UserId, mode: GameMode)
    requires HasRecord(InMode(scores, mode), u) && HasRecord(InMode(scores, mode), v)
    ensures Best(InMode(scores, mode), u).score == Best(InMode(scores, mode), v).score ==>
      UserRank(scores, u, mode) == UserRank(scores, v, mode)
    ensures Best(InMode(scores, mode), u).score > Best(InMode(scores, mode), v).score ==>
      && UserRank(scores, u, mode).Some? && UserRank(scores, v, mode).Some?
      && UserRank(scores, u, mode).value < UserRank(scores, v, mode).value
  {
    RankExists(scores, u, mode);
    RankExists(scores, v, mode);
    var mine := InMode(scores, mode);
    var us := UsersOf(mine);
    var bu, bv := Best(mine, u).score, Best(mine, v).score;
    if bu > bv {
      var k :| 0 <= k < |us| && us[k] == v;
      CountAntitone(mine, us, bv, bu);
    }
  }
}
