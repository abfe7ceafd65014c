/** The two records both shells keep in browser storage: the best racing
    score (`carGameHighScore`) and the best slap round (`slapGameHighScore`). */
module LocalBest {
  import opened Wrappers

  /** A stored slap round; a record read back from storage may lack a score. */
  datatype SlapBest = SlapBest(score: Option<int>, slaps: nat, maxSpeed: real)

  /** `stats.score || 0`. */
  function StoredScore(b: SlapBest): int {
    b.score.GetOr(0)
  }

  /** The racing high score after a game: replaced only when strictly beaten. */
  function NextHighScore(high: int, score: int): (r: int)
    ensures r >= high && r >= score
    ensures r == high || r == score
    ensures r != high ==> score > high
  {
    if score > high then score else high
  }

  /** The stored slap best after a round: written when nothing is stored, or
      when the round's score strictly beats the stored one; otherwise kept. */
  function NextSlapBest(stored: Option<SlapBest>, finalScore: int, slaps: nat, maxSpeed: real): (r: SlapBest)
    ensures (stored == None || finalScore > StoredScore(stored.value)) ==> r == SlapBest(Some(finalScore), slaps, maxSpeed)
    ensures stored.Some? && finalScore <= StoredScore(stored.value) ==> r == stored.value
  {
    if stored == None || finalScore > StoredScore(stored.value) then SlapBest(Some(finalScore), slaps, maxSpeed)
    else stored.value
  }

  /** The stored slap score only grows: after a round it is the larger of the
      round's score and the stored one. */
  lemma SlapBestIsMaximum(stored: SlapBest, finalScore: int, slaps: nat, maxSpeed: real)
    ensures StoredScore(NextSlapBest(Some(stored), finalScore, slaps, maxSpeed)) ==
      if finalScore > StoredScore(stored) then finalScore else StoredScore(stored)
  {
  }

  /** The high score after a series of games, from the first to the last. */
  function HighAfter(high: int, scores: seq<int>): int
    decreases |scores|
  {
    if scores == [] then high else HighAfter(NextHighScore(high, scores[0]), scores[1..])
  }

  /** After any series of games the high score is the largest of the earlier
      high score and every game's score. */
  lemma {:induction false} HighAfterIsMaximum(high: int, scores: seq<int>)
    ensures high <= HighAfter(high, scores)
    ensures forall k :: 0 <= k < |scores| ==> scores[k] <= HighAfter(high, scores)
    ensures HighAfter(high, scores) == high || exists k :: 0 <= k < |scores| && HighAfter(high, scores) == scores[k]
    decreases |scores|
  {
    if scores != [] {
      var next := NextHighScore(high, scores[0]);
      HighAfterIsMaximum(next, scores[1..]);
      assert forall k :: 1 <= k < |scores| ==> scores[k] == scores[1..][k - 1];
      if HighAfter(next, scores[1..]) != next {
        var k :| 0 <= k < |scores[1..]| && HighAfter(next, scores[1..]) == scores[1..][k];
        assert HighAfter(high, scores) == scores[k + 1];
      }
    }
  }
}
