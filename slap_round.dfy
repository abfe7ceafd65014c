/** The ten-slap round of the front end `SlapGame`: slaps arrive from the
    gesture transport or are synthesised by a click or the space bar, all
    through one recording path; after the tenth one the round ends and,
    after a short settle delay, the final totals are delivered once. */
module SlapRound {
  import opened Wrappers
  import opened Gesture

  /** One recorded slap (its id and timestamp are not modelled). */
  datatype Slap = Slap(speed: real, distance: real, points: int, magnitude: real)

  /** The figures handed to the session when a round ends. */
  datatype RoundResult = RoundResult(score: int, slaps: nat, maxSpeed: real)

  const MaxSlaps: nat := 10
  const HistorySize: nat := 10

  /** A slap built from a gesture payload: every field coerced with default 0,
      the points taken from the payload as an integer, never recomputed. */
  function FromPayload(g: Gesture): (s: Slap)
    requires g.Payload?
    ensures s.speed == ParseFloat(g.speed) && s.distance == ParseFloat(g.distance)
    ensures s.points == ParseInt(g.points) && s.magnitude == ParseFloat(g.magnitude)
    ensures g.points.Num? && g.points.value == g.points.value.Floor as real ==> s.points == g.points.value.Floor
    ensures !g.speed.Num? ==> s.speed == 0.0
  {
    Slap(ParseFloat(g.speed), ParseFloat(g.distance), ParseInt(g.points), ParseFloat(g.magnitude))
  }

  /** `simulateSlap`, with `u` and `v` the two draws of `Math.random()`:
      speed in [5, 20), distance in [3, 10), points `round(speed * 10 +
      distance * 5)` and magnitude `speed * 1.5`. */
  function Synthetic(u: real, v: real): (s: Slap)
    requires 0.0 <= u < 1.0 && 0.0 <= v < 1.0
    ensures 5.0 <= s.speed < 20.0 && 3.0 <= s.distance < 10.0
    ensures 65 <= s.points <= 250
    ensures s.points == Round(s.speed * 10.0 + s.distance * 5.0)
    ensures s.magnitude == s.speed * 1.5
  {
    var speed := 5.0 + u * 15.0;
    var distance := 3.0 + v * 7.0;
    Slap(speed, distance, Round(speed * 10.0 + distance * 5.0), speed * 1.5)
  }

  /** The sum of the points of the slaps. */
  function SumPoints(rs: seq<Slap>): int {
    if rs == [] then 0 else rs[0].points + SumPoints(rs[1..])
  }

  /** The total does not depend on how the slaps are split: the points of two
      runs of slaps add up. */
  lemma {:induction false} SumPointsConcat(a: seq<Slap>, b: seq<Slap>)
    ensures SumPoints(a + b) == SumPoints(a) + SumPoints(b)
    decreases |a|
  {
    if a != [] {
      assert (a + b)[0] == a[0] && (a + b)[1..] == a[1..] + b;
      SumPointsConcat(a[1..], b);
      assert SumPoints(a + b) == a[0].points + SumPoints(a[1..] + b);
    } else {
      assert a + b == b;
    }
  }

  /** The running maximum of the speeds, starting from 0. */
  function MaxSpeed(rs: seq<Slap>): (m: real)
    ensures 0.0 <= m
    ensures forall k :: 0 <= k < |rs| ==> rs[k].speed <= m
    ensures m == 0.0 || exists k :: 0 <= k < |rs| && rs[k].speed == m
  {
    if rs == [] then 0.0
    else
      var rest := MaxSpeed(rs[1..]);
      if rs[0].speed > rest then rs[0].speed else rest
  }

  /** The running maximum of the distances, starting from 0. */
  function MaxDistance(rs: seq<Slap>): (m: real)
    ensures 0.0 <= m
    ensures forall k :: 0 <= k < |rs| ==> rs[k].distance <= m
    ensures m == 0.0 || exists k :: 0 <= k < |rs| && rs[k].distance == m
  {
    if rs == [] then 0.0
    else
      var rest := MaxDistance(rs[1..]);
      if rs[0].distance > rest then rs[0].distance else rest
  }

  /** The displayed history: the newest ten slaps, newest first. */
  function Window(rs: seq<Slap>): (w: seq<Slap>)
    ensures |w| <= HistorySize
  {
    if |rs| <= HistorySize then rs else rs[..HistorySize]
  }

  /** `[newSlap, ...prev.slice(0, 9)]` keeps the window: prepending a slap to
      the window of a history gives the window of the longer history. */
  lemma PrependWindow(s: Slap, rs: seq<Slap>)
    ensures Window([s] + rs) == [s] + (if |Window(rs)| <= HistorySize - 1 then Window(rs) else Window(rs)[..HistorySize - 1])
  {
  }

  /** The ten slaps of the scenario in which every draw gives speed 10 and
      distance 5 total 1250 points with a top speed of 10. */
  lemma {:induction false} EqualSlapsTotals(s: Slap, rs: seq<Slap>)
    requires forall k :: 0 <= k < |rs| ==> rs[k] == s
    requires 0.0 <= s.speed
    ensures SumPoints(rs) == |rs| * s.points
    ensures MaxSpeed(rs) == if rs == [] then 0.0 else s.speed
  {
    if rs != [] {
      EqualSlapsTotals(s, rs[1..]);
    }
  }

  /** The gesture effect as written: it depends on `maxSpeed` and
      `maxDistance`, and the gesture object persists between renders, so when
      a slap raises either maximum the effect runs again on the same gesture
      and records it a second time; the second run raises nothing, so the
      cascade stops there. */
  function GestureEffectAsWritten(prior: seq<Slap>, s: Slap): (after: seq<Slap>)
    ensures |after| == |prior| + (if s.speed > MaxSpeed(prior) || s.distance > MaxDistance(prior) then 2 else 1)
    ensures after == (if s.speed > MaxSpeed(prior) || s.distance > MaxDistance(prior) then [s, s] else [s]) + prior
  {
    var once := [s] + prior;
    assert once[1..] == prior;
    if MaxSpeed(once) != MaxSpeed(prior) || MaxDistance(once) != MaxDistance(prior) then [s] + once
    else once
  }

  /** On an empty round, one slap gesture of 125 points is counted twice as
      written, and a third run would record nothing more; `Game.HandleGesture`
      counts it once. */
  lemma SlapCountedTwiceAsWritten()
    ensures var s := Slap(10.0, 5.0, 125, 15.0);
      && |GestureEffectAsWritten([], s)| == 2
      && SumPoints(GestureEffectAsWritten([], s)) == 250
      && MaxSpeed([s] + GestureEffectAsWritten([], s)) == MaxSpeed(GestureEffectAsWritten([], s))
  {
    var s := Slap(10.0, 5.0, 125, 15.0);
    assert GestureEffectAsWritten([], s) == [s, s];
    assert ([s] + [s, s])[1..] == [s, s];
    assert [s, s][1..] == [s];
  }

  /** The state of one ten-slap round of the slap screen. */
  class Game {
    var history: seq<Slap>
    var totalScore: int
    var slapCount: nat
    var maxSpeed: real
    var maxDistance: real
    var active: bool
    /** `gameEndedRef`: the one-shot latch of the round end. */
    var ended: bool
    /** The refs the end callback reads, kept equal to the state on every slap. */
    var totalScoreRef: int
    var slapCountRef: nat
    var maxSpeedRef: real
    /** The 100 ms settle timer is armed and has not fired yet. */
    var pendingEnd: bool
    /** Every slap counted so far, newest first. */
    ghost var recorded: seq<Slap>
    /** How many times the end callback has been delivered. */
    ghost var deliveries: nat

    /** The totals, maxima, history and refs all agree with the recorded slaps. */
    ghost predicate Aggregates()
      reads this
    {
      && history == Window(recorded)
      && totalScore == SumPoints(recorded)
      && slapCount == |recorded|
      && maxSpeed == MaxSpeed(recorded)
      && maxDistance == MaxDistance(recorded)
      && totalScoreRef == totalScore && slapCountRef == slapCount && maxSpeedRef == maxSpeed
    }

    ghost predicate Valid()
      reads this
    {
      && Aggregates()
      && (active <==> !ended)
      && (active ==> slapCount < MaxSlaps)
      && (ended ==> slapCount == MaxSlaps)
      && (pendingEnd ==> ended)
      && deliveries + (if pendingEnd then 1 else 0) == (if ended then 1 else 0)
    }

    constructor ()
      ensures Valid()
      ensures recorded == [] && history == [] && active && !ended && !pendingEnd && deliveries == 0
      ensures totalScore == 0 && slapCount == 0 && maxSpeed == 0.0 && maxDistance == 0.0
    {
      history, recorded := [], [];
      totalScore, slapCount, maxSpeed, maxDistance := 0, 0, 0.0, 0.0;
      totalScoreRef, slapCountRef, maxSpeedRef := 0, 0, 0.0;
      active, ended, pendingEnd := true, false, false;
      deliveries := 0;
    }

    /** The recording path shared by gesture and synthetic slaps. */
    method Record(s: Slap)
      requires Aggregates()
      modifies this
      ensures Aggregates()
      ensures recorded == [s] + old(recorded)
      ensures active == old(active) && ended == old(ended)
      ensures pendingEnd == old(pendingEnd) && deliveries == old(deliveries)
    {
      PrependWindow(s, recorded);
      history := [s] + (if |history| <= HistorySize - 1 then history else history[..HistorySize - 1]);
      totalScore := totalScore + s.points;
      totalScoreRef := totalScore;
      slapCount := slapCount + 1;
      slapCountRef := slapCount;
      if s.speed > maxSpeed {
        maxSpeed := s.speed;
        maxSpeedRef := s.speed;
      }
      if s.distance > maxDistance {
        maxDistance := s.distance;
      }
      recorded := [s] + recorded;
      assert recorded[1..] == old(recorded);
    }

    /** The effect that watches the count: at ten slaps, while active and not
        yet latched, the round is latched, made inactive and the settle timer
        is armed. */
    method CheckEnd()
      requires Aggregates()
      requires active <==> !ended
      requires slapCount <= MaxSlaps
      requires active ==> slapCount <= MaxSlaps
      requires ended ==> slapCount == MaxSlaps
      requires pendingEnd ==> ended
      requires deliveries + (if pendingEnd then 1 else 0) == (if ended then 1 else 0)
      modifies this
      ensures Valid()
      ensures recorded == old(recorded) && deliveries == old(deliveries)
      ensures old(slapCount) == MaxSlaps && old(active) ==> !active && ended && pendingEnd
      ensures !(old(slapCount) == MaxSlaps && old(active)) ==>
        active == old(active) && ended == old(ended) && pendingEnd == old(pendingEnd)
    {
      if slapCount >= MaxSlaps && active && !ended {
        ended := true;
        active := false;
        pendingEnd := true;
      }
    }

    /** A gesture from the transport: a slap payload is recorded while the
        round is active, and the count is then checked; anything else, or
        anything after the round ended, is ignored. */
    method HandleGesture(g: Option<Gesture>)
      requires Valid()
      modifies this
      ensures Valid()
      ensures deliveries == old(deliveries)
      ensures old(active) && Truthy(g) && IsSlap(g.value) ==>
        && recorded == [FromPayload(g.value)] + old(recorded)
        && (ended <==> |recorded| == MaxSlaps)
        && pendingEnd == ended
      ensures !(old(active) && Truthy(g) && IsSlap(g.value)) ==>
        recorded == old(recorded) && active == old(active) && pendingEnd == old(pendingEnd)
    {
      if !Truthy(g) || !active {
        return;
      }
      if IsSlap(g.value) {
        Record(FromPayload(g.value));
        CheckEnd();
      }
    }

    /** A click or the space bar while the round is active: a synthetic slap
        from the draws `u` and `v`, through the same recording path. */
    method SimulateSlap(u: real, v: real)
      requires Valid()
      requires 0.0 <= u < 1.0 && 0.0 <= v < 1.0
      modifies this
      ensures Valid()
      ensures deliveries == old(deliveries)
      ensures old(active) ==>
        && recorded == [Synthetic(u, v)] + old(recorded)
        && (ended <==> |recorded| == MaxSlaps)
        && pendingEnd == ended
      ensures !old(active) ==> recorded == old(recorded) && !active && pendingEnd == old(pendingEnd)
    {
      if !active {
        return;
      }
      Record(Synthetic(u, v));
      CheckEnd();
    }

    /** The settle timer fires: the end callback receives the totals read from
        the refs, which are those of the ten recorded slaps. */
    method SettleTimerFires() returns (delivered: Option<RoundResult>)
      requires Valid()
      modifies this
      ensures Valid()
      ensures recorded == old(recorded) && active == old(active) && ended == old(ended)
      ensures !pendingEnd
      ensures old(pendingEnd) ==>
        && delivered == Some(RoundResult(SumPoints(recorded), MaxSlaps, MaxSpeed(recorded)))
        && |recorded| == MaxSlaps
        && deliveries == old(deliveries) + 1 == 1
      ensures !old(pendingEnd) ==> delivered == None && deliveries == old(deliveries)
    {
      delivered := None;
      if pendingEnd {
        pendingEnd := false;
        deliveries := deliveries + 1;
        delivered := Some(RoundResult(totalScoreRef, slapCountRef, maxSpeedRef));
      }
    }
  }

  /** The scenario of ten synthetic slaps each with speed 10 and distance 5
      (draws 1/3 and 2/7): each is worth 125 points, and the delivered result
      is 1250 points, 10 slaps and top speed 10. */
  method TenEqualSlaps() returns (result: Option<RoundResult>)
    ensures result == Some(RoundResult(1250, 10, 10.0))
  {
    var round := new Game();
    var s := Synthetic(1.0 / 3.0, 2.0 / 7.0);
    assert s == Slap(10.0, 5.0, 125, 15.0);
    var i := 0;
    while i < MaxSlaps
      invariant 0 <= i <= MaxSlaps
      invariant round.Valid() && round.deliveries == 0
      invariant |round.recorded| == i
      invariant forall k :: 0 <= k < i ==> round.recorded[k] == s
      invariant round.active <==> i < MaxSlaps
      invariant round.pendingEnd <==> i == MaxSlaps
    {
      round.SimulateSlap(1.0 / 3.0, 2.0 / 7.0);
      i := i + 1;
    }
    EqualSlapsTotals(s, round.recorded);
    result := round.SettleTimerFires();
  }
}
