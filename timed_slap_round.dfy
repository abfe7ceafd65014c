/** The thirty-second slap round of the earlier `SlapGame`: slaps from the
    gesture transport are recorded while a countdown runs, and when it
    reaches zero the round ends and the totals are handed over. */
module TimedSlapRound {
  import opened Wrappers
  import opened Gesture
  import opened SlapRound

  const RoundSeconds: nat := 30

  class Game {
    var history: seq<Slap>
    var totalScore: int
    var slapCount: nat
    var maxSpeed: real
    var maxDistance: real
    var gameTime: nat
    var active: bool
    /** Every slap counted so far, newest first. */
    ghost var recorded: seq<Slap>
    /** How many times the end callback has fired. */
    ghost var deliveries: nat

    ghost predicate Valid()
      reads this
    {
      && history == Window(recorded)
      && totalScore == SumPoints(recorded)
      && slapCount == |recorded|
      && maxSpeed == MaxSpeed(recorded)
      && maxDistance == MaxDistance(recorded)
      && gameTime <= RoundSeconds
      && (active <==> gameTime > 0)
      && deliveries == (if active then 0 else 1)
    }

    constructor ()
      ensures Valid()
      ensures recorded == [] && gameTime == RoundSeconds && active && deliveries == 0
      ensures history == [] && totalScore == 0 && slapCount == 0 && maxSpeed == 0.0 && maxDistance == 0.0
    {
      history, recorded := [], [];
      totalScore, slapCount, maxSpeed, maxDistance := 0, 0, 0.0, 0.0;
      gameTime, active := RoundSeconds, true;
      deliveries := 0;
    }

    /** A gesture from the transport: a slap payload is recorded while the
        countdown runs, with no cap on the count; anything else, or anything
        after the countdown ended, is ignored. */
    method HandleGesture(g: Option<Gesture>)
      requires Valid()
      modifies this
      ensures Valid()
      ensures gameTime == old(gameTime) && active == old(active) && deliveries == old(deliveries)
      ensures old(active) && Truthy(g) && IsSlap(g.value) ==> recorded == [FromPayload(g.value)] + old(recorded)
      ensures !(old(active) && Truthy(g) && IsSlap(g.value)) ==> recorded == old(recorded)
    {
      if !Truthy(g) || !active {
        return;
      }
      if IsSlap(g.value) {
        var s := FromPayload(g.value);
        PrependWindow(s, recorded);
        history := [s] + (if |history| <= HistorySize - 1 then history else history[..HistorySize - 1]);
        totalScore := totalScore + s.points;
        slapCount := slapCount + 1;
        if s.speed > maxSpeed {
          maxSpeed := s.speed;
        }
        if s.distance > maxDistance {
          maxDistance := s.distance;
        }
        recorded := [s] + recorded;
        assert recorded[1..] == old(recorded);
      }
    }

    /** One second of the countdown: from 1 (or less) it drops to 0, the round
        ends and the end callback fires with the current totals; otherwise the
        time drops by one. Once the round ended no timer runs. */
    method Tick() returns (fired: Option<RoundResult>)
      requires Valid()
      modifies this
      ensures Valid()
      ensures recorded == old(recorded)
      ensures old(active) && old(gameTime) <= 1 ==>
        && gameTime == 0 && !active && deliveries == old(deliveries) + 1
        && fired == Some(RoundResult(SumPoints(recorded), |recorded|, MaxSpeed(recorded)))
      ensures old(active) && old(gameTime) > 1 ==> gameTime == old(gameTime) - 1 && active && fired == None
      ensures !old(active) ==> gameTime == 0 && !active && fired == None && deliveries == old(deliveries)
    {
      fired := None;
      if !active {
        return;
      }
      if gameTime <= 1 {
        gameTime := 0;
        active := false;
        deliveries := deliveries + 1;
        fired := Some(RoundResult(totalScore, slapCount, maxSpeed));
      } else {
        gameTime := gameTime - 1;
      }
    }
  }

  /** A round in which no slap arrives ends on exactly the thirtieth tick,
      with a zero result. */
  method SilentRound() returns (ticks: nat, result: RoundResult)
    ensures ticks == RoundSeconds
    ensures result == RoundResult(0, 0, 0.0)
  {
    var game := new Game();
    ticks := 0;
    var fired: Option<RoundResult> := None;
    while fired == None
      invariant game.Valid() && game.recorded == []
      invariant ticks + game.gameTime == RoundSeconds
      invariant fired == None <==> game.active
      invariant fired != None ==> fired.value == RoundResult(0, 0, 0.0)
      decreases game.gameTime
    {
      fired := game.Tick();
      ticks := ticks + 1;
    }
    result := fired.value;
  }
}
