/** The earlier lane-based race (`src/components/GameBoard.jsx`): the car sits
    in one of three lanes, obstacles advance by 2 per tick, and an obstacle
    hits the car when it is in the car's lane inside the impact band. */
module LaneRace {
  import opened Wrappers
  import opened Gesture
  import AnalogRace

  type Lane = AnalogRace.Lane
  type Kind = AnalogRace.Kind

  /** An obstacle of this variant moves in whole steps, so its travel is an
      integer. The field operations below (`Advanced`, `Survivors` and their
      lemmas) repeat the analog race's for that integer travel: a Dafny
      datatype cannot be generic over `int` and `real` arithmetic. */
  datatype Obstacle = Obstacle(id: nat, lane: Lane, travel: int, kind: Kind)

  const SpawnTravel: int := -10
  const Step: int := 2
  const BandStart: int := 70
  const BandEnd: int := 95
  const OffField: int := 100
  const PointsPerObstacle: nat := 10

  predicate Hits(carLane: Lane, o: Obstacle) {
    o.lane == carLane && BandStart <= o.travel <= BandEnd
  }

  predicate AnyHit(carLane: Lane, s: seq<Obstacle>) {
    exists k :: 0 <= k < |s| && Hits(carLane, s[k])
  }

  function Advanced(s: seq<Obstacle>, d: int): (r: seq<Obstacle>)
    ensures |r| == |s|
  {
    seq(|s|, k requires 0 <= k < |s| => s[k].(travel := s[k].travel + d))
  }

  function Survivors(s: seq<Obstacle>): (r: seq<Obstacle>)
    ensures |r| <= |s|
  {
    if s == [] then []
    else Survivors(s[..|s| - 1]) + (if s[|s| - 1].travel > OffField then [] else [s[|s| - 1]])
  }

  predicate IdsIncreasing(s: seq<Obstacle>) {
    forall i, j :: 0 <= i < j < |s| ==> s[i].id < s[j].id
  }

  /** Nothing on the field has passed 100. */
  predicate OnField(s: seq<Obstacle>) {
    forall k :: 0 <= k < |s| ==> s[k].travel <= OffField
  }

  predicate IdsBelow(s: seq<Obstacle>, bound: nat) {
    forall k :: 0 <= k < |s| ==> s[k].id < bound
  }

  /** One lane move for a command: left only from lanes 1 and 2, right only
      from lanes 0 and 1, anything else ignored. */
  function StepLane(lane: Lane, cmd: string): (r: Lane)
    ensures cmd == "left" && lane > 0 ==> r == lane - 1
    ensures cmd == "right" && lane < 2 ==> r == lane + 1
    ensures !(cmd == "left" && lane > 0) && !(cmd == "right" && lane < 2) ==> r == lane
  {
    if cmd == "left" && lane > 0 then lane - 1
    else if cmd == "right" && lane < 2 then lane + 1
    else lane
  }

  lemma {:induction false} SurvivorsMembers(s: seq<Obstacle>, o: Obstacle)
    ensures o in Survivors(s) <==> o in s && o.travel <= OffField
    decreases |s|
  {
    if s != [] {
      SurvivorsMembers(s[..|s| - 1], o);
      assert s == s[..|s| - 1] + [s[|s| - 1]];
    }
  }

  lemma {:induction false} SurvivorsKeepOrder(s: seq<Obstacle>)
    requires IdsIncreasing(s)
    ensures IdsIncreasing(Survivors(s))
    decreases |s|
  {
    if s != [] {
      var init := s[..|s| - 1];
      SurvivorsKeepOrder(init);
      forall o | o in Survivors(init) ensures o.id < s[|s| - 1].id {
        SurvivorsMembers(init, o);
      }
    }
  }

  lemma SurvivorsKeepBound(s: seq<Obstacle>, bound: nat)
    requires IdsBelow(s, bound)
    ensures IdsBelow(Survivors(s), bound)
  {
    forall k | 0 <= k < |Survivors(s)| ensures Survivors(s)[k].id < bound {
      SurvivorsMembers(s, Survivors(s)[k]);
    }
  }

  /** Whatever survives pruning is on the field. */
  lemma SurvivorsOnField(s: seq<Obstacle>)
    ensures OnField(Survivors(s))
  {
    forall k | 0 <= k < |Survivors(s)| ensures Survivors(s)[k].travel <= OffField {
      SurvivorsMembers(s, Survivors(s)[k]);
    }
  }

  /** Advancing twice is advancing once by the sum. */
  lemma AdvancedTwice(s: seq<Obstacle>, a: int, b: int)
    ensures Advanced(Advanced(s, a), b) == Advanced(s, a + b)
  {
  }

  /** Advancing commutes with taking a prefix. */
  lemma AdvancedPrefix(s: seq<Obstacle>, d: int)
    requires s != []
    ensures Advanced(s, d)[..|s| - 1] == Advanced(s[..|s| - 1], d)
    ensures Advanced(s, d)[|s| - 1] == s[|s| - 1].(travel := s[|s| - 1].travel + d)
  {
  }

  /** Pruning before a forward move loses nothing: an obstacle already past
      100 would be pruned after the move anyway. */
  lemma {:induction false} PruneThenAdvance(s: seq<Obstacle>, d: int)
    requires 0 <= d
    ensures Survivors(Advanced(Survivors(s), d)) == Survivors(Advanced(s, d))
    decreases |s|
  {
    if s != [] {
      var init, last := s[..|s| - 1], s[|s| - 1];
      PruneThenAdvance(init, d);
      AdvancedPrefix(s, d);
      var moved := Advanced(s, d);
      assert Survivors(moved) == Survivors(Advanced(init, d)) +
        (if last.travel + d > OffField then [] else [moved[|s| - 1]]);
      if last.travel > OffField {
        assert Survivors(s) == Survivors(init);
      } else {
        var t := Survivors(init) + [last];
        assert Survivors(s) == t;
        AdvancedPrefix(t, d);
        assert t[..|t| - 1] == Survivors(init);
      }
    }
  }

  /** `k` collision-free ticks of the game loop, as a function of the field. */
  function Run(s: seq<Obstacle>, k: nat): seq<Obstacle> {
    if k == 0 then s else Survivors(Advanced(Run(s, k - 1), Step))
  }

  /** After `k` collision-free ticks the field is the starting field moved on
      by `2k` with everything past 100 removed. */
  lemma {:induction false} RunClosedForm(s: seq<Obstacle>, k: nat)
    requires OnField(s)
    ensures Run(s, k) == Survivors(Advanced(s, Step * k))
  {
    if k == 0 {
      assert Advanced(s, 0) == s;
      SurvivorsOfOnField(s);
    } else {
      RunClosedForm(s, k - 1);
      PruneThenAdvance(Advanced(s, Step * (k - 1)), Step);
      AdvancedTwice(s, Step * (k - 1), Step);
    }
  }

  /** A field with nothing past 100 is left whole by pruning. */
  lemma {:induction false} SurvivorsOfOnField(s: seq<Obstacle>)
    requires OnField(s)
    ensures Survivors(s) == s
    decreases |s|
  {
    if s != [] {
      SurvivorsOfOnField(s[..|s| - 1]);
      assert s == s[..|s| - 1] + [s[|s| - 1]];
    }
  }

  /** A freshly spawned obstacle, after `k` collision-free ticks, has travel
      -10 + 2k and is still on the field exactly while k <= 55: it is removed
      on the tick it reaches 102. */
  lemma ObstacleLifetime(s: seq<Obstacle>, o: Obstacle, k: nat)
    requires o in s && o.travel == SpawnTravel
    requires OnField(s)
    ensures o.(travel := SpawnTravel + Step * k) in Run(s, k) <==> k <= 55
    ensures k == 56 ==> SpawnTravel + Step * k == 102
  {
    RunClosedForm(s, k);
    var moved := Advanced(s, Step * k);
    var i :| 0 <= i < |s| && s[i] == o;
    assert moved[i] == o.(travel := SpawnTravel + Step * k);
    SurvivorsMembers(moved, moved[i]);
  }

  /** The gesture handler as its effect is actually scheduled: the effect
      lists the car lane among its dependencies, so every lane change runs it
      again with the same command string, which is only cleared 100 ms later;
      it stops once the lane no longer changes. */
  function SettledLaneAsWritten(lane: Lane, cmd: string): Lane
    decreases if cmd == "left" then lane else 2 - lane
  {
    var next := StepLane(lane, cmd);
    if next == lane then lane else SettledLaneAsWritten(next, cmd)
  }

  /** As written, one "left" or "right" string carries the car to the edge of
      the road instead of one lane over: from lane 2, a single "left" ends in
      lane 0 where one step would end in lane 1. */
  lemma {:induction false} OneGestureReachesEdge(lane: Lane)
    ensures SettledLaneAsWritten(lane, "left") == 0
    ensures SettledLaneAsWritten(lane, "right") == 2
    ensures SettledLaneAsWritten(2, "left") == 0 != StepLane(2, "left")
    decreases 0
  {
    if lane == 2 {
      assert SettledLaneAsWritten(1, "left") == SettledLaneAsWritten(0, "left") == 0;
    }
    if lane == 0 {
      assert SettledLaneAsWritten(1, "right") == SettledLaneAsWritten(2, "right") == 2;
    }
    assert SettledLaneAsWritten(1, "left") == 0;
    assert SettledLaneAsWritten(1, "right") == 2;
  }

  /** The state of one lane-race screen. */
  class Race {
    var carLane: Lane
    var obstacles: seq<Obstacle>
    var score: nat
    var running: bool
    var nextId: nat

    ghost predicate Valid()
      reads this
    {
      && score % PointsPerObstacle == 0
      && IdsBelow(obstacles, nextId)
      && IdsIncreasing(obstacles)
      && OnField(obstacles)
    }

    /** The initial screen: centre lane, score 0, no obstacles, running. */
    constructor ()
      ensures Valid()
      ensures carLane == 1 && obstacles == [] && score == 0 && running && nextId == 0
    {
      carLane := 1;
      obstacles := [];
      score := 0;
      running := true;
      nextId := 0;
    }

    /** A gesture: the strings "left" and "right" move one lane when there
        is room; any object gesture, any other string and any gesture after
        the race stopped change nothing. */
    method ApplyGesture(g: Option<Gesture>)
      requires Valid()
      modifies this`carLane
      ensures Valid()
      ensures running && Truthy(g) && g.value.Word? ==> carLane == StepLane(old(carLane), g.value.text)
      ensures !(running && Truthy(g) && g.value.Word?) ==> carLane == old(carLane)
    {
      if !Truthy(g) || !running {
        return;
      }
      if g.value == Word("left") && carLane > 0 {
        carLane := carLane - 1;
      } else if g.value == Word("right") && carLane < 2 {
        carLane := carLane + 1;
      }
    }

    /** The arrow keys move one lane when there is room; other keys, and any
        key after the race stopped, change nothing. */
    method KeyDown(key: string)
      requires Valid()
      modifies this`carLane
      ensures Valid()
      ensures running && key == "ArrowLeft" ==> carLane == StepLane(old(carLane), "left")
      ensures running && key == "ArrowRight" ==> carLane == StepLane(old(carLane), "right")
      ensures !running || (key != "ArrowLeft" && key != "ArrowRight") ==> carLane == old(carLane)
    {
      if !running {
        return;
      }
      if key == "ArrowLeft" && carLane > 0 {
        carLane := carLane - 1;
      } else if key == "ArrowRight" && carLane < 2 {
        carLane := carLane + 1;
      }
    }

    /** The 1500 ms spawn timer: one obstacle at travel -10 with a fresh id. */
    method Spawn(lane: Lane, kind: Kind)
      requires Valid()
      modifies this`obstacles, this`nextId
      ensures Valid()
      ensures old(running) ==>
        && obstacles == old(obstacles) + [Obstacle(old(nextId), lane, SpawnTravel, kind)]
        && nextId == old(nextId) + 1
        && (forall k :: 0 <= k < |old(obstacles)| ==> old(obstacles)[k].id < obstacles[|obstacles| - 1].id)
      ensures !old(running) ==> obstacles == old(obstacles) && nextId == old(nextId)
    {
      if !running {
        return;
      }
      obstacles := obstacles + [Obstacle(nextId, lane, SpawnTravel, kind)];
      nextId := nextId + 1;
    }

    /** The 50 ms game loop: every obstacle advances by 2; an obstacle in the
        car's lane inside the impact band stops the race, reports game over
        and keeps the field as it was; otherwise obstacles past 100 are
        removed for 10 points each, every new score being reported. */
    method Tick() returns (gameOver: bool, reported: seq<nat>)
      requires Valid()
      modifies this`obstacles, this`score, this`running
      ensures Valid()
      ensures !old(running) ==>
        !gameOver && reported == [] && !running && obstacles == old(obstacles) && score == old(score)
      ensures old(running) ==> gameOver == AnyHit(carLane, Advanced(old(obstacles), Step))
      ensures old(running) && gameOver ==>
        !running && obstacles == old(obstacles) && score == old(score) && reported == []
      ensures old(running) && !gameOver ==>
        && running
        && obstacles == Survivors(Advanced(old(obstacles), Step))
        && obstacles == Run(old(obstacles), 1)
        && score == old(score) + PointsPerObstacle * (|old(obstacles)| - |obstacles|)
        && reported == AnalogRace.Reports(old(score), |old(obstacles)| - |obstacles|)
    {
      gameOver, reported := false, [];
      if !running {
        return;
      }
      var moved := AdvanceAll(obstacles);
      gameOver := FindCollision(carLane, moved);
      if gameOver {
        running := false;
        return;
      }
      var kept, newScore;
      kept, newScore, reported := Prune(moved, score);
      SurvivorsKeepOrder(moved);
      SurvivorsKeepBound(moved, nextId);
      SurvivorsOnField(moved);
      obstacles := kept;
      score := newScore;
    }
  }

  /** The `map` step: every obstacle moves on by 2. */
  method AdvanceAll(s: seq<Obstacle>) returns (moved: seq<Obstacle>)
    ensures moved == Advanced(s, Step)
    ensures IdsIncreasing(s) ==> IdsIncreasing(moved)
    ensures forall b: nat :: IdsBelow(s, b) ==> IdsBelow(moved, b)
  {
    moved := [];
    var i := 0;
    while i < |s|
      invariant 0 <= i <= |s|
      invariant |moved| == i
      invariant forall k :: 0 <= k < i ==> moved[k] == s[k].(travel := s[k].travel + Step)
    {
      moved := moved + [s[i].(travel := s[i].travel + Step)];
      i := i + 1;
    }
  }

  /** The `some` step: is an obstacle in the car's lane inside the band? */
  method FindCollision(carLane: Lane, moved: seq<Obstacle>) returns (hit: bool)
    ensures hit == AnyHit(carLane, moved)
  {
    hit := false;
    var j := 0;
    while j < |moved| && !hit
      invariant 0 <= j <= |moved|
      invariant hit == exists k :: 0 <= k < j && Hits(carLane, moved[k])
    {
      hit := Hits(carLane, moved[j]);
      j := j + 1;
    }
  }

  /** The `filter` step: obstacles past 100 are dropped for 10 points each. */
  method Prune(moved: seq<Obstacle>, score: nat) returns (kept: seq<Obstacle>, newScore: nat, reported: seq<nat>)
    ensures kept == Survivors(moved)
    ensures newScore == score + PointsPerObstacle * (|moved| - |kept|)
    ensures reported == AnalogRace.Reports(score, |moved| - |kept|)
  {
    kept, newScore, reported := [], score, [];
    var m := 0;
    while m < |moved|
      invariant 0 <= m <= |moved|
      invariant kept == Survivors(moved[..m])
      invariant newScore == score + PointsPerObstacle * (m - |kept|)
      invariant reported == AnalogRace.Reports(score, m - |kept|)
    {
      assert moved[..m + 1][..m] == moved[..m];
      if moved[m].travel > OffField {
        newScore := newScore + PointsPerObstacle;
        reported := reported + [newScore];
      } else {
        kept := kept + [moved[m]];
      }
      m := m + 1;
    }
    assert moved[..m] == moved;
  }
}
