/** The continuous-steering race of the front end `GameBoard`: a car at a
    real position in [-1, 1] and a field of obstacles that advance toward it,
    collide with it inside the impact band, and score when they leave. */
module AnalogRace {
  import opened Wrappers
  import opened Gesture
  import Difficulty

  datatype Kind = Cone | Barrel | Rock
  type Lane = n: nat | n < 3

  /** An obstacle; `travel` runs from -10 at spawn to past 100 off the field. */
  datatype Obstacle = Obstacle(id: nat, lane: Lane, travel: real, kind: Kind)

  const SpawnTravel: real := -10.0
  const BandStart: real := 70.0
  const BandEnd: real := 95.0
  const OffField: real := 100.0
  const Radius: real := 0.25
  const KeyStep: real := 0.08
  const PointsPerObstacle: nat := 10

  function Abs(x: real): real {
    if x < 0.0 then -x else x
  }

  /** The horizontal centre of each lane. */
  function LaneCenter(lane: Lane): real {
    if lane == 0 then -0.65 else if lane == 1 then 0.0 else 0.65
  }

  /** `Math.max(-1.0, Math.min(1.0, x))`. */
  function Clamp(x: real): (r: real)
    ensures -1.0 <= r <= 1.0
    ensures -1.0 <= x <= 1.0 ==> r == x
    ensures x < -1.0 ==> r == -1.0
    ensures 1.0 < x ==> r == 1.0
  {
    if x < -1.0 then -1.0 else if 1.0 < x then 1.0 else x
  }

  /** The car is inside the band of the obstacle's lane and the obstacle is
      inside the impact band. */
  predicate Hits(car: real, o: Obstacle) {
    Abs(car - LaneCenter(o.lane)) < Radius && BandStart <= o.travel <= BandEnd
  }

  /** `updated.some(...)`: some obstacle of the field hits the car. */
  predicate AnyHit(car: real, s: seq<Obstacle>) {
    exists k :: 0 <= k < |s| && Hits(car, s[k])
  }

  /** Every obstacle moved on by `speed`, nothing else changed. */
  function Advanced(s: seq<Obstacle>, speed: real): (r: seq<Obstacle>)
    ensures |r| == |s|
  {
    seq(|s|, k requires 0 <= k < |s| => s[k].(travel := s[k].travel + speed))
  }

  /** The obstacles still on the field (`travel <= 100`), in their order. */
  function Survivors(s: seq<Obstacle>): (r: seq<Obstacle>)
    ensures |r| <= |s|
  {
    if s == [] then []
    else Survivors(s[..|s| - 1]) + (if s[|s| - 1].travel > OffField then [] else [s[|s| - 1]])
  }

  /** The successive scores reported to the session, one per pruned obstacle:
      each report is 10 above the one before it, the first 10 above the
      starting score, and the last is the score the prune ends with. */
  function Reports(start: nat, pruned: nat): (r: seq<nat>)
    ensures |r| == pruned
    ensures pruned > 0 ==> r[0] == start + PointsPerObstacle && r[pruned - 1] == start + PointsPerObstacle * pruned
    ensures forall i :: 0 < i < pruned ==> r[i] == r[i - 1] + PointsPerObstacle
  {
    seq(pruned, i requires 0 <= i < pruned => start + PointsPerObstacle * (i + 1))
  }

  predicate IdsIncreasing(s: seq<Obstacle>) {
    forall i, j :: 0 <= i < j < |s| ==> s[i].id < s[j].id
  }

  /** Nothing on the field has passed 100. */
  predicate OnField(s: seq<Obstacle>) {
    forall k :: 0 <= k < |s| ==> s[k].travel <= OffField
  }

  predicate IdsBelow(s: seq<Obstacle>, bound: nat) {
    forall k :: 0 <= k < |s| ==> s[k].id < bound
  }

  /** An obstacle survives the pruning exactly when it was on the field and
      has not passed 100. */
  lemma {:induction false} SurvivorsMembers(s: seq<Obstacle>, o: Obstacle)
    ensures o in Survivors(s) <==> o in s && o.travel <= OffField
    decreases |s|
  {
    if s != [] {
      SurvivorsMembers(s[..|s| - 1], o);
      assert s == s[..|s| - 1] + [s[|s| - 1]];
    }
  }

  /** Pruning keeps the order of the survivors: increasing ids stay increasing. */
  lemma {:induction false} SurvivorsKeepOrder(s: seq<Obstacle>)
    requires IdsIncreasing(s)
    ensures IdsIncreasing(Survivors(s))
    decreases |s|
  {
    if s != [] {
      var init := s[..|s| - 1];
      var last := s[|s| - 1];
      SurvivorsKeepOrder(init);
      forall o | o in Survivors(init) ensures o.id < last.id {
        SurvivorsMembers(init, o);
      }
    }
  }

  /** Pruning keeps every id below the bound it was below. */
  lemma SurvivorsKeepBound(s: seq<Obstacle>, bound: nat)
    requires IdsBelow(s, bound)
    ensures IdsBelow(Survivors(s), bound)
  {
    forall k | 0 <= k < |Survivors(s)| ensures Survivors(s)[k].id < bound {
      SurvivorsMembers(s, Survivors(s)[k]);
    }
  }

  /** Whatever survives pruning is on the field. */
  lemma SurvivorsOnField(s: seq<Obstacle>)
    ensures OnField(Survivors(s))
  {
    forall k | 0 <= k < |Survivors(s)| ensures Survivors(s)[k].travel <= OffField {
      SurvivorsMembers(s, Survivors(s)[k]);
    }
  }

  /** No car position is inside two lanes' bands at once. */
  lemma BandsDisjoint(car: real, a: Lane, b: Lane)
    requires Abs(car - LaneCenter(a)) < Radius && Abs(car - LaneCenter(b)) < Radius
    ensures a == b
  {
  }

  /** A car at either edge of the road is outside every band. */
  lemma EdgesAreSafe(o: Obstacle)
    ensures !Hits(1.0, o) && !Hits(-1.0, o)
  {
  }

  /** A car exactly at a lane centre is hit by an obstacle of that lane in the
      impact band. */
  lemma CentreIsHit(o: Obstacle)
    requires BandStart <= o.travel <= BandEnd
    ensures Hits(LaneCenter(o.lane), o)
  {
  }

  /** The `map` step of the game loop: every obstacle moves on by `speed`. */
  method AdvanceAll(s: seq<Obstacle>, speed: real) returns (moved: seq<Obstacle>)
    ensures moved == Advanced(s, speed)
    ensures IdsIncreasing(s) ==> IdsIncreasing(moved)
    ensures forall b: nat :: IdsBelow(s, b) ==> IdsBelow(moved, b)
  {
    moved := [];
    var i := 0;
    while i < |s|
      invariant 0 <= i <= |s|
      invariant |moved| == i
      invariant forall k :: 0 <= k < i ==> moved[k] == s[k].(travel := s[k].travel + speed)
    {
      moved := moved + [s[i].(travel := s[i].travel + speed)];
      i := i + 1;
    }
  }

  /** The `some` step: is any obstacle of the advanced field hitting the car? */
  method FindCollision(car: real, moved: seq<Obstacle>) returns (hit: bool)
    ensures hit == AnyHit(car, moved)
  {
    hit := false;
    var j := 0;
    while j < |moved| && !hit
      invariant 0 <= j <= |moved|
      invariant hit == exists k :: 0 <= k < j && Hits(car, moved[k])
    {
      hit := Hits(car, moved[j]);
      j := j + 1;
    }
  }

  /** The `filter` step: obstacles past 100 are dropped, and each one dropped
      raises the score by 10 and reports the new score. */
  method Prune(moved: seq<Obstacle>, score: nat) returns (kept: seq<Obstacle>, newScore: nat, reported: seq<nat>)
    ensures kept == Survivors(moved)
    ensures newScore == score + PointsPerObstacle * (|moved| - |kept|)
    ensures reported == Reports(score, |moved| - |kept|)
  {
    kept, newScore, reported := [], score, [];
    var m := 0;
    while m < |moved|
      invariant 0 <= m <= |moved|
      invariant kept == Survivors(moved[..m])
      invariant newScore == score + PointsPerObstacle * (m - |kept|)
      invariant reported == Reports(score, m - |kept|)
    {
      assert moved[..m + 1][..m] == moved[..m];
      if moved[m].travel > OffField {
        newScore := newScore + PointsPerObstacle;
        reported := reported + [newScore];
      } else {
        kept := kept + [moved[m]];
      }
      m := m + 1;
    }
    assert moved[..m] == moved;
  }

  /** The state of one race screen. */
  class Race {
    const difficultyLevel: string
    var carPosition: real
    var obstacles: seq<Obstacle>
    var score: nat
    var running: bool
    /** `obstacleIdRef`: the id the next obstacle gets. */
    var nextId: nat

    ghost predicate Valid()
      reads this
    {
      && -1.0 <= carPosition <= 1.0
      && score % PointsPerObstacle == 0
      && IdsBelow(obstacles, nextId)
      && IdsIncreasing(obstacles)
      && OnField(obstacles)
    }

    /** The progression level for the current score. */
    function Level(): (level: nat)
      reads this
      ensures 1 <= level <= Difficulty.MaxLevel
    {
      Difficulty.ProgressionLevel(score)
    }

    /** The speed the game loop moves obstacles by on each tick. */
    function Speed(): real
      reads this
    {
      Difficulty.ObstacleSpeed(difficultyLevel, score)
    }

    /** A freshly mounted screen: car centred, empty field, score 0, running. */
    constructor (difficultyLevel: string)
      ensures Valid()
      ensures this.difficultyLevel == difficultyLevel
      ensures carPosition == 0.0 && obstacles == [] && score == 0 && running && nextId == 0
    {
      this.difficultyLevel := difficultyLevel;
      carPosition := 0.0;
      obstacles := [];
      score := 0;
      running := true;
      nextId := 0;
    }

    /** A gesture from the transport: one carrying `normX` places the car at
        the clamped value; anything else, or any gesture after the race
        stopped, changes nothing. */
    method ApplyGesture(g: Option<Gesture>)
      requires Valid()
      modifies this`carPosition
      ensures Valid()
      ensures if running && Truthy(g) && g.value.Payload? && g.value.normX.Some?
              then carPosition == Clamp(g.value.normX.value)
              else carPosition == old(carPosition)
    {
      if !Truthy(g) || !running {
        return;
      }
      if g.value.Payload? && g.value.normX.Some? {
        carPosition := Clamp(g.value.normX.value);
      }
    }

    /** The arrow keys nudge the car by 0.08, stopping at the edges; other
        keys, and any key after the race stopped, change nothing. */
    method KeyDown(key: string)
      requires Valid()
      modifies this`carPosition
      ensures Valid()
      ensures running && key == "ArrowLeft" ==>
        carPosition == if old(carPosition) - KeyStep < -1.0 then -1.0 else old(carPosition) - KeyStep
      ensures running && key == "ArrowRight" ==>
        carPosition == if old(carPosition) + KeyStep > 1.0 then 1.0 else old(carPosition) + KeyStep
      ensures !running || (key != "ArrowLeft" && key != "ArrowRight") ==> carPosition == old(carPosition)
    {
      if !running {
        return;
      }
      if key == "ArrowLeft" {
        carPosition := if carPosition - KeyStep < -1.0 then -1.0 else carPosition - KeyStep;
      } else if key == "ArrowRight" {
        carPosition := if carPosition + KeyStep > 1.0 then 1.0 else carPosition + KeyStep;
      }
    }

    /** The spawn timer: one new obstacle at travel -10 in the given lane,
        with an id above every earlier one. No timer runs once stopped. */
    method Spawn(lane: Lane, kind: Kind)
      requires Valid()
      modifies this`obstacles, this`nextId
      ensures Valid()
      ensures old(running) ==>
        && obstacles == old(obstacles) + [Obstacle(old(nextId), lane, SpawnTravel, kind)]
        && nextId == old(nextId) + 1
        && (forall k :: 0 <= k < |old(obstacles)| ==> old(obstacles)[k].id < obstacles[|obstacles| - 1].id)
      ensures !old(running) ==> obstacles == old(obstacles) && nextId == old(nextId)
    {
      if !running {
        return;
      }
      obstacles := obstacles + [Obstacle(nextId, lane, SpawnTravel, kind)];
      nextId := nextId + 1;
    }

    /** The 50 ms game loop, with `car` the car position the loop reads. All
        obstacles advance by the current speed; if one of them then hits the
        car, the race stops, game over is reported and the field and score are
        left as they were; otherwise the obstacles past 100 are removed and
        each one adds 10 to the score, every new score being reported. */
    method Tick(car: real) returns (gameOver: bool, reported: seq<nat>)
      requires Valid()
      modifies this`obstacles, this`score, this`running
      ensures Valid()
      ensures !old(running) ==>
        !gameOver && reported == [] && !running && obstacles == old(obstacles) && score == old(score)
      ensures old(running) ==> gameOver == AnyHit(car, Advanced(old(obstacles), old(Speed())))
      ensures old(running) && gameOver ==>
        !running && obstacles == old(obstacles) && score == old(score) && reported == []
      ensures old(running) && !gameOver ==>
        && running
        && obstacles == Survivors(Advanced(old(obstacles), old(Speed())))
        && score == old(score) + PointsPerObstacle * (|old(obstacles)| - |obstacles|)
        && reported == Reports(old(score), |old(obstacles)| - |obstacles|)
    {
      gameOver, reported := false, [];
      if !running {
        return;
      }
      var moved := AdvanceAll(obstacles, Speed());
      gameOver := FindCollision(car, moved);
      if gameOver {
        running := false;
        return;
      }
      var kept, newScore;
      kept, newScore, reported := Prune(moved, score);
      SurvivorsKeepOrder(moved);
      SurvivorsKeepBound(moved, nextId);
      SurvivorsOnField(moved);
      score := newScore;
      obstacles := kept;
    }
  }
}
