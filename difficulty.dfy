/** The difficulty catalogue of the continuous race and the progression
    level that raises obstacle speed as the score grows. */
module Difficulty {
  import opened Wrappers

  /** One tier: how often an obstacle appears, how fast it moves at level 1,
      and the label shown beside the score (shown without its emoji). */
  datatype Profile = Profile(spawnIntervalMs: nat, baseSpeed: real, title: string)

  const Beginner := Profile(6000, 2.0, "Easy")
  const Intermediate := Profile(4000, 2.5, "Medium")
  const Complex := Profile(2000, 3.5, "Hard")

  /** Points per progression level and the highest level. */
  const PointsPerLevel: nat := 50
  const MaxLevel: nat := 5
  /** Speed added per level above the first. */
  const SpeedPerLevel: real := 0.3

  /** The lookup `difficultyConfig[name]`: only the three catalogue names. */
  function Catalogue(name: string): (p: Option<Profile>)
    ensures p.Some? <==> name in {"beginner", "intermediate", "complex"}
  {
    if name == "beginner" then Some(Beginner)
    else if name == "intermediate" then Some(Intermediate)
    else if name == "complex" then Some(Complex)
    else None
  }

  /** The profile whose label is displayed: an unknown name falls back to
      the intermediate tier. */
  function Displayed(name: string): (p: Profile)
    ensures Catalogue(name).Some? ==> p == Catalogue(name).value
    ensures Catalogue(name).None? ==> p == Intermediate
  {
    Catalogue(name).GetOr(Intermediate)
  }

  /** The spawn interval and base speed the game loop actually uses: it tests
      only "beginner" and "intermediate", and every other name is played at
      the hard tier's values. */
  function LoopProfile(name: string): Profile {
    if name == "beginner" then Beginner
    else if name == "intermediate" then Intermediate
    else Complex
  }

  /** The game loop and the catalogue agree on every catalogue name; for any
      other name they part: the loop plays the hard tier while the label
      falls back to the medium one. */
  lemma LoopMatchesCatalogue(name: string)
    ensures Catalogue(name).Some? ==>
      LoopProfile(name).spawnIntervalMs == Displayed(name).spawnIntervalMs &&
      LoopProfile(name).baseSpeed == Displayed(name).baseSpeed
    ensures Catalogue(name).None? ==>
      LoopProfile(name) == Complex && Displayed(name) == Intermediate &&
      LoopProfile(name).spawnIntervalMs == 2000 && LoopProfile(name).baseSpeed == 3.5
  {
  }

  /** The progression level `min(floor(score / 50) + 1, 5)`. */
  function ProgressionLevel(score: nat): (level: nat)
    ensures 1 <= level <= MaxLevel
    ensures level == MaxLevel || level == score / PointsPerLevel + 1
    ensures level < MaxLevel ==> score < (MaxLevel - 1) * PointsPerLevel
    ensures score < (MaxLevel - 1) * PointsPerLevel ==> level == score / PointsPerLevel + 1
    ensures score >= (MaxLevel - 1) * PointsPerLevel ==> level == MaxLevel
  {
    var raw := score / PointsPerLevel + 1;
    if raw < MaxLevel then raw else MaxLevel
  }

  /** A higher score never lowers the level. */
  lemma LevelMonotone(a: nat, b: nat)
    requires a <= b
    ensures ProgressionLevel(a) <= ProgressionLevel(b)
  {
  }

  /** The obstacle speed `base + (level - 1) * 0.3` for a tier name and a score. */
  function ObstacleSpeed(name: string, score: nat): (speed: real)
    ensures LoopProfile(name).baseSpeed <= speed <= LoopProfile(name).baseSpeed + 1.2
    ensures 2.0 <= speed <= 4.7
  {
    LoopProfile(name).baseSpeed + (ProgressionLevel(score) - 1) as real * SpeedPerLevel
  }

  /** A higher score never slows obstacles down. */
  lemma {:induction false} SpeedMonotone(name: string, a: nat, b: nat)
    requires a <= b
    ensures ObstacleSpeed(name, a) <= ObstacleSpeed(name, b)
  {
    LevelMonotone(a, b);
  }
}
