/** The rating shown for a slap, by its points (defined identically by both
    slap screens). */
module SlapRating {

  datatype Rating = Nice | Good | Great | Amazing | Legendary

  /** The position of a rating in the order NICE < GOOD < GREAT < AMAZING < LEGENDARY. */
  function Tier(r: Rating): nat {
    match r
    case Nice => 0
    case Good => 1
    case Great => 2
    case Amazing => 3
    case Legendary => 4
  }

  /** `getSlapRating`: thresholds 200, 150, 100 and 50, each exclusive. */
  function Rate(points: int): (r: Rating)
    ensures r == Legendary <==> 200 < points
    ensures r == Amazing <==> 150 < points <= 200
    ensures r == Great <==> 100 < points <= 150
    ensures r == Good <==> 50 < points <= 100
    ensures r == Nice <==> points <= 50
  {
    if points > 200 then Legendary
    else if points > 150 then Amazing
    else if points > 100 then Great
    else if points > 50 then Good
    else Nice
  }

  /** More points never give a lower rating. */
  lemma RateMonotone(a: int, b: int)
    requires a <= b
    ensures Tier(Rate(a)) <= Tier(Rate(b))
  {
  }
}
