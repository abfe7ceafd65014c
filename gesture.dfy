/** The shapes a gesture message can take when it reaches a game screen, and
    the numeric coercions the slap screens apply to a slap payload. */
module Gesture {
  import opened Wrappers

  /** One field of a gesture payload as JavaScript sees it: missing, present
      but not readable as a number, or a number (a number written as text
      counts as that number). */
  datatype Field = Absent | Junk | Num(value: real)

  /** A message delivered by the transport: either a bare string such as
      "left", or an object whose `type`, `normX` and slap fields may each be
      present or not. */
  datatype Gesture =
    | Word(text: string)
    | Payload(kind: Option<string>, normX: Option<real>,
              speed: Field, distance: Field, points: Field, magnitude: Field)

  /** JavaScript truthiness of the current gesture: `null` and the empty
      string are falsy, every other string and every object is truthy. */
  predicate Truthy(g: Option<Gesture>) {
    match g
    case None => false
    case Some(Word(t)) => t != ""
    case Some(Payload(_, _, _, _, _, _)) => true
  }

  /** `typeof data === 'string'`. */
  predicate IsText(g: Gesture) {
    g.Word?
  }

  /** `gestureCommand.type === 'slap'`; a string has no `type` property. */
  predicate IsSlap(g: Gesture) {
    g.Payload? && g.kind == Some("slap")
  }

  /** `parseFloat(x) || 0`: a number is kept, anything unreadable becomes 0. */
  function ParseFloat(f: Field): (r: real)
    ensures f.Num? ==> r == f.value
    ensures !f.Num? ==> r == 0.0
  {
    if f.Num? then f.value else 0.0
  }

  /** Truncation toward zero, as `parseInt` reads the integer part of a number. */
  function Truncate(x: real): (r: int)
    ensures 0.0 <= x ==> r as real <= x < r as real + 1.0
    ensures x < 0.0 ==> r as real - 1.0 < x <= r as real
  {
    if 0.0 <= x then x.Floor else -((-x).Floor)
  }

  /** `parseInt(x) || 0`: the integer part of a number, 0 for anything else. */
  function ParseInt(f: Field): (r: int)
    ensures f.Num? ==> r == Truncate(f.value)
    ensures !f.Num? ==> r == 0
  {
    if f.Num? then Truncate(f.value) else 0
  }

  /** `Math.round`: halves round toward positive infinity. */
  function Round(x: real): (r: int)
    ensures r as real - 0.5 <= x < r as real + 0.5
  {
    (x + 0.5).Floor
  }
}
