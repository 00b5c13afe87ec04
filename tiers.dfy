/** The five proficiency tiers and their order.  The bot keeps the order as the
    list `['A1', 'A2', 'B1', 'B2', 'C1']` and moves between neighbours by index
    arithmetic on that list; the same is done here on `Levels`. */
module Tiers {
  import opened Optional

  datatype Tier = A1 | A2 | B1 | B2 | C1

  /** The tier list, lowest first. */
  const Levels: seq<Tier> := [A1, A2, B1, B2, C1]

  /** The label the bot stores and shows for a tier. */
  function Label(t: Tier): (s: string)
    ensures |s| == 2 && s[0] in "ABC" && s[1] in "12"
  {
    match t
    case A1 => "A1"
    case A2 => "A2"
    case B1 => "B1"
    case B2 => "B2"
    case C1 => "C1"
  }

  /** Position of a tier in `Levels` (Python's `levels.index(level)`). */
  function Index(t: Tier): (i: nat)
    ensures i < |Levels| && Levels[i] == t
  {
    match t
    case A1 => 0
    case A2 => 1
    case B1 => 2
    case B2 => 3
    case C1 => 4
  }

  /** The tier one step up, or None at the ceiling C1. */
  function Next(t: Tier): (r: Option<Tier>)
    ensures r.Some? <==> t != C1
    ensures r.Some? ==> Index(r.value) == Index(t) + 1
  {
    var i := Index(t);
    if i < |Levels| - 1 then Some(Levels[i + 1]) else None
  }

  /** The tier one step down, or None at the floor A1. */
  function Prev(t: Tier): (r: Option<Tier>)
    ensures r.Some? <==> t != A1
    ensures r.Some? ==> Index(r.value) + 1 == Index(t)
  {
    var i := Index(t);
    if i > 0 then Some(Levels[i - 1]) else None
  }

  /** `Levels` lists every tier exactly once, so `Index` and `Levels` are
      inverse to each other. */
  lemma LevelsEnumerate(i: int)
    requires 0 <= i < |Levels|
    ensures Index(Levels[i]) == i
  {
  }

  /** Distinct tiers have distinct labels: a stored label names one tier. */
  lemma LabelInjective(s: Tier, t: Tier)
    ensures Label(s) == Label(t) <==> s == t
  {
    if s != t {
      assert Index(s) != Index(t);
      assert Label(s)[0] != Label(t)[0] || Label(s)[1] != Label(t)[1];
    }
  }

  /** `Next` and `Prev` are inverse steps of the order. */
  lemma NextPrevInverse(s: Tier, t: Tier)
    ensures Next(s) == Some(t) <==> Prev(t) == Some(s)
  {
    if Next(s) == Some(t) {
      LevelsEnumerate(Index(s));
    }
    if Prev(t) == Some(s) {
      LevelsEnumerate(Index(t));
    }
  }
}
