/** Constants and small value types shared by every component. */
module Base {

  datatype Option<+T> = None | Some(value: T)

  // Limits of the 64-bit time types. The source writes either of them for "no end yet".
  const ULONG_MAX: nat := 0xFFFF_FFFF_FFFF_FFFF
  const LONG_MAX: nat := 0x7FFF_FFFF_FFFF_FFFF

  /** A port of a communication process; DirectionSize is the enumeration's end marker. */
  datatype Direction = Here | Up | Left | Right | DirectionSize {
    function Ordinal(): (k: nat)
      ensures k <= 4
    {
      match this
      case Here => 0
      case Up => 1
      case Left => 2
      case Right => 3
      case DirectionSize => 4
    }
  }

  /** ++direction; the source asserts that it is not already past the last port. */
  function NextDirection(d: Direction): (r: Direction)
    requires d != DirectionSize
    ensures r.Ordinal() == d.Ordinal() + 1
  {
    match d
    case Here => Up
    case Up => Left
    case Left => Right
    case Right => DirectionSize
  }

  /** A process identifier. The source compares both components at once, so the operators
      below are not each other's negations in general. */
  datatype LpId = LpId(id: nat, rank: nat)

  predicate IdLess(a: LpId, b: LpId) { a.id < b.id && a.rank < b.rank }

  predicate IdGreater(a: LpId, b: LpId) { a.id > b.id && a.rank > b.rank }

  predicate IdNotEqual(a: LpId, b: LpId) { a.id != b.id && a.rank != b.rank }

  /** Ids rise with ranks: one agent per ALP, numbered in rank order. */
  ghost predicate Chain(s: set<LpId>)
  {
    forall a, b | a in s && b in s :: a == b || IdLess(a, b) || IdLess(b, a)
  }

  /** On a chain, and only there, the operators are a total order and != is not ==. */
  lemma ChainIffOrdered(s: set<LpId>)
    ensures Chain(s) <==>
              forall a, b | a in s && b in s ::
                && (IdNotEqual(a, b) <==> a != b)
                && (!IdLess(a, b) && !IdLess(b, a) ==> a == b)
                && (IdGreater(a, b) <==> IdLess(b, a))
  {
  }

  datatype Value =
    | IntValue(int)
    | DoubleValue(real)
    | PointValue(x: int, y: int)
    | StringValue(string)
    | LongValue(int)

  // ---- rollback tags ----

  /** What a rollback is known by: the variable and time it started from, why, and when. */
  datatype Tag = Tag(ssv: nat, time: nat, kind: nat, realTime: nat)

  const ROLLBACK_BY_WRITE: nat := 1
  const ROLLBACK_BY_SM: nat := 3
}
