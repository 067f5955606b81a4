/**
 * Event priorities: `Priority(Option<u32>)`, where 0 is the highest priority
 * and an absent value is lower than every present one.
 */
module Priorities {
  import opened Wrappers
  import opened Intervals

  datatype Priority = Priority(level: Option<U32>)

  const Unspecified: Priority := Priority(None)
  /** The highest priority. */
  const Max: Priority := Priority(Some(0))
  /** The lowest priority, which is the unspecified one. */
  const Min: Priority := Unspecified

  datatype Ordering = Less | Equal | Greater

  function Reverse(o: Ordering): Ordering
  {
    match o
    case Less => Greater
    case Equal => Equal
    case Greater => Less
  }

  /** `Ord for u32`. */
  function CmpNat(a: int, b: int): Ordering
  {
    if a < b then Less else if a == b then Equal else Greater
  }

  /**
   * An integer scale for priorities, independent of `Cmp`: larger is more
   * important. A present value v sits at -v; the unspecified priority sits
   * below every present one.
   */
  function Rank(p: Priority): int
  {
    match p.level
    case None => -U32Max - 1
    case Some(v) => 0 - v as int
  }

  /** `Ord for Priority`: it orders priorities exactly as their ranks. */
  function Cmp(a: Priority, b: Priority): (r: Ordering)
    ensures r == CmpNat(Rank(a), Rank(b))
  {
    match (a.level, b.level)
    case (None, None) => Equal
    case (None, Some(_)) => Less
    case (Some(_), None) => Greater
    case (Some(s), Some(o)) => Reverse(CmpNat(s, o))
  }

  /** `PartialOrd for Priority`. */
  function PartialCmp(a: Priority, b: Priority): (r: Option<Ordering>)
    ensures r == Some(Cmp(a, b))
  {
    Some(Cmp(a, b))
  }

  predicate Le(a: Priority, b: Priority)
  {
    Cmp(a, b) != Greater
  }

  /** Distinct priorities have distinct ranks, so `Equal` means equal values. */
  lemma RankInjective(a: Priority, b: Priority)
    ensures Rank(a) == Rank(b) <==> a == b
    ensures Cmp(a, b) == Equal <==> a == b
  {
  }

  /** `Cmp` is a total order and swapping the arguments reverses the answer. */
  lemma CmpIsTotalOrder()
    ensures forall a :: Le(a, a)
    ensures forall a, b :: Le(a, b) && Le(b, a) ==> a == b
    ensures forall a, b, c :: Le(a, b) && Le(b, c) ==> Le(a, c)
    ensures forall a, b :: Le(a, b) || Le(b, a)
    ensures forall a, b :: Cmp(b, a) == Reverse(Cmp(a, b))
  {
    forall a, b | Le(a, b) && Le(b, a)
      ensures a == b
    {
      RankInjective(a, b);
    }
  }

  /** The unspecified priority is below every present one; present ones compare reversed. */
  lemma PriorityOrdering(a: U32, b: U32)
    ensures Cmp(Unspecified, Priority(Some(a))) == Less
    ensures Cmp(Priority(Some(a)), Priority(Some(b))) == Less <==> a > b
    ensures Cmp(Priority(Some(a)), Priority(Some(b))) == Equal <==> a == b
  {
  }

  /** Every priority lies between `Min` and `Max`. */
  lemma MinMaxBound(p: Priority)
    ensures Min == Unspecified
    ensures Le(Min, p) && Le(p, Max)
  {
  }

  function Abs(i: int): nat
  {
    if i < 0 then -i else i
  }

  /**
   * `From<Option<i64>> for Priority`: the absolute value when it fits in a
   * `u32`, and the unspecified priority otherwise.
   */
  function FromI64(o: Option<I64>): (r: Priority)
    ensures o.None? ==> r == Unspecified
    ensures o.Some? && Abs(o.value) <= U32Max ==> r == Priority(Some(Abs(o.value)))
    ensures o.Some? && Abs(o.value) > U32Max ==> r == Unspecified
  {
    match o
    case None => Unspecified
    case Some(i) => if Abs(i) <= U32Max then Priority(Some(Abs(i))) else Unspecified
  }

  /** `From<Priority> for Option<i64>`: the value widened, or nothing. */
  function ToI64(p: Priority): (r: Option<I64>)
    ensures r.Some? <==> p.level.Some?
    ensures r.Some? ==> 0 <= r.value <= U32Max && r.value == p.level.value
  {
    match p.level
    case None => None
    case Some(v) => Some(v)
  }

  /** Converting to `Option<i64>` and back loses nothing. */
  lemma ToThenFromI64(p: Priority)
    ensures FromI64(ToI64(p)) == p
  {
  }

  /** The sign of the input is dropped: i and -i give the same priority. */
  lemma FromI64IgnoresSign(i: I64)
    requires I64Min < i
    ensures FromI64(Some(i)) == FromI64(Some(-i))
  {
  }

  /** In the other direction the round trip keeps exactly the in-range magnitudes. */
  lemma FromThenToI64(o: Option<I64>)
    ensures ToI64(FromI64(o)) ==
              if o.Some? && Abs(o.value) <= U32Max then Some(Abs(o.value)) else None
  {
  }
}
