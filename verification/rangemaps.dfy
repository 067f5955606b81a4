/**
 * A map from half-open integer ranges to values, as kept by the `rangemap`
 * crate: a sequence of non-empty, sorted, pairwise disjoint ranges, gaps
 * allowed, where two touching ranges never carry the same value (they are
 * merged into one). `Insert` overwrites the part of the map it covers.
 */
module RangeMaps {
  import opened Wrappers

  /** One stored range `[lo, hi)` and its value. */
  datatype Seg<V> = Seg(lo: int, hi: int, val: V)

  predicate Contains<V>(g: Seg<V>, t: int)
  {
    g.lo <= t < g.hi
  }

  /** Non-empty ranges, sorted by start, pairwise disjoint. */
  predicate WellFormed<V>(m: seq<Seg<V>>)
  {
    && (forall i :: 0 <= i < |m| ==> m[i].lo < m[i].hi)
    && (forall i, j :: 0 <= i < j < |m| ==> m[i].hi <= m[j].lo)
  }

  /** Neighbouring ranges that touch carry different values. */
  predicate Coalesced<V(==)>(m: seq<Seg<V>>)
  {
    forall i :: 0 < i < |m| && m[i - 1].hi == m[i].lo ==> m[i - 1].val != m[i].val
  }

  /** The representation invariant of a range map. */
  predicate Valid<V(==)>(m: seq<Seg<V>>)
  {
    WellFormed(m) && Coalesced(m)
  }

  predicate AllBelow<V>(m: seq<Seg<V>>, s: int)
  {
    forall i :: 0 <= i < |m| ==> m[i].hi <= s
  }

  predicate AllAbove<V>(m: seq<Seg<V>>, e: int)
  {
    forall i :: 0 <= i < |m| ==> e <= m[i].lo
  }

  /** `get_key_value`: the first stored range containing `t`. */
  function SegmentAt<V>(m: seq<Seg<V>>, t: int): (r: Option<Seg<V>>)
    ensures r.Some? ==> r.value in m && Contains(r.value, t)
    ensures r.None? <==> forall i :: 0 <= i < |m| ==> !Contains(m[i], t)
  {
    if m == [] then None
    else if Contains(m[0], t) then Some(m[0])
    else
      var r := SegmentAt(m[1..], t);
      assert forall i :: 1 <= i < |m| ==> m[i] == m[1..][i - 1];
      r
  }

  /** `get`: the value stored for `t`. */
  function ValueAt<V>(m: seq<Seg<V>>, t: int): (r: Option<V>)
  {
    match SegmentAt(m, t)
    case None => None
    case Some(g) => Some(g.val)
  }

  /** In a well-formed map the containing range is unique. */
  lemma SegmentAtIndex<V>(m: seq<Seg<V>>, i: int, t: int)
    requires WellFormed(m)
    requires 0 <= i < |m| && Contains(m[i], t)
    ensures SegmentAt(m, t) == Some(m[i])
  {
    var g := SegmentAt(m, t).value;
    var j :| 0 <= j < |m| && m[j] == g;
  }

  /** Looking up in a concatenation looks in the first part first. */
  lemma {:induction false} SegmentAtConcat<V>(a: seq<Seg<V>>, b: seq<Seg<V>>, t: int)
    ensures SegmentAt(a + b, t) == if SegmentAt(a, t).Some? then SegmentAt(a, t) else SegmentAt(b, t)
  {
    if a != [] {
      assert (a + b)[1..] == a[1..] + b;
      SegmentAtConcat(a[1..], b, t);
    } else {
      assert a + b == b;
    }
  }

  lemma ValueAtConcat<V>(a: seq<Seg<V>>, b: seq<Seg<V>>, t: int)
    ensures ValueAt(a + b, t) == if ValueAt(a, t).Some? then ValueAt(a, t) else ValueAt(b, t)
  {
    SegmentAtConcat(a, b, t);
  }

  lemma ValueAtCons<V>(g: Seg<V>, m: seq<Seg<V>>, t: int)
    ensures ValueAt([g] + m, t) == if Contains(g, t) then Some(g.val) else ValueAt(m, t)
  {
    assert ([g] + m)[1..] == m;
  }

  function Min(a: int, b: int): int { if a <= b then a else b }

  function Max(a: int, b: int): int { if a <= b then b else a }

  /** The part of the map below `s`: ranges ending after `s` are cut at `s`. */
  function Below<V>(m: seq<Seg<V>>, s: int): seq<Seg<V>>
  {
    if m == [] || s <= m[0].lo then []
    else [m[0].(hi := Min(m[0].hi, s))] + Below(m[1..], s)
  }

  /** The part of the map from `e` on: ranges starting before `e` are cut at `e`. */
  function Above<V>(m: seq<Seg<V>>, e: int): seq<Seg<V>>
  {
    if m == [] then []
    else if m[0].hi <= e then Above(m[1..], e)
    else [m[0].(lo := Max(m[0].lo, e))] + m[1..]
  }

  lemma WellFormedTail<V>(m: seq<Seg<V>>)
    requires WellFormed(m) && m != []
    ensures WellFormed(m[1..])
    ensures forall i :: 0 <= i < |m[1..]| ==> m[0].hi <= m[1..][i].lo
  {
    forall i, j | 0 <= i < j < |m[1..]|
      ensures m[1..][i].hi <= m[1..][j].lo
    {
      assert m[1..][i] == m[i + 1] && m[1..][j] == m[j + 1];
    }
    forall i | 0 <= i < |m[1..]|
      ensures m[0].hi <= m[1..][i].lo
    {
      assert m[1..][i] == m[i + 1];
    }
  }

  lemma CoalescedTail<V>(m: seq<Seg<V>>)
    requires Coalesced(m) && m != []
    ensures Coalesced(m[1..])
  {
    forall i | 0 < i < |m[1..]| && m[1..][i - 1].hi == m[1..][i].lo
      ensures m[1..][i - 1].val != m[1..][i].val
    {
      assert m[1..][i - 1] == m[i] && m[1..][i] == m[i + 1];
    }
  }

  /** Nothing is stored before the first range of a well-formed map. */
  lemma ValueBeforeFirst<V>(m: seq<Seg<V>>, t: int)
    requires WellFormed(m) && m != [] && t < m[0].lo
    ensures ValueAt(m, t).None?
  {
    forall i | 0 <= i < |m|
      ensures !Contains(m[i], t)
    {
      if i > 0 {
        assert m[0].hi <= m[i].lo;
      }
    }
  }

  /** The part below `s` is a well-formed map lying below `s`, starting where `m` starts. */
  lemma {:induction false} BelowShape<V>(m: seq<Seg<V>>, s: int)
    requires WellFormed(m)
    ensures WellFormed(Below(m, s)) && AllBelow(Below(m, s), s)
    ensures Below(m, s) != [] ==> m != [] && Below(m, s)[0].lo == m[0].lo && m[0].lo < s
  {
    if m != [] && m[0].lo < s {
      WellFormedTail(m);
      var rest := m[1..];
      BelowShape(rest, s);
      var head := m[0].(hi := Min(m[0].hi, s));
      var b := Below(rest, s);
      assert Below(m, s) == [head] + b;
      forall i, j | 0 <= i < j < |[head] + b|
        ensures ([head] + b)[i].hi <= ([head] + b)[j].lo
      {
        if i == 0 {
          assert b[0].lo == rest[0].lo >= m[0].hi;
          assert b[j - 1].lo >= b[0].lo;
        } else {
          assert ([head] + b)[i] == b[i - 1] && ([head] + b)[j] == b[j - 1];
        }
      }
      forall i | 0 <= i < |[head] + b|
        ensures ([head] + b)[i].hi <= s
      {
        if i > 0 {
          assert ([head] + b)[i] == b[i - 1];
        }
      }
    }
  }

  lemma {:induction false} BelowCoalesced<V>(m: seq<Seg<V>>, s: int)
    requires Valid(m)
    ensures Coalesced(Below(m, s))
  {
    if m != [] && m[0].lo < s {
      WellFormedTail(m);
      CoalescedTail(m);
      var rest := m[1..];
      BelowCoalesced(rest, s);
      BelowShape(rest, s);
      var head := m[0].(hi := Min(m[0].hi, s));
      var b := Below(rest, s);
      assert Below(m, s) == [head] + b;
      forall i | 0 < i < |[head] + b| && ([head] + b)[i - 1].hi == ([head] + b)[i].lo
        ensures ([head] + b)[i - 1].val != ([head] + b)[i].val
      {
        if i == 1 {
          assert b[0].lo == rest[0].lo == m[1].lo;
          assert m[0].hi <= m[1].lo < s;
        } else {
          assert ([head] + b)[i - 1] == b[i - 2] && ([head] + b)[i] == b[i - 1];
        }
      }
    }
  }

  /** Below `s` the cut map agrees with `m`; from `s` on it holds nothing. */
  lemma {:induction false} BelowValues<V>(m: seq<Seg<V>>, s: int, t: int)
    requires WellFormed(m)
    ensures ValueAt(Below(m, s), t) == if t < s then ValueAt(m, t) else None
  {
    if m == [] || s <= m[0].lo {
      if t < s && m != [] {
        ValueBeforeFirst(m, t);
      }
    } else {
      WellFormedTail(m);
      BelowValues(m[1..], s, t);
      ValueAtCons(m[0].(hi := Min(m[0].hi, s)), Below(m[1..], s), t);
      ValueAtCons(m[0], m[1..], t);
      assert [m[0]] + m[1..] == m;
    }
  }

  /** The part from `e` on is a well-formed map lying at or above `e`. */
  lemma {:induction false} AboveShape<V>(m: seq<Seg<V>>, e: int)
    requires WellFormed(m)
    ensures WellFormed(Above(m, e)) && AllAbove(Above(m, e), e)
  {
    if m == [] {
    } else if m[0].hi <= e {
      WellFormedTail(m);
      AboveShape(m[1..], e);
    } else {
      WellFormedTail(m);
      var rest := m[1..];
      var head := m[0].(lo := Max(m[0].lo, e));
      assert Above(m, e) == [head] + rest;
      forall i, j | 0 <= i < j < |[head] + rest|
        ensures ([head] + rest)[i].hi <= ([head] + rest)[j].lo
      {
        assert ([head] + rest)[j] == m[j];
        if i > 0 {
          assert ([head] + rest)[i] == m[i];
        }
      }
      forall i | 0 <= i < |[head] + rest|
        ensures e <= ([head] + rest)[i].lo
      {
        if i > 0 {
          assert ([head] + rest)[i] == m[i];
          assert m[0].hi <= m[i].lo;
        }
      }
    }
  }

  lemma {:induction false} AboveCoalesced<V>(m: seq<Seg<V>>, e: int)
    requires Valid(m)
    ensures Coalesced(Above(m, e))
  {
    if m == [] {
    } else if m[0].hi <= e {
      WellFormedTail(m);
      CoalescedTail(m);
      AboveCoalesced(m[1..], e);
    } else {
      var rest := m[1..];
      var head := m[0].(lo := Max(m[0].lo, e));
      assert Above(m, e) == [head] + rest;
      forall i | 0 < i < |[head] + rest| && ([head] + rest)[i - 1].hi == ([head] + rest)[i].lo
        ensures ([head] + rest)[i - 1].val != ([head] + rest)[i].val
      {
        assert ([head] + rest)[i] == m[i];
        if i > 1 {
          assert ([head] + rest)[i - 1] == m[i - 1];
        }
      }
    }
  }

  /** From `e` on the cut map agrees with `m`; below `e` it holds nothing. */
  lemma {:induction false} AboveValues<V>(m: seq<Seg<V>>, e: int, t: int)
    requires WellFormed(m)
    ensures ValueAt(Above(m, e), t) == if e <= t then ValueAt(m, t) else None
  {
    if m == [] {
    } else if m[0].hi <= e {
      WellFormedTail(m);
      AboveValues(m[1..], e, t);
      ValueAtCons(m[0], m[1..], t);
      assert [m[0]] + m[1..] == m;
    } else {
      WellFormedTail(m);
      var rest := m[1..];
      ValueAtCons(m[0].(lo := Max(m[0].lo, e)), rest, t);
      ValueAtCons(m[0], rest, t);
      assert [m[0]] + rest == m;
      if t < e && rest != [] {
        ValueBeforeFirst(rest, t);
      }
    }
  }

  /** Three well-formed pieces in order form a well-formed map. */
  lemma JoinWellFormed<V>(a: seq<Seg<V>>, g: Seg<V>, b: seq<Seg<V>>)
    requires WellFormed(a) && WellFormed(b) && g.lo < g.hi
    requires AllBelow(a, g.lo) && AllAbove(b, g.hi)
    ensures WellFormed(a + [g] + b)
  {
    var m := a + [g] + b;
    forall i, j | 0 <= i < j < |m|
      ensures m[i].hi <= m[j].lo
    {
      if j < |a| {
        assert m[i] == a[i] && m[j] == a[j];
      } else if j == |a| {
        assert m[i] == a[i];
      } else if i < |a| {
        assert m[i] == a[i] && m[j] == b[j - |a| - 1];
      } else if i == |a| {
        assert m[j] == b[j - |a| - 1];
      } else {
        assert m[i] == b[i - |a| - 1] && m[j] == b[j - |a| - 1];
      }
    }
  }

  lemma JoinCoalesced<V>(a: seq<Seg<V>>, g: Seg<V>, b: seq<Seg<V>>)
    requires Coalesced(a) && Coalesced(b)
    requires a != [] && a[|a| - 1].hi == g.lo ==> a[|a| - 1].val != g.val
    requires b != [] && g.hi == b[0].lo ==> g.val != b[0].val
    ensures Coalesced(a + [g] + b)
  {
    var m := a + [g] + b;
    forall i | 0 < i < |m| && m[i - 1].hi == m[i].lo
      ensures m[i - 1].val != m[i].val
    {
      if i < |a| {
        assert m[i - 1] == a[i - 1] && m[i] == a[i];
      } else if i == |a| {
        assert m[i - 1] == a[i - 1];
      } else if i == |a| + 1 {
        assert m[i] == b[0];
      } else {
        assert m[i - 1] == b[i - |a| - 2] && m[i] == b[i - |a| - 1];
      }
    }
  }

  /**
   * `RangeMap::insert`: `[s, e)` maps to `v` afterwards and the rest of
   * the map is unchanged; a stored range with value `v` that touches or
   * overlaps `[s, e)` is merged with it.
   */
  function Insert<V(==)>(m: seq<Seg<V>>, s: int, e: int, v: V): seq<Seg<V>>
    requires s < e
  {
    InsertPieces(Below(m, s), Above(m, e), s, e, v)
  }

  /** Puts `[s, e) -> v` between the parts `l` and `r`, merging equal neighbours. */
  function InsertPieces<V(==)>(l: seq<Seg<V>>, r: seq<Seg<V>>, s: int, e: int, v: V): seq<Seg<V>>
  {
    LeftKept(l, s, v) + ([Seg(LeftStart(l, s, v), RightEnd(r, e, v), v)] + RightKept(r, e, v))
  }

  /** The last range of `l` ends at `s` with value `v`: it is absorbed by the new range. */
  predicate MergesLeft<V(==)>(l: seq<Seg<V>>, s: int, v: V)
  {
    l != [] && l[|l| - 1].hi == s && l[|l| - 1].val == v
  }

  /** The first range of `r` starts at `e` with value `v`: it is absorbed by the new range. */
  predicate MergesRight<V(==)>(r: seq<Seg<V>>, e: int, v: V)
  {
    r != [] && r[0].lo == e && r[0].val == v
  }

  function LeftKept<V(==)>(l: seq<Seg<V>>, s: int, v: V): seq<Seg<V>>
  {
    if MergesLeft(l, s, v) then l[..|l| - 1] else l
  }

  function LeftStart<V(==)>(l: seq<Seg<V>>, s: int, v: V): int
  {
    if MergesLeft(l, s, v) then l[|l| - 1].lo else s
  }

  function RightKept<V(==)>(r: seq<Seg<V>>, e: int, v: V): seq<Seg<V>>
  {
    if MergesRight(r, e, v) then r[1..] else r
  }

  function RightEnd<V(==)>(r: seq<Seg<V>>, e: int, v: V): int
  {
    if MergesRight(r, e, v) then r[0].hi else e
  }

  lemma LeftMerge<V>(l: seq<Seg<V>>, s: int, v: V)
    requires Valid(l) && AllBelow(l, s)
    ensures var a, lo := LeftKept(l, s, v), LeftStart(l, s, v);
      && Valid(a) && AllBelow(a, lo) && lo <= s
      && (a != [] && a[|a| - 1].hi == lo ==> a[|a| - 1].val != v)
  {
    if MergesLeft(l, s, v) {
      var a := l[..|l| - 1];
      assert forall i :: 0 <= i < |a| ==> a[i] == l[i];
      assert forall i :: 0 <= i < |a| ==> a[i].hi <= l[|l| - 1].lo;
      if a != [] {
        assert a[|a| - 1] == l[|l| - 2];
      }
    }
  }

  lemma RightMerge<V>(r: seq<Seg<V>>, e: int, v: V)
    requires Valid(r) && AllAbove(r, e)
    ensures var b, hi := RightKept(r, e, v), RightEnd(r, e, v);
      && Valid(b) && AllAbove(b, hi) && e <= hi
      && (b != [] && b[0].lo == hi ==> b[0].val != v)
  {
    if MergesRight(r, e, v) {
      var b := r[1..];
      assert forall i :: 0 <= i < |b| ==> b[i] == r[i + 1];
      assert forall i :: 0 <= i < |b| ==> r[0].hi <= b[i].lo;
      if b != [] {
        assert b[0] == r[1];
      }
    }
  }

  /** Assembling valid parts around a non-empty range gives a valid map. */
  lemma PiecesValid<V>(l: seq<Seg<V>>, r: seq<Seg<V>>, s: int, e: int, v: V)
    requires s < e && Valid(l) && AllBelow(l, s) && Valid(r) && AllAbove(r, e)
    ensures Valid(InsertPieces(l, r, s, e, v))
  {
    LeftMerge(l, s, v);
    RightMerge(r, e, v);
    var a, b := LeftKept(l, s, v), RightKept(r, e, v);
    var lo, hi := LeftStart(l, s, v), RightEnd(r, e, v);
    assert Valid(a) && AllBelow(a, lo) && lo <= s;
    assert Valid(b) && AllAbove(b, hi) && e <= hi;
    JoinValid(a, Seg(lo, hi, v), b);
  }

  lemma JoinValid<V>(a: seq<Seg<V>>, g: Seg<V>, b: seq<Seg<V>>)
    requires Valid(a) && Valid(b) && g.lo < g.hi
    requires AllBelow(a, g.lo) && AllAbove(b, g.hi)
    requires a != [] && a[|a| - 1].hi == g.lo ==> a[|a| - 1].val != g.val
    requires b != [] && g.hi == b[0].lo ==> g.val != b[0].val
    ensures Valid(a + ([g] + b))
  {
    JoinWellFormed(a, g, b);
    JoinCoalesced(a, g, b);
    assert a + ([g] + b) == a + [g] + b;
  }

  /** Merging a range `[lo, s)` into a following `[s, e)` with the same value changes no lookup. */
  lemma MergeSameValues<V>(a: seq<Seg<V>>, x: Seg<V>, y: Seg<V>, b: seq<Seg<V>>, t: int)
    requires x.lo <= x.hi == y.lo <= y.hi && x.val == y.val
    ensures ValueAt(a + ([x] + ([y] + b)), t) == ValueAt(a + ([Seg(x.lo, y.hi, y.val)] + b), t)
  {
    ValueAtConcat(a, [x] + ([y] + b), t);
    ValueAtConcat(a, [Seg(x.lo, y.hi, y.val)] + b, t);
    ValueAtCons(x, [y] + b, t);
    ValueAtCons(y, b, t);
    ValueAtCons(Seg(x.lo, y.hi, y.val), b, t);
  }

  /**
   * Insertion keeps the representation invariant and overwrites exactly
   * `[s, e)`: afterwards every instant in it maps to `v` and every other
   * instant maps to what it mapped to before.
   */
  lemma InsertSpec<V>(m: seq<Seg<V>>, s: int, e: int, v: V)
    requires Valid(m) && s < e
    ensures Valid(Insert(m, s, e, v))
    ensures forall t :: ValueAt(Insert(m, s, e, v), t) == if s <= t < e then Some(v) else ValueAt(m, t)
  {
    var l := Below(m, s);
    var r := Above(m, e);
    BelowShape(m, s);
    BelowCoalesced(m, s);
    AboveShape(m, e);
    AboveCoalesced(m, e);
    PiecesValid(l, r, s, e, v);
    forall t
      ensures ValueAt(Insert(m, s, e, v), t) == if s <= t < e then Some(v) else ValueAt(m, t)
    {
      InsertValues(l, r, s, e, v, t);
      BelowValues(m, s, t);
      AboveValues(m, e, t);
    }
  }

  /** The lookups of the assembled map, before the merges are accounted for. */
  lemma InsertValues<V>(l: seq<Seg<V>>, r: seq<Seg<V>>, s: int, e: int, v: V, t: int)
    requires s < e && WellFormed(l) && AllBelow(l, s) && WellFormed(r) && AllAbove(r, e)
    ensures ValueAt(InsertPieces(l, r, s, e, v), t) ==
      if s <= t < e then Some(v) else if ValueAt(l, t).Some? then ValueAt(l, t) else ValueAt(r, t)
  {
    var mid := Seg(s, e, v);
    ValueAtConcat(l, [mid] + r, t);
    ValueAtCons(mid, r, t);
    LeftMergeValues(l, r, s, e, v, t);
    RightMergeValues(l, r, s, e, v, t);
  }

  /** Absorbing the left neighbour changes no lookup. */
  lemma LeftMergeValues<V>(l: seq<Seg<V>>, r: seq<Seg<V>>, s: int, e: int, v: V, t: int)
    requires s < e && WellFormed(l) && AllBelow(l, s)
    ensures ValueAt(l + ([Seg(s, e, v)] + r), t) == ValueAt(LeftKept(l, s, v) + ([Seg(LeftStart(l, s, v), e, v)] + r), t)
  {
    if MergesLeft(l, s, v) {
      var a := LeftKept(l, s, v);
      var x := l[|l| - 1];
      assert x.lo < x.hi;
      assert l + ([Seg(s, e, v)] + r) == a + ([x] + ([Seg(s, e, v)] + r));
      MergeSameValues(a, x, Seg(s, e, v), r, t);
    }
  }

  /** Absorbing the right neighbour changes no lookup. */
  lemma RightMergeValues<V>(l: seq<Seg<V>>, r: seq<Seg<V>>, s: int, e: int, v: V, t: int)
    requires s < e && WellFormed(l) && AllBelow(l, s) && WellFormed(r) && AllAbove(r, e)
    ensures ValueAt(LeftKept(l, s, v) + ([Seg(LeftStart(l, s, v), e, v)] + r), t) == ValueAt(InsertPieces(l, r, s, e, v), t)
  {
    if MergesRight(r, e, v) {
      var a := LeftKept(l, s, v);
      var b := RightKept(r, e, v);
      var left := Seg(LeftStart(l, s, v), e, v);
      assert LeftStart(l, s, v) <= s by {
        if MergesLeft(l, s, v) {
          assert l[|l| - 1].lo < l[|l| - 1].hi;
        }
      }
      assert r[0].lo < r[0].hi;
      assert r == [r[0]] + b;
      MergeSameValues(a, left, r[0], b, t);
    }
  }

  /** Insert the ranges of `cs` one after another, in order. */
  function InsertAll<V(==)>(m: seq<Seg<V>>, cs: seq<Seg<V>>): seq<Seg<V>>
    requires forall i :: 0 <= i < |cs| ==> cs[i].lo < cs[i].hi
  {
    if cs == [] then m
    else
      var c := cs[|cs| - 1];
      Insert(InsertAll(m, cs[..|cs| - 1]), c.lo, c.hi, c.val)
  }

  /** The last range of `cs` that contains `t`: the one inserted last there. */
  function LastCovering<V>(cs: seq<Seg<V>>, t: int): (r: Option<Seg<V>>)
    ensures r.Some? ==> r.value in cs && Contains(r.value, t)
    ensures r.None? <==> forall i :: 0 <= i < |cs| ==> !Contains(cs[i], t)
  {
    if cs == [] then None
    else if Contains(cs[|cs| - 1], t) then Some(cs[|cs| - 1])
    else
      var r := LastCovering(cs[..|cs| - 1], t);
      assert forall i :: 0 <= i < |cs| - 1 ==> cs[i] == cs[..|cs| - 1][i];
      r
  }

  lemma {:induction false} LastCoveringConcat<V>(a: seq<Seg<V>>, b: seq<Seg<V>>, t: int)
    ensures LastCovering(a + b, t) == if LastCovering(b, t).Some? then LastCovering(b, t) else LastCovering(a, t)
  {
    if b != [] {
      assert (a + b)[..|a + b| - 1] == a + b[..|b| - 1];
      LastCoveringConcat(a, b[..|b| - 1], t);
    } else {
      assert a + b == a;
    }
  }

  /** The value of a covering range, if there is one, over an old value. */
  function Overlay<V>(c: Option<Seg<V>>, before: Option<V>): Option<V>
  {
    if c.Some? then Some(c.value.val) else before
  }

  /**
   * Inserting a sequence of ranges: each instant ends up with the value of
   * the last range containing it, or keeps its old value if none does.
   */
  lemma {:induction false} InsertAllSpec<V>(m: seq<Seg<V>>, cs: seq<Seg<V>>)
    requires Valid(m)
    requires forall i :: 0 <= i < |cs| ==> cs[i].lo < cs[i].hi
    ensures Valid(InsertAll(m, cs))
    ensures forall t :: ValueAt(InsertAll(m, cs), t) == Overlay(LastCovering(cs, t), ValueAt(m, t))
  {
    if cs != [] {
      var c := cs[|cs| - 1];
      var init := cs[..|cs| - 1];
      InsertAllSpec(m, init);
      InsertSpec(InsertAll(m, init), c.lo, c.hi, c.val);
    }
  }

  /**
   * The test of a later, overlapping range: `[0, 10) -> a` then
   * `[5, 15) -> b` leaves `[0, 5) -> a` and `[5, 15) -> b`.
   */
  lemma OverwriteExample<V>(a: V, b: V)
    requires a != b
    ensures Insert(Insert([], 0, 10, a), 5, 15, b) == [Seg(0, 5, a), Seg(5, 15, b)]
  {
    var m1 := Insert([], 0, 10, a);
    assert m1 == [Seg(0, 10, a)];
    assert Below(m1, 5) == [Seg(0, 5, a)] by {
      assert m1[1..] == [];
    }
    assert Above(m1, 15) == [] by {
      assert m1[1..] == [];
    }
  }

  /** A range that touches a range with the same value is merged with it. */
  lemma CoalesceExample<V>(a: V)
    ensures Insert(Insert([], 0, 10, a), 10, 15, a) == [Seg(0, 15, a)]
  {
    var m1 := Insert([], 0, 10, a);
    assert m1 == [Seg(0, 10, a)];
    assert Below(m1, 10) == [Seg(0, 10, a)] by {
      assert m1[1..] == [];
    }
    assert Above(m1, 15) == [] by {
      assert m1[1..] == [];
    }
  }

  /** A range strictly inside a stored range with another value splits it in two around itself. */
  lemma InsertInside<V>(a: V, b: V, lo: int, s: int, e: int, hi: int)
    requires a != b && lo < s < e < hi
    ensures Insert(Insert([], lo, hi, a), s, e, b) == [Seg(lo, s, a), Seg(s, e, b), Seg(e, hi, a)]
  {
    var m1 := Insert([], lo, hi, a);
    assert m1 == [Seg(lo, hi, a)];
    assert Below(m1, s) == [Seg(lo, s, a)] by {
      assert m1[1..] == [];
    }
    assert Above(m1, e) == [Seg(e, hi, a)];
  }

  /** A range overlapping the end of a stored range with another value cuts it short. */
  lemma InsertOverEnd<V>(a: V, b: V, lo: int, s: int, hi: int, e: int)
    requires a != b && lo < s < hi < e
    ensures Insert(Insert([], lo, hi, a), s, e, b) == [Seg(lo, s, a), Seg(s, e, b)]
  {
    var m1 := Insert([], lo, hi, a);
    assert m1 == [Seg(lo, hi, a)];
    assert Below(m1, s) == [Seg(lo, s, a)] by {
      assert m1[1..] == [];
    }
    assert Above(m1, e) == [] by {
      assert m1[1..] == [];
    }
  }

  /** A range overlapping the start of a stored range with another value cuts its head off. */
  lemma InsertOverStart<V>(a: V, b: V, s: int, lo: int, e: int, hi: int)
    requires a != b && s < lo < e < hi
    ensures Insert(Insert([], lo, hi, a), s, e, b) == [Seg(s, e, b), Seg(e, hi, a)]
  {
    var m1 := Insert([], lo, hi, a);
    assert m1 == [Seg(lo, hi, a)];
    assert Below(m1, s) == [];
    assert Above(m1, e) == [Seg(e, hi, a)];
  }

  /** Inserting two ranges into the empty map, first `g` then `h`. */
  lemma InsertAllTwo<V>(g: Seg<V>, h: Seg<V>)
    requires g.lo < g.hi && h.lo < h.hi
    ensures InsertAll([], [g, h]) == Insert(Insert([], g.lo, g.hi, g.val), h.lo, h.hi, h.val)
  {
    var cs := [g, h];
    assert cs[..1] == [g] && cs[..1][..0] == [];
    assert InsertAll([], cs[..1]) == Insert([], g.lo, g.hi, g.val);
  }
}
