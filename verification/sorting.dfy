/**
 * A stable sort by an integer key, as `slice::sort_by_key` performs it, and
 * what it means for "the last element that satisfies a condition".
 */
module Sorting {
  import opened Wrappers

  predicate SortedBy<T>(s: seq<T>, key: T -> int)
  {
    forall i, j :: 0 <= i < j < |s| ==> key(s[i]) <= key(s[j])
  }

  /** Inserts `x` after every element whose key is at most `key(x)`. */
  function InsertByKey<T>(s: seq<T>, x: T, key: T -> int): (r: seq<T>)
    ensures |r| == |s| + 1
  {
    if s == [] then [x]
    else if key(x) < key(s[0]) then [x] + s
    else [s[0]] + InsertByKey(s[1..], x, key)
  }

  lemma {:induction false} InsertByKeyPermutes<T>(s: seq<T>, x: T, key: T -> int)
    ensures multiset(InsertByKey(s, x, key)) == multiset(s) + multiset{x}
  {
    if s != [] && key(s[0]) <= key(x) {
      InsertByKeyPermutes(s[1..], x, key);
      assert s == [s[0]] + s[1..];
    }
  }

  /** Stable sort: each element goes after every earlier element of no greater key. */
  function SortByKey<T>(xs: seq<T>, key: T -> int): (r: seq<T>)
    ensures |r| == |xs|
  {
    if xs == [] then []
    else InsertByKey(SortByKey(xs[..|xs| - 1], key), xs[|xs| - 1], key)
  }

  /** The sort is a permutation of its input. */
  lemma {:induction false} SortByKeyPermutes<T>(xs: seq<T>, key: T -> int)
    ensures multiset(SortByKey(xs, key)) == multiset(xs)
  {
    if xs != [] {
      SortByKeyPermutes(xs[..|xs| - 1], key);
      InsertByKeyPermutes(SortByKey(xs[..|xs| - 1], key), xs[|xs| - 1], key);
      assert xs == xs[..|xs| - 1] + [xs[|xs| - 1]];
    }
  }

  lemma {:induction false} InsertByKeySorted<T>(s: seq<T>, x: T, key: T -> int)
    requires SortedBy(s, key)
    ensures SortedBy(InsertByKey(s, x, key), key)
  {
    if s != [] && key(s[0]) <= key(x) {
      InsertByKeySorted(s[1..], x, key);
      InsertByKeyPermutes(s[1..], x, key);
      var r := InsertByKey(s[1..], x, key);
      assert forall k :: 0 <= k < |r| ==> key(s[0]) <= key(r[k]) by {
        forall k | 0 <= k < |r|
          ensures key(s[0]) <= key(r[k])
        {
          assert r[k] in multiset(r);
          if r[k] != x {
            assert r[k] in multiset(s[1..]);
            var j :| 0 <= j < |s[1..]| && s[1..][j] == r[k];
            assert s[1..][j] == s[j + 1];
          }
        }
      }
      assert forall k :: 0 < k < |[s[0]] + r| ==> ([s[0]] + r)[k] == r[k - 1];
    }
  }

  /** The result of the sort is sorted by the key. */
  lemma {:induction false} SortByKeySorted<T>(xs: seq<T>, key: T -> int)
    ensures SortedBy(SortByKey(xs, key), key)
  {
    if xs != [] {
      SortByKeySorted(xs[..|xs| - 1], key);
      InsertByKeySorted(SortByKey(xs[..|xs| - 1], key), xs[|xs| - 1], key);
    }
  }

  /** The elements of `s` whose key is `k`, in order. */
  function WithKey<T>(s: seq<T>, key: T -> int, k: int): seq<T>
  {
    if s == [] then []
    else (if key(s[0]) == k then [s[0]] else []) + WithKey(s[1..], key, k)
  }

  lemma {:induction false} WithKeyAppend<T>(s: seq<T>, x: T, key: T -> int, k: int)
    ensures WithKey(s + [x], key, k) == WithKey(s, key, k) + (if key(x) == k then [x] else [])
  {
    if s == [] {
      assert [x][1..] == [];
    } else {
      assert (s + [x])[1..] == s[1..] + [x];
      WithKeyAppend(s[1..], x, key, k);
    }
  }

  lemma WithKeyCons<T>(y: T, t: seq<T>, key: T -> int, k: int)
    ensures WithKey([y] + t, key, k) == (if key(y) == k then [y] else []) + WithKey(t, key, k)
  {
    assert ([y] + t)[1..] == t;
  }

  lemma TailSorted<T>(s: seq<T>, key: T -> int)
    requires SortedBy(s, key) && s != []
    ensures SortedBy(s[1..], key)
  {
    forall i, j | 0 <= i < j < |s[1..]|
      ensures key(s[1..][i]) <= key(s[1..][j])
    {
      assert s[1..][i] == s[i + 1] && s[1..][j] == s[j + 1];
    }
  }

  /** In a sorted sequence, inserting `x` appends it to the elements of its own key. */
  lemma {:induction false} InsertByKeyWithKey<T>(s: seq<T>, x: T, key: T -> int, k: int)
    requires SortedBy(s, key)
    ensures WithKey(InsertByKey(s, x, key), key, k) == WithKey(s, key, k) + (if key(x) == k then [x] else [])
  {
    if s == [] {
      WithKeyCons(x, [], key, k);
      assert [x] + [] == [x];
    } else if key(x) < key(s[0]) {
      WithKeyCons(x, s, key, k);
      if key(x) == k {
        NoneWithKey(s, key, k);
      }
    } else {
      TailSorted(s, key);
      InsertByKeyWithKey(s[1..], x, key, k);
      WithKeyCons(s[0], InsertByKey(s[1..], x, key), key, k);
      WithKeyCons(s[0], s[1..], key, k);
      assert s == [s[0]] + s[1..];
    }
  }

  /** No element of a sequence sorted above `k` has key `k`. */
  lemma {:induction false} NoneWithKey<T>(s: seq<T>, key: T -> int, k: int)
    requires SortedBy(s, key) && s != [] && k < key(s[0])
    ensures WithKey(s, key, k) == []
  {
    WithKeyCons(s[0], s[1..], key, k);
    assert s == [s[0]] + s[1..];
    if |s| > 1 {
      TailSorted(s, key);
      assert key(s[0]) <= key(s[1]) && s[1..][0] == s[1];
      NoneWithKey(s[1..], key, k);
    } else {
      assert s[1..] == [];
    }
  }

  /**
   * Stability: for every key, the elements with that key appear in the
   * result in exactly their input order.
   */
  lemma {:induction false} SortByKeyStable<T>(xs: seq<T>, key: T -> int, k: int)
    ensures WithKey(SortByKey(xs, key), key, k) == WithKey(xs, key, k)
  {
    if xs != [] {
      var init := xs[..|xs| - 1];
      var x := xs[|xs| - 1];
      SortByKeyStable(init, key, k);
      SortByKeySorted(init, key);
      InsertByKeyWithKey(SortByKey(init, key), x, key, k);
      assert xs == init + [x];
      WithKeyAppend(init, x, key, k);
    }
  }

  lemma SortByKeyMembers<T>(xs: seq<T>, key: T -> int, x: T)
    ensures x in SortByKey(xs, key) <==> x in xs
  {
    SortByKeyPermutes(xs, key);
    assert x in SortByKey(xs, key) <==> x in multiset(SortByKey(xs, key));
    assert x in xs <==> x in multiset(xs);
  }

  /** A property holds of every sorted element exactly when it holds of every input element. */
  lemma SortByKeyAll<T>(xs: seq<T>, key: T -> int, p: T -> bool)
    ensures (forall i :: 0 <= i < |xs| ==> p(xs[i])) <==> (forall i :: 0 <= i < |SortByKey(xs, key)| ==> p(SortByKey(xs, key)[i]))
  {
    var r := SortByKey(xs, key);
    forall i | 0 <= i < |r|
      ensures exists j :: 0 <= j < |xs| && xs[j] == r[i]
    {
      SortByKeyMembers(xs, key, r[i]);
    }
    forall i | 0 <= i < |xs|
      ensures exists j :: 0 <= j < |r| && r[j] == xs[i]
    {
      SortByKeyMembers(xs, key, xs[i]);
    }
  }

  /** The index of the last element satisfying `p`. */
  function LastIndexWhere<T>(s: seq<T>, p: T -> bool): (r: Option<nat>)
    ensures r.Some? ==> r.value < |s| && p(s[r.value])
    ensures r.Some? ==> forall j :: r.value < j < |s| ==> !p(s[j])
    ensures r.None? <==> forall j :: 0 <= j < |s| ==> !p(s[j])
  {
    if s == [] then None
    else if p(s[|s| - 1]) then Some(|s| - 1)
    else
      var r := LastIndexWhere(s[..|s| - 1], p);
      assert forall j :: 0 <= j < |s| - 1 ==> s[j] == s[..|s| - 1][j];
      r
  }

  /** The last element satisfying `p`. */
  function LastWhere<T>(s: seq<T>, p: T -> bool): (r: Option<T>)
    ensures r.Some? ==> r.value in s && p(r.value)
    ensures r.None? <==> forall j :: 0 <= j < |s| ==> !p(s[j])
  {
    match LastIndexWhere(s, p)
    case None => None
    case Some(i) => Some(s[i])
  }

  /**
   * Among the elements satisfying `p`, the last one of greatest key: the
   * reference meaning of "the highest-priority element, later ones winning
   * ties".
   */
  function BestWhere<T>(xs: seq<T>, p: T -> bool, key: T -> int): (r: Option<T>)
    ensures r.Some? ==> r.value in xs && p(r.value)
    ensures r.None? <==> forall j :: 0 <= j < |xs| ==> !p(xs[j])
  {
    if xs == [] then None
    else
      var x := xs[|xs| - 1];
      var b := BestWhere(xs[..|xs| - 1], p, key);
      assert forall j :: 0 <= j < |xs| - 1 ==> xs[j] == xs[..|xs| - 1][j];
      if p(x) && (b.None? || key(b.value) <= key(x)) then Some(x) else b
  }

  /** `BestWhere` picks an element whose key is the greatest among those satisfying `p`. */
  lemma {:induction false} BestWhereIsMaximal<T>(xs: seq<T>, p: T -> bool, key: T -> int)
    requires BestWhere(xs, p, key).Some?
    ensures forall j :: 0 <= j < |xs| && p(xs[j]) ==> key(xs[j]) <= key(BestWhere(xs, p, key).value)
  {
    var init := xs[..|xs| - 1];
    var b := BestWhere(init, p, key);
    assert forall j :: 0 <= j < |init| ==> xs[j] == init[j];
    if b.Some? {
      BestWhereIsMaximal(init, p, key);
    }
  }

  /** Every element after the one `BestWhere` picks that satisfies `p` has a smaller key. */
  lemma {:induction false} BestWhereIsLast<T>(xs: seq<T>, p: T -> bool, key: T -> int)
    requires BestWhere(xs, p, key).Some?
    ensures var w := BestWhere(xs, p, key).value;
      exists i :: 0 <= i < |xs| && xs[i] == w && forall j :: i < j < |xs| && p(xs[j]) ==> key(xs[j]) < key(w)
  {
    var init := xs[..|xs| - 1];
    var x := xs[|xs| - 1];
    var b := BestWhere(init, p, key);
    var w := BestWhere(xs, p, key).value;
    if p(x) && (b.None? || key(b.value) <= key(x)) {
      var i := |xs| - 1;
      assert xs[i] == w;
    } else {
      BestWhereIsLast(init, p, key);
      var i :| 0 <= i < |init| && init[i] == w && forall j :: i < j < |init| && p(init[j]) ==> key(init[j]) < key(w);
      assert xs[i] == w;
      assert p(x) ==> key(x) < key(w);
      assert forall j :: i < j < |xs| && p(xs[j]) ==> key(xs[j]) < key(w) by {
        forall j | i < j < |xs| && p(xs[j])
          ensures key(xs[j]) < key(w)
        {
          if j < |init| {
            assert xs[j] == init[j];
          }
        }
      }
    }
  }

  lemma {:induction false} LastIndexWhereCons<T>(x: T, s: seq<T>, p: T -> bool)
    ensures var li := LastIndexWhere(s, p);
      LastIndexWhere([x] + s, p) == if li.Some? then Some(li.value + 1) else if p(x) then Some(0) else None
  {
    var r := [x] + s;
    if s == [] {
      assert r == [x];
      assert r[..0] == [];
    } else {
      assert r[|r| - 1] == s[|s| - 1];
      assert r[..|r| - 1] == [x] + s[..|s| - 1];
      LastIndexWhereCons(x, s[..|s| - 1], p);
    }
  }

  lemma LastWhereCons<T>(x: T, s: seq<T>, p: T -> bool)
    ensures LastWhere([x] + s, p) == if LastWhere(s, p).Some? then LastWhere(s, p) else if p(x) then Some(x) else None
  {
    LastIndexWhereCons(x, s, p);
    var li := LastIndexWhere(s, p);
    if li.Some? {
      assert ([x] + s)[li.value + 1] == s[li.value];
    }
  }

  /**
   * Inserting into a sorted sequence: the last element satisfying `p` is
   * `x` when `x` satisfies `p` and no such element has a greater key,
   * otherwise it is unchanged.
   */
  lemma {:induction false} InsertByKeyLastWhere<T>(s: seq<T>, x: T, p: T -> bool, key: T -> int)
    requires SortedBy(s, key)
    ensures var b := LastWhere(s, p);
      LastWhere(InsertByKey(s, x, key), p) == if p(x) && (b.None? || key(b.value) <= key(x)) then Some(x) else b
  {
    var b := LastWhere(s, p);
    if s == [] {
      LastWhereCons(x, [], p);
      assert [x] + [] == [x];
    } else if key(x) < key(s[0]) {
      LastWhereCons(x, s, p);
      if b.Some? {
        var j :| 0 <= j < |s| && s[j] == b.value;
        assert key(s[0]) <= key(s[j]);
      }
    } else {
      var rest := s[1..];
      TailSorted(s, key);
      InsertByKeyLastWhere(rest, x, p, key);
      LastWhereCons(s[0], InsertByKey(rest, x, key), p);
      LastWhereCons(s[0], rest, p);
      assert s == [s[0]] + rest;
      var b1 := LastWhere(rest, p);
      if b1.None? && b.Some? {
        assert b.value == s[0];
      }
    }
  }

  /**
   * After a stable sort, the last element satisfying `p` is the last
   * element of greatest key satisfying `p` in the input.
   */
  lemma {:induction false} SortedLastIsBest<T>(xs: seq<T>, p: T -> bool, key: T -> int)
    ensures LastWhere(SortByKey(xs, key), p) == BestWhere(xs, p, key)
  {
    if xs != [] {
      var init := xs[..|xs| - 1];
      SortedLastIsBest(init, p, key);
      SortByKeySorted(init, key);
      InsertByKeyLastWhere(SortByKey(init, key), xs[|xs| - 1], p, key);
    }
  }
}
