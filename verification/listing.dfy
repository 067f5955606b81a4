/**
 * The iterator pipeline behind every in-memory `retrieve_all`:
 * `filter_map(matches)`, then `skip`, then `take`, then collecting the
 * `Result`s, which stops at the first error.
 */
module Listing {
  import opened Wrappers

  /**
   * `filter_map` over `matches`: a match is kept as `Ok`, a non-match is
   * dropped, and a failed match is kept as its error, all in input order.
   */
  function FilterMatches<T(==), E(==)>(xs: seq<T>, m: T -> Result<bool, E>): (rs: seq<Result<T, E>>)
    ensures |rs| <= |xs|
    ensures forall i :: 0 <= i < |rs| && rs[i].Ok? ==> rs[i].value in xs && m(rs[i].value) == Ok(true)
    ensures forall i :: 0 <= i < |rs| && rs[i].Err? ==> exists x :: x in xs && m(x) == Err(rs[i].error)
  {
    if xs == [] then []
    else
      var rest := FilterMatches(xs[1..], m);
      assert forall x :: x in xs[1..] ==> x in xs;
      match m(xs[0])
      case Ok(true) => [Ok(xs[0])] + rest
      case Ok(false) => rest
      case Err(e) => [Err(e)] + rest
  }

  /** The elements `matches` accepts, in input order: the reference for an error-free listing. */
  function Selected<T(==), E(==)>(xs: seq<T>, m: T -> Result<bool, E>): (ys: seq<T>)
    ensures |ys| <= |xs|
  {
    if xs == [] then []
    else if m(xs[0]) == Ok(true) then [xs[0]] + Selected(xs[1..], m)
    else Selected(xs[1..], m)
  }

  /** Without failed matches, `filter_map` yields exactly the selected elements, each as `Ok`. */
  lemma {:induction false} FilterMatchesWithoutErrors<T, E>(xs: seq<T>, m: T -> Result<bool, E>)
    requires forall i :: 0 <= i < |xs| ==> m(xs[i]).Ok?
    ensures var rs := FilterMatches(xs, m);
      |rs| == |Selected(xs, m)| && forall i :: 0 <= i < |rs| ==> rs[i] == Ok(Selected(xs, m)[i])
    decreases |xs|
  {
    if xs != [] {
      assert forall i :: 0 <= i < |xs[1..]| ==> xs[1..][i] == xs[i + 1];
      FilterMatchesWithoutErrors(xs[1..], m);
      assert m(xs[0]).Ok?;
    }
  }

  function Min(a: int, b: int): int
  {
    if a <= b then a else b
  }

  /** `skip(skip).take(limit)`: the elements at positions `skip .. skip + limit` that exist. */
  function Window<T>(xs: seq<T>, skip: nat, limit: nat): (ys: seq<T>)
    ensures |ys| <= limit
    ensures |ys| == (if skip >= |xs| then 0 else Min(limit, |xs| - skip))
    ensures forall i :: 0 <= i < |ys| ==> ys[i] == xs[skip + i]
  {
    if skip >= |xs| then [] else xs[skip..Min(skip + limit, |xs|)]
  }

  /**
   * `collect::<Result<Vec<_>, _>>`: every value when there is no error,
   * otherwise the first error.
   */
  function Collect<T(==), E(==)>(rs: seq<Result<T, E>>): (r: Result<seq<T>, E>)
    ensures r.Ok? <==> forall i :: 0 <= i < |rs| ==> rs[i].Ok?
    ensures r.Ok? ==> |r.value| == |rs| && forall i :: 0 <= i < |rs| ==> rs[i] == Ok(r.value[i])
    ensures r.Err? ==> exists i :: 0 <= i < |rs| && rs[i] == Err(r.error) && forall j :: 0 <= j < i ==> rs[j].Ok?
  {
    if rs == [] then Ok([])
    else
      match rs[0]
      case Err(e) => Err(e)
      case Ok(x) =>
        var rest := Collect(rs[1..]);
        assert forall i :: 1 <= i < |rs| ==> rs[1..][i - 1] == rs[i];
        match rest
        case Err(e) =>
          var k :| 0 <= k < |rs[1..]| && rs[1..][k] == Err(e) && forall j :: 0 <= j < k ==> rs[1..][j].Ok?;
          assert rs[k + 1] == Err(e);
          Err(e)
        case Ok(ys) => Ok([x] + ys)
  }

  /** Some error sits at a position `skip .. skip + limit`. */
  predicate ErrorInWindow<T, E>(rs: seq<Result<T, E>>, skip: nat, limit: nat)
  {
    exists i :: skip <= i < skip + limit && i < |rs| && rs[i].Err?
  }

  /** Collecting values that are all `Ok` gives them back. */
  lemma CollectOks<T, E>(rs: seq<Result<T, E>>, vs: seq<T>)
    requires |rs| == |vs| && forall i :: 0 <= i < |rs| ==> rs[i] == Ok(vs[i])
    ensures Collect(rs) == Ok(vs)
  {
    var r := Collect(rs);
    assert |r.value| == |vs|;
    assert forall i :: 0 <= i < |vs| ==> r.value[i] == vs[i];
    assert r.value == vs;
  }

  /** Collecting a window fails exactly when an error sits inside it, and then with one of its errors. */
  lemma CollectWindow<T, E>(rs: seq<Result<T, E>>, skip: nat, limit: nat)
    ensures var r := Collect(Window(rs, skip, limit));
      && (r.Err? <==> ErrorInWindow(rs, skip, limit))
      && (r.Err? ==> exists i :: 0 <= i < |rs| && rs[i] == Err(r.error))
  {
    var w := Window(rs, skip, limit);
    var r := Collect(w);
    if r.Err? {
      var i :| 0 <= i < |w| && w[i] == Err(r.error) && forall j :: 0 <= j < i ==> w[j].Ok?;
      assert rs[skip + i] == w[i];
    } else {
      forall i | skip <= i < skip + limit && i < |rs|
        ensures rs[i].Ok?
      {
        assert w[i - skip] == rs[i];
      }
    }
  }

  /**
   * The whole pipeline. A failed match fails the call only when it lands
   * inside the window; one among the skipped positions is discarded.
   */
  function ListWindow<T(==), E(==)>(xs: seq<T>, m: T -> Result<bool, E>, skip: nat, limit: nat): (r: Result<seq<T>, E>)
    ensures r.Ok? ==> |r.value| <= limit
    ensures r.Ok? ==> forall i :: 0 <= i < |r.value| ==> r.value[i] in xs && m(r.value[i]) == Ok(true)
    ensures r.Err? <==> ErrorInWindow(FilterMatches(xs, m), skip, limit)
    ensures r.Err? ==> exists x :: x in xs && m(x) == Err(r.error)
  {
    var fm := FilterMatches(xs, m);
    CollectWindow(fm, skip, limit);
    Collect(Window(fm, skip, limit))
  }

  /** Without failed matches the listing is the window of the selected elements. */
  lemma ListWindowWithoutErrors<T, E>(xs: seq<T>, m: T -> Result<bool, E>, skip: nat, limit: nat)
    requires forall i :: 0 <= i < |xs| ==> m(xs[i]).Ok?
    ensures ListWindow(xs, m, skip, limit) == Ok(Window(Selected(xs, m), skip, limit))
  {
    var fm := FilterMatches(xs, m);
    var sel := Selected(xs, m);
    FilterMatchesWithoutErrors(xs, m);
    var w := Window(fm, skip, limit);
    var v := Window(sel, skip, limit);
    assert |w| == |v|;
    forall i | 0 <= i < |w|
      ensures w[i] == Ok(v[i])
    {
      assert w[i] == fm[skip + i];
    }
    CollectOks(w, v);
  }
}
