/**
 * The two loop shapes of the normaliser and the extractor, as functions over
 * sequences: a loop that appends one row per element (`MapAll`) and a loop
 * that appends a list of rows per element (`FlatMapAll`). Either stops at
 * the first element whose row cannot be built, with that element's error.
 * Both are defined from the last element backwards, so that a loop's state
 * after `i` steps is the function applied to the prefix of length `i`.
 */
module Traverse {
  import opened Wrappers

  function MapAll<A, B, E>(xs: seq<A>, f: A -> Result<B, E>): Result<seq<B>, E>
    decreases |xs|
  {
    if xs == [] then Ok([])
    else
      match MapAll(xs[..|xs| - 1], f)
      case Err(e) => Err(e)
      case Ok(rs) =>
        match f(xs[|xs| - 1])
        case Err(e) => Err(e)
        case Ok(r) => Ok(rs + [r])
  }

  function FlatMapAll<A, B, E>(xs: seq<A>, f: A -> Result<seq<B>, E>): Result<seq<B>, E>
    decreases |xs|
  {
    if xs == [] then Ok([])
    else
      match FlatMapAll(xs[..|xs| - 1], f)
      case Err(e) => Err(e)
      case Ok(rs) =>
        match f(xs[|xs| - 1])
        case Err(e) => Err(e)
        case Ok(r) => Ok(rs + r)
  }

  /** The concatenation of a sequence of sequences, in order. */
  function Flatten<B>(ss: seq<seq<B>>): seq<B>
    decreases |ss|
  {
    if ss == [] then [] else Flatten(ss[..|ss| - 1]) + ss[|ss| - 1]
  }

  /** The sum of the lengths of a sequence of sequences. */
  function SumLengths<B>(ss: seq<seq<B>>): nat
    decreases |ss|
  {
    if ss == [] then 0 else SumLengths(ss[..|ss| - 1]) + |ss[|ss| - 1]|
  }

  /** The lists `f` produces for each element, with an empty list where it fails. */
  function Parts<A, B, E>(xs: seq<A>, f: A -> Result<seq<B>, E>): (ps: seq<seq<B>>)
    ensures |ps| == |xs|
  {
    seq(|xs|, i requires 0 <= i < |xs| => if f(xs[i]).Ok? then f(xs[i]).value else [])
  }

  /** One row per element, in order, or else some element was rejected. */
  lemma {:induction false} MapAllOk<A, B, E>(xs: seq<A>, f: A -> Result<B, E>)
    ensures MapAll(xs, f).Ok? <==> forall i :: 0 <= i < |xs| ==> f(xs[i]).Ok?
    ensures MapAll(xs, f).Ok? ==>
      |MapAll(xs, f).value| == |xs| &&
      forall i :: 0 <= i < |xs| ==> f(xs[i]).Ok? && MapAll(xs, f).value[i] == f(xs[i]).value
    decreases |xs|
  {
    if xs != [] {
      var init := xs[..|xs| - 1];
      MapAllOk(init, f);
      assert forall i :: 0 <= i < |init| ==> init[i] == xs[i];
    }
  }

  /** A failure is the error of the first element `f` rejects. */
  lemma {:induction false} MapAllErr<A, B, E>(xs: seq<A>, f: A -> Result<B, E>)
    requires MapAll(xs, f).Err?
    ensures exists k ::
      && 0 <= k < |xs|
      && f(xs[k]) == Err(MapAll(xs, f).error)
      && forall j :: 0 <= j < k ==> f(xs[j]).Ok?
    decreases |xs|
  {
    var init := xs[..|xs| - 1];
    assert forall i :: 0 <= i < |init| ==> init[i] == xs[i];
    if MapAll(init, f).Err? {
      MapAllErr(init, f);
      var k :| 0 <= k < |init| && f(init[k]) == Err(MapAll(init, f).error) &&
        forall j :: 0 <= j < k ==> f(init[j]).Ok?;
      assert f(xs[k]) == Err(MapAll(xs, f).error);
    } else {
      MapAllOk(init, f);
      assert f(xs[|xs| - 1]) == Err(MapAll(xs, f).error);
    }
  }

  lemma {:induction false} FlattenSnoc<B>(ss: seq<seq<B>>, s: seq<B>)
    ensures Flatten(ss + [s]) == Flatten(ss) + s
    ensures SumLengths(ss + [s]) == SumLengths(ss) + |s|
  {
    assert (ss + [s])[..|ss|] == ss;
  }

  /** The length of a concatenation is the sum of the lengths. */
  lemma {:induction false} FlattenLength<B>(ss: seq<seq<B>>)
    ensures |Flatten(ss)| == SumLengths(ss)
    decreases |ss|
  {
    if ss != [] {
      FlattenLength(ss[..|ss| - 1]);
    }
  }

  /**
   * The lists of all elements concatenated in element order, or else some
   * element was rejected.
   */
  lemma {:induction false} FlatMapAllOk<A, B, E>(xs: seq<A>, f: A -> Result<seq<B>, E>)
    ensures FlatMapAll(xs, f).Ok? <==> forall i :: 0 <= i < |xs| ==> f(xs[i]).Ok?
    ensures FlatMapAll(xs, f).Ok? ==>
      FlatMapAll(xs, f).value == Flatten(Parts(xs, f)) &&
      |FlatMapAll(xs, f).value| == SumLengths(Parts(xs, f))
    decreases |xs|
  {
    if xs != [] {
      var init := xs[..|xs| - 1];
      FlatMapAllOk(init, f);
      assert forall i :: 0 <= i < |init| ==> init[i] == xs[i];
      assert Parts(xs, f) == Parts(init, f) + [Parts(xs, f)[|xs| - 1]];
      FlattenSnoc(Parts(init, f), Parts(xs, f)[|xs| - 1]);
    }
    FlattenLength(Parts(xs, f));
  }

  /** A failure is the error of the first element `f` rejects. */
  lemma {:induction false} FlatMapAllErr<A, B, E>(xs: seq<A>, f: A -> Result<seq<B>, E>)
    requires FlatMapAll(xs, f).Err?
    ensures exists k ::
      && 0 <= k < |xs|
      && f(xs[k]) == Err(FlatMapAll(xs, f).error)
      && forall j :: 0 <= j < k ==> f(xs[j]).Ok?
    decreases |xs|
  {
    var init := xs[..|xs| - 1];
    assert forall i :: 0 <= i < |init| ==> init[i] == xs[i];
    if FlatMapAll(init, f).Err? {
      FlatMapAllErr(init, f);
      var k :| 0 <= k < |init| && f(init[k]) == Err(FlatMapAll(init, f).error) &&
        forall j :: 0 <= j < k ==> f(init[j]).Ok?;
      assert f(xs[k]) == Err(FlatMapAll(xs, f).error);
    } else {
      FlatMapAllOk(init, f);
      assert f(xs[|xs| - 1]) == Err(FlatMapAll(xs, f).error);
    }
  }

  /** Once a prefix fails, the whole traversal fails with the same error. */
  lemma {:induction false} MapAllStops<A, B, E>(xs: seq<A>, f: A -> Result<B, E>, k: nat)
    requires k <= |xs| && MapAll(xs[..k], f).Err?
    ensures MapAll(xs, f) == MapAll(xs[..k], f)
    decreases |xs|
  {
    if k < |xs| {
      var init := xs[..|xs| - 1];
      assert init[..k] == xs[..k];
      MapAllStops(init, f, k);
    } else {
      assert xs[..k] == xs;
    }
  }

  lemma {:induction false} FlatMapAllStops<A, B, E>(xs: seq<A>, f: A -> Result<seq<B>, E>, k: nat)
    requires k <= |xs| && FlatMapAll(xs[..k], f).Err?
    ensures FlatMapAll(xs, f) == FlatMapAll(xs[..k], f)
    decreases |xs|
  {
    if k < |xs| {
      var init := xs[..|xs| - 1];
      assert init[..k] == xs[..k];
      FlatMapAllStops(init, f, k);
    } else {
      assert xs[..k] == xs;
    }
  }

  /** Every element of a concatenation comes from one of its parts. */
  lemma {:induction false} FlattenMember<B>(ss: seq<seq<B>>, y: B)
    requires y in Flatten(ss)
    ensures exists i :: 0 <= i < |ss| && y in ss[i]
    decreases |ss|
  {
    var init := ss[..|ss| - 1];
    if y in Flatten(init) {
      FlattenMember(init, y);
      var i :| 0 <= i < |init| && y in init[i];
      assert ss[i] == init[i];
    } else {
      assert y in ss[|ss| - 1];
    }
  }
}
