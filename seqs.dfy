/**
 * The three loop shapes the scanner uses over lines and entries: keep-and-convert
 * (append inside an `if`), first match (return inside a loop) and last match
 * (overwrite inside a loop).
 */
module Seqs {
  import opened Wrappers

  /** The `Some` results of `f` over `s`, in order (a filtering loop that appends). */
  function FilterMap<A, B>(s: seq<A>, f: A -> Option<B>): (r: seq<B>)
    ensures |r| <= |s|
    decreases |s|
  {
    if |s| == 0 then []
    else
      FilterMap(s[..|s| - 1], f)
      + (match f(s[|s| - 1]) case Some(b) => [b] case None => [])
  }

  /** The positions of `s` at which `f` gives a value, in increasing order. */
  function SomeIndices<A, B>(s: seq<A>, f: A -> Option<B>): (k: seq<nat>)
    decreases |s|
  {
    if |s| == 0 then []
    else SomeIndices(s[..|s| - 1], f) + (if f(s[|s| - 1]).Some? then [|s| - 1] else [])
  }

  /**
   * FilterMap keeps exactly the elements on which `f` gives a value, converted,
   * and keeps them in their input order.
   */
  lemma {:induction false} FilterMapIndices<A, B>(s: seq<A>, f: A -> Option<B>)
    ensures |FilterMap(s, f)| == |SomeIndices(s, f)|
    ensures forall j :: 0 <= j < |SomeIndices(s, f)| ==>
      SomeIndices(s, f)[j] < |s| && f(s[SomeIndices(s, f)[j]]) == Some(FilterMap(s, f)[j])
    ensures forall j, j' :: 0 <= j < j' < |SomeIndices(s, f)| ==> SomeIndices(s, f)[j] < SomeIndices(s, f)[j']
    ensures forall i :: 0 <= i < |s| ==> (f(s[i]).Some? <==> i in SomeIndices(s, f))
    decreases |s|
  {
    if |s| > 0 {
      var init := s[..|s| - 1];
      FilterMapIndices(init, f);
      var r0, k0 := FilterMap(init, f), SomeIndices(init, f);
      var r, k := FilterMap(s, f), SomeIndices(s, f);
      assert r[..|r0|] == r0 && k[..|k0|] == k0;
      forall j | 0 <= j < |k|
        ensures k[j] < |s| && f(s[k[j]]) == Some(r[j])
      {
        if j < |k0| {
          assert k[j] == k0[j] && r[j] == r0[j] && init[k0[j]] == s[k0[j]];
        }
      }
      forall i | 0 <= i < |s|
        ensures f(s[i]).Some? <==> i in k
      {
        if i < |s| - 1 {
          assert init[i] == s[i];
          assert i in k <==> i in k0;
        }
      }
    }
  }

  /** Appending one element extends the kept values by that element's value, if any. */
  lemma FilterMapSnoc<A, B>(s: seq<A>, x: A, f: A -> Option<B>)
    ensures FilterMap(s + [x], f)
         == FilterMap(s, f) + (match f(x) case Some(b) => [b] case None => [])
  {
    assert (s + [x])[..|s|] == s;
  }

  /** One more step of a filtering loop over `s`: the prefix grows by the value at `i`, if any. */
  lemma FilterMapPrefixStep<A, B>(s: seq<A>, i: nat, f: A -> Option<B>)
    requires i < |s|
    ensures FilterMap(s[..i + 1], f) == FilterMap(s[..i], f) + (if f(s[i]).Some? then [f(s[i]).value] else [])
  {
    assert s[..i + 1][..i] == s[..i];
  }

  /** The position of the first element on which `f` gives a value, or -1 (a loop that returns). */
  function FirstIndex<A, B>(s: seq<A>, f: A -> Option<B>): (k: int)
    ensures -1 <= k < |s|
    ensures k >= 0 ==> f(s[k]).Some?
    ensures forall i :: 0 <= i < |s| && (k < 0 || i < k) ==> f(s[i]).None?
    decreases |s|
  {
    if |s| == 0 then -1
    else if f(s[0]).Some? then 0
    else
      var k := FirstIndex(s[1..], f);
      assert forall i :: 1 <= i < |s| ==> s[i] == s[1..][i - 1];
      if k < 0 then -1 else k + 1
  }

  function FirstSome<A, B>(s: seq<A>, f: A -> Option<B>): Option<B> {
    var k := FirstIndex(s, f);
    if k < 0 then None else f(s[k])
  }

  /** A match at the front is the first match; otherwise the search goes on in the rest. */
  lemma FirstSomeCons<A, B>(x: A, s: seq<A>, f: A -> Option<B>)
    ensures FirstSome([x] + s, f) == if f(x).Some? then f(x) else FirstSome(s, f)
  {
    assert ([x] + s)[1..] == s;
  }

  /** The position of the last element on which `f` gives a value, or -1 (a loop that overwrites). */
  function LastIndex<A, B>(s: seq<A>, f: A -> Option<B>): (k: int)
    ensures -1 <= k < |s|
    ensures k >= 0 ==> f(s[k]).Some?
    ensures forall i :: k < i < |s| ==> f(s[i]).None?
    decreases |s|
  {
    if |s| == 0 then -1
    else if f(s[|s| - 1]).Some? then |s| - 1
    else LastIndex(s[..|s| - 1], f)
  }

  function LastSome<A, B>(s: seq<A>, f: A -> Option<B>): Option<B> {
    var k := LastIndex(s, f);
    if k < 0 then None else f(s[k])
  }

  /** One more element either becomes the last match or leaves it as it was. */
  lemma LastSomeSnoc<A, B>(s: seq<A>, x: A, f: A -> Option<B>)
    ensures LastSome(s + [x], f) == if f(x).Some? then f(x) else LastSome(s, f)
  {
    assert (s + [x])[..|s|] == s;
  }

  function Flatten<T>(ss: seq<seq<T>>): seq<T>
    decreases |ss|
  {
    if |ss| == 0 then [] else Flatten(ss[..|ss| - 1]) + ss[|ss| - 1]
  }

  lemma FlattenSnoc<T>(ss: seq<seq<T>>, s: seq<T>)
    ensures Flatten(ss + [s]) == Flatten(ss) + s
  {
    assert (ss + [s])[..|ss|] == ss;
  }

  /** Flattening distributes over concatenation. */
  lemma {:induction false} FlattenAppend<T>(a: seq<seq<T>>, b: seq<seq<T>>)
    ensures Flatten(a + b) == Flatten(a) + Flatten(b)
    decreases |b|
  {
    if |b| == 0 {
      assert a + b == a;
    } else {
      var b', last := b[..|b| - 1], b[|b| - 1];
      assert a + b == (a + b') + [last];
      assert b == b' + [last];
      calc {
        Flatten(a + b);
        Flatten((a + b') + [last]);
        { FlattenSnoc(a + b', last); }
        Flatten(a + b') + last;
        { FlattenAppend(a, b'); }
        (Flatten(a) + Flatten(b')) + last;
        Flatten(a) + (Flatten(b') + last);
        { FlattenSnoc(b', last); }
        Flatten(a) + Flatten(b' + [last]);
      }
    }
  }

  /** Every element of a flattening comes from one of the pieces. */
  lemma {:induction false} FlattenMember<T>(ss: seq<seq<T>>, x: T)
    requires x in Flatten(ss)
    ensures exists i :: 0 <= i < |ss| && x in ss[i]
    decreases |ss|
  {
    var init := ss[..|ss| - 1];
    if x in Flatten(init) {
      FlattenMember(init, x);
      var i :| 0 <= i < |init| && x in init[i];
      assert ss[i] == init[i];
    } else {
      assert x in ss[|ss| - 1];
    }
  }

  /** An empty piece contributes nothing: flattening around it joins the pieces before and after. */
  lemma FlattenWithout<T>(ss: seq<seq<T>>, i: nat)
    requires i < |ss| && ss[i] == []
    ensures Flatten(ss) == Flatten(ss[..i]) + Flatten(ss[i + 1..])
  {
    var none: seq<seq<T>> := [[]];
    var before, after := ss[..i], ss[i + 1..];
    assert Flatten(none) == [] by {
      assert none[..0] == [];
    }
    assert ss == before + (none + after);
    calc {
      Flatten(ss);
      Flatten(before + (none + after));
      { FlattenAppend(before, none + after); }
      Flatten(before) + Flatten(none + after);
      { FlattenAppend(none, after); }
      Flatten(before) + (Flatten(none) + Flatten(after));
      Flatten(before) + Flatten(after);
    }
  }
}
