/** Sequence helpers shared by the service: concatenation of a list of lists and
    the insertion-ordered de-duplication that a JavaScript `Set` or `Map`
    performs when values are added in order. */
module Sequences {

  /** No value occurs twice. */
  predicate Distinct<T(==)>(s: seq<T>)
  {
    forall i, j :: 0 <= i < j < |s| ==> s[i] != s[j]
  }

  /** `[].concat(...ss)`: the lists one after the other. */
  function Concat<T>(ss: seq<seq<T>>): (r: seq<T>)
  {
    if ss == [] then [] else ss[0] + Concat(ss[1..])
  }

  /** Adding `x` to an insertion-ordered set: a value already present is not
      added again and keeps its place. */
  function SetAdd<T(==)>(s: seq<T>, x: T): (r: seq<T>)
  {
    if x in s then s else s + [x]
  }

  /** The values of `s` in the order they were first added to a JavaScript Set:
      `Array.from(new Set(s))`. */
  function Dedup<T(==,!new)>(s: seq<T>): (r: seq<T>)
    ensures forall x :: x in r <==> x in s
    ensures Distinct(r)
  {
    if s == [] then []
    else
      var p := s[..|s| - 1];
      assert s == p + [s[|s| - 1]];
      SetAdd(Dedup(p), s[|s| - 1])
  }

  /** Appending one value to the input adds it to the de-duplicated view exactly
      when it is new. */
  lemma DedupSnoc<T(!new)>(s: seq<T>, x: T)
    ensures Dedup(s + [x]) == SetAdd(Dedup(s), x)
  {
    assert (s + [x])[..|s|] == s;
  }

  /** The position of the first occurrence of `x` in `s`. */
  function FirstIndex<T(==)>(s: seq<T>, x: T): (k: nat)
    requires x in s
    ensures k < |s| && s[k] == x && x !in s[..k]
  {
    if s[0] == x then 0
    else
      var k := 1 + FirstIndex(s[1..], x);
      assert s[..k] == [s[0]] + s[1..][..k - 1];
      k
  }

  /** The first occurrence is the only position holding `x` with no earlier `x`. */
  lemma {:induction false} FirstIndexUnique<T>(s: seq<T>, x: T, k: nat)
    requires k < |s| && s[k] == x && x !in s[..k]
    ensures FirstIndex(s, x) == k
  {
    if k > 0 {
      assert s[..k][0] == s[0];
      assert s[1..][..k - 1] == s[..k][1..];
      FirstIndexUnique(s[1..], x, k - 1);
    }
  }

  /** Appending to a sequence does not move the first occurrence of a value that
      was already there. */
  lemma FirstIndexSnoc<T>(s: seq<T>, y: T, x: T)
    requires x in s
    ensures FirstIndex(s + [y], x) == FirstIndex(s, x)
  {
    var k := FirstIndex(s, x);
    assert (s + [y])[..k] == s[..k];
    FirstIndexUnique(s + [y], x, k);
  }

  /** De-duplication keeps values in the order of their first occurrence: an
      earlier entry of `Dedup(s)` was first seen earlier in `s`. */
  lemma {:induction false} DedupKeepsFirstSeenOrder<T(!new)>(s: seq<T>, i: nat, j: nat)
    requires i < j < |Dedup(s)|
    ensures FirstIndex(s, Dedup(s)[i]) < FirstIndex(s, Dedup(s)[j])
    decreases |s|
  {
    var p, y := s[..|s| - 1], s[|s| - 1];
    assert s == p + [y];
    DedupSnoc(p, y);
    var d := Dedup(p);
    assert d[i] in p;
    FirstIndexSnoc(p, y, d[i]);
    if j < |d| {
      FirstIndexSnoc(p, y, d[j]);
      DedupKeepsFirstSeenOrder(p, i, j);
    } else {
      assert Dedup(s)[j] == y && y !in p;
      assert s[..|s| - 1] == p;
    }
  }
}
