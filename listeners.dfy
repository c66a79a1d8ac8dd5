/**
  The ordered listener list of Tempo. addListener appends (a listener added
  twice is held twice, and notified in insertion order); removeListener
  deletes the first occurrence only, as ArrayList.remove(Object) does.
 */
module Listeners {

  /** Position of the first occurrence of `x` in `s`, or -1 when `x` is absent. */
  function IndexOf<L(==)>(s: seq<L>, x: L): (i: int)
    ensures -1 <= i < |s|
    ensures i == -1 <==> x !in s
    ensures 0 <= i ==> s[i] == x && x !in s[..i]
  {
    if s == [] then -1
    else if s[0] == x then 0
    else
      var j := IndexOf(s[1..], x);
      assert s[1..][..j + 1] == s[..j + 2][1..];
      if j < 0 then -1 else j + 1
  }

  /** The list after addListener(x). */
  function Added<L>(s: seq<L>, x: L): (r: seq<L>)
    ensures |r| == |s| + 1 && r[..|s|] == s && r[|s|] == x
  {
    s + [x]
  }

  /** The list after removeListener(x): the first `x` is dropped, everything else keeps its order. */
  function RemoveFirst<L(==)>(s: seq<L>, x: L): (r: seq<L>)
    ensures x !in s ==> r == s
    ensures x in s ==> |r| == |s| - 1
    ensures x in s ==> exists i :: 0 <= i < |s| && s[i] == x && x !in s[..i] && r == s[..i] + s[i + 1..]
    ensures multiset(r) == multiset(s) - multiset{x}
  {
    var i := IndexOf(s, x);
    if i < 0 then s
    else
      assert s == s[..i] + [x] + s[i + 1..];
      s[..i] + s[i + 1..]
  }

  /** The first occurrence is the only position holding `x` with no `x` before it. */
  lemma FirstIndexUnique<L>(s: seq<L>, x: L, i: int)
    requires 0 <= i < |s| && s[i] == x && x !in s[..i]
    ensures IndexOf(s, x) == i
  {
  }

  /** Removing a listener that was just added, and not held before, restores the list. */
  lemma RemoveUndoesAdd<L>(s: seq<L>, x: L)
    requires x !in s
    ensures RemoveFirst(Added(s, x), x) == s
  {
    assert Added(s, x)[..|s|] == s;
  }

  /** Removing a listener added twice leaves the later copy in place. */
  lemma RemoveKeepsLaterCopy<L>(s: seq<L>, x: L)
    requires x in s
    ensures x in RemoveFirst(Added(s, x), x)
    ensures RemoveFirst(Added(s, x), x) == Added(RemoveFirst(s, x), x)
  {
    var i := IndexOf(s, x);
    var a := Added(s, x);
    assert a[..i] == s[..i];
    FirstIndexUnique(a, x, i);
    assert a[i + 1..] == s[i + 1..] + [x];
    var r := RemoveFirst(a, x);
    assert r == a[..i] + a[i + 1..];
    assert RemoveFirst(s, x) == s[..i] + s[i + 1..];
    assert r == (s[..i] + s[i + 1..]) + [x];
    assert r[|r| - 1] == x;
  }
}
