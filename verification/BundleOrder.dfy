/** The order in which simulated bundles are tried: a stable sort by descending value. */
module BundleOrder {
  import opened Simulation

  predicate Descending(s: seq<SimulatedBundle>) {
    forall i, j :: 0 <= i < j < |s| ==> s[i].Value() >= s[j].Value()
  }

  /** Puts `x` behind everything of at least its value, looking from the right. */
  function Insert(s: seq<SimulatedBundle>, x: SimulatedBundle): (r: seq<SimulatedBundle>)
    ensures |r| == |s| + 1
    decreases |s|
  {
    if |s| == 0 || s[|s| - 1].Value() >= x.Value() then s + [x]
    else Insert(s[..|s| - 1], x) + [s[|s| - 1]]
  }

  function SortByMaxValue(s: seq<SimulatedBundle>): (r: seq<SimulatedBundle>)
    ensures |r| == |s|
    decreases |s|
  {
    if |s| == 0 then s else Insert(SortByMaxValue(s[..|s| - 1]), s[|s| - 1])
  }

  /** The bundles of exactly this value, in their order. */
  function OfValue(s: seq<SimulatedBundle>, v: nat): seq<SimulatedBundle>
    decreases |s|
  {
    if |s| == 0 then s
    else OfValue(s[..|s| - 1], v) + (if s[|s| - 1].Value() == v then [s[|s| - 1]] else [])
  }

  lemma OfValueAppend(s: seq<SimulatedBundle>, x: SimulatedBundle, v: nat)
    ensures OfValue(s + [x], v) == OfValue(s, v) + (if x.Value() == v then [x] else [])
  {
    assert (s + [x])[..|s + [x]| - 1] == s;
  }

  lemma {:induction false} InsertPermutes(s: seq<SimulatedBundle>, x: SimulatedBundle)
    ensures multiset(Insert(s, x)) == multiset(s) + multiset{x}
    decreases |s|
  {
    if |s| > 0 && s[|s| - 1].Value() < x.Value() {
      InsertPermutes(s[..|s| - 1], x);
      assert s == s[..|s| - 1] + [s[|s| - 1]];
    }
  }

  predicate AllAtLeast(s: seq<SimulatedBundle>, v: nat) {
    forall i :: 0 <= i < |s| ==> s[i].Value() >= v
  }

  lemma {:induction false} InsertAtLeast(s: seq<SimulatedBundle>, x: SimulatedBundle, v: nat)
    requires AllAtLeast(s, v) && x.Value() >= v
    ensures AllAtLeast(Insert(s, x), v)
    decreases |s|
  {
    if |s| > 0 && s[|s| - 1].Value() < x.Value() {
      InsertAtLeast(s[..|s| - 1], x, v);
    }
  }

  lemma {:induction false} InsertDescends(s: seq<SimulatedBundle>, x: SimulatedBundle)
    requires Descending(s)
    ensures Descending(Insert(s, x))
    decreases |s|
  {
    if |s| > 0 && s[|s| - 1].Value() < x.Value() {
      var p := s[..|s| - 1];
      InsertDescends(p, x);
      InsertAtLeast(p, x, s[|s| - 1].Value());
    }
  }

  lemma {:induction false} InsertKeepsOrder(s: seq<SimulatedBundle>, x: SimulatedBundle, v: nat)
    ensures OfValue(Insert(s, x), v) == OfValue(s, v) + (if x.Value() == v then [x] else [])
    decreases |s|
  {
    if |s| == 0 || s[|s| - 1].Value() >= x.Value() {
      OfValueAppend(s, x, v);
    } else {
      var p, last := s[..|s| - 1], s[|s| - 1];
      InsertKeepsOrder(p, x, v);
      OfValueAppend(Insert(p, x), last, v);
    }
  }

  lemma {:induction false} SortDescends(s: seq<SimulatedBundle>)
    ensures Descending(SortByMaxValue(s))
    decreases |s|
  {
    if |s| > 0 {
      SortDescends(s[..|s| - 1]);
      InsertDescends(SortByMaxValue(s[..|s| - 1]), s[|s| - 1]);
    }
  }

  lemma {:induction false} SortPermutes(s: seq<SimulatedBundle>)
    ensures multiset(SortByMaxValue(s)) == multiset(s)
    decreases |s|
  {
    if |s| > 0 {
      SortPermutes(s[..|s| - 1]);
      InsertPermutes(SortByMaxValue(s[..|s| - 1]), s[|s| - 1]);
      assert s == s[..|s| - 1] + [s[|s| - 1]];
    }
  }

  lemma {:induction false} SortKeepsOrder(s: seq<SimulatedBundle>, v: nat)
    ensures OfValue(SortByMaxValue(s), v) == OfValue(s, v)
    decreases |s|
  {
    if |s| > 0 {
      SortKeepsOrder(s[..|s| - 1], v);
      InsertKeepsOrder(SortByMaxValue(s[..|s| - 1]), s[|s| - 1], v);
    }
  }

  /** The result is descending, is a permutation, and keeps the order of bundles of equal value. */
  lemma SortIsStableDescending(s: seq<SimulatedBundle>)
    ensures var r := SortByMaxValue(s);
            && Descending(r)
            && multiset(r) == multiset(s)
            && forall v: nat {:trigger OfValue(r, v)} :: OfValue(r, v) == OfValue(s, v)
  {
    SortDescends(s);
    SortPermutes(s);
    forall v: nat ensures OfValue(SortByMaxValue(s), v) == OfValue(s, v) {
      SortKeepsOrder(s, v);
    }
  }

  lemma {:induction false} InsertLeavesTail(s: seq<SimulatedBundle>, x: SimulatedBundle, j: nat)
    requires j <= |s| && forall k :: j <= k < |s| ==> s[k].Value() < x.Value()
    ensures Insert(s, x) == Insert(s[..j], x) + s[j..]
    decreases |s|
  {
    if j == |s| {
      assert s[..j] == s;
    } else {
      var p := s[..|s| - 1];
      InsertLeavesTail(p, x, j);
      assert p[..j] == s[..j] && p[j..] + [s[|s| - 1]] == s[j..];
    }
  }

  lemma PlacedIsInserted(t: seq<SimulatedBundle>, s: seq<SimulatedBundle>, x: SimulatedBundle, j: nat)
    requires j <= |s| && |t| == |s| + 1 && t[j] == x
    requires forall k :: 0 <= k < j ==> t[k] == s[k]
    requires forall k :: j < k <= |s| ==> t[k] == s[k - 1]
    requires forall k :: j <= k < |s| ==> s[k].Value() < x.Value()
    requires j == 0 || s[j - 1].Value() >= x.Value()
    ensures t == Insert(s, x)
  {
    InsertLeavesTail(s, x, j);
    assert Insert(s[..j], x) == s[..j] + [x];
  }

  /** Moves a[i] to its place in the sorted prefix before it. */
  method InsertAt(a: array<SimulatedBundle>, i: nat)
    requires i < a.Length
    modifies a
    ensures a[..i + 1] == Insert(old(a[..i]), old(a[i]))
    ensures a[i + 1..] == old(a[i + 1..])
  {
    ghost var s, x := a[..i], a[i];
    var j := i;
    while j > 0 && a[j - 1].Value() < a[j].Value()
      invariant 0 <= j <= i
      invariant a[j] == x
      invariant forall k :: 0 <= k < j ==> a[k] == s[k]
      invariant forall k :: j < k <= i ==> a[k] == s[k - 1]
      invariant forall k :: j <= k < i ==> s[k].Value() < x.Value()
      invariant forall k :: i < k < a.Length ==> a[k] == old(a[k])
    {
      a[j - 1], a[j] := a[j], a[j - 1];
      j := j - 1;
    }
    PlacedIsInserted(a[..i + 1], s, x, j);
  }

  /** Sorts the bundles in place. */
  method SortInPlace(a: array<SimulatedBundle>)
    modifies a
    ensures a[..] == SortByMaxValue(old(a[..]))
  {
    ghost var s := a[..];
    var i := 0;
    while i < a.Length
      invariant 0 <= i <= a.Length
      invariant a[..i] == SortByMaxValue(s[..i])
      invariant a[i..] == s[i..]
    {
      assert a[i] == a[i..][0] == s[i];
      InsertAt(a, i);
      i := i + 1;
      assert s[..i][..i - 1] == s[..i - 1];
      assert a[i..] == s[i - 1..][1..] == s[i..];
    }
    assert a[..] == a[..i] && s[..i] == s;
  }
}
