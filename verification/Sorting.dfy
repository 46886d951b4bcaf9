/** Ascending order and order statistics of sequences of naturals. `Sort` stands for the library sort
    the program calls. */
module Sorting {

  ghost predicate Ascending(s: seq<nat>) {
    forall i, j | 0 <= i <= j < |s| :: s[i] <= s[j]
  }

  function Insert(x: nat, s: seq<nat>): seq<nat> {
    if s == [] || x >= s[|s| - 1] then s + [x] else Insert(x, s[..|s| - 1]) + [s[|s| - 1]]
  }

  function Sort(s: seq<nat>): seq<nat> {
    if s == [] then [] else Insert(s[|s| - 1], Sort(s[..|s| - 1]))
  }

  lemma {:induction false} InsertPermutes(x: nat, s: seq<nat>)
    ensures multiset(Insert(x, s)) == multiset(s) + multiset{x}
  {
    if !(s == [] || x >= s[|s| - 1]) {
      var init, last := s[..|s| - 1], s[|s| - 1];
      assert s == init + [last];
      InsertPermutes(x, init);
    }
  }

  lemma {:induction false} InsertAscends(x: nat, s: seq<nat>)
    requires Ascending(s)
    ensures Ascending(Insert(x, s))
  {
    if !(s == [] || x >= s[|s| - 1]) {
      var init, last := s[..|s| - 1], s[|s| - 1];
      InsertAscends(x, init);
      InsertPermutes(x, init);
      var r := Insert(x, init);
      forall i | 0 <= i < |r| ensures r[i] <= last {
        assert r[i] in multiset(r);
      }
    }
  }

  /** Sorting yields an ascending permutation. */
  lemma {:induction false} SortSorts(s: seq<nat>)
    ensures Ascending(Sort(s)) && multiset(Sort(s)) == multiset(s) && |Sort(s)| == |s|
  {
    if s != [] {
      var init, last := s[..|s| - 1], s[|s| - 1];
      assert s == init + [last];
      SortSorts(init);
      InsertAscends(last, Sort(init));
      InsertPermutes(last, Sort(init));
      assert |multiset(Sort(s))| == |multiset(s)|;
    }
  }

  // ---------------------------------------------------------------- order statistics

  /** How many positions hold at least `x`. */
  function CountGe(s: seq<nat>, x: nat): (c: nat)
    ensures c <= |s|
  {
    if s == [] then 0 else CountGe(s[..|s| - 1], x) + if s[|s| - 1] >= x then 1 else 0
  }

  lemma {:induction false} CountGeSplit(a: seq<nat>, b: seq<nat>, x: nat)
    ensures CountGe(a + b, x) == CountGe(a, x) + CountGe(b, x)
    decreases |b|
  {
    if b == [] {
      assert a + b == a;
    } else {
      CountGeSplit(a, b[..|b| - 1], x);
      assert (a + b)[..|a + b| - 1] == a + b[..|b| - 1];
    }
  }

  lemma {:induction false} CountGeInsert(y: nat, s: seq<nat>, x: nat)
    ensures CountGe(Insert(y, s), x) == CountGe(s, x) + if y >= x then 1 else 0
  {
    if s == [] || y >= s[|s| - 1] {
      CountGeSplit(s, [y], x);
    } else {
      var init, last := s[..|s| - 1], s[|s| - 1];
      CountGeInsert(y, init, x);
      CountGeSplit(Insert(y, init), [last], x);
    }
  }

  lemma {:induction false} CountGeSort(s: seq<nat>, x: nat)
    ensures CountGe(Sort(s), x) == CountGe(s, x)
  {
    if s != [] {
      CountGeSort(s[..|s| - 1], x);
      CountGeInsert(s[|s| - 1], Sort(s[..|s| - 1]), x);
    }
  }

  lemma {:induction false} CountGeExtremes(s: seq<nat>, x: nat)
    ensures (forall i | 0 <= i < |s| :: s[i] >= x) ==> CountGe(s, x) == |s|
    ensures (forall i | 0 <= i < |s| :: s[i] < x) ==> CountGe(s, x) == 0
  {
    if s != [] {
      CountGeExtremes(s[..|s| - 1], x);
    }
  }

  /** The element at position `p` of an ascending sequence is at least `x` exactly when at least
      `|s| - p` elements are. */
  lemma OrderStatistic(s: seq<nat>, p: nat, x: nat)
    requires Ascending(s) && p < |s|
    ensures x <= s[p] <==> CountGe(s, x) >= |s| - p
  {
    hide CountGe;
    if x <= s[p] {
      assert s == s[..p] + s[p..];
      CountGeSplit(s[..p], s[p..], x);
      CountGeExtremes(s[p..], x);
      assert forall i | 0 <= i < |s[p..]| :: s[p..][i] >= x;
    } else {
      assert s == s[..p + 1] + s[p + 1..];
      CountGeSplit(s[..p + 1], s[p + 1..], x);
      CountGeExtremes(s[..p + 1], x);
    }
  }
}
