/** The java.util.List and Stream idioms the tracker is built from, over
    Dafny sequences: `filter(..).findFirst()`, `filter(..).collect(toList())`,
    `List.remove(Object)` and a sum of doubles. */
module Seqs {
  import opened Wrappers

  /** The position of the first element satisfying `p`, if any. */
  function FirstIndex<T>(s: seq<T>, p: T -> bool): (r: Option<nat>)
    ensures r.Some? ==> r.value < |s| && p(s[r.value])
    ensures r.Some? ==> forall j :: 0 <= j < r.value ==> !p(s[j])
    ensures r.None? <==> forall j :: 0 <= j < |s| ==> !p(s[j])
  {
    if |s| == 0 then None
    else if p(s[0]) then Some(0)
    else
      match FirstIndex(s[1..], p)
      case None => None
      case Some(k) => Some(k + 1)
  }

  /** `stream().filter(p).findFirst()`: the first element satisfying `p`. */
  function FindFirst<T>(s: seq<T>, p: T -> bool): (r: Option<T>)
    ensures r.Some? <==> exists j :: 0 <= j < |s| && p(s[j])
    ensures r.Some? ==> r.value in s && p(r.value)
    ensures r.Some? ==> exists k :: 0 <= k < |s| && s[k] == r.value && p(s[k]) && forall j :: 0 <= j < k ==> !p(s[j])
  {
    match FirstIndex(s, p)
    case None => None
    case Some(k) => Some(s[k])
  }

  /** `s` without its element at position `k`. */
  function RemoveAt<T>(s: seq<T>, k: nat): (r: seq<T>)
    requires k < |s|
    ensures |r| == |s| - 1
    ensures forall j :: 0 <= j < k ==> r[j] == s[j]
    ensures forall j :: k <= j < |r| ==> r[j] == s[j + 1]
    ensures multiset(r) + multiset{s[k]} == multiset(s)
  {
    assert s == s[..k] + [s[k]] + s[k + 1..];
    s[..k] + s[k + 1..]
  }

  /** `List.remove(Object)`: drops the first element that `p` calls equal to
      the argument, and leaves the list as it was when there is none. */
  function RemoveFirst<T>(s: seq<T>, p: T -> bool): (r: seq<T>)
    ensures (forall j :: 0 <= j < |s| ==> !p(s[j])) ==> r == s
    ensures (exists j :: 0 <= j < |s| && p(s[j])) ==>
      exists k :: 0 <= k < |s| && p(s[k]) && (forall j :: 0 <= j < k ==> !p(s[j])) && r == RemoveAt(s, k)
  {
    match FirstIndex(s, p)
    case None => s
    case Some(k) => RemoveAt(s, k)
  }

  /** `stream().filter(p).collect(toList())`: the elements satisfying `p`,
      in their original order. */
  function Filter<T>(s: seq<T>, p: T -> bool): (r: seq<T>)
    ensures |r| <= |s|
    ensures forall i :: 0 <= i < |r| ==> r[i] in s && p(r[i])
    ensures forall i :: 0 <= i < |s| && p(s[i]) ==> s[i] in r
  {
    if |s| == 0 then []
    else if p(s[0]) then [s[0]] + Filter(s[1..], p)
    else Filter(s[1..], p)
  }

  /** Filtering distributes over concatenation, so the filtered list keeps
      the relative order of the original. */
  lemma {:induction false} FilterAppend<T>(a: seq<T>, b: seq<T>, p: T -> bool)
    ensures Filter(a + b, p) == Filter(a, p) + Filter(b, p)
  {
    if |a| == 0 {
      assert a + b == b;
    } else {
      var ab := a + b;
      assert ab[0] == a[0] && ab[1..] == a[1..] + b;
      var head: seq<T> := if p(a[0]) then [a[0]] else [];
      assert Filter(ab, p) == head + Filter(a[1..] + b, p);
      assert Filter(a, p) == head + Filter(a[1..], p);
      FilterAppend(a[1..], b, p);
      AppendAssociative(head, Filter(a[1..], p), Filter(b, p));
    }
  }

  /** Two tests that agree on every element give the same filtered list. */
  lemma {:induction false} FilterSameTest<T>(s: seq<T>, p: T -> bool, q: T -> bool)
    requires forall x :: x in s ==> p(x) == q(x)
    ensures Filter(s, p) == Filter(s, q)
  {
    if |s| > 0 {
      FilterSameTest(s[1..], p, q);
    }
  }

  /** Filtering twice keeps what passes both tests. */
  lemma {:induction false} FilterFilter<T>(s: seq<T>, p: T -> bool, q: T -> bool, both: T -> bool)
    requires forall x :: x in s ==> both(x) == (p(x) && q(x))
    ensures Filter(Filter(s, p), q) == Filter(s, both)
  {
    if |s| > 0 {
      FilterFilter(s[1..], p, q, both);
      if p(s[0]) {
        assert ([s[0]] + Filter(s[1..], p))[1..] == Filter(s[1..], p);
      }
    }
  }

  /** Two tests that never hold together split what their disjunction
      keeps. */
  lemma {:induction false} FilterDisjoint<T>(s: seq<T>, p: T -> bool, q: T -> bool, either: T -> bool)
    requires forall x :: x in s ==> either(x) == (p(x) || q(x)) && !(p(x) && q(x))
    ensures |Filter(s, either)| == |Filter(s, p)| + |Filter(s, q)|
  {
    if |s| > 0 {
      FilterDisjoint(s[1..], p, q, either);
    }
  }

  /** A test that holds everywhere keeps everything, one that holds nowhere
      keeps nothing. */
  lemma {:induction false} FilterAllOrNothing<T>(s: seq<T>, p: T -> bool)
    ensures (forall x :: x in s ==> p(x)) ==> Filter(s, p) == s
    ensures (forall x :: x in s ==> !p(x)) ==> Filter(s, p) == []
  {
    if |s| > 0 {
      FilterAllOrNothing(s[1..], p);
      assert s == [s[0]] + s[1..];
    }
  }

  /** The positions of `s` whose element satisfies `p`. */
  function Positions<T>(s: seq<T>, p: T -> bool): set<nat> {
    set i: nat | i < |s| && p(s[i])
  }

  /** `filter(p).count()`, counted from the left: the number of positions
      whose element satisfies `p`, which is the length of the filtered
      list. */
  function Count<T>(s: seq<T>, p: T -> bool): (n: nat)
    ensures n == |Positions(s, p)|
    ensures n == |Filter(s, p)|
    ensures n <= |s|
    ensures n == 0 <==> forall i :: 0 <= i < |s| ==> !p(s[i])
    decreases |s|
  {
    if |s| == 0 then 0
    else
      var init, last := s[..|s| - 1], s[|s| - 1];
      PositionsSnoc(s, p);
      assert s == init + [last];
      FilterAppend(init, [last], p);
      assert forall i :: 0 <= i < |init| ==> init[i] == s[i];
      Count(init, p) + (if p(last) then 1 else 0)
  }

  /** The positions of a non-empty list are those of all but its last
      element, and the last one when it satisfies `p`. */
  lemma PositionsSnoc<T>(s: seq<T>, p: T -> bool)
    requires |s| > 0
    ensures Positions(s, p) == Positions(s[..|s| - 1], p) + (if p(s[|s| - 1]) then {|s| - 1} else {})
    ensures |Positions(s, p)| == |Positions(s[..|s| - 1], p)| + (if p(s[|s| - 1]) then 1 else 0)
  {
    var init := s[..|s| - 1];
    assert forall i :: 0 <= i < |init| ==> init[i] == s[i];
    var a, b := Positions(s, p), Positions(init, p);
    assert a == b + (if p(s[|s| - 1]) then {|s| - 1} else {});
    assert |s| - 1 !in b;
  }

  /** `mapToDouble(..).sum()`, added from left to right. */
  function Sum(xs: seq<real>): real {
    if |xs| == 0 then 0.0 else Sum(xs[..|xs| - 1]) + xs[|xs| - 1]
  }

  /** Summing a concatenation sums the parts. */
  lemma {:induction false} SumAppend(a: seq<real>, b: seq<real>)
    ensures Sum(a + b) == Sum(a) + Sum(b)
    decreases |b|
  {
    if |b| == 0 {
      assert a + b == a;
    } else {
      SumAppend(a, b[..|b| - 1]);
      assert (a + b)[..|a + b| - 1] == a + b[..|b| - 1];
      assert (a + b)[|a + b| - 1] == b[|b| - 1];
    }
  }

  /** A sum of non-negative terms is non-negative. */
  lemma {:induction false} SumNonNegative(xs: seq<real>)
    requires forall i :: 0 <= i < |xs| ==> xs[i] >= 0.0
    ensures Sum(xs) >= 0.0
    decreases |xs|
  {
    if |xs| > 0 {
      SumNonNegative(xs[..|xs| - 1]);
    }
  }

  /** Elements that are pairwise unrelated by `clash`: distinct objects,
      names unique ignoring case, and the like. */
  predicate NoClash<T>(s: seq<T>, clash: (T, T) -> bool) {
    forall i, j :: 0 <= i < j < |s| ==> !clash(s[i], s[j])
  }

  /** Dropping an element keeps the others pairwise unrelated. */
  lemma RemoveAtNoClash<T>(s: seq<T>, k: nat, clash: (T, T) -> bool)
    requires k < |s| && NoClash(s, clash)
    ensures NoClash(RemoveAt(s, k), clash)
  {
    var r := RemoveAt(s, k);
    forall i, j | 0 <= i < j < |r| ensures !clash(r[i], r[j]) {
      var i', j' := if i < k then i else i + 1, if j < k then j else j + 1;
      assert r[i] == s[i'] && r[j] == s[j'];
    }
  }

  /** Taking the last element of `a` out of both sides of an equal pair of
      multisets, at whatever position it sits in `b`, keeps them equal. */
  lemma MultisetWithoutLast<T>(a: seq<T>, b: seq<T>, k: nat)
    requires multiset(a) == multiset(b) && |a| > 0 && k < |b| && b[k] == a[|a| - 1]
    ensures multiset(a[..|a| - 1]) == multiset(b[..k] + b[k + 1..])
  {
    var x := b[k];
    assert a == a[..|a| - 1] + [x];
    assert b == b[..k] + [x] + b[k + 1..];
    calc {
      multiset(a[..|a| - 1]);
      multiset(a) - multiset{x};
      multiset(b) - multiset{x};
      { assert multiset(b) == multiset(b[..k]) + multiset{x} + multiset(b[k + 1..]); }
      multiset(b[..k]) + multiset(b[k + 1..]);
      multiset(b[..k] + b[k + 1..]);
    }
  }

  /** Concatenation is associative. */
  lemma AppendAssociative<T>(x: seq<T>, y: seq<T>, z: seq<T>)
    ensures (x + y) + z == x + (y + z)
  {
  }
}
