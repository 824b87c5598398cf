/**
 * Sequence operations with JavaScript array semantics: `filter`,
 * `[...new Set(xs)]` (first-occurrence de-duplication) and `slice` with
 * negative and out-of-range indexes.
 */
module Seqs {

  /** `xs.filter(p)`: the elements satisfying `p`, in order. */
  function Filter<T>(s: seq<T>, p: T -> bool): (r: seq<T>)
    ensures |r| <= |s|
    ensures forall i :: 0 <= i < |r| ==> r[i] in s && p(r[i])
    ensures forall i :: 0 <= i < |s| && p(s[i]) ==> s[i] in r
  {
    if s == [] then []
    else if p(s[0]) then [s[0]] + Filter(s[1..], p)
    else Filter(s[1..], p)
  }

  lemma {:induction false} FilterAppend<T>(a: seq<T>, b: seq<T>, p: T -> bool)
    ensures Filter(a + b, p) == Filter(a, p) + Filter(b, p)
  {
    if a == [] {
      assert a + b == b;
    } else {
      assert (a + b)[1..] == a[1..] + b;
      FilterAppend(a[1..], b, p);
    }
  }

  lemma AppendAssoc<T>(a: seq<T>, b: seq<T>, c: seq<T>)
    ensures a + (b + c) == (a + b) + c
  {
  }

  lemma AfterPrefix<T>(a: seq<T>, b: seq<T>)
    ensures (a + b)[|a|..] == b && a + [] == a
  {
  }

  /** A non-empty sequence is its front followed by its last element. */
  lemma InitLast<T>(s: seq<T>)
    requires s != []
    ensures s == s[..|s| - 1] + [s[|s| - 1]]
  {
  }

  lemma FilterSingleton<T>(x: T, p: T -> bool)
    ensures Filter([x], p) == if p(x) then [x] else []
  {
    assert [x][1..] == [];
  }

  /** Filtering with a predicate no element satisfies leaves nothing. */
  lemma {:induction false} FilterNone<T>(s: seq<T>, p: T -> bool)
    requires forall i :: 0 <= i < |s| ==> !p(s[i])
    ensures Filter(s, p) == []
  {
    if s != [] {
      FilterNone(s[1..], p);
    }
  }

  /** Filtering with a predicate every element satisfies changes nothing. */
  lemma {:induction false} FilterAll<T>(s: seq<T>, p: T -> bool)
    requires forall i :: 0 <= i < |s| ==> p(s[i])
    ensures Filter(s, p) == s
  {
    if s != [] {
      FilterAll(s[1..], p);
    }
  }

  /** Filtering twice is filtering once by both predicates. */
  lemma {:induction false} FilterFilter<T>(s: seq<T>, p: T -> bool, q: T -> bool, pq: T -> bool)
    requires forall x :: pq(x) == (p(x) && q(x))
    ensures Filter(Filter(s, p), q) == Filter(s, pq)
  {
    if s != [] {
      FilterFilter(s[1..], p, q, pq);
    }
  }

  /** Every earlier element is related to every later one by `R`. */
  predicate Pairwise<T>(s: seq<T>, R: (T, T) -> bool) {
    forall i, j :: 0 <= i < j < |s| ==> R(s[i], s[j])
  }

  /** Filtering keeps the relative order of what it keeps. */
  lemma {:induction false} FilterPairwise<T>(s: seq<T>, p: T -> bool, R: (T, T) -> bool)
    requires Pairwise(s, R)
    ensures Pairwise(Filter(s, p), R)
  {
    if s != [] {
      var rest := Filter(s[1..], p);
      assert Pairwise(s[1..], R) by {
        forall i, j | 0 <= i < j < |s[1..]| ensures R(s[1..][i], s[1..][j]) {
          assert s[1..][i] == s[i + 1] && s[1..][j] == s[j + 1];
        }
      }
      FilterPairwise(s[1..], p, R);
      if p(s[0]) {
        var r := [s[0]] + rest;
        forall i, j | 0 <= i < j < |r| ensures R(r[i], r[j]) {
          if i == 0 {
            assert r[j] == rest[j - 1];
            var k :| 0 <= k < |s[1..]| && s[1..][k] == rest[j - 1];
            assert s[1..][k] == s[k + 1];
          } else {
            assert r[i] == rest[i - 1] && r[j] == rest[j - 1];
          }
        }
      }
    }
  }

  /** Inserting an element related both ways to everything keeps a pairwise relation. */
  lemma InsertPairwise<T>(s: seq<T>, k: nat, x: T, R: (T, T) -> bool)
    requires k <= |s|
    requires Pairwise(s, R)
    requires forall y :: R(x, y) && R(y, x)
    ensures Pairwise(s[..k] + [x] + s[k..], R)
    ensures forall i :: 0 <= i < |s[..k] + [x] + s[k..]| ==> (s[..k] + [x] + s[k..])[i] == x || (s[..k] + [x] + s[k..])[i] in s
  {
    var r := s[..k] + [x] + s[k..];
    forall i | 0 <= i < |r| ensures r[i] == x || r[i] in s {
      if i < k {
        assert r[i] == s[i];
      } else if i > k {
        assert r[i] == s[i - 1];
      }
    }
    forall i, j | 0 <= i < j < |r| ensures R(r[i], r[j]) {
      if i != k && j != k {
        var i' := if i < k then i else i - 1;
        var j' := if j < k then j else j - 1;
        assert r[i] == s[i'] && r[j] == s[j'];
      }
    }
  }

  /** `s.findIndex(p)`: the first index satisfying `p`, or -1. */
  function FindIndex<T>(s: seq<T>, p: T -> bool): (k: int)
    ensures -1 <= k < |s|
    ensures k >= 0 ==> p(s[k]) && forall j :: 0 <= j < k ==> !p(s[j])
    ensures k == -1 ==> forall j :: 0 <= j < |s| ==> !p(s[j])
  {
    if s == [] then -1
    else if p(s[0]) then 0
    else
      var k := FindIndex(s[1..], p);
      if k == -1 then -1 else k + 1
  }

  /** The last index satisfying `p`, or -1. */
  function LastIndexWhere<T>(s: seq<T>, p: T -> bool): (k: int)
    ensures -1 <= k < |s|
    ensures k >= 0 ==> p(s[k]) && forall j :: k < j < |s| ==> !p(s[j])
    ensures k == -1 ==> forall j :: 0 <= j < |s| ==> !p(s[j])
  {
    if s == [] then -1
    else if p(s[|s| - 1]) then |s| - 1
    else LastIndexWhere(s[..|s| - 1], p)
  }

  predicate NoDup<T(==)>(s: seq<T>) {
    forall i, j :: 0 <= i < j < |s| ==> s[i] != s[j]
  }

  /** First-occurrence de-duplication, skipping everything already in `seen`. */
  function DedupFrom<T(==)>(s: seq<T>, seen: set<T>): (r: seq<T>)
    ensures forall i :: 0 <= i < |r| ==> r[i] in s && r[i] !in seen
    ensures forall i :: 0 <= i < |s| && s[i] !in seen ==> s[i] in r
    ensures NoDup(r)
    ensures |r| <= |s|
  {
    if s == [] then []
    else if s[0] in seen then DedupFrom(s[1..], seen)
    else [s[0]] + DedupFrom(s[1..], seen + {s[0]})
  }

  /** `[...new Set(s)]`. */
  function Dedup<T(==)>(s: seq<T>): seq<T> {
    DedupFrom(s, {})
  }

  /** De-duplicating a concatenation keeps the first part's survivors first. */
  lemma {:induction false} DedupFromAppend<T>(a: seq<T>, b: seq<T>, seen: set<T>)
    ensures DedupFrom(a + b, seen) == DedupFrom(a, seen) + DedupFrom(b, seen + set x | x in a)
  {
    if a == [] {
      assert a + b == b;
      assert seen + (set x | x in a) == seen;
    } else if a[0] in seen {
      DedupFromAppend(a[1..], b, seen);
      DedupSkipStep(a, b, seen);
    } else {
      DedupFromAppend(a[1..], b, seen + {a[0]});
      DedupKeepStep(a, b, seen);
    }
  }

  /** The step of `DedupFromAppend` when the first element was already seen. */
  lemma DedupSkipStep<T>(a: seq<T>, b: seq<T>, seen: set<T>)
    requires a != [] && a[0] in seen
    requires DedupFrom(a[1..] + b, seen) == DedupFrom(a[1..], seen) + DedupFrom(b, seen + set x | x in a[1..])
    ensures DedupFrom(a + b, seen) == DedupFrom(a, seen) + DedupFrom(b, seen + set x | x in a)
  {
    assert (a + b)[1..] == a[1..] + b && (a + b)[0] == a[0];
    assert seen + (set x | x in a[1..]) == seen + (set x | x in a);
  }

  /** The step of `DedupFromAppend` when the first element is kept. */
  lemma DedupKeepStep<T>(a: seq<T>, b: seq<T>, seen: set<T>)
    requires a != [] && a[0] !in seen
    requires DedupFrom(a[1..] + b, seen + {a[0]})
      == DedupFrom(a[1..], seen + {a[0]}) + DedupFrom(b, seen + {a[0]} + set x | x in a[1..])
    ensures DedupFrom(a + b, seen) == DedupFrom(a, seen) + DedupFrom(b, seen + set x | x in a)
  {
    assert (a + b)[1..] == a[1..] + b && (a + b)[0] == a[0];
    assert seen + {a[0]} + (set x | x in a[1..]) == seen + (set x | x in a);
    var head, tail := [a[0]], DedupFrom(a[1..], seen + {a[0]});
    assert head + (tail + DedupFrom(b, seen + set x | x in a)) == (head + tail) + DedupFrom(b, seen + set x | x in a);
  }

  /** A duplicate-free sequence has as many elements as its set. */
  lemma {:induction false} NoDupCard<T>(s: seq<T>)
    requires NoDup(s)
    ensures |set x | x in s| == |s|
  {
    if s != [] {
      NoDupCard(s[1..]);
      assert (set x | x in s) == {s[0]} + (set x | x in s[1..]);
      assert s[0] !in (set x | x in s[1..]);
    }
  }

  /** `[...new Set(s)]` has one element per distinct value of `s`. */
  lemma DedupCountsDistinct<T>(s: seq<T>)
    ensures |Dedup(s)| == |set x | x in s|
  {
    var r := Dedup(s);
    assert (set x | x in r) == (set x | x in s);
    NoDupCard(r);
  }

  /** A duplicate-free sequence disjoint from `seen` survives de-duplication unchanged. */
  lemma {:induction false} DedupFromNoDup<T>(s: seq<T>, seen: set<T>)
    requires NoDup(s)
    requires forall x :: x in s ==> x !in seen
    ensures DedupFrom(s, seen) == s
  {
    if s != [] {
      assert s[0] !in s[1..];
      DedupFromNoDup(s[1..], seen + {s[0]});
    }
  }

  /** JavaScript's normalisation of a `slice` index against a length. */
  function JsIndex(i: int, len: nat): (k: nat)
    ensures k <= len
    ensures 0 <= i <= len ==> k == i
    ensures i < 0 && len + i >= 0 ==> k == len + i
  {
    if i < 0 then (if len + i < 0 then 0 else len + i)
    else if i > len then len
    else i
  }

  /** `s.slice(b, e)`. */
  function JsSlice<T>(s: seq<T>, b: int, e: int): seq<T> {
    var lo := JsIndex(b, |s|);
    var hi := JsIndex(e, |s|);
    if lo < hi then s[lo..hi] else []
  }

  /** `s.slice(b)`. */
  function JsSliceFrom<T>(s: seq<T>, b: int): seq<T> {
    JsSlice(s, b, |s|)
  }

  /** `s.slice(0, n)` for a non-negative `n`: the first `n` elements, or all of them. */
  function Take<T>(s: seq<T>, n: nat): (r: seq<T>)
    ensures |r| == if n < |s| then n else |s|
    ensures r == s[..|r|]
  {
    if n < |s| then s[..n] else s
  }
}
