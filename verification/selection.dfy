/**
  Row selection over an ordered table, the way a boolean mask selects rows of a
  data frame: `Keep` is the order-preserving filter, `Mask` evaluates a predicate
  row by row, and `TruePositions`/`Select` are the positional reading of
  "take the rows whose mask entry is true, in table order".
 */
module Selection {

  /** The rows of `s` that satisfy `p`, in their original order. */
  function Keep<T>(s: seq<T>, p: T -> bool): (r: seq<T>)
    ensures |r| <= |s|
    ensures forall x :: x in r ==> x in s && p(x)
    ensures forall i :: 0 <= i < |s| && p(s[i]) ==> s[i] in r
  {
    if s == [] then []
    else if p(s[0]) then [s[0]] + Keep(s[1..], p)
    else Keep(s[1..], p)
  }

  /** The boolean mask of `p` over `s`: entry `i` says whether row `i` satisfies `p`. */
  function Mask<T>(s: seq<T>, p: T -> bool): seq<bool> {
    seq(|s|, i requires 0 <= i < |s| => p(s[i]))
  }

  /** The positions at or after `lo` where `mask` is true, in increasing order. */
  function TruePositions(mask: seq<bool>, lo: nat): (r: seq<nat>)
    ensures forall k :: 0 <= k < |r| ==> lo <= r[k] < |mask| && mask[r[k]]
    ensures forall j, k :: 0 <= j < k < |r| ==> r[j] < r[k]
    ensures forall i :: lo <= i < |mask| && mask[i] ==> i in r
    decreases |mask| - lo
  {
    if lo >= |mask| then []
    else if mask[lo] then [lo] + TruePositions(mask, lo + 1)
    else TruePositions(mask, lo + 1)
  }

  /** The rows of `s` at the positions `idx`, in the order of `idx`. */
  function Select<T>(s: seq<T>, idx: seq<nat>): seq<T>
    requires forall k :: 0 <= k < |idx| ==> idx[k] < |s|
  {
    seq(|idx|, k requires 0 <= k < |idx| => s[idx[k]])
  }

  /** A sequence in strictly increasing order. */
  predicate Increasing(xs: seq<nat>) {
    forall j, k :: 0 <= j < k < |xs| ==> xs[j] < xs[k]
  }

  /** Keep is mask selection: it takes exactly the rows whose mask entry is true, in order. */
  lemma {:induction false} KeepIsMaskSelection<T>(s: seq<T>, p: T -> bool)
    ensures Keep(s, p) == Select(s, TruePositions(Mask(s, p), 0))
  {
    KeepSuffixIsMaskSelection(s, p, 0);
    assert s[0..] == s;
  }

  lemma {:induction false} KeepSuffixIsMaskSelection<T>(s: seq<T>, p: T -> bool, lo: nat)
    requires lo <= |s|
    ensures Keep(s[lo..], p) == Select(s, TruePositions(Mask(s, p), lo))
    decreases |s| - lo
  {
    var m := Mask(s, p);
    if lo == |s| {
      assert s[lo..] == [];
    } else {
      var tail := s[lo..];
      assert tail[0] == s[lo];
      assert tail[1..] == s[lo + 1..];
      KeepSuffixIsMaskSelection(s, p, lo + 1);
      var rest := TruePositions(m, lo + 1);
      var kept := Keep(s[lo + 1..], p);
      assert kept == Select(s, rest);
      if p(s[lo]) {
        assert m[lo];
        assert Keep(tail, p) == [s[lo]] + kept;
        assert TruePositions(m, lo) == [lo] + rest;
        SelectCons(s, lo, rest);
      } else {
        assert !m[lo];
        assert Keep(tail, p) == kept;
        assert TruePositions(m, lo) == rest;
      }
    }
  }

  lemma SelectCons<T>(s: seq<T>, i: nat, idx: seq<nat>)
    requires i < |s|
    requires forall k :: 0 <= k < |idx| ==> idx[k] < |s|
    ensures Select(s, [i] + idx) == [s[i]] + Select(s, idx)
  {
    var a := Select(s, [i] + idx);
    var b := [s[i]] + Select(s, idx);
    assert |a| == |b|;
    forall k | 0 <= k < |a| ensures a[k] == b[k] {
      if k > 0 {
        assert ([i] + idx)[k] == idx[k - 1];
      }
    }
  }

  /** Filtering by `p` and then by `q` is filtering once by their conjunction. */
  lemma {:induction false} KeepKeep<T>(s: seq<T>, p: T -> bool, q: T -> bool, pq: T -> bool)
    requires forall x :: pq(x) == (p(x) && q(x))
    ensures Keep(Keep(s, p), q) == Keep(s, pq)
  {
    if s != [] {
      KeepKeep(s[1..], p, q, pq);
      if p(s[0]) {
        assert Keep(s, p) == [s[0]] + Keep(s[1..], p);
        assert ([s[0]] + Keep(s[1..], p))[1..] == Keep(s[1..], p);
      }
    }
  }

  /** Two predicates that agree on every row of `s` select the same rows. */
  lemma {:induction false} KeepCongruent<T>(s: seq<T>, p: T -> bool, q: T -> bool)
    requires forall i :: 0 <= i < |s| ==> p(s[i]) == q(s[i])
    ensures Keep(s, p) == Keep(s, q)
  {
    if s != [] {
      assert forall i :: 0 <= i < |s[1..]| ==> s[1..][i] == s[i + 1];
      KeepCongruent(s[1..], p, q);
    }
  }

  /** When every row satisfies `p`, nothing is dropped. */
  lemma {:induction false} KeepAll<T>(s: seq<T>, p: T -> bool)
    requires forall i :: 0 <= i < |s| ==> p(s[i])
    ensures Keep(s, p) == s
  {
    if s != [] {
      assert forall i :: 0 <= i < |s[1..]| ==> s[1..][i] == s[i + 1];
      KeepAll(s[1..], p);
      assert [s[0]] + s[1..] == s;
    }
  }

  /** When no row satisfies `p`, nothing is kept. */
  lemma {:induction false} KeepNone<T>(s: seq<T>, p: T -> bool)
    requires forall i :: 0 <= i < |s| ==> !p(s[i])
    ensures Keep(s, p) == []
  {
    if s != [] {
      assert forall i :: 0 <= i < |s[1..]| ==> s[1..][i] == s[i + 1];
      KeepNone(s[1..], p);
    }
  }

  /** Filtering a filtered sequence again by the same predicate changes nothing. */
  lemma KeepIdempotent<T>(s: seq<T>, p: T -> bool)
    ensures Keep(Keep(s, p), p) == Keep(s, p)
  {
    var r := Keep(s, p);
    forall i | 0 <= i < |r| ensures p(r[i]) {
      assert r[i] in r;
    }
    KeepAll(r, p);
  }

  /** Multiplicities: a row value occurs in `Keep(s, p)` as often as in `s` if it satisfies `p`, else never. */
  lemma {:induction false} KeepMultiset<T>(s: seq<T>, p: T -> bool, x: T)
    ensures multiset(Keep(s, p))[x] == if p(x) then multiset(s)[x] else 0
  {
    if s != [] {
      KeepMultiset(s[1..], p, x);
      assert s == [s[0]] + s[1..];
      assert multiset(s) == multiset{s[0]} + multiset(s[1..]);
      if p(s[0]) {
        assert multiset(Keep(s, p)) == multiset{s[0]} + multiset(Keep(s[1..], p));
      }
    }
  }

  /** `p` and its negation split `s`: the two filtered lengths add up to `|s|`. */
  lemma {:induction false} KeepPartitionLength<T>(s: seq<T>, p: T -> bool, notP: T -> bool)
    requires forall x :: notP(x) == !p(x)
    ensures |Keep(s, p)| + |Keep(s, notP)| == |s|
  {
    if s != [] {
      KeepPartitionLength(s[1..], p, notP);
    }
  }

  /** An increasing sequence has no repeated entry, so its set of entries has its length. */
  lemma {:induction false} IncreasingCardinality(xs: seq<nat>)
    requires Increasing(xs)
    ensures |Entries(xs)| == |xs|
  {
    if xs != [] {
      var init := xs[..|xs| - 1];
      var last := xs[|xs| - 1];
      assert Increasing(init) by {
        forall j, k | 0 <= j < k < |init| ensures init[j] < init[k] {
          assert init[j] == xs[j] && init[k] == xs[k];
        }
      }
      IncreasingCardinality(init);
      assert xs == init + [last];
      EntriesSnoc(init, last);
      assert last !in Entries(init) by {
        forall j | 0 <= j < |init| ensures init[j] != last {
          assert init[j] == xs[j];
        }
      }
    }
  }

  /** The set of entries of a sequence. */
  function Entries(xs: seq<nat>): set<nat> {
    set k | k in xs
  }

  lemma EntriesSnoc(init: seq<nat>, last: nat)
    ensures Entries(init + [last]) == Entries(init) + {last}
  {
  }
}
