/** Sequence facts shared by the invalidation and validation code: duplicate-freedom,
    order-preserving subsequences and first-occurrence de-duplication. */
module Sequences {

  predicate NoDuplicates<T(==)>(s: seq<T>) {
    forall i, j :: 0 <= i < j < |s| ==> s[i] != s[j]
  }

  /** `a` is `b` with some elements left out and the order of the rest kept. */
  predicate Subseq<T(==)>(a: seq<T>, b: seq<T>)
    decreases |b|
  {
    a == [] ||
    (b != [] &&
     ((a[|a| - 1] == b[|b| - 1] && Subseq(a[..|a| - 1], b[..|b| - 1])) ||
      Subseq(a, b[..|b| - 1])))
  }

  /** The index of the first occurrence of `x` in `s`. */
  function FirstIndex<T(==)>(s: seq<T>, x: T): (r: nat)
    requires x in s
    ensures r < |s| && s[r] == x && x !in s[..r]
  {
    if x in s[..|s| - 1] then FirstIndex(s[..|s| - 1], x) else |s| - 1
  }

  /** `s` with every element after its first occurrence removed; the order of the
      kept elements is the order of their first occurrences. */
  function Dedup<T(==)>(s: seq<T>): (r: seq<T>)
    ensures |r| <= |s|
    ensures forall i :: 0 <= i < |r| ==> r[i] in s
    ensures forall i :: 0 <= i < |s| ==> s[i] in r
    ensures NoDuplicates(r)
  {
    if s == [] then []
    else if s[|s| - 1] in s[..|s| - 1] then Dedup(s[..|s| - 1])
    else Dedup(s[..|s| - 1]) + [s[|s| - 1]]
  }

  /** A subsequence of a sequence is a subsequence of that sequence extended at its end. */
  lemma {:induction false} SubseqExtend<T>(a: seq<T>, b: seq<T>, x: T)
    requires Subseq(a, b)
    ensures Subseq(a, b + [x])
  {
    assert (b + [x])[..|b|] == b;
  }

  /** De-duplication keeps the input's order: its output is a subsequence of its input. */
  lemma {:induction false} DedupSubseq<T>(s: seq<T>)
    ensures Subseq(Dedup(s), s)
  {
    if s != [] {
      var p, x := s[..|s| - 1], s[|s| - 1];
      assert s == p + [x];
      DedupSubseq(p);
      if x in p {
        SubseqExtend(Dedup(p), p, x);
      } else {
        assert (Dedup(p) + [x])[..|Dedup(p)|] == Dedup(p);
      }
    }
  }

  /** De-duplication keeps first occurrences: the kept elements appear in the order
      in which they first occur in the input. */
  lemma {:induction false} DedupFirstOccurrenceOrder<T>(s: seq<T>)
    ensures forall i, j :: 0 <= i < j < |Dedup(s)| ==> FirstIndex(s, Dedup(s)[i]) < FirstIndex(s, Dedup(s)[j])
  {
    if s != [] {
      var p, x := s[..|s| - 1], s[|s| - 1];
      DedupFirstOccurrenceOrder(p);
      var d := Dedup(p);
      forall y | y in p
        ensures FirstIndex(s, y) == FirstIndex(p, y)
      {
      }
      if x !in p {
        forall i | 0 <= i < |d|
          ensures FirstIndex(s, d[i]) < FirstIndex(s, x)
        {
          assert d[i] in p;
        }
      }
    }
  }

  /** A sequence without duplicates is left as it is. */
  lemma {:induction false} DedupOfNoDuplicates<T>(s: seq<T>)
    requires NoDuplicates(s)
    ensures Dedup(s) == s
  {
    if s != [] {
      var p := s[..|s| - 1];
      assert NoDuplicates(p);
      DedupOfNoDuplicates(p);
      assert s == p + [s[|s| - 1]];
    }
  }

  /** De-duplication changes a sequence exactly when it holds a repeated element. */
  lemma DedupFixpoint<T>(s: seq<T>)
    ensures Dedup(s) == s <==> NoDuplicates(s)
  {
    if NoDuplicates(s) {
      DedupOfNoDuplicates(s);
    }
  }

  /** De-duplicating twice is the same as de-duplicating once. */
  lemma DedupIdempotent<T>(s: seq<T>)
    ensures Dedup(Dedup(s)) == Dedup(s)
  {
    DedupOfNoDuplicates(Dedup(s));
  }
}
