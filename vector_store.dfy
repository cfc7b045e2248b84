/** The vector store: an append-only sequence of labelled vectors and a top-K
    query that scores every stored vector against the query with the
    similarity metric, sorts the scored list by score, highest first, and
    keeps its first topK entries. */
module VectorStore {
  import opened Cosine

  /** A stored vector: identifier, components and an opaque metadata label. */
  datatype Vector = Vector(id: string, values: seq<int>, metadata: string)

  /** One query answer: a copy of the matched vector and its score. */
  datatype SearchResult = SearchResult(vector: Vector, similarity: real)

  function Min(x: int, y: int): int { if x <= y then x else y }

  /** The scored list a query builds before sorting: entry i pairs stored
      vector i with its similarity to the query. */
  function Scored(storage: seq<Vector>, query: seq<int>): seq<SearchResult> {
    seq(|storage|, i requires 0 <= i < |storage| =>
      SearchResult(storage[i], Similarity(query, storage[i].values)))
  }

  /** Scores do not increase from left to right. */
  predicate SortedBySimilarity(s: seq<SearchResult>) {
    forall p, q :: 0 <= p < q < |s| ==> s[p].similarity >= s[q].similarity
  }

  /** results is a top-k answer over scored: min(k, |scored|) entries taken
      from scored, highest score first, and no entry left out scores higher
      than any entry kept. Ties are not ordered. */
  ghost predicate IsTopK(results: seq<SearchResult>, scored: seq<SearchResult>, k: nat) {
    && |results| == Min(k, |scored|)
    && SortedBySimilarity(results)
    && multiset(results) <= multiset(scored)
    && forall r, x :: r in results && x in multiset(scored) - multiset(results) ==>
         r.similarity >= x.similarity
  }

  class VectorDB {
    var storage: seq<Vector>

    /** A new, empty store. */
    constructor ()
      ensures storage == []
    {
      storage := [];
    }

    /** Appends v; every earlier entry stays where it was. */
    method Insert(v: Vector)
      modifies this
      ensures storage == old(storage) + [v]
    {
      storage := storage + [v];
    }

    /** Scores every stored vector against queryValues, sorts the scores
        highest first and keeps the first topK. The store is not modified
        (the method has no modifies clause). */
    method Query(queryValues: seq<int>, topK: int) returns (results: seq<SearchResult>)
      requires topK >= 0
      ensures IsTopK(results, Scored(storage, queryValues), topK)
      ensures forall r :: r in results ==>
        r.vector in storage && r.similarity == Similarity(queryValues, r.vector.values)
      ensures topK >= |storage| ==> multiset(results) == multiset(Scored(storage, queryValues))
    {
      var n := |storage|;
      var buffer := new SearchResult[n];
      for i := 0 to n
        invariant forall j :: 0 <= j < i ==>
          buffer[j] == SearchResult(storage[j], Similarity(queryValues, storage[j].values))
      {
        var similarity := CosineSimilarity(queryValues, storage[i].values);
        buffer[i] := SearchResult(storage[i], similarity);
      }
      ghost var scored := Scored(storage, queryValues);
      assert buffer[..] == scored;
      SortBySimilarity(buffer);
      SortedPrefixIsTopK(buffer[..], scored, topK);
      if n > topK {
        results := buffer[..topK];
      } else {
        assert buffer[..][..n] == buffer[..];
        results := buffer[..];
      }
      TopKEntriesAreScored(results, storage, queryValues, topK);
      if topK >= n {
        TopKOfAll(results, scored, topK);
      }
    }
  }

  /** Sorts a in place, highest score first: the result is sorted and a
      permutation of the input. */
  method SortBySimilarity(a: array<SearchResult>)
    modifies a
    ensures SortedBySimilarity(a[..])
    ensures multiset(a[..]) == multiset(old(a[..]))
  {
    if a.Length == 0 {
      return;
    }
    var i := 1;
    while i < a.Length
      invariant 1 <= i <= a.Length
      invariant forall p, q :: 0 <= p < q < i ==> a[p].similarity >= a[q].similarity
      invariant multiset(a[..]) == multiset(old(a[..]))
    {
      var j := i;
      while j > 0 && a[j - 1].similarity < a[j].similarity
        invariant 0 <= j <= i
        invariant forall p, q :: 0 <= p < q <= i && p != j && q != j ==>
          a[p].similarity >= a[q].similarity
        invariant forall q :: j < q <= i ==> a[j].similarity > a[q].similarity
        invariant multiset(a[..]) == multiset(old(a[..]))
      {
        SwapWithPrevious(a, j);
        j := j - 1;
      }
      i := i + 1;
    }
  }

  /** Exchanges a[j - 1] and a[j], leaving every other entry in place. */
  method SwapWithPrevious(a: array<SearchResult>, j: int)
    requires 0 < j < a.Length
    modifies a
    ensures a[j - 1] == old(a[j]) && a[j] == old(a[j - 1])
    ensures forall m :: 0 <= m < a.Length && m != j - 1 && m != j ==> a[m] == old(a[m])
    ensures multiset(a[..]) == multiset(old(a[..]))
  {
    a[j - 1], a[j] := a[j], a[j - 1];
  }

  /** Cutting a sorted permutation of scored after its first k entries gives a
      top-k answer. */
  lemma SortedPrefixIsTopK(s: seq<SearchResult>, scored: seq<SearchResult>, k: nat)
    requires SortedBySimilarity(s) && multiset(s) == multiset(scored)
    ensures IsTopK(s[..Min(k, |s|)], scored, k)
  {
    var m := Min(k, |s|);
    assert |s| == |scored| by {
      assert |multiset(s)| == |multiset(scored)|;
    }
    var kept, dropped := s[..m], s[m..];
    SplitMultiset(s, m);
    forall r, x | r in kept && x in multiset(scored) - multiset(kept)
      ensures r.similarity >= x.similarity
    {
      assert x in dropped;
      KeptDominatesDropped(s, m, r, x);
    }
  }

  /** Splitting a sequence splits its multiset, and what the first part
      leaves of the whole is the second part. */
  lemma SplitMultiset(s: seq<SearchResult>, m: nat)
    requires m <= |s|
    ensures multiset(s[..m]) <= multiset(s)
    ensures multiset(s) - multiset(s[..m]) == multiset(s[m..])
  {
    assert s == s[..m] + s[m..];
    var A, B := multiset(s[..m]), multiset(s[m..]);
    assert multiset(s) == A + B;
    assert (A + B) - A == B;
  }

  /** In a sorted sequence, every entry before position m scores at least as
      high as every entry from m on. */
  lemma KeptDominatesDropped(s: seq<SearchResult>, m: nat, r: SearchResult, x: SearchResult)
    requires SortedBySimilarity(s) && m <= |s|
    requires r in s[..m] && x in s[m..]
    ensures r.similarity >= x.similarity
  {
    var p :| 0 <= p < m && s[..m][p] == r;
    var q :| 0 <= q < |s| - m && s[m..][q] == x;
    assert s[p] == r && s[m + q] == x;
  }

  /** Every entry of a top-k answer over the scored store is a stored vector
      paired with its own similarity to the query. */
  lemma TopKEntriesAreScored(results: seq<SearchResult>, storage: seq<Vector>, query: seq<int>, k: nat)
    requires IsTopK(results, Scored(storage, query), k)
    ensures forall r :: r in results ==>
      r.vector in storage && r.similarity == Similarity(query, r.vector.values)
  {
    var scored := Scored(storage, query);
    forall r | r in results
      ensures r.vector in storage && r.similarity == Similarity(query, r.vector.values)
    {
      assert r in multiset(results);
      assert r in multiset(scored);
      var i :| 0 <= i < |scored| && scored[i] == r;
      assert storage[i] == r.vector;
    }
  }

  /** When k covers the whole scored list, a top-k answer holds every scored
      entry exactly as often as the list does. */
  lemma TopKOfAll(results: seq<SearchResult>, scored: seq<SearchResult>, k: nat)
    requires IsTopK(results, scored, k) && k >= |scored|
    ensures multiset(results) == multiset(scored)
  {
    var A, B := multiset(results), multiset(scored);
    var rest := B - A;
    assert B == A + rest;
    assert |B| == |A| + |rest|;
    assert |rest| == 0;
  }

  /** A top-k answer keeps every scored entry that scores strictly higher
      than some entry it kept. */
  lemma TopKKeepsHigher(results: seq<SearchResult>, scored: seq<SearchResult>, k: nat,
                        r: SearchResult, x: SearchResult)
    requires IsTopK(results, scored, k)
    requires r in results && x in scored && x.similarity > r.similarity
    ensures x in results
  {
  }

  /** With three entries of distinct scores, the top-2 answer is the two
      highest, in order. */
  lemma TopTwoOfThree(results: seq<SearchResult>, scored: seq<SearchResult>)
    requires |scored| == 3 && IsTopK(results, scored, 2)
    requires scored[0].similarity > scored[1].similarity > scored[2].similarity
    ensures results == scored[..2]
  {
    var x, y, z := scored[0], scored[1], scored[2];
    var r0, r1 := results[0], results[1];
    DistinctEntriesOfTopTwo(results, scored);
    assert r0 in multiset(scored) && r1 in multiset(scored);
    assert r0 == x;
    assert r1 == y;
  }

  /** Two entries taken, as a sub-multiset, from three pairwise distinct
      entries are different from each other. */
  lemma DistinctEntriesOfTopTwo(results: seq<SearchResult>, scored: seq<SearchResult>)
    requires |results| == 2 && |scored| == 3 && multiset(results) <= multiset(scored)
    requires scored[0] != scored[1] && scored[1] != scored[2] && scored[0] != scored[2]
    ensures results[0] != results[1]
  {
    var r := results[0];
    assert multiset(scored)[r] <= 1 by {
      assert scored == [scored[0]] + [scored[1]] + [scored[2]];
    }
    assert results == [r] + [results[1]];
    assert multiset(results) == multiset{r} + multiset{results[1]};
    assert multiset{results[1]}[r] == 0;
  }

  /** With k == 0, or nothing stored, a top-k answer is empty. */
  lemma TopKEmpty(results: seq<SearchResult>, scored: seq<SearchResult>, k: nat)
    requires IsTopK(results, scored, k) && (k == 0 || scored == [])
    ensures results == []
  {
  }
}
