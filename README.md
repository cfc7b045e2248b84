# Exhaustive-scan vector store, modelled in Dafny

This project models a small in-memory vector database written in Go. It has
three parts:

- an append-only store of labelled vectors (`VectorDB`, with `Insert`);
- a cosine-similarity metric with two degenerate-case guards: mismatched
  lengths score 0, and a zero squared norm scores 0;
- a top-K query. It scores every stored vector against the query vector,
  sorts the scored list by score, highest first, and keeps the first `topK`
  entries.

Modules:

- `Cosine` (`similarity.dfy`): the metric. `Dot` and `SquaredNorm` are the
  left-to-right sums the loop accumulates. `Similarity` is the metric as a
  function. `CosineSimilarity` is the loop itself, proved equal to
  `Similarity`. The lemmas cover non-negative norms, the zero-norm case,
  Cauchy-Schwarz, the range [-1, 1], symmetry and self-similarity 1.
- `VectorStore` (`vector_store.dfy`): the `Vector` and `SearchResult`
  records and the `VectorDB` class, whose `storage` field is a sequence that
  `Insert` reassigns. `Query` fills a fresh array with the scored entries,
  sorts that array in place with `SortBySimilarity`, and cuts it after `topK`
  entries. `IsTopK` states what a top-K answer is. The lemmas prove that the
  query's answer is one.
- `Scenario` (`scenario.dfy`): the demonstration program's data. Three
  vectors are stored, and the proof shows that a query for the two closest
  returns "King" and then "Queen".

Modelling choices:

- Components are integers. Read them as fixed-point versions of the stored
  `float32` values. So the dot product and the two squared norms are exact.
  Cosine similarity does not change when a vector is scaled by a positive
  factor. The scenario therefore uses the demonstration's values times 100.
- The final step `dot / (sqrt(normA) * sqrt(normB))` is replaced by the
  signed square of that cosine, `dot * |dot| / (normA * normB)`, a real
  number. `SimilarityIsSignedSquareOfCosine` proves that the metric is
  `c * |c|` for the true cosine `c` whenever no guard fires, and
  `SimilarityZeroIff` proves that it is 0 exactly when the cosine is 0 or a
  guard fires. `SignedSquareMonotone` proves that `c * |c|` keeps the
  order of any two cosines. So every comparison made by the sort, and
  therefore every ranking, is the same as with the cosine. The score also
  keeps the cosine's sign, zeros and range.
- The code sorts with Go's `sort.Slice`, which is not stable, so the code
  promises nothing about the order of equal scores. The model promises a
  sorted permutation and nothing about ties.
- `Insert` copies the `Vector` struct, but its `Values` slice still shares
  memory with the caller. The model treats vectors as values.
- `Query` requires `topK >= 0`. With a negative `topK`, the check
  `len(results) > topK` always holds, and `results[:topK]` panics
  (main.go:64-65).
- `Query` has no `modifies` clause, so Dafny checks that it leaves `storage`
  unchanged.

## Model

| member | source | states |
|---|---|---|
| `Cosine.CosineSimilarity` | main.go:36-50 | The loop's result equals the metric `Similarity(a, b)`. It is 0 when the lengths differ. It is 0 when either vector is all zeros or empty. It always lies in [-1, 1]. |
| `Cosine.SquaredNormNonNegative` | main.go:43-44 | The accumulated sum of squares, `Dot(a, a)`, is never negative. |
| `Cosine.SquaredNormZeroIff` | main.go:40-48 | A squared norm is 0 exactly when every component is 0, empty vectors included. So the zero-norm guard fires exactly for zero vectors. |
| `Cosine.DotSymmetric` | main.go:42 | The accumulated dot product does not depend on the order of its two arguments. |
| `Cosine.CauchySchwarz` | main.go:40-45 | The square of the accumulated dot product is at most the product of the two squared norms. The range claim rests on this. |
| `Cosine.SimilarityInRange` | main.go:34-35 | The metric lies in [-1, 1] for every input, degenerate ones included. |
| `Cosine.SimilarityOfZero` | main.go:46-48 | A zero or empty vector scores 0 against any vector, on either side. |
| `Cosine.SimilaritySymmetric` | main.go:36-49 | `Similarity(a, b) == Similarity(b, a)`, including the mismatched-length and zero-norm cases. |
| `Cosine.SimilarityOfSelf` | main.go:35 | A vector that is not all zeros scores exactly 1 against itself ("1 being identical"). |
| `Cosine.ScoreIsSignedSquareOfCosine` | main.go:49 | The model's score is `c * AbsReal(c)`, where `c` is the quotient of the dot product by the product of the square roots of the norms. |
| `Cosine.SimilarityIsSignedSquareOfCosine` | main.go:36-49 | For equal-length vectors that are not all zeros, and any positive square roots `sa`, `sb` of their squared norms, the metric equals `c * AbsReal(c)` with `c = Dot(a, b) / (sa * sb)`, the cosine of main.go:49. |
| `Cosine.SimilarityZeroIff` | main.go:36-49 | The metric is 0 exactly when the lengths differ, a vector is all zeros, or the dot product is 0, which are exactly the cases where the code returns a cosine of 0. |
| `Cosine.SignedSquareMonotone` | main.go:49 | `x <= y` exactly when `x * AbsReal(x) <= y * AbsReal(y)`. Ranking by score is ranking by cosine. |
| `VectorStore.VectorDB.constructor` | main.go:24-28 | A new store is empty. |
| `VectorStore.VectorDB.Insert` | main.go:30-32 | The new storage is the old storage with `v` appended. Its length grows by one, and every earlier entry is unchanged. |
| `VectorStore.VectorDB.Query` | main.go:52-68 | For `topK >= 0`, the answer is a top-K answer over the scored store (`IsTopK`). It has exactly min(topK, store size) entries and is sorted by score, highest first. It is a sub-multiset of the scored list. Every kept entry scores at least as high as every entry left out. Each entry pairs a stored vector with its own similarity to the query. When topK is at least the store size, the answer holds every stored vector exactly as often as the store does. The store is not modified. |
| `VectorStore.SortBySimilarity` | main.go:60-62 | The array is sorted in place by score, highest first, and is a permutation of its old contents. |
| `VectorStore.SortedPrefixIsTopK` | main.go:60-67 | The first `min(k, n)` entries of any sorted permutation of the scored list form a top-k answer. |
| `VectorStore.TopKEntriesAreScored` | main.go:55-58 | Every entry of a top-k answer over the scored store is a stored vector paired with `Similarity(query, its values)`. |
| `VectorStore.TopKOfAll` | main.go:64-67 | When k is at least the number of scored entries, a top-k answer has the same multiset as the scored list. Each stored vector comes back exactly once per copy stored. |
| `VectorStore.TopKKeepsHigher` | main.go:60-66 | A top-k answer keeps every scored entry that scores strictly higher than some entry it kept. |
| `VectorStore.TopKEmpty` | main.go:53-67 | With `k == 0`, or with an empty store, a top-k answer is empty. |
| `VectorStore.TopTwoOfThree` | main.go:60-66 | With three scored entries of distinct scores, the top-2 answer is exactly the two highest, in order. |
| `Scenario.ScenarioScores` | main.go:74-79 | Against the query, King scores above Queen and Queen above Apple. |
| `Scenario.KingThenQueen` | main.go:71-80 | Inserting King, Queen and Apple, then querying with topK 2, returns the ids "1" and "2", in that order. |

## Left out

- Floating point is not modelled. This covers the `float32` product computed
  before widening (main.go:42-44), `float64` rounding of the three sums, and
  `math.Sqrt` with the final division (main.go:49). Components are exact
  integers, and the sums are exact.
- Cosine.CosineSimilarity: returns the signed square of the cosine,
  `dot * |dot| / (normA * normB)`, not the cosine itself, because a square
  root of a real is not computable here. `ScoreIsSignedSquareOfCosine` and
  `SignedSquareMonotone` tie the two together. Zeros, sign, range and every
  ranking agree. The score printed for a result would differ.
- VectorStore.SortBySimilarity: it is an insertion sort standing in for
  `sort.Slice`. It promises only "sorted and a permutation", as `sort.Slice`
  does. The order of equal scores is not specified.
- VectorStore.VectorDB.Query: the Go result is a slice that shares its
  backing array with the sorted buffer. The model returns a sequence value,
  so this aliasing is not captured.
- A negative `topK` panics at `results[:topK]` (main.go:65). It is excluded by
  a precondition, not modelled.
- Vectors are values. The Go `Values` slice stored by `Insert` aliases the
  caller's slice. Later mutation through the caller is not modelled.
- `main` is not modelled: its console output (main.go:82-86) is I/O. Its data
  and its query (main.go:71-80) are the `Scenario` module.
- The code checks neither that IDs are unique nor that stored vectors share a
  dimension. The model does not check either.
