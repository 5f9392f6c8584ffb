/** Realigning the answers of embedding and reranking providers, which may come in any order. */
module Providers {
  import opened Evidence
  import opened Sequences
  import opened Wrappers

  // ----- Answers that name their positions -----

  /** The indexes an answer must have: one for each position. */
  function Range(n: nat): set<int> {
    Elements(seq(n, i => i))
  }

  lemma RangeSize(n: nat)
    ensures |Range(n)| == n && forall i :: i in Range(n) <==> 0 <= i < n
  {
    var positions := seq(n, i => i);
    DistinctIsCount(positions);
    forall i | 0 <= i < n
      ensures i in positions
    {
      assert positions[i] == i;
    }
  }

  function Indexes<T>(items: seq<T>, index: T -> int): (indexes: seq<int>)
    ensures |indexes| == |items| && forall i :: 0 <= i < |items| ==> indexes[i] == index(items[i])
  {
    seq(|items|, i requires 0 <= i < |items| => index(items[i]))
  }

  /** As many items as positions, and every position named: the test both providers are put to. */
  predicate NamesEachPosition<T>(items: seq<T>, index: T -> int, n: nat) {
    |items| == n && Elements(Indexes(items, index)) == Range(n)
  }

  lemma PositionsInRange<T>(items: seq<T>, index: T -> int, n: nat, i: nat)
    requires NamesEachPosition(items, index, n) && i < n
    ensures 0 <= index(items[i]) < n
  {
    RangeSize(n);
    assert Indexes(items, index)[i] in Elements(Indexes(items, index));
  }

  /** By the pigeonhole principle each position is then named exactly once. */
  lemma NamedOnce<T>(items: seq<T>, index: T -> int, n: nat)
    requires NamesEachPosition(items, index, n)
    ensures Distinct(Indexes(items, index))
  {
    RangeSize(n);
    DistinctIsCount(Indexes(items, index));
  }

  ghost predicate Names<T>(items: seq<T>, index: T -> int, k: int) {
    exists i :: 0 <= i < |items| && index(items[i]) == k
  }

  /** That is the case exactly if there are as many items as positions and each position is named by some. */
  lemma NamesMeaning<T>(items: seq<T>, index: T -> int, n: nat)
    ensures NamesEachPosition(items, index, n) <==> |items| == n && forall k :: 0 <= k < n ==> Names(items, index, k)
  {
    RangeSize(n);
    var indexes := Indexes(items, index);
    forall k
      ensures k in Elements(indexes) <==> Names(items, index, k)
    {
      if k in Elements(indexes) {
        var i :| 0 <= i < |indexes| && indexes[i] == k;
        assert index(items[i]) == k;
      }
      if Names(items, index, k) {
        var i :| 0 <= i < |items| && index(items[i]) == k;
        assert indexes[i] == k;
      }
    }
    if |items| == n && forall k :: 0 <= k < n ==> Names(items, index, k) {
      DistinctIsCount(indexes);
      SubsetOfSameSize(Range(n), Elements(indexes));
    }
  }

  lemma SubsetOfSameSize(part: set<int>, whole: set<int>)
    requires part <= whole && |whole| <= |part|
    ensures part == whole
  {
    assert whole == part + (whole - part);
    assert |whole| == |part| + |whole - part|;
  }

  lemma IndexesOfPermutation<T>(items: seq<T>, other: seq<T>, index: T -> int)
    requires multiset(items) == multiset(other)
    ensures Elements(Indexes(items, index)) <= Elements(Indexes(other, index))
  {
    forall k | k in Elements(Indexes(items, index))
      ensures k in Elements(Indexes(other, index))
    {
      var i :| 0 <= i < |items| && Indexes(items, index)[i] == k;
      assert items[i] in multiset(other);
      var j :| 0 <= j < |other| && other[j] == items[i];
      assert Indexes(other, index)[j] == k;
    }
  }

  lemma PermutationNamesEachPosition<T>(items: seq<T>, other: seq<T>, index: T -> int, n: nat)
    requires NamesEachPosition(items, index, n) && multiset(items) == multiset(other)
    ensures NamesEachPosition(other, index, n)
  {
    assert |multiset(items)| == |multiset(other)|;
    IndexesOfPermutation(items, other, index);
    IndexesOfPermutation(other, items, index);
  }

  function ByIndex<T>(index: T -> int): T -> real {
    x => index(x) as real
  }

  /** Sorting such an answer by index puts every item in its place. */
  lemma SortedInPlace<T>(items: seq<T>, index: T -> int, n: nat, k: nat)
    requires NamesEachPosition(items, index, n) && k < n
    ensures |SortBy(items, ByIndex(index))| == n && index(SortBy(items, ByIndex(index))[k]) == k
  {
    var sorted := SortBy(items, ByIndex(index));
    SortByMeaning(items, ByIndex(index));
    PermutationNamesEachPosition(items, sorted, index, n);
    NamedOnce(sorted, index, n);
    forall i | 0 <= i < n
      ensures 0 <= Indexes(sorted, index)[i] < n
    {
      PositionsInRange(sorted, index, n, i);
    }
    forall i, j | 0 <= i < j < n
      ensures Indexes(sorted, index)[i] <= Indexes(sorted, index)[j]
    {
      assert ByIndex(index)(sorted[i]) <= ByIndex(index)(sorted[j]);
    }
    SortedRange(Indexes(sorted, index), n, k);
  }

  // ----- Embeddings -----

  type Vector = seq<real>

  /** One item of an embedding answer; no vector means it is not a list of finite numbers. */
  datatype Embedded = Embedded(index: int, vector: Option<Vector>)

  /** The count of tokens an answer reports: none, an integer, or something that is not one. */
  datatype TokenCount = Unreported | Reported(count: int) | Malformed

  datatype EmbeddingAnswer = EmbeddingAnswer(data: seq<Embedded>, tokens: TokenCount)

  const BATCH := 32

  function IndexOf(item: Embedded): int {
    item.index
  }

  function Normalized(v: Vector, length: real): Vector
    requires length != 0.0
  {
    seq(|v|, i requires 0 <= i < |v| => v[i] / length)
  }

  /** A vector of the right dimension that has a length to divide by. */
  predicate Usable(item: Embedded, dimensions: nat, norm: Vector -> real) {
    item.vector.Some? && |item.vector.value| == dimensions && norm(item.vector.value) != 0.0
  }

  /** No answer means that the request failed for good, or came back without data. */
  predicate Accepts(answer: Option<EmbeddingAnswer>, size: nat, dimensions: nat, norm: Vector -> real) {
    && answer.Some? && NamesEachPosition(answer.value.data, IndexOf, size)
    && (forall item :: item in answer.value.data ==> Usable(item, dimensions, norm))
    && !answer.value.tokens.Malformed?
  }

  /** Every component divided by the length. */
  ghost predicate IsScaled(vector: Vector, raw: Vector, length: real) {
    length != 0.0 && |vector| == |raw| && forall d :: 0 <= d < |raw| ==> vector[d] == raw[d] / length
  }

  /** The vector is the normalised one that the answer reports for position `k`, and only one is. */
  ghost predicate IsReported(vector: Vector, answer: EmbeddingAnswer, k: nat, dimensions: nat, norm: Vector -> real) {
    exists i :: 0 <= i < |answer.data|
                && answer.data[i].index == k && Usable(answer.data[i], dimensions, norm)
                && IsScaled(vector, answer.data[i].vector.value, norm(answer.data[i].vector.value))
                && forall j :: 0 <= j < |answer.data| && answer.data[j].index == k ==> j == i
  }

  /** An answer is accepted exactly if there is one, with as many items as texts and one for each position,
      each a list of `dimensions` finite numbers that has a length, and without a malformed count of tokens. */
  lemma AcceptsMeaning(answer: Option<EmbeddingAnswer>, size: nat, dimensions: nat, norm: Vector -> real)
    ensures Accepts(answer, size, dimensions, norm) <==>
      && answer.Some? && |answer.value.data| == size
      && (forall k :: 0 <= k < size ==> Names(answer.value.data, IndexOf, k))
      && (forall item :: item in answer.value.data ==>
            item.vector.Some? && |item.vector.value| == dimensions && norm(item.vector.value) != 0.0)
      && !answer.value.tokens.Malformed?
  {
    if answer.Some? {
      NamesMeaning(answer.value.data, IndexOf, size);
    }
  }

  function BatchSize(count: nat, batch: nat): nat {
    if count <= batch * BATCH then 0 else if count - batch * BATCH < BATCH then count - batch * BATCH else BATCH
  }

  lemma ItemIsReported(answer: EmbeddingAnswer, size: nat, dimensions: nat, norm: Vector -> real, k: nat)
    requires Accepts(Some(answer), size, dimensions, norm) && k < size
    ensures var sorted := SortBy(answer.data, ByIndex(IndexOf));
      && |sorted| == size && Usable(sorted[k], dimensions, norm)
      && IsReported(Normalized(sorted[k].vector.value, norm(sorted[k].vector.value)), answer, k, dimensions, norm)
  {
    var sorted := SortBy(answer.data, ByIndex(IndexOf));
    SortedInPlace(answer.data, IndexOf, size, k);
    SortByMeaning(answer.data, ByIndex(IndexOf));
    assert sorted[k] in multiset(answer.data);
    var i :| 0 <= i < |answer.data| && answer.data[i] == sorted[k];
    NamedOnce(answer.data, IndexOf, size);
    forall j | 0 <= j < |answer.data| && answer.data[j].index == k
      ensures j == i
    {
      assert Indexes(answer.data, IndexOf)[j] == Indexes(answer.data, IndexOf)[i];
    }
    assert answer.data[i].index == k;
  }

  lemma UnusableIsRefused(answer: EmbeddingAnswer, size: nat, dimensions: nat, norm: Vector -> real, k: nat)
    requires k < |SortBy(answer.data, ByIndex(IndexOf))|
    requires !Usable(SortBy(answer.data, ByIndex(IndexOf))[k], dimensions, norm)
    ensures !Accepts(Some(answer), size, dimensions, norm)
  {
    var sorted := SortBy(answer.data, ByIndex(IndexOf));
    SortByMeaning(answer.data, ByIndex(IndexOf));
    assert sorted[k] in multiset(answer.data);
  }

  lemma ReadIsReported(answer: EmbeddingAnswer, size: nat, dimensions: nat, norm: Vector -> real, read: seq<Vector>)
    requires NamesEachPosition(answer.data, IndexOf, size)
    requires var sorted := SortBy(answer.data, ByIndex(IndexOf));
      |read| == |sorted| && forall j :: 0 <= j < |sorted| ==>
        && Usable(sorted[j], dimensions, norm)
        && read[j] == Normalized(sorted[j].vector.value, norm(sorted[j].vector.value))
    ensures |read| == size && (Accepts(Some(answer), size, dimensions, norm) <==> !answer.tokens.Malformed?)
    ensures !answer.tokens.Malformed? ==> forall k :: 0 <= k < size ==> IsReported(read[k], answer, k, dimensions, norm)
  {
    var sorted := SortBy(answer.data, ByIndex(IndexOf));
    SortByMeaning(answer.data, ByIndex(IndexOf));
    forall item | item in answer.data
      ensures Usable(item, dimensions, norm)
    {
      assert item in multiset(sorted);
    }
    forall k | 0 <= k < size && !answer.tokens.Malformed?
      ensures IsReported(read[k], answer, k, dimensions, norm)
    {
      ItemIsReported(answer, size, dimensions, norm, k);
    }
  }

  /** The reported vector does not depend on the order of the answer. */
  lemma AnswerOrderIsIrrelevant(one: EmbeddingAnswer, other: EmbeddingAnswer, size: nat, dimensions: nat,
                                norm: Vector -> real, k: nat, v: Vector, w: Vector)
    requires multiset(one.data) == multiset(other.data)
    requires IsReported(v, one, k, dimensions, norm) && IsReported(w, other, k, dimensions, norm)
    ensures v == w
  {
    var i :| 0 <= i < |one.data| && one.data[i].index == k && Usable(one.data[i], dimensions, norm)
             && IsScaled(v, one.data[i].vector.value, norm(one.data[i].vector.value));
    assert one.data[i] in multiset(other.data);
    var j :| 0 <= j < |other.data| && other.data[j] == one.data[i];
  }

  function BatchCount(count: nat): nat {
    (count + BATCH - 1) / BATCH
  }

  /** Were the answers to the first `batches` batches of `count` texts acceptable? */
  predicate AllAccepted(answers: nat -> Option<EmbeddingAnswer>, count: nat, batches: nat, dimensions: nat,
                        norm: Vector -> real) {
    batches == 0
    || (AllAccepted(answers, count, batches - 1, dimensions, norm)
        && Accepts(answers(batches - 1), BatchSize(count, batches - 1), dimensions, norm))
  }

  function TokensOf(answer: Option<EmbeddingAnswer>): int {
    if answer.Some? && answer.value.tokens.Reported? then answer.value.tokens.count else 0
  }

  function TokensUpTo(answers: nat -> Option<EmbeddingAnswer>, batches: nat): int {
    if batches == 0 then 0 else TokensUpTo(answers, batches - 1) + TokensOf(answers(batches - 1))
  }

  /** Did the answers to the first `batches` batches all report their tokens? */
  predicate AllReported(answers: nat -> Option<EmbeddingAnswer>, batches: nat) {
    batches == 0
    || (AllReported(answers, batches - 1)
        && answers(batches - 1).Some? && answers(batches - 1).value.tokens != Unreported)
  }

  lemma {:induction false} NotAllAccepted(answers: nat -> Option<EmbeddingAnswer>, count: nat, batch: nat, batches: nat,
                                          dimensions: nat, norm: Vector -> real)
    requires batch < batches && !Accepts(answers(batch), BatchSize(count, batch), dimensions, norm)
    ensures !AllAccepted(answers, count, batches, dimensions, norm)
  {
    if batch < batches - 1 {
      NotAllAccepted(answers, count, batch, batches - 1, dimensions, norm);
    }
  }

  /** The vector belongs at position `i` of all the texts. */
  ghost predicate InPlace(vector: Vector, answers: nat -> Option<EmbeddingAnswer>, i: nat, dimensions: nat,
                          norm: Vector -> real) {
    var answer := answers(i / BATCH);
    answer.Some? && IsReported(vector, answer.value, i % BATCH, dimensions, norm)
  }

  lemma BatchInPlace(before: seq<Vector>, read: seq<Vector>, answers: nat -> Option<EmbeddingAnswer>, batch: nat,
                     dimensions: nat, norm: Vector -> real)
    requires |before| == batch * BATCH && |read| <= BATCH && answers(batch).Some?
    requires forall i :: 0 <= i < |before| ==> InPlace(before[i], answers, i, dimensions, norm)
    requires forall k :: 0 <= k < |read| ==> IsReported(read[k], answers(batch).value, k, dimensions, norm)
    ensures forall i :: 0 <= i < |before + read| ==> InPlace((before + read)[i], answers, i, dimensions, norm)
  {
    forall i | |before| <= i < |before| + |read|
      ensures i / BATCH == batch && i % BATCH == i - |before|
    {
    }
  }

  class HTTPEmbeddingProvider {
    const dimensions: nat
    const norm: Vector -> real
    var inputTokens: int
    var requests: nat
    var usageKnown: bool

    constructor (dimensions: nat, norm: Vector -> real)
      ensures this.dimensions == dimensions && this.norm == norm && inputTokens == 0 && requests == 0 && usageKnown
    {
      this.dimensions, this.norm, inputTokens, requests, usageKnown := dimensions, norm, 0, 0, true;
    }

    /** One batch's vectors in the order of its texts, or none if the answer is not acceptable. */
    method ReadBatch(answer: EmbeddingAnswer, size: nat) returns (vectors: Option<seq<Vector>>)
      ensures vectors.Some? <==> Accepts(Some(answer), size, dimensions, norm)
      ensures vectors.Some? ==>
        && |vectors.value| == size
        && forall k :: 0 <= k < size ==> IsReported(vectors.value[k], answer, k, dimensions, norm)
    {
      if !NamesEachPosition(answer.data, IndexOf, size) {
        return None;
      }
      var sorted := SortBy(answer.data, ByIndex(IndexOf));
      var read: seq<Vector> := [];
      for k := 0 to |sorted|
        invariant |read| == k
        invariant forall j :: 0 <= j < k ==> Usable(sorted[j], dimensions, norm)
        invariant forall j :: 0 <= j < k ==> read[j] == Normalized(sorted[j].vector.value, norm(sorted[j].vector.value))
      {
        if !Usable(sorted[k], dimensions, norm) {
          UnusableIsRefused(answer, size, dimensions, norm, k);
          return None;
        }
        read := read + [Normalized(sorted[k].vector.value, norm(sorted[k].vector.value))];
      }
      ReadIsReported(answer, size, dimensions, norm, read);
      vectors := if answer.tokens.Malformed? then None else Some(read);
    }

    /** The texts go out in batches; `answers(b)` is what batch `b` comes back with. */
    method Embed(texts: seq<string>, answers: nat -> Option<EmbeddingAnswer>) returns (result: Option<seq<Vector>>)
      modifies this
      ensures result.Some? <==> AllAccepted(answers, |texts|, BatchCount(|texts|), dimensions, norm)
      ensures result.Some? ==> |result.value| == |texts| && forall i :: 0 <= i < |texts| ==>
        InPlace(result.value[i], answers, i, dimensions, norm)
      ensures old(requests) <= requests && (result.Some? ==> requests == old(requests) + BatchCount(|texts|))
      ensures AllAccepted(answers, |texts|, requests - old(requests), dimensions, norm)
      ensures inputTokens == old(inputTokens) + TokensUpTo(answers, requests - old(requests))
      ensures usageKnown <==> old(usageKnown) && AllReported(answers, requests - old(requests))
    {
      var vectors: seq<Vector> := [];
      var batch: nat := 0;
      while batch * BATCH < |texts|
        invariant |vectors| == if batch * BATCH <= |texts| then batch * BATCH else |texts|
        invariant batch <= BatchCount(|texts|)
        invariant AllAccepted(answers, |texts|, batch, dimensions, norm)
        invariant forall i :: 0 <= i < |vectors| ==> InPlace(vectors[i], answers, i, dimensions, norm)
        invariant requests == old(requests) + batch
        invariant inputTokens == old(inputTokens) + TokensUpTo(answers, batch)
        invariant usageKnown <==> old(usageKnown) && AllReported(answers, batch)
        decreases |texts| - batch * BATCH
      {
        var answer := answers(batch);
        var size := BatchSize(|texts|, batch);
        var read := None;
        if answer.Some? {
          read := ReadBatch(answer.value, size);
        }
        if read.None? {
          NotAllAccepted(answers, |texts|, batch, BatchCount(|texts|), dimensions, norm);
          return None;
        }
        BatchInPlace(vectors, read.value, answers, batch, dimensions, norm);
        vectors := vectors + read.value;
        usageKnown := usageKnown && answer.value.tokens != Unreported;
        inputTokens := inputTokens + TokensOf(answer);
        requests := requests + 1;
        batch := batch + 1;
      }
      result := Some(vectors);
    }
  }

  // ----- Reranking -----

  /** One item of a ranking: -1 stands for an index that is no integer, and no score for one that is no
      finite number. */
  datatype Relevance = Relevance(index: int, score: Option<real>)

  datatype RerankAnswer = NoAnswer | WithoutResults | Ranked(results: seq<Relevance>)

  function RelevanceIndex(item: Relevance): int {
    item.index
  }

  function ByDescendingScore(item: Relevance): real {
    if item.score.Some? then -item.score.value else 0.0
  }

  predicate Ranks(answer: RerankAnswer, n: nat) {
    && answer.Ranked? && NamesEachPosition(answer.results, RelevanceIndex, n)
    && forall item :: item in answer.results ==> item.score.Some?
  }

  function HitsOf(order: seq<Relevance>, hits: seq<Hit>): seq<Hit>
    requires forall item :: item in order ==> 0 <= item.index < |hits|
  {
    seq(|order|, i requires 0 <= i < |order| => assert order[i] in order;
                                                hits[order[i].index].(rerank := order[i].score))
  }

  /** A ranking is accepted exactly if it has as many items as hits and one for each, all with finite scores. */
  lemma RanksMeaning(answer: RerankAnswer, n: nat)
    ensures Ranks(answer, n) <==>
      && answer.Ranked? && |answer.results| == n
      && (forall k :: 0 <= k < n ==> Names(answer.results, RelevanceIndex, k))
      && forall item :: item in answer.results ==> item.score.Some?
  {
    if answer.Ranked? {
      NamesMeaning(answer.results, RelevanceIndex, n);
    }
  }

  /** The items of an answer in descending order of score, equal scores as they came: a permutation of
      them that names each of `n` positions once. */
  ghost predicate IsRanking(order: seq<Relevance>, results: seq<Relevance>, n: nat) {
    && |order| == n && multiset(order) == multiset(results)
    && Distinct(Indexes(order, RelevanceIndex)) && Elements(Indexes(order, RelevanceIndex)) == Range(n)
    && (forall item :: item in order ==> 0 <= item.index < n && item.score.Some?)
    && (forall i, j :: 0 <= i < j < n ==> order[i].score.value >= order[j].score.value)
    && forall score :: WithKey(order, ByDescendingScore, score) == WithKey(results, ByDescendingScore, score)
  }

  class HTTPReranker {
    var requests: nat

    constructor ()
      ensures requests == 0
    {
      requests := 0;
    }

    /** An accepted answer reorders the hits: each comes back once, with the score reported for it,
        in descending order of score; equal scores keep the order of the answer. */
    method Rerank(hits: seq<Hit>, answer: RerankAnswer) returns (reranked: Option<seq<Hit>>,
                  ghost order: seq<Relevance>)
      modifies this
      ensures hits == [] ==> reranked == Some([]) && requests == old(requests)
      ensures hits != [] ==> requests == old(requests) + if answer.NoAnswer? then 0 else 1
      ensures hits != [] ==> (reranked.Some? <==> Ranks(answer, |hits|))
      ensures hits != [] && reranked.Some? ==>
        && IsRanking(order, answer.results, |hits|) && |reranked.value| == |hits|
        && (forall k :: 0 <= k < |hits| ==> reranked.value[k] == hits[order[k].index].(rerank := order[k].score))
    {
      order := [];
      if hits == [] {
        return Some([]), order;
      }
      if answer.NoAnswer? {
        return None, order;
      }
      requests := requests + 1;
      if answer.WithoutResults? {
        return None, order;
      }
      var results := answer.results;
      if !NamesEachPosition(results, RelevanceIndex, |hits|) {
        return None, order;
      }
      if exists item :: item in results && item.score.None? {
        return None, order;
      }
      var sorted := SortBy(results, ByDescendingScore);
      RankingMeaning(results, sorted, |hits|);
      order := sorted;
      reranked := Some(HitsOf(sorted, hits));
    }
  }

  lemma RankingMeaning(results: seq<Relevance>, sorted: seq<Relevance>, n: nat)
    requires Ranks(Ranked(results), n) && sorted == SortBy(results, ByDescendingScore)
    ensures IsRanking(sorted, results, n)
  {
    SortByMeaning(results, ByDescendingScore);
    PermutationNamesEachPosition(results, sorted, RelevanceIndex, n);
    NamedOnce(sorted, RelevanceIndex, n);
    forall score
      ensures WithKey(sorted, ByDescendingScore, score) == WithKey(results, ByDescendingScore, score)
    {
      SortByIsStable(results, ByDescendingScore, score);
    }
    forall item | item in sorted
      ensures 0 <= item.index < n && item.score.Some?
    {
      assert item in multiset(results);
      var i :| 0 <= i < n && sorted[i] == item;
      PositionsInRange(sorted, RelevanceIndex, n, i);
    }
    forall i, j | 0 <= i < j < n
      ensures sorted[i].score.value >= sorted[j].score.value
    {
      assert ByDescendingScore(sorted[i]) <= ByDescendingScore(sorted[j]);
    }
  }
}
