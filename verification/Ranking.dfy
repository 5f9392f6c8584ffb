/** Weighted reciprocal rank fusion of a lexical and a vector ranking. */
module Ranking {
  import opened Evidence
  import opened Sequences
  import opened Wrappers

  datatype Chunk = Chunk(id: nat, ordinal: nat, content: NonEmpty, citation: Citation)

  datatype RankedChunk = RankedChunk(chunk: Chunk, score: real)

  const LEXICAL_WEIGHT := 3.0
  const VECTOR_WEIGHT := 1.0

  ghost predicate DistinctChunks(ranking: seq<RankedChunk>) {
    forall i, j :: 0 <= i < j < |ranking| ==> ranking[i].chunk.id != ranking[j].chunk.id
  }

  function IdsOf(ranking: seq<RankedChunk>): set<nat> {
    set r | r in ranking :: r.chunk.id
  }

  /** What a ranking contributes to the score of a chunk. */
  function Share(ranking: seq<RankedChunk>, weight: real, k: nat, id: nat, first: nat): real
    requires k > 0
  {
    if ranking == [] then 0.0
    else (if ranking[0].chunk.id == id then weight / ((k + first) as real) else 0.0)
         + Share(ranking[1..], weight, k, id, first + 1)
  }

  /** Ranks count from one. */
  function FusedScore(lexical: seq<RankedChunk>, vector: seq<RankedChunk>, k: nat, id: nat): real
    requires k > 0
  {
    Share(lexical, LEXICAL_WEIGHT, k, id, 1) + Share(vector, VECTOR_WEIGHT, k, id, 1)
  }

  lemma {:induction false} ShareAbsent(ranking: seq<RankedChunk>, weight: real, k: nat, id: nat, first: nat)
    requires k > 0 && id !in IdsOf(ranking)
    ensures Share(ranking, weight, k, id, first) == 0.0
  {
    if ranking != [] {
      assert ranking[0] in ranking && forall r :: r in ranking[1..] ==> r in ranking;
      ShareAbsent(ranking[1..], weight, k, id, first + 1);
    }
  }

  /** A chunk at index `i` of a ranking without repeats gets exactly its own share. */
  lemma {:induction false} ShareAt(ranking: seq<RankedChunk>, weight: real, k: nat, first: nat, i: nat)
    requires k > 0 && DistinctChunks(ranking) && i < |ranking|
    ensures Share(ranking, weight, k, ranking[i].chunk.id, first) == weight / ((k + first + i) as real)
  {
    var id := ranking[i].chunk.id;
    if i == 0 {
      assert id !in IdsOf(ranking[1..]) by {
        forall r | r in ranking[1..]
          ensures r.chunk.id != id
        {
          var j :| 0 <= j < |ranking[1..]| && ranking[1..][j] == r;
          assert ranking[j + 1] == r;
        }
      }
      ShareAbsent(ranking[1..], weight, k, id, first + 1);
    } else {
      assert ranking[0].chunk.id != id;
      ShareAt(ranking[1..], weight, k, first + 1, i - 1);
    }
  }

  lemma {:induction false} ShareSnoc(ranking: seq<RankedChunk>, last: RankedChunk, weight: real, k: nat, id: nat,
                                     first: nat)
    requires k > 0
    ensures Share(ranking + [last], weight, k, id, first)
         == Share(ranking, weight, k, id, first)
            + if last.chunk.id == id then weight / ((k + first + |ranking|) as real) else 0.0
  {
    if ranking == [] {
      assert ranking + [last] == [last] && [last][1..] == [];
    } else {
      assert (ranking + [last])[1..] == ranking[1..] + [last];
      ShareSnoc(ranking[1..], last, weight, k, id, first + 1);
    }
  }

  // ----- The order -----

  type Scored = (nat, real)

  /** Higher score first, ties by id. */
  predicate Before(a: Scored, b: Scored) {
    a.1 > b.1 || (a.1 == b.1 && a.0 < b.0)
  }

  method SortFused(fused: map<nat, real>) returns (order: seq<Scored>)
    ensures Ascends(order, Before)
    ensures forall x :: x in order <==> x.0 in fused && x.1 == fused[x.0]
  {
    order := [];
    var rest := fused.Keys;
    while rest != {}
      invariant Ascends(order, Before) && rest <= fused.Keys
      invariant forall x :: x in order <==> x.0 in fused.Keys - rest && x.1 == fused[x.0]
      decreases rest
    {
      var id :| id in rest;
      order := Insert(order, (id, fused[id]), Before);
      rest := rest - {id};
    }
  }

  /** `sums` is `fused` with a ranking's shares added. */
  ghost predicate IsSum(sums: map<nat, real>, fused: map<nat, real>, ranking: seq<RankedChunk>, weight: real, k: nat)
    requires k > 0
  {
    && sums.Keys == fused.Keys + IdsOf(ranking)
    && forall id :: id in sums ==>
         sums[id] == (if id in fused then fused[id] else 0.0) + Share(ranking, weight, k, id, 1)
  }

  lemma AddOne(sums: map<nat, real>, fused: map<nat, real>, ranking: seq<RankedChunk>, last: RankedChunk,
               weight: real, k: nat, share: real, after: map<nat, real>)
    requires k > 0 && IsSum(sums, fused, ranking, weight, k) && share == weight / ((k + 1 + |ranking|) as real)
    requires var id := last.chunk.id; after == sums[id := (if id in sums then sums[id] else 0.0) + share]
    ensures IsSum(after, fused, ranking + [last], weight, k)
  {
    var id := last.chunk.id;
    assert IdsOf(ranking + [last]) == IdsOf(ranking) + {id};
    if id !in sums {
      ShareAbsent(ranking, weight, k, id, 1);
    }
    forall other | other in after
      ensures after[other]
           == (if other in fused then fused[other] else 0.0) + Share(ranking + [last], weight, k, other, 1)
    {
      ShareSnoc(ranking, last, weight, k, other, 1);
    }
  }

  /** One pass of the accumulation loop over one ranking. */
  method Accumulate(fused: map<nat, real>, ranking: seq<RankedChunk>, weight: real, k: nat)
    returns (sums: map<nat, real>)
    requires k > 0
    ensures IsSum(sums, fused, ranking, weight, k)
  {
    sums := fused;
    ghost var done := [];
    for i := 0 to |ranking|
      invariant done == ranking[..i] && IsSum(sums, fused, done, weight, k)
    {
      var id := ranking[i].chunk.id;
      var share := weight / ((k + 1 + i) as real);
      ghost var before := sums;
      sums := sums[id := (if id in sums then sums[id] else 0.0) + share];
      AddOne(before, fused, done, ranking[i], weight, k, share, sums);
      TakeNext(ranking, i);
      done := done + [ranking[i]];
    }
    assert done == ranking;
  }

  /** The fused order: every chunk of either ranking once, by fused score and then id. */
  method Fuse(lexical: seq<RankedChunk>, vector: seq<RankedChunk>, k: nat) returns (order: seq<Scored>)
    requires k > 0
    ensures Ascends(order, Before)
    ensures forall x :: x in order <==>
      x.0 in IdsOf(lexical) + IdsOf(vector) && x.1 == FusedScore(lexical, vector, k, x.0)
  {
    var fused := Accumulate(map[], lexical, LEXICAL_WEIGHT, k);
    forall id | id !in IdsOf(lexical)
      ensures Share(lexical, LEXICAL_WEIGHT, k, id, 1) == 0.0
    {
      ShareAbsent(lexical, LEXICAL_WEIGHT, k, id, 1);
    }
    fused := Accumulate(fused, vector, VECTOR_WEIGHT, k);
    order := SortFused(fused);
  }

  /** The order is determined by what is in it. */
  lemma {:induction false} OrderIsUnique(one: seq<Scored>, other: seq<Scored>)
    requires Ascends(one, Before) && Ascends(other, Before) && forall x :: x in one <==> x in other
    ensures one == other
    decreases |one|
  {
    if one == [] {
      NonEmptyHasMember(other);
    } else {
      NonEmptyHasMember(one);
      assert one[0] in other;
      assert one[0] == other[0] by {
        assert other[0] in one;
        var i :| 0 <= i < |other| && other[i] == one[0];
        var j :| 0 <= j < |one| && one[j] == other[0];
        assert i > 0 ==> Before(other[0], one[0]);
        assert j > 0 ==> Before(one[0], other[0]);
      }
      forall x
        ensures x in one[1..] <==> x in other[1..]
      {
        assert x in one <==> x == one[0] || x in one[1..];
        assert x in other <==> x == other[0] || x in other[1..];
        assert x == one[0] ==> x !in one[1..] && x !in other[1..];
      }
      OrderIsUnique(one[1..], other[1..]);
    }
  }

  lemma NonEmptyHasMember(order: seq<Scored>)
    ensures order != [] ==> order[0] in order
  {
  }

  lemma Reciprocal(a: real, x: real, b: real, y: real)
    requires x > 0.0 && y > 0.0
    ensures a / x > b / y <==> a * y > b * x
    ensures a / x == b / y <==> a * y == b * x
  {
    assert a / x * (x * y) == a * y && b / y * (x * y) == b * x by {
      assert a / x * x == a && b / y * y == b;
    }
    assert x * y > 0.0;
  }

  /** A lexical candidate at rank `i + 1` against a vector-only one at rank `j + 1`. */
  lemma LexicalAgainstVector(lexical: seq<RankedChunk>, vector: seq<RankedChunk>, k: nat, i: nat, j: nat)
    requires k > 0 && DistinctChunks(lexical) && DistinctChunks(vector)
    requires i < |lexical| && j < |vector| && vector[j].chunk.id !in IdsOf(lexical)
    ensures FusedScore(lexical, vector, k, lexical[i].chunk.id) >= 3.0 / ((k + 1 + i) as real)
    ensures FusedScore(lexical, vector, k, vector[j].chunk.id) == 1.0 / ((k + 1 + j) as real)
  {
    var id := lexical[i].chunk.id;
    ShareAt(lexical, LEXICAL_WEIGHT, k, 1, i);
    ShareNonNegative(vector, VECTOR_WEIGHT, k, id, 1);
    ShareAt(vector, VECTOR_WEIGHT, k, 1, j);
    ShareAbsent(lexical, LEXICAL_WEIGHT, k, vector[j].chunk.id, 1);
  }

  lemma {:induction false} ShareNonNegative(ranking: seq<RankedChunk>, weight: real, k: nat, id: nat, first: nat)
    requires k > 0 && weight >= 0.0
    ensures Share(ranking, weight, k, id, first) >= 0.0
  {
    if ranking != [] {
      ShareNonNegative(ranking[1..], weight, k, id, first + 1);
    }
  }

  /** With fewer than `2k + 3` candidates, every lexical candidate precedes every vector-only one. */
  lemma LexicalFirst(lexical: seq<RankedChunk>, vector: seq<RankedChunk>, k: nat, i: nat, j: nat)
    requires k > 0 && DistinctChunks(lexical) && DistinctChunks(vector)
    requires i < |lexical| < 2 * k + 3 && j < |vector| && vector[j].chunk.id !in IdsOf(lexical)
    ensures Before((lexical[i].chunk.id, FusedScore(lexical, vector, k, lexical[i].chunk.id)),
                   (vector[j].chunk.id, FusedScore(lexical, vector, k, vector[j].chunk.id)))
  {
    LexicalAgainstVector(lexical, vector, k, i, j);
    Reciprocal(3.0, (k + 1 + i) as real, 1.0, (k + 1 + j) as real);
  }

  /** Between a lexical-only and a vector-only candidate the ranks decide, three lexical ones to one. */
  lemma LexicalBeforeVectorIff(lexical: seq<RankedChunk>, vector: seq<RankedChunk>, k: nat, i: nat, j: nat)
    requires k > 0 && DistinctChunks(lexical) && DistinctChunks(vector) && i < |lexical| && j < |vector|
    requires lexical[i].chunk.id !in IdsOf(vector) && vector[j].chunk.id !in IdsOf(lexical)
    ensures var one, other := lexical[i].chunk.id, vector[j].chunk.id;
      Before((one, FusedScore(lexical, vector, k, one)), (other, FusedScore(lexical, vector, k, other)))
      <==> i < 2 * k + 2 + 3 * j || (i == 2 * k + 2 + 3 * j && one < other)
  {
    LexicalAgainstVector(lexical, vector, k, i, j);
    ShareAt(lexical, LEXICAL_WEIGHT, k, 1, i);
    ShareAbsent(vector, VECTOR_WEIGHT, k, lexical[i].chunk.id, 1);
    Reciprocal(3.0, (k + 1 + i) as real, 1.0, (k + 1 + j) as real);
  }

  /** A lexical and a vector-only candidate of two rankings of at most `size` each. */
  ghost predicate Candidates(lexical: seq<RankedChunk>, vector: seq<RankedChunk>, size: nat, i: nat, j: nat) {
    && DistinctChunks(lexical) && DistinctChunks(vector) && |lexical| <= size && |vector| <= size
    && i < |lexical| && j < |vector| && vector[j].chunk.id !in IdsOf(lexical)
  }

  ghost predicate LexicalPrecedes(lexical: seq<RankedChunk>, vector: seq<RankedChunk>, k: nat, i: nat, j: nat)
    requires k > 0 && i < |lexical| && j < |vector|
  {
    Before((lexical[i].chunk.id, FusedScore(lexical, vector, k, lexical[i].chunk.id)),
           (vector[j].chunk.id, FusedScore(lexical, vector, k, vector[j].chunk.id)))
  }

  function Numbered(id: nat): RankedChunk {
    RankedChunk(Chunk(id, 0, "x", Citation(0, 1, "")), 1.0)
  }

  /** From `2k + 3` candidates on there are rankings that put a vector-only one first. */
  lemma LexicalCanComeSecond(k: nat, size: nat)
    returns (lexical: seq<RankedChunk>, vector: seq<RankedChunk>, i: nat, j: nat)
    requires k > 0 && size >= 2 * k + 3
    ensures Candidates(lexical, vector, size, i, j) && !LexicalPrecedes(lexical, vector, k, i, j)
  {
    lexical, vector := seq(2 * k + 3, n requires 0 <= n < 2 * k + 3 => Numbered(n + 1)), [Numbered(0)];
    i, j := 2 * k + 2, 0;
    LexicalBeforeVectorIff(lexical, vector, k, i, j);
  }

  /** Lexical candidates come first whatever the rankings are, exactly up to `2k + 2` candidates. */
  lemma LexicalFirstBoundIsExact(k: nat, size: nat)
    requires k > 0
    ensures (forall lexical, vector, i, j :: Candidates(lexical, vector, size, i, j) ==>
               LexicalPrecedes(lexical, vector, k, i, j)) <==> size < 2 * k + 3
  {
    if size < 2 * k + 3 {
      forall lexical, vector, i, j | Candidates(lexical, vector, size, i, j)
        ensures LexicalPrecedes(lexical, vector, k, i, j)
      {
        LexicalFirst(lexical, vector, k, i, j);
      }
    } else {
      var lexical, vector, i, j := LexicalCanComeSecond(k, size);
    }
  }

  function CandidateLimit(limit: nat): nat {
    var wide := if limit * 4 > 20 then limit * 4 else 20;
    if wide < 100 then wide else 100
  }

  /** Four candidates for each hit asked for, but at least 20 and at most 100. */
  lemma CandidateLimitMeaning(limit: nat)
    ensures 20 <= CandidateLimit(limit) <= 100
    ensures 5 <= limit <= 25 ==> CandidateLimit(limit) == 4 * limit
    ensures limit < 5 ==> CandidateLimit(limit) == 20
    ensures limit > 25 ==> CandidateLimit(limit) == 100
  {
  }

  const MAX_LIMIT := 20

  /** The limits a caller may ask for stay within that bound exactly from `k = 39` on; the default is 60. */
  lemma LimitsKeepLexicalFirstIff(k: nat)
    ensures (forall limit :: 1 <= limit <= MAX_LIMIT ==> CandidateLimit(limit) < 2 * k + 3) <==> k >= 39
  {
    assert CandidateLimit(MAX_LIMIT) == 80;
  }

  const DEFAULT_K := 60

  /** So with the default constant no limit reaches the bound. */
  lemma DefaultLimitsKeepLexicalFirst(limit: nat)
    ensures CandidateLimit(limit) < 2 * DEFAULT_K + 3
  {
  }

  // ----- From rankings to hits -----

  function CollectScored(ids: seq<nat>, lexical: seq<RankedChunk>, vector: seq<RankedChunk>,
                         k: nat): (order: seq<Scored>)
    requires k > 0
    ensures Ascends(order, Before)
    ensures forall x :: x in order <==> x.0 in ids && x.1 == FusedScore(lexical, vector, k, x.0)
  {
    if ids == [] then []
    else
      var order := CollectScored(ids[1..], lexical, vector, k);
      assert forall id :: id in ids <==> id == ids[0] || id in ids[1..];
      if ids[0] in ids[1..] then order
      else Insert(order, (ids[0], FusedScore(lexical, vector, k, ids[0])), Before)
  }

  function ChunkIds(ranking: seq<RankedChunk>): seq<nat> {
    if ranking == [] then [] else [ranking[0].chunk.id] + ChunkIds(ranking[1..])
  }

  lemma {:induction false} ChunkIdsAreIds(ranking: seq<RankedChunk>)
    ensures forall id :: id in ChunkIds(ranking) <==> id in IdsOf(ranking)
  {
    if ranking != [] {
      ChunkIdsAreIds(ranking[1..]);
      assert forall r :: r in ranking <==> r == ranking[0] || r in ranking[1..];
      assert IdsOf(ranking) == {ranking[0].chunk.id} + IdsOf(ranking[1..]);
    }
  }

  function FusedOrder(lexical: seq<RankedChunk>, vector: seq<RankedChunk>, k: nat): seq<Scored>
    requires k > 0
  {
    CollectScored(ChunkIds(lexical) + ChunkIds(vector), lexical, vector, k)
  }

  /** The accumulating loops and the sort produce the fused order. */
  method FuseInOrder(lexical: seq<RankedChunk>, vector: seq<RankedChunk>, k: nat) returns (order: seq<Scored>)
    requires k > 0
    ensures order == FusedOrder(lexical, vector, k)
  {
    order := Fuse(lexical, vector, k);
    ChunkIdsAreIds(lexical);
    ChunkIdsAreIds(vector);
    OrderIsUnique(order, FusedOrder(lexical, vector, k));
  }

  function OwnOrder(ranking: seq<RankedChunk>): seq<Scored> {
    if ranking == [] then []
    else [(ranking[0].chunk.id, if ranking[0].score > 0.0 then ranking[0].score else 0.0)] + OwnOrder(ranking[1..])
  }

  function OrderFor(lexical: seq<RankedChunk>, vector: seq<RankedChunk>, mode: Mode, k: nat): seq<Scored>
    requires k > 0
  {
    match mode
    case Lexical => OwnOrder(lexical)
    case Vector => OwnOrder(vector)
    case _ => FusedOrder(lexical, vector, k)
  }

  /** The last item of an id, as a dict built from the ranking holds it. */
  function ItemOf(ranking: seq<RankedChunk>, id: nat): (item: Option<RankedChunk>)
    ensures item.Some? <==> id in IdsOf(ranking)
    ensures item.Some? ==> item.value in ranking && item.value.chunk.id == id
  {
    if ranking == [] then None
    else
      var n := |ranking| - 1;
      assert forall r :: r in ranking <==> r == ranking[n] || r in ranking[..n];
      if ranking[n].chunk.id == id then Some(ranking[n]) else ItemOf(ranking[..n], id)
  }

  function ScoreOf(item: Option<RankedChunk>): Option<real> {
    if item.None? then None else Some(item.value.score)
  }

  function HitsFor(order: seq<Scored>, lexical: seq<RankedChunk>, vector: seq<RankedChunk>): seq<Hit> {
    if order == [] then []
    else
      var (id, fused) := order[0];
      var own, other := ItemOf(lexical, id), ItemOf(vector, id);
      var rest := HitsFor(order[1..], lexical, vector);
      if own.None? && other.None? then rest
      else
        var chunk := if own.Some? then own.value.chunk else other.value.chunk;
        [Hit(chunk.id, chunk.content, chunk.citation, ScoreOf(own), ScoreOf(other), fused, None)] + rest
  }

  function Rank(lexical: seq<RankedChunk>, vector: seq<RankedChunk>, mode: Mode, k: nat): seq<Hit>
    requires k > 0
  {
    HitsFor(OrderFor(lexical, vector, mode, k), lexical, vector)
  }

  lemma {:induction false} HitsFollowOrder(order: seq<Scored>, lexical: seq<RankedChunk>, vector: seq<RankedChunk>,
                                           i: nat)
    requires forall x :: x in order ==> x.0 in IdsOf(lexical) + IdsOf(vector)
    ensures |HitsFor(order, lexical, vector)| == |order|
    ensures i < |order| ==>
      var hit := HitsFor(order, lexical, vector)[i];
      && hit.chunk == order[i].0 && hit.fused == order[i].1
      && hit.lexical == ScoreOf(ItemOf(lexical, order[i].0)) && hit.vector == ScoreOf(ItemOf(vector, order[i].0))
  {
    if order != [] {
      assert order[0] in order && forall x :: x in order[1..] ==> x in order;
      HitsFollowOrder(order[1..], lexical, vector, if i > 0 then i - 1 else 0);
    }
  }

  lemma HitsAreOrder(order: seq<Scored>, lexical: seq<RankedChunk>, vector: seq<RankedChunk>, hits: seq<Hit>)
    requires forall x :: x in order ==> x.0 in IdsOf(lexical) + IdsOf(vector)
    requires hits == HitsFor(order, lexical, vector)
    ensures |hits| == |order| && forall i :: 0 <= i < |hits| ==> (hits[i].chunk, hits[i].fused) == order[i]
  {
    HitsFollowOrder(order, lexical, vector, 0);
    forall i | 0 <= i < |hits|
      ensures (hits[i].chunk, hits[i].fused) == order[i]
    {
      HitsFollowOrder(order, lexical, vector, i);
    }
  }

  lemma FusedOrderMeaning(lexical: seq<RankedChunk>, vector: seq<RankedChunk>, k: nat, order: seq<Scored>)
    requires k > 0 && order == FusedOrder(lexical, vector, k)
    ensures Ascends(order, Before)
    ensures forall x :: x in order <==>
      x.0 in IdsOf(lexical) + IdsOf(vector) && x.1 == FusedScore(lexical, vector, k, x.0)
  {
    ChunkIdsAreIds(lexical);
    ChunkIdsAreIds(vector);
  }

  lemma HitsInOrder(order: seq<Scored>, ids: set<nat>, score: nat -> real, hits: seq<Hit>)
    requires Ascends(order, Before) && forall x :: x in order <==> x.0 in ids && x.1 == score(x.0)
    requires |hits| == |order| && forall i :: 0 <= i < |hits| ==> (hits[i].chunk, hits[i].fused) == order[i]
    ensures forall i :: 0 <= i < |hits| ==> hits[i].fused == score(hits[i].chunk)
    ensures forall i, j :: 0 <= i < j < |hits| ==>
      Before((hits[i].chunk, hits[i].fused), (hits[j].chunk, hits[j].fused))
    ensures forall id :: id in ids <==> exists i :: 0 <= i < |hits| && hits[i].chunk == id
  {
    assert forall i :: 0 <= i < |hits| ==> order[i] in order;
    forall id | id in ids
      ensures exists i :: 0 <= i < |hits| && hits[i].chunk == id
    {
      assert (id, score(id)) in order;
      var i :| 0 <= i < |order| && order[i] == (id, score(id));
      assert hits[i].chunk == id;
    }
  }

  // ----- Where a hit has its scores and its text from -----

  /** The score is that of an item of the ranking with the hit's id, if there is one. */
  ghost predicate ScoredBy(score: Option<real>, ranking: seq<RankedChunk>, id: nat) {
    && (score.Some? <==> exists r :: r in ranking && r.chunk.id == id)
    && (score.Some? ==> exists r :: r in ranking && r.chunk.id == id && score == Some(r.score))
  }

  /** The text and the citation are those of a chunk of the ranking with the hit's id. */
  ghost predicate QuotedFrom(hit: Hit, ranking: seq<RankedChunk>) {
    exists r :: r in ranking && r.chunk.id == hit.chunk && r.chunk.content == hit.content
                && r.chunk.citation == hit.citation
  }

  /** Each hit has its lexical score from the lexical ranking and its vector score from the vector ranking;
      its text is from the lexical ranking if that has it. */
  ghost predicate IsHitOf(hit: Hit, lexical: seq<RankedChunk>, vector: seq<RankedChunk>) {
    && ScoredBy(hit.lexical, lexical, hit.chunk) && ScoredBy(hit.vector, vector, hit.chunk)
    && (if hit.lexical.Some? then QuotedFrom(hit, lexical) else QuotedFrom(hit, vector))
    && hit.rerank == None
  }

  lemma ItemIsScored(ranking: seq<RankedChunk>, id: nat)
    ensures ScoredBy(ScoreOf(ItemOf(ranking, id)), ranking, id)
  {
    if ItemOf(ranking, id).Some? {
      assert ItemOf(ranking, id).value in ranking;
    } else {
      assert forall r :: r in ranking ==> r.chunk.id in IdsOf(ranking);
    }
  }

  lemma {:induction false} HitsAreHits(order: seq<Scored>, lexical: seq<RankedChunk>, vector: seq<RankedChunk>)
    ensures forall i :: 0 <= i < |HitsFor(order, lexical, vector)| ==>
      IsHitOf(HitsFor(order, lexical, vector)[i], lexical, vector)
  {
    if order != [] {
      var id := order[0].0;
      ItemIsScored(lexical, id);
      ItemIsScored(vector, id);
      HitsAreHits(order[1..], lexical, vector);
    }
  }

  lemma {:induction false} OwnOrderAt(ranking: seq<RankedChunk>, i: nat)
    ensures |OwnOrder(ranking)| == |ranking|
    ensures i < |ranking| ==>
      OwnOrder(ranking)[i] == (ranking[i].chunk.id, if ranking[i].score > 0.0 then ranking[i].score else 0.0)
  {
    if ranking != [] {
      OwnOrderAt(ranking[1..], if i > 0 then i - 1 else 0);
    }
  }

  /** The hits of one ranking alone, in its own order and with its scores, negative ones cut to zero. */
  ghost predicate InOwnOrder(hits: seq<Hit>, ranking: seq<RankedChunk>) {
    && |hits| == |ranking|
    && forall i :: 0 <= i < |hits| ==>
         hits[i].chunk == ranking[i].chunk.id
         && hits[i].fused == (if ranking[i].score < 0.0 then 0.0 else ranking[i].score)
  }

  lemma OwnHits(ranking: seq<RankedChunk>, lexical: seq<RankedChunk>, vector: seq<RankedChunk>)
    requires ranking == lexical || ranking == vector
    ensures InOwnOrder(HitsFor(OwnOrder(ranking), lexical, vector), ranking)
  {
    var order := OwnOrder(ranking);
    OwnOrderAt(ranking, 0);
    forall x | x in order
      ensures x.0 in IdsOf(lexical) + IdsOf(vector)
    {
      var i :| 0 <= i < |order| && order[i] == x;
      OwnOrderAt(ranking, i);
      assert ranking[i] in ranking && ranking[i].chunk.id in IdsOf(ranking);
    }
    HitsAreOrder(order, lexical, vector, HitsFor(order, lexical, vector));
    forall i | 0 <= i < |ranking|
      ensures order[i] == (ranking[i].chunk.id, if ranking[i].score < 0.0 then 0.0 else ranking[i].score)
    {
      OwnOrderAt(ranking, i);
    }
  }

  /** A lexical search is ranked as it was found, and so is a vector search. */
  lemma OwnRankMeaning(lexical: seq<RankedChunk>, vector: seq<RankedChunk>, mode: Mode, k: nat)
    requires k > 0 && mode in {Lexical, Vector}
    ensures InOwnOrder(Rank(lexical, vector, mode, k), if mode == Lexical then lexical else vector)
    ensures forall i :: 0 <= i < |Rank(lexical, vector, mode, k)| ==>
      IsHitOf(Rank(lexical, vector, mode, k)[i], lexical, vector)
  {
    var ranking := if mode == Lexical then lexical else vector;
    OwnHits(ranking, lexical, vector);
    HitsAreHits(OwnOrder(ranking), lexical, vector);
  }

  /** The hits of both rankings: each id of the union once, by fused score and then id. */
  ghost predicate IsFused(hits: seq<Hit>, lexical: seq<RankedChunk>, vector: seq<RankedChunk>, k: nat)
    requires k > 0
  {
    && (forall i :: 0 <= i < |hits| ==> hits[i].fused == FusedScore(lexical, vector, k, hits[i].chunk))
    && (forall i, j :: 0 <= i < j < |hits| ==> Before((hits[i].chunk, hits[i].fused), (hits[j].chunk, hits[j].fused)))
    && (forall id :: id in IdsOf(lexical) + IdsOf(vector) <==> exists i :: 0 <= i < |hits| && hits[i].chunk == id)
    && (forall i :: 0 <= i < |hits| ==> IsHitOf(hits[i], lexical, vector))
  }

  /** Hybrid ranking returns each chunk of the union exactly once, by fused score and then id. */
  lemma HybridRankMeaning(lexical: seq<RankedChunk>, vector: seq<RankedChunk>, mode: Mode, k: nat)
    requires k > 0 && mode in {Hybrid, HybridRerank}
    ensures IsFused(Rank(lexical, vector, mode, k), lexical, vector, k)
  {
    var order := FusedOrder(lexical, vector, k);
    var hits := Rank(lexical, vector, mode, k);
    HitsAreHits(order, lexical, vector);
    FusedOrderMeaning(lexical, vector, k, order);
    HitsAreOrder(order, lexical, vector, hits);
    HitsInOrder(order, IdsOf(lexical) + IdsOf(vector), (id: nat) => FusedScore(lexical, vector, k, id), hits);
  }
}
