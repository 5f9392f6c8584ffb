/** The document repository of the retrieval service: versions, revisions and a tenant's corpus. */
module RetrievalCorpus {
  import opened Ranking

  datatype Document = Document(version: nat, updatedAt: nat, chunks: seq<Chunk>)

  /** The active documents of one tenant, by title. */
  type Corpus = map<string, Document>

  function PutDocument(corpus: Corpus, title: string, now: nat, chunks: seq<Chunk>): Corpus {
    corpus[title := Document(if title in corpus then corpus[title].version + 1 else 1, now, chunks)]
  }

  /** One document has been added or replaced by its next version, and all others are as they were. */
  ghost predicate IsReplaced(before: Corpus, after: Corpus, title: string, now: nat, chunks: seq<Chunk>) {
    && after.Keys == before.Keys + {title}
    && after[title].chunks == chunks && after[title].updatedAt == now
    && (title in before ==> after[title].version == before[title].version + 1)
    && (title !in before ==> after[title].version == 1)
    && forall kept :: kept in before && kept != title ==> after[kept] == before[kept]
  }

  lemma PutReplaces(corpus: Corpus, title: string, now: nat, chunks: seq<Chunk>)
    ensures IsReplaced(corpus, PutDocument(corpus, title, now, chunks), title, now, chunks)
  {
  }

  /** The sum of the versions of the active documents. */
  ghost function SumVersions(corpus: Corpus): nat {
    if corpus == map[] then 0
    else
      var title :| title in corpus;
      corpus[title].version + SumVersions(corpus - {title})
  }

  lemma {:induction false} SumWithout(corpus: Corpus, title: string)
    requires title in corpus
    ensures SumVersions(corpus) == corpus[title].version + SumVersions(corpus - {title})
    decreases |corpus|
  {
    var picked :| picked in corpus && SumVersions(corpus) == corpus[picked].version + SumVersions(corpus - {picked});
    if picked != title {
      var without := corpus - {picked};
      SumWithout(without, title);
      SumWithout(corpus - {title}, picked);
      assert corpus - {picked} - {title} == corpus - {title} - {picked};
    }
  }

  /** Replacing or adding a document raises the sum of versions by exactly one. */
  lemma PutRaisesSum(corpus: Corpus, title: string, now: nat, chunks: seq<Chunk>)
    ensures SumVersions(PutDocument(corpus, title, now, chunks)) == SumVersions(corpus) + 1
  {
    var after := PutDocument(corpus, title, now, chunks);
    SumWithout(after, title);
    if title in corpus {
      SumWithout(corpus, title);
      assert after - {title} == corpus - {title};
    } else {
      assert after - {title} == corpus;
    }
  }

  datatype Ingested = Stored(document: Document) | NoChunks

  class InMemoryRepository {
    var corpora: map<nat, Corpus>
    var revisions: map<nat, nat>
    /** Every corpus a tenant has had, the empty one first. */
    ghost var histories: map<nat, seq<Corpus>>

    constructor ()
      ensures corpora == map[] && revisions == map[] && histories == map[] && Valid()
    {
      corpora, revisions, histories := map[], map[], map[];
    }

    function CorpusOf(tenant: nat): Corpus
      reads this
    {
      if tenant in corpora then corpora[tenant] else map[]
    }

    function Revision(tenant: nat): nat
      reads this
    {
      if tenant in revisions then revisions[tenant] else 0
    }

    ghost function History(tenant: nat): seq<Corpus>
      reads this
    {
      if tenant in histories then histories[tenant] else [map[]]
    }

    /** The counter of a tenant is its number of ingests, and the sum of its active versions. */
    ghost predicate Valid()
      reads this
    {
      forall t :: TenantOk(t)
    }

    ghost predicate TenantOk(tenant: nat)
      reads this
    {
      && |History(tenant)| == Revision(tenant) + 1
      && History(tenant)[Revision(tenant)] == CorpusOf(tenant)
      && SumVersions(CorpusOf(tenant)) == Revision(tenant)
    }

    method ReplaceDocument(tenant: nat, title: string, now: nat, chunks: seq<Chunk>) returns (result: Ingested)
      requires Valid()
      modifies this
      ensures Valid()
      ensures result.NoChunks? <==> chunks == []
      ensures result.NoChunks? ==>
        corpora == old(corpora) && revisions == old(revisions) && histories == old(histories)
      ensures result.Stored? ==>
        && CorpusOf(tenant) == PutDocument(old(CorpusOf(tenant)), title, now, chunks)
        && result.document == CorpusOf(tenant)[title]
        && IsReplaced(old(CorpusOf(tenant)), CorpusOf(tenant), title, now, chunks)
        && Revision(tenant) == old(Revision(tenant)) + 1
        && History(tenant) == old(History(tenant)) + [CorpusOf(tenant)]
        && forall other :: other != tenant ==>
             CorpusOf(other) == old(CorpusOf(other)) && Revision(other) == old(Revision(other))
             && History(other) == old(History(other))
    {
      if chunks == [] {
        return NoChunks;
      }
      assert TenantOk(tenant);
      PutRaisesSum(CorpusOf(tenant), title, now, chunks);
      PutReplaces(CorpusOf(tenant), title, now, chunks);
      ghost var before := histories;
      var corpus := PutDocument(CorpusOf(tenant), title, now, chunks);
      histories := histories[tenant := History(tenant) + [corpus]];
      corpora := corpora[tenant := corpus];
      revisions := revisions[tenant := Revision(tenant) + 1];
      result := Stored(corpus[title]);
      forall t
        ensures TenantOk(t)
      {
        assert t != tenant ==> old(TenantOk(t));
      }
    }
  }
}

/** The result cache, keyed by tenant, query, revision, mode and limit. */
module RetrievalCache {
  import opened Evidence
  import opened Wrappers

  datatype Key<R> = Key(tenant: nat, query: string, revision: R, mode: Mode, limit: nat)

  datatype Result<R> = Result(query: string, mode: Mode, revision: R, hits: seq<Hit>, shouldAnswer: bool)

  datatype Entry<R> = Entry(result: Result<R>, expiresAt: nat)

  type Entries<R(==)> = map<Key<R>, Entry<R>>

  function Lookup<R(==)>(entries: Entries<R>, key: Key<R>, now: nat): Option<Result<R>> {
    if key in entries && now < entries[key].expiresAt then Some(entries[key].result) else None
  }

  /** What a lookup leaves: an expired entry is dropped. */
  function AfterGet<R(==)>(entries: Entries<R>, key: Key<R>, now: nat): Entries<R> {
    if key in entries && now >= entries[key].expiresAt then entries - {key} else entries
  }

  function AfterPut<R(==)>(entries: Entries<R>, tenant: nat, result: Result<R>, limit: nat,
                           expiresAt: nat): Entries<R> {
    entries[Key(tenant, result.query, result.revision, result.mode, limit) := Entry(result, expiresAt)]
  }

  function AfterInvalidate<R(==)>(entries: Entries<R>, tenant: nat): Entries<R> {
    map key | key in entries && key.tenant != tenant :: entries[key]
  }

  class RetrievalCache<R(==)> {
    const ttl: nat
    var entries: Entries<R>

    constructor (ttl: nat)
      requires ttl > 0
      ensures this.ttl == ttl && entries == map[]
    {
      this.ttl := ttl;
      entries := map[];
    }

    method Get(key: Key<R>, now: nat) returns (cached: Option<Result<R>>)
      modifies this
      ensures cached == Lookup(old(entries), key, now) && entries == AfterGet(old(entries), key, now)
      ensures forall other, at: nat :: now <= at ==> Lookup(entries, other, at) == Lookup(old(entries), other, at)
    {
      if key !in entries {
        return None;
      }
      var entry := entries[key];
      if now >= entry.expiresAt {
        entries := entries - {key};
        return None;
      }
      cached := Some(entry.result);
    }

    /** The result is found under its own key until it expires; every other key finds what it found before. */
    method Put(tenant: nat, result: Result<R>, limit: nat, now: nat)
      modifies this
      ensures entries == AfterPut(old(entries), tenant, result, limit, now + ttl)
      ensures forall key, at: nat ::
        Lookup(entries, key, at) ==
        if key != Key(tenant, result.query, result.revision, result.mode, limit) then Lookup(old(entries), key, at)
        else if at < now + ttl then Some(result) else None
    {
      entries := entries[Key(tenant, result.query, result.revision, result.mode, limit) := Entry(result, now + ttl)];
    }

    /** The tenant finds nothing any more; every other tenant finds what it found before. */
    method InvalidateTenant(tenant: nat)
      modifies this
      ensures entries == AfterInvalidate(old(entries), tenant)
      ensures forall key, at: nat ::
        Lookup(entries, key, at) == if key.tenant == tenant then None else Lookup(old(entries), key, at)
    {
      entries := map key | key in entries && key.tenant != tenant :: entries[key];
    }
  }
}

/** Ingesting and retrieving through one service instance. */
module RetrievalService {
  import opened Evidence
  import opened Ranking
  import opened RetrievalCorpus
  import opened RetrievalCache
  import opened Sequences
  import opened Text
  import opened Wrappers

  /** The searches, as functions of a tenant's corpus, and the settings of the service. */
  datatype Engine = Engine(
    space: char -> bool,
    lexical: (Corpus, string, nat) -> seq<RankedChunk>,
    vector: (Corpus, string, nat) -> seq<RankedChunk>,
    reranker: Option<(string, seq<Hit>) -> seq<Hit>>,
    k: nat, minLexical: real, minVector: real, defaultLimit: nat)

  datatype Retrieved<R> = Found(result: Result<R>) | InvalidQuery | InvalidLimit | NoReranker

  /** The result made from two candidate lists; `None` when reranking is asked of no reranker. */
  function Assemble<R>(e: Engine, revision: R, query: string, mode: Mode, limit: nat, lexical: seq<RankedChunk>,
                       vector: seq<RankedChunk>): Option<Result<R>>
    requires e.k > 0
  {
    if mode == HybridRerank && e.reranker.None? then None
    else
      var ranked := Rank(lexical, vector, mode, e.k);
      var hits := Take(if mode == HybridRerank then e.reranker.value(query, ranked) else ranked, limit);
      Some(Result(query, mode, revision, hits, HasEvidence(hits, mode, e.minLexical, e.minVector)))
  }

  function LexicalCandidates(e: Engine, corpus: Corpus, query: string, mode: Mode, limit: nat): seq<RankedChunk> {
    if UsesLexical(mode) then e.lexical(corpus, query, CandidateLimit(limit)) else []
  }

  function VectorCandidates(e: Engine, corpus: Corpus, query: string, mode: Mode, limit: nat): seq<RankedChunk> {
    if UsesVector(mode) then e.vector(corpus, query, CandidateLimit(limit)) else []
  }

  /** Retrieval without a cache, from one corpus. */
  function Fresh<R>(e: Engine, corpus: Corpus, revision: R, query: string, mode: Mode, limit: nat): Option<Result<R>>
    requires e.k > 0
  {
    Assemble(e, revision, query, mode, limit, LexicalCandidates(e, corpus, query, mode, limit),
             VectorCandidates(e, corpus, query, mode, limit))
  }

  /** What a caller gets, cache or no cache: the words of the query decide. */
  function Answer<R>(e: Engine, corpus: Corpus, revision: R, query: string, mode: Mode,
                     limit: Option<int>): Retrieved<R>
    requires e.k > 0
  {
    var normalized := Join(Words(query, e.space), ' ');
    var bound := if limit.Some? then limit.value else e.defaultLimit;
    if normalized == "" || |normalized| > 4000 then InvalidQuery
    else if !(1 <= bound <= 20) then InvalidLimit
    else
      var made := Fresh(e, corpus, revision, normalized, mode, bound);
      if made.None? then NoReranker else Found(made.value)
  }

  /** The answer depends on the words of the query only, however they are spaced; its own query text is stable. */
  lemma SpacingIsIrrelevant<R>(e: Engine, corpus: Corpus, revision: R, query: string, mode: Mode, limit: Option<int>)
    requires e.k > 0 && e.space(' ')
    ensures Answer(e, corpus, revision, Join(Words(query, e.space), ' '), mode, limit)
         == Answer(e, corpus, revision, query, mode, limit)
    ensures Answer(e, corpus, revision, query, mode, limit).InvalidQuery? <==>
      Words(query, e.space) == [] || |Join(Words(query, e.space), ' ')| > 4000
  {
    WordsOfJoined(query, e.space);
    WordsAreWords(query, e.space);
  }

  /** The hits that a mode makes of what the two searches found, before they are cut to the limit. */
  ghost predicate IsRanked(e: Engine, mode: Mode, query: string, lexical: seq<RankedChunk>, vector: seq<RankedChunk>,
                           ranked: seq<Hit>)
    requires e.k > 0
  {
    match mode
    case Lexical => InOwnOrder(ranked, lexical) && forall i :: 0 <= i < |ranked| ==> IsHitOf(ranked[i], lexical, [])
    case Vector => InOwnOrder(ranked, vector) && forall i :: 0 <= i < |ranked| ==> IsHitOf(ranked[i], [], vector)
    case Hybrid => IsFused(ranked, lexical, vector, e.k)
    case HybridRerank =>
      && e.reranker.Some?
      && exists fused :: IsFused(fused, lexical, vector, e.k) && ranked == e.reranker.value(query, fused)
  }

  /** What a retrieval found, in terms of the two searches of the corpus: the first hits of the mode's ranking,
      and whether their scores are enough. */
  ghost predicate IsFound<R>(e: Engine, corpus: Corpus, revision: R, query: string, mode: Mode, limit: nat,
                             result: Result<R>)
    requires e.k > 0
  {
    && result.query == query && result.mode == mode && result.revision == revision
    && DecidedByScores(result.hits, mode, e.minLexical, e.minVector, result.shouldAnswer)
    && exists ranked: seq<Hit> ::
         && IsRanked(e, mode, query, e.lexical(corpus, query, CandidateLimit(limit)),
                     e.vector(corpus, query, CandidateLimit(limit)), ranked)
         && |result.hits| == (if |ranked| < limit then |ranked| else limit) && result.hits <= ranked
  }

  lemma FoundMeaning<R>(e: Engine, corpus: Corpus, revision: R, query: string, mode: Mode, limit: nat)
    requires e.k > 0
    ensures Fresh(e, corpus, revision, query, mode, limit).None? <==> mode == HybridRerank && e.reranker.None?
    ensures Fresh(e, corpus, revision, query, mode, limit).Some? ==>
      IsFound(e, corpus, revision, query, mode, limit, Fresh(e, corpus, revision, query, mode, limit).value)
  {
    var made := Fresh(e, corpus, revision, query, mode, limit);
    if made.Some? {
      var lexical := e.lexical(corpus, query, CandidateLimit(limit));
      var vector := e.vector(corpus, query, CandidateLimit(limit));
      var hits := made.value.hits;
      EvidenceIsDecided(hits, mode, e.minLexical, e.minVector);
      var own := Rank(LexicalCandidates(e, corpus, query, mode, limit), VectorCandidates(e, corpus, query, mode, limit),
                      mode, e.k);
      if mode in {Hybrid, HybridRerank} {
        HybridRankMeaning(lexical, vector, mode, e.k);
      } else {
        OwnRankMeaning(LexicalCandidates(e, corpus, query, mode, limit),
                       VectorCandidates(e, corpus, query, mode, limit), mode, e.k);
      }
      var ranked := if mode == HybridRerank then e.reranker.value(query, own) else own;
      assert IsRanked(e, mode, query, lexical, vector, ranked);
      assert hits <= ranked;
    }
  }

  /** Which queries are refused, and what the others find. */
  ghost predicate IsAnswer<R>(e: Engine, corpus: Corpus, revision: R, query: string, mode: Mode, limit: Option<int>,
                              answer: Retrieved<R>)
    requires e.k > 0
  {
    var normalized := Join(Words(query, e.space), ' ');
    var bound := if limit.Some? then limit.value else e.defaultLimit;
    var asked := 1 <= |normalized| <= 4000;
    && (answer.InvalidQuery? <==> !asked)
    && (answer.InvalidLimit? <==> asked && !(1 <= bound <= 20))
    && (answer.NoReranker? <==> asked && 1 <= bound <= 20 && mode == HybridRerank && e.reranker.None?)
    && (answer.Found? ==> bound >= 0 && IsFound(e, corpus, revision, normalized, mode, bound, answer.result))
  }

  lemma AnswerOrRefusal<R>(e: Engine, corpus: Corpus, revision: R, query: string, mode: Mode, limit: Option<int>,
                           normalized: string, bound: int)
    requires e.k > 0 && normalized == Join(Words(query, e.space), ' ')
    requires bound == if limit.Some? then limit.value else e.defaultLimit
    ensures var answer, asked := Answer(e, corpus, revision, query, mode, limit), 1 <= |normalized| <= 4000;
      && (answer.InvalidQuery? <==> !asked)
      && (answer.InvalidLimit? <==> asked && !(1 <= bound <= 20))
      && (answer.NoReranker? <==> asked && 1 <= bound <= 20 && mode == HybridRerank && e.reranker.None?)
      && (answer.Found? ==>
            1 <= bound <= 20 && Fresh(e, corpus, revision, normalized, mode, bound) == Some(answer.result))
  {
  }

  lemma AnswerMeaning<R>(e: Engine, corpus: Corpus, revision: R, query: string, mode: Mode, limit: Option<int>)
    requires e.k > 0
    ensures IsAnswer(e, corpus, revision, query, mode, limit, Answer(e, corpus, revision, query, mode, limit))
  {
    var normalized := Join(Words(query, e.space), ' ');
    var bound := if limit.Some? then limit.value else e.defaultLimit;
    AnswerOrRefusal(e, corpus, revision, query, mode, limit, normalized, bound);
    if 1 <= bound <= 20 {
      FoundMeaning(e, corpus, revision, normalized, mode, bound);
    }
  }

  /** How an ingest ends: `Unread` when parsing, chunking or embedding the document fails. */
  datatype Ingestion = Kept(document: Document) | InvalidTitle | Unread | NoText

  class MetricRetrievalService {
    const engine: Engine
    const repository: InMemoryRepository
    const cache: RetrievalCache<nat>

    constructor (engine: Engine, repository: InMemoryRepository, cache: RetrievalCache<nat>)
      requires engine.k > 0 && 1 <= engine.defaultLimit <= 20 && repository.Valid() && cache.entries == map[]
      ensures this.engine == engine && this.repository == repository && this.cache == cache && Valid()
    {
      this.engine, this.repository, this.cache := engine, repository, cache;
    }

    /** Every cached result is what the corpus of its revision gives. */
    ghost predicate Valid()
      reads this, repository, cache
    {
      && engine.k > 0 && repository.Valid()
      && forall key :: key in cache.entries ==>
           && key.revision < |repository.History(key.tenant)|
           && Fresh(engine, repository.History(key.tenant)[key.revision], key.revision, key.query, key.mode, key.limit)
              == Some(cache.entries[key].result)
    }

    /** `read` is what parsing, chunking and embedding the payload gives, if they succeed. */
    method Ingest(tenant: nat, title: string, now: nat, read: Option<seq<Chunk>>) returns (result: Ingestion)
      requires Valid() && cache as object != repository as object
      modifies repository, cache
      ensures Valid()
      ensures var normalized := Join(Words(title, engine.space), ' ');
        && (result.InvalidTitle? <==> !(1 <= |normalized| <= 240))
        && (result.Unread? <==> 1 <= |normalized| <= 240 && read == None)
        && (result.NoText? <==> 1 <= |normalized| <= 240 && read == Some([]))
        && (result.Kept? ==>
              && IsReplaced(old(repository.CorpusOf(tenant)), repository.CorpusOf(tenant), normalized, now, read.value)
              && repository.CorpusOf(tenant)
                 == PutDocument(old(repository.CorpusOf(tenant)), normalized, now, read.value)
              && result.document == repository.CorpusOf(tenant)[normalized])
      ensures result.Kept? ==>
        && repository.Revision(tenant) == old(repository.Revision(tenant)) + 1
        && cache.entries == AfterInvalidate(old(cache.entries), tenant)
        && forall other :: other != tenant ==>
             repository.CorpusOf(other) == old(repository.CorpusOf(other))
             && repository.Revision(other) == old(repository.Revision(other))
      ensures !result.Kept? ==>
        && cache.entries == old(cache.entries)
        && repository.corpora == old(repository.corpora) && repository.revisions == old(repository.revisions)
    {
      var normalized := Join(Words(title, engine.space), ' ');
      if normalized == "" || |normalized| > 240 {
        return InvalidTitle;
      }
      if read.None? {
        return Unread;
      }
      var stored := repository.ReplaceDocument(tenant, normalized, now, read.value);
      if stored.NoChunks? {
        return NoText;
      }
      cache.InvalidateTenant(tenant);
      result := Kept(stored.document);
    }

    /** What is put into the cache is what its corpus gives. */
    method Remember(tenant: nat, result: Result<nat>, limit: nat, now: nat)
      requires Valid() && cache as object != repository as object
      requires result.revision == repository.Revision(tenant)
      requires Fresh(engine, repository.CorpusOf(tenant), result.revision, result.query, result.mode, limit)
            == Some(result)
      modifies cache
      ensures Valid()
    {
      assert repository.TenantOk(tenant);
      cache.Put(tenant, result, limit, now);
    }

    /** A cached answer and an uncached one are the same. */
    method Retrieve(tenant: nat, query: string, mode: Mode, limit: Option<int>,
                    now: nat) returns (answer: Retrieved<nat>)
      requires Valid() && cache as object != repository as object
      modifies cache
      ensures Valid()
      ensures answer
           == Answer(engine, repository.CorpusOf(tenant), repository.Revision(tenant), query, mode, limit)
      ensures IsAnswer(engine, repository.CorpusOf(tenant), repository.Revision(tenant), query, mode, limit, answer)
    {
      AnswerMeaning(engine, repository.CorpusOf(tenant), repository.Revision(tenant), query, mode, limit);
      var normalized := Join(Words(query, engine.space), ' ');
      if normalized == "" || |normalized| > 4000 {
        return InvalidQuery;
      }
      var bound := if limit.Some? then limit.value else engine.defaultLimit;
      if !(1 <= bound <= 20) {
        return InvalidLimit;
      }
      assert repository.TenantOk(tenant);
      var revision := repository.Revision(tenant);
      var cached := cache.Get(Key(tenant, normalized, revision, mode, bound), now);
      if cached.Some? {
        return Found(cached.value);
      }
      var corpus := repository.CorpusOf(tenant);
      var lexical := LexicalCandidates(engine, corpus, normalized, mode, bound);
      var vector := VectorCandidates(engine, corpus, normalized, mode, bound);
      var assembled := Assemble(engine, revision, normalized, mode, bound, lexical, vector);
      if assembled.None? {
        return NoReranker;
      }
      Remember(tenant, assembled.value, bound, now);
      answer := Found(assembled.value);
    }
  }
}
