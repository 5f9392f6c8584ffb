/** Many service instances over one shared repository, each with its own cache. An ingest, an
    invalidation, a cache lookup and the two searches of a retrieval are separate steps. */
module RetrievalRuns {
  import opened Evidence
  import opened Ranking
  import opened RetrievalCorpus
  import opened RetrievalCache
  import opened RetrievalService
  import opened Wrappers

  /** What the repository hashes into a revision: the digest is taken to be injective. Of the
      number of documents and the latest update it only matters that the corpus determines them. */
  datatype Revision = Revision(versions: nat, others: (nat, nat))

  datatype Query = Query(tenant: nat, text: string, mode: Mode, limit: nat)

  /** How a service turns candidates into a result under a revision. */
  type Maker = (Revision, string, Mode, nat, seq<RankedChunk>, seq<RankedChunk>) -> Option<Result<Revision>>

  /** What all instances share: how they search and assemble, and every corpus each tenant has had. */
  datatype Repo = Repo(engine: Engine, make: Maker, others: Corpus -> (nat, nat), histories: map<nat, seq<Corpus>>)

  /** A retrieval that missed the cache, with what it has fetched so far. The three indices say
      from which corpus of the tenant's history each part was read. */
  datatype Pending = Pending(
    service: nat, query: Query, revision: Revision, at: nat,
    lexical: Option<(nat, seq<RankedChunk>)>, vector: Option<(nat, seq<RankedChunk>)>)

  datatype World = World(
    repo: Repo, ttl: nat, caches: map<nat, Entries<Revision>>, pending: map<nat, Pending>, clock: nat)

  datatype Step =
    | Ingest(tenant: nat, title: string, chunks: seq<Chunk>)
    | Invalidate(service: nat, tenant: nat)
    | Tick(elapsed: nat)
    | Begin(id: nat, service: nat, query: Query)
    | SearchLexical(id: nat)
    | SearchVector(id: nat)
    | Finish(id: nat)

  function HistoryOf(repo: Repo, tenant: nat): seq<Corpus> {
    if tenant in repo.histories && repo.histories[tenant] != [] then repo.histories[tenant] else [map[]]
  }

  function Current(repo: Repo, tenant: nat): Corpus {
    HistoryOf(repo, tenant)[|HistoryOf(repo, tenant)| - 1]
  }

  ghost function RevisionOf(others: Corpus -> (nat, nat), corpus: Corpus): Revision {
    Revision(SumVersions(corpus), others(corpus))
  }

  ghost function CurrentRevision(repo: Repo, tenant: nat): Revision {
    RevisionOf(repo.others, Current(repo, tenant))
  }

  function CacheOf(w: World, service: nat): Entries<Revision> {
    if service in w.caches then w.caches[service] else map[]
  }

  function KeyOf(q: Query, revision: Revision): Key<Revision> {
    Key(q.tenant, q.text, revision, q.mode, q.limit)
  }

  function AfterIngest(repo: Repo, tenant: nat, title: string, now: nat, chunks: seq<Chunk>): Repo {
    repo.(histories := repo.histories[tenant :=
      HistoryOf(repo, tenant) + [PutDocument(Current(repo, tenant), title, now, chunks)]])
  }

  ghost function NewPending(repo: Repo, service: nat, q: Query): Pending {
    Pending(service, q, CurrentRevision(repo, q.tenant), |HistoryOf(repo, q.tenant)| - 1, None, None)
  }

  function WithLexical(repo: Repo, p: Pending): Pending {
    var q := p.query;
    p.(lexical := Some((|HistoryOf(repo, q.tenant)| - 1,
                        LexicalCandidates(repo.engine, Current(repo, q.tenant), q.text, q.mode, q.limit))))
  }

  function WithVector(repo: Repo, p: Pending): Pending {
    var q := p.query;
    p.(vector := Some((|HistoryOf(repo, q.tenant)| - 1,
                       VectorCandidates(repo.engine, Current(repo, q.tenant), q.text, q.mode, q.limit))))
  }

  /** What a retrieval assembles from what it fetched. */
  function MadeOf(make: Maker, p: Pending): Option<Result<Revision>>
    requires p.lexical.Some? && p.vector.Some?
  {
    make(p.revision, p.query.text, p.query.mode, p.query.limit, p.lexical.value.1, p.vector.value.1)
  }

  ghost function BeginStep(w: World, id: nat, service: nat, q: Query): World {
    var key := KeyOf(q, CurrentRevision(w.repo, q.tenant));
    var entries := CacheOf(w, service);
    var looked := w.caches[service := AfterGet(entries, key, w.clock)];
    w.(caches := looked,
       pending := if Lookup(entries, key, w.clock).Some? then w.pending
                  else w.pending[id := NewPending(w.repo, service, q)])
  }

  /** The caches once a retrieval has finished with `made`. */
  function Storing(w: World, p: Pending, made: Option<Result<Revision>>): map<nat, Entries<Revision>> {
    if made.None? then w.caches
    else w.caches[p.service :=
           AfterPut(CacheOf(w, p.service), p.query.tenant, made.value, p.query.limit, w.clock + w.ttl)]
  }

  function FinishStep(w: World, id: nat): World
    requires id in w.pending && w.pending[id].lexical.Some? && w.pending[id].vector.Some?
  {
    w.(pending := w.pending - {id}, caches := Storing(w, w.pending[id], MadeOf(w.repo.make, w.pending[id])))
  }

  ghost function Next(w: World, step: Step): World {
    match step
    case Ingest(tenant, title, chunks) =>
      if chunks == [] then w else w.(repo := AfterIngest(w.repo, tenant, title, w.clock, chunks))
    case Invalidate(service, tenant) =>
      w.(caches := w.caches[service := AfterInvalidate(CacheOf(w, service), tenant)])
    case Tick(elapsed) => w.(clock := w.clock + elapsed)
    case Begin(id, service, query) => if id in w.pending then w else BeginStep(w, id, service, query)
    case SearchLexical(id) =>
      if id !in w.pending || w.pending[id].lexical.Some? then w
      else w.(pending := w.pending[id := WithLexical(w.repo, w.pending[id])])
    case SearchVector(id) =>
      if id !in w.pending || w.pending[id].vector.Some? then w
      else w.(pending := w.pending[id := WithVector(w.repo, w.pending[id])])
    case Finish(id) =>
      if id in w.pending && w.pending[id].lexical.Some? && w.pending[id].vector.Some? then FinishStep(w, id) else w
  }

  ghost function Run(w: World, steps: seq<Step>): World
    decreases |steps|
  {
    if steps == [] then w else Run(Next(w, steps[0]), steps[1..])
  }

  /** Every instance assembles its results in the one way the retrieval service does. */
  ghost predicate MakesAsService(engine: Engine, make: Maker) {
    && engine.k > 0
    && forall revision, text, mode, limit, lexical, vector ::
         make(revision, text, mode, limit, lexical, vector)
         == Assemble(engine, revision, text, mode, limit, lexical, vector)
  }

  ghost predicate Initial(w: World) {
    MakesAsService(w.repo.engine, w.repo.make) && w.repo.histories == map[] && w.caches == map[] && w.pending == map[]
  }

  // ----- The invariant -----

  /** A result carries the text, mode and revision it was asked for. */
  ghost predicate LabelsResults(make: Maker) {
    forall revision, text, mode, limit, lexical, vector ::
      var made := make(revision, text, mode, limit, lexical, vector);
      made.Some? ==> made.value.query == text && made.value.revision == revision && made.value.mode == mode
  }

  lemma ServiceLabelsResults(engine: Engine, make: Maker)
    requires MakesAsService(engine, make)
    ensures LabelsResults(make)
  {
  }

  /** The number of ingests of a tenant is the sum of the versions of its active documents. */
  ghost predicate HistoryOk(history: seq<Corpus>) {
    history != [] && forall i :: 0 <= i < |history| ==> SumVersions(history[i]) == i
  }

  ghost predicate RepoOk(repo: Repo) {
    LabelsResults(repo.make) && forall t :: HistoryOk(HistoryOf(repo, t))
  }

  /** The result was made under the revision of corpus `at` from that corpus or later ones. */
  ghost predicate MadeFrom(repo: Repo, key: Key<Revision>, result: Result<Revision>, at: nat, lexicalAt: nat,
                           vectorAt: nat) {
    var history := HistoryOf(repo, key.tenant);
    && at <= lexicalAt < |history| && at <= vectorAt < |history|
    && key.revision == RevisionOf(repo.others, history[at])
    && Some(result) == repo.make(key.revision, key.query, key.mode, key.limit,
         LexicalCandidates(repo.engine, history[lexicalAt], key.query, key.mode, key.limit),
         VectorCandidates(repo.engine, history[vectorAt], key.query, key.mode, key.limit))
  }

  ghost predicate EntryOk(repo: Repo, key: Key<Revision>, result: Result<Revision>) {
    exists at, lexicalAt, vectorAt :: MadeFrom(repo, key, result, at, lexicalAt, vectorAt)
  }

  ghost predicate CacheOk(repo: Repo, entries: Entries<Revision>) {
    forall key :: key in entries ==> EntryOk(repo, key, entries[key].result)
  }

  ghost predicate PendingOk(repo: Repo, p: Pending) {
    var q, history := p.query, HistoryOf(repo, p.query.tenant);
    && p.at < |history| && p.revision == RevisionOf(repo.others, history[p.at])
    && (p.lexical.Some? ==>
          && p.at <= p.lexical.value.0 < |history|
          && p.lexical.value.1 == LexicalCandidates(repo.engine, history[p.lexical.value.0], q.text, q.mode, q.limit))
    && (p.vector.Some? ==>
          && p.at <= p.vector.value.0 < |history|
          && p.vector.value.1 == VectorCandidates(repo.engine, history[p.vector.value.0], q.text, q.mode, q.limit))
  }

  ghost predicate CachesOk(repo: Repo, caches: map<nat, Entries<Revision>>) {
    forall s :: s in caches ==> CacheOk(repo, caches[s])
  }

  ghost predicate AllPendingOk(repo: Repo, pending: map<nat, Pending>) {
    forall id :: id in pending ==> PendingOk(repo, pending[id])
  }

  ghost predicate Inv(w: World) {
    RepoOk(w.repo) && CachesOk(w.repo, w.caches) && AllPendingOk(w.repo, w.pending)
  }

  /** Revisions of different corpora of a tenant's history differ. */
  lemma RevisionsDiffer(others: Corpus -> (nat, nat), history: seq<Corpus>, i: nat, j: nat)
    requires HistoryOk(history) && i < |history| && j < |history|
    ensures RevisionOf(others, history[i]) == RevisionOf(others, history[j]) ==> i == j
  {
    assert SumVersions(history[i]) == i && SumVersions(history[j]) == j;
  }

  // ----- Ingests -----

  /** A repository whose histories only grew judges old entries as before. */
  ghost predicate Extends(repo: Repo, repo': Repo) {
    && repo'.engine == repo.engine && repo'.make == repo.make && repo'.others == repo.others
    && forall t :: HistoryOf(repo, t) <= HistoryOf(repo', t)
  }

  lemma EntryStays(repo: Repo, repo': Repo, key: Key<Revision>, result: Result<Revision>)
    requires Extends(repo, repo') && EntryOk(repo, key, result)
    ensures EntryOk(repo', key, result)
  {
    var at, lexicalAt, vectorAt :| MadeFrom(repo, key, result, at, lexicalAt, vectorAt);
    assert HistoryOf(repo, key.tenant) <= HistoryOf(repo', key.tenant);
    assert MadeFrom(repo', key, result, at, lexicalAt, vectorAt);
  }

  lemma CachesStay(repo: Repo, repo': Repo, caches: map<nat, Entries<Revision>>)
    requires Extends(repo, repo') && CachesOk(repo, caches)
    ensures CachesOk(repo', caches)
  {
    forall s, key | s in caches && key in caches[s]
      ensures EntryOk(repo', key, caches[s][key].result)
    {
      assert CacheOk(repo, caches[s]);
      EntryStays(repo, repo', key, caches[s][key].result);
    }
  }

  lemma PendingStays(repo: Repo, repo': Repo, p: Pending)
    requires Extends(repo, repo') && PendingOk(repo, p)
    ensures PendingOk(repo', p)
  {
    assert HistoryOf(repo, p.query.tenant) <= HistoryOf(repo', p.query.tenant);
  }

  lemma IngestExtends(repo: Repo, tenant: nat, title: string, now: nat, chunks: seq<Chunk>)
    requires RepoOk(repo)
    ensures var repo' := AfterIngest(repo, tenant, title, now, chunks); Extends(repo, repo') && RepoOk(repo')
  {
    var repo' := AfterIngest(repo, tenant, title, now, chunks);
    PutRaisesSum(Current(repo, tenant), title, now, chunks);
    assert HistoryOk(HistoryOf(repo, tenant));
    forall t
      ensures HistoryOk(HistoryOf(repo', t)) && HistoryOf(repo, t) <= HistoryOf(repo', t)
    {
      assert HistoryOk(HistoryOf(repo, t));
    }
  }

  lemma IngestKeeps(w: World, tenant: nat, title: string, chunks: seq<Chunk>)
    requires Inv(w)
    ensures Inv(w.(repo := AfterIngest(w.repo, tenant, title, w.clock, chunks)))
  {
    var repo' := AfterIngest(w.repo, tenant, title, w.clock, chunks);
    IngestExtends(w.repo, tenant, title, w.clock, chunks);
    CachesStay(w.repo, repo', w.caches);
    forall id | id in w.pending
      ensures PendingOk(repo', w.pending[id])
    {
      PendingStays(w.repo, repo', w.pending[id]);
    }
  }

  // ----- Lookups, searches and results -----

  lemma CacheOfOk(w: World, service: nat)
    requires CachesOk(w.repo, w.caches)
    ensures CacheOk(w.repo, CacheOf(w, service))
  {
  }

  /** Dropping entries keeps a cache good. */
  lemma FewerEntriesOk(repo: Repo, entries: Entries<Revision>, fewer: Entries<Revision>)
    requires CacheOk(repo, entries)
    requires forall key :: key in fewer ==> key in entries && fewer[key] == entries[key]
    ensures CacheOk(repo, fewer)
  {
  }

  lemma EntryAdded(repo: Repo, entries: Entries<Revision>, key: Key<Revision>, entry: Entry<Revision>)
    requires CacheOk(repo, entries) && EntryOk(repo, key, entry.result)
    ensures CacheOk(repo, entries[key := entry])
  {
  }

  lemma CachePutInPlace(repo: Repo, caches: map<nat, Entries<Revision>>, service: nat, entries: Entries<Revision>)
    requires CachesOk(repo, caches) && CacheOk(repo, entries)
    ensures CachesOk(repo, caches[service := entries])
  {
  }

  lemma PendingPutInPlace(repo: Repo, pending: map<nat, Pending>, id: nat, p: Pending)
    requires AllPendingOk(repo, pending) && PendingOk(repo, p)
    ensures AllPendingOk(repo, pending[id := p])
  {
  }

  lemma NewPendingOk(repo: Repo, service: nat, q: Query)
    ensures PendingOk(repo, NewPending(repo, service, q))
  {
  }

  lemma FoundOk(repo: Repo, p: Pending)
    requires PendingOk(repo, p)
    ensures PendingOk(repo, WithLexical(repo, p)) && PendingOk(repo, WithVector(repo, p))
  {
  }

  /** What a finished retrieval assembles is a good entry under its own key. */
  lemma MadeIsOk(repo: Repo, p: Pending, result: Result<Revision>)
    requires LabelsResults(repo.make) && PendingOk(repo, p) && p.lexical.Some? && p.vector.Some?
    requires MadeOf(repo.make, p) == Some(result)
    ensures EntryOk(repo, KeyOf(p.query, p.revision), result)
    ensures Key(p.query.tenant, result.query, result.revision, result.mode, p.query.limit) == KeyOf(p.query, p.revision)
  {
    assert MadeFrom(repo, KeyOf(p.query, p.revision), result, p.at, p.lexical.value.0, p.vector.value.0);
  }

  lemma BeginKeeps(w: World, id: nat, service: nat, q: Query)
    requires Inv(w)
    ensures Inv(BeginStep(w, id, service, q))
  {
    var left := AfterGet(CacheOf(w, service), KeyOf(q, CurrentRevision(w.repo, q.tenant)), w.clock);
    CacheOfOk(w, service);
    FewerEntriesOk(w.repo, CacheOf(w, service), left);
    CachePutInPlace(w.repo, w.caches, service, left);
    NewPendingOk(w.repo, service, q);
    PendingPutInPlace(w.repo, w.pending, id, NewPending(w.repo, service, q));
  }

  lemma SearchKeeps(w: World, id: nat)
    requires Inv(w) && id in w.pending
    ensures AllPendingOk(w.repo, w.pending[id := WithLexical(w.repo, w.pending[id])])
    ensures AllPendingOk(w.repo, w.pending[id := WithVector(w.repo, w.pending[id])])
  {
    FoundOk(w.repo, w.pending[id]);
    PendingPutInPlace(w.repo, w.pending, id, WithLexical(w.repo, w.pending[id]));
    PendingPutInPlace(w.repo, w.pending, id, WithVector(w.repo, w.pending[id]));
  }

  lemma PutKeeps(repo: Repo, entries: Entries<Revision>, p: Pending, result: Result<Revision>, expiresAt: nat)
    requires LabelsResults(repo.make) && PendingOk(repo, p) && p.lexical.Some? && p.vector.Some?
    requires MadeOf(repo.make, p) == Some(result) && CacheOk(repo, entries)
    ensures CacheOk(repo, AfterPut(entries, p.query.tenant, result, p.query.limit, expiresAt))
  {
    MadeIsOk(repo, p, result);
    EntryAdded(repo, entries, KeyOf(p.query, p.revision), Entry(result, expiresAt));
  }

  lemma PendingRemoved(repo: Repo, pending: map<nat, Pending>, id: nat)
    requires AllPendingOk(repo, pending)
    ensures AllPendingOk(repo, pending - {id})
  {
  }

  /** The caches once a finished retrieval has put its result into one of them. */
  lemma FinishedCachesOk(repo: Repo, caches: map<nat, Entries<Revision>>, before: Entries<Revision>, p: Pending,
                         result: Result<Revision>, expiresAt: nat, entries: Entries<Revision>)
    requires LabelsResults(repo.make) && PendingOk(repo, p) && p.lexical.Some? && p.vector.Some?
    requires MadeOf(repo.make, p) == Some(result) && CachesOk(repo, caches) && CacheOk(repo, before)
    requires entries == AfterPut(before, p.query.tenant, result, p.query.limit, expiresAt)
    ensures CachesOk(repo, caches[p.service := entries])
  {
    PutKeeps(repo, before, p, result, expiresAt);
    CachePutInPlace(repo, caches, p.service, entries);
  }

  lemma StoringIsPut(w: World, p: Pending, made: Option<Result<Revision>>, entries: Entries<Revision>)
    requires made.Some? ==>
      entries == AfterPut(CacheOf(w, p.service), p.query.tenant, made.value, p.query.limit, w.clock + w.ttl)
    ensures Storing(w, p, made) == if made.Some? then w.caches[p.service := entries] else w.caches
  {
  }

  lemma FinishKeeps(w: World, id: nat)
    requires Inv(w) && id in w.pending && w.pending[id].lexical.Some? && w.pending[id].vector.Some?
    ensures Inv(FinishStep(w, id))
  {
    var p := w.pending[id];
    var made, before := MadeOf(w.repo.make, p), CacheOf(w, p.service);
    var entries :=
      if made.Some? then AfterPut(before, p.query.tenant, made.value, p.query.limit, w.clock + w.ttl) else before;
    if made.Some? {
      CacheOfOk(w, p.service);
      FinishedCachesOk(w.repo, w.caches, before, p, made.value, w.clock + w.ttl, entries);
    }
    StoringIsPut(w, p, made, entries);
    PendingRemoved(w.repo, w.pending, id);
  }

  lemma InvalidateKeeps(w: World, service: nat, tenant: nat)
    requires Inv(w)
    ensures CachesOk(w.repo, w.caches[service := AfterInvalidate(CacheOf(w, service), tenant)])
  {
    CacheOfOk(w, service);
    FewerEntriesOk(w.repo, CacheOf(w, service), AfterInvalidate(CacheOf(w, service), tenant));
    CachePutInPlace(w.repo, w.caches, service, AfterInvalidate(CacheOf(w, service), tenant));
  }

  /** What every step keeps. */
  lemma StepKeeps(w: World, step: Step)
    requires Inv(w)
    ensures Inv(Next(w, step))
  {
    match step
    case Ingest(tenant, title, chunks) => IngestKeeps(w, tenant, title, chunks);
    case Begin(id, service, query) => BeginKeeps(w, id, service, query);
    case Finish(id) =>
      if id in w.pending && w.pending[id].lexical.Some? && w.pending[id].vector.Some? {
        FinishKeeps(w, id);
      }
    case SearchLexical(id) =>
      if id in w.pending {
        SearchKeeps(w, id);
      }
    case SearchVector(id) =>
      if id in w.pending {
        SearchKeeps(w, id);
      }
    case Invalidate(service, tenant) => InvalidateKeeps(w, service, tenant);
    case Tick(_) =>
  }

  lemma {:induction false} RunKeeps(w: World, steps: seq<Step>)
    requires Inv(w)
    ensures Inv(Run(w, steps))
    ensures Run(w, steps).repo.engine == w.repo.engine && Run(w, steps).repo.make == w.repo.make
    decreases |steps|
  {
    if steps != [] {
      StepKeeps(w, steps[0]);
      RunKeeps(Next(w, steps[0]), steps[1..]);
    }
  }

  lemma InitialIsOk(w: World)
    requires Initial(w)
    ensures Inv(w)
  {
    ServiceLabelsResults(w.repo.engine, w.repo.make);
    assert SumVersions(map[]) == 0;
  }

  // ----- Main results -----

  /** Made under the current revision means made from the current corpus alone. */
  lemma MadeNow(repo: Repo, key: Key<Revision>, result: Result<Revision>, at: nat, lexicalAt: nat, vectorAt: nat)
    requires HistoryOk(HistoryOf(repo, key.tenant))
    requires MadeFrom(repo, key, result, at, lexicalAt, vectorAt) && key.revision == CurrentRevision(repo, key.tenant)
    ensures var corpus := Current(repo, key.tenant);
      Some(result) == repo.make(key.revision, key.query, key.mode, key.limit,
        LexicalCandidates(repo.engine, corpus, key.query, key.mode, key.limit),
        VectorCandidates(repo.engine, corpus, key.query, key.mode, key.limit))
  {
    var history := HistoryOf(repo, key.tenant);
    RevisionsDiffer(repo.others, history, at, |history| - 1);
    assert lexicalAt == |history| - 1 && vectorAt == |history| - 1;
  }

  lemma HitIsFresh(w: World, service: nat, key: Key<Revision>, result: Result<Revision>)
    requires MakesAsService(w.repo.engine, w.repo.make) && Inv(w)
    requires Lookup(CacheOf(w, service), key, w.clock) == Some(result)
    requires key.revision == CurrentRevision(w.repo, key.tenant)
    ensures Some(result)
         == Fresh(w.repo.engine, Current(w.repo, key.tenant), key.revision, key.query, key.mode, key.limit)
  {
    CacheOfOk(w, service);
    assert EntryOk(w.repo, key, result);
    var at, lexicalAt, vectorAt :| MadeFrom(w.repo, key, result, at, lexicalAt, vectorAt);
    MadeNow(w.repo, key, result, at, lexicalAt, vectorAt);
  }

  /** In every reachable state, whatever any instance finds in its cache for the current revision
      is what retrieving afresh from the current corpus would return. */
  lemma CachedIsFresh(w: World, steps: seq<Step>, service: nat, q: Query, result: Result<Revision>)
    requires Initial(w)
    requires var w' := Run(w, steps);
      Lookup(CacheOf(w', service), KeyOf(q, CurrentRevision(w'.repo, q.tenant)), w'.clock) == Some(result)
    ensures var repo := Run(w, steps).repo;
      Some(result)
      == Fresh(w.repo.engine, Current(repo, q.tenant), CurrentRevision(repo, q.tenant), q.text, q.mode, q.limit)
  {
    InitialIsOk(w);
    RunKeeps(w, steps);
    var w' := Run(w, steps);
    HitIsFresh(w', service, KeyOf(q, CurrentRevision(w'.repo, q.tenant)), result);
  }

  /** An ingest moves the revision of its own tenant and of no other. */
  lemma IngestMovesOnlyItsTenant(w: World, tenant: nat, title: string, chunks: seq<Chunk>, other: nat)
    requires chunks != []
    ensures var after := Next(w, Ingest(tenant, title, chunks));
      CurrentRevision(after.repo, other) == CurrentRevision(w.repo, other) <==> other != tenant
  {
    PutRaisesSum(Current(w.repo, tenant), title, w.clock, chunks);
    var after := Next(w, Ingest(tenant, title, chunks));
    assert Current(after.repo, tenant) == PutDocument(Current(w.repo, tenant), title, w.clock, chunks);
    assert other != tenant ==> HistoryOf(after.repo, other) == HistoryOf(w.repo, other);
  }
}
