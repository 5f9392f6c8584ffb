/** The bounded event log kept in Redis: one stream and one sequence counter per job. */
module EventStore {
  import opened JobStatus
  import opened Wrappers

  type JobId = nat

  /** `UUID.randomUUID()` is modelled as an id built from the draw that made it, so that two
      draws never agree. A client may present any id at all, hence `ForeignId`. */
  datatype EventId =
    | StoredId(number: nat)
    | TransientId(number: nat)
    | SnapshotId(draw: nat)
    | ForeignId(tag: nat)

  datatype Signal = Signal(job: JobId, tenant: nat, trace: string, kind: string, status: Status, payload: string)

  datatype Event = Event(
    id: EventId, sequence: int, job: JobId, tenant: nat, trace: string, kind: string, status: Status, payload: string)

  /** How one append can end. `ReplyLost`: the script ran but the caller saw an exception. */
  datatype AppendOutcome = Appended | NotAppended | ReplyLost

  function EventOf(id: EventId, sequence: int, signal: Signal): Event {
    Event(id, sequence, signal.job, signal.tenant, signal.trace, signal.kind, signal.status, signal.payload)
  }

  /** The newest `length` elements. */
  function Newest<T>(events: seq<T>, length: nat): seq<T> {
    if |events| <= length then events else events[|events| - length..]
  }

  lemma NewestIsSuffix<T>(events: seq<T>, length: nat)
    ensures var kept := Newest(events, length);
      && |kept| <= length && |kept| <= |events| && kept == events[|events| - |kept|..]
      && (|kept| < |events| ==> |kept| == length)
  {
  }

  class RedisAnalysisEventStore {
    const maxLength: nat
    var streams: map<JobId, seq<Event>>
    var sequences: map<JobId, nat>

    constructor (maxLength: nat)
      ensures this.maxLength == maxLength && streams == map[] && sequences == map[]
    {
      this.maxLength := maxLength;
      streams, sequences := map[], map[];
    }

    function Stream(job: JobId): seq<Event>
      reads this
    {
      if job in streams then streams[job] else []
    }

    function Sequence(job: JobId): nat
      reads this
    {
      if job in sequences then sequences[job] else 0
    }

    /** The append script; `None` stands for the exception the caller sees. */
    method Append(signal: Signal, id: EventId, outcome: AppendOutcome) returns (event: Option<Event>)
      modifies this
      ensures var appended := EventOf(id, old(Sequence(signal.job)) + 1, signal);
        && event == (if outcome == Appended then Some(appended) else None)
        && Sequence(signal.job) == old(Sequence(signal.job)) + (if outcome == NotAppended then 0 else 1)
        && Stream(signal.job) == (if outcome == NotAppended then old(Stream(signal.job))
                                  else Newest(old(Stream(signal.job)) + [appended], maxLength))
      ensures forall job :: job != signal.job ==>
        Stream(job) == old(Stream(job)) && Sequence(job) == old(Sequence(job))
    {
      event := None;
      if outcome != NotAppended {
        var sequence := Sequence(signal.job) + 1;
        sequences := sequences[signal.job := sequence];
        var appended := EventOf(id, sequence, signal);
        streams := streams[signal.job := Newest(Stream(signal.job) + [appended], maxLength)];
        if outcome == Appended {
          event := Some(appended);
        }
      }
    }

    /** `None` stands for a failed or malformed read. */
    method ReadAll(job: JobId, fails: bool) returns (events: Option<seq<Event>>)
      ensures events == if fails then None else Some(Stream(job))
    {
      events := if fails then None else Some(Stream(job));
    }

    /** The retention period of one job's keys ends. */
    method Expire(job: JobId)
      modifies this
      ensures Stream(job) == [] && Sequence(job) == 0
      ensures forall other :: other != job ==>
        Stream(other) == old(Stream(other)) && Sequence(other) == old(Sequence(other))
    {
      streams, sequences := streams - {job}, sequences - {job};
    }
  }

  /** One append of one job: what it is asked to store, and how it ends. */
  datatype Attempt = Attempt(signal: Signal, id: EventId, outcome: AppendOutcome)

  /** All that has been stored since the log began, however much of it has been trimmed. */
  function EverStored(attempts: seq<Attempt>): seq<Event> {
    if attempts == [] then []
    else
      var before, last := EverStored(attempts[..|attempts| - 1]), attempts[|attempts| - 1];
      if last.outcome == NotAppended then before else before + [EventOf(last.id, |before| + 1, last.signal)]
  }

  /** The stream and the counter after such appends, each as `Append` leaves them. */
  function LogAfter(attempts: seq<Attempt>, maxLength: nat): (seq<Event>, nat) {
    if attempts == [] then ([], 0)
    else
      var (stream, sequence) := LogAfter(attempts[..|attempts| - 1], maxLength);
      var last := attempts[|attempts| - 1];
      if last.outcome == NotAppended then (stream, sequence)
      else (Newest(stream + [EventOf(last.id, sequence + 1, last.signal)], maxLength), sequence + 1)
  }

  /** What a read returns are the newest of all events stored, in order and numbered without a gap. */
  lemma {:induction false} ReadsNewestStored(attempts: seq<Attempt>, maxLength: nat)
    ensures LogAfter(attempts, maxLength) == (Newest(EverStored(attempts), maxLength), |EverStored(attempts)|)
    ensures var read := LogAfter(attempts, maxLength).0;
      forall i :: 0 <= i < |read| ==> read[i].sequence == |EverStored(attempts)| - |read| + i + 1
  {
    StoredInSequence(attempts);
    if attempts != [] {
      ReadsNewestStored(attempts[..|attempts| - 1], maxLength);
      NewestTwice(EverStored(attempts[..|attempts| - 1]), EverStored(attempts), maxLength);
    }
  }

  /** Trimming again and again keeps what trimming once would. */
  lemma NewestTwice(stored: seq<Event>, more: seq<Event>, length: nat)
    requires more == stored || (|more| == |stored| + 1 && more[..|stored|] == stored)
    ensures more != stored ==> Newest(Newest(stored, length) + [more[|stored|]], length) == Newest(more, length)
  {
    if more != stored {
      assert more == stored + [more[|stored|]];
    }
  }

  lemma {:induction false} StoredInSequence(attempts: seq<Attempt>)
    ensures forall i :: 0 <= i < |EverStored(attempts)| ==> EverStored(attempts)[i].sequence == i + 1
  {
    if attempts != [] {
      StoredInSequence(attempts[..|attempts| - 1]);
    }
  }
}

/** Publishing, replaying and subscribing under the lock of one job. */
module EventStream {
  import opened JobStatus
  import opened EventStore
  import opened Sequences

  type EmitterId = nat

  /** What an SSE emitter has put on its connection so far, and whether it still accepts more. */
  datatype Emitter = Emitter(sent: seq<Event>, open: bool)

  /** The `Last-Event-ID` header. */
  datatype LastEventId = Missing | Blank | Id(id: EventId)

  datatype Snapshot = Snapshot(job: JobId, tenant: nat, trace: string, version: nat, status: Status)

  /** Everything the service holds for one job. */
  datatype Server = Server(
    log: seq<Event>, sequence: nat, subscribers: seq<EmitterId>, emitters: map<EmitterId, Emitter>)

  function TransientEvent(id: EventId, signal: Signal): Event {
    EventOf(id, 0, signal)
  }

  function SnapshotEvent(id: EventId, snapshot: Snapshot): Event {
    Event(id, snapshot.version, snapshot.job, snapshot.tenant, snapshot.trace, "JOB_SNAPSHOT", snapshot.status,
          "postgresql")
  }

  function Without(subscribers: seq<EmitterId>, gone: set<EmitterId>): (rest: seq<EmitterId>)
    ensures forall e :: e in rest <==> e in subscribers && e !in gone
    ensures Distinct(subscribers) ==> Distinct(rest)
  {
    if subscribers == [] then [] else
      var rest := Without(subscribers[1..], gone);
      assert forall e :: e in subscribers <==> e == subscribers[0] || e in subscribers[1..];
      if subscribers[0] in gone then rest else [subscribers[0]] + rest
  }

  /** One emitter after a broadcast: a broken connection gets nothing and closes; a terminal
      event is the last one sent. */
  function AfterBroadcast(emitter: Emitter, event: Event, broken: bool): Emitter {
    if broken then emitter.(open := false)
    else Emitter(emitter.sent + [event], emitter.open && !IsTerminal(event.status))
  }

  /** The emitters the loop gets to before an unchecked exception ends it, if one does. */
  function Served(subscribers: seq<EmitterId>, reach: nat): seq<EmitterId> {
    if reach < |subscribers| then subscribers[..reach] else subscribers
  }

  /** Those it does not get to stay subscribed, without the event. */
  function Unserved(subscribers: seq<EmitterId>, reach: nat): seq<EmitterId> {
    if reach < |subscribers| then subscribers[reach..] else []
  }

  /** Those of the served emitters that are dropped: all after a terminal event, else the broken ones. */
  ghost function Dropped(served: seq<EmitterId>, event: Event, broken: set<EmitterId>): set<EmitterId> {
    set e | e in served && (IsTerminal(event.status) || e in broken)
  }

  lemma NobodyServed(emitters: map<EmitterId, Emitter>, current: seq<EmitterId>, event: Event, broken: set<EmitterId>)
    ensures Broadcasting(emitters, current[..0], event, broken) == emitters
    ensures Without(current, Dropped(current[..0], event, broken)) == current
  {
    assert Dropped(current[..0], event, broken) == {};
    WithoutNone(current);
  }

  lemma NextSubscriber(current: seq<EmitterId>, i: nat, event: Event, broken: set<EmitterId>)
    requires Distinct(current) && i < |current|
    ensures current[..i + 1] == current[..i] + [current[i]] && current[i] !in current[..i]
    ensures var before := Without(current, Dropped(current[..i], event, broken));
      && current[i] in before
      && Without(current, Dropped(current[..i + 1], event, broken))
         == if current[i] in broken || IsTerminal(event.status) then Without(before, {current[i]}) else before
  {
    TakeNext(current, i);
    var gone, more := Dropped(current[..i], event, broken), Dropped(current[..i + 1], event, broken);
    if current[i] in broken || IsTerminal(event.status) {
      assert more == gone + {current[i]};
      WithoutTwice(current, gone, current[i]);
    } else {
      assert more == gone;
    }
  }

  function BroadcastTo(s: Server, event: Event, broken: set<EmitterId>, reach: nat): Server {
    var served := Served(s.subscribers, reach);
    s.(subscribers := (if IsTerminal(event.status) then [] else Without(served, broken))
                      + Unserved(s.subscribers, reach),
       emitters := Broadcasting(s.emitters, served, event, broken))
  }

  /** All emitters once those in `reached` have had their turn. */
  function Broadcasting(emitters: map<EmitterId, Emitter>, reached: seq<EmitterId>, event: Event,
                        broken: set<EmitterId>): (after: map<EmitterId, Emitter>)
    ensures after.Keys == emitters.Keys
    ensures forall e :: e in emitters ==>
      after[e] == if e in reached then AfterBroadcast(emitters[e], event, e in broken) else emitters[e]
  {
    if reached == [] then emitters
    else
      var last := reached[|reached| - 1];
      assert forall e :: e in reached <==> e in reached[..|reached| - 1] || e == last;
      var before := Broadcasting(emitters, reached[..|reached| - 1], event, broken);
      if last in emitters then before[last := AfterBroadcast(emitters[last], event, last in broken)] else before
  }

  lemma BroadcastingNext(emitters: map<EmitterId, Emitter>, reached: seq<EmitterId>, e: EmitterId, event: Event,
                         broken: set<EmitterId>)
    requires e in emitters && e !in reached
    ensures var done := Broadcasting(emitters, reached, event, broken);
      && e in done && done[e] == emitters[e]
      && Broadcasting(emitters, reached + [e], event, broken)
         == done[e := AfterBroadcast(emitters[e], event, e in broken)]
  {
    assert (reached + [e])[..|reached|] == reached;
  }

  function PublishTo(s: Server, maxLength: nat, signal: Signal, stored: EventId, unstored: EventId,
                   outcome: AppendOutcome, broken: set<EmitterId>, reach: nat): Server
  {
    var appended := EventOf(stored, s.sequence + 1, signal);
    var logged := if outcome == NotAppended then s
                  else s.(log := Newest(s.log + [appended], maxLength), sequence := s.sequence + 1);
    BroadcastTo(logged, if outcome == Appended then appended else TransientEvent(unstored, signal), broken, reach)
  }

  /** What a publication comes to, by the way its append ends. */
  lemma PublishCases(s: Server, maxLength: nat, signal: Signal, stored: EventId, unstored: EventId,
                     outcome: AppendOutcome, broken: set<EmitterId>, reach: nat)
    ensures var published := PublishTo(s, maxLength, signal, stored, unstored, outcome, broken, reach);
      var appended, transient := EventOf(stored, s.sequence + 1, signal), TransientEvent(unstored, signal);
      var logged := s.(log := Newest(s.log + [appended], maxLength), sequence := s.sequence + 1);
      && (outcome == Appended ==> published == BroadcastTo(logged, appended, broken, reach))
      && (outcome == ReplyLost ==> published == BroadcastTo(logged, transient, broken, reach))
      && (outcome == NotAppended ==> published == BroadcastTo(s, transient, broken, reach))
  {
  }

  /** The position just behind the last event id, if the log still holds that event. */
  function IndexOf(events: seq<Event>, id: EventId): (index: int)
    ensures index == -1 ==> forall i :: 0 <= i < |events| ==> events[i].id != id
    ensures index != -1 ==> 0 <= index < |events| && events[index].id == id
    ensures index != -1 ==> forall i :: 0 <= i < index ==> events[i].id != id
  {
    if events == [] then -1
    else if events[0].id == id then 0
    else var rest := IndexOf(events[1..], id); if rest == -1 then -1 else rest + 1
  }

  function After(events: seq<Event>, last: LastEventId): seq<Event> {
    if !last.Id? then events
    else var index := IndexOf(events, last.id); if index == -1 then [] else events[index + 1..]
  }

  /** What a new subscriber is owed: a replay, or a snapshot when the log cannot tell. */
  function Greeting(events: seq<Event>, last: LastEventId, snapshot: Event): seq<Event> {
    if events == [] || (last.Id? && IndexOf(events, last.id) == -1) then [snapshot] else After(events, last)
  }

  /** `sends` is the number of sends that succeed before the connection breaks. */
  function SubscribeTo(s: Server, emitter: EmitterId, last: LastEventId, snapshot: Event, readFails: bool,
                       sends: nat): Server {
    var greeting := Greeting(if readFails then [] else s.log, last, snapshot);
    var stays := |greeting| <= sends && !IsTerminal(snapshot.status);
    s.(subscribers := if stays then s.subscribers + [emitter] else s.subscribers,
       emitters := s.emitters[emitter := Emitter(if |greeting| <= sends then greeting else greeting[..sends], stays)])
  }

  // ----- What subscribing and broadcasting come to, position by position -----

  /** An emitter that was put on a connection of its own and then sent `owed`: `sends` sends succeed, and
      it stays open if all did and the job is not over. */
  ghost predicate Greeted(emitter: Emitter, owed: seq<Event>, sends: nat, over: bool) {
    && |emitter.sent| == (if |owed| <= sends then |owed| else sends)
    && (forall k :: 0 <= k < |emitter.sent| ==> emitter.sent[k] == owed[k])
    && (emitter.open <==> |owed| <= sends && !over)
  }

  /** The log can tell what came behind the last event id: it holds the event, at `i` first. */
  ghost predicate HoldsAt(log: seq<Event>, last: LastEventId, i: nat) {
    && last.Id? && i < |log| && log[i].id == last.id
    && forall j :: 0 <= j < i ==> log[j].id != last.id
  }

  ghost predicate HoldsNot(log: seq<Event>, last: LastEventId) {
    last.Id? && forall i :: 0 <= i < |log| ==> log[i].id != last.id
  }

  /** A new emitter is sent what came behind the last event it knows of, or the whole log if it knows of
      none, and a snapshot exactly when the log is empty or unreadable, or does not hold that event. */
  ghost predicate Replays(log: seq<Event>, last: LastEventId, snapshot: Event, readFails: bool, sends: nat, over: bool,
                          emitter: Emitter) {
    && (!readFails ==> forall i: nat :: HoldsAt(log, last, i) ==> Greeted(emitter, log[i + 1..], sends, over))
    && (!readFails && !last.Id? && log != [] ==> Greeted(emitter, log, sends, over))
    && (readFails || log == [] || HoldsNot(log, last) ==> Greeted(emitter, [snapshot], sends, over))
  }

  lemma SubscribeMeaning(s: Server, emitter: EmitterId, last: LastEventId, snapshot: Event, readFails: bool,
                         sends: nat)
    ensures var s' := SubscribeTo(s, emitter, last, snapshot, readFails, sends);
      && emitter in s'.emitters
      && Replays(s.log, last, snapshot, readFails, sends, IsTerminal(snapshot.status), s'.emitters[emitter])
      && s'.subscribers == s.subscribers + (if s'.emitters[emitter].open then [emitter] else [])
      && s'.log == s.log && s'.sequence == s.sequence
      && s'.emitters == s.emitters[emitter := s'.emitters[emitter]]
  {
    var after := SubscribeTo(s, emitter, last, snapshot, readFails, sends).emitters[emitter];
    assert s.subscribers + [] == s.subscribers;
    forall i: nat | !readFails && HoldsAt(s.log, last, i)
      ensures Greeted(after, s.log[i + 1..], sends, IsTerminal(snapshot.status))
    {
      assert IndexOf(s.log, last.id) == i;
    }
    if readFails || s.log == [] || HoldsNot(s.log, last) {
      assert Greeting(if readFails then [] else s.log, last, snapshot) == [snapshot];
    }
  }

  /** An emitter the loop gets to is sent the event unless its connection breaks; it stays open unless it
      broke or the event is the last. One behind an unchecked exception is left alone. */
  ghost predicate EmitterDelivered(before: Emitter, after: Emitter, event: Event, broken: bool, reached: bool) {
    if !reached then after == before
    else
      && after.sent == before.sent + (if broken then [] else [event])
      && (after.open <==> !broken && before.open && !IsTerminal(event.status))
  }

  /** That goes for every subscriber by its place; those it does not drop stay subscribed; and everybody
      else's emitters are left alone. */
  ghost predicate Delivered(listed: seq<EmitterId>, before: map<EmitterId, Emitter>, listed': seq<EmitterId>,
                            after: map<EmitterId, Emitter>, event: Event, broken: set<EmitterId>, reach: nat) {
    && after.Keys == before.Keys
    && (forall p :: 0 <= p < |listed| && listed[p] in before ==>
          && EmitterDelivered(before[listed[p]], after[listed[p]], event, listed[p] in broken, p < reach)
          && (listed[p] in listed' <==> p >= reach || (listed[p] !in broken && !IsTerminal(event.status))))
    && (forall e :: e in before && e !in listed ==> after[e] == before[e])
    && (forall e :: e in listed' ==> e in listed)
  }

  lemma ServedPosition(subscribers: seq<EmitterId>, reach: nat, p: nat)
    requires Distinct(subscribers) && p < |subscribers|
    ensures p < reach ==>
      subscribers[p] in Served(subscribers, reach) && subscribers[p] !in Unserved(subscribers, reach)
    ensures p >= reach ==>
      subscribers[p] in Unserved(subscribers, reach) && subscribers[p] !in Served(subscribers, reach)
  {
    var served, left := Served(subscribers, reach), Unserved(subscribers, reach);
    assert forall j :: 0 <= j < |served| ==> served[j] == subscribers[j];
    assert forall j :: 0 <= j < |left| ==> left[j] == subscribers[|served| + j];
    assert p < reach ==> served[p] == subscribers[p];
    assert p >= reach ==> left[p - reach] == subscribers[p];
  }

  lemma BroadcastSubscribers(s: Server, event: Event, broken: set<EmitterId>, reach: nat)
    ensures forall e :: e in BroadcastTo(s, event, broken, reach).subscribers <==>
      || e in Unserved(s.subscribers, reach)
      || (e in Served(s.subscribers, reach) && e !in broken && !IsTerminal(event.status))
    ensures forall e :: e in s.subscribers <==> e in Served(s.subscribers, reach) || e in Unserved(s.subscribers, reach)
  {
    assert s.subscribers == Served(s.subscribers, reach) + Unserved(s.subscribers, reach);
  }

  lemma BroadcastEmitter(s: Server, event: Event, broken: set<EmitterId>, reach: nat, e: EmitterId)
    requires e in s.emitters
    ensures var after := BroadcastTo(s, event, broken, reach).emitters;
      e in after && EmitterDelivered(s.emitters[e], after[e], event, e in broken, e in Served(s.subscribers, reach))
  {
    assert s.emitters[e].sent + [] == s.emitters[e].sent;
  }

  lemma BroadcastMeaning(s: Server, event: Event, broken: set<EmitterId>, reach: nat)
    requires Distinct(s.subscribers)
    ensures var s' := BroadcastTo(s, event, broken, reach);
      Delivered(s.subscribers, s.emitters, s'.subscribers, s'.emitters, event, broken, reach)
  {
    BroadcastSubscribers(s, event, broken, reach);
    forall p | 0 <= p < |s.subscribers| && s.subscribers[p] in s.emitters
      ensures var s' := BroadcastTo(s, event, broken, reach);
        && EmitterDelivered(s.emitters[s.subscribers[p]], s'.emitters[s.subscribers[p]], event,
                            s.subscribers[p] in broken, p < reach)
        && (s.subscribers[p] in s'.subscribers <==>
              p >= reach || (s.subscribers[p] !in broken && !IsTerminal(event.status)))
    {
      ServedPosition(s.subscribers, reach, p);
      BroadcastEmitter(s, event, broken, reach, s.subscribers[p]);
    }
    forall e | e in s.emitters && e !in s.subscribers
      ensures BroadcastTo(s, event, broken, reach).emitters[e] == s.emitters[e]
    {
      BroadcastEmitter(s, event, broken, reach, e);
    }
  }

  /** The emitter completes, times out or fails outside a send. */
  function Close(s: Server, emitter: EmitterId): Server {
    if emitter !in s.emitters then s
    else s.(subscribers := Without(s.subscribers, {emitter}),
            emitters := s.emitters[emitter := s.emitters[emitter].(open := false)])
  }

  class AnalysisEventStreamService {
    const store: RedisAnalysisEventStore
    var subscribers: map<JobId, seq<EmitterId>>
    var emitters: map<EmitterId, Emitter>

    constructor (store: RedisAnalysisEventStore)
      ensures this.store == store && subscribers == map[] && emitters == map[] && Valid()
    {
      this.store := store;
      subscribers, emitters := map[], map[];
    }

    function Subscribers(job: JobId): seq<EmitterId>
      reads this
    {
      if job in subscribers then subscribers[job] else []
    }

    function View(job: JobId): Server
      reads this, store
    {
      Server(store.Stream(job), store.Sequence(job), Subscribers(job), emitters)
    }

    /** Every list of subscribers is non-empty, without repeats, and of open emitters; no
        emitter listens to two jobs. */
    ghost predicate Valid()
      reads this
    {
      && (forall job :: job in subscribers ==> subscribers[job] != [] && Distinct(subscribers[job]))
      && (forall job, e :: job in subscribers && e in subscribers[job] ==> e in emitters && emitters[e].open)
      && (forall job, other, e :: job in subscribers && other in subscribers && job != other && e in subscribers[job]
            ==> e !in subscribers[other])
    }

    method RemoveSubscriber(job: JobId, emitter: EmitterId)
      requires Valid()
      modifies this`subscribers
      ensures Valid()
      ensures Subscribers(job) == Without(old(Subscribers(job)), {emitter})
      ensures forall other :: other != job ==> Subscribers(other) == old(Subscribers(other))
    {
      if job in subscribers {
        var current := Without(subscribers[job], {emitter});
        if current == [] {
          subscribers := subscribers - {job};
        } else {
          subscribers := subscribers[job := current];
        }
      }
    }

    method Complete(emitter: EmitterId)
      requires emitter in emitters
      modifies this`emitters
      ensures emitters == old(emitters)[emitter := old(emitters)[emitter].(open := false)]
    {
      emitters := emitters[emitter := emitters[emitter].(open := false)];
    }

    method Send(emitter: EmitterId, event: Event)
      requires emitter in emitters
      modifies this`emitters
      ensures emitters
           == old(emitters)[emitter := old(emitters)[emitter].(sent := old(emitters)[emitter].sent + [event])]
    {
      emitters := emitters[emitter := emitters[emitter].(sent := emitters[emitter].sent + [event])];
    }

    method OnClose(job: JobId, emitter: EmitterId)
      requires Valid() && emitter in emitters
      requires forall other :: other in subscribers && emitter in subscribers[other] ==> other == job
      modifies this
      ensures Valid() && View(job) == Close(old(View(job)), emitter)
      ensures Subscribers(job) == Without(old(Subscribers(job)), {emitter})
      ensures emitters == old(emitters)[emitter := old(emitters)[emitter].(open := false)]
      ensures forall other :: other != job ==> Subscribers(other) == old(Subscribers(other))
    {
      RemoveSubscriber(job, emitter);
      assert forall other :: other in subscribers ==> emitter !in Subscribers(other);
      Complete(emitter);
    }

    /** One turn of the broadcast loop: send, and drop the emitter if that broke it or was
        the last event. */
    method BroadcastOne(event: Event, emitter: EmitterId, broken: bool)
      requires Valid() && emitter in Subscribers(event.job)
      modifies this
      ensures Valid()
      ensures emitter in old(emitters)
      ensures emitters == old(emitters)[emitter := AfterBroadcast(old(emitters)[emitter], event, broken)]
      ensures Subscribers(event.job) == if broken || IsTerminal(event.status)
                                        then Without(old(Subscribers(event.job)), {emitter})
                                        else old(Subscribers(event.job))
      ensures forall other :: other != event.job ==> Subscribers(other) == old(Subscribers(other))
    {
      assert forall other :: other in subscribers && emitter in subscribers[other] ==> other == event.job;
      if !broken {
        Send(emitter, event);
      }
      if broken || IsTerminal(event.status) {
        OnClose(event.job, emitter);
      }
    }

    /** The turn of subscriber `i`, after those before it have had theirs. */
    method ServeNext(event: Event, current: seq<EmitterId>, i: nat, broken: set<EmitterId>,
                     ghost start: map<EmitterId, Emitter>)
      requires Valid() && Distinct(current) && i < |current| && current[i] in start
      requires emitters == Broadcasting(start, current[..i], event, broken)
      requires Subscribers(event.job) == Without(current, Dropped(current[..i], event, broken))
      modifies this
      ensures Valid() && emitters == Broadcasting(start, current[..i + 1], event, broken)
      ensures Subscribers(event.job) == Without(current, Dropped(current[..i + 1], event, broken))
      ensures forall other :: other != event.job ==> Subscribers(other) == old(Subscribers(other))
    {
      var emitter := current[i];
      NextSubscriber(current, i, event, broken);
      BroadcastingNext(start, current[..i], emitter, event, broken);
      BroadcastOne(event, emitter, emitter in broken);
    }

    /** The broadcast loop over the first `count` subscribers. */
    method ServeFirst(event: Event, current: seq<EmitterId>, count: nat, broken: set<EmitterId>)
      requires Valid() && current == Subscribers(event.job) && count <= |current|
      modifies this
      ensures Valid() && emitters == Broadcasting(old(emitters), current[..count], event, broken)
      ensures Subscribers(event.job) == Without(current, Dropped(current[..count], event, broken))
      ensures forall other :: other != event.job ==> Subscribers(other) == old(Subscribers(other))
    {
      NobodyServed(emitters, current, event, broken);
      assert forall e :: e in current ==> e in emitters;
      for i := 0 to count
        invariant Valid()
        invariant emitters == Broadcasting(old(emitters), current[..i], event, broken)
        invariant Subscribers(event.job) == Without(current, Dropped(current[..i], event, broken))
        invariant forall other :: other != event.job ==> Subscribers(other) == old(Subscribers(other))
      {
        ServeNext(event, current, i, broken, old(emitters));
      }
    }

    /** `reach` emitters get their turn before a send throws anything but an `IOException`. */
    method Broadcast(event: Event, broken: set<EmitterId>, reach: nat) returns (threw: bool)
      requires Valid()
      modifies this
      ensures Valid() && View(event.job) == BroadcastTo(old(View(event.job)), event, broken, reach)
      ensures Delivered(old(Subscribers(event.job)), old(emitters), Subscribers(event.job), emitters, event, broken,
                        reach)
      ensures threw <==> reach < |old(Subscribers(event.job))|
      ensures forall other :: other != event.job ==> Subscribers(other) == old(Subscribers(other))
    {
      var current := Subscribers(event.job);
      BroadcastMeaning(View(event.job), event, broken, reach);
      threw := reach < |current|;
      var count := if threw then reach else |current|;
      assert current[..count] == Served(current, reach);
      ServeFirst(event, current, count, broken);
      WithoutServed(current, Dropped(current[..count], event, broken), broken, IsTerminal(event.status), reach);
    }

    method Publish(signal: Signal, stored: EventId, unstored: EventId, outcome: AppendOutcome, broken: set<EmitterId>,
                   reach: nat)
      returns (event: Event, threw: bool)
      requires Valid()
      modifies this, store
      ensures Valid()
      ensures View(signal.job)
           == PublishTo(old(View(signal.job)), store.maxLength, signal, stored, unstored, outcome, broken, reach)
      ensures event.id == if outcome == Appended then stored else unstored
      ensures event.sequence == if outcome == Appended then old(store.Sequence(signal.job)) + 1 else 0
      ensures event.job == signal.job && event.kind == signal.kind && event.status == signal.status
      ensures event.tenant == signal.tenant && event.trace == signal.trace && event.payload == signal.payload
      ensures Delivered(old(Subscribers(signal.job)), old(emitters), Subscribers(signal.job), emitters, event, broken,
                        reach)
      ensures threw <==> reach < |old(Subscribers(signal.job))|
      ensures forall other :: other != signal.job ==>
        Subscribers(other) == old(Subscribers(other)) && store.Stream(other) == old(store.Stream(other))
    {
      ghost var s := View(signal.job);
      var appended := store.Append(signal, stored, outcome);
      event := if appended.Some? then appended.value else TransientEvent(unstored, signal);
      assert event.job == signal.job;
      PublishCases(s, store.maxLength, signal, stored, unstored, outcome, broken, reach);
      threw := Broadcast(event, broken, reach);
    }

    method SafeRead(job: JobId, fails: bool) returns (events: seq<Event>)
      ensures events == if fails then [] else store.Stream(job)
    {
      var read := store.ReadAll(job, fails);
      events := if read.Some? then read.value else [];
    }

    /** The index loop shared by replaying and subscribing. */
    method EventsAfter(events: seq<Event>, last: LastEventId) returns (later: seq<Event>)
      ensures later == After(events, last)
      ensures !last.Id? ==> later == events
      ensures forall i: nat :: HoldsAt(events, last, i) ==> later == events[i + 1..]
      ensures HoldsNot(events, last) ==> later == []
    {
      if !last.Id? {
        return events;
      }
      for index := 0 to |events|
        invariant forall i :: 0 <= i < index ==> events[i].id != last.id
      {
        if events[index].id == last.id {
          return events[index + 1..];
        }
      }
      return [];
    }

    method Replay(job: JobId, last: LastEventId, readFails: bool) returns (events: seq<Event>)
      ensures events == After(if readFails then [] else store.Stream(job), last)
      ensures readFails ==> events == []
      ensures !readFails && !last.Id? ==> events == store.Stream(job)
      ensures !readFails ==>
        forall i: nat :: HoldsAt(store.Stream(job), last, i) ==> events == store.Stream(job)[i + 1..]
      ensures !readFails && HoldsNot(store.Stream(job), last) ==> events == []
    {
      var read := SafeRead(job, readFails);
      events := EventsAfter(read, last);
    }

    /** `emitter` is new; `sends` sends succeed before the connection breaks. */
    method Subscribe(snapshot: Snapshot, snapshotId: EventId, last: LastEventId, emitter: EmitterId, readFails: bool,
                     sends: nat)
      requires Valid() && emitter !in emitters
      modifies this
      ensures Valid()
      ensures View(snapshot.job) == SubscribeTo(old(View(snapshot.job)), emitter, last,
                                                          SnapshotEvent(snapshotId, snapshot), readFails, sends)
      ensures emitter in emitters && emitters == old(emitters)[emitter := emitters[emitter]]
      ensures Replays(old(store.Stream(snapshot.job)), last, SnapshotEvent(snapshotId, snapshot), readFails, sends,
                      IsTerminal(snapshot.status), emitters[emitter])
      ensures var event := SnapshotEvent(snapshotId, snapshot);
        && event.id == snapshotId && event.kind == "JOB_SNAPSHOT" && event.status == snapshot.status
        && event.sequence == snapshot.version && event.job == snapshot.job && event.tenant == snapshot.tenant
        && event.trace == snapshot.trace
      ensures Subscribers(snapshot.job)
           == old(Subscribers(snapshot.job)) + (if emitters[emitter].open then [emitter] else [])
      ensures forall other :: other != snapshot.job ==> Subscribers(other) == old(Subscribers(other))
    {
      SubscribeMeaning(View(snapshot.job), emitter, last, SnapshotEvent(snapshotId, snapshot), readFails, sends);
      var events := SafeRead(snapshot.job, readFails);
      var greeting := EventsAfter(events, last);
      if events == [] || (last.Id? && greeting == [] && IndexOf(events, last.id) == -1) {
        greeting := [SnapshotEvent(snapshotId, snapshot)];
      }
      Greet(snapshot.job, emitter, greeting, IsTerminal(snapshot.status), sends);
    }

    /** Registers the emitter first, so that nothing published later can be missed, then sends. */
    method Greet(job: JobId, emitter: EmitterId, greeting: seq<Event>, terminal: bool, sends: nat)
      requires Valid() && emitter !in emitters
      modifies this
      ensures Valid()
      ensures |greeting| <= sends && !terminal ==> Subscribers(job) == old(Subscribers(job)) + [emitter]
      ensures |greeting| > sends || terminal ==> Subscribers(job) == old(Subscribers(job))
      ensures |greeting| <= sends ==> emitters == old(emitters)[emitter := Emitter(greeting, !terminal)]
      ensures |greeting| > sends ==> emitters == old(emitters)[emitter := Emitter(greeting[..sends], false)]
      ensures forall other :: other != job ==> Subscribers(other) == old(Subscribers(other))
    {
      ghost var listed := Subscribers(job);
      Register(job, emitter);
      var broke := SendAll(emitter, greeting, sends);
      ghost var sent := if broke then greeting[..sends] else greeting;
      assert [] + sent == sent;
      PutTwice(old(emitters), emitter, Emitter([], true), Emitter(sent, true));
      if broke || terminal {
        WithoutLast(listed, emitter);
        PutTwice(old(emitters), emitter, Emitter(sent, true), Emitter(sent, false));
        OnClose(job, emitter);
      }
    }

    method Register(job: JobId, emitter: EmitterId)
      requires Valid() && emitter !in emitters
      modifies this
      ensures Valid()
      ensures Subscribers(job) == old(Subscribers(job)) + [emitter]
      ensures emitters == old(emitters)[emitter := Emitter([], true)]
      ensures forall other :: other != job ==> Subscribers(other) == old(Subscribers(other))
      ensures forall other :: other in subscribers && emitter in subscribers[other] ==> other == job
    {
      assert forall other :: other in subscribers ==> emitter !in subscribers[other];
      subscribers := subscribers[job := Subscribers(job) + [emitter]];
      emitters := emitters[emitter := Emitter([], true)];
    }

    /** Sends in order until a send fails; reports whether one did. */
    method SendAll(emitter: EmitterId, events: seq<Event>, sends: nat) returns (broke: bool)
      requires Valid() && emitter in emitters && emitters[emitter].open
      modifies this`emitters
      ensures Valid()
      ensures broke == (sends < |events|)
      ensures emitters == old(emitters)[emitter := Emitter(
                old(emitters)[emitter].sent + (if broke then events[..sends] else events), true)]
    {
      var sent := 0;
      ghost var before := emitters[emitter].sent;
      while sent < |events| && sent < sends
        invariant sent <= |events| && sent <= sends
        invariant emitter in emitters && emitters[emitter].open && emitters[emitter].sent == before + events[..sent]
        invariant emitters == old(emitters)[emitter := emitters[emitter]] && Valid()
      {
        Send(emitter, events[sent]);
        sent := sent + 1;
        assert events[..sent] == events[..sent - 1] + [events[sent - 1]];
      }
      assert |events| <= sends ==> events[..sent] == events;
      broke := sent < |events|;
    }
  }

  lemma PutTwice<K, V>(m: map<K, V>, k: K, first: V, second: V)
    ensures m[k := first][k := second] == m[k := second]
  {
  }

  lemma {:induction false} WithoutTwice(s: seq<EmitterId>, gone: set<EmitterId>, e: EmitterId)
    ensures Without(Without(s, gone), {e}) == Without(s, gone + {e})
  {
    if s != [] {
      WithoutTwice(s[1..], gone, e);
    }
  }

  lemma {:induction false} WithoutSame(s: seq<EmitterId>, gone: set<EmitterId>, others: set<EmitterId>)
    requires forall e :: e in s ==> (e in gone <==> e in others)
    ensures Without(s, gone) == Without(s, others)
  {
    if s != [] {
      assert s[0] in s && forall e :: e in s[1..] ==> e in s;
      WithoutSame(s[1..], gone, others);
    }
  }

  lemma {:induction false} WithoutAll(s: seq<EmitterId>, gone: set<EmitterId>)
    requires forall e :: e in s ==> e in gone
    ensures Without(s, gone) == []
  {
    if s != [] {
      assert s[0] in s && forall e :: e in s[1..] ==> e in s;
      WithoutAll(s[1..], gone);
    }
  }

  lemma {:induction false} WithoutBoth(s: seq<EmitterId>, more: seq<EmitterId>, gone: set<EmitterId>)
    ensures Without(s + more, gone) == Without(s, gone) + Without(more, gone)
  {
    if s == [] {
      assert s + more == more;
    } else {
      assert (s + more)[1..] == s[1..] + more;
      WithoutBoth(s[1..], more, gone);
    }
  }

  /** What is left of the subscribers when the served ones that broke or were told the end are gone. */
  lemma WithoutServed(current: seq<EmitterId>, gone: set<EmitterId>, broken: set<EmitterId>, terminal: bool, reach: nat)
    requires Distinct(current)
    requires forall e :: e in gone <==> e in Served(current, reach) && (terminal || e in broken)
    ensures Without(current, gone)
         == (if terminal then [] else Without(Served(current, reach), broken)) + Unserved(current, reach)
  {
    var served, left := Served(current, reach), Unserved(current, reach);
    assert current == served + left;
    WithoutBoth(served, left, gone);
    forall e | e in left
      ensures e !in gone
    {
      var j :| 0 <= j < |left| && left[j] == e;
      assert current[|served| + j] == e;
    }
    WithoutSame(left, gone, {});
    WithoutNone(left);
    if terminal {
      WithoutAll(served, gone);
    } else {
      WithoutSame(served, gone, broken);
    }
  }

  lemma {:induction false} WithoutNone(s: seq<EmitterId>)
    ensures Without(s, {}) == s
  {
    if s != [] {
      WithoutNone(s[1..]);
    }
  }

  lemma {:induction false} WithoutLast(s: seq<EmitterId>, e: EmitterId)
    requires e !in s
    ensures Without(s + [e], {e}) == s
  {
    if s != [] {
      assert (s + [e])[1..] == s[1..] + [e];
      WithoutLast(s[1..], e);
    }
  }
}
