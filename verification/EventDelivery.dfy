/** Whole runs of one job's event stream: publishes, failed appends, trimming, expiry, lost
    connections and reconnecting clients, in any order. */
module EventDelivery {
  import opened JobStatus
  import opened EventStore
  import opened EventStream
  import opened Sequences

  datatype Connection = Disconnected | Connected(emitter: EmitterId, read: nat)

  /** The reconnect loop of a client: its cursor, its connection, and all it gave to `onEvent`.
      `missed` are the publications whose broadcast broke off before it got to the client's connection. */
  datatype Client = Client(cursor: LastEventId, connection: Connection, received: seq<Event>, missed: set<nat>)

  /** `outcomes[n]` is how the append of the n-th publication ended. */
  datatype World = World(
    maxLength: nat, server: Server, outcomes: seq<AppendOutcome>, emitterCount: nat, snapshotCount: nat,
    clients: map<nat, Client>)

  datatype Step =
    | PublishSignal(signal: Signal, outcome: AppendOutcome, broken: set<EmitterId>, reach: nat)
    | ExpireLog
    | CloseEmitter(emitter: EmitterId)
    | Connect(client: nat, snapshot: Snapshot, readFails: bool, sends: nat)
    | Deliver(client: nat)
    | LoseConnection(client: nat)

  function Behind(c: Client, server: Server, reach: nat, n: nat): Client {
    if c.connection.Connected? && c.connection.emitter in Unserved(server.subscribers, reach)
    then c.(missed := c.missed + {n}) else c
  }

  function PublishStep(w: World, signal: Signal, outcome: AppendOutcome, broken: set<EmitterId>, reach: nat): World {
    var n := |w.outcomes|;
    w.(server := PublishTo(w.server, w.maxLength, signal, StoredId(n), TransientId(n), outcome, broken, reach),
       outcomes := w.outcomes + [outcome],
       clients := map c | c in w.clients :: Behind(w.clients[c], w.server, reach, n))
  }

  function ConnectStep(w: World, client: nat, snapshot: Snapshot, readFails: bool, sends: nat): World
    requires client in w.clients
  {
    var event := SnapshotEvent(SnapshotId(w.snapshotCount), snapshot);
    var c := w.clients[client];
    w.(server := SubscribeTo(w.server, w.emitterCount, c.cursor, event, readFails, sends),
       emitterCount := w.emitterCount + 1,
       snapshotCount := w.snapshotCount + 1,
       clients := w.clients[client := c.(connection := Connected(w.emitterCount, 0))])
  }

  /** The client reads one event: the cursor moves before the handler runs. */
  function Read(c: Client, emitters: map<EmitterId, Emitter>): Client {
    if c.connection.Disconnected? || c.connection.emitter !in emitters
       || |emitters[c.connection.emitter].sent| <= c.connection.read then c
    else
      var event := emitters[c.connection.emitter].sent[c.connection.read];
      c.(cursor := Id(event.id), connection := c.connection.(read := c.connection.read + 1),
         received := c.received + [event])
  }

  function Next(w: World, step: Step): World {
    match step
    case PublishSignal(signal, outcome, broken, reach) => PublishStep(w, signal, outcome, broken, reach)
    case ExpireLog => w.(server := w.server.(log := [], sequence := 0))
    case CloseEmitter(emitter) => w.(server := Close(w.server, emitter))
    case Connect(client, snapshot, readFails, sends) =>
      if client in w.clients && w.clients[client].connection.Disconnected?
      then ConnectStep(w, client, snapshot, readFails, sends) else w
    case Deliver(client) =>
      if client in w.clients then w.(clients := w.clients[client := Read(w.clients[client], w.server.emitters)]) else w
    case LoseConnection(client) =>
      if client in w.clients then w.(clients := w.clients[client := w.clients[client].(connection := Disconnected)])
      else w
  }

  function Run(w: World, steps: seq<Step>): World
    decreases |steps|
  {
    if steps == [] then w else Run(Next(w, steps[0]), steps[1..])
  }

  /** Nothing published yet; any number of clients, each with any cursor of its own. */
  ghost predicate Initial(w: World) {
    && w.server == Server([], 0, [], map[])
    && w.outcomes == [] && w.emitterCount == 0
    && forall c :: c in w.clients ==>
         && w.clients[c].connection.Disconnected? && w.clients[c].received == [] && w.clients[c].missed == {}
  }

  // ----- What a client may conclude from the events it received -----

  predicate IsSignal(event: Event) {
    event.id.StoredId? || event.id.TransientId?
  }

  /** The number of the publication an event announces. */
  function Number(event: Event): nat
    requires IsSignal(event)
  {
    event.id.number
  }

  predicate WasStored(outcomes: seq<AppendOutcome>, n: nat) {
    n < |outcomes| && outcomes[n] != NotAppended
  }

  /** Stored, and not missed. */
  predicate Owed(outcomes: seq<AppendOutcome>, missed: set<nat>, n: nat) {
    WasStored(outcomes, n) && n !in missed
  }

  /** Every event announces a publication in the form its outcome allows, or is a snapshot. */
  ghost predicate Genuine(outcomes: seq<AppendOutcome>, events: seq<Event>) {
    forall i :: 0 <= i < |events| ==>
      match events[i].id
      case StoredId(n) => WasStored(outcomes, n)
      case TransientId(n) => n < |outcomes| && outcomes[n] != Appended
      case SnapshotId(_) => events[i].kind == "JOB_SNAPSHOT"
      case ForeignId(_) => false
  }

  /** Publish order, and no publication announced twice, whatever its form. */
  ghost predicate InOrder(events: seq<Event>) {
    forall i, j :: 0 <= i < j < |events| && IsSignal(events[i]) && IsSignal(events[j]) ==>
      Number(events[i]) < Number(events[j])
  }

  /** Between two signals that follow each other directly, no stored publication was skipped but
      those missed. */
  ghost predicate Gapless(outcomes: seq<AppendOutcome>, missed: set<nat>, events: seq<Event>) {
    forall i, j, n :: (0 <= i < j < |events| && j == i + 1 && IsSignal(events[i]) && IsSignal(events[j])
                       && Number(events[i]) < n < Number(events[j])) ==> !Owed(outcomes, missed, n)
  }

  ghost predicate Faithful(outcomes: seq<AppendOutcome>, missed: set<nat>, events: seq<Event>) {
    Genuine(outcomes, events) && InOrder(events) && Gapless(outcomes, missed, events)
  }

  /** No stored publication but those missed lies behind the last event. */
  ghost predicate CaughtUp(outcomes: seq<AppendOutcome>, missed: set<nat>, events: seq<Event>) {
    events != [] && IsSignal(events[|events| - 1]) ==>
      forall n :: Number(events[|events| - 1]) < n ==> !Owed(outcomes, missed, n)
  }

  ghost predicate AllStored(events: seq<Event>) {
    forall i :: 0 <= i < |events| ==> events[i].id.StoredId?
  }

  lemma FaithfulSlice(outcomes: seq<AppendOutcome>, missed: set<nat>, events: seq<Event>, from: nat, to: nat)
    requires Faithful(outcomes, missed, events) && from <= to <= |events|
    ensures Faithful(outcomes, missed, events[from..to])
  {
    var part := events[from..to];
    forall i, j, n | 0 <= i < j < |part| && j == i + 1 && IsSignal(part[i]) && IsSignal(part[j])
                     && Number(part[i]) < n < Number(part[j])
      ensures !Owed(outcomes, missed, n)
    {
      assert part[i] == events[from + i] && part[j] == events[from + j];
    }
  }

  /** One more publication does not disturb what was received before it. */
  lemma FaithfulLater(outcomes: seq<AppendOutcome>, missed: set<nat>, outcome: AppendOutcome, events: seq<Event>)
    requires Faithful(outcomes, missed, events)
    ensures Faithful(outcomes + [outcome], missed, events)
  {
    forall i, j, n | 0 <= i < j < |events| && j == i + 1 && IsSignal(events[i]) && IsSignal(events[j])
                     && Number(events[i]) < n < Number(events[j])
      ensures !Owed(outcomes + [outcome], missed, n)
    {
      assert Number(events[j]) < |outcomes|;
      assert !Owed(outcomes, missed, n);
    }
  }

  /** A reader that is caught up stays faithful and caught up when the next publication reaches it. */
  lemma FaithfulNext(outcomes: seq<AppendOutcome>, missed: set<nat>, outcome: AppendOutcome, events: seq<Event>,
                     event: Event)
    requires Faithful(outcomes, missed, events) && CaughtUp(outcomes, missed, events)
    requires event.id == (if outcome == Appended then StoredId(|outcomes|) else TransientId(|outcomes|))
          || (outcome != NotAppended && event.id == StoredId(|outcomes|))
    ensures Faithful(outcomes + [outcome], missed, events + [event])
    ensures CaughtUp(outcomes + [outcome], missed, events + [event])
  {
    var outcomes', events' := outcomes + [outcome], events + [event];
    FaithfulLater(outcomes, missed, outcome, events);
    forall i, j, n | 0 <= i < j < |events'| && j == i + 1 && IsSignal(events'[i]) && IsSignal(events'[j])
                     && Number(events'[i]) < n < Number(events'[j])
      ensures !Owed(outcomes', missed, n)
    {
      if j < |events| {
        assert events'[i] == events[i] && events'[j] == events[j];
      } else {
        assert !Owed(outcomes, missed, n);
      }
    }
  }

  /** A snapshot may be appended to anything: what follows it starts afresh. */
  lemma FaithfulSnapshot(outcomes: seq<AppendOutcome>, missed: set<nat>, events: seq<Event>, snapshot: Event)
    requires Faithful(outcomes, missed, events) && snapshot.id.SnapshotId? && snapshot.kind == "JOB_SNAPSHOT"
    ensures Faithful(outcomes, missed, events + [snapshot]) && CaughtUp(outcomes, missed, events + [snapshot])
  {
    var events' := events + [snapshot];
    forall i, j, n | 0 <= i < j < |events'| && j == i + 1 && IsSignal(events'[i]) && IsSignal(events'[j])
                     && Number(events'[i]) < n < Number(events'[j])
      ensures !Owed(outcomes, missed, n)
    {
      assert events'[i] == events[i] && events'[j] == events[j];
    }
  }

  /** Replaying the log behind the last event received continues it without a gap. */
  lemma FaithfulReplay(outcomes: seq<AppendOutcome>, missed: set<nat>, received: seq<Event>, log: seq<Event>,
                       index: nat)
    requires Faithful(outcomes, missed, received) && Faithful(outcomes, {}, log) && AllStored(log)
    requires received != [] && index < |log| && received[|received| - 1].id == log[index].id
    ensures Faithful(outcomes, missed, received + log[index + 1..])
  {
    var total := received + log[index + 1..];
    forall k | 0 <= k < |total|
      ensures k < |received| ==> total[k] == received[k]
      ensures k >= |received| ==> total[k] == log[index + 1 + k - |received|]
    {
    }
    forall i, j | 0 <= i < j < |total| && IsSignal(total[i]) && IsSignal(total[j])
      ensures Number(total[i]) < Number(total[j])
    {
      if i < |received| <= j {
        assert Number(log[index]) < Number(log[index + 1 + j - |received|]);
        assert i < |received| - 1 ==> Number(received[i]) < Number(received[|received| - 1]);
      }
    }
    forall i, j, n | 0 <= i < j < |total| && j == i + 1 && IsSignal(total[i]) && IsSignal(total[j])
                     && Number(total[i]) < n < Number(total[j])
      ensures !Owed(outcomes, missed, n)
    {
      if j == |received| {
        assert Number(log[index]) < n < Number(log[index + 1]) && !Owed(outcomes, {}, n);
      } else if i >= |received| {
        var k := index + 1 + i - |received|;
        assert total[i] == log[k] && total[j] == log[k + 1] && !Owed(outcomes, {}, n);
      }
    }
  }

  // ----- The invariant of every run -----

  /** What a client has received, followed by what is still on its connection. */
  function Total(server: Server, c: Client): seq<Event>
    requires c.connection.Connected? ==>
      c.connection.emitter in server.emitters
      && c.connection.read <= |server.emitters[c.connection.emitter].sent|
  {
    match c.connection
    case Disconnected => c.received
    case Connected(e, read) => c.received + server.emitters[e].sent[read..]
  }

  ghost predicate ClientOk(outcomes: seq<AppendOutcome>, server: Server, c: Client) {
    && (c.connection.Connected? ==>
          c.connection.emitter in server.emitters
          && c.connection.read <= |server.emitters[c.connection.emitter].sent|)
    && Faithful(outcomes, c.missed, Total(server, c))
    && (c.connection.Connected? && c.connection.emitter in server.subscribers ==>
          CaughtUp(outcomes, c.missed, Total(server, c)))
    && (c.received != [] ==> c.cursor == Id(c.received[|c.received| - 1].id))
  }

  ghost predicate LogOk(outcomes: seq<AppendOutcome>, log: seq<Event>) {
    Faithful(outcomes, {}, log) && AllStored(log) && CaughtUp(outcomes, {}, log)
  }

  /** Emitters are numbered as they are made, and only those made can subscribe. */
  ghost predicate ServerOk(server: Server, emitterCount: nat) {
    && Distinct(server.subscribers)
    && (forall e :: e in server.emitters ==> e < emitterCount)
    && forall e :: e in server.subscribers ==> e in server.emitters
  }

  ghost predicate ClientsOk(outcomes: seq<AppendOutcome>, server: Server, clients: map<nat, Client>) {
    forall c :: c in clients ==> ClientOk(outcomes, server, clients[c])
  }

  ghost predicate Inv(w: World) {
    && LogOk(w.outcomes, w.server.log)
    && ServerOk(w.server, w.emitterCount)
    && ClientsOk(w.outcomes, w.server, w.clients)
  }

  /** Trimming the oldest events leaves a log that is as good. */
  lemma LogSuffix(outcomes: seq<AppendOutcome>, log: seq<Event>, from: nat)
    requires LogOk(outcomes, log) && from <= |log|
    ensures LogOk(outcomes, log[from..])
  {
    FaithfulSlice(outcomes, {}, log, from, |log|);
    assert log[from..|log|] == log[from..];
  }

  lemma NothingStored(outcomes: seq<AppendOutcome>, log: seq<Event>)
    requires LogOk(outcomes, log)
    ensures LogOk(outcomes + [NotAppended], log)
  {
    FaithfulLater(outcomes, {}, NotAppended, log);
    forall n | log != [] && Number(log[|log| - 1]) < n
      ensures !Owed(outcomes + [NotAppended], {}, n)
    {
      assert !Owed(outcomes, {}, n);
    }
  }

  lemma LogGrows(outcomes: seq<AppendOutcome>, outcome: AppendOutcome, log: seq<Event>, event: Event)
    requires LogOk(outcomes, log) && event.id == StoredId(|outcomes|) && outcome != NotAppended
    ensures LogOk(outcomes + [outcome], log + [event])
  {
    FaithfulNext(outcomes, {}, outcome, log, event);
  }

  lemma LogPublish(outcomes: seq<AppendOutcome>, outcome: AppendOutcome, log: seq<Event>, event: Event, maxLength: nat)
    requires LogOk(outcomes, log) && event.id == StoredId(|outcomes|)
    ensures LogOk(outcomes + [outcome], if outcome == NotAppended then log else Newest(log + [event], maxLength))
  {
    if outcome == NotAppended {
      NothingStored(outcomes, log);
    } else {
      LogGrows(outcomes, outcome, log, event);
      LogSuffix(outcomes + [outcome], log + [event], |log + [event]| - |Newest(log + [event], maxLength)|);
    }
  }

  /** A client the broadcast did not get to is behind by exactly that publication. */
  lemma FaithfulMissing(outcomes: seq<AppendOutcome>, missed: set<nat>, outcome: AppendOutcome, events: seq<Event>)
    requires Faithful(outcomes, missed, events) && CaughtUp(outcomes, missed, events)
    ensures var more := missed + {|outcomes|};
      Faithful(outcomes + [outcome], more, events) && CaughtUp(outcomes + [outcome], more, events)
  {
    var more := missed + {|outcomes|};
    FaithfulLater(outcomes, missed, outcome, events);
    forall i, j, n | 0 <= i < j < |events| && j == i + 1 && IsSignal(events[i]) && IsSignal(events[j])
                     && Number(events[i]) < n < Number(events[j])
      ensures !Owed(outcomes + [outcome], more, n)
    {
      assert !Owed(outcomes + [outcome], missed, n);
    }
    forall n | events != [] && IsSignal(events[|events| - 1]) && Number(events[|events| - 1]) < n
      ensures !Owed(outcomes + [outcome], more, n)
    {
      assert !Owed(outcomes, missed, n);
    }
  }

  lemma ServedOrNot(subscribers: seq<EmitterId>, reach: nat)
    ensures Served(subscribers, reach) + Unserved(subscribers, reach) == subscribers
    ensures forall e :: e in subscribers <==> e in Served(subscribers, reach) || e in Unserved(subscribers, reach)
    ensures Distinct(subscribers) ==> forall e :: e in Served(subscribers, reach) ==> e !in Unserved(subscribers, reach)
  {
    var served, left := Served(subscribers, reach), Unserved(subscribers, reach);
    assert served + left == subscribers;
    assert forall e :: e in subscribers <==> e in served + left;
    forall e | Distinct(subscribers) && e in served
      ensures e !in left
    {
      var i :| 0 <= i < |served| && served[i] == e;
      forall j | 0 <= j < |left|
        ensures left[j] != e
      {
        assert subscribers[i] == e && subscribers[|served| + j] == left[j];
      }
    }
  }

  lemma ClientPublish(outcomes: seq<AppendOutcome>, outcome: AppendOutcome, server: Server, event: Event,
                      broken: set<EmitterId>, reach: nat, c: Client)
    requires ClientOk(outcomes, server, c) && Distinct(server.subscribers)
    requires event.id == if outcome == Appended then StoredId(|outcomes|) else TransientId(|outcomes|)
    ensures ClientOk(outcomes + [outcome], BroadcastTo(server, event, broken, reach),
                     Behind(c, server, reach, |outcomes|))
  {
    var server' := BroadcastTo(server, event, broken, reach);
    var sent, missed := IsSent(server, broken, reach, c), IsMissed(server, reach, c);
    ServedOrNot(server.subscribers, reach);
    BroadcastReaches(server, event, broken, reach, c);
    ClientAfter(outcomes, outcome, server, server', event, c, sent, missed);
  }

  /** The broadcast gives the client's connection the event. */
  predicate IsSent(server: Server, broken: set<EmitterId>, reach: nat, c: Client) {
    && c.connection.Connected? && c.connection.emitter in Served(server.subscribers, reach)
    && c.connection.emitter !in broken
  }

  /** The broadcast breaks off before it gets to the client's connection. */
  predicate IsMissed(server: Server, reach: nat, c: Client) {
    c.connection.Connected? && c.connection.emitter in Unserved(server.subscribers, reach)
  }

  lemma BroadcastReaches(server: Server, event: Event, broken: set<EmitterId>, reach: nat, c: Client)
    requires c.connection.Connected? ==>
      c.connection.emitter in server.emitters
      && c.connection.read <= |server.emitters[c.connection.emitter].sent|
    ensures var server' := BroadcastTo(server, event, broken, reach);
      && (c.connection.Connected? ==>
            && c.connection.emitter in server'.emitters
            && c.connection.read <= |server'.emitters[c.connection.emitter].sent|
            && (c.connection.emitter in server'.subscribers ==>
                  IsSent(server, broken, reach, c) || IsMissed(server, reach, c)))
      && Total(server', c) == Total(server, c) + if IsSent(server, broken, reach, c) then [event] else []
  {
    var server' := BroadcastTo(server, event, broken, reach);
    if IsSent(server, broken, reach, c) {
      var read, earlier := c.connection.read, server.emitters[c.connection.emitter].sent;
      assert server'.emitters[c.connection.emitter].sent == earlier + [event];
      assert (earlier + [event])[read..] == earlier[read..] + [event];
    } else {
      assert Total(server', c) == Total(server, c);
    }
  }

  /** A client after a broadcast that gave it the event, missed it, or did not concern it. */
  lemma ClientAfter(outcomes: seq<AppendOutcome>, outcome: AppendOutcome, server: Server, server': Server,
                    event: Event, c: Client, sent: bool, missed: bool)
    requires ClientOk(outcomes, server, c) && !(sent && missed)
    requires event.id == if outcome == Appended then StoredId(|outcomes|) else TransientId(|outcomes|)
    requires c.connection.Connected? ==>
      c.connection.emitter in server'.emitters
      && c.connection.read <= |server'.emitters[c.connection.emitter].sent|
    requires Total(server', c) == Total(server, c) + if sent then [event] else []
    requires sent || missed ==> c.connection.Connected? && c.connection.emitter in server.subscribers
    requires c.connection.Connected? && c.connection.emitter in server'.subscribers ==> sent || missed
    ensures ClientOk(outcomes + [outcome], server', if missed then c.(missed := c.missed + {|outcomes|}) else c)
  {
    var total := Total(server, c);
    if missed {
      assert Total(server', c.(missed := c.missed + {|outcomes|})) == Total(server', c) == total;
      FaithfulMissing(outcomes, c.missed, outcome, total);
    } else if sent {
      FaithfulNext(outcomes, c.missed, outcome, total, event);
    } else {
      assert Total(server', c) == total;
      FaithfulLater(outcomes, c.missed, outcome, total);
    }
  }

  /** A client is as well off with any server that sent its connection the same, and subscribes it no more. */
  lemma ClientStays(outcomes: seq<AppendOutcome>, server: Server, server': Server, c: Client)
    requires ClientOk(outcomes, server, c)
    requires c.connection.Connected? ==>
      var e := c.connection.emitter;
      e in server'.emitters && server'.emitters[e].sent == server.emitters[e].sent
      && (e in server'.subscribers ==> e in server.subscribers)
    ensures ClientOk(outcomes, server', c)
  {
    assert Total(server', c) == Total(server, c);
  }

  lemma ClientsPublish(outcomes: seq<AppendOutcome>, outcome: AppendOutcome, server: Server, log: seq<Event>,
                       sequence: nat, event: Event, broken: set<EmitterId>, reach: nat, clients: map<nat, Client>)
    requires ClientsOk(outcomes, server, clients) && Distinct(server.subscribers)
    requires event.id == if outcome == Appended then StoredId(|outcomes|) else TransientId(|outcomes|)
    ensures ClientsOk(outcomes + [outcome],
                      BroadcastTo(server.(log := log, sequence := sequence), event, broken, reach),
                      map c | c in clients :: Behind(clients[c], server, reach, |outcomes|))
  {
    var logged := server.(log := log, sequence := sequence);
    forall c | c in clients
      ensures ClientOk(outcomes + [outcome], BroadcastTo(logged, event, broken, reach),
                       Behind(clients[c], server, reach, |outcomes|))
    {
      ClientStays(outcomes, server, logged, clients[c]);
      assert Behind(clients[c], logged, reach, |outcomes|) == Behind(clients[c], server, reach, |outcomes|);
      ClientPublish(outcomes, outcome, logged, event, broken, reach, clients[c]);
    }
  }

  lemma BroadcastShape(server: Server, emitterCount: nat, event: Event, broken: set<EmitterId>, reach: nat)
    requires ServerOk(server, emitterCount)
    ensures ServerOk(BroadcastTo(server, event, broken, reach), emitterCount)
    ensures BroadcastTo(server, event, broken, reach).log == server.log
  {
    var server' := BroadcastTo(server, event, broken, reach);
    var served, left := Served(server.subscribers, reach), Unserved(server.subscribers, reach);
    ServedOrNot(server.subscribers, reach);
    assert Distinct(served) && Distinct(left);
    if !IsTerminal(event.status) {
      DistinctParts(Without(served, broken), left);
    } else {
      assert [] + left == left;
    }
  }

  lemma DistinctParts(a: seq<EmitterId>, b: seq<EmitterId>)
    requires Distinct(a) && Distinct(b) && forall e :: e in a ==> e !in b
    ensures Distinct(a + b)
  {
    forall i, j | 0 <= i < j < |a + b|
      ensures (a + b)[i] != (a + b)[j]
    {
      if i < |a| <= j {
        assert a[i] in a && b[j - |a|] in b;
      }
    }
  }

  lemma PublishIsBroadcast(server: Server, maxLength: nat, signal: Signal, stored: EventId, unstored: EventId,
                           outcome: AppendOutcome, broken: set<EmitterId>, reach: nat)
    ensures var appended := EventOf(stored, server.sequence + 1, signal);
      var kept := outcome == NotAppended;
      PublishTo(server, maxLength, signal, stored, unstored, outcome, broken, reach)
      == BroadcastTo(server.(log := if kept then server.log else Newest(server.log + [appended], maxLength),
                             sequence := if kept then server.sequence else server.sequence + 1),
                     if outcome == Appended then appended else TransientEvent(unstored, signal), broken, reach)
  {
    var appended := EventOf(stored, server.sequence + 1, signal);
    var log := if outcome == NotAppended then server.log else Newest(server.log + [appended], maxLength);
    var sequence := if outcome == NotAppended then server.sequence else server.sequence + 1;
    var logged := if outcome == NotAppended then server else server.(log := log, sequence := sequence);
    assert logged == server.(log := log, sequence := sequence);
  }

  lemma ServerPublish(outcomes: seq<AppendOutcome>, outcome: AppendOutcome, server: Server, maxLength: nat,
                      emitterCount: nat, signal: Signal, broken: set<EmitterId>, reach: nat, clients: map<nat, Client>)
    requires LogOk(outcomes, server.log) && ServerOk(server, emitterCount) && ClientsOk(outcomes, server, clients)
    ensures var n := |outcomes|;
      var server' := PublishTo(server, maxLength, signal, StoredId(n), TransientId(n), outcome, broken, reach);
      && LogOk(outcomes + [outcome], server'.log)
      && ServerOk(server', emitterCount)
      && ClientsOk(outcomes + [outcome], server', map c | c in clients :: Behind(clients[c], server, reach, n))
  {
    var n := |outcomes|;
    var appended := EventOf(StoredId(n), server.sequence + 1, signal);
    var event := if outcome == Appended then appended else TransientEvent(TransientId(n), signal);
    var log := if outcome == NotAppended then server.log else Newest(server.log + [appended], maxLength);
    var sequence := if outcome == NotAppended then server.sequence else server.sequence + 1;
    LogPublish(outcomes, outcome, server.log, appended, maxLength);
    ClientsPublish(outcomes, outcome, server, log, sequence, event, broken, reach, clients);
    BroadcastShape(server.(log := log, sequence := sequence), emitterCount, event, broken, reach);
    PublishIsBroadcast(server, maxLength, signal, StoredId(n), TransientId(n), outcome, broken, reach);
  }

  lemma MissingMore(outcomes: seq<AppendOutcome>, missed: set<nat>, events: seq<Event>)
    requires Faithful(outcomes, {}, events)
    ensures Faithful(outcomes, missed, events)
  {
    forall i, j, n | 0 <= i < j < |events| && j == i + 1 && IsSignal(events[i]) && IsSignal(events[j])
                     && Number(events[i]) < n < Number(events[j])
      ensures !Owed(outcomes, missed, n)
    {
      assert !Owed(outcomes, {}, n);
    }
  }

  /** Ending like a log means being caught up like it. */
  lemma CaughtUpLike(outcomes: seq<AppendOutcome>, missed: set<nat>, log: seq<Event>, events: seq<Event>)
    requires CaughtUp(outcomes, {}, log) && log != []
    requires events != [] ==> events[|events| - 1].id == log[|log| - 1].id
    ensures CaughtUp(outcomes, missed, events)
  {
    forall n | events != [] && IsSignal(events[|events| - 1]) && Number(events[|events| - 1]) < n
      ensures !Owed(outcomes, missed, n)
    {
      assert !Owed(outcomes, {}, n);
    }
  }

  lemma ReplayContinues(outcomes: seq<AppendOutcome>, missed: set<nat>, received: seq<Event>, log: seq<Event>,
                        index: nat)
    requires LogOk(outcomes, log) && Faithful(outcomes, missed, received)
    requires received != [] && index < |log| && log[index].id == received[|received| - 1].id
    ensures var total := received + log[index + 1..];
      Faithful(outcomes, missed, total) && CaughtUp(outcomes, missed, total)
  {
    FaithfulReplay(outcomes, missed, received, log, index);
    CaughtUpLike(outcomes, missed, log, received + log[index + 1..]);
  }

  lemma LogIsReplayed(outcomes: seq<AppendOutcome>, missed: set<nat>, log: seq<Event>, from: nat)
    requires LogOk(outcomes, log) && log != [] && from <= |log|
    ensures Faithful(outcomes, missed, log[from..]) && CaughtUp(outcomes, missed, log[from..])
  {
    LogSuffix(outcomes, log, from);
    MissingMore(outcomes, missed, log[from..]);
    CaughtUpLike(outcomes, missed, log, log[from..]);
  }

  /** Whatever the log and the cursor look like, the greeting continues what the client has. */
  lemma GreetingContinues(outcomes: seq<AppendOutcome>, log: seq<Event>, c: Client, snapshot: Event)
    requires LogOk(outcomes, log) && Faithful(outcomes, c.missed, c.received)
    requires c.received != [] ==> c.cursor == Id(c.received[|c.received| - 1].id)
    requires snapshot.id.SnapshotId? && snapshot.kind == "JOB_SNAPSHOT"
    ensures Faithful(outcomes, c.missed, c.received + Greeting(log, c.cursor, snapshot))
    ensures CaughtUp(outcomes, c.missed, c.received + Greeting(log, c.cursor, snapshot))
  {
    var greeting := Greeting(log, c.cursor, snapshot);
    if log == [] || (c.cursor.Id? && IndexOf(log, c.cursor.id) == -1) {
      assert greeting == [snapshot];
      FaithfulSnapshot(outcomes, c.missed, c.received, snapshot);
    } else if c.received != [] {
      var index := IndexOf(log, c.cursor.id);
      assert greeting == log[index + 1..];
      ReplayContinues(outcomes, c.missed, c.received, log, index);
    } else {
      var from := if c.cursor.Id? then IndexOf(log, c.cursor.id) + 1 else 0;
      assert greeting == log[from..] && c.received + greeting == greeting;
      LogIsReplayed(outcomes, c.missed, log, from);
    }
  }

  /** A greeting that breaks off is still faithful. */
  lemma FaithfulPrefix(outcomes: seq<AppendOutcome>, missed: set<nat>, received: seq<Event>, greeting: seq<Event>,
                       k: nat)
    requires Faithful(outcomes, missed, received + greeting) && k <= |greeting|
    ensures Faithful(outcomes, missed, received + greeting[..k])
  {
    FaithfulSlice(outcomes, missed, received + greeting, 0, |received| + k);
    assert (received + greeting)[0..|received| + k] == received + greeting[..k];
  }

  lemma ConnectedClient(outcomes: seq<AppendOutcome>, server: Server, emitter: EmitterId, c: Client, sent: seq<Event>)
    requires emitter in server.emitters && server.emitters[emitter].sent == sent
    requires Faithful(outcomes, c.missed, c.received + sent)
    requires emitter in server.subscribers ==> CaughtUp(outcomes, c.missed, c.received + sent)
    requires c.received != [] ==> c.cursor == Id(c.received[|c.received| - 1].id)
    ensures ClientOk(outcomes, server, c.(connection := Connected(emitter, 0)))
  {
    assert sent[0..] == sent;
  }

  lemma ClientConnect(outcomes: seq<AppendOutcome>, server: Server, emitter: EmitterId, c: Client, event: Event,
                      readFails: bool, sends: nat)
    requires LogOk(outcomes, server.log) && ClientOk(outcomes, server, c) && c.connection.Disconnected?
    requires emitter !in server.emitters && event.id.SnapshotId? && event.kind == "JOB_SNAPSHOT"
    requires forall e :: e in server.subscribers ==> e in server.emitters
    ensures ClientOk(outcomes, SubscribeTo(server, emitter, c.cursor, event, readFails, sends),
                     c.(connection := Connected(emitter, 0)))
  {
    var log := if readFails then [] else server.log;
    var server' := SubscribeTo(server, emitter, c.cursor, event, readFails, sends);
    assert LogOk(outcomes, log);
    GreetingContinues(outcomes, log, c, event);
    var greeting := Greeting(log, c.cursor, event);
    if |greeting| > sends {
      FaithfulPrefix(outcomes, c.missed, c.received, greeting, sends);
    }
    ConnectedClient(outcomes, server', emitter, c, if |greeting| <= sends then greeting else greeting[..sends]);
  }

  /** A new subscription touches no emitter but its own. */
  lemma SubscribeShape(server: Server, emitter: EmitterId, cursor: LastEventId, event: Event, readFails: bool,
                       sends: nat)
    requires ServerOk(server, emitter)
    ensures var server' := SubscribeTo(server, emitter, cursor, event, readFails, sends);
      && ServerOk(server', emitter + 1) && server'.log == server.log
      && forall e :: e in server.emitters ==>
           && e in server'.emitters && server'.emitters[e] == server.emitters[e]
           && (e in server'.subscribers ==> e in server.subscribers)
  {
    assert emitter !in server.subscribers;
    DistinctParts(server.subscribers, [emitter]);
  }

  lemma ClientsStay(outcomes: seq<AppendOutcome>, server: Server, server': Server, clients: map<nat, Client>,
                    but: set<nat>)
    requires forall c :: c in clients ==> ClientOk(outcomes, server, clients[c])
    requires forall e :: e in server.emitters ==>
      && e in server'.emitters && server'.emitters[e].sent == server.emitters[e].sent
      && (e in server'.subscribers ==> e in server.subscribers)
    ensures forall c :: c in clients && c !in but ==> ClientOk(outcomes, server', clients[c])
  {
    forall c | c in clients && c !in but
      ensures ClientOk(outcomes, server', clients[c])
    {
      ClientStays(outcomes, server, server', clients[c]);
    }
  }

  lemma ConnectKeeps(w: World, client: nat, snapshot: Snapshot, readFails: bool, sends: nat)
    requires Inv(w) && client in w.clients && w.clients[client].connection.Disconnected?
    ensures Inv(ConnectStep(w, client, snapshot, readFails, sends))
  {
    var w' := ConnectStep(w, client, snapshot, readFails, sends);
    var event := SnapshotEvent(SnapshotId(w.snapshotCount), snapshot);
    ClientConnect(w.outcomes, w.server, w.emitterCount, w.clients[client], event, readFails, sends);
    SubscribeShape(w.server, w.emitterCount, w.clients[client].cursor, event, readFails, sends);
    ClientsStay(w.outcomes, w.server, w'.server, w.clients, {client});
    forall other | other in w.clients
      ensures ClientOk(w.outcomes, w'.server, w'.clients[other])
    {
      assert other != client ==> w'.clients[other] == w.clients[other];
    }
  }

  lemma ReadMoves(received: seq<Event>, sent: seq<Event>, read: nat)
    requires read < |sent|
    ensures received + [sent[read]] + sent[read + 1..] == received + sent[read..]
  {
    assert sent[read..] == [sent[read]] + sent[read + 1..];
  }

  lemma ReadOne(server: Server, c: Client)
    requires c.connection.Connected? && c.connection.emitter in server.emitters
    requires c.connection.read < |server.emitters[c.connection.emitter].sent|
    ensures Total(server, Read(c, server.emitters)) == Total(server, c)
  {
    ReadMoves(c.received, server.emitters[c.connection.emitter].sent, c.connection.read);
  }

  lemma ReadKeeps(outcomes: seq<AppendOutcome>, server: Server, c: Client)
    requires ClientOk(outcomes, server, c)
    ensures ClientOk(outcomes, server, Read(c, server.emitters))
  {
    if c.connection.Connected? && c.connection.read < |server.emitters[c.connection.emitter].sent| {
      ReadOne(server, c);
    }
  }

  lemma LoseKeeps(outcomes: seq<AppendOutcome>, server: Server, c: Client)
    requires ClientOk(outcomes, server, c)
    ensures ClientOk(outcomes, server, c.(connection := Disconnected))
  {
    var total := Total(server, c);
    assert c.received == total[0..|c.received|];
    FaithfulSlice(outcomes, c.missed, total, 0, |c.received|);
  }

  lemma CloseKeeps(w: World, emitter: EmitterId)
    requires Inv(w)
    ensures Inv(w.(server := Close(w.server, emitter)))
  {
    var server' := Close(w.server, emitter);
    ClientsStay(w.outcomes, w.server, server', w.clients, {});
  }

  lemma ExpireKeeps(w: World)
    requires Inv(w)
    ensures Inv(w.(server := w.server.(log := [], sequence := 0)))
  {
    ClientsStay(w.outcomes, w.server, w.server.(log := [], sequence := 0), w.clients, {});
  }

  /** What every step keeps. */
  lemma StepKeeps(w: World, step: Step)
    requires Inv(w)
    ensures Inv(Next(w, step))
  {
    match step
    case PublishSignal(signal, outcome, broken, reach) =>
      ServerPublish(w.outcomes, outcome, w.server, w.maxLength, w.emitterCount, signal, broken, reach, w.clients);
    case ExpireLog => ExpireKeeps(w);
    case CloseEmitter(emitter) => CloseKeeps(w, emitter);
    case Connect(client, snapshot, readFails, sends) =>
      if client in w.clients && w.clients[client].connection.Disconnected? {
        ConnectKeeps(w, client, snapshot, readFails, sends);
      }
    case Deliver(client) =>
      if client in w.clients {
        ReadKeeps(w.outcomes, w.server, w.clients[client]);
      }
    case LoseConnection(client) =>
      if client in w.clients {
        LoseKeeps(w.outcomes, w.server, w.clients[client]);
      }
  }

  lemma {:induction false} RunKeeps(w: World, steps: seq<Step>)
    requires Inv(w)
    ensures Inv(Run(w, steps))
    decreases |steps|
  {
    if steps != [] {
      StepKeeps(w, steps[0]);
      RunKeeps(Next(w, steps[0]), steps[1..]);
    }
  }

  // ----- Main results -----

  lemma LogHoldsAt(outcomes: seq<AppendOutcome>, log: seq<Event>, last: LastEventId, i: nat)
    requires LogOk(outcomes, log) && i < |log| && last == Id(log[i].id)
    ensures HoldsAt(log, last, i)
  {
    forall j | 0 <= j < i
      ensures log[j].id != last.id
    {
      assert Number(log[j]) < Number(log[i]);
    }
  }

  lemma ConnectReplays(w: World, client: nat, snapshot: Snapshot, sends: nat, i: nat)
    requires LogOk(w.outcomes, w.server.log) && client in w.clients && w.clients[client].connection.Disconnected?
    requires i < |w.server.log| && w.clients[client].cursor == Id(w.server.log[i].id)
    ensures var next := Next(w, Connect(client, snapshot, false, sends));
      && next.clients[client] == w.clients[client].(connection := Connected(w.emitterCount, 0))
      && w.emitterCount in next.server.emitters
      && Greeted(next.server.emitters[w.emitterCount], w.server.log[i + 1..], sends, IsTerminal(snapshot.status))
  {
    var c := w.clients[client];
    LogHoldsAt(w.outcomes, w.server.log, c.cursor, i);
    SubscribeMeaning(w.server, w.emitterCount, c.cursor, SnapshotEvent(SnapshotId(w.snapshotCount), snapshot), false,
                     sends);
  }

  lemma CursorInRun(w: World, steps: seq<Step>, w': World, client: nat)
    requires Initial(w) && w' == Run(w, steps) && client in w'.clients
    ensures LogOk(w'.outcomes, w'.server.log)
    ensures var received := w'.clients[client].received;
      received != [] ==> w'.clients[client].cursor == Id(received[|received| - 1].id)
  {
    RunKeeps(w, steps);
    assert ClientOk(w'.outcomes, w'.server, w'.clients[client]);
  }

  /** A client that reconnects while the log still holds the last event it received is sent exactly what
      came behind it, all of it stored publications and none a snapshot. */
  lemma ReconnectIsReplayed(w: World, steps: seq<Step>, w': World, client: nat, snapshot: Snapshot, sends: nat, i: nat)
    requires Initial(w) && w' == Run(w, steps)
    requires client in w'.clients && w'.clients[client].connection.Disconnected? && w'.clients[client].received != []
    requires i < |w'.server.log|
    requires w'.server.log[i].id == w'.clients[client].received[|w'.clients[client].received| - 1].id
    ensures var next := Next(w', Connect(client, snapshot, false, sends));
      && next.clients[client] == w'.clients[client].(connection := Connected(w'.emitterCount, 0))
      && w'.emitterCount in next.server.emitters
      && Greeted(next.server.emitters[w'.emitterCount], w'.server.log[i + 1..], sends, IsTerminal(snapshot.status))
    ensures forall k :: 0 <= k < |w'.server.log| ==> w'.server.log[k].id.StoredId?
  {
    CursorInRun(w, steps, w', client);
    ConnectReplays(w', client, snapshot, sends, i);
  }

  /** Over every run, each client is given publications in publish order and none twice, and a
      stored publication it was not given is always followed by a snapshot before the next one,
      unless its broadcast broke off before it got to the client's connection. */
  lemma DeliveryIsFaithful(w: World, steps: seq<Step>, client: nat)
    requires Initial(w) && client in Run(w, steps).clients
    ensures var w' := Run(w, steps); Faithful(w'.outcomes, w'.clients[client].missed, w'.clients[client].received)
  {
    var w' := Run(w, steps);
    RunKeeps(w, steps);
    LoseKeeps(w'.outcomes, w'.server, w'.clients[client]);
  }

  /** No snapshot among the events from `i` to `j`. */
  ghost predicate NoSnapshot(events: seq<Event>, i: nat, j: nat)
    requires i <= j < |events|
  {
    forall k :: i <= k <= j ==> IsSignal(events[k])
  }

  ghost predicate Announced(events: seq<Event>, i: nat, j: nat, n: nat)
    requires i <= j < |events| && NoSnapshot(events, i, j)
  {
    exists k :: i < k < j && Number(events[k]) == n
  }

  /** Without a snapshot in between, every stored publication between two events was announced. */
  lemma {:induction false} NothingSkipped(outcomes: seq<AppendOutcome>, missed: set<nat>, events: seq<Event>,
                                          i: nat, j: nat, n: nat)
    requires Faithful(outcomes, missed, events) && i < j < |events| && NoSnapshot(events, i, j)
    requires Number(events[i]) < n < Number(events[j]) && Owed(outcomes, missed, n)
    ensures Announced(events, i, j, n)
    decreases j - i
  {
    if Number(events[i + 1]) < n {
      NothingSkipped(outcomes, missed, events, i + 1, j, n);
    } else {
      assert i + 1 < j && Number(events[i + 1]) == n;
    }
  }

  /** Two stored events received one after the other, with nothing but unstored copies between. */
  ghost predicate NextStored(events: seq<Event>, i: nat, j: nat) {
    && i < j < |events| && events[i].id.StoredId? && events[j].id.StoredId?
    && NoSnapshot(events, i, j)
    && forall k :: i < k < j ==> events[k].id.TransientId?
  }

  /** Why a publication's stored event may be missing: the append was reported as failed although it
      was stored, or the broadcast broke off before it got to the client. */
  predicate Excused(outcomes: seq<AppendOutcome>, missed: set<nat>, n: nat) {
    n < |outcomes| && (outcomes[n] == ReplyLost || (outcomes[n] == Appended && n in missed))
  }

  /** The ids a client sees: with no snapshot between them, two stored events leave a gap of
      stored publications exactly when one of those two things happened between them. */
  lemma GapIffExcused(w: World, steps: seq<Step>, client: nat, i: nat, j: nat)
    requires Initial(w) && client in Run(w, steps).clients
    requires NextStored(Run(w, steps).clients[client].received, i, j)
    ensures var outcomes, c := Run(w, steps).outcomes, Run(w, steps).clients[client];
      (exists n :: Number(c.received[i]) < n < Number(c.received[j]) && WasStored(outcomes, n))
      <==> (exists n :: Number(c.received[i]) < n < Number(c.received[j]) && Excused(outcomes, c.missed, n))
  {
    var outcomes, c := Run(w, steps).outcomes, Run(w, steps).clients[client];
    var events := c.received;
    DeliveryIsFaithful(w, steps, client);
    assert Number(events[j]) < |outcomes|;
    forall n | Number(events[i]) < n < Number(events[j]) && WasStored(outcomes, n)
      ensures Excused(outcomes, c.missed, n)
    {
      if n !in c.missed {
        NothingSkipped(outcomes, c.missed, events, i, j, n);
      }
    }
    forall n | Number(events[i]) < n < Number(events[j]) && Excused(outcomes, c.missed, n)
      ensures WasStored(outcomes, n)
    {
    }
  }
}
