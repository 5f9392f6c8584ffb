/** Runs in which a client does see a gap that no snapshot announces. */
module EventGaps {
  import opened JobStatus
  import opened EventStore
  import opened EventStream
  import opened EventDelivery
  import opened Sequences

  /** One client is connected to the second of two subscribers; the first is what a lost connection
      of it has left. Every publication so far was stored. */
  ghost predicate Streams(w: World, outcomes: seq<AppendOutcome>, sent: seq<Event>, client: Client) {
    && w.outcomes == outcomes && w.server.subscribers == [0, 1]
    && 0 in w.server.emitters && 1 in w.server.emitters && w.server.emitters[1] == Emitter(sent, true)
    && 0 in w.clients && w.clients[0] == client && client.connection.Connected? && client.connection.emitter == 1
    && w.server.sequence == |outcomes|
  }

  /** The event of publication `n`, which was stored, as a subscriber is sent it. */
  function EventAs(n: nat, outcome: AppendOutcome, signal: Signal): Event {
    if outcome == Appended then EventOf(StoredId(n), n + 1, signal) else TransientEvent(TransientId(n), signal)
  }

  /** One more publication, whose broadcast gets to both subscribers or breaks off at the first. */
  lemma PublishStreams(w: World, outcomes: seq<AppendOutcome>, sent: seq<Event>, client: Client, signal: Signal,
                       outcome: AppendOutcome, reach: nat)
    returns (all: seq<Event>, reader: Client)
    requires Streams(w, outcomes, sent, client) && outcome != NotAppended && !IsTerminal(signal.status) && reach != 1
    ensures Streams(Next(w, PublishSignal(signal, outcome, {}, reach)), outcomes + [outcome], all, reader)
    ensures reach == 0 ==> all == sent && reader == client.(missed := client.missed + {|outcomes|})
    ensures reach != 0 ==> all == sent + [EventAs(|outcomes|, outcome, signal)] && reader == client
  {
    var n, event := |outcomes|, EventAs(|outcomes|, outcome, signal);
    var appended := EventOf(StoredId(n), w.server.sequence + 1, signal);
    var logged :=
      w.server.(log := Newest(w.server.log + [appended], w.maxLength), sequence := w.server.sequence + 1);
    PublishCases(w.server, w.maxLength, signal, StoredId(n), TransientId(n), outcome, {}, reach);
    if reach == 0 {
      BreaksOffAtOnce(logged, event);
      all, reader := sent, client.(missed := client.missed + {n});
    } else {
      ReachesBoth(logged, event, reach, sent);
      all, reader := sent + [event], client;
    }
  }

  lemma BreaksOffAtOnce(server: Server, event: Event)
    requires server.subscribers == [0, 1] && !IsTerminal(event.status)
    ensures Unserved(server.subscribers, 0) == [0, 1]
    ensures BroadcastTo(server, event, {}, 0) == server
  {
    assert Served(server.subscribers, 0) == [] && [] + server.subscribers == server.subscribers;
  }

  lemma ReachesBoth(server: Server, event: Event, reach: nat, sent: seq<Event>)
    requires server.subscribers == [0, 1] && 0 in server.emitters && 1 in server.emitters
    requires server.emitters[1] == Emitter(sent, true) && !IsTerminal(event.status) && reach >= 2
    ensures Unserved(server.subscribers, reach) == []
    ensures var after := BroadcastTo(server, event, {}, reach);
      && after.subscribers == [0, 1] && 0 in after.emitters && 1 in after.emitters
      && after.emitters[1] == Emitter(sent + [event], true) && after.sequence == server.sequence
  {
    WithoutNone(server.subscribers);
    assert server.subscribers + [] == server.subscribers && server.subscribers[1] == 1;
  }

  /** A client that has read a prefix of what it was sent reads one event more. */
  lemma DeliverStreams(w: World, outcomes: seq<AppendOutcome>, sent: seq<Event>, client: Client)
    requires Streams(w, outcomes, sent, client) && client.connection.read < |sent|
    requires client.received == sent[..client.connection.read]
    ensures Streams(Next(w, Deliver(0)), outcomes, sent, AfterReading(sent, client))
  {
    var read := client.connection.read;
    TakeNext(sent, read);
    assert Read(client, w.server.emitters) == AfterReading(sent, client);
  }

  function AfterReading(sent: seq<Event>, client: Client): Client
    requires client.connection.Connected? && client.connection.read < |sent|
  {
    var read := client.connection.read;
    client.(cursor := Id(sent[read].id), connection := client.connection.(read := read + 1),
            received := sent[..read + 1])
  }

  lemma {:induction false} RunSplits(w: World, first: seq<Step>, second: seq<Step>)
    ensures Run(w, first + second) == Run(Run(w, first), second)
    decreases |first|
  {
    if first == [] {
      assert first + second == second;
    } else {
      assert (first + second)[1..] == first[1..] + second;
      RunSplits(Next(w, first[0]), first[1..], second);
    }
  }

  ghost predicate Reaches(start: World, w: World) {
    exists steps :: Run(start, steps) == w
  }

  lemma ReachesStart(start: World)
    ensures Reaches(start, start)
  {
    assert Run(start, []) == start;
  }

  lemma ReachesNext(start: World, w: World, step: Step)
    requires Reaches(start, w)
    ensures Reaches(start, Next(w, step))
  {
    var steps :| Run(start, steps) == w;
    RunSplits(start, steps, [step]);
    assert [step][1..] == [];
    assert Run(start, steps + [step]) == Next(w, step);
  }

  lemma ReadsOne(start: World, w: World, outcomes: seq<AppendOutcome>, sent: seq<Event>, client: Client)
    returns (end: World, reader: Client)
    requires Reaches(start, w) && Streams(w, outcomes, sent, client)
    requires client.connection.read < |sent| && client.received == sent[..client.connection.read]
    ensures Reaches(start, end) && Streams(end, outcomes, sent, reader) && reader.missed == client.missed
    ensures reader.connection.read == client.connection.read + 1 && reader.received == sent[..reader.connection.read]
  {
    ReachesNext(start, w, Deliver(0));
    DeliverStreams(w, outcomes, sent, client);
    end, reader := Next(w, Deliver(0)), AfterReading(sent, client);
  }

  /** The client reads all it was sent, one event after the other. */
  lemma {:induction false} ReadsAll(start: World, w: World, outcomes: seq<AppendOutcome>, sent: seq<Event>,
                                    client: Client)
    returns (end: World, reader: Client)
    requires Reaches(start, w) && Streams(w, outcomes, sent, client)
    requires client.connection.read <= |sent| && client.received == sent[..client.connection.read]
    ensures Reaches(start, end) && Streams(end, outcomes, sent, reader)
    ensures reader.received == sent && reader.missed == client.missed
    decreases |sent| - client.connection.read
  {
    if client.connection.read == |sent| {
      end, reader := w, client;
    } else {
      end, reader := ReadsOne(start, w, outcomes, sent, client);
      end, reader := ReadsAll(start, end, outcomes, sent, reader);
    }
  }

  /** Nothing published yet, and a client that presents no cursor. */
  ghost predicate Quiet(w: World) {
    Initial(w) && w.maxLength > 0 && 0 in w.clients && w.clients[0].cursor == Missing
  }

  /** One publication stored, and nobody connected. */
  ghost predicate Published(w: World, event: Event) {
    && w.server.log == [event] && w.server.sequence == 1 && w.server.subscribers == [] && w.server.emitters == map[]
    && w.outcomes == [Appended] && w.emitterCount == 0
    && 0 in w.clients && w.clients[0] == Client(Missing, Disconnected, [], {})
  }

  lemma BroadcastToNobody(server: Server, event: Event)
    requires server.subscribers == [] && server.emitters == map[]
    ensures BroadcastTo(server, event, {}, 0) == server
  {
    assert Served(server.subscribers, 0) == [] && Unserved(server.subscribers, 0) == [];
  }

  lemma QuietPublish(start: World, signal: Signal)
    requires Quiet(start)
    ensures Published(Next(start, PublishSignal(signal, Appended, {}, 0)), EventAs(0, Appended, signal))
  {
    var server, event := start.server, EventAs(0, Appended, signal);
    var log := Newest(server.log + [event], start.maxLength);
    PublishIsBroadcast(server, start.maxLength, signal, StoredId(0), TransientId(0), Appended, {}, 0);
    BroadcastToNobody(server.(log := log, sequence := 1), event);
    assert log == [event];
  }

  /** The subscriber a lost connection leaves behind. */
  ghost predicate LeftBehind(w: World, event: Event) {
    && w.server.log == [event] && w.server.sequence == 1 && w.server.subscribers == [0]
    && w.server.emitters == map[0 := Emitter([event], true)]
    && w.outcomes == [Appended] && w.emitterCount == 1
    && 0 in w.clients && w.clients[0] == Client(Missing, Disconnected, [], {})
  }

  lemma QuietConnect(w: World, event: Event, snapshot: Snapshot)
    requires Published(w, event) && !IsTerminal(snapshot.status) && !IsTerminal(event.status)
    ensures LeftBehind(Next(Next(w, Connect(0, snapshot, false, 1)), LoseConnection(0)), event)
  {
    assert [] + [0] == [0];
  }

  lemma ConnectsAgain(w: World, event: Event, snapshot: Snapshot)
    requires LeftBehind(w, event) && !IsTerminal(snapshot.status) && !IsTerminal(event.status)
    ensures Streams(Next(w, Connect(0, snapshot, false, 1)), [Appended], [event],
                    Client(Missing, Connected(1, 0), [], {}))
  {
    assert [0] + [1] == [0, 1];
  }

  /** A publication, and a client that connects, reconnects and is sent it. */
  lemma Opens(start: World, signal: Signal, snapshot: Snapshot) returns (w: World, client: Client)
    requires Quiet(start) && !IsTerminal(signal.status) && !IsTerminal(snapshot.status)
    ensures Reaches(start, w) && Streams(w, [Appended], [EventAs(0, Appended, signal)], client)
    ensures client == Client(Missing, Connected(1, 0), [], {})
  {
    var publish, connect := PublishSignal(signal, Appended, {}, 0), Connect(0, snapshot, false, 1);
    client := Client(Missing, Connected(1, 0), [], {});
    var published := Next(start, publish);
    var left := Next(Next(published, connect), LoseConnection(0));
    ReachesStart(start);
    ReachesNext(start, start, publish);
    QuietPublish(start, signal);
    ReachesNext(start, published, connect);
    ReachesNext(start, Next(published, connect), LoseConnection(0));
    QuietConnect(published, EventAs(0, Appended, signal), snapshot);
    ConnectsAgain(left, EventAs(0, Appended, signal), snapshot);
    ReachesNext(start, left, connect);
    w := Next(left, connect);
  }

  /** A client received publication 0 and then publication 2, with no snapshot in between, although
      publication 1 was stored. */
  ghost predicate HasGap(w: World) {
    && 0 in w.clients && WasStored(w.outcomes, 1)
    && var events := w.clients[0].received;
       exists j: nat :: NextStored(events, 0, j) && Number(events[0]) == 0 && Number(events[j]) == 2
  }

  /** A publication that goes wrong in one of two ways, and one that does not. */
  lemma Troubled(w: World, outcomes: seq<AppendOutcome>, sent: seq<Event>, client: Client, signal: Signal,
                 outcome: AppendOutcome, reach: nat)
    returns (end: World, some: seq<Event>, reader: Client)
    requires Streams(w, outcomes, sent, client)
    requires outcome != NotAppended && !IsTerminal(signal.status) && reach != 1
    ensures Reaches(Next(w, PublishSignal(signal, outcome, {}, reach)), end)
    ensures Streams(end, outcomes + [outcome] + [Appended], some + [EventAs(|outcomes| + 1, Appended, signal)], reader)
    ensures reach == 0 ==> some == sent && reader == client.(missed := client.missed + {|outcomes|})
    ensures reach != 0 ==> some == sent + [EventAs(|outcomes|, outcome, signal)] && reader == client
  {
    var first, second := PublishSignal(signal, outcome, {}, reach), PublishSignal(signal, Appended, {}, 2);
    some, reader := PublishStreams(w, outcomes, sent, client, signal, outcome, reach);
    var all, same := PublishStreams(Next(w, first), outcomes + [outcome], some, reader, signal, Appended, 2);
    ReachesStart(Next(w, first));
    ReachesNext(Next(w, first), Next(w, first), second);
    end := Next(Next(w, first), second);
  }

  /** The client's connection stands behind one that a lost connection has left. */
  ghost predicate StandsBehind(w: World) {
    w.server.subscribers == [0, 1] && 0 in w.clients && w.clients[0].connection == Connected(1, 0)
  }

  /** From the reconnected client on: publish with trouble, publish again, and read everything. */
  lemma TroubleIsMissed(before: World, signal: Signal, outcome: AppendOutcome, reach: nat, client: Client)
    returns (w: World)
    requires Streams(before, [Appended], [EventAs(0, Appended, signal)], client)
    requires client == Client(Missing, Connected(1, 0), [], {}) && !IsTerminal(signal.status)
    requires (outcome == ReplyLost && reach != 1) || (outcome == Appended && reach == 0)
    ensures Reaches(Next(before, PublishSignal(signal, outcome, {}, reach)), w) && HasGap(w)
    ensures w.outcomes == [Appended] + [outcome] + [Appended]
    ensures w.clients[0].missed == if reach == 0 then {1} else {}
  {
    var e0, end, some, reader := EventAs(0, Appended, signal), before, [], client;
    end, some, reader := Troubled(before, [Appended], [e0], client, signal, outcome, reach);
    assert |[Appended]| == 1;
    var all := some + [EventAs(2, Appended, signal)];
    w, reader := ReadsAll(Next(before, PublishSignal(signal, outcome, {}, reach)), end,
                          [Appended] + [outcome] + [Appended], all, reader);
    ShowsGap(w, some, all, e0, EventAs(1, outcome, signal), EventAs(2, Appended, signal), reach, outcome, reader);
  }

  lemma ShowsGap(w: World, some: seq<Event>, all: seq<Event>, e0: Event, e1: Event, e2: Event, reach: nat,
                 outcome: AppendOutcome, reader: Client)
    requires Streams(w, [Appended] + [outcome] + [Appended], all, reader) && reader.received == all
    requires outcome != NotAppended && all == some + [e2]
    requires (reach == 0 ==> some == [e0]) && (reach != 0 ==> some == [e0] + [e1])
    requires e0.id == StoredId(0) && e2.id == StoredId(2) && (reach != 0 ==> e1.id == TransientId(1))
    ensures HasGap(w)
  {
    assert w.outcomes[1] == outcome;
    var j := |all| - 1;
    assert NextStored(all, 0, j) && Number(all[0]) == 0 && Number(all[j]) == 2;
  }

  /** Publish, connect and reconnect, and then the trouble. */
  lemma TroubleLeavesGap(start: World, signal: Signal, snapshot: Snapshot, outcome: AppendOutcome, reach: nat)
    returns (before: World, w: World)
    requires Quiet(start) && !IsTerminal(signal.status) && !IsTerminal(snapshot.status)
    requires (outcome == ReplyLost && reach != 1) || (outcome == Appended && reach == 0)
    ensures Reaches(start, before) && StandsBehind(before)
    ensures Reaches(Next(before, PublishSignal(signal, outcome, {}, reach)), w) && HasGap(w)
    ensures w.outcomes == [Appended] + [outcome] + [Appended]
    ensures w.clients[0].missed == if reach == 0 then {1} else {}
  {
    var client;
    before, client := Opens(start, signal, snapshot);
    w := TroubleIsMissed(before, signal, outcome, reach, client);
  }

  lemma ReachesVia(start: World, before: World, step: Step, w: World)
    requires Reaches(start, before) && Reaches(Next(before, step), w)
    ensures Reaches(start, w)
  {
    ReachesNext(start, before, step);
    var first :| Run(start, first) == Next(before, step);
    var second :| Run(Next(before, step), second) == w;
    RunSplits(start, first, second);
    assert Run(start, first + second) == w;
  }

  /** From every world to begin with, a lost reply can leave a gap that no snapshot announces. */
  lemma LostReplyLeavesGap(start: World, signal: Signal, snapshot: Snapshot) returns (w: World)
    requires Quiet(start) && !IsTerminal(signal.status) && !IsTerminal(snapshot.status)
    ensures Reaches(start, w) && HasGap(w)
    ensures w.outcomes == [Appended] + [ReplyLost] + [Appended] && w.clients[0].missed == {}
  {
    var before;
    before, w := TroubleLeavesGap(start, signal, snapshot, ReplyLost, 2);
    ReachesVia(start, before, PublishSignal(signal, ReplyLost, {}, 2), w);
  }

  /** So can a broadcast that an unchecked exception ends before it gets to the client: the emitter that
      throws is not the client's, but one left ahead of it by a lost connection. */
  lemma BrokenOffBroadcastLeavesGap(start: World, signal: Signal, snapshot: Snapshot)
    returns (before: World, w: World)
    requires Quiet(start) && !IsTerminal(signal.status) && !IsTerminal(snapshot.status)
    ensures Reaches(start, before) && StandsBehind(before)
    ensures Reaches(Next(before, PublishSignal(signal, Appended, {}, 0)), w) && Reaches(start, w) && HasGap(w)
    ensures w.outcomes == [Appended] + [Appended] + [Appended] && w.clients[0].missed == {1}
  {
    before, w := TroubleLeavesGap(start, signal, snapshot, Appended, 0);
    ReachesVia(start, before, PublishSignal(signal, Appended, {}, 0), w);
  }
}
