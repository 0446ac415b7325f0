/** The WebSocket hub (internal/api/websocket/hub.go): clients, their send channels, broadcasts. */
module Hub {

  type ClientId = nat
  type EventType = nat

  datatype Event = Event(kind: EventType, data: string)

  const SEND_BUFFER_SIZE := 256
  const BROADCAST_BUFFER_SIZE := 256

  /** A client without subscriptions receives everything. */
  predicate IsSubscribed(subscriptions: set<EventType>, e: Event) {
    subscriptions == {} || e.kind in subscriptions
  }

  /** One client's channel. `sent` is everything ever sent to it: what it received, then its buffer. */
  datatype Outbox = Outbox(
    sent: seq<Event>,
    received: nat,
    closes: nat,
    sentAfterClose: bool,
    subscriptions: set<EventType>)
  {
    function Offered(e: Event): Outbox {
      if IsSubscribed(subscriptions, e) && !IsFull()
      then this.(sent := sent + [e], sentAfterClose := sentAfterClose || closes > 0)
      else this
    }

    predicate IsFull() {
      |sent| - received >= SEND_BUFFER_SIZE
    }

    /** The event finds no room. */
    predicate Misses(e: Event) {
      IsSubscribed(subscriptions, e) && IsFull()
    }

    function Closed(): Outbox {
      this.(closes := closes + 1)
    }

    function Taken(): Outbox {
      this.(received := received + 1)
    }
  }

  // ---------------------------------------------------------------------------
  // The operations of the event loop on its clients.
  // ---------------------------------------------------------------------------

  /** A buffered channel; sending to it or closing it once it is closed would panic. */
  class Client {
    var buffer: seq<Event>
    ghost var received: seq<Event>
    var closed: bool
    var subscriptions: set<EventType>

    ghost function Box(): Outbox
      reads this
    {
      Outbox(received + buffer, |received|, if closed then 1 else 0, false, subscriptions)
    }

    constructor (subscriptions: set<EventType>)
      ensures !closed && Box() == Outbox([], 0, 0, false, subscriptions)
    {
      buffer, received, closed, this.subscriptions := [], [], false, subscriptions;
    }

    method TrySend(e: Event) returns (sent: bool)
      requires !closed && IsSubscribed(subscriptions, e)
      modifies this`buffer
      ensures sent == !old(Box()).IsFull() && Box() == old(Box()).Offered(e)
      ensures sent <==> |old(buffer)| < 256
      ensures buffer == if sent then old(buffer) + [e] else old(buffer)
    {
      sent := |buffer| < SEND_BUFFER_SIZE;
      if sent {
        buffer := buffer + [e];
        assert received + buffer == old(received + buffer) + [e];
      }
    }

    /** The client's writer takes the next message; it may still do so after the channel was closed. */
    method Take() returns (e: Event)
      requires buffer != []
      modifies this`buffer, this`received
      ensures Box() == old(Box()).Taken() && e == Box().sent[old(Box()).received]
    {
      e := buffer[0];
      received, buffer := received + [e], buffer[1..];
      assert received + buffer == old(received + buffer);
    }

    method Close()
      requires !closed
      modifies this`closed
      ensures closed && Box() == old(Box()).Closed()
    {
      closed := true;
    }
  }

  /** What an offer does to a channel's buffer. */
  lemma OfferedBuffer(received: seq<Event>, buffer: seq<Event>, buffer': seq<Event>, subscriptions: set<EventType>,
                      e: Event)
    requires Outbox(received + buffer', |received|, 0, false, subscriptions)
          == Outbox(received + buffer, |received|, 0, false, subscriptions).Offered(e)
    ensures var wants := subscriptions == {} || e.kind in subscriptions;
            && buffer' == (if wants && |buffer| < 256 then buffer + [e] else buffer)
            && (Outbox(received + buffer, |received|, 0, false, subscriptions).Misses(e) <==> wants && |buffer| >= 256)
  {
    var wants := subscriptions == {} || e.kind in subscriptions;
    assert buffer' == (received + buffer')[|received|..];
    if wants && |buffer| < 256 {
      assert received + buffer' == (received + buffer) + [e];
      assert ((received + buffer) + [e])[|received|..] == buffer + [e];
    } else {
      assert (received + buffer)[|received|..] == buffer;
    }
  }

  class Hub {
    var clients: set<Client>

    /** The channels of all registered clients are open: no operation below ever panics. */
    ghost predicate Valid()
      reads this, clients
    {
      forall c | c in clients :: !c.closed
    }

    constructor ()
      ensures Valid() && clients == {}
    {
      clients := {};
    }

    method Register(c: Client)
      requires Valid() && !c.closed
      modifies this
      ensures Valid() && clients == old(clients) + {c}
    {
      clients := clients + {c};
    }

    /** Of a client that is not registered (any more): nothing happens. */
    method Unregister(c: Client)
      requires Valid()
      modifies this, c`closed
      ensures Valid() && clients == old(clients) - {c}
      ensures c.Box() == if c in old(clients) then old(c.Box()).Closed() else old(c.Box())
    {
      if c in clients {
        clients := clients - {c};
        c.Close();
      }
    }

    /** Every registered, subscribed client gets the event unless its buffer is full; those with a
        full buffer are to be unregistered by goroutines of their own. */
    method BroadcastEvent(e: Event) returns (spawned: set<Client>)
      requires Valid()
      modifies clients`buffer
      ensures Valid() && clients == old(clients)
      ensures forall c | c in clients :: c.Box() == old(c.Box()).Offered(e)
      ensures forall c :: c in spawned <==> c in clients && old(c.Box()).Misses(e)
      ensures forall c | c in clients ::
        var wants := c.subscriptions == {} || e.kind in c.subscriptions;
        && c.buffer == (if wants && |old(c.buffer)| < 256 then old(c.buffer) + [e] else old(c.buffer))
        && (c in spawned <==> wants && |old(c.buffer)| >= 256)
    {
      spawned := OfferAll(e);
      forall c | c in clients
        ensures var wants := c.subscriptions == {} || e.kind in c.subscriptions;
                && c.buffer == (if wants && |old(c.buffer)| < 256 then old(c.buffer) + [e] else old(c.buffer))
                && (c in spawned <==> wants && |old(c.buffer)| >= 256)
      {
        OfferedBuffer(c.received, old(c.buffer), c.buffer, c.subscriptions, e);
      }
    }

    /** The loop over the clients. */
    method OfferAll(e: Event) returns (spawned: set<Client>)
      requires Valid()
      modifies clients`buffer
      ensures Valid() && clients == old(clients)
      ensures forall c | c in clients :: c.Box() == old(c.Box()).Offered(e)
      ensures forall c :: c in spawned <==> c in clients && old(c.Box()).Misses(e)
    {
      spawned := {};
      var rest := clients;
      while rest != {}
        invariant rest <= clients && clients == old(clients)
        invariant forall c | c in clients :: !c.closed
        invariant forall c | c in clients :: c.Box() == if c in rest then old(c.Box()) else old(c.Box()).Offered(e)
        invariant forall c :: c in spawned <==> c in clients - rest && old(c.Box()).Misses(e)
        decreases |rest|
      {
        var client :| client in rest;
        rest := rest - {client};
        if !IsSubscribed(client.subscriptions, e) {
          continue;
        }
        var sent := client.TrySend(e);
        if !sent {
          spawned := spawned + {client};
        }
      }
    }

    method CloseAllClients()
      requires Valid()
      modifies this, clients`closed
      ensures Valid() && clients == {}
      ensures forall c | c in old(clients) :: c.Box() == old(c.Box()).Closed()
    {
      while clients != {}
        invariant clients <= old(clients)
        invariant Valid()
        invariant forall c | c in old(clients) ::
          c.Box() == if c in clients then old(c.Box()) else old(c.Box()).Closed()
        decreases |clients|
      {
        var client :| client in clients;
        client.Close();
        clients := clients - {client};
      }
    }
  }

  // ---------------------------------------------------------------------------
  // The event loop and everybody around it, over whole runs.
  // ---------------------------------------------------------------------------

  /** `log` is the history of events broadcast so far, and `joined` its length when a client registered. */
  datatype System = System(
    clients: set<ClientId>,
    outboxes: map<ClientId, Outbox>,
    joined: map<ClientId, nat>,
    queue: seq<Event>,
    spawned: multiset<ClientId>,
    log: seq<Event>,
    stopped: bool)

  datatype Step =
    | Register(c: ClientId, subscriptions: set<EventType>)
    | Subscribe(c: ClientId, subscriptions: set<EventType>)
    | Unregister(c: ClientId)            // by the client's reader, any number of times
    | UnregisterSpawned(c: ClientId)     // by a goroutine of broadcastEvent
    | Broadcast(e: Event)                // dropped when the queue is full
    | Handle                             // the loop takes the next event of the queue
    | Receive(c: ClientId)               // the client's writer takes the next message
    | Stop

  predicate Enabled(s: System, st: Step) {
    match st
    // Hypothesis: a client registers once, as ServeWS does with the client it has just made.
    case Register(c, _) => !s.stopped && c !in s.outboxes
    case Subscribe(c, _) => c in s.outboxes
    case Unregister(c) => !s.stopped && c in s.outboxes
    case UnregisterSpawned(c) => !s.stopped && c in s.spawned
    case Broadcast(_) => true
    case Handle => !s.stopped && s.queue != []
    case Receive(c) => c in s.outboxes && s.outboxes[c].received < |s.outboxes[c].sent|
    case Stop => !s.stopped
  }

  function Unregistered(s: System, c: ClientId): System {
    if c in s.clients && c in s.outboxes
    then s.(clients := s.clients - {c}, outboxes := s.outboxes[c := s.outboxes[c].Closed()])
    else s
  }

  function Next(s: System, st: Step): System
    requires Enabled(s, st)
  {
    match st
    case Register(c, subs) =>
      s.(clients := s.clients + {c}, outboxes := s.outboxes[c := Outbox([], 0, 0, false, subs)],
         joined := s.joined[c := |s.log|])
    case Subscribe(c, subs) => s.(outboxes := s.outboxes[c := s.outboxes[c].(subscriptions := subs)])
    case Unregister(c) => Unregistered(s, c)
    case UnregisterSpawned(c) => Unregistered(s.(spawned := s.spawned - multiset{c}), c)
    case Broadcast(e) => if |s.queue| < BROADCAST_BUFFER_SIZE then s.(queue := s.queue + [e]) else s
    case Handle =>
      var e := s.queue[0];
      var full := set c | c in s.clients && c in s.outboxes && s.outboxes[c].Misses(e);
      s.(queue := s.queue[1..], log := s.log + [e],
         outboxes := map c | c in s.outboxes :: if c in s.clients then s.outboxes[c].Offered(e) else s.outboxes[c],
         spawned := s.spawned + multiset(full))
    case Receive(c) => s.(outboxes := s.outboxes[c := s.outboxes[c].Taken()])
    case Stop =>
      s.(stopped := true, clients := {},
         outboxes := map c | c in s.outboxes :: if c in s.clients then s.outboxes[c].Closed() else s.outboxes[c])
  }

  const START := System({}, map[], map[], [], multiset{}, [], false)

  /** The subsequence relation, from the back. */
  predicate Subsequence(a: seq<Event>, b: seq<Event>) {
    a == [] ||
    (b != [] &&
     ((a[|a| - 1] == b[|b| - 1] && Subsequence(a[..|a| - 1], b[..|b| - 1])) || Subsequence(a, b[..|b| - 1])))
  }

  lemma SubsequenceGrows(a: seq<Event>, b: seq<Event>, e: Event)
    requires Subsequence(a, b)
    ensures Subsequence(a, b + [e]) && Subsequence(a + [e], b + [e])
  {
    assert (b + [e])[..|b|] == b && (a + [e])[..|a|] == a;
  }

  /** What holds of every client's channel at all times. */
  ghost predicate Orderly(log: seq<Event>, registered: bool, o: Outbox, joined: nat) {
    && joined <= |log|
    && o.received <= |o.sent| <= o.received + SEND_BUFFER_SIZE
    && Subsequence(o.sent, log[joined..])
    && o.closes == (if registered then 0 else 1)
    && !o.sentAfterClose
  }

  ghost predicate AllOrderly(s: System) {
    && s.clients <= s.outboxes.Keys == s.joined.Keys
    && forall c | c in s.outboxes :: Orderly(s.log, c in s.clients, s.outboxes[c], s.joined[c])
  }

  lemma OfferedOrderly(log: seq<Event>, e: Event, registered: bool, o: Outbox, joined: nat)
    requires Orderly(log, registered, o, joined)
    ensures Orderly(log + [e], registered, if registered then o.Offered(e) else o, joined)
  {
    assert (log + [e])[joined..] == log[joined..] + [e];
    SubsequenceGrows(o.sent, log[joined..], e);
  }

  lemma StaysOrderly(s: System, st: Step)
    requires AllOrderly(s) && Enabled(s, st)
    ensures AllOrderly(Next(s, st))
  {
    if st.Handle? {
      forall c | c in s.outboxes
        ensures Orderly(Next(s, st).log, c in s.clients, Next(s, st).outboxes[c], s.joined[c])
      {
        OfferedOrderly(s.log, s.queue[0], c in s.clients, s.outboxes[c], s.joined[c]);
      }
    }
  }

  ghost predicate IsRun(states: seq<System>, steps: seq<Step>) {
    && |states| == |steps| + 1 && states[0] == START
    && forall i | 0 <= i < |steps| :: Enabled(states[i], steps[i]) && states[i + 1] == Next(states[i], steps[i])
  }

  lemma {:induction false} RunOrderly(states: seq<System>, steps: seq<Step>, i: nat)
    requires IsRun(states, steps) && i <= |steps|
    ensures AllOrderly(states[i])
  {
    if i > 0 {
      RunOrderly(states, steps, i - 1);
      StaysOrderly(states[i - 1], steps[i - 1]);
    }
  }

  /** Over all interleavings: a client's channel is closed at most once, exactly when it has left the
      hub, and nothing is ever sent to it afterwards; and what the client has received is an
      order-preserving part of the events broadcast since it registered. */
  lemma ClientLifecycle(states: seq<System>, steps: seq<Step>, i: nat, c: ClientId)
    requires IsRun(states, steps) && i <= |steps| && c in states[i].outboxes
    ensures var s, o := states[i], states[i].outboxes[c];
            && o.closes == (if c in s.clients then 0 else 1)
            && !o.sentAfterClose
            && c in s.joined && s.joined[c] <= |s.log| && o.received <= |o.sent|
            && Subsequence(o.sent[..o.received], s.log[s.joined[c]..])
  {
    RunOrderly(states, steps, i);
    var o := states[i].outboxes[c];
    PrefixOfSubsequence(o.sent, states[i].log[states[i].joined[c]..], o.received);
  }

  lemma {:induction false} PrefixOfSubsequence(a: seq<Event>, b: seq<Event>, n: nat)
    requires Subsequence(a, b) && n <= |a|
    ensures Subsequence(a[..n], b)
    decreases |b|
  {
    if n == |a| {
      assert a[..n] == a;
    } else if n > 0 {
      var shorter := b[..|b| - 1];
      if a[|a| - 1] == b[|b| - 1] && Subsequence(a[..|a| - 1], shorter) {
        PrefixOfSubsequence(a[..|a| - 1], shorter, n);
        assert a[..|a| - 1][..n] == a[..n];
      } else {
        PrefixOfSubsequence(a, shorter, n);
      }
    }
  }

  /** A registered client that wants an event and has room gets it: an event is lost to a client only
      on a full buffer, and then its removal is on its way. */
  lemma MissedOnlyWhenFull(s: System, c: ClientId)
    requires AllOrderly(s) && Enabled(s, Handle) && c in s.clients
    requires s.outboxes[c].subscriptions == {} || s.queue[0].kind in s.outboxes[c].subscriptions
    ensures var s' := Next(s, Handle);
            if |s.outboxes[c].sent| - s.outboxes[c].received >= 256
            then s'.outboxes[c].sent == s.outboxes[c].sent && c in s'.spawned && Enabled(s', UnregisterSpawned(c))
            else s'.outboxes[c].sent == s.outboxes[c].sent + [s.queue[0]]
  {
    var full := set x | x in s.clients && x in s.outboxes && s.outboxes[x].Misses(s.queue[0]);
    if s.outboxes[c].IsFull() {
      assert c in full && c in multiset(full);
    }
  }

  /** A client that did not subscribe to the event, though it subscribed to something, does not get it
      and is not removed; and an event reaches the loop unless 256 others wait for it already. */
  lemma OnlyWhatWasAskedFor(s: System, c: ClientId, e: Event)
    requires AllOrderly(s) && Enabled(s, Handle) && c in s.clients
    requires s.outboxes[c].subscriptions != {} && s.queue[0].kind !in s.outboxes[c].subscriptions
    ensures var s' := Next(s, Handle);
            s'.outboxes[c] == s.outboxes[c] && c in s'.clients && s'.spawned[c] == s.spawned[c]
    ensures Next(s, Broadcast(e)).queue == if |s.queue| < 256 then s.queue + [e] else s.queue
  {
    var full := set x | x in s.clients && x in s.outboxes && s.outboxes[x].Misses(s.queue[0]);
    assert c !in full && multiset(full)[c] == 0;
  }
}
