/** What holds in every reachable state of the protocol: placement, expiry, accounting. */
module Reachable {
  import opened Tasks
  import opened Store
  import opened Protocol
  import opened Shape
  import opened NoLoss
  import D = Dlq
  import Q = Queue

  ghost predicate IsReachable(s: System) {
    exists states: seq<System>, events: seq<Event> :: ReachedBy(s, states, events)
  }

  ghost predicate ReachedBy(s: System, states: seq<System>, events: seq<Event>) {
    && IsRun(states, events) && states[0] == Start(states[0].retention, states[0].minIdle)
    && s == states[|events|]
  }

  lemma ReachableIsShaped(s: System)
    requires IsReachable(s)
    ensures Shaped(s)
  {
    var states: seq<System>, events: seq<Event> :| ReachedBy(s, states, events);
    RunInvariant(states, events, |events|);
  }

  /** Every message names a task and sits on the stream of that task's immutable priority. */
  lemma Placement(s: System, p: Priority, m: MessageId)
    requires IsReachable(s) && m < |s.db.streams.Of(p).log|
    ensures var id := s.db.streams.Of(p).log[m];
            && id in s.created && s.created[id].priority == p
            && (id in s.db.records ==> s.db.records[id].id == id && s.db.records[id].priority == p)
  {
    ReachableIsShaped(s);
    assert s.db.streams.Of(p).log[m] in s.created;
  }

  /** Acknowledge derives the stream from the record, and hits the very entry that was delivered: it
      was pending, now it is acknowledged, and nothing else changes. */
  lemma AcknowledgeHitsTheDelivery(s: System, tok: Token)
    requires IsReachable(s) && WorkerEnabled(s, tok, Ack)
    ensures var t, before, after := s.live[tok].t, s.db.streams.Of(tok.p), WorkerNext(s, tok, Ack).db.streams.Of(tok.p);
            && t.priority == tok.p && before.log[tok.m] == t.id && tok.m in before.pel
            && after == before.(pel := before.pel - {tok.m}, acked := before.acked + {tok.m})
            && WorkerNext(s, tok, Ack).db == s.db.WithStream(tok.p, after)
  {
    ReachableIsShaped(s);
    assert MayHold(s, tok, s.live[tok]);
  }

  /** Only final records carry an expiry, so that a waiting or running task never expires: a record
      that may expire next is final, and a record that is not has no expiry. */
  lemma ExpiryOnlyOnFinal(s: System, id: TaskId)
    requires IsReachable(s)
    ensures Enabled(s, Expire(id)) ==> id in s.db.records && s.db.records[id].state.IsFinal()
    ensures id in s.db.records && !s.db.records[id].state.IsFinal() ==> id !in s.db.expiring
  {
    ReachableIsShaped(s);
  }

  // ---------------------------------------------------------------------------
  // Expiry, exactly.
  // ---------------------------------------------------------------------------

  /** A record carries an expiry if and only if there is a retention policy and its state is final. */
  predicate ExpiresRight(s: System, id: TaskId) {
    id in s.db.expiring <==>
      s.retention && id in s.db.records && s.db.records[id].state in {Completed, Failed, State.Canceled, DeadLetter}
  }

  /** Of the task of a stored record it is established, of any other kept. */
  lemma StoredExpiresRight(s: System, s': System, r: Record, id: TaskId)
    requires ExpiresRight(s, id) && s'.retention == s.retention
    requires s'.db.records == s.db.records[r.id := r]
    requires s'.db.expiring == s.db.Update(r, s.retention).expiring
    ensures ExpiresRight(s', id)
  {
  }

  lemma WorkerExpiresRight(s: System, tok: Token, w: WorkerStep, id: TaskId)
    requires Shaped(s) && ExpiresRight(s, id) && WorkerEnabled(s, tok, w)
    ensures ExpiresRight(WorkerNext(s, tok, w), id)
  {
    assert MayHold(s, tok, s.live[tok]);
    var s' := WorkerNext(s, tok, w);
    match w
    case Begin(worker, now) =>
      if s.live[tok].t.state.CanTransitionTo(State.Running) {
        StoredExpiresRight(s, s', Started(s.live[tok].t, worker, now), id);
      }
    case Succeed(now) => StoredExpiresRight(s, s', Succeeded(s.live[tok].t, now), id);
    case FailRetry(message, now, delay) =>
      StoredExpiresRight(s, s', FailedForRetry(s.live[tok].t, message, now, delay), id);
    case FailFinal(message, now) => StoredExpiresRight(s, s', Errored(s.live[tok].t, message, now), id);
    case StoreAgain => StoredExpiresRight(s, s', s.live[tok].t, id);
    case _ =>
  }

  lemma RecoveryExpiresRight(s: System, tok: Token, r: RecoveryStep, id: TaskId)
    requires Shaped(s) && ExpiresRight(s, id) && RecoveryEnabled(s, tok, r)
    ensures ExpiresRight(RecoveryNext(s, tok, r), id)
  {
    if r.StoreOrphan? {
      assert MayHold(s, tok, s.live[tok]);
      RecoveryStores(s, tok, id);
    }
  }

  lemma RecoveryStores(s: System, tok: Token, id: TaskId)
    requires ExpiresRight(s, id) && RecoveryEnabled(s, tok, StoreOrphan) && s.live[tok].t.state.Pending?
    ensures ExpiresRight(RecoveryNext(s, tok, StoreOrphan), id)
  {
    StoredExpiresRight(s, RecoveryNext(s, tok, StoreOrphan), s.live[tok].t, id);
  }

  lemma DlqExpiresRight(s: System, tok: Token, d: DlqStep, id: TaskId)
    requires Shaped(s) && ExpiresRight(s, id) && DlqEnabled(s, tok, d)
    ensures ExpiresRight(DlqNext(s, tok, d), id)
  {
    if d.Restore? {
      assert MayHold(s, tok, s.live[tok]);
      DlqStores(s, tok, id);
    }
  }

  lemma DlqStores(s: System, tok: Token, id: TaskId)
    requires ExpiresRight(s, id) && DlqEnabled(s, tok, Restore) && s.live[tok].t.state.Pending?
    ensures ExpiresRight(DlqNext(s, tok, Restore), id)
  {
    StoredExpiresRight(s, DlqNext(s, tok, Restore), s.live[tok].t, id);
  }

  lemma RequestExpiresRight(s: System, q: nat, a: ApiStep, id: TaskId)
    requires Shaped(s) && ExpiresRight(s, id) && ApiEnabled(s, q, a)
    ensures ExpiresRight(ApiNext(s, q, a), id)
  {
    assert q in s.requests ==> InFlight(s.created, s.db.records, s.db.expiring, s.requests[q]);
    var s' := ApiNext(s, q, a);
    match a
    case Submit(t) => StoredExpiresRight(s, s', t, id);
    case CancelStore => StoredExpiresRight(s, s', s.requests[q].t, id);
    case AdminStore => StoredExpiresRight(s, s', s.requests[q].t, id);
    case AdminStoreAgain => StoredExpiresRight(s, s', s.requests[q].t, id);
    case _ =>
  }

  lemma StaysExpiringRight(s: System, e: Event, id: TaskId)
    requires Shaped(s) && ExpiresRight(s, id) && Enabled(s, e)
    ensures ExpiresRight(Next(s, e), id)
  {
    match e
    case Worker(tok, w) => WorkerExpiresRight(s, tok, w, id);
    case Recovery(tok, r) => RecoveryExpiresRight(s, tok, r, id);
    case DlqRetry(tok, d) => DlqExpiresRight(s, tok, d, id);
    case Api(q, a) => RequestExpiresRight(s, q, a, id);
    case Activate(i, now) =>
      if i in s.db.records && s.db.records[i].state.IsDeferred() {
        StoredExpiresRight(s, Next(s, e), Moved(s.db.records[i], Pending, now), id);
      }
    case Read(_, _) =>
    case Crash(_) =>
    case Expire(_) =>
  }

  lemma {:induction false} RunExpiresRight(states: seq<System>, events: seq<Event>, i: nat, id: TaskId)
    requires IsRun(states, events) && states[0] == Start(states[0].retention, states[0].minIdle) && i <= |events|
    ensures ExpiresRight(states[i], id)
    decreases i
  {
    if i > 0 {
      RunExpiresRight(states, events, i - 1, id);
      StepExpiresRight(states, events, i - 1, id);
    }
  }

  lemma StepExpiresRight(states: seq<System>, events: seq<Event>, k: nat, id: TaskId)
    requires IsRun(states, events) && states[0] == Start(states[0].retention, states[0].minIdle) && k < |events|
    requires ExpiresRight(states[k], id)
    ensures ExpiresRight(states[k + 1], id)
  {
    RunInvariant(states, events, k);
    StaysExpiringRight(states[k], events[k], id);
  }

  /** In every reachable state the records with an expiry are exactly those in a final state, if there
      is a retention policy, and none otherwise. */
  lemma ExpiryExactlyOnFinal(s: System, id: TaskId)
    requires IsReachable(s)
    ensures id in s.db.expiring <==>
              s.retention && id in s.db.records
                && s.db.records[id].state in {Completed, Failed, State.Canceled, DeadLetter}
  {
    var states: seq<System>, events: seq<Event> :| ReachedBy(s, states, events);
    RunExpiresRight(states, events, |events|, id);
  }

  /** The facts that the results on whole passes over Redis rely on. */
  lemma ReachableDatabase(s: System)
    requires IsReachable(s)
    ensures s.db.streams.Valid() && s.db.Placed() && s.db.Keyed() && D.AllDead(s.db.dlq)
  {
    ReachableIsShaped(s);
  }

  // ---------------------------------------------------------------------------
  // Accounting.
  // ---------------------------------------------------------------------------

  function Numbers(n: nat): (ms: set<MessageId>)
    ensures forall m :: m in ms <==> 0 <= m < n
    ensures |ms| == n
  {
    if n == 0 then {} else Numbers(n - 1) + {n - 1}
  }

  /** The length of a stream is what is undelivered, plus what is pending, plus what is acknowledged;
      so the reported backlog is never below the pending count, and it is the number of unacknowledged
      messages exactly when nothing was acknowledged yet, for XACK leaves the message in the stream. */
  lemma StreamAccounting(s: System, p: Priority)
    requires IsReachable(s)
    ensures var st := s.db.streams.Of(p);
            var stats := Q.StatsOf(st);
            && |st.log| == (|st.log| - st.next) + |st.pel| + |st.acked|
            && stats.pendingUnacked <= stats.queued
            && (stats.queued == (|st.log| - st.next) + stats.pendingUnacked <==> st.acked == {})
  {
    ReachableIsShaped(s);
    var st := s.db.streams.Of(p);
    assert st.Valid();
    assert Numbers(st.next) == st.pel.Keys + st.acked;
    assert st.pel.Keys !! st.acked;
    assert |st.pel| == |st.pel.Keys|;
  }

  /** The same for the totals of GetQueueStats. */
  lemma TotalsAccounting(s: System, stats: Q.QueueStats)
    requires IsReachable(s)
    requires forall p: Priority :: p in stats.queues && stats.queues[p] == Q.StatsOf(s.db.streams.Of(p))
    requires stats.totalQueued == stats.queues[Critical].queued + stats.queues[High].queued
                                + stats.queues[Normal].queued + stats.queues[Low].queued
    requires stats.totalPending == stats.queues[Critical].pendingUnacked + stats.queues[High].pendingUnacked
                                 + stats.queues[Normal].pendingUnacked + stats.queues[Low].pendingUnacked
    ensures stats.totalPending <= stats.totalQueued
  {
    StreamAccounting(s, Critical);
    StreamAccounting(s, High);
    StreamAccounting(s, Normal);
    StreamAccounting(s, Low);
  }
}
