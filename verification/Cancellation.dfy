/** Exactly when a canceled task can still be started although nothing revives it. */
module Cancellation {
  import opened Tasks
  import opened Store
  import opened Protocol
  import opened Shape
  import opened Execution
  import opened Terminal
  import C = Scenarios
  import F = Refinement

  /** The step starts the handler of the task. */
  predicate StartsTask(s: System, e: Event, id: TaskId) {
    && e.Worker? && e.w.Begin? && e.tok in s.live && s.live[e.tok].Loaded?
    && s.live[e.tok].t.id == id && s.live[e.tok].t.state.CanTransitionTo(Running)
  }

  /** The events lead from s to s', and none of them revives the task. */
  ghost predicate LeadsUnrevived(s: System, events: seq<Event>, s': System, id: TaskId)
    decreases |events|
  {
    if events == [] then s' == s
    else
      && Enabled(s, events[0])
      && !Revives(s, events[0], id)
      && LeadsUnrevived(Next(s, events[0]), events[1..], s', id)
  }

  /** Some continuation of the run starts the task, and nothing in it revives the task. */
  ghost predicate MayStart(s: System, id: TaskId) {
    exists events: seq<Event>, s': System, e: Event ::
      LeadsUnrevived(s, events, s', id) && Enabled(s', e) && StartsTask(s', e, id)
  }

  lemma StepFirst(s: System, e: Event, id: TaskId)
    requires Enabled(s, e) && !Revives(s, e, id) && MayStart(Next(s, e), id)
    ensures MayStart(s, id)
  {
    var events: seq<Event>, s': System, f: Event :|
      LeadsUnrevived(Next(s, e), events, s', id) && Enabled(s', f) && StartsTask(s', f, id);
    assert ([e] + events)[1..] == events;
    assert LeadsUnrevived(s, [e] + events, s', id);
  }

  lemma StartsNow(s: System, e: Event, id: TaskId)
    requires Enabled(s, e) && StartsTask(s, e, id)
    ensures MayStart(s, id)
  {
    assert LeadsUnrevived(s, [], s, id);
  }

  // ---------------------------------------------------------------------------
  // Without a starter, never.
  // ---------------------------------------------------------------------------

  lemma {:induction false} OverAfter(s: System, events: seq<Event>, s': System, id: TaskId)
    requires Shaped(s) && Over(s, id) && LeadsUnrevived(s, events, s', id)
    ensures Over(s', id)
    decreases |events|
  {
    if events != [] {
      Keeps(s, events[0]);
      StaysOver(s, events[0], id);
      OverAfter(Next(s, events[0]), events[1..], s', id);
    }
  }

  lemma OverNeverStarts(s: System, id: TaskId)
    requires Shaped(s) && Over(s, id)
    ensures !MayStart(s, id)
  {
    forall events: seq<Event>, s': System, e: Event | LeadsUnrevived(s, events, s', id) && StartsTask(s', e, id)
      ensures false
    {
      OverAfter(s, events, s', id);
      assert HoldsCopy(s'.live[e.tok], id);
    }
  }

  // ---------------------------------------------------------------------------
  // With one, by some continuation. First every message that waits is read.
  // ---------------------------------------------------------------------------

  function Unread(s: Stream): nat {
    if s.next < |s.log| then |s.log| - s.next else 0
  }

  function Backlog(s: Streams): nat {
    Unread(s.low) + Unread(s.normal) + Unread(s.high) + Unread(s.critical)
  }

  /** Holders, requests and records are as they were. */
  predicate OnlyRead(s: System, s': System) {
    && (forall tok | tok in s.live :: tok in s'.live && s'.live[tok] == s.live[tok])
    && s'.requests == s.requests && s'.created == s.created && s'.db == s.db.(streams := s'.db.streams)
  }

  lemma ReadsOn(s: System)
    requires Shaped(s) && s.db.FirstReady().Some?
    ensures var s' := Next(s, Read("", 0));
            Shaped(s') && OnlyRead(s, s') && Backlog(s'.db.streams) < Backlog(s.db.streams)
  {
    Keeps(s, Read("", 0));
    F.ReadStep(s, "", 0);
  }

  ghost predicate StartsOnceRead(s: System, id: TaskId) {
    forall s': System | Shaped(s') && OnlyRead(s, s') && s'.db.FirstReady().None? :: MayStart(s', id)
  }

  lemma {:induction false} ReadAllFirst(s: System, id: TaskId)
    requires Shaped(s) && StartsOnceRead(s, id)
    ensures MayStart(s, id)
    decreases Backlog(s.db.streams)
  {
    if s.db.FirstReady().Some? {
      ReadsOn(s);
      ReadAllFirst(Next(s, Read("", 0)), id);
      StepFirst(s, Read("", 0), id);
    }
  }

  // ---------------------------------------------------------------------------
  // Then the holder goes on.
  // ---------------------------------------------------------------------------

  /** The task is Pending and its message is the one the next worker gets. */
  lemma DeliveredStarts(s: System, id: TaskId, p: Priority)
    requires Shaped(s) && Alive(s, id) && s.db.FirstReady() == Option.Some(p)
    requires s.db.streams.Of(p).log[s.db.streams.Of(p).next] == id
    ensures MayStart(s, id)
  {
    var tok := Msg(p, s.db.streams.Of(p).next);
    F.ReadStep(s, "", 0);
    FetchedStarts(Next(s, Read("", 0)), tok, id);
    StepFirst(s, Read("", 0), id);
  }

  lemma FetchedStarts(s: System, tok: Token, id: TaskId)
    requires WorkerEnabled(s, tok, Load) && s.db.streams.Of(tok.p).log[tok.m] == id
    requires Alive(s, id) && s.db.records[id].id == id
    ensures MayStart(s, id)
  {
    F.LoadStep(s, tok, "", 0);
    StartsNow(Next(s, Worker(tok, Load)), Worker(tok, Begin("", 0)), id);
    StepFirst(s, Worker(tok, Load), id);
  }

  /** A message appended when no other waits. */
  lemma AppendedStarts(s: System, s': System, id: TaskId, p: Priority)
    requires Shaped(s) && s.db.FirstReady().None? && Shaped(s') && Alive(s', id)
    requires s'.db.streams == s.db.Append(p, id).streams
    ensures MayStart(s', id)
  {
    assert forall x: Priority :: s.db.streams.Of(x).next == |s.db.streams.Of(x).log|;
    assert s'.db.FirstReady() == Option.Some(p);
    DeliveredStarts(s', id, p);
  }

  lemma DeferredStarts(s: System, id: TaskId)
    requires Shaped(s) && s.db.FirstReady().None? && Deferred(s.db, id)
    ensures MayStart(s, id)
  {
    var e := Activate(id, s.db.scheduled[id] * SECOND);
    Keeps(s, e);
    AppendedStarts(s, Next(s, e), id, s.db.records[id].priority);
    StepFirst(s, e, id);
  }

  lemma RescheduleStarts(s: System, tok: Token)
    requires Shaped(s) && s.db.FirstReady().None? && tok in s.live && s.live[tok].RetryStored?
    ensures MayStart(s, s.live[tok].t.id)
  {
    assert MayHold(s, tok, s.live[tok]);
    var e, id := Worker(tok, StoreAgain), s.live[tok].t.id;
    Keeps(s, e);
    StoredAgainStarts(Next(s, e), tok);
    StepFirst(s, e, id);
  }

  lemma StoredAgainStarts(s: System, tok: Token)
    requires Shaped(s) && s.db.FirstReady().None? && tok in s.live && s.live[tok].RetryStoredTwice?
    requires var t := s.live[tok].t; t.id in s.db.records && s.db.records[t.id].state.IsDeferred()
    ensures MayStart(s, s.live[tok].t.id)
  {
    assert MayHold(s, tok, s.live[tok]);
    var e, id := Worker(tok, Reschedule), s.live[tok].t.id;
    Keeps(s, e);
    DeferredStarts(Next(s, e), id);
    StepFirst(s, e, id);
  }

  lemma StoredStarts(s: System, q: nat)
    requires Shaped(s) && s.db.FirstReady().None? && q in s.requests && s.requests[q].AdminStored?
    requires MayStorePending(s, s.requests[q].t.id)
    ensures MayStart(s, s.requests[q].t.id)
  {
    assert InFlight(s.created, s.db.records, s.db.expiring, s.requests[q]);
    var e, f, t := Api(q, AdminStoreAgain), Api(q, AdminAppend), s.requests[q].t;
    Keeps(s, e);
    var s1 := Next(s, e);
    Keeps(s1, f);
    AppendedStarts(s1, Next(s1, f), t.id, t.priority);
    StepFirst(s1, f, t.id);
    StepFirst(s, e, t.id);
  }

  lemma LoadedStarts(s: System, q: nat)
    requires Shaped(s) && s.db.FirstReady().None? && q in s.requests && s.requests[q].AdminLoaded?
    requires MayStorePending(s, s.requests[q].t.id)
    ensures MayStart(s, s.requests[q].t.id)
  {
    assert InFlight(s.created, s.db.records, s.db.expiring, s.requests[q]);
    var e, id := Api(q, AdminStore), s.requests[q].t.id;
    Keeps(s, e);
    StoredStarts(Next(s, e), q);
    StepFirst(s, e, id);
  }

  lemma FreshRequest(requests: map<nat, Request>) returns (q: nat)
    ensures q !in requests
  {
    if requests.Keys == {} {
      q := 0;
    } else {
      var greatest := Greatest(requests.Keys);
      q := greatest + 1;
    }
  }

  lemma {:induction false} Greatest(qs: set<nat>) returns (q: nat)
    requires qs != {}
    ensures forall x | x in qs :: x <= q
    decreases |qs|
  {
    q :| q in qs;
    if qs - {q} != {} {
      var r := Greatest(qs - {q});
      forall x | x in qs ensures x <= if r > q then r else q {
        assert x != q ==> x in qs - {q};
      }
      q := if r > q then r else q;
    }
  }

  /** The last attempt of a handler fails, and an administrator retries the task. */
  lemma FailedStarts(s: System, tok: Token)
    requires Shaped(s) && s.db.FirstReady().None? && tok in s.live && s.live[tok].Executing?
    requires !s.live[tok].t.CanRetry()
    ensures MayStart(s, s.live[tok].t.id)
  {
    assert MayHold(s, tok, s.live[tok]);
    var e, id := Worker(tok, FailFinal("", 0)), s.live[tok].t.id;
    Keeps(s, e);
    AdministeredStarts(Next(s, e), id);
    StepFirst(s, e, id);
  }

  lemma AdministeredStarts(s: System, id: TaskId)
    requires Shaped(s) && s.db.FirstReady().None? && id in s.created && id in s.db.records
    requires s.db.records[id].state.Failed?
    ensures MayStart(s, id)
  {
    var q := FreshRequest(s.requests);
    var e := Api(q, AdminLoad(id, 0));
    Keeps(s, e);
    LoadedStarts(Next(s, e), q);
    StepFirst(s, e, id);
  }

  lemma ExecutingStarts(s: System, tok: Token)
    requires Shaped(s) && s.db.FirstReady().None? && tok in s.live && s.live[tok].Executing?
    ensures MayStart(s, s.live[tok].t.id)
  {
    if s.live[tok].t.CanRetry() {
      FailedOnceStarts(s, tok);
    } else {
      FailedStarts(s, tok);
    }
  }

  lemma FailedOnceStarts(s: System, tok: Token)
    requires Shaped(s) && s.db.FirstReady().None? && tok in s.live && s.live[tok].Executing?
    requires s.live[tok].t.CanRetry()
    ensures MayStart(s, s.live[tok].t.id)
  {
    assert MayHold(s, tok, s.live[tok]);
    var e, id := Worker(tok, FailRetry("", 0, 0)), s.live[tok].t.id;
    Keeps(s, e);
    RescheduleStarts(Next(s, e), tok);
    StepFirst(s, e, id);
  }

  lemma HolderStarts(s: System, tok: Token, id: TaskId)
    requires Shaped(s) && tok in s.live && HoldsCopy(s.live[tok], id) && !s.live[tok].Orphan? && !s.live[tok].Picked?
    ensures MayStart(s, id)
  {
    assert MayHold(s, tok, s.live[tok]);
    if s.live[tok].Loaded? {
      StartsNow(s, Worker(tok, Begin("", 0)), id);
    } else {
      forall s': System | Shaped(s') && OnlyRead(s, s') && s'.db.FirstReady().None? ensures MayStart(s', id) {
        if s.live[tok].Executing? {
          ExecutingStarts(s', tok);
        } else {
          RescheduleStarts(s', tok);
        }
      }
      ReadAllFirst(s, id);
    }
  }

  lemma AdministratorStarts(s: System, q: nat, id: TaskId)
    requires Shaped(s) && q in s.requests && WillStorePending(s.requests[q], id) && NotDeferred(s.db, id)
    ensures MayStart(s, id)
  {
    forall s': System | Shaped(s') && OnlyRead(s, s') && s'.db.FirstReady().None? ensures MayStart(s', id) {
      if s.requests[q].AdminLoaded? {
        LoadedStarts(s', q);
      } else {
        StoredStarts(s', q);
      }
    }
    ReadAllFirst(s, id);
  }

  /** A canceled task can be started with no recovery and no dead-letter retry storing its record if
      and only if a worker or an administrator holds a copy of it from before the cancellation that it
      may still start or store. */
  lemma CanceledMayStart(s: System, id: TaskId)
    requires Shaped(s) && id in s.created && id in s.db.records && s.db.records[id].state.Canceled?
    ensures MayStart(s, id) <==> !NoStarters(s, id)
  {
    if NoStarters(s, id) {
      OverNeverStarts(s, id);
    } else if tok :| tok in s.live && HoldsCopy(s.live[tok], id) && !s.live[tok].Orphan? && !s.live[tok].Picked? {
      HolderStarts(s, tok, id);
    } else {
      var q :| q in s.requests && WillStorePending(s.requests[q], id);
      AdministratorStarts(s, q, id);
    }
  }

  // ---------------------------------------------------------------------------
  // The simplest such run: no crash, no recovery, no second message.
  // ---------------------------------------------------------------------------

  /** A worker reads the record, the task is canceled, and the worker stores Running over the accepted
      cancellation and starts the handler. */
  lemma CancellationOverwritten(retention: bool, minIdle: Time, r: Record, now: Time)
    returns (events: seq<Event>, s: System)
    requires C.IsNew(r) && r.state.Pending?
    ensures Leads(Start(retention, minIdle), events, s) && Ended(s, r.id) && r.id in s.canceled
    ensures var e := Worker(Msg(r.priority, 0), Begin("", now));
            && Overwrites(s, e, r.id) && StartsTask(s, e, r.id)
            && Starts(Next(s, e), r.id) == Starts(s, r.id) + 1
  {
    var start := Start(retention, minIdle);
    var a, s1 := C.DeliverIt(retention, minIdle, r, now);
    var b;
    b, s := C.CancelIt(s1, C.Delivered(r, now), now);
    F.Joined(start, a, s1, b, s);
    events := a + b;
    StartsCanceled(s, C.Delivered(r, now).(record := Moved(r, Canceled, now), canceled := true), r, now);
  }

  lemma StartsCanceled(s: System, c: C.Scene, r: Record, now: Time)
    requires C.Depicts(s, c) && c.id == r.id && c.p == r.priority && c.record == Moved(r, Canceled, now) && c.canceled
    requires c.live == map[Msg(r.priority, 0) := Loaded(r)] && |c.st.log| == 1 && r.state.Pending?
    ensures Ended(s, r.id) && r.id in s.canceled
    ensures var e := Worker(Msg(r.priority, 0), Begin("", now));
            Overwrites(s, e, r.id) && StartsTask(s, e, r.id) && Starts(Next(s, e), r.id) == Starts(s, r.id) + 1
  {
  }
}
