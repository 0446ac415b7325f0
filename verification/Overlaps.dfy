/** Two retries of one exhausted task at the same time, by an administrator and through the
    dead-letter queue or twice through the queue: the slower one stores Pending over the task that
    the faster one has put back to work and that waits for its next retry. */
module Overlaps {
  import opened Tasks
  import opened Store
  import opened Protocol
  import opened Scenarios
  import D = Dlq
  import F = Refinement
  import W = Windows

  // ---------------------------------------------------------------------------
  // A task of two attempts, both failed, in the dead-letter queue.
  // ---------------------------------------------------------------------------

  /** The dead-letter entry is appended and indexed, the message acknowledged. */
  function Buried(c: Scene, tok: Token, t: Record, now: Time): Scene
    requires tok.Msg?
  {
    c.(st := c.st.Ack(tok.m), dlq := c.dlq + [Option.Some(Tasks.Buried(t, now))], live := c.live - {tok})
  }

  lemma BuryIt(s: System, c: Scene, tok: Token, t: Record, now: Time) returns (events: seq<Event>, s': System)
    requires Depicts(s, c) && Holds(c, tok, FailStored(t))
    ensures Leads(s, events, s') && Depicts(s', Buried(c, tok, t, now)) && Same(s, s')
  {
    var q := Tasks.Buried(t, now);
    BuriedScene(c, tok, t, now);
    var a, s1 := EntombIt(s, c, tok, t, now);
    var b;
    b, s' := AckIt(s1, Entombing(c, tok, t, now), tok, q);
    F.Joined(s, a, s1, b, s');
    events := a + b;
  }

  lemma BuriedScene(c: Scene, tok: Token, t: Record, now: Time)
    requires Holds(c, tok, FailStored(t))
    ensures var c1 := Entombing(c, tok, t, now);
            && Holds(c1, tok, Settled(Tasks.Buried(t, now)))
            && c1.(st := c1.st.Ack(tok.m), live := c1.live - {tok}) == Buried(c, tok, t, now)
  {
    var q := Tasks.Buried(t, now);
    assert c.live[tok := Settled(q)] - {tok} == c.live - {tok};
  }

  function Entombing(c: Scene, tok: Token, t: Record, now: Time): Scene {
    var q := Tasks.Buried(t, now);
    c.(dlq := c.dlq + [Option.Some(q)], live := c.live[tok := Settled(q)])
  }

  lemma EntombIt(s: System, c: Scene, tok: Token, t: Record, now: Time) returns (events: seq<Event>, s': System)
    requires Depicts(s, c) && Holds(c, tok, FailStored(t))
    ensures Leads(s, events, s') && Depicts(s', Entombing(c, tok, t, now)) && Same(s, s')
  {
    var q := Tasks.Buried(t, now);
    var e, f := Worker(tok, Entomb(now)), Worker(tok, IndexDead);
    var s1 := s.Hold(s.db.DlqAppend(q), tok, Entombed(q));
    s' := s1.Hold(s1.db.DlqIndex(q.id), tok, Settled(q));
    F.TwoSteps(s, e, f, s1, s');
    assert c.live[tok := Entombed(q)][tok := Settled(q)] == c.live[tok := Settled(q)];
    events := [e, f];
  }

  /** The last attempt. */
  function Failing(c: Scene, now: Time): Scene {
    FinalSaved(Taken(c, now), Msg(c.p, c.st.next), Started(c.record, "", now), now)
  }

  function FailedForGood(c: Scene, now: Time): Scene {
    Buried(Failing(c, now), Msg(c.p, c.st.next), Errored(Started(c.record, "", now), "", now), now)
  }

  lemma FailForGood(s: System, c: Scene, now: Time) returns (events: seq<Event>, s': System)
    requires Depicts(s, c) && c.st.next < |c.st.log| && c.st.log[c.st.next] == c.id
    requires c.record.state.Pending? && c.record.attempts + 1 >= c.record.maxRetries
    ensures Leads(s, events, s') && Depicts(s', FailedForGood(c, now)) && Same(s, s')
  {
    var tok, t := Msg(c.p, c.st.next), Started(c.record, "", now);
    var a, s1 := TakeIt(s, c, now);
    var b, s2 := SaveFinal(s1, Taken(c, now), tok, t, now);
    var d;
    d, s' := BuryIt(s2, Failing(c, now), tok, Errored(t, "", now), now);
    F.Joined(s, a, s1, b, s2);
    F.Joined(s, a + b, s2, d, s');
    events := a + b + d;
  }

  /** Submitted, failed, activated again, failed for good. */
  function Exhausted(r: Record, now: Time): Scene {
    FailedForGood(Due(FailedNext(Enqueued(r), now, 0), now), now)
  }

  lemma ExhaustedScene(r: Record, now: Time)
    requires IsNew(r) && r.state.Pending? && r.maxRetries == 2
    ensures var c := FailedNext(Enqueued(r), now, 0);
            c.record.state.IsDeferred() && c.entry == Option.Some(UnixSeconds(now))
    ensures var c := Due(FailedNext(Enqueued(r), now, 0), now);
            && c.id == r.id && c.p == r.priority && c.st.log == [r.id, r.id] && c.st.next == 1
            && c.record.state.Pending? && c.record.attempts == 1 && c.record.maxRetries == 2
    ensures Resting(Exhausted(r, now), r)
  {
    RetryBranchAlwaysSchedules(Started(r, "", now), "", now, 0);
  }

  /** Both messages acknowledged, and one dead-letter entry. */
  predicate Shelved(c: Scene, r: Record) {
    && c.id == r.id && c.p == r.priority && c.live == map[] && !c.canceled && r.maxRetries == 2
    && c.st.log == [r.id, r.id] && c.st.next == 2 && c.st.pel == map[] && c.st.acked == {0, 1}
    && |c.dlq| == 1 && c.dlq[0].Some? && SameTask(c.dlq[0].value, r) && c.dlq[0].value.state.DeadLetter?
  }

  predicate Resting(c: Scene, r: Record) {
    Shelved(c, r) && c.requests == map[] && c.record.state.Failed? && SameTask(c.record, r)
  }

  lemma ExhaustIt(retention: bool, minIdle: Time, r: Record, now: Time) returns (events: seq<Event>, s: System)
    requires IsNew(r) && r.state.Pending? && r.maxRetries == 2
    ensures Leads(Start(retention, minIdle), events, s)
    ensures Depicts(s, Exhausted(r, now)) && Resting(Exhausted(r, now), r)
  {
    var start, c0 := Start(retention, minIdle), Enqueued(r);
    var c1 := FailedNext(c0, now, 0);
    ExhaustedScene(r, now);
    var a, s0 := Submitted(retention, minIdle, r);
    var b, s1 := FailNext(s0, c0, now, 0);
    var d, s2 := ActivateIt(s1, c1, now);
    var e;
    e, s := FailForGood(s2, Due(c1, now), now);
    F.Joined(start, a, s0, b, s1);
    F.Joined(start, a + b, s1, d, s2);
    F.Joined(start, a + b + d, s2, e, s);
    events := a + b + d + e;
  }

  // ---------------------------------------------------------------------------
  // The faster retry, through the dead-letter queue, and what becomes of it.
  // ---------------------------------------------------------------------------

  /** The first entry can be retried. */
  predicate Retriable(c: Scene) {
    && |c.dlq| == 1 && c.dlq[0].Some? && c.dlq[0].value.id == c.id && c.dlq[0].value.priority == c.p
    && c.dlq[0].value.state.DeadLetter?
  }

  function Restoring(c: Scene, t: Record): Scene {
    c.(st := c.st.Add(c.id), record := t, live := c.live[Dead(0) := Reappended(t)], starts := 0, recoveries := 0)
  }

  lemma PickIt(s: System, c: Scene, now: Time)
    requires Depicts(s, c) && Retriable(c) && Dead(0) !in c.live
    ensures var e, t := DlqRetry(Dead(0), Pick(now)), Requeued(c.dlq[0].value, now);
            && Enabled(s, e) && Next(s, e) == s.Hold(s.db, Dead(0), Picked(t))
            && Depicts(Next(s, e), c.(live := c.live[Dead(0) := Picked(t)])) && Same(s, Next(s, e))
            && t.id == c.id && t.priority == c.p && t.state.Pending?
  {
  }

  lemma RestoreSteps(s: System, t: Record) returns (s1: System, s': System)
    requires Dead(0) in s.live && s.live[Dead(0)] == Picked(t)
    ensures var e, f := DlqRetry(Dead(0), Restore), DlqRetry(Dead(0), Reappend);
            && Enabled(s, e) && Next(s, e) == s1 && Enabled(s1, f) && Next(s1, f) == s'
    ensures s' == s.(db := s.db.Enqueued(t), live := s.live[Dead(0) := Restored(t)][Dead(0) := Reappended(t)],
                     starts := s.starts[t.id := 0], recoveries := s.recoveries[t.id := 0])
  {
    s1 := s.Hold(s.db.Save(t, false), Dead(0), Restored(t))
      .(starts := s.starts[t.id := 0], recoveries := s.recoveries[t.id := 0]);
    s' := s1.Hold(s1.db.Append(t.priority, t.id), Dead(0), Reappended(t));
  }

  lemma RestoredDepicts(s: System, c: Scene, t: Record, s': System)
    requires Depicts(s, c) && t.id == c.id && t.priority == c.p
    requires s' == s.(db := s.db.Enqueued(t), live := s.live[Dead(0) := Restored(t)][Dead(0) := Reappended(t)],
                      starts := s.starts[t.id := 0], recoveries := s.recoveries[t.id := 0])
    ensures Depicts(s', Restoring(c, t))
  {
    assert c.live[Dead(0) := Restored(t)][Dead(0) := Reappended(t)] == c.live[Dead(0) := Reappended(t)];
  }

  lemma RestorePicked(s: System, c: Scene, t: Record) returns (events: seq<Event>, s': System)
    requires Depicts(s, c) && Dead(0) in c.live && c.live[Dead(0)] == Picked(t) && t.id == c.id && t.priority == c.p
    ensures Leads(s, events, s') && Depicts(s', Restoring(c, t)) && Same(s, s')
  {
    var e, f := DlqRetry(Dead(0), Restore), DlqRetry(Dead(0), Reappend);
    var s1;
    s1, s' := RestoreSteps(s, t);
    F.TwoSteps(s, e, f, s1, s');
    RestoredDepicts(s, c, t, s');
    events := [e, f];
  }

  lemma RestoreIt(s: System, c: Scene, now: Time) returns (events: seq<Event>, s': System)
    requires Depicts(s, c) && Retriable(c) && Dead(0) !in c.live
    ensures var t := Requeued(c.dlq[0].value, now);
            Leads(s, events, s') && Depicts(s', Restoring(c, t)) && Same(s, s')
  {
    var e, t := DlqRetry(Dead(0), Pick(now)), Requeued(c.dlq[0].value, now);
    PickIt(s, c, now);
    RestoringScene(c, t);
    var s1 := Next(s, e);
    var rest;
    rest, s' := RestorePicked(s1, c.(live := c.live[Dead(0) := Picked(t)]), t);
    OneMore(s, e, rest, s1, s');
    events := [e] + rest;
  }

  lemma RestoringScene(c: Scene, t: Record)
    ensures Restoring(c.(live := c.live[Dead(0) := Picked(t)]), t) == Restoring(c, t)
  {
    assert c.live[Dead(0) := Picked(t)][Dead(0) := Reappended(t)] == c.live[Dead(0) := Reappended(t)];
  }

  /** The first entry is retried, start to finish. */
  function EntryRetried(c: Scene, now: Time): Scene
    requires |c.dlq| == 1 && c.dlq[0].Some?
  {
    c.(st := c.st.Add(c.id), record := Requeued(c.dlq[0].value, now), dlq := [Option.None], starts := 0,
       recoveries := 0)
  }

  lemma RetryEntryIt(s: System, c: Scene, now: Time) returns (events: seq<Event>, s': System)
    requires Depicts(s, c) && Retriable(c) && Dead(0) !in c.live
    ensures Leads(s, events, s') && Depicts(s', EntryRetried(c, now)) && Same(s, s')
  {
    var t := Requeued(c.dlq[0].value, now);
    RestoredScene(c, t, now);
    var a, s1 := RestoreIt(s, c, now);
    var b;
    b, s' := RemoveIt(s1, Restoring(c, t), t);
    F.Joined(s, a, s1, b, s');
    events := a + b;
  }

  lemma RestoredScene(c: Scene, t: Record, now: Time)
    requires Retriable(c) && Dead(0) !in c.live && t == Requeued(c.dlq[0].value, now)
    ensures var c1 := Restoring(c, t);
            c1.(dlq := [Option.None], live := c1.live - {Dead(0)}) == EntryRetried(c, now)
  {
    assert c.live[Dead(0) := Reappended(t)] - {Dead(0)} == c.live;
  }

  lemma RemoveIt(s: System, c: Scene, t: Record) returns (events: seq<Event>, s': System)
    requires Depicts(s, c) && |c.dlq| == 1 && Dead(0) in c.live && c.live[Dead(0)] == Reappended(t)
    ensures Leads(s, events, s') && Same(s, s')
    ensures Depicts(s', c.(dlq := [Option.None], live := c.live - {Dead(0)}))
  {
    var e, f := DlqRetry(Dead(0), RemoveDead), DlqRetry(Dead(0), UnindexDead);
    var s1 := s.Hold(s.db.DlqDelete(0), Dead(0), Removed(t));
    s' := s1.Release(s1.db.DlqUnindex(t.id), Dead(0));
    F.TwoSteps(s, e, f, s1, s');
    assert c.live[Dead(0) := Removed(t)] - {Dead(0)} == c.live - {Dead(0)};
    events := [e, f];
  }

  /** The task is retried, and the first attempt fails: it waits for its retry. */
  function Overtaken(c: Scene, now: Time): Scene
    requires |c.dlq| == 1 && c.dlq[0].Some?
  {
    FailedNext(EntryRetried(c, now), now, 0)
  }

  lemma OvertakenScene(c: Scene, r: Record, now: Time)
    requires Shelved(c, r)
    ensures Retriable(c)
    ensures var c1 := EntryRetried(c, now);
            && c1.id == c.id && c1.st.next < |c1.st.log| && c1.st.log[c1.st.next] == c.id
            && c1.record.state.Pending? && c1.record.attempts == 0 && c1.record.maxRetries == 2
    ensures Requeued(c.dlq[0].value, now).id == c.id && Requeued(c.dlq[0].value, now).state.Pending?
    ensures var c2 := Overtaken(c, now);
            c2.id == r.id && c2.requests == c.requests && c2.live == map[] && W.Bare(c2) && c2.record.state.Retrying?
  {
  }

  lemma OvertakeIt(s: System, c: Scene, r: Record, now: Time) returns (events: seq<Event>, s': System)
    requires Depicts(s, c) && Shelved(c, r)
    ensures Leads(s, events, s') && Depicts(s', Overtaken(c, now)) && Same(s, s')
  {
    OvertakenScene(c, r, now);
    var a, s1 := RetryEntryIt(s, c, now);
    var b;
    b, s' := FailNext(s1, EntryRetried(c, now), now, 0);
    F.Joined(s, a, s1, b, s');
    events := a + b;
  }

  // ---------------------------------------------------------------------------
  // The slower retry.
  // ---------------------------------------------------------------------------

  /** An administrator has read the Failed record, and perhaps stored it as Pending once. */
  function Administered(c: Scene, stored: bool, now: Time): Scene {
    var t := Requeued(c.record, now);
    if stored then c.(requests := c.requests[0 := AdminStored(t)], record := t, starts := 0, recoveries := 0)
    else c.(requests := c.requests[0 := AdminLoaded(t)])
  }

  lemma AdministerIt(s: System, c: Scene, stored: bool, now: Time) returns (events: seq<Event>, s': System)
    requires Depicts(s, c) && 0 !in c.requests && c.record.state.Failed?
    ensures Leads(s, events, s') && Depicts(s', Administered(c, stored, now)) && Same(s, s')
  {
    var t, c1 := Requeued(c.record, now), Administered(c, false, now);
    var a, s1 := AdminReads(s, c, now);
    if stored {
      var b;
      b, s' := AdminStores(s1, c1, t);
      StoredTwiceScene(c, now);
      F.Joined(s, a, s1, b, s');
      events := a + b;
    } else {
      events, s' := a, s1;
    }
  }

  lemma StoredTwiceScene(c: Scene, now: Time)
    ensures var t, c1 := Requeued(c.record, now), Administered(c, false, now);
            c1.(requests := c1.requests[0 := AdminStored(t)], record := t, starts := 0, recoveries := 0)
            == Administered(c, true, now)
  {
    var t := Requeued(c.record, now);
    assert c.requests[0 := AdminLoaded(t)][0 := AdminStored(t)] == c.requests[0 := AdminStored(t)];
  }

  lemma AdminReads(s: System, c: Scene, now: Time) returns (events: seq<Event>, s': System)
    requires Depicts(s, c) && 0 !in c.requests && c.record.state.Failed?
    ensures Leads(s, events, s') && Depicts(s', Administered(c, false, now)) && Same(s, s')
  {
    var e := Api(0, AdminLoad(c.id, now));
    s' := Next(s, e);
    F.OneStep(s, e, s');
    events := [e];
  }

  lemma AdminStores(s: System, c: Scene, t: Record) returns (events: seq<Event>, s': System)
    requires Depicts(s, c) && 0 in c.requests && c.requests[0] == AdminLoaded(t) && !c.record.state.IsDeferred()
    requires t.id == c.id && t.priority == c.p && t.state.Pending?
    ensures Leads(s, events, s') && Same(s, s')
    ensures Depicts(s', c.(requests := c.requests[0 := AdminStored(t)], record := t, starts := 0, recoveries := 0))
  {
    var e := Api(0, AdminStore);
    s' := Next(s, e);
    F.OneStep(s, e, s');
    events := [e];
  }

  lemma AdministeredScene(r: Record, stored: bool, now: Time)
    requires IsNew(r) && r.state.Pending? && r.maxRetries == 2
    ensures var c := Administered(Exhausted(r, now), stored, now);
            && 0 in c.requests && (if stored then c.requests[0].AdminStored? else c.requests[0].AdminLoaded?)
            && c.requests[0].t.id == r.id && c.requests[0].t.state.Pending?
  {
    ExhaustedScene(r, now);
  }

  lemma OvertakenRuns(retention: bool, minIdle: Time, r: Record, stored: bool, now: Time)
    returns (events: seq<Event>, s: System)
    requires IsNew(r) && r.state.Pending? && r.maxRetries == 2
    ensures Leads(Start(retention, minIdle), events, s)
    ensures Shelved(Administered(Exhausted(r, now), stored, now), r)
    ensures Depicts(s, Overtaken(Administered(Exhausted(r, now), stored, now), now))
  {
    var start, c0 := Start(retention, minIdle), Exhausted(r, now);
    var c1 := Administered(c0, stored, now);
    var a, s0 := ExhaustIt(retention, minIdle, r, now);
    var b, s1 := AdministerIt(s0, c0, stored, now);
    var d;
    d, s := OvertakeIt(s1, c1, r, now);
    F.Joined(start, a, s0, b, s1);
    F.Joined(start, a + b, s1, d, s);
    events := a + b + d;
  }

  /** The administrator's first store, or the second one, comes after all that and takes the task out
      of the scheduler's reach: if the API server stops before it has appended its message, the task
      is lost. */
  lemma AdminRetryLoses(retention: bool, minIdle: Time, r: Record, stored: bool, now: Time)
    returns (events: seq<Event>, s: System)
    requires IsNew(r) && r.state.Pending? && r.maxRetries == 2
    ensures Leads(Start(retention, minIdle), events, s) && 0 in s.requests
    ensures if stored then s.requests[0].AdminStored? else s.requests[0].AdminLoaded?
    ensures var db := if stored then s.db.Save(s.requests[0].t, false) else s.db.Update(s.requests[0].t, retention);
            W.Lost(s, db, r.id) && !MayStorePending(s, r.id)
  {
    var c := Administered(Exhausted(r, now), stored, now);
    events, s := OvertakenRuns(retention, minIdle, r, stored, now);
    OvertakenScene(c, r, now);
    AdministeredScene(r, stored, now);
    LateStore(s, Overtaken(c, now), s.requests[0].t);
  }

  lemma LateStore(s: System, c: Scene, t: Record)
    requires Depicts(s, c) && W.Bare(c) && t.id == c.id && t.state.Pending? && c.record.state.Retrying?
    ensures W.Lost(s, s.db.Save(t, false), c.id) && !MayStorePending(s, c.id)
  {
    W.StaleStoreOf(s, c, t, false);
  }

  /** A second retry of the same entry, which has read it while the first one was at work, does the
      same. In the model it is the copy that it would store. */
  lemma DoubleRetryLoses(retention: bool, minIdle: Time, r: Record, now: Time)
    returns (first: seq<Event>, s: System, rest: seq<Event>, s': System)
    requires IsNew(r) && r.state.Pending? && r.maxRetries == 2
    ensures Leads(Start(retention, minIdle), first, s) && Enabled(s, DlqRetry(Dead(0), Pick(now)))
    ensures Leads(s, rest, s') && s.db.dlq[0].Some?
    ensures W.Lost(s', s'.db.Save(Requeued(s.db.dlq[0].value, now), false), r.id)
  {
    var c := Exhausted(r, now);
    first, s := ExhaustIt(retention, minIdle, r, now);
    OvertakenScene(c, r, now);
    rest, s' := OvertakeIt(s, c, r, now);
    LateStore(s', Overtaken(c, now), Requeued(c.dlq[0].value, now));
  }
}
