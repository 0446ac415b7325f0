/** The calls of the worker pool, orphan recovery, the dead-letter queue and the API, left
    undisturbed, are runs of the command-by-command protocol: they write the same databases, one after
    the other in the same order, so that what is proved of all runs holds of the code's calls. */
module Refinement {
  import opened Tasks
  import opened Store
  import opened Protocol
  import opened Shape
  import B = Backoff
  import Q = Queue
  import D = Dlq
  import P = Pool
  import H = Handlers
  import C = Scheduler

  /** Only Redis and the history differ. */
  predicate Alike(s: System, s': System) {
    && s'.live == s.live && s'.requests == s.requests && s'.created == s.created
    && s'.retention == s.retention && s'.minIdle == s.minIdle
  }

  lemma TwoSteps(s: System, e: Event, f: Event, s1: System, s2: System)
    requires Enabled(s, e) && Next(s, e) == s1 && Enabled(s1, f) && Next(s1, f) == s2
    ensures Leads(s, [e, f], s2) && Databases(s, [e, f]) == Written(s, e, s1) + Written(s1, f, s2)
  {
    OneStep(s1, f, s2);
    OneMore(s, e, [f], s1, s2);
    assert [e] + [f] == [e, f];
  }

  lemma OneStep(s: System, e: Event, s1: System)
    requires Enabled(s, e) && Next(s, e) == s1
    ensures Leads(s, [e], s1) && Databases(s, [e]) == Written(s, e, s1)
  {
    OneMore(s, e, [], s1, s1);
    assert [e] + [] == [e];
  }

  lemma {:induction false} Joined(s: System, a: seq<Event>, s1: System, b: seq<Event>, s2: System)
    requires Leads(s, a, s1) && Leads(s1, b, s2)
    ensures Leads(s, a + b, s2) && Databases(s, a + b) == Databases(s, a) + Databases(s1, b)
    decreases |a|
  {
    if a == [] {
      assert a + b == b;
    } else {
      Joined(Next(s, a[0]), a[1..], s1, b, s2);
      assert (a + b)[1..] == a[1..] + b;
    }
  }

  lemma {:induction false} ShapedAfter(s: System, events: seq<Event>, s': System)
    requires Shaped(s) && Leads(s, events, s')
    ensures Shaped(s')
    decreases |events|
  {
    if events != [] {
      Keeps(s, events[0]);
      ShapedAfter(Next(s, events[0]), events[1..], s');
    }
  }

  // ---------------------------------------------------------------------------
  // The worker.
  // ---------------------------------------------------------------------------

  predicate Running(s: System, tok: Token) {
    && tok in s.live && tok.Msg? && tok.m < |s.db.streams.Of(tok.p).log|
    && s.live[tok].Executing? && s.live[tok].t.state.Running?
  }

  lemma SuccessRuns(s: System, tok: Token, now: Time) returns (events: seq<Event>, s': System)
    requires Running(s, tok)
    ensures Leads(s, events, s') && Alike(s.Release(s.db, tok), s')
    ensures s'.db == P.Finished(s.db, s.live[tok].t, tok.m, s.retention, now)
    ensures Databases(s, events) == P.FinishWrites(s.db, s.live[tok].t, tok.m, s.retention, now)
  {
    var e, f := Worker(tok, Succeed(now)), Worker(tok, Ack);
    var s1 := Next(s, e);
    s' := Next(s1, f);
    TwoSteps(s, e, f, s1, s');
    events := [e, f];
  }

  lemma RetryRuns(s: System, tok: Token, message: string, now: Time, delay: Time)
    returns (events: seq<Event>, s': System)
    requires Running(s, tok) && s.live[tok].t.CanRetry()
    ensures Leads(s, events, s') && Alike(s.Release(s.db, tok), s')
    ensures s'.db == P.FailedOnce(s.db, s.live[tok].t, tok.m, message, s.retention, now, delay)
    ensures Databases(s, events) == P.FailWrites(s.db, s.live[tok].t, tok.m, message, s.retention, now, delay)
  {
    var first, s2 := StoreRetryRuns(s, tok, message, now, delay);
    var rest;
    rest, s' := RescheduleRuns(s2, tok);
    Joined(s, first, s2, rest, s');
    RetryOutcome(s.db, s.live[tok].t, tok.m, message, s.retention, now, delay);
    HeldAndReleased(s, tok, s2.live[tok]);
    events := first + rest;
  }

  lemma RetryOutcome(db: Database, r: Record, m: MessageId, message: string, retention: bool, now: Time, delay: Time)
    requires r.state.Running? && r.CanRetry()
    ensures var t := FailedForRetry(r, message, now, delay);
            && t.scheduledAt.Some?
            && var db2 := db.Update(t, retention).Save(t, false);
               var db3 := db2.Schedule(t.id, UnixSeconds(t.scheduledAt.value));
               && P.FailedOnce(db, r, m, message, retention, now, delay) == db3.Ack(t.priority, m)
               && P.FailWrites(db, r, m, message, retention, now, delay)
                  == [db.Update(t, retention), db2, db3, db3.Ack(t.priority, m)]
  {
    RetryBranchAlwaysSchedules(r, message, now, delay);
  }

  lemma HeldAndReleased(s: System, tok: Token, ph: Phase)
    ensures s.live[tok := ph] - {tok} == s.live - {tok}
    ensures tok !in s.live ==> s.live[tok := ph] - {tok} == s.live
  {
  }

  lemma StoreRetryRuns(s: System, tok: Token, message: string, now: Time, delay: Time)
    returns (events: seq<Event>, s': System)
    requires Running(s, tok) && s.live[tok].t.CanRetry()
    ensures var t := FailedForRetry(s.live[tok].t, message, now, delay);
            && Leads(s, events, s') && t.scheduledAt.Some?
            && s' == s.Hold(s.db.Update(t, s.retention).Save(t, false), tok, RetryStoredTwice(t))
            && Databases(s, events) == [s.db.Update(t, s.retention), s'.db]
  {
    var t := FailedForRetry(s.live[tok].t, message, now, delay);
    RetryBranchAlwaysSchedules(s.live[tok].t, message, now, delay);
    var e, f := Worker(tok, FailRetry(message, now, delay)), Worker(tok, StoreAgain);
    var s1 := s.Hold(s.db.Update(t, s.retention), tok, RetryStored(t));
    assert Next(s, e) == s1;
    s' := Next(s1, f);
    assert s.live[tok := RetryStored(t)][tok := RetryStoredTwice(t)] == s.live[tok := RetryStoredTwice(t)];
    TwoSteps(s, e, f, s1, s');
    events := [e, f];
  }

  lemma RescheduleRuns(s: System, tok: Token) returns (events: seq<Event>, s': System)
    requires WorkerEnabled(s, tok, Reschedule)
    ensures Leads(s, events, s') && Alike(s.Release(s.db, tok), s')
    ensures var t := s.live[tok].t;
            var db1 := s.db.Schedule(t.id, UnixSeconds(t.scheduledAt.value));
            s'.db == db1.Ack(t.priority, tok.m) && Databases(s, events) == [db1, s'.db]
  {
    var e, f := Worker(tok, Reschedule), Worker(tok, Ack);
    var s1 := Next(s, e);
    s' := Next(s1, f);
    TwoSteps(s, e, f, s1, s');
    events := [e, f];
  }

  lemma ExhaustedRuns(s: System, tok: Token, message: string, now: Time, delay: Time)
    returns (events: seq<Event>, s': System)
    requires Running(s, tok) && !s.live[tok].t.CanRetry()
    ensures Leads(s, events, s') && Alike(s.Release(s.db, tok), s')
    ensures s'.db == P.FailedOnce(s.db, s.live[tok].t, tok.m, message, s.retention, now, delay)
    ensures Databases(s, events) == P.FailWrites(s.db, s.live[tok].t, tok.m, message, s.retention, now, delay)
  {
    var first, s2 := EntombRuns(s, tok, message, now);
    var rest;
    rest, s' := IndexRuns(s2, tok);
    Joined(s, first, s2, rest, s');
    ExhaustedOutcome(s.db, s.live[tok].t, tok.m, message, s.retention, now, delay);
    HeldAndReleased(s, tok, s2.live[tok]);
    events := first + rest;
  }

  lemma EntombRuns(s: System, tok: Token, message: string, now: Time) returns (events: seq<Event>, s': System)
    requires Running(s, tok) && !s.live[tok].t.CanRetry()
    ensures var e := Errored(s.live[tok].t, message, now);
            && Leads(s, events, s')
            && s' == s.Hold(s.db.Update(e, s.retention).DlqAppend(Buried(e, now)), tok, Entombed(Buried(e, now)))
            && Databases(s, events) == [s.db.Update(e, s.retention), s'.db]
  {
    var r := Errored(s.live[tok].t, message, now);
    var e, f := Worker(tok, FailFinal(message, now)), Worker(tok, Entomb(now));
    var s1 := s.Hold(s.db.Update(r, s.retention), tok, FailStored(r));
    assert Next(s, e) == s1;
    s' := Next(s1, f);
    assert s.live[tok := FailStored(r)][tok := Entombed(Buried(r, now))] == s.live[tok := Entombed(Buried(r, now))];
    TwoSteps(s, e, f, s1, s');
    events := [e, f];
  }

  lemma ExhaustedOutcome(db: Database, r: Record, m: MessageId, message: string, retention: bool, now: Time,
                         delay: Time)
    requires r.state.Running? && !r.CanRetry()
    ensures var e := Errored(r, message, now);
            var db1 := db.Update(e, retention);
            var db2 := db1.DlqAppend(Buried(e, now));
            && P.FailedOnce(db, r, m, message, retention, now, delay) == db2.DlqIndex(e.id).Ack(e.priority, m)
            && P.FailWrites(db, r, m, message, retention, now, delay)
               == [db1, db2, db2.DlqIndex(e.id), db2.DlqIndex(e.id).Ack(e.priority, m)]
  {
  }

  lemma IndexRuns(s: System, tok: Token) returns (events: seq<Event>, s': System)
    requires WorkerEnabled(s, tok, IndexDead)
    ensures Leads(s, events, s') && Alike(s.Release(s.db, tok), s')
    ensures var t := s.live[tok].t;
            var db1 := s.db.DlqIndex(t.id);
            s'.db == db1.Ack(t.priority, tok.m) && Databases(s, events) == [db1, s'.db]
  {
    var e, f := Worker(tok, IndexDead), Worker(tok, Ack);
    var s1 := Next(s, e);
    s' := Next(s1, f);
    TwoSteps(s, e, f, s1, s');
    events := [e, f];
  }

  lemma OutcomeRuns(s: System, tok: Token, outcome: P.Outcome, now: Time, delay: Time)
    returns (events: seq<Event>, s': System)
    requires Running(s, tok)
    ensures Leads(s, events, s') && Alike(s.Release(s.db, tok), s')
    ensures s'.db == match outcome
                     case Success => P.Finished(s.db, s.live[tok].t, tok.m, s.retention, now)
                     case Failure(message) => P.FailedOnce(s.db, s.live[tok].t, tok.m, message, s.retention, now, delay)
    ensures Databases(s, events) == match outcome
                                    case Success => P.FinishWrites(s.db, s.live[tok].t, tok.m, s.retention, now)
                                    case Failure(message) =>
                                      P.FailWrites(s.db, s.live[tok].t, tok.m, message, s.retention, now, delay)
  {
    match outcome
    case Success => events, s' := SuccessRuns(s, tok, now);
    case Failure(message) =>
      if s.live[tok].t.CanRetry() {
        events, s' := RetryRuns(s, tok, message, now, delay);
      } else {
        events, s' := ExhaustedRuns(s, tok, message, now, delay);
      }
  }

  lemma StartedRuns(s: System, tok: Token, worker: string, outcome: P.Outcome, policy: B.RetryPolicy, now: Time,
                    u: real)
    returns (events: seq<Event>, s': System)
    requires WorkerEnabled(s, tok, Begin(worker, now)) && s.live[tok].t.state.CanTransitionTo(State.Running)
    ensures Leads(s, events, s') && Alike(s.Release(s.db, tok), s')
    ensures s'.db == P.Worked(s.db, s.live[tok].t, tok.m, worker, outcome, policy, s.retention, now, u)
    ensures Databases(s, events)
      == P.WorkWrites(s.db, s.live[tok].t, tok.m, worker, outcome, policy, s.retention, now, u)
  {
    var e, t := Worker(tok, Begin(worker, now)), Started(s.live[tok].t, worker, now);
    BeginStep(s, tok, worker, now);
    var s1 := Next(s, e);
    var rest;
    rest, s' := OutcomeRuns(s1, tok, outcome, now, policy.Delay(t.attempts, u));
    HeldAndReleased(s, tok, Executing(t));
    OneMore(s, e, rest, s1, s');
    events := [e] + rest;
  }

  lemma LoadedRuns(s: System, tok: Token, worker: string, outcome: P.Outcome, policy: B.RetryPolicy, now: Time, u: real)
    returns (events: seq<Event>, s': System)
    requires WorkerEnabled(s, tok, Begin(worker, now))
    ensures Leads(s, events, s') && Alike(s.Release(s.db, tok), s')
    ensures s'.db == P.Worked(s.db, s.live[tok].t, tok.m, worker, outcome, policy, s.retention, now, u)
    ensures Databases(s, events)
      == P.WorkWrites(s.db, s.live[tok].t, tok.m, worker, outcome, policy, s.retention, now, u)
  {
    if s.live[tok].t.state.CanTransitionTo(State.Running) {
      events, s' := StartedRuns(s, tok, worker, outcome, policy, now, u);
    } else {
      var e := Worker(tok, Begin(worker, now));
      s' := s.Release(s.db, tok);
      assert Next(s, e) == s';
      OneStep(s, e, s');
      events := [e];
    }
  }

  lemma BeginStep(s: System, tok: Token, worker: string, now: Time)
    requires WorkerEnabled(s, tok, Begin(worker, now)) && s.live[tok].t.state.CanTransitionTo(State.Running)
    ensures var s1, t := Next(s, Worker(tok, Begin(worker, now))), Started(s.live[tok].t, worker, now);
            && s1.db == s.db.Update(t, s.retention) && Alike(s.Hold(s.db, tok, Executing(t)), s1) && Running(s1, tok)
  {
  }

  lemma ReadStep(s: System, worker: string, now: Time)
    requires Shaped(s) && s.db.FirstReady().Some?
    ensures var p := s.db.FirstReady().value;
            var tok, s1 := Msg(p, s.db.streams.Of(p).next), Next(s, Read(worker, now));
            && tok !in s.live && s1 == s.Hold(s.db.ReadGroup(worker, now), tok, Fetched)
            && WorkerEnabled(s1, tok, Load) && s1.db.streams.Of(p).log == s.db.streams.Of(p).log
  {
    var p := s.db.FirstReady().value;
    assert s.db.streams.Of(p).Valid();
    var tok := Msg(p, s.db.streams.Of(p).next);
    forall held | held in s.live ensures held != tok {
      assert MayHold(s, held, s.live[held]);
    }
  }

  /** processNextTask, with every command executed and nothing in between, is a run of the protocol
      that changes Redis as specified and leaves no message held. */
  lemma ProcessNextTaskRuns(s: System, worker: string, outcome: P.Outcome, policy: B.RetryPolicy, now: Time, u: real)
    returns (events: seq<Event>, s': System)
    requires Shaped(s) && s.db.FirstReady().Some?
    ensures Leads(s, events, s') && Alike(s, s')
    ensures s'.db == P.Processed(s.db, worker, outcome, policy, s.retention, now, u)
    ensures Databases(s, events) == P.ProcessWrites(s.db, worker, outcome, policy, s.retention, now, u)
  {
    var first, s2, tok := FetchRuns(s, worker, now);
    var rest;
    rest, s' := FetchedRuns(s, s2, tok, worker, outcome, policy, now, u);
    Joined(s, first, s2, rest, s');
    events := first + rest;
  }

  lemma FetchedRuns(s: System, s2: System, tok: Token, worker: string, outcome: P.Outcome, policy: B.RetryPolicy,
                    now: Time, u: real)
    returns (events: seq<Event>, s': System)
    requires Shaped(s) && s.db.FirstReady().Some? && tok !in s.live
    requires var p := s.db.FirstReady().value;
             var id := s.db.streams.Of(p).log[s.db.streams.Of(p).next];
             var ph := if id in s.db.records then Loaded(s.db.records[id]) else Missing;
             && tok == Msg(p, s.db.streams.Of(p).next) && s2 == s.Hold(s.db.ReadGroup(worker, now), tok, ph)
             && WorkerEnabled(s2, tok, if ph.Loaded? then Begin(worker, now) else AckMissing)
    ensures Leads(s2, events, s') && Alike(s, s')
    ensures s'.db == P.Processed(s.db, worker, outcome, policy, s.retention, now, u)
    ensures [s2.db] + Databases(s2, events) == P.ProcessWrites(s.db, worker, outcome, policy, s.retention, now, u)
  {
    HeldAndReleased(s, tok, s2.live[tok]);
    P.ProcessedIsWorked(s.db, worker, outcome, policy, s.retention, now, u);
    if s2.live[tok].Loaded? {
      events, s' := LoadedRuns(s2, tok, worker, outcome, policy, now, u);
    } else {
      events, s' := MissingRuns(s2, tok);
    }
  }

  lemma FetchRuns(s: System, worker: string, now: Time) returns (events: seq<Event>, s': System, tok: Token)
    requires Shaped(s) && s.db.FirstReady().Some?
    ensures var p := s.db.FirstReady().value;
            var id := s.db.streams.Of(p).log[s.db.streams.Of(p).next];
            var ph := if id in s.db.records then Loaded(s.db.records[id]) else Missing;
            && Leads(s, events, s') && tok == Msg(p, s.db.streams.Of(p).next) && tok !in s.live
            && s' == s.Hold(s.db.ReadGroup(worker, now), tok, ph)
            && WorkerEnabled(s', tok, if ph.Loaded? then Begin(worker, now) else AckMissing)
            && Databases(s, events) == [s.db.ReadGroup(worker, now)]
  {
    var p := s.db.FirstReady().value;
    tok := Msg(p, s.db.streams.Of(p).next);
    ReadStep(s, worker, now);
    var e, f := Read(worker, now), Worker(tok, Load);
    var s1 := s.Hold(s.db.ReadGroup(worker, now), tok, Fetched);
    LoadStep(s1, tok, worker, now);
    s' := Next(s1, f);
    TwoSteps(s, e, f, s1, s');
    HeldTwice(s, tok, Fetched, s'.live[tok]);
    events := [e, f];
  }

  lemma LoadStep(s: System, tok: Token, worker: string, now: Time)
    requires WorkerEnabled(s, tok, Load)
    ensures var id := s.db.streams.Of(tok.p).log[tok.m];
            && Next(s, Worker(tok, Load))
                 == s.Hold(s.db, tok, if id in s.db.records then Loaded(s.db.records[id]) else Missing)
            && WorkerEnabled(Next(s, Worker(tok, Load)), tok,
                 if id in s.db.records then Begin(worker, now) else AckMissing)
  {
  }

  lemma HeldTwice(s: System, tok: Token, ph: Phase, ph': Phase)
    requires tok !in s.live
    ensures s.live[tok := ph][tok := ph'] == s.live[tok := ph']
    ensures s.live[tok := ph'] - {tok} == s.live
  {
  }

  lemma MissingRuns(s: System, tok: Token) returns (events: seq<Event>, s': System)
    requires WorkerEnabled(s, tok, AckMissing)
    ensures Leads(s, events, s') && Alike(s.Release(s.db, tok), s') && s'.db == s.db.Ack(tok.p, tok.m)
    ensures Databases(s, events) == [s'.db]
  {
    var e := Worker(tok, AckMissing);
    s' := Next(s, e);
    OneStep(s, e, s');
    events := [e];
  }

  // ---------------------------------------------------------------------------
  // Recovery and dead-letter retry.
  // ---------------------------------------------------------------------------

  /** What recovery does to one message after claiming and reading it. */
  lemma RequeueRuns(s: System, tok: Token, o: Q.Orphan, now: Time) returns (events: seq<Event>, s': System)
    requires RecoveryEnabled(s, tok, StoreOrphan) && s.live[tok] == Orphan(Prepared(o.r, now))
    requires tok == Msg(o.stream, o.m)
    ensures Leads(s, events, s') && Alike(s.Release(s.db, tok), s')
    ensures s'.db == Q.RequeueOne(s.db, o, now) && Databases(s, events) == Q.RequeueWrites(s.db, o, now)
  {
    var first, s2 := ReappendRuns(s, tok);
    var e := Worker(tok, Ack);
    s' := Next(s2, e);
    OneStep(s2, e, s');
    HeldAndReleased(s, tok, s2.live[tok]);
    Joined(s, first, s2, [e], s');
    events := first + [e];
  }

  lemma ReappendRuns(s: System, tok: Token) returns (events: seq<Event>, s': System)
    requires RecoveryEnabled(s, tok, StoreOrphan)
    ensures var t := s.live[tok].t;
            var db1 := s.db.Save(t, false);
            && Leads(s, events, s') && WorkerEnabled(s', tok, Ack)
            && Alike(s.Hold(s.db, tok, Settled(t)), s')
            && s'.db == db1.Append(t.priority, t.id) && Databases(s, events) == [db1, s'.db]
  {
    var e, f := Recovery(tok, StoreOrphan), Recovery(tok, AppendOrphan);
    var s1 := Next(s, e);
    s' := Next(s1, f);
    TwoSteps(s, e, f, s1, s');
    events := [e, f];
  }

  lemma FirstFromIsFirstEntry(db: Database, id: TaskId)
    requires D.FirstFrom(db.dlq, id, 0).Some?
    ensures FirstEntry(db, D.FirstFrom(db.dlq, id, 0).value)
  {
    var d := D.FirstFrom(db.dlq, id, 0).value;
    forall i: nat | i < d && db.dlq[i].Some? ensures db.dlq[i].value.id != db.dlq[d].value.id {
      assert D.IsEntry(db.dlq, i);
    }
  }

  lemma RestoreRuns(s: System, tok: Token) returns (events: seq<Event>, s': System)
    requires DlqEnabled(s, tok, Restore)
    ensures Leads(s, events, s') && Alike(s.Hold(s.db, tok, Reappended(s.live[tok].t)), s')
    ensures s'.db == s.db.Enqueued(s.live[tok].t) && Databases(s, events) == Q.EnqueueWrites(s.db, s.live[tok].t)
  {
    var e, f := DlqRetry(tok, Restore), DlqRetry(tok, Reappend);
    var s1 := Next(s, e);
    s' := Next(s1, f);
    TwoSteps(s, e, f, s1, s');
    events := [e, f];
  }

  lemma RemoveRuns(s: System, tok: Token) returns (events: seq<Event>, s': System)
    requires DlqEnabled(s, tok, RemoveDead)
    ensures Leads(s, events, s') && Alike(s.Release(s.db, tok), s')
    ensures s'.db == D.RemovedEntry(s.db, s.live[tok].t.id, Option.Some(tok.d))
    ensures Databases(s, events) == D.RemoveWrites(s.db, s.live[tok].t.id, Option.Some(tok.d))
  {
    var e, f := DlqRetry(tok, RemoveDead), DlqRetry(tok, UnindexDead);
    var s1 := Next(s, e);
    s' := Next(s1, f);
    TwoSteps(s, e, f, s1, s');
    events := [e, f];
  }

  /** DLQ.Retry of an entry that no other request is retrying is a run of the protocol. */
  lemma DlqRetryRuns(s: System, id: TaskId, now: Time) returns (events: seq<Event>, s': System)
    requires D.Retryable(s.db, id) && Dead(D.FirstFrom(s.db.dlq, id, 0).value) !in s.live
    ensures Leads(s, events, s') && Alike(s, s')
    ensures s'.db == D.RetriedOne(s.db, id, now) && Databases(s, events) == D.RetryWrites(s.db, id, now)
  {
    var tok := Dead(D.FirstFrom(s.db.dlq, id, 0).value);
    RetriedIs(s.db, id, now);
    var first, s2 := PickAndRestoreRuns(s, tok, id, now);
    var rest;
    rest, s' := RemoveRuns(s2, tok);
    Joined(s, first, s2, rest, s');
    HeldTwice(s, tok, s2.live[tok], s2.live[tok]);
    events := first + rest;
  }

  lemma RetriedIs(db: Database, id: TaskId, now: Time)
    requires D.Retryable(db, id)
    ensures var d := D.FirstFrom(db.dlq, id, 0).value;
            var r := Requeued(db.dlq[d].value, now);
            && r.id == id
            && D.RetriedOne(db, id, now) == D.RemovedEntry(db.Enqueued(r), id, Option.Some(d))
            && D.RetryWrites(db, id, now) == Q.EnqueueWrites(db, r) + D.RemoveWrites(db.Enqueued(r), id, Option.Some(d))
  {
  }

  lemma PickAndRestoreRuns(s: System, tok: Token, id: TaskId, now: Time) returns (events: seq<Event>, s': System)
    requires D.Retryable(s.db, id) && tok == Dead(D.FirstFrom(s.db.dlq, id, 0).value) && tok !in s.live
    ensures var t := Requeued(s.db.dlq[tok.d].value, now);
            && Leads(s, events, s') && Alike(s.Hold(s.db, tok, Reappended(t)), s') && DlqEnabled(s', tok, RemoveDead)
            && s'.db == s.db.Enqueued(t) && Databases(s, events) == Q.EnqueueWrites(s.db, t)
  {
    FirstFromIsFirstEntry(s.db, id);
    var e, t := DlqRetry(tok, Pick(now)), Requeued(s.db.dlq[tok.d].value, now);
    var s1 := s.Hold(s.db, tok, Picked(t));
    assert Enabled(s, e) && Next(s, e) == s1;
    var rest;
    rest, s' := RestoreRuns(s1, tok);
    OneMore(s, e, rest, s1, s');
    HeldTwice(s, tok, Picked(t), Reappended(t));
    events := [e] + rest;
  }

  // ---------------------------------------------------------------------------
  // The API.
  // ---------------------------------------------------------------------------

  lemma EnqueueRuns(s: System, q: nat, t: Record) returns (events: seq<Event>, s': System)
    requires ApiEnabled(s, q, Submit(t)) && t.state.Pending?
    ensures Leads(s, events, s') && s'.live == s.live && s'.requests == s.requests
    ensures s'.db == s.db.Enqueued(t) && s'.created == s.created[t.id := Spec(t.priority, t.maxRetries)]
    ensures Databases(s, events) == Q.EnqueueWrites(s.db, t)
  {
    var e, f := Api(q, Submit(t)), Api(q, SubmitAppend);
    var s1 := s.Serve(s.db.Save(t, false), q, Creating(t));
    s' := Next(s1, f);
    TwoSteps(s, e, f, s1, s');
    events := [e, f];
  }

  lemma ScheduleRuns(s: System, q: nat, t: Record) returns (events: seq<Event>, s': System)
    requires ApiEnabled(s, q, Submit(t)) && t.state.Scheduled?
    ensures Leads(s, events, s') && s'.live == s.live && s'.requests == s.requests
    ensures s'.db == s.db.Save(t, false).Schedule(t.id, UnixSeconds(t.scheduledAt.value))
    ensures Databases(s, events) == C.ScheduleWrites(s.db, t, t.scheduledAt.value)
    ensures s'.created == s.created[t.id := Spec(t.priority, t.maxRetries)]
  {
    var e, f := Api(q, Submit(t)), Api(q, SubmitSchedule);
    var s1 := s.Serve(s.db.Save(t, false), q, Creating(t));
    s' := Next(s1, f);
    TwoSteps(s, e, f, s1, s');
    events := [e, f];
  }

  lemma CreateRuns(s: System, q: nat, r: Record, now: Time) returns (events: seq<Event>, s': System)
    requires q !in s.requests && Unused(s, r.id) && r.state.Pending? && r.attempts == 0 && r.maxRetries >= 1
    ensures Leads(s, events, s') && s'.live == s.live && s'.requests == s.requests
    ensures s'.db == H.Submitted(s.db, r, now) && s'.created == s.created[r.id := Spec(r.priority, r.maxRetries)]
    ensures Databases(s, events) == H.SubmitWrites(s.db, r, now)
  {
    if r.scheduledAt.Some? && r.scheduledAt.value > now {
      events, s' := ScheduleRuns(s, q, r.(state := State.Scheduled));
    } else {
      events, s' := EnqueueRuns(s, q, r);
    }
  }

  /** After a submission of a task due later there is no message of it, its record is Scheduled, and the
      scheduler can take it up from its time on and never a second or more before; any other task is
      Pending, with exactly one message, the last one on the stream of its priority, and no entry. */
  lemma SubmittedWaitsOrQueues(s: System, q: nat, r: Record, now: Time) returns (events: seq<Event>, s': System)
    requires Shaped(s) && q !in s.requests && Unused(s, r.id)
    requires r.state.Pending? && r.attempts == 0 && r.maxRetries >= 1
    ensures Leads(s, events, s') && r.id in s'.created && r.id in s'.db.records
    ensures r.scheduledAt.Some? && r.scheduledAt.value > now ==>
      && s'.db.records[r.id].state.Scheduled?
      && (forall p: Priority, m | 0 <= m < |s'.db.streams.Of(p).log| :: s'.db.streams.Of(p).log[m] != r.id)
      && (forall t: Time | Enabled(s', Activate(r.id, t)) :: t > r.scheduledAt.value - 1_000_000_000)
      && (forall t: Time | t >= r.scheduledAt.value :: Enabled(s', Activate(r.id, t)))
    ensures !(r.scheduledAt.Some? && r.scheduledAt.value > now) ==>
      && s'.db.records[r.id].state.Pending? && r.id !in s'.db.scheduled
      && forall p: Priority, m | 0 <= m < |s'.db.streams.Of(p).log| ::
           s'.db.streams.Of(p).log[m] == r.id <==> p == r.priority && m == |s.db.streams.Of(p).log|
  {
    events, s' := CreateRuns(s, q, r, now);
    H.SubmittedAccepted(s.db, r, now);
    NoTraceOf(s, r.id);
  }

  lemma NoTraceOf(s: System, id: TaskId)
    requires Shaped(s) && id !in s.created
    ensures id !in s.db.scheduled
    ensures forall p: Priority, m | 0 <= m < |s.db.streams.Of(p).log| :: s.db.streams.Of(p).log[m] != id
  {
  }

  lemma CancelRuns(s: System, q: nat, id: TaskId, now: Time) returns (events: seq<Event>, s': System)
    requires ApiEnabled(s, q, CancelLoad(id, now))
    ensures Leads(s, events, s') && Alike(s, s')
    ensures s'.db == s.db.Update(Moved(s.db.records[id], Canceled, now), s.retention)
    ensures s'.canceled == s.canceled + {s.db.records[id].id} && Databases(s, events) == [s'.db]
  {
    var e, f := Api(q, CancelLoad(id, now)), Api(q, CancelStore);
    var s1 := s.Serve(s.db, q, Canceling(Moved(s.db.records[id], Canceled, now)));
    assert Next(s, e) == s1;
    s' := Next(s1, f);
    TwoSteps(s, e, f, s1, s');
    events := [e, f];
  }

  lemma RetryTaskRuns(s: System, q: nat, id: TaskId, now: Time) returns (events: seq<Event>, s': System)
    requires Shaped(s) && ApiEnabled(s, q, AdminLoad(id, now))
    ensures Leads(s, events, s') && Alike(s, s')
    ensures var r := Requeued(s.db.records[id], now);
            var db1 := s.db.Update(r, s.retention);
            s'.db == db1.Enqueued(r) && Databases(s, events) == [db1] + Q.EnqueueWrites(db1, r)
  {
    var r := Requeued(s.db.records[id], now);
    var first, s2 := AdminStoreRuns(s, q, id, now);
    var rest;
    rest, s' := EnqueueAgainRuns(s2, q);
    Joined(s, first, s2, rest, s');
    Answered(s, q, AdminStored(r));
    events := first + rest;
  }

  lemma Answered(s: System, q: nat, r: Request)
    requires q !in s.requests
    ensures s.requests[q := r] - {q} == s.requests
  {
  }

  lemma AdminStoreRuns(s: System, q: nat, id: TaskId, now: Time) returns (events: seq<Event>, s': System)
    requires Shaped(s) && ApiEnabled(s, q, AdminLoad(id, now))
    ensures var r := Requeued(s.db.records[id], now);
            && Leads(s, events, s') && Alike(s.Serve(s.db, q, AdminStored(r)), s') && ApiEnabled(s', q, AdminStoreAgain)
            && s'.db == s.db.Update(r, s.retention) && Databases(s, events) == [s'.db]
  {
    var r := Requeued(s.db.records[id], now);
    var e, f := Api(q, AdminLoad(id, now)), Api(q, AdminStore);
    AdminRetrySteps(s, q, id, now);
    var s1 := s.Serve(s.db, q, AdminLoaded(r));
    s' := Next(s1, f);
    TwoSteps(s, e, f, s1, s');
    events := [e, f];
  }

  lemma AdminRetrySteps(s: System, q: nat, id: TaskId, now: Time)
    requires Shaped(s) && ApiEnabled(s, q, AdminLoad(id, now))
    ensures var r := Requeued(s.db.records[id], now);
            var s1 := s.Serve(s.db, q, AdminLoaded(r));
            && ApiNext(s, q, AdminLoad(id, now)) == s1 && ApiEnabled(s1, q, AdminStore)
            && var s2 := ApiNext(s1, q, AdminStore);
               && s2.db == s.db.Update(r, s.retention) && Alike(s.Serve(s.db, q, AdminStored(r)), s2)
               && ApiEnabled(s2, q, AdminStoreAgain)
  {
    var r := Requeued(s.db.records[id], now);
    assert s.requests[q := AdminLoaded(r)][q := AdminStored(r)] == s.requests[q := AdminStored(r)];
  }

  lemma EnqueueAgainRuns(s: System, q: nat) returns (events: seq<Event>, s': System)
    requires ApiEnabled(s, q, AdminStoreAgain)
    ensures Leads(s, events, s') && Alike(s.Finish(s.db, q), s') && s'.db == s.db.Enqueued(s.requests[q].t)
    ensures Databases(s, events) == Q.EnqueueWrites(s.db, s.requests[q].t)
  {
    var e, f := Api(q, AdminStoreAgain), Api(q, AdminAppend);
    var s1 := s.Serve(s.db.Save(s.requests[q].t, false), q, AdminStoredTwice(s.requests[q].t));
    assert Next(s, e) == s1;
    s' := Next(s1, f);
    TwoSteps(s, e, f, s1, s');
    events := [e, f];
  }
}
