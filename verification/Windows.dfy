/** What the hypotheses of the protocol model rule out: the points at which the code does lose a task
    or breaks its bounds. For each of them there is a run from the start of the system that ends in
    the loss, and the exact condition of the loss. */
module Windows {
  import opened Tasks
  import opened Store
  import opened Protocol
  import opened Shape
  import opened NoLoss
  import opened FailureCourse
  import opened Scenarios
  import D = Dlq
  import E = Execution
  import F = Refinement
  import S = Scheduler
  import Q = Queue
  import R = Recovery

  ghost predicate Carried(db: Database, id: TaskId) {
    Deferred(db, id) || exists c :: Backs(db, id, c)
  }

  /** The task was accepted and neither completed nor canceled, and nothing carries it. */
  ghost predicate Lost(s: System, db: Database, id: TaskId) {
    id in s.created && !Done(s, id) && !Carried(db, id)
  }

  // ---------------------------------------------------------------------------
  // Which carriers are left, whatever the database.
  // ---------------------------------------------------------------------------

  /** Some message of the task other than `except` is not acknowledged. */
  ghost predicate OtherMessage(streams: Streams, id: TaskId, except: Option<Token>) {
    exists p: Priority, m :: IsOpen(streams, p, m, id) && Option.Some(Msg(p, m)) != except
  }

  predicate IsOpen(streams: Streams, p: Priority, m: MessageId, id: TaskId) {
    streams.Of(p).Open(m) && streams.Of(p).log[m] == id
  }

  lemma CarriedByMessages(db: Database, id: TaskId)
    requires id in db.records && !Deferred(db, id)
    ensures Carried(db, id) <==> OtherMessage(db.streams, id, Option.None) || !NoEntry(db.dlq, id)
  {
    forall d ensures Backs(db, id, Dead(d)) <==> D.EntryOf(db.dlq, d, id) {
    }
    if !NoEntry(db.dlq, id) {
      var d :| D.EntryOf(db.dlq, d, id);
      assert Backs(db, id, Dead(d));
    }
    forall p: Priority, m: MessageId ensures Backs(db, id, Msg(p, m)) <==> IsOpen(db.streams, p, m, id) {
    }
  }

  lemma NotCarried(db: Database, id: TaskId)
    requires id !in db.records && NoEntry(db.dlq, id)
    ensures !Carried(db, id)
  {
    forall d ensures !Backs(db, id, Dead(d)) {
      assert !D.EntryOf(db.dlq, d, id);
    }
  }

  // ---------------------------------------------------------------------------
  // A scheduler that stops between storing Pending and appending the message.
  // ---------------------------------------------------------------------------

  /** The stop, and the next pass. */
  function Stopped(db: Database, id: TaskId, retention: bool, now: Time, later: Time): Database
    requires id in db.records
  {
    Activated(db.Update(Moved(db.records[id], Pending, now), retention), id, retention, later)
  }

  /** In whatever state, the stop loses a waiting task if and only if every message of it has been
      acknowledged, that is, unless the worker that rescheduled it has yet to acknowledge, and no
      dead-letter entry of it is left. */
  lemma SchedulerWindow(s: System, id: TaskId, now: Time, later: Time)
    requires Shaped(s) && id in s.created && Deferred(s.db, id) && !Done(s, id)
    ensures Lost(s, Stopped(s.db, id, s.retention, now, later), id) <==>
            !OtherMessage(s.db.streams, id, Option.None) && NoEntry(s.db.dlq, id)
  {
    assert s.db.records[id].id == id;
    CarriedByMessages(Stopped(s.db, id, s.retention, now, later), id);
  }

  /** A task submitted for later, and a stop when it is due. */
  lemma SchedulerWindowLoses(retention: bool, minIdle: Time, r: Record, now: Time, later: Time)
    returns (events: seq<Event>, s: System)
    requires IsNew(r) && r.state.Scheduled? && r.scheduledAt.Some? && r.scheduledAt.value <= now
    ensures Leads(Start(retention, minIdle), events, s) && Enabled(s, Activate(r.id, now))
    ensures r.id in s.db.records && Lost(s, Stopped(s.db, r.id, s.retention, now, later), r.id)
  {
    events, s := SubmittedLater(retention, minIdle, r);
    var db := Stopped(s.db, r.id, s.retention, now, later);
    CarriedByMessages(db, r.id);
  }

  // ---------------------------------------------------------------------------
  // Error replies.
  // ---------------------------------------------------------------------------

  /** A failed append or ZADD deletes the record; the messages of the task stop being carriers. */
  lemma FailedAppend(db: Database, r: Record)
    ensures var db' := db.Save(r, false).Delete(r.id);
            Carried(db', r.id) <==> !NoEntry(db.dlq, r.id)
  {
    var db' := db.Save(r, false).Delete(r.id);
    if NoEntry(db.dlq, r.id) {
      NotCarried(db', r.id);
    } else {
      var d :| D.EntryOf(db.dlq, d, r.id);
      assert Backs(db', r.id, Dead(d));
    }
  }

  /** So a worker whose ZADD fails always loses its task in an undisturbed run. */
  lemma FailedScheduling(s: System, id: TaskId, tok: Token, c: int)
    requires Shaped(s) && Course(s, id, Held(tok), c) && s.live[tok].RetryStored? && !Done(s, id)
    ensures Lost(s, s.db.Save(s.live[tok].t, false).Delete(id), id)
  {
    assert MayHold(s, tok, s.live[tok]);
    FailedAppend(s.db, s.live[tok].t);
  }

  /** A delivered message whose worker stops, and a recovery whose append fails. */
  lemma FailedAppendLoses(retention: bool, minIdle: Time, r: Record, now: Time) returns (events: seq<Event>, s: System)
    requires IsNew(r) && r.state.Pending?
    ensures Leads(Start(retention, minIdle), events, s)
    ensures RecoveryEnabled(s, Msg(r.priority, 0), AppendOrphan) && Lost(s, s.db.Delete(r.id), r.id)
  {
    var start, tok, later := Start(retention, minIdle), Msg(r.priority, 0), now + minIdle;
    var a, s1 := AbandonIt(retention, minIdle, r, now);
    var b, s2 := LoadOrphanIt(s1, Abandoned(r, now), 0, minIdle, later);
    var d;
    d, s := SaveOrphan(s2, OrphanLoaded(Abandoned(r, now), 0, minIdle, later), tok, Prepared(r, later));
    F.Joined(start, a, s1, b, s2);
    F.Joined(start, a + b, s2, d, s);
    events := a + b + d;
    NotCarried(s.db.Delete(r.id), r.id);
  }

  /** A dead-letter append that fails is acknowledged all the same. In an undisturbed run that loses
      the task, unless the record is there and another message of the task is not acknowledged yet. */
  lemma BareAcknowledge(s: System, id: TaskId, tok: Token, c: int)
    requires Shaped(s) && Course(s, id, Held(tok), c) && s.live[tok].FailStored? && !Done(s, id)
    ensures Lost(s, s.db.Ack(tok.p, tok.m), id) <==>
            id !in s.db.records || !OtherMessage(s.db.streams, id, Option.Some(tok))
  {
    assert MayHold(s, tok, s.live[tok]);
    var db' := s.db.Ack(tok.p, tok.m);
    if id in s.db.records {
      CarriedByMessages(db', id);
      forall p: Priority, m: MessageId
        ensures IsOpen(db'.streams, p, m, id) <==> IsOpen(s.db.streams, p, m, id) && Msg(p, m) != tok
      {
      }
    } else {
      NotCarried(db', id);
    }
  }

  /** The last attempt of a task, whose dead-letter append then fails. */
  lemma BareAcknowledgeLoses(retention: bool, minIdle: Time, r: Record, now: Time)
    returns (events: seq<Event>, s: System)
    requires IsNew(r) && r.state.Pending? && r.maxRetries == 1
    ensures Leads(Start(retention, minIdle), events, s)
    ensures Enabled(s, Worker(Msg(r.priority, 0), Entomb(now))) && Lost(s, s.db.Ack(r.priority, 0), r.id)
  {
    events, s := FinalFailure(retention, minIdle, r, now);
    AcknowledgedOnly(s, FinalSaved(Underway(r, now), Msg(r.priority, 0), Started(r, "", now), now));
  }

  /** The one message of the task is acknowledged. */
  lemma AcknowledgedOnly(s: System, c: Scene)
    requires Depicts(s, c) && |c.st.log| == 1 && 0 in c.st.pel && c.dlq == [] && !c.canceled && c.record.state.Failed?
    ensures Lost(s, s.db.Ack(c.p, 0), c.id)
  {
    CarriedByMessages(s.db.Ack(c.p, 0), c.id);
  }

  lemma FinalFailure(retention: bool, minIdle: Time, r: Record, now: Time) returns (events: seq<Event>, s: System)
    requires IsNew(r) && r.state.Pending? && r.maxRetries == 1
    ensures Leads(Start(retention, minIdle), events, s) && (retention ==> r.id in s.db.expiring)
    ensures Depicts(s, FinalSaved(Underway(r, now), Msg(r.priority, 0), Started(r, "", now), now))
  {
    var start := Start(retention, minIdle);
    var a, s1 := RunIt(retention, minIdle, r, now);
    var b;
    b, s := SaveFinal(s1, Underway(r, now), Msg(r.priority, 0), Started(r, "", now), now);
    F.Joined(start, a, s1, b, s);
    events := a + b;
  }

  // ---------------------------------------------------------------------------
  // Expiry.
  // ---------------------------------------------------------------------------

  /** Expiry of a record keeps the task exactly when a dead-letter entry holds a copy. */
  lemma ExpiredRecord(db: Database, id: TaskId)
    ensures Carried(db.Delete(id), id) <==> !NoEntry(db.dlq, id)
  {
    if NoEntry(db.dlq, id) {
      NotCarried(db.Delete(id), id);
    } else {
      var d :| D.EntryOf(db.dlq, d, id);
      assert Backs(db.Delete(id), id, Dead(d));
    }
  }

  /** A worker that stops between storing Failed and appending the dead-letter entry, for as long as
      records of final states are kept. */
  lemma ExpiredRecordLoses(minIdle: Time, r: Record, now: Time) returns (events: seq<Event>, s: System)
    requires IsNew(r) && r.state.Pending? && r.maxRetries == 1
    ensures Leads(Start(true, minIdle), events, s)
    ensures r.id in s.db.expiring && Lost(s, s.db.Delete(r.id), r.id)
  {
    events, s := FinalFailure(true, minIdle, r, now);
    ExpiredRecord(s.db, r.id);
  }

  // ---------------------------------------------------------------------------
  // A process that stores without holding a carrier any more.
  // ---------------------------------------------------------------------------

  /** In whatever state, storing a record that the scheduler does not activate over a task that is not
      lost yet loses it if and only if the task waits in the scheduled set, every message of it has been
      acknowledged, and no dead-letter entry of it is left. */
  lemma StaleStore(s: System, id: TaskId, r: Record, ttl: bool)
    requires id in s.created && NotLost(s, id) && !Done(s, id) && r.id == id && !r.state.IsDeferred()
    ensures Lost(s, s.db.Save(r, ttl), id) <==>
            Deferred(s.db, id) && !OtherMessage(s.db.streams, id, Option.None) && NoEntry(s.db.dlq, id)
  {
    CarriedByMessages(s.db.Save(r, ttl), id);
    if !Deferred(s.db, id) {
      var c :| Backs(s.db, id, c);
      assert Backs(s.db.Save(r, ttl), id, c);
    }
  }

  /** The message of a worker that is only slow is recovered as if the worker were gone. */
  lemma SlowScene(r: Record, minIdle: Time, now: Time, later: Time)
    requires r.state.Pending?
    ensures var c := Recovered(Abandoned(r, now), 0, minIdle, later);
            && c.id == r.id && c.p == r.priority && c.live == map[] && c.entry.None? && !c.canceled && c.dlq == []
            && c.st.log == [r.id, r.id] && c.st.next == 1 && c.st.acked == {0}
            && c.record.state.Pending? && c.record.attempts == r.attempts && c.record.maxRetries == r.maxRetries
            && c.record.id == r.id && c.record.priority == r.priority
  {
  }

  /** The task is then started and fails elsewhere, and waits for its retry. */
  lemma ElsewhereScene(c: Scene, now: Time, delay: Time)
    requires c.st.log == [c.id, c.id] && c.st.next == 1 && c.st.acked == {0} && c.live == map[]
    ensures var c' := FailedNext(c, now, delay);
            && c'.id == c.id && c'.p == c.p && c'.st.log == c.st.log && c'.st.acked == {0, 1}
            && c'.entry == Option.Some(UnixSeconds(now + delay)) && c'.canceled == c.canceled && c'.dlq == c.dlq
            && (!c.canceled && c.dlq == [] ==> Bare(c'))
  {
  }

  lemma SlowRuns(retention: bool, minIdle: Time, r: Record, now: Time, later: Time, delay: Time)
    returns (events: seq<Event>, s: System)
    requires IsNew(r) && r.state.Pending? && r.maxRetries >= 2 && later - now >= minIdle
    ensures Leads(Start(retention, minIdle), events, s)
    ensures Depicts(s, FailedNext(Recovered(Abandoned(r, now), 0, minIdle, later), later, delay))
  {
    var start, c0 := Start(retention, minIdle), Abandoned(r, now);
    var c := Recovered(c0, 0, minIdle, later);
    AbandonedScene(r, now);
    SlowScene(r, minIdle, now, later);
    var a, s1 := AbandonIt(retention, minIdle, r, now);
    var b, s2 := RecoverIt(s1, c0, 0, minIdle, later);
    var d;
    d, s := FailNext(s2, c, later, delay);
    F.Joined(start, a, s1, b, s2);
    F.Joined(start, a + b, s2, d, s);
    events := a + b + d;
  }

  /** And then the slow worker stores that it has started the task. */
  lemma StaleStoreLoses(retention: bool, minIdle: Time, r: Record, now: Time, later: Time, delay: Time)
    returns (events: seq<Event>, s: System)
    requires IsNew(r) && r.state.Pending? && r.maxRetries >= 2 && later - now >= minIdle
    ensures Leads(Start(retention, minIdle), events, s)
    ensures Lost(s, s.db.Update(Started(r, "", now), retention), r.id)
  {
    var c := Recovered(Abandoned(r, now), 0, minIdle, later);
    SlowScene(r, minIdle, now, later);
    ElsewhereScene(c, later, delay);
    events, s := SlowRuns(retention, minIdle, r, now, later, delay);
    StaleStoreOf(s, FailedNext(c, later, delay), Started(r, "", now), false);
  }

  /** Nothing but the scheduled entry carries the task. */
  predicate Bare(c: Scene) {
    && !c.canceled && (forall m | 0 <= m < |c.st.log| :: m in c.st.acked)
    && (forall d | 0 <= d < |c.dlq| :: c.dlq[d].None?)
  }

  lemma StaleStoreOf(s: System, c: Scene, r: Record, ttl: bool)
    requires Depicts(s, c) && Bare(c) && r.id == c.id && !r.state.IsDeferred()
    ensures Lost(s, s.db.Save(r, ttl), c.id)
  {
    CarriedByMessages(s.db.Save(r, ttl), c.id);
  }

  // ---------------------------------------------------------------------------
  // A scheduled entry that was left behind.
  // ---------------------------------------------------------------------------

  /** An entry left behind by a worker that crashed before its acknowledgement is used for a later
      retry: the task, whose record names the later time, is activated one second or more early. */
  lemma EarlyActivation(retention: bool, minIdle: Time, r: Record, now: Time, delay: Time, later: Time, longer: Time)
    returns (events: seq<Event>, s: System)
    requires IsNew(r) && r.state.Pending? && r.maxRetries >= 3
    requires later - now >= minIdle && UnixSeconds(now + delay) < UnixSeconds(later + longer)
    ensures Leads(Start(retention, minIdle), events, s)
    ensures Deferred(s.db, r.id) && s.db.records[r.id].scheduledAt == Option.Some(later + longer)
    ensures s.db.scheduled[r.id] == UnixSeconds(now + delay)
    ensures exists early: Time :: Enabled(s, Activate(r.id, early)) && early + SECOND <= later + longer
  {
    var start, c0 := Start(retention, minIdle), LeftPending(r, now, delay);
    var c1 := Recovered(c0, 0, minIdle, later);
    LeftPendingScene(r, now, delay);
    EarlyScene(r, now, delay, minIdle, later);
    var a, s1 := LeavePending(retention, minIdle, r, now, delay);
    var b, s2 := RecoverIt(s1, c0, 0, minIdle, later);
    var d;
    d, s := FailAgain(s2, c1, later, longer);
    F.Joined(start, a, s1, b, s2);
    F.Joined(start, a + b, s2, d, s);
    events := a + b + d;
    S.Punctual(s.db.scheduled, r.id, later + longer);
    var early: Time :| S.IsDue(s.db.scheduled, r.id, early) && early + SECOND <= later + longer;
    assert Enabled(s, Activate(r.id, early));
  }

  lemma LeftPendingScene(r: Record, now: Time, delay: Time)
    requires IsNew(r) && r.state.Pending? && r.maxRetries >= 2
    ensures var c := LeftPending(r, now, delay);
            && c.id == r.id && c.p == r.priority && c.st == Stream([r.id], 1, map[0 := Delivery("", now)], {})
                 && c.live == map[]
            && c.entry == Option.Some(UnixSeconds(now + delay)) && !c.canceled && c.starts == 1
                 && c.recoveries == 0 && c.max == r.maxRetries
            && c.record == FailedForRetry(Started(r, "", now), "", now, delay) && c.record.state.Retrying?
            && c.record.scheduledAt == Option.Some(now + delay) && c.record.attempts == 1 && SameTask(r, c.record)
  {
    RetryBranchAlwaysSchedules(Started(r, "", now), "", now, delay);
  }

  lemma EarlyScene(r: Record, now: Time, delay: Time, minIdle: Time, later: Time)
    requires IsNew(r) && r.state.Pending? && r.maxRetries >= 3 && later - now >= minIdle
    ensures var c := Recovered(LeftPending(r, now, delay), 0, minIdle, later);
            && c.id == r.id && c.p == r.priority && c.st.log == [r.id, r.id] && c.st.next == 1 && c.live == map[]
            && c.entry == Option.Some(UnixSeconds(now + delay)) && c.record.state.Pending? && c.record.attempts == 1
            && SameTask(r, c.record)
  {
    LeftPendingScene(r, now, delay);
  }

  lemma FailAgain(s: System, c: Scene, now: Time, delay: Time) returns (events: seq<Event>, s': System)
    requires Depicts(s, c) && c.st.next < |c.st.log| && c.st.log[c.st.next] == c.id && c.entry.Some?
    requires c.record.state.Pending? && c.record.attempts + 1 < c.record.maxRetries
    ensures Leads(s, events, s') && c.id in s'.db.records && s'.db.records[c.id].state.Retrying?
    ensures s'.db.records[c.id].scheduledAt == Option.Some(now + delay) && s'.db.scheduled == map[c.id := c.entry.value]
  {
    var tok, t := Msg(c.p, c.st.next), Started(c.record, "", now);
    var a, s1 := TakeIt(s, c, now);
    var b;
    b, s' := SaveRetry(s1, Taken(c, now), tok, t, now, delay);
    F.Joined(s, a, s1, b, s');
    RetryBranchAlwaysSchedules(t, "", now, delay);
    events := a + b;
  }

  // ---------------------------------------------------------------------------
  // A recovery that costs a carrier.
  // ---------------------------------------------------------------------------

  /** The message left behind by a worker that crashed before its acknowledgement, while the task waits
      in the scheduled set: of two carriers, recovering the message leaves one. */
  lemma RecoveryCostsACarrier(retention: bool, minIdle: Time, r: Record, now: Time, delay: Time, later: Time)
    returns (events: seq<Event>, s: System)
    requires IsNew(r) && r.state.Pending? && r.maxRetries >= 2 && later - now >= minIdle
    ensures Leads(Start(retention, minIdle), events, s) && Shaped(s)
    ensures Deferred(s.db, r.id) && !Deferred(R.Recovered(s.db, minIdle, "", later), r.id)
    ensures R.Carriers(R.Recovered(s.db, minIdle, "", later), r.id) == R.Carriers(s.db, r.id) - 1
  {
    LeftPendingScene(r, now, delay);
    events, s := LeavePending(retention, minIdle, r, now, delay);
    StartShaped(retention, minIdle);
    F.ShapedAfter(Start(retention, minIdle), events, s);
    LeftMessageListed(s.db.streams.Of(r.priority), r.id, now);
    assert s.db.Placed();
    R.ListedIsRecovered(s.db, minIdle, "", later, r.priority, 0);
    R.PassConservesTotal(s.db, minIdle, "", later, r.id);
  }

  lemma LeftMessageListed(st: Stream, id: TaskId, now: Time)
    requires st == Stream([id], 1, map[0 := Delivery("", now)], {})
    ensures 0 in Q.PendingIds(st, 0, Q.LISTING_SIZE)
  {
    Q.PendingIdsListed(st, 0, Q.LISTING_SIZE);
  }
}
