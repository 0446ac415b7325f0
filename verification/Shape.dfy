/** Structural invariants of the protocol: placement of messages, tokens, expiry. */
module Shape {
  import opened Tasks
  import opened Store
  import opened Protocol

  predicate HasTask(ph: Phase) {
    !ph.Fetched? && !ph.Missing? && !ph.Claimed?
  }

  predicate EntryPhase(ph: Phase) {
    ph.Picked? || ph.Restored? || ph.Reappended? || ph.Removed?
  }

  /** What the state of the in-memory copy must be in each phase. */
  predicate StateFits(ph: Phase) {
    match ph
    case Executing(t) => t.state == Running
    case RetryStored(t) => t.state == Retrying && t.scheduledAt.Some?
    case RetryStoredTwice(t) => t.state == Retrying && t.scheduledAt.Some?
    case FailStored(t) => t.state == Failed
    case Orphan(t) => t.state == Pending
    case OrphanStored(t) => t.state == Pending
    case Picked(t) => t.state == Pending
    case Restored(t) => t.state == Pending
    case _ => true
  }

  predicate Known(created: map<TaskId, Spec>, r: Record) {
    r.id in created && Matches(created[r.id], r)
  }

  /** Messages name submitted tasks and sit in the stream of the task's priority. */
  ghost predicate Messages(created: map<TaskId, Spec>, streams: Streams) {
    forall p: Priority, m | 0 <= m < |streams.Of(p).log| ::
      streams.Of(p).log[m] in created && created[streams.Of(p).log[m]].priority == p
  }

  ghost predicate Entries(created: map<TaskId, Spec>, dlq: seq<Option<Record>>) {
    forall d | 0 <= d < |dlq| && dlq[d].Some? :: Known(created, dlq[d].value) && dlq[d].value.state == DeadLetter
  }

  ghost predicate Records(created: map<TaskId, Spec>, records: map<TaskId, Record>) {
    forall id | id in records :: records[id].id == id && (id in created ==> Matches(created[id], records[id]))
  }

  ghost predicate Expiring(records: map<TaskId, Record>, expiring: set<TaskId>) {
    forall id | id in expiring :: id in records && records[id].state.IsFinal()
  }

  ghost predicate Scheduling(created: map<TaskId, Spec>, scheduled: map<TaskId, int>) {
    forall id | id in scheduled :: id in created
  }

  /** A holder's message is still pending, its dead-letter entry still there. */
  ghost predicate Holds(created: map<TaskId, Spec>, streams: Streams, dlq: seq<Option<Record>>, tok: Token, ph: Phase) {
    && StateFits(ph)
    && (HasTask(ph) ==> Known(created, ph.t))
    && match tok
       case Msg(p, m) =>
         && !EntryPhase(ph)
         && m in streams.Of(p).pel && m < |streams.Of(p).log|
         && (HasTask(ph) ==> ph.t.id == streams.Of(p).log[m])
       case Dead(d) =>
         && EntryPhase(ph)
         && d < |dlq|
         && (!ph.Removed? ==> dlq[d].Some? && dlq[d].value.id == ph.t.id)
  }

  ghost predicate Held(created: map<TaskId, Spec>, streams: Streams, dlq: seq<Option<Record>>,
                       live: map<Token, Phase>) {
    forall tok | tok in live :: Holds(created, streams, dlq, tok, live[tok])
  }

  ghost predicate InFlight(created: map<TaskId, Spec>, records: map<TaskId, Record>, expiring: set<TaskId>,
                           r: Request) {
    match r
    case Creating(t) => t.id !in created && t.id in records && records[t.id] == t && t.id !in expiring
    case Canceling(t) => Known(created, t) && t.state == Canceled
    case AdminLoaded(t) => Known(created, t) && t.state == Pending
    case AdminStored(t) => Known(created, t) && t.state == Pending
    case AdminStoredTwice(t) => Known(created, t)
  }

  ghost predicate Requests(created: map<TaskId, Spec>, records: map<TaskId, Record>, expiring: set<TaskId>,
                           requests: map<nat, Request>) {
    && (forall q | q in requests :: InFlight(created, records, expiring, requests[q]))
    && (forall q, r | q in requests && r in requests && q != r && requests[q].Creating? && requests[r].Creating? ::
          requests[q].t.id != requests[r].t.id)
  }

  ghost predicate Shaped(s: System) {
    && s.db.streams.Valid()
    && Messages(s.created, s.db.streams)
    && Entries(s.created, s.db.dlq)
    && Records(s.created, s.db.records)
    && Expiring(s.db.records, s.db.expiring)
    && Scheduling(s.created, s.db.scheduled)
    && Held(s.created, s.db.streams, s.db.dlq, s.live)
    && Requests(s.created, s.db.records, s.db.expiring, s.requests)
  }

  ghost predicate MayHold(s: System, tok: Token, ph: Phase) {
    Holds(s.created, s.db.streams, s.db.dlq, tok, ph)
  }

  lemma StartShaped(retention: bool, minIdle: Time)
    ensures Shaped(Start(retention, minIdle))
  {
  }

  // ---------------------------------------------------------------------------
  // One lemma per kind of effect.
  // ---------------------------------------------------------------------------

  lemma HoldShaped(s: System, tok: Token, ph: Phase)
    requires Shaped(s) && MayHold(s, tok, ph)
    ensures Shaped(s.Hold(s.db, tok, ph))
  {
  }

  lemma ReleaseShaped(s: System, tok: Token)
    requires Shaped(s)
    ensures Shaped(s.Release(s.db, tok))
  {
  }

  lemma ServeShaped(s: System, q: nat, r: Request)
    requires Shaped(s) && InFlight(s.created, s.db.records, s.db.expiring, r) && !r.Creating?
    ensures Shaped(s.Serve(s.db, q, r))
  {
  }

  lemma FinishShaped(s: System, q: nat)
    requires Shaped(s)
    ensures Shaped(s.Finish(s.db, q))
  {
  }

  lemma SaveShaped(s: System, r: Record, ttl: bool)
    requires Shaped(s) && Known(s.created, r)
    requires ttl ==> r.state.IsFinal()
    ensures Shaped(s.(db := s.db.Save(r, ttl)))
  {
  }

  lemma DeleteShaped(s: System, id: TaskId)
    requires Shaped(s) && id in s.db.expiring
    ensures Shaped(s.(db := s.db.Delete(id)))
  {
  }

  lemma AppendShaped(s: System, p: Priority, id: TaskId)
    requires Shaped(s) && id in s.created && s.created[id].priority == p
    ensures Shaped(s.(db := s.db.Append(p, id)))
  {
  }

  lemma AckShaped(s: System, p: Priority, m: MessageId)
    requires Shaped(s) && Msg(p, m) !in s.live
    ensures Shaped(s.(db := s.db.Ack(p, m)))
  {
  }

  lemma ClaimShaped(s: System, p: Priority, m: MessageId, consumer: string, now: Time)
    requires Shaped(s)
    ensures Shaped(s.(db := s.db.Claim(p, m, s.minIdle, consumer, now)))
  {
  }

  lemma ReadShaped(s: System, consumer: string, now: Time)
    requires Shaped(s)
    ensures Shaped(s.(db := s.db.ReadGroup(consumer, now)))
  {
  }

  lemma ScheduleShaped(s: System, id: TaskId, score: int)
    requires Shaped(s) && id in s.created
    ensures Shaped(s.(db := s.db.Schedule(id, score)))
    ensures Shaped(s.(db := s.db.Unschedule(id)))
    ensures Shaped(s.(db := s.db.DlqIndex(id)))
    ensures Shaped(s.(db := s.db.DlqUnindex(id)))
  {
  }

  lemma DlqAppendShaped(s: System, r: Record)
    requires Shaped(s) && Known(s.created, r) && r.state == DeadLetter
    ensures Shaped(s.(db := s.db.DlqAppend(r)))
  {
  }

  lemma DlqDeleteShaped(s: System, d: MessageId)
    requires Shaped(s) && (Dead(d) in s.live ==> s.live[Dead(d)].Removed?)
    ensures Shaped(s.(db := s.db.DlqDelete(d)))
  {
    var dlq' := s.db.DlqDelete(d).dlq;
    forall tok | tok in s.live ensures Holds(s.created, s.db.streams, dlq', tok, s.live[tok]) {
      assert Holds(s.created, s.db.streams, s.db.dlq, tok, s.live[tok]);
    }
  }

  lemma SubmitShaped(s: System, q: nat, t: Record)
    requires Shaped(s) && q !in s.requests && Unused(s, t.id)
    ensures Shaped(s.Serve(s.db.Save(t, false), q, Creating(t)))
  {
  }

  lemma AcceptedShaped(s: System, q: nat)
    requires Shaped(s) && q in s.requests && s.requests[q].Creating?
    ensures Shaped(Accepted(s.Finish(s.db, q), s.requests[q].t))
  {
  }

  /** The history counters play no part. */
  lemma HistoryShaped(s: System, s': System)
    requires Shaped(s)
    requires s'.db == s.db && s'.live == s.live && s'.requests == s.requests && s'.created == s.created
    ensures Shaped(s')
  {
  }

  lemma HoldNext(s: System, tok: Token, ph: Phase, s': System)
    requires Shaped(s.(db := s'.db)) && Holds(s.created, s'.db.streams, s'.db.dlq, tok, ph)
    requires s'.live == s.live[tok := ph] && s'.requests == s.requests && s'.created == s.created
    ensures Shaped(s')
  {
    HoldShaped(s.(db := s'.db), tok, ph);
    HistoryShaped(s.Hold(s'.db, tok, ph), s');
  }

  lemma AppendAndHold(s: System, r: Record, tok: Token, ph: Phase, s': System)
    requires Shaped(s) && Known(s.created, r) && MayHold(s, tok, ph)
    requires s'.db == s.db.Append(r.priority, r.id)
    requires s'.live == s.live[tok := ph] && s'.requests == s.requests && s'.created == s.created
    ensures Shaped(s')
  {
    AppendShaped(s, r.priority, r.id);
    HoldNext(s, tok, ph, s');
  }

  lemma SaveAndHold(s: System, r: Record, tok: Token, ph: Phase, s': System)
    requires Shaped(s) && tok in s.live && Known(s.created, r) && MayHold(s, tok, ph)
    requires s'.db == s.db.Update(r, s.retention) || (!r.state.IsFinal() && s'.db == s.db.Save(r, false))
    requires s'.live == s.live[tok := ph] && s'.requests == s.requests && s'.created == s.created
    ensures Shaped(s')
  {
    SaveShaped(s, r, r.state.IsFinal() && s.retention);
    HoldNext(s, tok, ph, s');
  }

  lemma KeepsDelivery(s: System, tok: Token, w: WorkerStep)
    requires Shaped(s) && WorkerEnabled(s, tok, w)
    requires w.Load? || w.AckMissing? || w.Begin? || w.Succeed? || w.Ack?
    ensures Shaped(WorkerNext(s, tok, w))
  {
    assert MayHold(s, tok, s.live[tok]);
    var ph, s' := s.live[tok], WorkerNext(s, tok, w);
    match w
    case Load => HoldShaped(s, tok, s'.live[tok]);
    case AckMissing =>
      ReleaseShaped(s, tok);
      AckShaped(s.Release(s.db, tok), tok.p, tok.m);
    case Begin(worker, now) =>
      if ph.t.state.CanTransitionTo(Running) {
        SaveAndHold(s, Started(ph.t, worker, now), tok, s'.live[tok], s');
      } else {
        ReleaseShaped(s, tok);
      }
    case Succeed(now) => SaveAndHold(s, Succeeded(ph.t, now), tok, s'.live[tok], s');
    case Ack =>
      ReleaseShaped(s, tok);
      AckShaped(s.Release(s.db, tok), ph.t.priority, tok.m);
  }

  lemma KeepsRetryPath(s: System, tok: Token, w: WorkerStep)
    requires Shaped(s) && WorkerEnabled(s, tok, w)
    requires w.FailRetry? || w.StoreAgain? || w.Reschedule?
    ensures Shaped(WorkerNext(s, tok, w))
  {
    assert MayHold(s, tok, s.live[tok]);
    var ph, s' := s.live[tok], WorkerNext(s, tok, w);
    match w
    case FailRetry(message, now, delay) =>
      RetryBranchAlwaysSchedules(ph.t, message, now, delay);
      SaveAndHold(s, FailedForRetry(ph.t, message, now, delay), tok, s'.live[tok], s');
    case StoreAgain => SaveAndHold(s, ph.t, tok, s'.live[tok], s');
    case Reschedule =>
      ScheduleShaped(s, ph.t.id, UnixSeconds(ph.t.scheduledAt.value));
      HoldNext(s, tok, s'.live[tok], s');
  }

  lemma KeepsFailFinal(s: System, tok: Token, message: string, now: Time)
    requires Shaped(s) && WorkerEnabled(s, tok, FailFinal(message, now))
    ensures Shaped(WorkerNext(s, tok, FailFinal(message, now)))
  {
    assert MayHold(s, tok, s.live[tok]);
    var t := Errored(s.live[tok].t, message, now);
    SaveAndHold(s, t, tok, FailStored(t), WorkerNext(s, tok, FailFinal(message, now)));
  }

  lemma KeepsEntomb(s: System, tok: Token, now: Time)
    requires Shaped(s) && WorkerEnabled(s, tok, Entomb(now))
    ensures Shaped(WorkerNext(s, tok, Entomb(now)))
  {
    assert MayHold(s, tok, s.live[tok]);
    var t, s' := Buried(s.live[tok].t, now), WorkerNext(s, tok, Entomb(now));
    DlqAppendShaped(s, t);
    HoldNext(s, tok, Entombed(t), s');
  }

  lemma KeepsIndexDead(s: System, tok: Token)
    requires Shaped(s) && WorkerEnabled(s, tok, IndexDead)
    ensures Shaped(WorkerNext(s, tok, IndexDead))
  {
    assert MayHold(s, tok, s.live[tok]);
    ScheduleShaped(s, s.live[tok].t.id, 0);
    HoldNext(s, tok, Settled(s.live[tok].t), WorkerNext(s, tok, IndexDead));
  }

  lemma KeepsWorker(s: System, tok: Token, w: WorkerStep)
    requires Shaped(s) && WorkerEnabled(s, tok, w)
    ensures Shaped(WorkerNext(s, tok, w))
  {
    match w
    case FailFinal(message, now) => KeepsFailFinal(s, tok, message, now);
    case Entomb(now) => KeepsEntomb(s, tok, now);
    case IndexDead => KeepsIndexDead(s, tok);
    case FailRetry(_, _, _) => KeepsRetryPath(s, tok, w);
    case StoreAgain => KeepsRetryPath(s, tok, w);
    case Reschedule => KeepsRetryPath(s, tok, w);
    case Load => KeepsDelivery(s, tok, w);
    case AckMissing => KeepsDelivery(s, tok, w);
    case Begin(_, _) => KeepsDelivery(s, tok, w);
    case Succeed(_) => KeepsDelivery(s, tok, w);
    case Ack => KeepsDelivery(s, tok, w);
  }

  lemma OrphanFits(s: System, tok: Token, now: Time)
    requires Shaped(s) && tok in s.live && tok.Msg? && s.live[tok].Claimed?
    requires tok.m < |s.db.streams.Of(tok.p).log| && s.db.streams.Of(tok.p).log[tok.m] in s.db.records
    ensures MayHold(s, tok, Orphan(Prepared(s.db.records[s.db.streams.Of(tok.p).log[tok.m]], now)))
  {
    assert MayHold(s, tok, s.live[tok]);
  }

  lemma KeepsLoadOrphan(s: System, tok: Token, now: Time)
    requires Shaped(s) && RecoveryEnabled(s, tok, LoadOrphan(now))
    ensures Shaped(RecoveryNext(s, tok, LoadOrphan(now)))
  {
    var id := s.db.streams.Of(tok.p).log[tok.m];
    if id in s.db.records {
      OrphanFits(s, tok, now);
      HoldShaped(s, tok, Orphan(Prepared(s.db.records[id], now)));
    } else {
      ReleaseShaped(s, tok);
    }
  }

  lemma KeepsStoreOrphan(s: System, tok: Token)
    requires Shaped(s) && RecoveryEnabled(s, tok, StoreOrphan)
    ensures Shaped(RecoveryNext(s, tok, StoreOrphan))
  {
    assert MayHold(s, tok, s.live[tok]);
    var t := s.live[tok].t;
    SaveAndHold(s, t, tok, OrphanStored(t), RecoveryNext(s, tok, StoreOrphan));
  }

  lemma KeepsRecovery(s: System, tok: Token, r: RecoveryStep)
    requires Shaped(s) && RecoveryEnabled(s, tok, r)
    ensures Shaped(RecoveryNext(s, tok, r))
  {
    match r
    case Claim(consumer, now) =>
      ClaimShaped(s, tok.p, tok.m, consumer, now);
      HoldNext(s, tok, Claimed, RecoveryNext(s, tok, r));
    case LoadOrphan(now) => KeepsLoadOrphan(s, tok, now);
    case StoreOrphan => KeepsStoreOrphan(s, tok);
    case AppendOrphan =>
      assert MayHold(s, tok, s.live[tok]);
      AppendAndHold(s, s.live[tok].t, tok, Settled(s.live[tok].t), RecoveryNext(s, tok, r));
  }

  lemma KeepsRestore(s: System, tok: Token)
    requires Shaped(s) && DlqEnabled(s, tok, Restore)
    ensures Shaped(DlqNext(s, tok, Restore))
  {
    assert MayHold(s, tok, s.live[tok]);
    SaveAndHold(s, s.live[tok].t, tok, Restored(s.live[tok].t), DlqNext(s, tok, Restore));
  }

  lemma KeepsDlq(s: System, tok: Token, d: DlqStep)
    requires Shaped(s) && DlqEnabled(s, tok, d)
    ensures Shaped(DlqNext(s, tok, d))
  {
    var s' := DlqNext(s, tok, d);
    if d.Pick? {
      HoldShaped(s, tok, s'.live[tok]);
    } else {
      assert MayHold(s, tok, s.live[tok]);
      var t := s.live[tok].t;
      match d
      case Restore => KeepsRestore(s, tok);
      case Reappend =>
        AppendAndHold(s, t, tok, s'.live[tok], s');
      case RemoveDead =>
        HoldShaped(s, tok, s'.live[tok]);
        DlqDeleteShaped(s.Hold(s.db, tok, s'.live[tok]), tok.d);
      case UnindexDead =>
        ReleaseShaped(s, tok);
        ScheduleShaped(s.Release(s.db, tok), t.id, 0);
    }
  }

  lemma KeepsApi(s: System, q: nat, a: ApiStep)
    requires Shaped(s) && ApiEnabled(s, q, a)
    ensures Shaped(ApiNext(s, q, a))
  {
    var s' := ApiNext(s, q, a);
    match a
    case Submit(t) => SubmitShaped(s, q, t);
    case SubmitAppend =>
      var t := s.requests[q].t;
      AcceptedShaped(s, q);
      AppendShaped(Accepted(s.Finish(s.db, q), t), t.priority, t.id);
    case SubmitSchedule =>
      var t := s.requests[q].t;
      AcceptedShaped(s, q);
      ScheduleShaped(Accepted(s.Finish(s.db, q), t), t.id, UnixSeconds(t.scheduledAt.value));
    case CancelLoad(id, now) => ServeShaped(s, q, s'.requests[q]);
    case Drop => FinishShaped(s, q);
    case CancelStore => KeepsRetryRequest(s, q, a);
    case AdminLoad(_, _) => ServeShaped(s, q, s'.requests[q]);
    case AdminStore => KeepsRetryRequest(s, q, a);
    case AdminStoreAgain => KeepsRetryRequest(s, q, a);
    case AdminAppend => KeepsRetryRequest(s, q, a);
  }

  lemma KeepsRetryRequest(s: System, q: nat, a: ApiStep)
    requires Shaped(s) && ApiEnabled(s, q, a)
    requires a.CancelStore? || a.AdminStore? || a.AdminStoreAgain? || a.AdminAppend?
    ensures Shaped(ApiNext(s, q, a))
  {
    assert InFlight(s.created, s.db.records, s.db.expiring, s.requests[q]);
    var t, s' := s.requests[q].t, ApiNext(s, q, a);
    match a
    case CancelStore =>
      SaveShaped(s, t, s.retention);
      FinishShaped(s.(db := s'.db), q);
      HistoryShaped(s.Finish(s'.db, q), s');
    case AdminStore =>
      SaveShaped(s, t, false);
      ServeShaped(s.(db := s'.db), q, s'.requests[q]);
      HistoryShaped(s.Serve(s'.db, q, s'.requests[q]), s');
    case AdminStoreAgain =>
      SaveShaped(s, t, false);
      ServeShaped(s.(db := s'.db), q, s'.requests[q]);
    case AdminAppend =>
      AppendShaped(s, t.priority, t.id);
      FinishShaped(s.(db := s'.db), q);
  }

  lemma ActivateShaped(s: System, id: TaskId, now: Time)
    requires Shaped(s) && id in s.created
    ensures Shaped(s.(db := Activated(s.db, id, s.retention, now)))
  {
    if id in s.db.records && s.db.records[id].state.IsDeferred() {
      var t := Moved(s.db.records[id], Pending, now);
      var s1 := s.(db := s.db.Save(t, false));
      SaveShaped(s, t, false);
      AppendShaped(s1, t.priority, t.id);
      ScheduleShaped(s1.(db := s1.db.Append(t.priority, t.id)), id, 0);
    } else {
      ScheduleShaped(s, id, 0);
    }
  }

  lemma ReadFits(s: System, consumer: string, now: Time)
    requires Shaped(s) && s.db.FirstReady().Some?
    ensures Shaped(Next(s, Read(consumer, now)))
  {
    var s' := Next(s, Read(consumer, now));
    var p := s.db.FirstReady().value;
    ReadShaped(s, consumer, now);
    HoldNext(s, Msg(p, s.db.streams.Of(p).next), Fetched, s');
  }

  /** Every step of every process keeps the shape. */
  lemma Keeps(s: System, e: Event)
    requires Shaped(s) && Enabled(s, e)
    ensures Shaped(Next(s, e))
  {
    match e
    case Read(consumer, now) => ReadFits(s, consumer, now);
    case Worker(tok, w) => KeepsWorker(s, tok, w);
    case Recovery(tok, r) => KeepsRecovery(s, tok, r);
    case DlqRetry(tok, d) => KeepsDlq(s, tok, d);
    case Crash(tok) => ReleaseShaped(s, tok);
    case Api(q, a) => KeepsApi(s, q, a);
    case Activate(id, now) => ActivateShaped(s, id, now);
    case Expire(id) => DeleteShaped(s, id);
  }

  // ---------------------------------------------------------------------------
  // Locality: a step touches the holder of its own token, or its own request, and nobody else.
  // ---------------------------------------------------------------------------

  ghost predicate OnlyHolder(s: System, s': System, tok: Token) {
    && s'.requests == s.requests && s'.created == s.created
    && forall x | x != tok :: (x in s'.live <==> x in s.live) && (x in s.live ==> s'.live[x] == s.live[x])
  }

  lemma WorkerLocal(s: System, tok: Token, w: WorkerStep)
    requires WorkerEnabled(s, tok, w)
    ensures OnlyHolder(s, WorkerNext(s, tok, w), tok)
  {
  }

  lemma RecoveryLocal(s: System, tok: Token, r: RecoveryStep)
    requires RecoveryEnabled(s, tok, r)
    ensures OnlyHolder(s, RecoveryNext(s, tok, r), tok)
  {
  }

  lemma DlqLocal(s: System, tok: Token, d: DlqStep)
    requires DlqEnabled(s, tok, d)
    ensures OnlyHolder(s, DlqNext(s, tok, d), tok)
  {
  }

  ghost predicate OnlyRequest(s: System, s': System, q: nat) {
    && s'.live == s.live && (forall x | x != q && x in s'.requests ::
         x in s.requests && s'.requests[x] == s.requests[x])
    && forall i | i in s.created ::
         i in s'.created && (s'.created[i] == s.created[i] || (q in s.requests && s.requests[q].t.id == i))
  }

  lemma ApiLocal(s: System, q: nat, a: ApiStep)
    requires ApiEnabled(s, q, a)
    ensures var s' := ApiNext(s, q, a);
            && OnlyRequest(s, s', q)
            && (q in s'.requests && s'.requests[q].Creating? ==> a.Submit? && s'.requests[q].t == a.t)
            && (q in s.requests && !s.requests[q].Creating? ==> s'.created == s.created)
            && (q !in s.requests ==> s'.created == s.created)
  {
  }

  /** Accepted once, accepted for ever, with the same priority and limit. */
  lemma CreatedStays(s: System, e: Event, id: TaskId)
    requires Shaped(s) && Enabled(s, e) && id in s.created
    ensures id in Next(s, e).created && Next(s, e).created[id] == s.created[id]
  {
    match e
    case Read(_, _) =>
    case Worker(tok, w) => WorkerLocal(s, tok, w);
    case Recovery(tok, r) => RecoveryLocal(s, tok, r);
    case DlqRetry(tok, d) => DlqLocal(s, tok, d);
    case Crash(_) =>
    case Api(q, a) =>
      assert q in s.requests ==> InFlight(s.created, s.db.records, s.db.expiring, s.requests[q]);
      ApiLocal(s, q, a);
    case Activate(_, _) =>
    case Expire(_) =>
  }
}
