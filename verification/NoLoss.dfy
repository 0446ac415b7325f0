/** No submitted task is ever lost, whichever processes crash between any two Redis commands. */
module NoLoss {
  import opened Tasks
  import opened Store
  import opened Protocol
  import opened Shape

  // ---------------------------------------------------------------------------
  // The theorem speaks about carriers ...
  // ---------------------------------------------------------------------------

  ghost predicate NotLost(s: System, id: TaskId) {
    Done(s, id) || Deferred(s.db, id) || exists c :: Backs(s.db, id, c)
  }

  // ---------------------------------------------------------------------------
  // ... but a carrier about to be given up by its holder does not count for the induction, and
  // how much is needed depends on the stored record.
  // ---------------------------------------------------------------------------

  function Need(records: map<TaskId, Record>, id: TaskId): nat {
    if id !in records then 3 else if records[id].state.IsDeferred() then 1 else 2
  }

  predicate Carries(s: System, id: TaskId, c: Token) {
    Backs(s.db, id, c) && Strength(s.live, c) >= Need(s.db.records, id)
  }

  ghost predicate Safe(s: System, id: TaskId) {
    Done(s, id) || Deferred(s.db, id) || exists c :: Carries(s, id, c)
  }

  ghost predicate AllSafe(s: System) {
    forall id | id in s.created :: Safe(s, id)
  }

  lemma SafeIsNotLost(s: System, id: TaskId)
    requires Safe(s, id)
    ensures NotLost(s, id)
  {
    if !Done(s, id) && !Deferred(s.db, id) {
      var c :| Carries(s, id, c);
      assert Backs(s.db, id, c);
    }
  }

  // ---------------------------------------------------------------------------
  // One lemma per kind of effect.
  // ---------------------------------------------------------------------------

  /** Whatever does not weaken a task's carriers, nor raise what it needs, keeps it safe. */
  lemma Frame(s: System, s': System, id: TaskId)
    requires Safe(s, id)
    requires Done(s, id) ==> Done(s', id)
    requires Need(s'.db.records, id) <= Need(s.db.records, id)
    requires id in s.db.scheduled && Need(s.db.records, id) == 1 ==> id in s'.db.scheduled
    requires forall c | Backs(s.db, id, c) :: Backs(s'.db, id, c) && Strength(s'.live, c) >= Strength(s.live, c)
    ensures Safe(s', id)
  {
    if !Done(s, id) && !Deferred(s.db, id) {
      var c :| Carries(s, id, c);
      assert Carries(s', id, c);
    }
  }

  lemma HoldSafe(s: System, tok: Token, ph: Phase)
    requires AllSafe(s)
    requires Firmness(ph) >= Strength(s.live, tok)
          || (tok.Msg? && Firmness(ph) >= 2)
          || forall id | id in s.created && Backs(s.db, id, tok) :: Safe(s.Hold(s.db, tok, ph), id)
    ensures AllSafe(s.Hold(s.db, tok, ph))
  {
    var s' := s.Hold(s.db, tok, ph);
    forall id | id in s.created ensures Safe(s', id) {
      if Firmness(ph) >= Strength(s.live, tok) || !Backs(s.db, id, tok) {
        Frame(s, s', id);
      } else if tok.Msg? && Firmness(ph) >= 2 {
        assert Carries(s', id, tok);
      }
    }
  }

  lemma ReleaseSafe(s: System, tok: Token)
    requires AllSafe(s)
    ensures AllSafe(s.Release(s.db, tok))
  {
    forall id | id in s.created ensures Safe(s.Release(s.db, tok), id) {
      Frame(s, s.Release(s.db, tok), id);
    }
  }

  /** Requests and counters carry nothing; history only grows. */
  lemma OthersSafe(s: System, s': System)
    requires AllSafe(s)
    requires s'.db == s.db && s'.live == s.live && s'.created == s.created
    requires s.completed <= s'.completed && s.canceled <= s'.canceled
    ensures AllSafe(s')
  {
    forall id | id in s'.created ensures Safe(s', id) {
      Frame(s, s', id);
    }
  }

  /** Storing a record is safe for its task if a carrier strong enough for the new state stands by. */
  lemma SaveSafe(s: System, r: Record, ttl: bool, c: Token)
    requires AllSafe(s)
    requires var s' := s.(db := s.db.Save(r, ttl)); r.id !in s.created || Done(s', r.id) || Carries(s', r.id, c)
    ensures AllSafe(s.(db := s.db.Save(r, ttl)))
  {
    var s' := s.(db := s.db.Save(r, ttl));
    forall id | id in s.created ensures Safe(s', id) {
      if id != r.id {
        Frame(s, s', id);
      }
    }
  }

  lemma DeleteSafe(s: System, id: TaskId)
    requires AllSafe(s) && ExpiryAllowed(s, id)
    ensures AllSafe(s.(db := s.db.Delete(id)))
  {
    var s' := s.(db := s.db.Delete(id));
    forall i | i in s.created ensures Safe(s', i) {
      if i != id {
        Frame(s, s', i);
      } else if !Done(s, id) {
        var d :| Backs(s.db, id, Dead(d)) && Strength(s.live, Dead(d)) == 3;
        assert Carries(s', id, Dead(d));
      }
    }
  }

  lemma AppendSafe(s: System, p: Priority, id: TaskId)
    requires AllSafe(s) && s.db.streams.Valid()
    ensures AllSafe(s.(db := s.db.Append(p, id)))
  {
    forall i | i in s.created ensures Safe(s.(db := s.db.Append(p, id)), i) {
      Frame(s, s.(db := s.db.Append(p, id)), i);
    }
  }

  lemma AckSafe(s: System, p: Priority, m: MessageId)
    requires AllSafe(s) && Strength(s.live, Msg(p, m)) == 0
    ensures AllSafe(s.(db := s.db.Ack(p, m)))
  {
    var s' := s.(db := s.db.Ack(p, m));
    forall id | id in s.created ensures Safe(s', id) {
      if !Done(s, id) && !Deferred(s.db, id) {
        var c :| Carries(s, id, c);
        assert Carries(s', id, c);
      }
    }
  }

  /** Deliveries and claims change neither the messages nor the acknowledgements. */
  lemma StreamsSafe(s: System, db': Database)
    requires AllSafe(s) && db' == s.db.(streams := db'.streams)
    requires forall p: Priority ::
      db'.streams.Of(p).log == s.db.streams.Of(p).log && db'.streams.Of(p).acked == s.db.streams.Of(p).acked
    ensures AllSafe(s.(db := db'))
  {
    forall id | id in s.created ensures Safe(s.(db := db'), id) {
      Frame(s, s.(db := db'), id);
    }
  }

  lemma ScheduleSafe(s: System, id: TaskId, score: int)
    requires AllSafe(s)
    ensures AllSafe(s.(db := s.db.Schedule(id, score)))
    ensures AllSafe(s.(db := s.db.DlqIndex(id)))
    ensures AllSafe(s.(db := s.db.DlqUnindex(id)))
    ensures Need(s.db.records, id) != 1 ==> AllSafe(s.(db := s.db.Unschedule(id)))
  {
    forall i | i in s.created
      ensures Safe(s.(db := s.db.Schedule(id, score)), i)
      ensures Safe(s.(db := s.db.DlqIndex(id)), i) && Safe(s.(db := s.db.DlqUnindex(id)), i)
      ensures Need(s.db.records, id) != 1 ==> Safe(s.(db := s.db.Unschedule(id)), i)
    {
      Frame(s, s.(db := s.db.Schedule(id, score)), i);
      Frame(s, s.(db := s.db.DlqIndex(id)), i);
      Frame(s, s.(db := s.db.DlqUnindex(id)), i);
      if Need(s.db.records, id) != 1 {
        Frame(s, s.(db := s.db.Unschedule(id)), i);
      }
    }
  }

  lemma DlqAppendSafe(s: System, r: Record)
    requires AllSafe(s)
    ensures AllSafe(s.(db := s.db.DlqAppend(r)))
  {
    forall id | id in s.created ensures Safe(s.(db := s.db.DlqAppend(r)), id) {
      Frame(s, s.(db := s.db.DlqAppend(r)), id);
    }
  }

  lemma DlqDeleteSafe(s: System, d: MessageId)
    requires AllSafe(s) && Strength(s.live, Dead(d)) == 0
    ensures AllSafe(s.(db := s.db.DlqDelete(d)))
  {
    var s' := s.(db := s.db.DlqDelete(d));
    forall id | id in s.created ensures Safe(s', id) {
      if !Done(s, id) && !Deferred(s.db, id) {
        var c :| Carries(s, id, c);
        assert Carries(s', id, c);
      }
    }
  }

  // ---------------------------------------------------------------------------
  // The steps.
  // ---------------------------------------------------------------------------

  /** A holder's message is a carrier of its task while the record exists. */
  lemma HeldBacks(s: System, tok: Token)
    requires Shaped(s) && tok in s.live && HasTask(s.live[tok]) && !s.live[tok].Removed?
    ensures s.live[tok].t.id in s.created
    ensures tok.Msg? ==> forall id :: Backs(s.db, id, tok) <==> id == s.live[tok].t.id && id in s.db.records
    ensures tok.Dead? ==> forall id :: Backs(s.db, id, tok) <==> id == s.live[tok].t.id
  {
    assert MayHold(s, tok, s.live[tok]);
    if tok.Msg? {
      assert s.db.streams.Of(tok.p).Valid();
    }
  }

  /** The next message of a stream is not held by anyone. */
  lemma FreshMessage(s: System, p: Priority)
    requires Shaped(s)
    ensures Msg(p, |s.db.streams.Of(p).log|) !in s.live
    ensures Dead(|s.db.dlq|) !in s.live
    ensures |s.db.streams.Of(p).log| !in s.db.streams.Of(p).acked
  {
    assert s.db.streams.Of(p).Valid();
    var c, d := Msg(p, |s.db.streams.Of(p).log|), Dead(|s.db.dlq|);
    forall tok | tok in s.live ensures tok != c && tok != d {
      assert MayHold(s, tok, s.live[tok]);
    }
  }

  lemma StoreStep(s: System, r: Record, tok: Token, ph: Phase, s': System)
    requires Shaped(s) && AllSafe(s) && tok in s.live && HasTask(s.live[tok]) && !s.live[tok].Removed?
    requires s.live[tok].t.id == r.id && s'.created == s.created
    requires s'.db == s.db.Update(r, s.retention) || s'.db == s.db.Save(r, false)
    requires s'.live == s.live[tok := ph] && s.completed <= s'.completed && s.canceled <= s'.canceled
    requires Done(s', r.id)
      || (Firmness(ph) >= Need(s'.db.records, r.id) && Strength(s.live, tok) >= Need(s'.db.records, r.id))
    ensures AllSafe(s')
  {
    HeldBacks(s, tok);
    var s0 := s.(completed := s'.completed, canceled := s'.canceled);
    OthersSafe(s, s0);
    var s1 := s0.(db := s'.db);
    SaveSafe(s0, r, if s'.db == s.db.Save(r, false) then false else r.state.IsFinal() && s.retention, tok);
    forall id | id in s.created && Backs(s1.db, id, tok) ensures Safe(s1.Hold(s1.db, tok, ph), id) {
      assert Done(s', id) || Carries(s1.Hold(s1.db, tok, ph), id, tok);
    }
    HoldSafe(s1, tok, ph);
    OthersSafe(s1.Hold(s1.db, tok, ph), s');
  }

  lemma SafeDelivery(s: System, tok: Token, w: WorkerStep)
    requires Shaped(s) && AllSafe(s) && WorkerEnabled(s, tok, w)
    requires w.Load? || w.AckMissing? || w.Ack?
    ensures AllSafe(WorkerNext(s, tok, w))
  {
    var ph, s' := s.live[tok], WorkerNext(s, tok, w);
    match w
    case Load => HoldSafe(s, tok, s'.live[tok]);
    case AckMissing =>
      AckSafe(s, tok.p, tok.m);
      ReleaseSafe(s.(db := s'.db), tok);
    case Ack =>
      assert MayHold(s, tok, ph);
      assert Msg(ph.t.priority, tok.m) == tok;
      AckSafe(s, tok.p, tok.m);
      ReleaseSafe(s.(db := s'.db), tok);
  }

  lemma SafeBegin(s: System, tok: Token, worker: string, now: Time)
    requires Shaped(s) && AllSafe(s) && WorkerEnabled(s, tok, Begin(worker, now))
    ensures AllSafe(WorkerNext(s, tok, Begin(worker, now)))
  {
    var t := s.live[tok].t;
    if t.state.CanTransitionTo(Running) {
      StoreStep(s, Started(t, worker, now), tok, Executing(Started(t, worker, now)),
        WorkerNext(s, tok, Begin(worker, now)));
    } else {
      ReleaseSafe(s, tok);
    }
  }

  lemma SafeSucceed(s: System, tok: Token, now: Time)
    requires Shaped(s) && AllSafe(s) && WorkerEnabled(s, tok, Succeed(now))
    ensures AllSafe(WorkerNext(s, tok, Succeed(now)))
  {
    var t := Succeeded(s.live[tok].t, now);
    StoreStep(s, t, tok, Settled(t), WorkerNext(s, tok, Succeed(now)));
  }

  lemma SafeFailRetry(s: System, tok: Token, message: string, now: Time, delay: Time)
    requires Shaped(s) && AllSafe(s) && WorkerEnabled(s, tok, FailRetry(message, now, delay))
    ensures AllSafe(WorkerNext(s, tok, FailRetry(message, now, delay)))
  {
    assert MayHold(s, tok, s.live[tok]);
    var t := FailedForRetry(s.live[tok].t, message, now, delay);
    FailRetryStores(s, tok, message, now, delay);
    StoreStep(s, t, tok, RetryStored(t), WorkerNext(s, tok, FailRetry(message, now, delay)));
  }

  lemma FailRetryStores(s: System, tok: Token, message: string, now: Time, delay: Time)
    requires WorkerEnabled(s, tok, FailRetry(message, now, delay)) && s.live[tok].t.state.Running?
    ensures var t, s' := FailedForRetry(s.live[tok].t, message, now, delay),
                         WorkerNext(s, tok, FailRetry(message, now, delay));
            && t.id == s.live[tok].t.id && t.state.Retrying? && s'.db == s.db.Update(t, s.retention)
            && s'.live == s.live[tok := RetryStored(t)] && s'.created == s.created
            && s'.completed == s.completed && s'.canceled == s.canceled
            && Firmness(RetryStored(t)) >= Need(s'.db.records, t.id)
  {
    RetryBranchAlwaysSchedules(s.live[tok].t, message, now, delay);
  }

  lemma SafeStoreAgain(s: System, tok: Token)
    requires Shaped(s) && AllSafe(s) && WorkerEnabled(s, tok, StoreAgain)
    ensures AllSafe(WorkerNext(s, tok, StoreAgain))
  {
    assert MayHold(s, tok, s.live[tok]);
    var t := s.live[tok].t;
    StoreStep(s, t, tok, RetryStoredTwice(t), WorkerNext(s, tok, StoreAgain));
  }

  lemma SafeFailFinal(s: System, tok: Token, message: string, now: Time)
    requires Shaped(s) && AllSafe(s) && WorkerEnabled(s, tok, FailFinal(message, now))
    ensures AllSafe(WorkerNext(s, tok, FailFinal(message, now)))
  {
    var t := Errored(s.live[tok].t, message, now);
    StoreStep(s, t, tok, FailStored(t), WorkerNext(s, tok, FailFinal(message, now)));
  }

  /** The scheduled entry takes over from the message. */
  lemma SafeReschedule(s: System, tok: Token)
    requires Shaped(s) && AllSafe(s) && WorkerEnabled(s, tok, Reschedule)
    ensures AllSafe(WorkerNext(s, tok, Reschedule))
  {
    HeldBacks(s, tok);
    var t, s' := s.live[tok].t, WorkerNext(s, tok, Reschedule);
    ScheduleSafe(s, t.id, UnixSeconds(t.scheduledAt.value));
    var s1 := s.(db := s'.db);
    assert Safe(s1, t.id);
    if !Done(s', t.id) && !Deferred(s'.db, t.id) {
      var c :| Carries(s1, t.id, c);
      assert Carries(s', t.id, c);
    }
    HoldSafe(s1, tok, s'.live[tok]);
  }

  /** The dead-letter entry takes over from the message. */
  lemma SafeEntomb(s: System, tok: Token, now: Time)
    requires Shaped(s) && AllSafe(s) && WorkerEnabled(s, tok, Entomb(now))
    ensures AllSafe(WorkerNext(s, tok, Entomb(now)))
  {
    HeldBacks(s, tok);
    FreshMessage(s, tok.p);
    var t, s' := s.live[tok].t, WorkerNext(s, tok, Entomb(now));
    DlqAppendSafe(s, Buried(t, now));
    assert Carries(s', t.id, Dead(|s.db.dlq|));
    HoldSafe(s.(db := s'.db), tok, s'.live[tok]);
  }

  lemma SafeIndexDead(s: System, tok: Token)
    requires Shaped(s) && AllSafe(s) && WorkerEnabled(s, tok, IndexDead)
    ensures AllSafe(WorkerNext(s, tok, IndexDead))
  {
    ScheduleSafe(s, s.live[tok].t.id, 0);
    HoldSafe(s.(db := s.db.DlqIndex(s.live[tok].t.id)), tok, Settled(s.live[tok].t));
  }

  lemma SafeWorker(s: System, tok: Token, w: WorkerStep)
    requires Shaped(s) && AllSafe(s) && WorkerEnabled(s, tok, w)
    ensures AllSafe(WorkerNext(s, tok, w))
  {
    match w
    case Reschedule => SafeReschedule(s, tok);
    case Entomb(now) => SafeEntomb(s, tok, now);
    case IndexDead => SafeIndexDead(s, tok);
    case FailRetry(message, now, delay) => SafeFailRetry(s, tok, message, now, delay);
    case StoreAgain => SafeStoreAgain(s, tok);
    case FailFinal(message, now) => SafeFailFinal(s, tok, message, now);
    case Load => SafeDelivery(s, tok, w);
    case AckMissing => SafeDelivery(s, tok, w);
    case Begin(worker, now) => SafeBegin(s, tok, worker, now);
    case Succeed(now) => SafeSucceed(s, tok, now);
    case Ack => SafeDelivery(s, tok, w);
  }

  /** A new message takes over from the claimed message or the retried entry. */
  lemma SafeAppend(s: System, tok: Token, ph: Phase)
    requires Shaped(s) && AllSafe(s) && tok in s.live && (s.live[tok].OrphanStored? || s.live[tok].Restored?)
    requires Firmness(ph) == 0
    ensures var t := s.live[tok].t; AllSafe(s.Hold(s.db.Append(t.priority, t.id), tok, ph))
  {
    HeldBacks(s, tok);
    var t := s.live[tok].t;
    var s1 := s.(db := s.db.Append(t.priority, t.id));
    AppendSafe(s, t.priority, t.id);
    assert Safe(s1, t.id);
    SafeAfterAppend(s, tok, ph);
    HoldSafe(s1, tok, ph);
  }

  lemma SafeAfterAppend(s: System, tok: Token, ph: Phase)
    requires Shaped(s) && tok in s.live && (s.live[tok].OrphanStored? || s.live[tok].Restored?)
    requires Safe(s.(db := s.db.Append(s.live[tok].t.priority, s.live[tok].t.id)), s.live[tok].t.id)
    ensures var t := s.live[tok].t; Safe(s.Hold(s.db.Append(t.priority, t.id), tok, ph), t.id)
  {
    var t := s.live[tok].t;
    var s1 := s.(db := s.db.Append(t.priority, t.id));
    var s' := s1.Hold(s1.db, tok, ph);
    HeldBacks(s, tok);
    FreshMessage(s, t.priority);
    if t.id in s.db.records {
      assert Carries(s', t.id, Msg(t.priority, |s.db.streams.Of(t.priority).log|));
    } else if !Done(s, t.id) {
      var c :| Carries(s1, t.id, c);
      assert Carries(s', t.id, c);
    }
  }

  lemma SafeClaim(s: System, tok: Token, consumer: string, now: Time)
    requires Shaped(s) && AllSafe(s) && RecoveryEnabled(s, tok, Claim(consumer, now))
    ensures AllSafe(RecoveryNext(s, tok, Claim(consumer, now)))
  {
    var db' := s.db.Claim(tok.p, tok.m, s.minIdle, consumer, now);
    StreamsSafe(s, db');
    HoldSafe(s.(db := db'), tok, Claimed);
  }

  lemma SafeLoadOrphan(s: System, tok: Token, now: Time)
    requires Shaped(s) && AllSafe(s) && RecoveryEnabled(s, tok, LoadOrphan(now))
    ensures AllSafe(RecoveryNext(s, tok, LoadOrphan(now)))
  {
    var id := s.db.streams.Of(tok.p).log[tok.m];
    if id in s.db.records {
      HoldSafe(s, tok, Orphan(Prepared(s.db.records[id], now)));
    } else {
      ReleaseSafe(s, tok);
    }
  }

  lemma SafeStoreOrphan(s: System, tok: Token)
    requires Shaped(s) && AllSafe(s) && RecoveryEnabled(s, tok, StoreOrphan)
    ensures AllSafe(RecoveryNext(s, tok, StoreOrphan))
  {
    assert MayHold(s, tok, s.live[tok]);
    var t := s.live[tok].t;
    StoreStep(s, t, tok, OrphanStored(t), RecoveryNext(s, tok, StoreOrphan));
  }

  lemma SafeRecovery(s: System, tok: Token, r: RecoveryStep)
    requires Shaped(s) && AllSafe(s) && RecoveryEnabled(s, tok, r)
    ensures AllSafe(RecoveryNext(s, tok, r))
  {
    match r
    case Claim(consumer, now) => SafeClaim(s, tok, consumer, now);
    case LoadOrphan(now) => SafeLoadOrphan(s, tok, now);
    case StoreOrphan => SafeStoreOrphan(s, tok);
    case AppendOrphan => SafeAppend(s, tok, Settled(s.live[tok].t));
  }

  lemma SafePick(s: System, tok: Token, now: Time)
    requires Shaped(s) && AllSafe(s) && DlqEnabled(s, tok, Pick(now))
    ensures AllSafe(DlqNext(s, tok, Pick(now)))
  {
    HoldSafe(s, tok, Picked(Requeued(s.db.dlq[tok.d].value, now)));
  }

  lemma SafeRestore(s: System, tok: Token)
    requires Shaped(s) && AllSafe(s) && DlqEnabled(s, tok, Restore)
    ensures AllSafe(DlqNext(s, tok, Restore))
  {
    assert MayHold(s, tok, s.live[tok]);
    var t, s' := s.live[tok].t, DlqNext(s, tok, Restore);
    RestoreStores(s, tok);
    StoreStep(s, t, tok, Restored(t), s');
  }

  lemma RestoreStores(s: System, tok: Token)
    requires DlqEnabled(s, tok, Restore)
    ensures var t, s' := s.live[tok].t, DlqNext(s, tok, Restore);
            && s'.db == s.db.Save(t, false) && s'.live == s.live[tok := Restored(t)] && s'.created == s.created
            && s'.completed == s.completed && s'.canceled == s.canceled
  {
  }

  lemma SafeRemoveDead(s: System, tok: Token)
    requires Shaped(s) && AllSafe(s) && DlqEnabled(s, tok, RemoveDead)
    ensures AllSafe(DlqNext(s, tok, RemoveDead))
  {
    DlqDeleteSafe(s, tok.d);
    HoldSafe(s.(db := s.db.DlqDelete(tok.d)), tok, Removed(s.live[tok].t));
  }

  lemma SafeUnindexDead(s: System, tok: Token)
    requires Shaped(s) && AllSafe(s) && DlqEnabled(s, tok, UnindexDead)
    ensures AllSafe(DlqNext(s, tok, UnindexDead))
  {
    ScheduleSafe(s, s.live[tok].t.id, 0);
    ReleaseSafe(s.(db := s.db.DlqUnindex(s.live[tok].t.id)), tok);
  }

  lemma SafeDlq(s: System, tok: Token, d: DlqStep)
    requires Shaped(s) && AllSafe(s) && DlqEnabled(s, tok, d)
    ensures AllSafe(DlqNext(s, tok, d))
  {
    match d
    case Pick(now) => SafePick(s, tok, now);
    case Restore => SafeRestore(s, tok);
    case Reappend => SafeAppend(s, tok, Reappended(s.live[tok].t));
    case RemoveDead => SafeRemoveDead(s, tok);
    case UnindexDead => SafeUnindexDead(s, tok);
  }

  // Requests.

  lemma SafeAccepted(s: System, q: nat, a: ApiStep)
    requires Shaped(s) && AllSafe(s) && ApiEnabled(s, q, a) && (a.SubmitAppend? || a.SubmitSchedule?)
    ensures AllSafe(ApiNext(s, q, a))
  {
    assert InFlight(s.created, s.db.records, s.db.expiring, s.requests[q]);
    var t, s' := s.requests[q].t, ApiNext(s, q, a);
    FreshMessage(s, t.priority);
    forall id | id in s'.created ensures Safe(s', id) {
      if id != t.id {
        Frame(s, s', id);
      } else if a.SubmitAppend? {
        assert Carries(s', t.id, Msg(t.priority, |s.db.streams.Of(t.priority).log|));
      }
    }
  }

  lemma KeptByNeed(s: System, id: TaskId)
    requires Safe(s, id) && NotDeferred(s.db, id)
    ensures Kept(s, id) || Done(s, id)
  {
    if !Done(s, id) {
      var c :| Carries(s, id, c);
      assert Strength(s.live, c) >= 2;
    }
  }

  lemma SafeStoreRequest(s: System, q: nat, a: ApiStep)
    requires Shaped(s) && AllSafe(s) && ApiEnabled(s, q, a) && (a.CancelStore? || a.AdminStore? || a.AdminStoreAgain?)
    ensures AllSafe(ApiNext(s, q, a))
  {
    assert InFlight(s.created, s.db.records, s.db.expiring, s.requests[q]);
    var t, s' := s.requests[q].t, ApiNext(s, q, a);
    var s0 := s.(canceled := s'.canceled);
    OthersSafe(s, s0);
    assert Safe(s, t.id);
    var c := Dead(0);
    if !Done(s0, t.id) {
      if NotDeferred(s.db, t.id) {
        KeptByNeed(s, t.id);
      }
      c :| Backs(s.db, t.id, c) && Strength(s.live, c) >= 2;
      assert Carries(s0.(db := s'.db), t.id, c);
    }
    SaveSafe(s0, t, t.id in s'.db.expiring, c);
    OthersSafe(s0.(db := s'.db), s');
  }

  lemma SafeApi(s: System, q: nat, a: ApiStep)
    requires Shaped(s) && AllSafe(s) && ApiEnabled(s, q, a)
    ensures AllSafe(ApiNext(s, q, a))
  {
    match a
    case Submit(t) =>
      SaveSafe(s, t, false, Dead(0));
      OthersSafe(s.(db := s.db.Save(t, false)), ApiNext(s, q, a));
    case AdminAppend =>
      var t := s.requests[q].t;
      AppendSafe(s, t.priority, t.id);
      OthersSafe(s.(db := s.db.Append(t.priority, t.id)), ApiNext(s, q, a));
    case SubmitAppend => SafeAccepted(s, q, a);
    case SubmitSchedule => SafeAccepted(s, q, a);
    case CancelStore => SafeStoreRequest(s, q, a);
    case AdminStore => SafeStoreRequest(s, q, a);
    case AdminStoreAgain => SafeStoreRequest(s, q, a);
    case CancelLoad(_, _) => OthersSafe(s, ApiNext(s, q, a));
    case AdminLoad(_, _) => OthersSafe(s, ApiNext(s, q, a));
    case Drop => OthersSafe(s, ApiNext(s, q, a));
  }

  /** Activation replaces the scheduled entry by a message, or drops an entry that carried nothing. */
  lemma SafeActivate(s: System, id: TaskId, now: Time)
    requires Shaped(s) && AllSafe(s)
    ensures AllSafe(s.(db := Activated(s.db, id, s.retention, now)))
  {
    var s' := s.(db := Activated(s.db, id, s.retention, now));
    if id in s.db.records && s.db.records[id].state.IsDeferred() {
      var p := s.db.records[id].priority;
      FreshMessage(s, p);
      assert Carries(s', id, Msg(p, |s.db.streams.Of(p).log|));
      forall i | i in s.created && i != id ensures Safe(s', i) {
        Frame(s, s', i);
      }
    } else {
      ScheduleSafe(s, id, 0);
    }
  }

  lemma SafeRead(s: System, consumer: string, now: Time)
    requires Shaped(s) && AllSafe(s) && s.db.FirstReady().Some?
    ensures AllSafe(Next(s, Read(consumer, now)))
  {
    var p := s.db.FirstReady().value;
    var db' := s.db.ReadGroup(consumer, now);
    StreamsSafe(s, db');
    HoldSafe(s.(db := db'), Msg(p, s.db.streams.Of(p).next), Fetched);
  }

  lemma StaysSafe(s: System, e: Event)
    requires Shaped(s) && AllSafe(s) && Enabled(s, e)
    ensures AllSafe(Next(s, e))
  {
    match e
    case Read(consumer, now) => SafeRead(s, consumer, now);
    case Worker(tok, w) => SafeWorker(s, tok, w);
    case Recovery(tok, r) => SafeRecovery(s, tok, r);
    case DlqRetry(tok, d) => SafeDlq(s, tok, d);
    case Crash(tok) => ReleaseSafe(s, tok);
    case Api(q, a) => SafeApi(s, q, a);
    case Activate(id, now) => SafeActivate(s, id, now);
    case Expire(id) => DeleteSafe(s, id);
  }

  // ---------------------------------------------------------------------------
  // The theorems over whole runs.
  // ---------------------------------------------------------------------------

  lemma {:induction false} RunInvariant(states: seq<System>, events: seq<Event>, i: nat)
    requires IsRun(states, events) && states[0] == Start(states[0].retention, states[0].minIdle)
    requires i <= |events|
    ensures Shaped(states[i]) && AllSafe(states[i])
  {
    if i == 0 {
      StartShaped(states[0].retention, states[0].minIdle);
    } else {
      RunInvariant(states, events, i - 1);
      Keeps(states[i - 1], events[i - 1]);
      StaysSafe(states[i - 1], events[i - 1]);
    }
  }

  /** At every point of every run, every task whose submission succeeded has once finished
      successfully, has been canceled, or still has a carrier. */
  lemma NothingIsLost(states: seq<System>, events: seq<Event>, i: nat, id: TaskId)
    requires IsRun(states, events) && states[0] == Start(states[0].retention, states[0].minIdle)
    requires i <= |events| && id in states[i].created
    ensures NotLost(states[i], id)
  {
    RunInvariant(states, events, i);
    SafeIsNotLost(states[i], id);
  }
}
