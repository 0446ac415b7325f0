/** How often a task's handler starts. */
module Execution {
  import opened Tasks
  import opened Store
  import opened Protocol
  import opened Shape

  predicate Waiting(st: State) {
    st.Pending? || st.Scheduled? || st.Retrying?
  }

  /** The holder will still store its copy of the record. A worker that loaded a record it cannot
      start never does. */
  predicate StoresYet(ph: Phase) {
    (ph.Loaded? && Waiting(ph.t.state)) || ph.Executing? || ph.RetryStored? || ph.Orphan? || ph.Picked?
  }

  predicate RequestStoresYet(r: Request) {
    r.Canceling? || r.AdminLoaded? || r.AdminStored?
  }

  predicate HoldsCopy(ph: Phase, id: TaskId) {
    StoresYet(ph) && ph.t.id == id
  }

  predicate HasCopy(r: Request, id: TaskId) {
    RequestStoresYet(r) && r.t.id == id
  }

  /** The hypothesis of this module, task by task: at most one process at a time is between reading
      the task's record and its last store of it. Processes may still crash between any two commands,
      and processes that only append, index, acknowledge or are refused overlap freely. */
  ghost predicate Serial(s: System, id: TaskId) {
    && (forall x, y | x in s.live && y in s.live && HoldsCopy(s.live[x], id) && HoldsCopy(s.live[y], id) :: x == y)
    && (forall q, r | q in s.requests && r in s.requests && HasCopy(s.requests[q], id)
         && HasCopy(s.requests[r], id) :: q == r)
    && (forall x, q | x in s.live && q in s.requests :: !HoldsCopy(s.live[x], id) || !HasCopy(s.requests[q], id))
  }

  function Starts(s: System, id: TaskId): int {
    Tally(s.starts, id)
  }

  /** The bound on the handler starts since the last requeue. */
  function Limit(s: System, id: TaskId): int
    requires id in s.created
  {
    s.created[id].maxRetries + Tally(s.recoveries, id)
  }

  /** The stored attempts count the handler starts; a task that waits may start once more. */
  predicate Counted(s: System, id: TaskId)
    requires id in s.created
  {
    && Tally(s.recoveries, id) >= 0 && s.created[id].maxRetries >= 1
    && 0 <= Starts(s, id) <= Limit(s, id)
    && (id in s.db.records ==>
          && s.db.records[id].attempts == Starts(s, id)
          && (Waiting(s.db.records[id].state) ==> Starts(s, id) < Limit(s, id)))
  }

  /** A copy that will still be stored agrees with the record. */
  predicate CopyFits(s: System, ph: Phase) {
    match ph
    case Loaded(t) =>
      && t.id in s.created && t.attempts == Starts(s, t.id) < Limit(s, t.id)
      && t.id in s.db.records && Waiting(s.db.records[t.id].state)
    case Executing(t) => t.attempts == Starts(s, t.id) && t.id in s.db.records && s.db.records[t.id].state.Running?
    case RetryStored(t) =>
      && t.id in s.created && t.attempts == Starts(s, t.id) < Limit(s, t.id)
      && t.id in s.db.records && (s.db.records[t.id].state.Retrying? || s.db.records[t.id].state.Pending?)
    case Orphan(t) => t.attempts == Starts(s, t.id)
    case Picked(t) => t.attempts == 0
    case _ => true
  }

  predicate RequestFits(s: System, r: Request) {
    match r
    case Creating(t) => t.attempts == 0 && t.maxRetries >= 1
    case Canceling(t) => t.attempts == Starts(s, t.id) && t.id in s.db.records && Waiting(s.db.records[t.id].state)
    case AdminLoaded(t) => t.attempts == 0 && (t.id in s.db.records ==> CanBeRetried(s.db.records[t.id].state))
    case AdminStored(t) => t.attempts == 0 == Starts(s, t.id) && t.id in s.db.records
      && s.db.records[t.id].state.Pending?
    case AdminStoredTwice(_) => true
  }

  ghost predicate Accounted(s: System, id: TaskId) {
    && (id in s.created ==> Counted(s, id))
    && (id in s.starts || id in s.recoveries ==> id in s.created)
    && (forall tok | tok in s.live && HoldsCopy(s.live[tok], id) :: CopyFits(s, s.live[tok]))
    && (forall q | q in s.requests && s.requests[q].t.id == id :: RequestFits(s, s.requests[q]))
  }

  // ---------------------------------------------------------------------------
  // Steps that leave the task alone.
  // ---------------------------------------------------------------------------

  ghost predicate Apart(s: System, s': System, id: TaskId) {
    && (id in s'.created <==> id in s.created) && (id in s.created ==> s'.created[id] == s.created[id])
    && (id in s'.db.records <==> id in s.db.records) && (id in s.db.records ==> s'.db.records[id] == s.db.records[id])
    && Starts(s', id) == Starts(s, id) && Tally(s'.recoveries, id) == Tally(s.recoveries, id)
    && (id in s'.starts || id in s'.recoveries ==> id in s.starts || id in s.recoveries)
    && (forall tok | tok in s'.live && HoldsCopy(s'.live[tok], id) :: tok in s.live && s.live[tok] == s'.live[tok])
    && (forall q | q in s'.requests && s'.requests[q].t.id == id ::
          (q in s.requests && s.requests[q] == s'.requests[q]) || s'.requests[q].AdminStoredTwice?)
  }

  lemma CountApart(s: System, s': System, id: TaskId)
    requires Accounted(s, id) && Apart(s, s', id)
    ensures Accounted(s', id)
  {
  }

  /** The phase of one holder changes, and nothing that this module speaks about. */
  lemma ApartPhase(s: System, s': System, tok: Token, id: TaskId)
    requires s'.created == s.created && s'.db.records == s.db.records && s'.starts == s.starts
    requires s'.recoveries == s.recoveries
    requires s'.requests == s.requests && forall x | x != tok && x in s'.live :: x in s.live && s'.live[x] == s.live[x]
    requires tok in s'.live ==> !HoldsCopy(s'.live[tok], id)
    ensures Apart(s, s', id)
  {
  }

  /** The holder of another task's copy stores it. */
  lemma ApartStore(s: System, s': System, tok: Token, r: Record, id: TaskId)
    requires s'.created == s.created && s'.requests == s.requests && r.id != id
    requires s'.db.records == s.db.records[r.id := r]
    requires s'.starts == s.starts || s'.starts == s.starts[r.id := Starts(s', r.id)]
    requires s'.recoveries == s.recoveries || s'.recoveries == s.recoveries[r.id := Tally(s'.recoveries, r.id)]
    requires forall x | x != tok && x in s'.live :: x in s.live && s'.live[x] == s.live[x]
    requires tok in s'.live ==> !HoldsCopy(s'.live[tok], id)
    ensures Apart(s, s', id)
  {
  }

  // ---------------------------------------------------------------------------
  // The worker.
  // ---------------------------------------------------------------------------

  /** The holder stores its copy: there is no other copy of the task. */
  lemma CountStore(s: System, tok: Token, r: Record, ph: Phase, s': System)
    requires Shaped(s) && Serial(s, r.id) && Accounted(s, r.id) && tok in s.live && HoldsCopy(s.live[tok], r.id)
    requires r.id in s.created && s'.created == s.created
    requires s'.db.records == s.db.records[r.id := r] && s'.live == s.live[tok := ph] && s'.requests == s.requests
    requires Counted(s', r.id) && (HoldsCopy(ph, r.id) ==> CopyFits(s', ph))
    ensures Accounted(s', r.id)
  {
    forall q | q in s'.requests && s'.requests[q].t.id == r.id ensures RequestFits(s', s'.requests[q]) {
      assert InFlight(s.created, s.db.records, s.db.expiring, s.requests[q]);
      assert !HasCopy(s.requests[q], r.id);
    }
  }

  /** A store, of this task or of another one. */
  lemma CountAnyStore(s: System, tok: Token, r: Record, ph: Phase, s': System, id: TaskId)
    requires Shaped(s) && Serial(s, id) && Accounted(s, id) && tok in s.live && HoldsCopy(s.live[tok], r.id)
    requires r.id in s.created && s'.created == s.created
    requires s'.db.records == s.db.records[r.id := r] && s'.live == s.live[tok := ph] && s'.requests == s.requests
    requires s'.starts == s.starts || s'.starts == s.starts[r.id := Starts(s', r.id)]
    requires s'.recoveries == s.recoveries || s'.recoveries == s.recoveries[r.id := Tally(s'.recoveries, r.id)]
    requires StoresYet(ph) ==> ph.t.id == r.id
    requires r.id == id ==> Counted(s', id) && (HoldsCopy(ph, id) ==> CopyFits(s', ph))
    ensures Accounted(s', id)
  {
    if r.id == id {
      CountStore(s, tok, r, ph, s');
    } else {
      ApartStore(s, s', tok, r, id);
      CountApart(s, s', id);
    }
  }

  lemma CountRefused(s: System, tok: Token, worker: string, now: Time, id: TaskId)
    requires Accounted(s, id) && WorkerEnabled(s, tok, Begin(worker, now))
    requires !s.live[tok].t.state.CanTransitionTo(Running)
    ensures Accounted(WorkerNext(s, tok, Begin(worker, now)), id)
  {
    ApartPhase(s, WorkerNext(s, tok, Begin(worker, now)), tok, id);
    CountApart(s, WorkerNext(s, tok, Begin(worker, now)), id);
  }

  lemma CountBegin(s: System, tok: Token, worker: string, now: Time, id: TaskId)
    requires Shaped(s) && Serial(s, id) && Accounted(s, id)
    requires WorkerEnabled(s, tok, Begin(worker, now)) && s.live[tok].t.state.CanTransitionTo(Running)
    ensures Accounted(WorkerNext(s, tok, Begin(worker, now)), id)
  {
    assert MayHold(s, tok, s.live[tok]);
    var t := s.live[tok].t;
    assert t.id == id ==> CopyFits(s, s.live[tok]);
    var r := Started(t, worker, now);
    BeginCounts(s, tok, worker, now);
    CountAnyStore(s, tok, r, Executing(r), WorkerNext(s, tok, Begin(worker, now)), id);
  }

  lemma BeginCounts(s: System, tok: Token, worker: string, now: Time)
    requires WorkerEnabled(s, tok, Begin(worker, now)) && s.live[tok].t.state.CanTransitionTo(Running)
    ensures var s', r := WorkerNext(s, tok, Begin(worker, now)), Started(s.live[tok].t, worker, now);
            && s'.db.records == s.db.records[r.id := r] && s'.live == s.live[tok := Executing(r)]
            && s'.starts == s.starts[r.id := Starts(s, r.id) + 1] && Starts(s', r.id) == Starts(s, r.id) + 1
            && s'.recoveries == s.recoveries && s'.created == s.created && s'.requests == s.requests
  {
  }

  lemma CountSucceed(s: System, tok: Token, now: Time, id: TaskId)
    requires Shaped(s) && Serial(s, id) && Accounted(s, id) && WorkerEnabled(s, tok, Succeed(now))
    ensures Accounted(WorkerNext(s, tok, Succeed(now)), id)
  {
    assert MayHold(s, tok, s.live[tok]);
    assert s.live[tok].t.id == id ==> CopyFits(s, s.live[tok]);
    var r := Succeeded(s.live[tok].t, now);
    CountAnyStore(s, tok, r, Settled(r), WorkerNext(s, tok, Succeed(now)), id);
  }

  lemma CountFailFinal(s: System, tok: Token, message: string, now: Time, id: TaskId)
    requires Shaped(s) && Serial(s, id) && Accounted(s, id) && WorkerEnabled(s, tok, FailFinal(message, now))
    ensures Accounted(WorkerNext(s, tok, FailFinal(message, now)), id)
  {
    assert MayHold(s, tok, s.live[tok]);
    assert s.live[tok].t.id == id ==> CopyFits(s, s.live[tok]);
    var r := Errored(s.live[tok].t, message, now);
    CountAnyStore(s, tok, r, FailStored(r), WorkerNext(s, tok, FailFinal(message, now)), id);
  }

  lemma CountStoreAgain(s: System, tok: Token, id: TaskId)
    requires Shaped(s) && Serial(s, id) && Accounted(s, id) && WorkerEnabled(s, tok, StoreAgain)
    ensures Accounted(WorkerNext(s, tok, StoreAgain), id)
  {
    assert MayHold(s, tok, s.live[tok]);
    assert s.live[tok].t.id == id ==> CopyFits(s, s.live[tok]);
    var r := s.live[tok].t;
    CountAnyStore(s, tok, r, RetryStoredTwice(r), WorkerNext(s, tok, StoreAgain), id);
  }

  lemma CountFailRetry(s: System, tok: Token, message: string, now: Time, delay: Time, id: TaskId)
    requires Shaped(s) && Serial(s, id) && Accounted(s, id) && WorkerEnabled(s, tok, FailRetry(message, now, delay))
    ensures Accounted(WorkerNext(s, tok, FailRetry(message, now, delay)), id)
  {
    assert MayHold(s, tok, s.live[tok]);
    assert s.live[tok].t.id == id ==> CopyFits(s, s.live[tok]);
    RetryBranchAlwaysSchedules(s.live[tok].t, message, now, delay);
    var r := FailedForRetry(s.live[tok].t, message, now, delay);
    CountAnyStore(s, tok, r, RetryStored(r), WorkerNext(s, tok, FailRetry(message, now, delay)), id);
  }

  lemma CountLoad(s: System, tok: Token, id: TaskId)
    requires Shaped(s) && Accounted(s, id) && WorkerEnabled(s, tok, Load)
    ensures Accounted(WorkerNext(s, tok, Load), id)
  {
    var s' := WorkerNext(s, tok, Load);
    assert s.db.streams.Of(tok.p).log[tok.m] in s.created;
    if HoldsCopy(s'.live[tok], id) {
      assert CopyFits(s', s'.live[tok]);
    } else {
      ApartPhase(s, s', tok, id);
      CountApart(s, s', id);
    }
  }

  /** Steps that store no record. */
  lemma CountQuiet(s: System, tok: Token, w: WorkerStep, id: TaskId)
    requires Accounted(s, id) && WorkerEnabled(s, tok, w)
    requires w.AckMissing? || w.Reschedule? || w.Entomb? || w.IndexDead? || w.Ack?
    ensures Accounted(WorkerNext(s, tok, w), id)
  {
    ApartPhase(s, WorkerNext(s, tok, w), tok, id);
    CountApart(s, WorkerNext(s, tok, w), id);
  }

  lemma CountWorker(s: System, tok: Token, w: WorkerStep, id: TaskId)
    requires Shaped(s) && Serial(s, id) && Accounted(s, id) && WorkerEnabled(s, tok, w)
    ensures Accounted(WorkerNext(s, tok, w), id)
  {
    match w
    case Load => CountLoad(s, tok, id);
    case Begin(worker, now) =>
      if s.live[tok].t.state.CanTransitionTo(Running) {
        CountBegin(s, tok, worker, now, id);
      } else {
        CountRefused(s, tok, worker, now, id);
      }
    case FailRetry(message, now, delay) => CountFailRetry(s, tok, message, now, delay, id);
    case Succeed(now) => CountSucceed(s, tok, now, id);
    case StoreAgain => CountStoreAgain(s, tok, id);
    case FailFinal(message, now) => CountFailFinal(s, tok, message, now, id);
    case AckMissing => CountQuiet(s, tok, w, id);
    case Reschedule => CountQuiet(s, tok, w, id);
    case Entomb(_) => CountQuiet(s, tok, w, id);
    case IndexDead => CountQuiet(s, tok, w, id);
    case Ack => CountQuiet(s, tok, w, id);
  }

  // ---------------------------------------------------------------------------
  // Recovery and dead-letter retry.
  // ---------------------------------------------------------------------------

  lemma CountStoreOrphan(s: System, tok: Token, id: TaskId)
    requires Shaped(s) && Serial(s, id) && Accounted(s, id) && RecoveryEnabled(s, tok, StoreOrphan)
    ensures Accounted(RecoveryNext(s, tok, StoreOrphan), id)
  {
    assert MayHold(s, tok, s.live[tok]);
    assert s.live[tok].t.id == id ==> CopyFits(s, s.live[tok]);
    var t := s.live[tok].t;
    CountAnyStore(s, tok, t, OrphanStored(t), RecoveryNext(s, tok, StoreOrphan), id);
  }

  /** Reading a record without storing anything yet. */
  lemma CountHold(s: System, tok: Token, ph: Phase, id: TaskId)
    requires Accounted(s, id) && (HoldsCopy(ph, id) ==> CopyFits(s, ph))
    ensures Accounted(s.Hold(s.db, tok, ph), id)
  {
  }

  lemma PreparedFits(s: System, id: TaskId, now: Time)
    requires Accounted(s, id) && id in s.created && id in s.db.records && s.db.records[id].id == id
    ensures CopyFits(s, Orphan(Prepared(s.db.records[id], now)))
  {
  }

  lemma LoadOrphanHolds(s: System, tok: Token, now: Time)
    requires RecoveryEnabled(s, tok, LoadOrphan(now))
    ensures var i := s.db.streams.Of(tok.p).log[tok.m];
            RecoveryNext(s, tok, LoadOrphan(now))
            == if i in s.db.records then s.Hold(s.db, tok, Orphan(Prepared(s.db.records[i], now)))
               else s.Release(s.db, tok)
  {
  }

  lemma CountOrphan(s: System, tok: Token, i: TaskId, now: Time, id: TaskId)
    requires Accounted(s, id) && i in s.created && i in s.db.records && s.db.records[i].id == i
    ensures Accounted(s.Hold(s.db, tok, Orphan(Prepared(s.db.records[i], now))), id)
  {
    if i == id {
      PreparedFits(s, i, now);
    }
    CountHold(s, tok, Orphan(Prepared(s.db.records[i], now)), id);
  }

  lemma CountLoadOrphan(s: System, tok: Token, now: Time, id: TaskId)
    requires Shaped(s) && Accounted(s, id) && RecoveryEnabled(s, tok, LoadOrphan(now))
    ensures Accounted(RecoveryNext(s, tok, LoadOrphan(now)), id)
  {
    var i := s.db.streams.Of(tok.p).log[tok.m];
    assert i in s.created;
    LoadOrphanHolds(s, tok, now);
    if i in s.db.records {
      CountOrphan(s, tok, i, now, id);
    } else {
      CountCrash(s, tok, id);
    }
  }

  lemma CountRecoveryQuiet(s: System, tok: Token, r: RecoveryStep, id: TaskId)
    requires Accounted(s, id) && RecoveryEnabled(s, tok, r) && (r.Claim? || r.AppendOrphan?)
    ensures Accounted(RecoveryNext(s, tok, r), id)
  {
    ApartPhase(s, RecoveryNext(s, tok, r), tok, id);
    CountApart(s, RecoveryNext(s, tok, r), id);
  }

  lemma CountRecovery(s: System, tok: Token, r: RecoveryStep, id: TaskId)
    requires Shaped(s) && Serial(s, id) && Accounted(s, id) && RecoveryEnabled(s, tok, r)
    ensures Accounted(RecoveryNext(s, tok, r), id)
  {
    match r
    case StoreOrphan => CountStoreOrphan(s, tok, id);
    case LoadOrphan(now) => CountLoadOrphan(s, tok, now, id);
    case Claim(_, _) => CountRecoveryQuiet(s, tok, r, id);
    case AppendOrphan => CountRecoveryQuiet(s, tok, r, id);
  }

  lemma CountRestore(s: System, tok: Token, id: TaskId)
    requires Shaped(s) && Serial(s, id) && Accounted(s, id) && DlqEnabled(s, tok, Restore)
    ensures Accounted(DlqNext(s, tok, Restore), id)
  {
    assert MayHold(s, tok, s.live[tok]);
    assert s.live[tok].t.id == id ==> CopyFits(s, s.live[tok]);
    var t := s.live[tok].t;
    CountAnyStore(s, tok, t, Restored(t), DlqNext(s, tok, Restore), id);
  }

  lemma CountPick(s: System, tok: Token, now: Time, id: TaskId)
    requires Accounted(s, id) && DlqEnabled(s, tok, Pick(now))
    ensures Accounted(DlqNext(s, tok, Pick(now)), id)
  {
    var s' := DlqNext(s, tok, Pick(now));
    if !HoldsCopy(s'.live[tok], id) {
      ApartPhase(s, s', tok, id);
      CountApart(s, s', id);
    }
  }

  lemma CountDlqQuiet(s: System, tok: Token, d: DlqStep, id: TaskId)
    requires Accounted(s, id) && DlqEnabled(s, tok, d) && (d.Reappend? || d.RemoveDead? || d.UnindexDead?)
    ensures Accounted(DlqNext(s, tok, d), id)
  {
    ApartPhase(s, DlqNext(s, tok, d), tok, id);
    CountApart(s, DlqNext(s, tok, d), id);
  }

  lemma CountDlq(s: System, tok: Token, d: DlqStep, id: TaskId)
    requires Shaped(s) && Serial(s, id) && Accounted(s, id) && DlqEnabled(s, tok, d)
    ensures Accounted(DlqNext(s, tok, d), id)
  {
    match d
    case Restore => CountRestore(s, tok, id);
    case Pick(now) => CountPick(s, tok, now, id);
    case Reappend => CountDlqQuiet(s, tok, d, id);
    case RemoveDead => CountDlqQuiet(s, tok, d, id);
    case UnindexDead => CountDlqQuiet(s, tok, d, id);
  }

  // ---------------------------------------------------------------------------
  // Requests.
  // ---------------------------------------------------------------------------

  /** A request stores its copy: there is no other one. */
  lemma CountRequestStore(s: System, q: nat, r: Record, s': System)
    requires Shaped(s) && Serial(s, r.id) && Accounted(s, r.id) && q in s.requests && HasCopy(s.requests[q], r.id)
    requires r.id in s.created && s'.created == s.created
    requires s'.db.records == s.db.records[r.id := r] && s'.live == s.live
    requires forall p | p in s'.requests && p != q :: p in s.requests && s'.requests[p] == s.requests[p]
    requires q in s'.requests ==> RequestFits(s', s'.requests[q])
    requires Counted(s', r.id)
    ensures Accounted(s', r.id)
  {
    forall p | p in s'.requests && s'.requests[p].t.id == r.id ensures RequestFits(s', s'.requests[p]) {
      if p != q {
        assert InFlight(s.created, s.db.records, s.db.expiring, s.requests[p]);
        assert !HasCopy(s.requests[p], r.id);
      }
    }
  }

  lemma CountAnyRequestStore(s: System, q: nat, a: ApiStep, id: TaskId)
    requires Shaped(s) && Serial(s, id) && Accounted(s, id) && ApiEnabled(s, q, a)
    requires a.CancelStore? || a.AdminStore? || a.AdminStoreAgain?
    ensures Accounted(ApiNext(s, q, a), id)
  {
    var t, s' := s.requests[q].t, ApiNext(s, q, a);
    assert InFlight(s.created, s.db.records, s.db.expiring, s.requests[q]);
    assert t.id == id ==> RequestFits(s, s.requests[q]);
    if t.id == id {
      CountRequestStore(s, q, t, s');
    } else {
      CountApart(s, s', id);
    }
  }

  lemma CountSubmit(s: System, q: nat, t: Record, id: TaskId)
    requires Shaped(s) && Accounted(s, id) && ApiEnabled(s, q, Submit(t))
    ensures Accounted(ApiNext(s, q, Submit(t)), id)
  {
    var s' := ApiNext(s, q, Submit(t));
    if t.id != id {
      CountApart(s, s', id);
    } else {
      NoCopies(s, id);
    }
  }

  /** Nobody holds a copy of a task that was not accepted yet. */
  lemma NoCopies(s: System, id: TaskId)
    requires Shaped(s) && id !in s.created
    ensures forall tok | tok in s.live :: !HoldsCopy(s.live[tok], id)
    ensures forall q | q in s.requests && s.requests[q].t.id == id :: s.requests[q].Creating?
  {
    forall tok | tok in s.live ensures !HoldsCopy(s.live[tok], id) {
      assert MayHold(s, tok, s.live[tok]);
    }
    forall q | q in s.requests && s.requests[q].t.id == id ensures s.requests[q].Creating? {
      assert InFlight(s.created, s.db.records, s.db.expiring, s.requests[q]);
    }
  }

  lemma CountAccepted(s: System, q: nat, a: ApiStep, id: TaskId)
    requires Shaped(s) && Accounted(s, id) && ApiEnabled(s, q, a) && (a.SubmitAppend? || a.SubmitSchedule?)
    ensures Accounted(ApiNext(s, q, a), id)
  {
    var s', t := ApiNext(s, q, a), s.requests[q].t;
    assert InFlight(s.created, s.db.records, s.db.expiring, s.requests[q]);
    if t.id != id {
      CountApart(s, s', id);
    } else {
      NoCopies(s, id);
      assert RequestFits(s, s.requests[q]);
    }
  }

  lemma CountRequestLoad(s: System, q: nat, a: ApiStep, id: TaskId)
    requires Shaped(s) && Accounted(s, id) && ApiEnabled(s, q, a) && (a.CancelLoad? || a.AdminLoad?)
    ensures Accounted(ApiNext(s, q, a), id)
  {
    match a
    case CancelLoad(i, now) =>
      assert s.db.records[i].id == i;
      CountServe(s, q, Canceling(Moved(s.db.records[i], Canceled, now)), id);
    case AdminLoad(i, now) =>
      assert s.db.records[i].id == i;
      CountServe(s, q, AdminLoaded(Requeued(s.db.records[i], now)), id);
  }

  /** Reading a record for a request. */
  lemma CountServe(s: System, q: nat, r: Request, id: TaskId)
    requires Accounted(s, id) && (r.t.id == id ==> RequestFits(s, r))
    ensures Accounted(s.Serve(s.db, q, r), id)
  {
  }

  lemma CountApi(s: System, q: nat, a: ApiStep, id: TaskId)
    requires Shaped(s) && Serial(s, id) && Accounted(s, id) && ApiEnabled(s, q, a)
    ensures Accounted(ApiNext(s, q, a), id)
  {
    match a
    case Submit(t) => CountSubmit(s, q, t, id);
    case SubmitAppend => CountAccepted(s, q, a, id);
    case SubmitSchedule => CountAccepted(s, q, a, id);
    case CancelLoad(_, _) => CountRequestLoad(s, q, a, id);
    case AdminLoad(_, _) => CountRequestLoad(s, q, a, id);
    case CancelStore => CountAnyRequestStore(s, q, a, id);
    case AdminStore => CountAnyRequestStore(s, q, a, id);
    case AdminStoreAgain => CountAnyRequestStore(s, q, a, id);
    case AdminAppend => CountApart(s, ApiNext(s, q, a), id);
    case Drop => CountApart(s, ApiNext(s, q, a), id);
  }

  // ---------------------------------------------------------------------------
  // The scheduler and expiry.
  // ---------------------------------------------------------------------------

  /** The scheduler turns a deferred record Pending; copies that are still to be stored allow it. */
  lemma CountActivate(s: System, i: TaskId, now: Time, id: TaskId)
    requires Shaped(s) && Accounted(s, id) && i in s.created
    ensures Accounted(s.(db := Activated(s.db, i, s.retention, now)), id)
  {
    var s' := s.(db := Activated(s.db, i, s.retention, now));
    if i == id && id in s.db.records && s.db.records[id].state.IsDeferred() {
      forall tok | tok in s'.live && HoldsCopy(s'.live[tok], id) ensures CopyFits(s', s'.live[tok]) {
        assert CopyFits(s, s.live[tok]);
      }
      forall q | q in s'.requests && s'.requests[q].t.id == id ensures RequestFits(s', s'.requests[q]) {
        assert RequestFits(s, s.requests[q]);
      }
    } else {
      CountApart(s, s', id);
    }
  }

  /** Only final records expire, and no copy still to be stored relies on one. */
  lemma CountExpire(s: System, i: TaskId, id: TaskId)
    requires Shaped(s) && Accounted(s, id) && i in s.db.expiring
    ensures Accounted(s.(db := s.db.Delete(i)), id)
  {
    var s' := s.(db := s.db.Delete(i));
    if i != id {
      CountApart(s, s', id);
    } else {
      forall tok | tok in s'.live && HoldsCopy(s'.live[tok], id) ensures CopyFits(s', s'.live[tok]) {
        assert CopyFits(s, s.live[tok]);
      }
      forall q | q in s'.requests && s'.requests[q].t.id == id ensures RequestFits(s', s'.requests[q]) {
        assert RequestFits(s, s.requests[q]);
      }
    }
  }

  lemma CountRead(s: System, consumer: string, now: Time, id: TaskId)
    requires Accounted(s, id) && s.db.FirstReady().Some?
    ensures Accounted(Next(s, Read(consumer, now)), id)
  {
    var p := s.db.FirstReady().value;
    var s' := Next(s, Read(consumer, now));
    ApartPhase(s, s', Msg(p, s.db.streams.Of(p).next), id);
    CountApart(s, s', id);
  }

  lemma CountCrash(s: System, tok: Token, id: TaskId)
    requires Accounted(s, id) && tok in s.live
    ensures Accounted(Next(s, Crash(tok)), id)
  {
    ApartPhase(s, Next(s, Crash(tok)), tok, id);
    CountApart(s, Next(s, Crash(tok)), id);
  }

  lemma StaysAccounted(s: System, e: Event, id: TaskId)
    requires Shaped(s) && Serial(s, id) && Accounted(s, id) && Enabled(s, e)
    ensures Accounted(Next(s, e), id)
  {
    match e
    case Worker(tok, w) => CountWorker(s, tok, w, id);
    case Recovery(tok, r) => CountRecovery(s, tok, r, id);
    case DlqRetry(tok, d) => CountDlq(s, tok, d, id);
    case Api(q, a) => CountApi(s, q, a, id);
    case Activate(i, now) => CountActivate(s, i, now, id);
    case Expire(i) => CountExpire(s, i, id);
    case Read(consumer, now) => CountRead(s, consumer, now, id);
    case Crash(tok) => CountCrash(s, tok, id);
  }

  // ---------------------------------------------------------------------------
  // Whole runs.
  // ---------------------------------------------------------------------------

  /** A run from the start of the system, all of whose states before the i-th are serial for the task. */
  ghost predicate IsSerialRun(states: seq<System>, events: seq<Event>, i: nat, id: TaskId) {
    && IsRun(states, events) && i <= |events|
    && states[0] == Start(states[0].retention, states[0].minIdle)
    && forall k | 0 <= k < i :: Serial(states[k], id)
  }

  lemma StartAccounted(retention: bool, minIdle: Time, id: TaskId)
    ensures Accounted(Start(retention, minIdle), id)
  {
  }

  lemma {:induction false} SerialInvariant(states: seq<System>, events: seq<Event>, i: nat, id: TaskId)
    requires IsSerialRun(states, events, i, id)
    ensures Shaped(states[i]) && Accounted(states[i], id)
  {
    if i == 0 {
      StartShaped(states[0].retention, states[0].minIdle);
      StartAccounted(states[0].retention, states[0].minIdle, id);
    } else {
      SerialInvariant(states, events, i - 1, id);
      Keeps(states[i - 1], events[i - 1]);
      StaysAccounted(states[i - 1], events[i - 1], id);
    }
  }

  /** As long as a run is serial for a task, whatever the processes that work on other tasks do: the
      stored attempts are the handler starts since the last requeue, and these never exceed MaxRetries
      plus the recoveries since then; a task that waits for its next start is strictly below. */
  lemma ExecutionBound(states: seq<System>, events: seq<Event>, i: nat, id: TaskId)
    requires IsSerialRun(states, events, i, id) && id in states[i].created
    ensures Starts(states[i], id) <= Limit(states[i], id)
    ensures id in states[i].db.records ==> states[i].db.records[id].attempts == Starts(states[i], id)
    ensures id in states[i].db.records && Waiting(states[i].db.records[id].state) ==>
      Starts(states[i], id) < Limit(states[i], id)
  {
    SerialInvariant(states, events, i, id);
    assert Counted(states[i], id);
  }
}
