/** Who can take a task out of a terminal state, and what cancellation guarantees. */
module Terminal {
  import opened Tasks
  import opened Store
  import opened Protocol
  import opened Shape
  import opened Execution
  import N = NoLoss
  import D = Dlq
  import F = Refinement
  import C = Scenarios

  /** The steps that store Pending over whatever the record says: orphan recovery and DLQ retry. */
  predicate Revives(s: System, e: Event, id: TaskId) {
    || (e.Recovery? && e.r.StoreOrphan? && e.tok in s.live && s.live[e.tok].Orphan? && s.live[e.tok].t.id == id)
    || (e.DlqRetry? && e.d.Restore? && e.tok in s.live && s.live[e.tok].Picked? && s.live[e.tok].t.id == id)
  }

  predicate Changes(db: Database, db': Database, id: TaskId) {
    id in db.records && (id !in db'.records || db'.records[id] != db.records[id])
  }

  predicate Ended(s: System, id: TaskId) {
    && id in s.created && id in s.db.records
    && (s.db.records[id].state.Completed? || s.db.records[id].state.Canceled?)
  }

  /** The step stores Running over the stored record, although it does not revive the task. */
  ghost predicate Overwrites(s: System, e: Event, id: TaskId) {
    && Enabled(s, e) && !Revives(s, e, id) && Changes(s.db, Next(s, e).db, id)
    && id in Next(s, e).db.records && Next(s, e).db.records[id].state.Running?
  }

  // ---------------------------------------------------------------------------
  // Terminal records in serial runs.
  // ---------------------------------------------------------------------------

  predicate SameRecord(s: System, s': System, id: TaskId) {
    && (id in s'.db.records <==> id in s.db.records)
    && (id in s.db.records ==> s'.db.records[id] == s.db.records[id])
    && Starts(s', id) == Starts(s, id)
  }

  /** A worker that stores anything holds a copy for storing. */
  lemma WorkerTouches(s: System, tok: Token, w: WorkerStep, id: TaskId)
    requires WorkerEnabled(s, tok, w)
    requires w.Begin? || w.Succeed? || w.FailRetry? || w.StoreAgain? || w.FailFinal?
    ensures SameRecord(s, WorkerNext(s, tok, w), id)
      || (HoldsCopy(s.live[tok], id) && !s.live[tok].Orphan? && !s.live[tok].Picked?)
  {
  }

  lemma WorkerStoresNothing(s: System, tok: Token, w: WorkerStep, id: TaskId)
    requires WorkerEnabled(s, tok, w)
    requires w.Load? || w.AckMissing? || w.Reschedule? || w.Entomb? || w.IndexDead? || w.Ack?
    ensures SameRecord(s, WorkerNext(s, tok, w), id)
  {
  }

  lemma WorkerSpares(s: System, tok: Token, w: WorkerStep, id: TaskId)
    requires WorkerEnabled(s, tok, w)
    requires !HoldsCopy(s.live[tok], id) || s.live[tok].Orphan? || s.live[tok].Picked?
    ensures SameRecord(s, WorkerNext(s, tok, w), id)
  {
    match w
    case Load => WorkerStoresNothing(s, tok, w, id);
    case AckMissing => WorkerStoresNothing(s, tok, w, id);
    case Reschedule => WorkerStoresNothing(s, tok, w, id);
    case Entomb(_) => WorkerStoresNothing(s, tok, w, id);
    case IndexDead => WorkerStoresNothing(s, tok, w, id);
    case Ack => WorkerStoresNothing(s, tok, w, id);
    case Begin(_, _) => WorkerTouches(s, tok, w, id);
    case Succeed(_) => WorkerTouches(s, tok, w, id);
    case FailRetry(_, _, _) => WorkerTouches(s, tok, w, id);
    case StoreAgain => WorkerTouches(s, tok, w, id);
    case FailFinal(_, _) => WorkerTouches(s, tok, w, id);
  }

  lemma RequestSpares(s: System, q: nat, a: ApiStep, id: TaskId)
    requires ApiEnabled(s, q, a) && id in s.created && (q in s.requests ==> !HasCopy(s.requests[q], id))
    ensures SameRecord(s, ApiNext(s, q, a), id)
  {
  }

  lemma RecoverySpares(s: System, tok: Token, r: RecoveryStep, id: TaskId)
    requires RecoveryEnabled(s, tok, r) && !Revives(s, Recovery(tok, r), id)
    ensures SameRecord(s, RecoveryNext(s, tok, r), id)
  {
  }

  lemma DlqSpares(s: System, tok: Token, d: DlqStep, id: TaskId)
    requires DlqEnabled(s, tok, d) && !Revives(s, DlqRetry(tok, d), id)
    ensures SameRecord(s, DlqNext(s, tok, d), id)
  {
  }

  /** No worker and no request still wants to store the record of the task. */
  ghost predicate NoStorers(s: System, id: TaskId) {
    && (forall tok | tok in s.live && HoldsCopy(s.live[tok], id) :: s.live[tok].Orphan? || s.live[tok].Picked?)
    && (forall q | q in s.requests :: !HasCopy(s.requests[q], id))
  }

  lemma EndedHasNoStorers(s: System, id: TaskId)
    requires Accounted(s, id) && Ended(s, id)
    ensures NoStorers(s, id)
  {
    forall tok | tok in s.live && HoldsCopy(s.live[tok], id) ensures s.live[tok].Orphan? || s.live[tok].Picked? {
      assert CopyFits(s, s.live[tok]);
    }
    forall q | q in s.requests ensures !HasCopy(s.requests[q], id) {
      assert s.requests[q].t.id == id ==> RequestFits(s, s.requests[q]);
    }
  }

  lemma EventSpares(s: System, e: Event, id: TaskId)
    requires Shaped(s) && id in s.created && Enabled(s, e) && !Revives(s, e, id) && e != Expire(id)
    requires if e.Api? then NoStorers(s, id) else NoStarters(s, id)
    requires id in s.db.records ==> !s.db.records[id].state.IsDeferred()
    ensures SameRecord(s, Next(s, e), id)
  {
    match e
    case Read(_, _) =>
    case Worker(tok, w) => WorkerSpares(s, tok, w, id);
    case Recovery(tok, r) => RecoverySpares(s, tok, r, id);
    case DlqRetry(tok, d) => DlqSpares(s, tok, d, id);
    case Crash(_) =>
    case Api(q, a) => RequestSpares(s, q, a, id);
    case Activate(i, now) =>
    case Expire(_) =>
  }

  /** In a run that is serial for the task, the steps that change a stored Completed or Canceled
      record are exactly orphan recovery, a dead-letter retry, and its own expiry. */
  lemma TerminalRecordsStay(states: seq<System>, events: seq<Event>, i: nat, id: TaskId)
    requires IsSerialRun(states, events, i, id) && i < |events| && Ended(states[i], id)
    ensures Changes(states[i].db, states[i + 1].db, id) <==>
      Revives(states[i], events[i], id) || events[i] == Expire(id)
  {
    SerialInvariant(states, events, i, id);
    var s, e := states[i], events[i];
    EndedHasNoStorers(s, id);
    if Revives(s, e, id) {
      RevivalChanges(s, e, id);
    } else if e != Expire(id) {
      EventSpares(s, e, id);
    }
  }

  lemma RevivalChanges(s: System, e: Event, id: TaskId)
    requires Shaped(s) && Enabled(s, e) && Revives(s, e, id)
    ensures id in Next(s, e).db.records && Next(s, e).db.records[id].state.Pending?
  {
    assert MayHold(s, e.tok, s.live[e.tok]);
    RevivalStores(s, e, id);
  }

  lemma RevivalStores(s: System, e: Event, id: TaskId)
    requires Enabled(s, e) && Revives(s, e, id) && s.live[e.tok].t.state.Pending?
    ensures id in Next(s, e).db.records && Next(s, e).db.records[id].state.Pending?
  {
  }

  // ---------------------------------------------------------------------------
  // Cancellation: while nothing revives the task.
  // ---------------------------------------------------------------------------

  predicate WillStorePending(r: Request, id: TaskId) {
    (r.AdminLoaded? || r.AdminStored?) && r.t.id == id
  }

  /** No worker and no administrator holds a copy it may still start or store. */
  ghost predicate NoStarters(s: System, id: TaskId) {
    && (forall tok | tok in s.live && HoldsCopy(s.live[tok], id) :: s.live[tok].Orphan? || s.live[tok].Picked?)
    && (forall q | q in s.requests :: !WillStorePending(s.requests[q], id))
  }

  /** Canceled, perhaps expired since, and nobody about to start or store an older copy. */
  ghost predicate Over(s: System, id: TaskId) {
    id in s.created && (id in s.db.records ==> s.db.records[id].state.Canceled?) && NoStarters(s, id)
  }

  /** In a run that is serial for the task, a canceled record means just that. */
  lemma CanceledIsOver(states: seq<System>, events: seq<Event>, i: nat, id: TaskId)
    requires IsSerialRun(states, events, i, id) && id in states[i].created
    requires id in states[i].db.records && states[i].db.records[id].state.Canceled?
    ensures Over(states[i], id) && NoStorers(states[i], id)
  {
    SerialInvariant(states, events, i, id);
    EndedHasNoStorers(states[i], id);
  }

  /** A holder that takes up a copy has just read the record, which is canceled, or is recovery. */
  lemma WorkerTakesNoCopy(s: System, tok: Token, w: WorkerStep, id: TaskId)
    requires WorkerEnabled(s, tok, w) && Over(s, id) && s.db.Keyed()
    ensures var s' := WorkerNext(s, tok, w);
            tok in s'.live && HoldsCopy(s'.live[tok], id) ==> s'.live[tok].Orphan? || s'.live[tok].Picked?
  {
  }

  lemma HolderTakesNoCopy(s: System, s': System, tok: Token, id: TaskId)
    requires NoStarters(s, id) && s'.requests == s.requests
    requires forall x | x != tok && x in s'.live :: x in s.live && s'.live[x] == s.live[x]
    requires tok in s'.live && HoldsCopy(s'.live[tok], id) ==> s'.live[tok].Orphan? || s'.live[tok].Picked?
    ensures NoStarters(s', id)
  {
  }

  /** No step makes a copy of a canceled record that a worker or an administrator will store. */
  lemma StartersStayAway(s: System, e: Event, id: TaskId)
    requires Shaped(s) && Enabled(s, e) && Over(s, id)
    ensures NoStarters(Next(s, e), id)
  {
    match e
    case Read(_, _) =>
    case Worker(tok, w) =>
      WorkerLocal(s, tok, w);
      WorkerTakesNoCopy(s, tok, w, id);
      HolderTakesNoCopy(s, Next(s, e), tok, id);
    case Recovery(tok, r) =>
      RecoveryLocal(s, tok, r);
      RecoveryTakesNoCopy(s, tok, r, id);
      HolderTakesNoCopy(s, Next(s, e), tok, id);
    case DlqRetry(tok, d) =>
      DlqLocal(s, tok, d);
      DlqTakesNoCopy(s, tok, d, id);
      HolderTakesNoCopy(s, Next(s, e), tok, id);
    case Crash(_) =>
    case Api(q, a) => RequestTakesNoCopy(s, q, a, id);
    case Activate(_, _) =>
    case Expire(_) =>
  }

  lemma RecoveryTakesNoCopy(s: System, tok: Token, r: RecoveryStep, id: TaskId)
    requires RecoveryEnabled(s, tok, r)
    ensures var s' := RecoveryNext(s, tok, r); tok in s'.live && HoldsCopy(s'.live[tok], id) ==> s'.live[tok].Orphan?
  {
  }

  lemma DlqTakesNoCopy(s: System, tok: Token, d: DlqStep, id: TaskId)
    requires DlqEnabled(s, tok, d)
    ensures var s' := DlqNext(s, tok, d); tok in s'.live && HoldsCopy(s'.live[tok], id) ==> s'.live[tok].Picked?
  {
  }

  lemma RequestTakesNoCopy(s: System, q: nat, a: ApiStep, id: TaskId)
    requires Shaped(s) && ApiEnabled(s, q, a) && Over(s, id)
    ensures NoStarters(ApiNext(s, q, a), id)
  {
  }

  lemma StaysOver(s: System, e: Event, id: TaskId)
    requires Shaped(s) && Enabled(s, e) && Over(s, id) && !Revives(s, e, id)
    ensures Over(Next(s, e), id) && Starts(Next(s, e), id) == Starts(s, id)
  {
    StartersStayAway(s, e, id);
    CreatedStays(s, e, id);
    if e.Api? {
      RequestKeepsOver(s, e.q, e.a, id);
    } else if e != Expire(id) {
      EventSpares(s, e, id);
    }
  }

  /** At most another cancellation is stored. */
  lemma RequestKeepsOver(s: System, q: nat, a: ApiStep, id: TaskId)
    requires Shaped(s) && ApiEnabled(s, q, a) && Over(s, id)
    ensures var s' := ApiNext(s, q, a);
            (id in s'.db.records ==> s'.db.records[id].state.Canceled?) && Starts(s', id) == Starts(s, id)
  {
    if q in s.requests && HasCopy(s.requests[q], id) {
      assert InFlight(s.created, s.db.records, s.db.expiring, s.requests[q]);
    } else {
      RequestSpares(s, q, a, id);
    }
  }

  lemma ActivationSkips(s: System, id: TaskId, now: Time)
    requires Enabled(s, Activate(id, now)) && Over(s, id)
    ensures Next(s, Activate(id, now)).db.streams == s.db.streams
  {
  }

  /** Although Cancel leaves the scheduled entry behind, a canceled task is, for as long as nothing
      revives it, never put on a stream by a scheduler pass, and its handler never starts again. */
  lemma {:induction false} CanceledStaysCanceled(states: seq<System>, events: seq<Event>, i: nat, j: nat, id: TaskId)
    requires IsRun(states, events) && states[0] == Start(states[0].retention, states[0].minIdle)
    requires i <= j <= |events| && Over(states[i], id)
    requires forall k | i <= k < j :: !Revives(states[k], events[k], id)
    ensures Over(states[j], id) && Starts(states[j], id) == Starts(states[i], id)
    ensures j < |events| && events[j].Activate? && events[j].id == id ==>
      states[j + 1].db.streams == states[j].db.streams
    decreases j
  {
    if i < j {
      CanceledStaysCanceled(states, events, i, j - 1, id);
      N.RunInvariant(states, events, j - 1);
      StaysOver(states[j - 1], events[j - 1], id);
    }
    if j < |events| && events[j].Activate? && events[j].id == id {
      ActivationSkips(states[j], id, events[j].now);
    }
  }

  // ---------------------------------------------------------------------------
  // Cancellation: exactly when it is for good.
  // ---------------------------------------------------------------------------

  ghost predicate AllAcknowledged(streams: Streams, id: TaskId) {
    forall p: Priority, m | 0 <= m < |streams.Of(p).log| && streams.Of(p).log[m] == id :: m in streams.Of(p).acked
  }

  ghost predicate NoEntry(dlq: seq<Option<Record>>, id: TaskId) {
    forall d | 0 <= d < |dlq| && dlq[d].Some? :: dlq[d].value.id != id
  }

  predicate AdminRequest(r: Request) {
    r.AdminLoaded? || r.AdminStored? || r.AdminStoredTwice?
  }

  /** Canceled, every message of the task acknowledged, no dead-letter entry of it, and no
      administrator retrying it. */
  ghost predicate Retired(s: System, id: TaskId) {
    && id in s.created && (id in s.db.records ==> s.db.records[id].state.Canceled?)
    && AllAcknowledged(s.db.streams, id) && NoEntry(s.db.dlq, id)
    && forall q | q in s.requests && AdminRequest(s.requests[q]) :: s.requests[q].t.id != id
  }

  ghost predicate StillRetired(s: System, s': System, id: TaskId) {
    Retired(s', id) && Starts(s', id) == Starts(s, id)
  }

  /** A holder's message is not acknowledged, so it is not one of the task. */
  lemma NobodyHolds(s: System, tok: Token, id: TaskId)
    requires Shaped(s) && Retired(s, id) && tok in s.live
    ensures tok.Msg? ==> s.db.streams.Of(tok.p).log[tok.m] != id
    ensures HasTask(s.live[tok]) && !s.live[tok].Removed? ==> s.live[tok].t.id != id
  {
    assert MayHold(s, tok, s.live[tok]);
    if tok.Msg? {
      assert s.db.streams.Of(tok.p).Valid();
    }
  }

  lemma WorkerLetsBe(s: System, tok: Token, w: WorkerStep, id: TaskId)
    requires Shaped(s) && Retired(s, id) && WorkerEnabled(s, tok, w)
    ensures StillRetired(s, WorkerNext(s, tok, w), id)
  {
    NobodyHolds(s, tok, id);
    WorkerSpares(s, tok, w, id);
    WorkerAddsNothing(s, tok, w, id);
  }

  lemma WorkerAddsNothing(s: System, tok: Token, w: WorkerStep, id: TaskId)
    requires WorkerEnabled(s, tok, w) && (HasTask(s.live[tok]) ==> s.live[tok].t.id != id)
    requires AllAcknowledged(s.db.streams, id) && NoEntry(s.db.dlq, id)
    ensures var s' := WorkerNext(s, tok, w);
            AllAcknowledged(s'.db.streams, id) && NoEntry(s'.db.dlq, id) && s'.created == s.created
              && s'.requests == s.requests
  {
  }

  lemma RecoveryLetsBe(s: System, tok: Token, r: RecoveryStep, id: TaskId)
    requires Shaped(s) && Retired(s, id) && RecoveryEnabled(s, tok, r)
    ensures StillRetired(s, RecoveryNext(s, tok, r), id)
  {
    if !r.Claim? {
      NobodyHolds(s, tok, id);
    }
    RecoverySpares(s, tok, r, id);
    RecoveryAddsNothing(s, tok, r, id);
  }

  lemma RecoveryAddsNothing(s: System, tok: Token, r: RecoveryStep, id: TaskId)
    requires RecoveryEnabled(s, tok, r) && (tok in s.live && HasTask(s.live[tok]) ==> s.live[tok].t.id != id)
    requires AllAcknowledged(s.db.streams, id) && NoEntry(s.db.dlq, id)
    ensures var s' := RecoveryNext(s, tok, r);
            AllAcknowledged(s'.db.streams, id) && NoEntry(s'.db.dlq, id) && s'.created == s.created
              && s'.requests == s.requests
  {
  }

  lemma DlqLetsBe(s: System, tok: Token, d: DlqStep, id: TaskId)
    requires Shaped(s) && Retired(s, id) && DlqEnabled(s, tok, d)
    ensures StillRetired(s, DlqNext(s, tok, d), id)
  {
    if !d.Pick? {
      NobodyHolds(s, tok, id);
    }
  }

  lemma RequestLetsBe(s: System, q: nat, a: ApiStep, id: TaskId)
    requires Shaped(s) && Retired(s, id) && ApiEnabled(s, q, a)
    ensures StillRetired(s, ApiNext(s, q, a), id)
  {
    assert q in s.requests ==> InFlight(s.created, s.db.records, s.db.expiring, s.requests[q]);
    RequestAddsNothing(s, q, a, id);
  }

  lemma RequestAddsNothing(s: System, q: nat, a: ApiStep, id: TaskId)
    requires Retired(s, id) && ApiEnabled(s, q, a)
    requires q in s.requests ==>
      var r := s.requests[q]; if r.Canceling? then r.t.state.Canceled? else r.t.id != id
    requires a.Submit? ==> a.t.id != id
    requires a.AdminLoad? ==> s.db.records[a.id].id == a.id
    ensures StillRetired(s, ApiNext(s, q, a), id)
  {
  }

  lemma StaysRetired(s: System, e: Event, id: TaskId)
    requires Shaped(s) && Retired(s, id) && Enabled(s, e)
    ensures StillRetired(s, Next(s, e), id)
  {
    match e
    case Read(_, _) =>
    case Worker(tok, w) => WorkerLetsBe(s, tok, w, id);
    case Recovery(tok, r) => RecoveryLetsBe(s, tok, r, id);
    case DlqRetry(tok, d) => DlqLetsBe(s, tok, d, id);
    case Crash(_) =>
    case Api(q, a) => RequestLetsBe(s, q, a, id);
    case Activate(_, _) =>
    case Expire(_) =>
  }

  lemma {:induction false} RetiredAfter(s: System, events: seq<Event>, s': System, id: TaskId)
    requires Shaped(s) && Retired(s, id) && Leads(s, events, s')
    ensures StillRetired(s, s', id)
    decreases |events|
  {
    if events != [] {
      Keeps(s, events[0]);
      StaysRetired(s, events[0], id);
      RetiredAfter(Next(s, events[0]), events[1..], s', id);
    }
  }

  // Whoever is not retired can come back.

  predicate Alive(s: System, id: TaskId) {
    id in s.db.records && s.db.records[id].state.Pending?
  }

  /** Reading on hands out every message in the end. */
  lemma {:induction false} DeliverRuns(s: System, p: Priority, m: MessageId) returns (events: seq<Event>, s': System)
    requires Shaped(s) && m < |s.db.streams.Of(p).log|
    ensures Leads(s, events, s') && Shaped(s') && s'.created == s.created
    ensures s'.db == s.db.(streams := s'.db.streams) && s'.minIdle == s.minIdle
    ensures var st, st' := s.db.streams.Of(p), s'.db.streams.Of(p);
            st'.log == st.log && st'.acked == st.acked && m < st'.next
    decreases m - s.db.streams.Of(p).next
  {
    if m < s.db.streams.Of(p).next {
      events, s' := [], s;
    } else {
      var e := Read("", 0);
      ReadAll(s, p);
      Keeps(s, e);
      var rest;
      rest, s' := DeliverRuns(Next(s, e), p, m);
      OneMore(s, e, rest, Next(s, e), s');
      events := [e] + rest;
    }
  }

  lemma ReadAll(s: System, p: Priority)
    requires s.db.streams.Of(p).next < |s.db.streams.Of(p).log|
    ensures Enabled(s, Read("", 0))
    ensures var s' := Next(s, Read("", 0));
            var st, st' := s.db.streams.Of(p), s'.db.streams.Of(p);
            && st'.log == st.log && st'.acked == st.acked && st'.next == st.next + 1
            && s'.db == s.db.(streams := s'.db.streams) && s'.created == s.created && s'.minIdle == s.minIdle
  {
  }

  lemma CrashRuns(s: System, tok: Token) returns (events: seq<Event>, s': System)
    requires Shaped(s)
    ensures Leads(s, events, s') && Shaped(s') && s' == s.Release(s.db, tok)
  {
    ReleaseShaped(s, tok);
    s' := s.Release(s.db, tok);
    if tok in s.live {
      OneMore(s, Crash(tok), [], s', s');
      events := [Crash(tok)];
    } else {
      assert s.live - {tok} == s.live;
      events := [];
    }
  }

  /** Recovery of a pending message nobody holds, up to the store that revives the task. */
  lemma RecoverRuns(s: System, tok: Token) returns (events: seq<Event>, s': System)
    requires Shaped(s) && tok.Msg? && tok !in s.live && tok.m in s.db.streams.Of(tok.p).pel
    requires tok.m < |s.db.streams.Of(tok.p).log| && s.db.streams.Of(tok.p).log[tok.m] in s.db.records
    ensures Leads(s, events, s') && Alive(s', s.db.streams.Of(tok.p).log[tok.m])
  {
    var now := s.db.streams.Of(tok.p).pel[tok.m].since + s.minIdle;
    var id := s.db.streams.Of(tok.p).log[tok.m];
    assert s.db.records[id].id == id;
    var a, s1 := ClaimRuns(s, tok, now);
    var b;
    b, s' := StoreOrphanRuns(s1, tok);
    F.Joined(s, a, s1, b, s');
    events := a + b;
  }

  lemma ClaimRuns(s: System, tok: Token, now: Time) returns (events: seq<Event>, s': System)
    requires RecoveryEnabled(s, tok, Claim("", now)) && s.db.streams.Of(tok.p).log[tok.m] in s.db.records
    ensures Leads(s, events, s') && RecoveryEnabled(s', tok, StoreOrphan)
    ensures s'.live[tok].t == Prepared(s.db.records[s.db.streams.Of(tok.p).log[tok.m]], now)
  {
    var e, f := Recovery(tok, Claim("", now)), Recovery(tok, LoadOrphan(now));
    var s1 := Next(s, e);
    ClaimStep(s, tok, now);
    LoadOrphanHolds(s1, tok, now);
    s' := Next(s1, f);
    F.TwoSteps(s, e, f, s1, s');
    events := [e, f];
  }

  lemma StoreOrphanRuns(s: System, tok: Token) returns (events: seq<Event>, s': System)
    requires RecoveryEnabled(s, tok, StoreOrphan) && s.live[tok].t.state.Pending?
    ensures Leads(s, events, s') && Alive(s', s.live[tok].t.id)
  {
    var e := Recovery(tok, StoreOrphan);
    s' := Next(s, e);
    F.OneStep(s, e, s');
    events := [e];
  }

  lemma ClaimStep(s: System, tok: Token, now: Time)
    requires RecoveryEnabled(s, tok, Claim("", now))
    ensures var s1 := Next(s, Recovery(tok, Claim("", now)));
            && s1.db == s.db.(streams := s1.db.streams) && RecoveryEnabled(s1, tok, LoadOrphan(now))
            && s1.db.streams.Of(tok.p).log == s.db.streams.Of(tok.p).log
  {
  }

  lemma OpenMessageRevives(s: System, p: Priority, m: MessageId) returns (events: seq<Event>, s': System)
    requires Shaped(s) && s.db.streams.Of(p).Open(m) && s.db.streams.Of(p).log[m] in s.db.records
    ensures Leads(s, events, s') && Alive(s', s.db.streams.Of(p).log[m])
  {
    var a, s1 := DeliverRuns(s, p, m);
    var b, s2 := CrashRuns(s1, Msg(p, m));
    assert s2.db.streams.Of(p).Valid();
    var c;
    c, s' := RecoverRuns(s2, Msg(p, m));
    F.Joined(s, a, s1, b, s2);
    F.Joined(s, a + b, s2, c, s');
    events := a + b + c;
  }

  lemma EntryRevives(s: System, id: TaskId) returns (events: seq<Event>, s': System)
    requires Shaped(s) && D.FirstFrom(s.db.dlq, id, 0).Some?
    ensures Leads(s, events, s') && Alive(s', id)
  {
    var tok := Dead(D.FirstFrom(s.db.dlq, id, 0).value);
    var a, s1 := CrashRuns(s, tok);
    assert s.db.dlq[tok.d].value.state == DeadLetter;
    var b;
    b, s' := F.DlqRetryRuns(s1, id, 0);
    F.Joined(s, a, s1, b, s');
    events := a + b;
  }

  lemma AdminRevives(s: System, q: nat, id: TaskId) returns (events: seq<Event>, s': System)
    requires Shaped(s) && q in s.requests && (s.requests[q].AdminLoaded? || s.requests[q].AdminStored?)
    requires s.requests[q].t.id == id && NotDeferred(s.db, id)
    ensures Leads(s, events, s') && Alive(s', id)
  {
    assert InFlight(s.created, s.db.records, s.db.expiring, s.requests[q]);
    var e := Api(q, if s.requests[q].AdminLoaded? then AdminStore else AdminStoreAgain);
    s' := Next(s, e);
    OneMore(s, e, [], s', s');
    events := [e];
  }

  /** The administrator's last step appends a message. */
  lemma AdminAppendRevives(s: System, q: nat, id: TaskId) returns (events: seq<Event>, s': System)
    requires Shaped(s) && q in s.requests && s.requests[q].AdminStoredTwice? && s.requests[q].t.id == id
    requires id in s.db.records
    ensures Leads(s, events, s') && Alive(s', id)
  {
    var e, p := Api(q, AdminAppend), s.requests[q].t.priority;
    assert s.db.streams.Of(p).Valid();
    var s1 := Next(s, e);
    Keeps(s, e);
    var rest;
    rest, s' := OpenMessageRevives(s1, p, |s.db.streams.Of(p).log|);
    OneMore(s, e, rest, s1, s');
    events := [e] + rest;
  }

  /** A canceled task of which a message is unacknowledged or a dead-letter entry is left, or which
      an administrator is retrying, can come back. */
  lemma NotRetiredComesBack(s: System, id: TaskId) returns (events: seq<Event>, s': System)
    requires Shaped(s) && id in s.created && id in s.db.records && s.db.records[id].state.Canceled? && !Retired(s, id)
    ensures Leads(s, events, s') && Alive(s', id)
  {
    if !AllAcknowledged(s.db.streams, id) {
      var p: Priority, m :| 0 <= m < |s.db.streams.Of(p).log| && s.db.streams.Of(p).log[m] == id
        && m !in s.db.streams.Of(p).acked;
      events, s' := OpenMessageRevives(s, p, m);
    } else if !NoEntry(s.db.dlq, id) {
      var d :| 0 <= d < |s.db.dlq| && s.db.dlq[d].Some? && s.db.dlq[d].value.id == id;
      assert D.IsEntry(s.db.dlq, d);
      events, s' := EntryRevives(s, id);
    } else {
      var q :| q in s.requests && AdminRequest(s.requests[q]) && s.requests[q].t.id == id;
      if s.requests[q].AdminStoredTwice? {
        events, s' := AdminAppendRevives(s, q, id);
      } else {
        events, s' := AdminRevives(s, q, id);
      }
    }
  }

  /** The task's record may become Pending again, by some continuation of the run. */
  ghost predicate CanComeBack(s: System, id: TaskId) {
    exists events: seq<Event>, s': System :: Leads(s, events, s') && Alive(s', id)
  }

  /** A cancellation is for good if and only if, once it is stored, every message of the task is
      acknowledged, no dead-letter entry of it is left, and no administrator is retrying it. */
  lemma CanceledForGood(s: System, id: TaskId)
    requires Shaped(s) && id in s.created && id in s.db.records && s.db.records[id].state.Canceled?
    ensures Retired(s, id) <==> !CanComeBack(s, id)
  {
    if Retired(s, id) {
      forall events: seq<Event>, s': System | Leads(s, events, s') ensures !Alive(s', id) {
        RetiredAfter(s, events, s', id);
      }
    } else {
      var events, s' := NotRetiredComesBack(s, id);
    }
  }

  /** What is then guaranteed, in whatever run, serial or not: the record stays Canceled until it
      expires, no message of the task is ever appended, and its handler never starts again. */
  lemma {:induction false} RetiredForGood(states: seq<System>, events: seq<Event>, i: nat, j: nat, id: TaskId)
    requires IsRun(states, events) && states[0] == Start(states[0].retention, states[0].minIdle)
    requires i <= j <= |events| && Retired(states[i], id)
    ensures Retired(states[j], id) && Starts(states[j], id) == Starts(states[i], id)
    decreases j
  {
    if i < j {
      RetiredForGood(states, events, i, j - 1, id);
      RetiredStep(states, events, j - 1, id);
    }
  }

  lemma RetiredStep(states: seq<System>, events: seq<Event>, k: nat, id: TaskId)
    requires IsRun(states, events) && states[0] == Start(states[0].retention, states[0].minIdle)
    requires k < |events| && Retired(states[k], id)
    ensures StillRetired(states[k], states[k + 1], id)
  {
    N.RunInvariant(states, events, k);
    StaysRetired(states[k], events[k], id);
  }

  // A run in which that happens.

  /** A task canceled while its message waits on the stream, and handed to a worker. */
  lemma CancelBeforeDelivery(retention: bool, minIdle: Time, r: Record, now: Time)
    returns (events: seq<Event>, s: System)
    requires C.IsNew(r) && r.state.Pending?
    ensures Leads(Start(retention, minIdle), events, s) && Shaped(s)
    ensures r.id in s.canceled && r.id in s.db.records && s.db.records[r.id].state.Canceled?
    ensures var tok := Msg(r.priority, 0);
            && WorkerEnabled(s, tok, Begin("", now)) && s.live[tok].t.state.Canceled?
            && 0 in s.db.streams.Of(r.priority).pel && s.db.streams.Of(r.priority).log == [r.id]
  {
    var start := Start(retention, minIdle);
    var a, s1 := C.Submitted(retention, minIdle, r);
    var b, s2 := C.CancelIt(s1, C.Enqueued(r), now);
    var x := C.Enqueued(r).(record := Moved(r, Canceled, now), canceled := true);
    var c;
    c, s := C.Fetch(s2, x, "", now);
    F.Joined(start, a, s1, b, s2);
    F.Joined(start, a + b, s2, c, s);
    StartShaped(retention, minIdle);
    F.ShapedAfter(start, a + b + c, s);
    events := a + b + c;
  }

  /** The worker cannot start it and does not acknowledge it either, so that recovery puts it back to
      Pending: from the start of the system to the canceled task that waits again. */
  lemma CanceledTaskComesBack(retention: bool, minIdle: Time, r: Record, now: Time)
    returns (first: seq<Event>, s: System, rest: seq<Event>, s': System)
    requires C.IsNew(r) && r.state.Pending?
    ensures Leads(Start(retention, minIdle), first, s)
    ensures r.id in s.canceled && r.id in s.db.records && s.db.records[r.id].state.Canceled?
    ensures var begin := Worker(Msg(r.priority, 0), Begin("", now));
            Enabled(s, begin) && Next(s, begin) == s.Release(s.db, Msg(r.priority, 0)) && Leads(s, [begin] + rest, s')
    ensures Alive(s', r.id)
  {
    first, s := CancelBeforeDelivery(retention, minIdle, r, now);
    rest, s' := RefusedAndRecovered(s, Msg(r.priority, 0), now);
  }

  lemma RefusedAndRecovered(s: System, tok: Token, now: Time) returns (rest: seq<Event>, s': System)
    requires Shaped(s) && WorkerEnabled(s, tok, Begin("", now)) && s.live[tok].t.state.Canceled?
    requires tok.m in s.db.streams.Of(tok.p).pel && s.db.streams.Of(tok.p).log[tok.m] in s.db.records
    ensures var begin := Worker(tok, Begin("", now));
            Enabled(s, begin) && Next(s, begin) == s.Release(s.db, tok) && Leads(s, [begin] + rest, s')
    ensures Alive(s', s.db.streams.Of(tok.p).log[tok.m])
  {
    RefusedStep(s, tok, now);
    ReleaseShaped(s, tok);
    var s1 := s.Release(s.db, tok);
    assert tok !in s1.live && s1.db == s.db;
    rest, s' := RecoverRuns(s1, tok);
    OneMore(s, Worker(tok, Begin("", now)), rest, s1, s');
  }

  lemma RefusedStep(s: System, tok: Token, now: Time)
    requires WorkerEnabled(s, tok, Begin("", now)) && s.live[tok].t.state.Canceled?
    ensures Enabled(s, Worker(tok, Begin("", now))) && Next(s, Worker(tok, Begin("", now))) == s.Release(s.db, tok)
  {
  }
}
