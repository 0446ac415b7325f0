/** What the timestamps of a task tell, on a clock that does not go back. */
module Timestamps {
  import opened Tasks
  import opened Store
  import opened Protocol
  import opened Shape
  import N = NoLoss

  /** A record, or a copy of one, at a time `clock`: it has a start exactly when it counts an attempt; a
      Running one started when it was last changed; a final one ended when it was last changed, and not
      before it started; and nothing lies in the future. */
  predicate Dated(r: Record, clock: Time) {
    && r.attempts >= 0 && (r.startedAt.Some? <==> r.attempts > 0)
    && (r.startedAt.Some? ==> r.startedAt.value <= clock)
    && (r.state == Running ==> r.startedAt == Option.Some(r.updatedAt))
    && (r.state in {Completed, Failed, State.Canceled, DeadLetter} ==>
          && r.completedAt == Option.Some(r.updatedAt) && r.updatedAt <= clock
          && (r.startedAt.Some? ==> r.startedAt.value <= r.updatedAt))
  }

  /** Every stored record, every copy in the hands of a worker or of a request, every dead-letter entry. */
  ghost predicate AllDated(s: System, clock: Time) {
    && (forall id | id in s.db.records :: Dated(s.db.records[id], clock))
    && (forall tok | tok in s.live && HasTask(s.live[tok]) :: Dated(s.live[tok].t, clock))
    && (forall q | q in s.requests :: Dated(s.requests[q].t, clock))
    && (forall d | 0 <= d < |s.db.dlq| && s.db.dlq[d].Some? :: Dated(s.db.dlq[d].value, clock))
  }

  // ---------------------------------------------------------------------------
  // Each change of a record.
  // ---------------------------------------------------------------------------

  lemma StartedDated(r: Record, worker: string, now: Time)
    requires Dated(r, now)
    ensures Dated(Started(r, worker, now), now)
  {
  }

  lemma EndedDated(r: Record, message: string, now: Time)
    requires Dated(r, now)
    ensures Dated(Succeeded(r, now), now) && Dated(Errored(r, message, now), now)
    ensures Dated(Moved(r, State.Canceled, now), now) && Dated(Moved(r, Pending, now), now)
    ensures r.state.Failed? ==> Dated(Buried(r, now), now)
  {
  }

  lemma ReturnedDated(r: Record, message: string, now: Time, delay: Time)
    requires Dated(r, now)
    ensures Dated(Prepared(r, now), now)
    ensures r.state.CanTransitionTo(Pending) ==> Dated(Requeued(r, now), now)
    ensures r.state.Running? && r.CanRetry() ==> Dated(FailedForRetry(r, message, now, delay), now)
  {
  }

  // ---------------------------------------------------------------------------
  // Each step.
  // ---------------------------------------------------------------------------

  /** The time a step takes place at, for those that look at the clock. */
  function TimeOf(e: Event): Option<Time> {
    match e
    case Read(_, now) => Option.Some(now)
    case Worker(_, Begin(_, now)) => Option.Some(now)
    case Worker(_, Succeed(now)) => Option.Some(now)
    case Worker(_, FailRetry(_, now, _)) => Option.Some(now)
    case Worker(_, FailFinal(_, now)) => Option.Some(now)
    case Worker(_, Entomb(now)) => Option.Some(now)
    case Recovery(_, Claim(_, now)) => Option.Some(now)
    case Recovery(_, LoadOrphan(now)) => Option.Some(now)
    case DlqRetry(_, Pick(now)) => Option.Some(now)
    case Api(_, CancelLoad(_, now)) => Option.Some(now)
    case Api(_, AdminLoad(_, now)) => Option.Some(now)
    case Activate(_, now) => Option.Some(now)
    case _ => Option.None
  }

  /** A new task has not started, as FromRequest makes it. */
  predicate SubmitsNew(e: Event) {
    e.Api? && e.a.Submit? ==> e.a.t.startedAt.None?
  }

  predicate At(e: Event, clock: Time) {
    TimeOf(e).Some? ==> TimeOf(e).value == clock
  }

  /** The holder stores a new record, and goes on with it or lets go. */
  lemma StoreDated(s: System, s': System, tok: Token, t: Record, clock: Time)
    requires AllDated(s, clock) && Dated(t, clock)
    requires s'.db.records == s.db.records[t.id := t] && s'.db.dlq == s.db.dlq && s'.requests == s.requests
    requires forall x | x in s'.live :: if x == tok then HasTask(s'.live[x]) ==> s'.live[x].t == t
                                        else x in s.live && s'.live[x] == s.live[x]
    ensures AllDated(s', clock)
  {
  }

  lemma WorkerStoreDated(s: System, tok: Token, w: WorkerStep, clock: Time)
    requires AllDated(s, clock) && WorkerEnabled(s, tok, w) && At(Worker(tok, w), clock) && StateFits(s.live[tok])
    requires w.Begin? || w.Succeed? || w.FailRetry? || w.FailFinal? || w.StoreAgain?
    ensures AllDated(WorkerNext(s, tok, w), clock)
  {
    var ph, s' := s.live[tok], WorkerNext(s, tok, w);
    match w
    case Begin(worker, now) =>
      StartedDated(ph.t, worker, now);
      if ph.t.state.CanTransitionTo(Running) {
        StoreDated(s, s', tok, Started(ph.t, worker, now), clock);
      }
    case Succeed(now) =>
      EndedDated(ph.t, "", now);
      StoreDated(s, s', tok, Succeeded(ph.t, now), clock);
    case FailRetry(message, now, delay) =>
      ReturnedDated(ph.t, message, now, delay);
      StoreDated(s, s', tok, FailedForRetry(ph.t, message, now, delay), clock);
    case FailFinal(message, now) =>
      EndedDated(ph.t, message, now);
      StoreDated(s, s', tok, Errored(ph.t, message, now), clock);
    case StoreAgain => StoreDated(s, s', tok, ph.t, clock);
  }

  lemma WorkerDated(s: System, tok: Token, w: WorkerStep, clock: Time)
    requires AllDated(s, clock) && WorkerEnabled(s, tok, w) && At(Worker(tok, w), clock) && StateFits(s.live[tok])
    ensures AllDated(WorkerNext(s, tok, w), clock)
  {
    match w
    case Begin(_, _) => WorkerStoreDated(s, tok, w, clock);
    case Succeed(_) => WorkerStoreDated(s, tok, w, clock);
    case FailRetry(_, _, _) => WorkerStoreDated(s, tok, w, clock);
    case FailFinal(_, _) => WorkerStoreDated(s, tok, w, clock);
    case StoreAgain => WorkerStoreDated(s, tok, w, clock);
    case Entomb(now) => EndedDated(s.live[tok].t, "", now);
    case _ =>
  }

  lemma RecoveryDated(s: System, tok: Token, r: RecoveryStep, clock: Time)
    requires AllDated(s, clock) && RecoveryEnabled(s, tok, r) && At(Recovery(tok, r), clock)
    ensures AllDated(RecoveryNext(s, tok, r), clock)
  {
    if r.LoadOrphan? && s.db.streams.Of(tok.p).log[tok.m] in s.db.records {
      ReturnedDated(s.db.records[s.db.streams.Of(tok.p).log[tok.m]], "", r.now, 0);
    }
  }

  lemma DlqDated(s: System, tok: Token, d: DlqStep, clock: Time)
    requires AllDated(s, clock) && DlqEnabled(s, tok, d) && At(DlqRetry(tok, d), clock)
    ensures AllDated(DlqNext(s, tok, d), clock)
  {
    if d.Pick? {
      ReturnedDated(s.db.dlq[tok.d].value, "", d.now, 0);
    }
  }

  lemma RequestDated(s: System, q: nat, a: ApiStep, clock: Time)
    requires AllDated(s, clock) && ApiEnabled(s, q, a) && At(Api(q, a), clock) && SubmitsNew(Api(q, a))
    ensures AllDated(ApiNext(s, q, a), clock)
  {
    match a
    case CancelLoad(id, now) => EndedDated(s.db.records[id], "", now);
    case AdminLoad(id, now) => ReturnedDated(s.db.records[id], "", now, 0);
    case _ =>
  }

  lemma WorkerStepDated(s: System, tok: Token, w: WorkerStep, clock: Time)
    requires Shaped(s) && AllDated(s, clock) && WorkerEnabled(s, tok, w) && At(Worker(tok, w), clock)
    ensures AllDated(WorkerNext(s, tok, w), clock)
  {
    assert MayHold(s, tok, s.live[tok]);
    WorkerDated(s, tok, w, clock);
  }

  lemma ActivateDated(s: System, id: TaskId, now: Time)
    requires AllDated(s, now)
    ensures AllDated(s.(db := Activated(s.db, id, s.retention, now)), now)
  {
    if id in s.db.records {
      EndedDated(s.db.records[id], "", now);
    }
  }

  lemma StepDated(s: System, e: Event, clock: Time)
    requires Shaped(s) && AllDated(s, clock) && Enabled(s, e) && At(e, clock) && SubmitsNew(e)
    ensures AllDated(Next(s, e), clock)
  {
    match e
    case Worker(tok, w) => WorkerStepDated(s, tok, w, clock);
    case Recovery(tok, r) => RecoveryDated(s, tok, r, clock);
    case DlqRetry(tok, d) => DlqDated(s, tok, d, clock);
    case Api(q, a) => RequestDated(s, q, a, clock);
    case Activate(id, now) => ActivateDated(s, id, now);
    case Read(_, _) =>
    case Crash(_) =>
    case Expire(_) =>
  }

  lemma LaterDated(s: System, clock: Time, later: Time)
    requires AllDated(s, clock) && clock <= later
    ensures AllDated(s, later)
  {
  }

  // ---------------------------------------------------------------------------
  // Whole runs.
  // ---------------------------------------------------------------------------

  /** The steps that look at the clock see it go forward, and new tasks have not started. */
  ghost predicate OnClock(events: seq<Event>) {
    && (forall i, j | 0 <= i < j < |events| && TimeOf(events[i]).Some? && TimeOf(events[j]).Some? ::
          TimeOf(events[i]).value <= TimeOf(events[j]).value)
    && (forall i | 0 <= i < |events| :: SubmitsNew(events[i]))
  }

  ghost predicate Passed(events: seq<Event>, i: nat, clock: Time) {
    forall k | 0 <= k < i <= |events| && TimeOf(events[k]).Some? :: TimeOf(events[k]).value <= clock
  }

  lemma {:induction false} RunDated(states: seq<System>, events: seq<Event>, i: nat, clock: Time)
    requires IsRun(states, events) && states[0] == Start(states[0].retention, states[0].minIdle)
    requires OnClock(events) && i <= |events| && Passed(events, i, clock)
    ensures AllDated(states[i], clock)
    decreases i
  {
    if i > 0 {
      var e := events[i - 1];
      var now := if TimeOf(e).Some? then TimeOf(e).value else clock;
      RunDated(states, events, i - 1, now);
      N.RunInvariant(states, events, i - 1);
      StepDated(states[i - 1], e, now);
      LaterDated(states[i], now, clock);
    }
  }

  /** In every run on such a clock, at every point: a stored Completed, Failed or Canceled record names the
      time it ended, which is that of its last change and no earlier than its start; a Running one names
      its start; and a record has a start exactly when it counts an attempt. */
  lemma EndsAfterItsStart(states: seq<System>, events: seq<Event>, i: nat, id: TaskId, clock: Time)
    requires IsRun(states, events) && states[0] == Start(states[0].retention, states[0].minIdle)
    requires OnClock(events) && i <= |events| && Passed(events, i, clock) && id in states[i].db.records
    ensures var r := states[i].db.records[id];
            && (r.state in {Completed, Failed, State.Canceled} ==>
                  && r.completedAt == Option.Some(r.updatedAt) && r.updatedAt <= clock
                  && (r.startedAt.Some? ==> r.startedAt.value <= r.updatedAt))
            && (r.state == Running ==> r.startedAt == Option.Some(r.updatedAt))
            && (r.startedAt.Some? <==> r.attempts > 0)
  {
    RunDated(states, events, i, clock);
  }
}
