/** The task record, its state machine and the retry bookkeeping (internal/task). */
module Tasks {

  /** A UUID; only its identity matters. */
  type TaskId = nat

  /** Nanoseconds since the Unix epoch. */
  type Time = int

  datatype Option<+T> = None | Some(value: T)

  datatype Priority = Low | Normal | High | Critical

  /** Out-of-range request values fall back to Normal. */
  function PriorityFromInt(i: int): Priority {
    if i == 0 then Low else if i == 2 then High else if i == 3 then Critical else Normal
  }

  datatype State =
    | Pending | Scheduled | Running | Completed
    | Failed | Retrying | Canceled | DeadLetter
  {
    predicate IsFinal() {
      Completed? || Failed? || Canceled? || DeadLetter?
    }

    /** The scheduler activates these two states and drops every other one. */
    predicate IsDeferred() {
      Scheduled? || Retrying?
    }

    /** The table of valid transitions. */
    predicate CanTransitionTo(target: State) {
      match this
      case Pending => target.Scheduled? || target.Running? || target.Canceled?
      case Scheduled => target.Pending? || target.Running? || target.Canceled?
      case Running => target.Completed? || target.Failed? || target.Retrying? || target.Canceled?
      case Retrying => target.Running? || target.Failed? || target.DeadLetter? || target.Canceled? || target.Pending?
      case Failed => target.Retrying? || target.DeadLetter? || target.Pending?
      case Completed => false
      case Canceled => false
      case DeadLetter => target.Pending?
    }
  }

  /** The stored form of a task: what json.Marshal writes and json.Unmarshal reads back. */
  datatype Record = Record(
    id: TaskId,
    priority: Priority,
    state: State,
    attempts: int,
    maxRetries: int,
    error: string,
    worker: string,
    startedAt: Option<Time>,
    completedAt: Option<Time>,
    scheduledAt: Option<Time>,
    updatedAt: Time)
  {
    predicate CanRetry() {
      attempts < maxRetries
    }
  }

  // ---------------------------------------------------------------------------
  // What each state-machine call does to the record.
  // ---------------------------------------------------------------------------

  /** A successful Transition. */
  function Moved(r: Record, target: State, now: Time): Record {
    r.(state := target,
       updatedAt := now,
       startedAt := if target == Running then Some(now) else r.startedAt,
       completedAt := if target.IsFinal() then Some(now) else r.completedAt)
  }

  function Started(r: Record, worker: string, now: Time): Record {
    Moved(r, Running, now).(worker := worker, attempts := r.attempts + 1)
  }

  function Succeeded(r: Record, now: Time): Record {
    Moved(r, Completed, now).(error := "")
  }

  function Errored(r: Record, message: string, now: Time): Record {
    Moved(r, Failed, now).(error := message)
  }

  function RetryTarget(r: Record): State {
    if r.CanRetry() then Retrying else DeadLetter
  }

  function RetriedOrSame(r: Record, now: Time): Record {
    if r.state.CanTransitionTo(RetryTarget(r)) then Moved(r, RetryTarget(r), now) else r
  }

  /** DLQ.Add forces the state when the transition is invalid. */
  function Buried(r: Record, now: Time): Record {
    if r.state.CanTransitionTo(DeadLetter) then Moved(r, DeadLetter, now)
    else r.(state := DeadLetter, updatedAt := now)
  }

  /** Requeue resets the execution fields before it tries the transition. */
  function Requeued(r: Record, now: Time): Record {
    var z := r.(worker := "", attempts := 0, error := "", startedAt := None, completedAt := None);
    if r.state.CanTransitionTo(Pending) then Moved(z, Pending, now) else z
  }

  /** Orphan recovery: Pending from any state whatsoever. */
  function Prepared(r: Record, now: Time): Record {
    RetriedOrSame(r, now).(state := Pending, scheduledAt := None, updatedAt := now)
  }

  /** The in-memory steps of a retryable failure: Fail, then ScheduleRetry. */
  function FailedForRetry(r: Record, message: string, now: Time, delay: Time): Record {
    RetriedOrSame(Errored(r, message, now), now).(scheduledAt := Some(now + delay))
  }

  /** Fields that no operation on an existing task ever changes. */
  predicate SameTask(r: Record, q: Record) {
    r.id == q.id && r.priority == q.priority && r.maxRetries == q.maxRetries
  }

  // ---------------------------------------------------------------------------
  // Properties of the state machine.
  // ---------------------------------------------------------------------------

  /** A task can be reached from state s along valid transitions in at most n steps. */
  predicate ReachableIn(s: State, t: State, n: nat)
    decreases n
  {
    s == t || (n > 0 && exists m: State :: s.CanTransitionTo(m) && ReachableIn(m, t, n - 1))
  }

  /** Along valid transitions Completed and Canceled are absorbing, and nothing else is:
      every other state, the final ones included, still leads back to Running. */
  lemma {:induction false} AbsorbingStates(s: State, t: State, n: nat)
    ensures (s.Completed? || s.Canceled?) && ReachableIn(s, t, n) ==> t == s
    ensures !s.Completed? && !s.Canceled? ==> ReachableIn(s, Running, 2)
  {
    if !s.Completed? && !s.Canceled? {
      var via := if s.Running? || s.CanTransitionTo(Running) then Running else Pending;
      assert s == via || s.CanTransitionTo(via);
      assert ReachableIn(Running, Running, 0) && ReachableIn(Running, Running, 1);
      assert via.Pending? ==> via.CanTransitionTo(Running);
      assert ReachableIn(via, Running, 1);
    }
  }

  /** Who may move a task where. */
  lemma WhoMay(s: State)
    ensures s.CanTransitionTo(Running) <==> s in {Pending, Scheduled, Retrying}
    ensures s.CanTransitionTo(Pending) <==> s in {Scheduled, Retrying, Failed, DeadLetter}
    ensures s.CanTransitionTo(Retrying) <==> s in {Running, Failed}
    ensures s.CanTransitionTo(DeadLetter) <==> s in {Retrying, Failed}
    ensures s.CanTransitionTo(Failed) <==> s in {Running, Retrying}
    ensures s.CanTransitionTo(Completed) <==> s == Running
    ensures s.CanTransitionTo(Canceled) <==> s in {Pending, Scheduled, Running, Retrying}
    ensures s.CanTransitionTo(Scheduled) <==> s == Pending
    ensures s.IsFinal() <==> s in {Completed, Failed, Canceled, DeadLetter}
    ensures s.IsDeferred() <==> s in {Scheduled, Retrying}
  {
  }

  /** While the record is Running, the retry branch of a failure always ends in Retrying with a
      retry time, so the two fall-back-to-DLQ branches behind it are never taken. */
  lemma RetryBranchAlwaysSchedules(r: Record, message: string, now: Time, delay: Time)
    requires r.state == Running && r.CanRetry()
    ensures r.state.CanTransitionTo(Failed)
    ensures Errored(r, message, now).state.CanTransitionTo(RetryTarget(Errored(r, message, now)))
    ensures var q := FailedForRetry(r, message, now, delay);
            q.state == Retrying && q.scheduledAt == Some(now + delay) && q.attempts == r.attempts && SameTask(r, q)
  {
    assert Errored(r, message, now).CanRetry();
  }

  // ---------------------------------------------------------------------------
  // The in-memory task.
  // ---------------------------------------------------------------------------

  class Task {
    var id: TaskId
    var priority: Priority
    var state: State
    var attempts: int
    var maxRetries: int
    var error: string
    var worker: string
    var startedAt: Option<Time>
    var completedAt: Option<Time>
    var scheduledAt: Option<Time>
    var updatedAt: Time

    function Value(): Record
      reads this
    {
      Record(id, priority, state, attempts, maxRetries, error, worker, startedAt, completedAt, scheduledAt, updatedAt)
    }

    /** Decodes a stored record into a fresh task. */
    constructor Decode(r: Record)
      ensures Value() == r
    {
      id, priority, state, attempts, maxRetries := r.id, r.priority, r.state, r.attempts, r.maxRetries;
      error, worker := r.error, r.worker;
      startedAt, completedAt, scheduledAt, updatedAt := r.startedAt, r.completedAt, r.scheduledAt, r.updatedAt;
    }

    /** FromRequest followed by the handler's default for max_retries: a submitted task may
        always be executed at least once. */
    constructor FromRequest(id: TaskId, priority: int, maxRetries: int, defaultMaxRetries: int,
                            scheduledAt: Option<Time>, now: Time)
      ensures Value() == Record(id, PriorityFromInt(priority), Pending, 0, this.maxRetries, "", "", None, None,
        scheduledAt, now)
      ensures this.maxRetries >= 1
      ensures maxRetries > 0 ==> this.maxRetries == maxRetries
      ensures maxRetries <= 0 ==> this.maxRetries == if defaultMaxRetries > 0 then defaultMaxRetries else 3
    {
      this.id, this.priority, state, attempts := id, PriorityFromInt(priority), Pending, 0;
      error, worker, startedAt, completedAt := "", "", None, None;
      this.scheduledAt, updatedAt := scheduledAt, now;
      this.maxRetries := if maxRetries > 0 then maxRetries else if defaultMaxRetries > 0 then defaultMaxRetries else 3;
    }

    method Transition(target: State, now: Time) returns (ok: bool)
      modifies this
      ensures ok == old(state).CanTransitionTo(target)
      ensures Value() == if ok then Moved(old(Value()), target, now) else old(Value())
      ensures ok ==>
        && state == target && updatedAt == now
        && startedAt == (if target == Running then Some(now) else old(startedAt))
        && completedAt == (if target in {Completed, Failed, Canceled, DeadLetter} then Some(now) else old(completedAt))
    {
      if !state.CanTransitionTo(target) {
        return false;
      }
      state, updatedAt := target, now;
      if target == Running {
        startedAt := Some(now);
      } else if target.IsFinal() {
        completedAt := Some(now);
      }
      ok := true;
    }

    method Start(workerId: string, now: Time) returns (ok: bool)
      modifies this
      ensures ok <==> old(state) in {Pending, Scheduled, Retrying}
      ensures Value() == if ok then Started(old(Value()), workerId, now) else old(Value())
      ensures ok ==>
        Value() == old(Value()).(state := Running, worker := workerId, attempts := old(attempts) + 1,
                                 startedAt := Some(now), updatedAt := now)
    {
      ok := Transition(Running, now);
      if ok {
        worker, attempts, updatedAt := workerId, attempts + 1, now;
      }
    }

    method Complete(now: Time) returns (ok: bool)
      modifies this
      ensures ok <==> old(state) == Running
      ensures Value() == if ok then Succeeded(old(Value()), now) else old(Value())
      ensures ok ==>
        Value() == old(Value()).(state := Completed, error := "", completedAt := Some(now), updatedAt := now)
    {
      ok := Transition(Completed, now);
      if ok {
        error := "";
      }
    }

    method Fail(message: string, now: Time) returns (ok: bool)
      modifies this
      ensures ok <==> old(state) in {Running, Retrying}
      ensures Value() == if ok then Errored(old(Value()), message, now) else old(Value())
      ensures ok ==>
        Value() == old(Value()).(state := Failed, error := message, completedAt := Some(now), updatedAt := now)
    {
      ok := Transition(Failed, now);
      if ok {
        error := message;
      }
    }

    method Retry(now: Time) returns (ok: bool)
      modifies this
      ensures ok <==> old(state) in (if old(attempts) < old(maxRetries) then {Running, Failed} else {Retrying, Failed})
      ensures Value() == RetriedOrSame(old(Value()), now)
      ensures ok && old(attempts) < old(maxRetries) ==> Value() == old(Value()).(state := Retrying, updatedAt := now)
      ensures ok && old(attempts) >= old(maxRetries) ==>
        Value() == old(Value()).(state := DeadLetter, completedAt := Some(now), updatedAt := now)
      ensures !ok ==> Value() == old(Value())
    {
      if !Value().CanRetry() {
        ok := Transition(DeadLetter, now);
      } else {
        ok := Transition(Retrying, now);
      }
    }

    method Requeue(now: Time) returns (ok: bool)
      modifies this
      ensures ok <==> old(state) in {Scheduled, Retrying, Failed, DeadLetter}
      ensures Value() == Requeued(old(Value()), now)
      ensures Value() == old(Value()).(worker := "", attempts := 0, error := "", startedAt := None, completedAt := None,
                                       state := if ok then Pending else old(state),
                                       updatedAt := if ok then now else old(updatedAt))
    {
      worker, attempts, error, startedAt, completedAt := "", 0, "", None, None;
      ok := Transition(Pending, now);
    }

    /** Retryer.ScheduleRetry, with the computed backoff as `delay`. */
    method ScheduleRetry(now: Time, delay: Time) returns (ok: bool)
      modifies this
      ensures ok == old(state).CanTransitionTo(RetryTarget(old(Value())))
      ensures Value() == if ok then RetriedOrSame(old(Value()), now).(scheduledAt := Some(now + delay))
                         else old(Value())
      ensures old(state) == Failed && old(attempts) < old(maxRetries) ==>
        Value() == old(Value()).(state := Retrying, scheduledAt := Some(now + delay), updatedAt := now)
    {
      ok := Retry(now);
      if ok {
        scheduledAt := Some(now + delay);
      }
    }

    method PrepareForRequeue(now: Time)
      modifies this
      ensures Value() == Prepared(old(Value()), now)
      ensures Value() == old(Value()).(state := Pending, scheduledAt := None, updatedAt := now,
                                       completedAt := completedAt)
      ensures completedAt != old(completedAt) ==>
        old(state) in {Retrying, Failed} && old(attempts) >= old(maxRetries) && completedAt == Some(now)
    {
      var _ := Retry(now);
      state, scheduledAt, updatedAt := Pending, None, now;
    }

    /** The state change made by DLQ.Add. */
    method Bury(now: Time)
      modifies this
      ensures Value() == Buried(old(Value()), now)
      ensures Value() == old(Value()).(
                state := DeadLetter, updatedAt := now,
                completedAt := if old(state) in {Retrying, Failed} then Some(now) else old(completedAt))
    {
      var ok := Transition(DeadLetter, now);
      if !ok {
        state, updatedAt := DeadLetter, now;
      }
    }
  }
}
