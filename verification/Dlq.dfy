/** The dead-letter queue (internal/queue/dlq.go): a stream of entries plus a set of task ids. */
module Dlq {
  import opened Tasks
  import opened Store
  import opened Queue

  datatype Entry = Entry(d: MessageId, r: Record)

  /** XRANGE: the entries from a position on, in stream order. */
  function Listed(dlq: seq<Option<Record>>, from: nat): seq<Entry>
    decreases |dlq| - from
  {
    if from >= |dlq| then []
    else (if dlq[from].Some? then [Entry(from, dlq[from].value)] else []) + Listed(dlq, from + 1)
  }

  predicate IsEntry(dlq: seq<Option<Record>>, d: MessageId) {
    d < |dlq| && dlq[d].Some?
  }

  lemma {:induction false} ListedExactly(dlq: seq<Option<Record>>, from: nat)
    ensures var es := Listed(dlq, from);
            && (forall i | 0 <= i < |es| :: from <= es[i].d && IsEntry(dlq, es[i].d) && es[i].r == dlq[es[i].d].value)
            && (forall i, j | 0 <= i < j < |es| :: es[i].d < es[j].d)
            && (forall d | from <= d && IsEntry(dlq, d) :: Entry(d, dlq[d].value) in es)
    decreases |dlq| - from
  {
    if from < |dlq| {
      ListedExactly(dlq, from + 1);
      var rest := Listed(dlq, from + 1);
      if dlq[from].Some? {
        assert Listed(dlq, from) == [Entry(from, dlq[from].value)] + rest;
      }
    }
  }

  /** The first entry of a task. */
  function FirstFrom(dlq: seq<Option<Record>>, id: TaskId, from: nat): (found: Option<MessageId>)
    ensures found.Some? ==>
      && from <= found.value && IsEntry(dlq, found.value) && dlq[found.value].value.id == id
      && forall d | from <= d < found.value && IsEntry(dlq, d) :: dlq[d].value.id != id
    ensures found.None? ==> forall d | from <= d && IsEntry(dlq, d) :: dlq[d].value.id != id
    decreases |dlq| - from
  {
    if from >= |dlq| then None
    else if dlq[from].Some? && dlq[from].value.id == id then Some(from)
    else FirstFrom(dlq, id, from + 1)
  }

  function FirstEntryOf(dlq: seq<Option<Record>>, id: TaskId): Option<Entry> {
    var d := FirstFrom(dlq, id, 0);
    if d.Some? then Some(Entry(d.value, dlq[d.value].value)) else None
  }

  // ---------------------------------------------------------------------------
  // What complete calls do.
  // ---------------------------------------------------------------------------

  function Added(db: Database, r: Record, now: Time): Database {
    db.DlqAppend(Buried(r, now)).DlqIndex(r.id)
  }

  // The databases after each command of a call.

  function AddWrites(db: Database, r: Record, now: Time): seq<Database> {
    [db.DlqAppend(Buried(r, now)), Added(db, r, now)]
  }

  function RemoveWrites(db: Database, id: TaskId, m: Option<MessageId>): seq<Database> {
    (if m.Some? then [db.DlqDelete(m.value)] else []) + [RemovedEntry(db, id, m)]
  }

  /** The entry is deleted only after its task was enqueued. */
  function RetryWrites(db: Database, id: TaskId, now: Time): seq<Database> {
    if !Retryable(db, id) then []
    else
      var d := FirstFrom(db.dlq, id, 0).value;
      var r := Requeued(db.dlq[d].value, now);
      EnqueueWrites(db, r) + RemoveWrites(db.Enqueued(r), id, Some(d))
  }

  function RemovedEntry(db: Database, id: TaskId, m: Option<MessageId>): Database {
    (if m.Some? then db.DlqDelete(m.value) else db).DlqUnindex(id)
  }

  predicate Retryable(db: Database, id: TaskId) {
    var d := FirstFrom(db.dlq, id, 0);
    d.Some? && db.dlq[d.value].value.state.CanTransitionTo(Pending)
  }

  function RetriedOne(db: Database, id: TaskId, now: Time): Database {
    if !Retryable(db, id) then db
    else
      var d := FirstFrom(db.dlq, id, 0).value;
      RemovedEntry(db.Enqueued(Requeued(db.dlq[d].value, now)), id, Some(d))
  }

  predicate FirstOf(dlq: seq<Option<Record>>, id: TaskId, d: MessageId) {
    && IsEntry(dlq, d) && dlq[d].value.id == id
    && forall e: MessageId | e < d && IsEntry(dlq, e) :: dlq[e].value.id != id
  }

  /** The first entry of the task is gone, its id is not in the set, and the task it holds a copy of is
      back to work. */
  ghost predicate FirstRetried(db: Database, db': Database, id: TaskId, d: MessageId, now: Time) {
    && FirstOf(db.dlq, id, d)
    && BackToWork(db, db', db.dlq[d].value, now)
    && db'.dlq == db.dlq[d := None] && db'.dlqSet == db.dlqSet - {id}
  }

  /** What one retry does, and when: unless the task has no entry, or its first one could not be
      requeued, which no DeadLetter copy is. */
  lemma RetriedMeans(db: Database, id: TaskId, now: Time)
    ensures Retryable(db, id) <==>
      exists d: MessageId ::
        FirstOf(db.dlq, id, d) && db.dlq[d].value.state in {Scheduled, Retrying, Failed, DeadLetter}
    ensures Retryable(db, id) ==> exists d: MessageId :: FirstRetried(db, RetriedOne(db, id, now), id, d, now)
    ensures !Retryable(db, id) ==> RetriedOne(db, id, now) == db
  {
    var d := FirstFrom(db.dlq, id, 0);
    if d.Some? {
      assert FirstOf(db.dlq, id, d.value);
      assert Retryable(db, id) ==> FirstRetried(db, RetriedOne(db, id, now), id, d.value, now);
    }
  }

  datatype Progress = Progress(db: Database, count: nat)

  /** The loop of RetryAll over the first k entries of a listing. */
  function RetriedUpTo(db: Database, es: seq<Entry>, k: nat, now: Time): Progress
    requires k <= |es|
  {
    if k == 0 then Progress(db, 0)
    else
      var before, id := RetriedUpTo(db, es, k - 1, now), es[k - 1].r.id;
      Progress(RetriedOne(before.db, id, now), before.count + if Retryable(before.db, id) then 1 else 0)
  }

  function RetryUpToWrites(db: Database, es: seq<Entry>, k: nat, now: Time): seq<Database>
    requires k <= |es|
  {
    if k == 0 then []
    else RetryUpToWrites(db, es, k - 1, now) + RetryWrites(RetriedUpTo(db, es, k - 1, now).db, es[k - 1].r.id, now)
  }

  function RetryAllWrites(db: Database, now: Time): seq<Database> {
    var es := Listed(db.dlq, 0);
    RetryUpToWrites(db, es, |es|, now)
  }

  function RetriedAll(db: Database, now: Time): Progress {
    var es := Listed(db.dlq, 0);
    RetriedUpTo(db, es, |es|, now)
  }

  function Cleared(db: Database): Database {
    db.DlqClearStream().DlqClearSet()
  }

  class DLQ {
    const client: Redis

    constructor (client: Redis)
      ensures this.client == client
    {
      this.client := client;
    }

    method Add(t: Task, now: Time) returns (ok: bool)
      modifies client`db, client`history, t
      ensures t.Value() == Buried(old(t.Value()), now)
      ensures client.reliable ==> ok && client.db == Added(old(client.db), old(t.Value()), now)
      ensures client.reliable ==> client.history == old(client.history) + AddWrites(old(client.db), old(t.Value()), now)
      ensures !ok ==> client.db == old(client.db)
      ensures ok ==>
        && client.db.dlq == old(client.db.dlq) + [Some(t.Value())]
        && client.db == old(client.db).(dlq := client.db.dlq, dlqSet := client.db.dlqSet)
      ensures client.reliable ==> client.db.dlqSet == old(client.db).dlqSet + {t.id}
      ensures t.Value() == old(t.Value()).(
                state := DeadLetter, updatedAt := now,
                completedAt := if old(t.state) in {Retrying, Failed} then Some(now) else old(t.completedAt))
    {
      t.Bury(now);
      ok := client.Execute(client.db.DlqAppend(t.Value()));
      if !ok {
        return;
      }
      var _ := client.Execute(client.db.DlqIndex(t.id));
    }

    /** At most `count` entries, or all of them when `count` is not positive. */
    method List(count: int, offset: Option<MessageId>) returns (ok: bool, entries: seq<Entry>)
      ensures client.reliable ==> ok
      ensures var all := Listed(client.db.dlq, if offset.Some? then offset.value else 0);
              ok ==> entries == if 0 < count < |all| then all[..count] else all
    {
      entries := [];
      ok := client.Reply();
      if !ok {
        return;
      }
      var messages := Listed(client.db.dlq, if offset.Some? then offset.value else 0);
      for i := 0 to |messages|
        invariant entries == messages[..i]
        invariant 0 < count ==> i <= count
      {
        if i >= count && count > 0 {
          break;
        }
        entries := entries + [messages[i]];
      }
    }

    method Remove(id: TaskId, m: Option<MessageId>) returns (ok: bool)
      modifies client`db, client`history
      ensures client.reliable ==> ok && client.db == RemovedEntry(old(client.db), id, m)
      ensures client.reliable ==> client.history == old(client.history) + RemoveWrites(old(client.db), id, m)
      ensures !ok ==> client.db == old(client.db)
      ensures ok ==>
        || client.db == RemovedEntry(old(client.db), id, m)
        || client.db == RemovedEntry(old(client.db), id, m).(dlqSet := old(client.db).dlqSet)
      ensures client.reliable ==>
        var db := old(client.db);
        && client.db == db.(dlq := client.db.dlq, dlqSet := db.dlqSet - {id}) && |client.db.dlq| == |db.dlq|
        && forall d | 0 <= d < |db.dlq| :: client.db.dlq[d] == if m == Some(d) then None else db.dlq[d]
    {
      if m.Some? {
        ok := client.Execute(client.db.DlqDelete(m.value));
        if !ok {
          return;
        }
      }
      ok := true;
      var _ := client.Execute(client.db.DlqUnindex(id));
    }

    /** The scan of Retry over the whole listing, up to the first entry of the task. */
    method Find(id: TaskId) returns (ok: bool, target: Option<Entry>)
      ensures client.reliable ==> ok
      ensures ok ==> target == FirstEntryOf(client.db.dlq, id)
    {
      var entries;
      target := None;
      ok, entries := List(0, None);
      if !ok {
        return;
      }
      for i := 0 to |entries|
        invariant target.None?
        invariant forall j | 0 <= j < i :: entries[j].r.id != id
      {
        if entries[i].r.id == id {
          target := Some(entries[i]);
          assert IsFirst(entries, id, target);
          break;
        }
      }
      Scanned(client.db.dlq, id, target);
    }

    /** The caller's message id is ignored: the first entry of the task is retried. An entry leaves
        the stream only after its task was enqueued. */
    method Retry(q: RedisQueue, id: TaskId, messageId: Option<MessageId>, now: Time) returns (ok: bool, found: bool)
      requires q.client == client
      modifies client`db, client`history
      ensures ok ==> found
      ensures client.reliable ==> found == FirstFrom(old(client.db.dlq), id, 0).Some?
      ensures client.reliable ==>
        ok == Retryable(old(client.db), id) && client.db == RetriedOne(old(client.db), id, now)
      ensures client.reliable ==> client.history == old(client.history) + RetryWrites(old(client.db), id, now)
      ensures !Retryable(old(client.db), id) ==> !ok && client.db == old(client.db)
      ensures !ok ==> client.db.dlq == old(client.db).dlq && client.db.dlqSet == old(client.db).dlqSet
      ensures var db := old(client.db);
              ok ==> client.db.(dlqSet := db.dlqSet) == RetriedOne(db, id, now).(dlqSet := db.dlqSet)
      ensures client.reliable && ok ==>
        exists d: MessageId :: FirstRetried(old(client.db), client.db, id, d, now)
    {
      var target;
      ok, target := Find(id);
      found := true;
      if !ok {
        return;
      }
      if target.None? {
        return false, false;
      }
      var t := new Task.Decode(target.value.r);
      ok := t.Requeue(now);
      if !ok {
        return;
      }
      ok := q.Enqueue(t);
      if !ok {
        return;
      }
      ok := Remove(id, Some(target.value.d));
      if client.reliable && ok {
        RetriedMeans(old(client.db), id, now);
      }
    }

    method RetryAll(q: RedisQueue, now: Time) returns (ok: bool, count: nat)
      requires q.client == client
      modifies client`db, client`history
      ensures client.reliable ==> ok && Progress(client.db, count) == RetriedAll(old(client.db), now)
      ensures client.reliable ==> client.history == old(client.history) + RetryAllWrites(old(client.db), now)
      ensures count <= |Listed(old(client.db).dlq, 0)|
    {
      count := 0;
      ghost var db, history := client.db, client.history;
      var entries;
      ok, entries := List(0, None);
      if !ok {
        return;
      }
      for i := 0 to |entries|
        invariant count <= i
        invariant client.reliable ==>
          && Progress(client.db, count) == RetriedUpTo(db, entries, i, now)
          && client.history == history + RetryUpToWrites(db, entries, i, now)
      {
        ghost var before := client.db;
        var done, _ := Retry(q, entries[i].r.id, Some(entries[i].d), now);
        if client.reliable {
          OneMoreRetry(db, entries, i, now, history, Progress(before, count), done);
        }
        if !done {
          continue;
        }
        count := count + 1;
      }
    }

    method Size() returns (ok: bool, n: nat)
      ensures client.reliable ==> ok
      ensures ok ==> n == |client.db.dlqSet|
    {
      ok := client.Reply();
      n := if ok then |client.db.dlqSet| else 0;
    }

    method Contains(id: TaskId) returns (ok: bool, found: bool)
      ensures client.reliable ==> ok
      ensures ok ==> found == (id in client.db.dlqSet)
    {
      ok := client.Reply();
      found := ok && id in client.db.dlqSet;
    }

    method Clear() returns (ok: bool)
      modifies client`db, client`history
      ensures client.reliable ==> ok
      ensures ok ==> client.db == Cleared(old(client.db))
      ensures ok ==> client.db == old(client.db).(dlq := [], dlqSet := {})
      ensures !ok ==> client.db == old(client.db) || client.db == old(client.db).DlqClearStream()
    {
      ok := client.Execute(client.db.DlqClearStream());
      if !ok {
        return;
      }
      ok := client.Execute(client.db.DlqClearSet());
    }
  }

  lemma OneMoreRetry(db: Database, es: seq<Entry>, k: nat, now: Time, history: seq<Database>, before: Progress,
                     done: bool)
    requires k < |es| && before == RetriedUpTo(db, es, k, now) && done == Retryable(before.db, es[k].r.id)
    ensures Progress(RetriedOne(before.db, es[k].r.id, now), before.count + if done then 1 else 0)
            == RetriedUpTo(db, es, k + 1, now)
    ensures history + RetryUpToWrites(db, es, k, now) + RetryWrites(before.db, es[k].r.id, now)
            == history + RetryUpToWrites(db, es, k + 1, now)
  {
  }

  /** The first entry of the task among `es`, if any. */
  ghost predicate IsFirst(es: seq<Entry>, id: TaskId, target: Option<Entry>) {
    && (target.None? ==> forall j | 0 <= j < |es| :: es[j].r.id != id)
    && (target.Some? ==> exists i | 0 <= i < |es| ::
          es[i] == target.value && es[i].r.id == id && forall j | 0 <= j < i :: es[j].r.id != id)
  }

  /** The scan over the listing finds the first entry of the task. */
  lemma Scanned(dlq: seq<Option<Record>>, id: TaskId, target: Option<Entry>)
    requires IsFirst(Listed(dlq, 0), id, target)
    ensures target == FirstEntryOf(dlq, id)
  {
    ListedExactly(dlq, 0);
    var es, d := Listed(dlq, 0), FirstFrom(dlq, id, 0);
    if d.Some? {
      assert Entry(d.value, dlq[d.value].value) in es;
    }
  }

  // ---------------------------------------------------------------------------
  // RetryAll drains the queue.
  // ---------------------------------------------------------------------------

  ghost predicate AllDead(dlq: seq<Option<Record>>) {
    forall d | 0 <= d < |dlq| && dlq[d].Some? :: dlq[d].value.state == DeadLetter
  }

  /** The stream without its first n positions' entries. */
  function Emptied(dlq: seq<Option<Record>>, n: nat): seq<Option<Record>> {
    seq(|dlq|, d requires 0 <= d < |dlq| => if d < n then None else dlq[d])
  }

  /** How far the first k entries of the listing reach. */
  function Reach(es: seq<Entry>, k: nat): nat
    requires k <= |es|
  {
    if k == 0 then 0 else es[k - 1].d + 1
  }

  function TaskIds(es: seq<Entry>): set<TaskId> {
    set e | e in es :: e.r.id
  }

  /** The messages for stream p, one per entry. */
  function IdsOn(es: seq<Entry>, p: Priority): seq<TaskId> {
    if es == [] then []
    else IdsOn(es[..|es| - 1], p) + if es[|es| - 1].r.priority == p then [es[|es| - 1].r.id] else []
  }

  /** Although each inner Retry scans anew and takes the first entry of the task it is asked for,
      the k-th one takes the k-th entry of the listing. */
  lemma NextIsFirst(dlq: seq<Option<Record>>, k: nat)
    requires k < |Listed(dlq, 0)|
    ensures var es := Listed(dlq, 0);
            && FirstFrom(Emptied(dlq, Reach(es, k)), es[k].r.id, 0) == Some(es[k].d)
            && Emptied(dlq, Reach(es, k))[es[k].d := None] == Emptied(dlq, Reach(es, k + 1))
  {
    ListedExactly(dlq, 0);
    var es := Listed(dlq, 0);
    var left, e := Emptied(dlq, Reach(es, k)), es[k];
    forall d: nat | d < e.d ensures !IsEntry(left, d) {
      if IsEntry(dlq, d) {
        assert Entry(d, dlq[d].value) in es;
      }
    }
    assert IsEntry(left, e.d) && left[e.d].value == e.r;
    assert left[e.d := None] == Emptied(dlq, e.d + 1);
  }

  /** The last entry of a task. */
  function LastOf(es: seq<Entry>, id: TaskId): Option<Record> {
    if es == [] then None
    else if es[|es| - 1].r.id == id then Some(es[|es| - 1].r)
    else LastOf(es[..|es| - 1], id)
  }

  lemma {:induction false} LastOfListed(es: seq<Entry>, id: TaskId)
    ensures LastOf(es, id).Some? <==> id in TaskIds(es)
    ensures LastOf(es, id).Some? ==> LastOf(es, id).value.id == id
    ensures LastOf(es, id).Some? ==> exists i :: 0 <= i < |es| && es[i].r == LastOf(es, id).value
  {
    if es != [] {
      LastOfListed(es[..|es| - 1], id);
      assert es == es[..|es| - 1] + [es[|es| - 1]];
    }
  }

  /** Each retried task is stored as requeued from its last entry, without expiry; no other record
      changes. */
  predicate RecordDrained(db: Database, db': Database, last: Option<Record>, id: TaskId, now: Time) {
    if last.Some? then id in db'.records && db'.records[id] == Requeued(last.value, now) && id !in db'.expiring
    else
      && (id in db'.records <==> id in db.records) && (id in db'.expiring <==> id in db.expiring)
      && (id in db.records ==> db'.records[id] == db.records[id])
  }

  ghost predicate Drained(db: Database, db': Database, es: seq<Entry>, now: Time) {
    && db'.dlqSet == db.dlqSet - TaskIds(es)
    && db'.scheduled == db.scheduled
    && forall id :: RecordDrained(db, db', LastOf(es, id), id, now)
  }

  predicate Extended(s: Stream, s': Stream, ids: seq<TaskId>) {
    s' == s.(log := s.log + ids)
  }

  lemma RetriedFirst(db: Database, e: Entry, now: Time)
    requires e.r.state == DeadLetter && FirstFrom(db.dlq, e.r.id, 0) == Some(e.d) && db.dlq[e.d].value == e.r
    ensures Retryable(db, e.r.id)
    ensures RetriedOne(db, e.r.id, now) == RemovedEntry(db.Enqueued(Requeued(e.r, now)), e.r.id, Some(e.d))
  {
  }

  lemma EnqueuedAndRemoved(db: Database, r: Record, d: MessageId)
    requires d < |db.dlq|
    ensures var db' := RemovedEntry(db.Enqueued(r), r.id, Some(d));
            && db'.records == db.records[r.id := r] && db'.expiring == db.expiring - {r.id}
            && db'.streams == db.Append(r.priority, r.id).streams && db'.scheduled == db.scheduled
            && db'.dlq == db.dlq[d := None] && db'.dlqSet == db.dlqSet - {r.id}
  {
  }

  lemma DrainOne(db: Database, db1: Database, es: seq<Entry>, e: Entry, now: Time)
    requires Drained(db, db1, es, now) && e.r.state == DeadLetter && FirstFrom(db1.dlq, e.r.id, 0) == Some(e.d)
    requires IsEntry(db1.dlq, e.d) && db1.dlq[e.d].value == e.r
    ensures Retryable(db1, e.r.id)
    ensures var db2 := RetriedOne(db1, e.r.id, now);
            && Drained(db, db2, es + [e], now)
            && db2.dlq == db1.dlq[e.d := None]
            && db2.streams == db1.Append(e.r.priority, e.r.id).streams
  {
    RetriedFirst(db1, e, now);
    EnqueuedAndRemoved(db1, Requeued(e.r, now), e.d);
    assert TaskIds(es + [e]) == TaskIds(es) + {e.r.id};
    forall id ensures RecordDrained(db, RetriedOne(db1, e.r.id, now), LastOf(es + [e], id), id, now) {
      assert (es + [e])[..|es|] == es;
      assert RecordDrained(db, db1, LastOf(es, id), id, now);
    }
  }

  /** After the first k retries. */
  ghost predicate DrainedUpTo(db: Database, db': Database, es: seq<Entry>, k: nat, now: Time)
    requires k <= |es|
  {
    && db'.dlq == Emptied(db.dlq, Reach(es, k)) && Drained(db, db', es[..k], now)
    && forall p :: Extended(db.streams.Of(p), db'.streams.Of(p), IdsOn(es[..k], p))
  }

  lemma DrainNext(db: Database, db1: Database, es: seq<Entry>, e: Entry, now: Time)
    requires Drained(db, db1, es, now) && e.r.state == DeadLetter && FirstFrom(db1.dlq, e.r.id, 0) == Some(e.d)
    requires IsEntry(db1.dlq, e.d) && db1.dlq[e.d].value == e.r
    requires forall p :: Extended(db.streams.Of(p), db1.streams.Of(p), IdsOn(es, p))
    ensures var db2 := RetriedOne(db1, e.r.id, now);
            && Retryable(db1, e.r.id) && Drained(db, db2, es + [e], now) && db2.dlq == db1.dlq[e.d := None]
            && forall p :: Extended(db.streams.Of(p), db2.streams.Of(p), IdsOn(es + [e], p))
  {
    DrainOne(db, db1, es, e, now);
    ExtendOne(db, db1, es, e);
  }

  lemma DrainStep(db: Database, db1: Database, es: seq<Entry>, k: nat, now: Time)
    requires AllDead(db.dlq) && es == Listed(db.dlq, 0) && k < |es| && DrainedUpTo(db, db1, es, k, now)
    ensures Retryable(db1, es[k].r.id) && DrainedUpTo(db, RetriedOne(db1, es[k].r.id, now), es, k + 1, now)
  {
    DrainTarget(db.dlq, k);
    DrainNext(db, db1, es[..k], es[k], now);
    TakeOneMore(es, k);
  }

  /** What is left of the stream before the k-th retry, and after it. */
  lemma DrainTarget(dlq: seq<Option<Record>>, k: nat)
    requires AllDead(dlq) && k < |Listed(dlq, 0)|
    ensures var es := Listed(dlq, 0);
            var left, e := Emptied(dlq, Reach(es, k)), es[k];
            && e.r.state == DeadLetter && FirstFrom(left, e.r.id, 0) == Some(e.d)
            && IsEntry(left, e.d) && left[e.d].value == e.r
            && left[e.d := None] == Emptied(dlq, Reach(es, k + 1))
  {
    ListedExactly(dlq, 0);
    NextIsFirst(dlq, k);
    assert IsEntry(dlq, Listed(dlq, 0)[k].d);
  }

  lemma TakeOneMore(es: seq<Entry>, k: nat)
    requires k < |es|
    ensures es[..k + 1] == es[..k] + [es[k]]
  {
  }

  lemma {:induction false} DrainsUpTo(db: Database, k: nat, now: Time)
    requires AllDead(db.dlq) && k <= |Listed(db.dlq, 0)|
    ensures var es := Listed(db.dlq, 0);
            var pr := RetriedUpTo(db, es, k, now);
            pr.count == k && DrainedUpTo(db, pr.db, es, k, now)
  {
    var es := Listed(db.dlq, 0);
    if k > 0 {
      DrainsUpTo(db, k - 1, now);
      DrainStep(db, RetriedUpTo(db, es, k - 1, now).db, es, k - 1, now);
    } else {
      assert Emptied(db.dlq, 0) == db.dlq;
    }
  }

  lemma ExtendOne(db: Database, db1: Database, es: seq<Entry>, e: Entry)
    requires forall p :: Extended(db.streams.Of(p), db1.streams.Of(p), IdsOn(es, p))
    ensures forall p :: Extended(db.streams.Of(p), db1.Append(e.r.priority, e.r.id).streams.Of(p), IdsOn(es + [e], p))
  {
    assert (es + [e])[..|es|] == es;
  }

  /** Whatever entries the queue holds, several for one task included: RetryAll retries them all,
      appends exactly one message per entry to the stream of the task's priority, in entry order,
      stores each task as requeued from its last entry (Pending, no attempts, no expiry), and leaves
      no entry. The set is left empty too if it agreed with the stream. */
  lemma RetryAllDrains(db: Database, now: Time)
    requires AllDead(db.dlq)
    ensures var es, pr := Listed(db.dlq, 0), RetriedAll(db, now);
            && pr.count == |es|
            && Listed(pr.db.dlq, 0) == []
            && (forall p :: Extended(db.streams.Of(p), pr.db.streams.Of(p), IdsOn(es, p)))
            && Drained(db, pr.db, es, now)
            && (forall id | id in TaskIds(es) ::
                  id in pr.db.records && pr.db.records[id].state == Pending && pr.db.records[id].attempts == 0
                    && id !in pr.db.expiring)
            && (Agrees(db) ==> pr.db.dlqSet == {})
  {
    var es, pr := Listed(db.dlq, 0), RetriedAll(db, now);
    DrainsUpTo(db, |es|, now);
    assert es[..|es|] == es;
    NothingLeft(db.dlq);
    DrainedPending(db, pr.db, now);
    if Agrees(db) {
      AgreedIdsListed(db);
    }
  }

  lemma DrainedPending(db: Database, db': Database, now: Time)
    requires AllDead(db.dlq) && Drained(db, db', Listed(db.dlq, 0), now)
    ensures forall id | id in TaskIds(Listed(db.dlq, 0)) ::
      id in db'.records && db'.records[id].state == Pending && db'.records[id].attempts == 0 && id !in db'.expiring
  {
    ListedExactly(db.dlq, 0);
    var es := Listed(db.dlq, 0);
    forall id | id in TaskIds(es)
      ensures id in db'.records && db'.records[id].state == Pending && db'.records[id].attempts == 0
      ensures id !in db'.expiring
    {
      LastOfListed(es, id);
      assert RecordDrained(db, db', LastOf(es, id), id, now);
      assert LastOf(es, id).value.state == DeadLetter;
    }
  }

  lemma NothingListed(dlq: seq<Option<Record>>)
    requires forall d :: !IsEntry(dlq, d)
    ensures Listed(dlq, 0) == []
  {
    ListedExactly(dlq, 0);
    assert Listed(dlq, 0) != [] ==> IsEntry(dlq, Listed(dlq, 0)[0].d);
  }

  lemma NothingLeft(dlq: seq<Option<Record>>)
    ensures var es := Listed(dlq, 0); Listed(Emptied(dlq, Reach(es, |es|)), 0) == []
  {
    ListedExactly(dlq, 0);
    var es := Listed(dlq, 0);
    var left := Emptied(dlq, Reach(es, |es|));
    forall d: nat ensures !IsEntry(left, d) {
      if IsEntry(dlq, d) {
        assert Entry(d, dlq[d].value) in es;
      }
    }
    NothingListed(left);
  }

  lemma AgreedIdsListed(db: Database)
    requires Agrees(db)
    ensures db.dlqSet <= TaskIds(Listed(db.dlq, 0))
  {
    ListedExactly(db.dlq, 0);
    forall id | id in db.dlqSet ensures id in TaskIds(Listed(db.dlq, 0)) {
      var d: nat :| EntryOf(db.dlq, d, id);
      assert Entry(d, db.dlq[d].value) in Listed(db.dlq, 0);
    }
  }

  // ---------------------------------------------------------------------------
  // Agreement of the set and the stream.
  // ---------------------------------------------------------------------------

  predicate EntryOf(dlq: seq<Option<Record>>, d: MessageId, id: TaskId) {
    IsEntry(dlq, d) && dlq[d].value.id == id
  }

  /** Every id in the set has an entry. */
  ghost predicate Agrees(db: Database) {
    forall id | id in db.dlqSet :: exists d :: EntryOf(db.dlq, d, id)
  }

  /** No task has two entries, and the set holds exactly the ids of the entries. */
  ghost predicate InStep(db: Database) {
    && Agrees(db)
    && (forall d | 0 <= d < |db.dlq| && db.dlq[d].Some? :: db.dlq[d].value.id in db.dlqSet)
    && (forall c, d | 0 <= c < d < |db.dlq| && db.dlq[c].Some? && db.dlq[d].Some? ::
         db.dlq[c].value.id != db.dlq[d].value.id)
  }

  lemma AddAgrees(db: Database, r: Record, now: Time)
    ensures Agrees(db) ==> Agrees(Added(db, r, now))
    ensures InStep(db) && r.id !in db.dlqSet ==> InStep(Added(db, r, now))
  {
    var db' := Added(db, r, now);
    forall id | id in db'.dlqSet && (id != r.id ==> exists d :: EntryOf(db.dlq, d, id))
      ensures exists d :: EntryOf(db'.dlq, d, id)
    {
      if id == r.id {
        assert EntryOf(db'.dlq, |db.dlq|, id);
      } else {
        var d :| EntryOf(db.dlq, d, id);
        assert EntryOf(db'.dlq, d, id);
      }
    }
  }

  ghost predicate Removable(db: Database, id: TaskId, m: Option<MessageId>) {
    m.Some? && IsEntry(db.dlq, m.value) && db.dlq[m.value].value.id != id && db.dlq[m.value].value.id in db.dlqSet
    ==> exists d :: d != m.value && EntryOf(db.dlq, d, db.dlq[m.value].value.id)
  }

  /** Remove keeps the agreement exactly when it names the task of the entry it deletes, or that
      task is not in the set, or has another entry. */
  lemma RemoveAgrees(db: Database, id: TaskId, m: Option<MessageId>)
    requires Agrees(db)
    ensures Agrees(RemovedEntry(db, id, m)) <==> Removable(db, id, m)
  {
    var db' := RemovedEntry(db, id, m);
    forall d, i ensures EntryOf(db'.dlq, d, i) <==> EntryOf(db.dlq, d, i) && (m.Some? ==> d != m.value) {
    }
    forall i | i in db'.dlqSet && (m.Some? ==> !EntryOf(db.dlq, m.value, i))
      ensures exists d :: EntryOf(db'.dlq, d, i)
    {
      var d :| EntryOf(db.dlq, d, i);
      assert EntryOf(db'.dlq, d, i);
    }
    if m.Some? && IsEntry(db.dlq, m.value) && db.dlq[m.value].value.id in db'.dlqSet {
      var i := db.dlq[m.value].value.id;
      if d :| d != m.value && EntryOf(db.dlq, d, i) {
        assert EntryOf(db'.dlq, d, i);
      }
    }
  }

  lemma RemoveInStep(db: Database, id: TaskId, d: MessageId)
    requires InStep(db) && EntryOf(db.dlq, d, id)
    ensures InStep(RemovedEntry(db, id, Some(d)))
  {
    RemoveAgrees(db, id, Some(d));
  }

  lemma RetryAgrees(db: Database, id: TaskId, now: Time)
    ensures Agrees(db) ==> Agrees(RetriedOne(db, id, now))
    ensures InStep(db) ==> InStep(RetriedOne(db, id, now))
  {
    if Retryable(db, id) {
      var d := FirstFrom(db.dlq, id, 0).value;
      var db1 := db.Enqueued(Requeued(db.dlq[d].value, now));
      assert Agrees(db1) <==> Agrees(db);
      if Agrees(db) {
        RemoveAgrees(db1, id, Some(d));
      }
      if InStep(db) {
        RemoveInStep(db1, id, d);
      }
    }
  }

  lemma {:induction false} RetryAllAgrees(db: Database, es: seq<Entry>, k: nat, now: Time)
    requires k <= |es|
    ensures Agrees(db) ==> Agrees(RetriedUpTo(db, es, k, now).db)
    ensures InStep(db) ==> InStep(RetriedUpTo(db, es, k, now).db)
  {
    if k > 0 {
      RetryAllAgrees(db, es, k - 1, now);
      RetryAgrees(RetriedUpTo(db, es, k - 1, now).db, es[k - 1].r.id, now);
    }
  }

  datatype Call =
    | CallAdd(r: Record, now: Time)
    | CallRemove(id: TaskId, m: Option<MessageId>)
    | CallRetry(id: TaskId, now: Time)
    | CallRetryAll(now: Time)
    | CallClear

  function Apply(db: Database, c: Call): Database {
    match c
    case CallAdd(r, now) => Added(db, r, now)
    case CallRemove(id, m) => RemovedEntry(db, id, m)
    case CallRetry(id, now) => RetriedOne(db, id, now)
    case CallRetryAll(now) => RetriedAll(db, now).db
    case CallClear => Cleared(db)
  }

  function After(db: Database, calls: seq<Call>): Database {
    if calls == [] then db else Apply(After(db, calls[..|calls| - 1]), calls[|calls| - 1])
  }

  /** What keeps the agreement: every call but a Remove that takes the last entry of another, indexed
      task. In particular a Remove without a message id, or of an entry already gone. */
  ghost predicate KeepsSet(db: Database, c: Call) {
    c.CallRemove? ==> Removable(db, c.id, c.m)
  }

  /** What keeps the exact correspondence as well: calls of Remove name an entry and its task, and no
      task is added while it is still in the set. */
  predicate KeepsStep(db: Database, c: Call) {
    && (c.CallRemove? ==> c.m.Some? && EntryOf(db.dlq, c.m.value, c.id))
    && (c.CallAdd? ==> c.r.id !in db.dlqSet)
  }

  lemma ApplyAgrees(db: Database, c: Call)
    ensures Agrees(db) && KeepsSet(db, c) ==> Agrees(Apply(db, c))
    ensures InStep(db) && KeepsStep(db, c) ==> InStep(Apply(db, c))
  {
    match c
    case CallAdd(r, now) => AddAgrees(db, r, now);
    case CallRemove(id, m) =>
      if Agrees(db) {
        RemoveAgrees(db, id, m);
      }
      if InStep(db) && KeepsStep(db, c) {
        RemoveInStep(db, id, m.value);
      }
    case CallRetry(id, now) => RetryAgrees(db, id, now);
    case CallRetryAll(now) => RetryAllAgrees(db, Listed(db.dlq, 0), |Listed(db.dlq, 0)|, now);
    case CallClear =>
  }

  /** Over any sequence of complete calls, unless a Remove takes the last entry of another task, the
      set stays within the ids on the stream, so that Size never exceeds the number of entries. */
  lemma {:induction false} SetFollowsStream(calls: seq<Call>)
    requires forall k | 0 <= k < |calls| :: KeepsSet(After(EMPTY, calls[..k]), calls[k])
    ensures var db := After(EMPTY, calls); Agrees(db) && |db.dlqSet| <= |Listed(db.dlq, 0)|
  {
    if calls != [] {
      var before := calls[..|calls| - 1];
      forall k | 0 <= k < |before| ensures KeepsSet(After(EMPTY, before[..k]), before[k]) {
        assert before[..k] == calls[..k] && before[k] == calls[k];
      }
      SetFollowsStream(before);
      ApplyAgrees(After(EMPTY, before), calls[|calls| - 1]);
    }
    SizeBound(After(EMPTY, calls));
  }

  /** And if Remove always names the entry of its task, and no id is added while still present, the
      set holds exactly the ids of the entries, and Size is their number. */
  lemma {:induction false} SetMatchesStream(calls: seq<Call>)
    requires forall k | 0 <= k < |calls| :: KeepsStep(After(EMPTY, calls[..k]), calls[k])
    ensures var db := After(EMPTY, calls); InStep(db) && |db.dlqSet| == |Listed(db.dlq, 0)|
  {
    if calls != [] {
      var before := calls[..|calls| - 1];
      forall k | 0 <= k < |before| ensures KeepsStep(After(EMPTY, before[..k]), before[k]) {
        assert before[..k] == calls[..k] && before[k] == calls[k];
      }
      SetMatchesStream(before);
      ApplyAgrees(After(EMPTY, before), calls[|calls| - 1]);
    }
    SizeBound(After(EMPTY, calls));
  }

  lemma SizeBound(db: Database)
    ensures Agrees(db) ==> |db.dlqSet| <= |Listed(db.dlq, 0)|
    ensures InStep(db) ==> |db.dlqSet| == |Listed(db.dlq, 0)|
  {
    var es := Listed(db.dlq, 0);
    ListedExactly(db.dlq, 0);
    FewIds(es);
    if Agrees(db) {
      AgreedIdsListed(db);
      SubsetSize(db.dlqSet, TaskIds(es));
    }
    if InStep(db) {
      assert db.dlqSet == TaskIds(es);
      DistinctIds(es);
    }
  }

  lemma {:induction false} FewIds(es: seq<Entry>)
    ensures |TaskIds(es)| <= |es|
  {
    if es != [] {
      FewIds(es[1..]);
      assert TaskIds(es) == {es[0].r.id} + TaskIds(es[1..]);
    }
  }

  lemma {:induction false} DistinctIds(es: seq<Entry>)
    requires forall i, j | 0 <= i < j < |es| :: es[i].r.id != es[j].r.id
    ensures |TaskIds(es)| == |es|
  {
    if es != [] {
      DistinctIds(es[1..]);
      assert es[0].r.id !in TaskIds(es[1..]);
      assert TaskIds(es) == {es[0].r.id} + TaskIds(es[1..]);
    }
  }

  lemma SubsetSize(a: set<TaskId>, b: set<TaskId>)
    requires a <= b
    ensures |a| <= |b|
  {
    assert b == a + (b - a);
  }
}
