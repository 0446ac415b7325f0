/** RedisQueue (internal/queue/redis_streams.go). */
module Queue {
  import opened Tasks
  import opened Store

  /** The record is Pending with nothing left of its executions and no expiry, and the task has one more
      message, on the stream of its priority. */
  ghost predicate BackToWork(db: Database, db': Database, r: Record, now: Time) {
    && db'.records == db.records[r.id := r.(state := Pending, worker := "", attempts := 0, error := "",
                                            startedAt := None, completedAt := None, updatedAt := now)]
    && db'.expiring == db.expiring - {r.id} && db'.scheduled == db.scheduled
    && OneMoreMessage(db.streams, db'.streams, r.priority, r.id)
  }

  /** What recovery learns about one claimed message: its stream, its id and the stored record. */
  datatype Orphan = Orphan(stream: Priority, m: MessageId, r: Record)

  /** XPENDING with a count: the first pending ids, ascending. */
  function PendingIds(s: Stream, from: MessageId, count: nat): seq<MessageId>
    decreases s.next - from
  {
    if count == 0 || from >= s.next then []
    else if from in s.pel then [from] + PendingIds(s, from + 1, count - 1)
    else PendingIds(s, from + 1, count)
  }

  lemma {:induction false} PendingIdsListed(s: Stream, from: MessageId, count: nat)
    ensures var ids := PendingIds(s, from, count);
            && |ids| <= count
            && (forall i | 0 <= i < |ids| :: from <= ids[i] < s.next && ids[i] in s.pel)
            && (forall i, j | 0 <= i < j < |ids| :: ids[i] < ids[j])
            && (|ids| < count ==> forall m | from <= m < s.next && m in s.pel :: m in ids)
    decreases s.next - from
  {
    if count == 0 || from >= s.next {
    } else if from in s.pel {
      PendingIdsListed(s, from + 1, count - 1);
      var rest := PendingIds(s, from + 1, count - 1);
      assert PendingIds(s, from, count) == [from] + rest;
      forall m | |rest| + 1 < count && from <= m < s.next && m in s.pel ensures m in [from] + rest {
        assert m != from ==> m in rest;
      }
    } else {
      PendingIdsListed(s, from + 1, count);
    }
  }

  /** One message of the claiming loop: skipped while it is not idle for long enough. */
  predicate IsIdle(s: Stream, m: MessageId, minIdle: Time, now: Time) {
    m in s.pel && now - s.pel[m].since >= minIdle
  }

  const LISTING_SIZE := 100

  /** The state of the claiming loop over one stream. */
  datatype Pass = Pass(s: Stream, found: seq<Orphan>)

  /** XCLAIM and GET for one listed message: an idle one is claimed, and reported if the record of
      its task still exists. */
  function PassStep(records: map<TaskId, Record>, p: Priority, pass: Pass, m: MessageId, minIdle: Time,
                    consumer: string, now: Time): Pass {
    if !IsIdle(pass.s, m, minIdle, now) then pass
    else
      var s := pass.s.Claim(m, minIdle, consumer, now);
      if m < |s.log| && s.log[m] in records then Pass(s, pass.found + [Orphan(p, m, records[s.log[m]])])
      else pass.(s := s)
  }

  /** The first k entries of a listing. */
  function Passed(records: map<TaskId, Record>, p: Priority, s: Stream, ids: seq<MessageId>, k: nat,
                  minIdle: Time, consumer: string, now: Time): Pass
    requires k <= |ids|
  {
    if k == 0 then Pass(s, [])
    else PassStep(records, p, Passed(records, p, s, ids, k - 1, minIdle, consumer, now), ids[k - 1], minIdle,
      consumer, now)
  }

  /** A whole pass over one stream. */
  function StreamPass(db: Database, p: Priority, minIdle: Time, consumer: string, now: Time): Pass {
    var ids := PendingIds(db.streams.Of(p), 0, LISTING_SIZE);
    Passed(db.records, p, db.streams.Of(p), ids, |ids|, minIdle, consumer, now)
  }

  // The databases after each command of a call, when every command succeeds.

  function EnqueueWrites(db: Database, r: Record): seq<Database> {
    [db.Save(r, false), db.Enqueued(r)]
  }

  function DequeueWrites(db: Database, consumer: string, now: Time): seq<Database> {
    var ready := db.FirstReady();
    if ready.None? then []
    else
      var s, db1 := db.streams.Of(ready.value), db.ReadGroup(consumer, now);
      if s.next < |s.log| && s.log[s.next] in db.records then [db1] else [db1, db1.Ack(ready.value, s.next)]
  }

  /** The claims of the first k entries of a listing. */
  function PassWrites(db: Database, p: Priority, ids: seq<MessageId>, k: nat, minIdle: Time, consumer: string,
                      now: Time): seq<Database>
    requires k <= |ids|
  {
    if k == 0 then []
    else
      var s := Passed(db.records, p, db.streams.Of(p), ids, k - 1, minIdle, consumer, now).s;
      PassWrites(db, p, ids, k - 1, minIdle, consumer, now) + ClaimWrites(db, p, s, ids[k - 1], minIdle, consumer, now)
  }

  /** One claim, unless the entry is not idle, when stream p has become s. */
  function ClaimWrites(db: Database, p: Priority, s: Stream, m: MessageId, minIdle: Time, consumer: string,
                       now: Time): seq<Database> {
    if IsIdle(s, m, minIdle, now) then [db.WithStream(p, s.Claim(m, minIdle, consumer, now))] else []
  }

  function StreamWrites(db: Database, p: Priority, minIdle: Time, consumer: string, now: Time): seq<Database> {
    var ids := PendingIds(db.streams.Of(p), 0, LISTING_SIZE);
    PassWrites(db, p, ids, |ids|, minIdle, consumer, now)
  }

  /** After the claiming loops over the first n streams. */
  function ClaimedUpTo(db: Database, n: nat, minIdle: Time, consumer: string, now: Time): Database
    requires n <= 4
  {
    if n == 0 then db
    else
      var before, p := ClaimedUpTo(db, n - 1, minIdle, consumer, now), NthPriority(n - 1);
      before.WithStream(p, StreamPass(before, p, minIdle, consumer, now).s)
  }

  function ClaimAllWrites(db: Database, n: nat, minIdle: Time, consumer: string, now: Time): seq<Database>
    requires n <= 4
  {
    if n == 0 then []
    else
      ClaimAllWrites(db, n - 1, minIdle, consumer, now)
      + StreamWrites(ClaimedUpTo(db, n - 1, minIdle, consumer, now), NthPriority(n - 1), minIdle, consumer, now)
  }

  /** Recovery enqueues first and acknowledges last. */
  function RequeueWrites(db: Database, o: Orphan, now: Time): seq<Database> {
    EnqueueWrites(db, Prepared(o.r, now)) + [RequeueOne(db, o, now)]
  }

  /** A recovered message: the task prepared and enqueued again, the old message acknowledged. */
  function RequeueOne(db: Database, o: Orphan, now: Time): Database {
    db.Enqueued(Prepared(o.r, now)).Ack(o.r.priority, o.m)
  }

  /** The orphans found in the first n streams, in loop order. */
  function OrphansUpTo(db: Database, n: nat, minIdle: Time, consumer: string, now: Time): seq<Orphan>
    requires n <= 4
  {
    if n == 0 then []
    else
      OrphansUpTo(db, n - 1, minIdle, consumer, now)
      + StreamPass(db, NthPriority(n - 1), minIdle, consumer, now).found
  }

  /** A reported orphan is a pending message of its stream, with the stored record of its task. */
  predicate Genuine(db: Database, o: Orphan) {
    var s := db.streams.Of(o.stream);
    o.m in s.pel && o.m < |s.log| && s.log[o.m] in db.records && db.records[s.log[o.m]] == o.r
  }

  /** Nothing changed but consumers and delivery times of pending entries. */
  ghost predicate OnlyClaims(db: Database, db': Database) {
    && db' == db.(streams := db'.streams)
    && forall p: Priority :: SameMessages(db.streams.Of(p), db'.streams.Of(p))
  }

  /** The history went on by claims only. */
  ghost predicate GrowsByClaims(db: Database, history: seq<Database>, history': seq<Database>) {
    && |history| <= |history'| && history'[..|history|] == history
    && forall i | |history| <= i < |history'| :: OnlyClaims(db, history'[i])
  }

  predicate SameMessages(s: Stream, s': Stream) {
    s'.log == s.log && s'.next == s.next && s'.acked == s.acked && s'.pel.Keys == s.pel.Keys
  }

  datatype PriorityStats = PriorityStats(queued: nat, pendingUnacked: nat)

  datatype QueueStats = QueueStats(
    queues: map<Priority, PriorityStats>,
    scheduledCount: nat,
    totalQueued: nat,
    totalPending: nat,
    deferred: nat)

  function StatsOf(s: Stream): PriorityStats {
    PriorityStats(|s.log|, |s.pel|)
  }

  class RedisQueue {
    const client: Redis
    const retention: bool
    const claimMinIdle: Time

    constructor (client: Redis, taskRetentionDays: int, claimMinIdle: Time)
      ensures this.client == client && retention == (taskRetentionDays > 0) && this.claimMinIdle == claimMinIdle
    {
      this.client, retention, this.claimMinIdle := client, taskRetentionDays > 0, claimMinIdle;
    }

    /** On a failed append the record is deleted, even one that replaced an older record. */
    method Enqueue(t: Task) returns (ok: bool)
      modifies client`db, client`history
      ensures client.reliable ==> ok
      ensures ok ==> client.db == old(client.db).Enqueued(t.Value())
      ensures ok ==> client.history == old(client.history) + EnqueueWrites(old(client.db), t.Value())
      ensures !ok ==>
        || client.db == old(client.db)
        || client.db == old(client.db).Save(t.Value(), false)
        || client.db == old(client.db).Save(t.Value(), false).Delete(t.id)
      ensures ok ==>
        var db := old(client.db);
        && client.db.records == db.records[t.id := t.Value()] && client.db.expiring == db.expiring - {t.id}
        && OneMoreMessage(db.streams, client.db.streams, t.priority, t.id)
        && client.db == db.(records := client.db.records, expiring := client.db.expiring, streams := client.db.streams)
    {
      ok := client.Execute(client.db.Save(t.Value(), false));
      if !ok {
        return;
      }
      ok := client.Execute(client.db.Append(t.priority, t.id));
      if !ok {
        var _ := client.Execute(client.db.Delete(t.id));
      }
    }

    method GetTask(id: TaskId) returns (t: Task?)
      ensures t != null ==> fresh(t) && id in client.db.records && t.Value() == client.db.records[id]
      ensures client.reliable && t == null ==> id !in client.db.records
    {
      var ok := client.Reply();
      if !ok || id !in client.db.records {
        return null;
      }
      t := new Task.Decode(client.db.records[id]);
    }

    method UpdateTask(t: Task) returns (ok: bool)
      modifies client`db, client`history
      ensures client.reliable ==> ok
      ensures client.db == if ok then old(client.db).Update(t.Value(), retention) else old(client.db)
      ensures client.history == old(client.history) + if ok then [client.db] else []
      ensures ok ==>
        && client.db.records == old(client.db).records[t.id := t.Value()]
        && (t.id in client.db.expiring <==> retention && t.state in {Completed, Failed, Canceled, DeadLetter})
        && client.db == old(client.db).(records := client.db.records, expiring := client.db.expiring)
        && client.db.expiring - {t.id} == old(client.db).expiring - {t.id}
    {
      if t.state.IsFinal() && retention {
        ok := client.Execute(client.db.Save(t.Value(), true));
      } else {
        ok := client.Execute(client.db.Save(t.Value(), false));
      }
    }

    method Acknowledge(t: Task, m: MessageId) returns (ok: bool)
      modifies client`db, client`history
      ensures client.reliable ==> ok
      ensures client.db == if ok then old(client.db).Ack(t.priority, m) else old(client.db)
      ensures client.history == old(client.history) + if ok then [client.db] else []
      ensures ok ==>
        && OneAcknowledged(old(client.db).streams, client.db.streams, t.priority, m)
        && client.db == old(client.db).(streams := client.db.streams)
    {
      ok := client.Execute(client.db.Ack(t.priority, m));
    }

    /** The reply may hold one message per stream; only the first is used. A message whose record
        cannot be read, for whatever reason, is acknowledged. */
    method DequeueBlocking(consumer: string, now: Time) returns (t: Task?, m: MessageId)
      modifies client`db, client`history
      ensures old(client.db).FirstReady().None? ==> t == null && client.db == old(client.db)
      ensures t != null ==>
        var db, ready := old(client.db), old(client.db).FirstReady();
        && ready.Some? && fresh(t) && client.db == db.ReadGroup(consumer, now)
        && var s := db.streams.Of(ready.value);
           && m == s.next && s.log[m] in db.records && t.Value() == db.records[s.log[m]]
           && OneReadFromEach(db.streams, client.db.streams, consumer, now)
           && forall q: Priority | db.streams.Of(q).next < |db.streams.Of(q).log| :: Rank(ready.value) <= Rank(q)
      ensures t == null && old(client.db).FirstReady().Some? ==>
        var db, p := old(client.db), old(client.db).FirstReady().value;
        var s, db1 := db.streams.Of(p), db.ReadGroup(consumer, now);
        && (client.db == db || client.db == db1 || client.db == db1.Ack(p, s.next))
        && (client.reliable ==> s.log[s.next] !in db.records && client.db == db1.Ack(p, s.next))
      ensures client.reliable ==> client.history == old(client.history) + DequeueWrites(old(client.db), consumer, now)
    {
      t, m := null, 0;
      var ready := client.db.FirstReady();
      if ready.None? {
        return;
      }
      var p := ready.value;
      var first := client.db.streams.Of(p).next;
      var id := client.db.streams.Of(p).log[first];
      var ok := client.Execute(client.db.ReadGroup(consumer, now));
      if !ok {
        return;
      }
      t := GetTask(id);
      if t == null {
        var _ := client.Execute(client.db.Ack(p, first));
        return;
      }
      m := first;
    }

    /** XLEN counts every message ever appended, acknowledged or not; the pending count only those
        delivered and not acknowledged. A failed command leaves its number at zero. */
    method GetQueueStats() returns (stats: QueueStats)
      ensures forall p: Priority :: p in stats.queues
      ensures stats.scheduledCount == stats.deferred
      ensures stats.totalQueued == stats.queues[Critical].queued + stats.queues[High].queued
                                 + stats.queues[Normal].queued + stats.queues[Low].queued
      ensures stats.totalPending == stats.queues[Critical].pendingUnacked + stats.queues[High].pendingUnacked
                                  + stats.queues[Normal].pendingUnacked + stats.queues[Low].pendingUnacked
      ensures client.reliable ==>
        && stats.scheduledCount == |client.db.scheduled|
        && forall p | p in stats.queues ::
             stats.queues[p] == PriorityStats(|client.db.streams.Of(p).log|, |client.db.streams.Of(p).pel|)
    {
      stats := QueueStats(map[], 0, 0, 0, 0);
      for i := 0 to 4
        invariant forall p: Priority :: p in stats.queues <==> Rank(p) < i
        invariant stats.totalQueued == QueuedUpTo(stats.queues, i)
        invariant stats.totalPending == PendingUpTo(stats.queues, i)
        invariant client.reliable ==> forall p | p in stats.queues ::
          stats.queues[p] == StatsOf(client.db.streams.Of(p))
      {
        var p := NthPriority(i);
        var ps := PriorityStats(0, 0);
        var ok := client.Reply();
        if ok {
          ps := ps.(queued := |client.db.streams.Of(p).log|);
        }
        ok := client.Reply();
        if ok {
          ps := ps.(pendingUnacked := |client.db.streams.Of(p).pel|);
        }
        stats := stats.(queues := stats.queues[p := ps],
                        totalQueued := stats.totalQueued + ps.queued,
                        totalPending := stats.totalPending + ps.pendingUnacked);
      }
      var ok := client.Reply();
      if ok {
        stats := stats.(scheduledCount := |client.db.scheduled|);
      }
      stats := stats.(deferred := stats.scheduledCount);
    }

    /** Pending entries per priority, for the backpressure check; a failed command leaves its
        priority out. */
    method GetQueueDepth() returns (depths: map<Priority, nat>)
      ensures forall p | p in depths :: depths[p] == |client.db.streams.Of(p).pel|
      ensures client.reliable ==> forall p: Priority :: p in depths
    {
      depths := map[];
      for i := 0 to 4
        invariant forall p | p in depths :: depths[p] == |client.db.streams.Of(p).pel|
        invariant client.reliable ==> forall p: Priority | Rank(p) < i :: p in depths
      {
        var ok := client.Reply();
        if !ok {
          continue;
        }
        depths := depths[NthPriority(i) := |client.db.streams.Of(NthPriority(i)).pel|];
      }
    }

    /** XCLAIM, then GET. The task found travels as a record until recovery works on it. */
    method ClaimOne(p: Priority, m: MessageId, consumer: string, now: Time)
      returns (found: Option<Record>, ghost claimed: Stream)
      requires m < |client.db.streams.Of(p).log|
      modifies client`db, client`history
      ensures var db, s, id := old(client.db), old(client.db).streams.Of(p), old(client.db).streams.Of(p).log[m];
              && client.db == db.WithStream(p, claimed)
              && (claimed == s || claimed == s.Claim(m, claimMinIdle, consumer, now))
              && (client.history == old(client.history) || client.history == old(client.history) + [client.db])
              && (found.Some? ==> id in db.records && found.value == db.records[id])
              && (client.reliable ==>
                    && claimed == s.Claim(m, claimMinIdle, consumer, now)
                    && client.history == old(client.history) + [client.db]
                    && (found.None? ==> id !in db.records))
    {
      claimed := client.db.streams.Of(p);
      client.db.streams.WithTwice(p, claimed, claimed);
      var id := client.db.streams.Of(p).log[m];
      var ok := client.Execute(client.db.Claim(p, m, claimMinIdle, consumer, now));
      if !ok {
        return None, claimed;
      }
      claimed := client.db.streams.Of(p);
      var t := GetTask(id);
      found := if t == null then None else Some(t.Value());
    }

    /** One round of the claiming loop, for an entry that was listed with delivery time `since`. */
    method ClaimIfIdle(p: Priority, m: MessageId, since: Time, consumer: string, now: Time)
      returns (more: seq<Orphan>, ghost claimed: Stream)
      requires var s := client.db.streams.Of(p); m < |s.log| && m in s.pel && s.pel[m].since == since
      modifies client`db, client`history
      ensures var db, s := old(client.db), old(client.db).streams.Of(p);
              && client.db == db.WithStream(p, claimed)
              && (claimed == s || claimed == s.Claim(m, claimMinIdle, consumer, now))
              && (client.history == old(client.history) || client.history == old(client.history) + [client.db])
              && AllGenuine(db, p, more)
              && (client.reliable ==>
                    && Pass(claimed, more) == PassStep(db.records, p, Pass(s, []), m, claimMinIdle, consumer, now)
                    && client.history
                       == old(client.history) + ClaimWrites(db, p, s, m, claimMinIdle, consumer, now))
    {
      more, claimed := [], client.db.streams.Of(p);
      client.db.streams.WithTwice(p, claimed, claimed);
      if now - since >= claimMinIdle {
        var r;
        r, claimed := ClaimOne(p, m, consumer, now);
        if r.Some? {
          more := [Orphan(p, m, r.value)];
        }
      }
    }

    /** The claiming loop over one stream: XPENDING, then XCLAIM and GET for each idle entry. */
    method ClaimStream(p: Priority, consumer: string, now: Time) returns (found: seq<Orphan>, ghost claimed: Stream)
      requires client.db.streams.Of(p).Valid()
      modifies client`db, client`history
      ensures AllGenuine(old(client.db), p, found)
      ensures client.db == old(client.db).WithStream(p, claimed) && SameMessages(old(client.db).streams.Of(p), claimed)
      ensures client.reliable ==>
        && Pass(claimed, found) == StreamPass(old(client.db), p, claimMinIdle, consumer, now)
        && client.history == old(client.history) + StreamWrites(old(client.db), p, claimMinIdle, consumer, now)
      ensures GrowsByClaims(old(client.db), old(client.history), client.history)
    {
      ghost var db, s, h := client.db, client.db.streams.Of(p), client.history;
      found, claimed := [], s;
      db.streams.WithTwice(p, s, s);
      var ok := client.Reply();
      if !ok {
        return;
      }
      var listing := client.db.streams.Of(p).pel;
      var pending := PendingIds(client.db.streams.Of(p), 0, LISTING_SIZE);
      PendingIdsListed(s, 0, LISTING_SIZE);
      for k := 0 to |pending|
        invariant client.db == db.WithStream(p, claimed)
        invariant Claiming(db, p, listing, pending, k, Pass(claimed, found))
        invariant GrowsByClaims(db, h, client.history)
        invariant client.reliable ==>
          PassedSoFar(db, p, pending, k, Pass(claimed, found), h, client.history, claimMinIdle, consumer, now)
      {
        ghost var before, earlier := Pass(claimed, found), client.history;
        var more;
        more, claimed := ClaimIfIdle(p, pending[k], listing[pending[k]].since, consumer, now);
        db.streams.WithTwice(p, before.s, claimed);
        ClaimingStep(db, p, listing, pending, k, before, Pass(claimed, more), claimMinIdle, consumer, now);
        OneMoreClaim(db, h, earlier, client.history, client.db);
        if client.reliable {
          PassedMore(db, p, pending, k, before, Pass(claimed, more), h, earlier, client.history, claimMinIdle,
            consumer, now);
        }
        found := found + more;
      }
    }

    method ClaimOrphanedTasks(consumer: string, now: Time) returns (found: seq<Orphan>)
      requires client.db.streams.Valid()
      modifies client`db, client`history
      ensures forall i | 0 <= i < |found| :: Genuine(old(client.db), found[i])
      ensures OnlyClaims(old(client.db), client.db)
      ensures GrowsByClaims(old(client.db), old(client.history), client.history)
      ensures client.reliable ==>
        && found == OrphansUpTo(old(client.db), 4, claimMinIdle, consumer, now)
        && client.history == old(client.history) + ClaimAllWrites(old(client.db), 4, claimMinIdle, consumer, now)
        && client.db == ClaimedUpTo(old(client.db), 4, claimMinIdle, consumer, now)
    {
      found := [];
      ghost var db, h := client.db, client.history;
      for i := 0 to 4
        invariant forall i | 0 <= i < |found| :: Genuine(db, found[i])
        invariant OnlyClaims(db, client.db)
        invariant GrowsByClaims(db, h, client.history)
        invariant client.reliable ==>
          ClaimedSoFar(db, i, client.db, found, h, client.history, claimMinIdle, consumer, now)
      {
        ghost var before, earlier, orphans := client.db, client.history, found;
        var more, claimed := ClaimStream(NthPriority(i), consumer, now);
        StillOnlyClaims(db, before, h, earlier, client.history);
        if client.reliable {
          ClaimedMore(db, i, before, orphans, h, earlier, claimMinIdle, consumer, now);
        }
        found := found + more;
      }
    }
  }

  /** An error-free call before its n-th stream. */
  ghost predicate ClaimedSoFar(db: Database, n: nat, db': Database, found: seq<Orphan>, h: seq<Database>,
                               h': seq<Database>, minIdle: Time, consumer: string, now: Time)
    requires n <= 4
  {
    && db' == ClaimedUpTo(db, n, minIdle, consumer, now)
    && found == OrphansUpTo(db, n, minIdle, consumer, now)
    && h' == h + ClaimAllWrites(db, n, minIdle, consumer, now)
  }

  lemma {:induction false} ClaimedUpToStreams(db: Database, n: nat, minIdle: Time, consumer: string, now: Time)
    requires n <= 4
    ensures var db' := ClaimedUpTo(db, n, minIdle, consumer, now);
            && db' == db.(streams := db'.streams)
            && forall p: Priority :: db'.streams.Of(p)
                 == if Rank(p) < n then StreamPass(db, p, minIdle, consumer, now).s else db.streams.Of(p)
  {
    if n > 0 {
      ClaimedUpToStreams(db, n - 1, minIdle, consumer, now);
      var before := ClaimedUpTo(db, n - 1, minIdle, consumer, now);
      SamePass(db, before, NthPriority(n - 1), minIdle, consumer, now);
    }
  }

  lemma SamePass(db: Database, db': Database, p: Priority, minIdle: Time, consumer: string, now: Time)
    requires db'.records == db.records && db'.streams.Of(p) == db.streams.Of(p)
    ensures StreamPass(db', p, minIdle, consumer, now) == StreamPass(db, p, minIdle, consumer, now)
  {
  }

  lemma ClaimedMore(db: Database, n: nat, before: Database, found: seq<Orphan>, h: seq<Database>, h1: seq<Database>,
                    minIdle: Time, consumer: string, now: Time)
    requires n < 4 && ClaimedSoFar(db, n, before, found, h, h1, minIdle, consumer, now)
    ensures var p := NthPriority(n);
            var pass := StreamPass(before, p, minIdle, consumer, now);
            ClaimedSoFar(db, n + 1, before.WithStream(p, pass.s), found + pass.found, h,
              h1 + StreamWrites(before, p, minIdle, consumer, now), minIdle, consumer, now)
  {
    ClaimedUpToStreams(db, n, minIdle, consumer, now);
    SamePass(db, before, NthPriority(n), minIdle, consumer, now);
  }

  /** The claiming loop of an error-free call before its k-th entry. */
  ghost predicate PassedSoFar(db: Database, p: Priority, pending: seq<MessageId>, k: nat, pass: Pass,
                              h: seq<Database>, h': seq<Database>, minIdle: Time, consumer: string, now: Time) {
    && k <= |pending|
    && pass == Passed(db.records, p, db.streams.Of(p), pending, k, minIdle, consumer, now)
    && h' == h + PassWrites(db, p, pending, k, minIdle, consumer, now)
  }

  lemma PassedMore(db: Database, p: Priority, pending: seq<MessageId>, k: nat, pass: Pass, step: Pass,
                   h: seq<Database>, h1: seq<Database>, h2: seq<Database>, minIdle: Time, consumer: string, now: Time)
    requires k < |pending| && PassedSoFar(db, p, pending, k, pass, h, h1, minIdle, consumer, now)
    requires step == PassStep(db.records, p, Pass(pass.s, []), pending[k], minIdle, consumer, now)
    requires h2 == h1 + ClaimWrites(db.WithStream(p, pass.s), p, pass.s, pending[k], minIdle, consumer, now)
    ensures PassedSoFar(db, p, pending, k + 1, Pass(step.s, pass.found + step.found), h, h2, minIdle, consumer, now)
  {
    ClaimedTwice(db, p, pass.s, pending[k], minIdle, consumer, now);
  }

  lemma ClaimedTwice(db: Database, p: Priority, s: Stream, m: MessageId, minIdle: Time, consumer: string, now: Time)
    ensures ClaimWrites(db.WithStream(p, s), p, s, m, minIdle, consumer, now)
            == ClaimWrites(db, p, s, m, minIdle, consumer, now)
  {
    db.streams.WithTwice(p, s, s.Claim(m, minIdle, consumer, now));
  }

  lemma WithStreamOnlyClaims(db: Database, p: Priority, s: Stream)
    requires SameMessages(db.streams.Of(p), s)
    ensures OnlyClaims(db, db.WithStream(p, s))
  {
  }

  lemma OneMoreClaim(db: Database, h: seq<Database>, h1: seq<Database>, h2: seq<Database>, db': Database)
    requires GrowsByClaims(db, h, h1) && OnlyClaims(db, db') && (h2 == h1 || h2 == h1 + [db'])
    ensures GrowsByClaims(db, h, h2)
  {
  }

  lemma StillOnlyClaims(db: Database, db1: Database, h: seq<Database>, h1: seq<Database>, h2: seq<Database>)
    requires OnlyClaims(db, db1) && GrowsByClaims(db, h, h1) && GrowsByClaims(db1, h1, h2)
    ensures GrowsByClaims(db, h, h2)
  {
    forall i | |h| <= i < |h2| ensures OnlyClaims(db, h2[i]) {
      if i < |h1| {
        assert h2[..|h1|][i] == h1[i];
      } else {
        assert OnlyClaims(db1, h2[i]);
      }
    }
    assert h2[..|h|] == h2[..|h1|][..|h|];
  }

  ghost predicate AllGenuine(db: Database, p: Priority, found: seq<Orphan>) {
    forall i | 0 <= i < |found| :: Genuine(db, found[i]) && found[i].stream == p
  }

  /** The state of the claiming loop before the k-th entry of the listing. */
  ghost predicate Claiming(db: Database, p: Priority, listing: map<MessageId, Delivery>, pending: seq<MessageId>,
                           k: nat, pass: Pass) {
    && SameMessages(db.streams.Of(p), pass.s)
    && ListedStill(pass.s, listing, pending, k)
    && AllGenuine(db, p, pass.found)
  }

  lemma ClaimingStep(db: Database, p: Priority, listing: map<MessageId, Delivery>, pending: seq<MessageId>, k: nat,
                     pass: Pass, step: Pass, minIdle: Time, consumer: string, now: Time)
    requires k < |pending| && Claiming(db, p, listing, pending, k, pass)
    requires forall i, j | 0 <= i < j < |pending| :: pending[i] < pending[j]
    requires step.s == pass.s || step.s == pass.s.Claim(pending[k], minIdle, consumer, now)
    requires AllGenuine(db.WithStream(p, pass.s), p, step.found)
    ensures Claiming(db, p, listing, pending, k + 1, Pass(step.s, pass.found + step.found))
    ensures OnlyClaims(db, db.WithStream(p, step.s))
    ensures step == PassStep(db.records, p, Pass(pass.s, []), pending[k], minIdle, consumer, now) ==>
            Pass(step.s, pass.found + step.found) == PassStep(db.records, p, pass, pending[k], minIdle, consumer, now)
  {
    ClaimKeeps(db.streams.Of(p), pass.s, listing, pending, k, minIdle, consumer, now);
    WithStreamOnlyClaims(db, p, step.s);
  }

  /** The entries of the listing from the k-th on are as they were listed. */
  ghost predicate ListedStill(s: Stream, listing: map<MessageId, Delivery>, pending: seq<MessageId>, k: nat) {
    forall j | k <= j < |pending| ::
      pending[j] in listing && pending[j] in s.pel && s.pel[pending[j]] == listing[pending[j]]
  }

  lemma ClaimKeeps(s: Stream, claimed: Stream, listing: map<MessageId, Delivery>, pending: seq<MessageId>, k: nat,
                   minIdle: Time, consumer: string, now: Time)
    requires SameMessages(s, claimed) && k < |pending| && ListedStill(claimed, listing, pending, k)
    requires forall i, j | 0 <= i < j < |pending| :: pending[i] < pending[j]
    ensures ListedStill(claimed, listing, pending, k + 1)
    ensures var s' := claimed.Claim(pending[k], minIdle, consumer, now);
            SameMessages(s, s') && ListedStill(s', listing, pending, k + 1)
  {
  }

  function StatsIn(queues: map<Priority, PriorityStats>, p: Priority): PriorityStats {
    if p in queues then queues[p] else PriorityStats(0, 0)
  }

  /** Sums over the first n priorities, in loop order. */
  function QueuedUpTo(queues: map<Priority, PriorityStats>, n: nat): nat {
    (if n > 0 then StatsIn(queues, Critical).queued else 0) + (if n > 1 then StatsIn(queues, High).queued else 0)
    + (if n > 2 then StatsIn(queues, Normal).queued else 0) + (if n > 3 then StatsIn(queues, Low).queued else 0)
  }

  function PendingUpTo(queues: map<Priority, PriorityStats>, n: nat): nat {
    (if n > 0 then StatsIn(queues, Critical).pendingUnacked else 0)
    + (if n > 1 then StatsIn(queues, High).pendingUnacked else 0)
    + (if n > 2 then StatsIn(queues, Normal).pendingUnacked else 0)
    + (if n > 3 then StatsIn(queues, Low).pendingUnacked else 0)
  }
}
