/** One error-free pass of orphan recovery: what it replaces, and that it conserves carriers. */
module Recovery {
  import opened Tasks
  import opened Store
  import opened Queue

  // ---------------------------------------------------------------------------
  // The pass as a function of the database.
  // ---------------------------------------------------------------------------

  /** The first k recovered messages requeued, in the order found. */
  function RequeuedUpTo(db: Database, os: seq<Orphan>, k: nat, now: Time): Database
    requires k <= |os|
  {
    if k == 0 then db else RequeueOne(RequeuedUpTo(db, os, k - 1, now), os[k - 1], now)
  }

  /** After the claiming loops. */
  function ClaimedAll(db: Database, minIdle: Time, consumer: string, now: Time): Database {
    db.(streams := Streams(StreamPass(db, Low, minIdle, consumer, now).s,
                           StreamPass(db, Normal, minIdle, consumer, now).s,
                           StreamPass(db, High, minIdle, consumer, now).s,
                           StreamPass(db, Critical, minIdle, consumer, now).s))
  }

  function Recovered(db: Database, minIdle: Time, consumer: string, now: Time): Database {
    var os := OrphansUpTo(db, 4, minIdle, consumer, now);
    RequeuedUpTo(ClaimedAll(db, minIdle, consumer, now), os, |os|, now)
  }

  // ---------------------------------------------------------------------------
  // Which messages a pass finds.
  // ---------------------------------------------------------------------------

  /** An idle pending entry whose record can be read. */
  predicate Recoverable(records: map<TaskId, Record>, s: Stream, m: MessageId, minIdle: Time, now: Time) {
    IsIdle(s, m, minIdle, now) && m < |s.log| && s.log[m] in records
  }

  function Entries(os: seq<Orphan>): set<MessageId> {
    set o | o in os :: o.m
  }

  /** In the order of the listing, exactly the recoverable entries among `ids`, with their records. */
  ghost predicate Finds(records: map<TaskId, Record>, p: Priority, s: Stream, ids: seq<MessageId>, minIdle: Time,
                        now: Time, found: seq<Orphan>) {
    && Entries(found) == (set m | m in ids && Recoverable(records, s, m, minIdle, now))
    && (forall i | 0 <= i < |found| :: found[i].m < |s.log| && s.log[found[i].m] in records
                                    && found[i] == Orphan(p, found[i].m, records[s.log[found[i].m]]))
    && (forall i, j | 0 <= i < j < |found| :: found[i].m < found[j].m)
  }

  /** The entries of `ids` that were idle belong to the recovering consumer; nothing else changed. */
  ghost predicate ClaimsIdle(s: Stream, s': Stream, ids: seq<MessageId>, minIdle: Time, consumer: string, now: Time) {
    && SameMessages(s, s')
    && forall m | m in s.pel ::
         s'.pel[m] == if m in ids && IsIdle(s, m, minIdle, now) then Delivery(consumer, now) else s.pel[m]
  }

  lemma {:induction false} PassFinds(records: map<TaskId, Record>, p: Priority, s: Stream, ids: seq<MessageId>, k: nat,
                                     minIdle: Time, consumer: string, now: Time)
    requires k <= |ids| && forall i, j | 0 <= i < j < |ids| :: ids[i] < ids[j]
    ensures var pass := Passed(records, p, s, ids, k, minIdle, consumer, now);
            Finds(records, p, s, ids[..k], minIdle, now, pass.found)
              && ClaimsIdle(s, pass.s, ids[..k], minIdle, consumer, now)
  {
    if k > 0 {
      PassFinds(records, p, s, ids, k - 1, minIdle, consumer, now);
      assert ids[..k] == ids[..k - 1] + [ids[k - 1]];
      assert ids[k - 1] !in ids[..k - 1];
      var before, m := Passed(records, p, s, ids, k - 1, minIdle, consumer, now), ids[k - 1];
      PassStepFinds(records, p, s, ids[..k - 1], before, m, minIdle, consumer, now);
    }
  }

  lemma PassStepFinds(records: map<TaskId, Record>, p: Priority, s: Stream, ids: seq<MessageId>, pass: Pass,
                      m: MessageId,
                      minIdle: Time, consumer: string, now: Time)
    requires Finds(records, p, s, ids, minIdle, now, pass.found) && ClaimsIdle(s, pass.s, ids, minIdle, consumer, now)
    requires forall i | 0 <= i < |ids| :: ids[i] < m
    ensures var pass' := PassStep(records, p, pass, m, minIdle, consumer, now);
            Finds(records, p, s, ids + [m], minIdle, now, pass'.found)
              && ClaimsIdle(s, pass'.s, ids + [m], minIdle, consumer, now)
  {
    var pass' := PassStep(records, p, pass, m, minIdle, consumer, now);
    assert m !in ids;
    assert IsIdle(pass.s, m, minIdle, now) <==> IsIdle(s, m, minIdle, now);
    if Recoverable(records, s, m, minIdle, now) {
      var o := Orphan(p, m, records[s.log[m]]);
      assert pass'.found == pass.found + [o];
      assert Entries(pass.found + [o]) == Entries(pass.found) + {m};
      forall i | 0 <= i < |pass.found| ensures pass.found[i].m < m {
        assert pass.found[i].m in Entries(pass.found);
      }
    } else {
      assert pass'.found == pass.found;
    }
  }

  lemma StreamPassFinds(db: Database, p: Priority, minIdle: Time, consumer: string, now: Time)
    ensures var s, pass := db.streams.Of(p), StreamPass(db, p, minIdle, consumer, now);
            && Finds(db.records, p, s, PendingIds(s, 0, LISTING_SIZE), minIdle, now, pass.found)
            && ClaimsIdle(s, pass.s, PendingIds(s, 0, LISTING_SIZE), minIdle, consumer, now)
  {
    var s := db.streams.Of(p);
    var ids := PendingIds(s, 0, LISTING_SIZE);
    PendingIdsListed(s, 0, LISTING_SIZE);
    PassFinds(db.records, p, s, ids, |ids|, minIdle, consumer, now);
    assert ids[..|ids|] == ids;
  }

  // ---------------------------------------------------------------------------
  // What requeueing does to the streams.
  // ---------------------------------------------------------------------------

  function IdsOn(os: seq<Orphan>, p: Priority): seq<TaskId> {
    if os == [] then []
    else IdsOn(os[..|os| - 1], p) + if os[|os| - 1].stream == p then [os[|os| - 1].r.id] else []
  }

  function EntriesOn(os: seq<Orphan>, p: Priority): set<MessageId> {
    set o | o in os && o.stream == p :: o.m
  }

  function TaskIds(os: seq<Orphan>): set<TaskId> {
    set o | o in os :: o.r.id
  }

  /** The entries `ms` are acknowledged and the messages `ids` appended; nothing else changed. */
  predicate Replaced(s: Stream, s': Stream, ids: seq<TaskId>, ms: set<MessageId>) {
    s'.log == s.log + ids && s'.next == s.next && s'.pel == s.pel - ms && s'.acked == s.acked + ms
  }

  /** Pending messages, each with the record of its task, in the stream of the task's priority. */
  ghost predicate Pending(db: Database, os: seq<Orphan>) {
    && (forall i | 0 <= i < |os| ::
          Genuine(db, os[i]) && os[i].r.priority == os[i].stream
            && os[i].r.id == db.streams.Of(os[i].stream).log[os[i].m])
    && (forall i, j | 0 <= i < j < |os| :: os[i].stream != os[j].stream || os[i].m != os[j].m)
  }

  lemma RequeueOneOn(db: Database, o: Orphan, now: Time, p: Priority)
    ensures var s := db.streams.Of(p);
            RequeueOne(db, o, now).streams.Of(p) == if p == o.r.priority then s.Add(o.r.id).Ack(o.m) else s
  {
  }

  lemma ReplacedStep(s: Stream, s1: Stream, ids: seq<TaskId>, ms: set<MessageId>, id: TaskId, m: MessageId)
    requires Replaced(s, s1, ids, ms) && m in s1.pel
    ensures Replaced(s, s1.Add(id).Ack(m), ids + [id], ms + {m})
  {
  }

  lemma OneMoreOrphan(os: seq<Orphan>, k: nat, p: Priority)
    requires 0 < k <= |os|
    ensures var o := os[k - 1];
            && IdsOn(os[..k], p) == IdsOn(os[..k - 1], p) + (if o.stream == p then [o.r.id] else [])
            && EntriesOn(os[..k], p) == EntriesOn(os[..k - 1], p) + (if o.stream == p then {o.m} else {})
  {
    assert os[..k] == os[..k - 1] + [os[k - 1]] && os[..k][..k - 1] == os[..k - 1];
  }

  lemma OneMoreTask(os: seq<Orphan>, k: nat)
    requires 0 < k <= |os|
    ensures TaskIds(os[..k]) == TaskIds(os[..k - 1]) + {os[k - 1].r.id}
  {
    assert os[..k] == os[..k - 1] + [os[k - 1]];
  }

  lemma NotYetRequeued(db: Database, os: seq<Orphan>, k: nat)
    requires 0 < k <= |os| && Pending(db, os)
    ensures var o := os[k - 1];
            o.r.priority == o.stream && o.m in db.streams.Of(o.stream).pel && o.m !in EntriesOn(os[..k - 1], o.stream)
  {
    assert Genuine(db, os[k - 1]);
  }

  /** One more message requeued. */
  lemma RequeueStep(db: Database, db1: Database, os: seq<Orphan>, k: nat, now: Time, p: Priority)
    requires 0 < k <= |os| && Pending(db, os)
    requires Replaced(db.streams.Of(p), db1.streams.Of(p), IdsOn(os[..k - 1], p), EntriesOn(os[..k - 1], p))
    ensures Replaced(db.streams.Of(p), RequeueOne(db1, os[k - 1], now).streams.Of(p), IdsOn(os[..k], p),
      EntriesOn(os[..k], p))
  {
    var o := os[k - 1];
    OneMoreOrphan(os, k, p);
    RequeueOneOn(db1, o, now, p);
    NotYetRequeued(db, os, k);
    if o.stream == p {
      ReplacedStep(db.streams.Of(p), db1.streams.Of(p), IdsOn(os[..k - 1], p), EntriesOn(os[..k - 1], p), o.r.id, o.m);
    }
  }

  lemma {:induction false} RequeueReplaces(db: Database, os: seq<Orphan>, k: nat, now: Time, p: Priority)
    requires k <= |os| && Pending(db, os)
    ensures Replaced(db.streams.Of(p), RequeuedUpTo(db, os, k, now).streams.Of(p), IdsOn(os[..k], p),
      EntriesOn(os[..k], p))
  {
    if k > 0 {
      RequeueReplaces(db, os, k - 1, now, p);
      RequeueStep(db, RequeuedUpTo(db, os, k - 1, now), os, k, now, p);
    }
  }

  /** The tasks `ids` are Pending again, without an expiry; nothing but the streams changed besides. */
  ghost predicate PreparesOnly(db: Database, db': Database, ids: set<TaskId>, now: Time) {
    && db'.records.Keys == db.records.Keys
    && (forall id | id in db.records ::
         db'.records[id] == if id in ids then Prepared(db.records[id], now) else db.records[id])
    && db'.expiring == db.expiring - ids
    && db'.scheduled == db.scheduled && db'.dlq == db.dlq && db'.dlqSet == db.dlqSet
  }

  lemma PreparesOneMore(db: Database, db1: Database, ids: set<TaskId>, o: Orphan, now: Time)
    requires PreparesOnly(db, db1, ids, now) && db.Keyed()
    requires o.r.id in db.records && o.r == db.records[o.r.id]
    ensures PreparesOnly(db, RequeueOne(db1, o, now), ids + {o.r.id}, now)
  {
    RequeueOneElsewhere(db1, o, now);
  }

  lemma {:induction false} RequeueRecords(db: Database, os: seq<Orphan>, k: nat, now: Time)
    requires k <= |os| && Pending(db, os) && db.Keyed()
    ensures PreparesOnly(db, RequeuedUpTo(db, os, k, now), TaskIds(os[..k]), now)
  {
    if k > 0 {
      RequeueRecords(db, os, k - 1, now);
      OneMoreTask(os, k);
      assert Genuine(db, os[k - 1]);
      PreparesOneMore(db, RequeuedUpTo(db, os, k - 1, now), TaskIds(os[..k - 1]), os[k - 1], now);
    }
  }

  lemma RequeueOneElsewhere(db: Database, o: Orphan, now: Time)
    ensures var db' := RequeueOne(db, o, now);
            && db'.records == db.records[o.r.id := Prepared(o.r, now)] && db'.expiring == db.expiring - {o.r.id}
            && db'.scheduled == db.scheduled && db'.dlq == db.dlq && db'.dlqSet == db.dlqSet
  {
  }

  // ---------------------------------------------------------------------------
  // Carriers of a task on one stream.
  // ---------------------------------------------------------------------------

  /** The unacknowledged messages of a task. */
  function OpenIn(s: Stream, id: TaskId): set<MessageId> {
    set m | 0 <= m < |s.log| && m !in s.acked && s.log[m] == id
  }

  lemma ConserveStep(db: Database, db1: Database, os: seq<Orphan>, k: nat, now: Time, p: Priority, id: TaskId)
    requires 0 < k <= |os| && Pending(db, os) && db1.streams.Of(p).Valid()
    requires Replaced(db.streams.Of(p), db1.streams.Of(p), IdsOn(os[..k - 1], p), EntriesOn(os[..k - 1], p))
    ensures var s1, s2 := db1.streams.Of(p), RequeueOne(db1, os[k - 1], now).streams.Of(p);
            s2.Valid() && |OpenIn(s2, id)| == |OpenIn(s1, id)|
  {
    var o := os[k - 1];
    RequeueOneOn(db1, o, now, p);
    NotYetRequeued(db, os, k);
    if o.stream == p {
      assert o.r.id == db.streams.Of(p).log[o.m];
      ReplaceOne(db1.streams.Of(p), o.m, id);
    }
  }

  lemma {:induction false} RequeueConserves(db: Database, os: seq<Orphan>, k: nat, now: Time, p: Priority, id: TaskId)
    requires k <= |os| && Pending(db, os) && db.streams.Valid()
    ensures var s' := RequeuedUpTo(db, os, k, now).streams.Of(p);
            s'.Valid() && |OpenIn(s', id)| == |OpenIn(db.streams.Of(p), id)|
  {
    if k == 0 {
      assert db.streams.Of(p).Valid();
    } else {
      RequeueConserves(db, os, k - 1, now, p, id);
      RequeueReplaces(db, os, k - 1, now, p);
      ConserveStep(db, RequeuedUpTo(db, os, k - 1, now), os, k, now, p, id);
    }
  }

  /** Appending a message for the task of a pending one and acknowledging the latter. */
  lemma ReplaceOne(s: Stream, m: MessageId, id: TaskId)
    requires s.Valid() && m in s.pel && m < |s.log|
    ensures var s' := s.Add(s.log[m]).Ack(m);
            s'.Valid() && |OpenIn(s', id)| == |OpenIn(s, id)|
  {
    var s' := s.(log := s.log + [s.log[m]], pel := s.pel - {m}, acked := s.acked + {m});
    assert s.Add(s.log[m]).Ack(m) == s';
    ReplacedOpen(s, s', m, id);
  }

  lemma ReplacedOpen(s: Stream, s': Stream, m: MessageId, id: TaskId)
    requires m < |s.log| && m !in s.acked && |s.log| !in s.acked
    requires s'.log == s.log + [s.log[m]] && s'.acked == s.acked + {m}
    ensures |OpenIn(s', id)| == |OpenIn(s, id)|
  {
    OpenAfter(s, s', m, id);
    if s.log[m] == id {
      Swapped(OpenIn(s, id), m, |s.log|);
    }
  }

  lemma OpenAfter(s: Stream, s': Stream, m: MessageId, id: TaskId)
    requires m < |s.log| && m !in s.acked && |s.log| !in s.acked
    requires s'.log == s.log + [s.log[m]] && s'.acked == s.acked + {m}
    ensures m in OpenIn(s, id) <==> s.log[m] == id
    ensures |s.log| !in OpenIn(s, id)
    ensures OpenIn(s', id) == if s.log[m] == id then OpenIn(s, id) - {m} + {|s.log|} else OpenIn(s, id)
  {
  }

  lemma Swapped(open: set<MessageId>, m: MessageId, k: MessageId)
    requires m in open && k !in open
    ensures |open - {m} + {k}| == |open|
  {
  }

  // ---------------------------------------------------------------------------
  // The whole pass.
  // ---------------------------------------------------------------------------

  lemma {:induction false} IdsOfSum(a: seq<Orphan>, b: seq<Orphan>, p: Priority)
    ensures IdsOn(a + b, p) == IdsOn(a, p) + IdsOn(b, p)
    ensures EntriesOn(a + b, p) == EntriesOn(a, p) + EntriesOn(b, p)
    decreases |b|
  {
    if b == [] {
      assert a + b == a;
    } else {
      IdsOfSum(a, b[..|b| - 1], p);
      assert (a + b)[..|a + b| - 1] == a + b[..|b| - 1];
    }
  }

  function Ids(os: seq<Orphan>): seq<TaskId> {
    seq(|os|, i requires 0 <= i < |os| => os[i].r.id)
  }

  lemma {:induction false} IdsOfOneStream(os: seq<Orphan>, q: Priority, p: Priority)
    requires forall i | 0 <= i < |os| :: os[i].stream == q
    ensures IdsOn(os, p) == if p == q then Ids(os) else []
    ensures EntriesOn(os, p) == if p == q then Entries(os) else {}
  {
    if os != [] {
      IdsOfOneStream(os[..|os| - 1], q, p);
      assert Ids(os) == Ids(os[..|os| - 1]) + [os[|os| - 1].r.id];
    }
  }

  /** The orphans `b` of stream q after those of the streams before it. */
  lemma SumOnOneStream(a: seq<Orphan>, b: seq<Orphan>, q: Priority, p: Priority, found: seq<Orphan>)
    requires forall i | 0 <= i < |b| :: b[i].stream == q
    requires p == q ==> b == found
    requires IdsOn(a, p) == (if Rank(p) < Rank(q) then Ids(found) else [])
    requires EntriesOn(a, p) == (if Rank(p) < Rank(q) then Entries(found) else {})
    ensures IdsOn(a + b, p) == (if Rank(p) <= Rank(q) then Ids(found) else [])
    ensures EntriesOn(a + b, p) == (if Rank(p) <= Rank(q) then Entries(found) else {})
  {
    IdsOfSum(a, b, p);
    IdsOfOneStream(b, q, p);
    if p == q {
      assert IdsOn(a, p) == [] && EntriesOn(a, p) == {};
      assert [] + Ids(b) == Ids(b);
    } else {
      assert Rank(p) != Rank(q);
      assert IdsOn(a, p) + [] == IdsOn(a, p);
    }
  }

  lemma FoundOnStream(db: Database, p: Priority, minIdle: Time, consumer: string, now: Time)
    ensures var found := StreamPass(db, p, minIdle, consumer, now).found;
            forall i | 0 <= i < |found| :: found[i].stream == p
  {
    StreamPassFinds(db, p, minIdle, consumer, now);
  }

  lemma {:induction false} FoundUpTo(db: Database, n: nat, minIdle: Time, consumer: string, now: Time, p: Priority)
    requires n <= 4
    ensures var os := OrphansUpTo(db, n, minIdle, consumer, now);
            var found := StreamPass(db, p, minIdle, consumer, now).found;
            && IdsOn(os, p) == (if Rank(p) < n then Ids(found) else [])
            && EntriesOn(os, p) == (if Rank(p) < n then Entries(found) else {})
  {
    if n > 0 {
      FoundUpTo(db, n - 1, minIdle, consumer, now, p);
      var q := NthPriority(n - 1);
      FoundOnStream(db, q, minIdle, consumer, now);
      SumOnOneStream(OrphansUpTo(db, n - 1, minIdle, consumer, now),
        StreamPass(db, q, minIdle, consumer, now).found, q, p,
                     StreamPass(db, p, minIdle, consumer, now).found);
    }
  }

  lemma {:induction false} OrphansPending(db: Database, n: nat, minIdle: Time, consumer: string, now: Time)
    requires n <= 4 && db.Placed() && db.Keyed()
    ensures var os := OrphansUpTo(db, n, minIdle, consumer, now);
            && Pending(ClaimedAll(db, minIdle, consumer, now), os)
            && forall i | 0 <= i < |os| :: Rank(os[i].stream) < n
  {
    if n > 0 {
      OrphansPending(db, n - 1, minIdle, consumer, now);
      var p := NthPriority(n - 1);
      var s := db.streams.Of(p);
      StreamPassFinds(db, p, minIdle, consumer, now);
      var found := StreamPass(db, p, minIdle, consumer, now).found;
      assert ClaimedAll(db, minIdle, consumer, now).streams.Of(p) == StreamPass(db, p, minIdle, consumer, now).s;
      forall i | 0 <= i < |found|
        ensures Genuine(ClaimedAll(db, minIdle, consumer, now), found[i])
        ensures found[i].r.priority == p == found[i].stream && found[i].r.id == s.log[found[i].m]
      {
        assert found[i].m in Entries(found);
      }
    }
  }

  lemma PassReplaces(db: Database, minIdle: Time, consumer: string, now: Time, p: Priority)
    requires db.Placed() && db.Keyed()
    ensures var pass := StreamPass(db, p, minIdle, consumer, now);
            Replaced(pass.s, Recovered(db, minIdle, consumer, now).streams.Of(p), Ids(pass.found), Entries(pass.found))
  {
    var claimed, os := ClaimedAll(db, minIdle, consumer, now), OrphansUpTo(db, 4, minIdle, consumer, now);
    FoundUpTo(db, 4, minIdle, consumer, now, p);
    OrphansPending(db, 4, minIdle, consumer, now);
    RequeueReplaces(claimed, os, |os|, now, p);
    assert os[..|os|] == os;
    assert claimed.streams.Of(p) == StreamPass(db, p, minIdle, consumer, now).s;
  }

  lemma PassCounts(db: Database, minIdle: Time, consumer: string, now: Time, p: Priority, id: TaskId)
    requires db.streams.Valid() && db.Placed() && db.Keyed()
    ensures var s, s' := db.streams.Of(p), Recovered(db, minIdle, consumer, now).streams.Of(p);
            s'.Valid() && |OpenIn(s', id)| == |OpenIn(s, id)|
  {
    var claimed, os := ClaimedAll(db, minIdle, consumer, now), OrphansUpTo(db, 4, minIdle, consumer, now);
    StreamPassFinds(db, p, minIdle, consumer, now);
    OrphansPending(db, 4, minIdle, consumer, now);
    ClaimedStaysValid(db, minIdle, consumer, now);
    RequeueConserves(claimed, os, |os|, now, p, id);
    assert claimed.streams.Of(p) == StreamPass(db, p, minIdle, consumer, now).s;
    assert OpenIn(claimed.streams.Of(p), id) == OpenIn(db.streams.Of(p), id);
  }

  /** An error-free pass replaces every idle entry among the first hundred pending ones of a stream
      whose record exists by exactly one new message for the same task on the same stream, in the
      same order. Every other entry stays as it was, except that an idle one without a record now
      belongs to the recovering consumer. Each task has as many carriers on the stream as before,
      even if several of its messages were recovered. */
  lemma PassConservesCarriers(db: Database, minIdle: Time, consumer: string, now: Time, p: Priority)
    requires db.streams.Valid() && db.Placed() && db.Keyed()
    ensures var s, s', found := db.streams.Of(p), Recovered(db, minIdle, consumer, now).streams.Of(p),
                                StreamPass(db, p, minIdle, consumer, now).found;
            var listed := PendingIds(s, 0, LISTING_SIZE);
            && Finds(db.records, p, s, listed, minIdle, now, found)
            && s'.log == s.log + Ids(found) && s'.next == s.next
            && s'.acked == s.acked + Entries(found) && s'.pel.Keys == s.pel.Keys - Entries(found)
            && (forall m | m in s'.pel ::
                  s'.pel[m] == if m in listed && IsIdle(s, m, minIdle, now) then Delivery(consumer, now) else s.pel[m])
    ensures var s' := Recovered(db, minIdle, consumer, now).streams.Of(p);
            forall id :: |OpenIn(s', id)| == |OpenIn(db.streams.Of(p), id)|
  {
    StreamPassFinds(db, p, minIdle, consumer, now);
    PassReplaces(db, minIdle, consumer, now, p);
    var s' := Recovered(db, minIdle, consumer, now).streams.Of(p);
    forall id ensures |OpenIn(s', id)| == |OpenIn(db.streams.Of(p), id)| {
      PassCounts(db, minIdle, consumer, now, p, id);
    }
  }

  // ---------------------------------------------------------------------------
  // Which messages that is, counted on the stream itself.
  // ---------------------------------------------------------------------------

  /** The pending entries before m, from a given one on. */
  function PendingBefore(s: Stream, from: MessageId, m: MessageId): set<MessageId> {
    set x | x in s.pel && from <= x < m
  }

  lemma {:induction false} ListedIffFew(s: Stream, from: MessageId, count: nat, m: MessageId)
    requires s.Valid()
    ensures m in PendingIds(s, from, count) <==> from <= m && m in s.pel && |PendingBefore(s, from, m)| < count
    decreases s.next - from
  {
    if count > 0 && from < s.next {
      if from in s.pel {
        ListedIffFew(s, from + 1, count - 1, m);
        assert PendingIds(s, from, count) == [from] + PendingIds(s, from + 1, count - 1);
        if from < m {
          assert PendingBefore(s, from, m) == {from} + PendingBefore(s, from + 1, m);
        } else {
          assert PendingBefore(s, from, m) == {};
        }
      } else {
        ListedIffFew(s, from + 1, count, m);
        assert PendingBefore(s, from, m) == PendingBefore(s, from + 1, m);
      }
    }
  }

  /** What a pass must find on a stream: the pending entries with fewer than a hundred pending ones
      before them that have been idle for long enough and whose task has a record. */
  function Overdue(records: map<TaskId, Record>, s: Stream, minIdle: Time, now: Time): set<MessageId> {
    set m | m in s.pel && |PendingBefore(s, 0, m)| < 100 && now - s.pel[m].since >= minIdle
      && m < |s.log| && s.log[m] in records
  }

  ghost predicate Lists(ms: seq<MessageId>, s: Stream, due: set<MessageId>) {
    && (forall m :: m in ms <==> m in due)
    && (forall i, j | 0 <= i < j < |ms| :: ms[i] < ms[j])
    && (forall i | 0 <= i < |ms| :: ms[i] < |s.log|)
  }

  function TasksOf(s: Stream, ms: seq<MessageId>): seq<TaskId>
    requires forall i | 0 <= i < |ms| :: ms[i] < |s.log|
  {
    seq(|ms|, i requires 0 <= i < |ms| => s.log[ms[i]])
  }

  lemma FoundAreOverdue(db: Database, p: Priority, minIdle: Time, now: Time, found: seq<Orphan>)
    returns (ms: seq<MessageId>)
    requires db.streams.Of(p).Valid() && db.Keyed()
    requires Finds(db.records, p, db.streams.Of(p), PendingIds(db.streams.Of(p), 0, LISTING_SIZE), minIdle, now, found)
    ensures var s := db.streams.Of(p);
            && Entries(found) == Overdue(db.records, s, minIdle, now)
            && Lists(ms, s, Overdue(db.records, s, minIdle, now)) && Ids(found) == TasksOf(s, ms)
  {
    var s := db.streams.Of(p);
    ms := seq(|found|, i requires 0 <= i < |found| => found[i].m);
    forall m ensures m in Entries(found) <==> m in Overdue(db.records, s, minIdle, now) {
      ListedIffFew(s, 0, LISTING_SIZE, m);
    }
    forall m ensures m in ms <==> m in Entries(found) {
      if m in Entries(found) {
        var i :| 0 <= i < |found| && found[i].m == m;
        assert ms[i] == m;
      }
    }
  }

  /** The overdue entries are acknowledged, and one message for the task of each of them is appended, in
      their order; every entry behind a hundred pending ones is as it was. */
  ghost predicate OverdueReplaced(records: map<TaskId, Record>, s: Stream, s': Stream, minIdle: Time, now: Time) {
    var due := Overdue(records, s, minIdle, now);
    && s'.acked == s.acked + due && s'.pel.Keys == s.pel.Keys - due && s'.next == s.next
    && (exists ms :: Lists(ms, s, due) && s'.log == s.log + TasksOf(s, ms))
    && (forall m | m in s.pel && |PendingBefore(s, 0, m)| >= 100 :: m in s'.pel && s'.pel[m] == s.pel[m])
  }

  /** What the claiming loops report: on every stream exactly the overdue entries. */
  lemma OrphansAreOverdue(db: Database, minIdle: Time, consumer: string, now: Time, p: Priority)
    requires db.streams.Of(p).Valid() && db.Keyed()
    ensures EntriesOn(OrphansUpTo(db, 4, minIdle, consumer, now), p)
            == Overdue(db.records, db.streams.Of(p), minIdle, now)
  {
    FoundUpTo(db, 4, minIdle, consumer, now, p);
    StreamPassFinds(db, p, minIdle, consumer, now);
    var ms := FoundAreOverdue(db, p, minIdle, now, StreamPass(db, p, minIdle, consumer, now).found);
  }

  /** An error-free pass acknowledges, on every stream, exactly the entries that are overdue in this
      sense, and appends one message for the task of each of them, in their order. Every entry behind
      a hundred pending ones stays as it was. */
  lemma PassRecoversOverdue(db: Database, minIdle: Time, consumer: string, now: Time, p: Priority)
    requires db.streams.Valid() && db.Placed() && db.Keyed()
    ensures OverdueReplaced(db.records, db.streams.Of(p), Recovered(db, minIdle, consumer, now).streams.Of(p), minIdle,
              now)
  {
    var s, found := db.streams.Of(p), StreamPass(db, p, minIdle, consumer, now).found;
    PassConservesCarriers(db, minIdle, consumer, now, p);
    assert s.Valid();
    var ms := FoundAreOverdue(db, p, minIdle, now, found);
    forall m | m in s.pel && |PendingBefore(s, 0, m)| >= 100
      ensures m !in PendingIds(s, 0, LISTING_SIZE)
    {
      ListedIffFew(s, 0, LISTING_SIZE, m);
    }
  }

  lemma ClaimedStaysValid(db: Database, minIdle: Time, consumer: string, now: Time)
    requires db.streams.Valid()
    ensures ClaimedAll(db, minIdle, consumer, now).streams.Valid()
  {
    forall p: Priority ensures ClaimedAll(db, minIdle, consumer, now).streams.Of(p).Valid() {
      StreamPassFinds(db, p, minIdle, consumer, now);
      assert db.streams.Of(p).Valid();
      assert ClaimedAll(db, minIdle, consumer, now).streams.Of(p) == StreamPass(db, p, minIdle, consumer, now).s;
    }
  }

  /** The recovered tasks are Pending again, without an expiry; no other record changes, and neither
      do the scheduled set and the dead-letter queue. */
  lemma PassPreparesRecords(db: Database, minIdle: Time, consumer: string, now: Time)
    requires db.Placed() && db.Keyed()
    ensures PreparesOnly(db, Recovered(db, minIdle, consumer, now),
      TaskIds(OrphansUpTo(db, 4, minIdle, consumer, now)), now)
  {
    var os := OrphansUpTo(db, 4, minIdle, consumer, now);
    OrphansPending(db, 4, minIdle, consumer, now);
    RequeueRecords(ClaimedAll(db, minIdle, consumer, now), os, |os|, now);
    assert os[..|os|] == os;
  }

  // ---------------------------------------------------------------------------
  // All carriers of a task.
  // ---------------------------------------------------------------------------

  function OpenMessages(streams: Streams, id: TaskId): nat {
    |OpenIn(streams.low, id)| + |OpenIn(streams.normal, id)|
    + |OpenIn(streams.high, id)| + |OpenIn(streams.critical, id)|
  }

  function DeadEntries(dlq: seq<Option<Record>>, id: TaskId): set<MessageId> {
    set d | 0 <= d < |dlq| && dlq[d].Some? && dlq[d].value.id == id
  }

  /** The carriers of a task: its unacknowledged messages while the record exists, a scheduled entry
      the scheduler will not drop, and its dead-letter entries. */
  function Carriers(db: Database, id: TaskId): nat {
    (if id in db.records then OpenMessages(db.streams, id) else 0)
    + (if Deferred(db, id) then 1 else 0)
    + |DeadEntries(db.dlq, id)|
  }

  /** A pass conserves the number of all carriers of a task if and only if it does not recover a
      message of a task that also waits in the scheduled set: the record, Pending from then on, makes
      the scheduled entry one that the scheduler drops. */
  lemma PassConservesTotal(db: Database, minIdle: Time, consumer: string, now: Time, id: TaskId)
    requires db.streams.Valid() && db.Placed() && db.Keyed()
    ensures var db' := Recovered(db, minIdle, consumer, now);
            var undeferred := Deferred(db, id) && id in TaskIds(OrphansUpTo(db, 4, minIdle, consumer, now));
            && Carriers(db', id) == Carriers(db, id) - (if undeferred then 1 else 0)
            && OpenMessages(db'.streams, id) == OpenMessages(db.streams, id)
            && (Deferred(db', id) <==> Deferred(db, id) && !undeferred)
  {
    PassCounts(db, minIdle, consumer, now, Low, id);
    PassCounts(db, minIdle, consumer, now, Normal, id);
    PassCounts(db, minIdle, consumer, now, High, id);
    PassCounts(db, minIdle, consumer, now, Critical, id);
    PassPreparesRecords(db, minIdle, consumer, now);
  }

  /** A recoverable message of the task in the listing means that the pass recovers the task. */
  lemma ListedIsRecovered(db: Database, minIdle: Time, consumer: string, now: Time, p: Priority, m: MessageId)
    requires db.Placed() && db.Keyed()
    requires m in PendingIds(db.streams.Of(p), 0, LISTING_SIZE)
    requires Recoverable(db.records, db.streams.Of(p), m, minIdle, now)
    ensures db.streams.Of(p).log[m] in TaskIds(OrphansUpTo(db, 4, minIdle, consumer, now))
  {
    var os := OrphansUpTo(db, 4, minIdle, consumer, now);
    StreamPassFinds(db, p, minIdle, consumer, now);
    FoundUpTo(db, 4, minIdle, consumer, now, p);
    OrphansPending(db, 4, minIdle, consumer, now);
    assert m in EntriesOn(os, p);
    var i :| 0 <= i < |os| && os[i].stream == p && os[i].m == m;
    assert os[i].r.id == ClaimedAll(db, minIdle, consumer, now).streams.Of(p).log[m];
    assert ClaimedAll(db, minIdle, consumer, now).streams.Of(p) == StreamPass(db, p, minIdle, consumer, now).s;
  }
}
