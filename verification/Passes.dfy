/** Whole passes over many tasks are runs of the protocol too: orphan recovery, which claims first and
    requeues afterwards, RetryAll, and the loop of the scheduler over the due tasks. */
module Passes {
  import opened Tasks
  import opened Store
  import opened Protocol
  import opened Shape
  import opened Refinement
  import Q = Queue
  import D = Dlq
  import P = Pool
  import R = Recovery
  import C = Scheduler

  // ---------------------------------------------------------------------------
  // RetryAll.
  // ---------------------------------------------------------------------------

  /** No request is retrying a dead-letter entry. */
  predicate NobodyRetries(live: map<Token, Phase>) {
    forall tok | tok in live :: !tok.Dead?
  }

  lemma RetryOneMore(db: Database, es: seq<D.Entry>, k: nat, now: Time, db1: Database, db2: Database,
                     v: seq<Database>, w: seq<Database>)
    requires 0 < k <= |es| && db1 == D.RetriedUpTo(db, es, k - 1, now).db
    requires db2 == D.RetriedOne(db1, es[k - 1].r.id, now)
    requires v == D.RetryUpToWrites(db, es, k - 1, now) && w == D.RetryWrites(db1, es[k - 1].r.id, now)
    ensures db2 == D.RetriedUpTo(db, es, k, now).db && v + w == D.RetryUpToWrites(db, es, k, now)
  {
  }

  lemma {:induction false} RetryUpToRuns(s: System, es: seq<D.Entry>, k: nat, now: Time)
    returns (events: seq<Event>, s': System)
    requires k <= |es| && NobodyRetries(s.live)
    ensures Leads(s, events, s') && Alike(s, s') && s'.db == D.RetriedUpTo(s.db, es, k, now).db
    ensures Databases(s, events) == D.RetryUpToWrites(s.db, es, k, now)
    decreases k
  {
    if k == 0 {
      events, s' := [], s;
    } else {
      var first, s1 := RetryUpToRuns(s, es, k - 1, now);
      var rest;
      rest, s' := RetryOneRuns(s1, es[k - 1].r.id, now);
      events := first + rest;
      RetryOneMore(s.db, es, k, now, s1.db, s'.db, Databases(s, first), Databases(s1, rest));
      Joined(s, first, s1, rest, s');
    }
  }

  lemma RetryOneRuns(s: System, id: TaskId, now: Time) returns (events: seq<Event>, s': System)
    requires NobodyRetries(s.live)
    ensures Leads(s, events, s') && Alike(s, s') && s'.db == D.RetriedOne(s.db, id, now)
    ensures Databases(s, events) == D.RetryWrites(s.db, id, now)
  {
    if D.Retryable(s.db, id) {
      events, s' := DlqRetryRuns(s, id, now);
    } else {
      events, s' := [], s;
    }
  }

  lemma RetryAllRuns(s: System, now: Time) returns (events: seq<Event>, s': System)
    requires NobodyRetries(s.live)
    ensures Leads(s, events, s') && Alike(s, s') && s'.db == D.RetriedAll(s.db, now).db
    ensures Databases(s, events) == D.RetryAllWrites(s.db, now)
  {
    var es := D.Listed(s.db.dlq, 0);
    events, s' := RetryUpToRuns(s, es, |es|, now);
  }

  // ---------------------------------------------------------------------------
  // The scheduler.
  // ---------------------------------------------------------------------------

  lemma {:induction false} StillScheduled(db: Database, ids: seq<TaskId>, k: nat, retention: bool, now: Time,
                                          id: TaskId)
    requires k <= |ids| && id in db.scheduled && id !in ids[..k]
    ensures var db' := C.ActivatedUpTo(db, ids, k, retention, now);
            id in db'.scheduled && db'.scheduled[id] == db.scheduled[id]
  {
    if k > 0 {
      assert ids[..k] == ids[..k - 1] + [ids[k - 1]];
      StillScheduled(db, ids, k - 1, retention, now, id);
    }
  }

  /** The loop over the due tasks, each activated in one step. */
  lemma {:induction false} DuePassRuns(s: System, ids: seq<TaskId>, k: nat, now: Time)
    returns (events: seq<Event>, s': System)
    requires k <= |ids| && C.IsRange(s.db.scheduled, UnixSeconds(now), ids)
    ensures Leads(s, events, s') && s' == s.(db := C.ActivatedUpTo(s.db, ids, k, s.retention, now))
    decreases k
  {
    if k == 0 {
      events, s' := [], s;
    } else {
      var first, s1 := DuePassRuns(s, ids, k - 1, now);
      assert ids[k - 1] in ids;
      StillScheduled(s.db, ids, k - 1, s.retention, now, ids[k - 1]);
      var e := Activate(ids[k - 1], now);
      s' := Next(s1, e);
      OneStep(s1, e, s');
      Joined(s, first, s1, [e], s');
      events := first + [e];
    }
  }

  // ---------------------------------------------------------------------------
  // Recovery: who holds what after the claims.
  // ---------------------------------------------------------------------------

  function TokenOf(o: Q.Orphan): Token {
    Msg(o.stream, o.m)
  }

  /** The orphans found are held, each with its record prepared. */
  function Handed(live: map<Token, Phase>, os: seq<Q.Orphan>, now: Time): map<Token, Phase> {
    if os == [] then live
    else Handed(live, os[1..], now)[TokenOf(os[0]) := Orphan(Prepared(os[0].r, now))]
  }

  predicate Distinct(os: seq<Q.Orphan>) {
    forall i, j | 0 <= i < j < |os| :: TokenOf(os[i]) != TokenOf(os[j])
  }

  predicate Finds(os: seq<Q.Orphan>, tok: Token) {
    exists i :: 0 <= i < |os| && TokenOf(os[i]) == tok
  }

  lemma {:induction false} HandedIn(live: map<Token, Phase>, os: seq<Q.Orphan>, now: Time, tok: Token)
    ensures tok in Handed(live, os, now) <==> tok in live || Finds(os, tok)
  {
    if os != [] {
      HandedIn(live, os[1..], now, tok);
      assert Finds(os, tok) <==> TokenOf(os[0]) == tok || Finds(os[1..], tok) by {
        if i :| 0 <= i < |os| && TokenOf(os[i]) == tok {
          assert i > 0 ==> os[1..][i - 1] == os[i];
        }
        if i :| 0 <= i < |os[1..]| && TokenOf(os[1..][i]) == tok {
          assert os[i + 1] == os[1..][i];
        }
      }
    }
  }

  lemma {:induction false} HandedMore(live: map<Token, Phase>, os: seq<Q.Orphan>, o: Q.Orphan, now: Time)
    requires forall i | 0 <= i < |os| :: TokenOf(os[i]) != TokenOf(o)
    ensures Handed(live, os + [o], now) == Handed(live, os, now)[TokenOf(o) := Orphan(Prepared(o.r, now))]
  {
    if os == [] {
      assert [] + [o] == [o] && [o][1..] == [];
    } else {
      HandedMore(live, os[1..], o, now);
      assert (os + [o])[1..] == os[1..] + [o];
    }
  }

  lemma {:induction false} HandedSum(live: map<Token, Phase>, a: seq<Q.Orphan>, b: seq<Q.Orphan>, now: Time)
    requires Distinct(a + b)
    ensures Handed(Handed(live, a, now), b, now) == Handed(live, a + b, now)
    decreases |b|
  {
    if b == [] {
      assert a + b == a;
    } else {
      var front, o := b[..|b| - 1], b[|b| - 1];
      assert b == front + [o] && a + b == (a + front) + [o];
      assert forall i | 0 <= i < |a + front| :: (a + front)[i] == (a + b)[i];
      assert o == (a + b)[|a + front|];
      HandedSum(live, a, front, now);
      HandedMore(live, a + front, o, now);
      forall i | 0 <= i < |front| ensures TokenOf(front[i]) != TokenOf(o) {
        assert (a + front)[|a| + i] == front[i];
      }
      HandedMore(Handed(live, a, now), front, o, now);
    }
  }

  // ---------------------------------------------------------------------------
  // Recovery: the claims.
  // ---------------------------------------------------------------------------

  /** XCLAIM and GET for one listed message. */
  lemma ClaimOneRuns(s: System, p: Priority, m: MessageId, consumer: string, now: Time)
    returns (events: seq<Event>, s': System)
    requires m < |s.db.streams.Of(p).log|
    requires Q.IsIdle(s.db.streams.Of(p), m, s.minIdle, now) ==> Msg(p, m) !in s.live
    ensures var step := Q.PassStep(s.db.records, p, Q.Pass(s.db.streams.Of(p), []), m, s.minIdle, consumer, now);
            Leads(s, events, s')
              && s' == s.(db := s.db.WithStream(p, step.s), live := Handed(s.live, step.found, now))
    ensures Databases(s, events) == Q.ClaimWrites(s.db, p, s.db.streams.Of(p), m, s.minIdle, consumer, now)
  {
    var st := s.db.streams.Of(p);
    if Q.IsIdle(st, m, s.minIdle, now) {
      events, s' := ClaimIdleRuns(s, p, m, consumer, now);
      if st.log[m] in s.db.records {
        HandedOne(s.live, Q.Orphan(p, m, s.db.records[st.log[m]]), now);
      }
    } else {
      s.db.streams.WithTwice(p, st, st);
      events, s' := [], s;
    }
  }

  lemma HandedOne(live: map<Token, Phase>, o: Q.Orphan, now: Time)
    ensures Handed(live, [o], now) == live[TokenOf(o) := Orphan(Prepared(o.r, now))]
  {
    HandedMore(live, [], o, now);
    assert [] + [o] == [o];
  }

  lemma ClaimIdleRuns(s: System, p: Priority, m: MessageId, consumer: string, now: Time)
    returns (events: seq<Event>, s': System)
    requires m < |s.db.streams.Of(p).log| && Msg(p, m) !in s.live
    requires Q.IsIdle(s.db.streams.Of(p), m, s.minIdle, now)
    ensures var db1, id := s.db.Claim(p, m, s.minIdle, consumer, now), s.db.streams.Of(p).log[m];
            && Leads(s, events, s') && Databases(s, events) == [db1]
            && s' == if id in s.db.records then s.Hold(db1, Msg(p, m), Orphan(Prepared(s.db.records[id], now)))
                     else s.(db := db1)
  {
    var tok, id := Msg(p, m), s.db.streams.Of(p).log[m];
    var e, f := Recovery(tok, Claim(consumer, now)), Recovery(tok, LoadOrphan(now));
    var s1 := s.Hold(s.db.Claim(p, m, s.minIdle, consumer, now), tok, Claimed);
    assert Enabled(s, e) && Next(s, e) == s1;
    s' := Next(s1, f);
    LoadedOrReleased(s1, p, m, now);
    TwoSteps(s, e, f, s1, s');
    HeldTwice(s, tok, Claimed, if id in s.db.records then Orphan(Prepared(s.db.records[id], now)) else Claimed);
    events := [e, f];
  }

  lemma LoadedOrReleased(s: System, p: Priority, m: MessageId, now: Time)
    requires m < |s.db.streams.Of(p).log| && Msg(p, m) in s.live && s.live[Msg(p, m)].Claimed?
    ensures var e, id := Recovery(Msg(p, m), LoadOrphan(now)), s.db.streams.Of(p).log[m];
            && Enabled(s, e)
            && Next(s, e) == if id in s.db.records then s.Hold(s.db, Msg(p, m), Orphan(Prepared(s.db.records[id], now)))
                             else s.Release(s.db, Msg(p, m))
  {
  }

  predicate Unheld(s: System, p: Priority, ids: seq<MessageId>, now: Time) {
    forall m | m in ids && Q.IsIdle(s.db.streams.Of(p), m, s.minIdle, now) :: Msg(p, m) !in s.live
  }

  /** Whoever held an idle message among those a pass looks at is gone. */
  predicate HoldersGone(s: System, p: Priority, now: Time) {
    Unheld(s, p, Q.PendingIds(s.db.streams.Of(p), 0, Q.LISTING_SIZE), now)
  }

  /** The first k listed messages of a stream. */
  lemma {:induction false} ClaimUpToRuns(s: System, p: Priority, ids: seq<MessageId>, k: nat, consumer: string,
                                         now: Time)
    returns (events: seq<Event>, s': System)
    requires k <= |ids| && Unheld(s, p, ids, now)
    requires forall i | 0 <= i < |ids| :: ids[i] < |s.db.streams.Of(p).log|
    requires forall i, j | 0 <= i < j < |ids| :: ids[i] < ids[j]
    ensures var pass := Q.Passed(s.db.records, p, s.db.streams.Of(p), ids, k, s.minIdle, consumer, now);
            Leads(s, events, s')
              && s' == s.(db := s.db.WithStream(p, pass.s), live := Handed(s.live, pass.found, now))
    ensures Databases(s, events) == Q.PassWrites(s.db, p, ids, k, s.minIdle, consumer, now)
    decreases k
  {
    if k == 0 {
      s.db.streams.WithTwice(p, s.db.streams.Of(p), s.db.streams.Of(p));
      events, s' := [], s;
    } else {
      var first, s1 := ClaimUpToRuns(s, p, ids, k - 1, consumer, now);
      var pass := Q.Passed(s.db.records, p, s.db.streams.Of(p), ids, k - 1, s.minIdle, consumer, now);
      ClaimNext(s, s1.live, p, ids, k, pass, consumer, now);
      PassedOneMore(s, p, ids, k, pass, Databases(s, first), consumer, now);
      events, s' := ClaimOneMore(s, first, s1, p, ids[k - 1], pass, consumer, now);
    }
  }

  lemma PassedOneMore(s: System, p: Priority, ids: seq<MessageId>, k: nat, pass: Q.Pass, v: seq<Database>,
                      consumer: string, now: Time)
    requires 0 < k <= |ids|
    requires pass == Q.Passed(s.db.records, p, s.db.streams.Of(p), ids, k - 1, s.minIdle, consumer, now)
    requires v == Q.PassWrites(s.db, p, ids, k - 1, s.minIdle, consumer, now)
    ensures Q.PassStep(s.db.records, p, pass, ids[k - 1], s.minIdle, consumer, now)
            == Q.Passed(s.db.records, p, s.db.streams.Of(p), ids, k, s.minIdle, consumer, now)
    ensures v + Q.ClaimWrites(s.db, p, pass.s, ids[k - 1], s.minIdle, consumer, now)
            == Q.PassWrites(s.db, p, ids, k, s.minIdle, consumer, now)
  {
  }

  lemma ClaimOneMore(s: System, first: seq<Event>, s1: System, p: Priority, m: MessageId, pass: Q.Pass,
                     consumer: string, now: Time)
    returns (events: seq<Event>, s': System)
    requires Leads(s, first, s1)
    requires s1 == s.(db := s.db.WithStream(p, pass.s), live := Handed(s.live, pass.found, now))
    requires m < |pass.s.log| && NotYetFound(pass.found, p, m)
    requires Q.IsIdle(pass.s, m, s.minIdle, now) ==> Msg(p, m) !in s1.live
    ensures var pass' := Q.PassStep(s.db.records, p, pass, m, s.minIdle, consumer, now);
            Leads(s, events, s')
              && s' == s.(db := s.db.WithStream(p, pass'.s), live := Handed(s.live, pass'.found, now))
    ensures Databases(s, events)
            == Databases(s, first) + Q.ClaimWrites(s.db, p, pass.s, m, s.minIdle, consumer, now)
  {
    var rest;
    rest, s' := ClaimOneRuns(s1, p, m, consumer, now);
    ClaimedNext(s, p, m, pass, consumer, now);
    Joined(s, first, s1, rest, s');
    events := first + rest;
  }

  /** The next listed message is as it was before the claims, and still nobody holds it if it is idle. */
  lemma ClaimNext(s: System, live: map<Token, Phase>, p: Priority, ids: seq<MessageId>, k: nat, pass: Q.Pass,
                  consumer: string, now: Time)
    requires 0 < k <= |ids| && Unheld(s, p, ids, now)
    requires forall i, j | 0 <= i < j < |ids| :: ids[i] < ids[j]
    requires pass == Q.Passed(s.db.records, p, s.db.streams.Of(p), ids, k - 1, s.minIdle, consumer, now)
    requires live == Handed(s.live, pass.found, now)
    ensures pass.s.log == s.db.streams.Of(p).log && NotYetFound(pass.found, p, ids[k - 1])
    ensures Q.IsIdle(pass.s, ids[k - 1], s.minIdle, now) ==> Msg(p, ids[k - 1]) !in live
  {
    R.PassFinds(s.db.records, p, s.db.streams.Of(p), ids, k - 1, s.minIdle, consumer, now);
    assert ids[k - 1] !in ids[..k - 1];
    forall i | 0 <= i < |pass.found| ensures TokenOf(pass.found[i]) != Msg(p, ids[k - 1]) {
      assert pass.found[i].m in R.Entries(pass.found);
    }
    HandedIn(s.live, pass.found, now, Msg(p, ids[k - 1]));
  }

  predicate NotYetFound(found: seq<Q.Orphan>, p: Priority, m: MessageId) {
    forall i | 0 <= i < |found| :: TokenOf(found[i]) != Msg(p, m)
  }

  /** One more claim, in the databases and in the hands of the recovering process. */
  lemma ClaimedNext(s: System, p: Priority, m: MessageId, pass: Q.Pass, consumer: string, now: Time)
    requires NotYetFound(pass.found, p, m)
    ensures var pass' := Q.PassStep(s.db.records, p, pass, m, s.minIdle, consumer, now);
            var db1 := s.db.WithStream(p, pass.s);
            var step := Q.PassStep(s.db.records, p, Q.Pass(pass.s, []), m, s.minIdle, consumer, now);
            && db1.WithStream(p, step.s) == s.db.WithStream(p, pass'.s)
            && Handed(Handed(s.live, pass.found, now), step.found, now) == Handed(s.live, pass'.found, now)
            && Q.ClaimWrites(db1, p, pass.s, m, s.minIdle, consumer, now)
               == Q.ClaimWrites(s.db, p, pass.s, m, s.minIdle, consumer, now)
  {
    var step := Q.PassStep(s.db.records, p, Q.Pass(pass.s, []), m, s.minIdle, consumer, now);
    s.db.streams.WithTwice(p, pass.s, step.s);
    Q.ClaimedTwice(s.db, p, pass.s, m, s.minIdle, consumer, now);
    HandedStep(s.live, s.db.records, p, pass, m, s.minIdle, consumer, now);
  }

  lemma HandedStep(live: map<Token, Phase>, records: map<TaskId, Record>, p: Priority, pass: Q.Pass, m: MessageId,
                   minIdle: Time, consumer: string, now: Time)
    requires NotYetFound(pass.found, p, m)
    ensures var step := Q.PassStep(records, p, Q.Pass(pass.s, []), m, minIdle, consumer, now);
            && Q.PassStep(records, p, pass, m, minIdle, consumer, now) == Q.Pass(step.s, pass.found + step.found)
            && Handed(Handed(live, pass.found, now), step.found, now) == Handed(live, pass.found + step.found, now)
  {
    var step := Q.PassStep(records, p, Q.Pass(pass.s, []), m, minIdle, consumer, now);
    if step.found != [] {
      var o := step.found[0];
      assert step.found == [o] && TokenOf(o) == Msg(p, m);
      HandedOne(Handed(live, pass.found, now), o, now);
      HandedMore(live, pass.found, o, now);
    } else {
      assert pass.found + [] == pass.found;
    }
  }

  // ---------------------------------------------------------------------------
  // Recovery: all four streams.
  // ---------------------------------------------------------------------------

  lemma ClaimStreamRuns(s: System, p: Priority, consumer: string, now: Time) returns (events: seq<Event>, s': System)
    requires s.db.streams.Of(p).Valid() && HoldersGone(s, p, now)
    ensures var pass := Q.StreamPass(s.db, p, s.minIdle, consumer, now);
            Leads(s, events, s')
              && s' == s.(db := s.db.WithStream(p, pass.s), live := Handed(s.live, pass.found, now))
    ensures Databases(s, events) == Q.StreamWrites(s.db, p, s.minIdle, consumer, now)
  {
    var ids := Q.PendingIds(s.db.streams.Of(p), 0, Q.LISTING_SIZE);
    Q.PendingIdsListed(s.db.streams.Of(p), 0, Q.LISTING_SIZE);
    events, s' := ClaimUpToRuns(s, p, ids, |ids|, consumer, now);
  }

  lemma {:induction false} FoundIdle(s: System, n: nat, consumer: string, now: Time)
    requires n <= 4 && Shaped(s) && forall p :: HoldersGone(s, p, now)
    ensures var os := Q.OrphansUpTo(s.db, n, s.minIdle, consumer, now);
            && Distinct(os)
            && forall i | 0 <= i < |os| :: os[i].m < |s.db.streams.Of(os[i].stream).log|
                 && TokenOf(os[i]) !in s.live && Rank(os[i].stream) < n
  {
    if n > 0 {
      FoundIdle(s, n - 1, consumer, now);
      FoundOnStream(s, NthPriority(n - 1), consumer, now);
    }
  }

  lemma FoundOnStream(s: System, p: Priority, consumer: string, now: Time)
    requires HoldersGone(s, p, now)
    ensures var os := Q.StreamPass(s.db, p, s.minIdle, consumer, now).found;
            && Distinct(os)
            && forall i | 0 <= i < |os| :: os[i].stream == p && os[i].m < |s.db.streams.Of(p).log|
                 && TokenOf(os[i]) !in s.live
  {
    var os := Q.StreamPass(s.db, p, s.minIdle, consumer, now).found;
    R.StreamPassFinds(s.db, p, s.minIdle, consumer, now);
    forall i | 0 <= i < |os| ensures TokenOf(os[i]) !in s.live {
      assert os[i].m in R.Entries(os);
    }
  }

  lemma {:induction false} ClaimStreamsRuns(s: System, n: nat, consumer: string, now: Time)
    returns (events: seq<Event>, s': System)
    requires n <= 4 && Shaped(s) && forall p :: HoldersGone(s, p, now)
    ensures Leads(s, events, s')
    ensures s' == s.(db := Q.ClaimedUpTo(s.db, n, s.minIdle, consumer, now),
                     live := Handed(s.live, Q.OrphansUpTo(s.db, n, s.minIdle, consumer, now), now))
    ensures Databases(s, events) == Q.ClaimAllWrites(s.db, n, s.minIdle, consumer, now)
  {
    if n == 0 {
      events, s' := [], s;
    } else {
      var p := NthPriority(n - 1);
      var first, s1 := ClaimStreamsRuns(s, n - 1, consumer, now);
      NextStream(s, s1, n, consumer, now);
      var rest;
      rest, s' := ClaimStreamRuns(s1, p, consumer, now);
      Joined(s, first, s1, rest, s');
      events := first + rest;
    }
  }

  /** The claims on some streams leave the next one alone. */
  lemma NextStream(s: System, s1: System, n: nat, consumer: string, now: Time)
    requires 0 < n <= 4 && Shaped(s) && forall p :: HoldersGone(s, p, now)
    requires s1 == s.(db := Q.ClaimedUpTo(s.db, n - 1, s.minIdle, consumer, now),
                      live := Handed(s.live, Q.OrphansUpTo(s.db, n - 1, s.minIdle, consumer, now), now))
    ensures var p := NthPriority(n - 1);
            var pass := Q.StreamPass(s1.db, p, s.minIdle, consumer, now);
            && s1.db.streams.Of(p).Valid() && HoldersGone(s1, p, now)
            && pass == Q.StreamPass(s.db, p, s.minIdle, consumer, now)
            && Handed(s1.live, pass.found, now)
               == Handed(s.live, Q.OrphansUpTo(s.db, n, s.minIdle, consumer, now), now)
  {
    var p, os := NthPriority(n - 1), Q.OrphansUpTo(s.db, n - 1, s.minIdle, consumer, now);
    UntouchedStream(s.db, n, s.minIdle, consumer, now);
    assert s.db.streams.Of(p).Valid();
    FoundIdle(s, n - 1, consumer, now);
    StillGone(s, s1, p, os, now);
    FoundIdle(s, n, consumer, now);
    HandedSum(s.live, os, Q.StreamPass(s.db, p, s.minIdle, consumer, now).found, now);
  }

  lemma UntouchedStream(db: Database, n: nat, minIdle: Time, consumer: string, now: Time)
    requires 0 < n <= 4
    ensures var db1, p := Q.ClaimedUpTo(db, n - 1, minIdle, consumer, now), NthPriority(n - 1);
            && db1.streams.Of(p) == db.streams.Of(p)
            && Q.StreamPass(db1, p, minIdle, consumer, now) == Q.StreamPass(db, p, minIdle, consumer, now)
  {
    Q.ClaimedUpToStreams(db, n - 1, minIdle, consumer, now);
    Q.SamePass(db, Q.ClaimedUpTo(db, n - 1, minIdle, consumer, now), NthPriority(n - 1), minIdle, consumer, now);
  }

  lemma StillGone(s: System, s1: System, p: Priority, os: seq<Q.Orphan>, now: Time)
    requires HoldersGone(s, p, now) && forall i | 0 <= i < |os| :: os[i].stream != p
    requires s1.db.streams.Of(p) == s.db.streams.Of(p) && s1.minIdle == s.minIdle && s1.live == Handed(s.live, os, now)
    ensures HoldersGone(s1, p, now)
  {
    forall m | Q.IsIdle(s1.db.streams.Of(p), m, s1.minIdle, now)
      ensures Msg(p, m) in s1.live <==> Msg(p, m) in s.live
    {
      HandedIn(s.live, os, now, Msg(p, m));
    }
  }

  // ---------------------------------------------------------------------------
  // Recovery: the messages found are requeued, one after the other.
  // ---------------------------------------------------------------------------

  lemma {:induction false} LogsGrow(db: Database, os: seq<Q.Orphan>, k: nat, now: Time, p: Priority)
    requires k <= |os|
    ensures |db.streams.Of(p).log| <= |R.RequeuedUpTo(db, os, k, now).streams.Of(p).log|
  {
    if k > 0 {
      LogsGrow(db, os, k - 1, now, p);
      R.RequeueOneOn(R.RequeuedUpTo(db, os, k - 1, now), os[k - 1], now, p);
    }
  }

  /** Everything but Redis, the history, and who holds what. */
  predicate Beside(s: System, s': System) {
    && s'.requests == s.requests && s'.created == s.created
    && s'.retention == s.retention && s'.minIdle == s.minIdle
  }

  /** The orphans are different messages of their streams, and nobody else holds them. */
  predicate Requeuable(db: Database, live: map<Token, Phase>, os: seq<Q.Orphan>) {
    && Distinct(os)
    && forall i | 0 <= i < |os| :: os[i].m < |db.streams.Of(os[i].stream).log| && TokenOf(os[i]) !in live
  }

  lemma StillRequeuable(db: Database, live: map<Token, Phase>, os: seq<Q.Orphan>, k: nat, now: Time)
    requires k <= |os| && Requeuable(db, live, os)
    ensures Requeuable(R.RequeuedUpTo(db, os, k, now), live, os)
  {
    forall i | 0 <= i < |os| ensures os[i].m < |R.RequeuedUpTo(db, os, k, now).streams.Of(os[i].stream).log| {
      LogsGrow(db, os, k, now, os[i].stream);
    }
  }

  lemma {:induction false} RequeueUpToRuns(s: System, live: map<Token, Phase>, os: seq<Q.Orphan>, k: nat, now: Time)
    returns (events: seq<Event>, s': System)
    requires k <= |os| && s.live == Handed(live, os, now) && Requeuable(s.db, live, os)
    ensures Leads(s, events, s') && Beside(s, s') && s'.live == Handed(live, os[k..], now)
    ensures s'.db == R.RequeuedUpTo(s.db, os, k, now) && Databases(s, events) == P.RecoverWrites(s.db, os, k, now)
    decreases k
  {
    if k == 0 {
      assert os[0..] == os;
      events, s' := [], s;
    } else {
      var first, s1 := RequeueUpToRuns(s, live, os, k - 1, now);
      events, s' := RequeueOneMore(s, first, s1, live, os, k, now);
    }
  }

  lemma RequeueOneMore(s: System, first: seq<Event>, s1: System, live: map<Token, Phase>, os: seq<Q.Orphan>, k: nat,
                       now: Time)
    returns (events: seq<Event>, s': System)
    requires 0 < k <= |os| && Requeuable(s.db, live, os)
    requires Leads(s, first, s1) && Beside(s, s1) && s1.live == Handed(live, os[k - 1..], now)
    requires s1.db == R.RequeuedUpTo(s.db, os, k - 1, now)
    requires Databases(s, first) == P.RecoverWrites(s.db, os, k - 1, now)
    ensures Leads(s, events, s') && Beside(s, s') && s'.live == Handed(live, os[k..], now)
    ensures s'.db == R.RequeuedUpTo(s.db, os, k, now) && Databases(s, events) == P.RecoverWrites(s.db, os, k, now)
  {
    StillRequeuable(s.db, live, os, k - 1, now);
    var rest;
    rest, s' := RequeueNextRuns(s1, live, os, k, now);
    RecoverOneMore(s.db, os, k, now, s1.db, s'.db, Databases(s, first), Databases(s1, rest));
    Joined(s, first, s1, rest, s');
    events := first + rest;
  }

  lemma RecoverOneMore(db: Database, os: seq<Q.Orphan>, k: nat, now: Time, db1: Database, db2: Database,
                       v: seq<Database>, w: seq<Database>)
    requires 0 < k <= |os| && db1 == R.RequeuedUpTo(db, os, k - 1, now) && db2 == Q.RequeueOne(db1, os[k - 1], now)
    requires v == P.RecoverWrites(db, os, k - 1, now) && w == Q.RequeueWrites(db1, os[k - 1], now)
    ensures db2 == R.RequeuedUpTo(db, os, k, now) && v + w == P.RecoverWrites(db, os, k, now)
  {
  }

  lemma RequeueNextRuns(s: System, live: map<Token, Phase>, os: seq<Q.Orphan>, k: nat, now: Time)
    returns (events: seq<Event>, s': System)
    requires 0 < k <= |os| && s.live == Handed(live, os[k - 1..], now) && Requeuable(s.db, live, os)
    ensures Leads(s, events, s') && Beside(s, s') && s'.live == Handed(live, os[k..], now)
    ensures s'.db == Q.RequeueOne(s.db, os[k - 1], now)
    ensures Databases(s, events) == Q.RequeueWrites(s.db, os[k - 1], now)
  {
    NextHeld(live, os, k, now);
    events, s' := RequeueRuns(s, TokenOf(os[k - 1]), os[k - 1], now);
  }

  lemma NextHeld(live: map<Token, Phase>, os: seq<Q.Orphan>, k: nat, now: Time)
    requires 0 < k <= |os| && Distinct(os) && forall i | 0 <= i < |os| :: TokenOf(os[i]) !in live
    ensures var tok, held := TokenOf(os[k - 1]), Handed(live, os[k - 1..], now);
            && tok in held && held[tok] == Orphan(Prepared(os[k - 1].r, now))
            && held - {tok} == Handed(live, os[k..], now)
  {
    var tok, rest := TokenOf(os[k - 1]), os[k..];
    assert os[k - 1..][1..] == rest && os[k - 1..][0] == os[k - 1];
    HandedIn(live, rest, now, tok);
    assert !Finds(rest, tok);
    var left := Handed(live, rest, now);
    assert left[tok := Orphan(Prepared(os[k - 1].r, now))] - {tok} == left;
  }

  /** A whole pass of orphan recovery, once the holders of the idle messages are gone. */
  lemma RecoveryPassRuns(s: System, consumer: string, now: Time) returns (events: seq<Event>, s': System)
    requires Shaped(s) && forall p :: HoldersGone(s, p, now)
    ensures Leads(s, events, s') && Alike(s, s') && s'.db == R.Recovered(s.db, s.minIdle, consumer, now)
    ensures Databases(s, events) == P.RecoveryWrites(s.db, s.minIdle, consumer, now)
  {
    var os := Q.OrphansUpTo(s.db, 4, s.minIdle, consumer, now);
    var first, s1 := ClaimAllRuns(s, os, consumer, now);
    var rest;
    rest, s' := RequeueUpToRuns(s1, s.live, os, |os|, now);
    assert os[|os|..] == [];
    Joined(s, first, s1, rest, s');
    events := first + rest;
  }

  lemma ClaimAllRuns(s: System, os: seq<Q.Orphan>, consumer: string, now: Time)
    returns (events: seq<Event>, s': System)
    requires Shaped(s) && os == Q.OrphansUpTo(s.db, 4, s.minIdle, consumer, now) && forall p :: HoldersGone(s, p, now)
    ensures Leads(s, events, s') && Beside(s, s') && s'.live == Handed(s.live, os, now)
    ensures s'.db == R.ClaimedAll(s.db, s.minIdle, consumer, now) && Requeuable(s'.db, s.live, os)
    ensures Databases(s, events) == Q.ClaimAllWrites(s.db, 4, s.minIdle, consumer, now)
  {
    P.ClaimedAllIs(s.db, s.minIdle, consumer, now);
    events, s' := ClaimStreamsRuns(s, 4, consumer, now);
    FoundIdle(s, 4, consumer, now);
    SameLogs(s.db, s.minIdle, consumer, now);
  }

  lemma SameLogs(db: Database, minIdle: Time, consumer: string, now: Time)
    ensures forall p :: R.ClaimedAll(db, minIdle, consumer, now).streams.Of(p).log == db.streams.Of(p).log
  {
    forall p ensures R.ClaimedAll(db, minIdle, consumer, now).streams.Of(p).log == db.streams.Of(p).log {
      R.StreamPassFinds(db, p, minIdle, consumer, now);
      assert R.ClaimedAll(db, minIdle, consumer, now).streams.Of(p)
        == Q.StreamPass(db, p, minIdle, consumer, now).s;
    }
  }
}
