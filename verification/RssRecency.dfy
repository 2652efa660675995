/**
 Real time: what has ended for its client before a read-only transaction begins, the read does not
 miss. A read-write transaction lets its client wait until its nonblock timestamp has passed, so one
 with a later nonblock timestamp cannot have ended, and a read may skip it (src/store/strongstore/
 transactionstore.cc:538-602, 620-659; client.cc:644-690); any other conflict it waits for.
 */
module RssRecency {
  import opened RssTypes
  import opened RssSession
  import opened RssShards
  import opened RssInvariant
  import opened RssSnapshot
  import opened RssTheorems

  // ---- What is waited for, and what is skipped ----

  /** The transaction prepared at or before the read, and writes a key that is read on the shard. */
  ghost predicate WritesBelow(c: Reader, shard: nat, p: Pending) {
    Leq(p.prepareTs, c.readTs) && exists k :: k in p.writes && k in c.keys && k in c.home && c.home[k] == shard
  }

  /** The shard is strict, or the transaction may be in the reader's past, or it may have ended for its client. */
  predicate MustWait(c: Reader, p: Pending) {
    !c.rss || Leq(p.prepareTs, c.minTs) || Leq(p.nonblockTs, c.readTs)
  }

  lemma ConflictsIs(c: Reader, shard: nat, p: Pending)
    requires c.Valid()
    ensures Conflicts(c, shard, p) <==> WritesBelow(c, shard, p)
  {
    if WritesBelow(c, shard, p) {
      var k :| k in p.writes && k in c.keys && k in c.home && c.home[k] == shard;
      assert k in p.writes.Keys * c.At(shard);
    }
  }

  /** A read waits for a pending transaction exactly if it conflicts and one of the tests fails, and skips the other conflicts. */
  lemma StartsExactly(c: Reader, s: System, s': System, q: nat, tid: nat)
    requires c.Valid() && StartsRead(c, s, s', q)
    ensures tid in s'.shards[q].waiting <==>
      tid in s.shards[q].pending && WritesBelow(c, q, s.shards[q].pending[tid]) && MustWait(c, s.shards[q].pending[tid])
    ensures tid in s'.shards[q].skipped <==>
      tid in s.shards[q].pending && WritesBelow(c, q, s.shards[q].pending[tid]) && !MustWait(c, s.shards[q].pending[tid])
  {
    if tid in s.shards[q].pending { ConflictsIs(c, q, s.shards[q].pending[tid]); }
    hide Conflicts, WritesBelow;
  }

  // ---- Whoever is reported cannot have ended ----

  /** A reported transaction is one that was skipped. */
  ghost predicate ReportsSkipped(s: System) {
    forall q, r :: q in s.fast && q in s.shards && r in s.fast[q].prepares ==> r.tid in s.shards[q].skipped
  }

  /** Reports are made once, and whoever has been skipped stays so. */
  ghost predicate KeepsSkipped(s: System, s': System) {
    && s'.fast == s.fast && s'.shards.Keys == s.shards.Keys
    && forall q :: q in s.shards && q in s.fast ==> s'.shards[q].skipped == s.shards[q].skipped
  }

  lemma StartKeepsSkipped(c: Reader, s: System, s': System, q: nat)
    requires c.Valid() && ServerOK(c, s) && StartsRead(c, s, s', q)
    ensures KeepsSkipped(s, s')
  {
    assert ShardOK(c, s, q);
    hide ServerOK, ReadStarts, VersionsOK, PendingOK, LocksOK, Conflicts, Skippable;
  }

  lemma OthersKeepSkipped(c: Reader, s: System, s': System, step: Step)
    requires c.Valid() && Takes(c, s, s', step) && !step.StartRead? && !step.Answer?
    ensures KeepsSkipped(s, s')
  {
    hide Put, FastReceived, SlowReceived, LocksFree, AtHome, StartsRead, Answers;
  }

  lemma AnswerReportsSkipped(c: Reader, s: System, s': System, q: nat)
    requires c.Valid() && ReportsSkipped(s) && Answers(c, s, s', q)
    ensures ReportsSkipped(s')
  {
    hide Newest;
  }

  lemma ReportsStay(c: Reader, s: System, s': System, step: Step)
    requires c.Valid() && ServerOK(c, s) && ReportsSkipped(s) && Takes(c, s, s', step)
    ensures ReportsSkipped(s')
  {
    hide ServerOK, Prepares, DecidesCommit, DecidesAbort, Finishes, StartsRead, Answers, OtherRead, TakesFast, TakesSlow;
    if step.Answer? {
      AnswerReportsSkipped(c, s, s', step.shard);
    } else if step.StartRead? {
      StartKeepsSkipped(c, s, s', step.shard);
    } else {
      OthersKeepSkipped(c, s, s', step);
    }
  }

  lemma {:induction false} ReportsAreSkipped(c: Reader, b: seq<System>, i: nat)
    requires c.Valid() && Behaviour(c, b) && i < |b|
    ensures ReportsSkipped(b[i])
    decreases i
  {
    if i > 0 {
      ReportsAreSkipped(c, b, i - 1);
      BehaviourOK(c, b, i - 1, true);
      assert Next(c, b[i - 1], b[i - 1 + 1]);
      hide ServerOK, ClientOK, ReportsSkipped, Takes;
      var step :| Takes(c, b[i - 1], b[i], step);
      ReportsStay(c, b[i - 1], b[i], step);
    }
  }

  /** Whatever a shard has reported and has not finished yet prepared after the reader's past, and cannot have ended by the time of the read. */
  lemma ReportedHasNotEnded(c: Reader, b: seq<System>, i: nat, q: nat, r: Prepared)
    requires c.Valid() && Behaviour(c, b) && i < |b| && q in b[i].fast && r in b[i].fast[q].prepares
    ensures q in b[i].shards
    ensures r.tid in b[i].shards[q].pending ==>
      var p := b[i].shards[q].pending[r.tid]; c.rss && Less(c.minTs, p.prepareTs) && Less(c.readTs, p.nonblockTs)
  {
    hide Behaviour;
    BehaviourOK(c, b, i, true);
    ReportsAreSkipped(c, b, i);
    assert ShardOK(c, b[i], q);
    hide ClientOK, ReplyOK, VersionsOK, PendingOK, LocksOK;
  }

  // ---- A read waits no longer than for what is pending ----

  ghost predicate WaitsForPending(s: System) {
    forall q, tid :: q in s.shards && tid in s.shards[q].waiting ==> tid in s.shards[q].pending
  }

  lemma WaitsStay(c: Reader, s: System, s': System, step: Step)
    requires c.Valid() && WaitsForPending(s) && Takes(c, s, s', step)
    ensures WaitsForPending(s')
  {
    hide Put, FastReceived, SlowReceived, LocksFree, AtHome, Conflicts, Skippable, Newest, Reports;
  }

  /** A shard whose read waits for a transaction has that transaction pending: once all have ended, it answers. */
  lemma {:induction false} WaitsOnlyForPending(c: Reader, b: seq<System>, i: nat)
    requires c.Valid() && Behaviour(c, b) && i < |b|
    ensures WaitsForPending(b[i])
    decreases i
  {
    if i > 0 {
      WaitsOnlyForPending(c, b, i - 1);
      assert Next(c, b[i - 1], b[i - 1 + 1]);
      hide WaitsForPending, Takes;
      var step :| Takes(c, b[i - 1], b[i], step);
      WaitsStay(c, b[i - 1], b[i], step);
    }
  }

  // ---- Whatever may have ended is seen ----

  /** The shard has a version of `k` at that timestamp. */
  ghost predicate HasVersion(p: Shard, k: Key, ts: Timestamp) {
    exists u :: u in VersionsOf(p, k) && u.ts == ts
  }

  /** If the transaction has committed, the shard has its writes. */
  ghost predicate Applied(s: System, p: Shard, tid: nat, w: Pending) {
    && tid !in p.pending && tid in s.outcomes
    && forall ts, k :: CommittedAt(s, tid, ts) && k in w.writes ==> HasVersion(p, k, ts)
  }

  /** Before the fast reply of shard `q`: the transaction is waited for, or is over there. */
  ghost predicate Awaited(s: System, q: nat, tid: nat, w: Pending) {
    q in s.shards &&
    var p := s.shards[q];
    p.phase == Waiting && ((tid in p.pending && p.pending[tid] == w && tid in p.waiting) || Applied(s, p, tid, w))
  }

  /** The fast reply has a value of `k` that is no older than `ts`. */
  ghost predicate AsNewAs(reply: FastReply, k: Key, ts: Timestamp) {
    exists v :: v in reply.values && v.key == k && Leq(ts, v.ts)
  }

  /** In the fast reply: the transaction is not reported, and what it has written by the time of the read is taken into account. */
  ghost predicate Accounted(c: Reader, s: System, q: nat, tid: nat, w: Pending)
    requires c.Valid()
  {
    && q in s.shards && q in s.fast && tid !in s.shards[q].pending && tid in s.outcomes
    && (forall r :: r in s.fast[q].prepares ==> r.tid != tid)
    && (forall ts, k :: CommittedAt(s, tid, ts) && Leq(ts, c.readTs) && k in w.writes && k in c.At(q) ==> AsNewAs(s.fast[q], k, ts))
  }

  ghost predicate Heard(c: Reader, s: System, q: nat, tid: nat, w: Pending)
    requires c.Valid()
  {
    if q in s.fast then Accounted(c, s, q, tid, w) else Awaited(s, q, tid, w)
  }

  lemma AnswerAccounts(c: Reader, s: System, s': System, q: nat, tid: nat, w: Pending)
    requires c.Valid() && Answers(c, s, s', q) && Awaited(s, q, tid, w)
    ensures Accounted(c, s', q, tid, w)
  {
    var p := s.shards[q];
    forall ts, k | CommittedAt(s', tid, ts) && Leq(ts, c.readTs) && k in w.writes && k in c.At(q)
      ensures AsNewAs(s'.fast[q], k, ts)
    {
      assert CommittedAt(s, tid, ts);
      var u :| u in VersionsOf(p, k) && u.ts == ts;
      var v :| v in s'.fast[q].values && v.key == k;
      assert Newest(VersionsOf(p, k), c.readTs, v);
    }
  }

  lemma FinishApplies(c: Reader, s: System, s': System, q: nat, tid: nat, w: Pending)
    requires c.Valid() && ShardIn(c, s, q) && Finishes(c, s, s', q, tid) && s.shards[q].pending[tid] == w
    ensures Applied(s', s'.shards[q], tid, w)
  {
    hide ShardOK, Put;
    forall ts, k | CommittedAt(s', tid, ts) && k in w.writes ensures HasVersion(s'.shards[q], k, ts) {
      assert CommittedAt(s, tid, ts);
      WritesArrive(c, s, s', q, tid, k, ts);
    }
  }

  ghost predicate ShardIn(c: Reader, s: System, q: nat)
    requires c.Valid()
  {
    q in s.shards && ShardOK(c, s, q)
  }

  lemma FinishKeepsApplied(c: Reader, s: System, s': System, q: nat, other: nat, tid: nat, w: Pending)
    requires c.Valid() && ShardIn(c, s, q) && Finishes(c, s, s', q, other) && Applied(s, s.shards[q], tid, w)
    ensures Applied(s', s'.shards[q], tid, w)
  {
    hide ShardOK, Put;
    forall ts, k | CommittedAt(s', tid, ts) && k in w.writes ensures HasVersion(s'.shards[q], k, ts) {
      assert CommittedAt(s, tid, ts);
      var u :| u in VersionsOf(s.shards[q], k) && u.ts == ts;
      VersionsAfter(c, s, s', q, other, k, u);
    }
  }

  lemma FinishHeard(c: Reader, s: System, s': System, q: nat, at: nat, other: nat, tid: nat, w: Pending)
    requires c.Valid() && ShardIn(c, s, q) && Finishes(c, s, s', at, other) && Heard(c, s, q, tid, w)
    ensures Heard(c, s', q, tid, w)
  {
    hide ShardOK, Put, AsNewAs, HasVersion;
    assert forall ts :: CommittedAt(s', tid, ts) ==> CommittedAt(s, tid, ts);
    if at == q && q !in s.fast {
      if other == tid && tid in s.shards[q].pending {
        FinishApplies(c, s, s', q, tid, w);
      } else if Applied(s, s.shards[q], tid, w) {
        FinishKeepsApplied(c, s, s', q, other, tid, w);
      }
    }
  }

  /** The step leaves shard `q` alone, but for its clock and for transactions that are not `tid`. */
  ghost predicate LeavesHeard(s: System, s': System, q: nat, tid: nat) {
    && s'.fast == s.fast && s'.shards.Keys == s.shards.Keys
    && (tid in s.outcomes ==> tid in s'.outcomes && s'.outcomes[tid] == s.outcomes[tid])
    && (q in s.shards ==>
          var p, p' := s.shards[q], s'.shards[q];
          && p'.versions == p.versions && p'.phase == p.phase && p'.waiting == p.waiting
          && (tid in p.pending ==> tid in p'.pending && p'.pending[tid] == p.pending[tid])
          && (tid in p'.pending && tid in s.outcomes ==> tid in p.pending))
  }

  lemma LeftHeard(c: Reader, s: System, s': System, q: nat, tid: nat, w: Pending)
    requires c.Valid() && LeavesHeard(s, s', q, tid) && Heard(c, s, q, tid, w)
    ensures Heard(c, s', q, tid, w)
  {
    hide AsNewAs;
    assert tid in s.outcomes ==> forall ts :: CommittedAt(s', tid, ts) ==> CommittedAt(s, tid, ts);
    if q !in s.fast && Applied(s, s.shards[q], tid, w) {
      forall ts, k | CommittedAt(s', tid, ts) && k in w.writes ensures HasVersion(s'.shards[q], k, ts) {
        assert CommittedAt(s, tid, ts);
        var u :| u in VersionsOf(s.shards[q], k) && u.ts == ts;
        assert u in VersionsOf(s'.shards[q], k);
      }
    }
  }

  lemma TransactionLeaves(c: Reader, s: System, s': System, step: Step, q: nat, tid: nat)
    requires c.Valid() && Takes(c, s, s', step) && !step.StartRead? && !step.Answer? && !step.Finish?
    ensures LeavesHeard(s, s', q, tid)
  {
    hide Put, FastReceived, SlowReceived, LocksFree, AtHome, StartsRead, Answers, Finishes;
  }

  lemma StartsElsewhere(c: Reader, s: System, s': System, at: nat, q: nat, tid: nat)
    requires c.Valid() && StartsRead(c, s, s', at) && q in s.shards && s.shards[q].phase != Unseen
    ensures LeavesHeard(s, s', q, tid)
  {
    hide ReadStarts;
  }

  lemma AnswerElsewhere(c: Reader, s: System, s': System, at: nat, q: nat, tid: nat, w: Pending)
    requires c.Valid() && Answers(c, s, s', at) && at != q && Heard(c, s, q, tid, w)
    ensures Heard(c, s', q, tid, w)
  {
    hide Newest, Reports, AsNewAs, HasVersion;
    assert forall ts :: CommittedAt(s', tid, ts) <==> CommittedAt(s, tid, ts);
  }

  lemma HeardStep(c: Reader, s: System, s': System, step: Step, q: nat, tid: nat, w: Pending)
    requires c.Valid() && ServerOK(c, s) && Heard(c, s, q, tid, w) && Takes(c, s, s', step)
    ensures Heard(c, s', q, tid, w)
  {
    HeardPhase(c, s, q, tid, w);
    hide ServerOK, Heard, ShardOK, LeavesHeard, Prepares, DecidesCommit, DecidesAbort, Finishes, OtherRead, TakesFast, TakesSlow,
      StartsRead, Answers;
    if step.Finish? {
      FinishHeard(c, s, s', q, step.shard, step.tid, tid, w);
    } else if step.Answer? {
      AnswerStep(c, s, s', step.shard, q, tid, w);
    } else {
      if step.StartRead? {
        StartsElsewhere(c, s, s', step.shard, q, tid);
      } else {
        TransactionLeaves(c, s, s', step, q, tid);
      }
      LeftHeard(c, s, s', q, tid, w);
    }
  }

  lemma HeardPhase(c: Reader, s: System, q: nat, tid: nat, w: Pending)
    requires c.Valid() && ServerOK(c, s) && Heard(c, s, q, tid, w)
    ensures ShardIn(c, s, q) && s.shards[q].phase != Unseen && (q in s.fast <==> s.shards[q].phase == Answered)
  {
    assert ShardOK(c, s, q);
    hide ServerOK, VersionsOK, PendingOK, LocksOK, Conflicts, Skippable;
  }

  lemma AnswerStep(c: Reader, s: System, s': System, at: nat, q: nat, tid: nat, w: Pending)
    requires c.Valid() && Answers(c, s, s', at) && Heard(c, s, q, tid, w)
    requires q in s.shards && (q in s.fast <==> s.shards[q].phase == Answered)
    ensures Heard(c, s', q, tid, w)
  {
    if at != q {
      AnswerElsewhere(c, s, s', at, q, tid, w);
    } else {
      hide Newest, Reports, Applied, Accounted;
      AnswerAccounts(c, s, s', q, tid, w);
    }
  }

  /** The read begins on shard `q` at step `i`, while the transaction `tid` is pending there as `w`, conflicts, and may have ended for its client. */
  ghost predicate BeginsAfter(c: Reader, b: seq<System>, i: nat, q: nat, tid: nat, w: Pending)
    requires c.Valid()
  {
    && i + 1 < |b| && StartsRead(c, b[i], b[i + 1], q)
    && tid in b[i].shards[q].pending && b[i].shards[q].pending[tid] == w
    && WritesBelow(c, q, w) && Leq(w.nonblockTs, c.readTs)
  }

  lemma StartAwaits(c: Reader, b: seq<System>, i: nat, q: nat, tid: nat, w: Pending)
    requires c.Valid() && Behaviour(c, b) && BeginsAfter(c, b, i, q, tid, w)
    ensures Heard(c, b[i + 1], q, tid, w)
  {
    BehaviourOK(c, b, i, true);
    assert ShardOK(c, b[i], q);
    hide Behaviour, ServerOK, ClientOK, VersionsOK, PendingOK, LocksOK, WritesBelow, ReadStarts;
    StartsExactly(c, b[i], b[i + 1], q, tid);
    assert b[i + 1].shards[q].phase == Waiting by { StartPhase(c, b[i], b[i + 1], q); }
  }

  lemma StartPhase(c: Reader, s: System, s': System, q: nat)
    requires c.Valid() && StartsRead(c, s, s', q)
    ensures s'.shards[q].phase == Waiting && s'.shards[q].pending == s.shards[q].pending && s'.fast == s.fast
  {
    hide Conflicts, Skippable;
  }

  lemma {:induction false} StaysHeard(c: Reader, b: seq<System>, i: nat, j: nat, q: nat, tid: nat, w: Pending)
    requires c.Valid() && Behaviour(c, b) && BeginsAfter(c, b, i, q, tid, w) && i < j < |b|
    ensures Heard(c, b[j], q, tid, w)
    decreases j
  {
    hide ServerOK, ClientOK, Heard, Takes, BeginsAfter;
    if j == i + 1 {
      StartAwaits(c, b, i, q, tid, w);
    } else {
      StaysHeard(c, b, i, j - 1, q, tid, w);
      BehaviourOK(c, b, j - 1, true);
      assert Next(c, b[j - 1], b[j - 1 + 1]);
      var step :| Takes(c, b[j - 1], b[j], step);
      HeardStep(c, b[j - 1], b[j], step, q, tid, w);
    }
  }

  /**
   A transaction that conflicts with the read and may have ended for its client before the read began is
   over on the shard when that replies, and is not reported; and if it has committed at or before the time
   of the read, the reply has a value at least as new for every key of it.
   */
  lemma EndedIsInReply(c: Reader, b: seq<System>, i: nat, j: nat, q: nat, tid: nat, w: Pending)
    requires c.Valid() && Behaviour(c, b) && BeginsAfter(c, b, i, q, tid, w) && i < j < |b| && q in b[j].fast
    ensures Accounted(c, b[j], q, tid, w)
  {
    StaysHeard(c, b, i, j, q, tid, w);
    hide Behaviour, Accounted;
  }

  /** The client reads it, or something newer: nothing that may have ended before the read is missed. */
  lemma NothingEndedIsMissed(c: Reader, b: seq<System>, i: nat, j: nat, tid: nat, w: Pending, ts: Timestamp, k: Key, x: Value)
    requires c.Valid() && Decided(c, b, j, j) && Unmistaken(b) && k in c.keys && k in w.writes && i < j
    requires BeginsAfter(c, b, i, c.home[k], tid, w) && CommittedAt(b[j], tid, ts) && Leq(ts, c.readTs)
    requires IsRead(ListOf(b[j].session.values, k), b[j].verdict.snapshot, x)
    ensures Leq(ts, x.ts)
  {
    hide Behaviour, Unmistaken, BeginsAfter, ServerOK, ClientOK, ListOf, AsNewAs;
    BehaviourOK(c, b, j, false);
    var fast := FastValueOf(c, b[j], k, false);
    EndedIsInReply(c, b, i, j, c.home[k], tid, w);
    assert k in c.At(c.home[k]);
    ReadsFast(c, b[j], k, ts, fast, x);
  }

  /** What the client reads is no older than the fast value. */
  lemma ReadsFast(c: Reader, s: System, k: Key, ts: Timestamp, fast: Value, x: Value)
    requires c.Valid() && ServerOK(c, s) && ClientOK(c, s, false) && s.verdict.Commit? && k in c.keys
    requires c.home[k] in s.fast && fast in s.fast[c.home[k]].values && fast.key == k && fast in ListOf(s.session.values, k)
    requires AsNewAs(s.fast[c.home[k]], k, ts)
    requires IsRead(ListOf(s.session.values, k), s.verdict.snapshot, x)
    ensures Leq(ts, x.ts)
  {
    hide ServerOK, ClientOK, ListOf, FastBy;
    UnmistakenState(c, s, k);
    FastIsUnique(c, s, k, fast);
    var v :| v in s.fast[c.home[k]].values && v.key == k && Leq(ts, v.ts);
    OneValue(c, s, c.home[k], fast, v);
  }

  lemma OneValue(c: Reader, s: System, q: nat, u: Value, v: Value)
    requires c.Valid() && ServerOK(c, s) && q in s.fast && u in s.fast[q].values && v in s.fast[q].values && u.key == v.key
    ensures u.ts == v.ts
  {
    assert ReplyOK(c, s, q);
    hide ServerOK;
  }
}
