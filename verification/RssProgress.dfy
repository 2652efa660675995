/**
 What a read-only transaction waits for, and that it waits for nothing else: only for the
 outcome of a transaction that a shard has reported and that prepared no later than the
 snapshot. Once the reported transactions have ended, the slow replies make the client commit.
 */
module RssProgress {
  import opened RssTypes
  import opened RssSession
  import opened RssShards
  import opened RssInvariant
  import opened RssSnapshot
  import opened RssTheorems
  import opened RssStands

  /** A shard that has reported a transaction owes a slow reply, unless it has sent it. */
  ghost predicate OwesOrSent(s: System, q: nat, tid: nat)
    requires q in s.shards
  {
    var p := s.shards[q];
    p.phase == Answered && tid in p.skipped &&
    (tid in p.pending || (tid in s.outcomes && SlowReply(q, tid, s.outcomes[tid]) in s.slow))
  }

  ghost predicate Told(s: System, q: nat, r: Prepared) {
    q in s.fast && r in s.fast[q].prepares
  }

  ghost predicate Owed(s: System) {
    forall q, r :: Told(s, q, r) ==> q in s.shards && OwesOrSent(s, q, r.tid)
  }

  /** The client has not missed its chance. */
  ghost predicate Alert(c: Reader, s: System) {
    s.verdict == Wait ==> !Safe(c.rss, s.session)
  }

  // ---- Every step keeps this ----

  /** Nothing is forgotten about the shard, and whatever has ended on it has been reported. */
  ghost predicate KeepsOwing(s: System, s': System, q: nat)
    requires q in s.shards
  {
    && q in s'.shards && s'.shards[q].phase == s.shards[q].phase && s'.shards[q].skipped == s.shards[q].skipped
    && (forall tid :: tid in s.shards[q].pending ==>
          tid in s'.shards[q].pending ||
          (s.shards[q].phase == Answered && tid in s.shards[q].skipped ==>
             tid in s'.outcomes && SlowReply(q, tid, s'.outcomes[tid]) in s'.slow))
  }

  lemma OwedKept(s: System, s': System)
    requires Owed(s) && s'.fast == s.fast && s.slow <= s'.slow
    requires forall tid :: tid in s.outcomes ==> tid in s'.outcomes && s'.outcomes[tid] == s.outcomes[tid]
    requires forall q :: q in s.shards ==> KeepsOwing(s, s', q)
    ensures Owed(s')
  {
    forall q, r | Told(s', q, r) ensures q in s'.shards && OwesOrSent(s', q, r.tid) {
      assert Told(s, q, r);
      assert OwesOrSent(s, q, r.tid) && KeepsOwing(s, s', q);
    }
  }

  lemma TransactionOwes(c: Reader, s: System, s': System, step: Step)
    requires c.Valid() && ServerOK(c, s) && Owed(s) && Takes(c, s, s', step)
    requires step.Prepare? || step.DecideCommit? || step.DecideAbort? || step.Finish? || step.OtherReads?
    ensures Owed(s')
  {
    hide ServerOK, Owed, LocksFree, AtHome, Put;
    OwedKept(s, s');
  }

  /** A shard that has not answered yet owes nothing. */
  lemma OwedElsewhere(s: System, s': System, shard: nat)
    requires Owed(s) && shard !in s.fast && shard in s'.shards
    requires s' == s.(shards := s.shards[shard := s'.shards[shard]])
    ensures Owed(s')
  {
    forall q, r | Told(s', q, r) ensures q in s'.shards && OwesOrSent(s', q, r.tid) {
      assert Told(s, q, r);
    }
  }

  lemma StartOwes(c: Reader, s: System, s': System, shard: nat)
    requires c.Valid() && ServerOK(c, s) && Owed(s) && StartsRead(c, s, s', shard)
    ensures Owed(s')
  {
    assert ShardOK(c, s, shard) && shard !in s.fast;
    hide ServerOK, ShardOK, ReadStarts, Owed;
    OwedElsewhere(s, s', shard);
  }

  lemma AnswerOwes(c: Reader, s: System, s': System, shard: nat)
    requires c.Valid() && ServerOK(c, s) && Owed(s) && Answers(c, s, s', shard)
    ensures Owed(s')
  {
    assert ShardOK(c, s, shard) && shard !in s.fast;
    hide ServerOK, ShardOK;
    forall q, r | Told(s', q, r) ensures q in s'.shards && OwesOrSent(s', q, r.tid) {
      if q != shard { assert Told(s, q, r); }
    }
  }

  lemma StepOwes(c: Reader, s: System, s': System, step: Step)
    requires c.Valid() && ServerOK(c, s) && Owed(s) && Takes(c, s, s', step)
    ensures Owed(s')
  {
    hide ServerOK, Owed, Prepares, DecidesCommit, DecidesAbort, Finishes, StartsRead, Answers, OtherRead, FastReceived, SlowReceived;
    match step
    case StartRead(q) => StartOwes(c, s, s', q);
    case Answer(q) => AnswerOwes(c, s, s', q);
    case TakeFast(q) => SameOwed(s, s');
    case TakeSlow(m) => SameOwed(s, s');
    case Prepare(_, _, _, _, _, _) => TransactionOwes(c, s, s', step);
    case DecideCommit(_, _, _, _, _, _, _, _) => TransactionOwes(c, s, s', step);
    case DecideAbort(_) => TransactionOwes(c, s, s', step);
    case Finish(_, _) => TransactionOwes(c, s, s', step);
    case OtherReads(_, _) => TransactionOwes(c, s, s', step);
  }

  lemma SameOwed(s: System, s': System)
    requires Owed(s) && s' == s.(session := s'.session, verdict := s'.verdict)
    ensures Owed(s')
  {
    forall q, r | Told(s', q, r) ensures q in s'.shards && OwesOrSent(s', q, r.tid) {
      assert Told(s, q, r);
    }
  }

  lemma StepAlert(c: Reader, s: System, s': System, step: Step)
    requires c.Valid() && Alert(c, s) && Takes(c, s, s', step)
    ensures Alert(c, s')
  {
    hide Safe, FastReceived, ReadStarts, Reports, Ended, LocksFree, AtHome;
  }

  lemma InitOwes(c: Reader, s: System)
    requires c.Valid() && c.keys != {} && Init(c, s)
    ensures Owed(s) && Alert(c, s)
  {
    var k :| k in c.keys;
    assert c.home[k] in c.Shards();
  }

  lemma {:induction false} BehaviourOwes(c: Reader, b: seq<System>, i: nat)
    requires c.Valid() && c.keys != {} && Behaviour(c, b) && i < |b|
    ensures Owed(b[i]) && Alert(c, b[i])
  {
    hide Takes, Init, ServerOK, ClientOK, Owed, Alert;
    if i == 0 {
      InitOwes(c, b[0]);
    } else {
      BehaviourOwes(c, b, i - 1);
      BehaviourOK(c, b, i - 1, true);
      assert Next(c, b[i - 1], b[i - 1 + 1]);
      var step :| Takes(c, b[i - 1], b[i], step);
      StepOwes(c, b[i - 1], b[i], step);
      StepAlert(c, b[i - 1], b[i], step);
    }
  }

  // ---- What the client waits for ----

  lemma SnapshotAtMostRead(c: Reader, s: System)
    requires c.Valid() && ServerOK(c, s) && ClientOK(c, s, true) && s.session.participants == {}
    ensures Less(s.session.snapshot, MAX)
  {
    hide ServerOK, ClientOK;
    SnapshotBeforeRead(c, s, true);
  }

  /**
   A client that has all fast replies and still waits does so for a transaction that some
   shard reported: it has prepared no later than the snapshot, and it is pending on that
   shard, or the slow reply about it has been sent.
   */
  lemma WaitsForOutcome(c: Reader, b: seq<System>, i: nat) returns (tid: nat, q: nat)
    requires c.Valid() && c.keys != {} && Behaviour(c, b) && i < |b|
    requires b[i].verdict == Wait && b[i].session.participants == {}
    ensures c.rss && tid in b[i].session.prepares && !Less(b[i].session.snapshot, b[i].session.prepares[tid].prepareTs)
    ensures q in b[i].shards && OwesOrSent(b[i], q, tid)
    ensures exists r :: Told(b[i], q, r) && r.tid == tid
  {
    BehaviourOK(c, b, i, true);
    BehaviourOwes(c, b, i);
    var s := b[i];
    hide Behaviour, ServerOK, Less, Owed, OwesOrSent, Received;
    assert Less(s.session.snapshot, MAX) by { SnapshotAtMostRead(c, s); }
    assert !Safe(c.rss, s.session);
    tid :| tid in s.session.prepares && !Less(s.session.snapshot, s.session.prepares[tid].prepareTs);
    assert PreparesOK(s, Received(c, s.session), s.session);
    hide ClientOK;
    var r := PrepareReportOf(s, Received(c, s.session), s.session, tid);
    q :| q in Received(c, s.session) && q in s.fast && r in s.fast[q].prepares;
    assert Told(s, q, r);
    assert OwesOrSent(s, q, r.tid) by { OwesThis(s, q, r); }
  }

  lemma OwesThis(s: System, q: nat, r: Prepared)
    requires Owed(s) && Told(s, q, r)
    ensures q in s.shards && OwesOrSent(s, q, r.tid)
  {
  }

  // ---- The slow replies make it commit ----

  lemma {:induction false} SomeWrites(p: Prepared, ts: Timestamp, keys: set<Key>) returns (vs: seq<Value>)
    requires keys <= p.writes.Keys
    ensures forall v :: v in vs <==> v.tid == p.tid && v.ts == ts && v.key in keys && v.val == p.writes[v.key]
    decreases |keys|
  {
    if keys == {} {
      vs := [];
    } else {
      var k :| k in keys;
      var rest := SomeWrites(p, ts, keys - {k});
      vs := rest + [Value(p.tid, ts, k, p.writes[k])];
    }
  }

  /** The client takes a slow reply about a transaction it waits for. */
  lemma SlowIsTaken(c: Reader, s: System, m: SlowReply) returns (s': System)
    requires c.Valid() && s.verdict == Wait && m in s.slow && m.tid in s.session.prepares && Keyed(s.session.prepares)
    ensures Takes(c, s, s', TakeSlow(m))
    ensures s' == s.(session := s'.session, verdict := s'.verdict)
    ensures s'.session.prepares == s.session.prepares - {m.tid} && s'.session.participants == s.session.participants
  {
    var p := s.session.prepares[m.tid];
    var values := s.session.values;
    if m.outcome.Committed? {
      var vs := SomeWrites(p, m.outcome.ts, p.writes.Keys);
      assert WritesAt(p, m.outcome.ts, vs);
      values := AddValues(values, vs);
    }
    var ss := s.session.(prepares := s.session.prepares - {m.tid}, values := values);
    s' := s.(session := ss, verdict := CheckCommit(c.rss, ss));
    hide WritesAt, AddValues, CheckCommit;
    assert SlowReceived(s.session, m.tid, m.outcome.Committed?, if m.outcome.Committed? then m.outcome.ts else Timestamp(0, 0), ss);
  }

  /** Everything that a fast reply reported has ended on the shard that reported it. */
  ghost predicate AllEnded(s: System) {
    forall q, r :: Told(s, q, r) && q in s.shards ==> r.tid !in s.shards[q].pending
  }

  /**
   Once all fast replies are taken and what they reported has ended, slow replies alone make
   the client commit.
   */
  lemma {:induction false} ClientCommits(c: Reader, b: seq<System>) returns (more: seq<System>)
    requires c.Valid() && c.keys != {} && Behaviour(c, b) && AllEnded(b[|b| - 1])
    requires b[|b| - 1].session.participants == {}
    ensures b <= more && Behaviour(c, more) && more[|more| - 1].verdict.Commit?
    ensures more[|more| - 1] == b[|b| - 1].(session := more[|more| - 1].session, verdict := more[|more| - 1].verdict)
    decreases |b[|b| - 1].session.prepares|
  {
    var s := b[|b| - 1];
    if s.verdict.Commit? {
      more := b;
    } else {
      hide Behaviour, Takes;
      var tid, q := WaitsForOutcome(c, b, |b| - 1);
      assert exists r :: Told(s, q, r) && r.tid == tid;
      assert tid !in s.shards[q].pending;
      var m := SlowReply(q, tid, s.outcomes[tid]);
      assert Keyed(s.session.prepares) by { PreparesKeyed(c, b); }
      var s' := SlowIsTaken(c, s, m);
      var next := Continue(c, b, s', TakeSlow(m));
      assert s'.session.prepares.Keys == s.session.prepares.Keys - {tid};
      assert |s'.session.prepares| == |s'.session.prepares.Keys| && |s.session.prepares| == |s.session.prepares.Keys|;
      StillEnded(s, s');
      hide AllEnded, OwesOrSent, Told, Continues;
      more := ClientCommits(c, next);
    }
  }

  lemma PreparesKeyed(c: Reader, b: seq<System>)
    requires c.Valid() && Behaviour(c, b)
    ensures Keyed(b[|b| - 1].session.prepares)
  {
    BehaviourOK(c, b, |b| - 1, true);
    hide ServerOK, Behaviour;
  }

  lemma StillEnded(s: System, s': System)
    requires AllEnded(s) && s' == s.(session := s'.session, verdict := s'.verdict)
    ensures AllEnded(s')
  {
    forall q, r | Told(s', q, r) && q in s'.shards ensures r.tid !in s'.shards[q].pending {
      assert Told(s, q, r);
    }
  }
}
