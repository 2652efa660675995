/**
 Read-only transactions: what their replies amount to, in every behaviour. Loaded versions
 carry identifier 0, which client 0 gives to its first transaction; a client that does not
 tell the two apart can commit at a snapshot that a shard contradicts later. `Unmistaken` is the
 test that a client could make. `Misled` is the exact condition for a decision not to stand: it
 is on the state of the whole system in which the client decides, the clocks of the shards and
 the outcome of transaction 0 included, which no client can see (`StandsExactly` in `RssStands`).
 */
module RssTheorems {
  import opened RssTypes
  import opened RssSession
  import opened RssShards
  import opened RssInvariant
  import opened RssSnapshot

  /** At no step was a loaded value taken for one of transaction 0: the test that FindCommittedKeys leaves out. */
  ghost predicate Unmistaken(b: seq<System>) {
    forall i, q :: 0 <= i < |b| - 1 && Misleads(b[i], q) ==> b[i + 1].session.participants == b[i].session.participants
  }

  lemma {:induction false} BehaviourOK(c: Reader, b: seq<System>, i: nat, fooled: bool)
    requires c.Valid() && Behaviour(c, b) && i < |b| && (fooled || Unmistaken(b))
    ensures ServerOK(c, b[i]) && ClientOK(c, b[i], fooled)
  {
    hide ServerOK, ClientOK, Takes, Misleads, Init;
    if i == 0 {
      InitOK(c, b[0]);
      ClientInit(c, b[0], fooled);
    } else {
      BehaviourOK(c, b, i - 1, fooled);
      assert Next(c, b[i - 1], b[i - 1 + 1]);
      var step :| Takes(c, b[i - 1], b[i], step);
      StepKeeps(c, b[i - 1], b[i], step, fooled);
    }
  }

  lemma ClientInit(c: Reader, s: System, fooled: bool)
    requires c.Valid() && Init(c, s)
    ensures ClientOK(c, s, fooled)
  {
    assert Received(c, s.session) == {};
  }

  ghost predicate StepUnmistaken(s: System, s': System) {
    forall q :: Misleads(s, q) ==> s'.session.participants == s.session.participants
  }

  lemma StepKeeps(c: Reader, s: System, s': System, step: Step, fooled: bool)
    requires c.Valid() && ServerOK(c, s) && ClientOK(c, s, fooled) && Takes(c, s, s', step)
    requires fooled || StepUnmistaken(s, s')
    ensures ServerOK(c, s') && ClientOK(c, s', fooled)
  {
    hide ServerOK, ClientOK, StepUnmistaken, Takes;
    ServerKeeps(c, s, s', step);
    StepClient(c, s, s', step, fooled);
  }

  lemma StepClient(c: Reader, s: System, s': System, step: Step, fooled: bool)
    requires c.Valid() && ServerOK(c, s) && ClientOK(c, s, fooled) && Takes(c, s, s', step)
    requires fooled || StepUnmistaken(s, s')
    ensures ClientOK(c, s', fooled)
  {
    hide ServerOK, ClientOK, StepUnmistaken, Prepares, DecidesCommit, DecidesAbort, Finishes, StartsRead, Answers, OtherRead, TakesFast, TakesSlow;
    match step
    case TakeFast(q) => FastUnmistaken(c, s, s', q, fooled); FastStep(c, s, s', q, fooled);
    case TakeSlow(m) => SlowStep(c, s, s', m, fooled);
    case Prepare(_, _, _, _, _, _) => TransactionRemembers(c, s, s', step); ClientKept(c, s, s', fooled);
    case DecideCommit(_, _, _, _, _, _, _, _) => TransactionRemembers(c, s, s', step); ClientKept(c, s, s', fooled);
    case DecideAbort(_) => TransactionRemembers(c, s, s', step); ClientKept(c, s, s', fooled);
    case Finish(_, _) => TransactionRemembers(c, s, s', step); ClientKept(c, s, s', fooled);
    case StartRead(_) => ReadRemembers(c, s, s', step); ClientKept(c, s, s', fooled);
    case Answer(_) => ReadRemembers(c, s, s', step); ClientKept(c, s, s', fooled);
    case OtherReads(_, _) => ReadRemembers(c, s, s', step); ClientKept(c, s, s', fooled);
  }

  lemma FastUnmistaken(c: Reader, s: System, s': System, q: nat, fooled: bool)
    requires TakesFast(c, s, s', q) && (fooled || StepUnmistaken(s, s'))
    ensures fooled || !Misleads(s, q)
  {
    hide Misleads, FoundWrites, Seen, IsSnapshot, AddValues, AddPrepares;
    assert q in s.session.participants && q !in s'.session.participants;
  }

  /** Without a transaction 0 no client is mistaken. */
  lemma NoZeroUnmistaken(c: Reader, b: seq<System>)
    requires c.Valid() && Behaviour(c, b)
    requires forall i :: 0 <= i < |b| ==> 0 !in b[i].outcomes && forall q :: q in b[i].shards ==> 0 !in b[i].shards[q].pending
    ensures Unmistaken(b)
  {
    hide Behaviour, Misleads;
    forall i, q | 0 <= i < |b| - 1 && Misleads(b[i], q) ensures false {
      BehaviourOK(c, b, i, true);
      ZeroWasReported(c, b[i], q);
    }
  }

  lemma ZeroWasReported(c: Reader, s: System, q: nat)
    requires c.Valid() && ServerOK(c, s) && ClientOK(c, s, true) && Misleads(s, q)
    ensures 0 in s.outcomes || exists t :: t in s.shards && 0 in s.shards[t].pending
  {
    var from := Received(c, s.session);
    assert PreparesOK(s, from, s.session);
    FastPrepares(s, from, s.session, q);
    hide ClientOK, ServerOK, SeenAt;
    var r := PrepareReportOf(s, from + {q}, Taken(s.session, q, s.fast[q]), 0);
    var t := ReportFacts(c, s, from + {q}, r);
  }

  /** The decision to commit is final, and so is what it was made on. */
  lemma {:induction false} DecisionStays(c: Reader, b: seq<System>, i: nat, j: nat)
    requires c.Valid() && Behaviour(c, b) && i <= j < |b| && b[i].verdict.Commit?
    ensures b[j].session == b[i].session && b[j].verdict == b[i].verdict
    decreases j
  {
    hide ServerOK, ClientOK, Takes, Init;
    if i < j {
      DecisionStays(c, b, i, j - 1);
      BehaviourOK(c, b, j - 1, true);
      assert Next(c, b[j - 1], b[j - 1 + 1]);
      var step :| Takes(c, b[j - 1], b[j], step);
      DecisionStep(c, b[j - 1], b[j], step);
    }
  }

  lemma DecisionStep(c: Reader, s: System, s': System, step: Step)
    requires c.Valid() && ServerOK(c, s) && Takes(c, s, s', step) && s.verdict.Commit?
    ensures Unmoved(s, s')
  {
    hide Prepares, DecidesCommit, DecidesAbort, Finishes, StartsRead, Answers, OtherRead, ServerOK, Unmoved;
    if step.Prepare? || step.DecideCommit? || step.DecideAbort? || step.Finish? {
      TransactionRemembers(c, s, s', step);
    } else if step.StartRead? || step.Answer? || step.OtherReads? {
      ReadRemembers(c, s, s', step);
    }
  }

  // ---- What the client reads ----

  /** `w` is the newest value of the list at or before `ts`. */
  ghost predicate IsRead(l: seq<Value>, ts: Timestamp, w: Value) {
    w in l && Leq(w.ts, ts) && forall u :: u in l && Leq(u.ts, ts) ==> Leq(u.ts, w.ts)
  }

  lemma {:induction false} ReadExists(l: seq<Value>, ts: Timestamp, v: Value) returns (w: Value)
    requires v in l && Leq(v.ts, ts)
    ensures IsRead(l, ts, w)
    decreases |l|
  {
    var first, rest := l[0], l[1..];
    assert l == [first] + rest;
    assert forall u :: u in l ==> u == first || u in rest;
    w := first;
    if x :| x in rest && Leq(x.ts, ts) {
      w := ReadExists(rest, ts, x);
      if Leq(first.ts, ts) && Less(w.ts, first.ts) { w := first; }
    }
  }

  /** A version of the shard, or the write of a transaction that is committed and about to become one. */
  ghost predicate Established(s: System, q: nat, k: Key, w: Value) {
    q in s.shards &&
    var p := s.shards[q];
    w in VersionsOf(p, k) ||
    (CommittedAt(s, w.tid, w.ts) && w.tid in p.pending && k in p.pending[w.tid].writes && p.pending[w.tid].writes[k] == w.val)
  }

  /** No version of `k` on the shard is newer than `w` and at or before `ts`. */
  ghost predicate NoneNewer(s: System, q: nat, k: Key, ts: Timestamp, w: Value) {
    q in s.shards && forall u :: u in VersionsOf(s.shards[q], k) && Leq(u.ts, ts) ==> Leq(u.ts, w.ts)
  }

  /** `w` is what the client reads of `k` at its snapshot, and the shard agrees. */
  ghost predicate StandsAs(c: Reader, s: System, k: Key, w: Value)
    requires k in c.home && s.verdict.Commit?
  {
    && IsRead(ListOf(s.session.values, k), s.verdict.snapshot, w)
    && Established(s, c.home[k], k, w)
    && NoneNewer(s, c.home[k], k, Later(s.verdict.snapshot, c.minTs), w)
  }

  ghost predicate Stands(c: Reader, s: System, k: Key) {
    k in c.home && s.verdict.Commit? && exists w :: StandsAs(c, s, k, w)
  }

  lemma FastValueOf(c: Reader, s: System, k: Key, fooled: bool) returns (v: Value)
    requires c.Valid() && ServerOK(c, s) && ClientOK(c, s, fooled) && s.verdict.Commit? && k in c.keys
    ensures c.home[k] in s.fast && c.home[k] in s.shards && v in s.fast[c.home[k]].values && v.key == k
    ensures c.home[k] in Received(c, s.session) && FromFast(s, Received(c, s.session), v) && ValueOK(c, s, c.home[k], v)
    ensures v in ListOf(s.session.values, k)
  {
    var q := c.home[k];
    assert q in c.Shards();
    assert q in Received(c, s.session);
    assert ReplyOK(c, s, q);
    assert k in c.At(q);
    v :| v in s.fast[q].values && v.key == k;
    assert FromFast(s, Received(c, s.session), v);
    assert ValueOK(c, s, q, v);
  }

  lemma ReportFacts(c: Reader, s: System, from: set<nat>, r: Prepared) returns (q: nat)
    requires c.Valid() && ServerOK(c, s) && ReportedBy(s, from, r)
    ensures q in from && q in s.shards && q in s.fast && r in s.fast[q].prepares && ReportOK(c, s, q, r)
  {
    q :| q in from && q in s.fast && r in s.fast[q].prepares;
    assert ReplyOK(c, s, q);
  }

  lemma FastFacts(c: Reader, s: System, from: set<nat>, u: Value) returns (q: nat)
    requires c.Valid() && ServerOK(c, s) && FromFast(s, from, u)
    ensures q in from && q in s.shards && q in s.fast && u in s.fast[q].values && ValueOK(c, s, q, u)
  {
    q :| q in from && q in s.fast && u in s.fast[q].values;
    assert ReplyOK(c, s, q);
  }

  lemma SnapshotBeforeRead(c: Reader, s: System, fooled: bool)
    requires c.Valid() && ServerOK(c, s) && ClientOK(c, s, fooled) && s.session.participants == {}
    ensures Leq(s.session.snapshot, c.readTs)
  {
    var from := Received(c, s.session);
    assert SnapshotOK(s, from, s.session) && ValuesOK(c, s, from, s.session, fooled);
    hide ServerOK, ClientOK, FromFast, AllSorted, Explained, SomeBy;
    if s.session.snapshot != Timestamp(0, 0) {
      var v :| FromFast(s, from, v) && AllFrom(s.session.values, v.key, s.session.snapshot);
      assert v in ListOf(s.session.values, v.key);
      var q := FastFacts(c, s, from, v);
    }
  }

  /** A transaction whose outcome the client does not know committed after the snapshot. */
  lemma UnknownIsLater(c: Reader, s: System, tid: nat, ts: Timestamp)
    requires c.Valid() && ServerOK(c, s) && PreparesOK(s, Received(c, s.session), s.session) && Safe(c.rss, s.session)
    requires tid in s.session.prepares && CommittedAt(s, tid, ts)
    ensures Less(s.session.snapshot, ts)
  {
    hide ServerOK, ReportedBy, Received, PreparesOK;
    var r := PrepareReportOf(s, Received(c, s.session), s.session, tid);
    var q := ReportFacts(c, s, Received(c, s.session), r);
    LaterThan(c, s, q, r, tid, ts);
  }

  lemma PrepareReportOf(s: System, from: set<nat>, ss: Session, tid: nat) returns (r: Prepared)
    requires PreparesOK(s, from, ss) && tid in ss.prepares
    ensures ReportedBy(s, from, r) && r.tid == tid && r.prepareTs == ss.prepares[tid].prepareTs
  {
    hide ReportedBy, WriteReported;
    assert PrepareReported(s, from, tid, ss.prepares[tid].prepareTs);
    r :| ReportedBy(s, from, r) && r.tid == tid && r.prepareTs == ss.prepares[tid].prepareTs;
  }

  lemma LaterThan(c: Reader, s: System, q: nat, r: Prepared, tid: nat, ts: Timestamp)
    requires c.Valid() && q in s.shards && ReportOK(c, s, q, r) && r.tid == tid && CommittedAt(s, tid, ts)
    requires Safe(c.rss, s.session) && tid in s.session.prepares && r.prepareTs == s.session.prepares[tid].prepareTs
    ensures Less(s.session.snapshot, ts)
  {
    assert Leq(r.prepareTs, ts) && c.rss;
  }

  lemma Writer(c: Reader, s: System, q: nat, k: Key, u: Value, r: Prepared)
    requires c.Valid() && q in s.shards && ShardOK(c, s, q) && u.ts != Timestamp(0, 0)
    requires u in VersionsOf(s.shards[q], k) && r.tid == u.tid && ReportOK(c, s, q, r)
    ensures CommittedAt(s, u.tid, u.ts) && u.key == k && Leq(r.prepareTs, u.ts) && Less(c.minTs, u.ts)
  {
    assert VersionOK(c, s, q, s.shards[q], k, u);
  }

  lemma FollowedIsKnown(c: Reader, s: System, r: Prepared, k: Key, ts: Timestamp)
    requires c.Valid() && ServerOK(c, s) && PreparesOK(s, Received(c, s.session), s.session) && Safe(c.rss, s.session)
    requires k in r.writes && Followed(s, s.session, r, k) && CommittedAt(s, r.tid, ts)
    ensures Less(s.session.snapshot, ts) || exists x :: x in ListOf(s.session.values, k) && x.ts == ts
  {
    hide ServerOK, PreparesOK, Safe, ListOf, Less;
    if r.tid in s.session.prepares {
      UnknownIsLater(c, s, r.tid, ts);
    }
  }

  // ---- When a decision stands ----

  /** Shard `p` could decide for transaction 0, as its coordinator, as early as `ts`. */
  predicate FreeBy(p: Shard, ts: Timestamp) {
    0 !in p.pending && Leq(Timestamp(p.clock.time + 1, 0), ts)
  }

  /** Transaction 0 has committed at or before `ts`, or still may. */
  ghost predicate MayCommitBy(s: System, ts: Timestamp) {
    if 0 in s.outcomes then s.outcomes[0].Committed? && Leq(s.outcomes[0].ts, ts)
    else
      && (forall q :: q in s.shards && 0 in s.shards[q].pending ==> Leq(s.shards[q].pending[0].prepareTs, ts))
      && exists q :: q in s.shards && FreeBy(s.shards[q], ts)
  }

  /** A write of transaction 0 to `k` was reported, and the client does not wait for it and does not have it. */
  ghost predicate Forgotten(c: Reader, s: System, k: Key)
    requires c.Valid()
  {
    exists r :: ReportedBy(s, Received(c, s.session), r) && r.tid == 0 && k in r.writes && !Followed(s, s.session, r, k)
  }

  /** The fast value of `k` is not after the snapshot. */
  ghost predicate FastBy(c: Reader, s: System, k: Key)
    requires k in c.home && s.verdict.Commit?
  {
    c.home[k] in s.fast && exists v :: v in s.fast[c.home[k]].values && v.key == k && Leq(v.ts, s.verdict.snapshot)
  }

  /** The write that transaction 0 was reported with is what the shard had loaded, and nothing newer is in the way. */
  ghost predicate LoadedAnyway(c: Reader, s: System, k: Key)
    requires c.Valid() && k in c.home && s.verdict.Commit?
  {
    && c.home[k] in s.shards
    && (exists u :: u in VersionsOf(s.shards[c.home[k]], k) && Loaded(u) && WriteReported(s, Received(c, s.session), 0, k, u.val))
    && NoneNewer(s, c.home[k], k, Later(s.verdict.snapshot, c.minTs), Value(0, Timestamp(0, 0), k, ""))
  }

  /**
   What the client reads of `k` is not safe: its snapshot is before the fast value, which only an
   invented value can bring about; or transaction 0 was struck out too early, and it can commit
   before the snapshot.
   */
  ghost predicate Misled(c: Reader, s: System, k: Key)
    requires c.Valid() && k in c.home && s.verdict.Commit?
  {
    if FastBy(c, s, k) then Forgotten(c, s, k) && MayCommitBy(s, s.verdict.snapshot) else !LoadedAnyway(c, s, k)
  }

  lemma FastIsUnique(c: Reader, s: System, k: Key, v: Value)
    requires c.Valid() && ServerOK(c, s) && k in c.home && s.verdict.Commit?
    requires c.home[k] in s.fast && v in s.fast[c.home[k]].values && v.key == k
    ensures FastBy(c, s, k) <==> Leq(v.ts, s.verdict.snapshot)
  {
    assert ReplyOK(c, s, c.home[k]) && Unambiguous(s.fast[c.home[k]]);
    hide ServerOK;
  }

  /** What the client reads at its snapshot is a version, or will be one. */
  lemma ReadIsEstablished(c: Reader, s: System, k: Key, w: Value)
    requires c.Valid() && ServerOK(c, s) && k in c.keys && Genuine(s, Received(c, s.session), k, w)
    ensures Established(s, c.home[k], k, w)
  {
    var from := Received(c, s.session);
    hide ServerOK, ReportedBy, FromFast, Received;
    if FromFast(s, from, w) {
      var q := FastFacts(c, s, from, w);
    } else {
      var r :| ReportedBy(s, from, r) && r.tid == w.tid && k in r.writes && r.writes[k] == w.val;
      var q := ReportFacts(c, s, from, r);
      assert k in c.At(q);
    }
  }

  lemma Held(c: Reader, s: System, k: Key, w: Value)
    requires c.Valid() && ClientOK(c, s, true) && w in ListOf(s.session.values, k)
    ensures Explained(s, Received(c, s.session), k, w, true)
  {
    assert ValuesOK(c, s, Received(c, s.session), s.session, true);
    hide Explained;
  }

  /** A version newer than the fast value was written by a reported transaction. */
  lemma ReporterOf(c: Reader, s: System, from: set<nat>, k: Key, v: Value, u: Value) returns (r: Prepared)
    requires c.Valid() && ServerOK(c, s) && k in c.keys
    requires c.home[k] in s.fast && c.home[k] in s.shards && c.home[k] in from
    requires v in s.fast[c.home[k]].values && v.key == k && ValueOK(c, s, c.home[k], v)
    requires u in VersionsOf(s.shards[c.home[k]], k) && Visible(c, u) && Less(v.ts, u.ts)
    ensures ReportedBy(s, from, r) && r.tid == u.tid && k in r.writes && CommittedAt(s, r.tid, u.ts) && Less(c.minTs, u.ts)
  {
    var q := c.home[k];
    assert ShardOK(c, s, q) && ReplyOK(c, s, q);
    hide ServerOK, ShardOK, Visible;
    assert Reported(s.fast[q], u);
    r :| r in s.fast[q].prepares && r.tid == u.tid && u.key in r.writes && r.writes[u.key] == u.val;
    assert ReportOK(c, s, q, r);
    Writer(c, s, q, k, u, r);
  }

  lemma SessionFacts(c: Reader, s: System)
    requires c.Valid() && ClientOK(c, s, true) && s.verdict.Commit?
    ensures FollowsAll(s, Received(c, s.session), s.session, true) && PreparesOK(s, Received(c, s.session), s.session)
    ensures Safe(c.rss, s.session) && s.verdict.snapshot == s.session.snapshot
  {
    hide FollowsAll, PreparesOK, ValuesOK, SnapshotOK;
  }

  /** Unless the report is forgotten, the client has that version or it is later than the snapshot. */
  lemma NewerIsKnown(c: Reader, s: System, k: Key, v: Value, u: Value)
    requires c.Valid() && ServerOK(c, s) && ClientOK(c, s, true) && s.verdict.Commit? && k in c.keys
    requires c.home[k] in s.fast && c.home[k] in s.shards && c.home[k] in Received(c, s.session)
    requires v in s.fast[c.home[k]].values && v.key == k && ValueOK(c, s, c.home[k], v)
    requires u in VersionsOf(s.shards[c.home[k]], k) && Visible(c, u) && Less(v.ts, u.ts)
    requires !Forgotten(c, s, k) || !MayCommitBy(s, s.verdict.snapshot)
    ensures Less(c.minTs, u.ts)
    ensures Less(s.verdict.snapshot, u.ts) || exists x :: x in ListOf(s.session.values, k) && x.ts == u.ts
  {
    hide ServerOK, ClientOK, PreparesOK, Safe, Received, Visible, ValueOK, ReportedBy, Followed, Struck;
    SessionFacts(c, s);
    var r := ReporterOf(c, s, Received(c, s.session), k, v, u);
    assert Handled(s, s.session, r, k, true);
    if Followed(s, s.session, r, k) {
      FollowedIsKnown(c, s, r, k, u.ts);
    } else {
      StruckIsZero(s.session, r, k);
      assert Forgotten(c, s, k);
    }
  }

  lemma StruckIsZero(ss: Session, r: Prepared, k: Key)
    requires k in r.writes && Struck(ss, r, k)
    ensures r.tid == 0
  {
  }

  lemma VersionRead(c: Reader, s: System, k: Key, v: Value, w: Value, u: Value)
    requires c.Valid() && ServerOK(c, s) && ClientOK(c, s, true) && s.verdict.Commit? && k in c.keys
    requires c.home[k] in s.fast && c.home[k] in s.shards && c.home[k] in Received(c, s.session)
    requires v in s.fast[c.home[k]].values && v.key == k && ValueOK(c, s, c.home[k], v)
    requires v in ListOf(s.session.values, k) && Leq(v.ts, s.verdict.snapshot) && Leq(s.verdict.snapshot, c.readTs)
    requires !Forgotten(c, s, k) || !MayCommitBy(s, s.verdict.snapshot)
    requires IsRead(ListOf(s.session.values, k), s.verdict.snapshot, w)
    requires u in VersionsOf(s.shards[c.home[k]], k) && Leq(u.ts, Later(s.verdict.snapshot, c.minTs))
    ensures Leq(u.ts, w.ts)
  {
    hide ServerOK, ClientOK, ListOf, Received, ValueOK, Forgotten, MayCommitBy;
    assert Visible(c, u);
    if Less(v.ts, u.ts) {
      NewerIsKnown(c, s, k, v, u);
    }
  }

  lemma SnapshotFacts(c: Reader, s: System, fooled: bool)
    requires c.Valid() && ServerOK(c, s) && ClientOK(c, s, fooled) && s.verdict.Commit?
    ensures s.verdict.snapshot == s.session.snapshot && s.session.participants == {} && Leq(s.verdict.snapshot, c.readTs)
    ensures Safe(c.rss, s.session)
  {
    hide ServerOK, SessionOK, SnapshotOK;
    SnapshotBeforeRead(c, s, fooled);
  }

  /** The fast value is not after the snapshot. */
  lemma FastStands(c: Reader, s: System, k: Key, v: Value) returns (w: Value)
    requires c.Valid() && ServerOK(c, s) && ClientOK(c, s, true) && s.verdict.Commit? && k in c.keys
    requires c.home[k] in s.fast && c.home[k] in s.shards && c.home[k] in Received(c, s.session)
    requires v in s.fast[c.home[k]].values && v.key == k && ValueOK(c, s, c.home[k], v)
    requires FromFast(s, Received(c, s.session), v) && v in ListOf(s.session.values, k) && Leq(v.ts, s.verdict.snapshot)
    requires !Forgotten(c, s, k) || !MayCommitBy(s, s.verdict.snapshot)
    ensures StandsAs(c, s, k, w)
  {
    hide ServerOK, ClientOK, ListOf, Established, Received, FromFast, ValueOK, Genuine, WriteReported, Forgotten, MayCommitBy;
    var l, snapshot, q := ListOf(s.session.values, k), s.verdict.snapshot, c.home[k];
    SnapshotFacts(c, s, true);
    w := ReadExists(l, snapshot, v);
    if w.ts == v.ts { w := v; }
    Held(c, s, k, w);
    assert Genuine(s, Received(c, s.session), k, w) by { if w == v { FastGenuine(s, Received(c, s.session), v); } }
    ReadIsEstablished(c, s, k, w);
    forall u | u in VersionsOf(s.shards[q], k) && Leq(u.ts, Later(snapshot, c.minTs)) ensures Leq(u.ts, w.ts) {
      VersionRead(c, s, k, v, w, u);
    }
  }

  lemma FastGenuine(s: System, from: set<nat>, v: Value)
    requires FromFast(s, from, v)
    ensures Genuine(s, from, v.key, v)
  {
    hide FromFast;
  }

  /** The fast value is after the snapshot: what the client can read is an invented value. */
  lemma OnlyInvented(c: Reader, s: System, k: Key, v: Value, u: Value)
    requires c.Valid() && ServerOK(c, s) && ClientOK(c, s, true) && s.verdict.Commit?
    requires FromFast(s, Received(c, s.session), v) && v.key == k && Less(s.verdict.snapshot, v.ts)
    requires u in ListOf(s.session.values, k) && Leq(u.ts, s.verdict.snapshot)
    ensures Loaded(u) && u.key == k && WriteReported(s, Received(c, s.session), 0, k, u.val)
  {
    hide ServerOK, ClientOK, ListOf, Received, FromFast, Genuine, WriteReported;
    Held(c, s, k, u);
    if Genuine(s, Received(c, s.session), k, u) { FastIsOldest(c, s, Received(c, s.session), k, v, u); }
  }

  /** The value that made the snapshot so early. */
  lemma InventedValue(c: Reader, s: System, k: Key, v: Value) returns (w: Value)
    requires c.Valid() && ServerOK(c, s) && ClientOK(c, s, true) && s.verdict.Commit?
    requires FromFast(s, Received(c, s.session), v) && v.key == k && Less(s.verdict.snapshot, v.ts)
    ensures w in ListOf(s.session.values, k) && Leq(w.ts, s.verdict.snapshot)
    ensures Loaded(w) && w.key == k && WriteReported(s, Received(c, s.session), 0, k, w.val)
  {
    SnapshotFacts(c, s, true);
    assert SnapshotOK(s, Received(c, s.session), s.session);
    hide ServerOK, ClientOK, ListOf, Received, FromFast, WriteReported;
    assert SomeBy(s.session.values, k, s.verdict.snapshot);
    w :| w in ListOf(s.session.values, k) && Leq(w.ts, s.verdict.snapshot);
    OnlyInvented(c, s, k, v, w);
  }

  lemma SameWrite(c: Reader, s: System, k: Key, a: string, b: string)
    requires c.Valid() && ServerOK(c, s)
    requires WriteReported(s, Received(c, s.session), 0, k, a) && WriteReported(s, Received(c, s.session), 0, k, b)
    ensures a == b
  {
    var from := Received(c, s.session);
    var r :| ReportedBy(s, from, r) && r.tid == 0 && k in r.writes && r.writes[k] == a;
    hide ServerOK, ReportedBy, Received;
    ReportsAgree(c, s, from, r, k, b);
  }

  lemma VersionKey(c: Reader, s: System, k: Key, u: Value)
    requires c.Valid() && ServerOK(c, s) && k in c.home && c.home[k] in s.shards && u in VersionsOf(s.shards[c.home[k]], k)
    ensures u.key == k
  {
    assert ShardOK(c, s, c.home[k]);
    hide ServerOK;
    assert VersionOK(c, s, c.home[k], s.shards[c.home[k]], k, u);
  }

  lemma LoadedStands(c: Reader, s: System, k: Key, v: Value) returns (w: Value)
    requires c.Valid() && ServerOK(c, s) && ClientOK(c, s, true) && s.verdict.Commit? && k in c.keys
    requires FromFast(s, Received(c, s.session), v) && v.key == k && Less(s.verdict.snapshot, v.ts) && LoadedAnyway(c, s, k)
    ensures StandsAs(c, s, k, w)
  {
    hide ServerOK, ClientOK, ListOf, Received, FromFast, WriteReported, SomeBy;
    var u :| u in VersionsOf(s.shards[c.home[k]], k) && Loaded(u) && WriteReported(s, Received(c, s.session), 0, k, u.val);
    w := InventedValue(c, s, k, v);
    SameWrite(c, s, k, u.val, w.val);
    assert u == w by { VersionKey(c, s, k, u); }
    forall u | u in ListOf(s.session.values, k) && Leq(u.ts, s.verdict.snapshot) ensures Leq(u.ts, w.ts) {
      OnlyInvented(c, s, k, v, u);
    }
  }

  lemma StateStands(c: Reader, s: System, k: Key)
    requires c.Valid() && ServerOK(c, s) && ClientOK(c, s, true) && s.verdict.Commit? && k in c.keys && !Misled(c, s, k)
    ensures Stands(c, s, k)
  {
    hide ServerOK, ClientOK, ListOf, Received, FromFast, ValueOK, StandsAs, FastBy, Forgotten, MayCommitBy, LoadedAnyway;
    var v := FastValueOf(c, s, k, true);
    FastIsUnique(c, s, k, v);
    if FastBy(c, s, k) {
      var w := FastStands(c, s, k, v);
    } else {
      var w := LoadedStands(c, s, k, v);
    }
  }

  // ---- Over whole behaviours ----

  ghost predicate Decided(c: Reader, b: seq<System>, i: nat, j: nat)
    requires c.Valid()
  {
    Behaviour(c, b) && i <= j < |b| && b[i].verdict.Commit?
  }

  /** A client that was not mistaken is not misled about any key. */
  lemma UnmistakenState(c: Reader, s: System, k: Key)
    requires c.Valid() && ServerOK(c, s) && ClientOK(c, s, false) && s.verdict.Commit? && k in c.keys
    ensures FastBy(c, s, k) && !Forgotten(c, s, k)
  {
    var v := FastValueOf(c, s, k, false);
    var from := Received(c, s.session);
    assert ValuesOK(c, s, from, s.session, false) && FollowsAll(s, from, s.session, false);
    SnapshotFacts(c, s, false);
    assert SnapshotOK(s, from, s.session);
    hide ServerOK, ClientOK, FromFast, ReportedBy, Followed, ValuesOK, SnapshotOK, Received;
    SnapshotOfFast(c, s, from, s.session);
    forall r | ReportedBy(s, from, r) && k in r.writes ensures Followed(s, s.session, r, k) {
      assert Handled(s, s.session, r, k, false);
    }
  }

  /**
   Once the client has decided on a snapshot, what it reads there is, for every key, the
   newest version at or before the snapshot that the shard has in this state or any later
   one; and the shard will never have a version between the snapshot and what the session
   had read before.
   */
  lemma SnapshotIsStable(c: Reader, b: seq<System>, i: nat, j: nat, k: Key) returns (w: Value)
    requires c.Valid() && Decided(c, b, i, j) && Unmistaken(b) && k in c.keys
    ensures IsRead(ListOf(b[i].session.values, k), b[i].verdict.snapshot, w)
    ensures Established(b[j], c.home[k], k, w)
    ensures NoneNewer(b[j], c.home[k], k, Later(b[i].verdict.snapshot, c.minTs), w)
  {
    DecisionStays(c, b, i, j);
    BehaviourOK(c, b, j, false);
    BehaviourOK(c, b, j, true);
    hide Behaviour, Unmistaken, ServerOK, ClientOK, StandsAs, FastBy, Forgotten;
    UnmistakenState(c, b[j], k);
    StateStands(c, b[j], k);
    w :| StandsAs(c, b[j], k, w);
    IsWhatStands(c, b[j], k, w);
  }

  lemma IsWhatStands(c: Reader, s: System, k: Key, w: Value)
    requires k in c.home && s.verdict.Commit? && StandsAs(c, s, k, w)
    ensures IsRead(ListOf(s.session.values, k), s.verdict.snapshot, w)
    ensures Established(s, c.home[k], k, w)
    ensures NoneNewer(s, c.home[k], k, Later(s.verdict.snapshot, c.minTs), w)
  {
  }

  /** Versions of two keys at one timestamp, as a transaction that wrote both leaves them, are visible in both reads or in neither. */
  lemma NeverHalfVisible(c: Reader, b: seq<System>, i: nat, j: nat, k: Key, l: Key, u: Value, v: Value) returns (x: Value, y: Value)
    requires c.Valid() && Decided(c, b, i, j) && Unmistaken(b) && k in c.keys && l in c.keys
    requires c.home[k] in b[j].shards && c.home[l] in b[j].shards
    requires u in VersionsOf(b[j].shards[c.home[k]], k) && v in VersionsOf(b[j].shards[c.home[l]], l) && u.ts == v.ts
    ensures IsRead(ListOf(b[i].session.values, k), b[i].verdict.snapshot, x)
    ensures IsRead(ListOf(b[i].session.values, l), b[i].verdict.snapshot, y)
    ensures (Leq(u.ts, x.ts) && Leq(v.ts, y.ts)) || (Less(x.ts, u.ts) && Less(y.ts, v.ts))
  {
    hide Decided, Established, Unmistaken;
    x := SnapshotIsStable(c, b, i, j, k);
    y := SnapshotIsStable(c, b, i, j, l);
  }

  // ---- Which snapshot ----

  /** The snapshot is the least timestamp at which the client has a value for every key. */
  lemma SnapshotIsLeast(c: Reader, b: seq<System>, i: nat, ts: Timestamp)
    requires c.Valid() && Decided(c, b, i, i)
    ensures Leq(b[i].verdict.snapshot, ts) ==>
      forall k :: k in c.keys ==> exists u :: u in ListOf(b[i].session.values, k) && Leq(u.ts, ts)
    ensures Less(ts, b[i].verdict.snapshot) ==>
      exists k :: k in c.keys && forall u :: u in ListOf(b[i].session.values, k) ==> Less(ts, u.ts)
  {
    BehaviourOK(c, b, i, true);
    var s := b[i];
    var from, values := Received(c, s.session), s.session.values;
    SnapshotFacts(c, s, true);
    assert SnapshotOK(s, from, s.session);
    hide Decided, Behaviour, ServerOK, ClientOK, FromFast, Received;
    if Leq(s.verdict.snapshot, ts) {
      forall k | k in c.keys ensures exists u :: u in ListOf(values, k) && Leq(u.ts, ts) {
        var v := FastValueOf(c, s, k, true);
        assert SomeBy(values, k, s.verdict.snapshot);
      }
    } else {
      var v :| FromFast(s, from, v) && AllFrom(values, v.key, s.verdict.snapshot);
      FastKey(c, s, from, v);
    }
  }

  lemma FastKey(c: Reader, s: System, from: set<nat>, v: Value)
    requires c.Valid() && ServerOK(c, s) && FromFast(s, from, v)
    ensures v.key in c.keys
  {
    hide ServerOK, FromFast;
    var q := FastFacts(c, s, from, v);
  }

  /** The snapshot is the latest timestamp of a value in a fast reply. */
  lemma SnapshotIsLatestFast(c: Reader, b: seq<System>, i: nat)
    requires c.Valid() && Decided(c, b, i, i) && Unmistaken(b)
    ensures AtFastValues(b[i], c.Shards(), b[i].verdict.snapshot)
  {
    BehaviourOK(c, b, i, false);
    var s := b[i];
    SnapshotFacts(c, s, false);
    assert Received(c, s.session) == c.Shards();
    assert SnapshotOK(s, c.Shards(), s.session) && ValuesOK(c, s, c.Shards(), s.session, false);
    hide Decided, Unmistaken, Behaviour, ServerOK, ClientOK, ValuesOK, SnapshotOK, AtFastValues;
    SnapshotOfFast(c, s, c.Shards(), s.session);
  }

  /** Two orders of delivery of the same fast replies end with the same snapshot. */
  lemma SnapshotsAgree(c: Reader, b: seq<System>, i: nat, b': seq<System>, i': nat)
    requires c.Valid() && Decided(c, b, i, i) && Decided(c, b', i', i') && Unmistaken(b) && Unmistaken(b')
    requires b[i].fast == b'[i'].fast
    ensures b[i].verdict.snapshot == b'[i'].verdict.snapshot
  {
    SnapshotIsLatestFast(c, b, i);
    SnapshotIsLatestFast(c, b', i');
    var s, s' := b[i], b'[i'];
    hide Decided, Unmistaken;
    assert forall u :: FromFast(s, c.Shards(), u) <==> FromFast(s', c.Shards(), u);
    hide FromFast;
    assert Leq(s.verdict.snapshot, s'.verdict.snapshot) && Leq(s'.verdict.snapshot, s.verdict.snapshot);
  }

  /** Decisions that both behaviours have seen are the same; each may have seen some that the other has not. */
  ghost predicate SameOutcomes(s: System, s': System) {
    forall tid :: tid in s.outcomes && tid in s'.outcomes ==> s.outcomes[tid] == s'.outcomes[tid]
  }

  lemma CommitsAfterReport(c: Reader, s: System, from: set<nat>, r: Prepared, ts: Timestamp)
    requires c.Valid() && ServerOK(c, s) && ReportedBy(s, from, r) && CommittedAt(s, r.tid, ts)
    ensures c.rss && Leq(r.prepareTs, ts)
  {
    hide ServerOK, ReportedBy;
    var q := ReportFacts(c, s, from, r);
  }

  /** A transaction that committed by the snapshot is not one that a client with the same fast replies still waits for. */
  lemma NotWaitedFor(c: Reader, s: System, s': System, tid: nat, ts: Timestamp)
    requires c.Valid() && ServerOK(c, s) && s.fast == s'.fast
    requires PreparesOK(s', c.Shards(), s'.session) && Safe(c.rss, s'.session)
    requires CommittedAt(s, tid, ts) && Leq(ts, s'.session.snapshot)
    ensures tid !in s'.session.prepares
  {
    hide ServerOK, PreparesOK, Reader.Shards, ReportedBy;
    if tid in s'.session.prepares {
      var r := PrepareReportOf(s', c.Shards(), s'.session, tid);
      assert ReportedBy(s, c.Shards(), r) by { SameReported(s, s', c.Shards(), r); }
      CommitsAfterReport(c, s, c.Shards(), r, ts);
      assert false;
    }
  }

  lemma SameReported(s: System, s': System, from: set<nat>, r: Prepared)
    requires s.fast == s'.fast
    ensures ReportedBy(s, from, r) <==> ReportedBy(s', from, r)
  {
  }

  lemma SameFast(s: System, s': System, from: set<nat>, u: Value)
    requires s.fast == s'.fast
    ensures FromFast(s, from, u) <==> FromFast(s', from, u)
  {
  }

  /** What one client has of a key, up to the snapshot, the other has too. */
  lemma AlsoHeld(c: Reader, s: System, s': System, k: Key, w: Value)
    requires c.Valid() && ServerOK(c, s) && s.fast == s'.fast && SameOutcomes(s, s')
    requires ValuesOK(c, s, c.Shards(), s.session, false) && SessionOK(c, s', c.Shards(), s'.session, false)
    requires Safe(c.rss, s'.session) && w in ListOf(s.session.values, k) && Leq(w.ts, s'.session.snapshot)
    ensures w in ListOf(s'.session.values, k)
  {
    var from := c.Shards();
    assert Explained(s, from, k, w, false);
    assert ValuesOK(c, s', from, s'.session, false) && PreparesOK(s', from, s'.session) && FollowsAll(s', from, s'.session, false);
    hide ServerOK, SessionOK, PreparesOK, Safe, ReportedBy, FromFast, Reader.Shards, AllSorted;
    if FromFast(s, from, w) {
      SameFast(s, s', from, w);
    } else {
      hide ValuesOK;
      var r :| ReportedBy(s, from, r) && r.tid == w.tid && k in r.writes && r.writes[k] == w.val;
      SameReported(s, s', from, r);
      assert Handled(s', s'.session, r, k, false);
      NotWaitedFor(c, s, s', w.tid, w.ts);
    }
  }

  lemma DecidedSession(c: Reader, b: seq<System>, i: nat)
    requires c.Valid() && Decided(c, b, i, i) && Unmistaken(b)
    ensures ServerOK(c, b[i]) && SessionOK(c, b[i], c.Shards(), b[i].session, false) && Safe(c.rss, b[i].session)
    ensures b[i].verdict.snapshot == b[i].session.snapshot
  {
    BehaviourOK(c, b, i, false);
    hide ServerOK, Behaviour, SessionOK, SnapshotOK, Safe;
    assert Received(c, b[i].session) == c.Shards() by { SnapshotFacts(c, b[i], false); }
  }

  /**
   Confluence: whatever the order in which the same fast replies and the same decisions arrive, a client
   that decides does so at the same snapshot, and reads the same value of every key there.
   */
  lemma ReadsAgree(c: Reader, b: seq<System>, i: nat, b': seq<System>, i': nat)
    requires c.Valid() && Decided(c, b, i, i) && Decided(c, b', i', i') && Unmistaken(b) && Unmistaken(b')
    requires b[i].fast == b'[i'].fast && SameOutcomes(b[i], b'[i'])
    ensures b[i].verdict.snapshot == b'[i'].verdict.snapshot
    ensures forall k, w :: IsRead(ListOf(b[i].session.values, k), b[i].verdict.snapshot, w) <==>
                           IsRead(ListOf(b'[i'].session.values, k), b'[i'].verdict.snapshot, w)
  {
    SnapshotsAgree(c, b, i, b', i');
    DecidedSession(c, b, i);
    DecidedSession(c, b', i');
    var s, s' := b[i], b'[i'];
    hide Decided, Unmistaken, ServerOK, SessionOK, Safe, SameOutcomes, ListOf, Leq;
    forall k, w | w in ListOf(s.session.values, k) && Leq(w.ts, s.verdict.snapshot) ensures w in ListOf(s'.session.values, k) {
      AlsoHeldSession(c, s, s', k, w);
    }
    assert SameOutcomes(s', s) by { OutcomesBothWays(s, s'); }
    forall k, w | w in ListOf(s'.session.values, k) && Leq(w.ts, s.verdict.snapshot) ensures w in ListOf(s.session.values, k) {
      AlsoHeldSession(c, s', s, k, w);
    }
  }

  lemma OutcomesBothWays(s: System, s': System)
    requires SameOutcomes(s, s')
    ensures SameOutcomes(s', s)
  {
  }

  lemma AlsoHeldSession(c: Reader, s: System, s': System, k: Key, w: Value)
    requires c.Valid() && ServerOK(c, s) && s.fast == s'.fast && SameOutcomes(s, s')
    requires SessionOK(c, s, c.Shards(), s.session, false) && SessionOK(c, s', c.Shards(), s'.session, false)
    requires Safe(c.rss, s'.session) && w in ListOf(s.session.values, k) && Leq(w.ts, s'.session.snapshot)
    ensures w in ListOf(s'.session.values, k)
  {
    hide ValuesOK, PreparesOK, FollowsAll, ServerOK, Safe, ListOf, Leq;
    AlsoHeld(c, s, s', k, w);
  }
}
