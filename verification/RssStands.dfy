/**
 When what a read-only transaction has decided on stands in every continuation of its
 behaviour: exactly when it is not misled, in the state in which it decides.
 */
module RssStands {
  import opened RssTypes
  import opened RssSession
  import opened RssShards
  import opened RssInvariant
  import opened RssSnapshot
  import opened RssTheorems

  ghost predicate Continues(c: Reader, b: seq<System>, more: seq<System>)
    requires c.Valid()
  {
    b <= more && Behaviour(c, more)
  }

  function Last(b: seq<System>): System
    requires b != []
  {
    b[|b| - 1]
  }

  // ---- A client that is not misled stays so ----

  /** What a step does to the chances of transaction 0 to commit early: none of them is new. */
  ghost predicate Tightens(s: System, s': System) {
    if 0 in s.outcomes then 0 in s'.outcomes && s'.outcomes[0] == s.outcomes[0]
    else if 0 in s'.outcomes then forall ts :: CommittedAt(s', 0, ts) ==> MayCommitBy(s, ts)
    else
      && s'.shards.Keys == s.shards.Keys
      && forall q :: q in s.shards ==>
           && s.shards[q].clock.time <= s'.shards[q].clock.time
           && (0 in s.shards[q].pending ==> 0 in s'.shards[q].pending && s'.shards[q].pending[0] == s.shards[q].pending[0])
  }

  lemma TightenedBy(s: System, s': System, ts: Timestamp)
    requires Tightens(s, s') && MayCommitBy(s', ts)
    ensures MayCommitBy(s, ts)
  {
    if 0 !in s.outcomes {
      if 0 in s'.outcomes {
        assert CommittedAt(s', 0, s'.outcomes[0].ts);
        LaterBound(s, s'.outcomes[0].ts, ts);
      } else {
        var q :| q in s'.shards && FreeBy(s'.shards[q], ts);
        assert FreeBy(s.shards[q], ts);
      }
    }
  }

  lemma LaterBound(s: System, ts: Timestamp, later: Timestamp)
    requires MayCommitBy(s, ts) && Leq(ts, later)
    ensures MayCommitBy(s, later)
  {
    if 0 !in s.outcomes {
      var q :| q in s.shards && FreeBy(s.shards[q], ts);
      assert FreeBy(s.shards[q], later);
    }
  }

  lemma DecideTightens(c: Reader, s: System, s': System, shard: nat, tid: nat, client: nat, now: nat,
                       start: Timestamp, nonblock: Timestamp, writes: map<Key, string>, ts: Timestamp)
    requires DecidesCommit(c, s, s', shard, tid, client, now, start, nonblock, writes, ts)
    ensures Tightens(s, s')
  {
    hide LocksFree, AtHome;
    if tid == 0 {
      assert FreeBy(s.shards[shard], ts);
    }
  }

  lemma TransactionTightens(c: Reader, s: System, s': System, step: Step)
    requires c.Valid() && Takes(c, s, s', step) && (step.Prepare? || step.DecideAbort? || step.Finish?)
    ensures Tightens(s, s')
  {
    hide LocksFree, AtHome, Put, MayCommitBy;
  }

  lemma ReadTightens(c: Reader, s: System, s': System, step: Step)
    requires c.Valid() && Takes(c, s, s', step) && !step.Prepare? && !step.DecideCommit? && !step.DecideAbort? && !step.Finish?
    ensures Tightens(s, s')
  {
    hide Conflicts, Skippable, Reports, Newest, FastReceived, SlowReceived, CheckCommit, MayCommitBy;
  }

  lemma StepTightens(c: Reader, s: System, s': System, step: Step)
    requires c.Valid() && Takes(c, s, s', step)
    ensures Tightens(s, s')
  {
    hide DecidesCommit, Prepares, DecidesAbort, Finishes, StartsRead, Answers, OtherRead, TakesFast, TakesSlow, Tightens;
    match step
    case DecideCommit(q, tid, client, now, start, nonblock, writes, ts) =>
      DecideTightens(c, s, s', q, tid, client, now, start, nonblock, writes, ts);
    case Prepare(_, _, _, _, _, _) => TransactionTightens(c, s, s', step);
    case DecideAbort(_) => TransactionTightens(c, s, s', step);
    case Finish(_, _) => TransactionTightens(c, s, s', step);
    case StartRead(_) => ReadTightens(c, s, s', step);
    case Answer(_) => ReadTightens(c, s, s', step);
    case OtherReads(_, _) => ReadTightens(c, s, s', step);
    case TakeFast(_) => ReadTightens(c, s, s', step);
    case TakeSlow(_) => ReadTightens(c, s, s', step);
  }

  lemma ForgottenBefore(c: Reader, s: System, s': System, k: Key)
    requires c.Valid() && Unmoved(s, s') && (forall q :: q in Received(c, s.session) ==> q in s.fast) && Forgotten(c, s', k)
    ensures Forgotten(c, s, k)
  {
    SameReports(s, s', Received(c, s.session));
    var r :| ReportedBy(s', Received(c, s'.session), r) && r.tid == 0 && k in r.writes && !Followed(s', s'.session, r, k);
    hide FromFast, ReportedBy, WriteReported, PrepareReported, Received, Followed;
    FollowedStays(s, s', s.session, r, k);
  }

  lemma FollowedStays(s: System, s': System, ss: Session, r: Prepared, k: Key)
    requires Remembers(s, s') && k in r.writes
    ensures Followed(s, ss, r, k) ==> Followed(s', ss, r, k)
  {
    if ts :| CommittedAt(s, r.tid, ts) && Value(r.tid, ts, k, r.writes[k]) in ListOf(ss.values, k) {
      assert CommittedAt(s', r.tid, ts);
    }
  }

  /** A version that appears after the read was answered is newer than the fast value and than the reader's past. */
  lemma NewVersion(c: Reader, s: System, s': System, step: Step, k: Key, v: Value, u: Value)
    requires c.Valid() && ServerOK(c, s) && ServerOK(c, s') && Takes(c, s, s', step) && k in c.home
    requires var q := c.home[k];
      && q in s.fast && q in s.shards && q in s'.shards && v in s.fast[q].values && v.key == k
      && q in s'.fast && s'.fast[q] == s.fast[q] && u in VersionsOf(s'.shards[q], k) && u !in VersionsOf(s.shards[q], k)
    ensures Less(v.ts, u.ts) && Less(c.minTs, u.ts)
  {
    var q := c.home[k];
    OnlyFinishAdds(c, s, s', step, q, k, u);
    AfterFast(c, s, s', q, step.tid, k, v, u);
    hide Takes, ServerOK;
    AfterPast(c, s', q, k, v, u);
  }

  lemma OnlyFinishAdds(c: Reader, s: System, s': System, step: Step, q: nat, k: Key, u: Value)
    requires c.Valid() && Takes(c, s, s', step) && q in s.shards && q in s'.shards
    requires u in VersionsOf(s'.shards[q], k) && u !in VersionsOf(s.shards[q], k)
    ensures step.Finish? && step.shard == q
  {
    hide LocksFree, AtHome, Put, Conflicts, Skippable, Reports, Newest, FastReceived, SlowReceived, CheckCommit, PrepareTimestamp, Leq;
  }

  lemma AfterFast(c: Reader, s: System, s': System, q: nat, tid: nat, k: Key, v: Value, u: Value)
    requires c.Valid() && ServerOK(c, s) && Finishes(c, s, s', q, tid)
    requires q in s.fast && v in s.fast[q].values && v.key == k
    requires u in VersionsOf(s'.shards[q], k) && u !in VersionsOf(s.shards[q], k)
    ensures Less(v.ts, u.ts)
  {
    assert ShardOK(c, s, q) && ReplyOK(c, s, q);
    hide ServerOK;
    assert ValueOK(c, s, q, v);
    VersionsAfter(c, s, s', q, tid, k, u);
    hide Finishes, ValueOK;
    assert PendingOK(c, s, q, s.shards[q], tid);
  }

  lemma AfterPast(c: Reader, s: System, q: nat, k: Key, v: Value, u: Value)
    requires c.Valid() && ServerOK(c, s) && q in s.fast && q in s.shards && v in s.fast[q].values && v.key == k
    requires u in VersionsOf(s.shards[q], k) && Less(v.ts, u.ts)
    ensures Less(c.minTs, u.ts)
  {
    assert ShardOK(c, s, q) && ReplyOK(c, s, q);
    hide ServerOK;
    assert ValueOK(c, s, q, v);
    if Visible(c, u) {
      var r :| r in s.fast[q].prepares && r.tid == u.tid && u.key in r.writes && r.writes[u.key] == u.val;
      assert ReportOK(c, s, q, r);
      hide ShardOK;
      Writer(c, s, q, k, u, r);
    }
  }

  lemma LoadedStays(c: Reader, s: System, s': System, step: Step, k: Key, v: Value)
    requires c.Valid() && ServerOK(c, s) && ServerOK(c, s') && Takes(c, s, s', step) && Unmoved(s, s') && k in c.home && s.verdict.Commit?
    requires c.home[k] in s.fast && v in s.fast[c.home[k]].values && v.key == k && Less(s.verdict.snapshot, v.ts)
    requires LoadedAnyway(c, s, k) && forall q :: q in Received(c, s.session) ==> q in s.fast
    ensures s'.verdict.Commit? && LoadedAnyway(c, s', k)
  {
    var q := c.home[k];
    hide ServerOK, ShardOK, Takes, Loaded, ListOf, NoneNewer, Less, WriteReported, Received;
    FastStays(s, s', q);
    ShardStays(c, s, s', q);
    VersionsStay(c, s, s', step, q, k);
    LoadedStaysNewest(c, s, s', step, k, v);
    SameReports(s, s', Received(c, s.session));
    var u :| u in VersionsOf(s.shards[q], k) && Loaded(u) && WriteReported(s, Received(c, s.session), 0, k, u.val);
    assert u in VersionsOf(s'.shards[q], k);
  }

  lemma LoadedStaysNewest(c: Reader, s: System, s': System, step: Step, k: Key, v: Value)
    requires c.Valid() && ServerOK(c, s) && ServerOK(c, s') && Takes(c, s, s', step) && Unmoved(s, s') && k in c.home && s.verdict.Commit?
    requires c.home[k] in s.fast && v in s.fast[c.home[k]].values && v.key == k && Less(s.verdict.snapshot, v.ts)
    requires NoneNewer(s, c.home[k], k, Later(s.verdict.snapshot, c.minTs), Value(0, Timestamp(0, 0), k, ""))
    ensures NoneNewer(s', c.home[k], k, Later(s.verdict.snapshot, c.minTs), Value(0, Timestamp(0, 0), k, ""))
  {
    var q := c.home[k];
    hide ServerOK, ShardOK, Unmoved, Takes, VersionsOf, Less, Leq, Later;
    FastStays(s, s', q);
    ShardStays(c, s, s', q);
    var ts := Later(s.verdict.snapshot, c.minTs);
    forall u | u in VersionsOf(s'.shards[q], k) && Leq(u.ts, ts) ensures Leq(u.ts, Timestamp(0, 0)) {
      if u !in VersionsOf(s.shards[q], k) {
        NewVersion(c, s, s', step, k, v, u);
        AfterBoth(s.verdict.snapshot, c.minTs, v.ts, u.ts);
      }
    }
  }

  lemma AfterBoth(a: Timestamp, b: Timestamp, mid: Timestamp, ts: Timestamp)
    requires Less(a, mid) && Less(mid, ts) && Less(b, ts)
    ensures !Leq(ts, Later(a, b))
  {
  }

  lemma ShardStays(c: Reader, s: System, s': System, q: nat)
    requires c.Valid() && ServerOK(c, s) && ServerOK(c, s') && Unmoved(s, s') && q in s.fast
    ensures q in s.shards && q in s'.shards && ShardOK(c, s, q)
  {
    hide ShardOK, ReplyOK;
  }

  lemma FastStays(s: System, s': System, q: nat)
    requires Unmoved(s, s') && q in s.fast
    ensures s'.session == s.session && s'.verdict == s.verdict && q in s'.fast && s'.fast[q] == s.fast[q]
  {
  }

  lemma VersionsStay(c: Reader, s: System, s': System, step: Step, q: nat, k: Key)
    requires c.Valid() && q in s.shards && q in s'.shards && ShardOK(c, s, q) && Takes(c, s, s', step)
    ensures forall w :: w in VersionsOf(s.shards[q], k) ==> w in VersionsOf(s'.shards[q], k)
  {
    if step.Finish? && step.shard == q {
      forall w | w in VersionsOf(s.shards[q], k) ensures w in VersionsOf(s'.shards[q], k) {
        VersionsAfter(c, s, s', q, step.tid, k, w);
      }
    } else {
      hide LocksFree, AtHome, Put, Conflicts, Skippable, Reports, Newest, FastReceived, SlowReceived, CheckCommit, PrepareTimestamp, Leq, ShardOK;
    }
  }

  lemma FastBySame(c: Reader, s: System, s': System, k: Key, v: Value)
    requires c.Valid() && ServerOK(c, s) && ServerOK(c, s') && Unmoved(s, s') && k in c.home && s.verdict.Commit?
    requires c.home[k] in s.fast && v in s.fast[c.home[k]].values && v.key == k
    ensures FastBy(c, s', k) == FastBy(c, s, k) == Leq(v.ts, s.verdict.snapshot)
  {
    hide ServerOK, FastBy;
    FastIsUnique(c, s, k, v);
    FastIsUnique(c, s', k, v);
  }

  lemma MisledStep(c: Reader, s: System, s': System, step: Step, k: Key)
    requires c.Valid() && ServerOK(c, s) && ClientOK(c, s, true) && s.verdict.Commit? && Takes(c, s, s', step) && k in c.keys
    ensures s'.verdict.Commit? && (Misled(c, s', k) ==> Misled(c, s, k))
  {
    hide Takes, ServerOK, ClientOK, FastBy, Forgotten, MayCommitBy, LoadedAnyway, ValueOK, FromFast, Tightens, Unmoved;
    ServerKeeps(c, s, s', step);
    DecisionStep(c, s, s', step);
    StepTightens(c, s, s', step);
    var v := FastValueOf(c, s, k, true);
    FastStays(s, s', c.home[k]);
    FastBySame(c, s, s', k, v);
    ReceivedFast(c, s);
    if Misled(c, s', k) {
      if FastBy(c, s, k) {
        ForgottenBefore(c, s, s', k);
        TightenedBy(s, s', s.verdict.snapshot);
      } else if LoadedAnyway(c, s, k) {
        LoadedStays(c, s, s', step, k, v);
      }
    }
  }

  lemma ReceivedFast(c: Reader, s: System)
    requires c.Valid() && ClientOK(c, s, true)
    ensures forall q :: q in Received(c, s.session) ==> q in s.fast
  {
    hide SessionOK, SnapshotOK, Safe;
  }

  lemma {:induction false} StaysUnmisled(c: Reader, b: seq<System>, i: nat, j: nat, k: Key)
    requires c.Valid() && Behaviour(c, b) && i <= j < |b| && b[i].verdict.Commit? && k in c.keys && !Misled(c, b[i], k)
    ensures b[j].verdict.Commit? && !Misled(c, b[j], k)
    decreases j
  {
    hide ServerOK, ClientOK, Takes, Init, Misled;
    if i < j {
      StaysUnmisled(c, b, i, j - 1, k);
      BehaviourOK(c, b, j - 1, true);
      assert Next(c, b[j - 1], b[j - 1 + 1]);
      var step :| Takes(c, b[j - 1], b[j], step);
      MisledStep(c, b[j - 1], b[j], step, k);
    }
  }

  // ---- A client that is misled can be contradicted ----

  lemma Continue(c: Reader, b: seq<System>, s: System, step: Step) returns (more: seq<System>)
    requires c.Valid() && Behaviour(c, b) && Takes(c, Last(b), s, step)
    ensures more == b + [s] && Continues(c, b, more) && Last(more) == s
  {
    more := b + [s];
    hide Takes, Init;
    assert Next(c, Last(b), s);
    forall i | 0 <= i < |more| - 1 ensures Next(c, more[i], more[i + 1]) {
      if i < |b| - 1 { assert Next(c, b[i], b[i + 1]); }
    }
  }

  /** A decided transaction can finish on a shard. */
  lemma CanFinish(c: Reader, s: System, q: nat, tid: nat) returns (s': System)
    requires c.Valid() && q in s.shards && tid in s.outcomes && tid in s.shards[q].pending
    ensures Takes(c, s, s', Finish(q, tid)) && Finishes(c, s, s', q, tid)
  {
    var p, o := s.shards[q], s.outcomes[tid];
    var writes := p.pending[tid].writes;
    var p' := p.(pending := p.pending - {tid}, waiting := p.waiting - {tid});
    if o.Committed? {
      var versions := map k | k in p.versions.Keys + writes.Keys ::
        if k in writes then AddVersion(if k in p.versions then p.versions[k] else {}, Value(tid, o.ts, k, writes[k])) else p.versions[k];
      p' := p'.(clock := if writes == map[] then p.clock else Later(p.clock, o.ts), versions := versions);
    }
    hide AddVersion;
    s' := s.(shards := s.shards[q := p'],
             slow := s.slow + if p.phase == Answered && tid in p.skipped then {SlowReply(q, tid, o)} else {});
  }

  /** A coordinator that has early timestamps left decides for transaction 0. */
  lemma CanDecide(c: Reader, s: System, ts: Timestamp) returns (s': System, step: Step)
    requires c.Valid() && 0 !in s.outcomes && c.tid != 0 && MayCommitBy(s, ts)
    ensures Takes(c, s, s', step) && CommittedAt(s', 0, ts) && Unmoved(s, s')
    ensures forall tid :: tid in s'.outcomes <==> tid == 0 || tid in s.outcomes
  {
    var q :| q in s.shards && FreeBy(s.shards[q], ts);
    var p := s.shards[q];
    var own := PrepareTimestamp(p.clock, 0, 0);
    s' := s.(shards := s.shards[q := p.(clock := own, pending := p.pending[0 := Pending(ts, ts, map[])])],
             outcomes := s.outcomes[0 := Committed(ts)]);
    step := DecideCommit(q, 0, 0, 0, ts, ts, map[], ts);
    assert DecidesCommit(c, s, s', q, 0, 0, 0, ts, ts, map[], ts);
  }

  /** Where a report of transaction 0 comes from, and what it says. */
  lemma ZeroReport(c: Reader, s: System, r: Prepared, k: Key)
    requires c.Valid() && ServerOK(c, s) && ClientOK(c, s, true) && s.verdict.Commit? && k in c.keys
    requires ReportedBy(s, Received(c, s.session), r) && r.tid == 0 && k in r.writes
    ensures var q := c.home[k];
      && q in s.shards && q in s.fast && r in s.fast[q].prepares && ReportOK(c, s, q, r)
      && q in Received(c, s.session)
  {
    hide ServerOK, ClientOK, ReportedBy;
    var q := ReportFacts(c, s, Received(c, s.session), r);
    assert k in c.At(q);
  }

  /** Of key `k` the client has, besides the fast value, only the write that was reported and inventions. */
  lemma OnlyWriter(c: Reader, s: System, r: Prepared, k: Key, v: Value, w: Value)
    requires c.Valid() && ServerOK(c, s) && ClientOK(c, s, true) && s.verdict.Commit? && k in c.keys
    requires ReportedBy(s, Received(c, s.session), r) && r.tid == 0 && k in r.writes
    requires c.home[k] in s.fast && v in s.fast[c.home[k]].values && v.key == k && w in ListOf(s.session.values, k)
    ensures w.ts == v.ts || Loaded(w) || (w.tid == 0 && w.key == k && w.val == r.writes[k] && CommittedAt(s, 0, w.ts))
  {
    var q, from := c.home[k], Received(c, s.session);
    ZeroReport(c, s, r, k);
    Held(c, s, k, w);
    assert ReplyOK(c, s, q) && Unambiguous(s.fast[q]);
    hide ClientOK, Received, ReportOK;
    if FromFast(s, from, w) {
      hide ServerOK;
      var t := FastFacts(c, s, from, w);
      assert k in c.At(t);
    } else if Genuine(s, from, k, w) {
      hide ServerOK, FromFast;
      var t :| ReportedBy(s, from, t) && t.tid == w.tid && k in t.writes && t.writes[k] == w.val;
      var p := ReportFacts(c, s, from, t);
      SameHome(c, s, p, t, k);
    }
  }

  lemma SameHome(c: Reader, s: System, q: nat, r: Prepared, k: Key)
    requires c.Valid() && q in s.shards && ReportOK(c, s, q, r) && k in r.writes
    ensures c.home[k] == q
  {
    assert k in c.At(q);
  }

  /** Once a forgotten write is a version at or before the snapshot, the decision does not stand. */
  lemma WriteContradicts(c: Reader, s: System, r: Prepared, k: Key, ts: Timestamp)
    requires c.Valid() && ServerOK(c, s) && ClientOK(c, s, true) && s.verdict.Commit? && k in c.keys
    requires ReportedBy(s, Received(c, s.session), r) && r.tid == 0 && k in r.writes && !Followed(s, s.session, r, k)
    requires CommittedAt(s, 0, ts) && Leq(ts, s.verdict.snapshot) && c.home[k] in s.shards
    requires Value(0, ts, k, r.writes[k]) in VersionsOf(s.shards[c.home[k]], k)
    ensures !Stands(c, s, k)
  {
    hide ServerOK, ClientOK, Received, ReportedBy, Established, ListOf;
    var v := FastValueOf(c, s, k, true);
    ZeroReport(c, s, r, k);
    assert v.ts.time < r.prepareTs.time && Leq(r.prepareTs, ts);
    var u := Value(0, ts, k, r.writes[k]);
    assert u !in ListOf(s.session.values, k);
    forall w | StandsAs(c, s, k, w) ensures false {
      assert Leq(u.ts, w.ts);
      OnlyWriter(c, s, r, k, v, w);
    }
  }

  /** Transaction 0 has committed by the snapshot: when it has finished, the decision is contradicted. */
  lemma CommittedContradicts(c: Reader, b: seq<System>, r: Prepared, k: Key, ts: Timestamp) returns (more: seq<System>)
    requires c.Valid() && Behaviour(c, b) && ServerOK(c, Last(b)) && ClientOK(c, Last(b), true) && Last(b).verdict.Commit? && k in c.keys
    requires ReportedBy(Last(b), Received(c, Last(b).session), r) && r.tid == 0 && k in r.writes && !Followed(Last(b), Last(b).session, r, k)
    requires CommittedAt(Last(b), 0, ts) && Leq(ts, Last(b).verdict.snapshot)
    ensures Continues(c, b, more) && !Stands(c, Last(more), k)
  {
    var s, q := Last(b), c.home[k];
    ZeroReport(c, s, r, k);
    if 0 in s.shards[q].pending {
      hide Behaviour, ServerOK, ClientOK, Received, ReportedBy, Followed, ReportOK, Stands, Takes, Finishes, Unmoved;
      var s' := CanFinish(c, s, q, 0);
      more := Continue(c, b, s', Finish(q, 0));
      FinishContradicts(c, s, s', q, r, k, ts);
    } else {
      more := b;
      hide Behaviour, ServerOK, ClientOK, Received, ReportedBy, Followed, Stands;
      WriteContradicts(c, s, r, k, ts);
    }
  }

  lemma FinishContradicts(c: Reader, s: System, s': System, q: nat, r: Prepared, k: Key, ts: Timestamp)
    requires c.Valid() && ServerOK(c, s) && ClientOK(c, s, true) && s.verdict.Commit? && k in c.keys && q == c.home[k]
    requires ReportedBy(s, Received(c, s.session), r) && r.tid == 0 && k in r.writes && !Followed(s, s.session, r, k)
    requires CommittedAt(s, 0, ts) && Leq(ts, s.verdict.snapshot)
    requires q in s.shards && ReportOK(c, s, q, r) && 0 in s.shards[q].pending && Finishes(c, s, s', q, 0)
    requires Takes(c, s, s', Finish(q, 0))
    ensures !Stands(c, s', k)
  {
    assert k in s.shards[q].pending[0].writes && s.shards[q].pending[0].writes[k] == r.writes[k];
    assert s'.outcomes == s.outcomes && q in s'.shards;
    assert ShardOK(c, s, q);
    hide ServerOK, ShardOK, Finishes, Stands, ReportOK, Followed, ReportedBy;
    WritesArrive(c, s, s', q, 0, k, ts);
    AfterStep(c, s, s', Finish(q, 0), r, k);
    ServerKeeps(c, s, s', Finish(q, 0));
    WriteContradicts(c, s', r, k, ts);
  }

  /** What the client has forgotten it has still forgotten after a step of the shards that decides nothing. */
  lemma AfterStep(c: Reader, s: System, s': System, step: Step, r: Prepared, k: Key)
    requires c.Valid() && ServerOK(c, s) && ClientOK(c, s, true) && s.verdict.Commit? && Takes(c, s, s', step) && k in r.writes
    requires ReportedBy(s, Received(c, s.session), r) && !Followed(s, s.session, r, k) && s'.outcomes == s.outcomes
    ensures ClientOK(c, s', true) && s'.session == s.session && s'.verdict == s.verdict
    ensures ReportedBy(s', Received(c, s'.session), r) && !Followed(s', s'.session, r, k)
  {
    hide ServerOK, Takes, ReportedBy, SessionOK, SnapshotOK, Received;
    DecisionStep(c, s, s', step);
    ClientKept(c, s, s', true);
    ReceivedFast(c, s);
    SameReports(s, s', Received(c, s.session));
    assert forall ts :: CommittedAt(s', r.tid, ts) ==> CommittedAt(s, r.tid, ts);
  }

  /** Transaction 0 is undecided, so nobody has a value of it. */
  lemma NobodyHasIt(c: Reader, s: System, r: Prepared, k: Key, ts: Timestamp)
    requires c.Valid() && ServerOK(c, s) && ClientOK(c, s, true) && s.verdict.Commit? && k in c.keys && 0 !in s.outcomes
    requires ReportedBy(s, Received(c, s.session), r) && r.tid == 0 && k in r.writes && Leq(r.prepareTs, ts)
    ensures Value(0, ts, k, r.writes[k]) !in ListOf(s.session.values, k)
  {
    hide ServerOK, ClientOK, Received, ReportedBy, FromFast, ListOf;
    var v := FastValueOf(c, s, k, true);
    ZeroReport(c, s, r, k);
    assert v.ts.time < r.prepareTs.time;
    var u := Value(0, ts, k, r.writes[k]);
    if u in ListOf(s.session.values, k) { OnlyWriter(c, s, r, k, v, u); }
  }

  /** The decision to commit leaves the write forgotten. */
  lemma DecisionForgets(c: Reader, s: System, s': System, r: Prepared, k: Key, ts: Timestamp)
    requires c.Valid() && ServerOK(c, s) && ServerOK(c, s') && ClientOK(c, s, true) && s.verdict.Commit? && k in c.keys
    requires ReportedBy(s, Received(c, s.session), r) && r.tid == 0 && k in r.writes && !Followed(s, s.session, r, k)
    requires 0 !in s.outcomes && CommittedAt(s', 0, ts) && Unmoved(s, s')
    ensures ClientOK(c, s', true) && ReportedBy(s', Received(c, s'.session), r) && !Followed(s', s'.session, r, k)
  {
    hide ServerOK, ClientOK, FromFast, Received, ReportedBy, WriteReported, PrepareReported;
    ClientKept(c, s, s', true);
    ReceivedFast(c, s);
    SameReports(s, s', Received(c, s.session));
    CommitsAfterReport(c, s', Received(c, s'.session), r, ts);
    NobodyHasIt(c, s, r, k, ts);
  }

  lemma MisledFalls(c: Reader, b: seq<System>, k: Key) returns (more: seq<System>)
    requires c.Valid() && Behaviour(c, b) && ServerOK(c, Last(b)) && ClientOK(c, Last(b), true) && Last(b).verdict.Commit? && k in c.keys
    requires Misled(c, Last(b), k)
    ensures Continues(c, b, more) && !Stands(c, Last(more), k)
  {
    var s := Last(b);
    hide Behaviour, ServerOK, ClientOK, Takes, Received, ReportedBy, Followed, Stands, FastBy, LoadedAnyway;
    if FastBy(c, s, k) {
      var r :| ReportedBy(s, Received(c, s.session), r) && r.tid == 0 && k in r.writes && !Followed(s, s.session, r, k);
      more := ForgottenFalls(c, b, r, k);
    } else {
      more := b;
      InventedFalls(c, s, k);
    }
  }

  lemma ForgottenFalls(c: Reader, b: seq<System>, r: Prepared, k: Key) returns (more: seq<System>)
    requires c.Valid() && Behaviour(c, b) && ServerOK(c, Last(b)) && ClientOK(c, Last(b), true) && Last(b).verdict.Commit? && k in c.keys
    requires ReportedBy(Last(b), Received(c, Last(b).session), r) && r.tid == 0 && k in r.writes && !Followed(Last(b), Last(b).session, r, k)
    requires MayCommitBy(Last(b), Last(b).verdict.snapshot)
    ensures Continues(c, b, more) && !Stands(c, Last(more), k)
  {
    var s := Last(b);
    hide Behaviour, ServerOK, ClientOK, Takes, Received, ReportedBy, Followed, Stands;
    if 0 in s.outcomes {
      more := CommittedContradicts(c, b, r, k, s.outcomes[0].ts);
    } else {
      ZeroIsOther(c, s, r, k);
      var s', step := CanDecide(c, s, s.verdict.snapshot);
      var next := Continue(c, b, s', step);
      ServerKeeps(c, s, s', step);
      DecisionForgets(c, s, s', r, k, s.verdict.snapshot);
      more := CommittedContradicts(c, next, r, k, s.verdict.snapshot);
    }
  }

  lemma ZeroIsOther(c: Reader, s: System, r: Prepared, k: Key)
    requires c.Valid() && ServerOK(c, s) && ClientOK(c, s, true) && s.verdict.Commit? && k in c.keys && 0 !in s.outcomes
    requires ReportedBy(s, Received(c, s.session), r) && r.tid == 0 && k in r.writes
    ensures c.tid != 0
  {
    ZeroReport(c, s, r, k);
    hide ClientOK;
    assert PendingOK(c, s, c.home[k], s.shards[c.home[k]], 0) by { assert ShardOK(c, s, c.home[k]); }
  }

  /** The snapshot is before the fast value, and the invented value that made it so is not a version. */
  lemma InventedFalls(c: Reader, s: System, k: Key)
    requires c.Valid() && ServerOK(c, s) && ClientOK(c, s, true) && s.verdict.Commit? && k in c.keys
    requires !FastBy(c, s, k) && !LoadedAnyway(c, s, k)
    ensures !Stands(c, s, k)
  {
    hide ServerOK, ClientOK, ListOf, FastBy, Received, FromFast, ValueOK, WriteReported;
    var v := FastValueOf(c, s, k, true);
    FastIsUnique(c, s, k, v);
    forall w | StandsAs(c, s, k, w) ensures false {
      OnlyInvented(c, s, k, v, w);
      LoadedIsVersion(c, s, k, v, w);
    }
  }

  /** Nothing that is pending can have committed as early as the loaded versions. */
  lemma LoadedIsVersion(c: Reader, s: System, k: Key, v: Value, w: Value)
    requires c.Valid() && ServerOK(c, s) && k in c.home && c.home[k] in s.fast && v in s.fast[c.home[k]].values && v.key == k
    requires Loaded(w) && Established(s, c.home[k], k, w)
    ensures w in VersionsOf(s.shards[c.home[k]], k)
  {
    var q := c.home[k];
    assert ShardOK(c, s, q) && ReplyOK(c, s, q);
    assert ValueOK(c, s, q, v);
    assert forall tid :: tid in s.shards[q].pending ==> PendingOK(c, s, q, s.shards[q], tid);
  }

  // ---- Both directions ----

  /** A decision on which the client was not misled stands in every later state. */
  lemma UnmisledStands(c: Reader, b: seq<System>, i: nat, j: nat, k: Key)
    requires c.Valid() && Behaviour(c, b) && i <= j < |b| && b[i].verdict.Commit? && k in c.keys && !Misled(c, b[i], k)
    ensures Stands(c, b[j], k)
  {
    hide Behaviour, ServerOK, ClientOK, Misled, Stands;
    StaysUnmisled(c, b, i, j, k);
    BehaviourOK(c, b, j, true);
    StateStands(c, b[j], k);
  }

  /**
   What the client reads of a key stands in every continuation of the behaviour in which it has
   decided, exactly if it was not misled.
   */
  lemma StandsExactly(c: Reader, b: seq<System>, k: Key)
    requires c.Valid() && Behaviour(c, b) && Last(b).verdict.Commit? && k in c.keys
    ensures (forall more :: Continues(c, b, more) ==> Stands(c, Last(more), k)) <==> !Misled(c, Last(b), k)
  {
    assert b != [];
    hide Behaviour, ServerOK, ClientOK, Misled, Stands;
    if Misled(c, Last(b), k) {
      BehaviourOK(c, b, |b| - 1, true);
      var more := MisledFalls(c, b, k);
    } else {
      forall more | Continues(c, b, more) ensures Stands(c, Last(more), k) {
        Continued(c, b, more);
        UnmisledStands(c, more, |b| - 1, |more| - 1, k);
      }
    }
  }

  lemma Continued(c: Reader, b: seq<System>, more: seq<System>)
    requires c.Valid() && b != [] && Continues(c, b, more)
    ensures |b| <= |more| && more[|b| - 1] == Last(b) && Behaviour(c, more)
  {
    hide Behaviour;
  }
}
