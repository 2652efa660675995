/**
 What every state of a behaviour satisfies: about each shard, about the fast replies
 in the light of what has happened since, and about what the client has received.
 */
module RssInvariant {
  import opened RssTypes
  import opened RssSession
  import opened RssShards

  ghost predicate Loaded(v: Value) { v.tid == 0 && v.ts == Timestamp(0, 0) }

  ghost predicate CommittedAt(s: System, tid: nat, ts: Timestamp) {
    tid in s.outcomes && s.outcomes[tid] == Committed(ts)
  }

  // ---- Shards ----

  ghost predicate VersionOK(c: Reader, s: System, q: nat, p: Shard, k: Key, v: Value) {
    && v.key == k && k in c.home && c.home[k] == q
    && Leq(v.ts, p.clock)
    && (Loaded(v) || (CommittedAt(s, v.tid, v.ts) && v.tid !in p.pending))
  }

  ghost predicate VersionsOK(c: Reader, s: System, q: nat, p: Shard) {
    forall k, v :: k in p.versions && v in p.versions[k] ==> VersionOK(c, s, q, p, k, v)
  }

  /** A pending transaction prepared after every version of what it writes, alone, and commits no earlier than it prepared. */
  ghost predicate PendingOK(c: Reader, s: System, q: nat, p: Shard, tid: nat)
    requires tid in p.pending
  {
    && tid != c.tid && AtHome(c, q, p.pending[tid].writes)
    && (forall k, v :: k in p.pending[tid].writes && v in VersionsOf(p, k) ==> v.ts.time < p.pending[tid].prepareTs.time)
    && (forall ts :: CommittedAt(s, tid, ts) ==> Leq(p.pending[tid].prepareTs, ts))
  }

  ghost predicate LocksOK(p: Shard) {
    forall t, u :: t in p.pending && u in p.pending && t != u ==> p.pending[t].writes.Keys !! p.pending[u].writes.Keys
  }

  /** Once the read has arrived, what could still slip below its timestamp is waited for or reported. */
  ghost predicate ReadOK(c: Reader, s: System, q: nat, p: Shard)
    requires c.Valid()
  {
    && (p.phase == Answered <==> q in s.fast)
    && (p.phase != Unseen ==> q in c.Shards() && Leq(c.readTs, p.clock))
    && (p.phase == Unseen ==> p.waiting == p.skipped == {})
    && (p.phase == Answered ==> p.waiting == {})
    && (forall tid :: tid in p.pending && Conflicts(c, q, p.pending[tid]) && p.phase != Unseen ==>
          tid in p.waiting || tid in p.skipped)
    && (forall tid :: tid in p.pending && tid in p.skipped ==> Conflicts(c, q, p.pending[tid]) && Skippable(c, p.pending[tid]))
    && (forall tid :: tid in p.waiting || tid in p.skipped ==> tid in p.pending || tid in s.outcomes)
  }

  ghost predicate ShardOK(c: Reader, s: System, q: nat)
    requires c.Valid() && q in s.shards
  {
    var p := s.shards[q];
    && VersionsOK(c, s, q, p) && LocksOK(p) && ReadOK(c, s, q, p)
    && forall tid :: tid in p.pending ==> PendingOK(c, s, q, p, tid)
  }

  // ---- Fast replies ----

  /** The reply names the transaction that wrote `u`, with that very write. */
  ghost predicate Reported(reply: FastReply, u: Value) {
    exists r :: r in reply.prepares && r.tid == u.tid && u.key in r.writes && r.writes[u.key] == u.val
  }

  /** A version the read would have to take into account at its own timestamp. */
  predicate Visible(c: Reader, u: Value) { Leq(u.ts, c.readTs) }

  /** A value of the reply is a version; whatever is visible and newer was written by a reported transaction. */
  ghost predicate ValueOK(c: Reader, s: System, q: nat, v: Value)
    requires c.Valid() && q in s.shards && q in s.fast
  {
    && v.key in c.At(q) && v in VersionsOf(s.shards[q], v.key) && Leq(v.ts, c.readTs)
    && (forall u :: u in VersionsOf(s.shards[q], v.key) && Visible(c, u) && Less(v.ts, u.ts) ==> Reported(s.fast[q], u))
    && (forall r :: r in s.fast[q].prepares && v.key in r.writes ==> v.ts.time < r.prepareTs.time)
  }

  /** A reported transaction is still pending with what was reported, or has been decided, and then its writes are there. */
  ghost predicate ReportOK(c: Reader, s: System, q: nat, r: Prepared)
    requires c.Valid() && q in s.shards
  {
    var p := s.shards[q];
    && c.rss && Less(c.minTs, r.prepareTs) && r.writes.Keys <= c.At(q)
    && (r.tid in p.pending ==>
          r.prepareTs == p.pending[r.tid].prepareTs &&
          forall k :: k in r.writes ==> k in p.pending[r.tid].writes && p.pending[r.tid].writes[k] == r.writes[k])
    && (r.tid !in p.pending ==>
          r.tid in s.outcomes &&
          forall ts, k :: CommittedAt(s, r.tid, ts) && k in r.writes ==> Value(r.tid, ts, k, r.writes[k]) in VersionsOf(p, k))
    && (forall ts :: CommittedAt(s, r.tid, ts) ==> Leq(r.prepareTs, ts))
  }

  /** A reply has one value per key, names a transaction once, and one writer per key at most. */
  ghost predicate Unambiguous(reply: FastReply) {
    && (forall v, u :: v in reply.values && u in reply.values && v.key == u.key ==> v.ts == u.ts)
    && (forall r, t :: r in reply.prepares && t in reply.prepares && r.tid == t.tid ==> r == t)
    && (forall r, t, k :: r in reply.prepares && t in reply.prepares && k in r.writes && k in t.writes ==> r == t)
  }

  ghost predicate ReplyOK(c: Reader, s: System, q: nat)
    requires c.Valid() && q in s.shards && q in s.fast
  {
    && Unambiguous(s.fast[q])
    && (forall v :: v in s.fast[q].values ==> ValueOK(c, s, q, v))
    && (forall k :: k in c.At(q) ==> exists v :: v in s.fast[q].values && v.key == k)
    && (forall r :: r in s.fast[q].prepares ==> ReportOK(c, s, q, r))
    && (forall tid :: tid in s.shards[q].pending && tid in s.shards[q].skipped ==>
          exists r :: r in s.fast[q].prepares && r.tid == tid && r.writes.Keys == s.shards[q].pending[tid].writes.Keys * c.At(q))
  }

  ghost predicate ServerOK(c: Reader, s: System)
    requires c.Valid()
  {
    && s.fast.Keys <= s.shards.Keys
    && c.Shards() <= s.shards.Keys
    && (forall q :: q in s.shards ==> ShardOK(c, s, q))
    && (forall q :: q in s.fast ==> ReplyOK(c, s, q))
    && (forall m :: m in s.slow ==> m.tid in s.outcomes && s.outcomes[m.tid] == m.outcome)
  }

  // ---- Versions and decisions ----

  /** No two versions are of one timestamp. */
  ghost predicate Distinct(versions: set<Value>) {
    forall u, v :: u in versions && v in versions && u.ts == v.ts ==> u == v
  }

  /** Whoever writes at a timestamp first stays: nothing goes, there is a version afterwards, and still one for each timestamp. */
  lemma PutIsFirstWins(all: set<Value>, v: Value)
    ensures all <= AddVersion(all, v)
    ensures exists u :: u in AddVersion(all, v) && u.ts == v.ts
    ensures v in AddVersion(all, v) || exists u :: u in all && u.ts == v.ts
    ensures Distinct(all) ==> Distinct(AddVersion(all, v))
  {
    if !exists u :: u in all && u.ts == v.ts { assert v in AddVersion(all, v); }
  }

  /** The timestamps that a coordinator chooses the commit timestamp from: its own, the client's, and those of the participants. */
  ghost predicate Proposed(s: System, tid: nat, own: Timestamp, start: Timestamp, ts: Timestamp) {
    ts == own || ts == start || exists q :: q in s.shards && tid in s.shards[q].pending && s.shards[q].pending[tid].prepareTs == ts
  }

  /** A transaction commits at the latest of them. */
  lemma CommitsAtLatest(c: Reader, s: System, s': System, shard: nat, tid: nat, client: nat, now: nat,
                        start: Timestamp, nonblock: Timestamp, writes: map<Key, string>, ts: Timestamp)
    requires DecidesCommit(c, s, s', shard, tid, client, now, start, nonblock, writes, ts)
    ensures CommittedAt(s', tid, ts)
    ensures var own := Timestamp(if now <= s.shards[shard].clock.time then s.shards[shard].clock.time + 1 else now, client);
      Proposed(s, tid, own, start, ts) && forall t :: Proposed(s, tid, own, start, t) ==> Leq(t, ts)
  {
  }

  /** With no transaction left to wait for, a client with all fast replies commits, unless under RSS its snapshot is the last timestamp there is. */
  lemma NothingToWaitFor(rss: bool, s: Session)
    requires s.participants == {} && s.prepares == map[]
    ensures CheckCommit(rss, s).Commit? <==>
      !rss || s.snapshot.time < 0xFFFF_FFFF_FFFF_FFFF ||
      (s.snapshot.time == 0xFFFF_FFFF_FFFF_FFFF && s.snapshot.id < 0xFFFF_FFFF_FFFF_FFFF)
  {
  }

  // ---- Steps of the shards keep it ----

  lemma InitOK(c: Reader, s: System)
    requires c.Valid() && Init(c, s)
    ensures ServerOK(c, s)
  {
  }

  /** Decisions are final, and no earlier than any timestamp at which a participant has prepared. */
  ghost predicate OutcomesGrow(s: System, s': System) {
    && (forall tid :: tid in s.outcomes ==> tid in s'.outcomes && s'.outcomes[tid] == s.outcomes[tid])
    && (forall tid, ts, q :: CommittedAt(s', tid, ts) && tid !in s.outcomes && q in s.shards && tid in s.shards[q].pending ==>
          Leq(s.shards[q].pending[tid].prepareTs, ts))
  }

  lemma UntouchedShard(c: Reader, s: System, s': System, q: nat)
    requires c.Valid() && q in s.shards && ShardOK(c, s, q) && OutcomesGrow(s, s')
    requires q in s'.shards && s'.shards[q] == s.shards[q] && (q in s'.fast <==> q in s.fast)
    ensures ShardOK(c, s', q)
  {
  }

  /** A report stays right while the shard keeps its versions and what it knows of the transaction. */
  lemma ReportKept(c: Reader, s: System, s': System, q: nat, r: Prepared)
    requires c.Valid() && q in s.shards && q in s'.shards && ReportOK(c, s, q, r) && OutcomesGrow(s, s')
    requires s'.shards[q].versions == s.shards[q].versions
    requires r.tid in s'.shards[q].pending <==> r.tid in s.shards[q].pending
    requires r.tid in s.shards[q].pending ==> s'.shards[q].pending[r.tid] == s.shards[q].pending[r.tid]
    ensures ReportOK(c, s', q, r)
  {
    forall ts | CommittedAt(s', r.tid, ts)
      ensures Leq(r.prepareTs, ts)
      ensures r.tid !in s.shards[q].pending ==> CommittedAt(s, r.tid, ts)
    {
      if r.tid in s.outcomes { assert CommittedAt(s, r.tid, ts); }
    }
  }

  lemma ValueKept(c: Reader, s: System, s': System, q: nat, v: Value)
    requires c.Valid() && q in s.shards && q in s'.shards && q in s.fast && q in s'.fast && ValueOK(c, s, q, v)
    requires s'.shards[q].versions == s.shards[q].versions && s'.fast[q] == s.fast[q]
    ensures ValueOK(c, s', q, v)
  {
  }

  lemma ReplyKept(c: Reader, s: System, s': System, q: nat)
    requires c.Valid() && q in s.shards && q in s.fast && ReplyOK(c, s, q) && OutcomesGrow(s, s')
    requires q in s'.shards && q in s'.fast && s'.fast[q] == s.fast[q]
    requires s'.shards[q].versions == s.shards[q].versions && s'.shards[q].skipped == s.shards[q].skipped
    requires forall r :: r in s.fast[q].prepares && r.tid in s'.shards[q].pending ==> r.tid in s.shards[q].pending
    requires forall tid :: tid in s.shards[q].pending ==>
      tid in s'.shards[q].pending && s'.shards[q].pending[tid] == s.shards[q].pending[tid]
    requires forall tid :: tid in s'.shards[q].pending && tid !in s.shards[q].pending ==> tid !in s.shards[q].skipped
    ensures ReplyOK(c, s', q)
  {
    forall r | r in s.fast[q].prepares ensures ReportOK(c, s', q, r) {
      ReportKept(c, s, s', q, r);
    }
    forall v | v in s.fast[q].values ensures ValueOK(c, s', q, v) {
      ValueKept(c, s, s', q, v);
    }
    hide ReportOK, ValueOK;
  }

  /** A transaction becomes pending: its prepare timestamp is past everything the shard has seen. */
  ghost predicate AddsPending(c: Reader, s: System, s': System, q: nat, tid: nat, added: Pending, own: Timestamp) {
    && q in s.shards && q in s'.shards && tid !in s.outcomes && tid !in s.shards[q].pending && tid != c.tid
    && LocksFree(s.shards[q], added.writes) && AtHome(c, q, added.writes)
    && s.shards[q].clock.time < own.time <= added.prepareTs.time
    && s'.shards[q] == s.shards[q].(clock := own, pending := s.shards[q].pending[tid := added])
    && (forall ts :: CommittedAt(s', tid, ts) ==> Leq(added.prepareTs, ts))
  }

  lemma OtherPending(c: Reader, s: System, s': System, q: nat, p: Shard, p': Shard, t: nat)
    requires q in s.shards && s.shards[q] == p && t in p.pending && PendingOK(c, s, q, p, t) && OutcomesGrow(s, s')
    requires t in p'.pending && p'.pending[t] == p.pending[t]
    requires forall k :: k in p.pending[t].writes ==> VersionsOf(p', k) == VersionsOf(p, k)
    ensures PendingOK(c, s', q, p', t)
  {
    forall ts | CommittedAt(s', t, ts) ensures Leq(p.pending[t].prepareTs, ts) {
      if t in s.outcomes { assert CommittedAt(s, t, ts); }
    }
  }

  lemma PendingVersions(c: Reader, s: System, s': System, q: nat, tid: nat, added: Pending, own: Timestamp)
    requires c.Valid() && AddsPending(c, s, s', q, tid, added, own)
    requires VersionsOK(c, s, q, s.shards[q]) && OutcomesGrow(s, s')
    ensures VersionsOK(c, s', q, s'.shards[q])
    ensures forall k, v :: k in added.writes && v in VersionsOf(s'.shards[q], k) ==> v.ts.time < added.prepareTs.time
  {
    var p, p' := s.shards[q], s'.shards[q];
    forall k, v | k in p'.versions && v in p'.versions[k]
      ensures VersionOK(c, s', q, p', k, v) && v.ts.time < added.prepareTs.time
    {
      assert VersionOK(c, s, q, p, k, v);
    }
  }

  lemma PendingShard(c: Reader, s: System, s': System, q: nat, tid: nat, added: Pending, own: Timestamp)
    requires c.Valid() && AddsPending(c, s, s', q, tid, added, own)
    requires ShardOK(c, s, q) && OutcomesGrow(s, s') && (q in s'.fast <==> q in s.fast)
    ensures ShardOK(c, s', q)
  {
    var p, p' := s.shards[q], s'.shards[q];
    PendingVersions(c, s, s', q, tid, added, own);
    hide VersionsOK;
    forall t | t in p'.pending ensures PendingOK(c, s', q, p', t) {
      if t != tid { OtherPending(c, s, s', q, p, p', t); }
    }
    assert LocksOK(p');
    hide PendingOK, LocksOK, AtHome, LocksFree;
    assert ReadOK(c, s, q, p);
  }

  lemma PendingReply(c: Reader, s: System, s': System, q: nat, tid: nat, added: Pending, own: Timestamp)
    requires c.Valid() && AddsPending(c, s, s', q, tid, added, own)
    requires ShardOK(c, s, q) && q in s.fast && ReplyOK(c, s, q) && OutcomesGrow(s, s')
    requires q in s'.fast && s'.fast[q] == s.fast[q]
    ensures ReplyOK(c, s', q)
  {
    forall r | r in s.fast[q].prepares && r.tid in s'.shards[q].pending ensures r.tid in s.shards[q].pending {
      assert ReportOK(c, s, q, r);
    }
    assert ReadOK(c, s, q, s.shards[q]);
    assert tid !in s.shards[q].skipped;
    hide ShardOK, ReadOK, ReplyOK, OutcomesGrow;
    ReplyKept(c, s, s', q);
  }

  // ---- A transaction finishes on a shard ----

  /** Versions only get more, and the new ones are the writes of the transaction. */
  lemma VersionsAfter(c: Reader, s: System, s': System, q: nat, tid: nat, k: Key, v: Value)
    requires c.Valid() && q in s.shards && ShardOK(c, s, q) && Finishes(c, s, s', q, tid)
    ensures v in VersionsOf(s.shards[q], k) ==> v in VersionsOf(s'.shards[q], k)
    ensures v in VersionsOf(s'.shards[q], k) && v !in VersionsOf(s.shards[q], k) ==>
      CommittedAt(s, tid, v.ts) && k in s.shards[q].pending[tid].writes &&
      v == Value(tid, v.ts, k, s.shards[q].pending[tid].writes[k])
  {
  }

  /** The writes of a committed transaction become versions: no older version stands in their way. */
  lemma WritesArrive(c: Reader, s: System, s': System, q: nat, tid: nat, k: Key, ts: Timestamp)
    requires c.Valid() && q in s.shards && ShardOK(c, s, q) && Finishes(c, s, s', q, tid)
    requires k in s.shards[q].pending[tid].writes && CommittedAt(s, tid, ts)
    ensures Value(tid, ts, k, s.shards[q].pending[tid].writes[k]) in VersionsOf(s'.shards[q], k)
  {
    var p := s.shards[q];
    assert PendingOK(c, s, q, p, tid);
    assert Leq(p.pending[tid].prepareTs, ts);
    forall u | u in VersionsOf(p, k) ensures u.ts != ts {
      assert u.ts.time < p.pending[tid].prepareTs.time;
    }
  }

  lemma FinishVersions(c: Reader, s: System, s': System, q: nat, tid: nat)
    requires c.Valid() && q in s.shards && ShardOK(c, s, q) && Finishes(c, s, s', q, tid)
    ensures VersionsOK(c, s', q, s'.shards[q])
  {
    var p, p' := s.shards[q], s'.shards[q];
    assert PendingOK(c, s, q, p, tid);
    forall k, v | k in p'.versions && v in p'.versions[k] ensures VersionOK(c, s', q, p', k, v) {
      VersionsAfter(c, s, s', q, tid, k, v);
      if v in VersionsOf(p, k) { assert VersionOK(c, s, q, p, k, v); }
    }
  }

  lemma FinishPending(c: Reader, s: System, s': System, q: nat, tid: nat, t: nat)
    requires c.Valid() && q in s.shards && ShardOK(c, s, q) && Finishes(c, s, s', q, tid)
    requires t in s'.shards[q].pending
    ensures PendingOK(c, s', q, s'.shards[q], t)
  {
    var p, p' := s.shards[q], s'.shards[q];
    assert PendingOK(c, s, q, p, t);
    forall k, v | k in p.pending[t].writes && v in VersionsOf(p', k) ensures v.ts.time < p.pending[t].prepareTs.time {
      VersionsAfter(c, s, s', q, tid, k, v);
    }
    forall ts | CommittedAt(s', t, ts) ensures Leq(p.pending[t].prepareTs, ts) { assert CommittedAt(s, t, ts); }
  }

  lemma FinishShard(c: Reader, s: System, s': System, q: nat, tid: nat)
    requires c.Valid() && q in s.shards && ShardOK(c, s, q) && Finishes(c, s, s', q, tid)
    ensures ShardOK(c, s', q)
  {
    FinishVersions(c, s, s', q, tid);
    forall t | t in s'.shards[q].pending ensures PendingOK(c, s', q, s'.shards[q], t) {
      FinishPending(c, s, s', q, tid, t);
    }
    hide VersionsOK, PendingOK, Put;
  }

  lemma FinishReport(c: Reader, s: System, s': System, q: nat, tid: nat, r: Prepared)
    requires c.Valid() && q in s.shards && ShardOK(c, s, q) && Finishes(c, s, s', q, tid)
    requires ReportOK(c, s, q, r)
    ensures ReportOK(c, s', q, r)
  {
    var p, p' := s.shards[q], s'.shards[q];
    forall ts | CommittedAt(s', r.tid, ts) ensures Leq(r.prepareTs, ts) { assert CommittedAt(s, r.tid, ts); }
    if r.tid !in p'.pending {
      forall ts, k | CommittedAt(s', r.tid, ts) && k in r.writes
        ensures Value(r.tid, ts, k, r.writes[k]) in VersionsOf(p', k)
      {
        assert CommittedAt(s, r.tid, ts);
        VersionsAfter(c, s, s', q, tid, k, Value(r.tid, ts, k, r.writes[k]));
        if r.tid == tid { WritesArrive(c, s, s', q, tid, k, ts); }
      }
    }
    hide ShardOK, Put;
  }

  /** A version that appears below the read was written by a transaction that the reply had named. */
  lemma FinishValue(c: Reader, s: System, s': System, q: nat, tid: nat, v: Value)
    requires c.Valid() && q in s.shards && ShardOK(c, s, q) && Finishes(c, s, s', q, tid)
    requires q in s.fast && ReplyOK(c, s, q) && v in s.fast[q].values && q in s'.fast && s'.fast[q] == s.fast[q]
    ensures ValueOK(c, s', q, v)
  {
    var p := s.shards[q];
    assert ValueOK(c, s, q, v);
    VersionsAfter(c, s, s', q, tid, v.key, v);
    forall u | u in VersionsOf(s'.shards[q], v.key) && Visible(c, u) && Less(v.ts, u.ts)
      ensures Reported(s.fast[q], u)
    {
      VersionsAfter(c, s, s', q, tid, v.key, u);
      if u !in VersionsOf(p, v.key) {
        assert PendingOK(c, s, q, p, tid) && ReadOK(c, s, q, p);
        assert v.key in p.pending[tid].writes.Keys * c.At(q);
        assert Conflicts(c, q, p.pending[tid]);
        var r :| r in s.fast[q].prepares && r.tid == tid && r.writes.Keys == p.pending[tid].writes.Keys * c.At(q);
        assert ReportOK(c, s, q, r);
        assert r.writes[v.key] == u.val;
      }
    }
  }

  lemma FinishReply(c: Reader, s: System, s': System, q: nat, tid: nat)
    requires c.Valid() && q in s.shards && ShardOK(c, s, q) && Finishes(c, s, s', q, tid)
    requires q in s.fast && ReplyOK(c, s, q) && q in s'.fast && s'.fast[q] == s.fast[q]
    ensures ReplyOK(c, s', q)
  {
    forall r | r in s.fast[q].prepares ensures ReportOK(c, s', q, r) { FinishReport(c, s, s', q, tid, r); }
    forall v | v in s.fast[q].values ensures ValueOK(c, s', q, v) { FinishValue(c, s, s', q, tid, v); }
    hide ReportOK, ValueOK, ShardOK, Put;
  }

  // ---- The read arrives, and is answered ----

  /** Only the clock and what concerns the read changes. */
  lemma ClockShard(c: Reader, s: System, s': System, q: nat)
    requires c.Valid() && q in s.shards && q in s'.shards && ShardOK(c, s, q) && s'.outcomes == s.outcomes
    requires s'.shards[q].versions == s.shards[q].versions && s'.shards[q].pending == s.shards[q].pending
    requires Leq(s.shards[q].clock, s'.shards[q].clock)
    requires ReadOK(c, s', q, s'.shards[q])
    ensures ShardOK(c, s', q)
  {
    var p, p' := s.shards[q], s'.shards[q];
    forall k, v | k in p'.versions && v in p'.versions[k] ensures VersionOK(c, s', q, p', k, v) {
      assert VersionOK(c, s, q, p, k, v);
    }
    forall t | t in p'.pending ensures PendingOK(c, s', q, p', t) { OtherPending(c, s, s', q, p, p', t); }
    hide VersionOK, PendingOK, ReadOK;
  }

  lemma StartShard(c: Reader, s: System, s': System, q: nat)
    requires c.Valid() && StartsRead(c, s, s', q) && ShardOK(c, s, q)
    ensures ShardOK(c, s', q)
  {
    hide VersionsOK, PendingOK, LocksOK, Conflicts, Skippable;
    ClockShard(c, s, s', q);
  }

  lemma AnswerValue(c: Reader, s: System, s': System, q: nat, v: Value)
    requires c.Valid() && Answers(c, s, s', q) && ShardOK(c, s, q) && v in s'.fast[q].values
    ensures ValueOK(c, s', q, v)
  {
    forall r | r in s'.fast[q].prepares && v.key in r.writes ensures v.ts.time < r.prepareTs.time {
      assert PendingOK(c, s, q, s.shards[q], r.tid);
    }
  }

  lemma AnswerReport(c: Reader, s: System, s': System, q: nat, r: Prepared)
    requires c.Valid() && Answers(c, s, s', q) && ShardOK(c, s, q) && r in s'.fast[q].prepares
    ensures ReportOK(c, s', q, r)
  {
    assert PendingOK(c, s, q, s.shards[q], r.tid) && ReadOK(c, s, q, s.shards[q]);
    forall ts | CommittedAt(s', r.tid, ts) ensures Leq(r.prepareTs, ts) { assert CommittedAt(s, r.tid, ts); }
  }

  lemma AnswerShard(c: Reader, s: System, s': System, q: nat)
    requires c.Valid() && Answers(c, s, s', q) && ShardOK(c, s, q)
    ensures ShardOK(c, s', q)
  {
    hide VersionsOK, PendingOK, LocksOK, Conflicts, Skippable, Reports, Newest;
    ClockShard(c, s, s', q);
  }

  lemma OneWriter(p: Shard, tid: nat, t: nat, k: Key)
    requires LocksOK(p) && tid in p.pending && t in p.pending && k in p.pending[tid].writes && k in p.pending[t].writes
    ensures tid == t
  {
  }

  lemma AnswerUnambiguous(c: Reader, s: System, s': System, q: nat)
    requires c.Valid() && Answers(c, s, s', q) && LocksOK(s.shards[q])
    ensures Unambiguous(s'.fast[q])
  {
    var reply, p := s'.fast[q], s.shards[q];
    forall r, t | r in reply.prepares && t in reply.prepares && r.tid == t.tid ensures r == t {
      assert r.writes == t.writes;
    }
    forall r, t, k | r in reply.prepares && t in reply.prepares && k in r.writes && k in t.writes ensures r == t {
      OneWriter(p, r.tid, t.tid, k);
    }
  }

  lemma AnswerReply(c: Reader, s: System, s': System, q: nat)
    requires c.Valid() && Answers(c, s, s', q) && ShardOK(c, s, q)
    ensures ReplyOK(c, s', q)
  {
    AnswerUnambiguous(c, s, s', q);
    forall v | v in s'.fast[q].values ensures ValueOK(c, s', q, v) { AnswerValue(c, s, s', q, v); }
    forall r | r in s'.fast[q].prepares ensures ReportOK(c, s', q, r) { AnswerReport(c, s, s', q, r); }
    hide ShardOK, ValueOK, ReportOK, Unambiguous;
  }

  // ---- Every step ----

  /** Everything but shard `q` is as before. */
  ghost predicate Local(c: Reader, s: System, s': System, q: nat) {
    && OutcomesGrow(s, s')
    && s'.shards.Keys == s.shards.Keys
    && (forall t :: t in s.shards && t != q ==> s'.shards[t] == s.shards[t])
    && (forall t :: t != q ==> (t in s'.fast <==> t in s.fast))
    && (forall t :: t in s.fast && t != q ==> s'.fast[t] == s.fast[t])
    && (forall m :: m in s'.slow && m !in s.slow ==> m.tid in s'.outcomes && s'.outcomes[m.tid] == m.outcome)
  }

  lemma LocalKeeps(c: Reader, s: System, s': System, q: nat)
    requires c.Valid() && ServerOK(c, s) && Local(c, s, s', q)
    requires q in s'.shards ==> ShardOK(c, s', q)
    requires q in s'.fast ==> q in s'.shards && ReplyOK(c, s', q)
    ensures ServerOK(c, s')
  {
    hide ShardOK, ReplyOK;
    forall t | t in s'.shards ensures ShardOK(c, s', t) {
      if t != q { UntouchedShard(c, s, s', t); }
    }
    forall t | t in s'.fast ensures ReplyOK(c, s', t) {
      if t != q { ReplyKept(c, s, s', t); }
    }
  }

  lemma AddKeeps(c: Reader, s: System, s': System, q: nat, tid: nat, added: Pending, own: Timestamp)
    requires c.Valid() && ServerOK(c, s) && Local(c, s, s', q) && AddsPending(c, s, s', q, tid, added, own)
    requires s'.fast == s.fast
    ensures ServerOK(c, s')
  {
    assert ShardOK(c, s, q) && (q in s.fast ==> ReplyOK(c, s, q));
    assert OutcomesGrow(s, s');
    hide AddsPending, ShardOK, ReplyOK, OutcomesGrow;
    PendingShard(c, s, s', q, tid, added, own);
    if q in s.fast { PendingReply(c, s, s', q, tid, added, own); }
    hide ServerOK, Local;
    LocalKeeps(c, s, s', q);
  }

  lemma PrepareMoves(c: Reader, s: System, s': System, q: nat, tid: nat, client: nat, now: nat, nonblock: Timestamp, writes: map<Key, string>)
    requires c.Valid() && Prepares(c, s, s', q, tid, client, now, nonblock, writes)
    ensures Local(c, s, s', q) && s'.fast == s.fast
    ensures var ts := PrepareTimestamp(s.shards[q].clock, client, now);
      AddsPending(c, s, s', q, tid, Pending(ts, nonblock, writes), ts)
  {
  }

  lemma DecideMoves(c: Reader, s: System, s': System, q: nat, tid: nat, client: nat, now: nat, start: Timestamp,
                    nonblock: Timestamp, writes: map<Key, string>, ts: Timestamp)
    requires c.Valid() && DecidesCommit(c, s, s', q, tid, client, now, start, nonblock, writes, ts)
    ensures Local(c, s, s', q) && s'.fast == s.fast
    ensures AddsPending(c, s, s', q, tid, Pending(ts, nonblock, writes), PrepareTimestamp(s.shards[q].clock, client, now))
  {
  }

  lemma FinishMoves(c: Reader, s: System, s': System, q: nat, tid: nat)
    requires Finishes(c, s, s', q, tid)
    ensures Local(c, s, s', q) && s'.fast == s.fast
  {
    hide Put;
  }

  lemma FinishKeeps(c: Reader, s: System, s': System, q: nat, tid: nat)
    requires c.Valid() && ServerOK(c, s) && Finishes(c, s, s', q, tid)
    ensures ServerOK(c, s')
  {
    FinishMoves(c, s, s', q, tid);
    assert q in s.shards && ShardOK(c, s, q) && (q in s.fast ==> ReplyOK(c, s, q));
    hide ShardOK, ReplyOK, Finishes, Local;
    FinishShard(c, s, s', q, tid);
    if q in s.fast { FinishReply(c, s, s', q, tid); }
    hide ServerOK;
    LocalKeeps(c, s, s', q);
  }

  lemma StartKeeps(c: Reader, s: System, s': System, q: nat)
    requires c.Valid() && ServerOK(c, s) && StartsRead(c, s, s', q)
    ensures ServerOK(c, s')
  {
    hide ShardOK, ReplyOK;
    StartShard(c, s, s', q);
    StartMoves(c, s, s', q);
    hide ServerOK, Local, StartsRead;
    LocalKeeps(c, s, s', q);
  }

  lemma StartMoves(c: Reader, s: System, s': System, q: nat)
    requires c.Valid() && q in s.shards && ShardOK(c, s, q) && StartsRead(c, s, s', q)
    ensures Local(c, s, s', q) && q !in s'.fast
  {
    assert ReadOK(c, s, q, s.shards[q]);
    hide ShardOK, ReadStarts;
  }

  lemma AnswerMoves(c: Reader, s: System, s': System, q: nat)
    requires c.Valid() && Answers(c, s, s', q)
    ensures Local(c, s, s', q) && q in s.shards && q in s'.shards
  {
    hide Reports, Newest;
  }

  lemma AnswerKeeps(c: Reader, s: System, s': System, q: nat)
    requires c.Valid() && ServerOK(c, s) && Answers(c, s, s', q)
    ensures ServerOK(c, s')
  {
    hide Answers, Local, ShardOK, ReplyOK;
    AnswerMoves(c, s, s', q);
    assert ShardOK(c, s, q);
    AnswerShard(c, s, s', q);
    AnswerReply(c, s, s', q);
    hide ServerOK;
    LocalKeeps(c, s, s', q);
  }

  lemma OtherReadShard(c: Reader, s: System, s': System, q: nat, ts: Timestamp)
    requires c.Valid() && q in s.shards && ShardOK(c, s, q) && OtherRead(s, s', q, ts)
    ensures ShardOK(c, s', q)
  {
    hide VersionsOK, PendingOK, LocksOK, Conflicts, Skippable;
    ClockShard(c, s, s', q);
  }

  lemma OtherReadMoves(c: Reader, s: System, s': System, q: nat, ts: Timestamp)
    requires c.Valid() && ServerOK(c, s) && OtherRead(s, s', q, ts)
    ensures Local(c, s, s', q) && q in s.shards && q in s'.shards && ShardOK(c, s, q) && s'.fast == s.fast
    ensures q in s.fast ==> ReplyOK(c, s, q)
  {
    hide ShardOK, ReplyOK;
  }

  lemma OtherReadReply(c: Reader, s: System, s': System, q: nat, ts: Timestamp)
    requires c.Valid() && q in s.shards && q in s.fast && ReplyOK(c, s, q) && OtherRead(s, s', q, ts)
    ensures q in s'.shards && ReplyOK(c, s', q)
  {
    assert OutcomesGrow(s, s');
    hide ReplyOK, OutcomesGrow;
    ReplyKept(c, s, s', q);
  }

  lemma OtherReadKeeps(c: Reader, s: System, s': System, q: nat, ts: Timestamp)
    requires c.Valid() && ServerOK(c, s) && OtherRead(s, s', q, ts)
    ensures ServerOK(c, s')
  {
    hide *;
    OtherReadMoves(c, s, s', q, ts);
    OtherReadShard(c, s, s', q, ts);
    if q in s.fast { OtherReadReply(c, s, s', q, ts); }
    LocalKeeps(c, s, s', q);
  }

  /** Whatever happens, the servers keep what `ServerOK` says. */
  lemma ServerKeeps(c: Reader, s: System, s': System, step: Step)
    requires c.Valid() && ServerOK(c, s) && Takes(c, s, s', step)
    ensures ServerOK(c, s')
  {
    hide ServerOK, Prepares, DecidesCommit, Finishes, StartsRead, Answers;
    match step
    case Prepare(q, tid, client, now, nonblock, writes) =>
      PrepareMoves(c, s, s', q, tid, client, now, nonblock, writes);
      var ts := PrepareTimestamp(s.shards[q].clock, client, now);
      AddKeeps(c, s, s', q, tid, Pending(ts, nonblock, writes), ts);
    case DecideCommit(q, tid, client, now, start, nonblock, writes, ts) =>
      DecideMoves(c, s, s', q, tid, client, now, start, nonblock, writes, ts);
      AddKeeps(c, s, s', q, tid, Pending(ts, nonblock, writes), PrepareTimestamp(s.shards[q].clock, client, now));
    case Finish(q, tid) => FinishKeeps(c, s, s', q, tid);
    case StartRead(q) => StartKeeps(c, s, s', q);
    case Answer(q) => AnswerKeeps(c, s, s', q);
    case OtherReads(q, ts) => OtherReadKeeps(c, s, s', q, ts);
    case DecideAbort(_) => NothingMoves(c, s, s');
    case TakeFast(_) => NothingMoves(c, s, s');
    case TakeSlow(_) => NothingMoves(c, s, s');
  }

  lemma NothingMoves(c: Reader, s: System, s': System)
    requires c.Valid() && ServerOK(c, s) && s'.shards == s.shards && s'.fast == s.fast && s'.slow == s.slow
    requires s'.outcomes == s.outcomes || exists tid :: DecidesAbort(s, s', tid)
    ensures ServerOK(c, s')
  {
    assert OutcomesGrow(s, s');
    hide ShardOK, ReplyOK;
    forall t | t in s'.shards ensures ShardOK(c, s', t) { UntouchedShard(c, s, s', t); }
    forall t | t in s'.fast ensures ReplyOK(c, s', t) { ReplyKept(c, s, s', t); }
  }
}
