/**
 The client decides: what it has received, and why the snapshot it commits at is one
 that no shard will ever contradict.
 */
module RssSnapshot {
  import opened RssTypes
  import opened RssSession
  import opened RssShards
  import opened RssInvariant

  ghost function Received(c: Reader, ss: Session): set<nat>
    requires c.Valid()
  {
    c.Shards() - ss.participants
  }

  /** A value of a fast reply from a shard in `from`. */
  ghost predicate FromFast(s: System, from: set<nat>, u: Value) {
    exists q :: q in from && q in s.fast && u in s.fast[q].values
  }

  ghost predicate ReportedBy(s: System, from: set<nat>, r: Prepared) {
    exists q :: q in from && q in s.fast && r in s.fast[q].prepares
  }

  ghost predicate WriteReported(s: System, from: set<nat>, tid: nat, k: Key, val: string) {
    exists r :: ReportedBy(s, from, r) && r.tid == tid && k in r.writes && r.writes[k] == val
  }

  ghost predicate PrepareReported(s: System, from: set<nat>, tid: nat, ts: Timestamp) {
    exists r :: ReportedBy(s, from, r) && r.tid == tid && r.prepareTs == ts
  }

  /** A value the client holds is a version, or will be one: the write of a committed transaction. */
  ghost predicate Genuine(s: System, from: set<nat>, k: Key, u: Value) {
    u.key == k && (FromFast(s, from, u) || (WriteReported(s, from, u.tid, k, u.val) && CommittedAt(s, u.tid, u.ts)))
  }

  /**
   The write of transaction 0 to `k`, as if it had committed together with the loaded versions: they
   carry identifier 0 as well, so FindCommittedKeys can take one of them for a value of transaction 0.
   */
  ghost predicate Invented(s: System, from: set<nat>, k: Key, u: Value) {
    u.key == k && u.tid == 0 && u.ts == Timestamp(0, 0) && WriteReported(s, from, 0, k, u.val)
  }

  ghost predicate Explained(s: System, from: set<nat>, k: Key, u: Value, fooled: bool) {
    Genuine(s, from, k, u) || (fooled && Invented(s, from, k, u))
  }

  /** The client waits for the outcome of a reported write, knows that there is none, or has the value. */
  ghost predicate Followed(s: System, ss: Session, r: Prepared, k: Key)
    requires k in r.writes
  {
    || (r.tid in ss.prepares && k in ss.prepares[r.tid].writes && ss.prepares[r.tid].writes[k] == r.writes[k] &&
        Leq(r.prepareTs, ss.prepares[r.tid].prepareTs))
    || (r.tid in s.outcomes && s.outcomes[r.tid] == Aborted)
    || (exists ts :: CommittedAt(s, r.tid, ts) && Value(r.tid, ts, k, r.writes[k]) in ListOf(ss.values, k))
  }

  ghost predicate ValuesOK(c: Reader, s: System, from: set<nat>, ss: Session, fooled: bool) {
    && AllSorted(ss.values)
    && (forall u :: FromFast(s, from, u) ==> u in ListOf(ss.values, u.key))
    && (forall k, u :: u in ListOf(ss.values, k) ==> Explained(s, from, k, u, fooled))
  }

  ghost predicate PreparesOK(s: System, from: set<nat>, ss: Session) {
    && Keyed(ss.prepares)
    && (forall tid :: tid in ss.prepares ==> PrepareReported(s, from, tid, ss.prepares[tid].prepareTs))
    && (forall tid, k :: tid in ss.prepares && k in ss.prepares[tid].writes ==>
          WriteReported(s, from, tid, k, ss.prepares[tid].writes[k]))
  }

  /** The client has struck out transaction 0, and has its write as an invented value. */
  ghost predicate Struck(ss: Session, r: Prepared, k: Key)
    requires k in r.writes
  {
    r.tid == 0 && Value(0, Timestamp(0, 0), k, r.writes[k]) in ListOf(ss.values, k)
  }

  ghost predicate Handled(s: System, ss: Session, r: Prepared, k: Key, fooled: bool)
    requires k in r.writes
  {
    Followed(s, ss, r, k) || (fooled && Struck(ss, r, k))
  }

  ghost predicate FollowsAll(s: System, from: set<nat>, ss: Session, fooled: bool) {
    forall r, k :: ReportedBy(s, from, r) && k in r.writes ==> Handled(s, ss, r, k, fooled)
  }

  ghost predicate SessionOK(c: Reader, s: System, from: set<nat>, ss: Session, fooled: bool) {
    ValuesOK(c, s, from, ss, fooled) && PreparesOK(s, from, ss) && FollowsAll(s, from, ss, fooled)
  }

  ghost predicate SomeBy(values: Values, k: Key, ts: Timestamp) {
    exists u :: u in ListOf(values, k) && Leq(u.ts, ts)
  }

  ghost predicate AllFrom(values: Values, k: Key, ts: Timestamp) {
    forall u :: u in ListOf(values, k) ==> Leq(ts, u.ts)
  }

  /** At the snapshot every key has a value, and before it some key has none. */
  ghost predicate SnapshotOK(s: System, from: set<nat>, ss: Session) {
    && (forall v :: FromFast(s, from, v) ==> SomeBy(ss.values, v.key, ss.snapshot))
    && (ss.snapshot == Timestamp(0, 0) || exists v :: FromFast(s, from, v) && AllFrom(ss.values, v.key, ss.snapshot))
  }

  /** The snapshot is the largest timestamp of a value in a fast reply. */
  ghost predicate AtFastValues(s: System, from: set<nat>, ts: Timestamp) {
    && (forall u :: FromFast(s, from, u) ==> Leq(u.ts, ts))
    && (ts == Timestamp(0, 0) || exists u :: FromFast(s, from, u) && u.ts == ts)
  }

  /** What the client knows, in a run in which FindCommittedKeys may have been `fooled` or has not been. */
  ghost predicate ClientOK(c: Reader, s: System, fooled: bool)
    requires c.Valid()
  {
    var from := Received(c, s.session);
    && s.session.participants <= c.Shards()
    && (forall q :: q in from ==> q in s.fast)
    && SessionOK(c, s, from, s.session, fooled)
    && (s.session.participants == {} ==> SnapshotOK(s, from, s.session))
    && (s.verdict.Commit? ==> s.verdict.snapshot == s.session.snapshot && Safe(c.rss, s.session))
  }

  // ---- Steps of the shards ----

  /** Replies and decisions, once made, stay. */
  ghost predicate Remembers(s: System, s': System) {
    && (forall q :: q in s.fast ==> q in s'.fast && s'.fast[q] == s.fast[q])
    && (forall tid :: tid in s.outcomes ==> tid in s'.outcomes && s'.outcomes[tid] == s.outcomes[tid])
  }

  lemma SameReports(s: System, s': System, from: set<nat>)
    requires Remembers(s, s') && forall q :: q in from ==> q in s.fast
    ensures forall u :: FromFast(s', from, u) <==> FromFast(s, from, u)
    ensures forall r :: ReportedBy(s', from, r) <==> ReportedBy(s, from, r)
    ensures forall tid, k, val :: WriteReported(s', from, tid, k, val) <==> WriteReported(s, from, tid, k, val)
    ensures forall tid, ts :: PrepareReported(s', from, tid, ts) <==> PrepareReported(s, from, tid, ts)
  {
    forall tid, k, val ensures WriteReported(s', from, tid, k, val) <==> WriteReported(s, from, tid, k, val) {
      if WriteReported(s, from, tid, k, val) {
        var r :| ReportedBy(s, from, r) && r.tid == tid && k in r.writes && r.writes[k] == val;
        assert ReportedBy(s', from, r);
      }
      if WriteReported(s', from, tid, k, val) {
        var r :| ReportedBy(s', from, r) && r.tid == tid && k in r.writes && r.writes[k] == val;
        assert ReportedBy(s, from, r);
      }
    }
    forall tid, ts ensures PrepareReported(s', from, tid, ts) <==> PrepareReported(s, from, tid, ts) {
      if PrepareReported(s, from, tid, ts) {
        var r :| ReportedBy(s, from, r) && r.tid == tid && r.prepareTs == ts;
        assert ReportedBy(s', from, r);
      }
      if PrepareReported(s', from, tid, ts) {
        var r :| ReportedBy(s', from, r) && r.tid == tid && r.prepareTs == ts;
        assert ReportedBy(s, from, r);
      }
    }
  }

  lemma SessionKept(c: Reader, s: System, s': System, from: set<nat>, ss: Session, fooled: bool)
    requires Remembers(s, s') && (forall q :: q in from ==> q in s.fast) && SessionOK(c, s, from, ss, fooled)
    ensures SessionOK(c, s', from, ss, fooled)
  {
    SameReports(s, s', from);
    hide FromFast, ReportedBy, WriteReported, PrepareReported;
    forall k, u | u in ListOf(ss.values, k) ensures Explained(s', from, k, u, fooled) { assert Explained(s, from, k, u, fooled); }
    forall r, k | ReportedBy(s', from, r) && k in r.writes ensures Handled(s', ss, r, k, fooled) {
      assert Handled(s, ss, r, k, fooled);
      if ts :| CommittedAt(s, r.tid, ts) && Value(r.tid, ts, k, r.writes[k]) in ListOf(ss.values, k) {
        assert CommittedAt(s', r.tid, ts);
      }
    }
  }

  lemma ClientKept(c: Reader, s: System, s': System, fooled: bool)
    requires c.Valid() && ClientOK(c, s, fooled) && Remembers(s, s') && s'.session == s.session && s'.verdict == s.verdict
    ensures ClientOK(c, s', fooled)
  {
    var from := Received(c, s.session);
    SessionKept(c, s, s', from, s.session, fooled);
    SameReports(s, s', from);
    hide SessionOK, FromFast, Safe, SomeBy, AllFrom;
  }

  lemma AnswersOnce(c: Reader, s: System, s': System, q: nat)
    requires c.Valid() && ServerOK(c, s) && Answers(c, s, s', q)
    ensures q !in s.fast
  {
    assert ShardOK(c, s, q);
    assert ReadOK(c, s, q, s.shards[q]);
  }

  ghost predicate Unmoved(s: System, s': System) {
    Remembers(s, s') && s'.session == s.session && s'.verdict == s.verdict
  }

  lemma TransactionRemembers(c: Reader, s: System, s': System, step: Step)
    requires c.Valid() && Takes(c, s, s', step) && (step.Prepare? || step.DecideCommit? || step.DecideAbort? || step.Finish?)
    ensures Unmoved(s, s')
  {
    hide Put, LocksFree, AtHome, PrepareTimestamp, Leq;
  }

  lemma ReadRemembers(c: Reader, s: System, s': System, step: Step)
    requires c.Valid() && ServerOK(c, s) && Takes(c, s, s', step) && (step.StartRead? || step.Answer? || step.OtherReads?)
    ensures Unmoved(s, s')
  {
    hide ServerOK, Reports, Newest, Conflicts, Skippable, Less;
    if step.Answer? { AnswersOnce(c, s, s', step.shard); }
  }

  // ---- A fast reply arrives ----

  lemma MoreFast(s: System, from: set<nat>, q: nat)
    requires q in s.fast
    ensures forall u :: FromFast(s, from + {q}, u) <==> FromFast(s, from, u) || u in s.fast[q].values
    ensures forall r :: ReportedBy(s, from + {q}, r) <==> ReportedBy(s, from, r) || r in s.fast[q].prepares
  {
    forall u | FromFast(s, from, u) || u in s.fast[q].values ensures FromFast(s, from + {q}, u) {
      if u !in s.fast[q].values {
        var t :| t in from && t in s.fast && u in s.fast[t].values;
        assert t in from + {q};
      }
    }
    forall r | ReportedBy(s, from, r) || r in s.fast[q].prepares ensures ReportedBy(s, from + {q}, r) {
      if r !in s.fast[q].prepares {
        var t :| t in from && t in s.fast && r in s.fast[t].prepares;
        assert t in from + {q};
      }
    }
  }

  lemma MoreReported(s: System, from: set<nat>, q: nat, tid: nat)
    requires q in s.fast
    ensures forall k, val :: WriteReported(s, from, tid, k, val) ==> WriteReported(s, from + {q}, tid, k, val)
    ensures forall ts :: PrepareReported(s, from, tid, ts) ==> PrepareReported(s, from + {q}, tid, ts)
  {
    MoreFast(s, from, q);
    hide ReportedBy;
    forall k, val | WriteReported(s, from, tid, k, val) ensures WriteReported(s, from + {q}, tid, k, val) {
      var r :| ReportedBy(s, from, r) && r.tid == tid && k in r.writes && r.writes[k] == val;
      assert ReportedBy(s, from + {q}, r);
    }
    forall ts | PrepareReported(s, from, tid, ts) ensures PrepareReported(s, from + {q}, tid, ts) {
      var r :| ReportedBy(s, from, r) && r.tid == tid && r.prepareTs == ts;
      assert ReportedBy(s, from + {q}, r);
    }
  }

  ghost function Taken(ss: Session, q: nat, reply: FastReply): Session {
    ss.(participants := ss.participants - {q},
        values := AddValues(ss.values, reply.values),
        prepares := AddPrepares(ss.prepares, reply.prepares))
  }

  lemma FastValues(c: Reader, s: System, from: set<nat>, ss: Session, q: nat, fooled: bool)
    requires q in s.fast && ValuesOK(c, s, from, ss, fooled)
    ensures ValuesOK(c, s, from + {q}, Taken(ss, q, s.fast[q]), fooled)
  {
    var ss' := Taken(ss, q, s.fast[q]);
    AddValuesKeeps(ss.values, s.fast[q].values);
    MoreFast(s, from, q);
    hide FromFast, WriteReported, AddValues, AllSorted;
    forall k, u | u in ListOf(ss'.values, k) ensures Explained(s, from + {q}, k, u, fooled) {
      if u in ListOf(ss.values, k) {
        assert Explained(s, from, k, u, fooled);
        MoreReported(s, from, q, u.tid);
      }
    }
  }

  lemma FastPrepares(s: System, from: set<nat>, ss: Session, q: nat)
    requires q in s.fast && PreparesOK(s, from, ss)
    ensures PreparesOK(s, from + {q}, Taken(ss, q, s.fast[q]))
  {
    var ps := s.fast[q].prepares;
    var ss' := Taken(ss, q, s.fast[q]);
    AddPreparesKeyed(ss.prepares, ps);
    AddPreparesMerges(ss.prepares, ps);
    MoreFast(s, from, q);
    hide ReportedBy, AddPrepares, Merged;
    forall tid | tid in ss'.prepares
      ensures PrepareReported(s, from + {q}, tid, ss'.prepares[tid].prepareTs)
      ensures forall k :: k in ss'.prepares[tid].writes ==> WriteReported(s, from + {q}, tid, k, ss'.prepares[tid].writes[k])
    {
      MoreReported(s, from, q, tid);
    }
  }

  /** Two reports of one write agree: they come from the one shard that holds the key. */
  lemma ReportsAgree(c: Reader, s: System, from: set<nat>, r: Prepared, k: Key, val: string)
    requires c.Valid() && ServerOK(c, s)
    requires ReportedBy(s, from, r) && k in r.writes && WriteReported(s, from, r.tid, k, val)
    ensures val == r.writes[k]
  {
    var q :| q in from && q in s.fast && r in s.fast[q].prepares;
    var t :| ReportedBy(s, from, t) && t.tid == r.tid && k in t.writes && t.writes[k] == val;
    var q' :| q' in from && q' in s.fast && t in s.fast[q'].prepares;
    assert ReplyOK(c, s, q) && ReplyOK(c, s, q');
    assert ReportOK(c, s, q, r) && ReportOK(c, s, q', t);
    assert k in c.At(q) && k in c.At(q');
  }

  lemma OldFollowed(s: System, ss: Session, q: nat, r: Prepared, k: Key)
    requires q in s.fast && AllSorted(ss.values) && k in r.writes && Followed(s, ss, r, k)
    ensures Followed(s, Taken(ss, q, s.fast[q]), r, k)
  {
    AddPreparesMerges(ss.prepares, s.fast[q].prepares);
    AddValuesKeeps(ss.values, s.fast[q].values);
    hide AddPrepares, AddValues, AllSorted, Traced;
  }

  lemma OldHandled(s: System, ss: Session, q: nat, r: Prepared, k: Key, fooled: bool)
    requires q in s.fast && AllSorted(ss.values) && k in r.writes && Handled(s, ss, r, k, fooled)
    ensures Handled(s, Taken(ss, q, s.fast[q]), r, k, fooled)
  {
    if Followed(s, ss, r, k) {
      OldFollowed(s, ss, q, r, k);
    } else {
      AddValuesKeeps(ss.values, s.fast[q].values);
      hide AddPrepares, AddValues, AllSorted, Followed;
    }
  }

  lemma NewFollowed(c: Reader, s: System, from: set<nat>, ss: Session, q: nat, r: Prepared, k: Key)
    requires c.Valid() && ServerOK(c, s) && q in s.fast
    requires r in s.fast[q].prepares && k in r.writes && ReportedBy(s, from, r)
    requires PreparesOK(s, from, Taken(ss, q, s.fast[q]))
    ensures Followed(s, Taken(ss, q, s.fast[q]), r, k)
  {
    var ss' := Taken(ss, q, s.fast[q]);
    AddPreparesMerges(ss.prepares, s.fast[q].prepares);
    hide ServerOK, ReportedBy, WriteReported, AddPrepares, AddValues, Traced;
    assert WriteReported(s, from, r.tid, k, ss'.prepares[r.tid].writes[k]);
    ReportsAgree(c, s, from, r, k, ss'.prepares[r.tid].writes[k]);
  }

  lemma FastFollows(c: Reader, s: System, from: set<nat>, ss: Session, q: nat, fooled: bool)
    requires c.Valid() && ServerOK(c, s) && q in s.fast
    requires SessionOK(c, s, from, ss, fooled)
    requires PreparesOK(s, from + {q}, Taken(ss, q, s.fast[q]))
    ensures FollowsAll(s, from + {q}, Taken(ss, q, s.fast[q]), fooled)
  {
    MoreFast(s, from, q);
    hide ServerOK, ReportedBy, Taken, PreparesOK, Followed, Struck;
    forall r, k | ReportedBy(s, from + {q}, r) && k in r.writes ensures Handled(s, Taken(ss, q, s.fast[q]), r, k, fooled) {
      if ReportedBy(s, from, r) {
        OldHandled(s, ss, q, r, k, fooled);
      } else {
        NewFollowed(c, s, from + {q}, ss, q, r, k);
      }
    }
  }

  /** Taking in a fast reply keeps what the session knows. */
  lemma FastSession(c: Reader, s: System, from: set<nat>, ss: Session, q: nat, fooled: bool)
    requires c.Valid() && ServerOK(c, s) && q in s.fast && SessionOK(c, s, from, ss, fooled)
    ensures SessionOK(c, s, from + {q}, Taken(ss, q, s.fast[q]), fooled)
  {
    FastValues(c, s, from, ss, q, fooled);
    FastPrepares(s, from, ss, q);
    FastFollows(c, s, from, ss, q, fooled);
  }

  // ---- After the last fast reply ----

  /** What FindCommittedKeys could test, before it takes a loaded value for one of transaction 0. */
  ghost predicate Mistakable(ss: Session) {
    0 in ss.prepares && SeenAt(ss.values, 0, Timestamp(0, 0))
  }

  /** A value that names a reported transaction shows that it has committed, and when, unless it is a loaded one. */
  lemma SeenIsCommitted(c: Reader, s: System, from: set<nat>, ss: Session, tid: nat, ts: Timestamp, fooled: bool)
    requires c.Valid() && ServerOK(c, s) && (fooled || !Mistakable(ss)) && SessionOK(c, s, from, ss, fooled)
    requires tid in ss.prepares && SeenAt(ss.values, tid, ts)
    ensures CommittedAt(s, tid, ts) || (fooled && tid == 0 && ts == Timestamp(0, 0))
  {
    hide ServerOK, PreparesOK, FollowsAll, AllSorted, Explained, CommittedAt;
    var k, u :| k in ss.values && u in ss.values[k] && u.tid == tid && u.ts == ts;
    assert u in ListOf(ss.values, k);
    ExplainedWhen(c, s, from, k, u, fooled);
  }

  lemma ExplainedWhen(c: Reader, s: System, from: set<nat>, k: Key, u: Value, fooled: bool)
    requires c.Valid() && ServerOK(c, s) && Explained(s, from, k, u, fooled)
    ensures CommittedAt(s, u.tid, u.ts) || Loaded(u)
  {
    if FromFast(s, from, u) {
      var q :| q in from && q in s.fast && u in s.fast[q].values;
      FastIsVersion(c, s, q, u);
    }
    hide ServerOK;
  }

  lemma FastIsVersion(c: Reader, s: System, q: nat, u: Value)
    requires c.Valid() && ServerOK(c, s) && q in s.fast && u in s.fast[q].values
    ensures Loaded(u) || CommittedAt(s, u.tid, u.ts)
  {
    assert ReplyOK(c, s, q) && ShardOK(c, s, q);
    assert ValueOK(c, s, q, u);
    assert VersionOK(c, s, q, s.shards[q], u.key, u);
  }

  lemma SessionPrepares(c: Reader, s: System, from: set<nat>, ss: Session, fooled: bool)
    requires SessionOK(c, s, from, ss, fooled)
    ensures PreparesOK(s, from, ss) && FollowsAll(s, from, ss, fooled)
  {
    hide ValuesOK, PreparesOK, FollowsAll;
  }

  lemma FoundValues(c: Reader, s: System, from: set<nat>, ss: Session, more: seq<Value>, v: Value, fooled: bool)
    requires c.Valid() && ServerOK(c, s) && (fooled || !Mistakable(ss)) && SessionOK(c, s, from, ss, fooled)
    requires FoundWrites(ss.values, ss.prepares, more) && v in more
    ensures Explained(s, from, v.key, v, fooled)
  {
    hide ServerOK, Mistakable, SessionOK, SeenAt, Seen, WriteReported, PrepareReported;
    assert PreparesOK(s, from, ss) by { SessionPrepares(c, s, from, ss, fooled); }
    assert Seen(ss.values, v.tid);
    var ts :| FoundAt(ss.values, v.tid, ss.prepares[v.tid].writes, more, ts);
    SeenIsCommitted(c, s, from, ss, v.tid, ts, fooled);
  }

  lemma FoundExplained(c: Reader, s: System, from: set<nat>, ss: Session, more: seq<Value>, fooled: bool)
    requires c.Valid() && ServerOK(c, s) && (fooled || !Mistakable(ss)) && SessionOK(c, s, from, ss, fooled)
    requires FoundWrites(ss.values, ss.prepares, more)
    ensures forall v :: v in more ==> Explained(s, from, v.key, v, fooled)
  {
    hide *;
    forall v | v in more ensures Explained(s, from, v.key, v, fooled) { FoundValues(c, s, from, ss, more, v, fooled); }
  }

  lemma MoreValuesOK(c: Reader, s: System, from: set<nat>, ss: Session, found: Session, more: seq<Value>, fooled: bool)
    requires ValuesOK(c, s, from, ss, fooled) && found.values == AddValues(ss.values, more)
    requires forall v :: v in more ==> Explained(s, from, v.key, v, fooled)
    ensures ValuesOK(c, s, from, found, fooled)
  {
    AddValuesKeeps(ss.values, more);
    hide AddValues, Explained, FromFast, AllSorted;
  }

  lemma FoundPreparesOK(s: System, from: set<nat>, ss: Session, found: Session)
    requires PreparesOK(s, from, ss) && FoundCommitted(ss, found)
    ensures PreparesOK(s, from, found)
  {
    hide PrepareReported, WriteReported, FoundWrites, Seen;
  }

  lemma FoundFollowsAll(c: Reader, s: System, from: set<nat>, ss: Session, found: Session, more: seq<Value>, fooled: bool)
    requires c.Valid() && ServerOK(c, s) && (fooled || !Mistakable(ss)) && SessionOK(c, s, from, ss, fooled)
    requires FoundCommitted(ss, found) && FoundWrites(ss.values, ss.prepares, more)
    requires forall k, u :: u in ListOf(found.values, k) <==> u in ListOf(ss.values, k) || (u in more && u.key == k)
    ensures FollowsAll(s, from, found, fooled)
  {
    hide ServerOK, Mistakable, SessionOK, FoundCommitted, FoundWrites, ReportedBy, Handled, ListOf;
    forall r, k | ReportedBy(s, from, r) && k in r.writes ensures Handled(s, found, r, k, fooled) {
      FoundFollowed(c, s, from, ss, found, more, r, k, fooled);
    }
  }

  lemma FoundSession(c: Reader, s: System, from: set<nat>, ss: Session, found: Session, fooled: bool)
    requires c.Valid() && ServerOK(c, s) && (fooled || !Mistakable(ss)) && SessionOK(c, s, from, ss, fooled)
    requires FoundCommitted(ss, found)
    ensures SessionOK(c, s, from, found, fooled)
  {
    hide ServerOK, Mistakable, ValuesOK, PreparesOK, FollowsAll, FoundCommitted, FoundWrites, AddValues, ListOf;
    var more := WritesFound(c, s, from, ss, found, fooled);
    FoundExplained(c, s, from, ss, more, fooled);
    MoreValuesOK(c, s, from, ss, found, more, fooled);
    FoundPreparesOK(s, from, ss, found);
    FoundFollowsAll(c, s, from, ss, found, more, fooled);
  }

  lemma WritesFound(c: Reader, s: System, from: set<nat>, ss: Session, found: Session, fooled: bool) returns (more: seq<Value>)
    requires ValuesOK(c, s, from, ss, fooled) && FoundCommitted(ss, found)
    ensures FoundWrites(ss.values, ss.prepares, more) && found.values == AddValues(ss.values, more)
    ensures forall k, u :: u in ListOf(found.values, k) <==> u in ListOf(ss.values, k) || (u in more && u.key == k)
  {
    hide FoundWrites, AddValues, Explained, FromFast, AllSorted, ListOf, Seen;
    more :| FoundWrites(ss.values, ss.prepares, more) && found.values == AddValues(ss.values, more);
    AddValuesKeeps(ss.values, more);
  }

  lemma FoundFollowed(c: Reader, s: System, from: set<nat>, ss: Session, found: Session, more: seq<Value>, r: Prepared, k: Key, fooled: bool)
    requires c.Valid() && ServerOK(c, s) && (fooled || !Mistakable(ss)) && SessionOK(c, s, from, ss, fooled)
    requires FoundCommitted(ss, found) && FoundWrites(ss.values, ss.prepares, more)
    requires forall k, u :: u in ListOf(found.values, k) <==> u in ListOf(ss.values, k) || (u in more && u.key == k)
    requires ReportedBy(s, from, r) && k in r.writes
    ensures Handled(s, found, r, k, fooled)
  {
    hide ServerOK, Mistakable, SessionOK, ReportedBy, SeenAt, Seen, Genuine, PreparesOK;
    SessionPrepares(c, s, from, ss, fooled);
    assert Handled(s, ss, r, k, fooled);
    hide FollowsAll;
    if r.tid in ss.prepares && k in ss.prepares[r.tid].writes && ss.prepares[r.tid].writes[k] == r.writes[k] && r.tid !in found.prepares {
      assert Seen(ss.values, r.tid);
      var ts :| FoundAt(ss.values, r.tid, ss.prepares[r.tid].writes, more, ts);
      SeenIsCommitted(c, s, from, ss, r.tid, ts, fooled);
      assert Value(r.tid, ts, k, r.writes[k]) in ListOf(found.values, k);
    }
  }

  // ---- The snapshot ----

  /** Whatever the client holds for a key besides the fast value is newer than that value. */
  lemma FastIsOldest(c: Reader, s: System, from: set<nat>, k: Key, v: Value, u: Value)
    requires c.Valid() && ServerOK(c, s) && FromFast(s, from, v) && v.key == k && Genuine(s, from, k, u)
    ensures Leq(v.ts, u.ts)
  {
    var q :| q in from && q in s.fast && v in s.fast[q].values;
    assert ReplyOK(c, s, q) && ValueOK(c, s, q, v);
    if FromFast(s, from, u) {
      var t :| t in from && t in s.fast && u in s.fast[t].values;
      assert ReplyOK(c, s, t) && ValueOK(c, s, t, u);
    } else {
      var r :| ReportedBy(s, from, r) && r.tid == u.tid && k in r.writes && r.writes[k] == u.val;
      var t :| t in from && t in s.fast && r in s.fast[t].prepares;
      assert ReplyOK(c, s, t) && ReportOK(c, s, t, r);
      assert k in c.At(t) && k in c.At(q);
      assert Leq(r.prepareTs, u.ts);
    }
  }

  /** Every key the client holds a value for is read, and has a fast value once all shards have answered. */
  lemma KeyHasFast(c: Reader, s: System, from: set<nat>, k: Key, u: Value, fooled: bool) returns (v: Value)
    requires c.Valid() && ServerOK(c, s) && Explained(s, from, k, u, fooled)
    ensures FromFast(s, from, v) && v.key == k
  {
    if FromFast(s, from, u) {
      v := u;
    } else {
      var r :| ReportedBy(s, from, r) && r.tid == u.tid && k in r.writes && r.writes[k] == u.val;
      var t :| t in from && t in s.fast && r in s.fast[t].prepares;
      assert ReplyOK(c, s, t) && ReportOK(c, s, t, r);
      v :| v in s.fast[t].values && v.key == k;
    }
  }

  lemma SnapshotFound(c: Reader, s: System, from: set<nat>, ss: Session, fooled: bool)
    requires c.Valid() && ServerOK(c, s) && ValuesOK(c, s, from, ss, fooled) && IsSnapshot(ss.values, ss.snapshot)
    ensures SnapshotOK(s, from, ss)
  {
    var ts := ss.snapshot;
    hide ServerOK, Explained, FromFast, Leq, Less;
    forall v | FromFast(s, from, v) ensures SomeBy(ss.values, v.key, ts) {
      assert v in ListOf(ss.values, v.key);
      var l := ss.values[v.key];
      assert l[|l| - 1] in ListOf(ss.values, v.key);
    }
    if ts != Timestamp(0, 0) {
      var k :| k in ss.values && ss.values[k] != [] && ss.values[k][|ss.values[k]| - 1].ts == ts;
      var last := ss.values[k][|ss.values[k]| - 1];
      assert last in ListOf(ss.values, k);
      var v := KeyHasFast(c, s, from, k, last, fooled);
      OldestIsLast(ss.values[k]);
    }
  }

  lemma OldestIsLast(l: seq<Value>)
    requires Sorted(l) && l != []
    ensures forall u :: u in l ==> Leq(l[|l| - 1].ts, u.ts)
  {
  }

  /** Genuine values that come later change nothing. */
  lemma SnapshotKept(c: Reader, s: System, from: set<nat>, ss: Session, ss': Session, fooled: bool)
    requires c.Valid() && ServerOK(c, s) && ValuesOK(c, s, from, ss, fooled) && SnapshotOK(s, from, ss) && ss'.snapshot == ss.snapshot
    requires forall k, u :: u in ListOf(ss.values, k) ==> u in ListOf(ss'.values, k)
    requires forall k, u :: u in ListOf(ss'.values, k) ==> u in ListOf(ss.values, k) || Genuine(s, from, k, u)
    ensures SnapshotOK(s, from, ss')
  {
    hide ServerOK, Explained, FromFast, AllSorted, ListOf, Genuine;
    forall v | FromFast(s, from, v) ensures SomeBy(ss'.values, v.key, ss.snapshot) {
      assert SomeBy(ss.values, v.key, ss.snapshot);
    }
    if ss.snapshot != Timestamp(0, 0) {
      var v :| FromFast(s, from, v) && AllFrom(ss.values, v.key, ss.snapshot);
      assert v in ListOf(ss.values, v.key);
      forall u | u in ListOf(ss'.values, v.key) ensures Leq(ss.snapshot, u.ts) {
        if u !in ListOf(ss.values, v.key) { FastIsOldest(c, s, from, v.key, v, u); }
      }
      assert AllFrom(ss'.values, v.key, ss.snapshot);
    }
  }

  /** A client that was not fooled has nothing older than the fast values, and its snapshot is the latest of them. */
  lemma SnapshotOfFast(c: Reader, s: System, from: set<nat>, ss: Session)
    requires c.Valid() && ServerOK(c, s) && ValuesOK(c, s, from, ss, false) && SnapshotOK(s, from, ss)
    ensures AtFastValues(s, from, ss.snapshot)
  {
    hide ServerOK, Genuine, FromFast, AllSorted;
    forall v | FromFast(s, from, v) ensures Leq(v.ts, ss.snapshot) {
      assert SomeBy(ss.values, v.key, ss.snapshot);
      var u :| u in ListOf(ss.values, v.key) && Leq(u.ts, ss.snapshot);
      assert Explained(s, from, v.key, u, false);
      FastIsOldest(c, s, from, v.key, v, u);
    }
    if ss.snapshot != Timestamp(0, 0) {
      var v :| FromFast(s, from, v) && AllFrom(ss.values, v.key, ss.snapshot);
      assert v in ListOf(ss.values, v.key);
    }
  }

  // ---- The client's steps keep its invariant ----

  lemma SessionSame(c: Reader, s: System, from: set<nat>, ss: Session, ss': Session, fooled: bool)
    requires SessionOK(c, s, from, ss, fooled) && ss'.values == ss.values && ss'.prepares == ss.prepares
    ensures SessionOK(c, s, from, ss', fooled)
  {
    hide ReportedBy, WriteReported, PrepareReported, Explained, AllSorted, FromFast, ListOf;
    forall r, k | ReportedBy(s, from, r) && k in r.writes ensures Handled(s, ss', r, k, fooled) {
      assert Handled(s, ss, r, k, fooled);
    }
  }

  lemma CommittedFound(ss: Session, ss': Session) returns (found: Session)
    requires ss.participants == {} && AllFast(ss, ss')
    ensures FoundCommitted(ss, found) && IsSnapshot(found.values, ss'.snapshot)
    ensures ss'.values == found.values && ss'.prepares == found.prepares && ss'.participants == {}
  {
    hide FoundWrites, Seen, IsSnapshot;
    found :| FoundCommitted(ss, found) && ss' == found.(snapshot := ss'.snapshot) && IsSnapshot(found.values, ss'.snapshot);
  }

  lemma LastFast(c: Reader, s: System, from: set<nat>, ss: Session, ss': Session, fooled: bool)
    requires c.Valid() && ServerOK(c, s) && (fooled || !Mistakable(ss)) && SessionOK(c, s, from, ss, fooled)
    requires ss.participants == {} && AllFast(ss, ss')
    ensures SessionOK(c, s, from, ss', fooled) && SnapshotOK(s, from, ss') && ss'.participants == {}
  {
    hide ServerOK, Mistakable, IsSnapshot, SnapshotOK, AllFast, FoundCommitted, ValuesOK, PreparesOK, FollowsAll;
    var found := CommittedFound(ss, ss');
    FoundSession(c, s, from, ss, found, fooled);
    SessionSame(c, s, from, found, ss', fooled);
    SnapshotFound(c, s, from, ss', fooled);
  }

  lemma TakesReply(c: Reader, s: System, s': System, q: nat)
    requires c.Valid() && s.session.participants <= c.Shards() && TakesFast(c, s, s', q)
    ensures var ss1 := Taken(s.session, q, s.fast[q]);
      AllFast(ss1, s'.session) && ss1.participants <= c.Shards() && Received(c, ss1) == Received(c, s.session) + {q}
  {
    hide AllFast, AddValues, AddPrepares;
    assert q in c.Shards();
  }

  lemma FastStepParts(c: Reader, s: System, s': System, q: nat, fooled: bool)
    requires c.Valid() && ClientOK(c, s, fooled) && TakesFast(c, s, s', q)
    ensures q in s.fast && q in s.session.participants && SessionOK(c, s, Received(c, s.session), s.session, fooled)
    ensures s.session.participants <= c.Shards() && forall t :: t in Received(c, s.session) ==> t in s.fast
    ensures s' == s.(session := s'.session, verdict := s'.verdict) && s'.verdict == CheckCommit(c.rss, s'.session)
  {
    hide SessionOK, SnapshotOK, AllFast, Safe, CheckCommit;
  }

  lemma FastStep(c: Reader, s: System, s': System, q: nat, fooled: bool)
    requires c.Valid() && ServerOK(c, s) && ClientOK(c, s, fooled) && TakesFast(c, s, s', q)
    requires fooled || !Misleads(s, q)
    ensures ClientOK(c, s', fooled)
  {
    hide *;
    FastStepParts(c, s, s', q, fooled);
    var ss, from := s.session, Received(c, s.session);
    var ss1 := Taken(ss, q, s.fast[q]);
    TakesReply(c, s, s', q);
    NotMistaken(s, q, fooled);
    FastSession(c, s, from, ss, q, fooled);
    FastTaken(c, s, from + {q}, ss1, s'.session, fooled);
    ReceivedBy(c, ss1, s'.session);
    ClientKeptAfter(c, s, s', fooled);
  }

  /** The fast reply of shard `q` is the last, and with it a loaded value can be taken for one of transaction 0. */
  ghost predicate Misleads(s: System, q: nat) {
    s.session.participants == {q} && q in s.fast && Mistakable(Taken(s.session, q, s.fast[q]))
  }

  lemma NotMistaken(s: System, q: nat, fooled: bool)
    requires q in s.fast && q in s.session.participants && (fooled || !Misleads(s, q))
    ensures var ss := Taken(s.session, q, s.fast[q]); fooled || ss.participants != {} || !Mistakable(ss)
  {
    hide Mistakable, AddValues, AddPrepares;
    if s.session.participants - {q} == {} { assert s.session.participants == {q}; }
  }

  lemma ReceivedBy(c: Reader, ss: Session, ss': Session)
    requires c.Valid() && ss'.participants == ss.participants
    ensures Received(c, ss') == Received(c, ss)
  {
  }

  lemma FastTaken(c: Reader, s: System, from: set<nat>, ss: Session, ss': Session, fooled: bool)
    requires c.Valid() && ServerOK(c, s) && SessionOK(c, s, from, ss, fooled) && AllFast(ss, ss')
    requires fooled || ss.participants != {} || !Mistakable(ss)
    ensures SessionOK(c, s, from, ss', fooled) && ss'.participants == ss.participants
    ensures ss.participants == {} ==> SnapshotOK(s, from, ss')
  {
    hide SessionOK, ServerOK, Mistakable, SnapshotOK;
    if ss.participants == {} { LastFast(c, s, from, ss, ss', fooled); }
  }

  /** The client's invariant, given what has been shown of its new session. */
  lemma ClientKeptAfter(c: Reader, s: System, s': System, fooled: bool)
    requires c.Valid() && s' == s.(session := s'.session, verdict := s'.verdict)
    requires var from := Received(c, s'.session);
      && s'.session.participants <= c.Shards()
      && (forall q :: q in from ==> q in s.fast)
      && SessionOK(c, s, from, s'.session, fooled)
      && (s'.session.participants == {} ==> SnapshotOK(s, from, s'.session))
    requires s'.verdict == Wait || s'.verdict == CheckCommit(c.rss, s'.session)
    ensures ClientOK(c, s', fooled)
  {
    SessionKept(c, s, s', Received(c, s'.session), s'.session, fooled);
    SameReports(s, s', Received(c, s'.session));
    hide SessionOK, FromFast, Safe, SomeBy, AllFrom;
  }

  lemma SlowGenuine(c: Reader, s: System, from: set<nat>, ss: Session, tid: nat, ts: Timestamp, vs: seq<Value>)
    requires PreparesOK(s, from, ss) && tid in ss.prepares && WritesAt(ss.prepares[tid], ts, vs) && CommittedAt(s, tid, ts)
    ensures forall v :: v in vs ==> Genuine(s, from, v.key, v)
  {
    hide WriteReported, PrepareReported;
  }

  lemma SlowCommit(c: Reader, s: System, from: set<nat>, ss: Session, ss': Session, tid: nat, ts: Timestamp, vs: seq<Value>, fooled: bool)
    requires SessionOK(c, s, from, ss, fooled) && tid in ss.prepares && CommittedAt(s, tid, ts)
    requires WritesAt(ss.prepares[tid], ts, vs) && ss' == ss.(prepares := ss.prepares - {tid}, values := AddValues(ss.values, vs))
    ensures SessionOK(c, s, from, ss', fooled)
  {
    hide AllSorted, AddValues, WriteReported, PrepareReported, ReportedBy, Explained, WritesAt, FromFast, ListOf, Handled;
    SlowExplained(c, s, from, ss, tid, ts, vs, fooled);
    MoreValuesOK(c, s, from, ss, ss', vs, fooled);
    AddValuesKeeps(ss.values, vs);
    forall r, k | ReportedBy(s, from, r) && k in r.writes ensures Handled(s, ss', r, k, fooled) {
      SlowFollowed(s, ss, ss', tid, ts, vs, r, k, fooled);
    }
  }

  lemma SlowExplained(c: Reader, s: System, from: set<nat>, ss: Session, tid: nat, ts: Timestamp, vs: seq<Value>, fooled: bool)
    requires PreparesOK(s, from, ss) && tid in ss.prepares && WritesAt(ss.prepares[tid], ts, vs) && CommittedAt(s, tid, ts)
    ensures forall v :: v in vs ==> Explained(s, from, v.key, v, fooled)
  {
    SlowGenuine(c, s, from, ss, tid, ts, vs);
    hide WritesAt, Genuine, PreparesOK;
  }

  lemma SlowFollowed(s: System, ss: Session, ss': Session, tid: nat, ts: Timestamp, vs: seq<Value>, r: Prepared, k: Key, fooled: bool)
    requires tid in ss.prepares && CommittedAt(s, tid, ts) && WritesAt(ss.prepares[tid], ts, vs)
    requires ss.prepares[tid].tid == tid && ss'.prepares == ss.prepares - {tid}
    requires forall k, u :: u in ListOf(ss'.values, k) <==> u in ListOf(ss.values, k) || (u in vs && u.key == k)
    requires k in r.writes && Handled(s, ss, r, k, fooled)
    ensures Handled(s, ss', r, k, fooled)
  {
    if r.tid == tid && k in ss.prepares[tid].writes && ss.prepares[tid].writes[k] == r.writes[k] {
      assert Value(tid, ts, k, r.writes[k]) in vs;
    }
  }

  /** The values of a transaction that has committed leave the snapshot what it is. */
  lemma SlowSnapshot(c: Reader, s: System, from: set<nat>, ss: Session, ss': Session, tid: nat, ts: Timestamp, vs: seq<Value>, fooled: bool)
    requires c.Valid() && ServerOK(c, s) && SessionOK(c, s, from, ss, fooled) && SnapshotOK(s, from, ss)
    requires tid in ss.prepares && CommittedAt(s, tid, ts) && WritesAt(ss.prepares[tid], ts, vs)
    requires ss'.values == AddValues(ss.values, vs) && ss'.snapshot == ss.snapshot
    ensures SnapshotOK(s, from, ss')
  {
    SlowGenuine(c, s, from, ss, tid, ts, vs);
    AddValuesKeeps(ss.values, vs);
    assert ValuesOK(c, s, from, ss, fooled);
    hide ServerOK, SessionOK, ValuesOK, SnapshotOK, WritesAt, AddValues, Genuine, ListOf;
    SnapshotKept(c, s, from, ss, ss', fooled);
  }

  lemma SlowAbort(c: Reader, s: System, from: set<nat>, ss: Session, ss': Session, tid: nat, fooled: bool)
    requires SessionOK(c, s, from, ss, fooled) && tid in ss.prepares && tid in s.outcomes && s.outcomes[tid] == Aborted
    requires ss' == ss.(prepares := ss.prepares - {tid})
    ensures SessionOK(c, s, from, ss', fooled)
  {
    hide AllSorted, WriteReported, PrepareReported, ReportedBy, Explained;
    forall r, k | ReportedBy(s, from, r) && k in r.writes ensures Handled(s, ss', r, k, fooled) {
      assert Handled(s, ss, r, k, fooled);
    }
  }

  lemma SlowStep(c: Reader, s: System, s': System, m: SlowReply, fooled: bool)
    requires c.Valid() && ServerOK(c, s) && ClientOK(c, s, fooled) && TakesSlow(c, s, s', m)
    ensures ClientOK(c, s', fooled)
  {
    var ss, ss', from := s.session, s'.session, Received(c, s.session);
    assert m.tid in s.outcomes && s.outcomes[m.tid] == m.outcome;
    hide ServerOK, SessionOK, SnapshotOK, WritesAt, AddValues, Safe;
    if m.tid in ss.prepares {
      match m.outcome {
        case Committed(ts) =>
          var vs :| WritesAt(ss.prepares[m.tid], ts, vs) && ss'.values == AddValues(ss.values, vs);
          assert ss' == ss.(prepares := ss.prepares - {m.tid}, values := AddValues(ss.values, vs));
          SlowCommit(c, s, from, ss, ss', m.tid, ts, vs, fooled);
          if ss.participants == {} { SlowSnapshot(c, s, from, ss, ss', m.tid, ts, vs, fooled); }
        case Aborted =>
          assert ss' == ss.(prepares := ss.prepares - {m.tid});
          SlowAbort(c, s, from, ss, ss', m.tid, fooled);
          if ss.participants == {} { SnapshotSame(s, from, ss, ss'); }
      }
    }
    ClientKeptAfter(c, s, s', fooled);
  }

  lemma SnapshotSame(s: System, from: set<nat>, ss: Session, ss': Session)
    requires SnapshotOK(s, from, ss) && ss'.values == ss.values && ss'.snapshot == ss.snapshot
    ensures SnapshotOK(s, from, ss')
  {
    hide FromFast, SomeBy, AllFrom;
  }
}
