/**
 The client's side of a read-only transaction as the C++ code has it
 (src/store/strongstore/client.cc:889-1115): a session whose fields are changed by
 loops, proved to take the steps that `RssSession` describes.
 */
module RssClient {
  import opened RssTypes
  import opened RssSession

  /** Inserts `v` before the first value that is older, by a scan of the list. */
  method InsertInto(l: seq<Value>, v: Value) returns (r: seq<Value>)
    ensures r == Insert(l, v)
  {
    var i := 0;
    while i < |l| && !Less(l[i].ts, v.ts)
      invariant 0 <= i <= |l|
      invariant Insert(l, v) == l[..i] + Insert(l[i..], v)
    {
      i := i + 1;
    }
    r := l[..i] + [v] + l[i..];
  }

  class StrongSession {
    var participants: set<nat>
    var values: Values
    var prepares: map<nat, Prepared>
    var snapshot: Timestamp

    function State(): Session
      reads this
    {
      Session(participants, values, prepares, snapshot)
    }

    constructor (participants: set<nat>)
      ensures State() == Session(participants, map[], map[], Timestamp(0, 0))
    {
      this.participants, values, prepares, snapshot := participants, map[], map[], Timestamp(0, 0);
    }

    method AddValues(vs: seq<Value>)
      modifies this`values
      ensures values == RssSession.AddValues(old(values), vs)
    {
      var i := 0;
      while i < |vs|
        invariant 0 <= i <= |vs|
        invariant values == RssSession.AddValues(old(values), vs[..i])
      {
        var l := InsertInto(ListOf(values, vs[i].key), vs[i]);
        values := values[vs[i].key := l];
        assert vs[..i + 1][..i] == vs[..i];
        i := i + 1;
      }
      assert vs[..i] == vs;
    }

    method AddPrepares(ps: seq<Prepared>)
      modifies this`prepares
      ensures prepares == RssSession.AddPrepares(old(prepares), ps)
    {
      var i := 0;
      while i < |ps|
        invariant 0 <= i <= |ps|
        invariant prepares == RssSession.AddPrepares(old(prepares), ps[..i])
      {
        var p := ps[i];
        if p.tid !in prepares {
          prepares := prepares[p.tid := p];
        } else {
          prepares := prepares[p.tid := Merge(prepares[p.tid], p)];
        }
        assert ps[..i + 1][..i] == ps[..i];
        i := i + 1;
      }
      assert ps[..i] == ps;
    }

    /** The writes of `p` at `ts`, in the arbitrary order of a hash map. */
    method WritesOf(p: Prepared, ts: Timestamp) returns (vs: seq<Value>)
      ensures WritesAt(p, ts, vs)
    {
      var left := p.writes.Keys;
      vs := [];
      while left != {}
        invariant left <= p.writes.Keys
        invariant forall v :: v in vs ==> v.tid == p.tid && v.ts == ts && v.key in p.writes && v.val == p.writes[v.key]
        invariant forall k :: k in p.writes && k !in left ==> Value(p.tid, ts, k, p.writes[k]) in vs
      {
        var k :| k in left;
        vs := vs + [Value(p.tid, ts, k, p.writes[k])];
        left := left - {k};
      }
    }

    /** CalculateSnapshotTimestamp */
    method CalculateSnapshotTimestamp()
      requires forall k :: k in values ==> values[k] != []
      modifies this`snapshot
      ensures IsSnapshot(values, snapshot)
    {
      snapshot := Timestamp(0, 0);
      var left := values.Keys;
      while left != {}
        invariant left <= values.Keys
        invariant forall k :: k in values && k !in left ==> Leq(values[k][|values[k]| - 1].ts, snapshot)
        invariant snapshot == Timestamp(0, 0) || exists k :: k in values && values[k][|values[k]| - 1].ts == snapshot
      {
        var k :| k in left;
        var oldest := values[k][|values[k]| - 1];
        if Less(snapshot, oldest.ts) {
          snapshot := oldest.ts;
        }
        left := left - {k};
      }
    }

    /** The decision of CheckCommit: the snapshot must precede the earliest prepare timestamp. */
    method CheckCommit(rss: bool) returns (verdict: Verdict)
      ensures verdict == RssSession.CheckCommit(rss, State())
    {
      if participants != {} { return Wait; }
      if !rss { return Commit(snapshot); }
      var minTs := MAX;
      var left := prepares.Keys;
      while left != {}
        invariant left <= prepares.Keys && Leq(minTs, MAX)
        invariant forall tid :: tid in prepares && tid !in left ==> Leq(minTs, prepares[tid].prepareTs)
        invariant minTs == MAX || exists tid :: tid in prepares && prepares[tid].prepareTs == minTs
      {
        var tid :| tid in left;
        if Less(prepares[tid].prepareTs, minTs) {
          minTs := prepares[tid].prepareTs;
        }
        left := left - {tid};
      }
      if Less(snapshot, minTs) { return Commit(snapshot); }
      return Wait;
    }

    /** Looks for transactions reported as prepared by one shard of which another shard has sent a committed value. */
    method FindCommittedKeys()
      requires AllSorted(values) && Keyed(prepares)
      modifies this`values, this`prepares
      ensures AllSorted(values) && Keyed(prepares) && FoundCommitted(old(State()), State())
    {
      hide Seen, SeenAt, RssSession.AddValues;
      ghost var all := prepares;
      var more, left := [], values.Keys;
      while left != {}
        invariant values == old(values) && left <= values.Keys
        invariant Collected(values, all, prepares, more)
        invariant forall k, v :: k in values && k !in left && v in values[k] ==> v.tid !in prepares
      {
        var k :| k in left;
        var l, i := values[k], 0;
        while i < |l|
          invariant 0 <= i <= |l| && values == old(values)
          invariant Collected(values, all, prepares, more)
          invariant forall k, v :: k in values && k !in left && v in values[k] ==> v.tid !in prepares
          invariant forall j :: 0 <= j < i ==> l[j].tid !in prepares
        {
          if l[i].tid in prepares {
            var writes := WritesOf(prepares[l[i].tid], l[i].ts);
            CollectedMore(values, all, prepares, more, k, l[i], writes);
            more := more + writes;
            prepares := prepares - {l[i].tid};
          }
          i := i + 1;
        }
        left := left - {k};
      }
      AddValuesKeeps(values, more);
      CollectedAll(old(State()), prepares, more);
      AddValues(more);
    }

    /** A fast reply. `!ok` is a failed assertion: the reply was not expected, or names prepared transactions without RSS. */
    method ReceiveFastPath(rss: bool, shard: nat, vs: seq<Value>, ps: seq<Prepared>) returns (ok: bool, verdict: Verdict)
      requires AllSorted(values) && Keyed(prepares)
      modifies this
      ensures ok <==> (shard in old(participants) &&
                       (rss || old(participants) != {shard} || RssSession.AddPrepares(old(prepares), ps) == map[]))
      ensures AllSorted(values) && Keyed(prepares)
      ensures ok ==> FastReceived(old(State()), shard, vs, ps, State())
      ensures ok ==> verdict == RssSession.CheckCommit(rss, State())
    {
      verdict := Wait;
      if shard !in participants { return false, Wait; }
      participants := participants - {shard};
      AddValuesKeeps(values, vs);
      AddValues(vs);
      AddPreparesKeyed(prepares, ps);
      AddPrepares(ps);
      if participants == {} {
        if !rss && prepares != map[] { return false, Wait; }
        FindCommittedKeys();
        ghost var found := State();
        CalculateSnapshotTimestamp();
        assert State() == found.(snapshot := snapshot);
      }
      ok := true;
      verdict := CheckCommit(rss);
    }

    /** A commit or abort decision that arrives after the fast reply, or before it. */
    method ReceiveSlowPath(rss: bool, tid: nat, commit: bool, ts: Timestamp) returns (verdict: Verdict)
      requires AllSorted(values) && Keyed(prepares)
      modifies this
      ensures AllSorted(values) && Keyed(prepares) && SlowReceived(old(State()), tid, commit, ts, State())
      ensures verdict == if tid in old(prepares) then RssSession.CheckCommit(rss, State()) else Wait
    {
      if tid !in prepares { return Wait; }
      if commit {
        var vs := WritesOf(prepares[tid], ts);
        AddValuesKeeps(values, vs);
        AddValues(vs);
      }
      prepares := prepares - {tid};
      verdict := CheckCommit(rss);
    }
  }

  /** What the scan of FindCommittedKeys has done so far: the transactions taken out of `all` have their writes in `more`. */
  ghost predicate Collected(values: Values, all: map<nat, Prepared>, left: map<nat, Prepared>, more: seq<Value>) {
    && left.Keys <= all.Keys
    && (forall tid :: tid in left ==> left[tid] == all[tid])
    && (forall tid :: tid in all && tid !in left ==> Seen(values, tid))
    && (forall v :: v in more ==> v.tid in all && v.tid !in left)
    && (forall tid :: tid in all && tid !in left ==> exists ts :: FoundAt(values, tid, all[tid].writes, more, ts))
  }

  lemma CollectedAll(s: Session, left: map<nat, Prepared>, more: seq<Value>)
    requires Collected(s.values, s.prepares, left, more)
    requires forall k, v :: k in s.values && v in s.values[k] ==> v.tid !in left
    ensures FoundCommitted(s, s.(prepares := left, values := RssSession.AddValues(s.values, more)))
  {
    hide RssSession.AddValues, FoundAt;
    assert FoundWrites(s.values, s.prepares, more);
  }

  lemma CollectedMore(values: Values, all: map<nat, Prepared>, left: map<nat, Prepared>, more: seq<Value>,
                      k: Key, u: Value, writes: seq<Value>)
    requires Collected(values, all, left, more) && k in values && u in values[k] && u.tid in left
    requires WritesAt(left[u.tid], u.ts, writes) && left[u.tid].tid == u.tid
    ensures Collected(values, all, left - {u.tid}, more + writes)
  {
    assert SeenAt(values, u.tid, u.ts);
    var found := more + writes;
    assert FoundAt(values, u.tid, all[u.tid].writes, found, u.ts);
    forall tid | tid in all && tid !in left && tid != u.tid
      ensures exists ts :: FoundAt(values, tid, all[tid].writes, found, ts)
    {
      var ts :| FoundAt(values, tid, all[tid].writes, more, ts);
      assert FoundAt(values, tid, all[tid].writes, found, ts);
    }
  }
}
