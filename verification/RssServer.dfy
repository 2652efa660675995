/**
 A shard as the C++ code has it (src/store/strongstore/server.cc, transactionstore.cc):
 loops over the pending transactions, their writes and the read keys, proved to take the
 shard steps of `RssShards`. Seen, as there, from one read-only transaction.
 */
module RssServer {
  import opened RssTypes
  import opened RssShards
  import opened RssRecency

  class Server {
    const c: Reader
    const shard: nat
    var clock: Timestamp
    var versions: map<Key, set<Value>>
    var pending: map<nat, Pending>
    var phase: Phase
    var waiting: set<nat>
    var skipped: set<nat>

    function State(): Shard
      reads this
    {
      Shard(clock, versions, pending, phase, waiting, skipped)
    }

    constructor (c: Reader, shard: nat, versions: map<Key, set<Value>>)
      ensures this.c == c && this.shard == shard
      ensures State() == Shard(Timestamp(0, 0), versions, map[], Unseen, {}, {})
    {
      this.c, this.shard, this.versions := c, shard, versions;
      clock, pending, phase, waiting, skipped := Timestamp(0, 0), map[], Unseen, {}, {};
    }

    /** Later than anything the shard has promised or committed. */
    method GetPrepareTimestamp(client: nat, now: nat) returns (ts: Timestamp)
      modifies this`clock
      ensures ts == PrepareTimestamp(old(clock), client, now) && clock == ts
      ensures old(clock).time < ts.time && now <= ts.time
    {
      ts := PrepareTimestamp(clock, client, now);
      clock := ts;
    }

    method Prepare(tid: nat, client: nat, now: nat, nonblock: Timestamp, writes: map<Key, string>)
      modifies this`clock, this`pending
      ensures var ts := PrepareTimestamp(old(clock), client, now);
        State() == old(State()).(clock := ts, pending := old(pending)[tid := Pending(ts, nonblock, writes)])
    {
      var ts := GetPrepareTimestamp(client, now);
      pending := pending[tid := Pending(ts, nonblock, writes)];
    }

    /** Whether the transaction writes a key that is read. */
    method WritesReadKey(p: Pending) returns (yes: bool)
      requires c.Valid()
      ensures yes <==> p.writes.Keys * c.At(shard) != {}
    {
      var left := p.writes.Keys;
      while left != {}
        invariant left <= p.writes.Keys
        invariant forall k :: k in p.writes && k !in left ==> k !in c.At(shard)
      {
        var k :| k in left;
        if k in c.keys && c.home[k] == shard {
          assert k in p.writes.Keys * c.At(shard);
          return true;
        }
        left := left - {k};
      }
      yes := false;
      assert p.writes.Keys * c.At(shard) == {};
    }

    /** `!ok` is the assertion that the reader's past precedes the read. */
    method StartRO() returns (ok: bool)
      requires c.keys <= c.home.Keys && Less(c.readTs, MAX) && phase == Unseen
      modifies this`clock, this`phase, this`waiting, this`skipped
      ensures ok <==> c.Valid()
      ensures ok ==> ReadStarts(c, shard, old(State()), State())
      ensures ok ==> forall tid :: tid in waiting <==> tid in pending && WritesBelow(c, shard, pending[tid]) && MustWait(c, pending[tid])
      ensures ok ==> forall tid :: tid in skipped <==> tid in pending && WritesBelow(c, shard, pending[tid]) && !MustWait(c, pending[tid])
    {
      clock := Later(clock, c.readTs);
      if !Less(c.minTs, c.readTs) { return false; }
      waiting, skipped := {}, {};
      var left := pending.Keys;
      while left != {}
        invariant left <= pending.Keys && pending == old(pending) && clock == Later(old(clock), c.readTs)
        invariant forall tid :: tid in waiting <==>
          tid in pending && tid !in left && Conflicts(c, shard, pending[tid]) && !Skippable(c, pending[tid])
        invariant forall tid :: tid in skipped <==>
          tid in pending && tid !in left && Conflicts(c, shard, pending[tid]) && Skippable(c, pending[tid])
      {
        var tid :| tid in left;
        var rw := pending[tid];
        if !Less(c.readTs, rw.prepareTs) {
          var conflicts := WritesReadKey(rw);
          if conflicts {
            if c.rss && Less(c.minTs, rw.prepareTs) && Less(c.readTs, rw.nonblockTs) {
              skipped := skipped + {tid};
            } else {
              waiting := waiting + {tid};
            }
          }
        }
        left := left - {tid};
      }
      phase := Waiting;
      ok := true;
      forall tid | tid in pending ensures Conflicts(c, shard, pending[tid]) <==> WritesBelow(c, shard, pending[tid]) {
        ConflictsIs(c, shard, pending[tid]);
      }
    }

    /** VersionedKVStore::get */
    method Get(k: Key, ts: Timestamp) returns (found: bool, v: Value)
      ensures found ==> Newest(VersionsOf(State(), k), ts, v)
      ensures !found ==> forall u :: u in VersionsOf(State(), k) ==> Less(ts, u.ts)
    {
      var all := VersionsOf(State(), k);
      var left := all;
      found, v := false, Value(0, Timestamp(0, 0), "", "");
      while left != {}
        invariant left <= all
        invariant !found ==> forall u :: u in all && u !in left ==> Less(ts, u.ts)
        invariant found ==> v in all && Leq(v.ts, ts)
        invariant found ==> forall u :: u in all && u !in left && Leq(u.ts, ts) ==> Leq(u.ts, v.ts)
      {
        var u :| u in left;
        if Leq(u.ts, ts) && (!found || Leq(v.ts, u.ts)) { found, v := true, u; }
        left := left - {u};
      }
    }

    /** VersionedKVStore::put */
    method PutVersion(k: Key, v: Value)
      modifies this`versions
      ensures versions == old(versions)[k := AddVersion(VersionsOf(old(State()), k), v)]
    {
      var all := VersionsOf(State(), k);
      if exists u :: u in all && u.ts == v.ts {
        versions := versions[k := all];
      } else {
        versions := versions[k := all + {v}];
      }
    }

    /** Commits the writes, advances the clock past them, and forgets the transaction. */
    method Commit(tid: nat, ts: Timestamp)
      requires tid in pending
      modifies this
      ensures Ended(old(State()), tid, Committed(ts), State())
    {
      hide AddVersion;
      var writes := pending[tid].writes;
      var left := writes.Keys;
      while left != {}
        invariant left <= writes.Keys
        invariant State() == old(State()).(versions := versions)
        invariant versions.Keys == old(versions).Keys + (writes.Keys - left)
        invariant forall k :: k in old(versions) && k !in writes.Keys - left ==> versions[k] == old(versions)[k]
        invariant forall k :: k in writes && k !in left ==>
          versions[k] == AddVersion(if k in old(versions) then old(versions)[k] else {}, Value(tid, ts, k, writes[k]))
      {
        var k :| k in left;
        PutVersion(k, Value(tid, ts, k, writes[k]));
        left := left - {k};
      }
      if writes != map[] { clock := Later(clock, ts); }
      Forget(tid);
    }

    method Abort(tid: nat)
      requires tid in pending
      modifies this`pending, this`waiting
      ensures Ended(old(State()), tid, Aborted, State())
    {
      Forget(tid);
    }

    method Forget(tid: nat)
      modifies this`pending, this`waiting
      ensures State() == old(State()).(pending := old(pending) - {tid}, waiting := old(waiting) - {tid})
    {
      pending := pending - {tid};
      waiting := waiting - {tid};
    }

    /** The writes of a transaction to keys that are read. */
    method ReadWrites(p: Pending) returns (writes: map<Key, string>)
      requires c.Valid()
      ensures writes.Keys == p.writes.Keys * c.At(shard)
      ensures forall k :: k in writes ==> writes[k] == p.writes[k]
    {
      writes := map k | k in p.writes && k in c.keys && c.home[k] == shard :: p.writes[k];
    }

    /** The skipped transactions that are still pending. */
    method GetROSkippedRWTransactions() returns (ps: seq<Prepared>)
      requires c.Valid()
      ensures Reports(c, shard, State(), ps)
    {
      ps := [];
      var left := skipped;
      while left != {}
        invariant left <= skipped
        invariant forall q :: q in ps ==>
          && q.tid in skipped && q.tid in pending && q.prepareTs == pending[q.tid].prepareTs
          && q.writes.Keys == pending[q.tid].writes.Keys * c.At(shard)
          && forall k :: k in q.writes ==> q.writes[k] == pending[q.tid].writes[k]
        invariant forall tid :: tid in skipped && tid in pending && tid !in left ==> exists q :: q in ps && q.tid == tid
      {
        var tid :| tid in left;
        if tid in pending {
          var writes := ReadWrites(pending[tid]);
          ghost var before := ps;
          ps := ps + [Prepared(tid, pending[tid].prepareTs, writes)];
          assert ps[|before|].tid == tid;
          assert forall q :: q in before ==> q in ps;
        }
        left := left - {tid};
      }
    }

    /** No version of `k` is visible to the read. */
    ghost predicate NoVersion(k: Key)
      reads this
    {
      forall u :: u in VersionsOf(State(), k) ==> Less(c.readTs, u.ts)
    }

    /** The values of the fast reply. `!ok` is the assertion that every read key has a version. */
    method ReadValues() returns (ok: bool, values: seq<Value>)
      requires c.Valid() && forall k, v :: v in VersionsOf(State(), k) ==> v.key == k
      ensures ok ==> forall v :: v in values ==>
        v.key in c.keys && c.home[v.key] == shard && Newest(VersionsOf(State(), v.key), c.readTs, v)
      ensures ok ==> forall k :: k in c.At(shard) ==> exists v :: v in values && v.key == k
      ensures !ok ==> exists k :: k in c.At(shard) && NoVersion(k)
    {
      values := [];
      var left := set k | k in c.keys && c.home[k] == shard;
      while left != {}
        invariant left <= c.At(shard)
        invariant forall v :: v in values ==>
          v.key in c.keys && c.home[v.key] == shard && Newest(VersionsOf(State(), v.key), c.readTs, v)
        invariant forall k :: k in c.At(shard) && k !in left ==> exists v :: v in values && v.key == k
      {
        var k :| k in left;
        var found, v := Get(k, c.readTs);
        if !found { return false, []; }
        ghost var before := values;
        values := values + [v];
        assert values[|before|].key == k;
        assert forall u :: u in before ==> u in values;
        left := left - {k};
      }
      ok := true;
    }
  }
}
