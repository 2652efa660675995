/**
 What a client keeps while it waits for the replies to a read-only transaction
 (src/store/strongstore/client.cc), as values. `RssClient` has the loops of the C++ code.
 */
module RssSession {
  import opened RssTypes

  /** Per key, the values received so far, newest first. */
  type Values = map<Key, seq<Value>>

  datatype Session = Session(
    participants: set<nat>,             // shards whose fast reply is still to come
    values: Values,
    prepares: map<nat, Prepared>,       // transactions whose outcome is still to come
    snapshot: Timestamp)

  datatype Verdict = Wait | Commit(snapshot: Timestamp)

  predicate Sorted(l: seq<Value>) {
    forall i, j :: 0 <= i < j < |l| ==> Leq(l[j].ts, l[i].ts)
  }

  function ListOf(values: Values, k: Key): seq<Value> {
    if k in values then values[k] else []
  }

  /** Before the first value that is older. */
  function Insert(l: seq<Value>, v: Value): seq<Value> {
    if l == [] then [v]
    else if Less(l[0].ts, v.ts) then [v] + l
    else [l[0]] + Insert(l[1..], v)
  }

  function AddValue(values: Values, v: Value): Values {
    values[v.key := Insert(ListOf(values, v.key), v)]
  }

  function AddValues(values: Values, vs: seq<Value>): Values {
    if vs == [] then values else AddValue(AddValues(values, vs[..|vs| - 1]), vs[|vs| - 1])
  }

  /** PreparedTransaction::update_prepare_ts and add_write_set: the later timestamp, and the writes not yet there. */
  function Merge(p: Prepared, q: Prepared): Prepared {
    Prepared(p.tid, Later(p.prepareTs, q.prepareTs), q.writes + p.writes)
  }

  function AddPrepare(prepares: map<nat, Prepared>, p: Prepared): map<nat, Prepared> {
    prepares[p.tid := if p.tid in prepares then Merge(prepares[p.tid], p) else p]
  }

  function AddPrepares(prepares: map<nat, Prepared>, ps: seq<Prepared>): map<nat, Prepared> {
    if ps == [] then prepares else AddPrepare(AddPrepares(prepares, ps[..|ps| - 1]), ps[|ps| - 1])
  }

  /** Some received value was written by `tid`, which therefore has committed. */
  ghost predicate SeenAt(values: Values, tid: nat, ts: Timestamp) {
    exists k, v :: k in values && v in values[k] && v.tid == tid && v.ts == ts
  }

  ghost predicate Seen(values: Values, tid: nat) {
    exists k, v :: k in values && v in values[k] && v.tid == tid
  }

  /** Of transaction `tid`, `more` has exactly `writes`, at the timestamp of one received value. */
  ghost predicate FoundAt(values: Values, tid: nat, writes: map<Key, string>, more: seq<Value>, ts: Timestamp) {
    && SeenAt(values, tid, ts)
    && (forall v :: v in more && v.tid == tid ==> v.ts == ts && v.key in writes && v.val == writes[v.key])
    && (forall k :: k in writes ==> Value(tid, ts, k, writes[k]) in more)
  }

  /** `more` are the writes of the prepared transactions that some received value shows to have committed. */
  ghost predicate FoundWrites(values: Values, prepares: map<nat, Prepared>, more: seq<Value>) {
    && (forall v :: v in more ==> v.tid in prepares && Seen(values, v.tid))
    && (forall tid :: tid in prepares && Seen(values, tid) ==>
          exists ts :: FoundAt(values, tid, prepares[tid].writes, more, ts))
  }

  /** FindCommittedKeys; the order in which it meets the values is that of a hash map, so this is a relation. */
  ghost predicate FoundCommitted(s: Session, s': Session) {
    && (forall tid :: tid in s'.prepares <==> tid in s.prepares && !Seen(s.values, tid))
    && (forall tid :: tid in s'.prepares ==> s'.prepares[tid] == s.prepares[tid])
    && s'.participants == s.participants && s'.snapshot == s.snapshot
    && exists more :: FoundWrites(s.values, s.prepares, more) && s'.values == AddValues(s.values, more)
  }

  /** The largest over the keys of the oldest value received, and (0, 0) without keys. */
  ghost predicate IsSnapshot(values: Values, ts: Timestamp) {
    && (forall k :: k in values ==> values[k] != [] && Leq(values[k][|values[k]| - 1].ts, ts))
    && (ts == Timestamp(0, 0) || exists k :: k in values && values[k] != [] && values[k][|values[k]| - 1].ts == ts)
  }

  /** CheckCommit */
  predicate Safe(rss: bool, s: Session) {
    s.participants == {} &&
    (rss ==> Less(s.snapshot, MAX) && forall tid :: tid in s.prepares ==> Less(s.snapshot, s.prepares[tid].prepareTs))
  }

  function CheckCommit(rss: bool, s: Session): Verdict {
    if Safe(rss, s) then Commit(s.snapshot) else Wait
  }

  /** ReceivedAllFastPaths, once no participant is left. */
  ghost predicate AllFast(s: Session, s': Session) {
    if s.participants != {} then s' == s
    else exists found ::
      && FoundCommitted(s, found)
      && s' == found.(snapshot := s'.snapshot)
      && IsSnapshot(found.values, s'.snapshot)
  }

  /** ReceiveFastPath, from a shard whose reply has not come yet. */
  ghost predicate FastReceived(s: Session, shard: nat, vs: seq<Value>, ps: seq<Prepared>, s': Session) {
    && shard in s.participants
    && AllFast(s.(participants := s.participants - {shard},
                  values := AddValues(s.values, vs),
                  prepares := AddPrepares(s.prepares, ps)), s')
  }

  /** `vs` are the writes of `p`, in any order, at the timestamp at which it committed. */
  ghost predicate WritesAt(p: Prepared, ts: Timestamp, vs: seq<Value>) {
    && (forall v :: v in vs ==> v.tid == p.tid && v.ts == ts && v.key in p.writes && v.val == p.writes[v.key])
    && (forall k :: k in p.writes ==> Value(p.tid, ts, k, p.writes[k]) in vs)
  }

  /** ReceiveSlowPath */
  ghost predicate SlowReceived(s: Session, tid: nat, commit: bool, ts: Timestamp, s': Session) {
    if tid !in s.prepares then s' == s
    else
      && s'.prepares == s.prepares - {tid}
      && s'.participants == s.participants && s'.snapshot == s.snapshot
      && if commit then exists vs :: WritesAt(s.prepares[tid], ts, vs) && s'.values == AddValues(s.values, vs)
         else s'.values == s.values
  }

  // ---- What adding keeps ----

  lemma {:induction false} InsertKeeps(l: seq<Value>, v: Value)
    requires Sorted(l)
    ensures Sorted(Insert(l, v))
    ensures forall u :: u in Insert(l, v) <==> u == v || u in l
    ensures Insert(l, v) != []
    decreases |l|
  {
    if l != [] && !Less(l[0].ts, v.ts) {
      assert l == [l[0]] + l[1..];
      InsertKeeps(l[1..], v);
      assert forall u :: u in Insert(l[1..], v) ==> Leq(u.ts, l[0].ts);
    }
  }

  ghost predicate AllSorted(values: Values) {
    forall k :: k in values ==> values[k] != [] && Sorted(values[k])
  }

  /** Adding keeps the lists sorted, adds what it is given and nothing else, and each value under its own key. */
  lemma {:induction false} AddValuesKeeps(values: Values, vs: seq<Value>)
    requires AllSorted(values)
    ensures AllSorted(AddValues(values, vs))
    ensures forall k, u :: u in ListOf(AddValues(values, vs), k) <==> u in ListOf(values, k) || (u in vs && u.key == k)
    decreases |vs|
  {
    if vs != [] {
      var before, v := vs[..|vs| - 1], vs[|vs| - 1];
      assert vs == before + [v];
      AddValuesKeeps(values, before);
      AddValueKeeps(AddValues(values, before), v);
      hide AddValue, AllSorted, ListOf;
    }
  }

  lemma AddValueKeeps(values: Values, v: Value)
    requires AllSorted(values)
    ensures AllSorted(AddValue(values, v))
    ensures forall k, u :: u in ListOf(AddValue(values, v), k) <==> u in ListOf(values, k) || (u == v && u.key == k)
  {
    InsertKeeps(ListOf(values, v.key), v);
    hide Insert;
    var more := AddValue(values, v);
    assert forall k :: k != v.key ==> ListOf(more, k) == ListOf(values, k);
    assert ListOf(more, v.key) == Insert(ListOf(values, v.key), v);
  }

  ghost predicate Keyed(prepares: map<nat, Prepared>) {
    forall tid :: tid in prepares ==> prepares[tid].tid == tid
  }

  lemma {:induction false} AddPreparesKeyed(prepares: map<nat, Prepared>, ps: seq<Prepared>)
    requires Keyed(prepares)
    ensures Keyed(AddPrepares(prepares, ps))
    decreases |ps|
  {
    if ps != [] {
      AddPreparesKeyed(prepares, ps[..|ps| - 1]);
    }
  }

  ghost predicate PrepareFrom(before: map<nat, Prepared>, ps: seq<Prepared>, tid: nat, ts: Timestamp) {
    (tid in before && before[tid].prepareTs == ts) || exists p :: p in ps && p.tid == tid && p.prepareTs == ts
  }

  ghost predicate WriteFrom(before: map<nat, Prepared>, ps: seq<Prepared>, tid: nat, k: Key, val: string) {
    || (tid in before && k in before[tid].writes && before[tid].writes[k] == val)
    || exists p :: p in ps && p.tid == tid && k in p.writes && p.writes[k] == val
  }

  /** Every timestamp and every write after a merge was there before. */
  ghost predicate Traced(before: map<nat, Prepared>, ps: seq<Prepared>, after: map<nat, Prepared>) {
    && (forall tid :: tid in after ==> PrepareFrom(before, ps, tid, after[tid].prepareTs))
    && (forall tid, k :: tid in after && k in after[tid].writes ==> WriteFrom(before, ps, tid, k, after[tid].writes[k]))
  }

  /** What merging prepared transactions keeps and adds. */
  ghost predicate Merged(before: map<nat, Prepared>, ps: seq<Prepared>, after: map<nat, Prepared>) {
    && (forall tid :: tid in before ==> tid in after && Covers(after[tid], before[tid]))
    && (forall p :: p in ps ==> p.tid in after && Leq(p.prepareTs, after[p.tid].prepareTs) && p.writes.Keys <= after[p.tid].writes.Keys)
  }

  /** `p` has the writes of `q`, and did not prepare before it. */
  predicate Covers(p: Prepared, q: Prepared) {
    Leq(q.prepareTs, p.prepareTs) && q.writes.Keys <= p.writes.Keys && forall k :: k in q.writes ==> p.writes[k] == q.writes[k]
  }

  lemma {:induction false} AddPreparesMerges(prepares: map<nat, Prepared>, ps: seq<Prepared>)
    ensures Merged(prepares, ps, AddPrepares(prepares, ps))
    ensures Traced(prepares, ps, AddPrepares(prepares, ps))
    decreases |ps|
  {
    if ps != [] {
      var before, p := ps[..|ps| - 1], ps[|ps| - 1];
      assert ps == before + [p];
      AddPreparesMerges(prepares, before);
      hide Merged, Traced;
      AddPrepareMerges(prepares, before, AddPrepares(prepares, before), p);
      AddPrepareTraced(prepares, before, AddPrepares(prepares, before), p);
    }
  }

  lemma AddPrepareMerges(prepares: map<nat, Prepared>, ps: seq<Prepared>, m: map<nat, Prepared>, p: Prepared)
    requires Merged(prepares, ps, m)
    ensures Merged(prepares, ps + [p], AddPrepare(m, p))
  {
  }

  lemma TracedLonger(prepares: map<nat, Prepared>, ps: seq<Prepared>, p: Prepared, tid: nat)
    ensures forall ts :: PrepareFrom(prepares, ps, tid, ts) ==> PrepareFrom(prepares, ps + [p], tid, ts)
    ensures forall k, val :: WriteFrom(prepares, ps, tid, k, val) ==> WriteFrom(prepares, ps + [p], tid, k, val)
    ensures p in ps + [p]
  {
    assert forall q :: q in ps ==> q in ps + [p];
  }

  lemma AddPrepareTraced(prepares: map<nat, Prepared>, ps: seq<Prepared>, m: map<nat, Prepared>, p: Prepared)
    requires Traced(prepares, ps, m)
    ensures Traced(prepares, ps + [p], AddPrepare(m, p))
  {
    var after := AddPrepare(m, p);
    forall tid | tid in after
      ensures PrepareFrom(prepares, ps + [p], tid, after[tid].prepareTs)
      ensures forall k :: k in after[tid].writes ==> WriteFrom(prepares, ps + [p], tid, k, after[tid].writes[k])
    {
      TracedLonger(prepares, ps, p, tid);
      if tid in m {
        assert PrepareFrom(prepares, ps, tid, m[tid].prepareTs);
        assert forall k :: k in m[tid].writes ==> WriteFrom(prepares, ps, tid, k, m[tid].writes[k]);
      }
    }
  }
}
