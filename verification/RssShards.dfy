/**
 The shards, seen from one read-only transaction: what each does with its clock, its
 versions and its prepared transactions (src/store/strongstore/server.cc,
 transactionstore.cc), and the client that reads (`RssSession`). Other read-only
 transactions only advance a shard's clock. Steps are relations; the network may delay
 and reorder replies.
 */
module RssShards {
  import opened RssTypes
  import opened RssSession

  /** A read-only transaction, its read timestamps, and the placement of keys on shards. */
  datatype Reader = Reader(rss: bool, tid: nat, minTs: Timestamp, readTs: Timestamp, keys: set<Key>, home: map<Key, nat>) {
    /** What StartRO asserts, and what the partitioner provides. */
    ghost predicate Valid() {
      Less(minTs, readTs) && Less(readTs, MAX) && keys <= home.Keys
    }

    ghost function At(shard: nat): set<Key>
      requires Valid()
    {
      set k | k in keys && home[k] == shard
    }

    ghost function Shards(): set<nat>
      requires Valid()
    {
      set k | k in keys :: home[k]
    }
  }

  /** A transaction that is preparing, prepared or committing on a shard. */
  datatype Pending = Pending(prepareTs: Timestamp, nonblockTs: Timestamp, writes: map<Key, string>)

  datatype Phase = Unseen | Waiting | Answered

  datatype Shard = Shard(
    clock: Timestamp,                     // min_prepare_timestamp_
    versions: map<Key, set<Value>>,
    pending: map<nat, Pending>,
    phase: Phase,                         // of the read-only transaction on this shard
    waiting: set<nat>,                    // transactions its reply waits for
    skipped: set<nat>)                    // transactions its reply reports instead

  datatype Outcome = Committed(ts: Timestamp) | Aborted

  datatype FastReply = FastReply(values: seq<Value>, prepares: seq<Prepared>)
  datatype SlowReply = SlowReply(shard: nat, tid: nat, outcome: Outcome)

  datatype System = System(
    shards: map<nat, Shard>,
    outcomes: map<nat, Outcome>,          // decisions of the coordinators
    fast: map<nat, FastReply>,            // fast replies sent
    slow: set<SlowReply>,                 // slow replies sent
    session: Session,
    verdict: Verdict)

  // ---- Versions ----

  function VersionsOf(s: Shard, k: Key): set<Value> {
    if k in s.versions then s.versions[k] else {}
  }

  /** VersionedKVStore::get: the newest version at or before `ts`; a TimestampID is compared by its timestamp alone. */
  ghost predicate Newest(versions: set<Value>, ts: Timestamp, v: Value) {
    v in versions && Leq(v.ts, ts) && forall u :: u in versions && Leq(u.ts, ts) ==> Leq(u.ts, v.ts)
  }

  /** VersionedKVStore::put: a version that is there at that timestamp, whoever wrote it, is kept instead. */
  ghost function AddVersion(all: set<Value>, v: Value): set<Value> {
    if exists u :: u in all && u.ts == v.ts then all else all + {v}
  }

  /** The versions of a shard after `tid` has written at `ts`. */
  ghost predicate Put(before: map<Key, set<Value>>, writes: map<Key, string>, ts: Timestamp, tid: nat, after: map<Key, set<Value>>) {
    && after.Keys == before.Keys + writes.Keys
    && (forall k :: k in before && k !in writes ==> after[k] == before[k])
    && (forall k :: k in writes ==>
          after[k] == AddVersion(if k in before then before[k] else {}, Value(tid, ts, k, writes[k])))
  }

  // ---- Steps of a shard ----

  /** GetPrepareTimestamp */
  function PrepareTimestamp(clock: Timestamp, client: nat, now: nat): Timestamp {
    Timestamp(if now < clock.time + 1 then clock.time + 1 else now, client)
  }

  /** The write locks of a transaction that is pending are free for nobody else. */
  ghost predicate LocksFree(s: Shard, writes: map<Key, string>) {
    forall tid :: tid in s.pending ==> s.pending[tid].writes.Keys !! writes.Keys
  }

  ghost predicate AtHome(c: Reader, shard: nat, writes: map<Key, string>) {
    forall k :: k in writes ==> k in c.home && c.home[k] == shard
  }

  /** A participant acquires its locks and takes a prepare timestamp. */
  ghost predicate Prepares(c: Reader, s: System, s': System, shard: nat, tid: nat, client: nat, now: nat, nonblock: Timestamp, writes: map<Key, string>) {
    && shard in s.shards && tid !in s.outcomes && tid != c.tid
    && var p := s.shards[shard];
       && tid !in p.pending && LocksFree(p, writes) && AtHome(c, shard, writes)
       && var ts := PrepareTimestamp(p.clock, client, now);
          s' == s.(shards := s.shards[shard := p.(clock := ts, pending := p.pending[tid := Pending(ts, nonblock, writes)])])
  }

  /**
   The coordinator acquires its own locks once every participant has prepared, and decides
   to commit at the latest of its start timestamp and all prepare timestamps.
   */
  ghost predicate DecidesCommit(c: Reader, s: System, s': System, shard: nat, tid: nat, client: nat, now: nat,
                                start: Timestamp, nonblock: Timestamp, writes: map<Key, string>, ts: Timestamp) {
    && shard in s.shards && tid !in s.outcomes && tid != c.tid
    && var p := s.shards[shard];
       && tid !in p.pending && LocksFree(p, writes) && AtHome(c, shard, writes)
       && var own := PrepareTimestamp(p.clock, client, now);
          && Leq(own, ts) && Leq(start, ts)
          && (forall q :: q in s.shards && tid in s.shards[q].pending ==> Leq(s.shards[q].pending[tid].prepareTs, ts))
          && (ts == own || ts == start ||
              exists q :: q in s.shards && tid in s.shards[q].pending && s.shards[q].pending[tid].prepareTs == ts)
          && s' == s.(
               shards := s.shards[shard := p.(clock := own, pending := p.pending[tid := Pending(ts, nonblock, writes)])],
               outcomes := s.outcomes[tid := Committed(ts)])
  }

  ghost predicate DecidesAbort(s: System, s': System, tid: nat) {
    tid !in s.outcomes && s' == s.(outcomes := s.outcomes[tid := Aborted])
  }

  /** CoordinatorCommitTransaction, ParticipantCommitTransaction, and aborts, on shard `p`. */
  ghost predicate Ended(p: Shard, tid: nat, o: Outcome, p': Shard)
    requires tid in p.pending
  {
    && p' == p.(clock := p'.clock, versions := p'.versions, pending := p.pending - {tid}, waiting := p.waiting - {tid})
    && match o
       case Aborted => p'.clock == p.clock && p'.versions == p.versions
       case Committed(ts) =>
         && p'.clock == (if p.pending[tid].writes == map[] then p.clock else Later(p.clock, ts))
         && Put(p.versions, p.pending[tid].writes, ts, tid, p'.versions)
  }

  /** The locks go, and readers that were told of the transaction are notified. */
  ghost predicate Finishes(c: Reader, s: System, s': System, shard: nat, tid: nat) {
    && shard in s.shards && tid in s.outcomes && tid in s.shards[shard].pending && shard in s'.shards
    && var p, o := s.shards[shard], s.outcomes[tid];
       && Ended(p, tid, o, s'.shards[shard])
       && s' == s.(
            shards := s.shards[shard := s'.shards[shard]],
            slow := s.slow + if p.phase == Answered && tid in p.skipped then {SlowReply(shard, tid, o)} else {})
  }

  /** Whether a pending transaction concerns the read at all. */
  ghost predicate Conflicts(c: Reader, shard: nat, p: Pending)
    requires c.Valid()
  {
    Leq(p.prepareTs, c.readTs) && p.writes.Keys * c.At(shard) != {}
  }

  /** Under RSS, a conflict may be skipped if it prepared after the reader's past and cannot have ended yet. */
  predicate Skippable(c: Reader, p: Pending) {
    c.rss && Less(c.minTs, p.prepareTs) && Less(c.readTs, p.nonblockTs)
  }

  /** HandleROCommit and StartRO on shard `p`: the clock passes the read, and its conflicts are found. */
  ghost predicate ReadStarts(c: Reader, shard: nat, p: Shard, p': Shard)
    requires c.Valid()
  {
    && (forall tid :: tid in p'.waiting <==> tid in p.pending && Conflicts(c, shard, p.pending[tid]) && !Skippable(c, p.pending[tid]))
    && (forall tid :: tid in p'.skipped <==> tid in p.pending && Conflicts(c, shard, p.pending[tid]) && Skippable(c, p.pending[tid]))
    && p' == p.(clock := Later(p.clock, c.readTs), phase := Waiting, waiting := p'.waiting, skipped := p'.skipped)
  }

  ghost predicate StartsRead(c: Reader, s: System, s': System, shard: nat)
    requires c.Valid()
  {
    && shard in s.shards && shard in c.Shards() && s.shards[shard].phase == Unseen && shard in s'.shards
    && ReadStarts(c, shard, s.shards[shard], s'.shards[shard])
    && s' == s.(shards := s.shards[shard := s'.shards[shard]])
  }

  /** GetROSkippedRWTransactions: the skipped transactions that are still pending, with their writes to the read keys. */
  ghost predicate Reports(c: Reader, shard: nat, p: Shard, ps: seq<Prepared>)
    requires c.Valid()
  {
    && (forall q :: q in ps ==> q.tid in p.skipped && q.tid in p.pending)
    && (forall tid :: tid in p.skipped && tid in p.pending ==>
          exists q :: q in ps && q.tid == tid)
    && (forall q :: q in ps ==>
          && q.prepareTs == p.pending[q.tid].prepareTs
          && q.writes.Keys == p.pending[q.tid].writes.Keys * c.At(shard)
          && forall k :: k in q.writes ==> q.writes[k] == p.pending[q.tid].writes[k])
  }

  /** The fast reply, once nothing is waited for: HandleROCommit or ContinueROCommit. */
  ghost predicate Answers(c: Reader, s: System, s': System, shard: nat)
    requires c.Valid()
  {
    && shard in s.shards && s.shards[shard].phase == Waiting && s.shards[shard].waiting == {} && shard in s'.fast
    && var p, reply := s.shards[shard], s'.fast[shard];
       && (forall v :: v in reply.values ==>
             v.key in c.At(shard) && Newest(VersionsOf(p, v.key), c.readTs, v))
       && (forall k :: k in c.At(shard) ==> exists v :: v in reply.values && v.key == k)
       && Reports(c, shard, p, reply.prepares)
       && s' == s.(shards := s.shards[shard := p.(phase := Answered)], fast := s.fast[shard := reply])
  }

  /** Another read-only transaction advances the clock. */
  ghost predicate OtherRead(s: System, s': System, shard: nat, ts: Timestamp) {
    && shard in s.shards
    && s' == s.(shards := s.shards[shard := s.shards[shard].(clock := Later(s.shards[shard].clock, ts))])
  }

  // ---- Steps of the client ----

  ghost predicate TakesFast(c: Reader, s: System, s': System, shard: nat) {
    && s.verdict == Wait && shard in s.fast
    && FastReceived(s.session, shard, s.fast[shard].values, s.fast[shard].prepares, s'.session)
    && s' == s.(session := s'.session, verdict := CheckCommit(c.rss, s'.session))
  }

  ghost predicate TakesSlow(c: Reader, s: System, s': System, m: SlowReply) {
    && s.verdict == Wait && m in s.slow
    && SlowReceived(s.session, m.tid, m.outcome.Committed?, if m.outcome.Committed? then m.outcome.ts else Timestamp(0, 0), s'.session)
    && s' == s.(session := s'.session,
                verdict := if m.tid in s.session.prepares then CheckCommit(c.rss, s'.session) else Wait)
  }

  // ---- Behaviours ----

  ghost predicate Init(c: Reader, s: System)
    requires c.Valid()
  {
    && c.Shards() <= s.shards.Keys
    && (forall q :: q in s.shards ==>
          && s.shards[q].clock == Timestamp(0, 0) && s.shards[q].pending == map[]
          && s.shards[q].phase == Unseen && s.shards[q].waiting == s.shards[q].skipped == {}
          && forall k :: k in s.shards[q].versions ==>
               k in c.home && c.home[k] == q &&
               forall v :: v in s.shards[q].versions[k] ==> v.tid == 0 && v.ts == Timestamp(0, 0) && v.key == k)
    && s.outcomes == map[] && s.fast == map[] && s.slow == {}
    && s.session == Session(c.Shards(), map[], map[], Timestamp(0, 0)) && s.verdict == Wait
  }

  datatype Step =
    | Prepare(shard: nat, tid: nat, client: nat, now: nat, nonblock: Timestamp, writes: map<Key, string>)
    | DecideCommit(shard: nat, tid: nat, client: nat, now: nat, start: Timestamp, nonblock: Timestamp, writes: map<Key, string>, ts: Timestamp)
    | DecideAbort(tid: nat)
    | Finish(shard: nat, tid: nat)
    | StartRead(shard: nat)
    | Answer(shard: nat)
    | OtherReads(shard: nat, ts: Timestamp)
    | TakeFast(shard: nat)
    | TakeSlow(m: SlowReply)

  ghost predicate Takes(c: Reader, s: System, s': System, step: Step)
    requires c.Valid()
  {
    match step
    case Prepare(shard, tid, client, now, nonblock, writes) => Prepares(c, s, s', shard, tid, client, now, nonblock, writes)
    case DecideCommit(shard, tid, client, now, start, nonblock, writes, ts) =>
      DecidesCommit(c, s, s', shard, tid, client, now, start, nonblock, writes, ts)
    case DecideAbort(tid) => DecidesAbort(s, s', tid)
    case Finish(shard, tid) => Finishes(c, s, s', shard, tid)
    case StartRead(shard) => StartsRead(c, s, s', shard)
    case Answer(shard) => Answers(c, s, s', shard)
    case OtherReads(shard, ts) => OtherRead(s, s', shard, ts)
    case TakeFast(shard) => TakesFast(c, s, s', shard)
    case TakeSlow(m) => TakesSlow(c, s, s', m)
  }

  ghost predicate Next(c: Reader, s: System, s': System)
    requires c.Valid()
  {
    exists step :: Takes(c, s, s', step)
  }

  ghost predicate Behaviour(c: Reader, b: seq<System>)
    requires c.Valid()
  {
    b != [] && Init(c, b[0]) && forall i :: 0 <= i < |b| - 1 ==> Next(c, b[i], b[i + 1])
  }
}
