/**
 Optimistic concurrency control (src/store/strongstore/occstore.cc) on values: what each
 operation does to the store and to the prepared transactions, and why every run is
 serializable in the order of its commits. `OccStore` has the two indexes and the loops.
 */
module OccRuns {
  import opened RssTypes

  datatype Version = Version(ts: Timestamp, val: string)
  datatype Transaction = Transaction(readSet: map<Key, Timestamp>, writeSet: map<Key, string>)
  datatype Occ = Occ(store: map<Key, Version>, prepared: map<nat, Transaction>)

  /** The prepared transactions that write `k`, and those that read or write it. */
  function Writers(prepared: map<nat, Transaction>, k: Key): set<nat> {
    set id | id in prepared && k in prepared[id].writeSet
  }

  function Users(prepared: map<nat, Transaction>, k: Key): set<nat> {
    set id | id in prepared && (k in prepared[id].writeSet || k in prepared[id].readSet)
  }

  /** A read is stale if the key has another version by now; a key without any version is not checked. */
  predicate Stale(store: map<Key, Version>, k: Key, ts: Timestamp) {
    k in store && store[k].ts != ts
  }

  ghost predicate Conflicts(o: Occ, t: Transaction) {
    || (exists k :: k in t.readSet && (Stale(o.store, k, t.readSet[k]) || Writers(o.prepared, k) != {}))
    || (exists k :: k in t.writeSet && Users(o.prepared, k) != {})
  }

  // ---- Operations ----

  /** Prepare: an identifier that is prepared stays as it is, whatever transaction comes with it. */
  ghost function Prepare(o: Occ, id: nat, t: Transaction): (r: (Occ, bool)) {
    if id in o.prepared then (o, true)
    else if Conflicts(o, t) then (o, false)
    else (o.(prepared := o.prepared[id := t]), true)
  }

  function Written(store: map<Key, Version>, writes: map<Key, string>, ts: Timestamp): map<Key, Version> {
    store + map k | k in writes :: Version(ts, writes[k])
  }

  /** Commit of a prepared transaction; the C++ code asserts that it is one. */
  function Commit(o: Occ, id: nat, ts: Timestamp): Occ
    requires id in o.prepared
  {
    Occ(Written(o.store, o.prepared[id].writeSet, ts), o.prepared - {id})
  }

  function Abort(o: Occ, id: nat): Occ {
    o.(prepared := o.prepared - {id})
  }

  // ---- What every state keeps ----

  /** No two prepared transactions conflict. */
  ghost predicate Compatible(prepared: map<nat, Transaction>) {
    forall i, j, k :: i in prepared && j in prepared && i != j && k in prepared[i].writeSet ==>
      k !in prepared[j].writeSet && k !in prepared[j].readSet
  }

  /** Whatever a transaction has read is still the current version. */
  ghost predicate Current(store: map<Key, Version>, t: Transaction) {
    forall k :: k in t.readSet ==> !Stale(store, k, t.readSet[k])
  }

  ghost predicate Sound(o: Occ) {
    Compatible(o.prepared) && forall id :: id in o.prepared ==> Current(o.store, o.prepared[id])
  }

  lemma PrepareSound(o: Occ, id: nat, t: Transaction)
    requires Sound(o)
    ensures Sound(Prepare(o, id, t).0)
  {
    var o' := Prepare(o, id, t).0;
    if o' != o {
      forall i, j, k | i in o'.prepared && j in o'.prepared && i != j && k in o'.prepared[i].writeSet
        ensures k !in o'.prepared[j].writeSet && k !in o'.prepared[j].readSet
      {
        if i == id {
          assert j !in Users(o.prepared, k);
        } else if j == id {
          assert i in Writers(o.prepared, k) && i in Users(o.prepared, k);
        }
      }
    }
  }

  /** Prepare refuses exactly what cannot be prepared beside the others: no transaction aborts without need. */
  lemma PrepareExactly(o: Occ, id: nat, t: Transaction)
    requires Sound(o) && id !in o.prepared
    ensures Prepare(o, id, t).1 <==> Sound(o.(prepared := o.prepared[id := t]))
  {
    var with := o.prepared[id := t];
    if Prepare(o, id, t).1 {
      PrepareSound(o, id, t);
    } else if k :| k in t.readSet && Stale(o.store, k, t.readSet[k]) {
      assert !Current(o.store, with[id]);
    } else if k :| k in t.readSet && Writers(o.prepared, k) != {} {
      var i :| i in Writers(o.prepared, k);
      assert i in with && id in with && k in with[i].writeSet && k in with[id].readSet;
    } else {
      var k :| k in t.writeSet && Users(o.prepared, k) != {};
      var i :| i in Users(o.prepared, k);
      assert i in with && id in with && k in with[id].writeSet;
    }
  }

  /** Whoever is told that a transaction is prepared finds it prepared, and nobody else does. */
  lemma PrepareAnswers(o: Occ, id: nat, t: Transaction)
    ensures var (o', ok) := Prepare(o, id, t);
      && (ok <==> id in o'.prepared)
      && (ok ==> o'.prepared[id] == if id in o.prepared then o.prepared[id] else t)
      && o'.store == o.store && o'.prepared - {id} == o.prepared - {id}
  {
    hide Conflicts;
  }

  /** What a commit installs, and what it leaves alone. */
  ghost predicate Installs(before: map<Key, Version>, writes: map<Key, string>, ts: Timestamp, after: map<Key, Version>) {
    forall k ::
      if k in writes then k in after && after[k] == Version(ts, writes[k])
      else (k in after <==> k in before) && (k in before ==> after[k] == before[k])
  }

  lemma CommitInstalls(o: Occ, id: nat, ts: Timestamp)
    requires id in o.prepared
    ensures var o' := Commit(o, id, ts);
      && Installs(o.store, o.prepared[id].writeSet, ts, o'.store)
      && id !in o'.prepared && o'.prepared == o.prepared - {id}
  {
  }

  lemma CommitSound(o: Occ, id: nat, ts: Timestamp)
    requires Sound(o) && id in o.prepared
    ensures Sound(Commit(o, id, ts))
  {
    var o' := Commit(o, id, ts);
    assert forall i :: i in o'.prepared ==> i in o.prepared && o'.prepared[i] == o.prepared[i];
    assert Compatible(o'.prepared);
    hide Compatible;
    forall i | i in o'.prepared ensures Current(o'.store, o'.prepared[i]) {
      CommitKeepsCurrent(o, id, ts, i);
    }
  }

  /** No other prepared transaction has read what a prepared one writes. */
  lemma CommitKeepsCurrent(o: Occ, id: nat, ts: Timestamp, i: nat)
    requires Sound(o) && id in o.prepared && i in o.prepared && i != id
    ensures Current(Commit(o, id, ts).store, o.prepared[i])
  {
    assert Current(o.store, o.prepared[i]);
  }

  // ---- Runs ----

  datatype Event = DoPrepare(id: nat, t: Transaction) | DoCommit(id: nat, ts: Timestamp) | DoAbort(id: nat)

  datatype Committed = Committed(t: Transaction, ts: Timestamp)

  /** A state and the transactions committed so far, in order. A commit of what is not prepared is an assertion failure, and stops. */
  datatype History = History(occ: Occ, commits: seq<Committed>)

  ghost function Step(h: History, e: Event): History {
    match e
    case DoPrepare(id, t) => h.(occ := Prepare(h.occ, id, t).0)
    case DoCommit(id, ts) =>
      if id in h.occ.prepared then History(Commit(h.occ, id, ts), h.commits + [Committed(h.occ.prepared[id], ts)]) else h
    case DoAbort(id) => h.(occ := Abort(h.occ, id))
  }

  ghost function Run(store: map<Key, Version>, events: seq<Event>): History {
    if events == [] then History(Occ(store, map[]), [])
    else Step(Run(store, events[..|events| - 1]), events[|events| - 1])
  }

  /** The committed transactions, one at a time. */
  function Replay(store: map<Key, Version>, commits: seq<Committed>): map<Key, Version> {
    if commits == [] then store
    else
      var n := |commits| - 1;
      Written(Replay(store, commits[..n]), commits[n].t.writeSet, commits[n].ts)
  }

  /** The store is what the commits made of it one at a time, and each found the versions it had read. */
  ghost predicate Serial(store: map<Key, Version>, h: History) {
    && Sound(h.occ)
    && h.occ.store == Replay(store, h.commits)
    && forall n :: 0 <= n < |h.commits| ==> Current(Replay(store, h.commits[..n]), h.commits[n].t)
  }

  lemma CommitSerial(store: map<Key, Version>, h: History, id: nat, ts: Timestamp)
    requires Serial(store, h) && id in h.occ.prepared
    ensures Serial(store, Step(h, DoCommit(id, ts)))
  {
    CommitSound(h.occ, id, ts);
    var t := h.occ.prepared[id];
    assert Current(h.occ.store, t);
    hide Sound, Current;
    var commits := h.commits + [Committed(t, ts)];
    assert commits[..|h.commits|] == h.commits;
    assert Replay(store, commits) == Written(h.occ.store, t.writeSet, ts);
    hide Written;
    forall n | 0 <= n < |commits| ensures Current(Replay(store, commits[..n]), commits[n].t) {
      if n < |h.commits| {
        assert commits[..n] == h.commits[..n] && commits[n] == h.commits[n];
      } else {
        assert commits[..n] == h.commits && commits[n].t == t;
      }
    }
  }

  lemma StepSerial(store: map<Key, Version>, h: History, e: Event)
    requires Serial(store, h)
    ensures Serial(store, Step(h, e))
  {
    match e
    case DoPrepare(id, t) => PrepareSound(h.occ, id, t); hide Sound, Current;
    case DoAbort(id) => hide Current;
    case DoCommit(id, ts) => hide Serial; if id in h.occ.prepared { CommitSerial(store, h, id, ts); }
  }

  lemma {:induction false} RunSerial(store: map<Key, Version>, events: seq<Event>)
    ensures Serial(store, Run(store, events))
    decreases |events|
  {
    if events != [] {
      RunSerial(store, events[..|events| - 1]);
      hide Serial;
      StepSerial(store, Run(store, events[..|events| - 1]), events[|events| - 1]);
    }
  }

  /** `v` is what the last of the commits that writes `k` has written, or the initial version if none does. */
  ghost predicate LastWritten(store: map<Key, Version>, commits: seq<Committed>, k: Key, v: Version) {
    || (exists n :: LastWriter(commits, k, n) && v == Version(commits[n].ts, commits[n].t.writeSet[k]))
    || (k in store && v == store[k] && forall n :: 0 <= n < |commits| ==> k !in commits[n].t.writeSet)
  }

  ghost predicate LastWriter(commits: seq<Committed>, k: Key, n: int) {
    0 <= n < |commits| && k in commits[n].t.writeSet && forall m :: n < m < |commits| ==> k !in commits[m].t.writeSet
  }

  lemma {:induction false} ReplayIsLastWritten(store: map<Key, Version>, commits: seq<Committed>, k: Key, v: Version)
    ensures LastWritten(store, commits, k, v) <==> k in Replay(store, commits) && Replay(store, commits)[k] == v
    decreases |commits|
  {
    if commits != [] {
      var last := |commits| - 1;
      ReplayIsLastWritten(store, commits[..last], k, v);
      LastWrittenMore(store, commits, k, v);
    }
  }

  lemma LastWrittenMore(store: map<Key, Version>, commits: seq<Committed>, k: Key, v: Version)
    requires commits != []
    ensures var last := commits[|commits| - 1];
      LastWritten(store, commits, k, v) <==>
        if k in last.t.writeSet then v == Version(last.ts, last.t.writeSet[k])
        else LastWritten(store, commits[..|commits| - 1], k, v)
  {
    var last := |commits| - 1;
    if k in commits[last].t.writeSet {
      assert LastWriter(commits, k, last);
    } else {
      assert forall n :: LastWriter(commits, k, n) ==> LastWriter(commits[..last], k, n);
      assert forall n :: LastWriter(commits[..last], k, n) ==> LastWriter(commits, k, n);
    }
  }

  /**
   Serializability: after any run the store holds of every key what the last commit that wrote it
   wrote, or the initial version; and each committed transaction, for every key it has read, had
   read the last version that was written before its own commit, where there is one.
   */
  lemma Serializable(store: map<Key, Version>, events: seq<Event>)
    ensures var h := Run(store, events);
      && (forall k, v :: LastWritten(store, h.commits, k, v) <==> k in h.occ.store && h.occ.store[k] == v)
      && (forall n, k, v :: 0 <= n < |h.commits| && k in h.commits[n].t.readSet && LastWritten(store, h.commits[..n], k, v) ==>
            v.ts == h.commits[n].t.readSet[k])
  {
    hide Run, LastWritten, Replay;
    RunSerial(store, events);
    var h := Run(store, events);
    forall k, v ensures LastWritten(store, h.commits, k, v) <==> k in h.occ.store && h.occ.store[k] == v {
      ReplayIsLastWritten(store, h.commits, k, v);
    }
    forall n, k, v | 0 <= n < |h.commits| && k in h.commits[n].t.readSet && LastWritten(store, h.commits[..n], k, v)
      ensures v.ts == h.commits[n].t.readSet[k]
    {
      ReplayIsLastWritten(store, h.commits[..n], k, v);
      assert Current(Replay(store, h.commits[..n]), h.commits[n].t);
    }
  }

  // ---- What is prepared, and what is committed ----

  /** The event that made `id` a prepared transaction, and nothing has ended it since. */
  ghost predicate PreparedBy(store: map<Key, Version>, events: seq<Event>, id: nat, t: Transaction, i: int) {
    && 0 <= i < |events| && events[i] == DoPrepare(id, t)
    && id !in Run(store, events[..i]).occ.prepared && !Conflicts(Run(store, events[..i]).occ, t)
    && forall j :: i < j < |events| ==> !Ends(events[j], id)
  }

  predicate Ends(e: Event, id: nat) {
    (e.DoCommit? && e.id == id) || (e.DoAbort? && e.id == id)
  }

  lemma PreparedByMore(store: map<Key, Version>, events: seq<Event>, id: nat, t: Transaction)
    requires events != []
    ensures var last, before := events[|events| - 1], events[..|events| - 1];
      (exists i :: PreparedBy(store, events, id, t, i)) <==>
        || (!Ends(last, id) && exists i :: PreparedBy(store, before, id, t, i))
        || (last == DoPrepare(id, t) && id !in Run(store, before).occ.prepared && !Conflicts(Run(store, before).occ, t))
  {
    hide Run, Conflicts;
    var last, before := |events| - 1, events[..|events| - 1];
    forall i | 0 <= i < last ensures before[..i] == events[..i] {}
    forall i | PreparedBy(store, events, id, t, i) && i < last
      ensures !Ends(events[last], id) && PreparedBy(store, before, id, t, i)
    {
      assert before[..i] == events[..i];
    }
    if !Ends(events[last], id) {
      forall i | PreparedBy(store, before, id, t, i) ensures PreparedBy(store, events, id, t, i) {
        assert before[..i] == events[..i];
      }
    }
    if events[last] == DoPrepare(id, t) && id !in Run(store, before).occ.prepared && !Conflicts(Run(store, before).occ, t) {
      assert PreparedBy(store, events, id, t, last);
    }
  }

  /**
   A transaction is prepared exactly from the Prepare that admitted it until the next Commit or Abort of its
   identifier.
   */
  lemma {:induction false} PreparedExactly(store: map<Key, Version>, events: seq<Event>, id: nat, t: Transaction)
    ensures var o := Run(store, events).occ;
      id in o.prepared && o.prepared[id] == t <==> exists i :: PreparedBy(store, events, id, t, i)
    decreases |events|
  {
    if events != [] {
      var last, before := events[|events| - 1], events[..|events| - 1];
      PreparedExactly(store, before, id, t);
      PreparedByMore(store, events, id, t);
      hide PreparedBy, Conflicts, Written;
    }
  }

  /** A commit on record is that of a transaction that was prepared, at the timestamp of the event. */
  ghost predicate CommittedBy(store: map<Key, Version>, events: seq<Event>, n: nat, x: Committed, j: int) {
    && 0 <= j < |events| && events[j].DoCommit? && events[j].ts == x.ts
    && var h := Run(store, events[..j]);
       |h.commits| == n && events[j].id in h.occ.prepared && h.occ.prepared[events[j].id] == x.t
  }

  /** The commits on record are the Commit events that found their transaction prepared, in order. */
  lemma {:induction false} CommitsExactly(store: map<Key, Version>, events: seq<Event>, n: nat, x: Committed)
    ensures var commits := Run(store, events).commits;
      n < |commits| && commits[n] == x <==> exists j :: CommittedBy(store, events, n, x, j)
    decreases |events|
  {
    if events != [] {
      var last, before := |events| - 1, events[..|events| - 1];
      CommitsExactly(store, before, n, x);
      assert forall j :: 0 <= j < last ==> before[..j] == events[..j];
      assert CommittedBy(store, events, n, x, last) || !CommittedBy(store, events, n, x, last);
      assert forall j :: 0 <= j < last ==> (CommittedBy(store, events, n, x, j) <==> CommittedBy(store, before, n, x, j));
      hide Written, Prepare;
    }
  }

  ghost predicate PreparedAt(store: map<Key, Version>, events: seq<Event>, i: nat, id: nat) {
    i <= |events| && id in Run(store, events[..i]).occ.prepared
  }

  /** As far as one prepared transaction and one key it has read go, `o'` is as `o`. */
  ghost predicate SameFor(o: Occ, o': Occ, id: nat, k: Key) {
    && id in o.prepared && id in o'.prepared && o'.prepared[id] == o.prepared[id]
    && (k in o'.store <==> k in o.store) && (k in o.store ==> o'.store[k] == o.store[k])
  }

  lemma StepKeepsRead(h: History, e: Event, id: nat, k: Key)
    requires Compatible(h.occ.prepared) && id in h.occ.prepared && k in h.occ.prepared[id].readSet
    requires id in Step(h, e).occ.prepared
    ensures SameFor(h.occ, Step(h, e).occ, id, k)
  {
    hide Conflicts;
  }

  /** While a transaction is prepared nothing that it has read changes, not even from absent to present. */
  lemma {:induction false} ReadsAreStable(store: map<Key, Version>, events: seq<Event>, t: nat, id: nat, k: Key)
    requires PreparedAt(store, events, t, id) && forall i :: t <= i <= |events| ==> PreparedAt(store, events, i, id)
    requires k in Run(store, events[..t]).occ.prepared[id].readSet
    ensures SameFor(Run(store, events[..t]).occ, Run(store, events).occ, id, k)
    decreases |events|
  {
    assert events[..|events|] == events;
    assert PreparedAt(store, events, |events|, id);
    if t < |events| {
      var before := events[..|events| - 1];
      forall i | t <= i <= |before| ensures PreparedAt(store, before, i, id) {
        assert PreparedAt(store, events, i, id) && before[..i] == events[..i];
      }
      assert before[..t] == events[..t];
      ReadsAreStable(store, before, t, id, k);
      RunSerial(store, before);
      StepKeepsRead(Run(store, before), events[|events| - 1], id, k);
    }
  }
}
