/**
 A replica as the object that the C++ code has (src/replication/vr/replica.cc): fields, a log,
 quorum sets, and handlers that change them with loops. Each handler is proved to do what is said
 of it by the function with its name in `VrReplica` or `VrTransfer`, and that function is what
 the theorems about runs speak of. What is sent is returned; `!ok` is a failed assertion or a Panic.
 */
module VrServer {
  import opened VrTypes
  import opened VrTable
  import opened VrReplica
  import opened QuorumSets
  import VrLog
  import VrProtocol
  import VrLogStore
  import opened VrTransfer

  function Senders(m: map<(nat, nat), map<nat, Message>>): map<(nat, nat), set<nat>> {
    map id | id in m :: m[id].Keys
  }

  function CommittedBy(m: map<nat, map<nat, Message>>): map<nat, map<nat, nat>>
    requires forall v :: v in m ==> forall k :: k in m[v] ==> m[v][k].StartViewChange?
  {
    map v | v in m :: CommittedIn(m[v])
  }

  lemma SendersAdd(m: map<(nat, nat), map<nat, Message>>, id: (nat, nat), votes: map<nat, Message>)
    ensures Senders(m[id := votes]) == Senders(m)[id := votes.Keys]
  {
  }

  lemma CommittedAdd(m: map<nat, map<nat, Message>>, id: nat, votes: map<nat, Message>)
    requires forall v :: v in m ==> forall k :: k in m[v] ==> m[v][k].StartViewChange?
    requires forall k :: k in votes ==> votes[k].StartViewChange?
    ensures CommittedBy(m[id := votes]) == CommittedBy(m)[id := CommittedIn(votes)]
  {
  }

  /** `ok`, what is sent and, unless an assertion has failed, the new state are what `o` says. */
  ghost predicate Refines(o: Outcome, ok: bool, r: Replica, sent: set<Message>) {
    (ok <==> o.Ok?) && sent == o.out && (ok ==> r == o.r)
  }

  lemma LeastIsUnique(x: nat, y: nat, s: set<nat>)
    requires IsLeast(x, s) && IsLeast(y, s)
    ensures x == y
  {
  }

  /** std::min_element over the collected messages, by last committed opnum. */
  method MinCommitted(votes: map<nat, Message>) returns (least: nat)
    requires votes != map[] && forall k :: k in votes ==> votes[k].StartViewChange? || votes[k].DoViewChange?
    ensures least == Least(CommittedIn(votes))
  {
    var first :| first in votes;
    least := votes[first].committed;
    var rest := votes.Keys - {first};
    ghost var committed := CommittedIn(votes);
    assert committed[first] in committed.Values;
    while rest != {}
      invariant rest <= votes.Keys
      invariant least in committed.Values
      invariant forall k :: k in votes && k !in rest ==> least <= votes[k].committed
    {
      var k :| k in rest;
      if votes[k].committed < least {
        least := votes[k].committed;
        assert committed[k] in committed.Values;
      }
      rest := rest - {k};
    }
    LeastIsUnique(least, Least(committed), committed.Values);
  }

  lemma NothingToInstall(r: Replica, op: nat, s: Suffix)
    requires s.entries == []
    ensures Installable(r, op, s) && Installed(r, op, s) == r.log
  {
  }

  /** What a new leader becomes does not depend on the messages it has collected, nor on the log it had. */
  lemma LeadForgets(c: Config, r: Replica, r': Replica, view: nat, log: Log, op: nat, upto: nat, from: nat)
    requires r' == r.(log := r'.log, svcVotes := r'.svcVotes)
    ensures var o, o' := LeadWith(c, r, view, log, op, upto, from), LeadWith(c, r', view, log, op, upto, from);
      o'.Ok? == o.Ok? && o'.out == o.out && (o.Ok? ==> o' == o)
  {
    var e, e' := EnterView(r.(log := log), view), EnterView(r'.(log := log), view);
    assert e == e';
  }

  lemma FromForgets(r: Replica, r': Replica, view: nat, votes: map<nat, Message>, junk: nat)
    requires r' == r.(log := r'.log)
    requires votes != map[] && forall k :: k in votes ==> votes[k].DoViewChange?
    ensures VrReplica.StartFrom(r', view, votes, junk) == VrReplica.StartFrom(r, view, votes, junk)
  {
    hide Least;
  }

  lemma StampedMore(v: nat, reqs: seq<Request>, i: nat, j: nat)
    requires i <= j < |reqs|
    ensures Stamped(v, reqs[i..j + 1]) == Stamped(v, reqs[i..j]) + [Entry(v, reqs[j])] && Stamped(v, reqs[i..i]) == []
  {
  }

  lemma Updates(t: Table, req: Request)
    ensures req.clientId in Update(t, req)
  {
  }

  lemma AnswersOver(t: Table, req: Request, result: string)
    ensures Update(t, req)[req.clientId := TableEntry(req.reqId, [Reply(0, 0, req.reqId, result)])] == Answered(t, req, result)
  {
  }

  /** One more request for the client table. */
  lemma UpdatesMore(t: Table, reqs: seq<Request>, i: nat, j: nat)
    requires i <= j < |reqs|
    ensures UpdateAll(t, reqs[i..j + 1]) == Update(UpdateAll(t, reqs[i..j]), reqs[j])
    ensures UpdatableAll(t, reqs[i..j + 1]) <==> UpdatableAll(t, reqs[i..j]) && Updatable(UpdateAll(t, reqs[i..j]), reqs[j])
    ensures UpdateAll(t, reqs[i..i]) == t && UpdatableAll(t, reqs[i..i])
  {
    assert reqs[i..j + 1][..j - i] == reqs[i..j];
  }

  /** What fails on a part fails on the whole. */
  lemma {:induction false} PartUpdatable(t: Table, reqs: seq<Request>, n: nat)
    requires n <= |reqs| && UpdatableAll(t, reqs)
    ensures UpdatableAll(t, reqs[..n])
    decreases |reqs|
  {
    if n == |reqs| {
      assert reqs[..n] == reqs;
    } else {
      PartUpdatable(t, reqs[..|reqs| - 1], n);
      assert reqs[..|reqs| - 1][..n] == reqs[..n];
    }
  }

  lemma NotUpdatable(t: Table, reqs: seq<Request>, i: nat, j: nat)
    requires i <= j < |reqs| && !UpdatableAll(t, reqs[i..j + 1])
    ensures !UpdatableAll(t, reqs[i..])
  {
    assert reqs[i..][..j + 1 - i] == reqs[i..j + 1];
    if UpdatableAll(t, reqs[i..]) { PartUpdatable(t, reqs[i..], j + 1 - i); }
  }

  lemma UpdatesNext(t: Table, log: Log, i: nat, j: nat)
    requires i <= j < |log|
    ensures var reqs := Requests(log[i..j]);
      && UpdateAll(t, Requests(log[i..j + 1])) == Update(UpdateAll(t, reqs), log[j].req)
      && (UpdatableAll(t, Requests(log[i..j + 1])) <==> UpdatableAll(t, reqs) && Updatable(UpdateAll(t, reqs), log[j].req))
      && UpdateAll(t, Requests(log[i..i])) == t && UpdatableAll(t, Requests(log[i..i]))
  {
    assert Requests(log[i..j + 1])[..j - i] == Requests(log[i..j]);
  }

  /** The client table `u` is `t` after the requests of the log at indices from `i` up to `n`. */
  ghost predicate Told(t: Table, u: Table, log: Log, i: nat, n: int) {
    if i < n then n <= |log| && UpdatableAll(t, Requests(log[i..n])) && u == UpdateAll(t, Requests(log[i..n])) else u == t
  }

  /** What is updatable is so up to some point and not beyond it. */
  lemma AcceptedIs(t: Table, reqs: seq<Request>, n: nat)
    requires n <= |reqs| && UpdatableAll(t, reqs[..n]) && (n < |reqs| ==> !UpdatableAll(t, reqs[..n + 1]))
    ensures Accepted(t, reqs) == n
  {
    var a := Accepted(t, reqs);
    hide UpdatableAll, Accepted;
    if a < n {
      assert reqs[..n][..a + 1] == reqs[..a + 1];
      PartUpdatable(t, reqs[..n], a + 1);
    } else if n < a {
      assert reqs[..a][..n + 1] == reqs[..n + 1];
      PartUpdatable(t, reqs[..a], n + 1);
    }
  }

  /** The requests of a part of the log. */
  lemma RequestsOf(log: Log, i: nat, j: nat, k: nat)
    requires i <= j <= k <= |log|
    ensures Requests(log[i..k])[..j - i] == Requests(log[i..j])
  {
  }

  /** The loop of SendPrepareOKs has come to opnum `i`: it is done, or the entry is missing, or its request is too old. */
  lemma AcksEnd(me: nat, r: Replica, oldLastOp: nat, i: nat, u: Table)
    requires i >= oldLastOp && Told(r.table, u, r.log, FirstNew(r, oldLastOp) - 1, i - 1)
    requires i > r.lastOp || (i >= FirstNew(r, oldLastOp) &&
      (i <= |r.log| ==> !UpdatableAll(r.table, Requests(r.log[FirstNew(r, oldLastOp) - 1..i]))))
    requires i > r.lastOp ==> i == r.lastOp + 1 || i == oldLastOp
    ensures VrReplica.SendPrepareOKs(me, r, oldLastOp) ==
      if i > r.lastOp then Ok(r.(table := u), PrepareOKs(me, r, oldLastOp, i))
      else Crash(r.(table := u), PrepareOKs(me, r, oldLastOp, i))
  {
    var start, reqs := FirstNew(r, oldLastOp) - 1, Unacknowledged(r, oldLastOp);
    NothingToUpdate(r.table);
    if start < i - 1 {
      AcksAccepted(r, oldLastOp, i);
    } else {
      NoneAccepted(r, oldLastOp, i);
    }
    hide UpdateAll, UpdatableAll, Requests, Accepted;
  }

  lemma NothingToUpdate(t: Table)
    ensures UpdateAll(t, []) == t && UpdatableAll(t, [])
  {
  }

  lemma AcksAccepted(r: Replica, oldLastOp: nat, i: nat)
    requires var start := FirstNew(r, oldLastOp) - 1;
      && start < i - 1 <= |r.log| && i - 1 <= r.lastOp && UpdatableAll(r.table, Requests(r.log[start..i - 1]))
      && (i <= r.lastOp && i <= |r.log| ==> !UpdatableAll(r.table, Requests(r.log[start..i])))
    ensures var reqs, n := Unacknowledged(r, oldLastOp), i - FirstNew(r, oldLastOp);
      Accepted(r.table, reqs) == n && reqs[..n] == Requests(r.log[FirstNew(r, oldLastOp) - 1..i - 1])
  {
    var start, end, n := FirstNew(r, oldLastOp) - 1, Min(r.lastOp, |r.log|), i - FirstNew(r, oldLastOp);
    var reqs := Unacknowledged(r, oldLastOp);
    hide UpdateAll, UpdatableAll, Accepted;
    RequestsOf(r.log, start, i - 1, end);
    if n < |reqs| { RequestsOf(r.log, start, i, end); }
    AcceptedIs(r.table, reqs, n);
  }

  lemma NoneAccepted(r: Replica, oldLastOp: nat, i: nat)
    requires var start := FirstNew(r, oldLastOp) - 1;
      && start >= i - 1 && i >= oldLastOp
      && (i > r.lastOp || (i == FirstNew(r, oldLastOp) && (i <= |r.log| ==> !UpdatableAll(r.table, Requests(r.log[start..i])))))
    ensures Accepted(r.table, Unacknowledged(r, oldLastOp)) == 0
  {
    var start, end, reqs := FirstNew(r, oldLastOp) - 1, Min(r.lastOp, |r.log|), Unacknowledged(r, oldLastOp);
    NothingToUpdate(r.table);
    hide UpdateAll, UpdatableAll, Accepted;
    if reqs != [] { RequestsOf(r.log, start, start + 1, end); }
    AcceptedIs(r.table, reqs, 0);
  }

  class Server {
    const c: Config
    const me: nat
    var view: nat
    var normal: bool
    var lastOp: nat
    var lastCommitted: nat
    var lastBatchEnd: nat
    var executed: seq<Request>
    var clientTable: Table
    const log: VrLogStore.LogStore
    const prepareOKQuorum: QuorumSet<(nat, nat), Message>
    const startViewChangeQuorum: QuorumSet<nat, Message>
    const doViewChangeQuorum: QuorumSet<nat, Message>

    ghost predicate QuorumsValid()
      reads prepareOKQuorum, startViewChangeQuorum, doViewChangeQuorum
    {
      && startViewChangeQuorum != doViewChangeQuorum
      && prepareOKQuorum.numRequired == startViewChangeQuorum.numRequired == doViewChangeQuorum.numRequired == c.f
      && (forall v :: v in startViewChangeQuorum.messages ==>
            forall k :: k in startViewChangeQuorum.messages[v] ==> startViewChangeQuorum.messages[v][k].StartViewChange?)
      && (forall v :: v in doViewChangeQuorum.messages ==>
            forall k :: k in doViewChangeQuorum.messages[v] ==> doViewChangeQuorum.messages[v][k].DoViewChange? && k < c.N())
    }

    ghost predicate Valid()
      reads this, log, prepareOKQuorum, startViewChangeQuorum, doViewChangeQuorum
    {
      log.Valid() && log.Pending(lastCommitted) && QuorumsValid()
    }

    ghost function CollectedOks(): map<(nat, nat), set<nat>>
      reads prepareOKQuorum
    {
      Senders(prepareOKQuorum.messages)
    }

    ghost function CollectedSvcs(): map<nat, map<nat, nat>>
      requires QuorumsValid()
      reads prepareOKQuorum, startViewChangeQuorum, doViewChangeQuorum
    {
      CommittedBy(startViewChangeQuorum.messages)
    }

    ghost function State(): Replica
      requires Valid()
      reads this, log, prepareOKQuorum, startViewChangeQuorum, doViewChangeQuorum
    {
      Replica(view, normal, log.Contents(), lastOp, lastCommitted, lastBatchEnd, executed, clientTable,
              CollectedOks(), CollectedSvcs(), doViewChangeQuorum.messages)
    }

    constructor (c: Config, me: nat)
      ensures this.c == c && this.me == me
      ensures Valid() && State() == FRESH
      ensures fresh(log) && fresh(prepareOKQuorum) && fresh(startViewChangeQuorum) && fresh(doViewChangeQuorum)
    {
      this.c, this.me := c, me;
      view, normal, lastOp, lastCommitted, lastBatchEnd, executed, clientTable := 0, true, 0, 0, 0, [], map[];
      log := new VrLogStore.LogStore();
      prepareOKQuorum := new QuorumSet(c.f);
      startViewChangeQuorum := new QuorumSet(c.f);
      doViewChangeQuorum := new QuorumSet(c.f);
    }

    function AmLeader(): bool
      reads this
    {
      c.Leader(view) == me
    }

    /** Executes the entries of the log, one by one, until `upto` is committed, and keeps the replies. */
    method CommitUpTo(upto: nat) returns (ok: bool)
      requires Valid()
      modifies this`lastCommitted, this`executed, this`clientTable, log
      ensures Valid() && log.Contents() == old(log.Contents())
      ensures ok <==> upto <= old(lastCommitted) || upto <= |log.Contents()|
      ensures ok ==> State() == VrReplica.CommitUpTo(c, old(State()), upto)
    {
      hide QuorumsValid, CollectedOks, CollectedSvcs, VrLogStore.LogStore.Contents, VrLogStore.LogStore.Valid, Recorded;
      ghost var entries, from, done := log.Contents(), lastCommitted, [];
      while lastCommitted < upto
        invariant Valid() && log.Contents() == entries && from <= lastCommitted <= |entries| + from
        invariant lastCommitted <= upto || lastCommitted == from
        invariant executed == old(executed) + done && |done| == lastCommitted - from
        invariant lastCommitted == from || lastCommitted <= |entries|
        invariant forall j :: 0 <= j < |done| ==> done[j] == entries[from + j].req
        invariant clientTable == if lastCommitted == from then old(clientTable)
                                 else RecordedAll(old(clientTable), entries, from, lastCommitted, c.app)
        decreases upto - lastCommitted
      {
        lastCommitted := lastCommitted + 1;
        var entry := log.Find(lastCommitted);
        if entry.Nowhere? { return false; }
        executed := executed + [entry.slot.req];
        done := done + [entry.slot.req];
        var _ := log.SetStatus(lastCommitted);
        KeepReply(entry.slot.view, lastCommitted, entry.slot.req, entries);
      }
      assert from < upto ==> done == Requests(entries[from..upto]);
      ok := true;
    }

    /** Stores the reply to an executed request, unless a newer request of the client is known. */
    method KeepReply(v: nat, opnum: nat, req: Request, ghost entries: Log)
      requires 1 <= opnum <= |entries| && entries[opnum - 1] == Entry(v, req)
      modifies this`clientTable
      ensures clientTable == Recorded(old(clientTable), entries, opnum - 1, c.app)
    {
      var reply := Reply(v, opnum, req.reqId, c.app(opnum, req));
      var cte := Known(clientTable, req.clientId);
      if cte.lastReqId <= req.reqId { cte := TableEntry(req.reqId, [reply]); }
      clientTable := clientTable[req.clientId := cte];
    }

    /** `!ok` is the assertion that the request is not older than the last one of its client. */
    method UpdateClientTable(req: Request) returns (ok: bool)
      modifies this`clientTable
      ensures ok <==> Updatable(old(clientTable), req)
      ensures clientTable == if ok then Update(old(clientTable), req) else old(clientTable)
    {
      var entry := Known(clientTable, req.clientId);
      clientTable := clientTable[req.clientId := entry];
      if !(entry.lastReqId <= req.reqId) { return false; }
      if entry.lastReqId == req.reqId { return true; }
      clientTable := clientTable[req.clientId := TableEntry(req.reqId, [])];
      ok := true;
    }

    /** Sends the entries of the log that no Prepare has carried yet. */
    method CloseBatch() returns (ok: bool, sent: set<Message>)
      requires Valid()
      modifies this`lastBatchEnd
      ensures Valid()
      ensures Refines(VrReplica.CloseBatch(old(State())), ok, State(), sent)
    {
      hide QuorumsValid, CollectedOks, CollectedSvcs, VrLogStore.LogStore.Contents, VrLogStore.LogStore.Valid, VrLogStore.LogStore.Pending;
      if lastBatchEnd >= lastOp { return false, {}; }
      var batchStart := lastBatchEnd + 1;
      ghost var entries := log.Contents();
      var i, reqs := batchStart, [];
      while i <= lastOp
        invariant batchStart <= i <= lastOp + 1 && lastBatchEnd + 1 == batchStart && (i == batchStart || i <= |entries| + 1)
        invariant |reqs| == i - batchStart
        invariant forall j :: 0 <= j < |reqs| ==> reqs[j] == entries[batchStart - 1 + j].req
        invariant forall j :: batchStart - 1 <= j < i - 1 ==> entries[j].view == view
        decreases lastOp + 1 - i
      {
        var entry := log.Find(i);
        if entry.Nowhere? || entry.slot.view != view { return false, {}; }
        reqs := reqs + [entry.slot.req];
        i := i + 1;
      }
      assert reqs == Requests(entries[lastBatchEnd..lastOp]);
      sent := {Prepare(view, lastOp, batchStart, reqs)};
      lastBatchEnd := lastOp;
      ok := true;
    }

    /** `up` is what the application makes of the request; it is asked only about new ones. */
    method HandleRequest(req: Request, up: Upcall) returns (ok: bool, sent: set<Message>, replies: seq<Reply>)
      requires Valid()
      modifies this, log
      ensures Valid() && Refines(VrReplica.HandleRequest(c, me, old(State()), req, up), ok, State(), sent)
      ensures replies == if old(normal && AmLeader()) then SentAtOnce(old(clientTable), req, up) else []
    {
      hide QuorumsValid, CollectedOks, CollectedSvcs, VrLogStore.LogStore.Contents, VrLogStore.LogStore.Valid, VrLogStore.LogStore.Pending, Update;
      if !normal || !AmLeader() { return true, {}, []; }
      if req.clientId in clientTable {
        var entry := clientTable[req.clientId];
        if req.reqId < entry.lastReqId { return true, {}, []; }
        if req.reqId == entry.lastReqId {
          if entry.Replied() { return true, {}, entry.reply; }
          return true, {}, [];
        }
      }
      ok := UpdateClientTable(req);
      assert ok;
      match up
      case Answer(result) =>
        var reply := Reply(0, 0, req.reqId, result);
        assert req.clientId in clientTable by { Updates(old(clientTable), req); }
        clientTable := clientTable[req.clientId := TableEntry(req.reqId, [reply])];
        AnswersOver(old(clientTable), req, result);
        sent, replies := {}, [reply];
      case Replicate(op) =>
        replies := [];
        ok, sent := AppendRequest(req.(op := op));
    }

    /** Gives the operation the next opnum, and closes the batch if it is full. */
    method AppendRequest(req: Request) returns (ok: bool, sent: set<Message>)
      requires Valid() && normal && AmLeader()
      modifies this, log
      ensures Valid()
      ensures var r := old(State());
        var r1 := r.(lastOp := r.lastOp + 1, log := r.log + [Entry(r.view, req)]);
        Refines(if r.lastOp != |r.log| then Crash(r, {})
                else if (r1.lastOp - r1.batchEnd + 1) % OPNUMS > c.batchSize then VrReplica.CloseBatch(r1)
                else Ok(r1, {}), ok, State(), sent)
    {
      hide QuorumsValid, CollectedOks, CollectedSvcs, VrLogStore.LogStore.Contents, VrLogStore.LogStore.Valid, VrLogStore.LogStore.Pending;
      lastOp := lastOp + 1;
      ok := log.Append(view, lastOp, req);
      if !ok { return false, {}; }
      if (lastOp - lastBatchEnd + 1) % OPNUMS > c.batchSize {
        ok, sent := CloseBatch();
      } else {
        sent := {};
      }
    }

    method HandlePrepare(m: Message) returns (ok: bool, sent: set<Message>)
      requires Valid() && m.Prepare?
      modifies this, log
      ensures Valid() && Refines(VrReplica.HandlePrepare(c, me, old(State()), m), ok, State(), sent)
    {
      hide QuorumsValid, CollectedOks, CollectedSvcs, VrLogStore.LogStore.Contents, VrLogStore.LogStore.Valid, VrLogStore.LogStore.Pending;
      if !normal || m.view != view { return true, {}; }
      if AmLeader() { return false, {}; }
      if m.batchStart > m.opnum || m.opnum - m.batchStart + 1 != |m.reqs| { return false, {}; }
      if m.opnum <= lastOp { return true, {PrepareOK(m.view, m.opnum, me)}; }
      if m.batchStart > lastOp + 1 { return true, {}; }
      ok := AppendNew(m.view, m.batchStart, m.reqs);
      sent := if ok then {PrepareOK(m.view, m.opnum, me)} else {};
    }

    /** Appends the requests of a batch that starts at opnum `batchStart`, but for those the log has. */
    method AppendNew(v: nat, batchStart: nat, reqs: seq<Request>) returns (ok: bool)
      requires Valid() && batchStart <= lastOp + 1 <= batchStart + |reqs| - 1
      modifies this`lastOp, this`clientTable, log
      ensures Valid()
      ensures var added := reqs[old(lastOp) + 1 - batchStart..];
        && (ok <==> old(lastOp) == |old(log.Contents())| && UpdatableAll(old(clientTable), added))
        && (ok ==> lastOp == batchStart + |reqs| - 1)
        && (ok ==> log.Contents() == old(log.Contents()) + Stamped(v, added))
        && (ok ==> clientTable == UpdateAll(old(clientTable), added))
    {
      hide QuorumsValid, CollectedOks, CollectedSvcs, VrLogStore.LogStore.Contents, VrLogStore.LogStore.Valid, VrLogStore.LogStore.Pending;
      hide Update, Updatable, UpdateAll, UpdatableAll, Stamped;
      ghost var entries, last, start := log.Contents(), lastOp, lastOp + 1 - batchStart;
      var op, j := batchStart - 1, 0;
      while j < |reqs|
        invariant Valid() && 0 <= j <= |reqs| && op == batchStart - 1 + j
        invariant lastOp == if op <= last then last else op
        invariant op > last ==> last == |entries|
        invariant log.Contents() == entries + if op <= last then [] else Stamped(v, reqs[start..j])
        invariant op <= last ==> clientTable == old(clientTable)
        invariant op > last ==> UpdatableAll(old(clientTable), reqs[start..j]) && clientTable == UpdateAll(old(clientTable), reqs[start..j])
      {
        op := op + 1;
        if op > lastOp {
          StampedMore(v, reqs, start, j);
          UpdatesMore(old(clientTable), reqs, start, j);
          ok := AppendOne(v, op, reqs[j]);
          if !ok {
            if last == |entries| { NotUpdatable(old(clientTable), reqs, start, j); }
            return;
          }
        }
        j := j + 1;
      }
      assert reqs[start..|reqs|] == reqs[start..];
      ok := true;
    }

    method AppendOne(v: nat, op: nat, req: Request) returns (ok: bool)
      requires Valid() && op == lastOp + 1
      modifies this`lastOp, this`clientTable, log
      ensures Valid()
      ensures ok <==> old(lastOp) == |old(log.Contents())| && Updatable(old(clientTable), req)
      ensures ok ==> lastOp == op && log.Contents() == old(log.Contents()) + [Entry(v, req)]
      ensures ok ==> clientTable == Update(old(clientTable), req)
    {
      hide QuorumsValid, CollectedOks, CollectedSvcs, VrLogStore.LogStore.Contents, VrLogStore.LogStore.Valid, VrLogStore.LogStore.Pending;
      hide Update, Updatable;
      lastOp := lastOp + 1;
      ok := log.Append(v, op, req);
      if !ok { return; }
      ok := UpdateClientTable(req);
    }

    method CollectPrepareOK(m: Message) returns (quorum: Quorum<Message>)
      requires Valid() && m.PrepareOK?
      modifies prepareOKQuorum
      ensures Valid()
      ensures var votes := Acks(old(State()), m);
        && State() == old(State()).(okVotes := old(State()).okVotes[(m.view, m.opnum) := votes])
        && (quorum.Messages? <==> |votes| >= c.f)
        && (quorum.Messages? ==> |quorum.votes| == |votes|)
    {
      hide VrLogStore.LogStore.Contents, VrLogStore.LogStore.Valid, VrLogStore.LogStore.Pending;
      var vs := (m.view, m.opnum);
      ghost var votes := Of(prepareOKQuorum.messages, vs)[m.from := m];
      SendersAdd(prepareOKQuorum.messages, vs, votes);
      assert votes.Keys == Acks(State(), m) && |votes| == |votes.Keys|;
      quorum := prepareOKQuorum.AddAndCheckForQuorum(vs, m.from, m);
    }

    method HandlePrepareOK(m: Message) returns (ok: bool, sent: set<Message>)
      requires Valid() && m.PrepareOK?
      modifies this, log, prepareOKQuorum
      ensures Valid() && Refines(VrReplica.HandlePrepareOK(c, me, old(State()), m), ok, State(), sent)
    {
      hide QuorumsValid, CollectedOks, CollectedSvcs, VrLogStore.LogStore.Contents, VrLogStore.LogStore.Valid, VrLogStore.LogStore.Pending;
      hide Acks;
      if !normal || m.view != view || !AmLeader() { return true, {}; }
      var quorum := CollectPrepareOK(m);
      if quorum.NoQuorum? { return true, {}; }
      ok := CommitUpTo(m.opnum);
      if !ok || |quorum.votes| >= c.f + 1 { return ok, {}; }
      sent := {Commit(view, lastCommitted)};
    }

    method HandleCommit(m: Message) returns (ok: bool, sent: set<Message>)
      requires Valid() && m.Commit?
      modifies this, log
      ensures Valid() && Refines(VrReplica.HandleCommit(c, me, old(State()), m), ok, State(), sent)
    {
      hide QuorumsValid, CollectedOks, CollectedSvcs, VrLogStore.LogStore.Contents, VrLogStore.LogStore.Valid, VrLogStore.LogStore.Pending;
      sent := {};
      if !normal || m.view != view { return true, {}; }
      if AmLeader() { return false, {}; }
      if m.opnum <= lastCommitted || m.opnum > lastOp { return true, {}; }
      ok := CommitUpTo(m.opnum);
    }

    method SendNullCommit() returns (sent: set<Message>)
      requires Valid() && normal && AmLeader()
      ensures VrReplica.SendNullCommit(c, me, State()) == Ok(State(), sent)
    {
      sent := {Commit(view, lastCommitted)};
    }

    method StartViewChange(newview: nat) returns (sent: set<Message>)
      requires Valid()
      modifies this`view, this`normal
      ensures Valid() && State() == BeginViewChange(me, old(State()), newview)
      ensures sent == {VrTypes.StartViewChange(newview, me, lastCommitted)}
    {
      view := newview;
      normal := false;
      sent := {VrTypes.StartViewChange(newview, me, lastCommitted)};
    }

    /** A stale message, or one for the view the replica is in. */
    predicate Ignores(v: nat)
      reads this
    {
      v < view || (v == view && normal)
    }

    method HandleTimeout() returns (sent: set<Message>)
      requires Valid() && !(normal && AmLeader())
      modifies this
      ensures Valid() && VrReplica.HandleTimeout(c, me, old(State())) == Ok(State(), sent)
    {
      sent := StartViewChange(view + 1);
    }

    /** Joins the change to view `v`, unless the replica already has. */
    method Join(v: nat) returns (sent: set<Message>)
      requires Valid() && !Ignores(v)
      modifies this`view, this`normal
      ensures Valid() && view == v && !normal && unchanged(log) && unchanged(this`lastCommitted)
      ensures var r, begins := old(State()), old(normal || v > view);
        && State() == (if begins then BeginViewChange(me, r, v) else r)
        && sent == (if begins then {VrTypes.StartViewChange(v, me, r.committed)} else {})
    {
      sent := {};
      if normal || v > view { sent := StartViewChange(v); }
    }

    method CollectStartViewChange(m: Message) returns (quorum: Quorum<Message>)
      requires Valid() && m.StartViewChange?
      modifies startViewChangeQuorum
      ensures Valid()
      ensures var votes := VrReplica.SvcVotes(old(State()), m);
        && State() == old(State()).(svcVotes := old(State()).svcVotes[m.view := votes])
        && (quorum.Messages? <==> |votes| >= c.f)
        && (quorum.Messages? ==>
              (forall k :: k in quorum.votes ==> quorum.votes[k].StartViewChange?) && CommittedIn(quorum.votes) == votes)
    {
      hide VrLogStore.LogStore.Contents, VrLogStore.LogStore.Valid, VrLogStore.LogStore.Pending;
      ghost var votes := Of(startViewChangeQuorum.messages, m.view)[m.from := m];
      CommittedAdd(startViewChangeQuorum.messages, m.view, votes);
      assert CommittedIn(votes) == VrReplica.SvcVotes(State(), m);
      assert |CommittedIn(votes)| == |CommittedIn(votes).Keys| == |votes.Keys| == |votes|;
      quorum := startViewChangeQuorum.AddAndCheckForQuorum(m.view, m.from, m);
    }

    /** Sends the log, from the least opnum that anybody has committed, to the leader of the view. */
    method OfferLog(votes: map<nat, Message>) returns (sent: set<Message>)
      requires Valid() && votes != map[] && forall k :: k in votes ==> votes[k].StartViewChange?
      ensures |CommittedIn(votes)| >= c.f ==> sent == VrReplica.OfferLog(c, me, State(), view, CommittedIn(votes))
    {
      hide QuorumsValid, CollectedOks, CollectedSvcs, VrLogStore.LogStore.Contents, VrLogStore.LogStore.Valid;
      hide LastView, VrLog.Dump, CommittedIn;
      if c.Leader(view) == me { return {}; }
      var minCommitted := MinCommitted(votes);
      var entries := log.Dump(Min(minCommitted, lastCommitted));
      sent := {DoViewChange(view, log.LastViewstampView(), lastOp, lastCommitted, me, entries)};
    }

    /** Collects the message and, with enough of them, offers the log. */
    method Answer(m: Message) returns (sent: set<Message>)
      requires Valid() && m.StartViewChange? && m.view == view
      modifies startViewChangeQuorum
      ensures Valid()
      ensures var r, votes := old(State()), VrReplica.SvcVotes(old(State()), m);
        && State() == r.(svcVotes := r.svcVotes[m.view := votes])
        && sent == VrReplica.OfferLog(c, me, r, m.view, votes)
    {
      hide QuorumsValid, CollectedOks, CollectedSvcs, VrLogStore.LogStore.Contents, VrLogStore.LogStore.Valid, VrLogStore.LogStore.Pending;
      var quorum := CollectStartViewChange(m);
      if quorum.NoQuorum? { return {}; }
      hide VrReplica.SvcVotes, CommittedIn, LastView, VrLog.Dump, Least;
      sent := OfferLog(quorum.votes);
    }

    method HandleStartViewChange(m: Message) returns (ok: bool, sent: set<Message>)
      requires Valid() && m.StartViewChange?
      modifies this, startViewChangeQuorum
      ensures Valid() && Refines(VrReplica.HandleStartViewChange(c, me, old(State()), m), ok, State(), sent)
    {
      hide QuorumsValid, CollectedOks, CollectedSvcs, VrLogStore.LogStore.Contents, VrLogStore.LogStore.Valid, VrLogStore.LogStore.Pending;
      if Ignores(m.view) { return true, {}; }
      hide VrReplica.OfferLog;
      var joined := Join(m.view);
      var offer := Answer(m);
      ok, sent := true, joined + offer;
    }

    method CollectDoViewChange(m: Message) returns (quorum: Quorum<Message>)
      requires Valid() && m.DoViewChange? && m.from < c.N()
      modifies doViewChangeQuorum
      ensures Valid()
      ensures var votes := DvcVotes(old(State()), m);
        && State() == old(State()).(dvcVotes := old(State()).dvcVotes[m.view := votes])
        && (quorum.Messages? <==> |votes| >= c.f)
        && (quorum.Messages? ==> quorum.votes == votes)
    {
      hide VrLogStore.LogStore.Contents, VrLogStore.LogStore.Valid, VrLogStore.LogStore.Pending;
      quorum := doViewChangeQuorum.AddAndCheckForQuorum(m.view, m.from, m);
    }

    /** The vote with the latest viewstamp, unless the own log is at least as new; the map is traversed in key order. */
    method SelectLatest(votes: map<nat, Message>) returns (best: Choice, latestOp: nat)
      requires log.Valid() && forall k :: k in votes ==> votes[k].DoViewChange? && k < c.N()
      ensures best == Latest(votes, c.N(), log.Contents())
      ensures latestOp == match best { case Own => |log.Contents()| case Theirs(b) => b.lastOp }
      ensures best.Theirs? ==> best.m.DoViewChange?
    {
      hide VrLogStore.LogStore.Contents, VrLogStore.LogStore.Valid;
      var latestView := log.LastViewstampView();
      latestOp := log.LastOpnum();
      best := Own;
      for k := 0 to c.N()
        invariant best == Latest(votes, k, log.Contents())
        invariant best.Own? ==> latestView == LastView(log.Contents()) && latestOp == |log.Contents()|
        invariant best.Theirs? ==> best.m.DoViewChange? && latestView == best.m.lastNormal && latestOp == best.m.lastOp
      {
        if k in votes {
          var x := votes[k];
          if x.lastNormal > latestView || (x.lastNormal == latestView && x.lastOp > latestOp) {
            latestView, latestOp, best := x.lastNormal, x.lastOp, Theirs(x);
          }
        }
      }
    }

    method EnterView(newview: nat)
      requires Valid()
      modifies this`view, this`normal, this`lastBatchEnd, prepareOKQuorum, startViewChangeQuorum, doViewChangeQuorum
      ensures Valid() && State() == VrReplica.EnterView(old(State()), newview)
    {
      hide VrLogStore.LogStore.Contents, VrLogStore.LogStore.Valid, VrLogStore.LogStore.Pending;
      view, normal, lastBatchEnd := newview, true, lastOp;
      prepareOKQuorum.Clear();
      startViewChangeQuorum.Clear();
      doViewChangeQuorum.Clear();
    }

    /** Truncates the log to the sender's last opnum and installs what the sender sent. */
    method InstallLog(op: nat, s: Suffix) returns (ok: bool)
      requires Valid() && s.entries != []
      modifies log
      ensures Valid()
      ensures ok <==> Installable(old(State()), op, s)
      ensures ok ==> State() == old(State()).(log := Installed(old(State()), op, s))
    {
      hide QuorumsValid, CollectedOks, CollectedSvcs, VrLogStore.LogStore.Contents, VrLogStore.LogStore.Valid, VrLogStore.LogStore.Pending;
      hide VrLog.Install;
      if s.first > lastCommitted + 1 { return false; }
      ok := log.RemoveAfter(op + 1);
      ok := log.Install(s);
    }

    /** Where the entries of the StartView message begin; `junk` is what the C++ code reads when it has no messages. */
    method StartFrom(votes: map<nat, Message>, junk: nat) returns (from: nat)
      requires Valid() && votes != map[] && forall k :: k in votes ==> votes[k].DoViewChange?
      modifies startViewChangeQuorum
      ensures Valid()
      ensures State() == old(State()).(svcVotes := State().svcVotes)
      ensures from == VrReplica.StartFrom(old(State()), view, votes, junk)
    {
      hide VrLogStore.LogStore.Contents, VrLogStore.LogStore.Valid, VrLogStore.LogStore.Pending, Least;
      ghost var r := State();
      var svcs := startViewChangeQuorum.GetMessages(view);
      assert view in r.svcVotes ==> r.svcVotes[view] == CommittedIn(svcs);
      var minSvc := junk;
      if svcs != map[] {
        minSvc := MinCommitted(svcs);
        assert CommittedIn(svcs) != map[] by { assert CommittedIn(svcs).Keys == svcs.Keys; }
      }
      var minDvc := MinCommitted(votes);
      from := Min(Min(minSvc, minDvc), lastCommitted);
    }

    /** Enters the view with the log as it is now, commits what the log's sender had, and announces the view. */
    method Lead(latestOp: nat, upto: nat, from: nat) returns (ok: bool, sent: set<Message>)
      requires Valid()
      modifies this, log, prepareOKQuorum, startViewChangeQuorum, doViewChangeQuorum
      ensures Valid()
      ensures Refines(LeadWith(c, old(State()), old(view), old(log.Contents()), latestOp, upto, from), ok, State(), sent)
    {
      hide QuorumsValid, CollectedOks, CollectedSvcs, VrLogStore.LogStore.Contents, VrLogStore.LogStore.Valid, VrLogStore.LogStore.Pending;
      hide VrLog.Dump;
      EnterView(view);
      lastOp := latestOp;
      ok := CommitUpTo(upto);
      if !ok { return false, {}; }
      var entries := log.Dump(from);
      sent := {StartView(view, lastOp, lastCommitted, entries)};
    }

    /** What a quorum of DoViewChange messages sets off. */
    method BecomeLeader(m: Message, votes: map<nat, Message>, junk: nat) returns (ok: bool, sent: set<Message>)
      requires Valid() && m.DoViewChange? && m.view == view && votes != map[]
      requires forall k :: k in votes ==> votes[k].DoViewChange? && k < c.N()
      modifies this, log, prepareOKQuorum, startViewChangeQuorum, doViewChangeQuorum
      ensures Valid() && Refines(VrReplica.BecomeLeader(c, old(State()), m, votes, junk), ok, State(), sent)
    {
      hide QuorumsValid, CollectedOks, CollectedSvcs, VrLogStore.LogStore.Contents, VrLogStore.LogStore.Valid, VrLogStore.LogStore.Pending;
      hide Latest, VrReplica.StartFrom, LeadWith, Installed, Installable;
      ghost var r := State();
      sent := {};
      var best, latestOp := SelectLatest(votes);
      var upto := 0;
      if best.Theirs? {
        var suffix := best.m.suffix;
        if suffix.entries == [] {
          if !(lastCommitted == m.committed && m.lastOp == m.committed) { return false, {}; }
          NothingToInstall(r, latestOp, suffix);
        } else {
          ok := InstallLog(best.m.lastOp, suffix);
          if !ok { return; }
        }
        upto := best.m.committed;
      }
      FromForgets(r, State(), view, votes, junk);
      var from := StartFrom(votes, junk);
      LeadForgets(c, r, State(), view, log.Contents(), latestOp, upto, from);
      ok, sent := Lead(latestOp, upto, from);
    }

    method HandleDoViewChange(m: Message, junk: nat) returns (ok: bool, sent: set<Message>)
      requires Valid() && m.DoViewChange? && m.from < c.N()
      modifies this, log, prepareOKQuorum, startViewChangeQuorum, doViewChangeQuorum
      ensures Valid() && Refines(VrReplica.HandleDoViewChange(c, me, old(State()), m, junk), ok, State(), sent)
    {
      hide CollectedOks, CollectedSvcs, VrLogStore.LogStore.Contents, VrLogStore.LogStore.Valid, VrLogStore.LogStore.Pending;
      if Ignores(m.view) { return true, {}; }
      sent := Join(m.view);
      if c.Leader(m.view) != me { return false, sent; }
      hide VrReplica.BecomeLeader;
      var quorum := CollectDoViewChange(m);
      if quorum.NoQuorum? { return true, sent; }
      var started;
      ok, started := BecomeLeader(m, quorum.votes, junk);
      sent := sent + started;
    }

    /** Looks up an uncommitted entry to acknowledge, and tells the client table of it. */
    method Acknowledge(op: nat, ghost t: Table, ghost start: nat) returns (ok: bool)
      requires Valid() && op > lastCommitted && Told(t, clientTable, log.Contents(), start, op - 1) && start <= op - 1
      modifies this`clientTable
      ensures Valid()
      ensures ok <==> op <= |log.Contents()| && UpdatableAll(t, Requests(log.Contents()[start..op]))
      ensures ok ==> Told(t, clientTable, log.Contents(), start, op)
      ensures !ok ==> clientTable == old(clientTable)
    {
      hide QuorumsValid, CollectedOks, CollectedSvcs, VrLogStore.LogStore.Contents, VrLogStore.LogStore.Valid;
      hide Update, Updatable, UpdateAll, UpdatableAll, Requests;
      var entry := log.Find(op);
      if entry.Nowhere? { return false; }
      if entry.slot.committed { assert false; }
      UpdatesNext(t, log.Contents(), start, op - 1);
      ok := UpdateClientTable(entry.slot.req);
    }

    /** Acknowledges every uncommitted entry from `oldLastOp` on. No such entry is marked as committed. */
    method SendPrepareOKs(oldLastOp: nat) returns (ok: bool, sent: set<Message>)
      requires Valid()
      modifies this`clientTable
      ensures Valid()
      ensures var o := VrReplica.SendPrepareOKs(me, old(State()), oldLastOp);
        (ok <==> o.Ok?) && sent == o.out && State() == o.r
    {
      hide VrLogStore.LogStore.Contents, VrLogStore.LogStore.Valid, VrLogStore.LogStore.Pending, QuorumsValid, CollectedOks, CollectedSvcs;
      hide Update, Updatable, UpdateAll, UpdatableAll, Requests, VrReplica.SendPrepareOKs;
      sent := {};
      ghost var r, t, entries, start := State(), clientTable, log.Contents(), FirstNew(State(), oldLastOp) - 1;
      var i := oldLastOp;
      while i <= lastOp
        invariant Valid() && oldLastOp <= i
        invariant i <= lastOp + 1 || i == oldLastOp
        invariant sent == PrepareOKs(me, r, oldLastOp, i)
        invariant Told(t, clientTable, entries, start, i - 1)
      {
        if i > lastCommitted {
          ok := Acknowledge(i, t, start);
          if !ok {
            AcksEnd(me, r, oldLastOp, i, clientTable);
            return;
          }
          sent := sent + {PrepareOK(view, i, me)};
        }
        i := i + 1;
      }
      AcksEnd(me, r, oldLastOp, i, clientTable);
      ok := true;
    }

    method HandleStartView(m: Message) returns (ok: bool, sent: set<Message>)
      requires Valid() && m.StartView?
      modifies this, log, prepareOKQuorum, startViewChangeQuorum, doViewChangeQuorum
      ensures Valid() && Refines(VrReplica.HandleStartView(c, me, old(State()), m), ok, State(), sent)
      ensures Enters(c, old(State()), m) ==> State() == VrReplica.HandleStartView(c, me, old(State()), m).r
    {
      hide QuorumsValid, CollectedOks, CollectedSvcs, VrLogStore.LogStore.Contents, VrLogStore.LogStore.Valid, VrLogStore.LogStore.Pending;
      hide Installed, Installable, VrReplica.SendPrepareOKs, RecordedAll, Requests;
      sent := {};
      if Ignores(m.view) { return true, {}; }
      if c.Leader(m.view) == me { return false, {}; }
      if m.suffix.entries == [] {
        if !(m.committed == lastCommitted && m.lastOp == m.committed) { return false, {}; }
        NothingToInstall(State(), m.lastOp, m.suffix);
      } else {
        ok := InstallLog(m.lastOp, m.suffix);
        if !ok { return; }
      }
      EnterView(m.view);
      var oldLastOp := lastOp;
      lastOp := m.lastOp;
      ok := CommitUpTo(m.committed);
      if !ok { return; }
      ok, sent := SendPrepareOKs(oldLastOp);
    }

    method HandleRequestStateTransfer(m: TransferMessage) returns (sent: set<TransferMessage>)
      requires Valid() && m.RequestStateTransfer?
      ensures sent == VrTransfer.HandleRequestStateTransfer(me, State(), m)
    {
      hide QuorumsValid, CollectedOks, CollectedSvcs, VrLogStore.LogStore.Contents, VrLogStore.LogStore.Valid, VrLog.Dump;
      if !normal { return {}; }
      if m.view > view { return {RequestStateTransfer(view, lastCommitted, me)}; }
      var entries := log.Dump(m.opnum + 1);
      sent := {StateTransfer(view, lastCommitted, entries, m.from)};
    }

    /** Takes one received entry over, unless it is there already. No entry that is not committed is marked as committed. */
    method TakeEntry(opnum: nat, e: Entry, oldLastOp: nat) returns (ok: bool, from: nat)
      requires Valid()
      modifies this`lastOp, log
      ensures Valid()
      ensures var t := Take(old(State()), oldLastOp, opnum, e); (ok <==> t.Taken?) && (ok ==> t == Taken(State(), from))
    {
      hide QuorumsValid, CollectedOks, CollectedSvcs, VrLogStore.LogStore.Contents, VrLogStore.LogStore.Valid;
      from := oldLastOp;
      if opnum <= lastCommitted { return true, from; }
      if opnum > lastOp {
        if opnum != lastOp + 1 { return false, from; }
        lastOp := lastOp + 1;
        ok := log.Append(e.view, opnum, e.req);
        return;
      }
      var entry := log.Find(opnum);
      if entry.At? && entry.slot.committed { assert false; }
      if entry.Nowhere? || entry.slot.view > e.view { return false, from; }
      if entry.slot.view != e.view {
        ok := log.RemoveAfter(opnum);
        lastOp := opnum;
        from := lastOp;
        ok := log.Append(e.view, opnum, e.req);
      } else {
        ok := true;
      }
    }

    method HandleStateTransfer(m: TransferMessage) returns (ok: bool, sent: set<Message>)
      requires Valid() && m.StateTransfer?
      modifies this, log, prepareOKQuorum, startViewChangeQuorum, doViewChangeQuorum
      ensures Valid() && Refines(VrTransfer.HandleStateTransfer(c, me, old(State()), m), ok, State(), sent)
      ensures sent != {} ==> State() == VrTransfer.HandleStateTransfer(c, me, old(State()), m).r
    {
      hide QuorumsValid, CollectedOks, CollectedSvcs, VrLogStore.LogStore.Contents, VrLogStore.LogStore.Valid, VrLogStore.LogStore.Pending;
      hide Take, VrReplica.SendPrepareOKs, RecordedAll, Requests;
      sent := {};
      if m.view < view { return true, {}; }
      ghost var r, s := State(), m.suffix;
      var oldLastOp, i := lastOp, 0;
      while i < |m.suffix.entries|
        invariant Valid() && 0 <= i <= |s.entries|
        invariant TakeAll(r, r.lastOp, s) == TakeAll(State(), oldLastOp, Suffix(s.first + i, s.entries[i..]))
        invariant view == r.view
      {
        assert s.entries[i..][0] == s.entries[i] && s.entries[i..][1..] == s.entries[i + 1..];
        ok, oldLastOp := TakeEntry(m.suffix.first + i, m.suffix.entries[i], oldLastOp);
        if !ok { return; }
        i := i + 1;
      }
      assert TakeAll(r, r.lastOp, s) == Taken(State(), oldLastOp);
      hide TakeAll;
      if m.view > view { EnterView(m.view); }
      if m.opnum > lastOp { return false, {}; }
      ok := CommitUpTo(m.opnum);
      if !ok { return; }
      ok, sent := SendPrepareOKs(oldLastOp);
    }
  }
}
