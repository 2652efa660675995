/**
 What the handlers achieve, and not only what they keep: from every state a careful run can
 reach, a leader with f followers that are up to date gets a request executed, by itself and
 by them, after everything that was in its log. With f = 0 there is nobody to acknowledge it.
 */
module VrProgress {
  import opened VrTypes
  import opened VrTable
  import Quorums
  import opened VrLog
  import opened VrReplica
  import opened VrProtocol
  import opened VrInvariant
  import opened VrRuns

  /** A replica in view `v`, in normal status, with nothing left over from an older view. */
  predicate Normal(r: Replica, v: nat) {
    r.normal && r.view == v && r.lastOp == |r.log|
  }

  /** A leader that can close the batch it is filling. */
  predicate Leading(c: Config, me: nat, r: Replica) {
    && Normal(r, r.view) && c.Leader(r.view) == me
    && r.batchEnd <= r.lastOp && forall i :: r.batchEnd <= i < r.lastOp ==> r.log[i].view == r.view
  }

  /** A follower that has received every batch the leader has closed, and whose client table is not ahead of the rest. */
  predicate Following(l: Replica, r: Replica, req: Request) {
    Normal(r, l.view) && l.batchEnd <= r.lastOp <= l.lastOp == |l.log| &&
    UpdatableAll(r.table, Requests(l.log[r.lastOp..]) + [req])
  }

  // ---- Single events ----

  /** A careful run that ends with these replicas and has sent these messages. */
  ghost predicate Reaches(c: Config, events: seq<Event>, reps: seq<Replica>, sent: set<Message>) {
    Careful(c, events) && Run(c, events).reps == reps && sent <= Run(c, events).msgs
  }

  lemma Happens(c: Config, events: seq<Event>, reps: seq<Replica>, sent: set<Message>, e: Event, r: Replica, out: set<Message>)
    returns (more: seq<Event>)
    requires Reaches(c, events, reps, sent) && e.r < |reps|
    requires Handle(c, Run(c, events), e) == Ok(r, out) && CarefulStep(c, Run(c, events), e)
    ensures events <= more && Reaches(c, more, reps[e.r := r], sent + out)
  {
    more := events + [e];
    assert more[..|events|] == events;
    assert Run(c, more) == Apply(c, Run(c, events), e);
    forall i | 0 <= i < |more| ensures CarefulStep(c, Run(c, more[..i]), more[i]) {
      if i < |events| {
        assert more[..i] == events[..i] && more[i] == events[i];
      } else {
        assert more[..i] == events && more[i] == e;
      }
    }
    hide Handle, Record, Ballots, Run, CarefulStep;
  }

  lemma StaysWell(c: Config, events: seq<Event>, reps: seq<Replica>, sent: set<Message>, k: nat)
    requires Reaches(c, events, reps, sent) && k < |reps|
    ensures WellFormed(reps[k])
  {
    RunOK(c, events);
    assert RepOK(c, Run(c, events), k, reps[k]);
    ReplicaWellFormed(c, Run(c, events), k);
  }

  /** A message arrives; an acknowledgement must not commit an entry of an older view. */
  lemma Arrives(c: Config, events: seq<Event>, reps: seq<Replica>, sent: set<Message>, me: nat, m: Message,
                r: Replica, out: set<Message>)
    returns (more: seq<Event>)
    requires Reaches(c, events, reps, sent) && me < |reps| && m in sent && Addressed(c, m, me) && WellFormed(reps[me])
    requires Receive(c, me, reps[me], m, 0) == Ok(r, out)
    requires m.PrepareOK? && reps[me].committed < r.committed <= |reps[me].log| ==>
      reps[me].log[r.committed - 1].view == reps[me].view
    ensures events <= more && Reaches(c, more, reps[me := r], sent + out)
  {
    hide Receive, Addressed, WellFormed, Careful, Run;
    more := Happens(c, events, reps, sent, Deliver(me, m, 0), r, out);
  }

  // ---- The leader's part ----

  /** The leader once it has appended `req`. */
  function Open(r: Replica, req: Request): Replica {
    r.(log := r.log + [Entry(r.view, req)], lastOp := r.lastOp + 1, table := Update(r.table, req))
  }

  /** The leader once it has sent the batch that `req` completes. */
  function Sending(r: Replica, req: Request): Replica {
    Open(r, req).(batchEnd := r.lastOp + 1)
  }

  /** The Prepare message for everything after the last batch. */
  function Batch(r: Replica, req: Request): Message
    requires r.batchEnd <= |r.log|
  {
    Prepare(r.view, |r.log| + 1, r.batchEnd + 1, Requests((r.log + [Entry(r.view, req)])[r.batchEnd..]))
  }

  lemma Closes(c: Config, me: nat, r: Replica, req: Request)
    requires Leading(c, me, r)
    ensures CloseBatch(Open(r, req)) == Ok(Sending(r, req), {Batch(r, req)})
  {
    var log := r.log + [Entry(r.view, req)];
    assert log[r.batchEnd..|log|] == log[r.batchEnd..];
  }

  lemma Takes(c: Config, me: nat, r: Replica, req: Request)
    requires Leading(c, me, r) && !Old(r.table, req)
    ensures var o := HandleRequest(c, me, r, req, Replicate(req.op)); o == CloseBatch(Open(r, req)) || o == Ok(Open(r, req), {})
    ensures Open(r, req).normal && c.Leader(Open(r, req).view) == me
  {
    assert req.(op := req.op) == req;
    hide CloseBatch, Update;
  }

  /** The request is appended, and a Prepare for it is sent: at once or when the batch timer fires. */
  lemma IsSent(c: Config, events: seq<Event>, reps: seq<Replica>, l: nat, req: Request) returns (more: seq<Event>)
    requires Reaches(c, events, reps, {}) && l < |reps| && Leading(c, l, reps[l]) && !Old(reps[l].table, req)
    ensures events <= more && Reaches(c, more, reps[l := Sending(reps[l], req)], {Batch(reps[l], req)})
  {
    var r, up := reps[l], Replicate(req.op);
    StaysWell(c, events, reps, {}, l);
    Closes(c, l, r, req);
    Takes(c, l, r, req);
    hide Careful, Run, CloseBatch, HandleRequest, WellFormed, Sending, Batch, Open, Leading, Old;
    assert {} + {Batch(r, req)} == {Batch(r, req)};
    if HandleRequest(c, l, r, req, up) == CloseBatch(Open(r, req)) {
      more := Happens(c, events, reps, {}, ClientRequest(l, req, up), Sending(r, req), {Batch(r, req)});
    } else {
      more := Happens(c, events, reps, {}, ClientRequest(l, req, up), Open(r, req), {});
      var open := reps[l := Open(r, req)];
      assert Reaches(c, more, open, {});
      StaysWell(c, more, open, {}, l);
      more := Happens(c, more, open, {}, BatchTimer(l), Sending(r, req), {Batch(r, req)});
      assert open[l := Sending(r, req)] == reps[l := Sending(r, req)];
    }
  }

  // ---- A follower's part ----

  /** A batch of requests that ends with opnum `m.opnum`. */
  predicate IsBatch(m: Message) {
    m.Prepare? && 1 <= m.batchStart <= m.opnum && m.opnum - m.batchStart + 1 == |m.reqs|
  }

  /** The follower lacks the end of the batch, and nothing before it, and its client table can take it. */
  predicate Awaits(r: Replica, m: Message)
    requires IsBatch(m)
  {
    Normal(r, m.view) && m.batchStart <= r.lastOp + 1 <= m.opnum &&
    UpdatableAll(r.table, m.reqs[r.lastOp + 1 - m.batchStart..])
  }

  /** The follower once it has the batch. */
  function Prepared(r: Replica, m: Message): (r': Replica)
    requires IsBatch(m) && Awaits(r, m)
    ensures Normal(r', m.view) && r'.lastOp == m.opnum
  {
    var added := m.reqs[r.lastOp + 1 - m.batchStart..];
    r.(log := r.log + Stamped(m.view, added), lastOp := m.opnum, table := UpdateAll(r.table, added))
  }

  lemma Acknowledges(c: Config, events: seq<Event>, reps: seq<Replica>, k: nat, m: Message) returns (more: seq<Event>)
    requires Reaches(c, events, reps, {m}) && k < |reps| && IsBatch(m) && Awaits(reps[k], m) && k != c.Leader(m.view)
    ensures events <= more && Reaches(c, more, reps[k := Prepared(reps[k], m)], {m, PrepareOK(m.view, m.opnum, k)})
  {
    StaysWell(c, events, reps, {m}, k);
    hide Reaches, WellFormed;
    var ack := PrepareOK(m.view, m.opnum, k);
    assert Receive(c, k, reps[k], m, 0) == Ok(Prepared(reps[k], m), {ack});
    more := Arrives(c, events, reps, {m}, k, m, Prepared(reps[k], m), {ack});
    assert {m} + {ack} == {m, ack};
  }

  // ---- The count ----

  /** The acknowledgements that `r` has for opnum `n`. */
  function Votes(r: Replica, n: nat): set<nat> {
    if (r.view, n) in r.okVotes then r.okVotes[(r.view, n)] else {}
  }

  /** Everything up to `n`, the end of the leader's log, has been executed if a quorum has acknowledged it. */
  predicate Counts(c: Config, me: nat, v: nat, n: nat, log: Log, r: Replica) {
    && Normal(r, v) && c.Leader(v) == me && r.log == log && |log| == n > 0 && log[n - 1].view == v
    && r.committed <= n
  }

  function AfterCount(c: Config, me: nat, r: Replica, m: Message): Replica
    requires m.PrepareOK?
  {
    var o := HandlePrepareOK(c, me, r, m);
    if o.Ok? then o.r else r
  }

  lemma CountsOn(c: Config, me: nat, v: nat, n: nat, log: Log, r: Replica, k: nat)
    requires Counts(c, me, v, n, log, r)
    ensures var m := PrepareOK(v, n, k); var r' := AfterCount(c, me, r, m);
      && HandlePrepareOK(c, me, r, m).Ok? && Counts(c, me, v, n, log, r') && Votes(r', n) == Votes(r, n) + {k}
      && (|Votes(r', n)| >= c.f ==> r'.committed == n) && (r'.committed == r.committed || r'.committed == n)
  {
  }

  lemma CountReceived(c: Config, me: nat, v: nat, n: nat, log: Log, r: Replica, k: nat)
    requires Counts(c, me, v, n, log, r) && WellFormed(r)
    ensures var m := PrepareOK(v, n, k); var r' := AfterCount(c, me, r, m);
      && Addressed(c, m, me) && Receive(c, me, r, m, 0).Ok? && Receive(c, me, r, m, 0).r == r'
      && (r.committed < r'.committed <= |r.log| ==> r.log[r'.committed - 1].view == r.view)
  {
    hide HandlePrepareOK, WellFormed;
    CountsOn(c, me, v, n, log, r, k);
  }

  lemma IsCounted(c: Config, events: seq<Event>, reps: seq<Replica>, l: nat, v: nat, n: nat, log: Log, sent: set<Message>, k: nat)
    returns (more: seq<Event>)
    requires Reaches(c, events, reps, sent) && l < |reps| && Counts(c, l, v, n, log, reps[l]) && PrepareOK(v, n, k) in sent
    ensures events <= more && Reaches(c, more, reps[l := AfterCount(c, l, reps[l], PrepareOK(v, n, k))], sent)
  {
    hide Reaches, Counts, AfterCount, WellFormed, Receive, Addressed;
    StaysWell(c, events, reps, sent, l);
    var m := PrepareOK(v, n, k);
    CountReceived(c, l, v, n, log, reps[l], k);
    var r, out := AfterCount(c, l, reps[l], m), Receive(c, l, reps[l], m, 0).out;
    more := Arrives(c, events, reps, sent, l, m, r, out);
    Fewer(c, more, reps[l := r], sent + out, sent);
  }

  /** What the followers in `todo` and the leader have become. */
  predicate Done(c: Config, l: nat, v: nat, n: nat, log: Log, reps: seq<Replica>, todo: set<nat>, reps': seq<Replica>)
    requires l < |reps|
  {
    && |reps'| == |reps|
    && Counts(c, l, v, n, log, reps'[l]) && Votes(reps[l], n) + todo <= Votes(reps'[l], n)
    && (todo != {} && |Votes(reps'[l], n)| >= c.f ==> reps'[l].committed == n)
    && forall k :: 0 <= k < |reps| && k != l ==>
         if k in todo then Normal(reps'[k], v) && reps'[k].lastOp == n else reps'[k] == reps[k]
  }

  lemma DoneMore(c: Config, l: nat, v: nat, n: nat, log: Log, reps: seq<Replica>, todo: set<nat>, k: nat, r: Replica,
                 two: seq<Replica>, reps': seq<Replica>)
    requires l < |reps| && k < |reps| && k in todo && l !in todo
    requires Normal(r, v) && r.lastOp == n
    requires Counts(c, l, v, n, log, reps[l])
    requires two == reps[k := r][l := AfterCount(c, l, reps[l], PrepareOK(v, n, k))]
    requires Done(c, l, v, n, log, two, todo - {k}, reps')
    requires todo == {k} ==> reps' == two
    ensures Done(c, l, v, n, log, reps, todo, reps')
  {
    hide Counts, AfterCount, Votes, Normal;
    CountsOn(c, l, v, n, log, reps[l], k);
    assert two[l] == AfterCount(c, l, reps[l], PrepareOK(v, n, k)) && two[k] == r;
    assert |reps'| == |two| == |reps|;
    forall x | 0 <= x < |reps| && x != l
      ensures if x in todo then Normal(reps'[x], v) && reps'[x].lastOp == n else reps'[x] == reps[x]
    {
      if x != k { assert two[x] == reps[x]; }
    }
  }

  lemma DoneNone(c: Config, l: nat, v: nat, n: nat, log: Log, reps: seq<Replica>)
    requires l < |reps| && Counts(c, l, v, n, log, reps[l])
    ensures Done(c, l, v, n, log, reps, {}, reps)
  {
  }

  /** One follower receives the batch and is counted. */
  lemma OneCounts(c: Config, events: seq<Event>, reps: seq<Replica>, l: nat, v: nat, n: nat, log: Log, m: Message, k: nat)
    returns (more: seq<Event>, r: Replica, two: seq<Replica>)
    requires Reaches(c, events, reps, {m}) && l < |reps| && l != k < |reps| && IsBatch(m) && m.view == v && m.opnum == n
    requires Counts(c, l, v, n, log, reps[l]) && Awaits(reps[k], m)
    ensures events <= more && Reaches(c, more, two, {m})
    ensures Normal(r, v) && r.lastOp == n
    ensures two == reps[k := r][l := AfterCount(c, l, reps[l], PrepareOK(v, n, k))]
    ensures Counts(c, l, v, n, log, two[l])
  {
    hide Reaches, Awaits, AfterCount, UpdateAll, UpdatableAll;
    r := Prepared(reps[k], m);
    more := Acknowledges(c, events, reps, k, m);
    more := IsCounted(c, more, reps[k := r], l, v, n, log, {m, PrepareOK(v, n, k)}, k);
    two := reps[k := r][l := AfterCount(c, l, reps[l], PrepareOK(v, n, k))];
    Fewer(c, more, two, {m, PrepareOK(v, n, k)}, {m});
    CountsOn(c, l, v, n, log, reps[l], k);
  }

  /** One follower after the other. */
  lemma {:induction false} AllCount(c: Config, events: seq<Event>, reps: seq<Replica>, l: nat, v: nat, n: nat, log: Log,
                                    m: Message, todo: set<nat>)
    returns (more: seq<Event>, reps': seq<Replica>)
    requires Reaches(c, events, reps, {m}) && l < |reps| && l !in todo && IsBatch(m) && m.view == v && m.opnum == n
    requires Counts(c, l, v, n, log, reps[l])
    requires forall k :: k in todo ==> k < |reps| && Awaits(reps[k], m)
    ensures events <= more && Reaches(c, more, reps', {m}) && Done(c, l, v, n, log, reps, todo, reps')
    ensures todo == {} ==> reps' == reps
    decreases |todo|
  {
    hide Reaches, Awaits, AfterCount, Counts, Done, IsBatch, Normal;
    if todo == {} {
      DoneNone(c, l, v, n, log, reps);
      more, reps' := events, reps;
    } else {
      var k :| k in todo;
      var r, two;
      more, r, two := OneCounts(c, events, reps, l, v, n, log, m, k);
      assert forall x :: x in todo - {k} ==> two[x] == reps[x];
      more, reps' := AllCount(c, more, two, l, v, n, log, m, todo - {k});
      DoneMore(c, l, v, n, log, reps, todo, k, r, two, reps');
    }
  }

  lemma Fewer(c: Config, events: seq<Event>, reps: seq<Replica>, sent: set<Message>, less: set<Message>)
    requires Reaches(c, events, reps, sent) && less <= sent
    ensures Reaches(c, events, reps, less)
  {
  }

  // ---- The followers execute ----

  lemma Announces(c: Config, events: seq<Event>, reps: seq<Replica>, l: nat, v: nat, n: nat) returns (more: seq<Event>)
    requires Reaches(c, events, reps, {}) && l < |reps| && Normal(reps[l], v) && c.Leader(v) == l && reps[l].committed == n
    ensures events <= more && Reaches(c, more, reps, {Commit(v, n)})
  {
    StaysWell(c, events, reps, {}, l);
    hide Careful, Run, WellFormed;
    more := Happens(c, events, reps, {}, NullCommitTimer(l), reps[l], {Commit(v, n)});
    assert reps[l := reps[l]] == reps;
    assert {} + {Commit(v, n)} == {Commit(v, n)};
  }

  lemma ExecutesOne(c: Config, events: seq<Event>, reps: seq<Replica>, k: nat, v: nat, n: nat) returns (more: seq<Event>)
    requires Reaches(c, events, reps, {Commit(v, n)}) && k < |reps| && k != c.Leader(v)
    requires Normal(reps[k], v) && reps[k].lastOp == n
    ensures events <= more && Reaches(c, more, reps[k := CommitUpTo(c, reps[k], n)], {Commit(v, n)})
  {
    StaysWell(c, events, reps, {Commit(v, n)}, k);
    hide Reaches, WellFormed;
    var m := Commit(v, n);
    assert Receive(c, k, reps[k], m, 0) == Ok(CommitUpTo(c, reps[k], n), {});
    more := Arrives(c, events, reps, {m}, k, m, CommitUpTo(c, reps[k], n), {});
    assert {m} + {} == {m};
  }

  /** `k` has its whole log committed. */
  predicate Finished(r: Replica, v: nat, n: nat) {
    Normal(r, v) && r.lastOp == n && r.committed >= n
  }

  lemma CommitsAll(c: Config, r: Replica, v: nat, n: nat)
    requires Normal(r, v) && r.lastOp == n
    ensures Finished(CommitUpTo(c, r, n), v, n)
  {
  }

  lemma {:induction false} AllExecute(c: Config, events: seq<Event>, reps: seq<Replica>, v: nat, n: nat, todo: set<nat>)
    returns (more: seq<Event>, reps': seq<Replica>)
    requires Reaches(c, events, reps, {Commit(v, n)})
    requires forall k :: k in todo ==> k < |reps| && k != c.Leader(v) && Normal(reps[k], v) && reps[k].lastOp == n
    ensures events <= more && Reaches(c, more, reps', {Commit(v, n)}) && |reps'| == |reps|
    ensures forall k :: k in todo ==> Finished(reps'[k], v, n)
    ensures forall k :: 0 <= k < |reps| && k !in todo ==> reps'[k] == reps[k]
    decreases |todo|
  {
    hide Reaches, Finished, CommitUpTo;
    if todo == {} {
      more, reps' := events, reps;
    } else {
      var k :| k in todo;
      CommitsAll(c, reps[k], v, n);
      more := ExecutesOne(c, events, reps, k, v, n);
      var next := reps[k := CommitUpTo(c, reps[k], n)];
      assert forall x :: x in todo - {k} ==> next[x] == reps[x];
      more, reps' := AllExecute(c, more, next, v, n, todo - {k});
      assert reps'[k] == next[k];
    }
  }

  lemma HasExecuted(c: Config, events: seq<Event>, k: nat)
    requires Careful(c, events) && k < |Run(c, events).reps|
    ensures var r := Run(c, events).reps[k];
      r.committed <= r.lastOp <= |r.log| && r.executed == Requests(r.log[..r.committed])
  {
    hide Run, Careful;
    RunOK(c, events);
    assert RepOK(c, Run(c, events), k, Run(c, events).reps[k]);
  }

  /** Replicas that have executed all of equally long logs in one view have executed the same. */
  lemma FinishedAlike(c: Config, events: seq<Event>, reps: seq<Replica>, sent: set<Message>, l: nat, k: nat, v: nat, n: nat)
    requires Reaches(c, events, reps, sent) && |reps| == c.N() && l < |reps| && k < |reps| && c.Leader(v) == l
    requires Finished(reps[l], v, n) && Finished(reps[k], v, n)
    ensures reps[k].executed == Requests(reps[l].log)
  {
    hide Run, Careful;
    FollowerIsPrefix(c, events, l, k);
    HasExecuted(c, events, k);
    assert reps[k].log[..reps[k].committed] == reps[k].log == reps[l].log;
  }

  // ---- The whole ----

  lemma Sent(c: Config, l: nat, r: Replica, req: Request)
    requires Leading(c, l, r) && r.committed <= |r.log|
    ensures var m := Batch(r, req);
      && IsBatch(m) && m.view == r.view && m.opnum == |r.log| + 1
      && Counts(c, l, r.view, |r.log| + 1, r.log + [Entry(r.view, req)], Sending(r, req))
      && forall x :: Following(r, x, req) ==> Awaits(x, m)
  {
    var m, log := Batch(r, req), r.log + [Entry(r.view, req)];
    forall x | Following(r, x, req) ensures Awaits(x, m) {
      assert m.reqs[x.lastOp - r.batchEnd..] == Requests(r.log[x.lastOp..]) + [req];
    }
  }

  lemma Quorum(c: Config, l: nat, v: nat, n: nat, log: Log, reps: seq<Replica>, fs: set<nat>, reps': seq<Replica>)
    requires l < |reps| && Done(c, l, v, n, log, reps, fs, reps') && |fs| >= c.f >= 1
    ensures Finished(reps'[l], v, n) && reps'[l].log == log
  {
    Quorums.SubsetSize(fs, Votes(reps'[l], n));
  }

  /** The request is executed by the leader. */
  lemma LeaderExecutes(c: Config, events: seq<Event>, reps: seq<Replica>, l: nat, fs: set<nat>, req: Request)
    returns (more: seq<Event>, reps': seq<Replica>)
    requires Reaches(c, events, reps, {}) && c.f >= 1 && l < |reps| && Leading(c, l, reps[l])
    requires !Old(reps[l].table, req) && reps[l].committed <= |reps[l].log|
    requires |fs| >= c.f && l !in fs && forall k :: k in fs ==> k < |reps| && Following(reps[l], reps[k], req)
    ensures events <= more && Reaches(c, more, reps', {}) && |reps'| == |reps|
    ensures Finished(reps'[l], reps[l].view, |reps[l].log| + 1) && reps'[l].log == reps[l].log + [Entry(reps[l].view, req)]
    ensures forall k :: k in fs ==> Normal(reps'[k], reps[l].view) && reps'[k].lastOp == |reps[l].log| + 1
  {
    hide Reaches, Counts, Awaits, Following, IsBatch, Sending;
    var r := reps[l];
    var v, n, log, m := r.view, |r.log| + 1, r.log + [Entry(r.view, req)], Batch(r, req);
    more := IsSent(c, events, reps, l, req);
    Sent(c, l, r, req);
    var sent := reps[l := Sending(r, req)];
    more, reps' := AllCount(c, more, sent, l, v, n, log, m, fs);
    Fewer(c, more, reps', {m}, {});
    Quorum(c, l, v, n, log, sent, fs, reps');
  }

  /** Once the leader has executed everything, it tells the followers, and they do so too. */
  lemma FollowersExecute(c: Config, events: seq<Event>, reps: seq<Replica>, l: nat, fs: set<nat>, v: nat, n: nat)
    returns (more: seq<Event>, reps': seq<Replica>)
    requires Reaches(c, events, reps, {}) && l < |reps| && l !in fs && c.Leader(v) == l
    requires Finished(reps[l], v, n)
    requires forall k :: k in fs ==> k < |reps| && Normal(reps[k], v) && reps[k].lastOp == n
    ensures events <= more && Reaches(c, more, reps', {Commit(v, n)}) && |reps'| == |reps| && reps'[l] == reps[l]
    ensures forall k :: k in fs ==> Finished(reps'[k], v, n)
  {
    hide Reaches, Normal;
    AtMost(c, events, reps, l, v, n);
    more := Announces(c, events, reps, l, v, n);
    more, reps' := AllExecute(c, more, reps, v, n, fs);
  }

  lemma EverybodyExecutes(c: Config, events: seq<Event>, reps: seq<Replica>, l: nat, fs: set<nat>, req: Request)
    returns (more: seq<Event>, reps': seq<Replica>)
    requires Reaches(c, events, reps, {}) && c.f >= 1 && |reps| == c.N() && l < |reps|
    requires Leading(c, l, reps[l]) && !Old(reps[l].table, req) && reps[l].committed <= |reps[l].log|
    requires |fs| >= c.f && l !in fs && forall k :: k in fs ==> k < |reps| && Following(reps[l], reps[k], req)
    ensures events <= more && Reaches(c, more, reps', {}) && |reps'| == |reps|
    ensures forall k :: k in fs + {l} ==> reps'[k].executed == Requests(reps[l].log) + [req]
  {
    hide Leading, Following, Reaches, Requests, Old, Normal, Finished;
    LeadsItself(c, l, reps[l]);
    var v, n := reps[l].view, |reps[l].log| + 1;
    more, reps' := LeaderExecutes(c, events, reps, l, fs, req);
    more, reps' := FollowersExecute(c, more, reps', l, fs, v, n);
    RequestsMore(reps[l].log, v, req);
    forall k | k in fs + {l} ensures reps'[k].executed == Requests(reps[l].log) + [req] {
      FinishedAlike(c, more, reps', {Commit(v, n)}, l, k, v, n);
    }
    Fewer(c, more, reps', {Commit(v, n)}, {});
  }

  /**
   In the normal case a request is executed: from every state of a careful run there are
   events, themselves careful, after which the leader and its f followers have executed all
   that was in the leader's log, and then the request.
   */
  lemma RequestIsExecuted(c: Config, events: seq<Event>, l: nat, fs: set<nat>, req: Request) returns (more: seq<Event>)
    requires Careful(c, events) && c.f >= 1 && |fs| >= c.f && l !in fs
    requires |Run(c, events).reps| == c.N() && l < c.N() && Leading(c, l, Run(c, events).reps[l])
    requires !Old(Run(c, events).reps[l].table, req)
    requires forall k :: k in fs ==> k < c.N() && Following(Run(c, events).reps[l], Run(c, events).reps[k], req)
    ensures events <= more && Careful(c, more) && |Run(c, more).reps| == c.N()
    ensures forall k :: k in fs + {l} ==> Run(c, more).reps[k].executed == Requests(Run(c, events).reps[l].log) + [req]
  {
    hide Leading, Following, Run, Careful;
    HasExecuted(c, events, l);
    var reps': seq<Replica>;
    more, reps' := EverybodyExecutes(c, events, Run(c, events).reps, l, fs, req);
  }

  lemma RequestsMore(log: Log, v: nat, req: Request)
    ensures Requests(log + [Entry(v, req)]) == Requests(log) + [req]
  {
  }

  lemma LeadsItself(c: Config, l: nat, r: Replica)
    requires Leading(c, l, r)
    ensures c.Leader(r.view) == l
  {
  }

  lemma AtMost(c: Config, events: seq<Event>, reps: seq<Replica>, l: nat, v: nat, n: nat)
    requires Reaches(c, events, reps, {}) && l < |reps| && Finished(reps[l], v, n)
    ensures reps[l].committed == n
  {
    RunOK(c, events);
    assert RepOK(c, Run(c, events), l, reps[l]);
  }

  // ---- A group of one ----

  ghost predicate Alone(s: State) {
    && |s.reps| == 1 && s.reps[0].normal && s.reps[0].executed == [] && s.reps[0].committed == 0
    && forall m :: m in s.msgs ==> m.Prepare? || m.Commit?
  }

  lemma StaysAlone(c: Config, s: State, e: Event)
    requires c.f == 0 && Alone(s)
    ensures Alone(Apply(c, s, e))
  {
    hide Record, Ballots;
    assert c.N() == 1;
  }

  /** Nobody acknowledges to a leader without followers: with f = 0 nothing is ever executed. */
  lemma {:induction false} AloneExecutesNothing(c: Config, events: seq<Event>)
    requires c.f == 0
    ensures |Run(c, events).reps| == 1 && Run(c, events).reps[0].executed == [] && Alone(Run(c, events))
  {
    if events != [] {
      AloneExecutesNothing(c, events[..|events| - 1]);
      StaysAlone(c, Run(c, events[..|events| - 1]), events[|events| - 1]);
    }
  }
}
