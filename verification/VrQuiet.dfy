/**
 Runs without a view change: no view-change timer fires. All of them are careful, so that
 what `VrRuns` proves holds of them without any hypothesis about commits; and neither a message
 nor a client's request stops a replica in them, the assertion on client tables included.
 */
module VrQuiet {
  import opened VrTypes
  import opened VrTable
  import opened VrLog
  import opened VrReplica
  import opened VrProtocol
  import VrAsserts
  import VrClients
  import VrHistory
  import VrInvariant
  import VrRuns

  predicate Quiet(events: seq<Event>) {
    forall i :: 0 <= i < |events| ==> !events[i].ViewChangeTimer?
  }

  /** In the first view, with a log from the first view. */
  predicate First(r: Replica) {
    r.normal && r.view == 0 && forall i :: 0 <= i < |r.log| ==> r.log[i].view == 0
  }

  ghost predicate AllFirst(s: State) {
    && (forall k :: 0 <= k < |s.reps| ==> First(s.reps[k]))
    && (forall m :: m in s.msgs ==> !m.StartViewChange? && !m.DoViewChange? && !m.StartView?)
  }

  ghost predicate FirstOutcome(o: Outcome) {
    First(o.r) && forall m :: m in o.out ==> !m.StartViewChange? && !m.DoViewChange? && !m.StartView?
  }

  lemma TimersStayFirst(c: Config, me: nat, r: Replica, req: Request, up: Upcall)
    requires First(r)
    ensures FirstOutcome(HandleRequest(c, me, r, req, up))
    ensures FirstOutcome(SendNullCommit(c, me, r)) && FirstOutcome(CloseBatch(r))
  {
  }

  lemma MessagesStayFirst(c: Config, me: nat, r: Replica, m: Message, junk: nat)
    requires First(r) && WellFormed(r) && !m.StartViewChange? && !m.DoViewChange? && !m.StartView?
    ensures FirstOutcome(Receive(c, me, r, m, junk))
  {
  }

  lemma HandledFirst(c: Config, s: State, e: Event)
    requires AllFirst(s) && !e.ViewChangeTimer?
    ensures FirstOutcome(Handle(c, s, e))
  {
    hide HandleRequest, SendNullCommit, CloseBatch, Receive, WellFormed, Addressed;
    if e.r < |s.reps| && WellFormed(s.reps[e.r]) {
      var r := s.reps[e.r];
      match e
      case ClientRequest(me, req, up) => TimersStayFirst(c, me, r, req, up);
      case BatchTimer(me) => TimersStayFirst(c, me, r, Request(0, 0, ""), Answer(""));
      case NullCommitTimer(me) => TimersStayFirst(c, me, r, Request(0, 0, ""), Answer(""));
      case Deliver(me, m, junk) => if m in s.msgs { MessagesStayFirst(c, me, r, m, junk); }
    }
  }

  lemma StepFirst(c: Config, s: State, e: Event)
    requires AllFirst(s) && !e.ViewChangeTimer?
    ensures AllFirst(Apply(c, s, e))
  {
    HandledFirst(c, s, e);
    hide Handle, Record, Ballots, First;
  }

  lemma {:induction false} RunFirst(c: Config, events: seq<Event>)
    requires Quiet(events)
    ensures AllFirst(Run(c, events))
    decreases |events|
  {
    if events != [] {
      RunFirst(c, events[..|events| - 1]);
      hide Apply;
      StepFirst(c, Run(c, events[..|events| - 1]), events[|events| - 1]);
    }
  }

  lemma FirstIsCareful(c: Config, s: State, e: Event)
    requires AllFirst(s)
    ensures CarefulStep(c, s, e)
  {
    hide Handle;
    if e.r < |s.reps| { assert First(s.reps[e.r]); }
  }

  /** Without a view change every commit is of an entry of the leader's own view. */
  lemma QuietIsCareful(c: Config, events: seq<Event>)
    requires Quiet(events)
    ensures Careful(c, events)
  {
    forall i | 0 <= i < |events| ensures CarefulStep(c, Run(c, events[..i]), events[i]) {
      RunFirst(c, events[..i]);
      FirstIsCareful(c, Run(c, events[..i]), events[i]);
    }
  }

  /** In runs without a view change any two replicas have executed prefixes of one sequence. */
  lemma QuietAgreement(c: Config, events: seq<Event>, j: nat, k: nat)
    requires Quiet(events) && j < c.N() && k < c.N()
    ensures |Run(c, events).reps| == c.N()
    ensures VrRuns.Comparable(Run(c, events).reps[j].executed, Run(c, events).reps[k].executed)
    ensures Matching(Run(c, events).reps[j].log, Run(c, events).reps[k].log)
  {
    hide Run, Careful;
    QuietIsCareful(c, events);
    VrRuns.Agreement(c, events, j, k);
    VrRuns.LogMatching(c, events, j, k);
  }

  // ---- Client tables of followers ----

  predicate LastOf(t: Table, client: nat, e: Entry)
    requires client in t
  {
    e.req.clientId == client && e.req.reqId == t[client].lastReqId
  }

  /** The last request of each client in the table is in the log. */
  ghost predicate Traced(t: Table, log: Log) {
    forall client :: client in t ==> exists i :: 0 <= i < |log| && LastOf(t, client, log[i])
  }

  lemma UpdateTraced(t: Table, log: Log, view: nat, req: Request)
    requires Traced(t, log)
    ensures Traced(Update(t, req), log + [Entry(view, req)])
  {
    var u, more := Update(t, req), log + [Entry(view, req)];
    forall client | client in u ensures exists i :: 0 <= i < |more| && LastOf(u, client, more[i]) {
      if client == req.clientId {
        assert LastOf(u, client, more[|log|]);
      } else {
        var i :| 0 <= i < |log| && LastOf(t, client, log[i]);
        assert LastOf(u, client, more[i]);
      }
    }
  }

  lemma {:induction false} UpdateAllTraced(t: Table, log: Log, view: nat, reqs: seq<Request>)
    requires Traced(t, log)
    ensures Traced(UpdateAll(t, reqs), log + Stamped(view, reqs))
  {
    if reqs == [] {
      assert log + Stamped(view, reqs) == log;
    } else {
      var n := |reqs| - 1;
      UpdateAllTraced(t, log, view, reqs[..n]);
      hide Traced, Update;
      UpdateTraced(UpdateAll(t, reqs[..n]), log + Stamped(view, reqs[..n]), view, reqs[n]);
      assert log + Stamped(view, reqs) == log + Stamped(view, reqs[..n]) + [Entry(view, reqs[n])];
    }
  }

  lemma RecordedTraced(t: Table, log: Log, i: nat, app: App)
    requires i < |log| && Traced(t, log)
    ensures Traced(Recorded(t, log, i, app), log)
  {
    var u, mine := Recorded(t, log, i, app), log[i].req.clientId;
    forall client | client in u ensures exists j :: 0 <= j < |log| && LastOf(u, client, log[j]) {
      if client in t && u[client].lastReqId == t[client].lastReqId {
        var j :| 0 <= j < |log| && LastOf(t, client, log[j]);
        assert LastOf(u, client, log[j]);
      } else {
        assert client == mine && LastOf(u, client, log[i]);
      }
    }
  }

  lemma {:induction false} RecordedAllTraced(t: Table, log: Log, i: nat, j: nat, app: App)
    requires i <= j <= |log| && Traced(t, log)
    ensures Traced(RecordedAll(t, log, i, j, app), log)
    decreases j
  {
    if i < j {
      RecordedAllTraced(t, log, i, j - 1, app);
      RecordedTraced(RecordedAll(t, log, i, j - 1, app), log, j - 1, app);
    }
  }

  /** Requests with increasing ids for each client can all be entered into a table that is traced to the log before them. */
  lemma {:induction false} IncreasingUpdatable(t: Table, log: Log, view: nat, reqs: seq<Request>)
    requires Traced(t, log) && VrClients.Increasing(log + Stamped(view, reqs), 0)
    ensures UpdatableAll(t, reqs)
  {
    if reqs != [] {
      var n := |reqs| - 1;
      var before, all, u := log + Stamped(view, reqs[..n]), log + Stamped(view, reqs), UpdateAll(t, reqs[..n]);
      assert forall i :: 0 <= i < |before| ==> before[i] == all[i];
      assert all[|before|] == Entry(view, reqs[n]);
      IncreasingUpdatable(t, log, view, reqs[..n]);
      UpdateAllTraced(t, log, view, reqs[..n]);
      if reqs[n].clientId in u {
        var i :| 0 <= i < |before| && LastOf(u, reqs[n].clientId, before[i]);
        assert all[i].req.reqId < all[|before|].req.reqId;
      }
    }
  }

  ghost predicate FollowerTraced(c: Config, k: nat, r: Replica) {
    k != c.Leader(0) ==> r.lastOp == |r.log| && Traced(r.table, r.log)
  }

  lemma PrepareTraced(c: Config, me: nat, r: Replica, m: Message)
    requires m.Prepare? && me != c.Leader(0) && FollowerTraced(c, me, r)
    ensures FollowerTraced(c, me, HandlePrepare(c, me, r, m).r)
  {
    hide Traced, UpdatableAll, UpdateAll;
    var from := r.lastOp + 1 - m.batchStart;
    if 0 <= from <= |m.reqs| { UpdateAllTraced(r.table, r.log, m.view, m.reqs[from..]); }
  }

  lemma CommitTraced(c: Config, me: nat, r: Replica, m: Message)
    requires m.Commit? && me != c.Leader(0) && FollowerTraced(c, me, r)
    ensures FollowerTraced(c, me, HandleCommit(c, me, r, m).r)
  {
    hide Traced, RecordedAll;
    if r.committed < m.opnum <= |r.log| { RecordedAllTraced(r.table, r.log, r.committed, m.opnum, c.app); }
  }

  lemma HandledTraced(c: Config, s: State, e: Event)
    requires AllFirst(s) && !e.ViewChangeTimer? && e.r < |s.reps| && e.r != c.Leader(0)
    requires FollowerTraced(c, e.r, s.reps[e.r])
    ensures FollowerTraced(c, e.r, Handle(c, s, e).r)
  {
    var r := s.reps[e.r];
    assert First(r);
    hide HandlePrepare, HandleCommit, FollowerTraced;
    if e.Deliver? && e.m in s.msgs && Addressed(c, e.m, e.r) {
      if e.m.Prepare? { PrepareTraced(c, e.r, r, e.m); }
      if e.m.Commit? { CommitTraced(c, e.r, r, e.m); }
    }
  }

  lemma {:induction false} RunTraced(c: Config, events: seq<Event>, k: nat)
    requires Quiet(events) && k < c.N() && k != c.Leader(0)
    ensures |Run(c, events).reps| == c.N() && FollowerTraced(c, k, Run(c, events).reps[k])
    decreases |events|
  {
    VrHistory.RunSize(c, events);
    if events != [] {
      var n := |events| - 1;
      RunTraced(c, events[..n], k);
      RunFirst(c, events[..n]);
      hide Handle, FollowerTraced, AllFirst;
      if events[n].r == k {
        HandledTraced(c, Run(c, events[..n]), events[n]);
      }
    }
  }

  /** The leader's log has increasing request ids for each client. */
  lemma LeaderIncreasing(c: Config, events: seq<Event>)
    requires Quiet(events)
    ensures |Run(c, events).reps| == c.N() && VrClients.Increasing(Run(c, events).reps[c.Leader(0)].log, 0)
  {
    VrHistory.RunSize(c, events);
    RunFirst(c, events);
    assert events[..0] == [] && Run(c, []).reps[c.Leader(0)] == FRESH;
    VrClients.LeaderAppendsIncrease(c, events, 0, c.Leader(0));
  }

  /** In the first view the log of a follower without gaps is a prefix of the leader's. */
  lemma FirstPrefix(c: Config, s: State, k: nat)
    requires VrInvariant.Inv(c, s) && AllFirst(s) && k < c.N() && s.reps[k].lastOp == |s.reps[k].log|
    ensures |s.reps| == c.N() && 0 in s.hist.elections && s.reps[c.Leader(0)].log == s.hist.elections[0].cur
    ensures s.reps[k].log <= s.hist.elections[0].cur
  {
    var r, l := s.reps[k], s.reps[c.Leader(0)];
    assert VrInvariant.RepOK(c, s, k, r) && VrInvariant.RepOK(c, s, c.Leader(0), l) && First(r) && First(l);
    hide VrInvariant.Inv, VrInvariant.VoteOK, VrInvariant.Settled, VrInvariant.CollectedOK, AllFirst, First;
  }

  lemma MessageOK(c: Config, s: State, m: Message)
    requires VrInvariant.Inv(c, s) && m in s.msgs
    ensures VrInvariant.MsgOK(c, s.hist, m)
  {
    hide VrInvariant.RepOK, VrInvariant.MsgOK, VrInvariant.ElectionsOK, VrInvariant.HeldOK, VrInvariant.VotesOK;
  }

  /** What a Prepare message adds to a follower is the next part of the leader's log. */
  lemma PrepareContinues(c: Config, s: State, k: nat, m: Message)
    requires VrInvariant.Inv(c, s) && AllFirst(s) && k < c.N() && m in s.msgs && m.Prepare? && m.view == 0
    requires var r := s.reps[k]; r.lastOp == |r.log| && m.batchStart <= r.lastOp + 1 <= m.opnum
    ensures s.reps[k].log + Stamped(0, VrAsserts.NewRequests(s.reps[k], m)) <= s.reps[c.Leader(0)].log
  {
    hide VrInvariant.Inv, AllFirst;
    FirstPrefix(c, s, k);
    MessageOK(c, s, m);
    Continues(c, s.hist, s.reps[k], m);
  }

  lemma Continues(c: Config, h: History, r: Replica, m: Message)
    requires 0 in h.elections && r.log <= h.elections[0].cur && r.lastOp == |r.log|
    requires m.Prepare? && m.view == 0 && VrInvariant.MsgOK(c, h, m) && m.batchStart <= r.lastOp + 1 <= m.opnum
    ensures r.log + Stamped(0, VrAsserts.NewRequests(r, m)) <= h.elections[0].cur
  {
    var from, cur := r.lastOp + 1 - m.batchStart, h.elections[0].cur;
    assert VrAsserts.NewRequests(r, m) == m.reqs[from..];
    var all := r.log + Stamped(0, m.reqs[from..]);
    forall i | 0 <= i < |all| ensures i < |cur| && all[i] == cur[i] {
      if i >= |r.log| { assert all[i] == Entry(0, m.reqs[from + i - |r.log|]); }
    }
  }

  lemma PrefixIncreasing(a: Log, b: Log)
    requires a <= b && VrClients.Increasing(b, 0)
    ensures VrClients.Increasing(a, 0)
  {
    assert forall i :: 0 <= i < |a| ==> a[i] == b[i];
  }

  /** In a run without a view change no assertion of a handler fails, whatever message arrives where it is addressed. */
  lemma QuietNeverStops(c: Config, events: seq<Event>, me: nat, m: Message, junk: nat)
    requires Quiet(events) && m in Run(c, events).msgs && Addressed(c, m, me) && me < c.N()
    ensures |Run(c, events).reps| == c.N() && WellFormed(Run(c, events).reps[me])
    ensures Receive(c, me, Run(c, events).reps[me], m, junk).Ok?
  {
    var s := Run(c, events);
    QuietIsCareful(c, events);
    VrRuns.RunOK(c, events);
    RunFirst(c, events);
    var r := s.reps[me];
    VrRuns.ReplicaWellFormed(c, s, me);
    VrAsserts.StopsExactly(c, events, me, m, junk);
    assert First(r);
    hide Run, Careful, Receive, VrInvariant.Inv, AllFirst, WellFormed, UpdatableAll, Traced, VrClients.Increasing, VrAsserts.NewRequests;
    if m.Prepare? && VrAsserts.Stops(c, r, m) {
      RunTraced(c, events, me);
      PrepareContinues(c, s, me, m);
      LeaderIncreasing(c, events);
      var added := VrAsserts.NewRequests(r, m);
      PrefixIncreasing(r.log + Stamped(0, added), s.reps[c.Leader(0)].log);
      IncreasingUpdatable(r.table, r.log, 0, added);
      assert false;
    }
  }

  // ---- Requests of clients ----

  /** The leader has closed no batch beyond its log. */
  predicate Batched(r: Replica) { r.lastOp == |r.log| && r.batchEnd <= r.lastOp }

  lemma HandledBatched(c: Config, s: State, e: Event)
    requires AllFirst(s) && !e.ViewChangeTimer? && e.r < |s.reps| && e.r == c.Leader(0) && Batched(s.reps[e.r])
    ensures Batched(Handle(c, s, e).r)
  {
    var r := s.reps[e.r];
    assert First(r);
    hide Requests, RecordedAll, Update, Old;
    if e.Deliver? && e.m in s.msgs && Addressed(c, e.m, e.r) && WellFormed(r) {
      LeaderReceives(c, e.r, r, e.m, e.junk);
      hide Receive;
    }
  }

  lemma LeaderReceives(c: Config, me: nat, r: Replica, m: Message, junk: nat)
    requires First(r) && WellFormed(r) && me == c.Leader(0) && !m.StartViewChange? && !m.DoViewChange? && !m.StartView?
    requires Addressed(c, m, me)
    ensures var r' := Receive(c, me, r, m, junk).r; r'.lastOp == r.lastOp && r'.log == r.log && r'.batchEnd == r.batchEnd
  {
    hide RecordedAll, Requests, UpdateAll, UpdatableAll;
  }

  lemma {:induction false} RunBatched(c: Config, events: seq<Event>)
    requires Quiet(events)
    ensures |Run(c, events).reps| == c.N() && Batched(Run(c, events).reps[c.Leader(0)])
    decreases |events|
  {
    VrHistory.RunSize(c, events);
    if events != [] {
      var n := |events| - 1;
      RunBatched(c, events[..n]);
      RunFirst(c, events[..n]);
      hide Handle, Batched, AllFirst;
      if events[n].r == c.Leader(0) {
        HandledBatched(c, Run(c, events[..n]), events[n]);
      }
    }
  }

  /** Nor does a client's request stop a replica. */
  lemma QuietRequestNeverStops(c: Config, events: seq<Event>, me: nat, req: Request, up: Upcall)
    requires Quiet(events) && me < c.N()
    ensures |Run(c, events).reps| == c.N()
    ensures HandleRequest(c, me, Run(c, events).reps[me], req, up).Ok?
  {
    QuietIsCareful(c, events);
    RunFirst(c, events);
    RunBatched(c, events);
    VrAsserts.RequestStopsExactly(c, events, me, req, up);
    var r := Run(c, events).reps[me];
    assert First(r);
    hide Run, Careful, AllFirst, HandleRequest, Old, Update;
  }
}
