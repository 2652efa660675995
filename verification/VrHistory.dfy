/**
 What stays from one state of a run to every later one: executed requests, what was
 chosen, and the logs of views. With it, statements about replicas in different
 states of a run.
 */
module VrHistory {
  import opened Quorums
  import opened VrTypes
  import opened VrTable
  import opened VrLog
  import opened VrReplica
  import opened VrProtocol
  import opened VrInvariant
  import opened VrSafety
  import opened VrViewChange
  import opened VrRuns

  /** No handler moves a replica backwards. */
  ghost predicate Steady(was: Replica, r: Replica) {
    && was.view <= r.view
    && was.executed <= r.executed
    && (r.view == was.view && was.normal ==> r.normal && was.log <= r.log && was.lastOp <= r.lastOp)
    && (r.view == was.view && !r.normal ==>
          !was.normal && r.log == was.log && r.lastOp == was.lastOp && r.committed == was.committed)
  }

  lemma RequestSteady(c: Config, me: nat, r: Replica, req: Request, up: Upcall)
    ensures var o := HandleRequest(c, me, r, req, up); Steady(r, o.r)
  {
  }

  lemma PrepareSteady(c: Config, me: nat, r: Replica, m: Message)
    requires m.Prepare?
    ensures var o := HandlePrepare(c, me, r, m); Steady(r, o.r)
  {
  }

  lemma PrepareOKSteady(c: Config, me: nat, r: Replica, m: Message)
    requires m.PrepareOK?
    ensures var o := HandlePrepareOK(c, me, r, m); Steady(r, o.r)
  {
  }

  lemma StartViewChangeSteady(c: Config, me: nat, r: Replica, m: Message)
    requires m.StartViewChange?
    ensures var o := HandleStartViewChange(c, me, r, m); Steady(r, o.r)
  {
  }

  lemma LeadSteady(c: Config, r: Replica, m: Message, votes: map<nat, Message>, junk: nat)
    requires m.DoViewChange? && votes != map[] && forall k :: k in votes ==> votes[k].DoViewChange?
    ensures var o := BecomeLeader(c, r, m, votes, junk);
      o.Ok? ==> o.r.view == m.view && o.r.normal && r.executed <= o.r.executed
  {
    hide Latest, StartFrom, Installed, Installable;
  }

  lemma DoViewChangeSteady(c: Config, me: nat, r: Replica, m: Message, junk: nat)
    requires m.DoViewChange? && WellFormed(r)
    ensures var o := HandleDoViewChange(c, me, r, m, junk); Steady(r, o.r)
  {
    if Bound(r) <= m.view && c.Leader(m.view) == me && |DvcVotes(r, m)| >= c.f {
      hide HandleDoViewChange, BecomeLeader, DvcVotes, WellFormed;
      QuorumSteady(c, me, r, m, junk);
    } else {
      hide BecomeLeader;
    }
  }

  lemma QuorumSteady(c: Config, me: nat, r: Replica, m: Message, junk: nat)
    requires m.DoViewChange? && WellFormed(r) && Bound(r) <= m.view && c.Leader(m.view) == me && |DvcVotes(r, m)| >= c.f
    ensures m.view in r.dvcVotes ==> forall k :: k in r.dvcVotes[m.view] ==> r.dvcVotes[m.view][k].DoViewChange?
    ensures var o := HandleDoViewChange(c, me, r, m, junk); Steady(r, o.r)
  {
    hide HandleDoViewChange, BecomeLeader, DvcVotes;
    QuorumCompletes(c, me, r, m, junk);
    if HandleDoViewChange(c, me, r, m, junk).Ok? {
      LeadSteady(c, Candidate(me, r, m), m, DvcVotes(r, m), junk);
    } else {
      QuorumStops(c, me, r, m, junk);
    }
  }

  lemma StartViewSteady(c: Config, me: nat, r: Replica, m: Message)
    requires m.StartView?
    ensures var o := HandleStartView(c, me, r, m); Steady(r, o.r)
  {
    hide Installed, Installable;
  }

  lemma DeliverSteady(c: Config, s: State, e: Event)
    requires e.r < |s.reps| && e.Deliver? && WellFormed(s.reps[e.r])
    ensures var o := Handle(c, s, e); Steady(s.reps[e.r], o.r)
  {
    var r, me, m := s.reps[e.r], e.r, e.m;
    match m
    case Prepare(_, _, _, _) => PrepareSteady(c, me, r, m);
    case PrepareOK(_, _, _) => PrepareOKSteady(c, me, r, m);
    case Commit(_, _) =>
    case StartViewChange(_, _, _) => StartViewChangeSteady(c, me, r, m);
    case DoViewChange(_, _, _, _, _, _) => DoViewChangeSteady(c, me, r, m, e.junk);
    case StartView(_, _, _, _) => StartViewSteady(c, me, r, m);
    hide HandlePrepare, HandlePrepareOK, HandleStartViewChange, HandleDoViewChange, HandleStartView;
  }

  lemma HandleSteady(c: Config, s: State, e: Event)
    requires e.r < |s.reps|
    ensures var o := Handle(c, s, e); Steady(s.reps[e.r], o.r)
  {
    var r := s.reps[e.r];
    if e.Deliver? && WellFormed(r) {
      DeliverSteady(c, s, e);
    } else if e.ClientRequest? {
      RequestSteady(c, e.r, r, e.req, e.up);
    }
    hide HandleRequest, HandlePrepare, HandlePrepareOK, HandleCommit, HandleStartViewChange, HandleDoViewChange,
      HandleStartView;
  }

  /** What a replica has executed it never takes back, in any run at all. */
  lemma {:induction false} ExecutedGrows(c: Config, events: seq<Event>, t: nat, k: nat)
    requires t <= |events| && k < c.N()
    ensures |Run(c, events[..t]).reps| == |Run(c, events).reps| == c.N()
    ensures Run(c, events[..t]).reps[k].executed <= Run(c, events).reps[k].executed
    ensures Run(c, events[..t]).reps[k].view <= Run(c, events).reps[k].view
    decreases |events|
  {
    if t == |events| {
      assert events[..t] == events;
      RunSize(c, events);
    } else {
      var n := |events| - 1;
      assert events[..n][..t] == events[..t];
      ExecutedGrows(c, events[..n], t, k);
      var s := Run(c, events[..n]);
      hide Handle, Run;
      StepGrows(c, s, events[n], k);
      RunStep(c, events);
    }
  }

  lemma RunStep(c: Config, events: seq<Event>)
    requires events != []
    ensures Run(c, events) == Apply(c, Run(c, events[..|events| - 1]), events[|events| - 1])
  {
    hide Apply;
  }

  lemma {:induction false} RunSize(c: Config, events: seq<Event>)
    ensures |Run(c, events).reps| == c.N()
    decreases |events|
  {
    if events != [] { RunSize(c, events[..|events| - 1]); }
  }

  lemma StepGrows(c: Config, s: State, e: Event, k: nat)
    requires k < |s.reps|
    ensures |Apply(c, s, e).reps| == |s.reps|
    ensures Steady(s.reps[k], Apply(c, s, e).reps[k]) || Apply(c, s, e).reps[k] == s.reps[k]
    ensures s.reps[k].executed <= Apply(c, s, e).reps[k].executed && s.reps[k].view <= Apply(c, s, e).reps[k].view
  {
    if e.r < |s.reps| { HandleSteady(c, s, e); }
    hide Handle;
  }

  /** Agreement across time: what one replica had executed by one state and another by a later one. */
  lemma AgreementOverTime(c: Config, events: seq<Event>, t: nat, j: nat, k: nat)
    requires Careful(c, events) && t <= |events| && j < c.N() && k < c.N()
    ensures |Run(c, events[..t]).reps| == |Run(c, events).reps| == c.N()
    ensures Comparable(Run(c, events[..t]).reps[j].executed, Run(c, events).reps[k].executed)
  {
    ExecutedGrows(c, events, t, j);
    ExecutedGrows(c, events, t, k);
    Agreement(c, events, j, k);
    hide Run, Careful;
    var a, b, d := Run(c, events[..t]).reps[j].executed, Run(c, events).reps[j].executed, Run(c, events).reps[k].executed;
    if b <= d { assert a <= d; } else { PrefixesComparable(a, d, b); }
  }

  // ---- The history only grows ----

  lemma VoteRecordedOnce(c: Config, s: State, me: nat, r: Replica)
    requires VotesOK(c, s) && me < |s.reps| && RepOK(c, s, me, s.reps[me]) && Steady(s.reps[me], r) && !r.normal
    ensures (r.view, me) in s.hist.votes ==> s.hist.votes[(r.view, me)] == Vote(r.log, r.lastOp, r.committed)
  {
    if (r.view, me) in s.hist.votes {
      assert CastOK(c, s, r.view, me, s.hist.votes[(r.view, me)]);
    }
    hide CastOK, VotersOK, Settled, VoteOK;
  }

  lemma RecordLater(c: Config, s: State, me: nat, r: Replica, ballots: map<nat, Vote>)
    requires VotesOK(c, s) && me < |s.reps| && RepOK(c, s, me, s.reps[me]) && Steady(s.reps[me], r)
    ensures Later(s.hist, Record(c, s.hist, me, r, ballots))
  {
    if !r.normal { VoteRecordedOnce(c, s, me, r); }
    hide VotesOK, Settled, VoteOK, CollectedOK;
  }

  lemma StepLater(c: Config, s: State, e: Event)
    requires Inv(c, s)
    ensures Later(s.hist, Apply(c, s, e).hist)
  {
    if e.r < |s.reps| {
      assert RepOK(c, s, e.r, s.reps[e.r]) && VotesOK(c, s);
      hide Inv, RepOK, VotesOK, Handle, Record, Ballots, Later, Steady, Apply;
      HandleSteady(c, s, e);
      ApplyMoves(c, s, e);
      var o := Handle(c, s, e);
      RecordLater(c, s, e.r, o.r, Ballots(s, e));
    } else {
      hide Later;
      LaterNever(s.hist);
    }
  }

  lemma LaterNever(h: History)
    ensures Later(h, h)
  {
  }

  lemma LaterTwice(a: History, b: History, d: History)
    requires Later(a, b) && Later(b, d)
    ensures Later(a, d)
  {
    forall v: nat, k: nat ensures Held(a, v, k) <= Held(d, v, k) {
      assert Held(a, v, k) <= Held(b, v, k) <= Held(d, v, k);
    }
  }

  lemma {:induction false} RunLater(c: Config, events: seq<Event>, t: nat)
    requires Careful(c, events) && t <= |events|
    ensures Later(Run(c, events[..t]).hist, Run(c, events).hist)
    decreases |events|
  {
    hide Run, Apply, Later, Inv;
    if t == |events| {
      assert events[..t] == events;
      LaterNever(Run(c, events).hist);
    } else {
      var n := |events| - 1;
      CarefulPrefix(c, events, n);
      hide Careful;
      RunOK(c, events[..n]);
      assert events[..n][..t] == events[..t];
      RunLater(c, events[..n], t);
      RunStep(c, events);
      StepLater(c, Run(c, events[..n]), events[n]);
      LaterTwice(Run(c, events[..t]).hist, Run(c, events[..n]).hist, Run(c, events).hist);
    }
  }

  /**
   What a replica has executed at any time is, ever after, in the log of whichever
   replica leads the view that replica was in then, or any later one.
   */
  lemma ExecutedSurvives(c: Config, events: seq<Event>, t: nat, k: nat, leader: nat)
    requires Careful(c, events) && t <= |events| && leader < c.N() && k < c.N()
    requires |Run(c, events[..t]).reps| == |Run(c, events).reps| == c.N()
    requires var l := Run(c, events).reps[leader];
      l.normal && c.Leader(l.view) == leader && Run(c, events[..t]).reps[k].view <= l.view
    ensures Run(c, events[..t]).reps[k].executed <= Requests(Run(c, events).reps[leader].log)
  {
    CarefulPrefix(c, events, t);
    RunOK(c, events[..t]);
    RunOK(c, events);
    RunLater(c, events, t);
    var s, s' := Run(c, events[..t]), Run(c, events);
    hide Run, Careful;
    var l, r := s'.reps[leader], s.reps[k];
    CommittedPart(c, s, k, r);
    assert RepOK(c, s', leader, l);
    hide Inv, RepOK;
    var done := r.log[..r.committed];
    SettledStable(c, s.hist, s'.hist, done, Bound(r), Bound(r));
    SettledInLeader(c, s'.hist, done, Bound(r), l.view);
    RequestsOfPrefix(done, l.log);
  }

  // ---- What replicas have held, they have been seen holding ----

  /** Replica `k` is in view `v` and holds its first `i` entries. */
  ghost predicate Holds(s: State, k: nat, v: nat, i: nat) {
    k < |s.reps| && s.reps[k].normal && s.reps[k].view == v && s.reps[k].lastOp == i
  }

  lemma StepHolds(c: Config, s: State, e: Event, v: nat, k: nat)
    ensures var s' := Apply(c, s, e);
      Held(s'.hist, v, k) == Held(s.hist, v, k) || Holds(s', k, v, Held(s'.hist, v, k))
  {
    hide Handle, Ballots;
  }

  lemma {:induction false} HeldWasSeen(c: Config, events: seq<Event>, v: nat, k: nat) returns (t: nat)
    requires Held(Run(c, events).hist, v, k) > 0
    ensures t <= |events| && Holds(Run(c, events[..t]), k, v, Held(Run(c, events).hist, v, k))
    decreases |events|
  {
    if Holds(Run(c, events), k, v, Held(Run(c, events).hist, v, k)) {
      t := |events|;
      assert events[..t] == events;
    } else if events != [] {
      var n := |events| - 1;
      RunStep(c, events);
      StepHolds(c, Run(c, events[..n]), events[n], v, k);
      t := HeldWasSeen(c, events[..n], v, k);
      assert events[..n][..t] == events[..t];
    }
  }

  lemma HoldsEntries(c: Config, s: State, k: nat, v: nat, i: nat)
    requires Inv(c, s) && Holds(s, k, v, i) && i > 0
    ensures v in s.hist.elections && |s.reps[k].log| == i && s.reps[k].log <= s.hist.elections[v].cur
  {
    assert RepOK(c, s, k, s.reps[k]);
  }

  /** At some time up to now, replica `j` was in view `v` with `reqs` at the head of its log. */
  ghost predicate HasHeld(c: Config, events: seq<Event>, j: nat, v: nat, reqs: seq<Request>) {
    exists t: nat :: t <= |events| && SeenHolding(Run(c, events[..t]), j, v, reqs)
  }

  ghost predicate SeenHolding(s: State, j: nat, v: nat, reqs: seq<Request>) {
    j < |s.reps| && s.reps[j].normal && s.reps[j].view == v && reqs <= Requests(s.reps[j].log)
  }

  /** A replica that holds enough of a view's log has at the head of its own what that log begins with. */
  lemma HoldsHead(c: Config, s: State, s': State, v: nat, i: nat, j: nat, n: nat, log: Log)
    requires Inv(c, s) && Later(s.hist, s'.hist) && Holds(s, j, v, n) && 0 < i <= n
    requires v in s'.hist.elections && i <= |s'.hist.elections[v].cur| && log <= s'.hist.elections[v].cur[..i]
    ensures SeenHolding(s, j, v, Requests(log))
  {
    hide Inv;
    HoldsEntries(c, s, j, v, n);
    assert log <= s.reps[j].log;
    RequestsOfPrefix(log, s.reps[j].log);
  }

  lemma HolderWasSeen(c: Config, events: seq<Event>, v: nat, i: nat, j: nat, log: Log)
    requires Careful(c, events) && i > 0
    requires v in Run(c, events).hist.elections && i <= |Run(c, events).hist.elections[v].cur|
    requires Held(Run(c, events).hist, v, j) >= i && log <= Run(c, events).hist.elections[v].cur[..i]
    ensures HasHeld(c, events, j, v, Requests(log))
  {
    hide Run, Careful, Inv, Later, Holds;
    var t := HeldWasSeen(c, events, v, j);
    CarefulPrefix(c, events, t);
    RunOK(c, events[..t]);
    RunLater(c, events, t);
    HoldsHead(c, Run(c, events[..t]), Run(c, events), v, i, j, Held(Run(c, events).hist, v, j), log);
    assert SeenHolding(Run(c, events[..t]), j, v, Requests(log));
  }

  /** Nothing is executed before a majority of the replicas has held it, together in one view. */
  lemma ExecutedWasHeld(c: Config, events: seq<Event>, k: nat) returns (v: nat, holders: set<nat>)
    requires Careful(c, events) && k < c.N()
    requires |Run(c, events).reps| == c.N() && Run(c, events).reps[k].executed != []
    ensures |holders| >= c.f + 1 && forall j :: j in holders ==> j < c.N()
    ensures v <= Run(c, events).reps[k].view
    ensures forall j :: j in holders ==> HasHeld(c, events, j, v, Run(c, events).reps[k].executed)
  {
    RunOK(c, events);
    var s := Run(c, events);
    var r := s.reps[k];
    CommittedPart(c, s, k, r);
    var done := r.log[..r.committed];
    var i: nat;
    v, i :| v < Bound(r) && Chosen(c, s.hist, v, i) && done <= s.hist.elections[v].cur[..i];
    holders := Holders(c, s.hist, v, i);
    forall j | j in holders ensures HasHeld(c, events, j, v, r.executed) {
      HolderWasSeen(c, events, v, i, j, done);
    }
  }
}
