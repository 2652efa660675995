/**
 Runs of the group: the invariant holds in every state of a careful run, and what
 follows from it can be stated about replicas alone.
 */
module VrRuns {
  import opened Quorums
  import opened VrTypes
  import opened VrTable
  import opened VrLog
  import opened VrReplica
  import opened VrProtocol
  import opened VrInvariant
  import opened VrSafety
  import opened VrSteps
  import opened VrHandlers
  import opened VrViewChange

  // ---- Every step keeps the invariant ----

  lemma ReplicaWellFormed(c: Config, s: State, me: nat)
    requires me < |s.reps| && RepOK(c, s, me, s.reps[me])
    ensures WellFormed(s.reps[me])
  {
  }

  lemma InvWellFormed(c: Config, s: State, me: nat)
    requires Inv(c, s) && me < |s.reps|
    ensures WellFormed(s.reps[me])
  {
    assert RepOK(c, s, me, s.reps[me]);
    hide Inv;
    ReplicaWellFormed(c, s, me);
  }

  lemma ApplyMoves(c: Config, s: State, e: Event)
    requires e.r < |s.reps|
    ensures var o := Handle(c, s, e);
      Apply(c, s, e) == Moved(c, s, e.r, o.r, o.out, Ballots(s, e))
  {
    hide Handle, Ballots, Record;
  }

  /** A replica that does nothing, or stops before it has sent anything. */
  lemma IdleStepOK(c: Config, s: State, me: nat, ballots: map<nat, Vote>)
    requires Inv(c, s) && me < |s.reps|
    ensures Inv(c, Moved(c, s, me, s.reps[me], {}, ballots))
  {
    assert RepOK(c, s, me, s.reps[me]);
    Idles(c, s, me, s.reps[me]);
    hide Inv;
    Stays(c, s, me, s.reps[me], {}, ballots);
  }

  lemma BatchTimerStepOK(c: Config, s: State, me: nat, ballots: map<nat, Vote>)
    requires Inv(c, s) && me < |s.reps| && s.reps[me].normal && c.Leader(s.reps[me].view) == me
    ensures var o := CloseBatch(s.reps[me]); Inv(c, Moved(c, s, me, o.r, o.out, ballots))
  {
    hide Inv, RepOK, Record, Moved, StaysOK;
    var was := s.reps[me];
    InvRepOK(c, s, me);
    if CloseBatch(was).Ok? {
      BatchTimerStays(c, s, me, was);
      Stays(c, s, me, CloseBatch(was).r, CloseBatch(was).out, ballots);
    } else {
      IdleStepOK(c, s, me, ballots);
    }
  }

  lemma RequestStepOK(c: Config, s: State, me: nat, req: Request, up: Upcall, ballots: map<nat, Vote>)
    requires Inv(c, s) && me < |s.reps|
    ensures var o := HandleRequest(c, me, s.reps[me], req, up); Inv(c, Moved(c, s, me, o.r, o.out, ballots))
  {
    hide Inv, Record, CloseBatch, Update, Old;
    if HandleRequest(c, me, s.reps[me], req, up).Ok? {
      hide HandleRequest;
      RequestOK(c, s, me, req, up, ballots);
    } else {
      IdleStepOK(c, s, me, ballots);
    }
  }

  lemma TimerStepOK(c: Config, s: State, e: Event)
    requires Inv(c, s) && e.r < |s.reps| && !e.Deliver?
    ensures Inv(c, Apply(c, s, e))
  {
    hide Inv, RepOK, Ballots, Record, Apply, Moved, HandleRequest, CloseBatch, SendNullCommit, HandleTimeout;
    var me, ballots := e.r, Ballots(s, e);
    var was := s.reps[me];
    InvWellFormed(c, s, me);
    ApplyMoves(c, s, e);
    match e
    case ClientRequest(_, req, up) => RequestStepOK(c, s, me, req, up, ballots);
    case BatchTimer(_) =>
      if was.normal && c.Leader(was.view) == me {
        BatchTimerStepOK(c, s, me, ballots);
      } else {
        IdleStepOK(c, s, me, ballots);
      }
    case NullCommitTimer(_) => NullCommitStepOK(c, s, me, ballots);
    case ViewChangeTimer(_) => TimeoutOK(c, s, me, ballots);
  }

  lemma NullCommitStepOK(c: Config, s: State, me: nat, ballots: map<nat, Vote>)
    requires Inv(c, s) && me < |s.reps|
    ensures var o := SendNullCommit(c, me, s.reps[me]); Inv(c, Moved(c, s, me, o.r, o.out, ballots))
  {
    hide Inv, RepOK, Record, Moved, SendNullCommit, StaysOK;
    InvRepOK(c, s, me);
    NullCommitStays(c, s, me, s.reps[me]);
    Stays(c, s, me, SendNullCommit(c, me, s.reps[me]).r, SendNullCommit(c, me, s.reps[me]).out, ballots);
  }

  lemma AcksReceived(c: Config, s: State, me: nat, was: Replica, m: Message)
    requires CollectedOK(s, was, me) && m in s.msgs && m.PrepareOK?
    requires forall m :: m in s.msgs ==> MsgOK(c, s.hist, m)
    ensures forall k :: k in Acks(was, m) ==> MsgOK(c, s.hist, PrepareOK(m.view, m.opnum, k))
  {
  }

  lemma PrepareOKStepOK(c: Config, s: State, me: nat, m: Message, ballots: map<nat, Vote>)
    requires Inv(c, s) && me < |s.reps| && m in s.msgs && m.PrepareOK?
    requires HandlePrepareOK(c, me, s.reps[me], m).Ok?
    requires var r, was := HandlePrepareOK(c, me, s.reps[me], m).r, s.reps[me];
      was.committed < r.committed <= |was.log| ==> was.log[r.committed - 1].view == was.view
    ensures var o := HandlePrepareOK(c, me, s.reps[me], m); Inv(c, Moved(c, s, me, o.r, o.out, ballots))
  {
    var was := s.reps[me];
    var o := HandlePrepareOK(c, me, was, m);
    assert RepOK(c, s, me, was) && HeldOK(c, s.hist);
    AcksReceived(c, s, me, was, m);
    PrepareOKStays(c, s, me, was, m);
    hide Inv, RepOK, HandlePrepareOK;
    Stays(c, s, me, o.r, o.out, ballots);
  }

  lemma CommitStepOK(c: Config, s: State, me: nat, m: Message, ballots: map<nat, Vote>)
    requires Inv(c, s) && me < |s.reps| && m in s.msgs && m.Commit? && HandleCommit(c, me, s.reps[me], m).Ok?
    ensures var o := HandleCommit(c, me, s.reps[me], m); Inv(c, Moved(c, s, me, o.r, o.out, ballots))
  {
    var was := s.reps[me];
    var o := HandleCommit(c, me, was, m);
    assert RepOK(c, s, me, was) && MsgOK(c, s.hist, m);
    CommitStays(c, s, me, was, m);
    hide Inv, RepOK, HandleCommit;
    Stays(c, s, me, o.r, o.out, ballots);
  }

  /** The handlers of the normal case send nothing before they stop. */
  lemma StopsSilently(c: Config, me: nat, r: Replica, m: Message, junk: nat)
    requires WellFormed(r) && (m.Prepare? || m.PrepareOK? || m.Commit? || m.StartViewChange?)
    ensures Receive(c, me, r, m, junk).Crash? ==> Receive(c, me, r, m, junk) == Crash(r, {})
  {
    hide UpdatableAll, UpdateAll, RecordedAll, Requests, OfferLog, SvcVotes, Dump;
  }

  lemma NormalStepOK(c: Config, s: State, e: Event)
    requires Inv(c, s) && e.r < |s.reps| && e.Deliver? && CarefulStep(c, s, e) && e.m in s.msgs && Addressed(c, e.m, e.r)
    requires e.m.Prepare? || e.m.PrepareOK? || e.m.Commit? || e.m.StartViewChange?
    ensures var o := Handle(c, s, e); Inv(c, Moved(c, s, e.r, o.r, o.out, Ballots(s, e)))
  {
    hide Inv, RepOK, Ballots, Record, Moved, HandlePrepare, HandlePrepareOK, HandleCommit, HandleStartViewChange;
    var me, ballots, m := e.r, Ballots(s, e), e.m;
    InvWellFormed(c, s, me);
    StopsSilently(c, me, s.reps[me], m, e.junk);
    hide WellFormed;
    if Handle(c, s, e).Crash? {
      IdleStepOK(c, s, me, ballots);
    } else {
      match m
      case Prepare(_, _, _, _) => PrepareStepOK(c, s, me, m, ballots);
      case PrepareOK(_, _, _) => PrepareOKStepOK(c, s, me, m, ballots);
      case Commit(_, _) => CommitStepOK(c, s, me, m, ballots);
      case StartViewChange(_, _, _) => StartViewChangeStepOK(c, s, me, m, ballots);
    }
  }

  lemma DeliverStepOK(c: Config, s: State, e: Event)
    requires Inv(c, s) && e.r < |s.reps| && e.Deliver? && CarefulStep(c, s, e) && e.m in s.msgs && Addressed(c, e.m, e.r)
    ensures var o := Handle(c, s, e); Inv(c, Moved(c, s, e.r, o.r, o.out, Ballots(s, e)))
  {
    hide Inv, RepOK, Ballots, Record, Moved, HandlePrepare, HandlePrepareOK, HandleCommit,
      HandleStartViewChange, HandleDoViewChange, HandleStartView;
    var me, ballots, m := e.r, Ballots(s, e), e.m;
    InvWellFormed(c, s, me);
    if m.DoViewChange? {
      DoViewChangeStepOK(c, s, e, me, m, e.junk);
    } else if m.StartView? {
      StartViewStepOK(c, s, me, m, ballots);
    } else {
      NormalStepOK(c, s, e);
    }
  }

  lemma UndeliveredOK(c: Config, s: State, e: Event)
    requires Inv(c, s) && e.r < |s.reps| && e.Deliver? && !(e.m in s.msgs && Addressed(c, e.m, e.r))
    ensures var o := Handle(c, s, e); Inv(c, Moved(c, s, e.r, o.r, o.out, Ballots(s, e)))
  {
    hide Inv, WellFormed, Moved, Ballots, Addressed, Handle;
    InvWellFormed(c, s, e.r);
    Undelivered(c, s, e);
    IdleStepOK(c, s, e.r, Ballots(s, e));
  }

  lemma Undelivered(c: Config, s: State, e: Event)
    requires e.r < |s.reps| && WellFormed(s.reps[e.r]) && e.Deliver? && !(e.m in s.msgs && Addressed(c, e.m, e.r))
    ensures Handle(c, s, e) == Ok(s.reps[e.r], {})
  {
    hide Receive, WellFormed, Addressed;
  }

  lemma StepOK(c: Config, s: State, e: Event)
    requires Inv(c, s) && CarefulStep(c, s, e)
    ensures Inv(c, Apply(c, s, e))
  {
    hide Inv, Handle, CarefulStep, Moved, Ballots, Addressed;
    if e.r < |s.reps| {
      hide Apply;
      if !e.Deliver? {
        TimerStepOK(c, s, e);
      } else {
        ApplyMoves(c, s, e);
        if e.m in s.msgs && Addressed(c, e.m, e.r) {
          DeliverStepOK(c, s, e);
        } else {
          UndeliveredOK(c, s, e);
        }
      }
    }
  }

  /** The invariant holds at the end of every careful run. */
  lemma {:induction false} RunOK(c: Config, events: seq<Event>)
    requires Careful(c, events)
    ensures Inv(c, Run(c, events))
    decreases |events|
  {
    if events == [] {
      InitOK(c);
    } else {
      var n := |events| - 1;
      CarefulPrefix(c, events, n);
      RunOK(c, events[..n]);
      assert CarefulStep(c, Run(c, events[..n]), events[n]);
      StepOK(c, Run(c, events[..n]), events[n]);
    }
  }

  lemma CarefulPrefix(c: Config, events: seq<Event>, n: nat)
    requires Careful(c, events) && n <= |events|
    ensures Careful(c, events[..n])
  {
    forall i | 0 <= i < n ensures CarefulStep(c, Run(c, events[..n][..i]), events[..n][i]) {
      assert events[..n][..i] == events[..i];
    }
  }

  // ---- What the invariant says about replicas ----

  ghost predicate Comparable<T>(a: seq<T>, b: seq<T>) { a <= b || b <= a }

  /** Whatever is settled is part of one growing log. */
  lemma SettledComparable(c: Config, h: History, a: Log, ba: nat, b: Log, bb: nat)
    requires ElectionsOK(c, h) && HeldOK(c, h)
    requires Settled(c, h, a, ba) && Settled(c, h, b, bb)
    ensures Comparable(a, b)
  {
    if a != [] && b != [] {
      var v: nat, i: nat :| v < ba && Chosen(c, h, v, i) && a <= h.elections[v].cur[..i];
      var w: nat, j: nat :| w < bb && Chosen(c, h, w, j) && b <= h.elections[w].cur[..j];
      if v <= w { SettledTogether(c, h, a, v, i, b, w, j); } else { SettledTogether(c, h, b, w, j, a, v, i); }
    }
  }

  lemma SettledTogether(c: Config, h: History, a: Log, v: nat, i: nat, b: Log, w: nat, j: nat)
    requires ElectionsOK(c, h) && HeldOK(c, h) && v <= w
    requires Chosen(c, h, v, i) && a <= h.elections[v].cur[..i]
    requires Chosen(c, h, w, j) && b <= h.elections[w].cur[..j]
    ensures Comparable(a, b)
  {
    ChosenInView(c, h, a, v, i, w);
    hide ElectionsOK, HeldOK;
    PrefixesComparable(a, b, h.elections[w].cur);
  }

  lemma BaseIsPrefix(c: Config, h: History, w: nat)
    requires ElectionsOK(c, h) && w in h.elections
    ensures h.elections[w].base <= h.elections[w].cur
  {
    assert ElectionOK(c, h, w);
  }

  /** A prefix of what is chosen in a view is in the log of that view and of every later one. */
  lemma ChosenInView(c: Config, h: History, log: Log, v: nat, i: nat, w: nat)
    requires ElectionsOK(c, h) && HeldOK(c, h) && v <= w && w in h.elections
    requires Chosen(c, h, v, i) && log <= h.elections[v].cur[..i]
    ensures log <= h.elections[w].cur
  {
    hide ElectionsOK, HeldOK, Holders;
    BaseIsPrefix(c, h, w);
    if v < w { ChosenSurvives(c, h, v, i, w); }
  }

  lemma PrefixesComparable<T>(a: seq<T>, b: seq<T>, whole: seq<T>)
    requires a <= whole && b <= whole
    ensures Comparable(a, b)
  {
    assert a == whole[..|a|] && b == whole[..|b|];
  }

  lemma RequestsOfPrefix(a: Log, b: Log)
    requires a <= b
    ensures Requests(a) <= Requests(b)
  {
  }

  lemma AgreeIn(c: Config, s: State, j: nat, k: nat)
    requires Inv(c, s) && j < c.N() && k < c.N()
    ensures |s.reps| == c.N() && Comparable(s.reps[j].executed, s.reps[k].executed)
  {
    CommittedPart(c, s, j, s.reps[j]);
    CommittedPart(c, s, k, s.reps[k]);
    var a, b := s.reps[j].log[..s.reps[j].committed], s.reps[k].log[..s.reps[k].committed];
    SettledComparable(c, s.hist, a, Bound(s.reps[j]), b, Bound(s.reps[k]));
    if a <= b { RequestsOfPrefix(a, b); } else { RequestsOfPrefix(b, a); }
  }

  /** Any two replicas have executed comparable sequences of requests: one is a prefix of the other. */
  lemma Agreement(c: Config, events: seq<Event>, j: nat, k: nat)
    requires Careful(c, events) && j < c.N() && k < c.N()
    ensures |Run(c, events).reps| == c.N()
    ensures Comparable(Run(c, events).reps[j].executed, Run(c, events).reps[k].executed)
  {
    hide Run, Careful, Inv;
    RunOK(c, events);
    AgreeIn(c, Run(c, events), j, k);
  }

  lemma MatchIn(c: Config, s: State, j: nat, k: nat)
    requires Inv(c, s) && j < c.N() && k < c.N()
    ensures |s.reps| == c.N() && Matching(s.reps[j].log, s.reps[k].log)
  {
    CommittedPart(c, s, j, s.reps[j]);
    CommittedPart(c, s, k, s.reps[k]);
    LogsMatch(s.hist.elections, s.reps[j].log, s.reps[k].log);
  }

  /** The logs of any two replicas match: an equal view at one opnum means equal logs up to that opnum. */
  lemma LogMatching(c: Config, events: seq<Event>, j: nat, k: nat)
    requires Careful(c, events) && j < c.N() && k < c.N()
    ensures |Run(c, events).reps| == c.N()
    ensures Matching(Run(c, events).reps[j].log, Run(c, events).reps[k].log)
  {
    hide Run, Careful, Inv;
    RunOK(c, events);
    MatchIn(c, Run(c, events), j, k);
  }

  /** `leader` leads its view in normal status. */
  predicate IsLeading(c: Config, s: State, leader: nat)
    requires leader < |s.reps|
  {
    s.reps[leader].normal && c.Leader(s.reps[leader].view) == leader
  }

  lemma LeaderHasIn(c: Config, s: State, leader: nat, k: nat)
    requires Inv(c, s) && leader < |s.reps| && k < |s.reps|
    requires IsLeading(c, s, leader) && s.reps[k].view <= s.reps[leader].view
    ensures s.reps[k].executed <= Requests(s.reps[leader].log)
  {
    var l, r := s.reps[leader], s.reps[k];
    CommittedPart(c, s, k, r);
    assert RepOK(c, s, leader, l);
    var done := r.log[..r.committed];
    SettledInLeader(c, s.hist, done, Bound(r), l.view);
    RequestsOfPrefix(done, l.log);
  }

  /** What a replica has executed is in the log of every leader of the same view or a later one. */
  lemma LeaderHasExecuted(c: Config, events: seq<Event>, leader: nat, k: nat)
    requires Careful(c, events) && leader < c.N() && k < c.N()
    requires |Run(c, events).reps| == c.N()
    requires IsLeading(c, Run(c, events), leader) && Run(c, events).reps[k].view <= Run(c, events).reps[leader].view
    ensures Run(c, events).reps[k].executed <= Requests(Run(c, events).reps[leader].log)
  {
    hide Run, Careful, Inv;
    RunOK(c, events);
    LeaderHasIn(c, Run(c, events), leader, k);
  }

  lemma SettledInLeader(c: Config, h: History, done: Log, b: nat, w: nat)
    requires ElectionsOK(c, h) && HeldOK(c, h) && w in h.elections
    requires Settled(c, h, done, b) && b <= w + 1
    ensures done <= h.elections[w].cur
  {
    if done != [] {
      var v: nat, i: nat :| v < b && Chosen(c, h, v, i) && done <= h.elections[v].cur[..i];
      ChosenInView(c, h, done, v, i, w);
    }
  }

  /**
   In one view, the log of a follower is a prefix of its leader's. The exception is a log
   left over from an older view: a follower that accepts an empty StartView keeps its
   entries and sets its last opnum to 0, so its last opnum is not the length of its log.
   */
  ghost predicate FollowsLeader(l: Replica, r: Replica) {
    && r.committed <= r.lastOp <= l.lastOp
    && (r.lastOp == |r.log| ==> r.log <= l.log)
    && (r.lastOp != |r.log| ==> r.lastOp == 0 && r.executed == [] && LastView(r.log) < r.view)
  }

  lemma FollowsIn(c: Config, s: State, leader: nat, k: nat)
    requires Inv(c, s) && leader < |s.reps| && k < |s.reps|
    requires IsLeading(c, s, leader) && s.reps[k].normal && s.reps[k].view == s.reps[leader].view
    ensures FollowsLeader(s.reps[leader], s.reps[k])
  {
    var l, r := s.reps[leader], s.reps[k];
    assert RepOK(c, s, leader, l) && RepOK(c, s, k, r);
    if r.lastOp > 0 { assert Held(s.hist, r.view, k) <= Held(s.hist, r.view, c.Leader(r.view)); }
    if r.lastOp != |r.log| {
      assert Stale(s.hist.elections, r.log, r.view + 1);
    }
  }

  lemma FollowerIsPrefix(c: Config, events: seq<Event>, leader: nat, k: nat)
    requires Careful(c, events) && leader < c.N() && k < c.N()
    requires |Run(c, events).reps| == c.N() && IsLeading(c, Run(c, events), leader)
    requires Run(c, events).reps[k].normal && Run(c, events).reps[k].view == Run(c, events).reps[leader].view
    ensures FollowsLeader(Run(c, events).reps[leader], Run(c, events).reps[k])
  {
    hide Run, Careful, Inv;
    RunOK(c, events);
    FollowsIn(c, Run(c, events), leader, k);
  }
}
