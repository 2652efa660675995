/**
 Careful runs that reach each of the conditions of `VrAsserts`: a follower without room for a
 batch, a client table that is ahead of what a follower is to prepare or to acknowledge, and a
 log that starts too late for a new leader or for a follower; and one in which a new leader
 stops at a client's request. The groups have three replicas and send each request at once.
 */
module VrStops {
  import opened VrTypes
  import opened VrTable
  import opened VrLog
  import opened VrReplica
  import opened VrProtocol
  import opened VrRuns
  import opened VrProgress
  import opened VrLostCommit
  import VrAsserts
  import VrHistory

  // ---- Events, by what they do ----

  /** The replicas after a careful run, and what has been sent; none has collected DoViewChange messages. */
  ghost predicate Stage(events: seq<Event>, reps: seq<Replica>, sent: set<Message>) {
    Reaches(THREE, events, reps, sent) && |reps| == 3 && forall k :: 0 <= k < 3 ==> reps[k].dvcVotes == map[]
  }

  /** `me` receives `m` and becomes `r`; of what has been sent, `next` is still needed. */
  lemma Receives(events: seq<Event>, reps: seq<Replica>, sent: set<Message>, me: nat, m: Message, r: Replica, next: set<Message>)
    returns (more: seq<Event>)
    requires Stage(events, reps, sent) && me < 3 && m in sent && Addressed(THREE, m, me) && WellFormed(reps[me])
    requires Receive(THREE, me, reps[me], m, 0).Ok? && Receive(THREE, me, reps[me], m, 0).r == r && r.dvcVotes == map[]
    requires m.PrepareOK? && reps[me].committed < r.committed <= |reps[me].log| ==>
      reps[me].log[r.committed - 1].view == reps[me].view
    requires next <= sent + Receive(THREE, me, reps[me], m, 0).out
    ensures Stage(more, reps[me := r], next)
  {
    hide Receive, Addressed, WellFormed, Reaches;
    more := Arrives(THREE, events, reps, sent, me, m, r, Receive(THREE, me, reps[me], m, 0).out);
    Drops(more, reps[me := r], sent + Receive(THREE, me, reps[me], m, 0).out, next);
  }

  lemma Requested(events: seq<Event>, reps: seq<Replica>, me: nat, req: Request) returns (more: seq<Event>)
    requires Stage(events, reps, {}) && me < 3 && reps[me].view % 3 == me && reps[me].normal
    requires |reps[me].log| == reps[me].lastOp == reps[me].batchEnd && !Old(reps[me].table, req)
    ensures var was, n := reps[me], reps[me].lastOp + 1;
      Stage(more, reps[me := was.(log := was.log + [Entry(was.view, req)], lastOp := n, batchEnd := n, table := Update(was.table, req))],
            {Prepare(was.view, n, n, [req])})
  {
    var was, n := reps[me], reps[me].lastOp + 1;
    RequestTaken(me, reps[me], req);
    var o := HandleRequest(THREE, me, reps[me], req, Replicate(req.op));
    hide HandleRequest, Run, Careful, Update, Old;
    more := Happens(THREE, events, reps, {}, ClientRequest(me, req, Replicate(req.op)), o.r, o.out);
    Drops(more, reps[me := o.r], {} + o.out, {Prepare(was.view, n, n, [req])});
  }

  lemma TimedOut(events: seq<Event>, reps: seq<Replica>, me: nat) returns (more: seq<Event>)
    requires Stage(events, reps, {}) && me < 3 && !(reps[me].normal && reps[me].view % 3 == me)
    ensures Stage(more, reps[me := reps[me].(view := reps[me].view + 1, normal := false)],
                  {StartViewChange(reps[me].view + 1, me, reps[me].committed)})
  {
    var r := reps[me].(view := reps[me].view + 1, normal := false);
    var m := StartViewChange(reps[me].view + 1, me, reps[me].committed);
    NoneCollected(reps[me]);
    hide Run, Careful, WellFormed;
    more := Happens(THREE, events, reps, {}, ViewChangeTimer(me), r, {m});
    Drops(more, reps[me := r], {} + {m}, {m});
  }

  /** A replica joins a view change that it does not lead, and offers its log. */
  lemma Joined(events: seq<Event>, reps: seq<Replica>, me: nat, view: nat, k: nat, n: nat) returns (more: seq<Event>)
    requires Stage(events, reps, {StartViewChange(view, k, n)}) && me < 3 && me != k && view % 3 != me
    requires view !in reps[me].svcVotes && (view > reps[me].view || (view == reps[me].view && !reps[me].normal))
    ensures Stage(more, reps[me := reps[me].(view := view, normal := false, svcVotes := reps[me].svcVotes[view := map[k := n]])],
                  OfferOf(me, reps[me], view, n))
  {
    var m := StartViewChange(view, k, n);
    Offers(me, reps[me], view, k, n);
    assert Receive(THREE, me, reps[me], m, 0) == HandleStartViewChange(THREE, me, reps[me], m);
    var r := HandleStartViewChange(THREE, me, reps[me], m).r;
    hide HandleStartViewChange, Receive, Dump, LastView, Reaches, Least, WellFormed;
    assert WellFormed(reps[me]) by { NoneCollected(reps[me]); }
    more := Receives(events, reps, {m}, me, m, r, OfferOf(me, reps[me], view, n));
  }

  /** What such a replica sends. */
  function OfferOf(me: nat, r: Replica, view: nat, n: nat): set<Message> {
    {DoViewChange(view, LastView(r.log), r.lastOp, r.committed, me, Dump(r.log, Min(n, r.committed)))} +
    if r.normal || view > r.view then {StartViewChange(view, me, r.committed)} else {}
  }

  /** The leader-to-be joins; it tells the others unless it has already. */
  lemma Gathered(events: seq<Event>, reps: seq<Replica>, keep: set<Message>, me: nat, view: nat, k: nat, n: nat)
    returns (more: seq<Event>)
    requires Stage(events, reps, keep + {StartViewChange(view, k, n)}) && me < 3 && me != k && view % 3 == me
    requires view !in reps[me].svcVotes && (view > reps[me].view || (view == reps[me].view && !reps[me].normal))
    ensures Stage(more, reps[me := reps[me].(view := view, normal := false, svcVotes := reps[me].svcVotes[view := map[k := n]])],
                  keep + if reps[me].normal || view > reps[me].view then {StartViewChange(view, me, reps[me].committed)} else {})
  {
    var m := StartViewChange(view, k, n);
    Collects(me, reps[me], view, k, n);
    assert Receive(THREE, me, reps[me], m, 0) == HandleStartViewChange(THREE, me, reps[me], m);
    var r := HandleStartViewChange(THREE, me, reps[me], m).r;
    hide HandleStartViewChange, Receive, Reaches, Least, WellFormed;
    assert WellFormed(reps[me]) by { NoneCollected(reps[me]); }
    more := Receives(events, reps, keep + {m}, me, m, r,
                     keep + if reps[me].normal || view > reps[me].view then {StartViewChange(view, me, reps[me].committed)} else {});
  }

  lemma NoneCollected(r: Replica)
    requires r.dvcVotes == map[]
    ensures WellFormed(r)
  {
  }

  /** A leader whose own log is at least as new as the only vote it has. */
  lemma OwnStart(me: nat, r: Replica, view: nat, k: nat, d: Message, n: nat)
    requires THREE.Leader(view) == me && k < 3 && view == r.view && !r.normal && r.dvcVotes == map[]
    requires view in r.svcVotes && r.svcVotes[view] == map[k := n]
    requires d.DoViewChange? && d.view == view && d.from == k && !Newer(d.lastNormal, d.lastOp, LastView(r.log), |r.log|)
    requires r.committed <= |r.log|
    ensures var o := HandleDoViewChange(THREE, me, r, d, 0);
      && o.Ok? && o.r == EnterView(r, view).(lastOp := |r.log|)
      && StartView(view, |r.log|, r.committed, Dump(r.log, Min(Min(n, d.committed), r.committed))) in o.out
  {
    var votes := DvcVotes(r, d);
    assert votes == map[k := d] && |votes| == 1;
    OnlyVoteLoses(k, d, 3, r.log);
    OneVote(k, n);
    OneVote(k, d.committed);
    assert CommittedIn(votes) == map[k := d.committed];
    var r2 := r.(dvcVotes := r.dvcVotes[view := votes]);
    assert EnterView(r2.(log := r.log), view) == EnterView(r, view);
    hide Latest, Dump, LastView, Least, RecordedAll;
  }

  lemma {:induction false} OnlyVoteLoses(k: nat, d: Message, n: nat, own: Log)
    requires d.DoViewChange? && !Newer(d.lastNormal, d.lastOp, LastView(own), |own|)
    ensures Latest(map[k := d], n, own) == Own
  {
    if n > 0 {
      OnlyVoteLoses(k, d, n - 1, own);
    }
  }

  /** What such a leader is once it has entered the view. */
  function Entered(r: Replica): Replica {
    Replica(r.view, true, r.log, |r.log|, r.committed, r.lastOp, r.executed, r.table, map[], map[], map[])
  }

  lemma OwnReceived(me: nat, r: Replica, d: Message, n: nat)
    requires me < 3 && r.dvcVotes == map[] && d.DoViewChange? && d.from < 3
    requires d.view % 3 == me && d.view == r.view && !r.normal
    requires d.view in r.svcVotes && r.svcVotes[d.view] == map[d.from := n] && r.committed <= |r.log|
    requires d.lastNormal <= LastView(r.log) && d.lastOp <= |r.log|
    ensures Addressed(THREE, d, me) && WellFormed(r)
    ensures var o := Receive(THREE, me, r, d, 0);
      && o.Ok? && o.r == Entered(r)
      && StartView(d.view, |r.log|, r.committed, Dump(r.log, Min(Min(n, d.committed), r.committed))) in o.out
  {
    hide Dump, LastView, HandleDoViewChange;
    OwnStart(me, r, d.view, d.from, d, n);
    NoneCollected(r);
  }

  /** It starts the view with that log. */
  lemma Started(events: seq<Event>, reps: seq<Replica>, me: nat, d: Message, n: nat) returns (more: seq<Event>)
    requires Stage(events, reps, {d}) && me < 3
    requires d.DoViewChange? && d.from < 3 && d.view % 3 == me && d.view == reps[me].view && !reps[me].normal
    requires d.view in reps[me].svcVotes && reps[me].svcVotes[d.view] == map[d.from := n] && reps[me].committed <= |reps[me].log|
    requires d.lastNormal <= LastView(reps[me].log) && d.lastOp <= |reps[me].log|
    ensures var was := reps[me];
      Stage(more, reps[me := Entered(was)],
            {StartView(d.view, |was.log|, was.committed, Dump(was.log, Min(Min(n, d.committed), was.committed)))})
  {
    hide Dump, Reaches, LastView, Addressed, WellFormed, Receive;
    OwnReceived(me, reps[me], d, n);
    more := Receives(events, reps, {d}, me, d, Entered(reps[me]),
                     {StartView(d.view, |reps[me].log|, reps[me].committed, Dump(reps[me].log, Min(Min(n, d.committed), reps[me].committed)))});
  }

  lemma Drops(events: seq<Event>, reps: seq<Replica>, sent: set<Message>, less: set<Message>)
    requires Stage(events, reps, sent) && less <= sent
    ensures Stage(events, reps, less)
  {
  }

  lemma Begins()
    ensures Stage([], [FRESH, FRESH, FRESH], {})
  {
  }

  // ---- A follower without room ----

  /** A run that ends before anything has been executed is careful. */
  lemma IdleIsCareful(c: Config, events: seq<Event>)
    requires |Run(c, events).reps| == c.N() && forall k :: 0 <= k < c.N() ==> Run(c, events).reps[k].executed == []
    ensures Careful(c, events)
  {
    hide Run, CarefulStep;
    forall i | 0 <= i < |events| ensures CarefulStep(c, Run(c, events[..i]), events[i]) {
      IdleStep(c, events, i);
    }
  }

  lemma IdleStep(c: Config, events: seq<Event>, i: nat)
    requires |Run(c, events).reps| == c.N() && forall k :: 0 <= k < c.N() ==> Run(c, events).reps[k].executed == []
    requires i < |events|
    ensures CarefulStep(c, Run(c, events[..i]), events[i])
  {
    hide Run, Handle, Apply;
    var s, e := Run(c, events[..i]), events[i];
    VrHistory.RunSize(c, events[..i]);
    if e.r < c.N() && e.Deliver? && e.m.PrepareOK? && Handle(c, s, e).Ok? && s.reps[e.r].committed < Handle(c, s, e).r.committed {
      CommitExecutes(c, s, e);
      VrHistory.ExecutedGrows(c, events, i + 1, e.r);
      assert events[..i + 1][..i] == events[..i];
      VrHistory.RunStep(c, events[..i + 1]);
    }
  }

  lemma CommitExecutes(c: Config, s: State, e: Event)
    requires e.r < |s.reps| && e.Deliver? && e.m.PrepareOK? && Handle(c, s, e).Ok?
    requires s.reps[e.r].committed < Handle(c, s, e).r.committed
    ensures Apply(c, s, e).reps[e.r].executed != []
  {
    hide RecordedAll, Record, Ballots;
  }

  /** Replica 0 kept X when it accepted the empty StartView of view 1; the Prepare for Y, which the leader has sent, stops it. */
  lemma StaleEntryStops() returns (events: seq<Event>)
    ensures Careful(THREE, events) && Run(THREE, events).reps == [STALE, B3, C2]
    ensures Prepare(1, 1, 1, [Y]) in Run(THREE, events).msgs && HandlePrepare(THREE, 0, STALE, Prepare(1, 1, 1, [Y])).Crash?
  {
    events := FollowerKeepsStaleEntry();
    IdleIsCareful(THREE, events);
    hide Run, Careful, HandlePrepare;
  }

  // ---- A client table that is ahead ----

  // Client 9 has two requests pending, and the leader of view 0 has seen the second one first.
  const W := Request(9, 2, "w")
  const V := Request(9, 1, "v")
  const EW := Entry(0, W)
  const EV := Entry(5, V)

  const W1 := FRESH.(log := [EW], lastOp := 1, batchEnd := 1, table := Update(map[], W))
  const W2 := W1.(view := 2, normal := false, svcVotes := map[2 := map[2 := 0]])
  const W3 := W2.(view := 5)
  const W4 := W3.(svcVotes := map[2 := map[2 := 0], 5 := map[2 := 0]])
  const W5 := W1.(view := 5)
  const V1 := FRESH.(view := 2, normal := false)
  const V2 := FRESH.(view := 2, log := [EW], lastOp := 1)
  const V3 := V2.(view := 5, normal := false, svcVotes := map[5 := map[0 := 0]])
  const V4 := V2.(view := 5, batchEnd := 1)
  const V5 := V4.(log := [EW, EV], lastOp := 2, batchEnd := 2, table := Update(map[], V))
  const OFFER2 := DoViewChange(2, 0, 1, 0, 0, Suffix(1, [EW]))
  const OFFER5 := DoViewChange(5, 0, 1, 0, 0, Suffix(1, [EW]))
  const START5 := StartView(5, 1, 0, Suffix(1, [EW]))

  lemma AboutW()
    ensures !Old(FRESH.table, W) && [] + [EW] == [EW] && Knows(W1.table, W)
  {
  }

  lemma AboutLog()
    ensures LastView([EW]) == 0 && Dump([EW], 0) == Suffix(1, [EW]) && Min(Min(0, 0), 0) == 0
  {
    assert [EW][0..] == [EW];
  }

  lemma OffersOfW()
    ensures OfferOf(0, W1, 2, 0) == {OFFER2, StartViewChange(2, 0, 0)}
    ensures OfferOf(0, W3, 5, 0) == {OFFER5}
  {
    AboutLog();
    hide LastView, Dump, Update;
  }

  lemma NothingKept(m: Message)
    ensures {} + {m} == {m}
  {
  }

  /** Replica 0 logs W. */
  lemma LogsW() returns (events: seq<Event>)
    ensures Stage(events, [W1, FRESH, FRESH], {})
  {
    hide Stage, Update, Old, Knows, OfferOf, Dump, LastView, Receive, Addressed, WellFormed;
    Begins();
    AboutW();
    assert [FRESH, FRESH, FRESH][0 := W1] == [W1, FRESH, FRESH];
    events := Requested([], [FRESH, FRESH, FRESH], 0, W);
    Drops(events, [W1, FRESH, FRESH], {Prepare(0, 1, 1, [W])}, {});
  }

  /** Replica 2 begins a view change: to view 1, then to view 2. */
  lemma ChangesView() returns (events: seq<Event>)
    ensures Stage(events, [W1, FRESH, V1], {StartViewChange(2, 2, 0)})
  {
    hide Stage, Update, Old, Knows, OfferOf, Dump, LastView, Receive, Addressed, WellFormed;
    events := LogsW();
    var r := FRESH.(view := 1, normal := false);
    assert [W1, FRESH, FRESH][2 := r] == [W1, FRESH, r] && [W1, FRESH, r][2 := V1] == [W1, FRESH, V1];
    events := TimedOut(events, [W1, FRESH, FRESH], 2);
    Drops(events, [W1, FRESH, r], {StartViewChange(1, 2, 0)}, {});
    events := TimedOut(events, [W1, FRESH, r], 2);
  }

  /** Replica 0 joins the view change to view 2. */
  lemma OffersW() returns (events: seq<Event>)
    ensures Stage(events, [W2, FRESH, V1], {OFFER2})
  {
    hide Stage, Update, Old, Knows, OfferOf, Dump, LastView, Receive, Addressed, WellFormed;
    events := ChangesView();
    OffersOfW();
    assert [W1, FRESH, V1][0 := W2] == [W2, FRESH, V1];
    events := Joined(events, [W1, FRESH, V1], 0, 2, 2, 0);
    Drops(events, [W2, FRESH, V1], {OFFER2, StartViewChange(2, 0, 0)}, {OFFER2});
  }

  /** Replica 2 installs the only log it is offered, and does not tell its client table. */
  lemma InstallsW() returns (events: seq<Event>)
    ensures Stage(events, [W2, FRESH, V2], {})
  {
    hide Stage, Update, Old, Knows, OfferOf, Dump, LastView, Receive, Addressed, WellFormed;
    events := OffersW();
    TakesW();
    assert [W2, FRESH, V1][2 := V2] == [W2, FRESH, V2];
    events := Receives(events, [W2, FRESH, V1], {OFFER2}, 2, OFFER2, V2, {});
  }

  lemma TakesW()
    ensures Addressed(THREE, OFFER2, 2) && WellFormed(V1)
    ensures Receive(THREE, 2, V1, OFFER2, 0).Ok? && Receive(THREE, 2, V1, OFFER2, 0).r == V2
  {
    NoneCollected(V1);
    TheirStart(2, V1, 2, 0, OFFER2, EW);
    assert Receive(THREE, 2, V1, OFFER2, 0) == HandleDoViewChange(THREE, 2, V1, OFFER2, 0);
    hide HandleDoViewChange, Receive, WellFormed;
    assert EnterView(V1.(log := [EW]), 2).(lastOp := 1) == V2;
  }

  /**
   Such a leader stops at the first request that fills a batch: EnterView has set the end of the last
   batch to the last opnum it had before it installed the log, so the batch has an entry of an older view.
   */
  lemma RequestStopsLeader() returns (events: seq<Event>)
    ensures Careful(THREE, events) && Run(THREE, events).reps == [W2, FRESH, V2]
    ensures V2.normal && THREE.Leader(V2.view) == 2 && !Old(V2.table, V)
    ensures HandleRequest(THREE, 2, V2, V, Replicate("v")).Crash?
  {
    events := InstallsW();
    assert (V2.log + [Entry(2, V)])[0] == EW;
    hide Run, Careful, Update;
  }

  /** Replica 0 begins the change to view 5, and replica 2 joins. */
  lemma ChangesAgain() returns (events: seq<Event>)
    ensures Stage(events, [W3, FRESH, V2], {StartViewChange(5, 0, 0)})
  {
    hide Stage, Update, Old, Knows, OfferOf, Dump, LastView, Receive, Addressed, WellFormed;
    events := InstallsW();
    var r, q := W2.(view := 3), W2.(view := 4);
    assert [W2, FRESH, V2][0 := r] == [r, FRESH, V2] && [r, FRESH, V2][0 := q] == [q, FRESH, V2];
    assert [q, FRESH, V2][0 := W3] == [W3, FRESH, V2];
    events := TimedOut(events, [W2, FRESH, V2], 0);
    Drops(events, [r, FRESH, V2], {StartViewChange(3, 0, 0)}, {});
    events := TimedOut(events, [r, FRESH, V2], 0);
    Drops(events, [q, FRESH, V2], {StartViewChange(4, 0, 0)}, {});
    events := TimedOut(events, [q, FRESH, V2], 0);
  }

  lemma GathersAgain() returns (events: seq<Event>)
    ensures Stage(events, [W3, FRESH, V3], {StartViewChange(5, 2, 0)})
  {
    hide Stage, Update, Old, Knows, OfferOf, Dump, LastView, Receive, Addressed, WellFormed;
    events := ChangesAgain();
    NothingKept(StartViewChange(5, 0, 0));
    NothingKept(StartViewChange(5, 2, 0));
    assert [W3, FRESH, V2][2 := V3] == [W3, FRESH, V3];
    events := Gathered(events, [W3, FRESH, V2], {}, 2, 5, 0, 0);
  }

  lemma OffersAgain() returns (events: seq<Event>)
    ensures Stage(events, [W4, FRESH, V3], {OFFER5})
  {
    hide Stage, Update, Old, Knows, OfferOf, Dump, LastView, Receive, Addressed, WellFormed;
    events := GathersAgain();
    OffersOfW();
    assert [W3, FRESH, V3][0 := W4] == [W4, FRESH, V3];
    events := Joined(events, [W3, FRESH, V3], 0, 5, 2, 0);
  }

  /** Replica 2 leads view 5 with the log it has. */
  lemma LeadsAgain() returns (events: seq<Event>)
    ensures Stage(events, [W4, FRESH, V4], {START5})
  {
    hide Stage, Update, Old, Knows, OfferOf, Dump, LastView, Receive, Addressed, WellFormed;
    events := OffersAgain();
    AboutLog();
    assert [W4, FRESH, V3][2 := V4] == [W4, FRESH, V4];
    events := Started(events, [W4, FRESH, V3], 2, OFFER5, 0);
  }

  /** Replica 0 follows in view 5. */
  lemma FollowsAgain() returns (events: seq<Event>)
    ensures Stage(events, [W5, FRESH, V4], {})
  {
    hide Stage, Update, Old, Knows, OfferOf, Dump, LastView, Receive, Addressed, WellFormed;
    events := LeadsAgain();
    TakesStart();
    assert [W4, FRESH, V4][0 := W5] == [W5, FRESH, V4];
    events := Receives(events, [W4, FRESH, V4], {START5}, 0, START5, W5, {});
  }

  lemma TakesStart()
    ensures Addressed(THREE, START5, 0) && WellFormed(W4)
    ensures Receive(THREE, 0, W4, START5, 0).Ok? && Receive(THREE, 0, W4, START5, 0).r == W5
  {
    NoneCollected(W4);
    AboutW();
    Follows(0, W4, 5, EW);
    assert Receive(THREE, 0, W4, START5, 0) == HandleStartView(THREE, 0, W4, START5);
    hide HandleStartView, Receive, WellFormed, Update;
    assert EnterView(W4, 5) == W5;
  }

  /** The client's resend of V reaches replica 2, which logs it. */
  lemma ResendIsLogged() returns (events: seq<Event>)
    ensures Stage(events, [W5, FRESH, V5], {Prepare(5, 2, 2, [V])})
  {
    assert !Old(V4.table, V);
    hide Stage, Update, Old, Knows, OfferOf, Dump, LastView, Receive, Addressed, WellFormed;
    events := FollowsAgain();
    assert [EW] + [EV] == [EW, EV];
    events := Requested(events, [W5, FRESH, V4], 2, V);
  }

  lemma AheadOfV(t: Table)
    requires Knows(t, W)
    ensures !Updatable(t, V) && !UpdatableAll(t, [V]) && !UpdatableAll(t, [W, V])
  {
    assert [V][..0] == [] && [W, V][..1] == [W] && [W][..0] == [];
    assert UpdateAll(t, []) == t && UpdateAll(t, [W]) == t;
  }

  /**
   A follower that prepared W before V was resent stops at the Prepare for V: the new leader
   installed W without telling its client table, and so logged V after it.
   */
  lemma TableStopsPrepare() returns (events: seq<Event>)
    ensures Careful(THREE, events) && Run(THREE, events).reps == [W5, FRESH, V5]
    ensures W5.normal && W5.view == 5 && W5.lastOp == |W5.log| && !UpdatableAll(W5.table, [V])
    ensures Prepare(5, 2, 2, [V]) in Run(THREE, events).msgs && HandlePrepare(THREE, 0, W5, Prepare(5, 2, 2, [V])).Crash?
  {
    events := ResendIsLogged();
    AboutW();
    AheadOfV(W5.table);
    assert [V][0..] == [V];
    hide Run, Careful, UpdatableAll, Knows, Update;
  }

  // Replica 0 begins one more view change, before it has seen that Prepare.
  const W6 := W5.(view := 8, normal := false)
  const W7 := W6.(svcVotes := map[8 := map[2 := 0]])
  const V6 := V5.(view := 8, normal := false, svcVotes := map[8 := map[0 := 0]])
  const V7 := V5.(view := 8)
  const OFFER8 := DoViewChange(8, 0, 1, 0, 0, Suffix(1, [EW]))
  const START8 := StartView(8, 2, 0, Suffix(1, [EW, EV]))

  lemma AboutBoth()
    ensures LastView([EW, EV]) == 5 && Dump([EW, EV], 0) == Suffix(1, [EW, EV]) && OfferOf(0, W6, 8, 0) == {OFFER8}
  {
    AboutLog();
    assert [EW, EV][0..] == [EW, EV];
    hide Update;
  }

  lemma ChangesLast() returns (events: seq<Event>)
    ensures Stage(events, [W6, FRESH, V5], {StartViewChange(8, 0, 0)})
  {
    hide Stage, Update, Old, Knows, OfferOf, Dump, LastView, Receive, Addressed, WellFormed;
    events := ResendIsLogged();
    Drops(events, [W5, FRESH, V5], {Prepare(5, 2, 2, [V])}, {});
    var r, q := W5.(view := 6, normal := false), W5.(view := 7, normal := false);
    assert [W5, FRESH, V5][0 := r] == [r, FRESH, V5] && [r, FRESH, V5][0 := q] == [q, FRESH, V5];
    assert [q, FRESH, V5][0 := W6] == [W6, FRESH, V5];
    events := TimedOut(events, [W5, FRESH, V5], 0);
    Drops(events, [r, FRESH, V5], {StartViewChange(6, 0, 0)}, {});
    events := TimedOut(events, [r, FRESH, V5], 0);
    Drops(events, [q, FRESH, V5], {StartViewChange(7, 0, 0)}, {});
    events := TimedOut(events, [q, FRESH, V5], 0);
  }

  lemma LeadsLast() returns (events: seq<Event>)
    ensures Stage(events, [W7, FRESH, V7], {START8})
  {
    hide Stage, Update, Old, Knows, OfferOf, Dump, LastView, Receive, Addressed, WellFormed;
    events := ChangesLast();
    AboutBoth();
    NothingKept(StartViewChange(8, 0, 0));
    NothingKept(StartViewChange(8, 2, 0));
    assert [W6, FRESH, V5][2 := V6] == [W6, FRESH, V6] && [W6, FRESH, V6][0 := W7] == [W7, FRESH, V6];
    assert [W7, FRESH, V6][2 := V7] == [W7, FRESH, V7];
    events := Gathered(events, [W6, FRESH, V5], {}, 2, 8, 0, 0);
    events := Joined(events, [W6, FRESH, V6], 0, 8, 2, 0);
    events := Started(events, [W7, FRESH, V6], 2, OFFER8, 0);
  }

  lemma BothUnacknowledged(r: Replica)
    requires r.log == [EW, EV] && r.lastOp == 2 && r.committed == 0
    ensures Unacknowledged(r, 1) == [W, V]
  {
    assert FirstNew(r, 1) == 1;
    var both := r.log[0..2];
    assert both == [EW, EV];
    var reqs := Requests(both);
    assert |reqs| == 2 && reqs[0] == W && reqs[1] == V;
    hide Requests;
  }

  lemma StopsAtV(me: nat, r: Replica)
    requires r.log == [EW, EV] && r.lastOp == 2 && r.committed == 0 && Knows(r.table, W)
    ensures !UpdatableAll(r.table, Unacknowledged(r, 1))
    ensures SendPrepareOKs(me, r, 1).Crash? && PrepareOK(r.view, 1, me) in SendPrepareOKs(me, r, 1).out
  {
    hide Update, UpdateAll, UpdatableAll, Unacknowledged, Accepted, Knows;
    BothUnacknowledged(r);
    AheadOfV(r.table);
    NothingNew(r.table, W);
    AcceptsFirst(r.table, Accepted(r.table, [W, V]));
    assert PrepareOK(r.view, 1, me) in PrepareOKs(me, r, 1, 2);
  }

  lemma AcceptsFirst(t: Table, n: nat)
    requires n == Accepted(t, [W, V]) && UpdatableAll(t, [W]) && !UpdatableAll(t, [W, V])
    ensures n == 1
  {
    assert [W, V][..1] == [W] && [W, V][..2] == [W, V] && [W, V][..0] == [];
    hide Accepted, UpdatableAll, UpdateAll;
  }

  /** The same follower stops at the StartView of a later view, whose log has V after W; it has acknowledged W by then. */
  lemma TableStopsStartView() returns (events: seq<Event>)
    ensures Careful(THREE, events) && Run(THREE, events).reps == [W7, FRESH, V7]
    ensures START8 in Run(THREE, events).msgs && HandleStartView(THREE, 0, W7, START8).Crash?
    ensures PrepareOK(8, 1, 0) in HandleStartView(THREE, 0, W7, START8).out
    ensures Enters(THREE, W7, START8) && VrAsserts.TableAhead(THREE, W7, START8)
  {
    events := LeadsLast();
    StopsAtStart8();
    hide Run, Careful, HandleStartView, VrAsserts.TableAhead, Enters;
  }

  lemma StopsAtStart8()
    ensures Enters(THREE, W7, START8) && VrAsserts.TableAhead(THREE, W7, START8)
    ensures HandleStartView(THREE, 0, W7, START8).Crash? && PrepareOK(8, 1, 0) in HandleStartView(THREE, 0, W7, START8).out
  {
    AboutW();
    EntersBoth();
    hide Enters, Entering, Update, UpdatableAll, Unacknowledged, SendPrepareOKs, Knows;
    StopsAtV(0, Entering(THREE, W7, START8));
  }

  lemma EntersBoth()
    ensures Enters(THREE, W7, START8)
    ensures var r := Entering(THREE, W7, START8);
      r.view == 8 && r.log == [EW, EV] && r.lastOp == 2 && r.committed == 0 && r.table == W7.table
  {
    assert Install([EW], Suffix(1, [EW, EV])) == [EW, EV] by { assert Install([EW], Suffix(2, [EV])) == [EW, EV]; }
    assert Installed(W7, 2, START8.suffix) == [EW, EV];
    hide Install, Update, RecordedAll, Requests, Installed;
  }

  // ---- Logs that start too late ----

  // Replicas 0 and 1 execute two requests, and nothing reaches replica 2.
  const P := Request(1, 1, "p")
  const Q := Request(2, 1, "q")
  const PQ := [Entry(0, P), Entry(0, Q)]
  const G1 := FRESH.(log := [Entry(0, P)], lastOp := 1, batchEnd := 1, table := Update(map[], P))
  const G2 := FRESH.(log := PQ, lastOp := 2, batchEnd := 2, table := Update(G1.table, Q))
  const G3 := CommitUpTo(THREE, G2.(okVotes := map[(0, 2) := {1}]), 2)
  const H1 := G1.(batchEnd := 0)
  const H2 := G2.(batchEnd := 0)
  const H3 := CommitUpTo(THREE, H2, 2)
  const LATE1 := DoViewChange(1, 0, 2, 2, 0, Suffix(2, PQ[1..]))
  const LATE2 := DoViewChange(2, 0, 2, 2, 0, Suffix(2, PQ[1..]))
  const LATE_START := StartView(1, 2, 2, Suffix(2, PQ[1..]))

  /** A follower appends the one new request. */
  lemma PreparesOne(events: seq<Event>, reps: seq<Replica>, me: nat, view: nat, n: nat, req: Request) returns (more: seq<Event>)
    requires Stage(events, reps, {Prepare(view, n, n, [req])}) && me < 3
    requires view == reps[me].view && view % 3 != me && reps[me].normal && n == reps[me].lastOp + 1 == |reps[me].log| + 1
    requires Updatable(reps[me].table, req)
    ensures var was := reps[me];
      Stage(more, reps[me := was.(log := was.log + [Entry(view, req)], lastOp := n, table := Update(was.table, req))],
            {PrepareOK(view, n, me)})
  {
    var m, was := Prepare(view, n, n, [req]), reps[me];
    var r := was.(log := was.log + [Entry(view, req)], lastOp := n, table := Update(was.table, req));
    assert [req][0..] == [req] && [req][..0] == [] && UpdateAll(was.table, []) == was.table;
    assert UpdateAll(was.table, [req]) == Update(was.table, req) && UpdatableAll(was.table, [req]);
    assert Stamped(view, [req]) == [Entry(view, req)];
    NoneCollected(was);
    assert Receive(THREE, me, was, m, 0) == Ok(r, {PrepareOK(view, n, me)});
    hide Receive, Reaches, Update, Updatable, WellFormed;
    more := Receives(events, reps, {m}, me, m, r, {PrepareOK(view, n, me)});
  }

  /** The leader executes what one follower has acknowledged. */
  lemma Commits(events: seq<Event>, reps: seq<Replica>, me: nat, n: nat, k: nat) returns (more: seq<Event>)
    requires |reps| == 3 && me < 3 && Stage(events, reps, {PrepareOK(reps[me].view, n, k)}) && reps[me].view % 3 == me && reps[me].normal
    requires reps[me].okVotes == map[] && reps[me].committed < n <= |reps[me].log| && reps[me].log[n - 1].view == reps[me].view
    ensures Stage(more, reps[me := CommitUpTo(THREE, reps[me].(okVotes := map[(reps[me].view, n) := {k}]), n)], {Commit(reps[me].view, n)})
  {
    hide Reaches, Receive, WellFormed, RecordedAll, Requests;
    var m, was := PrepareOK(reps[me].view, n, k), reps[me];
    var r := CommitUpTo(THREE, was.(okVotes := map[(was.view, n) := {k}]), n);
    AckCommits(me, was, n, k);
    more := Receives(events, reps, {m}, me, m, r, {Commit(was.view, n)});
  }

  lemma AckCommits(me: nat, r: Replica, n: nat, k: nat)
    requires r.view % 3 == me && r.normal && r.dvcVotes == map[]
    requires r.okVotes == map[] && r.committed < n <= |r.log|
    ensures WellFormed(r)
    ensures Receive(THREE, me, r, PrepareOK(r.view, n, k), 0) ==
      Ok(CommitUpTo(THREE, r.(okVotes := map[(r.view, n) := {k}]), n), {Commit(r.view, n)})
  {
    var m := PrepareOK(r.view, n, k);
    assert Acks(r, m) == {k} && |{k}| == 1;
    NoneCollected(r);
    hide RecordedAll, Requests, Acks;
    assert HandlePrepareOK(THREE, me, r, m) == Ok(CommitUpTo(THREE, r.(okVotes := map[(r.view, n) := {k}]), n), {Commit(r.view, n)});
  }

  /** A follower executes what the leader has announced. */
  lemma Announced(events: seq<Event>, reps: seq<Replica>, me: nat, n: nat) returns (more: seq<Event>)
    requires |reps| == 3 && me < 3 && Stage(events, reps, {Commit(reps[me].view, n)}) && reps[me].view % 3 != me && reps[me].normal
    requires reps[me].committed < n <= reps[me].lastOp <= |reps[me].log|
    ensures Stage(more, reps[me := CommitUpTo(THREE, reps[me], n)], {})
  {
    var m, was := Commit(reps[me].view, n), reps[me];
    NoneCollected(was);
    assert Receive(THREE, me, was, m, 0) == Ok(CommitUpTo(THREE, was, n), {});
    hide Receive, Reaches, WellFormed, RecordedAll, Requests;
    more := Receives(events, reps, {m}, me, m, CommitUpTo(THREE, was, n), {});
  }

  lemma AboutPQ()
    ensures !Old(FRESH.table, P) && !Old(G1.table, Q) && Updatable(FRESH.table, P) && Updatable(H1.table, Q)
    ensures [] + [Entry(0, P)] == G1.log && G1.log + [Entry(0, Q)] == PQ
  {
  }

  lemma AboutG3()
    ensures G3 == G2.(okVotes := G3.okVotes, committed := 2, executed := G3.executed, table := G3.table)
    ensures H3 == H2.(committed := 2, executed := H3.executed, table := H3.table)
    ensures LastView(PQ) == 0 && Dump(PQ, 2) == Suffix(2, PQ[1..]) && Min(2, 2) == 2
  {
    hide Update, RecordedAll, Requests;
  }

  /** Replica 0 logs P, and replica 1 prepares it. */
  lemma PreparesP() returns (events: seq<Event>)
    ensures Stage(events, [G1, H1, FRESH], {})
  {
    hide Stage, Update, Old, Updatable, CommitUpTo, OfferOf, Dump, LastView, Receive, Addressed, WellFormed;
    Begins();
    AboutPQ();
    assert [FRESH, FRESH, FRESH][0 := G1] == [G1, FRESH, FRESH] && [G1, FRESH, FRESH][1 := H1] == [G1, H1, FRESH];
    events := Requested([], [FRESH, FRESH, FRESH], 0, P);
    events := PreparesOne(events, [G1, FRESH, FRESH], 1, 0, 1, P);
    Drops(events, [G1, H1, FRESH], {PrepareOK(0, 1, 1)}, {});
  }

  /** The same with Q. */
  lemma PreparesQ() returns (events: seq<Event>)
    ensures Stage(events, [G2, H2, FRESH], {PrepareOK(0, 2, 1)})
  {
    hide Stage, Update, Old, Updatable, CommitUpTo, OfferOf, Dump, LastView, Receive, Addressed, WellFormed;
    events := PreparesP();
    AboutPQ();
    assert [G1, H1, FRESH][0 := G2] == [G2, H1, FRESH] && [G2, H1, FRESH][1 := H2] == [G2, H2, FRESH];
    events := Requested(events, [G1, H1, FRESH], 0, Q);
    events := PreparesOne(events, [G2, H1, FRESH], 1, 0, 2, Q);
  }

  /** Both execute P and Q. */
  lemma ExecutePQ() returns (events: seq<Event>)
    ensures Stage(events, [G3, H3, FRESH], {})
  {
    hide Stage, Update, Old, Updatable, CommitUpTo, OfferOf, Dump, LastView, Receive, Addressed, WellFormed;
    events := PreparesQ();
    assert [G2, H2, FRESH][0 := G3] == [G3, H2, FRESH] && [G3, H2, FRESH][1 := H3] == [G3, H3, FRESH];
    events := Commits(events, [G2, H2, FRESH], 0, 2, 1);
    events := Announced(events, [G3, H2, FRESH], 1, 2);
  }

  // Replica 1 begins a view change, and replica 0 joins it.
  const J1 := H3.(view := 1, normal := false)
  const J2 := J1.(svcVotes := map[1 := map[0 := 2]])
  const J3 := H3.(view := 1, batchEnd := 2)
  const J4 := H3.(view := 2, normal := false)
  const K1 := G3.(view := 1, normal := false, svcVotes := map[1 := map[1 := 2]])
  const K2 := G3.(view := 2, normal := false, svcVotes := map[2 := map[1 := 2]])

  lemma OffersOfPQ()
    ensures OfferOf(0, G3, 1, 2) == {LATE1, StartViewChange(1, 0, 2)} && OfferOf(0, G3, 2, 2) == {LATE2, StartViewChange(2, 0, 2)}
    ensures {LATE1, StartViewChange(1, 0, 2)} == {LATE1} + {StartViewChange(1, 0, 2)} && {LATE1} + {} == {LATE1}
  {
    AboutG3();
    hide LastView, Dump, Update, CommitUpTo;
  }

  /** The change is to view 1, which replica 1 leads. */
  lemma GathersPQ() returns (events: seq<Event>)
    ensures Stage(events, [K1, J2, FRESH], {LATE1})
  {
    hide Stage, Update, Old, Updatable, CommitUpTo, OfferOf, Dump, LastView, Receive, Addressed, WellFormed;
    events := ExecutePQ();
    AboutG3();
    OffersOfPQ();
    assert [G3, H3, FRESH][1 := J1] == [G3, J1, FRESH] && [G3, J1, FRESH][0 := K1] == [K1, J1, FRESH];
    assert [K1, J1, FRESH][1 := J2] == [K1, J2, FRESH];
    events := TimedOut(events, [G3, H3, FRESH], 1);
    events := Joined(events, [G3, J1, FRESH], 0, 1, 1, 2);
    events := Gathered(events, [K1, J1, FRESH], {LATE1}, 1, 1, 0, 2);
  }

  lemma StartsPQ() returns (events: seq<Event>)
    ensures Stage(events, [K1, J3, FRESH], {LATE_START})
  {
    hide Stage, Update, Old, Updatable, CommitUpTo, OfferOf, Dump, LastView, Receive, Addressed, WellFormed;
    events := GathersPQ();
    AboutG3();
    assert [K1, J2, FRESH][1 := J3] == [K1, J3, FRESH];
    events := Started(events, [K1, J2, FRESH], 1, LATE1, 2);
  }

  /** A follower that has executed nothing stops at a StartView that begins at the second entry. */
  lemma LateStartStops() returns (events: seq<Event>)
    ensures Careful(THREE, events) && Run(THREE, events).reps == [K1, J3, FRESH]
    ensures LATE_START in Run(THREE, events).msgs && HandleStartView(THREE, 2, FRESH, LATE_START).Crash?
  {
    events := StartsPQ();
    hide Run, Careful;
  }

  /** The change is to view 2, which replica 2 leads. */
  lemma OffersPQ() returns (events: seq<Event>)
    ensures Stage(events, [K2, J4, FRESH], {LATE2})
  {
    hide Stage, Update, Old, Updatable, CommitUpTo, OfferOf, Dump, LastView, Receive, Addressed, WellFormed;
    events := ExecutePQ();
    AboutG3();
    OffersOfPQ();
    assert [G3, H3, FRESH][1 := J1] == [G3, J1, FRESH] && [G3, J1, FRESH][1 := J4] == [G3, J4, FRESH];
    assert [G3, J4, FRESH][0 := K2] == [K2, J4, FRESH];
    events := TimedOut(events, [G3, H3, FRESH], 1);
    Drops(events, [G3, J1, FRESH], {StartViewChange(1, 1, 2)}, {});
    events := TimedOut(events, [G3, J1, FRESH], 1);
    events := Joined(events, [G3, J4, FRESH], 0, 2, 1, 2);
    Drops(events, [K2, J4, FRESH], {LATE2, StartViewChange(2, 0, 2)}, {LATE2});
  }

  /** A new leader that has executed nothing stops at an offer that begins at the second entry. */
  lemma LateOfferStops() returns (events: seq<Event>)
    ensures Careful(THREE, events) && Run(THREE, events).reps == [K2, J4, FRESH]
    ensures LATE2 in Run(THREE, events).msgs && HandleDoViewChange(THREE, 2, FRESH, LATE2, 0).Crash?
  {
    events := OffersPQ();
    var votes := DvcVotes(FRESH, LATE2);
    assert votes == map[0 := LATE2] && |votes| == 1;
    OnlyVoteWins(0, LATE2, 3, []);
    hide Run, Careful, Latest, StartFrom;
  }
}
