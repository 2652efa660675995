/**
 Why agreement is proved of careful runs only. A leader that counts acknowledgements
 for an entry of an older view can execute a request that a later view discards: the
 new leader compares logs by the view of their last entries, and the entry keeps its
 old view when it is installed again. Three replicas are enough.
 */
module VrLostCommit {
  import opened VrTypes
  import opened VrTable
  import opened VrLog
  import opened VrReplica
  import opened VrProtocol
  import opened VrRuns

  const THREE := Config(1, 1, (opnum: nat, req: Request) => req.op)
  const X := Request(7, 1, "x")
  const Y := Request(8, 1, "y")
  const EX := Entry(0, X)
  const EY := Entry(1, Y)

  // The replicas, after each event that changes them.
  const A1 := FRESH.(log := [EX], lastOp := 1, batchEnd := 1, table := Update(map[], X))
  const C1 := FRESH.(view := 1, normal := false)
  const B1 := C1.(svcVotes := map[1 := map[2 := 0]])
  const C2 := C1.(svcVotes := map[1 := map[1 := 0]])
  const B2 := FRESH.(view := 1)
  const B3 := B2.(log := [EY], lastOp := 1, batchEnd := 1, table := Update(map[], Y))
  const C3 := C2.(view := 2)
  const A2 := A1.(view := 2, normal := false, svcVotes := map[2 := map[2 := 0]])
  const C4 := C3.(svcVotes := map[1 := map[1 := 0], 2 := map[0 := 0]])
  const C5 := FRESH.(view := 2, log := [EX], lastOp := 1)
  const A3 := A1.(view := 2)
  const C6 := C5.(okVotes := map[(2, 1) := {0}], committed := 1, executed := [X], table := Recorded(map[], [EX], 0, THREE.app))
  const A4 := A3.(view := 3, normal := false)
  const B4 := B3.(view := 3, normal := false, svcVotes := map[3 := map[0 := 0]])
  const A5 := A4.(svcVotes := map[3 := map[1 := 0]])
  const A6 := A3.(view := 3, log := [EY])
  const B5 := B3.(view := 3)
  const A7 := A6.(okVotes := map[(3, 1) := {1}], committed := 1, executed := [Y], table := Recorded(A6.table, [EY], 0, THREE.app))

  const START := StartView(1, 0, 0, Suffix(1, []))
  const EMPTY := DoViewChange(1, 0, 0, 0, 2, Suffix(1, []))

  function Zero(k: nat): map<nat, nat> { map[k := 0] }

  lemma OneVote(k: nat, n: nat)
    ensures map[k := n] != map[] && |map[k := n]| == 1 && Least(map[k := n]) == n
  {
    assert map[k := n][k] == n;
  }

  /** The leader appends a request, and sends it in a batch of its own. */
  lemma RequestTaken(me: nat, r: Replica, req: Request)
    requires THREE.Leader(r.view) == me && r.normal && |r.log| == r.lastOp == r.batchEnd && !Old(r.table, req)
    ensures var o, n := HandleRequest(THREE, me, r, req, Replicate(req.op)), r.lastOp + 1;
      && o.Ok? && o.r == r.(log := r.log + [Entry(r.view, req)], lastOp := n, batchEnd := n, table := Update(r.table, req))
      && Prepare(r.view, n, n, [req]) in o.out
  {
    assert req.(op := req.op) == req;
    var r1 := Appended(r, req, req.op);
    assert r1.log[r.batchEnd..r1.lastOp] == [Entry(r.view, req)];
    assert Requests([Entry(r.view, req)]) == [req];
    assert CloseBatch(r1) == Ok(r1.(batchEnd := r1.lastOp), {Prepare(r.view, r1.lastOp, r1.lastOp, [req])});
    hide Update, Requests;
  }

  /** A replica joins view change `view` on the first message for it, and offers its log to the leader. */
  lemma Offers(me: nat, r: Replica, view: nat, k: nat, n: nat)
    requires THREE.Leader(view) != me && view !in r.svcVotes && Heeds(r, view)
    ensures var o := HandleStartViewChange(THREE, me, r, StartViewChange(view, k, n));
      && o.Ok? && o.r == r.(view := view, normal := false, svcVotes := r.svcVotes[view := map[k := n]])
      && DoViewChange(view, LastView(r.log), r.lastOp, r.committed, me, Dump(r.log, Min(n, r.committed))) in o.out
      && (r.normal || view > r.view ==> StartViewChange(view, me, r.committed) in o.out)
  {
    OneVote(k, n);
    var r1 := r.(view := view, normal := false);
    assert SvcVotes(r1, StartViewChange(view, k, n)) == map[k := n];
    hide Dump, Least, LastView;
  }

  /** The leader-to-be collects the message. */
  lemma Collects(me: nat, r: Replica, view: nat, k: nat, n: nat)
    requires THREE.Leader(view) == me && view !in r.svcVotes && Heeds(r, view)
    ensures var o := HandleStartViewChange(THREE, me, r, StartViewChange(view, k, n));
      && o.Ok? && o.r == r.(view := view, normal := false, svcVotes := r.svcVotes[view := map[k := n]])
      && (r.normal || view > r.view ==> StartViewChange(view, me, r.committed) in o.out)
  {
    OneVote(k, n);
    var r1 := r.(view := view, normal := false);
    assert SvcVotes(r1, StartViewChange(view, k, n)) == map[k := n];
  }

  /** The leader starts view 1 with its own, empty, log. */
  lemma EmptyStart()
    ensures HandleDoViewChange(THREE, 1, B1, EMPTY, 0).Ok? && HandleDoViewChange(THREE, 1, B1, EMPTY, 0).r == B2
    ensures START in HandleDoViewChange(THREE, 1, B1, EMPTY, 0).out
  {
    var votes := DvcVotes(B1, EMPTY);
    assert votes == map[2 := EMPTY];
    assert votes[2] == EMPTY && |votes| == 1;
    assert Latest(votes, 3, []) == Own by {
      assert Latest(votes, 0, []) == Latest(votes, 1, []) == Latest(votes, 2, []) == Own;
    }
  }

  lemma {:induction false} OnlyVoteWins(k: nat, d: Message, n: nat, own: Log)
    requires d.DoViewChange? && Newer(d.lastNormal, d.lastOp, LastView(own), |own|)
    ensures Latest(map[k := d], n, own) == if k < n then Theirs(d) else Own
  {
    if n > 0 {
      OnlyVoteWins(k, d, n - 1, own);
    }
  }

  lemma StartsWith(r: Replica, view: nat, k: nat, d: Message, e: Entry)
    requires r.committed == 0 && |r.log| <= 1 && (r.log != [] ==> r.log[0].view != e.view) && k < 3
    requires d == DoViewChange(view, e.view, 1, 0, k, Suffix(1, [e]))
    requires Newer(e.view, 1, LastView(r.log), |r.log|)
    ensures map[k := d][k] == d
    ensures var o := BecomeLeader(THREE, r, d, map[k := d], 0);
      && o.Ok?
      && o.r == EnterView(r.(log := [e]), view).(lastOp := 1)
      && StartView(view, 1, 0, Suffix(1, [e])) in o.out
  {
    OnlyVoteWins(k, d, 3, r.log);
    assert Installed(r, 1, Suffix(1, [e])) == [e];
    hide Latest, StartFrom;
  }

  /** The only vote the leader has received is newer than its own log, and it installs it. */
  lemma TheirStart(me: nat, r: Replica, view: nat, k: nat, d: Message, e: Entry)
    requires THREE.Leader(view) == me && k < 3 && view == r.view && !r.normal && r.dvcVotes == map[]
    requires r.committed == 0 && |r.log| <= 1 && (r.log != [] ==> r.log[0].view != e.view)
    requires d == DoViewChange(view, e.view, 1, 0, k, Suffix(1, [e]))
    requires Newer(e.view, 1, LastView(r.log), |r.log|)
    ensures var o := HandleDoViewChange(THREE, me, r, d, 0);
      && o.Ok?
      && o.r == EnterView(r.(log := [e]), view).(lastOp := 1)
      && StartView(view, 1, 0, Suffix(1, [e])) in o.out
  {
    var votes := DvcVotes(r, d);
    assert votes == map[k := d];
    assert |votes| == 1;
    hide BecomeLeader;
    StartsWith(r.(dvcVotes := r.dvcVotes[view := votes]), view, k, d, e);
  }

  /** A follower installs the log, and acknowledges the entry that is new or not yet committed. */
  lemma Follows(me: nat, r: Replica, view: nat, e: Entry)
    requires THREE.Leader(view) != me && view == r.view && !r.normal && r.committed == 0 && r.log == [e] && r.lastOp == 1
    requires Knows(r.table, e.req)
    ensures var o := HandleStartView(THREE, me, r, StartView(view, 1, 0, Suffix(1, [e])));
      o.Ok? && o.r == EnterView(r, view) && PrepareOK(view, 1, me) in o.out
  {
    hide Knows, UpdateAll, UpdatableAll, SendPrepareOKs, Enters, Entering;
    NothingNew(r.table, e.req);
    EntersSame(r, view, e);
    AcknowledgesOne(me, EnterView(r, view), e);
  }

  lemma EntersSame(r: Replica, view: nat, e: Entry)
    requires r.committed == 0 && r.log == [e] && r.lastOp == 1
    ensures var m := StartView(view, 1, 0, Suffix(1, [e])); Enters(THREE, r, m) && Entering(THREE, r, m) == EnterView(r, view)
  {
    assert Install([e], Suffix(2, [])) == [e];
    assert [e][1..] == [];
    assert Installed(r, 1, Suffix(1, [e])) == [e];
    hide Install, RecordedAll, Requests, Installed;
    assert EnterView(r.(log := [e]), view).(lastOp := 1) == EnterView(r, view);
  }

  lemma AcknowledgesOne(me: nat, r: Replica, e: Entry)
    requires r.log == [e] && r.lastOp == 1 && r.committed == 0
    requires UpdatableAll(r.table, [e.req]) && UpdateAll(r.table, [e.req]) == r.table
    ensures var o := SendPrepareOKs(me, r, 1); o.Ok? && o.r == r && PrepareOK(r.view, 1, me) in o.out
  {
    assert Unacknowledged(r, 1) == [e.req];
    assert [e.req][..1] == [e.req];
    hide UpdatableAll, UpdateAll;
  }

  /** The request is the last that the table knows of its client. */
  predicate Knows(t: Table, req: Request) { req.clientId in t && t[req.clientId].lastReqId == req.reqId }

  lemma NothingNew(t: Table, req: Request)
    requires Knows(t, req)
    ensures UpdatableAll(t, [req]) && UpdateAll(t, [req]) == t
  {
    assert [req][..0] == [];
    assert UpdateAll(t, []) == t;
  }

  /** The leader counts one acknowledgement, and executes. */
  lemma Executes(me: nat, r: Replica, k: nat, e: Entry)
    requires THREE.Leader(r.view) == me && r.normal && r.log == [e] && r.committed == 0 && r.okVotes == map[] && r.executed == []
    ensures var o := HandlePrepareOK(THREE, me, r, PrepareOK(r.view, 1, k));
      o.Ok? && o.r == r.(okVotes := map[(r.view, 1) := {k}], committed := 1, executed := [e.req],
                       table := Recorded(r.table, [e], 0, THREE.app))
  {
    assert Requests([e][0..1]) == [e.req];
    assert |{} + {k}| == 1;
    assert RecordedAll(r.table, [e], 0, 0, THREE.app) == r.table;
    hide Recorded;
  }

  // ---- The run ----

  /** One more event, at replica `me`, that turns it into `r` and sends at least `sent`. */
  lemma Step(events: seq<Event>, e: Event, reps: seq<Replica>, me: nat, r: Replica, sent: set<Message>) returns (more: seq<Event>)
    requires Run(THREE, events).reps == reps && me < |reps| && e.r == me
    requires var o := Handle(THREE, Run(THREE, events), e); o.Ok? && o.r == r && sent <= o.out
    ensures more == events + [e]
    ensures Run(THREE, more).reps == reps[me := r]
    ensures sent <= Run(THREE, more).msgs && Run(THREE, events).msgs <= Run(THREE, more).msgs
  {
    more := events + [e];
    assert more[..|events|] == events;
    assert Run(THREE, more) == Apply(THREE, Run(THREE, events), e);
    hide Handle, Record, Ballots, Run;
  }

  lemma Receipt(events: seq<Event>, m: Message, reps: seq<Replica>, me: nat, r: Replica, sent: set<Message>) returns (more: seq<Event>)
    requires Run(THREE, events).reps == reps && me < |reps|
    requires m in Run(THREE, events).msgs && Addressed(THREE, m, me) && WellFormed(reps[me])
    requires var o := Receive(THREE, me, reps[me], m, 0); o.Ok? && o.r == r && sent <= o.out
    ensures Run(THREE, more).reps == reps[me := r]
    ensures sent <= Run(THREE, more).msgs && Run(THREE, events).msgs <= Run(THREE, more).msgs
  {
    hide Run, Receive, Addressed, WellFormed;
    more := Step(events, Deliver(me, m, 0), reps, me, r, sent);
  }

  // Steps, by what they do; `reps` are the replicas before.

  ghost predicate Reached(events: seq<Event>, reps: seq<Replica>, sent: set<Message>) {
    |reps| == 3 && Run(THREE, events).reps == reps && sent <= Run(THREE, events).msgs
  }

  lemma StepMessage(events: seq<Event>, reps: seq<Replica>, me: nat, m: Message, r: Replica, sent: set<Message>) returns (more: seq<Event>)
    requires Reached(events, reps, {m}) && me < 3 && Addressed(THREE, m, me) && reps[me].dvcVotes == map[]
    requires var o := Receive(THREE, me, reps[me], m, 0); o.Ok? && o.r == r && sent <= o.out
    ensures Reached(more, reps[me := r], sent)
  {
    hide Run, Receive, Addressed;
    more := Receipt(events, m, reps, me, r, sent);
  }

  predicate Joining(r: Replica, view: nat) {
    ((view > r.view && r.normal) || (view == r.view && !r.normal)) && r.dvcVotes == map[] && r.committed == 0
  }

  lemma StepRequest(events: seq<Event>, reps: seq<Replica>, me: nat, req: Request, sent: set<Message>) returns (more: seq<Event>)
    requires Reached(events, reps, sent) && me < 3 && reps[me].view % 3 == me
    requires reps[me].normal && reps[me].log == [] && reps[me].lastOp == reps[me].batchEnd == 0 && reps[me].dvcVotes == map[]
    requires !Old(reps[me].table, req)
    ensures Reached(more, reps[me := reps[me].(log := [Entry(reps[me].view, req)], lastOp := 1, batchEnd := 1,
                                               table := Update(reps[me].table, req))],
                    sent + {Prepare(reps[me].view, 1, 1, [req])})
  {
    RequestTaken(me, reps[me], req);
    assert [] + [Entry(reps[me].view, req)] == [Entry(reps[me].view, req)];
    hide HandleRequest, Run, Update;
    var up := Replicate(req.op);
    more := Step(events, ClientRequest(me, req, up), reps, me, HandleRequest(THREE, me, reps[me], req, up).r, {Prepare(reps[me].view, 1, 1, [req])});
  }

  lemma StepTimer(events: seq<Event>, reps: seq<Replica>, me: nat) returns (more: seq<Event>)
    requires Reached(events, reps, {}) && me < 3 && reps[me].dvcVotes == map[] && reps[me].committed == 0
    requires reps[me].view % 3 != me
    ensures Reached(more, reps[me := reps[me].(view := reps[me].view + 1, normal := false)],
               {StartViewChange(reps[me].view + 1, me, 0)})
  {
    hide Run;
    more := Step(events, ViewChangeTimer(me), reps, me, reps[me].(view := reps[me].view + 1, normal := false),
                 {StartViewChange(reps[me].view + 1, me, 0)});
  }

  function Sends(me: nat, r: Replica, view: nat, log: Log, last: nat): set<Message> {
    {DoViewChange(view, last, |log|, 0, me, Suffix(1, log))} + if r.normal then {StartViewChange(view, me, 0)} else {}
  }

  lemma JoinSends(me: nat, r: Replica, view: nat, k: nat, log: Log, last: nat)
    requires THREE.Leader(view) != me && r.svcVotes == map[] && r.committed == 0 && Joining(r, view)
    requires r.log == log && r.lastOp == |log| && LastView(log) == last
    ensures var o := HandleStartViewChange(THREE, me, r, StartViewChange(view, k, 0));
      o.Ok? && o.r == r.(view := view, normal := false, svcVotes := map[view := Zero(k)]) &&
      Sends(me, r, view, log, last) <= o.out
  {
    Offers(me, r, view, k, 0);
    assert Dump(log, 0) == Suffix(1, log) by { assert log[0..] == log; }
    hide HandleStartViewChange, Zero, Dump, LastView;
  }

  /** `me` joins view change `view`, and offers `log`, whose last entry is of view `last`. */
  lemma StepJoin(events: seq<Event>, reps: seq<Replica>, me: nat, view: nat, k: nat, log: Log, last: nat) returns (more: seq<Event>)
    requires Reached(events, reps, {StartViewChange(view, k, 0)}) && me < 3 && view % 3 != me && me != k
    requires Joining(reps[me], view) && reps[me].svcVotes == map[]
    requires reps[me].log == log && reps[me].lastOp == |log| && LastView(log) == last
    ensures Reached(more, reps[me := reps[me].(view := view, normal := false, svcVotes := map[view := Zero(k)])],
               Sends(me, reps[me], view, log, last))
  {
    hide HandleStartViewChange, Run, Zero, Sends, LastView;
    JoinSends(me, reps[me], view, k, log, last);
    more := Receipt(events, StartViewChange(view, k, 0), reps, me,
                    reps[me].(view := view, normal := false, svcVotes := map[view := Zero(k)]),
                    Sends(me, reps[me], view, log, last));
  }

  lemma StepCollect(events: seq<Event>, reps: seq<Replica>, me: nat, view: nat, k: nat, sent: set<Message>) returns (more: seq<Event>)
    requires Reached(events, reps, {StartViewChange(view, k, 0)} + sent) && me < 3 && view % 3 == me && me != k
    requires Joining(reps[me], view) && view !in reps[me].svcVotes
    ensures Reached(more, reps[me := reps[me].(view := view, normal := false, svcVotes := reps[me].svcVotes[view := Zero(k)])],
               sent + if reps[me].normal then {StartViewChange(view, me, 0)} else {})
  {
    Collects(me, reps[me], view, k, 0);
    hide HandleStartViewChange, Run, Zero;
    more := Receipt(events, StartViewChange(view, k, 0), reps, me,
                    reps[me].(view := view, normal := false, svcVotes := reps[me].svcVotes[view := Zero(k)]),
                    if reps[me].normal then {StartViewChange(view, me, 0)} else {});
  }

  lemma StepStartEmpty(events: seq<Event>, reps: seq<Replica>) returns (more: seq<Event>)
    requires Reached(events, reps, {EMPTY}) && reps[1] == B1
    ensures Reached(more, reps[1 := B2], {START})
  {
    EmptyStart();
    hide HandleDoViewChange, Run;
    more := Receipt(events, EMPTY, reps, 1, B2, {START});
  }

  lemma StepStart(events: seq<Event>, reps: seq<Replica>, me: nat, view: nat, k: nat, e: Entry) returns (more: seq<Event>)
    requires Reached(events, reps, {DoViewChange(view, e.view, 1, 0, k, Suffix(1, [e]))})
    requires me < 3 && k < 3 && view % 3 == me && view == reps[me].view && !reps[me].normal
    requires reps[me].dvcVotes == map[] && reps[me].committed == 0
    requires reps[me].log == [] || (|reps[me].log| == 1 && reps[me].log[0].view < e.view)
    ensures Reached(more, reps[me := Replica(view, true, [e], 1, 0, reps[me].lastOp, reps[me].executed, reps[me].table, map[], map[], map[])],
               {StartView(view, 1, 0, Suffix(1, [e]))})
  {
    var d := DoViewChange(view, e.view, 1, 0, k, Suffix(1, [e]));
    TheirStart(me, reps[me], view, k, d, e);
    var r := Replica(view, true, [e], 1, 0, reps[me].lastOp, reps[me].executed, reps[me].table, map[], map[], map[]);
    assert r == EnterView(reps[me].(log := [e]), view).(lastOp := 1);
    hide HandleDoViewChange, Run, EnterView, Reached, WellFormed;
    more := StepMessage(events, reps, me, d, r, {StartView(view, 1, 0, Suffix(1, [e]))});
  }

  lemma StepFollow(events: seq<Event>, reps: seq<Replica>, me: nat, view: nat, e: Entry) returns (more: seq<Event>)
    requires Reached(events, reps, {StartView(view, 1, 0, Suffix(1, [e]))})
    requires me < 3 && view % 3 != me && view == reps[me].view && !reps[me].normal
    requires reps[me].committed == 0 && reps[me].log == [e] && reps[me].lastOp == 1 && reps[me].dvcVotes == map[]
    requires Knows(reps[me].table, e.req)
    ensures Reached(more, reps[me := Replica(view, true, [e], 1, 0, 1, reps[me].executed, reps[me].table, map[], map[], map[])], {PrepareOK(view, 1, me)})
  {
    var m := StartView(view, 1, 0, Suffix(1, [e]));
    Follows(me, reps[me], view, e);
    hide HandleStartView, Run;
    more := Receipt(events, m, reps, me,
                    Replica(view, true, [e], 1, 0, 1, reps[me].executed, reps[me].table, map[], map[], map[]), {PrepareOK(view, 1, me)});
  }

  lemma StepExecute(events: seq<Event>, reps: seq<Replica>, me: nat, view: nat, k: nat, e: Entry) returns (more: seq<Event>)
    requires Reached(events, reps, {PrepareOK(view, 1, k)})
    requires me < 3 && view % 3 == me && view == reps[me].view && reps[me].normal
    requires reps[me].committed == 0 && reps[me].log == [e] && reps[me].dvcVotes == map[] && reps[me].okVotes == map[] && reps[me].executed == []
    ensures Reached(more, reps[me := reps[me].(okVotes := map[(view, 1) := {k}], committed := 1, executed := [e.req],
                                               table := Recorded(reps[me].table, [e], 0, THREE.app))], {})
  {
    Executes(me, reps[me], k, e);
    hide HandlePrepareOK, Run, Recorded;
    more := Receipt(events, PrepareOK(view, 1, k), reps, me,
                    reps[me].(okVotes := map[(view, 1) := {k}], committed := 1, executed := [e.req],
                              table := Recorded(reps[me].table, [e], 0, THREE.app)), {});
  }

  // ---- The run ----

  /** Replica 0 logs X but reaches nobody; the others begin a view change. */
  lemma FirstRequest() returns (events: seq<Event>)
    ensures Reached(events, [A1, B1, C1], {StartViewChange(1, 1, 0)})
  {
    events := [];
    var reps := [FRESH, FRESH, FRESH];
    assert Reached(events, reps, {}) && !Old(FRESH.table, X);
    hide *;
    events := StepRequest(events, reps, 0, X, {});
    events := StepTimer(events, [A1, FRESH, FRESH], 2);
    events := StepCollect(events, [A1, FRESH, C1], 1, 1, 2, {});
  }

  /** Replica 1 is elected without X, and logs Y. */
  lemma FirstElection() returns (events: seq<Event>)
    ensures Reached(events, [A1, B3, C2], {START} + {Prepare(1, 1, 1, [Y])})
  {
    assert LastView([]) == 0 && !Old(B2.table, Y);
    hide *;
    events := FirstRequest();
    events := StepJoin(events, [A1, B1, C1], 2, 1, 1, [], 0);
    events := StepStartEmpty(events, [A1, B1, C2]);
    events := StepRequest(events, [A1, B2, C2], 1, Y, {START});
  }

  /** Replica 2 is elected with the log of replica 0, and executes X once replica 0 has acknowledged it. */
  lemma SecondElection(before: seq<Event>) returns (events: seq<Event>)
    requires Reached(before, [A1, B3, C2], {})
    ensures Reached(events, [A3, B3, C6], {})
  {
    assert Sends(0, A1, 2, [EX], 0) == {DoViewChange(2, 0, 1, 0, 0, Suffix(1, [EX])), StartViewChange(2, 0, 0)};
    assert LastView([EX]) == 0 && Knows(A1.table, X);
    hide *;
    events := StepTimer(before, [A1, B3, C2], 2);
    events := StepJoin(events, [A1, B3, C3], 0, 2, 2, [EX], 0);
    events := StepCollect(events, [A2, B3, C3], 2, 2, 0, {DoViewChange(2, 0, 1, 0, 0, Suffix(1, [EX]))});
    events := StepStart(events, [A2, B3, C4], 2, 2, 0, EX);
    events := StepFollow(events, [A2, B3, C5], 0, 2, EX);
    events := StepExecute(events, [A3, B3, C5], 2, 2, 0, EX);
  }

  /** Replica 0 is elected with the log of replica 1, and executes Y. */
  lemma ThirdElection(before: seq<Event>) returns (events: seq<Event>)
    requires Reached(before, [A3, B3, C6], {})
    ensures Reached(events, [A7, B5, C6], {})
  {
    assert Sends(1, B3, 3, [EY], 1) == {DoViewChange(3, 1, 1, 0, 1, Suffix(1, [EY])), StartViewChange(3, 1, 0)};
    assert LastView([EY]) == 1 && Knows(B3.table, Y);
    hide *;
    events := StepTimer(before, [A3, B3, C6], 0);
    events := StepJoin(events, [A4, B3, C6], 1, 3, 0, [EY], 1);
    events := StepCollect(events, [A4, B4, C6], 0, 3, 1, {DoViewChange(3, 1, 1, 0, 1, Suffix(1, [EY]))});
    events := StepStart(events, [A5, B4, C6], 0, 3, 1, EY);
    events := StepFollow(events, [A6, B4, C6], 1, 3, EY);
    events := StepExecute(events, [A6, B5, C6], 0, 3, 1, EY);
  }

  /** Without the guard on commits, agreement fails: two replicas execute different first requests. */
  lemma CarelessRunDisagrees() returns (events: seq<Event>)
    ensures |Run(THREE, events).reps| == 3
    ensures Run(THREE, events).reps[2].executed == [X] && Run(THREE, events).reps[0].executed == [Y]
    ensures !Comparable(Run(THREE, events).reps[2].executed, Run(THREE, events).reps[0].executed)
    ensures !Careful(THREE, events)
  {
    events := FirstElection();
    events := SecondElection(events);
    events := ThirdElection(events);
    assert [X][0] != [Y][0];
    if Careful(THREE, events) {
      Agreement(THREE, events, 2, 0);
    }
    hide Run, Careful;
  }

  const STALE := A1.(view := 1, lastOp := 0)

  /** A replica that has committed nothing accepts an empty log, and keeps its own. */
  lemma AcceptsEmpty(me: nat, r: Replica, view: nat)
    requires THREE.Leader(view) != me && Heeds(r, view) && r.committed == 0
    ensures HandleStartView(THREE, me, r, StartView(view, 0, 0, Suffix(1, []))) == Ok(EnterView(r, view).(lastOp := 0), {})
  {
    hide SendPrepareOKs, Installable, Installed, RecordedAll, Requests;
    var e := EnterView(r, view).(lastOp := 0);
    EmptyInstalls(r, Suffix(1, []));
    AcknowledgesNothing(me, e, r.lastOp);
    assert EnterView(r.(log := r.log), view).(lastOp := 0) == e;
    assert CommitUpTo(THREE, e, 0) == e;
  }

  lemma EmptyInstalls(r: Replica, s: Suffix)
    requires s.entries == []
    ensures Installable(r, 0, s) && Installed(r, 0, s) == r.log
  {
  }

  lemma AcknowledgesNothing(me: nat, r: Replica, oldLastOp: nat)
    requires r.lastOp == 0
    ensures SendPrepareOKs(me, r, oldLastOp) == Ok(r, {})
  {
    assert Unacknowledged(r, oldLastOp) == [];
    assert UpdateAll(r.table, []) == r.table;
  }

  lemma StaleAccepts()
    ensures HandleStartView(THREE, 0, A1, START) == Ok(STALE, {})
  {
    AcceptsEmpty(0, A1, 1);
    assert EnterView(A1, 1).(lastOp := 0) == STALE;
    hide HandleStartView, Update;
  }

  lemma StepStale(events: seq<Event>, reps: seq<Replica>, keep: set<Message>) returns (more: seq<Event>)
    requires Reached(events, reps, {START} + keep) && reps[0] == A1
    ensures Reached(more, reps[0 := STALE], keep)
  {
    StaleAccepts();
    hide Run, HandleStartView, Update;
    more := Receipt(events, START, reps, 0, STALE, {});
  }

  lemma StaleStops(op: nat, reqs: seq<Request>)
    requires op >= 1 && |reqs| == op
    ensures HandlePrepare(THREE, 0, STALE, Prepare(1, op, 1, reqs)).Crash?
  {
  }

  lemma StaleRun() returns (events: seq<Event>)
    ensures Reached(events, [STALE, B3, C2], {Prepare(1, 1, 1, [Y])})
  {
    hide Reached, Update;
    assert [A1, B3, C2][0 := STALE] == [STALE, B3, C2];
    events := FirstElection();
    events := StepStale(events, [A1, B3, C2], {Prepare(1, 1, 1, [Y])});
  }

  /**
   A follower's log need not be a prefix of its leader's: replica 0 accepts the empty
   StartView of view 1 and keeps X, where the leader has Y. The next Prepare stops it.
   */
  lemma FollowerKeepsStaleEntry() returns (events: seq<Event>)
    ensures Run(THREE, events).reps == [STALE, B3, C2]
    ensures STALE.normal && B3.normal && STALE.view == B3.view && THREE.Leader(B3.view) == 1
    ensures STALE.log != [] && B3.log != [] && STALE.log[0] != B3.log[0]
    ensures Prepare(1, 1, 1, [Y]) in Run(THREE, events).msgs
    ensures forall op: nat, reqs :: op >= 1 && |reqs| == op ==>
      HandlePrepare(THREE, 0, STALE, Prepare(1, op, 1, reqs)).Crash?
  {
    hide Run, HandlePrepare, Update;
    events := StaleRun();
    forall op: nat, reqs: seq<Request> | op >= 1 && |reqs| == op
      ensures HandlePrepare(THREE, 0, STALE, Prepare(1, op, 1, reqs)).Crash?
    {
      StaleStops(op, reqs);
    }
  }
}
