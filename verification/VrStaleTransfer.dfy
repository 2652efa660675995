/**
 Why the replica that answers a request for a state transfer must have no entries left over from
 an older view. Replica 0 of `VrLostCommit` keeps X when it accepts the empty StartView of view 1.
 Replica 2, which misses a Prepare, takes X over from it, and acknowledges it as the first request
 of view 1, which for the leader is Y.
 */
module VrStaleTransfer {
  import opened VrTypes
  import opened VrTable
  import opened VrLog
  import opened VrReplica
  import opened VrProtocol
  import opened VrRuns
  import opened VrSteps
  import opened VrLostCommit
  import opened VrTransfer
  import opened VrTransferRuns
  import VrStops

  const Z := Request(6, 1, "z")
  const EZ := Entry(1, Z)

  // The leader once it has sent Z too, and once it has executed Y.
  const L1 := B3.(log := [EY, EZ], lastOp := 2, batchEnd := 2, table := Update(B3.table, Z))
  const L2 := L1.(okVotes := map[(1, 1) := {2}], committed := 1, executed := [Y], table := Recorded(L1.table, [EY, EZ], 0, THREE.app))
  // Replica 2 in view 1, with X, and once it has executed X.
  const D1 := FRESH.(view := 1)
  const D2 := D1.(log := [EX], lastOp := 1, table := Update(map[], X))
  const D3 := D2.(committed := 1, executed := [X], table := Recorded(D2.table, [EX], 0, THREE.app))

  const GAP := Prepare(1, 2, 2, [Z])
  const ASK := RequestStateTransfer(1, 0, 2)
  const ANSWER := StateTransfer(1, 0, Suffix(1, [EX]), 2)

  // ---- Up to the gap ----

  lemma EntersEmpty()
    ensures HandleStartView(THREE, 2, C2, START) == Ok(D1, {})
  {
    AcceptsEmpty(2, C2, 1);
    assert EnterView(C2, 1).(lastOp := 0) == D1;
    hide HandleStartView;
  }

  lemma SendsZ()
    ensures var o := HandleRequest(THREE, 1, B3, Z, Replicate(Z.op)); o.Ok? && o.r == L1 && GAP in o.out
  {
    assert [EY] + [EZ] == [EY, EZ] && !Old(B3.table, Z);
    hide HandleRequest, Update, Old;
    RequestTaken(1, B3, Z);
  }

  /** The leader has sent Y and Z; replica 0 has kept X, and replica 2 has nothing. */
  lemma Prepared() returns (events: seq<Event>)
    ensures Careful(THREE, events) && Reached(events, [STALE, L1, D1], {GAP})
  {
    hide Run, HandleStartView, HandleRequest, Update, Careful;
    events := FirstElection();
    StaleAccepts();
    events := Receipt(events, START, [A1, B3, C2], 0, STALE, {});
    assert [A1, B3, C2][0 := STALE] == [STALE, B3, C2];
    EntersEmpty();
    events := Receipt(events, START, [STALE, B3, C2], 2, D1, {});
    assert [STALE, B3, C2][2 := D1] == [STALE, B3, D1];
    SendsZ();
    events := VrLostCommit.Step(events, ClientRequest(1, Z, Replicate(Z.op)), [STALE, B3, D1], 1, L1, {GAP});
    assert [STALE, B3, D1][1 := L1] == [STALE, L1, D1];
    VrStops.IdleIsCareful(THREE, events);
  }

  // ---- With state transfers ----

  /** Careful, but for the log of a replica that answers a request for a state transfer. */
  ghost predicate CarefulTaking(c: Config, g: Group, e: GroupEvent) {
    (e.Transfer? && e.m.RequestStateTransfer?) || CarefulNext(c, g, e)
  }

  ghost predicate Stage(events: seq<GroupEvent>, reps: seq<Replica>, sent: set<Message>, transfers: set<TransferMessage>) {
    var g := GroupRun(THREE, events);
    && (forall i :: 0 <= i < |events| ==> CarefulTaking(THREE, GroupRun(THREE, events[..i]), events[i]))
    && |reps| == 3 && g.s.reps == reps && sent <= g.s.msgs && transfers <= g.transfers
  }

  function Steps(events: seq<Event>): (steps: seq<GroupEvent>)
    ensures |steps| == |events| && forall i :: 0 <= i < |events| ==> steps[i] == GroupEvent.Step(events[i])
  {
    seq(|events|, i requires 0 <= i < |events| => GroupEvent.Step(events[i]))
  }

  /** A run of the group is one with state transfers. */
  lemma {:induction false} StepsRun(c: Config, events: seq<Event>)
    ensures GroupRun(c, Steps(events)).s == Run(c, events)
    decreases |events|
  {
    hide Apply, Asked, Init;
    if events != [] {
      var n := |events| - 1;
      assert Steps(events)[..n] == Steps(events[..n]);
      StepsRun(c, events[..n]);
      GroupRunStep(c, Steps(events));
    }
  }

  lemma Lifts(events: seq<Event>, reps: seq<Replica>, sent: set<Message>)
    requires Careful(THREE, events) && Reached(events, reps, sent)
    ensures Stage(Steps(events), reps, sent, {})
  {
    hide Run, CarefulStep, GroupRun;
    StepsRun(THREE, events);
    forall i | 0 <= i < |events| ensures CarefulTaking(THREE, GroupRun(THREE, Steps(events)[..i]), Steps(events)[i]) {
      assert Steps(events)[..i] == Steps(events[..i]);
      StepsRun(THREE, events[..i]);
    }
  }

  lemma GroupStep(events: seq<GroupEvent>, reps: seq<Replica>, e: GroupEvent,
                  reps': seq<Replica>, sent': set<Message>, transfers': set<TransferMessage>)
    returns (more: seq<GroupEvent>)
    requires Stage(events, reps, {}, {}) && CarefulTaking(THREE, GroupRun(THREE, events), e)
    requires var g := Next(THREE, GroupRun(THREE, events), e);
      |reps'| == 3 && g.s.reps == reps' && sent' <= g.s.msgs && transfers' <= g.transfers
    ensures Stage(more, reps', sent', transfers')
  {
    hide CarefulTaking, Next;
    more := events + [e];
    assert more[..|events|] == events;
    forall i | 0 <= i < |more| ensures CarefulTaking(THREE, GroupRun(THREE, more[..i]), more[i]) {
      if i < |events| { assert more[..i] == events[..i]; }
    }
  }

  /** A message between replicas is delivered. */
  lemma Delivers(events: seq<GroupEvent>, reps: seq<Replica>, me: nat, m: Message, r: Replica, sent: set<Message>)
    returns (more: seq<GroupEvent>)
    requires Stage(events, reps, {m}, {}) && me < 3 && Addressed(THREE, m, me) && reps[me].dvcVotes == map[]
    requires var o := Receive(THREE, me, reps[me], m, 0); o.Ok? && o.r == r && sent <= o.out
    requires m.PrepareOK? && reps[me].committed < r.committed <= |reps[me].log| ==>
      reps[me].log[r.committed - 1].view == reps[me].view
    ensures Stage(more, reps[me := r], sent, if Lags(THREE, me, reps[me], m) then {Asking(me, reps[me])} else {})
  {
    hide Receive, Addressed, Lags, Record, Ballots, GroupRun;
    var e := Deliver(me, m, 0);
    assert Handle(THREE, GroupRun(THREE, events).s, e) == Receive(THREE, me, reps[me], m, 0);
    more := GroupStep(events, reps, GroupEvent.Step(e), reps[me := r], sent,
                      if Lags(THREE, me, reps[me], m) then {Asking(me, reps[me])} else {});
  }

  // ---- What each replica does ----

  lemma MissesY()
    ensures HandlePrepare(THREE, 2, D1, GAP) == Ok(D1, {}) && Lags(THREE, 2, D1, GAP) && Asking(2, D1) == ASK
  {
  }

  lemma AnswersX()
    ensures HandleRequestStateTransfer(0, STALE, ASK) == {ANSWER} && STALE.lastOp != |STALE.log|
  {
    assert [EX][0..] == [EX];
  }

  lemma TakesX()
    ensures HandleStateTransfer(THREE, 2, D1, ANSWER) == Ok(D2, {PrepareOK(1, 1, 2)})
  {
    assert [] + [EX] == [EX] && [EX][1..] == [] && [EX][0..1] == [EX];
    var r := D1.(log := [EX], lastOp := 1);
    assert TakeAll(D1, 0, Suffix(1, [EX])) == Taken(r, 0);
    assert CommitUpTo(THREE, r, 0) == r;
    AcknowledgesX(r);
    hide SendPrepareOKs, TakeAll, CommitUpTo;
  }

  lemma FirstOfItsClient(req: Request)
    ensures Accepted(map[], [req]) == 1 && UpdateAll(map[], [req]) == Update(map[], req)
  {
    assert [req][..1] == [req] && [req][..0] == [];
  }

  lemma OneAck(r: Replica)
    requires r.committed == 0
    ensures PrepareOKs(2, r, 0, 2) == {PrepareOK(r.view, 1, 2)}
  {
  }

  lemma AllAccepted(me: nat, r: Replica, oldLastOp: nat, reqs: seq<Request>)
    requires Unacknowledged(r, oldLastOp) == reqs && Accepted(r.table, reqs) == |reqs|
    requires FirstNew(r, oldLastOp) + |reqs| == r.lastOp + 1
    ensures SendPrepareOKs(me, r, oldLastOp) ==
      Ok(r.(table := UpdateAll(r.table, reqs)), PrepareOKs(me, r, oldLastOp, r.lastOp + 1))
  {
    hide UpdateAll, Accepted, PrepareOKs, Unacknowledged, UpdatableAll;
    assert reqs[..|reqs|] == reqs;
  }

  lemma AcknowledgesX(r: Replica)
    requires r == D1.(log := [EX], lastOp := 1)
    ensures SendPrepareOKs(2, r, 0) == Ok(D2, {PrepareOK(1, 1, 2)})
  {
    hide UpdatableAll, UpdateAll, Accepted, PrepareOKs, SendPrepareOKs, Update;
    assert Unacknowledged(r, 0) == [X] by { assert [EX][0..1] == [EX]; }
    FirstOfItsClient(X);
    OneAck(r);
    AllAccepted(2, r, 0, [X]);
  }

  lemma ExecutesY()
    ensures HandlePrepareOK(THREE, 1, L1, PrepareOK(1, 1, 2)) == Ok(L2, {Commit(1, 1)})
  {
    assert Requests([EY, EZ][0..1]) == [Y];
    assert |{} + {2}| == 1;
    assert RecordedAll(L1.table, [EY, EZ], 0, 0, THREE.app) == L1.table;
    hide Recorded, Update;
  }

  lemma ExecutesX()
    ensures HandleCommit(THREE, 2, D2, Commit(1, 1)) == Ok(D3, {})
  {
    assert Requests([EX][0..1]) == [X];
    assert RecordedAll(D2.table, [EX], 0, 0, THREE.app) == D2.table;
    hide Recorded, Update;
  }

  // ---- The run ----

  lemma Asks() returns (events: seq<GroupEvent>)
    ensures Stage(events, [STALE, L1, D1], {}, {ASK})
  {
    hide Stage, Reached, Careful, Update, HandlePrepare, Lags, Asking;
    var before := Prepared();
    Lifts(before, [STALE, L1, D1], {GAP});
    MissesY();
    events := Delivers(Steps(before), [STALE, L1, D1], 2, GAP, D1, {});
    assert [STALE, L1, D1][2 := D1] == [STALE, L1, D1];
  }

  lemma IsAnswered() returns (events: seq<GroupEvent>)
    ensures Stage(events, [STALE, L1, D1], {}, {ANSWER})
  {
    hide GroupRun, CarefulNext, Update, HandleRequestStateTransfer;
    var before := Asks();
    AnswersX();
    events := GroupStep(before, [STALE, L1, D1], Transfer(0, ASK), [STALE, L1, D1], {}, {ANSWER});
  }

  lemma IsTakenOver() returns (events: seq<GroupEvent>)
    ensures Stage(events, [STALE, L1, D2], {PrepareOK(1, 1, 2)}, {})
  {
    hide GroupRun, Update, HandleStateTransfer, Record;
    var before := IsAnswered();
    TakesX();
    assert [STALE, L1, D1][2 := D2] == [STALE, L1, D2];
    events := GroupStep(before, [STALE, L1, D1], Transfer(2, ANSWER), [STALE, L1, D2], {PrepareOK(1, 1, 2)}, {});
  }

  /**
   The leader executes Y, and replica 2 executes X in its place. The leader commits an entry of
   its own view, and replica 2 takes the transfer over as a follower in that view.
   */
  lemma StaleTransferDisagrees() returns (events: seq<GroupEvent>)
    ensures forall i :: 0 <= i < |events| ==> CarefulTaking(THREE, GroupRun(THREE, events[..i]), events[i])
    ensures |GroupRun(THREE, events).s.reps| == 3
    ensures GroupRun(THREE, events).s.reps[1].executed == [Y] && GroupRun(THREE, events).s.reps[2].executed == [X]
    ensures !Comparable(GroupRun(THREE, events).s.reps[1].executed, GroupRun(THREE, events).s.reps[2].executed)
  {
    hide GroupRun, Update, HandlePrepareOK, HandleCommit, Recorded, CarefulTaking, Lags;
    events := IsTakenOver();
    ExecutesY();
    events := Delivers(events, [STALE, L1, D2], 1, PrepareOK(1, 1, 2), L2, {Commit(1, 1)});
    assert [STALE, L1, D2][1 := L2] == [STALE, L2, D2];
    ExecutesX();
    events := Delivers(events, [STALE, L2, D2], 2, Commit(1, 1), D3, {});
    assert [STALE, L2, D2][2 := D3] == [STALE, L2, D3];
    assert [X][0] != [Y][0];
  }
}
