/**
 Runs with state transfer. The invariant of `VrInvariant` holds in them too, as long as a transfer
 stays within one view: the replica that answers has no entries left over from an older view, and
 the one that takes the answer over is, when it does, a follower in normal status in that view.
 */
module VrTransferRuns {
  import opened VrTypes
  import opened VrTable
  import opened VrLog
  import opened VrReplica
  import opened VrProtocol
  import opened VrInvariant
  import opened VrSafety
  import opened VrSteps
  import opened VrHandlers
  import opened VrViewChange
  import opened VrRuns
  import opened VrHistory
  import opened VrTransfer

  /** The group, and what has been sent for state transfers. */
  datatype Group = Group(s: State, transfers: set<TransferMessage>)

  datatype GroupEvent = Step(e: Event) | Transfer(r: nat, m: TransferMessage)

  /** A request for a state transfer goes to everybody but the sender, the answer to the sender. */
  predicate SentTo(m: TransferMessage, k: nat) {
    match m
    case RequestStateTransfer(_, _, from) => k != from
    case StateTransfer(_, _, _, to) => k == to
  }

  /** What a replica asks for when it handles `e`. A request that it has sent before is one the network still has. */
  ghost function Asked(c: Config, s: State, e: Event): set<TransferMessage> {
    if e.Deliver? && e.r < |s.reps| && e.m in s.msgs && Addressed(c, e.m, e.r) && Lags(c, e.r, s.reps[e.r], e.m) then
      {Asking(e.r, s.reps[e.r])}
    else
      {}
  }

  ghost function Next(c: Config, g: Group, e: GroupEvent): Group {
    match e
    case Step(e) => Group(Apply(c, g.s, e), g.transfers + Asked(c, g.s, e))
    case Transfer(k, m) =>
      if k >= |g.s.reps| || m !in g.transfers || !SentTo(m, k) then g
      else if m.RequestStateTransfer? then g.(transfers := g.transfers + HandleRequestStateTransfer(k, g.s.reps[k], m))
      else
        var o := HandleStateTransfer(c, k, g.s.reps[k], m);
        g.(s := Moved(c, g.s, k, o.r, o.out, map[]))
  }

  ghost function GroupRun(c: Config, events: seq<GroupEvent>): Group {
    if events == [] then Group(Init(c), {})
    else Next(c, GroupRun(c, events[..|events| - 1]), events[|events| - 1])
  }

  /** No replica sends entries that it has from an older view than the one it is in the log of. */
  predicate Answers(r: Replica, m: TransferMessage)
    requires m.RequestStateTransfer?
  {
    r.normal && m.view <= r.view ==> r.lastOp == |r.log|
  }

  /** An answer is taken over in the view it was given in, by a follower; an older one is dropped. */
  predicate Accepts(c: Config, me: nat, r: Replica, m: TransferMessage)
    requires m.StateTransfer?
  {
    m.view < r.view || (r.normal && m.view == r.view && c.Leader(r.view) != me)
  }

  ghost predicate CarefulNext(c: Config, g: Group, e: GroupEvent) {
    match e
    case Step(e) => CarefulStep(c, g.s, e)
    case Transfer(k, m) =>
      k < |g.s.reps| && m in g.transfers && SentTo(m, k) ==>
        if m.RequestStateTransfer? then Answers(g.s.reps[k], m) else Accepts(c, k, g.s.reps[k], m)
  }

  ghost predicate CarefulRun(c: Config, events: seq<GroupEvent>) {
    forall i :: 0 <= i < |events| ==> CarefulNext(c, GroupRun(c, events[..i]), events[i])
  }

  // ---- What has been sent ----

  /** The entries are those of the view's log, and its leader holds them. */
  ghost predicate PartOK(c: Config, h: History, view: nat, s: Suffix)
    requires view in h.elections
  {
    var cur, end := h.elections[view].cur, s.first - 1 + |s.entries|;
    s.first >= 1 && (s.entries != [] ==> end <= Held(h, view, c.Leader(view)) && end <= |cur| && s.entries == cur[s.first - 1..end])
  }

  ghost predicate TransferOK(c: Config, h: History, m: TransferMessage) {
    m.StateTransfer? ==> MsgOK(c, h, Commit(m.view, m.opnum)) && PartOK(c, h, m.view, m.suffix)
  }

  ghost predicate GroupOK(c: Config, g: Group) {
    Inv(c, g.s) && forall m :: m in g.transfers ==> TransferOK(c, g.s.hist, m)
  }

  lemma TransferStable(c: Config, h: History, h': History, m: TransferMessage)
    requires Later(h, h') && TransferOK(c, h, m)
    ensures TransferOK(c, h', m)
  {
    if m.StateTransfer? {
      assert h'.elections[m.view].cur[..m.opnum] == h.elections[m.view].cur[..m.opnum];
      SettledStable(c, h, h', h.elections[m.view].cur[..m.opnum], m.view + 1, m.view + 1);
    }
  }

  lemma InvHeldOK(c: Config, s: State)
    requires Inv(c, s)
    ensures HeldOK(c, s.hist) && ElectionsOK(c, s.hist) && VotesOK(c, s) && |s.reps| == c.N()
  {
    hide RepOK, MsgOK, ElectionsOK, HeldOK, VotesOK;
  }

  lemma AnswerOK(c: Config, s: State, k: nat, m: TransferMessage)
    requires Inv(c, s) && k < |s.reps| && m.RequestStateTransfer? && Answers(s.reps[k], m)
    ensures forall t :: t in HandleRequestStateTransfer(k, s.reps[k], m) ==> TransferOK(c, s.hist, t)
  {
    hide *;
    InvRepOK(c, s, k);
    InvHeldOK(c, s);
    AnswersWith(c, s, k, s.reps[k], m);
  }

  lemma AnswersWith(c: Config, s: State, k: nat, r: Replica, m: TransferMessage)
    requires RepOK(c, s, k, r) && HeldOK(c, s.hist) && m.RequestStateTransfer? && Answers(r, m)
    ensures forall t :: t in HandleRequestStateTransfer(k, r, m) ==> TransferOK(c, s.hist, t)
  {
    hide RepOK, HeldOK, TransferOK, Dump;
    if r.normal && m.view <= r.view {
      SentOK(c, s, k, r, m.opnum + 1, m.from);
    } else {
      AskingOK(c, s.hist, k, r);
    }
  }

  lemma AskingOK(c: Config, h: History, k: nat, r: Replica)
    ensures TransferOK(c, h, Asking(k, r))
  {
  }

  lemma SentOK(c: Config, s: State, k: nat, r: Replica, first: nat, to: nat)
    requires RepOK(c, s, k, r) && HeldOK(c, s.hist) && r.normal && r.lastOp == |r.log|
    ensures TransferOK(c, s.hist, StateTransfer(r.view, r.committed, Dump(r.log, first), to))
  {
    var cur := s.hist.elections[r.view].cur;
    assert r.log[..r.committed] == cur[..r.committed];
    if Dump(r.log, first).entries != [] { assert Held(s.hist, r.view, k) > 0; }
  }

  // ---- What is taken over ----

  /** The part of a view's log from opnum `first` on. */
  predicate PartOf(cur: Log, s: Suffix) {
    s.first >= 1 && (s.entries != [] ==> s.first - 1 + |s.entries| <= |cur| && s.entries == cur[s.first - 1..s.first - 1 + |s.entries|])
  }

  lemma TakesOne(cur: Log, r: Replica, oldLastOp: nat, opnum: nat)
    requires r.log <= cur && r.lastOp == |r.log| && 1 <= opnum <= |cur|
    ensures var t := Take(r, oldLastOp, opnum, cur[opnum - 1]);
      t.Taken? ==>
        && t.oldLastOp == oldLastOp && t.r == r.(log := t.r.log, lastOp := |t.r.log|)
        && r.log <= t.r.log <= cur && (|t.r.log| > |r.log| ==> |t.r.log| <= opnum)
  {
    hide RemoveAfter;
  }

  /** A log that follows the view's has, after the transfer, at least as much of it. */
  lemma {:induction false} TakesPart(cur: Log, r: Replica, oldLastOp: nat, s: Suffix)
    requires r.log <= cur && r.lastOp == |r.log| && PartOf(cur, s)
    ensures var t := TakeAll(r, oldLastOp, s);
      t.Taken? ==>
        && t.oldLastOp == oldLastOp && t.r == r.(log := t.r.log, lastOp := |t.r.log|)
        && r.log <= t.r.log <= cur
        && (|t.r.log| > |r.log| ==> s.entries != [] && |t.r.log| <= s.first - 1 + |s.entries|)
    decreases |s.entries|
  {
    hide Take;
    if s.entries != [] {
      assert s.entries[0] == cur[s.first - 1];
      TakesOne(cur, r, oldLastOp, s.first);
      var t := Take(r, oldLastOp, s.first, s.entries[0]);
      if t.Taken? {
        TakesPart(cur, t.r, t.oldLastOp, Suffix(s.first + 1, s.entries[1..]));
      }
    }
  }

  /** A replica with entries from an older view cannot take anything over. */
  lemma TakesNone(r: Replica, s: Suffix)
    requires r.lastOp == 0 && r.committed == 0 && r.log != [] && s.first >= 1
    ensures TakeAll(r, 0, s) == if s.entries == [] then Taken(r, 0) else Refused
  {
  }

  // ---- Every step keeps the invariant ----

  /** What has been taken over before anything is executed or acknowledged. */
  ghost predicate TookOver(c: Config, h: History, was: Replica, r: Replica, oldLastOp: nat)
    requires was.view in h.elections
  {
    && (r == was || (Extended(was, r) && r.log <= h.elections[r.view].cur && r.lastOp <= Held(h, r.view, c.Leader(r.view))))
    && r == was.(log := r.log, lastOp := r.lastOp) && oldLastOp <= r.lastOp
  }

  /** What the invariant says about a follower in its view. */
  ghost predicate FollowsOK(c: Config, h: History, was: Replica)
    requires was.view in h.elections
  {
    && was.normal && was.committed <= was.lastOp
    && (was.lastOp == |was.log| ==> was.log <= h.elections[was.view].cur && was.lastOp <= Held(h, was.view, c.Leader(was.view)))
    && (was.lastOp != |was.log| ==> was.lastOp == 0 && was.log != [])
    && forall i :: 0 <= i < |h.elections[was.view].cur| ==> h.elections[was.view].cur[i].view <= was.view
  }

  lemma FollowsView(c: Config, s: State, me: nat, was: Replica)
    requires RepOK(c, s, me, was) && ElectionsOK(c, s.hist) && HeldOK(c, s.hist) && was.normal
    ensures was.view in s.hist.elections && FollowsOK(c, s.hist, was)
  {
    hide ElectionsOK, Remembers, Settled, CollectedOK, LogOK, Stale;
    ViewsBound(c, s.hist, was.view);
    if was.lastOp > 0 { assert Held(s.hist, was.view, me) > 0; }
  }

  lemma ViewsBound(c: Config, h: History, v: nat)
    requires ElectionsOK(c, h) && v in h.elections
    ensures forall i :: 0 <= i < |h.elections[v].cur| ==> h.elections[v].cur[i].view <= v
  {
    assert ElectionOK(c, h, v);
    hide ElectionsOK, VoteOK, LogOK, OpOK;
    var e := h.elections[v];
    forall i | 0 <= i < |e.cur| ensures e.cur[i].view <= v {
      if i < |e.base| { assert e.cur[i] == e.base[i]; }
    }
  }

  lemma TakenOver(c: Config, h: History, was: Replica, m: TransferMessage)
    requires m.StateTransfer? && m.view == was.view && was.view in h.elections && PartOK(c, h, m.view, m.suffix)
    requires FollowsOK(c, h, was)
    ensures var t := TakeAll(was, was.lastOp, m.suffix); t.Taken? ==> TookOver(c, h, was, t.r, t.oldLastOp)
  {
    hide TakeAll;
    if was.lastOp == |was.log| {
      TakesPart(h.elections[was.view].cur, was, was.lastOp, m.suffix);
    } else {
      TakesNone(was, m.suffix);
    }
  }

  lemma Acknowledges(me: nat, r: Replica, oldLastOp: nat)
    requires oldLastOp <= r.lastOp
    ensures var o := SendPrepareOKs(me, r, oldLastOp);
      && o.r == r.(table := o.r.table)
      && forall m :: m in o.out ==> m.PrepareOK? && m.view == r.view && m.from == me && m.opnum <= r.lastOp
  {
    hide UpdateAll, UpdatableAll, Accepted, Requests;
  }

  /** The replica holds what it has taken over, before it executes or acknowledges any of it. */
  lemma HoldsTaken(c: Config, s: State, me: nat, r: Replica, oldLastOp: nat)
    requires Inv(c, s) && me < |s.reps| && s.reps[me].normal && c.Leader(r.view) != me
    requires s.reps[me].view in s.hist.elections && TookOver(c, s.hist, s.reps[me], r, oldLastOp)
    ensures Inv(c, Moved(c, s, me, r, {}, map[]))
  {
    hide Inv, RepOK, Extended, Record, HeldOK, CollectedOK;
    if r == s.reps[me] {
      IdleStepOK(c, s, me, map[]);
    } else {
      InvRepOK(c, s, me);
      StillCollected(c, s, me, s.reps[me], r);
      CollectedMore(s, Moved(c, s, me, r, {}, map[]), r, me);
      ExtendOK(c, s, me, r, {}, map[]);
    }
  }

  lemma StillCollected(c: Config, s: State, me: nat, was: Replica, r: Replica)
    requires RepOK(c, s, me, was) && r == was.(log := r.log, lastOp := r.lastOp)
    ensures CollectedOK(s, r, me)
  {
  }

  /** Executing up to what the sender has committed is what a Commit message with that opnum does. */
  lemma ExecutesAsCommit(c: Config, me: nat, r: Replica, opnum: nat)
    requires r.normal && c.Leader(r.view) != me
    requires opnum <= r.lastOp && (r.committed < opnum ==> opnum <= |r.log|)
    ensures HandleCommit(c, me, r, Commit(r.view, opnum)) == Ok(CommitUpTo(c, r, opnum), {})
  {
    hide RecordedAll, Requests;
  }

  lemma AcksStay(c: Config, s: State, me: nat, r: Replica, r2: Replica, o: Outcome)
    requires StaysOK(c, s, me, r, r2, {}) && o.r == r2.(table := o.r.table)
    requires r.normal && c.Leader(r.view) != me && me < c.N() && Held(s.hist, r.view, me) == r.lastOp
    requires forall m :: m in o.out ==> m.PrepareOK? && m.view == r2.view && m.from == me && m.opnum <= r2.lastOp
    ensures StaysOK(c, s, me, r, o.r, o.out)
  {
    hide Settled, Requests;
  }

  /** What the replica does with its log once it has taken everything over. */
  lemma Resumes(c: Config, s: State, me: nat, r: Replica, opnum: nat, oldLastOp: nat)
    requires Inv(c, s) && me < |s.reps| && s.reps[me] == r && r.normal && c.Leader(r.view) != me
    requires MsgOK(c, s.hist, Commit(r.view, opnum)) && oldLastOp <= r.lastOp
    requires opnum <= r.lastOp && (r.committed < opnum ==> opnum <= |r.log|)
    ensures var o := SendPrepareOKs(me, CommitUpTo(c, r, opnum), oldLastOp); Inv(c, Moved(c, s, me, o.r, o.out, map[]))
  {
    hide Inv, RepOK, MsgOK, SendPrepareOKs, HandleCommit, Moved, StaysOK, CommitUpTo;
    InvRepOK(c, s, me);
    InvHeldOK(c, s);
    ExecutesAsCommit(c, me, r, opnum);
    CommitStays(c, s, me, r, Commit(r.view, opnum));
    var r2 := CommitUpTo(c, r, opnum);
    var o := SendPrepareOKs(me, r2, oldLastOp);
    Acknowledges(me, r2, oldLastOp);
    HoldsItsLog(c, s, me, r);
    AcksStay(c, s, me, r, r2, o);
    Stays(c, s, me, o.r, o.out, map[]);
  }

  lemma HoldsItsLog(c: Config, s: State, me: nat, r: Replica)
    requires RepOK(c, s, me, r) && r.normal
    ensures Held(s.hist, r.view, me) == r.lastOp
  {
  }

  /** Two moves of a follower in its view are one, when the second leaves its log alone. */
  lemma MovedTwice(c: Config, s: State, me: nat, r1: Replica, r2: Replica, out: set<Message>)
    requires me < |s.reps| && r1.normal && c.Leader(r1.view) != me
    requires r2.normal && r2.view == r1.view && r2.lastOp == r1.lastOp
    ensures Moved(c, Moved(c, s, me, r1, {}, map[]), me, r2, out, map[]) == Moved(c, s, me, r2, out, map[])
  {
    assert s.reps[me := r1][me := r2] == s.reps[me := r2];
    assert s.msgs + {} + out == s.msgs + out;
    var h: map<(nat, nat), nat>, op: nat, op': nat := s.hist.held, r1.lastOp, r2.lastOp;
    assert h[(r1.view, me) := op][(r1.view, me) := op'] == h[(r1.view, me) := op'];
  }

  lemma TransferTakes(c: Config, s: State, me: nat, m: TransferMessage)
    requires Inv(c, s) && me < |s.reps| && m.StateTransfer? && TransferOK(c, s.hist, m)
    requires s.reps[me].normal && m.view == s.reps[me].view
    ensures s.reps[me].view in s.hist.elections
    ensures var t := TakeAll(s.reps[me], s.reps[me].lastOp, m.suffix);
      t.Taken? ==> TookOver(c, s.hist, s.reps[me], t.r, t.oldLastOp)
  {
    hide Inv, RepOK, ElectionsOK, HeldOK, PartOK, FollowsOK, TakeAll, TookOver;
    InvRepOK(c, s, me);
    InvHeldOK(c, s);
    FollowsView(c, s, me, s.reps[me]);
    TakenOver(c, s.hist, s.reps[me], m);
  }

  lemma TookOverSteady(c: Config, h: History, was: Replica, r: Replica, oldLastOp: nat)
    requires was.normal && was.view in h.elections && TookOver(c, h, was, r, oldLastOp)
    ensures Steady(was, r)
  {
  }

  /** The received entries can be taken over, and with them the log has what the sender has committed. */
  predicate TakesOver(r: Replica, m: TransferMessage)
    requires m.StateTransfer?
  {
    var t := TakeAll(r, r.lastOp, m.suffix);
    t.Taken? && m.opnum <= t.r.lastOp && (t.r.committed < m.opnum ==> m.opnum <= |t.r.log|)
  }

  lemma TransferOutcome(c: Config, h: History, me: nat, was: Replica, m: TransferMessage)
    requires m.StateTransfer? && was.normal && m.view == was.view && was.view in h.elections
    requires var t := TakeAll(was, was.lastOp, m.suffix); t.Taken? ==> TookOver(c, h, was, t.r, t.oldLastOp)
    ensures var t, o := TakeAll(was, was.lastOp, m.suffix), HandleStateTransfer(c, me, was, m);
      o == if TakesOver(was, m) then SendPrepareOKs(me, CommitUpTo(c, t.r, m.opnum), t.oldLastOp) else Crash(was, {})
  {
    hide SendPrepareOKs, TakeAll, CommitUpTo, Extended;
  }

  lemma TransferStepOK(c: Config, s: State, me: nat, m: TransferMessage)
    requires Inv(c, s) && me < |s.reps| && m.StateTransfer? && TransferOK(c, s.hist, m)
    requires Accepts(c, me, s.reps[me], m)
    ensures var o := HandleStateTransfer(c, me, s.reps[me], m); Inv(c, Moved(c, s, me, o.r, o.out, map[]))
  {
    hide Inv, RepOK, Moved, TransferOK, SendPrepareOKs, TakeAll, CommitUpTo, TookOver;
    var was := s.reps[me];
    if m.view == was.view {
      TransferTakes(c, s, me, m);
      TransferOutcome(c, s.hist, me, was, m);
      hide HandleStateTransfer;
      if TakesOver(was, m) {
        var t := TakeAll(was, was.lastOp, m.suffix);
        TakesAndResumes(c, s, me, m, t.r, t.oldLastOp);
      } else {
        IdleStepOK(c, s, me, map[]);
      }
    } else {
      IdleStepOK(c, s, me, map[]);
    }
  }

  lemma TakesAndResumes(c: Config, s: State, me: nat, m: TransferMessage, r: Replica, oldLastOp: nat)
    requires Inv(c, s) && me < |s.reps| && m.StateTransfer? && TransferOK(c, s.hist, m)
    requires s.reps[me].normal && m.view == s.reps[me].view && c.Leader(m.view) != me
    requires TakeAll(s.reps[me], s.reps[me].lastOp, m.suffix) == Taken(r, oldLastOp)
    requires m.opnum <= r.lastOp && (r.committed < m.opnum ==> m.opnum <= |r.log|)
    ensures var o := SendPrepareOKs(me, CommitUpTo(c, r, m.opnum), oldLastOp); Inv(c, Moved(c, s, me, o.r, o.out, map[]))
  {
    hide Inv, RepOK, TransferOK, SendPrepareOKs, TakeAll, TookOver, Later, Record, VotesOK, ElectionsOK, HeldOK, CommitUpTo;
    var was, s1 := s.reps[me], Moved(c, s, me, r, {}, map[]);
    TransferTakes(c, s, me, m);
    TookOverPlace(c, s.hist, was, r, oldLastOp);
    HoldsTaken(c, s, me, r, oldLastOp);
    InvRepOK(c, s, me);
    InvHeldOK(c, s);
    TookOverSteady(c, s.hist, was, r, oldLastOp);
    RecordLater(c, s, me, r, map[]);
    TransferStable(c, s.hist, s1.hist, m);
    CommitPart(c, s1.hist, m);
    Resumes(c, s1, me, r, m.opnum, oldLastOp);
    var o := SendPrepareOKs(me, CommitUpTo(c, r, m.opnum), oldLastOp);
    Acknowledges(me, CommitUpTo(c, r, m.opnum), oldLastOp);
    assert o.r.view == r.view && o.r.normal && o.r.lastOp == r.lastOp;
    MovedTwice(c, s, me, r, o.r, o.out);
  }

  /** Taking a transfer over moves the replica on within its view. */
  lemma TransferSteady(c: Config, s: State, me: nat, m: TransferMessage)
    requires Inv(c, s) && me < |s.reps| && m.StateTransfer? && TransferOK(c, s.hist, m)
    requires Accepts(c, me, s.reps[me], m)
    ensures Steady(s.reps[me], HandleStateTransfer(c, me, s.reps[me], m).r)
  {
    hide Inv, RepOK, TransferOK, SendPrepareOKs, TakeAll, TookOver;
    var was := s.reps[me];
    if m.view == was.view {
      TransferTakes(c, s, me, m);
      TransferOutcome(c, s.hist, me, was, m);
      hide HandleStateTransfer;
      if TakesOver(was, m) {
        var t := TakeAll(was, was.lastOp, m.suffix);
        TookOverSteady(c, s.hist, was, t.r, t.oldLastOp);
        TookOverPlace(c, s.hist, was, t.r, t.oldLastOp);
        Acknowledges(me, CommitUpTo(c, t.r, m.opnum), t.oldLastOp);
        hide RecordedAll, Requests;
      }
    }
  }

  lemma TookOverPlace(c: Config, h: History, was: Replica, r: Replica, oldLastOp: nat)
    requires was.normal && was.view in h.elections && TookOver(c, h, was, r, oldLastOp)
    ensures r.normal && r.view == was.view && oldLastOp <= r.lastOp
  {
  }

  lemma CommitPart(c: Config, h: History, m: TransferMessage)
    requires m.StateTransfer? && TransferOK(c, h, m)
    ensures MsgOK(c, h, Commit(m.view, m.opnum))
  {
  }

  lemma TransfersStay(c: Config, h: History, h': History, sent: set<TransferMessage>)
    requires Later(h, h') && forall m :: m in sent ==> TransferOK(c, h, m)
    ensures forall m :: m in sent ==> TransferOK(c, h', m)
  {
    hide Later, TransferOK;
    forall m | m in sent ensures TransferOK(c, h', m) { TransferStable(c, h, h', m); }
  }

  lemma EventOK(c: Config, g: Group, e: Event)
    requires GroupOK(c, g) && CarefulStep(c, g.s, e)
    ensures GroupOK(c, Next(c, g, Step(e)))
  {
    hide Inv, TransferOK, CarefulStep, Apply, Later;
    StepOK(c, g.s, e);
    StepLater(c, g.s, e);
    TransfersStay(c, g.s.hist, Apply(c, g.s, e).hist, g.transfers);
    if e.r < |g.s.reps| { AskingOK(c, Apply(c, g.s, e).hist, e.r, g.s.reps[e.r]); }
    hide Asking, Lags, Addressed;
  }

  lemma StateTransferOK(c: Config, g: Group, k: nat, m: TransferMessage)
    requires GroupOK(c, g) && k < |g.s.reps| && m in g.transfers && m.StateTransfer? && Accepts(c, k, g.s.reps[k], m)
    ensures var o := HandleStateTransfer(c, k, g.s.reps[k], m); GroupOK(c, g.(s := Moved(c, g.s, k, o.r, o.out, map[])))
  {
    hide Inv, RepOK, VotesOK, TransferOK, HandleStateTransfer, Accepts, Later, Steady, Record;
    var o := HandleStateTransfer(c, k, g.s.reps[k], m);
    InvRepOK(c, g.s, k);
    InvHeldOK(c, g.s);
    TransferStepOK(c, g.s, k, m);
    TransferSteady(c, g.s, k, m);
    RecordLater(c, g.s, k, o.r, map[]);
    TransfersStay(c, g.s.hist, Record(c, g.s.hist, k, o.r, map[]), g.transfers);
  }

  lemma NextOK(c: Config, g: Group, e: GroupEvent)
    requires GroupOK(c, g) && CarefulNext(c, g, e)
    ensures GroupOK(c, Next(c, g, e))
  {
    hide Inv, TransferOK, CarefulStep, Apply, HandleStateTransfer, HandleRequestStateTransfer, Moved, Answers, Accepts, SentTo;
    if e.Step? {
      EventOK(c, g, e.e);
    } else if e.r < |g.s.reps| && e.m in g.transfers && SentTo(e.m, e.r) {
      if e.m.RequestStateTransfer? {
        AnswerOK(c, g.s, e.r, e.m);
      } else {
        StateTransferOK(c, g, e.r, e.m);
      }
    }
  }

  lemma CarefulButLast(c: Config, events: seq<GroupEvent>)
    requires CarefulRun(c, events) && events != []
    ensures var n := |events| - 1;
      CarefulRun(c, events[..n]) && CarefulNext(c, GroupRun(c, events[..n]), events[n])
  {
    hide GroupRun, CarefulNext;
    var n := |events| - 1;
    forall i | 0 <= i < n ensures CarefulNext(c, GroupRun(c, events[..n][..i]), events[..n][i]) {
      assert events[..n][..i] == events[..i];
    }
  }

  lemma GroupRunStep(c: Config, events: seq<GroupEvent>)
    requires events != []
    ensures GroupRun(c, events) == Next(c, GroupRun(c, events[..|events| - 1]), events[|events| - 1])
  {
    hide Next;
  }

  /** The invariant holds at the end of every careful run with state transfers. */
  lemma {:induction false} GroupRunOK(c: Config, events: seq<GroupEvent>)
    requires CarefulRun(c, events)
    ensures GroupOK(c, GroupRun(c, events))
    decreases |events|
  {
    hide Inv, GroupRun, CarefulRun, Next, CarefulNext;
    if events == [] {
      GroupBegins(c);
    } else {
      hide GroupOK;
      var n := |events| - 1;
      CarefulButLast(c, events);
      GroupRunOK(c, events[..n]);
      NextOK(c, GroupRun(c, events[..n]), events[n]);
      GroupRunStep(c, events);
    }
  }

  lemma GroupBegins(c: Config)
    ensures GroupOK(c, GroupRun(c, []))
  {
    hide Inv, Init;
    InitOK(c);
  }

  /** Agreement, with state transfers: any two replicas have executed comparable sequences of requests. */
  lemma TransferAgreement(c: Config, events: seq<GroupEvent>, j: nat, k: nat)
    requires CarefulRun(c, events) && j < c.N() && k < c.N()
    ensures var s := GroupRun(c, events).s; |s.reps| == c.N() && Comparable(s.reps[j].executed, s.reps[k].executed)
  {
    hide GroupRun, CarefulRun, Inv;
    GroupRunOK(c, events);
    AgreeIn(c, GroupRun(c, events).s, j, k);
  }

  /** Log matching, with state transfers. */
  lemma TransferLogMatching(c: Config, events: seq<GroupEvent>, j: nat, k: nat)
    requires CarefulRun(c, events) && j < c.N() && k < c.N()
    ensures var s := GroupRun(c, events).s; |s.reps| == c.N() && Matching(s.reps[j].log, s.reps[k].log)
  {
    hide GroupRun, CarefulRun, Inv;
    GroupRunOK(c, events);
    MatchIn(c, GroupRun(c, events).s, j, k);
  }

  /** Leaders of the same or a later view have what a replica has executed, state transfers included. */
  lemma TransferLeaderHasExecuted(c: Config, events: seq<GroupEvent>, leader: nat, k: nat)
    requires CarefulRun(c, events) && leader < c.N() && k < c.N() && |GroupRun(c, events).s.reps| == c.N()
    requires var s := GroupRun(c, events).s; IsLeading(c, s, leader) && s.reps[k].view <= s.reps[leader].view
    ensures var s := GroupRun(c, events).s; s.reps[k].executed <= Requests(s.reps[leader].log)
  {
    hide GroupRun, CarefulRun, Inv;
    GroupRunOK(c, events);
    LeaderHasIn(c, GroupRun(c, events).s, leader, k);
  }
}
