/**
 Each handler, matched with the way it moves its replica.
 */
module VrHandlers {
  import opened Quorums
  import opened VrTypes
  import opened VrTable
  import opened VrLog
  import opened VrReplica
  import opened VrProtocol
  import opened VrInvariant
  import opened VrSafety
  import opened VrSteps

  /** The two ways a handler can leave a replica that stays where it is: what `StayOK` asks for. */
  ghost predicate StaysOK(c: Config, s: State, me: nat, was: Replica, r: Replica, out: set<Message>) {
    && SamePlace(was, r)
    && (!r.normal ==> r.committed == was.committed)
    && r.committed <= r.lastOp <= |r.log| && r.executed == Requests(r.log[..r.committed])
    && Settled(c, s.hist, r.log[..r.committed], Bound(r))
    && CollectedOK(s, r, me)
    && forall m :: m in out ==> MsgOK(c, s.hist, m)
  }

  lemma CollectedMore(s: State, s': State, r: Replica, me: nat)
    requires CollectedOK(s, r, me) && s.msgs <= s'.msgs
    ensures CollectedOK(s', r, me)
  {
  }

  lemma Stays(c: Config, s: State, me: nat, r: Replica, out: set<Message>, ballots: map<nat, Vote>)
    requires Inv(c, s) && me < |s.reps| && StaysOK(c, s, me, s.reps[me], r, out)
    ensures Inv(c, Moved(c, s, me, r, out, ballots))
  {
    CollectedMore(s, Moved(c, s, me, r, out, ballots), r, me);
    StayOK(c, s, me, r, out, ballots);
  }

  lemma Idles(c: Config, s: State, me: nat, r: Replica)
    requires RepOK(c, s, me, r)
    ensures StaysOK(c, s, me, r, r, {})
  {
  }

  lemma RequestsAppend(log: Log, i: nat, j: nat)
    requires i <= j <= |log|
    ensures Requests(log[..i]) + Requests(log[i..j]) == Requests(log[..j])
  {
  }

  lemma SettledPrefix(c: Config, h: History, log: Log, whole: Log, b: nat, b': nat)
    requires log <= whole && Settled(c, h, whole, b) && b <= b'
    ensures Settled(c, h, log, b')
  {
    if log != [] {
      var v: nat, i: nat :| v < b && Chosen(c, h, v, i) && whole <= h.elections[v].cur[..i];
      assert log <= h.elections[v].cur[..i];
    }
  }

  // ---- The leader's log ----

  lemma BatchMsgOK(c: Config, h: History, me: nat, r: Replica)
    requires r.normal && c.Leader(r.view) == me && r.view in h.elections
    requires Held(h, r.view, me) == r.lastOp <= |r.log| && r.log == h.elections[r.view].cur
    ensures CloseBatch(r).Ok? ==> forall m :: m in CloseBatch(r).out ==> MsgOK(c, h, m)
  {
  }

  /** The request is one that the leader appends. */
  predicate Appends(c: Config, me: nat, r: Replica, req: Request, up: Upcall) {
    r.normal && c.Leader(r.view) == me && !Old(r.table, req) && up.Replicate?
  }

  lemma RequestAppends(c: Config, me: nat, was: Replica, req: Request, up: Upcall)
    requires Appends(c, me, was, req, up) && HandleRequest(c, me, was, req, up).Ok?
    ensures var o, r1 := HandleRequest(c, me, was, req, up), Appended(was, req, up.op);
      was.lastOp == |was.log| && o.r == r1.(batchEnd := o.r.batchEnd) &&
      (o == CloseBatch(r1) || o == Ok(r1, {}))
  {
  }

  lemma RequestMoves(c: Config, s: State, me: nat, was: Replica, req: Request, up: Upcall, h': History)
    requires RepOK(c, s, me, was) && Appends(c, me, was, req, up)
    requires HandleRequest(c, me, was, req, up).Ok?
    requires HoldsMore(c, s.hist, h', me, HandleRequest(c, me, was, req, up).r)
    ensures var o := HandleRequest(c, me, was, req, up);
      Extended(was, o.r) && CollectedOK(s, o.r, me) && forall m :: m in o.out ==> MsgOK(c, h', m)
  {
    RequestAppends(c, me, was, req, up);
    hide HandleRequest, VoteOK, Settled, Update;
    BatchMsgOK(c, h', me, Appended(was, req, up.op));
    hide MsgOK, CloseBatch;
  }

  lemma RequestExtends(c: Config, s: State, me: nat, was: Replica, req: Request, up: Upcall)
    requires RepOK(c, s, me, was) && Appends(c, me, was, req, up)
    requires HandleRequest(c, me, was, req, up).Ok?
    ensures var r := HandleRequest(c, me, was, req, up).r; Extended(was, r) && OwnFrom(r, |was.log|)
  {
    RequestAppends(c, me, was, req, up);
    hide HandleRequest, CloseBatch, VoteOK, Settled, CollectedOK, Update;
  }

  /** A request that is not appended changes at most the client table. */
  lemma RequestStays(c: Config, s: State, me: nat, was: Replica, req: Request, up: Upcall)
    requires RepOK(c, s, me, was) && !Appends(c, me, was, req, up)
    ensures var o := HandleRequest(c, me, was, req, up); o.Ok? && StaysOK(c, s, me, was, o.r, o.out)
  {
  }

  lemma RequestOK(c: Config, s: State, me: nat, req: Request, up: Upcall, ballots: map<nat, Vote>)
    requires Inv(c, s) && me < |s.reps|
    requires HandleRequest(c, me, s.reps[me], req, up).Ok?
    ensures var o := HandleRequest(c, me, s.reps[me], req, up); Inv(c, Moved(c, s, me, o.r, o.out, ballots))
  {
    var was := s.reps[me];
    var o := HandleRequest(c, me, was, req, up);
    assert RepOK(c, s, me, was);
    if !Appends(c, me, was, req, up) {
      RequestStays(c, s, me, was, req, up);
      Stays(c, s, me, o.r, o.out, ballots);
    } else {
      RequestExtends(c, s, me, was, req, up);
      ExtendAdvances(c, s, me, o.r, o.out, ballots);
      var s' := Moved(c, s, me, o.r, o.out, ballots);
      RequestMoves(c, s, me, was, req, up, s'.hist);
      CollectedMore(s, s', o.r, me);
      hide Inv, HandleRequest;
      ExtendOK(c, s, me, o.r, o.out, ballots);
    }
  }

  lemma BatchTimerStays(c: Config, s: State, me: nat, was: Replica)
    requires RepOK(c, s, me, was) && was.normal && c.Leader(was.view) == me && CloseBatch(was).Ok?
    ensures StaysOK(c, s, me, was, CloseBatch(was).r, CloseBatch(was).out)
  {
    BatchMsgOK(c, s.hist, me, was);
  }

  lemma NullCommitStays(c: Config, s: State, me: nat, was: Replica)
    requires RepOK(c, s, me, was)
    ensures var o := SendNullCommit(c, me, was); StaysOK(c, s, me, was, o.r, o.out)
  {
  }

  // ---- Prepare, PrepareOK, Commit ----

  /** A follower that appends the part of a batch it does not have gets a longer prefix of the leader's log. */
  lemma PrepareExtends(c: Config, h: History, r: Replica, m: Message)
    requires m.Prepare? && MsgOK(c, h, m) && m.view == r.view && r.lastOp == |r.log|
    requires r.log <= h.elections[r.view].cur
    requires m.batchStart <= r.lastOp + 1 <= m.opnum
    ensures var log := r.log + Stamped(m.view, m.reqs[r.lastOp + 1 - m.batchStart..]);
      |log| == m.opnum && log <= h.elections[r.view].cur
  {
    var cur := h.elections[r.view].cur;
    var added := m.reqs[r.lastOp + 1 - m.batchStart..];
    var log := r.log + Stamped(m.view, added);
    forall i | |r.log| <= i < |log| ensures log[i] == cur[i] {
      var j := i + 1 - m.batchStart;
      assert cur[m.batchStart - 1 + j] == Entry(m.view, m.reqs[j]);
    }
  }

  lemma PrepareStays(c: Config, s: State, me: nat, was: Replica, m: Message)
    requires RepOK(c, s, me, was) && m.Prepare? && me < c.N()
    requires var o := HandlePrepare(c, me, was, m); o.Ok? && o.r == was
    ensures StaysOK(c, s, me, was, was, HandlePrepare(c, me, was, m).out)
  {
  }

  lemma PrepareMoves(c: Config, s: State, me: nat, was: Replica, m: Message)
    requires RepOK(c, s, me, was) && m.Prepare? && MsgOK(c, s.hist, m) && me < c.N()
    requires var o := HandlePrepare(c, me, was, m); o.Ok? && o.r != was
    ensures var o := HandlePrepare(c, me, was, m);
      Extended(was, o.r) && CollectedOK(s, o.r, me) && c.Leader(o.r.view) != me &&
      o.r.log <= s.hist.elections[o.r.view].cur && o.r.lastOp <= Held(s.hist, o.r.view, c.Leader(o.r.view)) &&
      o.out == {PrepareOK(o.r.view, o.r.lastOp, me)}
  {
    PrepareExtends(c, s.hist, was, m);
  }

  lemma AckMsgOK(c: Config, h: History, me: nat, r: Replica)
    requires me < c.N() && c.Leader(r.view) != me && r.lastOp <= Held(h, r.view, me)
    ensures MsgOK(c, h, PrepareOK(r.view, r.lastOp, me))
  {
  }

  lemma PrepareAdvances(c: Config, s: State, me: nat, r: Replica, out: set<Message>, ballots: map<nat, Vote>)
    requires me < |s.reps| && me < c.N() && RepOK(c, s, me, s.reps[me]) && Extended(s.reps[me], r)
    requires CollectedOK(s, r, me) && c.Leader(r.view) != me
    requires out == {PrepareOK(r.view, r.lastOp, me)}
    ensures var s' := Moved(c, s, me, r, out, ballots);
      && Advances(c, s, s', me, r) && HoldsMore(c, s.hist, s'.hist, me, r) && CollectedOK(s', r, me)
      && forall m :: m in s'.msgs && m !in s.msgs ==> MsgOK(c, s'.hist, m)
  {
    var s' := Moved(c, s, me, r, out, ballots);
    ExtendAdvances(c, s, me, r, out, ballots);
    CollectedMore(s, s', r, me);
    AckMsgOK(c, s'.hist, me, r);
  }

  lemma PrepareExtendsOK(c: Config, s: State, me: nat, r: Replica, out: set<Message>, ballots: map<nat, Vote>)
    requires Inv(c, s) && me < |s.reps| && Extended(s.reps[me], r) && r.view in s.hist.elections
    requires CollectedOK(s, r, me) && c.Leader(r.view) != me && r.lastOp <= Held(s.hist, r.view, c.Leader(r.view))
    requires r.log <= s.hist.elections[r.view].cur
    requires out == {PrepareOK(r.view, r.lastOp, me)}
    ensures Inv(c, Moved(c, s, me, r, out, ballots))
  {
    assert RepOK(c, s, me, s.reps[me]);
    PrepareAdvances(c, s, me, r, out, ballots);
    hide Inv;
    ExtendKeeps(c, s, Moved(c, s, me, r, out, ballots), me, r);
  }

  lemma PrepareStepOK(c: Config, s: State, me: nat, m: Message, ballots: map<nat, Vote>)
    requires Inv(c, s) && me < |s.reps| && m in s.msgs && m.Prepare?
    requires HandlePrepare(c, me, s.reps[me], m).Ok?
    ensures var o := HandlePrepare(c, me, s.reps[me], m); Inv(c, Moved(c, s, me, o.r, o.out, ballots))
  {
    var was := s.reps[me];
    var o := HandlePrepare(c, me, was, m);
    assert RepOK(c, s, me, was) && MsgOK(c, s.hist, m);
    if o.r == was {
      PrepareStays(c, s, me, was, m);
      Stays(c, s, me, was, o.out, ballots);
    } else {
      PrepareMoves(c, s, me, was, m);
      assert was.view in s.hist.elections;
      PrepareExtendsOK(c, s, me, o.r, o.out, ballots);
    }
  }

  /** A quorum of acknowledgements, with the leader, has held the opnum. */
  lemma AckedIsHeld(c: Config, s: State, me: nat, view: nat, i: nat, acks: set<nat>)
    requires HeldOK(c, s.hist) && me < c.N() && c.Leader(view) == me && i > 0
    requires forall k :: k in acks ==> MsgOK(c, s.hist, PrepareOK(view, i, k))
    requires |acks| >= c.f && acks != {}
    ensures |Holders(c, s.hist, view, i)| >= c.f + 1
    ensures i <= Held(s.hist, view, me)
  {
    var k :| k in acks;
    assert MsgOK(c, s.hist, PrepareOK(view, i, k));
    assert acks + {me} <= Holders(c, s.hist, view, i);
    SubsetSize(acks + {me}, Holders(c, s.hist, view, i));
  }

  lemma PrepareOKSettles(c: Config, s: State, me: nat, r: Replica, m: Message)
    requires HeldOK(c, s.hist) && me < c.N() && RepOK(c, s, me, r) && m in s.msgs && m.PrepareOK?
    requires forall k :: k in Acks(r, m) ==> MsgOK(c, s.hist, PrepareOK(m.view, m.opnum, k))
    requires r.normal && c.Leader(r.view) == me && m.view == r.view && r.committed < m.opnum <= |r.log|
    requires r.log[m.opnum - 1].view == r.view
    requires |Acks(r, m)| >= c.f
    ensures m.opnum <= r.lastOp && Settled(c, s.hist, r.log[..m.opnum], r.view + 1)
  {
    assert m.from in Acks(r, m);
    AckedIsHeld(c, s, me, r.view, m.opnum, Acks(r, m));
    assert Chosen(c, s.hist, r.view, m.opnum);
    assert r.log[..m.opnum] <= s.hist.elections[r.view].cur[..m.opnum];
  }

  lemma PrepareOKCollects(c: Config, s: State, me: nat, was: Replica, m: Message)
    requires CollectedOK(s, was, me) && m in s.msgs && m.PrepareOK? && HandlePrepareOK(c, me, was, m).Ok?
    ensures CollectedOK(s, HandlePrepareOK(c, me, was, m).r, me)
  {
  }

  lemma CommitMsgOK(c: Config, h: History, me: nat, r: Replica)
    requires r.normal && r.view in h.elections && r.log == h.elections[r.view].cur && r.committed <= |r.log|
    requires Settled(c, h, r.log[..r.committed], r.view + 1)
    ensures MsgOK(c, h, Commit(r.view, r.committed))
  {
  }

  lemma PrepareOKStays(c: Config, s: State, me: nat, was: Replica, m: Message)
    requires HeldOK(c, s.hist) && me < c.N() && RepOK(c, s, me, was) && m in s.msgs && m.PrepareOK?
    requires forall k :: k in Acks(was, m) ==> MsgOK(c, s.hist, PrepareOK(m.view, m.opnum, k))
    requires HandlePrepareOK(c, me, was, m).Ok?
    requires var r := HandlePrepareOK(c, me, was, m).r;
      was.committed < r.committed <= |was.log| ==> was.log[r.committed - 1].view == was.view
    ensures var o := HandlePrepareOK(c, me, was, m); StaysOK(c, s, me, was, o.r, o.out)
  {
    hide CollectedOK, VoteOK, HeldOK, Settled, MsgOK, Acks, RecordedAll;
    var o := HandlePrepareOK(c, me, was, m);
    var r := o.r;
    if !was.normal || m.view != was.view || c.Leader(was.view) != me {
      Idles(c, s, me, was);
    } else {
      PrepareOKCollects(c, s, me, was, m);
      assert was.log == s.hist.elections[was.view].cur;
      if was.committed < r.committed {
        PrepareOKSettles(c, s, me, was, m);
        RequestsAppend(was.log, was.committed, m.opnum);
      }
      CommitMsgOK(c, s.hist, me, r);
    }
  }

  lemma CommitStays(c: Config, s: State, me: nat, was: Replica, m: Message)
    requires RepOK(c, s, me, was) && m.Commit? && MsgOK(c, s.hist, m)
    requires HandleCommit(c, me, was, m).Ok?
    ensures var o := HandleCommit(c, me, was, m); StaysOK(c, s, me, was, o.r, o.out)
  {
    var o := HandleCommit(c, me, was, m);
    if was.committed < o.r.committed {
      assert was.log[..m.opnum] == s.hist.elections[was.view].cur[..m.opnum];
      RequestsAppend(was.log, was.committed, m.opnum);
    }
  }

  // ---- View change ----

  ghost predicate LeavesOK(c: Config, s: State, me: nat, was: Replica, r: Replica) {
    r.view > was.view && !r.normal && SameLog(was, r) && CollectedOK(s, r, me)
  }

  lemma Leaves(c: Config, s: State, me: nat, r: Replica, out: set<Message>, ballots: map<nat, Vote>)
    requires Inv(c, s) && me < |s.reps| && LeavesOK(c, s, me, s.reps[me], r)
    requires forall m :: m in out ==> MsgOK(c, Moved(c, s, me, r, out, ballots).hist, m)
    ensures Inv(c, Moved(c, s, me, r, out, ballots))
  {
    CollectedMore(s, Moved(c, s, me, r, out, ballots), r, me);
    LeaveOK(c, s, me, r, out, ballots);
  }

  lemma DumpSuffixOK(log: Log, from: nat, op: nat)
    requires from <= op <= |log|
    ensures SuffixOK(Dump(log, from), log, op)
  {
  }

  /** The message of a replica in a view change speaks of the vote that is on record for it. */
  lemma OfferMsgOK(c: Config, h: History, me: nat, r: Replica, view: nat, votes: map<nat, nat>)
    requires me < c.N() && r.committed <= r.lastOp <= |r.log| && votes != map[]
    requires (view, me) in h.votes && h.votes[(view, me)] == Vote(r.log, r.lastOp, r.committed)
    ensures forall m :: m in OfferLog(c, me, r, view, votes) ==> MsgOK(c, h, m)
  {
    DumpSuffixOK(r.log, Min(Least(votes), r.committed), r.lastOp);
  }

  lemma SvcMsgsOK(c: Config, h: History, me: nat, was: Replica, m: Message)
    requires m.StartViewChange? && me < c.N() && was.committed <= was.lastOp <= |was.log|
    requires !(m.view < was.view || (m.view == was.view && was.normal))
    requires (m.view, me) in h.votes && h.votes[(m.view, me)] == Vote(was.log, was.lastOp, was.committed)
    ensures forall msg :: msg in HandleStartViewChange(c, me, was, m).out ==> MsgOK(c, h, msg)
  {
    var r1 := if was.normal || m.view > was.view then BeginViewChange(me, was, m.view) else was;
    OfferMsgOK(c, h, me, r1, m.view, SvcVotes(r1, m));
  }

  lemma SvcLeaves(c: Config, s: State, me: nat, was: Replica, m: Message)
    requires RepOK(c, s, me, was) && m.StartViewChange? && m.view > was.view
    ensures LeavesOK(c, s, me, was, HandleStartViewChange(c, me, was, m).r)
  {
  }

  lemma SvcStays(c: Config, s: State, me: nat, was: Replica, m: Message)
    requires RepOK(c, s, me, was) && m.StartViewChange? && m.view == was.view && !was.normal && me < c.N()
    ensures var o := HandleStartViewChange(c, me, was, m); StaysOK(c, s, me, was, o.r, o.out)
  {
    SvcMsgsOK(c, s.hist, me, was, m);
  }

  lemma StartViewChangeStepOK(c: Config, s: State, me: nat, m: Message, ballots: map<nat, Vote>)
    requires Inv(c, s) && me < |s.reps| && m in s.msgs && m.StartViewChange?
    requires HandleStartViewChange(c, me, s.reps[me], m).Ok?
    ensures var o := HandleStartViewChange(c, me, s.reps[me], m); Inv(c, Moved(c, s, me, o.r, o.out, ballots))
  {
    var was := s.reps[me];
    var o := HandleStartViewChange(c, me, was, m);
    assert RepOK(c, s, me, was);
    if m.view < was.view || (m.view == was.view && was.normal) {
      Idles(c, s, me, was);
      Stays(c, s, me, was, {}, ballots);
    } else if m.view > was.view {
      SvcLeaves(c, s, me, was, m);
      LeaveAdvances(c, s, me, o.r, o.out, ballots);
      SvcMsgsOK(c, Moved(c, s, me, o.r, o.out, ballots).hist, me, was, m);
      Leaves(c, s, me, o.r, o.out, ballots);
    } else {
      SvcStays(c, s, me, was, m);
      Stays(c, s, me, o.r, o.out, ballots);
    }
  }

  lemma TimeoutLeaves(c: Config, s: State, me: nat, was: Replica)
    requires RepOK(c, s, me, was) && !(was.normal && c.Leader(was.view) == me)
    ensures LeavesOK(c, s, me, was, HandleTimeout(c, me, was).r)
  {
  }

  lemma SendsOnlySvc(c: Config, s: State, me: nat, r: Replica, committed: nat, ballots: map<nat, Vote>)
    requires Inv(c, s) && me < |s.reps| && LeavesOK(c, s, me, s.reps[me], r)
    ensures Inv(c, Moved(c, s, me, r, {StartViewChange(r.view, me, committed)}, ballots))
  {
    hide Inv;
    Leaves(c, s, me, r, {StartViewChange(r.view, me, committed)}, ballots);
  }

  lemma TimeoutOK(c: Config, s: State, me: nat, ballots: map<nat, Vote>)
    requires Inv(c, s) && me < |s.reps|
    ensures var o := HandleTimeout(c, me, s.reps[me]); Inv(c, Moved(c, s, me, o.r, o.out, ballots))
  {
    var was := s.reps[me];
    assert RepOK(c, s, me, was);
    if was.normal && c.Leader(was.view) == me {
      Idles(c, s, me, was);
      Stays(c, s, me, was, {}, ballots);
    } else {
      TimeoutLeaves(c, s, me, was);
      SendsOnlySvc(c, s, me, HandleTimeout(c, me, was).r, was.committed, ballots);
    }
  }
}
