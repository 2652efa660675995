/**
 Every careful event keeps the invariant. A handler moves one replica in one of
 five ways: it stays where it is, leaves its view, extends its log within the view,
 enters a view as a follower, or is elected.
 */
module VrSteps {
  import opened Quorums
  import opened VrTypes
  import opened VrLog
  import opened VrReplica
  import opened VrProtocol
  import opened VrInvariant
  import opened VrSafety

  /** The state after replica `me` becomes `r` and sends `out`. */
  function Moved(c: Config, s: State, me: nat, r: Replica, out: set<Message>, ballots: map<nat, Vote>): State
    requires me < |s.reps|
  {
    State(s.reps[me := r], s.msgs + out, Record(c, s.hist, me, r, ballots))
  }

  /** `s'` is `s` after replica `me` moved to `r`: whatever else the history holds is as before. */
  ghost predicate Advances(c: Config, s: State, s': State, me: nat, r: Replica) {
    && me < |s.reps| && s'.reps == s.reps[me := r] && s.msgs <= s'.msgs
    && s.reps[me].view <= r.view
    && Grows(c, s.hist, s'.hist, me, r.view)
    && (forall v :: v in s'.hist.elections ==>
          (v in s.hist.elections && s'.hist.elections[v].cur == s.hist.elections[v].cur) ||
          (v == r.view && c.Leader(v) == me))
    && (forall w: nat, k: nat :: (w, k) in s'.hist.votes ==>
          (w, k) in s.hist.votes ||
          (w == r.view && k == me && !r.normal && s'.hist.votes[(w, k)] == Vote(r.log, r.lastOp, r.committed)))
  }

  lemma ElectionsKept(c: Config, s: State, s': State, me: nat, r: Replica)
    requires Inv(c, s) && Advances(c, s, s', me, r)
    requires r.view in s'.hist.elections && c.Leader(r.view) == me ==> ElectionOK(c, s'.hist, r.view)
    ensures ElectionsOK(c, s'.hist)
  {
    forall v | v in s'.hist.elections ensures ElectionOK(c, s'.hist, v) {
      if !(v == r.view && c.Leader(v) == me) {
        ElectionStable(c, s.hist, s'.hist, me, r.view, v);
      }
    }
  }

  lemma CastKept(c: Config, s: State, s': State, me: nat, r: Replica, w: nat, k: nat, vote: Vote)
    requires HeldOK(c, s.hist) && Advances(c, s, s', me, r) && CastOK(c, s, w, k, vote)
    ensures CastOK(c, s', w, k, vote)
  {
    VoteStable(c, s.hist, s'.hist, me, r.view, w, k, vote);
    SettledStable(c, s.hist, s'.hist, vote.log[..vote.committed], w, w);
  }

  lemma VotersKept(c: Config, s: State, s': State, me: nat, r: Replica, v: nat)
    requires Advances(c, s, s', me, r) && v in s.hist.elections && VotersOK(s, v)
    ensures VotersOK(s', v)
  {
  }

  lemma VotesKept(c: Config, s: State, s': State, me: nat, r: Replica)
    requires HeldOK(c, s.hist) && VotesOK(c, s) && Advances(c, s, s', me, r)
    requires RepOK(c, s', me, r)
    requires r.view in s'.hist.elections && c.Leader(r.view) == me ==> VotersOK(s', r.view)
    ensures VotesOK(c, s')
  {
    var h, h' := s.hist, s'.hist;
    forall w: nat, k: nat | (w, k) in h'.votes ensures CastOK(c, s', w, k, h'.votes[(w, k)]) {
      if (w, k) in h.votes {
        assert h'.votes[(w, k)] == h.votes[(w, k)];
        CastKept(c, s, s', me, r, w, k, h.votes[(w, k)]);
      }
    }
    forall v | v in h'.elections ensures VotersOK(s', v) {
      if !(v == r.view && c.Leader(v) == me) { assert VotersOK(s, v); }
    }
  }

  /** What is left to show of the replica that moved, when everything else is stable. */
  lemma KeepsInv(c: Config, s: State, s': State, me: nat, r: Replica)
    requires Inv(c, s) && Advances(c, s, s', me, r)
    requires r.view in s'.hist.elections && c.Leader(r.view) == me ==>
      ElectionOK(c, s'.hist, r.view) && VotersOK(s', r.view)
    requires HeldOK(c, s'.hist)
    requires RepOK(c, s', me, r)
    requires forall m :: m in s'.msgs && m !in s.msgs ==> MsgOK(c, s'.hist, m)
    ensures Inv(c, s')
  {
    ElectionsKept(c, s, s', me, r);
    VotesKept(c, s, s', me, r);
    forall k | 0 <= k < |s'.reps| ensures RepOK(c, s', k, s'.reps[k]) {
      if k != me { RepStable(c, s, s', me, r.view, k); }
    }
    forall m | m in s'.msgs ensures MsgOK(c, s'.hist, m) {
      if m in s.msgs { MsgStable(c, s.hist, s'.hist, me, r.view, m); }
    }
  }

  ghost predicate SamePlace(r: Replica, r': Replica) {
    r'.view == r.view && r'.normal == r.normal && r'.log == r.log && r'.lastOp == r.lastOp
  }

  ghost predicate SameHistory(h: History, h': History) {
    h'.elections == h.elections && h'.votes == h.votes && forall v: nat, k: nat :: Held(h', v, k) == Held(h, v, k)
  }

  lemma StayAdvances(c: Config, s: State, me: nat, r: Replica, out: set<Message>, ballots: map<nat, Vote>)
    requires me < |s.reps| && RepOK(c, s, me, s.reps[me]) && SamePlace(s.reps[me], r)
    requires !r.normal ==> r.committed == s.reps[me].committed
    ensures SameHistory(s.hist, Moved(c, s, me, r, out, ballots).hist)
    ensures Advances(c, s, Moved(c, s, me, r, out, ballots), me, r)
  {
    var h, h' := s.hist, Moved(c, s, me, r, out, ballots).hist;
    if r.normal && c.Leader(r.view) == me {
      assert h.elections[r.view := h.elections[r.view].(cur := r.log)] == h.elections;
    }
    if !r.normal {
      assert h.votes[(r.view, me) := Vote(r.log, r.lastOp, r.committed)] == h.votes;
    }
  }

  lemma StayRep(c: Config, s: State, s': State, me: nat, r: Replica)
    requires Inv(c, s) && Advances(c, s, s', me, r) && SameHistory(s.hist, s'.hist) && SamePlace(s.reps[me], r)
    requires !r.normal ==> r.committed == s.reps[me].committed
    requires r.committed <= r.lastOp && r.executed == Requests(r.log[..r.committed])
    requires Settled(c, s.hist, r.log[..r.committed], Bound(r))
    requires CollectedOK(s', r, me)
    ensures RepOK(c, s', me, r)
  {
    assert RepOK(c, s, me, s.reps[me]);
    var vote := Vote(r.log, r.lastOp, r.committed);
    assert VoteOK(s.hist, Bound(r), me, vote) by {
      assert VoteOK(s.hist, Bound(r), me, Vote(r.log, r.lastOp, s.reps[me].committed));
    }
    VoteCongruent(s.hist, s'.hist, Bound(r), me, vote);
    SettledStable(c, s.hist, s'.hist, r.log[..r.committed], Bound(r), Bound(r));
  }

  lemma StayKeeps(c: Config, s: State, s': State, me: nat, r: Replica)
    requires Inv(c, s) && Advances(c, s, s', me, r) && SameHistory(s.hist, s'.hist)
    requires RepOK(c, s', me, r)
    requires forall m :: m in s'.msgs && m !in s.msgs ==> MsgOK(c, s.hist, m)
    ensures Inv(c, s')
  {
    HeldCongruent(c, s.hist, s'.hist);
    forall m | m in s'.msgs && m !in s.msgs ensures MsgOK(c, s'.hist, m) {
      MsgStable(c, s.hist, s'.hist, me, r.view, m);
    }
    if r.view in s.hist.elections {
      ElectionCongruent(c, s.hist, s'.hist, r.view);
      assert VotersOK(s, r.view);
      VotersKept(c, s, s', me, r, r.view);
    }
    KeepsInv(c, s, s', me, r);
  }

  /** The replica stays in its view with its log; it may commit and collect messages. */
  lemma StayOK(c: Config, s: State, me: nat, r: Replica, out: set<Message>, ballots: map<nat, Vote>)
    requires Inv(c, s) && me < |s.reps| && SamePlace(s.reps[me], r)
    requires !r.normal ==> r.committed == s.reps[me].committed
    requires r.committed <= r.lastOp && r.executed == Requests(r.log[..r.committed])
    requires Settled(c, s.hist, r.log[..r.committed], Bound(r))
    requires CollectedOK(Moved(c, s, me, r, out, ballots), r, me)
    requires forall m :: m in out ==> MsgOK(c, s.hist, m)
    ensures Inv(c, Moved(c, s, me, r, out, ballots))
  {
    var s' := Moved(c, s, me, r, out, ballots);
    StayAdvances(c, s, me, r, out, ballots);
    StayRep(c, s, s', me, r);
    StayKeeps(c, s, s', me, r);
  }

  lemma HeldCongruent(c: Config, h: History, h': History)
    requires HeldOK(c, h) && SameHistory(h, h')
    ensures HeldOK(c, h')
  {
  }

  lemma VoteCongruent(h: History, h': History, w: nat, k: nat, vote: Vote)
    requires SameHistory(h, h') && VoteOK(h, w, k, vote)
    ensures VoteOK(h', w, k, vote)
  {
  }

  lemma ElectionCongruent(c: Config, h: History, h': History, v: nat)
    requires SameHistory(h, h') && v in h.elections && ElectionOK(c, h, v)
    ensures ElectionOK(c, h', v)
  {
    var e := h.elections[v];
    forall k | k in e.votes ensures VoteOK(h', v, k, e.votes[k]) {
      VoteCongruent(h, h', v, k, e.votes[k]);
    }
  }

  lemma LeaveAdvances(c: Config, s: State, me: nat, r: Replica, out: set<Message>, ballots: map<nat, Vote>)
    requires me < |s.reps| && VotesOK(c, s) && r.view > s.reps[me].view && !r.normal
    ensures Advances(c, s, Moved(c, s, me, r, out, ballots), me, r)
    ensures var h' := Moved(c, s, me, r, out, ballots).hist;
      h'.elections == s.hist.elections && h'.held == s.hist.held &&
      (r.view, me) in h'.votes && h'.votes[(r.view, me)] == Vote(r.log, r.lastOp, r.committed)
  {
    assert (r.view, me) !in s.hist.votes;
  }

  ghost predicate SameLog(r: Replica, r': Replica) {
    r'.log == r.log && r'.lastOp == r.lastOp && r'.committed == r.committed && r'.executed == r.executed
  }

  lemma LeaveKeeps(c: Config, s: State, s': State, me: nat, r: Replica)
    requires Inv(c, s) && Advances(c, s, s', me, r) && r.view > s.reps[me].view && !r.normal && SameLog(s.reps[me], r)
    requires s'.hist.elections == s.hist.elections && s'.hist.held == s.hist.held
    requires (r.view, me) in s'.hist.votes && s'.hist.votes[(r.view, me)] == Vote(r.log, r.lastOp, r.committed)
    requires CollectedOK(s', r, me)
    requires forall m :: m in s'.msgs && m !in s.msgs ==> MsgOK(c, s'.hist, m)
    ensures Inv(c, s')
  {
    assert RepOK(c, s, me, s.reps[me]) && HeldOK(c, s.hist);
    hide Inv, Grows, MsgOK, CollectedOK;
    LeaveRep(c, s, s', me, r);
    NotItsLeader(c, s, me, s.reps[me], r.view);
    SameHeld(c, s.hist, s'.hist);
    hide RepOK, HeldOK;
    KeepsInv(c, s, s', me, r);
  }

  lemma NotItsLeader(c: Config, s: State, me: nat, was: Replica, v: nat)
    requires RepOK(c, s, me, was) && v > was.view
    ensures v in s.hist.elections ==> c.Leader(v) != me
  {
  }

  lemma SameHeld(c: Config, h: History, h': History)
    requires HeldOK(c, h) && h'.elections == h.elections && h'.held == h.held
    ensures HeldOK(c, h')
  {
    assert forall v: nat, k: nat :: Held(h', v, k) == Held(h, v, k);
  }

  /** The replica leaves its view: its log becomes its vote for the later one. */
  lemma LeaveOK(c: Config, s: State, me: nat, r: Replica, out: set<Message>, ballots: map<nat, Vote>)
    requires Inv(c, s) && me < |s.reps| && r.view > s.reps[me].view && !r.normal && SameLog(s.reps[me], r)
    requires CollectedOK(Moved(c, s, me, r, out, ballots), r, me)
    requires forall m :: m in out ==> MsgOK(c, Moved(c, s, me, r, out, ballots).hist, m)
    ensures Inv(c, Moved(c, s, me, r, out, ballots))
  {
    LeaveAdvances(c, s, me, r, out, ballots);
    hide Inv, MsgOK, CollectedOK;
    LeaveKeeps(c, s, Moved(c, s, me, r, out, ballots), me, r);
  }

  lemma LeaveRep(c: Config, s: State, s': State, me: nat, r: Replica)
    requires HeldOK(c, s.hist) && me < |s.reps| && RepOK(c, s, me, s.reps[me]) && Advances(c, s, s', me, r) && r.view > s.reps[me].view && !r.normal && SameLog(s.reps[me], r)
    requires s'.hist.elections == s.hist.elections && s'.hist.held == s.hist.held
    requires (r.view, me) in s'.hist.votes && s'.hist.votes[(r.view, me)] == Vote(r.log, r.lastOp, r.committed)
    requires CollectedOK(s', r, me)
    ensures RepOK(c, s', me, r)
  {
    var was := s.reps[me];
    var vote := Vote(r.log, r.lastOp, r.committed);
    assert VoteOK(s'.hist, r.view, me, vote) by {
      assert RepOK(c, s, me, was);
      VoteLater(s.hist, Bound(was), r.view, me, vote);
      VoteStable(c, s.hist, s'.hist, me, r.view, r.view, me, vote);
    }
    assert Settled(c, s'.hist, r.log[..r.committed], r.view) by {
      assert RepOK(c, s, me, was);
      SettledStable(c, s.hist, s'.hist, r.log[..r.committed], Bound(was), r.view);
    }
    hide VoteOK, Settled, CollectedOK, Grows, Inv;
    assert RepOK(c, s, me, was);
  }

  /** A vote stays good for later views in which the replica has held nothing. */
  lemma VoteLater(h: History, w: nat, w': nat, k: nat, vote: Vote)
    requires VoteOK(h, w, k, vote) && w <= w'
    requires forall v: nat :: Held(h, v, k) > 0 ==> v < w
    ensures VoteOK(h, w', k, vote)
  {
    if vote.lastOp != |vote.log| {
      var u :| u in h.elections && LastView(vote.log) < u < w && h.elections[u].base == [];
      assert Stale(h.elections, vote.log, w');
    }
    forall v: nat, i: nat | v < w' && 1 <= i <= Held(h, v, k) && InView(h.elections, v, i)
      ensures (Has(h.elections, v, i, vote.log) && vote.lastOp == |vote.log|) || Lost(h.elections, v, i, w')
    {
      if Lost(h.elections, v, i, w) {
        var u :| u in h.elections && v < u < w && !Has(h.elections, v, i, h.elections[u].base);
      }
    }
  }

  // ---- Extending the log within a view ----

  ghost predicate Extended(was: Replica, r: Replica) {
    && was.normal && r.normal && r.view == was.view
    && was.lastOp == |was.log| && r.lastOp == |r.log|
    && was.log <= r.log
    && (forall i :: |was.log| <= i < |r.log| ==> r.log[i].view <= r.view)
    && r.committed == was.committed && r.executed == was.executed
  }

  /** The entries after the first `n` carry the view of the replica: what a leader appends. */
  ghost predicate OwnFrom(r: Replica, n: nat) {
    forall i :: n <= i < |r.log| ==> r.log[i].view == r.view
  }

  /** The histories differ in what `me` holds in its view and, if it leads the view, in the log of the view. */
  ghost predicate HoldsMore(c: Config, h: History, h': History, me: nat, r: Replica) {
    && r.view in h.elections
    && Held(h', r.view, me) == r.lastOp
    && h'.votes == h.votes
    && h'.elections == (if c.Leader(r.view) == me then h.elections[r.view := h.elections[r.view].(cur := r.log)] else h.elections)
  }

  lemma ExtendAdvances(c: Config, s: State, me: nat, r: Replica, out: set<Message>, ballots: map<nat, Vote>)
    requires me < |s.reps| && RepOK(c, s, me, s.reps[me]) && Extended(s.reps[me], r)
    ensures HoldsMore(c, s.hist, Moved(c, s, me, r, out, ballots).hist, me, r)
    ensures Advances(c, s, Moved(c, s, me, r, out, ballots), me, r)
  {
  }

  lemma ExtendRemembers(c: Config, h: History, h': History, me: nat, was: Replica, r: Replica, v: nat, i: nat)
    requires HeldOK(c, h) && Extended(was, r)
    requires Grows(c, h, h', me, r.view) && HoldsMore(c, h, h', me, r)
    requires Remembers(h, r.view + 1, me, Vote(was.log, was.lastOp, was.committed))
    requires r.log <= h'.elections[r.view].cur
    requires v < r.view + 1 && 1 <= i <= Held(h', v, me) && InView(h'.elections, v, i)
    ensures Has(h'.elections, v, i, r.log) || Lost(h'.elections, v, i, r.view + 1)
  {
    if v < r.view {
      assert Held(h', v, me) == Held(h, v, me) && h'.elections[v] == h.elections[v];
      assert InView(h.elections, v, i);
      if Lost(h.elections, v, i, r.view + 1) {
        LostStable(h, h', v, i, r.view + 1);
      } else {
        assert Has(h.elections, v, i, was.log);
      }
    }
  }

  lemma ExtendVote(c: Config, h: History, h': History, me: nat, was: Replica, r: Replica)
    requires HeldOK(c, h) && Extended(was, r)
    requires Grows(c, h, h', me, r.view) && HoldsMore(c, h, h', me, r)
    requires Below(was.log, r.view + 1) && Remembers(h, r.view + 1, me, Vote(was.log, was.lastOp, was.committed))
    requires r.log <= h'.elections[r.view].cur && LogOK(h'.elections, r.log)
    ensures VoteOK(h', r.view + 1, me, Vote(r.log, r.lastOp, r.committed))
  {
    forall i | 0 <= i < |r.log| ensures r.log[i].view < r.view + 1 {
      if i < |was.log| { assert r.log[i] == was.log[i]; }
    }
    forall v: nat, i: nat | v < r.view + 1 && 1 <= i <= Held(h', v, me) && InView(h'.elections, v, i)
      ensures Has(h'.elections, v, i, r.log) || Lost(h'.elections, v, i, r.view + 1)
    {
      ExtendRemembers(c, h, h', me, was, r, v, i);
    }
  }

  lemma ExtendRep(c: Config, s: State, s': State, me: nat, r: Replica)
    requires HeldOK(c, s.hist) && Advances(c, s, s', me, r) && RepOK(c, s, me, s.reps[me]) && Extended(s.reps[me], r)
    requires HoldsMore(c, s.hist, s'.hist, me, r)
    requires r.log <= s'.hist.elections[r.view].cur && LogOK(s'.hist.elections, r.log)
    requires CollectedOK(s', r, me)
    ensures RepOK(c, s', me, r)
  {
    var was := s.reps[me];
    assert VoteOK(s.hist, r.view + 1, me, Vote(was.log, was.lastOp, was.committed));
    ExtendVote(c, s.hist, s'.hist, me, was, r);
    assert r.log[..r.committed] == was.log[..was.committed];
    SettledStable(c, s.hist, s'.hist, r.log[..r.committed], Bound(was), Bound(r));
  }

  lemma ExtendHeld(c: Config, h: History, h': History, me: nat, r: Replica)
    requires HeldOK(c, h) && me < c.N() && r.normal
    requires Grows(c, h, h', me, r.view) && HoldsMore(c, h, h', me, r)
    requires c.Leader(r.view) != me ==> r.lastOp <= Held(h, r.view, c.Leader(r.view))
    requires c.Leader(r.view) == me ==> r.lastOp <= |r.log|
    ensures HeldOK(c, h')
  {
    forall v: nat, k: nat | Held(h', v, k) > 0
      ensures v in h'.elections && k < c.N() && Held(h', v, k) <= Held(h', v, c.Leader(v)) <= |h'.elections[v].cur|
    {
      if (v, k) != (r.view, me) { assert Held(h, v, k) > 0; }
    }
  }

  lemma ExtendLog(c: Config, h: History, h': History, me: nat, was: Log, r: Replica)
    requires was <= r.log && LogOK(h.elections, was) && OwnFrom(r, |was|)
    requires Grows(c, h, h', me, r.view)
    requires r.view in h'.elections && r.log <= h'.elections[r.view].cur
    ensures LogOK(h'.elections, r.log)
  {
    LogStable(h.elections, h'.elections, was);
    forall i | 0 <= i < |r.log| ensures EntryOK(h'.elections, r.log, i) {
      if i < |was| {
        assert EntryOK(h'.elections, was, i);
        assert r.log[..i + 1] == was[..i + 1];
      }
    }
  }

  lemma ExtendElection(c: Config, h: History, h': History, me: nat, r: Replica)
    requires HeldOK(c, h) && r.view in h.elections && ElectionOK(c, h, r.view)
    requires Grows(c, h, h', me, r.view)
    requires r.view in h'.elections && h'.elections[r.view].cur == r.log && LogOK(h'.elections, r.log)
    requires OwnFrom(r, |h.elections[r.view].cur|)
    ensures ElectionOK(c, h', r.view)
  {
    var e := h.elections[r.view];
    if e.op != |e.base| { StaleStable(h, h', e.base, r.view); }
    forall k | k in e.votes ensures VoteOK(h', r.view, k, e.votes[k]) {
      VoteStable(c, h, h', me, r.view, r.view, k, e.votes[k]);
    }
  }

  lemma ExtendParts(c: Config, s: State, s': State, me: nat, r: Replica)
    requires HeldOK(c, s.hist) && me < c.N() && Advances(c, s, s', me, r)
    requires Extended(s.reps[me], r) && HoldsMore(c, s.hist, s'.hist, me, r)
    requires RepOK(c, s, me, s.reps[me]) && ElectionOK(c, s.hist, r.view)
    requires c.Leader(r.view) == me ==> OwnFrom(r, |s.reps[me].log|)
    requires c.Leader(r.view) != me ==> r.log <= s.hist.elections[r.view].cur && r.lastOp <= Held(s.hist, r.view, c.Leader(r.view))
    requires CollectedOK(s', r, me)
    ensures HeldOK(c, s'.hist) && RepOK(c, s', me, r)
    ensures c.Leader(r.view) == me ==> ElectionOK(c, s'.hist, r.view)
  {
    var h, h', was := s.hist, s'.hist, s.reps[me];
    assert HeldOK(c, h') by { ExtendHeld(c, h, h', me, r); }
    if c.Leader(r.view) == me {
      ExtendLog(c, h, h', me, was.log, r);
      ExtendElection(c, h, h', me, r);
    } else {
      PrefixLogOK(h'.elections, r.log, h.elections[r.view].cur);
    }
    ExtendRep(c, s, s', me, r);
  }

  lemma ExtendKeeps(c: Config, s: State, s': State, me: nat, r: Replica)
    requires Inv(c, s) && Advances(c, s, s', me, r) && Extended(s.reps[me], r) && HoldsMore(c, s.hist, s'.hist, me, r)
    requires c.Leader(r.view) == me ==> OwnFrom(r, |s.reps[me].log|)
    requires c.Leader(r.view) != me ==> r.log <= s.hist.elections[r.view].cur && r.lastOp <= Held(s.hist, r.view, c.Leader(r.view))
    requires CollectedOK(s', r, me)
    requires forall m :: m in s'.msgs && m !in s.msgs ==> MsgOK(c, s'.hist, m)
    ensures Inv(c, s')
  {
    assert RepOK(c, s, me, s.reps[me]) && ElectionOK(c, s.hist, r.view) && VotersOK(s, r.view);
    ExtendParts(c, s, s', me, r);
    VotersKept(c, s, s', me, r, r.view);
    KeepsInv(c, s, s', me, r);
  }

  /** The leader appends, or a follower appends what the leader holds. */
  lemma ExtendOK(c: Config, s: State, me: nat, r: Replica, out: set<Message>, ballots: map<nat, Vote>)
    requires Inv(c, s) && me < |s.reps| && Extended(s.reps[me], r)
    requires r.view in s.hist.elections
    requires c.Leader(r.view) == me ==> OwnFrom(r, |s.reps[me].log|)
    requires c.Leader(r.view) != me ==> r.log <= s.hist.elections[r.view].cur && r.lastOp <= Held(s.hist, r.view, c.Leader(r.view))
    requires CollectedOK(Moved(c, s, me, r, out, ballots), r, me)
    requires forall m :: m in out ==> MsgOK(c, Moved(c, s, me, r, out, ballots).hist, m)
    ensures Inv(c, Moved(c, s, me, r, out, ballots))
  {
    ExtendAdvances(c, s, me, r, out, ballots);
    ExtendKeeps(c, s, Moved(c, s, me, r, out, ballots), me, r);
  }

  // ---- Entering a view ----

  /** A replica that enters view `w` adopts what the view started from, or keeps a stale log if that was empty. */
  lemma EnterVote(c: Config, h: History, w: nat, me: nat, vote: Vote)
    requires w in h.elections && h.elections[w].base <= h.elections[w].cur
    requires LogOK(h.elections, vote.log) && Below(vote.log, w) && Below(h.elections[w].base, w)
    requires OpOK(h.elections, h.elections[w].base, h.elections[w].op, w)
    requires forall i :: 0 <= i < |h.elections[w].base| ==> h.elections[w].base[i].view <= LastView(h.elections[w].base)
    requires (vote.log == h.elections[w].base && vote.lastOp == h.elections[w].op)
          || (h.elections[w].base == [] && vote.lastOp == 0)
    requires forall v: nat :: Held(h, v, me) > 0 ==> v <= w
    requires Held(h, w, me) == vote.lastOp <= |h.elections[w].base|
    ensures VoteOK(h, w + 1, me, vote)
  {
    var es := h.elections;
    var e := es[w];
    if vote.lastOp != |vote.log| {
      if vote.log == e.base {
        assert Stale(es, e.base, w);
        var u :| u in es && LastView(e.base) < u < w && es[u].base == [];
        assert Stale(es, vote.log, w + 1);
      } else {
        assert LastView(vote.log) < w;
        assert Stale(es, vote.log, w + 1);
      }
    }
    forall v: nat, i: nat | v < w + 1 && 1 <= i <= Held(h, v, me) && InView(es, v, i)
      ensures (Has(es, v, i, vote.log) && vote.lastOp == |vote.log|) || Lost(es, v, i, w + 1)
    {
      EnterRemembers(c, h, w, me, vote, v, i);
    }
  }

  lemma EnterRemembers(c: Config, h: History, w: nat, me: nat, vote: Vote, v: nat, i: nat)
    requires w in h.elections && h.elections[w].base <= h.elections[w].cur
    requires Below(h.elections[w].base, w)
    requires OpOK(h.elections, h.elections[w].base, h.elections[w].op, w)
    requires forall i :: 0 <= i < |h.elections[w].base| ==> h.elections[w].base[i].view <= LastView(h.elections[w].base)
    requires (vote.log == h.elections[w].base && vote.lastOp == h.elections[w].op)
          || (h.elections[w].base == [] && vote.lastOp == 0)
    requires Held(h, w, me) == vote.lastOp <= |h.elections[w].base|
    requires v < w + 1 && 1 <= i <= Held(h, v, me) && InView(h.elections, v, i)
    ensures (Has(h.elections, v, i, vote.log) && vote.lastOp == |vote.log|) || Lost(h.elections, v, i, w + 1)
  {
    var es := h.elections;
    var e := es[w];
    assert forall j :: 0 <= j < |e.base| ==> e.cur[j] == e.base[j] && e.cur[j].view < w;
    if !Has(es, v, i, e.base) {
      assert Lost(es, v, i, w + 1);
    } else if e.op != |e.base| {
      assert e.base[i - 1] == es[v].cur[i - 1];
      var u :| u in es && LastView(e.base) < u < w && es[u].base == [];
      assert !Has(es, v, i, es[u].base);
    }
  }

  ghost predicate Entered(c: Config, h: History, was: Replica, r: Replica) {
    && Bound(was) <= r.view && r.normal && r.view in h.elections
    && var e := h.elections[r.view];
       || (r.log == e.base && r.lastOp == e.op)
       || (e.base == [] && e.op == 0 && r.lastOp == 0 && r.log == was.log)
  }

  /** Only what `me` holds in its new view is recorded. */
  ghost predicate HoldsInView(h: History, h': History, me: nat, r: Replica) {
    Held(h', r.view, me) == r.lastOp && h'.votes == h.votes && h'.elections == h.elections
  }

  lemma EnterAdvances(c: Config, s: State, me: nat, r: Replica, out: set<Message>, ballots: map<nat, Vote>)
    requires me < |s.reps| && RepOK(c, s, me, s.reps[me]) && Entered(c, s.hist, s.reps[me], r) && c.Leader(r.view) != me
    ensures HoldsInView(s.hist, Moved(c, s, me, r, out, ballots).hist, me, r)
    ensures Advances(c, s, Moved(c, s, me, r, out, ballots), me, r)
  {
  }

  lemma BaseOK(c: Config, h: History, v: nat)
    requires ElectionsOK(c, h) && v in h.elections
    ensures LogOK(h.elections, h.elections[v].base)
    ensures forall i :: 0 <= i < |h.elections[v].base| ==> h.elections[v].base[i].view <= LastView(h.elections[v].base)
  {
    var base := h.elections[v].base;
    assert ElectionOK(c, h, v);
    PrefixLogOK(h.elections, base, h.elections[v].cur);
    forall i | 0 <= i < |base| ensures base[i].view <= LastView(base) {
      LastViewIsMax(c, h, base, i);
    }
  }

  /** What the replica has committed, with the log it has now. */
  ghost predicate CommitsOK(c: Config, h: History, r: Replica) {
    && r.committed <= r.lastOp <= |r.log|
    && r.executed == Requests(r.log[..r.committed])
    && Settled(c, h, r.log[..r.committed], Bound(r))
  }

  lemma EnterRep(c: Config, s: State, s': State, me: nat, r: Replica)
    requires Advances(c, s, s', me, r) && RepOK(c, s, me, s.reps[me])
    requires Entered(c, s'.hist, s.reps[me], r) && Held(s'.hist, r.view, me) == r.lastOp <= |s'.hist.elections[r.view].base|
    requires ElectionOK(c, s'.hist, r.view)
    requires c.Leader(r.view) == me ==> r.log == s'.hist.elections[r.view].cur
    requires VoteOK(s'.hist, Bound(r), me, Vote(r.log, r.lastOp, r.committed))
    requires CommitsOK(c, s'.hist, r) && CollectedOK(s', r, me)
    ensures RepOK(c, s', me, r)
  {
    EnterPlace(c, s, s', me, r);
  }

  lemma EnterPlace(c: Config, s: State, s': State, me: nat, r: Replica)
    requires Advances(c, s, s', me, r) && RepOK(c, s, me, s.reps[me])
    requires Entered(c, s'.hist, s.reps[me], r) && Held(s'.hist, r.view, me) == r.lastOp <= |s'.hist.elections[r.view].base|
    requires ElectionOK(c, s'.hist, r.view)
    requires c.Leader(r.view) == me ==> r.log == s'.hist.elections[r.view].cur
    ensures r.lastOp <= |r.log|
    ensures NormalOK(c, s'.hist, me, r)
    ensures forall v: nat :: Held(s'.hist, v, me) > 0 ==> v < Bound(r)
    ensures forall v :: v in s'.hist.elections && c.Leader(v) == me ==> v < Bound(r)
  {
  }

  lemma EnterRepVote(c: Config, h: History, h': History, me: nat, was: Replica, r: Replica)
    requires ElectionsOK(c, h') && Grows(c, h, h', me, r.view)
    requires LogOK(h.elections, was.log) && Below(was.log, Bound(was))
    requires forall v: nat :: Held(h, v, me) > 0 ==> v < Bound(was)
    requires Entered(c, h', was, r) && Held(h', r.view, me) == r.lastOp <= |h'.elections[r.view].base|
    ensures VoteOK(h', r.view + 1, me, Vote(r.log, r.lastOp, r.committed))
  {
    assert ElectionOK(c, h', r.view);
    BaseOK(c, h', r.view);
    LogStable(h.elections, h'.elections, was.log);
    EnterVote(c, h', r.view, me, Vote(r.log, r.lastOp, r.committed));
  }

  lemma EnterHeld(c: Config, h: History, h': History, me: nat, r: Replica)
    requires HeldOK(c, h) && me < c.N() && Grows(c, h, h', me, r.view) && HoldsInView(h, h', me, r)
    requires c.Leader(r.view) != me && r.view in h.elections && ElectionOK(c, h, r.view)
    requires r.lastOp <= h.elections[r.view].op
    ensures HeldOK(c, h')
  {
    forall v: nat, k: nat | Held(h', v, k) > 0
      ensures v in h'.elections && k < c.N() && Held(h', v, k) <= Held(h', v, c.Leader(v)) <= |h'.elections[v].cur|
    {
      if (v, k) != (r.view, me) { assert Held(h, v, k) > 0; } else { assert Held(h, v, c.Leader(v)) > 0; }
    }
  }

  lemma EnterKeeps(c: Config, s: State, s': State, me: nat, r: Replica)
    requires Inv(c, s) && Advances(c, s, s', me, r) && HoldsInView(s.hist, s'.hist, me, r)
    requires Entered(c, s.hist, s.reps[me], r) && c.Leader(r.view) != me
    requires CommitsOK(c, s.hist, r) && r.lastOp <= |s.hist.elections[r.view].base|
    requires CollectedOK(s', r, me)
    requires forall m :: m in s'.msgs && m !in s.msgs ==> MsgOK(c, s'.hist, m)
    ensures Inv(c, s')
  {
    var was := s.reps[me];
    assert RepOK(c, s, me, was) && ElectionOK(c, s.hist, r.view);
    EnterHeld(c, s.hist, s'.hist, me, r);
    ElectionsKept(c, s, s', me, r);
    assert ElectionOK(c, s'.hist, r.view);
    EnterRepVote(c, s.hist, s'.hist, me, was, r);
    SettledStable(c, s.hist, s'.hist, r.log[..r.committed], Bound(r), Bound(r));
    hide Inv, VoteOK, Grows, MsgOK, ElectionOK, ElectionsOK;
    EnterRep(c, s, s', me, r);
    KeepsInv(c, s, s', me, r);
  }

  /** A replica follows the leader of a view it had not been in. */
  lemma EnterOK(c: Config, s: State, me: nat, r: Replica, out: set<Message>, ballots: map<nat, Vote>)
    requires Inv(c, s) && me < |s.reps| && Entered(c, s.hist, s.reps[me], r) && c.Leader(r.view) != me
    requires CommitsOK(c, s.hist, r) && r.lastOp <= |s.hist.elections[r.view].base|
    requires CollectedOK(Moved(c, s, me, r, out, ballots), r, me)
    requires forall m :: m in out ==> MsgOK(c, Moved(c, s, me, r, out, ballots).hist, m)
    ensures Inv(c, Moved(c, s, me, r, out, ballots))
  {
    assert RepOK(c, s, me, s.reps[me]);
    EnterAdvances(c, s, me, r, out, ballots);
    EnterKeeps(c, s, Moved(c, s, me, r, out, ballots), me, r);
  }

  // ---- Being elected ----

  /** `log` and `op` are those of the newest of a quorum of votes for view `w`. */
  ghost predicate Wins(c: Config, s: State, w: nat, log: Log, op: nat, ballots: map<nat, Vote>) {
    && LogOK(s.hist.elections, log) && Below(log, w) && OpOK(s.hist.elections, log, op, w)
    && |ballots| >= c.f + 1
    && forall k :: k in ballots ==>
         && k < c.N()
         && VoteOK(s.hist, w, k, ballots[k])
         && AtLeast(LastView(log), op, LastView(ballots[k].log), ballots[k].lastOp)
  }

  ghost predicate Elected(c: Config, s: State, me: nat, r: Replica, ballots: map<nat, Vote>) {
    && me < |s.reps| && me == c.Leader(r.view) && Bound(s.reps[me]) <= r.view && r.normal
    && Wins(c, s, r.view, r.log, r.lastOp, ballots)
    && forall k :: k in ballots ==> k < |s.reps| && (k == me || r.view <= s.reps[k].view)
  }

  ghost predicate AddsElection(h: History, h': History, me: nat, r: Replica, ballots: map<nat, Vote>) {
    && r.view !in h.elections
    && Held(h', r.view, me) == r.lastOp
    && h'.votes == h.votes
    && h'.elections == h.elections[r.view := Election(r.log, r.lastOp, r.log, ballots)]
  }

  lemma ElectAdvances(c: Config, s: State, me: nat, r: Replica, out: set<Message>, ballots: map<nat, Vote>)
    requires me < |s.reps| && RepOK(c, s, me, s.reps[me]) && Elected(c, s, me, r, ballots)
    ensures AddsElection(s.hist, Moved(c, s, me, r, out, ballots).hist, me, r, ballots)
    ensures Advances(c, s, Moved(c, s, me, r, out, ballots), me, r)
  {
    hide Wins, VoteOK, CollectedOK, Settled;
  }

  lemma ElectElection(c: Config, s: State, h': History, me: nat, r: Replica, ballots: map<nat, Vote>)
    requires HeldOK(c, s.hist) && 0 in s.hist.elections && Elected(c, s, me, r, ballots)
    requires Grows(c, s.hist, h', me, r.view) && AddsElection(s.hist, h', me, r, ballots)
    ensures ElectionOK(c, h', r.view)
  {
    var h, w := s.hist, r.view;
    LogStable(h.elections, h'.elections, r.log);
    if r.lastOp != |r.log| { StaleStable(h, h', r.log, w); }
    forall k | k in ballots ensures VoteOK(h', w, k, ballots[k]) {
      VoteStable(c, h, h', me, w, w, k, ballots[k]);
    }
  }

  lemma ElectHeld(c: Config, h: History, h': History, me: nat, r: Replica, ballots: map<nat, Vote>)
    requires HeldOK(c, h) && me < c.N() && me == c.Leader(r.view)
    requires Grows(c, h, h', me, r.view) && AddsElection(h, h', me, r, ballots)
    requires r.lastOp <= |r.log|
    ensures HeldOK(c, h')
  {
    forall v: nat, k: nat | Held(h', v, k) > 0
      ensures v in h'.elections && k < c.N() && Held(h', v, k) <= Held(h', v, c.Leader(v)) <= |h'.elections[v].cur|
    {
      if (v, k) != (r.view, me) { assert Held(h, v, k) > 0; }
    }
  }

  lemma ElectParts(c: Config, s: State, s': State, me: nat, r: Replica, ballots: map<nat, Vote>)
    requires Inv(c, s) && Advances(c, s, s', me, r) && AddsElection(s.hist, s'.hist, me, r, ballots)
    requires Elected(c, s, me, r, ballots) && r.lastOp <= |r.log|
    ensures ElectionsOK(c, s'.hist) && HeldOK(c, s'.hist) && VotersOK(s', r.view)
  {
    assert HeldOK(c, s'.hist) by { ElectHeld(c, s.hist, s'.hist, me, r, ballots); }
    assert ElectionOK(c, s'.hist, r.view) by { ElectElection(c, s, s'.hist, me, r, ballots); }
    ElectionsKept(c, s, s', me, r);
    ElectVoters(c, s, s', me, r, ballots);
  }

  lemma ElectVoters(c: Config, s: State, s': State, me: nat, r: Replica, ballots: map<nat, Vote>)
    requires Advances(c, s, s', me, r) && AddsElection(s.hist, s'.hist, me, r, ballots) && Elected(c, s, me, r, ballots)
    ensures VotersOK(s', r.view)
  {
  }

  lemma ElectKeeps(c: Config, s: State, s': State, me: nat, r: Replica, ballots: map<nat, Vote>)
    requires Inv(c, s) && Advances(c, s, s', me, r) && AddsElection(s.hist, s'.hist, me, r, ballots)
    requires Elected(c, s, me, r, ballots)
    requires CommitsOK(c, s.hist, r)
    requires CollectedOK(s', r, me)
    requires forall m :: m in s'.msgs && m !in s.msgs ==> MsgOK(c, s'.hist, m)
    ensures Inv(c, s')
  {
    assert RepOK(c, s, me, s.reps[me]);
    ElectParts(c, s, s', me, r, ballots);
    assert ElectionOK(c, s'.hist, r.view);
    EnterRepVote(c, s.hist, s'.hist, me, s.reps[me], r);
    SettledStable(c, s.hist, s'.hist, r.log[..r.committed], Bound(r), Bound(r));
    hide Inv, VoteOK, Grows, MsgOK, ElectionOK, ElectionsOK;
    EnterRep(c, s, s', me, r);
    KeepsInv(c, s, s', me, r);
  }
}
