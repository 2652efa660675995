/**
 Which assertions and Panics can stop a replica that receives a message of another one. In
 careful runs five can, and each is named by a condition on the replica and the message: a
 follower that kept entries from before an empty StartView has no room for a new batch; a
 replica in a view change may find that a received log starts too late, as a new leader or as
 a follower; and the client table of a follower may be ahead of a request that it is to
 prepare or to acknowledge. All others always hold. `VrStops` has runs that reach them. And it
 says when a client's request, or the timer that closes a batch, stops a leader.
 */
module VrAsserts {
  import opened VrTypes
  import opened VrTable
  import opened VrLog
  import opened VrReplica
  import opened VrProtocol
  import opened VrInvariant
  import opened VrSteps
  import opened VrHandlers
  import opened VrViewChange
  import opened VrRuns

  /** The log of the newest vote starts after the first uncommitted entry. */
  predicate TooLate(best: Choice, committed: nat) {
    best.Theirs? && best.m.DoViewChange? && best.m.suffix.first > committed + 1
  }

  /** The requests of a Prepare message that the replica does not have yet. */
  function NewRequests(r: Replica, m: Message): seq<Request>
    requires m.Prepare?
  {
    var from := r.lastOp + 1 - m.batchStart;
    if 0 <= from <= |m.reqs| then m.reqs[from..] else []
  }

  /** The client table knows a newer request than one that the follower is to acknowledge. */
  predicate TableAhead(c: Config, r: Replica, m: Message)
    requires m.StartView? && Enters(c, r, m)
  {
    var r' := Entering(c, r, m);
    !UpdatableAll(r'.table, Unacknowledged(r', r.lastOp))
  }

  /** The condition on which `m` stops a replica in state `r`. */
  predicate Stops(c: Config, r: Replica, m: Message)
    requires WellFormed(r)
  {
    match m
    case Prepare(view, opnum, batchStart, _) =>
      // the log is longer than the last opnum says, so the next entry cannot be appended,
      // or the client table knows a newer request than one of the new ones
      r.normal && view == r.view && batchStart <= r.lastOp + 1 <= opnum &&
      (r.lastOp != |r.log| || !UpdatableAll(r.table, NewRequests(r, m)))
    case DoViewChange(view, _, _, _, _, _) =>
      Heeds(r, view) && |DvcVotes(r, m)| >= c.f && TooLate(Latest(DvcVotes(r, m), c.N(), r.log), r.committed)
    case StartView(view, lastOp, _, suffix) =>
      Heeds(r, view) &&
      ((suffix.entries != [] && suffix.first > r.committed + 1) ||
       (Enters(c, r, m) && TableAhead(c, r, m)))
    case PrepareOK(_, _, _) => false
    case Commit(_, _) => false
    case StartViewChange(_, _, _) => false
  }

  // ---- Normal status ----

  lemma PrepareStops(c: Config, s: State, me: nat, r: Replica, m: Message)
    requires RepOK(c, s, me, r) && m.Prepare? && MsgOK(c, s.hist, m) && Addressed(c, m, me) && WellFormed(r)
    ensures HandlePrepare(c, me, r, m).Crash? <==> Stops(c, r, m)
  {
    hide VoteOK, Settled, CollectedOK, UpdatableAll, UpdateAll;
  }

  lemma PrepareOKNeverStops(c: Config, s: State, me: nat, r: Replica, m: Message)
    requires RepOK(c, s, me, r) && m.PrepareOK? && MsgOK(c, s.hist, m) && HeldOK(c, s.hist)
    ensures HandlePrepareOK(c, me, r, m).Ok?
  {
    hide VoteOK, Settled, CollectedOK;
    if r.normal && m.view == r.view && c.Leader(r.view) == me && m.opnum > 0 {
      assert Held(s.hist, m.view, m.from) > 0;
    }
  }

  lemma CommitNeverStops(c: Config, s: State, me: nat, r: Replica, m: Message)
    requires RepOK(c, s, me, r) && m.Commit? && Addressed(c, m, me)
    ensures HandleCommit(c, me, r, m).Ok?
  {
    hide VoteOK, Settled, CollectedOK;
  }

  // ---- View changes ----

  /** A log that starts no later than the first uncommitted entry can be installed. */
  lemma StartsInTime(r: Replica, op: nat, s: Suffix)
    requires r.committed <= |r.log| && (r.committed <= op) && s.first >= 1
    ensures Installable(r, op, s) <==> s.entries != [] ==> s.first <= r.committed + 1
  {
  }

  /** SendPrepareOKs stops at a request that is too old, if no entry is missing. */
  lemma AcksStop(me: nat, r: Replica, oldLastOp: nat)
    requires r.lastOp <= |r.log|
    ensures SendPrepareOKs(me, r, oldLastOp).Crash? <==> !UpdatableAll(r.table, Unacknowledged(r, oldLastOp))
  {
    var reqs := Unacknowledged(r, oldLastOp);
    var n := Accepted(r.table, reqs);
    assert reqs[..|reqs|] == reqs;
    assert FirstNew(r, oldLastOp) <= r.lastOp ==> |reqs| == r.lastOp + 1 - FirstNew(r, oldLastOp);
    assert FirstNew(r, oldLastOp) > r.lastOp ==> reqs == [];
    if n < |reqs| { NotAllUpdatable(r.table, reqs, n + 1); }
    hide UpdatableAll, UpdateAll, Accepted;
  }

  /** What is refused stays refused, whatever comes after it. */
  lemma {:induction false} NotAllUpdatable(t: Table, reqs: seq<Request>, n: nat)
    requires n <= |reqs| && !UpdatableAll(t, reqs[..n])
    ensures !UpdatableAll(t, reqs)
  {
    if n == |reqs| {
      assert reqs[..n] == reqs;
    } else {
      var rest := reqs[..|reqs| - 1];
      assert rest[..n] == reqs[..n];
      NotAllUpdatable(t, rest, n);
    }
  }

  /** The assertions of HandleStartView, given what its message and its log are known to be. */
  lemma StartViewCrashes(c: Config, me: nat, r: Replica, m: Message)
    requires m.StartView? && c.Leader(m.view) != me && Heeds(r, m.view)
    requires m.suffix.entries == [] ==> m.lastOp == 0 && m.committed == 0 && r.committed == 0
    requires Installable(r, m.lastOp, m.suffix) ==>
      var log := Installed(r, m.lastOp, m.suffix);
      (m.committed <= |log| || m.committed <= r.committed) && m.lastOp <= |log|
    ensures Installable(r, m.lastOp, m.suffix) <==> Enters(c, r, m)
    ensures HandleStartView(c, me, r, m).Crash? <==> !Enters(c, r, m) || TableAhead(c, r, m)
  {
    if Enters(c, r, m) {
      EnteringLog(c, r, m);
      AcksStop(me, Entering(c, r, m), r.lastOp);
    }
    hide Installed, Installable, Entering, SendPrepareOKs, Unacknowledged, UpdatableAll;
  }

  lemma EnteringLog(c: Config, r: Replica, m: Message)
    requires m.StartView? && Enters(c, r, m)
    ensures Entering(c, r, m).log == Installed(r, m.lastOp, m.suffix) && Entering(c, r, m).lastOp == m.lastOp
  {
    hide Installed, Installable, RecordedAll, Requests;
  }

  lemma StartViewInstalls(c: Config, s: State, me: nat, r: Replica, m: Message)
    requires ElectionsOK(c, s.hist) && HeldOK(c, s.hist) && RepOK(c, s, me, r)
    requires m.StartView? && MsgOK(c, s.hist, m) && Heeds(r, m.view)
    requires Installable(r, m.lastOp, m.suffix)
    ensures var log := Installed(r, m.lastOp, m.suffix);
      (m.committed <= |log| || m.committed <= r.committed) && m.lastOp <= |log|
  {
    CommittedInBase(c, s.hist, r, m.view);
    EmptyStarts(c, s.hist, m);
    if m.suffix.entries != [] { StartViewLog(c, s.hist, r, m.view, m.suffix); }
    hide ElectionsOK, HeldOK, Install, Settled, CommitsOK, Entered, VoteOK, CollectedOK;
    EntersWith(c, s.hist, r, m, Installed(r, m.lastOp, m.suffix));
  }

  lemma StartViewStops(c: Config, s: State, me: nat, r: Replica, m: Message)
    requires ElectionsOK(c, s.hist) && HeldOK(c, s.hist) && RepOK(c, s, me, r)
    requires m.StartView? && MsgOK(c, s.hist, m) && Addressed(c, m, me) && WellFormed(r)
    ensures HandleStartView(c, me, r, m).Crash? <==> Stops(c, r, m)
  {
    hide ElectionsOK, HeldOK, MsgOK, VoteOK, CollectedOK, Settled, Installable, Installed, TableAhead;
    if Heeds(r, m.view) {
      EmptyStarts(c, s.hist, m);
      assert r.committed <= m.lastOp by { CommittedBefore(c, s.hist, r, m); }
      StartsInTime(r, m.lastOp, m.suffix);
      if Installable(r, m.lastOp, m.suffix) { StartViewInstalls(c, s, me, r, m); }
      StartViewCrashes(c, me, r, m);
    }
  }

  lemma CommittedBefore(c: Config, h: History, r: Replica, m: Message)
    requires ElectionsOK(c, h) && HeldOK(c, h) && m.StartView? && MsgOK(c, h, m) && Bound(r) <= m.view
    requires r.committed <= |r.log| && Settled(c, h, r.log[..r.committed], Bound(r))
    ensures r.committed <= m.lastOp
  {
    CommittedInBase(c, h, r, m.view);
  }

  lemma EmptyStarts(c: Config, h: History, m: Message)
    requires ElectionsOK(c, h) && m.StartView? && MsgOK(c, h, m)
    ensures m.suffix.entries == [] ==> m.lastOp == 0 && m.committed == 0 && h.elections[m.view].base == []
    ensures m.suffix.first >= 1 && m.lastOp == h.elections[m.view].op <= |h.elections[m.view].base|
  {
    assert ElectionOK(c, h, m.view);
  }

  /** The message that wins the selection. */
  lemma TheirsStops(c: Config, s: State, r: Replica, w: nat, m: Message, votes: map<nat, Message>, junk: nat, b: Message)
    requires votes != map[] && m.DoViewChange? && m.view == w && Latest(votes, c.N(), r.log) == Theirs(b)
    requires forall k :: k in votes ==> votes[k].DoViewChange?
    requires b.DoViewChange? && b.view == w && MsgOK(c, s.hist, b) && CastOK(c, s, w, b.from, s.hist.votes[(w, b.from)])
    requires LogOK(s.hist.elections, r.log) && r.committed <= |r.log| && r.executed == Requests(r.log[..r.committed])
    requires Settled(c, s.hist, r.log[..r.committed], w)
    requires r.log[..r.committed] <= s.hist.votes[(w, b.from)].log
    requires b.lastOp == |s.hist.votes[(w, b.from)].log| || r.committed == 0
    ensures BecomeLeader(c, r, m, votes, junk).Crash? <==> b.suffix.first > r.committed + 1
  {
    var from := StartFrom(r, w, votes, junk);
    assert from <= r.committed;
    TheirSuffix(c, s, r, w, b);
    hide Leads, LeadWith, Installed, CastOK, MsgOK, Latest, StartFrom, Installable, LogOK, Settled;
    StartsInTime(r, b.lastOp, b.suffix);
    LeadsWithTheirs(c, s, r, w, b, from);
  }

  lemma TheirSuffix(c: Config, s: State, r: Replica, w: nat, b: Message)
    requires b.DoViewChange? && b.view == w && MsgOK(c, s.hist, b)
    requires r.committed <= |r.log| && r.log[..r.committed] <= s.hist.votes[(w, b.from)].log
    requires b.lastOp == |s.hist.votes[(w, b.from)].log| || r.committed == 0
    ensures b.suffix.first >= 1 && r.committed <= b.lastOp
  {
    assert |r.log[..r.committed]| == r.committed;
  }

  lemma OwnNeverStops(c: Config, s: State, r: Replica, w: nat, m: Message, votes: map<nat, Message>, junk: nat)
    requires votes != map[] && m.DoViewChange? && m.view == w && Latest(votes, c.N(), r.log) == Own
    requires forall k :: k in votes ==> votes[k].DoViewChange?
    requires r.committed <= |r.log| && r.executed == Requests(r.log[..r.committed])
    requires Settled(c, s.hist, r.log[..r.committed], w)
    ensures BecomeLeader(c, r, m, votes, junk).Ok?
  {
    var from := StartFrom(r, w, votes, junk);
    assert from <= r.committed;
    hide Leads, LeadWith, Latest, StartFrom, Settled;
    assert Settled(c, s.hist, r.log[..0], w) by { NothingSettled(c, s.hist, r.log, w); }
    LeadWithLeads(c, s, r, w, r.log, |r.log|, 0, from);
  }

  lemma NothingSettled(c: Config, h: History, log: Log, w: nat)
    ensures Settled(c, h, log[..0], w)
  {
    assert log[..0] == [];
  }

  lemma QuorumStopsAt(c: Config, s: State, me: nat, was: Replica, r2: Replica, m: Message, junk: nat,
                    votes: map<nat, Message>, ballots: map<nat, Vote>)
    requires ElectionsOK(c, s.hist) && HeldOK(c, s.hist) && VotesOK(c, s) && RepOK(c, s, me, was) && me < c.N()
    requires m.DoViewChange? && Bound(was) <= m.view && SameLog(was, r2)
    requires votes != map[] && Collected(s, m.view, votes)
    requires forall k :: k in votes ==>
      MsgOK(c, s.hist, votes[k]) && (m.view, k) in s.hist.votes && CastOK(c, s, m.view, k, s.hist.votes[(m.view, k)])
    requires Counted(s.hist, me, was, m.view, votes, ballots) && |ballots| >= c.f + 1
    ensures BecomeLeader(c, r2, m, votes, junk).Crash? <==> TooLate(Latest(votes, c.N(), was.log), was.committed)
  {
    var w := m.view;
    QuorumDecides(c, s, me, was, w, votes, ballots);
    CommittedPart(c, s, me, was);
    hide RepOK, BecomeLeader, Latest, CastOK, MsgOK, Wins, VotesOK, HeldOK, ElectionsOK, Counted;
    SettledPrefix(c, s.hist, was.log[..was.committed], was.log[..was.committed], Bound(was), w);
    hide Settled;
    match Latest(votes, c.N(), was.log)
    case Own => OwnNeverStops(c, s, r2, w, m, votes, junk);
    case Theirs(b) => TheirsStops(c, s, r2, w, m, votes, junk, b);
  }

  lemma DoViewChangeCrashes(c: Config, me: nat, r: Replica, m: Message, junk: nat)
    requires m.DoViewChange? && c.Leader(m.view) == me && WellFormed(r)
    ensures DvcVotes(r, m) != map[] && forall k :: k in DvcVotes(r, m) ==> DvcVotes(r, m)[k].DoViewChange?
    ensures HandleDoViewChange(c, me, r, m, junk).Crash? <==>
      Heeds(r, m.view) && |DvcVotes(r, m)| >= c.f && BecomeLeader(c, Candidate(me, r, m), m, DvcVotes(r, m), junk).Crash?
  {
    assert m.from in DvcVotes(r, m);
    hide BecomeLeader;
  }

  lemma CompletedStops(c: Config, s: State, me: nat, r: Replica, m: Message, junk: nat)
    requires Inv(c, s) && me < |s.reps| && r == s.reps[me] && m in s.msgs && m.DoViewChange? && c.Leader(m.view) == me
    requires Heeds(r, m.view) && |DvcVotes(r, m)| >= c.f && DvcVotes(r, m) != map[]
    requires forall k :: k in DvcVotes(r, m) ==> DvcVotes(r, m)[k].DoViewChange?
    ensures BecomeLeader(c, Candidate(me, r, m), m, DvcVotes(r, m), junk).Crash? <==>
      TooLate(Latest(DvcVotes(r, m), c.N(), r.log), r.committed)
  {
    assert CollectedOK(s, r, me) by { assert RepOK(c, s, me, r); }
    var votes, e := DvcVotes(r, m), Deliver(me, m, junk);
    DvcCollects(c, s, me, r, m);
    VotesOnRecord(c, s, me, m.view, votes);
    assert RepOK(c, s, me, r) && ElectionsOK(c, s.hist) && HeldOK(c, s.hist) && VotesOK(c, s);
    hide Record, BecomeLeader, Counted, Ballots, Collected, DvcVotes, CollectedOK, Latest, MsgOK, CastOK, VotesOK, ElectionsOK, HeldOK, RepOK, Candidate;
    BallotsCounted(c, s, e, me, votes);
    OffersCast(c, s, m.view, votes);
    hide Inv;
    QuorumStopsAt(c, s, me, r, Candidate(me, r, m), m, junk, votes, Ballots(s, e));
  }

  lemma DoViewChangeStops(c: Config, s: State, me: nat, r: Replica, m: Message, junk: nat)
    requires Inv(c, s) && me < |s.reps| && r == s.reps[me] && m in s.msgs && m.DoViewChange? && c.Leader(m.view) == me
    requires WellFormed(r)
    ensures HandleDoViewChange(c, me, r, m, junk).Crash? <==> Stops(c, r, m)
  {
    DoViewChangeCrashes(c, me, r, m, junk);
    hide Inv, BecomeLeader, HandleDoViewChange, Latest, DvcVotes, Candidate, TooLate, WellFormed;
    if Heeds(r, m.view) && |DvcVotes(r, m)| >= c.f {
      CompletedStops(c, s, me, r, m, junk);
    }
  }

  // ---- All messages ----

  /** In a careful run a message that arrives stops its replica exactly on the condition that `Stops` names. */
  lemma StopsExactly(c: Config, events: seq<Event>, me: nat, m: Message, junk: nat)
    requires Careful(c, events) && m in Run(c, events).msgs && Addressed(c, m, me)
    requires me < c.N() && |Run(c, events).reps| == c.N() && WellFormed(Run(c, events).reps[me])
    ensures var r := Run(c, events).reps[me];
      Receive(c, me, r, m, junk).Crash? <==> Stops(c, r, m)
  {
    RunOK(c, events);
    InStateStops(c, Run(c, events), me, m, junk);
  }

  lemma InStateStops(c: Config, s: State, me: nat, m: Message, junk: nat)
    requires Inv(c, s) && me < |s.reps| && m in s.msgs && Addressed(c, m, me) && WellFormed(s.reps[me])
    ensures Receive(c, me, s.reps[me], m, junk).Crash? <==> Stops(c, s.reps[me], m)
  {
    var r := s.reps[me];
    hide RepOK, MsgOK, ElectionsOK, HeldOK, VotesOK, WellFormed;
    assert RepOK(c, s, me, r) && MsgOK(c, s.hist, m) && ElectionsOK(c, s.hist) && HeldOK(c, s.hist);
    hide HandlePrepare, HandlePrepareOK, HandleCommit, HandleStartView, HandleDoViewChange, OfferLog, SvcVotes;
    match m
    case DoViewChange(_, _, _, _, _, _) => hide Inv, Stops; DoViewChangeStops(c, s, me, r, m, junk);
    case Prepare(_, _, _, _) => hide Inv, Stops; PrepareStops(c, s, me, r, m);
    case StartView(_, _, _, _) => hide Inv, Stops; StartViewStops(c, s, me, r, m);
    case PrepareOK(_, _, _) => hide Inv; PrepareOKNeverStops(c, s, me, r, m);
    case Commit(_, _) => hide Inv; CommitNeverStops(c, s, me, r, m);
    case StartViewChange(_, _, _) => hide Inv; StartViewChangeNeverStops(c, me, r, m);
  }

  lemma StartViewChangeNeverStops(c: Config, me: nat, r: Replica, m: Message)
    requires m.StartViewChange?
    ensures HandleStartViewChange(c, me, r, m).Ok?
  {
    hide OfferLog, SvcVotes;
  }

  // ---- Requests of clients, and the batch timer ----

  /**
   The entries that no Prepare has carried do not make a batch: there are none, or the first of them is
   of an older view. Both happen to a new leader, whose last batch ends at the last opnum it had before.
   */
  predicate BatchStops(r: Replica) {
    r.batchEnd >= r.lastOp || (r.batchEnd < |r.log| && r.log[r.batchEnd].view != r.view)
  }

  /** The next request fills the batch. */
  predicate FillsBatch(c: Config, r: Replica) { (r.lastOp + 1 - r.batchEnd + 1) % OPNUMS > c.batchSize }

  /** The condition on which a client's request stops a replica. */
  predicate RequestStops(c: Config, me: nat, r: Replica, req: Request, up: Upcall) {
    && r.normal && c.Leader(r.view) == me && !Old(r.table, req) && up.Replicate?
    && (r.lastOp != |r.log| || (FillsBatch(c, r) && BatchStops(Appended(r, req, up.op))))
  }

  /** In the log of a leader the entries of its own view come last. */
  lemma OwnEntriesLast(c: Config, s: State, me: nat, r: Replica, i: nat, j: nat)
    requires ElectionsOK(c, s.hist) && RepOK(c, s, me, r) && r.normal && c.Leader(r.view) == me
    requires i <= j < |r.log| && r.log[i].view == r.view
    ensures r.log[j].view == r.view
  {
    assert NormalOK(c, s.hist, me, r);
    assert ElectionOK(c, s.hist, r.view);
    hide ElectionsOK, VoteOK, Settled, LogOK, CollectedOK;
  }

  /** In the log the entries of the replica's view come last. */
  ghost predicate Ordered(r: Replica) {
    forall i, j :: 0 <= i <= j < |r.log| && r.log[i].view == r.view ==> r.log[j].view == r.view
  }

  lemma CloseBatchStops(r: Replica)
    requires r.lastOp <= |r.log| && Ordered(r)
    ensures CloseBatch(r).Crash? <==> BatchStops(r)
  {
    if r.batchEnd < r.lastOp && r.log[r.batchEnd].view == r.view {
      forall i | r.batchEnd <= i < r.lastOp ensures r.log[i].view == r.view {
        assert r.log[r.batchEnd].view == r.view;
      }
    }
    hide Requests;
  }

  lemma AppendedOrdered(r: Replica, req: Request, op: string)
    requires Ordered(r)
    ensures Ordered(Appended(r, req, op))
  {
    hide Update;
  }

  lemma RequestCrashes(c: Config, me: nat, r: Replica, req: Request, up: Upcall)
    requires r.normal && c.Leader(r.view) == me ==> Ordered(r)
    ensures HandleRequest(c, me, r, req, up).Crash? <==> RequestStops(c, me, r, req, up)
  {
    hide CloseBatch, BatchStops, Old, Appended, Ordered;
    if r.normal && c.Leader(r.view) == me && up.Replicate? && r.lastOp == |r.log| {
      AppendedOrdered(r, req, up.op);
      AppendedFields(r, req, up.op);
      CloseBatchStops(Appended(r, req, up.op));
    }
  }

  lemma AppendedFields(r: Replica, req: Request, op: string)
    ensures var r1 := Appended(r, req, op);
      r1.lastOp == r.lastOp + 1 && |r1.log| == |r.log| + 1 && r1.batchEnd == r.batchEnd && r1.view == r.view
  {
    hide Update;
  }

  lemma LeaderOrdered(c: Config, s: State, me: nat)
    requires Inv(c, s) && me < |s.reps| && s.reps[me].normal && c.Leader(s.reps[me].view) == me
    ensures s.reps[me].lastOp <= |s.reps[me].log| && Ordered(s.reps[me])
  {
    var r := s.reps[me];
    assert RepOK(c, s, me, r) && ElectionsOK(c, s.hist);
    hide Inv, ElectionsOK, CollectedOK, VoteOK, Settled;
    forall i, j | 0 <= i <= j < |r.log| && r.log[i].view == r.view ensures r.log[j].view == r.view {
      OwnEntriesLast(c, s, me, r, i, j);
    }
  }

  /** In a careful run a client's request stops a replica exactly on the condition that `RequestStops` names. */
  lemma RequestStopsExactly(c: Config, events: seq<Event>, me: nat, req: Request, up: Upcall)
    requires Careful(c, events) && me < c.N()
    ensures |Run(c, events).reps| == c.N()
    ensures var r := Run(c, events).reps[me];
      HandleRequest(c, me, r, req, up).Crash? <==> RequestStops(c, me, r, req, up)
  {
    hide Run, Careful, Inv, HandleRequest, RequestStops, Ordered;
    RunInv(c, events);
    var s := Run(c, events);
    if s.reps[me].normal && c.Leader(s.reps[me].view) == me { LeaderOrdered(c, s, me); }
    RequestCrashes(c, me, s.reps[me], req, up);
  }

  /** The same for the batch timer of a leader. */
  lemma BatchTimerStopsExactly(c: Config, events: seq<Event>, me: nat)
    requires Careful(c, events) && me < c.N()
    ensures |Run(c, events).reps| == c.N()
    ensures var r := Run(c, events).reps[me];
      r.normal && c.Leader(r.view) == me ==> (CloseBatch(r).Crash? <==> BatchStops(r))
  {
    hide Run, Careful, Inv, CloseBatch, BatchStops, Ordered;
    RunInv(c, events);
    var s := Run(c, events);
    if s.reps[me].normal && c.Leader(s.reps[me].view) == me {
      LeaderOrdered(c, s, me);
      CloseBatchStops(s.reps[me]);
    }
  }

  lemma RunInv(c: Config, events: seq<Event>)
    requires Careful(c, events)
    ensures Inv(c, Run(c, events)) && |Run(c, events).reps| == c.N()
  {
    hide Run, Careful;
    RunOK(c, events);
    hide RepOK, MsgOK, ElectionsOK, HeldOK, VotesOK;
  }
}
