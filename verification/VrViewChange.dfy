/**
 The two handlers that install a log received from another replica. Both receive
 only a suffix; what they install is nevertheless the sender's whole log.
 */
module VrViewChange {
  import opened Quorums
  import opened VrTypes
  import opened VrTable
  import opened VrLog
  import opened VrReplica
  import opened VrProtocol
  import opened VrInvariant
  import opened VrSafety
  import opened VrSteps
  import opened VrHandlers

  /** Truncating and installing a received suffix yields the whole log it was taken from. */
  lemma InstalledWhole(es: Elections, local: Log, committed: nat, whole: Log, op: nat, suffix: Suffix)
    requires LogOK(es, local) && LogOK(es, whole)
    requires SuffixOK(suffix, whole, op) && (op == |whole| || op == 0)
    requires committed <= |local| && suffix.first <= committed + 1
    requires local[..committed] <= whole
    requires suffix.first <= |RemoveAfter(local, op + 1)| + 1
    ensures Install(RemoveAfter(local, op + 1), suffix) == whole
  {
    var kept := RemoveAfter(local, op + 1);
    PrefixLogOK(es, kept, local);
    LogsMatch(es, kept, whole);
    var n := suffix.first - 1;
    assert kept[..n] == local[..committed][..n] == whole[..n];
    InstallYieldsSender(kept, whole, suffix.first);
  }

  // ---- StartView ----

  lemma CommitInLog(c: Config, h: History, r: Replica, upto: nat, b: nat)
    requires r.committed <= |r.log| && r.executed == Requests(r.log[..r.committed])
    requires upto <= r.lastOp <= |r.log| && r.committed <= r.lastOp
    requires Settled(c, h, r.log[..r.committed], b) && Settled(c, h, r.log[..upto], b) && b <= Bound(r)
    ensures CommitsOK(c, h, CommitUpTo(c, r, upto))
  {
    var r' := CommitUpTo(c, r, upto);
    if r.committed < upto { RequestsAppend(r.log, r.committed, upto); }
    SettledPrefix(c, h, r'.log[..r'.committed], r'.log[..r'.committed], b, Bound(r));
  }

  /** What a view started from contains what a replica that enters it has committed. */
  lemma CommittedInBase(c: Config, h: History, was: Replica, w: nat)
    requires ElectionsOK(c, h) && HeldOK(c, h) && w in h.elections && Bound(was) <= w
    requires was.committed <= |was.log| && Settled(c, h, was.log[..was.committed], Bound(was))
    ensures was.log[..was.committed] <= h.elections[w].base && was.committed <= h.elections[w].op
  {
    assert ElectionOK(c, h, w);
    SettledInBase(c, h, was.log[..was.committed], Bound(was), w);
    assert |was.log[..was.committed]| == was.committed;
  }

  /** The suffix in a StartView message installs the whole log the view started from. */
  lemma StartViewLog(c: Config, h: History, was: Replica, w: nat, suffix: Suffix)
    requires ElectionsOK(c, h) && w in h.elections
    requires LogOK(h.elections, was.log) && was.committed <= |was.log|
    requires was.log[..was.committed] <= h.elections[w].base
    requires SuffixOK(suffix, h.elections[w].base, h.elections[w].op)
    requires Installable(was, h.elections[w].op, suffix) && suffix.entries != []
    ensures Installed(was, h.elections[w].op, suffix) == h.elections[w].base
  {
    var e := h.elections[w];
    assert ElectionOK(c, h, w);
    BaseOK(c, h, w);
    hide ElectionsOK, ElectionOK;
    InstalledWhole(h.elections, was.log, was.committed, e.base, e.op, suffix);
  }

  lemma EntersWith(c: Config, h: History, was: Replica, m: Message, log: Log)
    requires m.StartView? && MsgOK(c, h, m) && Bound(was) <= m.view
    requires was.committed <= |was.log| && was.executed == Requests(was.log[..was.committed])
    requires var e := h.elections[m.view];
      log == (if m.suffix.entries == [] then was.log else e.base) &&
      was.log[..was.committed] <= e.base && was.committed <= e.op
    requires Settled(c, h, was.log[..was.committed], Bound(was))
    ensures var r1 := EnterView(was.(log := log), m.view).(lastOp := m.lastOp);
      && (m.committed <= |log| || m.committed <= r1.committed)
      && var r := CommitUpTo(c, r1, m.committed);
         Entered(c, h, was, r) && CommitsOK(c, h, r) && r.lastOp <= |h.elections[r.view].base|
  {
    var e := h.elections[m.view];
    var r1 := EnterView(was.(log := log), m.view).(lastOp := m.lastOp);
    assert m.suffix.entries == [] ==> e.base == [] && m.lastOp == 0;
    assert was.log[..was.committed] == log[..was.committed];
    SettledPrefix(c, h, log[..was.committed], log[..was.committed], Bound(was), m.view + 1);
    assert log[..m.committed] == e.base[..m.committed];
    CommitInLog(c, h, r1, m.committed, m.view + 1);
  }

  /** What HandleStartView makes of a replica that enters the view, but for the client table; it may stop at an acknowledgement. */
  lemma StartViewOutcome(c: Config, me: nat, was: Replica, m: Message)
    requires m.StartView? && Bound(was) <= m.view && c.Leader(m.view) != me && Enters(c, was, m)
    ensures Installable(was, m.lastOp, m.suffix)
    ensures var o, log := HandleStartView(c, me, was, m), Installed(was, m.lastOp, m.suffix);
      var r1 := EnterView(was.(log := log), m.view).(lastOp := m.lastOp);
      && (m.committed <= |log| || m.committed <= r1.committed)
      && o.r == CommitUpTo(c, r1, m.committed).(table := o.r.table)
      && o.out <= PrepareOKs(me, o.r, was.lastOp, o.r.lastOp + 1)
  {
    hide Installed, Installable, RecordedAll, UpdateAll, UpdatableAll;
    var r := Entering(c, was, m);
    AcknowledgesUpTo(me, r, was.lastOp);
    hide SendPrepareOKs, Entering;
  }

  lemma AcknowledgesUpTo(me: nat, r: Replica, oldLastOp: nat)
    ensures var o := SendPrepareOKs(me, r, oldLastOp);
      o.r == r.(table := o.r.table) && o.out <= PrepareOKs(me, r, oldLastOp, r.lastOp + 1)
  {
    hide RecordedAll, UpdateAll, UpdatableAll, Requests;
  }

  lemma EnteredTable(c: Config, h: History, was: Replica, r: Replica, table: Table)
    requires Entered(c, h, was, r) && CommitsOK(c, h, r)
    ensures Entered(c, h, was, r.(table := table)) && CommitsOK(c, h, r.(table := table))
  {
  }

  /** The log to enter the view with is what the view started from, unless that is empty. */
  lemma EntersWithBase(c: Config, s: State, me: nat, was: Replica, m: Message)
    requires ElectionsOK(c, s.hist) && HeldOK(c, s.hist) && RepOK(c, s, me, was)
    requires m.StartView? && MsgOK(c, s.hist, m) && Bound(was) <= m.view && Installable(was, m.lastOp, m.suffix)
    ensures was.committed <= |was.log| && was.executed == Requests(was.log[..was.committed])
    ensures Settled(c, s.hist, was.log[..was.committed], Bound(was))
    ensures var e, log := s.hist.elections[m.view], Installed(was, m.lastOp, m.suffix);
      log == (if m.suffix.entries == [] then was.log else e.base) &&
      was.log[..was.committed] <= e.base && was.committed <= e.op
  {
    hide ElectionsOK, HeldOK, Settled, CollectedOK, NormalOK, Installable, Installed, Remembers, LogOK, OpOK, Below;
    CommittedInBase(c, s.hist, was, m.view);
    if m.suffix.entries != [] {
      StartViewLog(c, s.hist, was, m.view, m.suffix);
    } else {
      KeepsOwnLog(was, m.lastOp, m.suffix);
    }
  }

  lemma KeepsOwnLog(was: Replica, lastOp: nat, suffix: Suffix)
    requires suffix.entries == []
    ensures Installable(was, lastOp, suffix) && Installed(was, lastOp, suffix) == was.log
  {
  }

  lemma StartViewEnters(c: Config, s: State, me: nat, was: Replica, m: Message)
    requires ElectionsOK(c, s.hist) && HeldOK(c, s.hist) && RepOK(c, s, me, was)
    requires m.StartView? && MsgOK(c, s.hist, m) && Bound(was) <= m.view
    requires c.Leader(m.view) != me && Enters(c, was, m)
    ensures var o := HandleStartView(c, me, was, m);
      Entered(c, s.hist, was, o.r) && o.r.view == m.view &&
      CollectedOK(s, o.r, me) && CommitsOK(c, s.hist, o.r) && o.r.lastOp <= |s.hist.elections[o.r.view].base| &&
      o.out <= PrepareOKs(me, o.r, was.lastOp, o.r.lastOp + 1)
  {
    hide ElectionsOK, HeldOK, RepOK, MsgOK, Enters, Entered, CommitsOK, RecordedAll, HandleStartView,
      Settled, CollectedOK, Installable, Installed, PrepareOKs, Requests;
    StartViewOutcome(c, me, was, m);
    EntersWithBase(c, s, me, was, m);
    var o, log := HandleStartView(c, me, was, m), Installed(was, m.lastOp, m.suffix);
    EntersWith(c, s.hist, was, m, log);
    var r := CommitUpTo(c, EnterView(was.(log := log), m.view).(lastOp := m.lastOp), m.committed);
    EnteredTable(c, s.hist, was, r, o.r.table);
    NothingCollected(s, o.r, me);
  }

  lemma NothingCollected(s: State, r: Replica, me: nat)
    requires r.okVotes == map[] && r.dvcVotes == map[]
    ensures CollectedOK(s, r, me)
  {
  }

  lemma StartViewAcksOK(c: Config, h: History, me: nat, r: Replica, oldLastOp: nat)
    requires me < c.N() && c.Leader(r.view) != me && Held(h, r.view, me) == r.lastOp
    ensures forall m :: m in PrepareOKs(me, r, oldLastOp, r.lastOp + 1) ==> MsgOK(c, h, m)
  {
  }

  lemma StartViewStepOK(c: Config, s: State, me: nat, m: Message, ballots: map<nat, Vote>)
    requires Inv(c, s) && me < |s.reps| && m in s.msgs && m.StartView?
    ensures var o := HandleStartView(c, me, s.reps[me], m); Inv(c, Moved(c, s, me, o.r, o.out, ballots))
  {
    var was := s.reps[me];
    var o := HandleStartView(c, me, was, m);
    assert RepOK(c, s, me, was) && MsgOK(c, s.hist, m);
    hide Inv, MsgOK, Installed, Installable;
    if m.view < was.view || (m.view == was.view && was.normal) || c.Leader(m.view) == me || !Enters(c, was, m) {
      Idles(c, s, me, was);
      Stays(c, s, me, was, {}, ballots);
    } else {
      StartViewEnters(c, s, me, was, m);
      hide HandleStartView;
      EntersAndAcks(c, s, me, o.r, was.lastOp, o.out, ballots);
    }
  }

  lemma EntersAndAcks(c: Config, s: State, me: nat, r: Replica, oldLastOp: nat, out: set<Message>, ballots: map<nat, Vote>)
    requires Inv(c, s) && me < |s.reps| && Entered(c, s.hist, s.reps[me], r) && c.Leader(r.view) != me
    requires CommitsOK(c, s.hist, r) && r.lastOp <= |s.hist.elections[r.view].base|
    requires CollectedOK(s, r, me) && out <= PrepareOKs(me, r, oldLastOp, r.lastOp + 1)
    ensures Inv(c, Moved(c, s, me, r, out, ballots))
  {
    assert RepOK(c, s, me, s.reps[me]);
    EnterAdvances(c, s, me, r, out, ballots);
    CollectedMore(s, Moved(c, s, me, r, out, ballots), r, me);
    StartViewAcksOK(c, Moved(c, s, me, r, out, ballots).hist, me, r, oldLastOp);
    hide Inv, MsgOK;
    EnterOK(c, s, me, r, out, ballots);
  }

  // ---- DoViewChange ----

  ghost predicate Collected(s: State, w: nat, votes: map<nat, Message>) {
    forall k :: k in votes ==> votes[k] in s.msgs && votes[k].DoViewChange? && votes[k].view == w && votes[k].from == k
  }

  lemma DvcCollects(c: Config, s: State, me: nat, was: Replica, m: Message)
    requires CollectedOK(s, was, me) && m in s.msgs && m.DoViewChange?
    ensures Collected(s, m.view, DvcVotes(was, m))
    ensures CollectedOK(s, was.(dvcVotes := was.dvcVotes[m.view := DvcVotes(was, m)]), me)
  {
  }

  function OpOf(best: Choice, own: Log): nat
    requires best.Theirs? ==> best.m.DoViewChange?
  {
    match best case Own => |own| case Theirs(b) => b.lastOp
  }

  function ViewOf(best: Choice, own: Log): nat
    requires best.Theirs? ==> best.m.DoViewChange?
  {
    match best case Own => LastView(own) case Theirs(b) => b.lastNormal
  }

  /** The selection loop finds a maximum: nothing offered by a replica below `n`, nor the own log, is newer. */
  lemma {:induction false} LatestIsNewest(votes: map<nat, Message>, n: nat, own: Log)
    requires forall k :: k in votes ==> votes[k].DoViewChange?
    ensures var best := Latest(votes, n, own);
      && (best.Theirs? ==> best.m in votes.Values && best.m.DoViewChange?)
      && AtLeast(ViewOf(best, own), OpOf(best, own), LastView(own), |own|)
      && forall k :: k in votes && k < n ==>
           AtLeast(ViewOf(best, own), OpOf(best, own), votes[k].lastNormal, votes[k].lastOp)
  {
    if n > 0 {
      LatestIsNewest(votes, n - 1, own);
    }
  }

  /** The ballots the history records for an election: the collected votes and the leader's own log. */
  ghost predicate Counted(h: History, me: nat, was: Replica, w: nat, votes: map<nat, Message>, ballots: map<nat, Vote>) {
    && ballots.Keys == votes.Keys + {me} && me !in votes
    && ballots[me] == Vote(was.log, |was.log|, was.committed)
    && forall k :: k in votes ==> (w, k) in h.votes && ballots[k] == h.votes[(w, k)]
  }

  lemma BallotsCounted(c: Config, s: State, e: Event, me: nat, votes: map<nat, Message>)
    requires me < |s.reps| && e.Deliver? && e.m.DoViewChange? && e.r == me
    requires votes == DvcVotes(s.reps[me], e.m) && me !in votes
    requires forall k :: k in votes ==> (e.m.view, k) in s.hist.votes
    ensures Counted(s.hist, me, s.reps[me], e.m.view, votes, Ballots(s, e))
    ensures |Ballots(s, e)| == |votes| + 1
  {
    var ballots := Ballots(s, e);
    assert ballots.Keys == votes.Keys + {me};
    assert |votes.Keys + {me}| == |votes| + 1;
  }

  /** The leader's own log counts as a vote in full, whatever opnum the leader had reached. */
  lemma OwnVote(h: History, b: nat, w: nat, me: nat, was: Replica)
    requires VoteOK(h, b, me, Vote(was.log, was.lastOp, was.committed)) && b <= w
    requires forall v: nat :: Held(h, v, me) > 0 ==> v < b
    ensures VoteOK(h, w, me, Vote(was.log, |was.log|, was.committed))
  {
    VoteLater(h, b, w, me, Vote(was.log, was.lastOp, was.committed));
  }

  /** The log the new leader decides for. */
  function Decided(h: History, w: nat, best: Choice, own: Log): Log
    requires best.Theirs? ==> best.m.DoViewChange? && (w, best.m.from) in h.votes
  {
    match best case Own => own case Theirs(b) => h.votes[(w, b.from)].log
  }

  /** Each collected message speaks of the vote on record for its sender. */
  ghost predicate OffersOK(c: Config, h: History, w: nat, votes: map<nat, Message>) {
    forall k :: k in votes ==>
      && votes[k].DoViewChange? && votes[k].from == k && k < c.N()
      && (w, k) in h.votes
      && var vote := h.votes[(w, k)];
         && VoteOK(h, w, k, vote)
         && votes[k].lastNormal == LastView(vote.log) && votes[k].lastOp == vote.lastOp
  }

  lemma OffersAreVotes(c: Config, s: State, w: nat, votes: map<nat, Message>)
    requires Collected(s, w, votes) && VotesOK(c, s)
    requires forall k :: k in votes ==> MsgOK(c, s.hist, votes[k])
    ensures OffersOK(c, s.hist, w, votes)
  {
    forall k | k in votes
      ensures k < c.N() && (w, k) in s.hist.votes && VoteOK(s.hist, w, k, s.hist.votes[(w, k)])
    {
      assert CastOK(c, s, w, k, s.hist.votes[(w, k)]);
    }
  }

  lemma DecidedVote(c: Config, s: State, me: nat, was: Replica, w: nat, votes: map<nat, Message>, ballots: map<nat, Vote>)
    requires OffersOK(c, s.hist, w, votes)
    requires Counted(s.hist, me, was, w, votes, ballots)
    requires VoteOK(s.hist, w, me, Vote(was.log, |was.log|, was.committed))
    ensures var best := Latest(votes, c.N(), was.log);
      && (best.Theirs? ==> best.m in votes.Values && best.m.DoViewChange? && (w, best.m.from) in s.hist.votes)
      && var log, op := Decided(s.hist, w, best, was.log), OpOf(best, was.log);
         && LastView(log) == ViewOf(best, was.log)
         && LogOK(s.hist.elections, log) && Below(log, w) && OpOK(s.hist.elections, log, op, w)
         && AtLeast(LastView(log), op, LastView(was.log), |was.log|)
         && forall k :: k in votes ==> AtLeast(LastView(log), op, votes[k].lastNormal, votes[k].lastOp)
  {
    LatestIsNewest(votes, c.N(), was.log);
    hide Latest, LogOK, Below, OpOK, Remembers;
  }

  /** What is at least as new as the collected messages and the own log is at least as new as every ballot. */
  lemma BallotsBeaten(c: Config, h: History, me: nat, was: Replica, w: nat, votes: map<nat, Message>,
                      ballots: map<nat, Vote>, view: nat, op: nat)
    requires OffersOK(c, h, w, votes) && Counted(h, me, was, w, votes, ballots) && me < c.N()
    requires VoteOK(h, w, me, Vote(was.log, |was.log|, was.committed))
    requires AtLeast(view, op, LastView(was.log), |was.log|)
    requires forall k :: k in votes ==> AtLeast(view, op, votes[k].lastNormal, votes[k].lastOp)
    ensures forall k :: k in ballots ==>
      k < c.N() && VoteOK(h, w, k, ballots[k]) && AtLeast(view, op, LastView(ballots[k].log), ballots[k].lastOp)
  {
    hide VoteOK, AtLeast, LastView;
  }

  /** What the selection loop decides for wins the ballots. */
  lemma DecidedWins(c: Config, s: State, me: nat, was: Replica, w: nat, votes: map<nat, Message>, ballots: map<nat, Vote>)
    requires OffersOK(c, s.hist, w, votes) && me < c.N()
    requires Counted(s.hist, me, was, w, votes, ballots) && |ballots| >= c.f + 1
    requires VoteOK(s.hist, w, me, Vote(was.log, |was.log|, was.committed))
    ensures var best := Latest(votes, c.N(), was.log);
      && (best.Theirs? ==> best.m in votes.Values && best.m.DoViewChange? && (w, best.m.from) in s.hist.votes)
      && Wins(c, s, w, Decided(s.hist, w, best, was.log), OpOf(best, was.log), ballots)
  {
    hide VoteOK, Latest, AtLeast, LogOK, OpOK, Below, OffersOK, Counted;
    DecidedVote(c, s, me, was, w, votes, ballots);
    var best := Latest(votes, c.N(), was.log);
    var log, op := Decided(s.hist, w, best, was.log), OpOf(best, was.log);
    BallotsBeaten(c, s.hist, me, was, w, votes, ballots, LastView(log), op);
  }

  /** Whatever the new leader has committed is in the log it decides for. */
  lemma CommittedInDecided(c: Config, s: State, was: Replica, w: nat, log: Log, op: nat, ballots: map<nat, Vote>)
    requires ElectionsOK(c, s.hist) && HeldOK(c, s.hist) && Wins(c, s, w, log, op, ballots)
    requires was.committed <= |was.log| && Bound(was) <= w && Settled(c, s.hist, was.log[..was.committed], Bound(was))
    ensures was.log[..was.committed] <= log
    ensures op == |log| || was.committed == 0
  {
    SettledInCandidate(c, s.hist, was.log[..was.committed], Bound(was), w, ballots, log, op);
    assert |was.log[..was.committed]| == was.committed;
  }

  /** The suffix in the chosen message is not empty, and installs the whole log of its sender. */
  lemma InstalledIsDecided(c: Config, s: State, r: Replica, w: nat, b: Message)
    requires b.DoViewChange? && b.view == w && MsgOK(c, s.hist, b) && CastOK(c, s, w, b.from, s.hist.votes[(w, b.from)])
    requires LogOK(s.hist.elections, r.log) && r.committed <= |r.log|
    requires Newer(b.lastNormal, b.lastOp, LastView(r.log), |r.log|)
    requires r.log[..r.committed] <= s.hist.votes[(w, b.from)].log
    ensures b.suffix.entries != []
    ensures Installable(r, b.lastOp, b.suffix) ==>
      Installed(r, b.lastOp, b.suffix) == s.hist.votes[(w, b.from)].log
  {
    var vote := s.hist.votes[(w, b.from)];
    assert VoteOK(s.hist, w, b.from, vote);
    if Installable(r, b.lastOp, b.suffix) {
      hide Remembers;
      InstalledWhole(s.hist.elections, r.log, r.committed, vote.log, b.lastOp, b.suffix);
    }
  }

  /** The new leader's state, and the StartView message it sends, once the log is decided. */
  ghost predicate Leads(c: Config, s: State, r: Replica, w: nat, log: Log, op: nat, out: set<Message>) {
    && r.view == w && r.normal && r.log == log && r.lastOp == op
    && r.okVotes == map[] && r.dvcVotes == map[]
    && CommitsOK(c, s.hist, r)
    && exists from: nat :: from <= r.committed && out == {StartView(w, op, r.committed, Dump(log, from))}
  }

  lemma LeadWithLeads(c: Config, s: State, r: Replica, w: nat, log: Log, op: nat, upto: nat, from: nat)
    requires r.committed <= |r.log| && r.executed == Requests(r.log[..r.committed])
    requires r.log[..r.committed] <= log && (op == |log| || r.committed == 0)
    requires Settled(c, s.hist, r.log[..r.committed], w)
    requires upto <= op <= |log| && Settled(c, s.hist, log[..upto], w)
    requires from <= r.committed
    ensures var o := LeadWith(c, r, w, log, op, upto, from); o.Ok? && Leads(c, s, o.r, w, log, op, o.out)
  {
    var r1 := EnterView(r.(log := log), w).(lastOp := op);
    assert |r.log[..r.committed]| == r.committed;
    assert r.log[..r.committed] == log[..r.committed];
    CommitInLog(c, s.hist, r1, upto, w);
    var o := LeadWith(c, r, w, log, op, upto, from);
    assert o.out == {StartView(w, op, o.r.committed, Dump(log, from))};
  }

  lemma LeadsWithTheirs(c: Config, s: State, r: Replica, w: nat, b: Message, from: nat)
    requires b.DoViewChange? && b.view == w && MsgOK(c, s.hist, b) && CastOK(c, s, w, b.from, s.hist.votes[(w, b.from)])
    requires LogOK(s.hist.elections, r.log) && r.committed <= |r.log| && r.executed == Requests(r.log[..r.committed])
    requires Settled(c, s.hist, r.log[..r.committed], w)
    requires Newer(b.lastNormal, b.lastOp, LastView(r.log), |r.log|)
    requires r.log[..r.committed] <= s.hist.votes[(w, b.from)].log
    requires b.lastOp == |s.hist.votes[(w, b.from)].log| || r.committed == 0
    requires from <= r.committed
    ensures b.suffix.entries != []
    ensures Installable(r, b.lastOp, b.suffix) ==>
      var o := LeadWith(c, r, w, Installed(r, b.lastOp, b.suffix), b.lastOp, b.committed, from);
      o.Ok? && Leads(c, s, o.r, w, s.hist.votes[(w, b.from)].log, b.lastOp, o.out)
  {
    InstalledIsDecided(c, s, r, w, b);
    hide VoteOK, Leads, Installed, Installable, LeadWith;
    LeadWithLeads(c, s, r, w, s.hist.votes[(w, b.from)].log, b.lastOp, b.committed, from);
  }

  lemma BecomesLeader(c: Config, s: State, r: Replica, w: nat, m: Message, votes: map<nat, Message>, junk: nat)
    requires votes != map[] && m.DoViewChange? && m.view == w && Collected(s, w, votes)
    requires forall k :: k in votes ==> MsgOK(c, s.hist, votes[k]) && CastOK(c, s, w, k, s.hist.votes[(w, k)])
    requires LogOK(s.hist.elections, r.log) && r.committed <= |r.log| && r.executed == Requests(r.log[..r.committed])
    requires Settled(c, s.hist, r.log[..r.committed], w)
    requires var best := Latest(votes, c.N(), r.log);
      && (best.Theirs? ==> best.m in votes.Values && best.m.DoViewChange? && (w, best.m.from) in s.hist.votes)
      && var log, op := Decided(s.hist, w, best, r.log), OpOf(best, r.log);
         r.log[..r.committed] <= log && (op == |log| || r.committed == 0)
    requires BecomeLeader(c, r, m, votes, junk).Ok?
    ensures var best := Latest(votes, c.N(), r.log);
      var o := BecomeLeader(c, r, m, votes, junk);
      Leads(c, s, o.r, w, Decided(s.hist, w, best, r.log), OpOf(best, r.log), o.out)
  {
    var best := Latest(votes, c.N(), r.log);
    var from := StartFrom(r, w, votes, junk);
    assert from <= r.committed;
    match best
    case Own =>
      LeadWithLeads(c, s, r, w, r.log, |r.log|, 0, from);
    case Theirs(b) =>
      assert MsgOK(c, s.hist, b) && CastOK(c, s, w, b.from, s.hist.votes[(w, b.from)]);
      hide Leads, LeadWith, Installed, Installable, CastOK, MsgOK, Latest, StartFrom;
      LeadsWithTheirs(c, s, r, w, b, from);
  }

  lemma StartViewMsgOK(c: Config, h: History, r: Replica, from: nat, votes: map<nat, Vote>)
    requires r.committed <= r.lastOp <= |r.log| && from <= r.committed
    requires Settled(c, h, r.log[..r.committed], r.view + 1)
    requires r.view in h.elections && h.elections[r.view] == Election(r.log, r.lastOp, r.log, votes)
    ensures MsgOK(c, h, StartView(r.view, r.lastOp, r.committed, Dump(r.log, from)))
  {
    DumpSuffixOK(r.log, from, r.lastOp);
  }

  ghost predicate SvcOnly(out: set<Message>) {
    forall m :: m in out ==> m.StartViewChange?
  }

  lemma StartMsgsOK(c: Config, s: State, h': History, me: nat, r: Replica, log: Log, op: nat,
                    started: set<Message>, ballots: map<nat, Vote>)
    requires Leads(c, s, r, r.view, log, op, started)
    requires Grows(c, s.hist, h', me, r.view)
    requires r.view in h'.elections && h'.elections[r.view] == Election(r.log, r.lastOp, r.log, ballots)
    ensures forall m :: m in started ==> MsgOK(c, h', m)
  {
    hide Settled, MsgOK, Dump, LogOK, Holders;
    var from: nat :| from <= r.committed && started == {StartView(r.view, op, r.committed, Dump(log, from))};
    SettledStable(c, s.hist, h', r.log[..r.committed], r.view + 1, r.view + 1);
    hide Grows;
    StartViewMsgOK(c, h', r, from, ballots);
  }

  lemma LeadsMsgsOK(c: Config, h: History, out: set<Message>, started: set<Message>)
    requires SvcOnly(out) && forall m :: m in started ==> MsgOK(c, h, m)
    ensures forall m :: m in out + started ==> MsgOK(c, h, m)
  {
    forall m | m in out ensures MsgOK(c, h, m) { SvcMsgOK(c, h, m); }
  }

  lemma SvcMsgOK(c: Config, h: History, m: Message)
    requires m.StartViewChange?
    ensures MsgOK(c, h, m)
  {
  }

  lemma LeadsOK(c: Config, s: State, me: nat, r: Replica, log: Log, op: nat,
                out: set<Message>, started: set<Message>, ballots: map<nat, Vote>)
    requires Inv(c, s) && Elected(c, s, me, r, ballots)
    requires Leads(c, s, r, r.view, log, op, started) && SvcOnly(out)
    ensures Inv(c, Moved(c, s, me, r, out + started, ballots))
  {
    var s' := Moved(c, s, me, r, out + started, ballots);
    assert RepOK(c, s, me, s.reps[me]);
    hide Inv, MsgOK, Elected, RepOK, Grows, Record, CollectedOK, CommitsOK;
    ElectAdvances(c, s, me, r, out + started, ballots);
    StartMsgsOK(c, s, s'.hist, me, r, log, op, started, ballots);
    LeadsMsgsOK(c, s'.hist, out, started);
    NothingCollected(s', r, me);
    ElectKeeps(c, s, s', me, r, ballots);
  }

  /** The replica in front of its quorum of votes: what it decides for wins, and contains what it has committed. */
  lemma QuorumDecides(c: Config, s: State, me: nat, was: Replica, w: nat, votes: map<nat, Message>, ballots: map<nat, Vote>)
    requires ElectionsOK(c, s.hist) && HeldOK(c, s.hist) && VotesOK(c, s) && RepOK(c, s, me, was) && me < c.N()
    requires Collected(s, w, votes) && forall k :: k in votes ==> MsgOK(c, s.hist, votes[k])
    requires Counted(s.hist, me, was, w, votes, ballots) && |ballots| >= c.f + 1
    requires Bound(was) <= w
    ensures var best := Latest(votes, c.N(), was.log);
      && (best.Theirs? ==> best.m in votes.Values && best.m.DoViewChange? && (w, best.m.from) in s.hist.votes)
      && var log, op := Decided(s.hist, w, best, was.log), OpOf(best, was.log);
         && Wins(c, s, w, log, op, ballots)
         && was.log[..was.committed] <= log && (op == |log| || was.committed == 0)
  {
    assert VoteOK(s.hist, Bound(was), me, Vote(was.log, was.lastOp, was.committed));
    OwnVote(s.hist, Bound(was), w, me, was);
    OffersAreVotes(c, s, w, votes);
    hide RepOK, OffersOK, Latest, VoteOK, MsgOK, Collected, VotesOK, ElectionsOK, HeldOK, Counted;
    DecidedWins(c, s, me, was, w, votes, ballots);
    var best := Latest(votes, c.N(), was.log);
    assert was.committed <= |was.log| && Settled(c, s.hist, was.log[..was.committed], Bound(was)) by {
      CommittedPart(c, s, me, was);
    }
    CommittedInDecided(c, s, was, w, Decided(s.hist, w, best, was.log), OpOf(best, was.log), ballots);
  }

  lemma CommittedPart(c: Config, s: State, me: nat, was: Replica)
    requires RepOK(c, s, me, was)
    ensures was.committed <= |was.log| && Settled(c, s.hist, was.log[..was.committed], Bound(was))
    ensures was.executed == Requests(was.log[..was.committed]) && LogOK(s.hist.elections, was.log)
  {
  }

  lemma VotersReached(c: Config, s: State, me: nat, r: Replica, log: Log, op: nat, votes: map<nat, Message>, ballots: map<nat, Vote>)
    requires me < |s.reps| && me == c.Leader(r.view) && Bound(s.reps[me]) <= r.view && r.normal
    requires r.log == log && r.lastOp == op && Wins(c, s, r.view, log, op, ballots)
    requires ballots.Keys == votes.Keys + {me}
    requires forall k :: k in votes ==> k < |s.reps| && r.view <= s.reps[k].view
    ensures Elected(c, s, me, r, ballots)
  {
  }

  lemma QuorumLeads(c: Config, s: State, me: nat, was: Replica, r2: Replica, m: Message, junk: nat,
                    votes: map<nat, Message>, ballots: map<nat, Vote>) returns (log: Log, op: nat)
    requires ElectionsOK(c, s.hist) && HeldOK(c, s.hist) && VotesOK(c, s) && RepOK(c, s, me, was) && me < c.N()
    requires m.DoViewChange? && Bound(was) <= m.view && SameLog(was, r2)
    requires votes != map[] && Collected(s, m.view, votes)
    requires forall k :: k in votes ==>
      MsgOK(c, s.hist, votes[k]) && (m.view, k) in s.hist.votes && CastOK(c, s, m.view, k, s.hist.votes[(m.view, k)])
    requires Counted(s.hist, me, was, m.view, votes, ballots) && |ballots| >= c.f + 1
    requires BecomeLeader(c, r2, m, votes, junk).Ok?
    ensures var o := BecomeLeader(c, r2, m, votes, junk);
      Wins(c, s, m.view, log, op, ballots) && Leads(c, s, o.r, m.view, log, op, o.out)
  {
    var w := m.view;
    QuorumDecides(c, s, me, was, w, votes, ballots);
    CommittedPart(c, s, me, was);
    hide RepOK, Leads, BecomeLeader, Latest, CastOK, MsgOK, Wins, VotesOK, HeldOK, ElectionsOK, Counted;
    SettledPrefix(c, s.hist, was.log[..was.committed], was.log[..was.committed], Bound(was), w);
    BecomesLeader(c, s, r2, w, m, votes, junk);
    var best := Latest(votes, c.N(), was.log);
    log, op := Decided(s.hist, w, best, was.log), OpOf(best, was.log);
  }

  lemma QuorumElects(c: Config, s: State, me: nat, was: Replica, r2: Replica, m: Message, junk: nat,
                     votes: map<nat, Message>, ballots: map<nat, Vote>, out: set<Message>)
    requires Inv(c, s) && me < |s.reps| && was == s.reps[me] && me == c.Leader(m.view)
    requires m.DoViewChange? && Bound(was) <= m.view && SvcOnly(out)
    requires votes != map[] && Collected(s, m.view, votes)
    requires Counted(s.hist, me, was, m.view, votes, ballots) && |ballots| >= c.f + 1
    requires SameLog(was, r2) && BecomeLeader(c, r2, m, votes, junk).Ok?
    ensures var o := BecomeLeader(c, r2, m, votes, junk); Inv(c, Moved(c, s, me, o.r, out + o.out, ballots))
  {
    assert RepOK(c, s, me, was);
    OffersCast(c, s, m.view, votes);
    var o := BecomeLeader(c, r2, m, votes, junk);
    hide VoteOK;
    var log, op := QuorumLeads(c, s, me, was, r2, m, junk, votes, ballots);
    assert o.r.view == m.view;
    hide Inv, RepOK, BecomeLeader, Collected, CastOK, MsgOK, Wins, Leads;
    LeaderElected(c, s, me, o.r, log, op, votes, ballots, out, o.out);
  }

  lemma LeaderElected(c: Config, s: State, me: nat, r: Replica, log: Log, op: nat, votes: map<nat, Message>,
                      ballots: map<nat, Vote>, out: set<Message>, started: set<Message>)
    requires Inv(c, s) && me < |s.reps| && me == c.Leader(r.view) && Bound(s.reps[me]) <= r.view && SvcOnly(out)
    requires forall k :: k in votes ==> k < |s.reps| && r.view <= s.reps[k].view
    requires ballots.Keys == votes.Keys + {me}
    requires Wins(c, s, r.view, log, op, ballots) && Leads(c, s, r, r.view, log, op, started)
    ensures Inv(c, Moved(c, s, me, r, out + started, ballots))
  {
    assert r.normal && r.log == log && r.lastOp == op;
    hide Inv, Leads, Elected, Wins;
    VotersReached(c, s, me, r, log, op, votes, ballots);
    LeadsOK(c, s, me, r, log, op, out, started, ballots);
  }

  lemma OffersCast(c: Config, s: State, w: nat, votes: map<nat, Message>)
    requires VotesOK(c, s) && Collected(s, w, votes)
    requires forall m :: m in s.msgs ==> MsgOK(c, s.hist, m)
    ensures forall k :: k in votes ==>
      MsgOK(c, s.hist, votes[k]) && (w, k) in s.hist.votes && CastOK(c, s, w, k, s.hist.votes[(w, k)])
    ensures forall k :: k in votes ==> k < |s.reps| && w <= s.reps[k].view
  {
    forall k | k in votes
      ensures MsgOK(c, s.hist, votes[k]) && (w, k) in s.hist.votes && CastOK(c, s, w, k, s.hist.votes[(w, k)])
      ensures k < |s.reps| && w <= s.reps[k].view
    {
      assert votes[k] in s.msgs && MsgOK(c, s.hist, votes[k]);
      hide VoteOK;
      assert CastOK(c, s, w, k, s.hist.votes[(w, k)]);
    }
  }

  // The step itself: the message is stale, or it is collected without a quorum, or it completes one.

  lemma DvcStays(c: Config, s: State, me: nat, was: Replica, m: Message)
    requires RepOK(c, s, me, was) && m in s.msgs && m.DoViewChange? && c.Leader(m.view) == me
    requires m.view == was.view && !was.normal
    ensures StaysOK(c, s, me, was, was.(dvcVotes := was.dvcVotes[m.view := DvcVotes(was, m)]), {})
  {
    DvcCollects(c, s, me, was, m);
  }

  lemma DvcLeaves(c: Config, s: State, me: nat, was: Replica, m: Message)
    requires RepOK(c, s, me, was) && m in s.msgs && m.DoViewChange? && m.view > was.view
    ensures var r := BeginViewChange(me, was, m.view); LeavesOK(c, s, me, was, r.(dvcVotes := r.dvcVotes[m.view := DvcVotes(was, m)]))
  {
    DvcCollects(c, s, me, was, m);
  }

  /** What HandleDoViewChange makes of a message without a quorum. */
  lemma FewVotesOutcome(c: Config, me: nat, was: Replica, m: Message, junk: nat)
    requires m.DoViewChange? && c.Leader(m.view) == me && WellFormed(was)
    requires Bound(was) <= m.view && |DvcVotes(was, m)| < c.f
    ensures HandleDoViewChange(c, me, was, m, junk) == Ok(Candidate(me, was, m), Announces(me, was, m))
  {
    hide BecomeLeader;
  }

  lemma InvRepOK(c: Config, s: State, me: nat)
    requires Inv(c, s) && me < |s.reps|
    ensures RepOK(c, s, me, s.reps[me])
  {
    hide RepOK, MsgOK, ElectionsOK, HeldOK, VotesOK;
  }

  lemma CollectsNewView(c: Config, s: State, me: nat, was: Replica, m: Message, ballots: map<nat, Vote>)
    requires Inv(c, s) && me < |s.reps| && was == s.reps[me] && m in s.msgs && m.DoViewChange? && m.view > was.view
    ensures Inv(c, Moved(c, s, me, Candidate(me, was, m), Announces(me, was, m), ballots))
  {
    hide Inv, RepOK, LeavesOK, DvcVotes, Moved;
    InvRepOK(c, s, me);
    DvcLeaves(c, s, me, was, m);
    SendsOnlySvc(c, s, me, Candidate(me, was, m), was.committed, ballots);
  }

  lemma CollectsSameView(c: Config, s: State, me: nat, was: Replica, m: Message, ballots: map<nat, Vote>)
    requires Inv(c, s) && me < |s.reps| && was == s.reps[me] && m in s.msgs && m.DoViewChange? && c.Leader(m.view) == me
    requires m.view == was.view && !was.normal
    ensures Inv(c, Moved(c, s, me, Candidate(me, was, m), Announces(me, was, m), ballots))
  {
    hide Inv, RepOK, StaysOK, DvcVotes, Moved;
    InvRepOK(c, s, me);
    DvcStays(c, s, me, was, m);
    Stays(c, s, me, Candidate(me, was, m), {}, ballots);
  }

  /** A message is collected, whether or not it completes a quorum. */
  lemma CollectsOK(c: Config, s: State, me: nat, was: Replica, m: Message, ballots: map<nat, Vote>)
    requires Inv(c, s) && me < |s.reps| && was == s.reps[me] && m in s.msgs && m.DoViewChange? && c.Leader(m.view) == me
    requires Bound(was) <= m.view
    ensures Inv(c, Moved(c, s, me, Candidate(me, was, m), Announces(me, was, m), ballots))
  {
    hide Inv, Candidate, Announces, Moved;
    if m.view > was.view {
      CollectsNewView(c, s, me, was, m, ballots);
    } else {
      CollectsSameView(c, s, me, was, m, ballots);
    }
  }

  lemma FewVotes(c: Config, s: State, me: nat, was: Replica, m: Message, junk: nat, ballots: map<nat, Vote>)
    requires Inv(c, s) && me < |s.reps| && was == s.reps[me] && m in s.msgs && m.DoViewChange? && c.Leader(m.view) == me
    requires Bound(was) <= m.view && |DvcVotes(was, m)| < c.f && WellFormed(was)
    ensures var o := HandleDoViewChange(c, me, was, m, junk); o.Ok? && Inv(c, Moved(c, s, me, o.r, o.out, ballots))
  {
    hide Inv, Candidate, Announces, Moved, HandleDoViewChange, DvcVotes, WellFormed, Config.Leader;
    FewVotesOutcome(c, me, was, m, junk);
    CollectsOK(c, s, me, was, m, ballots);
  }

  lemma VotesOnRecord(c: Config, s: State, me: nat, w: nat, votes: map<nat, Message>)
    requires Collected(s, w, votes) && c.Leader(w) == me
    requires forall m :: m in s.msgs ==> MsgOK(c, s.hist, m)
    ensures me !in votes && forall k :: k in votes ==> (w, k) in s.hist.votes
  {
    forall k | k in votes ensures k != me && (w, k) in s.hist.votes { assert MsgOK(c, s.hist, votes[k]); }
  }

  /** The replica that becomes leader, with the message that completed the quorum collected. */
  function Candidate(me: nat, was: Replica, m: Message): (r: Replica)
    requires m.DoViewChange?
    ensures SameLog(was, r)
  {
    var r1 := if was.normal || m.view > was.view then BeginViewChange(me, was, m.view) else was;
    r1.(dvcVotes := r1.dvcVotes[m.view := DvcVotes(was, m)])
  }

  function Announces(me: nat, was: Replica, m: Message): (out: set<Message>)
    requires m.DoViewChange?
    ensures SvcOnly(out)
  {
    if was.normal || m.view > was.view then {StartViewChange(m.view, me, was.committed)} else {}
  }

  lemma QuorumCompletes(c: Config, me: nat, was: Replica, m: Message, junk: nat)
    requires m.DoViewChange? && Bound(was) <= m.view && c.Leader(m.view) == me && WellFormed(was)
    requires |DvcVotes(was, m)| >= c.f
    ensures DvcVotes(was, m) != map[] && forall k :: k in DvcVotes(was, m) ==> DvcVotes(was, m)[k].DoViewChange?
    ensures var o := HandleDoViewChange(c, me, was, m, junk);
      var b := BecomeLeader(c, Candidate(me, was, m), m, DvcVotes(was, m), junk);
      o.Ok? ==> b.Ok? && o.r == b.r && o.out == Announces(me, was, m) + b.out
  {
    assert m.from in DvcVotes(was, m);
    hide BecomeLeader;
  }

  lemma EnoughVotes(c: Config, s: State, e: Event, me: nat, was: Replica, m: Message, junk: nat)
    requires Inv(c, s) && me < |s.reps| && was == s.reps[me] && m in s.msgs && m.DoViewChange? && c.Leader(m.view) == me
    requires e == Deliver(me, m, junk)
    requires Bound(was) <= m.view && |DvcVotes(was, m)| >= c.f && WellFormed(was)
    requires HandleDoViewChange(c, me, was, m, junk).Ok?
    ensures var o := HandleDoViewChange(c, me, was, m, junk); Inv(c, Moved(c, s, me, o.r, o.out, Ballots(s, e)))
  {
    assert CollectedOK(s, was, me) by { assert RepOK(c, s, me, was); }
    var votes := DvcVotes(was, m);
    DvcCollects(c, s, me, was, m);
    VotesOnRecord(c, s, me, m.view, votes);
    hide Inv, Record, BecomeLeader, HandleDoViewChange, Counted, Ballots, Collected, DvcVotes, CollectedOK;
    QuorumCompletes(c, me, was, m, junk);
    BallotsCounted(c, s, e, me, votes);
    QuorumElects(c, s, me, was, Candidate(me, was, m), m, junk, votes, Ballots(s, e), Announces(me, was, m));
  }

  /** A new leader that cannot install what it has chosen has collected the message, and joined the view if it is new. */
  lemma QuorumStops(c: Config, me: nat, was: Replica, m: Message, junk: nat)
    requires m.DoViewChange? && Bound(was) <= m.view && c.Leader(m.view) == me && WellFormed(was)
    requires |DvcVotes(was, m)| >= c.f && HandleDoViewChange(c, me, was, m, junk).Crash?
    ensures HandleDoViewChange(c, me, was, m, junk) == Crash(Candidate(me, was, m), Announces(me, was, m))
  {
    hide BecomeLeader;
    assert m.from in DvcVotes(was, m);
    CannotLead(c, Candidate(me, was, m), m, DvcVotes(was, m), junk);
  }

  lemma CannotLead(c: Config, r: Replica, m: Message, votes: map<nat, Message>, junk: nat)
    requires m.DoViewChange? && votes != map[] && forall k :: k in votes ==> votes[k].DoViewChange?
    ensures BecomeLeader(c, r, m, votes, junk).Crash? ==> BecomeLeader(c, r, m, votes, junk) == Crash(r, {})
  {
    hide Latest, StartFrom, Installed, Installable, RecordedAll;
  }

  lemma DoViewChangeStepOK(c: Config, s: State, e: Event, me: nat, m: Message, junk: nat)
    requires Inv(c, s) && me < |s.reps| && m in s.msgs && m.DoViewChange? && c.Leader(m.view) == me
    requires e == Deliver(me, m, junk) && WellFormed(s.reps[me])
    ensures var o := HandleDoViewChange(c, me, s.reps[me], m, junk); Inv(c, Moved(c, s, me, o.r, o.out, Ballots(s, e)))
  {
    hide Inv, RepOK, Ballots, Record, Moved, DvcVotes;
    var was := s.reps[me];
    InvRepOK(c, s, me);
    if m.view < was.view || (m.view == was.view && was.normal) {
      Idles(c, s, me, was);
      Stays(c, s, me, was, {}, Ballots(s, e));
    } else if |DvcVotes(was, m)| < c.f {
      FewVotes(c, s, me, was, m, junk, Ballots(s, e));
    } else if HandleDoViewChange(c, me, was, m, junk).Crash? {
      hide HandleDoViewChange;
      QuorumStops(c, me, was, m, junk);
      CollectsOK(c, s, me, was, m, Ballots(s, e));
    } else {
      EnoughVotes(c, s, e, me, was, m, junk);
    }
  }
}
