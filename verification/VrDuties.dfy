/**
 What each handler owes the other replicas (src/replication/vr/replica.cc): whom it answers and with
 what, when it speaks up, and which messages bring a replica down because they should never have
 reached it. Stated of every replica and message, in whatever state.
 */
module VrDuties {
  import opened VrTypes
  import opened VrTable
  import opened VrLog
  import opened VrReplica

  // ---- The normal case ----

  /**
   A follower acknowledges every Prepare of its view that leaves it with the whole batch, whether the batch
   is new or was there before, and only those. One that comes after a gap changes nothing.
   */
  lemma PrepareIsAcknowledged(c: Config, me: nat, r: Replica, m: Message)
    requires m.Prepare? && r.normal && m.view == r.view && HandlePrepare(c, me, r, m).Ok?
    ensures var o := HandlePrepare(c, me, r, m);
      && o.out == (if m.opnum <= o.r.lastOp then {PrepareOK(m.view, m.opnum, me)} else {})
      && o.r.lastOp == (if m.batchStart > r.lastOp + 1 && m.opnum > r.lastOp then r.lastOp else Max(r.lastOp, m.opnum))
      && (o.r.lastOp == r.lastOp ==> o.r == r)
  {
    hide UpdateAll, UpdatableAll, Stamped;
  }

  /** A Prepare whose size is not what its opnums say, and any message of the view that reaches its own sender, stops the replica. */
  lemma MisdirectedStops(c: Config, me: nat, r: Replica, m: Message)
    requires r.normal && m.view == r.view
    ensures m.Prepare? && (c.Leader(m.view) == me || m.batchStart > m.opnum || m.opnum + 1 != m.batchStart + |m.reqs|) ==>
      HandlePrepare(c, me, r, m) == Crash(r, {})
    ensures m.Commit? && c.Leader(m.view) == me ==> HandleCommit(c, me, r, m) == Crash(r, {})
  {
    hide UpdateAll, UpdatableAll, Stamped, RecordedAll;
  }

  /** Messages of other views, and to replicas that change the view, are dropped. */
  lemma OthersDropped(c: Config, me: nat, r: Replica, m: Message)
    requires !r.normal || m.view != r.view
    ensures m.Prepare? ==> HandlePrepare(c, me, r, m) == Ok(r, {})
    ensures m.PrepareOK? ==> HandlePrepareOK(c, me, r, m) == Ok(r, {})
    ensures m.Commit? ==> HandleCommit(c, me, r, m) == Ok(r, {})
  {
    hide UpdateAll, UpdatableAll, Stamped, RecordedAll;
  }

  /**
   A leader counts each follower once. With f of them it has executed up to the opnum, and it tells the
   others when there are exactly f, not before and not again for those that come later.
   */
  lemma AnnouncesExactly(c: Config, me: nat, r: Replica, m: Message)
    requires m.PrepareOK? && r.normal && m.view == r.view && c.Leader(r.view) == me && HandlePrepareOK(c, me, r, m).Ok?
    ensures var o, key := HandlePrepareOK(c, me, r, m), (m.view, m.opnum);
      && key in o.r.okVotes && o.r.okVotes[key] == {m.from} + (if key in r.okVotes then r.okVotes[key] else {})
      && o.r.committed == (if |o.r.okVotes[key]| >= c.f then Max(r.committed, m.opnum) else r.committed)
      && o.out == (if |o.r.okVotes[key]| == c.f then {Commit(r.view, o.r.committed)} else {})
  {
    hide RecordedAll, Requests;
  }

  /** A follower executes up to what it is told, if that is new and its log reaches so far. */
  lemma ExecutesToldExactly(c: Config, me: nat, r: Replica, m: Message)
    requires m.Commit? && r.normal && m.view == r.view && HandleCommit(c, me, r, m).Ok?
    ensures var o := HandleCommit(c, me, r, m);
      o.out == {} && o.r.committed == if m.opnum <= r.lastOp then Max(r.committed, m.opnum) else r.committed
  {
    hide RecordedAll, Requests;
  }

  /** The leader's timer repeats how far it has executed; nobody else's says anything. */
  lemma NullCommitExactly(c: Config, me: nat, r: Replica)
    ensures var o := SendNullCommit(c, me, r);
      o.Ok? && o.r == r && o.out == if r.normal && c.Leader(r.view) == me then {Commit(r.view, r.committed)} else {}
  {
  }

  /** A batch has every entry after the last batch, in order, and the next one begins after it. */
  lemma BatchIsWhole(r: Replica)
    requires CloseBatch(r).Ok?
    ensures r.batchEnd < r.lastOp <= |r.log| && CloseBatch(r).r == r.(batchEnd := r.lastOp)
    ensures exists m :: CloseBatch(r).out == {m} && Carries(m, r)
  {
    var m := Prepare(r.view, r.lastOp, r.batchEnd + 1, Requests(r.log[r.batchEnd..r.lastOp]));
    assert CloseBatch(r).out == {m} && Carries(m, r);
  }

  /** A Prepare of the replica's view with the entries after its last batch. */
  predicate Carries(m: Message, r: Replica) {
    && m.Prepare? && m.view == r.view && m.opnum == r.lastOp && m.batchStart == r.batchEnd + 1
    && r.batchEnd < r.lastOp <= |r.log| && |m.reqs| == r.lastOp - r.batchEnd
    && forall i :: 0 <= i < |m.reqs| ==> r.log[r.batchEnd + i] == Entry(r.view, m.reqs[i])
  }

  /**
   A new request is appended with the next opnum and no other is; the batch is sent as soon as it has
   grown to the size of the configuration.
   */
  lemma AppendsExactly(c: Config, me: nat, r: Replica, req: Request, up: Upcall)
    requires r.batchEnd <= r.lastOp < OPNUMS - 2 && HandleRequest(c, me, r, req, up).Ok?
    ensures var o := HandleRequest(c, me, r, req, up);
      var appends := r.normal && c.Leader(r.view) == me && up.Replicate? && !(req.clientId in r.table && req.reqId <= r.table[req.clientId].lastReqId);
      && (o.r.log == if appends then r.log + [Entry(r.view, Request(req.clientId, req.reqId, up.op))] else r.log)
      && (o.r.lastOp == if appends then r.lastOp + 1 else r.lastOp)
      && (o.out != {} <==> appends && r.lastOp - r.batchEnd >= c.batchSize - 1)
      && o.r.executed == r.executed && o.r.committed == r.committed
  {
    hide Update, Requests;
  }

  /** Acknowledged are the opnums from the old last one on that are in the log and not committed, and no others. */
  lemma AcknowledgesExactly(me: nat, r: Replica, oldLastOp: nat, m: Message)
    requires SendPrepareOKs(me, r, oldLastOp).Ok?
    ensures m in SendPrepareOKs(me, r, oldLastOp).out <==>
      m.PrepareOK? && m.view == r.view && m.from == me && oldLastOp <= m.opnum <= r.lastOp && m.opnum > r.committed && m.opnum >= 1
  {
    hide UpdateAll, UpdatableAll, Requests;
  }

  // ---- View changes ----

  /** A replica whose timer fires goes for the next view, and says so, unless it leads. */
  lemma TimesOutExactly(c: Config, me: nat, r: Replica)
    ensures var o := HandleTimeout(c, me, r);
      if r.normal && c.Leader(r.view) == me then o == Ok(r, {})
      else o == Ok(r.(view := r.view + 1, normal := false), {StartViewChange(r.view + 1, me, r.committed)})
  {
  }

  /** The message is about a later view, or the change to the replica's own. */
  predicate Concerns(r: Replica, m: Message) { m.view > r.view || (m.view == r.view && !r.normal) }

  function Joined(r: Replica, view: nat): Replica { r.(view := view, normal := false) }

  /** What is said on joining. */
  function Aloud(me: nat, r: Replica, view: nat): set<Message> {
    if r.normal || view > r.view then {StartViewChange(view, me, r.committed)} else {}
  }

  lemma VoteOutcome(c: Config, me: nat, r: Replica, m: Message)
    requires m.StartViewChange? && Concerns(r, m)
    ensures var votes := (if m.view in r.svcVotes then r.svcVotes[m.view] else map[])[m.from := m.committed];
      && votes != map[]
      && HandleStartViewChange(c, me, r, m) ==
           Ok(Joined(r, m.view).(svcVotes := r.svcVotes[m.view := votes]),
              Aloud(me, r, m.view) + OfferLog(c, me, Joined(r, m.view), m.view, votes))
  {
    assert SvcVotes(Joined(r, m.view), m) == SvcVotes(r, m);
    hide OfferLog;
  }

  lemma OffersAreOffers(c: Config, me: nat, r: Replica, view: nat, votes: map<nat, nat>)
    requires votes != map[]
    ensures forall x :: x in OfferLog(c, me, r, view, votes) ==> x.DoViewChange?
  {
    hide Least, Dump;
  }

  /** A replica joins a view change once, and says so then; it keeps the vote. */
  lemma JoinsAloud(c: Config, me: nat, r: Replica, m: Message)
    requires m.StartViewChange?
    ensures !Concerns(r, m) ==> HandleStartViewChange(c, me, r, m) == Ok(r, {})
    ensures Concerns(r, m) ==>
      var o := HandleStartViewChange(c, me, r, m);
      && o.Ok? && o.r == r.(view := m.view, normal := false, svcVotes := o.r.svcVotes)
      && m.view in o.r.svcVotes && o.r.svcVotes == r.svcVotes[m.view := o.r.svcVotes[m.view]]
      && o.r.svcVotes[m.view] == (if m.view in r.svcVotes then r.svcVotes[m.view] else map[])[m.from := m.committed]
      && forall x :: x in o.out && x.StartViewChange? <==> x == StartViewChange(m.view, me, r.committed) && (r.normal || m.view > r.view)
  {
    hide OfferLog;
    if Concerns(r, m) {
      hide HandleStartViewChange;
      VoteOutcome(c, me, r, m);
      var votes := (if m.view in r.svcVotes then r.svcVotes[m.view] else map[])[m.from := m.committed];
      OffersAreOffers(c, me, Joined(r, m.view), m.view, votes);
    }
  }

  /** The log as it is offered: from the least of the reported and the own committed opnums on. */
  ghost predicate OfferedFrom(log: Log, committed: nat, votes: map<nat, nat>, s: Suffix) {
    exists n: nat ::
      && n <= committed && (forall k :: k in votes ==> n <= votes[k]) && (n == committed || exists k :: k in votes && votes[k] == n)
      && s.first == Max(n, 1) && s.entries == if s.first <= |log| then log[s.first - 1..] else []
  }

  /** What a replica offers to the leader of `view`. */
  ghost predicate IsOffer(me: nat, r: Replica, view: nat, votes: map<nat, nat>, d: Message) {
    && d.DoViewChange?
    && d == DoViewChange(view, if r.log == [] then 0 else r.log[|r.log| - 1].view, r.lastOp, r.committed, me, d.suffix)
    && OfferedFrom(r.log, r.committed, votes, d.suffix)
  }

  lemma OfferLogIs(c: Config, me: nat, r: Replica, view: nat, votes: map<nat, nat>)
    requires votes != map[]
    ensures if |votes| >= c.f && c.Leader(view) != me then exists d :: OfferLog(c, me, r, view, votes) == {d} && IsOffer(me, r, view, votes, d)
            else OfferLog(c, me, r, view, votes) == {}
  {
    hide Least, Dump;
    LeastVote(r.committed, votes);
    DumpIs(r.log, Min(Least(votes), r.committed));
    if |votes| >= c.f && c.Leader(view) != me {
      var d := DoViewChange(view, LastView(r.log), r.lastOp, r.committed, me, Dump(r.log, Min(Least(votes), r.committed)));
      assert OfferLog(c, me, r, view, votes) == {d} && IsOffer(me, r, view, votes, d);
    }
  }

  /** The offer does not depend on the view the replica was in, nor on its status. */
  lemma SameOffer(me: nat, r: Replica, view: nat, votes: map<nat, nat>, d: Message)
    requires IsOffer(me, Joined(r, view), view, votes, d)
    ensures d.DoViewChange? && IsOffer(me, r, view, votes, d)
  {
  }

  lemma JoinedOffers(c: Config, me: nat, r: Replica, view: nat, votes: map<nat, nat>)
    requires votes != map[]
    ensures var offers := OfferLog(c, me, Joined(r, view), view, votes);
      && (offers != {} <==> |votes| >= c.f && c.Leader(view) != me)
      && forall d :: d in offers ==> d.DoViewChange? && IsOffer(me, r, view, votes, d)
  {
    hide OfferLog, IsOffer;
    OfferLogIs(c, me, Joined(r, view), view, votes);
    if |votes| >= c.f && c.Leader(view) != me {
      var d :| OfferLog(c, me, Joined(r, view), view, votes) == {d} && IsOffer(me, Joined(r, view), view, votes, d);
      SameOffer(me, r, view, votes, d);
    }
  }

  /** With f votes or more for a view change, the replica offers its log to the new leader, unless it is that itself. */
  lemma OffersExactly(c: Config, me: nat, r: Replica, m: Message)
    requires m.StartViewChange? && Concerns(r, m)
    ensures var o := HandleStartViewChange(c, me, r, m);
      && m.view in o.r.svcVotes
      && ((exists d :: d in o.out && d.DoViewChange?) <==> |o.r.svcVotes[m.view]| >= c.f && c.Leader(m.view) != me)
      && forall d :: d in o.out && d.DoViewChange? ==> IsOffer(me, r, m.view, o.r.svcVotes[m.view], d)
  {
    hide OfferLog, IsOffer, HandleStartViewChange, Concerns;
    VoteOutcome(c, me, r, m);
    var votes := (if m.view in r.svcVotes then r.svcVotes[m.view] else map[])[m.from := m.committed];
    JoinedOffers(c, me, r, m.view, votes);
    var offers := OfferLog(c, me, Joined(r, m.view), m.view, votes);
    if offers != {} { var d :| d in offers; }
  }

  lemma DumpIs(log: Log, n: nat)
    ensures var s := Dump(log, n); s.first == Max(n, 1) && s.entries == if s.first <= |log| then log[s.first - 1..] else []
  {
  }

  lemma LeastVote(committed: nat, votes: map<nat, nat>)
    requires votes != map[]
    ensures var n := Min(Least(votes), committed);
      && n <= committed && (forall k :: k in votes ==> n <= votes[k]) && (n == committed || exists k :: k in votes && votes[k] == n)
  {
    forall k | k in votes ensures Least(votes) <= votes[k] { assert votes[k] in votes.Values; }
    var k :| k in votes && votes[k] == Least(votes);
  }

  /** Whoever is sent a log but does not lead the view, and whoever leads it and is sent a StartView, stops. */
  lemma WrongEndStops(c: Config, me: nat, r: Replica, m: Message, junk: nat)
    requires Concerns(r, m)
    requires m.DoViewChange? && m.view in r.dvcVotes ==> forall k :: k in r.dvcVotes[m.view] ==> r.dvcVotes[m.view][k].DoViewChange?
    ensures m.DoViewChange? && c.Leader(m.view) != me ==>
      HandleDoViewChange(c, me, r, m, junk) ==
        Crash(r.(view := m.view, normal := false),
              if r.normal || m.view > r.view then {StartViewChange(m.view, me, r.committed)} else {})
    ensures m.StartView? && c.Leader(m.view) == me ==> HandleStartView(c, me, r, m) == Crash(r, {})
  {
    hide BecomeLeader, SendPrepareOKs, Enters;
  }

  /** A new leader that chooses a log without entries asserts that it has committed what the last message says, and that this is all of it. */
  lemma EmptyChoiceStops(c: Config, r: Replica, m: Message, votes: map<nat, Message>, junk: nat, best: Message)
    requires m.DoViewChange? && votes != map[] && forall k :: k in votes ==> votes[k].DoViewChange?
    requires Latest(votes, c.N(), r.log) == Theirs(best) && best.suffix.entries == []
    ensures BecomeLeader(c, r, m, votes, junk).Crash? <==>
      r.committed != m.committed || m.lastOp != m.committed || (r.committed < best.committed && |r.log| < best.committed)
  {
    hide Latest, Least, CommittedIn, RecordedAll, Requests, Dump;
  }

  /** Somebody has said that so much is committed, in the change to `view`; `junk` stands for the StartViewChanges if there are none. */
  ghost predicate Said(r: Replica, view: nat, votes: map<nat, Message>, junk: nat, n: nat)
    requires forall k :: k in votes ==> votes[k].DoViewChange?
  {
    || n == r.committed
    || (exists k :: k in votes && votes[k].committed == n)
    || if view in r.svcVotes && r.svcVotes[view] != map[] then exists k :: k in r.svcVotes[view] && r.svcVotes[view][k] == n else n == junk
  }

  /** What a leader sends of its log: all from the least opnum on that anybody has said is committed. */
  ghost predicate StartsLog(r: Replica, view: nat, votes: map<nat, Message>, junk: nat, log: Log, s: Suffix)
    requires forall k :: k in votes ==> votes[k].DoViewChange?
  {
    exists n: nat ::
      && Said(r, view, votes, junk, n) && (forall k: nat :: k < n ==> !Said(r, view, votes, junk, k))
      && s.first == Max(n, 1) && s.entries == if s.first <= |log| then log[s.first - 1..] else []
  }

  lemma LeastIn(votes: map<nat, nat>)
    requires votes != map[]
    ensures (forall k :: k in votes ==> Least(votes) <= votes[k]) && exists k :: k in votes && votes[k] == Least(votes)
  {
    forall k | k in votes ensures Least(votes) <= votes[k] { assert votes[k] in votes.Values; }
    var k :| k in votes && votes[k] == Least(votes);
  }

  lemma StartFromLeast(r: Replica, view: nat, votes: map<nat, Message>, junk: nat)
    requires votes != map[] && forall k :: k in votes ==> votes[k].DoViewChange?
    ensures var n := StartFrom(r, view, votes, junk);
      Said(r, view, votes, junk, n) && forall k: nat :: k < n ==> !Said(r, view, votes, junk, k)
  {
    hide Least;
    var committed := CommittedIn(votes);
    LeastIn(committed);
    var k :| k in committed && committed[k] == Least(committed);
    assert votes[k].committed == Least(committed);
    assert forall k :: k in votes ==> votes[k].committed == committed[k];
    if view in r.svcVotes && r.svcVotes[view] != map[] { LeastIn(r.svcVotes[view]); }
  }

  /** How far whoever has the chosen log has committed. */
  function UpTo(best: Choice): nat { if best.Theirs? && best.m.DoViewChange? then best.m.committed else 0 }

  /** `o` is what becomes of `r` when it leads the view, with what `upto` says executed and the others told so. */
  ghost predicate Leads(r: Replica, view: nat, upto: nat, from: nat, o: Outcome) {
    && o.r.view == view && o.r.normal && o.r.okVotes == map[] && o.r.svcVotes == map[] && o.r.dvcVotes == map[]
    && o.r.committed == Max(r.committed, upto)
    && o.out == {StartView(view, o.r.lastOp, o.r.committed, Dump(o.r.log, from))}
  }

  lemma LeadWithLeads(c: Config, r: Replica, view: nat, log: Log, latestOp: nat, upto: nat, from: nat)
    ensures var o := LeadWith(c, r, view, log, latestOp, upto, from); o.Ok? ==> Leads(r, view, upto, from, o)
  {
    hide RecordedAll, Requests, Dump;
  }

  lemma BecomesByLeading(c: Config, r: Replica, m: Message, votes: map<nat, Message>, junk: nat)
    requires m.DoViewChange? && votes != map[] && forall k :: k in votes ==> votes[k].DoViewChange?
    ensures var o := BecomeLeader(c, r, m, votes, junk);
      o.Ok? ==> Leads(r, m.view, UpTo(Latest(votes, c.N(), r.log)), StartFrom(r, m.view, votes, junk), o)
  {
    hide Latest, StartFrom, LeadWith, Leads, Installable, Install;
    var from := StartFrom(r, m.view, votes, junk);
    match Latest(votes, c.N(), r.log)
    case Own =>
      LeadWithLeads(c, r, m.view, r.log, |r.log|, 0, from);
    case Theirs(b) =>
      if Installable(r, b.lastOp, b.suffix) {
        LeadWithLeads(c, r, m.view, Installed(r, b.lastOp, b.suffix), b.lastOp, b.committed, from);
      }
  }

  /**
   A replica that becomes leader is in the view, with nothing counted yet; it has executed what it or the
   sender of its log had, and tells that to the others, with its log from the least reported opnum on.
   */
  lemma LeadsExactly(c: Config, r: Replica, m: Message, votes: map<nat, Message>, junk: nat)
    requires m.DoViewChange? && votes != map[] && forall k :: k in votes ==> votes[k].DoViewChange?
    requires BecomeLeader(c, r, m, votes, junk).Ok?
    ensures var o := BecomeLeader(c, r, m, votes, junk);
      && o.r.view == m.view && o.r.normal && o.r.okVotes == map[] && o.r.svcVotes == map[] && o.r.dvcVotes == map[]
      && o.r.committed == Max(r.committed, UpTo(Latest(votes, c.N(), r.log)))
      && exists s :: StartsLog(r, m.view, votes, junk, o.r.log, s) && o.out == {StartView(m.view, o.r.lastOp, o.r.committed, s)}
  {
    StartFromLeast(r, m.view, votes, junk);
    var o, from := BecomeLeader(c, r, m, votes, junk), StartFrom(r, m.view, votes, junk);
    hide BecomeLeader, StartFrom, Said, Latest;
    BecomesByLeading(c, r, m, votes, junk);
    var s := Dump(o.r.log, from);
    assert StartsLog(r, m.view, votes, junk, o.r.log, s) by { DumpIs(o.r.log, from); }
    assert o.out == {StartView(m.view, o.r.lastOp, o.r.committed, s)};
  }

  /** The same of a follower; and it must have what the leader has committed. */
  lemma EmptyStartStops(c: Config, me: nat, r: Replica, m: Message)
    requires m.StartView? && Concerns(r, m) && c.Leader(m.view) != me && m.suffix.entries == []
    requires r.committed != m.committed || m.lastOp != m.committed
    ensures HandleStartView(c, me, r, m) == Crash(r, {})
  {
    hide SendPrepareOKs, Entering;
  }
}
