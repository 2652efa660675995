/**
 One replica of the group: its state and what each handler does to it
 (src/replication/vr/replica.cc). A failed assertion or a Panic is `Crash`.
 `VrServer` runs the same handlers with the loops and containers of the C++ code.
 */
module VrReplica {
  import opened VrTypes
  import opened VrLog
  import opened VrTable

  /** Arithmetic on opnums is modulo 2^64. */
  const OPNUMS: nat := 0x1_0000_0000_0000_0000

  datatype Replica = Replica(
    view: nat,
    normal: bool,                               // STATUS_NORMAL, otherwise STATUS_VIEW_CHANGE
    log: Log,
    lastOp: nat,
    committed: nat,
    batchEnd: nat,
    executed: seq<Request>,                     // what the application has been given, in order
    table: Table,                               // clientTable
    okVotes: map<(nat, nat), set<nat>>,         // prepareOKQuorum, by (view, opnum)
    svcVotes: map<nat, map<nat, nat>>,          // startViewChangeQuorum: lastcommitted by view and sender
    dvcVotes: map<nat, map<nat, Message>>)      // doViewChangeQuorum, by view and sender

  /** A crash leaves the replica, as far as anybody else can tell, as it was when it last sent a message. */
  datatype Outcome = Ok(r: Replica, out: set<Message>) | Crash(r: Replica, out: set<Message>)

  const FRESH := Replica(0, true, [], 0, 0, 0, [], map[], map[], map[], map[])

  /** CommitUpTo: executes entries in log order until `upto` is committed, and keeps the replies. */
  function CommitUpTo(c: Config, r: Replica, upto: nat): (r': Replica)
    requires r.committed < upto ==> upto <= |r.log|
    ensures r'.committed == Max(r.committed, upto)
    ensures r' == r.(committed := r'.committed, executed := r'.executed, table := r'.table)
  {
    if upto <= r.committed then r
    else r.(committed := upto, executed := r.executed + Requests(r.log[r.committed..upto]),
            table := RecordedAll(r.table, r.log, r.committed, upto, c.app))
  }

  /** CloseBatch: sends the entries after the last batch; asserts that they all carry the current view. */
  function CloseBatch(r: Replica): Outcome {
    if r.batchEnd < r.lastOp <= |r.log| && forall i :: r.batchEnd <= i < r.lastOp ==> r.log[i].view == r.view then
      Ok(r.(batchEnd := r.lastOp),
         {Prepare(r.view, r.lastOp, r.batchEnd + 1, Requests(r.log[r.batchEnd..r.lastOp]))})
    else
      Crash(r, {})
  }

  /** HandleRequest; `up` is what the leader's application makes of the request, if it is asked. */
  function HandleRequest(c: Config, me: nat, r: Replica, req: Request, up: Upcall): Outcome {
    if !r.normal || c.Leader(r.view) != me || Old(r.table, req) then Ok(r, {})
    else
      match up
      case Answer(result) => Ok(r.(table := Answered(r.table, req, result)), {})
      case Replicate(op) =>
        if r.lastOp != |r.log| then Crash(r, {})            // Log::Append asserts the next opnum
        else
          var r1 := Appended(r, req, op);
          if (r1.lastOp - r1.batchEnd + 1) % OPNUMS > c.batchSize then
            var o := CloseBatch(r1);
            if o.Ok? then o else Crash(r, {})
          else
            Ok(r1, {})
  }

  /** The leader with one more operation in its log. */
  function Appended(r: Replica, req: Request, op: string): Replica {
    r.(lastOp := r.lastOp + 1, log := r.log + [Entry(r.view, req.(op := op))], table := Update(r.table, req))
  }

  function HandlePrepare(c: Config, me: nat, r: Replica, m: Message): Outcome
    requires m.Prepare?
  {
    if !r.normal || m.view != r.view then Ok(r, {})  // stale, or asks for a state transfer
    else if c.Leader(r.view) == me then Crash(r, {})
    else if !(m.batchStart <= m.opnum && m.opnum - m.batchStart + 1 == |m.reqs|) then Crash(r, {})
    else if m.opnum <= r.lastOp then Ok(r, {PrepareOK(m.view, m.opnum, me)})
    else if m.batchStart > r.lastOp + 1 then Ok(r, {})
    else if r.lastOp != |r.log| then Crash(r, {})
    else
      var added := m.reqs[r.lastOp + 1 - m.batchStart..];
      if !UpdatableAll(r.table, added) then Crash(r, {})
      else
        Ok(r.(log := r.log + Stamped(m.view, added), lastOp := m.opnum, table := UpdateAll(r.table, added)),
           {PrepareOK(m.view, m.opnum, me)})
  }

  /** The followers that have acknowledged what `m` acknowledges. */
  function Acks(r: Replica, m: Message): set<nat>
    requires m.PrepareOK?
  {
    (if (m.view, m.opnum) in r.okVotes then r.okVotes[(m.view, m.opnum)] else {}) + {m.from}
  }

  function HandlePrepareOK(c: Config, me: nat, r: Replica, m: Message): Outcome
    requires m.PrepareOK?
  {
    if !r.normal || m.view != r.view || c.Leader(r.view) != me then Ok(r, {})
    else
      var votes := Acks(r, m);
      var r1 := r.(okVotes := r.okVotes[(m.view, m.opnum) := votes]);
      if |votes| < c.f then Ok(r1, {})
      else if r.committed < m.opnum && |r.log| < m.opnum then Crash(r, {})
      else
        var r2 := CommitUpTo(c, r1, m.opnum);
        Ok(r2, if |votes| >= c.f + 1 then {} else {Commit(r2.view, r2.committed)})
  }

  function HandleCommit(c: Config, me: nat, r: Replica, m: Message): Outcome
    requires m.Commit?
  {
    if !r.normal || m.view != r.view then Ok(r, {})
    else if c.Leader(r.view) == me then Crash(r, {})
    else if m.opnum <= r.committed || m.opnum > r.lastOp then Ok(r, {})
    else if m.opnum > |r.log| then Crash(r, {})
    else Ok(CommitUpTo(c, r, m.opnum), {})
  }

  /** SendNullCommit, when the leader's timer fires. */
  function SendNullCommit(c: Config, me: nat, r: Replica): Outcome {
    if r.normal && c.Leader(r.view) == me then Ok(r, {Commit(r.view, r.committed)}) else Ok(r, {})
  }

  function BeginViewChange(me: nat, r: Replica, view: nat): (r': Replica) {
    r.(view := view, normal := false)
  }

  /** The view-change timer runs on every replica but a leader in normal status. */
  function HandleTimeout(c: Config, me: nat, r: Replica): Outcome {
    if r.normal && c.Leader(r.view) == me then Ok(r, {})
    else
      var r1 := BeginViewChange(me, r, r.view + 1);
      Ok(r1, {StartViewChange(r1.view, me, r1.committed)})
  }

  /** Whether a replica takes part in the change to `view`, or ignores messages about it. */
  predicate Heeds(r: Replica, view: nat) { view > r.view || (view == r.view && !r.normal) }

  function SvcVotes(r: Replica, m: Message): (votes: map<nat, nat>)
    requires m.StartViewChange?
    ensures m.from in votes
  {
    (if m.view in r.svcVotes then r.svcVotes[m.view] else map[])[m.from := m.committed]
  }

  /** With enough StartViewChange messages, everybody but the new leader offers it a log. */
  ghost function OfferLog(c: Config, me: nat, r: Replica, view: nat, votes: map<nat, nat>): set<Message>
    requires votes != map[]
  {
    if |votes| >= c.f && c.Leader(view) != me then
      {DoViewChange(view, LastView(r.log), r.lastOp, r.committed, me, Dump(r.log, Min(Least(votes), r.committed)))}
    else
      {}
  }

  ghost function HandleStartViewChange(c: Config, me: nat, r: Replica, m: Message): Outcome
    requires m.StartViewChange?
  {
    if !Heeds(r, m.view) then Ok(r, {})
    else
      var begins := r.normal || m.view > r.view;
      var r1 := if begins then BeginViewChange(me, r, m.view) else r;
      var out := if begins then {StartViewChange(m.view, me, r.committed)} else {};
      var votes := SvcVotes(r1, m);
      Ok(r1.(svcVotes := r1.svcVotes[m.view := votes]), out + OfferLog(c, me, r1, m.view, votes))
  }

  /** Compares viewstamps the way the new leader does: by view, then by opnum. */
  predicate Newer(view: nat, op: nat, view': nat, op': nat) {
    view > view' || (view == view' && op > op')
  }

  datatype Choice = Own | Theirs(m: Message)

  /** The log to install: `Own`, unless some message in `votes` from a replica below `k` is newer. */
  function Latest(votes: map<nat, Message>, k: nat, own: Log): (best: Choice)
    ensures best.Theirs? ==> best.m in votes.Values
    ensures best.Theirs? && best.m.DoViewChange? ==> Newer(best.m.lastNormal, best.m.lastOp, LastView(own), |own|)
  {
    if k == 0 then Own
    else
      var best := Latest(votes, k - 1, own);
      if k - 1 in votes && votes[k - 1].DoViewChange? &&
         match best {
           case Own => Newer(votes[k - 1].lastNormal, votes[k - 1].lastOp, LastView(own), |own|)
           case Theirs(m) => m.DoViewChange? && Newer(votes[k - 1].lastNormal, votes[k - 1].lastOp, m.lastNormal, m.lastOp)
         }
      then Theirs(votes[k - 1]) else best
  }

  function DvcVotes(r: Replica, m: Message): map<nat, Message>
    requires m.DoViewChange?
  {
    (if m.view in r.dvcVotes then r.dvcVotes[m.view] else map[])[m.from := m]
  }

  /** EnterView: `lastBatchEnd` takes the value `lastOp` has before the callers assign it. */
  function EnterView(r: Replica, view: nat): Replica {
    r.(view := view, normal := true, batchEnd := r.lastOp, okVotes := map[], svcVotes := map[], dvcVotes := map[])
  }

  /** A received suffix can be installed: it must not start after the first uncommitted opnum. */
  predicate Installable(r: Replica, lastOp: nat, s: Suffix) {
    s.entries != [] ==> s.first <= r.committed + 1 && 1 <= s.first <= |RemoveAfter(r.log, lastOp + 1)| + 1
  }

  /** RemoveAfter and Install, unless there is nothing to install. */
  function Installed(r: Replica, lastOp: nat, s: Suffix): Log
    requires Installable(r, lastOp, s)
  {
    if s.entries == [] then r.log else Install(RemoveAfter(r.log, lastOp + 1), s)
  }

  /** The last committed opnum that each collected message reports. */
  function CommittedIn(votes: map<nat, Message>): (committed: map<nat, nat>)
    requires forall k :: k in votes ==> votes[k].StartViewChange? || votes[k].DoViewChange?
    ensures committed.Keys == votes.Keys
  {
    map k | k in votes :: votes[k].committed
  }

  /** Where the entries of the StartView message begin. */
  ghost function StartFrom(r: Replica, view: nat, votes: map<nat, Message>, junk: nat): nat
    requires votes != map[] && forall k :: k in votes ==> votes[k].DoViewChange?
  {
    var fromSvc := if view in r.svcVotes && r.svcVotes[view] != map[] then Least(r.svcVotes[view]) else junk;
    Min(Min(fromSvc, Least(CommittedIn(votes))), r.committed)
  }

  /** The leader of `view` starts it with `log`, of which `latestOp` and `upto` are the last and the last committed opnum. */
  function LeadWith(c: Config, r: Replica, view: nat, log: Log, latestOp: nat, upto: nat, from: nat): Outcome {
    var r1 := EnterView(r.(log := log), view).(lastOp := latestOp);
    if r1.committed < upto && |log| < upto then Crash(r, {})
    else
      var r2 := CommitUpTo(c, r1, upto);
      Ok(r2, {StartView(view, latestOp, r2.committed, Dump(log, from))})
  }

  /**
   The new leader installs the chosen log and enters the view. `junk` stands for what
   the C++ code reads when it has collected no StartViewChange message for the view.
   */
  ghost function BecomeLeader(c: Config, r: Replica, m: Message, votes: map<nat, Message>, junk: nat): Outcome
    requires m.DoViewChange? && votes != map[]
    requires forall k :: k in votes ==> votes[k].DoViewChange?
  {
    var from := StartFrom(r, m.view, votes, junk);
    match Latest(votes, c.N(), r.log)
    case Own => LeadWith(c, r, m.view, r.log, |r.log|, 0, from)
    case Theirs(b) =>
      if b.suffix.entries == [] && !(r.committed == m.committed && m.lastOp == m.committed) then Crash(r, {})
      else if !Installable(r, b.lastOp, b.suffix) then Crash(r, {})
      else LeadWith(c, r, m.view, Installed(r, b.lastOp, b.suffix), b.lastOp, b.committed, from)
  }

  ghost function HandleDoViewChange(c: Config, me: nat, r: Replica, m: Message, junk: nat): Outcome
    requires m.DoViewChange?
    requires m.view in r.dvcVotes ==> forall k :: k in r.dvcVotes[m.view] ==> r.dvcVotes[m.view][k].DoViewChange?
  {
    if !Heeds(r, m.view) then Ok(r, {})
    else
      var begins := r.normal || m.view > r.view;
      var r1 := if begins then BeginViewChange(me, r, m.view) else r;
      var out := if begins then {StartViewChange(m.view, me, r.committed)} else {};
      if c.Leader(m.view) != me then Crash(r1, out)
      else
        var votes := DvcVotes(r1, m);
        var r2 := r1.(dvcVotes := r1.dvcVotes[m.view := votes]);
        if |votes| < c.f then Ok(r2, out)
        else
          var o := BecomeLeader(c, r2, m, votes, junk);
          o.(out := out + o.out)
  }

  /** The first opnum that SendPrepareOKs acknowledges: from the old last one on, what is not committed. */
  function FirstNew(r: Replica, oldLastOp: nat): (first: nat)
    ensures first >= 1
  {
    Max(oldLastOp, r.committed + 1)
  }

  /** The acknowledgements of these opnums, below `end`. */
  function PrepareOKs(me: nat, r: Replica, oldLastOp: nat, end: nat): set<Message> {
    set i | FirstNew(r, oldLastOp) <= i < end :: PrepareOK(r.view, i, me)
  }

  /** Their requests, as far as the log has them, for the client table. */
  function Unacknowledged(r: Replica, oldLastOp: nat): seq<Request> {
    var from, to := FirstNew(r, oldLastOp) - 1, Min(r.lastOp, |r.log|);
    if from <= to then Requests(r.log[from..to]) else []
  }

  /**
   SendPrepareOKs enters the requests into the client table and acknowledges them one at a time. It
   stops at an entry that is missing, or at a request that is older than what the table knows.
   */
  function SendPrepareOKs(me: nat, r: Replica, oldLastOp: nat): Outcome {
    var reqs := Unacknowledged(r, oldLastOp);
    var n := Accepted(r.table, reqs);
    var r1, end := r.(table := UpdateAll(r.table, reqs[..n])), FirstNew(r, oldLastOp) + n;
    if end <= r.lastOp then Crash(r1, PrepareOKs(me, r, oldLastOp, end)) else Ok(r1, PrepareOKs(me, r, oldLastOp, end))
  }

  /** The new view and its log, with what the leader has committed executed. */
  function Entering(c: Config, r: Replica, m: Message): Replica
    requires m.StartView? && Enters(c, r, m)
  {
    CommitUpTo(c, EnterView(r.(log := Installed(r, m.lastOp, m.suffix)), m.view).(lastOp := m.lastOp), m.committed)
  }

  /** A received log that can be installed, and has what the leader has committed. */
  predicate Enters(c: Config, r: Replica, m: Message)
    requires m.StartView?
  {
    && (m.suffix.entries == [] ==> m.committed == r.committed && m.lastOp == m.committed)
    && Installable(r, m.lastOp, m.suffix)
    && (r.committed < m.committed ==> m.committed <= |Installed(r, m.lastOp, m.suffix)|)
  }

  function HandleStartView(c: Config, me: nat, r: Replica, m: Message): Outcome
    requires m.StartView?
  {
    if !Heeds(r, m.view) then Ok(r, {})
    else if c.Leader(m.view) == me then Crash(r, {})
    else if !Enters(c, r, m) then Crash(r, {})
    else SendPrepareOKs(me, Entering(c, r, m), r.lastOp)
  }
}
