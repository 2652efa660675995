/**
 Runs of the whole group. Messages are never taken out of the network, so loss,
 duplication and reordering are all runs. `History` records, beside the protocol,
 what the proofs speak about; no handler reads it.
 */
module VrProtocol {
  import opened VrTypes
  import opened VrLog
  import opened VrTable
  import opened VrReplica

  /** What a replica offers when it joins a view change. */
  datatype Vote = Vote(log: Log, lastOp: nat, committed: nat)

  /**
   A view whose leader has entered it: the log it started from, the opnum it
   reported, its log so far, and the votes it chose among.
   */
  datatype Election = Election(base: Log, op: nat, cur: Log, votes: map<nat, Vote>)

  datatype History = History(
    elections: map<nat, Election>,
    held: map<(nat, nat), nat>,       // (view, replica): how much of the view's log the replica has held in it
    votes: map<(nat, nat), Vote>)     // (view, replica): the vote of a replica for that view

  datatype State = State(reps: seq<Replica>, msgs: set<Message>, hist: History)

  datatype Event =
    | ClientRequest(r: nat, req: Request, up: Upcall)
    | BatchTimer(r: nat)
    | NullCommitTimer(r: nat)
    | ViewChangeTimer(r: nat)
    | Deliver(r: nat, m: Message, junk: nat)

  ghost function Init(c: Config): State {
    State(seq(c.N(), _ => FRESH), {}, History(map[0 := Election([], 0, [], map[])], map[], map[]))
  }

  /** Who receives a message: one replica, or everybody but the sender. */
  predicate Addressed(c: Config, m: Message, r: nat) {
    match m
    case PrepareOK(view, _, _) => r == c.Leader(view)
    case DoViewChange(view, _, _, _, _, _) => r == c.Leader(view)
    case StartViewChange(_, from, _) => r != from
    case Prepare(view, _, _, _) => r != c.Leader(view)
    case Commit(view, _) => r != c.Leader(view)
    case StartView(view, _, _, _) => r != c.Leader(view)
  }

  predicate WellFormed(r: Replica) {
    forall v :: v in r.dvcVotes ==> forall k :: k in r.dvcVotes[v] ==> r.dvcVotes[v][k].DoViewChange?
  }

  /** TransportReceive: dispatch on the type of the message. */
  ghost function Receive(c: Config, me: nat, r: Replica, m: Message, junk: nat): Outcome
    requires WellFormed(r)
  {
    match m
    case Prepare(_, _, _, _) => HandlePrepare(c, me, r, m)
    case PrepareOK(_, _, _) => HandlePrepareOK(c, me, r, m)
    case Commit(_, _) => HandleCommit(c, me, r, m)
    case StartViewChange(_, _, _) => HandleStartViewChange(c, me, r, m)
    case DoViewChange(_, _, _, _, _, _) => HandleDoViewChange(c, me, r, m, junk)
    case StartView(_, _, _, _) => HandleStartView(c, me, r, m)
  }

  ghost function Handle(c: Config, s: State, e: Event): Outcome {
    if e.r >= |s.reps| then Ok(FRESH, {})              // there is no such replica
    else if !WellFormed(s.reps[e.r]) then Crash(s.reps[e.r], {})
    else
      var r := s.reps[e.r];
      match e
      case ClientRequest(me, req, up) => HandleRequest(c, me, r, req, up)
      case BatchTimer(me) => if r.normal && c.Leader(r.view) == me then CloseBatch(r) else Ok(r, {})
      case NullCommitTimer(me) => SendNullCommit(c, me, r)
      case ViewChangeTimer(me) => HandleTimeout(c, me, r)
      case Deliver(me, m, junk) =>
        if m in s.msgs && Addressed(c, m, me) then Receive(c, me, r, m, junk) else Ok(r, {})
  }

  /** The votes in front of a replica that handles `e`: the messages it has collected, and its own log. */
  ghost function Ballots(s: State, e: Event): map<nat, Vote>
    requires e.r < |s.reps|
  {
    var r := s.reps[e.r];
    if e.Deliver? && e.m.DoViewChange? then
      var collected := DvcVotes(r, e.m);
      (map k | k in collected && (e.m.view, k) in s.hist.votes :: s.hist.votes[(e.m.view, k)])
        [e.r := Vote(r.log, |r.log|, r.committed)]
    else
      map[]
  }

  function Record(c: Config, h: History, me: nat, r: Replica, ballots: map<nat, Vote>): History {
    if !r.normal then
      h.(votes := h.votes[(r.view, me) := Vote(r.log, r.lastOp, r.committed)])
    else
      var h1 := h.(held := h.held[(r.view, me) := r.lastOp]);
      if c.Leader(r.view) != me then h1
      else if r.view in h.elections then
        h1.(elections := h.elections[r.view := h.elections[r.view].(cur := r.log)])
      else
        h1.(elections := h.elections[r.view := Election(r.log, r.lastOp, r.log, ballots)])
  }

  /**
   One event. A handler that fails an assertion stops its replica, after the messages it has sent
   by then; and a stopped replica is a replica to which nothing is delivered any more.
   */
  ghost function Apply(c: Config, s: State, e: Event): State {
    if e.r >= |s.reps| then s
    else
      var o := Handle(c, s, e);
      State(s.reps[e.r := o.r], s.msgs + o.out, Record(c, s.hist, e.r, o.r, Ballots(s, e)))
  }

  ghost function Run(c: Config, events: seq<Event>): State {
    if events == [] then Init(c)
    else Apply(c, Run(c, events[..|events| - 1]), events[|events| - 1])
  }

  /**
   A leader that acts on acknowledgements commits only up to an entry stamped with its own view.
   The C++ code does not check this; `VrLostCommit` shows what happens without it.
   */
  ghost predicate CarefulStep(c: Config, s: State, e: Event) {
    var o := Handle(c, s, e);
    e.Deliver? && e.m.PrepareOK? && o.Ok? && e.r < |s.reps| ==>
      var r := s.reps[e.r];
      r.committed < o.r.committed <= |r.log| ==> r.log[o.r.committed - 1].view == r.view
  }

  ghost predicate Careful(c: Config, events: seq<Event>) {
    forall i :: 0 <= i < |events| ==> CarefulStep(c, Run(c, events[..i]), events[i])
  }
}
