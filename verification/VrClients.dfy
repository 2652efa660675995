/**
 What the client table is for (src/replication/vr/replica.cc:141-192, 323-337, 467-558): it
 keeps duplicates and resends from getting a second slot of the log in one view, and answers
 them with the reply to the request itself. Stated of a leader that keeps its view, as values,
 and of the leaders in runs of the group.
 */
module VrClients {
  import opened VrTypes
  import opened VrTable
  import opened VrReplica
  import VrProtocol
  import VrHistory

  /** What a leader's dealings with clients depend on. */
  datatype Front = Front(view: nat, log: Log, committed: nat, table: Table)

  function FrontOf(r: Replica): Front { Front(r.view, r.log, r.committed, r.table) }

  function Submit(s: Front, req: Request, up: Upcall): Front {
    if Old(s.table, req) then s
    else
      match up
      case Replicate(op) => s.(table := Update(s.table, req), log := s.log + [Entry(s.view, req.(op := op))])
      case Answer(result) => s.(table := Answered(s.table, req, result))
  }

  function ExecuteNext(s: Front, app: App): Front {
    if s.committed >= |s.log| then s
    else s.(committed := s.committed + 1, table := Recorded(s.table, s.log, s.committed, app))
  }

  function ExecuteUpTo(s: Front, upto: nat, app: App): Front {
    if upto <= s.committed then s else ExecuteNext(ExecuteUpTo(s, upto - 1, app), app)
  }

  // ---- A leader within its view ----

  datatype Service = Submitted(req: Request, up: Upcall) | Execute

  function Next(s: Front, e: Service, app: App): Front {
    match e
    case Submitted(req, up) => Submit(s, req, up)
    case Execute => ExecuteNext(s, app)
  }

  function Serve(s: Front, events: seq<Service>, app: App): Front {
    if events == [] then s else Next(Serve(s, events[..|events| - 1], app), events[|events| - 1], app)
  }

  /** From index `from` on, the requests of each client have strictly increasing ids. */
  ghost predicate Increasing(log: Log, from: nat) {
    forall i, j :: from <= i < j < |log| && log[i].req.clientId == log[j].req.clientId ==>
      log[i].req.reqId < log[j].req.reqId
  }

  /** The table knows every request in the log from index `from` on. */
  ghost predicate Covers(t: Table, log: Log, from: nat) {
    forall i :: from <= i < |log| ==> Old(t, log[i].req)
  }

  /** No step lowers a last request id. */
  ghost predicate Ahead(t: Table, u: Table) {
    forall c :: c in t ==> c in u && t[c].lastReqId <= u[c].lastReqId
  }

  lemma StepAhead(s: Front, e: Service, app: App)
    ensures Ahead(s.table, Next(s, e, app).table)
  {
  }

  lemma StaysCovered(t: Table, u: Table, log: Log, from: nat)
    requires Covers(t, log, from) && Ahead(t, u)
    ensures Covers(u, log, from)
  {
    forall i | from <= i < |log| ensures Old(u, log[i].req) {
      assert Old(t, log[i].req);
    }
  }

  ghost predicate InOrder(s: Front, from: nat) {
    Increasing(s.log, from) && Covers(s.table, s.log, from)
  }

  lemma StepKeeps(s: Front, e: Service, app: App, from: nat)
    requires InOrder(s, from)
    ensures InOrder(Next(s, e, app), from)
  {
    var s' := Next(s, e, app);
    StepAhead(s, e, app);
    StaysCovered(s.table, s'.table, s.log, from);
    if e.Submitted? && !Old(s.table, e.req) && e.up.Replicate? {
      forall i | from <= i < |s.log| && s.log[i].req.clientId == e.req.clientId
        ensures s.log[i].req.reqId < e.req.reqId
      {
        assert Old(s.table, s.log[i].req);
      }
    }
  }

  lemma {:induction false} ServeKeeps(s: Front, events: seq<Service>, app: App, from: nat)
    requires InOrder(s, from)
    ensures InOrder(Serve(s, events, app), from)
  {
    hide InOrder;
    if events != [] {
      ServeKeeps(s, events[..|events| - 1], app, from);
      StepKeeps(Serve(s, events[..|events| - 1], app), events[|events| - 1], app, from);
    }
  }

  /**
   The log of a leader, with what it had when its view began, has one slot for each request in
   all continuations exactly if the table covered that log. A new leader's table covers what it
   has executed or prepared itself, not what it has only installed: a resend of such a request
   gets a second slot.
   */
  lemma OneSlotExactly(s: Front, app: App)
    ensures (forall events :: Increasing(Serve(s, events, app).log, 0)) <==>
      Increasing(s.log, 0) && forall i :: 0 <= i < |s.log| ==> Old(s.table, s.log[i].req)
  {
    if InOrder(s, 0) {
      forall events: seq<Service> ensures Increasing(Serve(s, events, app).log, 0) {
        ServeKeeps(s, events, app, 0);
      }
    } else if Increasing(s.log, 0) {
      var i :| 0 <= i < |s.log| && !Old(s.table, s.log[i].req);
      ResendTakesSlot(s, i, app);
    } else {
      assert Serve(s, [], app) == s;
    }
  }

  lemma ResendTakesSlot(s: Front, i: nat, app: App)
    requires i < |s.log| && !Old(s.table, s.log[i].req)
    ensures !Increasing(Serve(s, [Submitted(s.log[i].req, Replicate(s.log[i].req.op))], app).log, 0)
  {
    var events := [Submitted(s.log[i].req, Replicate(s.log[i].req.op))];
    assert events[..0] == [];
    var log := Serve(s, events, app).log;
    assert log == s.log + [Entry(s.view, s.log[i].req)];
    assert log[i].req == log[|s.log|].req;
  }

  // ---- Replies ----

  /**
   Where a reply in the table comes from: it was there from the start, or executing a slot of the
   client gave it, or the application gave it at once to a request of that client with that id.
   */
  ghost predicate Given(start: Table, events: seq<Service>, s: Front, client: nat, r: Reply, app: App) {
    || (client in start && start[client].reply == [r])
    || (1 <= r.opnum <= s.committed && r.opnum <= |s.log| && s.log[r.opnum - 1].req.clientId == client
        && Answers(r, s.log, r.opnum - 1, app))
    || (exists i :: 0 <= i < |events| && AnsweredBy(events[i], client, r))
  }

  /** The reply is the one to the request at index `i` of the log: what the application makes of it there. */
  predicate Answers(r: Reply, log: Log, i: nat, app: App)
    requires i < |log|
  {
    r.opnum == i + 1 && r.view == log[i].view && r.reqId == log[i].req.reqId && r.result == app(i + 1, log[i].req)
  }

  predicate AnsweredBy(e: Service, client: nat, r: Reply) {
    e.Submitted? && e.up.Answer? && e.req.clientId == client && r == Reply(0, 0, e.req.reqId, e.up.result)
  }

  /** Every reply in the table is one, to the client's last request. */
  predicate OneReply(entry: TableEntry) {
    entry.Replied() ==> |entry.reply| == 1 && entry.reply[0].reqId == entry.lastReqId
  }

  ghost predicate RepliesOK(start: Table, events: seq<Service>, s: Front, app: App) {
    forall c :: c in s.table ==>
      OneReply(s.table[c]) && (s.table[c].Replied() ==> Given(start, events, s, c, s.table[c].reply[0], app))
  }

  lemma GivenLater(start: Table, events: seq<Service>, s: Front, e: Service, client: nat, r: Reply, app: App)
    requires Given(start, events, s, client, r, app)
    ensures Given(start, events + [e], Next(s, e, app), client, r, app)
  {
    if i :| 0 <= i < |events| && AnsweredBy(events[i], client, r) {
      assert AnsweredBy((events + [e])[i], client, r);
    }
  }

  lemma RepliesKept(start: Table, events: seq<Service>, s: Front, e: Service, app: App)
    requires RepliesOK(start, events, s, app)
    ensures RepliesOK(start, events + [e], Next(s, e, app), app)
  {
    var s', more := Next(s, e, app), events + [e];
    forall c | c in s'.table
      ensures OneReply(s'.table[c]) && (s'.table[c].Replied() ==> Given(start, more, s', c, s'.table[c].reply[0], app))
    {
      if c in s.table && s'.table[c] == s.table[c] {
        if s.table[c].Replied() { GivenLater(start, events, s, e, c, s.table[c].reply[0], app); }
      } else if e.Submitted? && e.up.Answer? {
        assert AnsweredBy(more[|events|], c, s'.table[c].reply[0]);
      }
    }
  }

  lemma {:induction false} RepliesOKAlways(s: Front, events: seq<Service>, app: App)
    requires forall c :: c in s.table ==> OneReply(s.table[c])
    ensures RepliesOK(s.table, events, Serve(s, events, app), app)
  {
    if events != [] {
      var n := |events| - 1;
      RepliesOKAlways(s, events[..n], app);
      assert events == events[..n] + [events[n]];
      hide RepliesOK;
      RepliesKept(s.table, events[..n], Serve(s, events[..n], app), events[n], app);
    }
  }

  /**
   A reply that a duplicate is answered with carries the id of the request itself, and is the
   one that executing the client's slot of the log gave, or the one that the application gave at
   once to that very request, or was in the table when the view began.
   */
  lemma {:induction false} ResentReplyIsGenuine(s: Front, events: seq<Service>, app: App, req: Request, up: Upcall)
    requires forall c :: c in s.table ==> OneReply(s.table[c])
    requires var t := Serve(s, events, app).table; Old(t, req) && SentAtOnce(t, req, up) != []
    ensures var s' := Serve(s, events, app); var r := SentAtOnce(s'.table, req, up)[0];
      r.reqId == req.reqId && Given(s.table, events, s', req.clientId, r, app)
  {
    RepliesOKAlways(s, events, app);
  }

  /** The request at index `i` of the events was a new one that the application answered at once. */
  ghost predicate AnsweredAt(s: Front, events: seq<Service>, app: App, i: int, client: nat, reqId: nat) {
    && 0 <= i < |events| && events[i].Submitted? && events[i].up.Answer?
    && events[i].req.clientId == client && events[i].req.reqId == reqId
    && !Old(Serve(s, events[..i], app).table, events[i].req)
  }

  /** Index `i` of the log has been executed since, and is the request. */
  predicate ExecutedAt(s: Front, s': Front, i: int, client: nat, reqId: nat) {
    s.committed <= i < s'.committed <= |s'.log| && s'.log[i].req.clientId == client && s'.log[i].req.reqId == reqId
  }

  /** The request was in a slot that has been executed, or was answered at once. */
  ghost predicate Done(s: Front, events: seq<Service>, app: App, client: nat, reqId: nat) {
    || (exists i :: ExecutedAt(s, Serve(s, events, app), i, client, reqId))
    || (exists i :: AnsweredAt(s, events, app, i, client, reqId))
  }

  lemma {:induction false} ServeBounded(s: Front, events: seq<Service>, app: App)
    requires s.committed <= |s.log|
    ensures var s' := Serve(s, events, app); s'.committed <= |s'.log|
    decreases |events|
  {
    if events != [] { ServeBounded(s, events[..|events| - 1], app); }
  }

  /** The event is the one by which the request is done. */
  predicate Does(s: Front, e: Service, client: nat, reqId: nat) {
    match e
    case Execute => s.committed < |s.log| && s.log[s.committed].req.clientId == client && s.log[s.committed].req.reqId == reqId
    case Submitted(req, up) => up.Answer? && req.clientId == client && req.reqId == reqId && !Old(s.table, req)
  }

  lemma ExecutedBefore(s: Front, before: Front, e: Service, app: App, i: int, client: nat, reqId: nat)
    requires before.committed <= |before.log| && ExecutedAt(s, Next(before, e, app), i, client, reqId)
    ensures ExecutedAt(s, before, i, client, reqId) || Does(before, e, client, reqId)
  {
    hide Recorded, Update, Old;
  }

  /** Nothing is done that was not done before, but by the last event. */
  lemma DoneBefore(s: Front, events: seq<Service>, app: App, client: nat, reqId: nat)
    requires s.committed <= |s.log| && events != [] && Done(s, events, app, client, reqId)
    ensures var n := |events| - 1;
      Done(s, events[..n], app, client, reqId) || Does(Serve(s, events[..n], app), events[n], client, reqId)
  {
    var n := |events| - 1;
    hide Next, Old;
    ServeBounded(s, events[..n], app);
    if i :| AnsweredAt(s, events, app, i, client, reqId) {
      if i < n {
        assert events[..n][..i] == events[..i];
        assert AnsweredAt(s, events[..n], app, i, client, reqId);
      }
    } else {
      var i :| ExecutedAt(s, Serve(s, events, app), i, client, reqId);
      ExecutedBefore(s, Serve(s, events[..n], app), events[n], app, i, client, reqId);
    }
  }

  /** The table knows the request, and has a reply if it is the client's last one. */
  predicate KnowsDone(t: Table, client: nat, reqId: nat) {
    client in t && reqId <= t[client].lastReqId && (reqId == t[client].lastReqId ==> t[client].Replied())
  }

  lemma NextKnows(s: Front, e: Service, app: App, client: nat, reqId: nat)
    requires KnowsDone(s.table, client, reqId)
    ensures KnowsDone(Next(s, e, app).table, client, reqId)
  {
  }

  lemma LastKnows(s: Front, e: Service, app: App, client: nat, reqId: nat)
    requires Does(s, e, client, reqId)
    ensures KnowsDone(Next(s, e, app).table, client, reqId)
  {
  }

  lemma {:induction false} DoneIsKnown(s: Front, events: seq<Service>, app: App, client: nat, reqId: nat)
    requires s.committed <= |s.log| && Done(s, events, app, client, reqId)
    ensures KnowsDone(Serve(s, events, app).table, client, reqId)
    decreases |events|
  {
    hide Done, KnowsDone, Next, Does;
    if events == [] {
      NothingDone(s, app, client, reqId);
    } else {
      var n := |events| - 1;
      DoneBefore(s, events, app, client, reqId);
      if Done(s, events[..n], app, client, reqId) {
        DoneIsKnown(s, events[..n], app, client, reqId);
        NextKnows(Serve(s, events[..n], app), events[n], app, client, reqId);
      } else {
        LastKnows(Serve(s, events[..n], app), events[n], app, client, reqId);
      }
    }
  }

  lemma NothingDone(s: Front, app: App, client: nat, reqId: nat)
    ensures !Done(s, [], app, client, reqId)
  {
  }

  /**
   A duplicate is answered: once a request has been executed, or answered at once, whoever sends it again
   gets a reply, unless the client has sent a later one since.
   */
  lemma ResendIsAnswered(s: Front, events: seq<Service>, app: App, req: Request, up: Upcall)
    requires s.committed <= |s.log| && Done(s, events, app, req.clientId, req.reqId)
    ensures var t := Serve(s, events, app).table;
      Old(t, req) && (SentAtOnce(t, req, up) != [] <==> t[req.clientId].lastReqId == req.reqId)
  {
    DoneIsKnown(s, events, app, req.clientId, req.reqId);
  }

  /** A new request is answered at once exactly if the application does so, with its answer, and so is a resend right after. */
  lemma AnswersAtOnce(s: Front, req: Request, up: Upcall, again: Upcall)
    requires !Old(s.table, req)
    ensures var sent := SentAtOnce(s.table, req, up);
      && (up.Replicate? ==> sent == [])
      && (up.Answer? ==> |sent| == 1 && sent[0].result == up.result && sent[0].reqId == req.reqId)
      && (req.clientId in s.table || req.reqId > 0 ==> SentAtOnce(Submit(s, req, up).table, req, again) == sent)
  {
  }

  // ---- What is executed is answered ----

  /** The same request, maybe in another slot. */
  predicate SameRequest(log: Log, i: nat, j: nat)
    requires i < |log| && j < |log|
  {
    log[i].req.clientId == log[j].req.clientId && log[i].req.reqId == log[j].req.reqId
  }

  /** The table has the reply to the request at index `i`, from its last slot below `upto`, unless it knows a later request of the client. */
  ghost predicate HasReply(t: Table, log: Log, i: nat, upto: nat, app: App)
    requires i < upto <= |log|
  {
    var req := log[i].req;
    && req.clientId in t && req.reqId <= t[req.clientId].lastReqId
    && (t[req.clientId].lastReqId == req.reqId ==>
          exists j :: i <= j < upto && SameRequest(log, i, j) && KeepsOnly(t, log, j, app))
  }

  /** What the table keeps for the client is the reply to the request at index `j`. */
  predicate KeepsOnly(t: Table, log: Log, j: nat, app: App)
    requires j < |log| && log[j].req.clientId in t
  {
    var reply := t[log[j].req.clientId].reply;
    |reply| == 1 && Answers(reply[0], log, j, app)
  }

  lemma RecordedHasReply(t: Table, log: Log, i: nat, upto: nat, app: App)
    requires i < upto < |log| && HasReply(t, log, i, upto, app)
    ensures HasReply(Recorded(t, log, upto, app), log, i, upto + 1, app)
  {
    var t' := Recorded(t, log, upto, app);
    if t[log[i].req.clientId].lastReqId == log[i].req.reqId {
      if SameRequest(log, i, upto) {
        assert KeepsOnly(t', log, upto, app);
      } else {
        var j :| i <= j < upto && SameRequest(log, i, j) && KeepsOnly(t, log, j, app);
        assert log[j].req.clientId == log[i].req.clientId;
        assert log[upto].req.clientId != log[i].req.clientId ==> KeepsOnly(t', log, j, app);
      }
    }
  }

  lemma {:induction false} RecordedAllHasReply(t: Table, log: Log, from: nat, i: nat, upto: nat, app: App)
    requires from <= i < upto <= |log|
    ensures HasReply(RecordedAll(t, log, from, upto, app), log, i, upto, app)
    decreases upto
  {
    var before := RecordedAll(t, log, from, upto - 1, app);
    assert RecordedAll(t, log, from, upto, app) == Recorded(before, log, upto - 1, app);
    if i < upto - 1 {
      RecordedAllHasReply(t, log, from, i, upto - 1, app);
      RecordedHasReply(before, log, i, upto - 1, app);
    } else {
      assert Known(before, log[i].req.clientId).lastReqId <= log[i].req.reqId ==>
        KeepsOnly(Recorded(before, log, i, app), log, i, app);
    }
  }

  lemma {:induction false} OthersKept(t: Table, log: Log, from: nat, upto: nat, app: App, client: nat)
    requires from <= upto <= |log| && forall i :: from <= i < upto ==> log[i].req.clientId != client
    ensures var t' := RecordedAll(t, log, from, upto, app); (client in t' <==> client in t) && (client in t ==> t'[client] == t[client])
    decreases upto
  {
    if from < upto { OthersKept(t, log, from, upto - 1, app, client); }
  }

  /**
   What a replica executes it can answer: afterwards its client table has, for the request in each slot
   that was executed, the application's answer there, unless it knows a later request of that client; and
   it is unchanged for every client of whom nothing was executed.
   */
  lemma ExecutedIsAnswered(c: Config, r: Replica, upto: nat)
    requires r.committed <= upto <= |r.log|
    ensures var t := CommitUpTo(c, r, upto).table;
      && (forall i :: r.committed <= i < upto ==> HasReply(t, r.log, i, upto, c.app))
      && (forall client :: (forall i :: r.committed <= i < upto ==> r.log[i].req.clientId != client) ==>
            (client in t <==> client in r.table) && (client in t ==> t[client] == r.table[client]))
  {
    hide HasReply, RecordedAll;
    var t := CommitUpTo(c, r, upto).table;
    forall i | r.committed <= i < upto ensures HasReply(t, r.log, i, upto, c.app) {
      RecordedAllHasReply(r.table, r.log, r.committed, i, upto, c.app);
    }
    forall client | forall i :: r.committed <= i < upto ==> r.log[i].req.clientId != client
      ensures (client in t <==> client in r.table) && (client in t ==> t[client] == r.table[client])
    {
      OthersKept(r.table, r.log, r.committed, upto, c.app, client);
    }
  }

  // ---- The leaders of the group ----

  lemma {:induction false} CommitIsExecute(c: Config, r: Replica, upto: nat)
    requires r.committed <= upto <= |r.log|
    ensures FrontOf(CommitUpTo(c, r, upto)) == ExecuteUpTo(FrontOf(r), upto, c.app)
    decreases upto
  {
    hide Recorded;
    if r.committed < upto {
      CommitIsExecute(c, r, upto - 1);
      assert CommitUpTo(c, r, upto - 1).table == RecordedAll(r.table, r.log, r.committed, upto - 1, c.app);
    }
  }

  lemma {:induction false} ExecuteKeeps(s: Front, upto: nat, app: App, from: nat)
    requires InOrder(s, from)
    ensures InOrder(ExecuteUpTo(s, upto, app), from) && ExecuteUpTo(s, upto, app).log == s.log
    decreases upto
  {
    hide InOrder;
    if upto > s.committed {
      ExecuteKeeps(s, upto - 1, app, from);
      StepKeeps(ExecuteUpTo(s, upto - 1, app), Execute, app, from);
    }
  }

  /** What a leader that keeps its view does for clients: it takes in one request, or executes its log up to some opnum. */
  ghost predicate Serves(c: Config, s: Front, s': Front) {
    || (exists req, up :: s' == Submit(s, req, up))
    || (exists upto :: s' == ExecuteUpTo(s, upto, c.app))
  }

  lemma RequestServes(c: Config, me: nat, r: Replica, req: Request, up: Upcall)
    requires r.normal && c.Leader(r.view) == me
    ensures var o := HandleRequest(c, me, r, req, up); FrontOf(o.r) == if o.Ok? then Submit(FrontOf(r), req, up) else FrontOf(r)
  {
  }

  lemma PrepareOKServes(c: Config, me: nat, r: Replica, m: Message)
    requires m.PrepareOK? && r.normal && c.Leader(r.view) == me
    ensures Serves(c, FrontOf(r), FrontOf(HandlePrepareOK(c, me, r, m).r))
  {
    var f := FrontOf(r);
    assert f == ExecuteUpTo(f, 0, c.app);
    var r1 := r.(okVotes := r.okVotes[(m.view, m.opnum) := Acks(r, m)]);
    if r.committed < m.opnum <= |r.log| { CommitIsExecute(c, r1, m.opnum); }
    hide ExecuteUpTo, Submit, Acks, RecordedAll;
  }

  /** Every handler, on a leader in normal status that stays in its view. */
  lemma HandlerServes(c: Config, s: VrProtocol.State, e: VrProtocol.Event)
    requires e.r < |s.reps|
    requires var r, r' := s.reps[e.r], VrProtocol.Handle(c, s, e).r;
      r.normal && c.Leader(r.view) == e.r && r'.normal && r'.view == r.view
    ensures Serves(c, FrontOf(s.reps[e.r]), FrontOf(VrProtocol.Handle(c, s, e).r))
  {
    var r := s.reps[e.r];
    var f := FrontOf(r);
    assert f == ExecuteUpTo(f, 0, c.app);
    if e.ClientRequest? {
      RequestServes(c, e.r, r, e.req, e.up);
      hide HandleRequest, Submit;
    } else if e.Deliver? && e.m in s.msgs && VrProtocol.Addressed(c, e.m, e.r) && VrProtocol.WellFormed(r) {
      hide VrProtocol.Receive, Serves;
      MessageServes(c, e.r, r, e.m, e.junk);
    }
  }

  lemma MessageServes(c: Config, me: nat, r: Replica, m: Message, junk: nat)
    requires r.normal && c.Leader(r.view) == me && VrProtocol.WellFormed(r)
    requires var o := VrProtocol.Receive(c, me, r, m, junk); o.r.normal && o.r.view == r.view
    ensures Serves(c, FrontOf(r), FrontOf(VrProtocol.Receive(c, me, r, m, junk).r))
  {
    var f := FrontOf(r);
    assert f == ExecuteUpTo(f, 0, c.app);
    match m
    case PrepareOK(_, _, _) => PrepareOKServes(c, me, r, m); hide HandlePrepareOK, Serves;
    case Prepare(_, _, _, _) => hide ExecuteUpTo, Submit;
    case Commit(_, _) => hide ExecuteUpTo, Submit;
    case StartViewChange(_, _, _) => hide ExecuteUpTo, Submit, OfferLog, SvcVotes;
    case DoViewChange(view, _, _, _, _, _) =>
      hide ExecuteUpTo, Submit;
      if view > r.view { JoinsLater(c, me, r, m, junk); hide HandleDoViewChange; }
    case StartView(_, _, _, _) =>
      hide ExecuteUpTo, Submit, Installed, Installable, UpdatableAll, UpdateAll, RecordedAll;
  }

  /** A replica that joins a later view does not stay in its own. */
  lemma JoinsLater(c: Config, me: nat, r: Replica, m: Message, junk: nat)
    requires m.DoViewChange? && m.view > r.view && VrProtocol.WellFormed(r)
    ensures HandleDoViewChange(c, me, r, m, junk).r.view > r.view
  {
    hide Latest, StartFrom, Installed, Installable, RecordedAll;
  }

  lemma ServedInOrder(c: Config, s: Front, s': Front, from: nat)
    requires InOrder(s, from) && Serves(c, s, s')
    ensures InOrder(s', from)
  {
    if req, up :| s' == Submit(s, req, up) {
      StepKeeps(s, Submitted(req, up), c.app, from);
    } else {
      var upto :| s' == ExecuteUpTo(s, upto, c.app);
      ExecuteKeeps(s, upto, c.app, from);
    }
  }

  /**
   In any run, whatever duplicates and resends arrive, what a leader appends from some time on
   while it stays in its view has strictly increasing request ids for each client: no request
   gets two slots in one view.
   */
  lemma {:induction false} LeaderAppendsIncrease(c: Config, events: seq<VrProtocol.Event>, t: nat, me: nat)
    requires t <= |events| && me < c.N()
    requires |VrProtocol.Run(c, events[..t]).reps| == |VrProtocol.Run(c, events).reps| == c.N()
    requires var r, r' := VrProtocol.Run(c, events[..t]).reps[me], VrProtocol.Run(c, events).reps[me];
      r.normal && c.Leader(r.view) == me && r'.view == r.view
    ensures var r, r' := VrProtocol.Run(c, events[..t]).reps[me], VrProtocol.Run(c, events).reps[me];
      r'.normal && InOrder(FrontOf(r'), |r.log|)
    decreases |events|
  {
    if t == |events| {
      assert events[..t] == events;
    } else {
      var n := |events| - 1;
      assert events[..n][..t] == events[..t];
      VrHistory.ExecutedGrows(c, events[..n], t, me);
      VrHistory.ExecutedGrows(c, events, n, me);
      var s, e := VrProtocol.Run(c, events[..n]), events[n];
      VrHistory.RunStep(c, events);
      hide VrProtocol.Run, VrProtocol.Handle, InOrder, Serves;
      LeaderAppendsIncrease(c, events[..n], t, me);
      LeaderStays(c, s, e, me, |VrProtocol.Run(c, events[..t]).reps[me].log|);
    }
  }

  lemma LeaderStays(c: Config, s: VrProtocol.State, e: VrProtocol.Event, me: nat, from: nat)
    requires me < |s.reps| && s.reps[me].normal && c.Leader(s.reps[me].view) == me && InOrder(FrontOf(s.reps[me]), from)
    requires |VrProtocol.Apply(c, s, e).reps| == |s.reps| && VrProtocol.Apply(c, s, e).reps[me].view == s.reps[me].view
    ensures var r' := VrProtocol.Apply(c, s, e).reps[me]; r'.normal && InOrder(FrontOf(r'), from)
  {
    hide InOrder, Serves, VrProtocol.Handle, VrProtocol.Record, VrProtocol.Ballots;
    if e.r == me {
      var r' := VrProtocol.Handle(c, s, e).r;
      VrHistory.HandleSteady(c, s, e);
      HandlerServes(c, s, e);
      ServedInOrder(c, FrontOf(s.reps[me]), FrontOf(r'), from);
    }
  }
}
