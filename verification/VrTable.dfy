/**
 The client table of a replica (src/replication/vr/replica.cc:141-192, 323-337, 467-558, as
 values): the latest request id of each client, and the reply to that request once there is one.
 */
module VrTable {
  import opened VrTypes

  datatype Reply = Reply(view: nat, opnum: nat, reqId: nat, result: string)

  /** `reply` has at most one element; it is empty until the request has been executed or answered. */
  datatype TableEntry = TableEntry(lastReqId: nat, reply: seq<Reply>) {
    predicate Replied() { reply != [] }
  }

  type Table = map<nat, TableEntry>

  /** What the leader's application makes of a request: an operation to replicate, or an answer at once. */
  datatype Upcall = Replicate(op: string) | Answer(result: string)

  /** operator[] of std::map adds an entry with last request id 0. */
  function Known(t: Table, client: nat): TableEntry {
    if client in t then t[client] else TableEntry(0, [])
  }

  /** A request that the table knows already, or that a newer one of the same client has overtaken. */
  predicate Old(t: Table, req: Request) { req.clientId in t && req.reqId <= t[req.clientId].lastReqId }

  /** UpdateClientTable asserts that the request is not older than the last one. */
  predicate Updatable(t: Table, req: Request) { Known(t, req.clientId).lastReqId <= req.reqId }

  function Update(t: Table, req: Request): Table {
    var known := Known(t, req.clientId);
    t[req.clientId := if known.lastReqId == req.reqId then known else TableEntry(req.reqId, [])]
  }

  function UpdateAll(t: Table, reqs: seq<Request>): Table {
    if reqs == [] then t else Update(UpdateAll(t, reqs[..|reqs| - 1]), reqs[|reqs| - 1])
  }

  predicate UpdatableAll(t: Table, reqs: seq<Request>) {
    reqs == [] ||
    (UpdatableAll(t, reqs[..|reqs| - 1]) && Updatable(UpdateAll(t, reqs[..|reqs| - 1]), reqs[|reqs| - 1]))
  }

  /** How many of the requests can be entered before one is older than the table knows. */
  function Accepted(t: Table, reqs: seq<Request>): (n: nat)
    ensures n <= |reqs| && UpdatableAll(t, reqs[..n])
    ensures n < |reqs| ==> !UpdatableAll(t, reqs[..n + 1])
  {
    if UpdatableAll(t, reqs) then
      assert reqs[..|reqs|] == reqs;
      |reqs|
    else
      var rest := reqs[..|reqs| - 1];
      var n := Accepted(t, rest);
      assert rest[..n] == reqs[..n] && (n < |rest| ==> rest[..n + 1] == reqs[..n + 1]) && reqs[..|reqs|] == reqs;
      n
  }

  function Answered(t: Table, req: Request, result: string): Table {
    t[req.clientId := TableEntry(req.reqId, [Reply(0, 0, req.reqId, result)])]
  }

  /** The reply that a leader sends as soon as it has received a request, if any. */
  function SentAtOnce(t: Table, req: Request, up: Upcall): seq<Reply> {
    if Old(t, req) then
      if req.reqId == t[req.clientId].lastReqId then t[req.clientId].reply else []
    else
      match up
      case Replicate(_) => []
      case Answer(result) => [Reply(0, 0, req.reqId, result)]
  }

  function ReplyTo(log: Log, i: nat, app: App): Reply
    requires i < |log|
  {
    Reply(log[i].view, i + 1, log[i].req.reqId, app(i + 1, log[i].req))
  }

  /** CommitUpTo executes the entry at index `i` and keeps the reply, unless the client has moved on. */
  function Recorded(t: Table, log: Log, i: nat, app: App): Table
    requires i < |log|
  {
    var req := log[i].req;
    var known := Known(t, req.clientId);
    t[req.clientId := if known.lastReqId <= req.reqId then TableEntry(req.reqId, [ReplyTo(log, i, app)]) else known]
  }

  /** The table after the entries at indices from `i` up to `j` have been executed. */
  function RecordedAll(t: Table, log: Log, i: nat, j: nat, app: App): Table
    requires i <= j <= |log|
    decreases j
  {
    if i == j then t else Recorded(RecordedAll(t, log, i, j - 1, app), log, j - 1, app)
  }
}
