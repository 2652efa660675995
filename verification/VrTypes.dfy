/**
 Values of the Viewstamped Replication group: log entries, messages, and the
 group configuration (src/replication/vr/replica.cc, src/lib/configuration.h).
 */
module VrTypes {

  /** A client operation; the reply to it is not part of the log. */
  datatype Request = Request(clientId: nat, reqId: nat, op: string)

  /** The entry at index `i` of a log has opnum `i + 1`, because a log starts at opnum 1. */
  datatype Entry = Entry(view: nat, req: Request)

  type Log = seq<Entry>

  /** What the application answers to the request with a given opnum. */
  type App = (nat, Request) -> string

  /** `2 * f + 1` replicas, the number of requests the leader batches, and the application. */
  datatype Config = Config(f: nat, batchSize: nat, app: App) {
    function N(): nat { 2 * f + 1 }
    function Leader(view: nat): nat { view % N() }
  }

  /** Consecutive entries of a log, the first of which has opnum `first`. */
  datatype Suffix = Suffix(first: nat, entries: Log)

  datatype Message =
    | Prepare(view: nat, opnum: nat, batchStart: nat, reqs: seq<Request>)
    | PrepareOK(view: nat, opnum: nat, from: nat)
    | Commit(view: nat, opnum: nat)
    | StartViewChange(view: nat, from: nat, committed: nat)
    | DoViewChange(view: nat, lastNormal: nat, lastOp: nat, committed: nat, from: nat, suffix: Suffix)
    | StartView(view: nat, lastOp: nat, committed: nat, suffix: Suffix)

  /** The view of the last entry, and 0 for an empty log (Log::LastViewstamp). */
  function LastView(log: Log): nat {
    if log == [] then 0 else log[|log| - 1].view
  }

  function Requests(log: Log): (reqs: seq<Request>)
    ensures |reqs| == |log|
    ensures forall i :: 0 <= i < |log| ==> reqs[i] == log[i].req
  {
    seq(|log|, i requires 0 <= i < |log| => log[i].req)
  }

  function Stamped(view: nat, reqs: seq<Request>): (log: Log)
    ensures |log| == |reqs|
    ensures forall i :: 0 <= i < |reqs| ==> log[i] == Entry(view, reqs[i])
  {
    seq(|reqs|, i requires 0 <= i < |reqs| => Entry(view, reqs[i]))
  }

  function Min(a: nat, b: nat): nat { if a < b then a else b }
  function Max(a: nat, b: nat): nat { if a < b then b else a }

  ghost predicate IsLeast(x: nat, s: set<nat>) {
    x in s && forall y :: y in s ==> x <= y
  }

  lemma {:induction false} LeastExists(s: set<nat>) returns (x: nat)
    requires s != {}
    ensures IsLeast(x, s)
    decreases |s|
  {
    var z :| z in s;
    var rest := s - {z};
    assert forall y :: y in s ==> y == z || y in rest;
    x := z;
    if rest != {} {
      x := LeastExists(rest);
      if z < x { x := z; }
    }
  }

  /** The least value of a nonempty map (std::min_element over collected messages). */
  ghost function Least(m: map<nat, nat>): (least: nat)
    requires m != map[]
    ensures IsLeast(least, m.Values)
  {
    var k :| k in m;
    assert m[k] in m.Values;
    LeastOf(m.Values)
  }

  ghost function LeastOf(s: set<nat>): (x: nat)
    requires s != {}
    ensures IsLeast(x, s)
  {
    assert exists x :: IsLeast(x, s) by { var x := LeastExists(s); }
    var x :| IsLeast(x, s);
    x
  }
}
