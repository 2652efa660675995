/**
 A consensus operation of an IR client, from its invocation to its removal
 (src/replication/ir/client.cc:196-331, 459-556), for sends that succeed. `IrClient` has
 the handlers with their loops.
 */
module IrRequest {
  import opened Quorums

  datatype Client = Client(f: nat, decide: map<string, nat> -> string)

  /** What the application is told: its continuation with a result, or the error continuation. */
  datatype Call = Continue(result: string) | MismatchedViews

  datatype Request = Request(
    replies: map<nat, map<nat, string>>,      // result by view and replica
    confirms: map<nat, set<nat>>,             // replicas by view
    onSlowPath: bool,
    timer: bool,                              // the transition timer can still fire
    sentConfirms: bool,
    invoked: bool,
    decided: string,
    decidedView: nat,
    pending: bool,
    calls: seq<Call>,
    finalizes: seq<string>)                   // results of the Finalize messages sent

  const NEW := Request(map[], map[], false, true, false, false, "", 0, true, [], [])

  datatype Event =
    | Reply(view: nat, from: nat, result: string, finalized: bool)
    | Confirm(view: nat, from: nat)
    | TransitionTimer
    | ResendTimer

  function RepliesOf(r: Request, view: nat): map<nat, string> {
    if view in r.replies then r.replies[view] else map[]
  }

  /** How many replicas have reported each result. */
  function Backing(msgs: map<nat, string>, result: string): set<nat> {
    set k | k in msgs && msgs[k] == result
  }

  function Tally(msgs: map<nat, string>): map<string, nat> {
    map result | result in msgs.Values :: |Backing(msgs, result)|
  }

  /** HandleSlowPathConsensus: decides unless a finalized result was found, and starts the finalize phase. */
  function SlowPath(c: Client, r: Request, view: nat, finalized: bool): Request {
    var r1 := if finalized then r else r.(decided := c.decide(Tally(RepliesOf(r, view))), decidedView := view);
    r1.(sentConfirms := true, finalizes := r1.finalizes + [r1.decided])
  }

  /** Some result that a super quorum of the replies agrees on. */
  ghost predicate Matches(c: Client, msgs: map<nat, string>, result: string) {
    |Backing(msgs, result)| >= FastQuorumSize(c.f)
  }

  /** A super quorum that agrees returns at once; one that does not leads to the slow path. */
  function FastReturn(r: Request, result: string): Request {
    r.(decided := result, sentConfirms := true, finalizes := r.finalizes + [result],
       calls := if r.invoked then r.calls else r.calls + [Continue(result)], invoked := true)
  }

  /** HandleConsensusReply; the matching result, which is unique, is found by a loop over the tally. */
  ghost predicate Replied(c: Client, r: Request, e: Event, r': Request)
    requires e.Reply?
  {
    if !r.pending || r.sentConfirms then r' == r
    else
      var msgs := RepliesOf(r, e.view)[e.from := e.result];
      var r1 := r.(replies := r.replies[e.view := msgs]);
      if e.finalized then
        r' == SlowPath(c, r1.(onSlowPath := true, timer := false, decided := e.result, decidedView := e.view), e.view, true)
      else if r.onSlowPath && |msgs| >= QuorumSize(c.f) then
        r' == SlowPath(c, r1, e.view, false)
      else if !r.onSlowPath && |msgs| >= FastQuorumSize(c.f) then
        if exists result :: Matches(c, msgs, result) then
          exists result :: Matches(c, msgs, result) && r' == FastReturn(r1, result)
        else
          r' == SlowPath(c, r1.(onSlowPath := true, timer := false), e.view, false)
      else r' == r1
  }

  /** CheckForQuorum over all views: the lowest with enough replies. */
  ghost predicate FirstQuorum(c: Client, r: Request, view: nat) {
    && |RepliesOf(r, view)| >= QuorumSize(c.f)
    && forall v: nat :: v < view ==> |RepliesOf(r, v)| < QuorumSize(c.f)
  }

  /** TransitionToConsensusSlowPath: it does not look whether the request has already been answered. */
  ghost predicate TimerFired(c: Client, r: Request, r': Request) {
    if !r.pending || !r.timer then r' == r
    else
      var r1 := r.(onSlowPath := true, timer := false);
      if exists view :: FirstQuorum(c, r1, view) then
        exists view :: FirstQuorum(c, r1, view) && r' == SlowPath(c, r1, view, false)
      else r' == r1
  }

  /** HandleConfirm */
  function Confirmed(c: Client, r: Request, e: Event): Request
    requires e.Confirm?
  {
    if !r.pending then r
    else
      var froms := (if e.view in r.confirms then r.confirms[e.view] else {}) + {e.from};
      var r1 := r.(confirms := r.confirms[e.view := froms]);
      if |froms| < QuorumSize(c.f) then r1
      else
        r1.(pending := false,
            calls := if r.invoked then r.calls
                     else r.calls + [if e.view == r.decidedView then Continue(r.decided) else MismatchedViews])
  }

  /** ResendConfirmation and ResendConsensus. */
  function Resent(r: Request): Request {
    if r.pending && r.sentConfirms then r.(finalizes := r.finalizes + [r.decided]) else r
  }

  ghost predicate Step(c: Client, r: Request, e: Event, r': Request) {
    match e
    case Reply(_, _, _, _) => Replied(c, r, e, r')
    case Confirm(_, _) => r' == Confirmed(c, r, e)
    case TransitionTimer => TimerFired(c, r, r')
    case ResendTimer => r' == Resent(r)
  }

  /** `rs` are the states of the request as `events` happen to it. */
  ghost predicate Run(c: Client, events: seq<Event>, rs: seq<Request>) {
    && |rs| == |events| + 1 && rs[0] == NEW
    && forall i :: 0 <= i < |events| ==> Step(c, rs[i], events[i], rs[i + 1])
  }

  // ---- What every state keeps ----

  /** Replica `k` has replied with `result` in `view`. */
  ghost predicate HasReplied(events: seq<Event>, view: nat, k: nat, result: string) {
    exists i :: 0 <= i < |events| && events[i].Reply? && events[i].view == view && events[i].from == k && events[i].result == result
  }

  ghost predicate RepliesOK(events: seq<Event>, r: Request) {
    forall v, k :: v in r.replies && k in r.replies[v] ==> HasReplied(events, v, k, r.replies[v][k])
  }

  /** The application is called at most once, and the transition timer is off on the slow path. */
  ghost predicate CallsOK(r: Request) {
    && |r.calls| <= 1
    && (r.pending && !r.invoked ==> r.calls == [])
    && (!r.pending ==> |r.calls| == 1)
    && (r.invoked ==> r.sentConfirms && |r.calls| == 1 && r.calls[0].Continue?)
    && r.timer == !r.onSlowPath
    && (r.sentConfirms && !r.invoked ==> r.onSlowPath)
  }

  /** A super quorum of replies, no more, that all report `result`. */
  ghost predicate Unanimous(c: Client, msgs: map<nat, string>, result: string) {
    |msgs| == FastQuorumSize(c.f) && forall k :: k in msgs ==> msgs[k] == result
  }

  /** A result returned before any confirmation was reported by a super quorum in one view, and no other was reported there. */
  ghost predicate FastOK(c: Client, r: Request) {
    r.invoked ==> |r.calls| == 1 && r.calls[0].Continue? && exists v :: Unanimous(c, RepliesOf(r, v), r.calls[0].result)
  }

  /** Up to a late transition, the Finalize messages carry the result that was, or will be, returned. */
  ghost predicate FinalizesOK(r: Request) {
    && (!r.sentConfirms ==> r.finalizes == [])
    && (r.sentConfirms ==> r.decided in r.finalizes)
    && (r.invoked && r.timer ==> r.calls == [Continue(r.decided)])
    && (r.timer || !r.invoked || r.calls == [Continue(r.decided)] ==> forall x :: x in r.finalizes ==> x == r.decided)
    && (forall x :: x in r.calls && x.Continue? && !r.invoked ==> x.result == r.decided)
  }

  lemma RepliedLonger(events: seq<Event>, e: Event)
    ensures forall v, k, result :: HasReplied(events, v, k, result) ==> HasReplied(events + [e], v, k, result)
    ensures e.Reply? ==> HasReplied(events + [e], e.view, e.from, e.result)
  {
    forall v, k, result | HasReplied(events, v, k, result) ensures HasReplied(events + [e], v, k, result) {
      var i :| 0 <= i < |events| && events[i].Reply? && events[i].view == v && events[i].from == k && events[i].result == result;
      assert (events + [e])[i] == events[i];
    }
    assert (events + [e])[|events|] == e;
  }

  function Collected(r: Request, e: Event): Request
    requires e.Reply?
  {
    r.(replies := r.replies[e.view := RepliesOf(r, e.view)[e.from := e.result]])
  }

  function Slowed(r: Request): Request { r.(onSlowPath := true, timer := false) }

  /** What a step can amount to. */
  datatype Move = Stays | Collects | Slows | Decides(view: nat) | Adopts | Returns(result: string) | Redecides(view: nat) | Confirms | Resends

  ghost predicate Moves(c: Client, r: Request, e: Event, r': Request, m: Move) {
    match m
    case Stays => r' == r
    case Collects => e.Reply? && !r.sentConfirms && r' == Collected(r, e)
    case Slows => r' == Slowed(r) && forall view :: !FirstQuorum(c, Slowed(r), view)
    case Decides(view) => e.Reply? && r.pending && !r.sentConfirms && r' == SlowPath(c, Slowed(Collected(r, e)), view, false)
    case Adopts =>
      e.Reply? && r.pending && !r.sentConfirms &&
      r' == SlowPath(c, Slowed(Collected(r, e)).(decided := e.result, decidedView := e.view), e.view, true)
    case Returns(result) =>
      e.Reply? && r.pending && !r.sentConfirms && !r.onSlowPath && Matches(c, RepliesOf(Collected(r, e), e.view), result) &&
      r' == FastReturn(Collected(r, e), result)
    case Redecides(view) => e.TransitionTimer? && r.pending && r.timer && FirstQuorum(c, Slowed(r), view) && r' == SlowPath(c, Slowed(r), view, false)
    case Confirms => e.Confirm? && r' == Confirmed(c, r, e)
    case Resends => e.ResendTimer? && r' == Resent(r)
  }

  lemma StepMoves(c: Client, r: Request, e: Event, r': Request) returns (m: Move)
    requires CallsOK(r) && Step(c, r, e, r')
    ensures Moves(c, r, e, r', m)
  {
    hide SlowPath, FastReturn, Confirmed, Resent, Tally, RepliesOf;
    match e
    case Confirm(_, _) => m := Confirms;
    case ResendTimer => m := Resends;
    case TransitionTimer =>
      if !r.pending || !r.timer {
        m := Stays;
      } else if view :| FirstQuorum(c, Slowed(r), view) && r' == SlowPath(c, Slowed(r), view, false) {
        m := Redecides(view);
      } else {
        m := Slows;
      }
    case Reply(_, _, _, _) => m := ReplyMoves(c, r, e, r');
  }

  lemma ReplyMoves(c: Client, r: Request, e: Event, r': Request) returns (m: Move)
    requires CallsOK(r) && e.Reply? && Replied(c, r, e, r')
    ensures Moves(c, r, e, r', m)
  {
    hide Tally, RepliesOf;
    var msgs := RepliesOf(r, e.view)[e.from := e.result];
    if !r.pending || r.sentConfirms {
      m := Stays;
    } else if e.finalized {
      m := Adopts;
    } else if r.onSlowPath && |msgs| >= QuorumSize(c.f) {
      assert Slowed(Collected(r, e)) == Collected(r, e);
      m := Decides(e.view);
    } else if !r.onSlowPath && |msgs| >= FastQuorumSize(c.f) {
      if result :| Matches(c, msgs, result) && r' == FastReturn(Collected(r, e), result) {
        CollectedReplies(r, e);
        m := Returns(result);
      } else {
        m := Decides(e.view);
      }
    } else {
      m := Collects;
    }
  }

  lemma CollectedReplies(r: Request, e: Event)
    requires e.Reply?
    ensures RepliesOf(Collected(r, e), e.view) == RepliesOf(r, e.view)[e.from := e.result]
  {
  }

  lemma StepReplies(c: Client, events: seq<Event>, r: Request, e: Event, r': Request, m: Move)
    requires RepliesOK(events, r) && Moves(c, r, e, r', m)
    ensures RepliesOK(events + [e], r')
  {
    RepliedLonger(events, e);
    hide HasReplied, Tally, Matches;
  }

  lemma StepCalls(c: Client, r: Request, e: Event, r': Request, m: Move)
    requires CallsOK(r) && Moves(c, r, e, r', m)
    ensures CallsOK(r')
  {
    hide Tally, Matches, RepliesOf;
  }

  lemma StepFast(c: Client, r: Request, e: Event, r': Request, m: Move)
    requires CallsOK(r) && FastOK(c, r) && EagerOK(c, r) && Moves(c, r, e, r', m)
    ensures FastOK(c, r')
  {
    hide Tally, Matches, Unanimous;
    if r.invoked {
      var v :| Unanimous(c, RepliesOf(r, v), r.calls[0].result);
      assert RepliesOf(r', v) == RepliesOf(r, v);
    } else if r'.invoked {
      assert RepliesOf(r', e.view) == RepliesOf(Collected(r, e), e.view);
      assert |RepliesOf(r, e.view)| < FastQuorumSize(c.f);
      CollectedReplies(r, e);
      LastReplyAgrees(c, RepliesOf(r, e.view), e.from, e.result, m.result);
    }
  }

  /** The reply that makes a super quorum agree leaves no room for another result. */
  lemma LastReplyAgrees(c: Client, msgs: map<nat, string>, from: nat, reported: string, result: string)
    requires |msgs| < FastQuorumSize(c.f) && Matches(c, msgs[from := reported], result)
    ensures Unanimous(c, msgs[from := reported], result)
  {
    var more := msgs[from := reported];
    assert more.Keys == msgs.Keys + {from};
    SubsetSize(Backing(more, result), more.Keys);
    SubsetIsAll(Backing(more, result), more.Keys);
  }

  lemma SubsetIsAll(a: set<nat>, b: set<nat>)
    requires a <= b && |a| >= |b|
    ensures a == b
  {
    assert b == a + (b - a);
  }

  lemma UnanimousMatches(c: Client, msgs: map<nat, string>, result: string)
    requires Unanimous(c, msgs, result)
    ensures Matches(c, msgs, result) && |msgs| >= QuorumSize(c.f)
    ensures Tally(msgs) == map[result := FastQuorumSize(c.f)]
  {
    assert Backing(msgs, result) == msgs.Keys;
    var k :| k in msgs.Keys;
    assert msgs.Values == {result} by { assert msgs[k] in msgs.Values; }
  }

  lemma StepFinalizes(c: Client, r: Request, e: Event, r': Request, m: Move)
    requires CallsOK(r) && FinalizesOK(r) && Moves(c, r, e, r', m)
    ensures FinalizesOK(r')
  {
    hide Tally, Matches, RepliesOf;
  }

  /** A fast return whose timer has fired since has been decided anew, on the first quorum of replies. */
  ghost predicate LateOK(c: Client, r: Request) {
    r.invoked && !r.timer ==> exists v :: DecidedOn(c, r, v)
  }

  ghost predicate DecidedOn(c: Client, r: Request, v: nat) {
    FirstQuorum(c, r, v) && r.decided == c.decide(Tally(RepliesOf(r, v)))
  }

  lemma {:induction false} SomeFirstQuorum(c: Client, r: Request, view: nat)
    requires |RepliesOf(r, view)| >= QuorumSize(c.f)
    ensures exists v :: FirstQuorum(c, r, v)
    decreases view
  {
    if v: nat :| v < view && |RepliesOf(r, v)| >= QuorumSize(c.f) {
      SomeFirstQuorum(c, r, v);
    } else {
      assert FirstQuorum(c, r, view);
    }
  }

  lemma SameReplies(c: Client, r: Request, r': Request, v: nat)
    requires r'.replies == r.replies && FirstQuorum(c, r, v)
    ensures FirstQuorum(c, r', v) && RepliesOf(r', v) == RepliesOf(r, v)
  {
    assert forall u: nat :: RepliesOf(r', u) == RepliesOf(r, u);
  }

  lemma StepLate(c: Client, r: Request, e: Event, r': Request, m: Move)
    requires CallsOK(r) && FastOK(c, r) && LateOK(c, r) && Moves(c, r, e, r', m)
    ensures LateOK(c, r')
  {
    hide Tally, Matches;
    if r.invoked && !r.timer {
      var v :| DecidedOn(c, r, v);
      SameReplies(c, r, r', v);
      assert DecidedOn(c, r', v);
    } else if r.invoked && m.Slows? {
      var v :| Unanimous(c, RepliesOf(r, v), r.calls[0].result);
      UnanimousMatches(c, RepliesOf(r, v), r.calls[0].result);
      SomeFirstQuorum(c, Slowed(r), v);
    } else if r.invoked && m.Redecides? {
      SameReplies(c, Slowed(r), r', m.view);
      assert DecidedOn(c, r', m.view);
    }
  }

  /** The client never sits on enough replies: a quorum of one view on the slow path, a super quorum before. */
  ghost predicate EagerOK(c: Client, r: Request) {
    r.pending && !r.sentConfirms ==>
      forall v: nat :: |RepliesOf(r, v)| < if r.onSlowPath then QuorumSize(c.f) else FastQuorumSize(c.f)
  }

  lemma StepEager(c: Client, r: Request, e: Event, r': Request)
    requires CallsOK(r) && EagerOK(c, r) && Step(c, r, e, r')
    ensures EagerOK(c, r')
  {
    hide Tally, Matches;
    if r.pending && !r.sentConfirms && r'.pending && !r'.sentConfirms {
      forall v: nat ensures |RepliesOf(r', v)| < if r'.onSlowPath then QuorumSize(c.f) else FastQuorumSize(c.f) {
        assert |RepliesOf(r, v)| < if r.onSlowPath then QuorumSize(c.f) else FastQuorumSize(c.f);
        if e.TransitionTimer? && r.timer {
          StillFew(c, r, r', v);
        }
      }
    }
  }

  lemma StillFew(c: Client, r: Request, r': Request, v: nat)
    requires r.pending && r.timer && !r'.sentConfirms && TimerFired(c, r, r')
    ensures r' == Slowed(r) && |RepliesOf(r', v)| < QuorumSize(c.f)
  {
    hide Tally;
    if |RepliesOf(Slowed(r), v)| >= QuorumSize(c.f) { SomeFirstQuorum(c, Slowed(r), v); }
  }

  ghost predicate OK(c: Client, events: seq<Event>, r: Request) {
    RepliesOK(events, r) && CallsOK(r) && FastOK(c, r) && FinalizesOK(r) && LateOK(c, r) && EagerOK(c, r)
  }

  lemma {:induction false} RunOK(c: Client, events: seq<Event>, rs: seq<Request>)
    requires Run(c, events, rs)
    ensures OK(c, events, rs[|events|])
    decreases |events|
  {
    if events != [] {
      var n := |events| - 1;
      RunOK(c, events[..n], rs[..n + 1]);
      assert events == events[..n] + [events[n]];
      var r, e, r' := rs[n], events[n], rs[n + 1];
      assert Step(c, r, e, r');
      hide RepliesOK, CallsOK, FastOK, FinalizesOK, LateOK, EagerOK, Moves, Step, Run;
      var m := StepMoves(c, r, e, r');
      StepReplies(c, events[..n], r, e, r', m);
      StepCalls(c, r, e, r', m);
      StepFast(c, r, e, r', m);
      StepFinalizes(c, r, e, r', m);
      StepLate(c, r, e, r', m);
      StepEager(c, r, e, r');
    }
  }

  // ---- What the application can rely on ----

  /** Whatever arrives, in whatever order, the application is called back at most once, and exactly once before the request is gone. */
  lemma FinishesOnce(c: Client, events: seq<Event>, rs: seq<Request>)
    requires Run(c, events, rs)
    ensures |rs[|events|].calls| <= 1
    ensures !rs[|events|].pending ==> |rs[|events|].calls| == 1
  {
    RunOK(c, events, rs);
  }

  /** As long as nothing has been sent to be finalized, no view has enough replies to act upon. */
  lemma ActsOnQuorums(c: Client, events: seq<Event>, rs: seq<Request>, view: nat)
    requires Run(c, events, rs)
    requires var r := rs[|events|];
      |RepliesOf(r, view)| >= FastQuorumSize(c.f) || (r.onSlowPath && |RepliesOf(r, view)| >= QuorumSize(c.f))
    ensures rs[|events|].finalizes != [] || !rs[|events|].pending
  {
    RunOK(c, events, rs);
  }

  /** A result on the fast path was reported, identically and in one view, by at least a fast quorum of replicas. */
  lemma FastResultIsBacked(c: Client, events: seq<Event>, rs: seq<Request>) returns (view: nat, quorum: set<nat>)
    requires Run(c, events, rs) && rs[|events|].invoked
    ensures |rs[|events|].calls| == 1 && rs[|events|].calls[0].Continue?
    ensures |quorum| >= FastQuorumSize(c.f)
    ensures forall k :: k in quorum ==> HasReplied(events, view, k, rs[|events|].calls[0].result)
  {
    RunOK(c, events, rs);
    var r := rs[|events|];
    view :| Unanimous(c, RepliesOf(r, view), r.calls[0].result);
    UnanimousMatches(c, RepliesOf(r, view), r.calls[0].result);
    quorum := Backing(RepliesOf(r, view), r.calls[0].result);
    forall k | k in quorum ensures HasReplied(events, view, k, r.calls[0].result) {
      assert HasReplied(events, view, k, r.replies[view][k]);
    }
  }

  /**
   A fast return leaves the transition timer running. Every Finalize message carries the
   result that the application was given, if and only if the timer has not fired since, or
   the application decides for that result again, on the first quorum of recorded replies:
   that of the returning view, where every reply reported the result, or of an earlier view.
   */
  lemma FinalizesAgree(c: Client, events: seq<Event>, rs: seq<Request>) returns (v: nat, view: nat)
    requires Run(c, events, rs) && rs[|events|].invoked
    ensures |rs[|events|].calls| == 1 && rs[|events|].calls[0].Continue?
    ensures FirstQuorum(c, rs[|events|], v) && v <= view
    ensures Unanimous(c, RepliesOf(rs[|events|], view), rs[|events|].calls[0].result)
    ensures var r := rs[|events|];
      (forall x :: x in r.finalizes ==> x == r.calls[0].result) <==>
        r.timer || c.decide(Tally(RepliesOf(r, v))) == r.calls[0].result
  {
    RunOK(c, events, rs);
    var r := rs[|events|];
    view :| Unanimous(c, RepliesOf(r, view), r.calls[0].result);
    UnanimousMatches(c, RepliesOf(r, view), r.calls[0].result);
    SomeFirstQuorum(c, r, view);
    v :| FirstQuorum(c, r, v);
    if !r.timer {
      v :| DecidedOn(c, r, v);
    }
  }

  /** An application that decides for a result which all replies report. */
  ghost predicate Sensible(c: Client) {
    forall result :: c.decide(map[result := FastQuorumSize(c.f)]) == result
  }

  /**
   With such an application, the Finalize messages disagree with what it was given exactly if the
   timer has fired since, a view before the returning one had a quorum of replies already, and
   the application decided on those for something else.
   */
  lemma DisagreesOnEarlierView(c: Client, events: seq<Event>, rs: seq<Request>) returns (v: nat, view: nat)
    requires Run(c, events, rs) && rs[|events|].invoked && Sensible(c)
    ensures |rs[|events|].calls| == 1 && rs[|events|].calls[0].Continue?
    ensures FirstQuorum(c, rs[|events|], v)
    ensures Unanimous(c, RepliesOf(rs[|events|], view), rs[|events|].calls[0].result)
    ensures var r := rs[|events|];
      (exists x :: x in r.finalizes && x != r.calls[0].result) <==>
        !r.timer && v < view && c.decide(Tally(RepliesOf(r, v))) != r.calls[0].result
  {
    v, view := FinalizesAgree(c, events, rs);
    hide Run, Tally, FirstQuorum, Unanimous;
    var r := rs[|events|];
    UnanimousMatches(c, RepliesOf(r, view), r.calls[0].result);
    assert c.decide(map[r.calls[0].result := FastQuorumSize(c.f)]) == r.calls[0].result;
  }

  // ---- Who has confirmed ----

  ghost predicate HasConfirmed(events: seq<Event>, view: nat, k: nat) {
    exists i :: 0 <= i < |events| && events[i] == Confirm(view, k)
  }

  /** A quorum of the 2f + 1 replicas has confirmed in `view`. */
  ghost predicate ConfirmedByQuorum(c: Client, events: seq<Event>, view: nat) {
    exists quorum :: |quorum| >= c.f + 1 && AllConfirmed(events, view, quorum)
  }

  ghost predicate AllConfirmed(events: seq<Event>, view: nat, quorum: set<nat>) {
    forall k :: k in quorum ==> HasConfirmed(events, view, k)
  }

  /** What the application is told when confirmations end a request: the result, if they are of the view it was decided in. */
  function OnConfirmation(r: Request, view: nat): Call {
    if view == r.decidedView then Continue(r.decided) else MismatchedViews
  }

  ghost predicate EndedBy(c: Client, events: seq<Event>, r: Request, view: nat) {
    ConfirmedByQuorum(c, events, view) && (!r.invoked ==> r.calls == [OnConfirmation(r, view)])
  }

  /** The request has exactly the confirmations that have arrived. */
  ghost predicate Recorded(events: seq<Event>, confirms: map<nat, set<nat>>) {
    forall v, k :: HasConfirmed(events, v, k) <==> v in confirms && k in confirms[v]
  }

  /** Up to the end all confirmations are kept, and are too few. */
  ghost predicate ConfirmsOK(c: Client, events: seq<Event>, r: Request) {
    && (r.pending ==> Recorded(events, r.confirms))
    && (r.pending ==> forall v :: v in r.confirms ==> |r.confirms[v]| < c.f + 1)
    && (!r.pending ==> exists view :: EndedBy(c, events, r, view))
  }

  lemma ConfirmedLonger(events: seq<Event>, e: Event, v: nat, k: nat)
    ensures HasConfirmed(events + [e], v, k) <==> HasConfirmed(events, v, k) || e == Confirm(v, k)
  {
    var more := events + [e];
    assert more[|events|] == e && forall i :: 0 <= i < |events| ==> more[i] == events[i];
    if i :| 0 <= i < |events| && events[i] == Confirm(v, k) { assert more[i] == Confirm(v, k); }
  }

  /** Nothing but a confirmation touches the confirmations, and nothing at all a request that is over. */
  lemma OnlyConfirms(c: Client, r: Request, e: Event, r': Request)
    requires CallsOK(r) && Step(c, r, e, r')
    ensures !r.pending ==> r' == r
    ensures !e.Confirm? ==> r'.confirms == r.confirms && r'.pending == r.pending
  {
    hide Tally, Matches, RepliesOf;
  }

  lemma LateConfirms(c: Client, events: seq<Event>, r: Request, e: Event)
    requires ConfirmsOK(c, events, r) && !r.pending
    ensures ConfirmsOK(c, events + [e], r)
  {
    hide HasConfirmed;
    var view :| EndedBy(c, events, r, view);
    var quorum :| |quorum| >= c.f + 1 && AllConfirmed(events, view, quorum);
    forall k | k in quorum ensures HasConfirmed(events + [e], view, k) { ConfirmedLonger(events, e, view, k); }
    assert AllConfirmed(events + [e], view, quorum);
    assert EndedBy(c, events + [e], r, view);
  }

  lemma OneRecorded(events: seq<Event>, e: Event, confirms: map<nat, set<nat>>, froms: set<nat>)
    requires Recorded(events, confirms) && e.Confirm?
    requires froms == (if e.view in confirms then confirms[e.view] else {}) + {e.from}
    ensures Recorded(events + [e], confirms[e.view := froms])
  {
    hide HasConfirmed;
    forall v, k ensures HasConfirmed(events + [e], v, k) <==> HasConfirmed(events, v, k) || e == Confirm(v, k) {
      ConfirmedLonger(events, e, v, k);
    }
  }

  lemma RecordedQuorum(c: Client, events: seq<Event>, confirms: map<nat, set<nat>>, view: nat)
    requires Recorded(events, confirms) && view in confirms && |confirms[view]| >= c.f + 1
    ensures ConfirmedByQuorum(c, events, view)
  {
    assert AllConfirmed(events, view, confirms[view]);
  }

  lemma OneConfirms(c: Client, events: seq<Event>, r: Request, e: Event)
    requires CallsOK(r) && ConfirmsOK(c, events, r) && r.pending && e.Confirm?
    ensures ConfirmsOK(c, events + [e], Confirmed(c, r, e))
  {
    hide HasConfirmed, Recorded, ConfirmedByQuorum;
    var r', froms := Confirmed(c, r, e), (if e.view in r.confirms then r.confirms[e.view] else {}) + {e.from};
    assert r'.confirms == r.confirms[e.view := froms];
    OneRecorded(events, e, r.confirms, froms);
    if !r'.pending {
      RecordedQuorum(c, events + [e], r'.confirms, e.view);
      assert EndedBy(c, events + [e], r', e.view);
    }
  }

  lemma StepConfirms(c: Client, events: seq<Event>, r: Request, e: Event, r': Request)
    requires CallsOK(r) && ConfirmsOK(c, events, r) && Step(c, r, e, r')
    ensures ConfirmsOK(c, events + [e], r')
  {
    hide Tally, Matches, RepliesOf, HasConfirmed, EndedBy, CallsOK, Confirmed, Replied, TimerFired;
    OnlyConfirms(c, r, e, r');
    if !r.pending {
      LateConfirms(c, events, r, e);
    } else if e.Confirm? {
      OneConfirms(c, events, r, e);
    } else {
      forall v, k ensures HasConfirmed(events + [e], v, k) <==> HasConfirmed(events, v, k) { ConfirmedLonger(events, e, v, k); }
    }
  }

  /** A run up to its last event, and that event. */
  lemma LastStep(c: Client, events: seq<Event>, rs: seq<Request>)
    requires Run(c, events, rs) && events != []
    ensures var n := |events| - 1;
      && Run(c, events[..n], rs[..n + 1]) && rs[..n + 1][n] == rs[n] && events == events[..n] + [events[n]]
      && CallsOK(rs[n]) && Step(c, rs[n], events[n], rs[n + 1])
  {
    var n := |events| - 1;
    assert Step(c, rs[n], events[n], rs[n + 1]);
    hide Step;
    RunOK(c, events[..n], rs[..n + 1]);
    hide CallsOK;
  }

  lemma {:induction false} RunConfirms(c: Client, events: seq<Event>, rs: seq<Request>)
    requires Run(c, events, rs)
    ensures ConfirmsOK(c, events, rs[|events|])
    decreases |events|
  {
    hide Step, CallsOK;
    if events != [] {
      hide Run, ConfirmsOK;
      var n := |events| - 1;
      LastStep(c, events, rs);
      RunConfirms(c, events[..n], rs[..n + 1]);
      StepConfirms(c, events[..n], rs[n], events[n], rs[n + 1]);
    }
  }

  /** The request is over exactly when f + 1 replicas have confirmed in one view. */
  lemma EndsExactly(c: Client, events: seq<Event>, rs: seq<Request>)
    requires Run(c, events, rs)
    ensures !rs[|events|].pending <==> exists view :: ConfirmedByQuorum(c, events, view)
  {
    RunConfirms(c, events, rs);
    var r := rs[|events|];
    hide Run, HasConfirmed;
    if r.pending {
      if view :| ConfirmedByQuorum(c, events, view) {
        var quorum :| |quorum| >= c.f + 1 && AllConfirmed(events, view, quorum);
        var k :| k in quorum;
        SubsetSize(quorum, r.confirms[view]);
      }
    }
  }

  // ---- What has been decided ----

  /** Some replica has reported the result as final in that view. */
  ghost predicate HasFinalized(events: seq<Event>, view: nat, result: string) {
    exists i :: 0 <= i < |events| && FinalReply(events[i], view, result)
  }

  predicate FinalReply(e: Event, view: nat, result: string) { e.Reply? && e.finalized && e.view == view && e.result == result }

  /** On the slow path the result is final already, or what the application has made of a quorum of replies of one view. */
  ghost predicate SlowOK(c: Client, events: seq<Event>, r: Request) {
    r.sentConfirms && !r.invoked ==>
      || HasFinalized(events, r.decidedView, r.decided)
      || (|RepliesOf(r, r.decidedView)| >= c.f + 1 && r.decided == c.decide(Tally(RepliesOf(r, r.decidedView))))
  }

  lemma FinalizedLonger(events: seq<Event>, e: Event, view: nat, result: string)
    ensures HasFinalized(events, view, result) ==> HasFinalized(events + [e], view, result)
    ensures FinalReply(e, view, result) ==> HasFinalized(events + [e], view, result)
  {
    var more := events + [e];
    assert more[|events|] == e && forall i :: 0 <= i < |events| ==> more[i] == events[i];
    if i :| 0 <= i < |events| && FinalReply(events[i], view, result) {
      assert more[i] == events[i];
    }
  }

  lemma ReplySlow(c: Client, events: seq<Event>, r: Request, e: Event, r': Request)
    requires CallsOK(r) && SlowOK(c, events, r) && e.Reply? && Replied(c, r, e, r')
    ensures SlowOK(c, events + [e], r')
  {
    hide Tally, Matches, HasFinalized;
    FinalizedLonger(events, e, r'.decidedView, r'.decided);
  }

  lemma StepSlow(c: Client, events: seq<Event>, r: Request, e: Event, r': Request)
    requires CallsOK(r) && SlowOK(c, events, r) && Step(c, r, e, r')
    ensures SlowOK(c, events + [e], r')
  {
    hide Tally, Matches, HasFinalized, Replied;
    if e.Reply? {
      hide TimerFired, Confirmed, SlowOK;
      ReplySlow(c, events, r, e, r');
    } else {
      FinalizedLonger(events, e, r'.decidedView, r'.decided);
    }
  }

  lemma {:induction false} RunSlow(c: Client, events: seq<Event>, rs: seq<Request>)
    requires Run(c, events, rs)
    ensures SlowOK(c, events, rs[|events|])
    decreases |events|
  {
    hide Step, CallsOK;
    if events != [] {
      hide Run, SlowOK;
      var n := |events| - 1;
      LastStep(c, events, rs);
      RunSlow(c, events[..n], rs[..n + 1]);
      StepSlow(c, events[..n], rs[n], events[n], rs[n + 1]);
    }
  }

  /**
   When a request is over, f + 1 replicas have confirmed in one view. Unless the application has had the
   result of a fast quorum before, it is then told the decided result, or of an error if it was decided in
   another view; and the decided result was reported as final, or is the application's own choice among the
   replies of a quorum, in the view it was decided in.
   */
  lemma SlowResultIsConfirmed(c: Client, events: seq<Event>, rs: seq<Request>) returns (view: nat, quorum: set<nat>)
    requires Run(c, events, rs) && !rs[|events|].pending
    ensures |quorum| >= c.f + 1 && AllConfirmed(events, view, quorum)
    ensures !rs[|events|].invoked ==> rs[|events|].calls == [OnConfirmation(rs[|events|], view)]
    ensures SlowOK(c, events, rs[|events|])
  {
    RunConfirms(c, events, rs);
    RunSlow(c, events, rs);
    hide Run, HasConfirmed, SlowOK;
    view :| EndedBy(c, events, rs[|events|], view);
    quorum :| |quorum| >= c.f + 1 && AllConfirmed(events, view, quorum);
  }

  // ---- Resending ----

  /** What was last sent to be finalized is what is decided. */
  ghost predicate LastOK(r: Request) {
    && (r.sentConfirms <==> r.finalizes != [])
    && (r.sentConfirms ==> r.finalizes[|r.finalizes| - 1] == r.decided)
  }

  lemma StepLast(c: Client, r: Request, e: Event, r': Request)
    requires CallsOK(r) && LastOK(r) && Step(c, r, e, r')
    ensures LastOK(r')
  {
    hide Tally, Matches, RepliesOf;
  }

  lemma {:induction false} RunLast(c: Client, events: seq<Event>, rs: seq<Request>)
    requires Run(c, events, rs)
    ensures LastOK(rs[|events|])
    decreases |events|
  {
    hide Step, CallsOK;
    if events != [] {
      hide Run, LastOK;
      var n := |events| - 1;
      LastStep(c, events, rs);
      RunLast(c, events[..n], rs[..n + 1]);
      StepLast(c, rs[n], events[n], rs[n + 1]);
    }
  }

  /**
   When the resend timer fires, the client sends again what it last sent to be finalized, if it has sent
   anything, and f + 1 replicas have not confirmed in one view yet. Nothing else changes.
   */
  lemma ResendsUntilConfirmed(c: Client, events: seq<Event>, rs: seq<Request>)
    requires events != [] && events[|events| - 1] == ResendTimer && Run(c, events, rs)
    ensures var n := |events| - 1; var sent := rs[n].finalizes;
      rs[n + 1] == rs[n].(finalizes := sent +
        if sent != [] && !exists view :: ConfirmedByQuorum(c, events[..n], view) then [sent[|sent| - 1]] else [])
  {
    var n := |events| - 1;
    assert |rs| == |events| + 1;
    hide Run, ConfirmedByQuorum;
    LastStep(c, events, rs);
    EndsExactly(c, events[..n], rs[..n + 1]);
    RunLast(c, events[..n], rs[..n + 1]);
    assert rs[n].finalizes + [] == rs[n].finalizes;
  }

  // ---- A late decision ----

  /** Decides for "a" if anybody has reported it: any preference or tie-break will do. */
  const FICKLE := Client(1, (counts: map<string, nat>) => if "a" in counts then "a" else "b")

  /** Two replicas report "a" in view 0 and all three report "b" in view 1; then the timer fires. */
  const LATE: seq<Event> := [
    Reply(0, 0, "a", false), Reply(0, 1, "a", false),
    Reply(1, 0, "b", false), Reply(1, 1, "b", false), Reply(1, 2, "b", false),
    TransitionTimer]

  const ZERO1 := NEW.(replies := map[0 := map[0 := "a"]])
  const ZERO2 := NEW.(replies := map[0 := map[0 := "a", 1 := "a"]])
  const ONE1 := ZERO2.(replies := map[0 := map[0 := "a", 1 := "a"], 1 := map[0 := "b"]])
  const ONE2 := ZERO2.(replies := map[0 := map[0 := "a", 1 := "a"], 1 := map[0 := "b", 1 := "b"]])
  const ONE3 := ZERO2.(replies := map[0 := map[0 := "a", 1 := "a"], 1 := map[0 := "b", 1 := "b", 2 := "b"]])
  const RETURNED := FastReturn(ONE3, "b")
  const REDECIDED := SlowPath(FICKLE, Slowed(RETURNED), 0, false)

  lemma FastReturnStep()
    ensures Step(FICKLE, ONE2, LATE[4], RETURNED)
  {
    var e := Reply(1, 2, "b", false);
    assert LATE[4] == e;
    var msgs := RepliesOf(ONE2, 1)[2 := "b"];
    assert msgs == map[0 := "b", 1 := "b", 2 := "b"];
    assert Backing(msgs, "b") == {0, 1, 2};
    assert |msgs.Keys| == |{0, 1, 2}|;
    assert Matches(FICKLE, msgs, "b");
    assert ONE2.replies[1 := msgs] == ONE3.replies;
  }

  lemma RedecisionStep()
    ensures Step(FICKLE, RETURNED, TransitionTimer, REDECIDED)
    ensures REDECIDED.decided == "a"
  {
    var msgs := RepliesOf(Slowed(RETURNED), 0);
    assert msgs == map[0 := "a", 1 := "a"];
    assert |msgs.Keys| == |{0, 1}|;
    assert msgs[0] in msgs.Values;
    assert FirstQuorum(FICKLE, Slowed(RETURNED), 0);
  }

  /** The application was told "b", and a Finalize message says "a". */
  lemma LateDecisionDisagrees() returns (rs: seq<Request>)
    ensures Run(FICKLE, LATE, rs)
    ensures rs[6].calls == [Continue("b")] && "a" in rs[6].finalizes
  {
    rs := [NEW, ZERO1, ZERO2, ONE1, ONE2, RETURNED, REDECIDED];
    FirstReplies();
    FastReturnStep();
    RedecisionStep();
    hide Step, SlowPath, FastReturn;
    assert forall i :: 0 <= i < 6 ==> Step(FICKLE, rs[i], LATE[i], rs[i + 1]);
    LateOutcome();
  }

  lemma FirstReplies()
    ensures Step(FICKLE, NEW, LATE[0], ZERO1) && Step(FICKLE, ZERO1, LATE[1], ZERO2)
    ensures Step(FICKLE, ZERO2, LATE[2], ONE1) && Step(FICKLE, ONE1, LATE[3], ONE2)
  {
    assert |map[0 := "a"].Keys| == |{0}| && |map[0 := "b"].Keys| == |{0}|;
    assert map[0 := "a"][1 := "a"] == map[0 := "a", 1 := "a"];
    assert map[0 := "b"][1 := "b"] == map[0 := "b", 1 := "b"];
    assert |map[0 := "a", 1 := "a"].Keys| == |{0, 1}| && |map[0 := "b", 1 := "b"].Keys| == |{0, 1}|;
  }

  lemma LateOutcome()
    ensures REDECIDED.calls == [Continue("b")] && "a" in REDECIDED.finalizes
  {
    RedecisionStep();
    hide Step;
  }
}
