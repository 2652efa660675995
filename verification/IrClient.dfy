/**
 The client of an IR consensus operation with the loops of the C++ code
 (src/replication/ir/client.cc:196-331, 459-556). Each handler is a step of `IrRequest`.
 */
module IrClient {
  import opened IrRequest
  import opened Quorums

  lemma BackingAdd(msgs: map<nat, string>, k: nat, result: string, other: string)
    requires k !in msgs
    ensures Backing(msgs[k := result], other) == Backing(msgs, other) + if other == result then {k} else {}
  {
  }

  lemma TallyAdd(msgs: map<nat, string>, k: nat, result: string)
    requires k !in msgs
    ensures Tally(msgs[k := result]) ==
      Tally(msgs)[result := (if result in Tally(msgs) then Tally(msgs)[result] else 0) + 1]
  {
    var more := msgs[k := result];
    if result !in Tally(msgs) { NobodyBacks(msgs, result); }
    assert more.Values == msgs.Values + {result} by {
      forall other ensures other in more.Values <==> other in msgs.Values + {result} {
        if other in msgs.Values {
          var l :| l in msgs && msgs[l] == other;
          assert more[l] == other;
        }
        assert more[k] == result;
      }
    }
    hide Backing;
    forall other ensures |Backing(more, other)| == |Backing(msgs, other)| + if other == result then 1 else 0 {
      BackingAdd(msgs, k, result, other);
      KNotBacking(msgs, k, other);
    }
  }

  lemma KNotBacking(msgs: map<nat, string>, k: nat, result: string)
    requires k !in msgs
    ensures k !in Backing(msgs, result)
  {
  }

  /** Counts the replies per result. */
  method CountResults(msgs: map<nat, string>) returns (counts: map<string, nat>)
    ensures counts == Tally(msgs)
  {
    counts := map[];
    var left := msgs.Keys;
    ghost var seen: map<nat, string> := map[];
    hide Tally;
    assert counts == Tally(seen) by { NothingTallied(); }
    while left != {}
      invariant left <= msgs.Keys && seen.Keys == msgs.Keys - left
      invariant forall k :: k in seen ==> seen[k] == msgs[k]
      invariant counts == Tally(seen)
    {
      var k :| k in left;
      var result := msgs[k];
      TallyAdd(seen, k, result);
      counts := counts[result := (if result in counts then counts[result] else 0) + 1];
      seen := seen[k := result];
      left := left - {k};
    }
    assert seen == msgs;
  }

  lemma NothingTallied()
    ensures Tally(map[]) == map[]
  {
  }

  class Consensus {
    const c: Client
    var replies: map<nat, map<nat, string>>
    var confirms: map<nat, set<nat>>
    var onSlowPath: bool
    var timer: bool
    var sentConfirms: bool
    var continuationInvoked: bool
    var decideResult: string
    var replyConsensusView: nat
    var pending: bool
    var calls: seq<Call>
    var finalizes: seq<string>

    function State(): Request
      reads this
    {
      Request(replies, confirms, onSlowPath, timer, sentConfirms, continuationInvoked, decideResult, replyConsensusView,
              pending, calls, finalizes)
    }

    constructor (c: Client)
      ensures this.c == c && State() == NEW
    {
      this.c := c;
      replies, confirms, onSlowPath, timer, sentConfirms, continuationInvoked := map[], map[], false, true, false, false;
      decideResult, replyConsensusView, pending, calls, finalizes := "", 0, true, [], [];
    }

    method HandleSlowPathConsensus(view: nat, msgs: map<nat, string>, finalizedResultFound: bool)
      requires msgs == RepliesOf(State(), view)
      modifies this
      ensures State() == SlowPath(c, old(State()), view, finalizedResultFound)
    {
      if !finalizedResultFound {
        var results := CountResults(msgs);
        decideResult := c.decide(results);
        replyConsensusView := view;
      }
      finalizes := finalizes + [decideResult];
      sentConfirms := true;
    }

    /** Looks for a result that a super quorum of the replies agrees on. */
    method FindMatch(msgs: map<nat, string>) returns (found: bool, result: string)
      ensures found ==> Matches(c, msgs, result)
      ensures !found ==> forall other :: !Matches(c, msgs, other)
    {
      var results := CountResults(msgs);
      var left := results.Keys;
      while left != {}
        invariant left <= results.Keys
        invariant forall other :: other in results && other !in left ==> results[other] < FastQuorumSize(c.f)
      {
        result :| result in left;
        if results[result] >= FastQuorumSize(c.f) { return true, result; }
        left := left - {result};
      }
      found, result := false, "";
      forall other ensures !Matches(c, msgs, other) {
        if other !in results { NobodyBacks(msgs, other); }
      }
    }

    /** With matching replies the application is called back; without, the slow path begins. */
    method HandleFastPathConsensus(view: nat, msgs: map<nat, string>)
      requires msgs == RepliesOf(State(), view)
      modifies this
      ensures if exists result :: Matches(c, msgs, result) then
                exists result :: Matches(c, msgs, result) && State() == FastReturn(old(State()), result)
              else State() == SlowPath(c, Slowed(old(State())), view, false)
    {
      hide SlowPath, Matches;
      var found, result := FindMatch(msgs);
      if found {
        decideResult := result;
        finalizes := finalizes + [result];
        sentConfirms := true;
        if !continuationInvoked {
          calls := calls + [Continue(result)];
          continuationInvoked := true;
        }
        assert State() == FastReturn(old(State()), result);
      } else {
        onSlowPath, timer := true, false;
        HandleSlowPathConsensus(view, msgs, false);
      }
    }

    method HandleConsensusReply(view: nat, from: nat, result: string, finalized: bool)
      modifies this
      ensures Step(c, old(State()), Reply(view, from, result, finalized), State())
    {
      hide SlowPath, FastReturn, Matches;
      if !pending || sentConfirms { return; }
      replies := replies[view := RepliesOf(State(), view)[from := result]];
      var msgs := replies[view];
      if finalized {
        onSlowPath, timer := true, false;
        decideResult, replyConsensusView := result, view;
        HandleSlowPathConsensus(view, msgs, true);
      } else if onSlowPath && |msgs| >= QuorumSize(c.f) {
        HandleSlowPathConsensus(view, msgs, false);
      } else if !onSlowPath && |msgs| >= FastQuorumSize(c.f) {
        HandleFastPathConsensus(view, msgs);
      }
    }

    /** QuorumSet::CheckForQuorum over all views, from the lowest; `limit` is above every view with replies. */
    method CheckForQuorum(limit: nat) returns (found: bool, view: nat)
      requires forall v :: v in replies ==> v < limit
      ensures found ==> FirstQuorum(c, State(), view)
      ensures !found ==> forall v: nat :: !FirstQuorum(c, State(), v)
    {
      view := 0;
      while view < limit
        invariant view <= limit
        invariant forall v: nat :: v < view ==> |RepliesOf(State(), v)| < QuorumSize(c.f)
      {
        if view in replies && |replies[view]| >= QuorumSize(c.f) { return true, view; }
        view := view + 1;
      }
      found := false;
      forall v: nat ensures |RepliesOf(State(), v)| < QuorumSize(c.f) {
        assert v >= limit ==> RepliesOf(State(), v) == map[];
      }
    }

    method TransitionToConsensusSlowPath(limit: nat)
      requires forall v :: v in replies ==> v < limit
      modifies this
      ensures Step(c, old(State()), TransitionTimer, State())
    {
      if !pending || !timer { return; }
      onSlowPath, timer := true, false;
      var found, view := CheckForQuorum(limit);
      hide SlowPath, FirstQuorum;
      if found { HandleSlowPathConsensus(view, RepliesOf(State(), view), false); }
    }

    method HandleConfirm(view: nat, from: nat)
      modifies this
      ensures Step(c, old(State()), Confirm(view, from), State())
    {
      if !pending { return; }
      confirms := confirms[view := (if view in confirms then confirms[view] else {}) + {from}];
      if |confirms[view]| < QuorumSize(c.f) { return; }
      pending := false;
      if !continuationInvoked {
        calls := calls + [if view == replyConsensusView then Continue(decideResult) else MismatchedViews];
      }
    }

    method ResendConfirmation()
      modifies this
      ensures Step(c, old(State()), ResendTimer, State())
    {
      if pending && sentConfirms { finalizes := finalizes + [decideResult]; }
    }
  }

  lemma NobodyBacks(msgs: map<nat, string>, result: string)
    requires result !in Tally(msgs)
    ensures Backing(msgs, result) == {}
  {
    forall k | k in msgs ensures msgs[k] != result { assert msgs[k] in msgs.Values; }
  }
}
