/**
 What every reachable state of the group satisfies, and why it is stable when
 the history grows.
 */
module VrInvariant {
  import opened Quorums
  import opened VrTypes
  import opened VrLog
  import opened VrReplica
  import opened VrProtocol

  type Elections = map<nat, Election>

  // ---- Logs ----

  /** The log up to entry `i` is a prefix of the log of the view that entry is stamped with. */
  ghost predicate EntryOK(es: Elections, log: Log, i: nat)
    requires i < |log|
  {
    log[i].view in es && log[..i + 1] <= es[log[i].view].cur
  }

  ghost predicate LogOK(es: Elections, log: Log) {
    forall i :: 0 <= i < |log| ==> EntryOK(es, log, i)
  }

  ghost predicate Below(log: Log, view: nat) {
    forall i :: 0 <= i < |log| ==> log[i].view < view
  }

  /** Opnum `i` of view `v` was appended in `v` itself. */
  ghost predicate InView(es: Elections, v: nat, i: nat) {
    v in es && 1 <= i <= |es[v].cur| && es[v].cur[i - 1].view == v
  }

  /** `log` contains the first `i` entries of view `v`. */
  ghost predicate Has(es: Elections, v: nat, i: nat, log: Log) {
    v in es && i <= |es[v].cur| && es[v].cur[..i] <= log
  }

  function Held(h: History, v: nat, k: nat): nat {
    if (v, k) in h.held then h.held[(v, k)] else 0
  }

  /** Some view after the log's last one, and before `w`, started from an empty log. */
  ghost predicate Stale(es: Elections, log: Log, w: nat) {
    exists u :: u in es && LastView(log) < u < w && es[u].base == []
  }

  /** Some view between `v` and `w` started without the first `i` entries of view `v`. */
  ghost predicate Lost(es: Elections, v: nat, i: nat, w: nat) {
    exists u :: u in es && v < u < w && !Has(es, v, i, es[u].base)
  }

  /** The opnum offered with a log is its length, except for a log left over from before an empty view. */
  ghost predicate OpOK(es: Elections, log: Log, op: nat, w: nat) {
    op == |log| || (op == 0 && Stale(es, log, w))
  }

  /** What replica `k` held in earlier views is in its vote, unless a later view had already dropped it. */
  ghost predicate Remembers(h: History, w: nat, k: nat, vote: Vote) {
    forall v: nat, i: nat :: v < w && 1 <= i <= Held(h, v, k) && InView(h.elections, v, i) ==>
      (Has(h.elections, v, i, vote.log) && vote.lastOp == |vote.log|) || Lost(h.elections, v, i, w)
  }

  ghost predicate VoteOK(h: History, w: nat, k: nat, vote: Vote) {
    && LogOK(h.elections, vote.log)
    && Below(vote.log, w)
    && OpOK(h.elections, vote.log, vote.lastOp, w)
    && Remembers(h, w, k, vote)
  }

  // ---- Commitment ----

  ghost function Holders(c: Config, h: History, v: nat, i: nat): set<nat> {
    set k | 0 <= k < c.N() && Held(h, v, k) >= i
  }

  /** A quorum has held opnum `i`, which was appended in view `v`, while in view `v`. */
  ghost predicate Chosen(c: Config, h: History, v: nat, i: nat) {
    InView(h.elections, v, i) && |Holders(c, h, v, i)| >= c.f + 1
  }

  /** `log` is a prefix of something chosen in a view below `b`. */
  ghost predicate Settled(c: Config, h: History, log: Log, b: nat) {
    log == [] || exists v: nat, i: nat :: v < b && Chosen(c, h, v, i) && log <= h.elections[v].cur[..i]
  }

  // ---- Elections, votes, replicas, messages ----

  predicate AtLeast(view: nat, op: nat, view': nat, op': nat) {
    !Newer(view', op', view, op)
  }

  ghost predicate ElectionOK(c: Config, h: History, v: nat)
    requires v in h.elections
  {
    var e := h.elections[v];
    && e.base <= e.cur
    && Below(e.base, v)
    && OpOK(h.elections, e.base, e.op, v)
    && e.op <= Held(h, v, c.Leader(v))
    && LogOK(h.elections, e.cur)
    && (forall j :: |e.base| <= j < |e.cur| ==> e.cur[j].view == v)
    && (v == 0 ==> e.base == [])
    && (v > 0 ==> |e.votes| >= c.f + 1)
    && (forall k :: k in e.votes ==>
          && k < c.N()
          && VoteOK(h, v, k, e.votes[k])
          && AtLeast(LastView(e.base), e.op, LastView(e.votes[k].log), e.votes[k].lastOp))
  }

  ghost predicate ElectionsOK(c: Config, h: History) {
    0 in h.elections && forall v :: v in h.elections ==> ElectionOK(c, h, v)
  }

  ghost predicate HeldOK(c: Config, h: History) {
    forall v: nat, k: nat :: Held(h, v, k) > 0 ==>
      v in h.elections && k < c.N() && Held(h, v, k) <= Held(h, v, c.Leader(v)) <= |h.elections[v].cur|
  }

  /** A vote was cast by a replica that has reached its view, and its committed part is settled. */
  ghost predicate CastOK(c: Config, s: State, w: nat, k: nat, vote: Vote) {
    && k < |s.reps| && w <= s.reps[k].view
    && VoteOK(s.hist, w, k, vote)
    && vote.committed <= vote.lastOp <= |vote.log|
    && Settled(c, s.hist, vote.log[..vote.committed], w)
  }

  /** The replicas whose votes a view counted have reached that view. */
  ghost predicate VotersOK(s: State, v: nat)
    requires v in s.hist.elections
  {
    forall k :: k in s.hist.elections[v].votes ==> k < |s.reps| && v <= s.reps[k].view
  }

  ghost predicate VotesOK(c: Config, s: State) {
    && (forall w: nat, k: nat :: (w, k) in s.hist.votes ==> CastOK(c, s, w, k, s.hist.votes[(w, k)]))
    && (forall v :: v in s.hist.elections ==> VotersOK(s, v))
  }

  /** The first view a replica has not been in yet. */
  function Bound(r: Replica): nat { if r.normal then r.view + 1 else r.view }

  ghost predicate CollectedOK(s: State, r: Replica, me: nat) {
    && (forall key, k :: key in r.okVotes && k in r.okVotes[key] ==> PrepareOK(key.0, key.1, k) in s.msgs)
    && (forall w, k :: w in r.dvcVotes && k in r.dvcVotes[w] ==>
          var m := r.dvcVotes[w][k];
          m in s.msgs && m.DoViewChange? && m.view == w && m.from == k)
  }

  ghost predicate NormalOK(c: Config, h: History, me: nat, r: Replica)
    requires r.normal
  {
    && r.view in h.elections
    && Held(h, r.view, me) == r.lastOp
    && (c.Leader(r.view) == me ==> r.log == h.elections[r.view].cur)
    && (r.lastOp == |r.log| ==> r.log <= h.elections[r.view].cur)
  }

  ghost predicate RepOK(c: Config, s: State, me: nat, r: Replica) {
    && r.committed <= r.lastOp <= |r.log|
    && r.executed == Requests(r.log[..r.committed])
    && VoteOK(s.hist, Bound(r), me, Vote(r.log, r.lastOp, r.committed))
    && Settled(c, s.hist, r.log[..r.committed], Bound(r))
    && (r.normal ==> NormalOK(c, s.hist, me, r))
    && (!r.normal ==> (r.view, me) in s.hist.votes && s.hist.votes[(r.view, me)] == Vote(r.log, r.lastOp, r.committed))
    && (forall v: nat :: Held(s.hist, v, me) > 0 ==> v < Bound(r))
    && (forall v :: v in s.hist.elections && c.Leader(v) == me ==> v < Bound(r))
    && CollectedOK(s, r, me)
  }

  ghost predicate SuffixOK(s: Suffix, log: Log, op: nat) {
    && 1 <= s.first <= |log| + 1
    && s.entries == log[s.first - 1..]
    && (s.entries == [] ==> log == [])
    && (op == 0 ==> s.first == 1)
  }

  ghost predicate MsgOK(c: Config, h: History, m: Message) {
    match m
    case Prepare(v, op, start, reqs) =>
      && v in h.elections && 1 <= start <= op <= Held(h, v, c.Leader(v)) <= |h.elections[v].cur| && |reqs| == op - start + 1
      && (forall j :: 0 <= j < |reqs| ==> h.elections[v].cur[start - 1 + j] == Entry(v, reqs[j]))
    case PrepareOK(v, i, k) => k < c.N() && k != c.Leader(v) && i <= Held(h, v, k)
    case Commit(v, i) =>
      v in h.elections && i <= |h.elections[v].cur| && Settled(c, h, h.elections[v].cur[..i], v + 1)
    case StartViewChange(_, _, _) => true
    case DoViewChange(w, lastNormal, lastOp, committed, k, suffix) =>
      && k < c.N() && k != c.Leader(w) && (w, k) in h.votes
      && var vote := h.votes[(w, k)];
         lastNormal == LastView(vote.log) && lastOp == vote.lastOp && committed == vote.committed &&
         SuffixOK(suffix, vote.log, lastOp)
    case StartView(v, op, committed, suffix) =>
      && v in h.elections
      && var e := h.elections[v];
         op == e.op && committed <= op <= |e.base| && Settled(c, h, e.base[..committed], v + 1) &&
         SuffixOK(suffix, e.base, op)
  }

  ghost predicate Inv(c: Config, s: State) {
    && |s.reps| == c.N()
    && ElectionsOK(c, s.hist)
    && HeldOK(c, s.hist)
    && VotesOK(c, s)
    && (forall k :: 0 <= k < |s.reps| ==> RepOK(c, s, k, s.reps[k]))
    && (forall m :: m in s.msgs ==> MsgOK(c, s.hist, m))
  }

  lemma InitOK(c: Config)
    ensures Inv(c, Init(c))
  {
    var s := Init(c);
    assert LogOK(s.hist.elections, []);
    forall k | 0 <= k < |s.reps| ensures RepOK(c, s, k, s.reps[k]) {
      assert s.reps[k] == FRESH;
      assert Requests([]) == [];
    }
  }

  // ---- Stability ----

  /** What a view started from and the votes stay, and the logs of views grow. */
  ghost predicate Later(h: History, h': History) {
    && (forall v :: v in h.elections ==> v in h'.elections)
    && (forall v :: v in h.elections ==>
          && h'.elections[v].base == h.elections[v].base
          && h'.elections[v].op == h.elections[v].op
          && h'.elections[v].votes == h.elections[v].votes
          && h.elections[v].cur <= h'.elections[v].cur)
    && (forall v: nat, k: nat :: Held(h, v, k) <= Held(h', v, k))
    && (forall key :: key in h.votes ==> key in h'.votes && h'.votes[key] == h.votes[key])
  }

  /** The same, and nobody but `me` in `view` holds more than before. */
  ghost predicate Grows(c: Config, h: History, h': History, me: nat, view: nat) {
    && Later(h, h')
    && (forall v: nat, k: nat :: (v, k) != (view, me) ==> Held(h', v, k) == Held(h, v, k))
  }

  lemma LogStable(es: Elections, es': Elections, log: Log)
    requires forall v :: v in es ==> v in es' && es[v].cur <= es'[v].cur
    requires LogOK(es, log)
    ensures LogOK(es', log)
  {
    forall i | 0 <= i < |log| ensures EntryOK(es', log, i) { assert EntryOK(es, log, i); }
  }

  lemma PrefixLogOK(es: Elections, log: Log, whole: Log)
    requires log <= whole && LogOK(es, whole)
    ensures LogOK(es, log)
  {
    forall i | 0 <= i < |log| ensures EntryOK(es, log, i) {
      assert EntryOK(es, whole, i);
      assert log[..i + 1] == whole[..i + 1];
    }
  }

  lemma HasStable(es: Elections, es': Elections, v: nat, i: nat, log: Log)
    requires v in es && v in es' && es[v].cur <= es'[v].cur
    requires i <= |es[v].cur|
    ensures Has(es', v, i, log) == Has(es, v, i, log)
  {
    assert es'[v].cur[..i] == es[v].cur[..i];
  }

  lemma StaleStable(h: History, h': History, log: Log, w: nat)
    requires Later(h, h') && Stale(h.elections, log, w)
    ensures Stale(h'.elections, log, w)
  {
    var u :| u in h.elections && LastView(log) < u < w && h.elections[u].base == [];
    assert u in h'.elections && h'.elections[u].base == [];
  }

  lemma LostStable(h: History, h': History, v: nat, i: nat, w: nat)
    requires Later(h, h') && Lost(h.elections, v, i, w)
    requires v in h.elections && i <= |h.elections[v].cur|
    ensures Lost(h'.elections, v, i, w)
  {
    var u :| u in h.elections && v < u < w && !Has(h.elections, v, i, h.elections[u].base);
    HasStable(h.elections, h'.elections, v, i, h.elections[u].base);
    assert u in h'.elections && !Has(h'.elections, v, i, h'.elections[u].base);
  }

  lemma VoteStable(c: Config, h: History, h': History, me: nat, view: nat, w: nat, k: nat, vote: Vote)
    requires Grows(c, h, h', me, view) && HeldOK(c, h) && VoteOK(h, w, k, vote)
    requires k == me ==> w <= view
    ensures VoteOK(h', w, k, vote)
  {
    LogStable(h.elections, h'.elections, vote.log);
    if vote.lastOp != |vote.log| { StaleStable(h, h', vote.log, w); }
    forall v: nat, i: nat | v < w && 1 <= i <= Held(h', v, k) && InView(h'.elections, v, i)
      ensures (Has(h'.elections, v, i, vote.log) && vote.lastOp == |vote.log|) || Lost(h'.elections, v, i, w)
    {
      assert Held(h', v, k) == Held(h, v, k);
      assert i <= |h.elections[v].cur| && InView(h.elections, v, i);
      HasStable(h.elections, h'.elections, v, i, vote.log);
      if !(Has(h.elections, v, i, vote.log) && vote.lastOp == |vote.log|) {
        LostStable(h, h', v, i, w);
      }
    }
  }

  lemma ChosenStable(c: Config, h: History, h': History, v: nat, i: nat)
    requires Later(h, h') && Chosen(c, h, v, i)
    ensures Chosen(c, h', v, i)
    ensures h'.elections[v].cur[..i] == h.elections[v].cur[..i]
  {
    assert Holders(c, h, v, i) <= Holders(c, h', v, i);
    SubsetSize(Holders(c, h, v, i), Holders(c, h', v, i));
  }

  lemma SettledStable(c: Config, h: History, h': History, log: Log, b: nat, b': nat)
    requires Later(h, h') && Settled(c, h, log, b) && b <= b'
    ensures Settled(c, h', log, b')
  {
    if log != [] {
      var v: nat, i: nat :| v < b && Chosen(c, h, v, i) && log <= h.elections[v].cur[..i];
      ChosenStable(c, h, h', v, i);
    }
  }

  lemma ElectionStable(c: Config, h: History, h': History, me: nat, view: nat, v: nat)
    requires Grows(c, h, h', me, view) && HeldOK(c, h)
    requires v in h.elections && ElectionOK(c, h, v) && h'.elections[v].cur == h.elections[v].cur
    requires me in h.elections[v].votes ==> v <= view
    ensures ElectionOK(c, h', v)
  {
    var e := h.elections[v];
    LogStable(h.elections, h'.elections, e.cur);
    if e.op != |e.base| { StaleStable(h, h', e.base, v); }
    forall k | k in e.votes ensures VoteOK(h', v, k, e.votes[k]) {
      VoteStable(c, h, h', me, view, v, k, e.votes[k]);
    }
  }

  lemma MsgStable(c: Config, h: History, h': History, me: nat, view: nat, m: Message)
    requires Grows(c, h, h', me, view) && MsgOK(c, h, m) && HeldOK(c, h')
    ensures MsgOK(c, h', m)
  {
    match m
    case Prepare(v, op, start, reqs) =>
    case PrepareOK(v, i, k) =>
    case Commit(v, i) =>
      assert h'.elections[v].cur[..i] == h.elections[v].cur[..i];
      SettledStable(c, h, h', h.elections[v].cur[..i], v + 1, v + 1);
    case StartViewChange(_, _, _) =>
    case DoViewChange(_, _, _, _, _, _) =>
    case StartView(v, op, committed, suffix) =>
      SettledStable(c, h, h', h.elections[v].base[..committed], v + 1, v + 1);
  }

  lemma RepStable(c: Config, s: State, s': State, me: nat, view: nat, k: nat)
    requires Grows(c, s.hist, s'.hist, me, view) && HeldOK(c, s.hist) && s.msgs <= s'.msgs
    requires k < |s.reps| && k != me && RepOK(c, s, k, s.reps[k])
    requires forall v :: v in s'.hist.elections && v !in s.hist.elections ==> c.Leader(v) == me
    requires forall v :: v in s.hist.elections && c.Leader(v) != me ==> s'.hist.elections[v].cur == s.hist.elections[v].cur
    ensures RepOK(c, s', k, s.reps[k])
  {
    var r := s.reps[k];
    VoteStable(c, s.hist, s'.hist, me, view, Bound(r), k, Vote(r.log, r.lastOp, r.committed));
    SettledStable(c, s.hist, s'.hist, r.log[..r.committed], Bound(r), Bound(r));
  }
}
