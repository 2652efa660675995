/**
 What is chosen in one view is in the log every later view starts from.
 Quorum intersection, and induction over the views in between.
 */
module VrSafety {
  import opened Quorums
  import opened VrTypes
  import opened VrLog
  import opened VrReplica
  import opened VrProtocol
  import opened VrInvariant

  /** An entry of a log carries at most the view of the last entry. */
  lemma LastViewIsMax(c: Config, h: History, log: Log, i: nat)
    requires ElectionsOK(c, h) && LogOK(h.elections, log) && i < |log|
    ensures log[i].view <= LastView(log)
  {
    var last := |log| - 1;
    assert EntryOK(h.elections, log, last);
    assert log[..last + 1] == log;
    var y := LastView(log);
    assert ElectionOK(c, h, y);
    assert log[i] == h.elections[y].cur[i];
  }

  /** A log whose last entry is of view `y` is a prefix of view `y`'s log, and longer than what `y` started from. */
  lemma PrefixOfLastView(c: Config, h: History, log: Log)
    requires ElectionsOK(c, h) && LogOK(h.elections, log) && log != []
    ensures LastView(log) in h.elections
    ensures log <= h.elections[LastView(log)].cur
    ensures |log| > |h.elections[LastView(log)].base|
  {
    var last := |log| - 1;
    assert EntryOK(h.elections, log, last);
    assert log[..last + 1] == log;
    var y := LastView(log);
    assert ElectionOK(c, h, y);
    var e := h.elections[y];
    assert forall j :: 0 <= j < |e.base| ==> e.base[j].view < y && e.cur[j] == e.base[j];
    assert e.cur[last].view == y;
  }

  /** The newest of a quorum of votes contains whatever was chosen before, if no view in between lost it. */
  lemma NewestVoteHasChosen(c: Config, h: History, v: nat, i: nat, w: nat, votes: map<nat, Vote>, log: Log, op: nat)
    requires ElectionsOK(c, h) && HeldOK(c, h)
    requires v < w && Chosen(c, h, v, i)
    requires |votes| >= c.f + 1
    requires forall k :: k in votes ==> k < c.N() && VoteOK(h, w, k, votes[k])
    requires forall k :: k in votes ==> AtLeast(LastView(log), op, LastView(votes[k].log), votes[k].lastOp)
    requires LogOK(h.elections, log) && Below(log, w) && OpOK(h.elections, log, op, w)
    requires forall u :: u in h.elections && v < u < w ==> Has(h.elections, v, i, h.elections[u].base)
    ensures Has(h.elections, v, i, log) && op == |log|
  {
    var es := h.elections;
    var k := QuorumsMeet(c.f, Holders(c, h, v, i), votes.Keys);
    var mine := votes[k];
    assert !Lost(es, v, i, w);
    assert Has(es, v, i, mine.log) && mine.lastOp == |mine.log|;
    assert mine.log[i - 1] == es[v].cur[i - 1];
    LastViewIsMax(c, h, mine.log, i - 1);
    NewerLogHasChosen(c, h, v, i, w, mine.log, log, op);
  }

  /** A log at least as new as one that contains what was chosen contains it too. */
  lemma NewerLogHasChosen(c: Config, h: History, v: nat, i: nat, w: nat, older: Log, log: Log, op: nat)
    requires ElectionsOK(c, h)
    requires InView(h.elections, v, i) && Has(h.elections, v, i, older) && v <= LastView(older)
    requires AtLeast(LastView(log), op, LastView(older), |older|)
    requires LogOK(h.elections, log) && Below(log, w) && OpOK(h.elections, log, op, w)
    requires forall u :: u in h.elections && v < u < w ==> Has(h.elections, v, i, h.elections[u].base)
    ensures Has(h.elections, v, i, log) && op == |log|
  {
    var es := h.elections;
    var y := LastView(log);
    NotStale(es, v, i, w, log, op);
    assert y >= v;
    assert |older| >= i;
    if log != [] {
      PrefixOfLastView(c, h, log);
      assert y < w by { assert log[|log| - 1].view < w; }
      assert y > v ==> Has(es, v, i, es[y].base);
      assert ElectionOK(c, h, y);
      LongEnough(es, v, i, y, older, log);
    }
  }

  lemma NotStale(es: Elections, v: nat, i: nat, w: nat, log: Log, op: nat)
    requires 1 <= i && v <= LastView(log) && OpOK(es, log, op, w)
    requires forall u :: u in es && v < u < w ==> Has(es, v, i, es[u].base)
    ensures op == |log|
  {
    forall u | u in es && LastView(log) < u < w ensures es[u].base != [] {
      assert Has(es, v, i, es[u].base);
    }
  }

  lemma LongEnough(es: Elections, v: nat, i: nat, y: nat, older: Log, log: Log)
    requires v in es && y in es && i <= |es[v].cur| && es[v].cur[..i] <= older
    requires v <= y && log <= es[y].cur && es[y].base <= es[y].cur && |log| > |es[y].base|
    requires y > v ==> Has(es, v, i, es[y].base)
    requires y == v ==> |log| >= |older|
    ensures Has(es, v, i, log)
  {
    var chosen := es[v].cur[..i];
    if y > v {
      assert chosen <= es[y].base;
      assert |chosen| == i;
    }
    assert chosen <= es[y].cur;
    assert i <= |log|;
  }

  /** Every later view starts from a log that contains what was chosen. */
  lemma {:induction false} ChosenSurvives(c: Config, h: History, v: nat, i: nat, w: nat)
    requires ElectionsOK(c, h) && HeldOK(c, h)
    requires Chosen(c, h, v, i) && v < w && w in h.elections
    ensures Has(h.elections, v, i, h.elections[w].base)
    ensures h.elections[w].op == |h.elections[w].base|
    decreases w
  {
    forall u | u in h.elections && v < u < w ensures Has(h.elections, v, i, h.elections[u].base) {
      ChosenSurvives(c, h, v, i, u);
    }
    assert ElectionOK(c, h, w);
    var e := h.elections[w];
    PrefixLogOK(h.elections, e.base, e.cur);
    NewestVoteHasChosen(c, h, v, i, w, e.votes, e.base, e.op);
  }

  /** The same for a quorum of votes for a view that has not started. */
  lemma CandidateHasChosen(c: Config, h: History, v: nat, i: nat, w: nat, votes: map<nat, Vote>, log: Log, op: nat)
    requires ElectionsOK(c, h) && HeldOK(c, h)
    requires v < w && Chosen(c, h, v, i)
    requires |votes| >= c.f + 1
    requires forall k :: k in votes ==> k < c.N() && VoteOK(h, w, k, votes[k])
    requires forall k :: k in votes ==> AtLeast(LastView(log), op, LastView(votes[k].log), votes[k].lastOp)
    requires LogOK(h.elections, log) && Below(log, w) && OpOK(h.elections, log, op, w)
    ensures Has(h.elections, v, i, log) && op == |log|
  {
    forall u | u in h.elections && v < u < w ensures Has(h.elections, v, i, h.elections[u].base) {
      ChosenSurvives(c, h, v, i, u);
    }
    NewestVoteHasChosen(c, h, v, i, w, votes, log, op);
  }

  /** What a replica has committed is in the log of every view it has not been in yet. */
  lemma SettledInBase(c: Config, h: History, log: Log, b: nat, w: nat)
    requires ElectionsOK(c, h) && HeldOK(c, h) && w in h.elections
    requires Settled(c, h, log, b) && b <= w
    ensures log <= h.elections[w].base
    ensures log != [] ==> h.elections[w].op == |h.elections[w].base|
  {
    if log != [] {
      var v: nat, i: nat :| v < b && Chosen(c, h, v, i) && log <= h.elections[v].cur[..i];
      ChosenSurvives(c, h, v, i, w);
    }
  }

  /** The same for a log that wins the votes for a view that has not started. */
  lemma SettledInCandidate(c: Config, h: History, settled: Log, b: nat, w: nat, votes: map<nat, Vote>, log: Log, op: nat)
    requires ElectionsOK(c, h) && HeldOK(c, h)
    requires Settled(c, h, settled, b) && b <= w
    requires |votes| >= c.f + 1
    requires forall k :: k in votes ==> k < c.N() && VoteOK(h, w, k, votes[k])
    requires forall k :: k in votes ==> AtLeast(LastView(log), op, LastView(votes[k].log), votes[k].lastOp)
    requires LogOK(h.elections, log) && Below(log, w) && OpOK(h.elections, log, op, w)
    ensures settled <= log
    ensures settled != [] ==> op == |log|
  {
    if settled != [] {
      var v: nat, i: nat :| v < b && Chosen(c, h, v, i) && settled <= h.elections[v].cur[..i];
      CandidateHasChosen(c, h, v, i, w, votes, log, op);
    }
  }

  /** Logs of reachable states match: equal views at one opnum mean equal logs up to it. */
  lemma LogsMatch(es: Elections, a: Log, b: Log)
    requires LogOK(es, a) && LogOK(es, b)
    ensures Matching(a, b)
  {
    forall i | 0 <= i < |a| && i < |b| && a[i].view == b[i].view ensures a[..i + 1] == b[..i + 1] {
      assert EntryOK(es, a, i) && EntryOK(es, b, i);
    }
  }
}
