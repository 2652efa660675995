/**
 State transfer (src/replication/vr/replica.cc:230-255, 802-919): a replica that sees that it is
 behind asks the others for what follows its committed requests, and takes over what is sent.
 */
module VrTransfer {
  import opened VrTypes
  import opened VrTable
  import opened VrLog
  import opened VrReplica

  /** `from` and `to` stand for the addresses that the transport reports. */
  datatype TransferMessage =
    | RequestStateTransfer(view: nat, opnum: nat, from: nat)
    | StateTransfer(view: nat, opnum: nat, suffix: Suffix, to: nat)

  /** Whether the handler of `m` finds that the replica is behind, drops `m`, and asks for a state transfer. */
  predicate Lags(c: Config, me: nat, r: Replica, m: Message) {
    r.normal &&
    match m
    case Prepare(view, opnum, batchStart, reqs) =>
      view > r.view ||
      (view == r.view && c.Leader(view) != me && batchStart <= opnum && opnum - batchStart + 1 == |reqs| && batchStart > r.lastOp + 1)
    case PrepareOK(view, _, _) => view > r.view
    case Commit(view, opnum) => view > r.view || (view == r.view && c.Leader(view) != me && opnum > r.lastOp && opnum > r.committed)
    case StartViewChange(_, _, _) => false
    case DoViewChange(_, _, _, _, _, _) => false
    case StartView(_, _, _, _) => false
  }

  function Asking(me: nat, r: Replica): TransferMessage { RequestStateTransfer(r.view, r.committed, me) }

  function HandleRequestStateTransfer(me: nat, r: Replica, m: TransferMessage): set<TransferMessage>
    requires m.RequestStateTransfer?
  {
    if !r.normal then {}
    else if m.view > r.view then {Asking(me, r)}
    else {StateTransfer(r.view, r.committed, Dump(r.log, m.opnum + 1), m.from)}
  }

  /** A replica that has taken over received entries; `oldLastOp` is where its own uncommitted entries end. */
  datatype Taken = Taken(r: Replica, oldLastOp: nat) | Refused

  /**
   One received entry: committed ones are skipped; one that the log has in an older view replaces
   it and all that follows; a new one must be the next.
   */
  function Take(r: Replica, oldLastOp: nat, opnum: nat, e: Entry): Taken {
    if opnum <= r.committed then Taken(r, oldLastOp)
    else if opnum <= r.lastOp then
      if opnum > |r.log| || r.log[opnum - 1].view > e.view then Refused
      else if r.log[opnum - 1].view == e.view then Taken(r, oldLastOp)
      else Taken(r.(log := RemoveAfter(r.log, opnum) + [e], lastOp := opnum), opnum)
    else if opnum != r.lastOp + 1 || opnum != |r.log| + 1 then Refused
    else Taken(r.(log := r.log + [e], lastOp := opnum), oldLastOp)
  }

  function TakeAll(r: Replica, oldLastOp: nat, s: Suffix): Taken
    decreases |s.entries|
  {
    if s.entries == [] then Taken(r, oldLastOp)
    else
      match Take(r, oldLastOp, s.first, s.entries[0])
      case Refused => Refused
      case Taken(r1, old1) => TakeAll(r1, old1, Suffix(s.first + 1, s.entries[1..]))
  }

  /** A replica that is in an older view than the sender enters the sender's. */
  function CaughtUp(r: Replica, view: nat): Replica { if view > r.view then EnterView(r, view) else r }

  /** What the sender has committed must be there by then; the rest of what is new is acknowledged. */
  function HandleStateTransfer(c: Config, me: nat, r: Replica, m: TransferMessage): Outcome
    requires m.StateTransfer?
  {
    if m.view < r.view then Ok(r, {})
    else
      match TakeAll(r, r.lastOp, m.suffix)
      case Refused => Crash(r, {})
      case Taken(r1, from) =>
        var r2 := CaughtUp(r1, m.view);
        if m.opnum > r2.lastOp || (r2.committed < m.opnum && |r2.log| < m.opnum) then Crash(r, {})
        else SendPrepareOKs(me, CommitUpTo(c, r2, m.opnum), from)
  }

  // ---- When a replica asks ----

  /**
   A replica asks exactly when a message shows that it is behind: one of a later view, or a Prepare or
   Commit of its own view after which it still does not have the opnum. It drops the message then.
   */
  lemma AsksExactly(c: Config, me: nat, r: Replica, m: Message)
    requires r.normal && r.committed <= r.lastOp
    requires m.Prepare? ==> HandlePrepare(c, me, r, m).Ok?
    requires m.Commit? ==> HandleCommit(c, me, r, m).Ok?
    ensures m.Prepare? ==> (Lags(c, me, r, m) <==> m.view > r.view || (m.view == r.view && HandlePrepare(c, me, r, m).r.lastOp < m.opnum))
    ensures m.Commit? ==> (Lags(c, me, r, m) <==> m.view > r.view || (m.view == r.view && HandleCommit(c, me, r, m).r.lastOp < m.opnum))
    ensures m.PrepareOK? ==> (Lags(c, me, r, m) <==> m.view > r.view)
    ensures m.StartViewChange? || m.DoViewChange? || m.StartView? ==> !Lags(c, me, r, m)
    ensures m.Prepare? && Lags(c, me, r, m) ==> HandlePrepare(c, me, r, m) == Ok(r, {})
    ensures m.Commit? && Lags(c, me, r, m) ==> HandleCommit(c, me, r, m) == Ok(r, {})
  {
    hide UpdateAll, UpdatableAll, Stamped, RecordedAll, Requests;
  }

  /** The answer has everything after the opnum; a replica in an older view asks instead, and one that changes views keeps silent. */
  lemma AnswersExactly(me: nat, r: Replica, m: TransferMessage)
    requires m.RequestStateTransfer?
    ensures var out := HandleRequestStateTransfer(me, r, m);
      && (out == {} <==> !r.normal)
      && (r.normal && m.view > r.view ==> out == {RequestStateTransfer(r.view, r.committed, me)})
      && (r.normal && m.view <= r.view ==>
            (out == {StateTransfer(r.view, r.committed, Suffix(m.opnum + 1, if m.opnum < |r.log| then r.log[m.opnum..] else []), m.from)}))
  {
  }

  // ---- What taking over makes of a log ----

  /** How many of the received entries the log has already, from the first one on, by their views. */
  function Agreeing(log: Log, s: Suffix): (n: nat)
    requires s.first >= 1
    ensures n <= |s.entries| && s.first - 1 + n <= Max(s.first - 1, |log|)
    decreases |s.entries|
  {
    if s.entries == [] || s.first > |log| || log[s.first - 1].view != s.entries[0].view then 0
    else 1 + Agreeing(log, Suffix(s.first + 1, s.entries[1..]))
  }

  lemma {:induction false} TakesMore(r: Replica, from: nat, s: Suffix)
    requires r.committed <= r.lastOp == |r.log| && s.first == |r.log| + 1
    ensures TakeAll(r, from, s) == Taken(r.(log := r.log + s.entries, lastOp := |r.log| + |s.entries|), from)
    decreases |s.entries|
  {
    if s.entries == [] {
      assert r.log + [] == r.log;
    } else {
      var e, rest := s.entries[0], Suffix(s.first + 1, s.entries[1..]);
      TakesMore(r.(log := r.log + [e], lastOp := |r.log| + 1), from, rest);
      assert r.log + [e] + s.entries[1..] == r.log + s.entries;
    }
  }

  /** The committed part of the log is that of the sender. */
  predicate AgreesCommitted(r: Replica, s: Suffix)
    requires s.first >= 1 && r.committed <= |r.log|
  {
    forall i :: 0 <= i < |s.entries| && s.first + i <= r.committed ==> r.log[s.first - 1 + i].view == s.entries[i].view
  }

  /** What a view change does at once, and from where on the log is new. */
  function InstalledAtOnce(r: Replica, from: nat, s: Suffix): Taken
    requires 1 <= s.first <= |r.log| + 1
  {
    var n, log := Agreeing(r.log, s), Install(r.log, s);
    var differs := n < |s.entries| && s.first + n <= |r.log|;
    if differs && r.log[s.first - 1 + n].view > s.entries[n].view then Refused
    else Taken(r.(log := log, lastOp := |log|), if differs then s.first + n else from)
  }

  lemma InstallsRest(r: Replica, from: nat, s: Suffix)
    requires 1 <= s.first <= |r.log| && s.entries != [] && r.log[s.first - 1].view == s.entries[0].view
    ensures InstalledAtOnce(r, from, s) == InstalledAtOnce(r, from, Suffix(s.first + 1, s.entries[1..]))
  {
  }

  lemma InstallsNew(r: Replica, from: nat, s: Suffix)
    requires r.committed <= r.lastOp == |r.log| && 1 <= s.first <= |r.log| + 1 && s.entries != []
    requires s.first <= |r.log| ==> s.first > r.committed && r.log[s.first - 1].view != s.entries[0].view
    ensures TakeAll(r, from, s) == InstalledAtOnce(r, from, s)
  {
    if s.first > |r.log| {
      TakesMore(r, from, s);
      assert r.log[..s.first - 1] == r.log;
    } else if r.log[s.first - 1].view < s.entries[0].view {
      var e := s.entries[0];
      TakesMore(r.(log := RemoveAfter(r.log, s.first) + [e], lastOp := s.first), s.first, Suffix(s.first + 1, s.entries[1..]));
      assert RemoveAfter(r.log, s.first) + [e] + s.entries[1..] == r.log[..s.first - 1] + s.entries;
    }
  }

  /**
   Entry by entry, a state transfer comes to what a view change does at once: the log of Install. It is
   refused exactly if, at the first entry where the two differ, the own one is of a newer view; and
   acknowledged from the first entry that is replaced, or from the old last opnum on if none is.
   */
  lemma {:induction false} TakesAsInstall(r: Replica, from: nat, s: Suffix)
    requires r.committed <= r.lastOp == |r.log| && 1 <= s.first <= |r.log| + 1 && AgreesCommitted(r, s)
    ensures TakeAll(r, from, s) == InstalledAtOnce(r, from, s)
    decreases |s.entries|
  {
    if s.entries != [] {
      if s.first <= |r.log| && r.log[s.first - 1].view == s.entries[0].view {
        hide InstalledAtOnce, Agreeing, Install;
        var rest := Suffix(s.first + 1, s.entries[1..]);
        assert forall i :: 0 <= i < |rest.entries| ==> rest.entries[i] == s.entries[i + 1];
        InstallsRest(r, from, s);
        TakesAsInstall(r, from, rest);
      } else {
        hide InstalledAtOnce, Agreeing, Install, TakeAll;
        InstallsNew(r, from, s);
      }
    }
  }

  /**
   A transfer of an older view is dropped. Any other leaves the replica in the sender's view, with the log
   that taking over makes and with what the sender has committed executed.
   */
  lemma TakesOverExactly(c: Config, me: nat, r: Replica, m: TransferMessage)
    requires m.StateTransfer? && r.committed <= r.lastOp == |r.log|
    requires 1 <= m.suffix.first <= |r.log| + 1 && AgreesCommitted(r, m.suffix)
    ensures m.view < r.view ==> HandleStateTransfer(c, me, r, m) == Ok(r, {})
    ensures m.view >= r.view && (TakeAll(r, r.lastOp, m.suffix).Refused? || m.opnum > |Install(r.log, m.suffix)|) ==>
      HandleStateTransfer(c, me, r, m) == Crash(r, {})
    ensures m.view >= r.view && HandleStateTransfer(c, me, r, m).Ok? ==>
      var r' := HandleStateTransfer(c, me, r, m).r;
      && r'.view == m.view && (r'.normal <==> r.normal || m.view > r.view)
      && r'.log == Install(r.log, m.suffix) && r'.lastOp == |r'.log| && r'.committed == Max(r.committed, m.opnum)
  {
    hide TakeAll, Agreeing, Install, RecordedAll, Requests, UpdateAll, UpdatableAll;
    TakesAsInstall(r, r.lastOp, m.suffix);
  }
}
