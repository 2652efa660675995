/**
 The log of a replica as an object (src/replication/common/log.cc, log-impl.h): a vector
 of slots that carry their own opnum, which the methods search, truncate and extend.
 A failed assertion is reported as `!ok`.
 */
module VrLogStore {
  import opened VrTypes
  import VrLog

  datatype Slot = Slot(view: nat, opnum: nat, req: Request, committed: bool)
  datatype Found = Nowhere | At(slot: Slot)

  /** One step of VrLog.Install: an entry that the log has is skipped, at any other the log is cut. */
  lemma {:induction false} InstallSteps(log: Log, s: Suffix, it: nat)
    requires it <= |s.entries| && 1 <= s.first && s.first + it <= |log| + 1
    ensures VrLog.Install(log, Suffix(s.first + it, s.entries[it..])) ==
      if it == |s.entries| then log
      else if s.first + it <= |log| && log[s.first + it - 1].view == s.entries[it].view then
        VrLog.Install(log, Suffix(s.first + it + 1, s.entries[it + 1..]))
      else
        log[..s.first + it - 1] + s.entries[it..]
  {
    if it < |s.entries| { assert s.entries[it..][1..] == s.entries[it + 1..]; }
  }

  class LogStore {
    var entries: seq<Slot>

    /** Opnums are consecutive and start at 1, the value the replica constructs its log with. */
    ghost predicate Valid()
      reads this
    {
      forall i :: 0 <= i < |entries| ==> entries[i].opnum == i + 1
    }

    ghost function Contents(): (log: Log)
      reads this
      ensures |log| == |entries|
      ensures forall i :: 0 <= i < |entries| ==> log[i] == Entry(entries[i].view, entries[i].req)
    {
      seq(|entries|, i requires 0 <= i < |entries| reads this => Entry(entries[i].view, entries[i].req))
    }

    /** No entry after the first `n` is marked as committed. */
    ghost predicate Pending(n: nat)
      reads this
    {
      forall i :: n <= i < |entries| ==> !entries[i].committed
    }

    constructor ()
      ensures Valid() && Contents() == [] && Pending(0)
    {
      entries := [];
    }

    function LastOpnum(): (op: nat)
      reads this
      ensures Valid() ==> op == |Contents()|
    {
      if entries == [] then 0 else entries[|entries| - 1].opnum
    }

    function LastViewstampView(): (view: nat)
      reads this
      ensures view == LastView(Contents())
    {
      if entries == [] then 0 else entries[|entries| - 1].view
    }

    method Find(op: nat) returns (found: Found)
      requires Valid()
      ensures found.At? <==> 1 <= op <= |Contents()|
      ensures found.At? ==> found.slot == entries[op - 1] && found.slot.opnum == op
    {
      if entries == [] || op < 1 || op - 1 > |entries| - 1 { return Nowhere; }
      return At(entries[op - 1]);
    }

    method Append(view: nat, op: nat, req: Request) returns (ok: bool)
      requires Valid()
      modifies this
      ensures Valid()
      ensures ok <==> op == |old(Contents())| + 1
      ensures Contents() == if ok then old(Contents()) + [Entry(view, req)] else old(Contents())
      ensures forall n :: old(Pending(n)) ==> Pending(n)
    {
      if op != LastOpnum() + 1 { return false; }
      entries := entries + [Slot(view, op, req, false)];
      return true;
    }

    method SetStatus(op: nat) returns (ok: bool)
      requires Valid()
      modifies this
      ensures Valid() && Contents() == old(Contents())
      ensures ok <==> 1 <= op <= |Contents()|
      ensures ok ==> entries == old(entries[op - 1 := entries[op - 1].(committed := true)])
      ensures forall n :: op <= n && old(Pending(n)) ==> Pending(n)
    {
      var found := Find(op);
      if found.Nowhere? { return false; }
      entries := entries[op - 1 := found.slot.(committed := true)];
      return true;
    }

    method RemoveAfter(op: nat) returns (ok: bool)
      requires Valid()
      modifies this
      ensures Valid()
      ensures ok <==> op >= 1
      ensures Contents() == if ok then VrLog.RemoveAfter(old(Contents()), op) else old(Contents())
      ensures forall n :: old(Pending(n)) ==> Pending(n)
    {
      if op > LastOpnum() { return op >= 1; }
      if op < 1 { return false; }        // the subtraction wraps, and the bound is asserted
      entries := entries[..op - 1];
      return true;
    }

    method Dump(from: nat) returns (s: Suffix)
      requires Valid()
      ensures s == VrLog.Dump(Contents(), from)
    {
      ghost var log := Contents();
      var first := if from < 1 then 1 else from;
      var i, dumped := first, [];
      while i <= LastOpnum()
        invariant first <= i && (first <= |log| ==> i <= |log| + 1) && (first > |log| ==> i == first)
        invariant |dumped| == i - first
        invariant forall j :: 0 <= j < |dumped| ==> dumped[j] == log[first - 1 + j]
        decreases |log| + 1 - i
      {
        var found := Find(i);
        dumped := dumped + [Entry(found.slot.view, found.slot.req)];
        i := i + 1;
      }
      s := Suffix(first, dumped);
    }

    /** Skips the received entries the log has, and drops the log from the first one it does not have. */
    method SkipToDivergence(s: Suffix) returns (it: nat)
      requires Valid()
      modifies this
      ensures Valid() && it <= |s.entries|
      ensures !(1 <= s.first <= |old(Contents())| + 1) ==> it == 0 && Contents() == old(Contents())
      ensures 1 <= s.first <= |old(Contents())| + 1 ==>
        VrLog.Install(old(Contents()), s) == Contents() + s.entries[it..]
      ensures 1 <= s.first <= |old(Contents())| + 1 && it < |s.entries| ==> |Contents()| == s.first + it - 1
      ensures forall n :: old(Pending(n)) ==> Pending(n)
    {
      ghost var log := Contents();
      hide VrLog.Install;
      it := 0;
      while it < |s.entries|
        invariant 0 <= it <= |s.entries| && Valid() && Contents() == log && entries == old(entries)
        invariant !(1 <= s.first <= |log| + 1) ==> it == 0
        invariant 1 <= s.first <= |log| + 1 ==> s.first + it <= |log| + 1
        invariant 1 <= s.first <= |log| + 1 ==>
          VrLog.Install(log, s) == VrLog.Install(log, Suffix(s.first + it, s.entries[it..]))
      {
        var found := Find(s.first + it);
        if 1 <= s.first && s.first + it <= |log| + 1 { InstallSteps(log, s, it); }
        if found.Nowhere? {
          return;
        }
        if found.slot.view != s.entries[it].view {
          var _ := RemoveAfter(s.first + it);
          return;
        }
        it := it + 1;
      }
      if 1 <= s.first && s.first + it <= |log| + 1 { InstallSteps(log, s, it); }
    }

    method AppendAll(first: nat, more: Log) returns (ok: bool)
      requires Valid()
      modifies this
      ensures Valid()
      ensures ok <==> more == [] || first == |old(Contents())| + 1
      ensures ok ==> Contents() == old(Contents()) + more
      ensures forall n :: old(Pending(n)) ==> Pending(n)
    {
      var i := 0;
      while i < |more|
        invariant 0 <= i <= |more| && Valid()
        invariant Contents() == old(Contents()) + more[..i]
        invariant forall n :: old(Pending(n)) ==> Pending(n)
        invariant i > 0 ==> first == |old(Contents())| + 1
      {
        ok := Append(more[i].view, first + i, more[i].req);
        if !ok { return; }
        i := i + 1;
      }
      ok := true;
    }

    /** Finds the first received entry that the log does not have, drops the log from there, and appends the rest. */
    method Install(s: Suffix) returns (ok: bool)
      requires Valid()
      modifies this
      ensures Valid()
      ensures ok <==> s.entries == [] || 1 <= s.first <= |old(Contents())| + 1
      ensures ok && s.entries != [] ==> Contents() == VrLog.Install(old(Contents()), s)
      ensures s.entries == [] ==> Contents() == old(Contents())
      ensures forall n :: old(Pending(n)) ==> Pending(n)
    {
      var it := SkipToDivergence(s);
      ok := AppendAll(s.first + it, s.entries[it..]);
    }
  }
}
