/**
 The replica log (src/replication/common/log.cc, log-impl.h), as functions on
 sequences. `VrLogStore` implements these with the loops of the C++ code.
 */
module VrLog {
  import opened VrTypes

  /** Log::RemoveAfter: drops the entry with opnum `op` and everything after it. */
  function RemoveAfter(log: Log, op: nat): (r: Log)
    requires 1 <= op
    ensures r <= log
  {
    if op > |log| then log else log[..op - 1]
  }

  /** Log::Dump: the entries from opnum `from` (or from the start) onwards. */
  function Dump(log: Log, from: nat): (s: Suffix)
    ensures 1 <= s.first
    ensures s.first <= |log| + 1 ==> s.entries == log[s.first - 1..]
    ensures |log| < s.first ==> s.entries == []
  {
    var first := Max(from, 1);
    Suffix(first, if first <= |log| then log[first - 1..] else [])
  }

  /**
   Log::Install: keeps the entries that agree in view with the received ones,
   drops the log at the first disagreement, and appends what remains.
   */
  function Install(log: Log, s: Suffix): (r: Log)
    requires 1 <= s.first <= |log| + 1
    decreases |s.entries|
  {
    if s.entries == [] then log
    else if s.first <= |log| && log[s.first - 1].view == s.entries[0].view then
      Install(log, Suffix(s.first + 1, s.entries[1..]))
    else
      log[..s.first - 1] + s.entries
  }

  /** Two logs match when equal views at one opnum imply equal logs up to it. */
  ghost predicate Matching(a: Log, b: Log) {
    forall i :: 0 <= i < |a| && i < |b| && a[i].view == b[i].view ==> a[..i + 1] == b[..i + 1]
  }

  /**
   Truncating to the sender's length and installing a suffix of the sender's log
   yields exactly the sender's log, whenever the two logs match and agree below the suffix.
   */
  lemma {:induction false} InstallYieldsSender(local: Log, sender: Log, first: nat)
    requires 1 <= first <= |sender| + 1
    requires first <= |local| + 1
    requires |local| <= |sender|
    requires local[..first - 1] == sender[..first - 1]
    requires Matching(local, sender)
    ensures Install(local, Suffix(first, sender[first - 1..])) == sender
    decreases |sender| - first
  {
    var s := Suffix(first, sender[first - 1..]);
    if s.entries == [] {
    } else if first <= |local| && local[first - 1].view == s.entries[0].view {
      assert local[first - 1].view == sender[first - 1].view;
      assert local[..first] == sender[..first];
      assert s.entries[1..] == sender[first..];
      InstallYieldsSender(local, sender, first + 1);
    } else {
      assert sender == sender[..first - 1] + sender[first - 1..];
    }
  }
}
