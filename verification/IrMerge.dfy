/**
 IR-MERGE-RECORDS as the C++ code has it (src/replication/ir/replica.cc:481-615): nested
 loops that group, erase, split and merge, on the record and the views of a replica.
 */
module IrMerge {
  import opened IrRecords
  import opened Quorums

  /** A DO-VIEW-CHANGE message; the ones for the leader carry a record. */
  datatype DoViewChange = DoViewChange(latestNormalView: nat, record: MaybeRecord)
  datatype MaybeRecord = NoRecord | Carries(record: Record)

  type Results = map<OpId, string>

  /** What the grouping has to have made of operation `id` after `rs`: adopted as found, or in a group, or unknown. */
  ghost predicate Grouped(rs: seq<Record>, id: OpId, adopted: Record, groups: Groups) {
    && (id in adopted <==> SettledIn(rs, id))
    && (id in adopted ==> exists i :: 0 <= i < |rs| && id in rs[i] && rs[i][id] == adopted[id] && Adopted(adopted[id]))
    && (id in groups <==> Known(rs, id) && !SettledIn(rs, id))
    && (id in groups ==> groups[id] == Tentatives(rs, id))
  }

  lemma OneMore(rs: seq<Record>, r: Record, id: OpId)
    ensures SettledIn(rs + [r], id) <==> SettledIn(rs, id) || (id in r && Adopted(r[id]))
    ensures Known(rs + [r], id) <==> Known(rs, id) || id in r
    ensures Tentatives(rs + [r], id) == Tentatives(rs, id) + if id in r && !Adopted(r[id]) then [r[id]] else []
  {
    var longer := rs + [r];
    assert longer[..|rs|] == rs && longer[|rs|] == r;
    assert SettledIn(rs, id) ==> SettledIn(longer, id) by {
      if i :| 0 <= i < |rs| && id in rs[i] && Adopted(rs[i][id]) { assert longer[i] == rs[i]; }
    }
    assert Known(rs, id) ==> Known(longer, id) by {
      if i :| 0 <= i < |rs| && id in rs[i] { assert longer[i] == rs[i]; }
    }
  }

  lemma UnknownStays(rs: seq<Record>, r: Record, id: OpId, adopted: Record, groups: Groups)
    requires Grouped(rs, id, adopted, groups) && id !in r
    ensures Grouped(rs + [r], id, adopted, groups)
  {
    OneMore(rs, r, id);
    if id in adopted {
      var i :| 0 <= i < |rs| && id in rs[i] && rs[i][id] == adopted[id] && Adopted(adopted[id]);
      assert (rs + [r])[i] == rs[i];
    }
  }

  /** One entry: adopted unless the operation is, or added to its group. */
  function Take(adopted: Record, groups: Groups, e: Entry): (Record, Groups) {
    var adopting := if e.opid in adopted then adopted else adopted[e.opid := e];
    if e.kind == Inconsistent then (adopting, groups)
    else if e.state == Finalized then (adopting, groups - {e.opid})
    else if e.opid in adopted then (adopted, groups)
    else (adopted, groups[e.opid := (if e.opid in groups then groups[e.opid] else []) + [e]])
  }

  lemma TakeGroups(rs: seq<Record>, r: Record, id: OpId, adopted: Record, groups: Groups)
    requires Grouped(rs, id, adopted, groups) && id in r && r[id].opid == id && OneKind(rs + [r])
    ensures var (adopted', groups') := Take(adopted, groups, r[id]); Grouped(rs + [r], id, adopted', groups')
  {
    OneMore(rs, r, id);
    var longer := rs + [r];
    assert longer[|rs|] == r;
    assert forall i :: 0 <= i < |rs| ==> longer[i] == rs[i] && SameKinds(longer[i], longer[|rs|]);
    if id in adopted {
      var i :| 0 <= i < |rs| && id in rs[i] && rs[i][id] == adopted[id] && Adopted(adopted[id]);
      assert longer[i] == rs[i];
    }
    if id in groups {
      var i :| 0 <= i < |rs| && id in rs[i];
      assert longer[i] == rs[i] && !Adopted(rs[i][id]);
    } else if !SettledIn(rs, id) {
      NoTentatives(rs, id);
    }
  }

  lemma {:induction false} NoTentatives(rs: seq<Record>, id: OpId)
    requires !Known(rs, id)
    ensures Tentatives(rs, id) == []
  {
    if rs != [] { NoTentatives(rs[..|rs| - 1], id); }
  }

  lemma TakeLeaves(rs: seq<Record>, id: OpId, adopted: Record, groups: Groups, e: Entry)
    requires Grouped(rs, id, adopted, groups) && id != e.opid
    ensures var (adopted', groups') := Take(adopted, groups, e); Grouped(rs, id, adopted', groups')
  {
  }

  method TakeEntry(adopted: Record, groups: Groups, e: Entry) returns (adopted': Record, groups': Groups)
    ensures (adopted', groups') == Take(adopted, groups, e)
  {
    adopted', groups' := adopted, groups;
    if e.kind == Inconsistent {
      if e.opid !in adopted { adopted' := adopted[e.opid := e]; }
    } else if e.state == Finalized {
      if e.opid !in adopted { adopted' := adopted[e.opid := e]; }
      groups' := groups - {e.opid};
    } else if e.opid !in adopted {
      groups' := groups[e.opid := (if e.opid in groups then groups[e.opid] else []) + [e]];
    }
  }

  method GroupRecord(ghost rs: seq<Record>, r: Record, adopted: Record, groups: Groups) returns (adopted': Record, groups': Groups)
    requires Keyed(r) && OneKind(rs + [r])
    requires forall id :: Grouped(rs, id, adopted, groups)
    ensures forall id :: Grouped(rs + [r], id, adopted', groups')
  {
    hide Grouped, OneKind, Take;
    adopted', groups' := adopted, groups;
    var left := r.Keys;
    forall id | id !in left ensures Grouped(rs + [r], id, adopted', groups') {
      UnknownStays(rs, r, id, adopted, groups);
    }
    while left != {}
      invariant left <= r.Keys
      invariant forall id :: id in left ==> Grouped(rs, id, adopted', groups')
      invariant forall id :: id !in left ==> Grouped(rs + [r], id, adopted', groups')
    {
      var id :| id in left;
      TakeGroups(rs, r, id, adopted', groups');
      ghost var before, grouped := adopted', groups';
      adopted', groups' := TakeEntry(adopted', groups', r[id]);
      forall other | other != id
        ensures other in left ==> Grouped(rs, other, adopted', groups')
        ensures other !in left ==> Grouped(rs + [r], other, adopted', groups')
      {
        TakeLeaves(if other in left then rs else rs + [r], other, before, grouped, r[id]);
      }
      left := left - {id};
    }
  }

  /** Groups the entries of all the records. */
  method GroupRecords(rs: seq<Record>) returns (adopted: Record, groups: Groups)
    requires OneKind(rs) && forall i :: 0 <= i < |rs| ==> Keyed(rs[i])
    ensures forall id :: Grouped(rs, id, adopted, groups)
  {
    adopted, groups := map[], map[];
    for i := 0 to |rs|
      invariant forall id :: Grouped(rs[..i], id, adopted, groups)
    {
      assert rs[..i] + [rs[i]] == rs[..i + 1];
      adopted, groups := GroupRecord(rs[..i], rs[i], adopted, groups);
    }
    assert rs[..|rs|] == rs;
  }

  // ---- Majorities ----

  lemma CountPrefix(entries: seq<Entry>, i: nat, result: string)
    requires i < |entries|
    ensures CountOf(entries[..i + 1], result) == CountOf(entries[..i], result) + if entries[i].result == result then 1 else 0
  {
    assert entries[..i + 1][..i] == entries[..i];
  }

  function CountIn(counts: map<string, nat>, result: string): nat {
    if result in counts then counts[result] else 0
  }

  method CountResults(entries: seq<Entry>) returns (counts: map<string, nat>)
    ensures forall result :: CountIn(counts, result) == CountOf(entries, result)
  {
    counts := map[];
    for i := 0 to |entries|
      invariant forall result :: CountIn(counts, result) == CountOf(entries[..i], result)
    {
      var r := entries[i].result;
      ghost var before := counts;
      counts := counts[r := CountIn(counts, r) + 1];
      forall result ensures CountIn(counts, result) == CountOf(entries[..i + 1], result) {
        CountPrefix(entries, i, result);
        assert CountIn(before, result) == CountOf(entries[..i], result);
      }
    }
    assert entries[..|entries|] == entries;
  }

  /** Whether some result occurs ceil(f / 2) + 1 times or more. */
  method FindMajority(f: nat, entries: seq<Entry>) returns (found: bool, result: string)
    ensures found ==> HasMajority(f, entries, result)
    ensures !found ==> forall r :: !HasMajority(f, entries, r)
  {
    var counts := CountResults(entries);
    var left := counts.Keys;
    found, result := false, "";
    while left != {}
      invariant left <= counts.Keys && !found
      invariant forall r :: r in counts && r !in left ==> counts[r] < Threshold(f)
    {
      var r :| r in left;
      if counts[r] >= Threshold(f) {
        assert CountIn(counts, r) == CountOf(entries, r);
        return true, r;
      }
      left := left - {r};
    }
    forall r ensures !HasMajority(f, entries, r) {
      assert CountIn(counts, r) == CountOf(entries, r);
    }
  }

  /** `d` are the groups with a majority result, `u` the others. */
  ghost predicate Split(f: nat, groups: Groups, d: Groups, u: Groups, majority: Results) {
    && d.Keys !! u.Keys && d.Keys + u.Keys == groups.Keys && majority.Keys == d.Keys
    && (forall id :: id in d ==> d[id] == groups[id] && HasMajority(f, groups[id], majority[id]))
    && (forall id :: id in u ==> u[id] == groups[id] && forall r :: !HasMajority(f, groups[id], r))
  }

  method SplitGroups(f: nat, groups: Groups) returns (d: Groups, u: Groups, majority: Results)
    ensures Split(f, groups, d, u, majority)
  {
    d, u, majority := map[], map[], map[];
    var left := groups.Keys;
    while left != {}
      invariant left <= groups.Keys
      invariant d.Keys !! u.Keys && d.Keys + u.Keys == groups.Keys - left && majority.Keys == d.Keys
      invariant forall id :: id in d ==> d[id] == groups[id] && HasMajority(f, groups[id], majority[id])
      invariant forall id :: id in u ==> u[id] == groups[id] && forall r :: !HasMajority(f, groups[id], r)
    {
      var id :| id in left;
      var found, result := FindMajority(f, groups[id]);
      hide HasMajority;
      if found {
        d := d[id := groups[id]];
        majority := majority[id := result];
      } else {
        u := u[id := groups[id]];
      }
      left := left - {id};
    }
  }

  // ---- The latest records ----

  ghost predicate IsLatest(own: nat, msgs: map<nat, DoViewChange>, view: nat) {
    && own <= view && (forall k :: k in msgs ==> msgs[k].latestNormalView <= view)
    && (own == view || exists k :: k in msgs && msgs[k].latestNormalView == view)
  }

  method MaxLatestNormalView(own: nat, msgs: map<nat, DoViewChange>) returns (view: nat)
    ensures IsLatest(own, msgs, view)
  {
    view := own;
    var left := msgs.Keys;
    while left != {}
      invariant left <= msgs.Keys && own <= view
      invariant forall k :: k in msgs && k !in left ==> msgs[k].latestNormalView <= view
      invariant own == view || exists k :: k in msgs && msgs[k].latestNormalView == view
    {
      var k :| k in left;
      if msgs[k].latestNormalView > view { view := msgs[k].latestNormalView; }
      left := left - {k};
    }
  }

  /** The senders, in the order of `from`, of the messages of view `view`, with the records they carry. */
  ghost predicate Carried(msgs: map<nat, DoViewChange>, view: nat, from: seq<nat>, rs: seq<Record>) {
    && |rs| == |from|
    && (forall i, j :: 0 <= i < j < |from| ==> from[i] != from[j])
    && (forall i :: 0 <= i < |from| ==> from[i] in msgs && msgs[from[i]] == DoViewChange(view, Carries(rs[i])))
  }

  method CarriedRecords(msgs: map<nat, DoViewChange>, view: nat) returns (ok: bool, from: seq<nat>, rs: seq<Record>)
    ensures ok <==> forall k :: k in msgs && msgs[k].latestNormalView == view ==> msgs[k].record.Carries?
    ensures ok ==> Carried(msgs, view, from, rs)
    ensures ok ==> forall k :: k in msgs && msgs[k].latestNormalView == view ==> k in from
  {
    from, rs := [], [];
    var left := msgs.Keys;
    while left != {}
      invariant left <= msgs.Keys && Carried(msgs, view, from, rs)
      invariant forall k :: k in from ==> k !in left
      invariant forall k :: k in msgs && k !in left && msgs[k].latestNormalView == view ==> k in from && msgs[k].record.Carries?
    {
      var k :| k in left;
      if msgs[k].latestNormalView == view {
        if msgs[k].record.NoRecord? { return false, [], []; }
        from, rs := from + [k], rs + [msgs[k].record.record];
      }
      left := left - {k};
    }
    ok := true;
  }

  // ---- The merge ----

  /** The finalized entry of a merged operation. */
  function Merged(view: nat, group: seq<Entry>, id: OpId, result: string): Entry
    requires group != []
  {
    Entry(view, id, Finalized, group[0].kind, group[0].request, result)
  }

  /** The finalized entry, stamped with the view of the replica, for the operation of a group. */
  predicate FinalizedNow(view: nat, group: seq<Entry>, id: OpId, result: string, e: Entry) {
    && e.view == view && e.opid == id && e.state == Finalized && e.result == result
    && group != [] && e.kind == group[0].kind && e.request == group[0].request
  }

  /** What the merged record is: everything adopted, and the rest finalized with the application's results. */
  ghost predicate IsMerge(view: nat, rs: seq<Record>, results: Results, merged: Record) {
    && (forall id :: id in merged <==> Known(rs, id))
    && (forall id :: id in merged && SettledIn(rs, id) ==>
          exists i :: 0 <= i < |rs| && id in rs[i] && rs[i][id] == merged[id] && Adopted(merged[id]))
    && (forall id :: id in merged && !SettledIn(rs, id) ==>
          id in results && FinalizedNow(view, Tentatives(rs, id), id, results[id], merged[id]))
  }

  /** The groups handed to the application: of the operations that no record settles, with their majorities if any. */
  ghost predicate IsSplit(f: nat, rs: seq<Record>, d: Groups, u: Groups, majority: Results) {
    && (forall id :: id in d.Keys + u.Keys <==> Known(rs, id) && !SettledIn(rs, id))
    && d.Keys !! u.Keys && majority.Keys == d.Keys
    && (forall id :: id in d ==> d[id] == Tentatives(rs, id) && HasMajority(f, d[id], majority[id]))
    && (forall id :: id in u ==> u[id] == Tentatives(rs, id) && forall r :: !HasMajority(f, u[id], r))
  }

  lemma SplitOfRecords(f: nat, rs: seq<Record>, adopted: Record, groups: Groups, d: Groups, u: Groups, majority: Results)
    requires forall id :: Grouped(rs, id, adopted, groups)
    requires Split(f, groups, d, u, majority)
    ensures IsSplit(f, rs, d, u, majority)
  {
    forall id ensures id in d.Keys + u.Keys <==> Known(rs, id) && !SettledIn(rs, id) {
      assert Grouped(rs, id, adopted, groups);
    }
    forall id | id in groups ensures groups[id] == Tentatives(rs, id) { assert Grouped(rs, id, adopted, groups); }
  }

  lemma {:induction false} GroupNotEmpty(rs: seq<Record>, id: OpId)
    requires Known(rs, id) && !SettledIn(rs, id)
    ensures Tentatives(rs, id) != []
  {
    var n := |rs| - 1;
    if id !in rs[n] {
      assert rs == rs[..n] + [rs[n]];
      OneMore(rs[..n], rs[n], id);
      GroupNotEmpty(rs[..n], id);
    }
  }

  /** Adds the merged operations to the adopted ones; none is in both. */
  method MergeBack(view: nat, ghost rs: seq<Record>, adopted: Record, groups: Groups, results: Results) returns (merged: Record)
    requires forall id :: Grouped(rs, id, adopted, groups)
    requires results.Keys == groups.Keys
    ensures IsMerge(view, rs, results, merged)
  {
    forall id | id in groups ensures groups[id] == Tentatives(rs, id) && groups[id] != [] && id !in adopted {
      assert Grouped(rs, id, adopted, groups);
      GroupNotEmpty(rs, id);
    }
    merged := adopted;
    var left := results.Keys;
    while left != {}
      invariant left <= results.Keys
      invariant merged.Keys == adopted.Keys + (results.Keys - left)
      invariant forall id :: id in adopted ==> merged[id] == adopted[id]
      invariant forall id :: id in results && id !in left ==> FinalizedNow(view, groups[id], id, results[id], merged[id])
    {
      var id :| id in left;
      assert id !in merged;          // Record::Add asserts that the operation is new
      merged := merged[id := Merged(view, groups[id], id, results[id])];
      left := left - {id};
    }
    forall id ensures id in merged <==> Known(rs, id) { assert Grouped(rs, id, adopted, groups); Settles(rs, id); }
    forall id | id in merged ensures id in adopted <==> SettledIn(rs, id) { assert Grouped(rs, id, adopted, groups); }
    forall id | id in adopted
      ensures exists i :: 0 <= i < |rs| && id in rs[i] && rs[i][id] == merged[id] && Adopted(merged[id])
    {
      assert Grouped(rs, id, adopted, groups);
    }
  }

  lemma {:induction false} TentativeFrom(rs: seq<Record>, id: OpId, j: nat) returns (i: nat)
    requires j < |Tentatives(rs, id)|
    ensures i < |rs| && id in rs[i] && rs[i][id] == Tentatives(rs, id)[j] && !Adopted(rs[i][id])
  {
    var n := |rs| - 1;
    if j < |Tentatives(rs[..n], id)| {
      i := TentativeFrom(rs[..n], id, j);
    } else {
      i := n;
    }
  }

  /** The entry is for the operation that record `r` has there. */
  predicate SameOperation(r: Record, id: OpId, e: Entry) {
    id in r && r[id].kind == e.kind && r[id].request == e.request
  }

  /**
   Nothing stays tentative: every entry of the merged record is inconsistent or finalized, under its own
   id, and for the operation that some merged record has there; what none of them had settled is finalized.
   */
  lemma MergedIsSettled(view: nat, rs: seq<Record>, results: Results, merged: Record, id: OpId)
    requires IsMerge(view, rs, results, merged) && id in merged
    requires forall i :: 0 <= i < |rs| ==> Keyed(rs[i])
    ensures merged[id].kind == Inconsistent || merged[id].state == Finalized
    ensures merged[id].opid == id
    ensures exists i :: 0 <= i < |rs| && SameOperation(rs[i], id, merged[id])
    ensures !SettledIn(rs, id) ==>
      id in results && merged[id].state == Finalized && merged[id].view == view && merged[id].result == results[id]
  {
    if SettledIn(rs, id) {
      var i :| 0 <= i < |rs| && id in rs[i] && rs[i][id] == merged[id] && Adopted(merged[id]);
      assert SameOperation(rs[i], id, merged[id]);
    } else {
      var i := TentativeFrom(rs, id, 0);
      assert SameOperation(rs[i], id, merged[id]);
    }
  }

  /** A view change ends the matter: with the merged record among the latest, no operation of it is in a group again. */
  lemma MergedIsFinal(f: nat, view: nat, rs: seq<Record>, results: Results, merged: Record,
                      rs': seq<Record>, d: Groups, u: Groups, majority: Results, id: OpId)
    requires IsMerge(view, rs, results, merged) && forall i :: 0 <= i < |rs| ==> Keyed(rs[i])
    requires merged in rs' && IsSplit(f, rs', d, u, majority) && Known(rs, id)
    ensures id !in d && id !in u
  {
    MergedIsSettled(view, rs, results, merged, id);
    var j :| 0 <= j < |rs'| && rs'[j] == merged;
    assert id in rs'[j] && Adopted(rs'[j][id]);
    assert SettledIn(rs', id);
    assert id !in d.Keys + u.Keys;
  }

  lemma Settles(rs: seq<Record>, id: OpId)
    ensures SettledIn(rs, id) ==> Known(rs, id)
  {
  }

  /** The records to merge: those that messages of view `latest` carry, and the own one if it is of that view too. */
  ghost predicate LatestOf(msgs: map<nat, DoViewChange>, latest: nat, ownView: nat, own: Record, from: seq<nat>, rs: seq<Record>) {
    && (forall k :: k in msgs && msgs[k].latestNormalView == latest ==> k in from)
    && |rs| == |from| + (if ownView == latest then 1 else 0)
    && Carried(msgs, latest, from, rs[..|from|])
    && (ownView == latest ==> rs[|from|] == own)
  }

  /** Every record a message may carry, and the own one, give an operation the same type. */
  ghost predicate Kinds(msgs: map<nat, DoViewChange>, own: Record) {
    && Keyed(own)
    && (forall k :: k in msgs && msgs[k].record.Carries? ==> Keyed(msgs[k].record.record))
    && (forall k :: k in msgs && msgs[k].record.Carries? ==>
          SameKinds(msgs[k].record.record, own) && SameKinds(own, msgs[k].record.record))
    && (forall k, l :: k in msgs && l in msgs && msgs[k].record.Carries? && msgs[l].record.Carries? ==>
          SameKinds(msgs[k].record.record, msgs[l].record.record))
  }

  lemma SameAsItself(r: Record)
    ensures SameKinds(r, r)
  {
  }

  lemma KindsOfLatest(msgs: map<nat, DoViewChange>, latest: nat, ownView: nat, own: Record, from: seq<nat>, rs: seq<Record>)
    requires LatestOf(msgs, latest, ownView, own, from, rs) && Kinds(msgs, own)
    ensures OneKind(rs) && forall i :: 0 <= i < |rs| ==> Keyed(rs[i])
  {
    hide SameKinds, Keyed;
    assert forall i :: 0 <= i < |from| ==> from[i] in msgs && msgs[from[i]].record == Carries(rs[i]);
    assert SameKinds(own, own) by { SameAsItself(own); }
  }

  /**
   The fast path survives the view change: a result that a fast quorum has recorded is the
   result of the operation in the merged record, provided that no other result was finalized
   and that the application keeps the majority results it is given.
   */
  lemma FastPathInMerge(f: nat, held: seq<Record>, from: seq<nat>, rs: seq<Record>, view: nat, d: Groups, u: Groups,
                        majority: Results, results: Results, merged: Record, id: OpId, result: string, quorum: set<nat>)
    requires RecordsOf(f, held, from, rs) && |rs| == QuorumSize(f)
    requires FastDecided(f, held, id, result, quorum)
    requires forall k :: 0 <= k < |held| && id in held[k] && Adopted(held[k][id]) ==> held[k][id].result == result
    requires IsSplit(f, rs, d, u, majority) && IsMerge(view, rs, results, merged)
    requires forall id :: id in d && id in results ==> results[id] == majority[id]
    ensures id in merged && merged[id].result == result
  {
    FastPathSurvives(f, held, from, rs, id, result, quorum);
    if !SettledIn(rs, id) {
      assert Tentatives(rs, id) != [];
      TentativesKnown(rs, id);
      assert id in d.Keys + u.Keys;
    } else {
      Settles(rs, id);
    }
  }

  /** The replicas whose records are merged: the senders, and the own one `me` if its record is among them. */
  function Sources(from: seq<nat>, me: nat, ownIsLatest: bool): seq<nat> {
    if ownIsLatest then from + [me] else from
  }

  /** The messages carry what the replicas hold, and the replica that merges sends none to itself. */
  ghost predicate CarryHeld(held: seq<Record>, msgs: map<nat, DoViewChange>, me: nat, own: Record) {
    && me < |held| && own == held[me] && me !in msgs
    && forall k :: k in msgs ==> k < |held| && (msgs[k].record.Carries? ==> msgs[k].record.record == held[k])
  }

  lemma LatestAreHeld(f: nat, held: seq<Record>, msgs: map<nat, DoViewChange>, latest: nat, ownView: nat, me: nat, own: Record,
                      from: seq<nat>, rs: seq<Record>)
    requires |held| == 2 * f + 1 && CarryHeld(held, msgs, me, own) && LatestOf(msgs, latest, ownView, own, from, rs)
    ensures RecordsOf(f, held, Sources(from, me, ownView == latest), rs)
  {
    var all := Sources(from, me, ownView == latest);
    forall i | 0 <= i < |all| ensures all[i] < |held| && rs[i] == held[all[i]] {
      if i < |from| { assert rs[..|from|][i] == rs[i]; }
    }
  }

  /**
   IrMergeRecords keeps the fast path: whatever it has merged (the records `rs` that it took from the
   messages and from its own record, the groups it handed to the application, the result `merged`), an
   operation that a fast quorum has recorded with `result` has that result.
   */
  lemma MergeKeepsFastPath(f: nat, held: seq<Record>, msgs: map<nat, DoViewChange>, latest: nat, ownView: nat, me: nat, own: Record,
                           from: seq<nat>, rs: seq<Record>, view: nat, merge: (Groups, Groups, Results) -> Results,
                           majority: Results, merged: Record, id: OpId, result: string, quorum: set<nat>)
    requires |held| == 2 * f + 1 && CarryHeld(held, msgs, me, own)
    requires LatestOf(msgs, latest, ownView, own, from, rs) && |rs| == QuorumSize(f)
    requires exists d, u :: IsSplit(f, rs, d, u, majority) && IsMerge(view, rs, merge(d, u, majority), merged)
    requires forall d, u, id :: id in d && id in merge(d, u, majority) && id in majority ==> merge(d, u, majority)[id] == majority[id]
    requires FastDecided(f, held, id, result, quorum)
    requires forall k :: 0 <= k < |held| && id in held[k] && Adopted(held[k][id]) ==> held[k][id].result == result
    ensures id in merged && merged[id].result == result
  {
    LatestAreHeld(f, held, msgs, latest, ownView, me, own, from, rs);
    hide LatestOf, CarryHeld, IsMerge, FastDecided, RecordsOf, HasMajority;
    var d, u :| IsSplit(f, rs, d, u, majority) && IsMerge(view, rs, merge(d, u, majority), merged);
    SplitApart(f, rs, d, u, majority);
    FastPathInMerge(f, held, Sources(from, me, ownView == latest), rs, view, d, u, majority, merge(d, u, majority), merged, id, result, quorum);
  }

  lemma {:induction false} TentativesKnown(rs: seq<Record>, id: OpId)
    requires Tentatives(rs, id) != []
    ensures Known(rs, id)
  {
    var n := |rs| - 1;
    if id !in rs[n] || Adopted(rs[n][id]) {
      assert rs == rs[..n] + [rs[n]];
      OneMore(rs[..n], rs[n], id);
      TentativesKnown(rs[..n], id);
    }
  }

  lemma SameMajority(f: nat, rs: seq<Record>, rs': seq<Record>, id: OpId, a: string)
    requires multiset(rs) == multiset(rs') && HasMajority(f, Tentatives(rs, id), a)
    ensures HasMajority(f, Tentatives(rs', id), a)
  {
    CountIgnoresOrder(rs, rs', id, a);
  }

  lemma SameSide(f: nat, rs: seq<Record>, rs': seq<Record>, d: Groups, u: Groups, majority: Results,
                 d': Groups, u': Groups, majority': Results, id: OpId)
    requires multiset(rs) == multiset(rs') && |rs| <= QuorumSize(f)
    requires IsSplit(f, rs, d, u, majority) && IsSplit(f, rs', d', u', majority')
    requires id in d
    ensures id in d' && majority[id] == majority'[id]
  {
    hide HasMajority, Tentatives;
    SameLength(rs, rs');
    SameMembers(rs, rs', id);
    SameMajority(f, rs, rs', id, majority[id]);
    assert id in d'.Keys + u'.Keys;
    assert id !in u';
    MajorityIsUnique(f, rs', id, majority[id], majority'[id]);
  }

  /**
   Whatever the order of the records, the same operations are settled, in d with the same
   majority results, and in u, and the merged record has the same operations.
   */
  lemma OrderDoesNotMatter(f: nat, view: nat, rs: seq<Record>, rs': seq<Record>, d: Groups, u: Groups, majority: Results,
                           d': Groups, u': Groups, majority': Results,
                           results: Results, merged: Record, results': Results, merged': Record)
    requires multiset(rs) == multiset(rs') && |rs| <= QuorumSize(f)
    requires IsSplit(f, rs, d, u, majority) && IsSplit(f, rs', d', u', majority')
    requires IsMerge(view, rs, results, merged) && IsMerge(view, rs', results', merged')
    ensures d.Keys == d'.Keys && u.Keys == u'.Keys && majority == majority' && merged.Keys == merged'.Keys
  {
    hide IsMerge, IsSplit;
    SameLength(rs, rs');
    SplitApart(f, rs, d, u, majority);
    SplitApart(f, rs', d', u', majority');
    forall id ensures id in merged <==> id in merged' { SameOperations(view, rs, rs', results, merged, results', merged', id); }
    forall id ensures id in d.Keys + u.Keys <==> id in d'.Keys + u'.Keys {
      SameGroups(f, rs, rs', d, u, majority, d', u', majority', id);
    }
    forall id | id in d ensures id in d' && majority[id] == majority'[id] {
      SameSide(f, rs, rs', d, u, majority, d', u', majority', id);
    }
    forall id | id in d' ensures id in d {
      SameSide(f, rs', rs, d', u', majority', d, u, majority, id);
    }
  }

  lemma SameLength(rs: seq<Record>, rs': seq<Record>)
    requires multiset(rs) == multiset(rs')
    ensures |rs| == |rs'|
  {
    assert |multiset(rs)| == |rs| && |multiset(rs')| == |rs'|;
  }

  lemma SameOperations(view: nat, rs: seq<Record>, rs': seq<Record>, results: Results, merged: Record,
                       results': Results, merged': Record, id: OpId)
    requires multiset(rs) == multiset(rs') && IsMerge(view, rs, results, merged) && IsMerge(view, rs', results', merged')
    ensures id in merged <==> id in merged'
  {
    SameMembers(rs, rs', id);
  }

  lemma SameGroups(f: nat, rs: seq<Record>, rs': seq<Record>, d: Groups, u: Groups, majority: Results,
                   d': Groups, u': Groups, majority': Results, id: OpId)
    requires multiset(rs) == multiset(rs') && IsSplit(f, rs, d, u, majority) && IsSplit(f, rs', d', u', majority')
    ensures id in d.Keys + u.Keys <==> id in d'.Keys + u'.Keys
  {
    SameMembers(rs, rs', id);
  }

  lemma SplitApart(f: nat, rs: seq<Record>, d: Groups, u: Groups, majority: Results)
    requires IsSplit(f, rs, d, u, majority)
    ensures d.Keys !! u.Keys && majority.Keys == d.Keys
    ensures forall id :: id in u <==> id in d.Keys + u.Keys && id !in d
  {
  }

  class IrReplica {
    const f: nat
    var view: nat
    var latestNormalView: nat
    var record: Record

    constructor (f: nat)
      ensures this.f == f && view == latestNormalView == 0 && record == map[]
    {
      this.f, view, latestNormalView, record := f, 0, 0, map[];
    }

    /** Moves the own record out if it is among the latest. */
    method LatestRecords(msgs: map<nat, DoViewChange>) returns (ok: bool, from: seq<nat>, rs: seq<Record>, latest: nat)
      modifies this`record
      ensures IsLatest(latestNormalView, msgs, latest)
      ensures ok <==> forall k :: k in msgs && msgs[k].latestNormalView == latest ==> msgs[k].record.Carries?
      ensures ok ==> LatestOf(msgs, latest, latestNormalView, old(record), from, rs)
    {
      latest := MaxLatestNormalView(latestNormalView, msgs);
      ok, from, rs := CarriedRecords(msgs, latest);
      if latestNormalView == latest {
        assert (rs + [record])[..|rs|] == rs;
        rs := rs + [record];
        record := map[];
      } else {
        assert rs[..|rs|] == rs;
      }
    }

    /**
     The merge of the latest records. `merge` is the application's upcall; its results have to
     name exactly the operations in `d` and `u`, which is asserted, as are the records, and for every
     result that there is a message.
     */
    method IrMergeRecords(msgs: map<nat, DoViewChange>, merge: (Groups, Groups, Results) -> Results)
      returns (ok: bool, merged: Record, ghost from: seq<nat>, ghost rs: seq<Record>, ghost latest: nat, ghost majority: Results)
      requires Kinds(msgs, record)
      modifies this`record
      ensures IsLatest(latestNormalView, msgs, latest)
      ensures ok ==> LatestOf(msgs, latest, latestNormalView, old(record), from, rs)
      ensures ok ==> exists d, u :: IsSplit(f, rs, d, u, majority) && IsMerge(view, rs, merge(d, u, majority), merged)
      ensures ok ==> forall id :: id in merged ==>
        merged[id].opid == id && (merged[id].kind == Inconsistent || merged[id].state == Finalized)
      ensures !ok ==> (exists k :: k in msgs && msgs[k] == DoViewChange(latest, NoRecord)) ||
                      (exists d, u :: IsSplit(f, rs, d, u, majority) &&
                         (merge(d, u, majority).Keys != d.Keys + u.Keys || (msgs == map[] && merge(d, u, majority) != map[])))
    {
      var records;
      ok, from, records, latest := LatestRecords(msgs);
      rs := records;
      merged, majority := map[], map[];
      if !ok { return; }
      KindsOfLatest(msgs, latest, latestNormalView, old(record), from, rs);
      var adopted, groups := GroupRecords(records);
      var d, u, m := SplitGroups(f, groups);
      majority := m;
      var results := merge(d, u, m);
      SplitOfRecords(f, rs, adopted, groups, d, u, m);
      if results.Keys != d.Keys + u.Keys { return false, map[], from, rs, latest, majority; }
      if msgs == map[] && results != map[] { return false, map[], from, rs, latest, majority; }   // asserted for every result
      merged := MergeBack(view, records, adopted, groups, results);
      forall id | id in merged ensures merged[id].opid == id && (merged[id].kind == Inconsistent || merged[id].state == Finalized) {
        MergedIsSettled(view, rs, results, merged, id);
      }
    }
  }
}
