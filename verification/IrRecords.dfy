/**
 Records of Inconsistent Replication, and what the merge of a view change makes of them,
 as values (src/replication/ir/record.h, replica.cc:481-615). `IrMerge` has the loops.
 */
module IrRecords {
  import opened Quorums

  type OpId = (nat, nat)

  datatype EntryState = Tentative | Finalized
  datatype EntryType = Inconsistent | Consensus
  datatype Entry = Entry(view: nat, opid: OpId, state: EntryState, kind: EntryType, request: string, result: string)

  type Record = map<OpId, Entry>
  type Groups = map<OpId, seq<Entry>>

  /** Entries are kept under their own id, which the merge asserts. */
  predicate Keyed(r: Record) {
    forall id :: id in r ==> r[id].opid == id
  }

  predicate SameKinds(a: Record, b: Record) {
    forall id :: id in a && id in b ==> a[id].kind == b[id].kind
  }

  /** Clients use an operation id for one type of operation only. */
  predicate OneKind(rs: seq<Record>) {
    forall i, j :: 0 <= i < |rs| && 0 <= j < |rs| ==> SameKinds(rs[i], rs[j])
  }

  /** An entry that the merge adopts as it is. */
  predicate Adopted(e: Entry) { e.kind == Inconsistent || e.state == Finalized }

  predicate SettledIn(rs: seq<Record>, id: OpId) {
    exists i :: 0 <= i < |rs| && id in rs[i] && Adopted(rs[i][id])
  }

  predicate Known(rs: seq<Record>, id: OpId) {
    exists i :: 0 <= i < |rs| && id in rs[i]
  }

  /** The tentative consensus entries for an operation, in the order of the records. */
  function Tentatives(rs: seq<Record>, id: OpId): (group: seq<Entry>)
    ensures |group| <= |rs|
  {
    if rs == [] then []
    else
      var n := |rs| - 1;
      Tentatives(rs[..n], id) + if id in rs[n] && !Adopted(rs[n][id]) then [rs[n][id]] else []
  }

  function CountOf(group: seq<Entry>, result: string): (n: nat)
    ensures n <= |group|
  {
    if group == [] then 0
    else CountOf(group[..|group| - 1], result) + if group[|group| - 1].result == result then 1 else 0
  }

  /** ceil(f / 2) + 1 */
  function Threshold(f: nat): nat { (f + 1) / 2 + 1 }

  predicate HasMajority(f: nat, group: seq<Entry>, result: string) { CountOf(group, result) >= Threshold(f) }

  // ---- Counting ----

  lemma {:induction false} CountsAdd(group: seq<Entry>, a: string, b: string)
    requires a != b
    ensures CountOf(group, a) + CountOf(group, b) <= |group|
  {
    if group != [] { CountsAdd(group[..|group| - 1], a, b); }
  }

  /** Among the entries of f + 1 records at most one result can reach the threshold. */
  lemma MajorityIsUnique(f: nat, rs: seq<Record>, id: OpId, a: string, b: string)
    requires |rs| <= QuorumSize(f)
    requires HasMajority(f, Tentatives(rs, id), a) && HasMajority(f, Tentatives(rs, id), b)
    ensures a == b
  {
    if a != b { CountsAdd(Tentatives(rs, id), a, b); }
  }

  /** The records that hold `id` tentatively with `result`. */
  function Backers(rs: seq<Record>, id: OpId, result: string): set<nat> {
    set i | 0 <= i < |rs| && id in rs[i] && !Adopted(rs[i][id]) && rs[i][id].result == result
  }

  predicate Backs(r: Record, id: OpId, result: string) {
    id in r && !Adopted(r[id]) && r[id].result == result
  }

  lemma BackersOf(rs: seq<Record>, id: OpId, result: string, i: nat)
    requires rs != []
    ensures var n := |rs| - 1;
      i in Backers(rs, id, result) <==> i in Backers(rs[..n], id, result) || (i == n && Backs(rs[n], id, result))
    ensures i in Backers(rs[..|rs| - 1], id, result) ==> i < |rs| - 1
  {
    if i < |rs| - 1 { assert rs[..|rs| - 1][i] == rs[i]; }
  }

  lemma BackersMore(rs: seq<Record>, id: OpId, result: string)
    requires rs != []
    ensures var n := |rs| - 1;
      |Backers(rs, id, result)| == |Backers(rs[..n], id, result)| + if Backs(rs[n], id, result) then 1 else 0
  {
    hide Backers, Backs;
    var n := |rs| - 1;
    var all, before := Backers(rs, id, result), Backers(rs[..n], id, result);
    forall i: nat ensures i in all <==> i in before || (i == n && Backs(rs[n], id, result)) { BackersOf(rs, id, result, i); }
    BackersOf(rs, id, result, n);
    assert all == before + if Backs(rs[n], id, result) then {n} else {};
  }

  lemma CountMore(rs: seq<Record>, id: OpId, result: string)
    requires rs != []
    ensures var n := |rs| - 1;
      CountOf(Tentatives(rs, id), result) ==
      CountOf(Tentatives(rs[..n], id), result) + if Backs(rs[n], id, result) then 1 else 0
  {
    var n := |rs| - 1;
    if id in rs[n] && !Adopted(rs[n][id]) {
      var group := Tentatives(rs, id);
      assert group[..|group| - 1] == Tentatives(rs[..n], id);
    } else {
      assert Tentatives(rs, id) == Tentatives(rs[..n], id);
    }
  }

  lemma {:induction false} CountIsBackers(rs: seq<Record>, id: OpId, result: string)
    ensures CountOf(Tentatives(rs, id), result) == |Backers(rs, id, result)|
  {
    if rs != [] {
      CountIsBackers(rs[..|rs| - 1], id, result);
      BackersMore(rs, id, result);
      CountMore(rs, id, result);
    }
  }

  function Without(rs: seq<Record>, j: nat): seq<Record>
    requires j < |rs|
  {
    rs[..j] + rs[j + 1..]
  }

  lemma WithoutMembers(rs: seq<Record>, j: nat)
    requires j < |rs|
    ensures multiset(Without(rs, j)) == multiset(rs) - multiset{rs[j]}
  {
    assert rs == rs[..j] + [rs[j]] + rs[j + 1..];
  }

  lemma {:induction false} CountWithout(rs: seq<Record>, j: nat, id: OpId, result: string)
    requires j < |rs|
    ensures CountOf(Tentatives(rs, id), result) ==
      CountOf(Tentatives(Without(rs, j), id), result) + if Backs(rs[j], id, result) then 1 else 0
    decreases |rs|
  {
    hide CountOf, Tentatives, Backs;
    var n := |rs| - 1;
    CountMore(rs, id, result);
    if j == n {
      assert Without(rs, j) == rs[..n];
    } else {
      CountWithout(rs[..n], j, id, result);
      assert Without(rs, j)[..n - 1] == Without(rs[..n], j) && Without(rs, j)[n - 1] == rs[n];
      CountMore(Without(rs, j), id, result);
    }
  }

  /** The count of a result does not depend on the order of the records. */
  lemma {:induction false} CountIgnoresOrder(rs: seq<Record>, rs': seq<Record>, id: OpId, result: string)
    requires multiset(rs) == multiset(rs')
    ensures CountOf(Tentatives(rs, id), result) == CountOf(Tentatives(rs', id), result)
    decreases |rs|
  {
    hide CountOf, Backs;
    if rs == [] {
      assert |rs'| == |multiset(rs')| == 0;
    } else {
      hide Tentatives;
      var n := |rs| - 1;
      WithoutMembers(rs, n);
      assert Without(rs, n) == rs[..n];
      assert rs[n] in multiset(rs');
      var j: nat :| j < |rs'| && rs'[j] == rs[n];
      WithoutMembers(rs', j);
      CountIgnoresOrder(rs[..n], Without(rs', j), id, result);
      CountWithout(rs', j, id, result);
      CountMore(rs, id, result);
    }
  }

  lemma SameMembers(rs: seq<Record>, rs': seq<Record>, id: OpId)
    requires multiset(rs) == multiset(rs')
    ensures Known(rs, id) <==> Known(rs', id)
    ensures SettledIn(rs, id) <==> SettledIn(rs', id)
  {
    assert forall r :: r in rs <==> r in multiset(rs);
    assert forall r :: r in rs' <==> r in multiset(rs');
    assert forall i :: 0 <= i < |rs| ==> rs[i] in rs';
    assert forall i :: 0 <= i < |rs'| ==> rs'[i] in rs;
  }

  // ---- The fast path ----

  /** `held[k]` is the record of replica `k`; the records `rs` come from the distinct replicas `from`. */
  predicate RecordsOf(f: nat, held: seq<Record>, from: seq<nat>, rs: seq<Record>) {
    && |held| == 2 * f + 1 && |from| == |rs|
    && (forall i :: 0 <= i < |from| ==> from[i] < |held| && rs[i] == held[from[i]])
    && (forall i, j :: 0 <= i < j < |from| ==> from[i] != from[j])
  }

  /** A fast quorum of replicas has recorded `result` for `id`. */
  predicate FastDecided(f: nat, held: seq<Record>, id: OpId, result: string, quorum: set<nat>) {
    && |quorum| >= FastQuorumSize(f)
    && (forall k :: k in quorum ==> k < |held| && id in held[k] && held[k][id].result == result)
  }

  function Members(from: seq<nat>): set<nat> { set k | k in from }

  lemma {:induction false} DistinctSize(from: seq<nat>)
    requires forall i, j :: 0 <= i < j < |from| ==> from[i] != from[j]
    ensures |Members(from)| == |from|
  {
    if from != [] {
      var n := |from| - 1;
      var all, before := Members(from), Members(from[..n]);
      DistinctSize(from[..n]);
      assert all == before + {from[n]};
    }
  }

  function Index(from: seq<nat>, k: nat): (i: nat)
    requires k in from
    ensures i < |from| && from[i] == k
  {
    if from[0] == k then 0 else 1 + Index(from[1..], k)
  }

  lemma {:induction false} MapsInto(ks: set<nat>, from: seq<nat>, into: set<nat>)
    requires forall k :: k in ks ==> k in from && Index(from, k) in into
    ensures |ks| <= |into|
    decreases |ks|
  {
    if ks != {} {
      var k :| k in ks;
      var i := Index(from, k);
      forall l | l in ks - {k} ensures Index(from, l) in into - {i} {
        assert from[Index(from, l)] == l;
      }
      MapsInto(ks - {k}, from, into - {i});
    }
  }

  /** Enough of any f + 1 records are from the fast quorum. */
  lemma FastQuorumMeets(f: nat, held: seq<Record>, from: seq<nat>, rs: seq<Record>, quorum: set<nat>)
    requires RecordsOf(f, held, from, rs) && |rs| >= QuorumSize(f)
    requires |quorum| >= FastQuorumSize(f) && forall k :: k in quorum ==> k < |held|
    ensures |quorum * Members(from)| >= Threshold(f)
  {
    DistinctSize(from);
    Overlap(quorum, Members(from), Replicas(2 * f + 1));
  }

  /**
   A result that a fast quorum has recorded survives the merge of any f + 1 records, for every f:
   the operation is adopted with that result, or its group has that result as its one majority.
   */
  lemma FastPathSurvives(f: nat, held: seq<Record>, from: seq<nat>, rs: seq<Record>, id: OpId, result: string, quorum: set<nat>)
    requires RecordsOf(f, held, from, rs) && |rs| == QuorumSize(f)
    requires FastDecided(f, held, id, result, quorum)
    requires forall k :: 0 <= k < |held| && id in held[k] && Adopted(held[k][id]) ==> held[k][id].result == result
    ensures SettledIn(rs, id) || HasMajority(f, Tentatives(rs, id), result)
    ensures SettledIn(rs, id) ==> forall i :: 0 <= i < |rs| && id in rs[i] && Adopted(rs[i][id]) ==> rs[i][id].result == result
    ensures !SettledIn(rs, id) ==> forall other :: HasMajority(f, Tentatives(rs, id), other) ==> other == result
  {
    FastQuorumMeets(f, held, from, rs, quorum);
    if !SettledIn(rs, id) {
      var common := quorum * Members(from);
      forall k | k in common ensures Index(from, k) in Backers(rs, id, result) {
        var i := Index(from, k);
        assert rs[i] == held[k];
      }
      MapsInto(common, from, Backers(rs, id, result));
      CountIsBackers(rs, id, result);
      forall other | HasMajority(f, Tentatives(rs, id), other) ensures other == result {
        MajorityIsUnique(f, rs, id, other, result);
      }
    }
  }

  // ---- The thresholds are the least ----

  /** With a lower threshold, two results could both reach it among f + 1 entries. */
  lemma ThresholdIsLeast(f: nat, t: nat, id: OpId, a: string, b: string) returns (group: seq<Entry>)
    requires t < Threshold(f) && a != b
    ensures |group| == f + 1 && CountOf(group, a) >= t && CountOf(group, b) >= t
  {
    var x, y := Entry(0, id, Tentative, Consensus, "", a), Entry(0, id, Tentative, Consensus, "", b);
    group := seq(t, _ => x) + seq(f + 1 - t, _ => y);
    CountBlocks(x, y, t, f + 1 - t);
  }

  lemma {:induction false} CountBlocks(x: Entry, y: Entry, m: nat, n: nat)
    requires x.result != y.result
    ensures CountOf(seq(m, _ => x) + seq(n, _ => y), x.result) == m
    ensures CountOf(seq(m, _ => x) + seq(n, _ => y), y.result) == n
    decreases m + n
  {
    var group := seq(m, _ => x) + seq(n, _ => y);
    if n > 0 {
      assert group[..m + n - 1] == seq(m, _ => x) + seq(n - 1, _ => y);
      CountBlocks(x, y, m, n - 1);
    } else if m > 0 {
      assert group[..m - 1] == seq(m - 1, _ => x) + seq(0, _ => y);
      CountBlocks(x, y, m - 1, 0);
    }
  }

  /** With a smaller fast quorum, too few of some f + 1 replicas would be in it for the threshold. */
  lemma FastQuorumIsLeast(f: nat, size: nat) returns (quorum: set<nat>, others: set<nat>)
    requires size < FastQuorumSize(f)
    ensures |quorum| == size && |others| == f + 1
    ensures forall k :: k in quorum + others ==> k < 2 * f + 1
    ensures |quorum * others| < Threshold(f)
  {
    quorum, others := Replicas(size), Replicas(2 * f + 1) - Replicas(f);
    assert Replicas(f) <= Replicas(2 * f + 1);
    var common := Replicas(size) - Replicas(f);
    if size >= f {
      assert Replicas(f) <= Replicas(size) && |common| == size - f;
    } else {
      assert common == {};
    }
    assert quorum * others <= common;
    SubsetSize(quorum * others, common);
  }
}
