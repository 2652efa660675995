/**
 The OCC store as the C++ code keeps it (src/store/strongstore/occstore.cc:45-234): beside
 the prepared transactions, two indexes by key that save looking through all of them. The
 indexes always agree with what they stand for, so each method does what `OccRuns` says.
 */
module OccStore {
  import opened RssTypes
  import opened OccRuns

  type Index = map<Key, set<nat>>

  function At(index: Index, k: Key): set<nat> {
    if k in index then index[k] else {}
  }

  function Insert(index: Index, k: Key, id: nat): Index {
    index[k := At(index, k) + {id}]
  }

  /** Erases `id`, and the key with it if nothing is left. */
  function Erase(index: Index, k: Key, id: nat): Index {
    if k !in index then index
    else if index[k] - {id} == {} then index - {k}
    else index[k := index[k] - {id}]
  }

  /** No key is kept for an empty set. */
  ghost predicate Tight(index: Index) {
    forall k :: k in index ==> index[k] != {}
  }

  method InsertAll(index: Index, keys: set<Key>, id: nat) returns (r: Index)
    requires Tight(index)
    ensures Tight(r)
    ensures forall k :: At(r, k) == At(index, k) + if k in keys then {id} else {}
  {
    r := index;
    var left := keys;
    while left != {}
      invariant left <= keys && Tight(r)
      invariant forall k :: At(r, k) == At(index, k) + if k in keys - left then {id} else {}
    {
      var k :| k in left;
      r := Insert(r, k, id);
      left := left - {k};
    }
  }

  method EraseAll(index: Index, keys: set<Key>, id: nat) returns (r: Index)
    requires Tight(index)
    ensures Tight(r)
    ensures forall k :: At(r, k) == At(index, k) - if k in keys then {id} else {}
  {
    r := index;
    var left := keys;
    while left != {}
      invariant left <= keys && Tight(r)
      invariant forall k :: At(r, k) == At(index, k) - if k in keys - left then {id} else {}
    {
      var k :| k in left;
      r := Erase(r, k, id);
      left := left - {k};
    }
  }

  lemma Added(prepared: map<nat, Transaction>, id: nat, t: Transaction, k: Key)
    requires id !in prepared
    ensures Writers(prepared[id := t], k) == Writers(prepared, k) + if k in t.writeSet then {id} else {}
    ensures Users(prepared[id := t], k) == Users(prepared, k) + if k in t.writeSet || k in t.readSet then {id} else {}
  {
  }

  lemma Removed(prepared: map<nat, Transaction>, id: nat, k: Key)
    requires id in prepared
    ensures Writers(prepared - {id}, k) == Writers(prepared, k) - if k in prepared[id].writeSet then {id} else {}
    ensures Users(prepared - {id}, k) ==
      Users(prepared, k) - if k in prepared[id].writeSet || k in prepared[id].readSet then {id} else {}
  {
  }

  class Store {
    var store: map<Key, Version>
    var prepared: map<nat, Transaction>
    var pWrites: Index
    var pRW: Index

    /** The indexes are exactly what they stand for, and have no empty sets. */
    ghost predicate Valid()
      reads this
    {
      && Tight(pWrites) && Tight(pRW)
      && (forall k :: At(pWrites, k) == Writers(prepared, k))
      && (forall k :: At(pRW, k) == Users(prepared, k))
    }

    ghost function State(): Occ
      reads this
    {
      Occ(store, prepared)
    }

    constructor (store: map<Key, Version>)
      ensures Valid() && State() == Occ(store, map[])
    {
      this.store, prepared, pWrites, pRW := store, map[], map[], map[];
    }

    method Get(k: Key) returns (found: bool, version: Version)
      ensures found <==> k in store
      ensures found ==> version == store[k]
    {
      if k in store { return true, store[k]; }
      return false, Version(Timestamp(0, 0), "");
    }

    /** Checks the read set against the committed versions and the pending writes. */
    method ReadsConflict(t: Transaction) returns (conflict: bool)
      requires Valid()
      ensures conflict <==> exists k :: k in t.readSet && (Stale(store, k, t.readSet[k]) || Writers(prepared, k) != {})
    {
      var left := t.readSet.Keys;
      while left != {}
        invariant left <= t.readSet.Keys
        invariant forall k :: k in t.readSet && k !in left ==> !Stale(store, k, t.readSet[k]) && Writers(prepared, k) == {}
      {
        var k :| k in left;
        assert At(pWrites, k) == Writers(prepared, k);
        var found, cur := Get(k);
        if found && cur.ts != t.readSet[k] { return true; }
        if k in pWrites { return true; }
        left := left - {k};
      }
      conflict := false;
    }

    /** Checks the write set against the pending reads and writes. */
    method WritesConflict(t: Transaction) returns (conflict: bool)
      requires Valid()
      ensures conflict <==> exists k :: k in t.writeSet && Users(prepared, k) != {}
    {
      var left := t.writeSet.Keys;
      while left != {}
        invariant left <= t.writeSet.Keys
        invariant forall k :: k in t.writeSet && k !in left ==> Users(prepared, k) == {}
      {
        var k :| k in left;
        assert At(pRW, k) == Users(prepared, k);
        if k in pRW { return true; }
        left := left - {k};
      }
      conflict := false;
    }

    method Prepare(id: nat, t: Transaction) returns (ok: bool)
      requires Valid()
      modifies this
      ensures Valid() && (State(), ok) == OccRuns.Prepare(old(State()), id, t)
    {
      if id in prepared { return true; }
      var conflict := ReadsConflict(t);
      if !conflict { conflict := WritesConflict(t); }
      if conflict {
        assert prepared - {id} == prepared;
        Abort(id);
        return false;
      }
      PrepareTransaction(id, t);
      ok := true;
    }

    method PrepareTransaction(id: nat, t: Transaction)
      requires Valid() && id !in prepared
      modifies this`prepared, this`pWrites, this`pRW
      ensures Valid() && prepared == old(prepared)[id := t]
    {
      hide Writers, Users, At, Tight;
      prepared := prepared[id := t];
      pWrites := InsertAll(pWrites, t.writeSet.Keys, id);
      pRW := InsertAll(pRW, t.writeSet.Keys, id);
      pRW := InsertAll(pRW, t.readSet.Keys, id);
      forall k ensures At(pWrites, k) == Writers(prepared, k) && At(pRW, k) == Users(prepared, k) {
        Added(old(prepared), id, t, k);
      }
    }

    /** Puts every write, one after the other. */
    method PutAll(writes: map<Key, string>, ts: Timestamp)
      modifies this`store
      ensures store == Written(old(store), writes, ts) && Installs(old(store), writes, ts, store)
    {
      var left := writes.Keys;
      while left != {}
        invariant left <= writes.Keys
        invariant store == old(store) + map k | k in writes && k !in left :: Version(ts, writes[k])
      {
        var k :| k in left;
        store := store[k := Version(ts, writes[k])];
        left := left - {k};
      }
    }

    /** `!ok` is the assertion that the transaction is prepared. */
    method Commit(id: nat, ts: Timestamp) returns (ok: bool, wrote: bool)
      requires Valid()
      modifies this
      ensures Valid()
      ensures ok <==> id in old(prepared)
      ensures ok ==> State() == OccRuns.Commit(old(State()), id, ts) && wrote == (old(prepared)[id].writeSet != map[])
      ensures ok ==> Installs(old(store), old(prepared)[id].writeSet, ts, store) && prepared == old(prepared) - {id}
      ensures !ok ==> State() == old(State())
    {
      if id !in prepared { return false, false; }
      hide Writers, Users, At, Tight, Written, Installs;
      var t := prepared[id];
      PutAll(t.writeSet, ts);
      Clean(id);
      return true, t.writeSet != map[];
    }

    method Abort(id: nat)
      requires Valid()
      modifies this
      ensures Valid() && State() == OccRuns.Abort(old(State()), id)
      ensures store == old(store) && prepared == old(prepared) - {id}
    {
      Clean(id);
    }

    method Clean(id: nat)
      requires Valid()
      modifies this`prepared, this`pWrites, this`pRW
      ensures Valid() && prepared == old(prepared) - {id}
    {
      hide Writers, Users, At, Tight;
      if id in prepared {
        var t := prepared[id];
        pWrites := EraseAll(pWrites, t.writeSet.Keys, id);
        pRW := EraseAll(pRW, t.writeSet.Keys, id);
        pRW := EraseAll(pRW, t.readSet.Keys, id);
        prepared := prepared - {id};
        forall k ensures At(pWrites, k) == Writers(prepared, k) && At(pRW, k) == Users(prepared, k) {
          Removed(old(prepared), id, k);
        }
      }
    }
  }
}
