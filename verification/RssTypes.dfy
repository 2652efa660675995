/**
 Timestamps, values and prepared transactions of the transactional store
 (src/store/common/timestamp.cc, src/store/strongstore/preparedtransaction.h).
 */
module RssTypes {

  type Key = string

  datatype Timestamp = Timestamp(time: nat, id: nat)

  /** The largest value of two 64-bit words. */
  const MAX_WORD: nat := 0xFFFF_FFFF_FFFF_FFFF
  const MAX := Timestamp(MAX_WORD, MAX_WORD)

  predicate Less(a: Timestamp, b: Timestamp) {
    a.time < b.time || (a.time == b.time && a.id < b.id)
  }

  predicate Leq(a: Timestamp, b: Timestamp) { !Less(b, a) }

  function Later(a: Timestamp, b: Timestamp): (m: Timestamp)
    ensures Leq(a, m) && Leq(b, m) && (m == a || m == b)
  {
    if Less(a, b) then b else a
  }

  /** What transaction `tid` wrote to `key` when it committed at `ts`. */
  datatype Value = Value(tid: nat, ts: Timestamp, key: Key, val: string)

  /** A prepared transaction, with those of its writes that matter to whoever is told of it. */
  datatype Prepared = Prepared(tid: nat, prepareTs: Timestamp, writes: map<Key, string>)
}
