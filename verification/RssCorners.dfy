/**
 Behaviours in which a client is misled, because identifier 0, which client 0 gives to its
 first transaction, is also that of the loaded versions. In the first, a reported write of
 transaction 0 is struck out too early, and transaction 0 then commits before the snapshot. In
 the second, the invented value makes the snapshot too early, and the client reads a write
 that nobody has committed; with the replies in another order it is not misled.
 */
module RssCorners {
  import opened RssTypes
  import opened RssSession
  import opened RssShards
  import opened RssInvariant
  import opened RssSnapshot
  import opened RssTheorems
  import opened RssStands

  const START := Timestamp(0, 0)
  const READ := Timestamp(10, 1)
  const EARLY := Timestamp(5, 2)
  const MIDDLE := Timestamp(8, 2)
  const PAST := Timestamp(9, 2)
  const LATE := Timestamp(20, 2)

  /** Transaction 5 reads key `a` on shard 0 and key `b` on shard 1; it does not read from shard 2. */
  function Both(a: Key, b: Key): Reader { Reader(true, 5, START, READ, {a, b}, map[a := 0, b := 1]) }

  /** What the steps below use of it. */
  ghost predicate Reads(c: Reader) {
    c.Valid() && c.rss && c.tid == 5 && c.minTs == START && c.readTs == READ
  }

  function Old(k: Key): Value { Value(0, START, k, "old") }
  function New(k: Key): Value { Value(7, MIDDLE, k, "new") }
  function Writes(k: Key): map<Key, string> { map[k := "new"] }

  const LOADED := Shard(START, map[], map[], Unseen, {}, {})

  function Fresh(k: Key): Shard { LOADED.(versions := map[k := {Old(k)}]) }
  /** Transaction 7 has written `k`. */
  function Written(k: Key): Shard { LOADED.(clock := MIDDLE, versions := map[k := {Old(k), New(k)}]) }
  /** Transaction 0 has prepared a write of `k`, and may not have ended by the time of the read. */
  function Preparing(p: Shard, k: Key, ts: Timestamp): Shard { p.(clock := ts, pending := map[0 := Pending(ts, LATE, Writes(k))]) }
  function Arrived(p: Shard): Shard { p.(clock := READ, phase := Waiting, skipped := p.pending.Keys) }

  // ---- Steps ----

  function Deciding(k: Key): Shard { Fresh(k).(clock := MIDDLE, pending := map[7 := Pending(MIDDLE, START, Writes(k))]) }

  lemma Decides(c: Reader, s: System, s': System, q: nat, k: Key)
    requires Reads(c) && k in c.home && c.home[k] == q && q in s.shards && s.shards[q] == Fresh(k) && 7 !in s.outcomes
    requires forall t :: t in s.shards ==> 7 !in s.shards[t].pending
    requires s' == s.(shards := s.shards[q := Deciding(k)], outcomes := s.outcomes[7 := Committed(MIDDLE)])
    ensures Takes(c, s, s', DecideCommit(q, 7, 2, 8, START, START, Writes(k), MIDDLE))
  {
    assert PrepareTimestamp(START, 2, 8) == MIDDLE;
  }

  lemma Applies(c: Reader, s: System, s': System, q: nat, k: Key)
    requires Reads(c) && q in s.shards && s.shards[q] == Deciding(k) && 7 in s.outcomes && s.outcomes[7] == Committed(MIDDLE)
    requires s' == s.(shards := s.shards[q := Written(k)])
    ensures Takes(c, s, s', Finish(q, 7))
  {
    assert Deciding(k).pending - {7} == map[];
    assert {Old(k)} + {New(k)} == {Old(k), New(k)};
  }

  /** Transaction 7 writes `k`, from decision to version. */
  lemma Commits(c: Reader, before: seq<System>, q: nat, k: Key) returns (run: seq<System>)
    requires Reads(c) && Behaviour(c, before) && k in c.home && c.home[k] == q
    requires q in Last(before).shards && Last(before).shards[q] == Fresh(k) && 7 !in Last(before).outcomes
    requires forall t :: t in Last(before).shards ==> 7 !in Last(before).shards[t].pending
    ensures Behaviour(c, run)
    ensures var s := Last(before);
      Last(run) == s.(shards := s.shards[q := Written(k)], outcomes := s.outcomes[7 := Committed(MIDDLE)])
  {
    var s := Last(before);
    var s1 := s.(shards := s.shards[q := Deciding(k)], outcomes := s.outcomes[7 := Committed(MIDDLE)]);
    var s2 := s1.(shards := s1.shards[q := Written(k)]);
    hide Behaviour, Takes, Written, Deciding, Fresh;
    Decides(c, s, s1, q, k);
    run := Continue(c, before, s1, DecideCommit(q, 7, 2, 8, START, START, Writes(k), MIDDLE));
    Applies(c, s1, s2, q, k);
    run := Continue(c, run, s2, Finish(q, 7));
  }

  lemma ZeroPrepares(c: Reader, before: seq<System>, q: nat, k: Key, ts: Timestamp) returns (run: seq<System>)
    requires Reads(c) && Behaviour(c, before) && k in c.home && c.home[k] == q
    requires var s := Last(before); q in s.shards && s.shards[q].pending == map[] && s.shards[q].clock.time < ts.time && 0 !in s.outcomes
    ensures Behaviour(c, run)
    ensures var s := Last(before); Last(run) == s.(shards := s.shards[q := Preparing(s.shards[q], k, ts)])
  {
    var s := Last(before);
    var s1 := s.(shards := s.shards[q := Preparing(s.shards[q], k, ts)]);
    assert Takes(c, s, s1, Prepare(q, 0, ts.id, ts.time, LATE, Writes(k)));
    hide Behaviour, Takes, Preparing;
    run := Continue(c, before, s1, Prepare(q, 0, ts.id, ts.time, LATE, Writes(k)));
  }

  /** The read arrives at a shard on which nothing is pending, or only transaction 0, which it skips. */
  lemma Arrives(c: Reader, before: seq<System>, q: nat, k: Key) returns (run: seq<System>)
    requires Reads(c) && Behaviour(c, before) && k in c.keys && c.home[k] == q && q in Last(before).shards
    requires var p := Last(before).shards[q];
      && p.phase == Unseen && p.waiting == {} && Leq(p.clock, READ)
      && (p.pending == map[] || exists ts :: Less(START, ts) && Leq(ts, READ) && p.pending == map[0 := Pending(ts, LATE, Writes(k))])
    ensures Behaviour(c, run)
    ensures var s := Last(before); Last(run) == s.(shards := s.shards[q := Arrived(s.shards[q])])
  {
    var s, p := Last(before), Last(before).shards[q];
    var s1 := s.(shards := s.shards[q := Arrived(p)]);
    assert q in c.Shards();
    if p.pending != map[] {
      assert k in Writes(k).Keys * c.At(q);
      assert Conflicts(c, q, p.pending[0]) && Skippable(c, p.pending[0]);
    }
    assert Takes(c, s, s1, StartRead(q));
    hide Behaviour, Takes, Arrived;
    run := Continue(c, before, s1, StartRead(q));
  }

  lemma Replies(c: Reader, before: seq<System>, q: nat, k: Key, v: Value, ps: seq<Prepared>) returns (run: seq<System>)
    requires Reads(c) && Behaviour(c, before) && c.At(q) == {k} && q in Last(before).shards && q !in Last(before).fast
    requires var p := Last(before).shards[q];
      && p.phase == Waiting && p.waiting == {} && v.key == k && Newest(VersionsOf(p, k), READ, v)
      && Reports(c, q, p, ps)
    ensures Behaviour(c, run)
    ensures var s := Last(before);
      Last(run) == s.(shards := s.shards[q := s.shards[q].(phase := Answered)], fast := s.fast[q := FastReply([v], ps)])
  {
    var s := Last(before);
    var s1 := s.(shards := s.shards[q := s.shards[q].(phase := Answered)], fast := s.fast[q := FastReply([v], ps)]);
    assert Takes(c, s, s1, Answer(q)) by { hide Reports; }
    hide Behaviour, Takes, Reports;
    run := Continue(c, before, s1, Answer(q));
  }

  lemma OneValue(values: Values, v: Value)
    requires v.key !in values
    ensures AddValues(values, [v]) == values[v.key := [v]]
  {
    assert [v][..0] == [];
    assert AddValues(values, []) == values;
  }

  /** The client takes the reply of shard 0, and waits for the other. */
  lemma TakesFirst(c: Reader, before: seq<System>, v: Value) returns (run: seq<System>)
    requires Reads(c) && Behaviour(c, before)
    requires var s := Last(before);
      s.session == Session({0, 1}, map[], map[], START) && s.verdict == Wait && 0 in s.fast && s.fast[0] == FastReply([v], [])
    ensures Behaviour(c, run)
    ensures Last(run) == Last(before).(session := Session({1}, map[v.key := [v]], map[], START))
  {
    var s := Last(before);
    var s1 := s.(session := Session({1}, map[v.key := [v]], map[], START));
    OneValue(map[], v);
    assert {0, 1} - {0} == {1};
    assert Takes(c, s, s1, TakeFast(0));
    hide Behaviour, Takes;
    run := Continue(c, before, s1, TakeFast(0));
  }

  // ---- The mistake ----

  function Report(k: Key, ts: Timestamp): Prepared { Prepared(0, ts, Writes(k)) }

  /** The value that the client makes up: the prepared write, as if it had committed with the loaded versions. */
  function MadeUp(k: Key): Value { Value(0, START, k, "new") }

  /** The session when the reply of shard 1 has come, with `u` for key `a` and `v` for key `b`. */
  function BothTaken(a: Key, b: Key, u: Value, v: Value, ts: Timestamp): Session {
    Session({}, map[a := [u], b := [v]], map[0 := Report(b, ts)], START)
  }

  /** It strikes out transaction 0, and has its write besides `v`. */
  function Mistaken(a: Key, b: Key, u: Value, v: Value, snapshot: Timestamp): Session {
    Session({}, map[a := [u], b := [v, MadeUp(b)]], map[], snapshot)
  }

  lemma ZeroIsStruck(a: Key, b: Key, u: Value, v: Value, ts: Timestamp)
    requires a != b && u.key == a && v.key == b && (u == Old(a) || v == Old(b))
    ensures FoundCommitted(BothTaken(a, b, u, v, ts), Mistaken(a, b, u, v, START))
  {
    var s, more := BothTaken(a, b, u, v, ts), [MadeUp(b)];
    assert SeenAt(s.values, 0, START) && Seen(s.values, 0) by { assert u in s.values[a] && v in s.values[b]; }
    assert MadeUp(b) in more;
    assert FoundAt(s.values, 0, s.prepares[0].writes, more, START);
    assert FoundWrites(s.values, s.prepares, more);
    assert more[..0] == [] && AddValues(s.values, []) == s.values;
    assert Insert([v], MadeUp(b)) == [v, MadeUp(b)] by { assert [v][1..] == []; }
    assert Mistaken(a, b, u, v, START).values == AddValues(s.values, more);
  }

  lemma SnapshotOfFirst(a: Key, b: Key, u: Value, v: Value)
    requires a != b
    ensures IsSnapshot(Mistaken(a, b, u, v, u.ts).values, u.ts)
  {
    var values: Values := Mistaken(a, b, u, v, u.ts).values;
    assert values[a][0].ts == u.ts;
    assert values[b][1].ts == START;
  }

  lemma AllAnswered(a: Key, b: Key, u: Value, v: Value, ts: Timestamp)
    requires a != b && u.key == a && v.key == b && (u == Old(a) || v == Old(b))
    ensures AllFast(BothTaken(a, b, u, v, ts), Mistaken(a, b, u, v, u.ts))
  {
    hide FoundCommitted, IsSnapshot;
    ZeroIsStruck(a, b, u, v, ts);
    SnapshotOfFirst(a, b, u, v);
    assert Mistaken(a, b, u, v, u.ts) == Mistaken(a, b, u, v, START).(snapshot := u.ts);
  }

  lemma SecondIsTaken(c: Reader, s: System, s': System, a: Key, b: Key, u: Value, v: Value, ts: Timestamp)
    requires Reads(c) && a != b && u.key == a && v.key == b && (u == Old(a) || v == Old(b)) && Leq(u.ts, MIDDLE)
    requires s.session == Session({1}, map[a := [u]], map[], START) && s.verdict == Wait
    requires 1 in s.fast && s.fast[1] == FastReply([v], [Report(b, ts)])
    requires s' == s.(session := Mistaken(a, b, u, v, u.ts), verdict := Commit(u.ts))
    ensures Takes(c, s, s', TakeFast(1))
  {
    assert CheckCommit(true, s'.session) == Commit(u.ts);
    hide AllFast, AddValues, AddPrepares;
    TakesIn(s.session, a, b, u, v, ts);
    AllAnswered(a, b, u, v, ts);
  }

  lemma TakesSecond(c: Reader, before: seq<System>, a: Key, b: Key, u: Value, v: Value, ts: Timestamp) returns (run: seq<System>)
    requires Reads(c) && Behaviour(c, before) && a != b && u.key == a && v.key == b && (u == Old(a) || v == Old(b)) && Leq(u.ts, MIDDLE)
    requires var s := Last(before);
      s.session == Session({1}, map[a := [u]], map[], START) && s.verdict == Wait && 1 in s.fast && s.fast[1] == FastReply([v], [Report(b, ts)])
    ensures Behaviour(c, run)
    ensures Last(run) == Last(before).(session := Mistaken(a, b, u, v, u.ts), verdict := Commit(u.ts))
  {
    var s := Last(before);
    var s1 := s.(session := Mistaken(a, b, u, v, u.ts), verdict := Commit(u.ts));
    hide Behaviour, Takes, Mistaken;
    SecondIsTaken(c, s, s1, a, b, u, v, ts);
    run := Continue(c, before, s1, TakeFast(1));
  }

  lemma TakesIn(ss: Session, a: Key, b: Key, u: Value, v: Value, ts: Timestamp)
    requires a != b && u.key == a && v.key == b && ss == Session({1}, map[a := [u]], map[], START)
    ensures ss.(participants := ss.participants - {1}, values := AddValues(ss.values, [v]),
                prepares := AddPrepares(ss.prepares, [Report(b, ts)])) == BothTaken(a, b, u, v, ts)
  {
    OneValue(map[a := [u]], v);
    assert [Report(b, ts)][..0] == [] && AddPrepares(map[], []) == map[];
  }

  // ---- A transaction that was struck out too early ----

  lemma Starts(a: Key, b: Key) returns (c: Reader, run: seq<System>)
    requires a != b
    ensures c == Both(a, b) && Reads(c) && Behaviour(c, run) && c.At(0) == {a} && c.At(1) == {b}
    ensures Last(run) == System(map[0 := Fresh(a), 1 := Fresh(b), 2 := LOADED], map[], map[], {}, Session({0, 1}, map[], map[], START), Wait)
  {
    c := Both(a, b);
    assert c.Shards() == {0, 1} by { assert c.home[a] == 0 && c.home[b] == 1; }
    run := [System(map[0 := Fresh(a), 1 := Fresh(b), 2 := LOADED], map[], map[], {}, Session({0, 1}, map[], map[], START), Wait)];
  }

  lemma ReportsZero(c: Reader, q: nat, k: Key, p: Shard, ts: Timestamp)
    requires Reads(c) && c.At(q) == {k} && p.skipped == {0} && p.pending == map[0 := Pending(ts, LATE, Writes(k))]
    ensures Reports(c, q, p, [Report(k, ts)])
  {
    assert Writes(k).Keys * c.At(q) == Writes(k).Keys;
    assert Report(k, ts) in [Report(k, ts)];
  }

  lemma ReportsNothing(c: Reader, q: nat, p: Shard)
    requires Reads(c) && p.skipped == {}
    ensures Reports(c, q, p, [])
  {
  }

  lemma FreshFacts(k: Key)
    ensures Fresh(k).pending == map[] && Fresh(k).clock == START
  {
  }

  lemma FirstCommits(a: Key, b: Key) returns (c: Reader, run: seq<System>)
    requires a != b
    ensures c == Both(a, b) && Reads(c) && Behaviour(c, run) && c.At(0) == {a} && c.At(1) == {b}
    ensures Last(run) == System(map[0 := Written(a), 1 := Fresh(b), 2 := LOADED],
                                map[7 := Committed(MIDDLE)], map[], {}, Session({0, 1}, map[], map[], START), Wait)
  {
    hide Behaviour, Fresh, Written, Reads;
    c, run := Starts(a, b);
    FreshFacts(a);
    FreshFacts(b);
    run := Commits(c, run, 0, a);
  }

  /** Transaction 7 has committed its write of `a` at 8, and transaction 0 has prepared its write of `b` at 5. */
  lemma ZeroIsEarlier(a: Key, b: Key) returns (c: Reader, run: seq<System>)
    requires a != b
    ensures c == Both(a, b) && Reads(c) && Behaviour(c, run) && c.At(0) == {a} && c.At(1) == {b}
    ensures Last(run) == System(map[0 := Written(a), 1 := Preparing(Fresh(b), b, EARLY), 2 := LOADED],
                                map[7 := Committed(MIDDLE)], map[], {}, Session({0, 1}, map[], map[], START), Wait)
  {
    hide Behaviour, Fresh, Written, Preparing, Reads;
    c, run := FirstCommits(a, b);
    FreshFacts(b);
    run := ZeroPrepares(c, run, 1, b, EARLY);
  }

  lemma ReadArrives(a: Key, b: Key) returns (c: Reader, run: seq<System>)
    requires a != b
    ensures c == Both(a, b) && Reads(c) && Behaviour(c, run) && c.At(0) == {a} && c.At(1) == {b}
    ensures Last(run) == System(map[0 := Arrived(Written(a)), 1 := Arrived(Preparing(Fresh(b), b, EARLY)), 2 := LOADED],
                                map[7 := Committed(MIDDLE)], map[], {}, Session({0, 1}, map[], map[], START), Wait)
  {
    c, run := ZeroIsEarlier(a, b);
    PreparingFacts(b);
    assert Written(a).phase == Unseen && Written(a).waiting == {} && Written(a).clock == MIDDLE && Written(a).pending == map[];
    hide Behaviour, Fresh, Written, Preparing, Arrived, Reads;
    run := Arrives(c, run, 0, a);
    run := Arrives(c, run, 1, b);
  }

  lemma PreparingFacts(b: Key)
    ensures var p := Preparing(Fresh(b), b, EARLY);
      && p.phase == Unseen && p.waiting == {} && p.clock == EARLY && p.pending == map[0 := Pending(EARLY, LATE, Writes(b))]
      && VersionsOf(p, b) == {Old(b)}
  {
  }

  function FirstReply(a: Key): FastReply { FastReply([New(a)], []) }
  function SecondReply(b: Key): FastReply { FastReply([Old(b)], [Report(b, EARLY)]) }

  lemma WrittenFacts(k: Key)
    ensures var p := Arrived(Written(k));
      p.phase == Waiting && p.waiting == p.skipped == {} && Newest(VersionsOf(p, k), READ, New(k))
  {
    assert VersionsOf(Arrived(Written(k)), k) == {Old(k), New(k)};
  }

  lemma FirstAnswers(a: Key, b: Key) returns (c: Reader, run: seq<System>)
    requires a != b
    ensures c == Both(a, b) && Reads(c) && Behaviour(c, run) && c.At(1) == {b}
    ensures Last(run) == System(map[0 := Arrived(Written(a)).(phase := Answered), 1 := Arrived(Preparing(Fresh(b), b, EARLY)), 2 := LOADED],
                                map[7 := Committed(MIDDLE)], map[0 := FirstReply(a)], {}, Session({0, 1}, map[], map[], START), Wait)
  {
    hide Behaviour, Fresh, Written, Preparing, Reads, Newest, Reports, VersionsOf;
    c, run := ReadArrives(a, b);
    WrittenFacts(a);
    ReportsNothing(c, 0, Arrived(Written(a)));
    run := Replies(c, run, 0, a, New(a), []);
  }

  lemma SecondAnswers(a: Key, b: Key) returns (c: Reader, run: seq<System>)
    requires a != b
    ensures c == Both(a, b) && Reads(c) && Behaviour(c, run)
    ensures Last(run) == System(
      map[0 := Arrived(Written(a)).(phase := Answered), 1 := Arrived(Preparing(Fresh(b), b, EARLY)).(phase := Answered), 2 := LOADED],
      map[7 := Committed(MIDDLE)], map[0 := FirstReply(a), 1 := SecondReply(b)], {}, Session({0, 1}, map[], map[], START), Wait)
  {
    c, run := FirstAnswers(a, b);
    var p := Arrived(Preparing(Fresh(b), b, EARLY));
    assert VersionsOf(p, b) == {Old(b)} && Newest(VersionsOf(p, b), READ, Old(b));
    assert p.skipped == {0};
    ReportsZero(c, 1, b, p, EARLY);
    hide Behaviour, Fresh, Written, Preparing, Reads, Newest, Reports, VersionsOf;
    run := Replies(c, run, 1, b, Old(b), [Report(b, EARLY)]);
  }

  /** The client strikes out transaction 0 and commits at 8. */
  lemma StruckOutEarly(a: Key, b: Key) returns (c: Reader, run: seq<System>)
    requires a != b
    ensures c == Both(a, b) && Reads(c) && Behaviour(c, run)
    ensures Last(run) == System(
      map[0 := Arrived(Written(a)).(phase := Answered), 1 := Arrived(Preparing(Fresh(b), b, EARLY)).(phase := Answered), 2 := LOADED],
      map[7 := Committed(MIDDLE)], map[0 := FirstReply(a), 1 := SecondReply(b)], {},
      Mistaken(a, b, New(a), Old(b), MIDDLE), Commit(MIDDLE))
  {
    c, run := SecondAnswers(a, b);
    hide Behaviour, Fresh, Written, Preparing, Arrived, Reads;
    run := TakesFirst(c, run, New(a));
    run := TakesSecond(c, run, a, b, New(a), Old(b), EARLY);
  }

  lemma IsMisled(c: Reader, s: System, a: Key, b: Key)
    requires a != b && c == Both(a, b) && Reads(c)
    requires s == System(
      map[0 := Arrived(Written(a)).(phase := Answered), 1 := Arrived(Preparing(Fresh(b), b, EARLY)).(phase := Answered), 2 := LOADED],
      map[7 := Committed(MIDDLE)], map[0 := FirstReply(a), 1 := SecondReply(b)], {},
      Mistaken(a, b, New(a), Old(b), MIDDLE), Commit(MIDDLE))
    ensures FastBy(c, s, b) && Forgotten(c, s, b) && MayCommitBy(s, MIDDLE)
  {
    assert c.home[b] == 1 && Old(b) in s.fast[1].values;
    assert 1 in c.Shards() && 1 in Received(c, s.session);
    var r := Report(b, EARLY);
    assert r in s.fast[1].prepares && ReportedBy(s, Received(c, s.session), r);
    assert FreeBy(s.shards[2], MIDDLE);
    assert 0 !in s.shards[0].pending && s.shards[1].pending[0].prepareTs == EARLY;
  }

  /**
   The client has committed at 8 with what it has of `b` before transaction 0; and in some
   continuation transaction 0 commits its write of `b` by then, so that the decision does not stand.
   */
  lemma ZeroOvertakes(a: Key, b: Key) returns (c: Reader, run: seq<System>, more: seq<System>)
    requires a != b
    ensures c.Valid() && b in c.keys && Behaviour(c, run) && Last(run).verdict == Commit(MIDDLE)
    ensures Continues(c, run, more) && !Stands(c, Last(more), b)
  {
    c, run := StruckOutEarly(a, b);
    IsMisled(c, Last(run), a, b);
    hide Behaviour, FastBy, Forgotten, MayCommitBy, Stands, Continues, ServerOK, ClientOK;
    BehaviourOK(c, run, |run| - 1, true);
    more := MisledFalls(c, run, b);
  }

  // ---- A write that nobody has committed ----

  lemma DoneFacts(k: Key)
    ensures Written(k).pending == map[] && Written(k).clock == MIDDLE
  {
  }

  lemma SecondCommits(a: Key, b: Key) returns (c: Reader, run: seq<System>)
    requires a != b
    ensures c == Both(a, b) && Reads(c) && Behaviour(c, run) && c.At(0) == {a} && c.At(1) == {b}
    ensures Last(run) == System(map[0 := Fresh(a), 1 := Written(b), 2 := LOADED],
                                map[7 := Committed(MIDDLE)], map[], {}, Session({0, 1}, map[], map[], START), Wait)
  {
    hide Behaviour, Fresh, Written, Reads;
    c, run := Starts(a, b);
    FreshFacts(a);
    FreshFacts(b);
    run := Commits(c, run, 1, b);
  }

  /** Transaction 7 has committed its write of `b` at 8, and transaction 0 has prepared another at 9. */
  lemma ZeroIsLater(a: Key, b: Key) returns (c: Reader, run: seq<System>)
    requires a != b
    ensures c == Both(a, b) && Reads(c) && Behaviour(c, run) && c.At(0) == {a} && c.At(1) == {b}
    ensures Last(run) == System(map[0 := Fresh(a), 1 := Preparing(Written(b), b, PAST), 2 := LOADED],
                                map[7 := Committed(MIDDLE)], map[], {}, Session({0, 1}, map[], map[], START), Wait)
  {
    hide Behaviour, Fresh, Written, Preparing, Reads;
    c, run := SecondCommits(a, b);
    DoneFacts(b);
    run := ZeroPrepares(c, run, 1, b, PAST);
  }

  lemma LaterFacts(k: Key)
    ensures var p := Preparing(Written(k), k, PAST);
      && p.phase == Unseen && p.waiting == {} && p.clock == PAST && p.pending == map[0 := Pending(PAST, LATE, Writes(k))]
    ensures var p := Arrived(Preparing(Written(k), k, PAST));
      && p.phase == Waiting && p.waiting == {} && p.skipped == {0} && p.pending == map[0 := Pending(PAST, LATE, Writes(k))]
      && Newest(VersionsOf(p, k), READ, New(k))
  {
    assert VersionsOf(Arrived(Preparing(Written(k), k, PAST)), k) == {Old(k), New(k)};
  }

  lemma OldFacts(k: Key)
    ensures var p := Fresh(k); p.phase == Unseen && p.waiting == {} && p.clock == START && p.pending == map[]
    ensures var p := Arrived(Fresh(k));
      p.phase == Waiting && p.waiting == p.skipped == {} && Newest(VersionsOf(p, k), READ, Old(k))
  {
    assert VersionsOf(Arrived(Fresh(k)), k) == {Old(k)};
  }

  lemma LaterReadArrives(a: Key, b: Key) returns (c: Reader, run: seq<System>)
    requires a != b
    ensures c == Both(a, b) && Reads(c) && Behaviour(c, run) && c.At(0) == {a} && c.At(1) == {b}
    ensures Last(run) == System(map[0 := Arrived(Fresh(a)), 1 := Arrived(Preparing(Written(b), b, PAST)), 2 := LOADED],
                                map[7 := Committed(MIDDLE)], map[], {}, Session({0, 1}, map[], map[], START), Wait)
  {
    hide Behaviour, Fresh, Written, Preparing, Arrived, Reads, Newest, VersionsOf;
    c, run := ZeroIsLater(a, b);
    OldFacts(a);
    LaterFacts(b);
    run := Arrives(c, run, 0, a);
    run := Arrives(c, run, 1, b);
  }

  lemma BothAnswerLater(a: Key, b: Key) returns (c: Reader, run: seq<System>)
    requires a != b
    ensures c == Both(a, b) && Reads(c) && Behaviour(c, run)
    ensures Last(run) == System(
      map[0 := Arrived(Fresh(a)).(phase := Answered), 1 := Arrived(Preparing(Written(b), b, PAST)).(phase := Answered), 2 := LOADED],
      map[7 := Committed(MIDDLE)], map[0 := FastReply([Old(a)], []), 1 := FastReply([New(b)], [Report(b, PAST)])], {},
      Session({0, 1}, map[], map[], START), Wait)
  {
    hide Behaviour, Fresh, Written, Preparing, Arrived, Reads, Newest, Reports, VersionsOf;
    c, run := LaterReadArrives(a, b);
    OldFacts(a);
    LaterFacts(b);
    ReportsNothing(c, 0, Arrived(Fresh(a)));
    run := Replies(c, run, 0, a, Old(a), []);
    ReportsZero(c, 1, b, Arrived(Preparing(Written(b), b, PAST)), PAST);
    run := Replies(c, run, 1, b, New(b), [Report(b, PAST)]);
  }

  /** The client commits at the start of time. */
  lemma SnapshotTooEarly(a: Key, b: Key) returns (c: Reader, run: seq<System>)
    requires a != b
    ensures c == Both(a, b) && Reads(c) && Behaviour(c, run)
    ensures Last(run) == System(
      map[0 := Arrived(Fresh(a)).(phase := Answered), 1 := Arrived(Preparing(Written(b), b, PAST)).(phase := Answered), 2 := LOADED],
      map[7 := Committed(MIDDLE)], map[0 := FastReply([Old(a)], []), 1 := FastReply([New(b)], [Report(b, PAST)])], {},
      Mistaken(a, b, Old(a), New(b), START), Commit(START))
  {
    c, run := BothAnswerLater(a, b);
    hide Behaviour, Fresh, Written, Preparing, Arrived, Reads;
    run := TakesFirst(c, run, Old(a));
    run := TakesSecond(c, run, a, b, Old(a), New(b), PAST);
  }

  /**
   What the client reads of `b` is the write of transaction 0, which is only prepared: no shard has
   that value, and the decision does not stand even in the state in which it is made.
   */
  lemma PreparedWriteIsRead(a: Key, b: Key) returns (c: Reader, run: seq<System>)
    requires a != b
    ensures c.Valid() && b in c.keys && Behaviour(c, run) && Last(run).verdict == Commit(START)
    ensures IsRead(ListOf(Last(run).session.values, b), START, MadeUp(b)) && 0 !in Last(run).outcomes
    ensures forall w :: IsRead(ListOf(Last(run).session.values, b), START, w) ==> !Established(Last(run), c.home[b], b, w)
    ensures Misled(c, Last(run), b) && !Stands(c, Last(run), b)
  {
    c, run := SnapshotTooEarly(a, b);
    hide Behaviour;
    OnlyMadeUp(c, Last(run), a, b);
  }

  lemma OnlyMadeUp(c: Reader, s: System, a: Key, b: Key)
    requires a != b && c == Both(a, b) && Reads(c)
    requires s == System(
      map[0 := Arrived(Fresh(a)).(phase := Answered), 1 := Arrived(Preparing(Written(b), b, PAST)).(phase := Answered), 2 := LOADED],
      map[7 := Committed(MIDDLE)], map[0 := FastReply([Old(a)], []), 1 := FastReply([New(b)], [Report(b, PAST)])], {},
      Mistaken(a, b, Old(a), New(b), START), Commit(START))
    ensures IsRead(ListOf(s.session.values, b), START, MadeUp(b))
    ensures forall w :: IsRead(ListOf(s.session.values, b), START, w) ==> !Established(s, c.home[b], b, w)
    ensures Misled(c, s, b) && !Stands(c, s, b)
  {
    assert ListOf(s.session.values, b) == [New(b), MadeUp(b)];
    assert MadeUp(b) in [New(b), MadeUp(b)];
    assert c.home[b] == 1 && VersionsOf(s.shards[1], b) == {Old(b), New(b)};
    assert !FastBy(c, s, b);
  }

  // ---- The order of replies matters ----

  function Told(b: Key): Session { Session({0}, map[b := [New(b)]], map[0 := Report(b, PAST)], START) }
  function Calm(b: Key): Session { Session({0}, map[b := [New(b)]], map[], START) }
  function Right(a: Key, b: Key): Session { Session({}, map[b := [New(b)], a := [Old(a)]], map[], MIDDLE) }

  lemma ReportComesFirst(c: Reader, before: seq<System>, b: Key) returns (run: seq<System>)
    requires Reads(c) && Behaviour(c, before)
    requires var s := Last(before);
      && s.session == Session({0, 1}, map[], map[], START) && s.verdict == Wait
      && 1 in s.fast && s.fast[1] == FastReply([New(b)], [Report(b, PAST)])
    ensures Behaviour(c, run) && Last(run) == Last(before).(session := Told(b))
  {
    var s := Last(before);
    var s1 := s.(session := Told(b));
    OneValue(map[], New(b));
    assert {0, 1} - {1} == {0};
    assert [Report(b, PAST)][..0] == [] && AddPrepares(map[], []) == map[];
    assert Takes(c, s, s1, TakeFast(1));
    hide Behaviour, Takes;
    run := Continue(c, before, s1, TakeFast(1));
  }

  lemma ZeroAborts(c: Reader, before: seq<System>) returns (run: seq<System>)
    requires Reads(c) && Behaviour(c, before) && 0 !in Last(before).outcomes && 1 in Last(before).shards
    requires var p := Last(before).shards[1]; 0 in p.pending && p.phase == Answered && 0 in p.skipped
    ensures Behaviour(c, run)
    ensures var s, s' := Last(before), Last(run);
      && s'.session == s.session && s'.verdict == s.verdict && s'.fast == s.fast
      && s'.outcomes == s.outcomes[0 := Aborted] && SlowReply(1, 0, Aborted) in s'.slow
  {
    var s, p := Last(before), Last(before).shards[1];
    var s1 := s.(outcomes := s.outcomes[0 := Aborted]);
    var p' := p.(pending := p.pending - {0}, waiting := p.waiting - {0});
    var s2 := s1.(shards := s1.shards[1 := p'], slow := s1.slow + {SlowReply(1, 0, Aborted)});
    assert Takes(c, s, s1, DecideAbort(0));
    assert Takes(c, s1, s2, Finish(1, 0));
    hide Behaviour, Takes;
    run := Continue(c, before, s1, DecideAbort(0));
    run := Continue(c, run, s2, Finish(1, 0));
  }

  lemma AbortIsTaken(c: Reader, before: seq<System>, b: Key) returns (run: seq<System>)
    requires Reads(c) && Behaviour(c, before)
    requires var s := Last(before); s.session == Told(b) && s.verdict == Wait && SlowReply(1, 0, Aborted) in s.slow
    ensures Behaviour(c, run) && Last(run) == Last(before).(session := Calm(b))
  {
    var s := Last(before);
    var s1 := s.(session := Calm(b));
    assert s.session.prepares - {0} == map[];
    assert Takes(c, s, s1, TakeSlow(SlowReply(1, 0, Aborted)));
    hide Behaviour, Takes;
    run := Continue(c, before, s1, TakeSlow(SlowReply(1, 0, Aborted)));
  }

  lemma NothingFound(a: Key, b: Key)
    requires a != b
    ensures AllFast(Right(a, b).(snapshot := START), Right(a, b))
  {
    var s := Right(a, b).(snapshot := START);
    assert FoundWrites(s.values, s.prepares, []) && AddValues(s.values, []) == s.values;
    assert FoundCommitted(s, s);
    assert IsSnapshot(s.values, MIDDLE) by { assert s.values[b][0].ts == MIDDLE && s.values[a][0].ts == START; }
    hide FoundCommitted, IsSnapshot;
  }

  lemma LoadedComesLast(c: Reader, before: seq<System>, a: Key, b: Key) returns (run: seq<System>)
    requires Reads(c) && Behaviour(c, before) && a != b
    requires var s := Last(before); s.session == Calm(b) && s.verdict == Wait && 0 in s.fast && s.fast[0] == FastReply([Old(a)], [])
    ensures Behaviour(c, run) && Last(run) == Last(before).(session := Right(a, b), verdict := Commit(MIDDLE))
  {
    var s := Last(before);
    var s1 := s.(session := Right(a, b), verdict := Commit(MIDDLE));
    OneValue(map[b := [New(b)]], Old(a));
    NothingFound(a, b);
    hide AllFast;
    assert {0} - {0} == {} && AddPrepares(map[], []) == map[];
    assert CheckCommit(true, Right(a, b)) == Commit(MIDDLE);
    assert Takes(c, s, s1, TakeFast(0));
    hide Behaviour, Takes;
    run := Continue(c, before, s1, TakeFast(0));
  }

  /**
   The same fast replies, and decisions that agree, in two orders: the client commits at the start of
   time in one, and at 8 in the other, where it hears that transaction 0 has aborted before it sees a
   loaded value.
   */
  lemma OrderMatters(a: Key, b: Key) returns (c: Reader, run: seq<System>, run': seq<System>)
    requires a != b
    ensures c.Valid() && Behaviour(c, run) && Behaviour(c, run')
    ensures Last(run).fast == Last(run').fast && SameOutcomes(Last(run), Last(run'))
    ensures Last(run).verdict == Commit(START) && Last(run').verdict == Commit(MIDDLE)
  {
    c, run := SnapshotTooEarly(a, b);
    var c', before := BothAnswerLater(a, b);
    LaterFacts(b);
    hide Behaviour, Fresh, Written, Preparing, Reads, Told, Calm, Right, Mistaken, Newest, VersionsOf;
    run' := ReportComesFirst(c, before, b);
    run' := ZeroAborts(c, run');
    run' := AbortIsTaken(c, run', b);
    run' := LoadedComesLast(c, run', a, b);
  }
}
