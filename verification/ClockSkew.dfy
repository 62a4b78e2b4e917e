/** waitSync and the statement it guards read the clock one after the other.  Every other module takes them as one
    reading; this one shows what the distance between the two readings may be, and what happens beyond it. */
module ClockSkew {
  import opened Types
  import opened Ledger
  import opened BlockCommit
  import opened Protocol
  import opened ProtocolInvariant
  import opened Guarantees
  import opened RequestStatus

  /** The external part of SetExpired, run with a reading of its own. */
  function ExpireAt(s: State, now: int): State {
    s.(db := ExpireExternal(s.db, Bound(now, s.lag)))
  }

  /** How far the clock may run after the newest saved block was generated. */
  predicate Recent(blocks: seq<BlockRow>, now: int, lag: int) {
    LastBlock(blocks).Some? && now - LastBlock(blocks).value.genUtime <= lag
  }

  /** A lifetime that the reading calls over, though a block not yet saved may still run its message. */
  predicate FalselyExpired(chain: Chain, ttl: int, now: int, lag: int) {
    ttl < Bound(now, lag) && !Expired(chain, ttl)
  }

  /** The exact condition, to be met by the second reading: no lifetime is called over too early if and only if the
      newest saved block was generated at most the allowable lagging before that reading. */
  lemma SafeReading(s: State, now: int)
    requires Inv(s) && s.chain.saved > 0
    ensures (forall ttl: int :: !FalselyExpired(s.chain, ttl, now, s.lag)) <==> Recent(s.db.blocks, now, s.lag)
  {
    OrderedLast(s.db.blocks);
    var last := s.chain.blocks[s.chain.saved - 1].genUtime;
    assert LastBlock(s.db.blocks).value.genUtime == last;
    if !Recent(s.db.blocks, now, s.lag) { assert FalselyExpired(s.chain, last, now, s.lag); }
  }

  /** So under that condition the late reading keeps everything the protocol relies on. */
  lemma SafeReadingKeepsInv(s: State, now: int)
    requires Inv(s) && Recent(s.db.blocks, now, s.lag)
    ensures Inv(ExpireAt(s, now))
  {
    LastBlockIsNewest(s.db.blocks);
    OrderedLast(s.db.blocks);
    var bound := Bound(now, s.lag);
    RecentRowsExpire(s.db.external, s.chain, s.batches, bound);
    ExpiryKeepsStatus(s.db.requests, s.db.external, bound);
    ExpiryKeepsSingleLive(s.db.external, bound);
    ExpiryKeepsOwners(s.db.requests, s.db.nextId, s.db.external, bound);
    WithTables(s, ExpireExternal(s.db, bound));
  }

  /** The internal part of SetExpired, which reads the clock for itself too. */
  function ExpireInternalAt(s: State, now: int): State {
    s.(db := ExpireInternal(s.db, Bound(now, s.lag)))
  }

  /** The same condition makes it safe. */
  lemma SafeInternalReadingKeepsInv(s: State, now: int)
    requires Inv(s) && Recent(s.db.blocks, now, s.lag)
    ensures Inv(ExpireInternalAt(s, now))
  {
    LastBlockIsNewest(s.db.blocks);
    OrderedLast(s.db.blocks);
    var rows, rows' := s.db.internal, ExpireInternal(s.db, Bound(now, s.lag)).internal;
    forall m | m in rows' && m in s.carriers
      ensures IntRowOk(m, rows'[m], s.carriers[m], s.batches[s.carriers[m].uuid].ttl, s.chain)
    {
      assert IntRowOk(m, rows[m], s.carriers[m], s.batches[s.carriers[m].uuid].ttl, s.chain);
    }
  }

  lemma RecentRowsExpire(rows: map<ExtKey, ExtRow>, chain: Chain, batches: map<Uuid, Batch>, bound: int)
    requires ExternalInv(rows, chain, batches)
    requires 0 < chain.saved <= |chain.blocks| && bound <= chain.blocks[chain.saved - 1].genUtime
    ensures ExternalInv(ExpiredRows(rows, bound), chain, batches)
    ensures forall k :: k in rows && ExternalExpires(rows[k], bound) ==> !Decisive(rows[k])
  {
    forall k | k in rows
      ensures ExtRowOk(k, ExpiredRows(rows, bound)[k], chain, batches)
      ensures ExternalExpires(rows[k], bound) ==> !Decisive(rows[k])
    {
      assert ExtRowOk(k, rows[k], chain, batches);
    }
  }

  // ---------------------------------------------------------------- beyond the condition

  const DEST: Address := 7
  const TASK := ExternalTask(1, TON_SYMBOL, 5, DEST, false, PlainText(""), "")

  function Order(processing: bool): Request {
    Request("user", "order", DEST, TON_SYMBOL, 5, false, PlainText(""), "", false, processing, false)
  }

  function Block(i: nat): BlockRow { BlockRow(0, i, i) }

  function Row(failed: bool, ttl: int): ExtRow { ExtRow(1, ttl, None, false, failed, None) }

  /** The tables with one block saved, the order in this state and these rows. */
  function Tabs(processing: bool, rows: map<ExtKey, ExtRow>): Tables {
    Tables(map[1 := Order(processing)], 2, rows, map[], multiset{}, map[], [Block(0)])
  }

  function Pays(ttl: int): Batch { Batch(ttl, map[DEST := 1]) }

  const SAVED := Chain([Block(0)], 1, map[], map[], [[]])
  const ROW1 := map[ExtKey(11, DEST) := Row(false, 1)]
  const ROW2 := map[ExtKey(11, DEST) := Row(true, 1), ExtKey(12, DEST) := Row(false, 1000)]

  const ASKED := Init(40).(db := EMPTY_TABLES.(requests := map[1 := Order(false)], nextId := 2))
  const MINED := ASKED.(chain := Chain([Block(0)], 0, map[], map[], [[]]))
  const READY := State(40, Tabs(false, map[]), SAVED, map[], map[], {}, None, {})
  const BUILT := State(40, Tabs(true, ROW1), SAVED, map[11 := Pays(1)], map[], {}, Some(11), {})
  const SENT := BUILT.(building := None, sent := {11})
  const EXPIRED := SENT.(db := Tabs(false, map[ExtKey(11, DEST) := Row(true, 1)]))
  const REBUILT := State(40, Tabs(true, ROW2), SAVED, map[11 := Pays(1), 12 := Pays(1000)], map[], {}, Some(12), {11})
  const RESENT := REBUILT.(building := None, sent := {11, 12})
  const ONCE := RESENT.(chain := Chain([Block(0), Block(1)], 1, map[11 := Execution(1, {DEST})], map[], [[], []]))
  const TWICE := RESENT.(chain := Chain([Block(0), Block(1), Block(2)], 1,
                                        map[11 := Execution(1, {DEST}), 12 := Execution(2, {DEST})], map[],
                                        [[], [], []]))

  predicate Leads(s: State, steps: seq<Step>, s': State) {
    ValidRun(s, steps) && RunFrom(s, steps) == s'
  }

  lemma OneStep(s: State, step: Step)
    requires Enabled(s, step)
    ensures Leads(s, [step], After(s, step))
  {
    assert ValidRun(After(s, step), [step][1..]);
  }

  lemma Joined(s: State, a: seq<Step>, s': State, b: seq<Step>, s'': State)
    requires Leads(s, a, s') && Leads(s', b, s'')
    ensures Leads(s, a + b, s'')
  {
    RunInTwoParts(s, a, b);
  }

  const SUBMIT := Submit(Order(false))
  const MINE0 := Produce(Block(0), map[], map[], [])
  const MINE1 := Produce(Block(1), map[11 := {DEST}], map[], [])
  const MINE2 := Produce(Block(2), map[12 := {DEST}], map[], [])
  const COMMIT := CommitBlock(NO_EVENTS)
  const BATCH1 := CreateBatch(11, 1, [TASK], map[])
  const BATCH2 := CreateBatch(12, 1000, [TASK], map[])

  lemma SubmitOrder()
    ensures Leads(Init(40), [SUBMIT], ASKED)
  {
    OneStep(Init(40), SUBMIT);
  }

  lemma MineFirst()
    ensures Leads(ASKED, [MINE0], MINED)
  {
    assert [] + [Block(0)] == [Block(0)];
    OneStep(ASKED, MINE0);
  }

  lemma SaveFirst()
    ensures Leads(MINED, [COMMIT], READY)
  {
    assert NO_EVENTS.Ops() == [];
    assert [] + [Block(0)] == [Block(0)];
    OneStep(MINED, COMMIT);
  }

  lemma OneTask(t: Tables, uuid: Uuid, ttl: int)
    requires ExtKey(uuid, DEST) !in t.external && t.requests == map[1 := Order(false)]
    ensures CreateExternal(t, [TASK], uuid, ttl)
         == Ok(t.(external := t.external[ExtKey(uuid, DEST) := Row(false, ttl)], requests := map[1 := Order(true)]))
    ensures PaysOf([TASK]) == map[DEST := 1]
  {
    var t1 := t.(external := t.external[ExtKey(uuid, DEST) := Row(false, ttl)], requests := map[1 := Order(true)]);
    assert t.requests[1 := Order(true)] == map[1 := Order(true)];
    assert InsertBatchRow(t, uuid, ttl, TASK) == Ok(t1);
    assert CreateExternal(t1, [], uuid, ttl) == Ok(t1);
    assert [TASK][1..] == [] && PaysOf([]) == map[];
  }

  lemma BuildAndSend()
    ensures Leads(READY, [BATCH1], BUILT) && Leads(BUILT, [Send], SENT)
  {
    OneTask(READY.db, 11, 1);
    OneStep(READY, BATCH1);
    OneStep(BUILT, Send);
  }

  lemma BuildAndSendAgain()
    ensures Leads(EXPIRED, [BATCH2], REBUILT) && Leads(REBUILT, [Send], RESENT)
  {
    OneTask(EXPIRED.db, 12, 1000);
    OneStep(EXPIRED, BATCH2);
    OneStep(REBUILT, Send);
  }

  lemma RunFirst()
    ensures Leads(RESENT, [MINE1], ONCE)
  {
    OneStep(RESENT, MINE1);
  }

  lemma RunSecond()
    ensures Leads(ONCE, [MINE2], TWICE)
  {
    OneStep(ONCE, MINE2);
  }

  lemma SentIsReachable()
    ensures Reachable(SENT)
  {
    SubmitOrder();
    MineFirst();
    SaveFirst();
    BuildAndSend();
    Joined(Init(40), [SUBMIT], ASKED, [MINE0], MINED);
    Joined(Init(40), [SUBMIT] + [MINE0], MINED, [COMMIT], READY);
    Joined(READY, [BATCH1], BUILT, [Send], SENT);
    Joined(Init(40), [SUBMIT] + [MINE0] + [COMMIT], READY, [BATCH1] + [Send], SENT);
  }

  lemma ExpiredTooEarly()
    ensures ExpireAt(SENT, 42) == EXPIRED
  {
    assert Bound(42, 40) == 2;
    assert ExternalExpires(Row(false, 1), 2);
    assert ExpiringQueries(ROW1, 2) == {1} by {
      assert ExtKey(11, DEST) in ROW1;
    }
    assert ExpiredRows(ROW1, 2) == map[ExtKey(11, DEST) := Row(true, 1)];
    assert ReleasedRequests(map[1 := Order(true)], {1}) == map[1 := Order(false)];
  }

  /** Beyond the condition the property fails: the service is synchronised at the first reading, the statement reads
      the clock later, and in a continuation of the run the chain pays one request twice. */
  lemma LateReadingPaysTwice()
    ensures Reachable(SENT) && IsActual(SENT.db.blocks, 39, SENT.lag) && !Recent(SENT.db.blocks, 42, SENT.lag)
    ensures Leads(ExpireAt(SENT, 42), [BATCH2] + [Send] + [MINE1] + [MINE2], TWICE)
    ensures Paid(TWICE, ExtKey(11, DEST)) && Paid(TWICE, ExtKey(12, DEST))
    ensures PaidRequest(TWICE, ExtKey(11, DEST)) == PaidRequest(TWICE, ExtKey(12, DEST))
  {
    SentIsReachable();
    ExpiredTooEarly();
    BuildAndSendAgain();
    RunFirst();
    RunSecond();
    Joined(EXPIRED, [BATCH2], REBUILT, [Send], RESENT);
    Joined(EXPIRED, [BATCH2] + [Send], RESENT, [MINE1], ONCE);
    Joined(EXPIRED, [BATCH2] + [Send] + [MINE1], ONCE, [MINE2], TWICE);
    LastBlockIsNewest(SENT.db.blocks);
  }

  // ---------------------------------------------------------------- the same for a jetton withdrawal

  const PROXY: Address := 9
  const DEPOSIT: Address := 8

  function Carried(failed: bool): IntRow { IntRow(DEPOSIT, 0, None, None, 1, 0, failed) }

  const LOADED := READY.(batches := map[21 := Batch(1, map[])], carriers := map[31 := Carrier(21, PROXY)],
                         building := Some(21))
  const KEPT := LOADED.(db := READY.db.(internal := map[31 := Carried(false)]))
  const GONE := KEPT.(building := None, sent := {21})
  const LATE := GONE.(db := READY.db.(internal := map[31 := Carried(true)]))
  const RAN := LATE.(chain := Chain([Block(0), Block(1)], 1, map[21 := Execution(1, {PROXY})], map[], [[], []]))

  const LOAD := CreateBatch(21, 1, [], map[31 := PROXY])
  const KEEP := SaveCarried(31, DEPOSIT, 0)
  const MINE := Produce(Block(1), map[21 := {PROXY}], map[], [])
  const SENDING := NO_EVENTS.(sendings := [SendingConfirmation(5, UuidText(31))])

  lemma LoadIt()
    ensures Leads(READY, [LOAD], LOADED)
  {
    assert CreateExternal(READY.db, [], 21, 1) == Ok(READY.db) && PaysOf([]) == map[];
    assert NewCarriers(21, map[31 := PROXY]) == map[31 := Carrier(21, PROXY)];
    OneStep(READY, LOAD);
  }

  lemma KeepIt()
    ensures Leads(LOADED, [KEEP], KEPT) && Leads(KEPT, [Send], GONE)
  {
    OneStep(LOADED, KEEP);
    OneStep(KEPT, Send);
  }

  lemma GoneIsReachable()
    ensures Reachable(GONE)
  {
    SubmitOrder();
    MineFirst();
    SaveFirst();
    LoadIt();
    KeepIt();
    Joined(Init(40), [SUBMIT], ASKED, [MINE0], MINED);
    Joined(Init(40), [SUBMIT] + [MINE0], MINED, [COMMIT], READY);
    Joined(READY, [LOAD], LOADED, [KEEP], KEPT);
    Joined(READY, [LOAD] + [KEEP], KEPT, [Send], GONE);
    Joined(Init(40), [SUBMIT] + [MINE0] + [COMMIT], READY, [LOAD] + [KEEP] + [Send], GONE);
  }

  lemma CarriedTooEarly()
    ensures ExpireInternalAt(GONE, 42) == LATE
  {
    assert Bound(42, 40) == 2;
    assert InternalExpires(Carried(false), 2);
    assert ExpireInternal(GONE.db, 2).internal == map[31 := Carried(true)];
  }

  lemma MineIt()
    ensures Leads(LATE, [MINE], RAN)
  {
    OneStep(LATE, MINE);
  }

  lemma SendingRejected()
    ensures Commit(RAN.db, SENDING, Block(1)) == Err(ExpirationProcessorMisbehaved)
  {
    var op := OfSending(SendingConfirmation(5, UuidText(31)));
    assert SENDING.Ops() == [op];
    assert ApplyAll(RAN.db, [op]) == Apply(RAN.db, op);
  }

  /** A late reading for the internal rows expires a jetton withdrawal whose message still runs, and the block that
      reports it is rejected. */
  lemma LateReadingRejectsBlock()
    ensures Reachable(GONE) && IsActual(GONE.db.blocks, 39, GONE.lag) && !Recent(GONE.db.blocks, 42, GONE.lag)
    ensures Leads(ExpireInternalAt(GONE, 42), [MINE], RAN)
    ensures Enabled(RAN, CommitBlock(SENDING))
    ensures Commit(RAN.db, SENDING, RAN.chain.blocks[RAN.chain.saved]) == Err(ExpirationProcessorMisbehaved)
  {
    GoneIsReachable();
    CarriedTooEarly();
    MineIt();
    SendingRejected();
    LastBlockIsNewest(GONE.db.blocks);
    SendingIsReported();
  }

  lemma SendingIsReported()
    ensures Enabled(RAN, CommitBlock(SENDING))
  {
    assert SENDING.sendings[0].memo == UuidText(31);
    assert HasSending(SENDING.sendings, 31);
  }
}
