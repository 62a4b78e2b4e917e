/** What a transfer request that anybody sends to a jetton deposit wallet does to the service.  The wallet rejects it,
    but the scanner reads its comment for the memo of a failed withdrawal. */
module Strangers {
  import opened Types
  import opened Ledger
  import opened Protocol
  import opened ProtocolInvariant
  import JettonIncome

  /** Any text: a rejected request is a conforming transaction without effect on the balance, and it is reported as
      the failure of the withdrawal its comment names. */
  lemma AnyTextIsReported(book: Book, wallet: Address, amount: nat, dest: Option<Address>, text: Text, lt: nat,
                          now: int, hash: Hash)
    ensures var tx := JettonIncome.Tx(false, JettonIncome.TransferIn(amount, dest, text, lt), [], lt, now, hash);
      && JettonIncome.Conforms(book, wallet, tx, JettonIncome.Nothing)
      && JettonIncome.WithdrawalOf(book, tx) == [InternalWithdrawal(lt, amount, text, true)]
      && AllFailed(JettonIncome.WithdrawalOf(book, tx))
  {
  }

  /** A block with such a report and nothing else: which error it meets, on every table. */
  lemma StrayAlone(t: Tables, w: InternalWithdrawal, b: BlockRow)
    requires w.isFailed
    ensures var r := Commit(t, NO_EVENTS.(internals := [w]), b);
      && (w.memo.PlainText? ==> r == Err(BadUuid))
      && (w.memo.UuidText? && w.memo.uuid !in t.internal ==> r == Err(InvalidEventOrder))
      && (w.memo.UuidText? && w.memo.uuid in t.internal ==>
            var row := t.internal[w.memo.uuid];
            && (row.failed ==> r == Err(ExpirationProcessorMisbehaved))
            && (!row.failed && row.sendingLt.None? ==> r == Err(InvalidEventOrder))
            && (!row.failed && row.sendingLt.Some? ==>
                  r == SaveBlock(t.(internal := t.internal[w.memo.uuid := row.(failed := true)]), b)))
  {
    var e := NO_EVENTS.(internals := [w]);
    assert e.Ops() == [OfInternal(w)];
    assert [OfInternal(w)][1..] == [];
    OneStatement(t, OfInternal(w));
  }

  lemma OneStatement(t: Tables, e: DbEvent)
    ensures ApplyAll(t, [e]) == Apply(t, e)
  {
    assert [e][1..] == [];
  }

  /** And beside the finish of the withdrawal it names, from another wallet in the same block: visited after it, the
      finished withdrawal fails; visited before it, the block is rejected.  The order of the visit is that of a map. */
  lemma StrayOrderDecides(t: Tables, finish: InternalWithdrawal, stray: InternalWithdrawal, b: BlockRow)
    requires !finish.isFailed && stray.isFailed && stray.memo == finish.memo
    requires finish.memo.UuidText? && finish.memo.uuid in t.internal
    requires !t.internal[finish.memo.uuid].failed && t.internal[finish.memo.uuid].sendingLt.Some?
    ensures Commit(t, NO_EVENTS.(internals := [stray, finish]), b) == Err(ExpirationProcessorMisbehaved)
    ensures var m := finish.memo.uuid;
      var row := t.internal[m].(finishLt := Some(finish.lt), amount := t.internal[m].amount + finish.amount,
                                failed := true);
      Commit(t, NO_EVENTS.(internals := [finish, stray]), b) == SaveBlock(t.(internal := t.internal[m := row]), b)
  {
    TwoStatements(t, OfInternal(stray), OfInternal(finish));
    TwoStatements(t, OfInternal(finish), OfInternal(stray));
    assert NO_EVENTS.(internals := [stray, finish]).Ops() == [OfInternal(stray), OfInternal(finish)];
    assert NO_EVENTS.(internals := [finish, stray]).Ops() == [OfInternal(finish), OfInternal(stray)];
    var m := finish.memo.uuid;
    var row := t.internal[m].(finishLt := Some(finish.lt), amount := t.internal[m].amount + finish.amount);
    assert t.internal[m := row][m := row.(failed := true)] == t.internal[m := row.(failed := true)];
  }

  lemma TwoStatements(t: Tables, a: DbEvent, b: DbEvent)
    ensures ApplyAll(t, [a, b]) == (var r := Apply(t, a); if r.Ok? then Apply(r.value, b) else r)
  {
    assert [a, b][1..] == [b];
    if Apply(t, a).Ok? { OneStatement(Apply(t, a).value, b); }
  }

  // ---------------------------------------------------------------- a block that can never be committed

  /** The next block to commit holds a request whose comment is not a uuid. */
  predicate Stuck(s: State, n: nat) {
    && s.chain.saved == n < |s.chain.strays|
    && exists i :: 0 <= i < |s.chain.strays[n]| && s.chain.strays[n][i].memo.PlainText?
  }

  lemma StuckIsRejected(s: State, e: Events)
    requires Inv(s) && Enabled(s, CommitBlock(e)) && Stuck(s, s.chain.saved)
    ensures Commit(s.db, e, s.chain.blocks[s.chain.saved]).Err?
  {
    var n := s.chain.saved;
    var i :| 0 <= i < |s.chain.strays[n]| && s.chain.strays[n][i].memo.PlainText?;
    assert s.chain.strays[n][i] in s.chain.strays[n];
    CommitOutcome(s, e);
  }

  lemma StepKeepsStuck(s: State, step: Step, n: nat)
    requires Inv(s) && Enabled(s, step) && Stuck(s, n)
    ensures Stuck(After(s, step), n)
  {
    match step
    case CommitBlock(e) => StuckIsRejected(s, e);
    case Produce(b, runs, transfers, strays) => assert (s.chain.strays + [strays])[n] == s.chain.strays[n];
    case _ =>
  }

  /** The service never gets past it: no continuation of the run commits another block, restarts included. */
  lemma {:induction false} StuckForever(s: State, steps: seq<Step>, n: nat)
    requires Inv(s) && ValidRun(s, steps) && Stuck(s, n)
    ensures RunFrom(s, steps).chain.saved == n && RunFrom(s, steps).db.blocks == s.db.blocks
    decreases steps
  {
    if steps != [] {
      StepKeepsInv(s, steps[0]);
      StepKeepsStuck(s, steps[0], n);
      StepKeepsBlocks(s, steps[0], n);
      StuckForever(After(s, steps[0]), steps[1..], n);
    }
  }

  lemma StepKeepsBlocks(s: State, step: Step, n: nat)
    requires Inv(s) && Enabled(s, step) && Stuck(s, n)
    ensures After(s, step).db.blocks == s.db.blocks
  {
    StepKeepsInv(s, step);
    StepKeepsStuck(s, step, n);
    match step
    case Produce(_, _, _, _) =>
    case CommitBlock(e) => StuckIsRejected(s, e);
    case CreateBatch(uuid, ttl, tasks, proxies) => BatchOfTasks(s, uuid, ttl, tasks);
    case _ =>
  }

  /** From every reachable state that has caught up with the chain, one request with a plain comment in the next block
      is enough; the block is reported, rejected, and rejected ever after. */
  lemma OneRequestStopsIt(s: State, b: BlockRow, w: InternalWithdrawal, steps: seq<Step>)
    requires Reachable(s) && s.chain.saved == |s.chain.blocks| && Follows(s.chain.blocks, b)
    requires w.isFailed && w.memo.PlainText?
    ensures Enabled(s, Produce(b, map[], map[], [w]))
    ensures var s' := After(s, Produce(b, map[], map[], [w]));
      && Stuck(s', s.chain.saved)
      && (ValidRun(s', steps) ==> RunFrom(s', steps).db.blocks == s.db.blocks)
  {
    ReachableInv(s);
    var s' := After(s, Produce(b, map[], map[], [w]));
    var n := s.chain.saved;
    assert s'.chain.strays[n] == [w];
    assert s'.chain.strays[n][0].memo.PlainText?;
    StepKeepsInv(s, Produce(b, map[], map[], [w]));
    if ValidRun(s', steps) { StuckForever(s', steps, n); }
  }

  /** The first block ever, with nothing in it but a request without a comment: the scanner's report is complete, and
      the commit meets an error. */
  lemma EmptyCommentRejects(lag: int, b: BlockRow, amount: nat, lt: nat)
    ensures var w := InternalWithdrawal(lt, amount, PlainText(""), true);
      var e := NO_EVENTS.(internals := [w]);
      && Enabled(Init(lag), Produce(b, map[], map[], [w]))
      && var s := After(Init(lag), Produce(b, map[], map[], [w]));
      && s.chain.blocks == [b] && s.chain.strays == [[w]] && s.chain.saved == 0
      && Scanned(s, e)
      && Commit(s.db, e, b) == Err(BadUuid)
  {
    var w := InternalWithdrawal(lt, amount, PlainText(""), true);
    StrayAlone(EMPTY_TABLES, w, b);
    assert [] + [b] == [b] && [] + [[w]] == [[w]];
  }
}
