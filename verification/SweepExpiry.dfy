/** The expiry time of a sweep of a TON deposit only approximates the lifetime of its message, so a row may expire
    though the message still runs.  A run in which that happens, and what becomes of the block that reports it. */
module SweepExpiry {
  import opened Types
  import opened Ledger
  import opened BlockCommit
  import opened Protocol
  import opened ProtocolInvariant
  import opened ClockSkew

  const MEMO: Uuid := 41
  const B5 := BlockRow(0, 5, 5)
  const B6 := BlockRow(0, 6, 6)

  function Sweep(failed: bool): IntRow { IntRow(DEPOSIT, 0, None, None, 1, 0, failed) }

  function Saved(rows: map<Uuid, IntRow>): Tables { EMPTY_TABLES.(internal := rows, blocks := [B5]) }

  const FOUND := Init(40).(chain := Chain([B5], 0, map[], map[], [[]]))
  const START := Init(40).(chain := Chain([B5], 1, map[], map[], [[]]), db := Saved(map[]))
  const TASKED := START.(db := Saved(map[MEMO := Sweep(false)]), tonMemos := {MEMO})
  const LAPSED := TASKED.(db := Saved(map[MEMO := Sweep(true)]))
  const SWEPT := LAPSED.(chain := Chain([B5, B6], 1, map[], map[], [[], []]))

  const MINE5 := Produce(B5, map[], map[], [])
  const MINE6 := Produce(B6, map[], map[], [])
  const TASK_STEP := SaveTonTask(MEMO, DEPOSIT, 0, 1)
  const LAPSE := ExpireInternals(44)
  const REPORT := NO_EVENTS.(
    sendings := [SendingConfirmation(3, UuidText(MEMO))],
    internals := [InternalWithdrawal(3, 5, UuidText(MEMO), false)])

  lemma MineAndSave()
    ensures Leads(Init(40), [MINE5], FOUND) && Leads(FOUND, [COMMIT], START)
  {
    assert [] + [B5] == [B5] && NO_EVENTS.Ops() == [];
    OneStep(Init(40), MINE5);
    OneStep(FOUND, COMMIT);
  }

  lemma SaveSweep()
    ensures Leads(START, [TASK_STEP], TASKED)
  {
    OneStep(START, TASK_STEP);
  }

  lemma Lapse()
    ensures Leads(TASKED, [LAPSE], LAPSED)
  {
    LastBlockIsNewest(TASKED.db.blocks);
    assert Bound(44, 40) == 4 && InternalExpires(Sweep(false), 4);
    assert ExpireInternal(TASKED.db, 4).internal == map[MEMO := Sweep(true)];
    OneStep(TASKED, LAPSE);
  }

  lemma MineSweep()
    ensures Leads(LAPSED, [MINE6], SWEPT)
  {
    assert [B5] + [B6] == [B5, B6];
    OneStep(LAPSED, MINE6);
  }

  lemma SweptIsReachable()
    ensures Reachable(SWEPT)
  {
    MineAndSave();
    SaveSweep();
    Lapse();
    MineSweep();
    Joined(Init(40), [MINE5], FOUND, [COMMIT], START);
    Joined(Init(40), [MINE5] + [COMMIT], START, [TASK_STEP], TASKED);
    Joined(Init(40), [MINE5] + [COMMIT] + [TASK_STEP], TASKED, [LAPSE], LAPSED);
    Joined(Init(40), [MINE5] + [COMMIT] + [TASK_STEP] + [LAPSE], LAPSED, [MINE6], SWEPT);
  }

  lemma ReportIsComplete()
    ensures Enabled(SWEPT, CommitBlock(REPORT))
  {
    assert REPORT.sendings[0].memo == UuidText(MEMO);
    assert HasSending(REPORT.sendings, MEMO);
  }

  lemma ReportIsRejected()
    ensures Commit(SWEPT.db, REPORT, B6) == Err(ExpirationProcessorMisbehaved)
  {
    var a, b := OfSending(REPORT.sendings[0]), OfInternal(REPORT.internals[0]);
    assert REPORT.Ops() == [a] + [b];
    ApplyAllConcat(SWEPT.db, [a], [b]);
    assert ApplyAll(SWEPT.db, [a]) == Apply(SWEPT.db, a);
  }

  lemma NobodyStrayed()
    ensures SWEPT.chain.saved < |SWEPT.chain.strays| && SWEPT.chain.saved < |SWEPT.chain.blocks|
    ensures forall i :: 0 <= i <= SWEPT.chain.saved ==> SWEPT.chain.strays[i] == []
    ensures SWEPT.chain.blocks[SWEPT.chain.saved] == B6
  {
  }

  /** A reachable state, with one clock reading and nobody else's requests, in which a complete report of a sweep is
      rejected. */
  lemma SweepMeetsExpiredRow()
    ensures Reachable(SWEPT) && (forall i :: 0 <= i <= SWEPT.chain.saved ==> SWEPT.chain.strays[i] == [])
    ensures Enabled(SWEPT, CommitBlock(REPORT))
    ensures Commit(SWEPT.db, REPORT, SWEPT.chain.blocks[SWEPT.chain.saved]) == Err(ExpirationProcessorMisbehaved)
  {
    SweptIsReachable();
    NobodyStrayed();
    ReportIsComplete();
    ReportIsRejected();
  }
}
