/** The protocol and the collecting from deposits are two views of one table.  Here they run side by side: the
    protocol's steps, with the selections that plan its internal withdrawals in between. */
module Projection {
  import opened Types
  import opened Ledger
  import opened BlockCommit
  import P = Protocol
  import I = ProtocolInvariant
  import R = RequestStatus
  import W = InternalWithdrawals

  datatype Pair = Pair(p: P.State, w: W.State)

  /** A step of the protocol, or a selection or a dropped task, which the protocol does not see. */
  datatype Move = Act(step: P.Step) | Plan(plan: W.Step)

  predicate Agree(x: Pair) {
    x.w.db.internal == x.p.db.internal && x.w.db.extIncomes == x.p.db.extIncomes
  }

  predicate Finishes(rows: map<Uuid, IntRow>, ws: seq<InternalWithdrawal>) {
    forall i :: 0 <= i < |ws| ==> W.Plausible(rows, OfInternal(ws[i]))
  }

  /** Only selected deposits are withdrawn from, and a finish comes after the income that caused it. */
  predicate Planned(x: Pair, step: P.Step) {
    match step
    case SaveCarried(_, d, lt) => d in x.w.tasks && x.w.tasks[d] == lt
    case SaveTonTask(_, d, lt, _) => d in x.w.tasks && x.w.tasks[d] == lt
    case CommitBlock(e) => Finishes(x.p.db.internal, e.internals)
    case _ => true
  }

  predicate Enabled(x: Pair, m: Move) {
    match m
    case Act(step) => P.Enabled(x.p, step) && Planned(x, step)
    case Plan(plan) => (plan.Select? || plan.DropTask?) && W.Enabled(x.w, plan)
  }

  function WithRows(w: W.State, t: Tables): W.State {
    w.(db := w.db.(internal := t.internal, extIncomes := t.extIncomes))
  }

  /** What a step of the protocol is to the collecting; a rejected block stops the service like a crash. */
  function Seen(w: W.State, p: P.State, step: P.Step): W.State
    requires P.Enabled(p, step)
  {
    var p' := P.After(p, step);
    match step
    case SaveCarried(m, d, _) => WithRows(w, p'.db).(order := w.order + [m], tasks := w.tasks - {d})
    case SaveTonTask(m, d, _, _) => WithRows(w, p'.db).(order := w.order + [m], tasks := w.tasks - {d})
    case Crash => w.(tasks := map[])
    case CommitBlock(_) => if p'.chain.saved == p.chain.saved then w.(tasks := map[]) else WithRows(w, p'.db)
    case _ => WithRows(w, p'.db)
  }

  function After(x: Pair, m: Move): Pair
    requires Enabled(x, m)
  {
    match m
    case Act(step) => Pair(P.After(x.p, step), Seen(x.w, x.p, step))
    case Plan(plan) => x.(w := W.After(x.w, plan))
  }

  predicate ValidRun(x: Pair, ms: seq<Move>)
    decreases ms
  {
    ms == [] || (Enabled(x, ms[0]) && ValidRun(After(x, ms[0]), ms[1..]))
  }

  function RunFrom(x: Pair, ms: seq<Move>): Pair
    requires ValidRun(x, ms)
    decreases ms
  {
    if ms == [] then x else RunFrom(After(x, ms[0]), ms[1..])
  }

  function Init(lag: int, kinds: map<Address, WalletType>): Pair { Pair(P.Init(lag), W.Init(kinds)) }

  // ---------------------------------------------------------------- statements of a block

  predicate TouchesRows(e: DbEvent) { e.OfExtIncome? || e.OfSending? || e.OfInternal? }

  /** These statements see only the two tables, and change nothing else. */
  lemma SameStatement(t: Tables, u: Tables, e: DbEvent)
    requires TouchesRows(e) && u.internal == t.internal && u.extIncomes == t.extIncomes && Apply(t, e).Ok?
    ensures Apply(u, e).Ok?
    ensures var t', u' := Apply(t, e).value, Apply(u, e).value;
      && u' == u.(internal := t'.internal, extIncomes := t'.extIncomes)
      && t'.internal.Keys == t.internal.Keys
      && forall m :: m in t.internal ==> t'.internal[m].sinceLt == t.internal[m].sinceLt
  {
  }

  function Statements(es: seq<DbEvent>): seq<W.Step>
    decreases es
  {
    if es == [] then [] else [W.Statement(es[0])] + Statements(es[1..])
  }

  predicate RowEvents(rows: map<Uuid, IntRow>, es: seq<DbEvent>) {
    forall i :: 0 <= i < |es| ==> TouchesRows(es[i]) && W.Plausible(rows, es[i])
  }

  lemma {:induction false} StatementsRun(w: W.State, t: Tables, es: seq<DbEvent>)
    requires w.db.internal == t.internal && w.db.extIncomes == t.extIncomes
    requires RowEvents(t.internal, es) && ApplyAll(t, es).Ok?
    ensures W.Leads(w, Statements(es), WithRows(w, ApplyAll(t, es).value))
    ensures NoSelection(Statements(es))
    decreases es
  {
    if es == [] {
      assert WithRows(w, t) == w;
    } else {
      var t', rest := Apply(t, es[0]).value, es[1..];
      SameStatement(t, w.db, es[0]);
      var w' := WithRows(w, t');
      assert W.After(w, W.Statement(es[0])) == w';
      forall i | 0 <= i < |rest| ensures TouchesRows(rest[i]) && W.Plausible(t'.internal, rest[i]) {
        assert rest[i] == es[i + 1];
      }
      StatementsRun(w', t', rest);
      W.FirstStep(w, W.Statement(es[0]), w', Statements(rest));
      assert WithRows(w', ApplyAll(t', rest).value) == WithRows(w, ApplyAll(t, es).value);
    }
  }

  predicate NoSelection(steps: seq<W.Step>) { forall i :: 0 <= i < |steps| ==> !steps[i].Select? }

  lemma {:induction false} SameSince(t: Tables, es: seq<DbEvent>)
    requires ApplyAll(t, es).Ok?
    ensures var t' := ApplyAll(t, es).value;
      && t'.internal.Keys == t.internal.Keys
      && forall m :: m in t.internal ==> t'.internal[m].sinceLt == t.internal[m].sinceLt
    decreases es
  {
    if es != [] {
      OneKeepsSince(t, es[0]);
      SameSince(Apply(t, es[0]).value, es[1..]);
    }
  }

  lemma OneKeepsSince(t: Tables, e: DbEvent)
    requires Apply(t, e).Ok?
    ensures var t' := Apply(t, e).value;
      && t'.internal.Keys == t.internal.Keys
      && forall m :: m in t.internal ==> t'.internal[m].sinceLt == t.internal[m].sinceLt
  {
  }

  lemma {:induction false} ExternalsKeepRows(t: Tables, ws: seq<ExternalWithdrawal>)
    requires ApplyAll(t, ExternalOps(ws)).Ok?
    ensures ApplyAll(t, ExternalOps(ws)).value.internal == t.internal
    ensures ApplyAll(t, ExternalOps(ws)).value.extIncomes == t.extIncomes
    decreases ws
  {
    if ws != [] {
      var ops := ExternalOps(ws);
      assert ops[0] == OfExternal(ws[0]) && ops[1..] == ExternalOps(ws[1..]);
      ExternalsKeepRows(Apply(t, ops[0]).value, ws[1..]);
    }
  }

  // ---------------------------------------------------------------- one move

  lemma JoinedQuietly(w: W.State, a: seq<W.Step>, w': W.State, b: seq<W.Step>, w'': W.State)
    requires W.Leads(w, a, w') && W.Leads(w', b, w'') && NoSelection(a) && NoSelection(b)
    ensures W.Leads(w, a + b, w'') && NoSelection(a + b)
  {
    W.Joined(w, a, w', b, w'');
  }

  /** The finishes of a block are as plausible after its sendings as before. */
  lemma FinishesAfter(t: Tables, t3: Tables, ws: seq<InternalWithdrawal>)
    requires Finishes(t.internal, ws) && t3.internal.Keys == t.internal.Keys
    requires forall m :: m in t.internal ==> t3.internal[m].sinceLt == t.internal[m].sinceLt
    ensures RowEvents(t3.internal, InternalOps(ws))
  {
    forall i | 0 <= i < |ws| ensures W.Plausible(t3.internal, OfInternal(ws[i])) {
      assert W.Plausible(t.internal, OfInternal(ws[i]));
    }
  }

  /** The statements of an accepted block that touch the two tables, in the order of the commit. */
  function BlockStatements(e: Events): seq<W.Step> {
    Statements(ExtIncomeOps(e.extIncomes)) + Statements(SendingOps(e.sendings)) + Statements(InternalOps(e.internals))
  }

  lemma CommitProjects(w: W.State, t: Tables, e: Events, b: BlockRow)
    requires w.db.internal == t.internal && w.db.extIncomes == t.extIncomes
    requires Finishes(t.internal, e.internals) && Commit(t, e, b).Ok?
    ensures W.Leads(w, BlockStatements(e), WithRows(w, Commit(t, e, b).value)) && NoSelection(BlockStatements(e))
  {
    ApplyAllInOrder(t, e);
    IncomesKeepTables(t, e.extIncomes);
    var t1 := ApplyAll(t, ExtIncomeOps(e.extIncomes)).value;
    InternalIncomesKeepTables(t1, e.intIncomes);
    var t2 := ApplyAll(t1, IntIncomeOps(e.intIncomes)).value;
    var t3 := ApplyAll(t2, SendingOps(e.sendings)).value;
    var t4 := ApplyAll(t3, InternalOps(e.internals)).value;
    SameSince(t2, SendingOps(e.sendings));
    FinishesAfter(t, t3, e.internals);
    var w1, w3, w4 := WithRows(w, t1), WithRows(w, t3), WithRows(w, t4);
    StatementsRun(w, t, ExtIncomeOps(e.extIncomes));
    StatementsRun(w1, t2, SendingOps(e.sendings));
    StatementsRun(w3, t3, InternalOps(e.internals));
    var incomes, sendings := Statements(ExtIncomeOps(e.extIncomes)), Statements(SendingOps(e.sendings));
    JoinedQuietly(w, incomes, w1, sendings, w3);
    JoinedQuietly(w, incomes + sendings, w3, Statements(InternalOps(e.internals)), w4);
    LastStages(t4, e, b);
    assert WithRows(w, Commit(t, e, b).value) == w4;
  }

  lemma LastStages(t4: Tables, e: Events, b: BlockRow)
    requires ApplyAll(t4, ExternalOps(e.externals)).Ok?
    ensures var t5 := ApplyAll(t4, ExternalOps(e.externals)).value;
      var r := ApplyAll(t5, ConfirmationOps(e.confirmations));
      r.Ok? && r.value.internal == t4.internal && r.value.extIncomes == t4.extIncomes
  {
    ExternalsKeepRows(t4, e.externals);
    ConfirmationsApply(ApplyAll(t4, ExternalOps(e.externals)).value, e.confirmations);
  }

  lemma {:induction false} BatchKeepsRows(t: Tables, tasks: seq<ExternalTask>, uuid: Uuid, ttl: int)
    requires CreateExternal(t, tasks, uuid, ttl).Ok?
    ensures CreateExternal(t, tasks, uuid, ttl).value.internal == t.internal
    ensures CreateExternal(t, tasks, uuid, ttl).value.extIncomes == t.extIncomes
    decreases tasks
  {
    if tasks != [] { BatchKeepsRows(InsertBatchRow(t, uuid, ttl, tasks[0]).value, tasks[1..], uuid, ttl); }
  }

  /** What a step of the protocol is to the collecting. */
  function StepsOf(x: Pair, step: P.Step): seq<W.Step>
    requires P.Enabled(x.p, step)
  {
    match step
    case SaveCarried(m, d, _) => [W.SaveTask(d, m, x.p.batches[x.p.carriers[m].uuid].ttl)]
    case SaveTonTask(m, d, _, expiredAt) => [W.SaveTask(d, m, expiredAt)]
    case CommitBlock(e) =>
      if P.After(x.p, step).chain.saved == x.p.chain.saved then [W.Crash] else BlockStatements(e)
    case ExpireInternals(now) => [W.Expire(P.Bound(now, x.p.lag))]
    case Crash => [W.Crash]
    case _ => []
  }

  lemma StepProjects(x: Pair, step: P.Step)
    requires Agree(x) && P.Enabled(x.p, step) && Planned(x, step)
    ensures W.Leads(x.w, StepsOf(x, step), Seen(x.w, x.p, step)) && NoSelection(StepsOf(x, step))
    ensures Agree(Pair(P.After(x.p, step), Seen(x.w, x.p, step)))
  {
    var w' := Seen(x.w, x.p, step);
    match step
    case SaveCarried(m, d, lt) =>
      W.OneStep(x.w, W.SaveTask(d, m, x.p.batches[x.p.carriers[m].uuid].ttl));
      assert W.After(x.w, W.SaveTask(d, m, x.p.batches[x.p.carriers[m].uuid].ttl)) == w';
    case SaveTonTask(m, d, lt, expiredAt) =>
      W.OneStep(x.w, W.SaveTask(d, m, expiredAt));
      assert W.After(x.w, W.SaveTask(d, m, expiredAt)) == w';
    case CommitBlock(e) =>
      var r := Commit(x.p.db, e, x.p.chain.blocks[x.p.chain.saved]);
      if r.Ok? {
        CommitProjects(x.w, x.p.db, e, x.p.chain.blocks[x.p.chain.saved]);
      } else {
        W.OneStep(x.w, W.Crash);
      }
    case ExpireInternals(now) =>
      W.OneStep(x.w, W.Expire(P.Bound(now, x.p.lag)));
      assert W.After(x.w, W.Expire(P.Bound(now, x.p.lag))) == w';
    case Crash => W.OneStep(x.w, W.Crash);
    case CreateBatch(uuid, ttl, tasks, _) =>
      if CreateExternal(x.p.db, tasks, uuid, ttl).Ok? { BatchKeepsRows(x.p.db, tasks, uuid, ttl); }
      assert w' == x.w;
    case _ => assert w' == x.w;
  }

  // ---------------------------------------------------------------- runs

  function Acts(ms: seq<Move>): seq<P.Step>
    decreases ms
  {
    if ms == [] then [] else (if ms[0].Act? then [ms[0].step] else []) + Acts(ms[1..])
  }

  function CollectingOf(x: Pair, m: Move): seq<W.Step>
    requires Enabled(x, m)
  {
    match m
    case Act(step) => StepsOf(x, step)
    case Plan(plan) => [plan]
  }

  function Collecting(x: Pair, ms: seq<Move>): seq<W.Step>
    requires ValidRun(x, ms)
    decreases ms
  {
    if ms == [] then []
    else CollectingOf(x, ms[0]) + Collecting(After(x, ms[0]), ms[1..])
  }

  lemma MoveProjects(x: Pair, m: Move)
    requires Agree(x) && Enabled(x, m)
    ensures Agree(After(x, m))
    ensures W.Leads(x.w, CollectingOf(x, m), After(x, m).w)
  {
    match m
    case Act(step) => StepProjects(x, step);
    case Plan(plan) => W.OneStep(x.w, plan);
  }

  /** Every joint run is a run of the protocol and a run of the collecting, on the same two tables all along. */
  lemma {:induction false} RunProjects(x: Pair, ms: seq<Move>)
    requires Agree(x) && ValidRun(x, ms)
    ensures var x' := RunFrom(x, ms);
      && Agree(x') && W.Leads(x.w, Collecting(x, ms), x'.w)
      && P.ValidRun(x.p, Acts(ms)) && P.RunFrom(x.p, Acts(ms)) == x'.p
    decreases ms
  {
    if ms != [] {
      var m, y, rest := ms[0], After(x, ms[0]), ms[1..];
      MoveProjects(x, m);
      RunProjects(y, rest);
      W.Joined(x.w, CollectingOf(x, m), y.w, Collecting(y, rest), RunFrom(y, rest).w);
      if m.Act? { assert Acts(ms)[1..] == Acts(rest); } else { assert Acts(ms) == Acts(rest); }
    }
  }

  /** From the start, both sides are reachable. */
  lemma BothReachable(lag: int, kinds: map<Address, WalletType>, ms: seq<Move>)
    requires ValidRun(Init(lag, kinds), ms)
    ensures var x := RunFrom(Init(lag, kinds), ms); Agree(x) && I.Reachable(x.p) && W.Reachable(x.w)
  {
    RunProjects(Init(lag, kinds), ms);
  }

  // ---------------------------------------------------------------- who strikes

  /** A finished row was sent; if it failed too, a stray request of a saved block named it. */
  predicate RowFair(m: Uuid, row: IntRow, chain: P.Chain) {
    row.finishLt.Some? ==> row.sendingLt.Some? && (row.failed ==> P.Struck(chain, m))
  }

  predicate Fair(s: P.State) { forall m :: m in s.db.internal ==> RowFair(m, s.db.internal[m], s.chain) }

  lemma CarriedIsFair(s: P.State, m: Uuid)
    requires P.Inv(s) && m in s.db.internal && m in s.carriers
    ensures RowFair(m, s.db.internal[m], s.chain)
  {
    assert P.IntRowOk(m, s.db.internal[m], s.carriers[m], s.batches[s.carriers[m].uuid].ttl, s.chain);
  }

  /** A report of a block that fails a row outside the messages of the hot wallet is a stray one. */
  lemma StrikerIsStray(s: P.State, e: Events, m: Uuid)
    requires P.Inv(s) && P.Enabled(s, P.CommitBlock(e)) && m !in s.carriers && P.SomeInternal(e.internals, m, true)
    ensures m in P.MemosOf(s.chain.strays[s.chain.saved])
  {
    var ws, strays := e.internals, s.chain.strays[s.chain.saved];
    var i :| 0 <= i < |ws| && ws[i].memo == UuidText(m) && ws[i].isFailed == true;
    assert !P.Own(s.chain, s.tonMemos, e.sendings, ws[i]);
    var j :| 0 <= j < |strays| && strays[j] == ws[i];
    assert strays[j].memo.UuidText? && strays[j].memo.uuid == m;
  }

  lemma CommittedIsFair(s: P.State, e: Events, m: Uuid, row': IntRow)
    requires P.Inv(s) && P.Enabled(s, P.CommitBlock(e)) && m !in s.carriers && m in s.db.internal
    requires RowFair(m, s.db.internal[m], s.chain)
    requires I.RowCommitted(m, s.db.internal[m], row', e.sendings, e.internals)
    requires I.InternalsOpen(s.db.internal, e.sendings, e.internals)
    ensures RowFair(m, row', I.Advanced(s.chain))
  {
    var row, ws := s.db.internal[m], e.internals;
    if P.SomeInternal(ws, m, false) {
      var i :| 0 <= i < |ws| && ws[i].memo == UuidText(m) && ws[i].isFailed == false;
      assert I.OpenRow(s.db.internal, e.sendings, ws[i].memo);
    }
    if P.SomeInternal(ws, m, true) { StrikerIsStray(s, e, m); }
  }

  lemma StepIsFair(s: P.State, step: P.Step)
    requires P.Inv(s) && P.Enabled(s, step) && Fair(s)
    ensures Fair(P.After(s, step))
  {
    I.StepKeepsInv(s, step);
    var s' := P.After(s, step);
    forall m | m in s'.db.internal ensures RowFair(m, s'.db.internal[m], s'.chain) {
      if m in s'.carriers { CarriedIsFair(s', m); } else { OtherIsFair(s, step, m); }
    }
  }

  lemma OtherIsFair(s: P.State, step: P.Step, m: Uuid)
    requires P.Inv(s) && P.Enabled(s, step) && Fair(s)
    requires m in P.After(s, step).db.internal && m !in P.After(s, step).carriers
    ensures RowFair(m, P.After(s, step).db.internal[m], P.After(s, step).chain)
  {
    match step
    case CreateBatch(uuid, ttl, tasks, _) =>
      if CreateExternal(s.db, tasks, uuid, ttl).Ok? { BatchKeepsRows(s.db, tasks, uuid, ttl); }
    case Produce(_, _, _, strays) => I.SameStruck(s.chain.strays, strays, s.chain.saved);
    case CommitBlock(e) =>
      I.CommitOutcome(s, e);
      var r := Commit(s.db, e, s.chain.blocks[s.chain.saved]);
      if r.Ok? { CommittedIsFair(s, e, m, r.value.internal[m]); }
    case _ =>
  }

  lemma {:induction false} RunIsFair(s: P.State, steps: seq<P.Step>)
    requires P.Inv(s) && Fair(s) && P.ValidRun(s, steps)
    ensures Fair(P.RunFrom(s, steps))
    decreases steps
  {
    if steps != [] {
      I.StepKeepsInv(s, steps[0]);
      StepIsFair(s, steps[0]);
      RunIsFair(P.After(s, steps[0]), steps[1..]);
    }
  }

  /** In every reachable state of the protocol: a withdrawal that failed is finished only if a stray request named
      it. */
  lemma OnlyStraysStrike(s: P.State, m: Uuid)
    requires I.Reachable(s) && m in s.db.internal
    requires s.db.internal[m].failed && s.db.internal[m].finishLt.Some?
    ensures P.Struck(s.chain, m)
  {
    var lag, steps :| P.ValidRun(P.Init(lag), steps) && P.RunFrom(P.Init(lag), steps) == s;
    RunIsFair(P.Init(lag), steps);
  }

  // ---------------------------------------------------------------- the collecting inside the protocol

  /** In every joint run, strays or not: on the protocol's own table the withdrawals of a deposit that did not fail
      start ever later. */
  lemma ProtocolSinceGrows(lag: int, kinds: map<Address, WalletType>, ms: seq<Move>, j: nat, k: nat)
    requires ValidRun(Init(lag, kinds), ms) && j < k < |RunFrom(Init(lag, kinds), ms).w.order|
    ensures var x := RunFrom(Init(lag, kinds), ms);
      && x.w.order[j] in x.p.db.internal && x.w.order[k] in x.p.db.internal
      && W.Grows(x.p.db.internal, x.w.order[j], x.w.order[k])
  {
    BothReachable(lag, kinds, ms);
    W.SinceGrows(RunFrom(Init(lag, kinds), ms).w, j, k);
  }

  /** In every joint run that selects no shadowed deposit, none has two withdrawals on their way. */
  lemma ProtocolOneOnItsWay(lag: int, kinds: map<Address, WalletType>, ms: seq<Move>, d: Address)
    requires ValidRun(Init(lag, kinds), ms)
    requires W.ValidRun(W.Init(kinds), Collecting(Init(lag, kinds), ms))
    requires W.ClearRun(W.Init(kinds), Collecting(Init(lag, kinds), ms))
    ensures !W.TwoOnTheirWay(RunFrom(Init(lag, kinds), ms).p.db.internal, d)
  {
    RunProjects(Init(lag, kinds), ms);
    W.OneOnItsWay(kinds, Collecting(Init(lag, kinds), ms), d);
  }

  /** While no stray request of a saved block has named a memo, the selections on the protocol's tables follow the rule
      and no deposit has two withdrawals on their way. */
  lemma UndisturbedCollecting(lag: int, kinds: map<Address, WalletType>, ms: seq<Move>, kind: WalletType, d: Address,
                              lt: nat)
    requires ValidRun(Init(lag, kinds), ms)
    requires var chain := RunFrom(Init(lag, kinds), ms).p.chain; P.StruckBefore(chain.strays, chain.saved) == {}
    ensures var x := RunFrom(Init(lag, kinds), ms);
      && (W.Selected(x.p.db, kind, d, lt) <==> W.Due(x.p.db, x.w.order, kind, d, lt))
      && !W.TwoOnTheirWay(x.p.db.internal, d)
  {
    var x := RunFrom(Init(lag, kinds), ms);
    var steps := Collecting(Init(lag, kinds), ms);
    RunProjects(Init(lag, kinds), ms);
    BothReachable(lag, kinds, ms);
    forall m | m in x.p.db.internal && x.p.db.internal[m].failed ensures x.p.db.internal[m].finishLt.None? {
      if x.p.db.internal[m].finishLt.Some? { OnlyStraysStrike(x.p, m); }
    }
    assert W.FailedUnfinished(x.w.db.internal);
    W.FailedUnfinishedIff(kinds, steps);
    W.UnstruckInv(kinds, steps);
    W.UnstruckSelection(kinds, steps, kind, d, lt);
    ProtocolOneOnItsWay(lag, kinds, ms, d);
    SameSelection(x.w.db, x.p.db, x.w.order, kind, d, lt);
  }

  lemma SameSelection(t: Tables, u: Tables, order: seq<Uuid>, kind: WalletType, d: Address, lt: nat)
    requires u.internal == t.internal && u.extIncomes == t.extIncomes
    ensures W.Selected(u, kind, d, lt) <==> W.Selected(t, kind, d, lt)
    ensures W.Due(u, order, kind, d, lt) <==> W.Due(t, order, kind, d, lt)
  {
  }
}
