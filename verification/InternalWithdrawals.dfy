/** Withdrawals from deposits to the hot wallet: the two selections of deposits, which run while blocks are saved,
    rows expire and the service restarts, and what they keep of the table of internal withdrawals. */
module InternalWithdrawals {
  import opened Types
  import opened Ledger

  /** kinds says which wallet a deposit address is; order lists the memos as their rows were inserted; tasks are the
      selected deposits waiting in memory, each with the lt of its newest income. */
  datatype State = State(kinds: map<Address, WalletType>, db: Tables, order: seq<Uuid>, tasks: map<Address, nat>)

  function Init(kinds: map<Address, WalletType>): State {
    State(kinds, EMPTY_TABLES, [], map[])
  }

  // ---------------------------------------------------------------- the selections as written

  predicate SameDeposit(rows: map<Uuid, IntRow>, m: Uuid, n: Uuid)
    requires m in rows && n in rows
  {
    rows[m].deposit == rows[n].deposit
  }

  /** The derived table: rows, failed ones too, whose since_lt is the greatest one of a not failed withdrawal. */
  predicate InDerived(rows: map<Uuid, IntRow>, m: Uuid) {
    && m in rows
    && (exists n :: n in rows && SameDeposit(rows, n, m) && !rows[n].failed && rows[n].sinceLt == rows[m].sinceLt)
    && (forall n :: n in rows && SameDeposit(rows, n, m) && !rows[n].failed ==> rows[n].sinceLt <= rows[m].sinceLt)
  }

  predicate JoinsWith(rows: map<Uuid, IntRow>, i: Income, m: Uuid) {
    InDerived(rows, m) && rows[m].deposit == i.deposit
  }

  predicate NewerThan(kind: WalletType, row: IntRow, lt: nat) {
    row.finishLt.Some? && if kind == TonDeposit then lt > row.finishLt.value else lt > row.sinceLt
  }

  /** The WHERE clause over the left join. */
  predicate Passes(rows: map<Uuid, IntRow>, kind: WalletType, i: Income) {
    || (exists m :: m in rows && JoinsWith(rows, i, m) && NewerThan(kind, rows[m], i.lt))
    || (forall m :: m in rows ==> !JoinsWith(rows, i, m))
  }

  /** One group of the result: a deposit and the greatest lt among its incomes that pass. */
  predicate Selected(t: Tables, kind: WalletType, d: Address, lt: nat) {
    && (exists i :: i in t.extIncomes && i.deposit == d && i.lt == lt && Passes(t.internal, kind, i))
    && (forall i :: i in t.extIncomes && i.deposit == d && Passes(t.internal, kind, i) ==> i.lt <= lt)
  }

  // ---------------------------------------------------------------- the rule they stand for

  predicate Valued(rows: map<Uuid, IntRow>, d: Address, m: Uuid) {
    m in rows && rows[m].deposit == d && !rows[m].failed
  }

  /** The withdrawal of the deposit inserted last among the ones that did not fail. */
  predicate NewestOf(rows: map<Uuid, IntRow>, order: seq<Uuid>, d: Address, k: nat) {
    && k < |order| && Valued(rows, d, order[k])
    && (forall j :: k < j < |order| ==> !Valued(rows, d, order[j]))
  }

  predicate NewestIncome(incomes: multiset<Income>, d: Address, lt: nat) {
    && (exists i :: i in incomes && i.deposit == d && i.lt == lt)
    && (forall i :: i in incomes && i.deposit == d ==> i.lt <= lt)
  }

  /** A deposit is due when its newest withdrawal that did not fail, if any, is finished and older than its newest
      income: than the finish for TON, since all of it is taken, and than the previous task for jettons. */
  predicate Due(t: Tables, order: seq<Uuid>, kind: WalletType, d: Address, lt: nat) {
    && NewestIncome(t.extIncomes, d, lt)
    && (forall k: nat :: k < |order| && NewestOf(t.internal, order, d, k) ==>
          FinishedBefore(kind, t.internal[order[k]], lt))
  }

  /** The withdrawal is finished, and older than an income at this lt. */
  predicate FinishedBefore(kind: WalletType, row: IntRow, lt: nat) {
    match row.finishLt
    case None => false
    case Some(finish) => if kind == TonDeposit then finish < lt else row.sinceLt < lt
  }

  // ---------------------------------------------------------------- steps

  datatype Step =
    | Select(kind: WalletType, found: map<Address, nat>)
    | SaveTask(deposit: Address, memo: Uuid, expiredAt: int)
    | DropTask(deposit: Address)
    | Statement(event: DbEvent)
    | Expire(bound: int)
    | Crash

  /** What a finish says of its row: the transfer is received at an lt after the income that caused it.  A failure may
      name any memo, since anyone may put it into a transfer request that the deposit wallet rejects. */
  predicate Plausible(rows: map<Uuid, IntRow>, e: DbEvent) {
    e.OfInternal? && !e.internal.isFailed && e.internal.memo.UuidText? && e.internal.memo.uuid in rows ==>
      rows[e.internal.memo.uuid].sinceLt < e.internal.lt
  }

  predicate OfKind(kinds: map<Address, WalletType>, kind: WalletType, d: Address) {
    d in kinds && kinds[d] == kind
  }

  predicate Enabled(s: State, step: Step) {
    match step
    case Select(kind, found) =>
      && (forall d :: d in s.tasks ==> !OfKind(s.kinds, kind, d))
      && (forall d :: d in found ==> OfKind(s.kinds, kind, d) && Selected(s.db, kind, d, found[d]))
    case SaveTask(d, memo, _) => d in s.tasks && memo !in s.db.internal
    case DropTask(d) => d in s.tasks
    case Statement(e) => Plausible(s.db.internal, e)
    case Expire(_) => true
    case Crash => true
  }

  function Saved(t: Tables, memo: Uuid, d: Address, lt: nat, expiredAt: int): Tables {
    var r := SaveInternalTask(t, memo, d, lt, expiredAt);
    if r.Ok? then r.value else t
  }

  function Applied(t: Tables, e: DbEvent): Tables {
    var r := Apply(t, e);
    if r.Ok? then r.value else t
  }

  function After(s: State, step: Step): State
    requires Enabled(s, step)
  {
    match step
    case Select(kind, found) => s.(tasks := s.tasks + found)
    case SaveTask(d, memo, expiredAt) =>
      s.(db := Saved(s.db, memo, d, s.tasks[d], expiredAt), order := s.order + [memo], tasks := s.tasks - {d})
    case DropTask(d) => s.(tasks := s.tasks - {d})
    case Statement(e) => s.(db := Applied(s.db, e))
    case Expire(bound) => s.(db := ExpireInternal(s.db, bound))
    case Crash => s.(tasks := map[])
  }

  predicate ValidRun(s: State, steps: seq<Step>)
    decreases steps
  {
    steps == [] || (Enabled(s, steps[0]) && ValidRun(After(s, steps[0]), steps[1..]))
  }

  function RunFrom(s: State, steps: seq<Step>): State
    requires ValidRun(s, steps)
    decreases steps
  {
    if steps == [] then s else RunFrom(After(s, steps[0]), steps[1..])
  }

  ghost predicate Reachable(s: State) {
    exists kinds, steps :: ValidRun(Init(kinds), steps) && RunFrom(Init(kinds), steps) == s
  }

  // ---------------------------------------------------------------- what the join means, on every table

  /** Each row is listed once. */
  predicate Listed(rows: map<Uuid, IntRow>, order: seq<Uuid>) {
    && (forall k :: 0 <= k < |order| ==> order[k] in rows)
    && (forall j, k :: 0 <= j < k < |order| ==> order[j] != order[k])
    && (forall m :: m in rows ==> m in order)
  }

  /** The lt after which a finished withdrawal lets an income through. */
  function Threshold(kind: WalletType, row: IntRow): nat
    requires row.finishLt.Some?
  {
    if kind == TonDeposit then row.finishLt.value else row.sinceLt
  }

  /** A finished row of the derived table, failed or not. */
  predicate Opens(rows: map<Uuid, IntRow>, d: Address, m: Uuid) {
    InDerived(rows, m) && rows[m].deposit == d && rows[m].finishLt.Some?
  }

  /** No finished row of the derived table opens earlier than row k, and if k is finished some row opens as early. */
  predicate OpensAs(rows: map<Uuid, IntRow>, kind: WalletType, d: Address, k: Uuid)
    requires k in rows
  {
    && (forall m :: m in rows && Opens(rows, d, m) ==>
          rows[k].finishLt.Some? && Threshold(kind, rows[k]) <= Threshold(kind, rows[m]))
    && (rows[k].finishLt.Some? ==>
          exists m :: m in rows && Opens(rows, d, m) && Threshold(kind, rows[m]) <= Threshold(kind, rows[k]))
  }

  /** The derived table opens as the newest withdrawal does. */
  predicate JoinMeansRule(rows: map<Uuid, IntRow>, order: seq<Uuid>, kind: WalletType, d: Address) {
    forall k: nat :: k < |order| && NewestOf(rows, order, d, k) ==> OpensAs(rows, kind, d, order[k])
  }

  function WithIncomes(t: Tables, incomes: multiset<Income>): Tables { t.(extIncomes := incomes) }

  /** With these incomes the selection finds this deposit at this lt exactly when it is due. */
  predicate Agrees(t: Tables, order: seq<Uuid>, kind: WalletType, d: Address, incomes: multiset<Income>, lt: nat) {
    Selected(WithIncomes(t, incomes), kind, d, lt) <==> Due(WithIncomes(t, incomes), order, kind, d, lt)
  }

  lemma {:induction false} Newest(rows: map<Uuid, IntRow>, order: seq<Uuid>, d: Address, n: nat) returns (k: int)
    requires n <= |order| && forall j :: n <= j < |order| ==> !Valued(rows, d, order[j])
    ensures k == -1 || (0 <= k && NewestOf(rows, order, d, k))
    ensures k == -1 ==> forall j :: 0 <= j < |order| ==> !Valued(rows, d, order[j])
  {
    if n == 0 {
      k := -1;
    } else if Valued(rows, d, order[n - 1]) {
      k := n - 1;
    } else {
      k := Newest(rows, order, d, n - 1);
    }
  }

  lemma {:induction false} Greatest(rows: map<Uuid, IntRow>, order: seq<Uuid>, d: Address, n: nat) returns (k: int)
    requires n <= |order|
    ensures k == -1 || (0 <= k < n && Valued(rows, d, order[k]))
    ensures forall j :: 0 <= j < n && Valued(rows, d, order[j]) ==>
      k != -1 && rows[order[j]].sinceLt <= rows[order[k]].sinceLt
  {
    if n == 0 {
      k := -1;
    } else {
      k := Greatest(rows, order, d, n - 1);
      if Valued(rows, d, order[n - 1]) && (k == -1 || rows[order[k]].sinceLt < rows[order[n - 1]].sinceLt) {
        k := n - 1;
      }
    }
  }

  /** The derived table has a row of the deposit exactly when some withdrawal of it did not fail. */
  lemma DerivedExists(rows: map<Uuid, IntRow>, order: seq<Uuid>, d: Address)
    requires Listed(rows, order)
    ensures (exists m :: m in rows && InDerived(rows, m) && rows[m].deposit == d)
       <==> (exists k :: 0 <= k < |order| && Valued(rows, d, order[k]))
  {
    var k := Greatest(rows, order, d, |order|);
    if k != -1 {
      var top := order[k];
      forall n | n in rows && SameDeposit(rows, n, top) && !rows[n].failed
        ensures rows[n].sinceLt <= rows[top].sinceLt
      {
        assert Valued(rows, d, n) && n in order;
      }
      assert SameDeposit(rows, top, top) && InDerived(rows, top);
    }
    if m :| m in rows && InDerived(rows, m) && rows[m].deposit == d {
      var n := DerivedHasValued(rows, order, d, m);
    }
  }

  lemma DerivedHasValued(rows: map<Uuid, IntRow>, order: seq<Uuid>, d: Address, m: Uuid) returns (n: nat)
    requires Listed(rows, order) && InDerived(rows, m) && rows[m].deposit == d
    ensures n < |order| && Valued(rows, d, order[n])
  {
    var x :| x in rows && SameDeposit(rows, x, m) && !rows[x].failed && rows[x].sinceLt == rows[m].sinceLt;
    assert x in order;
    n :| n < |order| && order[n] == x;
  }

  predicate OpenFor(rows: map<Uuid, IntRow>, kind: WalletType, d: Address, lt: nat) {
    exists m :: m in rows && Opens(rows, d, m) && lt > Threshold(kind, rows[m])
  }

  /** An income passes when nothing of its deposit is in the derived table, or a row there opens for it. */
  lemma PassesWhen(rows: map<Uuid, IntRow>, order: seq<Uuid>, kind: WalletType, i: Income)
    requires Listed(rows, order)
    ensures Passes(rows, kind, i) <==>
      OpenFor(rows, kind, i.deposit, i.lt) || forall k :: 0 <= k < |order| ==> !Valued(rows, i.deposit, order[k])
  {
    DerivedExists(rows, order, i.deposit);
    if OpenFor(rows, kind, i.deposit, i.lt) {
      var m :| m in rows && Opens(rows, i.deposit, m) && i.lt > Threshold(kind, rows[m]);
      assert JoinsWith(rows, i, m) && NewerThan(kind, rows[m], i.lt);
    }
    if m :| m in rows && JoinsWith(rows, i, m) && NewerThan(kind, rows[m], i.lt) {
      assert Opens(rows, i.deposit, m);
    }
    if forall m :: m in rows ==> !JoinsWith(rows, i, m) {
      assert forall m :: m in rows && InDerived(rows, m) && rows[m].deposit == i.deposit ==> JoinsWith(rows, i, m);
    }
  }

  /** Where the join means the rule, an income passes exactly when the newest withdrawal that did not fail, if any, is
      finished before it. */
  lemma PassesIff(rows: map<Uuid, IntRow>, order: seq<Uuid>, kind: WalletType, i: Income)
    requires Listed(rows, order) && JoinMeansRule(rows, order, kind, i.deposit)
    ensures Passes(rows, kind, i)
       <==> forall k: nat :: k < |order| && NewestOf(rows, order, i.deposit, k) ==>
              NewerThan(kind, rows[order[k]], i.lt)
  {
    var d := i.deposit;
    PassesWhen(rows, order, kind, i);
    var k := Newest(rows, order, d, |order|);
    if k != -1 {
      forall l: nat | l < |order| && NewestOf(rows, order, d, l) ensures l == k { }
      if NewerThan(kind, rows[order[k]], i.lt) {
        var m :| m in rows && Opens(rows, d, m) && Threshold(kind, rows[m]) <= Threshold(kind, rows[order[k]]);
        assert OpenFor(rows, kind, d, i.lt);
      }
      if OpenFor(rows, kind, d, i.lt) {
        var m :| m in rows && Opens(rows, d, m) && i.lt > Threshold(kind, rows[m]);
        assert NewerThan(kind, rows[order[k]], i.lt);
      }
    }
  }

  lemma RuleSelects(t: Tables, order: seq<Uuid>, kind: WalletType, d: Address, lt: nat)
    requires Listed(t.internal, order) && JoinMeansRule(t.internal, order, kind, d)
    ensures Selected(t, kind, d, lt) <==> Due(t, order, kind, d, lt)
  {
    forall i | i in t.extIncomes && i.deposit == d
      ensures Passes(t.internal, kind, i) <==>
        forall k: nat :: k < |order| && NewestOf(t.internal, order, d, k) ==>
          NewerThan(kind, t.internal[order[k]], i.lt)
    {
      PassesIff(t.internal, order, kind, i);
    }
    if Selected(t, kind, d, lt) { SelectedIsNewest(t, order, kind, d, lt); }
  }

  lemma SelectedIsNewest(t: Tables, order: seq<Uuid>, kind: WalletType, d: Address, lt: nat)
    requires Listed(t.internal, order) && JoinMeansRule(t.internal, order, kind, d)
    requires Selected(t, kind, d, lt)
    ensures NewestIncome(t.extIncomes, d, lt)
  {
    var i :| i in t.extIncomes && i.deposit == d && i.lt == lt && Passes(t.internal, kind, i);
    forall j | j in t.extIncomes && j.deposit == d ensures j.lt <= lt {
      PassesIff(t.internal, order, kind, i);
      PassesIff(t.internal, order, kind, j);
    }
  }

  /** The only income of the deposit. */
  function Only(d: Address, lt: nat): multiset<Income> { multiset{Income(d, lt, 0, 0, 0)} }

  lemma OnlyIncome(t: Tables, order: seq<Uuid>, kind: WalletType, d: Address, lt: nat)
    ensures Selected(WithIncomes(t, Only(d, lt)), kind, d, lt) <==> Passes(t.internal, kind, Income(d, lt, 0, 0, 0))
    ensures Due(WithIncomes(t, Only(d, lt)), order, kind, d, lt) <==>
      forall k: nat :: k < |order| && NewestOf(t.internal, order, d, k) ==> NewerThan(kind, t.internal[order[k]], lt)
  {
    var i := Income(d, lt, 0, 0, 0);
    assert i in Only(d, lt) && forall j :: j in Only(d, lt) ==> j == i;
  }

  /** A lt at which the selection and the rule part when the join does not mean the rule. */
  lemma PartingLt(t: Tables, order: seq<Uuid>, kind: WalletType, d: Address) returns (lt: nat)
    requires Listed(t.internal, order) && !JoinMeansRule(t.internal, order, kind, d)
    ensures !Agrees(t, order, kind, d, Only(d, lt), lt)
  {
    var rows := t.internal;
    var k: nat :| k < |order| && NewestOf(rows, order, d, k) && !OpensAs(rows, kind, d, order[k]);
    lt := PartingAt(rows, kind, d, order[k]);
    forall l: nat | l < |order| && NewestOf(rows, order, d, l) ensures l == k { }
    PassesWhen(rows, order, kind, Income(d, lt, 0, 0, 0));
    OnlyIncome(t, order, kind, d, lt);
  }

  lemma PartingAt(rows: map<Uuid, IntRow>, kind: WalletType, d: Address, k: Uuid) returns (lt: nat)
    requires k in rows && !OpensAs(rows, kind, d, k)
    ensures OpenFor(rows, kind, d, lt) <==> !NewerThan(kind, rows[k], lt)
  {
    if m :| m in rows && Opens(rows, d, m) &&
            !(rows[k].finishLt.Some? && Threshold(kind, rows[k]) <= Threshold(kind, rows[m])) {
      lt := if rows[k].finishLt.Some? then Threshold(kind, rows[k]) else Threshold(kind, rows[m]) + 1;
      assert OpenFor(rows, kind, d, lt);
    } else {
      lt := Threshold(kind, rows[k]) + 1;
      assert !OpenFor(rows, kind, d, lt);
    }
  }

  /** On every table, whatever has happened to it: the nested joins select exactly the deposits that are due, whatever
      the incomes are, if and only if no finished row of the derived table opens at another lt than the newest. */
  lemma SelectionIsTheRuleIff(t: Tables, order: seq<Uuid>, kind: WalletType, d: Address)
    requires Listed(t.internal, order)
    ensures (forall incomes, lt :: Agrees(t, order, kind, d, incomes, lt))
       <==> JoinMeansRule(t.internal, order, kind, d)
  {
    if JoinMeansRule(t.internal, order, kind, d) {
      forall incomes, lt ensures Agrees(t, order, kind, d, incomes, lt) {
        RuleSelects(WithIncomes(t, incomes), order, kind, d, lt);
      }
    } else {
      var lt := PartingLt(t, order, kind, d);
    }
  }

  // ---------------------------------------------------------------- invariants

  /** What a finish implies, struck or not. */
  predicate FinishOk(row: IntRow) {
    row.finishLt.Some? ==> row.sendingLt.Some? && row.sinceLt < row.finishLt.value
  }

  predicate FinishesOk(rows: map<Uuid, IntRow>) { forall m :: m in rows ==> FinishOk(rows[m]) }

  /** A failed withdrawal has no finish. */
  predicate FailedUnfinished(rows: map<Uuid, IntRow>) {
    forall m :: m in rows && rows[m].failed ==> rows[m].finishLt.None?
  }

  /** m was inserted before n: when neither failed, n starts later. */
  predicate Grows(rows: map<Uuid, IntRow>, m: Uuid, n: Uuid)
    requires m in rows && n in rows
  {
    SameDeposit(rows, m, n) && !rows[m].failed && !rows[n].failed ==> rows[m].sinceLt < rows[n].sinceLt
  }

  /** And m is finished. */
  predicate Done(rows: map<Uuid, IntRow>, m: Uuid, n: Uuid)
    requires m in rows && n in rows
  {
    SameDeposit(rows, m, n) && !rows[m].failed && !rows[n].failed ==> rows[m].finishLt.Some?
  }

  predicate Growing(rows: map<Uuid, IntRow>, order: seq<Uuid>)
    requires Listed(rows, order)
  {
    forall j, k :: 0 <= j < k < |order| ==> Grows(rows, order[j], order[k])
  }

  predicate EarlierDone(rows: map<Uuid, IntRow>, order: seq<Uuid>)
    requires Listed(rows, order)
  {
    forall j, k :: 0 <= j < k < |order| ==> Done(rows, order[j], order[k])
  }

  /** A task in memory is newer than every withdrawal of its deposit that did not fail. */
  predicate TaskAbove(rows: map<Uuid, IntRow>, d: Address, lt: nat) {
    forall m :: m in rows && Valued(rows, d, m) ==> rows[m].sinceLt < lt
  }

  /** Nothing of the deposit is on its way. */
  predicate Free(rows: map<Uuid, IntRow>, d: Address) {
    forall m :: m in rows && Valued(rows, d, m) ==> rows[m].finishLt.Some?
  }

  predicate TasksAbove(rows: map<Uuid, IntRow>, tasks: map<Address, nat>) {
    forall d :: d in tasks ==> TaskAbove(rows, d, tasks[d])
  }

  predicate TasksFree(rows: map<Uuid, IntRow>, tasks: map<Address, nat>) {
    forall d :: d in tasks ==> Free(rows, d)
  }

  /** What every run keeps, whatever the events. */
  predicate BaseInv(s: State) {
    && Listed(s.db.internal, s.order) && FinishesOk(s.db.internal)
    && Growing(s.db.internal, s.order) && TasksAbove(s.db.internal, s.tasks)
  }

  /** What a run keeps that never selects a shadowed deposit. */
  predicate Inv(s: State) {
    BaseInv(s) && EarlierDone(s.db.internal, s.order) && TasksFree(s.db.internal, s.tasks)
  }

  /** Rows that only move forward: nothing finished is undone, nothing failed comes back. */
  predicate Forward(rows: map<Uuid, IntRow>, rows': map<Uuid, IntRow>) {
    && rows'.Keys == rows.Keys
    && (forall m :: m in rows ==>
          && rows'[m].deposit == rows[m].deposit && rows'[m].sinceLt == rows[m].sinceLt
          && (rows[m].failed ==> rows'[m].failed)
          && (rows[m].finishLt.Some? ==> rows'[m].finishLt.Some?))
  }

  lemma ForwardGrows(rows: map<Uuid, IntRow>, rows': map<Uuid, IntRow>, order: seq<Uuid>, tasks: map<Address, nat>)
    requires Forward(rows, rows') && Listed(rows, order) && Growing(rows, order) && TasksAbove(rows, tasks)
    ensures Listed(rows', order) && Growing(rows', order) && TasksAbove(rows', tasks)
  {
    forall j, k | 0 <= j < k < |order| ensures Grows(rows', order[j], order[k]) {
      assert Grows(rows, order[j], order[k]);
    }
    forall d | d in tasks ensures TaskAbove(rows', d, tasks[d]) {
      assert TaskAbove(rows, d, tasks[d]);
      forall m | m in rows' && Valued(rows', d, m) ensures rows'[m].sinceLt < tasks[d] { assert Valued(rows, d, m); }
    }
  }

  lemma ForwardDone(rows: map<Uuid, IntRow>, rows': map<Uuid, IntRow>, order: seq<Uuid>, tasks: map<Address, nat>)
    requires Forward(rows, rows') && Listed(rows, order) && Listed(rows', order)
    requires EarlierDone(rows, order) && TasksFree(rows, tasks)
    ensures EarlierDone(rows', order) && TasksFree(rows', tasks)
  {
    forall j, k | 0 <= j < k < |order| ensures Done(rows', order[j], order[k]) {
      assert Done(rows, order[j], order[k]);
    }
    forall d | d in tasks ensures Free(rows', d) {
      assert Free(rows, d);
      forall m | m in rows' && Valued(rows', d, m) ensures rows'[m].finishLt.Some? { assert Valued(rows, d, m); }
    }
  }

  lemma StatementMovesForward(t: Tables, e: DbEvent)
    requires FinishesOk(t.internal) && Plausible(t.internal, e)
    ensures Forward(t.internal, Applied(t, e).internal) && FinishesOk(Applied(t, e).internal)
    ensures FailedUnfinished(t.internal) && !Strikes(t, e) ==> FailedUnfinished(Applied(t, e).internal)
  {
    if Apply(t, e).Err? {
    } else if e.OfSending? {
      SendingMovesForward(t, e.sending);
    } else if e.OfInternal? {
      WithdrawalMovesForward(t, e.internal);
    } else {
      assert Applied(t, e).internal == t.internal;
    }
  }

  lemma SendingMovesForward(t: Tables, s: SendingConfirmation)
    requires FinishesOk(t.internal) && ConfirmSending(t, s).Ok?
    ensures var rows' := ConfirmSending(t, s).value.internal;
      && Forward(t.internal, rows') && FinishesOk(rows')
      && (FailedUnfinished(t.internal) ==> FailedUnfinished(rows'))
  {
  }

  /** The event fails a finished withdrawal. */
  predicate Strikes(t: Tables, e: DbEvent) {
    && e.OfInternal? && e.internal.isFailed && UpdateInternal(t, e.internal).Ok?
    && e.internal.memo.UuidText? && e.internal.memo.uuid in t.internal
    && t.internal[e.internal.memo.uuid].finishLt.Some?
  }

  lemma WithdrawalMovesForward(t: Tables, w: InternalWithdrawal)
    requires FinishesOk(t.internal) && UpdateInternal(t, w).Ok? && Plausible(t.internal, OfInternal(w))
    ensures var rows' := UpdateInternal(t, w).value.internal;
      && Forward(t.internal, rows') && FinishesOk(rows')
      && (FailedUnfinished(t.internal) && !Strikes(t, OfInternal(w)) ==> FailedUnfinished(rows'))
      && (Strikes(t, OfInternal(w)) ==> !FailedUnfinished(rows'))
  {
    var m := w.memo.uuid;
    var rows' := UpdateInternal(t, w).value.internal;
    assert Strikes(t, OfInternal(w)) ==> rows'[m].failed && rows'[m].finishLt.Some?;
  }

  lemma ExpiryMovesForward(t: Tables, bound: int)
    requires FinishesOk(t.internal)
    ensures var rows' := ExpireInternal(t, bound).internal;
      && Forward(t.internal, rows') && FinishesOk(rows')
      && (FailedUnfinished(t.internal) ==> FailedUnfinished(rows'))
  {
  }

  /** Exactly when one event of a block breaks the rule that a failed withdrawal has no finish. */
  lemma UpdateKeepsRuleIff(t: Tables, w: InternalWithdrawal)
    requires FailedUnfinished(t.internal) && UpdateInternal(t, w).Ok?
    ensures FailedUnfinished(UpdateInternal(t, w).value.internal) <==> !Strikes(t, OfInternal(w))
  {
    var m := w.memo.uuid;
    var rows' := UpdateInternal(t, w).value.internal;
    if Strikes(t, OfInternal(w)) { assert rows'[m].failed && rows'[m].finishLt.Some?; }
  }

  lemma NewestIsGreatest(rows: map<Uuid, IntRow>, order: seq<Uuid>, d: Address, k: nat, m: Uuid)
    requires Listed(rows, order) && Growing(rows, order) && NewestOf(rows, order, d, k) && Valued(rows, d, m)
    ensures rows[m].sinceLt <= rows[order[k]].sinceLt
    ensures m != order[k] ==> rows[m].sinceLt < rows[order[k]].sinceLt
    ensures m != order[k] && EarlierDone(rows, order) ==> rows[m].finishLt.Some?
  {
    assert m in order;
    var j :| 0 <= j < |order| && order[j] == m;
    if j < k {
      assert Grows(rows, order[j], order[k]) && (EarlierDone(rows, order) ==> Done(rows, order[j], order[k]));
    }
  }

  /** The derived table holds the newest row and, besides it, only failed ones. */
  lemma DerivedRows(rows: map<Uuid, IntRow>, order: seq<Uuid>, d: Address, k: nat)
    requires Listed(rows, order) && Growing(rows, order) && NewestOf(rows, order, d, k)
    ensures InDerived(rows, order[k])
    ensures forall m :: InDerived(rows, m) && rows[m].deposit == d && !rows[m].failed ==> m == order[k]
  {
    var top := order[k];
    forall n | n in rows && SameDeposit(rows, n, top) && !rows[n].failed ensures rows[n].sinceLt <= rows[top].sinceLt {
      NewestIsGreatest(rows, order, d, k, n);
    }
    assert SameDeposit(rows, top, top);
    forall m | InDerived(rows, m) && rows[m].deposit == d && !rows[m].failed ensures m == top {
      NewestIsGreatest(rows, order, d, k, m);
      assert SameDeposit(rows, top, m);
    }
  }

  predicate Apart(struck: IntRow, row: IntRow) {
    struck.deposit == row.deposit && struck.failed && struck.finishLt.Some? ==> struck.sinceLt != row.sinceLt
  }

  /** A finished withdrawal that failed does no harm while no later one shares its since_lt. */
  lemma StruckApartMeansRule(rows: map<Uuid, IntRow>, order: seq<Uuid>, kind: WalletType, d: Address)
    requires Listed(rows, order) && Growing(rows, order)
    requires forall m, n :: m in rows && Valued(rows, d, n) ==> Apart(rows[m], rows[n])
    ensures JoinMeansRule(rows, order, kind, d)
  {
    forall k: nat | k < |order| && NewestOf(rows, order, d, k)
      ensures forall m :: m in rows && Opens(rows, d, m) ==> m == order[k]
      ensures rows[order[k]].finishLt.Some? ==> Opens(rows, d, order[k])
    {
      DerivedRows(rows, order, d, k);
      forall m | m in rows && Opens(rows, d, m) ensures m == order[k] {
        var n :| n in rows && SameDeposit(rows, n, m) && !rows[n].failed && rows[n].sinceLt == rows[m].sinceLt;
        assert Valued(rows, d, n);
      }
    }
  }

  /** As long as no failed withdrawal is finished the join means the rule, even when failed retries share the since_lt
      of the newest withdrawal. */
  lemma UnstruckMeansRule(rows: map<Uuid, IntRow>, order: seq<Uuid>, kind: WalletType, d: Address)
    requires Listed(rows, order) && Growing(rows, order) && FailedUnfinished(rows)
    ensures JoinMeansRule(rows, order, kind, d)
  {
    forall k: nat | k < |order| && NewestOf(rows, order, d, k)
      ensures forall m :: m in rows && Opens(rows, d, m) ==> m == order[k]
      ensures rows[order[k]].finishLt.Some? ==> Opens(rows, d, order[k])
    {
      DerivedRows(rows, order, d, k);
    }
  }

  // ---------------------------------------------------------------- every step keeps it

  /** A selected task is newer than every withdrawal of its deposit that did not fail, on every table. */
  lemma SelectedIsAbove(t: Tables, order: seq<Uuid>, kind: WalletType, d: Address, lt: nat)
    requires Listed(t.internal, order) && FinishesOk(t.internal) && Selected(t, kind, d, lt)
    ensures TaskAbove(t.internal, d, lt)
    ensures !Free(t.internal, d) ==> OpenFor(t.internal, kind, d, lt)
  {
    var rows := t.internal;
    var i :| i in t.extIncomes && i.deposit == d && i.lt == lt && Passes(rows, kind, i);
    PassesWhen(rows, order, kind, i);
    if OpenFor(rows, kind, d, lt) {
      var m :| m in rows && Opens(rows, d, m) && lt > Threshold(kind, rows[m]);
      assert FinishOk(rows[m]);
      forall n | n in rows && Valued(rows, d, n) ensures rows[n].sinceLt < lt { assert SameDeposit(rows, n, m); }
    } else {
      forall n | n in rows ensures !Valued(rows, d, n) { assert n in order; }
    }
  }

  /** A deposit that is due has nothing on its way, and its newest income is newer than every withdrawal so far. */
  lemma DueTaskOk(t: Tables, order: seq<Uuid>, kind: WalletType, d: Address, lt: nat)
    requires Listed(t.internal, order) && FinishesOk(t.internal)
    requires Growing(t.internal, order) && EarlierDone(t.internal, order)
    requires Due(t, order, kind, d, lt)
    ensures TaskAbove(t.internal, d, lt) && Free(t.internal, d)
  {
    var rows := t.internal;
    var k := Newest(rows, order, d, |order|);
    forall m | m in rows && Valued(rows, d, m) ensures rows[m].finishLt.Some? && rows[m].sinceLt < lt {
      assert m in order;
      assert k != -1;
      NewestIsGreatest(rows, order, d, k, m);
      assert NewerThan(kind, rows[order[k]], lt) && FinishOk(rows[order[k]]);
    }
  }

  /** The newest withdrawal is on its way while a failed one that is finished shares its since_lt. */
  predicate Shadowed(rows: map<Uuid, IntRow>, order: seq<Uuid>, d: Address, k: nat) {
    && NewestOf(rows, order, d, k) && rows[order[k]].finishLt.None?
    && exists m :: m in rows && Opens(rows, d, m)
  }

  /** No withdrawal of the deposit is shadowed. */
  predicate Unshadowed(rows: map<Uuid, IntRow>, order: seq<Uuid>, d: Address) {
    forall k: nat :: k < |order| ==> !Shadowed(rows, order, d, k)
  }

  /** A deposit that is selected and not shadowed has nothing on its way. */
  lemma SelectedIsFree(t: Tables, order: seq<Uuid>, kind: WalletType, d: Address, lt: nat)
    requires Listed(t.internal, order) && FinishesOk(t.internal)
    requires Growing(t.internal, order) && EarlierDone(t.internal, order)
    requires Selected(t, kind, d, lt) && Unshadowed(t.internal, order, d)
    ensures Free(t.internal, d)
  {
    var rows := t.internal;
    SelectedIsAbove(t, order, kind, d, lt);
    if !Free(rows, d) {
      var m :| m in rows && Valued(rows, d, m) && rows[m].finishLt.None?;
      assert m in order;
      var k := Newest(rows, order, d, |order|);
      NewestIsGreatest(rows, order, d, k, m);
      var n :| n in rows && Opens(rows, d, n) && lt > Threshold(kind, rows[n]);
      assert Shadowed(rows, order, d, k);
    }
  }

  /** The selection finds no shadowed deposit. */
  predicate Clear(s: State, step: Step) {
    step.Select? ==> forall d :: d in step.found ==> Unshadowed(s.db.internal, s.order, d)
  }

  lemma SelectKeepsBase(s: State, kind: WalletType, found: map<Address, nat>)
    requires BaseInv(s) && Enabled(s, Select(kind, found))
    ensures BaseInv(After(s, Select(kind, found)))
  {
    forall d | d in found ensures TaskAbove(s.db.internal, d, found[d]) {
      SelectedIsAbove(s.db, s.order, kind, d, found[d]);
    }
  }

  lemma SelectKeepsFree(s: State, kind: WalletType, found: map<Address, nat>)
    requires Inv(s) && Enabled(s, Select(kind, found)) && Clear(s, Select(kind, found))
    ensures TasksFree(s.db.internal, s.tasks + found)
  {
    forall d | d in found ensures Free(s.db.internal, d) { SelectedIsFree(s.db, s.order, kind, d, found[d]); }
  }

  lemma SaveKeepsListed(rows: map<Uuid, IntRow>, order: seq<Uuid>, memo: Uuid, row: IntRow)
    requires Listed(rows, order) && memo !in rows
    ensures Listed(rows[memo := row], order + [memo])
  {
    forall m | m in rows[memo := row] ensures m in order + [memo] {
      if m != memo { assert m in order; }
    }
  }

  lemma SaveKeepsGrowing(rows: map<Uuid, IntRow>, order: seq<Uuid>, memo: Uuid, row: IntRow)
    requires Listed(rows, order) && Growing(rows, order) && memo !in rows
    requires TaskAbove(rows, row.deposit, row.sinceLt)
    ensures Listed(rows[memo := row], order + [memo]) && Growing(rows[memo := row], order + [memo])
  {
    var rows', order' := rows[memo := row], order + [memo];
    SaveKeepsListed(rows, order, memo, row);
    forall j, k | 0 <= j < k < |order'| ensures Grows(rows', order'[j], order'[k]) {
      if k < |order| {
        assert Grows(rows, order[j], order[k]);
      } else {
        OldRow(rows, order, memo, row, j);
      }
    }
  }

  /** A row before the new one, seen from the new row's deposit. */
  lemma OldRow(rows: map<Uuid, IntRow>, order: seq<Uuid>, memo: Uuid, row: IntRow, j: nat)
    requires Listed(rows, order) && memo !in rows && j < |order|
    ensures rows[memo := row][order[j]] == rows[order[j]]
    ensures rows[order[j]].deposit == row.deposit && !rows[order[j]].failed ==> Valued(rows, row.deposit, order[j])
  {
  }

  lemma SaveKeepsDone(rows: map<Uuid, IntRow>, order: seq<Uuid>, memo: Uuid, row: IntRow)
    requires Listed(rows, order) && EarlierDone(rows, order) && memo !in rows
    requires Listed(rows[memo := row], order + [memo]) && Free(rows, row.deposit)
    ensures EarlierDone(rows[memo := row], order + [memo])
  {
    var rows', order' := rows[memo := row], order + [memo];
    forall j, k | 0 <= j < k < |order'| ensures Done(rows', order'[j], order'[k]) {
      if k < |order| {
        assert Done(rows, order[j], order[k]);
      } else {
        OldRow(rows, order, memo, row, j);
      }
    }
  }

  lemma SaveKeepsTasks(rows: map<Uuid, IntRow>, memo: Uuid, row: IntRow, d: Address, lt: nat)
    requires memo !in rows && d != row.deposit
    ensures TaskAbove(rows, d, lt) ==> TaskAbove(rows[memo := row], d, lt)
    ensures Free(rows, d) ==> Free(rows[memo := row], d)
  {
    forall m | m in rows[memo := row] && Valued(rows[memo := row], d, m) ensures Valued(rows, d, m) {}
  }

  lemma SaveKeepsBase(s: State, d: Address, memo: Uuid, expiredAt: int)
    requires BaseInv(s) && Enabled(s, SaveTask(d, memo, expiredAt))
    ensures BaseInv(After(s, SaveTask(d, memo, expiredAt)))
  {
    var row := IntRow(d, s.tasks[d], None, None, expiredAt, 0, false);
    SaveKeepsGrowing(s.db.internal, s.order, memo, row);
    forall e | e in s.tasks && e != d ensures TaskAbove(s.db.internal[memo := row], e, s.tasks[e]) {
      SaveKeepsTasks(s.db.internal, memo, row, e, s.tasks[e]);
    }
  }

  lemma SaveKeepsFree(s: State, d: Address, memo: Uuid, expiredAt: int)
    requires Inv(s) && Enabled(s, SaveTask(d, memo, expiredAt))
    ensures Inv(After(s, SaveTask(d, memo, expiredAt)))
  {
    var row := IntRow(d, s.tasks[d], None, None, expiredAt, 0, false);
    SaveKeepsBase(s, d, memo, expiredAt);
    SaveKeepsDone(s.db.internal, s.order, memo, row);
    forall e | e in s.tasks && e != d ensures Free(s.db.internal[memo := row], e) {
      SaveKeepsTasks(s.db.internal, memo, row, e, s.tasks[e]);
    }
  }

  /** Every step keeps the base invariant, and whether it fails a finished withdrawal decides the rule. */
  lemma StepKeepsBase(s: State, step: Step)
    requires BaseInv(s) && Enabled(s, step)
    ensures BaseInv(After(s, step))
    ensures FailedUnfinished(After(s, step).db.internal) <==> FailedUnfinished(s.db.internal) && !StrikeStep(s, step)
  {
    match step
    case Select(kind, found) => SelectKeepsBase(s, kind, found);
    case SaveTask(d, memo, expiredAt) =>
      SaveKeepsBase(s, d, memo, expiredAt);
      SaveDecides(s.db.internal, memo, IntRow(d, s.tasks[d], None, None, expiredAt, 0, false));
    case Statement(e) =>
      StatementMovesForward(s.db, e);
      ForwardGrows(s.db.internal, Applied(s.db, e).internal, s.order, s.tasks);
      ForwardDecides(s.db.internal, Applied(s.db, e).internal);
      if Strikes(s.db, e) { WithdrawalMovesForward(s.db, e.internal); }
    case Expire(bound) =>
      ExpiryMovesForward(s.db, bound);
      ForwardGrows(s.db.internal, ExpireInternal(s.db, bound).internal, s.order, s.tasks);
      ForwardDecides(s.db.internal, ExpireInternal(s.db, bound).internal);
    case _ =>
  }

  /** A step that selects no shadowed deposit keeps the whole invariant. */
  lemma StepKeepsInv(s: State, step: Step)
    requires Inv(s) && Enabled(s, step) && Clear(s, step)
    ensures Inv(After(s, step))
  {
    StepKeepsBase(s, step);
    match step
    case Select(kind, found) => SelectKeepsFree(s, kind, found);
    case SaveTask(d, memo, expiredAt) => SaveKeepsFree(s, d, memo, expiredAt);
    case Statement(e) =>
      StatementMovesForward(s.db, e);
      ForwardDone(s.db.internal, Applied(s.db, e).internal, s.order, s.tasks);
    case Expire(bound) =>
      ExpiryMovesForward(s.db, bound);
      ForwardDone(s.db.internal, ExpireInternal(s.db, bound).internal, s.order, s.tasks);
    case _ =>
  }

  lemma SaveDecides(rows: map<Uuid, IntRow>, memo: Uuid, row: IntRow)
    requires memo !in rows && !row.failed
    ensures FailedUnfinished(rows[memo := row]) <==> FailedUnfinished(rows)
  {
    forall m | m in rows ensures rows[memo := row][m] == rows[m] {}
  }

  lemma ForwardDecides(rows: map<Uuid, IntRow>, rows': map<Uuid, IntRow>)
    requires Forward(rows, rows')
    ensures FailedUnfinished(rows') ==> FailedUnfinished(rows)
  {
  }

  // ---------------------------------------------------------------- runs

  predicate StrikeStep(s: State, step: Step) { step.Statement? && Strikes(s.db, step.event) }

  /** No event of the run fails a finished withdrawal. */
  predicate Unstruck(s: State, steps: seq<Step>)
    requires ValidRun(s, steps)
    decreases steps
  {
    steps == [] || (!StrikeStep(s, steps[0]) && Unstruck(After(s, steps[0]), steps[1..]))
  }

  /** No selection of the run finds a shadowed deposit. */
  predicate ClearRun(s: State, steps: seq<Step>)
    requires ValidRun(s, steps)
    decreases steps
  {
    steps == [] || (Clear(s, steps[0]) && ClearRun(After(s, steps[0]), steps[1..]))
  }

  lemma {:induction false} RunKeepsInv(s: State, steps: seq<Step>)
    requires Inv(s) && ValidRun(s, steps) && ClearRun(s, steps)
    ensures Inv(RunFrom(s, steps))
    decreases steps
  {
    if steps != [] {
      StepKeepsInv(s, steps[0]);
      RunKeepsInv(After(s, steps[0]), steps[1..]);
    }
  }

  lemma {:induction false} RunDecides(s: State, steps: seq<Step>)
    requires BaseInv(s) && ValidRun(s, steps)
    ensures BaseInv(RunFrom(s, steps))
    ensures FailedUnfinished(RunFrom(s, steps).db.internal) <==> FailedUnfinished(s.db.internal) && Unstruck(s, steps)
    decreases steps
  {
    if steps != [] {
      StepKeepsBase(s, steps[0]);
      RunDecides(After(s, steps[0]), steps[1..]);
    }
  }

  lemma UnstruckIsUnshadowed(rows: map<Uuid, IntRow>, order: seq<Uuid>, d: Address)
    requires Listed(rows, order) && Growing(rows, order) && FailedUnfinished(rows)
    ensures Unshadowed(rows, order, d)
  {
    forall k: nat | k < |order| && NewestOf(rows, order, d, k) ensures !Shadowed(rows, order, d, k) {
      DerivedRows(rows, order, d, k);
    }
  }

  /** A run without such an event selects no shadowed deposit. */
  lemma {:induction false} UnstruckIsClear(s: State, steps: seq<Step>)
    requires BaseInv(s) && FailedUnfinished(s.db.internal) && ValidRun(s, steps) && Unstruck(s, steps)
    ensures ClearRun(s, steps)
    decreases steps
  {
    if steps != [] {
      forall d ensures Unshadowed(s.db.internal, s.order, d) { UnstruckIsUnshadowed(s.db.internal, s.order, d); }
      StepKeepsBase(s, steps[0]);
      UnstruckIsClear(After(s, steps[0]), steps[1..]);
    }
  }

  /** In every run: no failed withdrawal is finished if and only if no event failed a finished one. */
  lemma FailedUnfinishedIff(kinds: map<Address, WalletType>, steps: seq<Step>)
    requires ValidRun(Init(kinds), steps)
    ensures FailedUnfinished(RunFrom(Init(kinds), steps).db.internal) <==> Unstruck(Init(kinds), steps)
  {
    RunDecides(Init(kinds), steps);
  }

  /** In every reachable state, struck or not: the nested joins select what is due, whatever the incomes, if and only
      if the join means the rule on its table. */
  lemma SelectionIsTheRule(s: State, kind: WalletType, d: Address)
    requires Reachable(s)
    ensures (forall incomes, lt :: Agrees(s.db, s.order, kind, d, incomes, lt))
       <==> JoinMeansRule(s.db.internal, s.order, kind, d)
  {
    var kinds, steps :| ValidRun(Init(kinds), steps) && RunFrom(Init(kinds), steps) == s;
    RunDecides(Init(kinds), steps);
    SelectionIsTheRuleIff(s.db, s.order, kind, d);
  }

  /** And after a run in which no event failed a finished withdrawal it does, for every deposit. */
  lemma UnstruckSelection(kinds: map<Address, WalletType>, steps: seq<Step>, kind: WalletType, d: Address, lt: nat)
    requires ValidRun(Init(kinds), steps) && Unstruck(Init(kinds), steps)
    ensures var s := RunFrom(Init(kinds), steps);
      Selected(s.db, kind, d, lt) <==> Due(s.db, s.order, kind, d, lt)
  {
    var s := RunFrom(Init(kinds), steps);
    UnstruckInv(kinds, steps);
    UnstruckMeansRule(s.db.internal, s.order, kind, d);
    RuleSelects(s.db, s.order, kind, d, lt);
  }

  lemma UnstruckInv(kinds: map<Address, WalletType>, steps: seq<Step>)
    requires ValidRun(Init(kinds), steps) && Unstruck(Init(kinds), steps)
    ensures ClearRun(Init(kinds), steps)
    ensures Inv(RunFrom(Init(kinds), steps)) && FailedUnfinished(RunFrom(Init(kinds), steps).db.internal)
  {
    UnstruckIsClear(Init(kinds), steps);
    RunKeepsInv(Init(kinds), steps);
    RunDecides(Init(kinds), steps);
  }

  // ---------------------------------------------------------------- one withdrawal on its way

  predicate OnItsWay(rows: map<Uuid, IntRow>, d: Address, m: Uuid) {
    Valued(rows, d, m) && rows[m].finishLt.None?
  }

  predicate TwoOnTheirWay(rows: map<Uuid, IntRow>, d: Address) {
    exists m :: m in rows && OnItsWay(rows, d, m) && exists n :: n in rows && OnItsWay(rows, d, n) && n != m
  }

  /** In every run that selects no shadowed deposit, and so in every run without an event that fails a finished
      withdrawal, a deposit never has two withdrawals on their way. */
  lemma OneOnItsWay(kinds: map<Address, WalletType>, steps: seq<Step>, d: Address)
    requires ValidRun(Init(kinds), steps) && ClearRun(Init(kinds), steps)
    ensures !TwoOnTheirWay(RunFrom(Init(kinds), steps).db.internal, d)
  {
    RunKeepsInv(Init(kinds), steps);
    InvMeansOne(RunFrom(Init(kinds), steps), d);
  }

  lemma InvMeansOne(s: State, d: Address)
    requires Inv(s)
    ensures !TwoOnTheirWay(s.db.internal, d)
  {
    if TwoOnTheirWay(s.db.internal, d) {
      var m :| m in s.db.internal && OnItsWay(s.db.internal, d, m)
               && exists n :: n in s.db.internal && OnItsWay(s.db.internal, d, n) && n != m;
      var n :| n in s.db.internal && OnItsWay(s.db.internal, d, n) && n != m;
      NoSecond(s.db.internal, s.order, d, m, n);
    }
  }

  lemma NoSecond(rows: map<Uuid, IntRow>, order: seq<Uuid>, d: Address, m: Uuid, n: Uuid)
    requires Listed(rows, order) && EarlierDone(rows, order) && OnItsWay(rows, d, m) && OnItsWay(rows, d, n)
    ensures m == n
  {
    assert m in order && n in order;
    var j :| 0 <= j < |order| && order[j] == m;
    var k :| 0 <= k < |order| && order[k] == n;
    if j < k {
      assert false;
    } else if k < j {
      assert false;
    }
  }

  /** In every reachable state, whatever events came, the withdrawals of a deposit that did not fail start ever
      later. */
  lemma SinceGrows(s: State, j: nat, k: nat)
    requires Reachable(s) && j < k < |s.order|
    ensures s.order[j] in s.db.internal && s.order[k] in s.db.internal
    ensures Grows(s.db.internal, s.order[j], s.order[k])
  {
    var kinds, steps :| ValidRun(Init(kinds), steps) && RunFrom(Init(kinds), steps) == s;
    RunDecides(Init(kinds), steps);
  }

  /** And in a run that selects no shadowed deposit, each after the one before it finished. */
  lemma EachAfterTheLast(kinds: map<Address, WalletType>, steps: seq<Step>, j: nat, k: nat)
    requires ValidRun(Init(kinds), steps) && ClearRun(Init(kinds), steps)
    requires j < k < |RunFrom(Init(kinds), steps).order|
    ensures var s := RunFrom(Init(kinds), steps);
      && s.order[j] in s.db.internal && s.order[k] in s.db.internal
      && Done(s.db.internal, s.order[j], s.order[k])
  {
    RunKeepsInv(Init(kinds), steps);
  }

  function IncomeAt(d: Address, lt: nat): Step { Statement(OfExtIncome(Income(d, lt, 0, 0, 0))) }

  function Beyond(lt: nat, kind: WalletType, d: Address, memo: Uuid): seq<Step> {
    [Crash] + ([IncomeAt(d, lt)] + ([Select(kind, map[d := lt])] + ([SaveTask(d, memo, 0)] + [])))
  }

  function Unsent(d: Address, lt: nat): IntRow { IntRow(d, lt, None, None, 0, 0, false) }

  function MoreIncome(t: Tables, d: Address, lt: nat): Tables {
    t.(extIncomes := t.extIncomes + multiset{Income(d, lt, 0, 0, 0)})
  }

  /** A deposit that a new income makes selected gets a new withdrawal. */
  lemma SelectedIsSaved(s: State, kind: WalletType, d: Address, lt: nat, memo: Uuid)
    requires OfKind(s.kinds, kind, d) && memo !in s.db.internal && Selected(MoreIncome(s.db, d, lt), kind, d, lt)
    ensures ValidRun(s, Beyond(lt, kind, d, memo))
    ensures RunFrom(s, Beyond(lt, kind, d, memo)).db.internal == s.db.internal[memo := Unsent(d, lt)]
  {
    var s1 := s.(tasks := map[]);
    var s2 := s1.(db := MoreIncome(s1.db, d, lt));
    var s3 := s2.(tasks := map[d := lt]);
    assert s2.tasks + map[d := lt] == map[d := lt];
    var s4 := s3.(db := s3.db.(internal := s.db.internal[memo := Unsent(d, lt)]), order := s3.order + [memo],
                  tasks := s3.tasks - {d});
    var save := [SaveTask(d, memo, 0)] + [];
    var select := [Select(kind, map[d := lt])] + save;
    var income := [IncomeAt(d, lt)] + select;
    FirstStep(s3, SaveTask(d, memo, 0), s4, []);
    FirstStep(s2, Select(kind, map[d := lt]), s3, save);
    FirstStep(s1, IncomeAt(d, lt), s2, select);
    FirstStep(s, Crash, s1, income);
  }

  /** The four steps: a restart, an income, the selection of the deposit, the new withdrawal. */
  predicate BreaksBy(s: State, kind: WalletType, d: Address, lt: nat, memo: Uuid) {
    && ValidRun(s, Beyond(lt, kind, d, memo))
    && TwoOnTheirWay(RunFrom(s, Beyond(lt, kind, d, memo)).db.internal, d)
  }

  lemma Unroll(s: State, step: Step, rest: seq<Step>)
    requires ValidRun(s, [step] + rest)
    ensures Enabled(s, step) && ValidRun(After(s, step), rest)
    ensures RunFrom(s, [step] + rest) == RunFrom(After(s, step), rest)
    ensures Inv(s) && Clear(s, step) ==> Inv(After(s, step))
  {
    assert ([step] + rest)[1..] == rest;
    if Inv(s) && Clear(s, step) { StepKeepsInv(s, step); }
  }

  /** Where no withdrawal is shadowed these steps are harmless, whatever the income. */
  lemma UnshadowedIsSafe(s: State, kind: WalletType, d: Address, lt: nat, memo: Uuid)
    requires Inv(s) && Unshadowed(s.db.internal, s.order, d) && ValidRun(s, Beyond(lt, kind, d, memo))
    ensures !TwoOnTheirWay(RunFrom(s, Beyond(lt, kind, d, memo)).db.internal, d)
  {
    var save := [SaveTask(d, memo, 0)] + [];
    var select := [Select(kind, map[d := lt])] + save;
    var income := [IncomeAt(d, lt)] + select;
    Unroll(s, Crash, income);
    var s1 := After(s, Crash);
    Unroll(s1, IncomeAt(d, lt), select);
    var s2 := After(s1, IncomeAt(d, lt));
    assert s2.db.internal == s.db.internal && s2.order == s.order;
    Unroll(s2, Select(kind, map[d := lt]), save);
    var s3 := After(s2, Select(kind, map[d := lt]));
    Unroll(s3, SaveTask(d, memo, 0), []);
    InvMeansOne(After(s3, SaveTask(d, memo, 0)), d);
  }

  /** The exact condition: from a state with the invariant some income lets a second withdrawal set out if and only if
      the newest one is shadowed. */
  lemma SecondSetsOutIff(s: State, kind: WalletType, d: Address)
    requires Inv(s) && OfKind(s.kinds, kind, d)
    ensures (exists lt, memo :: BreaksBy(s, kind, d, lt, memo))
       <==> (exists k: nat :: k < |s.order| && Shadowed(s.db.internal, s.order, d, k))
  {
    if k: nat :| k < |s.order| && Shadowed(s.db.internal, s.order, d, k) {
      var lt, memo := ShadowBreaks(s, kind, d, k);
    } else {
      forall lt, memo ensures !BreaksBy(s, kind, d, lt, memo) {
        if BreaksBy(s, kind, d, lt, memo) { UnshadowedIsSafe(s, kind, d, lt, memo); }
      }
    }
  }

  /** From any state of any run where a withdrawal is shadowed, the four steps put two on their way. */
  lemma ShadowBreaks(s: State, kind: WalletType, d: Address, k: nat) returns (lt: nat, memo: Uuid)
    requires BaseInv(s) && OfKind(s.kinds, kind, d) && Shadowed(s.db.internal, s.order, d, k)
    ensures BreaksBy(s, kind, d, lt, memo)
  {
    var rows := s.db.internal;
    var m :| m in rows && Opens(rows, d, m);
    var top := GreatestLt(s.db.extIncomes);
    lt := top + Threshold(kind, rows[m]) + 1;
    memo := FreshMemo(rows);
    OpensForLater(s.db, s.order, kind, d, m, lt);
    SelectedIsSaved(s, kind, d, lt, memo);
    var rows' := rows[memo := Unsent(d, lt)];
    assert OnItsWay(rows', d, memo) && OnItsWay(rows', d, s.order[k]) && s.order[k] != memo;
  }

  lemma OpensForLater(t: Tables, order: seq<Uuid>, kind: WalletType, d: Address, m: Uuid, lt: nat)
    requires Listed(t.internal, order) && m in t.internal && Opens(t.internal, d, m)
    requires lt > Threshold(kind, t.internal[m]) && forall i :: i in t.extIncomes ==> i.lt <= lt
    ensures Selected(MoreIncome(t, d, lt), kind, d, lt)
  {
    var i := Income(d, lt, 0, 0, 0);
    assert OpenFor(t.internal, kind, d, lt);
    PassesWhen(t.internal, order, kind, i);
    assert i in MoreIncome(t, d, lt).extIncomes;
  }

  lemma FirstStep(s: State, step: Step, s': State, rest: seq<Step>)
    requires Enabled(s, step) && After(s, step) == s' && ValidRun(s', rest)
    ensures ValidRun(s, [step] + rest) && RunFrom(s, [step] + rest) == RunFrom(s', rest)
  {
    assert ([step] + rest)[1..] == rest;
  }

  lemma {:induction false} GreatestLt(incomes: multiset<Income>) returns (top: nat)
    ensures forall i :: i in incomes ==> i.lt <= top
    decreases |incomes|
  {
    if incomes == multiset{} {
      top := 0;
    } else {
      var i :| i in incomes;
      top := GreatestLt(incomes - multiset{i});
      forall j | j in incomes ensures j.lt <= top || j.lt <= i.lt { assert j == i || j in incomes - multiset{i}; }
      top := if i.lt > top then i.lt else top;
    }
  }

  lemma FreshMemo(rows: map<Uuid, IntRow>) returns (memo: Uuid)
    ensures memo !in rows
  {
    memo := Above(rows.Keys);
  }

  lemma {:induction false} Above(s: set<nat>) returns (n: nat)
    ensures forall x :: x in s ==> x < n
    decreases s
  {
    if s == {} {
      n := 0;
    } else {
      var x :| x in s;
      n := Above(s - {x});
      forall y | y in s ensures y < n || y == x { assert y == x || y in s - {x}; }
      n := if n <= x then x + 1 else n;
    }
  }

  // ---------------------------------------------------------------- a run in which it happens

  const D: Address := 7

  function Moved(sending: Option<nat>, finish: Option<nat>, amount: int, failed: bool): IntRow {
    IntRow(D, 10, sending, finish, 0, amount, failed)
  }

  const TO_SEND := SendingConfirmation(15, UuidText(1))
  const FINISH := InternalWithdrawal(20, 5, UuidText(1), false)
  const STRIKE := InternalWithdrawal(21, 5, UuidText(1), true)

  const FINISHED := Moved(Some(15), Some(20), 5, false)
  const STRUCK := Moved(Some(15), Some(20), 5, true)

  function At(kind: WalletType, rows: map<Uuid, IntRow>, order: seq<Uuid>, tasks: map<Address, nat>): State {
    State(map[D := kind], EMPTY_TABLES.(internal := rows, extIncomes := Only(D, 10)), order, tasks)
  }

  predicate Leads(s: State, steps: seq<Step>, s': State) { ValidRun(s, steps) && RunFrom(s, steps) == s' }

  lemma {:induction false} Joined(s: State, a: seq<Step>, s': State, b: seq<Step>, s'': State)
    requires Leads(s, a, s') && Leads(s', b, s'')
    ensures Leads(s, a + b, s'')
    decreases a
  {
    if a == [] {
      assert a + b == b;
    } else {
      assert (a + b)[0] == a[0] && (a + b)[1..] == a[1..] + b;
      Joined(After(s, a[0]), a[1..], s', b, s'');
    }
  }

  lemma OneStep(s: State, step: Step)
    requires Enabled(s, step)
    ensures Leads(s, [step], After(s, step))
  {
    assert ValidRun(After(s, step), [step][1..]);
  }

  lemma SelectedAtTen(kind: WalletType, rows: map<Uuid, IntRow>, order: seq<Uuid>)
    requires Listed(rows, order) && forall k :: 0 <= k < |order| ==> !Valued(rows, D, order[k])
    ensures Leads(At(kind, rows, order, map[]), [Select(kind, map[D := 10])], At(kind, rows, order, map[D := 10]))
  {
    var s := At(kind, rows, order, map[]);
    PassesWhen(rows, order, kind, Income(D, 10, 0, 0, 0));
    assert WithIncomes(s.db, Only(D, 10)) == s.db;
    OnlyIncome(s.db, order, kind, D, 10);
    OneStep(s, Select(kind, map[D := 10]));
    assert s.tasks + map[D := 10] == map[D := 10];
  }

  lemma SavedAtTen(kind: WalletType, rows: map<Uuid, IntRow>, order: seq<Uuid>, memo: Uuid)
    requires memo !in rows
    ensures Leads(At(kind, rows, order, map[D := 10]), [SaveTask(D, memo, 0)],
                  At(kind, rows[memo := Unsent(D, 10)], order + [memo], map[]))
  {
    var s := At(kind, rows, order, map[D := 10]);
    OneStep(s, SaveTask(D, memo, 0));
    assert s.tasks - {D} == map[];
  }

  lemma SentAndFinished(kind: WalletType)
    ensures Leads(At(kind, map[1 := Unsent(D, 10)], [1], map[]),
                  [Statement(OfSending(TO_SEND))] + [Statement(OfInternal(FINISH))],
                  At(kind, map[1 := FINISHED], [1], map[]))
  {
    var s0 := At(kind, map[1 := Unsent(D, 10)], [1], map[]);
    var s1 := At(kind, map[1 := Moved(Some(15), None, 0, false)], [1], map[]);
    OneStep(s0, Statement(OfSending(TO_SEND)));
    assert After(s0, Statement(OfSending(TO_SEND))) == s1;
    OneStep(s1, Statement(OfInternal(FINISH)));
    assert After(s1, Statement(OfInternal(FINISH))) == At(kind, map[1 := FINISHED], [1], map[]);
    Joined(s0, [Statement(OfSending(TO_SEND))], s1, [Statement(OfInternal(FINISH))],
           At(kind, map[1 := FINISHED], [1], map[]));
  }

  lemma ThenStruck(kind: WalletType)
    ensures Leads(At(kind, map[1 := FINISHED], [1], map[]), [Statement(OfInternal(STRIKE))],
                  At(kind, map[1 := STRUCK], [1], map[]))
  {
    var s := At(kind, map[1 := FINISHED], [1], map[]);
    OneStep(s, Statement(OfInternal(STRIKE)));
    assert After(s, Statement(OfInternal(STRIKE))) == At(kind, map[1 := STRUCK], [1], map[]);
  }

  function Once(kind: WalletType): seq<Step> {
    [IncomeAt(D, 10)] + [Select(kind, map[D := 10])] + [SaveTask(D, 1, 0)]
    + ([Statement(OfSending(TO_SEND))] + [Statement(OfInternal(FINISH))])
  }

  lemma OnceRuns(kind: WalletType)
    ensures Leads(Init(map[D := kind]), Once(kind), At(kind, map[1 := FINISHED], [1], map[]))
  {
    var s0 := Init(map[D := kind]);
    OneStep(s0, IncomeAt(D, 10));
    assert multiset{} + multiset{Income(D, 10, 0, 0, 0)} == Only(D, 10);
    var s1 := At(kind, map[], [], map[]);
    SelectedAtTen(kind, map[], []);
    Joined(s0, [IncomeAt(D, 10)], s1, [Select(kind, map[D := 10])], At(kind, map[], [], map[D := 10]));
    SavedAtTen(kind, map[], [], 1);
    assert map[][1 := Unsent(D, 10)] == map[1 := Unsent(D, 10)] && [] + [1] == [1];
    Joined(s0, [IncomeAt(D, 10)] + [Select(kind, map[D := 10])], At(kind, map[], [], map[D := 10]),
           [SaveTask(D, 1, 0)], At(kind, map[1 := Unsent(D, 10)], [1], map[]));
    SentAndFinished(kind);
    Joined(s0, [IncomeAt(D, 10)] + [Select(kind, map[D := 10])] + [SaveTask(D, 1, 0)],
           At(kind, map[1 := Unsent(D, 10)], [1], map[]),
           [Statement(OfSending(TO_SEND))] + [Statement(OfInternal(FINISH))], At(kind, map[1 := FINISHED], [1], map[]));
  }

  const TWO_ROWS := map[1 := STRUCK, 2 := Unsent(D, 10)]

  function Again(kind: WalletType): seq<Step> {
    [Statement(OfInternal(STRIKE))] + [Select(kind, map[D := 10])] + [SaveTask(D, 2, 0)]
  }

  lemma AgainRuns(kind: WalletType)
    ensures Leads(At(kind, map[1 := FINISHED], [1], map[]), Again(kind), At(kind, TWO_ROWS, [1, 2], map[]))
  {
    var s := At(kind, map[1 := FINISHED], [1], map[]);
    ThenStruck(kind);
    SelectedAtTen(kind, map[1 := STRUCK], [1]);
    Joined(s, [Statement(OfInternal(STRIKE))], At(kind, map[1 := STRUCK], [1], map[]),
           [Select(kind, map[D := 10])], At(kind, map[1 := STRUCK], [1], map[D := 10]));
    SavedAtTen(kind, map[1 := STRUCK], [1], 2);
    assert map[1 := STRUCK][2 := Unsent(D, 10)] == TWO_ROWS && [1] + [2] == [1, 2];
    Joined(s, [Statement(OfInternal(STRIKE))] + [Select(kind, map[D := 10])],
           At(kind, map[1 := STRUCK], [1], map[D := 10]),
           [SaveTask(D, 2, 0)], At(kind, TWO_ROWS, [1, 2], map[]));
  }

  /** Right after the strike the join still means the rule: only a later withdrawal at the same lt makes it part. */
  lemma StruckAlone(kind: WalletType)
    ensures !FailedUnfinished(map[1 := STRUCK]) && JoinMeansRule(map[1 := STRUCK], [1], kind, D)
  {
    assert 1 in map[1 := STRUCK];
  }

  lemma TwoRowsShadowed()
    ensures Listed(TWO_ROWS, [1, 2]) && Shadowed(TWO_ROWS, [1, 2], D, 1)
    ensures !FailedUnfinished(TWO_ROWS)
  {
    assert SameDeposit(TWO_ROWS, 2, 1) && SameDeposit(TWO_ROWS, 1, 1);
    assert 1 in TWO_ROWS && 2 in TWO_ROWS;
    assert InDerived(TWO_ROWS, 1);
    assert Opens(TWO_ROWS, D, 1);
  }

  /** For TON and for jettons: a finished withdrawal is failed by a request that carries its memo.  The rule is broken,
      the deposit is withdrawn again at the same lt, the join does not mean the rule any more, and in a continuation
      two withdrawals are on their way. */
  lemma StrikingBreaksIt(kind: WalletType) returns (lt: nat, memo: Uuid)
    ensures Leads(Init(map[D := kind]), Once(kind) + Again(kind), At(kind, TWO_ROWS, [1, 2], map[]))
    ensures !FailedUnfinished(TWO_ROWS) && !JoinMeansRule(TWO_ROWS, [1, 2], kind, D)
    ensures BreaksBy(At(kind, TWO_ROWS, [1, 2], map[]), kind, D, lt, memo)
  {
    OnceRuns(kind);
    AgainRuns(kind);
    Joined(Init(map[D := kind]), Once(kind), At(kind, map[1 := FINISHED], [1], map[]), Again(kind),
           At(kind, TWO_ROWS, [1, 2], map[]));
    TwoRowsShadowed();
    RunDecides(Init(map[D := kind]), Once(kind) + Again(kind));
    lt, memo := ShadowBreaks(At(kind, TWO_ROWS, [1, 2], map[]), kind, D, 1);
  }
}
