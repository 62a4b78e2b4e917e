/** The Postgres ledger: its tables as values, each statement as a function on
    them, and the connection object whose methods change them in place. */
module Ledger {
  import opened Types

  datatype DbError = BadUuid | NoRows | ExpirationProcessorMisbehaved | InvalidEventOrder | UniqueViolation

  datatype Result<+T> = Ok(value: T) | Err(error: DbError) {
    predicate IsFailure() { Err? }
    function PropagateFailure<U>(): Result<U>
      requires Err?
    {
      Err(error)
    }
    function Extract(): T
      requires Ok?
    {
      value
    }
  }

  datatype Request = Request(
    userId: string, userQueryId: string, dest: Address, currency: string, amount: int, bounceable: bool,
    comment: Text, binaryComment: string, isInternal: bool, processing: bool, processed: bool)

  datatype ExtKey = ExtKey(uuid: Uuid, address: Address)

  datatype ExtRow = ExtRow(
    queryId: QueryId, expiredAt: int, processedLt: Option<nat>, confirmed: bool, failed: bool,
    txHash: Option<Hash>)

  datatype IntRow = IntRow(
    deposit: Address, sinceLt: nat, sendingLt: Option<nat>, finishLt: Option<nat>, expiredAt: int,
    amount: int, failed: bool)

  datatype Income = Income(deposit: Address, lt: nat, utime: int, amount: int, txHash: Hash)

  datatype IncomeKey = IncomeKey(memo: Uuid, lt: nat)

  datatype BlockRow = BlockRow(shard: nat, seqno: nat, genUtime: int)

  /** External incomes have no key, so the table is a multiset; blocks are kept in insertion order. */
  datatype Tables = Tables(
    requests: map<QueryId, Request>,
    nextId: QueryId,
    external: map<ExtKey, ExtRow>,
    internal: map<Uuid, IntRow>,
    extIncomes: multiset<Income>,
    intIncomes: map<IncomeKey, Income>,
    blocks: seq<BlockRow>)

  const EMPTY_TABLES := Tables(map[], 1, map[], map[], multiset{}, map[], [])

  // ---------------------------------------------------------------- block events

  datatype InternalIncome = InternalIncome(income: Income, memo: Text)
  datatype SendingConfirmation = SendingConfirmation(lt: nat, memo: Text)
  datatype InternalWithdrawal = InternalWithdrawal(lt: nat, amount: int, memo: Text, isFailed: bool)
  datatype ExternalWithdrawal = ExternalWithdrawal(uuid: Uuid, to: Address, lt: nat, isFailed: bool, txHash: Hash)

  datatype DbEvent =
    | OfExtIncome(extIncome: Income)
    | OfIntIncome(intIncome: InternalIncome)
    | OfSending(sending: SendingConfirmation)
    | OfInternal(internal: InternalWithdrawal)
    | OfExternal(external: ExternalWithdrawal)
    | OfConfirmation(queryId: QueryId)

  datatype Events = Events(
    extIncomes: seq<Income>,
    intIncomes: seq<InternalIncome>,
    sendings: seq<SendingConfirmation>,
    internals: seq<InternalWithdrawal>,
    externals: seq<ExternalWithdrawal>,
    confirmations: seq<QueryId>)
  {
    function Append(e: Events): Events {
      Events(extIncomes + e.extIncomes, intIncomes + e.intIncomes, sendings + e.sendings,
             internals + e.internals, externals + e.externals, confirmations + e.confirmations)
    }

    /** The statements of one block in the order the commit applies them: by kind, whatever wallet they come from. */
    function Ops(): seq<DbEvent> {
      ExtIncomeOps(extIncomes) + IntIncomeOps(intIncomes) + SendingOps(sendings)
      + InternalOps(internals) + ExternalOps(externals) + ConfirmationOps(confirmations)
    }
  }

  const NO_EVENTS := Events([], [], [], [], [], [])

  function ExtIncomeOps(s: seq<Income>): seq<DbEvent> { seq(|s|, i requires 0 <= i < |s| => OfExtIncome(s[i])) }
  function IntIncomeOps(s: seq<InternalIncome>): seq<DbEvent> { seq(|s|, i requires 0 <= i < |s| => OfIntIncome(s[i])) }
  function SendingOps(s: seq<SendingConfirmation>): seq<DbEvent> {
    seq(|s|, i requires 0 <= i < |s| => OfSending(s[i]))
  }
  function InternalOps(s: seq<InternalWithdrawal>): seq<DbEvent> {
    seq(|s|, i requires 0 <= i < |s| => OfInternal(s[i]))
  }
  function ExternalOps(s: seq<ExternalWithdrawal>): seq<DbEvent> {
    seq(|s|, i requires 0 <= i < |s| => OfExternal(s[i]))
  }
  function ConfirmationOps(s: seq<QueryId>): seq<DbEvent> { seq(|s|, i requires 0 <= i < |s| => OfConfirmation(s[i])) }

  // ---------------------------------------------------------------- statements

  function SaveInternalIncome(t: Tables, i: InternalIncome): Result<Tables> {
    match ParseUuid(i.memo)
    case None => Err(BadUuid)
    case Some(memo) =>
      var key := IncomeKey(memo, i.income.lt);
      if key in t.intIncomes then Err(UniqueViolation)
      else Ok(t.(intIncomes := t.intIncomes[key := i.income]))
  }

  function ConfirmSending(t: Tables, s: SendingConfirmation): Result<Tables> {
    match ParseUuid(s.memo)
    case None => Err(BadUuid)
    case Some(memo) =>
      if memo !in t.internal then Err(NoRows)
      else if t.internal[memo].failed then Err(ExpirationProcessorMisbehaved)
      else Ok(t.(internal := t.internal[memo := t.internal[memo].(sendingLt := Some(s.lt))]))
  }

  /** A missing row scans as not failed and without a sending lt, so it is an event-order error. */
  function UpdateInternal(t: Tables, w: InternalWithdrawal): Result<Tables> {
    match ParseUuid(w.memo)
    case None => Err(BadUuid)
    case Some(memo) =>
      if memo !in t.internal then Err(InvalidEventOrder)
      else
        var row := t.internal[memo];
        if row.failed then Err(ExpirationProcessorMisbehaved)
        else if row.sendingLt.None? then Err(InvalidEventOrder)
        else if w.isFailed then Ok(t.(internal := t.internal[memo := row.(failed := true)]))
        else Ok(t.(internal := t.internal[memo := row.(finishLt := Some(w.lt), amount := row.amount + w.amount)]))
  }

  /** UPDATE withdrawal_requests SET processed = true WHERE query_id = q. */
  function MarkProcessed(requests: map<QueryId, Request>, q: QueryId): map<QueryId, Request> {
    if q in requests then requests[q := requests[q].(processed := true)] else requests
  }

  function UpdateExternal(t: Tables, w: ExternalWithdrawal): Result<Tables> {
    var key := ExtKey(w.uuid, w.to);
    if key !in t.external then Err(NoRows)
    else
      var row := t.external[key];
      if row.failed then Err(ExpirationProcessorMisbehaved)
      else
        var row' := if w.isFailed then row.(failed := true, txHash := Some(w.txHash))
                    else row.(processedLt := Some(w.lt), txHash := Some(w.txHash));
        Ok(t.(external := t.external[key := row'], requests := MarkProcessed(t.requests, row.queryId)))
  }

  function ConfirmWithdrawal(t: Tables, q: QueryId): Tables {
    t.(external := map k | k in t.external ::
         if t.external[k].queryId == q && t.external[k].processedLt.Some?
         then t.external[k].(confirmed := true) else t.external[k])
  }

  function SaveBlock(t: Tables, b: BlockRow): Result<Tables> {
    if exists i :: 0 <= i < |t.blocks| && t.blocks[i].shard == b.shard && t.blocks[i].seqno == b.seqno
    then Err(UniqueViolation)
    else Ok(t.(blocks := t.blocks + [b]))
  }

  function Apply(t: Tables, e: DbEvent): Result<Tables> {
    match e
    case OfExtIncome(i) => Ok(t.(extIncomes := t.extIncomes + multiset{i}))
    case OfIntIncome(i) => SaveInternalIncome(t, i)
    case OfSending(s) => ConfirmSending(t, s)
    case OfInternal(w) => UpdateInternal(t, w)
    case OfExternal(w) => UpdateExternal(t, w)
    case OfConfirmation(q) => Ok(ConfirmWithdrawal(t, q))
  }

  function ApplyAll(t: Tables, es: seq<DbEvent>): Result<Tables>
    decreases es
  {
    if es == [] then Ok(t)
    else
      var t' :- Apply(t, es[0]);
      ApplyAll(t', es[1..])
  }

  lemma {:induction false} ApplyAllConcat(t: Tables, a: seq<DbEvent>, b: seq<DbEvent>)
    ensures ApplyAll(t, a + b) == (var r := ApplyAll(t, a); if r.Ok? then ApplyAll(r.value, b) else r)
    decreases a
  {
    if a == [] {
      assert a + b == b;
    } else {
      assert (a + b)[0] == a[0] && (a + b)[1..] == a[1..] + b;
      var r := Apply(t, a[0]);
      if r.Ok? { ApplyAllConcat(r.value, a[1..], b); }
    }
  }

  /** What committing one parsed block does to the tables: everything or nothing. */
  function Commit(t: Tables, e: Events, b: BlockRow): Result<Tables> {
    var t' :- ApplyAll(t, e.Ops());
    SaveBlock(t', b)
  }

  /** The six kinds of statements one after the other. */
  lemma ApplyAllInOrder(t: Tables, e: Events)
    ensures ApplyAll(t, e.Ops()) ==
      (var t1 :- ApplyAll(t, ExtIncomeOps(e.extIncomes));
       var t2 :- ApplyAll(t1, IntIncomeOps(e.intIncomes));
       var t3 :- ApplyAll(t2, SendingOps(e.sendings));
       var t4 :- ApplyAll(t3, InternalOps(e.internals));
       var t5 :- ApplyAll(t4, ExternalOps(e.externals));
       ApplyAll(t5, ConfirmationOps(e.confirmations)))
  {
    var a := ExtIncomeOps(e.extIncomes);
    var b := a + IntIncomeOps(e.intIncomes);
    var c := b + SendingOps(e.sendings);
    var d := c + InternalOps(e.internals);
    var f := d + ExternalOps(e.externals);
    ApplyAllConcat(t, f, ConfirmationOps(e.confirmations));
    ApplyAllConcat(t, d, ExternalOps(e.externals));
    ApplyAllConcat(t, c, InternalOps(e.internals));
    ApplyAllConcat(t, b, SendingOps(e.sendings));
    ApplyAllConcat(t, a, IntIncomeOps(e.intIncomes));
  }

  /** The row of block_data with the greatest seqno; among equal ones the first saved. */
  function LastBlock(blocks: seq<BlockRow>): Option<BlockRow> {
    if blocks == [] then None
    else
      var rest := LastBlock(blocks[..|blocks| - 1]);
      var b := blocks[|blocks| - 1];
      if rest.Some? && rest.value.seqno >= b.seqno then rest else Some(b)
  }

  lemma {:induction false} LastBlockIsNewest(blocks: seq<BlockRow>)
    ensures LastBlock(blocks).None? <==> blocks == []
    ensures blocks != [] ==> LastBlock(blocks).value in blocks
    ensures forall i :: 0 <= i < |blocks| ==> blocks[i].seqno <= LastBlock(blocks).value.seqno
  {
    if blocks != [] {
      var front := blocks[..|blocks| - 1];
      LastBlockIsNewest(front);
      forall i | 0 <= i < |blocks| ensures blocks[i].seqno <= LastBlock(blocks).value.seqno {
        assert i < |front| ==> front[i] == blocks[i];
      }
    }
  }

  /** Synchronised: the newest saved block was generated less than lag before now. */
  predicate IsActual(blocks: seq<BlockRow>, now: int, lag: int) {
    var last := LastBlock(blocks);
    last.Some? && now - last.value.genUtime < lag
  }

  // ---------------------------------------------------------------- the withdrawal side

  datatype ExternalTask = ExternalTask(
    queryId: QueryId, currency: string, amount: int, dest: Address, bounceable: bool, comment: Text,
    binaryComment: string)

  /** The task is for what the request asks for. */
  predicate Asks(r: Request, t: ExternalTask) {
    && t.currency == r.currency && t.amount == r.amount && t.dest == r.dest && t.bounceable == r.bounceable
    && t.comment == r.comment && t.binaryComment == r.binaryComment
  }

  predicate DistinctDests(tasks: seq<ExternalTask>) {
    forall i, j :: 0 <= i < j < |tasks| ==> tasks[i].dest != tasks[j].dest
  }

  predicate IsPending(requests: map<QueryId, Request>, q: QueryId) { q in requests && !requests[q].processing }

  /** The oldest request to its destination that is not being processed. */
  predicate FirstPending(requests: map<QueryId, Request>, q: QueryId) {
    && IsPending(requests, q)
    && forall p :: p in requests && IsPending(requests, p) && requests[p].dest == requests[q].dest ==> q <= p
  }

  function PendingDests(requests: map<QueryId, Request>): set<Address> {
    set q | q in requests && IsPending(requests, q) :: requests[q].dest
  }

  function InsertBatchRow(t: Tables, uuid: Uuid, expiredAt: int, task: ExternalTask): Result<Tables> {
    var key := ExtKey(uuid, task.dest);
    if key in t.external then Err(UniqueViolation)
    else
      var requests := if task.queryId in t.requests
                      then t.requests[task.queryId := t.requests[task.queryId].(processing := true)]
                      else t.requests;
      Ok(t.(external := t.external[key := ExtRow(task.queryId, expiredAt, None, false, false, None)],
            requests := requests))
  }

  function CreateExternal(t: Tables, tasks: seq<ExternalTask>, uuid: Uuid, expiredAt: int): Result<Tables>
    decreases tasks
  {
    if tasks == [] then Ok(t)
    else
      var t' :- InsertBatchRow(t, uuid, expiredAt, tasks[0]);
      CreateExternal(t', tasks[1..], uuid, expiredAt)
  }

  function SaveInternalTask(t: Tables, memo: Uuid, deposit: Address, sinceLt: nat, expiredAt: int): Result<Tables> {
    if memo in t.internal then Err(UniqueViolation)
    else Ok(t.(internal := t.internal[memo := IntRow(deposit, sinceLt, None, None, expiredAt, 0, false)]))
  }

  predicate SameRequestKey(a: Request, b: Request) {
    a.userId == b.userId && a.userQueryId == b.userQueryId && a.isInternal == b.isInternal
  }

  function SaveRequest(t: Tables, r: Request): Result<Tables> {
    if exists q :: q in t.requests && SameRequestKey(t.requests[q], r) then Err(UniqueViolation)
    else Ok(t.(requests := t.requests[t.nextId := r.(processing := false, processed := false)],
               nextId := t.nextId + 1))
  }

  predicate InternalExpires(r: IntRow, bound: int) {
    r.expiredAt < bound && r.sendingLt.None? && !r.failed
  }

  predicate ExternalExpires(r: ExtRow, bound: int) {
    r.expiredAt < bound && r.processedLt.None? && !r.failed
  }

  /** First transaction of SetExpired; bound is the clock reading minus the allowable lagging. */
  function ExpireInternal(t: Tables, bound: int): Tables {
    t.(internal := map m | m in t.internal ::
         if InternalExpires(t.internal[m], bound) then t.internal[m].(failed := true) else t.internal[m])
  }

  function ExpiringQueries(rows: map<ExtKey, ExtRow>, bound: int): set<QueryId> {
    set k | k in rows && ExternalExpires(rows[k], bound) :: rows[k].queryId
  }

  function ExpiredRows(rows: map<ExtKey, ExtRow>, bound: int): map<ExtKey, ExtRow> {
    map k | k in rows :: if ExternalExpires(rows[k], bound) then rows[k].(failed := true) else rows[k]
  }

  /** The requests of the expired rows wait for a new batch. */
  function ReleasedRequests(requests: map<QueryId, Request>, expiring: set<QueryId>): map<QueryId, Request> {
    map q | q in requests :: if q in expiring then requests[q].(processing := false) else requests[q]
  }

  /** Second transaction of SetExpired. */
  function ExpireExternal(t: Tables, bound: int): Tables {
    t.(external := ExpiredRows(t.external, bound),
       requests := ReleasedRequests(t.requests, ExpiringQueries(t.external, bound)))
  }

  /** An internal request to dest in this currency that is not processed yet. */
  predicate InProgressInternal(requests: map<QueryId, Request>, dest: Address, currency: string) {
    exists q :: q in requests && requests[q].dest == dest && requests[q].currency == currency
                && requests[q].isInternal && !requests[q].processed
  }

  lemma {:induction false} Least(s: set<nat>) returns (x: nat)
    requires s != {}
    ensures x in s && forall y :: y in s ==> x <= y
    decreases s
  {
    x :| x in s;
    var rest := s - {x};
    if rest != {} {
      var z := Least(rest);
      forall y | y in s ensures x <= y || z <= y { assert y == x || y in rest; }
      x := if x <= z then x else z;
    } else {
      forall y | y in s ensures x <= y { assert y == x || y in rest; }
    }
  }

  function DestsOf(tasks: seq<ExternalTask>): set<Address> {
    set i | 0 <= i < |tasks| :: tasks[i].dest
  }

  lemma DestsOfAppend(tasks: seq<ExternalTask>, t: ExternalTask)
    ensures DestsOf(tasks + [t]) == DestsOf(tasks) + {t.dest}
  {
    var all := tasks + [t];
    assert all[|tasks|] == t;
    assert forall i :: 0 <= i < |tasks| ==> all[i] == tasks[i];
  }

  predicate TasksOf(requests: map<QueryId, Request>, tasks: seq<ExternalTask>) {
    forall i :: 0 <= i < |tasks| ==>
      FirstPending(requests, tasks[i].queryId) && Asks(requests[tasks[i].queryId], tasks[i])
  }

  predicate AscendingDests(tasks: seq<ExternalTask>) {
    forall i, j :: 0 <= i < j < |tasks| ==> tasks[i].dest < tasks[j].dest
  }

  /** Nothing smaller was left behind. */
  predicate AllBelow(tasks: seq<ExternalTask>, left: set<Address>) {
    forall i, d :: 0 <= i < |tasks| && d in left ==> tasks[i].dest < d
  }

  /** Column by column: each task is the oldest request to its destination that is not being processed. */
  predicate Oldest(requests: map<QueryId, Request>, tasks: seq<ExternalTask>) {
    forall i :: 0 <= i < |tasks| ==>
      && tasks[i].queryId in requests && !requests[tasks[i].queryId].processing
      && (forall q :: q in requests && !requests[q].processing && requests[q].dest == tasks[i].dest ==>
            tasks[i].queryId <= q)
      && var r := requests[tasks[i].queryId];
         && tasks[i].currency == r.currency && tasks[i].amount == r.amount && tasks[i].dest == r.dest
         && tasks[i].bounceable == r.bounceable && tasks[i].comment == r.comment
         && tasks[i].binaryComment == r.binaryComment
  }

  /** Every request that is not being processed has a task to its destination, or stands behind a full selection. */
  predicate NoneSkipped(requests: map<QueryId, Request>, tasks: seq<ExternalTask>, limit: nat) {
    forall q :: q in requests && !requests[q].processing ==>
      || (exists i :: 0 <= i < |tasks| && tasks[i].dest == requests[q].dest)
      || (|tasks| == limit && forall i :: 0 <= i < |tasks| ==> tasks[i].dest < requests[q].dest)
  }

  lemma SelectionSays(requests: map<QueryId, Request>, tasks: seq<ExternalTask>, left: set<Address>, limit: nat)
    requires TasksOf(requests, tasks) && AllBelow(tasks, left) && left + DestsOf(tasks) == PendingDests(requests)
    requires left != {} ==> |tasks| == limit
    ensures Oldest(requests, tasks) && NoneSkipped(requests, tasks, limit)
  {
    forall i | 0 <= i < |tasks|
      ensures FirstPending(requests, tasks[i].queryId) && Asks(requests[tasks[i].queryId], tasks[i])
    {
    }
    forall q | q in requests && !requests[q].processing
      ensures requests[q].dest in DestsOf(tasks) || requests[q].dest in left
    {
      assert IsPending(requests, q) && requests[q].dest in PendingDests(requests);
    }
  }

  // ---------------------------------------------------------------- what a user is told

  datatype Status =
    | NotFound
    | Pending
    | Processing
    | Processed(txHash: Option<Hash>)
    | FailedOnChain(txHash: Option<Hash>)
    | NoDecisiveRow
    | BadStatus

  /** The chain decided this row; old rows have a processed lt and no hash. */
  predicate Decisive(row: ExtRow) { row.txHash.Some? || row.processedLt.Some? }

  predicate DecidesQuery(rows: map<ExtKey, ExtRow>, k: ExtKey, q: QueryId) {
    k in rows && rows[k].queryId == q && Decisive(rows[k])
  }

  /** What any decisive row of the request says. */
  ghost predicate SaysDecided(rows: map<ExtKey, ExtRow>, q: QueryId, st: Status) {
    exists k :: DecidesQuery(rows, k, q)
                && st == if rows[k].failed then FailedOnChain(rows[k].txHash) else Processed(rows[k].txHash)
  }

  // ---------------------------------------------------------------- totals

  /** SUM(amount) over the requests with an id below n in one currency that have these two flags. */
  function Total(requests: map<QueryId, Request>, n: QueryId, currency: string, processing: bool,
                 processed: bool): int {
    if n == 0 then 0
    else
      var q := n - 1;
      Total(requests, q, currency, processing, processed)
      + if q in requests && requests[q].currency == currency
           && requests[q].processing == processing && requests[q].processed == processed
        then requests[q].amount else 0
  }

  /** The amounts of these requests among the ids below n. */
  function AmountOf(requests: map<QueryId, Request>, ids: set<QueryId>, n: QueryId): int {
    if n == 0 then 0
    else AmountOf(requests, ids, n - 1) + if n - 1 in ids && n - 1 in requests then requests[n - 1].amount else 0
  }

  /** The requests taken into a batch and not decided yet. */
  function InProcess(requests: map<QueryId, Request>, currency: string): set<QueryId> {
    set q | q in requests && requests[q].currency == currency && requests[q].processing && !requests[q].processed
  }

  /** The requests that no batch has taken yet. */
  function Waiting(requests: map<QueryId, Request>, currency: string): set<QueryId> {
    set q | q in requests && requests[q].currency == currency && !requests[q].processing && !requests[q].processed
  }

  lemma {:induction false} TotalIsTheSum(requests: map<QueryId, Request>, ids: set<QueryId>, n: QueryId,
                                         currency: string, processing: bool, processed: bool)
    requires forall q :: q in requests ==>
      (q in ids <==> && requests[q].currency == currency
                     && requests[q].processing == processing && requests[q].processed == processed)
    ensures Total(requests, n, currency, processing, processed) == AmountOf(requests, ids, n)
  {
    if n > 0 { TotalIsTheSum(requests, ids, n - 1, currency, processing, processed); }
  }

  // ---------------------------------------------------------------- the connection

  class Connection {
    var requests: map<QueryId, Request>
    var nextId: QueryId
    var external: map<ExtKey, ExtRow>
    var internal: map<Uuid, IntRow>
    var extIncomes: multiset<Income>
    var intIncomes: map<IncomeKey, Income>
    var blocks: seq<BlockRow>

    function View(): Tables
      reads this
    {
      Tables(requests, nextId, external, internal, extIncomes, intIncomes, blocks)
    }

    constructor ()
      ensures View() == EMPTY_TABLES
    {
      requests, nextId, external, internal := map[], 1, map[], map[];
      extIncomes, intIncomes, blocks := multiset{}, map[], [];
    }

    method Rollback(t: Tables)
      modifies this
      ensures View() == t
    {
      requests, nextId, external, internal := t.requests, t.nextId, t.external, t.internal;
      extIncomes, intIncomes, blocks := t.extIncomes, t.intIncomes, t.blocks;
    }

    method SaveWithdrawalRequest(r: Request) returns (id: QueryId, err: Option<DbError>)
      modifies this
      ensures match SaveRequest(old(View()), r)
              case Ok(t) => err == None && View() == t && id == old(nextId)
              case Err(e) => err == Some(e) && View() == old(View())
    {
      id, err := nextId, None;
      if exists q :: q in requests && SameRequestKey(requests[q], r) {
        err := Some(UniqueViolation);
      } else {
        requests := requests[id := r.(processing := false, processed := false)];
        nextId := nextId + 1;
      }
    }

    method CreateExternalWithdrawals(tasks: seq<ExternalTask>, uuid: Uuid, expiredAt: int)
      returns (err: Option<DbError>)
      modifies this
      ensures match CreateExternal(old(View()), tasks, uuid, expiredAt)
              case Ok(t) => err == None && View() == t
              case Err(e) => err == Some(e) && View() == old(View())
    {
      var begin := View();
      err := None;
      for i := 0 to |tasks|
        invariant CreateExternal(begin, tasks, uuid, expiredAt) == CreateExternal(View(), tasks[i..], uuid, expiredAt)
      {
        var task := tasks[i];
        var key := ExtKey(uuid, task.dest);
        if key in external {
          err := Some(UniqueViolation);
          Rollback(begin);
          return;
        }
        external := external[key := ExtRow(task.queryId, expiredAt, None, false, false, None)];
        if task.queryId in requests {
          requests := requests[task.queryId := requests[task.queryId].(processing := true)];
        }
        assert tasks[i..][1..] == tasks[i + 1..];
      }
    }

    method OldestTo(dest: Address) returns (task: ExternalTask)
      requires dest in PendingDests(requests)
      ensures FirstPending(requests, task.queryId) && Asks(requests[task.queryId], task)
      ensures task.dest == dest
    {
      var qs := set q | q in requests && IsPending(requests, q) && requests[q].dest == dest;
      ghost var some :| some in requests && IsPending(requests, some) && requests[some].dest == dest;
      assert some in qs;
      ghost var least := Least(qs);
      var q :| q in qs && forall p :: p in qs ==> q <= p;
      assert forall p :: p in requests && IsPending(requests, p) && requests[p].dest == dest ==> p in qs;
      var r := requests[q];
      task := ExternalTask(q, r.currency, r.amount, r.dest, r.bounceable, r.comment, r.binaryComment);
    }

    /** DISTINCT ON (dest_address) ... ORDER BY dest_address, query_id LIMIT limit. */
    method GetExternalWithdrawalTasks(limit: nat) returns (tasks: seq<ExternalTask>)
      ensures |tasks| <= limit
      ensures AscendingDests(tasks) && TasksOf(requests, tasks)
      ensures Oldest(requests, tasks) && NoneSkipped(requests, tasks, limit)
    {
      tasks := [];
      var left := PendingDests(requests);
      while left != {} && |tasks| < limit
        invariant |tasks| <= limit
        invariant AscendingDests(tasks) && TasksOf(requests, tasks) && AllBelow(tasks, left)
        invariant left !! DestsOf(tasks) && left + DestsOf(tasks) == PendingDests(requests)
        decreases left
      {
        ghost var least := Least(left);
        var d :| d in left && forall e :: e in left ==> d <= e;
        var task := OldestTo(d);
        DestsOfAppend(tasks, task);
        tasks, left := tasks + [task], left - {d};
      }
      assert PendingDests(requests) - DestsOf(tasks) == left;
      SelectionSays(requests, tasks, left, limit);
    }

    method SaveInternalWithdrawalTask(deposit: Address, lt: nat, expiredAt: int, memo: Uuid)
      returns (err: Option<DbError>)
      modifies this`internal
      ensures match SaveInternalTask(old(View()), memo, deposit, lt, expiredAt)
              case Ok(t) => err == None && View() == t
              case Err(e) => err == Some(e) && View() == old(View())
    {
      err := None;
      if memo in internal {
        err := Some(UniqueViolation);
      } else {
        internal := internal[memo := IntRow(deposit, lt, None, None, expiredAt, 0, false)];
      }
    }

    /** Both transactions, with the one clock reading now; lag is the allowable blockchain lagging. */
    method SetExpired(now: int, lag: int)
      modifies this`internal, this`external, this`requests
      ensures View() == ExpireExternal(ExpireInternal(old(View()), now - lag), now - lag)
    {
      internal := ExpireInternal(View(), now - lag).internal;
      var ids := ExpiringQueries(external, now - lag);
      external := ExpiredRows(external, now - lag);
      Release(ids);
    }

    /** One update per returned query id, in whatever order the rows come. */
    method Release(expiring: set<QueryId>)
      modifies this`requests
      ensures requests == ReleasedRequests(old(requests), expiring)
    {
      var ids := expiring;
      while ids != {}
        invariant ids <= expiring
        invariant requests == ReleasedRequests(old(requests), expiring - ids)
        decreases ids
      {
        var id :| id in ids;
        assert expiring - (ids - {id}) == (expiring - ids) + {id};
        if id in requests {
          requests := requests[id := requests[id].(processing := false)];
        }
        ids := ids - {id};
        assert requests == ReleasedRequests(old(requests), expiring - ids);
      }
      assert expiring - {} == expiring;
    }

    method ApplySendingConfirmation(s: SendingConfirmation) returns (err: Option<DbError>)
      modifies this`internal
      ensures match ConfirmSending(old(View()), s)
              case Ok(t) => err == None && View() == t
              case Err(e) => err == Some(e)
    {
      var memo := ParseUuid(s.memo);
      if memo.None? { return Some(BadUuid); }
      if memo.value !in internal { return Some(NoRows); }
      var alreadyFailed := internal[memo.value].failed;
      internal := internal[memo.value := internal[memo.value].(sendingLt := Some(s.lt))];
      if alreadyFailed { return Some(ExpirationProcessorMisbehaved); }
      return None;
    }

    method UpdateInternalWithdrawal(w: InternalWithdrawal) returns (err: Option<DbError>)
      modifies this`internal
      ensures match UpdateInternal(old(View()), w)
              case Ok(t) => err == None && View() == t
              case Err(e) => err == Some(e)
    {
      var memo := ParseUuid(w.memo);
      if memo.None? { return Some(BadUuid); }
      var alreadyFailed, sendingLt := false, None;
      if memo.value in internal {
        alreadyFailed, sendingLt := internal[memo.value].failed, internal[memo.value].sendingLt;
      }
      if alreadyFailed { return Some(ExpirationProcessorMisbehaved); }
      if sendingLt.None? { return Some(InvalidEventOrder); }
      var row := internal[memo.value];
      if w.isFailed {
        internal := internal[memo.value := row.(failed := true)];
      } else {
        internal := internal[memo.value := row.(finishLt := Some(w.lt), amount := row.amount + w.amount)];
      }
      return None;
    }

    method UpdateExternalWithdrawal(w: ExternalWithdrawal) returns (err: Option<DbError>)
      modifies this`external, this`requests
      ensures match UpdateExternal(old(View()), w)
              case Ok(t) => err == None && View() == t
              case Err(e) => err == Some(e)
    {
      var key := ExtKey(w.uuid, w.to);
      var alreadyFailed := key in external && external[key].failed;
      if alreadyFailed { return Some(ExpirationProcessorMisbehaved); }
      if key !in external { return Some(NoRows); }
      var row := external[key];
      if w.isFailed {
        external := external[key := row.(failed := true, txHash := Some(w.txHash))];
      } else {
        external := external[key := row.(processedLt := Some(w.lt), txHash := Some(w.txHash))];
      }
      requests := MarkProcessed(requests, row.queryId);
      return None;
    }

    method ApplyJettonWithdrawalConfirmation(q: QueryId)
      modifies this`external
      ensures View() == ConfirmWithdrawal(old(View()), q)
    {
      external := map k | k in external ::
        if external[k].queryId == q && external[k].processedLt.Some?
        then external[k].(confirmed := true) else external[k];
    }

    method SaveInternalIncomeRow(i: InternalIncome) returns (err: Option<DbError>)
      modifies this`intIncomes
      ensures match SaveInternalIncome(old(View()), i)
              case Ok(t) => err == None && View() == t
              case Err(e) => err == Some(e)
    {
      var memo := ParseUuid(i.memo);
      if memo.None? { return Some(BadUuid); }
      var key := IncomeKey(memo.value, i.income.lt);
      if key in intIncomes { return Some(UniqueViolation); }
      intIncomes := intIncomes[key := i.income];
      return None;
    }

    method SaveExternalIncomes(s: seq<Income>) returns (err: Option<DbError>)
      modifies this`extIncomes
      ensures match ApplyAll(old(View()), ExtIncomeOps(s))
              case Ok(t) => err == None && View() == t
              case Err(e) => err == Some(e)
    {
      ghost var begin, ops := View(), ExtIncomeOps(s);
      for i := 0 to |s|
        invariant ApplyAll(begin, ops) == ApplyAll(View(), ops[i..])
      {
        assert ops[i..][0] == OfExtIncome(s[i]) && ops[i..][1..] == ops[i + 1..];
        extIncomes := extIncomes + multiset{s[i]};
      }
      return None;
    }

    method SaveInternalIncomes(s: seq<InternalIncome>) returns (err: Option<DbError>)
      modifies this`intIncomes
      ensures match ApplyAll(old(View()), IntIncomeOps(s))
              case Ok(t) => err == None && View() == t
              case Err(e) => err == Some(e)
    {
      ghost var begin, ops := View(), IntIncomeOps(s);
      for i := 0 to |s|
        invariant ApplyAll(begin, ops) == ApplyAll(View(), ops[i..])
      {
        assert ops[i..][0] == OfIntIncome(s[i]) && ops[i..][1..] == ops[i + 1..];
        err := SaveInternalIncomeRow(s[i]);
        if err.Some? { return; }
      }
      return None;
    }

    method ApplySendingConfirmations(s: seq<SendingConfirmation>) returns (err: Option<DbError>)
      modifies this`internal
      ensures match ApplyAll(old(View()), SendingOps(s))
              case Ok(t) => err == None && View() == t
              case Err(e) => err == Some(e)
    {
      ghost var begin, ops := View(), SendingOps(s);
      for i := 0 to |s|
        invariant ApplyAll(begin, ops) == ApplyAll(View(), ops[i..])
      {
        assert ops[i..][0] == OfSending(s[i]) && ops[i..][1..] == ops[i + 1..];
        err := ApplySendingConfirmation(s[i]);
        if err.Some? { return; }
      }
      return None;
    }

    method UpdateInternalWithdrawals(s: seq<InternalWithdrawal>) returns (err: Option<DbError>)
      modifies this`internal
      ensures match ApplyAll(old(View()), InternalOps(s))
              case Ok(t) => err == None && View() == t
              case Err(e) => err == Some(e)
    {
      ghost var begin, ops := View(), InternalOps(s);
      for i := 0 to |s|
        invariant ApplyAll(begin, ops) == ApplyAll(View(), ops[i..])
      {
        assert ops[i..][0] == OfInternal(s[i]) && ops[i..][1..] == ops[i + 1..];
        err := UpdateInternalWithdrawal(s[i]);
        if err.Some? { return; }
      }
      return None;
    }

    method UpdateExternalWithdrawals(s: seq<ExternalWithdrawal>) returns (err: Option<DbError>)
      modifies this`external, this`requests
      ensures match ApplyAll(old(View()), ExternalOps(s))
              case Ok(t) => err == None && View() == t
              case Err(e) => err == Some(e)
    {
      ghost var begin, ops := View(), ExternalOps(s);
      for i := 0 to |s|
        invariant ApplyAll(begin, ops) == ApplyAll(View(), ops[i..])
      {
        assert ops[i..][0] == OfExternal(s[i]) && ops[i..][1..] == ops[i + 1..];
        err := UpdateExternalWithdrawal(s[i]);
        if err.Some? { return; }
      }
      return None;
    }

    method ApplyJettonWithdrawalConfirmations(s: seq<QueryId>) returns (err: Option<DbError>)
      modifies this`external
      ensures match ApplyAll(old(View()), ConfirmationOps(s))
              case Ok(t) => err == None && View() == t
              case Err(e) => err == Some(e)
    {
      ghost var begin, ops := View(), ConfirmationOps(s);
      for i := 0 to |s|
        invariant ApplyAll(begin, ops) == ApplyAll(View(), ops[i..])
      {
        assert ops[i..][0] == OfConfirmation(s[i]) && ops[i..][1..] == ops[i + 1..];
        ApplyJettonWithdrawalConfirmation(s[i]);
      }
      return None;
    }

    /** One transaction: on any error nothing of the block is kept. */
    method SaveParsedBlockData(e: Events, b: BlockRow) returns (err: Option<DbError>)
      modifies this
      ensures match Commit(old(View()), e, b)
              case Ok(t) => err == None && View() == t
              case Err(x) => err == Some(x) && View() == old(View())
    {
      var begin := View();
      ApplyAllInOrder(begin, e);
      err := SaveExternalIncomes(e.extIncomes);
      if err.None? { err := SaveInternalIncomes(e.intIncomes); }
      if err.None? { err := ApplySendingConfirmations(e.sendings); }
      if err.None? { err := UpdateInternalWithdrawals(e.internals); }
      if err.None? { err := UpdateExternalWithdrawals(e.externals); }
      if err.None? { err := ApplyJettonWithdrawalConfirmations(e.confirmations); }
      if err.Some? { Rollback(begin); return; }
      if exists i :: 0 <= i < |blocks| && blocks[i].shard == b.shard && blocks[i].seqno == b.seqno {
        err := Some(UniqueViolation);
        Rollback(begin);
        return;
      }
      blocks := blocks + [b];
    }

    /** The test of waitSync. */
    method IsActualBlockData(now: int, lag: int) returns (synced: bool)
      ensures synced == IsActual(blocks, now, lag)
      ensures synced <==> LastBlock(blocks).Some? && now - LastBlock(blocks).value.genUtime < lag
    {
      synced := IsActual(blocks, now, lag);
    }

    /** One round of the expiration processor: it polls, at these clock readings, until the saved blocks are recent
        enough or the service stops, and only then expires rows, at a reading of its own. */
    method ExpirationRound(polls: seq<int>, now: int, lag: int) returns (synced: bool)
      modifies this`internal, this`external, this`requests
      ensures synced <==> exists i :: 0 <= i < |polls| && IsActual(old(blocks), polls[i], lag)
      ensures View() == if synced then ExpireExternal(ExpireInternal(old(View()), now - lag), now - lag)
                        else old(View())
    {
      synced := false;
      for i := 0 to |polls|
        invariant !synced && forall j :: 0 <= j < i ==> !IsActual(blocks, polls[j], lag)
        invariant View() == old(View())
      {
        synced := IsActualBlockData(polls[i], lag);
        if synced { break; }
      }
      if synced { SetExpired(now, lag); }
    }

    method IsInProgressInternalWithdrawalRequest(dest: Address, currency: string) returns (r: bool)
      ensures r == InProgressInternal(requests, dest, currency)
    {
      r := InProgressInternal(requests, dest, currency);
    }

    /** The status with the user's own ids, which are empty when there is no answer. */
    method GetExternalWithdrawalStatus(id: QueryId) returns (st: Status, userId: string, userQueryId: string)
      ensures st in {NotFound, NoDecisiveRow, BadStatus} ==> userId == "" && userQueryId == ""
      ensures st !in {NotFound, NoDecisiveRow, BadStatus} ==>
        id in requests && userId == requests[id].userId && userQueryId == requests[id].userQueryId
      ensures st == NotFound <==> id !in requests || requests[id].isInternal
      ensures st != NotFound ==> (st == Pending <==> !requests[id].processing && !requests[id].processed)
      ensures st != NotFound ==> (st == Processing <==> requests[id].processing && !requests[id].processed)
      ensures st != NotFound ==> (st == BadStatus <==> !requests[id].processing && requests[id].processed)
      ensures st == NoDecisiveRow ==> forall k :: !DecidesQuery(external, k, id)
      ensures st.Processed? || st.FailedOnChain? ==> SaysDecided(external, id, st)
    {
      if id !in requests || requests[id].isInternal { return NotFound, "", ""; }
      var r := requests[id];
      if r.processing && r.processed {
        var rows := set k | k in external && DecidesQuery(external, k, id);
        if rows == {} {
          assert forall k :: DecidesQuery(external, k, id) ==> k in rows;
          return NoDecisiveRow, "", "";
        }
        var k :| k in rows;
        st := if external[k].failed then FailedOnChain(external[k].txHash) else Processed(external[k].txHash);
        return st, r.userId, r.userQueryId;
      } else if r.processing && !r.processed {
        return Processing, r.userId, r.userQueryId;
      } else if !r.processing && !r.processed {
        return Pending, r.userId, r.userQueryId;
      }
      return BadStatus, "", "";
    }

    method GetTotalWithdrawalAmounts(currency: string) returns (processing: int, pending: int)
      ensures processing == Total(requests, nextId, currency, true, false)
      ensures pending == Total(requests, nextId, currency, false, false)
      ensures processing == AmountOf(requests, InProcess(requests, currency), nextId)
      ensures pending == AmountOf(requests, Waiting(requests, currency), nextId)
    {
      processing, pending := 0, 0;
      for q := 0 to nextId
        invariant processing == Total(requests, q, currency, true, false)
        invariant pending == Total(requests, q, currency, false, false)
      {
        if q in requests && requests[q].currency == currency && !requests[q].processed {
          if requests[q].processing {
            processing := processing + requests[q].amount;
          } else {
            pending := pending + requests[q].amount;
          }
        }
      }
      TotalIsTheSum(requests, InProcess(requests, currency), nextId, currency, true, false);
      TotalIsTheSum(requests, Waiting(requests, currency), nextId, currency, false, false);
    }
  }
}
