/** The withdrawal protocol as one step system: the ledger, the batch builder, the expiration loop, the
    scanner and a chain that may delay or drop every external message. */
module Protocol {
  import opened Types
  import opened Ledger
  import opened BlockCommit

  /** What an external message of the hot wallet promises: its lifetime and, per destination, the request it pays. */
  datatype Batch = Batch(ttl: int, pays: map<Address, QueryId>)

  /** A jetton withdrawal from a deposit travels in a message of the hot wallet, addressed to the proxy of its owner. */
  datatype Carrier = Carrier(uuid: Uuid, proxy: Address)

  /** The block that ran a message and the destinations its transaction really sent to. */
  datatype Execution = Execution(at: nat, out: set<Address>)

  /** The block in which the deposit wallet handled the transfer, and with what result. */
  datatype Settlement = Settlement(at: nat, ok: bool)

  /** The shard chain from the first block the service saves on; the scanner has committed saved of its blocks.
      executed and settled are the chain's own record: each message runs, and each transfer settles, at most once.
      strays lists, block by block, what the scanner reads from transfer requests that anybody else sent to a jetton
      deposit wallet: the wallet rejects them, and the scanner takes their comment, any text, for a memo. */
  datatype Chain = Chain(
    blocks: seq<BlockRow>, saved: nat, executed: map<Uuid, Execution>, settled: map<Uuid, Settlement>,
    strays: seq<seq<InternalWithdrawal>>)

  /** batches, carriers and tonMemos record what was ever built; sent is what reached the network. */
  datatype State = State(
    lag: int,
    db: Tables,
    chain: Chain,
    batches: map<Uuid, Batch>,
    carriers: map<Uuid, Carrier>,
    tonMemos: set<Uuid>,
    building: Option<Uuid>,
    sent: set<Uuid>)

  function Init(lag: int): State {
    State(lag, EMPTY_TABLES, Chain([], 0, map[], map[], []), map[], map[], {}, None, {})
  }

  datatype Step =
    | Submit(request: Request)
    | CreateBatch(uuid: Uuid, ttl: int, tasks: seq<ExternalTask>, proxies: map<Uuid, Address>)
    | SaveCarried(memo: Uuid, deposit: Address, sinceLt: nat)
    | Send
    | SaveTonTask(memo: Uuid, deposit: Address, sinceLt: nat, expiredAt: int)
    | Produce(block: BlockRow, runs: map<Uuid, set<Address>>, transfers: map<Uuid, bool>,
              strays: seq<InternalWithdrawal>)
    | CommitBlock(events: Events)
    | ExpireInternals(now: int)
    | ExpireExternals(now: int)
    | Crash

  // ---------------------------------------------------------------- guards

  function PaysOf(tasks: seq<ExternalTask>): map<Address, QueryId> {
    if tasks == [] then map[] else PaysOf(tasks[1..])[tasks[0].dest := tasks[0].queryId]
  }

  /** The message was executed before block n and sent to the proxy. */
  predicate SentBefore(chain: Chain, c: Carrier, n: nat) {
    c.uuid in chain.executed && chain.executed[c.uuid].at < n && c.proxy in chain.executed[c.uuid].out
  }

  predicate SentNow(chain: Chain, c: Carrier) {
    SentBefore(chain, c, chain.saved + 1) && !SentBefore(chain, c, chain.saved)
  }

  predicate SettledNow(chain: Chain, m: Uuid) {
    m in chain.settled && chain.settled[m].at == chain.saved
  }

  predicate RunNow(chain: Chain, u: Uuid) {
    u in chain.executed && chain.executed[u].at == chain.saved
  }

  predicate ReportsKey(ws: seq<ExternalWithdrawal>, k: ExtKey) {
    exists i :: 0 <= i < |ws| && ExtKey(ws[i].uuid, ws[i].to) == k
  }

  predicate ReportsExternals(chain: Chain, batches: map<Uuid, Batch>, ws: seq<ExternalWithdrawal>) {
    && DistinctKeys(ws)
    && (forall i :: 0 <= i < |ws| ==>
          && RunNow(chain, ws[i].uuid)
          && ws[i].uuid in batches && ws[i].to in batches[ws[i].uuid].pays
          && (ws[i].isFailed <==> ws[i].to !in chain.executed[ws[i].uuid].out))
    && (forall u, a :: u in batches && a in batches[u].pays && RunNow(chain, u) ==> ReportsKey(ws, ExtKey(u, a)))
  }

  predicate ReportsSendings(
    chain: Chain, carriers: map<Uuid, Carrier>, tonMemos: set<Uuid>, ss: seq<SendingConfirmation>)
  {
    && (forall i :: 0 <= i < |ss| ==>
          && ss[i].memo.UuidText?
          && (ss[i].memo.uuid in tonMemos
              || (ss[i].memo.uuid in carriers && SentNow(chain, carriers[ss[i].memo.uuid]))))
    && (forall m :: m in carriers && SentNow(chain, carriers[m]) ==> HasSending(ss, m))
  }

  predicate SomeInternal(ws: seq<InternalWithdrawal>, m: Uuid, failed: bool) {
    exists i :: 0 <= i < |ws| && ws[i].memo == UuidText(m) && ws[i].isFailed == failed
  }

  /** A transfer that settles in the block is reported with its result; a sweep of a TON deposit reports its sending
      and its finish together. */
  predicate Own(chain: Chain, tonMemos: set<Uuid>, ss: seq<SendingConfirmation>, w: InternalWithdrawal) {
    && w.memo.UuidText?
    && if w.memo.uuid in tonMemos then !w.isFailed && HasSending(ss, w.memo.uuid)
       else SettledNow(chain, w.memo.uuid) && w.isFailed == !chain.settled[w.memo.uuid].ok
  }

  /** The service's own withdrawals and everybody's stray requests, in whatever order the wallets are visited. */
  predicate ReportsInternals(
    chain: Chain, tonMemos: set<Uuid>, ss: seq<SendingConfirmation>, strays: seq<InternalWithdrawal>,
    ws: seq<InternalWithdrawal>)
  {
    && (forall i :: 0 <= i < |ws| ==> Own(chain, tonMemos, ss, ws[i]) || ws[i] in strays)
    && (forall w :: w in strays ==> w in ws)
    && (forall m :: m in chain.settled && SettledNow(chain, m) ==> SomeInternal(ws, m, !chain.settled[m].ok))
    && (strays == [] ==> NoneAfterFailure(ws))
  }

  /** No memo is reported as failed and then again. */
  predicate NoneAfterFailure(ws: seq<InternalWithdrawal>) {
    forall i, j :: 0 <= i < j < |ws| && ws[i].memo == ws[j].memo ==> !ws[i].isFailed
  }

  function IncomeKeyOf(e: InternalIncome): IncomeKey
    requires e.memo.UuidText?
  {
    IncomeKey(e.memo.uuid, e.income.lt)
  }

  /** Internal incomes carry memos, and no two of them have the same memo and logical time. */
  predicate FreshIncomes(saved: map<IncomeKey, Income>, es: seq<InternalIncome>) {
    && (forall i :: 0 <= i < |es| ==> es[i].memo.UuidText? && IncomeKeyOf(es[i]) !in saved)
    && (forall i, j :: 0 <= i < j < |es| ==> IncomeKeyOf(es[i]) != IncomeKeyOf(es[j]))
  }

  /** What the scanner reports for the next unsaved block, in any order. */
  predicate Scanned(s: State, e: Events)
    requires s.chain.saved < |s.chain.strays|
  {
    && ReportsExternals(s.chain, s.batches, e.externals)
    && ReportsSendings(s.chain, s.carriers, s.tonMemos, e.sendings)
    && ReportsInternals(s.chain, s.tonMemos, e.sendings, s.chain.strays[s.chain.saved], e.internals)
    && FreshIncomes(s.db.intIncomes, e.intIncomes)
  }

  /** The selection of pending requests: each exists, asks for this payment and is not being processed. */
  predicate PendingTasks(requests: map<QueryId, Request>, tasks: seq<ExternalTask>) {
    forall i :: 0 <= i < |tasks| ==>
      && tasks[i].queryId in requests
      && Asks(requests[tasks[i].queryId], tasks[i])
      && !requests[tasks[i].queryId].processing
  }

  predicate EnabledBatch(s: State, uuid: Uuid, tasks: seq<ExternalTask>, proxies: map<Uuid, Address>) {
    && s.building.None? && s.chain.saved > 0
    && uuid !in s.batches
    && DistinctDests(tasks)
    && PendingTasks(s.db.requests, tasks)
    && (forall m :: m in proxies ==> m !in s.carriers && m !in s.db.internal)
  }

  predicate Follows(blocks: seq<BlockRow>, b: BlockRow) {
    blocks != [] ==> blocks[|blocks| - 1].genUtime <= b.genUtime && blocks[|blocks| - 1].seqno < b.seqno
  }

  predicate AllFailed(strays: seq<InternalWithdrawal>) { forall i :: 0 <= i < |strays| ==> strays[i].isFailed }

  predicate EnabledBlock(s: State, b: BlockRow, runs: map<Uuid, set<Address>>, transfers: map<Uuid, bool>,
                         strays: seq<InternalWithdrawal>) {
    && Follows(s.chain.blocks, b) && AllFailed(strays)
    && (forall u :: u in runs ==>
          u in s.sent && u !in s.chain.executed && u in s.batches && b.genUtime <= s.batches[u].ttl)
    && (forall m :: m in transfers ==>
          && m !in s.chain.settled && m in s.carriers
          && SentBefore(WithBlock(s.chain, b, runs, transfers, strays), s.carriers[m], |s.chain.blocks| + 1))
  }

  predicate Enabled(s: State, step: Step) {
    match step
    case Submit(r) => r.isInternal ==> !InProgressInternal(s.db.requests, r.dest, r.currency)
    case CreateBatch(uuid, ttl, tasks, proxies) => EnabledBatch(s, uuid, tasks, proxies)
    case SaveCarried(m, _, _) =>
      m in s.carriers && s.building == Some(s.carriers[m].uuid) && s.carriers[m].uuid in s.batches
      && m !in s.db.internal
    case Send =>
      s.building.Some? && forall m :: m in s.carriers && s.carriers[m].uuid == s.building.value ==> m in s.db.internal
    case SaveTonTask(m, _, _, _) => m !in s.carriers && m !in s.db.internal
    case Produce(b, runs, transfers, strays) => EnabledBlock(s, b, runs, transfers, strays)
    case CommitBlock(e) => s.chain.saved < |s.chain.blocks| && s.chain.saved < |s.chain.strays| && Scanned(s, e)
    case ExpireInternals(now) => IsActual(s.db.blocks, now, s.lag)
    case ExpireExternals(now) => IsActual(s.db.blocks, now, s.lag)
    case Crash => true
  }

  // ---------------------------------------------------------------- effects

  /** The reading of the service clock less the allowable lagging. */
  function Bound(now: int, lag: int): int { now - lag }

  function OrSame(r: Result<Tables>, t: Tables): Tables {
    if r.Ok? then r.value else t
  }

  function NewCarriers(uuid: Uuid, proxies: map<Uuid, Address>): map<Uuid, Carrier> {
    map m | m in proxies :: Carrier(uuid, proxies[m])
  }

  function WithBatch(s: State, uuid: Uuid, ttl: int, tasks: seq<ExternalTask>, proxies: map<Uuid, Address>): State {
    s.(db := OrSame(CreateExternal(s.db, tasks, uuid, ttl), s.db),
       batches := s.batches[uuid := Batch(ttl, PaysOf(tasks))],
       carriers := s.carriers + NewCarriers(uuid, proxies),
       building := Some(uuid))
  }

  function Executions(at: nat, runs: map<Uuid, set<Address>>): map<Uuid, Execution> {
    if runs == map[] then map[] else map u | u in runs :: Execution(at, runs[u])
  }

  function Settlements(at: nat, transfers: map<Uuid, bool>): map<Uuid, Settlement> {
    if transfers == map[] then map[] else map m | m in transfers :: Settlement(at, transfers[m])
  }

  function WithBlock(chain: Chain, b: BlockRow, runs: map<Uuid, set<Address>>, transfers: map<Uuid, bool>,
                     strays: seq<InternalWithdrawal>): Chain {
    chain.(blocks := chain.blocks + [b],
           executed := chain.executed + Executions(|chain.blocks|, runs),
           settled := chain.settled + Settlements(|chain.blocks|, transfers),
           strays := chain.strays + [strays])
  }

  /** A rejected block stops the service: nothing is kept and the message being built is lost. */
  function WithCommit(s: State, e: Events): State
    requires s.chain.saved < |s.chain.blocks|
  {
    var r := Commit(s.db, e, s.chain.blocks[s.chain.saved]);
    if r.Ok? then s.(db := r.value, chain := s.chain.(saved := s.chain.saved + 1)) else s.(building := None)
  }

  function After(s: State, step: Step): State
    requires Enabled(s, step)
  {
    match step
    case Submit(r) => s.(db := OrSame(SaveRequest(s.db, r), s.db))
    case CreateBatch(uuid, ttl, tasks, proxies) => WithBatch(s, uuid, ttl, tasks, proxies)
    case SaveCarried(m, d, lt) =>
      s.(db := OrSame(SaveInternalTask(s.db, m, d, lt, s.batches[s.carriers[m].uuid].ttl), s.db))
    case Send => s.(sent := s.sent + {s.building.value}, building := None)
    case SaveTonTask(m, d, lt, expiredAt) =>
      s.(db := OrSame(SaveInternalTask(s.db, m, d, lt, expiredAt), s.db), tonMemos := s.tonMemos + {m})
    case Produce(b, runs, transfers, strays) => s.(chain := WithBlock(s.chain, b, runs, transfers, strays))
    case CommitBlock(e) => WithCommit(s, e)
    case ExpireInternals(now) => s.(db := ExpireInternal(s.db, Bound(now, s.lag)))
    case ExpireExternals(now) => s.(db := ExpireExternal(s.db, Bound(now, s.lag)))
    case Crash => s.(building := None)
  }

  predicate ValidRun(s: State, steps: seq<Step>)
    decreases steps
  {
    steps == [] || (Enabled(s, steps[0]) && ValidRun(After(s, steps[0]), steps[1..]))
  }

  function RunFrom(s: State, steps: seq<Step>): State
    requires ValidRun(s, steps)
    decreases steps
  {
    if steps == [] then s else RunFrom(After(s, steps[0]), steps[1..])
  }

  // ---------------------------------------------------------------- invariant

  predicate Ordered(blocks: seq<BlockRow>) {
    forall i, j :: 0 <= i < j < |blocks| ==>
      blocks[i].genUtime <= blocks[j].genUtime && blocks[i].seqno < blocks[j].seqno
  }

  predicate SavedPrefix(rows: seq<BlockRow>, chain: Chain) {
    chain.saved <= |chain.blocks| && rows == chain.blocks[..chain.saved] && Ordered(chain.blocks)
  }

  /** A message runs in a block generated within its lifetime. */
  predicate RunsInTime(chain: Chain, batches: map<Uuid, Batch>, sent: set<Uuid>) {
    && sent <= batches.Keys
    && (forall u :: u in chain.executed ==>
          && u in sent && chain.executed[u].at < |chain.blocks|
          && chain.blocks[chain.executed[u].at].genUtime <= batches[u].ttl)
  }

  /** The lifetime ended before the newest saved block was generated. */
  predicate Expired(chain: Chain, ttl: int) {
    0 < chain.saved <= |chain.blocks| && ttl < chain.blocks[chain.saved - 1].genUtime
  }

  /** The scanner has committed the block that ran the message. */
  predicate Seen(chain: Chain, u: Uuid) {
    u in chain.executed && chain.executed[u].at < chain.saved
  }

  predicate ExtRowOk(k: ExtKey, row: ExtRow, chain: Chain, batches: map<Uuid, Batch>) {
    && k.uuid in batches && k.address in batches[k.uuid].pays
    && row.queryId == batches[k.uuid].pays[k.address]
    && row.expiredAt == batches[k.uuid].ttl
    && (row.confirmed ==> row.processedLt.Some?)
    && if Seen(chain, k.uuid) then
         && row.txHash.Some?
         && (row.failed <==> k.address !in chain.executed[k.uuid].out)
         && (row.processedLt.Some? <==> k.address in chain.executed[k.uuid].out)
       else
         && row.txHash.None? && row.processedLt.None?
         && (row.failed ==> Expired(chain, row.expiredAt))
  }

  predicate ExternalInv(rows: map<ExtKey, ExtRow>, chain: Chain, batches: map<Uuid, Batch>) {
    && (forall k :: k in rows ==> ExtRowOk(k, rows[k], chain, batches))
    && (forall u, a :: u in batches && a in batches[u].pays ==> ExtKey(u, a) in rows)
  }

  /** Not given up: still waiting for the chain, or decided by it. */
  predicate Live(row: ExtRow) { !row.failed || row.txHash.Some? }

  predicate HasLive(rows: map<ExtKey, ExtRow>, q: QueryId) {
    exists k :: k in rows && rows[k].queryId == q && Live(rows[k])
  }

  predicate HasDecisive(rows: map<ExtKey, ExtRow>, q: QueryId) {
    exists k :: k in rows && rows[k].queryId == q && Decisive(rows[k])
  }

  predicate RowsOwned(requests: map<QueryId, Request>, nextId: QueryId, rows: map<ExtKey, ExtRow>) {
    && (forall q :: q in requests ==> q < nextId)
    && (forall k :: k in rows ==> rows[k].queryId in requests && requests[rows[k].queryId].dest == k.address)
  }

  predicate OneLive(rows: map<ExtKey, ExtRow>, k: ExtKey, l: ExtKey)
    requires k in rows && l in rows
  {
    Live(rows[k]) && Live(rows[l]) && rows[k].queryId == rows[l].queryId ==> k == l
  }

  predicate SingleLive(rows: map<ExtKey, ExtRow>) {
    forall k, l :: k in rows && l in rows ==> OneLive(rows, k, l)
  }

  predicate StatusOf(r: Request, q: QueryId, rows: map<ExtKey, ExtRow>) {
    (r.processing <==> HasLive(rows, q)) && (r.processed <==> HasDecisive(rows, q))
  }

  predicate StatusInv(requests: map<QueryId, Request>, rows: map<ExtKey, ExtRow>) {
    forall q :: q in requests ==> StatusOf(requests[q], q, rows)
  }

  /** Unprocessed internal requests to one destination in one currency. */
  predicate SameSweep(a: Request, b: Request) {
    && a.isInternal && !a.processed && b.isInternal && !b.processed
    && a.dest == b.dest && a.currency == b.currency
  }

  predicate ColdWalletInv(requests: map<QueryId, Request>) {
    forall p, q :: p in requests && q in requests && SameSweep(requests[p], requests[q]) ==> p == q
  }

  predicate Failed(chain: Chain, m: Uuid) {
    m in chain.settled && chain.settled[m].at < chain.saved && !chain.settled[m].ok
  }

  predicate Finished(chain: Chain, m: Uuid) {
    m in chain.settled && chain.settled[m].at < chain.saved && chain.settled[m].ok
  }

  function MemosOf(ws: seq<InternalWithdrawal>): set<Uuid> {
    set i | 0 <= i < |ws| && ws[i].memo.UuidText? :: ws[i].memo.uuid
  }

  /** The memos that stray requests of the first n blocks named. */
  function StruckBefore(strays: seq<seq<InternalWithdrawal>>, n: nat): set<Uuid> {
    if n == 0 then {}
    else StruckBefore(strays, n - 1) + if n <= |strays| then MemosOf(strays[n - 1]) else {}
  }

  predicate Struck(chain: Chain, m: Uuid) { m in StruckBefore(chain.strays, chain.saved) }

  predicate StrayInv(chain: Chain, rows: map<Uuid, IntRow>) {
    && |chain.strays| == |chain.blocks|
    && (forall i :: 0 <= i < |chain.strays| ==> AllFailed(chain.strays[i]))
    && StruckBefore(chain.strays, chain.saved) <= rows.Keys
  }

  predicate IntRowOk(m: Uuid, row: IntRow, c: Carrier, ttl: int, chain: Chain) {
    && row.expiredAt == ttl
    && (row.sendingLt.Some? <==> SentBefore(chain, c, chain.saved))
    && (row.finishLt.Some? <==> Finished(chain, m))
    && (Failed(chain, m) ==> row.failed)
    && (Struck(chain, m) ==> row.failed && row.sendingLt.Some?)
    && (row.failed ==> Failed(chain, m) || Struck(chain, m) || (row.sendingLt.None? && Expired(chain, ttl)))
  }

  predicate CarrierInv(rows: map<Uuid, IntRow>, chain: Chain, batches: map<Uuid, Batch>, carriers: map<Uuid, Carrier>) {
    && (forall m :: m in carriers ==> carriers[m].uuid in batches)
    && (forall m :: m in rows && m in carriers ==>
          IntRowOk(m, rows[m], carriers[m], batches[carriers[m].uuid].ttl, chain))
  }

  /** A message is sent only when the rows of all memos it carries are saved. */
  predicate MemoInv(rows: map<Uuid, IntRow>, carriers: map<Uuid, Carrier>, tonMemos: set<Uuid>, sent: set<Uuid>) {
    && (forall m :: m in carriers && carriers[m].uuid in sent ==> m in rows)
    && tonMemos !! carriers.Keys
    && tonMemos <= rows.Keys
  }

  predicate SettlementInv(chain: Chain, carriers: map<Uuid, Carrier>) {
    forall m :: m in chain.settled ==>
      m in carriers && chain.settled[m].at < |chain.blocks|
      && SentBefore(chain, carriers[m], chain.settled[m].at + 1)
  }

  predicate Inv(s: State) {
    && SavedPrefix(s.db.blocks, s.chain)
    && RunsInTime(s.chain, s.batches, s.sent)
    && (s.building.Some? ==> s.building.value in s.batches)
    && ExternalInv(s.db.external, s.chain, s.batches)
    && RowsOwned(s.db.requests, s.db.nextId, s.db.external)
    && SingleLive(s.db.external)
    && StatusInv(s.db.requests, s.db.external)
    && ColdWalletInv(s.db.requests)
    && CarrierInv(s.db.internal, s.chain, s.batches, s.carriers)
    && MemoInv(s.db.internal, s.carriers, s.tonMemos, s.sent)
    && SettlementInv(s.chain, s.carriers)
    && StrayInv(s.chain, s.db.internal)
  }
}
