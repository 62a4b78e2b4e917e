/** One batch of the hot wallet: service messages, withdrawals from jetton deposits, payments to users. */
module BatchBuilder {
  import opened Types
  import opened Ledger
  import opened Messages

  datatype ServiceTask = ServiceTask(from: Address, memo: Uuid, jettonMaster: Option<Address>, subwalletId: nat)
  datatype InternalTask = InternalTask(from: Address, lt: nat, subwalletId: nat, currency: string)
  datatype InternalBuilt = InternalBuilt(task: InternalTask, memo: Uuid)

  datatype Withdrawals = Withdrawals(
    messages: seq<Message>, service: seq<ServiceTask>, internal: seq<InternalBuilt>, external: seq<ExternalTask>)

  const NOTHING := Withdrawals([], [], [], [])

  /** What the builder reads besides the database: the chain, address derivation, its wallets and its settings. */
  datatype World = World(
    tonHot: Address,
    jettonHot: map<string, Address>,
    proxy: nat -> Address,
    jettonWallet: (Address, Address) -> Address,
    tonBalance: Address -> int,
    jettonBalance: Address -> int,
    cutoff: string -> int,
    queryId: Uuid -> nat)

  /** What building one service message comes to. */
  datatype ServiceOutcome = Sends(message: Message) | Rejected | Stopped

  function BuildServiceWithdrawalMessage(w: World, book: Book, t: ServiceTask): ServiceOutcome {
    match WalletTypeOf(book, t.from)
    case Some(TonDeposit) => BuildServiceFilling(w, t)
    case Some(JettonOwner) =>
      if t.jettonMaster.None? then BuildServiceTonWithdrawal(w, t) else BuildServiceJettonWithdrawal(w, book, t)
    case _ => Stopped
  }

  /** A filling without a jetton master dereferences nil. */
  function BuildServiceFilling(w: World, t: ServiceTask): ServiceOutcome {
    if t.jettonMaster.None? then Stopped
    else if w.jettonBalance(w.jettonWallet(t.from, t.jettonMaster.value)) == 0 then Rejected
    else Sends(BuildTonFillMessage(t.from, t.memo))
  }

  function BuildServiceTonWithdrawal(w: World, t: ServiceTask): ServiceOutcome {
    if w.tonBalance(w.proxy(t.subwalletId)) == 0 then Rejected
    else Sends(BuildProxyServiceTonMessage(w.proxy(t.subwalletId), w.tonHot, t.memo))
  }

  function BuildServiceJettonWithdrawal(w: World, book: Book, t: ServiceTask): ServiceOutcome
    requires t.jettonMaster.Some?
  {
    var proxy := w.proxy(t.subwalletId);
    var wallet := w.jettonWallet(proxy, t.jettonMaster.value);
    if wallet in book || w.jettonBalance(wallet) == 0 then Rejected
    else Sends(BuildJettonProxyWithdrawalMessage(proxy, wallet, w.tonHot, w.queryId(t.memo), w.jettonBalance(wallet),
                                                 t.memo))
  }

  function InternalMessage(w: World, b: InternalBuilt): Message {
    BuildJettonProxyWithdrawalMessage(w.proxy(b.task.subwalletId), b.task.from, w.tonHot, w.queryId(b.memo),
                                      w.jettonBalance(b.task.from), b.memo)
  }

  /** None where the hot wallet has no jetton wallet for the currency: the builder dereferences nil. */
  function ExternalMessage(w: World, t: ExternalTask): Option<Message> {
    if t.currency == TON_SYMBOL then Some(BuildTonWithdrawalMessage(t))
    else if t.currency in w.jettonHot then Some(BuildJettonWithdrawalMessage(t, w.jettonHot[t.currency]))
    else None
  }

  /** The owner condition of the jetton selection, then LIMIT. */
  function WithoutUsed(w: World, tasks: seq<InternalTask>, used: set<Address>): seq<InternalTask> {
    if tasks == [] then []
    else
      var front, last := tasks[..|tasks| - 1], tasks[|tasks| - 1];
      WithoutUsed(w, front, used) + if w.proxy(last.subwalletId) in used then [] else [last]
  }

  function Limit<T>(xs: seq<T>, n: nat): seq<T> { if |xs| <= n then xs else xs[..n] }

  // ---------------------------------------------------------------- what the database promises the builder

  predicate DistinctSources(ts: seq<ServiceTask>) { forall i, j :: 0 <= i < j < |ts| ==> ts[i].from != ts[j].from }

  predicate DistinctProxies(w: World, ts: seq<InternalTask>) {
    forall i, j :: 0 <= i < j < |ts| ==> w.proxy(ts[i].subwalletId) != w.proxy(ts[j].subwalletId)
  }

  /** The rows agree with the address book: a proxy is derived from the id of its row, and each jetton deposit has an
      owner of its own. */
  predicate RowsMatchBook(w: World, book: Book, services: seq<ServiceTask>, candidates: seq<InternalTask>) {
    && (forall i :: 0 <= i < |services| && WalletTypeOf(book, services[i].from) == Some(JettonOwner) ==>
          w.proxy(services[i].subwalletId) == services[i].from)
    && (forall i :: 0 <= i < |candidates| ==>
          && WalletTypeOf(book, candidates[i].from) == Some(JettonDeposit)
          && WalletTypeOf(book, w.proxy(candidates[i].subwalletId)) == Some(JettonOwner))
  }

  predicate WalletsInBook(w: World, book: Book) {
    && WalletTypeOf(book, w.tonHot) == Some(TonHot)
    && (forall c :: c in w.jettonHot ==> WalletTypeOf(book, w.jettonHot[c]) == Some(JettonHot))
  }

  // ---------------------------------------------------------------- what a batch looks like

  predicate ServicePart(w: World, book: Book, ms: seq<Message>, ts: seq<ServiceTask>) {
    && |ms| == |ts| && DistinctSources(ts)
    && (forall i :: 0 <= i < |ts| ==>
          BuildServiceWithdrawalMessage(w, book, ts[i]) == Sends(ms[i]) && KeyIn(ms[i]) == Some(ts[i].from))
  }

  predicate InternalPart(w: World, book: Book, ms: seq<Message>, bs: seq<InternalBuilt>) {
    && |ms| == |bs|
    && (forall i :: 0 <= i < |bs| ==>
          && ms[i] == InternalMessage(w, bs[i]) && WorthIt(w, bs[i].task)
          && WalletTypeOf(book, bs[i].task.from) == Some(JettonDeposit)
          && WalletTypeOf(book, w.proxy(bs[i].task.subwalletId)) == Some(JettonOwner))
    && (forall i, j :: 0 <= i < j < |bs| ==> w.proxy(bs[i].task.subwalletId) != w.proxy(bs[j].task.subwalletId))
  }

  predicate ExternalPart(w: World, book: Book, ms: seq<Message>, ts: seq<ExternalTask>) {
    && |ms| == |ts| && DistinctDests(ts)
    && (forall i :: 0 <= i < |ts| ==> ExternalMessage(w, ts[i]) == Some(ms[i]) && ts[i].dest !in book)
  }

  /** No internal withdrawal goes through a proxy that a service message already addresses. */
  predicate Apart(w: World, ts: seq<ServiceTask>, bs: seq<InternalBuilt>) {
    forall i, j :: 0 <= i < |ts| && 0 <= j < |bs| ==> ts[i].from != w.proxy(bs[j].task.subwalletId)
  }

  predicate WellBuilt(w: World, book: Book, b: Withdrawals) {
    var s := |b.service|;
    var t := s + |b.internal|;
    && |b.messages| == t + |b.external|
    && ServicePart(w, book, b.messages[..s], b.service)
    && InternalPart(w, book, b.messages[s..t], b.internal)
    && ExternalPart(w, book, b.messages[t..], b.external)
    && Apart(w, b.service, b.internal)
  }

  /** The key of each message. */
  function KeyOf(w: World, b: Withdrawals, i: nat): Address
    requires i < |b.service| + |b.internal| + |b.external|
  {
    var s := |b.service|;
    var t := s + |b.internal|;
    if i < s then b.service[i].from
    else if i < t then w.proxy(b.internal[i - s].task.subwalletId)
    else b.external[i - t].dest
  }

  lemma KeyIsIn(w: World, book: Book, b: Withdrawals, i: nat)
    requires WellBuilt(w, book, b) && i < |b.messages|
    ensures KeyIn(b.messages[i]) == Some(KeyOf(w, b, i))
  {
    var s := |b.service|;
    var t := s + |b.internal|;
    if i < s {
      assert b.messages[..s][i] == b.messages[i];
    } else if i < t {
      assert b.messages[s..t][i - s] == b.messages[i];
    } else {
      assert b.messages[t..][i - t] == b.messages[i];
    }
  }

  lemma KeysDiffer(w: World, book: Book, b: Withdrawals, i: nat, j: nat)
    requires WellBuilt(w, book, b) && i < j < |b.messages|
    ensures KeyOf(w, b, i) != KeyOf(w, b, j)
  {
    var s := |b.service|;
    var t := s + |b.internal|;
    if i < s && j >= t { assert BuildServiceWithdrawalMessage(w, book, b.service[i]).Sends?; }
  }

  /** In every batch the destination keys are pairwise distinct across all three kinds. */
  lemma KeysAreDistinct(w: World, book: Book, b: Withdrawals)
    requires WellBuilt(w, book, b)
    ensures Distinct(KeysIn(b.messages))
    ensures forall i :: 0 <= i < |b.messages| ==> KeyIn(b.messages[i]).Some?
  {
    forall i, j | 0 <= i < j < |b.messages| ensures KeysIn(b.messages)[i] != KeysIn(b.messages)[j] {
      KeyIsIn(w, book, b, i);
      KeyIsIn(w, book, b, j);
      KeysDiffer(w, book, b, i, j);
    }
    forall i | 0 <= i < |b.messages| ensures KeyIn(b.messages[i]).Some? { KeyIsIn(w, book, b, i); }
  }

  // ---------------------------------------------------------------- balances

  /** Nothing is spent twice: what is left, what is attached and one fee per reserved but dropped task make up the
      balance; of a jetton, what is left and what is paid out do. */
  predicate Budget(start: map<string, int>, left: map<string, int>, b: Withdrawals, dropped: nat) {
    && left.Keys == start.Keys && TON_SYMBOL in start
    && left[TON_SYMBOL] + TonSum(b.messages) + TRANSFER_FEE * dropped == start[TON_SYMBOL]
    && (forall c :: c in start && c != TON_SYMBOL ==> left[c] + JettonSum(b.external, c) == start[c])
    && (forall c :: c in start && start[c] >= 0 ==> left[c] >= 0)
  }

  /** The balances read from the chain, spent in place. */
  class HotBalances {
    var left: map<string, int>

    constructor (start: map<string, int>)
      ensures left == start
    {
      left := start;
    }

    /** True when the balance is short; then nothing is spent. */
    method Decrease(currency: string, amount: int) returns (short: bool)
      requires TON_SYMBOL in left && currency in left
      modifies this
      ensures currency == TON_SYMBOL ==>
        && (short <==> old(left)[TON_SYMBOL] < amount)
        && left == if short then old(left) else old(left)[TON_SYMBOL := old(left)[TON_SYMBOL] - amount]
      ensures currency != TON_SYMBOL ==>
        && (short <==> old(left)[currency] < amount || old(left)[TON_SYMBOL] < TRANSFER_FEE)
        && left == if short then old(left)
                   else old(left)[currency := old(left)[currency] - amount]
                                 [TON_SYMBOL := old(left)[TON_SYMBOL] - TRANSFER_FEE]
    {
      if currency == TON_SYMBOL {
        if left[TON_SYMBOL] < amount { return true; }
        left := left[TON_SYMBOL := left[TON_SYMBOL] - amount];
        return false;
      }
      if left[currency] < amount || left[TON_SYMBOL] < TRANSFER_FEE { return true; }
      left := left[currency := left[currency] - amount];
      left := left[TON_SYMBOL := left[TON_SYMBOL] - TRANSFER_FEE];
      return false;
    }
  }

  /** The same currencies, and of each at most as much. */
  predicate NoMore(left: map<string, int>, left': map<string, int>) {
    left'.Keys == left.Keys && forall c :: c in left ==> left'[c] <= left[c]
  }

  predicate CoversFee(left: map<string, int>) { TON_SYMBOL in left && left[TON_SYMBOL] >= TRANSFER_FEE }

  predicate Covers(left: map<string, int>, t: ExternalTask) {
    t.currency in left && left[t.currency] >= t.amount && (t.currency != TON_SYMBOL ==> CoversFee(left))
  }

  // ---------------------------------------------------------------- when a task is taken

  predicate ServiceTaken(w: World, book: Book, taken: seq<ServiceTask>, t: ServiceTask) {
    match BuildServiceWithdrawalMessage(w, book, t)
    case Sends(_) => t in taken
    case Rejected => t !in taken
    case Stopped => false
  }

  /** Of the first n tasks, whatever is not rejected is taken. */
  predicate ServicesTaken(w: World, book: Book, taken: seq<ServiceTask>, tasks: seq<ServiceTask>, n: nat)
    requires n <= |tasks|
  {
    forall i :: 0 <= i < n ==> ServiceTaken(w, book, taken, tasks[i])
  }

  predicate WorthIt(w: World, t: InternalTask) { w.jettonBalance(t.from) > w.cutoff(t.currency) }

  predicate Collected(bs: seq<InternalBuilt>, t: InternalTask) { exists i :: 0 <= i < |bs| && bs[i].task == t }

  /** Of the first n deposits, exactly the ones above the cutoff are collected. */
  predicate InternalsTaken(w: World, bs: seq<InternalBuilt>, tasks: seq<InternalTask>, n: nat)
    requires n <= |tasks|
  {
    forall i :: 0 <= i < n ==> (Collected(bs, tasks[i]) <==> WorthIt(w, tasks[i]))
  }

  function Sources(ts: seq<ServiceTask>): set<Address> { set i | 0 <= i < |ts| :: ts[i].from }

  /** How many of these deposits have a proxy that the batch does not address yet. */
  function Free(w: World, candidates: seq<InternalTask>, used: set<Address>): nat {
    if candidates == [] then 0
    else
      Free(w, candidates[..|candidates| - 1], used)
      + if w.proxy(candidates[|candidates| - 1].subwalletId) in used then 0 else 1
  }

  /** Of the deposits that are due, exactly those are collected that are above the cutoff, whose proxy the batch does
      not address yet, and that fewer than 250 such deposits precede. */
  predicate CandidatesTaken(w: World, bs: seq<InternalBuilt>, candidates: seq<InternalTask>, used: set<Address>) {
    forall i :: 0 <= i < |candidates| ==>
      (Collected(bs, candidates[i]) <==>
        && w.proxy(candidates[i].subwalletId) !in used && Free(w, candidates[..i], used) < 250
        && w.jettonBalance(candidates[i].from) > w.cutoff(candidates[i].currency))
  }

  /** Nobody can be paid here: the balances or the hot wallet do not know the currency. */
  predicate Unpayable(w: World, left: map<string, int>, t: ExternalTask) {
    t.currency !in left || ExternalMessage(w, t).None?
  }

  /** The first n payments to outside addresses are made unless even what is left in the end does not cover them. */
  predicate ExternalsTaken(
    book: Book, left: map<string, int>, taken: seq<ExternalTask>, tasks: seq<ExternalTask>, n: nat)
    requires n <= |tasks|
  {
    forall i :: 0 <= i < n && tasks[i].dest !in book ==>
      tasks[i].currency in left && (Covers(left, tasks[i]) ==> tasks[i] in taken)
  }

  predicate NonNegative(tasks: seq<ExternalTask>) { forall i :: 0 <= i < |tasks| ==> tasks[i].amount >= 0 }

  lemma StillTaken(book: Book, left: map<string, int>, left': map<string, int>, taken: seq<ExternalTask>,
                   taken': seq<ExternalTask>, tasks: seq<ExternalTask>, n: nat)
    requires n <= |tasks| && ExternalsTaken(book, left, taken, tasks, n) && NoMore(left, left') && taken <= taken'
    ensures ExternalsTaken(book, left', taken', tasks, n)
  {
    forall i | 0 <= i < n && tasks[i].dest !in book
      ensures tasks[i].currency in left' && (Covers(left', tasks[i]) ==> tasks[i] in taken')
    {
      assert Covers(left', tasks[i]) ==> Covers(left, tasks[i]);
    }
  }

  /** Nothing that the balances in the end still cover is left out of a batch that is not full. */
  predicate Exhaustive(
    w: World, book: Book, left: map<string, int>, b: Withdrawals, services: seq<ServiceTask>,
    candidates: seq<InternalTask>, externals: seq<ExternalTask>)
  {
    && (CoversFee(left) ==> ServicesTaken(w, book, b.service, services, |services|))
    && (CoversFee(left) && |b.messages| <= 250 ==> CandidatesTaken(w, b.internal, candidates, Sources(b.service)))
    && (|b.messages| <= 250 ==> ExternalsTaken(book, left, b.external, externals, |externals|))
  }

  lemma Reserved(start: map<string, int>, left: map<string, int>, b: Withdrawals, dropped: nat)
    requires Budget(start, left, b, dropped) && left[TON_SYMBOL] >= TRANSFER_FEE
    ensures Budget(start, left[TON_SYMBOL := left[TON_SYMBOL] - TRANSFER_FEE], b, dropped + 1)
  {
  }

  /** A reserved fee that is attached to a message after all. */
  lemma Attached(start: map<string, int>, left: map<string, int>, b: Withdrawals, b': Withdrawals, m: Message,
                 dropped: nat)
    requires Budget(start, left, b, dropped + 1) && m.ton == TRANSFER_FEE
    requires b'.messages == b.messages + [m] && b'.external == b.external
    ensures Budget(start, left, b', dropped)
  {
    TonSumAppend(b.messages, m);
  }

  lemma Paid(start: map<string, int>, left: map<string, int>, left': map<string, int>, b: Withdrawals, b': Withdrawals,
             m: Message, t: ExternalTask, dropped: nat)
    requires Budget(start, left, b, dropped) && t.currency in left
    requires b'.messages == b.messages + [m] && b'.external == b.external + [t]
    requires left' == if t.currency == TON_SYMBOL then left[TON_SYMBOL := left[TON_SYMBOL] - t.amount]
                      else left[t.currency := left[t.currency] - t.amount]
                               [TON_SYMBOL := left[TON_SYMBOL] - TRANSFER_FEE]
    requires m.ton == if t.currency == TON_SYMBOL then t.amount else TRANSFER_FEE
    requires left'[t.currency] >= 0 && left'[TON_SYMBOL] >= 0
    ensures Budget(start, left', b', dropped)
  {
    TonSumAppend(b.messages, m);
    forall c | c in start && c != TON_SYMBOL ensures left'[c] + JettonSum(b'.external, c) == start[c] {
      JettonSumAppend(b.external, t, c);
    }
  }

  // ---------------------------------------------------------------- the builder

  /** Reserves the fee of one message before it is built. */
  method Reserve(balances: HotBalances, ghost start: map<string, int>, ghost b: Withdrawals, ghost dropped: nat)
    returns (short: bool)
    requires Budget(start, balances.left, b, dropped)
    modifies balances
    ensures Budget(start, balances.left, b, if short then dropped else dropped + 1)
    ensures short <==> !CoversFee(old(balances.left))
    ensures NoMore(old(balances.left), balances.left)
  {
    ghost var before := balances.left;
    short := balances.Decrease(TON_SYMBOL, TRANSFER_FEE);
    if !short { Reserved(start, before, b, dropped); }
  }

  lemma ServiceKey(w: World, book: Book, t: ServiceTask, m: Message)
    requires BuildServiceWithdrawalMessage(w, book, t) == Sends(m)
    requires WalletTypeOf(book, t.from) == Some(JettonOwner) ==> w.proxy(t.subwalletId) == t.from
    ensures KeyIn(m) == Some(t.from) && m.ton == TRANSFER_FEE
  {
  }

  lemma ServiceAppend(w: World, book: Book, ms: seq<Message>, ts: seq<ServiceTask>, m: Message, t: ServiceTask)
    requires ServicePart(w, book, ms, ts)
    requires BuildServiceWithdrawalMessage(w, book, t) == Sends(m) && KeyIn(m) == Some(t.from)
    requires forall x :: x in ts ==> x.from != t.from
    ensures ServicePart(w, book, ms + [m], ts + [t])
  {
  }

  predicate AllIn<T(==)>(xs: seq<T>, ys: seq<T>, n: nat)
    requires n <= |ys|
  {
    forall x :: x in xs ==> exists j :: 0 <= j < n && ys[j] == x
  }

  lemma AllInAppend<T>(xs: seq<T>, ys: seq<T>, n: nat)
    requires n < |ys| && AllIn(xs, ys, n)
    ensures AllIn(xs, ys, n + 1) && AllIn(xs + [ys[n]], ys, n + 1)
  {
  }

  lemma {:induction false} ServedMore(w: World, book: Book, taken: seq<ServiceTask>, tasks: seq<ServiceTask>, n: nat)
    requires n < |tasks| && DistinctSources(tasks) && AllIn(taken, tasks, n)
    requires ServicesTaken(w, book, taken, tasks, n) && !BuildServiceWithdrawalMessage(w, book, tasks[n]).Stopped?
    ensures ServicesTaken(w, book, taken + Served(w, book, tasks[n]), tasks, n + 1)
  {
    var taken' := taken + Served(w, book, tasks[n]);
    forall i | 0 <= i <= n ensures ServiceTaken(w, book, taken', tasks[i]) {
      if i < n {
        assert ServiceTaken(w, book, taken, tasks[i]) && tasks[i].from != tasks[n].from;
      } else {
        assert forall j :: 0 <= j < n ==> tasks[j].from != tasks[n].from;
        assert tasks[n] !in taken;
      }
    }
  }

  /** What a task that does not stop the builder adds to the batch. */
  function Served(w: World, book: Book, t: ServiceTask): seq<ServiceTask> {
    if BuildServiceWithdrawalMessage(w, book, t).Sends? then [t] else []
  }

  /** The service part. */
  method AddService(w: World, book: Book, services: seq<ServiceTask>, balances: HotBalances,
                    ghost start: map<string, int>)
    returns (ok: bool, b: Withdrawals, ghost dropped: nat)
    requires DistinctSources(services) && RowsMatchBook(w, book, services, [])
    requires balances.left == start && TON_SYMBOL in start
    modifies balances
    ensures ok ==> Budget(start, balances.left, b, dropped)
    ensures ok ==> ServicePart(w, book, b.messages, b.service) && b.internal == [] && b.external == []
    ensures ok ==> |b.messages| <= |services|
    ensures NoMore(start, balances.left)
    ensures ok && CoversFee(balances.left) ==> ServicesTaken(w, book, b.service, services, |services|)
    ensures !ok ==> exists i :: 0 <= i < |services| && BuildServiceWithdrawalMessage(w, book, services[i]) == Stopped
  {
    b, dropped, ok := NOTHING, 0, true;
    for i := 0 to |services|
      invariant NoMore(start, balances.left)
      invariant CoversFee(balances.left) ==> ServicesTaken(w, book, b.service, services, i)
      invariant Budget(start, balances.left, b, dropped)
      invariant ServicePart(w, book, b.messages, b.service) && b.internal == [] && b.external == []
      invariant |b.messages| <= i && AllIn(b.service, services, i)
    {
      var t := services[i];
      AllInAppend(b.service, services, i);
      var short := Reserve(balances, start, b, dropped);
      if short { continue; }
      ghost var taken := b.service;
      match BuildServiceWithdrawalMessage(w, book, t) {
        case Stopped => return false, b, dropped;
        case Rejected => dropped := dropped + 1;
        case Sends(m) =>
          ServiceKey(w, book, t, m);
          ServiceAppend(w, book, b.messages, b.service, m, t);
          Attached(start, balances.left, b, b.(messages := b.messages + [m], service := b.service + [t]), m, dropped);
          b := b.(messages := b.messages + [m], service := b.service + [t]);
      }
      ServedMore(w, book, taken, services, i);
    }
  }

  lemma InternalAppend(w: World, book: Book, ms: seq<Message>, bs: seq<InternalBuilt>, x: InternalBuilt)
    requires InternalPart(w, book, ms, bs) && WorthIt(w, x.task)
    requires WalletTypeOf(book, x.task.from) == Some(JettonDeposit)
    requires WalletTypeOf(book, w.proxy(x.task.subwalletId)) == Some(JettonOwner)
    requires forall y :: y in bs ==> w.proxy(y.task.subwalletId) != w.proxy(x.task.subwalletId)
    ensures InternalPart(w, book, ms + [InternalMessage(w, x)], bs + [x])
  {
  }

  /** The tasks built so far are among the first n. */
  predicate BuiltFrom(bs: seq<InternalBuilt>, tasks: seq<InternalTask>, n: nat)
    requires n <= |tasks|
  {
    forall x :: x in bs ==> exists j :: 0 <= j < n && tasks[j] == x.task
  }

  lemma NotYetBuilt(w: World, bs: seq<InternalBuilt>, tasks: seq<InternalTask>, n: nat, memo: Uuid)
    requires n < |tasks| && BuiltFrom(bs, tasks, n) && DistinctProxies(w, tasks)
    ensures forall y :: y in bs ==> w.proxy(y.task.subwalletId) != w.proxy(tasks[n].subwalletId)
    ensures BuiltFrom(bs, tasks, n + 1) && BuiltFrom(bs + [InternalBuilt(tasks[n], memo)], tasks, n + 1)
  {
  }

  lemma {:induction false} CollectedMore(w: World, bs: seq<InternalBuilt>, tasks: seq<InternalTask>, n: nat, memo: Uuid)
    requires n < |tasks| && BuiltFrom(bs, tasks, n) && DistinctProxies(w, tasks) && InternalsTaken(w, bs, tasks, n)
    ensures InternalsTaken(w, if WorthIt(w, tasks[n]) then bs + [InternalBuilt(tasks[n], memo)] else bs, tasks, n + 1)
  {
    var x := InternalBuilt(tasks[n], memo);
    forall i | 0 <= i < n ensures Collected(bs + [x], tasks[i]) <==> Collected(bs, tasks[i]) {
      if Collected(bs, tasks[i]) {
        var j :| 0 <= j < |bs| && bs[j].task == tasks[i];
        assert (bs + [x])[j].task == tasks[i];
      }
      assert tasks[i] != tasks[n];
    }
    assert (bs + [x])[|bs|].task == tasks[n];
    forall j | 0 <= j < |bs| ensures bs[j].task != tasks[n] { assert bs[j] in bs; }
  }

  /** One jetton deposit: its fee is reserved first, and lost to this batch when its balance is not worth it. */
  method Collect(w: World, t: InternalTask, memo: Uuid, balances: HotBalances, b0: Withdrawals,
                 ghost start: map<string, int>, ghost dropped0: nat)
    returns (m: Option<Message>, ghost dropped: nat)
    requires Budget(start, balances.left, b0, dropped0)
    modifies balances
    ensures m.None? ==> Budget(start, balances.left, b0, dropped)
    ensures m.Some? ==> m.value == InternalMessage(w, InternalBuilt(t, memo))
    ensures m.Some? ==>
      Budget(start, balances.left,
             b0.(messages := b0.messages + [m.value], internal := b0.internal + [InternalBuilt(t, memo)]), dropped)
    ensures m.Some? <==> CoversFee(old(balances.left)) && WorthIt(w, t)
    ensures NoMore(old(balances.left), balances.left)
  {
    m, dropped := None, dropped0;
    var short := Reserve(balances, start, b0, dropped);
    if short { return; }
    if WorthIt(w, t) {
      var x := InternalBuilt(t, memo);
      m := Some(InternalMessage(w, x));
      Attached(start, balances.left, b0, b0.(messages := b0.messages + [m.value], internal := b0.internal + [x]),
               m.value, dropped);
    } else {
      dropped := dropped + 1;
    }
  }

  /** What the first n deposits have come to. */
  predicate InternalSoFar(w: World, book: Book, ms: seq<Message>, bs: seq<InternalBuilt>, tasks: seq<InternalTask>,
                          n: nat)
    requires n <= |tasks|
  {
    InternalPart(w, book, ms, bs) && BuiltFrom(bs, tasks, n)
  }

  lemma InternalMore(w: World, book: Book, ms: seq<Message>, bs: seq<InternalBuilt>, tasks: seq<InternalTask>, n: nat,
                     memo: Uuid)
    requires n < |tasks| && DistinctProxies(w, tasks) && RowsMatchBook(w, book, [], tasks)
    requires InternalSoFar(w, book, ms, bs, tasks, n)
    ensures InternalSoFar(w, book, ms, bs, tasks, n + 1)
    ensures var x := InternalBuilt(tasks[n], memo);
      WorthIt(w, tasks[n]) ==> InternalSoFar(w, book, ms + [InternalMessage(w, x)], bs + [x], tasks, n + 1)
  {
    NotYetBuilt(w, bs, tasks, n, memo);
    if WorthIt(w, tasks[n]) { InternalAppend(w, book, ms, bs, InternalBuilt(tasks[n], memo)); }
  }

  /** One round of the loop over the jetton deposits. */
  predicate InternalRound(w: World, book: Book, start: map<string, int>, left: map<string, int>, b: Withdrawals,
                          ms: seq<Message>, dropped: nat, tasks: seq<InternalTask>, n: nat)
    requires n <= |tasks|
  {
    && Budget(start, left, b, dropped) && InternalSoFar(w, book, ms, b.internal, tasks, n)
    && (CoversFee(left) ==> InternalsTaken(w, b.internal, tasks, n))
  }

  /** The jetton deposits, while the batch has at most 250 messages. */
  method AddInternal(w: World, book: Book, tasks: seq<InternalTask>, memos: seq<Uuid>, balances: HotBalances,
                     b0: Withdrawals, ghost start: map<string, int>, ghost dropped0: nat)
    returns (b: Withdrawals, ghost ms: seq<Message>, ghost dropped: nat)
    requires DistinctProxies(w, tasks) && RowsMatchBook(w, book, [], tasks) && |tasks| <= |memos|
    requires Budget(start, balances.left, b0, dropped0) && b0.internal == [] && |b0.messages| <= 250
    modifies balances
    ensures Budget(start, balances.left, b, dropped)
    ensures b == b0.(messages := b0.messages + ms, internal := b.internal) && |b.messages| <= 251
    ensures InternalPart(w, book, ms, b.internal)
    ensures BuiltFrom(b.internal, tasks, |tasks|)
    ensures NoMore(old(balances.left), balances.left)
    ensures CoversFee(balances.left) && |b.messages| <= 250 ==> InternalsTaken(w, b.internal, tasks, |tasks|)
  {
    b, ms, dropped := b0, [], dropped0;
    for i := 0 to |tasks|
      invariant InternalRound(w, book, start, balances.left, b, ms, dropped, tasks, i)
      invariant b.messages == b0.messages + ms && |b.messages| <= 251
      invariant b.service == b0.service && b.external == b0.external
      invariant NoMore(old(balances.left), balances.left)
    {
      if |b.messages| > 250 { break; }
      b, ms, dropped := CollectNext(w, book, tasks, i, memos[i], balances, b, b0.messages, ms, start, dropped);
    }
  }

  /** The next deposit of the loop. */
  method CollectNext(w: World, book: Book, tasks: seq<InternalTask>, i: nat, memo: Uuid, balances: HotBalances,
                     b0: Withdrawals, ghost before: seq<Message>, ghost ms0: seq<Message>,
                     ghost start: map<string, int>, ghost dropped0: nat)
    returns (b: Withdrawals, ghost ms: seq<Message>, ghost dropped: nat)
    requires b0.messages == before + ms0
    requires i < |tasks| && DistinctProxies(w, tasks) && RowsMatchBook(w, book, [], tasks)
    requires InternalRound(w, book, start, balances.left, b0, ms0, dropped0, tasks, i)
    modifies balances
    ensures InternalRound(w, book, start, balances.left, b, ms, dropped, tasks, i + 1)
    ensures b.messages == before + ms && |ms| <= |ms0| + 1
    ensures b.service == b0.service && b.external == b0.external
    ensures NoMore(old(balances.left), balances.left)
  {
    b, ms := b0, ms0;
    var m;
    m, dropped := Collect(w, tasks[i], memo, balances, b0, start, dropped0);
    InternalMore(w, book, ms, b.internal, tasks, i, memo);
    if CoversFee(balances.left) { CollectedMore(w, b.internal, tasks, i, memo); }
    if m.Some? {
      b := b.(messages := b.messages + [m.value], internal := b.internal + [InternalBuilt(tasks[i], memo)]);
      ms := ms + [m.value];
    }
  }

  lemma ExternalAppend(w: World, book: Book, ms: seq<Message>, ts: seq<ExternalTask>, m: Message, t: ExternalTask)
    requires ExternalPart(w, book, ms, ts) && ExternalMessage(w, t) == Some(m) && t.dest !in book
    requires forall x :: x in ts ==> x.dest != t.dest
    ensures ExternalPart(w, book, ms + [m], ts + [t])
  {
  }

  /** One payment to a user, when the balances allow it. */
  method Pay(w: World, t: ExternalTask, balances: HotBalances, b0: Withdrawals, ghost start: map<string, int>,
             ghost dropped: nat)
    returns (ok: bool, m: Option<Message>)
    requires Budget(start, balances.left, b0, dropped)
    modifies balances
    ensures ok && m.None? ==> Budget(start, balances.left, b0, dropped)
    ensures ok && m.Some? ==>
      Budget(start, balances.left, b0.(messages := b0.messages + [m.value], external := b0.external + [t]), dropped)
    ensures ok && m.Some? ==> ExternalMessage(w, t) == m
    ensures ok ==> t.currency in balances.left && (m.Some? <==> Covers(old(balances.left), t))
    ensures !ok ==> Unpayable(w, old(balances.left), t)
    ensures t.amount >= 0 ==> NoMore(old(balances.left), balances.left)
    ensures balances.left.Keys == old(balances.left).Keys
  {
    if t.currency !in balances.left { return false, None; }
    ghost var before := balances.left;
    var short := balances.Decrease(t.currency, t.amount);
    if short { return true, None; }
    m := ExternalMessage(w, t);
    if m.None? { return false, None; }
    Paid(start, before, balances.left, b0, b0.(messages := b0.messages + [m.value], external := b0.external + [t]),
         m.value, t, dropped);
    ok := true;
  }

  /** The payments to users, while the batch has at most 250 messages. */
  method AddExternal(w: World, book: Book, tasks: seq<ExternalTask>, balances: HotBalances,
                     b0: Withdrawals, ghost start: map<string, int>, ghost dropped: nat)
    returns (ok: bool, b: Withdrawals, ghost ms: seq<Message>)
    requires DistinctDests(tasks)
    requires Budget(start, balances.left, b0, dropped) && b0.external == [] && |b0.messages| <= 251
    modifies balances
    ensures ok ==> Budget(start, balances.left, b, dropped)
    ensures ok ==> b == b0.(messages := b0.messages + ms, external := b.external) && |b.messages| <= 251
    ensures ok ==> ExternalPart(w, book, ms, b.external)
    ensures ok ==> AllIn(b.external, tasks, |tasks|)
    ensures balances.left.Keys == old(balances.left).Keys
    ensures NonNegative(tasks) ==> NoMore(old(balances.left), balances.left)
    ensures ok && NonNegative(tasks) && |b.messages| <= 250 ==>
      ExternalsTaken(book, balances.left, b.external, tasks, |tasks|)
    ensures !ok ==> exists i :: 0 <= i < |tasks| && tasks[i].dest !in book && Unpayable(w, balances.left, tasks[i])
  {
    b, ms, ok := b0, [], true;
    for i := 0 to |tasks|
      invariant balances.left.Keys == old(balances.left).Keys
      invariant NonNegative(tasks) ==> NoMore(old(balances.left), balances.left)
      invariant ExternalRound(w, book, start, balances.left, b, ms, dropped, tasks, i)
      invariant b.messages == b0.messages + ms && |b.messages| <= 251
      invariant b.service == b0.service && b.internal == b0.internal
    {
      if |b.messages| > 250 { break; }
      ok, b, ms := PayNext(w, book, tasks, i, balances, b, b0.messages, ms, start, dropped);
      if !ok { return; }
    }
  }

  /** One round of the loop over the payments. */
  predicate ExternalRound(w: World, book: Book, start: map<string, int>, left: map<string, int>, b: Withdrawals,
                          ms: seq<Message>, dropped: nat, tasks: seq<ExternalTask>, n: nat)
    requires n <= |tasks|
  {
    && Budget(start, left, b, dropped) && ExternalPart(w, book, ms, b.external) && AllIn(b.external, tasks, n)
    && (NonNegative(tasks) ==> ExternalsTaken(book, left, b.external, tasks, n))
  }

  /** The next payment of the loop. */
  method PayNext(w: World, book: Book, tasks: seq<ExternalTask>, i: nat, balances: HotBalances, b0: Withdrawals,
                 ghost before: seq<Message>, ghost ms0: seq<Message>, ghost start: map<string, int>, ghost dropped: nat)
    returns (ok: bool, b: Withdrawals, ghost ms: seq<Message>)
    requires i < |tasks| && DistinctDests(tasks) && b0.messages == before + ms0
    requires ExternalRound(w, book, start, balances.left, b0, ms0, dropped, tasks, i)
    modifies balances
    ensures ok ==> ExternalRound(w, book, start, balances.left, b, ms, dropped, tasks, i + 1)
    ensures b.messages == before + ms && |ms| <= |ms0| + 1
    ensures b.service == b0.service && b.internal == b0.internal
    ensures balances.left.Keys == old(balances.left).Keys
    ensures NonNegative(tasks) ==> NoMore(old(balances.left), balances.left)
    ensures !ok ==> tasks[i].dest !in book && Unpayable(w, balances.left, tasks[i])
  {
    b, ms, ok := b0, ms0, true;
    var t := tasks[i];
    AllInAppend(b.external, tasks, i);
    if WalletTypeOf(book, t.dest).Some? { return; }
    var m;
    ghost var left := balances.left;
    ok, m := Pay(w, t, balances, b, start, dropped);
    if !ok { return; }
    if NonNegative(tasks) {
      StillTaken(book, left, balances.left, b.external, b.external + (if m.Some? then [t] else []), tasks, i);
    }
    if m.Some? {
      ExternalAppend(w, book, ms, b.external, m.value, t);
      b, ms := b.(messages := b.messages + [m.value], external := b.external + [t]), ms + [m.value];
    }
  }

  /** The three parts put together. */
  lemma Assembled(w: World, book: Book, b: Withdrawals, b1: Withdrawals, ms: seq<Message>, es: seq<Message>)
    requires ServicePart(w, book, b1.messages, b.service)
    requires InternalPart(w, book, ms, b.internal) && ExternalPart(w, book, es, b.external)
    requires b.messages == b1.messages + ms + es && Apart(w, b.service, b.internal)
    ensures WellBuilt(w, book, b)
  {
    var s := |b1.messages|;
    assert b.messages[..s] == b1.messages && b.messages[s..s + |ms|] == ms && b.messages[s + |ms|..] == es;
  }

  lemma KeptApart(w: World, ts: seq<ServiceTask>, bs: seq<InternalBuilt>, tasks: seq<InternalTask>)
    requires BuiltFrom(bs, tasks, |tasks|)
    requires forall t :: t in tasks ==> w.proxy(t.subwalletId) !in Sources(ts)
    ensures Apart(w, ts, bs)
  {
    forall i, j | 0 <= i < |ts| && 0 <= j < |bs| ensures ts[i].from != w.proxy(bs[j].task.subwalletId) {
      assert bs[j] in bs;
      assert ts[i].from in Sources(ts);
    }
  }

  /** The selection of jetton deposits. */
  function SelectInternal(w: World, candidates: seq<InternalTask>, services: seq<ServiceTask>): seq<InternalTask> {
    Limit(WithoutUsed(w, candidates, Sources(services)), 250)
  }

  /** These tasks are the candidates with a free proxy, all of them, in their order. */
  predicate AreTheFree(w: World, candidates: seq<InternalTask>, used: set<Address>, tasks: seq<InternalTask>) {
    && |tasks| == Free(w, candidates, used)
    && (forall i :: 0 <= i < |candidates| && w.proxy(candidates[i].subwalletId) !in used ==>
          TakenAt(w, candidates, used, tasks, i))
    && (forall k :: 0 <= k < |tasks| ==> SomeFree(w, candidates, used, tasks[k], k))
  }

  predicate TakenAt(w: World, candidates: seq<InternalTask>, used: set<Address>, tasks: seq<InternalTask>, i: nat)
    requires i < |candidates|
  {
    Free(w, candidates[..i], used) < |tasks| && tasks[Free(w, candidates[..i], used)] == candidates[i]
  }

  predicate SomeFree(w: World, candidates: seq<InternalTask>, used: set<Address>, t: InternalTask, k: nat) {
    exists i :: 0 <= i < |candidates| && candidates[i] == t
                && w.proxy(t.subwalletId) !in used && Free(w, candidates[..i], used) == k
  }

  lemma {:induction false} FilterFindsTheFree(w: World, candidates: seq<InternalTask>, used: set<Address>)
    ensures AreTheFree(w, candidates, used, WithoutUsed(w, candidates, used))
    decreases candidates
  {
    if candidates != [] {
      var n := |candidates| - 1;
      FilterFindsTheFree(w, candidates[..n], used);
      forall i | 0 <= i <= n && w.proxy(candidates[i].subwalletId) !in used
        ensures TakenAt(w, candidates, used, WithoutUsed(w, candidates, used), i)
      {
        if i < n { TakenStays(w, candidates, used, i); }
      }
      forall k | 0 <= k < |WithoutUsed(w, candidates, used)|
        ensures SomeFree(w, candidates, used, WithoutUsed(w, candidates, used)[k], k)
      {
        if k < |WithoutUsed(w, candidates[..n], used)| { FreeStays(w, candidates, used, k); }
      }
    }
  }

  lemma TakenStays(w: World, candidates: seq<InternalTask>, used: set<Address>, i: nat)
    requires i < |candidates| - 1
    requires var front := candidates[..|candidates| - 1]; TakenAt(w, front, used, WithoutUsed(w, front, used), i)
    ensures TakenAt(w, candidates, used, WithoutUsed(w, candidates, used), i)
  {
    assert candidates[..|candidates| - 1][..i] == candidates[..i];
  }

  lemma FreeStays(w: World, candidates: seq<InternalTask>, used: set<Address>, k: nat)
    requires candidates != [] && k < |WithoutUsed(w, candidates[..|candidates| - 1], used)|
    requires var front := candidates[..|candidates| - 1]; SomeFree(w, front, used, WithoutUsed(w, front, used)[k], k)
    ensures SomeFree(w, candidates, used, WithoutUsed(w, candidates, used)[k], k)
  {
    var front := candidates[..|candidates| - 1];
    var i :| 0 <= i < |front| && front[i] == WithoutUsed(w, front, used)[k]
             && w.proxy(front[i].subwalletId) !in used && Free(w, front[..i], used) == k;
    assert front[..i] == candidates[..i] && candidates[i] == WithoutUsed(w, candidates, used)[k];
  }

  predicate AmongFirst(w: World, candidates: seq<InternalTask>, used: set<Address>, i: nat)
    requires i < |candidates|
  {
    w.proxy(candidates[i].subwalletId) !in used && Free(w, candidates[..i], used) < 250
  }

  /** The selection keeps the order of the candidates and takes the first 250 whose proxy is free: every such candidate
      that fewer than 250 of them precede stands at the place that many give it, and nothing else is selected. */
  lemma SelectionIsTheFirstFree(w: World, candidates: seq<InternalTask>, services: seq<ServiceTask>)
    ensures var tasks, used := SelectInternal(w, candidates, services), Sources(services);
      && |tasks| == (if Free(w, candidates, used) < 250 then Free(w, candidates, used) else 250)
      && (forall i :: 0 <= i < |candidates| && AmongFirst(w, candidates, used, i) ==>
            TakenAt(w, candidates, used, tasks, i))
      && (forall k :: 0 <= k < |tasks| ==> SomeFree(w, candidates, used, tasks[k], k))
  {
    var used := Sources(services);
    FilterFindsTheFree(w, candidates, used);
    forall i | 0 <= i < |candidates| && AmongFirst(w, candidates, used, i)
      ensures TakenAt(w, candidates, used, SelectInternal(w, candidates, services), i)
    {
      assert TakenAt(w, candidates, used, WithoutUsed(w, candidates, used), i);
    }
    forall k | 0 <= k < |SelectInternal(w, candidates, services)|
      ensures SomeFree(w, candidates, used, SelectInternal(w, candidates, services)[k], k)
    {
      assert SomeFree(w, candidates, used, WithoutUsed(w, candidates, used)[k], k);
    }
  }

  lemma SelectionIsSound(w: World, book: Book, candidates: seq<InternalTask>, services: seq<ServiceTask>)
    requires DistinctProxies(w, candidates) && RowsMatchBook(w, book, [], candidates)
    ensures var tasks := SelectInternal(w, candidates, services);
      && DistinctProxies(w, tasks) && RowsMatchBook(w, book, [], tasks) && |tasks| <= 250
      && forall t :: t in tasks ==> w.proxy(t.subwalletId) !in Sources(services)
  {
    SelectionIsTheFirstFree(w, candidates, services);
    var tasks, used := SelectInternal(w, candidates, services), Sources(services);
    forall k | 0 <= k < |tasks| ensures tasks[k] in candidates && w.proxy(tasks[k].subwalletId) !in used {
      assert SomeFree(w, candidates, used, tasks[k], k);
    }
    forall j, k | 0 <= j < k < |tasks| ensures w.proxy(tasks[j].subwalletId) != w.proxy(tasks[k].subwalletId) {
      assert SomeFree(w, candidates, used, tasks[j], j) && SomeFree(w, candidates, used, tasks[k], k);
    }
  }

  /** What is taken of the selection is what is taken of the candidates. */
  lemma TakenOfCandidates(w: World, bs: seq<InternalBuilt>, candidates: seq<InternalTask>, services: seq<ServiceTask>)
    requires DistinctProxies(w, candidates)
    requires var tasks := SelectInternal(w, candidates, services);
      InternalsTaken(w, bs, tasks, |tasks|) && BuiltFrom(bs, tasks, |tasks|)
    ensures CandidatesTaken(w, bs, candidates, Sources(services))
  {
    var tasks, used := SelectInternal(w, candidates, services), Sources(services);
    SelectionIsTheFirstFree(w, candidates, services);
    forall i | 0 <= i < |candidates|
      ensures Collected(bs, candidates[i]) <==>
        && w.proxy(candidates[i].subwalletId) !in used && Free(w, candidates[..i], used) < 250
        && WorthIt(w, candidates[i])
    {
      if AmongFirst(w, candidates, used, i) {
        assert TakenAt(w, candidates, used, tasks, i);
      }
      if Collected(bs, candidates[i]) { CollectedIsFree(w, bs, candidates, used, tasks, i); }
    }
  }

  lemma CollectedIsFree(w: World, bs: seq<InternalBuilt>, candidates: seq<InternalTask>, used: set<Address>,
                        tasks: seq<InternalTask>, i: nat)
    requires DistinctProxies(w, candidates) && i < |candidates| && |tasks| <= 250
    requires BuiltFrom(bs, tasks, |tasks|) && Collected(bs, candidates[i])
    requires forall k :: 0 <= k < |tasks| ==> SomeFree(w, candidates, used, tasks[k], k)
    ensures w.proxy(candidates[i].subwalletId) !in used && Free(w, candidates[..i], used) < 250
  {
    var j :| 0 <= j < |bs| && bs[j].task == candidates[i];
    assert bs[j] in bs;
    var k :| 0 <= k < |tasks| && tasks[k] == candidates[i];
    assert SomeFree(w, candidates, used, tasks[k], k);
  }

  /** One batch: not ok where the program stops with an error.  candidates are the deposits that are due, in the
      order of the selection; externals the first pending request of each destination. */
  method BuildWithdrawalMessages(
    w: World, book: Book, balances: HotBalances, services: seq<ServiceTask>, candidates: seq<InternalTask>,
    externals: seq<ExternalTask>, memos: seq<Uuid>)
    returns (ok: bool, b: Withdrawals, ghost dropped: nat)
    requires TON_SYMBOL in balances.left
    requires DistinctSources(services) && |services| <= 250
    requires DistinctProxies(w, candidates) && RowsMatchBook(w, book, services, candidates) && |memos| >= 250
    requires DistinctDests(externals)
    modifies balances
    ensures ok ==> WellBuilt(w, book, b) && |b.messages| <= 251
    ensures ok ==> Budget(old(balances.left), balances.left, b, dropped)
    ensures ok ==> AllIn(b.external, externals, |externals|)
    ensures ok && NonNegative(externals) ==>
      Exhaustive(w, book, balances.left, b, services, candidates, externals)
    ensures !ok ==>
      || (exists i :: 0 <= i < |services| && BuildServiceWithdrawalMessage(w, book, services[i]) == Stopped)
      || (exists i :: 0 <= i < |externals| && externals[i].dest !in book
                      && Unpayable(w, old(balances.left), externals[i]))
  {
    ghost var start := balances.left;
    var b1, b2;
    ok, b1, dropped := AddService(w, book, services, balances, start);
    if !ok { return false, b1, dropped; }
    var tasks := SelectInternal(w, candidates, b1.service);
    SelectionIsSound(w, book, candidates, b1.service);
    ghost var ms, es;
    b2, ms, dropped := AddInternal(w, book, tasks, memos, balances, b1, start, dropped);
    ok, b, es := AddExternal(w, book, externals, balances, b2, start, dropped);
    if ok {
      KeptApart(w, b1.service, b2.internal, tasks);
      if CoversFee(balances.left) && |b.messages| <= 250 && NonNegative(externals) {
        TakenOfCandidates(w, b.internal, candidates, b.service);
      }
      Assembled(w, book, b, b1, ms, es);
    }
  }
}
