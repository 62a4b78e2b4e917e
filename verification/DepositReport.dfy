/** The withdrawals of a block as the scanner reads them from the transactions of jetton deposit wallets, against what
    the protocol expects of its report. */
module DepositReport {
  import opened Types
  import opened Ledger
  import opened BlockCommit
  import opened Protocol
  import opened ProtocolInvariant
  import opened HotWalletScanner
  import JettonIncome

  /** What the visits of a block come across, in any order: transactions of jetton deposit wallets, and the sweeps of
      TON deposits that reached the hot wallet. */
  datatype Item = DepositTx(tx: JettonIncome.Tx) | Sweep(finish: InternalWithdrawal)

  function EventOf(book: Book, x: Item): seq<InternalWithdrawal> {
    match x
    case DepositTx(tx) => JettonIncome.WithdrawalOf(book, tx)
    case Sweep(finish) => [finish]
  }

  function EventsOf(book: Book, items: seq<Item>): seq<InternalWithdrawal> {
    if items == [] then [] else EventsOf(book, items[..|items| - 1]) + EventOf(book, items[|items| - 1])
  }

  function OfWallet(txs: seq<JettonIncome.Tx>): seq<Item> {
    seq(|txs|, i requires 0 <= i < |txs| => DepositTx(txs[i]))
  }

  lemma EventsNext(book: Book, items: seq<Item>, x: Item)
    ensures EventsOf(book, items + [x]) == EventsOf(book, items) + EventOf(book, x)
  {
    assert (items + [x])[..|items|] == items;
  }

  lemma LastOfWallet(before: seq<Item>, txs: seq<JettonIncome.Tx>)
    requires txs != []
    ensures before + OfWallet(txs) == before + OfWallet(txs[..|txs| - 1]) + [DepositTx(txs[|txs| - 1])]
  {
  }

  lemma Regrouped<T>(a: seq<T>, b: seq<T>, c: seq<T>)
    ensures a + b + c == a + (b + c)
  {
  }

  /** One wallet of the block contributes what the scanner appends for it. */
  lemma {:induction false} WalletEvents(book: Book, before: seq<Item>, txs: seq<JettonIncome.Tx>)
    ensures EventsOf(book, before + OfWallet(txs)) == EventsOf(book, before) + JettonIncome.WithdrawalsIn(book, txs)
    decreases txs
  {
    if txs == [] {
      assert before + OfWallet(txs) == before;
    } else {
      var n := |txs| - 1;
      WalletEvents(book, before, txs[..n]);
      EventsNext(book, before + OfWallet(txs[..n]), DepositTx(txs[n]));
      LastOfWallet(before, txs);
      Regrouped(EventsOf(book, before), JettonIncome.WithdrawalsIn(book, txs[..n]),
                JettonIncome.WithdrawalOf(book, txs[n]));
    }
  }

  // ---------------------------------------------------------------- what the chain did

  /** A transfer that the service started settles in this block with the result of its transaction. */
  predicate Ours(book: Book, chain: Chain, tonMemos: set<Uuid>, tx: JettonIncome.Tx) {
    && tx.inMsg.TransferIn? && tx.inMsg.comment.UuidText?
    && tx.inMsg.comment.uuid !in tonMemos && SettledNow(chain, tx.inMsg.comment.uuid)
    && tx.success == chain.settled[tx.inMsg.comment.uuid].ok
    && (tx.success ==> JettonIncome.ToHot(book, tx))
  }

  predicate SaysStray(tx: JettonIncome.Tx, w: InternalWithdrawal) {
    && tx.inMsg.TransferIn? && !tx.success && w.isFailed
    && w.memo == tx.inMsg.comment && w.lt == tx.inMsg.lt && w.amount == tx.inMsg.amount
  }

  /** Anybody's request, which the wallet rejected. */
  predicate Strangers(tx: JettonIncome.Tx, strays: seq<InternalWithdrawal>) {
    exists i :: 0 <= i < |strays| && SaysStray(tx, strays[i])
  }

  /** A service withdrawal that went elsewhere. */
  predicate Elsewhere(book: Book, tx: JettonIncome.Tx) { tx.success && !JettonIncome.ToHot(book, tx) }

  predicate ItemOk(book: Book, chain: Chain, tonMemos: set<Uuid>, ss: seq<SendingConfirmation>,
                   strays: seq<InternalWithdrawal>, x: Item) {
    match x
    case DepositTx(tx) =>
      tx.inMsg.TransferIn? ==> Ours(book, chain, tonMemos, tx) || Strangers(tx, strays) || Elsewhere(book, tx)
    case Sweep(f) => f.memo.UuidText? && f.memo.uuid in tonMemos && !f.isFailed && HasSending(ss, f.memo.uuid)
  }

  predicate OursFor(book: Book, chain: Chain, tonMemos: set<Uuid>, x: Item, m: Uuid) {
    x.DepositTx? && Ours(book, chain, tonMemos, x.tx) && x.tx.inMsg.comment == UuidText(m)
  }

  predicate Settles(book: Book, chain: Chain, tonMemos: set<Uuid>, items: seq<Item>, m: Uuid) {
    exists i :: 0 <= i < |items| && OursFor(book, chain, tonMemos, items[i], m)
  }

  predicate Strays(items: seq<Item>, w: InternalWithdrawal) {
    exists i :: 0 <= i < |items| && items[i].DepositTx? && SaysStray(items[i].tx, w)
  }

  /** The transactions of the block: those of the transfers that settle in it, one each, those of the strays, and
      others that transfer nothing to the hot wallet. */
  predicate BlockOfItems(book: Book, chain: Chain, tonMemos: set<Uuid>, ss: seq<SendingConfirmation>,
                         strays: seq<InternalWithdrawal>, items: seq<Item>) {
    && (forall i :: 0 <= i < |items| ==> ItemOk(book, chain, tonMemos, ss, strays, items[i]))
    && (forall m :: m in chain.settled && SettledNow(chain, m) ==> Settles(book, chain, tonMemos, items, m))
    && (forall w :: w in strays ==> Strays(items, w))
    && OncePerMemo(book, chain, tonMemos, items)
  }

  predicate OncePerMemo(book: Book, chain: Chain, tonMemos: set<Uuid>, items: seq<Item>) {
    forall i, j :: 0 <= i < j < |items| ==> Differ(book, chain, tonMemos, items[i], items[j])
  }

  predicate Differ(book: Book, chain: Chain, tonMemos: set<Uuid>, x: Item, y: Item) {
    x.DepositTx? && y.DepositTx? && Ours(book, chain, tonMemos, x.tx) && Ours(book, chain, tonMemos, y.tx) ==>
      x.tx.inMsg.comment != y.tx.inMsg.comment
  }

  // ---------------------------------------------------------------- what the scanner says of it

  predicate Told(book: Book, items: seq<Item>, w: InternalWithdrawal) {
    exists i :: 0 <= i < |items| && EventOf(book, items[i]) == [w]
  }

  lemma {:induction false} EventsAreTold(book: Book, items: seq<Item>)
    ensures forall w :: w in EventsOf(book, items) <==> Told(book, items, w)
  {
    if items != [] {
      var n := |items| - 1;
      var front := items[..n];
      EventsAreTold(book, front);
      OneEvent(book, items[n]);
      forall w ensures Told(book, items, w) <==> Told(book, front, w) || EventOf(book, items[n]) == [w] {
        if Told(book, front, w) {
          var i :| 0 <= i < n && EventOf(book, front[i]) == [w];
          assert items[i] == front[i];
        }
        if Told(book, items, w) && EventOf(book, items[n]) != [w] {
          var i :| 0 <= i < n && EventOf(book, items[i]) == [w];
          assert front[i] == items[i];
        }
      }
    }
  }

  lemma OneEvent(book: Book, x: Item)
    ensures |EventOf(book, x)| <= 1
  {
    if x.DepositTx? { JettonIncome.WithdrawalIsTold(book, x.tx); }
  }

  lemma ItemTold(book: Book, chain: Chain, tonMemos: set<Uuid>, ss: seq<SendingConfirmation>,
                 strays: seq<InternalWithdrawal>, x: Item, w: InternalWithdrawal)
    requires ItemOk(book, chain, tonMemos, ss, strays, x) && EventOf(book, x) == [w]
    ensures Own(chain, tonMemos, ss, w) || w in strays
    ensures w.isFailed && w !in strays ==>
      x.DepositTx? && Ours(book, chain, tonMemos, x.tx) && x.tx.inMsg.comment == w.memo
    ensures w !in strays && w.memo.UuidText? && w.memo.uuid !in tonMemos ==>
      x.DepositTx? && Ours(book, chain, tonMemos, x.tx) && x.tx.inMsg.comment == w.memo
  {
    if x.DepositTx? {
      JettonIncome.WithdrawalIsTold(book, x.tx);
      if Strangers(x.tx, strays) {
        var i :| 0 <= i < |strays| && SaysStray(x.tx, strays[i]);
        assert strays[i] == w;
      }
    }
  }

  lemma SettledIsTold(book: Book, chain: Chain, tonMemos: set<Uuid>, items: seq<Item>, m: Uuid)
    requires m in chain.settled && SettledNow(chain, m) && Settles(book, chain, tonMemos, items, m)
    ensures SomeInternal(EventsOf(book, items), m, !chain.settled[m].ok)
  {
    var i :| 0 <= i < |items| && OursFor(book, chain, tonMemos, items[i], m);
    JettonIncome.WithdrawalIsTold(book, items[i].tx);
    var w := EventOf(book, items[i])[0];
    assert EventOf(book, items[i]) == [w];
    EventsAreTold(book, items);
    assert Told(book, items, w);
    var j :| 0 <= j < |EventsOf(book, items)| && EventsOf(book, items)[j] == w;
  }

  lemma StrayIsTold(book: Book, items: seq<Item>, w: InternalWithdrawal)
    requires Strays(items, w)
    ensures w in EventsOf(book, items)
  {
    var i :| 0 <= i < |items| && items[i].DepositTx? && SaysStray(items[i].tx, w);
    JettonIncome.WithdrawalIsTold(book, items[i].tx);
    assert EventOf(book, items[i]) == [w];
    EventsAreTold(book, items);
    assert Told(book, items, w);
  }

  /** Without strays no memo is failed and then named again. */
  lemma {:induction false} NothingAfterFailure(book: Book, chain: Chain, tonMemos: set<Uuid>,
                                               ss: seq<SendingConfirmation>, items: seq<Item>)
    requires forall i :: 0 <= i < |items| ==> ItemOk(book, chain, tonMemos, ss, [], items[i])
    requires OncePerMemo(book, chain, tonMemos, items)
    ensures NoneAfterFailure(EventsOf(book, items))
    decreases items
  {
    if items != [] {
      var n := |items| - 1;
      var front, x := items[..n], items[n];
      var ws := EventsOf(book, front);
      NothingAfterFailure(book, chain, tonMemos, ss, front);
      OneEvent(book, x);
      if EventOf(book, x) != [] {
        var w := EventOf(book, x)[0];
        assert EventOf(book, x) == [w];
        ItemTold(book, chain, tonMemos, ss, [], x, w);
        forall i | 0 <= i < |ws| && ws[i].memo == w.memo ensures !ws[i].isFailed {
          NotFailedBefore(book, chain, tonMemos, ss, items, n, ws[i], w);
        }
      }
    }
  }

  lemma NotFailedBefore(book: Book, chain: Chain, tonMemos: set<Uuid>, ss: seq<SendingConfirmation>, items: seq<Item>,
                        n: nat, v: InternalWithdrawal, w: InternalWithdrawal)
    requires forall i :: 0 <= i < |items| ==> ItemOk(book, chain, tonMemos, ss, [], items[i])
    requires OncePerMemo(book, chain, tonMemos, items)
    requires n < |items| && EventOf(book, items[n]) == [w] && v in EventsOf(book, items[..n]) && v.memo == w.memo
    ensures !v.isFailed
  {
    EventsAreTold(book, items[..n]);
    assert Told(book, items[..n], v);
    var i :| 0 <= i < n && EventOf(book, items[..n][i]) == [v];
    ItemTold(book, chain, tonMemos, ss, [], items[i], v);
    ItemTold(book, chain, tonMemos, ss, [], items[n], w);
    assert Differ(book, chain, tonMemos, items[i], items[n]);
  }

  /** Whatever order the wallets are visited in, what the scanner reads from such a block is what the protocol's commit
      step takes for granted of its internal withdrawals. */
  lemma ReportOfDeposits(book: Book, chain: Chain, tonMemos: set<Uuid>, ss: seq<SendingConfirmation>,
                         strays: seq<InternalWithdrawal>, items: seq<Item>)
    requires BlockOfItems(book, chain, tonMemos, ss, strays, items)
    ensures ReportsInternals(chain, tonMemos, ss, strays, EventsOf(book, items))
  {
    var ws := EventsOf(book, items);
    EventsAreTold(book, items);
    forall i | 0 <= i < |ws| ensures Own(chain, tonMemos, ss, ws[i]) || ws[i] in strays {
      assert ws[i] in ws && Told(book, items, ws[i]);
      var j :| 0 <= j < |items| && EventOf(book, items[j]) == [ws[i]];
      ItemTold(book, chain, tonMemos, ss, strays, items[j], ws[i]);
    }
    forall w | w in strays ensures w in ws { StrayIsTold(book, items, w); }
    forall m | m in chain.settled && SettledNow(chain, m) ensures SomeInternal(ws, m, !chain.settled[m].ok) {
      SettledIsTold(book, chain, tonMemos, items, m);
    }
    if strays == [] { NothingAfterFailure(book, chain, tonMemos, ss, items); }
  }

  /** And together with the transactions of the hot wallet: the whole report of the block is a step of the protocol. */
  lemma ReportIsAStep(s: State, book: Book, rs: seq<TxReport>, sweeps: seq<SendingConfirmation>, items: seq<Item>,
                      e: Events)
    requires Inv(s) && s.chain.saved < |s.chain.blocks| && s.chain.saved < |s.chain.strays|
    requires BlockOfBatches(s.chain, s.batches, s.carriers, rs)
    requires forall x :: x in sweeps ==> x.memo.UuidText? && x.memo.uuid in s.tonMemos
    requires BlockOfItems(book, s.chain, s.tonMemos, AllSs(rs) + sweeps, s.chain.strays[s.chain.saved], items)
    requires FreshIncomes(s.db.intIncomes, e.intIncomes)
    requires e.externals == AllWs(rs) && e.sendings == AllSs(rs) + sweeps && e.internals == EventsOf(book, items)
    ensures Enabled(s, CommitBlock(e))
  {
    ReportOfBlock(s.chain, s.batches, s.carriers, s.tonMemos, rs, sweeps);
    ReportOfDeposits(book, s.chain, s.tonMemos, AllSs(rs) + sweeps, s.chain.strays[s.chain.saved], items);
  }
}
