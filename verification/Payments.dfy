/** What the messages of a batch do, read off the messages: each pays what its request asks for, each collects what the
    deposit has, and together they spend what the balances lose. */
module Payments {
  import opened Types
  import opened Ledger
  import opened Messages
  import opened BatchBuilder

  // ---------------------------------------------------------------- message by message

  /** The recipient reads the binary comment if there is one, else the text if there is one. */
  predicate Reads(body: Body, comment: Text, binary: string) {
    match body
    case Binary(data) => binary != "" && data == binary
    case Comment(text) => binary == "" && comment != PlainText("") && text == comment
    case Empty => binary == "" && comment == PlainText("")
    case _ => false
  }

  /** The place of a payment in the batch. */
  function PaymentAt(b: Withdrawals, i: nat): nat { |b.service| + |b.internal| + i }

  /** A payment in TON carries the amount itself, to the destination, with the bounce flag of the request. */
  predicate PaysTon(m: Message, t: ExternalTask) {
    && m.dst == Some(t.dest) && m.bounce == t.bounceable && m.ton == t.amount
    && Reads(m.body, t.comment, t.binaryComment)
  }

  /** A payment in jettons orders the hot wallet's own jetton wallet to transfer the amount to the destination. */
  predicate PaysJettons(hot: Address, m: Message, t: ExternalTask) {
    && m.dst == Some(hot) && m.bounce && m.ton == 100_000_000 && m.body.Transfer?
    && m.body.queryId == t.queryId && m.body.amount == t.amount && m.body.destination == Some(t.dest)
    && Reads(m.body.forward, t.comment, t.binaryComment)
  }

  lemma PaymentMessage(w: World, book: Book, b: Withdrawals, i: nat)
    requires WellBuilt(w, book, b) && i < |b.external|
    ensures var t, m := b.external[i], b.messages[PaymentAt(b, i)];
      if t.currency == "TON" then PaysTon(m, t)
      else t.currency in w.jettonHot && PaysJettons(w.jettonHot[t.currency], m, t)
  {
    var n := |b.service| + |b.internal|;
    assert b.messages[n..][i] == b.messages[n + i];
    assert ExternalMessage(w, b.external[i]) == Some(b.messages[n..][i]);
  }

  /** So what a batch pays for a request is what was asked, to whom it was asked, once. */
  lemma PaymentIsAsAsked(requests: map<QueryId, Request>, tasks: seq<ExternalTask>, w: World, book: Book,
                         b: Withdrawals, i: nat)
    requires TasksOf(requests, tasks) && WellBuilt(w, book, b) && AllIn(b.external, tasks, |tasks|)
    requires i < |b.external|
    ensures b.external[i].queryId in requests
    ensures var r, m := requests[b.external[i].queryId], b.messages[PaymentAt(b, i)];
      if r.currency == "TON" then m.dst == Some(r.dest) && m.ton == r.amount && m.bounce == r.bounceable
      else
        && r.currency in w.jettonHot && m.dst == Some(w.jettonHot[r.currency])
        && m.body.Transfer? && m.body.destination == Some(r.dest) && m.body.amount == r.amount
        && m.body.queryId == b.external[i].queryId
    ensures forall j :: 0 <= j < |b.external| && b.external[j].queryId == b.external[i].queryId ==> j == i
  {
    forall j | 0 <= j < |b.external|
      ensures b.external[j].queryId in requests && Asks(requests[b.external[j].queryId], b.external[j])
    {
      assert b.external[j] in b.external;
      var k :| 0 <= k < |tasks| && tasks[k] == b.external[j];
      assert FirstPending(requests, tasks[k].queryId);
    }
    PaymentMessage(w, book, b, i);
  }

  /** A collecting message orders the deposit, through its proxy, to send all it has to the hot wallet. */
  predicate Collects(w: World, m: Message, x: InternalBuilt) {
    && m.dst == Some(w.proxy(x.task.subwalletId)) && m.bounce && m.ton == 100_000_000
    && m.body.Wrapped? && m.body.inner.dst == Some(x.task.from) && m.body.inner.ton == 0
    && m.body.inner.body.Transfer?
    && m.body.inner.body.amount == w.jettonBalance(x.task.from)
    && m.body.inner.body.destination == Some(w.tonHot)
    && m.body.inner.body.forward == Comment(UuidText(x.memo))
  }

  lemma CollectingMessage(w: World, book: Book, b: Withdrawals, i: nat)
    requires WellBuilt(w, book, b) && i < |b.internal|
    ensures Collects(w, b.messages[|b.service| + i], b.internal[i])
  {
    var s := |b.service|;
    assert b.messages[s..s + |b.internal|][i] == b.messages[s + i];
  }

  /** A filling comments its memo to the deposit; a proxy resends its TON, or all jettons of a wallet that is nobody's
      deposit, to the hot wallet under the memo. */
  predicate Serves(w: World, book: Book, m: Message, t: ServiceTask) {
    && m.ton == 100_000_000 && t.from in book
    && if book[t.from].wtype == TonDeposit then
         m.dst == Some(t.from) && !m.bounce && m.body == Comment(UuidText(t.memo))
       else
         && m.dst == Some(w.proxy(t.subwalletId)) && m.bounce && m.body.Wrapped? && m.body.inner.ton == 0
         && match t.jettonMaster
            case None => m.body.inner.dst == Some(w.tonHot) && m.body.inner.body == Comment(UuidText(t.memo))
            case Some(master) =>
              var wallet := w.jettonWallet(w.proxy(t.subwalletId), master);
              && wallet !in book && m.body.inner.dst == Some(wallet) && m.body.inner.body.Transfer?
              && m.body.inner.body.amount == w.jettonBalance(wallet) != 0
              && m.body.inner.body.destination == Some(w.tonHot)
              && m.body.inner.body.forward == Comment(UuidText(t.memo))
  }

  lemma ServiceMessage(w: World, book: Book, b: Withdrawals, i: nat)
    requires WellBuilt(w, book, b) && i < |b.service|
    ensures Serves(w, book, b.messages[i], b.service[i])
  {
    assert b.messages[..|b.service|][i] == b.messages[i];
  }

  /** A task is rejected exactly when there is nothing to move or the wallet is one of the book, and it stops the
      builder exactly when its address is neither a deposit to fill, with a jetton to fill it for, nor a proxy. */
  lemma ServiceOutcomes(w: World, book: Book, t: ServiceTask)
    ensures BuildServiceWithdrawalMessage(w, book, t).Stopped? <==>
      || t.from !in book
      || (book[t.from].wtype == TonDeposit && t.jettonMaster.None?)
      || (book[t.from].wtype != TonDeposit && book[t.from].wtype != JettonOwner)
    ensures BuildServiceWithdrawalMessage(w, book, t).Rejected? <==>
      && t.from in book
      && match (book[t.from].wtype, t.jettonMaster)
         case (TonDeposit, Some(master)) => w.jettonBalance(w.jettonWallet(t.from, master)) == 0
         case (JettonOwner, Some(master)) =>
           var wallet := w.jettonWallet(w.proxy(t.subwalletId), master);
           wallet in book || w.jettonBalance(wallet) == 0
         case (JettonOwner, None) => w.tonBalance(w.proxy(t.subwalletId)) == 0
         case _ => false
  {
  }

  // ---------------------------------------------------------------- all messages of a batch

  /** What the messages order this jetton wallet to transfer. */
  function TransferSum(ms: seq<Message>, wallet: Address): int {
    if ms == [] then 0 else TransferSum(ms[..|ms| - 1], wallet) + TransferBy(ms[|ms| - 1], wallet)
  }

  function TransferBy(m: Message, wallet: Address): int {
    if m.dst == Some(wallet) && m.body.Transfer? then m.body.amount else 0
  }

  lemma {:induction false} TransferConcat(a: seq<Message>, b: seq<Message>, wallet: Address)
    ensures TransferSum(a + b, wallet) == TransferSum(a, wallet) + TransferSum(b, wallet)
  {
    if b == [] {
      assert a + b == a;
    } else {
      assert (a + b)[..|a + b| - 1] == a + b[..|b| - 1];
      TransferConcat(a, b[..|b| - 1], wallet);
    }
  }

  lemma {:induction false} NoTransfers(ms: seq<Message>, wallet: Address)
    requires forall i :: 0 <= i < |ms| ==> !ms[i].body.Transfer?
    ensures TransferSum(ms, wallet) == 0
  {
    if ms != [] { NoTransfers(ms[..|ms| - 1], wallet); }
  }

  /** No two currencies share a jetton wallet of the hot wallet. */
  predicate OwnWallets(w: World) {
    forall c, d :: c in w.jettonHot && d in w.jettonHot && w.jettonHot[c] == w.jettonHot[d] ==> c == d
  }

  lemma {:induction false} PaymentsTransfer(w: World, book: Book, ms: seq<Message>, ts: seq<ExternalTask>, c: string)
    requires ExternalPart(w, book, ms, ts) && OwnWallets(w) && c in w.jettonHot && c != "TON"
    ensures TransferSum(ms, w.jettonHot[c]) == JettonSum(ts, c)
    decreases |ts|
  {
    if ts != [] {
      var k := |ts| - 1;
      assert ExternalPart(w, book, ms[..k], ts[..k]);
      PaymentsTransfer(w, book, ms[..k], ts[..k], c);
      assert ExternalMessage(w, ts[k]) == Some(ms[k]);
    }
  }

  /** The jettons the balance loses are the jettons the messages of the batch order to transfer, currency by currency;
      the coins it loses are the ones attached to them and one fee for each task dropped after its fee was set aside. */
  lemma MessagesSpendTheBalance(w: World, book: Book, start: map<string, int>, left: map<string, int>, b: Withdrawals,
                                dropped: nat, c: string)
    requires WellBuilt(w, book, b) && Budget(start, left, b, dropped)
    requires OwnWallets(w) && c in w.jettonHot && c != "TON" && c in start
    ensures left[c] + TransferSum(b.messages, w.jettonHot[c]) == start[c]
    ensures "TON" in start && "TON" in left && left["TON"] + TonSum(b.messages) + 100_000_000 * dropped == start["TON"]
  {
    var s := |b.service|;
    var t := s + |b.internal|;
    var wallet := w.jettonHot[c];
    forall i | 0 <= i < t ensures !b.messages[..t][i].body.Transfer? {
      if i < s {
        ServiceMessage(w, book, b, i);
      } else {
        CollectingMessage(w, book, b, i - s);
      }
    }
    NoTransfers(b.messages[..t], wallet);
    PaymentsTransfer(w, book, b.messages[t..], b.external, c);
    assert b.messages == b.messages[..t] + b.messages[t..];
    TransferConcat(b.messages[..t], b.messages[t..], wallet);
  }
}
