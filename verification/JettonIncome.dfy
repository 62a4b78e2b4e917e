/** Incomes of a jetton deposit wallet in one block: what notifications tell, what transfers took, and what only the
    difference of two balances shows. */
module JettonIncome {
  import opened Types
  import opened Ledger

  // ---------------------------------------------------------------- transactions of the wallet

  datatype OutMsg =
    | ExternalOut
    | Notification(amount: nat, sender: Option<Address>, dst: Option<Address>, lt: nat, utime: int)
    | OtherOut

  datatype InMsg =
    | NoIn
    | ExternalIn
    | TransferIn(amount: nat, destination: Option<Address>, comment: Text, lt: nat)
    | OtherIn

  datatype Tx = Tx(success: bool, inMsg: InMsg, outs: seq<OutMsg>, lt: nat, now: int, hash: Hash)

  function OwnerOf(book: Book, wallet: Address): Option<Address> {
    if wallet in book then book[wallet].owner else None
  }

  predicate Known(book: Book, a: Option<Address>) { a.Some? && a.value in book }

  // ---------------------------------------------------------------- out messages

  datatype Verdict = Skipped | Unrecognised | Wrong | Counted(amount: nat)

  /** A notification of a foreign sender to the owner counts; one of a sender in the book does not; the scanner stops
      when the destination is no address or the owner is missing. */
  function Judge(book: Book, wallet: Address, o: OutMsg): Verdict {
    if !o.Notification? then Unrecognised
    else if Known(book, o.sender) then Skipped
    else if o.dst.None? || OwnerOf(book, wallet).None? then Wrong
    else if o.dst != OwnerOf(book, wallet) then Unrecognised
    else Counted(o.amount)
  }

  function CountedSum(book: Book, wallet: Address, outs: seq<OutMsg>): int {
    if outs == [] then 0
    else
      var v := Judge(book, wallet, outs[|outs| - 1]);
      CountedSum(book, wallet, outs[..|outs| - 1]) + if v.Counted? then v.amount else 0
  }

  predicate NoneWrong(book: Book, wallet: Address, outs: seq<OutMsg>) {
    forall i :: 0 <= i < |outs| ==> Judge(book, wallet, outs[i]) != Wrong
  }

  predicate SomeUnrecognised(book: Book, wallet: Address, outs: seq<OutMsg>) {
    exists i :: 0 <= i < |outs| && Judge(book, wallet, outs[i]) == Unrecognised
  }

  function AmountSum(s: seq<Income>): int {
    if s == [] then 0 else AmountSum(s[..|s| - 1]) + s[|s| - 1].amount
  }

  lemma AmountAppend(s: seq<Income>, i: Income)
    ensures AmountSum(s + [i]) == AmountSum(s) + i.amount
  {
    assert (s + [i])[..|s|] == s;
  }

  lemma {:induction false} AmountConcat(a: seq<Income>, b: seq<Income>)
    ensures AmountSum(a + b) == AmountSum(a) + AmountSum(b)
  {
    if b == [] {
      assert a + b == a;
    } else {
      assert (a + b)[..|a + b| - 1] == a + b[..|b| - 1];
      AmountConcat(a, b[..|b| - 1]);
    }
  }

  predicate AllTo(s: seq<Income>, wallet: Address) { forall i :: 0 <= i < |s| ==> s[i].deposit == wallet }

  /** One row for each counted notification, with the time and lt of its message. */
  function RowOf(book: Book, wallet: Address, o: OutMsg, hash: Hash): seq<Income> {
    var v := Judge(book, wallet, o);
    if v.Counted? then [Income(wallet, o.lt, o.utime, v.amount, hash)] else []
  }

  /** A notification to the owner whose sender is not of the book. */
  predicate Foreign(book: Book, wallet: Address, o: OutMsg) {
    && o.Notification? && (o.sender.Some? ==> o.sender.value !in book)
    && o.dst.Some? && wallet in book && book[wallet].owner == o.dst
  }

  /** Exactly these leave a row, of the wallet, with the lt, time and amount of the message and the hash of its
      transaction; what is no notification, or one to somebody else than the owner, is unrecognised; a notification of a
      sender of the book is passed over. */
  lemma RowOfMessage(book: Book, wallet: Address, o: OutMsg, hash: Hash)
    ensures if Foreign(book, wallet, o) then
        var rows := RowOf(book, wallet, o, hash);
        && |rows| == 1 && rows[0].deposit == wallet && rows[0].lt == o.lt && rows[0].utime == o.utime
        && rows[0].amount == o.amount && rows[0].txHash == hash
      else RowOf(book, wallet, o, hash) == []
    ensures Judge(book, wallet, o) == Unrecognised <==>
      || !o.Notification?
      || ((o.sender.Some? ==> o.sender.value !in book)
          && o.dst.Some? && wallet in book && book[wallet].owner.Some? && book[wallet].owner != o.dst)
    ensures Judge(book, wallet, o) == Wrong <==>
      && o.Notification? && (o.sender.Some? ==> o.sender.value !in book)
      && (o.dst.None? || wallet !in book || book[wallet].owner.None?)
  {
  }

  function RowsOf(book: Book, wallet: Address, outs: seq<OutMsg>, hash: Hash): seq<Income> {
    if outs == [] then []
    else RowsOf(book, wallet, outs[..|outs| - 1], hash) + RowOf(book, wallet, outs[|outs| - 1], hash)
  }

  lemma RowAmount(book: Book, wallet: Address, o: OutMsg, hash: Hash)
    ensures var v := Judge(book, wallet, o);
      AmountSum(RowOf(book, wallet, o, hash)) == if v.Counted? then v.amount else 0
    ensures AllTo(RowOf(book, wallet, o, hash), wallet)
  {
    var row := RowOf(book, wallet, o, hash);
    if row != [] { assert row[..0] == []; }
  }

  lemma AllToConcat(a: seq<Income>, b: seq<Income>, wallet: Address)
    requires AllTo(a, wallet) && AllTo(b, wallet)
    ensures AllTo(a + b, wallet)
  {
  }

  lemma {:induction false} RowsAddUp(book: Book, wallet: Address, outs: seq<OutMsg>, hash: Hash)
    ensures AmountSum(RowsOf(book, wallet, outs, hash)) == CountedSum(book, wallet, outs)
    ensures AllTo(RowsOf(book, wallet, outs, hash), wallet)
  {
    if outs != [] {
      var rows, row := RowsOf(book, wallet, outs[..|outs| - 1], hash), RowOf(book, wallet, outs[|outs| - 1], hash);
      RowsAddUp(book, wallet, outs[..|outs| - 1], hash);
      RowAmount(book, wallet, outs[|outs| - 1], hash);
      AmountConcat(rows, row);
      AllToConcat(rows, row, wallet);
    }
  }

  method ProcessJettonDepositOutMsgs(book: Book, wallet: Address, tx: Tx)
    returns (ok: bool, incomes: seq<Income>, known: int, unknown: bool)
    ensures ok <==> NoneWrong(book, wallet, tx.outs)
    ensures ok ==> incomes == RowsOf(book, wallet, tx.outs, tx.hash) && known == CountedSum(book, wallet, tx.outs)
    ensures ok ==> (unknown <==> SomeUnrecognised(book, wallet, tx.outs))
  {
    ok, incomes, known, unknown := true, [], 0, false;
    for i := 0 to |tx.outs|
      invariant NoneWrong(book, wallet, tx.outs[..i])
      invariant incomes == RowsOf(book, wallet, tx.outs[..i], tx.hash)
      invariant known == CountedSum(book, wallet, tx.outs[..i])
      invariant unknown <==> SomeUnrecognised(book, wallet, tx.outs[..i])
    {
      var m := tx.outs[i];
      NextOut(book, wallet, tx.outs, i);
      NextRow(book, wallet, tx.outs, i, tx.hash);
      if !m.Notification? {
        unknown := true;
        continue;
      }
      if Known(book, m.sender) { continue; }
      if m.dst.None? { return false, incomes, known, unknown; }
      var owner := OwnerOf(book, wallet);
      if owner.None? { return false, incomes, known, unknown; }
      if m.dst != owner {
        unknown := true;
        continue;
      }
      incomes := incomes + [Income(wallet, m.lt, m.utime, m.amount, tx.hash)];
      known := known + m.amount;
    }
    assert tx.outs[..|tx.outs|] == tx.outs;
  }

  lemma NextRow(book: Book, wallet: Address, outs: seq<OutMsg>, i: nat, hash: Hash)
    requires i < |outs|
    ensures RowsOf(book, wallet, outs[..i + 1], hash)
         == RowsOf(book, wallet, outs[..i], hash) + RowOf(book, wallet, outs[i], hash)
  {
    assert outs[..i + 1][..i] == outs[..i];
  }

  lemma NextOut(book: Book, wallet: Address, outs: seq<OutMsg>, i: nat)
    requires i < |outs|
    ensures var v := Judge(book, wallet, outs[i]);
      && CountedSum(book, wallet, outs[..i + 1])
         == CountedSum(book, wallet, outs[..i]) + (if v.Counted? then v.amount else 0)
      && (NoneWrong(book, wallet, outs[..i + 1]) <==> NoneWrong(book, wallet, outs[..i]) && v != Wrong)
      && (SomeUnrecognised(book, wallet, outs[..i + 1])
          <==> SomeUnrecognised(book, wallet, outs[..i]) || v == Unrecognised)
      && (NoneWrong(book, wallet, outs) ==> v != Wrong)
  {
    var before, after := outs[..i], outs[..i + 1];
    assert after[..i] == before && after[i] == outs[i];
    assert forall j :: 0 <= j < i ==> after[j] == before[j];
  }

  // ---------------------------------------------------------------- the in message

  /** The scanner stops at a successful transfer that sent nothing. */
  predicate InWrong(tx: Tx) { tx.inMsg.TransferIn? && tx.success && tx.outs == [] }

  function WithdrawnBy(tx: Tx): int { if tx.inMsg.TransferIn? && tx.success then tx.inMsg.amount else 0 }

  function WithdrawalOf(book: Book, tx: Tx): seq<InternalWithdrawal> {
    if !tx.inMsg.TransferIn? then []
    else if !tx.success then [InternalWithdrawal(tx.inMsg.lt, tx.inMsg.amount, tx.inMsg.comment, true)]
    else if tx.inMsg.destination.Some? && WalletTypeOf(book, tx.inMsg.destination.value) == Some(TonHot)
    then [InternalWithdrawal(tx.inMsg.lt, tx.inMsg.amount, tx.inMsg.comment, false)]
    else []
  }

  predicate ToHot(book: Book, tx: Tx) {
    && tx.inMsg.TransferIn? && tx.inMsg.destination.Some? && tx.inMsg.destination.value in book
    && book[tx.inMsg.destination.value].wtype == TonHot
  }

  /** A transfer request that failed, or that went to the hot wallet, is told once, by its memo, lt and amount, and as a
      failure exactly when it failed; nothing else is told. */
  predicate Tells(book: Book, tx: Tx, ws: seq<InternalWithdrawal>) {
    if tx.inMsg.TransferIn? && (tx.success ==> ToHot(book, tx)) then
      && |ws| == 1 && ws[0].memo == tx.inMsg.comment && ws[0].lt == tx.inMsg.lt && ws[0].amount == tx.inMsg.amount
      && (ws[0].isFailed <==> !tx.success)
    else ws == []
  }

  lemma WithdrawalIsTold(book: Book, tx: Tx)
    ensures Tells(book, tx, WithdrawalOf(book, tx))
  {
  }

  method ProcessJettonDepositInMsg(book: Book, tx: Tx)
    returns (ok: bool, withdrawals: seq<InternalWithdrawal>, total: int, unknown: bool)
    ensures ok <==> !InWrong(tx)
    ensures ok <==> (tx.inMsg.TransferIn? && tx.success ==> tx.outs != [])
    ensures ok ==> withdrawals == WithdrawalOf(book, tx) && total == WithdrawnBy(tx)
    ensures ok ==> (unknown <==> !tx.inMsg.TransferIn?)
    ensures ok ==> Tells(book, tx, withdrawals)
  {
    ok, withdrawals, total, unknown := true, [], 0, false;
    if tx.inMsg.NoIn? || tx.inMsg.ExternalIn? { return true, [], 0, true; }
    if !tx.inMsg.TransferIn? { return true, [], 0, true; }
    var t := tx.inMsg;
    if !tx.success { return true, [InternalWithdrawal(t.lt, t.amount, t.comment, true)], 0, false; }
    if |tx.outs| < 1 { return false, [], 0, true; }
    total := total + t.amount;
    if t.destination.None? || WalletTypeOf(book, t.destination.value) != Some(TonHot) { return true, [], total, false; }
    withdrawals := [InternalWithdrawal(t.lt, t.amount, t.comment, false)];
  }

  // ---------------------------------------------------------------- one block

  predicate TxOk(book: Book, wallet: Address, tx: Tx) { NoneWrong(book, wallet, tx.outs) && !InWrong(tx) }

  predicate TxUnknown(book: Book, wallet: Address, tx: Tx) {
    !tx.inMsg.TransferIn? || SomeUnrecognised(book, wallet, tx.outs)
  }

  predicate AllOk(book: Book, wallet: Address, txs: seq<Tx>) {
    forall i :: 0 <= i < |txs| ==> TxOk(book, wallet, txs[i])
  }

  predicate SomeUnknown(book: Book, wallet: Address, txs: seq<Tx>) {
    exists i :: 0 <= i < |txs| && TxUnknown(book, wallet, txs[i])
  }

  function KnownIn(book: Book, wallet: Address, txs: seq<Tx>): int {
    if txs == [] then 0
    else KnownIn(book, wallet, txs[..|txs| - 1]) + CountedSum(book, wallet, txs[|txs| - 1].outs)
  }

  function WithdrawnIn(txs: seq<Tx>): int {
    if txs == [] then 0 else WithdrawnIn(txs[..|txs| - 1]) + WithdrawnBy(txs[|txs| - 1])
  }

  function WithdrawalsIn(book: Book, txs: seq<Tx>): seq<InternalWithdrawal> {
    if txs == [] then [] else WithdrawalsIn(book, txs[..|txs| - 1]) + WithdrawalOf(book, txs[|txs| - 1])
  }

  function CalculateJettonAmounts(prev: int, current: int, known: int, withdrawn: int): int {
    current - prev + withdrawn - known
  }

  function KnownRows(book: Book, wallet: Address, txs: seq<Tx>): seq<Income> {
    if txs == [] then []
    else KnownRows(book, wallet, txs[..|txs| - 1]) + RowsOf(book, wallet, txs[|txs| - 1].outs, txs[|txs| - 1].hash)
  }

  function UnknownTxs(book: Book, wallet: Address, txs: seq<Tx>): seq<Tx> {
    if txs == [] then []
    else UnknownTxs(book, wallet, txs[..|txs| - 1])
         + if TxUnknown(book, wallet, txs[|txs| - 1]) then [txs[|txs| - 1]] else []
  }

  /** Known rows are those of the notifications of foreign senders in any transaction, each with the hash of its own. */
  predicate NotificationRow(book: Book, wallet: Address, txs: seq<Tx>, x: Income) {
    exists i :: 0 <= i < |txs| && RowFrom(book, wallet, txs[i], x)
  }

  predicate RowFrom(book: Book, wallet: Address, tx: Tx, x: Income) {
    exists j :: 0 <= j < |tx.outs| && Foreign(book, wallet, tx.outs[j]) && x.deposit == wallet
                && x.lt == tx.outs[j].lt && x.utime == tx.outs[j].utime && x.amount == tx.outs[j].amount
                && x.txHash == tx.hash
  }

  lemma {:induction false} RowsFromTx(book: Book, wallet: Address, tx: Tx, n: nat)
    requires n <= |tx.outs|
    ensures forall x :: x in RowsOf(book, wallet, tx.outs[..n], tx.hash)
                   <==> RowFrom(book, wallet, tx.(outs := tx.outs[..n]), x)
  {
    if n > 0 {
      RowsFromTx(book, wallet, tx, n - 1);
      RowOfMessage(book, wallet, tx.outs[n - 1], tx.hash);
      var before, now := tx.outs[..n - 1], tx.outs[..n];
      assert now[..n - 1] == before && now[n - 1] == tx.outs[n - 1];
      forall x ensures RowFrom(book, wallet, tx.(outs := now), x)
                  <==> RowFrom(book, wallet, tx.(outs := before), x) || x in RowOf(book, wallet, now[n - 1], tx.hash) {
        assert forall j :: 0 <= j < n - 1 ==> now[j] == before[j];
      }
    }
  }

  lemma {:induction false} KnownRowsAreNotifications(book: Book, wallet: Address, txs: seq<Tx>)
    ensures forall x :: x in KnownRows(book, wallet, txs) <==> NotificationRow(book, wallet, txs, x)
  {
    if txs != [] {
      var n := |txs| - 1;
      KnownRowsAreNotifications(book, wallet, txs[..n]);
      RowsFromTx(book, wallet, txs[n], |txs[n].outs|);
      assert txs[n].outs[..|txs[n].outs|] == txs[n].outs && txs[n].(outs := txs[n].outs) == txs[n];
      forall x ensures NotificationRow(book, wallet, txs, x)
                  <==> NotificationRow(book, wallet, txs[..n], x) || RowFrom(book, wallet, txs[n], x) {
        assert forall i :: 0 <= i < n ==> txs[i] == txs[..n][i];
      }
    }
  }

  /** A transaction without a transfer request, or with a message out that is no notification or is for another. */
  predicate SaysUnknown(book: Book, wallet: Address, tx: Tx) {
    || !tx.inMsg.TransferIn?
    || exists j :: 0 <= j < |tx.outs| && !Passed(book, wallet, tx.outs[j])
  }

  /** A notification of the book's own, or of a foreign sender to the owner, or one the scanner stops at. */
  predicate Passed(book: Book, wallet: Address, o: OutMsg) {
    && o.Notification?
    && (|| Foreign(book, wallet, o) || (o.sender.Some? && o.sender.value in book)
        || o.dst.None? || wallet !in book || book[wallet].owner.None?)
  }

  /** The unknown transactions are exactly these, in the order of the block. */
  lemma {:induction false} UnknownTxsAre(book: Book, wallet: Address, txs: seq<Tx>)
    ensures forall i :: 0 <= i < |txs| && SaysUnknown(book, wallet, txs[i]) ==> UnknownAt(book, wallet, txs, i)
    ensures forall x :: x in UnknownTxs(book, wallet, txs) ==> x in txs && SaysUnknown(book, wallet, x)
  {
    if txs != [] {
      var n := |txs| - 1;
      var front := txs[..n];
      UnknownTxsAre(book, wallet, front);
      forall j | 0 <= j < |txs[n].outs|
        ensures Judge(book, wallet, txs[n].outs[j]) == Unrecognised <==> !Passed(book, wallet, txs[n].outs[j])
      {
        RowOfMessage(book, wallet, txs[n].outs[j], 0);
      }
      forall i | 0 <= i <= n && SaysUnknown(book, wallet, txs[i]) ensures UnknownAt(book, wallet, txs, i) {
        if i < n { assert front[..i] == txs[..i] && front[i] == txs[i] && UnknownAt(book, wallet, front, i); }
      }
    }
  }

  predicate UnknownAt(book: Book, wallet: Address, txs: seq<Tx>, i: nat)
    requires i < |txs|
  {
    var k := |UnknownTxs(book, wallet, txs[..i])|;
    k < |UnknownTxs(book, wallet, txs)| && UnknownTxs(book, wallet, txs)[k] == txs[i]
  }

  function RowAt(wallet: Address, tx: Tx, amount: int): Income { Income(wallet, tx.lt, tx.now, amount, tx.hash) }

  function ZeroRows(wallet: Address, txs: seq<Tx>): seq<Income> {
    seq(|txs|, i requires 0 <= i < |txs| => RowAt(wallet, txs[i], 0))
  }

  /** Every unknown transaction leaves a row of amount zero, and the first one a row with the whole unknown amount. */
  function UnknownRows(wallet: Address, txs: seq<Tx>, amount: int): seq<Income> {
    ZeroRows(wallet, txs) + if txs == [] then [] else [RowAt(wallet, txs[0], amount)]
  }

  /** A row of the wallet with the lt, the time and the hash of the transaction. */
  predicate IsRowOf(x: Income, wallet: Address, tx: Tx) {
    x.deposit == wallet && x.lt == tx.lt && x.utime == tx.now && x.txHash == tx.hash
  }

  method ConvertUnknownJettonTxs(txs: seq<Tx>, wallet: Address, amount: int) returns (incomes: seq<Income>)
    ensures incomes == UnknownRows(wallet, txs, amount)
    ensures |incomes| == if txs == [] then 0 else |txs| + 1
    ensures forall i :: 0 <= i < |txs| ==> IsRowOf(incomes[i], wallet, txs[i]) && incomes[i].amount == 0
    ensures txs != [] ==> IsRowOf(incomes[|txs|], wallet, txs[0]) && incomes[|txs|].amount == amount
  {
    incomes := [];
    for i := 0 to |txs|
      invariant incomes == ZeroRows(wallet, txs[..i])
    {
      assert ZeroRows(wallet, txs[..i + 1]) == ZeroRows(wallet, txs[..i]) + [RowAt(wallet, txs[i], 0)];
      incomes := incomes + [Income(wallet, txs[i].lt, txs[i].now, 0, txs[i].hash)];
    }
    assert txs[..|txs|] == txs;
    if |txs| > 0 {
      incomes := incomes + [Income(wallet, txs[0].lt, txs[0].now, amount, txs[0].hash)];
    }
  }

  lemma {:induction false} ZeroRowsAddUp(wallet: Address, txs: seq<Tx>)
    ensures AmountSum(ZeroRows(wallet, txs)) == 0
  {
    if txs != [] {
      var k := |txs| - 1;
      ZeroRowsAddUp(wallet, txs[..k]);
      assert ZeroRows(wallet, txs) == ZeroRows(wallet, txs[..k]) + [RowAt(wallet, txs[k], 0)];
      AmountAppend(ZeroRows(wallet, txs[..k]), RowAt(wallet, txs[k], 0));
    }
  }

  /** The rows of unknown transactions add up to the whole unknown amount, whenever there is such a transaction. */
  lemma UnknownRowsAddUp(wallet: Address, txs: seq<Tx>, amount: int)
    ensures AmountSum(UnknownRows(wallet, txs, amount)) == if txs == [] then 0 else amount
    ensures AllTo(UnknownRows(wallet, txs, amount), wallet)
  {
    ZeroRowsAddUp(wallet, txs);
    if txs != [] {
      AmountAppend(ZeroRows(wallet, txs), RowAt(wallet, txs[0], amount));
    } else {
      assert UnknownRows(wallet, txs, amount) == ZeroRows(wallet, txs);
    }
  }

  lemma {:induction false} KnownRowsAddUp(book: Book, wallet: Address, txs: seq<Tx>)
    ensures AmountSum(KnownRows(book, wallet, txs)) == KnownIn(book, wallet, txs)
    ensures AllTo(KnownRows(book, wallet, txs), wallet)
  {
    if txs != [] {
      var front, last := txs[..|txs| - 1], txs[|txs| - 1];
      KnownRowsAddUp(book, wallet, front);
      RowsAddUp(book, wallet, last.outs, last.hash);
      AmountConcat(KnownRows(book, wallet, front), RowsOf(book, wallet, last.outs, last.hash));
    }
  }

  lemma {:induction false} SomeIsUnknown(book: Book, wallet: Address, txs: seq<Tx>)
    ensures UnknownTxs(book, wallet, txs) != [] <==> SomeUnknown(book, wallet, txs)
  {
    if txs != [] {
      var k := |txs| - 1;
      SomeIsUnknown(book, wallet, txs[..k]);
      NextUnknown(book, wallet, txs, k);
      assert txs[..k + 1] == txs;
    }
  }

  /** All rows of one block: those of the notifications, and, when something came in unsaid, those of the unknown
      transactions. */
  function BlockRows(book: Book, wallet: Address, txs: seq<Tx>, prev: int, current: int): seq<Income> {
    var unknown := CalculateJettonAmounts(prev, current, KnownIn(book, wallet, txs), WithdrawnIn(txs));
    KnownRows(book, wallet, txs)
    + if unknown > 0 then UnknownRows(wallet, UnknownTxs(book, wallet, txs), unknown) else []
  }

  lemma BlockRowsAddUp(book: Book, wallet: Address, txs: seq<Tx>, prev: int, current: int)
    ensures AmountSum(BlockRows(book, wallet, txs, prev, current)) == RecordedIn(book, wallet, txs, prev, current)
    ensures AllTo(BlockRows(book, wallet, txs, prev, current), wallet)
  {
    var unknown := CalculateJettonAmounts(prev, current, KnownIn(book, wallet, txs), WithdrawnIn(txs));
    var us := UnknownTxs(book, wallet, txs);
    KnownRowsAddUp(book, wallet, txs);
    UnknownRowsAddUp(wallet, us, unknown);
    SomeIsUnknown(book, wallet, txs);
    if unknown > 0 {
      AmountConcat(KnownRows(book, wallet, txs), UnknownRows(wallet, us, unknown));
    } else {
      assert BlockRows(book, wallet, txs, prev, current) == KnownRows(book, wallet, txs);
    }
  }

  /** What the rows of one block add up to. */
  function RecordedIn(book: Book, wallet: Address, txs: seq<Tx>, prev: int, current: int): int {
    var known := KnownIn(book, wallet, txs);
    var unknown := CalculateJettonAmounts(prev, current, known, WithdrawnIn(txs));
    known + if unknown > 0 && SomeUnknown(book, wallet, txs) then unknown else 0
  }

  method ProcessJettonDepositWalletTXs(book: Book, wallet: Address, txs: seq<Tx>, prev: int, current: int)
    returns (ok: bool, e: Events)
    ensures ok <==> AllOk(book, wallet, txs)
    ensures ok ==> e == NO_EVENTS.(extIncomes := BlockRows(book, wallet, txs, prev, current),
                                   internals := WithdrawalsIn(book, txs))
  {
    var unknownTransactions: seq<Tx> := [];
    e, ok := NO_EVENTS, true;
    var knownIncomeAmount, totalWithdrawalsAmount := 0, 0;
    for i := 0 to |txs|
      invariant AllOk(book, wallet, txs[..i])
      invariant knownIncomeAmount == KnownIn(book, wallet, txs[..i])
      invariant totalWithdrawalsAmount == WithdrawnIn(txs[..i])
      invariant e == NO_EVENTS.(extIncomes := KnownRows(book, wallet, txs[..i]),
                                internals := WithdrawalsIn(book, txs[..i]))
      invariant unknownTransactions == UnknownTxs(book, wallet, txs[..i])
    {
      var tx := txs[i];
      NextTx(book, wallet, txs, i);
      NextRows(book, wallet, txs, i);
      var incomes, known, outUnknown;
      ok, incomes, known, outUnknown := ProcessJettonDepositOutMsgs(book, wallet, tx);
      if !ok { return; }
      knownIncomeAmount := knownIncomeAmount + known;
      e := e.(extIncomes := e.extIncomes + incomes);
      var withdrawals, total, inUnknown;
      ok, withdrawals, total, inUnknown := ProcessJettonDepositInMsg(book, tx);
      if !ok { return; }
      totalWithdrawalsAmount := totalWithdrawalsAmount + total;
      e := e.(internals := e.internals + withdrawals);
      if outUnknown || inUnknown { unknownTransactions := unknownTransactions + [tx]; }
    }
    assert txs[..|txs|] == txs;
    var unknownIncomeAmount := CalculateJettonAmounts(prev, current, knownIncomeAmount, totalWithdrawalsAmount);
    if unknownIncomeAmount > 0 {
      var incomes := ConvertUnknownJettonTxs(unknownTransactions, wallet, unknownIncomeAmount);
      e := e.(extIncomes := e.extIncomes + incomes);
    }
  }

  lemma NextRows(book: Book, wallet: Address, txs: seq<Tx>, i: nat)
    requires i < |txs|
    ensures KnownRows(book, wallet, txs[..i + 1])
         == KnownRows(book, wallet, txs[..i]) + RowsOf(book, wallet, txs[i].outs, txs[i].hash)
    ensures UnknownTxs(book, wallet, txs[..i + 1])
         == UnknownTxs(book, wallet, txs[..i]) + if TxUnknown(book, wallet, txs[i]) then [txs[i]] else []
  {
    assert txs[..i + 1][..i] == txs[..i];
  }

  lemma NextTx(book: Book, wallet: Address, txs: seq<Tx>, i: nat)
    requires i < |txs|
    ensures KnownIn(book, wallet, txs[..i + 1])
         == KnownIn(book, wallet, txs[..i]) + CountedSum(book, wallet, txs[i].outs)
    ensures WithdrawnIn(txs[..i + 1]) == WithdrawnIn(txs[..i]) + WithdrawnBy(txs[i])
    ensures WithdrawalsIn(book, txs[..i + 1]) == WithdrawalsIn(book, txs[..i]) + WithdrawalOf(book, txs[i])
    ensures AllOk(book, wallet, txs[..i + 1]) <==> AllOk(book, wallet, txs[..i]) && TxOk(book, wallet, txs[i])
    ensures SomeUnknown(book, wallet, txs[..i + 1])
       <==> SomeUnknown(book, wallet, txs[..i]) || TxUnknown(book, wallet, txs[i])
    ensures AllOk(book, wallet, txs) ==> TxOk(book, wallet, txs[i])
  {
    assert txs[..i + 1][..i] == txs[..i];
    NextUnknown(book, wallet, txs, i);
  }

  lemma NextUnknown(book: Book, wallet: Address, txs: seq<Tx>, i: nat)
    requires i < |txs|
    ensures AllOk(book, wallet, txs[..i + 1]) <==> AllOk(book, wallet, txs[..i]) && TxOk(book, wallet, txs[i])
    ensures SomeUnknown(book, wallet, txs[..i + 1])
       <==> SomeUnknown(book, wallet, txs[..i]) || TxUnknown(book, wallet, txs[i])
  {
    var before, after := txs[..i], txs[..i + 1];
    assert after[i] == txs[i] && forall j :: 0 <= j < i ==> after[j] == before[j];
    if SomeUnknown(book, wallet, before) {
      var j :| 0 <= j < |before| && TxUnknown(book, wallet, before[j]);
      assert TxUnknown(book, wallet, after[j]);
    }
  }

  // ---------------------------------------------------------------- wallets that keep the standard

  /** What one transaction does to the balance: section "Jetton wallet smart contract" of TEP-74, and burning, which
      lowers the balance without a transfer. */
  datatype Effect = Received(amount: nat) | Spent(amount: nat) | Burnt(amount: nat) | Nothing

  function Delta(f: Effect): int {
    match f
    case Received(a) => a
    case Spent(a) => 0 - a
    case Burnt(a) => 0 - a
    case Nothing => 0
  }

  predicate NoNotifications(outs: seq<OutMsg>) { forall i :: 0 <= i < |outs| ==> !outs[i].Notification? }

  predicate NotifiesAt(book: Book, wallet: Address, outs: seq<OutMsg>, amount: nat, n: nat) {
    forall i :: 0 <= i < |outs| ==>
      if i == n then outs[i].Notification? && outs[i].amount == amount && outs[i].dst == OwnerOf(book, wallet)
      else !outs[i].Notification?
  }

  /** At most one notification, of the received amount, to the owner. */
  predicate Notifies(book: Book, wallet: Address, outs: seq<OutMsg>, amount: nat) {
    exists n :: 0 <= n <= |outs| && NotifiesAt(book, wallet, outs, amount, n)
  }

  /** Transfers take their amount and send it on, or fail and take nothing; other internal messages bring an amount,
      a transfer or its bounce, with or without a notification, or do nothing. */
  predicate Conforms(book: Book, wallet: Address, tx: Tx, f: Effect) {
    match f
    case Spent(a) =>
      tx.inMsg.TransferIn? && tx.success && a == tx.inMsg.amount && tx.outs != [] && NoNotifications(tx.outs)
    case Received(a) => tx.inMsg.OtherIn? && Notifies(book, wallet, tx.outs, a)
    case Burnt(_) => tx.inMsg.OtherIn? && NoNotifications(tx.outs)
    case Nothing => (tx.inMsg.TransferIn? ==> !tx.success) && NoNotifications(tx.outs)
  }

  predicate AllConform(book: Book, wallet: Address, txs: seq<Tx>, fs: seq<Effect>) {
    |fs| == |txs| && forall i :: 0 <= i < |txs| ==> Conforms(book, wallet, txs[i], fs[i])
  }

  function DeltaSum(fs: seq<Effect>): int {
    if fs == [] then 0 else DeltaSum(fs[..|fs| - 1]) + Delta(fs[|fs| - 1])
  }

  function BurntSum(fs: seq<Effect>): nat {
    if fs == [] then 0
    else BurntSum(fs[..|fs| - 1]) + if fs[|fs| - 1].Burnt? then fs[|fs| - 1].amount else 0
  }

  function IncomeSum(fs: seq<Effect>): nat {
    if fs == [] then 0
    else IncomeSum(fs[..|fs| - 1]) + if fs[|fs| - 1].Received? then fs[|fs| - 1].amount else 0
  }

  lemma {:induction false} NoneCounted(book: Book, wallet: Address, outs: seq<OutMsg>)
    requires NoNotifications(outs)
    ensures CountedSum(book, wallet, outs) == 0 && NoneWrong(book, wallet, outs)
  {
    if outs != [] { NoneCounted(book, wallet, outs[..|outs| - 1]); }
  }

  /** A wallet reports at most what it received. */
  lemma {:induction false} CountedIsReceived(book: Book, wallet: Address, outs: seq<OutMsg>, amount: nat, n: nat)
    requires OwnerOf(book, wallet).Some? && n <= |outs|
    requires NotifiesAt(book, wallet, outs, amount, n)
    ensures 0 <= CountedSum(book, wallet, outs) <= amount && NoneWrong(book, wallet, outs)
  {
    if n >= |outs| {
      NoneCounted(book, wallet, outs);
    } else if n == |outs| - 1 {
      NoneCounted(book, wallet, outs[..|outs| - 1]);
    } else {
      CountedIsReceived(book, wallet, outs[..|outs| - 1], amount, n);
    }
  }

  lemma ConformingTx(book: Book, wallet: Address, tx: Tx, f: Effect)
    requires OwnerOf(book, wallet).Some? && Conforms(book, wallet, tx, f)
    ensures TxOk(book, wallet, tx)
    ensures 0 <= CountedSum(book, wallet, tx.outs) <= if f.Received? then f.amount else 0
    ensures WithdrawnBy(tx) == if f.Spent? then f.amount else 0
    ensures f.Received? ==> TxUnknown(book, wallet, tx)
  {
    if f.Received? {
      var n :| 0 <= n <= |tx.outs| && NotifiesAt(book, wallet, tx.outs, f.amount, n);
      CountedIsReceived(book, wallet, tx.outs, f.amount, n);
    } else {
      NoneCounted(book, wallet, tx.outs);
    }
  }

  /** The sums of a block: what notifications told is part of what came in, and anything that came in shows up in an
      unknown transaction, since no incoming transfer is a transfer request. */
  lemma {:induction false} BlockSums(book: Book, wallet: Address, txs: seq<Tx>, fs: seq<Effect>)
    requires OwnerOf(book, wallet).Some? && AllConform(book, wallet, txs, fs)
    ensures AllOk(book, wallet, txs)
    ensures 0 <= KnownIn(book, wallet, txs) <= IncomeSum(fs)
    ensures DeltaSum(fs) == IncomeSum(fs) - WithdrawnIn(txs) - BurntSum(fs)
    ensures IncomeSum(fs) > 0 ==> SomeUnknown(book, wallet, txs)
  {
    if txs != [] {
      var k := |txs| - 1;
      BlockSums(book, wallet, txs[..k], fs[..k]);
      ConformingTx(book, wallet, txs[k], fs[k]);
      assert txs[..k + 1] == txs;
      NextTx(book, wallet, txs, k);
    }
  }

  /** What came in without being told. */
  function Silent(book: Book, wallet: Address, txs: seq<Tx>, fs: seq<Effect>): int {
    IncomeSum(fs) - KnownIn(book, wallet, txs)
  }

  function Max(a: int, b: int): int { if a < b then b else a }

  /** One block, burning included: the recorded amount is the difference of the balances plus what transfers took,
      and it is too high by exactly the burnt amount that silent incomes do not cover. */
  lemma BlockReconciles(book: Book, wallet: Address, txs: seq<Tx>, fs: seq<Effect>, prev: int, current: int)
    requires OwnerOf(book, wallet).Some? && AllConform(book, wallet, txs, fs) && current == prev + DeltaSum(fs)
    ensures AllOk(book, wallet, txs)
    ensures RecordedIn(book, wallet, txs, prev, current)
         == current - prev + WithdrawnIn(txs) + Max(0, BurntSum(fs) - Silent(book, wallet, txs, fs))
    ensures RecordedIn(book, wallet, txs, prev, current) == current - prev + WithdrawnIn(txs)
       <==> BurntSum(fs) <= Silent(book, wallet, txs, fs)
  {
    BlockSums(book, wallet, txs, fs);
  }

  // ---------------------------------------------------------------- a run of blocks

  /** One block of the wallet's chain; a block without a transaction of the wallet is not looked at and has no
      effect. */
  datatype Block = Block(txs: seq<Tx>, effects: seq<Effect>)

  function BalanceAfter(start: int, blocks: seq<Block>): int {
    if blocks == [] then start
    else BalanceAfter(start, blocks[..|blocks| - 1]) + DeltaSum(blocks[|blocks| - 1].effects)
  }

  /** The scanner reads the balance at each block and at its parent, the block before it. */
  function RecordedOver(book: Book, wallet: Address, start: int, blocks: seq<Block>): int {
    if blocks == [] then 0
    else
      var front, last := blocks[..|blocks| - 1], blocks[|blocks| - 1];
      RecordedOver(book, wallet, start, front)
      + if last.txs == [] then 0
        else RecordedIn(book, wallet, last.txs, BalanceAfter(start, front), BalanceAfter(start, blocks))
  }

  function WithdrawnOver(blocks: seq<Block>): int {
    if blocks == [] then 0 else WithdrawnOver(blocks[..|blocks| - 1]) + WithdrawnIn(blocks[|blocks| - 1].txs)
  }

  /** Conforming to the standard's two handlers: no burning. */
  predicate Standard(book: Book, wallet: Address, b: Block) {
    AllConform(book, wallet, b.txs, b.effects) && forall i :: 0 <= i < |b.effects| ==> !b.effects[i].Burnt?
  }

  lemma {:induction false} NothingBurnt(fs: seq<Effect>)
    requires forall i :: 0 <= i < |fs| ==> !fs[i].Burnt?
    ensures BurntSum(fs) == 0
  {
    if fs != [] { NothingBurnt(fs[..|fs| - 1]); }
  }

  /** Over any run of contiguous blocks the recorded incomes are the final balance less the initial one plus all that
      successful transfers took, with silent incomes, failed transfers and service transfers in any mixture. */
  lemma {:induction false} RunReconciles(book: Book, wallet: Address, start: int, blocks: seq<Block>)
    requires OwnerOf(book, wallet).Some?
    requires forall i :: 0 <= i < |blocks| ==> Standard(book, wallet, blocks[i])
    ensures RecordedOver(book, wallet, start, blocks) == BalanceAfter(start, blocks) - start + WithdrawnOver(blocks)
  {
    if blocks != [] {
      var front, last := blocks[..|blocks| - 1], blocks[|blocks| - 1];
      RunReconciles(book, wallet, start, front);
      BlockSums(book, wallet, last.txs, last.effects);
      NothingBurnt(last.effects);
      BlockReconciles(book, wallet, last.txs, last.effects, BalanceAfter(start, front), BalanceAfter(start, blocks));
    }
  }

  /** Burning breaks the law: a block whose only transaction burns records nothing though the balance fell. */
  lemma BurningBreaksIt(book: Book, wallet: Address, tx: Tx, burnt: nat, prev: int)
    requires OwnerOf(book, wallet).Some? && Conforms(book, wallet, tx, Burnt(burnt)) && burnt > 0
    ensures RecordedIn(book, wallet, [tx], prev, prev - burnt) != (prev - burnt) - prev + WithdrawnIn([tx])
  {
    var fs := [Burnt(burnt)];
    assert fs[..0] == [] && [tx][..0] == [];
    assert DeltaSum([]) == 0 && BurntSum([]) == 0 && IncomeSum([]) == 0;
    assert DeltaSum(fs) == 0 - burnt && BurntSum(fs) == burnt && IncomeSum(fs) == 0;
    BlockReconciles(book, wallet, [tx], fs, prev, prev - burnt);
    BlockSums(book, wallet, [tx], fs);
  }
}
