/** What the scanner reads from one transaction of the hot wallet: which messages its batch named, which of them
    left the wallet, and so what became of every withdrawal. */
module HotWalletScanner {
  import opened Types
  import opened Ledger
  import opened BlockCommit
  import opened Messages
  import opened BatchBuilder
  import opened Protocol
  import opened ProtocolInvariant

  datatype OutMsg = OutMsg(msg: Message, internal: bool, lt: nat)

  // ---------------------------------------------------------------- the incoming side

  predicate AllKeyed(ms: seq<Message>) { forall i :: 0 <= i < |ms| ==> KeyIn(ms[i]).Some? }

  function KeySet(ms: seq<Message>): set<Address> {
    set i | 0 <= i < |ms| && KeyIn(ms[i]).Some? :: KeyIn(ms[i]).value
  }

  /** Valid exactly when every message has a key and no two have the same. */
  method ParseExternalMessage(ms: seq<Message>) returns (valid: bool, keys: set<Address>)
    ensures valid <==> AllKeyed(ms) && Distinct(KeysIn(ms))
    ensures valid ==> keys == KeySet(ms)
  {
    keys, valid := {}, true;
    for i := 0 to |ms|
      invariant AllKeyed(ms[..i]) && Distinct(KeysIn(ms[..i])) && keys == KeySet(ms[..i])
    {
      var key := KeyIn(ms[i]);
      assert forall j :: 0 <= j < i ==> KeysIn(ms[..i])[j] == KeyIn(ms[j]) == KeysIn(ms)[j];
      assert KeysIn(ms)[i] == key;
      if key.None? || key.value in keys { return false, {}; }
      KeysAppend(ms[..i], ms[i]);
      assert ms[..i + 1] == ms[..i] + [ms[i]];
      keys := keys + {key.value};
    }
    assert ms[..|ms|] == ms;
  }

  lemma KeysAppend(ms: seq<Message>, m: Message)
    requires AllKeyed(ms) && Distinct(KeysIn(ms)) && KeyIn(m).Some? && KeyIn(m).value !in KeySet(ms)
    ensures AllKeyed(ms + [m]) && Distinct(KeysIn(ms + [m]))
    ensures KeySet(ms + [m]) == KeySet(ms) + {KeyIn(m).value}
  {
    var all := ms + [m];
    assert all[|ms|] == m;
    assert forall j :: 0 <= j < |ms| ==> all[j] == ms[j];
    assert forall j :: 0 <= j < |ms| ==> KeysIn(all)[j] == KeysIn(ms)[j];
    forall j | 0 <= j < |ms| ensures KeysIn(all)[j] != KeysIn(all)[|ms|] {
      assert KeyIn(ms[j]).value in KeySet(ms);
    }
  }

  // ---------------------------------------------------------------- the outgoing side

  predicate ProxyOk(book: Book, m: Message) {
    && m.body.Wrapped?
    && (IsDepositWallet(book, m.body.inner.dst) ==>
          m.body.inner.body.Transfer? && m.body.inner.body.destination.Some?)
  }

  predicate IsDepositWallet(book: Book, dst: Option<Address>) {
    dst.Some? && WalletTypeOf(book, dst.value) == Some(JettonDeposit)
  }

  predicate OutOk(book: Book, o: OutMsg) {
    && o.internal && o.msg.dst.Some?
    && match WalletTypeOf(book, o.msg.dst.value)
       case Some(JettonHot) => o.msg.body.Transfer? && o.msg.body.destination.Some?
       case Some(JettonOwner) => ProxyOk(book, o.msg)
       case _ => true
  }

  function OutKey(book: Book, o: OutMsg): Address
    requires OutOk(book, o)
  {
    KeyOut(book, o.msg).value
  }

  /** A message that left the wallet for somebody outside is a withdrawal that succeeded. */
  function SuccessOf(u: Uuid, hash: Hash, book: Book, o: OutMsg): seq<ExternalWithdrawal>
    requires OutOk(book, o)
  {
    var kind := WalletTypeOf(book, o.msg.dst.value);
    if kind == None || kind == Some(JettonHot) then [ExternalWithdrawal(u, OutKey(book, o), o.lt, false, hash)] else []
  }

  /** One that left for a proxy with a jetton transfer for a deposit wallet inside confirms that sending. */
  function SendingOf(book: Book, o: OutMsg): seq<SendingConfirmation>
    requires OutOk(book, o)
  {
    if WalletTypeOf(book, o.msg.dst.value) == Some(JettonOwner) && IsDepositWallet(book, o.msg.body.inner.dst)
    then [SendingConfirmation(o.lt, CommentOf(o.msg.body.inner.body.forward))] else []
  }

  predicate AllOk(book: Book, outs: seq<OutMsg>) { forall i :: 0 <= i < |outs| ==> OutOk(book, outs[i]) }

  function Successes(u: Uuid, hash: Hash, book: Book, outs: seq<OutMsg>): seq<ExternalWithdrawal>
    requires AllOk(book, outs)
  {
    if outs == [] then []
    else Successes(u, hash, book, outs[..|outs| - 1]) + SuccessOf(u, hash, book, outs[|outs| - 1])
  }

  function Sendings(book: Book, outs: seq<OutMsg>): seq<SendingConfirmation>
    requires AllOk(book, outs)
  {
    if outs == [] then [] else Sendings(book, outs[..|outs| - 1]) + SendingOf(book, outs[|outs| - 1])
  }

  function OutKeys(book: Book, outs: seq<OutMsg>): set<Address>
    requires AllOk(book, outs)
  {
    set i | 0 <= i < |outs| :: OutKey(book, outs[i])
  }

  predicate ReportsTo(ws: seq<ExternalWithdrawal>, a: Address) { exists i :: 0 <= i < |ws| && ws[i].to == a }

  /** Failed reports for exactly these destinations, one each. */
  predicate FailuresFor(u: Uuid, hash: Hash, ws: seq<ExternalWithdrawal>, missing: set<Address>) {
    && (forall i :: 0 <= i < |ws| ==> ws[i] == ExternalWithdrawal(u, ws[i].to, 0, true, hash) && ws[i].to in missing)
    && (forall i, j :: 0 <= i < j < |ws| ==> ws[i].to != ws[j].to)
    && (forall a :: a in missing ==> ReportsTo(ws, a))
  }

  /** The named destinations that nothing left for; those of the service itself are only logged.  Go visits the map
      in any order. */
  method FailedWithdrawals(book: Book, inKeys: set<Address>, outKeys: set<Address>, u: Uuid, hash: Hash)
    returns (ws: seq<ExternalWithdrawal>)
    ensures FailuresFor(u, hash, ws, inKeys - outKeys - book.Keys)
  {
    ws := [];
    var left := inKeys;
    while left != {}
      invariant left <= inKeys
      invariant FailuresFor(u, hash, ws, inKeys - outKeys - book.Keys - left)
      decreases left
    {
      var a :| a in left;
      var missing := inKeys - outKeys - book.Keys - left;
      if a !in outKeys && WalletTypeOf(book, a).None? {
        FailureAppend(u, hash, ws, missing, a);
        ws := ws + [ExternalWithdrawal(u, a, 0, true, hash)];
        assert inKeys - outKeys - book.Keys - (left - {a}) == missing + {a};
      } else {
        assert inKeys - outKeys - book.Keys - (left - {a}) == missing;
      }
      left := left - {a};
    }
    assert inKeys - outKeys - book.Keys - {} == inKeys - outKeys - book.Keys;
  }

  lemma FailureAppend(u: Uuid, hash: Hash, ws: seq<ExternalWithdrawal>, missing: set<Address>, a: Address)
    requires FailuresFor(u, hash, ws, missing) && a !in missing
    ensures FailuresFor(u, hash, ws + [ExternalWithdrawal(u, a, 0, true, hash)], missing + {a})
  {
    var ws' := ws + [ExternalWithdrawal(u, a, 0, true, hash)];
    forall b | b in missing + {a} ensures ReportsTo(ws', b) {
      if b == a {
        assert ws'[|ws|].to == b;
      } else {
        assert ReportsTo(ws, b);
        var i :| 0 <= i < |ws| && ws[i].to == b;
        assert ws'[i].to == b;
      }
    }
  }

  /** A jetton transfer to a standard address. */
  predicate OrdersTransfer(body: Body) { body.Transfer? && body.destination.Some? }

  method ProcessOutMsg(u: Uuid, hash: Hash, book: Book, o: OutMsg, e0: Events)
    returns (ok: bool, e: Events, key: Address)
    ensures ok <==> OutOk(book, o)
    ensures !ok <==>
      || !o.internal || o.msg.dst.None?
      || (o.msg.dst.value in book && book[o.msg.dst.value].wtype == JettonHot && !OrdersTransfer(o.msg.body))
      || (o.msg.dst.value in book && book[o.msg.dst.value].wtype == JettonOwner
          && (!o.msg.body.Wrapped?
              || (var inner := o.msg.body.inner;
                  && inner.dst.Some? && inner.dst.value in book && book[inner.dst.value].wtype == JettonDeposit
                  && !OrdersTransfer(inner.body))))
    ensures ok ==> key == OutKey(book, o)
    ensures ok ==> e == e0.(externals := e0.externals + SuccessOf(u, hash, book, o),
                            sendings := e0.sendings + SendingOf(book, o))
  {
    e, key, ok := e0, 0, true;
    if !o.internal || o.msg.dst.None? { return false, e, 0; }
    key := o.msg.dst.value;
    var kind := WalletTypeOf(book, key);
    if kind == Some(JettonHot) {
      if !o.msg.body.Transfer? || o.msg.body.destination.None? { return false, e, 0; }
      key := o.msg.body.destination.value;
      e := e.(externals := e.externals + [ExternalWithdrawal(u, key, o.lt, false, hash)]);
    } else if kind == Some(JettonOwner) {
      if !o.msg.body.Wrapped? { return false, e, 0; }
      var inner := o.msg.body.inner;
      if IsDepositWallet(book, inner.dst) {
        if !inner.body.Transfer? || inner.body.destination.None? { return false, e, 0; }
        e := e.(sendings := e.sendings + [SendingConfirmation(o.lt, CommentOf(inner.body.forward))]);
      }
    } else if kind == None {
      e := e.(externals := e.externals + [ExternalWithdrawal(u, key, o.lt, false, hash)]);
    }
  }

  /** The whole report of one transaction that an external message started; not ok where the scanner stops. */
  method ProcessTonHotWalletExternalInMsg(u: Uuid, ins: seq<Message>, outs: seq<OutMsg>, book: Book, hash: Hash)
    returns (ok: bool, e: Events, ghost failed: seq<ExternalWithdrawal>)
    ensures ok <==> AllKeyed(ins) && Distinct(KeysIn(ins)) && AllOk(book, outs)
    ensures ok ==>
      e == NO_EVENTS.(externals := Successes(u, hash, book, outs) + failed, sendings := Sendings(book, outs))
    ensures ok ==> FailuresFor(u, hash, failed, KeySet(ins) - OutKeys(book, outs) - book.Keys)
  {
    e, failed, ok := NO_EVENTS, [], false;
    var inKeys;
    ok, inKeys := ParseExternalMessage(ins);
    if !ok { return; }
    var outKeys: set<Address> := {};
    for i := 0 to |outs|
      invariant AllOk(book, outs[..i]) && outKeys == OutKeys(book, outs[..i])
      invariant e == NO_EVENTS.(externals := Successes(u, hash, book, outs[..i]), sendings := Sendings(book, outs[..i]))
    {
      var o := outs[i];
      assert outs[..i + 1][..i] == outs[..i] && outs[..i + 1][i] == o;
      var key;
      ok, e, key := ProcessOutMsg(u, hash, book, o, e);
      if !ok { return false, e, []; }
      OutKeysAppend(book, outs, i);
      outKeys := outKeys + {key};
    }
    assert outs[..|outs|] == outs;
    var ws := FailedWithdrawals(book, inKeys, outKeys, u, hash);
    e, failed := e.(externals := e.externals + ws), ws;
  }

  lemma OutKeysAppend(book: Book, outs: seq<OutMsg>, i: nat)
    requires i < |outs| && AllOk(book, outs[..i]) && OutOk(book, outs[i])
    ensures AllOk(book, outs[..i + 1])
    ensures OutKeys(book, outs[..i + 1]) == OutKeys(book, outs[..i]) + {OutKey(book, outs[i])}
  {
    var before, after := outs[..i], outs[..i + 1];
    assert after[i] == outs[i];
    assert forall j :: 0 <= j < i ==> after[j] == before[j];
  }

  // ---------------------------------------------------------------- every built batch

  /** The book may have grown since the batch was built, but none of the batch's outside addresses is in it: neither
      a destination of a payment nor the foreign jetton wallet of a service withdrawal. */
  predicate StillOutside(w: World, book: Book, later: Book, b: Withdrawals) {
    && (forall a :: a in book ==> a in later && later[a] == book[a])
    && (forall i :: 0 <= i < |b.external| ==> b.external[i].dest !in later)
    && (forall i :: 0 <= i < |b.service| && b.service[i].jettonMaster.Some? ==>
          w.jettonWallet(w.proxy(b.service[i].subwalletId), b.service[i].jettonMaster.value) !in later)
  }

  /** outs are messages of the batch, each at most once: those with these numbers. */
  predicate SentSubset(b: Withdrawals, outs: seq<OutMsg>, ids: seq<nat>) {
    && |ids| == |outs| && Distinct(ids)
    && (forall i :: 0 <= i < |ids| ==> ids[i] < |b.messages| && outs[i].msg == b.messages[ids[i]] && outs[i].internal)
  }

  /** What one message of a batch shows when it leaves: its key is the key it was filed under, and only a payment is a
      withdrawal, only a jetton deposit's message a sending confirmation. */
  lemma MessageOut(w: World, book: Book, later: Book, b: Withdrawals, k: nat, o: OutMsg, u: Uuid, hash: Hash)
    requires WellBuilt(w, book, b) && WalletsInBook(w, book) && StillOutside(w, book, later, b)
    requires k < |b.messages| && o.msg == b.messages[k] && o.internal
    ensures OutOk(later, o) && OutKey(later, o) == KeyOf(w, b, k)
    ensures var s, t := |b.service|, |b.service| + |b.internal|;
      && SuccessOf(u, hash, later, o)
         == (if k >= t then [ExternalWithdrawal(u, b.external[k - t].dest, o.lt, false, hash)] else [])
      && SendingOf(later, o)
         == (if s <= k < t then [SendingConfirmation(o.lt, UuidText(b.internal[k - s].memo))] else [])
  {
    var s, t := |b.service|, |b.service| + |b.internal|;
    if k < s {
      assert b.messages[..s][k] == b.messages[k];
      ServiceOut(w, book, later, b.service[k], o);
    } else if k < t {
      assert b.messages[s..t][k - s] == b.messages[k];
    } else {
      assert b.messages[t..][k - t] == b.messages[k];
    }
  }

  lemma ServiceOut(w: World, book: Book, later: Book, t: ServiceTask, o: OutMsg)
    requires BuildServiceWithdrawalMessage(w, book, t) == Sends(o.msg) && o.internal && KeyIn(o.msg) == Some(t.from)
    requires forall a :: a in book ==> a in later && later[a] == book[a]
    requires t.jettonMaster.Some? ==> w.jettonWallet(w.proxy(t.subwalletId), t.jettonMaster.value) !in later
    requires WalletTypeOf(book, w.tonHot) == Some(TonHot)
    ensures OutOk(later, o) && OutKey(later, o) == t.from
    ensures WalletTypeOf(later, o.msg.dst.value) == Some(TonDeposit)
         || WalletTypeOf(later, o.msg.dst.value) == Some(JettonOwner)
    ensures SendingOf(later, o) == []
  {
  }

  lemma AllMessagesOut(w: World, book: Book, later: Book, b: Withdrawals, outs: seq<OutMsg>, ids: seq<nat>)
    requires WellBuilt(w, book, b) && WalletsInBook(w, book) && StillOutside(w, book, later, b)
    requires SentSubset(b, outs, ids)
    ensures AllOk(later, outs)
    ensures forall j :: 0 <= j < |outs| ==> OutKey(later, outs[j]) == KeyOf(w, b, ids[j])
  {
    forall j | 0 <= j < |outs| ensures OutOk(later, outs[j]) && OutKey(later, outs[j]) == KeyOf(w, b, ids[j]) {
      MessageOut(w, book, later, b, ids[j], outs[j], 0, 0);
    }
  }

  predicate DistinctOutKeys(book: Book, outs: seq<OutMsg>)
    requires AllOk(book, outs)
  {
    forall i, j :: 0 <= i < j < |outs| ==> OutKey(book, outs[i]) != OutKey(book, outs[j])
  }

  lemma SentKeysDiffer(w: World, book: Book, later: Book, b: Withdrawals, outs: seq<OutMsg>, ids: seq<nat>)
    requires WellBuilt(w, book, b) && WalletsInBook(w, book) && StillOutside(w, book, later, b)
    requires SentSubset(b, outs, ids) && AllOk(later, outs)
    ensures DistinctOutKeys(later, outs)
  {
    AllMessagesOut(w, book, later, b, outs, ids);
    forall i, j | 0 <= i < j < |outs| ensures OutKey(later, outs[i]) != OutKey(later, outs[j]) {
      if ids[i] < ids[j] { KeysDiffer(w, book, b, ids[i], ids[j]); } else { KeysDiffer(w, book, b, ids[j], ids[i]); }
    }
  }

  predicate FromOut(u: Uuid, hash: Hash, book: Book, outs: seq<OutMsg>, x: ExternalWithdrawal)
    requires AllOk(book, outs)
  {
    exists j :: 0 <= j < |outs| && SuccessOf(u, hash, book, outs[j]) == [x]
  }

  /** Each success comes from one message, and each message that is a success is reported. */
  lemma {:induction false} SuccessesOfOuts(u: Uuid, hash: Hash, book: Book, outs: seq<OutMsg>)
    requires AllOk(book, outs) && DistinctOutKeys(book, outs)
    ensures forall i :: 0 <= i < |Successes(u, hash, book, outs)| ==>
      FromOut(u, hash, book, outs, Successes(u, hash, book, outs)[i])
    ensures forall j, x :: 0 <= j < |outs| && SuccessOf(u, hash, book, outs[j]) == [x] ==>
      x in Successes(u, hash, book, outs)
    ensures DistinctKeys(Successes(u, hash, book, outs))
  {
    if outs != [] {
      var front, o := outs[..|outs| - 1], outs[|outs| - 1];
      SuccessesOfOuts(u, hash, book, front);
      var ws, ws' := Successes(u, hash, book, front), Successes(u, hash, book, outs);
      forall i | 0 <= i < |ws'| ensures FromOut(u, hash, book, outs, ws'[i]) {
        if i < |ws| {
          assert FromOut(u, hash, book, front, ws[i]);
          var j :| 0 <= j < |front| && SuccessOf(u, hash, book, front[j]) == [ws[i]];
          assert outs[j] == front[j];
        } else {
          assert SuccessOf(u, hash, book, outs[|outs| - 1]) == [ws'[i]];
        }
      }
      forall i | 0 <= i < |ws| ensures ws[i].to != OutKey(book, o) {
        assert FromOut(u, hash, book, front, ws[i]);
        var j :| 0 <= j < |front| && SuccessOf(u, hash, book, front[j]) == [ws[i]];
        assert outs[j] == front[j];
      }
      forall j, x | 0 <= j < |outs| && SuccessOf(u, hash, book, outs[j]) == [x] ensures x in ws' {
        if j < |front| { assert front[j] == outs[j]; }
      }
    }
  }

  /** A reported payment is a payment of the batch, and it is reported as failed exactly when it did not leave. */
  lemma ReportIsTrue(w: World, book: Book, later: Book, b: Withdrawals, outs: seq<OutMsg>, ids: seq<nat>,
                     u: Uuid, hash: Hash, failed: seq<ExternalWithdrawal>, x: ExternalWithdrawal)
    requires WellBuilt(w, book, b) && WalletsInBook(w, book) && StillOutside(w, book, later, b)
    requires SentSubset(b, outs, ids) && AllOk(later, outs)
    requires FailuresFor(u, hash, failed, KeySet(b.messages) - OutKeys(later, outs) - later.Keys)
    requires x in Successes(u, hash, later, outs) || x in failed
    ensures x.uuid == u && x.txHash == hash
    ensures exists i :: 0 <= i < |b.external| && b.external[i].dest == x.to
    ensures x.isFailed <==> x.to !in OutKeys(later, outs)
    ensures x.isFailed <==> x in failed
  {
    SentKeysDiffer(w, book, later, b, outs, ids);
    if x in Successes(u, hash, later, outs) {
      SuccessIsTrue(w, book, later, b, outs, ids, u, hash, x);
    } else {
      FailureIsTrue(w, book, later, b, x.to);
    }
  }

  lemma SuccessIsTrue(w: World, book: Book, later: Book, b: Withdrawals, outs: seq<OutMsg>, ids: seq<nat>,
                      u: Uuid, hash: Hash, x: ExternalWithdrawal)
    requires WellBuilt(w, book, b) && WalletsInBook(w, book) && StillOutside(w, book, later, b)
    requires SentSubset(b, outs, ids) && AllOk(later, outs) && DistinctOutKeys(later, outs)
    requires x in Successes(u, hash, later, outs)
    ensures x.uuid == u && x.txHash == hash && !x.isFailed && x.to in OutKeys(later, outs)
    ensures exists i :: 0 <= i < |b.external| && b.external[i].dest == x.to
  {
    SuccessesOfOuts(u, hash, later, outs);
    assert FromOut(u, hash, later, outs, x);
    var j :| 0 <= j < |outs| && SuccessOf(u, hash, later, outs[j]) == [x];
    MessageOut(w, book, later, b, ids[j], outs[j], u, hash);
    assert b.external[ids[j] - |b.service| - |b.internal|].dest == x.to;
    assert OutKey(later, outs[j]) in OutKeys(later, outs);
  }

  lemma FailureIsTrue(w: World, book: Book, later: Book, b: Withdrawals, a: Address)
    requires WellBuilt(w, book, b) && StillOutside(w, book, later, b)
    requires a in KeySet(b.messages) && a !in later
    ensures exists i :: 0 <= i < |b.external| && b.external[i].dest == a
  {
    var k := MessageWithKey(w, book, b, a);
    OutsideIsExternal(w, book, later, b, k);
    assert b.external[k - |b.service| - |b.internal|].dest == a;
  }

  lemma MessageWithKey(w: World, book: Book, b: Withdrawals, a: Address) returns (k: nat)
    requires WellBuilt(w, book, b) && a in KeySet(b.messages)
    ensures k < |b.messages| && KeyOf(w, b, k) == a
  {
    k :| 0 <= k < |b.messages| && KeyIn(b.messages[k]).Some? && KeyIn(b.messages[k]).value == a;
    KeyIsIn(w, book, b, k);
  }

  /** Of the keys of a batch only the destinations of payments are unknown to the service. */
  lemma OutsideIsExternal(w: World, book: Book, later: Book, b: Withdrawals, k: nat)
    requires WellBuilt(w, book, b) && StillOutside(w, book, later, b) && k < |b.messages|
    ensures KeyOf(w, b, k) !in later <==> k >= |b.service| + |b.internal|
  {
    if k < |b.service| { assert BuildServiceWithdrawalMessage(w, book, b.service[k]).Sends?; }
  }

  /** A message left under a key exactly when the message filed under that key left. */
  lemma LeftUnderKey(w: World, book: Book, later: Book, b: Withdrawals, outs: seq<OutMsg>, ids: seq<nat>, k: nat)
    requires WellBuilt(w, book, b) && WalletsInBook(w, book) && StillOutside(w, book, later, b)
    requires SentSubset(b, outs, ids) && AllOk(later, outs) && k < |b.messages|
    ensures KeyOf(w, b, k) in OutKeys(later, outs) <==> k in ids
  {
    AllMessagesOut(w, book, later, b, outs, ids);
    if k in ids {
      var j :| 0 <= j < |ids| && ids[j] == k;
      assert OutKey(later, outs[j]) == KeyOf(w, b, k);
    }
    if KeyOf(w, b, k) in OutKeys(later, outs) {
      var j :| 0 <= j < |outs| && OutKey(later, outs[j]) == KeyOf(w, b, k);
      SameKey(w, book, b, ids[j], k);
    }
  }

  lemma SameKey(w: World, book: Book, b: Withdrawals, i: nat, k: nat)
    requires WellBuilt(w, book, b) && i < |b.messages| && k < |b.messages| && KeyOf(w, b, i) == KeyOf(w, b, k)
    ensures i == k
  {
    if i < k { KeysDiffer(w, book, b, i, k); } else if k < i { KeysDiffer(w, book, b, k, i); }
  }

  lemma ReportsToPrefix(xs: seq<ExternalWithdrawal>, ys: seq<ExternalWithdrawal>, x: ExternalWithdrawal)
    requires x in xs || x in ys
    ensures ReportsTo(xs + ys, x.to)
  {
    if n :| 0 <= n < |xs| && xs[n] == x {
      assert (xs + ys)[n].to == x.to;
    } else {
      var m :| 0 <= m < |ys| && ys[m] == x;
      assert (xs + ys)[|xs| + m].to == x.to;
    }
  }

  lemma SentPaymentReported(w: World, book: Book, later: Book, b: Withdrawals, outs: seq<OutMsg>, ids: seq<nat>,
                            u: Uuid, hash: Hash, i: nat) returns (x: ExternalWithdrawal)
    requires WellBuilt(w, book, b) && WalletsInBook(w, book) && StillOutside(w, book, later, b)
    requires SentSubset(b, outs, ids) && AllOk(later, outs) && i < |b.external|
    requires |b.service| + |b.internal| + i in ids
    ensures x in Successes(u, hash, later, outs) && x.to == b.external[i].dest
  {
    var k := |b.service| + |b.internal| + i;
    SentKeysDiffer(w, book, later, b, outs, ids);
    SuccessesOfOuts(u, hash, later, outs);
    var j :| 0 <= j < |ids| && ids[j] == k;
    MessageOut(w, book, later, b, k, outs[j], u, hash);
    x := ExternalWithdrawal(u, b.external[i].dest, outs[j].lt, false, hash);
    assert SuccessOf(u, hash, later, outs[j]) == [x];
  }

  /** Every payment of the batch is reported. */
  lemma EveryPaymentReported(w: World, book: Book, later: Book, b: Withdrawals, outs: seq<OutMsg>, ids: seq<nat>,
                             u: Uuid, hash: Hash, failed: seq<ExternalWithdrawal>, i: nat)
    requires WellBuilt(w, book, b) && WalletsInBook(w, book) && StillOutside(w, book, later, b)
    requires SentSubset(b, outs, ids) && AllOk(later, outs) && i < |b.external|
    requires FailuresFor(u, hash, failed, KeySet(b.messages) - OutKeys(later, outs) - later.Keys)
    ensures ReportsTo(Successes(u, hash, later, outs) + failed, b.external[i].dest)
    ensures b.external[i].dest in OutKeys(later, outs) <==> |b.service| + |b.internal| + i in ids
  {
    var d, k := b.external[i].dest, |b.service| + |b.internal| + i;
    LeftUnderKey(w, book, later, b, outs, ids, k);
    if k in ids {
      var x := SentPaymentReported(w, book, later, b, outs, ids, u, hash, i);
      ReportsToPrefix(Successes(u, hash, later, outs), failed, x);
    } else {
      KeyIsIn(w, book, b, k);
      assert d in KeySet(b.messages);
      assert ReportsTo(failed, d);
      var n :| 0 <= n < |failed| && failed[n].to == d;
      ReportsToPrefix(Successes(u, hash, later, outs), failed, failed[n]);
    }
  }

  lemma AllReportsDistinct(w: World, book: Book, later: Book, b: Withdrawals, outs: seq<OutMsg>, ids: seq<nat>,
                           u: Uuid, hash: Hash, failed: seq<ExternalWithdrawal>)
    requires WellBuilt(w, book, b) && WalletsInBook(w, book) && StillOutside(w, book, later, b)
    requires SentSubset(b, outs, ids) && AllOk(later, outs)
    requires FailuresFor(u, hash, failed, KeySet(b.messages) - OutKeys(later, outs) - later.Keys)
    ensures DistinctKeys(Successes(u, hash, later, outs) + failed)
  {
    SentKeysDiffer(w, book, later, b, outs, ids);
    SuccessesOfOuts(u, hash, later, outs);
    var good := Successes(u, hash, later, outs);
    forall i, j | 0 <= i < |good| && 0 <= j < |failed| ensures good[i].to != failed[j].to {
      ReportIsTrue(w, book, later, b, outs, ids, u, hash, failed, good[i]);
      assert failed[j].to !in OutKeys(later, outs);
      SuccessKey(u, hash, later, outs, good[i]);
    }
  }

  lemma SuccessKey(u: Uuid, hash: Hash, book: Book, outs: seq<OutMsg>, x: ExternalWithdrawal)
    requires AllOk(book, outs) && DistinctOutKeys(book, outs) && x in Successes(u, hash, book, outs)
    ensures x.to in OutKeys(book, outs) && !x.isFailed
  {
    SuccessesOfOuts(u, hash, book, outs);
    assert FromOut(u, hash, book, outs, x);
    var j :| 0 <= j < |outs| && SuccessOf(u, hash, book, outs[j]) == [x];
    assert OutKey(book, outs[j]) in OutKeys(book, outs);
  }

  // ---------------------------------------------------------------- the sendings

  predicate FromDeposit(book: Book, outs: seq<OutMsg>, x: SendingConfirmation)
    requires AllOk(book, outs)
  {
    exists j :: 0 <= j < |outs| && SendingOf(book, outs[j]) == [x]
  }

  lemma {:induction false} SendingsOfOuts(book: Book, outs: seq<OutMsg>)
    requires AllOk(book, outs)
    ensures forall i :: 0 <= i < |Sendings(book, outs)| ==> FromDeposit(book, outs, Sendings(book, outs)[i])
    ensures forall j, x :: 0 <= j < |outs| && SendingOf(book, outs[j]) == [x] ==> x in Sendings(book, outs)
  {
    if outs != [] {
      var front := outs[..|outs| - 1];
      SendingsOfOuts(book, front);
      var ss, ss' := Sendings(book, front), Sendings(book, outs);
      forall i | 0 <= i < |ss'| ensures FromDeposit(book, outs, ss'[i]) {
        if i < |ss| {
          assert FromDeposit(book, front, ss[i]);
          var j :| 0 <= j < |front| && SendingOf(book, front[j]) == [ss[i]];
          assert outs[j] == front[j];
        } else {
          assert SendingOf(book, outs[|outs| - 1]) == [ss'[i]];
        }
      }
      forall j, x | 0 <= j < |outs| && SendingOf(book, outs[j]) == [x] ensures x in ss' {
        if j < |front| { assert front[j] == outs[j]; }
      }
    }
  }

  /** The proxies of the batch, by the memo their message carries. */
  predicate ProxiesOf(w: World, b: Withdrawals, proxies: map<Uuid, Address>) {
    && (forall i :: 0 <= i < |b.internal| ==>
          b.internal[i].memo in proxies && proxies[b.internal[i].memo] == w.proxy(b.internal[i].task.subwalletId))
    && (forall m :: m in proxies ==> exists i :: 0 <= i < |b.internal| && b.internal[i].memo == m)
  }

  lemma SendingIsTrue(w: World, book: Book, later: Book, b: Withdrawals, outs: seq<OutMsg>, ids: seq<nat>,
                      proxies: map<Uuid, Address>, x: SendingConfirmation)
    requires WellBuilt(w, book, b) && WalletsInBook(w, book) && StillOutside(w, book, later, b)
    requires SentSubset(b, outs, ids) && AllOk(later, outs) && ProxiesOf(w, b, proxies)
    requires x in Sendings(later, outs)
    ensures x.memo.UuidText? && x.memo.uuid in proxies && proxies[x.memo.uuid] in OutKeys(later, outs)
  {
    var j := SendingSource(later, outs, x);
    MessageOut(w, book, later, b, ids[j], outs[j], 0, 0);
    assert x.memo == UuidText(b.internal[ids[j] - |b.service|].memo);
    assert OutKey(later, outs[j]) in OutKeys(later, outs);
  }

  lemma SendingSource(book: Book, outs: seq<OutMsg>, x: SendingConfirmation) returns (j: nat)
    requires AllOk(book, outs) && x in Sendings(book, outs)
    ensures j < |outs| && SendingOf(book, outs[j]) == [x]
  {
    SendingsOfOuts(book, outs);
    assert FromDeposit(book, outs, x);
    j :| 0 <= j < |outs| && SendingOf(book, outs[j]) == [x];
  }

  lemma SentDepositNamed(w: World, book: Book, later: Book, b: Withdrawals, outs: seq<OutMsg>, ids: seq<nat>,
                         proxies: map<Uuid, Address>, m: Uuid)
    requires WellBuilt(w, book, b) && WalletsInBook(w, book) && StillOutside(w, book, later, b)
    requires SentSubset(b, outs, ids) && AllOk(later, outs) && ProxiesOf(w, b, proxies)
    requires m in proxies && proxies[m] in OutKeys(later, outs)
    ensures HasSending(Sendings(later, outs), m)
  {
    var i :| 0 <= i < |b.internal| && b.internal[i].memo == m;
    DepositLeft(w, book, later, b, outs, ids, i);
    DepositNamed(w, book, later, b, outs, ids, i);
  }

  lemma DepositLeft(w: World, book: Book, later: Book, b: Withdrawals, outs: seq<OutMsg>, ids: seq<nat>, i: nat)
    requires WellBuilt(w, book, b) && WalletsInBook(w, book) && StillOutside(w, book, later, b)
    requires SentSubset(b, outs, ids) && AllOk(later, outs) && i < |b.internal|
    requires w.proxy(b.internal[i].task.subwalletId) in OutKeys(later, outs)
    ensures |b.service| + i in ids
  {
    LeftUnderKey(w, book, later, b, outs, ids, |b.service| + i);
  }

  lemma ReportsOfSendings(u: Uuid, out: set<Address>, proxies: map<Uuid, Address>, ss: seq<SendingConfirmation>)
    requires forall x :: x in ss ==> x.memo.UuidText? && x.memo.uuid in proxies && proxies[x.memo.uuid] in out
    requires forall m :: m in proxies && proxies[m] in out ==> HasSending(ss, m)
    ensures ReportsSendings(Ran(u, out), NewCarriers(u, proxies), {}, ss)
  {
    forall i | 0 <= i < |ss|
      ensures ss[i].memo.UuidText? && ss[i].memo.uuid in proxies && proxies[ss[i].memo.uuid] in out
    {
      assert ss[i] in ss;
    }
  }

  /** A sending confirmation names a deposit of the batch whose message left, and every such deposit is named. */
  lemma SendingsReport(w: World, book: Book, later: Book, b: Withdrawals, outs: seq<OutMsg>, ids: seq<nat>,
                       u: Uuid, proxies: map<Uuid, Address>)
    requires WellBuilt(w, book, b) && WalletsInBook(w, book) && StillOutside(w, book, later, b)
    requires SentSubset(b, outs, ids) && AllOk(later, outs) && ProxiesOf(w, b, proxies)
    ensures ReportsSendings(Ran(u, OutKeys(later, outs)), NewCarriers(u, proxies), {}, Sendings(later, outs))
  {
    var ss, out := Sendings(later, outs), OutKeys(later, outs);
    forall x | x in ss ensures x.memo.UuidText? && x.memo.uuid in proxies && proxies[x.memo.uuid] in out {
      SendingIsTrue(w, book, later, b, outs, ids, proxies, x);
    }
    forall m | m in proxies && proxies[m] in out ensures HasSending(ss, m) {
      SentDepositNamed(w, book, later, b, outs, ids, proxies, m);
    }
    ReportsOfSendings(u, out, proxies, ss);
  }

  lemma DepositNamed(w: World, book: Book, later: Book, b: Withdrawals, outs: seq<OutMsg>, ids: seq<nat>, i: nat)
    requires WellBuilt(w, book, b) && WalletsInBook(w, book) && StillOutside(w, book, later, b)
    requires SentSubset(b, outs, ids) && AllOk(later, outs) && i < |b.internal| && |b.service| + i in ids
    ensures HasSending(Sendings(later, outs), b.internal[i].memo)
  {
    SendingsOfOuts(later, outs);
    var j :| 0 <= j < |ids| && ids[j] == |b.service| + i;
    MessageOut(w, book, later, b, ids[j], outs[j], 0, 0);
    var x := SendingConfirmation(outs[j].lt, UuidText(b.internal[i].memo));
    assert SendingOf(later, outs[j]) == [x];
    assert x in Sendings(later, outs);
  }

  // ---------------------------------------------------------------- the report meets the protocol

  /** The chain's record of one transaction: the batch ran in the next block to save and sent to these keys. */
  function Ran(u: Uuid, out: set<Address>): Chain { Chain([], 0, map[u := Execution(0, out)], map[], []) }

  /** For every batch the builder makes and every subset of its messages that leaves, the scanner accepts the
      transaction, and what it reports is what the protocol's commit step takes for granted: one event for each
      payment, a success exactly when its message left, and one sending for each deposit whose message left. */
  lemma ReportOfBatch(w: World, book: Book, later: Book, b: Withdrawals, outs: seq<OutMsg>, ids: seq<nat>,
                      u: Uuid, hash: Hash, ttl: int, failed: seq<ExternalWithdrawal>, proxies: map<Uuid, Address>)
    requires WellBuilt(w, book, b) && WalletsInBook(w, book) && StillOutside(w, book, later, b)
    requires SentSubset(b, outs, ids) && ProxiesOf(w, b, proxies)
    ensures AllKeyed(b.messages) && Distinct(KeysIn(b.messages)) && AllOk(later, outs)
    ensures FailuresFor(u, hash, failed, KeySet(b.messages) - OutKeys(later, outs) - later.Keys) ==>
      ReportsExternals(Ran(u, OutKeys(later, outs)), map[u := Batch(ttl, PaysOf(b.external))],
                       Successes(u, hash, later, outs) + failed)
    ensures ReportsSendings(Ran(u, OutKeys(later, outs)), NewCarriers(u, proxies), {}, Sendings(later, outs))
  {
    KeysAreDistinct(w, book, b);
    AllMessagesOut(w, book, later, b, outs, ids);
    SendingsReport(w, book, later, b, outs, ids, u, proxies);
    if FailuresFor(u, hash, failed, KeySet(b.messages) - OutKeys(later, outs) - later.Keys) {
      PaymentsReport(w, book, later, b, outs, ids, u, hash, ttl, failed);
    }
  }

  lemma PaymentReported(w: World, book: Book, later: Book, b: Withdrawals, outs: seq<OutMsg>, ids: seq<nat>,
                        u: Uuid, hash: Hash, failed: seq<ExternalWithdrawal>, a: Address)
    requires WellBuilt(w, book, b) && WalletsInBook(w, book) && StillOutside(w, book, later, b)
    requires SentSubset(b, outs, ids) && AllOk(later, outs) && a in PaysOf(b.external)
    requires FailuresFor(u, hash, failed, KeySet(b.messages) - OutKeys(later, outs) - later.Keys)
    ensures ReportsTo(Successes(u, hash, later, outs) + failed, a)
  {
    PaysOfTasks(b.external);
    var i :| 0 <= i < |b.external| && b.external[i].dest == a;
    EveryPaymentReported(w, book, later, b, outs, ids, u, hash, failed, i);
  }

  predicate TrueReport(u: Uuid, out: set<Address>, pays: map<Address, QueryId>, x: ExternalWithdrawal) {
    x.uuid == u && x.to in pays && (x.isFailed <==> x.to !in out)
  }

  lemma TrueReports(w: World, book: Book, later: Book, b: Withdrawals, outs: seq<OutMsg>, ids: seq<nat>,
                    u: Uuid, hash: Hash, failed: seq<ExternalWithdrawal>, x: ExternalWithdrawal)
    requires WellBuilt(w, book, b) && WalletsInBook(w, book) && StillOutside(w, book, later, b)
    requires SentSubset(b, outs, ids) && AllOk(later, outs)
    requires FailuresFor(u, hash, failed, KeySet(b.messages) - OutKeys(later, outs) - later.Keys)
    requires x in Successes(u, hash, later, outs) + failed
    ensures TrueReport(u, OutKeys(later, outs), PaysOf(b.external), x)
  {
    PaysOfTasks(b.external);
    ReportIsTrue(w, book, later, b, outs, ids, u, hash, failed, x);
  }

  lemma ReportsOfPayments(u: Uuid, out: set<Address>, pays: map<Address, QueryId>, ttl: int,
                          ws: seq<ExternalWithdrawal>)
    requires DistinctKeys(ws)
    requires forall x :: x in ws ==> TrueReport(u, out, pays, x)
    requires forall a :: a in pays ==> ReportsTo(ws, a)
    ensures ReportsExternals(Ran(u, out), map[u := Batch(ttl, pays)], ws)
  {
    forall i | 0 <= i < |ws| ensures TrueReport(u, out, pays, ws[i]) { assert ws[i] in ws; }
    forall a | a in pays ensures ReportsKey(ws, ExtKey(u, a)) { assert ReportsTo(ws, a); }
  }

  lemma PaymentsReport(w: World, book: Book, later: Book, b: Withdrawals, outs: seq<OutMsg>, ids: seq<nat>,
                       u: Uuid, hash: Hash, ttl: int, failed: seq<ExternalWithdrawal>)
    requires WellBuilt(w, book, b) && WalletsInBook(w, book) && StillOutside(w, book, later, b)
    requires SentSubset(b, outs, ids) && AllOk(later, outs)
    requires FailuresFor(u, hash, failed, KeySet(b.messages) - OutKeys(later, outs) - later.Keys)
    ensures ReportsExternals(Ran(u, OutKeys(later, outs)), map[u := Batch(ttl, PaysOf(b.external))],
                             Successes(u, hash, later, outs) + failed)
  {
    var out, pays := OutKeys(later, outs), PaysOf(b.external);
    var ws := Successes(u, hash, later, outs) + failed;
    AllReportsDistinct(w, book, later, b, outs, ids, u, hash, failed);
    forall x | x in ws ensures TrueReport(u, out, pays, x) {
      TrueReports(w, book, later, b, outs, ids, u, hash, failed, x);
    }
    forall a | a in pays ensures ReportsTo(ws, a) {
      PaymentReported(w, book, later, b, outs, ids, u, hash, failed, a);
    }
    ReportsOfPayments(u, out, pays, ttl, ws);
  }

  /** What the selection of pending requests gives the builder, and the builder keeps, is a batch the protocol
      starts. */
  lemma BuiltBatchIsPending(requests: map<QueryId, Request>, tasks: seq<ExternalTask>, w: World, book: Book,
                            b: Withdrawals)
    requires TasksOf(requests, tasks) && WellBuilt(w, book, b) && AllIn(b.external, tasks, |tasks|)
    ensures PendingTasks(requests, b.external) && DistinctDests(b.external)
    ensures forall i :: 0 <= i < |b.external| ==>
      var t := b.external[i];
      && t.queryId in requests && !requests[t.queryId].processing
      && t.dest == requests[t.queryId].dest
      && t.currency == requests[t.queryId].currency && t.amount == requests[t.queryId].amount
  {
    forall i | 0 <= i < |b.external|
      ensures b.external[i].queryId in requests && !requests[b.external[i].queryId].processing
      ensures Asks(requests[b.external[i].queryId], b.external[i])
    {
      assert b.external[i] in b.external;
      var j :| 0 <= j < |tasks| && tasks[j] == b.external[i];
      assert FirstPending(requests, tasks[j].queryId);
    }
  }

  // ---------------------------------------------------------------- several batches in one block

  /** What one transaction of the hot wallet shows: its batch, the keys it sent to, and the scanner's report of it. */
  datatype TxReport = TxReport(
    u: Uuid, out: set<Address>, pays: map<Address, QueryId>, proxies: map<Uuid, Address>,
    ws: seq<ExternalWithdrawal>, ss: seq<SendingConfirmation>)

  predicate TrueSending(r: TxReport, x: SendingConfirmation) {
    x.memo.UuidText? && x.memo.uuid in r.proxies && r.proxies[x.memo.uuid] in r.out
  }

  /** The report of one transaction is complete and true. */
  predicate Sound(r: TxReport) {
    && DistinctKeys(r.ws)
    && (forall x :: x in r.ws ==> TrueReport(r.u, r.out, r.pays, x))
    && (forall a :: a in r.pays ==> ReportsTo(r.ws, a))
    && (forall x :: x in r.ss ==> TrueSending(r, x))
    && (forall m :: m in r.proxies && r.proxies[m] in r.out ==> HasSending(r.ss, m))
  }

  /** Every report the scanner makes of a built batch is sound. */
  lemma BatchReportIsSound(w: World, book: Book, later: Book, b: Withdrawals, outs: seq<OutMsg>, ids: seq<nat>,
                           u: Uuid, hash: Hash, failed: seq<ExternalWithdrawal>, proxies: map<Uuid, Address>)
    requires WellBuilt(w, book, b) && WalletsInBook(w, book) && StillOutside(w, book, later, b)
    requires SentSubset(b, outs, ids) && ProxiesOf(w, b, proxies) && AllOk(later, outs)
    requires FailuresFor(u, hash, failed, KeySet(b.messages) - OutKeys(later, outs) - later.Keys)
    ensures Sound(TxReport(u, OutKeys(later, outs), PaysOf(b.external), proxies,
                           Successes(u, hash, later, outs) + failed, Sendings(later, outs)))
  {
    var ws := Successes(u, hash, later, outs) + failed;
    AllReportsDistinct(w, book, later, b, outs, ids, u, hash, failed);
    forall x | x in ws ensures TrueReport(u, OutKeys(later, outs), PaysOf(b.external), x) {
      TrueReports(w, book, later, b, outs, ids, u, hash, failed, x);
    }
    forall a | a in PaysOf(b.external) ensures ReportsTo(ws, a) {
      PaymentReported(w, book, later, b, outs, ids, u, hash, failed, a);
    }
    forall x | x in Sendings(later, outs)
      ensures x.memo.UuidText? && x.memo.uuid in proxies && proxies[x.memo.uuid] in OutKeys(later, outs)
    {
      SendingIsTrue(w, book, later, b, outs, ids, proxies, x);
    }
    forall m | m in proxies && proxies[m] in OutKeys(later, outs) ensures HasSending(Sendings(later, outs), m) {
      SentDepositNamed(w, book, later, b, outs, ids, proxies, m);
    }
  }

  /** The chain ran this transaction in the next block to save, and its batch and carriers are on record. */
  predicate OnRecord(chain: Chain, batches: map<Uuid, Batch>, carriers: map<Uuid, Carrier>, r: TxReport) {
    && RunNow(chain, r.u) && chain.executed[r.u].out == r.out
    && r.u in batches && batches[r.u].pays == r.pays
    && (forall m :: m in r.proxies ==> m in carriers && carriers[m] == Carrier(r.u, r.proxies[m]))
    && (forall m :: m in carriers && carriers[m].uuid == r.u ==> m in r.proxies)
  }

  /** The transactions of the block, each once, and no other batch ran in it. */
  predicate BlockOfBatches(chain: Chain, batches: map<Uuid, Batch>, carriers: map<Uuid, Carrier>, rs: seq<TxReport>) {
    && (forall i :: 0 <= i < |rs| ==> Sound(rs[i]) && OnRecord(chain, batches, carriers, rs[i]))
    && (forall i, j :: 0 <= i < j < |rs| ==> rs[i].u != rs[j].u)
    && (forall u :: u in batches && RunNow(chain, u) ==> Includes(rs, u))
  }

  predicate Includes(rs: seq<TxReport>, u: Uuid) { exists i :: 0 <= i < |rs| && rs[i].u == u }

  function AllWs(rs: seq<TxReport>): seq<ExternalWithdrawal> {
    if rs == [] then [] else AllWs(rs[..|rs| - 1]) + rs[|rs| - 1].ws
  }

  function AllSs(rs: seq<TxReport>): seq<SendingConfirmation> {
    if rs == [] then [] else AllSs(rs[..|rs| - 1]) + rs[|rs| - 1].ss
  }

  predicate FromReport(rs: seq<TxReport>, x: ExternalWithdrawal) { exists i :: 0 <= i < |rs| && x in rs[i].ws }

  predicate SendingFrom(rs: seq<TxReport>, x: SendingConfirmation) { exists i :: 0 <= i < |rs| && x in rs[i].ss }

  lemma {:induction false} AllOfReports(rs: seq<TxReport>)
    ensures forall x :: x in AllWs(rs) <==> FromReport(rs, x)
    ensures forall x :: x in AllSs(rs) <==> SendingFrom(rs, x)
  {
    if rs != [] {
      var front, last := rs[..|rs| - 1], rs[|rs| - 1];
      AllOfReports(front);
      assert forall i :: 0 <= i < |front| ==> front[i] == rs[i];
      forall x ensures FromReport(rs, x) <==> FromReport(front, x) || x in last.ws {
        if FromReport(front, x) {
          var i :| 0 <= i < |front| && x in front[i].ws;
          assert x in rs[i].ws;
        }
        if x in last.ws { assert x in rs[|rs| - 1].ws; }
      }
      forall x ensures SendingFrom(rs, x) <==> SendingFrom(front, x) || x in last.ss {
        if SendingFrom(front, x) {
          var i :| 0 <= i < |front| && x in front[i].ss;
          assert x in rs[i].ss;
        }
        if x in last.ss { assert x in rs[|rs| - 1].ss; }
      }
    }
  }

  predicate SoundAndApart(rs: seq<TxReport>) {
    && (forall i :: 0 <= i < |rs| ==> Sound(rs[i]))
    && (forall i, j :: 0 <= i < j < |rs| ==> rs[i].u != rs[j].u)
  }

  lemma {:induction false} AllWsDistinct(rs: seq<TxReport>)
    requires SoundAndApart(rs)
    ensures DistinctKeys(AllWs(rs))
  {
    if rs != [] {
      var front, last := rs[..|rs| - 1], rs[|rs| - 1];
      assert SoundAndApart(front) && Sound(rs[|rs| - 1]);
      AllWsDistinct(front);
      AllOfReports(front);
      forall i, j | 0 <= i < |AllWs(front)| && 0 <= j < |last.ws| ensures AllWs(front)[i].uuid != last.ws[j].uuid {
        assert FromReport(front, AllWs(front)[i]);
        var k :| 0 <= k < |front| && AllWs(front)[i] in front[k].ws;
        assert Sound(rs[k]) && rs[k] == front[k];
        assert last.ws[j] in last.ws;
      }
      DistinctConcat(AllWs(front), last.ws);
    }
  }

  lemma DistinctConcat(a: seq<ExternalWithdrawal>, b: seq<ExternalWithdrawal>)
    requires DistinctKeys(a) && DistinctKeys(b)
    requires forall i, j :: 0 <= i < |a| && 0 <= j < |b| ==> a[i].uuid != b[j].uuid
    ensures DistinctKeys(a + b)
  {
  }

  /** A block with any number of hot wallet transactions: together their reports are what the protocol's commit step
      takes for granted, whatever sweeps of TON deposits are reported beside them. */
  lemma ReportOfBlock(chain: Chain, batches: map<Uuid, Batch>, carriers: map<Uuid, Carrier>, tonMemos: set<Uuid>,
                      rs: seq<TxReport>, sweeps: seq<SendingConfirmation>)
    requires BlockOfBatches(chain, batches, carriers, rs)
    requires forall m :: m in carriers ==> carriers[m].uuid in batches
    requires forall x :: x in sweeps ==> x.memo.UuidText? && x.memo.uuid in tonMemos
    ensures ReportsExternals(chain, batches, AllWs(rs))
    ensures ReportsSendings(chain, carriers, tonMemos, AllSs(rs) + sweeps)
  {
    BlockExternals(chain, batches, carriers, rs);
    BlockSendings(chain, batches, carriers, tonMemos, rs, sweeps);
  }

  lemma BlockExternals(chain: Chain, batches: map<Uuid, Batch>, carriers: map<Uuid, Carrier>, rs: seq<TxReport>)
    requires BlockOfBatches(chain, batches, carriers, rs)
    ensures ReportsExternals(chain, batches, AllWs(rs))
  {
    var ws := AllWs(rs);
    assert SoundAndApart(rs);
    AllWsDistinct(rs);
    AllOfReports(rs);
    forall i | 0 <= i < |ws|
      ensures RunNow(chain, ws[i].uuid) && ws[i].uuid in batches && ws[i].to in batches[ws[i].uuid].pays
      ensures ws[i].isFailed <==> ws[i].to !in chain.executed[ws[i].uuid].out
    {
      assert ws[i] in ws && FromReport(rs, ws[i]);
      var k :| 0 <= k < |rs| && ws[i] in rs[k].ws;
      assert Sound(rs[k]) && OnRecord(chain, batches, carriers, rs[k]);
    }
    forall u, a | u in batches && a in batches[u].pays && RunNow(chain, u) ensures ReportsKey(ws, ExtKey(u, a)) {
      PaymentInBlock(chain, batches, carriers, rs, u, a);
    }
  }

  lemma PaymentInBlock(chain: Chain, batches: map<Uuid, Batch>, carriers: map<Uuid, Carrier>, rs: seq<TxReport>,
                       u: Uuid, a: Address)
    requires BlockOfBatches(chain, batches, carriers, rs)
    requires u in batches && a in batches[u].pays && RunNow(chain, u)
    ensures ReportsKey(AllWs(rs), ExtKey(u, a))
  {
    AllOfReports(rs);
    assert Includes(rs, u);
    var k :| 0 <= k < |rs| && rs[k].u == u;
    assert Sound(rs[k]) && OnRecord(chain, batches, carriers, rs[k]);
    assert ReportsTo(rs[k].ws, a);
    var n :| 0 <= n < |rs[k].ws| && rs[k].ws[n].to == a;
    var x := rs[k].ws[n];
    assert x in rs[k].ws && FromReport(rs, x);
    var i :| 0 <= i < |AllWs(rs)| && AllWs(rs)[i] == x;
    assert TrueReport(rs[k].u, rs[k].out, rs[k].pays, x);
  }

  lemma BlockSendings(chain: Chain, batches: map<Uuid, Batch>, carriers: map<Uuid, Carrier>, tonMemos: set<Uuid>,
                      rs: seq<TxReport>, sweeps: seq<SendingConfirmation>)
    requires BlockOfBatches(chain, batches, carriers, rs)
    requires forall m :: m in carriers ==> carriers[m].uuid in batches
    requires forall x :: x in sweeps ==> x.memo.UuidText? && x.memo.uuid in tonMemos
    ensures ReportsSendings(chain, carriers, tonMemos, AllSs(rs) + sweeps)
  {
    var ss := AllSs(rs) + sweeps;
    AllOfReports(rs);
    forall i | 0 <= i < |ss|
      ensures ss[i].memo.UuidText?
      ensures ss[i].memo.uuid in tonMemos || (ss[i].memo.uuid in carriers && SentNow(chain, carriers[ss[i].memo.uuid]))
    {
      if i < |AllSs(rs)| {
        assert ss[i] in AllSs(rs) && SendingFrom(rs, ss[i]);
        var k :| 0 <= k < |rs| && ss[i] in rs[k].ss;
        assert Sound(rs[k]) && OnRecord(chain, batches, carriers, rs[k]);
        assert TrueSending(rs[k], ss[i]);
      } else {
        assert ss[i] in sweeps;
      }
    }
    forall m | m in carriers && SentNow(chain, carriers[m]) ensures HasSending(ss, m) {
      CarrierInBlock(chain, batches, carriers, rs, sweeps, m);
    }
  }

  lemma CarrierInBlock(chain: Chain, batches: map<Uuid, Batch>, carriers: map<Uuid, Carrier>, rs: seq<TxReport>,
                       sweeps: seq<SendingConfirmation>, m: Uuid)
    requires BlockOfBatches(chain, batches, carriers, rs)
    requires m in carriers && carriers[m].uuid in batches && SentNow(chain, carriers[m])
    ensures HasSending(AllSs(rs) + sweeps, m)
  {
    AllOfReports(rs);
    var u := carriers[m].uuid;
    assert RunNow(chain, u) && Includes(rs, u);
    var k :| 0 <= k < |rs| && rs[k].u == u;
    assert Sound(rs[k]) && OnRecord(chain, batches, carriers, rs[k]);
    assert HasSending(rs[k].ss, m);
    var n :| 0 <= n < |rs[k].ss| && rs[k].ss[n].memo == UuidText(m);
    assert rs[k].ss[n] in rs[k].ss && SendingFrom(rs, rs[k].ss[n]);
    var i :| 0 <= i < |AllSs(rs)| && AllSs(rs)[i] == rs[k].ss[n];
    assert (AllSs(rs) + sweeps)[i].memo == UuidText(m);
  }
}
