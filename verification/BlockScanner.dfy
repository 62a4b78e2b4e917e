/** One block from its transaction list to its events: transactions are grouped by wallet in a map, and the wallets are
    then visited in whatever order Go gives. */
module BlockScanner {
  import opened Types
  import opened Ledger
  import opened BlockCommit

  datatype TxId = TxId(account: Address, lt: nat)

  datatype WalletTxs = WalletTxs(address: Address, wtype: WalletType, txs: seq<TxId>)

  /** The transactions of one account in the order of the block. */
  function TxsOf(ids: seq<TxId>, a: Address): seq<TxId> {
    if ids == [] then []
    else TxsOf(ids[..|ids| - 1], a) + if ids[|ids| - 1].account == a then [ids[|ids| - 1]] else []
  }

  /** The group of an account is its transactions in the block, each in the place its predecessors leave it. */
  lemma {:induction false} GroupKeepsAll(ids: seq<TxId>, a: Address)
    ensures forall i :: 0 <= i < |ids| && ids[i].account == a ==> PlacedAt(ids, a, i)
    ensures forall x: TxId :: multiset(TxsOf(ids, a))[x] == if x.account == a then multiset(ids)[x] else 0
  {
    if ids != [] {
      var n := |ids| - 1;
      var front := ids[..n];
      GroupKeepsAll(front, a);
      assert ids == front + [ids[n]];
      forall i | 0 <= i <= n && ids[i].account == a ensures PlacedAt(ids, a, i) {
        if i < n { assert front[..i] == ids[..i] && PlacedAt(front, a, i); }
      }
    }
  }

  predicate PlacedAt(ids: seq<TxId>, a: Address, i: nat)
    requires i < |ids|
  {
    |TxsOf(ids[..i], a)| < |TxsOf(ids, a)| && TxsOf(ids, a)[|TxsOf(ids[..i], a)|] == ids[i]
  }

  function Accounts(book: Book, ids: seq<TxId>): set<Address> {
    set i | 0 <= i < |ids| && ids[i].account in book :: ids[i].account
  }

  function GroupOf(book: Book, ids: seq<TxId>, a: Address): WalletTxs
    requires a in book
  {
    WalletTxs(a, book[a].wtype, TxsOf(ids, a))
  }

  predicate DistinctAddresses(gs: seq<WalletTxs>) {
    forall i, j :: 0 <= i < j < |gs| ==> gs[i].address != gs[j].address
  }

  /** One group for each of these accounts. */
  predicate Groups(book: Book, ids: seq<TxId>, gs: seq<WalletTxs>, accounts: set<Address>) {
    && DistinctAddresses(gs)
    && (forall i :: 0 <= i < |gs| ==>
          gs[i].address in accounts && gs[i].address in book && gs[i] == GroupOf(book, ids, gs[i].address))
    && (forall a :: a in accounts ==> a in book && GroupOf(book, ids, a) in gs)
  }

  method FilterTXs(book: Book, ids: seq<TxId>) returns (res: seq<WalletTxs>)
    ensures Groups(book, ids, res, Accounts(book, ids))
    ensures forall i :: 0 <= i < |res| ==> res[i].address in book && res[i].wtype == book[res[i].address].wtype
    ensures forall i :: 0 <= i < |ids| && ids[i].account in book ==>
      exists j :: 0 <= j < |res| && res[j].address == ids[i].account
  {
    var txMap: map<Address, seq<TxId>> := map[];
    for i := 0 to |ids|
      invariant txMap.Keys == Accounts(book, ids[..i])
      invariant forall a :: a in txMap ==> txMap[a] == TxsOf(ids[..i], a)
    {
      var a := ids[i].account;
      assert ids[..i + 1][..i] == ids[..i] && ids[..i + 1][i] == ids[i];
      MoreAccounts(book, ids, i);
      if a in book {
        NotYetSeen(ids[..i], a);
        txMap := txMap[a := (if a in txMap then txMap[a] else []) + [ids[i]]];
      }
    }
    assert ids[..|ids|] == ids;
    res := Visit(book, ids, txMap);
    forall i | 0 <= i < |ids| && ids[i].account in book
      ensures exists j :: 0 <= j < |res| && res[j].address == ids[i].account
    {
      assert ids[i].account in Accounts(book, ids) && GroupOf(book, ids, ids[i].account) in res;
    }
  }

  lemma MoreAccounts(book: Book, ids: seq<TxId>, i: nat)
    requires i < |ids|
    ensures Accounts(book, ids[..i + 1])
         == Accounts(book, ids[..i]) + if ids[i].account in book then {ids[i].account} else {}
  {
    var before, after := ids[..i], ids[..i + 1];
    assert after[i] == ids[i] && forall j :: 0 <= j < i ==> after[j] == before[j];
  }

  lemma {:induction false} NotYetSeen(ids: seq<TxId>, a: Address)
    ensures TxsOf(ids, a) == [] <==> forall i :: 0 <= i < |ids| ==> ids[i].account != a
  {
    if ids != [] { NotYetSeen(ids[..|ids| - 1], a); }
  }

  /** The range over the map. */
  method Visit(book: Book, ids: seq<TxId>, txMap: map<Address, seq<TxId>>) returns (res: seq<WalletTxs>)
    requires txMap.Keys <= book.Keys && forall a :: a in txMap ==> txMap[a] == TxsOf(ids, a)
    ensures Groups(book, ids, res, txMap.Keys)
  {
    res := [];
    var left := txMap.Keys;
    ghost var done: set<Address> := {};
    while left != {}
      invariant done !! left && done + left == txMap.Keys && Groups(book, ids, res, done)
      decreases left
    {
      var a :| a in left;
      res := res + [WalletTxs(a, book[a].wtype, txMap[a])];
      left, done := left - {a}, done + {a};
    }
    assert done == txMap.Keys;
  }

  // ---------------------------------------------------------------- events

  /** What the wallet's own transactions say, or the error that stops the scanner; wallets of other kinds say
      nothing. */
  type Parser = WalletTxs -> Option<Events>

  function EventsOf(parse: Parser, g: WalletTxs): Option<Events> {
    if g.wtype == TonHot || g.wtype == TonDeposit || g.wtype == JettonDeposit then parse(g) else Some(NO_EVENTS)
  }

  predicate AllParsed(parse: Parser, gs: seq<WalletTxs>) { forall i :: 0 <= i < |gs| ==> EventsOf(parse, gs[i]).Some? }

  function Parsed(parse: Parser, gs: seq<WalletTxs>): seq<Events>
    requires AllParsed(parse, gs)
  {
    seq(|gs|, i requires 0 <= i < |gs| => EventsOf(parse, gs[i]).value)
  }

  method ProcessTXs(parse: Parser, gs: seq<WalletTxs>) returns (ok: bool, e: Events)
    ensures ok <==> AllParsed(parse, gs)
    ensures ok ==> e == Merge(Parsed(parse, gs))
    ensures ok <==>
      forall i :: 0 <= i < |gs| && gs[i].wtype in {TonHot, TonDeposit, JettonDeposit} ==> parse(gs[i]).Some?
    ensures ok ==> forall i :: 0 <= i < |gs| ==>
      Parsed(parse, gs)[i]
      == if gs[i].wtype in {TonHot, TonDeposit, JettonDeposit} then parse(gs[i]).value else NO_EVENTS
  {
    e, ok := NO_EVENTS, true;
    for i := 0 to |gs|
      invariant AllParsed(parse, gs[..i]) && e == Merge(Parsed(parse, gs[..i]))
    {
      match gs[i].wtype
      case TonHot | TonDeposit | JettonDeposit =>
        var events := parse(gs[i]);
        if events.None? {
          assert gs[i].wtype in {TonHot, TonDeposit, JettonDeposit};
          return false, e;
        }
        OneMore(parse, gs, i);
        e := e.Append(events.value);
      case _ => OneMore(parse, gs, i);
    }
    assert gs[..|gs|] == gs;
    assert forall i :: 0 <= i < |gs| ==> EventsOf(parse, gs[i]).Some?;
  }

  lemma OneMore(parse: Parser, gs: seq<WalletTxs>, i: nat)
    requires i < |gs| && AllParsed(parse, gs[..i]) && EventsOf(parse, gs[i]).Some?
    ensures AllParsed(parse, gs[..i + 1])
    ensures Merge(Parsed(parse, gs[..i + 1])) == Merge(Parsed(parse, gs[..i])).Append(EventsOf(parse, gs[i]).value)
    ensures gs[i].wtype != TonHot && gs[i].wtype != TonDeposit && gs[i].wtype != JettonDeposit ==>
      Merge(Parsed(parse, gs[..i + 1])) == Merge(Parsed(parse, gs[..i]))
  {
    var x := EventsOf(parse, gs[i]).value;
    assert gs[..i + 1] == gs[..i] + [gs[i]];
    assert Parsed(parse, gs[..i + 1]) == Parsed(parse, gs[..i]) + [x];
    MergeConcat(Parsed(parse, gs[..i]), [x]);
    assert [x][1..] == [];
    assert Merge([x]) == x;
  }

  // ---------------------------------------------------------------- the order of the visit

  lemma {:induction false} CountOnce<T>(xs: seq<T>, x: T)
    requires forall i, j :: 0 <= i < j < |xs| ==> xs[i] != xs[j]
    ensures multiset(xs)[x] == if x in xs then 1 else 0
  {
    if xs != [] {
      var front, last := xs[..|xs| - 1], xs[|xs| - 1];
      CountOnce(front, x);
      assert xs == front + [last];
      assert forall i :: 0 <= i < |front| ==> front[i] == xs[i];
    }
  }

  /** Two visits of one block see the same groups. */
  lemma SameGroups(book: Book, ids: seq<TxId>, gs: seq<WalletTxs>, hs: seq<WalletTxs>, accounts: set<Address>)
    requires Groups(book, ids, gs, accounts) && Groups(book, ids, hs, accounts)
    ensures multiset(gs) == multiset(hs)
  {
    forall x ensures multiset(gs)[x] == multiset(hs)[x] {
      CountOnce(gs, x);
      CountOnce(hs, x);
      if x in gs { assert GroupOf(book, ids, x.address) in hs; }
      if x in hs { assert GroupOf(book, ids, x.address) in gs; }
    }
  }

  lemma {:induction false} ParsedPermuted(parse: Parser, gs: seq<WalletTxs>, hs: seq<WalletTxs>)
    requires multiset(gs) == multiset(hs) && AllParsed(parse, gs)
    ensures AllParsed(parse, hs) && multiset(Parsed(parse, gs)) == multiset(Parsed(parse, hs))
    decreases gs
  {
    if gs == [] {
      assert |multiset(hs)| == 0;
      assert hs == [];
    } else {
      assert gs[0] in multiset(hs);
      var k :| 0 <= k < |hs| && hs[k] == gs[0];
      WithoutHead(gs, hs, k);
      var others := hs[..k] + hs[k + 1..];
      ParsedPermuted(parse, gs[1..], others);
      InsertParsed(parse, hs, k);
      assert Parsed(parse, gs) == [EventsOf(parse, gs[0]).value] + Parsed(parse, gs[1..]);
    }
  }

  lemma InsertParsed(parse: Parser, hs: seq<WalletTxs>, k: nat)
    requires k < |hs| && AllParsed(parse, hs[..k] + hs[k + 1..]) && EventsOf(parse, hs[k]).Some?
    ensures AllParsed(parse, hs)
    ensures multiset(Parsed(parse, hs))
         == multiset{EventsOf(parse, hs[k]).value} + multiset(Parsed(parse, hs[..k] + hs[k + 1..]))
  {
    var others := hs[..k] + hs[k + 1..];
    forall i | 0 <= i < |hs| ensures EventsOf(parse, hs[i]).Some? {
      if i < k { assert others[i] == hs[i]; } else if i > k { assert others[i - 1] == hs[i]; }
    }
    var p := Parsed(parse, hs);
    assert p == p[..k] + [p[k]] + p[k + 1..];
    assert Parsed(parse, others) == p[..k] + p[k + 1..];
  }

  /** Whatever order two scans of one block visit its wallets in, they stop both or commit with the same outcome, when
      no memo has confirmations or withdrawals from two wallets. */
  lemma ScanIgnoresMapOrder(book: Book, ids: seq<TxId>, parse: Parser, gs: seq<WalletTxs>, hs: seq<WalletTxs>,
                            t: Tables, b: BlockRow)
    requires Groups(book, ids, gs, Accounts(book, ids)) && Groups(book, ids, hs, Accounts(book, ids))
    ensures AllParsed(parse, gs) <==> AllParsed(parse, hs)
    ensures AllParsed(parse, gs) && AllParsed(parse, hs) && PairwiseSeparate(Parsed(parse, gs)) ==>
      SameOutcome(Commit(t, Merge(Parsed(parse, gs)), b), Commit(t, Merge(Parsed(parse, hs)), b))
  {
    SameGroups(book, ids, gs, hs, Accounts(book, ids));
    if AllParsed(parse, gs) { ParsedPermuted(parse, gs, hs); }
    if AllParsed(parse, hs) { ParsedPermuted(parse, hs, gs); }
    if AllParsed(parse, gs) && AllParsed(parse, hs) && PairwiseSeparate(Parsed(parse, gs)) {
      CommitIgnoresWalletOrder(t, Parsed(parse, gs), Parsed(parse, hs), b);
    }
  }
}
