/** The wallets the service knows: two tables, the address book in memory beside them, and the allocator of deposit
    addresses both rest on. */
module AddressBook {
  import opened Types
  import opened BatchBuilder

  const MAX_UINT32 := 0xFFFF_FFFF
  const DEFAULT_SUBWALLET := 698983191

  datatype TonRow = TonRow(userId: string, wtype: WalletType, address: Address)
  datatype JettonRow = JettonRow(subwalletId: nat, userId: string, currency: string, wtype: WalletType)

  type TonTable = map<nat, TonRow>
  type JettonTable = map<Address, JettonRow>

  datatype SaveError = UniqueViolation

  // ---------------------------------------------------------------- address derivation

  /** Addresses are hashes of contract and data: the hot wallet, the deposit wallet and the proxy of a subwallet id,
      and the jetton wallet of an owner and a master. */
  datatype Derivation = Derivation(
    hot: Address, wallet: nat -> Address, proxy: nat -> Address, jetton: (Address, Address) -> Address,
    master: string -> Address, firstByte: Address -> nat)

  /** Different data give different addresses, of whatever kind. */
  ghost predicate Injective(d: Derivation) {
    && (forall i, j :: d.wallet(i) == d.wallet(j) ==> i == j)
    && (forall i, j :: d.proxy(i) == d.proxy(j) ==> i == j)
    && (forall o, m, p, n :: d.jetton(o, m) == d.jetton(p, n) ==> o == p && m == n)
    && (forall i, j :: d.wallet(i) != d.proxy(j))
    && (forall i, o, m :: d.wallet(i) != d.jetton(o, m))
    && (forall i, o, m :: d.proxy(i) != d.jetton(o, m))
    && (forall i :: d.wallet(i) != d.hot && d.proxy(i) != d.hot)
    && (forall o, m :: d.jetton(o, m) != d.hot)
  }

  /** A row of ton_wallets holds the address its id and type stand for. */
  predicate TonRowOk(d: Derivation, id: nat, r: TonRow) {
    id < MAX_UINT32
    && match r.wtype
       case TonHot => r.address == d.hot
       case TonDeposit => r.address == d.wallet(id)
       case JettonOwner => r.address == d.proxy(id)
       case _ => false
  }

  predicate OneHot(ton: TonTable) {
    forall i, j :: i in ton && j in ton && ton[i].wtype == TonHot && ton[j].wtype == TonHot ==> i == j
  }

  /** A row of jetton_wallets shares its id with the row of its owner: the proxy of a deposit, or the hot wallet. */
  predicate JettonRowOk(d: Derivation, ton: TonTable, a: Address, r: JettonRow) {
    && r.subwalletId in ton
    && a == d.jetton(ton[r.subwalletId].address, d.master(r.currency))
    && (|| (r.wtype == JettonDeposit && ton[r.subwalletId].wtype == JettonOwner)
        || (r.wtype == JettonHot && ton[r.subwalletId].wtype == TonHot))
  }

  predicate OneDeposit(jetton: JettonTable, a: Address, b: Address)
    requires a in jetton && b in jetton
  {
    && jetton[a].wtype == JettonDeposit && jetton[b].wtype == JettonDeposit
    && jetton[a].subwalletId == jetton[b].subwalletId
    ==> a == b
  }

  predicate Tables(d: Derivation, ton: TonTable, jetton: JettonTable) {
    && (forall i :: i in ton ==> TonRowOk(d, i, ton[i]))
    && OneHot(ton)
    && (forall a :: a in jetton ==> JettonRowOk(d, ton, a, jetton[a]))
    && (forall a, b :: a in jetton && b in jetton ==> OneDeposit(jetton, a, b))
  }

  // ---------------------------------------------------------------- what the book must be

  function TonInfo(r: TonRow): AddressInfo { AddressInfo(r.wtype, None, r.userId) }

  function JettonInfo(ton: TonTable, r: JettonRow): AddressInfo
    requires r.subwalletId in ton
  {
    AddressInfo(r.wtype, Some(ton[r.subwalletId].address), r.userId)
  }

  predicate SomeTonRow(ton: TonTable, ids: set<nat>, a: Address) {
    exists i :: i in ids && i in ton && ton[i].address == a
  }

  predicate TonShown(book: Book, ton: TonTable, ids: set<nat>) {
    forall i :: i in ids && i in ton ==> ton[i].address in book && book[ton[i].address] == TonInfo(ton[i])
  }

  predicate JettonShown(book: Book, ton: TonTable, jetton: JettonTable, addresses: set<Address>) {
    forall a :: a in addresses && a in jetton ==>
      a in book && jetton[a].subwalletId in ton && book[a] == JettonInfo(ton, jetton[a])
  }

  predicate OnlyRows(book: Book, ton: TonTable, ids: set<nat>, addresses: set<Address>) {
    forall a :: a in book ==> a in addresses || SomeTonRow(ton, ids, a)
  }

  /** The book holds these rows and nothing else. */
  predicate Describes(book: Book, ton: TonTable, ids: set<nat>, jetton: JettonTable, addresses: set<Address>) {
    TonShown(book, ton, ids) && JettonShown(book, ton, jetton, addresses) && OnlyRows(book, ton, ids, addresses)
  }

  predicate Mirrors(book: Book, ton: TonTable, jetton: JettonTable) {
    Describes(book, ton, ton.Keys, jetton, jetton.Keys)
  }

  /** Only one book mirrors the tables. */
  lemma MirrorIsUnique(b: Book, c: Book, ton: TonTable, jetton: JettonTable)
    requires Mirrors(b, ton, jetton) && Mirrors(c, ton, jetton)
    ensures b == c
  {
    SubMirror(b, c, ton, jetton);
    SubMirror(c, b, ton, jetton);
  }

  /** And it says of each wallet what its row says: type and user, and for a jetton wallet the address of the wallet
      that has its id. */
  lemma MirrorSays(book: Book, ton: TonTable, jetton: JettonTable)
    requires Mirrors(book, ton, jetton)
    ensures forall i :: i in ton ==>
      && ton[i].address in book && book[ton[i].address].wtype == ton[i].wtype
      && book[ton[i].address].userId == ton[i].userId && book[ton[i].address].owner == None
    ensures forall a :: a in jetton ==>
      && a in book && book[a].wtype == jetton[a].wtype && book[a].userId == jetton[a].userId
      && jetton[a].subwalletId in ton && book[a].owner == Some(ton[jetton[a].subwalletId].address)
    ensures forall a :: a in book && a !in jetton ==> exists i :: i in ton && ton[i].address == a
  {
    forall a | a in book && a !in jetton ensures exists i :: i in ton && ton[i].address == a {
      assert SomeTonRow(ton, ton.Keys, a);
    }
  }

  lemma SubMirror(b: Book, c: Book, ton: TonTable, jetton: JettonTable)
    requires Mirrors(b, ton, jetton) && Mirrors(c, ton, jetton)
    ensures forall a :: a in b ==> a in c && c[a] == b[a]
  {
    forall a | a in b ensures a in c && c[a] == b[a] {
      if a !in jetton {
        assert SomeTonRow(ton, ton.Keys, a);
        var i :| i in ton && ton[i].address == a;
      }
    }
  }

  /** No two rows have one address. */
  predicate Separate(ton: TonTable, jetton: JettonTable) {
    && (forall i, j :: i in ton && j in ton && ton[i].address == ton[j].address ==> i == j)
    && (forall i, a :: i in ton && a in jetton ==> ton[i].address != a)
  }

  lemma TonAddressesDiffer(d: Derivation, i: nat, r: TonRow, j: nat, s: TonRow)
    requires Injective(d) && TonRowOk(d, i, r) && TonRowOk(d, j, s) && r.address == s.address
    ensures i == j || (r.wtype == TonHot && s.wtype == TonHot)
  {
  }

  lemma TonIsNotJetton(d: Derivation, id: nat, r: TonRow, o: Address, m: Address)
    requires Injective(d) && TonRowOk(d, id, r)
    ensures r.address != d.jetton(o, m)
  {
  }

  lemma RowsAreSeparate(d: Derivation, ton: TonTable, jetton: JettonTable)
    requires Injective(d) && Tables(d, ton, jetton)
    ensures Separate(ton, jetton)
  {
    forall i, j | i in ton && j in ton && ton[i].address == ton[j].address ensures i == j {
      TonAddressesDiffer(d, i, ton[i], j, ton[j]);
    }
    forall i, a | i in ton && a in jetton ensures ton[i].address != a {
      assert JettonRowOk(d, ton, a, jetton[a]);
      TonIsNotJetton(d, i, ton[i], ton[jetton[a].subwalletId].address, d.master(jetton[a].currency));
    }
  }

  // ---------------------------------------------------------------- the wallet tables and the book in memory

  class Wallets {
    const d: Derivation
    var ton: TonTable
    var jetton: JettonTable
    var addresses: Option<Book>

    constructor (d: Derivation)
      ensures this.d == d && ton == map[] && jetton == map[] && addresses == None
    {
      this.d := d;
      ton, jetton, addresses := map[], map[], None;
    }

    ghost predicate Valid()
      reads this
    {
      Injective(d) && Tables(d, ton, jetton) && (addresses.Some? ==> Mirrors(addresses.value, ton, jetton))
    }

    /** Reads both tables in whatever order the database returns the rows.  A book that was kept through saves is the
        very book a restart would read. */
    method LoadAddressBook()
      requires Valid()
      modifies this`addresses
      ensures Valid() && addresses.Some? && Mirrors(addresses.value, ton, jetton)
      ensures old(addresses).Some? ==> addresses == old(addresses)
    {
      RowsAreSeparate(d, ton, jetton);
      var res := LoadTon();
      res := LoadJetton(res);
      if addresses.Some? { MirrorIsUnique(res, addresses.value, ton, jetton); }
      addresses := Some(res);
    }

    method LoadTon() returns (res: Book)
      requires Separate(ton, jetton)
      ensures Describes(res, ton, ton.Keys, jetton, {})
    {
      res := map[];
      var ids := ton.Keys;
      while ids != {}
        invariant ids <= ton.Keys
        invariant Describes(res, ton, ton.Keys - ids, jetton, {})
        decreases ids
      {
        var i :| i in ids;
        PutTon(res, ton, ton.Keys - ids, jetton, i);
        assert ton.Keys - (ids - {i}) == ton.Keys - ids + {i};
        res := res[ton[i].address := TonInfo(ton[i])];
        ids := ids - {i};
      }
      assert ton.Keys - {} == ton.Keys;
    }

    method LoadJetton(start: Book) returns (res: Book)
      requires Separate(ton, jetton) && Owned(ton, jetton) && Describes(start, ton, ton.Keys, jetton, {})
      ensures Mirrors(res, ton, jetton)
    {
      res := start;
      var keys := jetton.Keys;
      ghost var done: set<Address> := {};
      while keys != {}
        invariant keys <= jetton.Keys && done + keys == jetton.Keys
        invariant Describes(res, ton, ton.Keys, jetton, done)
        decreases keys
      {
        var a :| a in keys;
        PutJetton(res, ton, jetton, done, a);
        res := res[a := JettonInfo(ton, jetton[a])];
        keys, done := keys - {a}, done + {a};
      }
      assert done == jetton.Keys;
    }

    /** The insert fails on a used id; the book changes only after it succeeded. */
    method SaveTonWallet(id: nat, r: TonRow) returns (err: Option<SaveError>)
      requires Valid() && addresses.Some?
      requires TonRowOk(d, id, r) && (r.wtype == TonHot ==> forall i :: i in ton ==> ton[i].wtype != TonHot)
      modifies this`ton, this`addresses
      ensures Valid() && addresses.Some?
      ensures err.Some? <==> id in old(ton)
      ensures err.Some? ==> ton == old(ton) && addresses == old(addresses)
      ensures err.None? ==> ton == old(ton)[id := r] && addresses == Some(old(addresses).value[r.address := TonInfo(r)])
    {
      if id in ton { return Some(UniqueViolation); }
      NewTonRow(d, ton, jetton, id, r);
      RowsAreSeparate(d, ton[id := r], jetton);
      NewTonEntry(addresses.value, ton, jetton, id, r);
      ton := ton[id := r];
      addresses := Some(addresses.value[r.address := TonInfo(r)]);
      return None;
    }

    /** One transaction: the owner first, unless it is the hot wallet, then the jetton wallet. */
    method SaveJettonWallet(owner: Address, id: nat, userId: string, currency: string, wtype: WalletType,
                            address: Address, notSaveOwner: bool)
      returns (err: Option<SaveError>)
      requires Valid() && addresses.Some? && id < MAX_UINT32
      requires address == d.jetton(owner, d.master(currency))
      requires if notSaveOwner
               then wtype == JettonHot && id in ton && ton[id].wtype == TonHot && ton[id].address == owner
               else wtype == JettonDeposit && owner == d.proxy(id)
      modifies this`ton, this`jetton, this`addresses
      ensures Valid() && addresses.Some?
      ensures err.Some? <==> (!notSaveOwner && id in old(ton)) || address in old(jetton)
      ensures err.Some? ==> ton == old(ton) && jetton == old(jetton) && addresses == old(addresses)
      ensures err.None? ==> jetton == old(jetton)[address := JettonRow(id, userId, currency, wtype)]
      ensures err.None? ==> ton == if notSaveOwner then old(ton) else old(ton)[id := TonRow(userId, JettonOwner, owner)]
    {
      var begin := ton;
      if !notSaveOwner {
        if id in ton { return Some(UniqueViolation); }
        FreshJetton(d, ton, jetton, id, d.master(currency));
        NewTonRow(d, ton, jetton, id, TonRow(userId, JettonOwner, owner));
        RowsAreSeparate(d, ton[id := TonRow(userId, JettonOwner, owner)], jetton);
        NewTonEntry(addresses.value, ton, jetton, id, TonRow(userId, JettonOwner, owner));
        ton := ton[id := TonRow(userId, JettonOwner, owner)];
      }
      if address in jetton {
        ton := begin;
        return Some(UniqueViolation);
      }
      ghost var book := if notSaveOwner then addresses.value
                        else addresses.value[owner := AddressInfo(JettonOwner, None, userId)];
      NewJettonRow(d, ton, jetton, address, JettonRow(id, userId, currency, wtype));
      RowsAreSeparate(d, ton, jetton[address := JettonRow(id, userId, currency, wtype)]);
      NewJettonEntry(book, ton, jetton, address, JettonRow(id, userId, currency, wtype));
      jetton := jetton[address := JettonRow(id, userId, currency, wtype)];
      if wtype == JettonDeposit {
        addresses := Some(addresses.value[owner := AddressInfo(JettonOwner, None, userId)]);
      }
      addresses := Some(addresses.value[address := AddressInfo(wtype, Some(owner), userId)]);
      return None;
    }

    /** MAX(subwallet_id), or the id of the hot wallet when there is no row. */
    method GetLastSubwalletID() returns (last: nat)
      ensures IsLast(ton, last)
      ensures ton == map[] ==> last == 698983191
    {
      if ton == map[] { return DEFAULT_SUBWALLET; }
      var ids := ton.Keys;
      ghost var some :| some in ton;
      var i :| i in ids;
      last, ids := i, ids - {i};
      while ids != {}
        invariant last in ton && ids <= ton.Keys
        invariant forall j :: j in ton && j !in ids ==> j <= last
        decreases ids
      {
        var k :| k in ids;
        last := if k > last then k else last;
        ids := ids - {k};
      }
    }

    /** One new deposit address: its id is above every id in use, below the largest uint32, and the first one after
        the last used whose address is in the shard.  It fails only when no such id is left. */
    method GenerateAddress(userId: string, currency: string, supported: bool, shard: nat)
      returns (address: Option<Address>, ghost last: nat, ghost id: nat)
      requires Valid() && addresses.Some?
      modifies this`ton, this`jetton, this`addresses
      ensures Valid() && addresses.Some?
      ensures IsLast(old(ton), last)
      ensures address.None? ==> ton == old(ton) && jetton == old(jetton) && addresses == old(addresses)
      ensures address.None? ==>
        (currency != TON_SYMBOL && !supported) || NoneInShard(d, currency, shard, last + 1, MAX_UINT32)
      ensures address.Some? ==> last < id < 0xFFFF_FFFF && id !in old(ton)
      ensures address.None? && (currency == TON_SYMBOL || supported) ==>
        NoneInShard(d, currency, shard, last + 1, 0xFFFF_FFFF)
      ensures address.Some? ==>
        ton == old(ton)[id := TonRow(userId, if currency == TON_SYMBOL then TonDeposit else JettonOwner, address.value)]
      ensures address.Some? && currency == TON_SYMBOL ==> jetton == old(jetton)
      ensures address.Some? && currency != TON_SYMBOL ==>
        jetton == old(jetton)[d.jetton(d.proxy(id), d.master(currency)) :=
                                JettonRow(id, userId, currency, JettonDeposit)]
      ensures address.Some? ==>
        InShard(d, Candidate(d, currency, id), shard) && NoneInShard(d, currency, shard, last + 1, id)
    {
      last, id := 0, 0;
      var greatest := GetLastSubwalletID();
      last := greatest;
      NextIdFits(d, ton, jetton, last);
      var start := (greatest + 1) % 0x1_0000_0000;
      if currency == TON_SYMBOL {
        address, id := GenerateTon(userId, shard, start);
      } else if supported {
        address, id := GenerateJetton(userId, currency, shard, start);
      } else {
        address := None;
      }
    }

    method GenerateTon(userId: string, shard: nat, start: nat) returns (address: Option<Address>, ghost id: nat)
      requires Valid() && addresses.Some? && forall i :: i in ton ==> i < start
      modifies this`ton, this`addresses
      ensures Valid() && addresses.Some?
      ensures address.None? ==> ton == old(ton) && addresses == old(addresses)
      ensures address.None? ==> NoneInShard(d, TON_SYMBOL, shard, start, MAX_UINT32)
      ensures address.Some? ==> start <= id < MAX_UINT32
      ensures address.Some? ==> ton == old(ton)[id := TonRow(userId, TonDeposit, address.value)]
      ensures address.Some? ==>
        InShard(d, Candidate(d, TON_SYMBOL, id), shard) && NoneInShard(d, TON_SYMBOL, shard, start, id)
    {
      id := 0;
      var found := GenerateSubWallet(d, shard, start);
      if found.None? { return None, id; }
      id := found.value;
      var err := SaveTonWallet(found.value, TonRow(userId, TonDeposit, d.wallet(found.value)));
      return Some(d.wallet(found.value)), id;
    }

    method GenerateJetton(userId: string, currency: string, shard: nat, start: nat)
      returns (address: Option<Address>, ghost id: nat)
      requires Valid() && addresses.Some? && (forall i :: i in ton ==> i < start) && currency != TON_SYMBOL
      modifies this`ton, this`jetton, this`addresses
      ensures Valid() && addresses.Some?
      ensures address.None? ==> ton == old(ton) && jetton == old(jetton) && addresses == old(addresses)
      ensures address.None? ==> NoneInShard(d, currency, shard, start, MAX_UINT32)
      ensures address.Some? ==> start <= id < MAX_UINT32
      ensures address.Some? ==> ton == old(ton)[id := TonRow(userId, JettonOwner, address.value)]
      ensures address.Some? ==>
        jetton == old(jetton)[d.jetton(d.proxy(id), d.master(currency)) :=
                                JettonRow(id, userId, currency, JettonDeposit)]
      ensures address.Some? ==>
        InShard(d, Candidate(d, currency, id), shard) && NoneInShard(d, currency, shard, start, id)
    {
      id := 0;
      var found := GenerateDepositJettonWalletForProxy(d, shard, currency, start);
      if found.None? { return None, id; }
      id := found.value;
      var proxy := d.proxy(found.value);
      var wallet := d.jetton(proxy, d.master(currency));
      FreshJetton(d, ton, jetton, id, d.master(currency));
      var err := SaveJettonWallet(proxy, found.value, userId, currency, JettonDeposit, wallet, false);
      return Some(proxy), id;
    }
  }

  // ---------------------------------------------------------------- the allocator

  /** The greatest id in use, or that of the hot wallet when there is none. */
  predicate IsLast(ton: TonTable, last: nat) {
    if ton == map[] then last == DEFAULT_SUBWALLET else last in ton && forall i :: i in ton ==> i <= last
  }

  /** Adding one to the last id stays within 32 bits. */
  lemma NextIdFits(d: Derivation, ton: TonTable, jetton: JettonTable, last: nat)
    requires Tables(d, ton, jetton) && IsLast(ton, last)
    ensures last < MAX_UINT32 && (last + 1) % 0x1_0000_0000 == last + 1
    ensures forall i :: i in ton ==> i < last + 1
  {
    if ton != map[] { assert TonRowOk(d, last, ton[last]); }
  }

  predicate InShard(d: Derivation, a: Address, shard: nat) { d.firstByte(a) == shard }

  /** The address that must be in the shard: of the deposit itself, or of the jetton wallet of the proxy. */
  function Candidate(d: Derivation, currency: string, id: nat): Address {
    if currency == TON_SYMBOL then d.wallet(id) else d.jetton(d.proxy(id), d.master(currency))
  }

  predicate NoneInShard(d: Derivation, currency: string, shard: nat, start: nat, end: nat) {
    forall j :: start <= j < end ==> !InShard(d, Candidate(d, currency, j), shard)
  }

  method GenerateSubWallet(d: Derivation, shard: nat, start: nat) returns (id: Option<nat>)
    ensures id.Some? ==> start <= id.value < MAX_UINT32 && InShard(d, d.wallet(id.value), shard)
    ensures NoneInShard(d, TON_SYMBOL, shard, start, if id.Some? then id.value else MAX_UINT32)
  {
    var i := start;
    while i < MAX_UINT32
      invariant start <= i
      invariant NoneInShard(d, TON_SYMBOL, shard, start, i)
    {
      if InShard(d, d.wallet(i), shard) { return Some(i); }
      i := i + 1;
    }
    return None;
  }

  method GenerateDepositJettonWalletForProxy(d: Derivation, shard: nat, currency: string, start: nat)
    returns (id: Option<nat>)
    requires currency != TON_SYMBOL
    ensures id.Some? ==> start <= id.value < MAX_UINT32 && InShard(d, Candidate(d, currency, id.value), shard)
    ensures NoneInShard(d, currency, shard, start, if id.Some? then id.value else MAX_UINT32)
  {
    var i := start;
    while i < MAX_UINT32
      invariant start <= i
      invariant NoneInShard(d, currency, shard, start, i)
    {
      if InShard(d, d.jetton(d.proxy(i), d.master(currency)), shard) { return Some(i); }
      i := i + 1;
    }
    return None;
  }

  // ---------------------------------------------------------------- one row more

  lemma NewTonRow(d: Derivation, ton: TonTable, jetton: JettonTable, id: nat, r: TonRow)
    requires Tables(d, ton, jetton) && id !in ton && TonRowOk(d, id, r)
    requires r.wtype == TonHot ==> forall i :: i in ton ==> ton[i].wtype != TonHot
    ensures Tables(d, ton[id := r], jetton)
  {
    forall a | a in jetton ensures JettonRowOk(d, ton[id := r], a, jetton[a]) {
      assert JettonRowOk(d, ton, a, jetton[a]);
    }
  }

  predicate Owned(ton: TonTable, jetton: JettonTable) { forall a :: a in jetton ==> jetton[a].subwalletId in ton }

  lemma NewTonEntry(book: Book, ton: TonTable, jetton: JettonTable, id: nat, r: TonRow)
    requires Mirrors(book, ton, jetton) && id !in ton && Separate(ton[id := r], jetton)
    ensures Mirrors(book[r.address := TonInfo(r)], ton[id := r], jetton)
  {
    var ton', book' := ton[id := r], book[r.address := TonInfo(r)];
    assert ton'[id] == r;
    forall i | i in ton' ensures ton'[i].address in book' && book'[ton'[i].address] == TonInfo(ton'[i]) {
      if i != id { assert ton'[i].address != ton'[id].address; }
    }
    NothingElse(book, ton, ton.Keys, jetton.Keys, ton', ton'.Keys, jetton.Keys, r.address, TonInfo(r));
  }

  /** A book that gained one address, of a row that is there, still holds rows only. */
  lemma NothingElse(book: Book, ton: TonTable, ids: set<nat>, addresses: set<Address>,
                    ton': TonTable, ids': set<nat>, addresses': set<Address>, a: Address, info: AddressInfo)
    requires OnlyRows(book, ton, ids, addresses)
    requires ids <= ids' && addresses <= addresses'
    requires forall i :: i in ton ==> i in ton' && ton'[i].address == ton[i].address
    requires a in addresses' || SomeTonRow(ton', ids', a)
    ensures OnlyRows(book[a := info], ton', ids', addresses')
  {
    forall b | b in book && b !in addresses' ensures SomeTonRow(ton', ids', b) {
      assert SomeTonRow(ton, ids, b);
      var i :| i in ids && i in ton && ton[i].address == b;
      assert i in ids' && ton'[i].address == b;
    }
  }

  lemma NewJettonRow(d: Derivation, ton: TonTable, jetton: JettonTable, a: Address, r: JettonRow)
    requires Tables(d, ton, jetton) && a !in jetton && JettonRowOk(d, ton, a, r)
    requires r.wtype == JettonDeposit ==> forall b :: b in jetton ==> jetton[b].subwalletId != r.subwalletId
    ensures Tables(d, ton, jetton[a := r])
  {
    var jetton' := jetton[a := r];
    forall b, c | b in jetton' && c in jetton' ensures OneDeposit(jetton', b, c) {
      if b in jetton && c in jetton { assert OneDeposit(jetton, b, c); }
    }
  }

  lemma NewJettonEntry(book: Book, ton: TonTable, jetton: JettonTable, a: Address, r: JettonRow)
    requires Mirrors(book, ton, jetton) && a !in jetton && r.subwalletId in ton && Separate(ton, jetton[a := r])
    ensures Mirrors(book[a := JettonInfo(ton, r)], ton, jetton[a := r])
  {
    NothingElse(book, ton, ton.Keys, jetton.Keys, ton, ton.Keys, jetton[a := r].Keys, a, JettonInfo(ton, r));
    assert a in jetton[a := r];
  }

  /** A row of ton_wallets put into a book under construction. */
  lemma PutTon(book: Book, ton: TonTable, ids: set<nat>, jetton: JettonTable, i: nat)
    requires Separate(ton, jetton) && Describes(book, ton, ids, jetton, {}) && i in ton
    ensures Describes(book[ton[i].address := TonInfo(ton[i])], ton, ids + {i}, jetton, {})
  {
    assert i in ids + {i};
    NothingElse(book, ton, ids, {}, ton, ids + {i}, {}, ton[i].address, TonInfo(ton[i]));
  }

  /** A row of jetton_wallets put into it. */
  lemma PutJetton(book: Book, ton: TonTable, jetton: JettonTable, done: set<Address>, a: Address)
    requires Separate(ton, jetton) && Describes(book, ton, ton.Keys, jetton, done)
    requires a in jetton && jetton[a].subwalletId in ton
    ensures Describes(book[a := JettonInfo(ton, jetton[a])], ton, ton.Keys, jetton, done + {a})
  {
    NothingElse(book, ton, ton.Keys, done, ton, ton.Keys, done + {a}, a, JettonInfo(ton, jetton[a]));
  }

  /** The jetton wallet of a fresh proxy is fresh. */
  lemma FreshJetton(d: Derivation, ton: TonTable, jetton: JettonTable, id: nat, m: Address)
    requires Injective(d) && Tables(d, ton, jetton) && id !in ton
    ensures d.jetton(d.proxy(id), m) !in jetton
    ensures forall a :: a in jetton ==> jetton[a].subwalletId != id
  {
    var w := d.jetton(d.proxy(id), m);
    forall a | a in jetton ensures jetton[a].subwalletId != id { assert JettonRowOk(d, ton, a, jetton[a]); }
    if w in jetton {
      assert JettonRowOk(d, ton, w, jetton[w]);
      var k := jetton[w].subwalletId;
      ProxyRow(d, k, ton[k], id);
    }
  }

  lemma ProxyRow(d: Derivation, k: nat, r: TonRow, id: nat)
    requires Injective(d) && TonRowOk(d, k, r) && r.address == d.proxy(id)
    ensures k == id
  {
  }

  // ---------------------------------------------------------------- deposits and their owners

  /** In the book every jetton deposit has an owner that is a proxy in the book, and no two share one. */
  lemma DepositsHaveTheirOwners(d: Derivation, book: Book, ton: TonTable, jetton: JettonTable, a: Address, b: Address)
    requires Injective(d) && Tables(d, ton, jetton) && Mirrors(book, ton, jetton)
    requires WalletTypeOf(book, a) == Some(JettonDeposit) && WalletTypeOf(book, b) == Some(JettonDeposit)
    ensures book[a].owner.Some? && WalletTypeOf(book, book[a].owner.value) == Some(JettonOwner)
    ensures a in jetton && book[a].owner.value == d.proxy(jetton[a].subwalletId)
    ensures book[a].owner == book[b].owner ==> a == b
  {
    DepositRow(d, book, ton, jetton, a);
    DepositRow(d, book, ton, jetton, b);
    assert OneDeposit(jetton, a, b);
  }

  lemma TonEntry(book: Book, ton: TonTable, jetton: JettonTable, a: Address) returns (i: nat)
    requires Mirrors(book, ton, jetton) && a in book && a !in jetton
    ensures i in ton && ton[i].address == a && book[a].wtype == ton[i].wtype
  {
    assert SomeTonRow(ton, ton.Keys, a);
    i :| i in ton && ton[i].address == a;
  }

  lemma DepositRow(d: Derivation, book: Book, ton: TonTable, jetton: JettonTable, a: Address)
    requires Tables(d, ton, jetton) && Mirrors(book, ton, jetton)
    requires WalletTypeOf(book, a) == Some(JettonDeposit)
    ensures a in jetton && jetton[a].wtype == JettonDeposit && jetton[a].subwalletId in ton
    ensures book[a].owner == Some(d.proxy(jetton[a].subwalletId))
    ensures WalletTypeOf(book, d.proxy(jetton[a].subwalletId)) == Some(JettonOwner)
  {
    if a !in jetton { var i := TonEntry(book, ton, jetton, a); }
    assert JettonRowOk(d, ton, a, jetton[a]);
    assert TonRowOk(d, jetton[a].subwalletId, ton[jetton[a].subwalletId]);
  }

  /** A row of the service requests as the selection joins it: the id is that of the wallet row of its source. */
  predicate Joined(ton: TonTable, t: ServiceTask) { t.subwalletId in ton && ton[t.subwalletId].address == t.from }

  /** The rows and the book give the batch builder what it needs: the proxy of a service row's id is its source, and
      jetton deposits have owners of their own, in the book. */
  lemma FeedsTheBuilder(w: World, d: Derivation, book: Book, ton: TonTable, jetton: JettonTable,
                        services: seq<ServiceTask>, tasks: seq<InternalTask>)
    requires Injective(d) && Tables(d, ton, jetton) && Mirrors(book, ton, jetton) && w.proxy == d.proxy
    requires forall i :: 0 <= i < |services| ==> Joined(ton, services[i])
    requires forall i, j :: 0 <= i < j < |tasks| ==> tasks[i].from != tasks[j].from
    requires forall i :: 0 <= i < |tasks| ==>
      && WalletTypeOf(book, tasks[i].from) == Some(JettonDeposit) && tasks[i].from in jetton
      && tasks[i].subwalletId == jetton[tasks[i].from].subwalletId
    ensures DistinctProxies(w, tasks) && RowsMatchBook(w, book, services, tasks)
  {
    forall i | 0 <= i < |services| && WalletTypeOf(book, services[i].from) == Some(JettonOwner)
      ensures w.proxy(services[i].subwalletId) == services[i].from
    {
      ServiceSource(d, book, ton, jetton, services[i]);
    }
    forall i | 0 <= i < |tasks| ensures WalletTypeOf(book, w.proxy(tasks[i].subwalletId)) == Some(JettonOwner) {
      DepositRow(d, book, ton, jetton, tasks[i].from);
    }
    forall i, j | 0 <= i < j < |tasks| ensures w.proxy(tasks[i].subwalletId) != w.proxy(tasks[j].subwalletId) {
      DepositsHaveTheirOwners(d, book, ton, jetton, tasks[i].from, tasks[j].from);
      DepositsHaveTheirOwners(d, book, ton, jetton, tasks[j].from, tasks[i].from);
    }
  }

  lemma ServiceSource(d: Derivation, book: Book, ton: TonTable, jetton: JettonTable, t: ServiceTask)
    requires Tables(d, ton, jetton) && Mirrors(book, ton, jetton) && Joined(ton, t)
    requires WalletTypeOf(book, t.from) == Some(JettonOwner)
    ensures d.proxy(t.subwalletId) == t.from
  {
    assert TonRowOk(d, t.subwalletId, ton[t.subwalletId]);
  }
}
