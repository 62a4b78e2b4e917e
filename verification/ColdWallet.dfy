/** Sweeps of what the hot wallet holds beyond its maximum to the cold wallet, one request per currency at a time. */
module ColdWallet {
  import opened Types
  import opened Ledger
  import opened Messages
  import opened Protocol

  /** Above max the balance is swept down to residual, which the operator sets below max. */
  datatype Limits = Limits(max: int, residual: int)

  predicate Sensible(l: Limits) { l.residual <= l.max }

  /** Exactly then is every sweep positive. */
  lemma PositiveIff(l: Limits)
    ensures (forall balance: int :: balance > l.max ==> SweptAmount(l, balance) > 0) <==> Sensible(l)
  {
    if !Sensible(l) { assert SweptAmount(l, l.max + 1) <= 0; }
  }

  function SweptAmount(l: Limits, balance: int): int { balance - l.residual }

  datatype Cold = Cold(address: Address, bounceable: bool)

  /** A currency is swept when nothing of it is on its way and its balance is above the maximum. */
  predicate JettonDue(requests: map<QueryId, Request>, dest: Address, c: string, limits: map<string, Limits>,
                      balance: string -> int)
  {
    c in limits && !InProgressInternal(requests, dest, c) && balance(c) > limits[c].max
  }

  function DueJettons(requests: map<QueryId, Request>, dest: Address, limits: map<string, Limits>,
                      balance: string -> int): set<string>
  {
    set c | c in limits && JettonDue(requests, dest, c, limits, balance)
  }

  /** What is left of the TON balance when each of n jetton sweeps has been given its fee. */
  function TonLeft(tonBalance: int, n: nat): int { tonBalance - TRANSFER_FEE * n }

  function SweepRequest(uuid: string, dest: Address, c: string, amount: int, bounceable: bool): Request {
    Request("", uuid, dest, c, amount, bounceable, NO_TEXT, "", true, false, false)
  }

  predicate IsSweep(r: Request, dest: Address, c: string) {
    && r.isInternal && !r.processing && !r.processed && r.dest == dest && r.currency == c
    && r.userId == "" && r.comment == PlainText("") && r.binaryComment == ""
  }

  /** Each sweep has an id of its own and the bounce flag of its kind. */
  predicate Labelled(after: map<QueryId, Request>, swept: map<string, QueryId>, uuid: string -> string,
                     bounceable: bool) {
    forall c :: c in swept && swept[c] in after ==>
      && after[swept[c]].userQueryId == uuid(c)
      && after[swept[c]].bounceable == (c == "TON" ==> bounceable)
  }

  predicate Kept(before: map<QueryId, Request>, after: map<QueryId, Request>) {
    forall q :: q in before ==> q in after && after[q] == before[q]
  }

  /** The requests added since before: one for each currency in swept, under the id given there. */
  predicate Saved(before: map<QueryId, Request>, after: map<QueryId, Request>, dest: Address,
                  swept: map<string, QueryId>) {
    && Kept(before, after)
    && (forall c :: c in swept ==> swept[c] in after && swept[c] !in before && IsSweep(after[swept[c]], dest, c))
    && (forall q :: q in after && q !in before ==> after[q].currency in swept && swept[after[q].currency] == q)
  }

  lemma SweepAdded(before: map<QueryId, Request>, after: map<QueryId, Request>, dest: Address,
                   swept: map<string, QueryId>, q: QueryId, r: Request)
    requires Saved(before, after, dest, swept) && r.currency !in swept && q !in after && IsSweep(r, dest, r.currency)
    ensures Saved(before, after[q := r], dest, swept[r.currency := q])
  {
  }

  /** Sweeps of other currencies do not put a currency in progress. */
  lemma SameProgress(before: map<QueryId, Request>, after: map<QueryId, Request>, dest: Address,
                     swept: map<string, QueryId>, c: string)
    requires Saved(before, after, dest, swept) && c !in swept
    ensures InProgressInternal(after, dest, c) <==> InProgressInternal(before, dest, c)
  {
    if InProgressInternal(after, dest, c) {
      var q :| q in after && after[q].dest == dest && after[q].currency == c
               && after[q].isInternal && !after[q].processed;
      assert q in before && before[q] == after[q];
    }
    if InProgressInternal(before, dest, c) {
      var q :| q in before && before[q].dest == dest && before[q].currency == c
               && before[q].isInternal && !before[q].processed;
      assert q in after && after[q] == before[q];
    }
  }

  /** Never two unprocessed internal requests to one destination in one currency. */
  lemma OnePerCurrency(after: map<QueryId, Request>, dest: Address, q: QueryId, r: Request)
    requires ColdWalletInv(after) && q !in after && r.dest == dest && !InProgressInternal(after, dest, r.currency)
    ensures ColdWalletInv(after[q := r])
  {
  }

  predicate FreshId(requests: map<QueryId, Request>, nextId: QueryId) { forall q :: q in requests ==> q < nextId }

  /** One sweep saved, under the next id. */
  method SaveSweep(db: Connection, r: Request, dest: Address, ghost before: map<QueryId, Request>,
                   ghost swept: map<string, QueryId>) returns (err: Option<DbError>)
    requires FreshId(db.requests, db.nextId) && ColdWalletInv(db.requests) && Saved(before, db.requests, dest, swept)
    requires IsSweep(r, dest, r.currency) && r.currency !in swept && !InProgressInternal(before, dest, r.currency)
    modifies db
    ensures FreshId(db.requests, db.nextId) && ColdWalletInv(db.requests)
    ensures err.None? ==> db.requests == old(db.requests)[old(db.nextId) := r] && old(db.nextId) !in old(db.requests)
    ensures err.None? ==> Saved(before, db.requests, dest, swept[r.currency := old(db.nextId)])
    ensures err.Some? ==> db.requests == old(db.requests)
    ensures err.Some? ==> exists q :: q in db.requests && SameRequestKey(db.requests[q], r)
  {
    SameProgress(before, db.requests, dest, swept, r.currency);
    SweepAdded(before, db.requests, dest, swept, db.nextId, r);
    OnePerCurrency(db.requests, dest, db.nextId, r);
    assert r == r.(processing := false, processed := false);
    var id;
    id, err := db.SaveWithdrawalRequest(r);
  }

  /** Every jetton sweep is positive and leaves the residual. */
  predicate SweptDown(after: map<QueryId, Request>, swept: map<string, QueryId>, limits: map<string, Limits>,
                      balance: string -> int) {
    forall c :: c in swept && c in limits ==>
      swept[c] in after && after[swept[c]].amount > 0 && balance(c) - after[swept[c]].amount == limits[c].residual
  }

  lemma SweptOneMore(after: map<QueryId, Request>, swept: map<string, QueryId>, limits: map<string, Limits>,
                     balance: string -> int, id: QueryId, r: Request)
    requires SweptDown(after, swept, limits, balance) && id !in after
    requires r.currency in limits ==> r.amount > 0 && balance(r.currency) - r.amount == limits[r.currency].residual
    ensures SweptDown(after[id := r], swept[r.currency := id], limits, balance)
  {
  }

  lemma LabelledOneMore(before: map<QueryId, Request>, after: map<QueryId, Request>, dest: Address,
                        swept: map<string, QueryId>, uuid: string -> string, bounceable: bool, id: QueryId, r: Request)
    requires Saved(before, after, dest, swept) && Labelled(after, swept, uuid, bounceable) && id !in after
    requires r.userQueryId == uuid(r.currency) && r.bounceable == (r.currency == "TON" ==> bounceable)
    ensures Labelled(after[id := r], swept[r.currency := id], uuid, bounceable)
  {
  }

  /** One currency of the round, visited when it is not in left any more. */
  lemma Visited(due: set<string>, left: set<string>, c: string)
    requires c in left
    ensures due - (left - {c}) == if c in due then (due - left) + {c} else due - left
  {
  }

  method SweepJetton(db: Connection, dest: Address, c: string, limit: Limits, balance: int, uuid: string,
                     ghost before: map<QueryId, Request>, ghost swept: map<string, QueryId>)
    returns (err: Option<DbError>, taken: bool)
    requires Sensible(limit) && c !in swept
    requires FreshId(db.requests, db.nextId) && ColdWalletInv(db.requests) && Saved(before, db.requests, dest, swept)
    modifies db
    ensures FreshId(db.requests, db.nextId) && ColdWalletInv(db.requests)
    ensures taken <==> !InProgressInternal(before, dest, c) && balance > limit.max
    ensures !taken ==> err.None? && db.requests == old(db.requests)
    ensures taken && err.None? ==> old(db.nextId) !in old(db.requests)
    ensures taken && err.None? ==> Saved(before, db.requests, dest, swept[c := old(db.nextId)])
    ensures taken && err.None? ==>
      db.requests == old(db.requests)[old(db.nextId) := SweepRequest(uuid, dest, c, balance - limit.residual, true)]
  {
    SameProgress(before, db.requests, dest, swept, c);
    var inProgress := db.IsInProgressInternalWithdrawalRequest(dest, c);
    if inProgress || balance <= limit.max { return None, false; }
    err := SaveSweep(db, SweepRequest(uuid, dest, c, balance - limit.residual, true), dest, before, swept);
    taken := true;
  }

  method SweepJettons(db: Connection, dest: Address, limits: map<string, Limits>, tonBalance: int,
                      balance: string -> int, uuid: string -> string, ghost bounceable: bool)
    returns (err: Option<DbError>, tonLeft: int, ghost swept: map<string, QueryId>)
    requires (forall c :: c in limits ==> Sensible(limits[c])) && TON_SYMBOL !in limits
    requires FreshId(db.requests, db.nextId) && ColdWalletInv(db.requests)
    modifies db
    ensures FreshId(db.requests, db.nextId) && ColdWalletInv(db.requests)
    ensures err.None? ==> Saved(old(db.requests), db.requests, dest, swept)
    ensures err.None? ==> swept.Keys == DueJettons(old(db.requests), dest, limits, balance)
    ensures err.None? ==> SweptDown(db.requests, swept, limits, balance) && tonLeft == TonLeft(tonBalance, |swept.Keys|)
    ensures err.None? ==> Labelled(db.requests, swept, uuid, bounceable)
  {
    err, tonLeft, swept := None, tonBalance, map[];
    ghost var before := db.requests;
    var left := limits.Keys;
    ghost var due := DueJettons(before, dest, limits, balance);
    while left != {}
      invariant left <= limits.Keys && InRound(before, db.requests, db.nextId, dest, swept, due - left, limits, balance)
      invariant tonLeft == TonLeft(tonBalance, |swept.Keys|)
      invariant Labelled(db.requests, swept, uuid, bounceable)
      decreases left
    {
      var c :| c in left;
      Visited(due, left, c);
      ghost var id, earlier := db.nextId, db.requests;
      var taken;
      err, taken := SweepJetton(db, dest, c, limits[c], balance(c), uuid(c), before, swept);
      if err.Some? { return; }
      if taken {
        SweptOneMore(earlier, swept, limits, balance, id, db.requests[id]);
        LabelledOneMore(before, earlier, dest, swept, uuid, bounceable, id, db.requests[id]);
        CountOneMore(swept, c, id, tonBalance);
        tonLeft := tonLeft - TRANSFER_FEE;
        swept := swept[c := id];
      }
      left := left - {c};
    }
    assert due - {} == due;
  }

  /** The currencies in done are swept, and nothing else is. */
  ghost predicate InRound(before: map<QueryId, Request>, after: map<QueryId, Request>, nextId: QueryId, dest: Address,
                          swept: map<string, QueryId>, done: set<string>, limits: map<string, Limits>,
                          balance: string -> int)
  {
    && FreshId(after, nextId) && ColdWalletInv(after) && Saved(before, after, dest, swept)
    && SweptDown(after, swept, limits, balance) && swept.Keys == done
  }

  lemma CountOneMore(swept: map<string, QueryId>, c: string, id: QueryId, ton: int)
    requires c !in swept
    ensures (swept[c := id]).Keys == swept.Keys + {c}
    ensures TonLeft(ton, |(swept[c := id]).Keys|) == TonLeft(ton, |swept.Keys|) - TRANSFER_FEE
  {
    OneKeyMore(swept, c, id);
  }

  lemma OneKeyMore(swept: map<string, QueryId>, c: string, id: QueryId)
    requires c !in swept
    ensures (swept[c := id]).Keys == swept.Keys + {c} && |(swept[c := id]).Keys| == |swept.Keys| + 1
  {
    assert (swept[c := id]).Keys == swept.Keys + {c};
  }

  /** One round.  Go visits the jetton wallets in any order. */
  method MakeColdWalletWithdrawals(db: Connection, cold: Option<Cold>, ton: Limits, limits: map<string, Limits>,
                                   tonBalance: int, balance: string -> int, uuid: string -> string)
    returns (err: Option<DbError>, ghost swept: map<string, QueryId>)
    requires Sensible(ton) && (forall c :: c in limits ==> Sensible(limits[c])) && TON_SYMBOL !in limits
    requires FreshId(db.requests, db.nextId) && ColdWalletInv(db.requests)
    modifies db
    ensures FreshId(db.requests, db.nextId) && ColdWalletInv(db.requests)
    ensures cold.None? ==> db.requests == old(db.requests) && swept == map[]
    ensures cold.Some? && err.None? ==>
      && RoundDone(old(db.requests), db.requests, cold.value.address, swept, ton, limits, tonBalance, balance)
      && Labelled(db.requests, swept, uuid, cold.value.bounceable)
  {
    err, swept := None, map[];
    if cold.None? { return; }
    var dest := cold.value.address;
    ghost var before := db.requests;
    var tonLeft;
    err, tonLeft, swept := SweepJettons(db, dest, limits, tonBalance, balance, uuid, cold.value.bounceable);
    if err.Some? { return; }
    ghost var id, jettons, after := db.nextId, swept, db.requests;
    SameProgress(before, db.requests, dest, swept, TON_SYMBOL);
    assert swept.Keys - {TON_SYMBOL} == swept.Keys;
    var inProgress := db.IsInProgressInternalWithdrawalRequest(dest, TON_SYMBOL);
    if inProgress || tonLeft <= ton.max { return; }
    var r := SweepRequest(uuid(TON_SYMBOL), dest, TON_SYMBOL, tonLeft - ton.residual, cold.value.bounceable);
    err := SaveSweep(db, r, dest, before, swept);
    if err.Some? { return; }
    SweptOneMore(after, jettons, limits, balance, id, r);
    LabelledOneMore(before, after, dest, jettons, uuid, cold.value.bounceable, id, r);
    OneKeyMore(jettons, TON_SYMBOL, id);
    swept := swept[TON_SYMBOL := id];
    assert swept.Keys - {TON_SYMBOL} == jettons.Keys;
  }

  /** What one round saved: a sweep for every currency that is due and no other request.  Each jetton sweep is positive
      and leaves exactly the residual; the TON sweep is positive and leaves the residual and one fee per jetton
      sweep. */
  predicate RoundDone(before: map<QueryId, Request>, after: map<QueryId, Request>, dest: Address,
                      swept: map<string, QueryId>, ton: Limits, limits: map<string, Limits>, tonBalance: int,
                      balance: string -> int)
  {
    var due := DueJettons(before, dest, limits, balance);
    && Saved(before, after, dest, swept)
    && swept.Keys - {TON_SYMBOL} == due
    && SweptDown(after, swept, limits, balance)
    && (TON_SYMBOL in swept <==> !InProgressInternal(before, dest, TON_SYMBOL) && TonLeft(tonBalance, |due|) > ton.max)
    && (TON_SYMBOL in swept ==>
          && swept[TON_SYMBOL] in after && after[swept[TON_SYMBOL]].amount > 0
          && tonBalance - after[swept[TON_SYMBOL]].amount == ton.residual + TRANSFER_FEE * |due|)
  }
}
