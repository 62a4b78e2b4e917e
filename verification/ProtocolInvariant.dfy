/** Every step of the protocol keeps its invariant. */
module ProtocolInvariant {
  import opened Types
  import opened Ledger
  import opened BlockCommit
  import opened Protocol

  // ---------------------------------------------------------------- requests, tasks, messages

  lemma SubmitKeepsStatus(t: Tables, r: Request)
    requires RowsOwned(t.requests, t.nextId, t.external) && StatusInv(t.requests, t.external)
    requires SaveRequest(t, r).Ok?
    ensures var t' := SaveRequest(t, r).value;
      RowsOwned(t'.requests, t'.nextId, t'.external) && StatusInv(t'.requests, t'.external)
  {
    var t' := SaveRequest(t, r).value;
    forall k | k in t.external ensures t.external[k].queryId != t.nextId {
      assert t.external[k].queryId in t.requests;
    }
    forall q | q in t'.requests ensures StatusOf(t'.requests[q], q, t.external) {
      if q != t.nextId { assert StatusOf(t.requests[q], q, t.external); }
    }
  }

  lemma SubmitKeepsColdWallet(t: Tables, r: Request)
    requires ColdWalletInv(t.requests) && SaveRequest(t, r).Ok?
    requires r.isInternal ==> !InProgressInternal(t.requests, r.dest, r.currency)
    ensures ColdWalletInv(SaveRequest(t, r).value.requests)
  {
  }

  lemma SubmitKeepsInv(s: State, r: Request)
    requires Inv(s) && Enabled(s, Submit(r))
    ensures Inv(After(s, Submit(r)))
  {
    if SaveRequest(s.db, r).Ok? {
      SubmitKeepsStatus(s.db, r);
      SubmitKeepsColdWallet(s.db, r);
    }
  }

  /** A new row of the internal withdrawals: its message was not sent, or it belongs to a TON deposit. */
  lemma SaveTaskKeepsCarriers(s: State, m: Uuid, row: IntRow)
    requires Inv(s) && m !in s.db.internal
    requires row.sendingLt.None? && row.finishLt.None? && !row.failed
    requires m in s.carriers ==> row.expiredAt == s.batches[s.carriers[m].uuid].ttl
    ensures CarrierInv(s.db.internal[m := row], s.chain, s.batches, s.carriers)
  {
    if m in s.carriers {
      var c := s.carriers[m];
      assert c.uuid !in s.sent;
      assert m !in s.chain.settled;
    }
  }

  lemma SaveTaskKeepsInv(s: State, step: Step)
    requires Inv(s) && Enabled(s, step)
    requires step.SaveCarried? || step.SaveTonTask?
    ensures Inv(After(s, step))
  {
    var ttl := if step.SaveCarried? then s.batches[s.carriers[step.memo].uuid].ttl else step.expiredAt;
    SaveTaskKeepsCarriers(s, step.memo, IntRow(step.deposit, step.sinceLt, None, None, ttl, 0, false));
  }

  lemma SendKeepsInv(s: State)
    requires Inv(s) && Enabled(s, Send)
    ensures Inv(After(s, Send))
  {
  }

  // ---------------------------------------------------------------- the chain

  lemma ExtendOrdered(blocks: seq<BlockRow>, b: BlockRow)
    requires Ordered(blocks) && Follows(blocks, b)
    ensures Ordered(blocks + [b])
  {
  }

  lemma ProduceKeepsExternal(rows: map<ExtKey, ExtRow>, chain: Chain, batches: map<Uuid, Batch>, chain': Chain)
    requires ExternalInv(rows, chain, batches)
    requires chain.saved == chain'.saved <= |chain.blocks| <= |chain'.blocks|
    requires chain'.blocks[..|chain.blocks|] == chain.blocks
    requires forall u :: u in chain.executed ==> u in chain'.executed && chain'.executed[u] == chain.executed[u]
    requires forall u :: u in chain'.executed && u !in chain.executed ==> chain'.executed[u].at >= chain.saved
    ensures ExternalInv(rows, chain', batches)
  {
    forall ttl ensures Expired(chain', ttl) <==> Expired(chain, ttl) {
      assert chain.saved > 0 ==> chain'.blocks[..|chain.blocks|][chain.saved - 1] == chain.blocks[chain.saved - 1];
    }
    forall k | k in rows ensures ExtRowOk(k, rows[k], chain', batches) { assert ExtRowOk(k, rows[k], chain, batches); }
  }

  lemma ProduceKeepsCarriers(rows: map<Uuid, IntRow>, chain: Chain, batches: map<Uuid, Batch>,
                             carriers: map<Uuid, Carrier>, chain': Chain)
    requires CarrierInv(rows, chain, batches, carriers)
    requires chain.saved == chain'.saved <= |chain.blocks| <= |chain'.blocks|
    requires chain'.blocks[..|chain.blocks|] == chain.blocks
    requires forall u :: u in chain.executed ==> u in chain'.executed && chain'.executed[u] == chain.executed[u]
    requires forall u :: u in chain'.executed && u !in chain.executed ==> chain'.executed[u].at >= chain.saved
    requires forall m :: m in chain.settled ==> m in chain'.settled && chain'.settled[m] == chain.settled[m]
    requires forall m :: m in chain'.settled && m !in chain.settled ==> chain'.settled[m].at >= chain.saved
    requires StruckBefore(chain'.strays, chain.saved) == StruckBefore(chain.strays, chain.saved)
    ensures CarrierInv(rows, chain', batches, carriers)
  {
    forall ttl ensures Expired(chain', ttl) <==> Expired(chain, ttl) {
      assert chain.saved > 0 ==> chain'.blocks[..|chain.blocks|][chain.saved - 1] == chain.blocks[chain.saved - 1];
    }
    forall m | m in rows && m in carriers
      ensures IntRowOk(m, rows[m], carriers[m], batches[carriers[m].uuid].ttl, chain')
    {
      assert IntRowOk(m, rows[m], carriers[m], batches[carriers[m].uuid].ttl, chain);
    }
  }

  lemma ProduceKeepsSettlements(s: State, b: BlockRow, runs: map<Uuid, set<Address>>, transfers: map<Uuid, bool>,
                                strays: seq<InternalWithdrawal>)
    requires SettlementInv(s.chain, s.carriers) && EnabledBlock(s, b, runs, transfers, strays)
    ensures SettlementInv(WithBlock(s.chain, b, runs, transfers, strays), s.carriers)
  {
    var chain' := WithBlock(s.chain, b, runs, transfers, strays);
    forall m | m in chain'.settled
      ensures m in s.carriers && chain'.settled[m].at < |chain'.blocks|
      ensures SentBefore(chain', s.carriers[m], chain'.settled[m].at + 1)
    {
      if m !in transfers {
        assert SentBefore(s.chain, s.carriers[m], s.chain.settled[m].at + 1);
      }
    }
  }

  lemma ProduceKeepsRuns(s: State, b: BlockRow, runs: map<Uuid, set<Address>>, transfers: map<Uuid, bool>,
                         strays: seq<InternalWithdrawal>)
    requires RunsInTime(s.chain, s.batches, s.sent) && EnabledBlock(s, b, runs, transfers, strays)
    ensures RunsInTime(WithBlock(s.chain, b, runs, transfers, strays), s.batches, s.sent)
  {
  }

  lemma ProduceKeepsRows(s: State, b: BlockRow, runs: map<Uuid, set<Address>>, transfers: map<Uuid, bool>,
                         strays: seq<InternalWithdrawal>)
    requires EnabledBlock(s, b, runs, transfers, strays)
    requires s.chain.saved <= |s.chain.blocks| == |s.chain.strays|
    requires ExternalInv(s.db.external, s.chain, s.batches)
    requires CarrierInv(s.db.internal, s.chain, s.batches, s.carriers)
    ensures ExternalInv(s.db.external, WithBlock(s.chain, b, runs, transfers, strays), s.batches)
    ensures CarrierInv(s.db.internal, WithBlock(s.chain, b, runs, transfers, strays), s.batches, s.carriers)
  {
    var chain' := WithBlock(s.chain, b, runs, transfers, strays);
    assert chain'.blocks[..|s.chain.blocks|] == s.chain.blocks;
    ProduceKeepsExternal(s.db.external, s.chain, s.batches, chain');
    SameStruck(s.chain.strays, strays, s.chain.saved);
    ProduceKeepsCarriers(s.db.internal, s.chain, s.batches, s.carriers, chain');
  }

  lemma ProduceKeepsInv(s: State, b: BlockRow, runs: map<Uuid, set<Address>>, transfers: map<Uuid, bool>,
                        strays: seq<InternalWithdrawal>)
    requires Inv(s) && EnabledBlock(s, b, runs, transfers, strays)
    ensures Inv(s.(chain := WithBlock(s.chain, b, runs, transfers, strays)))
  {
    ExtendOrdered(s.chain.blocks, b);
    assert (s.chain.blocks + [b])[..s.chain.saved] == s.chain.blocks[..s.chain.saved];
    ProduceKeepsRuns(s, b, runs, transfers, strays);
    ProduceKeepsSettlements(s, b, runs, transfers, strays);
    ProduceKeepsRows(s, b, runs, transfers, strays);
    SameStruck(s.chain.strays, strays, s.chain.saved);
  }

  /** A new block's strays do not count before it is saved. */
  lemma {:induction false} SameStruck(strays: seq<seq<InternalWithdrawal>>, more: seq<InternalWithdrawal>, n: nat)
    requires n <= |strays|
    ensures StruckBefore(strays + [more], n) == StruckBefore(strays, n)
  {
    if n > 0 { SameStruck(strays, more, n - 1); }
  }

  // ---------------------------------------------------------------- building a batch

  lemma {:induction false} PaysOfTasks(tasks: seq<ExternalTask>)
    requires DistinctDests(tasks)
    ensures forall a :: a in PaysOf(tasks) <==> exists i :: 0 <= i < |tasks| && tasks[i].dest == a
    ensures forall i :: 0 <= i < |tasks| ==> PaysOf(tasks)[tasks[i].dest] == tasks[i].queryId
  {
    if tasks != [] {
      var rest := tasks[1..];
      PaysOfTasks(rest);
      forall i | 0 <= i < |tasks|
        ensures tasks[i].dest in PaysOf(tasks) && PaysOf(tasks)[tasks[i].dest] == tasks[i].queryId
      {
        if i > 0 { assert rest[i - 1] == tasks[i]; }
      }
      forall a | a in PaysOf(tasks) ensures exists i :: 0 <= i < |tasks| && tasks[i].dest == a {
        if a == tasks[0].dest {
        } else {
          var j :| 0 <= j < |rest| && rest[j].dest == a;
          assert tasks[j + 1].dest == a;
        }
      }
    }
  }

  predicate HasTask(tasks: seq<ExternalTask>, q: QueryId) {
    exists i :: 0 <= i < |tasks| && tasks[i].queryId == q
  }

  lemma {:induction false} BatchRequests(t: Tables, tasks: seq<ExternalTask>, uuid: Uuid, ttl: int)
    requires CreateExternal(t, tasks, uuid, ttl).Ok?
    ensures var t' := CreateExternal(t, tasks, uuid, ttl).value;
      && t' == t.(external := t'.external, requests := t'.requests)
      && t'.requests.Keys == t.requests.Keys
      && (forall q :: q in t.requests ==>
            t'.requests[q] == if HasTask(tasks, q) then t.requests[q].(processing := true) else t.requests[q])
    decreases tasks
  {
    if tasks != [] {
      var rest := tasks[1..];
      var t1 := InsertBatchRow(t, uuid, ttl, tasks[0]).value;
      BatchRequests(t1, rest, uuid, ttl);
      forall q ensures HasTask(tasks, q) <==> tasks[0].queryId == q || HasTask(rest, q) {
        if HasTask(rest, q) {
          var i :| 0 <= i < |rest| && rest[i].queryId == q;
          assert tasks[i + 1].queryId == q;
        }
        if HasTask(tasks, q) && tasks[0].queryId != q {
          var i :| 0 <= i < |tasks| && tasks[i].queryId == q;
          assert rest[i - 1].queryId == q;
        }
      }
    }
  }

  function NewRow(q: QueryId, ttl: int): ExtRow { ExtRow(q, ttl, None, false, false, None) }

  /** The rows CreateExternalWithdrawals adds: one per destination, nothing else changed. */
  lemma {:induction false} BatchRows(t: Tables, tasks: seq<ExternalTask>, uuid: Uuid, ttl: int)
    requires DistinctDests(tasks)
    requires forall i :: 0 <= i < |tasks| ==> ExtKey(uuid, tasks[i].dest) !in t.external
    ensures CreateExternal(t, tasks, uuid, ttl).Ok?
    ensures var rows := CreateExternal(t, tasks, uuid, ttl).value.external;
      && (forall k :: k in t.external ==> k in rows && rows[k] == t.external[k])
      && (forall k :: k in rows && k !in t.external ==> k.uuid == uuid && k.address in PaysOf(tasks))
      && (forall a :: a in PaysOf(tasks) ==>
            ExtKey(uuid, a) in rows && rows[ExtKey(uuid, a)] == NewRow(PaysOf(tasks)[a], ttl))
    decreases tasks
  {
    if tasks != [] {
      var rest := tasks[1..];
      var t1 := InsertBatchRow(t, uuid, ttl, tasks[0]).value;
      forall i | 0 <= i < |rest| ensures ExtKey(uuid, rest[i].dest) !in t1.external {
        assert rest[i] == tasks[i + 1];
      }
      BatchRows(t1, rest, uuid, ttl);
      PaysOfTasks(rest);
      var rows := CreateExternal(t1, rest, uuid, ttl).value.external;
      assert tasks[0].dest !in PaysOf(rest);
      var k0 := ExtKey(uuid, tasks[0].dest);
      assert rows[k0] == NewRow(tasks[0].queryId, ttl);
    }
  }

  predicate Pays(pays: map<Address, QueryId>, q: QueryId) {
    exists a :: a in pays && pays[a] == q
  }

  predicate RowsAdded(rows: map<ExtKey, ExtRow>, rows': map<ExtKey, ExtRow>, pays: map<Address, QueryId>, uuid: Uuid,
                      ttl: int) {
    && (forall k :: k in rows ==> k.uuid != uuid && k in rows' && rows'[k] == rows[k])
    && (forall k :: k in rows' && k !in rows ==>
          k.uuid == uuid && k.address in pays && rows'[k] == NewRow(pays[k.address], ttl))
    && (forall a :: a in pays ==> ExtKey(uuid, a) in rows')
  }

  predicate RequestsMarked(requests: map<QueryId, Request>, requests': map<QueryId, Request>,
                           pays: map<Address, QueryId>) {
    && requests'.Keys == requests.Keys
    && (forall q :: q in requests ==>
          requests'[q] == if Pays(pays, q) then requests[q].(processing := true) else requests[q])
  }

  /** The new tables, described without the loop. */
  lemma BatchIsAdded(t: Tables, tasks: seq<ExternalTask>, uuid: Uuid, ttl: int)
    requires DistinctDests(tasks)
    requires forall k :: k in t.external ==> k.uuid != uuid
    ensures CreateExternal(t, tasks, uuid, ttl).Ok?
    ensures var t' := CreateExternal(t, tasks, uuid, ttl).value;
      && t' == t.(external := t'.external, requests := t'.requests)
      && RowsAdded(t.external, t'.external, PaysOf(tasks), uuid, ttl)
      && RequestsMarked(t.requests, t'.requests, PaysOf(tasks))
  {
    BatchRows(t, tasks, uuid, ttl);
    BatchRequests(t, tasks, uuid, ttl);
    PaysOfTasks(tasks);
    forall q ensures HasTask(tasks, q) <==> Pays(PaysOf(tasks), q) {
      if HasTask(tasks, q) {
        var i :| 0 <= i < |tasks| && tasks[i].queryId == q;
        assert PaysOf(tasks)[tasks[i].dest] == q;
      }
    }
  }

  predicate Pending(requests: map<QueryId, Request>, pays: map<Address, QueryId>) {
    forall a :: a in pays ==> pays[a] in requests && requests[pays[a]].dest == a && !requests[pays[a]].processing
  }

  lemma BatchKeepsSingleLive(rows: map<ExtKey, ExtRow>, rows': map<ExtKey, ExtRow>, requests: map<QueryId, Request>,
                             pays: map<Address, QueryId>, uuid: Uuid, ttl: int)
    requires SingleLive(rows) && StatusInv(requests, rows)
    requires RowsAdded(rows, rows', pays, uuid, ttl) && Pending(requests, pays)
    ensures SingleLive(rows')
  {
    forall k, l | k in rows' && l in rows' ensures OneLive(rows', k, l) {
      if k in rows && l in rows {
        assert OneLive(rows, k, l);
      } else if k in rows || l in rows {
        var q := pays[(if k in rows then l else k).address];
        assert StatusOf(requests[q], q, rows) && !HasLive(rows, q);
      }
    }
  }

  lemma BatchKeepsStatus(rows: map<ExtKey, ExtRow>, rows': map<ExtKey, ExtRow>, requests: map<QueryId, Request>,
                         requests': map<QueryId, Request>, pays: map<Address, QueryId>, uuid: Uuid, ttl: int)
    requires StatusInv(requests, rows)
    requires RowsAdded(rows, rows', pays, uuid, ttl) && RequestsMarked(requests, requests', pays)
    ensures StatusInv(requests', rows')
  {
    forall q | q in requests' ensures StatusOf(requests'[q], q, rows') {
      assert StatusOf(requests[q], q, rows);
      assert HasDecisive(rows', q) <==> HasDecisive(rows, q);
      if Pays(pays, q) {
        var a :| a in pays && pays[a] == q;
        assert Live(rows'[ExtKey(uuid, a)]);
      } else {
        assert HasLive(rows', q) <==> HasLive(rows, q);
      }
    }
  }

  lemma BatchKeepsExternal(rows: map<ExtKey, ExtRow>, rows': map<ExtKey, ExtRow>, chain: Chain,
                           batches: map<Uuid, Batch>, pays: map<Address, QueryId>, uuid: Uuid, ttl: int)
    requires ExternalInv(rows, chain, batches) && RowsAdded(rows, rows', pays, uuid, ttl)
    requires uuid !in batches && uuid !in chain.executed
    ensures ExternalInv(rows', chain, batches[uuid := Batch(ttl, pays)])
  {
    var batches' := batches[uuid := Batch(ttl, pays)];
    forall k | k in rows' ensures ExtRowOk(k, rows'[k], chain, batches') {
      if k in rows { assert ExtRowOk(k, rows[k], chain, batches); }
    }
    forall u, a | u in batches' && a in batches'[u].pays ensures ExtKey(u, a) in rows' {
      if u != uuid { assert ExtKey(u, a) in rows; }
    }
  }

  lemma BatchKeepsCarriers(s: State, uuid: Uuid, batch: Batch, proxies: map<Uuid, Address>)
    requires CarrierInv(s.db.internal, s.chain, s.batches, s.carriers)
    requires uuid !in s.batches
    requires forall m :: m in proxies ==> m !in s.carriers && m !in s.db.internal
    ensures CarrierInv(s.db.internal, s.chain, s.batches[uuid := batch], s.carriers + NewCarriers(uuid, proxies))
  {
  }

  lemma BatchKeepsMemos(s: State, uuid: Uuid, proxies: map<Uuid, Address>)
    requires MemoInv(s.db.internal, s.carriers, s.tonMemos, s.sent) && SettlementInv(s.chain, s.carriers)
    requires uuid !in s.sent
    requires forall m :: m in proxies ==> m !in s.carriers && m !in s.db.internal
    ensures MemoInv(s.db.internal, s.carriers + NewCarriers(uuid, proxies), s.tonMemos, s.sent)
    ensures SettlementInv(s.chain, s.carriers + NewCarriers(uuid, proxies))
  {
    var carriers' := s.carriers + NewCarriers(uuid, proxies);
    forall m | m in s.tonMemos ensures m !in carriers' { assert m in s.db.internal; }
    forall m | m in s.chain.settled
      ensures m in carriers' && SentBefore(s.chain, carriers'[m], s.chain.settled[m].at + 1)
    {
      assert m in s.carriers && SentBefore(s.chain, s.carriers[m], s.chain.settled[m].at + 1);
    }
  }

  lemma SameSweeps(r: map<QueryId, Request>, r': map<QueryId, Request>)
    requires ColdWalletInv(r) && r'.Keys == r.Keys
    requires forall q :: q in r ==> r'[q] == r[q].(processing := r'[q].processing, processed := r'[q].processed)
    requires forall q :: q in r && r[q].processed ==> r'[q].processed
    ensures ColdWalletInv(r')
  {
    forall p, q | p in r' && q in r' && SameSweep(r'[p], r'[q]) ensures p == q { assert SameSweep(r[p], r[q]); }
  }

  lemma BatchKeepsOwners(rows: map<ExtKey, ExtRow>, rows': map<ExtKey, ExtRow>, requests: map<QueryId, Request>,
                         requests': map<QueryId, Request>, nextId: QueryId, pays: map<Address, QueryId>, uuid: Uuid,
                         ttl: int)
    requires RowsOwned(requests, nextId, rows) && Pending(requests, pays)
    requires RowsAdded(rows, rows', pays, uuid, ttl) && RequestsMarked(requests, requests', pays)
    ensures RowsOwned(requests', nextId, rows')
  {
  }

  lemma BatchOfTasks(s: State, uuid: Uuid, ttl: int, tasks: seq<ExternalTask>)
    requires ExternalInv(s.db.external, s.chain, s.batches) && uuid !in s.batches
    requires DistinctDests(tasks) && PendingTasks(s.db.requests, tasks)
    ensures CreateExternal(s.db, tasks, uuid, ttl).Ok?
    ensures var t' := CreateExternal(s.db, tasks, uuid, ttl).value;
      && t' == s.db.(external := t'.external, requests := t'.requests)
      && RowsAdded(s.db.external, t'.external, PaysOf(tasks), uuid, ttl)
      && RequestsMarked(s.db.requests, t'.requests, PaysOf(tasks))
    ensures Pending(s.db.requests, PaysOf(tasks))
  {
    PaysOfTasks(tasks);
    forall k | k in s.db.external ensures k.uuid != uuid { assert ExtRowOk(k, s.db.external[k], s.chain, s.batches); }
    BatchIsAdded(s.db, tasks, uuid, ttl);
  }

  lemma BatchKeepsTables(s: State, uuid: Uuid, ttl: int, tasks: seq<ExternalTask>)
    requires ExternalInv(s.db.external, s.chain, s.batches)
    requires SingleLive(s.db.external) && StatusInv(s.db.requests, s.db.external)
    requires RowsOwned(s.db.requests, s.db.nextId, s.db.external)
    requires uuid !in s.batches && uuid !in s.chain.executed
    requires DistinctDests(tasks) && PendingTasks(s.db.requests, tasks)
    ensures CreateExternal(s.db, tasks, uuid, ttl).Ok?
    ensures var t' := CreateExternal(s.db, tasks, uuid, ttl).value;
      && t' == s.db.(external := t'.external, requests := t'.requests)
      && RequestsMarked(s.db.requests, t'.requests, PaysOf(tasks))
      && ExternalInv(t'.external, s.chain, s.batches[uuid := Batch(ttl, PaysOf(tasks))])
      && SingleLive(t'.external) && StatusInv(t'.requests, t'.external)
      && RowsOwned(t'.requests, t'.nextId, t'.external)
  {
    BatchOfTasks(s, uuid, ttl, tasks);
    var t' := CreateExternal(s.db, tasks, uuid, ttl).value;
    var pays := PaysOf(tasks);
    BatchKeepsSingleLive(s.db.external, t'.external, s.db.requests, pays, uuid, ttl);
    BatchKeepsStatus(s.db.external, t'.external, s.db.requests, t'.requests, pays, uuid, ttl);
    BatchKeepsExternal(s.db.external, t'.external, s.chain, s.batches, pays, uuid, ttl);
    BatchKeepsOwners(s.db.external, t'.external, s.db.requests, t'.requests, s.db.nextId, pays, uuid, ttl);
  }

  lemma BatchAssembled(s: State, t': Tables, batches': map<Uuid, Batch>, carriers': map<Uuid, Carrier>, uuid: Uuid)
    requires Inv(s) && uuid in batches'
    requires forall u :: u in s.batches ==> u in batches' && batches'[u] == s.batches[u]
    requires t'.blocks == s.db.blocks && t'.internal == s.db.internal && t'.nextId == s.db.nextId
    requires ExternalInv(t'.external, s.chain, batches') && SingleLive(t'.external)
    requires RowsOwned(t'.requests, t'.nextId, t'.external) && StatusInv(t'.requests, t'.external)
    requires ColdWalletInv(t'.requests)
    requires CarrierInv(t'.internal, s.chain, batches', carriers')
    requires MemoInv(t'.internal, carriers', s.tonMemos, s.sent) && SettlementInv(s.chain, carriers')
    ensures Inv(State(s.lag, t', s.chain, batches', carriers', s.tonMemos, Some(uuid), s.sent))
  {
  }

  lemma BatchKeepsRest(s: State, uuid: Uuid, ttl: int, tasks: seq<ExternalTask>, proxies: map<Uuid, Address>)
    requires Inv(s) && EnabledBatch(s, uuid, tasks, proxies)
    ensures CarrierInv(s.db.internal, s.chain, s.batches[uuid := Batch(ttl, PaysOf(tasks))],
                       s.carriers + NewCarriers(uuid, proxies))
    ensures MemoInv(s.db.internal, s.carriers + NewCarriers(uuid, proxies), s.tonMemos, s.sent)
    ensures SettlementInv(s.chain, s.carriers + NewCarriers(uuid, proxies))
  {
    BatchKeepsCarriers(s, uuid, Batch(ttl, PaysOf(tasks)), proxies);
    BatchKeepsMemos(s, uuid, proxies);
  }

  lemma WithBatchIs(s: State, uuid: Uuid, ttl: int, tasks: seq<ExternalTask>, proxies: map<Uuid, Address>, t': Tables)
    requires CreateExternal(s.db, tasks, uuid, ttl) == Ok(t')
    ensures WithBatch(s, uuid, ttl, tasks, proxies)
         == State(s.lag, t', s.chain, s.batches[uuid := Batch(ttl, PaysOf(tasks))],
                  s.carriers + NewCarriers(uuid, proxies), s.tonMemos, Some(uuid), s.sent)
  {
  }

  lemma BatchKeepsInv(s: State, uuid: Uuid, ttl: int, tasks: seq<ExternalTask>, proxies: map<Uuid, Address>)
    requires Inv(s) && EnabledBatch(s, uuid, tasks, proxies)
    ensures Inv(WithBatch(s, uuid, ttl, tasks, proxies))
  {
    BatchKeepsTables(s, uuid, ttl, tasks);
    var t' := CreateExternal(s.db, tasks, uuid, ttl).value;
    BatchKeepsSweeps(s.db.requests, t'.requests, PaysOf(tasks));
    BatchKeepsRest(s, uuid, ttl, tasks, proxies);
    WithBatchIs(s, uuid, ttl, tasks, proxies, t');
    BatchAssembled(s, t', s.batches[uuid := Batch(ttl, PaysOf(tasks))], s.carriers + NewCarriers(uuid, proxies), uuid);
  }

  lemma BatchKeepsSweeps(requests: map<QueryId, Request>, requests': map<QueryId, Request>, pays: map<Address, QueryId>)
    requires ColdWalletInv(requests) && RequestsMarked(requests, requests', pays)
    ensures ColdWalletInv(requests')
  {
    SameSweeps(requests, requests');
  }

  // ---------------------------------------------------------------- expiry

  lemma {:induction false} OrderedLast(blocks: seq<BlockRow>)
    requires Ordered(blocks) && blocks != []
    ensures LastBlock(blocks) == Some(blocks[|blocks| - 1])
  {
    var front := blocks[..|blocks| - 1];
    LastBlockIsNewest(front);
    if front != [] {
      var i :| 0 <= i < |front| && front[i] == LastBlock(front).value;
    }
  }

  /** With one clock reading, the bound of SetExpired lies below the newest saved block, however skewed the clock. */
  lemma SyncedBound(s: State, now: int)
    requires SavedPrefix(s.db.blocks, s.chain) && IsActual(s.db.blocks, now, s.lag)
    ensures Expired(s.chain, Bound(now, s.lag))
  {
    LastBlockIsNewest(s.db.blocks);
    OrderedLast(s.db.blocks);
  }

  lemma ExpireInternalsKeepsInv(s: State, now: int)
    requires Inv(s) && IsActual(s.db.blocks, now, s.lag)
    ensures Inv(s.(db := ExpireInternal(s.db, Bound(now, s.lag))))
  {
    var rows, rows' := s.db.internal, ExpireInternal(s.db, Bound(now, s.lag)).internal;
    SyncedBound(s, now);
    forall m | m in rows' && m in s.carriers
      ensures IntRowOk(m, rows'[m], s.carriers[m], s.batches[s.carriers[m].uuid].ttl, s.chain)
    {
      assert IntRowOk(m, rows[m], s.carriers[m], s.batches[s.carriers[m].uuid].ttl, s.chain);
    }
  }

  lemma ExpiryKeepsRows(rows: map<ExtKey, ExtRow>, chain: Chain, batches: map<Uuid, Batch>, bound: int)
    requires ExternalInv(rows, chain, batches) && Expired(chain, bound)
    ensures ExternalInv(ExpiredRows(rows, bound), chain, batches)
    ensures forall k :: k in rows && ExternalExpires(rows[k], bound) ==> !Decisive(rows[k])
  {
    forall k | k in rows
      ensures ExtRowOk(k, ExpiredRows(rows, bound)[k], chain, batches)
      ensures ExternalExpires(rows[k], bound) ==> !Decisive(rows[k])
    {
      assert ExtRowOk(k, rows[k], chain, batches);
    }
  }

  lemma ExpiryKeepsStatusOf(rows: map<ExtKey, ExtRow>, r: Request, bound: int, q: QueryId)
    requires StatusOf(r, q, rows) && SingleLive(rows)
    requires forall k :: k in rows && ExternalExpires(rows[k], bound) ==> !Decisive(rows[k])
    ensures StatusOf(if q in ExpiringQueries(rows, bound) then r.(processing := false) else r, q,
                     ExpiredRows(rows, bound))
  {
    var rows' := ExpiredRows(rows, bound);
    if q in ExpiringQueries(rows, bound) {
      var k :| k in rows && ExternalExpires(rows[k], bound) && rows[k].queryId == q;
      forall l | l in rows' && rows'[l].queryId == q ensures !Live(rows'[l]) {
        assert OneLive(rows, k, l);
      }
    } else if HasLive(rows, q) {
      var k :| k in rows && rows[k].queryId == q && Live(rows[k]);
      assert !ExternalExpires(rows[k], bound);
      assert rows'[k] == rows[k];
    }
    forall k | k in rows ensures Decisive(rows'[k]) <==> Decisive(rows[k]) {}
  }

  lemma ExpiryKeepsStatus(requests: map<QueryId, Request>, rows: map<ExtKey, ExtRow>, bound: int)
    requires StatusInv(requests, rows) && SingleLive(rows)
    requires forall k :: k in rows && ExternalExpires(rows[k], bound) ==> !Decisive(rows[k])
    ensures StatusInv(ReleasedRequests(requests, ExpiringQueries(rows, bound)), ExpiredRows(rows, bound))
  {
    var requests' := ReleasedRequests(requests, ExpiringQueries(rows, bound));
    forall q | q in requests' ensures StatusOf(requests'[q], q, ExpiredRows(rows, bound)) {
      assert StatusOf(requests[q], q, rows);
      ExpiryKeepsStatusOf(rows, requests[q], bound, q);
    }
  }

  lemma ExpiryKeepsSingleLive(rows: map<ExtKey, ExtRow>, bound: int)
    requires SingleLive(rows)
    ensures SingleLive(ExpiredRows(rows, bound))
  {
    var rows' := ExpiredRows(rows, bound);
    forall k, l | k in rows' && l in rows' ensures OneLive(rows', k, l) { assert OneLive(rows, k, l); }
  }

  lemma ExpiryKeepsOwners(requests: map<QueryId, Request>, nextId: QueryId, rows: map<ExtKey, ExtRow>, bound: int)
    requires RowsOwned(requests, nextId, rows) && ColdWalletInv(requests)
    ensures RowsOwned(ReleasedRequests(requests, ExpiringQueries(rows, bound)), nextId, ExpiredRows(rows, bound))
    ensures ColdWalletInv(ReleasedRequests(requests, ExpiringQueries(rows, bound)))
  {
    SameSweeps(requests, ReleasedRequests(requests, ExpiringQueries(rows, bound)));
  }

  lemma ExpiryKeepsTables(t: Tables, chain: Chain, batches: map<Uuid, Batch>, bound: int)
    requires ExternalInv(t.external, chain, batches) && Expired(chain, bound)
    requires RowsOwned(t.requests, t.nextId, t.external) && ColdWalletInv(t.requests)
    requires SingleLive(t.external) && StatusInv(t.requests, t.external)
    ensures ExternalInv(ExpireExternal(t, bound).external, chain, batches)
    ensures SingleLive(ExpireExternal(t, bound).external)
    ensures StatusInv(ExpireExternal(t, bound).requests, ExpireExternal(t, bound).external)
    ensures RowsOwned(ExpireExternal(t, bound).requests, t.nextId, ExpireExternal(t, bound).external)
    ensures ColdWalletInv(ExpireExternal(t, bound).requests)
  {
    ExpiryKeepsRows(t.external, chain, batches, bound);
    ExpiryKeepsStatus(t.requests, t.external, bound);
    ExpiryKeepsSingleLive(t.external, bound);
    ExpiryKeepsOwners(t.requests, t.nextId, t.external, bound);
  }

  lemma WithTables(s: State, t: Tables)
    requires Inv(s)
    requires t == s.db.(external := t.external, requests := t.requests)
    requires ExternalInv(t.external, s.chain, s.batches) && SingleLive(t.external)
    requires StatusInv(t.requests, t.external) && RowsOwned(t.requests, s.db.nextId, t.external)
    requires ColdWalletInv(t.requests)
    ensures Inv(s.(db := t))
  {
  }

  lemma ExpireExternalsKeepsInv(s: State, now: int)
    requires Inv(s) && IsActual(s.db.blocks, now, s.lag)
    ensures Inv(s.(db := ExpireExternal(s.db, Bound(now, s.lag))))
  {
    SyncedBound(s, now);
    ExpiryKeepsTables(s.db, s.chain, s.batches, Bound(now, s.lag));
    WithTables(s, ExpireExternal(s.db, Bound(now, s.lag)));
  }

  // ---------------------------------------------------------------- committing a block

  lemma {:induction false} IncomesSucceed(t: Tables, es: seq<InternalIncome>)
    requires FreshIncomes(t.intIncomes, es)
    ensures ApplyAll(t, IntIncomeOps(es)).Ok?
    decreases es
  {
    if es != [] {
      var ops := IntIncomeOps(es);
      assert ops[0] == OfIntIncome(es[0]) && ops[1..] == IntIncomeOps(es[1..]);
      var t' := Apply(t, ops[0]).value;
      forall i | 0 <= i < |es[1..]| ensures es[1..][i].memo.UuidText? && IncomeKeyOf(es[1..][i]) !in t'.intIncomes {
        assert es[1..][i] == es[i + 1] && IncomeKeyOf(es[0]) != IncomeKeyOf(es[i + 1]);
      }
      forall i, j | 0 <= i < j < |es[1..]| ensures IncomeKeyOf(es[1..][i]) != IncomeKeyOf(es[1..][j]) {
        assert es[1..][i] == es[i + 1] && es[1..][j] == es[j + 1];
      }
      IncomesSucceed(t', es[1..]);
    }
  }

  predicate NoneFailed(rows: map<Uuid, IntRow>, ss: seq<SendingConfirmation>) {
    forall i :: 0 <= i < |ss| ==> ss[i].memo.UuidText? && ss[i].memo.uuid in rows && !rows[ss[i].memo.uuid].failed
  }

  lemma {:induction false} SendingsSucceed(t: Tables, ss: seq<SendingConfirmation>)
    ensures ApplyAll(t, SendingOps(ss)).Ok? <==> NoneFailed(t.internal, ss)
    decreases ss
  {
    if ss != [] {
      var ops, rest := SendingOps(ss), ss[1..];
      assert ops[0] == OfSending(ss[0]) && ops[1..] == SendingOps(rest);
      var r := Apply(t, ops[0]);
      if r.Ok? {
        SendingsSucceed(r.value, rest);
        assert NoneFailed(r.value.internal, rest) <==> NoneFailed(t.internal, rest);
        assert NoneFailed(t.internal, ss) <==> NoneFailed(t.internal, rest) by {
          forall i | 0 < i < |ss| ensures ss[i] == rest[i - 1] {}
        }
      }
    }
  }

  lemma SomeInternalHead(ws: seq<InternalWithdrawal>, m: Uuid, failed: bool)
    requires ws != []
    ensures SomeInternal(ws, m, failed)
       <==> (ws[0].memo == UuidText(m) && ws[0].isFailed == failed) || SomeInternal(ws[1..], m, failed)
  {
    if SomeInternal(ws[1..], m, failed) {
      var i :| 0 <= i < |ws[1..]| && ws[1..][i].memo == UuidText(m) && ws[1..][i].isFailed == failed;
      assert ws[i + 1] == ws[1..][i];
    }
    if SomeInternal(ws, m, failed) {
      var i :| 0 <= i < |ws| && ws[i].memo == UuidText(m) && ws[i].isFailed == failed;
      if i > 0 { assert ws[1..][i - 1] == ws[i]; }
    }
  }

  predicate ReadyInternals(rows: map<Uuid, IntRow>, ws: seq<InternalWithdrawal>) {
    forall i :: 0 <= i < |ws| ==>
      && ws[i].memo.UuidText? && ws[i].memo.uuid in rows
      && !rows[ws[i].memo.uuid].failed && rows[ws[i].memo.uuid].sendingLt.Some?
  }

  /** How the withdrawals of a block change one row. */
  predicate RowSettled(row: IntRow, row': IntRow, failed: bool, finished: bool) {
    && row' == row.(failed := row'.failed, finishLt := row'.finishLt, amount := row'.amount)
    && (row'.failed <==> row.failed || failed)
    && (row'.finishLt.Some? <==> row.finishLt.Some? || finished)
  }

  predicate RowsSettled(rows: map<Uuid, IntRow>, rows': map<Uuid, IntRow>, ws: seq<InternalWithdrawal>) {
    && rows'.Keys == rows.Keys
    && (forall m :: m in rows ==> RowSettled(rows[m], rows'[m], SomeInternal(ws, m, true), SomeInternal(ws, m, false)))
  }

  lemma ReadyTail(t: Tables, ws: seq<InternalWithdrawal>)
    requires ws != [] && Apply(t, OfInternal(ws[0])).Ok?
    ensures ReadyInternals(t.internal, ws) && NoneAfterFailure(ws) <==>
      ReadyInternals(Apply(t, OfInternal(ws[0])).value.internal, ws[1..]) && NoneAfterFailure(ws[1..])
  {
    var rest, rows, rows' := ws[1..], t.internal, Apply(t, OfInternal(ws[0])).value.internal;
    assert forall i :: 0 <= i < |rest| ==> rest[i] == ws[i + 1];
    if ReadyInternals(rows, ws) && NoneAfterFailure(ws) {
      forall i | 0 <= i < |rest| ensures rest[i].memo == ws[0].memo ==> !ws[0].isFailed {
        assert ws[i + 1].memo == ws[0].memo ==> !ws[0].isFailed;
      }
    }
    if ReadyInternals(rows', rest) && NoneAfterFailure(rest) {
      forall i | 0 < i < |ws|
        ensures ws[i].memo.UuidText? && ws[i].memo.uuid in rows && !rows[ws[i].memo.uuid].failed
        ensures rows[ws[i].memo.uuid].sendingLt.Some? && (ws[i].memo == ws[0].memo ==> !ws[0].isFailed)
      {
        assert rest[i - 1] == ws[i];
      }
      forall i, j | 0 <= i < j < |ws| && ws[i].memo == ws[j].memo ensures !ws[i].isFailed {
        if i > 0 { assert rest[i - 1] == ws[i] && rest[j - 1] == ws[j]; }
      }
    }
  }

  /** The withdrawals of a block are accepted exactly when each finds its row open and sent, and none follows a
      failure of the same memo. */
  lemma {:induction false} InternalsSucceed(t: Tables, ws: seq<InternalWithdrawal>)
    ensures ApplyAll(t, InternalOps(ws)).Ok? <==> ReadyInternals(t.internal, ws) && NoneAfterFailure(ws)
    ensures ApplyAll(t, InternalOps(ws)).Ok? ==>
      var t' := ApplyAll(t, InternalOps(ws)).value;
      t' == t.(internal := t'.internal) && RowsSettled(t.internal, t'.internal, ws)
    decreases ws
  {
    if ws != [] {
      var ops, rest := InternalOps(ws), ws[1..];
      assert ops[0] == OfInternal(ws[0]) && ops[1..] == InternalOps(rest);
      if Apply(t, ops[0]).Ok? {
        var t1 := Apply(t, ops[0]).value;
        ReadyTail(t, ws);
        InternalsSucceed(t1, rest);
        if ApplyAll(t1, InternalOps(rest)).Ok? {
          RowsSettledHead(t.internal, t1.internal, ApplyAll(t1, InternalOps(rest)).value.internal, ws);
        }
      }
    }
  }

  lemma RowsSettledHead(rows: map<Uuid, IntRow>, rows1: map<Uuid, IntRow>, rows': map<Uuid, IntRow>,
                        ws: seq<InternalWithdrawal>)
    requires ws != [] && ReadyInternals(rows, ws)
    requires ws[0].memo.uuid in rows1 && rows1 == rows[ws[0].memo.uuid := rows1[ws[0].memo.uuid]]
    requires RowSettled(rows[ws[0].memo.uuid], rows1[ws[0].memo.uuid], ws[0].isFailed, !ws[0].isFailed)
    requires RowsSettled(rows1, rows', ws[1..])
    ensures RowsSettled(rows, rows', ws)
  {
    forall m | m in rows
      ensures RowSettled(rows[m], rows'[m], SomeInternal(ws, m, true), SomeInternal(ws, m, false))
    {
      assert RowSettled(rows1[m], rows'[m], SomeInternal(ws[1..], m, true), SomeInternal(ws[1..], m, false));
      SettledHead(ws, m, rows[m], rows1[m], rows'[m]);
    }
  }

  lemma SettledHead(ws: seq<InternalWithdrawal>, m: Uuid, row: IntRow, row1: IntRow, row': IntRow)
    requires ws != []
    requires RowSettled(row, row1, ws[0].memo == UuidText(m) && ws[0].isFailed,
                        ws[0].memo == UuidText(m) && !ws[0].isFailed)
    requires RowSettled(row1, row', SomeInternal(ws[1..], m, true), SomeInternal(ws[1..], m, false))
    ensures RowSettled(row, row', SomeInternal(ws, m, true), SomeInternal(ws, m, false))
  {
    SomeInternalHead(ws, m, true);
    SomeInternalHead(ws, m, false);
  }

  /** A confirmation may have been added, of a row that is processed. */
  predicate MayConfirm(row: ExtRow, row': ExtRow) {
    row'.confirmed ==> row.confirmed || row'.processedLt.Some?
  }

  predicate RowDecided(row: ExtRow, row': ExtRow, w: ExternalWithdrawal) {
    && MayConfirm(row, row')
    && row' == if w.isFailed then row.(failed := true, txHash := Some(w.txHash), confirmed := row'.confirmed)
               else row.(processedLt := Some(w.lt), txHash := Some(w.txHash), confirmed := row'.confirmed)
  }

  predicate SameButConfirmed(row: ExtRow, row': ExtRow) {
    MayConfirm(row, row') && row' == row.(confirmed := row'.confirmed)
  }

  predicate RowsDecided(rows: map<ExtKey, ExtRow>, rows': map<ExtKey, ExtRow>, ws: seq<ExternalWithdrawal>) {
    && rows'.Keys == rows.Keys
    && (forall k :: k in rows && !ReportsKey(ws, k) ==> SameButConfirmed(rows[k], rows'[k]))
    && (forall i :: 0 <= i < |ws| ==>
          var k := ExtKey(ws[i].uuid, ws[i].to);
          k in rows && RowDecided(rows[k], rows'[k], ws[i]))
  }

  predicate ReportsQuery(rows: map<ExtKey, ExtRow>, ws: seq<ExternalWithdrawal>, q: QueryId) {
    exists k :: k in rows && rows[k].queryId == q && ReportsKey(ws, k)
  }

  predicate RequestsDecided(requests: map<QueryId, Request>, requests': map<QueryId, Request>,
                            rows: map<ExtKey, ExtRow>, ws: seq<ExternalWithdrawal>) {
    && requests'.Keys == requests.Keys
    && (forall q :: q in requests ==>
          requests'[q] == if ReportsQuery(rows, ws, q) then requests[q].(processed := true) else requests[q])
  }

  lemma ReportsKeyHead(ws: seq<ExternalWithdrawal>, k: ExtKey)
    requires ws != []
    ensures ReportsKey(ws, k) <==> ExtKey(ws[0].uuid, ws[0].to) == k || ReportsKey(ws[1..], k)
  {
    if ReportsKey(ws[1..], k) {
      var i :| 0 <= i < |ws[1..]| && ExtKey(ws[1..][i].uuid, ws[1..][i].to) == k;
      assert ws[i + 1] == ws[1..][i];
    }
    if ReportsKey(ws, k) {
      var i :| 0 <= i < |ws| && ExtKey(ws[i].uuid, ws[i].to) == k;
      if i > 0 { assert ws[1..][i - 1] == ws[i]; }
    }
  }

  predicate ReadyExternals(rows: map<ExtKey, ExtRow>, ws: seq<ExternalWithdrawal>) {
    forall i :: 0 <= i < |ws| ==>
      ExtKey(ws[i].uuid, ws[i].to) in rows && !rows[ExtKey(ws[i].uuid, ws[i].to)].failed
  }

  lemma {:induction false} ExternalsSucceed(t: Tables, ws: seq<ExternalWithdrawal>)
    requires ReadyExternals(t.external, ws) && DistinctKeys(ws)
    ensures ApplyAll(t, ExternalOps(ws)).Ok?
    ensures var t' := ApplyAll(t, ExternalOps(ws)).value;
      && t' == t.(external := t'.external, requests := t'.requests)
      && RowsDecided(t.external, t'.external, ws)
    decreases ws
  {
    if ws != [] {
      var ops, rest := ExternalOps(ws), ws[1..];
      assert ops[0] == OfExternal(ws[0]) && ops[1..] == ExternalOps(rest);
      var t1 := Apply(t, ops[0]).value;
      var k0 := ExtKey(ws[0].uuid, ws[0].to);
      forall i | 0 <= i < |rest| ensures rest[i] == ws[i + 1] && ExtKey(rest[i].uuid, rest[i].to) != k0 {}
      ExternalsSucceed(t1, rest);
      forall k ensures ReportsKey(ws, k) <==> k0 == k || ReportsKey(rest, k) { ReportsKeyHead(ws, k); }
      var t' := ApplyAll(t1, ExternalOps(rest)).value;
      assert SameButConfirmed(t1.external[k0], t'.external[k0]);
      forall i | 0 <= i < |ws|
        ensures var k := ExtKey(ws[i].uuid, ws[i].to);
          k in t.external && RowDecided(t.external[k], t'.external[k], ws[i])
      {
        if i > 0 { assert rest[i - 1] == ws[i]; }
      }
    }
  }

  lemma {:induction false} ExternalsMarkRequests(t: Tables, ws: seq<ExternalWithdrawal>)
    requires ApplyAll(t, ExternalOps(ws)).Ok?
    ensures RequestsDecided(t.requests, ApplyAll(t, ExternalOps(ws)).value.requests, t.external, ws)
    decreases ws
  {
    if ws != [] {
      var ops, rest := ExternalOps(ws), ws[1..];
      assert ops[0] == OfExternal(ws[0]) && ops[1..] == ExternalOps(rest);
      var t1 := Apply(t, ops[0]).value;
      var k0 := ExtKey(ws[0].uuid, ws[0].to);
      ExternalsMarkRequests(t1, rest);
      forall q
        ensures ReportsQuery(t.external, ws, q) <==> t.external[k0].queryId == q || ReportsQuery(t1.external, rest, q)
      {
        assert ReportsKey(ws, k0);
        forall k ensures ReportsKey(ws, k) <==> k0 == k || ReportsKey(rest, k) { ReportsKeyHead(ws, k); }
        forall k | k in t.external ensures t1.external[k].queryId == t.external[k].queryId {}
      }
    }
  }

  /** A message that may still run has not expired. */
  lemma RunsLater(chain: Chain, batches: map<Uuid, Batch>, sent: set<Uuid>, u: Uuid)
    requires Ordered(chain.blocks) && RunsInTime(chain, batches, sent)
    requires u in chain.executed && chain.saved <= chain.executed[u].at
    ensures u in batches && !Expired(chain, batches[u].ttl)
  {
  }

  /** Every reported row is still open: the expiration loop has not touched it. */
  lemma ReportedRowsAreOpen(s: State, ws: seq<ExternalWithdrawal>)
    requires Ordered(s.chain.blocks) && RunsInTime(s.chain, s.batches, s.sent)
    requires ExternalInv(s.db.external, s.chain, s.batches)
    requires ReportsExternals(s.chain, s.batches, ws)
    ensures ReadyExternals(s.db.external, ws)
  {
    forall i | 0 <= i < |ws|
      ensures ExtKey(ws[i].uuid, ws[i].to) in s.db.external && !s.db.external[ExtKey(ws[i].uuid, ws[i].to)].failed
    {
      var k := ExtKey(ws[i].uuid, ws[i].to);
      RunsLater(s.chain, s.batches, s.sent, ws[i].uuid);
      assert ExtRowOk(k, s.db.external[k], s.chain, s.batches);
    }
  }

  lemma SentRowIsOpen(s: State, m: Uuid)
    requires Inv(s)
    requires m in s.carriers && SentNow(s.chain, s.carriers[m])
    ensures m in s.db.internal && !s.db.internal[m].failed
  {
    var c := s.carriers[m];
    RunsLater(s.chain, s.batches, s.sent, c.uuid);
    assert IntRowOk(m, s.db.internal[m], c, s.batches[c.uuid].ttl, s.chain);
    assert m in s.chain.settled ==> s.chain.saved <= s.chain.settled[m].at;
  }

  /** No sweep of a TON deposit in the block belongs to a row that expired. */
  predicate SweepsOpen(rows: map<Uuid, IntRow>, tonMemos: set<Uuid>, ss: seq<SendingConfirmation>) {
    forall i :: 0 <= i < |ss| && ss[i].memo.UuidText? && ss[i].memo.uuid in tonMemos && ss[i].memo.uuid in rows ==>
      !rows[ss[i].memo.uuid].failed
  }

  lemma SendingsOpen(s: State, ss: seq<SendingConfirmation>)
    requires Inv(s) && ReportsSendings(s.chain, s.carriers, s.tonMemos, ss)
    ensures NoneFailed(s.db.internal, ss) <==> SweepsOpen(s.db.internal, s.tonMemos, ss)
  {
    if SweepsOpen(s.db.internal, s.tonMemos, ss) {
      forall i | 0 <= i < |ss|
        ensures ss[i].memo.UuidText? && ss[i].memo.uuid in s.db.internal && !s.db.internal[ss[i].memo.uuid].failed
      {
        if ss[i].memo.uuid !in s.tonMemos { SentRowIsOpen(s, ss[i].memo.uuid); }
      }
    }
  }

  /** One row of internal withdrawals before and after the block. */
  predicate RowCommitted(m: Uuid, row: IntRow, row': IntRow, ss: seq<SendingConfirmation>,
                         ws: seq<InternalWithdrawal>) {
    && row'.expiredAt == row.expiredAt
    && (row'.sendingLt.Some? <==> row.sendingLt.Some? || HasSending(ss, m))
    && (row'.failed <==> row.failed || SomeInternal(ws, m, true))
    && (row'.finishLt.Some? <==> row.finishLt.Some? || SomeInternal(ws, m, false))
  }

  predicate RowsCommitted(rows: map<Uuid, IntRow>, rows': map<Uuid, IntRow>,
                          ss: seq<SendingConfirmation>, ws: seq<InternalWithdrawal>) {
    rows'.Keys == rows.Keys && forall m :: m in rows ==> RowCommitted(m, rows[m], rows'[m], ss, ws)
  }

  /** Each withdrawal of the block finds its row: known, not failed, sent before or in this block; and no memo is
      failed and then named again. */
  predicate InternalsOpen(rows: map<Uuid, IntRow>, ss: seq<SendingConfirmation>, ws: seq<InternalWithdrawal>) {
    NoneAfterFailure(ws) && forall i :: 0 <= i < |ws| ==> OpenRow(rows, ss, ws[i].memo)
  }

  predicate OpenRow(rows: map<Uuid, IntRow>, ss: seq<SendingConfirmation>, memo: Text) {
    && memo.UuidText? && memo.uuid in rows && !rows[memo.uuid].failed
    && (rows[memo.uuid].sendingLt.Some? || HasSending(ss, memo.uuid))
  }

  lemma ReadyWhenOpen(rows: map<Uuid, IntRow>, rows': map<Uuid, IntRow>, ss: seq<SendingConfirmation>,
                      ws: seq<InternalWithdrawal>)
    requires rows'.Keys == rows.Keys
    requires forall m :: m in rows' ==>
      && rows'[m].failed == rows[m].failed
      && (rows'[m].sendingLt.Some? <==> rows[m].sendingLt.Some? || HasSending(ss, m))
    ensures ReadyInternals(rows', ws) && NoneAfterFailure(ws) <==> InternalsOpen(rows, ss, ws)
  {
    if InternalsOpen(rows, ss, ws) {
      forall i | 0 <= i < |ws|
        ensures ws[i].memo.UuidText? && ws[i].memo.uuid in rows'
        ensures !rows'[ws[i].memo.uuid].failed && rows'[ws[i].memo.uuid].sendingLt.Some?
      {
        assert OpenRow(rows, ss, ws[i].memo);
      }
    }
  }

  /** The strays of a block do no harm: each names an open, sent row, none comes with another report of its memo after
      a failure, and no transfer that settles now was struck before. */
  predicate Harmless(s: State, e: Events)
    requires s.chain.saved < |s.chain.strays|
  {
    && NoneAfterFailure(e.internals)
    && (forall w :: w in s.chain.strays[s.chain.saved] ==> OpenRow(s.db.internal, e.sendings, w.memo))
    && (forall m :: m in s.chain.settled && SettledNow(s.chain, m) ==> !Struck(s.chain, m))
  }

  /** A settled transfer finds its row, its sending already confirmed; the row is open unless it was struck. */
  lemma SettledRowIsReady(s: State, ss: seq<SendingConfirmation>, m: Uuid)
    requires Inv(s) && ReportsSendings(s.chain, s.carriers, s.tonMemos, ss)
    requires SettledNow(s.chain, m)
    ensures m in s.db.internal && (s.db.internal[m].failed <==> Struck(s.chain, m))
    ensures s.db.internal[m].sendingLt.Some? || HasSending(ss, m)
  {
    assert m in s.carriers && SentBefore(s.chain, s.carriers[m], s.chain.settled[m].at + 1);
    var c := s.carriers[m];
    assert IntRowOk(m, s.db.internal[m], c, s.batches[c.uuid].ttl, s.chain);
    if !SentBefore(s.chain, c, s.chain.saved) { SentRowIsOpen(s, m); }
  }

  lemma OwnRowIsOpen(s: State, e: Events, w: InternalWithdrawal)
    requires Inv(s) && ReportsSendings(s.chain, s.carriers, s.tonMemos, e.sendings)
    requires NoneFailed(s.db.internal, e.sendings) && Own(s.chain, s.tonMemos, e.sendings, w)
    requires w.memo.uuid !in s.tonMemos ==> !Struck(s.chain, w.memo.uuid)
    ensures OpenRow(s.db.internal, e.sendings, w.memo)
  {
    var m := w.memo.uuid;
    if m in s.tonMemos {
      var j :| 0 <= j < |e.sendings| && e.sendings[j].memo == UuidText(m);
    } else {
      SettledRowIsReady(s, e.sendings, m);
    }
  }

  /** So the withdrawals of the block are accepted exactly when its strays do no harm. */
  lemma OpenIffHarmless(s: State, e: Events)
    requires Inv(s) && Enabled(s, CommitBlock(e)) && NoneFailed(s.db.internal, e.sendings)
    ensures InternalsOpen(s.db.internal, e.sendings, e.internals) <==> Harmless(s, e)
  {
    var rows, ss, ws, strays := s.db.internal, e.sendings, e.internals, s.chain.strays[s.chain.saved];
    if Harmless(s, e) {
      forall i | 0 <= i < |ws| ensures OpenRow(rows, ss, ws[i].memo) {
        if ws[i] !in strays { OwnRowIsOpen(s, e, ws[i]); }
      }
    }
    if InternalsOpen(rows, ss, ws) {
      forall w | w in strays ensures OpenRow(rows, ss, w.memo) {
        var i :| 0 <= i < |ws| && ws[i] == w;
        assert OpenRow(rows, ss, ws[i].memo);
      }
      forall m | m in s.chain.settled && SettledNow(s.chain, m) ensures !Struck(s.chain, m) {
        var i :| 0 <= i < |ws| && ws[i].memo == UuidText(m) && ws[i].isFailed == !s.chain.settled[m].ok;
        assert OpenRow(rows, ss, ws[i].memo);
        SettledRowIsReady(s, ss, m);
      }
    }
  }

  /** The tables after the sending confirmations and the withdrawals of the block. */
  lemma InternalStage(s: State, t: Tables, e: Events)
    requires Inv(s) && t == s.db.(extIncomes := t.extIncomes, intIncomes := t.intIncomes)
    requires NoneFailed(s.db.internal, e.sendings)
    ensures ApplyAll(t, SendingOps(e.sendings)).Ok?
    ensures ApplyAll(ApplyAll(t, SendingOps(e.sendings)).value, InternalOps(e.internals)).Ok?
       <==> InternalsOpen(s.db.internal, e.sendings, e.internals)
    ensures ApplyAll(ApplyAll(t, SendingOps(e.sendings)).value, InternalOps(e.internals)).Ok? ==>
      var t' := ApplyAll(ApplyAll(t, SendingOps(e.sendings)).value, InternalOps(e.internals)).value;
      t' == t.(internal := t'.internal) && RowsCommitted(t.internal, t'.internal, e.sendings, e.internals)
  {
    SendingsSucceed(t, e.sendings);
    SendingsApplied(t, e.sendings);
    var t3 := ApplyAll(t, SendingOps(e.sendings)).value;
    ReadyWhenOpen(t.internal, t3.internal, e.sendings, e.internals);
    InternalsSucceed(t3, e.internals);
    var r := ApplyAll(t3, InternalOps(e.internals));
    if r.Ok? {
      forall m | m in t.internal ensures RowCommitted(m, t.internal[m], r.value.internal[m], e.sendings, e.internals) {
        assert RowSettled(t3.internal[m], r.value.internal[m],
                          SomeInternal(e.internals, m, true), SomeInternal(e.internals, m, false));
      }
    }
  }

  lemma ConfirmedDecided(rows: map<ExtKey, ExtRow>, rows': map<ExtKey, ExtRow>, rows'': map<ExtKey, ExtRow>,
                         ws: seq<ExternalWithdrawal>)
    requires RowsDecided(rows, rows', ws) && rows''.Keys == rows'.Keys
    requires forall k :: k in rows' ==> SameButConfirmed(rows'[k], rows''[k])
    ensures RowsDecided(rows, rows'', ws)
  {
    forall k | k in rows && !ReportsKey(ws, k) ensures SameButConfirmed(rows[k], rows''[k]) {
      assert SameButConfirmed(rows[k], rows'[k]);
    }
    forall i | 0 <= i < |ws|
      ensures var k := ExtKey(ws[i].uuid, ws[i].to); k in rows && RowDecided(rows[k], rows''[k], ws[i])
    {
      var k := ExtKey(ws[i].uuid, ws[i].to);
      assert RowDecided(rows[k], rows'[k], ws[i]);
    }
  }

  lemma ExternalStage(s: State, t: Tables, e: Events)
    requires Inv(s) && t.external == s.db.external && t.requests == s.db.requests
    requires ReportsExternals(s.chain, s.batches, e.externals)
    ensures ApplyAll(t, ExternalOps(e.externals)).Ok?
    ensures ApplyAll(ApplyAll(t, ExternalOps(e.externals)).value, ConfirmationOps(e.confirmations)).Ok?
    ensures var t' := ApplyAll(ApplyAll(t, ExternalOps(e.externals)).value, ConfirmationOps(e.confirmations)).value;
      && t' == t.(external := t'.external, requests := t'.requests)
      && RowsDecided(t.external, t'.external, e.externals)
      && RequestsDecided(t.requests, t'.requests, t.external, e.externals)
  {
    ReportedRowsAreOpen(s, e.externals);
    ExternalsSucceed(t, e.externals);
    ExternalsMarkRequests(t, e.externals);
    var t5 := ApplyAll(t, ExternalOps(e.externals)).value;
    ConfirmationsApply(t5, e.confirmations);
    var t6 := ApplyAll(t5, ConfirmationOps(e.confirmations)).value;
    ConfirmedDecided(t.external, t5.external, t6.external, e.externals);
  }

  lemma BlockIsNew(t: Tables, chain: Chain)
    requires SavedPrefix(t.blocks, chain) && chain.saved < |chain.blocks|
    ensures SaveBlock(t, chain.blocks[chain.saved]) == Ok(t.(blocks := chain.blocks[..chain.saved + 1]))
  {
    var b := chain.blocks[chain.saved];
    forall i | 0 <= i < |t.blocks| ensures t.blocks[i].seqno < b.seqno {
      assert t.blocks[i] == chain.blocks[i];
    }
    assert chain.blocks[..chain.saved + 1] == chain.blocks[..chain.saved] + [b];
  }

  /** Everything a commit changes, and exactly when it is rejected. */
  predicate Committed(t: Tables, t': Tables, chain: Chain, e: Events) {
    && chain.saved < |chain.blocks|
    && t'.nextId == t.nextId
    && t'.blocks == chain.blocks[..chain.saved + 1]
    && RowsCommitted(t.internal, t'.internal, e.sendings, e.internals)
    && RowsDecided(t.external, t'.external, e.externals)
    && RequestsDecided(t.requests, t'.requests, t.external, e.externals)
  }

  /** The tables after the incomes of the block. */
  lemma IncomeStage(t: Tables, e: Events)
    requires FreshIncomes(t.intIncomes, e.intIncomes)
    ensures ApplyAll(t, ExtIncomeOps(e.extIncomes)).Ok?
    ensures ApplyAll(ApplyAll(t, ExtIncomeOps(e.extIncomes)).value, IntIncomeOps(e.intIncomes)).Ok?
    ensures var t' := ApplyAll(ApplyAll(t, ExtIncomeOps(e.extIncomes)).value, IntIncomeOps(e.intIncomes)).value;
      t' == t.(extIncomes := t'.extIncomes, intIncomes := t'.intIncomes)
  {
    IncomesKeepTables(t, e.extIncomes);
    var t1 := ApplyAll(t, ExtIncomeOps(e.extIncomes)).value;
    IncomesSucceed(t1, e.intIncomes);
    InternalIncomesKeepTables(t1, e.intIncomes);
  }

  /** The rest of the block, from the sending confirmations on. */
  function LaterStatements(t: Tables, e: Events, b: BlockRow): Result<Tables> {
    var t3 :- ApplyAll(t, SendingOps(e.sendings));
    var t4 :- ApplyAll(t3, InternalOps(e.internals));
    var t5 :- ApplyAll(t4, ExternalOps(e.externals));
    var t6 :- ApplyAll(t5, ConfirmationOps(e.confirmations));
    SaveBlock(t6, b)
  }

  lemma LaterStages(s: State, t2: Tables, e: Events)
    requires Inv(s) && Enabled(s, CommitBlock(e))
    requires t2 == s.db.(extIncomes := t2.extIncomes, intIncomes := t2.intIncomes)
    requires NoneFailed(s.db.internal, e.sendings)
    ensures var r := LaterStatements(t2, e, s.chain.blocks[s.chain.saved]);
      && (r.Ok? <==> InternalsOpen(s.db.internal, e.sendings, e.internals))
      && (r.Ok? ==> Committed(s.db, r.value, s.chain, e))
  {
    InternalStage(s, t2, e);
    var r4 := ApplyAll(ApplyAll(t2, SendingOps(e.sendings)).value, InternalOps(e.internals));
    if r4.Ok? {
      ExternalStage(s, r4.value, e);
      var t6 := ApplyAll(ApplyAll(r4.value, ExternalOps(e.externals)).value, ConfirmationOps(e.confirmations)).value;
      BlockIsNew(t6, s.chain);
    }
  }

  /** Exactly when the scanner's report of a block is accepted: no sweep of a TON deposit meets a failed row, and the
      stray requests do no harm.  External withdrawals and sendings of jetton withdrawals never meet an expired row. */
  lemma CommitOutcome(s: State, e: Events)
    requires Inv(s) && Enabled(s, CommitBlock(e))
    ensures var r := Commit(s.db, e, s.chain.blocks[s.chain.saved]);
      && (r.Ok? <==> SweepsOpen(s.db.internal, s.tonMemos, e.sendings) && Harmless(s, e))
      && (r.Ok? ==> Committed(s.db, r.value, s.chain, e))
      && (r.Ok? ==> InternalsOpen(s.db.internal, e.sendings, e.internals))
  {
    ApplyAllInOrder(s.db, e);
    IncomeStage(s.db, e);
    var t2 := ApplyAll(ApplyAll(s.db, ExtIncomeOps(e.extIncomes)).value, IntIncomeOps(e.intIncomes)).value;
    SendingsSucceed(t2, e.sendings);
    SendingsOpen(s, e.sendings);
    if NoneFailed(s.db.internal, e.sendings) {
      LaterStages(s, t2, e);
      OpenIffHarmless(s, e);
    }
  }

  /** Where nobody else has sent a transfer request yet, only a sweep of a TON deposit can make a block fail. */
  lemma {:induction false} NobodyStruck(strays: seq<seq<InternalWithdrawal>>, n: nat)
    requires forall i :: 0 <= i < n && i < |strays| ==> strays[i] == []
    ensures StruckBefore(strays, n) == {}
  {
    if n > 0 { NobodyStruck(strays, n - 1); }
  }

  lemma UndisturbedOutcome(s: State, e: Events)
    requires Inv(s) && Enabled(s, CommitBlock(e))
    requires forall i :: 0 <= i <= s.chain.saved ==> s.chain.strays[i] == []
    ensures Commit(s.db, e, s.chain.blocks[s.chain.saved]).Ok? <==> SweepsOpen(s.db.internal, s.tonMemos, e.sendings)
  {
    NobodyStruck(s.chain.strays, s.chain.saved);
    CommitOutcome(s, e);
  }

  function Advanced(chain: Chain): Chain {
    chain.(saved := chain.saved + 1)
  }

  lemma CommitKeepsExternal(s: State, rows': map<ExtKey, ExtRow>, ws: seq<ExternalWithdrawal>)
    requires SavedPrefix(s.db.blocks, s.chain) && RunsInTime(s.chain, s.batches, s.sent)
    requires s.chain.saved < |s.chain.blocks|
    requires ExternalInv(s.db.external, s.chain, s.batches)
    requires ReportsExternals(s.chain, s.batches, ws)
    requires RowsDecided(s.db.external, rows', ws)
    ensures ExternalInv(rows', Advanced(s.chain), s.batches)
  {
    ReportedRowsAreOpen(s, ws);
    forall k | k in rows' ensures ExtRowOk(k, rows'[k], Advanced(s.chain), s.batches) {
      CommitKeepsRow(s, rows', ws, k);
    }
  }

  lemma CommitKeepsRow(s: State, rows': map<ExtKey, ExtRow>, ws: seq<ExternalWithdrawal>, k: ExtKey)
    requires s.chain.saved < |s.chain.blocks| && Ordered(s.chain.blocks)
    requires k in rows' && k in s.db.external && ExtRowOk(k, s.db.external[k], s.chain, s.batches)
    requires ReportsExternals(s.chain, s.batches, ws) && RowsDecided(s.db.external, rows', ws)
    requires ReadyExternals(s.db.external, ws)
    ensures ExtRowOk(k, rows'[k], Advanced(s.chain), s.batches)
  {
    if RunNow(s.chain, k.uuid) {
      assert ReportsKey(ws, ExtKey(k.uuid, k.address));
      var i :| 0 <= i < |ws| && ExtKey(ws[i].uuid, ws[i].to) == k;
      assert RowDecided(s.db.external[k], rows'[k], ws[i]);
    } else {
      assert !ReportsKey(ws, k);
      assert SameButConfirmed(s.db.external[k], rows'[k]);
    }
  }

  lemma DecidedRow(rows: map<ExtKey, ExtRow>, rows': map<ExtKey, ExtRow>, ws: seq<ExternalWithdrawal>, k: ExtKey)
    requires k in rows && RowsDecided(rows, rows', ws) && ReadyExternals(rows, ws)
    ensures k in rows' && rows'[k].queryId == rows[k].queryId
    ensures Live(rows'[k]) <==> Live(rows[k])
    ensures Decisive(rows'[k]) <==> Decisive(rows[k]) || ReportsKey(ws, k)
  {
    if ReportsKey(ws, k) {
      var i :| 0 <= i < |ws| && ExtKey(ws[i].uuid, ws[i].to) == k;
      assert RowDecided(rows[k], rows'[k], ws[i]);
    } else {
      assert SameButConfirmed(rows[k], rows'[k]);
    }
  }

  lemma CommitKeepsStatus(requests: map<QueryId, Request>, requests': map<QueryId, Request>,
                          rows: map<ExtKey, ExtRow>, rows': map<ExtKey, ExtRow>, ws: seq<ExternalWithdrawal>)
    requires StatusInv(requests, rows) && ReadyExternals(rows, ws)
    requires RowsDecided(rows, rows', ws) && RequestsDecided(requests, requests', rows, ws)
    ensures StatusInv(requests', rows')
  {
    forall q | q in requests' ensures StatusOf(requests'[q], q, rows') {
      assert StatusOf(requests[q], q, rows);
      DecidedQuery(rows, rows', ws, q);
    }
  }

  lemma DecidedQuery(rows: map<ExtKey, ExtRow>, rows': map<ExtKey, ExtRow>, ws: seq<ExternalWithdrawal>, q: QueryId)
    requires RowsDecided(rows, rows', ws) && ReadyExternals(rows, ws)
    ensures HasLive(rows', q) <==> HasLive(rows, q)
    ensures HasDecisive(rows', q) <==> HasDecisive(rows, q) || ReportsQuery(rows, ws, q)
  {
    forall k | k in rows
      ensures rows'[k].queryId == rows[k].queryId && (Live(rows'[k]) <==> Live(rows[k]))
      ensures Decisive(rows'[k]) <==> Decisive(rows[k]) || ReportsKey(ws, k)
    {
      DecidedRow(rows, rows', ws, k);
    }
    if HasLive(rows, q) {
      var k :| k in rows && rows[k].queryId == q && Live(rows[k]);
      assert Live(rows'[k]);
    }
    if HasDecisive(rows, q) {
      var k :| k in rows && rows[k].queryId == q && Decisive(rows[k]);
      assert Decisive(rows'[k]);
    }
    if ReportsQuery(rows, ws, q) {
      var k :| k in rows && rows[k].queryId == q && ReportsKey(ws, k);
      assert Decisive(rows'[k]);
    }
  }

  lemma CommitKeepsLive(requests: map<QueryId, Request>, requests': map<QueryId, Request>, nextId: QueryId,
                        rows: map<ExtKey, ExtRow>, rows': map<ExtKey, ExtRow>, ws: seq<ExternalWithdrawal>)
    requires SingleLive(rows) && RowsOwned(requests, nextId, rows) && ReadyExternals(rows, ws)
    requires RowsDecided(rows, rows', ws) && RequestsDecided(requests, requests', rows, ws)
    ensures SingleLive(rows') && RowsOwned(requests', nextId, rows')
  {
    forall k, l | k in rows' && l in rows' ensures OneLive(rows', k, l) {
      assert OneLive(rows, k, l);
      DecidedRow(rows, rows', ws, k);
      DecidedRow(rows, rows', ws, l);
    }
    forall k | k in rows' ensures rows'[k].queryId == rows[k].queryId { DecidedRow(rows, rows', ws, k); }
  }

  /** What the block reports for a memo is what the chain recorded in that block. */
  lemma ReportsOfMemo(s: State, e: Events, m: Uuid)
    requires s.chain.saved < |s.chain.strays| && AllFailed(s.chain.strays[s.chain.saved])
    requires ReportsSendings(s.chain, s.carriers, s.tonMemos, e.sendings)
    requires ReportsInternals(s.chain, s.tonMemos, e.sendings, s.chain.strays[s.chain.saved], e.internals)
    requires m in s.carriers && m !in s.tonMemos
    ensures HasSending(e.sendings, m) <==> SentNow(s.chain, s.carriers[m])
    ensures SomeInternal(e.internals, m, true) <==>
      (SettledNow(s.chain, m) && !s.chain.settled[m].ok) || m in MemosOf(s.chain.strays[s.chain.saved])
    ensures SomeInternal(e.internals, m, false) <==> SettledNow(s.chain, m) && s.chain.settled[m].ok
  {
    var ws, strays := e.internals, s.chain.strays[s.chain.saved];
    if m in MemosOf(strays) {
      var i :| 0 <= i < |strays| && strays[i].memo.UuidText? && strays[i].memo.uuid == m;
      assert strays[i] in ws;
      var j :| 0 <= j < |ws| && ws[j] == strays[i];
      assert ws[j].memo == UuidText(m) && ws[j].isFailed;
    }
    forall i | 0 <= i < |ws| && ws[i].memo == UuidText(m)
      ensures ws[i].isFailed ==> (SettledNow(s.chain, m) && !s.chain.settled[m].ok) || m in MemosOf(strays)
      ensures !ws[i].isFailed ==> SettledNow(s.chain, m) && s.chain.settled[m].ok
    {
      if ws[i] in strays {
        var j :| 0 <= j < |strays| && strays[j] == ws[i];
        assert m in MemosOf(strays);
      }
    }
  }

  /** One row of a carried withdrawal after the commit. */
  lemma CommitKeepsCarrier(s: State, e: Events, m: Uuid, row': IntRow)
    requires Ordered(s.chain.blocks) && s.chain.saved < |s.chain.blocks| == |s.chain.strays|
    requires AllFailed(s.chain.strays[s.chain.saved])
    requires m in s.carriers && m !in s.tonMemos && m in s.db.internal && s.carriers[m].uuid in s.batches
    requires IntRowOk(m, s.db.internal[m], s.carriers[m], s.batches[s.carriers[m].uuid].ttl, s.chain)
    requires ReportsSendings(s.chain, s.carriers, s.tonMemos, e.sendings)
    requires ReportsInternals(s.chain, s.tonMemos, e.sendings, s.chain.strays[s.chain.saved], e.internals)
    requires RowCommitted(m, s.db.internal[m], row', e.sendings, e.internals)
    requires InternalsOpen(s.db.internal, e.sendings, e.internals)
    requires SentNow(s.chain, s.carriers[m]) ==> !s.db.internal[m].failed
    ensures IntRowOk(m, row', s.carriers[m], s.batches[s.carriers[m].uuid].ttl, Advanced(s.chain))
  {
    ReportsOfMemo(s, e, m);
    if SomeInternal(e.internals, m, true) {
      var i :| 0 <= i < |e.internals| && e.internals[i].memo == UuidText(m) && e.internals[i].isFailed == true;
      assert OpenRow(s.db.internal, e.sendings, e.internals[i].memo);
    }
  }

  lemma CommitKeepsCarriers(s: State, e: Events, rows': map<Uuid, IntRow>)
    requires Ordered(s.chain.blocks) && s.chain.saved < |s.chain.blocks| == |s.chain.strays|
    requires AllFailed(s.chain.strays[s.chain.saved])
    requires CarrierInv(s.db.internal, s.chain, s.batches, s.carriers)
    requires s.tonMemos !! s.carriers.Keys
    requires ReportsSendings(s.chain, s.carriers, s.tonMemos, e.sendings)
    requires ReportsInternals(s.chain, s.tonMemos, e.sendings, s.chain.strays[s.chain.saved], e.internals)
    requires RowsCommitted(s.db.internal, rows', e.sendings, e.internals)
    requires InternalsOpen(s.db.internal, e.sendings, e.internals)
    requires forall m :: m in s.carriers && m in s.db.internal && SentNow(s.chain, s.carriers[m]) ==>
      !s.db.internal[m].failed
    ensures CarrierInv(rows', Advanced(s.chain), s.batches, s.carriers)
  {
    forall m | m in rows' && m in s.carriers
      ensures IntRowOk(m, rows'[m], s.carriers[m], s.batches[s.carriers[m].uuid].ttl, Advanced(s.chain))
    {
      assert IntRowOk(m, s.db.internal[m], s.carriers[m], s.batches[s.carriers[m].uuid].ttl, s.chain);
      assert RowCommitted(m, s.db.internal[m], rows'[m], e.sendings, e.internals);
      CommitKeepsCarrier(s, e, m, rows'[m]);
    }
  }

  lemma CommitKeepsInv(s: State, e: Events)
    requires Inv(s) && Enabled(s, CommitBlock(e))
    ensures Inv(WithCommit(s, e))
  {
    CommitOutcome(s, e);
    var r := Commit(s.db, e, s.chain.blocks[s.chain.saved]);
    if r.Ok? {
      CommitKeepsParts(s, e, r.value);
    }
  }

  lemma CommitKeepsSweeps(requests: map<QueryId, Request>, requests': map<QueryId, Request>,
                          rows: map<ExtKey, ExtRow>, ws: seq<ExternalWithdrawal>)
    requires ColdWalletInv(requests) && RequestsDecided(requests, requests', rows, ws)
    ensures ColdWalletInv(requests')
  {
    SameSweeps(requests, requests');
  }

  lemma CommitKeepsRequests(s: State, e: Events, t': Tables)
    requires Inv(s) && ReportsExternals(s.chain, s.batches, e.externals)
    requires RowsDecided(s.db.external, t'.external, e.externals)
    requires RequestsDecided(s.db.requests, t'.requests, s.db.external, e.externals)
    ensures SingleLive(t'.external) && RowsOwned(t'.requests, s.db.nextId, t'.external)
    ensures StatusInv(t'.requests, t'.external)
  {
    ReportedRowsAreOpen(s, e.externals);
    CommitKeepsStatus(s.db.requests, t'.requests, s.db.external, t'.external, e.externals);
    CommitKeepsLive(s.db.requests, t'.requests, s.db.nextId, s.db.external, t'.external, e.externals);
  }

  lemma CommitKeepsMemos(s: State, e: Events, t': Tables)
    requires Inv(s) && Committed(s.db, t', s.chain, e)
    requires ReportsSendings(s.chain, s.carriers, s.tonMemos, e.sendings)
    requires ReportsInternals(s.chain, s.tonMemos, e.sendings, s.chain.strays[s.chain.saved], e.internals)
    requires InternalsOpen(s.db.internal, e.sendings, e.internals)
    ensures CarrierInv(t'.internal, Advanced(s.chain), s.batches, s.carriers)
    ensures t'.internal.Keys == s.db.internal.Keys
  {
    forall m | m in s.carriers && m in s.db.internal && SentNow(s.chain, s.carriers[m])
      ensures !s.db.internal[m].failed
    {
      SentRowIsOpen(s, m);
    }
    CommitKeepsCarriers(s, e, t'.internal);
  }

  /** The memos struck by the block are those of rows. */
  lemma CommitKeepsStrays(s: State, e: Events, t': Tables)
    requires StrayInv(s.chain, s.db.internal) && s.chain.saved < |s.chain.blocks|
    requires ReportsInternals(s.chain, s.tonMemos, e.sendings, s.chain.strays[s.chain.saved], e.internals)
    requires InternalsOpen(s.db.internal, e.sendings, e.internals)
    requires t'.internal.Keys == s.db.internal.Keys
    ensures StrayInv(Advanced(s.chain), t'.internal)
  {
    var strays := s.chain.strays[s.chain.saved];
    forall m | m in MemosOf(strays) ensures m in s.db.internal {
      var i :| 0 <= i < |strays| && strays[i].memo.UuidText? && strays[i].memo.uuid == m;
      assert strays[i] in e.internals;
      var j :| 0 <= j < |e.internals| && e.internals[j] == strays[i];
      assert OpenRow(s.db.internal, e.sendings, e.internals[j].memo);
    }
  }

  lemma CommitAssembled(s: State, t': Tables, chain': Chain)
    requires Inv(s) && SavedPrefix(t'.blocks, chain') && RunsInTime(chain', s.batches, s.sent)
    requires ExternalInv(t'.external, chain', s.batches) && SingleLive(t'.external)
    requires RowsOwned(t'.requests, t'.nextId, t'.external) && StatusInv(t'.requests, t'.external)
    requires ColdWalletInv(t'.requests)
    requires CarrierInv(t'.internal, chain', s.batches, s.carriers)
    requires MemoInv(t'.internal, s.carriers, s.tonMemos, s.sent) && SettlementInv(chain', s.carriers)
    requires StrayInv(chain', t'.internal)
    ensures Inv(s.(db := t', chain := chain'))
  {
  }

  lemma AdvancedChain(s: State)
    requires Inv(s) && s.chain.saved < |s.chain.blocks|
    ensures SavedPrefix(s.chain.blocks[..s.chain.saved + 1], Advanced(s.chain))
    ensures RunsInTime(Advanced(s.chain), s.batches, s.sent) && SettlementInv(Advanced(s.chain), s.carriers)
  {
  }

  lemma CommitKeepsParts(s: State, e: Events, t': Tables)
    requires Inv(s) && s.chain.saved < |s.chain.strays| && Scanned(s, e)
    requires Committed(s.db, t', s.chain, e) && InternalsOpen(s.db.internal, e.sendings, e.internals)
    ensures Inv(s.(db := t', chain := Advanced(s.chain)))
  {
    CommitKeepsExternal(s, t'.external, e.externals);
    CommitKeepsRequests(s, e, t');
    CommitKeepsSweeps(s.db.requests, t'.requests, s.db.external, e.externals);
    CommitKeepsMemos(s, e, t');
    CommitKeepsStrays(s, e, t');
    AdvancedChain(s);
    CommitAssembled(s, t', Advanced(s.chain));
  }

  // ---------------------------------------------------------------- every run

  lemma StepKeepsInv(s: State, step: Step)
    requires Inv(s) && Enabled(s, step)
    ensures Inv(After(s, step))
  {
    match step
    case Submit(r) => SubmitKeepsInv(s, r);
    case CreateBatch(uuid, ttl, tasks, proxies) => BatchKeepsInv(s, uuid, ttl, tasks, proxies);
    case SaveCarried(_, _, _) => SaveTaskKeepsInv(s, step);
    case Send => SendKeepsInv(s);
    case SaveTonTask(_, _, _, _) => SaveTaskKeepsInv(s, step);
    case Produce(b, runs, transfers, strays) => ProduceKeepsInv(s, b, runs, transfers, strays);
    case CommitBlock(e) => CommitKeepsInv(s, e);
    case ExpireInternals(now) => ExpireInternalsKeepsInv(s, now);
    case ExpireExternals(now) => ExpireExternalsKeepsInv(s, now);
    case Crash =>
  }

  lemma {:induction false} RunKeepsInv(s: State, steps: seq<Step>)
    requires Inv(s) && ValidRun(s, steps)
    ensures Inv(RunFrom(s, steps))
    decreases steps
  {
    if steps != [] {
      StepKeepsInv(s, steps[0]);
      RunKeepsInv(After(s, steps[0]), steps[1..]);
    }
  }

  ghost predicate Reachable(s: State) {
    exists lag, steps :: ValidRun(Init(lag), steps) && RunFrom(Init(lag), steps) == s
  }

  lemma ReachableInv(s: State)
    requires Reachable(s)
    ensures Inv(s)
  {
    var lag, steps :| ValidRun(Init(lag), steps) && RunFrom(Init(lag), steps) == s;
    RunKeepsInv(Init(lag), steps);
  }
}
