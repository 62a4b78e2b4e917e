/** What users and the wallet owner are told about requests, and what the chain really did. */
module RequestStatus {
  import opened Types
  import opened Ledger
  import opened Protocol
  import opened ProtocolInvariant
  import opened Guarantees

  // ---------------------------------------------------------------- the status of one request

  /** A request that is processed is being processed too, so no request has a bad status. */
  lemma NoBadStatus(s: State, q: QueryId)
    requires Reachable(s) && q in s.db.requests && s.db.requests[q].processed
    ensures s.db.requests[q].processing
  {
    ReachableInv(s);
    assert StatusOf(s.db.requests[q], q, s.db.external);
    var k :| k in s.db.external && s.db.external[k].queryId == q && Decisive(s.db.external[k]);
    assert ExtRowOk(k, s.db.external[k], s.chain, s.batches);
    assert Live(s.db.external[k]);
  }

  lemma DecisiveIsLive(rows: map<ExtKey, ExtRow>, chain: Chain, batches: map<Uuid, Batch>, k: ExtKey)
    requires ExternalInv(rows, chain, batches) && k in rows && Decisive(rows[k])
    ensures Live(rows[k]) && Seen(chain, k.uuid)
  {
    assert ExtRowOk(k, rows[k], chain, batches);
  }

  lemma OneDecisive(rows: map<ExtKey, ExtRow>, chain: Chain, batches: map<Uuid, Batch>, k: ExtKey, l: ExtKey,
                    q: QueryId)
    requires ExternalInv(rows, chain, batches) && SingleLive(rows)
    requires DecidesQuery(rows, k, q) && DecidesQuery(rows, l, q)
    ensures k == l
  {
    DecisiveIsLive(rows, chain, batches, k);
    DecisiveIsLive(rows, chain, batches, l);
    assert OneLive(rows, k, l);
  }

  lemma DecidedIffProcessed(requests: map<QueryId, Request>, rows: map<ExtKey, ExtRow>, q: QueryId)
    requires StatusInv(requests, rows) && q in requests
    ensures requests[q].processed <==> exists k :: DecidesQuery(rows, k, q)
  {
    assert StatusOf(requests[q], q, rows);
    if requests[q].processed {
      var k :| k in rows && rows[k].queryId == q && Decisive(rows[k]);
      assert DecidesQuery(rows, k, q);
    }
    if k :| DecidesQuery(rows, k, q) {
      assert HasDecisive(rows, q);
    }
  }

  /** A processed request has exactly one row that the chain decided, and no other request has one. */
  lemma OneDecisiveRow(s: State, q: QueryId)
    requires Reachable(s) && q in s.db.requests
    ensures s.db.requests[q].processed <==> exists k :: DecidesQuery(s.db.external, k, q)
    ensures forall k, l :: DecidesQuery(s.db.external, k, q) && DecidesQuery(s.db.external, l, q) ==> k == l
  {
    ReachableInv(s);
    DecidedIffProcessed(s.db.requests, s.db.external, q);
    forall k, l | DecidesQuery(s.db.external, k, q) && DecidesQuery(s.db.external, l, q) ensures k == l {
      OneDecisive(s.db.external, s.chain, s.batches, k, l, q);
    }
  }

  predicate PaidQuery(s: State, q: QueryId) {
    exists u :: u in s.batches &&
      exists a :: a in s.batches[u].pays && s.batches[u].pays[a] == q && Paid(s, ExtKey(u, a))
  }

  lemma DecidedByChain(rows: map<ExtKey, ExtRow>, chain: Chain, batches: map<Uuid, Batch>, k: ExtKey)
    requires ExternalInv(rows, chain, batches) && k in rows && Decisive(rows[k])
    ensures k.uuid in batches && k.address in batches[k.uuid].pays && rows[k].queryId == batches[k.uuid].pays[k.address]
    ensures k.uuid in chain.executed && (!rows[k].failed <==> k.address in chain.executed[k.uuid].out)
  {
    assert ExtRowOk(k, rows[k], chain, batches);
  }

  lemma SameLiveRow(rows: map<ExtKey, ExtRow>, k: ExtKey, l: ExtKey)
    requires SingleLive(rows) && k in rows && l in rows
    requires Live(rows[k]) && Live(rows[l]) && rows[k].queryId == rows[l].queryId
    ensures k == l
  {
    assert OneLive(rows, k, l);
  }

  /** The two final answers are the truth: processed means that the chain paid the request, failed that it ran the
      message without paying, and that no other message paid it either. */
  lemma FinalAnswerIsTrue(s: State, q: QueryId, k: ExtKey)
    requires Reachable(s) && DecidesQuery(s.db.external, k, q)
    ensures !s.db.external[k].failed <==> Paid(s, k)
    ensures s.db.external[k].failed ==> !PaidQuery(s, q)
    ensures k.uuid in s.batches && k.address in s.batches[k.uuid].pays && s.batches[k.uuid].pays[k.address] == q
  {
    ReachableInv(s);
    DecidedByChain(s.db.external, s.chain, s.batches, k);
    DecisiveIsLive(s.db.external, s.chain, s.batches, k);
    if s.db.external[k].failed && PaidQuery(s, q) {
      var u, a :| u in s.batches && a in s.batches[u].pays && s.batches[u].pays[a] == q && Paid(s, ExtKey(u, a));
      PaidIsLive(s, ExtKey(u, a));
      SameLiveRow(s.db.external, k, ExtKey(u, a));
      assert false;
    }
  }

  /** Only payments are ever confirmed. */
  lemma ConfirmedIsPaid(s: State, k: ExtKey)
    requires Reachable(s) && k in s.db.external && s.db.external[k].confirmed
    ensures Paid(s, k)
  {
    ReachableInv(s);
    ConfirmedByChain(s.db.external, s.chain, s.batches, k);
  }

  lemma ConfirmedByChain(rows: map<ExtKey, ExtRow>, chain: Chain, batches: map<Uuid, Batch>, k: ExtKey)
    requires ExternalInv(rows, chain, batches) && k in rows && rows[k].confirmed
    ensures k.uuid in batches && k.address in batches[k.uuid].pays
    ensures k.uuid in chain.executed && k.address in chain.executed[k.uuid].out
  {
    assert ExtRowOk(k, rows[k], chain, batches);
  }

  lemma SameDecision(rows: map<ExtKey, ExtRow>, chain: Chain, batches: map<Uuid, Batch>,
                     rows': map<ExtKey, ExtRow>, chain': Chain, batches': map<Uuid, Batch>, k: ExtKey)
    requires ExternalInv(rows, chain, batches) && ExternalInv(rows', chain', batches')
    requires k in rows && Decisive(rows[k])
    requires k.uuid in batches' && batches'[k.uuid] == batches[k.uuid]
    requires Seen(chain, k.uuid) ==> Seen(chain', k.uuid) && chain'.executed[k.uuid] == chain.executed[k.uuid]
    ensures k in rows' && Decisive(rows'[k])
    ensures rows'[k].failed == rows[k].failed && rows'[k].queryId == rows[k].queryId
  {
    assert ExtRowOk(k, rows[k], chain, batches);
    assert ExtKey(k.uuid, k.address) in rows';
    assert ExtRowOk(k, rows'[k], chain', batches');
  }

  /** A step keeps what was built and what the chain ran before the saved blocks. */
  lemma HistoryStands(s: State, step: Step, u: Uuid)
    requires Enabled(s, step) && u in s.batches && Seen(s.chain, u)
    ensures u in After(s, step).batches && After(s, step).batches[u] == s.batches[u]
    ensures Seen(After(s, step).chain, u) && After(s, step).chain.executed[u] == s.chain.executed[u]
  {
  }

  /** And a final answer stays: no step undecides a row or changes what it says. */
  lemma DecisionStands(s: State, step: Step, k: ExtKey)
    requires Inv(s) && Enabled(s, step)
    requires k in s.db.external && Decisive(s.db.external[k])
    ensures k in After(s, step).db.external && Decisive(After(s, step).db.external[k])
    ensures After(s, step).db.external[k].failed == s.db.external[k].failed
    ensures After(s, step).db.external[k].queryId == s.db.external[k].queryId
  {
    StepKeepsInv(s, step);
    var s' := After(s, step);
    DecidedByChain(s.db.external, s.chain, s.batches, k);
    DecisiveIsLive(s.db.external, s.chain, s.batches, k);
    HistoryStands(s, step, k.uuid);
    SameDecision(s.db.external, s.chain, s.batches, s'.db.external, s'.chain, s'.batches, k);
  }

  lemma {:induction false} AnswerStands(s: State, steps: seq<Step>, k: ExtKey)
    requires Inv(s) && ValidRun(s, steps)
    requires k in s.db.external && Decisive(s.db.external[k])
    ensures k in RunFrom(s, steps).db.external && Decisive(RunFrom(s, steps).db.external[k])
    ensures RunFrom(s, steps).db.external[k].failed == s.db.external[k].failed
    ensures RunFrom(s, steps).db.external[k].queryId == s.db.external[k].queryId
    decreases steps
  {
    if steps != [] {
      StepKeepsInv(s, steps[0]);
      DecisionStands(s, steps[0], k);
      AnswerStands(After(s, steps[0]), steps[1..], k);
    }
  }

  /** A request reported as failed is paid in no continuation of the run. */
  lemma FailedIsNeverPaid(s: State, steps: seq<Step>, q: QueryId, k: ExtKey)
    requires Reachable(s) && ValidRun(s, steps)
    requires DecidesQuery(s.db.external, k, q) && s.db.external[k].failed
    ensures !PaidQuery(RunFrom(s, steps), q)
  {
    ReachableInv(s);
    AnswerStands(s, steps, k);
    ReachableOn(s, steps);
    FinalAnswerIsTrue(RunFrom(s, steps), q, k);
  }

  lemma {:induction false} RunInTwoParts(s: State, a: seq<Step>, b: seq<Step>)
    requires ValidRun(s, a) && ValidRun(RunFrom(s, a), b)
    ensures ValidRun(s, a + b) && RunFrom(s, a + b) == RunFrom(RunFrom(s, a), b)
    decreases a
  {
    if a == [] {
      assert a + b == b;
    } else {
      assert (a + b)[0] == a[0] && (a + b)[1..] == a[1..] + b;
      RunInTwoParts(After(s, a[0]), a[1..], b);
    }
  }

  lemma ReachableOn(s: State, steps: seq<Step>)
    requires Reachable(s) && ValidRun(s, steps)
    ensures Reachable(RunFrom(s, steps))
  {
    var lag, before :| ValidRun(Init(lag), before) && RunFrom(Init(lag), before) == s;
    RunInTwoParts(Init(lag), before, steps);
  }

  // ---------------------------------------------------------------- totals over a run

  predicate SameOrders(r: map<QueryId, Request>, r': map<QueryId, Request>) {
    && r'.Keys == r.Keys
    && (forall q :: q in r ==> r'[q] == r[q].(processing := r'[q].processing, processed := r'[q].processed))
  }

  /** Everything ever asked for in one currency, whatever has become of it. */
  function Requested(requests: map<QueryId, Request>, n: QueryId, currency: string): int {
    Total(requests, n, currency, false, false) + Total(requests, n, currency, true, false)
    + Total(requests, n, currency, false, true) + Total(requests, n, currency, true, true)
  }

  lemma {:induction false} SameRequested(r: map<QueryId, Request>, r': map<QueryId, Request>, n: QueryId,
                                         currency: string)
    requires SameOrders(r, r')
    ensures Requested(r', n, currency) == Requested(r, n, currency)
  {
    if n > 0 { SameRequested(r, r', n - 1, currency); }
  }

  lemma {:induction false} AboveDoesNotCount(
    r: map<QueryId, Request>, x: Request, m: QueryId, n: QueryId, currency: string, processing: bool, processed: bool)
    requires n <= m
    ensures Total(r[m := x], n, currency, processing, processed) == Total(r, n, currency, processing, processed)
  {
    if n > 0 { AboveDoesNotCount(r, x, m, n - 1, currency, processing, processed); }
  }

  /** No request is processed without being processed on: the fourth total is empty. */
  lemma {:induction false} NoBadTotal(requests: map<QueryId, Request>, n: QueryId, currency: string)
    requires forall q :: q in requests && requests[q].processed ==> requests[q].processing
    ensures Total(requests, n, currency, false, true) == 0
  {
    if n > 0 { NoBadTotal(requests, n - 1, currency); }
  }

  /** What one step adds to the requested amount. */
  function Accepted(s: State, step: Step, currency: string): int {
    if step.Submit? && SaveRequest(s.db, step.request).Ok? && step.request.currency == currency
    then step.request.amount else 0
  }

  lemma SubmitAdds(t: Tables, r: Request, currency: string)
    requires SaveRequest(t, r).Ok?
    ensures var t' := SaveRequest(t, r).value;
      Requested(t'.requests, t'.nextId, currency)
      == Requested(t.requests, t.nextId, currency) + if r.currency == currency then r.amount else 0
  {
    var x := r.(processing := false, processed := false);
    forall a, b ensures Total(t.requests[t.nextId := x], t.nextId, currency, a, b)
                        == Total(t.requests, t.nextId, currency, a, b) {
      AboveDoesNotCount(t.requests, x, t.nextId, t.nextId, currency, a, b);
    }
  }

  lemma BatchKeepsOrders(s: State, uuid: Uuid, ttl: int, tasks: seq<ExternalTask>, proxies: map<Uuid, Address>)
    requires Inv(s) && EnabledBatch(s, uuid, tasks, proxies)
    ensures var t' := WithBatch(s, uuid, ttl, tasks, proxies).db;
      SameOrders(s.db.requests, t'.requests) && t'.nextId == s.db.nextId
  {
    BatchOfTasks(s, uuid, ttl, tasks);
    var t' := CreateExternal(s.db, tasks, uuid, ttl).value;
    assert RequestsMarked(s.db.requests, t'.requests, PaysOf(tasks));
  }

  lemma CommitKeepsOrders(s: State, e: Events)
    requires Inv(s) && Enabled(s, CommitBlock(e))
    ensures var t' := WithCommit(s, e).db;
      SameOrders(s.db.requests, t'.requests) && t'.nextId == s.db.nextId
  {
    CommitOutcome(s, e);
    var r := Commit(s.db, e, s.chain.blocks[s.chain.saved]);
    if r.Ok? { assert RequestsDecided(s.db.requests, r.value.requests, s.db.external, e.externals); }
  }

  lemma ExpiryKeepsOrders(t: Tables, bound: int)
    ensures SameOrders(t.requests, ExpireExternal(t, bound).requests) && ExpireExternal(t, bound).nextId == t.nextId
  {
  }

  lemma OtherStepsKeepOrders(s: State, step: Step)
    requires Inv(s) && Enabled(s, step) && !step.Submit?
    ensures SameOrders(s.db.requests, After(s, step).db.requests) && After(s, step).db.nextId == s.db.nextId
  {
    match step
    case CreateBatch(uuid, ttl, tasks, proxies) => BatchKeepsOrders(s, uuid, ttl, tasks, proxies);
    case CommitBlock(e) => CommitKeepsOrders(s, e);
    case ExpireExternals(now) => ExpiryKeepsOrders(s.db, Bound(now, s.lag));
    case _ =>
  }

  lemma StepConserves(s: State, step: Step, currency: string)
    requires Inv(s) && Enabled(s, step)
    ensures var s' := After(s, step);
      Requested(s'.db.requests, s'.db.nextId, currency)
      == Requested(s.db.requests, s.db.nextId, currency) + Accepted(s, step, currency)
  {
    if step.Submit? {
      if SaveRequest(s.db, step.request).Ok? { SubmitAdds(s.db, step.request, currency); }
    } else {
      OtherStepsKeepOrders(s, step);
      SameRequested(s.db.requests, After(s, step).db.requests, s.db.nextId, currency);
    }
  }

  function AcceptedBy(s: State, steps: seq<Step>, currency: string): int
    requires ValidRun(s, steps)
    decreases steps
  {
    if steps == [] then 0
    else Accepted(s, steps[0], currency) + AcceptedBy(After(s, steps[0]), steps[1..], currency)
  }

  lemma {:induction false} RunConserves(s: State, steps: seq<Step>, currency: string)
    requires Inv(s) && ValidRun(s, steps)
    ensures var s' := RunFrom(s, steps);
      Requested(s'.db.requests, s'.db.nextId, currency)
      == Requested(s.db.requests, s.db.nextId, currency) + AcceptedBy(s, steps, currency)
    decreases steps
  {
    if steps != [] {
      StepKeepsInv(s, steps[0]);
      StepConserves(s, steps[0], currency);
      RunConserves(After(s, steps[0]), steps[1..], currency);
    }
  }

  /** In every run, per currency, the pending, processing and processed amounts together are what was accepted. */
  lemma TotalsAddUp(lag: int, steps: seq<Step>, currency: string)
    requires ValidRun(Init(lag), steps)
    ensures var t := RunFrom(Init(lag), steps).db;
      Total(t.requests, t.nextId, currency, false, false) + Total(t.requests, t.nextId, currency, true, false)
      + Total(t.requests, t.nextId, currency, true, true) == AcceptedBy(Init(lag), steps, currency)
  {
    var s := RunFrom(Init(lag), steps);
    assert Reachable(s);
    RunConserves(Init(lag), steps, currency);
    forall q | q in s.db.requests && s.db.requests[q].processed ensures s.db.requests[q].processing {
      NoBadStatus(s, q);
    }
    NoBadTotal(s.db.requests, s.db.nextId, currency);
    assert forall a, b :: Total(Init(lag).db.requests, 1, currency, a, b) == 0;
  }

  /** In every reachable state at most one internal request per destination and currency is unprocessed. */
  lemma OneSweepInProgress(s: State, p: QueryId, q: QueryId)
    requires Reachable(s) && p in s.db.requests && q in s.db.requests
    requires SameSweep(s.db.requests[p], s.db.requests[q])
    ensures p == q
  {
    ReachableInv(s);
  }
}
