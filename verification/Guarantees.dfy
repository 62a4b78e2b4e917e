/** What holds of every run of the protocol. */
module Guarantees {
  import opened Types
  import opened Ledger
  import opened Protocol
  import opened ProtocolInvariant

  /** The chain paid this row: it ran the message and the transaction sent to the destination. */
  predicate Paid(s: State, k: ExtKey) {
    && k.uuid in s.batches && k.address in s.batches[k.uuid].pays
    && k.uuid in s.chain.executed && k.address in s.chain.executed[k.uuid].out
  }

  function PaidRequest(s: State, k: ExtKey): QueryId
    requires Paid(s, k)
  {
    s.batches[k.uuid].pays[k.address]
  }

  /** A paid row is never given up. */
  lemma PaidIsLive(s: State, k: ExtKey)
    requires Inv(s) && k.uuid in s.chain.executed && k.uuid in s.batches && k.address in s.batches[k.uuid].pays
    ensures k in s.db.external && Live(s.db.external[k])
    ensures s.db.external[k].queryId == s.batches[k.uuid].pays[k.address]
  {
    assert ExtKey(k.uuid, k.address) in s.db.external;
    assert ExtRowOk(k, s.db.external[k], s.chain, s.batches);
    if !Seen(s.chain, k.uuid) { RunsLater(s.chain, s.batches, s.sent, k.uuid); }
  }

  /** Pay at most once: in every reachable state, two payments of one request are the same payment. */
  lemma PaidAtMostOnce(s: State, k: ExtKey, l: ExtKey)
    requires Reachable(s)
    requires Paid(s, k) && Paid(s, l) && PaidRequest(s, k) == PaidRequest(s, l)
    ensures k == l
  {
    ReachableInv(s);
    PaidIsLive(s, k);
    PaidIsLive(s, l);
    assert OneLive(s.db.external, k, l);
  }

  /** And the payment goes to the destination the request named. */
  lemma PaidToDestination(s: State, k: ExtKey)
    requires Reachable(s) && Paid(s, k)
    ensures PaidRequest(s, k) in s.db.requests && s.db.requests[PaidRequest(s, k)].dest == k.address
  {
    ReachableInv(s);
    PaidIsLive(s, k);
  }

  predicate GivenUp(s: State, k: ExtKey) {
    k in s.db.external && s.db.external[k].failed && s.db.external[k].txHash.None?
  }

  /** No block can run the message of this row any more. */
  predicate Dead(s: State, u: Uuid) {
    u in s.batches && u !in s.chain.executed && Expired(s.chain, s.batches[u].ttl)
  }

  /** No false expiry, whatever the skew of the clock: what the expiration loop gives up has a lifetime that ended
      before the newest saved block, and its message has not run and cannot run. */
  lemma GivenUpIsDead(s: State, k: ExtKey)
    requires Inv(s) && GivenUp(s, k)
    ensures s.db.external[k].expiredAt == s.batches[k.uuid].ttl
    ensures Dead(s, k.uuid)
  {
    assert ExtRowOk(k, s.db.external[k], s.chain, s.batches);
    if k.uuid in s.chain.executed { RunsLater(s.chain, s.batches, s.sent, k.uuid); }
  }

  lemma OlderThanSaved(chain: Chain, b: BlockRow, ttl: int)
    requires Ordered(chain.blocks) && Follows(chain.blocks, b) && Expired(chain, ttl)
    ensures ttl < b.genUtime
  {
  }

  lemma StepKeepsDead(s: State, step: Step, u: Uuid)
    requires Inv(s) && Enabled(s, step) && Dead(s, u)
    ensures Dead(After(s, step), u)
  {
    match step
    case Produce(b, runs, transfers, strays) => OlderThanSaved(s.chain, b, s.batches[u].ttl);
    case CommitBlock(e) =>
      CommitOutcome(s, e);
      assert s.chain.blocks[s.chain.saved - 1].genUtime <= s.chain.blocks[s.chain.saved].genUtime;
    case CreateBatch(uuid, ttl, tasks, proxies) => assert uuid != u;
    case _ =>
  }

  lemma {:induction false} DeadForever(s: State, steps: seq<Step>, u: Uuid)
    requires Inv(s) && ValidRun(s, steps) && Dead(s, u)
    ensures Dead(RunFrom(s, steps), u)
    decreases steps
  {
    if steps != [] {
      StepKeepsInv(s, steps[0]);
      StepKeepsDead(s, steps[0], u);
      DeadForever(After(s, steps[0]), steps[1..], u);
    }
  }

  /** A request that waits for a batch, new or again, has only rows that were given up, and in no continuation of
      the run is any of their messages executed. */
  lemma RetryIsSafe(s: State, steps: seq<Step>, q: QueryId, k: ExtKey)
    requires Reachable(s) && ValidRun(s, steps)
    requires q in s.db.requests && !s.db.requests[q].processing
    requires k in s.db.external && s.db.external[k].queryId == q
    ensures GivenUp(s, k)
    ensures k.uuid !in RunFrom(s, steps).chain.executed
  {
    ReachableInv(s);
    assert StatusOf(s.db.requests[q], q, s.db.external);
    assert !Live(s.db.external[k]);
    GivenUpIsDead(s, k);
    DeadForever(s, steps, k.uuid);
  }

  /** A transfer that failed had been sent. */
  lemma NotSentNotFailed(chain: Chain, carriers: map<Uuid, Carrier>, m: Uuid)
    requires SettlementInv(chain, carriers) && m in carriers && !SentBefore(chain, carriers[m], chain.saved)
    ensures !Failed(chain, m)
  {
  }

  /** The same for a jetton withdrawal from a deposit: once its row expired, its message never reaches the proxy. */
  lemma ExpiredCarrierNeverSends(s: State, steps: seq<Step>, m: Uuid)
    requires Reachable(s) && ValidRun(s, steps)
    requires m in s.carriers && m in s.db.internal && s.db.internal[m].failed && s.db.internal[m].sendingLt.None?
    ensures s.carriers[m].uuid in s.batches && s.db.internal[m].expiredAt == s.batches[s.carriers[m].uuid].ttl
    ensures var c := s.carriers[m]; !SentBefore(RunFrom(s, steps).chain, c, |RunFrom(s, steps).chain.blocks|)
  {
    ReachableInv(s);
    var c := s.carriers[m];
    assert IntRowOk(m, s.db.internal[m], c, s.batches[c.uuid].ttl, s.chain);
    NotSentNotFailed(s.chain, s.carriers, m);
    if c.uuid in s.chain.executed {
      if s.chain.executed[c.uuid].at >= s.chain.saved { RunsLater(s.chain, s.batches, s.sent, c.uuid); }
      RunKeepsExecution(s, steps, c.uuid);
    } else {
      DeadForever(s, steps, c.uuid);
    }
  }

  /** An execution is final: a step only adds executions. */
  lemma StepKeepsExecution(s: State, step: Step, u: Uuid)
    requires Enabled(s, step) && u in s.chain.executed
    ensures u in After(s, step).chain.executed && After(s, step).chain.executed[u] == s.chain.executed[u]
  {
  }

  lemma {:induction false} RunKeepsExecution(s: State, steps: seq<Step>, u: Uuid)
    requires ValidRun(s, steps) && u in s.chain.executed
    ensures u in RunFrom(s, steps).chain.executed
    ensures RunFrom(s, steps).chain.executed[u] == s.chain.executed[u]
    decreases steps
  {
    if steps != [] {
      StepKeepsExecution(s, steps[0], u);
      RunKeepsExecution(After(s, steps[0]), steps[1..], u);
    }
  }
}
