/** The statements on the tables, column by column: which row each of them changes, to what, and when it fails. */
module Statements {
  import opened Types
  import opened Ledger

  /** Every row but this one is as before. */
  predicate OnlyInternal(t: Tables, t': Tables, m: Uuid) {
    && t' == t.(internal := t'.internal) && m in t.internal && t'.internal.Keys == t.internal.Keys
    && forall n :: n in t.internal && n != m ==> t'.internal[n] == t.internal[n]
  }

  /** The columns a statement on a withdrawal from a deposit never touches. */
  predicate SameTask(row: IntRow, row': IntRow) {
    row'.deposit == row.deposit && row'.sinceLt == row.sinceLt && row'.expiredAt == row.expiredAt
  }

  lemma SendingColumns(t: Tables, s: SendingConfirmation)
    ensures match ConfirmSending(t, s)
      case Ok(t') =>
        && s.memo.UuidText? && OnlyInternal(t, t', s.memo.uuid)
        && var row, row' := t.internal[s.memo.uuid], t'.internal[s.memo.uuid];
           && !row.failed && SameTask(row, row') && row'.sendingLt == Some(s.lt)
           && row'.finishLt == row.finishLt && row'.amount == row.amount && !row'.failed
      case Err(BadUuid) => s.memo.PlainText?
      case Err(NoRows) => s.memo.UuidText? && s.memo.uuid !in t.internal
      case Err(ExpirationProcessorMisbehaved) =>
        && s.memo.UuidText? && s.memo.uuid in t.internal && t.internal[s.memo.uuid].failed
      case Err(_) => false
  {
  }

  lemma WithdrawalColumns(t: Tables, w: InternalWithdrawal)
    ensures match UpdateInternal(t, w)
      case Ok(t') =>
        && w.memo.UuidText? && OnlyInternal(t, t', w.memo.uuid)
        && var row, row' := t.internal[w.memo.uuid], t'.internal[w.memo.uuid];
           && !row.failed && row.sendingLt.Some? && SameTask(row, row') && row'.sendingLt == row.sendingLt
           && row'.failed == w.isFailed
           && row'.finishLt == (if w.isFailed then row.finishLt else Some(w.lt))
           && row'.amount == row.amount + (if w.isFailed then 0 else w.amount)
      case Err(BadUuid) => w.memo.PlainText?
      case Err(InvalidEventOrder) =>
        && w.memo.UuidText?
        && (w.memo.uuid in t.internal ==>
              !t.internal[w.memo.uuid].failed && t.internal[w.memo.uuid].sendingLt.None?)
      case Err(ExpirationProcessorMisbehaved) =>
        && w.memo.UuidText? && w.memo.uuid in t.internal && t.internal[w.memo.uuid].failed
      case Err(_) => false
  {
  }

  lemma PaymentColumns(t: Tables, w: ExternalWithdrawal)
    ensures var k := ExtKey(w.uuid, w.to);
      match UpdateExternal(t, w)
      case Ok(t') =>
        && t' == t.(external := t'.external, requests := t'.requests)
        && k in t.external && t'.external.Keys == t.external.Keys
        && (forall l :: l in t.external && l != k ==> t'.external[l] == t.external[l])
        && (var row, row' := t.external[k], t'.external[k];
            && !row.failed && row'.failed == w.isFailed && row'.txHash == Some(w.txHash)
            && row'.processedLt == (if w.isFailed then row.processedLt else Some(w.lt))
            && row'.queryId == row.queryId && row'.expiredAt == row.expiredAt && row'.confirmed == row.confirmed)
        && t'.requests.Keys == t.requests.Keys
        && (forall q :: q in t.requests ==>
              t'.requests[q] == t.requests[q].(processed := t.requests[q].processed || q == t.external[k].queryId))
      case Err(NoRows) => k !in t.external
      case Err(ExpirationProcessorMisbehaved) => k in t.external && t.external[k].failed
      case Err(_) => false
  {
  }

  lemma IncomeColumns(t: Tables, i: InternalIncome)
    ensures match SaveInternalIncome(t, i)
      case Ok(t') =>
        && t' == t.(intIncomes := t'.intIncomes) && i.memo.UuidText?
        && (var k := IncomeKey(i.memo.uuid, i.income.lt);
            && k !in t.intIncomes && t'.intIncomes.Keys == t.intIncomes.Keys + {k}
            && (forall l :: l in t.intIncomes ==> t'.intIncomes[l] == t.intIncomes[l])
            && t'.intIncomes[k].deposit == i.income.deposit && t'.intIncomes[k].amount == i.income.amount
            && t'.intIncomes[k].lt == i.income.lt && t'.intIncomes[k].utime == i.income.utime)
      case Err(BadUuid) => i.memo.PlainText?
      case Err(UniqueViolation) =>
        i.memo.UuidText? && IncomeKey(i.memo.uuid, i.income.lt) in t.intIncomes
      case Err(_) => false
  {
  }

  lemma TaskColumns(t: Tables, memo: Uuid, deposit: Address, sinceLt: nat, expiredAt: int)
    ensures match SaveInternalTask(t, memo, deposit, sinceLt, expiredAt)
      case Ok(t') =>
        && t' == t.(internal := t'.internal) && memo !in t.internal
        && t'.internal.Keys == t.internal.Keys + {memo}
        && (forall n :: n in t.internal ==> t'.internal[n] == t.internal[n])
        && (var row := t'.internal[memo];
            && row.deposit == deposit && row.sinceLt == sinceLt && row.expiredAt == expiredAt && row.amount == 0
            && row.sendingLt.None? && row.finishLt.None? && !row.failed)
      case Err(UniqueViolation) => memo in t.internal
      case Err(_) => false
  {
  }

  lemma RequestColumns(t: Tables, r: Request)
    requires t.nextId !in t.requests
    ensures match SaveRequest(t, r)
      case Ok(t') =>
        && t' == t.(requests := t'.requests, nextId := t'.nextId) && t'.nextId == t.nextId + 1
        && t'.requests.Keys == t.requests.Keys + {t.nextId}
        && (forall q :: q in t.requests ==> t'.requests[q] == t.requests[q])
        && (var x := t'.requests[t.nextId];
            && !x.processing && !x.processed && x.isInternal == r.isInternal
            && x.userId == r.userId && x.userQueryId == r.userQueryId && x.dest == r.dest
            && x.currency == r.currency && x.amount == r.amount && x.bounceable == r.bounceable
            && x.comment == r.comment && x.binaryComment == r.binaryComment)
      case Err(UniqueViolation) =>
        exists q :: q in t.requests && t.requests[q].userId == r.userId
                       && t.requests[q].userQueryId == r.userQueryId && t.requests[q].isInternal == r.isInternal
      case Err(_) => false
  {
  }

  /** A task of a batch: its row under the message uuid and its destination, and the mark of its request. */
  lemma BatchRowColumns(t: Tables, uuid: Uuid, expiredAt: int, task: ExternalTask)
    ensures var k := ExtKey(uuid, task.dest);
      match InsertBatchRow(t, uuid, expiredAt, task)
      case Ok(t') =>
        && t' == t.(external := t'.external, requests := t'.requests)
        && k !in t.external && t'.external.Keys == t.external.Keys + {k}
        && (forall l :: l in t.external ==> t'.external[l] == t.external[l])
        && (var row := t'.external[k];
            && row.queryId == task.queryId && row.expiredAt == expiredAt && row.processedLt.None? && row.txHash.None?
            && !row.confirmed && !row.failed)
        && t'.requests.Keys == t.requests.Keys
        && (forall q :: q in t.requests ==>
              t'.requests[q] == t.requests[q].(processing := t.requests[q].processing || q == task.queryId))
      case Err(UniqueViolation) => k in t.external
      case Err(_) => false
  {
  }

  lemma HeaderColumns(t: Tables, b: BlockRow)
    ensures match SaveBlock(t, b)
      case Ok(t') => t' == t.(blocks := t'.blocks) && t'.blocks == t.blocks + [b]
      case Err(e) => e == UniqueViolation
    ensures SaveBlock(t, b).Err? <==>
      exists i :: 0 <= i < |t.blocks| && t.blocks[i].shard == b.shard && t.blocks[i].seqno == b.seqno
  {
  }

  /** Which rows an expiry fails, and which requests it lets go. */
  lemma ExpiryColumns(t: Tables, bound: int)
    ensures var t' := ExpireExternal(ExpireInternal(t, bound), bound);
      && t'.internal.Keys == t.internal.Keys && t'.external.Keys == t.external.Keys
      && t'.requests.Keys == t.requests.Keys
      && t' == t.(internal := t'.internal, external := t'.external, requests := t'.requests)
      && (forall m :: m in t.internal ==>
            t'.internal[m] == t.internal[m].(failed := t.internal[m].failed
              || (t.internal[m].expiredAt < bound && t.internal[m].sendingLt == None)))
      && (forall k :: k in t.external ==>
            t'.external[k] == t.external[k].(failed := t.external[k].failed
              || (t.external[k].expiredAt < bound && t.external[k].processedLt == None)))
      && (forall q :: q in t.requests ==>
            t'.requests[q] == t.requests[q].(processing := t.requests[q].processing
              && !exists k :: k in t.external && t.external[k].queryId == q && !t.external[k].failed
                              && t.external[k].expiredAt < bound && t.external[k].processedLt == None))
  {
    var t' := ExpireExternal(ExpireInternal(t, bound), bound);
    forall q | q in t.requests
      ensures q in ExpiringQueries(t.external, bound) <==>
        exists k :: k in t.external && t.external[k].queryId == q && !t.external[k].failed
                    && t.external[k].expiredAt < bound && t.external[k].processedLt == None
    {
      if k :| k in t.external && t.external[k].queryId == q && ExternalExpires(t.external[k], bound) {
        assert t.external[k].queryId in ExpiringQueries(t.external, bound);
      }
    }
  }
}
