/** The scanner collects the events of a block wallet by wallet in the random
    order of a Go map.  The commit does not depend on that order. */
module BlockCommit {
  import opened Types
  import opened Ledger

  /** Both rejected, or both accepted with the same tables. */
  predicate SameOutcome(a: Result<Tables>, b: Result<Tables>) {
    a == b || (a.Err? && b.Err?)
  }

  /** Statements of one kind that touch different rows; incomes and confirmations never interfere, nor do two failures
      of one withdrawal, of which only the first is accepted. */
  predicate Independent(a: DbEvent, b: DbEvent) {
    match (a, b)
    case (OfExtIncome(_), OfExtIncome(_)) => true
    case (OfIntIncome(_), OfIntIncome(_)) => true
    case (OfConfirmation(_), OfConfirmation(_)) => true
    case (OfSending(x), OfSending(y)) => x.memo != y.memo
    case (OfInternal(x), OfInternal(y)) => x.memo != y.memo || (x.isFailed && y.isFailed)
    case (OfExternal(x), OfExternal(y)) => ExtKey(x.uuid, x.to) != ExtKey(y.uuid, y.to)
    case _ => false
  }

  predicate AllIndependent(a: seq<DbEvent>, b: seq<DbEvent>) {
    forall i, j :: 0 <= i < |a| && 0 <= j < |b| ==> Independent(a[i], b[j])
  }

  function Both(t: Tables, a: DbEvent, b: DbEvent): Result<Tables> {
    var t' :- Apply(t, a);
    Apply(t', b)
  }

  lemma CommuteSendings(t: Tables, x: SendingConfirmation, y: SendingConfirmation)
    requires x.memo != y.memo
    ensures SameOutcome(Both(t, OfSending(x), OfSending(y)), Both(t, OfSending(y), OfSending(x)))
  {
    if x.memo.UuidText? && y.memo.UuidText? && x.memo.uuid in t.internal && y.memo.uuid in t.internal {
      var r, s := t.internal[x.memo.uuid].(sendingLt := Some(x.lt)), t.internal[y.memo.uuid].(sendingLt := Some(y.lt));
      assert t.internal[x.memo.uuid := r][y.memo.uuid := s] == t.internal[y.memo.uuid := s][x.memo.uuid := r];
    }
  }

  lemma FailTwice(t: Tables, x: InternalWithdrawal, y: InternalWithdrawal)
    requires x.memo == y.memo && x.isFailed && y.isFailed
    ensures Both(t, OfInternal(x), OfInternal(y)).Err?
  {
  }

  lemma CommuteInternals(t: Tables, x: InternalWithdrawal, y: InternalWithdrawal)
    requires x.memo != y.memo || (x.isFailed && y.isFailed)
    ensures SameOutcome(Both(t, OfInternal(x), OfInternal(y)), Both(t, OfInternal(y), OfInternal(x)))
  {
    if x.memo == y.memo {
      FailTwice(t, x, y);
      FailTwice(t, y, x);
      return;
    }
    var a, b := UpdateInternal(t, x), UpdateInternal(t, y);
    if a.Ok? && b.Ok? {
      var r, s := a.value.internal[x.memo.uuid], b.value.internal[y.memo.uuid];
      assert t.internal[x.memo.uuid := r][y.memo.uuid := s] == t.internal[y.memo.uuid := s][x.memo.uuid := r];
    }
  }

  lemma CommuteExternals(t: Tables, x: ExternalWithdrawal, y: ExternalWithdrawal)
    requires ExtKey(x.uuid, x.to) != ExtKey(y.uuid, y.to)
    ensures SameOutcome(Both(t, OfExternal(x), OfExternal(y)), Both(t, OfExternal(y), OfExternal(x)))
  {
    var ab, ba := Both(t, OfExternal(x), OfExternal(y)), Both(t, OfExternal(y), OfExternal(x));
    if ab.Ok? && ba.Ok? {
      assert ab.value.external == ba.value.external;
      assert ab.value.requests == ba.value.requests;
    }
  }

  lemma CommuteIncomes(t: Tables, x: InternalIncome, y: InternalIncome)
    ensures SameOutcome(Both(t, OfIntIncome(x), OfIntIncome(y)), Both(t, OfIntIncome(y), OfIntIncome(x)))
  {
    if x.memo.UuidText? && y.memo.UuidText? {
      var k, l := IncomeKey(x.memo.uuid, x.income.lt), IncomeKey(y.memo.uuid, y.income.lt);
      assert k != l ==> t.intIncomes[k := x.income][l := y.income] == t.intIncomes[l := y.income][k := x.income];
    }
  }

  lemma CommuteConfirmations(t: Tables, x: QueryId, y: QueryId)
    ensures Both(t, OfConfirmation(x), OfConfirmation(y)) == Both(t, OfConfirmation(y), OfConfirmation(x))
  {
    assert ConfirmWithdrawal(ConfirmWithdrawal(t, x), y).external
        == ConfirmWithdrawal(ConfirmWithdrawal(t, y), x).external;
  }

  lemma Commute(t: Tables, a: DbEvent, b: DbEvent)
    requires Independent(a, b)
    ensures SameOutcome(Both(t, a, b), Both(t, b, a))
  {
    match a
    case OfExtIncome(i) =>
      assert t.extIncomes + multiset{i} + multiset{b.extIncome} == t.extIncomes + multiset{b.extIncome} + multiset{i};
    case OfIntIncome(i) => CommuteIncomes(t, i, b.intIncome);
    case OfSending(s) => CommuteSendings(t, s, b.sending);
    case OfInternal(w) => CommuteInternals(t, w, b.internal);
    case OfExternal(w) => CommuteExternals(t, w, b.external);
    case OfConfirmation(q) => CommuteConfirmations(t, q, b.queryId);
  }

  /** One statement may be moved behind a list of statements it is independent of. */
  lemma {:induction false} MoveBehind(t: Tables, x: DbEvent, b: seq<DbEvent>)
    requires AllIndependent([x], b)
    ensures SameOutcome(ApplyAll(t, [x] + b), ApplyAll(t, b + [x]))
    decreases b
  {
    assert ([x] + b)[0] == x && ([x] + b)[1..] == b;
    if b == [] {
      assert [x] + b == b + [x];
    } else {
      var y, rest := b[0], b[1..];
      assert Independent([x][0], y);
      Commute(t, x, y);
      assert (b + [x])[0] == y && (b + [x])[1..] == rest + [x];
      var ty := Apply(t, y);
      if ty.Ok? {
        forall j | 0 <= j < |rest| ensures Independent(x, rest[j]) { assert Independent([x][0], b[j + 1]); }
        MoveBehind(ty.value, x, rest);
        assert ([x] + rest)[0] == x && ([x] + rest)[1..] == rest;
      }
    }
  }

  lemma {:induction false} SwapLists(t: Tables, a: seq<DbEvent>, b: seq<DbEvent>)
    requires AllIndependent(a, b)
    ensures SameOutcome(ApplyAll(t, a + b), ApplyAll(t, b + a))
    decreases a
  {
    if a == [] {
      assert a + b == b && b + a == b;
    } else {
      var x, rest := a[0], a[1..];
      assert (a + b)[0] == x && (a + b)[1..] == rest + b;
      forall j | 0 <= j < |b| ensures Independent([x][0], b[j]) { assert Independent(a[0], b[j]); }
      MoveBehind(t, x, b);
      var tx := Apply(t, x);
      forall i, j | 0 <= i < |rest| && 0 <= j < |b| ensures Independent(rest[i], b[j]) {
        assert Independent(a[i + 1], b[j]);
      }
      if tx.Ok? { SwapLists(tx.value, rest, b); }
      assert ([x] + (b + rest))[0] == x && ([x] + (b + rest))[1..] == b + rest;
      PassOn(t, x, b, rest);
      assert b + a == b + ([x] + rest);
    }
  }

  /** x in front of b and rest, or between them. */
  lemma PassOn(t: Tables, x: DbEvent, b: seq<DbEvent>, rest: seq<DbEvent>)
    requires SameOutcome(ApplyAll(t, [x] + b), ApplyAll(t, b + [x]))
    ensures SameOutcome(ApplyAll(t, [x] + (b + rest)), ApplyAll(t, b + ([x] + rest)))
  {
    assert [x] + (b + rest) == ([x] + b) + rest && b + ([x] + rest) == (b + [x]) + rest;
    ApplyAllConcat(t, [x] + b, rest);
    ApplyAllConcat(t, b + [x], rest);
  }

  lemma SwapInside(t: Tables, pre: seq<DbEvent>, a: seq<DbEvent>, b: seq<DbEvent>, post: seq<DbEvent>)
    requires AllIndependent(a, b)
    ensures SameOutcome(ApplyAll(t, pre + (a + b) + post), ApplyAll(t, pre + (b + a) + post))
  {
    ApplyAllConcat(t, pre + (a + b), post);
    ApplyAllConcat(t, pre + (b + a), post);
    ApplyAllConcat(t, pre, a + b);
    ApplyAllConcat(t, pre, b + a);
    var r := ApplyAll(t, pre);
    if r.Ok? { SwapLists(r.value, a, b); }
  }

  // ---------------------------------------------------------------- wallets

  function Merge(gs: seq<Events>): Events {
    if gs == [] then NO_EVENTS else gs[0].Append(Merge(gs[1..]))
  }

  /** No memo has sending confirmations from both wallets, or a finish from one and any withdrawal from the other; only
      the hot wallet reports external withdrawals, and it is one wallet. */
  predicate SeparateWallets(g: Events, h: Events) {
    && AllIndependent(SendingOps(g.sendings), SendingOps(h.sendings))
    && AllIndependent(InternalOps(g.internals), InternalOps(h.internals))
    && AllIndependent(ExternalOps(g.externals), ExternalOps(h.externals))
  }

  predicate PairwiseSeparate(gs: seq<Events>) {
    forall i, j :: 0 <= i < j < |gs| ==> SeparateWallets(gs[i], gs[j])
  }

  lemma AppendAgain(a: Events, b: Events, c: Events)
    ensures a.Append(b.Append(c)) == a.Append(b).Append(c)
  {
  }

  lemma AppendToNone(e: Events)
    ensures NO_EVENTS.Append(e) == e
  {
  }

  lemma {:induction false} MergeConcat(a: seq<Events>, b: seq<Events>)
    ensures Merge(a + b) == Merge(a).Append(Merge(b))
  {
    if a == [] {
      assert a + b == b;
      AppendToNone(Merge(b));
    } else {
      assert (a + b)[0] == a[0] && (a + b)[1..] == a[1..] + b;
      MergeConcat(a[1..], b);
      AppendAgain(a[0], Merge(a[1..]), Merge(b));
    }
  }

  lemma MergePair(pre: seq<Events>, a: Events, b: Events, post: seq<Events>)
    ensures Merge(pre + [a, b] + post) == Merge(pre).Append(a.Append(b)).Append(Merge(post))
  {
    MergeConcat(pre + [a, b], post);
    MergeConcat(pre, [a, b]);
    assert [a, b][1..] == [b] && [b][1..] == [];
    assert Merge([b]) == b;
  }

  /** The statements of one of the six kinds. */
  function KindOps(e: Events, k: nat): seq<DbEvent>
    requires k < 6
  {
    match k
    case 0 => ExtIncomeOps(e.extIncomes)
    case 1 => IntIncomeOps(e.intIncomes)
    case 2 => SendingOps(e.sendings)
    case 3 => InternalOps(e.internals)
    case 4 => ExternalOps(e.externals)
    case _ => ConfirmationOps(e.confirmations)
  }

  function Then(r: Result<Tables>, es: seq<DbEvent>): Result<Tables> {
    if r.Ok? then ApplyAll(r.value, es) else r
  }

  /** The tables after the first k kinds of statements. */
  function Stage(t: Tables, e: Events, k: nat): Result<Tables>
    requires k <= 6
  {
    if k == 0 then Ok(t) else Then(Stage(t, e, k - 1), KindOps(e, k - 1))
  }

  lemma StagesAreTheCommit(t: Tables, e: Events)
    ensures Stage(t, e, 6) == ApplyAll(t, e.Ops())
  {
    ApplyAllInOrder(t, e);
    assert Stage(t, e, 1) == ApplyAll(t, ExtIncomeOps(e.extIncomes));
    assert Stage(t, e, 2) == Then(Stage(t, e, 1), IntIncomeOps(e.intIncomes));
    assert Stage(t, e, 3) == Then(Stage(t, e, 2), SendingOps(e.sendings));
    assert Stage(t, e, 4) == Then(Stage(t, e, 3), InternalOps(e.internals));
    assert Stage(t, e, 5) == Then(Stage(t, e, 4), ExternalOps(e.externals));
  }

  lemma KindOfTwo(e: Events, f: Events, k: nat)
    requires k < 6
    ensures KindOps(e.Append(f), k) == KindOps(e, k) + KindOps(f, k)
  {
  }

  lemma KindOfAppend(p: Events, a: Events, b: Events, s: Events, k: nat)
    requires k < 6
    ensures KindOps(p.Append(a.Append(b)).Append(s), k)
         == KindOps(p, k) + (KindOps(a, k) + KindOps(b, k)) + KindOps(s, k)
  {
    KindOfTwo(p.Append(a.Append(b)), s, k);
    KindOfTwo(p, a.Append(b), k);
    KindOfTwo(a, b, k);
  }

  lemma {:induction false} SwapStage(t: Tables, p: Events, a: Events, b: Events, s: Events, k: nat)
    requires SeparateWallets(a, b)
    requires k <= 6
    ensures SameOutcome(Stage(t, p.Append(a.Append(b)).Append(s), k), Stage(t, p.Append(b.Append(a)).Append(s), k))
  {
    if k > 0 {
      SwapStage(t, p, a, b, s, k - 1);
      KindOfAppend(p, a, b, s, k - 1);
      KindOfAppend(p, b, a, s, k - 1);
      var r := Stage(t, p.Append(a.Append(b)).Append(s), k - 1);
      if r.Ok? { SwapInside(r.value, KindOps(p, k - 1), KindOps(a, k - 1), KindOps(b, k - 1), KindOps(s, k - 1)); }
    }
  }

  lemma SwapWallets(t: Tables, pre: seq<Events>, a: Events, b: Events, post: seq<Events>)
    requires SeparateWallets(a, b)
    ensures SameOutcome(Outcome(t, pre + [a, b] + post), Outcome(t, pre + [b, a] + post))
  {
    MergePair(pre, a, b, post);
    MergePair(pre, b, a, post);
    SwapStage(t, Merge(pre), a, b, Merge(post), 6);
    StagesAreTheCommit(t, Merge(pre + [a, b] + post));
    StagesAreTheCommit(t, Merge(pre + [b, a] + post));
  }

  lemma RemoveOne<T>(xs: seq<T>, k: nat)
    requires k < |xs|
    ensures multiset(xs[..k] + xs[k + 1..]) == multiset(xs) - multiset{xs[k]}
  {
    assert xs == xs[..k] + [xs[k]] + xs[k + 1..];
  }

  /** Two lists with the same elements, the head of one at place k of the other: without it they still agree, and what
      stands before place k stands behind the head. */
  lemma WithoutHead<T>(xs: seq<T>, ys: seq<T>, k: nat)
    requires multiset(xs) == multiset(ys) && xs != [] && k < |ys| && ys[k] == xs[0]
    ensures multiset(xs[1..]) == multiset(ys[..k] + ys[k + 1..])
    ensures forall i :: 0 <= i < k ==> ys[i] in xs[1..]
  {
    RemoveOne(xs, 0);
    RemoveOne(ys, k);
    assert xs[..0] + xs[1..] == xs[1..];
    var others := ys[..k] + ys[k + 1..];
    forall i | 0 <= i < k ensures ys[i] in xs[1..] {
      assert others[i] == ys[i];
      assert others[i] in multiset(others);
    }
  }

  function Outcome(t: Tables, gs: seq<Events>): Result<Tables> {
    ApplyAll(t, Merge(gs).Ops())
  }

  lemma Regroup(pre: seq<Events>, front: seq<Events>, h: Events, x: Events, post: seq<Events>)
    ensures pre + (front + [h]) + [x] + post == (pre + front) + [h, x] + post
    ensures (pre + front) + [x, h] + post == pre + front + [x] + ([h] + post)
    ensures pre + [x] + (front + [h]) + post == pre + [x] + front + ([h] + post)
  {
  }

  lemma MoveStep(t: Tables, pre: seq<Events>, front: seq<Events>, h: Events, x: Events, post: seq<Events>)
    requires SeparateWallets(x, h)
    requires SameOutcome(Outcome(t, pre + front + [x] + ([h] + post)), Outcome(t, pre + [x] + front + ([h] + post)))
    ensures SameOutcome(Outcome(t, pre + (front + [h]) + [x] + post), Outcome(t, pre + [x] + (front + [h]) + post))
  {
    Regroup(pre, front, h, x, post);
    SwapWallets(t, pre + front, x, h, post);
  }

  predicate SeparateFromAll(x: Events, hs: seq<Events>) { forall i :: 0 <= i < |hs| ==> SeparateWallets(x, hs[i]) }

  /** x moves from its place in the list to the place right after pre. */
  lemma {:induction false} MoveForward(t: Tables, pre: seq<Events>, hs: seq<Events>, x: Events, post: seq<Events>)
    requires SeparateFromAll(x, hs)
    ensures SameOutcome(Outcome(t, pre + hs + [x] + post), Outcome(t, pre + [x] + hs + post))
    decreases hs
  {
    if hs == [] {
      assert pre + hs + [x] + post == pre + [x] + hs + post;
    } else {
      var front, h := hs[..|hs| - 1], hs[|hs| - 1];
      assert hs == front + [h] && SeparateWallets(x, hs[|hs| - 1]);
      assert SeparateFromAll(x, front);
      MoveForward(t, pre, front, x, [h] + post);
      MoveStep(t, pre, front, h, x, post);
    }
  }

  lemma BeforeTheFirst(gs: seq<Events>, hs: seq<Events>, k: nat)
    requires multiset(gs) == multiset(hs)
    requires PairwiseSeparate(gs)
    requires gs != [] && k < |hs| && hs[k] == gs[0]
    ensures multiset(gs[1..]) == multiset(hs[..k] + hs[k + 1..])
    ensures forall i :: 0 <= i < k ==> SeparateWallets(gs[0], hs[i])
    ensures PairwiseSeparate(gs[1..])
  {
    WithoutHead(gs, hs, k);
    forall i | 0 <= i < k ensures SeparateWallets(gs[0], hs[i]) {
      var j :| 0 <= j < |gs[1..]| && gs[1..][j] == hs[i];
      assert SeparateWallets(gs[0], gs[j + 1]);
    }
    TailSeparate(gs);
  }

  lemma TailSeparate(gs: seq<Events>)
    requires PairwiseSeparate(gs) && gs != []
    ensures PairwiseSeparate(gs[1..])
  {
    forall i, j | 0 <= i < j < |gs[1..]| ensures SeparateWallets(gs[1..][i], gs[1..][j]) {
      assert SeparateWallets(gs[i + 1], gs[j + 1]);
    }
  }

  lemma FrontFirst(t: Tables, pre: seq<Events>, hs: seq<Events>, k: nat)
    requires k < |hs|
    requires forall i :: 0 <= i < k ==> SeparateWallets(hs[k], hs[i])
    ensures SameOutcome(Outcome(t, pre + hs), Outcome(t, pre + [hs[k]] + (hs[..k] + hs[k + 1..])))
  {
    MoveForward(t, pre, hs[..k], hs[k], hs[k + 1..]);
    assert pre + hs == pre + hs[..k] + [hs[k]] + hs[k + 1..];
    assert pre + [hs[k]] + (hs[..k] + hs[k + 1..]) == pre + [hs[k]] + hs[..k] + hs[k + 1..];
  }

  lemma FindFirst(gs: seq<Events>, hs: seq<Events>) returns (k: nat)
    requires multiset(gs) == multiset(hs) && gs != []
    ensures k < |hs| && hs[k] == gs[0]
  {
    assert gs[0] in multiset(hs);
    k :| 0 <= k < |hs| && hs[k] == gs[0];
  }

  lemma {:induction false} PermutedWallets(t: Tables, pre: seq<Events>, gs: seq<Events>, hs: seq<Events>)
    requires multiset(gs) == multiset(hs)
    requires PairwiseSeparate(gs)
    ensures SameOutcome(Outcome(t, pre + gs), Outcome(t, pre + hs))
    decreases gs
  {
    if gs == [] {
      assert |multiset(hs)| == 0;
      assert hs == [];
    } else {
      var k := FindFirst(gs, hs);
      BeforeTheFirst(gs, hs, k);
      FrontFirst(t, pre, hs, k);
      PermutedWallets(t, pre + [gs[0]], gs[1..], hs[..k] + hs[k + 1..]);
      assert pre + gs == pre + [gs[0]] + gs[1..];
    }
  }

  /** Committing the wallets of a block in any order gives the same tables, or a rejection either way. */
  lemma CommitIgnoresWalletOrder(t: Tables, gs: seq<Events>, hs: seq<Events>, b: BlockRow)
    requires multiset(gs) == multiset(hs)
    requires PairwiseSeparate(gs)
    ensures SameOutcome(Commit(t, Merge(gs), b), Commit(t, Merge(hs), b))
  {
    PermutedWallets(t, [], gs, hs);
    assert [] + gs == gs && [] + hs == hs;
    SameAfterSaving(t, Merge(gs), Merge(hs), b);
  }

  lemma SameAfterSaving(t: Tables, e: Events, f: Events, b: BlockRow)
    requires SameOutcome(ApplyAll(t, e.Ops()), ApplyAll(t, f.Ops()))
    ensures SameOutcome(Commit(t, e, b), Commit(t, f, b))
  {
  }

  // ---------------------------------------------------------------- failed withdrawals of one batch

  predicate DistinctKeys(ws: seq<ExternalWithdrawal>) {
    forall i, j :: 0 <= i < j < |ws| ==> ExtKey(ws[i].uuid, ws[i].to) != ExtKey(ws[j].uuid, ws[j].to)
  }

  lemma BeforeTheFirstExternal(xs: seq<ExternalWithdrawal>, ys: seq<ExternalWithdrawal>, k: nat)
    requires multiset(xs) == multiset(ys)
    requires DistinctKeys(xs)
    requires xs != [] && k < |ys| && ys[k] == xs[0]
    ensures multiset(xs[1..]) == multiset(ys[..k] + ys[k + 1..])
    ensures forall i :: 0 <= i < k ==> ExtKey(ys[i].uuid, ys[i].to) != ExtKey(xs[0].uuid, xs[0].to)
  {
    WithoutHead(xs, ys, k);
    forall i | 0 <= i < k ensures ExtKey(ys[i].uuid, ys[i].to) != ExtKey(xs[0].uuid, xs[0].to) {
      var j :| 0 <= j < |xs[1..]| && xs[1..][j] == ys[i];
      assert xs[j + 1] == ys[i];
    }
  }

  lemma {:induction false} PermutedExternals(t: Tables, xs: seq<ExternalWithdrawal>, ys: seq<ExternalWithdrawal>)
    requires multiset(xs) == multiset(ys)
    requires DistinctKeys(xs)
    ensures SameOutcome(ApplyAll(t, ExternalOps(xs)), ApplyAll(t, ExternalOps(ys)))
    decreases xs
  {
    if xs == [] {
      assert |multiset(ys)| == 0;
      assert ys == [];
    } else {
      var x, rest := xs[0], xs[1..];
      assert x in multiset(ys);
      var k :| 0 <= k < |ys| && ys[k] == x;
      BeforeTheFirstExternal(xs, ys, k);
      var a, p, q := ExternalOps([x]), ExternalOps(ys[..k]), ExternalOps(ys[k + 1..]);
      var others := ys[..k] + ys[k + 1..];
      SwapInside(t, [], p, a, q);
      assert ExternalOps(ys) == [] + (p + a) + q;
      assert [] + (a + p) + q == a + ExternalOps(others);
      assert ExternalOps(xs) == a + ExternalOps(rest);
      ApplyAllConcat(t, a, ExternalOps(rest));
      ApplyAllConcat(t, a, ExternalOps(others));
      var r := ApplyAll(t, a);
      if r.Ok? { PermutedExternals(r.value, rest, others); }
    }
  }

  /** The failed withdrawals of a batch are also listed in random order; that does not matter either. */
  lemma CommitIgnoresWithdrawalOrder(t: Tables, e: Events, externals: seq<ExternalWithdrawal>, b: BlockRow)
    requires multiset(e.externals) == multiset(externals)
    requires DistinctKeys(e.externals)
    ensures SameOutcome(Commit(t, e, b), Commit(t, e.(externals := externals), b))
  {
    var f := e.(externals := externals);
    ApplyAllInOrder(t, e);
    ApplyAllInOrder(t, f);
    var r1 := ApplyAll(t, ExtIncomeOps(e.extIncomes));
    var r2 := if r1.Ok? then ApplyAll(r1.value, IntIncomeOps(e.intIncomes)) else r1;
    var r3 := if r2.Ok? then ApplyAll(r2.value, SendingOps(e.sendings)) else r2;
    var r4 := if r3.Ok? then ApplyAll(r3.value, InternalOps(e.internals)) else r3;
    if r4.Ok? { PermutedExternals(r4.value, e.externals, externals); }
  }

  // ---------------------------------------------------------------- sending and finish in one block

  predicate HasSending(es: seq<SendingConfirmation>, memo: Uuid) {
    exists i :: 0 <= i < |es| && es[i].memo == UuidText(memo)
  }

  /** Effect of the sending confirmations of a block on the table of internal withdrawals. */
  lemma {:induction false} SendingsApplied(t: Tables, es: seq<SendingConfirmation>)
    ensures match ApplyAll(t, SendingOps(es))
      case Err(e) => e != InvalidEventOrder
      case Ok(t') =>
        && t' == t.(internal := t'.internal)
        && t'.internal.Keys == t.internal.Keys
        && (forall m :: m in t.internal ==>
              && t'.internal[m] == t.internal[m].(sendingLt := t'.internal[m].sendingLt)
              && (HasSending(es, m) ==> t'.internal[m].sendingLt.Some? && !t.internal[m].failed)
              && (!HasSending(es, m) ==> t'.internal[m] == t.internal[m]))
    decreases es
  {
    var ops := SendingOps(es);
    if es != [] {
      var rest := es[1..];
      assert ops[0] == OfSending(es[0]) && ops[1..] == SendingOps(rest);
      var r := Apply(t, ops[0]);
      if r.Ok? {
        SendingsApplied(r.value, rest);
        forall m ensures HasSending(es, m) <==> (es[0].memo == UuidText(m) || HasSending(rest, m)) {
          if HasSending(rest, m) {
            var i :| 0 <= i < |rest| && rest[i].memo == UuidText(m);
            assert es[i + 1].memo == UuidText(m);
          }
          if HasSending(es, m) && es[0].memo != UuidText(m) {
            var i :| 0 <= i < |es| && es[i].memo == UuidText(m);
            assert rest[i - 1].memo == UuidText(m);
          }
        }
      }
    }
  }

  lemma {:induction false} InternalsKeepOrder(t: Tables, ws: seq<InternalWithdrawal>)
    requires forall i :: 0 <= i < |ws| ==>
      ws[i].memo.UuidText? && ws[i].memo.uuid in t.internal && t.internal[ws[i].memo.uuid].sendingLt.Some?
    ensures ApplyAll(t, InternalOps(ws)) != Err(InvalidEventOrder)
    decreases ws
  {
    if ws != [] {
      var ops := InternalOps(ws);
      assert ops[0] == OfInternal(ws[0]) && ops[1..] == InternalOps(ws[1..]);
      var r := Apply(t, ops[0]);
      if r.Ok? { InternalsKeepOrder(r.value, ws[1..]); }
    }
  }

  lemma {:induction false} ExternalsKeepOrder(t: Tables, ws: seq<ExternalWithdrawal>)
    ensures ApplyAll(t, ExternalOps(ws)) != Err(InvalidEventOrder)
    decreases ws
  {
    if ws != [] {
      var ops := ExternalOps(ws);
      assert ops[0] == OfExternal(ws[0]) && ops[1..] == ExternalOps(ws[1..]);
      var r := Apply(t, ops[0]);
      if r.Ok? { ExternalsKeepOrder(r.value, ws[1..]); }
    }
  }

  lemma {:induction false} IncomesKeepTables(t: Tables, es: seq<Income>)
    ensures ApplyAll(t, ExtIncomeOps(es)) == Ok(t.(extIncomes := t.extIncomes + multiset(es)))
    decreases es
  {
    if es == [] {
      assert t.extIncomes + multiset(es) == t.extIncomes;
    } else {
      var ops := ExtIncomeOps(es);
      assert ops[0] == OfExtIncome(es[0]) && ops[1..] == ExtIncomeOps(es[1..]);
      IncomesKeepTables(Apply(t, ops[0]).value, es[1..]);
      HeadFirst(t.extIncomes, es);
    }
  }

  lemma HeadFirst(m: multiset<Income>, es: seq<Income>)
    requires es != []
    ensures m + multiset{es[0]} + multiset(es[1..]) == m + multiset(es)
  {
    assert es == [es[0]] + es[1..];
    assert multiset(es) == multiset{es[0]} + multiset(es[1..]);
  }

  lemma {:induction false} InternalIncomesKeepTables(t: Tables, es: seq<InternalIncome>)
    ensures match ApplyAll(t, IntIncomeOps(es))
      case Err(e) => e == BadUuid || e == UniqueViolation
      case Ok(t') => t' == t.(intIncomes := t'.intIncomes)
    decreases es
  {
    if es != [] {
      var ops := IntIncomeOps(es);
      assert ops[0] == OfIntIncome(es[0]) && ops[1..] == IntIncomeOps(es[1..]);
      var r := Apply(t, ops[0]);
      if r.Ok? { InternalIncomesKeepTables(r.value, es[1..]); }
    }
  }

  /** Confirmations of these requests: exactly their processed rows are confirmed, and nothing else changes. */
  predicate Confirmed(row: ExtRow, row': ExtRow, qs: seq<QueryId>) {
    && row' == row.(confirmed := row'.confirmed)
    && (row'.confirmed <==> row.confirmed || (row.processedLt.Some? && row.queryId in qs))
  }

  lemma {:induction false} ConfirmationsApply(t: Tables, qs: seq<QueryId>)
    ensures ApplyAll(t, ConfirmationOps(qs)).Ok?
    ensures var t' := ApplyAll(t, ConfirmationOps(qs)).value;
      && t' == t.(external := t'.external)
      && t'.external.Keys == t.external.Keys
      && (forall k :: k in t.external ==> Confirmed(t.external[k], t'.external[k], qs))
    decreases qs
  {
    if qs != [] {
      var ops := ConfirmationOps(qs);
      assert ops[0] == OfConfirmation(qs[0]) && ops[1..] == ConfirmationOps(qs[1..]);
      ConfirmationsApply(Apply(t, ops[0]).value, qs[1..]);
    }
  }

  /** The whole chain of an internal withdrawal may land in one block: if every withdrawal event is of a
      saved task whose sending is confirmed by this block or an earlier one, the order is never an error. */
  lemma SendingAndFinishInOneBlock(t: Tables, e: Events, b: BlockRow)
    requires forall i :: 0 <= i < |e.internals| ==>
      && e.internals[i].memo.UuidText?
      && e.internals[i].memo.uuid in t.internal
      && (HasSending(e.sendings, e.internals[i].memo.uuid) || t.internal[e.internals[i].memo.uuid].sendingLt.Some?)
    ensures Commit(t, e, b) != Err(InvalidEventOrder)
  {
    ApplyAllInOrder(t, e);
    IncomesKeepTables(t, e.extIncomes);
    var t1 := ApplyAll(t, ExtIncomeOps(e.extIncomes)).value;
    InternalIncomesKeepTables(t1, e.intIncomes);
    var r2 := ApplyAll(t1, IntIncomeOps(e.intIncomes));
    if r2.Ok? {
      SendingsApplied(r2.value, e.sendings);
      var r3 := ApplyAll(r2.value, SendingOps(e.sendings));
      if r3.Ok? {
        forall i | 0 <= i < |e.internals| ensures r3.value.internal[e.internals[i].memo.uuid].sendingLt.Some? {
          assert r2.value.internal == t.internal;
        }
        InternalsKeepOrder(r3.value, e.internals);
        var r4 := ApplyAll(r3.value, InternalOps(e.internals));
        if r4.Ok? {
          ExternalsKeepOrder(r4.value, e.externals);
          var r5 := ApplyAll(r4.value, ExternalOps(e.externals));
          if r5.Ok? { ConfirmationsApply(r5.value, e.confirmations); }
        }
      }
    }
  }
}
