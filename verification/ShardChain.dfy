/** The blocks of all shards of one workchain as shards split and merge, and the line of blocks a follower of one
    address byte finds in them. */
module ShardChain {
  import opened Types
  import opened ShardPrefix

  datatype BlockId = BlockId(shard: Prefix, seqno: nat)

  datatype Header = Header(parents: seq<BlockId>, genUtime: int)

  /** The first suitable block, or the fatal stop of a bad prefix or of an unsuitable list. */
  function FilterByShard(ids: seq<BlockId>, b: Byte): (r: Option<BlockId>)
    ensures r.Some? ==> r.value in ids && IsInShard(r.value.shard, b) == Some(true)
    decreases ids
  {
    if ids == [] then None
    else
      match IsInShard(ids[0].shard, b)
      case None => None
      case Some(true) => Some(ids[0])
      case Some(false) => FilterByShard(ids[1..], b)
  }

  /** tips holds the newest seqno of every current shard; masters, per masterchain block, the tips it names. */
  datatype Net = Net(tips: map<Shard, nat>, headers: map<BlockId, Header>, masters: seq<seq<BlockId>>)

  datatype Change =
    | Extend(shard: Shard, genUtime: int)
    | Split(shard: Shard, leftUtime: int, rightUtime: int)
    | Merge(shard: Shard, genUtime: int)
    | Master(order: seq<Shard>)

  const WHOLE := Shard(0, 0)
  const GENESIS := Net(map[WHOLE := 0], map[BlockId(Code(WHOLE), 0) := Header([], 0)], [])

  function Id(s: Shard, seqno: nat): BlockId
    requires Depth8(s)
  {
    BlockId(Code(s), seqno)
  }

  predicate AllDepth8(tips: map<Shard, nat>) { forall s :: s in tips ==> Depth8(s) }

  predicate NotBefore(headers: map<BlockId, Header>, parent: BlockId, genUtime: int) {
    parent in headers && headers[parent].genUtime <= genUtime
  }

  predicate Enabled(n: Net, c: Change) {
    && AllDepth8(n.tips)
    && match c
       case Extend(s, u) => s in n.tips && NotBefore(n.headers, Id(s, n.tips[s]), u)
       case Split(s, u, v) =>
         && s in n.tips && s.len < 8
         && NotBefore(n.headers, Id(s, n.tips[s]), u) && NotBefore(n.headers, Id(s, n.tips[s]), v)
       case Merge(s, u) =>
         s.len < 8 && Left(s) in n.tips && Right(s) in n.tips
         && NotBefore(n.headers, Id(Left(s), n.tips[Left(s)]), u)
         && NotBefore(n.headers, Id(Right(s), n.tips[Right(s)]), u)
       case Master(order) =>
         (forall s :: s in n.tips ==> s in order) && (forall s :: s in order ==> s in n.tips)
         && forall i, j :: 0 <= i < j < |order| ==> order[i] != order[j]
  }

  function Max(a: nat, b: nat): nat { if a < b then b else a }

  function SplitTips(tips: map<Shard, nat>, s: Shard, seqno: nat): map<Shard, nat> {
    (tips - {s})[Left(s) := seqno][Right(s) := seqno]
  }

  function MergeTips(tips: map<Shard, nat>, s: Shard, seqno: nat): map<Shard, nat> {
    (tips - {Left(s), Right(s)})[s := seqno]
  }

  function SplitHeaders(headers: map<BlockId, Header>, s: Shard, seqno: nat, l: Header, r: Header): map<BlockId, Header>
    requires Depth8(Left(s)) && Depth8(Right(s))
  {
    headers[Id(Left(s), seqno) := l][Id(Right(s), seqno) := r]
  }

  function TipsOf(n: Net, order: seq<Shard>): seq<BlockId>
    requires AllDepth8(n.tips) && forall s :: s in order ==> s in n.tips
  {
    seq(|order|, i requires 0 <= i < |order| => Id(order[i], n.tips[order[i]]))
  }

  lemma HalvesFit(s: Shard)
    requires s.len < 8
    ensures Depth8(s) <==> Depth8(Left(s))
    ensures Depth8(s) <==> Depth8(Right(s))
  {
  }

  function Next(n: Net, c: Change): Net
    requires Enabled(n, c)
  {
    match c
    case Extend(s, u) =>
      var k := n.tips[s];
      n.(tips := n.tips[s := k + 1], headers := n.headers[Id(s, k + 1) := Header([Id(s, k)], u)])
    case Split(s, u, v) =>
      HalvesFit(s);
      var k := n.tips[s];
      n.(tips := SplitTips(n.tips, s, k + 1),
         headers := SplitHeaders(n.headers, s, k + 1, Header([Id(s, k)], u), Header([Id(s, k)], v)))
    case Merge(s, u) =>
      HalvesFit(s);
      var l, r := n.tips[Left(s)], n.tips[Right(s)];
      var h := Header([Id(Left(s), l), Id(Right(s), r)], u);
      n.(tips := MergeTips(n.tips, s, Max(l, r) + 1), headers := n.headers[Id(s, Max(l, r) + 1) := h])
    case Master(order) => n.(masters := n.masters + [TipsOf(n, order)])
  }

  predicate ValidHistory(n: Net, cs: seq<Change>)
    decreases cs
  {
    cs == [] || (Enabled(n, cs[0]) && ValidHistory(Next(n, cs[0]), cs[1..]))
  }

  function Evolve(n: Net, cs: seq<Change>): Net
    requires ValidHistory(n, cs)
    decreases cs
  {
    if cs == [] then n else Evolve(Next(n, cs[0]), cs[1..])
  }

  ghost predicate Reachable(n: Net) {
    exists cs :: ValidHistory(GENESIS, cs) && Evolve(GENESIS, cs) == n
  }

  // ---------------------------------------------------------------- exactly one shard has the byte

  predicate Owner(tips: map<Shard, nat>, b: Byte, s: Shard) {
    s in tips && Has(s, b) && forall t :: t in tips && Has(t, b) ==> t == s
  }

  /** The line of a byte: every block is the one suitable parent of the next, later in seqno and not earlier in time. */
  predicate Linked(headers: map<BlockId, Header>, b: Byte, p: BlockId, q: BlockId) {
    && p in headers && q in headers
    && FilterByShard(headers[q].parents, b) == Some(p)
    && p.seqno < q.seqno && headers[p].genUtime <= headers[q].genUtime
  }

  predicate IsLine(headers: map<BlockId, Header>, b: Byte, line: seq<BlockId>) {
    && (forall i :: 0 <= i < |line| ==> line[i] in headers && IsInShard(line[i].shard, b) == Some(true))
    && (forall i, j :: 0 <= i < |line| && 0 <= j < |line| && j == i + 1 ==> Linked(headers, b, line[i], line[j]))
  }

  /** Every masterchain block names a block of the line, and the filter finds it. */
  predicate MastersOnLine(masters: seq<seq<BlockId>>, b: Byte, line: seq<BlockId>) {
    forall m :: 0 <= m < |masters| ==> var tip := FilterByShard(masters[m], b); tip.Some? && tip.value in line
  }

  predicate EndsLine(tips: map<Shard, nat>, b: Byte, line: seq<BlockId>, s: Shard) {
    AllDepth8(tips) && Owner(tips, b, s) && line != [] && line[|line| - 1] == Id(s, tips[s])
  }

  predicate Follows(n: Net, b: Byte, line: seq<BlockId>, s: Shard) {
    EndsLine(n.tips, b, line, s) && IsLine(n.headers, b, line) && MastersOnLine(n.masters, b, line)
  }

  /** Of a list of current shards the filter finds the owner of the byte. */
  lemma {:induction false} FilterFindsOwner(n: Net, order: seq<Shard>, b: Byte, s: Shard)
    requires AllDepth8(n.tips) && Owner(n.tips, b, s)
    requires (forall t :: t in order ==> t in n.tips) && s in order
    ensures FilterByShard(TipsOf(n, order), b) == Some(Id(s, n.tips[s]))
    decreases order
  {
    CodeMeans(order[0], b);
    var ids := TipsOf(n, order);
    assert ids[0] == Id(order[0], n.tips[order[0]]);
    if order[0] != s {
      assert ids[1..] == TipsOf(n, order[1..]);
      FilterFindsOwner(n, order[1..], b, s);
    }
  }

  /** A block of another shard leaves the line alone. */
  lemma OtherBlock(headers: map<BlockId, Header>, b: Byte, line: seq<BlockId>, id: BlockId, h: Header)
    requires IsInShard(id.shard, b) != Some(true)
    requires IsLine(headers, b, line)
    ensures IsLine(headers[id := h], b, line)
  {
    forall i | 0 <= i < |line| ensures line[i] != id {
      assert IsInShard(line[i].shard, b) == Some(true);
    }
    forall i, j | 0 <= i < |line| && 0 <= j < |line| && j == i + 1
      ensures Linked(headers[id := h], b, line[i], line[j])
    {
      assert Linked(headers, b, line[i], line[j]);
    }
  }

  lemma LineGrows(headers: map<BlockId, Header>, b: Byte, line: seq<BlockId>, i: nat)
    requires IsLine(headers, b, line) && i < |line|
    ensures line[i].seqno <= line[|line| - 1].seqno
    decreases |line| - i
  {
    if i + 1 < |line| {
      LineGrows(headers, b, line, i + 1);
      assert Linked(headers, b, line[i], line[i + 1]);
    }
  }

  /** A block whose suitable parent ends the line prolongs it. */
  lemma OwnBlock(headers: map<BlockId, Header>, b: Byte, line: seq<BlockId>, id: BlockId, h: Header)
    requires IsLine(headers, b, line) && line != []
    requires FilterByShard(h.parents, b) == Some(line[|line| - 1]) && IsInShard(id.shard, b) == Some(true)
    requires line[|line| - 1].seqno < id.seqno && headers[line[|line| - 1]].genUtime <= h.genUtime
    ensures IsLine(headers[id := h], b, line + [id])
  {
    var headers', line' := headers[id := h], line + [id];
    forall i | 0 <= i < |line| ensures line[i] != id { LineGrows(headers, b, line, i); }
    forall i, j | 0 <= i < |line'| && 0 <= j < |line'| && j == i + 1 ensures Linked(headers', b, line'[i], line'[j]) {
      if j < |line| { assert Linked(headers, b, line[i], line[j]); }
    }
  }

  function Prolonged(line: seq<BlockId>, t: Shard, seqno: nat, b: Byte): seq<BlockId>
    requires Depth8(t)
  {
    if Has(t, b) then line + [Id(t, seqno)] else line
  }

  /** The line after a change: one block longer when the change touches the owner of the byte. */
  function LineAfter(n: Net, c: Change, b: Byte, line: seq<BlockId>): seq<BlockId>
    requires Enabled(n, c)
  {
    match c
    case Extend(s, _) => Prolonged(line, s, n.tips[s] + 1, b)
    case Split(s, _, _) =>
      HalvesFit(s);
      Prolonged(Prolonged(line, Left(s), n.tips[s] + 1, b), Right(s), n.tips[s] + 1, b)
    case Merge(s, _) =>
      HalvesFit(s);
      Prolonged(line, s, Max(n.tips[Left(s)], n.tips[Right(s)]) + 1, b)
    case Master(_) => line
  }

  function HalfOwner(t: Shard, b: Byte, s: Shard): Shard {
    if Has(Left(t), b) then Left(t) else if Has(Right(t), b) then Right(t) else s
  }

  function OwnerAfter(n: Net, c: Change, b: Byte, s: Shard): Shard {
    match c
    case Split(t, _, _) => HalfOwner(t, b, s)
    case Merge(t, _) => if Has(t, b) then t else s
    case _ => s
  }

  /** Of a shard that has the byte the filter must find the end of the line among the parents. */
  predicate Suits(headers: map<BlockId, Header>, b: Byte, line: seq<BlockId>, t: Shard, seqno: nat, h: Header) {
    line != [] && line[|line| - 1] in headers
    && (Has(t, b) ==>
          && FilterByShard(h.parents, b) == Some(line[|line| - 1])
          && line[|line| - 1].seqno < seqno && headers[line[|line| - 1]].genUtime <= h.genUtime)
  }

  lemma AnyBlock(headers: map<BlockId, Header>, b: Byte, line: seq<BlockId>, t: Shard, seqno: nat, h: Header)
    requires Depth8(t) && IsLine(headers, b, line) && Suits(headers, b, line, t, seqno, h)
    ensures IsLine(headers[Id(t, seqno) := h], b, Prolonged(line, t, seqno, b))
  {
    CodeMeans(t, b);
    if Has(t, b) {
      OwnBlock(headers, b, line, Id(t, seqno), h);
    } else {
      OtherBlock(headers, b, line, Id(t, seqno), h);
    }
  }

  lemma Assembled(n: Net, n': Net, tips: map<Shard, nat>, headers: map<BlockId, Header>,
                  b: Byte, line: seq<BlockId>, line': seq<BlockId>, s': Shard)
    requires n' == Net(tips, headers, n.masters)
    requires MastersOnLine(n.masters, b, line) && line <= line'
    requires EndsLine(tips, b, line', s') && IsLine(headers, b, line')
    ensures Follows(n', b, line', s')
  {
  }

  lemma OneParent(t: Shard, seqno: nat, b: Byte)
    requires Depth8(t)
    ensures FilterByShard([Id(t, seqno)], b) == if Has(t, b) then Some(Id(t, seqno)) else None
  {
    CodeMeans(t, b);
  }

  lemma TwoParents(t: Shard, u: Shard, l: nat, r: nat, b: Byte)
    requires Depth8(t) && Depth8(u) && !(Has(t, b) && Has(u, b))
    ensures FilterByShard([Id(t, l), Id(u, r)], b)
         == if Has(t, b) then Some(Id(t, l)) else if Has(u, b) then Some(Id(u, r)) else None
  {
    CodeMeans(t, b);
    OneParent(u, r, b);
    assert [Id(t, l), Id(u, r)][1..] == [Id(u, r)];
  }

  lemma ExtendFollows(n: Net, b: Byte, line: seq<BlockId>, s: Shard, t: Shard, u: int)
    returns (tips: map<Shard, nat>, headers: map<BlockId, Header>)
    requires Follows(n, b, line, s) && Enabled(n, Extend(t, u))
    ensures Next(n, Extend(t, u)) == Net(tips, headers, n.masters)
    ensures EndsLine(tips, b, Prolonged(line, t, n.tips[t] + 1, b), s)
    ensures IsLine(headers, b, Prolonged(line, t, n.tips[t] + 1, b))
  {
    var k := n.tips[t];
    var h := Header([Id(t, k)], u);
    tips, headers := n.tips[t := k + 1], n.headers[Id(t, k + 1) := h];
    ExtendLine(n.headers, b, line, t, k, u);
    ExtendEnds(n.tips, b, line, s, t);
  }

  lemma ExtendLine(headers: map<BlockId, Header>, b: Byte, line: seq<BlockId>, t: Shard, k: nat, u: int)
    requires Depth8(t) && IsLine(headers, b, line) && line != [] && NotBefore(headers, Id(t, k), u)
    requires Has(t, b) ==> line[|line| - 1] == Id(t, k)
    ensures IsLine(headers[Id(t, k + 1) := Header([Id(t, k)], u)], b, Prolonged(line, t, k + 1, b))
  {
    OneParent(t, k, b);
    AnyBlock(headers, b, line, t, k + 1, Header([Id(t, k)], u));
  }

  lemma ExtendEnds(tips: map<Shard, nat>, b: Byte, line: seq<BlockId>, s: Shard, t: Shard)
    requires EndsLine(tips, b, line, s) && t in tips
    ensures EndsLine(tips[t := tips[t] + 1], b, Prolonged(line, t, tips[t] + 1, b), s)
  {
  }

  lemma SplitOwner(tips: map<Shard, nat>, b: Byte, s: Shard, t: Shard, k: nat)
    requires Owner(tips, b, s) && t in tips && t.len < 8
    ensures Owner(SplitTips(tips, t, k), b,
                  HalfOwner(t, b, s))
    ensures Has(t, b) ==> s == t
  {
    HalvesPartition(t, b);
  }

  lemma SplitEnds(tips: map<Shard, nat>, b: Byte, line: seq<BlockId>, s: Shard, t: Shard, k: nat)
    requires EndsLine(tips, b, line, s) && t in tips && t.len < 8 && Depth8(Left(t)) && Depth8(Right(t))
    ensures EndsLine(SplitTips(tips, t, k), b,
                     Prolonged(Prolonged(line, Left(t), k, b), Right(t), k, b),
                     HalfOwner(t, b, s))
  {
    HalvesPartition(t, b);
    SplitOwner(tips, b, s, t, k);
  }

  lemma SplitLine(headers: map<BlockId, Header>, b: Byte, line: seq<BlockId>, t: Shard, k: nat, u: int, v: int)
    requires Depth8(t) && t.len < 8 && Depth8(Left(t)) && Depth8(Right(t))
    requires IsLine(headers, b, line) && line != []
    requires NotBefore(headers, Id(t, k), u) && NotBefore(headers, Id(t, k), v)
    requires Has(t, b) ==> line[|line| - 1] == Id(t, k)
    ensures var hl, hr := Header([Id(t, k)], u), Header([Id(t, k)], v);
      IsLine(SplitHeaders(headers, t, k + 1, hl, hr), b,
             Prolonged(Prolonged(line, Left(t), k + 1, b), Right(t), k + 1, b))
  {
    HalvesPartition(t, b);
    OneParent(t, k, b);
    AnyBlock(headers, b, line, Left(t), k + 1, Header([Id(t, k)], u));
    AnyBlock(headers[Id(Left(t), k + 1) := Header([Id(t, k)], u)], b, Prolonged(line, Left(t), k + 1, b),
             Right(t), k + 1, Header([Id(t, k)], v));
  }

  lemma SplitFollows(n: Net, b: Byte, line: seq<BlockId>, s: Shard, t: Shard, u: int, v: int)
    returns (tips: map<Shard, nat>, headers: map<BlockId, Header>)
    requires Follows(n, b, line, s) && Enabled(n, Split(t, u, v))
    ensures Next(n, Split(t, u, v)) == Net(tips, headers, n.masters)
    ensures EndsLine(tips, b, LineAfter(n, Split(t, u, v), b, line), HalfOwner(t, b, s))
    ensures IsLine(headers, b, LineAfter(n, Split(t, u, v), b, line))
  {
    HalvesFit(t);
    var k := n.tips[t];
    tips, headers := AfterSplit(n, t, k, u, v);
    LineAfterSplit(n, t, k, u, v, b, line);
    OnTheTip(n, b, line, s, t);
    SplitEnds(n.tips, b, line, s, t, k + 1);
    SplitLine(n.headers, b, line, t, k, u, v);
  }

  lemma AfterSplit(n: Net, t: Shard, k: nat, u: int, v: int)
    returns (tips: map<Shard, nat>, headers: map<BlockId, Header>)
    requires Enabled(n, Split(t, u, v)) && k == n.tips[t]
    ensures Depth8(t) && t.len < 8 && Depth8(Left(t)) && Depth8(Right(t))
    ensures NotBefore(n.headers, Id(t, k), u) && NotBefore(n.headers, Id(t, k), v)
    ensures tips == SplitTips(n.tips, t, k + 1)
    ensures headers == SplitHeaders(n.headers, t, k + 1, Header([Id(t, k)], u), Header([Id(t, k)], v))
    ensures Next(n, Split(t, u, v)) == Net(tips, headers, n.masters)
  {
    HalvesFit(t);
    tips := SplitTips(n.tips, t, k + 1);
    headers := SplitHeaders(n.headers, t, k + 1, Header([Id(t, k)], u), Header([Id(t, k)], v));
  }

  lemma LineAfterSplit(n: Net, t: Shard, k: nat, u: int, v: int, b: Byte, line: seq<BlockId>)
    requires Enabled(n, Split(t, u, v)) && k == n.tips[t]
    ensures Depth8(t) && Depth8(Left(t)) && Depth8(Right(t))
    ensures LineAfter(n, Split(t, u, v), b, line) == Prolonged(Prolonged(line, Left(t), k + 1, b), Right(t), k + 1, b)
  {
    HalvesFit(t);
  }

  /** The line ends at the tip of the shard that has the byte. */
  lemma OnTheTip(n: Net, b: Byte, line: seq<BlockId>, s: Shard, t: Shard)
    requires Follows(n, b, line, s) && t in n.tips
    ensures Depth8(t) && line != [] && (Has(t, b) ==> line[|line| - 1] == Id(t, n.tips[t]))
  {
  }

  lemma MergeLine(headers: map<BlockId, Header>, b: Byte, line: seq<BlockId>, t: Shard, l: nat, r: nat, u: int)
    requires Depth8(t) && t.len < 8 && Depth8(Left(t)) && Depth8(Right(t))
    requires IsLine(headers, b, line) && line != []
    requires NotBefore(headers, Id(Left(t), l), u) && NotBefore(headers, Id(Right(t), r), u)
    requires Has(t, b) ==> line[|line| - 1] == if Has(Left(t), b) then Id(Left(t), l) else Id(Right(t), r)
    ensures IsLine(headers[Id(t, Max(l, r) + 1) := Header([Id(Left(t), l), Id(Right(t), r)], u)], b,
                   Prolonged(line, t, Max(l, r) + 1, b))
  {
    HalvesPartition(t, b);
    TwoParents(Left(t), Right(t), l, r, b);
    AnyBlock(headers, b, line, t, Max(l, r) + 1, Header([Id(Left(t), l), Id(Right(t), r)], u));
  }

  lemma MergeEnds(tips: map<Shard, nat>, b: Byte, line: seq<BlockId>, s: Shard, t: Shard, k: nat)
    requires EndsLine(tips, b, line, s) && Left(t) in tips && Right(t) in tips && t.len < 8 && Depth8(t)
    ensures EndsLine(MergeTips(tips, t, k), b, Prolonged(line, t, k, b), if Has(t, b) then t else s)
    ensures Has(t, b) ==> s == if Has(Left(t), b) then Left(t) else Right(t)
  {
    HalvesPartition(t, b);
  }

  lemma MergeFollows(n: Net, b: Byte, line: seq<BlockId>, s: Shard, t: Shard, u: int)
    returns (tips: map<Shard, nat>, headers: map<BlockId, Header>)
    requires Follows(n, b, line, s) && Enabled(n, Merge(t, u))
    ensures Next(n, Merge(t, u)) == Net(tips, headers, n.masters)
    ensures EndsLine(tips, b, LineAfter(n, Merge(t, u), b, line), if Has(t, b) then t else s)
    ensures IsLine(headers, b, LineAfter(n, Merge(t, u), b, line))
  {
    HalvesFit(t);
    HalvesPartition(t, b);
    var l, r := n.tips[Left(t)], n.tips[Right(t)];
    var k, h := Max(l, r) + 1, Header([Id(Left(t), l), Id(Right(t), r)], u);
    tips, headers := MergeTips(n.tips, t, k), n.headers[Id(t, k) := h];
    MergeEnds(n.tips, b, line, s, t, k);
    MergeLine(n.headers, b, line, t, l, r, u);
  }

  lemma MasterFollows(n: Net, b: Byte, line: seq<BlockId>, s: Shard, c: Change)
    requires Follows(n, b, line, s) && Enabled(n, c) && c.Master?
    ensures Follows(Next(n, c), b, line, s)
  {
    FilterFindsOwner(n, c.order, b, s);
  }

  lemma NextFollows(n: Net, b: Byte, line: seq<BlockId>, s: Shard, c: Change)
    requires Follows(n, b, line, s) && Enabled(n, c)
    ensures Follows(Next(n, c), b, LineAfter(n, c, b, line), OwnerAfter(n, c, b, s))
  {
    if c.Master? {
      MasterFollows(n, b, line, s, c);
    } else {
      var tips, headers;
      match c {
        case Extend(t, u) => tips, headers := ExtendFollows(n, b, line, s, t, u);
        case Split(t, u, v) => tips, headers := SplitFollows(n, b, line, s, t, u, v);
        case Merge(t, u) => tips, headers := MergeFollows(n, b, line, s, t, u);
      }
      Assembled(n, Next(n, c), tips, headers, b, line, LineAfter(n, c, b, line), OwnerAfter(n, c, b, s));
    }
  }

  lemma {:induction false} HistoryFollows(n: Net, b: Byte, line: seq<BlockId>, s: Shard, cs: seq<Change>)
    returns (line': seq<BlockId>, s': Shard)
    requires Follows(n, b, line, s) && ValidHistory(n, cs)
    ensures Follows(Evolve(n, cs), b, line', s') && line <= line'
    decreases cs
  {
    if cs == [] {
      line', s' := line, s;
    } else {
      NextFollows(n, b, line, s, cs[0]);
      line', s' := HistoryFollows(Next(n, cs[0]), b, LineAfter(n, cs[0], b, line), OwnerAfter(n, cs[0], b, s), cs[1..]);
    }
  }

  /** In every history of splits and merges down to eight bits, and for every byte, exactly one current shard has the
      byte, and the blocks that had it form one line: the parent chosen across a split or a merge is the
      predecessor that had the byte, and every masterchain block names a block of the line. */
  lemma EveryByteHasItsLine(n: Net, b: Byte) returns (line: seq<BlockId>, s: Shard)
    requires Reachable(n)
    ensures AllDepth8(n.tips) && Owner(n.tips, b, s)
    ensures forall t :: t in n.tips ==> IsInShard(Code(t), b) == Some(t == s)
    ensures line != [] && line[|line| - 1] == Id(s, n.tips[s])
    ensures IsLine(n.headers, b, line) && MastersOnLine(n.masters, b, line)
  {
    var cs :| ValidHistory(GENESIS, cs) && Evolve(GENESIS, cs) == n;
    EveryByte(b);
    CodeMeans(WHOLE, b);
    line, s := HistoryFollows(GENESIS, b, [Id(WHOLE, 0)], WHOLE, cs);
    forall t | t in n.tips ensures IsInShard(Code(t), b) == Some(t == s) { CodeMeans(t, b); }
  }

  // ---------------------------------------------------------------- parents are older

  predicate OlderParents(headers: map<BlockId, Header>) {
    forall id :: id in headers ==> forall p :: p in headers[id].parents ==> p.seqno < id.seqno
  }

  lemma NextKeepsOlder(n: Net, c: Change)
    requires OlderParents(n.headers) && Enabled(n, c)
    ensures OlderParents(Next(n, c).headers)
  {
  }

  lemma {:induction false} HistoryKeepsOlder(n: Net, cs: seq<Change>)
    requires OlderParents(n.headers) && ValidHistory(n, cs)
    ensures OlderParents(Evolve(n, cs).headers)
    decreases cs
  {
    if cs != [] {
      NextKeepsOlder(n, cs[0]);
      HistoryKeepsOlder(Next(n, cs[0]), cs[1..]);
    }
  }

  lemma ParentsAreOlder(n: Net)
    requires Reachable(n)
    ensures OlderParents(n.headers)
  {
    var cs :| ValidHistory(GENESIS, cs) && Evolve(GENESIS, cs) == n;
    HistoryKeepsOlder(GENESIS, cs);
  }
}
