/** The follower of one address byte: it walks back from the tip a masterchain block names to the last block it
    knows, hands the new blocks out oldest first, and resumes after a restart from the last saved block. */
module ShardTracking {
  import opened Types
  import opened ShardPrefix
  import opened ShardChain
  import opened Ledger
  import opened BlockCommit

  datatype ShardBlockHeader = ShardBlockHeader(id: BlockId, parent: BlockId, genUtime: int)

  /** What may cut a walk short: Stop called, or a read timing out, after so many headers. */
  datatype Luck = Undisturbed | StopAfter(headers: nat) | TimeoutAfter(headers: nat)

  function Later(l: Luck): Luck {
    match l
    case Undisturbed => l
    case StopAfter(n) => if n > 0 then StopAfter(n - 1) else l
    case TimeoutAfter(n) => if n > 0 then TimeoutAfter(n - 1) else l
  }

  /** One answer of the node: the masterchain block it calls the newest, stale or not, and what then happens. */
  datatype Poll = Poll(master: nat, luck: Luck)

  datatype Walk = Batch(blocks: seq<ShardBlockHeader>) | WalkExit | WalkFailed

  datatype Answer = Block(header: ShardBlockHeader) | Exit | Failed

  function GetShardBlocksHeader(headers: map<BlockId, Header>, b: Byte, id: BlockId): Option<ShardBlockHeader> {
    if id !in headers then None
    else
      var parent := FilterByShard(headers[id].parents, b);
      if parent.None? then None else Some(ShardBlockHeader(id, parent.value, headers[id].genUtime))
  }

  /** The header of a block of the line after its first. */
  ghost function HeaderOn(headers: map<BlockId, Header>, line: seq<BlockId>, k: nat): ShardBlockHeader
    requires 0 < k < |line|
  {
    ShardBlockHeader(line[k], line[k - 1], if line[k] in headers then headers[line[k]].genUtime else 0)
  }

  /** The blocks of the line after index a up to index z, oldest first. */
  ghost function Segment(headers: map<BlockId, Header>, line: seq<BlockId>, a: nat, z: nat): seq<ShardBlockHeader>
    requires a <= z < |line|
  {
    seq(z - a, i requires 0 <= i < z - a => HeaderOn(headers, line, a + 1 + i))
  }

  /** The same blocks as the walk finds them. */
  ghost function Backwards(s: seq<ShardBlockHeader>): seq<ShardBlockHeader> {
    seq(|s|, i requires 0 <= i < |s| => s[|s| - 1 - i])
  }

  lemma BackwardsTwice(s: seq<ShardBlockHeader>)
    ensures Backwards(Backwards(s)) == s
  {
  }

  lemma SegmentSplits(headers: map<BlockId, Header>, line: seq<BlockId>, a: nat, z: nat)
    requires a < z < |line|
    ensures Segment(headers, line, a, z) == Segment(headers, line, a, z - 1) + [HeaderOn(headers, line, z)]
    ensures Segment(headers, line, a, z) == [HeaderOn(headers, line, a + 1)] + Segment(headers, line, a + 1, z)
    ensures Backwards(Segment(headers, line, a, z))
         == [HeaderOn(headers, line, z)] + Backwards(Segment(headers, line, a, z - 1))
  {
  }

  lemma SegmentsJoin(headers: map<BlockId, Header>, line: seq<BlockId>, a: nat, m: nat, z: nat)
    requires a <= m <= z < |line|
    ensures Segment(headers, line, a, m) + Segment(headers, line, m, z) == Segment(headers, line, a, z)
  {
  }

  /** A reversed batch put behind the buffer prolongs it to the new tip. */
  lemma Prolongs(headers: map<BlockId, Header>, line: seq<BlockId>, a: nat, m: nat, z: nat,
                 batch: seq<ShardBlockHeader>)
    requires a <= m <= z < |line| && batch == Backwards(Segment(headers, line, m, z))
    ensures Segment(headers, line, a, m) + Backwards(batch) == Segment(headers, line, a, z)
    ensures batch != [] ==> batch[0].id == line[z]
    ensures batch == [] ==> m == z
  {
    var s := Segment(headers, line, m, z);
    BackwardsTwice(s);
    SegmentsJoin(headers, line, a, m, z);
    if batch != [] { assert batch[0] == s[z - m - 1] == HeaderOn(headers, line, m + 1 + (z - m - 1)); }
  }

  lemma {:induction false} SeqnoGrows(headers: map<BlockId, Header>, b: Byte, line: seq<BlockId>, i: nat, j: nat)
    requires IsLine(headers, b, line) && i < j < |line|
    ensures line[i].seqno < line[j].seqno && headers[line[i]].genUtime <= headers[line[j]].genUtime
    decreases j
  {
    assert Linked(headers, b, line[j - 1], line[j]);
    if i < j - 1 { SeqnoGrows(headers, b, line, i, j - 1); }
  }

  lemma LineHeader(headers: map<BlockId, Header>, b: Byte, line: seq<BlockId>, k: nat)
    requires IsLine(headers, b, line) && 0 < k < |line|
    ensures GetShardBlocksHeader(headers, b, line[k]) == Some(HeaderOn(headers, line, k))
  {
    assert Linked(headers, b, line[k - 1], line[k]);
  }

  class ShardTracker {
    const b: Byte
    var lastKnown: Option<BlockId>
    var lastMaster: Option<nat>
    var buffer: seq<ShardBlockHeader>
    var gracefulShutdown: bool

    constructor (b: Byte, start: Option<BlockId>)
      ensures this.b == b && lastKnown == start && lastMaster == None && buffer == [] && !gracefulShutdown
    {
      this.b := b;
      lastKnown, lastMaster, buffer, gracefulShutdown := start, None, [], false;
    }

    /** The tracker handed out the line up to index out and buffers it up to index known. */
    ghost predicate At(headers: map<BlockId, Header>, line: seq<BlockId>, out: nat, known: nat)
      reads this
    {
      out <= known < |line| && lastKnown == Some(line[known]) && buffer == Segment(headers, line, out, known)
    }

    ghost predicate Unplaced()
      reads this
    {
      lastKnown.None? && buffer == []
    }

    method Stop()
      modifies this`gracefulShutdown
      ensures gracefulShutdown
    {
      gracefulShutdown := true;
    }

    /** The backward walk: seqno is its measure, and a tip older than the last known block gives nothing. */
    method GetShardBlocksRecursively(net: Net, i: BlockId, batch: seq<ShardBlockHeader>, luck: Luck,
                                     ghost line: seq<BlockId>, ghost at: nat, ghost known: nat) returns (r: Walk)
      requires OlderParents(net.headers) && IsLine(net.headers, b, line)
      requires at < |line| && line[at] == i
      requires lastKnown.Some? ==> known < |line| && lastKnown == Some(line[known])
      requires lastKnown.None? ==> batch == [] && known == at
      modifies this`lastKnown, this`gracefulShutdown
      ensures r.Batch? ==> lastKnown == Some(line[known]) && gracefulShutdown == old(gracefulShutdown)
      ensures r.Batch? && at < known ==> r.blocks == []
      ensures r.Batch? && known <= at ==> r.blocks == batch + Backwards(Segment(net.headers, line, known, at))
      ensures !r.Batch? ==> lastKnown == old(lastKnown)
      ensures r.WalkExit? ==> gracefulShutdown
      ensures r.WalkFailed? ==> luck.TimeoutAfter?
      decreases i.seqno
    {
      if luck == StopAfter(0) { Stop(); }
      if gracefulShutdown { return WalkExit; }
      if lastKnown.None? { lastKnown := Some(i); }
      if known < at { SeqnoGrows(net.headers, b, line, known, at); }
      if at < known { SeqnoGrows(net.headers, b, line, at, known); }
      var isKnown := lastKnown.value.shard == i.shard && lastKnown.value.seqno == i.seqno;
      if isKnown {
        assert Segment(net.headers, line, at, at) == [];
        return Batch(batch);
      }
      if lastKnown.value.seqno > i.seqno { return Batch([]); }
      if luck == TimeoutAfter(0) { return WalkFailed; }
      LineHeader(net.headers, b, line, at);
      var h := GetShardBlocksHeader(net.headers, b, i);
      SegmentSplits(net.headers, line, known, at);
      r := GetShardBlocksRecursively(net, h.value.parent, batch + [h.value], Later(luck), line, at - 1, known);
    }

    method AppendReversed(batch: seq<ShardBlockHeader>)
      modifies this`buffer
      ensures buffer == old(buffer) + Backwards(batch)
    {
      var i := |batch|;
      while i > 0
        invariant 0 <= i <= |batch|
        invariant buffer == old(buffer) + Backwards(batch)[..|batch| - i]
      {
        i := i - 1;
        buffer := buffer + [batch[i]];
      }
    }

    /** One masterchain block: the buffer grows by the blocks between the last known one and the new tip. */
    method LoadShardBlocksBatch(net: Net, master: nat, luck: Luck, ghost line: seq<BlockId>, ghost out: nat,
                                ghost known: nat) returns (r: Answer, ghost out': nat, ghost known': nat, ghost at: nat)
      requires OlderParents(net.headers) && IsLine(net.headers, b, line) && MastersOnLine(net.masters, b, line)
      requires master < |net.masters|
      requires Unplaced() || At(net.headers, line, out, known)
      modifies this`lastKnown, this`gracefulShutdown, this`buffer
      ensures r.Block? ==> At(net.headers, line, out', known')
      ensures r.Block? ==> if old(lastKnown).None? then out' == known' else out' == out
      ensures at < |line| && FilterByShard(net.masters[master], b) == Some(line[at])
      ensures r.Block? && old(lastKnown).Some? ==> known' == if known < at then at else known
      ensures r.Block? && old(lastKnown).None? ==> known' == at
      ensures !r.Block? ==> lastKnown == old(lastKnown) && buffer == old(buffer)
      ensures r.Exit? ==> gracefulShutdown
      ensures r.Failed? ==> luck.TimeoutAfter?
    {
      var tip := FilterByShard(net.masters[master], b);
      at :| at < |line| && line[at] == tip.value;
      out', known' := out, known;
      if lastKnown.None? { out', known' := at, at; }
      var walk := GetShardBlocksRecursively(net, tip.value, [], luck, line, at, known');
      match walk {
        case WalkExit => return Exit, out', known', at;
        case WalkFailed => return Failed, out', known', at;
        case Batch(batch) =>
          if known' <= at { Prolongs(net.headers, line, out', known', at, batch); }
          if |batch| != 0 {
            lastKnown := Some(batch[0].id);
            AppendReversed(batch);
            known' := at;
          }
          r := Block(ShardBlockHeader(tip.value, tip.value, 0));
      }
    }

    /** Waits for a masterchain block other than the last one asked about. */
    method GetNextMasterBlockID(polls: seq<Poll>) returns (p: Option<Poll>, rest: seq<Poll>)
      modifies this`lastMaster
      ensures p.None? ==> forall i :: 0 <= i < |polls| ==> Some(polls[i].master) == old(lastMaster)
      ensures p.Some? ==> exists i :: 0 <= i < |polls| && p.value == polls[i] && rest == polls[i + 1..]
                                      && forall j :: 0 <= j < i ==> Some(polls[j].master) == old(lastMaster)
      ensures p.Some? ==> Some(p.value.master) != old(lastMaster) && lastMaster == Some(p.value.master)
    {
      for i := 0 to |polls|
        invariant lastMaster == old(lastMaster)
        invariant forall j :: 0 <= j < i ==> Some(polls[j].master) == lastMaster
      {
        if Some(polls[i].master) != lastMaster {
          lastMaster := Some(polls[i].master);
          return Some(polls[i]), polls[i + 1..];
        }
      }
      return None, [];
    }

    /** Hands out the block right after the one handed out before. */
    method NextBlock(net: Net, polls: seq<Poll>, ghost line: seq<BlockId>, ghost out: nat, ghost known: nat)
      returns (r: Answer, rest: seq<Poll>, ghost out': nat, ghost known': nat)
      requires OlderParents(net.headers) && IsLine(net.headers, b, line) && MastersOnLine(net.masters, b, line)
      requires forall i :: 0 <= i < |polls| ==> polls[i].master < |net.masters|
      requires Unplaced() || At(net.headers, line, out, known)
      modifies this`lastKnown, this`lastMaster, this`gracefulShutdown, this`buffer
      ensures r.Block? ==> At(net.headers, line, out', known') && out' > 0
      ensures r.Block? ==> r.header == HeaderOn(net.headers, line, out')
      ensures r.Block? && old(lastKnown).Some? ==> out' == out + 1
      ensures forall i :: 0 <= i < |rest| ==> rest[i].master < |net.masters|
      ensures r.Exit? ==> gracefulShutdown
      ensures old(gracefulShutdown) ==> r.Exit?
      decreases |polls|
    {
      out', known', rest := out, known, polls;
      if gracefulShutdown { return Exit, rest, out', known'; }
      if |buffer| != 0 {
        var h := buffer[0];
        SegmentSplits(net.headers, line, out, known);
        buffer := buffer[1..];
        return Block(h), rest, out + 1, known;
      }
      var p;
      p, rest := GetNextMasterBlockID(polls);
      if p.None? { return Failed, [], out', known'; }
      var loaded;
      ghost var at;
      loaded, out', known', at := LoadShardBlocksBatch(net, p.value.master, p.value.luck, line, out, known);
      if !loaded.Block? { return loaded, rest, out', known'; }
      r, rest, out', known' := NextBlock(net, rest, line, out', known');
    }
  }

  // ---------------------------------------------------------------- the scanner over restarts

  function RowOf(h: ShardBlockHeader): BlockRow { BlockRow(h.id.shard, h.id.seqno, h.genUtime) }

  /** The saved blocks are the blocks of the line from index first on, each once and in order. */
  ghost predicate SavedFrom(rows: seq<BlockRow>, headers: map<BlockId, Header>, line: seq<BlockId>, first: nat)
  {
    && 0 < first && first + |rows| <= |line|
    && forall i :: 0 <= i < |rows| ==> rows[i] == RowOf(HeaderOn(headers, line, first + i))
  }

  lemma {:induction false} StatementsKeepBlocks(t: Tables, es: seq<DbEvent>)
    ensures ApplyAll(t, es).Ok? ==> ApplyAll(t, es).value.blocks == t.blocks
    decreases es
  {
    if es != [] && Apply(t, es[0]).Ok? { StatementsKeepBlocks(Apply(t, es[0]).value, es[1..]); }
  }

  lemma CommitAppends(t: Tables, e: Events, row: BlockRow)
    ensures Commit(t, e, row).Ok? ==> Commit(t, e, row).value.blocks == t.blocks + [row]
  {
    StatementsKeepBlocks(t, e.Ops());
  }

  lemma {:induction false} LastSavedIsLast(rows: seq<BlockRow>, headers: map<BlockId, Header>, b: Byte,
                                           line: seq<BlockId>, first: nat)
    requires IsLine(headers, b, line) && SavedFrom(rows, headers, line, first) && rows != []
    ensures LastBlock(rows) == Some(RowOf(HeaderOn(headers, line, first + |rows| - 1)))
  {
    var front := rows[..|rows| - 1];
    if front != [] {
      LastSavedIsLast(front, headers, b, line, first);
      SeqnoGrows(headers, b, line, first + |front| - 1, first + |front|);
    }
  }

  function StartBlock(rows: seq<BlockRow>): Option<BlockId> {
    var last := LastBlock(rows);
    if last.Some? && last.value.shard < 0x1_0000_0000_0000_0000 then Some(BlockId(last.value.shard, last.value.seqno))
    else None
  }

  /** Before each commit: the tracker handed out exactly what is saved. */
  ghost predicate InStep(rows: seq<BlockRow>, tracker: ShardTracker, headers: map<BlockId, Header>,
                         line: seq<BlockId>, first: nat, known: nat)
    reads tracker
  {
    if rows == [] then tracker.Unplaced()
    else SavedFrom(rows, headers, line, first) && tracker.At(headers, line, first + |rows| - 1, known)
  }

  /** A tracker started at the newest saved block is in step. */
  lemma Resumes(rows: seq<BlockRow>, tracker: ShardTracker, headers: map<BlockId, Header>, line: seq<BlockId>,
                first: nat)
    requires IsLine(headers, tracker.b, line) && (rows == [] || SavedFrom(rows, headers, line, first))
    requires tracker.lastKnown == StartBlock(rows) && tracker.buffer == []
    ensures InStep(rows, tracker, headers, line, first, if rows == [] then 0 else first + |rows| - 1)
  {
    if rows != [] {
      LastSavedIsLast(rows, headers, tracker.b, line, first);
      var k := first + |rows| - 1;
      assert Segment(headers, line, k, k) == [];
    }
  }

  lemma SavesNext(rows: seq<BlockRow>, headers: map<BlockId, Header>, line: seq<BlockId>, first: nat, out: nat)
    requires 0 < out < |line|
    requires rows == [] || (SavedFrom(rows, headers, line, first) && out == first + |rows|)
    ensures SavedFrom(rows + [RowOf(HeaderOn(headers, line, out))], headers, line, if rows == [] then out else first)
  {
  }

  // ---------------------------------------------------------------- what the saved blocks did to the tables

  /** What parsing a block gives in one life of the service; None where it stops the scanner. */
  type Reader = BlockId -> Option<Events>

  /** A saved block with the events it was committed with. */
  datatype Saved = Saved(id: BlockId, events: Events)

  predicate AllIn(saved: seq<Saved>, headers: map<BlockId, Header>) {
    forall i :: 0 <= i < |saved| ==> saved[i].id in headers
  }

  /** The commits of these blocks one after the other, each with its own events and its own header. */
  function Replay(t: Tables, headers: map<BlockId, Header>, saved: seq<Saved>): Result<Tables>
    requires AllIn(saved, headers)
  {
    if saved == [] then Ok(t)
    else
      var last := saved[|saved| - 1];
      var t' :- Replay(t, headers, saved[..|saved| - 1]);
      Commit(t', last.events, BlockRow(last.id.shard, last.id.seqno, headers[last.id].genUtime))
  }

  lemma ReplayNext(t: Tables, headers: map<BlockId, Header>, saved: seq<Saved>, t': Tables, x: Saved, t'': Tables)
    requires AllIn(saved, headers) && x.id in headers && Replay(t, headers, saved) == Ok(t')
    requires Commit(t', x.events, BlockRow(x.id.shard, x.id.seqno, headers[x.id].genUtime)) == Ok(t'')
    ensures AllIn(saved + [x], headers) && Replay(t, headers, saved + [x]) == Ok(t'')
  {
    assert (saved + [x])[..|saved|] == saved;
  }

  lemma {:induction false} ReplayInTwoParts(t: Tables, headers: map<BlockId, Header>, a: seq<Saved>, t': Tables,
                                            b: seq<Saved>, t'': Tables)
    requires AllIn(a, headers) && AllIn(b, headers)
    requires Replay(t, headers, a) == Ok(t') && Replay(t', headers, b) == Ok(t'')
    ensures AllIn(a + b, headers) && Replay(t, headers, a + b) == Ok(t'')
    decreases b
  {
    if b == [] {
      assert a + b == a;
    } else {
      var front, last := b[..|b| - 1], b[|b| - 1];
      var t1 := Replay(t', headers, front).value;
      ReplayInTwoParts(t, headers, a, t', front, t1);
      ReplayNext(t, headers, a + front, t1, last, t'');
      assert a + b == a + front + [last];
    }
  }

  function IncomesOf(saved: seq<Saved>): multiset<Income> {
    if saved == [] then multiset{}
    else IncomesOf(saved[..|saved| - 1]) + multiset(saved[|saved| - 1].events.extIncomes)
  }

  /** Every external income of every saved block is in the table, once for each time a block tells it. */
  lemma {:induction false} EveryIncomeOnce(t: Tables, headers: map<BlockId, Header>, saved: seq<Saved>)
    requires AllIn(saved, headers) && Replay(t, headers, saved).Ok?
    ensures Replay(t, headers, saved).value.extIncomes == t.extIncomes + IncomesOf(saved)
    decreases saved
  {
    if saved != [] {
      var last := saved[|saved| - 1];
      EveryIncomeOnce(t, headers, saved[..|saved| - 1]);
      var t' := Replay(t, headers, saved[..|saved| - 1]).value;
      CommitAddsIncomes(t', last.events, BlockRow(last.id.shard, last.id.seqno, headers[last.id].genUtime));
    }
  }

  lemma CommitAddsIncomes(t: Tables, e: Events, row: BlockRow)
    requires Commit(t, e, row).Ok?
    ensures Commit(t, e, row).value.extIncomes == t.extIncomes + multiset(e.extIncomes)
  {
    ApplyAllInOrder(t, e);
    IncomesKeepTables(t, e.extIncomes);
    var t1 := ApplyAll(t, ExtIncomeOps(e.extIncomes)).value;
    var t2 := ApplyAll(t1, IntIncomeOps(e.intIncomes)).value;
    OthersKeepIncomes(t1, IntIncomeOps(e.intIncomes));
    var t3 := ApplyAll(t2, SendingOps(e.sendings)).value;
    OthersKeepIncomes(t2, SendingOps(e.sendings));
    var t4 := ApplyAll(t3, InternalOps(e.internals)).value;
    OthersKeepIncomes(t3, InternalOps(e.internals));
    var t5 := ApplyAll(t4, ExternalOps(e.externals)).value;
    OthersKeepIncomes(t4, ExternalOps(e.externals));
    OthersKeepIncomes(t5, ConfirmationOps(e.confirmations));
  }

  lemma {:induction false} OthersKeepIncomes(t: Tables, es: seq<DbEvent>)
    requires forall i :: 0 <= i < |es| ==> !es[i].OfExtIncome?
    requires ApplyAll(t, es).Ok?
    ensures ApplyAll(t, es).value.extIncomes == t.extIncomes
    decreases es
  {
    if es != [] { OthersKeepIncomes(Apply(t, es[0]).value, es[1..]); }
  }

  /** What the replay leaves in block_data: the header of each block, in this order. */
  lemma {:induction false} ReplayRows(t: Tables, headers: map<BlockId, Header>, saved: seq<Saved>)
    requires AllIn(saved, headers) && Replay(t, headers, saved).Ok?
    ensures Replay(t, headers, saved).value.blocks == t.blocks + Rows(headers, saved)
    decreases saved
  {
    if saved != [] {
      var front, last := saved[..|saved| - 1], saved[|saved| - 1];
      ReplayRows(t, headers, front);
      var row := BlockRow(last.id.shard, last.id.seqno, headers[last.id].genUtime);
      CommitAppends(Replay(t, headers, front).value, last.events, row);
      assert Rows(headers, saved) == Rows(headers, front) + [row];
      assert t.blocks + Rows(headers, front) + [row] == t.blocks + Rows(headers, saved);
    }
  }

  function Rows(headers: map<BlockId, Header>, saved: seq<Saved>): seq<BlockRow>
    requires AllIn(saved, headers)
  {
    seq(|saved|, i requires 0 <= i < |saved| =>
      BlockRow(saved[i].id.shard, saved[i].id.seqno, headers[saved[i].id].genUtime))
  }

  /** Parses the block and commits it with its header. */
  method ProcessBlock(db: Connection, h: ShardBlockHeader, read: Reader) returns (ok: bool)
    modifies db
    ensures !ok ==> db.View() == old(db.View())
    ensures ok ==> db.blocks == old(db.blocks) + [RowOf(h)] && read(h.id).Some?
    ensures ok ==> Commit(old(db.View()), read(h.id).value, RowOf(h)) == Ok(db.View())
  {
    var events := read(h.id);
    if events.None? { return false; }
    CommitAppends(db.View(), events.value, RowOf(h));
    var err := db.SaveParsedBlockData(events.value, RowOf(h));
    ok := err.None?;
  }

  /** The next block, parsed and committed in one transaction with its own header, or nothing. */
  method ScanBlock(db: Connection, tracker: ShardTracker, net: Net, polls: seq<Poll>, read: Reader,
                   ghost line: seq<BlockId>, ghost first: nat, ghost known: nat)
    returns (ok: bool, rest: seq<Poll>, ghost first': nat, ghost known': nat, ghost id: BlockId)
    requires OlderParents(net.headers) && IsLine(net.headers, tracker.b, line)
    requires MastersOnLine(net.masters, tracker.b, line)
    requires forall i :: 0 <= i < |polls| ==> polls[i].master < |net.masters|
    requires InStep(db.blocks, tracker, net.headers, line, first, known)
    modifies db, tracker
    ensures ok ==> InStep(db.blocks, tracker, net.headers, line, first', known')
    ensures !ok ==> db.View() == old(db.View())
    ensures ok ==> id in net.headers && read(id).Some?
    ensures ok ==>
      var row := BlockRow(id.shard, id.seqno, net.headers[id].genUtime);
      db.blocks == old(db.blocks) + [row] && Commit(old(db.View()), read(id).value, row) == Ok(db.View())
    ensures old(db.blocks) != [] ==> first' == first
    ensures forall i :: 0 <= i < |rest| ==> rest[i].master < |net.masters|
  {
    first', known', ok := first, known, false;
    ghost var rows, out: nat := db.blocks, if db.blocks == [] then 0 else first + |db.blocks| - 1;
    var answer;
    answer, rest, out, known' := tracker.NextBlock(net, polls, line, out, known);
    id := if answer.Block? then answer.header.id else BlockId(0, 0);
    if answer.Block? {
      SavesNext(rows, net.headers, line, first, out);
      ok := ProcessBlock(db, answer.header, read);
      if ok && |db.blocks| == 1 { first' := out; }
    }
  }

  /** Each block with what this reader gives for it. */
  predicate ReadAs(read: Reader, saved: seq<Saved>) {
    forall i :: 0 <= i < |saved| ==> read(saved[i].id) == Some(saved[i].events)
  }

  lemma OneMoreSaved(t: Tables, headers: map<BlockId, Header>, read: Reader, saved: seq<Saved>, t': Tables,
                     id: BlockId, t'': Tables)
    requires ReadAs(read, saved) && AllIn(saved, headers) && id in headers && read(id).Some?
    requires Replay(t, headers, saved) == Ok(t')
    requires Commit(t', read(id).value, BlockRow(id.shard, id.seqno, headers[id].genUtime)) == Ok(t'')
    ensures var saved' := saved + [Saved(id, read(id).value)];
      ReadAs(read, saved') && AllIn(saved', headers) && Replay(t, headers, saved') == Ok(t'')
  {
    ReplayNext(t, headers, saved, t', Saved(id, read(id).value), t'');
  }

  /** One life of the service: resume from the newest saved block, then parse and commit block after block until a
      stop, a timeout, a block that does not parse, a rejected commit or a crash between two commits. */
  method ScanBlocks(db: Connection, b: Byte, net: Net, life: Life, ghost line: seq<BlockId>, ghost first: nat)
    returns (ghost first': nat, ghost saved: seq<Saved>)
    requires OlderParents(net.headers) && IsLine(net.headers, b, line) && MastersOnLine(net.masters, b, line)
    requires PollsOk(net, life)
    requires db.blocks == [] || SavedFrom(db.blocks, net.headers, line, first)
    modifies db
    ensures db.blocks == [] || SavedFrom(db.blocks, net.headers, line, first')
    ensures ReadAs(life.read, saved) && AllIn(saved, net.headers)
    ensures Replay(old(db.View()), net.headers, saved) == Ok(db.View())
    ensures db.blocks == old(db.blocks) + Rows(net.headers, saved)
  {
    var tracker := new ShardTracker(b, StartBlock(db.blocks));
    Resumes(db.blocks, tracker, net.headers, line, first);
    first', saved := first, [];
    ghost var known: nat := if db.blocks == [] then 0 else first + |db.blocks| - 1;
    var left, ok := life.polls, true;
    for i := 0 to life.rounds
      invariant fresh(tracker) && tracker.b == b
      invariant forall j :: 0 <= j < |left| ==> left[j].master < |net.masters|
      invariant ok ==> InStep(db.blocks, tracker, net.headers, line, first', known)
      invariant db.blocks == [] || SavedFrom(db.blocks, net.headers, line, first')
      invariant ReadAs(life.read, saved) && AllIn(saved, net.headers)
      invariant Replay(old(db.View()), net.headers, saved) == Ok(db.View())
    {
      ghost var before, id := db.View(), BlockId(0, 0);
      ghost var first0 := first';
      ok, left, first', known, id := ScanBlock(db, tracker, net, left, life.read, line, first', known);
      if !ok {
        first' := first0;
        break;
      }
      OneMoreSaved(old(db.View()), net.headers, life.read, saved, before, id, db.View());
      saved := saved + [Saved(id, life.read(id).value)];
    }
    ReplayRows(old(db.View()), net.headers, saved);
  }

  /** One life: the answers of the node, what parsing gives, and how many blocks it lives to see. */
  datatype Life = Life(polls: seq<Poll>, read: Reader, rounds: nat)

  predicate IdIn(headers: map<BlockId, Header>, r: BlockRow) {
    r.shard < 0x1_0000_0000_0000_0000 && BlockId(r.shard, r.seqno) in headers
  }

  /** The saved blocks as anyone can check them: each is a block of a shard with the byte, has the time of its header,
      and its suitable parent is the block saved before it. */
  predicate Contiguous(rows: seq<BlockRow>, headers: map<BlockId, Header>, b: Byte) {
    && (forall i :: 0 <= i < |rows| ==>
          && IdIn(headers, rows[i]) && IsInShard(rows[i].shard, b) == Some(true)
          && rows[i].genUtime == headers[BlockId(rows[i].shard, rows[i].seqno)].genUtime)
    && (forall i, j :: 0 <= i < |rows| && 0 <= j < |rows| && j == i + 1 ==>
          && FilterByShard(headers[BlockId(rows[j].shard, rows[j].seqno)].parents, b)
               == Some(BlockId(rows[i].shard, rows[i].seqno)))
    && (forall i, j :: 0 <= i < j < |rows| ==> rows[i].seqno < rows[j].seqno && rows[i].genUtime <= rows[j].genUtime)
  }

  lemma SavedIsContiguous(rows: seq<BlockRow>, headers: map<BlockId, Header>, b: Byte, line: seq<BlockId>, first: nat)
    requires IsLine(headers, b, line) && SavedFrom(rows, headers, line, first)
    ensures Contiguous(rows, headers, b)
  {
    forall i, j | 0 <= i < |rows| && 0 <= j < |rows| && j == i + 1
      ensures FilterByShard(headers[BlockId(rows[j].shard, rows[j].seqno)].parents, b)
           == Some(BlockId(rows[i].shard, rows[i].seqno))
    {
      assert Linked(headers, b, line[first + i], line[first + j]);
    }
    forall i, j | 0 <= i < j < |rows| ensures rows[i].seqno < rows[j].seqno && rows[i].genUtime <= rows[j].genUtime {
      SeqnoGrows(headers, b, line, first + i, first + j);
    }
  }

  /** Some life read this block so. */
  predicate ReadBySome(lives: seq<Life>, x: Saved) {
    exists k :: 0 <= k < |lives| && lives[k].read(x.id) == Some(x.events)
  }

  predicate AllRead(lives: seq<Life>, saved: seq<Saved>) {
    forall i :: 0 <= i < |saved| ==> ReadBySome(lives, saved[i])
  }

  lemma LifeReads(lives: seq<Life>, k: nat, saved: seq<Saved>, more: seq<Saved>)
    requires k < |lives| && AllRead(lives, saved) && ReadAs(lives[k].read, more)
    ensures AllRead(lives, saved + more)
  {
    forall i | 0 <= i < |saved + more| ensures ReadBySome(lives, (saved + more)[i]) {
      if i >= |saved| { assert lives[k].read(more[i - |saved|].id) == Some(more[i - |saved|].events); }
    }
  }

  method NextLife(db: Connection, b: Byte, net: Net, lives: seq<Life>, k: nat, ghost line: seq<BlockId>,
                  ghost first: nat, ghost t: Tables, ghost saved: seq<Saved>)
    returns (ghost first': nat, ghost saved': seq<Saved>)
    requires OlderParents(net.headers) && IsLine(net.headers, b, line) && MastersOnLine(net.masters, b, line)
    requires k < |lives| && PollsOk(net, lives[k])
    requires db.blocks == [] || SavedFrom(db.blocks, net.headers, line, first)
    requires AllRead(lives, saved) && AllIn(saved, net.headers)
    requires Replay(t, net.headers, saved) == Ok(db.View())
    modifies db
    ensures db.blocks == [] || SavedFrom(db.blocks, net.headers, line, first')
    ensures AllRead(lives, saved') && AllIn(saved', net.headers)
    ensures Replay(t, net.headers, saved') == Ok(db.View())
  {
    ghost var before, more := db.View(), [];
    first', more := ScanBlocks(db, b, net, lives[k], line, first);
    LifeReads(lives, k, saved, more);
    ReplayInTwoParts(t, net.headers, saved, before, more, db.View());
    saved' := saved + more;
  }

  /** Over any number of lives, with stale or advancing tips, stops, timeouts, crashes, blocks that do not parse and
      rejected commits, and through any splits and merges: the saved blocks are a contiguous parent-linked segment,
      each saved once, and the tables are what their events, each block's own, make of them in that order. */
  method RunService(db: Connection, b: Byte, net: Net, lives: seq<Life>) returns (ghost saved: seq<Saved>)
    requires Reachable(net) && db.blocks == []
    requires forall i :: 0 <= i < |lives| ==> PollsOk(net, lives[i])
    modifies db
    ensures Contiguous(db.blocks, net.headers, b)
    ensures AllRead(lives, saved) && AllIn(saved, net.headers) && db.blocks == Rows(net.headers, saved)
    ensures Replay(old(db.View()), net.headers, saved) == Ok(db.View())
    ensures db.extIncomes == old(db.extIncomes) + IncomesOf(saved)
  {
    ghost var line, s := EveryByteHasItsLine(net, b);
    ParentsAreOlder(net);
    ghost var first := 0;
    saved := [];
    for i := 0 to |lives|
      invariant db.blocks == [] || SavedFrom(db.blocks, net.headers, line, first)
      invariant AllRead(lives, saved) && AllIn(saved, net.headers)
      invariant Replay(old(db.View()), net.headers, saved) == Ok(db.View())
    {
      assert PollsOk(net, lives[i]);
      first, saved := NextLife(db, b, net, lives, i, line, first, old(db.View()), saved);
    }
    if db.blocks != [] { SavedIsContiguous(db.blocks, net.headers, b, line, first); }
    ReplayRows(old(db.View()), net.headers, saved);
    EveryIncomeOnce(old(db.View()), net.headers, saved);
  }

  predicate PollsOk(net: Net, life: Life) {
    forall i :: 0 <= i < |life.polls| ==> life.polls[i].master < |net.masters|
  }
}
