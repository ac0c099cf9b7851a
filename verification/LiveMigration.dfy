/**
 Multi-stage live migration of a running request
 (llumnix/llumlet/migration_coordinator.py:90-177) with the block pre-allocation
 of the destination scheduler (llumnix/backends/vllm/scheduler.py:41-56, 115-128,
 165-240).

 The source keeps decoding while earlier blocks are copied. What both engines do at
 each await of each stage is an argument, the script. `RunStage` and `RunStages`
 give the outcome as a function of the two sides and the script, the classes perform
 it in place, and the theorems hold for every script.
 */
module LiveMigration {
  import opened Prelude
  import opened KvMemory

  type RequestId = string
  type Content = seq<int>

  datatype Status = Continue | AbortedDst | AbortedSrc | Finished

  datatype Settings = Settings(blockSize: nat, watermark: nat, slidingWindow: Option<nat>, lastStageMaxBlocks: nat)

  type Config = c: Settings | c.blockSize > 0 witness Settings(1, 0, None, 1)

  /** The number of blocks that hold this many tokens. */
  function Blocks(tokens: nat, blockSize: nat): (n: nat)
    requires blockSize > 0
    ensures n == 0 <==> tokens == 0
  {
    if tokens == 0 then 0 else if tokens <= blockSize then 1 else 1 + Blocks(tokens - blockSize, blockSize)
  }

  lemma {:induction false} BlocksAfterFullOnes(full: nat, tokens: nat, blockSize: nat)
    requires blockSize > 0
    ensures Blocks(full * blockSize + tokens, blockSize) == full + Blocks(tokens, blockSize)
  {
    if full == 0 {
    } else {
      BlocksAfterFullOnes(full - 1, tokens, blockSize);
      assert full * blockSize + tokens == (full - 1) * blockSize + tokens + blockSize;
      if (full - 1) * blockSize + tokens == 0 {
      } else {
        assert full * blockSize + tokens > blockSize by {
          assert full * blockSize == (full - 1) * blockSize + blockSize;
        }
      }
    }
  }

  /** A table that reaches beyond `full` blocks has more than `full` blocks' worth of tokens. */
  lemma {:induction false} TokensBeyond(full: nat, tokens: nat, blockSize: nat)
    requires blockSize > 0 && full < Blocks(tokens, blockSize)
    ensures full * blockSize < tokens
    ensures Blocks(tokens - full * blockSize, blockSize) == Blocks(tokens, blockSize) - full
  {
    if full == 0 {
    } else {
      TokensBeyond(full - 1, tokens - blockSize, blockSize);
      assert full * blockSize == (full - 1) * blockSize + blockSize;
    }
  }

  datatype BlockTable = BlockTable(ids: seq<int>, tokens: nat)

  /** Every block of the table is full. */
  ghost predicate Full(table: BlockTable, blockSize: nat) {
    table.tokens == |table.ids| * blockSize
  }

  /** Python's `ids[-n:]`. */
  function Tail(ids: seq<int>, n: nat): seq<int> {
    if n == 0 || n >= |ids| then ids else ids[|ids| - n..]
  }

  predicate Apart(a: seq<int>, b: seq<int>) {
    forall i, j :: 0 <= i < |a| && 0 <= j < |b| ==> a[i] != b[j]
  }

  ghost predicate Image(src: Memory<Content>, from: seq<int>, dst: Memory<Content>, to: seq<int>) {
    && |from| == |to| && Distinct(to) && Has(src, from) && Has(dst, to)
    && forall i :: 0 <= i < |from| ==> dst[to[i]] == src[from[i]]
  }

  // ------------------------------------------------------------------
  // The two sides and what happens to them at an await

  /** The migrating request at the source; `sent` are the block counts of the stages so far. */
  datatype SourceView = SourceView(
    table: seq<int>, tokens: nat, mem: Memory<Content>, sent: seq<int>,
    running: bool, finished: bool, preempted: bool, blocking: bool)

  datatype DestView = DestView(preAlloc: map<RequestId, BlockTable>, free: seq<int>, mem: Memory<Content>)

  /**
   The request ends, or is preempted and perhaps resumed, gains blocks up to so many
   tokens, and memory is written.
   */
  datatype SourceMove = SourceMove(ends: bool, loses: bool, resumes: bool, more: seq<int>, tokens: nat,
                                   written: Memory<Content>, blocking: bool)

  /** Other requests allocate, free and write. */
  datatype DestMove = DestMove(free: seq<int>, written: Memory<Content>, others: map<RequestId, BlockTable>)

  predicate Doomed(v: SourceView) {
    v.finished || v.preempted
  }

  /** A running request may rewrite only its last block so far; a stopped one keeps all its blocks. */
  function Kept(table: seq<int>, running: bool): set<int> {
    set i | 0 <= i < |table| && (i < |table| - 1 || !running) :: table[i]
  }

  function SourceAfter(cfg: Config, v: SourceView, m: SourceMove): SourceView {
    var lost := v.running && m.loses;
    var running := v.running && (!m.loses || m.resumes);
    var table, tokens := if lost then [] else v.table, if lost then 0 else v.tokens;
    var mem := v.mem + (m.written - Kept(table, running));
    var grows :=
      && running && Distinct(table + m.more) && Has(mem, m.more)
      && Blocks(m.tokens, cfg.blockSize) == |table + m.more|;
    SourceView(if grows then table + m.more else table, if grows then m.tokens else tokens, mem, v.sent,
               running, v.finished || m.ends, v.preempted || lost, if running then m.blocking else v.blocking)
  }

  function Mine(d: DestView, rid: RequestId): seq<int> {
    if rid in d.preAlloc then d.preAlloc[rid].ids else []
  }

  function DestAfter(d: DestView, rid: RequestId, m: DestMove): DestView {
    var mine := Mine(d, rid);
    var mem := d.mem + (m.written - (set id <- mine));
    DestView(if rid in d.preAlloc then m.others[rid := d.preAlloc[rid]] else m.others - {rid},
             if Distinct(m.free) && Has(mem, m.free) && Apart(mine, m.free) then m.free else d.free,
             mem)
  }

  ghost predicate ValidSource(cfg: Config, v: SourceView) {
    Distinct(v.table) && Has(v.mem, v.table) && |v.table| == Blocks(v.tokens, cfg.blockSize)
  }

  ghost predicate ValidDest(d: DestView, rid: RequestId) {
    && Distinct(d.free) && Has(d.mem, d.free)
    && (rid in d.preAlloc ==>
          Distinct(d.preAlloc[rid].ids) && Has(d.mem, d.preAlloc[rid].ids) && Apart(d.preAlloc[rid].ids, d.free))
  }

  ghost predicate Unwritten(before: Memory<Content>, after: Memory<Content>, ids: seq<int>) {
    Has(before, ids) && Has(after, ids) && forall i :: 0 <= i < |ids| ==> after[ids[i]] == before[ids[i]]
  }

  /** A request that stays alive keeps its table and everything but its last block; a stopped one keeps all. */
  ghost predicate SourceWent(cfg: Config, v: SourceView, w: SourceView) {
    && ValidSource(cfg, w) && w.sent == v.sent
    && (!Doomed(w) ==> !Doomed(v) && w.running == v.running && v.table <= w.table)
    && (!Doomed(w) ==> Unwritten(v.mem, w.mem, v.table[..|v.table| - Min(1, |v.table|)]))
    && (!Doomed(w) && !w.running ==> w.table == v.table && Unwritten(v.mem, w.mem, v.table))
  }

  /** The blocks set aside for the request stay as they are. */
  ghost predicate DestWent(d: DestView, e: DestView, rid: RequestId) {
    && ValidDest(e, rid) && Lookup(e.preAlloc, rid) == Lookup(d.preAlloc, rid)
    && (rid in d.preAlloc ==> Unwritten(d.mem, e.mem, d.preAlloc[rid].ids))
  }

  lemma SourceGoesOn(cfg: Config, v: SourceView, m: SourceMove)
    requires ValidSource(cfg, v)
    ensures SourceWent(cfg, v, SourceAfter(cfg, v, m))
  {
    var w := SourceAfter(cfg, v, m);
    if !Doomed(w) {
      var early := v.table[..|v.table| - Min(1, |v.table|)];
      assert forall i :: 0 <= i < |early| ==> early[i] == v.table[i] && v.table[i] in Kept(v.table, v.running);
      assert !v.running ==> forall i :: 0 <= i < |v.table| ==> v.table[i] in Kept(v.table, v.running);
    }
  }

  /**
   What a move can do to a request that keeps running: any block but its earlier ones
   is written, and it gains blocks up to so many tokens when these are new and fit.
   */
  lemma SourceMoveMeaning(cfg: Config, v: SourceView, m: SourceMove, b: int)
    requires v.running && !m.loses
    ensures var w := SourceAfter(cfg, v, m);
            && w.running && w.finished == (v.finished || m.ends) && w.preempted == v.preempted
            && w.blocking == m.blocking
            && (b in m.written && b !in v.table[..|v.table| - Min(1, |v.table|)] ==>
                Lookup(w.mem, b) == Some(m.written[b]))
            && (m.more != [] && Distinct(v.table + m.more) && Has(w.mem, m.more)
                && Blocks(m.tokens, cfg.blockSize) == |v.table + m.more| ==>
                  w.table == v.table + m.more && w.tokens == m.tokens)
  {
    var early := v.table[..|v.table| - Min(1, |v.table|)];
    if b in Kept(v.table, true) {
      var i :| 0 <= i < |v.table| && i < |v.table| - 1 && v.table[i] == b;
      assert early[i] == b;
    }
  }

  /** Preempted, it loses its table; resumed as well, it runs again and the preemption is remembered. */
  lemma PreemptionMeaning(cfg: Config, v: SourceView, m: SourceMove)
    requires v.running && m.loses
    ensures var w := SourceAfter(cfg, v, m);
            w.preempted && w.running == m.resumes && (m.more == [] ==> w.table == [])
  {
  }

  /** Other requests may write every block of the destination but those set aside, and allocate and free the others. */
  lemma DestMoveMeaning(d: DestView, rid: RequestId, m: DestMove, b: int)
    ensures var e := DestAfter(d, rid, m);
            && (b in m.written && b !in Mine(d, rid) ==> Lookup(e.mem, b) == Some(m.written[b]))
            && (Distinct(m.free) && Has(e.mem, m.free) && Apart(Mine(d, rid), m.free) ==> e.free == m.free)
  {
  }

  lemma DestGoesOn(d: DestView, rid: RequestId, m: DestMove)
    requires ValidDest(d, rid)
    ensures DestWent(d, DestAfter(d, rid, m), rid)
  {
  }

  // ------------------------------------------------------------------
  // Pre-allocation

  function Take(free: seq<int>, n: int): seq<int> {
    if 0 <= n <= |free| then free[..n] else free
  }

  /** A new table if the watermark allows it, an empty one otherwise. */
  function NewTable(cfg: Config, free: seq<int>, numRequired: nat, tokens: nat): BlockTable {
    if |free| - numRequired >= cfg.watermark then BlockTable(Take(free, Blocks(tokens, cfg.blockSize)), tokens)
    else BlockTable([], 0)
  }

  /** An existing table with more tokens, if so many blocks are free, and as it was otherwise. */
  function GrownTable(cfg: Config, free: seq<int>, table: BlockTable, blockNum: nat, tokens: nat): BlockTable {
    if |free| >= blockNum then
      var more := Blocks(table.tokens + tokens, cfg.blockSize) - Blocks(table.tokens, cfg.blockSize);
      BlockTable(table.ids + Take(free, more), table.tokens + tokens)
    else table
  }

  function TableFor(cfg: Config, d: DestView, rid: RequestId, blockNum: nat, tokens: nat): BlockTable {
    if rid in d.preAlloc then GrownTable(cfg, d.free, d.preAlloc[rid], blockNum, tokens)
    else NewTable(cfg, d.free, blockNum, tokens)
  }

  /** The stored table and the reply, which is the table's tail whether or not the table grew. */
  function PreAlloc(cfg: Config, d: DestView, rid: RequestId, blockNum: nat, tokens: nat): (DestView, seq<int>) {
    var table := TableFor(cfg, d, rid, blockNum, tokens);
    (Stored(d, rid, table), Reply(cfg, table, blockNum))
  }

  function Stored(d: DestView, rid: RequestId, table: BlockTable): DestView {
    d.(preAlloc := d.preAlloc[rid := table], free := From(d.free, |table.ids| - |Mine(d, rid)|))
  }

  function Reply(cfg: Config, table: BlockTable, blockNum: nat): seq<int> {
    if cfg.slidingWindow == Some(|table.ids|) then [] else Tail(table.ids, blockNum)
  }

  /** Python's `s[n:]` for non-negative n. */
  function From(s: seq<int>, n: int): seq<int> {
    if 0 <= n <= |s| then s[n..] else []
  }

  function FreePreAlloc(d: DestView, rid: RequestId): DestView {
    if rid in d.preAlloc then d.(free := d.free + d.preAlloc[rid].ids, preAlloc := d.preAlloc - {rid}) else d
  }

  /** Pre-allocation; a reply of the wrong length gives everything back. */
  function MigrateInPreAlloc(cfg: Config, d: DestView, rid: RequestId, blockNum: nat,
                             tokens: nat): (DestView, seq<int>) {
    var (e, ids) := PreAlloc(cfg, d, rid, blockNum, tokens);
    (if |ids| != blockNum then FreePreAlloc(e, rid) else e, ids)
  }

  /** Blocks that move from the free list to a table stay distinct from all others. */
  lemma TakenStayApart(mem: Memory<Content>, mine: seq<int>, taken: seq<int>, rest: seq<int>)
    requires Distinct(mine) && Has(mem, mine)
    requires Distinct(taken + rest) && Has(mem, taken + rest) && Apart(mine, taken + rest)
    ensures Distinct(mine + taken) && Has(mem, mine + taken)
    ensures Distinct(rest) && Has(mem, rest) && Apart(mine + taken, rest)
  {
    var all := taken + rest;
    assert forall i :: 0 <= i < |taken| ==> all[i] == taken[i];
    assert forall i :: 0 <= i < |rest| ==> all[|taken| + i] == rest[i];
  }

  lemma {:induction false} CopyKeepsKeys(src: Memory<Content>, from: seq<int>, dst: Memory<Content>, to: seq<int>)
    requires |from| == |to| && Has(src, from)
    ensures dst.Keys <= Copy(src, from, dst, to).Keys
  {
    if from == [] {
    } else {
      CopyKeepsKeys(src, from[..|from| - 1], dst, to[..|to| - 1]);
    }
  }

  lemma ImageGrows(src: Memory<Content>, from: seq<int>, dst: Memory<Content>, to: seq<int>, more: seq<int>,
                   added: seq<int>)
    requires |more| == |added| && Has(src, more) && Distinct(to + added)
    requires Image(src, from, dst, to)
    ensures Image(src, from + more, Copy(src, more, dst, added), to + added)
  {
    DistinctParts(to, added);
    CopyMeaning(src, more, dst, added);
    var after := Copy(src, more, dst, added);
    forall i | 0 <= i < |from + more|
      ensures (to + added)[i] in after && after[(to + added)[i]] == src[(from + more)[i]]
    {
      if i < |to| {
        assert Lookup(after, to[i]) == Lookup(dst, to[i]);
      } else {
        assert after[added[i - |to|]] == src[more[i - |to|]];
      }
    }
  }

  lemma DistinctParts(a: seq<int>, b: seq<int>)
    requires Distinct(a + b)
    ensures Distinct(a) && Distinct(b)
    ensures forall i :: 0 <= i < |a| ==> a[i] !in b
  {
    assert forall i :: 0 <= i < |a| ==> a[i] == (a + b)[i];
    assert forall i :: 0 <= i < |b| ==> b[i] == (a + b)[|a| + i];
  }

  /**
   When the destination's table fails to grow, a reply of the right length consists
   of blocks that already hold earlier ones. Writing there keeps the earlier image
   exactly when the new contents happen to equal the ones overwritten.
   */
  lemma SkippedReservationOverwrites(src: Memory<Content>, from: seq<int>, dst: Memory<Content>, to: seq<int>,
                                     more: seq<int>)
    requires Image(src, from, dst, to) && Has(src, more) && 0 < |more| <= |to|
    ensures |Tail(to, |more|)| == |more|
    ensures Image(src, from, Copy(src, more, dst, Tail(to, |more|)), to) <==>
              SameContents(src, more, from[|from| - |more|..])
  {
    var after := Copy(src, more, dst, Tail(to, |more|));
    var k := |to| - |more|;
    forall i | 0 <= i < |to|
      ensures to[i] in after && after[to[i]] == src[(from[..k] + more)[i]]
    {
      TailOverwritten(src, from, dst, to, more, i);
    }
    assert from == from[..k] + from[k..];
    assert Has(src, from[..k] + more);
    ImageComparison(src, from[..k], from[k..], more, after, to);
  }

  ghost predicate SameContents(src: Memory<Content>, a: seq<int>, b: seq<int>) {
    |a| == |b| && Has(src, a) && Has(src, b) && forall i :: 0 <= i < |a| ==> src[a[i]] == src[b[i]]
  }

  lemma ImageComparison(src: Memory<Content>, first: seq<int>, last: seq<int>, more: seq<int>, after: Memory<Content>,
                        to: seq<int>)
    requires |last| == |more| && |to| == |first + last| && Distinct(to) && Has(src, first + last)
    requires Has(src, more) && Has(src, first + more)
    requires forall i :: 0 <= i < |to| ==> to[i] in after && after[to[i]] == src[(first + more)[i]]
    ensures Image(src, first + last, after, to) <==> SameContents(src, more, last)
  {
    assert forall i :: 0 <= i < |last| ==>
             (first + last)[|first| + i] == last[i] && (first + more)[|first| + i] == more[i];
    if Image(src, first + last, after, to) {
      forall i | 0 <= i < |last|
        ensures src[more[i]] == src[last[i]]
      {
        assert after[to[|first| + i]] == src[(first + last)[|first| + i]];
      }
    }
  }

  lemma TailOverwritten(src: Memory<Content>, from: seq<int>, dst: Memory<Content>, to: seq<int>, more: seq<int>,
                        i: nat)
    requires Image(src, from, dst, to) && Has(src, more) && 0 < |more| <= |to| && i < |to|
    ensures |Tail(to, |more|)| == |more| && to[i] in Copy(src, more, dst, Tail(to, |more|))
    ensures Copy(src, more, dst, Tail(to, |more|))[to[i]] ==
            if i < |to| - |more| then src[from[i]] else src[more[i - (|to| - |more|)]]
  {
    var room := Tail(to, |more|);
    var k := |to| - |more|;
    assert forall j :: 0 <= j < |more| ==> room[j] == to[k + j];
    CopyMeaning(src, more, dst, room);
    if i < k {
      assert to[i] !in room;
      assert Lookup(Copy(src, more, dst, room), to[i]) == Lookup(dst, to[i]);
    } else {
      assert to[i] == room[i - k];
    }
  }

  lemma PrefixImageGrows(src: Memory<Content>, table: seq<int>, sent: nat, blocks: seq<int>,
                         dst: Memory<Content>, ids: seq<int>, room: seq<int>)
    requires sent + |blocks| <= |table| && blocks == table[sent..sent + |blocks|]
    requires |ids| == sent + |blocks| && room == ids[sent..]
    requires Has(src, blocks) && Distinct(ids)
    requires sent > 0 ==> Image(src, table[..sent], dst, ids[..sent])
    ensures Image(src, table[..sent + |blocks|], Copy(src, blocks, dst, room), ids)
  {
    assert ids == ids[..sent] + room;
    assert table[..sent + |blocks|] == table[..sent] + blocks;
    if sent == 0 {
      assert Image(src, table[..0], dst, ids[..0]);
    }
    ImageGrows(src, table[..sent], dst, ids[..sent], blocks, room);
  }

  /** How many tokens fill the blocks of an early stage. */
  lemma EarlyStageTokens(tokens: nat, sent: nat, blocks: nat, blockSize: nat)
    requires blockSize > 0 && sent + blocks < Blocks(tokens, blockSize)
    ensures sent * blockSize < tokens
    ensures Min(tokens - sent * blockSize, blocks * blockSize) == blocks * blockSize
    ensures Blocks(blocks * blockSize, blockSize) == blocks
  {
    TokensBeyond(sent, tokens, blockSize);
    TokensBeyond(blocks, tokens - sent * blockSize, blockSize);
    BlocksAfterFullOnes(blocks, 0, blockSize);
  }

  /** Pre-allocation when the tokens need exactly the blocks asked for and an existing table is full. */
  lemma PreAllocGrants(cfg: Config, d: DestView, rid: RequestId, blockNum: nat, tokens: nat)
    requires ValidDest(d, rid) && blockNum > 0 && Blocks(tokens, cfg.blockSize) == blockNum
    requires rid in d.preAlloc ==> Full(d.preAlloc[rid], cfg.blockSize)
    ensures var (e, ids) := PreAlloc(cfg, d, rid, blockNum, tokens);
            && ValidDest(e, rid) && rid in e.preAlloc && e.mem == d.mem
            && Mine(e, rid) + e.free == Mine(d, rid) + d.free
            && (|ids| == blockNum ==>
                e.preAlloc[rid] == Granted(d, rid, ids, tokens) && |e.preAlloc[rid].ids| >= blockNum)
            && (|ids| == blockNum ==> ids == e.preAlloc[rid].ids[|e.preAlloc[rid].ids| - blockNum..])
  {
    TableShape(cfg, d, rid, blockNum, tokens);
    ShapeGrants(cfg, d, rid, TableFor(cfg, d, rid, blockNum, tokens), blockNum, tokens);
    ReplyShape(d, rid, TableFor(cfg, d, rid, blockNum, tokens), blockNum, tokens);
  }

  lemma ShapeGrants(cfg: Config, d: DestView, rid: RequestId, table: BlockTable, blockNum: nat, tokens: nat)
    requires ValidDest(d, rid) && blockNum > 0 && Shaped(d, rid, table, blockNum, tokens)
    ensures ValidDest(Stored(d, rid, table), rid) && table.ids + Stored(d, rid, table).free == Mine(d, rid) + d.free
  {
    var had := Mine(d, rid);
    if table.ids == had {
      assert d.free[..0] == [] && d.free[0..] == d.free;
      TakingIsValid(d, rid, table, 0);
    } else {
      assert d.free[..blockNum] + d.free[blockNum..] == d.free;
      TakingIsValid(d, rid, table, blockNum);
    }
  }

  /** Blocks taken from the front of the free list are lost to nobody and shared with nobody. */
  lemma TakingIsValid(d: DestView, rid: RequestId, table: BlockTable, k: nat)
    requires ValidDest(d, rid) && k <= |d.free| && table.ids == Mine(d, rid) + d.free[..k]
    ensures var e := d.(preAlloc := d.preAlloc[rid := table], free := d.free[k..]);
            ValidDest(e, rid) && Mine(e, rid) + e.free == Mine(d, rid) + d.free
  {
    assert d.free == d.free[..k] + d.free[k..];
    TakenStayApart(d.mem, Mine(d, rid), d.free[..k], d.free[k..]);
  }

  /** The table keeps what it had and takes exactly the blocks asked for from the front of the free list, or none. */
  lemma TableShape(cfg: Config, d: DestView, rid: RequestId, blockNum: nat, tokens: nat)
    requires blockNum > 0 && Blocks(tokens, cfg.blockSize) == blockNum
    requires rid in d.preAlloc ==> Full(d.preAlloc[rid], cfg.blockSize)
    ensures Shaped(d, rid, TableFor(cfg, d, rid, blockNum, tokens), blockNum, tokens)
  {
    if rid in d.preAlloc {
      BlocksAfterFullOnes(|Mine(d, rid)|, tokens, cfg.blockSize);
      BlocksAfterFullOnes(|Mine(d, rid)|, 0, cfg.blockSize);
    }
  }

  ghost predicate Shaped(d: DestView, rid: RequestId, table: BlockTable, blockNum: nat, tokens: nat) {
    var had := if rid in d.preAlloc then d.preAlloc[rid] else BlockTable([], 0);
    || (blockNum <= |d.free| && table == BlockTable(had.ids + d.free[..blockNum], had.tokens + tokens))
    || ((rid in d.preAlloc ==> |d.free| < blockNum) && table == had)
  }

  lemma ReplyShape(d: DestView, rid: RequestId, table: BlockTable, blockNum: nat, tokens: nat)
    requires blockNum > 0 && Shaped(d, rid, table, blockNum, tokens)
    ensures var ids := Tail(table.ids, blockNum);
            |ids| == blockNum ==>
              && table == Granted(d, rid, ids, tokens)
              && |table.ids| >= blockNum && ids == table.ids[|table.ids| - blockNum..]
  {
  }

  /** The table behind a reply of the right length: new, grown by the reply, or unchanged. */
  ghost function Granted(d: DestView, rid: RequestId, ids: seq<int>, tokens: nat): BlockTable {
    if rid !in d.preAlloc then BlockTable(ids, tokens)
    else if |d.free| >= |ids| then BlockTable(d.preAlloc[rid].ids + ids, d.preAlloc[rid].tokens + tokens)
    else d.preAlloc[rid]
  }

  lemma FreeingIsValid(d: DestView, rid: RequestId)
    requires ValidDest(d, rid) && rid in d.preAlloc
    ensures ValidDest(FreePreAlloc(d, rid), rid) && rid !in FreePreAlloc(d, rid).preAlloc
  {
  }

  ghost predicate Grants(d: DestView, e: DestView, rid: RequestId, ids: seq<int>, blockNum: nat, tokens: nat) {
    && ValidDest(e, rid) && e.mem == d.mem && (rid in e.preAlloc <==> |ids| == blockNum)
    && (|ids| == blockNum ==> e.preAlloc[rid] == Granted(d, rid, ids, tokens) && |e.preAlloc[rid].ids| >= blockNum)
    && (|ids| == blockNum ==> ids == e.preAlloc[rid].ids[|e.preAlloc[rid].ids| - blockNum..])
  }

  /** Every block given back is free again, and no other. */
  lemma FreeingGivesBack(d: DestView, rid: RequestId)
    ensures multiset(FreePreAlloc(d, rid).free) == multiset(Mine(d, rid) + d.free)
    ensures rid !in FreePreAlloc(d, rid).preAlloc && FreePreAlloc(d, rid).mem == d.mem
    ensures forall other :: other != rid ==> Lookup(FreePreAlloc(d, rid).preAlloc, other) == Lookup(d.preAlloc, other)
  {
    assert Mine(d, rid) + d.free == if rid in d.preAlloc then d.preAlloc[rid].ids + d.free else d.free;
  }

  /**
   A refusal leaves no pre-allocation and gives every block back; a reply of the right
   length is the tail of the granted table. Either way the request's blocks and the free
   list together are what they were, and nobody else's blocks are touched.
   */
  lemma MigrateInGrants(cfg: Config, d: DestView, rid: RequestId, blockNum: nat, tokens: nat)
    requires ValidDest(d, rid) && blockNum > 0 && Blocks(tokens, cfg.blockSize) == blockNum
    requires rid in d.preAlloc ==> Full(d.preAlloc[rid], cfg.blockSize)
    ensures var (e, ids) := MigrateInPreAlloc(cfg, d, rid, blockNum, tokens);
            && Grants(d, e, rid, ids, blockNum, tokens)
            && SameBlocks(d, e, rid)
            && (|ids| != blockNum ==> multiset(e.free) == multiset(Mine(d, rid) + d.free))
  {
    ReplyGrants(cfg, d, rid, blockNum, tokens);
    BlocksAreKept(cfg, d, rid, blockNum, tokens);
  }

  lemma ReplyGrants(cfg: Config, d: DestView, rid: RequestId, blockNum: nat, tokens: nat)
    requires ValidDest(d, rid) && blockNum > 0 && Blocks(tokens, cfg.blockSize) == blockNum
    requires rid in d.preAlloc ==> Full(d.preAlloc[rid], cfg.blockSize)
    ensures var (e, ids) := MigrateInPreAlloc(cfg, d, rid, blockNum, tokens);
            Grants(d, e, rid, ids, blockNum, tokens)
  {
    PreAllocGrants(cfg, d, rid, blockNum, tokens);
    FreeingIsValid(PreAlloc(cfg, d, rid, blockNum, tokens).0, rid);
  }

  /** The request's blocks and the free list together are the same before and after. */
  ghost predicate SameBlocks(d: DestView, e: DestView, rid: RequestId) {
    && multiset(Mine(e, rid) + e.free) == multiset(Mine(d, rid) + d.free)
    && forall other :: other != rid ==> Lookup(e.preAlloc, other) == Lookup(d.preAlloc, other)
  }

  lemma BlocksAreKept(cfg: Config, d: DestView, rid: RequestId, blockNum: nat, tokens: nat)
    requires ValidDest(d, rid) && blockNum > 0 && Blocks(tokens, cfg.blockSize) == blockNum
    requires rid in d.preAlloc ==> Full(d.preAlloc[rid], cfg.blockSize)
    ensures var (e, ids) := MigrateInPreAlloc(cfg, d, rid, blockNum, tokens);
            && SameBlocks(d, e, rid)
            && (|ids| != blockNum ==> multiset(e.free) == multiset(Mine(d, rid) + d.free))
  {
    TableShape(cfg, d, rid, blockNum, tokens);
    StoringKeepsBlocks(cfg, d, rid, TableFor(cfg, d, rid, blockNum, tokens), blockNum, tokens);
    FreeingKeepsBlocks(d, Stored(d, rid, TableFor(cfg, d, rid, blockNum, tokens)), rid);
  }

  lemma StoringKeepsBlocks(cfg: Config, d: DestView, rid: RequestId, table: BlockTable, blockNum: nat, tokens: nat)
    requires ValidDest(d, rid) && blockNum > 0 && Shaped(d, rid, table, blockNum, tokens)
    ensures SameBlocks(d, Stored(d, rid, table), rid)
  {
    ShapeGrants(cfg, d, rid, table, blockNum, tokens);
    assert Mine(Stored(d, rid, table), rid) == table.ids;
  }

  lemma FreeingKeepsBlocks(d: DestView, e: DestView, rid: RequestId)
    requires SameBlocks(d, e, rid)
    ensures SameBlocks(d, FreePreAlloc(e, rid), rid)
    ensures multiset(FreePreAlloc(e, rid).free) == multiset(Mine(d, rid) + d.free)
  {
    FreeingGivesBack(e, rid);
    var f := FreePreAlloc(e, rid);
    assert Mine(f, rid) + f.free == f.free;
  }

  /**
   When the reply has as many blocks as were asked for: a new table needs them beyond
   the watermark, an existing one needs them free or is itself at least as long; and
   the resulting table must not be exactly as long as the sliding window.
   */
  lemma ReplyExactly(cfg: Config, d: DestView, rid: RequestId, n: nat, tokens: nat)
    requires n > 0 && Blocks(tokens, cfg.blockSize) == n
    requires rid in d.preAlloc ==> Full(d.preAlloc[rid], cfg.blockSize)
    ensures var had := |Mine(d, rid)|;
            |MigrateInPreAlloc(cfg, d, rid, n, tokens).1| == n <==>
              if rid !in d.preAlloc then |d.free| - n >= cfg.watermark && cfg.slidingWindow != Some(n)
              else if |d.free| >= n then cfg.slidingWindow != Some(had + n)
              else had >= n && cfg.slidingWindow != Some(had)
  {
    TableShape(cfg, d, rid, n, tokens);
    if rid !in d.preAlloc {
      assert TableFor(cfg, d, rid, n, tokens).ids == if |d.free| - n >= cfg.watermark then d.free[..n] else [];
    }
  }

  // ------------------------------------------------------------------
  // One stage

  /** What happens at the awaits of one stage, on both sides. */
  datatype Stage = Stage(
    stopping: SourceMove,       // until the engine step is done, last stage only
    arriving: DestMove,         // until the destination reserves
    allocating: SourceMove,     // until its reply is back
    replying: DestMove,
    sending: SourceMove,        // until the blocks are sent
    receiving: DestMove)

  datatype StageResult = StageResult(status: Status, src: SourceView, dst: DestView, moved: seq<int>)

  /** The blocks not yet sent, as the stage reads them. */
  function Unsent(v: SourceView): seq<int> {
    From(v.table, Sum(v.sent))
  }

  predicate IsLastStage(cfg: Config, v: SourceView) {
    |Unsent(v)| <= cfg.lastStageMaxBlocks || v.blocking
  }

  /** All of them in the last stage, otherwise all but the last one. */
  function StageBlocks(cfg: Config, v: SourceView): seq<int> {
    if IsLastStage(cfg, v) then Unsent(v) else Unsent(v)[..|Unsent(v)| - 1]
  }

  function StageTokens(cfg: Config, v: SourceView): nat {
    var unsent := v.tokens - Sum(v.sent) * cfg.blockSize;
    var tokens: nat := if unsent < 0 then 0 else unsent;
    if IsLastStage(cfg, v) then tokens else Min(tokens, |StageBlocks(cfg, v)| * cfg.blockSize)
  }

  /** The source when the destination is asked: stopped if this is the last stage. */
  function Asking(cfg: Config, v: SourceView, stage: Stage): SourceView {
    if IsLastStage(cfg, v) then SourceAfter(cfg, v, stage.stopping).(running := false) else v
  }

  /** The request was not running any more when it should be stopped, or is finished. */
  predicate Gone(cfg: Config, v: SourceView, stage: Stage) {
    var stopped := SourceAfter(cfg, v, stage.stopping);
    IsLastStage(cfg, v) && (!stopped.running || stopped.finished)
  }

  function Transfer(src: Memory<Content>, from: seq<int>, dst: Memory<Content>, to: seq<int>): Memory<Content> {
    if |from| == |to| && Has(src, from) then Copy(src, from, dst, to) else dst
  }

  function RunStage(cfg: Config, v: SourceView, d: DestView, rid: RequestId, stage: Stage): StageResult {
    if Doomed(v) then StageResult(AbortedSrc, v, d, [])
    else if Gone(cfg, v, stage) then StageResult(AbortedSrc, Asking(cfg, v, stage), d, [])
    else Ask(cfg, Asking(cfg, v, stage), d, rid, stage, IsLastStage(cfg, v), StageBlocks(cfg, v), StageTokens(cfg, v))
  }

  /** The table has been read: ask for room, and go on when the reply is back. */
  function Ask(cfg: Config, a: SourceView, d: DestView, rid: RequestId, stage: Stage, isLast: bool,
               blocks: seq<int>, tokens: nat): StageResult {
    AskAt(cfg, a, DestAfter(d, rid, stage.arriving), rid, stage, isLast, blocks, tokens)
  }

  /** The destination's answer. */
  function AskAt(cfg: Config, a: SourceView, d: DestView, rid: RequestId, stage: Stage, isLast: bool,
                 blocks: seq<int>, tokens: nat): StageResult {
    var (e, room) := MigrateInPreAlloc(cfg, d, rid, |blocks|, tokens);
    Deliver(cfg, SourceAfter(cfg, a, stage.allocating), DestAfter(e, rid, stage.replying), rid, stage, isLast, blocks,
            room)
  }

  /** Once the reply is back: give up, or send. */
  function Deliver(cfg: Config, w: SourceView, e: DestView, rid: RequestId, stage: Stage, isLast: bool,
                   blocks: seq<int>, room: seq<int>): StageResult {
    if |room| != |blocks| then StageResult(AbortedDst, if isLast then w.(running := true) else w, e, [])
    else if Doomed(w) then StageResult(AbortedSrc, w, e, [])
    else
      var x, f := w.(sent := w.sent + [|blocks|]), e.(mem := Transfer(w.mem, blocks, e.mem, room));
      Sent(SourceAfter(cfg, x, stage.sending), DestAfter(f, rid, stage.receiving), isLast, blocks)
  }

  function Sent(y: SourceView, g: DestView, isLast: bool, blocks: seq<int>): StageResult {
    StageResult(if isLast then Finished else if Doomed(y) then AbortedSrc else Continue, y, g, blocks)
  }

  /** By how many blocks the destination's table fails to grow when it is asked for n. */
  function Short(d: DestView, rid: RequestId, stage: Stage, n: nat): nat {
    if rid in d.preAlloc && |DestAfter(d, rid, stage.arriving).free| < n then n else 0
  }

  // ------------------------------------------------------------------
  // What a stage keeps

  /** What the destination has set aside after `sent` blocks, `skipped` of them without new room. */
  ghost predicate Held(cfg: Config, v: SourceView, d: DestView, rid: RequestId, sent: nat, skipped: nat) {
    && ValidSource(cfg, v) && ValidDest(d, rid)
    && sent <= |v.table|
    && (sent == 0 ==> rid !in d.preAlloc && skipped == 0)
    && (sent > 0 ==> rid in d.preAlloc && |d.preAlloc[rid].ids| + skipped == sent)
    && (sent > 0 && skipped == 0 ==> Image(v.mem, v.table[..sent], d.mem, d.preAlloc[rid].ids))
  }

  /** Between two stages at least one block has not been sent, and only full blocks have. */
  ghost predicate BetweenStages(cfg: Config, v: SourceView, d: DestView, rid: RequestId, sent: nat, skipped: nat) {
    && Held(cfg, v, d, rid, sent, skipped)
    && Sum(v.sent) == sent < |v.table|
    && v.running && !Doomed(v)
    && (rid in d.preAlloc ==> Full(d.preAlloc[rid], cfg.blockSize))
  }

  /** These blocks of the table are next, and room for them is reserved `short` blocks short. */
  ghost predicate RoomFor(cfg: Config, v: SourceView, d: DestView, rid: RequestId, sent: nat, skipped: nat,
                          blocks: seq<int>, room: seq<int>, short: nat) {
    && ValidSource(cfg, v) && ValidDest(d, rid)
    && |room| == |blocks| > 0
    && sent + |blocks| <= |v.table| && blocks == v.table[sent..sent + |blocks|]
    && rid in d.preAlloc
    && |d.preAlloc[rid].ids| + skipped + short == sent + |blocks|
    && |room| <= |d.preAlloc[rid].ids|
    && room == d.preAlloc[rid].ids[|d.preAlloc[rid].ids| - |room|..]
    && (sent > 0 && skipped + short == 0 ==> Image(v.mem, v.table[..sent], d.mem, d.preAlloc[rid].ids[..sent]))
  }

  /** An image of unwritten blocks in untouched room stays one. */
  lemma ImageStays(src: Memory<Content>, from: seq<int>, dst: Memory<Content>, to: seq<int>,
                   srcAfter: Memory<Content>, dstAfter: Memory<Content>)
    requires Image(src, from, dst, to) && Unwritten(src, srcAfter, from) && Unwritten(dst, dstAfter, to)
    ensures Image(srcAfter, from, dstAfter, to)
  {
  }

  lemma UnwrittenPart(before: Memory<Content>, after: Memory<Content>, ids: seq<int>, n: nat)
    requires Unwritten(before, after, ids) && n <= |ids|
    ensures Unwritten(before, after, ids[..n])
  {
  }

  /** The first n blocks of the table, if they do not include the last block of a running request. */
  lemma PrefixStays(cfg: Config, v: SourceView, w: SourceView, n: nat)
    requires SourceWent(cfg, v, w) && !Doomed(w) && n <= |v.table| && (!v.running || n < |v.table|)
    ensures n <= |w.table| && w.table[..n] == v.table[..n] && Unwritten(v.mem, w.mem, v.table[..n])
  {
    if v.running {
      var early := v.table[..|v.table| - 1];
      UnwrittenPart(v.mem, w.mem, early, n);
      assert early[..n] == v.table[..n];
    } else {
      UnwrittenPart(v.mem, w.mem, v.table, n);
    }
  }

  lemma HeldStays(cfg: Config, v: SourceView, d: DestView, w: SourceView, e: DestView, rid: RequestId, sent: nat,
                  skipped: nat)
    requires Held(cfg, v, d, rid, sent, skipped) && (!v.running || sent < |v.table|)
    requires SourceWent(cfg, v, w) && DestWent(d, e, rid) && !Doomed(w)
    ensures Held(cfg, w, e, rid, sent, skipped)
  {
    PrefixStays(cfg, v, w, sent);
    if sent > 0 && skipped == 0 {
      ImageStays(v.mem, v.table[..sent], d.mem, d.preAlloc[rid].ids, w.mem, e.mem);
    }
  }

  lemma RoomStays(cfg: Config, v: SourceView, d: DestView, w: SourceView, e: DestView, rid: RequestId, sent: nat,
                  skipped: nat,
                  blocks: seq<int>, room: seq<int>, short: nat)
    requires RoomFor(cfg, v, d, rid, sent, skipped, blocks, room, short)
    requires !v.running || sent + |blocks| < |v.table|
    requires SourceWent(cfg, v, w) && DestWent(d, e, rid) && !Doomed(w)
    ensures RoomFor(cfg, w, e, rid, sent, skipped, blocks, room, short)
  {
    var n := sent + |blocks|;
    PrefixStays(cfg, v, w, n);
    PrefixStays(cfg, v, w, sent);
    assert w.table[sent..n] == w.table[..n][sent..] == v.table[..n][sent..] == v.table[sent..n];
    if sent > 0 && skipped + short == 0 {
      UnwrittenPart(d.mem, e.mem, d.preAlloc[rid].ids, sent);
      ImageStays(v.mem, v.table[..sent], d.mem, d.preAlloc[rid].ids[..sent], w.mem, e.mem);
    }
  }

  lemma SendKeeps(cfg: Config, w: SourceView, e: DestView, rid: RequestId, sent: nat, skipped: nat,
                  blocks: seq<int>, room: seq<int>, short: nat)
    requires RoomFor(cfg, w, e, rid, sent, skipped, blocks, room, short)
    requires Sum(w.sent) == sent && (sent == 0 ==> skipped + short == 0)
    ensures var x, f := w.(sent := w.sent + [|blocks|]), e.(mem := Transfer(w.mem, blocks, e.mem, room));
            Held(cfg, x, f, rid, sent + |blocks|, skipped + short) && Sum(x.sent) == sent + |blocks|
  {
    SumAppend(w.sent, |blocks|);
    var ids := e.preAlloc[rid].ids;
    assert Has(w.mem, blocks);
    CopyKeepsKeys(w.mem, blocks, e.mem, room);
    if skipped + short == 0 {
      PrefixImageGrows(w.mem, w.table, sent, blocks, e.mem, ids, room);
    }
  }

  /** The request as the stage asks for room: which blocks come next, and what is certain about them. */
  ghost predicate StageRead(cfg: Config, a: SourceView, d: DestView, rid: RequestId, sent: nat, skipped: nat,
                            isLast: bool, blocks: seq<int>, tokens: nat) {
    && Held(cfg, a, d, rid, sent, skipped) && !Doomed(a) && Sum(a.sent) == sent
    && (rid in d.preAlloc ==> Full(d.preAlloc[rid], cfg.blockSize))
    && blocks != [] && Blocks(tokens, cfg.blockSize) == |blocks|
    && sent + |blocks| <= |a.table| && blocks == a.table[sent..sent + |blocks|]
    && a.running != isLast
    && (!isLast ==> sent + |blocks| < |a.table| && tokens == |blocks| * cfg.blockSize)
  }

  /** A stage takes the next blocks; the last one all that were there when the table was read. */
  lemma ReadKeeps(cfg: Config, v: SourceView, d: DestView, rid: RequestId, stage: Stage, sent: nat, skipped: nat)
    requires cfg.lastStageMaxBlocks >= 1 && BetweenStages(cfg, v, d, rid, sent, skipped)
    requires !Gone(cfg, v, stage) && !Doomed(Asking(cfg, v, stage))
    ensures StageRead(cfg, Asking(cfg, v, stage), d, rid, sent, skipped, IsLastStage(cfg, v),
                      StageBlocks(cfg, v), StageTokens(cfg, v))
    ensures v.table <= Asking(cfg, v, stage).table
    ensures StageBlocks(cfg, v) <= v.table[sent..] && (IsLastStage(cfg, v) ==> StageBlocks(cfg, v) == v.table[sent..])
  {
    TokensBeyond(sent, v.tokens, cfg.blockSize);
    var blocks, a := StageBlocks(cfg, v), Asking(cfg, v, stage);
    if IsLastStage(cfg, v) {
      SourceGoesOn(cfg, v, stage.stopping);
      StoppedKeeps(cfg, v, d, SourceAfter(cfg, v, stage.stopping), rid, sent, skipped);
      assert a.table[sent..sent + |blocks|] == a.table[..|v.table|][sent..];
    } else {
      EarlyStageTokens(v.tokens, sent, |blocks|, cfg.blockSize);
    }
  }

  lemma StoppedKeeps(cfg: Config, v: SourceView, d: DestView, w: SourceView, rid: RequestId, sent: nat, skipped: nat)
    requires BetweenStages(cfg, v, d, rid, sent, skipped) && SourceWent(cfg, v, w) && !Doomed(w)
    ensures Held(cfg, w.(running := false), d, rid, sent, skipped) && Sum(w.sent) == sent && v.table <= w.table
  {
    HeldStays(cfg, v, d, w, d, rid, sent, skipped);
  }

  /** Room for the blocks of a stage, if the reply has the right length. */
  lemma ReserveKeeps(cfg: Config, a: SourceView, d: DestView, e: DestView, rid: RequestId, sent: nat, skipped: nat,
                     blocks: seq<int>, room: seq<int>, tokens: nat)
    requires Held(cfg, a, d, rid, sent, skipped) && Grants(d, e, rid, room, |blocks|, tokens)
    requires |room| == |blocks| > 0 && sent + |blocks| <= |a.table| && blocks == a.table[sent..sent + |blocks|]
    requires rid in d.preAlloc ==> Full(d.preAlloc[rid], cfg.blockSize)
    ensures var short := if rid in d.preAlloc && |d.free| < |blocks| then |blocks| else 0;
            RoomFor(cfg, a, e, rid, sent, skipped, blocks, room, short)
    ensures tokens == |blocks| * cfg.blockSize ==> Full(e.preAlloc[rid], cfg.blockSize)
  {
    if rid in d.preAlloc && |d.free| >= |blocks| {
      var had := d.preAlloc[rid].ids;
      assert e.preAlloc[rid].ids[..|had|] == had;
      assert |had| * cfg.blockSize + |blocks| * cfg.blockSize == (|had| + |blocks|) * cfg.blockSize;
    }
  }

  /** What a stage that sends leaves behind, if the request is still alive. */
  ghost predicate StageSent(cfg: Config, a: SourceView, y: SourceView, g: DestView, rid: RequestId, isLast: bool,
                            sent: nat, skipped: nat) {
    && Held(cfg, y, g, rid, sent, skipped) && Sum(y.sent) == sent
    && y.running != isLast && a.table <= y.table && (isLast ==> y.table == a.table)
    && (!isLast ==> sent < |y.table| && rid in g.preAlloc && Full(g.preAlloc[rid], cfg.blockSize))
  }

  /** A stage by its status. */
  ghost predicate Outcome(cfg: Config, a: SourceView, r: StageResult, rid: RequestId, isLast: bool, blocks: seq<int>,
                          sent: nat, skipped: nat) {
    && (r.status == Continue ==>
          !isLast && r.moved == blocks && !Doomed(r.src)
          && StageSent(cfg, a, r.src, r.dst, rid, isLast, sent + |blocks|, skipped))
    && (r.status == Finished ==>
          isLast && r.moved == blocks &&
          (!Doomed(r.src) ==> StageSent(cfg, a, r.src, r.dst, rid, isLast, sent + |blocks|, skipped)))
    && (r.status == AbortedDst ==> rid !in r.dst.preAlloc && (r.src.running || Doomed(r.src)))
  }

  /** Time passes once more after the transfer. */
  lemma AfterTransfer(cfg: Config, a: SourceView, x: SourceView, f: DestView, y: SourceView, g: DestView,
                      rid: RequestId, isLast: bool, sent: nat, skipped: nat)
    requires StageSent(cfg, a, x, f, rid, isLast, sent, skipped)
    requires SourceWent(cfg, x, y) && DestWent(f, g, rid) && !Doomed(y)
    ensures StageSent(cfg, a, y, g, rid, isLast, sent, skipped)
  {
    HeldStays(cfg, x, f, y, g, rid, sent, skipped);
  }

  /** The transfer into the reserved room. */
  lemma TransferKeeps(cfg: Config, a: SourceView, w: SourceView, e: DestView, rid: RequestId, isLast: bool,
                      sent: nat, skipped: nat, blocks: seq<int>, room: seq<int>, short: nat)
    requires ReadyToSend(cfg, a, w, e, rid, isLast, sent, skipped, blocks, room, short)
    ensures StageSent(cfg, a, w.(sent := w.sent + [|blocks|]), e.(mem := Transfer(w.mem, blocks, e.mem, room)),
                      rid, isLast, sent + |blocks|, skipped + short)
  {
    SendKeeps(cfg, w, e, rid, sent, skipped, blocks, room, short);
  }

  /** The whole of Deliver. */
  lemma DeliverOutcome(cfg: Config, a: SourceView, d: DestView, rid: RequestId, stage: Stage, isLast: bool,
                       sent: nat, skipped: nat, blocks: seq<int>, room: seq<int>, short: nat)
    requires RoomFor(cfg, a, d, rid, sent, skipped, blocks, room, short)
    requires a.running != isLast && Sum(a.sent) == sent && (sent == 0 ==> skipped + short == 0)
    requires !isLast ==> sent + |blocks| < |a.table| && Full(d.preAlloc[rid], cfg.blockSize)
    ensures var r := Deliver(cfg, SourceAfter(cfg, a, stage.allocating), DestAfter(d, rid, stage.replying), rid, stage,
                             isLast, blocks, room);
            r.status != AbortedDst && Outcome(cfg, a, r, rid, isLast, blocks, sent, skipped + short)
  {
    var w, e := SourceAfter(cfg, a, stage.allocating), DestAfter(d, rid, stage.replying);
    SourceGoesOn(cfg, a, stage.allocating);
    DestGoesOn(d, rid, stage.replying);
    if !Doomed(w) {
      WaitedWithRoom(cfg, a, d, w, e, rid, isLast, sent, skipped, blocks, room, short);
      SendOutcome(cfg, a, w, e, rid, stage, isLast, sent, skipped, blocks, room, short);
    }
  }

  /** What holds when the transfer begins. */
  ghost predicate ReadyToSend(cfg: Config, a: SourceView, w: SourceView, e: DestView, rid: RequestId, isLast: bool,
                              sent: nat, skipped: nat, blocks: seq<int>, room: seq<int>, short: nat) {
    && RoomFor(cfg, w, e, rid, sent, skipped, blocks, room, short) && !Doomed(w)
    && w.running != isLast && Sum(w.sent) == sent && (sent == 0 ==> skipped + short == 0)
    && a.table <= w.table && (isLast ==> w.table == a.table)
    && (!isLast ==> sent + |blocks| < |w.table| && Full(e.preAlloc[rid], cfg.blockSize))
  }

  lemma WaitedWithRoom(cfg: Config, a: SourceView, d: DestView, w: SourceView, e: DestView, rid: RequestId,
                       isLast: bool, sent: nat, skipped: nat, blocks: seq<int>, room: seq<int>, short: nat)
    requires RoomFor(cfg, a, d, rid, sent, skipped, blocks, room, short)
    requires a.running != isLast && Sum(a.sent) == sent && (sent == 0 ==> skipped + short == 0)
    requires !isLast ==> sent + |blocks| < |a.table| && Full(d.preAlloc[rid], cfg.blockSize)
    requires SourceWent(cfg, a, w) && DestWent(d, e, rid) && !Doomed(w)
    ensures ReadyToSend(cfg, a, w, e, rid, isLast, sent, skipped, blocks, room, short)
  {
    RoomStays(cfg, a, d, w, e, rid, sent, skipped, blocks, room, short);
  }

  lemma SendOutcome(cfg: Config, a: SourceView, w: SourceView, e: DestView, rid: RequestId, stage: Stage, isLast: bool,
                    sent: nat, skipped: nat, blocks: seq<int>, room: seq<int>, short: nat)
    requires ReadyToSend(cfg, a, w, e, rid, isLast, sent, skipped, blocks, room, short)
    ensures var r := Deliver(cfg, w, e, rid, stage, isLast, blocks, room);
            r.status != AbortedDst && Outcome(cfg, a, r, rid, isLast, blocks, sent, skipped + short)
  {
    TransferKeeps(cfg, a, w, e, rid, isLast, sent, skipped, blocks, room, short);
    var x, f := w.(sent := w.sent + [|blocks|]), e.(mem := Transfer(w.mem, blocks, e.mem, room));
    SourceGoesOn(cfg, x, stage.sending);
    DestGoesOn(f, rid, stage.receiving);
    var y, g := SourceAfter(cfg, x, stage.sending), DestAfter(f, rid, stage.receiving);
    if !Doomed(y) {
      AfterTransfer(cfg, a, x, f, y, g, rid, isLast, sent + |blocks|, skipped + short);
    }
  }

  /** A stage that is not the last one moved the next blocks, at least one, and left at least one. */
  ghost predicate Continued(cfg: Config, v: SourceView, r: StageResult, rid: RequestId, sent: nat, skipped: nat) {
    && r.moved != [] && sent + |r.moved| <= |v.table| && r.moved == v.table[sent..sent + |r.moved|]
    && v.table <= r.src.table
    && BetweenStages(cfg, r.src, r.dst, rid, sent + |r.moved|, skipped)
  }

  /** The last stage moved all that was there when the table was read; `stopped` is the table at the stop. */
  ghost predicate Completed(cfg: Config, v: SourceView, r: StageResult, rid: RequestId, sent: nat, skipped: nat,
                            stopped: seq<int>) {
    && sent < |v.table| && r.moved == v.table[sent..]
    && (!Doomed(r.src) ==>
          Held(cfg, r.src, r.dst, rid, |v.table|, skipped) && !r.src.running && v.table <= r.src.table == stopped)
  }

  /** One stage, whatever its outcome. A refusal leaves no pre-allocation. */
  lemma StageKeeps(cfg: Config, v: SourceView, d: DestView, rid: RequestId, stage: Stage, sent: nat, skipped: nat)
    requires cfg.lastStageMaxBlocks >= 1 && BetweenStages(cfg, v, d, rid, sent, skipped)
    ensures var r := RunStage(cfg, v, d, rid, stage);
            var short := Short(d, rid, stage, |r.moved|);
            && (r.status == Continue ==> Continued(cfg, v, r, rid, sent, skipped + short))
            && (r.status == Finished ==>
                  Completed(cfg, v, r, rid, sent, skipped + short, SourceAfter(cfg, v, stage.stopping).table))
            && (r.status == AbortedDst ==> rid !in r.dst.preAlloc && (r.src.running || Doomed(r.src)))
  {
    if Gone(cfg, v, stage) {
    } else if Doomed(Asking(cfg, v, stage)) {
      DoomedOutcome(cfg, Asking(cfg, v, stage), d, rid, stage, IsLastStage(cfg, v), StageBlocks(cfg, v),
                    StageTokens(cfg, v));
    } else {
      var a, isLast, blocks := Asking(cfg, v, stage), IsLastStage(cfg, v), StageBlocks(cfg, v);
      ReadKeeps(cfg, v, d, rid, stage, sent, skipped);
      AskOutcome(cfg, a, d, rid, stage, sent, skipped, isLast, blocks, StageTokens(cfg, v));
      OutcomeOfStage(cfg, v, d, a, RunStage(cfg, v, d, rid, stage), rid, isLast, blocks, sent,
                     skipped + Short(d, rid, stage, |blocks|));
    }
  }

  /** A request that was preempted and resumed before it was stopped: the stage gives up, on one side or the other. */
  lemma DoomedOutcome(cfg: Config, a: SourceView, d: DestView, rid: RequestId, stage: Stage, isLast: bool,
                      blocks: seq<int>, tokens: nat)
    requires Doomed(a)
    ensures var r := Ask(cfg, a, d, rid, stage, isLast, blocks, tokens);
            r.status == AbortedSrc || (r.status == AbortedDst && rid !in r.dst.preAlloc && Doomed(r.src))
  {
    var (e, room) := MigrateInPreAlloc(cfg, DestAfter(d, rid, stage.arriving), rid, |blocks|, tokens);
    assert |room| != |blocks| ==> rid !in e.preAlloc;
  }

  lemma OutcomeOfStage(cfg: Config, v: SourceView, d: DestView, a: SourceView, r: StageResult, rid: RequestId,
                       isLast: bool, blocks: seq<int>, sent: nat, skipped: nat)
    requires Outcome(cfg, a, r, rid, isLast, blocks, sent, skipped)
    requires sent < |v.table| && blocks != [] && blocks <= v.table[sent..] && (isLast ==> blocks == v.table[sent..])
    requires v.table <= a.table
    ensures r.status == Continue ==> Continued(cfg, v, r, rid, sent, skipped)
    ensures r.status == Finished ==> Completed(cfg, v, r, rid, sent, skipped, a.table)
  {
  }

  /** The part of the stage behind the reading of the table. */
  lemma AskOutcome(cfg: Config, a: SourceView, d: DestView, rid: RequestId, stage: Stage, sent: nat, skipped: nat,
                   isLast: bool, blocks: seq<int>, tokens: nat)
    requires StageRead(cfg, a, d, rid, sent, skipped, isLast, blocks, tokens)
    ensures Outcome(cfg, a, Ask(cfg, a, d, rid, stage, isLast, blocks, tokens), rid, isLast, blocks,
                    sent, skipped + Short(d, rid, stage, |blocks|))
  {
    var d1 := DestAfter(d, rid, stage.arriving);
    DestGoesOn(d, rid, stage.arriving);
    ArrivingKeeps(cfg, a, d, d1, rid, sent, skipped, isLast, blocks, tokens);
    ReservationOutcome(cfg, a, d1, rid, stage, sent, skipped, isLast, blocks, tokens);
  }

  lemma ReservationOutcome(cfg: Config, a: SourceView, d: DestView, rid: RequestId, stage: Stage, sent: nat,
                           skipped: nat, isLast: bool, blocks: seq<int>, tokens: nat)
    requires StageRead(cfg, a, d, rid, sent, skipped, isLast, blocks, tokens)
    ensures var r := AskAt(cfg, a, d, rid, stage, isLast, blocks, tokens);
            var short := if rid in d.preAlloc && |d.free| < |blocks| then |blocks| else 0;
            Outcome(cfg, a, r, rid, isLast, blocks, sent, skipped + short)
  {
    MigrateInGrants(cfg, d, rid, |blocks|, tokens);
    var (e, room) := MigrateInPreAlloc(cfg, d, rid, |blocks|, tokens);
    ReplyOutcome(cfg, a, d, e, rid, stage, sent, skipped, isLast, blocks, room, tokens);
  }

  lemma ReplyOutcome(cfg: Config, a: SourceView, d: DestView, e: DestView, rid: RequestId, stage: Stage, sent: nat,
                     skipped: nat, isLast: bool, blocks: seq<int>, room: seq<int>, tokens: nat)
    requires StageRead(cfg, a, d, rid, sent, skipped, isLast, blocks, tokens)
    requires Grants(d, e, rid, room, |blocks|, tokens)
    ensures var r := Deliver(cfg, SourceAfter(cfg, a, stage.allocating), DestAfter(e, rid, stage.replying), rid, stage,
                             isLast, blocks, room);
            var short := if rid in d.preAlloc && |d.free| < |blocks| then |blocks| else 0;
            Outcome(cfg, a, r, rid, isLast, blocks, sent, skipped + short)
  {
    if |room| == |blocks| {
      AskGranted(cfg, a, d, e, rid, stage, sent, skipped, isLast, blocks, room, tokens);
    } else {
      var short := if rid in d.preAlloc && |d.free| < |blocks| then |blocks| else 0;
      AskRefused(cfg, a, e, rid, stage, sent, skipped + short, isLast, blocks, room);
    }
  }

  lemma ArrivingKeeps(cfg: Config, a: SourceView, d: DestView, e: DestView, rid: RequestId, sent: nat, skipped: nat,
                      isLast: bool, blocks: seq<int>, tokens: nat)
    requires StageRead(cfg, a, d, rid, sent, skipped, isLast, blocks, tokens) && DestWent(d, e, rid)
    ensures StageRead(cfg, a, e, rid, sent, skipped, isLast, blocks, tokens)
    ensures rid in d.preAlloc <==> rid in e.preAlloc
  {
    if sent > 0 && skipped == 0 {
      ImageStays(a.mem, a.table[..sent], d.mem, d.preAlloc[rid].ids, a.mem, e.mem);
    }
  }

  lemma AskGranted(cfg: Config, a: SourceView, d: DestView, e: DestView, rid: RequestId, stage: Stage, sent: nat,
                   skipped: nat,
                   isLast: bool, blocks: seq<int>, room: seq<int>, tokens: nat)
    requires StageRead(cfg, a, d, rid, sent, skipped, isLast, blocks, tokens)
    requires Grants(d, e, rid, room, |blocks|, tokens) && |room| == |blocks|
    ensures var r := Deliver(cfg, SourceAfter(cfg, a, stage.allocating), DestAfter(e, rid, stage.replying), rid, stage,
                             isLast, blocks, room);
            var short := if rid in d.preAlloc && |d.free| < |blocks| then |blocks| else 0;
            Outcome(cfg, a, r, rid, isLast, blocks, sent, skipped + short)
  {
    ReserveKeeps(cfg, a, d, e, rid, sent, skipped, blocks, room, tokens);
    var short := if rid in d.preAlloc && |d.free| < |blocks| then |blocks| else 0;
    DeliverOutcome(cfg, a, e, rid, stage, isLast, sent, skipped, blocks, room, short);
  }

  lemma AskRefused(cfg: Config, a: SourceView, e: DestView, rid: RequestId, stage: Stage, sent: nat, skipped: nat,
                   isLast: bool, blocks: seq<int>, room: seq<int>)
    requires ValidSource(cfg, a) && a.running != isLast && ValidDest(e, rid) && rid !in e.preAlloc && |room| != |blocks|
    ensures var r := Deliver(cfg, SourceAfter(cfg, a, stage.allocating), DestAfter(e, rid, stage.replying), rid, stage,
                             isLast, blocks, room);
            Outcome(cfg, a, r, rid, isLast, blocks, sent, skipped)
  {
    SourceGoesOn(cfg, a, stage.allocating);
    DestGoesOn(e, rid, stage.replying);
  }

  // ------------------------------------------------------------------
  // All stages

  datatype Ending = Ending(status: Status, src: SourceView, dst: DestView, stages: seq<seq<int>>)

  /** One stage after the other, at most as many as the script has. */
  function RunStages(cfg: Config, v: SourceView, d: DestView, rid: RequestId, script: seq<Stage>): (e: Ending)
    ensures |e.stages| <= |script| && e.status != Continue
    decreases |script|
  {
    if script == [] then Ending(AbortedSrc, v, d, [])
    else
      var r := RunStage(cfg, v, d, rid, script[0]);
      if r.status == Continue then Behind([r.moved], RunStages(cfg, r.src, r.dst, rid, script[1..]))
      else Ending(r.status, r.src, r.dst, [r.moved])
  }

  function Behind(stages: seq<seq<int>>, e: Ending): Ending {
    e.(stages := stages + e.stages)
  }

  /** The source's table as the last stage that ran read it. */
  function TableRead(cfg: Config, v: SourceView, d: DestView, rid: RequestId, script: seq<Stage>): seq<int>
    decreases |script|
  {
    if script == [] then v.table
    else
      var r := RunStage(cfg, v, d, rid, script[0]);
      if r.status == Continue then TableRead(cfg, r.src, r.dst, rid, script[1..]) else v.table
  }

  /** The source's table when that stage had stopped the request. */
  function TableStopped(cfg: Config, v: SourceView, d: DestView, rid: RequestId, script: seq<Stage>): seq<int>
    decreases |script|
  {
    if script == [] then v.table
    else
      var r := RunStage(cfg, v, d, rid, script[0]);
      if r.status == Continue then TableStopped(cfg, r.src, r.dst, rid, script[1..])
      else SourceAfter(cfg, v, script[0].stopping).table
  }

  /** Whenever an existing pre-allocation was to grow, enough blocks were free. */
  predicate AlwaysRoom(cfg: Config, v: SourceView, d: DestView, rid: RequestId, script: seq<Stage>)
    decreases |script|
  {
    script == [] ||
    var r := RunStage(cfg, v, d, rid, script[0]);
    && Short(d, rid, script[0], |r.moved|) == 0
    && (r.status == Continue ==> AlwaysRoom(cfg, r.src, r.dst, rid, script[1..]))
  }

  predicate RoomSince(cfg: Config, v: SourceView, d: DestView, rid: RequestId, script: seq<Stage>, skipped: nat) {
    skipped == 0 && AlwaysRoom(cfg, v, d, rid, script)
  }

  /** The request runs, has blocks, and nothing of it has been sent or set aside. */
  ghost predicate Start(cfg: Config, v: SourceView, d: DestView, rid: RequestId) {
    && ValidSource(cfg, v) && v.running && !Doomed(v) && v.table != [] && v.sent == []
    && ValidDest(d, rid) && rid !in d.preAlloc
  }

  /** What a finished migration comes to, when `before` was sent by earlier stages. */
  ghost predicate HandedOver(e: Ending, rid: RequestId, before: seq<int>, read: seq<int>, stopped: seq<int>,
                             room: bool) {
    && before + Flatten(e.stages) == read && Distinct(read)
    && (forall i :: 0 <= i < |e.stages| ==> e.stages[i] != [])
    && (!Doomed(e.src) ==> Arrived(e.src, e.dst, rid, read, stopped, room))
  }

  ghost predicate Arrived(v: SourceView, d: DestView, rid: RequestId, read: seq<int>, stopped: seq<int>, room: bool) {
    && !v.running && v.table == stopped && read <= stopped && rid in d.preAlloc
    && (Image(v.mem, v.table, d.mem, d.preAlloc[rid].ids) <==> stopped == read && room)
  }

  lemma LastStageArrived(cfg: Config, v: SourceView, r: StageResult, rid: RequestId, sent: nat, skipped: nat,
                         stopped: seq<int>)
    requires Completed(cfg, v, r, rid, sent, skipped, stopped) && !Doomed(r.src)
    ensures Arrived(r.src, r.dst, rid, v.table, stopped, skipped == 0)
  {
    if stopped == v.table {
      assert stopped[..|v.table|] == stopped;
    }
  }

  /** The statement about all stages from here on. */
  ghost predicate Promise(e: Ending, rid: RequestId, before: seq<int>, read: seq<int>, stopped: seq<int>, room: bool) {
    && (e.status == Finished ==> HandedOver(e, rid, before, read, stopped, room))
    && (e.status == AbortedDst ==> rid !in e.dst.preAlloc && (e.src.running || Doomed(e.src)))
  }

  lemma {:induction false} StagesKeep(cfg: Config, v: SourceView, d: DestView, rid: RequestId, script: seq<Stage>,
                                      before: seq<int>, skipped: nat)
    requires cfg.lastStageMaxBlocks >= 1 && BetweenStages(cfg, v, d, rid, |before|, skipped) && before <= v.table
    ensures Promise(RunStages(cfg, v, d, rid, script), rid, before, TableRead(cfg, v, d, rid, script),
                    TableStopped(cfg, v, d, rid, script), RoomSince(cfg, v, d, rid, script, skipped))
    decreases |script|
  {
    if script == [] {
    } else {
      var r := RunStage(cfg, v, d, rid, script[0]);
      StageKeeps(cfg, v, d, rid, script[0], |before|, skipped);
      if r.status == Continue {
        var short := Short(d, rid, script[0], |r.moved|);
        SentSoFar(cfg, v, r, rid, before, skipped + short);
        StagesKeep(cfg, r.src, r.dst, rid, script[1..], before + r.moved, skipped + short);
        StagesGoOn(cfg, v, d, rid, script, before, skipped);
      } else {
        StagesEnd(cfg, v, d, rid, script, before, skipped);
      }
    }
  }

  lemma SentSoFar(cfg: Config, v: SourceView, r: StageResult, rid: RequestId, before: seq<int>, skipped: nat)
    requires before <= v.table && Continued(cfg, v, r, rid, |before|, skipped)
    ensures before + r.moved <= r.src.table && BetweenStages(cfg, r.src, r.dst, rid, |before + r.moved|, skipped)
  {
    assert v.table[..|before| + |r.moved|] == before + r.moved;
  }

  lemma StagesGoOn(cfg: Config, v: SourceView, d: DestView, rid: RequestId, script: seq<Stage>, before: seq<int>,
                   skipped: nat)
    requires script != [] && RunStage(cfg, v, d, rid, script[0]).status == Continue
    requires RunStage(cfg, v, d, rid, script[0]).moved != []
    requires var r := RunStage(cfg, v, d, rid, script[0]);
             Promise(RunStages(cfg, r.src, r.dst, rid, script[1..]), rid, before + r.moved,
                     TableRead(cfg, r.src, r.dst, rid, script[1..]), TableStopped(cfg, r.src, r.dst, rid, script[1..]),
                     RoomSince(cfg, r.src, r.dst, rid, script[1..], skipped + Short(d, rid, script[0], |r.moved|)))
    ensures Promise(RunStages(cfg, v, d, rid, script), rid, before, TableRead(cfg, v, d, rid, script),
                    TableStopped(cfg, v, d, rid, script), RoomSince(cfg, v, d, rid, script, skipped))
  {
    var r := RunStage(cfg, v, d, rid, script[0]);
    var short := Short(d, rid, script[0], |r.moved|);
    MoreStages(RunStages(cfg, r.src, r.dst, rid, script[1..]), rid, before, r.moved,
               TableRead(cfg, r.src, r.dst, rid, script[1..]),
               TableStopped(cfg, r.src, r.dst, rid, script[1..]),
               RoomSince(cfg, r.src, r.dst, rid, script[1..], skipped + short));
    assert RoomSince(cfg, v, d, rid, script, skipped) ==
           RoomSince(cfg, r.src, r.dst, rid, script[1..], skipped + short);
  }

  lemma StagesEnd(cfg: Config, v: SourceView, d: DestView, rid: RequestId, script: seq<Stage>, before: seq<int>,
                  skipped: nat)
    requires cfg.lastStageMaxBlocks >= 1 && BetweenStages(cfg, v, d, rid, |before|, skipped) && before <= v.table
    requires script != [] && RunStage(cfg, v, d, rid, script[0]).status != Continue
    ensures Promise(RunStages(cfg, v, d, rid, script), rid, before, TableRead(cfg, v, d, rid, script),
                    TableStopped(cfg, v, d, rid, script), RoomSince(cfg, v, d, rid, script, skipped))
  {
    StageKeeps(cfg, v, d, rid, script[0], |before|, skipped);
    var r := RunStage(cfg, v, d, rid, script[0]);
    var short := Short(d, rid, script[0], |r.moved|);
    if r.status == Finished {
      OneStage(cfg, v, r, rid, before, skipped + short, SourceAfter(cfg, v, script[0].stopping).table);
      assert RoomSince(cfg, v, d, rid, script, skipped) == (skipped + short == 0);
    }
  }

  lemma MoreStages(e: Ending, rid: RequestId, before: seq<int>, moved: seq<int>, read: seq<int>, stopped: seq<int>,
                   room: bool)
    requires Promise(e, rid, before + moved, read, stopped, room) && moved != []
    ensures Promise(Behind([moved], e), rid, before, read, stopped, room)
  {
    assert ([moved] + e.stages)[1..] == e.stages;
    assert before + moved + Flatten(e.stages) == before + Flatten([moved] + e.stages);
  }

  lemma OneStage(cfg: Config, v: SourceView, r: StageResult, rid: RequestId, before: seq<int>, skipped: nat,
                 stopped: seq<int>)
    requires ValidSource(cfg, v) && before <= v.table && Completed(cfg, v, r, rid, |before|, skipped, stopped)
    ensures HandedOver(Ending(r.status, r.src, r.dst, [r.moved]), rid, before, v.table, stopped, skipped == 0)
  {
    assert Flatten([r.moved]) == r.moved + Flatten([r.moved][1..]);
    assert before + v.table[|before|..] == v.table;
    if !Doomed(r.src) {
      LastStageArrived(cfg, v, r, rid, |before|, skipped, stopped);
    }
  }

  /**
   The whole migration, for every script. When it finishes, the blocks of its stages
   concatenate to the source's table as the last stage read it, each sent once,
   although the table grew between stages. The destination's table is then the
   block-for-block image of the source's whole table if and only if nothing was
   appended between that reading and the stop, and whenever a pre-allocation was to
   grow there was room. A refusal leaves no pre-allocation.
   */
  lemma MigrationRefinesCopy(cfg: Config, v: SourceView, d: DestView, rid: RequestId, script: seq<Stage>)
    requires cfg.lastStageMaxBlocks >= 1 && Start(cfg, v, d, rid)
    ensures Promise(RunStages(cfg, v, d, rid, script), rid, [], TableRead(cfg, v, d, rid, script),
                    TableStopped(cfg, v, d, rid, script), AlwaysRoom(cfg, v, d, rid, script))
  {
    StagesKeep(cfg, v, d, rid, script, [], 0);
  }

  // ------------------------------------------------------------------
  // In place

  class Destination {
    const cfg: Config
    var preAlloc: map<RequestId, BlockTable>
    var free: seq<int>            // the allocator's free list
    var mem: Memory<Content>

    constructor (cfg: Config, free: seq<int>, mem: Memory<Content>)
      ensures this.cfg == cfg && View() == DestView(map[], free, mem)
    {
      this.cfg, this.preAlloc, this.free, this.mem := cfg, map[], free, mem;
    }

    function View(): DestView
      reads this
    {
      DestView(preAlloc, free, mem)
    }

    method TakeFree(n: int) returns (ids: seq<int>)
      modifies this`free
      ensures ids == Take(old(free), n) && free == From(old(free), |ids|)
    {
      ids := Take(free, n);
      free := free[|ids|..];
    }

    method Allocate(rid: RequestId, blockNum: nat, tokens: nat) returns (ids: seq<int>)
      modifies this`preAlloc, this`free
      ensures (View(), ids) == PreAlloc(cfg, old(View()), rid, blockNum, tokens)
    {
      var table := BlockTable([], 0);
      if rid !in preAlloc {
        if |free| - blockNum >= cfg.watermark {
          var taken := TakeFree(Blocks(tokens, cfg.blockSize));
          table := BlockTable(taken, tokens);
        }
        preAlloc := preAlloc[rid := table];
      } else {
        table := preAlloc[rid];
        if |free| >= blockNum {
          var more := TakeFree(Blocks(table.tokens + tokens, cfg.blockSize) - Blocks(table.tokens, cfg.blockSize));
          table := BlockTable(table.ids + more, table.tokens + tokens);
        }
        preAlloc := preAlloc[rid := table];
      }
      ids := if cfg.slidingWindow == Some(|table.ids|) then [] else Tail(table.ids, blockNum);
    }

    method Free(rid: RequestId)
      modifies this`preAlloc, this`free
      ensures View() == FreePreAlloc(old(View()), rid)
    {
      if rid in preAlloc {
        free := free + preAlloc[rid].ids;
        preAlloc := preAlloc - {rid};
      }
    }

    method MigrateIn(rid: RequestId, blockNum: nat, tokens: nat) returns (ids: seq<int>)
      modifies this`preAlloc, this`free
      ensures (View(), ids) == MigrateInPreAlloc(cfg, old(View()), rid, blockNum, tokens)
    {
      ids := Allocate(rid, blockNum, tokens);
      if |ids| != blockNum {
        Free(rid);
      }
    }

    method Wait(rid: RequestId, move: DestMove)
      modifies this`preAlloc, this`free, this`mem
      ensures View() == DestAfter(old(View()), rid, move)
    {
      var e := DestAfter(View(), rid, move);
      preAlloc, free, mem := e.preAlloc, e.free, e.mem;
    }
  }

  class Source {
    const cfg: Config
    var table: seq<int>           // physical blocks of the request
    var tokens: nat               // tokens they hold
    var mem: Memory<Content>
    var stageNumBlocks: seq<int>
    var running: bool             // in the running queue
    var finished: bool
    var preempted: bool           // since the beginning of the current stage
    var blocking: bool            // has reached its expected steps

    constructor (cfg: Config, table: seq<int>, tokens: nat, mem: Memory<Content>)
      ensures this.cfg == cfg && View() == SourceView(table, tokens, mem, [], true, false, false, false)
    {
      this.cfg, this.table, this.tokens, this.mem := cfg, table, tokens, mem;
      this.stageNumBlocks, this.running, this.finished, this.preempted, this.blocking := [], true, false, false, false;
    }

    function View(): SourceView
      reads this
    {
      SourceView(table, tokens, mem, stageNumBlocks, running, finished, preempted, blocking)
    }

    predicate ShouldAbort()
      reads this
    {
      finished || preempted
    }

    method Wait(move: SourceMove)
      modifies this
      ensures View() == SourceAfter(cfg, old(View()), move)
    {
      var w := SourceAfter(cfg, View(), move);
      table, tokens, mem := w.table, w.tokens, w.mem;
      running, finished, preempted, blocking := w.running, w.finished, w.preempted, w.blocking;
    }

    method RemoveRunning() returns (found: bool)
      modifies this`running
      ensures found == old(running) && View() == old(View()).(running := false)
    {
      found := running;
      running := false;
    }
  }

  /** The stage from the request for room on. */
  method FinishStage(src: Source, dst: Destination, rid: RequestId, stage: Stage, isLast: bool, blocks: seq<int>,
                     tokens: nat)
    returns (status: Status, moved: seq<int>)
    requires src.cfg == dst.cfg
    modifies src, dst
    ensures StageResult(status, src.View(), dst.View(), moved) ==
            Ask(src.cfg, old(src.View()), old(dst.View()), rid, stage, isLast, blocks, tokens)
  {
    dst.Wait(rid, stage.arriving);
    var room := dst.MigrateIn(rid, |blocks|, tokens);
    src.Wait(stage.allocating);
    dst.Wait(rid, stage.replying);
    if |room| != |blocks| {
      if isLast {
        src.running := true;
      }
      return AbortedDst, [];
    }
    if src.ShouldAbort() {
      return AbortedSrc, [];
    }
    src.stageNumBlocks := src.stageNumBlocks + [|blocks|];
    dst.mem := Transfer(src.mem, blocks, dst.mem, room);
    src.Wait(stage.sending);
    dst.Wait(rid, stage.receiving);
    if !isLast && src.ShouldAbort() {
      return AbortedSrc, blocks;
    }
    return if isLast then Finished else Continue, blocks;
  }

  /** Reads the table and, in the last stage, stops the request. */
  method ReadStage(src: Source, stage: Stage) returns (gone: bool, isLast: bool, blocks: seq<int>, tokens: nat)
    modifies src
    ensures gone == Gone(src.cfg, old(src.View()), stage) && src.View() == Asking(src.cfg, old(src.View()), stage)
    ensures isLast == IsLastStage(src.cfg, old(src.View()))
    ensures blocks == StageBlocks(src.cfg, old(src.View())) && tokens == StageTokens(src.cfg, old(src.View()))
  {
    gone := false;
    var preStage := Sum(src.stageNumBlocks);
    var incremental := From(src.table, preStage);
    var unsent := src.tokens - preStage * src.cfg.blockSize;
    tokens := if unsent < 0 then 0 else unsent;
    isLast := |incremental| <= src.cfg.lastStageMaxBlocks || src.blocking;
    blocks := incremental;
    if !isLast {
      blocks := incremental[..|incremental| - 1];
      tokens := Min(tokens, |blocks| * src.cfg.blockSize);
    } else {
      src.Wait(stage.stopping);
      var found := src.RemoveRunning();
      gone := !found || src.finished;
    }
  }

  method MigrateOutOneStage(src: Source, dst: Destination, rid: RequestId, stage: Stage)
    returns (status: Status, moved: seq<int>)
    requires src.cfg == dst.cfg
    modifies src, dst
    ensures StageResult(status, src.View(), dst.View(), moved) ==
            RunStage(src.cfg, old(src.View()), old(dst.View()), rid, stage)
  {
    if src.ShouldAbort() {
      return AbortedSrc, [];
    }
    var gone, isLast, blocks, tokens := ReadStage(src, stage);
    if gone {
      return AbortedSrc, [];
    }
    status, moved := FinishStage(src, dst, rid, stage, isLast, blocks, tokens);
  }

  /** One more stage of those that `total` sums up. */
  method NextStage(src: Source, dst: Destination, rid: RequestId, script: seq<Stage>, k: nat, stages: seq<seq<int>>,
                   ghost total: Ending)
    returns (status: Status, more: seq<seq<int>>)
    requires src.cfg == dst.cfg && k < |script|
    requires total == Behind(stages, RunStages(src.cfg, src.View(), dst.View(), rid, script[k..]))
    modifies src, dst
    ensures status == Continue ==>
              total == Behind(more, RunStages(src.cfg, src.View(), dst.View(), rid, script[k + 1..]))
    ensures status != Continue ==> total == Ending(status, src.View(), dst.View(), more)
  {
    var moved;
    assert script[k..][1..] == script[k + 1..];
    status, moved := MigrateOutOneStage(src, dst, rid, script[k]);
    more := stages + [moved];
    if status == Continue {
      BehindBehind(stages, moved, RunStages(src.cfg, src.View(), dst.View(), rid, script[k + 1..]));
    }
  }

  lemma BehindBehind(stages: seq<seq<int>>, moved: seq<int>, e: Ending)
    ensures Behind(stages, Behind([moved], e)) == Behind(stages + [moved], e)
  {
    assert stages + ([moved] + e.stages) == stages + [moved] + e.stages;
  }

  /** The loop over stages. */
  method MigrateOutMultistage(src: Source, dst: Destination, rid: RequestId, script: seq<Stage>)
    returns (status: Status, stages: seq<seq<int>>)
    requires src.cfg == dst.cfg
    modifies src, dst
    ensures Ending(status, src.View(), dst.View(), stages) ==
            RunStages(src.cfg, old(src.View()), old(dst.View()), rid, script)
  {
    ghost var total := RunStages(src.cfg, src.View(), dst.View(), rid, script);
    stages := [];
    var stageCount := 0;
    assert script[0..] == script;
    while stageCount < |script|
      invariant 0 <= stageCount <= |script|
      invariant total == Behind(stages, RunStages(src.cfg, src.View(), dst.View(), rid, script[stageCount..]))
    {
      status, stages := NextStage(src, dst, rid, script, stageCount, stages, total);
      stageCount := stageCount + 1;
      if status != Continue {
        return;
      }
    }
    return AbortedSrc, stages;
  }
}
