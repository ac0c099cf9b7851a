/**
 The two ways in which a finished live migration is not a copy, at concrete inputs:
 a block that comes while the request is being stopped, and a pre-allocation that
 does not grow but answers with its old tail.
 */
module LiveMigrationExamples {
  import opened Prelude
  import opened KvMemory
  import opened LiveMigration

  const UNIT_BLOCKS: Config := Settings(1, 0, None, 1)

  const RID: RequestId := "r"

  /** Nothing happens to a request of so many tokens, or at a destination with these free blocks. */
  function Stay(tokens: nat): SourceMove {
    SourceMove(false, false, false, [], tokens, map[], false)
  }

  function Keep(free: seq<int>): DestMove {
    DestMove(free, map[], map[])
  }

  lemma Nothing(v: SourceView, d: DestView)
    requires ValidSource(UNIT_BLOCKS, v) && !v.blocking && ValidDest(d, RID) && d.preAlloc.Keys <= {RID}
    ensures SourceAfter(UNIT_BLOCKS, v, Stay(v.tokens)) == v
    ensures DestAfter(d, RID, Keep(d.free)) == d
  {
    assert v.table + [] == v.table;
    assert v.mem + map[] == v.mem && d.mem + map[] == d.mem;
  }

  lemma {:induction false} OneTokenEach(n: nat)
    ensures Blocks(n, 1) == n
  {
    if n > 1 {
      OneTokenEach(n - 1);
    }
  }

  /** The end of a stage in which nothing happens after the reservation. */
  lemma QuietDelivery(a: SourceView, d: DestView, e: DestView, stage: Stage, isLast: bool, blocks: seq<int>,
                      room: seq<int>)
    requires ValidSource(UNIT_BLOCKS, a) && !a.blocking && !Doomed(a) && |room| == |blocks| && Has(a.mem, blocks)
    requires ValidDest(d, RID) && d.preAlloc.Keys <= {RID} && ValidDest(e, RID) && e.preAlloc.Keys <= {RID}
    requires e == d.(mem := Copy(a.mem, blocks, d.mem, room))
    requires stage.allocating == stage.sending == Stay(a.tokens) && stage.replying == stage.receiving == Keep(d.free)
    ensures Deliver(UNIT_BLOCKS, SourceAfter(UNIT_BLOCKS, a, stage.allocating), DestAfter(d, RID, stage.replying), RID,
                    stage, isLast, blocks, room)
            == StageResult(if isLast then Finished else Continue, a.(sent := a.sent + [|blocks|]), e, blocks)
  {
    Nothing(a, d);
    Nothing(a.(sent := a.sent + [|blocks|]), e);
  }

  const ONE_BLOCK := SourceView([0], 1, map[0 := [0]], [], true, false, false, false)

  const ONE_FREE := DestView(map[], [0], map[0 := []])

  /** The request gains block 1 while it is being stopped. */
  const LATE_STAGE := Stage(SourceMove(false, false, false, [1], 2, map[1 := [1]], false), Keep([0]), Stay(2),
                            Keep([]), Stay(2), Keep([]))

  lemma LateStop()
    ensures var a := Asking(UNIT_BLOCKS, ONE_BLOCK, LATE_STAGE);
            && a == SourceView([0, 1], 2, map[0 := [0], 1 := [1]], [], false, false, false, false)
            && ValidSource(UNIT_BLOCKS, a) && !Gone(UNIT_BLOCKS, ONE_BLOCK, LATE_STAGE)
    ensures ValidSource(UNIT_BLOCKS, ONE_BLOCK)
    ensures IsLastStage(UNIT_BLOCKS, ONE_BLOCK) && StageBlocks(UNIT_BLOCKS, ONE_BLOCK) == [0]
            && StageTokens(UNIT_BLOCKS, ONE_BLOCK) == 1
  {
    OneTokenEach(1);
    OneTokenEach(2);
    assert [0] + [1] == [0, 1];
    assert Kept([0], true) == {};
    assert map[0 := [0]] + (map[1 := [1]] - Kept([0], true)) == map[0 := [0], 1 := [1]];
  }

  /** The migration finishes, and the destination lacks the block that came late. */
  lemma LateBlockIsMissed()
    ensures Start(UNIT_BLOCKS, ONE_BLOCK, ONE_FREE, RID)
    ensures var e := RunStages(UNIT_BLOCKS, ONE_BLOCK, ONE_FREE, RID, [LATE_STAGE]);
            && e.status == Finished && !Doomed(e.src) && e.src.table == [0, 1]
            && e.dst.preAlloc == map[RID := BlockTable([0], 1)]
  {
    LateStop();
    Nothing(ONE_BLOCK, ONE_FREE);
    var a := Asking(UNIT_BLOCKS, ONE_BLOCK, LATE_STAGE);
    var d := DestView(map[RID := BlockTable([0], 1)], [], map[0 := []]);
    OneTokenEach(1);
    assert [0][..1] == [0] && [0][1..] == [];
    assert MigrateInPreAlloc(UNIT_BLOCKS, ONE_FREE, RID, 1, 1) == (d, [0]);
    CopyKeepsKeys(a.mem, [0], d.mem, [0]);
    QuietDelivery(a, d, d.(mem := Copy(a.mem, [0], d.mem, [0])), LATE_STAGE, true, [0], [0]);
  }

  const TWO_BLOCKS := SourceView([0, 1], 2, map[0 := [0], 1 := [1]], [], true, false, false, false)

  /** Two quiet stages; the first takes the last free block. */
  const FIRST_STAGE := Stage(Stay(2), Keep([0]), Stay(2), Keep([]), Stay(2), Keep([]))
  const SECOND_STAGE := Stage(Stay(2), Keep([]), Stay(2), Keep([]), Stay(2), Keep([]))

  /** The two sides between these stages. */
  const BETWEEN := TWO_BLOCKS.(sent := [1])
  const FULL := DestView(map[RID := BlockTable([0], 1)], [], map[0 := [0]])

  lemma FirstReading()
    ensures ValidSource(UNIT_BLOCKS, TWO_BLOCKS)
    ensures !IsLastStage(UNIT_BLOCKS, TWO_BLOCKS)
    ensures StageBlocks(UNIT_BLOCKS, TWO_BLOCKS) == [0] && StageTokens(UNIT_BLOCKS, TWO_BLOCKS) == 1
  {
    OneTokenEach(2);
    assert [0, 1][0..] == [0, 1] && [0, 1][..1] == [0];
  }

  lemma SecondReading()
    ensures IsLastStage(UNIT_BLOCKS, BETWEEN) && !Gone(UNIT_BLOCKS, BETWEEN, SECOND_STAGE)
    ensures Asking(UNIT_BLOCKS, BETWEEN, SECOND_STAGE) == BETWEEN.(running := false)
    ensures StageBlocks(UNIT_BLOCKS, BETWEEN) == [1] && StageTokens(UNIT_BLOCKS, BETWEEN) == 1
  {
    FirstReading();
    Nothing(BETWEEN, FULL);
    assert Sum([1]) == 1 + Sum([1][1..]);
    assert [0, 1][1..] == [1];
  }

  lemma Reservations()
    ensures MigrateInPreAlloc(UNIT_BLOCKS, ONE_FREE, RID, 1, 1) == (FULL.(mem := map[0 := []]), [0])
    ensures MigrateInPreAlloc(UNIT_BLOCKS, FULL, RID, 1, 1) == (FULL, [0])
  {
    OneTokenEach(1);
    assert [0][..1] == [0] && [0][1..] == [] && FULL.free[0..] == [];
    assert map[RID := BlockTable([0], 1)][RID := BlockTable([0], 1)] == FULL.preAlloc;
  }

  lemma CopyOne(src: Memory<Content>, from: int, dst: Memory<Content>, to: int)
    requires from in src
    ensures Copy(src, [from], dst, [to]) == dst[to := src[from]]
  {
    assert [from][..0] == [] && [to][..0] == [];
  }

  lemma FirstStageRuns()
    ensures RunStage(UNIT_BLOCKS, TWO_BLOCKS, ONE_FREE, RID, FIRST_STAGE) == StageResult(Continue, BETWEEN, FULL, [0])
  {
    FirstReading();
    Reservations();
    Nothing(TWO_BLOCKS, ONE_FREE);
    var d := FULL.(mem := map[0 := []]);
    CopyOne(TWO_BLOCKS.mem, 0, d.mem, 0);
    assert map[0 := []][0 := [0]] == map[0 := [0]];
    QuietDelivery(TWO_BLOCKS, d, FULL, FIRST_STAGE, false, [0], [0]);
  }

  lemma SecondStageRuns()
    ensures RunStage(UNIT_BLOCKS, BETWEEN, FULL, RID, SECOND_STAGE) ==
            StageResult(Finished, BETWEEN.(sent := [1, 1], running := false), FULL.(mem := map[0 := [1]]), [1])
  {
    FirstReading();
    SecondReading();
    Reservations();
    var a := BETWEEN.(running := false);
    Nothing(a, FULL);
    CopyOne(a.mem, 1, FULL.mem, 0);
    assert map[0 := [0]][0 := [1]] == map[0 := [1]];
    QuietDelivery(a, FULL, FULL.(mem := map[0 := [1]]), SECOND_STAGE, true, [1], [0]);
    assert [1] + [1] == [1, 1];
  }

  /** The migration finishes although block 1 was written over block 0. */
  lemma SkippedRoomIsOverwritten()
    ensures Start(UNIT_BLOCKS, TWO_BLOCKS, ONE_FREE, RID)
    ensures var e := RunStages(UNIT_BLOCKS, TWO_BLOCKS, ONE_FREE, RID, [FIRST_STAGE, SECOND_STAGE]);
            && e.status == Finished && !Doomed(e.src) && e.src.table == [0, 1]
            && e.dst.preAlloc == map[RID := BlockTable([0], 1)] && e.dst.mem == map[0 := [1]]
  {
    FirstReading();
    FirstStageRuns();
    SecondStageRuns();
    TwoStages(FIRST_STAGE, SECOND_STAGE);
  }

  lemma TwoStages(first: Stage, second: Stage)
    requires RunStage(UNIT_BLOCKS, TWO_BLOCKS, ONE_FREE, RID, first).status == Continue
    ensures var r := RunStage(UNIT_BLOCKS, TWO_BLOCKS, ONE_FREE, RID, first);
            RunStages(UNIT_BLOCKS, TWO_BLOCKS, ONE_FREE, RID, [first, second]) ==
            Behind([r.moved], RunStages(UNIT_BLOCKS, r.src, r.dst, RID, [second]))
  {
    assert [first, second][1..] == [second];
  }
}
