/**
 When a live migration gets to its end
 (llumnix/llumlet/migration_coordinator.py:90-177): an undisturbed one reaches its
 last stage exactly when the request slows down, because every other stage leaves
 one block and what was appended meanwhile.
 */
module Convergence {
  import opened Prelude
  import opened LiveMigration

  /** The request neither ends nor is preempted. */
  predicate Quiet(m: SourceMove) {
    !m.ends && !m.loses
  }

  predicate QuietStage(stage: Stage) {
    Quiet(stage.stopping) && Quiet(stage.allocating) && Quiet(stage.sending)
  }

  /** The request ends, or is preempted while it runs, before the reply is back; or it is not running when stopped. */
  predicate Interrupted(cfg: Config, v: SourceView, stage: Stage) {
    || Doomed(v) || stage.allocating.ends
    || (if IsLastStage(cfg, v) then !v.running || stage.stopping.ends || stage.stopping.loses
        else v.running && stage.allocating.loses)
  }

  /**
   A stage in which the request ends or is preempted before the reply is back neither
   finishes nor goes on; an early one is also given up when that happens while the
   blocks are sent. Nothing is counted as sent before the reply.
   */
  lemma InterruptedStageAborts(cfg: Config, v: SourceView, d: DestView, rid: RequestId, stage: Stage)
    requires Interrupted(cfg, v, stage)
    ensures var r := RunStage(cfg, v, d, rid, stage);
            (r.status == AbortedSrc || r.status == AbortedDst) && r.moved == [] && r.src.sent == v.sent
  {
    if !Doomed(v) && !Gone(cfg, v, stage) {
      var a := Asking(cfg, v, stage);
      DoomedStays(cfg, a, stage.allocating);
      InterruptedAsk(cfg, a, DestAfter(d, rid, stage.arriving), rid, stage, IsLastStage(cfg, v), StageBlocks(cfg, v),
                     StageTokens(cfg, v));
    }
  }

  lemma DoomedStays(cfg: Config, v: SourceView, m: SourceMove)
    ensures Doomed(v) || m.ends || (v.running && m.loses) ==> Doomed(SourceAfter(cfg, v, m))
  {
  }

  lemma InterruptedAsk(cfg: Config, a: SourceView, d: DestView, rid: RequestId, stage: Stage, isLast: bool,
                       blocks: seq<int>, tokens: nat)
    requires Doomed(SourceAfter(cfg, a, stage.allocating))
    ensures var r := AskAt(cfg, a, d, rid, stage, isLast, blocks, tokens);
            (r.status == AbortedSrc || r.status == AbortedDst) && r.moved == [] && r.src.sent == a.sent
  {
  }

  /** A request that has ended, or does not run any more when it is stopped, is given up at the source. */
  lemma GoneStageAborts(cfg: Config, v: SourceView, d: DestView, rid: RequestId, stage: Stage)
    requires Doomed(v) || (IsLastStage(cfg, v) && (!v.running || stage.stopping.ends))
    ensures RunStage(cfg, v, d, rid, stage).status == AbortedSrc
  {
  }

  lemma InterruptedSendingAborts(cfg: Config, v: SourceView, d: DestView, rid: RequestId, stage: Stage)
    requires !IsLastStage(cfg, v) && (stage.sending.ends || (v.running && stage.sending.loses))
    ensures RunStage(cfg, v, d, rid, stage).status != Continue && RunStage(cfg, v, d, rid, stage).status != Finished
  {
  }

  /** When the destination is asked for n blocks it has them, and the table is not as long as the sliding window. */
  predicate HasRoom(cfg: Config, d: DestView, rid: RequestId, n: nat) {
    && (if rid in d.preAlloc then n <= |d.free| else |d.free| - n >= cfg.watermark)
    && cfg.slidingWindow != Some(|Mine(d, rid)| + n)
  }

  /** At every stage that is reached the destination has room. */
  predicate RoomThroughout(cfg: Config, v: SourceView, d: DestView, rid: RequestId, script: seq<Stage>)
    decreases |script|
  {
    script == [] ||
    var r := RunStage(cfg, v, d, rid, script[0]);
    && HasRoom(cfg, DestAfter(d, rid, script[0].arriving), rid, |StageBlocks(cfg, v)|)
    && (r.status == Continue ==> RoomThroughout(cfg, r.src, r.dst, rid, script[1..]))
  }

  /** The blocks appended to the table while a stage ran. */
  function Growth(v: SourceView, r: StageResult): int {
    |r.src.table| - |v.table|
  }

  predicate SlowsDown(cfg: Config, v: SourceView, r: StageResult) {
    Growth(v, r) < cfg.lastStageMaxBlocks || r.src.blocking
  }

  /** During some stage that has a successor the table grows by less than the limit, or the request turns blocking. */
  predicate SomeStageSlow(cfg: Config, v: SourceView, d: DestView, rid: RequestId, script: seq<Stage>)
    decreases |script|
  {
    && |script| >= 2
    && var r := RunStage(cfg, v, d, rid, script[0]);
       SlowsDown(cfg, v, r) || SomeStageSlow(cfg, r.src, r.dst, rid, script[1..])
  }

  /** During the stage fewer blocks than the limit are appended. */
  predicate AppendsFew(cfg: Config, stage: Stage) {
    |stage.allocating.more| + |stage.sending.more| < cfg.lastStageMaxBlocks
  }

  /** With room the reply has as many blocks as were asked for. */
  lemma RoomIsGranted(cfg: Config, d: DestView, rid: RequestId, n: nat, tokens: nat)
    requires n > 0 && Blocks(tokens, cfg.blockSize) == n && HasRoom(cfg, d, rid, n)
    requires rid in d.preAlloc ==> Full(d.preAlloc[rid], cfg.blockSize)
    ensures |MigrateInPreAlloc(cfg, d, rid, n, tokens).1| == n
  {
    TableShape(cfg, d, rid, n, tokens);
    if rid !in d.preAlloc {
      assert TableFor(cfg, d, rid, n, tokens).ids == d.free[..n];
    }
  }

  lemma QuietGrowth(cfg: Config, v: SourceView, m: SourceMove)
    requires Quiet(m) && !Doomed(v)
    ensures var w := SourceAfter(cfg, v, m);
            !Doomed(w) && w.running == v.running && w.sent == v.sent && |v.table| <= |w.table| <= |v.table| + |m.more|
  {
  }

  /** An undisturbed stage with room ends as its number of unsent blocks says. */
  lemma QuietStatus(cfg: Config, v: SourceView, d: DestView, rid: RequestId, stage: Stage, sent: nat, skipped: nat)
    requires cfg.lastStageMaxBlocks >= 1 && BetweenStages(cfg, v, d, rid, sent, skipped) && QuietStage(stage)
    requires HasRoom(cfg, DestAfter(d, rid, stage.arriving), rid, |StageBlocks(cfg, v)|)
    ensures RunStage(cfg, v, d, rid, stage).status == if IsLastStage(cfg, v) then Finished else Continue
    ensures !IsLastStage(cfg, v) ==>
              Growth(v, RunStage(cfg, v, d, rid, stage)) <= |stage.allocating.more| + |stage.sending.more|
  {
    QuietGrowth(cfg, v, stage.stopping);
    var a := Asking(cfg, v, stage);
    ReadKeeps(cfg, v, d, rid, stage, sent, skipped);
    DestGoesOn(d, rid, stage.arriving);
    QuietAsk(cfg, a, DestAfter(d, rid, stage.arriving), rid, stage, IsLastStage(cfg, v), StageBlocks(cfg, v),
             StageTokens(cfg, v));
  }

  lemma QuietAsk(cfg: Config, a: SourceView, d: DestView, rid: RequestId, stage: Stage, isLast: bool, blocks: seq<int>,
                 tokens: nat)
    requires QuietStage(stage) && !Doomed(a) && blocks != [] && Blocks(tokens, cfg.blockSize) == |blocks|
    requires HasRoom(cfg, d, rid, |blocks|) && (rid in d.preAlloc ==> Full(d.preAlloc[rid], cfg.blockSize))
    ensures var r := AskAt(cfg, a, d, rid, stage, isLast, blocks, tokens);
            && r.status == (if isLast then Finished else Continue)
            && |r.src.table| <= |a.table| + |stage.allocating.more| + |stage.sending.more|
  {
    RoomIsGranted(cfg, d, rid, |blocks|, tokens);
    QuietGrowth(cfg, a, stage.allocating);
    var w := SourceAfter(cfg, a, stage.allocating);
    QuietGrowth(cfg, w.(sent := w.sent + [|blocks|]), stage.sending);
  }

  lemma StageMoves(cfg: Config, v: SourceView, d: DestView, rid: RequestId, stage: Stage)
    requires RunStage(cfg, v, d, rid, stage).status == Continue
    ensures !IsLastStage(cfg, v) && RunStage(cfg, v, d, rid, stage).moved == StageBlocks(cfg, v)
  {
  }

  /** What a stage that is not the last one leaves unsent: one block, and what was appended meanwhile. */
  lemma LeftUnsent(cfg: Config, v: SourceView, d: DestView, r: StageResult, rid: RequestId, sent: nat, skipped: nat)
    requires cfg.lastStageMaxBlocks >= 1 && Sum(v.sent) == sent < |v.table|
    requires !IsLastStage(cfg, v) && r.moved == StageBlocks(cfg, v) && Continued(cfg, v, r, rid, sent, skipped)
    ensures BetweenStages(cfg, r.src, r.dst, rid, |v.table| - 1, skipped)
    ensures |Unsent(r.src)| == 1 + Growth(v, r)
    ensures IsLastStage(cfg, r.src) <==> SlowsDown(cfg, v, r)
  {
    assert |v.table| - 1 == sent + |r.moved|;
  }

  /** How an undisturbed migration with room ends. */
  predicate EndsRight(cfg: Config, v: SourceView, d: DestView, rid: RequestId, script: seq<Stage>) {
    RunStages(cfg, v, d, rid, script).status ==
    if script != [] && (IsLastStage(cfg, v) || SomeStageSlow(cfg, v, d, rid, script)) then Finished else AbortedSrc
  }

  lemma OneStageFurther(cfg: Config, v: SourceView, d: DestView, rid: RequestId, script: seq<Stage>, r: StageResult)
    requires script != [] && r == RunStage(cfg, v, d, rid, script[0]) && r.status == Continue && !IsLastStage(cfg, v)
    requires IsLastStage(cfg, r.src) <==> SlowsDown(cfg, v, r)
    requires EndsRight(cfg, r.src, r.dst, rid, script[1..])
    ensures EndsRight(cfg, v, d, rid, script)
  {
  }

  /** Between two stages, whatever has been sent so far. */
  ghost predicate Underway(cfg: Config, v: SourceView, d: DestView, rid: RequestId) {
    cfg.lastStageMaxBlocks >= 1 && exists sent: nat, skipped: nat :: BetweenStages(cfg, v, d, rid, sent, skipped)
  }

  lemma QuietStepAt(cfg: Config, v: SourceView, d: DestView, r: StageResult, rid: RequestId, stage: Stage,
                    sent: nat, skipped: nat)
    requires cfg.lastStageMaxBlocks >= 1 && BetweenStages(cfg, v, d, rid, sent, skipped) && QuietStage(stage)
    requires HasRoom(cfg, DestAfter(d, rid, stage.arriving), rid, |StageBlocks(cfg, v)|)
    requires r == RunStage(cfg, v, d, rid, stage)
    ensures r.status == if IsLastStage(cfg, v) then Finished else Continue
    ensures !IsLastStage(cfg, v) ==>
              && Underway(cfg, r.src, r.dst, rid)
              && (IsLastStage(cfg, r.src) <==> SlowsDown(cfg, v, r))
              && (AppendsFew(cfg, stage) ==> IsLastStage(cfg, r.src))
  {
    QuietStatus(cfg, v, d, rid, stage, sent, skipped);
    if !IsLastStage(cfg, v) {
      StageKeeps(cfg, v, d, rid, stage, sent, skipped);
      StageMoves(cfg, v, d, rid, stage);
      LeftUnsent(cfg, v, d, r, rid, sent, skipped + Short(d, rid, stage, |r.moved|));
    }
  }

  /** An undisturbed stage with room: its status, and what it leaves to the next one. */
  lemma QuietStep(cfg: Config, v: SourceView, d: DestView, rid: RequestId, script: seq<Stage>) returns (r: StageResult)
    requires Underway(cfg, v, d, rid) && script != [] && QuietStage(script[0]) && RoomThroughout(cfg, v, d, rid, script)
    ensures r == RunStage(cfg, v, d, rid, script[0])
    ensures r.status == if IsLastStage(cfg, v) then Finished else Continue
    ensures !IsLastStage(cfg, v) ==>
              && Underway(cfg, r.src, r.dst, rid)
              && (IsLastStage(cfg, r.src) <==> SlowsDown(cfg, v, r))
              && (AppendsFew(cfg, script[0]) ==> IsLastStage(cfg, r.src))
              && RoomThroughout(cfg, r.src, r.dst, rid, script[1..])
  {
    var sent: nat, skipped: nat :| BetweenStages(cfg, v, d, rid, sent, skipped);
    r := RunStage(cfg, v, d, rid, script[0]);
    QuietStepAt(cfg, v, d, r, rid, script[0], sent, skipped);
  }

  /**
   An undisturbed migration with room finishes if and only if it starts with few enough
   blocks, or slows down in some stage that has a successor. Otherwise it uses up its
   stages and gives up.
   */
  lemma {:induction false} FinishesWhenSlow(cfg: Config, v: SourceView, d: DestView, rid: RequestId, script: seq<Stage>)
    requires Underway(cfg, v, d, rid) && RoomThroughout(cfg, v, d, rid, script)
    requires forall i :: 0 <= i < |script| ==> QuietStage(script[i])
    ensures EndsRight(cfg, v, d, rid, script)
    decreases |script|
  {
    if script == [] {
    } else {
      var r := QuietStep(cfg, v, d, rid, script);
      if !IsLastStage(cfg, v) {
        FinishesWhenSlow(cfg, r.src, r.dst, rid, script[1..]);
        OneStageFurther(cfg, v, d, rid, script, r);
      }
    }
  }

  lemma LastStageFinishes(cfg: Config, v: SourceView, d: DestView, rid: RequestId, script: seq<Stage>)
    requires Underway(cfg, v, d, rid) && RoomThroughout(cfg, v, d, rid, script)
    requires script != [] && QuietStage(script[0]) && IsLastStage(cfg, v)
    ensures var e := RunStages(cfg, v, d, rid, script);
            e.status == Finished && |e.stages| == 1
  {
    var r := QuietStep(cfg, v, d, rid, script);
  }

  /** If the first stage appends fewer blocks than the limit, the second one finishes, unless the first one has. */
  lemma SecondStageFinishes(cfg: Config, v: SourceView, d: DestView, rid: RequestId, script: seq<Stage>)
    requires Underway(cfg, v, d, rid) && RoomThroughout(cfg, v, d, rid, script)
    requires |script| >= 2 && QuietStage(script[0]) && QuietStage(script[1]) && AppendsFew(cfg, script[0])
    ensures var e := RunStages(cfg, v, d, rid, script);
            e.status == Finished && |e.stages| == if IsLastStage(cfg, v) then 1 else 2
  {
    if IsLastStage(cfg, v) {
      LastStageFinishes(cfg, v, d, rid, script);
    } else {
      var r := QuietStep(cfg, v, d, rid, script);
      LastStageFinishes(cfg, r.src, r.dst, rid, script[1..]);
    }
  }

  /** A migration that starts is underway. */
  lemma StartIsUnderway(cfg: Config, v: SourceView, d: DestView, rid: RequestId)
    requires cfg.lastStageMaxBlocks >= 1 && Start(cfg, v, d, rid)
    ensures Underway(cfg, v, d, rid)
  {
    assert BetweenStages(cfg, v, d, rid, 0, 0);
  }
}
