/**
 What the retry loop around a handover comes to
 (llumnix/manager.py:980-1027): a failed attempt is cleaned up and followed by
 another one, a second failure ends the loop, and an attempt after a failure is as
 good as the first one.
 */
module HandoverRetry {
  import opened Prelude
  import opened Coordinator
  import opened Handover

  /** One call of the driver. */
  ghost predicate Drives(sys: System, snapshot: Snapshot, next: System) {
    Good(sys) && ForKey(snapshot, sys.key) && next == Drive(sys, snapshot) && Good(next) && next.key == sys.key
  }

  ghost function Calls(snapshot: Snapshot): (System, System) -> bool {
    (sys, next) => Drives(sys, snapshot, next)
  }

  lemma {:induction false} DriveManyLeads(sys: System, snapshot: Snapshot, n: nat) returns (path: seq<System>)
    requires Good(sys) && ForKey(snapshot, sys.key)
    ensures Leads(path, Calls(snapshot), sys, n, DriveMany(sys, snapshot, n))
    decreases n
  {
    if n == 0 {
      LeadsNowhere(Calls(snapshot), sys);
      path := [sys];
    } else {
      var next := OneCall(sys, snapshot, n - 1);
      var rest := DriveManyLeads(next, snapshot, n - 1);
      LeadsOneMore(sys, rest, Calls(snapshot), next, n - 1, DriveMany(sys, snapshot, n));
      path := [sys] + rest;
    }
  }

  lemma OneCall(sys: System, snapshot: Snapshot, n: nat) returns (next: System)
    requires Good(sys) && ForKey(snapshot, sys.key)
    ensures Drives(sys, snapshot, next) && DriveMany(sys, snapshot, n + 1) == DriveMany(next, snapshot, n)
  {
    DriveManyStep(sys, snapshot, n);
    next := Drive(sys, snapshot);
  }

  // ------------------------------------------------------------------
  // The end of an attempt

  lemma FirstCleanupCall(sys: System, snapshot: Snapshot) returns (next: System)
    requires Good(sys) && ForKey(snapshot, sys.key) && sys.phase.AbortTarget?
    ensures Drives(sys, snapshot, next)
    ensures next == sys.(dst := Abort(sys.dst, sys.Id(), sys.key.epoch).0, phase := DropTarget)
  {
    DriveKeepsGood(sys, snapshot);
    next := Drive(sys, snapshot);
  }

  lemma SecondCleanupCall(sys: System, snapshot: Snapshot) returns (next: System)
    requires Good(sys) && ForKey(snapshot, sys.key) && sys.phase.DropTarget?
    ensures Drives(sys, snapshot, next)
    ensures next == sys.(dst := AbortMigrated(sys.dst, sys.Id()), phase := AbortSource)
  {
    DriveKeepsGood(sys, snapshot);
    next := Drive(sys, snapshot);
  }

  lemma ThirdCleanupCall(sys: System, snapshot: Snapshot) returns (next: System)
    requires Good(sys) && ForKey(snapshot, sys.key) && sys.phase.AbortSource?
    ensures Drives(sys, snapshot, next) && sys.attempt < 2
    ensures next == sys.(src := Abort(sys.src, sys.Id(), sys.key.epoch).0, attempt := sys.attempt + 1,
                         phase := if sys.attempt == 0 then Ready else GaveUp)
  {
    DriveKeepsGood(sys, snapshot);
    next := Drive(sys, snapshot);
  }

  /** Both sides cleaned up, and after the first attempt a second one to come, after the second one none. */
  ghost predicate AttemptOver(before: System, after: System) {
    && after == Cleanup(before).(phase := after.phase, attempt := after.attempt)
    && (before.attempt == 0 ==> after.phase == Ready && after.attempt == 1)
    && (before.attempt == 1 ==> after.phase == GaveUp && after.attempt == 2)
  }

  lemma FourStates<T(!new)>(step: (T, T) -> bool, zero: T, one: T, two: T, three: T) returns (path: seq<T>)
    requires step(zero, one) && step(one, two) && step(two, three)
    ensures Leads(path, step, zero, 3, three)
  {
    LeadsNowhere(step, three);
    LeadsOneMore(two, [three], step, three, 0, three);
    LeadsOneMore(one, [two] + [three], step, two, 1, three);
    LeadsOneMore(zero, [one] + ([two] + [three]), step, one, 2, three);
    path := [zero] + ([one] + ([two] + [three]));
  }

  lemma CleanupEndsAttempt(sys: System, snapshot: Snapshot) returns (path: seq<System>, last: System)
    requires Good(sys) && ForKey(snapshot, sys.key) && sys.phase.AbortTarget?
    ensures Leads(path, Calls(snapshot), sys, 3, last) && AttemptOver(sys, last) && Good(last)
  {
    var one := FirstCleanupCall(sys, snapshot);
    var two := SecondCleanupCall(one, snapshot);
    last := ThirdCleanupCall(two, snapshot);
    path := FourStates(Calls(snapshot), sys, one, two, last);
  }

  /** What a call of the driver, and a failed one, leaves alone. */
  ghost predicate SameHandover(sys: System, next: System) {
    && next.payload == sys.payload && next.key == sys.key && next.digests == sys.digests
    && next.dst.snapshots == sys.dst.snapshots
  }

  predicate CallsTarget(phase: Phase) {
    phase.Prepared? || phase.Sent? || phase.Received? || phase.AbortTarget? || phase.DropTarget?
  }

  lemma SourceCallSparesTarget(sys: System, snapshot: Snapshot)
    requires ExportsBacked(sys.src.states, sys.src.snapshots, sys.src.sourceBlocks) && !CallsTarget(sys.phase)
    ensures Drive(sys, snapshot).dst == sys.dst
  {
  }

  lemma TargetCallSparesSnapshots(sys: System, snapshot: Snapshot)
    requires ExportsBacked(sys.src.states, sys.src.snapshots, sys.src.sourceBlocks) && CallsTarget(sys.phase)
    ensures Drive(sys, snapshot).dst.snapshots == sys.dst.snapshots
  {
    match sys.phase
    case Prepared(prepared) => ReserveSpares(sys.digests, sys.dst, prepared);
    case Sent(r, blocks) => ImportSpares(sys.digests, sys.dst, r, blocks);
    case AbortTarget => AbortSpares(sys.dst, sys.Id(), sys.key.epoch);
    case _ =>
  }

  lemma ReserveSpares(digests: Digests, c: Core, s: Snapshot)
    ensures Reserve(digests, c, s).0.snapshots == c.snapshots
  {
  }

  lemma ImportSpares(digests: Digests, c: Core, r: Reservation, blocks: seq<KVBlock>)
    ensures Import(digests, c, r, blocks).0.snapshots == c.snapshots
  {
  }

  lemma AbortSpares(c: Core, id: RequestId, epoch: int)
    ensures Abort(c, id, epoch).0.snapshots == c.snapshots
  {
  }

  /** Neither a call of the driver nor cleanup writes the target's outgoing snapshots. */
  lemma DriveKeepsTargetSnapshots(sys: System, snapshot: Snapshot)
    requires ExportsBacked(sys.src.states, sys.src.snapshots, sys.src.sourceBlocks)
    ensures Drive(sys, snapshot).dst.snapshots == sys.dst.snapshots
  {
    if CallsTarget(sys.phase) {
      TargetCallSparesSnapshots(sys, snapshot);
    } else {
      SourceCallSparesTarget(sys, snapshot);
    }
  }

  lemma CleanupKeepsTargetSnapshots(sys: System)
    ensures Cleanup(sys).dst.snapshots == sys.dst.snapshots
  {
    AbortSpares(sys.dst, sys.Id(), sys.key.epoch);
  }

  lemma FailureStays(sys: System, snapshot: Snapshot, applied: bool) returns (failed: System)
    requires Good(sys) && Enabled(sys, Fail(snapshot, applied))
    ensures failed == Next(sys, Fail(snapshot, applied)) && Good(failed) && failed.phase.AbortTarget?
    ensures SameHandover(sys, failed) && failed.attempt == sys.attempt < 2
  {
    FailKeepsGood(sys, snapshot, applied);
    DriveKeepsTargetSnapshots(sys, snapshot);
    failed := Next(sys, Fail(snapshot, applied));
  }

  /**
   A failure of any call before the source commits, taken effect or not, is followed by
   cleanup and then by a second attempt; if it was the second attempt, by none.
   */
  lemma FailureEndsAttempt(sys: System, snapshot: Snapshot, applied: bool) returns (path: seq<System>, last: System)
    requires Good(sys) && Enabled(sys, Fail(snapshot, applied))
    ensures Leads(path, Calls(snapshot), Next(sys, Fail(snapshot, applied)), 3, last)
    ensures last.attempt == sys.attempt + 1 && last.phase == (if sys.attempt == 0 then Ready else GaveUp)
    ensures Good(last) && SameHandover(sys, last)
  {
    var failed := FailureStays(sys, snapshot, applied);
    path, last := CleanupEndsAttempt(failed, snapshot);
    CleanupKeepsTargetSnapshots(failed);
  }

  lemma RefusalStays(sys: System, snapshot: Snapshot) returns (refused: System)
    requires Good(sys) && ForKey(snapshot, sys.key) && Forward(sys.phase) && Drive(sys, snapshot).phase.AbortTarget?
    ensures Drives(sys, snapshot, refused) && refused.phase.AbortTarget? && refused.attempt == sys.attempt < 2
  {
    DriveKeepsGood(sys, snapshot);
    refused := Drive(sys, snapshot);
  }

  /** The same for a call that is refused instead of failing. */
  lemma RefusalEndsAttempt(sys: System, snapshot: Snapshot) returns (path: seq<System>, last: System)
    requires Good(sys) && ForKey(snapshot, sys.key) && Forward(sys.phase) && Drive(sys, snapshot).phase.AbortTarget?
    ensures Leads(path, Calls(snapshot), sys, 4, last) && last.attempt == sys.attempt + 1
    ensures last.phase == if sys.attempt == 0 then Ready else GaveUp
  {
    var refused := RefusalStays(sys, snapshot);
    var rest;
    rest, last := CleanupEndsAttempt(refused, snapshot);
    LeadsOneMore(sys, rest, Calls(snapshot), refused, 3, last);
    path := [sys] + rest;
  }

  // ------------------------------------------------------------------
  // The second attempt

  lemma ReadyIsClean(sys: System)
    requires Good(sys) && sys.phase == Ready && NoStaleSnapshot(sys.dst, sys.key)
    ensures sys.key !in sys.dst.reservations
  {
  }

  lemma AttemptFinishes(sys: System, snapshot: Snapshot) returns (path: seq<System>, last: System)
    requires Good(sys) && ForKey(snapshot, sys.key) && sys.phase == Ready
    requires Deliverable(sys.digests, snapshot, sys.payload) && NoStaleSnapshot(sys.dst, sys.key)
    ensures Leads(path, Calls(snapshot), sys, 8, last) && last.phase.Finished?
  {
    ReadyIsClean(sys);
    UndisturbedHandoverCompletes(sys, snapshot, 8);
    path := DriveManyLeads(sys, snapshot, 8);
    last := DriveMany(sys, snapshot, 8);
  }

  /** After a first failure, whatever it was, a second attempt that is left alone completes the handover. */
  lemma SecondAttemptCompletes(sys: System, snapshot: Snapshot, applied: bool)
    returns (path: seq<System>, last: System)
    requires Good(sys) && Enabled(sys, Fail(snapshot, applied)) && sys.attempt == 0
    requires Deliverable(sys.digests, snapshot, sys.payload) && NoStaleSnapshot(sys.dst, sys.key)
    ensures Leads(path, Calls(snapshot), Next(sys, Fail(snapshot, applied)), 11, last) && last.phase.Finished?
  {
    var first, again := FailureEndsAttempt(sys, snapshot, applied);
    var second;
    second, last := AttemptFinishes(again, snapshot);
    LeadsFurther(first, second, Calls(snapshot), Next(sys, Fail(snapshot, applied)), 3, again, 8, last);
    path := first + second[1..];
  }

  /**
   What a failed call may have left behind: the call to commit the target may or may
   not have committed it, the reservation may or may not have been made, and the
   source's blocks may or may not have been exported.
   */
  lemma FailureMayHaveTakenEffect(sys: System, snapshot: Snapshot, applied: bool)
    requires Good(sys) && Enabled(sys, Fail(snapshot, applied))
    ensures var failed := Next(sys, Fail(snapshot, applied));
            && (sys.phase.Received? ==> failed.T() == Some(if applied then Running else ImportReady))
            && (sys.phase.Reserving? ==> failed.S() == Some(if applied then OutReady else MigratingOut))
            && (sys.phase.Prepared? && CleanAt(sys.dst, sys.key) ==> (sys.key in failed.dst.reservations <==> applied))
  {
  }

  /**
   What can happen when: every one of the seven calls up to the source commit may fail,
   before taking effect and, but for the source commit, after it; calls for other
   requests may come at any time, and the request decodes whenever it runs at the source.
   */
  lemma EventsAreEnabled(sys: System, snapshot: Snapshot, applied: bool, call: Call, blocks: seq<KVBlock>)
    ensures ForKey(snapshot, sys.key) && 0 <= Progress(sys.phase) <= 6 && (sys.phase.Registered? ==> !applied) ==>
              Enabled(sys, Fail(snapshot, applied))
    ensures ForKey(snapshot, sys.key) ==> Enabled(sys, Advance(snapshot))
    ensures call.Id() != sys.Id() ==> Enabled(sys, SourceCall(call)) && Enabled(sys, TargetCall(call))
    ensures sys.S() == Some(Running) ==> Enabled(sys, Decode(blocks))
  {
  }

  /** Decoding changes the blocks that a handover has to deliver, and the source holds the new ones. */
  lemma DecodingChangesBlocks(sys: System, blocks: seq<KVBlock>)
    requires Good(sys) && Enabled(sys, Decode(blocks))
    ensures var next := Next(sys, Decode(blocks));
            next.payload == blocks && SourceHolds(next) && next.dst == sys.dst && next.phase == sys.phase
  {
    DecodeFits(sys, blocks);
  }
}
