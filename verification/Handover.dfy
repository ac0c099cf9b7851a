/**
 One request handed from a source coordinator to a target coordinator in the
 Manager's order (llumnix/manager.py:980-1078), with a failure possible at every
 call, target-first cleanup (llumnix/manager.py:1141-1153), a second attempt at
 the same epoch, and unrelated calls on both coordinators at every point.
 */
module Handover {
  import opened Prelude
  import opened Coordinator

  const MAX_ATTEMPTS := 2

  /** What the driver will call next. */
  datatype Phase =
    | Ready
    | Prepared(snapshot: Snapshot)
    | Reserving(reservation: Reservation)
    | Sent(reservation: Reservation, blocks: seq<KVBlock>)
    | Received(reservation: Reservation)
    | TargetLive
    | Registered
    | SourceFreed
    | Finished
    | AbortTarget
    | DropTarget
    | AbortSource
    | GaveUp

  datatype System = System(
    digests: Digests,
    key: MigrationKey,
    src: Core,
    dst: Core,
    phase: Phase,
    attempt: nat,
    payload: seq<KVBlock>,
    issued: seq<int>)
  {
    function Id(): RequestId {
      key.requestId
    }

    function S(): Option<MigrationState> {
      StateOf(src, key.requestId)
    }

    function T(): Option<MigrationState> {
      StateOf(dst, key.requestId)
    }
  }

  /**
   Removing a request that has been committed on the target. It goes through the
   engine, not through `Abort`, which refuses a running request; that the engine then
   keeps nothing of the request, of any epoch, is assumed.
   */
  function AbortMigrated(c: Core, id: RequestId): Core {
    if StateOf(c, id) != Some(Running) then c
    else c.(states := c.states - {id},
            sourceBlocks := c.sourceBlocks - {id},
            reservations := map k | k in c.reservations && k.requestId != id :: c.reservations[k],
            imported := map k | k in c.imported && k.requestId != id :: c.imported[k])
  }

  // ------------------------------------------------------------------
  // Steps

  datatype Event =
    | Advance(snapshot: Snapshot)             // the driver's next call; the snapshot is used by the first one
    | Fail(snapshot: Snapshot, applied: bool) // the call raises, before or after taking effect
    | SourceCall(call: Call)                  // some other request, at the source
    | TargetCall(call: Call)                  // some other request, at the target
    | Decode(blocks: seq<KVBlock>)            // the request runs at the source and its blocks change

  function Fallback(sys: System, reply: Reply, next: Phase): Phase {
    if reply.Rejected? then AbortTarget else next
  }

  /** The driver's next call; a refused forward call leads to cleanup. */
  function Drive(sys: System, snapshot: Snapshot): System
    requires ExportsBacked(sys.src.states, sys.src.snapshots, sys.src.sourceBlocks)
  {
    match sys.phase
    case Ready =>
      var (src, reply) := PrepareOut(sys.digests, sys.src, snapshot, sys.payload);
      sys.(src := src, phase := Fallback(sys, reply, Prepared(snapshot)))
    case Prepared(prepared) =>
      var (dst, reply) := Reserve(sys.digests, sys.dst, prepared);
      if reply.Reserved? then
        sys.(dst := dst, phase := Reserving(reply.reservation),
             issued := sys.issued + Flatten(reply.reservation.blockIds))
      else sys.(dst := dst, phase := AbortTarget)
    case Reserving(r) =>
      var (src, reply) := Export(sys.src, sys.Id());
      if reply.Exported? then sys.(src := src, phase := Sent(r, reply.blocks))
      else sys.(src := src, phase := AbortTarget)
    case Sent(r, blocks) =>
      var (dst, reply) := Import(sys.digests, sys.dst, r, blocks);
      sys.(dst := dst, phase := Fallback(sys, reply, Received(r)))
    case Received(r) =>
      var (dst, reply) := CommitIn(sys.dst, r);
      sys.(dst := dst, phase := Fallback(sys, reply, TargetLive))
    case TargetLive => sys.(phase := Registered)
    case Registered =>
      var (src, reply) := CommitOut(sys.src, sys.Id(), sys.key.epoch);
      sys.(src := src, phase := Fallback(sys, reply, SourceFreed))
    case SourceFreed => sys.(phase := Finished)
    case AbortTarget => sys.(dst := Abort(sys.dst, sys.Id(), sys.key.epoch).0, phase := DropTarget)
    case DropTarget => sys.(dst := AbortMigrated(sys.dst, sys.Id()), phase := AbortSource)
    case AbortSource =>
      sys.(src := Abort(sys.src, sys.Id(), sys.key.epoch).0,
           phase := if sys.attempt + 1 < MAX_ATTEMPTS then Ready else GaveUp,
           attempt := sys.attempt + 1)
    case Finished => sys
    case GaveUp => sys
  }

  function Next(sys: System, e: Event): System
    requires ExportsBacked(sys.src.states, sys.src.snapshots, sys.src.sourceBlocks)
    requires ExportsBacked(sys.dst.states, sys.dst.snapshots, sys.dst.sourceBlocks)
  {
    match e
    case Advance(snapshot) => Drive(sys, snapshot)
    case Fail(snapshot, applied) => (if applied then Drive(sys, snapshot) else sys).(phase := AbortTarget)
    case SourceCall(call) => sys.(src := Apply(sys.digests, sys.src, call).0)
    case TargetCall(call) => sys.(dst := Apply(sys.digests, sys.dst, call).0)
    case Decode(blocks) => sys.(src := sys.src.(sourceBlocks := sys.src.sourceBlocks[sys.Id() := blocks]),
                                payload := blocks)
  }

  predicate Forward(phase: Phase) {
    phase.Ready? || phase.Prepared? || phase.Reserving? || phase.Sent? || phase.Received? || phase.TargetLive? ||
    phase.Registered?
  }

  /** The snapshot is for this request at this epoch. */
  predicate ForKey(snapshot: Snapshot, key: MigrationKey) {
    MigrationKey(snapshot.fields.requestId, snapshot.fields.migrationEpoch) == key
  }

  /** Failures are those before the source has committed. */
  predicate Enabled(sys: System, e: Event) {
    match e
    case Advance(snapshot) => ForKey(snapshot, sys.key)
    case Fail(snapshot, applied) =>
      ForKey(snapshot, sys.key) && Forward(sys.phase) && !(sys.phase.Registered? && applied)
    case SourceCall(call) => call.Id() != sys.Id()
    case TargetCall(call) => call.Id() != sys.Id()
    case Decode(_) => sys.S() == Some(Running)
  }

  // ------------------------------------------------------------------
  // What every reachable state satisfies

  /** The engine has these blocks for the request, as its own or as an earlier import. */
  ghost predicate Resident(c: Core, id: RequestId, blocks: seq<KVBlock>) {
    if id in c.sourceBlocks then c.sourceBlocks[id] == blocks
    else exists k <- c.imported :: k.requestId == id && c.imported[k] == blocks
  }

  ghost predicate RunsAt(c: Core, key: MigrationKey, blocks: seq<KVBlock>) {
    StateOf(c, key.requestId) == Some(Running) && Resident(c, key.requestId, blocks)
  }

  /** The request is stopped for this migration and its blocks are kept. */
  ghost predicate FrozenAt(c: Core, key: MigrationKey, blocks: seq<KVBlock>, state: MigrationState) {
    && StateOf(c, key.requestId) == Some(state)
    && Lookup(c.sourceBlocks, key.requestId) == Some(blocks)
    && key.requestId in c.snapshots
    && c.snapshots[key.requestId].fields.migrationEpoch == key.epoch
  }

  /** Nothing of this request at this epoch. */
  ghost predicate CleanAt(c: Core, key: MigrationKey) {
    && (StateOf(c, key.requestId) == None || StateOf(c, key.requestId) == Some(Released))
    && key !in c.reservations
  }

  ghost predicate ImportingAt(c: Core, key: MigrationKey) {
    && (StateOf(c, key.requestId) == Some(Importing) || StateOf(c, key.requestId) == Some(ImportReady))
    && key in c.reservations
  }

  /** Committed on the target, with these blocks imported. */
  ghost predicate LiveAt(c: Core, key: MigrationKey, blocks: seq<KVBlock>) {
    StateOf(c, key.requestId) == Some(Running) && Lookup(c.imported, key) == Some(blocks)
  }

  ghost predicate ReservedAs(c: Core, key: MigrationKey, r: Reservation) {
    r.Key() == key && Lookup(c.reservations, key) == Some(r)
  }

  /** An older outgoing snapshot of the request on the target would make its abort fail. */
  ghost predicate NoStaleSnapshot(c: Core, key: MigrationKey) {
    key.requestId in c.snapshots ==> c.snapshots[key.requestId].fields.migrationEpoch == key.epoch
  }

  /** Nothing of this request, or an unfinished import that such a snapshot has kept from being aborted. */
  ghost predicate Idle(c: Core, key: MigrationKey) {
    CleanAt(c, key) || (!NoStaleSnapshot(c, key) && ImportingAt(c, key))
  }

  ghost predicate SourceFits(phase: Phase, c: Core, key: MigrationKey, blocks: seq<KVBlock>) {
    match phase
    case Ready => RunsAt(c, key, blocks)
    case Prepared(snapshot) => FrozenAt(c, key, blocks, MigratingOut) && c.snapshots[key.requestId] == snapshot
    case Reserving(_) => FrozenAt(c, key, blocks, MigratingOut)
    case Sent(_, sent) => FrozenAt(c, key, blocks, OutReady) && sent == blocks
    case Received(_) => FrozenAt(c, key, blocks, OutReady)
    case TargetLive => FrozenAt(c, key, blocks, OutReady)
    case Registered => FrozenAt(c, key, blocks, OutReady)
    case SourceFreed => StateOf(c, key.requestId) == Some(Released)
    case Finished => StateOf(c, key.requestId) == Some(Released)
    case GaveUp => RunsAt(c, key, blocks)
    case _ => FrozenAt(c, key, blocks, MigratingOut) || FrozenAt(c, key, blocks, OutReady) || RunsAt(c, key, blocks)
  }

  ghost predicate TargetFits(digests: Digests, phase: Phase, c: Core, key: MigrationKey, blocks: seq<KVBlock>) {
    match phase
    case Ready => Idle(c, key)
    case Prepared(snapshot) =>
      && Idle(c, key)
      && ForKey(snapshot, key)
      && Authentic(digests, snapshot)
      && |blocks| == Sum(snapshot.fields.kvGroupBlockCounts)
    case Reserving(r) =>
      StateOf(c, key.requestId) == Some(Importing) && ReservedAs(c, key, r) && BlockCount(r.blockIds) == |blocks|
    case Sent(r, _) =>
      StateOf(c, key.requestId) == Some(Importing) && ReservedAs(c, key, r) && BlockCount(r.blockIds) == |blocks|
    case Received(r) =>
      && StateOf(c, key.requestId) == Some(ImportReady)
      && ReservedAs(c, key, r)
      && Lookup(c.imported, key) == Some(blocks)
    case TargetLive => LiveAt(c, key, blocks)
    case Registered => LiveAt(c, key, blocks)
    case SourceFreed => LiveAt(c, key, blocks)
    case Finished => LiveAt(c, key, blocks)
    case AbortTarget => CleanAt(c, key) || ImportingAt(c, key) || LiveAt(c, key, blocks)
    case DropTarget => Idle(c, key) || LiveAt(c, key, blocks)
    case AbortSource => Idle(c, key)
    case GaveUp => Idle(c, key)
  }

  ghost predicate IssuedFresh(sys: System) {
    && Distinct(sys.issued)
    && forall i :: 0 <= i < |sys.issued| ==> sys.issued[i] < sys.dst.nextBlockId
  }

  ghost predicate Fits(sys: System) {
    && sys.Id() !in sys.dst.sourceBlocks
    && SourceFits(sys.phase, sys.src, sys.key, sys.payload)
    && TargetFits(sys.digests, sys.phase, sys.dst, sys.key, sys.payload)
    && (StateOf(sys.src, sys.Id()) == Some(Running) ==> Idle(sys.dst, sys.key))
    && IssuedFresh(sys)
    && (sys.attempt < MAX_ATTEMPTS || (sys.phase.GaveUp? && sys.attempt == MAX_ATTEMPTS))
  }

  ghost predicate Consistent(sys: System) {
    Inv(sys.digests, sys.src) && Inv(sys.digests, sys.dst)
  }

  ghost predicate Good(sys: System) {
    Consistent(sys) && Fits(sys)
  }

  // ------------------------------------------------------------------
  // Steps keep the invariant

  /** Everything two coordinators record about one request is the same. */
  ghost predicate SameFor(c: Core, d: Core, id: RequestId) {
    && StateOf(c, id) == StateOf(d, id)
    && Lookup(c.snapshots, id) == Lookup(d.snapshots, id)
    && Lookup(c.sourceBlocks, id) == Lookup(d.sourceBlocks, id)
    && (forall k: MigrationKey | k.requestId == id :: Lookup(c.reservations, k) == Lookup(d.reservations, k))
    && (forall k: MigrationKey | k.requestId == id :: Lookup(c.imported, k) == Lookup(d.imported, k))
  }

  lemma ReserveFrame(digests: Digests, c: Core, snapshot: Snapshot, id: RequestId)
    requires snapshot.fields.requestId != id
    ensures SameFor(c, Reserve(digests, c, snapshot).0, id)
  {
  }

  lemma ImportFrame(digests: Digests, c: Core, r: Reservation, blocks: seq<KVBlock>, id: RequestId)
    requires r.requestId != id
    ensures SameFor(c, Import(digests, c, r, blocks).0, id)
  {
  }

  lemma AbortFrame(c: Core, other: RequestId, epoch: int, id: RequestId)
    requires other != id
    ensures SameFor(c, Abort(c, other, epoch).0, id)
  {
  }

  lemma PrepareFrame(digests: Digests, c: Core, snapshot: Snapshot, blocks: seq<KVBlock>, id: RequestId)
    requires snapshot.fields.requestId != id
    ensures SameFor(c, PrepareOut(digests, c, snapshot, blocks).0, id)
  {
  }

  lemma CommitOutFrame(c: Core, other: RequestId, epoch: int, id: RequestId)
    requires ExportsBacked(c.states, c.snapshots, c.sourceBlocks)
    requires other != id
    ensures SameFor(c, CommitOut(c, other, epoch).0, id)
  {
  }

  lemma RegisterFrame(c: Core, other: RequestId, blocks: seq<KVBlock>, id: RequestId)
    requires other != id
    ensures SameFor(c, Register(c, other, blocks).0, id)
  {
  }

  lemma OtherCallsDoNotMatter(digests: Digests, c: Core, call: Call, id: RequestId)
    requires ExportsBacked(c.states, c.snapshots, c.sourceBlocks)
    requires call.Id() != id
    ensures SameFor(c, Apply(digests, c, call).0, id)
  {
    match call
    case CallReserve(snapshot) => ReserveFrame(digests, c, snapshot, id);
    case CallImport(r, blocks) => ImportFrame(digests, c, r, blocks, id);
    case CallAbort(other, epoch) => AbortFrame(c, other, epoch, id);
    case CallPrepare(snapshot, blocks) => PrepareFrame(digests, c, snapshot, blocks, id);
    case CallCommitExport(other, epoch) => CommitOutFrame(c, other, epoch, id);
    case CallRegister(other, blocks) => RegisterFrame(c, other, blocks, id);
    case _ =>
  }

  lemma SourceFitsTransfers(phase: Phase, c: Core, d: Core, key: MigrationKey, blocks: seq<KVBlock>)
    requires SourceFits(phase, c, key, blocks) && SameFor(c, d, key.requestId)
    ensures SourceFits(phase, d, key, blocks)
  {
  }

  lemma TargetFitsTransfers(digests: Digests, phase: Phase, c: Core, d: Core, key: MigrationKey, blocks: seq<KVBlock>)
    requires TargetFits(digests, phase, c, key, blocks) && SameFor(c, d, key.requestId)
    ensures TargetFits(digests, phase, d, key, blocks)
    ensures Idle(c, key) ==> Idle(d, key)
  {
  }

  lemma SourceCallKeepsGood(sys: System, call: Call)
    requires Good(sys) && call.Id() != sys.Id()
    ensures Good(Next(sys, SourceCall(call)))
  {
    CallKeepsInvariant(sys.digests, sys.src, call);
    OtherCallsDoNotMatter(sys.digests, sys.src, call, sys.Id());
    SourceFitsTransfers(sys.phase, sys.src, Next(sys, SourceCall(call)).src, sys.key, sys.payload);
  }

  lemma TargetCallKeepsGood(sys: System, call: Call)
    requires Good(sys) && call.Id() != sys.Id()
    ensures Good(Next(sys, TargetCall(call)))
  {
    CallKeepsInvariant(sys.digests, sys.dst, call);
    CallIssuesRange(sys.digests, sys.dst, call);
    OtherCallsDoNotMatter(sys.digests, sys.dst, call, sys.Id());
    var dst := Next(sys, TargetCall(call)).dst;
    TargetFitsTransfers(sys.digests, sys.phase, sys.dst, dst, sys.key, sys.payload);
    assert Lookup(dst.snapshots, sys.Id()) == Lookup(sys.dst.snapshots, sys.Id());
    assert Lookup(dst.sourceBlocks, sys.Id()) == Lookup(sys.dst.sourceBlocks, sys.Id());
  }

  lemma DecodeKeepsInvariant(digests: Digests, c: Core, id: RequestId, blocks: seq<KVBlock>)
    requires Inv(digests, c) && StateOf(c, id) == Some(Running)
    ensures Inv(digests, c.(sourceBlocks := c.sourceBlocks[id := blocks]))
  {
  }

  lemma DecodeFits(sys: System, blocks: seq<KVBlock>)
    requires Fits(sys) && sys.S() == Some(Running)
    ensures Fits(sys.(src := sys.src.(sourceBlocks := sys.src.sourceBlocks[sys.Id() := blocks]), payload := blocks))
  {
  }

  lemma AbortMigratedKeepsInvariant(digests: Digests, c: Core, id: RequestId)
    requires Inv(digests, c)
    ensures Inv(digests, AbortMigrated(c, id))
  {
  }

  lemma DriveKeepsConsistent(sys: System, snapshot: Snapshot)
    requires Consistent(sys)
    ensures Consistent(Drive(sys, snapshot))
  {
    match sys.phase
    case Ready => PrepareKeepsInvariant(sys.digests, sys.src, snapshot, sys.payload);
    case Prepared(prepared) => ReserveKeepsInvariant(sys.digests, sys.dst, prepared);
    case Reserving(_) => ExportKeepsInvariant(sys.digests, sys.src, sys.Id());
    case Sent(r, blocks) => ImportKeepsInvariant(sys.digests, sys.dst, r, blocks);
    case Received(r) => CommitInKeepsInvariant(sys.digests, sys.dst, r);
    case Registered => CommitOutKeepsInvariant(sys.digests, sys.src, sys.Id(), sys.key.epoch);
    case AbortTarget => AbortKeepsInvariant(sys.digests, sys.dst, sys.Id(), sys.key.epoch);
    case DropTarget => AbortMigratedKeepsInvariant(sys.digests, sys.dst, sys.Id());
    case AbortSource => AbortKeepsInvariant(sys.digests, sys.src, sys.Id(), sys.key.epoch);
    case _ =>
  }

  lemma AppendFresh(issued: seq<int>, lo: int, hi: int)
    requires lo <= hi
    requires Distinct(issued) && forall i :: 0 <= i < |issued| ==> issued[i] < lo
    ensures Distinct(issued + Range(lo, hi))
    ensures forall i :: 0 <= i < |issued + Range(lo, hi)| ==> (issued + Range(lo, hi))[i] < hi
  {
  }

  lemma SourceStepFits(sys: System, snapshot: Snapshot)
    requires ExportsBacked(sys.src.states, sys.src.snapshots, sys.src.sourceBlocks)
    requires Fits(sys) && ForKey(snapshot, sys.key)
    requires sys.phase.Ready? || sys.phase.Reserving? || sys.phase.Registered?
    ensures Fits(Drive(sys, snapshot))
  {
  }

  lemma ReserveStepFits(sys: System, snapshot: Snapshot)
    requires ExportsBacked(sys.src.states, sys.src.snapshots, sys.src.sourceBlocks)
    requires Fits(sys) && sys.phase.Prepared?
    ensures Fits(Drive(sys, snapshot))
  {
    var counts := sys.phase.snapshot.fields.kvGroupBlockCounts;
    AllocatedIds(sys.dst.nextBlockId, counts);
    AppendFresh(sys.issued, sys.dst.nextBlockId, sys.dst.nextBlockId + Sum(counts));
  }

  lemma TargetStepFits(sys: System, snapshot: Snapshot)
    requires ExportsBacked(sys.src.states, sys.src.snapshots, sys.src.sourceBlocks)
    requires Fits(sys)
    requires sys.phase.Sent? || sys.phase.Received? || sys.phase.TargetLive?
    ensures Fits(Drive(sys, snapshot))
  {
  }

  /** The target's abort: an unfinished import goes unless a snapshot of another epoch is in the way. */
  lemma TargetAbort(c: Core, key: MigrationKey, blocks: seq<KVBlock>)
    requires CleanAt(c, key) || ImportingAt(c, key) || LiveAt(c, key, blocks)
    ensures var d := Abort(c, key.requestId, key.epoch).0;
            && (Idle(d, key) || LiveAt(d, key, blocks)) && (CleanAt(c, key) ==> CleanAt(d, key))
            && d.snapshots == c.snapshots && d.sourceBlocks == c.sourceBlocks && d.nextBlockId == c.nextBlockId
            && (NoStaleSnapshot(c, key) ==> CleanAt(d, key) || LiveAt(d, key, blocks))
  {
  }

  lemma TargetDrop(c: Core, key: MigrationKey, blocks: seq<KVBlock>)
    requires Idle(c, key) || LiveAt(c, key, blocks)
    ensures var d := AbortMigrated(c, key.requestId);
            && Idle(d, key) && (CleanAt(c, key) || LiveAt(c, key, blocks) ==> CleanAt(d, key))
            && d.snapshots == c.snapshots && d.nextBlockId == c.nextBlockId
            && (key.requestId !in c.sourceBlocks ==> key.requestId !in d.sourceBlocks)
  {
  }

  lemma TargetCleanupFits(sys: System, snapshot: Snapshot)
    requires ExportsBacked(sys.src.states, sys.src.snapshots, sys.src.sourceBlocks)
    requires Fits(sys)
    requires sys.phase.AbortTarget? || sys.phase.DropTarget?
    ensures Fits(Drive(sys, snapshot))
  {
    if sys.phase.AbortTarget? {
      TargetAbort(sys.dst, sys.key, sys.payload);
    } else {
      TargetDrop(sys.dst, sys.key, sys.payload);
    }
  }

  lemma SourceCleanupFits(sys: System, snapshot: Snapshot)
    requires ExportsBacked(sys.src.states, sys.src.snapshots, sys.src.sourceBlocks)
    requires Fits(sys) && sys.phase.AbortSource?
    ensures Fits(Drive(sys, snapshot))
  {
    assert RunsAt(Drive(sys, snapshot).src, sys.key, sys.payload);
  }

  lemma DriveKeepsGood(sys: System, snapshot: Snapshot)
    requires Good(sys) && ForKey(snapshot, sys.key)
    ensures Good(Drive(sys, snapshot))
  {
    DriveKeepsConsistent(sys, snapshot);
    match sys.phase
    case Prepared(_) => ReserveStepFits(sys, snapshot);
    case Sent(_, _) => TargetStepFits(sys, snapshot);
    case Received(_) => TargetStepFits(sys, snapshot);
    case TargetLive => TargetStepFits(sys, snapshot);
    case AbortTarget => TargetCleanupFits(sys, snapshot);
    case DropTarget => TargetCleanupFits(sys, snapshot);
    case AbortSource => SourceCleanupFits(sys, snapshot);
    case Ready => SourceStepFits(sys, snapshot);
    case Reserving(_) => SourceStepFits(sys, snapshot);
    case Registered => SourceStepFits(sys, snapshot);
    case _ =>
  }

  lemma InterruptFits(sys: System)
    requires Fits(sys) && (Forward(sys.phase) || sys.phase.AbortTarget?)
    ensures Fits(sys.(phase := AbortTarget))
  {
  }

  lemma FailKeepsGood(sys: System, snapshot: Snapshot, applied: bool)
    requires Good(sys) && Enabled(sys, Fail(snapshot, applied))
    ensures Good(Next(sys, Fail(snapshot, applied)))
  {
    if applied {
      DriveKeepsGood(sys, snapshot);
      InterruptKeepsGood(Drive(sys, snapshot));
    } else {
      InterruptKeepsGood(sys);
    }
  }

  lemma InterruptKeepsGood(sys: System)
    requires Good(sys) && (Forward(sys.phase) || sys.phase.AbortTarget?)
    ensures Good(sys.(phase := AbortTarget))
  {
    InterruptFits(sys);
  }

  lemma StepKeepsGood(sys: System, e: Event)
    requires Good(sys) && Enabled(sys, e)
    ensures Good(Next(sys, e))
  {
    match e
    case Advance(snapshot) => DriveKeepsGood(sys, snapshot);
    case Fail(snapshot, applied) => FailKeepsGood(sys, snapshot, applied);
    case SourceCall(call) => SourceCallKeepsGood(sys, call);
    case TargetCall(call) => TargetCallKeepsGood(sys, call);
    case Decode(blocks) =>
      DecodeKeepsInvariant(sys.digests, sys.src, sys.Id(), blocks);
      DecodeFits(sys, blocks);
  }

  // ------------------------------------------------------------------
  // Whole runs

  /** The request runs at the source; the target knows nothing of it at this epoch. */
  ghost predicate Start(sys: System) {
    && sys.phase == Ready && sys.attempt == 0 && sys.issued == []
    && Consistent(sys)
    && RunsAt(sys.src, sys.key, sys.payload)
    && CleanAt(sys.dst, sys.key)
    && sys.Id() !in sys.dst.sourceBlocks
  }

  /** `last` is reached from `first` by these events, each one enabled when it happens. */
  ghost predicate Reaches(first: System, events: seq<Event>, last: System)
    requires Good(first)
    decreases |events|
  {
    if events == [] then last == first
    else
      && Enabled(first, events[0])
      && (StepKeepsGood(first, events[0]);
          Reaches(Next(first, events[0]), events[1..], last))
  }

  ghost predicate SourceHolds(sys: System) {
    && (sys.S() == Some(Running) || sys.S() == Some(MigratingOut) || sys.S() == Some(OutReady))
    && Resident(sys.src, sys.Id(), sys.payload)
  }

  ghost predicate NotRunningTwice(sys: System) {
    !(sys.S() == Some(Running) && sys.T() == Some(Running))
  }

  ghost predicate Safe(sys: System) {
    && (SourceHolds(sys) || LiveAt(sys.dst, sys.key, sys.payload))
    && NotRunningTwice(sys)
    && Distinct(sys.issued)
    && (sys.phase.Ready? || sys.phase.GaveUp? ==> RunsAt(sys.src, sys.key, sys.payload))
    && ((sys.phase.Ready? || sys.phase.GaveUp?) && NoStaleSnapshot(sys.dst, sys.key) ==> CleanAt(sys.dst, sys.key))
    && (sys.phase.Finished? ==>
          sys.S() == Some(Released) && LiveAt(sys.dst, sys.key, sys.payload) && RunsAt(sys.dst, sys.key, sys.payload))
  }

  lemma FitsIsSafe(sys: System)
    requires Fits(sys)
    ensures Safe(sys)
  {
  }

  lemma {:induction false} EveryRunIsSafe(first: System, events: seq<Event>, last: System)
    requires Good(first)
    requires Reaches(first, events, last)
    ensures Good(last) && Safe(last)
    decreases |events|
  {
    if events == [] {
      FitsIsSafe(last);
    } else {
      StepKeepsGood(first, events[0]);
      EveryRunIsSafe(Next(first, events[0]), events[1..], last);
    }
  }

  /**
   Whatever happens, as long as no call fails after the source has committed:
   the current blocks are held by the source or by the committed target, the
   request never runs on both, no target block id is issued to it twice over both
   attempts, whenever the driver is ready for an attempt or has given up the
   request runs at the source with its own blocks, and after success the target alone
   runs it with exactly those blocks. The target holds nothing of the request between
   attempts unless it kept an outgoing snapshot of it from another epoch.
   */
  lemma EveryHandoverIsSafe(first: System, events: seq<Event>, last: System)
    requires Start(first) && Reaches(first, events, last)
    ensures Safe(last) && last.attempt <= MAX_ATTEMPTS
  {
    EveryRunIsSafe(first, events, last);
  }

  /** A finished handover can be followed by another one, from the target onwards. */
  lemma FinishedCanMoveOn(done: System, key: MigrationKey, third: Core)
    requires Good(done) && done.phase.Finished?
    requires key.requestId == done.Id()
    requires Inv(done.digests, third) && CleanAt(third, key) && key.requestId !in third.sourceBlocks
    ensures Start(System(done.digests, key, done.dst, third, Ready, 0, done.payload, []))
  {
  }

  /** How many forward calls have been made. */
  function Progress(phase: Phase): int {
    match phase
    case Ready => 0
    case Prepared(_) => 1
    case Reserving(_) => 2
    case Sent(_, _) => 3
    case Received(_) => 4
    case TargetLive => 5
    case Registered => 6
    case SourceFreed => 7
    case Finished => 8
    case _ => -1
  }

  ghost predicate Faultless(digests: Digests, blocks: seq<KVBlock>) {
    forall i :: 0 <= i < |blocks| ==> Intact(digests, blocks[i])
  }

  /**
   When a forward call is refused: a bad snapshot at the first, a left-over import at
   the second, a damaged block at the fourth.
   */
  lemma ForwardCallSucceeds(sys: System, snapshot: Snapshot)
    requires ExportsBacked(sys.src.states, sys.src.snapshots, sys.src.sourceBlocks)
    requires Fits(sys) && ForKey(snapshot, sys.key)
    requires 0 <= Progress(sys.phase) < 8
    ensures
      var ok := match sys.phase
        case Ready => Authentic(sys.digests, snapshot) && |sys.payload| == Sum(snapshot.fields.kvGroupBlockCounts)
        case Prepared(_) => sys.key !in sys.dst.reservations
        case Sent(_, _) => Faultless(sys.digests, sys.payload)
        case _ => true;
      Progress(Drive(sys, snapshot).phase) == if ok then Progress(sys.phase) + 1 else -1
    ensures Drive(sys, snapshot).payload == sys.payload && Drive(sys, snapshot).digests == sys.digests
    ensures Drive(sys, snapshot).key == sys.key && (sys.phase.Ready? ==> Drive(sys, snapshot).dst == sys.dst)
  {
    if sys.phase.Sent? {
      SendSucceeds(sys, snapshot);
    }
  }

  lemma SendSucceeds(sys: System, snapshot: Snapshot)
    requires ExportsBacked(sys.src.states, sys.src.snapshots, sys.src.sourceBlocks)
    requires Fits(sys) && sys.phase.Sent?
    ensures Drive(sys, snapshot).phase ==
            if Faultless(sys.digests, sys.payload) then Received(sys.phase.reservation) else AbortTarget
  {
  }

  ghost function DriveMany(sys: System, snapshot: Snapshot, n: nat): (r: System)
    requires Good(sys) && ForKey(snapshot, sys.key)
    decreases n
  {
    if n == 0 then sys
    else
      DriveGoesOn(sys, snapshot);
      DriveMany(Drive(sys, snapshot), snapshot, n - 1)
  }

  lemma DriveGoesOn(sys: System, snapshot: Snapshot)
    requires Good(sys) && ForKey(snapshot, sys.key)
    ensures Good(Drive(sys, snapshot)) && Drive(sys, snapshot).key == sys.key
            && ForKey(snapshot, Drive(sys, snapshot).key)
  {
    DriveKeepsGood(sys, snapshot);
  }

  /** An authentic snapshot that counts the blocks right, and undamaged blocks. */
  ghost predicate Deliverable(digests: Digests, snapshot: Snapshot, blocks: seq<KVBlock>) {
    && Authentic(digests, snapshot)
    && |blocks| == Sum(snapshot.fields.kvGroupBlockCounts)
    && Faultless(digests, blocks)
  }

  lemma OneCallFurther(sys: System, snapshot: Snapshot, n: nat) returns (next: System)
    requires Good(sys) && ForKey(snapshot, sys.key) && 0 <= Progress(sys.phase) < 8
    requires Deliverable(sys.digests, snapshot, sys.payload)
             && (Progress(sys.phase) < 2 ==> sys.key !in sys.dst.reservations)
    ensures Good(next) && next.key == sys.key && Progress(next.phase) == Progress(sys.phase) + 1
    ensures Deliverable(next.digests, snapshot, next.payload)
            && (Progress(next.phase) < 2 ==> next.key !in next.dst.reservations)
    ensures DriveMany(sys, snapshot, n + 1) == DriveMany(next, snapshot, n)
  {
    ForwardCallSucceeds(sys, snapshot);
    DriveManyStep(sys, snapshot, n);
    next := Drive(sys, snapshot);
  }

  lemma DriveManyStep(sys: System, snapshot: Snapshot, n: nat)
    requires Good(sys) && ForKey(snapshot, sys.key)
    ensures Good(Drive(sys, snapshot)) && Drive(sys, snapshot).key == sys.key
    ensures DriveMany(sys, snapshot, n + 1) == DriveMany(Drive(sys, snapshot), snapshot, n)
  {
    DriveKeepsGood(sys, snapshot);
  }

  /** Without failures, and with something deliverable, the eight calls of the driver all succeed. */
  lemma {:induction false} UndisturbedHandoverCompletes(sys: System, snapshot: Snapshot, n: nat)
    requires Good(sys) && ForKey(snapshot, sys.key) && 0 <= Progress(sys.phase) && Progress(sys.phase) + n == 8
    requires Deliverable(sys.digests, snapshot, sys.payload)
             && (Progress(sys.phase) < 2 ==> sys.key !in sys.dst.reservations)
    ensures DriveMany(sys, snapshot, n).phase.Finished?
    decreases n
  {
    if n == 0 {
    } else {
      var next := OneCallFurther(sys, snapshot, n - 1);
      UndisturbedHandoverCompletes(next, snapshot, n - 1);
    }
  }

  // ------------------------------------------------------------------
  // Where the guarantees stop

  /** The three cleanup calls in the documented order. */
  function Cleanup(sys: System): System {
    sys.(dst := AbortMigrated(Abort(sys.dst, sys.Id(), sys.key.epoch).0, sys.Id()),
         src := Abort(sys.src, sys.Id(), sys.key.epoch).0)
  }

  /**
   A failure after the source has committed (for instance in finish_migrated_out)
   runs the same cleanup, which then drops the only copy: cleanup keeps the blocks
   somewhere exactly when the source is not yet released.
   */
  lemma CleanupKeepsBlocksUnlessReleased(sys: System)
    requires Fits(sys) && (Forward(sys.phase) || sys.phase.SourceFreed?)
    ensures SourceHolds(Cleanup(sys)) || LiveAt(Cleanup(sys).dst, sys.key, sys.payload) <==> sys.S() != Some(Released)
    ensures sys.S() != Some(Released) ==> RunsAt(Cleanup(sys).src, sys.key, sys.payload)
    ensures NoStaleSnapshot(sys.dst, sys.key) ==> CleanAt(Cleanup(sys).dst, sys.key)
  {
    CleanupClearsTarget(sys.dst, sys.key, sys.payload);
    AbortRestoresSource(sys.src, sys.key, sys.payload);
  }

  lemma AbortRestoresSource(c: Core, key: MigrationKey, blocks: seq<KVBlock>)
    ensures
      var after := Abort(c, key.requestId, key.epoch).0;
      && (FrozenAt(c, key, blocks, MigratingOut) || FrozenAt(c, key, blocks, OutReady) || RunsAt(c, key, blocks) ==>
            RunsAt(after, key, blocks))
      && (StateOf(c, key.requestId) == Some(Released) ==> after == c)
  {
  }

  lemma CleanupClearsTarget(c: Core, key: MigrationKey, blocks: seq<KVBlock>)
    requires CleanAt(c, key) || ImportingAt(c, key) || LiveAt(c, key, blocks)
    ensures var d := AbortMigrated(Abort(c, key.requestId, key.epoch).0, key.requestId);
            Idle(d, key) && (NoStaleSnapshot(c, key) ==> CleanAt(d, key))
  {
    TargetAbort(c, key, blocks);
    TargetDrop(Abort(c, key.requestId, key.epoch).0, key, blocks);
  }

  /** The target when its abort, its drop or both have taken effect, in either order. */
  function TargetPart(c: Core, key: MigrationKey, aborted: bool, dropped: bool, dropFirst: bool): Core {
    var first := if dropped && dropFirst then AbortMigrated(c, key.requestId) else c;
    var second := if aborted then Abort(first, key.requestId, key.epoch).0 else first;
    if dropped && !dropFirst then AbortMigrated(second, key.requestId) else second
  }

  /** Cleanup under way, or ended with calls that failed: any of its three calls have taken effect. */
  function CleanupPart(sys: System, aborted: bool, dropped: bool, dropFirst: bool, sourceCall: bool): System {
    sys.(dst := TargetPart(sys.dst, sys.key, aborted, dropped, dropFirst),
         src := if sourceCall then Abort(sys.src, sys.Id(), sys.key.epoch).0 else sys.src)
  }

  /**
   The calls are submitted together and their exceptions are swallowed, so any of
   them may have taken effect, in any order. The source keeps the blocks throughout,
   the request runs on both sides exactly while the source's call has taken effect, the
   target's drop has not and the target was committed, and all three calls together
   come to the documented order.
   */
  lemma CleanupInAnyOrder(sys: System, aborted: bool, dropped: bool, dropFirst: bool, sourceCall: bool)
    requires Fits(sys) && Forward(sys.phase)
    ensures var part := CleanupPart(sys, aborted, dropped, dropFirst, sourceCall);
            && SourceHolds(part)
            && (NotRunningTwice(part) <==> !(sourceCall && !dropped && sys.T() == Some(Running)))
            && (aborted && dropped && sourceCall ==> part == Cleanup(sys))
  {
    AbortRestoresSource(sys.src, sys.key, sys.payload);
    TargetRuns(sys.dst, sys.key, sys.payload, aborted, dropped, dropFirst);
  }

  /** Only the drop ends a committed request, nothing starts one, and the order does not matter. */
  lemma TargetRuns(c: Core, key: MigrationKey, blocks: seq<KVBlock>, aborted: bool, dropped: bool, dropFirst: bool)
    requires CleanAt(c, key) || ImportingAt(c, key) || LiveAt(c, key, blocks)
    ensures var d := TargetPart(c, key, aborted, dropped, dropFirst);
            StateOf(d, key.requestId) == Some(Running) <==> StateOf(c, key.requestId) == Some(Running) && !dropped
    ensures TargetPart(c, key, true, true, true) == TargetPart(c, key, true, true, false)
  {
  }

  /**
   An older outgoing snapshot left on the target defeats the abort there. Cleanup
   of an unfinished import leaves the target clean exactly when there is none, and
   otherwise a second attempt is refused as a duplicate epoch.
   */
  lemma StaleSnapshotBlocksRetry(digests: Digests, dst: Core, key: MigrationKey, snapshot: Snapshot)
    requires Inv(digests, dst)
    requires ImportingAt(dst, key)
    requires ForKey(snapshot, key) && Authentic(digests, snapshot)
    ensures
      var cleaned := AbortMigrated(Abort(dst, key.requestId, key.epoch).0, key.requestId);
      && (NoStaleSnapshot(dst, key) <==> key.requestId !in cleaned.states && key !in cleaned.reservations)
      && (NoStaleSnapshot(dst, key) <==> Reserve(digests, cleaned, snapshot).1 != Rejected(DuplicateEpoch))
  {
  }

  lemma {:induction false} RunOneMore(digests: Digests, c: Core, calls: seq<Call>, call: Call)
    requires Inv(digests, c)
    ensures Inv(digests, Run(digests, c, calls).0)
    ensures Run(digests, c, calls + [call]).0 == Apply(digests, Run(digests, c, calls).0, call).0
    decreases |calls|
  {
    if calls == [] {
      assert [call][1..] == [];
    } else {
      CallKeepsInvariant(digests, c, calls[0]);
      assert (calls + [call])[1..] == calls[1..] + [call];
      RunOneMore(digests, Apply(digests, c, calls[0]).0, calls[1..], call);
    }
  }

  function SampleSnapshot(digests: Digests, epoch: int): Snapshot
    requires epoch > 0
  {
    var fields := SAMPLE_FIELDS.(migrationEpoch := epoch);
    SnapshotData(fields, digests.ofSnapshot(fields))
  }

  /** A request that leaves at epoch 1 and is to return at epoch 2 meets its own old snapshot. */
  function LeaveAndReturn(digests: Digests): seq<Call> {
    [CallRegister("r", []), CallPrepare(SampleSnapshot(digests, 1), []), CallExport("r"), CallCommitExport("r", 1),
     CallReserve(SampleSnapshot(digests, 2))]
  }

  /** The coordinator after so many of these calls; after four the request has left. */
  function Leaving(digests: Digests, k: nat): Core
    requires k <= 4
  {
    var none: seq<KVBlock> := [];
    if k == 0 then EMPTY
    else if k == 1 then Core(map["r" := Running], map[], map["r" := none], map[], map[], 0)
    else if k == 2 then Core(map["r" := MigratingOut], map["r" := SampleSnapshot(digests, 1)], map["r" := none], map[],
                             map[], 0)
    else if k == 3 then Core(map["r" := OutReady], map["r" := SampleSnapshot(digests, 1)], map["r" := none], map[],
                             map[], 0)
    else Core(map["r" := Released], map["r" := SampleSnapshot(digests, 1)], map[], map[], map[], 0)
  }

  lemma LeavingStep(digests: Digests, k: nat)
    requires k < 4
    ensures LeadsTo(digests, Leaving(digests, k), LeaveAndReturn(digests)[k], Leaving(digests, k + 1))
  {
    if k == 0 {
      FirstLeaving(digests);
    } else if k == 1 {
      SecondLeaving(digests);
    } else if k == 2 {
      ThirdLeaving(digests);
    } else {
      FourthLeaving(digests);
    }
  }

  ghost predicate LeadsTo(digests: Digests, c: Core, call: Call, next: Core) {
    ExportsBacked(c.states, c.snapshots, c.sourceBlocks) && Apply(digests, c, call).0 == next
  }

  lemma FirstLeaving(digests: Digests)
    ensures LeadsTo(digests, EMPTY, CallRegister("r", []), Leaving(digests, 1))
  {
  }

  lemma SecondLeaving(digests: Digests)
    ensures LeadsTo(digests, Leaving(digests, 1), CallPrepare(SampleSnapshot(digests, 1), []), Leaving(digests, 2))
  {
  }

  lemma ThirdLeaving(digests: Digests)
    ensures LeadsTo(digests, Leaving(digests, 2), CallExport("r"), Leaving(digests, 3))
  {
  }

  lemma FourthLeaving(digests: Digests)
    ensures LeadsTo(digests, Leaving(digests, 3), CallCommitExport("r", 1), Leaving(digests, 4))
  {
    var none: seq<KVBlock> := [];
    assert map["r" := none] - {"r"} == map[];
  }

  lemma {:induction false} LeftByRun(digests: Digests, k: nat)
    requires k <= 4
    ensures Inv(digests, EMPTY) && Run(digests, EMPTY, LeaveAndReturn(digests)[..k]).0 == Leaving(digests, k)
  {
    var calls := LeaveAndReturn(digests);
    if k == 0 {
      assert calls[..0] == [];
    } else {
      LeftByRun(digests, k - 1);
      LeavingStep(digests, k - 1);
      OneCallOn(digests, calls, k - 1, Leaving(digests, k - 1), Leaving(digests, k));
    }
  }

  lemma OneCallOn(digests: Digests, calls: seq<Call>, k: nat, c: Core, next: Core)
    requires Inv(digests, EMPTY) && k < |calls| && Run(digests, EMPTY, calls[..k]).0 == c
    requires ExportsBacked(c.states, c.snapshots, c.sourceBlocks) && Apply(digests, c, calls[k]).0 == next
    ensures Run(digests, EMPTY, calls[..k + 1]).0 == next
  {
    RunOneMore(digests, EMPTY, calls[..k], calls[k]);
    assert calls[..k] + [calls[k]] == calls[..k + 1];
  }

  lemma Returning(digests: Digests)
    ensures var c := Leaving(digests, 4);
            ExportsBacked(c.states, c.snapshots, c.sourceBlocks)
            && MetStale(Apply(digests, c, LeaveAndReturn(digests)[4]).0)
  {
  }

  /** An import at epoch 2 that cannot be aborted. */
  ghost predicate MetStale(c: Core) {
    var key := MigrationKey("r", 2);
    ImportingAt(c, key) && !NoStaleSnapshot(c, key) && Abort(c, "r", 2) == (c, Rejected(EpochMismatch))
  }

  lemma ReturningMeetsStaleSnapshot(digests: Digests)
    ensures Inv(digests, EMPTY) && MetStale(Run(digests, EMPTY, LeaveAndReturn(digests)).0)
  {
    LastCall(digests);
    Returning(digests);
  }

  lemma LastCall(digests: Digests)
    ensures var c := Leaving(digests, 4);
            && ExportsBacked(c.states, c.snapshots, c.sourceBlocks) && Inv(digests, EMPTY)
            && Run(digests, EMPTY, LeaveAndReturn(digests)).0 == Apply(digests, c, LeaveAndReturn(digests)[4]).0
  {
    LeftByRun(digests, 4);
    Returning(digests);
    var next := Apply(digests, Leaving(digests, 4), LeaveAndReturn(digests)[4]).0;
    AllCalls(digests, LeaveAndReturn(digests), 4, Leaving(digests, 4), next);
  }

  lemma AllCalls(digests: Digests, calls: seq<Call>, k: nat, c: Core, next: Core)
    requires Inv(digests, EMPTY) && k + 1 == |calls| && Run(digests, EMPTY, calls[..k]).0 == c
    requires ExportsBacked(c.states, c.snapshots, c.sourceBlocks) && Apply(digests, c, calls[k]).0 == next
    ensures Run(digests, EMPTY, calls).0 == next
  {
    OneCallOn(digests, calls, k, c, next);
    assert calls[..k + 1] == calls;
  }
}
