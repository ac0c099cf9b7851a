/**
 The two-phase migration coordinator of one engine
 (llumnix/backends/vllm/v1_migration.py).

 `Core` is the value of the coordinator's dictionaries. Each transition is given
 as a function on `Core`, the class `MigrationCoordinator` performs the same
 transition in place, and the lemmas at the end speak about every call sequence.
 Hash functions are parameters, so the results hold for every hash.
 */
module Coordinator {
  import opened Prelude

  type RequestId = string
  newtype byte = x: int | 0 <= x < 256
  type Bytes = seq<byte>

  const PROTOCOL_VERSION := 1

  datatype MigrationState =
    | Running
    | MigratingOut
    | OutReady
    | Importing
    | ImportReady
    | Released

  datatype MigrationError =
    | EmptyRequestId
    | NonPositiveEpoch
    | NegativeTokenCount
    | ComputedExceedsTokens
    | UnsupportedProtocol
    | NegativeBlockCount
    | SnapshotChecksumMismatch
    | NegativeBlockCoordinates
    | BlockChecksumMismatch
    | AlreadyRegistered
    | NotRunning
    | PayloadCountMismatch
    | NotMigratingOut
    | DuplicateEpoch
    | UnknownReservation
    | ImportCountMismatch
    | ImportNotReady
    | NoImportedPayload
    | ExportNotReady
    | EpochMismatch
    | CannotAbort

  /** The two digests the protocol uses: one over snapshot fields, one over payload bytes. */
  datatype Digests = Digests(ofSnapshot: SnapshotFields -> string, ofPayload: Bytes -> string)

  datatype StopReason = StopToken(token: int) | StopString(text: string)

  datatype SnapshotFields = SnapshotFields(
    requestId: RequestId,
    migrationEpoch: int,
    promptTokenIds: seq<int>,
    allTokenIds: seq<int>,
    outputTokenIds: seq<int>,
    numComputedTokens: int,
    maxTokens: int,
    samplingParams: Bytes,
    stopReason: Option<StopReason>,
    kvLayoutVersion: string,
    kvGroupBlockCounts: seq<int>,
    featureFlags: set<string>,
    protocolVersion: int)
  {
    /** The first complaint of the constructor, if any. */
    function Defect(): Option<MigrationError> {
      if requestId == "" then Some(EmptyRequestId)
      else if migrationEpoch <= 0 then Some(NonPositiveEpoch)
      else if numComputedTokens < 0 || maxTokens < 0 then Some(NegativeTokenCount)
      else if numComputedTokens > |allTokenIds| then Some(ComputedExceedsTokens)
      else if protocolVersion != PROTOCOL_VERSION then Some(UnsupportedProtocol)
      else if exists i :: 0 <= i < |kvGroupBlockCounts| && kvGroupBlockCounts[i] < 0 then Some(NegativeBlockCount)
      else None
    }
  }

  datatype SnapshotData = SnapshotData(fields: SnapshotFields, checksum: string)

  const SAMPLE_FIELDS := SnapshotFields("r", 1, [], [], [], 0, 0, [], None, "vllm-v1", [], {}, PROTOCOL_VERSION)

  /** Snapshots that some constructor call has produced. */
  type Snapshot = s: SnapshotData | s.fields.Defect().None? witness SnapshotData(SAMPLE_FIELDS, "")

  function NewSnapshot(digests: Digests, fields: SnapshotFields, checksum: string): Result<Snapshot, MigrationError> {
    match fields.Defect()
    case Some(error) => Err(error)
    case None => Ok(SnapshotData(fields, if checksum == "" then digests.ofSnapshot(fields) else checksum))
  }

  predicate Authentic(digests: Digests, snapshot: Snapshot) {
    snapshot.checksum == digests.ofSnapshot(snapshot.fields)
  }

  datatype KVBlock = KVBlock(group: int, ordinal: int, payload: Bytes, checksum: string)

  function NewBlock(digests: Digests, group: int, ordinal: int, payload: Bytes, checksum: string)
    : Result<KVBlock, MigrationError>
  {
    if group < 0 || ordinal < 0 then Err(NegativeBlockCoordinates)
    else if checksum != "" && checksum != digests.ofPayload(payload) then Err(BlockChecksumMismatch)
    else Ok(KVBlock(group, ordinal, payload, digests.ofPayload(payload)))
  }

  /** A block that the receiver's re-construction accepts. */
  predicate Intact(digests: Digests, b: KVBlock) {
    NewBlock(digests, b.group, b.ordinal, b.payload, b.checksum).Ok?
  }

  datatype MigrationKey = MigrationKey(requestId: RequestId, epoch: int)

  datatype Reservation = Reservation(requestId: RequestId, epoch: int, blockIds: seq<seq<int>>) {
    function Key(): MigrationKey {
      MigrationKey(requestId, epoch)
    }

    ghost function Ids(): seq<int> {
      Flatten(blockIds)
    }
  }

  function BlockCount(groups: seq<seq<int>>): (n: nat)
    ensures n == |Flatten(groups)|
  {
    if groups == [] then 0 else |groups[0]| + BlockCount(groups[1..])
  }

  datatype Core = Core(
    states: map<RequestId, MigrationState>,
    snapshots: map<RequestId, Snapshot>,
    sourceBlocks: map<RequestId, seq<KVBlock>>,
    reservations: map<MigrationKey, Reservation>,
    imported: map<MigrationKey, seq<KVBlock>>,
    nextBlockId: int)

  const EMPTY := Core(map[], map[], map[], map[], map[], 0)

  datatype Reply =
    | Rejected(error: MigrationError)
    | Done
    | Exported(snapshot: Snapshot, blocks: seq<KVBlock>)
    | Reserved(reservation: Reservation)

  // ------------------------------------------------------------------
  // The invariant of one coordinator

  type States = map<RequestId, MigrationState>
  type Reservations = map<MigrationKey, Reservation>
  type Payloads = map<MigrationKey, seq<KVBlock>>

  /** Every imported payload is intact and has a live reservation of exactly its size. */
  ghost predicate ImportsBacked(digests: Digests, imported: Payloads, reservations: Reservations) {
    forall k <- imported ::
      && k in reservations
      && |imported[k]| == |reservations[k].Ids()|
      && forall i :: 0 <= i < |imported[k]| ==> Intact(digests, imported[k][i])
  }

  /** An outgoing request has its snapshot and retains source blocks of the advertised number. */
  ghost predicate ExportsBacked(states: States, snapshots: map<RequestId, Snapshot>,
                                sourceBlocks: map<RequestId, seq<KVBlock>>) {
    forall id <- states :: states[id] == MigratingOut || states[id] == OutReady ==>
      && id in snapshots
      && id in sourceBlocks
      && |sourceBlocks[id]| == Sum(snapshots[id].fields.kvGroupBlockCounts)
  }

  ghost predicate HasImport(imported: Payloads, id: RequestId) {
    exists k <- imported :: k.requestId == id
  }

  ghost predicate ReadyImportsHavePayload(states: States, imported: Payloads) {
    forall id <- states :: states[id] == ImportReady ==> HasImport(imported, id)
  }

  ghost predicate ReleasedIsEmpty(states: States, sourceBlocks: map<RequestId, seq<KVBlock>>) {
    forall id <- states :: states[id] == Released ==> id !in sourceBlocks
  }

  ghost predicate SnapshotsAgree(snapshots: map<RequestId, Snapshot>) {
    forall id <- snapshots :: snapshots[id].fields.requestId == id
  }

  ghost predicate KeysAgree(reservations: Reservations) {
    forall k <- reservations :: reservations[k].Key() == k
  }

  ghost predicate IdsBelow(reservations: Reservations, bound: int) {
    forall k, i :: k in reservations && 0 <= i < |reservations[k].Ids()| ==> 0 <= reservations[k].Ids()[i] < bound
  }

  ghost predicate NoCommonId(r: Reservation, s: Reservation) {
    forall i, j :: 0 <= i < |r.Ids()| && 0 <= j < |s.Ids()| ==> r.Ids()[i] != s.Ids()[j]
  }

  ghost predicate LiveIdsDisjoint(reservations: Reservations) {
    forall k <- reservations, l <- reservations :: k != l ==> NoCommonId(reservations[k], reservations[l])
  }

  ghost predicate Inv(digests: Digests, c: Core) {
    && ImportsBacked(digests, c.imported, c.reservations)
    && ExportsBacked(c.states, c.snapshots, c.sourceBlocks)
    && ReadyImportsHavePayload(c.states, c.imported)
    && ReleasedIsEmpty(c.states, c.sourceBlocks)
    && SnapshotsAgree(c.snapshots)
    && KeysAgree(c.reservations)
    && c.nextBlockId >= 0
    && IdsBelow(c.reservations, c.nextBlockId)
    && LiveIdsDisjoint(c.reservations)
  }

  // ------------------------------------------------------------------
  // The transitions, on values

  function StateOf(c: Core, id: RequestId): Option<MigrationState> {
    Lookup(c.states, id)
  }

  function Register(c: Core, id: RequestId, blocks: seq<KVBlock>): (Core, Reply) {
    if id in c.states then (c, Rejected(AlreadyRegistered))
    else (c.(states := c.states[id := Running], sourceBlocks := c.sourceBlocks[id := blocks]), Done)
  }

  function PrepareOut(digests: Digests, c: Core, snapshot: Snapshot, blocks: seq<KVBlock>): (Core, Reply) {
    var id := snapshot.fields.requestId;
    if !Authentic(digests, snapshot) then (c, Rejected(SnapshotChecksumMismatch))
    else if StateOf(c, id) != Some(Running) then (c, Rejected(NotRunning))
    else if |blocks| != Sum(snapshot.fields.kvGroupBlockCounts) then (c, Rejected(PayloadCountMismatch))
    else
      (c.(states := c.states[id := MigratingOut],
          snapshots := c.snapshots[id := snapshot],
          sourceBlocks := c.sourceBlocks[id := blocks]),
       Done)
  }

  function Export(c: Core, id: RequestId): (Core, Reply)
    requires ExportsBacked(c.states, c.snapshots, c.sourceBlocks)
  {
    if StateOf(c, id) != Some(MigratingOut) then (c, Rejected(NotMigratingOut))
    else (c.(states := c.states[id := OutReady]), Exported(c.snapshots[id], c.sourceBlocks[id]))
  }

  /** Consecutive id ranges, one per group, starting at `next`. */
  function AllocateGroups(next: int, counts: seq<int>): seq<seq<int>>
    requires forall i :: 0 <= i < |counts| ==> counts[i] >= 0
    decreases |counts|
  {
    if counts == [] then []
    else [Range(next, next + counts[0])] + AllocateGroups(next + counts[0], counts[1..])
  }

  function Reserve(digests: Digests, c: Core, snapshot: Snapshot): (Core, Reply) {
    var f := snapshot.fields;
    var key := MigrationKey(f.requestId, f.migrationEpoch);
    if !Authentic(digests, snapshot) then (c, Rejected(SnapshotChecksumMismatch))
    else if key in c.reservations then (c, Rejected(DuplicateEpoch))
    else
      var r := Reservation(f.requestId, f.migrationEpoch, AllocateGroups(c.nextBlockId, f.kvGroupBlockCounts));
      (c.(reservations := c.reservations[key := r],
          states := c.states[f.requestId := Importing],
          nextBlockId := c.nextBlockId + Sum(f.kvGroupBlockCounts)),
       Reserved(r))
  }

  /** The error of the first block that re-construction refuses. */
  function FirstDefect(digests: Digests, blocks: seq<KVBlock>): (r: Option<MigrationError>)
    ensures r.None? <==> forall i :: 0 <= i < |blocks| ==> Intact(digests, blocks[i])
  {
    if blocks == [] then None
    else
      match NewBlock(digests, blocks[0].group, blocks[0].ordinal, blocks[0].payload, blocks[0].checksum)
      case Err(error) => Some(error)
      case Ok(_) => FirstDefect(digests, blocks[1..])
  }

  function Import(digests: Digests, c: Core, r: Reservation, blocks: seq<KVBlock>): (Core, Reply) {
    if Lookup(c.reservations, r.Key()) != Some(r) then (c, Rejected(UnknownReservation))
    else if |blocks| != BlockCount(r.blockIds) then (c, Rejected(ImportCountMismatch))
    else
      match FirstDefect(digests, blocks)
      case Some(error) => (c, Rejected(error))
      case None =>
        (c.(imported := c.imported[r.Key() := blocks], states := c.states[r.requestId := ImportReady]), Done)
  }

  function CommitIn(c: Core, r: Reservation): (Core, Reply) {
    if StateOf(c, r.requestId) != Some(ImportReady) then (c, Rejected(ImportNotReady))
    else if r.Key() !in c.imported then (c, Rejected(NoImportedPayload))
    else (c.(states := c.states[r.requestId := Running]), Done)
  }

  function CommitOut(c: Core, id: RequestId, epoch: int): (Core, Reply)
    requires ExportsBacked(c.states, c.snapshots, c.sourceBlocks)
  {
    if StateOf(c, id) != Some(OutReady) then (c, Rejected(ExportNotReady))
    else if c.snapshots[id].fields.migrationEpoch != epoch then (c, Rejected(EpochMismatch))
    else (c.(states := c.states[id := Released], sourceBlocks := c.sourceBlocks - {id}), Done)
  }

  function Abort(c: Core, id: RequestId, epoch: int): (Core, Reply) {
    if id in c.snapshots && c.snapshots[id].fields.migrationEpoch != epoch then (c, Rejected(EpochMismatch))
    else
      var key := MigrationKey(id, epoch);
      var rest := c.(reservations := c.reservations - {key}, imported := c.imported - {key});
      match StateOf(c, id)
      case Some(MigratingOut) => (rest.(states := c.states[id := Running]), Done)
      case Some(OutReady) => (rest.(states := c.states[id := Running]), Done)
      case Some(Importing) => (rest.(states := c.states - {id}), Done)
      case Some(ImportReady) => (rest.(states := c.states - {id}), Done)
      case _ => (c, Rejected(CannotAbort))
  }

  // ------------------------------------------------------------------
  // The coordinator object

  class MigrationCoordinator {
    const digests: Digests
    var states: map<RequestId, MigrationState>
    var snapshots: map<RequestId, Snapshot>
    var sourceBlocks: map<RequestId, seq<KVBlock>>
    var reservations: map<MigrationKey, Reservation>
    var imported: map<MigrationKey, seq<KVBlock>>
    var nextBlockId: int

    ghost function Value(): Core
      reads this
    {
      Core(states, snapshots, sourceBlocks, reservations, imported, nextBlockId)
    }

    ghost predicate Valid()
      reads this
    {
      Inv(digests, Value())
    }

    constructor (digests: Digests)
      ensures Valid() && Value() == EMPTY && this.digests == digests
    {
      this.digests := digests;
      states, snapshots, sourceBlocks := map[], map[], map[];
      reservations, imported, nextBlockId := map[], map[], 0;
    }

    method RegisterRunning(id: RequestId, blocks: seq<KVBlock>) returns (reply: Reply)
      requires Valid()
      modifies this
      ensures Valid()
      ensures (Value(), reply) == Register(old(Value()), id, blocks)
    {
      if id in states {
        return Rejected(AlreadyRegistered);
      }
      RegisterKeepsInvariant(digests, Value(), id, blocks);
      states := states[id := Running];
      sourceBlocks := sourceBlocks[id := blocks];
      reply := Done;
    }

    method PrepareMigrationOut(snapshot: Snapshot, blocks: seq<KVBlock>) returns (reply: Reply)
      requires Valid()
      modifies this
      ensures Valid()
      ensures (Value(), reply) == PrepareOut(digests, old(Value()), snapshot, blocks)
    {
      if snapshot.checksum != digests.ofSnapshot(snapshot.fields) {
        return Rejected(SnapshotChecksumMismatch);
      }
      var id := snapshot.fields.requestId;
      if Lookup(states, id) != Some(Running) {
        return Rejected(NotRunning);
      }
      if |blocks| != Sum(snapshot.fields.kvGroupBlockCounts) {
        return Rejected(PayloadCountMismatch);
      }
      PrepareKeepsInvariant(digests, Value(), snapshot, blocks);
      states := states[id := MigratingOut];
      snapshots := snapshots[id := snapshot];
      sourceBlocks := sourceBlocks[id := blocks];
      reply := Done;
    }

    method ExportMigration(id: RequestId) returns (reply: Reply)
      requires Valid()
      modifies this
      ensures Valid()
      ensures (Value(), reply) == Export(old(Value()), id)
    {
      if Lookup(states, id) != Some(MigratingOut) {
        return Rejected(NotMigratingOut);
      }
      ExportKeepsInvariant(digests, Value(), id);
      states := states[id := OutReady];
      reply := Exported(snapshots[id], sourceBlocks[id]);
    }

    method AllocateId(count: int) returns (ids: seq<int>)
      requires count >= 0
      modifies this`nextBlockId
      ensures nextBlockId == old(nextBlockId) + count
      ensures ids == Range(old(nextBlockId), nextBlockId)
    {
      ids := Range(nextBlockId, nextBlockId + count);
      nextBlockId := nextBlockId + count;
    }

    method ReserveImport(snapshot: Snapshot) returns (reply: Reply)
      requires Valid()
      modifies this
      ensures Valid()
      ensures (Value(), reply) == Reserve(digests, old(Value()), snapshot)
    {
      var f := snapshot.fields;
      if snapshot.checksum != digests.ofSnapshot(f) {
        return Rejected(SnapshotChecksumMismatch);
      }
      var key := MigrationKey(f.requestId, f.migrationEpoch);
      if key in reservations {
        return Rejected(DuplicateEpoch);
      }
      ReserveKeepsInvariant(digests, Value(), snapshot);
      ghost var next := Reserve(digests, Value(), snapshot).0;
      var counts := f.kvGroupBlockCounts;
      var groups: seq<seq<int>> := [];
      for i := 0 to |counts|
        invariant unchanged(`states, `snapshots, `sourceBlocks, `reservations, `imported)
        invariant groups + AllocateGroups(nextBlockId, counts[i..]) == AllocateGroups(old(nextBlockId), counts)
        invariant nextBlockId + Sum(counts[i..]) == old(nextBlockId) + Sum(counts)
      {
        assert counts[i..][1..] == counts[i + 1..];
        var ids := AllocateId(counts[i]);
        groups := groups + [ids];
      }
      assert counts[|counts|..] == [] && groups + [] == groups;
      var reservation := Reservation(f.requestId, f.migrationEpoch, groups);
      reservations := reservations[key := reservation];
      states := states[f.requestId := Importing];
      reply := Reserved(reservation);
      assert Value() == next;
    }

    method ImportBlocks(r: Reservation, blocks: seq<KVBlock>) returns (reply: Reply)
      requires Valid()
      modifies this
      ensures Valid()
      ensures (Value(), reply) == Import(digests, old(Value()), r, blocks)
    {
      if Lookup(reservations, r.Key()) != Some(r) {
        return Rejected(UnknownReservation);
      }
      if |blocks| != BlockCount(r.blockIds) {
        return Rejected(ImportCountMismatch);
      }
      for i := 0 to |blocks|
        invariant FirstDefect(digests, blocks) == FirstDefect(digests, blocks[i..])
      {
        assert blocks[i..][1..] == blocks[i + 1..];
        var rebuilt := NewBlock(digests, blocks[i].group, blocks[i].ordinal, blocks[i].payload, blocks[i].checksum);
        if rebuilt.Err? {
          return Rejected(rebuilt.error);
        }
      }
      ImportKeepsInvariant(digests, Value(), r, blocks);
      imported := imported[r.Key() := blocks];
      states := states[r.requestId := ImportReady];
      reply := Done;
    }

    method CommitImport(r: Reservation) returns (reply: Reply)
      requires Valid()
      modifies this
      ensures Valid()
      ensures (Value(), reply) == CommitIn(old(Value()), r)
    {
      if Lookup(states, r.requestId) != Some(ImportReady) {
        return Rejected(ImportNotReady);
      }
      if r.Key() !in imported {
        return Rejected(NoImportedPayload);
      }
      CommitInKeepsInvariant(digests, Value(), r);
      states := states[r.requestId := Running];
      reply := Done;
    }

    method CommitExport(id: RequestId, epoch: int) returns (reply: Reply)
      requires Valid()
      modifies this
      ensures Valid()
      ensures (Value(), reply) == CommitOut(old(Value()), id, epoch)
    {
      if Lookup(states, id) != Some(OutReady) {
        return Rejected(ExportNotReady);
      }
      if snapshots[id].fields.migrationEpoch != epoch {
        return Rejected(EpochMismatch);
      }
      CommitOutKeepsInvariant(digests, Value(), id, epoch);
      states := states[id := Released];
      sourceBlocks := sourceBlocks - {id};
      reply := Done;
    }

    method AbortMigration(id: RequestId, epoch: int) returns (reply: Reply)
      requires Valid()
      modifies this
      ensures Valid()
      ensures (Value(), reply) == Abort(old(Value()), id, epoch)
    {
      AbortKeepsInvariant(digests, Value(), id, epoch);
      ghost var next := Abort(Value(), id, epoch).0;
      var state := Lookup(states, id);
      if id in snapshots && snapshots[id].fields.migrationEpoch != epoch {
        return Rejected(EpochMismatch);
      }
      if state == Some(MigratingOut) || state == Some(OutReady) {
        states := states[id := Running];
      } else if state == Some(Importing) || state == Some(ImportReady) {
        states := states - {id};
      } else {
        return Rejected(CannotAbort);
      }
      reservations := reservations - {MigrationKey(id, epoch)};
      imported := imported - {MigrationKey(id, epoch)};
      reply := Done;
      assert Value() == next;
    }
  }

  // ------------------------------------------------------------------
  // Every call sequence

  datatype Call =
    | CallRegister(id: RequestId, blocks: seq<KVBlock>)
    | CallPrepare(snapshot: Snapshot, blocks: seq<KVBlock>)
    | CallExport(id: RequestId)
    | CallReserve(snapshot: Snapshot)
    | CallImport(reservation: Reservation, blocks: seq<KVBlock>)
    | CallCommitImport(reservation: Reservation)
    | CallCommitExport(id: RequestId, epoch: int)
    | CallAbort(id: RequestId, epoch: int)
  {
    function Id(): RequestId {
      match this
      case CallRegister(id, _) => id
      case CallPrepare(s, _) => s.fields.requestId
      case CallExport(id) => id
      case CallReserve(s) => s.fields.requestId
      case CallImport(r, _) => r.requestId
      case CallCommitImport(r) => r.requestId
      case CallCommitExport(id, _) => id
      case CallAbort(id, _) => id
    }
  }

  function Apply(digests: Digests, c: Core, call: Call): (Core, Reply)
    requires ExportsBacked(c.states, c.snapshots, c.sourceBlocks)
  {
    match call
    case CallRegister(id, blocks) => Register(c, id, blocks)
    case CallPrepare(snapshot, blocks) => PrepareOut(digests, c, snapshot, blocks)
    case CallExport(id) => Export(c, id)
    case CallReserve(snapshot) => Reserve(digests, c, snapshot)
    case CallImport(r, blocks) => Import(digests, c, r, blocks)
    case CallCommitImport(r) => CommitIn(c, r)
    case CallCommitExport(id, epoch) => CommitOut(c, id, epoch)
    case CallAbort(id, epoch) => Abort(c, id, epoch)
  }

  lemma {:induction false} AllocatedIds(next: int, counts: seq<int>)
    requires forall i :: 0 <= i < |counts| ==> counts[i] >= 0
    ensures Sum(counts) >= 0
    ensures Flatten(AllocateGroups(next, counts)) == Range(next, next + Sum(counts))
    ensures |AllocateGroups(next, counts)| == |counts|
    ensures forall i :: 0 <= i < |counts| ==> |AllocateGroups(next, counts)[i]| == counts[i]
    decreases |counts|
  {
    if counts == [] {
    } else {
      AllocatedIds(next + counts[0], counts[1..]);
      RangeSplit(next, next + counts[0], next + Sum(counts));
      var groups := AllocateGroups(next, counts);
      assert groups[1..] == AllocateGroups(next + counts[0], counts[1..]);
    }
  }

  lemma AddReservation(reservations: Reservations, r: Reservation, bound: int, next: int)
    requires KeysAgree(reservations) && IdsBelow(reservations, bound) && LiveIdsDisjoint(reservations)
    requires 0 <= bound <= next && r.Ids() == Range(bound, next)
    ensures
      var after := reservations[r.Key() := r];
      KeysAgree(after) && IdsBelow(after, next) && LiveIdsDisjoint(after)
  {
  }

  lemma ReserveKeepsInvariant(digests: Digests, c: Core, snapshot: Snapshot)
    requires Inv(digests, c)
    ensures Inv(digests, Reserve(digests, c, snapshot).0)
    ensures c.nextBlockId <= Reserve(digests, c, snapshot).0.nextBlockId
  {
    AllocatedIds(c.nextBlockId, snapshot.fields.kvGroupBlockCounts);
    var (d, reply) := Reserve(digests, c, snapshot);
    if reply.Reserved? {
      AddReservation(c.reservations, reply.reservation, c.nextBlockId, d.nextBlockId);
      assert reply.reservation.Key() !in c.imported;
    }
  }

  lemma RegisterKeepsInvariant(digests: Digests, c: Core, id: RequestId, blocks: seq<KVBlock>)
    requires Inv(digests, c)
    ensures Inv(digests, Register(c, id, blocks).0)
  {
  }

  lemma PrepareKeepsInvariant(digests: Digests, c: Core, snapshot: Snapshot, blocks: seq<KVBlock>)
    requires Inv(digests, c)
    ensures Inv(digests, PrepareOut(digests, c, snapshot, blocks).0)
  {
  }

  lemma ExportKeepsInvariant(digests: Digests, c: Core, id: RequestId)
    requires Inv(digests, c)
    ensures Inv(digests, Export(c, id).0)
  {
  }

  lemma CommitInKeepsInvariant(digests: Digests, c: Core, r: Reservation)
    requires Inv(digests, c)
    ensures Inv(digests, CommitIn(c, r).0)
  {
  }

  lemma CommitOutKeepsInvariant(digests: Digests, c: Core, id: RequestId, epoch: int)
    requires Inv(digests, c)
    ensures Inv(digests, CommitOut(c, id, epoch).0)
  {
  }

  lemma ImportKeepsInvariant(digests: Digests, c: Core, r: Reservation, blocks: seq<KVBlock>)
    requires Inv(digests, c)
    ensures Inv(digests, Import(digests, c, r, blocks).0)
  {
  }

  lemma DropReservation(digests: Digests, imported: Payloads, reservations: Reservations, key: MigrationKey, bound: int)
    requires ImportsBacked(digests, imported, reservations)
    requires KeysAgree(reservations) && IdsBelow(reservations, bound) && LiveIdsDisjoint(reservations)
    ensures ImportsBacked(digests, imported - {key}, reservations - {key})
    ensures
      var after := reservations - {key};
      KeysAgree(after) && IdsBelow(after, bound) && LiveIdsDisjoint(after)
    ensures forall id | id != key.requestId && HasImport(imported, id) :: HasImport(imported - {key}, id)
  {
  }

  lemma AbortKeepsInvariant(digests: Digests, c: Core, id: RequestId, epoch: int)
    requires Inv(digests, c)
    ensures Inv(digests, Abort(c, id, epoch).0)
  {
    DropReservation(digests, c.imported, c.reservations, MigrationKey(id, epoch), c.nextBlockId);
  }

  lemma CallKeepsInvariant(digests: Digests, c: Core, call: Call)
    requires Inv(digests, c)
    ensures Inv(digests, Apply(digests, c, call).0)
  {
    match call
    case CallReserve(snapshot) => ReserveKeepsInvariant(digests, c, snapshot);
    case CallImport(r, blocks) => ImportKeepsInvariant(digests, c, r, blocks);
    case CallAbort(id, epoch) => AbortKeepsInvariant(digests, c, id, epoch);
    case CallRegister(id, blocks) => RegisterKeepsInvariant(digests, c, id, blocks);
    case CallPrepare(snapshot, blocks) => PrepareKeepsInvariant(digests, c, snapshot, blocks);
    case CallExport(id) => ExportKeepsInvariant(digests, c, id);
    case CallCommitImport(r) => CommitInKeepsInvariant(digests, c, r);
    case CallCommitExport(id, epoch) => CommitOutKeepsInvariant(digests, c, id, epoch);
  }

  /** A refused call leaves every dictionary and the id counter as they were. */
  lemma RejectedChangesNothing(digests: Digests, c: Core, call: Call)
    requires Inv(digests, c)
    requires Apply(digests, c, call).1.Rejected?
    ensures Apply(digests, c, call).0 == c
  {
  }

  /** A run: the final value and every block id handed out on the way, in order. */
  ghost function Run(digests: Digests, c: Core, calls: seq<Call>): (r: (Core, seq<int>))
    requires Inv(digests, c)
    decreases |calls|
  {
    if calls == [] then (c, [])
    else
      var (next, reply) := Apply(digests, c, calls[0]);
      CallKeepsInvariant(digests, c, calls[0]);
      var (last, ids) := Run(digests, next, calls[1..]);
      (last, (if reply.Reserved? then reply.reservation.Ids() else []) + ids)
  }

  lemma CallIssuesRange(digests: Digests, c: Core, call: Call)
    requires Inv(digests, c)
    ensures c.nextBlockId <= Apply(digests, c, call).0.nextBlockId
    ensures
      var (next, reply) := Apply(digests, c, call);
      (if reply.Reserved? then reply.reservation.Ids() else []) == Range(c.nextBlockId, next.nextBlockId)
  {
    if call.CallReserve? {
      AllocatedIds(c.nextBlockId, call.snapshot.fields.kvGroupBlockCounts);
    }
  }

  /**
   Over every call sequence from the empty coordinator, refused calls included:
   the invariant holds at the end, and the ids ever reserved, in order, are
   exactly 0, 1, 2, ... So no block id is ever reserved twice, aborts included.
   */
  lemma EveryRun(digests: Digests, calls: seq<Call>)
    ensures Inv(digests, EMPTY)
    ensures
      var (last, ids) := Run(digests, EMPTY, calls);
      && Inv(digests, last)
      && ids == Range(0, last.nextBlockId)
      && Distinct(ids)
  {
    assert Inv(digests, EMPTY);
    EveryRunFrom(digests, EMPTY, calls);
  }

  lemma {:induction false} EveryRunFrom(digests: Digests, c: Core, calls: seq<Call>)
    requires Inv(digests, c)
    ensures
      var (last, ids) := Run(digests, c, calls);
      && Inv(digests, last)
      && c.nextBlockId <= last.nextBlockId
      && ids == Range(c.nextBlockId, last.nextBlockId)
    decreases |calls|
  {
    if calls == [] {
    } else {
      var next := Apply(digests, c, calls[0]).0;
      CallKeepsInvariant(digests, c, calls[0]);
      CallIssuesRange(digests, c, calls[0]);
      EveryRunFrom(digests, next, calls[1..]);
      RangeSplit(c.nextBlockId, next.nextBlockId, Run(digests, next, calls[1..]).0.nextBlockId);
    }
  }

  /**
   Tampering is noticed: under a collision-free digest a snapshot that carries
   the checksum of other fields is accepted by the constructor but by no transition.
   */
  lemma TamperedSnapshotIsRefused(digests: Digests, c: Core, honest: SnapshotFields, forged: SnapshotFields,
                                  blocks: seq<KVBlock>)
    requires Inv(digests, c)
    requires forall f, g :: digests.ofSnapshot(f) == digests.ofSnapshot(g) ==> f == g
    requires digests.ofSnapshot(honest) != ""
    requires honest.Defect().None? && forged.Defect().None?
    ensures NewSnapshot(digests, honest, "").Ok?
    ensures Authentic(digests, NewSnapshot(digests, honest, "").value)
    ensures
      var s := NewSnapshot(digests, forged, NewSnapshot(digests, honest, "").value.checksum);
      && s.Ok?
      && (honest != forged <==> Apply(digests, c, CallReserve(s.value)).1 == Rejected(SnapshotChecksumMismatch))
      && (honest != forged <==> Apply(digests, c, CallPrepare(s.value, blocks)).1 == Rejected(SnapshotChecksumMismatch))
  {
  }
}
