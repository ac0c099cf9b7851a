/**
 The life of one request in one coordinator
 (llumnix/backends/vllm/v1_migration.py:144-235), whatever calls are made for other
 requests in between: what each call answers at each stage, and what it leaves.
 */
module CoordinatorLife {
  import opened Prelude
  import opened Coordinator
  import opened Handover

  ghost predicate ForOthers(calls: seq<Call>, id: RequestId) {
    forall i :: 0 <= i < |calls| ==> calls[i].Id() != id
  }

  lemma SameForTwice(c: Core, d: Core, e: Core, id: RequestId)
    requires SameFor(c, d, id) && SameFor(d, e, id)
    ensures SameFor(c, e, id)
  {
  }

  /** Any calls for other requests, accepted or refused, leave everything about this one alone. */
  lemma {:induction false} OthersRun(digests: Digests, c: Core, calls: seq<Call>, id: RequestId) returns (last: Core)
    requires Inv(digests, c) && ForOthers(calls, id)
    ensures last == Run(digests, c, calls).0 && Inv(digests, last) && SameFor(c, last, id)
    decreases |calls|
  {
    last := Run(digests, c, calls).0;
    if calls == [] {
    } else {
      var next := OthersStep(digests, c, calls[0], id);
      var end := OthersRun(digests, next, calls[1..], id);
      SameForTwice(c, next, end, id);
    }
  }

  lemma OthersStep(digests: Digests, c: Core, call: Call, id: RequestId) returns (next: Core)
    requires Inv(digests, c) && call.Id() != id
    ensures next == Apply(digests, c, call).0 && Inv(digests, next) && SameFor(c, next, id)
  {
    CallKeepsInvariant(digests, c, call);
    OtherCallsDoNotMatter(digests, c, call, id);
    next := Apply(digests, c, call).0;
  }

  // ------------------------------------------------------------------
  // Registered

  /** Running, with these blocks of its own. */
  ghost predicate Local(c: Core, id: RequestId, blocks: seq<KVBlock>) {
    StateOf(c, id) == Some(Running) && Lookup(c.sourceBlocks, id) == Some(blocks)
  }

  /** A request is registered once, and then runs with the given blocks. */
  lemma RegisterReplies(c: Core, id: RequestId, blocks: seq<KVBlock>)
    ensures var (d, reply) := Register(c, id, blocks);
            if StateOf(c, id) == None then reply == Done && Local(d, id, blocks)
            else reply == Rejected(AlreadyRegistered)
  {
  }

  // ------------------------------------------------------------------
  // On the way out

  /** Stopped for the migration this snapshot describes, with these blocks kept. */
  ghost predicate Outgoing(c: Core, s: Snapshot, blocks: seq<KVBlock>, state: MigrationState) {
    && StateOf(c, s.fields.requestId) == Some(state)
    && Lookup(c.snapshots, s.fields.requestId) == Some(s)
    && Lookup(c.sourceBlocks, s.fields.requestId) == Some(blocks)
  }

  /** Only a running request is prepared, with an authentic snapshot that counts its blocks. */
  lemma PrepareReplies(digests: Digests, c: Core, s: Snapshot, blocks: seq<KVBlock>)
    ensures var (d, reply) := PrepareOut(digests, c, s, blocks);
            && (reply == Done ==> Outgoing(d, s, blocks, MigratingOut))
            && (reply == Done <==>
                  && s.checksum == digests.ofSnapshot(s.fields)
                  && StateOf(c, s.fields.requestId) == Some(Running)
                  && |blocks| == Sum(s.fields.kvGroupBlockCounts))
            && (reply == Rejected(SnapshotChecksumMismatch) <==> s.checksum != digests.ofSnapshot(s.fields))
            && (reply == Rejected(NotRunning) <==>
                  s.checksum == digests.ofSnapshot(s.fields) && StateOf(c, s.fields.requestId) != Some(Running))
            && (reply == Done || reply.Rejected?)
            && (reply.Rejected? ==> reply.error in {SnapshotChecksumMismatch, NotRunning, PayloadCountMismatch})
  {
  }

  /** The other calls for a request on its way out: when each is accepted, and why it is refused. */
  lemma OutgoingReplies(digests: Digests, c: Core, s: Snapshot, blocks: seq<KVBlock>, state: MigrationState, e: int)
    requires Inv(digests, c) && Outgoing(c, s, blocks, state) && (state == MigratingOut || state == OutReady)
    ensures var id, epoch := s.fields.requestId, s.fields.migrationEpoch;
            && Export(c, id).1 == (if state == MigratingOut then Exported(s, blocks) else Rejected(NotMigratingOut))
            && CommitOut(c, id, e).1 ==
               (if state == MigratingOut then Rejected(ExportNotReady)
                else if e == epoch then Done else Rejected(EpochMismatch))
            && Abort(c, id, e).1 == (if e == epoch then Done else Rejected(EpochMismatch))
            && Register(c, id, blocks).1 == Rejected(AlreadyRegistered)
    ensures forall r: Reservation | r.requestId == s.fields.requestId :: CommitIn(c, r).1 == Rejected(ImportNotReady)
  {
  }

  /** What the accepted ones leave: the exported blocks stay until the commit, and an abort resumes with them. */
  lemma OutgoingEffects(digests: Digests, c: Core, s: Snapshot, blocks: seq<KVBlock>, state: MigrationState)
    requires Inv(digests, c) && Outgoing(c, s, blocks, state) && (state == MigratingOut || state == OutReady)
    ensures var id, epoch := s.fields.requestId, s.fields.migrationEpoch;
            && (state == MigratingOut ==> Outgoing(Export(c, id).0, s, blocks, OutReady))
            && (state == OutReady ==>
                  var d := CommitOut(c, id, epoch).0;
                  StateOf(d, id) == Some(Released) && id !in d.sourceBlocks)
            && Local(Abort(c, id, epoch).0, id, blocks)
            && MigrationKey(id, epoch) !in Abort(c, id, epoch).0.reservations
  {
  }

  lemma OutgoingStays(c: Core, d: Core, s: Snapshot, blocks: seq<KVBlock>, state: MigrationState)
    requires Outgoing(c, s, blocks, state) && SameFor(c, d, s.fields.requestId)
    ensures Outgoing(d, s, blocks, state)
  {
  }

  /**
   A request that was prepared and exported, with any calls for other requests in
   between, is released by a commit at the prepared epoch and by no other; until then
   it keeps its blocks, and an abort at that epoch, and at no other, resumes it.
   */
  lemma OutgoingLife(digests: Digests, c: Core, s: Snapshot, blocks: seq<KVBlock>, others: seq<Call>, more: seq<Call>,
                     e: int) returns (ready: Core)
    requires Inv(digests, c) && PrepareOut(digests, c, s, blocks).1 == Done
    requires ForOthers(others, s.fields.requestId) && ForOthers(more, s.fields.requestId)
    ensures Run(digests, c, [CallPrepare(s, blocks)] + others + [CallExport(s.fields.requestId)] + more).0 == ready
    ensures Inv(digests, ready) && Outgoing(ready, s, blocks, OutReady)
    ensures var (d, reply) := CommitOut(ready, s.fields.requestId, e);
            if e == s.fields.migrationEpoch
            then reply == Done && StateOf(d, s.fields.requestId) == Some(Released)
            && s.fields.requestId !in d.sourceBlocks
            else reply == Rejected(EpochMismatch) && Outgoing(d, s, blocks, OutReady)
    ensures var (d, reply) := Abort(ready, s.fields.requestId, e);
            if e == s.fields.migrationEpoch then reply == Done && Local(d, s.fields.requestId, blocks)
            else reply == Rejected(EpochMismatch) && Outgoing(d, s, blocks, OutReady)
  {
    var prepared := Prepares(digests, c, s, blocks);
    var waiting := OthersRun(digests, prepared, others, s.fields.requestId);
    OutgoingStays(prepared, waiting, s, blocks, MigratingOut);
    var exported := Exports(digests, waiting, s, blocks);
    ready := OthersRun(digests, exported, more, s.fields.requestId);
    OutgoingStays(exported, ready, s, blocks, OutReady);
    OutgoingReplies(digests, ready, s, blocks, OutReady, e);
    OutgoingEffects(digests, ready, s, blocks, OutReady);
    RunInParts(digests, c, CallPrepare(s, blocks), others, CallExport(s.fields.requestId), more);
  }

  lemma Prepares(digests: Digests, c: Core, s: Snapshot, blocks: seq<KVBlock>) returns (d: Core)
    requires Inv(digests, c) && PrepareOut(digests, c, s, blocks).1 == Done
    ensures d == Apply(digests, c, CallPrepare(s, blocks)).0 && Inv(digests, d) && Outgoing(d, s, blocks, MigratingOut)
  {
    CallKeepsInvariant(digests, c, CallPrepare(s, blocks));
    PrepareReplies(digests, c, s, blocks);
    d := PrepareOut(digests, c, s, blocks).0;
  }

  lemma Exports(digests: Digests, c: Core, s: Snapshot, blocks: seq<KVBlock>) returns (d: Core)
    requires Inv(digests, c) && Outgoing(c, s, blocks, MigratingOut)
    ensures d == Apply(digests, c, CallExport(s.fields.requestId)).0 && Inv(digests, d)
    ensures Outgoing(d, s, blocks, OutReady)
  {
    CallKeepsInvariant(digests, c, CallExport(s.fields.requestId));
    OutgoingEffects(digests, c, s, blocks, MigratingOut);
    d := Export(c, s.fields.requestId).0;
  }

  lemma {:induction false} RunConcat(digests: Digests, c: Core, p: seq<Call>, q: seq<Call>)
    requires Inv(digests, c)
    ensures Inv(digests, Run(digests, c, p).0)
    ensures Run(digests, c, p + q).0 == Run(digests, Run(digests, c, p).0, q).0
    decreases |p|
  {
    if p == [] {
      assert p + q == q;
    } else {
      CallKeepsInvariant(digests, c, p[0]);
      assert (p + q)[1..] == p[1..] + q;
      RunConcat(digests, Apply(digests, c, p[0]).0, p[1..], q);
    }
  }

  lemma RunOne(digests: Digests, c: Core, call: Call)
    requires Inv(digests, c)
    ensures Inv(digests, Apply(digests, c, call).0) && Run(digests, c, [call]).0 == Apply(digests, c, call).0
  {
    CallKeepsInvariant(digests, c, call);
    assert [call][1..] == [];
  }

  lemma RunInParts(digests: Digests, c: Core, first: Call, others: seq<Call>, second: Call, more: seq<Call>)
    requires Inv(digests, c)
    ensures var c1 := Apply(digests, c, first).0;
            && Inv(digests, c1)
            && var c2 := Run(digests, c1, others).0;
               && Inv(digests, c2)
               && var c3 := Apply(digests, c2, second).0;
                  Inv(digests, c3) && Run(digests, c, [first] + others + [second] + more).0 == Run(digests, c3, more).0
  {
    RunOne(digests, c, first);
    var c1 := Apply(digests, c, first).0;
    RunConcat(digests, c, [first], others);
    RunConcat(digests, c, [first] + others, [second]);
    RunOne(digests, Run(digests, c1, others).0, second);
    RunConcat(digests, c, [first] + others + [second], more);
  }

  // ------------------------------------------------------------------
  // On the way in

  /** Reserved under this key as r, with this payload if any. */
  ghost predicate Incoming(c: Core, r: Reservation, payload: Option<seq<KVBlock>>) {
    && StateOf(c, r.requestId) == Some(if payload.None? then Importing else ImportReady)
    && Lookup(c.reservations, r.Key()) == Some(r)
    && Lookup(c.imported, r.Key()) == payload
  }

  /** A migration is reserved once, by an authentic snapshot, with a group of ids for every group of blocks. */
  lemma ReserveReplies(digests: Digests, c: Core, s: Snapshot)
    requires Inv(digests, c)
    ensures var (d, reply) := Reserve(digests, c, s);
            var key := MigrationKey(s.fields.requestId, s.fields.migrationEpoch);
            if s.checksum != digests.ofSnapshot(s.fields) then reply == Rejected(SnapshotChecksumMismatch)
            else if key in c.reservations then reply == Rejected(DuplicateEpoch)
            else
              && reply.Reserved? && reply.reservation.Key() == key && Incoming(d, reply.reservation, None)
              && |reply.reservation.blockIds| == |s.fields.kvGroupBlockCounts|
              && (forall i :: 0 <= i < |s.fields.kvGroupBlockCounts| ==>
                    |reply.reservation.blockIds[i]| == s.fields.kvGroupBlockCounts[i])
              && BlockCount(reply.reservation.blockIds) == Sum(s.fields.kvGroupBlockCounts)
  {
    AllocatedIds(c.nextBlockId, s.fields.kvGroupBlockCounts);
  }

  /** A block's coordinates are not negative, and its checksum, if it has one, is that of its payload. */
  predicate Sound(digests: Digests, b: KVBlock) {
    b.group >= 0 && b.ordinal >= 0 && (b.checksum == "" || b.checksum == digests.ofPayload(b.payload))
  }

  lemma IntactIsSound(digests: Digests, b: KVBlock)
    ensures Intact(digests, b) <==> Sound(digests, b)
  {
  }

  /** The complaint about a block that is not sound. */
  function Complaint(b: KVBlock): MigrationError {
    if b.group < 0 || b.ordinal < 0 then NegativeBlockCoordinates else BlockChecksumMismatch
  }

  /** The first block that is not sound is complained about. */
  lemma {:induction false} FirstDefectMeaning(digests: Digests, blocks: seq<KVBlock>, i: nat)
    requires i <= |blocks| && (forall j :: 0 <= j < i ==> Sound(digests, blocks[j]))
    requires i < |blocks| ==> !Sound(digests, blocks[i])
    ensures FirstDefect(digests, blocks) == if i < |blocks| then Some(Complaint(blocks[i])) else None
    decreases |blocks|
  {
    if blocks == [] || i == 0 {
    } else {
      FirstDefectMeaning(digests, blocks[1..], i - 1);
    }
  }

  /** An import is accepted for the very reservation handed out, with as many blocks, all of them sound. */
  lemma ImportReplies(digests: Digests, c: Core, r: Reservation, given: Reservation, blocks: seq<KVBlock>)
    requires Lookup(c.reservations, r.Key()) == Some(r) && given.Key() == r.Key()
    ensures var (d, reply) := Import(digests, c, given, blocks);
            && (reply == Done <==>
                  given == r && |blocks| == BlockCount(r.blockIds)
                  && forall i :: 0 <= i < |blocks| ==> Sound(digests, blocks[i]))
            && (reply == Done ==> Incoming(d, r, Some(blocks)))
            && (reply == Rejected(UnknownReservation) <==> given != r)
            && (reply == Rejected(ImportCountMismatch) <==> given == r && |blocks| != BlockCount(r.blockIds))
  {
    forall i | 0 <= i < |blocks|
      ensures Intact(digests, blocks[i]) <==> Sound(digests, blocks[i])
    {
      IntactIsSound(digests, blocks[i]);
    }
    DefectKinds(digests, blocks);
  }

  lemma {:induction false} DefectKinds(digests: Digests, blocks: seq<KVBlock>)
    ensures FirstDefect(digests, blocks) in {None, Some(NegativeBlockCoordinates), Some(BlockChecksumMismatch)}
    decreases |blocks|
  {
    if blocks == [] {
    } else {
      DefectKinds(digests, blocks[1..]);
    }
  }

  /** A commit needs a payload under the epoch it names; without any import of the request it is not ready. */
  lemma CommitInReplies(c: Core, r: Reservation, payload: Option<seq<KVBlock>>, given: Reservation)
    requires Incoming(c, r, payload) && given.requestId == r.requestId
    ensures var (d, reply) := CommitIn(c, given);
            && (reply == Rejected(ImportNotReady) <==> payload.None?)
            && (reply == Rejected(NoImportedPayload) <==> payload.Some? && given.Key() !in c.imported)
            && (payload.Some? && given.Key() == r.Key() ==> reply == Done && LiveAt(d, r.Key(), payload.value))
            && (reply.Rejected? ==> Incoming(d, r, payload))
  {
  }

  /** An unfinished import can be neither prepared, exported, released nor registered. */
  lemma IncomingRefuses(digests: Digests, c: Core, r: Reservation, payload: Option<seq<KVBlock>>, s: Snapshot, e: int,
                        blocks: seq<KVBlock>)
    requires Inv(digests, c) && Incoming(c, r, payload) && s.fields.requestId == r.requestId
    ensures Export(c, r.requestId).1 == Rejected(NotMigratingOut)
    ensures CommitOut(c, r.requestId, e).1 == Rejected(ExportNotReady)
    ensures Register(c, r.requestId, blocks).1 == Rejected(AlreadyRegistered)
    ensures PrepareOut(digests, c, s, blocks).1 != Done
  {
  }

  /**
   An abort of an import is accepted at every epoch, unless an outgoing snapshot of
   another epoch is left. It forgets the request, but it drops the reservation and the
   payload exactly when it names the epoch of the import.
   */
  lemma IncomingAbort(c: Core, r: Reservation, payload: Option<seq<KVBlock>>, e: int)
    requires Incoming(c, r, payload)
    ensures var (d, reply) := Abort(c, r.requestId, e);
            if NoStaleSnapshot(c, MigrationKey(r.requestId, e)) then
              && reply == Done && StateOf(d, r.requestId) == None
              && (r.Key() !in d.reservations && r.Key() !in d.imported <==> e == r.epoch)
              && (e != r.epoch ==>
                    Lookup(d.reservations, r.Key()) == Some(r) && Lookup(d.imported, r.Key()) == payload)
            else reply == Rejected(EpochMismatch)
  {
  }

  /** The failing input: a reservation at epoch 1, aborted at epoch 2, is left behind and blocks its epoch for good. */
  lemma WrongEpochLeavesReservation(digests: Digests)
    ensures var s := SampleSnapshot(digests, 1);
            var (d, reply) := Abort(Reserve(digests, EMPTY, s).0, "r", 2);
            && reply == Done && StateOf(d, "r") == None && MigrationKey("r", 1) in d.reservations
            && Reserve(digests, d, s).1 == Rejected(DuplicateEpoch)
  {
    var s := SampleSnapshot(digests, 1);
    ReserveReplies(digests, EMPTY, s);
    var r := Reserve(digests, EMPTY, s).1.reservation;
    IncomingAbort(Reserve(digests, EMPTY, s).0, r, None, 2);
  }

  /** Neither a running nor a released nor an unknown request can be aborted. */
  lemma NothingToAbort(c: Core, id: RequestId, e: int)
    requires StateOf(c, id) in {None, Some(Running), Some(Released)}
    ensures Abort(c, id, e).1 ==
            Rejected(if NoStaleSnapshot(c, MigrationKey(id, e)) then CannotAbort else EpochMismatch)
  {
  }

  lemma IncomingStays(c: Core, d: Core, r: Reservation, payload: Option<seq<KVBlock>>)
    requires Incoming(c, r, payload) && SameFor(c, d, r.requestId)
    ensures Incoming(d, r, payload)
  {
  }

  lemma Reserves(digests: Digests, c: Core, s: Snapshot) returns (d: Core, r: Reservation)
    requires Inv(digests, c) && Reserve(digests, c, s).1.Reserved?
    ensures d == Apply(digests, c, CallReserve(s)).0 && Inv(digests, d) && Incoming(d, r, None)
    ensures Reserve(digests, c, s).1 == Reserved(r) && r.requestId == s.fields.requestId
    ensures r.epoch == s.fields.migrationEpoch && BlockCount(r.blockIds) == Sum(s.fields.kvGroupBlockCounts)
  {
    CallKeepsInvariant(digests, c, CallReserve(s));
    ReserveReplies(digests, c, s);
    d, r := Reserve(digests, c, s).0, Reserve(digests, c, s).1.reservation;
  }

  lemma Imports(digests: Digests, c: Core, r: Reservation, blocks: seq<KVBlock>) returns (d: Core)
    requires Inv(digests, c) && Incoming(c, r, None) && |blocks| == BlockCount(r.blockIds)
    requires forall i :: 0 <= i < |blocks| ==> Sound(digests, blocks[i])
    ensures d == Apply(digests, c, CallImport(r, blocks)).0 && Inv(digests, d) && Incoming(d, r, Some(blocks))
  {
    CallKeepsInvariant(digests, c, CallImport(r, blocks));
    ImportReplies(digests, c, r, r, blocks);
    d := Import(digests, c, r, blocks).0;
  }

  /**
   A migration that was reserved and whose blocks were imported, with any calls for
   other requests in between, is committed under its reservation and then runs with
   exactly those blocks; its epoch cannot be reserved again.
   */
  lemma IncomingLife(digests: Digests, c: Core, s: Snapshot, others: seq<Call>, blocks: seq<KVBlock>, more: seq<Call>)
    returns (r: Reservation, ready: Core)
    requires Inv(digests, c) && Reserve(digests, c, s).1.Reserved?
    requires ForOthers(others, s.fields.requestId) && ForOthers(more, s.fields.requestId)
    requires |blocks| == Sum(s.fields.kvGroupBlockCounts)
    requires forall i :: 0 <= i < |blocks| ==> Sound(digests, blocks[i])
    ensures Reserve(digests, c, s).1 == Reserved(r)
    ensures Run(digests, c, [CallReserve(s)] + others + [CallImport(r, blocks)] + more).0 == ready
    ensures Inv(digests, ready) && Incoming(ready, r, Some(blocks))
    ensures CommitIn(ready, r).1 == Done && LiveAt(CommitIn(ready, r).0, r.Key(), blocks)
    ensures Reserve(digests, ready, s).1 == Rejected(DuplicateEpoch)
  {
    var reserved;
    reserved, r := Reserves(digests, c, s);
    var waiting := OthersRun(digests, reserved, others, s.fields.requestId);
    IncomingStays(reserved, waiting, r, None);
    var imported := Imports(digests, waiting, r, blocks);
    ready := OthersRun(digests, imported, more, s.fields.requestId);
    IncomingStays(imported, ready, r, Some(blocks));
    CommitInReplies(ready, r, Some(blocks), r);
    ReserveReplies(digests, ready, s);
    ReserveReplies(digests, c, s);
    RunInParts(digests, c, CallReserve(s), others, CallImport(r, blocks), more);
  }

  // ------------------------------------------------------------------
  // Snapshots and blocks

  /** What the constructor of a snapshot asks for, in its order. */
  lemma DefectMeaning(f: SnapshotFields)
    ensures f.Defect() == None <==>
            && f.requestId != "" && f.migrationEpoch > 0 && f.maxTokens >= 0
            && 0 <= f.numComputedTokens <= |f.allTokenIds| && f.protocolVersion == 1
            && forall i :: 0 <= i < |f.kvGroupBlockCounts| ==> f.kvGroupBlockCounts[i] >= 0
    ensures f.Defect() == Some(EmptyRequestId) <==> f.requestId == ""
    ensures f.requestId != "" ==> (f.Defect() == Some(NonPositiveEpoch) <==> f.migrationEpoch <= 0)
    ensures f.requestId != "" && f.migrationEpoch > 0 ==>
              (f.Defect() == Some(NegativeTokenCount) <==> f.numComputedTokens < 0 || f.maxTokens < 0)
    ensures f.Defect() == Some(ComputedExceedsTokens) ==> f.numComputedTokens > |f.allTokenIds|
    ensures f.Defect() == Some(UnsupportedProtocol) ==> f.protocolVersion != 1
  {
  }

  /** A snapshot built without a checksum is authentic; one built with a checksum keeps it. */
  lemma NewSnapshotMeaning(digests: Digests, f: SnapshotFields, checksum: string)
    ensures var r := NewSnapshot(digests, f, checksum);
            && (r.Ok? <==> f.Defect().None?)
            && (r.Err? ==> f.Defect() == Some(r.error))
            && (r.Ok? ==> r.value.fields == f)
            && (r.Ok? && checksum == "" ==> Authentic(digests, r.value))
            && (r.Ok? && checksum != "" ==> r.value.checksum == checksum)
  {
  }

  /**
   A block built from sound parts is accepted again as it is, whatever its payload; under
   a collision-free digest it is not accepted with another payload.
   */
  lemma BlockRoundTrip(digests: Digests, group: int, ordinal: int, payload: Bytes, other: Bytes)
    requires group >= 0 && ordinal >= 0 && digests.ofPayload(payload) != ""
    ensures var r := NewBlock(digests, group, ordinal, payload, "");
            && r.Ok? && r.value.group == group && r.value.ordinal == ordinal && r.value.payload == payload
            && NewBlock(digests, group, ordinal, payload, r.value.checksum) == r
            && (digests.ofPayload(other) != digests.ofPayload(payload) ==>
                  NewBlock(digests, group, ordinal, other, r.value.checksum) == Err(BlockChecksumMismatch))
  {
  }
}
