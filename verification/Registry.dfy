/**
 The scheduler's registries: which instances exist, what was last polled from them
 and which sub-scheduler knows them (llumnix/global_scheduler/global_scheduler.py:58-125
 and the add, remove and update methods of the three sub-schedulers), and the counted
 dispatch on those snapshots (llumnix/global_scheduler/dispatch_scheduler.py:55-103,
 llumnix/manager.py:471-493).
 */
module Registry {
  import opened Prelude
  import opened Names
  import opened Dispatch
  import Affinity
  import Loads

  /** A polled snapshot; `kind` is the role the instance reports, if any. */
  datatype Info = Info(id: InstanceId, kind: Option<InstanceType>, step: int, load: Loads.Load, numWaiting: nat,
                       hashes: set<Affinity.BlockHash>)

  /** What an instance is registered with before it is polled. */
  function Unpolled(id: InstanceId): Info {
    Info(id, None, -1, Loads.NegInf, 0, {})
  }

  /** What dispatch reads of a snapshot. */
  function ForDispatch(info: Info): DispatchInfo {
    DispatchInfo(info.id, info.load, info.numWaiting, info.hashes)
  }

  type TypeSets = map<InstanceType, set<InstanceId>>

  /** The dictionary of snapshots, shared by reference. */
  class InfoTable {
    var infos: map<InstanceId, Info>

    constructor ()
      ensures infos == map[]
    {
      infos := map[];
    }
  }

  /** Snapshots taken over for the instances that are open to dispatch. */
  function TakenOver(snapshots: map<InstanceId, Info>, latest: map<InstanceId, Info>, available: set<InstanceId>)
    : map<InstanceId, Info>
  {
    snapshots + map id | id in latest && id in available :: latest[id]
  }

  ghost predicate OwnIds(snapshots: map<InstanceId, Info>) {
    forall id :: id in snapshots ==> snapshots[id].id == id
  }

  /** Every snapshot once, in some order. */
  ghost predicate Lists(infos: seq<DispatchInfo>, snapshots: map<InstanceId, Info>) {
    && (forall i, j :: 0 <= i < j < |infos| ==> infos[i].id != infos[j].id)
    && (forall i :: 0 <= i < |infos| ==> infos[i].id in snapshots && infos[i] == ForDispatch(snapshots[infos[i].id]))
    && (forall id :: id in snapshots ==> ForDispatch(snapshots[id]) in infos)
  }

  /** Dispatch reads the instance's own load, queue length and cached hashes. */
  lemma ForDispatchMeaning(info: Info)
    ensures var d := ForDispatch(info);
            d.id == info.id && d.load == info.load && d.numWaiting == info.numWaiting && d.hashes == info.hashes
  {
  }

  /** The values of the dictionary. */
  method Values(snapshots: map<InstanceId, Info>) returns (infos: seq<DispatchInfo>)
    requires OwnIds(snapshots)
    ensures Lists(infos, snapshots)
  {
    infos := [];
    var rest := snapshots.Keys;
    while rest != {}
      invariant rest <= snapshots.Keys && Lists(infos, snapshots - rest)
    {
      var id :| id in rest;
      ListsOneMore(infos, snapshots - rest, snapshots[id]);
      assert (snapshots - rest)[id := snapshots[id]] == snapshots - (rest - {id});
      rest := rest - {id};
      infos := infos + [ForDispatch(snapshots[id])];
    }
    assert snapshots - rest == snapshots;
  }

  lemma ListsOneMore(infos: seq<DispatchInfo>, part: map<InstanceId, Info>, info: Info)
    requires Lists(infos, part) && info.id !in part
    ensures Lists(infos + [ForDispatch(info)], part[info.id := info])
  {
    var more := infos + [ForDispatch(info)];
    assert more[|infos|] == ForDispatch(info);
    forall id | id in part
      ensures ForDispatch(part[id]) in more
    {
      assert ForDispatch(part[id]) in infos;
    }
  }

  function Counted(numRequests: map<InstanceId, nat>, id: InstanceId): map<InstanceId, nat> {
    numRequests[id := (if id in numRequests then numRequests[id] else 0) + 1]
  }

  /** One more for this instance, nothing for the others. */
  lemma CountedMeaning(numRequests: map<InstanceId, nat>, id: InstanceId, other: InstanceId)
    ensures Lookup(Counted(numRequests, id), id) == Some(1 + if id in numRequests then numRequests[id] else 0)
    ensures other != id ==> Lookup(Counted(numRequests, id), other) == Lookup(numRequests, other)
  {
  }

  class DispatchScheduler {
    const policy: Policy
    const topK: nat
    var available: set<InstanceId>
    var snapshots: map<InstanceId, Info>
    var totalNumRequests: nat
    var numRequests: map<InstanceId, nat>

    constructor (policy: Policy, topK: nat)
      ensures this.policy == policy && this.topK == topK
      ensures available == {} && snapshots == map[] && totalNumRequests == 0 && numRequests == map[]
    {
      this.policy, this.topK := policy, topK;
      available, snapshots, totalNumRequests, numRequests := {}, map[], 0, map[];
    }

    method UpdateInstanceInfos(latest: map<InstanceId, Info>)
      modifies this`snapshots
      ensures snapshots == TakenOver(old(snapshots), latest, available)
    {
      var rest := latest.Keys;
      while rest != {}
        invariant rest <= latest.Keys
        invariant snapshots == TakenOver(old(snapshots), latest - rest, available)
      {
        var id :| id in rest;
        if id in available {
          snapshots := snapshots[id := latest[id]];
        }
        rest := rest - {id};
      }
      assert latest - rest == latest;
    }

    /** The constrained role pool sees every snapshot. */
    method ShareAll(latest: map<InstanceId, Info>)
      modifies this`snapshots
      ensures snapshots == old(snapshots) + latest
    {
      snapshots := snapshots + latest;
    }

    /** A choice from a constrained pool of snapshots; one request is counted, for exactly the chosen instance. */
    method DispatchCandidates(ids: set<InstanceId>, hashes: set<Affinity.BlockHash>, random: nat)
      returns (r: Result<DispatchInfo, Failure>, ghost infos: seq<DispatchInfo>)
      requires OwnIds(snapshots)
      modifies this`totalNumRequests, this`numRequests
      ensures Lists(infos, snapshots) && Chosen(infos, ids, hashes, policy, topK, random, r)
      ensures r.Err? ==> if ids !! snapshots.Keys then r.error == NoCandidates else r.error == EmptyTopK && topK == 0
      ensures numRequests == if r.Ok? then Counted(old(numRequests), r.value.id) else old(numRequests)
      ensures totalNumRequests == old(totalNumRequests) + if ids !! snapshots.Keys then 0 else 1
    {
      var values := Values(snapshots);
      infos := values;
      r := ChooseAmong(values, ids, hashes, policy, topK, random);
      FailureMeaning(values, ids, hashes, policy, topK, random, r);
      CandidatesMeaning(values, snapshots, ids);
      if r != Err(NoCandidates) {
        totalNumRequests := totalNumRequests + 1;
      }
      if r.Ok? {
        numRequests := Counted(numRequests, r.value.id);
      }
    }

    /** Two choices, one after the other; an exception in the first one prevents the second. */
    method DispatchBoth(first: set<InstanceId>, second: set<InstanceId>, hashes: set<Affinity.BlockHash>,
                        random: nat, random': nat)
      returns (r: Result<(DispatchInfo, DispatchInfo), Failure>, ghost infos: seq<DispatchInfo>,
               ghost infos': seq<DispatchInfo>)
      requires OwnIds(snapshots)
      modifies this`totalNumRequests, this`numRequests
      ensures r.Ok? ==>
                && Lists(infos, snapshots) && Chosen(infos, first, hashes, policy, topK, random, Ok(r.value.0))
                && Lists(infos', snapshots) && Chosen(infos', second, hashes, policy, topK, random', Ok(r.value.1))
                && numRequests == Counted(Counted(old(numRequests), r.value.0.id), r.value.1.id)
      ensures old(numRequests).Keys <= numRequests.Keys
      ensures r.Err? ==> topK == 0 || first !! snapshots.Keys || second !! snapshots.Keys
    {
      var x, y;
      infos' := [];
      x, infos := DispatchCandidates(first, hashes, random);
      if x.Err? {
        return Err(x.error), infos, infos';
      }
      y, infos' := DispatchCandidates(second, hashes, random');
      if y.Err? {
        return Err(y.error), infos, infos';
      }
      return Ok((x.value, y.value)), infos, infos';
    }

    method AddInstance(id: InstanceId, kind: InstanceType)
      modifies this`available, this`numRequests
      ensures available == if kind == Decode then old(available) else old(available) + {id}
      ensures numRequests == if kind == Decode then old(numRequests) else old(numRequests)[id := 0]
    {
      if kind == NoConstraints || kind == Prefill {
        available := available + {id};
        numRequests := numRequests[id := 0];
      }
    }

    method RemoveInstance(id: InstanceId)
      modifies this
      ensures available == old(available) - {id} && snapshots == old(snapshots) - {id}
      ensures numRequests == if id in old(available) then old(numRequests) - {id} else old(numRequests)
    {
      snapshots := snapshots - {id};
      if id in available {
        available := available - {id};
        numRequests := numRequests - {id};
      }
    }
  }

  lemma CandidatesMeaning(infos: seq<DispatchInfo>, snapshots: map<InstanceId, Info>, ids: set<InstanceId>)
    requires Lists(infos, snapshots) && OwnIds(snapshots)
    ensures Candidates(infos, ids) == [] <==> ids !! snapshots.Keys
  {
    if id :| id in ids && id in snapshots {
      assert ForDispatch(snapshots[id]) in Candidates(infos, ids);
    }
    if Candidates(infos, ids) != [] {
      assert Candidates(infos, ids)[0] in infos;
    }
  }

  class MigrationScheduler {
    var ids: set<InstanceId>
    var table: InfoTable?

    constructor ()
      ensures ids == {} && table == null
    {
      ids, table := {}, null;
    }

    method UpdateInstanceInfos(latest: InfoTable)
      modifies this`table
      ensures table == latest
    {
      table := latest;
    }

    method AddInstance(id: InstanceId)
      modifies this`ids
      ensures ids == old(ids) + {id}
    {
      ids := ids + {id};
    }

    method RemoveInstance(id: InstanceId)
      modifies this`ids
      ensures ids == old(ids) - {id}
    {
      if id in ids {
        ids := ids - {id};
      }
    }
  }

  const ALL_TYPES := [NoConstraints, Prefill, Decode]

  class ScalingScheduler {
    var ids: set<InstanceId>
    var typeSets: TypeSets
    var table: InfoTable?

    constructor ()
      ensures ids == {} && typeSets == NoTypes() && table == null
    {
      ids, typeSets, table := {}, NoTypes(), null;
    }

    method UpdateInstanceInfos(latest: InfoTable)
      modifies this`table
      ensures table == latest
    {
      table := latest;
    }

    method AddInstance(id: InstanceId, kind: InstanceType)
      requires kind in typeSets
      modifies this`ids, this`typeSets
      ensures ids == old(ids) + {id} && typeSets == old(typeSets)[kind := old(typeSets)[kind] + {id}]
    {
      ids := ids + {id};
      typeSets := typeSets[kind := typeSets[kind] + {id}];
    }

    /** Leaves the first type set that has the instance, and only that one. */
    method RemoveInstance(id: InstanceId)
      requires forall t :: t in typeSets
      modifies this`ids, this`typeSets
      ensures ids == old(ids) - {id}
      ensures forall t :: t in typeSets
      ensures var n := FirstTypeOf(old(typeSets), id);
              typeSets == if n == |ALL_TYPES| then old(typeSets)
                          else old(typeSets)[ALL_TYPES[n] := old(typeSets)[ALL_TYPES[n]] - {id}]
    {
      if id in ids {
        ids := ids - {id};
      }
      for n := 0 to |ALL_TYPES|
        invariant typeSets == old(typeSets) && n <= FirstTypeOf(typeSets, id)
        invariant ids == old(ids) - {id}
      {
        if id in typeSets[ALL_TYPES[n]] {
          typeSets := typeSets[ALL_TYPES[n] := typeSets[ALL_TYPES[n]] - {id}];
          return;
        }
      }
    }
  }

  function NoTypes(): TypeSets {
    map[NoConstraints := {}, Prefill := {}, Decode := {}]
  }

  /** Index of the first type set that has the instance. */
  function FirstTypeOf(typeSets: TypeSets, id: InstanceId): (n: nat)
    requires forall t :: t in typeSets
    ensures n <= |ALL_TYPES|
    ensures n < |ALL_TYPES| ==> id in typeSets[ALL_TYPES[n]]
    ensures forall m :: 0 <= m < n ==> id !in typeSets[ALL_TYPES[m]]
  {
    if id in typeSets[NoConstraints] then 0
    else if id in typeSets[Prefill] then 1
    else if id in typeSets[Decode] then 2
    else 3
  }

  /** Each type set holds exactly the registered instances of that type. */
  ghost predicate TypesAgree(kinds: map<InstanceId, InstanceType>, typeSets: TypeSets) {
    forall t :: t in typeSets && forall id :: id in typeSets[t] <==> id in kinds && kinds[id] == t
  }

  /** The instances open to ordinary dispatch are those that are not decode-only. */
  ghost predicate AvailableAgree(kinds: map<InstanceId, InstanceType>, available: set<InstanceId>) {
    forall id :: id in available <==> id in kinds && kinds[id] != Decode
  }

  /** Snapshots are filed under the instance they come from, and only for registered ones. */
  ghost predicate SnapshotsAgree(kinds: map<InstanceId, InstanceType>, snapshots: map<InstanceId, Info>) {
    snapshots.Keys <= kinds.Keys && OwnIds(snapshots)
  }

  lemma NobodyAgrees()
    ensures TypesAgree(map[], NoTypes())
  {
    forall t: InstanceType
      ensures t in NoTypes() && NoTypes()[t] == {}
    {
      match t
      case NoConstraints =>
      case Prefill =>
      case Decode =>
    }
  }

  lemma TypesAfterAdd(kinds: map<InstanceId, InstanceType>, typeSets: TypeSets, id: InstanceId, kind: InstanceType)
    requires TypesAgree(kinds, typeSets) && id !in kinds
    ensures TypesAgree(kinds[id := kind], typeSets[kind := typeSets[kind] + {id}])
  {
  }

  lemma TypesAfterRemove(kinds: map<InstanceId, InstanceType>, typeSets: TypeSets, id: InstanceId)
    requires TypesAgree(kinds, typeSets) && id in kinds
    ensures FirstTypeOf(typeSets, id) < |ALL_TYPES|
    ensures var t := ALL_TYPES[FirstTypeOf(typeSets, id)];
            TypesAgree(kinds - {id}, typeSets[t := typeSets[t] - {id}])
  {
  }

  /** Registering the first n of ids, each with its type, unless it is there already. */
  function Up(kinds: map<InstanceId, InstanceType>, ids: seq<InstanceId>, types: seq<InstanceType>, n: nat)
    : map<InstanceId, InstanceType>
    requires n <= |ids| && n <= |types|
  {
    if n == 0 then kinds
    else
      var before := Up(kinds, ids, types, n - 1);
      if ids[n - 1] in before then before else before[ids[n - 1] := types[n - 1]]
  }

  function Down(kinds: map<InstanceId, InstanceType>, gone: seq<InstanceId>): map<InstanceId, InstanceType> {
    kinds - set id | id in gone
  }

  datatype Event =
    | ScaleUp(ids: seq<InstanceId>, types: seq<InstanceType>)
    | ScaleDown(gone: seq<InstanceId>)
    | Poll(polled: seq<Info>)
    | Dispatching
    | SelectRoles(hashes: set<Affinity.BlockHash>, random: nat, random': nat)

  /** Which instances a history leaves registered, and as what: only scale-up and scale-down matter. */
  function Registered(kinds: map<InstanceId, InstanceType>, history: seq<Event>): map<InstanceId, InstanceType> {
    if history == [] then kinds
    else
      var before := Registered(kinds, history[..|history| - 1]);
      match history[|history| - 1]
      case ScaleUp(ids, types) => Up(before, ids, types, Min(|ids|, |types|))
      case ScaleDown(gone) => Down(before, gone)
      case _ => before
  }

  /** The snapshots after a poll: answers from instances that are not registered are dropped. */
  function Latest(infos: map<InstanceId, Info>, polled: seq<Info>): map<InstanceId, Info> {
    if polled == [] then infos
    else
      var before, last := Latest(infos, polled[..|polled| - 1]), polled[|polled| - 1];
      if last.id in before then before[last.id := last] else before
  }

  predicate LastAnswer(polled: seq<Info>, id: InstanceId, n: int) {
    0 <= n < |polled| && polled[n].id == id && forall m :: n < m < |polled| ==> polled[m].id != id
  }

  /** The last answer of each registered instance wins, and nobody else is added. */
  lemma {:induction false} LastAnswerWins(infos: map<InstanceId, Info>, polled: seq<Info>, id: InstanceId)
    ensures id in Latest(infos, polled) <==> id in infos
    ensures id in infos && (forall n :: 0 <= n < |polled| ==> polled[n].id != id) ==>
              Latest(infos, polled)[id] == infos[id]
    ensures id in infos ==> forall n :: LastAnswer(polled, id, n) ==> Latest(infos, polled)[id] == polled[n]
  {
    if polled == [] {
    } else {
      var k := |polled| - 1;
      assert polled == polled[..k] + [polled[k]];
      LastAnswerWins(infos, polled[..k], id);
      LastAnswerWins(infos, polled[..k], polled[k].id);
      forall n | LastAnswer(polled, id, n) && n < k
        ensures LastAnswer(polled[..k], id, n)
      {
      }
    }
  }

  /** The event registers, or re-registers, the instance. */
  ghost predicate Ups(e: Event, id: InstanceId) {
    e.ScaleUp? && exists k :: 0 <= k < |e.ids| && k < |e.types| && e.ids[k] == id
  }

  predicate Downs(e: Event, id: InstanceId) {
    e.ScaleDown? && id in e.gone
  }

  /** The instance was registered at step i and not scaled down since. */
  ghost predicate RegisteredSince(history: seq<Event>, id: InstanceId, i: int) {
    0 <= i < |history| && Ups(history[i], id) && forall j :: i < j < |history| ==> !Downs(history[j], id)
  }

  lemma {:induction false} UpMembers(kinds: map<InstanceId, InstanceType>, ids: seq<InstanceId>,
                                     types: seq<InstanceType>, n: nat, id: InstanceId)
    requires n <= |ids| && n <= |types|
    ensures id in Up(kinds, ids, types, n) <==> id in kinds || exists k :: 0 <= k < n && ids[k] == id
    ensures id in kinds ==> id in Up(kinds, ids, types, n) && Up(kinds, ids, types, n)[id] == kinds[id]
  {
    if n == 0 {
    } else {
      UpMembers(kinds, ids, types, n - 1, id);
    }
  }

  /** A new instance gets the type that stands at its first place. */
  lemma {:induction false} UpType(kinds: map<InstanceId, InstanceType>, ids: seq<InstanceId>,
                                  types: seq<InstanceType>, n: nat, k: nat)
    requires n <= |ids| && n <= |types| && k < n && ids[k] !in kinds && ids[k] !in ids[..k]
    ensures ids[k] in Up(kinds, ids, types, n) && Up(kinds, ids, types, n)[ids[k]] == types[k]
  {
    if n == k + 1 {
      UpMembers(kinds, ids, types, k, ids[k]);
      assert forall j :: 0 <= j < k ==> ids[j] == ids[..k][j];
    } else {
      UpType(kinds, ids, types, n - 1, k);
    }
  }

  /** So a registered instance has the type it was scaled up with when it was last new. */
  lemma {:induction false} RegisteredType(history: seq<Event>, i: nat, k: nat)
    requires i < |history| && history[i].ScaleUp? && k < |history[i].ids| && k < |history[i].types|
    requires var id := history[i].ids[k];
             id !in history[i].ids[..k] && id !in Registered(map[], history[..i])
    requires forall j :: i < j < |history| ==> !Downs(history[j], history[i].ids[k])
    ensures var id := history[i].ids[k];
            id in Registered(map[], history) && Registered(map[], history)[id] == history[i].types[k]
  {
    var n := |history| - 1;
    var e, id := history[n], history[i].ids[k];
    if i == n {
      UpType(Registered(map[], history[..n]), e.ids, e.types, Min(|e.ids|, |e.types|), k);
    } else {
      assert history[..n][..i] == history[..i] && history[..n][i] == history[i];
      RegisteredType(history[..n], i, k);
      if e.ScaleUp? {
        UpMembers(Registered(map[], history[..n]), e.ids, e.types, Min(|e.ids|, |e.types|), id);
      }
    }
  }

  /** An instance is registered exactly when it was scaled up and not scaled down since. */
  lemma {:induction false} RegisteredMeaning(history: seq<Event>, id: InstanceId)
    ensures id in Registered(map[], history) <==> exists i :: RegisteredSince(history, id, i)
  {
    if history == [] {
    } else {
      var n := |history| - 1;
      var front, e := history[..n], history[n];
      RegisteredMeaning(front, id);
      if id in Registered(map[], front) && !Downs(e, id) {
        var i :| RegisteredSince(front, id, i);
        assert RegisteredSince(history, id, i);
      }
      forall i | RegisteredSince(history, id, i) && i < n
        ensures RegisteredSince(front, id, i) && !Downs(e, id)
      {
        assert front[i] == history[i];
        forall j | i < j < n
          ensures !Downs(front[j], id)
        {
          assert !Downs(history[j], id);
        }
      }
      if e.ScaleUp? {
        UpMembers(Registered(map[], front), e.ids, e.types, Min(|e.ids|, |e.types|), id);
        if Ups(e, id) {
          assert RegisteredSince(history, id, n);
        }
      }
    }
  }

  function InRole(infos: map<InstanceId, Info>, kind: InstanceType): set<InstanceId> {
    set id | id in infos && infos[id].kind == Some(kind)
  }

  /** An instance that has not been polled has no role, no load and nothing cached. */
  lemma UnpolledMeaning(infos: map<InstanceId, Info>, id: InstanceId, kind: InstanceType)
    requires id in infos && infos[id] == Unpolled(id)
    ensures id !in InRole(infos, kind) && infos[id].id == id && infos[id].load == Loads.NegInf && infos[id].hashes == {}
  {
  }

  /** Whoever last reported the role, and nobody else. */
  lemma InRoleMeaning(infos: map<InstanceId, Info>, kind: InstanceType, id: InstanceId)
    ensures id in InRole(infos, kind) <==> id in infos && infos[id].kind == Some(kind)
  {
  }

  class GlobalScheduler {
    var ids: set<InstanceId>
    const table: InfoTable
    const dispatch: DispatchScheduler
    const migration: MigrationScheduler
    const scaling: ScalingScheduler
    ghost var kinds: map<InstanceId, InstanceType>

    /**
     All registries agree: the ids, the keys of the snapshots, the migration and the
     scaling sets are the registered instances, the type sets partition them, dispatch
     is open for those that are not decode-only, and no snapshot names anyone else.
     */
    ghost predicate Valid()
      reads this, table, dispatch, migration, scaling
    {
      && ids == kinds.Keys && table.infos.Keys == kinds.Keys
      && migration.ids == kinds.Keys && scaling.ids == kinds.Keys
      && TypesAgree(kinds, scaling.typeSets) && AvailableAgree(kinds, dispatch.available)
      && SnapshotsAgree(kinds, table.infos) && SnapshotsAgree(kinds, dispatch.snapshots)
      && dispatch.available <= dispatch.numRequests.Keys
      && (kinds != map[] ==> migration.table == table && scaling.table == table)
    }

    ghost function Parts(): set<object> {
      {this, table, dispatch, migration, scaling}
    }

    constructor (policy: Policy, topK: nat)
      ensures Valid() && kinds == map[] && fresh(Parts())
    {
      ids, kinds := {}, map[];
      table := new InfoTable();
      dispatch := new DispatchScheduler(policy, topK);
      migration := new MigrationScheduler();
      scaling := new ScalingScheduler();
      new;
      NobodyAgrees();
    }

    method AddToDispatch(id: InstanceId, kind: InstanceType)
      requires AvailableAgree(kinds, dispatch.available) && SnapshotsAgree(kinds, dispatch.snapshots)
      requires dispatch.available <= dispatch.numRequests.Keys && id !in kinds
      requires SnapshotsAgree(kinds[id := kind], table.infos)
      modifies dispatch
      ensures AvailableAgree(kinds[id := kind], dispatch.available)
              && SnapshotsAgree(kinds[id := kind], dispatch.snapshots)
      ensures dispatch.available <= dispatch.numRequests.Keys && id !in dispatch.snapshots
    {
      dispatch.UpdateInstanceInfos(table.infos);
      dispatch.AddInstance(id, kind);
    }

    method AddToOthers(id: InstanceId, kind: InstanceType)
      requires TypesAgree(kinds, scaling.typeSets) && id !in kinds
      requires migration.ids == kinds.Keys && scaling.ids == kinds.Keys
      modifies migration, scaling
      ensures TypesAgree(kinds[id := kind], scaling.typeSets)
      ensures migration.ids == kinds.Keys + {id} && scaling.ids == kinds.Keys + {id}
      ensures migration.table == table && scaling.table == table
    {
      migration.UpdateInstanceInfos(table);
      migration.AddInstance(id);
      scaling.UpdateInstanceInfos(table);
      TypesAfterAdd(kinds, scaling.typeSets, id, kind);
      scaling.AddInstance(id, kind);
    }

    method Register(id: InstanceId, kind: InstanceType)
      requires Valid() && id !in ids
      modifies Parts()
      ensures Valid() && kinds == old(kinds)[id := kind]
      ensures id !in dispatch.snapshots
      ensures table.infos == old(table.infos)[id := Unpolled(id)]
    {
      table.infos := table.infos[id := Unpolled(id)];
      ids := ids + {id};
      AddToDispatch(id, kind);
      AddToOthers(id, kind);
      kinds := kinds[id := kind];
    }

    /**
     Nothing is left of the instance in any registry but the request counter, which
     stays exactly when the instance was decode-only and had been given a request.
     */
    method Unregister(id: InstanceId)
      requires Valid() && id in ids
      modifies Parts()
      ensures Valid() && kinds == old(kinds) - {id} && table.infos == old(table.infos) - {id}
      ensures id in dispatch.numRequests <==> old(id in dispatch.numRequests && kinds[id] == Decode)
    {
      table.infos := table.infos - {id};
      ids := ids - {id};
      RemoveFromDispatch(id);
      RemoveFromOthers(id);
      kinds := kinds - {id};
    }

    method RemoveFromDispatch(id: InstanceId)
      requires AvailableAgree(kinds, dispatch.available) && SnapshotsAgree(kinds, dispatch.snapshots)
      requires dispatch.available <= dispatch.numRequests.Keys && id in kinds
      requires SnapshotsAgree(kinds - {id}, table.infos)
      modifies dispatch
      ensures AvailableAgree(kinds - {id}, dispatch.available) && SnapshotsAgree(kinds - {id}, dispatch.snapshots)
      ensures dispatch.available <= dispatch.numRequests.Keys
      ensures id in dispatch.numRequests <==> old(id in dispatch.numRequests && kinds[id] == Decode)
    {
      dispatch.UpdateInstanceInfos(table.infos);
      dispatch.RemoveInstance(id);
    }

    method RemoveFromOthers(id: InstanceId)
      requires TypesAgree(kinds, scaling.typeSets) && id in kinds
      requires migration.ids == kinds.Keys && scaling.ids == kinds.Keys
      modifies migration, scaling
      ensures TypesAgree(kinds - {id}, scaling.typeSets)
      ensures migration.ids == kinds.Keys - {id} && scaling.ids == kinds.Keys - {id}
      ensures migration.table == table && scaling.table == table
    {
      migration.UpdateInstanceInfos(table);
      migration.RemoveInstance(id);
      scaling.UpdateInstanceInfos(table);
      TypesAfterRemove(kinds, scaling.typeSets, id);
      scaling.RemoveInstance(id);
    }

    method HandleScaleUp(newIds: seq<InstanceId>, types: seq<InstanceType>)
      requires Valid()
      modifies Parts()
      ensures Valid() && kinds == Up(old(kinds), newIds, types, Min(|newIds|, |types|))
    {
      for n := 0 to Min(|newIds|, |types|)
        invariant Valid() && kinds == Up(old(kinds), newIds, types, n)
      {
        if newIds[n] !in ids {
          Register(newIds[n], types[n]);
        }
      }
    }

    method HandleScaleDown(gone: seq<InstanceId>)
      requires Valid()
      modifies Parts()
      ensures Valid() && kinds == Down(old(kinds), gone)
    {
      for n := 0 to |gone|
        invariant Valid() && kinds == Down(old(kinds), gone[..n])
      {
        DownOneMore(old(kinds), gone, n);
        if gone[n] in ids {
          Unregister(gone[n]);
        }
      }
      assert gone[..|gone|] == gone;
    }

    method UpdateInstanceInfos(polled: seq<Info>)
      requires Valid()
      modifies table
      ensures Valid() && table.infos == Latest(old(table.infos), polled)
    {
      for n := 0 to |polled|
        invariant Valid() && table.infos == Latest(old(table.infos), polled[..n])
      {
        assert polled[..n + 1][..n] == polled[..n];
        if polled[n].id in ids {
          table.infos := table.infos[polled[n].id := polled[n]];
        }
      }
      assert polled[..|polled|] == polled;
    }

    /** What happens before a dispatch decision: every candidate's snapshot is the last one polled. */
    method BeforeDispatch()
      requires Valid()
      modifies dispatch
      ensures Valid()
      ensures forall id :: id in dispatch.available ==>
                id in dispatch.snapshots && dispatch.snapshots[id] == table.infos[id]
    {
      dispatch.UpdateInstanceInfos(table.infos);
    }

    /**
     Both roles are chosen by the constrained dispatch, from the instances that last
     reported the role, on the latest snapshots; nothing is chosen exactly when a role
     has no instance, and only an empty top-k can fail.
     */
    method SelectRoles(hashes: set<Affinity.BlockHash>, random: nat, random': nat)
      returns (r: Result<Option<(DispatchInfo, DispatchInfo)>, Failure>, ghost infos: seq<DispatchInfo>,
               ghost infos': seq<DispatchInfo>)
      requires Valid()
      modifies dispatch
      ensures Valid()
      ensures r == Ok(None) <==> InRole(table.infos, Prefill) == {} || InRole(table.infos, Decode) == {}
      ensures r.Ok? && r.value.Some? ==>
                var (prefill, decode) := r.value.value;
                && Lists(infos, table.infos) && Lists(infos', table.infos)
                && Chosen(infos, InRole(table.infos, Prefill), hashes, dispatch.policy, dispatch.topK, random,
                          Ok(prefill))
                && Chosen(infos', InRole(table.infos, Decode), hashes, dispatch.policy, dispatch.topK, random',
                          Ok(decode))
                && dispatch.numRequests == Counted(Counted(old(dispatch.numRequests), prefill.id), decode.id)
                && dispatch.snapshots == table.infos
      ensures r.Err? ==> dispatch.topK == 0
    {
      var prefills, decodes := InRole(table.infos, Prefill), InRole(table.infos, Decode);
      infos, infos' := [], [];
      if prefills == {} || decodes == {} {
        return Ok(None), infos, infos';
      }
      ShareSnapshots();
      var both;
      both, infos, infos' := dispatch.DispatchBoth(prefills, decodes, hashes, random, random');
      r := if both.Ok? then Ok(Some(both.value)) else Err(both.error);
    }

    /** Dispatch sees the latest snapshot of every registered instance, decode-only ones included. */
    method ShareSnapshots()
      requires Valid()
      modifies dispatch
      ensures Valid() && dispatch.snapshots == table.infos && dispatch.numRequests == old(dispatch.numRequests)
    {
      dispatch.UpdateInstanceInfos(table.infos);
      dispatch.ShareAll(table.infos);
    }

    method Handle(e: Event)
      requires Valid()
      modifies Parts()
      ensures Valid() && kinds == Registered(old(kinds), [e])
    {
      assert [e][..0] == [];
      match e
      case ScaleUp(newIds, types) => HandleScaleUp(newIds, types);
      case ScaleDown(gone) => HandleScaleDown(gone);
      case Poll(polled) => UpdateInstanceInfos(polled);
      case Dispatching => BeforeDispatch();
      case SelectRoles(hashes, random, random') =>
        var _, _, _ := SelectRoles(hashes, random, random');
    }

    /** Over every history the registries agree, and they hold what scale-up and scale-down left. */
    method Run(history: seq<Event>)
      requires Valid()
      modifies Parts()
      ensures Valid() && kinds == Registered(old(kinds), history)
    {
      for n := 0 to |history|
        invariant Valid() && kinds == Registered(old(kinds), history[..n])
      {
        RegisteredOneMore(old(kinds), history, n);
        Handle(history[n]);
      }
      assert history[..|history|] == history;
    }
  }

  lemma DownOneMore(kinds: map<InstanceId, InstanceType>, gone: seq<InstanceId>, n: nat)
    requires n < |gone|
    ensures Down(kinds, gone[..n + 1]) == Down(kinds, gone[..n]) - {gone[n]}
  {
  }

  lemma RegisteredOneMore(kinds: map<InstanceId, InstanceType>, history: seq<Event>, n: nat)
    requires n < |history|
    ensures Registered(kinds, history[..n + 1]) == Registered(Registered(kinds, history[..n]), [history[n]])
  {
    assert history[..n + 1][..n] == history[..n];
    assert [history[n]][..0] == [];
  }
}
