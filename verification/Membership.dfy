/**
 The Manager's registered instances (llumnix/manager.py): scaling up and down with
 the counter of changes the migration group has not yet seen, the flags that keep
 in-flight migrations apart, and the loop that rebuilds the migration group while
 other tasks go on changing the membership.
 */
module Membership {
  import opened Prelude
  import opened Names

  type Handle = nat

  datatype Pair = Pair(src: InstanceId, dst: InstanceId)

  /** What a worker group member knows after a rebuild: group, rank of its instance, group size. */
  datatype Joined = Joined(group: nat, rank: nat, size: nat)

  datatype Task = Rebuild(group: nat) | Warmup(group: nat)

  // ------------------------------------------------------------------
  // In-flight migrations and their flags

  predicate Touches(p: Pair, id: InstanceId) {
    p.src == id || p.dst == id
  }

  predicate Endpoint(inFlight: seq<Pair>, id: InstanceId) {
    exists i :: 0 <= i < |inFlight| && Touches(inFlight[i], id)
  }

  ghost predicate VertexDisjoint(inFlight: seq<Pair>) {
    && (forall i :: 0 <= i < |inFlight| ==> inFlight[i].src != inFlight[i].dst)
    && (forall i, j, id :: 0 <= i < j < |inFlight| && Touches(inFlight[i], id) ==> !Touches(inFlight[j], id))
  }

  /** A registered instance is flagged exactly when some in-flight migration has it as an endpoint. */
  ghost predicate FlagsExact(instances: map<InstanceId, Handle>, migrating: map<InstanceId, bool>,
                             inFlight: seq<Pair>) {
    && migrating.Keys == instances.Keys
    && forall id <- migrating :: migrating[id] <==> Endpoint(inFlight, id)
  }

  ghost predicate InFlightOk(instances: map<InstanceId, Handle>, migrating: map<InstanceId, bool>,
                             inFlight: seq<Pair>) {
    VertexDisjoint(inFlight) && FlagsExact(instances, migrating, inFlight)
  }

  lemma EndpointAppend(inFlight: seq<Pair>, p: Pair, id: InstanceId)
    ensures Endpoint(inFlight + [p], id) <==> Endpoint(inFlight, id) || Touches(p, id)
  {
    var more := inFlight + [p];
    if Endpoint(inFlight, id) {
      var i :| 0 <= i < |inFlight| && Touches(inFlight[i], id);
      assert Touches(more[i], id);
    }
    if Touches(p, id) {
      assert Touches(more[|inFlight|], id);
    }
  }

  predicate Free(inFlight: seq<Pair>, p: Pair) {
    !Endpoint(inFlight, p.src) && !Endpoint(inFlight, p.dst)
  }

  /** Which of the pairs a round starts, when these instances are registered. */
  function RoundOf(known: set<InstanceId>, inFlight: seq<Pair>, pairs: seq<Pair>): seq<Pair>
    decreases |pairs|
  {
    if pairs == [] || pairs[0].src !in known then []
    else if Endpoint(inFlight, pairs[0].src) then RoundOf(known, inFlight, pairs[1..])
    else if pairs[0].dst !in known then []
    else if Endpoint(inFlight, pairs[0].dst) then RoundOf(known, inFlight, pairs[1..])
    else [pairs[0]] + RoundOf(known, inFlight + [pairs[0]], pairs[1..])
  }

  lemma RoundFrom(known: set<InstanceId>, inFlight: seq<Pair>, pairs: seq<Pair>, i: nat)
    requires i < |pairs|
    ensures var p, rest := pairs[i], pairs[i + 1..];
            RoundOf(known, inFlight, pairs[i..]) ==
            if p.src !in known then []
            else if Endpoint(inFlight, p.src) then RoundOf(known, inFlight, rest)
            else if p.dst !in known then []
            else if Endpoint(inFlight, p.dst) then RoundOf(known, inFlight, rest)
            else [p] + RoundOf(known, inFlight + [p], rest)
  {
    assert pairs[i..][0] == pairs[i] && pairs[i..][1..] == pairs[i + 1..];
  }

  ghost predicate AllKnown(known: set<InstanceId>, pairs: seq<Pair>) {
    forall i :: 0 <= i < |pairs| ==> pairs[i].src in known && pairs[i].dst in known
  }

  /**
   What a round does with one more pair: it is started, behind all others, if and only if
   neither end takes part in a migration in flight or in one started earlier in the round.
   */
  lemma {:induction false} RoundStartsFree(known: set<InstanceId>, inFlight: seq<Pair>, pairs: seq<Pair>, p: Pair)
    requires AllKnown(known, pairs + [p])
    ensures var before := RoundOf(known, inFlight, pairs);
            RoundOf(known, inFlight, pairs + [p]) == if Free(inFlight + before, p) then before + [p] else before
    decreases |pairs|
  {
    var more := pairs + [p];
    if pairs == [] {
      assert more[0] == p && more[1..] == [] && inFlight + [] == inFlight;
    } else {
      var first, rest := pairs[0], pairs[1..];
      assert more[0] == first && more[1..] == rest + [p];
      assert AllKnown(known, rest + [p]);
      if Free(inFlight, first) {
        RoundStartsFree(known, inFlight + [first], rest, p);
        var later := RoundOf(known, inFlight + [first], rest);
        assert inFlight + [first] + later == inFlight + ([first] + later);
      } else {
        RoundStartsFree(known, inFlight, rest, p);
      }
    }
  }

  lemma Regroup(a: seq<Pair>, p: Pair, b: seq<Pair>)
    ensures a + ([p] + b) == a + [p] + b
  {
  }

  lemma {:induction false} StartedWasFree(instances: map<InstanceId, Handle>, inFlight: seq<Pair>, pairs: seq<Pair>,
                                          p: Pair)
    requires p in RoundOf(instances.Keys, inFlight, pairs)
    ensures Startable(p, pairs, instances, inFlight)
    decreases |pairs|
  {
    var first, rest := pairs[0], pairs[1..];
    if !Free(inFlight, first) {
      StartedWasFree(instances, inFlight, rest, p);
    } else if p != first {
      StartedWasFree(instances, inFlight + [first], rest, p);
      StillEndpoints(inFlight, [first]);
    }
  }

  /** A name that is not registered ends the round, unless its pair is skipped for the other name first. */
  lemma {:induction false} RoundEndsAtUnknown(known: set<InstanceId>, inFlight: seq<Pair>, pairs: seq<Pair>, p: Pair,
                                              rest: seq<Pair>)
    requires AllKnown(known, pairs) && (p.src !in known || p.dst !in known)
    requires p.src in known ==> !Endpoint(inFlight + RoundOf(known, inFlight, pairs), p.src)
    ensures RoundOf(known, inFlight, pairs + [p] + rest) == RoundOf(known, inFlight, pairs)
    decreases |pairs|
  {
    var more := pairs + [p] + rest;
    if pairs == [] {
      assert more[0] == p && inFlight + [] == inFlight;
    } else {
      var first, later := pairs[0], pairs[1..];
      assert more[0] == first && more[1..] == later + [p] + rest;
      if Free(inFlight, first) {
        var started := RoundOf(known, inFlight + [first], later);
        assert inFlight + [first] + started == inFlight + ([first] + started);
        RoundEndsAtUnknown(known, inFlight + [first], later, p, rest);
      } else {
        RoundEndsAtUnknown(known, inFlight, later, p, rest);
      }
    }
  }

  /** So vertex-disjoint pairs of registered instances that are not migrating are all started, in order. */
  lemma {:induction false} WholeRoundStarts(known: set<InstanceId>, inFlight: seq<Pair>, pairs: seq<Pair>)
    requires AllKnown(known, pairs) && VertexDisjoint(pairs)
    requires forall i :: 0 <= i < |pairs| ==> Free(inFlight, pairs[i])
    ensures RoundOf(known, inFlight, pairs) == pairs
    decreases |pairs|
  {
    if pairs == [] {
    } else {
      var p, rest := pairs[0], pairs[1..];
      forall i | 0 <= i < |rest|
        ensures Free(inFlight + [p], rest[i])
      {
        assert rest[i] == pairs[i + 1] && Touches(pairs[i + 1], rest[i].src) && Touches(pairs[i + 1], rest[i].dst);
        EndpointAppend(inFlight, p, rest[i].src);
        EndpointAppend(inFlight, p, rest[i].dst);
      }
      WholeRoundStarts(known, inFlight + [p], rest);
    }
  }

  lemma EndpointRemove(inFlight: seq<Pair>, i: nat, id: InstanceId)
    requires i < |inFlight| && VertexDisjoint(inFlight)
    ensures Endpoint(inFlight[..i] + inFlight[i + 1..], id) <==> Endpoint(inFlight, id) && !Touches(inFlight[i], id)
  {
    var fewer := inFlight[..i] + inFlight[i + 1..];
    assert forall j :: 0 <= j < i ==> fewer[j] == inFlight[j];
    assert forall j :: i <= j < |fewer| ==> fewer[j] == inFlight[j + 1];
    if Endpoint(inFlight, id) && !Touches(inFlight[i], id) {
      var j :| 0 <= j < |inFlight| && Touches(inFlight[j], id);
      assert Touches(fewer[if j < i then j else j - 1], id);
    }
    if Endpoint(fewer, id) {
      var j :| 0 <= j < |fewer| && Touches(fewer[j], id);
      assert Touches(inFlight[if j < i then j else j + 1], id);
    }
  }

  lemma DisjointAppend(inFlight: seq<Pair>, p: Pair)
    requires VertexDisjoint(inFlight) && p.src != p.dst
    requires !Endpoint(inFlight, p.src) && !Endpoint(inFlight, p.dst)
    ensures VertexDisjoint(inFlight + [p])
  {
  }

  function Elements(ids: seq<InstanceId>): set<InstanceId> {
    if ids == [] then {} else Elements(ids[..|ids| - 1]) + {ids[|ids| - 1]}
  }

  lemma ElementsStep(ids: seq<InstanceId>, i: nat)
    requires i < |ids|
    ensures Elements(ids[..i + 1]) == Elements(ids[..i]) + {ids[i]}
  {
    assert ids[..i + 1][..i] == ids[..i];
  }

  lemma {:induction false} ElementsMember(ids: seq<InstanceId>, id: InstanceId)
    ensures id in Elements(ids) <==> id in ids
  {
    if ids == [] {
    } else {
      ElementsMember(ids[..|ids| - 1], id);
      assert ids == ids[..|ids| - 1] + [ids[|ids| - 1]];
    }
  }

  /** The flags with an unset one for every instance not flagged before. */
  ghost function WithUnflagged(flags: map<InstanceId, bool>, ids: seq<InstanceId>): map<InstanceId, bool> {
    map id | id in flags.Keys + Elements(ids) :: id in flags && flags[id]
  }

  lemma UnflaggedOneMore(flags: map<InstanceId, bool>, ids: seq<InstanceId>, i: nat)
    requires i < |ids|
    ensures
      var before := WithUnflagged(flags, ids[..i]);
      WithUnflagged(flags, ids[..i + 1]) == if ids[i] in before then before else before[ids[i] := false]
  {
    ElementsStep(ids, i);
  }

  lemma NewKey<V>(m: map<InstanceId, V>, id: InstanceId, v: V)
    ensures m[id := v].Keys == m.Keys + {id}
    ensures id in m ==> m.Keys + {id} == m.Keys
    ensures id !in m ==> |m[id := v]| == |m| + 1
  {
  }

  lemma PlusOneMore(a: set<InstanceId>, b: set<InstanceId>, id: InstanceId)
    ensures a + (b + {id}) == (a + b) + {id}
  {
  }

  lemma MinusOneMore<V>(m: map<InstanceId, V>, gone: set<InstanceId>, id: InstanceId)
    ensures m - (gone + {id}) == (m - gone) - {id}
  {
  }

  lemma FlagsAfterRegistration(instances: map<InstanceId, Handle>, flags: map<InstanceId, bool>, inFlight: seq<Pair>,
                               ids: seq<InstanceId>, after: map<InstanceId, Handle>)
    requires InFlightOk(instances, flags, inFlight)
    requires after.Keys == instances.Keys + Elements(ids)
    ensures InFlightOk(after, WithUnflagged(flags, ids), inFlight) <==>
            forall id <- ids :: id !in instances ==> !Endpoint(inFlight, id)
  {
    var now := WithUnflagged(flags, ids);
    forall id <- ids | id !in instances
      ensures id in now && !now[id]
    {
      ElementsMember(ids, id);
    }
    forall id <- Elements(ids)
      ensures id in ids
    {
      ElementsMember(ids, id);
    }
  }

  lemma FlagsAfterRemoval(instances: map<InstanceId, Handle>, flags: map<InstanceId, bool>, inFlight: seq<Pair>,
                          ids: seq<InstanceId>)
    requires InFlightOk(instances, flags, inFlight)
    ensures InFlightOk(instances - Elements(ids), flags - Elements(ids), inFlight)
  {
  }

  // ------------------------------------------------------------------
  // The Manager

  datatype LegacyEvent =
    | Round(pairs: seq<Pair>)
    | Done(i: nat)
    | Joins(ids: seq<InstanceId>, handle: Handle)
    | Leaves(ids: seq<InstanceId>, rebuild: bool)

  /** The registered names and the migrations under way. */
  datatype Fleet = Fleet(known: set<InstanceId>, inFlight: seq<Pair>)

  predicate NoLoops(pairs: seq<Pair>) {
    forall i :: 0 <= i < |pairs| ==> pairs[i].src != pairs[i].dst
  }

  /** No migration under way still uses a name that is registered anew. */
  predicate NamesUnused(known: set<InstanceId>, inFlight: seq<Pair>, ids: seq<InstanceId>) {
    forall id <- ids :: id !in known ==> !Endpoint(inFlight, id)
  }

  function FleetStep(f: Fleet, e: LegacyEvent): Fleet {
    match e
    case Round(pairs) =>
      if NoLoops(pairs)
      then f.(inFlight := f.inFlight + RoundOf(f.known, f.inFlight, pairs)) else f
    case Done(i) =>
      if i < |f.inFlight| then f.(inFlight := f.inFlight[..i] + f.inFlight[i + 1..]) else f
    case Joins(ids, _) =>
      if NamesUnused(f.known, f.inFlight, ids) then f.(known := f.known + Elements(ids)) else f
    case Leaves(ids, _) => f.(known := f.known - Elements(ids))
  }

  function FleetAfter(f: Fleet, events: seq<LegacyEvent>): Fleet {
    if events == [] then f else FleetStep(FleetAfter(f, events[..|events| - 1]), events[|events| - 1])
  }

  /** What leaves is gone, what is done is no longer in flight, and a free pair of known instances can start again. */
  lemma FleetMeaning(f: Fleet, i: nat, ids: seq<InstanceId>, rebuild: bool)
    requires i < |f.inFlight| && VertexDisjoint(f.inFlight) && f.inFlight[i].src in f.known
             && f.inFlight[i].dst in f.known
    ensures var p := f.inFlight[i];
            var done := FleetStep(f, Done(i));
            && Free(done.inFlight, p)
            && FleetStep(done, Round([p])).inFlight == done.inFlight + [p]
    ensures forall id <- ids :: id !in FleetStep(f, Leaves(ids, rebuild)).known
    ensures forall id :: id in f.known && id !in ids ==> id in FleetStep(f, Leaves(ids, rebuild)).known
  {
    var p := f.inFlight[i];
    var done := FleetStep(f, Done(i));
    EndpointRemove(f.inFlight, i, p.src);
    EndpointRemove(f.inFlight, i, p.dst);
    WholeRoundStarts(f.known, done.inFlight, [p]);
    forall id
      ensures id in Elements(ids) <==> id in ids
    {
      ElementsMember(ids, id);
    }
  }

  /** Everybody keeps their handle; whoever is new has the given one, and no group of an earlier namesake. */
  ghost predicate Newcomers(before: map<InstanceId, Handle>, after: map<InstanceId, Handle>, handle: Handle,
                            groups: map<InstanceId, Joined>, warmedUp: map<InstanceId, nat>) {
    && (forall id <- before :: id in after && after[id] == before[id])
    && (forall id <- after :: id !in before ==> after[id] == handle && id !in groups && id !in warmedUp)
  }

  class Manager {
    const isGroupBackend: bool
    var instances: map<InstanceId, Handle>
    var migrating: map<InstanceId, bool>
    var pending: int                       // membership changes the group has not seen
    var enableMigration: bool
    var rebuildTasks: nat                  // rebuild tasks ever started
    var inFlight: seq<Pair>                // legacy migrations under way
    var groups: map<InstanceId, Joined>    // as the workers last heard it
    var warmedUp: map<InstanceId, nat>
    var nextGroup: nat
    var groupMembers: seq<InstanceId>      // whom the migration filter lets through

    constructor (isGroupBackend: bool, enableMigration: bool)
      ensures InFlightOk(instances, migrating, inFlight)
      ensures instances == map[] && pending == 0 && rebuildTasks == 0 && inFlight == []
    {
      this.isGroupBackend, this.enableMigration := isGroupBackend, enableMigration;
      instances, migrating, pending, rebuildTasks, inFlight := map[], map[], 0, 0, [];
      groups, warmedUp, nextGroup, groupMembers := map[], map[], 0, [];
    }

    method Register(id: InstanceId, handle: Handle) returns (isNew: bool)
      requires migrating.Keys == instances.Keys
      modifies this`instances, this`migrating, this`pending, this`groups, this`warmedUp
      ensures isNew == (id !in old(instances))
      ensures instances.Keys == old(instances).Keys + {id} && migrating.Keys == instances.Keys
      ensures |instances| == |old(instances)| + (if isNew then 1 else 0)
      ensures pending == old(pending) + (if isNew then 1 else 0)
      ensures migrating == if isNew then old(migrating)[id := false] else old(migrating)
      ensures isNew ==> instances == old(instances)[id := handle]
      ensures isNew ==> groups == old(groups) - {id} && warmedUp == old(warmedUp) - {id}
      ensures !isNew ==> instances == old(instances) && groups == old(groups) && warmedUp == old(warmedUp)
    {
      isNew := id !in instances;
      NewKey(instances, id, handle);
      if isNew {
        instances := instances[id := handle];
        migrating := migrating[id := false];
        groups, warmedUp := groups - {id}, warmedUp - {id};
        pending := pending + 1;
      }
    }

    method Unregister(id: InstanceId) returns (isKnown: bool)
      requires migrating.Keys == instances.Keys
      modifies this`instances, this`migrating, this`pending
      ensures isKnown == (id in old(instances))
      ensures instances == old(instances) - {id} && migrating == old(migrating) - {id}
      ensures |instances| == |old(instances)| - (if isKnown then 1 else 0)
      ensures pending == old(pending) + (if isKnown then 1 else 0)
    {
      isKnown := id in instances;
      if isKnown {
        assert (instances - {id}).Keys == instances.Keys - {id};
        instances := instances - {id};
        if id in migrating {
          migrating := migrating - {id};
        }
        pending := pending + 1;
      }
    }

    method RegisterAll(ids: seq<InstanceId>, handle: Handle) returns (indeedUpdate: bool)
      requires migrating.Keys == instances.Keys
      modifies this`instances, this`migrating, this`pending, this`groups, this`warmedUp
      ensures instances.Keys == old(instances).Keys + Elements(ids)
      ensures migrating == WithUnflagged(old(migrating), ids)
      ensures |old(instances)| <= |instances|
      ensures pending == old(pending) + |instances| - |old(instances)|
      ensures indeedUpdate <==> |old(instances)| < |instances|
      ensures !indeedUpdate ==> instances == old(instances) && groups == old(groups) && warmedUp == old(warmedUp)
      ensures Newcomers(old(instances), instances, handle, groups, warmedUp)
    {
      indeedUpdate := false;
      for i := 0 to |ids|
        invariant instances.Keys == old(instances).Keys + Elements(ids[..i]) && migrating.Keys == instances.Keys
        invariant |old(instances)| <= |instances|
        invariant pending == old(pending) + |instances| - |old(instances)|
        invariant indeedUpdate <==> |old(instances)| < |instances|
        invariant migrating == WithUnflagged(old(migrating), ids[..i])
        invariant !indeedUpdate ==> instances == old(instances) && groups == old(groups) && warmedUp == old(warmedUp)
        invariant Newcomers(old(instances), instances, handle, groups, warmedUp)
      {
        ElementsStep(ids, i);
        UnflaggedOneMore(old(migrating), ids, i);
        PlusOneMore(old(instances).Keys, Elements(ids[..i]), ids[i]);
        var isNew := Register(ids[i], handle);
        indeedUpdate := indeedUpdate || isNew;
      }
      assert ids[..|ids|] == ids;
    }

    method UnregisterAll(ids: seq<InstanceId>) returns (indeedUpdate: bool)
      requires migrating.Keys == instances.Keys
      modifies this`instances, this`migrating, this`pending
      ensures instances == old(instances) - Elements(ids) && migrating == old(migrating) - Elements(ids)
      ensures |instances| <= |old(instances)|
      ensures pending == old(pending) + |old(instances)| - |instances|
      ensures indeedUpdate <==> |instances| < |old(instances)|
    {
      indeedUpdate := false;
      for i := 0 to |ids|
        invariant instances == old(instances) - Elements(ids[..i]) && migrating == old(migrating) - Elements(ids[..i])
        invariant |instances| <= |old(instances)|
        invariant pending == old(pending) + |old(instances)| - |instances|
        invariant indeedUpdate <==> |instances| < |old(instances)|
      {
        ElementsStep(ids, i);
        MinusOneMore(old(instances), Elements(ids[..i]), ids[i]);
        MinusOneMore(old(migrating), Elements(ids[..i]), ids[i]);
        var isKnown := Unregister(ids[i]);
        indeedUpdate := indeedUpdate || isKnown;
      }
      assert ids[..|ids|] == ids;
    }

    /**
     Registration. Every instance not known before counts as one change. The flags
     stay exact if and only if no instance is registered while a migration that
     touches an earlier instance of that name is still in flight.
     */
    method ScaleUp(ids: seq<InstanceId>, handle: Handle)
      requires migrating.Keys == instances.Keys
      modifies this`instances, this`migrating, this`pending, this`rebuildTasks, this`groups, this`warmedUp
      ensures instances.Keys == old(instances).Keys + Elements(ids) && migrating.Keys == instances.Keys
      ensures |old(instances)| <= |instances|
      ensures pending == old(pending) + |instances| - |old(instances)|
      ensures rebuildTasks == old(rebuildTasks) +
                (if enableMigration && isGroupBackend && |old(instances)| < |instances|
                 && old(pending) == 0 then 1 else 0)
      ensures old(InFlightOk(instances, migrating, inFlight)) ==>
                (InFlightOk(instances, migrating, inFlight) <==>
                 forall id <- ids :: id !in old(instances) ==> !Endpoint(inFlight, id))
      ensures |old(instances)| == |instances| ==>
                instances == old(instances) && groups == old(groups) && warmedUp == old(warmedUp)
      ensures Newcomers(old(instances), instances, handle, groups, warmedUp)
    {
      var noPending := pending == 0;
      var indeedUpdate := RegisterAll(ids, handle);
      if enableMigration && isGroupBackend && indeedUpdate && noPending {
        rebuildTasks := rebuildTasks + 1;
      }
      if old(InFlightOk(instances, migrating, inFlight)) {
        FlagsAfterRegistration(old(instances), old(migrating), inFlight, ids, instances);
      }
    }

    /** Removal, whether or not migrations are in flight; the flags of the others stay exact. */
    method ScaleDown(ids: seq<InstanceId>, rebuild: bool)
      requires migrating.Keys == instances.Keys
      modifies this`instances, this`migrating, this`pending, this`rebuildTasks
      ensures instances == old(instances) - Elements(ids)
      ensures |instances| <= |old(instances)|
      ensures pending == if enableMigration && isGroupBackend && instances == map[] then 0
                         else old(pending) + |old(instances)| - |instances|
      ensures rebuildTasks == old(rebuildTasks) +
                (if enableMigration && isGroupBackend && instances != map[] && |instances| < |old(instances)| &&
                    old(pending) == 0 && rebuild then 1 else 0)
      ensures migrating.Keys == instances.Keys
      ensures old(InFlightOk(instances, migrating, inFlight)) ==> InFlightOk(instances, migrating, inFlight)
    {
      var noPending := pending == 0;
      var indeedUpdate := UnregisterAll(ids);
      if old(InFlightOk(instances, migrating, inFlight)) {
        FlagsAfterRemoval(old(instances), old(migrating), inFlight, ids);
      }
      if enableMigration && isGroupBackend {
        if |instances| == 0 {
          pending := 0;
        } else if indeedUpdate && noPending && rebuild {
          rebuildTasks := rebuildTasks + 1;
        }
      }
    }

    /**
     One round of legacy migrations. A pair with a flagged endpoint is skipped, and a
     pair naming an unknown instance ends the round. Whatever rounds are still under
     way, all in-flight migrations stay vertex-disjoint and the flags exact.
     */
    method MigrateRound(pairs: seq<Pair>) returns (started: seq<Pair>)
      requires InFlightOk(instances, migrating, inFlight)
      requires forall i :: 0 <= i < |pairs| ==> pairs[i].src != pairs[i].dst
      modifies this`migrating, this`inFlight
      ensures InFlightOk(instances, migrating, inFlight)
      ensures inFlight == old(inFlight) + started
      ensures started == RoundOf(instances.Keys, old(inFlight), pairs)
      ensures forall k :: 0 <= k < |started| ==> Startable(started[k], pairs, instances, old(inFlight))
    {
      started := [];
      assert [] + RoundOf(instances.Keys, inFlight, pairs) == RoundOf(instances.Keys, inFlight, pairs);
      for i := 0 to |pairs|
        invariant InFlightOk(instances, migrating, inFlight)
        invariant inFlight == old(inFlight) + started
        invariant RoundOf(instances.Keys, old(inFlight), pairs) ==
                  started + RoundOf(instances.Keys, inFlight, pairs[i..])
      {
        var p := pairs[i];
        RoundFrom(instances.Keys, inFlight, pairs, i);
        if p.src !in migrating { break; }
        if migrating[p.src] { continue; }
        if p.dst !in migrating { break; }
        if migrating[p.dst] { continue; }
        Regroup(started, p, RoundOf(instances.Keys, inFlight + [p], pairs[i + 1..]));
        StartMigration(p);
        started := started + [p];
      }
      forall k | 0 <= k < |started|
        ensures Startable(started[k], pairs, instances, old(inFlight))
      {
        StartedWasFree(instances, old(inFlight), pairs, started[k]);
      }
    }

    method StartMigration(p: Pair)
      requires InFlightOk(instances, migrating, inFlight) && p.src != p.dst
      requires p.src in migrating && p.dst in migrating && !migrating[p.src] && !migrating[p.dst]
      modifies this`migrating, this`inFlight
      ensures InFlightOk(instances, migrating, inFlight) && inFlight == old(inFlight) + [p]
    {
      DisjointAppend(inFlight, p);
      forall id
        ensures Endpoint(inFlight + [p], id) <==> Endpoint(inFlight, id) || Touches(p, id)
      {
        EndpointAppend(inFlight, p, id);
      }
      migrating := migrating[p.src := true];
      migrating := migrating[p.dst := true];
      inFlight := inFlight + [p];
    }

    /** A migration ends, whether or not its endpoints are still registered. */
    method MigrateDone(i: nat)
      requires i < |inFlight| && InFlightOk(instances, migrating, inFlight)
      modifies this`migrating, this`inFlight
      ensures InFlightOk(instances, migrating, inFlight)
      ensures inFlight == old(inFlight)[..i] + old(inFlight)[i + 1..]
    {
      var p := inFlight[i];
      forall id
        ensures Endpoint(inFlight[..i] + inFlight[i + 1..], id) <==> Endpoint(inFlight, id) && !Touches(p, id)
      {
        EndpointRemove(inFlight, i, id);
      }
      if p.src in migrating {
        migrating := migrating[p.src := false];
      }
      if p.dst in migrating {
        migrating := migrating[p.dst := false];
      }
      inFlight := inFlight[..i] + inFlight[i + 1..];
    }

    /**
     Overlapping rounds, completions, removals and registrations of names that no
     migration still uses, with what each of them adds to and takes from the registered
     names and the migrations in flight.
     */
    method RunLegacy(events: seq<LegacyEvent>)
      requires InFlightOk(instances, migrating, inFlight)
      modifies this`instances, this`migrating, this`inFlight, this`pending, this`rebuildTasks, this`groups,
               this`warmedUp
      ensures InFlightOk(instances, migrating, inFlight)
      ensures Fleet(instances.Keys, inFlight) == FleetAfter(Fleet(old(instances).Keys, old(inFlight)), events)
    {
      for n := 0 to |events|
        invariant InFlightOk(instances, migrating, inFlight)
        invariant Fleet(instances.Keys, inFlight) == FleetAfter(Fleet(old(instances).Keys, old(inFlight)), events[..n])
      {
        assert events[..n + 1][..n] == events[..n];
        HandleLegacy(events[n]);
      }
      assert events[..|events|] == events;
    }

    method HandleLegacy(e: LegacyEvent)
      requires InFlightOk(instances, migrating, inFlight)
      modifies this`instances, this`migrating, this`inFlight, this`pending, this`rebuildTasks, this`groups,
               this`warmedUp
      ensures InFlightOk(instances, migrating, inFlight)
      ensures Fleet(instances.Keys, inFlight) == FleetStep(Fleet(old(instances).Keys, old(inFlight)), e)
    {
      match e
      case Round(pairs) =>
        if NoLoops(pairs) {
          var _ := MigrateRound(pairs);
        }
      case Done(i) =>
        if i < |inFlight| {
          MigrateDone(i);
        }
      case Joins(ids, handle) =>
        if NamesUnused(instances.Keys, inFlight, ids) {
          JoinLegacy(ids, handle);
        }
      case Leaves(ids, rebuild) =>
        LeaveLegacy(ids, rebuild);
    }

    method JoinLegacy(ids: seq<InstanceId>, handle: Handle)
      requires InFlightOk(instances, migrating, inFlight) && NamesUnused(instances.Keys, inFlight, ids)
      modifies this`instances, this`migrating, this`pending, this`rebuildTasks, this`groups, this`warmedUp
      ensures InFlightOk(instances, migrating, inFlight) && instances.Keys == old(instances).Keys + Elements(ids)
    {
      ScaleUp(ids, handle);
    }

    method LeaveLegacy(ids: seq<InstanceId>, rebuild: bool)
      requires InFlightOk(instances, migrating, inFlight)
      modifies this`instances, this`migrating, this`pending, this`rebuildTasks
      ensures InFlightOk(instances, migrating, inFlight) && instances.Keys == old(instances).Keys - Elements(ids)
    {
      ScaleDown(ids, rebuild);
    }

    // ----------------------------------------------------------------
    // Rebuilding the migration group

    /** While a rebuild goes on migration is disabled, so no change starts another one or resets the counter. */
    ghost predicate Rebuilding()
      reads this
    {
      isGroupBackend && !enableMigration && migrating.Keys == instances.Keys
    }

    /**
     Other tasks run at an await and may register and remove instances, at most
     `budget` times. Every change is counted in `pending`.
     */
    method Interleave(budget: nat) returns (left: nat)
      requires Rebuilding()
      modifies this`instances, this`migrating, this`pending, this`rebuildTasks, this`groups, this`warmedUp
      ensures Rebuilding() && left <= budget && rebuildTasks == old(rebuildTasks)
      ensures pending == old(pending) + (budget - left)
      ensures left == budget ==> instances == old(instances) && groups == old(groups) && warmedUp == old(warmedUp)
    {
      left := budget;
      var more: bool := *;
      while left > 0 && more
        invariant Rebuilding() && left <= budget && rebuildTasks == old(rebuildTasks)
        invariant pending == old(pending) + (budget - left)
        invariant left == budget ==> instances == old(instances) && groups == old(groups) && warmedUp == old(warmedUp)
        decreases left, more
      {
        var id: InstanceId := *;
        var handle: Handle := *;
        ElementsStep([id], 0);
        assert [id][..1] == [id];
        if id in instances {
          assert (instances - {id}).Keys == instances.Keys - {id};
          ScaleDown([id], true);
        } else {
          NewKey(instances, id, handle);
          ScaleUp([id], handle);
        }
        left := left - 1;
        more := *;
      }
    }

    /** The workers of every member carry out the command. The handle of each member is looked up here. */
    method CarryOut(alive: seq<InstanceId>, task: Task)
      requires Distinct(alive)
      requires forall i :: 0 <= i < |alive| ==> alive[i] in instances
      modifies this`groups, this`warmedUp
      ensures AllDid(alive, task, groups, warmedUp)
      ensures task.Rebuild? ==> warmedUp == old(warmedUp)
      ensures task.Warmup? ==> groups == old(groups)
    {
      for i := 0 to |alive|
        invariant task.Rebuild? ==> warmedUp == old(warmedUp) && forall k :: 0 <= k < i ==>
                    Lookup(groups, alive[k]) == Some(Joined(task.group, k, |alive|))
        invariant task.Warmup? ==> groups == old(groups) && forall k :: 0 <= k < i ==>
                    Lookup(warmedUp, alive[k]) == Some(task.group)
      {
        var handle := instances[alive[i]];
        match task
        case Rebuild(group) => groups := groups[alive[i] := Joined(group, i, |alive|)];
        case Warmup(group) => warmedUp := warmedUp[alive[i] := group];
      }
    }

    /**
     One task on all workers of the group. Instances found dead are removed. If the
     counter of changes is as before, nothing changed, nobody was dead, and every
     member has carried it out.
     */
    method RunTask(alive: seq<InstanceId>, task: Task, budget: nat) returns (dead: seq<InstanceId>, left: nat)
      requires Rebuilding() && Distinct(alive)
      requires forall i :: 0 <= i < |alive| ==> alive[i] in instances
      modifies this`instances, this`migrating, this`pending, this`rebuildTasks, this`groups, this`warmedUp
      ensures Rebuilding() && left <= budget && rebuildTasks == old(rebuildTasks)
      ensures pending >= old(pending) + (budget - left)
      ensures dead == [] ==> pending == old(pending) + (budget - left)
      ensures forall id <- dead :: id !in instances
      ensures left == budget && dead == [] ==>
                && instances == old(instances)
                && AllDid(alive, task, groups, warmedUp)
                && (task.Rebuild? ==> warmedUp == old(warmedUp))
                && (task.Warmup? ==> groups == old(groups))
      ensures left == budget && dead != [] ==> |instances| < |old(instances)|
      ensures pending == old(pending) ==> left == budget && dead == []
    {
      CarryOut(alive, task);
      left := Interleave(budget);
      dead := [];
      for i := 0 to |alive|
        invariant forall k :: 0 <= k < |dead| ==> dead[k] in alive
      {
        var actorError: bool := *;
        if actorError {
          dead := dead + [alive[i]];
        }
      }
      ghost var before := instances;
      if |dead| > 0 {
        ScaleDown(dead, false);
        SomeRemoved(before, dead);
      }
    }

    /**
     One iteration. The counter never goes below zero, and it is zero afterwards
     only if the membership has not changed since the iteration began, and then
     every instance has joined the new group and been warmed up in it.
     */
    method RebuildRound(alive: seq<InstanceId>, pendingTask: int, budget: nat)
      returns (dead: seq<InstanceId>, left: nat, group: nat)
      requires Rebuilding() && Distinct(alive) && alive != []
      requires forall i :: 0 <= i < |alive| ==> alive[i] in instances
      requires pendingTask == pending > 0
      modifies this`instances, this`migrating, this`pending, this`rebuildTasks, this`groups, this`warmedUp,
               this`nextGroup
      ensures Rebuilding() && left <= budget && rebuildTasks == old(rebuildTasks)
      ensures pending >= 0
      ensures forall id <- dead :: id !in instances
      ensures pending == 0 ==> instances == old(instances) && Assembled(alive, group, groups, warmedUp)
      ensures left < budget || |instances| < |old(instances)| || pending == 0
      ensures group == old(nextGroup) && nextGroup == old(nextGroup) + 1
    {
      group := nextGroup;
      nextGroup := nextGroup + 1;
      dead, left := RunTask(alive, Rebuild(group), budget);
      if |dead| == 0 && pending == pendingTask {
        dead, left := RunTask(alive, Warmup(group), left);
      }
      if |dead| == 0 {
        pending := pending - pendingTask;
      }
    }

    /** One iteration together with the new list of members. */
    method RebuildStep(members: seq<InstanceId>, budget: nat) returns (alive: seq<InstanceId>, left: nat, group: nat)
      requires Rebuilding() && Sorts(members, instances.Keys) && members != [] && pending > 0
      modifies this`instances, this`migrating, this`pending, this`rebuildTasks, this`groups, this`warmedUp,
               this`nextGroup
      ensures Rebuilding() && left <= budget && rebuildTasks == old(rebuildTasks) && pending >= 0
      ensures Sorts(alive, instances.Keys)
      ensures pending == 0 ==> Assembled(alive, group, groups, warmedUp)
      ensures left < budget || |instances| < |old(instances)| || (pending == 0 && |instances| == |old(instances)|)
      ensures group == old(nextGroup) && nextGroup == old(nextGroup) + 1
    {
      var dead;
      InOrderDistinct(members);
      dead, left, group := RebuildRound(members, pending, budget);
      NobodyDead(instances.Keys, dead);
      alive := Sorted(instances.Keys - Elements(dead));
      if pending == 0 {
        SortsUnique(members, alive);
      }
    }

    /**
     The rebuild loop, entered after a change and once no registered instance is
     migrating. However the membership changes at its awaits, it ends with the
     counter at zero and the migration filter set to exactly the registered
     instances; if there are any, all of them have joined one group under
     consecutive ranks and have been warmed up in it.
     */
    method RebuildMigrationBackend(budget: nat) returns (groupName: Option<nat>)
      requires isGroupBackend && migrating.Keys == instances.Keys && pending > 0
      requires forall id <- migrating :: !migrating[id]
      modifies this
      ensures enableMigration == old(enableMigration) && rebuildTasks == old(rebuildTasks)
      ensures pending == 0
      ensures Sorts(groupMembers, instances.Keys)
      ensures groupName.Some? <==> instances != map[]
      ensures groupName.Some? ==> Assembled(groupMembers, groupName.value, groups, warmedUp)
      ensures groupName.Some? ==> old(nextGroup) <= groupName.value < nextGroup
    {
      var originConfig := enableMigration;
      enableMigration := false;
      var alive := Sorted(instances.Keys);
      var pendingTask := pending;
      var left: nat := budget;
      var group: nat := 0;
      groupName := None;
      while |alive| > 0 && pending > 0
        invariant Rebuilding() && left <= budget && rebuildTasks == old(rebuildTasks)
        invariant Sorts(alive, instances.Keys)
        invariant pending == pendingTask >= 0
        invariant pending == 0 ==> groupName == Some(group) && Assembled(alive, group, groups, warmedUp)
        invariant old(nextGroup) <= nextGroup && (groupName.Some? ==> old(nextGroup) <= groupName.value < nextGroup)
        decreases left, |instances|, pending > 0
      {
        alive, left, group := RebuildStep(alive, left);
        groupName := Some(group);
        pendingTask := pending;
      }
      EmptyGroup(alive, instances);
      if |alive| == 0 {
        pending := 0;
        groupName := None;
      }
      groupMembers := alive;
      enableMigration := originConfig;
    }
  }

  lemma EmptyGroup(alive: seq<InstanceId>, instances: map<InstanceId, Handle>)
    requires Sorts(alive, instances.Keys)
    ensures alive == [] <==> instances == map[]
  {
    assert alive != [] ==> alive[0] in instances;
  }

  lemma NobodyDead(members: set<InstanceId>, dead: seq<InstanceId>)
    requires forall id <- dead :: id !in members
    ensures members - Elements(dead) == members
  {
  }

  lemma SomeRemoved(instances: map<InstanceId, Handle>, dead: seq<InstanceId>)
    ensures forall id <- dead :: id !in instances - Elements(dead)
    ensures (exists id <- dead :: id in instances) ==> |instances - Elements(dead)| < |instances|
  {
    forall id <- dead
      ensures id in Elements(dead)
    {
      ElementsMember(dead, id);
    }
    var after := instances - Elements(dead);
    if id :| id in dead && id in instances {
      assert after.Keys <= instances.Keys - {id};
      FewerElements(after.Keys, instances.Keys - {id});
    }
  }

  lemma {:induction false} FewerElements(a: set<InstanceId>, b: set<InstanceId>)
    requires a <= b
    ensures |a| <= |b|
  {
    if a != {} {
      var x :| x in a;
      FewerElements(a - {x}, b - {x});
    }
  }

  ghost predicate AllJoined(alive: seq<InstanceId>, group: nat, groups: map<InstanceId, Joined>) {
    forall i :: 0 <= i < |alive| ==> Lookup(groups, alive[i]) == Some(Joined(group, i, |alive|))
  }

  ghost predicate AllWarm(alive: seq<InstanceId>, group: nat, warmedUp: map<InstanceId, nat>) {
    forall i :: 0 <= i < |alive| ==> Lookup(warmedUp, alive[i]) == Some(group)
  }

  ghost predicate AllDid(alive: seq<InstanceId>, task: Task, groups: map<InstanceId, Joined>,
                         warmedUp: map<InstanceId, nat>) {
    match task
    case Rebuild(group) => AllJoined(alive, group, groups)
    case Warmup(group) => AllWarm(alive, group, warmedUp)
  }

  /** Everybody has joined this group, with ranks in the order of the list, and has been warmed up in it. */
  ghost predicate Assembled(alive: seq<InstanceId>, group: nat, groups: map<InstanceId, Joined>,
                            warmedUp: map<InstanceId, nat>) {
    AllJoined(alive, group, groups) && AllWarm(alive, group, warmedUp)
  }

  /** Offered, registered on both ends, and neither end was migrating. */
  ghost predicate Startable(p: Pair, pairs: seq<Pair>, instances: map<InstanceId, Handle>, inFlight: seq<Pair>) {
    && p in pairs && p.src in instances && p.dst in instances
    && !Endpoint(inFlight, p.src) && !Endpoint(inFlight, p.dst)
  }

  lemma StillEndpoints(inFlight: seq<Pair>, more: seq<Pair>)
    ensures forall id :: Endpoint(inFlight, id) ==> Endpoint(inFlight + more, id)
  {
    forall id | Endpoint(inFlight, id)
      ensures Endpoint(inFlight + more, id)
    {
      var i :| 0 <= i < |inFlight| && Touches(inFlight[i], id);
      assert Touches((inFlight + more)[i], id);
    }
  }

  /** A name registered again while an old migration of that name is in flight: the flag says free, wrongly. */
  lemma ReusedNameLosesItsFlag(a: InstanceId, b: InstanceId)
    requires a != b
    ensures InFlightOk(map[b := 0], map[b := true], [Pair(a, b)])
    ensures !InFlightOk(map[b := 0, a := 0], map[b := true, a := false], [Pair(a, b)])
  {
    assert Touches([Pair(a, b)][0], a) && Touches([Pair(a, b)][0], b);
    assert Endpoint([Pair(a, b)], a) && a in map[b := true, a := false];
  }

  // ------------------------------------------------------------------
  // Ranks of the workers in a group

  /** Worker `local` of the instance with rank `rank` (llumnix/backends/vllm/worker.py:127-137). */
  function GlobalRank(rank: nat, local: nat, worldSize: nat): nat {
    local + rank * worldSize
  }

  /** Every worker of every instance has its own rank below the group size ... */
  lemma RanksAreDistinct(rank: nat, local: nat, rank': nat, local': nat, instances: nat, worldSize: nat)
    requires rank < instances && rank' < instances && local < worldSize && local' < worldSize
    ensures GlobalRank(rank, local, worldSize) < instances * worldSize
    ensures GlobalRank(rank, local, worldSize) == GlobalRank(rank', local', worldSize) ==>
              rank == rank' && local == local'
    ensures rank < rank' || (rank == rank' && local < local') ==>
              GlobalRank(rank, local, worldSize) < GlobalRank(rank', local', worldSize)
  {
    MulGap(rank, instances, worldSize);
    if rank < rank' {
      MulGap(rank, rank', worldSize);
    } else if rank' < rank {
      MulGap(rank', rank, worldSize);
    }
  }

  /** ... and every rank below the group size belongs to some worker. */
  lemma {:induction false} EveryRankIsTaken(r: nat, instances: nat, worldSize: nat) returns (rank: nat, local: nat)
    requires r < instances * worldSize
    ensures rank < instances && local < worldSize && GlobalRank(rank, local, worldSize) == r
    decreases instances
  {
    assert instances > 0;
    assert instances * worldSize == (instances - 1) * worldSize + worldSize;
    if r < (instances - 1) * worldSize {
      rank, local := EveryRankIsTaken(r, instances - 1, worldSize);
    } else {
      rank, local := instances - 1, r - (instances - 1) * worldSize;
    }
  }
}
