/**
 Which instances exchange requests: the load estimate after a migration
 (llumnix/instance_info.py:238-285), the filters of source and destination
 (llumnix/global_scheduler/migration_filter.py), the two pairing policies
 (llumnix/global_scheduler/migration_policy.py) and the capability-gated groups
 (llumnix/global_scheduler/v1_migration_scheduler.py).
 */
module Pairing {
  import opened Prelude
  import opened Names
  import opened Loads
  import opened Sorting
  import opened Membership

  datatype MigrationType = Unconstrained | DecodingToDecoding | PrefillToDecoding

  datatype CompatibilityKey = CompatibilityKey(protocol: int, kvLayout: string, device: string, stack: string)

  datatype InstanceInfo = InstanceInfo(
    id: InstanceId,
    instanceType: InstanceType,
    numKilledRequests: nat,
    load: Load,
    loadAfterMigrateOut: Load,
    loadAfterMigrateIn: Load,
    capabilities: set<string>,
    compatibility: CompatibilityKey)

  /** The infos are the values of a dictionary keyed by id. */
  ghost predicate DistinctIds(infos: seq<InstanceInfo>) {
    forall i, j :: 0 <= i < j < |infos| ==> infos[i].id != infos[j].id
  }

  // ------------------------------------------------------------------
  // Filters

  datatype Filter = Filter(src: InstanceInfo -> bool, dst: InstanceInfo -> bool)

  predicate LoadSrc(info: InstanceInfo, threshold: Load) {
    info.numKilledRequests > 0 || Lt(threshold, info.load)
  }

  predicate LoadDst(info: InstanceInfo, threshold: Load) {
    info.numKilledRequests == 0 && Lt(info.load, threshold)
  }

  predicate PolicySrc(info: InstanceInfo, threshold: Load, kind: MigrationType) {
    match kind
    case Unconstrained => LoadSrc(info, threshold)
    case DecodingToDecoding => info.instanceType == Decode && LoadSrc(info, threshold)
    case PrefillToDecoding => info.instanceType == Prefill
  }

  predicate PolicyDst(info: InstanceInfo, threshold: Load, kind: MigrationType) {
    match kind
    case Unconstrained => LoadDst(info, threshold)
    case DecodingToDecoding => info.instanceType == Decode && LoadDst(info, threshold)
    case PrefillToDecoding => info.instanceType == Decode && info.numKilledRequests == 0
  }

  predicate PassesSrc(info: InstanceInfo, registered: seq<Filter>, threshold: Load, kind: MigrationType) {
    (forall i :: 0 <= i < |registered| ==> registered[i].src(info)) && PolicySrc(info, threshold, kind)
  }

  predicate PassesDst(info: InstanceInfo, registered: seq<Filter>, threshold: Load, kind: MigrationType) {
    (forall i :: 0 <= i < |registered| ==> registered[i].dst(info)) && PolicyDst(info, threshold, kind)
  }

  lemma {:induction false} SelectDistinct(infos: seq<InstanceInfo>, keep: InstanceInfo -> bool)
    requires DistinctIds(infos)
    ensures DistinctIds(Select(infos, keep))
  {
    if infos == [] {
    } else {
      var n := |infos| - 1;
      SelectDistinct(infos[..n], keep);
      var front := Select(infos[..n], keep);
      forall i | 0 <= i < |front|
        ensures front[i].id != infos[n].id
      {
        assert front[i] in infos[..n];
      }
    }
  }

  function Sources(infos: seq<InstanceInfo>, registered: seq<Filter>, threshold: Load,
                   kind: MigrationType): seq<InstanceInfo> {
    Select(infos, info => PassesSrc(info, registered, threshold, kind))
  }

  function Destinations(infos: seq<InstanceInfo>, registered: seq<Filter>, threshold: Load,
                        kind: MigrationType): seq<InstanceInfo> {
    Select(infos, info => PassesDst(info, registered, threshold, kind))
  }

  /** The obligation stated at the scheduler: nobody is source and destination at once. */
  lemma FiltersAreExclusive(infos: seq<InstanceInfo>, registered: seq<Filter>, threshold: Load, kind: MigrationType,
                            s: InstanceInfo, d: InstanceInfo)
    requires DistinctIds(infos)
    requires s in Sources(infos, registered, threshold, kind) && d in Destinations(infos, registered, threshold, kind)
    ensures s.id != d.id
  {
  }

  // ------------------------------------------------------------------
  // Policies

  datatype Policy = Balanced | Defrag

  function ByLoad(info: InstanceInfo): Load {
    info.load
  }

  function MostLoadedFirst(infos: seq<InstanceInfo>): seq<InstanceInfo> {
    Sort(infos, ByLoad, true)
  }

  function LeastLoadedFirst(infos: seq<InstanceInfo>): seq<InstanceInfo> {
    Sort(infos, ByLoad, false)
  }

  /** What the balanced policy asks of a pair. */
  predicate WorthMoving(s: InstanceInfo, d: InstanceInfo, threshold: Load) {
    && !Lt(threshold, d.loadAfterMigrateIn)
    && var before := Sub(s.load, d.load);
       var after := Sub(s.loadAfterMigrateOut, d.loadAfterMigrateIn);
       (Lt(Finite(0.0), after) && Lt(after, before)) || d.load == NegInf
  }

  predicate Accepted(policy: Policy, s: InstanceInfo, d: InstanceInfo, threshold: Load) {
    policy.Defrag? || WorthMoving(s, d, threshold)
  }

  /** The pairs up to position n of both sorted lists, those not accepted left out. */
  function PairsUpTo(policy: Policy, src: seq<InstanceInfo>, dst: seq<InstanceInfo>, threshold: Load, n: nat): seq<Pair>
    requires n <= |src| && n <= |dst|
  {
    if n == 0 then []
    else
      PairsUpTo(policy, src, dst, threshold, n - 1) +
      (if Accepted(policy, src[n - 1], dst[n - 1], threshold) then [Pair(src[n - 1].id, dst[n - 1].id)] else [])
  }

  method PairMigration(policy: Policy, src: seq<InstanceInfo>, dst: seq<InstanceInfo>, threshold: Load)
    returns (pairs: seq<Pair>)
    ensures pairs == PairsUpTo(policy, MostLoadedFirst(src), LeastLoadedFirst(dst), threshold, Min(|src|, |dst|))
  {
    var sortedSrc, sortedDst := MostLoadedFirst(src), LeastLoadedFirst(dst);
    pairs := [];
    for i := 0 to Min(|sortedSrc|, |sortedDst|)
      invariant pairs == PairsUpTo(policy, sortedSrc, sortedDst, threshold, i)
    {
      var s, d := sortedSrc[i], sortedDst[i];
      if policy.Balanced? {
        var before := Sub(s.load, d.load);
        var left, right := s.loadAfterMigrateOut, d.loadAfterMigrateIn;
        if Lt(threshold, right) {
          continue;
        }
        var after := Sub(left, right);
        if (Lt(Finite(0.0), after) && Lt(after, before)) || d.load == NegInf {
          pairs := pairs + [Pair(s.id, d.id)];
        }
      } else {
        pairs := pairs + [Pair(s.id, d.id)];
      }
    }
  }

  lemma {:induction false} DefragPairs(src: seq<InstanceInfo>, dst: seq<InstanceInfo>, threshold: Load, n: nat)
    requires n <= |src| && n <= |dst|
    ensures |PairsUpTo(Defrag, src, dst, threshold, n)| == n
    ensures forall i :: 0 <= i < n ==> PairsUpTo(Defrag, src, dst, threshold, n)[i] == Pair(src[i].id, dst[i].id)
  {
    if n == 0 {
    } else {
      DefragPairs(src, dst, threshold, n - 1);
    }
  }

  /** The same instances by load, those of equal load in their old order. */
  ghost predicate Ranked(infos: seq<InstanceInfo>, ranked: seq<InstanceInfo>, descending: bool) {
    && |ranked| == |infos| && multiset(ranked) == multiset(infos)
    && Ordered(ranked, ByLoad, descending)
    && (forall load :: WithKey(ranked, ByLoad, load) == WithKey(infos, ByLoad, load))
  }

  lemma SortRanks(infos: seq<InstanceInfo>, descending: bool)
    ensures Ranked(infos, Sort(infos, ByLoad, descending), descending)
  {
    SortOrders(infos, ByLoad, descending);
    forall load
      ensures WithKey(Sort(infos, ByLoad, descending), ByLoad, load) == WithKey(infos, ByLoad, load)
    {
      SortIsStable(infos, ByLoad, descending, load);
    }
  }

  /**
   Defrag on the infos that pass the filters: the i-th most loaded source goes with the
   i-th least loaded destination, and nobody is passed over until one side runs out.
   */
  lemma DefragPairsByLoad(infos: seq<InstanceInfo>, registered: seq<Filter>, threshold: Load, kind: MigrationType)
    returns (a: seq<InstanceInfo>, b: seq<InstanceInfo>)
    ensures Ranked(Sources(infos, registered, threshold, kind), a, true)
    ensures Ranked(Destinations(infos, registered, threshold, kind), b, false)
    ensures var pairs := Paired(Defrag, infos, registered, threshold, kind);
            |pairs| == Min(|a|, |b|) && forall i :: 0 <= i < |pairs| ==> pairs[i] == Pair(a[i].id, b[i].id)
  {
    var src, dst := Sources(infos, registered, threshold, kind), Destinations(infos, registered, threshold, kind);
    a, b := MostLoadedFirst(src), LeastLoadedFirst(dst);
    SortRanks(src, true);
    SortRanks(dst, false);
    DefragPairs(a, b, threshold, Min(|a|, |b|));
  }

  /**
   Every pair stands at one position of both lists, later pairs at later positions, and
   the positions are exactly those that the policy accepts.
   */
  ghost predicate Aligned(pairs: seq<Pair>, at: seq<nat>, policy: Policy, src: seq<InstanceInfo>,
                          dst: seq<InstanceInfo>, threshold: Load, n: nat)
    requires n <= |src| && n <= |dst|
  {
    && |at| == |pairs|
    && (forall i :: 0 <= i < |at| ==> at[i] < n && pairs[i] == Pair(src[at[i]].id, dst[at[i]].id) &&
                                      Accepted(policy, src[at[i]], dst[at[i]], threshold))
    && (forall i, j :: 0 <= i < j < |at| ==> at[i] < at[j])
    && (forall k :: 0 <= k < n && Accepted(policy, src[k], dst[k], threshold) ==> k in at)
  }

  lemma {:induction false} PairsAligned(policy: Policy, src: seq<InstanceInfo>, dst: seq<InstanceInfo>,
                                        threshold: Load, n: nat)
    returns (at: seq<nat>)
    requires n <= |src| && n <= |dst|
    ensures Aligned(PairsUpTo(policy, src, dst, threshold, n), at, policy, src, dst, threshold, n)
  {
    if n == 0 {
      at := [];
    } else {
      var before := PairsAligned(policy, src, dst, threshold, n - 1);
      var pairs := PairsUpTo(policy, src, dst, threshold, n - 1);
      if Accepted(policy, src[n - 1], dst[n - 1], threshold) {
        at := before + [n - 1];
        AlignedAppend(pairs, before, policy, src, dst, threshold, n);
      } else {
        at := before;
        assert PairsUpTo(policy, src, dst, threshold, n) == pairs + [] == pairs;
      }
    }
  }

  lemma AlignedAppend(pairs: seq<Pair>, at: seq<nat>, policy: Policy, src: seq<InstanceInfo>, dst: seq<InstanceInfo>,
                      threshold: Load, n: nat)
    requires 0 < n <= |src| && n <= |dst| && Aligned(pairs, at, policy, src, dst, threshold, n - 1)
    requires Accepted(policy, src[n - 1], dst[n - 1], threshold)
    ensures Aligned(pairs + [Pair(src[n - 1].id, dst[n - 1].id)], at + [n - 1], policy, src, dst, threshold, n)
  {
    var more := at + [n - 1];
    forall i, j | 0 <= i < j < |more|
      ensures more[i] < more[j]
    {
      assert more[i] == at[i];
    }
  }

  lemma SortedDistinct(infos: seq<InstanceInfo>, descending: bool)
    requires DistinctIds(infos)
    ensures DistinctIds(Sort(infos, ByLoad, descending))
  {
    PermutationDistinct(infos, Sort(infos, ByLoad, descending));
  }

  lemma PermutationDistinct(a: seq<InstanceInfo>, b: seq<InstanceInfo>)
    requires DistinctIds(a) && multiset(a) == multiset(b)
    ensures DistinctIds(b)
  {
    forall i, j | 0 <= i < j < |b|
      ensures b[i].id != b[j].id
    {
      assert b[i] in multiset(b) && b[j] in multiset(b);
      assert b[i] in a && b[j] in a;
      if b[i] == b[j] {
        assert multiset(b)[b[i]] >= 2 by {
          assert b == b[..j] + [b[j]] + b[j + 1..];
          assert b[i] in b[..j];
        }
        DistinctOnce(a, b[i]);
      }
    }
  }

  lemma {:induction false} DistinctOnce(a: seq<InstanceInfo>, x: InstanceInfo)
    requires DistinctIds(a)
    ensures multiset(a)[x] <= 1
  {
    if a == [] {
    } else {
      var n := |a| - 1;
      assert a == a[..n] + [a[n]];
      DistinctOnce(a[..n], x);
      if x == a[n] {
        assert x !in a[..n];
      }
    }
  }

  /**
   What passing the filters means: which instances give requests away, and which take
   them, for each kind of migration, if every registered filter agrees.
   */
  lemma FilterMeaning(info: InstanceInfo, registered: seq<Filter>, threshold: Load, kind: MigrationType)
    ensures PassesSrc(info, registered, threshold, kind) <==>
              && (forall i :: 0 <= i < |registered| ==> registered[i].src(info))
              && (kind == PrefillToDecoding ==> info.instanceType == Prefill)
              && (kind == DecodingToDecoding ==> info.instanceType == Decode)
              && (kind != PrefillToDecoding ==> info.numKilledRequests > 0 || Lt(threshold, info.load))
    ensures PassesDst(info, registered, threshold, kind) <==>
              && (forall i :: 0 <= i < |registered| ==> registered[i].dst(info))
              && (kind != Unconstrained ==> info.instanceType == Decode)
              && info.numKilledRequests == 0
              && (kind != PrefillToDecoding ==> Lt(info.load, threshold))
  {
  }

  /** Nobody who passes is left out on either side. */
  lemma SidesMeaning(infos: seq<InstanceInfo>, registered: seq<Filter>, threshold: Load, kind: MigrationType)
    ensures forall x :: x in Sources(infos, registered, threshold, kind) <==>
                        x in infos && PassesSrc(x, registered, threshold, kind)
    ensures forall x :: x in Destinations(infos, registered, threshold, kind) <==>
                        x in infos && PassesDst(x, registered, threshold, kind)
  {
  }

  /** Pairing on the infos that pass the filters. */
  ghost function Paired(policy: Policy, infos: seq<InstanceInfo>, registered: seq<Filter>, threshold: Load,
                        kind: MigrationType)
    : seq<Pair>
  {
    var src, dst := Sources(infos, registered, threshold, kind), Destinations(infos, registered, threshold, kind);
    PairsUpTo(policy, MostLoadedFirst(src), LeastLoadedFirst(dst), threshold, Min(|src|, |dst|))
  }

  /** Both ends of a pair, as the filters and the policy saw them. */
  ghost predicate PairOf(p: Pair, s: InstanceInfo, d: InstanceInfo, policy: Policy, infos: seq<InstanceInfo>,
                         registered: seq<Filter>, threshold: Load, kind: MigrationType) {
    && p == Pair(s.id, d.id) && s in infos && d in infos
    && PassesSrc(s, registered, threshold, kind) && PassesDst(d, registered, threshold, kind)
    && Accepted(policy, s, d, threshold)
  }

  /** The two sorted lists: distinct instances that passed the filters, with nobody on both. */
  ghost predicate Sides(a: seq<InstanceInfo>, b: seq<InstanceInfo>, infos: seq<InstanceInfo>,
                        registered: seq<Filter>, threshold: Load, kind: MigrationType) {
    && DistinctIds(a) && DistinctIds(b)
    && (forall i :: 0 <= i < |a| ==> a[i] in infos && PassesSrc(a[i], registered, threshold, kind))
    && (forall i :: 0 <= i < |b| ==> b[i] in infos && PassesDst(b[i], registered, threshold, kind))
    && (forall i, j :: 0 <= i < |a| && 0 <= j < |b| ==> a[i].id != b[j].id)
  }

  lemma SortedSides(infos: seq<InstanceInfo>, registered: seq<Filter>, threshold: Load, kind: MigrationType)
    requires DistinctIds(infos)
    ensures Sides(MostLoadedFirst(Sources(infos, registered, threshold, kind)),
                  LeastLoadedFirst(Destinations(infos, registered, threshold, kind)), infos, registered, threshold,
                  kind)
  {
    var src, dst := Sources(infos, registered, threshold, kind), Destinations(infos, registered, threshold, kind);
    var a, b := MostLoadedFirst(src), LeastLoadedFirst(dst);
    SelectDistinct(infos, info => PassesSrc(info, registered, threshold, kind));
    SelectDistinct(infos, info => PassesDst(info, registered, threshold, kind));
    SortedDistinct(src, true);
    SortedDistinct(dst, false);
    SortMembers(src, ByLoad, true);
    SortMembers(dst, ByLoad, false);
    forall i | 0 <= i < |a|
      ensures a[i] in infos && PassesSrc(a[i], registered, threshold, kind)
    {
      assert a[i] in src;
    }
    forall i | 0 <= i < |b|
      ensures b[i] in infos && PassesDst(b[i], registered, threshold, kind)
    {
      assert b[i] in dst;
    }
    forall i, j | 0 <= i < |a| && 0 <= j < |b|
      ensures a[i].id != b[j].id
    {
      assert a[i] in src && b[j] in dst;
      FiltersAreExclusive(infos, registered, threshold, kind, a[i], b[j]);
    }
  }

  /**
   For every pair type and policy the pairs form a matching: nobody is both source
   and destination, and nobody occurs in two pairs.
   */
  lemma PairingIsMatching(policy: Policy, infos: seq<InstanceInfo>, registered: seq<Filter>, threshold: Load,
                          kind: MigrationType)
    requires DistinctIds(infos)
    ensures VertexDisjoint(Paired(policy, infos, registered, threshold, kind))
  {
    var src, dst := Sources(infos, registered, threshold, kind), Destinations(infos, registered, threshold, kind);
    var a, b, n := MostLoadedFirst(src), LeastLoadedFirst(dst), Min(|src|, |dst|);
    SortedSides(infos, registered, threshold, kind);
    var at := PairsAligned(policy, a, b, threshold, n);
    AlignedIsMatching(PairsUpTo(policy, a, b, threshold, n), at, policy, a, b, threshold, n);
  }

  /**
   Which pairs there are, for every policy: of the i-th most loaded source and the i-th
   least loaded destination, exactly those that the policy accepts, in that order.
   */
  lemma PairsExactly(policy: Policy, infos: seq<InstanceInfo>, registered: seq<Filter>, threshold: Load,
                     kind: MigrationType)
    returns (a: seq<InstanceInfo>, b: seq<InstanceInfo>, at: seq<nat>)
    ensures Ranked(Sources(infos, registered, threshold, kind), a, true)
    ensures Ranked(Destinations(infos, registered, threshold, kind), b, false)
    ensures Aligned(Paired(policy, infos, registered, threshold, kind), at, policy, a, b, threshold, Min(|a|, |b|))
  {
    var src, dst := Sources(infos, registered, threshold, kind), Destinations(infos, registered, threshold, kind);
    a, b := MostLoadedFirst(src), LeastLoadedFirst(dst);
    SortRanks(src, true);
    SortRanks(dst, false);
    at := PairsAligned(policy, a, b, threshold, Min(|a|, |b|));
  }

  /** The direction of every pair: what the two ends are, for each kind of migration. */
  lemma PairDirection(policy: Policy, infos: seq<InstanceInfo>, threshold: Load, kind: MigrationType, i: nat)
    returns (s: InstanceInfo, d: InstanceInfo)
    requires DistinctIds(infos) && i < |Paired(policy, infos, [], threshold, kind)|
    ensures Paired(policy, infos, [], threshold, kind)[i] == Pair(s.id, d.id) && s in infos && d in infos
    ensures kind == PrefillToDecoding ==> s.instanceType == Prefill && d.instanceType == Decode
    ensures kind == DecodingToDecoding ==> s.instanceType == Decode && d.instanceType == Decode
    ensures kind != PrefillToDecoding ==>
              (s.numKilledRequests > 0 || Lt(threshold, s.load)) && Lt(d.load, threshold)
    ensures d.numKilledRequests == 0
  {
    s, d := PairEnds(policy, infos, [], threshold, kind, i);
    FilterMeaning(s, [], threshold, kind);
    FilterMeaning(d, [], threshold, kind);
  }

  /** Each pair joins a source and a destination that passed the filters and that the policy accepts. */
  lemma PairEnds(policy: Policy, infos: seq<InstanceInfo>, registered: seq<Filter>, threshold: Load,
                 kind: MigrationType, i: nat)
    returns (s: InstanceInfo, d: InstanceInfo)
    requires DistinctIds(infos) && i < |Paired(policy, infos, registered, threshold, kind)|
    ensures PairOf(Paired(policy, infos, registered, threshold, kind)[i], s, d, policy, infos, registered, threshold,
                   kind)
  {
    var src, dst := Sources(infos, registered, threshold, kind), Destinations(infos, registered, threshold, kind);
    var a, b, n := MostLoadedFirst(src), LeastLoadedFirst(dst), Min(|src|, |dst|);
    SortedSides(infos, registered, threshold, kind);
    var at := PairsAligned(policy, a, b, threshold, n);
    s, d := a[at[i]], b[at[i]];
  }

  lemma AlignedIsMatching(pairs: seq<Pair>, at: seq<nat>, policy: Policy, a: seq<InstanceInfo>, b: seq<InstanceInfo>,
                          threshold: Load, n: nat)
    requires n <= |a| && n <= |b| && Aligned(pairs, at, policy, a, b, threshold, n)
    requires DistinctIds(a) && DistinctIds(b)
    requires forall i, j :: 0 <= i < |a| && 0 <= j < |b| ==> a[i].id != b[j].id
    ensures VertexDisjoint(pairs)
  {
  }

  // ------------------------------------------------------------------
  // Predicted loads

  datatype LoadMetric = UsageRatio | RemainingSteps | RemainingTokens

  /** The counters that the estimate reads; the first waiting request's blocks are tokens over block size. */
  datatype Counters = Counters(
    totalBlocks: int, usedBlocks: int, firstWaitingBlocks: real, runningRequests: int, waitingRequests: int,
    availableBlocks: int, lastRunningBlocks: int)

  function RequestsCounted(c: Counters, defrag: bool): int {
    c.runningRequests + (if defrag && c.waitingRequests != 0 then 1 else 0)
  }

  function BlocksCounted(c: Counters, defrag: bool): real {
    c.availableBlocks as real - (if defrag then c.firstWaitingBlocks else 0.0)
  }

  function ComputeLoad(metric: LoadMetric, defrag: bool, c: Counters): Load {
    match metric
    case UsageRatio =>
      if c.totalBlocks > 0 then Finite((c.usedBlocks as real + c.firstWaitingBlocks) / c.totalBlocks as real)
      else NegInf
    case RemainingSteps =>
      var n := RequestsCounted(c, defrag);
      if n == 0 then NegInf else Finite(BlocksCounted(c, defrag) / n as real * -1.0)
    case RemainingTokens => Finite(c.availableBlocks as real)
  }

  function AfterMigrate(c: Counters, isMigrateIn: bool): Counters {
    if isMigrateIn then
      c.(runningRequests := c.runningRequests + 1, availableBlocks := c.availableBlocks - c.lastRunningBlocks)
    else
      c.(runningRequests := c.runningRequests - 1, availableBlocks := c.availableBlocks + c.lastRunningBlocks)
  }

  function LoadAfterMigrate(metric: LoadMetric, defrag: bool, c: Counters, isMigrateIn: bool): Load {
    ComputeLoad(metric, defrag, AfterMigrate(c, isMigrateIn))
  }

  /**
   What the estimates mean: the usage ratio is the part of all blocks that is used or
   wanted by the first waiting request; the remaining steps are the free blocks per
   request, the more the lower the load, and with defragmentation the first waiting
   request, if there is one, counts as running and its blocks as taken.
   */
  lemma LoadMeaning(c: Counters, running: nat)
    requires c.runningRequests == running > 0
    ensures c.totalBlocks > 0 ==>
              var usage := ComputeLoad(UsageRatio, false, c);
              usage.Finite? && usage.value * c.totalBlocks as real == c.usedBlocks as real + c.firstWaitingBlocks
    ensures c.totalBlocks <= 0 ==> ComputeLoad(UsageRatio, false, c) == NegInf
    ensures var steps := ComputeLoad(RemainingSteps, false, c);
            steps.Finite? && steps.value * running as real == -(c.availableBlocks as real)
    ensures var n := if c.waitingRequests == 0 then running else running + 1;
            var steps := ComputeLoad(RemainingSteps, true, c);
            steps.Finite? && steps.value * n as real == c.firstWaitingBlocks - c.availableBlocks as real
    ensures ComputeLoad(RemainingTokens, false, c) == Finite(c.availableBlocks as real)
  {
    var n := if c.waitingRequests == 0 then running else running + 1;
    DivideBack(BlocksCounted(c, false), running);
    DivideBack(BlocksCounted(c, true), n);
    if c.totalBlocks > 0 {
      DivideBack(c.usedBlocks as real + c.firstWaitingBlocks, c.totalBlocks);
    }
  }

  lemma DivideBack(a: real, n: int)
    requires n > 0
    ensures a / n as real * n as real == a && a / n as real * -1.0 * n as real == -a
  {
  }

  /** An idle instance is a destination for everything. */
  lemma IdleLoad(c: Counters, defrag: bool)
    requires c.runningRequests == 0 && (defrag ==> c.waitingRequests == 0)
    ensures ComputeLoad(RemainingSteps, defrag, c) == NegInf
  {
  }

  /** What a migration is predicted to change: one request and the last running request's blocks. */
  lemma PredictedCounters(c: Counters, isMigrateIn: bool)
    ensures var after := AfterMigrate(c, isMigrateIn);
            && after.runningRequests - c.runningRequests == (if isMigrateIn then 1 else -1)
            && after.availableBlocks - c.availableBlocks ==
                (if isMigrateIn then -c.lastRunningBlocks else c.lastRunningBlocks)
            && AfterMigrate(after, !isMigrateIn) == c
  {
  }

  /** a/n compared with (a - b)/(n + 1), cleared of fractions. */
  lemma SpreadThinner(a: real, b: real, n: int)
    requires n >= 1
    ensures (a - b) / (n + 1) as real <= a / n as real <==> a + n as real * b >= 0.0
  {
    var m := n as real;
    assert (n + 1) as real == m + 1.0;
    FractionsCompare(a - b, m + 1.0, a, m);
    assert (a - b) * m == a * m - m * b;
    assert a * (m + 1.0) == a * m + a;
  }

  lemma FractionsCompare(p: real, q: real, r: real, s: real)
    requires q > 0.0 && s > 0.0
    ensures p / q <= r / s <==> p * s <= r * q
  {
  }

  /**
   The blocks counted as available are not further in debt than the moved request's
   blocks for every request counted.
   */
  predicate SmallDebt(c: Counters, defrag: bool) {
    BlocksCounted(c, defrag) + RequestsCounted(c, defrag) as real * c.lastRunningBlocks as real >= 0.0
  }

  /** Under remaining steps, taking a request in never lowers the predicted load exactly with a small debt. */
  lemma MigrateInNeverLowersLoad(defrag: bool, c: Counters)
    requires RequestsCounted(c, defrag) >= 1
    ensures Le(ComputeLoad(RemainingSteps, defrag, c), LoadAfterMigrate(RemainingSteps, defrag, c, true)) <==>
              SmallDebt(c, defrag)
  {
    SpreadThinner(BlocksCounted(c, defrag), c.lastRunningBlocks as real, RequestsCounted(c, defrag));
  }

  /** Giving a request away never raises it, under the same condition or when no request is left. */
  lemma MigrateOutNeverRaisesLoad(defrag: bool, c: Counters)
    requires RequestsCounted(c, defrag) >= 1
    ensures Le(LoadAfterMigrate(RemainingSteps, defrag, c, false), ComputeLoad(RemainingSteps, defrag, c)) <==>
            RequestsCounted(c, defrag) == 1 || SmallDebt(c, defrag)
  {
    var a, b, n := BlocksCounted(c, defrag), c.lastRunningBlocks as real, RequestsCounted(c, defrag);
    if n > 1 {
      SpreadThinner(a + b, b, n - 1);
      assert (n - 1) as real * b == n as real * b - b;
    }
  }

  /** Ten blocks free, a first waiting request of a hundred, two requests of one block: one more seems to help. */
  lemma DebtLowersLoad()
    ensures var c := Counters(100, 90, 100.0, 1, 1, 10, 1);
            && RequestsCounted(c, true) == 2 && !SmallDebt(c, true)
            && Lt(LoadAfterMigrate(RemainingSteps, true, c, true), ComputeLoad(RemainingSteps, true, c))
  {
    var c := Counters(100, 90, 100.0, 1, 1, 10, 1);
    MigrateInNeverLowersLoad(true, c);
  }

  /** Requests and blocks are counted, so never below zero. */
  predicate Counted(c: Counters, defrag: bool) {
    RequestsCounted(c, defrag) >= 0 && c.lastRunningBlocks >= 0
  }

  /** The info's loads are the estimates from its counters. */
  ghost predicate Estimated(info: InstanceInfo, metric: LoadMetric, c: Counters, defrag: bool) {
    && info.load == ComputeLoad(metric, defrag, c)
    && info.loadAfterMigrateIn == LoadAfterMigrate(metric, defrag, c, true)
    && info.loadAfterMigrateOut == LoadAfterMigrate(metric, defrag, c, false)
  }

  /**
   What the balanced policy accepts, when loads are remaining steps with small debts:
   exactly the pairs whose destination stays within the threshold and below the source
   afterwards, and of which at least one side changes at all.
   */
  lemma BalancedAccepts(s: InstanceInfo, d: InstanceInfo, cs: Counters, cd: Counters, defrag: bool, threshold: Load)
    requires Estimated(s, RemainingSteps, cs, defrag) && RequestsCounted(cs, defrag) >= 1 && SmallDebt(cs, defrag)
    requires Estimated(d, RemainingSteps, cd, defrag) && RequestsCounted(cd, defrag) >= 1 && SmallDebt(cd, defrag)
    ensures Accepted(Balanced, s, d, threshold) <==>
            && Le(d.loadAfterMigrateIn, threshold) && Lt(d.loadAfterMigrateIn, s.loadAfterMigrateOut)
            && (s.loadAfterMigrateOut != s.load || d.loadAfterMigrateIn != d.load)
  {
    MigrateOutNeverRaisesLoad(defrag, cs);
    MigrateInNeverLowersLoad(defrag, cd);
  }

  /**
   Under the other two metrics a migration changes no estimate, or moves the two sides
   apart: the policy then accepts no pair, but for a destination without any blocks.
   */
  lemma OtherMetricsRefuse(s: InstanceInfo, d: InstanceInfo, metric: LoadMetric, cs: Counters, cd: Counters,
                           defrag: bool, threshold: Load)
    requires Counted(cs, defrag) && Counted(cd, defrag)
    requires Estimated(s, metric, cs, defrag) && Estimated(d, metric, cd, defrag) && metric != RemainingSteps
    ensures Accepted(Balanced, s, d, threshold) <==> metric == UsageRatio && cd.totalBlocks <= 0
  {
  }

  /** The infos carry estimates under this metric, from the counters that `of` gives. */
  ghost predicate AllEstimated(infos: seq<InstanceInfo>, metric: LoadMetric, of: InstanceInfo -> Counters,
                               defrag: bool) {
    forall i :: 0 <= i < |infos| ==> Counted(of(infos[i]), defrag) && Estimated(infos[i], metric, of(infos[i]), defrag)
  }

  /** So under those metrics the balanced policy never migrates to instances that have blocks. */
  lemma OtherMetricsPairNobody(src: seq<InstanceInfo>, dst: seq<InstanceInfo>, metric: LoadMetric,
                               of: InstanceInfo -> Counters, defrag: bool, threshold: Load, n: nat)
    requires n <= |src| && n <= |dst| && metric != RemainingSteps
    requires AllEstimated(src, metric, of, defrag) && AllEstimated(dst, metric, of, defrag)
    requires forall i :: 0 <= i < |dst| ==> of(dst[i]).totalBlocks > 0
    ensures PairsUpTo(Balanced, src, dst, threshold, n) == []
  {
    forall i | 0 <= i < n
      ensures !Accepted(Balanced, src[i], dst[i], threshold)
    {
      OtherMetricsRefuse(src[i], dst[i], metric, of(src[i]), of(dst[i]), defrag, threshold);
    }
    NobodyAccepted(Balanced, src, dst, threshold, n);
  }

  lemma {:induction false} NobodyAccepted(policy: Policy, src: seq<InstanceInfo>, dst: seq<InstanceInfo>,
                                          threshold: Load, n: nat)
    requires n <= |src| && n <= |dst|
    requires forall i :: 0 <= i < n ==> !Accepted(policy, src[i], dst[i], threshold)
    ensures PairsUpTo(policy, src, dst, threshold, n) == []
  {
    if n == 0 {
    } else {
      NobodyAccepted(policy, src, dst, threshold, n - 1);
    }
  }

  /**
   Progress, under every metric: of an accepted pair whose destination is not idle, the
   destination stays below the source and strictly closer than before, and at its
   estimated load it is not taken for a source. Each side moves towards the other if
   and only if its debt is small.
   */
  lemma BalancedMakesProgress(s: InstanceInfo, d: InstanceInfo, metric: LoadMetric, cs: Counters, cd: Counters,
                              defrag: bool, threshold: Load)
    requires Counted(cs, defrag) && Counted(cd, defrag)
    requires Estimated(s, metric, cs, defrag) && Estimated(d, metric, cd, defrag)
    requires Accepted(Balanced, s, d, threshold) && d.load != NegInf
    ensures metric == RemainingSteps
    ensures Lt(d.loadAfterMigrateIn, s.loadAfterMigrateOut)
    ensures Lt(Sub(s.loadAfterMigrateOut, d.loadAfterMigrateIn), Sub(s.load, d.load))
    ensures Le(d.load, d.loadAfterMigrateIn) <==> SmallDebt(cd, defrag)
    ensures Le(s.loadAfterMigrateOut, s.load) <==> SmallDebt(cs, defrag)
    ensures d.numKilledRequests == 0 ==> !LoadSrc(d.(load := d.loadAfterMigrateIn), threshold)
  {
    if metric == RemainingSteps {
      MigrateOutNeverRaisesLoad(defrag, cs);
      MigrateInNeverLowersLoad(defrag, cd);
    } else {
      OtherMetricsRefuse(s, d, metric, cs, cd, defrag, threshold);
    }
  }

  // ------------------------------------------------------------------
  // Capability-gated groups

  const REQUIRED_CAPABILITIES: set<string> := {"token_boundary_freeze", "kv_snapshot", "native_nccl"}

  predicate Capable(info: InstanceInfo, required: set<string>) {
    (if required == {} then REQUIRED_CAPABILITIES else required) <= info.capabilities
  }

  /** Without a requirement of their own, groups ask for the three migration capabilities. */
  lemma CapableMeaning(info: InstanceInfo, required: set<string>)
    ensures required != {} ==> (Capable(info, required) <==> forall name <- required :: name in info.capabilities)
    ensures Capable(info, {}) <==>
              && "token_boundary_freeze" in info.capabilities && "kv_snapshot" in info.capabilities
              && "native_nccl" in info.capabilities
  {
  }

  /** The members of one group: capable, and with this compatibility key. */
  function Group(infos: seq<InstanceInfo>, required: set<string>, key: CompatibilityKey): seq<InstanceInfo> {
    Select(infos, info => Capable(info, required) && info.compatibility == key)
  }

  lemma GroupMeaning(infos: seq<InstanceInfo>, required: set<string>, key: CompatibilityKey)
    ensures forall x :: x in Group(infos, required, key) <==>
              x in infos && Capable(x, required) && x.compatibility == key
  {
  }

  /** The keys of the capable infos in order of first appearance. */
  function GroupKeys(infos: seq<InstanceInfo>, required: set<string>): (keys: seq<CompatibilityKey>)
    ensures Distinct(keys)
    ensures forall x <- infos :: Capable(x, required) ==> x.compatibility in keys
  {
    if infos == [] then []
    else
      var n := |infos| - 1;
      assert infos == infos[..n] + [infos[n]];
      var keys := GroupKeys(infos[..n], required);
      if Capable(infos[n], required) && infos[n].compatibility !in keys then keys + [infos[n].compatibility] else keys
  }

  ghost function PairedInGroup(policy: Policy, infos: seq<InstanceInfo>, required: set<string>, threshold: Load,
                               kind: MigrationType, key: CompatibilityKey): seq<Pair> {
    Paired(policy, Group(infos, required, key), [], threshold, kind)
  }

  ghost function PairedInGroups(policy: Policy, infos: seq<InstanceInfo>, required: set<string>, threshold: Load,
                                kind: MigrationType, keys: seq<CompatibilityKey>): seq<Pair> {
    if keys == [] then []
    else
      PairedInGroups(policy, infos, required, threshold, kind, keys[..|keys| - 1]) +
      PairedInGroup(policy, infos, required, threshold, kind, keys[|keys| - 1])
  }

  method PairOneGroup(policy: Policy, infos: seq<InstanceInfo>, required: set<string>, threshold: Load,
                      kind: MigrationType, key: CompatibilityKey)
    returns (pairs: seq<Pair>)
    ensures pairs == PairedInGroup(policy, infos, required, threshold, kind, key)
  {
    var members := Group(infos, required, key);
    pairs := PairMigration(policy, Sources(members, [], threshold, kind), Destinations(members, [], threshold, kind),
                           threshold);
  }

  lemma JoinNext(policy: Policy, infos: seq<InstanceInfo>, required: set<string>, threshold: Load, kind: MigrationType,
                 keys: seq<CompatibilityKey>, i: nat)
    requires i < |keys|
    ensures PairedInGroups(policy, infos, required, threshold, kind, keys[..i + 1]) ==
            PairedInGroups(policy, infos, required, threshold, kind, keys[..i]) +
            PairedInGroup(policy, infos, required, threshold, kind, keys[i])
  {
    assert keys[..i + 1][..i] == keys[..i];
  }

  /** The list joined over all groups. */
  method PairMigrationV1(policy: Policy, infos: seq<InstanceInfo>, required: set<string>, threshold: Load,
                         kind: MigrationType)
    returns (pairs: seq<Pair>)
    ensures pairs == PairedInGroups(policy, infos, required, threshold, kind, GroupKeys(infos, required))
  {
    var keys := GroupKeys(infos, required);
    pairs := [];
    for i := 0 to |keys|
      invariant pairs == PairedInGroups(policy, infos, required, threshold, kind, keys[..i])
    {
      var more := PairOneGroup(policy, infos, required, threshold, kind, keys[i]);
      JoinNext(policy, infos, required, threshold, kind, keys, i);
      pairs := pairs + more;
    }
    assert keys[..|keys|] == keys;
  }

  /** Where a pair of the joined list comes from: two capable members of one group. */
  lemma {:induction false} GroupPairEnds(policy: Policy, infos: seq<InstanceInfo>, required: set<string>,
                                         threshold: Load, kind: MigrationType, keys: seq<CompatibilityKey>, i: nat)
    returns (s: InstanceInfo, d: InstanceInfo)
    requires DistinctIds(infos) && i < |PairedInGroups(policy, infos, required, threshold, kind, keys)|
    ensures PairedInGroups(policy, infos, required, threshold, kind, keys)[i] == Pair(s.id, d.id)
    ensures s in infos && d in infos && Capable(s, required) && Capable(d, required)
    ensures s.compatibility == d.compatibility && s.compatibility in keys
    decreases |keys|
  {
    var front := PairedInGroups(policy, infos, required, threshold, kind, keys[..|keys| - 1]);
    var key := keys[|keys| - 1];
    if i < |front| {
      s, d := GroupPairEnds(policy, infos, required, threshold, kind, keys[..|keys| - 1], i);
    } else {
      SelectDistinct(infos, info => Capable(info, required) && info.compatibility == key);
      s, d := PairEnds(policy, Group(infos, required, key), [], threshold, kind, i - |front|);
      assert s in Group(infos, required, key) && d in Group(infos, required, key);
    }
  }

  /** A group with a source and a destination gets a pair under defragmentation. */
  lemma GroupsArePaired(infos: seq<InstanceInfo>, required: set<string>, threshold: Load, kind: MigrationType,
                        s: InstanceInfo, d: InstanceInfo)
    requires s in infos && d in infos && Capable(s, required) && Capable(d, required)
    requires s.compatibility == d.compatibility
    requires PassesSrc(s, [], threshold, kind) && PassesDst(d, [], threshold, kind)
    ensures PairedInGroup(Defrag, infos, required, threshold, kind, s.compatibility) != []
  {
    var group := Group(infos, required, s.compatibility);
    GroupMeaning(infos, required, s.compatibility);
    SidesMeaning(group, [], threshold, kind);
    var a, b := DefragPairsByLoad(group, [], threshold, kind);
    assert s in Sources(group, [], threshold, kind) && d in Destinations(group, [], threshold, kind);
  }

  /** Every pair of every group is in the joined list. */
  lemma {:induction false} EveryGroupIsPaired(policy: Policy, infos: seq<InstanceInfo>, required: set<string>,
                                              threshold: Load, kind: MigrationType, keys: seq<CompatibilityKey>,
                                              key: CompatibilityKey, p: Pair)
    requires key in keys && p in PairedInGroup(policy, infos, required, threshold, kind, key)
    ensures p in PairedInGroups(policy, infos, required, threshold, kind, keys)
    decreases |keys|
  {
    var n := |keys| - 1;
    if keys[n] != key {
      assert keys == keys[..n] + [keys[n]];
      EveryGroupIsPaired(policy, infos, required, threshold, kind, keys[..n], key, p);
    }
  }

  /** The list joined over groups is still a matching: a group's members are in no other group. */
  lemma {:induction false} GroupedPairingIsMatching(policy: Policy, infos: seq<InstanceInfo>, required: set<string>,
                                                    threshold: Load, kind: MigrationType, keys: seq<CompatibilityKey>)
    requires DistinctIds(infos) && Distinct(keys)
    ensures VertexDisjoint(PairedInGroups(policy, infos, required, threshold, kind, keys))
    decreases |keys|
  {
    if keys == [] {
    } else {
      var n := |keys| - 1;
      var front := PairedInGroups(policy, infos, required, threshold, kind, keys[..n]);
      var back := PairedInGroup(policy, infos, required, threshold, kind, keys[n]);
      GroupedPairingIsMatching(policy, infos, required, threshold, kind, keys[..n]);
      SelectDistinct(infos, info => Capable(info, required) && info.compatibility == keys[n]);
      PairingIsMatching(policy, Group(infos, required, keys[n]), [], threshold, kind);
      forall i, j, id | 0 <= i < |front| && 0 <= j < |back| && Touches(front[i], id)
        ensures !Touches(back[j], id)
      {
        GroupsApart(policy, infos, required, threshold, kind, keys, i, j, id);
      }
      DisjointJoin(front, back);
    }
  }

  lemma GroupsApart(policy: Policy, infos: seq<InstanceInfo>, required: set<string>, threshold: Load,
                    kind: MigrationType, keys: seq<CompatibilityKey>, i: nat, j: nat, id: InstanceId)
    requires DistinctIds(infos) && Distinct(keys) && keys != []
    requires i < |PairedInGroups(policy, infos, required, threshold, kind, keys[..|keys| - 1])|
    requires j < |PairedInGroup(policy, infos, required, threshold, kind, keys[|keys| - 1])|
    requires Touches(PairedInGroups(policy, infos, required, threshold, kind, keys[..|keys| - 1])[i], id)
    ensures !Touches(PairedInGroup(policy, infos, required, threshold, kind, keys[|keys| - 1])[j], id)
  {
    var key := keys[|keys| - 1];
    SelectDistinct(infos, info => Capable(info, required) && info.compatibility == key);
    var s, d := GroupPairEnds(policy, infos, required, threshold, kind, keys[..|keys| - 1], i);
    var s', d' := PairEnds(policy, Group(infos, required, key), [], threshold, kind, j);
    assert s' in Group(infos, required, key) && d' in Group(infos, required, key);
    DifferentGroups(infos, s, s');
    DifferentGroups(infos, s, d');
    DifferentGroups(infos, d, s');
    DifferentGroups(infos, d, d');
  }

  lemma DifferentGroups(infos: seq<InstanceInfo>, x: InstanceInfo, y: InstanceInfo)
    requires DistinctIds(infos) && x in infos && y in infos && x.compatibility != y.compatibility
    ensures x.id != y.id
  {
  }

  lemma DisjointJoin(a: seq<Pair>, b: seq<Pair>)
    requires VertexDisjoint(a) && VertexDisjoint(b)
    requires forall i, j, id :: 0 <= i < |a| && 0 <= j < |b| && Touches(a[i], id) ==> !Touches(b[j], id)
    ensures VertexDisjoint(a + b)
  {
  }
}
