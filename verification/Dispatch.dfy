/**
 The choice of an instance for a new request
 (llumnix/global_scheduler/dispatch_scheduler.py:55-103 and the Load and Queue
 policies of llumnix/global_scheduler/dispatch_policy.py).
 */
module Dispatch {
  import opened Prelude
  import opened Names
  import opened Loads
  import opened Sorting
  import opened Affinity

  datatype DispatchInfo = DispatchInfo(id: InstanceId, load: Load, numWaiting: nat, hashes: set<BlockHash>)

  datatype Policy = ByLoad | ByQueue

  datatype Failure = NoCandidates | EmptyTopK

  const TOLERANCE := 0.10

  function KeyOf(policy: Policy): DispatchInfo -> Load {
    match policy
    case ByLoad => (i: DispatchInfo) => i.load
    case ByQueue => (i: DispatchInfo) => Finite(i.numWaiting as real)
  }

  /** Any of the first k in sorted order; `random` is the random draw. */
  function Choose(policy: Policy, infos: seq<DispatchInfo>, topK: nat, random: nat): (r: Result<DispatchInfo, Failure>)
    ensures r.Ok? <==> topK > 0 && infos != []
    ensures if r.Ok? then r.value in infos else r.error == EmptyTopK
  {
    var sorted := Sort(infos, KeyOf(policy), false);
    var k := Min(topK, |sorted|);
    SortMembers(infos, KeyOf(policy), false);
    if k == 0 then Err(EmptyTopK) else Ok(sorted[random % k])
  }

  /** The policy's choice is among the k least: fewer than k candidates have a strictly smaller key. */
  lemma ChoiceIsAmongLeast(policy: Policy, infos: seq<DispatchInfo>, topK: nat, random: nat)
    requires topK > 0 && infos != []
    ensures Ahead(infos, KeyOf(policy), KeyOf(policy)(Choose(policy, infos, topK, random).value), false) < topK
  {
    FewStandBefore(infos, KeyOf(policy), false, random % Min(topK, |infos|));
  }

  /** Each of the k least can be chosen, at some draw. */
  lemma EveryLeastIsChosen(policy: Policy, infos: seq<DispatchInfo>, topK: nat, j: nat)
    requires j < topK && j < |infos|
    ensures Choose(policy, infos, topK, j) == Ok(Sort(infos, KeyOf(policy), false)[j])
  {
    SmallRemainder(j, Min(topK, |infos|));
  }

  lemma SmallRemainder(j: nat, k: nat)
    requires j < k
    ensures j % k == j
  {
    UniqueQuotient(0, j, j / k, j % k, k);
  }

  /** The same in plain terms: the Load policy goes by load, the Queue policy by the number waiting. */
  lemma PolicyMeaning(infos: seq<DispatchInfo>, topK: nat, random: nat)
    requires topK > 0 && infos != []
    ensures Ahead(infos, (i: DispatchInfo) => i.load, Choose(ByLoad, infos, topK, random).value.load, false) < topK
    ensures var waiting := Choose(ByQueue, infos, topK, random).value.numWaiting;
            Ahead(infos, (i: DispatchInfo) => Finite(i.numWaiting as real), Finite(waiting as real), false) < topK
  {
    ChoiceIsAmongLeast(ByLoad, infos, topK, random);
    ChoiceIsAmongLeast(ByQueue, infos, topK, random);
    AheadByEqualKeys(infos, KeyOf(ByLoad), (i: DispatchInfo) => i.load,
                     Choose(ByLoad, infos, topK, random).value.load);
    AheadByEqualKeys(infos, KeyOf(ByQueue), (i: DispatchInfo) => Finite(i.numWaiting as real),
                     Finite(Choose(ByQueue, infos, topK, random).value.numWaiting as real));
  }

  lemma {:induction false} AheadByEqualKeys(infos: seq<DispatchInfo>, key: DispatchInfo -> Load,
                                            key': DispatchInfo -> Load, k: Load)
    requires forall i :: key(i) == key'(i)
    ensures Ahead(infos, key, k, false) == Ahead(infos, key', k, false)
  {
    if infos == [] {
    } else {
      AheadByEqualKeys(infos[..|infos| - 1], key, key', k);
    }
  }

  function Hits(hashes: set<BlockHash>, i: DispatchInfo): nat {
    |hashes * i.hashes|
  }

  /** More hits, then less load, then the later name. */
  predicate Better(hashes: set<BlockHash>, x: DispatchInfo, y: DispatchInfo) {
    || Hits(hashes, x) > Hits(hashes, y)
    || (Hits(hashes, x) == Hits(hashes, y) && (Lt(x.load, y.load) || (x.load == y.load && Before(y.id, x.id))))
  }

  lemma BetterTransitive(hashes: set<BlockHash>, x: DispatchInfo, y: DispatchInfo, z: DispatchInfo)
    requires Better(hashes, x, y) && Better(hashes, y, z)
    ensures Better(hashes, x, z)
  {
    if x.load == y.load == z.load && Hits(hashes, x) == Hits(hashes, y) == Hits(hashes, z) {
      LessTransitive(z.id.name, y.id.name, x.id.name);
    }
  }

  method Best(hashes: set<BlockHash>, pool: seq<DispatchInfo>) returns (hit: DispatchInfo)
    requires pool != []
    ensures hit in pool
    ensures forall y <- pool :: !Better(hashes, y, hit)
  {
    hit := pool[0];
    for i := 0 to |pool|
      invariant hit in pool
      invariant forall j :: 0 <= j < i ==> !Better(hashes, pool[j], hit)
      invariant i == 0 ==> hit == pool[0]
    {
      if Better(hashes, pool[i], hit) {
        forall j | 0 <= j < i
          ensures !Better(hashes, pool[j], pool[i])
        {
          if Better(hashes, pool[j], pool[i]) {
            BetterTransitive(hashes, pool[j], pool[i], hit);
          }
        }
        hit := pool[i];
      }
      if Better(hashes, hit, hit) {
        LessIrreflexive(hit.id.name);
      }
    }
  }

  method LeastLoad(pool: seq<DispatchInfo>) returns (best: Load)
    requires pool != []
    ensures exists i :: 0 <= i < |pool| && pool[i].load == best
    ensures forall i :: 0 <= i < |pool| ==> Le(best, pool[i].load)
  {
    best := pool[0].load;
    for i := 0 to |pool|
      invariant exists j :: 0 <= j < |pool| && pool[j].load == best
      invariant forall j :: 0 <= j < i ==> Le(best, pool[j].load)
    {
      if Lt(pool[i].load, best) {
        best := pool[i].load;
      }
    }
  }

  function Candidates(infos: seq<DispatchInfo>, ids: set<InstanceId>): seq<DispatchInfo> {
    Select(infos, (i: DispatchInfo) => i.id in ids)
  }

  /** Within the tolerance of every candidate's load. */
  predicate NearBest(x: DispatchInfo, available: seq<DispatchInfo>) {
    forall i :: 0 <= i < |available| ==> Le(x.load, Plus(available[i].load, TOLERANCE))
  }

  /** The choice with affinity, among near-best candidates. */
  method ChooseWithAffinity(available: seq<DispatchInfo>, hashes: set<BlockHash>, policy: Policy, topK: nat,
                            random: nat)
    returns (r: Result<DispatchInfo, Failure>)
    requires available != []
    ensures r == Err(EmptyTopK) <==> topK == 0 && !UsesAffinity(available, hashes)
    ensures r != Err(NoCandidates)
    ensures r.Ok? ==> r.value in available && NearBest(r.value, available)
    ensures r.Ok? ==> MostShared(r.value, available, hashes)
    ensures r.Ok? && UsesAffinity(available, hashes) ==> FirstAmongEquals(r.value, available, hashes)
  {
    var best := LeastLoad(available);
    var nearBest := Select(available, (i: DispatchInfo) => Le(i.load, Plus(best, TOLERANCE)));
    NearBestIsPool(available, best, nearBest);
    var hit := Best(hashes, nearBest);
    MostHits(hashes, nearBest, hit);
    if Hits(hashes, hit) > 0 {
      r := Ok(hit);
      var i :| 0 <= i < |available| && available[i] == hit;
      assert NearBest(available[i], available) && Hits(hashes, available[i]) > 0;
    } else {
      r := Choose(policy, nearBest, topK, random);
    }
  }

  lemma MostHits(hashes: set<BlockHash>, pool: seq<DispatchInfo>, hit: DispatchInfo)
    requires forall y <- pool :: !Better(hashes, y, hit)
    ensures forall y <- pool :: Hits(hashes, y) <= Hits(hashes, hit)
  {
  }

  /**
   The chosen instance is always a candidate. If the prompt has hashes and some
   candidate has cached anything, its load is within the tolerance of the least
   loaded one, and if any such near-best candidate shares a hash, it has the most
   shared hashes of them. Otherwise the policy chooses among all candidates.
   */
  ghost predicate Chosen(infos: seq<DispatchInfo>, ids: set<InstanceId>, hashes: set<BlockHash>, policy: Policy,
                         topK: nat, random: nat, r: Result<DispatchInfo, Failure>) {
    && (r.Ok? ==> r.value in infos && r.value.id in ids)
    && var available := Candidates(infos, ids);
       if available == [] then r == Err(NoCandidates)
       else if hashes != {} && SomeCached(available) then
         && (r == Err(EmptyTopK) <==> topK == 0 && !UsesAffinity(available, hashes))
         && r != Err(NoCandidates)
         && (r.Ok? ==> NearBest(r.value, available))
         && (r.Ok? ==> MostShared(r.value, available, hashes))
         && (r.Ok? && UsesAffinity(available, hashes) ==> FirstAmongEquals(r.value, available, hashes))
       else r == Choose(policy, available, topK, random)
  }

  /**
   What the affinity choice is for: when the prompt's hashes are a collision-free chain
   and every candidate has cached the chains of some sequences, no near-best candidate
   shares a longer prefix with the prompt than the chosen one.
   */
  lemma LongestPrefixWins(f: Hashing, prompt: seq<Block>, cached: DispatchInfo -> seq<seq<Block>>,
                          available: seq<DispatchInfo>, x: DispatchInfo, y: DispatchInfo)
    requires CollisionFree(f) && x in available && y in available
    requires forall i <- available :: OwnsChains(f, i.hashes, cached(i))
    requires MostShared(x, available, HashSet(Chain(f, prompt))) && NearBest(y, available)
    ensures LongestShared(prompt, cached(y)) <= LongestShared(prompt, cached(x))
    ensures Hits(HashSet(Chain(f, prompt)), x) == LongestShared(prompt, cached(x))
  {
    AffinityIsLongestPrefix(f, prompt, x.hashes, cached(x));
    AffinityIsLongestPrefix(f, prompt, y.hashes, cached(y));
  }

  /** The two failures: nobody to choose from, and an empty top-k. */
  lemma FailureMeaning(infos: seq<DispatchInfo>, ids: set<InstanceId>, hashes: set<BlockHash>, policy: Policy,
                       topK: nat, random: nat, r: Result<DispatchInfo, Failure>)
    requires Chosen(infos, ids, hashes, policy, topK, random, r)
    ensures r == Err(NoCandidates) <==> Candidates(infos, ids) == []
    ensures r.Err? && r.error != NoCandidates ==> r.error == EmptyTopK && topK == 0
  {
  }

  /** The choice from a constrained pool, without the counting. */
  method ChooseAmong(infos: seq<DispatchInfo>, ids: set<InstanceId>, hashes: set<BlockHash>, policy: Policy,
                     topK: nat, random: nat)
    returns (r: Result<DispatchInfo, Failure>)
    ensures Chosen(infos, ids, hashes, policy, topK, random, r)
  {
    var available := Candidates(infos, ids);
    if available == [] {
      return Err(NoCandidates);
    }
    if hashes != {} && SomeCached(available) {
      r := ChooseWithAffinity(available, hashes, policy, topK, random);
    } else {
      r := Choose(policy, available, topK, random);
    }
  }

  /** No near-best candidate shares more of the prompt's hashes than x. */
  predicate MostShared(x: DispatchInfo, available: seq<DispatchInfo>, hashes: set<BlockHash>) {
    forall y <- available :: NearBest(y, available) ==> Hits(hashes, y) <= Hits(hashes, x)
  }

  /** Of the near-best candidates that share as much, it has the least load, and of those the last name. */
  predicate FirstAmongEquals(x: DispatchInfo, available: seq<DispatchInfo>, hashes: set<BlockHash>) {
    forall y <- available :: NearBest(y, available) && Hits(hashes, y) == Hits(hashes, x) ==>
      Le(x.load, y.load) && (y.load == x.load ==> !Before(x.id, y.id))
  }

  /** Near the best: no other candidate's load is lower by more than a tenth. */
  lemma NearBestMeaning(x: DispatchInfo, available: seq<DispatchInfo>)
    requires x.load.Finite? && forall i :: 0 <= i < |available| ==> available[i].load.Finite?
    ensures NearBest(x, available) <==>
            forall i :: 0 <= i < |available| ==> x.load.value - available[i].load.value <= 0.1
  {
  }

  predicate SomeCached(available: seq<DispatchInfo>) {
    exists i :: 0 <= i < |available| && available[i].hashes != {}
  }

  /** A near-best candidate shares a hash with the prompt, so the policy is not asked. */
  predicate UsesAffinity(available: seq<DispatchInfo>, hashes: set<BlockHash>) {
    exists i :: 0 <= i < |available| && NearBest(available[i], available) && Hits(hashes, available[i]) > 0
  }

  lemma NearBestIsPool(available: seq<DispatchInfo>, best: Load, pool: seq<DispatchInfo>)
    requires exists i :: 0 <= i < |available| && available[i].load == best
    requires forall i :: 0 <= i < |available| ==> Le(best, available[i].load)
    requires forall x :: x in pool <==> x in available && Le(x.load, Plus(best, TOLERANCE))
    ensures pool != []
    ensures forall x <- available :: x in pool <==> NearBest(x, available)
  {
  }
}
