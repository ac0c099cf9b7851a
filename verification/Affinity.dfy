/**
 The KV-cache affinity index (llumnix/backends/vllm/v1_kv.py): ownership of block
 hashes from a stream of cache events, the chained hashes of a prompt, and why the
 size of an intersection of hash sets is the length of the longest shared prefix.
 */
module Affinity {
  import opened Prelude
  import opened Names

  datatype BlockHash = FromBytes(bytes: seq<int>) | FromInt(value: int)

  datatype KVEvent =
    | BlockStored(stored: seq<BlockHash>, tokenIds: seq<int>, blockSize: nat, medium: string)
    | BlockRemoved(removed: seq<BlockHash>)
    | AllBlocksCleared
    | Other

  datatype KVBlockLocation = KVBlockLocation(
    instance: InstanceId, blockHash: BlockHash, tokenIds: seq<int>, blockSize: nat, medium: string, lastSeenStep: nat)

  // ------------------------------------------------------------------
  // Ownership from events

  predicate TouchesHash(e: KVEvent, h: BlockHash) {
    match e
    case BlockStored(hashes, _, _, _) => h in hashes
    case BlockRemoved(hashes) => h in hashes
    case AllBlocksCleared => true
    case Other => false
  }

  /** Is the hash owned after these events, given whether it was owned before? */
  ghost predicate OwnedAfter(before: bool, events: seq<KVEvent>, h: BlockHash) {
    if events == [] then before
    else
      var last := events[|events| - 1];
      if TouchesHash(last, h) then last.BlockStored? else OwnedAfter(before, events[..|events| - 1], h)
  }

  ghost function HashSet(hashes: seq<BlockHash>): set<BlockHash> {
    set h | h in hashes
  }

  class KVCacheAffinityIndex {
    var blocks: map<InstanceId, map<BlockHash, KVBlockLocation>>
    var step: nat

    constructor ()
      ensures blocks == map[] && step == 0
    {
      blocks, step := map[], 0;
    }

    ghost predicate Owns(instance: InstanceId, h: BlockHash)
      reads this
    {
      instance in blocks && h in blocks[instance]
    }

    function BlockHashes(instance: InstanceId): (r: set<BlockHash>)
      reads this
      ensures forall h :: h in r <==> Owns(instance, h)
    {
      if instance in blocks then blocks[instance].Keys else {}
    }

    ghost function LocationOf(instance: InstanceId, h: BlockHash): Option<KVBlockLocation>
      reads this
    {
      if instance in blocks then Lookup(blocks[instance], h) else None
    }

    /** One batch: its instance owns what the batch says, other instances keep what they have. */
    method Apply(instance: InstanceId, events: seq<KVEvent>)
      modifies this
      ensures forall h :: Owns(instance, h) <==> OwnedAfter(old(Owns(instance, h)), events, h)
      ensures instance in blocks
      ensures forall h :: Lookup(blocks[instance], h) ==
                          LocationAfterAll(old(LocationOf(instance, h)), instance, events, h, old(step))
      ensures forall other | other != instance :: Lookup(blocks, other) == old(Lookup(blocks, other))
      ensures step == old(step) + 1
    {
      var owned := if instance in blocks then blocks[instance] else map[];
      for i := 0 to |events|
        invariant unchanged(this)
        invariant forall h :: h in owned <==> OwnedAfter(old(Owns(instance, h)), events[..i], h)
        invariant forall h :: Lookup(owned, h) ==
                              LocationAfterAll(old(LocationOf(instance, h)), instance, events[..i], h, step)
      {
        owned := ApplyEvent(instance, owned, events[i], step);
        assert events[..i + 1][..i] == events[..i];
      }
      assert events[..|events|] == events;
      blocks := blocks[instance := owned];
      step := step + 1;
    }
  }

  /** Where the hash is after one event, given where it was. */
  ghost function LocationAfter(before: Option<KVBlockLocation>, instance: InstanceId, e: KVEvent, h: BlockHash,
                               step: nat)
    : Option<KVBlockLocation>
  {
    if !TouchesHash(e, h) then before
    else if e.BlockStored? then Some(KVBlockLocation(instance, h, e.tokenIds, e.blockSize, e.medium, step))
    else None
  }

  method ApplyEvent(instance: InstanceId, owned: map<BlockHash, KVBlockLocation>, e: KVEvent, step: nat)
    returns (after: map<BlockHash, KVBlockLocation>)
    ensures forall h :: h in after <==> if TouchesHash(e, h) then e.BlockStored? else h in owned
    ensures forall h :: Lookup(after, h) == LocationAfter(Lookup(owned, h), instance, e, h, step)
  {
    after := owned;
    match e
    case BlockStored(hashes, tokenIds, blockSize, medium) =>
      for i := 0 to |hashes|
        invariant forall h :: h in after <==> h in hashes[..i] || h in owned
        invariant forall h :: Lookup(after, h) == if h in hashes[..i]
                              then Some(KVBlockLocation(instance, h, tokenIds, blockSize, medium, step))
                              else Lookup(owned, h)
      {
        after := after[hashes[i] := KVBlockLocation(instance, hashes[i], tokenIds, blockSize, medium, step)];
      }
    case BlockRemoved(hashes) =>
      for i := 0 to |hashes|
        invariant forall h :: h in after <==> h !in hashes[..i] && h in owned
        invariant forall h :: h in after ==> after[h] == owned[h]
      {
        after := after - {hashes[i]};
      }
    case AllBlocksCleared => after := map[];
    case Other =>
  }

  ghost function LocationAfterAll(before: Option<KVBlockLocation>, instance: InstanceId, events: seq<KVEvent>,
                                  h: BlockHash, step: nat): Option<KVBlockLocation> {
    if events == [] then before
    else
      LocationAfter(LocationAfterAll(before, instance, events[..|events| - 1], h, step), instance,
                    events[|events| - 1], h, step)
  }

  /**
   What one more event does: storing adds its hashes, removing takes them away, clearing
   takes all, others nothing.
   */
  lemma EventMeaning(before: bool, events: seq<KVEvent>, e: KVEvent, h: BlockHash)
    ensures var owned := OwnedAfter(before, events, h);
            OwnedAfter(before, events + [e], h) <==>
            match e
            case BlockStored(stored, _, _, _) => owned || h in stored
            case BlockRemoved(removed) => owned && h !in removed
            case AllBlocksCleared => false
            case Other => owned
  {
    assert (events + [e])[..|events|] == events;
  }

  /** The position of the last event that touches the hash decides; without one nothing changes. */
  lemma {:induction false} LastTouchDecides(before: bool, events: seq<KVEvent>, h: BlockHash, k: nat)
    requires k < |events| && TouchesHash(events[k], h)
    requires forall j :: k < j < |events| ==> !TouchesHash(events[j], h)
    ensures OwnedAfter(before, events, h) <==> events[k].BlockStored?
    decreases |events|
  {
    if k == |events| - 1 {
    } else {
      LastTouchDecides(before, events[..|events| - 1], h, k);
    }
  }

  lemma {:induction false} UntouchedStays(before: bool, events: seq<KVEvent>, h: BlockHash)
    requires forall j :: 0 <= j < |events| ==> !TouchesHash(events[j], h)
    ensures OwnedAfter(before, events, h) == before
    decreases |events|
  {
    if events == [] {
    } else {
      UntouchedStays(before, events[..|events| - 1], h);
    }
  }

  /** Batches compose: one batch after another is the concatenated batch. */
  lemma {:induction false} BatchesCompose(before: bool, first: seq<KVEvent>, second: seq<KVEvent>, h: BlockHash)
    ensures OwnedAfter(before, first + second, h) == OwnedAfter(OwnedAfter(before, first, h), second, h)
    decreases |second|
  {
    if second == [] {
      assert first + second == first;
    } else {
      BatchesCompose(before, first, second[..|second| - 1], h);
      assert (first + second)[..|first + second| - 1] == first + second[..|second| - 1];
    }
  }

  /** Ownership after a batch forgets everything before it, except for hashes the batch does not touch. */
  lemma {:induction false} TouchedForgets(a: bool, b: bool, events: seq<KVEvent>, h: BlockHash)
    ensures (exists j :: 0 <= j < |events| && TouchesHash(events[j], h)) ==>
              OwnedAfter(a, events, h) == OwnedAfter(b, events, h)
    decreases |events|
  {
    if events == [] {
    } else if !TouchesHash(events[|events| - 1], h) {
      TouchedForgets(a, b, events[..|events| - 1], h);
      if j :| 0 <= j < |events| && TouchesHash(events[j], h) {
        assert TouchesHash(events[..|events| - 1][j], h);
      }
    }
  }

  /** A batch delivered twice in a row changes no ownership. */
  lemma DuplicateBatchIsHarmless(before: bool, events: seq<KVEvent>, h: BlockHash)
    ensures OwnedAfter(OwnedAfter(before, events, h), events, h) == OwnedAfter(before, events, h)
  {
    if exists j :: 0 <= j < |events| && TouchesHash(events[j], h) {
      TouchedForgets(OwnedAfter(before, events, h), before, events, h);
    } else {
      UntouchedStays(before, events, h);
      UntouchedStays(OwnedAfter(before, events, h), events, h);
    }
  }

  /**
   A full replay repairs everything: after any events taken from the log, in any
   order and number, replaying the whole log in order gives the ownership of the log
   alone.
   */
  lemma ReplayRestores(log: seq<KVEvent>, seen: seq<KVEvent>, h: BlockHash)
    requires forall i :: 0 <= i < |seen| ==> seen[i] in log
    ensures OwnedAfter(false, seen + log, h) == OwnedAfter(false, log, h)
  {
    BatchesCompose(false, seen, log, h);
    if exists j :: 0 <= j < |log| && TouchesHash(log[j], h) {
      TouchedForgets(OwnedAfter(false, seen, h), false, log, h);
    } else {
      forall i | 0 <= i < |seen|
        ensures !TouchesHash(seen[i], h)
      {
        var j :| 0 <= j < |log| && log[j] == seen[i];
      }
      UntouchedStays(false, seen, h);
    }
  }

  // ------------------------------------------------------------------
  // Chained hashes

  type Block = seq<int>

  /** How a block's hash is derived from its parent's; `root` stands for no parent. */
  datatype Hashing = Hashing(root: BlockHash, hash: (BlockHash, Block) -> BlockHash)

  /** No collisions, and no block hashes to the root. */
  ghost predicate CollisionFree(f: Hashing) {
    && (forall p, b, q, c :: f.hash(p, b) == f.hash(q, c) ==> p == q && b == c)
    && (forall p, b :: f.hash(p, b) != f.root)
  }

  /** The complete blocks of a token list. */
  function FullBlocks(tokens: seq<int>, blockSize: nat): (r: seq<Block>)
    decreases |tokens|
  {
    if blockSize == 0 || |tokens| < blockSize then []
    else [tokens[..blockSize]] + FullBlocks(tokens[blockSize..], blockSize)
  }

  /** As many blocks as fit, one after the other from the front; what is left over is less than a block. */
  lemma {:induction false} FullBlocksMeaning(tokens: seq<int>, blockSize: nat)
    requires blockSize > 0
    ensures var blocks := FullBlocks(tokens, blockSize);
            && (forall i :: 0 <= i < |blocks| ==> |blocks[i]| == blockSize)
            && Flatten(blocks) <= tokens && |tokens| < |Flatten(blocks)| + blockSize
    decreases |tokens|
  {
    if |tokens| < blockSize {
    } else {
      var first, rest := tokens[..blockSize], tokens[blockSize..];
      FullBlocksMeaning(rest, blockSize);
      var blocks := FullBlocks(rest, blockSize);
      assert ([first] + blocks)[1..] == blocks;
      assert Flatten([first] + blocks) == first + Flatten(blocks);
      assert first + rest == tokens;
    }
  }

  function LastHash(f: Hashing, blocks: seq<Block>): BlockHash {
    if blocks == [] then f.root else f.hash(LastHash(f, blocks[..|blocks| - 1]), blocks[|blocks| - 1])
  }

  /** The hash of every non-empty prefix, shortest first. */
  function Chain(f: Hashing, blocks: seq<Block>): (r: seq<BlockHash>)
    ensures |r| == |blocks|
  {
    seq(|blocks|, i requires 0 <= i < |blocks| => LastHash(f, blocks[..i + 1]))
  }

  lemma ChainAppend(f: Hashing, blocks: seq<Block>, block: Block)
    ensures Chain(f, blocks + [block]) == Chain(f, blocks) + [f.hash(LastHash(f, blocks), block)]
  {
    var more := blocks + [block];
    forall i | 0 <= i < |blocks|
      ensures Chain(f, more)[i] == Chain(f, blocks)[i]
    {
      assert more[..i + 1] == blocks[..i + 1];
    }
    assert more[..|more|] == more && more[..|more| - 1] == blocks;
  }

  /** The loop with a running parent, one complete block at a time. */
  method PrefixHashes(f: Hashing, tokens: seq<int>, blockSize: nat) returns (hashes: seq<BlockHash>)
    ensures hashes == Chain(f, FullBlocks(tokens, blockSize))
  {
    hashes := [];
    if blockSize == 0 {
      return;
    }
    var parent := f.root;
    var offset := 0;
    ghost var done: seq<Block> := [];
    while offset + blockSize <= |tokens|
      invariant 0 <= offset <= |tokens|
      invariant done + FullBlocks(tokens[offset..], blockSize) == FullBlocks(tokens, blockSize)
      invariant hashes == Chain(f, done) && parent == LastHash(f, done)
    {
      assert tokens[offset..][blockSize..] == tokens[offset + blockSize..];
      assert tokens[offset..][..blockSize] == tokens[offset..offset + blockSize];
      ChainAppend(f, done, tokens[offset..offset + blockSize]);
      parent := f.hash(parent, tokens[offset..offset + blockSize]);
      hashes := hashes + [parent];
      ghost var next := done + [tokens[offset..offset + blockSize]];
      assert next[..|next| - 1] == done;
      done := next;
      offset := offset + blockSize;
    }
    assert done == FullBlocks(tokens, blockSize);
  }

  // ------------------------------------------------------------------
  // Intersection size is longest common prefix

  /** The number of leading blocks that two sequences share. */
  function Common(a: seq<Block>, b: seq<Block>): (n: nat)
    ensures n <= |a| && n <= |b|
    ensures a[..n] == b[..n]
    ensures n < |a| && n < |b| ==> a[n] != b[n]
  {
    if a == [] || b == [] || a[0] != b[0] then 0
    else
      var n := Common(a[1..], b[1..]);
      assert a[..n + 1] == [a[0]] + a[1..][..n] && b[..n + 1] == [b[0]] + b[1..][..n];
      n + 1
  }

  /** The most leading blocks that the prompt shares with any of the sequences. */
  function LongestShared(prompt: seq<Block>, cached: seq<seq<Block>>): (n: nat)
    ensures n <= |prompt|
    ensures forall i :: 0 <= i < |cached| ==> Common(prompt, cached[i]) <= n
    ensures n > 0 ==> exists i :: 0 <= i < |cached| && Common(prompt, cached[i]) == n
  {
    if cached == [] then 0
    else
      var rest := LongestShared(prompt, cached[1..]);
      var here := Common(prompt, cached[0]);
      assert forall i :: 1 <= i < |cached| ==> cached[i] == cached[1..][i - 1];
      if here >= rest then here else
        assert exists i :: 0 <= i < |cached[1..]| && Common(prompt, cached[1..][i]) == rest;
        rest
  }

  /** Equal chained hashes mean equal prefixes, of equal length. */
  lemma {:induction false} HashNamesPrefix(f: Hashing, a: seq<Block>, b: seq<Block>)
    requires CollisionFree(f) && LastHash(f, a) == LastHash(f, b)
    ensures a == b
    decreases |a|
  {
    if a == [] || b == [] {
    } else {
      HashNamesPrefix(f, a[..|a| - 1], b[..|b| - 1]);
      assert a == a[..|a| - 1] + [a[|a| - 1]] && b == b[..|b| - 1] + [b[|b| - 1]];
    }
  }

  lemma {:induction false} CommonIsGreatest(a: seq<Block>, b: seq<Block>, k: nat)
    requires k <= |a| && k <= |b| && a[..k] == b[..k]
    ensures k <= Common(a, b)
  {
  }

  lemma HashesDiffer(f: Hashing, prompt: seq<Block>, i: nat, j: nat)
    requires CollisionFree(f) && i < j < |prompt|
    ensures Chain(f, prompt)[i] != Chain(f, prompt)[j]
  {
    assert |prompt[..i + 1]| != |prompt[..j + 1]|;
    if LastHash(f, prompt[..i + 1]) == LastHash(f, prompt[..j + 1]) {
      HashNamesPrefix(f, prompt[..i + 1], prompt[..j + 1]);
    }
  }

  /** Prefix hash i of the prompt occurs in a cached chain exactly when that many blocks are shared. */
  lemma HashCachedIffShared(f: Hashing, prompt: seq<Block>, cached: seq<Block>, i: nat)
    requires CollisionFree(f) && i < |prompt|
    ensures Chain(f, prompt)[i] in Chain(f, cached) <==> i < Common(prompt, cached)
  {
    if i < Common(prompt, cached) {
      SharedIsCached(f, prompt, cached, i);
    }
    if j :| 0 <= j < |cached| && Chain(f, cached)[j] == Chain(f, prompt)[i] {
      CachedIsShared(f, prompt, cached, i, j);
    }
  }

  lemma SharedIsCached(f: Hashing, prompt: seq<Block>, cached: seq<Block>, i: nat)
    requires i < Common(prompt, cached)
    ensures Chain(f, prompt)[i] in Chain(f, cached)
  {
    var n := Common(prompt, cached);
    assert prompt[..i + 1] == prompt[..n][..i + 1] == cached[..n][..i + 1] == cached[..i + 1];
    assert Chain(f, cached)[i] == Chain(f, prompt)[i];
  }

  lemma CachedIsShared(f: Hashing, prompt: seq<Block>, cached: seq<Block>, i: nat, j: nat)
    requires CollisionFree(f) && i < |prompt| && j < |cached|
             && LastHash(f, cached[..j + 1]) == LastHash(f, prompt[..i + 1])
    ensures i < Common(prompt, cached)
  {
    HashNamesPrefix(f, prompt[..i + 1], cached[..j + 1]);
    assert |prompt[..i + 1]| == |cached[..j + 1]|;
    CommonIsGreatest(prompt, cached, i + 1);
  }

  /** The instance owns exactly the hash chains of these sequences. */
  ghost predicate OwnsChains(f: Hashing, owned: set<BlockHash>, cached: seq<seq<Block>>) {
    forall h :: h in owned <==> exists k :: 0 <= k < |cached| && h in Chain(f, cached[k])
  }

  /** The hashes of the prompt's first n blocks. */
  ghost function Leading(f: Hashing, prompt: seq<Block>, n: nat): (s: set<BlockHash>)
    requires n <= |prompt|
  {
    HashSet(Chain(f, prompt)[..n])
  }

  lemma {:induction false} LeadingSize(f: Hashing, prompt: seq<Block>, n: nat)
    requires CollisionFree(f) && n <= |prompt|
    ensures |Leading(f, prompt, n)| == n
  {
    if n == 0 {
      assert Leading(f, prompt, 0) == {};
    } else {
      LeadingSize(f, prompt, n - 1);
      LeadingGrows(f, prompt, n);
    }
  }

  lemma LeadingGrows(f: Hashing, prompt: seq<Block>, n: nat)
    requires CollisionFree(f) && 0 < n <= |prompt|
    ensures Leading(f, prompt, n) == Leading(f, prompt, n - 1) + {Chain(f, prompt)[n - 1]}
    ensures Chain(f, prompt)[n - 1] !in Leading(f, prompt, n - 1)
  {
    var chain := Chain(f, prompt);
    assert chain[..n] == chain[..n - 1] + [chain[n - 1]];
    var earlier := chain[..n - 1];
    forall i | 0 <= i < |earlier|
      ensures earlier[i] != chain[n - 1]
    {
      HashesDiffer(f, prompt, i, n - 1);
    }
  }

  /**
   The number used for dispatch: with collision-free chained hashes, and an instance
   that owns the chains of some sequences, the size of the intersection is the largest
   number of leading full blocks the prompt shares with any of them.
   */
  lemma AffinityIsLongestPrefix(f: Hashing, prompt: seq<Block>, owned: set<BlockHash>, cached: seq<seq<Block>>)
    requires CollisionFree(f) && OwnsChains(f, owned, cached)
    ensures |HashSet(Chain(f, prompt)) * owned| == LongestShared(prompt, cached)
  {
    var n := LongestShared(prompt, cached);
    var chain := Chain(f, prompt);
    forall i | 0 <= i < |prompt|
      ensures chain[i] in owned <==> i < n
    {
      SharedByAny(f, prompt, owned, cached, i);
    }
    assert HashSet(chain) * owned == Leading(f, prompt, n) by {
      forall h
        ensures h in HashSet(chain) * owned <==> h in Leading(f, prompt, n)
      {
        if h in HashSet(chain) * owned {
          var i :| 0 <= i < |chain| && chain[i] == h;
          assert chain[..n][i] == h;
        }
      }
    }
    LeadingSize(f, prompt, n);
  }

  lemma SharedByAny(f: Hashing, prompt: seq<Block>, owned: set<BlockHash>, cached: seq<seq<Block>>, i: nat)
    requires CollisionFree(f) && OwnsChains(f, owned, cached) && i < |prompt|
    ensures Chain(f, prompt)[i] in owned <==> i < LongestShared(prompt, cached)
  {
    var n := LongestShared(prompt, cached);
    forall k | 0 <= k < |cached|
      ensures Chain(f, prompt)[i] in Chain(f, cached[k]) <==> i < Common(prompt, cached[k])
    {
      HashCachedIffShared(f, prompt, cached[k], i);
    }
    if i < n {
      var k :| 0 <= k < |cached| && Common(prompt, cached[k]) == n;
      assert Chain(f, prompt)[i] in Chain(f, cached[k]);
    }
  }
}
