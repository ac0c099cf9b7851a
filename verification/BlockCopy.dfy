/**
 The block-copy loops of the migration backends
 (llumnix/backends/vllm/migration_backend.py). A worker's KV cache is one memory
 per layer. Transfers are cut into chunks of blocks, and over a collective group
 each chunk travels in batches of layers through a bounded buffer; both loops are
 shown to perform the simple copy of every layer.
 */
module BlockCopy {
  import opened Prelude
  import opened KvMemory

  /** One buffer: a memory per slot, addressed by position in the chunk. */
  type Buffer<T> = seq<Memory<T>>

  ghost predicate HasAll<T>(cache: seq<Memory<T>>, ids: seq<int>) {
    forall l :: 0 <= l < |cache| ==> Has(cache[l], ids)
  }

  /** The simple copy of every layer. */
  ghost function CopyLayers<T>(src: seq<Memory<T>>, from: seq<int>, dst: seq<Memory<T>>,
                               to: seq<int>): (r: seq<Memory<T>>)
    requires |src| == |dst| && |from| == |to| && HasAll(src, from)
    ensures |r| == |dst|
  {
    seq(|dst|, l requires 0 <= l < |dst| => Copy(src[l], from, dst[l], to))
  }

  /** Copying from two memories that agree, position by position, has the same effect. */
  lemma {:induction false} CopyFromEither<T>(a: Memory<T>, from: seq<int>, b: Memory<T>, at: seq<int>, dst: Memory<T>,
                                             to: seq<int>)
    requires |from| == |at| == |to| && Has(a, from) && Has(b, at)
    requires forall i :: 0 <= i < |to| ==> a[from[i]] == b[at[i]]
    ensures Copy(a, from, dst, to) == Copy(b, at, dst, to)
  {
    if to == [] {
    } else {
      var n := |to| - 1;
      CopyFromEither(a, from[..n], b, at[..n], dst, to[..n]);
    }
  }

  /** The slot holds this layer's blocks. */
  ghost predicate Holds<T>(slot: Memory<T>, layer: Memory<T>, blocks: seq<int>)
    requires Has(layer, blocks)
  {
    forall i :: 0 <= i < |blocks| ==> i in slot && slot[i] == layer[blocks[i]]
  }

  /** Packing: the blocks stand at positions 0, 1, ... of the slot. */
  lemma Packed<T>(src: Memory<T>, blocks: seq<int>, slot: Memory<T>)
    requires Has(src, blocks)
    ensures
      var packed := Copy(src, blocks, slot, Range(0, |blocks|));
      Holds(packed, src, blocks)
  {
    CopyMeaning(src, blocks, slot, Range(0, |blocks|));
    var packed := Copy(src, blocks, slot, Range(0, |blocks|));
    forall i | 0 <= i < |blocks|
      ensures i in packed && packed[i] == src[blocks[i]]
    {
      assert Range(0, |blocks|)[i] == i;
    }
  }

  lemma Unpacked<T>(slot: Memory<T>, layer: Memory<T>, blocks: seq<int>, dst: Memory<T>, to: seq<int>)
    requires |blocks| == |to| && Has(layer, blocks) && Holds(slot, layer, blocks)
    ensures Has(slot, Range(0, |to|))
    ensures Copy(slot, Range(0, |to|), dst, to) == Copy(layer, blocks, dst, to)
  {
    CopyFromEither(slot, Range(0, |to|), layer, blocks, dst, to);
  }

  /** Chunk after chunk is the same as all at once. */
  lemma NextChunk<T>(src: seq<Memory<T>>, from: seq<int>, dst: seq<Memory<T>>, to: seq<int>, k: nat, n: nat)
    requires |src| == |dst| && |from| == |to| && HasAll(src, from) && k + n <= |from|
    ensures HasAll(src, from[..k]) && HasAll(src, from[k..k + n]) && HasAll(src, from[..k + n])
    ensures CopyLayers(src, from[k..k + n], CopyLayers(src, from[..k], dst, to[..k]), to[k..k + n]) ==
            CopyLayers(src, from[..k + n], dst, to[..k + n])
  {
    assert from[..k + n] == from[..k] + from[k..k + n] && to[..k + n] == to[..k] + to[k..k + n];
    forall l | 0 <= l < |src|
      ensures Copy(src[l], from[k..k + n], Copy(src[l], from[..k], dst[l], to[..k]), to[k..k + n]) ==
              Copy(src[l], from[..k + n], dst[l], to[..k + n])
    {
      CopyInTwoParts(src[l], from[..k], from[k..k + n], dst[l], to[..k], to[k..k + n]);
    }
  }

  // ------------------------------------------------------------------
  // Through a collective group

  /** A first-in first-out link between two ranks. */
  class Link<T> {
    var inFlight: seq<Buffer<T>>

    constructor ()
      ensures inFlight == []
    {
      inFlight := [];
    }

    method Send(message: Buffer<T>)
      modifies this
      ensures inFlight == old(inFlight) + [message]
    {
      inFlight := inFlight + [message];
    }

    method Recv() returns (message: Buffer<T>)
      requires inFlight != []
      modifies this
      ensures [message] + inFlight == old(inFlight)
    {
      message := inFlight[0];
      inFlight := inFlight[1..];
    }
  }

  class Worker<T> {
    var gpuCache: seq<Memory<T>>
    var dummyCache: Buffer<T>

    constructor (gpuCache: seq<Memory<T>>, dummyCache: Buffer<T>)
      ensures this.gpuCache == gpuCache && this.dummyCache == dummyCache
    {
      this.gpuCache, this.dummyCache := gpuCache, dummyCache;
    }
  }

  lemma NextSlot(l: nat, perBatch: nat)
    requires perBatch > 0
    ensures (l + 1) % perBatch == if l % perBatch + 1 == perBatch then 0 else l % perBatch + 1
  {
    var q, r := l / perBatch, l % perBatch;
    assert l + 1 == q * perBatch + r + 1;
    if r + 1 == perBatch {
      assert l + 1 == (q + 1) * perBatch;
      UniqueQuotient(q + 1, 0, (l + 1) / perBatch, (l + 1) % perBatch, perBatch);
    } else {
      UniqueQuotient(q, r + 1, (l + 1) / perBatch, (l + 1) % perBatch, perBatch);
    }
  }

  /** The first l slots hold the first l layers. */
  ghost predicate HoldsLayers<T>(slots: seq<Memory<T>>, cache: seq<Memory<T>>, blocks: seq<int>, l: nat)
    requires HasAll(cache, blocks) && l <= |cache|
  {
    l <= |slots| && forall k :: 0 <= k < l ==> Holds(slots[k], cache[k], blocks)
  }

  /**
   The slots of the messages, one message after the other, begin with all the
   layers; there is no message without a layer. What the slots of the last message
   hold beyond the last layer is left open.
   */
  ghost predicate Carries<T>(messages: seq<Buffer<T>>, cache: seq<Memory<T>>, blocks: seq<int>, perBatch: nat)
    requires HasAll(cache, blocks)
  {
    && (forall i :: 0 <= i < |messages| ==> |messages[i]| == perBatch)
    && HoldsLayers(Flatten(messages), cache, blocks, |cache|)
    && (if cache == [] then messages == [] else |Flatten(messages)| < |cache| + perBatch)
  }

  /**
   Packing layer by layer, sending whenever the buffer is full or the layers end.
   The messages added carry every layer, whatever the buffer held before. No more
   blocks are sent at a time than a slot of the buffer has places.
   */
  method DoSend<T>(w: Worker<T>, link: Link<T>, blocks: seq<int>, perBatch: nat, bufferBlocks: nat)
    requires |blocks| <= bufferBlocks
    requires perBatch > 0 && |w.dummyCache| == perBatch && HasAll(w.gpuCache, blocks)
    modifies w`dummyCache, link
    ensures |w.dummyCache| == perBatch
    ensures old(link.inFlight) <= link.inFlight
    ensures Carries(link.inFlight[|old(link.inFlight)|..], w.gpuCache, blocks, perBatch)
  {
    var layers := |w.gpuCache|;
    ghost var before := link.inFlight;
    ghost var sent: seq<Buffer<T>> := [];
    for l := 0 to layers
      invariant |w.dummyCache| == perBatch
      invariant link.inFlight == before + sent
      invariant forall i :: 0 <= i < |sent| ==> |sent[i]| == perBatch
      invariant l < layers ==>
                  && l == |Flatten(sent)| + l % perBatch
                  && HoldsLayers(Flatten(sent) + w.dummyCache[..l % perBatch], w.gpuCache, blocks, l)
      invariant l == layers ==> Carries(sent, w.gpuCache, blocks, perBatch)
    {
      var slot := l % perBatch;
      NextSlot(l, perBatch);
      ghost var had := w.dummyCache;
      Packed(w.gpuCache[l], blocks, w.dummyCache[slot]);
      w.dummyCache := w.dummyCache[slot := Copy(w.gpuCache[l], blocks, w.dummyCache[slot], Range(0, |blocks|))];
      assert w.dummyCache[..slot + 1] == had[..slot] + [w.dummyCache[slot]];
      assert HoldsLayers(Flatten(sent) + w.dummyCache[..slot + 1], w.gpuCache, blocks, l + 1);
      if slot + 1 == perBatch || l + 1 == layers {
        link.Send(w.dummyCache);
        FlattenAppend(sent, w.dummyCache);
        assert Flatten(sent) + w.dummyCache == Flatten(sent) + w.dummyCache[..slot + 1] + w.dummyCache[slot + 1..];
        sent := sent + [w.dummyCache];
      }
    }
    assert link.inFlight[|before|..] == sent;
  }

  /** The first l layers have been copied, the others not yet. */
  ghost predicate LayersDone<T>(src: seq<Memory<T>>, from: seq<int>, was: seq<Memory<T>>, now: seq<Memory<T>>,
                                to: seq<int>, l: nat)
    requires |src| == |was| && |from| == |to| && HasAll(src, from)
  {
    && |now| == |was|
    && (forall k :: 0 <= k < l && k < |was| ==> now[k] == Copy(src[k], from, was[k], to))
    && (forall k :: l <= k < |was| ==> now[k] == was[k])
  }

  lemma LayerDone<T>(src: seq<Memory<T>>, from: seq<int>, was: seq<Memory<T>>, now: seq<Memory<T>>, to: seq<int>,
                     l: nat, slot: Memory<T>)
    requires |src| == |was| && |from| == |to| && HasAll(src, from) && l < |was|
    requires LayersDone(src, from, was, now, to, l) && Holds(slot, src[l], from)
    ensures Has(slot, Range(0, |to|))
    ensures LayersDone(src, from, was, now[l := Copy(slot, Range(0, |to|), now[l], to)], to, l + 1)
  {
    Unpacked(slot, src[l], from, now[l], to);
  }

  /** Receive a message if a batch begins here; the slot then holds layer l. */
  method RecvSlot<T>(w: Worker<T>, link: Link<T>, slot: nat, l: nat, perBatch: nat,
                     ghost messages: seq<Buffer<T>>, ghost received: Received<T>, ghost rest: seq<Buffer<T>>)
    returns (ghost next: Received<T>)
    requires link.inFlight == received.waiting + rest
    requires InStep(received, messages, perBatch, w.dummyCache, l, slot) && l < |Flatten(messages)|
    modifies w`dummyCache, link
    ensures link.inFlight == next.waiting + rest
    ensures slot < |w.dummyCache| && w.dummyCache[slot] == Flatten(messages)[l]
    ensures InStep(next, messages, perBatch, w.dummyCache, l + 1, if slot + 1 == perBatch then 0 else slot + 1)
  {
    next := received;
    if slot == 0 {
      NewBatch(received, messages, perBatch, w.dummyCache, l);
      ghost var before := link.inFlight;
      w.dummyCache := link.Recv();
      assert w.dummyCache == before[0] && link.inFlight == before[1..];
      next := Received(received.slots + received.waiting[0], received.waiting[1..]);
    } else {
      SameBatch(received, messages, perBatch, w.dummyCache, l, slot);
    }
  }

  /**
   Unpacking layer by layer, receiving whenever a new batch begins. Exactly the
   messages of this transfer are consumed, in order, and every layer gets the
   simple copy, so no slot beyond the last layer is ever read.
   */
  method DoRecv<T>(w: Worker<T>, link: Link<T>, blocks: seq<int>, perBatch: nat, bufferBlocks: nat,
                   ghost cache: seq<Memory<T>>, ghost from: seq<int>, ghost messages: seq<Buffer<T>>,
                   ghost rest: seq<Buffer<T>>)
    requires |blocks| <= bufferBlocks
    requires perBatch > 0 && |w.gpuCache| == |cache| && |from| == |blocks| && HasAll(cache, from)
    requires link.inFlight == messages + rest && Carries(messages, cache, from, perBatch)
    modifies w, link
    ensures w.gpuCache == CopyLayers(cache, from, old(w.gpuCache), blocks)
    ensures link.inFlight == rest
  {
    var layers := |w.gpuCache|;
    ghost var received: Received<T> := Received([], messages);
    for l := 0 to layers
      invariant link.inFlight == received.waiting + rest
      invariant InStep(received, messages, perBatch, w.dummyCache, l, l % perBatch)
      invariant LayersDone(cache, from, old(w.gpuCache), w.gpuCache, blocks, l)
    {
      NextSlot(l, perBatch);
      received := RecvSlot(w, link, l % perBatch, l, perBatch, messages, received, rest);
      LayerDone(cache, from, old(w.gpuCache), w.gpuCache, blocks, l, w.dummyCache[l % perBatch]);
      w.gpuCache := w.gpuCache[l := Copy(w.dummyCache[l % perBatch], Range(0, |blocks|), w.gpuCache[l], blocks)];
    }
    AllReceived(received, messages, cache, from, perBatch, w.dummyCache, layers % perBatch);
    AllLayersDone(cache, from, old(w.gpuCache), w.gpuCache, blocks);
  }

  lemma AllLayersDone<T>(src: seq<Memory<T>>, from: seq<int>, was: seq<Memory<T>>, now: seq<Memory<T>>, to: seq<int>)
    requires |src| == |was| && |from| == |to| && HasAll(src, from) && LayersDone(src, from, was, now, to, |was|)
    ensures now == CopyLayers(src, from, was, to)
  {
  }

  /** The slots received so far and the messages still to come. */
  datatype Received<T> = Received(slots: seq<Memory<T>>, waiting: seq<Buffer<T>>)

  /** When layer l, at this slot, is next: everything received is in order, and the buffer is the last batch. */
  ghost predicate InStep<T>(r: Received<T>, messages: seq<Buffer<T>>, perBatch: nat, buffer: Buffer<T>, l: nat,
                            slot: nat) {
    && (forall i :: 0 <= i < |r.waiting| ==> |r.waiting[i]| == perBatch)
    && Flatten(messages) == r.slots + Flatten(r.waiting)
    && slot < perBatch
    && |r.slots| == l + (if slot == 0 then 0 else perBatch - slot)
    && (slot != 0 ==> |r.slots| >= perBatch && buffer == r.slots[|r.slots| - perBatch..])
  }

  /** A batch begins: there is a message, and it holds the next layer first. */
  lemma NewBatch<T>(r: Received<T>, messages: seq<Buffer<T>>, perBatch: nat, buffer: Buffer<T>, l: nat)
    requires InStep(r, messages, perBatch, buffer, l, 0) && l < |Flatten(messages)|
    ensures r.waiting != [] && |r.waiting[0]| == perBatch && r.waiting[0][0] == Flatten(messages)[l]
    ensures InStep(Received(r.slots + r.waiting[0], r.waiting[1..]), messages, perBatch, r.waiting[0], l + 1,
                   if 1 == perBatch then 0 else 1)
  {
    assert Flatten(r.waiting) == r.waiting[0] + Flatten(r.waiting[1..]);
    var slots := r.slots + r.waiting[0];
    assert r.slots + Flatten(r.waiting) == slots + Flatten(r.waiting[1..]);
    assert slots[|slots| - perBatch..] == r.waiting[0];
    assert slots[l] == r.waiting[0][0];
  }

  /** Inside a batch: the buffer holds the next layer at this slot. */
  lemma SameBatch<T>(r: Received<T>, messages: seq<Buffer<T>>, perBatch: nat, buffer: Buffer<T>, l: nat, slot: nat)
    requires InStep(r, messages, perBatch, buffer, l, slot) && slot != 0
    ensures slot < |buffer| && l < |Flatten(messages)| && buffer[slot] == Flatten(messages)[l]
    ensures InStep(r, messages, perBatch, buffer, l + 1, if slot + 1 == perBatch then 0 else slot + 1)
  {
    assert buffer[slot] == r.slots[|r.slots| - perBatch + slot];
  }

  lemma AllReceived<T>(r: Received<T>, messages: seq<Buffer<T>>, cache: seq<Memory<T>>, from: seq<int>,
                       perBatch: nat, buffer: Buffer<T>, slot: nat)
    requires HasAll(cache, from) && Carries(messages, cache, from, perBatch)
    requires InStep(r, messages, perBatch, buffer, |cache|, slot)
    ensures r.waiting == []
  {
  }

  /** The collective backend: chunk by chunk through the bounded buffer. */
  method MigrateCache<T>(src: Worker<T>, dst: Worker<T>, link: Link<T>, srcBlocks: seq<int>, dstBlocks: seq<int>,
                         bufferBlocks: nat, perBatch: nat)
    requires src != dst && bufferBlocks > 0 && perBatch > 0
    requires |src.gpuCache| == |dst.gpuCache| && |src.dummyCache| == perBatch && link.inFlight == []
    requires |srcBlocks| == |dstBlocks| && HasAll(src.gpuCache, srcBlocks)
    modifies src`dummyCache, dst, link
    ensures dst.gpuCache == CopyLayers(src.gpuCache, srcBlocks, old(dst.gpuCache), dstBlocks)
    ensures link.inFlight == []
  {
    var total := |srcBlocks|;
    var start := 0;
    while start < total
      invariant 0 <= start <= total && |src.dummyCache| == perBatch && link.inFlight == []
      invariant HasAll(src.gpuCache, srcBlocks[..start])
      invariant dst.gpuCache == CopyLayers(src.gpuCache, srcBlocks[..start], old(dst.gpuCache), dstBlocks[..start])
    {
      var offset := Min(bufferBlocks, total - start);
      NextChunk(src.gpuCache, srcBlocks, old(dst.gpuCache), dstBlocks, start, offset);
      DoSend(src, link, srcBlocks[start..start + offset], perBatch, bufferBlocks);
      assert link.inFlight == link.inFlight + [];
      DoRecv(dst, link, dstBlocks[start..start + offset], perBatch, bufferBlocks,
             src.gpuCache, srcBlocks[start..start + offset], link.inFlight, []);
      start := start + offset;
    }
    assert srcBlocks[..total] == srcBlocks && dstBlocks[..total] == dstBlocks;
  }

  // ------------------------------------------------------------------
  // By remote calls

  /** All layers of one chunk, packed (one slot per layer). */
  method DoSendRpc<T>(w: Worker<T>, blocks: seq<int>, bufferBlocks: nat) returns (packet: Buffer<T>)
    requires |blocks| <= bufferBlocks
    requires |w.dummyCache| == |w.gpuCache| && HasAll(w.gpuCache, blocks)
    modifies w`dummyCache
    ensures |w.dummyCache| == |w.gpuCache|
    ensures HoldsLayers(packet, w.gpuCache, blocks, |w.gpuCache|)
  {
    for l := 0 to |w.gpuCache|
      invariant |w.dummyCache| == |w.gpuCache|
      invariant HoldsLayers(w.dummyCache, w.gpuCache, blocks, l)
    {
      Packed(w.gpuCache[l], blocks, w.dummyCache[l]);
      w.dummyCache := w.dummyCache[l := Copy(w.gpuCache[l], blocks, w.dummyCache[l], Range(0, |blocks|))];
    }
    packet := w.dummyCache;
  }

  method DoRecvRpc<T>(w: Worker<T>, packet: Buffer<T>, blocks: seq<int>, bufferBlocks: nat,
                      ghost cache: seq<Memory<T>>, ghost from: seq<int>)
    requires |blocks| <= bufferBlocks
    requires |w.gpuCache| == |cache| && |from| == |blocks| && HasAll(cache, from)
    requires HoldsLayers(packet, cache, from, |cache|)
    modifies w
    ensures w.gpuCache == CopyLayers(cache, from, old(w.gpuCache), blocks)
  {
    w.dummyCache := packet;
    var layers := |w.gpuCache|;
    for l := 0 to layers
      invariant w.dummyCache == packet
      invariant LayersDone(cache, from, old(w.gpuCache), w.gpuCache, blocks, l)
    {
      LayerDone(cache, from, old(w.gpuCache), w.gpuCache, blocks, l, w.dummyCache[l]);
      w.gpuCache := w.gpuCache[l := Copy(w.dummyCache[l], Range(0, |blocks|), w.gpuCache[l], blocks)];
    }
  }

  /**
   The remote-call backend: while one chunk is fetched the previous one is written,
   and the last one is written after the loop. Without any block there is nothing to
   write after the loop, which is an error and changes nothing.
   */
  method MigrateCacheRpc<T>(src: Worker<T>, dst: Worker<T>, srcBlocks: seq<int>, dstBlocks: seq<int>, bufferBlocks: nat)
    returns (ok: bool)
    requires src != dst && bufferBlocks > 0
    requires |src.gpuCache| == |dst.gpuCache| == |src.dummyCache|
    requires |srcBlocks| == |dstBlocks| && HasAll(src.gpuCache, srcBlocks)
    modifies src`dummyCache, dst
    ensures ok <==> srcBlocks != []
    ensures dst.gpuCache == CopyLayers(src.gpuCache, srcBlocks, old(dst.gpuCache), dstBlocks)
  {
    var total := |srcBlocks|;
    var pending: Option<Buffer<T>>, recvBlocks: seq<int> := None, [];
    var start := 0;
    ghost var written := 0;
    while start < total
      invariant 0 <= written <= start <= total && |src.dummyCache| == |src.gpuCache|
      invariant HasAll(src.gpuCache, srcBlocks[..written]) && HasAll(src.gpuCache, srcBlocks[written..start])
      invariant dst.gpuCache == CopyLayers(src.gpuCache, srcBlocks[..written], old(dst.gpuCache), dstBlocks[..written])
      invariant pending.None? <==> start == 0
      invariant pending.Some? ==>
                  && recvBlocks == dstBlocks[written..start] && |recvBlocks| <= bufferBlocks
                  && HoldsLayers(pending.value, src.gpuCache, srcBlocks[written..start], |src.gpuCache|)
    {
      var offset := Min(bufferBlocks, total - start);
      NextChunk(src.gpuCache, srcBlocks, old(dst.gpuCache), dstBlocks, written, start - written);
      NextChunk(src.gpuCache, srcBlocks, old(dst.gpuCache), dstBlocks, start, offset);
      var fetched := DoSendRpc(src, srcBlocks[start..start + offset], bufferBlocks);
      if pending.Some? {
        DoRecvRpc(dst, pending.value, recvBlocks, bufferBlocks, src.gpuCache, srcBlocks[written..start]);
      }
      written := start;
      pending, recvBlocks := Some(fetched), dstBlocks[start..start + offset];
      start := start + offset;
    }
    ok := pending.Some?;
    NextChunk(src.gpuCache, srcBlocks, old(dst.gpuCache), dstBlocks, written, start - written);
    assert srcBlocks[..total] == srcBlocks && dstBlocks[..total] == dstBlocks;
    if ok {
      DoRecvRpc(dst, pending.value, recvBlocks, bufferBlocks, src.gpuCache, srcBlocks[written..start]);
    }
  }

  /**
   What both loops leave behind when the destination blocks are distinct: in every
   layer block dst[i] equals block src[i], and all other blocks are untouched.
   */
  lemma CopyLayersMeaning<T>(src: seq<Memory<T>>, from: seq<int>, dst: seq<Memory<T>>, to: seq<int>)
    requires |src| == |dst| && |from| == |to| && HasAll(src, from) && Distinct(to)
    ensures forall l :: 0 <= l < |dst| ==> Copied(src[l], from, dst[l], to, CopyLayers(src, from, dst, to)[l])
  {
    forall l | 0 <= l < |dst|
      ensures Copied(src[l], from, dst[l], to, CopyLayers(src, from, dst, to)[l])
    {
      CopyMeaning(src[l], from, dst[l], to);
    }
  }
}
