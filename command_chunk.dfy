/**
 * The command pipeline's recording side (dxmt_command_queue.hpp): a
 * `CommandChunk` with its two bump-allocated argument heaps and its intrusive
 * chain of deferred operations, and the `CommandQueue` ring of chunks with
 * its sequence counters.
 *
 * A deferred operation is an opaque closure identified by an `OpId`; what it
 * does when invoked against the encoding context is outside the model. Its
 * invocations and destructions become events of the chunk's ghost `trace`,
 * and so do the two heaps' overflow messages.
 */
module CommandChunks {

  import opened Wrappers
  import opened Alignment

  const kCommandChunkCount: nat := 8
  const kCommandChunkCPUHeapSize: nat := 0x800000
  const kCommandChunkGPUHeapSize: nat := 0x800000

  /** `sizeof` and `alignof` of `Node<BFunc<context> *>`: two pointers on a 64-bit target. */
  const NodeSize: nat := 16
  const NodeAlignment: nat := 8

  /** A recorded closure (an `EFunc`), by identity. */
  type OpId = nat
  /** An `MTL::Buffer`, by identity. */
  type BufferId = nat
  /** An `MTL::CommandBuffer`, by identity. */
  type CommandBufferId = nat

  /** An emitted closure and the CPU-heap address it was placed at. */
  datatype Record = Record(op: OpId, at: nat)

  /** What a chain node points at: the chunk's own no-op `monoid`, or a closure in the CPU heap. */
  datatype Callable = Monoid | Closure(record: Record)

  datatype Event =
    | Invoked(callable: Callable)
    | Destroyed(callable: Callable)
    | CpuHeapOverflow(offset: nat)
    | GpuHeapOverflow

  /** The events of invoking `records` one after the other. */
  function Invocations(records: seq<Record>): seq<Event>
    decreases |records|
  {
    if records == [] then []
    else Invocations(records[..|records| - 1]) + [Invoked(Closure(records[|records| - 1]))]
  }

  /** The events of destroying `records` one after the other. */
  function Destructions(records: seq<Record>): seq<Event>
    decreases |records|
  {
    if records == [] then []
    else Destructions(records[..|records| - 1]) + [Destroyed(Closure(records[|records| - 1]))]
  }

  /** The message `allocate_cpu_heap` logs when its new offset reaches the heap size. */
  function CpuOverflowLog(offset: nat): seq<Event>
  {
    if offset >= kCommandChunkCPUHeapSize then [CpuHeapOverflow(offset)] else []
  }

  /** The message `allocate_gpu_heap` logs when its new offset exceeds the heap size. */
  function GpuOverflowLog(offset: nat): seq<Event>
  {
    if offset > kCommandChunkGPUHeapSize then [GpuHeapOverflow] else []
  }

  /**
   * Replaying a chain invokes each record exactly once, position by
   * position, and never the chunk's no-op sentinel.
   */
  lemma {:induction false} InvocationsInOrder(records: seq<Record>)
    ensures |Invocations(records)| == |records|
    ensures forall i :: 0 <= i < |records| ==> Invocations(records)[i] == Invoked(Closure(records[i]))
    ensures Invoked(Monoid) !in Invocations(records)
    decreases |records|
  {
    if records != [] {
      var init := records[..|records| - 1];
      InvocationsInOrder(init);
      forall i | 0 <= i < |records|
        ensures Invocations(records)[i] == Invoked(Closure(records[i]))
      {
        if i < |init| {
          assert records[i] == init[i];
        }
      }
    }
  }

  /** Resetting a chain destroys the records in the order replaying invokes them. */
  lemma {:induction false} DestructionsFollowInvocations(records: seq<Record>)
    ensures |Destructions(records)| == |Invocations(records)| == |records|
    ensures forall i :: 0 <= i < |records| ==>
              Invocations(records)[i] == Invoked(Closure(records[i])) &&
              Destructions(records)[i] == Destroyed(Closure(records[i]))
    decreases |records|
  {
    InvocationsInOrder(records);
    if records != [] {
      var init := records[..|records| - 1];
      DestructionsFollowInvocations(init);
      forall i | 0 <= i < |records|
        ensures Destructions(records)[i] == Destroyed(Closure(records[i]))
      {
        if i < |init| {
          assert records[i] == init[i];
        }
      }
    }
  }

  /** Invoking or destroying one more record extends the events by one. */
  lemma ExtendByOne(records: seq<Record>, i: nat)
    requires i < |records|
    ensures Invocations(records[..i + 1]) == Invocations(records[..i]) + [Invoked(Closure(records[i]))]
    ensures Destructions(records[..i + 1]) == Destructions(records[..i]) + [Destroyed(Closure(records[i]))]
  {
    assert records[..i + 1][..i] == records[..i];
  }

  /** `Node<BFunc<context> *>`: one link of the chain. */
  class Node {
    var value: Callable
    var next: Node?

    constructor (value: Callable)
      ensures this.value == value && next == null
    {
      this.value := value;
      next := null;
    }
  }

  class CommandChunk {
    /** Base address of the CPU argument heap. */
    const cpuArgumentHeap: nat
    /** The GPU argument heap buffer. */
    const gpuArgumentHeap: BufferId
    var cpuHeapOffset: nat
    var gpuHeapOffset: nat
    /** `monoid_list`: the chain's head, pointing at the no-op `monoid`. */
    const sentinel: Node
    var listEnd: Node
    var attachedCmdbuf: Option<CommandBufferId>

    /** The chain from the sentinel to `listEnd`. */
    ghost var nodes: seq<Node>
    /** The closures the chain holds, in emission order. */
    ghost var emitted: seq<Record>
    /** Invocations, destructions and overflow messages so far. */
    ghost var trace: seq<Event>

    ghost predicate Valid()
      reads this, nodes
    {
      && |nodes| == |emitted| + 1
      && nodes[0] == sentinel && sentinel.value == Monoid
      && listEnd == nodes[|nodes| - 1] && listEnd.next == null
      && (forall i {:trigger nodes[i].next} :: 0 <= i < |nodes| - 1 ==> nodes[i].next == nodes[i + 1])
      && (forall i, j :: 0 <= i < j < |nodes| ==> nodes[i] != nodes[j])
      && (forall i :: 0 <= i < |emitted| ==> nodes[i + 1].value == Closure(emitted[i]))
      && (forall i :: 0 <= i < |emitted| ==>
            cpuArgumentHeap <= emitted[i].at < cpuArgumentHeap + cpuHeapOffset)
      && (forall i, j :: 0 <= i < j < |emitted| ==> emitted[i].at < emitted[j].at)
    }

    /**
     * The constructor links the sentinel to `monoid` and sets `list_end` to
     * it. It leaves the heaps and the offsets unset; the model takes the
     * heaps as parameters and starts both offsets at 0.
     */
    constructor (cpuArgumentHeap: nat, gpuArgumentHeap: BufferId)
      ensures Valid() && fresh(nodes[0])
      ensures this.cpuArgumentHeap == cpuArgumentHeap && this.gpuArgumentHeap == gpuArgumentHeap
      ensures emitted == [] && listEnd == sentinel && cpuHeapOffset == 0 && gpuHeapOffset == 0
      ensures attachedCmdbuf == None && trace == []
    {
      this.cpuArgumentHeap := cpuArgumentHeap;
      this.gpuArgumentHeap := gpuArgumentHeap;
      cpuHeapOffset, gpuHeapOffset := 0, 0;
      var head := new Node(Monoid);
      sentinel := head;
      listEnd := head;
      attachedCmdbuf := None;
      nodes, emitted, trace := [head], [], [];
    }

    /**
     * `allocate_cpu_heap`: bump the CPU offset and return the address of the
     * aligned block. The alignment is applied to the offset, not to the
     * address. Reaching the heap size is logged and the allocation proceeds.
     */
    method AllocateCpuHeap(size: nat, alignment: nat) returns (ptr: nat)
      requires Valid() && IsPowerOfTwo(alignment)
      modifies this
      ensures Valid()
      ensures ptr >= cpuArgumentHeap + old(cpuHeapOffset)
      ensures Bump(old(cpuHeapOffset), size, alignment) == Allocation(ptr - cpuArgumentHeap, cpuHeapOffset)
      ensures trace == old(trace) + CpuOverflowLog(cpuHeapOffset)
      ensures gpuHeapOffset == old(gpuHeapOffset) && attachedCmdbuf == old(attachedCmdbuf)
      ensures nodes == old(nodes) && emitted == old(emitted) && listEnd == old(listEnd)
    {
      var adjustment := AlignForwardAdjustment(cpuHeapOffset, alignment);
      var aligned := cpuHeapOffset + adjustment;
      cpuHeapOffset := aligned + size;
      if cpuHeapOffset >= kCommandChunkCPUHeapSize {
        trace := trace + [CpuHeapOverflow(cpuHeapOffset)];
      }
      ptr := cpuArgumentHeap + aligned;
    }

    /** `inspect_gpu_heap`: the GPU heap and its current offset. */
    method InspectGpuHeap() returns (heap: BufferId, offset: nat)
      ensures heap == gpuArgumentHeap && offset == gpuHeapOffset
    {
      heap, offset := gpuArgumentHeap, gpuHeapOffset;
    }

    /**
     * `allocate_gpu_heap`: bump the GPU offset and return the heap with the
     * aligned offset. Exceeding the heap size is logged and the allocation
     * proceeds.
     */
    method AllocateGpuHeap(size: nat, alignment: nat) returns (heap: BufferId, aligned: nat)
      requires Valid() && IsPowerOfTwo(alignment)
      modifies this
      ensures Valid()
      ensures heap == gpuArgumentHeap
      ensures Bump(old(gpuHeapOffset), size, alignment) == Allocation(aligned, gpuHeapOffset)
      ensures trace == old(trace) + GpuOverflowLog(gpuHeapOffset)
      ensures cpuHeapOffset == old(cpuHeapOffset) && attachedCmdbuf == old(attachedCmdbuf)
      ensures nodes == old(nodes) && emitted == old(emitted) && listEnd == old(listEnd)
    {
      var adjustment := AlignForwardAdjustment(gpuHeapOffset, alignment);
      aligned := gpuHeapOffset + adjustment;
      gpuHeapOffset := aligned + size;
      if gpuHeapOffset > kCommandChunkGPUHeapSize {
        trace := trace + [GpuHeapOverflow];
      }
      heap := gpuArgumentHeap;
    }

    /**
     * `emit`: place the closure in the CPU heap, then a node for it, and link
     * the node after the current tail.
     */
    method Emit(op: OpId, closureSize: nat, closureAlignment: nat)
      requires Valid() && IsPowerOfTwo(closureAlignment)
      modifies this, listEnd
      ensures Valid()
      ensures
        var closure := Bump(old(cpuHeapOffset), closureSize, closureAlignment);
        var node := Bump(closure.end, NodeSize, NodeAlignment);
        && emitted == old(emitted) + [Record(op, cpuArgumentHeap + closure.start)]
        && cpuHeapOffset == node.end
        && trace == old(trace) + CpuOverflowLog(closure.end) + CpuOverflowLog(node.end)
      ensures nodes[..|old(nodes)|] == old(nodes) && fresh(listEnd)
      ensures gpuHeapOffset == old(gpuHeapOffset) && attachedCmdbuf == old(attachedCmdbuf)
    {
      var closureAt := AllocateCpuHeap(closureSize, closureAlignment);
      assert IsPowerOfTwo(NodeAlignment);
      var _ := AllocateCpuHeap(NodeSize, NodeAlignment);
      var node := new Node(Closure(Record(op, closureAt)));
      listEnd.next := node;
      listEnd := node;
      nodes := nodes + [node];
      emitted := emitted + [Record(op, closureAt)];
    }

    /**
     * `encode`: attach the command buffer and invoke the chain from the node
     * after the sentinel to the tail. The two asserts are the source's bounds
     * checks on each closure address. An invoked closure is taken to leave
     * its chunk alone: it neither allocates from it nor emits into it.
     */
    method Encode(cmdbuf: CommandBufferId)
      requires Valid()
      modifies this
      ensures Valid()
      ensures attachedCmdbuf == Some(cmdbuf)
      ensures trace == old(trace) + Invocations(emitted)
      ensures emitted == old(emitted) && nodes == old(nodes) && listEnd == old(listEnd)
      ensures cpuHeapOffset == old(cpuHeapOffset) && gpuHeapOffset == old(gpuHeapOffset)
    {
      attachedCmdbuf := Some(cmdbuf);
      var cur := sentinel.next;
      ghost var invoked: seq<Event> := [];
      ghost var i := 0;
      while cur != null
        modifies {}
        invariant 0 <= i <= |emitted|
        invariant cur == if i < |emitted| then nodes[i + 1] else null
        invariant invoked == Invocations(emitted[..i])
        decreases |emitted| - i
      {
        assert cur.value == Closure(emitted[i]);
        assert cur.value.record.at >= cpuArgumentHeap;
        assert cur.value.record.at < cpuArgumentHeap + cpuHeapOffset;
        ExtendByOne(emitted, i);
        invoked := invoked + [Invoked(cur.value)];
        cur := cur.next;
        i := i + 1;
      }
      assert emitted[..i] == emitted;
      trace := trace + invoked;
    }

    /**
     * `reset`: destroy the chain's closures in order, zero both offsets,
     * unlink the sentinel and drop the command buffer.
     */
    method Reset()
      requires Valid()
      modifies this, sentinel
      ensures Valid()
      ensures trace == old(trace) + Destructions(old(emitted))
      ensures emitted == [] && nodes == [sentinel] && listEnd == sentinel
      ensures cpuHeapOffset == 0 && gpuHeapOffset == 0 && attachedCmdbuf == None
    {
      var cur := sentinel.next;
      ghost var destroyed: seq<Event> := [];
      ghost var i := 0;
      while cur != null
        modifies {}
        invariant 0 <= i <= |emitted|
        invariant cur == if i < |emitted| then nodes[i + 1] else null
        invariant destroyed == Destructions(emitted[..i])
        decreases |emitted| - i
      {
        assert cur.value == Closure(emitted[i]);
        assert cur.value.record.at >= cpuArgumentHeap;
        assert cur.value.record.at < cpuArgumentHeap + cpuHeapOffset;
        ExtendByOne(emitted, i);
        destroyed := destroyed + [Destroyed(cur.value)];
        cur := cur.next;
        i := i + 1;
      }
      assert emitted[..i] == emitted;
      trace := trace + destroyed;
      cpuHeapOffset := 0;
      gpuHeapOffset := 0;
      sentinel.next := null;
      listEnd := sentinel;
      attachedCmdbuf := None;
      nodes, emitted := [sentinel], [];
    }
  }

  /** A chunk that is reset and then encoded replays nothing. */
  method ResetThenEncode(chunk: CommandChunk, cmdbuf: CommandBufferId)
    requires chunk.Valid()
    modifies chunk, chunk.sentinel
    ensures chunk.Valid() && chunk.emitted == []
    ensures chunk.trace == old(chunk.trace) + Destructions(old(chunk.emitted))
  {
    chunk.Reset();
    chunk.Encode(cmdbuf);
  }

  /** `CurrentChunk`'s ring slot for a sequence number. */
  function SlotOf(seqId: nat): (slot: nat)
    ensures slot < kCommandChunkCount
  {
    seqId % kCommandChunkCount
  }

  /**
   * Sequence numbers fewer than `kCommandChunkCount` apart use different
   * slots, and a slot comes back exactly one ring later.
   */
  lemma SlotsOfOneRing(s: nat, t: nat)
    requires s < t < s + kCommandChunkCount
    ensures SlotOf(s) != SlotOf(t)
    ensures SlotOf(s + kCommandChunkCount) == SlotOf(s)
  {
  }

  class CommandQueue {
    var readyForEncode: nat
    var readyForCommit: nat
    var chunkOngoing: nat
    var cpuCoherent: nat
    const chunks: seq<CommandChunk>

    /**
     * Counter order plus the backpressure bound: the producer never runs a
     * full ring ahead of the coherent sequence.
     */
    ghost predicate Valid()
      reads this
    {
      && |chunks| == kCommandChunkCount
      && (forall i, j :: 0 <= i < j < |chunks| ==> chunks[i] != chunks[j])
      && cpuCoherent <= chunkOngoing <= readyForCommit <= readyForEncode
      && readyForEncode <= cpuCoherent + kCommandChunkCount
    }

    /**
     * The counters' initial values (encoding starts at 1 so that 0 is always
     * coherent) and a ring of fresh, empty chunks over the given heaps.
     */
    constructor (cpuHeaps: seq<nat>, gpuHeaps: seq<BufferId>)
      requires |cpuHeaps| == |gpuHeaps| == kCommandChunkCount
      ensures Valid()
      ensures readyForEncode == 1 && readyForCommit == 1 && chunkOngoing == 0 && cpuCoherent == 0
      ensures forall i :: 0 <= i < |chunks| ==>
                fresh(chunks[i]) && chunks[i].Valid() && chunks[i].emitted == [] &&
                chunks[i].cpuArgumentHeap == cpuHeaps[i] && chunks[i].gpuArgumentHeap == gpuHeaps[i] &&
                chunks[i].cpuHeapOffset == 0 && chunks[i].gpuHeapOffset == 0 &&
                chunks[i].trace == [] && chunks[i].attachedCmdbuf == None
    {
      var ring: seq<CommandChunk> := [];
      var i := 0;
      while i < kCommandChunkCount
        invariant 0 <= i <= kCommandChunkCount && |ring| == i
        invariant forall k, l :: 0 <= k < l < i ==> ring[k] != ring[l]
        invariant forall k :: 0 <= k < i ==>
                    fresh(ring[k]) && ring[k].Valid() && ring[k].emitted == [] &&
                    ring[k].cpuArgumentHeap == cpuHeaps[k] && ring[k].gpuArgumentHeap == gpuHeaps[k] &&
                    ring[k].cpuHeapOffset == 0 && ring[k].gpuHeapOffset == 0 &&
                    ring[k].trace == [] && ring[k].attachedCmdbuf == None
      {
        var chunk := new CommandChunk(cpuHeaps[i], gpuHeaps[i]);
        ring := ring + [chunk];
        i := i + 1;
      }
      readyForEncode, readyForCommit := 1, 1;
      chunkOngoing, cpuCoherent := 0, 0;
      chunks := ring;
    }

    /** The chunk open for recording. */
    method CurrentChunk() returns (chunk: CommandChunk)
      requires Valid()
      ensures chunk == chunks[SlotOf(readyForEncode)]
    {
      chunk := chunks[readyForEncode % kCommandChunkCount];
    }

    method CoherentSeqId() returns (seqId: nat)
      ensures seqId == cpuCoherent
    {
      seqId := cpuCoherent;
    }

    method CurrentSeqId() returns (seqId: nat)
      ensures seqId == readyForEncode
    {
      seqId := readyForEncode;
    }
  }

  /**
   * Under the backpressure bound, the sequence numbers not yet coherent
   * (the recording one included) occupy pairwise different chunks, so the
   * producer never records into a chunk still being encoded or awaited.
   */
  lemma InFlightChunksDistinct(queue: CommandQueue, s: nat, t: nat)
    requires queue.Valid()
    requires queue.cpuCoherent < s < t <= queue.readyForEncode
    ensures queue.chunks[SlotOf(s)] != queue.chunks[SlotOf(t)]
  {
    SlotsOfOneRing(s, t);
  }
}
