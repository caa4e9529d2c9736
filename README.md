# DXMT command chunks and dynamic resources, in Dafny

This project models two parts of DXMT, the Direct3D 11 to Metal translation layer.

**The recording side of the command pipeline** (`src/dxmt/dxmt_command_queue.hpp`):
- `align_forward_adjustment`.
- A `CommandChunk`: two bump-allocated argument heaps (CPU and GPU) and an intrusive chain of deferred closures. The chain starts at the chunk's own no-op `monoid` sentinel. `emit` appends to it, `encode` invokes it and `reset` destroys it and returns the chunk to its empty state.
- The `CommandQueue`: its ring of eight chunks and its sequence counters (`CurrentChunk`, `CurrentSeqId`, `CoherentSeqId`).

**Dynamic (discard-on-map) resources** (`src/d3d11/mtld11_resource_dynamic.cpp`):
- `DynamicBinding`: it resolves to the resource's current backing whenever it is asked.
- `DynamicBuffer` and `DynamicTexture2D`: their observer lists, the rotation onto a new backing, and their shader-resource-view creation chains.
- The texture view object's cache of one Metal view per backing GPU address.
- The validation order of `CreateDynamicTexture2D`.

Files:
- `alignment.dfy` (module `Alignment`): forward alignment and bump allocation.
- `command_chunk.dfy` (module `CommandChunks`): `CommandChunk`, with real chain nodes and a ghost trace of invocations, destructions and overflow messages; and `CommandQueue`.
- `erase_remove.dfy` (module `EraseRemoveIdiom`): the `erase(remove(...))` idiom both resources use.
- `dynamic_resource.dfy` (module `DynamicResources`): bindings, buffers, textures, texture views and the creation checks.
- `dynamic_scenarios.dfy` (module `DynamicScenarios`): clients of these operations. Each states a property that spans several calls.
- `wrappers.dfy`: `Option`.

Modelling choices:
- Metal buffers, command buffers and closures are opaque ids.
- Metal textures are objects, so that a view reused from the cache is the same object.
- Addresses are unbounded naturals.
- The external validators are inputs of the operation that consumes them:
  - `ExtractEntireResourceViewDescription` and `CreateMTLTextureDescriptor` are an `Option` of their output.
  - `QueryFormatDesc` is a `FormatDesc`, or an `Option` where its failure is checked.
  - `GetLinearTextureLayout` is an `Option<LinearLayout>`.
  - Whether `ppView` is non-null is `viewRequested`.
  - What `ExchangeFromPool` hands over is a `Backing`.
- The D3D11 buffer and texture descriptions are reduced to the fields the code reads.

Where the code and its documented intent differ, the model follows the code:
- `DynamicTexture2D::RemoveObserver` (line 328) erases from a copy (`auto vec = observers`), so its list does not change.
- The texture SRV destructor (line 246) does the same with `weak_srvs`.
- The `DynamicBuffer` versions (lines 95 and 181) take a reference and do remove.
- `DynamicScenarios.ReleasedTextureBindingIsStillNotified` states the consequence: a texture binding that has been released is still notified by the next rotation.

## Model

| member | source | states |
|---|---|---|
| Alignment.AlignForwardAdjustment | src/dxmt/dxmt_command_queue.hpp:29-35 | For a power-of-two alignment the adjustment is below the alignment and makes the offset a multiple of it. |
| Alignment.AlignForwardAdjustmentCorrect | src/dxmt/dxmt_command_queue.hpp:29-35 | For a power-of-two alignment the adjustment is below the alignment and makes the offset aligned. It is 0 for an already aligned offset. The result is the least aligned address at or above the offset. |
| Alignment.LeastAlignedAtOrAbove | src/dxmt/dxmt_command_queue.hpp:33 | Rounding `offset + alignment - 1` down to a multiple gives the least multiple at or above the offset, which is the offset itself when it is already a multiple. |
| Alignment.Bump | src/dxmt/dxmt_command_queue.hpp:138-141 | One bump allocation starts on an aligned address within one alignment of the old offset. It ends `size` later, and that end is the new offset. |
| Alignment.BumpLeastAligned | src/dxmt/dxmt_command_queue.hpp:138-141 | The block starts at the least aligned offset at or after the old one, so an already aligned offset is handed out unchanged. |
| Alignment.BumpAll | src/dxmt/dxmt_command_queue.hpp:137-146 | Successive allocations give one block per request. |
| Alignment.SuccessiveAllocationsDisjoint | src/dxmt/dxmt_command_queue.hpp:137-146 | Every block of a run of allocations is aligned and has its requested size. Each lies between the start offset and the final offset. Blocks are disjoint and in increasing order. |
| CommandChunks.InvocationsInOrder | src/dxmt/dxmt_command_queue.hpp:181-192 | Encoding invokes the emitted closures exactly once each, in emission order, and never invokes the sentinel `monoid`. |
| CommandChunks.DestructionsFollowInvocations | src/dxmt/dxmt_command_queue.hpp:210-218 | Reset destroys the same closures in the same order as encode invokes them, one destruction per invocation. |
| CommandChunks.ExtendByOne | src/dxmt/dxmt_command_queue.hpp:185-191 | Walking one more node extends the invocation and destruction logs by that node's event. |
| CommandChunks.Node.constructor | src/dxmt/dxmt_command_queue.hpp:101-104 | A node holds the value it was made with and no successor, as `*ptr_node = {ptr, nullptr}` sets it. |
| CommandChunks.CommandChunk.constructor | src/dxmt/dxmt_command_queue.hpp:207-208 | A new chunk's chain is just the `monoid` sentinel, with `list_end` on it. |
| CommandChunks.CommandChunk.AllocateCpuHeap | src/dxmt/dxmt_command_queue.hpp:137-147 | Returns heap base plus the aligned offset, and the offset moves to the block's end. An overflow message is logged exactly when the new offset reaches `kCommandChunkCPUHeapSize` (>=). The chain and the GPU heap do not change. |
| CommandChunks.CommandChunk.InspectGpuHeap | src/dxmt/dxmt_command_queue.hpp:149-151 | Returns the GPU heap and its current offset, changing nothing. |
| CommandChunks.CommandChunk.AllocateGpuHeap | src/dxmt/dxmt_command_queue.hpp:153-163 | Returns the GPU heap and the aligned offset, and the offset moves to the block's end. A message is logged exactly when the new offset exceeds `kCommandChunkGPUHeapSize` (>). |
| CommandChunks.CommandChunk.Emit | src/dxmt/dxmt_command_queue.hpp:169-179 | The closure is placed by one bump on the CPU heap and its 16-byte, 8-aligned node by a second. The node is linked after `list_end` and becomes `list_end`. The chain invariant (sentinel first, next links, last node's next null, closures inside the used CPU heap in increasing address order) is kept. |
| CommandChunks.CommandChunk.Encode | src/dxmt/dxmt_command_queue.hpp:181-192 | Attaches the command buffer, then invokes every emitted closure in chain order: the trace grows by exactly `Invocations(emitted)`. Each visited closure lies inside the used CPU heap, matching the source's asserts. Nothing else changes. |
| CommandChunks.CommandChunk.Reset | src/dxmt/dxmt_command_queue.hpp:210-224 | Destroys every emitted closure in chain order (never the sentinel). Then it zeroes both offsets, unlinks the chain back to the sentinel, points `list_end` at it and detaches the command buffer. |
| CommandChunks.ResetThenEncode | src/dxmt/dxmt_command_queue.hpp:181-224 | After a reset the chunk is empty, so encoding it invokes nothing. |
| CommandChunks.SlotOf | src/dxmt/dxmt_command_queue.hpp:258-261 | A sequence id always maps to one of the eight chunks. |
| CommandChunks.SlotsOfOneRing | src/dxmt/dxmt_command_queue.hpp:42 | Ids fewer than eight apart use different chunks. An id and the id eight later use the same chunk. |
| CommandChunks.CommandQueue.constructor | src/dxmt/dxmt_command_queue.hpp:236-243 | `ready_for_encode` and `ready_for_commit` start at 1 and `chunk_ongoing` and `cpu_coherent` at 0, so id 0 is always coherent. The ring holds eight distinct chunks over the given heaps. Each chunk is empty: no closures, both offsets 0, an empty trace and no command buffer. |
| CommandChunks.CommandQueue.CurrentChunk | src/dxmt/dxmt_command_queue.hpp:258-261 | Returns the chunk at `ready_for_encode` modulo eight. |
| CommandChunks.CommandQueue.CoherentSeqId | src/dxmt/dxmt_command_queue.hpp:263-265 | Returns `cpu_coherent`. |
| CommandChunks.CommandQueue.CurrentSeqId | src/dxmt/dxmt_command_queue.hpp:267-269 | Returns `ready_for_encode`. |
| CommandChunks.InFlightChunksDistinct | src/dxmt/dxmt_command_queue.hpp:236-243 | Two ids that are both past `cpu_coherent` and at most `ready_for_encode` occupy different chunk objects, given the counter invariant. |
| EraseRemoveIdiom.EraseRemove | src/d3d11/mtld11_resource_dynamic.cpp:181-182 | After erase-remove the value is gone and the list is no longer. |
| EraseRemoveIdiom.EraseRemoveCounts | src/d3d11/mtld11_resource_dynamic.cpp:181-182 | Every copy of the value is removed and every other element keeps its multiplicity. |
| EraseRemoveIdiom.EraseRemoveDistributes | src/d3d11/mtld11_resource_dynamic.cpp:181-182 | Removal works piecewise over a concatenation, so survivors keep their order. |
| EraseRemoveIdiom.EraseRemoveAbsent | src/d3d11/mtld11_resource_dynamic.cpp:181-182 | Removing a value that is not present changes nothing. |
| EraseRemoveIdiom.EraseRemoveIdempotent | src/d3d11/mtld11_resource_dynamic.cpp:181-182 | Removing twice is removing once. |
| EraseRemoveIdiom.EraseRemoveUndoesAppend | src/d3d11/mtld11_resource_dynamic.cpp:173-183 | `AddObserver` of a new binding followed by `RemoveObserver` of it restores the list. |
| DynamicResources.RotateViewCallsExtend | src/d3d11/mtld11_resource_dynamic.cpp:312-314 | One more iteration of the `RotateView` loop extends the call log by that view object's call; both rotation loops use it. |
| DynamicResources.NotifyCallsExtend | src/d3d11/mtld11_resource_dynamic.cpp:315-317 | One more iteration of the notification loop extends the call log by that observer's call; both rotation loops use it. |
| DynamicResources.RotateViewCallsInOrder | src/d3d11/mtld11_resource_dynamic.cpp:165-167 | A rotation calls `RotateView` once per view object, in list order. |
| DynamicResources.NotifyCallsInOrder | src/d3d11/mtld11_resource_dynamic.cpp:168-170 | A rotation calls `NotifyObserver` once per registration, in list order, always with the new buffer. |
| DynamicResources.NotifiedIffRegistered | src/d3d11/mtld11_resource_dynamic.cpp:168-170 | A binding is notified by a rotation if and only if it is in the observer list. |
| DynamicResources.MtlTexture.constructor | src/d3d11/mtld11_resource_dynamic.cpp:278-279 | A view made over a buffer keeps that buffer, offset, row pitch and descriptor. |
| DynamicResources.DynamicBinding.constructor | src/d3d11/mtld11_resource_dynamic.cpp:32-38 | A binding keeps its swap callback and the object its lambdas capture. |
| DynamicResources.DynamicBinding.GetBinding | src/d3d11/mtld11_resource_dynamic.cpp:56 | A buffer binding resolves to the buffer of the backing current at the time of the call (lambda at line 153). A texture binding resolves to its view object's current view (line 255). |
| DynamicResources.DynamicBinding.GetArgumentData | src/d3d11/mtld11_resource_dynamic.cpp:58-60 | A buffer binding yields the current backing's GPU address (line 154). A texture binding yields its view object's current resource id and view (lines 256-258). |
| DynamicResources.DynamicBinding.GetContentionState | src/d3d11/mtld11_resource_dynamic.cpp:62 | A dynamic binding reports contention whatever sequence has finished. |
| DynamicResources.DynamicBinding.Release | src/d3d11/mtld11_resource_dynamic.cpp:40 | The destructor's callback erase-removes the binding from a buffer's observers and leaves everything else of the buffer unchanged. |
| DynamicResources.DynamicBuffer.constructor | src/d3d11/mtld11_resource_dynamic.cpp:129-145 | Starts on the new buffer, its GPU address and its mapping, with no observers and no views. |
| DynamicResources.DynamicBuffer.GetMappedMemory | src/d3d11/mtld11_resource_dynamic.cpp:147 | Returns the current backing's mapping. |
| DynamicResources.DynamicBuffer.GetBindable | src/d3d11/mtld11_resource_dynamic.cpp:149-160 | Returns a fresh binding that resolves through this buffer and appends it to the observers. Nothing else changes. |
| DynamicResources.DynamicBuffer.RotateBuffer | src/d3d11/mtld11_resource_dynamic.cpp:162-171 | The backing becomes the exchanged one. Then `RotateView` runs on every view object and `NotifyObserver(new buffer)` on every observer, in list order. The lists are unchanged. |
| DynamicResources.DynamicBuffer.AddObserver | src/d3d11/mtld11_resource_dynamic.cpp:173-176 | Appends, duplicates included. |
| DynamicResources.DynamicBuffer.RemoveObserver | src/d3d11/mtld11_resource_dynamic.cpp:178-183 | The observer list becomes its erase-remove. |
| DynamicResources.DynamicBuffer.ReleaseSrv | src/d3d11/mtld11_resource_dynamic.cpp:94-97 | A buffer view's destructor erase-removes it from the buffer's view list. |
| DynamicResources.DynamicBuffer.CreateShaderResourceView | src/d3d11/mtld11_resource_dynamic.cpp:185-200 | E_INVALIDARG if and only if the description does not resolve. E_FAIL if and only if it resolves to neither BUFFER nor BUFFEREX. S_FALSE if and only if it is a buffer view and no view was asked for. Otherwise E_NOTIMPL. |
| DynamicResources.TextureSrv.constructor | src/d3d11/mtld11_resource_dynamic.cpp:240-243 | A new view object has its texture, its descriptor, no current view and an empty cache. |
| DynamicResources.TextureSrv.GetBindable | src/d3d11/mtld11_resource_dynamic.cpp:250-264 | Returns a fresh binding that resolves through this view object and appends it to the texture's observers. |
| DynamicResources.TextureSrv.RotateView | src/d3d11/mtld11_resource_dynamic.cpp:274-284 | The cache gains exactly the current GPU address. Existing entries stay as they were. A missing entry becomes a fresh view over the current buffer at offset 0 with the texture's row pitch, carrying its own resource id. The current view and handle become the cached ones. |
| DynamicResources.TextureSrv.Release | src/d3d11/mtld11_resource_dynamic.cpp:245-248 | As written, the destructor erases from a copy, so the texture's view list keeps the view object. |
| DynamicResources.TextureSrvResult | src/d3d11/mtld11_resource_dynamic.cpp:335-356 | The return codes as if-and-only-ifs: E_INVALIDARG exactly for an unresolved description; S_FALSE exactly for a single-mip 2D view with no output; S_OK exactly when an output was asked for and the format is known; E_FAIL for everything else. E_NOTIMPL never. |
| DynamicResources.DynamicTexture2D.constructor | src/d3d11/mtld11_resource_dynamic.cpp:292-302 | Starts on the given buffer with its GPU address, mapping and row pitch, no observers and no views. |
| DynamicResources.DynamicTexture2D.GetMappedMemory | src/d3d11/mtld11_resource_dynamic.cpp:304-307 | Returns the current mapping and yields the row pitch. |
| DynamicResources.DynamicTexture2D.RotateBuffer | src/d3d11/mtld11_resource_dynamic.cpp:309-318 | The backing becomes the exchanged one. Every view object is rotated onto it (as `RotateView` states), then every observer is notified with the new buffer, in list order. The view-list invariant is kept. The two loops are the methods `RotateViews` and `NotifyObservers`. |
| DynamicResources.DynamicTexture2D.RotateViews | src/d3d11/mtld11_resource_dynamic.cpp:312-314 | The first loop of the rotation calls `RotateView` on every view object in list order, so each is rotated onto the current backing. |
| DynamicResources.DynamicTexture2D.NotifyObservers | src/d3d11/mtld11_resource_dynamic.cpp:315-317 | The second loop of the rotation calls `NotifyObserver` with the current buffer on every observer, once per registration, in list order. |
| DynamicResources.DynamicTexture2D.AddObserver | src/d3d11/mtld11_resource_dynamic.cpp:320-323 | Appends, duplicates included. |
| DynamicResources.DynamicTexture2D.RemoveObserver | src/d3d11/mtld11_resource_dynamic.cpp:325-330 | As written, erases from a copy, so the observer list is unchanged. |
| DynamicResources.DynamicTexture2D.CreateShaderResourceView | src/d3d11/mtld11_resource_dynamic.cpp:332-375 | Returns `TextureSrvResult`. Only on S_OK is a fresh view object appended, with the texture's width and height and the queried pixel format. It is rotated at once, so its cache holds just the current GPU address, and its view is a fresh texture over the current buffer. Its resource id is the cached one. |
| DynamicResources.CreateDynamicTexture2DResult | src/d3d11/mtld11_resource_dynamic.cpp:387-405 | S_OK exactly when the format is uncompressed and valid and both the descriptor and the linear layout exist. E_INVALIDARG exactly when the format passes and the descriptor fails. E_FAIL otherwise. A compressed or invalid format is reported before any descriptor failure. |
| DynamicResources.CreateDynamicTexture2D | src/d3d11/mtld11_resource_dynamic.cpp:380-416 | Returns the result above. On S_OK alone it creates a texture from the caller's description over the new buffer, with the layout's row pitch and no observers or views. |
| DynamicScenarios.RotationCalls | src/d3d11/mtld11_resource_dynamic.cpp:309-318 | Across a whole rotation, a binding is notified if and only if it is registered. |
| DynamicScenarios.LazyBufferBinding | src/d3d11/mtld11_resource_dynamic.cpp:151-154 | A binding created before any number of rotations resolves to the buffer and GPU address of the last one. |
| DynamicScenarios.ReleasedBufferBindingIsNotNotified | src/d3d11/mtld11_resource_dynamic.cpp:149-183 | Taking and then releasing a buffer binding restores the observer list, and the next rotation does not notify it. |
| DynamicScenarios.ReleasedTextureBindingIsStillNotified | src/d3d11/mtld11_resource_dynamic.cpp:250-330 | Releasing a texture binding leaves it registered, so the next rotation still notifies it. |
| DynamicScenarios.RotateTextureOf | src/d3d11/mtld11_resource_dynamic.cpp:309-318 | One texture rotation, seen from one of its view objects. |
| DynamicScenarios.RotatingBackReusesView | src/d3d11/mtld11_resource_dynamic.cpp:274-284 | Rotating onto backing a, then b, then a again makes a view object current on the same view it had after the first rotation onto a. The cache grows by exactly the two addresses. |

## Left out

- `CommandQueue` threads: the encoding and finishing threads, `CommitCurrentChunk`, `CommitChunkInternal`, `WaitCPUFence` and `Yield`. They are concurrency and atomics; only the counter values and their ordering invariant are modelled.
- `CommandQueue` construction: its constructor is only declared in the header, so the model's constructor takes the chunks' heaps as parameters.
- `CommandChunks.CommandChunk.constructor`: the source constructor sets only the sentinel and `list_end`. It leaves the CPU heap pointer, the GPU heap and both offsets uninitialised. The model takes the heaps as parameters and starts both offsets at 0. Both are assumed to come from the queue constructor, which is not part of this model.
- `CommandChunk::reserve_vector` and `linear_allocator`: these are standard-allocator glue over `allocate_cpu_heap`, which is modelled.
- The Metal encoders in `context_t` and what a closure does when invoked: closures are opaque ids.
- `CommandChunks.CommandChunk.Encode`: the encoding context carries the chunk (lines 108 and 183), so a closure could call back into it. The model assumes an invoked closure neither allocates from its chunk nor emits into it. Its contract that the offsets, `emitted`, the nodes and `list_end` are unchanged, and that the loop walks exactly the closures emitted before the call, rests on that assumption. In the source, a closure emitted during `encode` would itself be walked by the same loop.
- Integer width: `uintptr_t` and `uint64_t` arithmetic is unbounded here, so wrap-around in `align_forward_adjustment` and in the heap offsets is not modelled.
- Alignment values: `Alignment.AlignForwardAdjustment` requires a power-of-two alignment, as `-alignment` masking assumes; other alignments are not modelled.
- `CommandChunks.CommandChunk.Emit`: the closure's size and alignment are parameters rather than `sizeof`/`alignof` of the lambda type. The placement-new of the closure itself is not modelled.
- `BufferPool` and `ExchangeFromPool`: what the exchange hands over is the `Backing` parameter of `RotateBuffer`.
- Initial data: the memcpy of initial data in both constructors and the debug assert on `SysMemPitch` are not modelled.
- COM plumbing is not modelled: `QueryInterface`, `GetLogicalResourceOrView`, reference counting, `CreateDynamicBuffer`'s wrapping, and the `parent` pointer.
- `DynamicBuffer::SRV::GetBindable` is not modelled. `CreateShaderResourceView` returns E_NOTIMPL before any buffer view exists, and its lambdas are `assert(0)` stubs. The empty `DynamicBuffer::SRV::RotateView` appears only as the `ViewRotated` event that `DynamicBuffer.RotateBuffer` records for each view id.
- `CreateDynamicTexture2D` does not check the format query's result and reads `format` as the query left it. The model takes that `FormatDesc` as an input.
- Texture descriptor fields that are fixed (texture type 2D, depth, array length, mip count, sample count, usage, storage and cache mode) are implied by `TextureDescriptor` rather than stored.
- `DynamicResources.DynamicBinding.Release`: for a texture binding it states nothing beyond the frame. It modifies nothing, because the texture's `RemoveObserver` removes nothing.
- Object lifetime: model objects are never freed, so no use-after-free can be stated. Two follow from the copies at lines 246 and 328:
  - A released texture binding stays in `observers` and is notified by the next rotation. This is shown as the notification of a released binding.
  - A destroyed texture view object stays in `weak_srvs`, and the next `RotateBuffer` calls `RotateView` on freed memory (lines 312-313). In the model, `TextureSrv.Release` leaves a live object in `weakSrvs`, which is then rotated.
  - In the source, a later `new SRV` at the same address would put one pointer into `weak_srvs` twice. The distinctness conjunct of `DynamicTexture2D.Valid()` holds only because model objects never share an address.
