/**
 * Dynamic (discard-on-map) resources (mtld11_resource_dynamic.cpp): a
 * `DynamicBuffer` and a `DynamicTexture2D` whose backing allocation can be
 * rotated, the observer list through which they notify the bindings handed
 * out for them, the texture view object's cache of Metal views per backing,
 * and the validation chains that create views and textures.
 *
 * Metal buffers are opaque ids, Metal textures are objects (so that a view
 * reused from the cache is the same object), and the external validators
 * are inputs. `ExchangeFromPool` is the `Backing` a rotation receives. The
 * calls a rotation makes into view objects and into the bindings' swap
 * callbacks are recorded in a ghost `calls` log.
 */
module DynamicResources {

  import opened Wrappers
  import opened EraseRemoveIdiom

  /** An `MTL::Buffer`, by identity. */
  type BufferId = nat
  /** A buffer's `gpuAddress()`; it also keys the texture view cache. */
  type GpuAddress = nat
  /** A buffer's `contents()`. */
  type CpuAddress = nat
  /** The `BufferSwapCallback` a binding was created with. */
  type CallbackId = nat
  /** A `DynamicBuffer::SRV`. */
  type BufferSrvId = nat
  /** An `MTL::PixelFormat`; 0 is `PixelFormatInvalid`. */
  type PixelFormat = nat

  const PixelFormatInvalid: PixelFormat := 0

  /** The triple `ExchangeFromPool` writes: the buffer, its GPU address and its mapping. */
  datatype Backing = Backing(buffer: BufferId, handle: GpuAddress, mapped: CpuAddress)

  datatype HResult = S_OK | S_FALSE | E_INVALIDARG | E_FAIL | E_NOTIMPL

  datatype SrvDimension = DimensionBuffer | DimensionBufferEx | DimensionTexture2D | OtherDimension

  /** The resolved view description `ExtractEntireResourceViewDescription` yields. */
  datatype SrvDesc = SrvDesc(format: nat, dimension: SrvDimension, mostDetailedMip: nat, mipLevels: nat)

  /** What `QueryFormatDesc` reports for a format. */
  datatype FormatDesc = FormatDesc(pixelFormat: PixelFormat, isCompressed: bool)

  /** The parts of the texture description the model uses. */
  datatype Texture2DDesc = Texture2DDesc(width: nat, height: nat, format: nat)

  /** What `GetLinearTextureLayout` reports. */
  datatype LinearLayout = LinearLayout(bytesPerRow: nat, bytesPerImage: nat, bufferLen: nat)

  /**
   * The varying part of the descriptor a texture view is made with; type 2D,
   * depth, array length, mip count and sample count 1, shader-read usage,
   * shared storage and write-combined caching are fixed.
   */
  datatype TextureDescriptor = TextureDescriptor(width: nat, height: nat, pixelFormat: PixelFormat)

  /** A Metal texture made by `newTexture(descriptor, offset, bytesPerRow)` over a buffer. */
  class MtlTexture {
    const buffer: BufferId
    const offset: nat
    const bytesPerRow: nat
    const descriptor: TextureDescriptor

    constructor (buffer: BufferId, offset: nat, bytesPerRow: nat, descriptor: TextureDescriptor)
      ensures this.buffer == buffer && this.offset == offset
      ensures this.bytesPerRow == bytesPerRow && this.descriptor == descriptor
    {
      this.buffer := buffer;
      this.offset := offset;
      this.bytesPerRow := bytesPerRow;
      this.descriptor := descriptor;
    }
  }

  /** A texture's `gpuResourceID()`. */
  datatype ResourceId = NoResourceId | GpuResourceId(texture: MtlTexture)

  /** One entry of the texture view's cache. */
  datatype ViewCache = ViewCache(view: MtlTexture, viewHandle: ResourceId)

  /** `BindingRef`: what a binding says the GPU should bind now. */
  datatype BindingRef = BufferBinding(buffer: BufferId) | TextureBinding(texture: MtlTexture?)

  /** `ArgumentData`: the argument-buffer form of the same. */
  datatype ArgumentData =
    | BufferArgument(address: GpuAddress)
    | TextureArgument(handle: ResourceId, texture: MtlTexture?)

  /**
   * The lambdas a `DynamicBinding` was built with, by the object they
   * capture: the buffer (`DynamicBuffer::GetBindable`) or the texture's
   * view object (`DynamicTexture2D::SRV::GetBindable`).
   */
  datatype Resolver = OfBuffer(buffer: DynamicBuffer) | OfTextureView(srv: TextureSrv)

  /** A call a rotation makes: `RotateView` on a view object, or `NotifyObserver` on a binding. */
  datatype Call<Srv> = ViewRotated(srv: Srv) | ObserverNotified(observer: DynamicBinding, buffer: BufferId)

  /** `RotateView` on each view object, in list order. */
  function RotateViewCalls<Srv>(srvs: seq<Srv>): seq<Call<Srv>>
    decreases |srvs|
  {
    if srvs == [] then []
    else RotateViewCalls(srvs[..|srvs| - 1]) + [ViewRotated(srvs[|srvs| - 1])]
  }

  /** `NotifyObserver(buffer)` on each observer, in list order. */
  function NotifyCalls<Srv>(observers: seq<DynamicBinding>, buffer: BufferId): seq<Call<Srv>>
    decreases |observers|
  {
    if observers == [] then []
    else NotifyCalls(observers[..|observers| - 1], buffer) + [ObserverNotified(observers[|observers| - 1], buffer)]
  }

  /** One more iteration of the `RotateView` loop adds that view object's call. */
  lemma RotateViewCallsExtend<Srv>(srvs: seq<Srv>, i: nat)
    requires i < |srvs|
    ensures RotateViewCalls(srvs[..i + 1]) == RotateViewCalls(srvs[..i]) + [ViewRotated(srvs[i])]
  {
    assert srvs[..i + 1][..i] == srvs[..i];
  }

  /** One more iteration of the notification loop adds that observer's call. */
  lemma NotifyCallsExtend<Srv>(observers: seq<DynamicBinding>, buffer: BufferId, j: nat)
    requires j < |observers|
    ensures NotifyCalls<Srv>(observers[..j + 1], buffer)
            == NotifyCalls<Srv>(observers[..j], buffer) + [ObserverNotified(observers[j], buffer)]
  {
    assert observers[..j + 1][..j] == observers[..j];
  }

  /** A rotation calls `RotateView` once per view object, in list order. */
  lemma {:induction false} RotateViewCallsInOrder<Srv>(srvs: seq<Srv>)
    ensures |RotateViewCalls(srvs)| == |srvs|
    ensures forall i :: 0 <= i < |srvs| ==> RotateViewCalls(srvs)[i] == ViewRotated(srvs[i])
    decreases |srvs|
  {
    if srvs != [] {
      var init := srvs[..|srvs| - 1];
      RotateViewCallsInOrder(init);
      forall i | 0 <= i < |srvs| ensures RotateViewCalls(srvs)[i] == ViewRotated(srvs[i]) {
        if i < |init| {
          assert srvs[i] == init[i];
        }
      }
    }
  }

  /** A rotation notifies each observer once per registration, in list order, with the same buffer. */
  lemma {:induction false} NotifyCallsInOrder<Srv>(observers: seq<DynamicBinding>, buffer: BufferId)
    ensures |NotifyCalls<Srv>(observers, buffer)| == |observers|
    ensures forall i :: 0 <= i < |observers| ==>
              NotifyCalls<Srv>(observers, buffer)[i] == ObserverNotified(observers[i], buffer)
    decreases |observers|
  {
    if observers != [] {
      var init := observers[..|observers| - 1];
      NotifyCallsInOrder<Srv>(init, buffer);
      forall i | 0 <= i < |observers|
        ensures NotifyCalls<Srv>(observers, buffer)[i] == ObserverNotified(observers[i], buffer)
      {
        if i < |init| {
          assert observers[i] == init[i];
        }
      }
    }
  }

  /** An observer is notified by a rotation if and only if it is registered. */
  lemma NotifiedIffRegistered<Srv>(observers: seq<DynamicBinding>, buffer: BufferId, b: DynamicBinding)
    ensures ObserverNotified(b, buffer) in NotifyCalls<Srv>(observers, buffer) <==> b in observers
    ensures forall c :: c in NotifyCalls<Srv>(observers, buffer) ==> c.ObserverNotified? && c.buffer == buffer
  {
    NotifyCallsInOrder<Srv>(observers, buffer);
    var calls := NotifyCalls<Srv>(observers, buffer);
    if b in observers {
      var i :| 0 <= i < |observers| && observers[i] == b;
      assert calls[i] == ObserverNotified(b, buffer);
    }
    if ObserverNotified(b, buffer) in calls {
      var i :| 0 <= i < |calls| && calls[i] == ObserverNotified(b, buffer);
      assert observers[i] == b;
    }
  }

  /**
   * `DynamicBinding`: a bindable whose answers are computed when asked, from
   * whatever the captured object holds at that moment.
   */
  class DynamicBinding {
    /** The swap callback `NotifyObserver` forwards to. */
    const observer: CallbackId
    const resolver: Resolver

    constructor (observer: CallbackId, resolver: Resolver)
      ensures this.observer == observer && this.resolver == resolver
    {
      this.observer := observer;
      this.resolver := resolver;
    }

    /** The object the lambdas read. */
    function Captured(): set<object>
    {
      match resolver
      case OfBuffer(buffer) => {buffer}
      case OfTextureView(srv) => {srv}
    }

    /** `GetBinding`: the buffer, or the texture view, current at the time of the call. */
    function GetBinding(x: nat): (bound: BindingRef)
      reads Captured()
      ensures resolver.OfBuffer? ==> bound == BufferBinding(resolver.buffer.Current().buffer)
      ensures resolver.OfTextureView? ==> bound == TextureBinding(resolver.srv.view)
    {
      match resolver
      case OfBuffer(buffer) => BufferBinding(buffer.bufferDynamic)
      case OfTextureView(srv) => TextureBinding(srv.view)
    }

    /** `GetArgumentData`: the buffer's GPU address, or the view's resource id and view, current at the time of the call. */
    function GetArgumentData(): (argument: ArgumentData)
      reads Captured()
      ensures resolver.OfBuffer? ==> argument == BufferArgument(resolver.buffer.Current().handle)
      ensures resolver.OfTextureView? ==>
                argument.TextureArgument? &&
                argument.handle == resolver.srv.viewHandle && argument.texture == resolver.srv.view
    {
      match resolver
      case OfBuffer(buffer) => BufferArgument(buffer.bufferHandle)
      case OfTextureView(srv) => TextureArgument(srv.viewHandle, srv.view)
    }

    /** `GetContentionState`: whatever sequence has finished, a dynamic binding reports contention. */
    function GetContentionState(finishedSeqId: nat): (contended: bool)
      ensures contended
    {
      true
    }

    function ReleaseFrame(): set<object>
    {
      match resolver
      case OfBuffer(buffer) => {buffer}
      case OfTextureView(_) => {}
    }

    /**
     * `~DynamicBinding`: runs the release callback, which asks the captured
     * resource to remove this binding from its observers. The buffer does;
     * the texture's `RemoveObserver` works on a copy and leaves its list as
     * it was.
     */
    method Release()
      modifies ReleaseFrame()
      ensures resolver.OfBuffer? ==>
                var buffer := resolver.buffer;
                && buffer.observers == EraseRemove(old(buffer.observers), this)
                && buffer.weakSrvs == old(buffer.weakSrvs) && buffer.calls == old(buffer.calls)
                && buffer.Current() == old(buffer.Current())
    {
      match resolver
      case OfBuffer(buffer) =>
        buffer.RemoveObserver(this);
      case OfTextureView(srv) =>
        srv.resource.RemoveObserver(this);
    }
  }

  class DynamicBuffer {
    var bufferDynamic: BufferId
    var bufferHandle: GpuAddress
    var bufferMapped: CpuAddress
    var observers: seq<DynamicBinding>
    var weakSrvs: seq<BufferSrvId>
    ghost var calls: seq<Call<BufferSrvId>>

    /** The current backing triple. */
    function Current(): Backing
      reads this
    {
      Backing(bufferDynamic, bufferHandle, bufferMapped)
    }

    /** Starts on the buffer `newBuffer` made, with no observers and no views. */
    constructor (initial: Backing)
      ensures Current() == initial
      ensures observers == [] && weakSrvs == [] && calls == []
    {
      bufferDynamic, bufferHandle, bufferMapped := initial.buffer, initial.handle, initial.mapped;
      observers, weakSrvs := [], [];
      calls := [];
    }

    /** `GetMappedMemory`: the mapping of the current backing. */
    method GetMappedMemory() returns (mapped: CpuAddress)
      ensures mapped == Current().mapped
    {
      mapped := bufferMapped;
    }

    /**
     * `GetBindable`: a fresh binding that resolves through this buffer,
     * registered as an observer.
     */
    method GetBindable(observer: CallbackId) returns (binding: DynamicBinding)
      modifies this
      ensures fresh(binding) && binding.resolver == OfBuffer(this) && binding.observer == observer
      ensures observers == old(observers) + [binding]
      ensures weakSrvs == old(weakSrvs) && calls == old(calls) && Current() == old(Current())
    {
      binding := new DynamicBinding(observer, OfBuffer(this));
      AddObserver(binding);
    }

    /**
     * `RotateBuffer`: take the exchanged backing, then call `RotateView` on
     * every view object and `NotifyObserver` with the new buffer on every
     * observer, each in list order.
     */
    method RotateBuffer(next: Backing)
      modifies this
      ensures Current() == next
      ensures observers == old(observers) && weakSrvs == old(weakSrvs)
      ensures calls == old(calls) + RotateViewCalls(weakSrvs) + NotifyCalls(observers, next.buffer)
    {
      bufferDynamic, bufferHandle, bufferMapped := next.buffer, next.handle, next.mapped;
      ghost var made: seq<Call<BufferSrvId>> := [];
      var i := 0;
      while i < |weakSrvs|
        modifies {}
        invariant 0 <= i <= |weakSrvs|
        invariant made == RotateViewCalls(weakSrvs[..i])
      {
        RotateViewCallsExtend(weakSrvs, i);
        made := made + [ViewRotated(weakSrvs[i])];
        i := i + 1;
      }
      assert weakSrvs[..i] == weakSrvs;
      var j := 0;
      while j < |observers|
        modifies {}
        invariant 0 <= j <= |observers|
        invariant made == RotateViewCalls(weakSrvs) + NotifyCalls(observers[..j], bufferDynamic)
      {
        NotifyCallsExtend<BufferSrvId>(observers, bufferDynamic, j);
        made := made + [ObserverNotified(observers[j], bufferDynamic)];
        j := j + 1;
      }
      assert observers[..j] == observers;
      calls := calls + made;
    }

    /** `AddObserver`: append, duplicates included. */
    method AddObserver(binding: DynamicBinding)
      modifies this
      ensures observers == old(observers) + [binding]
      ensures weakSrvs == old(weakSrvs) && calls == old(calls) && Current() == old(Current())
    {
      observers := observers + [binding];
    }

    /** `RemoveObserver`: erase-remove on the list itself. */
    method RemoveObserver(binding: DynamicBinding)
      modifies this
      ensures observers == EraseRemove(old(observers), binding)
      ensures weakSrvs == old(weakSrvs) && calls == old(calls) && Current() == old(Current())
    {
      observers := EraseRemove(observers, binding);
    }

    /** `~SRV` of a buffer view: erase-remove on the buffer's list itself. */
    method ReleaseSrv(srv: BufferSrvId)
      modifies this
      ensures weakSrvs == EraseRemove(old(weakSrvs), srv)
      ensures observers == old(observers) && calls == old(calls) && Current() == old(Current())
    {
      weakSrvs := EraseRemove(weakSrvs, srv);
    }

    /**
     * `CreateShaderResourceView`: E_INVALIDARG when the description cannot
     * be resolved, E_FAIL unless it is a buffer view, S_FALSE when no view
     * was asked for, and otherwise E_NOTIMPL; no view is ever made.
     */
    method CreateShaderResourceView(finalDesc: Option<SrvDesc>, viewRequested: bool) returns (hr: HResult)
      ensures hr == E_INVALIDARG <==> finalDesc.None?
      ensures hr == E_FAIL <==>
                finalDesc.Some? && finalDesc.value.dimension != DimensionBuffer &&
                finalDesc.value.dimension != DimensionBufferEx
      ensures hr == S_FALSE <==>
                finalDesc.Some? && finalDesc.value.dimension in {DimensionBuffer, DimensionBufferEx} &&
                !viewRequested
      ensures hr == E_NOTIMPL <==>
                finalDesc.Some? && finalDesc.value.dimension in {DimensionBuffer, DimensionBufferEx} &&
                viewRequested
    {
      if finalDesc.None? {
        return E_INVALIDARG;
      }
      if finalDesc.value.dimension != DimensionBuffer && finalDesc.value.dimension != DimensionBufferEx {
        return E_FAIL;
      }
      if !viewRequested {
        return S_FALSE;
      }
      return E_NOTIMPL;
    }
  }

  /** The view cache entry was made by `newTexture` over the given buffer at offset 0. */
  predicate MadeOver(entry: ViewCache, buffer: BufferId, bytesPerRow: nat, descriptor: TextureDescriptor)
  {
    && entry.view.buffer == buffer && entry.view.offset == 0
    && entry.view.bytesPerRow == bytesPerRow && entry.view.descriptor == descriptor
    && entry.viewHandle == GpuResourceId(entry.view)
  }

  /**
   * What `RotateView` guarantees about a texture view object rotated onto
   * the backing at `handle`: the cache gains exactly that key, no existing
   * entry is rebuilt or changed, a missing entry is a new view over
   * `buffer`, and the current view is the cached one.
   */
  twostate predicate RotatedTo(srv: TextureSrv, handle: GpuAddress, buffer: BufferId, bytesPerRow: nat)
    reads srv
  {
    && srv.cache.Keys == old(srv.cache).Keys + {handle}
    && (forall h :: h in old(srv.cache) ==> srv.cache[h] == old(srv.cache)[h])
    && (handle !in old(srv.cache) ==>
          fresh(srv.cache[handle].view) && MadeOver(srv.cache[handle], buffer, bytesPerRow, srv.viewDesc))
    && srv.view == srv.cache[handle].view && srv.viewHandle == srv.cache[handle].viewHandle
  }

  /** `DynamicTexture2D::SRV`: a texture view over the current backing, with its cache. */
  class TextureSrv {
    const resource: DynamicTexture2D
    const viewDesc: TextureDescriptor
    var view: MtlTexture?
    var viewHandle: ResourceId
    var cache: map<GpuAddress, ViewCache>

    constructor (resource: DynamicTexture2D, viewDesc: TextureDescriptor)
      ensures this.resource == resource && this.viewDesc == viewDesc
      ensures view == null && viewHandle == NoResourceId && cache == map[]
    {
      this.resource := resource;
      this.viewDesc := viewDesc;
      view, viewHandle := null, NoResourceId;
      cache := map[];
    }

    /**
     * `GetBindable`: a fresh binding that resolves through this view object,
     * registered as an observer of the texture.
     */
    method GetBindable(observer: CallbackId) returns (binding: DynamicBinding)
      modifies resource
      ensures fresh(binding) && binding.resolver == OfTextureView(this) && binding.observer == observer
      ensures resource.observers == old(resource.observers) + [binding]
      ensures resource.weakSrvs == old(resource.weakSrvs) && resource.calls == old(resource.calls)
      ensures resource.Current() == old(resource.Current())
    {
      binding := new DynamicBinding(observer, OfTextureView(this));
      resource.AddObserver(binding);
    }

    /**
     * `RotateView`: look the texture's current GPU address up in the cache,
     * make a view over the current buffer only when it is missing, and make
     * the cached view current.
     */
    method RotateView()
      modifies this
      ensures RotatedTo(this, resource.bufferHandle, resource.buffer, resource.bytesPerRow)
    {
      var handle := resource.bufferHandle;
      if handle !in cache {
        var texture := new MtlTexture(resource.buffer, 0, resource.bytesPerRow, viewDesc);
        cache := cache[handle := ViewCache(texture, GpuResourceId(texture))];
      }
      var item := cache[handle];
      view := item.view;
      viewHandle := item.viewHandle;
    }

    /**
     * `~SRV` of a texture view: the erase-remove runs on a copy of the
     * texture's list, so the list keeps this view object.
     */
    method Release()
      ensures resource.weakSrvs == old(resource.weakSrvs)
    {
      var vec := resource.weakSrvs;
      vec := EraseRemove(vec, this);
    }
  }

  /**
   * The early returns of `DynamicTexture2D::CreateShaderResourceView`:
   * E_INVALIDARG when the description cannot be resolved; E_FAIL for a view
   * that is not a single-mip 2D texture view (dimension checked first);
   * S_FALSE when no view was asked for; E_FAIL when the format is unknown;
   * S_OK otherwise.
   */
  function TextureSrvResult(finalDesc: Option<SrvDesc>, viewRequested: bool, format: Option<FormatDesc>): (hr: HResult)
    ensures hr == E_INVALIDARG <==> finalDesc.None?
    ensures hr == S_FALSE <==> finalDesc.Some? && SingleMip2DView(finalDesc.value) && !viewRequested
    ensures hr == S_OK <==> finalDesc.Some? && SingleMip2DView(finalDesc.value) && viewRequested && format.Some?
    ensures hr == E_FAIL <==>
              finalDesc.Some? && (!SingleMip2DView(finalDesc.value) || (viewRequested && format.None?))
    ensures hr != E_NOTIMPL
  {
    if finalDesc.None? then E_INVALIDARG
    else if finalDesc.value.dimension != DimensionTexture2D then E_FAIL
    else if finalDesc.value.mostDetailedMip != 0 || finalDesc.value.mipLevels != 1 then E_FAIL
    else if !viewRequested then S_FALSE
    else if format.None? then E_FAIL
    else S_OK
  }

  /** The only view a dynamic texture supports: 2D, starting at mip 0, one mip level. */
  predicate SingleMip2DView(desc: SrvDesc)
  {
    desc.dimension == DimensionTexture2D && desc.mostDetailedMip == 0 && desc.mipLevels == 1
  }

  class DynamicTexture2D {
    const desc: Texture2DDesc
    var buffer: BufferId
    var bufferHandle: GpuAddress
    var bufferMapped: CpuAddress
    const bytesPerRow: nat
    var observers: seq<DynamicBinding>
    var weakSrvs: seq<TextureSrv>
    ghost var calls: seq<Call<TextureSrv>>

    /** Every view object in the list is a different one, and each views this texture. */
    ghost predicate Valid()
      reads this
    {
      && (forall i, j :: 0 <= i < j < |weakSrvs| ==> weakSrvs[i] != weakSrvs[j])
      && (forall i :: 0 <= i < |weakSrvs| ==> weakSrvs[i].resource == this)
    }

    /** The current backing triple. */
    function Current(): Backing
      reads this
    {
      Backing(buffer, bufferHandle, bufferMapped)
    }

    constructor (desc: Texture2DDesc, initial: Backing, bytesPerRow: nat)
      ensures Valid() && Current() == initial
      ensures this.desc == desc && this.bytesPerRow == bytesPerRow
      ensures observers == [] && weakSrvs == [] && calls == []
    {
      this.desc := desc;
      buffer, bufferHandle, bufferMapped := initial.buffer, initial.handle, initial.mapped;
      this.bytesPerRow := bytesPerRow;
      observers, weakSrvs := [], [];
      calls := [];
    }

    /** `GetMappedMemory`: the mapping of the current backing and its row pitch. */
    method GetMappedMemory() returns (mapped: CpuAddress, rowPitch: nat)
      ensures mapped == Current().mapped && rowPitch == bytesPerRow
    {
      mapped, rowPitch := bufferMapped, bytesPerRow;
    }

    /**
     * `RotateBuffer`: take the exchanged backing, rotate every view object
     * onto it, then notify every observer with the new buffer, each in list
     * order.
     */
    method RotateBuffer(next: Backing)
      requires Valid()
      modifies this, weakSrvs
      ensures Valid() && Current() == next
      ensures observers == old(observers) && weakSrvs == old(weakSrvs)
      ensures forall k :: 0 <= k < |weakSrvs| ==> RotatedTo(weakSrvs[k], next.handle, next.buffer, bytesPerRow)
      ensures calls == old(calls) + RotateViewCalls(weakSrvs) + NotifyCalls(observers, next.buffer)
    {
      buffer, bufferHandle, bufferMapped := next.buffer, next.handle, next.mapped;
      ghost var rotated := RotateViews();
      ghost var notified := NotifyObservers();
      calls := calls + rotated + notified;
    }

    /** The second loop of `RotateBuffer`: `NotifyObserver` with the current buffer on every observer, in list order. */
    method NotifyObservers() returns (ghost made: seq<Call<TextureSrv>>)
      ensures made == NotifyCalls(observers, buffer)
    {
      made := [];
      var j := 0;
      while j < |observers|
        invariant 0 <= j <= |observers|
        invariant made == NotifyCalls(observers[..j], buffer)
      {
        NotifyCallsExtend<TextureSrv>(observers, buffer, j);
        made := made + [ObserverNotified(observers[j], buffer)];
        j := j + 1;
      }
      assert observers[..j] == observers;
    }

    /** The first loop of `RotateBuffer`: `RotateView` on every view object, in list order. */
    method RotateViews() returns (ghost made: seq<Call<TextureSrv>>)
      requires Valid()
      modifies weakSrvs
      ensures made == RotateViewCalls(weakSrvs)
      ensures forall k :: 0 <= k < |weakSrvs| ==> RotatedTo(weakSrvs[k], bufferHandle, buffer, bytesPerRow)
    {
      made := [];
      var i := 0;
      while i < |weakSrvs|
        invariant 0 <= i <= |weakSrvs|
        invariant made == RotateViewCalls(weakSrvs[..i])
        invariant forall k :: 0 <= k < i ==> RotatedTo(weakSrvs[k], bufferHandle, buffer, bytesPerRow)
        invariant forall k :: i <= k < |weakSrvs| ==> weakSrvs[k].cache == old(weakSrvs[k].cache)
      {
        weakSrvs[i].RotateView();
        RotateViewCallsExtend(weakSrvs, i);
        made := made + [ViewRotated(weakSrvs[i])];
        i := i + 1;
      }
      assert weakSrvs[..i] == weakSrvs;
    }

    /** `AddObserver`: append, duplicates included. */
    method AddObserver(binding: DynamicBinding)
      modifies this
      ensures observers == old(observers) + [binding]
      ensures weakSrvs == old(weakSrvs) && calls == old(calls) && Current() == old(Current())
    {
      observers := observers + [binding];
    }

    /** `RemoveObserver`: the erase-remove runs on a copy, so the list is left as it was. */
    method RemoveObserver(binding: DynamicBinding)
      ensures observers == old(observers)
    {
      var vec := observers;
      vec := EraseRemove(vec, binding);
    }

    /**
     * `CreateShaderResourceView`: the early returns of `TextureSrvResult`;
     * on S_OK a new view object is appended to the list and rotated onto the
     * current backing, so its cache holds just the current GPU address.
     */
    method CreateShaderResourceView(finalDesc: Option<SrvDesc>, viewRequested: bool, format: Option<FormatDesc>)
      returns (hr: HResult, srv: TextureSrv?)
      requires Valid()
      modifies this
      ensures Valid() && Current() == old(Current())
      ensures observers == old(observers) && calls == old(calls)
      ensures hr == TextureSrvResult(finalDesc, viewRequested, format)
      ensures hr != S_OK ==> srv == null && weakSrvs == old(weakSrvs)
      ensures hr == S_OK ==>
                && srv != null && fresh(srv) && weakSrvs == old(weakSrvs) + [srv]
                && srv.resource == this
                && srv.viewDesc == TextureDescriptor(desc.width, desc.height, format.value.pixelFormat)
                && srv.cache.Keys == {bufferHandle}
                && fresh(srv.cache[bufferHandle].view)
                && MadeOver(srv.cache[bufferHandle], buffer, bytesPerRow, srv.viewDesc)
                && srv.view == srv.cache[bufferHandle].view
                && srv.viewHandle == srv.cache[bufferHandle].viewHandle
    {
      srv := null;
      if finalDesc.None? {
        return E_INVALIDARG, srv;
      }
      if finalDesc.value.dimension != DimensionTexture2D {
        return E_FAIL, srv;
      }
      if finalDesc.value.mostDetailedMip != 0 || finalDesc.value.mipLevels != 1 {
        return E_FAIL, srv;
      }
      if !viewRequested {
        return S_FALSE, srv;
      }
      if format.None? {
        return E_FAIL, srv;
      }
      var descriptor := TextureDescriptor(desc.width, desc.height, format.value.pixelFormat);
      var view := new TextureSrv(this, descriptor);
      weakSrvs := weakSrvs + [view];
      view.RotateView();
      return S_OK, view;
    }
  }

  /**
   * The decision of `CreateDynamicTexture2D`: E_FAIL for a compressed or
   * invalid pixel format (whatever the format query returned), E_INVALIDARG
   * when no Metal texture descriptor can be made, E_FAIL when no linear
   * layout exists, S_OK otherwise.
   */
  function CreateDynamicTexture2DResult(format: FormatDesc, finalDesc: Option<Texture2DDesc>, layout: Option<LinearLayout>)
    : (hr: HResult)
    ensures hr == S_OK <==>
              !format.isCompressed && format.pixelFormat != PixelFormatInvalid && finalDesc.Some? && layout.Some?
    ensures hr == E_INVALIDARG <==>
              !format.isCompressed && format.pixelFormat != PixelFormatInvalid && finalDesc.None?
    ensures hr == E_FAIL <==>
              format.isCompressed || format.pixelFormat == PixelFormatInvalid || (finalDesc.Some? && layout.None?)
  {
    if format.isCompressed then E_FAIL
    else if format.pixelFormat == PixelFormatInvalid then E_FAIL
    else if finalDesc.None? then E_INVALIDARG
    else if layout.None? then E_FAIL
    else S_OK
  }

  /**
   * `CreateDynamicTexture2D`: after the checks, a texture over the new
   * buffer, keeping the caller's description and the layout's row pitch.
   */
  method CreateDynamicTexture2D(desc: Texture2DDesc, format: FormatDesc, finalDesc: Option<Texture2DDesc>,
                                layout: Option<LinearLayout>, created: Backing)
    returns (hr: HResult, texture: DynamicTexture2D?)
    ensures hr == CreateDynamicTexture2DResult(format, finalDesc, layout)
    ensures hr != S_OK ==> texture == null
    ensures hr == S_OK ==>
              && texture != null && fresh(texture) && texture.Valid()
              && texture.desc == desc && texture.Current() == created
              && texture.bytesPerRow == layout.value.bytesPerRow
              && texture.observers == [] && texture.weakSrvs == []
  {
    texture := null;
    if format.isCompressed {
      return E_FAIL, texture;
    }
    if format.pixelFormat == PixelFormatInvalid {
      return E_FAIL, texture;
    }
    if finalDesc.None? {
      return E_INVALIDARG, texture;
    }
    if layout.None? {
      return E_FAIL, texture;
    }
    texture := new DynamicTexture2D(desc, created, layout.value.bytesPerRow);
    return S_OK, texture;
  }
}
