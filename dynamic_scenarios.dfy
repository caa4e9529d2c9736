/**
 * Clients of the dynamic resources: what a binding resolves to after
 * rotations, the binding lifecycle on a buffer and on a texture, and the
 * reuse of cached texture views when a backing comes back.
 */
module DynamicScenarios {

  import opened EraseRemoveIdiom
  import opened DynamicResources

  /** Each call a rotation makes is a `RotateView` followed by the notifications. */
  lemma RotationCalls<Srv>(srvs: seq<Srv>, observers: seq<DynamicBinding>, buffer: BufferId, b: DynamicBinding)
    ensures ObserverNotified(b, buffer) in RotateViewCalls(srvs) + NotifyCalls<Srv>(observers, buffer)
            <==> b in observers
  {
    RotateViewCallsInOrder(srvs);
    NotifiedIffRegistered<Srv>(observers, buffer, b);
  }

  /**
   * A binding taken before any number of rotations resolves, when asked,
   * to the buffer and GPU address of the last one: nothing is captured at
   * creation.
   */
  method LazyBufferBinding(buffer: DynamicBuffer, observer: CallbackId, rotations: seq<Backing>)
    returns (binding: DynamicBinding, bound: BindingRef, argument: ArgumentData)
    requires |rotations| > 0
    modifies buffer
    ensures fresh(binding) && buffer.observers == old(buffer.observers) + [binding]
    ensures buffer.Current() == rotations[|rotations| - 1]
    ensures bound == BufferBinding(rotations[|rotations| - 1].buffer)
    ensures argument == BufferArgument(rotations[|rotations| - 1].handle)
  {
    binding := buffer.GetBindable(observer);
    var i := 0;
    while i < |rotations|
      invariant 0 <= i <= |rotations|
      invariant binding.resolver == OfBuffer(buffer)
      invariant buffer.observers == old(buffer.observers) + [binding]
      invariant i > 0 ==> buffer.Current() == rotations[i - 1]
    {
      buffer.RotateBuffer(rotations[i]);
      i := i + 1;
    }
    bound := binding.GetBinding(0);
    argument := binding.GetArgumentData();
  }

  /**
   * Taking a binding and releasing it leaves the buffer's observers as they
   * were, and the next rotation does not notify the released binding.
   */
  method ReleasedBufferBindingIsNotNotified(buffer: DynamicBuffer, observer: CallbackId, next: Backing)
    returns (binding: DynamicBinding)
    modifies buffer
    ensures buffer.observers == old(buffer.observers)
    ensures buffer.Current() == next
    ensures |old(buffer.calls)| <= |buffer.calls|
    ensures ObserverNotified(binding, next.buffer) !in buffer.calls[|old(buffer.calls)|..]
  {
    binding := buffer.GetBindable(observer);
    EraseRemoveUndoesAppend(old(buffer.observers), binding);
    binding.Release();
    ghost var before := buffer.calls;
    buffer.RotateBuffer(next);
    assert buffer.calls[|old(buffer.calls)|..]
           == RotateViewCalls(buffer.weakSrvs) + NotifyCalls(buffer.observers, next.buffer);
    RotationCalls(buffer.weakSrvs, buffer.observers, next.buffer, binding);
  }

  /**
   * On a texture the release callback removes nothing, so a binding that
   * has been released is still registered and is notified by the next
   * rotation.
   */
  method ReleasedTextureBindingIsStillNotified(srv: TextureSrv, observer: CallbackId, next: Backing)
    returns (binding: DynamicBinding)
    requires srv.resource.Valid()
    modifies srv.resource, srv.resource.weakSrvs
    ensures srv.resource.observers == old(srv.resource.observers) + [binding]
    ensures |old(srv.resource.calls)| <= |srv.resource.calls|
    ensures ObserverNotified(binding, next.buffer) in srv.resource.calls[|old(srv.resource.calls)|..]
  {
    var texture := srv.resource;
    binding := srv.GetBindable(observer);
    binding.Release();
    texture.RotateBuffer(next);
    assert texture.calls[|old(texture.calls)|..]
           == RotateViewCalls(texture.weakSrvs) + NotifyCalls(texture.observers, next.buffer);
    RotationCalls(texture.weakSrvs, texture.observers, next.buffer, binding);
  }

  /** One rotation of the texture, seen from one of its view objects. */
  method RotateTextureOf(srv: TextureSrv, next: Backing)
    requires srv.resource.Valid() && srv in srv.resource.weakSrvs
    modifies srv.resource, srv.resource.weakSrvs
    ensures srv.resource.Valid() && srv.resource.weakSrvs == old(srv.resource.weakSrvs)
    ensures RotatedTo(srv, next.handle, next.buffer, srv.resource.bytesPerRow)
  {
    var k :| 0 <= k < |srv.resource.weakSrvs| && srv.resource.weakSrvs[k] == srv;
    srv.resource.RotateBuffer(next);
  }

  /**
   * Rotating a texture onto backing `a`, away to `b` and back onto `a`
   * makes each view object current on the very view it made for `a` the
   * first time: the cache keeps one view per GPU address.
   */
  method RotatingBackReusesView(srv: TextureSrv, a: Backing, b: Backing) returns (first: MtlTexture?, last: MtlTexture?)
    requires srv.resource.Valid() && srv in srv.resource.weakSrvs
    modifies srv.resource, srv.resource.weakSrvs
    ensures srv.cache.Keys == old(srv.cache).Keys + {a.handle, b.handle}
    ensures first != null && first == last && srv.view == last
    ensures a.handle !in old(srv.cache) ==> first.buffer == a.buffer && first.offset == 0
  {
    RotateTextureOf(srv, a);
    first := srv.view;
    ghost var entry := srv.cache[a.handle];
    RotateTextureOf(srv, b);
    assert srv.cache[a.handle] == entry;
    RotateTextureOf(srv, a);
    last := srv.view;
  }
}
