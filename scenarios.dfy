/** Callers of the Android surface API, written against the contracts of `Device` alone. */
module Scenarios {
  import opened Native
  import opened AndroidSurface

  /** An off-screen surface rendered by `producer` and sampled by `consumer`: create it, share it,
      stop sharing it, destroy it. Every step succeeds and no native resource is left behind. */
  method OffscreenLifecycle(device: Device, producer: Context, consumer: Context, size: Size2D)
    requires device.Valid()
    modifies device.native
    ensures device.Valid()
    ensures device.native.live == old(device.native.live)
  {
    var created := device.CreateGenericSurface(producer, size, true, 0);
    var surface := created.value;
    assert surface.Size() == size && surface.objects.HardwareBuffer?;
    var shared := device.CreateSurfaceTexture(consumer, surface, true);
    var surfaceTexture := shared.result.value;
    var returned := device.DestroySurfaceTexture(consumer, surfaceTexture, true);
    assert returned.value == surface && !surface.destroyed;
    var destroyed := device.DestroySurface(producer, returned.value);
    assert destroyed == Ok(()) && surface.destroyed;
  }

  /** The same life, but the surface texture is released with `releaser` and the consumer context
      is not the one current at the deletion: either making `releaser` current fails, or it is
      another context. Everything is freed except the consumer's texture, which leaks. */
  method OffscreenLifecycleStrayUnshare(device: Device, producer: Context, consumer: Context, size: Size2D,
                                        releaser: Context, makeCurrent: bool)
    returns (leaked: Handle)
    requires device.Valid() && (makeCurrent ==> releaser.id != consumer.id)
    modifies device.native
    ensures device.Valid()
    ensures Resource(GLTexture, leaked) !in old(device.native.live)
    ensures device.native.live == old(device.native.live) + {Resource(GLTexture, leaked)}
  {
    var created := device.CreateGenericSurface(producer, size, true, 0);
    var surface := created.value;
    var shared := device.CreateSurfaceTexture(consumer, surface, true);
    var surfaceTexture := shared.result.value;
    leaked := surfaceTexture.textureObject;
    var returned := device.DestroySurfaceTexture(releaser, surfaceTexture, makeCurrent);
    var destroyed := device.DestroySurface(producer, returned.value);
    assert destroyed == Ok(());
  }

  /** A window surface: create it, present one frame, destroy it. */
  method WindowLifecycle(device: Device, context: Context, window: NativeWindow)
    requires device.Valid()
    modifies device.native
    ensures device.Valid()
    ensures device.native.live == old(device.native.live)
    ensures |device.native.log| == |old(device.native.log)| + 3
    ensures device.native.log[|old(device.native.log)| + 1].SwapBuffers?
  {
    var created := device.CreateSurface(context, GPUOnly, Widget(NativeWidget(window)), false, 0);
    var surface := created.value;
    var presented := device.PresentSurface(context, surface);
    assert presented == Ok(());
    var destroyed := device.DestroySurface(context, surface);
    assert destroyed == Ok(());
  }

  /** A 64x64 generic surface has that size and is backed by a hardware buffer. */
  method Generic64x64(device: Device, context: Context) returns (surface: Surface)
    requires device.Valid()
    modifies device.native
    ensures device.Valid()
    ensures surface.Size() == Size2D(64, 64) && surface.objects.HardwareBuffer?
    ensures surface.ContextId() == context.id && surface.LiveIn(device.native)
  {
    var created := device.CreateSurface(context, GPUOnly, Generic(Size2D(64, 64)), true, 0);
    surface := created.value;
  }

  /** A surface on an 800x600 native window is 800x600 and window-backed. */
  method Window800x600(device: Device, context: Context, window: Handle) returns (surface: Surface)
    requires device.Valid()
    modifies device.native
    ensures device.Valid()
    ensures surface.Size() == Size2D(800, 600) && surface.objects.Window?
    ensures surface.LiveIn(device.native)
  {
    var created := device.CreateSurface(context, GPUOnly, Widget(NativeWidget(NativeWindow(window, 800, 600))), true, 0);
    surface := created.value;
  }

  /** A surface owned by `owner` handed to `DestroySurface` with another context is refused,
      marked destroyed, and its resources stay allocated. */
  method DestroyWithForeignContext(device: Device, owner: Context, other: Context, size: Size2D)
    returns (surface: Surface, destroyed: Result<()>)
    requires device.Valid() && owner.id != other.id
    modifies device.native
    ensures device.Valid()
    ensures destroyed == Err(IncompatibleSurface)
    ensures surface.destroyed && surface.objects.HardwareBuffer?
    ensures Resources(surface.objects) !! old(device.native.live)
    ensures device.native.live == old(device.native.live) + Resources(surface.objects)
  {
    var created := device.CreateGenericSurface(owner, size, true, 0);
    surface := created.value;
    destroyed := device.DestroySurface(other, surface);
  }

  /** Presenting an off-screen surface fails and swaps nothing. */
  method PresentOffscreen(device: Device, context: Context, size: Size2D) returns (presented: Result<()>)
    requires device.Valid()
    modifies device.native
    ensures device.Valid()
    ensures presented == Err(NoWidgetAttached)
    ensures forall i :: |old(device.native.log)| <= i < |device.native.log| ==> !device.native.log[i].SwapBuffers?
  {
    var created := device.CreateGenericSurface(context, size, true, 0);
    var surface := created.value;
    presented := device.PresentSurface(context, surface);
    var destroyed := device.DestroySurface(context, surface);
  }
}
