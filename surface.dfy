/** Surfaces on Android: an off-screen surface backed by an `AHardwareBuffer` imported as an EGL
    image, or a surface backed by an `ANativeWindow` through an EGL window surface. A surface must be
    handed back to `Device.DestroySurface` before it is dropped; a `SurfaceTexture` lets a second
    context sample an off-screen surface's buffer. */
module AndroidSurface {
  import opened Native

  type ContextID = nat

  /** The part of a context this layer looks at: its id. */
  datatype Context = Context(id: ContextID)

  /** Not interpreted on this platform. */
  datatype SurfaceAccess = GPUOnly | GPUCPU | GPUCPUWriteCombined

  /** An `ANativeWindow` with the size `ANativeWindow_getWidth`/`getHeight` report for it. */
  datatype NativeWindow = NativeWindow(handle: Handle, width: i32, height: i32)

  datatype NativeWidget = NativeWidget(nativeWindow: NativeWindow)

  datatype SurfaceType = Generic(size: Size2D) | Widget(nativeWidget: NativeWidget)

  datatype Error =
    | SurfaceCreationFailed
    | MakeCurrentFailed
    | WidgetAttached
    | NoWidgetAttached
    | IncompatibleSurface
    | Unimplemented

  datatype Result<T> = Ok(value: T) | Err(error: Error)

  /** Why the thread panicked. */
  datatype Panic = SurfaceNotDestroyed

  /** What a call that may panic does: return a result, or panic. */
  datatype Outcome<T> = Returned(result: Result<T>) | Panicked(panic: Panic)

  /** Never built on this platform: `LockSurfaceData` always fails. */
  datatype SurfaceDataGuard = SurfaceDataGuard

  type SurfaceID = Handle

  datatype SurfaceObjects =
    | HardwareBuffer(hardwareBuffer: Handle, eglImage: Handle, framebufferObject: Handle,
                     textureObject: Handle, renderbuffers: Handle)
    | Window(eglSurface: Handle)

  /** The native resources a surface owns. */
  function Resources(objects: SurfaceObjects): set<Resource> {
    match objects
    case HardwareBuffer(buffer, image, framebuffer, texture, renderbuffers) =>
      {Resource(AHardwareBuffer, buffer), Resource(EGLImage, image), Resource(GLFramebuffer, framebuffer),
       Resource(GLTexture, texture), Resource(GLRenderbuffers, renderbuffers)}
    case Window(surface) => {Resource(EGLSurface, surface)}
  }

  /** The objects after teardown: every handle reset to "none". The renderbuffer set keeps
      its value here, since `Renderbuffers::destroy` is not part of this model. */
  function Zeroed(objects: SurfaceObjects): SurfaceObjects {
    match objects
    case HardwareBuffer(_, _, _, _, renderbuffers) =>
      HardwareBuffer(NULL_HANDLE, NULL_HANDLE, NULL_HANDLE, NULL_HANDLE, renderbuffers)
    case Window(_) => Window(NULL_HANDLE)
  }

  /** The native calls that build an off-screen surface, in order. */
  function GenericCreationCalls(size: Size2D, objects: SurfaceObjects): seq<NativeCall>
    requires objects.HardwareBuffer?
  {
    [AllocateHardwareBuffer(AsU32(size.width), AsU32(size.height), 0, objects.hardwareBuffer),
     CreateImage(objects.hardwareBuffer, objects.eglImage),
     BindImageToTexture(objects.eglImage, objects.textureObject),
     CreateFramebuffer(objects.textureObject, objects.framebufferObject),
     CreateRenderbuffers(size, objects.renderbuffers),
     AttachRenderbuffers(objects.renderbuffers)]
  }

  /** The native calls that tear a surface down, in order. */
  function TeardownCalls(objects: SurfaceObjects): seq<NativeCall> {
    match objects
    case HardwareBuffer(buffer, image, framebuffer, texture, renderbuffers) =>
      [BindFramebuffer(NULL_HANDLE),
       DeleteFramebuffer(framebuffer),
       DestroyRenderbuffers(renderbuffers),
       DeleteTexture(texture),
       DestroyImage(image),
       ReleaseHardwareBuffer(buffer)]
    case Window(surface) => [DestroyWindowSurface(surface)]
  }

  /** The native calls that import a hardware buffer into a second context. */
  function SurfaceTextureCalls(buffer: Handle, localImage: Handle, texture: Handle): seq<NativeCall> {
    [CreateImage(buffer, localImage), BindImageToTexture(localImage, texture)]
  }

  /** The native calls that release a surface texture's own image and texture. */
  function SurfaceTextureTeardownCalls(localImage: Handle, texture: Handle): seq<NativeCall> {
    [DeleteTexture(texture), DestroyImage(localImage)]
  }

  /** The same release when the context could not be made current: the texture deletion reaches
      some other context. */
  function StrayTeardownCalls(localImage: Handle, texture: Handle): seq<NativeCall> {
    [DeleteTextureElsewhere(texture), DestroyImage(localImage)]
  }

  /** Building an off-screen surface from resources not yet live is sound and adds exactly
      the surface's resources. */
  lemma GenericCreationAddsExactly(live: set<Resource>, size: Size2D, objects: SurfaceObjects)
    requires objects.HardwareBuffer?
    requires Resources(objects) !! live
    ensures Sound(live, GenericCreationCalls(size, objects))
    ensures Replay(live, GenericCreationCalls(size, objects)) == live + Resources(objects)
  {
    var HardwareBuffer(buffer, image, framebuffer, texture, renderbuffers) := objects;
    var c0 := AllocateHardwareBuffer(AsU32(size.width), AsU32(size.height), 0, buffer);
    var c1, c2, c3 := CreateImage(buffer, image), BindImageToTexture(image, texture), CreateFramebuffer(texture, framebuffer);
    var c4, c5 := CreateRenderbuffers(size, renderbuffers), AttachRenderbuffers(renderbuffers);
    var l1 := live + {Resource(AHardwareBuffer, buffer)};
    var l2 := l1 + {Resource(EGLImage, image)};
    var l3 := l2 + {Resource(GLTexture, texture)};
    var l4 := l3 + {Resource(GLFramebuffer, framebuffer)};
    var l5 := l4 + {Resource(GLRenderbuffers, renderbuffers)};
    assert Apply(l5, c5) == l5;
    Step(l5, c5, l5, []);
    assert [c5] + [] == [c5];
    assert Apply(l4, c4) == l5;
    Step(l4, c4, l5, [c5]);
    assert [c4] + [c5] == [c4, c5];
    assert Apply(l3, c3) == l4;
    Step(l3, c3, l4, [c4, c5]);
    assert [c3] + [c4, c5] == [c3, c4, c5];
    assert Apply(l2, c2) == l3;
    Step(l2, c2, l3, [c3, c4, c5]);
    assert [c2] + [c3, c4, c5] == [c2, c3, c4, c5];
    assert Apply(l1, c1) == l2;
    Step(l1, c1, l2, [c2, c3, c4, c5]);
    assert [c1] + [c2, c3, c4, c5] == [c1, c2, c3, c4, c5];
    assert Apply(live, c0) == l1;
    Step(live, c0, l1, [c1, c2, c3, c4, c5]);
    assert [c0] + [c1, c2, c3, c4, c5] == [c0, c1, c2, c3, c4, c5];
    assert l5 == live + Resources(objects);
  }

  /** Tearing down a surface whose resources are live never touches a released resource,
      and releases exactly the surface's resources. */
  lemma TeardownReleasesExactly(live: set<Resource>, objects: SurfaceObjects)
    requires Resources(objects) <= live
    ensures Sound(live, TeardownCalls(objects))
    ensures Replay(live, TeardownCalls(objects)) == live - Resources(objects)
  {
    match objects
    case Window(surface) =>
      Single(live, DestroyWindowSurface(surface));
    case HardwareBuffer(buffer, image, framebuffer, texture, renderbuffers) =>
      HardwareBufferTeardown(live, buffer, image, framebuffer, texture, renderbuffers);
  }

  /** The off-screen half of `TeardownReleasesExactly`: the framebuffer and the renderbuffers go
      first, then `HardwareBufferRelease` finishes. */
  lemma HardwareBufferTeardown(live: set<Resource>, buffer: Handle, image: Handle, framebuffer: Handle,
                               texture: Handle, renderbuffers: Handle)
    requires Resources(HardwareBuffer(buffer, image, framebuffer, texture, renderbuffers)) <= live
    ensures var calls := TeardownCalls(HardwareBuffer(buffer, image, framebuffer, texture, renderbuffers));
      Sound(live, calls) && Replay(live, calls) == live - Resources(HardwareBuffer(buffer, image, framebuffer, texture, renderbuffers))
  {
    var c0, c1, c2 := BindFramebuffer(NULL_HANDLE), DeleteFramebuffer(framebuffer), DestroyRenderbuffers(renderbuffers);
    var l2 := live - {Resource(GLFramebuffer, framebuffer)};
    var l3 := l2 - {Resource(GLRenderbuffers, renderbuffers)};
    var tail := [DeleteTexture(texture), DestroyImage(image), ReleaseHardwareBuffer(buffer)];
    HardwareBufferRelease(l3, buffer, image, texture);
    assert Apply(l2, c2) == l3;
    Step(l2, c2, l3, tail);
    assert Apply(live, c1) == l2;
    Step(live, c1, l2, [c2] + tail);
    assert Apply(live, c0) == live;
    Step(live, c0, live, [c1] + ([c2] + tail));
    assert [c0] + ([c1] + ([c2] + tail)) == TeardownCalls(HardwareBuffer(buffer, image, framebuffer, texture, renderbuffers));
    assert l3 - {Resource(GLTexture, texture), Resource(EGLImage, image), Resource(AHardwareBuffer, buffer)}
        == live - Resources(HardwareBuffer(buffer, image, framebuffer, texture, renderbuffers));
  }

  /** Deleting the texture, destroying the image and releasing the buffer, all live, releases
      exactly those three. */
  lemma HardwareBufferRelease(live: set<Resource>, buffer: Handle, image: Handle, texture: Handle)
    requires Resource(GLTexture, texture) in live && Resource(EGLImage, image) in live
    requires Resource(AHardwareBuffer, buffer) in live
    ensures var calls := [DeleteTexture(texture), DestroyImage(image), ReleaseHardwareBuffer(buffer)];
      Sound(live, calls)
      && Replay(live, calls) == live - {Resource(GLTexture, texture), Resource(EGLImage, image), Resource(AHardwareBuffer, buffer)}
  {
    var c3, c4, c5 := DeleteTexture(texture), DestroyImage(image), ReleaseHardwareBuffer(buffer);
    var l4 := live - {Resource(GLTexture, texture)};
    var l5 := l4 - {Resource(EGLImage, image)};
    var l6 := l5 - {Resource(AHardwareBuffer, buffer)};
    assert Apply(l5, c5) == l6;
    Step(l5, c5, l6, []);
    assert [c5] + [] == [c5];
    assert Apply(l4, c4) == l5;
    Step(l4, c4, l5, [c5]);
    assert [c4] + [c5] == [c4, c5];
    assert Apply(live, c3) == l4;
    Step(live, c3, l4, [c4, c5]);
    assert [c3] + [c4, c5] == [c3, c4, c5];
    assert l6 == live - {Resource(GLTexture, texture), Resource(EGLImage, image), Resource(AHardwareBuffer, buffer)};
  }

  /** Importing a live buffer into a second context and releasing the import again leaves the
      live resources as they were. */
  lemma SurfaceTextureRoundTrip(live: set<Resource>, buffer: Handle, localImage: Handle, texture: Handle)
    requires Resource(AHardwareBuffer, buffer) in live
    requires Resource(EGLImage, localImage) !in live && Resource(GLTexture, texture) !in live
    ensures Sound(live, SurfaceTextureCalls(buffer, localImage, texture) + SurfaceTextureTeardownCalls(localImage, texture))
    ensures Replay(live, SurfaceTextureCalls(buffer, localImage, texture) + SurfaceTextureTeardownCalls(localImage, texture)) == live
  {
    var c0, c1 := CreateImage(buffer, localImage), BindImageToTexture(localImage, texture);
    var c2, c3 := DeleteTexture(texture), DestroyImage(localImage);
    var l1 := live + {Resource(EGLImage, localImage)};
    var l2 := l1 + {Resource(GLTexture, texture)};
    assert Apply(l1, c3) == live;
    Step(l1, c3, live, []);
    assert [c3] + [] == [c3];
    assert Apply(l2, c2) == l1;
    Step(l2, c2, l1, [c3]);
    assert [c2] + [c3] == [c2, c3];
    assert Apply(l1, c1) == l2;
    Step(l1, c1, l2, [c2, c3]);
    assert [c1] + [c2, c3] == [c1, c2, c3];
    assert Apply(live, c0) == l1;
    Step(live, c0, l1, [c1, c2, c3]);
    assert [c0] + [c1, c2, c3] == [c0, c1, c2, c3];
    assert [c0, c1] + [c2, c3] == [c0, c1, c2, c3];
  }

  /** Releasing a surface texture without its context current is sound, destroys the image and
      leaves the texture live: the texture leaks. */
  lemma StrayTeardownLeaksTexture(live: set<Resource>, localImage: Handle, texture: Handle)
    requires Resource(EGLImage, localImage) in live && Resource(GLTexture, texture) in live
    ensures Sound(live, StrayTeardownCalls(localImage, texture))
    ensures Replay(live, StrayTeardownCalls(localImage, texture)) == live - {Resource(EGLImage, localImage)}
    ensures Resource(GLTexture, texture) in Replay(live, StrayTeardownCalls(localImage, texture))
  {
    var c0, c1 := DeleteTextureElsewhere(texture), DestroyImage(localImage);
    var l2 := live - {Resource(EGLImage, localImage)};
    assert Apply(live, c1) == l2;
    Step(live, c1, l2, []);
    assert [c1] + [] == [c1];
    assert Apply(live, c0) == live;
    Step(live, c0, live, [c1]);
    assert [c0] + [c1] == [c0, c1];
  }

  /** The whole life of an off-screen surface shared with a second context: create it, import it,
      release the import, destroy it. Every call is sound and nothing is leaked. */
  lemma GenericLifecycleLeavesNothing(live: set<Resource>, size: Size2D, objects: SurfaceObjects,
                                      localImage: Handle, texture: Handle)
    requires objects.HardwareBuffer?
    requires Resources(objects) !! live
    requires Resource(EGLImage, localImage) !in live + Resources(objects)
    requires Resource(GLTexture, texture) !in live + Resources(objects)
    ensures Sound(live, GenericCreationCalls(size, objects)
                        + SurfaceTextureCalls(objects.hardwareBuffer, localImage, texture)
                        + SurfaceTextureTeardownCalls(localImage, texture)
                        + TeardownCalls(objects))
    ensures Replay(live, GenericCreationCalls(size, objects)
                         + SurfaceTextureCalls(objects.hardwareBuffer, localImage, texture)
                         + SurfaceTextureTeardownCalls(localImage, texture)
                         + TeardownCalls(objects)) == live
  {
    var create := GenericCreationCalls(size, objects);
    var share := SurfaceTextureCalls(objects.hardwareBuffer, localImage, texture)
                 + SurfaceTextureTeardownCalls(localImage, texture);
    var teardown := TeardownCalls(objects);
    GenericCreationAddsExactly(live, size, objects);
    var l1 := live + Resources(objects);
    SurfaceTextureRoundTrip(l1, objects.hardwareBuffer, localImage, texture);
    TeardownReleasesExactly(l1, objects);
    ReplayAppend(live, create, share);
    SoundAppend(live, create, share);
    ReplayAppend(live, create + share, teardown);
    SoundAppend(live, create + share, teardown);
    assert create + SurfaceTextureCalls(objects.hardwareBuffer, localImage, texture)
           + SurfaceTextureTeardownCalls(localImage, texture) + teardown == create + share + teardown;
  }

  class Surface {
    var contextId: ContextID
    var size: Size2D
    var objects: SurfaceObjects
    var destroyed: bool

    constructor (contextId: ContextID, size: Size2D, objects: SurfaceObjects)
      ensures this.contextId == contextId && this.size == size && this.objects == objects
      ensures !destroyed
    {
      this.contextId := contextId;
      this.size := size;
      this.objects := objects;
      destroyed := false;
    }

    /** A surface a caller can hold: not yet destroyed, and everything it owns is live. */
    ghost predicate LiveIn(native: NativeDriver)
      reads this, native
    {
      !destroyed && Resources(objects) <= native.live
    }

    /** `size()`: the size the surface was created with. */
    function Size(): (s: Size2D)
      reads this
      ensures s == size
    {
      size
    }

    /** `context_id()`: the id of the context that created the surface. */
    function ContextId(): (id: ContextID)
      reads this
      ensures id == contextId
    {
      contextId
    }

    /** `id()`: the handle of the surface's primary resource, the EGL image of an off-screen
        surface or the EGL surface of a window surface. */
    function Id(): (id: SurfaceID)
      reads this
      ensures objects.HardwareBuffer? ==> id == objects.eglImage && Resource(EGLImage, id) in Resources(objects)
      ensures objects.Window? ==> id == objects.eglSurface && Resource(EGLSurface, id) in Resources(objects)
    {
      match objects
      case HardwareBuffer(_, image, _, _, _) => image
      case Window(surface) => surface
    }

    /** `Drop for Surface`: dropping faults unless the surface was destroyed or the thread is
        already unwinding from a panic. */
    method Drop(panicking: bool) returns (panics: bool)
      ensures panics <==> !destroyed && !panicking
    {
      panics := !destroyed && !panicking;
    }
  }

  /** The id of a surface a caller holds names a live resource of the surface's variant. */
  lemma IdNamesLivePrimaryResource(native: NativeDriver, surface: Surface)
    requires native.Valid() && surface.LiveIn(native)
    ensures surface.Id() != NULL_HANDLE
    ensures surface.objects.HardwareBuffer? ==> Resource(EGLImage, surface.Id()) in native.live
    ensures surface.objects.Window? ==> Resource(EGLSurface, surface.Id()) in native.live
  {
  }

  class SurfaceTexture {
    const surface: Surface
    var localEglImage: Handle
    var textureObject: Handle
    /** The context whose name space holds `textureObject`. The Rust value does not record it. */
    ghost const consumerId: ContextID

    constructor (surface: Surface, localEglImage: Handle, textureObject: Handle, ghost consumerId: ContextID)
      ensures this.surface == surface && this.localEglImage == localEglImage
      ensures this.textureObject == textureObject && this.consumerId == consumerId
    {
      this.surface := surface;
      this.localEglImage := localEglImage;
      this.textureObject := textureObject;
      this.consumerId := consumerId;
    }

    /** An off-screen surface that is live, plus a second image and texture of its own. */
    ghost predicate LiveIn(native: NativeDriver)
      reads this, surface, native
    {
      surface.LiveIn(native) && surface.objects.HardwareBuffer? &&
      Resource(EGLImage, localEglImage) in native.live &&
      Resource(GLTexture, textureObject) in native.live &&
      localEglImage != surface.objects.eglImage &&
      textureObject != surface.objects.textureObject
    }

    /** `gl_texture()`: the consumer context's texture name. */
    function GlTexture(): (t: Handle)
      reads this
      ensures t == textureObject
    {
      textureObject
    }
  }

  class Device {
    const native: NativeDriver

    constructor (native: NativeDriver)
      ensures this.native == native
    {
      this.native := native;
    }

    ghost predicate Valid()
      reads native
    {
      native.Valid()
    }

    method CreateSurface(context: Context, access: SurfaceAccess, surfaceType: SurfaceType,
                         makeCurrent: bool, allocStatus: int)
      returns (r: Result<Surface>)
      requires Valid()
      modifies native
      ensures Valid()
      ensures surfaceType.Generic? ==> (r.Ok? <==> makeCurrent && allocStatus == 0)
      ensures surfaceType.Generic? && !makeCurrent ==> r == Err(MakeCurrentFailed)
      ensures surfaceType.Generic? && makeCurrent && allocStatus != 0 ==> r == Err(SurfaceCreationFailed)
      ensures surfaceType.Generic? && !makeCurrent ==> native.log == old(native.log)
      ensures surfaceType.Generic? && makeCurrent && allocStatus != 0 ==>
        native.log == old(native.log) + [AllocateHardwareBuffer(AsU32(surfaceType.size.width), AsU32(surfaceType.size.height),
                                                                allocStatus, NULL_HANDLE)]
      ensures surfaceType.Widget? ==> r.Ok?
      ensures r.Err? ==> native.live == old(native.live)
      ensures r.Ok? ==>
        fresh(r.value) && r.value.LiveIn(native) && r.value.ContextId() == context.id &&
        r.value.objects.HardwareBuffer? == surfaceType.Generic? &&
        r.value.Size() == (match surfaceType
                           case Generic(size) => size
                           case Widget(widget) => Size2D(widget.nativeWindow.width, widget.nativeWindow.height)) &&
        Resources(r.value.objects) !! old(native.live) &&
        native.live == old(native.live) + Resources(r.value.objects)
      ensures r.Ok? && surfaceType.Generic? ==>
        native.log == old(native.log) + GenericCreationCalls(surfaceType.size, r.value.objects)
      ensures surfaceType.Widget? ==>
        native.log == old(native.log) + [NativeCall.CreateWindowSurface(surfaceType.nativeWidget.nativeWindow.handle,
                                                                        r.value.objects.eglSurface)]
    {
      match surfaceType
      case Generic(size) =>
        r := CreateGenericSurface(context, size, makeCurrent, allocStatus);
      case Widget(widget) =>
        r := CreateWindowSurface(context, widget.nativeWindow);
    }

    method CreateGenericSurface(context: Context, size: Size2D, makeCurrent: bool, allocStatus: int)
      returns (r: Result<Surface>)
      requires Valid()
      modifies native
      ensures Valid()
      ensures r.Ok? <==> makeCurrent && allocStatus == 0
      ensures !makeCurrent ==>
        r == Err(MakeCurrentFailed) && native.log == old(native.log) && native.live == old(native.live)
      ensures makeCurrent && allocStatus != 0 ==>
        r == Err(SurfaceCreationFailed) &&
        native.log == old(native.log) + [AllocateHardwareBuffer(AsU32(size.width), AsU32(size.height), allocStatus, NULL_HANDLE)] &&
        native.live == old(native.live)
      ensures r.Ok? ==>
        fresh(r.value) && r.value.LiveIn(native) &&
        r.value.Size() == size && r.value.ContextId() == context.id &&
        r.value.objects.HardwareBuffer? && !r.value.destroyed &&
        Resources(r.value.objects) !! old(native.live) &&
        native.live == old(native.live) + Resources(r.value.objects) &&
        native.log == old(native.log) + GenericCreationCalls(size, r.value.objects)
    {
      if !makeCurrent {
        return Err(MakeCurrentFailed);
      }
      var result, buffer := native.AHardwareBufferAllocate(size.width, size.height, allocStatus);
      if result != 0 {
        return Err(SurfaceCreationFailed);
      }
      var objects := BuildOnHardwareBuffer(context, size, buffer);
      var surface := new Surface(context.id, size, objects);
      r := Ok(surface);
    }

    /** The steps of the generic path after a successful allocation: import the buffer as an
        image, bind it to a texture, attach that to a new framebuffer, add renderbuffers. */
    method BuildOnHardwareBuffer(context: Context, size: Size2D, buffer: Handle) returns (objects: SurfaceObjects)
      requires Valid() && Resource(AHardwareBuffer, buffer) in native.live
      requires forall r :: r in native.live && r != Resource(AHardwareBuffer, buffer) ==> r.handle < buffer
      requires buffer + 1 == native.nextHandle
      modifies native
      ensures Valid()
      ensures objects.HardwareBuffer? && objects.hardwareBuffer == buffer
      ensures Resources(objects) !! old(native.live) - {Resource(AHardwareBuffer, buffer)}
      ensures native.live == old(native.live) + Resources(objects)
      ensures native.log == old(native.log) + GenericCreationCalls(size, objects)[1..]
    {
      var image := CreateEglImage(context, buffer);
      var texture := native.BindEglImageToGlTexture(image);
      var framebuffer := native.CreateAndBindFramebuffer(texture);
      var renderbuffers := native.RenderbuffersNew(size);
      native.RenderbuffersBind(renderbuffers);
      objects := HardwareBuffer(buffer, image, framebuffer, texture, renderbuffers);
    }

    /** The window path: the surface takes the size the native window reports. */
    method CreateWindowSurface(context: Context, window: NativeWindow) returns (r: Result<Surface>)
      requires Valid()
      modifies native
      ensures Valid()
      ensures r.Ok? && fresh(r.value) && r.value.LiveIn(native)
      ensures r.value.Size() == Size2D(window.width, window.height)
      ensures r.value.ContextId() == context.id
      ensures r.value.objects.Window? && !r.value.destroyed
      ensures Resources(r.value.objects) !! old(native.live)
      ensures native.live == old(native.live) + Resources(r.value.objects)
      ensures native.log == old(native.log) + [NativeCall.CreateWindowSurface(window.handle, r.value.objects.eglSurface)]
    {
      var width, height := window.width, window.height;
      var eglSurface := native.EglCreateWindowSurface(window.handle);
      var surface := new Surface(context.id, Size2D(width, height), Window(eglSurface));
      r := Ok(surface);
    }

    /** `create_egl_image`: import a hardware buffer as an EGL image. */
    method CreateEglImage(context: Context, hardwareBuffer: Handle) returns (image: Handle)
      requires Valid() && Resource(AHardwareBuffer, hardwareBuffer) in native.live
      modifies native
      ensures Valid() && image == old(native.nextHandle) && native.nextHandle == image + 1
      ensures native.log == old(native.log) + [CreateImage(hardwareBuffer, image)]
      ensures native.live == old(native.live) + {Resource(EGLImage, image)}
    {
      image := native.EglCreateImage(hardwareBuffer);
    }

    /** Takes the surface by value. A window surface, and an off-screen surface whose context
        cannot be made current, are dropped un-destroyed on the way out, so the call panics. */
    method CreateSurfaceTexture(context: Context, surface: Surface, makeCurrent: bool)
      returns (o: Outcome<SurfaceTexture>)
      requires Valid() && surface.LiveIn(native)
      modifies native
      ensures Valid() && unchanged(surface)
      ensures surface.objects.Window? ==>
        o == Panicked(SurfaceNotDestroyed) && native.log == old(native.log) && native.live == old(native.live)
      ensures surface.objects.HardwareBuffer? && !makeCurrent ==>
        o == Panicked(SurfaceNotDestroyed) && native.log == old(native.log) && native.live == old(native.live)
      ensures surface.objects.HardwareBuffer? && makeCurrent ==>
        o.Returned? && o.result.Ok? && fresh(o.result.value) &&
        o.result.value.surface == surface && o.result.value.LiveIn(native) &&
        o.result.value.consumerId == context.id &&
        Resource(EGLImage, o.result.value.localEglImage) !in old(native.live) &&
        Resource(GLTexture, o.result.value.textureObject) !in old(native.live) &&
        native.live == old(native.live) + {Resource(EGLImage, o.result.value.localEglImage),
                                           Resource(GLTexture, o.result.value.textureObject)} &&
        native.log == old(native.log) + SurfaceTextureCalls(surface.objects.hardwareBuffer,
                                                            o.result.value.localEglImage,
                                                            o.result.value.textureObject)
    {
      match surface.objects
      case Window(_) =>
        var panics := surface.Drop(false);
        o := if panics then Panicked(SurfaceNotDestroyed) else Returned(Err(WidgetAttached));
      case HardwareBuffer(buffer, _, _, _, _) =>
        if !makeCurrent {
          var panics := surface.Drop(false);
          o := if panics then Panicked(SurfaceNotDestroyed) else Returned(Err(MakeCurrentFailed));
          return;
        }
        assert Resource(AHardwareBuffer, buffer) in Resources(surface.objects);
        var localImage := CreateEglImage(context, buffer);
        var texture := native.BindEglImageToGlTexture(localImage);
        var surfaceTexture := new SurfaceTexture(surface, localImage, texture, context.id);
        o := Returned(Ok(surfaceTexture));
    }

    method PresentSurface(context: Context, surface: Surface) returns (r: Result<()>)
      requires Valid() && surface.LiveIn(native)
      modifies native
      ensures Valid() && native.live == old(native.live)
      ensures surface.objects.Window? ==>
        r == Ok(()) && native.log == old(native.log) + [SwapBuffers(surface.objects.eglSurface)]
      ensures surface.objects.HardwareBuffer? ==>
        r == Err(NoWidgetAttached) && native.log == old(native.log)
    {
      r := PresentSurfaceWithoutContext(surface);
    }

    /** One buffer swap for a window surface; nothing for an off-screen one. */
    method PresentSurfaceWithoutContext(surface: Surface) returns (r: Result<()>)
      requires Valid() && surface.LiveIn(native)
      modifies native
      ensures Valid() && native.live == old(native.live)
      ensures surface.objects.Window? ==>
        r == Ok(()) && native.log == old(native.log) + [SwapBuffers(surface.objects.eglSurface)]
      ensures surface.objects.HardwareBuffer? ==>
        r == Err(NoWidgetAttached) && native.log == old(native.log)
    {
      match surface.objects
      case Window(eglSurface) =>
        assert Resource(EGLSurface, eglSurface) in Resources(surface.objects);
        native.EglSwapBuffers(eglSurface);
        r := Ok(());
      case HardwareBuffer(_, _, _, _, _) =>
        r := Err(NoWidgetAttached);
    }

    /** Takes the surface by value. With the wrong context the surface is marked destroyed and its
        resources are leaked on purpose; otherwise it is torn down in a fixed order. Either way the
        surface is then dropped, and that drop does not fault. */
    method DestroySurface(context: Context, surface: Surface) returns (r: Result<()>)
      requires Valid() && surface.LiveIn(native)
      modifies native, surface
      ensures Valid()
      ensures surface.destroyed
      ensures surface.contextId == old(surface.contextId) && surface.size == old(surface.size)
      ensures context.id != old(surface.contextId) ==>
        r == Err(IncompatibleSurface) && surface.objects == old(surface.objects) &&
        native.log == old(native.log) && native.live == old(native.live)
      ensures context.id == old(surface.contextId) ==>
        r == Ok(()) && surface.objects == Zeroed(old(surface.objects)) && surface.Id() == NULL_HANDLE &&
        native.log == old(native.log) + TeardownCalls(old(surface.objects)) &&
        native.live == old(native.live) - Resources(old(surface.objects))
    {
      if context.id != surface.contextId {
        surface.destroyed := true;
        r := Err(IncompatibleSurface);
      } else {
        match surface.objects {
          case HardwareBuffer(_, _, _, _, _) =>
            TearDownHardwareBuffer(surface);
          case Window(eglSurface) =>
            assert Resource(EGLSurface, eglSurface) in Resources(surface.objects);
            native.EglDestroySurface(eglSurface);
            surface.objects := Window(NULL_HANDLE);
        }
        surface.destroyed := true;
        r := Ok(());
      }
      var panics := surface.Drop(false);
      assert !panics;
    }

    /** The off-screen branch of `DestroySurface`: unbind and delete the framebuffer, destroy the
        renderbuffers, delete the texture, destroy the image, release the buffer, clearing each
        handle of the surface as its object goes. */
    method TearDownHardwareBuffer(surface: Surface)
      requires Valid() && surface.objects.HardwareBuffer? && Resources(surface.objects) <= native.live
      modifies native, surface
      ensures Valid()
      ensures surface.contextId == old(surface.contextId) && surface.size == old(surface.size)
      ensures surface.destroyed == old(surface.destroyed)
      ensures surface.objects == Zeroed(old(surface.objects))
      ensures native.log == old(native.log) + TeardownCalls(old(surface.objects))
      ensures native.live == old(native.live) - Resources(old(surface.objects))
    {
      var HardwareBuffer(buffer, image, framebuffer, texture, renderbuffers) := surface.objects;
      assert Resource(GLFramebuffer, framebuffer) in Resources(surface.objects);
      assert Resource(GLRenderbuffers, renderbuffers) in Resources(surface.objects);
      assert Resource(GLTexture, texture) in Resources(surface.objects);
      assert Resource(EGLImage, image) in Resources(surface.objects);
      assert Resource(AHardwareBuffer, buffer) in Resources(surface.objects);
      native.GlBindFramebuffer(NULL_HANDLE);
      native.GlDeleteFramebuffer(framebuffer);
      surface.objects := surface.objects.(framebufferObject := NULL_HANDLE);
      native.RenderbuffersDestroy(renderbuffers);
      ReleaseImportedBuffer(surface);
      assert [BindFramebuffer(NULL_HANDLE), DeleteFramebuffer(framebuffer), DestroyRenderbuffers(renderbuffers)] +
             [DeleteTexture(texture), DestroyImage(image), ReleaseHardwareBuffer(buffer)]
          == TeardownCalls(old(surface.objects));
    }

    /** The second half of `TearDownHardwareBuffer`: delete the texture, destroy the image, release
        the buffer, clearing each handle as its object goes. */
    method ReleaseImportedBuffer(surface: Surface)
      requires Valid() && surface.objects.HardwareBuffer?
      requires Resource(GLTexture, surface.objects.textureObject) in native.live
      requires Resource(EGLImage, surface.objects.eglImage) in native.live
      requires Resource(AHardwareBuffer, surface.objects.hardwareBuffer) in native.live
      modifies native, surface
      ensures Valid()
      ensures surface.contextId == old(surface.contextId) && surface.size == old(surface.size)
      ensures surface.destroyed == old(surface.destroyed)
      ensures surface.objects == old(surface.objects).(textureObject := NULL_HANDLE, eglImage := NULL_HANDLE,
                                                       hardwareBuffer := NULL_HANDLE)
      ensures native.log == old(native.log) + [DeleteTexture(old(surface.objects.textureObject)),
                                               DestroyImage(old(surface.objects.eglImage)),
                                               ReleaseHardwareBuffer(old(surface.objects.hardwareBuffer))]
      ensures native.live == old(native.live) - {Resource(GLTexture, old(surface.objects.textureObject)),
                                                 Resource(EGLImage, old(surface.objects.eglImage)),
                                                 Resource(AHardwareBuffer, old(surface.objects.hardwareBuffer))}
    {
      native.GlDeleteTexture(surface.objects.textureObject);
      surface.objects := surface.objects.(textureObject := NULL_HANDLE);
      var ok := native.EglDestroyImage(surface.objects.eglImage);
      assert ok;
      surface.objects := surface.objects.(eglImage := NULL_HANDLE);
      native.AHardwareBufferRelease(surface.objects.hardwareBuffer);
      surface.objects := surface.objects.(hardwareBuffer := NULL_HANDLE);
    }

    /** Takes the surface texture by value. Releases the second texture and image and hands the
        embedded surface back, untouched. The texture deletion goes to the context made current:
        when that is not the consumer context the texture was made in (the make-current failed,
        which is ignored, or the caller passed another context), the texture leaks. The image,
        which belongs to the display, is destroyed either way. */
    method DestroySurfaceTexture(context: Context, surfaceTexture: SurfaceTexture, makeCurrent: bool)
      returns (r: Result<Surface>)
      requires Valid() && surfaceTexture.LiveIn(native)
      modifies native, surfaceTexture
      ensures Valid()
      ensures r == Ok(surfaceTexture.surface)
      ensures unchanged(surfaceTexture.surface) && surfaceTexture.surface.LiveIn(native)
      ensures surfaceTexture.textureObject == NULL_HANDLE && surfaceTexture.localEglImage == NULL_HANDLE
      ensures makeCurrent && context.id == surfaceTexture.consumerId ==>
        native.log == old(native.log) + SurfaceTextureTeardownCalls(old(surfaceTexture.localEglImage),
                                                                    old(surfaceTexture.textureObject)) &&
        native.live == old(native.live) - {Resource(GLTexture, old(surfaceTexture.textureObject)),
                                           Resource(EGLImage, old(surfaceTexture.localEglImage))}
      ensures !(makeCurrent && context.id == surfaceTexture.consumerId) ==>
        native.log == old(native.log) + StrayTeardownCalls(old(surfaceTexture.localEglImage),
                                                           old(surfaceTexture.textureObject)) &&
        native.live == old(native.live) - {Resource(EGLImage, old(surfaceTexture.localEglImage))} &&
        Resource(GLTexture, old(surfaceTexture.textureObject)) in native.live
    {
      native.GlDeleteTextureInCurrentContext(surfaceTexture.textureObject,
                                             makeCurrent && context.id == surfaceTexture.consumerId);
      surfaceTexture.textureObject := NULL_HANDLE;
      var ok := native.EglDestroyImage(surfaceTexture.localEglImage);
      assert ok;
      surfaceTexture.localEglImage := NULL_HANDLE;
      r := Ok(surfaceTexture.surface);
    }

    /** CPU access to a surface's pixels is not offered on this platform. */
    function LockSurfaceData(surface: Surface): (r: Result<SurfaceDataGuard>)
      ensures r.Err? && r.error == Unimplemented
    {
      Err(Unimplemented)
    }
  }
}
