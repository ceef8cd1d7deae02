/** The native layer underneath the Android surface code, as this model sees it.
    Every EGL, GL and Android call becomes an entry in an ordered call log; the set of live
    native resources is what replaying that log leaves behind. Handles are opaque numbers and
    0 stands for every "no object" value (null pointer, EGL_NO_IMAGE_KHR, EGL_NO_SURFACE, GL name 0). */
module Native {

  type Handle = nat

  const NULL_HANDLE: Handle := 0

  newtype i32 = x: int | -0x8000_0000 <= x < 0x8000_0000

  /** `euclid::default::Size2D<i32>` */
  datatype Size2D = Size2D(width: i32, height: i32)

  /** Rust's `x as u32` on an `i32`: the same 32 bits read as unsigned. */
  function AsU32(x: i32): (u: nat)
    ensures u < 0x1_0000_0000
    ensures 0 <= x ==> u == x as int
    ensures x < 0 ==> u == x as int + 0x1_0000_0000
  {
    (x as int) % 0x1_0000_0000
  }

  datatype ResourceKind =
    | AHardwareBuffer
    | EGLImage
    | GLTexture
    | GLFramebuffer
    | GLRenderbuffers
    | EGLSurface

  datatype Resource = Resource(kind: ResourceKind, handle: Handle)

  /** One native call, with the handles it takes and the handle it hands back. */
  datatype NativeCall =
    | AllocateHardwareBuffer(descWidth: nat, descHeight: nat, status: int, buffer: Handle)
    | CreateImage(buffer: Handle, image: Handle)
    | BindImageToTexture(image: Handle, texture: Handle)
    | CreateFramebuffer(texture: Handle, framebuffer: Handle)
    | CreateRenderbuffers(size: Size2D, renderbuffers: Handle)
    | AttachRenderbuffers(renderbuffers: Handle)
    | CreateWindowSurface(window: Handle, surface: Handle)
    | SwapBuffers(surface: Handle)
    | BindFramebuffer(framebuffer: Handle)
    | DeleteFramebuffer(framebuffer: Handle)
    | DestroyRenderbuffers(renderbuffers: Handle)
    | DeleteTexture(texture: Handle)
      /* `glDeleteTextures` issued while some other context is current: that context's name
         space is not modelled, so the call releases none of the resources tracked here. */
    | DeleteTextureElsewhere(texture: Handle)
    | DestroyImage(image: Handle)
    | ReleaseHardwareBuffer(buffer: Handle)
    | DestroyWindowSurface(surface: Handle)

  /** The resources a call brings into existence. A failed allocation creates nothing. */
  function Created(c: NativeCall): set<Resource> {
    match c
    case AllocateHardwareBuffer(_, _, status, buffer) =>
      if status == 0 then {Resource(AHardwareBuffer, buffer)} else {}
    case CreateImage(_, image) => {Resource(EGLImage, image)}
    case BindImageToTexture(_, texture) => {Resource(GLTexture, texture)}
    case CreateFramebuffer(_, framebuffer) => {Resource(GLFramebuffer, framebuffer)}
    case CreateRenderbuffers(_, renderbuffers) => {Resource(GLRenderbuffers, renderbuffers)}
    case CreateWindowSurface(_, surface) => {Resource(EGLSurface, surface)}
    case _ => {}
  }

  /** The resources a call gives back to the driver. */
  function Released(c: NativeCall): set<Resource> {
    match c
    case DeleteFramebuffer(framebuffer) => {Resource(GLFramebuffer, framebuffer)}
    case DestroyRenderbuffers(renderbuffers) => {Resource(GLRenderbuffers, renderbuffers)}
    case DeleteTexture(texture) => {Resource(GLTexture, texture)}
    case DestroyImage(image) => {Resource(EGLImage, image)}
    case ReleaseHardwareBuffer(buffer) => {Resource(AHardwareBuffer, buffer)}
    case DestroyWindowSurface(surface) => {Resource(EGLSurface, surface)}
    case _ => {}
  }

  /** The resources a call operates on; each must be live when the call is made.
      Binding framebuffer 0 (the default framebuffer) needs no resource. */
  function Uses(c: NativeCall): set<Resource> {
    match c
    case CreateImage(buffer, _) => {Resource(AHardwareBuffer, buffer)}
    case BindImageToTexture(image, _) => {Resource(EGLImage, image)}
    case CreateFramebuffer(texture, _) => {Resource(GLTexture, texture)}
    case AttachRenderbuffers(renderbuffers) => {Resource(GLRenderbuffers, renderbuffers)}
    case SwapBuffers(surface) => {Resource(EGLSurface, surface)}
    case BindFramebuffer(framebuffer) =>
      if framebuffer == NULL_HANDLE then {} else {Resource(GLFramebuffer, framebuffer)}
    case _ => Released(c)
  }

  /** A call is allowed when what it uses is live and what it creates is not already live. */
  predicate Allowed(live: set<Resource>, c: NativeCall) {
    Uses(c) <= live && Created(c) !! live
  }

  function Apply(live: set<Resource>, c: NativeCall): set<Resource> {
    live - Released(c) + Created(c)
  }

  /** The live resources after issuing `calls`, in order, starting from `live`. */
  function Replay(live: set<Resource>, calls: seq<NativeCall>): set<Resource>
    decreases |calls|
  {
    if calls == [] then live else Replay(Apply(live, calls[0]), calls[1..])
  }

  /** Every call of `calls`, issued in order from `live`, is allowed when it is made:
      nothing is used after it was released, nothing is created twice. */
  predicate Sound(live: set<Resource>, calls: seq<NativeCall>)
    decreases |calls|
  {
    calls == [] || (Allowed(live, calls[0]) && Sound(Apply(live, calls[0]), calls[1..]))
  }

  lemma {:induction false} ReplayAppend(live: set<Resource>, a: seq<NativeCall>, b: seq<NativeCall>)
    ensures Replay(live, a + b) == Replay(Replay(live, a), b)
    decreases |a|
  {
    if a == [] {
      assert a + b == b;
    } else {
      assert (a + b)[0] == a[0];
      assert (a + b)[1..] == a[1..] + b;
      ReplayAppend(Apply(live, a[0]), a[1..], b);
    }
  }

  lemma {:induction false} SoundAppend(live: set<Resource>, a: seq<NativeCall>, b: seq<NativeCall>)
    ensures Sound(live, a + b) <==> Sound(live, a) && Sound(Replay(live, a), b)
    decreases |a|
  {
    if a == [] {
      assert a + b == b;
    } else {
      assert (a + b)[0] == a[0];
      assert (a + b)[1..] == a[1..] + b;
      SoundAppend(Apply(live, a[0]), a[1..], b);
    }
  }

  /** Issuing an allowed call `c` that leaves `next` live, and then `rest`, is sound exactly when
      `rest` is sound from `next`; and it leaves what `rest` leaves from there. */
  lemma Step(live: set<Resource>, c: NativeCall, next: set<Resource>, rest: seq<NativeCall>)
    requires Allowed(live, c) && Apply(live, c) == next
    ensures Sound(live, [c] + rest) == Sound(next, rest)
    ensures Replay(live, [c] + rest) == Replay(next, rest)
  {
  }

  /** A one-call sequence is sound exactly when the call is allowed, and leaves `Apply` behind. */
  lemma Single(live: set<Resource>, c: NativeCall)
    ensures Sound(live, [c]) == Allowed(live, c)
    ensures Replay(live, [c]) == Apply(live, c)
  {
  }

  /** Issuing `calls` and then `c` in order is sound, and leaves `Apply` of `c` behind. */
  lemma SoundSnoc(live: set<Resource>, calls: seq<NativeCall>, c: NativeCall)
    requires Sound(live, calls)
    requires Allowed(Replay(live, calls), c)
    ensures Sound(live, calls + [c])
    ensures Replay(live, calls + [c]) == Apply(Replay(live, calls), c)
  {
    SoundAppend(live, calls, [c]);
    ReplayAppend(live, calls, [c]);
    Single(Replay(live, calls), c);
  }

  /** The platform: EGL display, GL functions and the Android buffer allocator.
      `log` is every call made so far, `live` the resources that exist now. */
  class NativeDriver {
    ghost var log: seq<NativeCall>
    ghost var live: set<Resource>
    var nextHandle: Handle

    ghost predicate Valid()
      reads this
    {
      0 < nextHandle &&
      live == Replay({}, log) &&
      Sound({}, log) &&
      forall r :: r in live ==> 0 < r.handle < nextHandle
    }

    constructor ()
      ensures Valid() && log == [] && live == {}
    {
      log, live, nextHandle := [], {}, 1;
    }

    ghost method Record(c: NativeCall)
      requires Valid() && Allowed(live, c)
      requires forall r :: r in Created(c) ==> 0 < r.handle < nextHandle
      modifies this
      ensures Valid() && nextHandle == old(nextHandle)
      ensures log == old(log) + [c] && live == Apply(old(live), c)
    {
      SoundSnoc({}, log, c);
      log := log + [c];
      live := Apply(live, c);
    }

    /** A handle no live resource has. */
    method NewHandle() returns (h: Handle)
      requires Valid()
      modifies this
      ensures Valid() && h == old(nextHandle) && nextHandle == h + 1
      ensures log == old(log) && live == old(live)
    {
      h := nextHandle;
      nextHandle := nextHandle + 1;
    }

    /** `AHardwareBuffer_allocate`: `status` is the platform's answer; 0 means success. */
    method AHardwareBufferAllocate(width: i32, height: i32, status: int) returns (result: int, buffer: Handle)
      requires Valid()
      modifies this
      ensures Valid() && result == status
      ensures status == 0 ==> buffer == old(nextHandle) && nextHandle == buffer + 1
      ensures status != 0 ==> buffer == NULL_HANDLE && nextHandle == old(nextHandle)
      ensures log == old(log) + [AllocateHardwareBuffer(AsU32(width), AsU32(height), status, buffer)]
      ensures live == old(live) + (if status == 0 then {Resource(AHardwareBuffer, buffer)} else {})
    {
      result := status;
      buffer := NULL_HANDLE;
      if status == 0 {
        buffer := NewHandle();
      }
      Record(AllocateHardwareBuffer(AsU32(width), AsU32(height), status, buffer));
    }

    /** `eglGetNativeClientBufferANDROID` followed by `CreateImageKHR`. */
    method EglCreateImage(buffer: Handle) returns (image: Handle)
      requires Valid() && Resource(AHardwareBuffer, buffer) in live
      modifies this
      ensures Valid() && image == old(nextHandle) && nextHandle == image + 1
      ensures log == old(log) + [CreateImage(buffer, image)]
      ensures live == old(live) + {Resource(EGLImage, image)}
    {
      image := NewHandle();
      Record(CreateImage(buffer, image));
    }

    /** `bind_egl_image_to_gl_texture`: a new texture whose storage is the image. */
    method BindEglImageToGlTexture(image: Handle) returns (texture: Handle)
      requires Valid() && Resource(EGLImage, image) in live
      modifies this
      ensures Valid() && texture == old(nextHandle) && nextHandle == texture + 1
      ensures log == old(log) + [BindImageToTexture(image, texture)]
      ensures live == old(live) + {Resource(GLTexture, texture)}
    {
      texture := NewHandle();
      Record(BindImageToTexture(image, texture));
    }

    /** `create_and_bind_framebuffer`: a new framebuffer with the texture attached. */
    method CreateAndBindFramebuffer(texture: Handle) returns (framebuffer: Handle)
      requires Valid() && Resource(GLTexture, texture) in live
      modifies this
      ensures Valid() && framebuffer == old(nextHandle) && nextHandle == framebuffer + 1
      ensures log == old(log) + [CreateFramebuffer(texture, framebuffer)]
      ensures live == old(live) + {Resource(GLFramebuffer, framebuffer)}
    {
      framebuffer := NewHandle();
      Record(CreateFramebuffer(texture, framebuffer));
    }

    /** `Renderbuffers::new`: the depth/stencil attachments, one opaque set. */
    method RenderbuffersNew(size: Size2D) returns (renderbuffers: Handle)
      requires Valid()
      modifies this
      ensures Valid() && renderbuffers == old(nextHandle) && nextHandle == renderbuffers + 1
      ensures log == old(log) + [CreateRenderbuffers(size, renderbuffers)]
      ensures live == old(live) + {Resource(GLRenderbuffers, renderbuffers)}
    {
      renderbuffers := NewHandle();
      Record(CreateRenderbuffers(size, renderbuffers));
    }

    /** `Renderbuffers::bind_to_current_framebuffer` */
    method RenderbuffersBind(renderbuffers: Handle)
      requires Valid() && Resource(GLRenderbuffers, renderbuffers) in live
      modifies this
      ensures Valid() && nextHandle == old(nextHandle)
      ensures log == old(log) + [AttachRenderbuffers(renderbuffers)]
      ensures live == old(live)
    {
      Record(AttachRenderbuffers(renderbuffers));
    }

    /** `eglCreateWindowSurface` on a native window. */
    method EglCreateWindowSurface(window: Handle) returns (surface: Handle)
      requires Valid()
      modifies this
      ensures Valid() && surface == old(nextHandle) && nextHandle == surface + 1
      ensures log == old(log) + [CreateWindowSurface(window, surface)]
      ensures live == old(live) + {Resource(EGLSurface, surface)}
    {
      surface := NewHandle();
      Record(CreateWindowSurface(window, surface));
    }

    /** `eglSwapBuffers` */
    method EglSwapBuffers(surface: Handle)
      requires Valid() && Resource(EGLSurface, surface) in live
      modifies this
      ensures Valid() && nextHandle == old(nextHandle)
      ensures log == old(log) + [SwapBuffers(surface)]
      ensures live == old(live)
    {
      Record(SwapBuffers(surface));
    }

    /** `glBindFramebuffer(GL_FRAMEBUFFER, framebuffer)`; 0 is the default framebuffer. */
    method GlBindFramebuffer(framebuffer: Handle)
      requires Valid()
      requires framebuffer != NULL_HANDLE ==> Resource(GLFramebuffer, framebuffer) in live
      modifies this
      ensures Valid() && nextHandle == old(nextHandle)
      ensures log == old(log) + [BindFramebuffer(framebuffer)]
      ensures live == old(live)
    {
      Record(BindFramebuffer(framebuffer));
    }

    /** `glDeleteFramebuffers(1, &framebuffer)` */
    method GlDeleteFramebuffer(framebuffer: Handle)
      requires Valid() && Resource(GLFramebuffer, framebuffer) in live
      modifies this
      ensures Valid() && nextHandle == old(nextHandle)
      ensures log == old(log) + [DeleteFramebuffer(framebuffer)]
      ensures live == old(live) - {Resource(GLFramebuffer, framebuffer)}
    {
      Record(DeleteFramebuffer(framebuffer));
    }

    /** `Renderbuffers::destroy` */
    method RenderbuffersDestroy(renderbuffers: Handle)
      requires Valid() && Resource(GLRenderbuffers, renderbuffers) in live
      modifies this
      ensures Valid() && nextHandle == old(nextHandle)
      ensures log == old(log) + [DestroyRenderbuffers(renderbuffers)]
      ensures live == old(live) - {Resource(GLRenderbuffers, renderbuffers)}
    {
      Record(DestroyRenderbuffers(renderbuffers));
    }

    /** `glDeleteTextures(1, &texture)` */
    method GlDeleteTexture(texture: Handle)
      requires Valid() && Resource(GLTexture, texture) in live
      modifies this
      ensures Valid() && nextHandle == old(nextHandle)
      ensures log == old(log) + [DeleteTexture(texture)]
      ensures live == old(live) - {Resource(GLTexture, texture)}
    {
      Record(DeleteTexture(texture));
    }

    /** `glDeleteTextures(1, &texture)` in whatever context is current. Only when that is the
        context owning the texture (`ownerCurrent`) is the texture released; otherwise the call
        reaches another context's names and the texture stays live. */
    method GlDeleteTextureInCurrentContext(texture: Handle, ghost ownerCurrent: bool)
      requires Valid() && (ownerCurrent ==> Resource(GLTexture, texture) in live)
      modifies this
      ensures Valid() && nextHandle == old(nextHandle)
      ensures ownerCurrent ==>
        log == old(log) + [DeleteTexture(texture)] && live == old(live) - {Resource(GLTexture, texture)}
      ensures !ownerCurrent ==>
        log == old(log) + [DeleteTextureElsewhere(texture)] && live == old(live)
    {
      if ownerCurrent {
        Record(DeleteTexture(texture));
      } else {
        Record(DeleteTextureElsewhere(texture));
        assert Apply(old(live), DeleteTextureElsewhere(texture)) == old(live);
      }
    }

    /** `DestroyImageKHR`. The driver is taken to answer EGL_TRUE for every live image, so the
        result is always true; what callers prove is that the image they pass is live. */
    method EglDestroyImage(image: Handle) returns (ok: bool)
      requires Valid() && Resource(EGLImage, image) in live
      modifies this
      ensures Valid() && nextHandle == old(nextHandle) && ok
      ensures log == old(log) + [DestroyImage(image)]
      ensures live == old(live) - {Resource(EGLImage, image)}
    {
      Record(DestroyImage(image));
      ok := true;
    }

    /** `AHardwareBuffer_release` */
    method AHardwareBufferRelease(buffer: Handle)
      requires Valid() && Resource(AHardwareBuffer, buffer) in live
      modifies this
      ensures Valid() && nextHandle == old(nextHandle)
      ensures log == old(log) + [ReleaseHardwareBuffer(buffer)]
      ensures live == old(live) - {Resource(AHardwareBuffer, buffer)}
    {
      Record(ReleaseHardwareBuffer(buffer));
    }

    /** `eglDestroySurface` */
    method EglDestroySurface(surface: Handle)
      requires Valid() && Resource(EGLSurface, surface) in live
      modifies this
      ensures Valid() && nextHandle == old(nextHandle)
      ensures log == old(log) + [DestroyWindowSurface(surface)]
      ensures live == old(live) - {Resource(EGLSurface, surface)}
    {
      Record(DestroyWindowSurface(surface));
    }
  }
}
