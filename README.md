# Android surfaces in surfman, modelled in Dafny

This project models the surface lifecycle of surfman's Android back end
(`surfman/src/platform/android/surface.rs`). It covers:

- how a `Device` creates a `Surface`. The surface is either off-screen, backed by an
  `AHardwareBuffer` imported as an EGL image with a texture, a framebuffer and renderbuffers, or
  backed by an `ANativeWindow` through an EGL window surface;
- how an off-screen surface is shared with a second context as a `SurfaceTexture`;
- how a window surface is presented;
- how both are torn down, in a fixed order of native calls that zeroes each handle;
- the `destroyed` flag that makes dropping an un-destroyed surface a panic.

## How it is built

- `native.dfy`, module `Native`: the native layer as an abstract driver, `NativeDriver`.
  - Every EGL, GL and Android call is appended to a ghost call log `log`.
  - The live native resources `live` are what replaying the log leaves behind (`Replay`).
  - `Valid()` also holds `Sound({}, log)`: no call ever used a resource that was not live, and
    no call created a resource that was already live. So there is no use after release and no
    double release.
  - Soundness does not depend on the order of the calls: no resource depends on another, so a
    reordered teardown is just as sound. The order is stated only by `TeardownCalls` and by the
    log ensures of `Device.DestroySurface`.
  - Handles are numbers. 0 is every "no object" value (null, `EGL_NO_IMAGE_KHR`,
    `EGL_NO_SURFACE`, GL name 0). New handles come from a counter, so they are never live already.
- `surface.dfy`, module `AndroidSurface`: the source file itself.
  - `SurfaceObjects` is the tagged union.
  - `Surface` and `SurfaceTexture` are classes, because `destroy_surface` and
    `destroy_surface_texture` update their fields in place.
  - `Device` holds the driver. It has one method per core `Device` function, plus helpers that split
    `create_generic_surface` (`BuildOnHardwareBuffer`) and `destroy_surface`
    (`TearDownHardwareBuffer`, `ReleaseImportedBuffer`).
  - `SurfaceTexture` has a ghost `consumerId`: the context its texture was made in. The Rust value
    does not record it, but it decides whether `destroy_surface_texture` releases the texture.
  - `GenericCreationCalls`, `TeardownCalls`, `SurfaceTextureCalls` and
    `SurfaceTextureTeardownCalls` are the exact native call sequences. The lemmas about them state
    what each sequence does to the live resources.
- `scenarios.dfy`, module `Scenarios`: callers that use only the `Device` contracts. They show the
  full round trips and the concrete cases (64x64, 800x600, wrong context).

Some outcomes are decided by the platform, not by this code. They are parameters:

- `allocStatus` is the status `AHardwareBuffer_allocate` returns.
- `makeCurrent` says whether `temporarily_make_context_current` succeeds.
- `NativeWindow.width` and `NativeWindow.height` are what `ANativeWindow_getWidth` and
  `ANativeWindow_getHeight` report.

`Surface.LiveIn(native)` is the precondition of every state-changing operation that takes a surface. It says
the surface is not destroyed and all its resources are live. In Rust this holds for every
`Surface` value a caller can own. `destroyed` is only set inside `destroy_surface`, which consumes
the value.

The accessors `Surface.Size`, `Surface.ContextId` and `SurfaceTexture.GlTexture` read one field
each. `Surface.Id` matches on the variant and returns the handle of the primary resource: the EGL
image of an off-screen surface, the EGL surface of a window surface (`surface.rs:340-363`). What
they return after each operation is stated in the contracts of the creation and destruction
methods, and in `IdNamesLivePrimaryResource`.

## Model

| member | source | states |
|---|---|---|
| `Native.AsU32` | surfman/src/platform/android/surface.rs:104-105 | the buffer descriptor gets the i32 width and height reinterpreted as u32: unchanged when non-negative, plus 2^32 when negative |
| `Native.NativeDriver.AHardwareBufferAllocate` | surfman/src/platform/android/surface.rs:115-119 | status 0 creates exactly one new hardware buffer with a fresh non-null handle; any other status leaves the pointer null and creates nothing; the call is logged with the descriptor's u32 dimensions |
| `Native.NativeDriver.EglCreateImage` | surfman/src/platform/android/surface.rs:229-247 | importing a live hardware buffer creates exactly one new, non-null EGL image |
| `Native.NativeDriver.BindEglImageToGlTexture` | surfman/src/platform/android/surface.rs:125-126 | binding a live image creates exactly one new texture |
| `Native.NativeDriver.CreateAndBindFramebuffer` | surfman/src/platform/android/surface.rs:129-132 | attaching a live texture creates exactly one new framebuffer |
| `Native.NativeDriver.RenderbuffersNew` | surfman/src/platform/android/surface.rs:137 | creates exactly one new renderbuffer set of the surface's size |
| `Native.NativeDriver.RenderbuffersBind` | surfman/src/platform/android/surface.rs:138 | attaching a live renderbuffer set creates and releases nothing |
| `Native.NativeDriver.EglCreateWindowSurface` | surfman/src/platform/android/surface.rs:169-173 | creates exactly one new, non-null EGL window surface for the native window |
| `Native.NativeDriver.EglSwapBuffers` | surfman/src/platform/android/surface.rs:217 | a swap on a live window surface is logged once and changes no resource |
| `Native.NativeDriver.GlBindFramebuffer` | surfman/src/platform/android/surface.rs:268 | binding the default framebuffer needs no resource and changes none |
| `Native.NativeDriver.GlDeleteFramebuffer` | surfman/src/platform/android/surface.rs:269 | releases exactly the live framebuffer |
| `Native.NativeDriver.RenderbuffersDestroy` | surfman/src/platform/android/surface.rs:271 | releases exactly the live renderbuffer set |
| `Native.NativeDriver.GlDeleteTexture` | surfman/src/platform/android/surface.rs:273 | releases exactly the live texture |
| `Native.NativeDriver.GlDeleteTextureInCurrentContext` | surfman/src/platform/android/surface.rs:303-306 | a texture deletion in the current context releases the texture exactly when that context owns it; otherwise it is logged as reaching another context, releases nothing, and the texture stays live |
| `Native.NativeDriver.EglDestroyImage` | surfman/src/platform/android/surface.rs:276-280 | destroying a live image releases exactly that image. The driver is taken to answer `EGL_TRUE` for a live image, so the result is always true |
| `Native.NativeDriver.AHardwareBufferRelease` | surfman/src/platform/android/surface.rs:282 | releases exactly the live hardware buffer |
| `Native.NativeDriver.EglDestroySurface` | surfman/src/platform/android/surface.rs:288 | releases exactly the live window surface |
| `AndroidSurface.GenericCreationAddsExactly` | surfman/src/platform/android/surface.rs:115-138 | the native calls of a successful off-screen creation are sound and add exactly the five resources the surface owns |
| `AndroidSurface.TeardownReleasesExactly` | surfman/src/platform/android/surface.rs:258-293 | the teardown sequence of either variant never touches a released resource and releases exactly the resources the surface owns, nothing else |
| `AndroidSurface.HardwareBufferTeardown` | surfman/src/platform/android/surface.rs:267-283 | the off-screen teardown (unbind, delete framebuffer, destroy renderbuffers, delete texture, destroy image, release buffer) starting from live resources is sound and releases exactly the five resources of the surface |
| `AndroidSurface.HardwareBufferRelease` | surfman/src/platform/android/surface.rs:273-282 | deleting the texture, destroying the image and releasing the buffer, each live, is sound and releases exactly those three |
| `AndroidSurface.StrayTeardownLeaksTexture` | surfman/src/platform/android/surface.rs:303-313 | releasing a surface texture while its context is not current is sound, releases only the image and leaves the texture live |
| `AndroidSurface.SurfaceTextureRoundTrip` | surfman/src/platform/android/surface.rs:299-319 | importing a live buffer into a second context and then destroying that import is sound and leaves the live resources as they were |
| `AndroidSurface.GenericLifecycleLeavesNothing` | surfman/src/platform/android/surface.rs:95-319 | create, share, unshare and destroy of an off-screen surface, as one call sequence, is sound and leaks no native resource |
| `AndroidSurface.IdNamesLivePrimaryResource` | surfman/src/platform/android/surface.rs:346-351 | a held surface's id is non-zero and is the handle of its live EGL image (off-screen) or live EGL surface (window) |
| `AndroidSurface.Surface.constructor` | surfman/src/platform/android/surface.rs:143-154 | a new surface has the given context id, size and objects, and is not destroyed |
| `AndroidSurface.Surface.Drop` | surfman/src/platform/android/surface.rs:67-73 | dropping a surface panics exactly when it is not destroyed and the thread is not already panicking |
| `AndroidSurface.Surface.Size` | surfman/src/platform/android/surface.rs:341-344 | the size the surface was created with |
| `AndroidSurface.Surface.ContextId` | surfman/src/platform/android/surface.rs:353-356 | the id of the context that created the surface |
| `AndroidSurface.Surface.Id` | surfman/src/platform/android/surface.rs:346-351 | by variant: the EGL image of an off-screen surface, the EGL surface of a window surface, in each case a resource the surface owns |
| `AndroidSurface.SurfaceTexture.GlTexture` | surfman/src/platform/android/surface.rs:360-363 | the consumer context's texture name |
| `AndroidSurface.SurfaceTexture.constructor` | surfman/src/platform/android/surface.rs:195-200 | a surface texture embeds the given surface with the given local image and texture, and records the consumer context its texture belongs to |
| `AndroidSurface.Device.CreateSurface` | surfman/src/platform/android/surface.rs:80-93 | dispatches on the surface type. Generic: fails with `MakeCurrentFailed` or `SurfaceCreationFailed` exactly as the generic path does, otherwise gives a hardware-buffer surface of the requested size. Widget: always succeeds with a window surface of the window's size. Either way the new surface has the context's id, is not destroyed and owns exactly the new resources. The native calls made are those of the chosen path: none on a make-current failure, only the allocation on a failed allocation, the full creation sequence or the one window-surface call on success |
| `AndroidSurface.Device.CreateGenericSurface` | surfman/src/platform/android/surface.rs:95-157 | succeeds iff the context can be made current and the allocation status is 0. A make-current failure gives `MakeCurrentFailed` with no native call. A non-zero status gives `SurfaceCreationFailed` after only the allocation attempt, so no image, texture, framebuffer or renderbuffers are created. On success: a fresh, not-destroyed `HardwareBuffer` surface of the requested size and the context's id, made by the exact call sequence, owning exactly the new resources |
| `AndroidSurface.Device.CreateWindowSurface` | surfman/src/platform/android/surface.rs:159-181 | always succeeds: a fresh, not-destroyed `Window` surface whose size is the width and height the native window reports, with the context's id and one new EGL window surface |
| `AndroidSurface.Device.CreateEglImage` | surfman/src/platform/android/surface.rs:226-248 | imports a live hardware buffer as one new EGL image |
| `AndroidSurface.Device.CreateSurfaceTexture` | surfman/src/platform/android/surface.rs:183-205 | a window surface is dropped un-destroyed, so the call panics and makes no native call. An off-screen surface whose consumer context cannot be made current panics the same way. Otherwise it returns a surface texture that embeds the unchanged original surface, with a new image and texture made from that surface's hardware buffer; the texture belongs to the context passed in |
| `AndroidSurface.Device.PresentSurface` | surfman/src/platform/android/surface.rs:207-209 | the same as `PresentSurfaceWithoutContext`; the context is not used |
| `AndroidSurface.Device.PresentSurfaceWithoutContext` | surfman/src/platform/android/surface.rs:211-224 | a window surface gets exactly one buffer swap, of its EGL surface, and `Ok`. An off-screen surface gets `NoWidgetAttached` and no native call. No resource changes |
| `AndroidSurface.Device.DestroySurface` | surfman/src/platform/android/surface.rs:250-297 | on a context mismatch: `IncompatibleSurface`, the surface is marked destroyed and keeps its handles, and no native call is made (its resources leak). Otherwise, in a fixed order: unbind the framebuffer, delete it, destroy the renderbuffers, delete the texture, destroy the image, release the buffer (or destroy the EGL surface). It zeroes every handle, marks the surface destroyed and returns `Ok`. On both paths the final drop does not panic |
| `AndroidSurface.Device.TearDownHardwareBuffer` | surfman/src/platform/android/surface.rs:260-284 | issues exactly the off-screen teardown calls in source order, releases exactly the surface's resources, zeroes the buffer, image, framebuffer and texture handles, and leaves the context id, size and destroyed flag as they were |
| `AndroidSurface.Device.ReleaseImportedBuffer` | surfman/src/platform/android/surface.rs:273-283 | deletes the texture, destroys the image and releases the buffer, in that order, releases exactly those three and zeroes their handles, leaving the framebuffer, renderbuffers, context id, size and destroyed flag as they were |
| `AndroidSurface.Device.BuildOnHardwareBuffer` | surfman/src/platform/android/surface.rs:121-138 | on a freshly allocated buffer: creates the image, binds it to a texture, creates the framebuffer, creates and attaches the renderbuffers, in that order, and adds exactly the new objects' resources, none of which was live before |
| `AndroidSurface.Device.DestroySurfaceTexture` | surfman/src/platform/android/surface.rs:299-319 | zeroes both fields and returns `Ok` with the embedded surface, its id, context id and size unchanged, still live and not destroyed. The make-current failure is ignored, as at line 303. When the passed context was made current and is the consumer context the texture was made in, the texture is deleted and then the image destroyed, and both are released. Otherwise (the make-current failed, or another context was passed) the deletion reaches another context's names: only the image is released and the texture leaks |
| `AndroidSurface.Device.LockSurfaceData` | surfman/src/platform/android/surface.rs:321-325 | always fails with `Unimplemented` |
| `Scenarios.OffscreenLifecycle` | surfman/src/platform/android/surface.rs:95-319 | create, share, unshare and destroy of an off-screen surface all succeed, and the driver ends with the resources it started with |
| `Scenarios.OffscreenLifecycleStrayUnshare` | surfman/src/platform/android/surface.rs:95-319 | the same life, but the surface texture is released through a context that either cannot be made current or is not the consumer: the driver ends with its starting resources plus exactly one new texture, the leaked consumer texture |
| `Scenarios.WindowLifecycle` | surfman/src/platform/android/surface.rs:159-297 | create, present and destroy of a window surface take three native calls, the second a buffer swap, and leave no resource behind |
| `Scenarios.Generic64x64` | surfman/src/platform/android/surface.rs:143-154 | a generic 64x64 surface has size 64x64 and is the `HardwareBuffer` variant |
| `Scenarios.Window800x600` | surfman/src/platform/android/surface.rs:163-180 | a surface on an 800x600 native window has size 800x600 and is the `Window` variant |
| `Scenarios.DestroyWithForeignContext` | surfman/src/platform/android/surface.rs:252-256 | destroying with another context's id fails with `IncompatibleSurface` and marks the surface destroyed; its resources, new when it was created, all stay allocated, so the driver ends with exactly those added |
| `Scenarios.PresentOffscreen` | surfman/src/platform/android/surface.rs:220 | presenting an off-screen surface fails with `NoWidgetAttached` and issues no swap |

## Where the code and its evident intent differ

The model follows the code in each case.

- `create_surface_texture` with a `Window` surface (`surface.rs:183-187`). The code returns
  `Err(WidgetAttached)` at line 187, which shows a recoverable error was intended. But it takes the
  surface by value and does not return it. The surface is dropped un-destroyed, so `Drop`
  (`surface.rs:67-73`) panics before the `Err(WidgetAttached)` reaches the caller. `Device.CreateSurfaceTexture` returns
  `Panicked(SurfaceNotDestroyed)` for a window surface.
- `create_surface_texture` with a `HardwareBuffer` surface when the consumer context cannot be made
  current (`surface.rs:190`). The `?` leaves the closure that owns the surface, so the surface is
  dropped un-destroyed and the call panics. This also gives `Panicked(SurfaceNotDestroyed)`.
- `destroy_surface_texture` ignores a failure to make the context current (`surface.rs:303` has no
  `?`). `create_generic_surface` propagates the same failure (`surface.rs:97`). The call still
  returns `Ok`, but `glDeleteTextures` at line 306 then acts on whatever context is current, so
  the consumer's texture leaks. The same happens when the caller passes a context other than the
  one given to `create_surface_texture`: `SurfaceTexture` does not record that context
  (`surface.rs:39-44`), so nothing checks it. `Device.DestroySurfaceTexture` states the leak in
  both cases, and `Scenarios.OffscreenLifecycleStrayUnshare` shows it at the end of a full life.
- `destroy_surface` does not try to make the surface's context current (`surface.rs:250-297`),
  unlike `create_generic_surface` (`surface.rs:97`) and `destroy_surface_texture`
  (`surface.rs:303`). Its GL calls at lines 268-273 act on whatever context the thread has current.
  The guards of the other calls restore the previous context when they end, so nothing in the
  create, share, unshare and destroy sequence leaves the producer current. The caller is
  evidently expected to have made it current first.

## Left out

- The native calls themselves (`AHardwareBuffer_allocate`/`_release`,
  `eglGetNativeClientBufferANDROID`, `CreateImageKHR`/`DestroyImageKHR`, `CreateWindowSurface`,
  `SwapBuffers`, `DestroySurface`, the GL calls). They are abstract handle allocation, release and a
  call log. All resource kinds share one counter of fresh handles.
- The panic of the `.expect` in `create_egl_image` when the `EGL_ANDROID_get_native_client_buffer`
  extension is missing (`surface.rs:229-232`). The model's driver always has the extension.
- The fatal assertions in `create_egl_image` (null client buffer, `EGL_NO_IMAGE_KHR`) and in
  `create_window_surface` (`NO_SURFACE`). The model's driver always returns a fresh non-null handle,
  so these aborts cannot happen in the model. The model also takes `DestroyImageKHR` on a
  live image to return `EGL_TRUE`, so the aborts on its result (`surface.rs:279` and `:313`) are not
  modelled. What is proved is that only live images are ever destroyed.
- `temporarily_make_context_current`, `GL_FUNCTIONS` and `EGL_FUNCTIONS`, which are thread-local
  current-context plumbing. Whether making the context current succeeds is the `makeCurrent`
  parameter. Restoring the previous context is not modelled.
- The internals of `Renderbuffers::new`, `bind_to_current_framebuffer` and `destroy`. Renderbuffers
  are one opaque handle that keeps its value after `destroy`. `context_descriptor`,
  `context_descriptor_attributes` and `context_descriptor_to_egl_config` are not modelled either:
  the renderbuffers depend only on the size, and the window surface only on the window.
- The hardware-buffer descriptor's format, usage bits, `layers` and `stride` are not modelled. Only
  the width and height, as u32, are recorded. The `debug_assert` on framebuffer completeness is not
  modelled. GL framebuffer binding state is not tracked: the unbind is only recorded in the log.
- `Debug`, `unsafe impl Send`, `PhantomData`, `NativeWidget::from_native_window`,
  `surface_gl_texture_target` and the lifetime of `SurfaceDataGuard` are not modelled.
- The pointer-to-`usize` cast in `id()`. The id is the number of the primary handle.
- `thread::panicking()` is the `panicking` parameter of `Surface.Drop`. Every drop inside a
  `Device` call happens with it false.
- Rust's move semantics. Surfaces are heap objects, so after a by-value call the caller still holds
  a reference. `LiveIn` stands for "a `Surface` value the caller owns".
- Device.DestroySurfaceTexture: when the consumer context is not the one made current, the texture
  deletion is modelled as releasing nothing. Other contexts' texture name spaces are not tracked, so
  the model does not capture that the call may delete an unrelated texture with the same name in
  the current context. `makeCurrent` false is taken to mean the consumer is not current at the
  deletion. The model does not capture the case where the make-current fails while the consumer
  context is already current: there the texture is in fact released.
- Device.DestroySurface: the model takes the surface's context to be current at the call, a caller
  obligation the source leaves implicit. If it is not, the framebuffer, renderbuffer and texture
  deletions (`surface.rs:268-273`) act on another context and those resources leak, as the texture
  does in `Device.DestroySurfaceTexture`. The model does not capture that leak: its teardown always
  releases all five resources, and `Scenarios.OffscreenLifecycle` relies on this.
- Concurrency and threads. Every operation is one sequential call.
