# surfman connection layer in Dafny

This project models the connection layer of surfman, a library that hands out
OpenGL surfaces on top of EGL and a window system. A *connection* is a
process's link to a display server. Every backend offers the same
interface: open the default display, wrap a native display, hand out
adapters and devices, and turn window-system handles into native widgets.
The model covers four parts:

- **The interface** (`Api`, `connection.dfy`). The Rust trait with five
  associated types (adapter, device, native connection, native device and
  native widget) becomes `Api.Backend<C, N, A, D, ND, W>`, a record with
  one function field per trait method. `C` is the implementing connection
  type itself. A field returning `Result` is a
  fallible operation and any other field is a total one, matching the
  trait's signatures. `Api.AdapterAlias` states the documented law that
  `create_adapter` is `create_hardware_adapter`.
- **The two-way dispatcher** (`Multi`, `multi_connection.dfy`). The
  connection, native connection, adapter, device, native device and widget
  are each `Default(..) | Alternate(..)`. Constructors try the default
  backend first and fall back to the alternate one, reporting the
  alternate's error when both fail. Queries delegate to the active backend
  and keep its tag. Pairing a connection with an adapter or native device
  of the other tag is refused. `Multi.AsBackend` packages the dispatcher as
  a backend, so a dispatcher can itself be nested.
- **The surfaceless EGL backend** (`Surfaceless`, `surfaceless_connection.dfy`).
  `new` makes two sentinel checks, and the backend's constants are modelled
  with it. `Surfaceless.AsBackend` instantiates the interface.
- **The X11 backend** (`X11`, `x11_connection.dfy`). Xlib's process state is
  a class `Xlib`: open displays, and logs of the close, lock and
  thread-initialisation calls, with `X_THREADS_INIT` as a one-shot flag.
  The `Arc`-shared `NativeConnectionWrapper` is a class that holds the
  strong count and the count of `XCloseDisplay` calls it made. Its clone
  and drop steps are specified by `CloneStep` and `DropStep` on a value
  `ArcState`. `ReplayClosesOnce` proves, for any sequence of clones and
  drops, that an owned display is closed exactly once, when the last clone
  goes, and that a display that is not owned is never closed. The lock
  guard is a class whose drop unlocks what `lock_display` locked.
  `GuardedSectionBalanced` proves that after lock, inner work and the
  guard's drop, every display's lock depth is its earlier depth plus
  whatever the inner work left. The depth is therefore unchanged when the
  inner work is itself balanced.
  Opening a display requires `X_THREADS_INIT` to have been forced, so the
  model checks that `new` forces it before calling `XOpenDisplay`.

The foreign calls are modelled as oracles:

- `eglGetPlatformDisplay` and `eglInitialize` are the `Types.Egl` record of
  functions.
- `XOpenDisplay`'s reply is a parameter of `X11.New`.
- `Device::new` is a parameter `openDevice`.

## Model

| member | source | states |
|---|---|---|
| `Multi.Clone` | src/platform/generic/multi/connection.rs:39-44 | cloning keeps the tag and clones only the inner connection with its own backend's clone |
| `Multi.EglDisplay` | src/platform/generic/multi/connection.rs:68-73 | a native connection's EGL display is the one the active backend's native connection reports |
| `Multi.New` | src/platform/generic/multi/connection.rs:85-90 | success of the default backend gives `Default` of its connection; otherwise the result is exactly the alternate's outcome under `Alternate`, so with both failing the alternate's error is returned |
| `Multi.NativeConnectionOf` | src/platform/generic/multi/connection.rs:93-102 | the native connection carries the connection's tag and is the active backend's native connection |
| `Multi.GlApi` | src/platform/generic/multi/connection.rs:105-110 | the API flavour is the active backend's answer |
| `Multi.CreateAdapter` | src/platform/generic/multi/connection.rs:115-124 | an adapter with the connection's tag wrapping the backend's adapter, or the backend's error unchanged |
| `Multi.CreateHardwareAdapter` | src/platform/generic/multi/connection.rs:127-136 | as for `create_adapter`, relaying the hardware query |
| `Multi.CreateLowPowerAdapter` | src/platform/generic/multi/connection.rs:139-148 | as for `create_adapter`, relaying the low-power query |
| `Multi.CreateSoftwareAdapter` | src/platform/generic/multi/connection.rs:151-160 | as for `create_adapter`, relaying the software query |
| `Multi.CreateDevice` | src/platform/generic/multi/connection.rs:165-175 | mismatched connection and adapter tags give `IncompatibleAdapter`; matching tags give the backend's device under that tag or its error |
| `Multi.CreateDeviceFromNativeDevice` | src/platform/generic/multi/connection.rs:179-197 | mismatched tags give `IncompatibleNativeDevice`; matching tags give the backend's device under the connection's tag or its error |
| `Multi.FromRawDisplayHandle` | src/platform/generic/multi/connection.rs:201-210 | the same default-then-alternate fallback as `new`, on the 0.5 display handle |
| `Multi.FromDisplayHandle` | src/platform/generic/multi/connection.rs:214-221 | the same fallback on the 0.6 display handle |
| `Multi.CreateNativeWidgetFromPtr` | src/platform/generic/multi/connection.rs:224-237 | the widget carries the connection's tag and is the active backend's widget for the pointer |
| `Multi.CreateNativeWidgetFromRawWindowHandle` | src/platform/generic/multi/connection.rs:241-254 | the active backend's widget under the connection's tag, or its error unchanged |
| `Multi.CreateNativeWidgetFromWindowHandle` | src/platform/generic/multi/connection.rs:258-271 | the same for the 0.6 window handle |
| `Multi.AsBackend` | src/connection.rs:20-94 | the dispatcher is itself a backend of the interface, whose `new` is the dispatcher's `new` |
| `Multi.InterfaceIsInherent` | src/platform/generic/multi/connection.rs:274-372 | every method of the dispatcher's interface implementation is the inherent method of the same name |
| `Multi.DefaultSuccessIgnoresAlternate` | src/platform/generic/multi/connection.rs:85-87 | when the default backend succeeds, the result does not depend on the alternate backend at all; the same holds for both handle constructors |
| `Multi.AdapterThenDevice` | src/platform/generic/multi/connection.rs:115-175 | an adapter a connection creates has the connection's tag, so `create_device` never refuses it and relays to the same backend |
| `Multi.NativeConnectionEglDisplay` | src/platform/generic/multi/connection.rs:61-102 | the EGL display of a connection's native connection is the active backend's own |
| `Multi.AdapterAliasPreserved` | src/connection.rs:41-44 | if both backends make `create_adapter` an alias of `create_hardware_adapter`, so does the dispatcher |
| `Surfaceless.New` | src/platform/unix/generic/connection.rs:46-72 | failure is `ConnectionFailed`, and happens exactly when the platform display is `EGL_NO_DISPLAY` or `eglInitialize` returns `EGL_FALSE`; success holds that display, which is initialised |
| `Surfaceless.NativeConnectionOf` | src/platform/unix/generic/connection.rs:86-88 | the native connection shares the connection's own wrapper, so it names the same EGL display |
| `Surfaceless.EglDisplay` | src/platform/unix/generic/connection.rs:29-33 | a native connection's EGL display is its shared wrapper's |
| `Surfaceless.CreateDevice` | src/platform/unix/generic/connection.rs:130-132 | the device is `Device::new` on this connection and the given adapter |
| `Surfaceless.FromNativeConnection` | src/platform/unix/generic/connection.rs:76-82 | never fails and reuses the native connection's shared wrapper |
| `Surfaceless.CreateDeviceFromNativeDevice` | src/platform/unix/generic/connection.rs:136-141 | ignores the native device and opens the device on the hardware adapter |
| `Surfaceless.AsBackend` | src/platform/unix/generic/connection.rs:43-185 | the surfaceless backend as an implementation of the interface |
| `Surfaceless.NativeConnectionRoundTrip` | src/platform/unix/generic/connection.rs:76-88 | `native_connection` and `from_native_connection` are mutually inverse and keep the EGL display |
| `Surfaceless.ConstantQueries` | src/platform/unix/generic/connection.rs:92-124 | `create_adapter` equals `create_hardware_adapter`; the three adapter creators succeed with their own tags; `gl_api` is `GL` |
| `Surfaceless.HandleConstructorsFail` | src/platform/unix/generic/connection.rs:144-184 | both display-handle constructors and both window-handle widget constructors fail with `IncompatibleNativeWidget` whatever the input; the pointer widget is the unit widget |
| `Surfaceless.NewThenDevice` | src/platform/unix/generic/connection.rs:126-132 | a connection `new` returns answers `GL` and a hardware adapter, and opening a device on it is `Device::new` with the hardware tag |
| `Surfaceless.AdapterAliasHolds` | src/platform/unix/generic/connection.rs:96-102 | the surfaceless backend satisfies the interface's alias law |
| `X11.Xlib.ForceThreadsInit` | src/platform/unix/x11/connection.rs:24-30 | `XInitThreads` has run exactly once after forcing, however often it is forced |
| `X11.Xlib.XInitThreads` | src/platform/unix/x11/connection.rs:27 | one more `XInitThreads` call is counted and nothing else changes |
| `X11.Xlib.XOpenDisplay` | src/platform/unix/x11/connection.rs:83 | only after `X_THREADS_INIT` was forced; the reply becomes an open display unless it is null |
| `X11.Xlib.XLockDisplay` | src/platform/unix/x11/connection.rs:282 | one `Lock` of the display is appended to the lock log and nothing else changes |
| `X11.Xlib.XUnlockDisplay` | src/platform/unix/x11/connection.rs:299 | one `Unlock` of the display is appended to the lock log and nothing else changes |
| `X11.Xlib.XCloseDisplay` | src/platform/unix/x11/connection.rs:69 | the display is no longer open and the close is logged |
| `X11.CloneStep` | src/platform/unix/x11/connection.rs:32-36 | a clone adds one strong reference, closes nothing and keeps the wrapper's invariant |
| `X11.DropStep` | src/platform/unix/x11/connection.rs:64-74 | a drop removes one strong reference; the last one closes the display exactly when it is owned, nulls the pointer, and keeps the invariant |
| `X11.ReplayClosesOnce` | src/platform/unix/x11/connection.rs:32-74 | over any interleaving of clones and drops, `XCloseDisplay` runs at most once, and exactly once iff the display is owned and every clone is dropped; the display is unchanged while a clone lives |
| `X11.NativeConnectionWrapper.constructor` | src/platform/unix/x11/connection.rs:40-44 | a new wrapper has one strong reference, has closed nothing, and requires an owned display to be non-null |
| `X11.NativeConnectionWrapper.Retain` | src/platform/unix/x11/connection.rs:32-36 | the wrapper's new state is `CloneStep` of the old one |
| `X11.NativeConnectionWrapper.Release` | src/platform/unix/x11/connection.rs:64-74 | the wrapper's new state is `DropStep` of the old one, and Xlib records a close only when the last owning reference goes |
| `X11.NativeConnectionWrapper.Drop` | src/platform/unix/x11/connection.rs:66-73 | `XCloseDisplay` on the display if and only if it is owned; the pointer is null afterwards either way |
| `X11.NativeConnectionWrapper.LockDisplay` | src/platform/unix/x11/connection.rs:279-289 | locks the wrapper's display once and returns a live guard on that display |
| `X11.DisplayGuard.constructor` | src/platform/unix/x11/connection.rs:291-294 | the guard holds the display and is not yet dropped |
| `X11.DisplayGuard.Display` | src/platform/unix/x11/connection.rs:306-308 | the display the guard locked, which `lock_display` makes the wrapper's display |
| `X11.DisplayGuard.Drop` | src/platform/unix/x11/connection.rs:296-302 | unlocks the guard's display once and only once |
| `X11.HeldConcat` | src/platform/unix/x11/connection.rs:279-302 | the lock depth of a display is additive over the call log |
| `X11.GuardedSectionBalanced` | src/platform/unix/x11/connection.rs:277-309 | lock, work, guard drop leaves every display's lock depth as before plus what the work left |
| `X11.CreateEglDisplay` | src/platform/unix/x11/connection.rs:311-326 | the X11-platform EGL display of the Xlib display, which `eglInitialize` accepted |
| `X11.New` | src/platform/unix/x11/connection.rs:79-98 | forces thread initialisation before opening the display (opening requires it), so `XInitThreads` has run exactly once; fails with `ConnectionFailed` exactly when `XOpenDisplay` gives null, creating no wrapper; otherwise a fresh wrapper that owns the display |
| `X11.FromNativeConnection` | src/platform/unix/x11/connection.rs:110-120 | never fails, wraps the given handles without owning the display, and `native_connection` gives them back |
| `X11.FromX11Display` | src/platform/unix/x11/connection.rs:122-133 | a fresh wrapper over the display and its EGL display, owning it as told |
| `X11.DisplayOfRawHandle` | src/platform/unix/x11/connection.rs:204-208 | Xlib handles give their display, Xcb gives `Unimplemented`, any other platform gives `IncompatibleRawDisplayHandle` |
| `X11.DisplayOfHandle` | src/platform/unix/x11/connection.rs:219-226 | as for 0.5, and an Xlib handle without a display gives `IncompatibleRawDisplayHandle` |
| `X11.FromRawDisplayHandle` | src/platform/unix/x11/connection.rs:198-211 | a non-owning connection on an Xlib handle's display, else the classification's error |
| `X11.FromDisplayHandle` | src/platform/unix/x11/connection.rs:215-229 | the same for the 0.6 handle |
| `X11.CloneConnection` | src/platform/unix/x11/connection.rs:33-35 | the clone shares the same wrapper, whose count goes up by one |
| `X11.DropConnection` | src/platform/unix/x11/connection.rs:64-74 | the shared count goes down by one; the last owning drop closes the display, and no other Xlib state changes |
| `X11.NativeConnectionOf` | src/platform/unix/x11/connection.rs:137-142 | the native connection names exactly the wrapper's EGL display and Xlib display |
| `X11.EglDisplay` | src/platform/unix/x11/connection.rs:58-62 | a native connection's EGL display is the one it carries |
| `X11.CreateDevice` | src/platform/unix/x11/connection.rs:180-182 | the device is `Device::new` on this connection and the given adapter |
| `X11.CreateDeviceFromNativeDevice` | src/platform/unix/x11/connection.rs:189-194 | opens the device on the adapter the native device names |
| `X11.CreateNativeWidgetFromPtr` | src/platform/unix/x11/connection.rs:232-240 | the pointer becomes the widget's window |
| `X11.CreateNativeWidgetFromRawWindowHandle` | src/platform/unix/x11/connection.rs:244-257 | succeeds exactly on Xlib window handles, with their window; anything else is `IncompatibleNativeWidget` |
| `X11.CreateNativeWidgetFromWindowHandle` | src/platform/unix/x11/connection.rs:261-274 | the same for the 0.6 window handle |
| `X11.WidgetHandleRoundTrip` | src/platform/unix/x11/connection.rs:251-256 | a widget is recovered from the Xlib window handle of its window |
| `X11.ConstantQueries` | src/platform/unix/x11/connection.rs:146-174 | `create_adapter` equals `create_hardware_adapter`; the three adapter creators succeed with their own tags; `gl_api` is `GL` |

## Left out

- Foreign calls (EGL, Xlib, `Device::new`) are oracles or parameters. Their real behaviour is not modelled, and neither are the EGL version numbers `eglInitialize` writes back.
- The adapter constructors `Adapter::hardware()`, `Adapter::low_power()` and `Adapter::software()` are modelled as three distinct tags. Whatever else the adapter holds is not modelled.
- Thread safety is not modelled: `Send`/`Sync`, the locking of `lazy_static`, and the mutual exclusion of `XLockDisplay`. Only the sequential call logs are kept.
- `X11.CreateEglDisplay`: the process abort of `assert_ne!(ok, egl::FALSE)` is a precondition, so the model does not describe the aborting run.
- The unused `Size2D` arguments of the widget constructors are dropped. The pointer `transmute` of `create_native_widget_from_ptr` is an identity on `Ptr`.
- The `cfg(feature = ...)` gating is ignored: both raw-window-handle versions (0.5 and 0.6) are always present. Handles of platforms other than Xlib, Xcb and Wayland collapse into one `Other` variant each.
- The X11 backend is not packaged as an `Api.Backend` record. Its constructors change Xlib state and allocate wrappers, so they are methods, and the interface's fields are pure functions.
- `X11.DisplayGuard`: the lifetime parameter tying the guard to its wrapper is not modelled. A guard's `Drop` requires that it was not dropped before, and that stands in for Rust's move semantics.
- `X11.NativeConnectionWrapper.Drop` requires a strong count of zero and no earlier close. Rust guarantees both, since only the last `Arc` runs the destructor. `Release` is the only caller.
- `Surfaceless`: the identity of the `Arc` is not modelled. The wrapper has no destructor, so sharing is observable only through its EGL display, and the wrapper is a value.
- The surfaceless `from_raw_display_handle` and `from_display_handle` return `IncompatibleNativeWidget` (src/platform/unix/generic/connection.rs:145-153). The X11 backend reports an unsupported display handle as `IncompatibleRawDisplayHandle` (src/platform/unix/x11/connection.rs:207). The model follows the code as written.
- `src/platform/generic/mod.rs` holds only module declarations and is not part of this model.
