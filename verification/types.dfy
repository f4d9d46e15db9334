/** Values that cross the library boundary: raw pointers, EGL names and the
    EGL entry points the connections call, the error enumeration, the adapter
    tags of the Unix backends and the display/window handles of the two
    versions (0.5 and 0.6) of the raw-window-handle interchange crate. */
module Types {

  datatype Option<T> = None | Some(value: T)

  /** The error kinds every fallible connection operation can return. */
  datatype Error =
    | ConnectionFailed
    | IncompatibleAdapter
    | IncompatibleNativeDevice
    | IncompatibleNativeWidget
    | IncompatibleRawDisplayHandle
    | Unimplemented

  /** `Result<T, Error>`. */
  datatype Result<T> = Ok(value: T) | Err(error: Error)

  /** The OpenGL flavour a connection supports. */
  datatype GLApi = GL | GLES

  /** The adapter of the Unix backends: a selection tag, nothing more. */
  datatype Adapter = Hardware | LowPower | Software

  /** A raw pointer or handle (`*mut Display`, `*mut c_void`, `EGLDisplay`)
      taken as an address; 0 is the null pointer. */
  type Ptr = nat

  const NULL: Ptr := 0

  /** `NonNull<c_void>`. */
  type NonNullPtr = p: Ptr | p != NULL witness 1

  // EGL names, with the values of the Khronos EGL headers.
  type EGLDisplay = Ptr
  type EGLenum = nat
  type EGLBoolean = nat

  const EGL_NO_DISPLAY: EGLDisplay := 0
  const EGL_DEFAULT_DISPLAY: Ptr := 0
  const EGL_FALSE: EGLBoolean := 0
  const EGL_PLATFORM_X11_KHR: EGLenum := 0x31D5
  const EGL_PLATFORM_SURFACELESS_MESA: EGLenum := 0x31DD

  /** What the EGL library answers: `eglGetPlatformDisplay(platform,
      native_display, [EGL_NONE])` and `eglInitialize(display, ...)` (the
      version numbers it writes back are never read by the connections). */
  datatype Egl = Egl(
    getPlatformDisplay: (EGLenum, Ptr) -> EGLDisplay,
    initialize: EGLDisplay -> EGLBoolean)

  // raw-window-handle 0.5: handles carry raw pointers that may be null.

  datatype RawDisplayHandle05 =
    | XlibDisplay05(display: Ptr, screen: int)
    | XcbDisplay05(connection: Ptr, screen: int)
    | WaylandDisplay05(display: Ptr)
    /** Every other platform's display handle (AppKit, Windows, Web, ...). */
    | OtherDisplay05

  datatype RawWindowHandle05 =
    | XlibWindow05(window: nat, visualId: nat)
    | XcbWindow05(window: nat, visualId: nat)
    | WaylandWindow05(surface: Ptr)
    | OtherWindow05

  // raw-window-handle 0.6: pointers are `Option<NonNull<_>>` or `NonNull<_>`,
  // and the borrowed `DisplayHandle`/`WindowHandle` wrap the raw handle.

  datatype RawDisplayHandle06 =
    | XlibDisplay06(display: Option<NonNullPtr>, screen: int)
    | XcbDisplay06(connection: Option<NonNullPtr>, screen: int)
    | WaylandDisplay06(waylandDisplay: NonNullPtr)
    | OtherDisplay06

  datatype DisplayHandle06 = DisplayHandle06(raw: RawDisplayHandle06)

  datatype RawWindowHandle06 =
    | XlibWindow06(window: nat, visualId: nat)
    | XcbWindow06(window: nat, xcbVisualId: Option<nat>)
    | WaylandWindow06(surface: NonNullPtr)
    | OtherWindow06

  datatype WindowHandle06 = WindowHandle06(raw: RawWindowHandle06)
}
