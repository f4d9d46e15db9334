/** The connection of the surfaceless EGL backend (Mesa's surfaceless
    platform): a shared wrapper around one initialised EGL display, with no
    window system behind it. */
module Surfaceless {
  import opened Types
  import Api

  /** The shared part of a connection (behind an `Arc`). It has no
      destructor, so sharing it is observable only through its EGL display. */
  datatype NativeConnectionWrapper = NativeConnectionWrapper(eglDisplay: EGLDisplay)

  datatype Connection = Connection(nativeConnection: NativeConnectionWrapper)

  /** `NativeConnection(Arc<NativeConnectionWrapper>)`: the same shared
      wrapper, handed out. */
  datatype NativeConnection = NativeConnection(wrapper: NativeConnectionWrapper)

  /** The surfaceless backend has no windows: its widget carries nothing. */
  datatype NativeWidget = NativeWidget

  /** What `eglGetPlatformDisplay` answers for the surfaceless platform and
      the default display. */
  function PlatformDisplay(egl: Egl): EGLDisplay {
    egl.getPlatformDisplay(EGL_PLATFORM_SURFACELESS_MESA, EGL_DEFAULT_DISPLAY)
  }

  /** `Connection::new`: two sentinel checks, `EGL_NO_DISPLAY` from
      `eglGetPlatformDisplay` and `EGL_FALSE` from `eglInitialize`, each
      turned into `ConnectionFailed`. A connection it returns always holds a
      display that exists and was initialised. */
  function New(egl: Egl): (r: Result<Connection>)
    ensures r.Ok? ==> var d := r.value.nativeConnection.eglDisplay;
                      d == PlatformDisplay(egl) && d != EGL_NO_DISPLAY && egl.initialize(d) != EGL_FALSE
    ensures r.Err? ==> r.error == ConnectionFailed
    ensures r.Err? ==> PlatformDisplay(egl) == EGL_NO_DISPLAY || egl.initialize(PlatformDisplay(egl)) == EGL_FALSE
  {
    var eglDisplay := PlatformDisplay(egl);
    if eglDisplay == EGL_NO_DISPLAY then
      Err(ConnectionFailed)
    else if egl.initialize(eglDisplay) == EGL_FALSE then
      Err(ConnectionFailed)
    else
      FromNativeConnection(NativeConnection(NativeConnectionWrapper(eglDisplay)))
  }

  /** `from_native_connection`: reuses the native connection's wrapper; it
      never fails. */
  function FromNativeConnection(nativeConnection: NativeConnection): (r: Result<Connection>)
    ensures r.Ok? && r.value.nativeConnection == nativeConnection.wrapper
  {
    Ok(Connection(nativeConnection.wrapper))
  }

  /** `native_connection`: hands out the connection's own shared wrapper. */
  function NativeConnectionOf(c: Connection): (nc: NativeConnection)
    ensures nc.wrapper == c.nativeConnection
    ensures EglDisplay(nc) == c.nativeConnection.eglDisplay
  {
    NativeConnection(c.nativeConnection)
  }

  /** `NativeConnection::egl_display`: the display of the shared wrapper. */
  function EglDisplay(nc: NativeConnection): (d: EGLDisplay)
    ensures d == nc.wrapper.eglDisplay
  {
    nc.wrapper.eglDisplay
  }

  function GlApi(c: Connection): GLApi {
    GL
  }

  function CreateAdapter(c: Connection): Result<Adapter> {
    CreateHardwareAdapter(c)
  }

  function CreateHardwareAdapter(c: Connection): Result<Adapter> {
    Ok(Hardware)
  }

  function CreateLowPowerAdapter(c: Connection): Result<Adapter> {
    Ok(LowPower)
  }

  function CreateSoftwareAdapter(c: Connection): Result<Adapter> {
    Ok(Software)
  }

  /** `create_device`: `Device::new(self, adapter)`, which is outside this
      model and is given as `openDevice`. */
  function CreateDevice<D>(c: Connection, adapter: Adapter, openDevice: (Connection, Adapter) -> Result<D>): (r: Result<D>)
    ensures r == openDevice(c, adapter)
  {
    openDevice(c, adapter)
  }

  /** `create_device_from_native_device`: the native device is ignored; the
      device is opened on the connection's default adapter. */
  function CreateDeviceFromNativeDevice<ND, D>(c: Connection, nativeDevice: ND, openDevice: (Connection, Adapter) -> Result<D>)
    : (r: Result<D>)
    ensures r == openDevice(c, Hardware)
  {
    match CreateAdapter(c)
    case Ok(adapter) => CreateDevice(c, adapter, openDevice)
    case Err(e) => Err(e)
  }

  function FromRawDisplayHandle(rawHandle: RawDisplayHandle05): Result<Connection> {
    Err(IncompatibleNativeWidget)
  }

  function FromDisplayHandle(handle: DisplayHandle06): Result<Connection> {
    Err(IncompatibleNativeWidget)
  }

  function CreateNativeWidgetFromPtr(c: Connection, raw: Ptr): NativeWidget {
    NativeWidget
  }

  function CreateNativeWidgetFromRawWindowHandle(c: Connection, rawHandle: RawWindowHandle05): Result<NativeWidget> {
    Err(IncompatibleNativeWidget)
  }

  function CreateNativeWidgetFromWindowHandle(c: Connection, handle: WindowHandle06): Result<NativeWidget> {
    Err(IncompatibleNativeWidget)
  }

  /** The surfaceless backend packaged as an interface implementation; the
      world it runs in is the EGL library `egl` and the device opener. */
  function AsBackend<D, ND>(egl: Egl, openDevice: (Connection, Adapter) -> Result<D>)
    : (b: Api.Backend<Connection, NativeConnection, Adapter, D, ND, NativeWidget>)
    ensures b.newConnection() == New(egl)
  {
    Api.Backend(
      () => New(egl),
      NativeConnectionOf,
      EglDisplay,
      GlApi,
      CreateAdapter,
      CreateHardwareAdapter,
      CreateLowPowerAdapter,
      CreateSoftwareAdapter,
      (c, a) => CreateDevice(c, a, openDevice),
      (c, nd) => CreateDeviceFromNativeDevice(c, nd, openDevice),
      FromRawDisplayHandle,
      FromDisplayHandle,
      CreateNativeWidgetFromPtr,
      CreateNativeWidgetFromRawWindowHandle,
      CreateNativeWidgetFromWindowHandle)
  }

  /** The native connection and `from_native_connection` are inverse: a
      connection comes back as itself (the same shared wrapper), and a
      native connection is recovered from the connection made of it. Either
      way the EGL display is preserved. */
  lemma NativeConnectionRoundTrip(c: Connection, nc: NativeConnection)
    ensures FromNativeConnection(NativeConnectionOf(c)) == Ok(c)
    ensures NativeConnectionOf(FromNativeConnection(nc).value) == nc
    ensures EglDisplay(NativeConnectionOf(c)) == c.nativeConnection.eglDisplay
  {
  }

  /** The constant answers: `create_adapter` is `create_hardware_adapter`,
      the three adapter queries always succeed with their own tag, and the
      API flavour is desktop OpenGL. */
  lemma ConstantQueries(c: Connection)
    ensures CreateAdapter(c) == CreateHardwareAdapter(c) == Ok(Hardware)
    ensures CreateLowPowerAdapter(c) == Ok(LowPower)
    ensures CreateSoftwareAdapter(c) == Ok(Software)
    ensures GlApi(c) == GL
  {
  }

  /** Every handle-based constructor fails, whatever the handle, and a widget
      from a raw pointer is the empty widget. */
  lemma HandleConstructorsFail(c: Connection, rawDisplay: RawDisplayHandle05, display: DisplayHandle06,
                               rawWindow: RawWindowHandle05, window: WindowHandle06, raw: Ptr)
    ensures FromRawDisplayHandle(rawDisplay) == Err(IncompatibleNativeWidget)
    ensures FromDisplayHandle(display) == Err(IncompatibleNativeWidget)
    ensures CreateNativeWidgetFromRawWindowHandle(c, rawWindow) == Err(IncompatibleNativeWidget)
    ensures CreateNativeWidgetFromWindowHandle(c, window) == Err(IncompatibleNativeWidget)
    ensures CreateNativeWidgetFromPtr(c, raw) == NativeWidget
  {
  }

  /** A surfaceless connection is never half made: either `new` fails with
      `ConnectionFailed`, or the connection answers `gl_api`, yields a
      hardware adapter, and opening a device on that adapter is exactly
      `Device::new` on the connection and the hardware tag. */
  lemma NewThenDevice<D>(egl: Egl, openDevice: (Connection, Adapter) -> Result<D>)
    ensures New(egl).Err? ==> New(egl).error == ConnectionFailed
    ensures New(egl).Ok? ==>
              var c := New(egl).value;
              && GlApi(c) == GL
              && CreateHardwareAdapter(c) == Ok(Hardware)
              && CreateDevice(c, CreateHardwareAdapter(c).value, openDevice) == openDevice(c, Hardware)
  {
  }

  /** The surfaceless backend keeps the interface's law. */
  lemma AdapterAliasHolds<D, ND>(egl: Egl, openDevice: (Connection, Adapter) -> Result<D>)
    ensures Api.AdapterAlias(AsBackend<D, ND>(egl, openDevice))
  {
  }
}
