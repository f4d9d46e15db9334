/** The interface every connection backend conforms to. A Rust trait with
    associated types becomes a record of functions, one field per trait
    method, generic over the associated types: `C` the connection, `N` the
    native connection, `A` the adapter, `D` the device, `ND` the native
    device and `W` the native widget. Which operations can fail is fixed by
    the field types: a field returning `Result` is fallible, any other is
    total. */
module Api {
  import opened Types

  datatype Backend<!C, !N, !A, D, !ND, W> = Backend(
    /** `new()`: connects to the default display. */
    newConnection: () -> Result<C>,
    /** `native_connection()`: total. */
    nativeConnection: C -> N,
    /** `NativeConnection::egl_display()`: every native connection has one. */
    eglDisplay: N -> EGLDisplay,
    /** `gl_api()`: total. */
    glApi: C -> GLApi,
    createAdapter: C -> Result<A>,
    createHardwareAdapter: C -> Result<A>,
    createLowPowerAdapter: C -> Result<A>,
    createSoftwareAdapter: C -> Result<A>,
    createDevice: (C, A) -> Result<D>,
    createDeviceFromNativeDevice: (C, ND) -> Result<D>,
    fromRawDisplayHandle: RawDisplayHandle05 -> Result<C>,
    fromDisplayHandle: DisplayHandle06 -> Result<C>,
    /** `create_native_widget_from_ptr(raw, size)`: total (the caller vouches
        for the pointer). */
    createNativeWidgetFromPtr: (C, Ptr) -> W,
    createNativeWidgetFromRawWindowHandle: (C, RawWindowHandle05) -> Result<W>,
    createNativeWidgetFromWindowHandle: (C, WindowHandle06) -> Result<W>)

  /** The documented law of the interface: `create_adapter` is an alias of
      `create_hardware_adapter`. */
  ghost predicate AdapterAlias<C(!new), N, A, D, ND, W>(b: Backend<C, N, A, D, ND, W>) {
    forall c :: b.createAdapter(c) == b.createHardwareAdapter(c)
  }
}
