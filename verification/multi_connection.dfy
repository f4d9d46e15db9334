/** The connection of the two-way backend dispatcher: a connection that is
    either one of the "default" backend or one of the "alternate" backend,
    chosen once at construction, to which every later query is delegated.
    Type parameters prefixed `D` are the default backend's associated types,
    those prefixed `A` the alternate's: `C` connection, `N` native
    connection, `A` adapter, `D` device, `V` native device, `W` widget. */
module Multi {
  import opened Types
  import Api

  /** The two-case union behind each of the dispatcher's `Connection`,
      `NativeConnection`, `Adapter`, `Device`, `NativeDevice` and
      `NativeWidget` enums. */
  datatype Variant<D, A> = Default(def: D) | Alternate(alt: A) {
    /** Both values come from the same backend. */
    predicate SameTag<D2, A2>(other: Variant<D2, A2>) {
      Default? == other.Default?
    }
  }

  type Connection<DC, AC> = Variant<DC, AC>
  type NativeConnection<DN, AN> = Variant<DN, AN>
  type Adapter<DA, AA> = Variant<DA, AA>
  type Device<DD, AD> = Variant<DD, AD>
  type NativeDevice<DV, AV> = Variant<DV, AV>
  type NativeWidget<DW, AW> = Variant<DW, AW>

  /** `result.map(X::Default)`. */
  function WrapDefault<DR, AR>(r: Result<DR>): Result<Variant<DR, AR>> {
    match r
    case Ok(v) => Ok(Default(v))
    case Err(e) => Err(e)
  }

  /** `result.map(X::Alternate)`. */
  function WrapAlternate<DR, AR>(r: Result<AR>): Result<Variant<DR, AR>> {
    match r
    case Ok(v) => Ok(Alternate(v))
    case Err(e) => Err(e)
  }

  /** The construction policy: `r` is a default-backend connection exactly
      when the default constructor succeeded; otherwise it is what the
      alternate constructor gave, and when both failed the alternate's
      error is the one reported (the default's is dropped). */
  ghost predicate FallsBack<DC, AC>(first: Result<DC>, second: Result<AC>, r: Result<Connection<DC, AC>>) {
    && (r.Ok? && r.value.Default? <==> first.Ok?)
    && (r.Ok? && r.value.Default? ==> first == Ok(r.value.def))
    && (r.Ok? && r.value.Alternate? <==> first.Err? && second.Ok?)
    && (r.Ok? && r.value.Alternate? ==> second == Ok(r.value.alt))
    && (r.Err? <==> first.Err? && second.Err?)
    && (r.Err? ==> r.error == second.error)
  }

  /** `r` relays the default backend's `answer`: the same value under the
      `Default` tag, or the same error. */
  ghost predicate RelaysDefault<DR, AR>(answer: Result<DR>, r: Result<Variant<DR, AR>>) {
    && (r.Ok? <==> answer.Ok?)
    && (r.Ok? ==> r.value.Default? && answer == Ok(r.value.def))
    && (r.Err? ==> r.error == answer.error)
  }

  /** `r` relays the alternate backend's `answer`: the same value under the
      `Alternate` tag, or the same error. */
  ghost predicate RelaysAlternate<DR, AR>(answer: Result<AR>, r: Result<Variant<DR, AR>>) {
    && (r.Ok? <==> answer.Ok?)
    && (r.Ok? ==> r.value.Alternate? && answer == Ok(r.value.alt))
    && (r.Err? ==> r.error == answer.error)
  }

  /** The delegation policy: `r` is the answer of the backend `c` belongs
      to, carrying `c`'s tag on success and that backend's own error on
      failure. */
  ghost predicate Relays<DC, AC, DR, AR>(c: Connection<DC, AC>, defOp: DC -> Result<DR>, altOp: AC -> Result<AR>,
                                         r: Result<Variant<DR, AR>>) {
    && (c.Default? ==> RelaysDefault(defOp(c.def), r))
    && (c.Alternate? ==> RelaysAlternate(altOp(c.alt), r))
  }

  /** `Clone`: the tag is kept and only the inner connection is cloned. */
  function Clone<DC, AC>(c: Connection<DC, AC>, defClone: DC -> DC, altClone: AC -> AC): (r: Connection<DC, AC>)
    ensures r.SameTag(c)
    ensures r.Default? ==> r.def == defClone(c.def)
    ensures r.Alternate? ==> r.alt == altClone(c.alt)
  {
    match c
    case Default(dc) => Default(defClone(dc))
    case Alternate(ac) => Alternate(altClone(ac))
  }

  /** `NativeConnection::egl_display`: the EGL display of whichever
      backend's native connection this is. */
  function EglDisplay<DC, DN, DA, DD, DV, DW, AC, AN, AA, AD, AV, AW>(
    def: Api.Backend<DC, DN, DA, DD, DV, DW>, alt: Api.Backend<AC, AN, AA, AD, AV, AW>, nc: NativeConnection<DN, AN>): (d: EGLDisplay)
    ensures nc.Default? ==> d == def.eglDisplay(nc.def)
    ensures nc.Alternate? ==> d == alt.eglDisplay(nc.alt)
  {
    match nc
    case Default(dn) => def.eglDisplay(dn)
    case Alternate(an) => alt.eglDisplay(an)
  }

  /** `Connection::new`: the default backend first, then the alternate. */
  function New<DC, DN, DA, DD, DV, DW, AC, AN, AA, AD, AV, AW>(
    def: Api.Backend<DC, DN, DA, DD, DV, DW>, alt: Api.Backend<AC, AN, AA, AD, AV, AW>): (r: Result<Connection<DC, AC>>)
    ensures FallsBack(def.newConnection(), alt.newConnection(), r)
  {
    match def.newConnection()
    case Ok(connection) => Ok(Default(connection))
    case Err(_) => WrapAlternate(alt.newConnection())
  }

  function NativeConnectionOf<DC, DN, DA, DD, DV, DW, AC, AN, AA, AD, AV, AW>(
    def: Api.Backend<DC, DN, DA, DD, DV, DW>, alt: Api.Backend<AC, AN, AA, AD, AV, AW>, c: Connection<DC, AC>)
    : (r: NativeConnection<DN, AN>)
    ensures r.SameTag(c)
    ensures r.Default? ==> r.def == def.nativeConnection(c.def)
    ensures r.Alternate? ==> r.alt == alt.nativeConnection(c.alt)
  {
    match c
    case Default(connection) => Default(def.nativeConnection(connection))
    case Alternate(connection) => Alternate(alt.nativeConnection(connection))
  }

  function GlApi<DC, DN, DA, DD, DV, DW, AC, AN, AA, AD, AV, AW>(
    def: Api.Backend<DC, DN, DA, DD, DV, DW>, alt: Api.Backend<AC, AN, AA, AD, AV, AW>, c: Connection<DC, AC>): (api: GLApi)
    ensures c.Default? ==> api == def.glApi(c.def)
    ensures c.Alternate? ==> api == alt.glApi(c.alt)
  {
    match c
    case Default(connection) => def.glApi(connection)
    case Alternate(connection) => alt.glApi(connection)
  }

  function CreateAdapter<DC, DN, DA, DD, DV, DW, AC, AN, AA, AD, AV, AW>(
    def: Api.Backend<DC, DN, DA, DD, DV, DW>, alt: Api.Backend<AC, AN, AA, AD, AV, AW>, c: Connection<DC, AC>)
    : (r: Result<Adapter<DA, AA>>)
    ensures Relays(c, def.createAdapter, alt.createAdapter, r)
  {
    match c
    case Default(connection) => WrapDefault(def.createAdapter(connection))
    case Alternate(connection) => WrapAlternate(alt.createAdapter(connection))
  }

  function CreateHardwareAdapter<DC, DN, DA, DD, DV, DW, AC, AN, AA, AD, AV, AW>(
    def: Api.Backend<DC, DN, DA, DD, DV, DW>, alt: Api.Backend<AC, AN, AA, AD, AV, AW>, c: Connection<DC, AC>)
    : (r: Result<Adapter<DA, AA>>)
    ensures Relays(c, def.createHardwareAdapter, alt.createHardwareAdapter, r)
  {
    match c
    case Default(connection) => WrapDefault(def.createHardwareAdapter(connection))
    case Alternate(connection) => WrapAlternate(alt.createHardwareAdapter(connection))
  }

  function CreateLowPowerAdapter<DC, DN, DA, DD, DV, DW, AC, AN, AA, AD, AV, AW>(
    def: Api.Backend<DC, DN, DA, DD, DV, DW>, alt: Api.Backend<AC, AN, AA, AD, AV, AW>, c: Connection<DC, AC>)
    : (r: Result<Adapter<DA, AA>>)
    ensures Relays(c, def.createLowPowerAdapter, alt.createLowPowerAdapter, r)
  {
    match c
    case Default(connection) => WrapDefault(def.createLowPowerAdapter(connection))
    case Alternate(connection) => WrapAlternate(alt.createLowPowerAdapter(connection))
  }

  function CreateSoftwareAdapter<DC, DN, DA, DD, DV, DW, AC, AN, AA, AD, AV, AW>(
    def: Api.Backend<DC, DN, DA, DD, DV, DW>, alt: Api.Backend<AC, AN, AA, AD, AV, AW>, c: Connection<DC, AC>)
    : (r: Result<Adapter<DA, AA>>)
    ensures Relays(c, def.createSoftwareAdapter, alt.createSoftwareAdapter, r)
  {
    match c
    case Default(connection) => WrapDefault(def.createSoftwareAdapter(connection))
    case Alternate(connection) => WrapAlternate(alt.createSoftwareAdapter(connection))
  }

  /** `create_device`: an adapter of the other backend is refused before
      any backend is asked; otherwise the connection's backend opens the
      device and the result keeps the connection's tag. */
  function CreateDevice<DC, DN, DA, DD, DV, DW, AC, AN, AA, AD, AV, AW>(
    def: Api.Backend<DC, DN, DA, DD, DV, DW>, alt: Api.Backend<AC, AN, AA, AD, AV, AW>,
    c: Connection<DC, AC>, adapter: Adapter<DA, AA>): (r: Result<Device<DD, AD>>)
    ensures !c.SameTag(adapter) ==> r == Err(IncompatibleAdapter)
    ensures c.Default? && adapter.Default? ==> RelaysDefault(def.createDevice(c.def, adapter.def), r)
    ensures c.Alternate? && adapter.Alternate? ==> RelaysAlternate(alt.createDevice(c.alt, adapter.alt), r)
  {
    match (c, adapter)
    case (Default(connection), Default(a)) => WrapDefault(def.createDevice(connection, a))
    case (Alternate(connection), Alternate(a)) => WrapAlternate(alt.createDevice(connection, a))
    case _ => Err(IncompatibleAdapter)
  }

  /** `create_device_from_native_device`: a native device of the other
      backend is refused before any backend is asked; otherwise the device
      keeps the connection's tag. */
  function CreateDeviceFromNativeDevice<DC, DN, DA, DD, DV, DW, AC, AN, AA, AD, AV, AW>(
    def: Api.Backend<DC, DN, DA, DD, DV, DW>, alt: Api.Backend<AC, AN, AA, AD, AV, AW>,
    c: Connection<DC, AC>, nativeDevice: NativeDevice<DV, AV>): (r: Result<Device<DD, AD>>)
    ensures !c.SameTag(nativeDevice) ==> r == Err(IncompatibleNativeDevice)
    ensures c.Default? && nativeDevice.Default? ==>
              RelaysDefault(def.createDeviceFromNativeDevice(c.def, nativeDevice.def), r)
    ensures c.Alternate? && nativeDevice.Alternate? ==>
              RelaysAlternate(alt.createDeviceFromNativeDevice(c.alt, nativeDevice.alt), r)
  {
    match c
    case Default(connection) =>
      (match nativeDevice
       case Default(nd) => WrapDefault(def.createDeviceFromNativeDevice(connection, nd))
       case _ => Err(IncompatibleNativeDevice))
    case Alternate(connection) =>
      (match nativeDevice
       case Alternate(nd) => WrapAlternate(alt.createDeviceFromNativeDevice(connection, nd))
       case _ => Err(IncompatibleNativeDevice))
  }

  /** `from_raw_display_handle` (raw-window-handle 0.5): the same fallback
      as `New`. */
  function FromRawDisplayHandle<DC, DN, DA, DD, DV, DW, AC, AN, AA, AD, AV, AW>(
    def: Api.Backend<DC, DN, DA, DD, DV, DW>, alt: Api.Backend<AC, AN, AA, AD, AV, AW>,
    rawHandle: RawDisplayHandle05): (r: Result<Connection<DC, AC>>)
    ensures FallsBack(def.fromRawDisplayHandle(rawHandle), alt.fromRawDisplayHandle(rawHandle), r)
  {
    match def.fromRawDisplayHandle(rawHandle)
    case Ok(connection) => Ok(Default(connection))
    case Err(_) => WrapAlternate(alt.fromRawDisplayHandle(rawHandle))
  }

  /** `from_display_handle` (raw-window-handle 0.6): the same fallback as
      `New`. */
  function FromDisplayHandle<DC, DN, DA, DD, DV, DW, AC, AN, AA, AD, AV, AW>(
    def: Api.Backend<DC, DN, DA, DD, DV, DW>, alt: Api.Backend<AC, AN, AA, AD, AV, AW>,
    handle: DisplayHandle06): (r: Result<Connection<DC, AC>>)
    ensures FallsBack(def.fromDisplayHandle(handle), alt.fromDisplayHandle(handle), r)
  {
    match def.fromDisplayHandle(handle)
    case Ok(connection) => Ok(Default(connection))
    case Err(_) => WrapAlternate(alt.fromDisplayHandle(handle))
  }

  function CreateNativeWidgetFromPtr<DC, DN, DA, DD, DV, DW, AC, AN, AA, AD, AV, AW>(
    def: Api.Backend<DC, DN, DA, DD, DV, DW>, alt: Api.Backend<AC, AN, AA, AD, AV, AW>,
    c: Connection<DC, AC>, raw: Ptr): (w: NativeWidget<DW, AW>)
    ensures w.SameTag(c)
    ensures w.Default? ==> w.def == def.createNativeWidgetFromPtr(c.def, raw)
    ensures w.Alternate? ==> w.alt == alt.createNativeWidgetFromPtr(c.alt, raw)
  {
    match c
    case Default(connection) => Default(def.createNativeWidgetFromPtr(connection, raw))
    case Alternate(connection) => Alternate(alt.createNativeWidgetFromPtr(connection, raw))
  }

  function CreateNativeWidgetFromRawWindowHandle<DC, DN, DA, DD, DV, DW, AC, AN, AA, AD, AV, AW>(
    def: Api.Backend<DC, DN, DA, DD, DV, DW>, alt: Api.Backend<AC, AN, AA, AD, AV, AW>,
    c: Connection<DC, AC>, rawHandle: RawWindowHandle05): (r: Result<NativeWidget<DW, AW>>)
    ensures Relays(c, dc => def.createNativeWidgetFromRawWindowHandle(dc, rawHandle),
                   ac => alt.createNativeWidgetFromRawWindowHandle(ac, rawHandle), r)
  {
    match c
    case Default(connection) => WrapDefault(def.createNativeWidgetFromRawWindowHandle(connection, rawHandle))
    case Alternate(connection) => WrapAlternate(alt.createNativeWidgetFromRawWindowHandle(connection, rawHandle))
  }

  function CreateNativeWidgetFromWindowHandle<DC, DN, DA, DD, DV, DW, AC, AN, AA, AD, AV, AW>(
    def: Api.Backend<DC, DN, DA, DD, DV, DW>, alt: Api.Backend<AC, AN, AA, AD, AV, AW>,
    c: Connection<DC, AC>, handle: WindowHandle06): (r: Result<NativeWidget<DW, AW>>)
    ensures Relays(c, dc => def.createNativeWidgetFromWindowHandle(dc, handle),
                   ac => alt.createNativeWidgetFromWindowHandle(ac, handle), r)
  {
    match c
    case Default(connection) => WrapDefault(def.createNativeWidgetFromWindowHandle(connection, handle))
    case Alternate(connection) => WrapAlternate(alt.createNativeWidgetFromWindowHandle(connection, handle))
  }

  /** The dispatcher as a backend in its own right (`impl ConnectionInterface
      for Connection<Def, Alt>`): every interface method is the inherent
      operation above. */
  function AsBackend<DC, DN, DA, DD, DV, DW, AC, AN, AA, AD, AV, AW>(
    def: Api.Backend<DC, DN, DA, DD, DV, DW>, alt: Api.Backend<AC, AN, AA, AD, AV, AW>)
    : (b: Api.Backend<Connection<DC, AC>, NativeConnection<DN, AN>, Adapter<DA, AA>, Device<DD, AD>,
                      NativeDevice<DV, AV>, NativeWidget<DW, AW>>)
    ensures b.newConnection() == New(def, alt)
  {
    Api.Backend(
      () => New(def, alt),
      c => NativeConnectionOf(def, alt, c),
      nc => EglDisplay(def, alt, nc),
      c => GlApi(def, alt, c),
      c => CreateAdapter(def, alt, c),
      c => CreateHardwareAdapter(def, alt, c),
      c => CreateLowPowerAdapter(def, alt, c),
      c => CreateSoftwareAdapter(def, alt, c),
      (c, a) => CreateDevice(def, alt, c, a),
      (c, nd) => CreateDeviceFromNativeDevice(def, alt, c, nd),
      h => FromRawDisplayHandle(def, alt, h),
      h => FromDisplayHandle(def, alt, h),
      (c, p) => CreateNativeWidgetFromPtr(def, alt, c, p),
      (c, h) => CreateNativeWidgetFromRawWindowHandle(def, alt, c, h),
      (c, h) => CreateNativeWidgetFromWindowHandle(def, alt, c, h))
  }

  /** Every interface method of the dispatcher is the inherent operation of
      the same name. */
  lemma InterfaceIsInherent<DC, DN, DA, DD, DV, DW, AC, AN, AA, AD, AV, AW>(
    def: Api.Backend<DC, DN, DA, DD, DV, DW>, alt: Api.Backend<AC, AN, AA, AD, AV, AW>,
    c: Connection<DC, AC>, nc: NativeConnection<DN, AN>, adapter: Adapter<DA, AA>, nd: NativeDevice<DV, AV>,
    raw: Ptr, rawDisplay: RawDisplayHandle05, display: DisplayHandle06,
    rawWindow: RawWindowHandle05, window: WindowHandle06)
    ensures var b := AsBackend(def, alt);
      && b.newConnection() == New(def, alt)
      && b.nativeConnection(c) == NativeConnectionOf(def, alt, c)
      && b.eglDisplay(nc) == EglDisplay(def, alt, nc)
      && b.glApi(c) == GlApi(def, alt, c)
      && b.createAdapter(c) == CreateAdapter(def, alt, c)
      && b.createHardwareAdapter(c) == CreateHardwareAdapter(def, alt, c)
      && b.createLowPowerAdapter(c) == CreateLowPowerAdapter(def, alt, c)
      && b.createSoftwareAdapter(c) == CreateSoftwareAdapter(def, alt, c)
      && b.createDevice(c, adapter) == CreateDevice(def, alt, c, adapter)
      && b.createDeviceFromNativeDevice(c, nd) == CreateDeviceFromNativeDevice(def, alt, c, nd)
      && b.fromRawDisplayHandle(rawDisplay) == FromRawDisplayHandle(def, alt, rawDisplay)
      && b.fromDisplayHandle(display) == FromDisplayHandle(def, alt, display)
      && b.createNativeWidgetFromPtr(c, raw) == CreateNativeWidgetFromPtr(def, alt, c, raw)
      && b.createNativeWidgetFromRawWindowHandle(c, rawWindow) == CreateNativeWidgetFromRawWindowHandle(def, alt, c, rawWindow)
      && b.createNativeWidgetFromWindowHandle(c, window) == CreateNativeWidgetFromWindowHandle(def, alt, c, window)
  {
  }

  /** When the default backend connects, the alternate backend plays no part:
      any two alternates give the same result. The same holds for both
      display-handle constructors. */
  lemma DefaultSuccessIgnoresAlternate<DC, DN, DA, DD, DV, DW, AC, AN, AA, AD, AV, AW>(
    def: Api.Backend<DC, DN, DA, DD, DV, DW>,
    alt1: Api.Backend<AC, AN, AA, AD, AV, AW>, alt2: Api.Backend<AC, AN, AA, AD, AV, AW>,
    rawHandle: RawDisplayHandle05, handle: DisplayHandle06)
    ensures def.newConnection().Ok? ==>
              New(def, alt1) == New(def, alt2) == Ok(Default(def.newConnection().value))
    ensures def.fromRawDisplayHandle(rawHandle).Ok? ==>
              FromRawDisplayHandle(def, alt1, rawHandle) == FromRawDisplayHandle(def, alt2, rawHandle)
    ensures def.fromDisplayHandle(handle).Ok? ==>
              FromDisplayHandle(def, alt1, handle) == FromDisplayHandle(def, alt2, handle)
  {
  }

  /** Objects derived through one connection carry its tag: an adapter the
      connection creates is accepted by its `CreateDevice`, which hands the
      pair to the connection's own backend. */
  lemma AdapterThenDevice<DC, DN, DA, DD, DV, DW, AC, AN, AA, AD, AV, AW>(
    def: Api.Backend<DC, DN, DA, DD, DV, DW>, alt: Api.Backend<AC, AN, AA, AD, AV, AW>, c: Connection<DC, AC>)
    requires CreateAdapter(def, alt, c).Ok?
    ensures var adapter := CreateAdapter(def, alt, c).value;
      && adapter.SameTag(c)
      && (c.Default? ==> RelaysDefault(def.createDevice(c.def, def.createAdapter(c.def).value),
                                       CreateDevice(def, alt, c, adapter)))
      && (c.Alternate? ==> RelaysAlternate(alt.createDevice(c.alt, alt.createAdapter(c.alt).value),
                                           CreateDevice(def, alt, c, adapter)))
  {
  }

  /** The native connection of a dispatcher connection names the EGL display
      of the active backend's own native connection. */
  lemma NativeConnectionEglDisplay<DC, DN, DA, DD, DV, DW, AC, AN, AA, AD, AV, AW>(
    def: Api.Backend<DC, DN, DA, DD, DV, DW>, alt: Api.Backend<AC, AN, AA, AD, AV, AW>, c: Connection<DC, AC>)
    ensures c.Default? ==> EglDisplay(def, alt, NativeConnectionOf(def, alt, c)) == def.eglDisplay(def.nativeConnection(c.def))
    ensures c.Alternate? ==> EglDisplay(def, alt, NativeConnectionOf(def, alt, c)) == alt.eglDisplay(alt.nativeConnection(c.alt))
  {
  }

  /** The dispatcher keeps the interface's law: when both backends make
      `create_adapter` an alias of `create_hardware_adapter`, so does the
      dispatcher. */
  lemma AdapterAliasPreserved<DC(!new), DN, DA, DD, DV, DW, AC(!new), AN, AA, AD, AV, AW>(
    def: Api.Backend<DC, DN, DA, DD, DV, DW>, alt: Api.Backend<AC, AN, AA, AD, AV, AW>)
    requires Api.AdapterAlias(def) && Api.AdapterAlias(alt)
    ensures Api.AdapterAlias(AsBackend(def, alt))
  {
  }
}
