/** The connection of the X11 backend: an Xlib `Display` and the EGL display
    made from it, held in a wrapper that every clone of the connection shares
    through an `Arc`. The wrapper closes the Xlib display when the last clone
    goes away, and only when the connection opened that display itself. */
module X11 {
  import opened Types

  /** An Xlib `Window` (an XID). */
  type Window = nat

  /** The plain-value view of a connection's handles; owns nothing. */
  datatype NativeConnection = NativeConnection(eglDisplay: EGLDisplay, x11Display: Ptr)

  datatype NativeWidget = NativeWidget(window: Window)

  /** The X11 native device only names an adapter. */
  datatype NativeDevice = NativeDevice(adapter: Adapter)

  // ---------------------------------------------------------------------
  // Xlib, as seen by this process

  datatype LockEvent = Lock(display: Ptr) | Unlock(display: Ptr)

  /** The observable state of Xlib in this process. */
  datatype XlibState = XlibState(
    openDisplays: set<Ptr>,
    closeLog: seq<Ptr>,
    lockLog: seq<LockEvent>,
    initThreadsCalls: nat,
    threadsInitForced: bool)

  /** The Xlib library of this process: the displays it has open, and a log
      of the `XCloseDisplay`, `XLockDisplay`/`XUnlockDisplay` and
      `XInitThreads` calls made on it. It also holds the process-wide
      one-shot `X_THREADS_INIT`. */
  class Xlib {
    ghost var openDisplays: set<Ptr>
    ghost var closeLog: seq<Ptr>
    ghost var lockLog: seq<LockEvent>
    ghost var initThreadsCalls: nat
    /** `X_THREADS_INIT` has been forced. */
    var threadsInitForced: bool

    ghost function State(): XlibState
      reads this
    {
      XlibState(openDisplays, closeLog, lockLog, initThreadsCalls, threadsInitForced)
    }

    /** `XInitThreads` has run exactly when `X_THREADS_INIT` was forced, and
        at most once. */
    ghost predicate Valid()
      reads this
    {
      NULL !in openDisplays && initThreadsCalls == (if threadsInitForced then 1 else 0)
    }

    constructor ()
      ensures Valid()
      ensures State() == XlibState({}, [], [], 0, false)
    {
      openDisplays, closeLog, lockLog := {}, [], [];
      initThreadsCalls, threadsInitForced := 0, false;
    }

    method XInitThreads()
      modifies this
      ensures State() == old(State()).(initThreadsCalls := old(initThreadsCalls) + 1)
    {
      initThreadsCalls := initThreadsCalls + 1;
    }

    /** `*X_THREADS_INIT`: the lazily initialised static runs `XInitThreads`
        the first time it is forced and never again. */
    method ForceThreadsInit()
      requires Valid()
      modifies this
      ensures Valid()
      ensures State() == old(State()).(initThreadsCalls := 1, threadsInitForced := true)
    {
      if !threadsInitForced {
        XInitThreads();
        threadsInitForced := true;
      }
    }

    /** `XOpenDisplay(NULL)`: `reply` is what the X server gave, null when no
        display could be opened, otherwise a display not already open. Xlib
        demands that a program using it from several threads call
        `XInitThreads` before any other Xlib call, so opening a display
        requires `X_THREADS_INIT` to have been forced. */
    method XOpenDisplay(reply: Ptr) returns (display: Ptr)
      requires Valid() && threadsInitForced
      requires reply == NULL || reply !in openDisplays
      modifies this
      ensures Valid()
      ensures display == reply
      ensures State() == old(State()).(openDisplays := old(openDisplays) + if display == NULL then {} else {display})
    {
      display := reply;
      if display != NULL {
        openDisplays := openDisplays + {display};
      }
    }

    method XCloseDisplay(display: Ptr)
      requires Valid()
      modifies this
      ensures Valid()
      ensures State() == old(State()).(openDisplays := old(openDisplays) - {display},
                                       closeLog := old(closeLog) + [display])
    {
      openDisplays := openDisplays - {display};
      closeLog := closeLog + [display];
    }

    method XLockDisplay(display: Ptr)
      requires Valid()
      modifies this
      ensures Valid()
      ensures State() == old(State()).(lockLog := old(lockLog) + [Lock(display)])
    {
      lockLog := lockLog + [Lock(display)];
    }

    method XUnlockDisplay(display: Ptr)
      requires Valid()
      modifies this
      ensures Valid()
      ensures State() == old(State()).(lockLog := old(lockLog) + [Unlock(display)])
    {
      lockLog := lockLog + [Unlock(display)];
    }
  }

  // ---------------------------------------------------------------------
  // The shared wrapper and its reference count, as values

  /** The state of one `Arc<NativeConnectionWrapper>`: the strong count, the
      wrapper's Xlib display and ownership flag, and how many times the
      wrapper has called `XCloseDisplay`. */
  datatype ArcState = ArcState(strong: nat, x11Display: Ptr, owned: bool, closeCalls: nat)

  /** While a clone is alive an owned display is present; once the last
      clone is gone the display pointer is null, and the wrapper has closed
      the display exactly once if it owned it, never otherwise. */
  ghost predicate ArcInvariant(s: ArcState) {
    && (s.strong == 0 ==> s.x11Display == NULL)
    && (s.owned && s.strong > 0 ==> s.x11Display != NULL)
    && s.closeCalls == (if s.owned && s.strong == 0 then 1 else 0)
  }

  /** Cloning a connection: one more strong reference, nothing closed. */
  function CloneStep(s: ArcState): (t: ArcState)
    requires s.strong > 0
    ensures t.strong == s.strong + 1
    ensures t.closeCalls == s.closeCalls && t.x11Display == s.x11Display && t.owned == s.owned
    ensures ArcInvariant(s) ==> ArcInvariant(t)
  {
    s.(strong := s.strong + 1)
  }

  /** Dropping a connection: one strong reference fewer; dropping the last
      one runs the wrapper's destructor, which closes the display if owned
      and nulls the pointer in any case. */
  function DropStep(s: ArcState): (t: ArcState)
    requires s.strong > 0
    ensures t.strong == s.strong - 1 && t.owned == s.owned
    ensures t.closeCalls == s.closeCalls + (if s.owned && s.strong == 1 then 1 else 0)
    ensures t.strong > 0 ==> t.x11Display == s.x11Display
    ensures ArcInvariant(s) ==> ArcInvariant(t)
  {
    if s.strong == 1 then
      ArcState(0, NULL, s.owned, s.closeCalls + (if s.owned then 1 else 0))
    else
      s.(strong := s.strong - 1)
  }

  datatype RefOp = CloneRef | DropRef

  function Count(ops: seq<RefOp>, op: RefOp): nat {
    if ops == [] then 0 else (if ops[0] == op then 1 else 0) + Count(ops[1..], op)
  }

  /** Applies clones and drops of one connection in order. `None` when an
      operation would reach an Arc whose last clone is already gone, which
      Rust's ownership rules exclude. */
  function Replay(s: ArcState, ops: seq<RefOp>): Option<ArcState>
    decreases |ops|
  {
    if ops == [] then Some(s)
    else if s.strong == 0 then None
    else Replay(if ops[0] == CloneRef then CloneStep(s) else DropStep(s), ops[1..])
  }

  /** However clones and drops interleave, the shared wrapper keeps its
      invariant: the strong count is the initial one plus clones minus drops,
      the display stays put while a clone is alive, and `XCloseDisplay` is
      called at most once, and exactly once precisely when the display is
      owned and every clone has been dropped. */
  lemma {:induction false} ReplayClosesOnce(s: ArcState, ops: seq<RefOp>)
    requires ArcInvariant(s)
    requires Replay(s, ops).Some?
    ensures var t := Replay(s, ops).value;
      && ArcInvariant(t)
      && t.owned == s.owned
      && t.strong + Count(ops, DropRef) == s.strong + Count(ops, CloneRef)
      && (t.strong > 0 ==> t.x11Display == s.x11Display)
      && t.closeCalls <= 1
      && (t.closeCalls == 1 <==> s.owned && Count(ops, DropRef) == s.strong + Count(ops, CloneRef))
    decreases |ops|
  {
    if ops != [] {
      var next := if ops[0] == CloneRef then CloneStep(s) else DropStep(s);
      ReplayClosesOnce(next, ops[1..]);
    }
  }

  // ---------------------------------------------------------------------
  // The shared wrapper as an object

  /** `Arc<NativeConnectionWrapper>`: the wrapper's fields together with the
      Arc's strong count. */
  class NativeConnectionWrapper {
    const eglDisplay: EGLDisplay
    var x11Display: Ptr
    const x11DisplayIsOwned: bool
    /** The Xlib of the process the wrapper lives in. */
    const xlib: Xlib
    var strong: nat
    /** How many times this wrapper has called `XCloseDisplay`. */
    ghost var closeCalls: nat

    ghost function State(): ArcState
      reads this
    {
      ArcState(strong, x11Display, x11DisplayIsOwned, closeCalls)
    }

    ghost predicate Valid()
      reads this
    {
      ArcInvariant(State())
    }

    /** `Arc::new(NativeConnectionWrapper { .. })`. */
    constructor (eglDisplay: EGLDisplay, x11Display: Ptr, isOwned: bool, xlib: Xlib)
      requires isOwned ==> x11Display != NULL
      ensures Valid()
      ensures State() == ArcState(1, x11Display, isOwned, 0)
      ensures this.eglDisplay == eglDisplay && this.xlib == xlib
    {
      this.eglDisplay := eglDisplay;
      this.x11Display := x11Display;
      this.x11DisplayIsOwned := isOwned;
      this.xlib := xlib;
      strong := 1;
      closeCalls := 0;
    }

    /** `Arc::clone`. */
    method Retain()
      requires Valid() && strong > 0
      modifies this
      ensures Valid()
      ensures State() == CloneStep(old(State()))
    {
      strong := strong + 1;
    }

    /** Dropping one `Arc`: the last one runs the wrapper's destructor. */
    method Release()
      requires Valid() && strong > 0 && xlib.Valid()
      modifies this, xlib
      ensures Valid() && xlib.Valid()
      ensures State() == DropStep(old(State()))
      ensures xlib.State() ==
                if old(strong) == 1 && x11DisplayIsOwned then
                  old(xlib.State()).(openDisplays := old(xlib.openDisplays) - {old(x11Display)},
                                     closeLog := old(xlib.closeLog) + [old(x11Display)])
                else old(xlib.State())
    {
      strong := strong - 1;
      if strong == 0 {
        Drop();
      }
    }

    /** `impl Drop for NativeConnectionWrapper`: runs once, after the last
        strong reference is gone. */
    method Drop()
      requires strong == 0 && closeCalls == 0 && xlib.Valid()
      modifies this, xlib
      ensures xlib.Valid()
      ensures State() == ArcState(0, NULL, x11DisplayIsOwned, if x11DisplayIsOwned then 1 else 0)
      ensures xlib.State() ==
                if x11DisplayIsOwned then
                  old(xlib.State()).(openDisplays := old(xlib.openDisplays) - {old(x11Display)},
                                     closeLog := old(xlib.closeLog) + [old(x11Display)])
                else old(xlib.State())
    {
      if x11DisplayIsOwned {
        xlib.XCloseDisplay(x11Display);
        closeCalls := closeCalls + 1;
      }
      x11Display := NULL;
    }

    /** `lock_display`: locks the wrapper's display and returns the guard
        that will unlock it. */
    method LockDisplay() returns (guard: DisplayGuard)
      requires xlib.Valid()
      modifies xlib
      ensures xlib.Valid()
      ensures fresh(guard) && !guard.dropped
      ensures guard.Display() == x11Display && guard.xlib == xlib
      ensures xlib.State() == old(xlib.State()).(lockLog := old(xlib.lockLog) + [Lock(x11Display)])
      ensures Held(xlib.lockLog, x11Display) == Held(old(xlib.lockLog), x11Display) + 1
    {
      var display := x11Display;
      xlib.XLockDisplay(display);
      guard := new DisplayGuard(display, xlib);
      HeldConcat(old(xlib.lockLog), [Lock(display)], display);
    }
  }

  /** The guard `lock_display` returns; dropping it unlocks the display it
      locked. */
  class DisplayGuard {
    const display: Ptr
    const xlib: Xlib
    var dropped: bool

    constructor (display: Ptr, xlib: Xlib)
      ensures this.display == display && this.xlib == xlib && !dropped
    {
      this.display := display;
      this.xlib := xlib;
      dropped := false;
    }

    /** The display the guard keeps locked. */
    function Display(): (d: Ptr)
      ensures d == display
    {
      display
    }

    /** `impl Drop for DisplayGuard`: a guard is dropped exactly once. */
    method Drop()
      requires !dropped && xlib.Valid()
      modifies this, xlib
      ensures dropped && xlib.Valid()
      ensures xlib.State() == old(xlib.State()).(lockLog := old(xlib.lockLog) + [Unlock(display)])
      ensures Held(xlib.lockLog, display) == Held(old(xlib.lockLog), display) - 1
    {
      xlib.XUnlockDisplay(display);
      dropped := true;
      HeldConcat(old(xlib.lockLog), [Unlock(display)], display);
    }
  }

  /** How deeply `display` is locked after `log`: its locks minus its
      unlocks. */
  function Held(log: seq<LockEvent>, display: Ptr): int {
    if log == [] then 0
    else Held(log[..|log| - 1], display) + Effect(log[|log| - 1], display)
  }

  function Effect(e: LockEvent, display: Ptr): int {
    match e
    case Lock(d) => if d == display then 1 else 0
    case Unlock(d) => if d == display then -1 else 0
  }

  lemma {:induction false} HeldConcat(a: seq<LockEvent>, b: seq<LockEvent>, display: Ptr)
    ensures Held(a + b, display) == Held(a, display) + Held(b, display)
    decreases |b|
  {
    if b != [] {
      var b' := b[..|b| - 1];
      assert (a + b)[..|a + b| - 1] == a + b';
      assert (a + b)[|a + b| - 1] == b[|b| - 1];
      HeldConcat(a, b', display);
    } else {
      assert a + b == a;
    }
  }

  /** A guarded section leaves every display's lock depth where it was
      before, plus whatever the section itself left locked: the guard's
      unlock cancels its lock. */
  lemma {:induction false} GuardedSectionBalanced(before: seq<LockEvent>, inner: seq<LockEvent>, locked: Ptr, display: Ptr)
    ensures Held(before + [Lock(locked)] + inner + [Unlock(locked)], display) == Held(before, display) + Held(inner, display)
  {
    HeldConcat(before, [Lock(locked)], display);
    HeldConcat(before + [Lock(locked)], inner, display);
    HeldConcat(before + [Lock(locked)] + inner, [Unlock(locked)], display);
    assert Held([Lock(locked)], display) == Effect(Lock(locked), display) by {
      assert [Lock(locked)][..0] == [];
    }
    assert Held([Unlock(locked)], display) == Effect(Unlock(locked), display) by {
      assert [Unlock(locked)][..0] == [];
    }
  }

  // ---------------------------------------------------------------------
  // Connections

  /** `Connection { native_connection: Arc<NativeConnectionWrapper> }`. */
  datatype Connection = Connection(nativeConnection: NativeConnectionWrapper)

  /** The EGL display `create_egl_display` may return for `display`: one
      that `eglInitialize` accepts (otherwise the process aborts). */
  ghost predicate EglInitializes(egl: Egl, display: Ptr) {
    egl.initialize(egl.getPlatformDisplay(EGL_PLATFORM_X11_KHR, display)) != EGL_FALSE
  }

  /** `create_egl_display`: the X11-platform EGL display of `display`. Its
      `assert_ne!(ok, egl::FALSE)` is this function's precondition. */
  function CreateEglDisplay(egl: Egl, display: Ptr): (eglDisplay: EGLDisplay)
    requires EglInitializes(egl, display)
    ensures eglDisplay == egl.getPlatformDisplay(EGL_PLATFORM_X11_KHR, display)
    ensures egl.initialize(eglDisplay) != EGL_FALSE
  {
    egl.getPlatformDisplay(EGL_PLATFORM_X11_KHR, display)
  }

  /** `c` is a fresh connection, the only clone of a new wrapper over
      `x11Display` and the EGL display made from it. */
  ghost predicate NewWrapper(c: Connection, xlib: Xlib, egl: Egl, x11Display: Ptr, owned: bool)
    reads c.nativeConnection
    requires EglInitializes(egl, x11Display)
  {
    var w := c.nativeConnection;
    && w.Valid()
    && w.State() == ArcState(1, x11Display, owned, 0)
    && w.eglDisplay == CreateEglDisplay(egl, x11Display)
    && w.xlib == xlib
  }

  /** `Connection::new`: forces `X_THREADS_INIT`, then opens the default
      display; a null display is `ConnectionFailed` and makes no wrapper,
      any other gives a connection that owns its display. */
  method New(xlib: Xlib, displayReply: Ptr, egl: Egl) returns (r: Result<Connection>)
    requires xlib.Valid()
    requires displayReply == NULL || displayReply !in xlib.openDisplays
    requires displayReply != NULL ==> EglInitializes(egl, displayReply)
    modifies xlib
    ensures xlib.Valid() && xlib.threadsInitForced && xlib.initThreadsCalls == 1
    ensures r.Err? <==> displayReply == NULL
    ensures r.Err? ==> r.error == ConnectionFailed
    ensures xlib.State() == old(xlib.State()).(initThreadsCalls := 1, threadsInitForced := true,
                                               openDisplays := old(xlib.openDisplays) + if r.Ok? then {displayReply} else {})
    ensures r.Ok? ==> fresh(r.value.nativeConnection) && NewWrapper(r.value, xlib, egl, displayReply, true)
  {
    xlib.ForceThreadsInit();
    var x11Display := xlib.XOpenDisplay(displayReply);
    if x11Display == NULL {
      return Err(ConnectionFailed);
    }
    var eglDisplay := CreateEglDisplay(egl, x11Display);
    var wrapper := new NativeConnectionWrapper(eglDisplay, x11Display, true, xlib);
    r := Ok(Connection(wrapper));
  }

  /** `from_native_connection`: wraps handles made elsewhere; the new
      connection never owns the display, so dropping it never closes it. */
  method FromNativeConnection(xlib: Xlib, nativeConnection: NativeConnection) returns (r: Result<Connection>)
    ensures r.Ok? && fresh(r.value.nativeConnection)
    ensures var w := r.value.nativeConnection;
      && w.Valid() && w.State() == ArcState(1, nativeConnection.x11Display, false, 0) && w.xlib == xlib
      && NativeConnectionOf(r.value) == nativeConnection
  {
    var wrapper := new NativeConnectionWrapper(nativeConnection.eglDisplay, nativeConnection.x11Display, false, xlib);
    r := Ok(Connection(wrapper));
  }

  /** `from_x11_display`: a connection over a display handed in, owning it
      as told. */
  method FromX11Display(xlib: Xlib, x11Display: Ptr, isOwned: bool, egl: Egl) returns (r: Result<Connection>)
    requires isOwned ==> x11Display != NULL
    requires EglInitializes(egl, x11Display)
    ensures r.Ok? && fresh(r.value.nativeConnection) && NewWrapper(r.value, xlib, egl, x11Display, isOwned)
  {
    var eglDisplay := CreateEglDisplay(egl, x11Display);
    var wrapper := new NativeConnectionWrapper(eglDisplay, x11Display, isOwned, xlib);
    r := Ok(Connection(wrapper));
  }

  /** The display in a raw-window-handle 0.5 display handle: Xlib handles
      are accepted, XCB is recognised but not supported, and any other
      platform is incompatible. */
  function DisplayOfRawHandle(rawHandle: RawDisplayHandle05): (r: Result<Ptr>)
    ensures r.Ok? <==> rawHandle.XlibDisplay05?
    ensures r.Ok? ==> r.value == rawHandle.display
    ensures r.Err? ==> r.error == if rawHandle.XcbDisplay05? then Unimplemented else IncompatibleRawDisplayHandle
  {
    match rawHandle
    case XlibDisplay05(display, _) => Ok(display)
    case XcbDisplay05(_, _) => Err(Unimplemented)
    case _ => Err(IncompatibleRawDisplayHandle)
  }

  /** The display in a raw-window-handle 0.6 display handle: as for 0.5,
      except that an Xlib handle without a display is incompatible too, so
      the display found is never null. */
  function DisplayOfHandle(handle: DisplayHandle06): (r: Result<Ptr>)
    ensures r.Ok? <==> handle.raw.XlibDisplay06? && handle.raw.display.Some?
    ensures r.Ok? ==> r.value == handle.raw.display.value && r.value != NULL
    ensures r.Err? ==> r.error == if handle.raw.XcbDisplay06? then Unimplemented else IncompatibleRawDisplayHandle
  {
    match handle.raw
    case XlibDisplay06(Some(display), _) => Ok(display)
    case XcbDisplay06(_, _) => Err(Unimplemented)
    case _ => Err(IncompatibleRawDisplayHandle)
  }

  /** `from_raw_display_handle`: a connection that does not own the display
      of an Xlib handle; otherwise the classification's error. */
  method FromRawDisplayHandle(xlib: Xlib, rawHandle: RawDisplayHandle05, egl: Egl) returns (r: Result<Connection>)
    requires rawHandle.XlibDisplay05? ==> EglInitializes(egl, rawHandle.display)
    ensures DisplayOfRawHandle(rawHandle).Err? ==> r == Err(DisplayOfRawHandle(rawHandle).error)
    ensures DisplayOfRawHandle(rawHandle).Ok? ==>
              r.Ok? && fresh(r.value.nativeConnection) && NewWrapper(r.value, xlib, egl, rawHandle.display, false)
  {
    match DisplayOfRawHandle(rawHandle)
    case Err(e) => r := Err(e);
    case Ok(display) => r := FromX11Display(xlib, display, false, egl);
  }

  /** `from_display_handle`: the same for raw-window-handle 0.6. */
  method FromDisplayHandle(xlib: Xlib, handle: DisplayHandle06, egl: Egl) returns (r: Result<Connection>)
    requires DisplayOfHandle(handle).Ok? ==> EglInitializes(egl, DisplayOfHandle(handle).value)
    ensures DisplayOfHandle(handle).Err? ==> r == Err(DisplayOfHandle(handle).error)
    ensures DisplayOfHandle(handle).Ok? ==>
              r.Ok? && fresh(r.value.nativeConnection) && NewWrapper(r.value, xlib, egl, DisplayOfHandle(handle).value, false)
  {
    match DisplayOfHandle(handle)
    case Err(e) => r := Err(e);
    case Ok(display) => r := FromX11Display(xlib, display, false, egl);
  }

  /** `Connection::clone`: another handle on the same wrapper. */
  method CloneConnection(c: Connection) returns (clone: Connection)
    requires c.nativeConnection.Valid() && c.nativeConnection.strong > 0
    modifies c.nativeConnection
    ensures clone == c
    ensures c.nativeConnection.Valid()
    ensures c.nativeConnection.State() == CloneStep(old(c.nativeConnection.State()))
  {
    c.nativeConnection.Retain();
    clone := c;
  }

  /** Dropping a connection: the display is closed when this was the last
      clone and the wrapper owns it. */
  method DropConnection(c: Connection)
    requires c.nativeConnection.Valid() && c.nativeConnection.strong > 0 && c.nativeConnection.xlib.Valid()
    modifies c.nativeConnection, c.nativeConnection.xlib
    ensures c.nativeConnection.Valid() && c.nativeConnection.xlib.Valid()
    ensures c.nativeConnection.State() == DropStep(old(c.nativeConnection.State()))
    ensures c.nativeConnection.xlib.State() ==
              if old(c.nativeConnection.strong) == 1 && c.nativeConnection.x11DisplayIsOwned then
                old(c.nativeConnection.xlib.State()).(
                  openDisplays := old(c.nativeConnection.xlib.openDisplays) - {old(c.nativeConnection.x11Display)},
                  closeLog := old(c.nativeConnection.xlib.closeLog) + [old(c.nativeConnection.x11Display)])
              else old(c.nativeConnection.xlib.State())
  {
    c.nativeConnection.Release();
  }

  /** `native_connection`: the wrapper's two handles, without ownership. */
  function NativeConnectionOf(c: Connection): (nc: NativeConnection)
    reads c.nativeConnection
    ensures EglDisplay(nc) == c.nativeConnection.eglDisplay
    ensures nc.x11Display == c.nativeConnection.x11Display
  {
    NativeConnection(c.nativeConnection.eglDisplay, c.nativeConnection.x11Display)
  }

  /** `NativeConnection::egl_display`: every native connection names the
      EGL display made from its Xlib display. */
  function EglDisplay(nc: NativeConnection): (d: EGLDisplay)
    ensures d == nc.eglDisplay
  {
    nc.eglDisplay
  }

  function GlApi(c: Connection): GLApi {
    GL
  }

  function CreateAdapter(c: Connection): Result<Adapter> {
    CreateHardwareAdapter(c)
  }

  function CreateHardwareAdapter(c: Connection): Result<Adapter> {
    Ok(Hardware)
  }

  function CreateLowPowerAdapter(c: Connection): Result<Adapter> {
    Ok(LowPower)
  }

  function CreateSoftwareAdapter(c: Connection): Result<Adapter> {
    Ok(Software)
  }

  /** `create_device`: `Device::new(self, adapter)`, which is outside this
      model and is given as `openDevice`. */
  function CreateDevice<D>(c: Connection, adapter: Adapter, openDevice: (Connection, Adapter) -> Result<D>): (r: Result<D>)
    ensures r == openDevice(c, adapter)
  {
    openDevice(c, adapter)
  }

  /** `create_device_from_native_device`: opens a device on the adapter the
      native device names. */
  function CreateDeviceFromNativeDevice<D>(c: Connection, nativeDevice: NativeDevice,
                                           openDevice: (Connection, Adapter) -> Result<D>): (r: Result<D>)
    ensures r == CreateDevice(c, nativeDevice.adapter, openDevice)
  {
    openDevice(c, nativeDevice.adapter)
  }

  /** `create_native_widget_from_ptr`: the pointer is taken as the window
      id. */
  function CreateNativeWidgetFromPtr(c: Connection, raw: Ptr): (w: NativeWidget)
    ensures w.window == raw
  {
    NativeWidget(raw)
  }

  /** `create_native_widget_from_raw_window_handle`: Xlib windows only. */
  function CreateNativeWidgetFromRawWindowHandle(c: Connection, rawHandle: RawWindowHandle05): (r: Result<NativeWidget>)
    ensures r.Ok? <==> rawHandle.XlibWindow05?
    ensures r.Ok? ==> r.value.window == rawHandle.window
    ensures r.Err? ==> r.error == IncompatibleNativeWidget
  {
    match rawHandle
    case XlibWindow05(window, _) => Ok(NativeWidget(window))
    case _ => Err(IncompatibleNativeWidget)
  }

  /** `create_native_widget_from_window_handle`: Xlib windows only. */
  function CreateNativeWidgetFromWindowHandle(c: Connection, handle: WindowHandle06): (r: Result<NativeWidget>)
    ensures r.Ok? <==> handle.raw.XlibWindow06?
    ensures r.Ok? ==> r.value.window == handle.raw.window
    ensures r.Err? ==> r.error == IncompatibleNativeWidget
  {
    match handle.raw
    case XlibWindow06(window, _) => Ok(NativeWidget(window))
    case _ => Err(IncompatibleNativeWidget)
  }

  /** A widget is recovered from the Xlib window handle of its window, in
      both handle versions. */
  lemma WidgetHandleRoundTrip(c: Connection, w: NativeWidget, visualId: nat)
    ensures CreateNativeWidgetFromRawWindowHandle(c, XlibWindow05(w.window, visualId)) == Ok(w)
    ensures CreateNativeWidgetFromWindowHandle(c, WindowHandle06(XlibWindow06(w.window, visualId))) == Ok(w)
  {
  }

  /** The constant answers: `create_adapter` is `create_hardware_adapter`,
      the three adapter queries always succeed with their own tag, and the
      API flavour is desktop OpenGL. */
  lemma ConstantQueries(c: Connection)
    ensures CreateAdapter(c) == CreateHardwareAdapter(c) == Ok(Hardware)
    ensures CreateLowPowerAdapter(c) == Ok(LowPower)
    ensures CreateSoftwareAdapter(c) == Ok(Software)
    ensures GlApi(c) == GL
  {
  }
}
