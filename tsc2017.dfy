/** The `Touchpad` object of the Python package: configuration validated by property
    setters, a resource-manager handle and an optional device handle that `connect`
    and `disconnect` change, and `get_touch_data`, which polls the connector library and
    maps the device's coordinates into the caller's screen coordinates. */
module Tsc2017 {
  import opened PyValues
  import opened ConnectDll

  /** `touchpad_full_size`: the device's native resolution. */
  const TouchpadFullSize: (int, int) := (4096, 4096)

  /** The default `touchpad_center` and `touchpad_size` arguments of the constructor. */
  const DefaultCenter: PyValue := PyTuple([PyInt(0), PyInt(0)])
  const DefaultTouchpadSize: PyValue := PyTuple([PyInt(4096), PyInt(4096)])

  /** `TouchInfo`: a sample in output coordinates. `touched` is the C int the library
      reported (0 or 1), or `False`, which is 0, for a sample with no data. */
  datatype TouchInfo = TouchInfo(touched: int, x: int, y: int)

  /** The configuration `get_touch_data` reads, as integers. */
  datatype TransformConfig = TransformConfig(
    reverseLeftRight: bool,
    reverseUpDown: bool,
    center: (int, int),
    outputScreenSize: (int, int),
    touchpadSize: (int, int))

  // ---------------------------------------------------------------------------
  //  Arithmetic
  // ---------------------------------------------------------------------------

  function Abs(n: int): nat {
    if n < 0 then -n else n
  }

  /** Floor division of naturals brackets the dividend. */
  lemma DivBrackets(a: nat, b: nat)
    requires b > 0
    ensures (a / b) * b <= a < (a / b + 1) * b
  {
    var q, r := a / b, a % b;
    assert a == q * b + r && 0 <= r < b;
    assert (q + 1) * b == q * b + b;
  }

  /** `int(n / d)` under true division: the quotient truncated toward zero. */
  function TruncDiv(n: int, d: int): int
    requires d != 0
  {
    var m := Abs(n) / Abs(d);
    if (n < 0) != (d < 0) then -m else m
  }

  /** The truncated quotient's magnitude is the floor of |n| / |d|, and it is
      negative exactly when the signs of `n` and `d` differ and it is not zero. */
  lemma TruncDivBrackets(n: int, d: int)
    requires d != 0
    ensures var q := TruncDiv(n, d);
            && Abs(q) * Abs(d) <= Abs(n) < (Abs(q) + 1) * Abs(d)
            && (q != 0 ==> ((q < 0) <==> ((n < 0) != (d < 0))))
  {
    var m := Abs(n) / Abs(d);
    DivBrackets(Abs(n), Abs(d));
    assert Abs(TruncDiv(n, d)) == m;
  }

  /** Truncation is symmetric about zero, unlike Dafny's Euclidean division. */
  lemma TruncDivNegate(n: int, d: int)
    requires d != 0
    ensures TruncDiv(-n, d) == -TruncDiv(n, d)
  {
    if n == 0 {
      assert Abs(n) / Abs(d) == 0;
    } else {
      assert Abs(-n) == Abs(n);
    }
  }

  /** The magnitude of a product is the product of the magnitudes. */
  lemma AbsMul(n: int, d: int)
    ensures Abs(n * d) == Abs(n) * Abs(d)
  {
    if n < 0 && d < 0 {
      assert n * d == (-n) * (-d);
    } else if n < 0 {
      assert -(n * d) == (-n) * d;
    } else if d < 0 {
      assert -(n * d) == n * (-d);
    }
  }

  /** Multiplying and then dividing a natural by the same positive number is exact. */
  lemma MulDivCancel(a: nat, b: nat)
    requires b > 0
    ensures a * b / b == a
  {
    var q, r := a * b / b, a * b % b;
    assert a * b == q * b + r && 0 <= r < b;
    var k := a - q;
    assert k * b == r by {
      assert k * b == a * b - q * b;
    }
  }

  /** Dividing a multiple of `d` by `d` is exact. */
  lemma TruncDivExact(n: int, d: int)
    requires d != 0
    ensures TruncDiv(n * d, d) == n
  {
    AbsMul(n, d);
    MulDivCancel(Abs(n), Abs(d));
    if n != 0 {
      assert (n * d < 0) <==> ((n < 0) != (d < 0)) by {
        if n < 0 && d < 0 {
          assert n * d == (-n) * (-d);
        } else if n < 0 {
          assert -(n * d) == (-n) * d;
        } else if d < 0 {
          assert -(n * d) == n * (-d);
        }
      }
    }
  }

  /** For a non-negative dividend and a positive divisor truncation is floor division. */
  lemma TruncDivAgreesWithFloor(n: int, d: int)
    requires n >= 0 && d > 0
    ensures TruncDiv(n, d) == n / d
  {
  }

  // ---------------------------------------------------------------------------
  //  The coordinate pipeline of `get_touch_data`
  // ---------------------------------------------------------------------------

  /** Step 1: move the origin to the middle of the native resolution
      (`data.x - touchpad_full_size[0] / 2`; the raw value is whole, so rounding is exact). */
  function Recentre(raw: int, fullSize: int): int {
    raw - fullSize / 2
  }

  /** Step 2: flip the sign when the axis is reversed. */
  function Flip(v: int, reverse: bool): int {
    if reverse then -v else v
  }

  /** Step 4: `int(v * output / touchpad)`; a zero touchpad size raises. */
  function Rescale(v: int, output: int, touchpad: int): Result<int> {
    if touchpad == 0 then Raises(ZeroDivisionError) else Returns(TruncDiv(v * output, touchpad))
  }

  /** The coordinates `get_touch_data` computes from one native record: recentre,
      flip, add `touchpad_center` (step 3), rescale; x is rescaled before y. It raises
      exactly when a touchpad size component is zero, and then `ZeroDivisionError`;
      otherwise `touched` passes through. */
  function Transform(cfg: TransformConfig, data: NativeTouchInfo): (r: Result<TouchInfo>)
    ensures r.Raises? <==> cfg.touchpadSize.0 == 0 || cfg.touchpadSize.1 == 0
    ensures r.Raises? ==> r.exc == ZeroDivisionError
    ensures r.Returns? ==> r.value.touched == data.touched
  {
    var x := Flip(Recentre(data.x, TouchpadFullSize.0), cfg.reverseLeftRight) + cfg.center.0;
    var y := Flip(Recentre(data.y, TouchpadFullSize.1), cfg.reverseUpDown) + cfg.center.1;
    match Rescale(x, cfg.outputScreenSize.0, cfg.touchpadSize.0)
    case Raises(e) => Raises(e)
    case Returns(sx) =>
      match Rescale(y, cfg.outputScreenSize.1, cfg.touchpadSize.1)
      case Raises(e) => Raises(e)
      case Returns(sy) => Returns(TouchInfo(data.touched, sx, sy))
  }

  /** What `get_touch_data` returns for the record `data` polled from the library,
      given the cached sample `cache`: an invalid record falls back to the cache, and
      to an untouched sample at (0, 0) when nothing is cached. Only a valid or a
      cached record reaches the division, so only then can it raise, and then
      `ZeroDivisionError`. */
  function Poll(cfg: TransformConfig, cache: Option<NativeTouchInfo>, data: NativeTouchInfo): (r: Result<TouchInfo>)
    ensures r.Raises? ==> r.exc == ZeroDivisionError && (data.valid != 0 || cache.Some?)
    ensures r.Raises? <==> (data.valid != 0 || cache.Some?) && (cfg.touchpadSize.0 == 0 || cfg.touchpadSize.1 == 0)
  {
    if data.valid == 0 then
      match cache
      case None => Returns(TouchInfo(0, 0, 0))
      case Some(last) => Transform(cfg, last)
    else Transform(cfg, data)
  }

  /** The closed form of the pipeline:
      x = trunc((±(raw.x − 2048) + center.x) · output.w / touchpad.w), and likewise for y;
      `touched` passes through. */
  lemma TransformFormula(cfg: TransformConfig, data: NativeTouchInfo)
    requires cfg.touchpadSize.0 != 0 && cfg.touchpadSize.1 != 0
    ensures Transform(cfg, data) == Returns(TouchInfo(
      data.touched,
      TruncDiv(((if cfg.reverseLeftRight then -1 else 1) * (data.x - 2048) + cfg.center.0) * cfg.outputScreenSize.0,
               cfg.touchpadSize.0),
      TruncDiv(((if cfg.reverseUpDown then -1 else 1) * (data.y - 2048) + cfg.center.1) * cfg.outputScreenSize.1,
               cfg.touchpadSize.1)))
  {
  }

  /** When the output size equals the touchpad size the rescale is the identity: the
      result is the recentred, possibly flipped, shifted raw coordinate, exactly. */
  lemma IdentityScaleIsExact(cfg: TransformConfig, data: NativeTouchInfo)
    requires cfg.outputScreenSize == cfg.touchpadSize
    requires cfg.touchpadSize.0 != 0 && cfg.touchpadSize.1 != 0
    ensures Transform(cfg, data) == Returns(TouchInfo(
      data.touched,
      Flip(data.x - 2048, cfg.reverseLeftRight) + cfg.center.0,
      Flip(data.y - 2048, cfg.reverseUpDown) + cfg.center.1))
  {
    var x := Flip(Recentre(data.x, TouchpadFullSize.0), cfg.reverseLeftRight) + cfg.center.0;
    var y := Flip(Recentre(data.y, TouchpadFullSize.1), cfg.reverseUpDown) + cfg.center.1;
    TruncDivExact(x, cfg.touchpadSize.0);
    TruncDivExact(y, cfg.touchpadSize.1);
  }

  /** The rescaled value of a flipped offset is the negated rescaled value. */
  lemma FlippedQuotient(d: int, output: int, touchpad: int)
    requires touchpad != 0
    ensures TruncDiv((-1 * d + 0) * output, touchpad) == -TruncDiv((1 * d + 0) * output, touchpad)
  {
    assert (-1 * d + 0) * output == -(d * output);
    TruncDivNegate(d * output, touchpad);
  }

  /** With the centre at (0, 0), reversing left and right negates the output x and
      leaves y alone. */
  lemma ReverseLeftRightNegates(cfg: TransformConfig, data: NativeTouchInfo)
    requires cfg.center == (0, 0)
    requires cfg.touchpadSize.0 != 0 && cfg.touchpadSize.1 != 0
    ensures var plain := Transform(cfg.(reverseLeftRight := false), data);
            var flipped := Transform(cfg.(reverseLeftRight := true), data);
            plain.Returns? && flipped.Returns? &&
            flipped.value.x == -plain.value.x && flipped.value.y == plain.value.y
  {
    TransformFormula(cfg.(reverseLeftRight := false), data);
    TransformFormula(cfg.(reverseLeftRight := true), data);
    FlippedQuotient(data.x - 2048, cfg.outputScreenSize.0, cfg.touchpadSize.0);
  }

  /** With the centre at (0, 0), reversing up and down negates the output y and
      leaves x alone. */
  lemma ReverseUpDownNegates(cfg: TransformConfig, data: NativeTouchInfo)
    requires cfg.center == (0, 0)
    requires cfg.touchpadSize.0 != 0 && cfg.touchpadSize.1 != 0
    ensures var plain := Transform(cfg.(reverseUpDown := false), data);
            var flipped := Transform(cfg.(reverseUpDown := true), data);
            plain.Returns? && flipped.Returns? &&
            flipped.value.y == -plain.value.y && flipped.value.x == plain.value.x
  {
    TransformFormula(cfg.(reverseUpDown := false), data);
    TransformFormula(cfg.(reverseUpDown := true), data);
    FlippedQuotient(data.y - 2048, cfg.outputScreenSize.1, cfg.touchpadSize.1);
  }

  /** The fallback for an invalid record: with nothing cached it is an untouched
      sample at (0, 0) whatever the configuration; with a cached record it is that
      record transformed. A valid record is transformed whatever is cached. */
  lemma FallbackPolicy(cfg: TransformConfig, cache: Option<NativeTouchInfo>, data: NativeTouchInfo)
    ensures data.valid == 0 && cache.None? ==> Poll(cfg, cache, data) == Returns(TouchInfo(0, 0, 0))
    ensures data.valid == 0 && cache.Some? ==> Poll(cfg, cache, data) == Transform(cfg, cache.value)
    ensures data.valid != 0 ==> Poll(cfg, cache, data) == Poll(cfg, None, data) == Transform(cfg, data)
  {
  }

  /** With nothing cached, a poll never yields a touch the library did not report:
      an untouched record, or one with no data, gives an untouched sample. */
  lemma NoCacheNoPhantomTouch(cfg: TransformConfig, data: NativeTouchInfo)
    requires data.valid == 0 || data.touched == 0
    ensures Poll(cfg, None, data).Returns? ==> Poll(cfg, None, data).value.touched == 0
  {
  }

  // Scenarios: the raw record (touched, 3048, 3048) with output size equal to the
  // touchpad size, and (touched, 1024, 1024) with a 2000 x 1000 output.

  function TestConfig(reverseLeftRight: bool, reverseUpDown: bool, center: (int, int), output: (int, int)): TransformConfig {
    TransformConfig(reverseLeftRight, reverseUpDown, center, output, TouchpadFullSize)
  }

  lemma Scenarios()
    ensures Transform(TestConfig(false, false, (0, 0), (4096, 4096)), NativeTouchInfo(1, 1, 3048, 3048))
              == Returns(TouchInfo(1, 1000, 1000))
    ensures Transform(TestConfig(true, false, (0, 0), (4096, 4096)), NativeTouchInfo(1, 1, 3048, 3048))
              == Returns(TouchInfo(1, -1000, 1000))
    ensures Transform(TestConfig(false, true, (0, 0), (4096, 4096)), NativeTouchInfo(1, 1, 3048, 3048))
              == Returns(TouchInfo(1, 1000, -1000))
    ensures Transform(TestConfig(false, false, (500, 500), (4096, 4096)), NativeTouchInfo(1, 1, 3048, 3048))
              == Returns(TouchInfo(1, 1500, 1500))
    ensures Transform(TestConfig(true, false, (500, 500), (4096, 4096)), NativeTouchInfo(1, 1, 3048, 3048))
              == Returns(TouchInfo(1, -500, 1500))
    ensures Transform(TestConfig(false, false, (0, 0), (2000, 1000)), NativeTouchInfo(1, 1, 1024, 1024))
              == Returns(TouchInfo(1, -500, -250))
    ensures Poll(TestConfig(false, false, (0, 0), (2000, 1000)), None, NativeTouchInfo(0, 1, 1024, 1024))
              == Returns(TouchInfo(0, 0, 0))
  {
  }

  // ---------------------------------------------------------------------------
  //  Setter validation
  // ---------------------------------------------------------------------------

  /** The exception the `reverse_left_right` / `reverse_up_down` setters raise, if any. */
  function FlagCheck(value: PyValue, attribute: string): Option<Exception> {
    if value.PyBool? then None else Some(TypeError(attribute))
  }

  /** The exception a coordinate setter raises, if any: `is_coord`'s own exception,
      or `TypeError` when it is false. */
  function CoordCheck(value: PyValue, attribute: string): Option<Exception> {
    match IsCoord(value)
    case Raises(e) => Some(e)
    case Returns(ok) => if ok then None else Some(TypeError(attribute))
  }

  /** The result of a setter that raises `err`, if any. */
  function Outcome(err: Option<Exception>): Result<()> {
    match err
    case None => Returns(())
    case Some(e) => Raises(e)
  }

  /** The first of two pending exceptions. */
  function FirstOf(a: Option<Exception>, b: Option<Exception>): Option<Exception> {
    if a.Some? then a else b
  }

  /** The exception the constructor's setters raise, in the order they run. The
      `touchpad_center` setter's message names `output_center`. */
  function InitError(outputScreenSize: PyValue, reverseLeftRight: PyValue, reverseUpDown: PyValue,
                     touchpadCenter: PyValue, touchpadSize: PyValue): Option<Exception>
  {
    FirstOf(FlagCheck(reverseLeftRight, "reverse_left_right"),
    FirstOf(FlagCheck(reverseUpDown, "reverse_up_down"),
    FirstOf(CoordCheck(touchpadCenter, "output_center"),
    FirstOf(CoordCheck(outputScreenSize, "output_screen_size"),
            CoordCheck(touchpadSize, "touchpad_size")))))
  }

  /** The flag setters accept exactly the bools; `1` and `None` raise `TypeError`. */
  lemma FlagSetterAcceptsOnlyBools(value: PyValue, attribute: string)
    ensures FlagCheck(value, attribute).None? <==> value.PyBool?
    ensures FlagCheck(value, attribute).Some? ==> FlagCheck(value, attribute).value == TypeError(attribute)
    ensures FlagCheck(PyInt(1), attribute).Some? && FlagCheck(PyNone, attribute).Some?
  {
  }

  /** The coordinate setters accept exactly the integer pairs and otherwise raise
      `TypeError`. */
  lemma CoordSetterAcceptsOnlyPairs(value: PyValue, attribute: string)
    ensures CoordCheck(value, attribute).None? <==> IsIntPair(value)
    ensures CoordCheck(value, attribute).Some? ==> CoordCheck(value, attribute).value.TypeError?
  {
    IsCoordExactly(value);
  }

  /** Construction succeeds exactly when every argument passes its setter; the
      defaults do. */
  lemma InitErrorExactly(outputScreenSize: PyValue, reverseLeftRight: PyValue, reverseUpDown: PyValue,
                         touchpadCenter: PyValue, touchpadSize: PyValue)
    ensures InitError(outputScreenSize, reverseLeftRight, reverseUpDown, touchpadCenter, touchpadSize).None?
            <==> reverseLeftRight.PyBool? && reverseUpDown.PyBool?
                 && IsIntPair(touchpadCenter) && IsIntPair(outputScreenSize) && IsIntPair(touchpadSize)
    ensures InitError(outputScreenSize, reverseLeftRight, reverseUpDown, touchpadCenter, touchpadSize).Some? ==>
            InitError(outputScreenSize, reverseLeftRight, reverseUpDown, touchpadCenter, touchpadSize).value.TypeError?
    ensures IsIntPair(outputScreenSize) ==>
            InitError(outputScreenSize, PyBool(false), PyBool(false), DefaultCenter, DefaultTouchpadSize).None?
  {
    IsCoordExactly(touchpadCenter);
    IsCoordExactly(outputScreenSize);
    IsCoordExactly(touchpadSize);
  }

  // ---------------------------------------------------------------------------
  //  The Touchpad object
  // ---------------------------------------------------------------------------

  /** The device handles an optional `_resource` stands for. */
  function Held(resource: Option<u32>): set<u32> {
    match resource
    case None => {}
    case Some(h) => {h}
  }

  /** The calls `disconnect` makes when `resource` is held. */
  function DisconnectCalls(resource: Option<u32>): seq<Call> {
    match resource
    case None => []
    case Some(h) => [Disconnected(h)]
  }

  /** The polls `get_touch_data` makes: one when connected, none otherwise. */
  function PollCalls(resource: Option<u32>): seq<Call> {
    match resource
    case None => []
    case Some(h) => [Polled(h)]
  }

  class Touchpad {
    /** `_library`. */
    const lib: Dll
    /** `_resource_manager`. */
    const resourceManager: u32
    /** `_resource`: the connected device, or `None`. */
    var resource: Option<u32>
    /** `_last_touch_data`: the record an invalid poll falls back to. */
    var lastTouchData: Option<NativeTouchInfo>
    var reverseLeftRight: bool
    var reverseUpDown: bool
    var touchpadCenter: PyValue
    var outputScreenSize: PyValue
    var touchpadSize: PyValue

    /** The handle invariant: this object is the library's only client, the
        resource-manager handle is non-zero, and the open device handles are exactly
        `_resource`. */
    ghost predicate Sound()
      reads this, lib, lib.lastEvent
    {
      && lib.Valid()
      && resourceManager != 0
      && Disciplined(lib.log)
      && Live(lib.log) == Held(resource)
      && (resource.Some? ==> resource.value != 0)
    }

    /** Every coordinate attribute holds a value `is_coord` accepts. */
    ghost predicate Configured()
      reads this
    {
      && IsCoord(touchpadCenter) == Returns(true)
      && IsCoord(outputScreenSize) == Returns(true)
      && IsCoord(touchpadSize) == Returns(true)
    }

    /** The object invariant. `_last_touch_data` is never assigned after `__init__`,
        so the cache stays empty and an invalid poll yields `(False, 0, 0)`. */
    ghost predicate Valid()
      reads this, lib, lib.lastEvent
    {
      Sound() && Configured() && lastTouchData == None
    }

    /** The configuration as `get_touch_data` reads it. */
    function Config(): TransformConfig
      requires Configured()
      reads this
    {
      TransformConfig(reverseLeftRight, reverseUpDown,
                      CoordOf(touchpadCenter), CoordOf(outputScreenSize), CoordOf(touchpadSize))
    }

    /** What the next `get_touch_data` call yields. */
    ghost function Expected(): Result<TouchInfo>
      requires Valid()
      reads this, lib, lib.lastEvent, lib.lastEvent.data
    {
      match resource
      case None => Raises(TscError(NotConnected))
      case Some(_) => Poll(Config(), lastTouchData, TouchInfoOf(lib.lastEvent.nbytes, lib.lastEvent.data[..]))
    }

    /** Under the invariant, a connected poll that finds no valid record yields
        `(False, 0, 0)`, since nothing is ever cached. */
    lemma InvalidPollYieldsNothing()
      requires Valid() && resource.Some?
      requires TouchInfoOf(lib.lastEvent.nbytes, lib.lastEvent.data[..]).valid == 0
      ensures Expected() == Returns(TouchInfo(0, 0, 0))
    {
      FallbackPolicy(Config(), lastTouchData, TouchInfoOf(lib.lastEvent.nbytes, lib.lastEvent.data[..]));
    }

    /** The state `__init__` leaves behind: nothing connected, nothing cached, and
        the arguments stored in their attributes. */
    ghost predicate InitialState(outputScreenSize: PyValue, reverseLeftRight: PyValue, reverseUpDown: PyValue,
                                 touchpadCenter: PyValue, touchpadSize: PyValue)
      reads this
    {
      && resource == None && lastTouchData == None
      && reverseLeftRight.PyBool? && this.reverseLeftRight == reverseLeftRight.b
      && reverseUpDown.PyBool? && this.reverseUpDown == reverseUpDown.b
      && this.touchpadCenter == touchpadCenter && this.outputScreenSize == outputScreenSize
      && this.touchpadSize == touchpadSize
    }

    /** The attributes `__init__` sets before its setters run: `_library`,
        `_resource_manager`, `_resource = None`, and `_last_touch_data = None`. The
        configuration attributes do not exist yet; the placeholders here are never read. */
    constructor Init(lib: Dll, rm: u32)
      requires rm != 0
      ensures this.lib == lib && resourceManager == rm
      ensures resource == None && lastTouchData == None
      ensures !reverseLeftRight && !reverseUpDown
      ensures touchpadCenter == PyNone && outputScreenSize == PyNone && touchpadSize == PyNone
    {
      this.lib := lib;
      resourceManager := rm;
      resource := None;
      lastTouchData := None;
      reverseLeftRight := false;
      reverseUpDown := false;
      touchpadCenter := PyNone;
      outputScreenSize := PyNone;
      touchpadSize := PyNone;
    }

    /** `Touchpad(output_screen_size, ...)`. A zero resource manager raises
        `TSCError`; a rejected argument raises its setter's exception. Either way the
        finaliser of the half-built object runs, which releases the resource manager
        (handle 0 included) and opens nothing. */
    static method Create(lib: Dll, outputScreenSize: PyValue, reverseLeftRight: PyValue, reverseUpDown: PyValue,
                         touchpadCenter: PyValue, touchpadSize: PyValue)
      returns (r: Result<Touchpad>)
      requires lib.Valid() && Disciplined(lib.log) && Live(lib.log) == {}
      modifies lib`log
      ensures Disciplined(lib.log) && Live(lib.log) == {}
      ensures var err := InitError(outputScreenSize, reverseLeftRight, reverseUpDown, touchpadCenter, touchpadSize);
              && (lib.defaultRm == 0 ==> r == Raises(TscError(NoResourceManager)))
              && (lib.defaultRm != 0 && err.Some? ==> r == Raises(err.value))
              && (r.Returns? <==> lib.defaultRm != 0 && err.None?)
      ensures r.Raises? ==> lib.log == old(lib.log) + [CreatedRm(lib.defaultRm)] + [CleanedUpRm(lib.defaultRm)]
      ensures r.Returns? ==>
                && fresh(r.value) && r.value.lib == lib && r.value.Valid()
                && lib.log == old(lib.log) + [CreatedRm(lib.defaultRm)]
                && r.value.resourceManager == lib.defaultRm
                && r.value.InitialState(outputScreenSize, reverseLeftRight, reverseUpDown, touchpadCenter, touchpadSize)
    {
      var rm := lib.CreateResourceManager();
      DisciplinedSnoc(old(lib.log), CreatedRm(rm));
      LiveSnoc(old(lib.log), CreatedRm(rm));
      if rm == 0 {
        // finaliser: `_resource` was never set, `_resource_manager` was
        ReleaseManager(lib, rm);
        r := Raises(TscError(NoResourceManager));
      } else {
        r := Build(lib, rm, outputScreenSize, reverseLeftRight, reverseUpDown, touchpadCenter, touchpadSize);
      }
    }

    /** `cleanup_resource_manager` called while no device is open keeps the
        discipline and leaves nothing open. */
    static method ReleaseManager(lib: Dll, rm: u32)
      requires Disciplined(lib.log) && Live(lib.log) == {}
      modifies lib`log
      ensures lib.log == old(lib.log) + [CleanedUpRm(rm)]
      ensures Disciplined(lib.log) && Live(lib.log) == {}
    {
      lib.CleanupResourceManager(rm);
      DisciplinedSnoc(old(lib.log), CleanedUpRm(rm));
      LiveSnoc(old(lib.log), CleanedUpRm(rm));
    }

    /** The part of `__init__` after a non-zero resource manager was obtained: the
        setters run, and when one raises the finaliser releases the manager. */
    static method Build(lib: Dll, rm: u32, outputScreenSize: PyValue, reverseLeftRight: PyValue, reverseUpDown: PyValue,
                        touchpadCenter: PyValue, touchpadSize: PyValue)
      returns (r: Result<Touchpad>)
      requires rm != 0 && lib.Valid() && Disciplined(lib.log) && Live(lib.log) == {}
      modifies lib`log
      ensures Disciplined(lib.log) && Live(lib.log) == {}
      ensures var err := InitError(outputScreenSize, reverseLeftRight, reverseUpDown, touchpadCenter, touchpadSize);
              && (err.Some? ==> r == Raises(err.value))
              && (r.Returns? <==> err.None?)
      ensures r.Raises? ==> lib.log == old(lib.log) + [CleanedUpRm(rm)]
      ensures r.Returns? ==>
                && fresh(r.value) && r.value.lib == lib && r.value.Valid()
                && lib.log == old(lib.log)
                && r.value.resourceManager == rm
                && r.value.InitialState(outputScreenSize, reverseLeftRight, reverseUpDown, touchpadCenter, touchpadSize)
    {
      var t := new Touchpad.Init(lib, rm);
      assert t.Sound();
      ghost var err := InitError(outputScreenSize, reverseLeftRight, reverseUpDown, touchpadCenter, touchpadSize);
      var o := t.Configure(outputScreenSize, reverseLeftRight, reverseUpDown, touchpadCenter, touchpadSize);
      assert o == Outcome(err);
      assert t.Sound() && t.resource == None;
      if o.Raises? {
        t.Finalize();
        assert err.Some? && o.exc == err.value;
        return Raises(o.exc);
      }
      assert err.None?;
      return Returns(t);
    }

    /** The setter calls of `__init__`, in order; the first one that raises stops the rest. */
    method Configure(outputScreenSize: PyValue, reverseLeftRight: PyValue, reverseUpDown: PyValue,
                     touchpadCenter: PyValue, touchpadSize: PyValue)
      returns (r: Result<()>)
      modifies this`reverseLeftRight, this`reverseUpDown, this`touchpadCenter, this`outputScreenSize, this`touchpadSize
      ensures r == Outcome(InitError(outputScreenSize, reverseLeftRight, reverseUpDown, touchpadCenter, touchpadSize))
      ensures r.Returns? ==>
                && Configured()
                && this.reverseLeftRight == reverseLeftRight.b && this.reverseUpDown == reverseUpDown.b
                && this.touchpadCenter == touchpadCenter && this.outputScreenSize == outputScreenSize
                && this.touchpadSize == touchpadSize
    {
      r := SetReverseLeftRight(reverseLeftRight);
      if r.Raises? {
        return;
      }
      r := SetReverseUpDown(reverseUpDown);
      if r.Raises? {
        return;
      }
      r := SetTouchpadCenter(touchpadCenter);
      if r.Raises? {
        return;
      }
      r := SetOutputScreenSize(outputScreenSize);
      if r.Raises? {
        return;
      }
      r := SetTouchpadSize(touchpadSize);
    }

    /** `__del__`: disconnects, then releases the resource manager, so the release
        always happens with no device open. */
    method Finalize()
      requires Sound()
      modifies this`resource, lib`log
      ensures Sound() && resource == None && Live(lib.log) == {}
      ensures lib.log == old(lib.log) + DisconnectCalls(old(resource)) + [CleanedUpRm(resourceManager)]
    {
      Disconnect();
      ghost var before := lib.log;
      lib.CleanupResourceManager(resourceManager);
      DisciplinedSnoc(before, CleanedUpRm(resourceManager));
      LiveSnoc(before, CleanedUpRm(resourceManager));
    }

    /** The `reverse_left_right` setter: only a bool is accepted. */
    method SetReverseLeftRight(value: PyValue) returns (r: Result<()>)
      modifies this`reverseLeftRight
      ensures r == Outcome(FlagCheck(value, "reverse_left_right"))
      ensures reverseLeftRight == if value.PyBool? then value.b else old(reverseLeftRight)
    {
      if !value.PyBool? {
        return Raises(TypeError("reverse_left_right"));
      }
      reverseLeftRight := value.b;
      r := Returns(());
    }

    /** The `reverse_up_down` setter: only a bool is accepted. */
    method SetReverseUpDown(value: PyValue) returns (r: Result<()>)
      modifies this`reverseUpDown
      ensures r == Outcome(FlagCheck(value, "reverse_up_down"))
      ensures reverseUpDown == if value.PyBool? then value.b else old(reverseUpDown)
    {
      if !value.PyBool? {
        return Raises(TypeError("reverse_up_down"));
      }
      reverseUpDown := value.b;
      r := Returns(());
    }

    /** The `touchpad_center` setter: only a value `is_coord` accepts. */
    method SetTouchpadCenter(value: PyValue) returns (r: Result<()>)
      modifies this`touchpadCenter
      ensures r == Outcome(CoordCheck(value, "output_center"))
      ensures touchpadCenter == if r.Returns? then value else old(touchpadCenter)
    {
      var ok := IsCoord(value);
      if ok.Raises? {
        return Raises(ok.exc);
      }
      if !ok.value {
        return Raises(TypeError("output_center"));
      }
      touchpadCenter := value;
      r := Returns(());
    }

    /** The `output_screen_size` setter: only a value `is_coord` accepts. */
    method SetOutputScreenSize(value: PyValue) returns (r: Result<()>)
      modifies this`outputScreenSize
      ensures r == Outcome(CoordCheck(value, "output_screen_size"))
      ensures outputScreenSize == if r.Returns? then value else old(outputScreenSize)
    {
      var ok := IsCoord(value);
      if ok.Raises? {
        return Raises(ok.exc);
      }
      if !ok.value {
        return Raises(TypeError("output_screen_size"));
      }
      outputScreenSize := value;
      r := Returns(());
    }

    /** The `touchpad_size` setter: only a value `is_coord` accepts (zero included). */
    method SetTouchpadSize(value: PyValue) returns (r: Result<()>)
      modifies this`touchpadSize
      ensures r == Outcome(CoordCheck(value, "touchpad_size"))
      ensures touchpadSize == if r.Returns? then value else old(touchpadSize)
    {
      var ok := IsCoord(value);
      if ok.Raises? {
        return Raises(ok.exc);
      }
      if !ok.value {
        return Raises(TypeError("touchpad_size"));
      }
      touchpadSize := value;
      r := Returns(());
    }

    /** `connect(device_name)`: drops a held device first, then opens `device_name`;
        a zero handle raises `TSCError` and leaves nothing held. */
    method Connect(deviceName: string) returns (r: Result<()>)
      requires Sound()
      modifies this`resource, lib`log
      ensures Sound()
      ensures var h := lib.ConnectReply(deviceName);
              && lib.log == old(lib.log) + DisconnectCalls(old(resource)) + [Connected(resourceManager, deviceName, h)]
              && resource == (if h == 0 then None else Some(h))
              && r == (if h == 0 then Raises(TscError(ConnectFailed(deviceName))) else Returns(()))
    {
      if resource.Some? {
        Disconnect();
      }
      ghost var before := lib.log;
      assert before == old(lib.log) + DisconnectCalls(old(resource));
      var handle := lib.Connect(resourceManager, deviceName);
      DisciplinedSnoc(before, Connected(resourceManager, deviceName, handle));
      LiveSnoc(before, Connected(resourceManager, deviceName, handle));
      if handle == 0 {
        r := Raises(TscError(ConnectFailed(deviceName)));
      } else {
        resource := Some(handle);
        r := Returns(());
      }
    }

    /** `disconnect()`: closes the device only when one is held, then forgets it; a
        second call changes nothing. */
    method Disconnect()
      requires Sound()
      modifies this`resource, lib`log
      ensures Sound() && resource == None
      ensures lib.log == old(lib.log) + DisconnectCalls(old(resource))
    {
      if resource.Some? {
        ghost var before := lib.log;
        lib.Disconnect(resource.value);
        DisciplinedSnoc(before, Disconnected(resource.value));
        LiveSnoc(before, Disconnected(resource.value));
        resource := None;
      }
    }

    /** `get_touch_data()`: raises `TSCError` when not connected; otherwise polls the
        library once and maps the record (or the cached one) into output coordinates. */
    method GetTouchData() returns (r: Result<TouchInfo>)
      requires Valid()
      modifies lib`log
      ensures Valid() && unchanged(this)
      ensures r == old(Expected())
      ensures lib.log == old(lib.log) + PollCalls(resource)
    {
      if resource.None? {
        return Raises(TscError(NotConnected));
      }
      ghost var before := lib.log;
      var data := lib.GetTouchInfo(resource.value);
      DisciplinedSnoc(before, Polled(resource.value));
      LiveSnoc(before, Polled(resource.value));

      if data.valid == 0 {
        match lastTouchData
        case None =>
          return Returns(TouchInfo(0, 0, 0));
        case Some(last) =>
          data := last;
      }

      var center, output, size := CoordOf(touchpadCenter), CoordOf(outputScreenSize), CoordOf(touchpadSize);
      var x := data.x - TouchpadFullSize.0 / 2;
      var y := data.y - TouchpadFullSize.1 / 2;

      x := if reverseLeftRight then -x else x;
      y := if reverseUpDown then -y else y;

      x := x + center.0;
      y := y + center.1;

      if size.0 == 0 {
        return Raises(ZeroDivisionError);
      }
      x := TruncDiv(x * output.0, size.0);
      if size.1 == 0 {
        return Raises(ZeroDivisionError);
      }
      y := TruncDiv(y * output.1, size.1);

      r := Returns(TouchInfo(data.touched, x, y));
    }
  }
}
