# TSC2017 touchpad adapter: a verified Dafny model

This project models the TSC2017 touchpad adapter in Dafny. The adapter has two halves:

- **The Python package.** It validates its configuration and manages a resource-manager handle and at most one device handle. It maps each polled touch record into the caller's screen coordinates.
- **The native connector library.** It stores the last USB interrupt event and decodes the click flag and the two big-endian coordinates from that event's bytes.

The model has four modules, one per source file plus one for Python values:

- `PyValues` (`py_values.dfy`) covers the Python values a setter can receive, under Python 2.7 semantics, the interpreter the package is written for (`ctypes.c_char_p` takes the `str` device name as bytes). A `bool` is an `int`; an `int` is a 32-bit machine word as on Windows, and a wider integer is a `long`, which is not an `int`; `bytes` is `str`, and a `str` is never a collection. The module also models `is_collection`, `is_coord`, the exceptions, and a `Result` type for "returns or raises".
- `ConnectDll` (`connect_dll.dfy`) models `connect_dll.cpp`:
  - `swap_bytes_of` as an in-place swap on the two-byte storage of an `unsigned short`.
  - `EventInfo`, with its 256-byte buffer and its decoders.
  - The store and size guard of `event_handler`.
  - `get_touch_info`.
  - The five exported functions, as the class `Dll`. The results of VISA calls are fields of `Dll`: `defaultRm` is the manager session, and `sessions` gives the device session for each name. `Dll` records every call it receives in a ghost call log. `Live(log)` is the set of device handles still open after the log. `Disciplined(log)` says each call was made in an allowed state: connect and release the manager only with nothing open; poll and disconnect only an open handle.
- `Tsc2017` (`tsc2017.dfy`) models `_tsc2017.py`:
  - The pure coordinate pipeline: `Transform`, and `Poll` with its stale-sample fallback.
  - The class `Touchpad`, whose object invariant ties `_resource` to `Live(lib.log)`.
  - `get_touch_data`, written as the step-by-step method of the source and proved equal to `Poll`.
- `Mouse` (`mouse.dfy`) models `_Mouse.py`: the constructor's checks, `check_button_pressed` and `position`.

Two choices hold across the model:

- The Python exceptions `TSCError`, `TypeError`, `ValueError` and `ZeroDivisionError` are `Raises(...)` results. They are not preconditions.
- A value that the source code handles is never excluded by a `requires` clause.

The model follows the code as written; in particular:
- `_last_touch_data` is never assigned after construction, so the cache stays `None`. An invalid poll therefore always yields `(False, 0, 0)`. When a cache is present, `Poll` still models the fallback branch that uses it. `GetTouchData` leaves the object unchanged.
- A zero `touchpad_size` component is accepted by its setter. It raises `ZeroDivisionError` when polled, and only a valid record or a cached one reaches that division.
- `disconnect` without a connection does nothing. It does not raise.
- If the resource manager handle is 0, a `TSCError` is raised. The finaliser then still calls `cleanup_resource_manager(0)`, because `_resource_manager` was assigned before the raise.
- `touched` is the C int (0 or 1) that the library reports, and it passes through unchanged. The no-data sample's `False` is 0.

## Model

| member | source | states |
|---|---|---|
| PyValues.IsCollectionExactly | pythonlib/src/tsc2017/_tsc2017.py:51-54 | `IsCollection`, the model of `is_collection`, holds exactly of tuples, lists, and sets when sets are allowed; strings (and so `bytes`), numbers and `None` never are |
| PyValues.IsCoordExactly | pythonlib/src/tsc2017/_tsc2017.py:57-59 | `IsCoord`, the model of `is_coord`, holds exactly of 2-tuples and 2-lists of ints (bools included, longs not); it raises `TypeError` exactly on a two-element set; it is false otherwise |
| PyValues.IsCoordRejects | pythonlib/src/tsc2017/_tsc2017.py:57-59 | a 2-character string (a two-byte `bytes` value included), a pair holding a float, a pair holding a long, a triple and `None` are not coordinates; `(True, -7)` is |
| ConnectDll.SwapBytesOf | connect_dll/connect_dll/connect_dll.cpp:42-51 | the two bytes of the storage are exchanged in place |
| ConnectDll.SwapTwice | connect_dll/connect_dll/connect_dll.cpp:42-51 | swapping twice restores the original storage |
| ConnectDll.SwapLoadsBigEndian | connect_dll/connect_dll/connect_dll.cpp:78-90 | on the little-endian host, loading swapped storage reads the two bytes as a big-endian number, that is, high and low byte exchanged |
| ConnectDll.EventInfo.constructor | connect_dll/connect_dll/connect_dll.cpp:67-70 | a fresh event has `nbytes == 0` and a 256-byte buffer |
| ConnectDll.EventInfo.X | connect_dll/connect_dll/connect_dll.cpp:78-83 | `x()` is `data[2] * 256 + data[3]`, an unsigned 16-bit value |
| ConnectDll.EventInfo.Y | connect_dll/connect_dll/connect_dll.cpp:85-90 | `y()` is `data[4] * 256 + data[5]`, an unsigned 16-bit value |
| ConnectDll.TouchInfoOfFields | connect_dll/connect_dll/connect_dll.cpp:196-208 | `TouchInfoOf`, the record `get_touch_info` builds, is valid exactly when `nbytes != 0`; otherwise it is all zeros; when valid, `touched` is 1 exactly when `data[1] == 0`, and x and y are the big-endian words at offsets 2 and 4, each in 0..65535 |
| ConnectDll.Dll.StoreThenPoll | connect_dll/connect_dll/connect_dll.cpp:121-142 | an event handled by `event_handler` and then a `get_touch_info` poll: when both reads succeed and the size is at most 256, the poll yields the stored payload's click flag and big-endian coordinates, or all zeros for a size of 0; otherwise it yields the event stored before |
| ConnectDll.ClickedIsReportedTouch | connect_dll/connect_dll/connect_dll.cpp:73-76 | consistency check: `clicked()` (byte 1 is zero) is exactly the `touched` flag a poll of a stored event with data reports; `Dll.GetTouchInfo` and `Dll.StoreThenPoll` carry the same promise about polls |
| ConnectDll.DisciplinedHoldsAtMostOne | pythonlib/src/tsc2017/_tsc2017.py:250-258 | a client whose every call is allowed never holds more than one open device handle |
| ConnectDll.DisciplinedEveryCall | pythonlib/src/tsc2017/_tsc2017.py:250-268 | in a disciplined log, every call was permitted given the device handles open just before it |
| ConnectDll.EveryCallDisciplined | pythonlib/src/tsc2017/_tsc2017.py:250-268 | conversely, a log whose every call was permitted given the handles open just before it is disciplined |
| ConnectDll.Dll.constructor | connect_dll/connect_dll/connect_dll.cpp:93 | the global `last_event` starts with `nbytes == 0`; the call log starts empty |
| ConnectDll.Dll.CreateResourceManager | connect_dll/connect_dll/connect_dll.cpp:17-28 | returns the default manager session, or 0 when VISA fails, and logs the call |
| ConnectDll.Dll.CleanupResourceManager | connect_dll/connect_dll/connect_dll.cpp:32-35 | logs the release of the given manager |
| ConnectDll.Dll.Connect | connect_dll/connect_dll/connect_dll.cpp:150-179 | returns the device's session, or 0 when the open, the handler installation or the event enabling fails, and logs the call with its result |
| ConnectDll.Dll.Disconnect | connect_dll/connect_dll/connect_dll.cpp:185-188 | logs the close of the given device handle |
| ConnectDll.Dll.GetTouchInfo | connect_dll/connect_dll/connect_dll.cpp:194-209 | returns all zeros while `last_event.nbytes == 0`; otherwise returns valid 1 with `clicked()`, `x()` and `y()`; the handle is not consulted |
| ConnectDll.Dll.EventHandler | connect_dll/connect_dll/connect_dll.cpp:114-145 | the status returned is the status of the failed read, or `VI_SUCCESS`; `last_event` is left unchanged when the size read fails, the size exceeds 256 or the data read fails; otherwise `nbytes` and all 256 bytes are copied in |
| Tsc2017.TruncDivBrackets | pythonlib/src/tsc2017/_tsc2017.py:306-307 | `int(n / d)` as `TruncDiv` computes it: \|q\| · \|d\| ≤ \|n\| < (\|q\| + 1) · \|d\|, so the magnitude is the floor of \|n\| / \|d\|; a non-zero quotient is negative exactly when the signs of n and d differ; together this is truncation toward zero |
| Tsc2017.TruncDivNegate | pythonlib/src/tsc2017/_tsc2017.py:306-307 | truncating division is odd: `trunc(-n / d) == -trunc(n / d)` |
| Tsc2017.TruncDivExact | pythonlib/src/tsc2017/_tsc2017.py:306-307 | dividing `n * d` by `d` gives `n` exactly |
| Tsc2017.TruncDivAgreesWithFloor | pythonlib/src/tsc2017/_tsc2017.py:306-307 | for a non-negative dividend and a positive divisor, truncation equals floor division |
| Tsc2017.TransformFormula | pythonlib/src/tsc2017/_tsc2017.py:293-309 | x = trunc((±(raw.x − 2048) + center.x) · out.w / tp.w), and likewise for y; the sign is negative when the axis is reversed; `touched` passes through |
| Tsc2017.Transform | pythonlib/src/tsc2017/_tsc2017.py:293-309 | the pipeline raises exactly when a touchpad size component is 0, and it then raises `ZeroDivisionError`; otherwise `touched` is unchanged |
| Tsc2017.Poll | pythonlib/src/tsc2017/_tsc2017.py:286-309 | a poll raises exactly when a valid or a cached record meets a zero touchpad size component, and it then raises `ZeroDivisionError`; an invalid record with nothing cached never raises |
| Tsc2017.IdentityScaleIsExact | pythonlib/src/tsc2017/_tsc2017.py:293-307 | with output size equal to touchpad size, the result is exactly the recentred, possibly flipped, shifted raw coordinate |
| Tsc2017.ReverseLeftRightNegates | pythonlib/src/tsc2017/_tsc2017.py:297-307 | with centre (0, 0), setting `reverse_left_right` negates the output x and leaves y unchanged |
| Tsc2017.ReverseUpDownNegates | pythonlib/src/tsc2017/_tsc2017.py:297-307 | with centre (0, 0), setting `reverse_up_down` negates the output y and leaves x unchanged |
| Tsc2017.FallbackPolicy | pythonlib/src/tsc2017/_tsc2017.py:286-291 | an invalid record with nothing cached yields `(False, 0, 0)` under any configuration; with a cached record it yields that record transformed; a valid record is transformed whatever is cached |
| Tsc2017.NoCacheNoPhantomTouch | pythonlib/src/tsc2017/_tsc2017.py:286-289 | with nothing cached, a record with no data or with no touch never yields a touched sample |
| Tsc2017.Scenarios | pythonlib/test/tsc2017_tests.py:23-64 | raw (3048, 3048) gives (1000, 1000), (−1000, 1000) with reverse_x, (1000, −1000) with reverse_y, (1500, 1500) with centre 500, and (−500, 1500) with centre 500 and reverse_x; raw (1024, 1024) with output (2000, 1000) gives (−500, −250); an invalid record with nothing cached gives (0, 0, 0) |
| Tsc2017.FlagSetterAcceptsOnlyBools | pythonlib/src/tsc2017/_tsc2017.py:156-178 | the `reverse_*` setters accept exactly the bools and raise `TypeError` otherwise, `1` and `None` included |
| Tsc2017.CoordSetterAcceptsOnlyPairs | pythonlib/src/tsc2017/_tsc2017.py:192-232 | the coordinate setters accept exactly the integer pairs and raise `TypeError` otherwise |
| Tsc2017.InitErrorExactly | pythonlib/src/tsc2017/_tsc2017.py:96-100 | construction's setters all pass exactly when both flags are bools and all three coordinates are integer pairs; a failure is a `TypeError`; the default arguments pass |
| Tsc2017.Touchpad.Init | pythonlib/src/tsc2017/_tsc2017.py:95-102 | a new object holds no device (`_resource = None`) and caches nothing (`_last_touch_data = None`) |
| Tsc2017.Touchpad.Create | pythonlib/src/tsc2017/_tsc2017.py:88-111 | a manager handle of 0 raises `TSCError`; a rejected argument raises its setter's exception; either failure ends with the manager released and nothing open; on success the object is valid, holds nothing, caches nothing and stores the arguments |
| Tsc2017.Touchpad.Build | pythonlib/src/tsc2017/_tsc2017.py:95-111 | with a non-zero manager: the setters run; on a rejected argument the finaliser releases the manager and the setter's exception is raised; otherwise the object is valid and holds the arguments |
| Tsc2017.Touchpad.ReleaseManager | pythonlib/src/tsc2017/_tsc2017.py:110-111 | releasing the manager with nothing open logs one release, keeps the discipline, and leaves nothing open |
| Tsc2017.Touchpad.Configure | pythonlib/src/tsc2017/_tsc2017.py:96-100 | runs the five setters in order, stops at the first that raises, and leaves every coordinate accepted by `is_coord` on success |
| Tsc2017.Touchpad.Finalize | pythonlib/src/tsc2017/_tsc2017.py:105-111 | disconnects a held device first and then releases the resource manager, so nothing is open at the release |
| Tsc2017.Touchpad.SetReverseLeftRight | pythonlib/src/tsc2017/_tsc2017.py:156-161 | raises `TypeError` for a non-bool; otherwise sets only this field |
| Tsc2017.Touchpad.SetReverseUpDown | pythonlib/src/tsc2017/_tsc2017.py:173-178 | raises `TypeError` for a non-bool; otherwise sets only this field |
| Tsc2017.Touchpad.SetTouchpadCenter | pythonlib/src/tsc2017/_tsc2017.py:192-196 | raises unless `is_coord` holds; otherwise sets only this field |
| Tsc2017.Touchpad.SetTouchpadSize | pythonlib/src/tsc2017/_tsc2017.py:209-213 | raises unless `is_coord` holds, with zero components accepted; otherwise sets only this field |
| Tsc2017.Touchpad.SetOutputScreenSize | pythonlib/src/tsc2017/_tsc2017.py:228-232 | raises unless `is_coord` holds; otherwise sets only this field |
| Tsc2017.Touchpad.Connect | pythonlib/src/tsc2017/_tsc2017.py:250-258 | disconnects a held device first; a returned handle of 0 raises `TSCError` and leaves `_resource = None`; otherwise `_resource` is the handle; open handles stay equal to `_resource` |
| Tsc2017.Touchpad.Disconnect | pythonlib/src/tsc2017/_tsc2017.py:265-268 | calls the native disconnect only when a device is held, then clears `_resource`; a second call changes nothing |
| Tsc2017.Touchpad.InvalidPollYieldsNothing | pythonlib/src/tsc2017/_tsc2017.py:286-291 | on a valid, connected touchpad, a poll without a valid record yields `(False, 0, 0)`, because the invariant keeps `_last_touch_data` at `None` |
| Tsc2017.Touchpad.GetTouchData | pythonlib/src/tsc2017/_tsc2017.py:280-309 | raises `TSCError` without polling when not connected; otherwise polls the library exactly once and returns `Poll` of the configuration, the cache and the record; the object does not change |
| Mouse.PositionProjectsSample | pythonlib/src/tsc2017/_Mouse.py:56-60 | an untouched sample is reported at (0, 0) whatever its x and y; a touched one is reported at (x, y); a position away from the origin implies the button is pressed |
| Mouse.QueriesPropagateErrors | pythonlib/src/tsc2017/_Mouse.py:35 | consistency check: both queries pass on the touchpad's exception unchanged, restating the `Raises` branch of `PressedOf` and `PositionResult` |
| Mouse.NoDataReadsAsReleased | pythonlib/src/tsc2017/_Mouse.py:56-60 | with nothing cached, a record with no data reads as button released and position (0, 0) |
| Mouse.Mouse.Init | pythonlib/src/tsc2017/_Mouse.py:21-22 | stores the touchpad and the application's mouse object |
| Mouse.Mouse.Create | pythonlib/src/tsc2017/_Mouse.py:17-22 | raises `TypeError` when `touchpad` is not a Touchpad, and then when `ttrk_mouse` is `None`; otherwise builds the facade |
| Mouse.Mouse.CheckButtonPressed | pythonlib/src/tsc2017/_Mouse.py:32-35 | any button number not equal to 0 raises `ValueError` without polling; a number equal to 0 returns `touched` from exactly one `get_touch_data` call |
| Mouse.ButtonZeroSpellings | pythonlib/src/tsc2017/_Mouse.py:32 | `0`, `False`, `0L` and `0.0` equal 0 and select button 0; `1`, `True`, `None` and `"0"` do not |
| Mouse.Mouse.Position | pythonlib/src/tsc2017/_Mouse.py:56-60 | polls once; returns (x, y) when touched and (0, 0) otherwise |

## Left out

- The DLL is loaded through ctypes (`DLLFuncs`, `_init_dll`, the `WINDIR` default path). This is not modelled. The library is the `Dll` object passed to `Touchpad.Create`.
- VISA itself is not modelled: `viOpenDefaultRM`, `viOpen`, `viInstallHandler`, `viEnableEvent`, `viClose` and `viGetAttribute`. Their outcomes are fields of `Dll` or inputs to `EventHandler`. The `printf` diagnostics are I/O and are not modelled either.
- `event_handler` runs on a driver callback thread under a `std::mutex`. It is modelled as a sequential method. Concurrency with polls is not modelled.
- `get_touch_info` ignores its handle, and the event buffer is global. Several `Touchpad` objects sharing one library are not modelled: one `Touchpad` is assumed to be the library's only client.
- Touchpad's coordinate attributes are values in the model. In the source, a setter stores the caller's own list, and `get_touch_data` reads it again at every poll. If the caller later changes that list, a poll can raise `TypeError` (an element replaced by a non-int) or `IndexError` (an element removed). The model does not capture this aliasing. `Touchpad.Configured()` holds in the model because a `PyValue` cannot change after the setter accepted it.
- Python 2 types other than `None`, `bool`, `int`, `long`, `float`, `str`, `tuple`, `list` and `set` are not modelled, for example `unicode`, `bytearray`, `dict` and user classes. Mouse.CheckButtonPressed: its test `button_number != 0` is modelled for these types only, where numbers compare by value and every other value differs from 0.
- The property getters are not modelled separately. Each one returns its field, and the fields are public in the model.
- `Mouse.show_cursor` only forwards to the application's mouse object, so it is not modelled.
- A set is taken at face value, so a set whose elements Python would treat as equal is not a faithful value.
- Exception messages are reduced to the attribute they name. The `touchpad_center` setter's message names `output_center`, and the model keeps that name.
- TruncDiv: this is exact integer truncation. Python computes the quotient `x * out / tp` as a float, and the two agree only while the product and the divisor stay below 2^53.
- Transform: the raw `x` and `y` are whole numbers (unsigned 16-bit values carried in C floats), so the `np.round` of the recentring step is exact and is not modelled.
- Touchpad.Create: when construction raises, CPython runs `__del__` on the half-built object when it is collected. The model runs that finaliser at once.
- Touchpad.Finalize: it requires the object invariant, so it covers `__del__` only for an object that `Create` built, complete or not. It does not cover an object whose `_init_dll` failed, whose finaliser in Python touches neither library call.
- The scale/shift transform mode appears only in a generated calibration script, so it is not modelled. `util/setup_tsc.py`, `util/print_is_touching.py`, `util/setup_utils.py` and the package's `__init__.py` are not part of this model: they are UI, I/O and packaging.
- `pythonlib/test/TestUtils.py` targets a different revision of the API, so it is not part of this model. Only the expected numbers of `tsc2017_tests.py` are used, as `Scenarios`.
- The `touch_info` struct in `connect_dll.h` has three fields. The model follows the four-field layout (`valid`, `touched`, `x`, `y`) that `connect_dll.cpp` fills and the Python side declares.
