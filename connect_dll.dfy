/** The native connector library: the buffer holding the last USB interrupt event,
    its byte-level decoders, the interrupt handler that stores events, and the five
    exported functions the Python layer calls. VISA itself is the environment: what
    `viOpenDefaultRM` and `viOpen` yield is held in fields of `Dll`, and every call the
    Python layer makes is recorded in a ghost call log. */
module ConnectDll {

  type byte = x: int | 0 <= x < 256
  type u16 = x: int | 0 <= x < 0x1_0000
  type int16 = x: int | -0x8000 <= x < 0x8000
  type u32 = x: int | 0 <= x < 0x1_0000_0000

  /** VISA's `VI_SUCCESS`; a status below it is an error. */
  const ViSuccess: int := 0

  /** The size of `EventInfo::data`. */
  const EventBufferSize: nat := 256

  // ---------------------------------------------------------------------------
  //  Byte order
  // ---------------------------------------------------------------------------

  /** The value an `unsigned short` holds whose two bytes of storage are `mem`, on the
      little-endian Windows host: the byte at the lower address is the low byte. */
  function HostLoad(mem: seq<byte>): u16
    requires |mem| == 2
  {
    mem[0] as int + 256 * mem[1] as int
  }

  /** The storage of an `unsigned short` after its two bytes are exchanged. */
  function Swapped(mem: seq<byte>): (r: seq<byte>)
    requires |mem| == 2
    ensures |r| == 2
  {
    [mem[1], mem[0]]
  }

  /** The unsigned 16-bit big-endian number stored at `data[k]`, `data[k + 1]`. */
  function BigEndianAt(data: seq<byte>, k: nat): u16
    requires k + 1 < |data|
  {
    data[k] as int * 256 + data[k + 1] as int
  }

  /** `swap_bytes_of`: exchanges, in place, the two bytes of the `unsigned short`
      whose storage is `num`. */
  method SwapBytesOf(num: array<byte>)
    requires num.Length == 2
    modifies num
    ensures num[..] == Swapped(old(num[..]))
  {
    var temp := num[0];
    num[0] := num[1];
    num[1] := temp;
  }

  /** Swapping twice restores the original storage. */
  lemma SwapTwice(mem: seq<byte>)
    requires |mem| == 2
    ensures Swapped(Swapped(mem)) == mem
  {
  }

  /** On the little-endian host, loading swapped storage reads the bytes as a
      big-endian number, and a load followed by a swap exchanges high and low byte. */
  lemma SwapLoadsBigEndian(mem: seq<byte>)
    requires |mem| == 2
    ensures HostLoad(Swapped(mem)) == BigEndianAt(mem, 0)
    ensures HostLoad(Swapped(mem)) == (HostLoad(mem) % 256) * 256 + HostLoad(mem) / 256
  {
  }

  // ---------------------------------------------------------------------------
  //  Events and the touch record
  // ---------------------------------------------------------------------------

  /** The data received in one USB interrupt event. */
  class EventInfo {
    var nbytes: int16
    const data: array<byte>

    /** A fresh event has received nothing. */
    constructor ()
      ensures nbytes == 0 && data.Length == EventBufferSize && fresh(data)
    {
      nbytes := 0;
      data := new byte[EventBufferSize];
    }

    /** `EventInfo::clicked`: the finger is on the pad when byte 1 is zero. */
    predicate Clicked()
      requires data.Length == EventBufferSize
      reads this, data
    {
      data[1] == 0
    }

    /** `EventInfo::x`: loads the `unsigned short` at offset 2 and swaps its bytes. */
    method X() returns (n: u16)
      requires data.Length == EventBufferSize
      ensures n == BigEndianAt(data[..], 2)
      ensures n == data[2] as int * 256 + data[3] as int
    {
      var storage := new byte[2];
      storage[0], storage[1] := data[2], data[3];
      SwapBytesOf(storage);
      n := HostLoad(storage[..]);
    }

    /** `EventInfo::y`: loads the `unsigned short` at offset 4 and swaps its bytes. */
    method Y() returns (n: u16)
      requires data.Length == EventBufferSize
      ensures n == BigEndianAt(data[..], 4)
      ensures n == data[4] as int * 256 + data[5] as int
    {
      var storage := new byte[2];
      storage[0], storage[1] := data[4], data[5];
      SwapBytesOf(storage);
      n := HostLoad(storage[..]);
    }
  }

  /** The `touch_info` record `get_touch_info` returns: `valid` and `touched` are C
      ints; `x` and `y` are floats that always hold unsigned 16-bit whole numbers,
      which a float represents exactly, so they are integers here. */
  datatype NativeTouchInfo = NativeTouchInfo(valid: int, touched: int, x: int, y: int)

  /** What `get_touch_info` reports for a stored event of `nbytes` bytes with buffer `data`. */
  function TouchInfoOf(nbytes: int16, data: seq<byte>): NativeTouchInfo
    requires |data| == EventBufferSize
  {
    if nbytes == 0 then NativeTouchInfo(0, 0, 0, 0)
    else NativeTouchInfo(1, if data[1] == 0 then 1 else 0, BigEndianAt(data, 2), BigEndianAt(data, 4))
  }

  /** The record is all zeros until an event with a non-zero size is stored; after
      that it is valid, `touched` is the click flag of byte 1, and `x`, `y` are the
      big-endian words at offsets 2 and 4, each within 0..65535. */
  lemma TouchInfoOfFields(nbytes: int16, data: seq<byte>)
    requires |data| == EventBufferSize
    ensures var ti := TouchInfoOf(nbytes, data);
      && (ti.valid == 0 <==> nbytes == 0)
      && (nbytes == 0 ==> ti == NativeTouchInfo(0, 0, 0, 0))
      && (nbytes != 0 ==> ti.valid == 1 && (ti.touched == 1 <==> data[1] == 0) && (ti.touched == 0 <==> data[1] != 0))
      && (nbytes != 0 ==> ti.x == data[2] as int * 256 + data[3] as int && ti.y == data[4] as int * 256 + data[5] as int)
      && 0 <= ti.x < 0x1_0000 && 0 <= ti.y < 0x1_0000
  {
  }

  /** `clicked()` is the touch flag a poll of the stored event reports: a stored
      event with data reads as touched exactly when its byte 1 is zero. */
  lemma ClickedIsReportedTouch(e: EventInfo)
    requires e.data.Length == EventBufferSize && e.nbytes != 0
    ensures e.Clicked() <==> TouchInfoOf(e.nbytes, e.data[..]).touched == 1
    ensures !e.Clicked() <==> TouchInfoOf(e.nbytes, e.data[..]).touched == 0
  {
  }

  // ---------------------------------------------------------------------------
  //  The call log and the single-connection discipline
  // ---------------------------------------------------------------------------

  /** One call into the library, with what it returned. */
  datatype Call =
    | CreatedRm(returned: u32)
    | CleanedUpRm(rm: u32)
    | Connected(rm: u32, name: string, returned: u32)
    | Disconnected(resource: u32)
    | Polled(resource: u32)

  /** The set of open device handles after `c`, given those open before it. */
  function After(live: set<u32>, c: Call): set<u32> {
    match c
    case Connected(_, _, h) => if h != 0 then live + {h} else live
    case Disconnected(h) => live - {h}
    case _ => live
  }

  /** The device handles still open after the calls in `log`. */
  function Live(log: seq<Call>): set<u32>
    decreases |log|
  {
    if log == [] then {} else After(Live(log[..|log| - 1]), log[|log| - 1])
  }

  /** What a careful client may call while the handles `live` are open: the resource
      manager is created and released, and a device connected, only while nothing is
      open; only an open handle is polled or disconnected. */
  predicate Permitted(live: set<u32>, c: Call) {
    match c
    case CreatedRm(_) => live == {}
    case CleanedUpRm(_) => live == {}
    case Connected(_, _, _) => live == {}
    case Disconnected(h) => h in live
    case Polled(h) => h in live
  }

  /** Every call in `log` was permitted when it was made. */
  ghost predicate Disciplined(log: seq<Call>)
    decreases |log|
  {
    log == [] || (Disciplined(log[..|log| - 1]) && Permitted(Live(log[..|log| - 1]), log[|log| - 1]))
  }

  lemma LiveSnoc(log: seq<Call>, c: Call)
    ensures Live(log + [c]) == After(Live(log), c)
  {
    assert (log + [c])[..|log|] == log;
  }

  lemma DisciplinedSnoc(log: seq<Call>, c: Call)
    requires Disciplined(log) && Permitted(Live(log), c)
    ensures Disciplined(log + [c])
  {
    assert (log + [c])[..|log|] == log;
  }

  /** A disciplined log permitted each of its calls, given the handles open just
      before it. */
  lemma {:induction false} DisciplinedEveryCall(log: seq<Call>, k: nat)
    requires Disciplined(log) && k < |log|
    ensures Permitted(Live(log[..k]), log[k])
  {
    var n := |log| - 1;
    if k < n {
      DisciplinedEveryCall(log[..n], k);
      assert log[..n][..k] == log[..k];
    }
  }

  /** Conversely, a log each of whose calls was permitted, given the handles open
      just before it, is disciplined; with `DisciplinedEveryCall` this makes the
      recursive definition agree with the per-call reading. */
  lemma {:induction false} EveryCallDisciplined(log: seq<Call>)
    requires forall k | 0 <= k < |log| :: Permitted(Live(log[..k]), log[k])
    ensures Disciplined(log)
  {
    if log != [] {
      var n := |log| - 1;
      var p := log[..n];
      forall k | 0 <= k < |p|
        ensures Permitted(Live(p[..k]), p[k])
      {
        assert p[..k] == log[..k];
      }
      EveryCallDisciplined(p);
      assert Permitted(Live(log[..n]), log[n]);
    }
  }

  /** A disciplined client never holds more than one open device handle. */
  lemma {:induction false} DisciplinedHoldsAtMostOne(log: seq<Call>)
    requires Disciplined(log)
    ensures |Live(log)| <= 1
  {
    if log != [] {
      var n := |log| - 1;
      var p, c := log[..n], log[n];
      DisciplinedHoldsAtMostOne(p);
      assert Live(log) == After(Live(p), c);
      match c {
        case Connected(_, _, h) =>
          assert Live(log) <= {h};
        case Disconnected(h) =>
          assert Live(log) <= Live(p);
        case _ =>
      }
    }
  }

  // ---------------------------------------------------------------------------
  //  The library
  // ---------------------------------------------------------------------------

  /** The connector library's global state and exported functions. */
  class Dll {
    /** `static EventInfo last_event`. */
    const lastEvent: EventInfo
    /** The session `viOpenDefaultRM` yields; 0 when it fails. */
    var defaultRm: u32
    /** The session `connect` ends up with per device name when `viOpen`,
        `viInstallHandler` and `viEnableEvent` all succeed; a name that is absent
        (or maps to 0) is a device one of them fails on. */
    var sessions: map<string, u32>
    /** Every call the Python layer has made, in order. */
    ghost var log: seq<Call>

    ghost predicate Valid()
      reads this, lastEvent
    {
      lastEvent.data.Length == EventBufferSize
    }

    constructor (defaultRm: u32, sessions: map<string, u32>)
      ensures Valid() && fresh(lastEvent) && fresh(lastEvent.data)
      ensures lastEvent.nbytes == 0 && log == []
      ensures this.defaultRm == defaultRm && this.sessions == sessions
    {
      lastEvent := new EventInfo();
      this.defaultRm := defaultRm;
      this.sessions := sessions;
      log := [];
    }

    /** `create_resource_manager`: the default resource manager session, or 0. */
    method CreateResourceManager() returns (rm: u32)
      modifies this`log
      ensures rm == defaultRm
      ensures log == old(log) + [CreatedRm(rm)]
    {
      rm := defaultRm;
      log := log + [CreatedRm(rm)];
    }

    /** `cleanup_resource_manager`: closes the resource manager session. */
    method CleanupResourceManager(rm: u32)
      modifies this`log
      ensures log == old(log) + [CleanedUpRm(rm)]
    {
      log := log + [CleanedUpRm(rm)];
    }

    /** The handle `connect` returns for `name`: 0 when the device cannot be opened. */
    function ConnectReply(name: string): u32
      reads this
    {
      if name in sessions then sessions[name] else 0
    }

    /** `connect`: opens the device and enables its interrupt events; 0 on failure. */
    method Connect(rm: u32, name: string) returns (resource: u32)
      modifies this`log
      ensures resource == ConnectReply(name)
      ensures log == old(log) + [Connected(rm, name, resource)]
    {
      resource := if name in sessions then sessions[name] else 0;
      log := log + [Connected(rm, name, resource)];
    }

    /** `disconnect`: closes the device session. */
    method Disconnect(resource: u32)
      modifies this`log
      ensures log == old(log) + [Disconnected(resource)]
    {
      log := log + [Disconnected(resource)];
    }

    /** `get_touch_info`: the last stored event, decoded; all zeros until an event
        has been stored. The handle is not consulted. */
    method GetTouchInfo(resource: u32) returns (ti: NativeTouchInfo)
      requires Valid()
      modifies this`log
      ensures ti == TouchInfoOf(lastEvent.nbytes, lastEvent.data[..])
      ensures log == old(log) + [Polled(resource)]
    {
      log := log + [Polled(resource)];
      ti := NativeTouchInfo(0, 0, 0, 0);
      if lastEvent.nbytes == 0 {
        return;
      }
      var clicked := lastEvent.Clicked();
      var x := lastEvent.X();
      var y := lastEvent.Y();
      ti := NativeTouchInfo(1, if clicked then 1 else 0, x, y);
    }

    /** The store of `event_handler`. VISA's two attribute reads are inputs: the size
        read yields `sizeStatus` and the signed 16-bit `size`, the data read yields
        `dataStatus` and the 256-byte buffer `payload`. The event is stored only when
        both reads succeed and the size is at most 256. */
    method EventHandler(sizeStatus: int, size: int16, dataStatus: int, payload: seq<byte>)
      returns (status: int)
      requires Valid() && |payload| == EventBufferSize
      modifies lastEvent, lastEvent.data
      ensures status == if sizeStatus < ViSuccess then sizeStatus
                        else if size > 256 then ViSuccess
                        else if dataStatus < ViSuccess then dataStatus
                        else ViSuccess
      ensures sizeStatus >= ViSuccess && size <= 256 && dataStatus >= ViSuccess ==>
                lastEvent.nbytes == size && lastEvent.data[..] == payload
      ensures !(sizeStatus >= ViSuccess && size <= 256 && dataStatus >= ViSuccess) ==>
                lastEvent.nbytes == old(lastEvent.nbytes) && lastEvent.data[..] == old(lastEvent.data[..])
    {
      if sizeStatus < ViSuccess {
        return sizeStatus;
      }
      if size > 256 {
        return ViSuccess;
      }
      if dataStatus < ViSuccess {
        return dataStatus;
      }
      lastEvent.nbytes := size;
      // copy all 256 bytes of the received buffer
      for i := 0 to EventBufferSize
        invariant lastEvent.nbytes == size
        invariant lastEvent.data[..i] == payload[..i]
      {
        lastEvent.data[i] := payload[i];
      }
      assert lastEvent.data[..] == lastEvent.data[..EventBufferSize];
      status := ViSuccess;
    }

    /** An interrupt event followed by a poll: when both attribute reads succeed and
        the size passes the guard, the poll decodes the payload just stored (its click
        flag and its big-endian coordinates, or an invalid record for a size of 0);
        otherwise it decodes the event stored before. */
    method StoreThenPoll(sizeStatus: int, size: int16, dataStatus: int, payload: seq<byte>, resource: u32)
      returns (ti: NativeTouchInfo)
      requires Valid() && |payload| == EventBufferSize
      modifies lastEvent, lastEvent.data, this`log
      ensures log == old(log) + [Polled(resource)]
      ensures sizeStatus >= ViSuccess && size <= 256 && dataStatus >= ViSuccess && size != 0 ==>
                ti == NativeTouchInfo(1, if payload[1] == 0 then 1 else 0,
                                      payload[2] as int * 256 + payload[3] as int,
                                      payload[4] as int * 256 + payload[5] as int)
      ensures sizeStatus >= ViSuccess && size <= 256 && dataStatus >= ViSuccess && size == 0 ==>
                ti == NativeTouchInfo(0, 0, 0, 0)
      ensures !(sizeStatus >= ViSuccess && size <= 256 && dataStatus >= ViSuccess) ==>
                ti == TouchInfoOf(old(lastEvent.nbytes), old(lastEvent.data[..]))
    {
      var _ := EventHandler(sizeStatus, size, dataStatus, payload);
      ti := GetTouchInfo(resource);
    }
  }
}
