/** The Python values a Touchpad setter can be handed, the exceptions the core raises,
    and the `is_collection` / `is_coord` checks that validate configuration values.
    Python 2.7 semantics, the interpreter the package targets: `bool` is a subclass of
    `int`, an `int` is a machine word (32 bits on Windows) and a wider integer is a
    `long`, `bytes` is another name for `str`, and a `str` has `__len__` and
    `__getitem__` but no `__iter__`. */
module PyValues {

  /** The range of a Python 2 `int` on Windows, where a C `long` has 32 bits. */
  type Int32 = x: int | -0x8000_0000 <= x < 0x8000_0000

  /** The Python values the model distinguishes. A set is taken at face value: its
      length is the number of elements listed. */
  datatype PyValue =
    | PyNone
    | PyBool(b: bool)
    | PyInt(i: Int32)
    | PyLong(l: int)
    | PyFloat(r: real)
    | PyStr(s: string)
    | PyTuple(items: seq<PyValue>)
    | PyList(items: seq<PyValue>)
    | PySet(elems: set<PyValue>)

  /** Why a `TSCError` was raised. */
  datatype TscCause = NoResourceManager | ConnectFailed(device: string) | NotConnected

  /** The exceptions the core raises; `subject` says what the message is about. */
  datatype Exception =
    | TypeError(subject: string)
    | ValueError(subject: string)
    | IndexError
    | ZeroDivisionError
    | TscError(cause: TscCause)

  /** A Python call either returns a value or raises an exception. */
  datatype Result<T> = Returns(value: T) | Raises(exc: Exception)

  /** A Python attribute that is either `None` or holds a value. */
  datatype Option<T> = None | Some(value: T)

  /** `isinstance(v, int)`: true of ints and of bools, false of longs. */
  predicate IsInt(v: PyValue) {
    v.PyInt? || v.PyBool?
  }

  /** The integer a value that passes `isinstance(v, int)` stands for in arithmetic. */
  function IntValue(v: PyValue): int
    requires IsInt(v)
  {
    if v.PyInt? then v.i else if v.b then 1 else 0
  }

  /** `v == 0` in Python 2: numbers compare by value (`False`, `0L` and `0.0` equal
      `0`); a value of any other modelled type differs from every number. */
  predicate EqualsZero(v: PyValue) {
    match v
    case PyBool(b) => !b
    case PyInt(i) => i == 0
    case PyLong(l) => l == 0
    case PyFloat(r) => r == 0.0
    case _ => false
  }

  /** `"__len__" in dir(v)`. */
  predicate HasLen(v: PyValue) {
    v.PyStr? || v.PyTuple? || v.PyList? || v.PySet?
  }

  /** `"__iter__" in dir(v)`: a Python 2 `str` iterates through `__getitem__` and has
      no `__iter__` of its own. */
  predicate HasIter(v: PyValue) {
    v.PyTuple? || v.PyList? || v.PySet?
  }

  /** `"__getitem__" in dir(v)`: sets have no subscription. */
  predicate HasGetItem(v: PyValue) {
    v.PyStr? || v.PyTuple? || v.PyList?
  }

  /** `len(v)`. */
  function Len(v: PyValue): nat
    requires HasLen(v)
  {
    match v
    case PyStr(s) => |s|
    case PyTuple(items) => |items|
    case PyList(items) => |items|
    case PySet(elems) => |elems|
  }

  /** `v[index]` for a non-negative index. */
  function GetItem(v: PyValue, index: nat): (r: Result<PyValue>)
    requires HasLen(v)
  {
    if !HasGetItem(v) then Raises(TypeError("'set' object does not support indexing"))
    else if index >= Len(v) then Raises(IndexError)
    else match v
      case PyStr(s) => Returns(PyStr([s[index]]))
      case PyTuple(items) => Returns(items[index])
      case PyList(items) => Returns(items[index])
  }

  /** `is_collection(value, allow_set)`: a sized, iterable, non-string value; with
      `allow_set` false it must also be subscriptable. */
  function IsCollection(v: PyValue, allowSet: bool): bool {
    HasLen(v) && HasIter(v) && (allowSet || HasGetItem(v)) && !v.PyStr?
  }

  /** `is_coord(value)`: a collection of length 2 whose two elements are ints. The
      `and` chain short-circuits; subscripting a two-element set raises. */
  function IsCoord(v: PyValue): Result<bool> {
    if !IsCollection(v, true) then Returns(false)
    else if Len(v) != 2 then Returns(false)
    else match GetItem(v, 0)
      case Raises(e) => Raises(e)
      case Returns(first) =>
        if !IsInt(first) then Returns(false)
        else match GetItem(v, 1)
          case Raises(e) => Raises(e)
          case Returns(second) => Returns(IsInt(second))
  }

  /** An independent description of the values that are coordinates: a 2-tuple or
      2-list of ints (bools included, longs not). */
  predicate IsIntPair(v: PyValue) {
    (v.PyTuple? || v.PyList?) && |v.items| == 2 && IsInt(v.items[0]) && IsInt(v.items[1])
  }

  /** The pair of integers a coordinate value stands for (`value[0]`, `value[1]`). */
  function CoordOf(v: PyValue): (c: (int, int))
    requires IsCoord(v) == Returns(true)
  {
    IsCoordExactly(v);
    match v
    case PyTuple(items) => (IntValue(items[0]), IntValue(items[1]))
    case PyList(items) => (IntValue(items[0]), IntValue(items[1]))
  }

  /** A value is a collection exactly when it is a tuple, a list, or (when sets are
      allowed) a set; strings (bytes included) and scalars never are. */
  lemma IsCollectionExactly(v: PyValue, allowSet: bool)
    ensures IsCollection(v, allowSet) <==> v.PyTuple? || v.PyList? || (allowSet && v.PySet?)
  {
  }

  /** `is_coord` holds exactly of the integer pairs, raises `TypeError` exactly on a
      two-element set, and is false for everything else. */
  lemma IsCoordExactly(v: PyValue)
    ensures IsCoord(v) == Returns(true) <==> IsIntPair(v)
    ensures IsCoord(v).Raises? <==> v.PySet? && |v.elems| == 2
    ensures IsCoord(v).Raises? ==> IsCoord(v).exc.TypeError?
  {
  }

  /** Representative rejections: a string of length 2 (a two-byte `bytes` value in
      particular), a pair holding a float, a pair holding a long, a triple, `None`. */
  lemma IsCoordRejects()
    ensures IsCoord(PyStr("ab")) == Returns(false)
    ensures IsCoord(PyStr([0 as char, 0 as char])) == Returns(false)
    ensures IsCoord(PyTuple([PyLong(0x8000_0000), PyInt(0)])) == Returns(false)
    ensures IsCoord(PyTuple([PyInt(1), PyFloat(2.0)])) == Returns(false)
    ensures IsCoord(PyList([PyInt(1), PyInt(2), PyInt(3)])) == Returns(false)
    ensures IsCoord(PyNone) == Returns(false)
    ensures IsCoord(PyTuple([PyBool(true), PyInt(-7)])) == Returns(true)
  {
  }
}
