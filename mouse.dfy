/** The single-button mouse facade over a Touchpad: whether button 0 is pressed, and
    where the finger is. Each query polls the touchpad once. */
module Mouse {
  import opened PyValues
  import opened ConnectDll
  import opened Tsc2017

  /** The answer `check_button_pressed(0)` gives for a `get_touch_data` outcome: its
      `touched` value, or the exception it raised. */
  function PressedOf(sample: Result<TouchInfo>): Result<int> {
    match sample
    case Raises(e) => Raises(e)
    case Returns(ti) => Returns(ti.touched)
  }

  /** The position reported for one sample: its coordinates when touched, else the origin. */
  function PositionOf(ti: TouchInfo): (int, int) {
    if ti.touched != 0 then (ti.x, ti.y) else (0, 0)
  }

  /** The answer `position` gives for a `get_touch_data` outcome. */
  function PositionResult(sample: Result<TouchInfo>): Result<(int, int)> {
    match sample
    case Raises(e) => Raises(e)
    case Returns(ti) => Returns(PositionOf(ti))
  }

  /** An untouched sample is reported at the origin whatever its coordinates; a
      touched one at its own coordinates; so a position away from the origin always
      comes with the button pressed. */
  lemma PositionProjectsSample(ti: TouchInfo, x': int, y': int)
    ensures ti.touched == 0 ==> PositionOf(ti) == (0, 0) == PositionOf(ti.(x := x', y := y'))
    ensures ti.touched != 0 ==> PositionOf(ti) == (ti.x, ti.y)
    ensures PositionOf(ti) != (0, 0) ==> PressedOf(Returns(ti)) != Returns(0)
  {
  }

  /** Both queries pass on the touchpad's exception unchanged. */
  lemma QueriesPropagateErrors(e: Exception)
    ensures PressedOf(Raises(e)) == Raises(e) && PositionResult(Raises(e)) == Raises(e)
  {
  }

  /** A touchpad with nothing cached that polls a record with no data reports the
      button released and the finger at the origin. */
  lemma NoDataReadsAsReleased(cfg: TransformConfig, data: NativeTouchInfo)
    requires data.valid == 0
    ensures PressedOf(Poll(cfg, None, data)) == Returns(0)
    ensures PositionResult(Poll(cfg, None, data)) == Returns((0, 0))
  {
    FallbackPolicy(cfg, None, data);
  }

  /** Which button numbers `check_button_pressed` takes for button 0: `0`, `False`,
      `0L` and `0.0` are; `1`, `None` and the string `"0"` are not. */
  lemma ButtonZeroSpellings()
    ensures EqualsZero(PyInt(0)) && EqualsZero(PyBool(false)) && EqualsZero(PyLong(0)) && EqualsZero(PyFloat(0.0))
    ensures !EqualsZero(PyInt(1)) && !EqualsZero(PyBool(true)) && !EqualsZero(PyNone) && !EqualsZero(PyStr("0"))
  {
  }

  class Mouse {
    /** `_touchpad`. */
    const touchpad: Touchpad
    /** `_ttrk_mouse`: the application's own mouse object. */
    const ttrkMouse: object

    constructor Init(touchpad: Touchpad, ttrkMouse: object)
      ensures this.touchpad == touchpad && this.ttrkMouse == ttrkMouse
    {
      this.touchpad := touchpad;
      this.ttrkMouse := ttrkMouse;
    }

    /** `Mouse(touchpad, ttrk_mouse)`: raises `TypeError` unless `touchpad` is a
        Touchpad, then unless `ttrk_mouse` is not `None`. */
    static method Create(touchpad: object?, ttrkMouse: object?) returns (r: Result<Mouse>)
      ensures !(touchpad is Touchpad?) || touchpad == null ==> r == Raises(TypeError("touchpad"))
      ensures touchpad is Touchpad? && touchpad != null && ttrkMouse == null ==> r == Raises(TypeError("ttrk_mouse"))
      ensures r.Returns? <==> touchpad is Touchpad? && touchpad != null && ttrkMouse != null
      ensures r.Returns? ==> fresh(r.value) && r.value.touchpad == touchpad && r.value.ttrkMouse == ttrkMouse
    {
      if touchpad == null || !(touchpad is Touchpad?) {
        return Raises(TypeError("touchpad"));
      }
      if ttrkMouse == null {
        return Raises(TypeError("ttrk_mouse"));
      }
      var m := new Mouse.Init(touchpad as Touchpad, ttrkMouse);
      r := Returns(m);
    }

    /** `check_button_pressed(button_number)`: a button number that is not equal to 0
        raises `ValueError` without polling; otherwise one poll answers with the
        sample's `touched`. */
    method CheckButtonPressed(buttonNumber: PyValue) returns (r: Result<int>)
      requires touchpad.Valid()
      modifies touchpad.lib`log
      ensures touchpad.Valid()
      ensures !EqualsZero(buttonNumber) ==>
                r == Raises(ValueError("button_number")) && touchpad.lib.log == old(touchpad.lib.log)
      ensures EqualsZero(buttonNumber) ==>
                r == PressedOf(old(touchpad.Expected()))
                && touchpad.lib.log == old(touchpad.lib.log) + PollCalls(touchpad.resource)
    {
      if !EqualsZero(buttonNumber) {
        return Raises(ValueError("button_number"));
      }
      var ti := touchpad.GetTouchData();
      r := PressedOf(ti);
    }

    /** `position`: polls once; the coordinates when touched, else (0, 0). */
    method Position() returns (r: Result<(int, int)>)
      requires touchpad.Valid()
      modifies touchpad.lib`log
      ensures touchpad.Valid()
      ensures r == PositionResult(old(touchpad.Expected()))
      ensures touchpad.lib.log == old(touchpad.lib.log) + PollCalls(touchpad.resource)
    {
      var ti := touchpad.GetTouchData();
      match ti
      case Raises(e) =>
        r := Raises(e);
      case Returns(sample) =>
        r := if sample.touched != 0 then Returns((sample.x, sample.y)) else Returns((0, 0));
    }
  }
}
