/**
 * The controller configuration: four controller slots (Pressure, AccX, AccY,
 * AccZ), each with a MIDI CC number and a response curve, and an aftertouch
 * curve that, when set, replaces the Pressure controller's curve.
 *
 * The setter copies a fixed 27-byte template and writes slot i's CC number at
 * offset 5i+3 and its curve code at 5i+5; the aftertouch curve goes at offset
 * 5 and then clears offset 10, the Pressure curve. The two generations differ
 * in what they accept and in when the aftertouch overrides.
 */
module Controllers {
  import opened Common
  import opened Tables
  import opened SysEx
  import opened Codec

  /**
   * One value of the settings dictionary: a slot's `{ctrl, curve}` object,
   * either key possibly absent, or a bare curve name (the aftertouch entry).
   */
  datatype CtrlEntry =
    | Slot(ctrl: Option<int>, curve: Option<string>)
    | CurveEntry(name: string)

  type CtrlMap = map<string, CtrlEntry>

  /** What a getter reports for one slot; JavaScript may report `undefined`. */
  datatype SlotReading = SlotReading(ctrl: Option<Byte>, curve: Option<string>)

  datatype ControllerReading = ControllerReading(aftertouch: Option<string>, slots: seq<SlotReading>)

  /** The template of the setter: group byte 0x01, then five-byte slot records. */
  const TEMPLATE: seq<Byte> := [
    0x01, 0x00, 0x00, 0x00, 0x00, 0x00, 0x7f,
    0x01, 0x00, 0x7f, 0x00, 0x7f,
    0x02, 0x00, 0x7f, 0x00, 0x7f,
    0x03, 0x00, 0x7f, 0x00, 0x7f,
    0x04, 0x00, 0x7f, 0x00, 0x7f]

  /** The template's own CC number and curve code for every slot. */
  const UNSET: seq<(Byte, Byte)> := [(0, 0), (0, 0), (0, 0), (0, 0)]

  /**
   * The setter's data for the (CC, curve) codes of slots 1..4 and an
   * aftertouch code that overrides or not: the layout written out byte by
   * byte, independently of the order in which the setter fills it.
   */
  function ControllerBytes(codes: seq<(Byte, Byte)>, after: Option<Byte>): (d: seq<Byte>)
    requires |codes| == 4
    ensures |d| == 27
  {
    [0x01, 0x00, 0x00, 0x00, 0x00, after.GetOr(0x00), 0x7f,
     0x01, codes[0].0, 0x7f, if after.Some? then 0x00 else codes[0].1, 0x7f,
     0x02, codes[1].0, 0x7f, codes[1].1, 0x7f,
     0x03, codes[2].0, 0x7f, codes[2].1, 0x7f,
     0x04, codes[3].0, 0x7f, codes[3].1, 0x7f]
  }

  /** The template is the layout with every slot unset and no aftertouch. */
  lemma TemplateIsUnset()
    ensures TEMPLATE == ControllerBytes(UNSET, None)
  {
  }

  /** Writing slot i's two codes into a layout sets that slot and nothing else. */
  lemma WriteSlot(codes: seq<(Byte, Byte)>, i: nat, c: (Byte, Byte))
    requires |codes| == 4 && 1 <= i <= 4
    ensures ControllerBytes(codes, None)[5 * i + 3 := c.0][5 * i + 5 := c.1] == ControllerBytes(codes[i - 1 := c], None)
  {
  }

  /** Setting the aftertouch writes offset 5 and clears the Pressure curve. */
  lemma WriteAftertouch(codes: seq<(Byte, Byte)>, a: Byte)
    requires |codes| == 4
    ensures ControllerBytes(codes, None)[5 := a][10 := 0] == ControllerBytes(codes, Some(a))
  {
  }

  /** The curve code `find_key` yields in JavaScript, where an unknown or absent name stores 0. */
  function JsCurveCode(curve: Option<string>): (c: Byte)
    ensures c < 22
    ensures curve.Some? && KnownCurve(curve.value) ==> Some(c) == CurveCode(curve.value)
    ensures curve.None? || !KnownCurve(curve.value) ==> c == 0
  {
    match curve
    case Some(name) => CurveCode(name).GetOr(0)
    case None => 0
  }

  /** The dictionary's entry under a key, None where the key is absent. */
  function Lookup(ctrls: CtrlMap, key: string): (e: Option<CtrlEntry>)
    ensures e.Some? <==> key in ctrls
    ensures e.Some? ==> e.value == ctrls[key]
  {
    if key in ctrls then Some(ctrls[key]) else None
  }

  /** The entry of controller slot i (1..4). */
  function SlotOf(ctrls: CtrlMap, i: nat): Option<CtrlEntry>
    requires 1 <= i <= 4
  {
    Lookup(ctrls, CONTROLLERS[i - 1])
  }

  /**
   * The codes JavaScript writes for a slot entry. A missing entry is a
   * TypeError; a CC number outside 0..127 throws; an absent CC number is
   * stored as 0; a bare string entry has neither key.
   */
  function JsSlotCodes(e: Option<CtrlEntry>): (r: Result<(Byte, Byte)>)
    ensures r.Ok? <==> e.Some? && (e.value.Slot? && e.value.ctrl.Some? ==> 0 <= e.value.ctrl.value <= 127)
    ensures r.Err? ==> r.error == InvalidArgument
    ensures r.Ok? && e.value.Slot? ==> r.value == (e.value.ctrl.GetOr(0), JsCurveCode(e.value.curve))
    ensures r.Ok? && e.value.CurveEntry? ==> r.value == (0, 0)
  {
    match e
    case None => Err(InvalidArgument)
    case Some(CurveEntry(_)) => Ok((0, 0))
    case Some(Slot(ctrl, curve)) =>
      if ctrl.Some? && (ctrl.value < 0 || ctrl.value > 127) then Err(InvalidArgument)
      else Ok((ctrl.GetOr(0), JsCurveCode(curve)))
  }

  /** A slot entry Python accepts: a dictionary with both keys, a CC number in 0..127 and a known curve. */
  predicate PySlotOk(e: Option<CtrlEntry>)
  {
    e.Some? && e.value.Slot? && e.value.ctrl.Some? && 0 <= e.value.ctrl.value <= 127 &&
    e.value.curve.Some? && KnownCurve(e.value.curve.value)
  }

  /** The codes Python writes for a slot entry; anything but an accepted entry raises. */
  function PySlotCodes(e: Option<CtrlEntry>): (r: Result<(Byte, Byte)>)
    ensures r.Ok? <==> PySlotOk(e)
    ensures r.Err? ==> r.error == InvalidArgument
    ensures r.Ok? ==> r.value.0 == e.value.ctrl.value && Some(r.value.1) == CurveCode(e.value.curve.value)
  {
    if PySlotOk(e) then Ok((e.value.ctrl.value, CurveCode(e.value.curve.value).value))
    else Err(InvalidArgument)
  }

  /** JavaScript writes the same codes for every slot entry Python accepts. */
  lemma SlotCodesAgree(e: Option<CtrlEntry>)
    requires PySlotOk(e)
    ensures JsSlotCodes(e) == PySlotCodes(e)
  {
  }

  /**
   * The aftertouch override in JavaScript: `find_key` yields a non-empty key
   * string for every known curve name, so every known name overrides, 'None'
   * included; an absent entry or anything else leaves the template alone.
   */
  function JsAftertouch(e: Option<CtrlEntry>): (a: Option<Byte>)
    ensures a.Some? <==> e.Some? && e.value.CurveEntry? && KnownCurve(e.value.name)
    ensures a.Some? ==> a.value < 22 && CurveName(a.value) == Some(e.value.name)
  {
    if e.Some? && e.value.CurveEntry? then CurveCode(e.value.name) else None
  }

  /**
   * The aftertouch code in Python: the key must be present and name a known
   * curve. The caller overrides only with a non-zero code.
   */
  function PyAftertouch(e: Option<CtrlEntry>): (r: Result<Byte>)
    ensures r.Ok? <==> JsAftertouch(e).Some?
    ensures r.Ok? ==> Some(r.value) == JsAftertouch(e)
    ensures r.Err? ==> r.error == InvalidArgument
  {
    match JsAftertouch(e)
    case Some(a) => Ok(a)
    case None => Err(InvalidArgument)
  }

  /** The four slots' codes, or the first failure. */
  function AllSlots(r1: Result<(Byte, Byte)>, r2: Result<(Byte, Byte)>,
                    r3: Result<(Byte, Byte)>, r4: Result<(Byte, Byte)>): (r: Result<seq<(Byte, Byte)>>)
    ensures r.Ok? <==> r1.Ok? && r2.Ok? && r3.Ok? && r4.Ok?
    ensures r.Ok? ==> r.value == [r1.value, r2.value, r3.value, r4.value]
    ensures r.Err? ==> r.error == InvalidArgument
  {
    if r1.Ok? && r2.Ok? && r3.Ok? && r4.Ok? then Ok([r1.value, r2.value, r3.value, r4.value])
    else Err(InvalidArgument)
  }

  /** Every slot passes JavaScript's check. */
  predicate JsSlotsOk(ctrls: CtrlMap)
  {
    JsSlotCodes(SlotOf(ctrls, 1)).Ok? && JsSlotCodes(SlotOf(ctrls, 2)).Ok? &&
    JsSlotCodes(SlotOf(ctrls, 3)).Ok? && JsSlotCodes(SlotOf(ctrls, 4)).Ok?
  }

  /** Every slot passes Python's check. */
  predicate PySlotsOk(ctrls: CtrlMap)
  {
    PySlotOk(SlotOf(ctrls, 1)) && PySlotOk(SlotOf(ctrls, 2)) && PySlotOk(SlotOf(ctrls, 3)) && PySlotOk(SlotOf(ctrls, 4))
  }

  function JsCodes(ctrls: CtrlMap): Result<seq<(Byte, Byte)>>
  {
    AllSlots(JsSlotCodes(SlotOf(ctrls, 1)), JsSlotCodes(SlotOf(ctrls, 2)),
             JsSlotCodes(SlotOf(ctrls, 3)), JsSlotCodes(SlotOf(ctrls, 4)))
  }

  function PyCodes(ctrls: CtrlMap): Result<seq<(Byte, Byte)>>
  {
    AllSlots(PySlotCodes(SlotOf(ctrls, 1)), PySlotCodes(SlotOf(ctrls, 2)),
             PySlotCodes(SlotOf(ctrls, 3)), PySlotCodes(SlotOf(ctrls, 4)))
  }

  /** `set_controller_config` (JavaScript) as the request it sends. */
  function JsControllerRequest(ctrls: CtrlMap): (r: Result<Request>)
    ensures r.Ok? <==> JsSlotsOk(ctrls)
    ensures r.Err? ==> r.error == InvalidArgument
    ensures r.Ok? ==> r.value.cmd == SET_CONFIG && |r.value.data| == 27
  {
    match JsCodes(ctrls)
    case Ok(codes) => Ok(Request(SET_CONFIG, ControllerBytes(codes, JsAftertouch(Lookup(ctrls, AFTERTOUCH)))))
    case Err(e) => Err(e)
  }

  /** `set_controller_config` (Python) as the request it sends. */
  function PyControllerRequest(ctrls: CtrlMap): (r: Result<Request>)
    ensures r.Ok? <==> PySlotsOk(ctrls) && PyAftertouch(Lookup(ctrls, AFTERTOUCH)).Ok?
    ensures r.Err? ==> r.error == InvalidArgument
    ensures r.Ok? ==> r.value.cmd == SET_CONFIG && |r.value.data| == 27
  {
    match PyCodes(ctrls)
    case Err(e) => Err(e)
    case Ok(codes) =>
      match PyAftertouch(Lookup(ctrls, AFTERTOUCH))
      case Err(e) => Err(e)
      case Ok(a) => Ok(Request(SET_CONFIG, ControllerBytes(codes, if a != 0 then Some(a) else None)))
  }

  /** Filling the next slot of a partly filled template. */
  lemma FillSlot(codes: seq<(Byte, Byte)>, i: nat, c: (Byte, Byte))
    requires 1 <= i <= 4 && |codes| == i - 1
    ensures ControllerBytes(codes + UNSET[i - 1..], None)[5 * i + 3 := c.0][5 * i + 5 := c.1]
            == ControllerBytes((codes + [c]) + UNSET[i..], None)
  {
    WriteSlot(codes + UNSET[i - 1..], i, c);
    assert (codes + UNSET[i - 1..])[i - 1 := c] == (codes + [c]) + UNSET[i..];
  }

  /** One slot failing fails the whole request. */
  lemma JsSlotFails(ctrls: CtrlMap, i: nat)
    requires 1 <= i <= 4 && JsSlotCodes(SlotOf(ctrls, i)).Err?
    ensures JsControllerRequest(ctrls) == Err(InvalidArgument)
  {
    assert !JsSlotsOk(ctrls) by {
      if i == 1 {
      } else if i == 2 {
      } else if i == 3 {
      }
    }
  }

  lemma PySlotFails(ctrls: CtrlMap, i: nat)
    requires 1 <= i <= 4 && PySlotCodes(SlotOf(ctrls, i)).Err?
    ensures PyControllerRequest(ctrls) == Err(InvalidArgument)
  {
    assert !PySlotsOk(ctrls) by {
      if i == 1 {
      } else if i == 2 {
      } else if i == 3 {
      }
    }
  }

  /** Python's request once the slots and the aftertouch have their codes. */
  lemma PyRequestOfParts(ctrls: CtrlMap, codes: seq<(Byte, Byte)>, a: Byte)
    requires |codes| == 4 && PyCodes(ctrls) == Ok(codes) && PyAftertouch(Lookup(ctrls, AFTERTOUCH)) == Ok(a)
    ensures PyControllerRequest(ctrls) == Ok(Request(SET_CONFIG, ControllerBytes(codes, if a != 0 then Some(a) else None)))
  {
  }

  /** The codes the setter's loop collected are the codes of the four slots. */
  lemma JsCodesOfLoop(ctrls: CtrlMap, codes: seq<(Byte, Byte)>)
    requires |codes| == 4 && forall k :: 1 <= k < 5 ==> JsSlotCodes(SlotOf(ctrls, k)) == Ok(codes[k - 1])
    ensures JsCodes(ctrls) == Ok(codes)
  {
    assert JsSlotCodes(SlotOf(ctrls, 1)) == Ok(codes[0]) && JsSlotCodes(SlotOf(ctrls, 2)) == Ok(codes[1]);
    assert JsSlotCodes(SlotOf(ctrls, 3)) == Ok(codes[2]) && JsSlotCodes(SlotOf(ctrls, 4)) == Ok(codes[3]);
    FourOf(codes);
  }

  lemma PyCodesOfLoop(ctrls: CtrlMap, codes: seq<(Byte, Byte)>)
    requires |codes| == 4 && forall k :: 1 <= k < 5 ==> PySlotCodes(SlotOf(ctrls, k)) == Ok(codes[k - 1])
    ensures PyCodes(ctrls) == Ok(codes)
  {
    assert PySlotCodes(SlotOf(ctrls, 1)) == Ok(codes[0]) && PySlotCodes(SlotOf(ctrls, 2)) == Ok(codes[1]);
    assert PySlotCodes(SlotOf(ctrls, 3)) == Ok(codes[2]) && PySlotCodes(SlotOf(ctrls, 4)) == Ok(codes[3]);
    FourOf(codes);
  }

  /**
   * The setters' loop over slots 1..4: slot i's codes, from slot(i), written
   * into the template copy at offsets 5i+3 and 5i+5, stopping at the first
   * slot that fails.
   */
  method FillSlots(data: array<Byte>, slot: nat -> Result<(Byte, Byte)>) returns (r: Result<seq<(Byte, Byte)>>)
    requires data.Length == 27 && data[..] == ControllerBytes(UNSET, None)
    modifies data
    ensures r.Ok? ==> |r.value| == 4 && data[..] == ControllerBytes(r.value, None)
    ensures r.Ok? ==> forall k :: 1 <= k < 5 ==> slot(k) == Ok(r.value[k - 1])
    ensures r.Err? ==> exists k :: 1 <= k < 5 && slot(k) == Err(r.error)
  {
    var codes: seq<(Byte, Byte)> := [];
    assert UNSET[0..] == UNSET;
    for i := 1 to 5
      invariant |codes| == i - 1
      invariant forall k :: 1 <= k < i ==> slot(k) == Ok(codes[k - 1])
      invariant data[..] == ControllerBytes(codes + UNSET[i - 1..], None)
    {
      var c;
      match slot(i) {
        case Err(e) =>
          return Err(e);
        case Ok(pair) =>
          c := pair;
      }
      FillSlot(codes, i, c);
      data[5 * i + 3] := c.0;
      data[5 * i + 5] := c.1;
      codes := codes + [c];
    }
    assert codes + UNSET[4..] == codes;
    r := Ok(codes);
  }

  /** The slot loop of the JavaScript setter, with JavaScript's per-slot check. */
  method JsFillSlots(data: array<Byte>, ctrls: CtrlMap) returns (r: Result<seq<(Byte, Byte)>>)
    requires data.Length == 27 && data[..] == ControllerBytes(UNSET, None)
    modifies data
    ensures r.Ok? ==> |r.value| == 4 && data[..] == ControllerBytes(r.value, None) && JsCodes(ctrls) == Ok(r.value)
    ensures r.Err? ==> JsControllerRequest(ctrls) == Err(r.error)
  {
    var slot: nat -> Result<(Byte, Byte)> := k => if 1 <= k <= 4 then JsSlotCodes(SlotOf(ctrls, k)) else Err(InvalidArgument);
    r := FillSlots(data, slot);
    if r.Err? {
      var k :| 1 <= k < 5 && slot(k) == Err(r.error);
      JsSlotFails(ctrls, k);
      return;
    }
    forall k | 1 <= k < 5
      ensures JsSlotCodes(SlotOf(ctrls, k)) == Ok(r.value[k - 1])
    {
      assert slot(k) == Ok(r.value[k - 1]);
    }
    JsCodesOfLoop(ctrls, r.value);
  }

  /**
   * `set_controller_config` (JavaScript): fills a copy of the template slot by
   * slot, throwing at the first bad CC number, then applies the aftertouch.
   */
  method JsSetControllerConfig(ctrls: CtrlMap) returns (r: Result<Request>)
    ensures r == JsControllerRequest(ctrls)
  {
    var data := new Byte[27](j => if 0 <= j < 27 then TEMPLATE[j] else 0);
    TemplateIsUnset();
    var filled := JsFillSlots(data, ctrls);
    if filled.Err? {
      return Err(filled.error);
    }
    var codes := filled.value;
    match JsAftertouch(Lookup(ctrls, AFTERTOUCH)) {
      case Some(a) =>
        WriteAftertouch(codes, a);
        data[5] := a;
        data[10] := 0;
      case None =>
    }
    r := Ok(Request(SET_CONFIG, data[..]));
  }

  /** The slot loop of the Python setter, with Python's per-slot check. */
  method PyFillSlots(data: array<Byte>, ctrls: CtrlMap) returns (r: Result<seq<(Byte, Byte)>>)
    requires data.Length == 27 && data[..] == ControllerBytes(UNSET, None)
    modifies data
    ensures r.Ok? ==> |r.value| == 4 && data[..] == ControllerBytes(r.value, None) && PyCodes(ctrls) == Ok(r.value)
    ensures r.Err? ==> PyControllerRequest(ctrls) == Err(r.error)
  {
    var slot: nat -> Result<(Byte, Byte)> := k => if 1 <= k <= 4 then PySlotCodes(SlotOf(ctrls, k)) else Err(InvalidArgument);
    r := FillSlots(data, slot);
    if r.Err? {
      var k :| 1 <= k < 5 && slot(k) == Err(r.error);
      PySlotFails(ctrls, k);
      return;
    }
    forall k | 1 <= k < 5
      ensures PySlotCodes(SlotOf(ctrls, k)) == Ok(r.value[k - 1])
    {
      assert slot(k) == Ok(r.value[k - 1]);
    }
    PyCodesOfLoop(ctrls, r.value);
  }

  /**
   * `set_controller_config` (Python): the same fill, stricter per slot, then
   * the aftertouch, which must be a known curve and overrides when non-zero.
   */
  method PySetControllerConfig(ctrls: CtrlMap) returns (r: Result<Request>)
    ensures r == PyControllerRequest(ctrls)
  {
    var data := new Byte[27](j => if 0 <= j < 27 then TEMPLATE[j] else 0);
    TemplateIsUnset();
    var filled := PyFillSlots(data, ctrls);
    if filled.Err? {
      return Err(filled.error);
    }
    var codes := filled.value;
    var a;
    match PyAftertouch(Lookup(ctrls, AFTERTOUCH)) {
      case Err(e) =>
        return Err(e);
      case Ok(code) =>
        a := code;
    }
    PyRequestOfParts(ctrls, codes, a);
    if a != 0 {
      WriteAftertouch(codes, a);
      data[5] := a;
      data[10] := 0;
    }
    r := Ok(Request(SET_CONFIG, data[..]));
  }

  // ---- reading the configuration back --------------------------------------

  /** The curve name of an optional code: `CURVES[undefined]` is undefined. */
  function CurveOf(b: Option<Byte>): (name: Option<string>)
    ensures b.Some? && b.value < 22 ==> name == CurveName(b.value)
    ensures b.None? || b.value >= 22 ==> name.None?
  {
    match b
    case Some(code) => CurveName(code)
    case None => None
  }

  /**
   * `get_controller_config` (JavaScript): the aftertouch curve from byte 4,
   * slot i's CC number from byte 5i+2 and its curve from byte 5i+4.
   */
  function JsControllerConfig(data: seq<Byte>): (r: ControllerReading)
    ensures |r.slots| == 4
    ensures r.aftertouch == CurveOf(ByteAt(data, 4))
    ensures forall i :: 1 <= i <= 4 ==>
              r.slots[i - 1] == SlotReading(ByteAt(data, 5 * i + 2), CurveOf(ByteAt(data, 5 * i + 4)))
  {
    ControllerReading(CurveOf(ByteAt(data, 4)),
      [SlotReading(ByteAt(data, 7), CurveOf(ByteAt(data, 9))),
       SlotReading(ByteAt(data, 12), CurveOf(ByteAt(data, 14))),
       SlotReading(ByteAt(data, 17), CurveOf(ByteAt(data, 19))),
       SlotReading(ByteAt(data, 22), CurveOf(ByteAt(data, 24)))])
  }

  /**
   * `get_controller_config` (Python): the same positions, but a short
   * response is an IndexError and an unknown curve code a KeyError.
   */
  function PyControllerConfig(data: seq<Byte>): (r: Result<ControllerReading>)
    ensures r.Ok? <==> |data| >= 25 && data[4] < 22 && data[9] < 22 && data[14] < 22 && data[19] < 22 && data[24] < 22
    ensures r.Ok? ==> r.value == JsControllerConfig(data)
    ensures r.Ok? ==> r.value.aftertouch.Some? && forall i :: 0 <= i < 4 ==> r.value.slots[i].ctrl.Some? && r.value.slots[i].curve.Some?
  {
    if |data| >= 25 && data[4] < 22 && data[9] < 22 && data[14] < 22 && data[19] < 22 && data[24] < 22 then
      Ok(JsControllerConfig(data))
    else Err(MalformedResponse)
  }

  /**
   * Reading back a layout gives each slot's CC number and curve and the
   * aftertouch curve, with the Pressure curve reading 'None' once the
   * aftertouch has overridden it.
   */
  lemma ControllerBytesReadBack(codes: seq<(Byte, Byte)>, after: Option<Byte>)
    requires |codes| == 4 && codes[0].1 < 22 && codes[1].1 < 22 && codes[2].1 < 22 && codes[3].1 < 22
    requires after.Some? ==> after.value < 22
    ensures var rec := ControllerBytes(codes, after)[1..];
            var rd := JsControllerConfig(rec);
            PyControllerConfig(rec) == Ok(rd) &&
            rd.aftertouch == CurveName(after.GetOr(0)) &&
            rd.slots == [SlotReading(Some(codes[0].0), CurveName(if after.Some? then 0 else codes[0].1)),
                         SlotReading(Some(codes[1].0), CurveName(codes[1].1)),
                         SlotReading(Some(codes[2].0), CurveName(codes[2].1)),
                         SlotReading(Some(codes[3].0), CurveName(codes[3].1))]
  {
  }

  /**
   * A settings dictionary both generations accept: every slot an object with
   * a CC number in 0..127 and a known curve, and a known aftertouch curve.
   */
  predicate WellFormed(ctrls: CtrlMap)
  {
    PySlotsOk(ctrls) && JsAftertouch(Lookup(ctrls, AFTERTOUCH)).Some?
  }

  /** Python accepts exactly the well-formed dictionaries; JavaScript accepts all of them too. */
  lemma AcceptedSettings(ctrls: CtrlMap)
    ensures PyControllerRequest(ctrls).Ok? <==> WellFormed(ctrls)
    ensures WellFormed(ctrls) ==> JsControllerRequest(ctrls).Ok?
  {
  }

  /** The CC number and curve name given in an accepted slot entry. */
  function SlotGiven(e: Option<CtrlEntry>): (r: SlotReading)
    requires PySlotOk(e)
    ensures r.ctrl.Some? && r.curve.Some?
  {
    SlotReading(Some(e.value.ctrl.value), e.value.curve)
  }

  /** The aftertouch curve name given. */
  function AftertouchGiven(ctrls: CtrlMap): string
    requires WellFormed(ctrls)
  {
    Lookup(ctrls, AFTERTOUCH).value.name
  }

  /** What Python writes for an accepted slot entry reads back as the entry's values. */
  lemma SlotCodesReadBack(e: Option<CtrlEntry>)
    requires PySlotOk(e)
    ensures PySlotCodes(e).value.1 < 22
    ensures SlotReading(Some(PySlotCodes(e).value.0), CurveName(PySlotCodes(e).value.1)) == SlotGiven(e)
  {
  }

  /** On a well-formed dictionary both generations compute the same slot codes. */
  lemma CodesOfWellFormed(ctrls: CtrlMap)
    requires WellFormed(ctrls)
    ensures PyCodes(ctrls).Ok? && JsCodes(ctrls) == PyCodes(ctrls)
    ensures PyCodes(ctrls).value == [PySlotCodes(SlotOf(ctrls, 1)).value, PySlotCodes(SlotOf(ctrls, 2)).value,
                                     PySlotCodes(SlotOf(ctrls, 3)).value, PySlotCodes(SlotOf(ctrls, 4)).value]
  {
  }

  /**
   * JavaScript round trip: the getter reads back every CC number and curve
   * and the aftertouch curve; the Pressure curve reads 'None', since every
   * known aftertouch name overrides it.
   */
  lemma JsControllersRoundTrip(ctrls: CtrlMap)
    requires WellFormed(ctrls)
    ensures JsControllerRequest(ctrls).Ok?
    ensures var rd := JsControllerConfig(Record(JsControllerRequest(ctrls).value));
            rd.aftertouch == Some(AftertouchGiven(ctrls)) &&
            rd.slots == [SlotReading(SlotGiven(SlotOf(ctrls, 1)).ctrl, Some(CURVES[0])), SlotGiven(SlotOf(ctrls, 2)),
                         SlotGiven(SlotOf(ctrls, 3)), SlotGiven(SlotOf(ctrls, 4))]
  {
    CodesOfWellFormed(ctrls);
    SlotCodesReadBack(SlotOf(ctrls, 1));
    SlotCodesReadBack(SlotOf(ctrls, 2));
    SlotCodesReadBack(SlotOf(ctrls, 3));
    SlotCodesReadBack(SlotOf(ctrls, 4));
    ControllerBytesReadBack(JsCodes(ctrls).value, JsAftertouch(Lookup(ctrls, AFTERTOUCH)));
  }

  /**
   * Python round trip: as in JavaScript, except that an aftertouch of 'None'
   * (code 0) leaves the Pressure curve as given.
   */
  lemma PyControllersRoundTrip(ctrls: CtrlMap)
    requires WellFormed(ctrls)
    ensures PyControllerRequest(ctrls).Ok?
    ensures var rd := PyControllerConfig(Record(PyControllerRequest(ctrls).value));
            var pressure := SlotGiven(SlotOf(ctrls, 1));
            rd.Ok? &&
            rd.value.aftertouch == Some(AftertouchGiven(ctrls)) &&
            rd.value.slots == [if AftertouchGiven(ctrls) == CURVES[0] then pressure
                               else SlotReading(pressure.ctrl, Some(CURVES[0])),
                               SlotGiven(SlotOf(ctrls, 2)), SlotGiven(SlotOf(ctrls, 3)), SlotGiven(SlotOf(ctrls, 4))]
  {
    CodesOfWellFormed(ctrls);
    SlotCodesReadBack(SlotOf(ctrls, 1));
    SlotCodesReadBack(SlotOf(ctrls, 2));
    SlotCodesReadBack(SlotOf(ctrls, 3));
    SlotCodesReadBack(SlotOf(ctrls, 4));
    var a := PyAftertouch(Lookup(ctrls, AFTERTOUCH)).value;
    NoneIsCodeZero(a);
    ControllerBytesReadBack(PyCodes(ctrls).value, if a != 0 then Some(a) else None);
  }

  /** Curve code 0 is the only code named 'None'. */
  lemma NoneIsCodeZero(a: Byte)
    requires a < 22
    ensures CurveName(a) == Some(CURVES[0]) <==> a == 0
  {
    CurvesDistinct();
  }

  /** Overriding with code 0 changes the layout exactly when the Pressure curve is not already 0. */
  lemma ZeroOverride(codes: seq<(Byte, Byte)>)
    requires |codes| == 4
    ensures ControllerBytes(codes, Some(0)) == ControllerBytes(codes, None) <==> codes[0].1 == 0
  {
    if codes[0].1 != 0 {
      assert ControllerBytes(codes, Some(0))[10] != ControllerBytes(codes, None)[10];
    }
  }

  /**
   * The one difference on well-formed input: with an aftertouch of 'None',
   * JavaScript clears the Pressure curve and Python keeps it.
   */
  lemma AftertouchNoneDiverges(ctrls: CtrlMap)
    requires WellFormed(ctrls)
    ensures JsControllerRequest(ctrls).Ok? && PyControllerRequest(ctrls).Ok?
    ensures JsControllerRequest(ctrls) == PyControllerRequest(ctrls)
            <==> AftertouchGiven(ctrls) != CURVES[0] || SlotGiven(SlotOf(ctrls, 1)).curve == Some(CURVES[0])
  {
    CodesOfWellFormed(ctrls);
    var codes := PyCodes(ctrls).value;
    SlotCodesReadBack(SlotOf(ctrls, 1));
    var a := PyAftertouch(Lookup(ctrls, AFTERTOUCH)).value;
    NoneIsCodeZero(a);
    NoneIsCodeZero(codes[0].1);
    PyRequestOfParts(ctrls, codes, a);
    ZeroOverride(codes);
    assert JsControllerRequest(ctrls) == Ok(Request(SET_CONFIG, ControllerBytes(codes, Some(a))));
  }
}
