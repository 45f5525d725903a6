/**
 * The command codec: the requests the getters send, the requests the setters
 * build once their arguments pass validation, and how each library generation
 * reads the data a getter's response carries.
 *
 * A setter's data is a settings record headed by a group byte (0x05 user
 * mode, 0x03 MIDI channel, 0x01 easy-connect, 0x07 sensitivity, 0x08
 * smoothing, 0x01 controllers); the getter of that group receives the record
 * without its group byte, which `Record` names. The JavaScript getters index
 * into the data and get `undefined` for a missing byte (modelled as None, or
 * as 0 where the source computes with it); the Python getters unpack fixed
 * shapes and raise on anything else (modelled as MalformedResponse).
 */
module Codec {
  import opened Common
  import opened Tables
  import opened SysEx
  import opened Bits

  // ---- requests without arguments ----------------------------------------

  const GET_USER_MODE: Request := Request([0x22, 0x05], [])
  const GET_MIDI_CHANNEL: Request := Request([0x22, 0x03], [])
  const GET_EASY_CONNECT: Request := Request([0x22, 0x01], [])
  const GET_SMOOTHING: Request := Request([0x31, 0x08], [0x01])
  const GET_SENSITIVITY: Request := Request([0x31, 0x07], [0x01])
  const GET_CONTROLLERS: Request := Request([0x31, 0x01], [0x01])
  const GET_FINGERING_CHART: Request := Request([0x31, 0x00], [0x00])
  const GET_BATTERY: Request := Request([0x3a], [0x02])
  const FACTORY_RESET: Request := Request([0x10], [])
  const RESTORE_DEFAULTS: Request := Request([0x2f], [])

  /** The command byte of the user-mode, MIDI-channel and easy-connect setters. */
  const SET_SETTING: seq<Byte> := [0x21]
  /** The command byte of the sensitivity, smoothing, controller and chart setters. */
  const SET_CONFIG: seq<Byte> := [0x30]

  /** The settings record a setter writes: its data after the group byte. */
  function Record(req: Request): seq<Byte>
    requires |req.data| >= 1
  {
    req.data[1..]
  }

  /** JavaScript reads a missing byte as `undefined`. */
  function ByteAt(data: seq<Byte>, i: nat): (r: Option<Byte>)
    ensures r.Some? <==> i < |data|
    ensures r.Some? ==> r.value == data[i]
  {
    if i < |data| then Some(data[i]) else None
  }

  /** ... which shifts and `|` treat as 0. */
  function IntAt(data: seq<Byte>, i: nat): nat
  {
    ByteAt(data, i).GetOr(0)
  }

  // ---- 14-bit values in two 7-bit bytes ----------------------------------

  /** `[v >> 7, v & 0x7f]`: the high and low 7-bit halves of a value. */
  function Split7(v: nat): (r: (nat, nat))
    ensures v < 0x4000 ==> r.0 < 0x80 && r.1 < 0x80
    ensures 0x80 * r.0 + r.1 == v
  {
    SmallPowers();
    ShrLow(v, 7);
    ShlIsProduct(Shr(v, 7), 7);
    AndLowMask(v, 7);
    assert Ones(7) == 0x7f;
    assert v < 0x4000 ==> Shr(v, 7) < 0x80 by {
      if v < 0x4000 {
        ShrBound(v, 7, 7);
      }
    }
    (Shr(v, 7), BitAnd(v, 0x7f))
  }

  /** `(hi << 7) | lo`. */
  function Join7(hi: nat, lo: nat): nat
  {
    BitOr(Shl(hi, 7), lo)
  }

  /** On 7-bit halves, joining is the positional sum, so it undoes the split. */
  lemma Join7IsSum(hi: nat, lo: nat)
    requires lo < 0x80
    ensures Join7(hi, lo) == 0x80 * hi + lo
  {
    SmallPowers();
    OrLowBits(hi, lo, 7);
    ShlIsProduct(hi, 7);
  }

  lemma Join7OfSplit7(v: nat)
    requires v < 0x4000
    ensures Join7(Split7(v).0, Split7(v).1) == v
  {
    Join7IsSum(Split7(v).0, Split7(v).1);
  }

  // ---- user mode, MIDI channel, easy-connect ------------------------------

  /** `set_user_mode`: an unknown mode name is refused; otherwise its code is written. */
  function SetUserMode(mode: string): (r: Result<Request>)
    ensures r.Ok? <==> mode in USER_MODES
    ensures r.Err? ==> r.error == InvalidArgument
    ensures r.Ok? ==> r.value.cmd == SET_SETTING && |r.value.data| == 2 && r.value.data[0] == 0x05
    ensures r.Ok? ==> ModeName(r.value.data[1]) == Some(mode)
  {
    match ModeCode(mode)
    case None => Err(InvalidArgument)
    case Some(m) => Ok(Request(SET_SETTING, [0x05, m]))
  }

  /** `set_midi_channel`: channels 1..16 only. */
  function SetMidiChannel(ch: int): (r: Result<Request>)
    ensures r.Ok? <==> 1 <= ch <= 16
    ensures r.Err? ==> r.error == InvalidArgument
    ensures r.Ok? ==> r.value.cmd == SET_SETTING && r.value.data == [0x03, ch]
  {
    if ch < 1 || ch > 16 then Err(InvalidArgument)
    else Ok(Request(SET_SETTING, [0x03, ch]))
  }

  /** `set_easy_connect_status`: the wire byte is inverted (0 means on). */
  function SetEasyConnect(on: bool): (r: Request)
    ensures r.cmd == SET_SETTING && |r.data| == 2 && r.data[0] == 0x01
    ensures r.data[1] == 0 <==> on
  {
    Request(SET_SETTING, [0x01, if on then 0 else 1])
  }

  /** `get_user_mode` (JavaScript): the name of byte 0, undefined for an unknown code or no data. */
  function JsUserMode(data: seq<Byte>): (r: Option<string>)
    ensures r.Some? <==> |data| >= 1 && 1 <= data[0] <= 3
  {
    if |data| >= 1 then ModeName(data[0]) else None
  }

  /** `get_user_mode` (Python): an unknown code or no data raises. */
  function PyUserMode(data: seq<Byte>): (r: Result<string>)
    ensures r.Ok? <==> JsUserMode(data).Some?
    ensures r.Ok? ==> r.value == JsUserMode(data).value
    ensures r.Err? ==> r.error == MalformedResponse
  {
    match JsUserMode(data)
    case Some(m) => Ok(m)
    case None => Err(MalformedResponse)
  }

  /** `get_midi_channel`: byte 0. */
  function JsMidiChannel(data: seq<Byte>): (r: Option<Byte>)
    ensures r == ByteAt(data, 0)
  {
    if |data| >= 1 then Some(data[0]) else None
  }

  function PyMidiChannel(data: seq<Byte>): (r: Result<Byte>)
    ensures r.Ok? <==> |data| >= 1
    ensures r.Ok? ==> Some(r.value) == JsMidiChannel(data)
  {
    if |data| >= 1 then Ok(data[0]) else Err(MalformedResponse)
  }

  /** `get_easy_connect_status` (JavaScript): `!data[0]`, so a missing byte reads as on. */
  function JsEasyConnect(data: seq<Byte>): (on: bool)
    ensures on <==> |data| == 0 || data[0] == 0
  {
    !(|data| >= 1 && data[0] != 0)
  }

  function PyEasyConnect(data: seq<Byte>): (r: Result<bool>)
    ensures r.Ok? <==> |data| >= 1
    ensures r.Ok? ==> r.value == JsEasyConnect(data)
  {
    if |data| >= 1 then Ok(data[0] == 0) else Err(MalformedResponse)
  }

  /** Reading back the record of each scalar setter gives the value set. */
  lemma ScalarSettingsRoundTrip(mode: string, ch: int, on: bool)
    ensures SetUserMode(mode).Ok? ==> PyUserMode(Record(SetUserMode(mode).value)) == Ok(mode)
    ensures SetMidiChannel(ch).Ok? ==> PyMidiChannel(Record(SetMidiChannel(ch).value)) == Ok(ch)
    ensures PyEasyConnect(Record(SetEasyConnect(on))) == Ok(on)
    ensures JsEasyConnect(Record(SetEasyConnect(on))) == on
  {
  }

  // ---- smoothing ------------------------------------------------------------

  datatype Smoothing = Smoothing(maintainNote: bool, smoothAcc: Option<Byte>)

  /** `set_smoothing`: levels 0..4 only; the flag is written as 1 or 0. */
  function SetSmoothing(maintain: bool, smooth: int): (r: Result<Request>)
    ensures r.Ok? <==> 0 <= smooth <= 4
    ensures r.Err? ==> r.error == InvalidArgument
    ensures r.Ok? ==> r.value.cmd == SET_CONFIG && |r.value.data| == 6
    ensures r.Ok? ==> r.value.data[..3] == [0x08, 0x02, 0x03] && r.value.data[4] == 0x04
    ensures r.Ok? ==> (r.value.data[3] == 1 <==> maintain) && r.value.data[3] <= 1 && r.value.data[5] == smooth
  {
    if smooth < 0 || smooth > 4 then Err(InvalidArgument)
    else Ok(Request(SET_CONFIG, [0x08, 0x02, 0x03, if maintain then 1 else 0, 0x04, smooth]))
  }

  /** `get_smoothing` (JavaScript): `Boolean(data[2])` and `data[4]`. */
  function JsSmoothing(data: seq<Byte>): (r: Smoothing)
    ensures r.maintainNote <==> |data| > 2 && data[2] != 0
    ensures r.smoothAcc == ByteAt(data, 4)
  {
    Smoothing(|data| > 2 && data[2] != 0, ByteAt(data, 4))
  }

  /** `get_smoothing` (Python): exactly five bytes `_, _, maintain, _, smooth`. */
  function PySmoothing(data: seq<Byte>): (r: Result<(bool, Byte)>)
    ensures r.Ok? <==> |data| == 5
    ensures r.Ok? ==> Smoothing(r.value.0, Some(r.value.1)) == JsSmoothing(data)
  {
    if |data| == 5 then Ok((data[2] != 0, data[4])) else Err(MalformedResponse)
  }

  lemma SmoothingRoundTrip(maintain: bool, smooth: int)
    requires SetSmoothing(maintain, smooth).Ok?
    ensures PySmoothing(Record(SetSmoothing(maintain, smooth).value)) == Ok((maintain, smooth))
  {
  }

  // ---- sensitivity ----------------------------------------------------------

  datatype Sensitivity = Sensitivity(threshold: nat, velocity: Option<Byte>)

  /**
   * `set_sensitivity`: a threshold in [601, 0x3fff] and a velocity in
   * [0, 0x7f]; the threshold travels as two 7-bit bytes.
   */
  function SetSensitivity(threshold: int, velocity: int): (r: Result<Request>)
    ensures r.Ok? <==> 601 <= threshold <= 0x3fff && 0 <= velocity <= 0x7f
    ensures r.Err? ==> r.error == InvalidArgument
    ensures r.Ok? ==> r.value.cmd == SET_CONFIG && |r.value.data| == 7
    ensures r.Ok? ==> r.value.data[..3] == [0x07, 0x02, 0x00] && r.value.data[5] == 0x01 && r.value.data[6] == velocity
    ensures r.Ok? ==> r.value.data[3] < 0x80 && r.value.data[4] < 0x80
    ensures r.Ok? ==> 0x80 * (r.value.data[3] as int) + r.value.data[4] as int == threshold
  {
    if threshold < 601 || threshold > 0x3fff then Err(InvalidArgument)
    else if velocity < 0 || velocity > 0x7f then Err(InvalidArgument)
    else
      var (hi, lo) := Split7(threshold);
      Ok(Request(SET_CONFIG, [0x07, 0x02, 0x00, hi, lo, 0x01, velocity]))
  }

  /** `get_sensitivity` (JavaScript): `(data[2] << 7) | data[3]` and `data[5]`. */
  function JsSensitivity(data: seq<Byte>): (r: Sensitivity)
    ensures |data| > 3 && data[3] < 0x80 ==> r.threshold == 0x80 * (data[2] as int) + data[3] as int
    ensures r.velocity == ByteAt(data, 5)
  {
    assert |data| > 3 && data[3] < 0x80 ==> Join7(data[2], data[3]) == 0x80 * (data[2] as int) + data[3] as int by {
      if |data| > 3 && data[3] < 0x80 {
        Join7IsSum(data[2], data[3]);
      }
    }
    Sensitivity(Join7(IntAt(data, 2), IntAt(data, 3)), ByteAt(data, 5))
  }

  /** `get_sensitivity` (Python): exactly six bytes `_, _, hi, lo, _, v`. */
  function PySensitivity(data: seq<Byte>): (r: Result<(nat, Byte)>)
    ensures r.Ok? <==> |data| == 6
    ensures r.Ok? ==> Sensitivity(r.value.0, Some(r.value.1)) == JsSensitivity(data)
  {
    if |data| == 6 then Ok((Join7(data[2], data[3]), data[5])) else Err(MalformedResponse)
  }

  /** The threshold split by the setter is recombined by both getters. */
  lemma SensitivityRoundTrip(threshold: int, velocity: int)
    requires SetSensitivity(threshold, velocity).Ok?
    ensures var rec := Record(SetSensitivity(threshold, velocity).value);
            PySensitivity(rec) == Ok((threshold, velocity)) &&
            JsSensitivity(rec) == Sensitivity(threshold, Some(velocity))
  {
    var rec := Record(SetSensitivity(threshold, velocity).value);
    Join7IsSum(rec[2], rec[3]);
  }

  // ---- battery --------------------------------------------------------------

  /** `get_battery_state` (JavaScript): `(data[2] << 7) | data[3]`. */
  function JsBattery(data: seq<Byte>): (level: nat)
    ensures |data| > 3 && data[3] < 0x80 ==> level == 0x80 * (data[2] as int) + data[3] as int
    ensures |data| == 3 ==> level == 0x80 * (data[2] as int)
    ensures |data| <= 2 ==> level == 0
  {
    assert |data| > 3 && data[3] < 0x80 ==> Join7(data[2], data[3]) == 0x80 * (data[2] as int) + data[3] as int by {
      if |data| > 3 && data[3] < 0x80 {
        Join7IsSum(data[2], data[3]);
      }
    }
    assert |data| == 3 ==> Join7(data[2], 0) == 0x80 * (data[2] as int) by {
      if |data| == 3 {
        Join7IsSum(data[2], 0);
      }
    }
    Join7IsSum(0, 0);
    Join7(IntAt(data, 2), IntAt(data, 3))
  }

  /** `get_battery_state` (Python): exactly four bytes `_, _, hi, lo`. */
  function PyBattery(data: seq<Byte>): (r: Result<nat>)
    ensures r.Ok? <==> |data| == 4
    ensures r.Ok? ==> r.value == JsBattery(data)
  {
    if |data| == 4 then Ok(Join7(data[2], data[3])) else Err(MalformedResponse)
  }

  /** Two 7-bit level bytes give a level below 0x4000, the same in both generations. */
  lemma BatteryLevelBound(data: seq<Byte>)
    requires |data| == 4 && data[2] < 0x80 && data[3] < 0x80
    ensures PyBattery(data) == Ok(JsBattery(data)) && JsBattery(data) < 0x4000
  {
  }

  // ---- factory reset --------------------------------------------------------

  /**
   * `factory_reset` (Python): the device drops the connection when it resets,
   * so only a timeout counts as success; a response raises, and a failed
   * request propagates.
   */
  function PyFactoryReset(run: Result<seq<Byte>>): (r: Result<()>)
    ensures r.Ok? <==> run == Err(Timeout)
    ensures run.Ok? ==> r == Err(RequestFailed)
  {
    match run
    case Err(Timeout) => Ok(())
    case Err(e) => Err(e)
    case Ok(_) => Err(RequestFailed)
  }

  /** `factory_reset` (JavaScript): every outcome of the request is swallowed. */
  function JsFactoryReset(run: Result<seq<Byte>>): (r: Result<()>)
    ensures r.Ok?
  {
    Ok(())
  }

  /** The generations disagree exactly when the device answers. */
  lemma FactoryResetOutcomes(run: Result<seq<Byte>>)
    ensures JsFactoryReset(run) == PyFactoryReset(run) <==> run == Err(Timeout)
  {
  }
}
