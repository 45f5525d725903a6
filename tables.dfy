/**
 * The fixed name tables shared by every library generation: user modes
 * (codes 1..3), controller slots (codes 1..4) and response curves (codes 0..21).
 * Reverse lookup is by first match, as `find_key` and Python's `next(...)` do.
 */
module Tables {
  import opened Common

  /** USER_MODES: code k + 1 is named USER_MODES[k]. */
  const USER_MODES: seq<string> := ["Breath", "Lip", "Keyboard"]

  /** CURVES: code k is named CURVES[k]. */
  const CURVES: seq<string> := [
    "None", "Linear", "Emb1", "Emb2", "Emb3", "Emb4", "Emb5", "Emb6", "Emb7", "Emb8", "Emb9",
    "Emb10", "Emb11", "Emb12", "Emb13", "Emb14", "Emb15", "Emb16", "Emb17", "Emb18", "Emb19", "Emb20"]

  const KEYBOARD: string := "Keyboard"

  /** CONTROLLERS: controller slot i (1..4) is named CONTROLLERS[i - 1]. */
  const CONTROLLERS: seq<string> := ["Pressure", "AccX", "AccY", "AccZ"]

  /** The key of the aftertouch curve in a controller settings dictionary. */
  const AFTERTOUCH: string := "aftertouch"

  /** Name of a user-mode code, or None where the source's dictionary has no entry. */
  function ModeName(code: int): (r: Option<string>)
    ensures r.Some? <==> 1 <= code <= 3
    ensures r.Some? ==> r.value in USER_MODES
  {
    if 1 <= code <= |USER_MODES| then Some(USER_MODES[code - 1]) else None
  }

  /** Code of a user-mode name; None for an unknown name. */
  function ModeCode(name: string): (r: Option<Byte>)
    ensures r.Some? <==> name in USER_MODES
    ensures r.Some? ==> ModeName(r.value) == Some(name)
  {
    MemberIsIn(USER_MODES, name);
    match IndexOf(USER_MODES, name)
    case Some(k) => Some(k + 1)
    case None => None
  }

  /** Name of a curve code, or None where the source's dictionary has no entry. */
  function CurveName(code: int): (r: Option<string>)
    ensures r.Some? <==> 0 <= code < 22
  {
    if 0 <= code < |CURVES| then Some(CURVES[code]) else None
  }

  /** `name` is one of CURVES. */
  predicate KnownCurve(name: string)
  {
    Member(CURVES, name)
  }

  /** Code of a curve name; None for an unknown name. */
  function CurveCode(name: string): (r: Option<Byte>)
    ensures r.Some? <==> KnownCurve(name)
    ensures r.Some? ==> r.value < 22 && CurveName(r.value) == Some(name)
  {
    match IndexOf(CURVES, name)
    case Some(k) => Some(k)
    case None => None
  }

  lemma CurvesDistinct()
    ensures forall i, j :: 0 <= i < j < |CURVES| ==> CURVES[i] != CURVES[j]
  {
  }

  /** Every curve code survives a trip through its name. */
  lemma CurveCodeOfName(code: int)
    requires 0 <= code < 22
    ensures CurveName(code).Some? && CurveCode(CurveName(code).value) == Some(code)
  {
    CurvesDistinct();
    IndexOfDistinct(CURVES, code);
  }

  /** Every user-mode code survives a trip through its name. */
  lemma ModeCodeOfName(code: int)
    requires 1 <= code <= 3
    ensures ModeName(code).Some? && ModeCode(ModeName(code).value) == Some(code)
  {
    IndexOfDistinct(USER_MODES, code - 1);
  }
}
