/**
 * The SysEx framer: the envelope every protocol message travels in, how each
 * library generation routes an inbound transport message, and the check a
 * request applies to the response that completes it.
 *
 * An envelope is a MIDI System Exclusive message (F0 ... F7) that starts with
 * the extended manufacturer ID 00 2F 7F followed by 00 01.
 */
module SysEx {
  import opened Common

  const PREFIX: seq<Byte> := [0xF0, 0x00, 0x2F, 0x7F, 0x00, 0x01]
  const SUFFIX: seq<Byte> := [0xF7]

  /** A request: command bytes (echoed back by the device) and extra data bytes. */
  datatype Request = Request(cmd: seq<Byte>, data: seq<Byte>)

  /** The envelope test: the first six bytes are PREFIX and the last byte is SUFFIX. */
  predicate IsEnvelope(msg: seq<Byte>)
  {
    |msg| >= |PREFIX| && msg[..|PREFIX|] == PREFIX &&
    |msg| >= |SUFFIX| && msg[|msg| - |SUFFIX|..] == SUFFIX
  }

  /** The body of an envelope: the bytes strictly between PREFIX and SUFFIX. */
  function Payload(msg: seq<Byte>): (p: seq<Byte>)
    requires IsEnvelope(msg)
    ensures msg == PREFIX + p + SUFFIX
  {
    EnvelopeIsLongEnough(msg);
    msg[|PREFIX|..|msg| - |SUFFIX|]
  }

  /** What goes out on the transport for a request. */
  function Frame(req: Request): (msg: seq<Byte>)
    ensures IsEnvelope(msg) && Payload(msg) == req.cmd + req.data
  {
    var msg := PREFIX + req.cmd + req.data + SUFFIX;
    assert msg[..|PREFIX|] == PREFIX;
    assert msg[|msg| - 1..] == SUFFIX;
    assert msg == PREFIX + (req.cmd + req.data) + SUFFIX;
    msg
  }

  /** PREFIX ends in 0x01 and SUFFIX is 0xF7, so the two cannot overlap: an envelope has at least 7 bytes. */
  lemma EnvelopeIsLongEnough(msg: seq<Byte>)
    requires IsEnvelope(msg)
    ensures |msg| >= |PREFIX| + |SUFFIX|
  {
    assert msg[..|PREFIX|][5] == msg[5] == 0x01;
    assert msg[|msg| - 1..][0] == msg[|msg| - 1] == 0xF7;
  }

  /** Envelopes are exactly the messages PREFIX ++ p ++ SUFFIX. */
  lemma {:induction false} EnvelopeOfAnyPayload(p: seq<Byte>)
    ensures IsEnvelope(PREFIX + p + SUFFIX) && Payload(PREFIX + p + SUFFIX) == p
  {
    var msg := PREFIX + p + SUFFIX;
    assert msg[..|PREFIX|] == PREFIX;
    assert msg[|msg| - 1..] == SUFFIX;
  }

  /** Altering any envelope byte (one of the six prefix bytes or the suffix) makes the message non-protocol. */
  lemma {:induction false} AlteredEnvelopeIsNotProtocol(p: seq<Byte>, k: nat, b: Byte)
    requires k < |PREFIX| + |SUFFIX|
    requires b != (PREFIX + SUFFIX)[k]
    ensures var msg := PREFIX + p + SUFFIX;
            var at := if k < |PREFIX| then k else |msg| - 1;
            !IsEnvelope(msg[at := b])
  {
    var msg := PREFIX + p + SUFFIX;
    var at := if k < |PREFIX| then k else |msg| - 1;
    var m := msg[at := b];
    if k < |PREFIX| {
      assert m[..|PREFIX|][k] == b;
    } else {
      assert m[|m| - 1..][0] == b;
    }
  }

  /** Where an inbound transport message ends up. */
  datatype Route =
    | Response(payload: seq<Byte>)   // handed to the request/response correlator
    | Button(event: seq<Byte>)       // handed to the button-event callback
    | Unexpected(payload: seq<Byte>) // an envelope with an unknown tag: warned about and dropped
    | Logged(bytes: seq<Byte>)       // only written to the console
    | Passthrough(msg: seq<Byte>)    // handed to the passthrough-MIDI callback
    | Ignored                        // dropped without a trace
    | Fault                          // the handler itself raises (Python IndexError)

  const TAG_OK: Byte := 0x01
  const TAG_ACK: Byte := 0x02
  const TAG_BUTTON: Byte := 0x34

  predicate IsResponseTag(p: seq<Byte>)
  {
    |p| > 0 && (p[0] == TAG_OK || p[0] == TAG_ACK)
  }

  predicate IsButtonTag(p: seq<Byte>)
  {
    |p| > 0 && p[0] == TAG_BUTTON
  }

  /**
   * js/re_corder.js `_handle_midi`: responses to the correlator, button
   * events (tag removed) to `on_transport`, other envelopes warned about
   * (an empty payload's tag is `undefined`), everything else to `on_midi`.
   */
  function RouteCurrent(msg: seq<Byte>): (r: Route)
    ensures r.Response? <==> IsEnvelope(msg) && IsResponseTag(Payload(msg))
    ensures r.Response? ==> PREFIX + r.payload + SUFFIX == msg
    ensures r.Button? <==> IsEnvelope(msg) && IsButtonTag(Payload(msg))
    ensures r.Button? ==> PREFIX + [TAG_BUTTON] + r.event + SUFFIX == msg
    ensures r.Passthrough? <==> !IsEnvelope(msg)
    ensures r.Passthrough? ==> r.msg == msg
    ensures !r.Logged? && !r.Ignored? && !r.Fault?
  {
    if IsEnvelope(msg) then
      var p := Payload(msg);
      if IsResponseTag(p) then Response(p)
      else if IsButtonTag(p) then
        assert p == [TAG_BUTTON] + p[1..];
        Button(p[1..])
      else Unexpected(p)
    else Passthrough(msg)
  }

  /**
   * python/re_corder.py `Re_corder.__call__`: responses are queued, a button
   * event calls `handle_button(payload[1], payload[2])`, other envelopes go to
   * `unhandled`, non-envelopes to `handle_midi`. Indexing a payload too short
   * for the branch taken raises inside the callback.
   */
  function RoutePython(msg: seq<Byte>): (r: Route)
    ensures r.Response? <==> IsEnvelope(msg) && IsResponseTag(Payload(msg))
    ensures r.Response? ==> PREFIX + r.payload + SUFFIX == msg
    ensures r.Button? <==> IsEnvelope(msg) && IsButtonTag(Payload(msg)) && |Payload(msg)| >= 3
    ensures r.Button? ==> r.event == Payload(msg)[1..3]
    ensures r.Fault? <==> IsEnvelope(msg) && (|Payload(msg)| == 0 || (IsButtonTag(Payload(msg)) && |Payload(msg)| < 3))
    ensures r.Passthrough? <==> !IsEnvelope(msg)
    ensures !r.Logged? && !r.Ignored?
  {
    if IsEnvelope(msg) then
      var p := Payload(msg);
      if |p| == 0 then Fault
      else if IsResponseTag(p) then Response(p)
      else if IsButtonTag(p) then (if |p| >= 3 then Button([p[1], p[2]]) else Fault)
      else Unexpected(p)
    else Passthrough(msg)
  }

  /** docs/re_corder.js `_handle_midi`: responses are queued, button events only logged, non-envelopes ignored. */
  function RouteDocs(msg: seq<Byte>): (r: Route)
    ensures r.Response? <==> IsEnvelope(msg) && IsResponseTag(Payload(msg))
    ensures r.Response? ==> PREFIX + r.payload + SUFFIX == msg
    ensures r.Ignored? <==> !IsEnvelope(msg)
    ensures !r.Button? && !r.Passthrough? && !r.Fault?
  {
    if IsEnvelope(msg) then
      var p := Payload(msg);
      if IsResponseTag(p) then Response(p)
      else if IsButtonTag(p) then Logged(p)
      else Unexpected(p)
    else Ignored
  }

  /** web/re_corder.js `handle_midi`: responses are queued; everything else is only logged. */
  function RouteWeb(msg: seq<Byte>): (r: Route)
    ensures r.Response? <==> IsEnvelope(msg) && IsResponseTag(Payload(msg))
    ensures r.Response? ==> PREFIX + r.payload + SUFFIX == msg
    ensures !IsEnvelope(msg) ==> r == Logged(msg)
    ensures !r.Button? && !r.Passthrough? && !r.Fault? && !r.Ignored?
  {
    if IsEnvelope(msg) then
      var p := Payload(msg);
      if IsResponseTag(p) then Response(p)
      else if IsButtonTag(p) then Logged(p)
      else Unexpected(p)
    else Logged(msg)
  }

  /** All four generations agree on which messages are responses and on their payloads. */
  lemma ResponseRoutingAgrees(msg: seq<Byte>)
    ensures RouteCurrent(msg).Response? == RoutePython(msg).Response?
                                       == RouteDocs(msg).Response? == RouteWeb(msg).Response?
    ensures RouteCurrent(msg).Response? ==>
              RouteCurrent(msg) == RoutePython(msg) == RouteDocs(msg) == RouteWeb(msg)
  {
  }

  /** A well-formed button event reaches both button callbacks with the same bytes. */
  lemma ButtonRoutingAgrees(button: Byte, value: Byte)
    ensures var msg := PREFIX + [TAG_BUTTON, button, value] + SUFFIX;
            RouteCurrent(msg) == RoutePython(msg) == Button([button, value])
  {
    EnvelopeOfAnyPayload([TAG_BUTTON, button, value]);
  }

  /**
   * The check `_run` applies to the payload that completes a request (the same
   * in every generation): status 0x01, then the command bytes echoed; the
   * result is what follows them. A 0x02 payload completes the request but fails it.
   */
  function CheckResponse(cmd: seq<Byte>, payload: seq<Byte>): (r: Result<seq<Byte>>)
    ensures r.Ok? <==> |payload| > |cmd| && payload[0] == TAG_OK && payload[1..|cmd| + 1] == cmd
    ensures r.Ok? ==> payload == [TAG_OK] + cmd + r.value
    ensures r == Err(RequestFailed) <==> |payload| == 0 || payload[0] != TAG_OK
    ensures r.Err? ==> r.error == RequestFailed || r.error == UnexpectedPayload
  {
    if |payload| == 0 || payload[0] != TAG_OK then Err(RequestFailed)
    else if !Echoes(cmd, payload) then Err(UnexpectedPayload)
    else
      assert |cmd| > 0 ==> |cmd| - 1 + 1 < |payload| && payload[|cmd| - 1 + 1] == cmd[|cmd| - 1];
      assert payload[1..|cmd| + 1] == cmd;
      assert payload == [TAG_OK] + cmd + payload[|cmd| + 1..];
      Ok(payload[|cmd| + 1..])
  }

  /** `cmd.every((v, i) => v === payload[i + 1])`, with an absent byte never equal. */
  predicate Echoes(cmd: seq<Byte>, payload: seq<Byte>)
  {
    forall i :: 0 <= i < |cmd| ==> i + 1 < |payload| && payload[i + 1] == cmd[i]
  }

  /** A success response echoing the command yields exactly the bytes after the echo. */
  lemma {:induction false} EchoedResponse(cmd: seq<Byte>, data: seq<Byte>)
    ensures CheckResponse(cmd, [TAG_OK] + cmd + data) == Ok(data)
    ensures CheckResponse(cmd, [TAG_ACK] + cmd + data) == Err(RequestFailed)
  {
    var p := [TAG_OK] + cmd + data;
    assert p[1..|cmd| + 1] == cmd;
  }
}
