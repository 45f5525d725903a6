# re.corder SysEx configuration protocol in Dafny

This project models the protocol core of the re.corder configuration library
for the Artinoise re.corder MIDI wind controller. The library exists in four
generations, and all of them are modelled:

- the current JavaScript library (`js/re_corder.js`, `js/re_corder_utils.js`);
- the Python library (`python/re_corder.py`, `python/re_corder_charts.py`, and
  `updated_config`/`update_settings` in `python/re_configure.py`);
- two older JavaScript copies (`docs/re_corder.js`, `web/re_corder.js`).

The model has these parts. Each is one Dafny module in its own file:

- `Common`: bytes, `Option`/`Result`, the error kinds, and generic sequence and map facts.
- `Bits`: `<<`, `>>`, `&` and `|` on natural numbers, digit by digit.
- `Tables`: the user-mode and curve tables, and `find_key`.
- `SysEx`: the System Exclusive envelope `F0 00 2F 7F 00 01 … F7`. Each generation's
  classifier decides what a message is: response, button event, logged, ignored or
  passthrough MIDI. `CheckResponse` is the status-and-echo check that `_run` applies
  to a response.
- `Codec`: the scalar setters and getters. These cover user mode, MIDI channel,
  easy-connect (inverted on the wire), smoothing, sensitivity (a 14-bit threshold
  in two 7-bit bytes), battery and factory reset. The JavaScript getters read
  missing bytes as `undefined`; the Python getters unpack fixed shapes.
- `Controllers`: the 27-byte controller template. It is filled in place
  slot by slot, and the aftertouch override is modelled with each generation's rule.
- `Notes`: note names and MIDI numbers, through the 24-entry two-spellings table.
- `Fingering`: fingering strings `o * @ e .` and the 11-bit tone-hole mask. A mask is
  modelled as the set of its bit positions.
- `FingeringChart`: the chart request, its per-entry checks and reading it back.
- `Sorting`: Python's `sorted` on chart entries. The entries are fixed-width
  lowercase hex, so their order is the lexicographic order of the bytes.
- `Charts`: fingering charts and the 9-key keyboard chart in both libraries, with
  mode gating.
- `Correlator`: the request/response correlators, as classes whose methods
  change the queue. The timers become explicit `Timeout` and `Tick` events. Each
  class records the framed messages it has sent in a `sent` log.
- `Config`: `deep_update`, `updated_config`, and the setter calls that
  `set_re_corder_config` and `update_settings` issue.

## Model

| member | source | states |
|---|---|---|
| `Tables.ModeName` | js/re_corder.js:9-13 | A name exists exactly for the codes 1..3, and it is one of the table's modes. |
| `Tables.ModeCode` | python/re_corder.py:213-217 | A code exists exactly for the three mode names, and the code maps back to the same name. |
| `Tables.CurveName` | js/re_corder.js:22-45 | A curve name exists exactly for the codes 0..21. |
| `Tables.CurveCode` | js/re_corder.js:61 | `find_key` on the curve table: a code exists exactly for known names; it is below 22 and names the same curve. |
| `Tables.CurvesDistinct` | python/re_corder.py:32-55 | The 22 curve names are pairwise distinct, so the reverse lookup is unambiguous. |
| `Tables.CurveCodeOfName` | python/re_corder.py:266 | For every code 0..21, looking up its name gives the same code back. |
| `Tables.ModeCodeOfName` | python/re_corder.py:215 | For every code 1..3, looking up its name gives the same code back. |
| `SysEx.Payload` | js/re_corder.js:86-90 | The payload is exactly the bytes strictly between PREFIX and SUFFIX. |
| `SysEx.Frame` | js/re_corder.js:108-111 | The message sent is an envelope whose payload is `cmd ++ data`. |
| `SysEx.EnvelopeIsLongEnough` | js/re_corder.js:87-89 | A message that passes the prefix and suffix tests has at least 7 bytes, so the two cannot overlap. |
| `SysEx.EnvelopeOfAnyPayload` | python/re_corder.py:130-133 | Every `PREFIX ++ p ++ SUFFIX` is an envelope with payload p. |
| `SysEx.AlteredEnvelopeIsNotProtocol` | js/re_corder.js:63-64 | Changing any of the six prefix bytes or the final F7 makes the message non-protocol. |
| `SysEx.RouteCurrent` | js/re_corder.js:86-106 | Tag 0x01/0x02 is a response carrying the payload; 0x34 is a transport event without its tag byte; any other envelope is warned about; a non-envelope goes whole to `on_midi`. |
| `SysEx.RoutePython` | python/re_corder.py:130-141 | Tags 0x01/0x02 are queued; 0x34 yields `(payload[1], payload[2])`, and a payload too short for that raises; an empty payload raises; any other tag is unhandled; a non-envelope is passthrough. |
| `SysEx.RouteDocs` | docs/re_corder.js:86-99 | Responses are queued; a non-envelope is ignored, because there is no else branch. |
| `SysEx.RouteWeb` | web/re_corder.js:40-55 | Responses are queued; every other message, a non-envelope included, is only logged. |
| `SysEx.ResponseRoutingAgrees` | python/re_corder.py:134-135 | All four generations classify the same messages as responses, with the same payloads. |
| `SysEx.ButtonRoutingAgrees` | python/re_corder.py:136-137 | A 3-byte button payload reaches both button callbacks with the same two bytes. |
| `SysEx.CheckResponse` | python/re_corder.py:152-159 | Acceptance holds iff the status is 0x01 and `cmd` is echoed; the result is what follows the echo. A non-0x01 status is RequestFailed. The other generations apply the same check: js/re_corder.js:120-126, docs/re_corder.js:123-129, web/re_corder.js:63-69. |
| `SysEx.EchoedResponse` | js/re_corder.js:120-126 | An echoing 0x01 response returns exactly the data after the echo; a 0x02 response with the same echo fails. |
| `Codec.Split7` | js/re_corder.js:227 | `threshold >> 7` and `threshold & 0x7f` recombine to the threshold, and both are below 0x80 for a 14-bit value. |
| `Codec.Join7IsSum` | js/re_corder.js:152 | Or-ing `hi << 7` with a 7-bit lo is `128*hi + lo`. |
| `Codec.Join7OfSplit7` | python/re_corder.py:176 | Joining the two halves of a split gives the value back. |
| `Codec.SetUserMode` | python/re_corder.py:213-218 | Only the three mode names are accepted, anything else is InvalidArgument; the record `[0x05, m]` carries the code of that name. The same as js/re_corder.js:198-204. |
| `Codec.SetMidiChannel` | js/re_corder.js:206-211 | Exactly channels 1..16 are accepted and sent as `[0x03, ch]`; the rest are refused before sending. The same as python/re_corder.py:221-225. |
| `Codec.SetEasyConnect` | js/re_corder.js:213-216 | The status byte is 0 exactly when easy-connect is on (inverted on the wire). |
| `Codec.JsUserMode` | js/re_corder.js:129-131 | A name exists exactly when byte 0 is 1..3. The same as web/re_corder.js:72-74. |
| `Codec.PyUserMode` | python/re_corder.py:161-162 | The same name as JavaScript, and an error exactly where JavaScript gets `undefined`. |
| `Codec.JsMidiChannel` | js/re_corder.js:133-135 | Byte 0 of the data, `undefined` when absent. The same as web/re_corder.js:76-78. |
| `Codec.PyMidiChannel` | python/re_corder.py:164-165 | Succeeds exactly on non-empty data, with JavaScript's value. |
| `Codec.JsEasyConnect` | js/re_corder.js:137-139 | On exactly when byte 0 is 0 or missing. |
| `Codec.PyEasyConnect` | python/re_corder.py:167-168 | Succeeds exactly on non-empty data, with JavaScript's value. |
| `Codec.ScalarSettingsRoundTrip` | python/re_corder.py:213-229 | The mode, channel and easy-connect status written are read back by the getters. |
| `Codec.SetSmoothing` | python/re_corder.py:243-250 | Exactly levels 0..4 are accepted; the record is `08 02 03 m 04 s`, with m = 1 iff maintain. The same as js/re_corder.js:231-239. |
| `Codec.JsSmoothing` | js/re_corder.js:141-147 | maintain_note is true iff byte 2 is non-zero; smooth_acc is byte 4, `undefined` when absent. |
| `Codec.PySmoothing` | python/re_corder.py:170-172 | Succeeds exactly on 5 bytes, with JavaScript's values. |
| `Codec.SmoothingRoundTrip` | python/re_corder.py:243-250 | An accepted smoothing setting reads back as given. |
| `Codec.SetSensitivity` | js/re_corder.js:218-229 | Exactly threshold 601..0x3FFF and velocity 0..0x7F are accepted; the threshold goes out as two 7-bit bytes that recombine to it. The same as python/re_corder.py:231-241. |
| `Codec.JsSensitivity` | js/re_corder.js:149-155 | The threshold is `128*data[2] + data[3]` for a 7-bit low byte; the velocity is byte 5. |
| `Codec.PySensitivity` | python/re_corder.py:174-176 | Succeeds exactly on 6 bytes, with JavaScript's values. |
| `Codec.SensitivityRoundTrip` | python/re_corder.py:231-241 | An accepted threshold and velocity read back unchanged in both getters. |
| `Codec.JsBattery` | js/re_corder.js:181-184 | On 4 or more bytes with a 7-bit byte 3, the level is `128*data[2] + data[3]`. A missing byte reads as 0: on 3 bytes the level is `128*data[2]`, and on 2 or fewer it is 0. The same as docs/re_corder.js:167-170. |
| `Codec.PyBattery` | python/re_corder.py:196-198 | Succeeds exactly on 4 bytes, with JavaScript's value. |
| `Codec.BatteryLevelBound` | python/re_corder.py:196-198 | On 4 bytes, both read the same level, which is below 0x4000. |
| `Codec.PyFactoryReset` | python/re_corder.py:200-207 | Succeeds exactly when the request times out; a response fails it. |
| `Codec.JsFactoryReset` | js/re_corder.js:186-192 | Every outcome is swallowed. The same as docs/re_corder.js:172-178. |
| `Codec.FactoryResetOutcomes` | python/re_corder.py:200-207 | The generations agree exactly when the device does not answer. |
| `Notes.DigitValue` | python/re_corder_charts.py:63 | The octave digit: the model accepts exactly '0'..'9', with the digit's value, which prints back as c. |
| `Notes.Decimal` | python/re_corder_charts.py:67 | `str(n)` is non-empty, one digit for n below 10. |
| `Notes.PitchClass` | js/re_corder_utils.js:73-76 | `NOTES.indexOf(name) >> 1` is a semitone whose sharp or flat spelling is name. |
| `Notes.KnownSpellings` | python/re_corder_charts.py:32-35 | Exactly the table's spellings have a semitone. |
| `Notes.ToMidiNote` | js/re_corder_utils.js:89-96 | Accepted iff a spelling with a semitone is followed by one digit; the result is `12*octave + semitone`, below 120, and both spellings agree. The same as python/re_corder_charts.py:62-63. |
| `Notes.SharpSpellingPitchClass` | js/re_corder_utils.js:98-100 | The sharp spelling `NOTES[2k]` of semitone k names semitone k. |
| `Notes.FromMidiNoteRoundTrip` | js/re_corder_utils.js:98-100 | `to_midi_note(from_midi_note(n)) == n` for 0 ≤ n < 120. The same as python/re_corder_charts.py:66-67. |
| `Notes.ToMidiNoteAccepts` | python/re_corder_charts.py:62-63 | Accepted iff a table spelling is followed by one decimal digit. The same as js/re_corder_utils.js:89-96. |
| `Notes.FromMidiNote` | python/re_corder_charts.py:66-67 | The name starts with the sharp spelling of the semitone `n % 12`, and that spelling reads back as this semitone. The rest is the octave `n / 12` in decimal. For n < 120 the octave is exactly one last digit. The same as js/re_corder_utils.js:98-100. |
| `Notes.ToMidiNoteRespelled` | python/re_corder_charts.py:62-67 | An accepted name comes back in sharp spelling with the same number. |
| `Fingering.HoleBitsOfTable` | js/re_corder_utils.js:78-87 | The hole bits are disjoint, the partial bits lie inside the full ones, and bit 7 belongs to no hole. |
| `Fingering.StripDots` | js/re_corder_utils.js:126 | No dot remains, and the set of other characters is unchanged. |
| `Fingering.StripDotsNoDots` | js/re_corder_utils.js:126 | A string without dots is returned as it is. |
| `Fingering.StripDotsConcat` | js/re_corder_utils.js:126 | Stripping a concatenation strips each part, so every character other than a dot is kept, in order and with repeats. |
| `Fingering.StripDotsOne` | js/re_corder_utils.js:126 | A single dot is removed, and any other single character is kept. |
| `Fingering.HoleBits` | python/re_corder_charts.py:98-104 | The bits an accepted symbol sets stay within its hole. |
| `Fingering.FingeringEntry` | python/re_corder_charts.py:92-106 | Accepted iff at most 8 symbols remain after the dots are removed, each accepted at its hole (`@`/`e` only where full ≠ partial), and the note converts. The entry is `[note, f >> 8, f & 0x7f]` with bytes below 0x80, 0x10 and 0x80. |
| `Fingering.EncodeFingering` | js/re_corder_utils.js:125-145 | The loop that ors in each hole's bits computes exactly FingeringEntry, with the same errors. The same as python/re_corder_charts.py:92-106. |
| `Fingering.Symbols` | python/re_corder_charts.py:76-83 | One symbol per hole: closed, partial, the other half, or open. |
| `Fingering.DecodeMask` | js/re_corder_utils.js:102-123 | The loop yields the 8 symbols with a dot before each index finger. The same as python/re_corder_charts.py:70-85. |
| `Fingering.Dotted` | js/re_corder_utils.js:108-110 | 10 characters, with the dots at positions 1 and 5. |
| `Fingering.DecodedFingering` | python/re_corder_charts.py:84-85 | The note in sharp spelling and a 10-character dotted fingering. |
| `Fingering.SplitMaskRecombines` | js/re_corder_utils.js:103 | `e[1] << 8` or-ed with `e[2]` gives back the mask that `[f >> 8, f & 0x7f]` split. |
| `Fingering.EntryReadingsAgree` | python/re_corder_charts.py:71 | On a 3-byte entry, Python's big-endian number has the same note and mask as JavaScript's reading. |
| `Fingering.PaddedSymbols` | python/re_corder_charts.py:97 | Reading every hole of an encoded mask gives the symbols given, padded with 'o'. |
| `Fingering.FingeringRoundTrip` | js/re_corder_utils.js:102-145 | Decoding an encoded entry gives the sharp-spelled note and the fingering without dots, padded with 'o' to 8 and dotted again. |
| `FingeringChart.JsEntryCheck` | js/re_corder.js:273-277 | The check on length 3 and on the bits `b[0] & 0x80`, `b[1] & 0xf0` and `b[2] & 0x80` rejects exactly the entries that are not a 7-bit, 4-bit, 7-bit triple. |
| `FingeringChart.AndPack` | python/re_corder.py:291 | `&` of two packed triples works field by field. |
| `FingeringChart.PackUnique` | python/re_corder.py:291 | Two packed triples are equal iff their fields are. |
| `FingeringChart.PyEntryCheck` | python/re_corder.py:288-293 | `len(b) == 3 and n & 0x7f0f7f == n` accepts exactly the same entries as JavaScript's check. |
| `FingeringChart.EncodedEntryAccepted` | js/re_corder_utils.js:144 | Every entry encode_fingering produces passes both chart checks. |
| `FingeringChart.FingeringChartRequest` | js/re_corder.js:269-279 | Accepted iff there are 1..62 entries, all in range; the data is `00 00` followed by the entries, in order. |
| `FingeringChart.JsSetFingeringChart` | js/re_corder.js:269-279 | The check loop computes FingeringChartRequest. |
| `FingeringChart.PySetFingeringChart` | python/re_corder.py:284-294 | The loop appending each checked entry to a byte buffer computes FingeringChartRequest. |
| `FingeringChart.JsFingeringChart` | js/re_corder.js:170-179 | The mode of byte 0, and `floor(length/3)` entries, entry i being `data[3i+1 .. 3i+4]`. |
| `FingeringChart.Chunks` | python/re_corder.py:192-194 | The six-hex-digit chunks: their concatenation is the data, every chunk holds 1..3 bytes, and all but the last hold 3. |
| `FingeringChart.PyFingeringChart` | python/re_corder.py:189-194 | Succeeds exactly when byte 0 is a mode code; the chunks cover exactly the bytes after it. |
| `FingeringChart.ChunksOfTriples` | python/re_corder.py:192-194 | The chunks of a flattened chart of triples are the chart's entries. |
| `FingeringChart.JsChartReadBack` | js/re_corder.js:170-179 | A device that answers with the entries last written gives JavaScript back those entries. |
| `FingeringChart.PyChartReadBack` | python/re_corder.py:189-194 | The same for Python, with the mode name. |
| `Charts.KeyboardIsMode3` | js/re_corder.js:9-13 | 'Keyboard' is the name of code 3 and of no other code. |
| `Charts.EncodeAll` | js/re_corder_utils.js:160 | Every pair is encoded in order; the first pair that does not encode gives the error. |
| `Charts.JsGetFingerings` | js/re_corder_utils.js:147-153 | Refused exactly in Keyboard mode; otherwise one decoded pair per entry. |
| `Charts.JsSetFingerings` | js/re_corder_utils.js:155-162 | Refused in Keyboard mode. Otherwise it is accepted iff every pair encodes and there are 1..62 of them, and sends the encoded entries in order. |
| `Charts.JsFingeringsRoundTrip` | js/re_corder_utils.js:147-162 | Setting a chart and reading it back gives every pair back in normal form, in order. |
| `Charts.EncodeChart` | python/re_corder_charts.py:109-110 | Succeeds iff every pair encodes; the result is sorted and holds exactly the encoded entries. |
| `Charts.DecodeChart` | python/re_corder_charts.py:88-89 | One decoded pair per entry. |
| `Charts.DecodeChartOrderFree` | python/re_corder_charts.py:88-89 | The result does not depend on the order of the entries. |
| `Charts.DecodeEncoded` | python/re_corder_charts.py:70-106 | Decoding each encoded entry gives the pair's normal form. |
| `Charts.PyChartRoundTrip` | python/re_corder_charts.py:88-110 | `decode_chart(encode_chart(fs))` holds the normal form of every pair, each as often as it occurs. |
| `Charts.KeyboardBits` | python/re_corder_charts.py:49-59 | For each key, `(2 << i) >> 7` equals `KEYBOARD_ENCODING[i] >> 8`, and the low 7 bits agree. |
| `Charts.JsKeyboardEntries` | js/re_corder_utils.js:180-183 | Succeeds iff every note converts; entry i is `[note, (2<<i) >> 7, (2<<i) & 0x7f]`. |
| `Charts.PyKeyboardEntries` | python/re_corder_charts.py:123-124 | Succeeds iff every note converts; entry i is `[note, bit >> 8, bit & 0x7f]`. |
| `Charts.JsSetKeyboard` | js/re_corder_utils.js:172-185 | Anything but 9 notes is refused before the mode is read; outside Keyboard mode it is refused; otherwise it is accepted iff every note converts, and the 9 entries are sent. |
| `Charts.JsGetKeyboard` | js/re_corder_utils.js:164-170 | Refused exactly outside Keyboard mode; otherwise one note per entry. |
| `Charts.JsKeyboardRoundTrip` | js/re_corder_utils.js:164-185 | Setting a keyboard chart and reading it back gives the nine notes in sharp spelling. |
| `Charts.EncodeKeyboardChart` | python/re_corder_charts.py:120-124 | Exactly 9 notes are required, and every note must convert. |
| `Charts.KeyboardEntriesAgree` | python/re_corder_charts.py:123-124 | Both libraries compute the same entries. |
| `Charts.KeyboardEncodingsAgree` | js/re_corder_utils.js:180-184 | Both libraries put the same bytes on the wire for a keyboard chart. |
| `Charts.DecodeKeyboardChart` | python/re_corder_charts.py:113-117 | Succeeds iff the entries carry exactly 9 distinct keys, all from KEYBOARD_ENCODING; note i is the note of the last entry whose key is `KEYBOARD_ENCODING[i]`, because a later entry overwrites an earlier one with the same key. |
| `Charts.PyKeyboardRoundTrip` | python/re_corder_charts.py:113-124 | `decode_keyboard_chart(encode_keyboard_chart(notes))` succeeds and gives the notes in sharp spelling, key by key. |
| `Sorting.Insert` | python/re_corder_charts.py:110 | The result is sorted and holds the old elements plus x. |
| `Sorting.Sort` | python/re_corder_charts.py:89 | The result is sorted and a permutation of its input. |
| `Sorting.SortedUnique` | python/re_corder_charts.py:110 | Two sorted sequences with the same elements are equal. |
| `Sorting.SortOrderFree` | python/re_corder_charts.py:89 | Sorting depends only on which elements there are. |
| `Sorting.SortOfSorted` | python/re_corder_charts.py:110 | Sorting a sorted sequence changes nothing. |
| `Controllers.ControllerBytes` | js/re_corder.js:246-247 | The 27-byte layout: group byte 0x01, the aftertouch at 5, and slot i's CC at 5i+3 and curve at 5i+5. |
| `Controllers.TemplateIsUnset` | python/re_corder.py:257-258 | The template is the layout with every slot 0 and no aftertouch. |
| `Controllers.WriteSlot` | js/re_corder.js:254-255 | Writing offsets 5i+3 and 5i+5 sets slot i and leaves every other byte alone. |
| `Controllers.WriteAftertouch` | js/re_corder.js:258-261 | Writing offset 5 and zeroing offset 10 is the aftertouch override. |
| `Controllers.JsCurveCode` | js/re_corder.js:250 | A known name gives its code; an unknown or absent name is stored as 0. |
| `Controllers.JsSlotCodes` | js/re_corder.js:249-255 | A missing slot entry throws; a CC outside 0..127 throws; an absent CC is stored as 0. Otherwise the slot gets its CC and `find_key`'s curve. |
| `Controllers.PySlotCodes` | python/re_corder.py:260-270 | Accepted iff both keys are present, the CC is 0..127 and the curve is known; the codes are the CC and the curve's code. |
| `Controllers.SlotCodesAgree` | python/re_corder.py:260-270 | JavaScript writes the same codes for every slot entry Python accepts. |
| `Controllers.JsAftertouch` | js/re_corder.js:257-261 | Every known curve name overrides, 'None' included, because `find_key` returns the non-empty string '0'. |
| `Controllers.PyAftertouch` | python/re_corder.py:271-274 | Accepted iff the aftertouch is a known curve; the same code as JavaScript. |
| `Controllers.JsControllerRequest` | js/re_corder.js:245-263 | Accepted iff every slot passes JavaScript's check; the data is the 27-byte layout. |
| `Controllers.PyControllerRequest` | python/re_corder.py:256-278 | Accepted iff every slot and the aftertouch pass Python's check; the data is the 27-byte layout. |
| `Controllers.FillSlots` | python/re_corder.py:259-270 | The loop over slots 1..4 on the template array stops at the first failing slot, and otherwise leaves the array as the layout of the four slots' codes. |
| `Controllers.JsFillSlots` | js/re_corder.js:248-256 | The loop with JavaScript's per-slot check: on success the array is the layout of JavaScript's codes; on failure the request fails. |
| `Controllers.PyFillSlots` | python/re_corder.py:259-270 | The same with Python's per-slot check. |
| `Controllers.JsSetControllerConfig` | js/re_corder.js:245-263 | The in-place fill plus the aftertouch override computes JsControllerRequest. The same as docs/re_corder.js:231-249. |
| `Controllers.PySetControllerConfig` | python/re_corder.py:256-278 | The in-place fill, plus an override only for a non-zero aftertouch code, computes PyControllerRequest. |
| `Controllers.CurveOf` | js/re_corder.js:164 | `CURVES[b]` is undefined for a missing byte or a code from 22 up. |
| `Controllers.JsControllerConfig` | js/re_corder.js:157-168 | The aftertouch comes from byte 4; slot i's CC from byte 5i+2 and its curve from byte 5i+4. The same as docs/re_corder.js:154-165. |
| `Controllers.PyControllerConfig` | python/re_corder.py:178-187 | Succeeds exactly when the data is long enough and every curve code is known, and then reads JavaScript's values. |
| `Controllers.ControllerBytesReadBack` | python/re_corder.py:178-187 | Reading a written layout back gives each slot's CC and curve, with the Pressure curve reading 'None' after an override. |
| `Controllers.AcceptedSettings` | python/re_corder.py:256-278 | Python accepts exactly the well-formed settings; JavaScript accepts all of them too. |
| `Controllers.CodesOfWellFormed` | js/re_corder.js:248-256 | On well-formed settings both generations compute the same slot codes. |
| `Controllers.JsControllersRoundTrip` | js/re_corder.js:157-168 | A written configuration reads back with every CC, curve and the aftertouch; the Pressure curve reads 'None'. |
| `Controllers.PyControllersRoundTrip` | python/re_corder.py:178-187 | The same, except that an aftertouch of 'None' keeps the Pressure curve as given. |
| `Controllers.NoneIsCodeZero` | python/re_corder.py:275 | Code 0 is the only code named 'None'. |
| `Controllers.ZeroOverride` | js/re_corder.js:258-261 | Overriding with code 0 changes the layout iff the Pressure curve is not already 0. |
| `Controllers.AftertouchNoneDiverges` | python/re_corder.py:275-277 | On well-formed settings the generations send the same bytes unless the aftertouch is 'None' and the Pressure curve is not. |
| `Correlator.Completion` | js/re_corder.js:109-126 | A request succeeds iff a delivered payload passes the response check; it fails with Timeout iff it timed out. |
| `Correlator.SpliceOut` | js/re_corder.js:115 | `splice(i, 1)` removes exactly entry i and keeps the order of the others. |
| `Correlator.ResolverQueue.constructor` | js/re_corder.js:72 | Starts with no pending request and nothing sent. |
| `Correlator.ResolverQueue.Run` | js/re_corder.js:108-111 | A fresh resolver joins the back of the queue, and exactly the framed request is appended to the sent log. |
| `Correlator.ResolverQueue.Submit` | js/re_corder.js:206-211 | A request its validation refused sends and queues nothing. |
| `Correlator.ResolverQueue.HandleMidi` | js/re_corder.js:86-106 | A response settles the oldest pending request (FIFO shift), or is dropped when none is pending; every other message leaves the queue alone. |
| `Correlator.ResolverQueue.Timeout` | js/re_corder.js:112-118 | A timer fails its own request iff that request is still pending, removing only that entry and keeping the others in order. |
| `Correlator.ResponseQueue.constructor` | python/re_corder.py:125 | Starts with an empty queue and nothing sent. |
| `Correlator.ResponseQueue.Receive` | python/re_corder.py:130-141 | A response payload joins the back of the queue; nothing else changes it. |
| `Correlator.ResponseQueue.Send` | python/re_corder.py:143-147 | Every dangling response is discarded, then exactly the framed request is sent. |
| `Correlator.ResponseQueue.Await` | python/re_corder.py:148-159 | An empty queue is a timeout; otherwise the oldest payload completes the request through the response check. |
| `Correlator.Queued` | python/re_corder.py:130-135 | The payloads the framer queues, in arrival order. |
| `Correlator.PyExchange` | python/re_corder.py:143-159 | One `_run`: drain, send, receive the arrivals, and complete with the first queued response or time out. |
| `Correlator.PollingQueue.constructor` | docs/re_corder.js:69 | Starts with an empty queue, nothing sent and no poll running. |
| `Correlator.PollingQueue.Receive` | docs/re_corder.js:86-99 | A response payload joins the back of the queue. |
| `Correlator.PollingQueue.Run` | docs/re_corder.js:117-122 | Dangling payloads are shifted off, the request is sent, and a fresh poll starts. |
| `Correlator.PollingQueue.Tick` | docs/re_corder.js:101-115 | A tick resolves with the oldest payload, or rejects after more than 10 empty ticks, clearing its interval either way. |
| `Correlator.IntervalPoller.constructor` | web/re_corder.js:35 | Starts with an empty queue, nothing sent and no interval. |
| `Correlator.IntervalPoller.Receive` | web/re_corder.js:40-55 | A response payload joins the back of the queue. |
| `Correlator.IntervalPoller.Run` | web/re_corder.js:57-62 | The queue is emptied, the request is sent, and one more interval starts. |
| `Correlator.IntervalPoller.Tick` | web/re_corder.js:15-29 | Each tick shifts one item. The first item resolves and stops the interval; after more than 5 empty ticks the interval rejects but keeps running, and an item it shifts later is lost. |
| `Correlator.WebLateResponseLost` | web/re_corder.js:15-29 | After a timeout, the response to the next request is shifted by the old interval and lost, and the next request times out too. |
| `Correlator.DocsLateResponseDelivered` | docs/re_corder.js:101-115 | With the poll that clears its interval, the same events deliver the response to the second request. |
| `Config.AsConfig` | js/re_corder_utils.js:26-43 | The configuration object has one key per setting, holding the value read. The same as docs/re_corder.js:272-289. |
| `Config.Merge` | js/re_corder_utils.js:45-53 | The keys of the result are the old keys plus the update's scalar keys. |
| `Config.DeepMerged` | js/re_corder_utils.js:45-53 | On own keys, `deep_update` fails with a TypeError, as strict code throws, exactly when an object of the update reaches something that is not an object and cannot take it. That is `undefined` or `null` under a non-empty object, or a string, number or boolean under an object holding more than empty objects. |
| `Config.MergeOntoScalar` | js/re_corder_utils.js:45-53 | On own keys, an object reaching a scalar gets through on `undefined` or `null` only when empty, and on another scalar only when it holds nothing but empty objects. The scalar is then left unchanged. |
| `Config.DeepUpdate` | js/re_corder_utils.js:45-53 | The loop applying the update key by key, recursing into objects, computes DeepMerged. The same as docs/re_corder.js:291-299. |
| `Config.ApplyKey` | js/re_corder_utils.js:47-51 | One key of the update: a scalar overwrites, and an object is merged into the object already there. |
| `Config.MergeUntouched` | js/re_corder_utils.js:46 | A key the update does not mention keeps its value. |
| `Config.MergeEmpty` | js/re_corder_utils.js:45-53 | An empty update changes nothing. |
| `Config.MergeFlat` | js/re_corder_utils.js:50 | An update without objects is a key-by-key overwrite. |
| `Config.MergeIdempotent` | js/re_corder_utils.js:45-53 | Applying the same update twice is applying it once. |
| `Config.JsPlanContents` | js/re_corder_utils.js:60-69 | Mode and channel are re-sent iff the merge changed them; easy-connect, sensitivity, smoothing and controllers always are. |
| `Config.JsPlanOrdered` | js/re_corder_utils.js:60-69 | Each setter at most once, in the source's order. |
| `Config.JsPlanCarries` | js/re_corder_utils.js:60-69 | Every setter is given the merged values. |
| `Config.JsSetConfig` | js/re_corder_utils.js:55-71 | Returns the merged configuration and the setter calls of the plan, or fails iff deep_update fails. The same as docs/re_corder.js:301-317. |
| `Config.JsPlanUnchanged` | js/re_corder_utils.js:60-65 | When neither mode nor channel changed, exactly the four groups are sent. |
| `Config.JsEmptyUpdate` | js/re_corder_utils.js:55-71 | An empty update re-sends the four groups as read, and nothing else. |
| `Config.PyUpdatedConfig` | python/re_configure.py:83-89 | Every key of the update takes its new value and the others keep theirs. Controllers are merged one level deep: a controller in the update replaces the old entry whole, and the others are kept. The update's controllers may be a dictionary or an empty string, which `dict.update` takes as an empty iterable; any other value raises, as do settings controllers that are not a dictionary. When the merged controllers are empty, the key keeps the value `config.update` gave it. |
| `Config.PyPlanContents` | python/re_configure.py:102-126 | A setter is called iff the update names one of its keys; the chart is set iff one is given. |
| `Config.PyPlanOrdered` | python/re_configure.py:102-126 | Each setter at most once, in the source's order. |
| `Config.PyPlanCarries` | python/re_configure.py:102-126 | Every setter gets the merged values. The chart is encoded as a keyboard chart exactly when the merged mode is Keyboard. |
| `Config.PyUpdateSettings` | python/re_configure.py:92-128 | Returns the merged configuration and the setter calls of the plan, or fails iff updated_config fails. |
| `Config.PyPlanEmpty` | python/re_configure.py:102-126 | An update naming no setting calls no setter except the chart's. |
| `Config.PyEmptyUpdate` | python/re_configure.py:92-128 | An empty update returns the configuration as read and calls no setter except the chart's. |

## Left out

- MIDI I/O: ports, their discovery and opening (`create_re_corder`, `get_ports`,
  `open_re_corder_ports`), `close`, `toString`, and the Web MIDI and rtmidi objects.
  A sent message is appended to a `sent` log, and an arrival is a method call.
- Wall-clock time. `setTimeout`, `setInterval` and `queue.get(timeout=0.25)` become
  explicit `Timeout`/`Tick`/`Await` events. The 250 ms and 25/50 ms periods are not
  modelled; only the tick bounds are (10 in docs, 5 in web).
- Logging, `console.*`, `print`, and the `Re_corderReceiver` printing callbacks.
- Hex-string plumbing (`from_hex`, `to_hex`, `bytes.fromhex`, `.hex()`). Chart entries
  are byte sequences, and sorting fixed-width lowercase hex is modelled as sorting
  their bytes.
- JSON text (`JSON.stringify`/`JSON.parse` in docs/re_corder.js), the CLI and file I/O
  of python/re_configure.py, including the command-line override of settings-file
  values. Configuration values are a small JSON-like datatype with integer numbers.
- The user interface files and python/sysex_shark.py, which are not part of this model.
- `restore_default_settings`: it sends the request `RESTORE_DEFAULTS` (0x2f, no
  data) and ignores the result. Only the constant is modelled; its response goes
  through the generic check.
- `set_fingering_chart` in docs/re_corder.js:255-269 is not modelled. It builds
  an `UInt8Array` and reads an undefined `f`, so it throws before any entry is checked.
- Notes.DigitValue: only the ASCII digits are octaves in the model. Python's
  `int(c, 10)` also accepts every other Unicode decimal digit ('٣', '３'), and
  JavaScript's unary `+` reads a whitespace character as 0.
- Notes.ToMidiNote: the model rejects every octave character other than '0'..'9'.
  In JavaScript, `+note.substring(...)` reads a whitespace octave as 0, so
  `to_midi_note("C ")` is 0 and `to_midi_note("A\t")` is 9. Any other non-digit
  octave becomes NaN, which passes the 0..10 range check, so the result is NaN.
  In Python, `int(note[-1], 10)` accepts any Unicode decimal digit, so
  `to_midi_note("C٣")` is 36. The model only accepts names with an ASCII digit
  octave, where both libraries agree.
- Codec.SetUserMode: JavaScript's `find_key` yields the key as a string ('1'), which
  the model treats as the number it spells.
- Codec.SetMidiChannel, Codec.SetSensitivity, Codec.SetSmoothing: the arguments are
  integers. Python's `int(...)` conversions of strings and JavaScript comparisons on
  non-numbers are not modelled.
- Controllers.JsSlotCodes: a CC number is an integer or absent. JavaScript's
  coercion of other values when stored into the `Uint8Array` is not modelled.
- Charts.PyDecoded: entries outside 1..3 bytes never reach `decode_chart` from
  `get_fingering_chart`. The model maps them to an empty pair instead of raising.
- Config.PyUpdateSettings and Config.JsSetConfig: these state which setters are
  called and with which values. They do not model a setter's own failure part way
  through the sequence, or an encoding failure of the chart.
- Config.DeepMerged, Config.PyUpdatedConfig: configuration values have no arrays.
  `deep_update` into an array, and `dict.update` with a list of key-value pairs,
  are not modelled.
- Config.DeepMerged, Config.MergeOntoScalar: a key of the update that is not an own
  key of the settings reads as `undefined`. JavaScript's `obj1[key]` also finds
  inherited properties, and the model does not capture them. These are a string's
  `length` and index properties, the methods of numbers and booleans (`toFixed`), and
  `constructor`, which reaches the `Object` function on any object. A `__proto__` key
  from `JSON.parse` merges into `Object.prototype`. In the source, updates such as
  `{constructor: {x: 1}}` or `{midi_channel: {toFixed: {x: 1}}}` therefore succeed by
  writing into those objects. The model rejects them.
- Config.PyUpdatedConfig: as in the source, it mutates the dictionary it reads.
  The model returns the new dictionary, so aliasing of the caller's dictionary is
  not captured.
- Getter failures such as a request that fails part way through
  `get_re_corder_config` or `update_settings` are not modelled; the configuration
  read is an input.

## Findings

| source | as written | input that shows it | evidently intended | confidence | as-written member | corrected member |
|---|---|---|---|---|---|---|
| web/re_corder.js:24-26 | On timeout `poll_queue` rejects but never calls `clearInterval`, so the interval keeps shifting the shared queue. | A request with no answer, then a second request whose answer arrives before the second poll's first tick: the old interval shifts and loses it, and the second request times out. | Clear the interval on timeout, as docs/re_corder.js:109-111 does, so a later response reaches the request it answers. | not executed | `Correlator.WebLateResponseLost` | `Correlator.DocsLateResponseDelivered` |
