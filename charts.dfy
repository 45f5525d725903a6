/**
 * Whole charts: fingering charts as lists of (note, fingering) pairs and
 * keyboard charts as nine notes, in the JavaScript utilities (mode-gated
 * get/set through the device) and in the Python chart helpers
 * (`encode_chart`, `decode_chart`, `encode_keyboard_chart`,
 * `decode_keyboard_chart`).
 */
module Charts {
  import opened Common
  import opened Tables
  import opened SysEx
  import opened Bits
  import opened Notes
  import opened Fingering
  import opened FingeringChart
  import opened Sorting
  import opened Codec

  /** A note name and a fingering string, as a chart file lists them. */
  type Pair = (string, string)

  /** The first byte of an entry; entries read from the device always have one. */
  function Head(e: seq<Byte>): Byte
  {
    if |e| > 0 then e[0] else 0
  }

  lemma KeyboardIsMode3()
    ensures ModeName(3) == Some(KEYBOARD)
    ensures forall m :: ModeName(m) == Some(KEYBOARD) ==> m == 3
  {
  }

  // ---- fingering charts ------------------------------------------------------

  /** `encode_fingering` of one pair of a chart. */
  function EncodePair(p: Pair): (r: Result<seq<Byte>>)
  {
    FingeringEntry(p.0, p.1)
  }

  predicate AllEncode(fs: seq<Pair>)
  {
    forall i :: 0 <= i < |fs| ==> EncodePair(fs[i]).Ok?
  }

  /** Every pair encoded in order; the first pair that does not encode gives the error. */
  function EncodeAll(fs: seq<Pair>): (r: Result<seq<seq<Byte>>>)
    ensures r.Ok? <==> AllEncode(fs)
    ensures r.Ok? ==> |r.value| == |fs|
    ensures r.Ok? ==> forall i :: 0 <= i < |fs| ==> r.value[i] == FingeringEntry(fs[i].0, fs[i].1).value
    ensures r.Err? ==> r.error == InvalidNote || r.error == InvalidFingering
  {
    Traverse(EncodePair, fs)
  }

  /** Encoded entries are triples the chart check accepts. */
  lemma EncodedChartInRange(fs: seq<Pair>)
    requires AllEncode(fs)
    ensures AllInRange(EncodeAll(fs).value) && AllTriples(EncodeAll(fs).value)
  {
  }

  /**
   * What encoding and decoding make of a pair: the note in its sharp
   * spelling, the fingering without dots, padded with open holes and dotted
   * again.
   */
  function Normalised(p: Pair): (r: Pair)
    requires FingeringEntry(p.0, p.1).Ok?
    ensures |r.1| == 10
  {
    (FromMidiNote(ToMidiNote(p.0).value), Dotted(Padded(StripDots(p.1))))
  }

  /** `get_re_corder_fingerings`: refused in keyboard mode, otherwise every entry decoded. */
  function JsGetFingerings(mode: Option<string>, chart: seq<seq<Byte>>): (r: Result<seq<Pair>>)
    ensures r.Ok? <==> mode != Some(KEYBOARD)
    ensures r.Err? ==> r.error == WrongMode
    ensures r.Ok? ==> |r.value| == |chart|
  {
    if mode == Some(KEYBOARD) then Err(WrongMode)
    else Ok(seq(|chart|, i requires 0 <= i < |chart| => DecodedFingering(Head(chart[i]), JsMask(chart[i]))))
  }

  /**
   * `set_re_corder_fingerings`: refused in keyboard mode, otherwise every
   * pair encoded and the entries sent as one chart. The chart check never
   * refuses an encoded entry.
   */
  function JsSetFingerings(mode: Option<string>, fs: seq<Pair>): (r: Result<Request>)
    ensures mode == Some(KEYBOARD) ==> r == Err(WrongMode)
    ensures r.Ok? <==> mode != Some(KEYBOARD) && AllEncode(fs) && 1 <= |fs| <= 62
    ensures r.Err? ==> r.error != InvalidFingering || !AllEncode(fs)
    ensures r.Ok? ==> r.value == Request(SET_CONFIG, [0, 0] + Flatten(EncodeAll(fs).value))
  {
    if mode == Some(KEYBOARD) then Err(WrongMode)
    else
      match EncodeAll(fs)
      case Err(e) => Err(e)
      case Ok(chart) =>
        EncodedChartInRange(fs);
        FingeringChartRequest(chart)
  }

  /**
   * Setting a fingering chart and reading it back (the device answers with
   * the same mode code and the entries written) gives every pair back in
   * normal form, in order.
   */
  lemma JsFingeringsRoundTrip(m: Byte, fs: seq<Pair>)
    requires JsSetFingerings(ModeName(m), fs).Ok?
    ensures var req := JsSetFingerings(ModeName(m), fs).value;
            var read := JsFingeringChart([m] + req.data[2..]);
            var r := JsGetFingerings(read.0, read.1);
            r.Ok? && |r.value| == |fs| && forall i :: 0 <= i < |fs| ==> r.value[i] == Normalised(fs[i])
  {
    var chart := EncodeAll(fs).value;
    var req := JsSetFingerings(ModeName(m), fs).value;
    EncodedChartInRange(fs);
    assert req.data[2..] == Flatten(chart);
    JsChartReadBack(m, chart);
    KeyboardIsMode3();
    var r := JsGetFingerings(ModeName(m), chart);
    forall i | 0 <= i < |fs|
      ensures r.value[i] == Normalised(fs[i])
    {
      FingeringRoundTrip(fs[i].0, fs[i].1);
    }
  }

  // ---- Python fingering charts ----------------------------------------------

  /** `encode_chart`: every pair encoded, then sorted. */
  function EncodeChart(fs: seq<Pair>): (r: Result<seq<seq<Byte>>>)
    ensures r.Ok? <==> AllEncode(fs)
    ensures r.Ok? ==> Sorted(r.value) && multiset(r.value) == multiset(EncodeAll(fs).value)
    ensures r.Err? ==> r.error == EncodeAll(fs).error
  {
    match EncodeAll(fs)
    case Err(e) => Err(e)
    case Ok(chart) => Ok(Sort(chart))
  }

  /** Entries as `get_fingering_chart` hands them over: one to three bytes each. */
  predicate AllChunks(chart: seq<seq<Byte>>)
  {
    forall i :: 0 <= i < |chart| ==> 1 <= |chart[i]| <= 3
  }

  lemma SortKeepsChunks(chart: seq<seq<Byte>>)
    requires AllChunks(chart)
    ensures AllChunks(Sort(chart))
  {
    var s := Sort(chart);
    forall i | 0 <= i < |s|
      ensures 1 <= |s[i]| <= 3
    {
      assert s[i] in multiset(s);
      var j :| 0 <= j < |chart| && chart[j] == s[i];
    }
  }

  /**
   * `decode_fingering` of one entry, read as a big-endian number. Entries
   * handed over by `get_fingering_chart` hold one to three bytes; no other
   * entry reaches it, and the empty pair stands for them.
   */
  function PyDecoded(e: seq<Byte>): Pair
  {
    if 1 <= |e| <= 3 then DecodedFingering(PyNote(e), PyMask(e)) else ("", "")
  }

  /** `decode_chart`: the entries sorted, then decoded. */
  function DecodeChart(chart: seq<seq<Byte>>): (r: seq<Pair>)
    requires AllChunks(chart)
    ensures |r| == |chart|
  {
    Map(PyDecoded, Sort(chart))
  }

  /** decode_chart does not depend on the order of the entries it is given. */
  lemma DecodeChartOrderFree(a: seq<seq<Byte>>, b: seq<seq<Byte>>)
    requires AllChunks(a) && AllChunks(b) && multiset(a) == multiset(b)
    ensures DecodeChart(a) == DecodeChart(b)
  {
    SortOrderFree(a, b);
  }

  function NormalisedAll(fs: seq<Pair>): (r: seq<Pair>)
    requires AllEncode(fs)
    ensures |r| == |fs|
    ensures forall i :: 0 <= i < |fs| ==> r[i] == Normalised(fs[i])
  {
    seq(|fs|, i requires 0 <= i < |fs| => Normalised(fs[i]))
  }

  /** Decoding the encoded pairs entry by entry gives their normal forms, in order. */
  lemma DecodeEncoded(fs: seq<Pair>)
    requires AllEncode(fs)
    ensures Map(PyDecoded, EncodeAll(fs).value) == NormalisedAll(fs)
  {
    var chart := EncodeAll(fs).value;
    MapAt(PyDecoded, chart);
    forall i | 0 <= i < |fs|
      ensures PyDecoded(chart[i]) == Normalised(fs[i])
    {
      FingeringRoundTrip(fs[i].0, fs[i].1);
      EntryReadingsAgree(chart[i]);
    }
  }

  /**
   * decode_chart(encode_chart(fs)) holds the normal form of every pair of
   * fs, each as often as it occurs.
   */
  lemma PyChartRoundTrip(fs: seq<Pair>)
    requires AllEncode(fs)
    ensures AllChunks(EncodeChart(fs).value)
    ensures multiset(DecodeChart(EncodeChart(fs).value)) == multiset(NormalisedAll(fs))
  {
    var chart := EncodeAll(fs).value;
    var sorted := Sort(chart);
    EncodedChartInRange(fs);
    SortKeepsChunks(chart);
    SortOfSorted(sorted);
    MapPermutation(PyDecoded, sorted, chart);
    DecodeEncoded(fs);
  }

  // ---- keyboard charts -------------------------------------------------------

  /** KEYBOARD_ENCODING: the mask bit of keyboard key i, left to right. */
  const KEYBOARD_ENCODING: seq<nat> := [0x002, 0x004, 0x008, 0x010, 0x020, 0x040, 0x100, 0x200, 0x400]

  /** Bits 1..6, then 8..10. */
  function KeyPosition(i: nat): nat
  {
    if i < 6 then i + 1 else i + 2
  }

  lemma KeyboardTable(i: nat)
    requires i < 9
    ensures KEYBOARD_ENCODING[i] == Shl(1, KeyPosition(i))
  {
    if i == 0 {
      assert Shl(1, 1) == 2;
    } else if i == 1 {
      assert Shl(1, 2) == 4;
    } else if i == 2 {
      assert Shl(1, 3) == 8;
    } else if i == 3 {
      assert Shl(1, 4) == 0x10;
    } else if i == 4 {
      assert Shl(1, 5) == 0x20;
    } else if i == 5 {
      assert Shl(1, 6) == 0x40;
    } else if i == 6 {
      assert Shl(1, 8) == 0x100;
    } else if i == 7 {
      assert Shl(1, 9) == 0x200;
    } else {
      assert Shl(1, 10) == 0x400;
    }
  }

  /** Keys 0..5: `2 << i` is below 0x80, and so is KEYBOARD_ENCODING[i], the same number. */
  lemma LowKeyBits(i: nat)
    requires i < 6
    ensures Shr(Shl(2, i), 7) == Shr(KEYBOARD_ENCODING[i], 8) == 0
    ensures BitAnd(Shl(2, i), 0x7f) == BitAnd(KEYBOARD_ENCODING[i], 0x7f) == KEYBOARD_ENCODING[i] < 0x80
  {
    var key := KEYBOARD_ENCODING[i];
    KeyboardTable(i);
    SmallPowers();
    assert Ones(7) == 0x7f;
    assert Shl(1, 1) == 2;
    ShlAdd(1, 1, i);
    ShlIsProduct(1, i + 1);
    Pow2Mono(i + 1, 6);
    AndLowMask(key, 7);
    SplitParts(key, 7, 0, key);
    SplitParts(key, 8, 0, key);
  }

  /** Keys 6..8: `2 << i` is h << 7 for h = 1 << (i - 6). */
  lemma HighKeyBit(i: nat)
    requires 6 <= i < 9
    ensures Shr(Shl(2, i), 7) == Shl(1, i - 6) && BitAnd(Shl(2, i), 0x7f) == 0
  {
    assert Shl(1, 1) == 2 && Ones(7) == 0x7f;
    ShlAdd(1, 1, i);
    ShlAdd(1, i - 6, 7);
    ShiftedUp(Shl(1, i - 6), 7, 7);
  }

  /** Keys 6..8: KEYBOARD_ENCODING[i] is h << 8, that is 256 * h, for the same h. */
  lemma HighKeyCode(i: nat)
    requires 6 <= i < 9
    ensures Shr(KEYBOARD_ENCODING[i], 8) == Shl(1, i - 6) < 0x10
    ensures BitAnd(KEYBOARD_ENCODING[i], 0x7f) == 0
    ensures KEYBOARD_ENCODING[i] == 256 * Shr(KEYBOARD_ENCODING[i], 8)
  {
    var h := Shl(1, i - 6);
    KeyboardTable(i);
    assert Ones(7) == 0x7f && Pow2(8) == 256;
    ShlAdd(1, i - 6, 8);
    ShiftedUp(h, 8, 7);
    ShlIsProduct(1, i - 6);
    Pow2Mono(i - 6, 2);
    ShlIsProduct(h, 8);
  }

  lemma HighKeyBits(i: nat)
    requires 6 <= i < 9
    ensures Shr(Shl(2, i), 7) == Shr(KEYBOARD_ENCODING[i], 8) < 0x10
    ensures BitAnd(Shl(2, i), 0x7f) == BitAnd(KEYBOARD_ENCODING[i], 0x7f) == 0
    ensures KEYBOARD_ENCODING[i] == 256 * Shr(KEYBOARD_ENCODING[i], 8)
  {
    HighKeyBit(i);
    HighKeyCode(i);
  }

  /**
   * JavaScript's `[bit >> 7, bit & 0x7f]` of `bit = 2 << i` and Python's
   * `[bit >> 8, bit & 0x7f]` of `bit = KEYBOARD_ENCODING[i]` are the same two
   * bytes, which spell KEYBOARD_ENCODING[i] again.
   */
  lemma KeyboardBits(i: nat)
    requires i < 9
    ensures Shr(Shl(2, i), 7) == Shr(KEYBOARD_ENCODING[i], 8) < 0x10
    ensures BitAnd(Shl(2, i), 0x7f) == BitAnd(KEYBOARD_ENCODING[i], 0x7f) < 0x80
    ensures KEYBOARD_ENCODING[i] == 256 * Shr(KEYBOARD_ENCODING[i], 8) + BitAnd(KEYBOARD_ENCODING[i], 0x7f)
  {
    if i < 6 {
      LowKeyBits(i);
    } else {
      HighKeyBits(i);
    }
  }

  /** JavaScript's entry for key i: `[to_midi_note(note), bit >> 7, bit & 0x7f]` with `bit = 2 << i`. */
  function JsKeyEntry(note: nat, i: nat): (e: seq<Byte>)
    requires note < 0x80 && i < 9
    ensures EntryInRange(e)
  {
    KeyboardBits(i);
    [note, Shr(Shl(2, i), 7), BitAnd(Shl(2, i), 0x7f)]
  }

  /** Python's entry for key i: `[to_midi_note(note), bit >> 8, bit & 0x7f]` with `bit = KEYBOARD_ENCODING[i]`. */
  function PyKeyEntry(note: nat, i: nat): (e: seq<Byte>)
    requires note < 0x80 && i < 9
    ensures EntryInRange(e)
  {
    KeyboardBits(i);
    [note, Shr(KEYBOARD_ENCODING[i], 8), BitAnd(KEYBOARD_ENCODING[i], 0x7f)]
  }

  predicate NotesValid(notes: seq<string>, k: nat)
    requires k <= |notes|
  {
    forall j :: 0 <= j < k ==> ToMidiNote(notes[j]).Ok?
  }

  /** The entries of the first k keys, JavaScript's way; the first bad note gives the error. */
  function JsKeyboardEntries(notes: seq<string>, k: nat): (r: Result<seq<seq<Byte>>>)
    requires k <= |notes| <= 9
    ensures r.Ok? <==> NotesValid(notes, k)
    ensures r.Err? ==> r.error == InvalidNote
    ensures r.Ok? ==> |r.value| == k
    ensures r.Ok? ==> forall j :: 0 <= j < k ==> r.value[j] == JsKeyEntry(ToMidiNote(notes[j]).value, j)
  {
    if k == 0 then Ok([])
    else
      match JsKeyboardEntries(notes, k - 1)
      case Err(e) => Err(e)
      case Ok(prev) =>
        match ToMidiNote(notes[k - 1])
        case Err(e) => Err(e)
        case Ok(n) =>
          var e := JsKeyEntry(n, k - 1);
          SnocAt(prev, e);
          Ok(prev + [e])
  }

  /** The same, Python's way. */
  function PyKeyboardEntries(notes: seq<string>, k: nat): (r: Result<seq<seq<Byte>>>)
    requires k <= |notes| <= 9
    ensures r.Ok? <==> NotesValid(notes, k)
    ensures r.Err? ==> r.error == InvalidNote
    ensures r.Ok? ==> |r.value| == k
    ensures r.Ok? ==> forall j :: 0 <= j < k ==> r.value[j] == PyKeyEntry(ToMidiNote(notes[j]).value, j)
  {
    if k == 0 then Ok([])
    else
      match PyKeyboardEntries(notes, k - 1)
      case Err(e) => Err(e)
      case Ok(prev) =>
        match ToMidiNote(notes[k - 1])
        case Err(e) => Err(e)
        case Ok(n) =>
          var e := PyKeyEntry(n, k - 1);
          SnocAt(prev, e);
          Ok(prev + [e])
  }

  lemma AllInRangeTriples(chart: seq<seq<Byte>>)
    requires forall j :: 0 <= j < |chart| ==> EntryInRange(chart[j])
    ensures AllInRange(chart) && AllTriples(chart)
  {
  }

  /**
   * `set_re_corder_keyboard`: exactly nine notes, checked before the mode is
   * read; then keyboard mode; then every note encoded and sent as one chart.
   */
  function JsSetKeyboard(notes: seq<string>, mode: Option<string>): (r: Result<Request>)
    ensures |notes| != 9 ==> r == Err(InvalidArgument)
    ensures |notes| == 9 && mode != Some(KEYBOARD) ==> r == Err(WrongMode)
    ensures r.Ok? <==> |notes| == 9 && mode == Some(KEYBOARD) && NotesValid(notes, 9)
    ensures r.Ok? ==> r.value == Request(SET_CONFIG, [0, 0] + Flatten(JsKeyboardEntries(notes, 9).value))
  {
    if |notes| != 9 then Err(InvalidArgument)
    else if mode != Some(KEYBOARD) then Err(WrongMode)
    else
      match JsKeyboardEntries(notes, 9)
      case Err(e) => Err(e)
      case Ok(chart) =>
        AllInRangeTriples(chart);
        FingeringChartRequest(chart)
  }

  /** `get_re_corder_keyboard`: refused outside keyboard mode, otherwise the note of every entry. */
  function JsGetKeyboard(mode: Option<string>, chart: seq<seq<Byte>>): (r: Result<seq<string>>)
    ensures r.Ok? <==> mode == Some(KEYBOARD)
    ensures r.Err? ==> r.error == WrongMode
    ensures r.Ok? ==> |r.value| == |chart|
  {
    if mode != Some(KEYBOARD) then Err(WrongMode)
    else Ok(seq(|chart|, i requires 0 <= i < |chart| => FromMidiNote(Head(chart[i]))))
  }

  /** Setting a keyboard chart and reading it back gives the nine notes in sharp spelling. */
  lemma JsKeyboardRoundTrip(notes: seq<string>)
    requires JsSetKeyboard(notes, Some(KEYBOARD)).Ok?
    ensures var req := JsSetKeyboard(notes, Some(KEYBOARD)).value;
            var read := JsFingeringChart([3] + req.data[2..]);
            var r := JsGetKeyboard(read.0, read.1);
            r.Ok? && |r.value| == 9 &&
            forall i :: 0 <= i < 9 ==> r.value[i] == FromMidiNote(ToMidiNote(notes[i]).value)
  {
    var chart := JsKeyboardEntries(notes, 9).value;
    var req := JsSetKeyboard(notes, Some(KEYBOARD)).value;
    AllInRangeTriples(chart);
    assert req.data[2..] == Flatten(chart);
    JsChartReadBack(3, chart);
    KeyboardIsMode3();
  }

  /** `encode_keyboard_chart`: exactly nine notes, each encoded with its key's bit. */
  function EncodeKeyboardChart(notes: seq<string>): (r: Result<seq<seq<Byte>>>)
    ensures r.Ok? <==> |notes| == 9 && NotesValid(notes, 9)
    ensures |notes| != 9 ==> r == Err(InvalidArgument)
    ensures r.Ok? ==> r.value == PyKeyboardEntries(notes, 9).value
  {
    if |notes| != 9 then Err(InvalidArgument) else PyKeyboardEntries(notes, 9)
  }

  /** Both libraries put the same bytes on the wire for a keyboard chart. */
  lemma {:induction false} KeyboardEntriesAgree(notes: seq<string>, k: nat)
    requires k <= |notes| <= 9
    ensures JsKeyboardEntries(notes, k) == PyKeyboardEntries(notes, k)
  {
    if k > 0 {
      KeyboardEntriesAgree(notes, k - 1);
      if ToMidiNote(notes[k - 1]).Ok? {
        KeyboardBits(k - 1);
      }
    }
  }

  lemma KeyboardEncodingsAgree(notes: seq<string>)
    requires |notes| == 9
    ensures EncodeKeyboardChart(notes).Ok? ==>
              JsSetKeyboard(notes, Some(KEYBOARD)) == Ok(Request(SET_CONFIG, [0, 0] + Flatten(EncodeKeyboardChart(notes).value)))
  {
    KeyboardEntriesAgree(notes, 9);
  }

  /** Entries `decode_keyboard_chart` can read: a note byte and at least one mask byte. */
  predicate AllKeyed(chart: seq<seq<Byte>>)
  {
    forall i :: 0 <= i < |chart| ==> |chart[i]| >= 2
  }

  /** `int(s[2:], 16)`: the bytes after the note as one number. */
  function KeyOf(e: seq<Byte>): nat
    requires |e| >= 2
  {
    BigEndian(e[1..])
  }

  /** The key of every entry, in order. */
  function KeysOf(chart: seq<seq<Byte>>): (r: seq<nat>)
    requires AllKeyed(chart)
    ensures |r| == |chart|
  {
    seq(|chart|, i requires 0 <= i < |chart| => KeyOf(chart[i]))
  }

  /** `from_midi_note` of every entry's note byte, in order. */
  function NotesOf(chart: seq<seq<Byte>>): (r: seq<string>)
    requires AllKeyed(chart)
    ensures |r| == |chart|
  {
    seq(|chart|, i requires 0 <= i < |chart| => FromMidiNote(chart[i][0]))
  }

  /** The dictionary comprehension: each entry's key maps to its note, a later entry winning. */
  function KeyboardMap(chart: seq<seq<Byte>>): map<nat, string>
    requires AllKeyed(chart)
  {
    LastWins(KeysOf(chart), NotesOf(chart))
  }

  /**
   * `decode_keyboard_chart`: entries too short to read, a number of distinct
   * keys other than nine, or a key of KEYBOARD_ENCODING without an entry
   * raise; otherwise the notes in KEYBOARD_ENCODING order.
   */
  function DecodeKeyboardChart(chart: seq<seq<Byte>>): (r: Result<seq<string>>)
    ensures r.Ok? <==> AllKeyed(chart) && |KeyboardMap(chart)| == 9 &&
                       forall i :: 0 <= i < 9 ==> KEYBOARD_ENCODING[i] in KeyboardMap(chart)
    ensures r.Err? ==> r.error == MalformedResponse
    ensures r.Ok? ==> AllKeyed(chart) && |r.value| == 9
    ensures r.Ok? ==> forall i :: 0 <= i < 9 ==> NoteOfLastEntry(chart, KEYBOARD_ENCODING[i], r.value[i])
  {
    if !AllKeyed(chart) then Err(MalformedResponse)
    else
      var d := KeyboardMap(chart);
      if |d| != 9 then Err(MalformedResponse)
      else if exists i :: 0 <= i < 9 && KEYBOARD_ENCODING[i] !in d then Err(MalformedResponse)
      else
        var notes := seq(9, i requires 0 <= i < 9 => d[KEYBOARD_ENCODING[i]]);
        assert forall i :: 0 <= i < 9 ==> NoteOfLastEntry(chart, KEYBOARD_ENCODING[i], notes[i]) by {
          forall i | 0 <= i < 9
            ensures NoteOfLastEntry(chart, KEYBOARD_ENCODING[i], notes[i])
          {
            KeyboardMapEntry(chart, KEYBOARD_ENCODING[i]);
          }
        }
        Ok(notes)
  }

  /**
   * The note is the one of the last entry whose key is k: the dictionary
   * comprehension lets a later entry overwrite an earlier one.
   */
  predicate NoteOfLastEntry(chart: seq<seq<Byte>>, k: nat, note: string)
    requires AllKeyed(chart)
  {
    exists j :: 0 <= j < |chart| && KeyOf(chart[j]) == k && note == FromMidiNote(chart[j][0]) &&
                forall j' :: j < j' < |chart| ==> KeyOf(chart[j']) != k
  }

  lemma KeyboardMapEntry(chart: seq<seq<Byte>>, k: nat)
    requires AllKeyed(chart) && k in KeyboardMap(chart)
    ensures NoteOfLastEntry(chart, k, KeyboardMap(chart)[k])
  {
    var keys, notes := KeysOf(chart), NotesOf(chart);
    LastWinsKeys(keys, notes);
    var j :| LastWithKey(keys, j) && keys[j] == k && LastWins(keys, notes)[k] == notes[j];
    assert forall j' :: j < j' < |chart| ==> KeyOf(chart[j']) != k by {
      forall j' | j < j' < |chart|
        ensures KeyOf(chart[j']) != k
      {
        assert keys[j'] != keys[j];
      }
    }
  }

  lemma BigEndianPair(hi: Byte, lo: Byte)
    ensures BigEndian([hi, lo]) == 256 * hi + lo
  {
    assert [hi, lo][..1] == [hi] && [hi][..0] == [];
    assert BigEndian([hi]) == hi;
  }

  lemma KeyOfEntry(note: nat, i: nat)
    requires note < 0x80 && i < 9
    ensures KeyOf(PyKeyEntry(note, i)) == KEYBOARD_ENCODING[i]
  {
    KeyboardBits(i);
    var hi, lo := Shr(KEYBOARD_ENCODING[i], 8), BitAnd(KEYBOARD_ENCODING[i], 0x7f);
    assert PyKeyEntry(note, i)[1..] == [hi, lo];
    BigEndianPair(hi, lo);
  }

  lemma KeyboardEncodingDistinct()
    ensures Distinct(KEYBOARD_ENCODING)
  {
  }

  /** The keys of the nine encoded entries are KEYBOARD_ENCODING itself. */
  lemma EncodedKeys(notes: seq<string>)
    requires |notes| == 9 && NotesValid(notes, 9)
    ensures AllKeyed(PyKeyboardEntries(notes, 9).value)
    ensures KeysOf(PyKeyboardEntries(notes, 9).value) == KEYBOARD_ENCODING
  {
    var chart := PyKeyboardEntries(notes, 9).value;
    forall j | 0 <= j < 9
      ensures KeyOf(chart[j]) == KEYBOARD_ENCODING[j]
    {
      KeyOfEntry(ToMidiNote(notes[j]).value, j);
    }
  }

  /** decode_keyboard_chart(encode_keyboard_chart(notes)) is the notes in sharp spelling, key by key. */
  lemma PyKeyboardRoundTrip(notes: seq<string>)
    requires EncodeKeyboardChart(notes).Ok?
    ensures var r := DecodeKeyboardChart(EncodeKeyboardChart(notes).value);
            r.Ok? && forall i :: 0 <= i < 9 ==> r.value[i] == FromMidiNote(ToMidiNote(notes[i]).value)
  {
    var chart := EncodeKeyboardChart(notes).value;
    EncodedKeys(notes);
    KeyboardEncodingDistinct();
    LastWinsSize(KeysOf(chart), NotesOf(chart));
    forall i | 0 <= i < 9
      ensures KEYBOARD_ENCODING[i] in KeyboardMap(chart)
      ensures KeyboardMap(chart)[KEYBOARD_ENCODING[i]] == FromMidiNote(ToMidiNote(notes[i]).value)
    {
      LastWinsAt(KeysOf(chart), NotesOf(chart), i);
    }
  }
}
