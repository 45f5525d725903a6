/**
 * The fingering codec: converts between a fingering string over `o * @ e`
 * (open, closed, partially closed, the other half; `.` is decoration) and the
 * tone-hole mask the device stores, packed with the MIDI note into a 3-byte
 * chart entry [note, mask >> 8, mask & 0x7f].
 *
 * A mask is modelled as the set of the positions of its 1-bits: `a & b` is
 * `a * b`, `a | b` is `a + b`, `a ^ b` is the symmetric difference, and the
 * number a mask stands for is `Value(mask, 0, 16)`.
 */
module Fingering {
  import opened Common
  import opened Notes
  import opened Bits

  const HOLES: nat := 8

  type Mask = set<nat>

  /** RECORDER_ENCODING, left thumb to right pinkie: the bits of a fully closed hole ... */
  function Full(k: nat): Mask
    requires k < HOLES
  {
    match k
    case 0 => {0, 1} case 1 => {2} case 2 => {3} case 3 => {4}
    case 4 => {5} case 5 => {6} case 6 => {8, 9} case _ => {10, 11}
  }

  /** ... and of a partially closed one (the same bits where a hole has no half state). */
  function Partial(k: nat): Mask
    requires k < HOLES
  {
    match k
    case 0 => {1} case 1 => {2} case 2 => {3} case 3 => {4}
    case 4 => {5} case 5 => {6} case 6 => {8} case _ => {10}
  }

  /** The hole bit i belongs to; -1 for bit 7 and bits from 12 up, which no hole uses. */
  function HoleOfBit(i: nat): int
  {
    if i <= 1 then 0
    else if i <= 6 then i - 1
    else if i == 7 then -1
    else if i <= 9 then 6
    else if i <= 11 then 7
    else -1
  }

  /** The table's shape: every bit belongs to at most one hole, and partial bits lie inside full ones. */
  lemma HoleBitsOfTable(k: nat, i: nat)
    requires k < HOLES
    ensures i in Full(k) <==> HoleOfBit(i) == k
    ensures i in Partial(k) ==> i in Full(k)
  {
  }

  lemma PartialNotEmpty(k: nat)
    requires k < HOLES
    ensures Partial(k) != {} && Partial(k) <= Full(k)
  {
    assert Partial(k) == {if k == 0 then 1 else if k < 6 then k + 1 else if k == 6 then 8 else 10};
  }

  /** `a ^ b`. */
  function Xor(a: Mask, b: Mask): Mask
  {
    (a - b) + (b - a)
  }

  /** `fingering.replace(/\./g, '')`. */
  function StripDots(s: string): (r: string)
    ensures |r| <= |s|
    ensures '.' !in r
    ensures forall c :: c != '.' ==> (c in r <==> c in s)
  {
    if s == [] then []
    else (if s[0] == '.' then [] else [s[0]]) + StripDots(s[1..])
  }

  /**
   * Stripping works piece by piece: with the identity on dot-free strings,
   * this pins StripDots down as removing the dots and keeping every other
   * character, in order and with repeats.
   */
  lemma {:induction false} StripDotsConcat(a: string, b: string)
    ensures StripDots(a + b) == StripDots(a) + StripDots(b)
  {
    if a == [] {
      assert a + b == b;
    } else {
      var ab, t := a + b, a[1..];
      assert ab[0] == a[0] && ab[1..] == t + b;
      StripDotsConcat(t, b);
      var h := if a[0] == '.' then [] else [a[0]];
      var st, sb := StripDots(t), StripDots(b);
      calc {
        StripDots(ab);
        h + StripDots(t + b);
        h + (st + sb);
        { assert h + (st + sb) == (h + st) + sb; }
        (h + st) + sb;
        StripDots(a) + sb;
      }
    }
  }

  /** A string without dots is returned as it is. */
  lemma {:induction false} StripDotsNoDots(s: string)
    requires '.' !in s
    ensures StripDots(s) == s
  {
    if s != [] {
      assert s[0] != '.' && '.' !in s[1..];
      StripDotsNoDots(s[1..]);
      assert s == [s[0]] + s[1..];
    }
  }

  /** A single dot is removed, and a single other character is kept. */
  lemma StripDotsOne(c: char)
    ensures StripDots([c]) == if c == '.' then [] else [c]
  {
    assert [c][1..] == [];
  }

  /** The encoder accepts symbol c at a hole with bits (full, partial); '@' and 'e' need a half state. */
  predicate Accepts(c: char, full: Mask, partial: Mask)
  {
    c == '*' || c == 'o' || ((c == '@' || c == 'e') && full != partial)
  }

  /** The bits an accepted symbol contributes: all, the partial bit, the other bit, or none. */
  function HoleBits(c: char, full: Mask, partial: Mask): (b: Mask)
    requires Accepts(c, full, partial)
    ensures partial <= full ==> b <= full
  {
    if c == '*' then full
    else if c == '@' then partial
    else if c == 'e' then Xor(full, partial)
    else {}
  }

  /** Every one of the first n symbols is accepted at its hole. */
  predicate AcceptedUpTo(s: string, n: nat)
    requires n <= |s| <= HOLES
  {
    forall k :: 0 <= k < n ==> Accepts(s[k], Full(k), Partial(k))
  }

  /** The symbols are accepted at their holes. */
  predicate ValidSymbols(s: string)
    requires |s| <= HOLES
  {
    AcceptedUpTo(s, |s|)
  }

  /** The mask or-ed together over the first n symbols. */
  function MaskPrefix(s: string, n: nat): Mask
    requires n <= |s| <= HOLES && AcceptedUpTo(s, n)
  {
    if n == 0 then {}
    else MaskPrefix(s, n - 1) + HoleBits(s[n - 1], Full(n - 1), Partial(n - 1))
  }

  /** The number the bits from..from+n-1 of a mask stand for, lowest bit first. */
  function Value(f: Mask, from: nat, n: nat): nat
    decreases n
  {
    if n == 0 then 0 else (if from in f then 1 else 0) + 2 * Value(f, from + 1, n - 1)
  }

  /** The bits of the low n binary digits of x, placed from position `from`. */
  function BitsOf(x: nat, from: nat, n: nat): Mask
    decreases n
  {
    if n == 0 then {} else (if x % 2 == 1 then {from} else {}) + BitsOf(x / 2, from + 1, n - 1)
  }

  lemma {:induction false} ValueBound(f: Mask, from: nat, n: nat)
    ensures Value(f, from, n) < Pow2(n)
    decreases n
  {
    if n > 0 {
      ValueBound(f, from + 1, n - 1);
    }
  }

  /** Splitting a bit range splits the number. */
  lemma {:induction false} ValueSplit(f: Mask, from: nat, n: nat, m: nat)
    ensures Value(f, from, n + m) == Value(f, from, n) + Pow2(n) * Value(f, from + n, m)
    decreases n
  {
    if n > 0 {
      ValueSplit(f, from + 1, n - 1, m);
      Twice(Pow2(n - 1), Value(f, from + n, m));
    }
  }

  /** A range with no bit set stands for 0. */
  lemma {:induction false} ValueOfEmptyRange(f: Mask, from: nat, n: nat)
    requires forall i :: from <= i < from + n ==> i !in f
    ensures Value(f, from, n) == 0
    decreases n
  {
    if n > 0 {
      ValueOfEmptyRange(f, from + 1, n - 1);
    }
  }

  /** The bits outside the holes: bit 7 and bits 12..15. */
  predicate WithinHoles(f: Mask)
  {
    forall i :: i in f ==> HoleOfBit(i) >= 0
  }

  /** The 3-byte chart entry for a note and a mask: [note, f >> 8, f & 0x7f]. */
  function EntryBytes(note: nat, f: Mask): (e: seq<Byte>)
    requires note < 256 && WithinHoles(f)
    ensures |e| == 3 && e[0] == note && e[1] < 0x10 && e[2] < 0x80
  {
    EntryByteBounds(f);
    [note, Value(f, 8, 8), Value(f, 0, 7)]
  }

  lemma EntryByteBounds(f: Mask)
    requires WithinHoles(f)
    ensures Value(f, 8, 8) < 0x10 && Value(f, 0, 7) < 0x80
  {
    ValueSplit(f, 8, 4, 4);
    ValueOfEmptyRange(f, 12, 4);
    ValueBound(f, 8, 4);
    ValueBound(f, 0, 7);
    SmallPowers();
  }

  /**
   * `encode_fingering` (the same in js/re_corder_utils.js and
   * python/re_corder_charts.py): the fingering is checked before the note.
   */
  function FingeringEntry(note: string, fingering: string): (r: Result<seq<Byte>>)
    ensures var s := StripDots(fingering);
            r.Ok? <==> |s| <= HOLES && ValidSymbols(s) && ToMidiNote(note).Ok?
    ensures var s := StripDots(fingering);
            r.Err? ==> r.error == (if |s| <= HOLES && ValidSymbols(s) then InvalidNote else InvalidFingering)
    ensures r.Ok? ==> |r.value| == 3 && r.value[0] == ToMidiNote(note).value
    ensures r.Ok? ==> r.value[0] < 0x80 && r.value[1] < 0x10 && r.value[2] < 0x80
  {
    var s := StripDots(fingering);
    if |s| > HOLES || !ValidSymbols(s) then Err(InvalidFingering)
    else
      MaskAtHole(s, |s|);
      match ToMidiNote(note)
      case Err(e) => Err(e)
      case Ok(n) => Ok(EntryBytes(n, MaskPrefix(s, |s|)))
  }

  /**
   * The accumulated mask, bit by bit: a bit is set exactly when it belongs to
   * one of the first n holes and the symbol at that hole contributes it.
   */
  lemma {:induction false} MaskAtHole(s: string, n: nat)
    requires n <= |s| <= HOLES && AcceptedUpTo(s, n)
    ensures forall i :: i in MaskPrefix(s, n) <==>
      0 <= HoleOfBit(i) < n && i in HoleBits(s[HoleOfBit(i)], Full(HoleOfBit(i)), Partial(HoleOfBit(i)))
    ensures WithinHoles(MaskPrefix(s, n))
  {
    if n > 0 {
      MaskAtHole(s, n - 1);
      var k := n - 1;
      PartialNotEmpty(k);
      forall i
        ensures i in HoleBits(s[k], Full(k), Partial(k)) ==> HoleOfBit(i) == k
      {
        HoleBitsOfTable(k, i);
      }
    }
  }

  /** The loop of `encode_fingering`, or-ing in each hole's bits. */
  method EncodeFingering(note: string, fingering: string) returns (r: Result<seq<Byte>>)
    ensures r == FingeringEntry(note, fingering)
  {
    var s := StripDots(fingering);
    if HOLES < |s| {
      return Err(InvalidFingering);
    }
    var f: Mask := {};
    for i := 0 to |s|
      invariant AcceptedUpTo(s, i) && MaskPrefix(s, i) == f
    {
      var c, full, partial := s[i], Full(i), Partial(i);
      if !Accepts(c, full, partial) {
        assert !ValidSymbols(s);
        return Err(InvalidFingering);
      }
      f := f + HoleBits(c, full, partial);
    }
    assert ValidSymbols(s);
    var n := ToMidiNote(note);
    if n.Err? {
      return Err(n.error);
    }
    MaskAtHole(s, |s|);
    r := Ok(EntryBytes(n.value, f));
  }

  /** The symbol a hole with bits (full, partial) shows in mask f: closed, partial, the other half, open. */
  function HoleSymbol(f: Mask, full: Mask, partial: Mask): char
  {
    if full <= f then '*'
    else if f * partial != {} then '@'
    else if f * full != {} then 'e'
    else 'o'
  }

  /** A '.' goes before the holes whose full mask is 0x04 or 0x20 (the two index fingers). */
  function Separator(full: Mask): string
  {
    if full == {2} || full == {5} then "." else ""
  }

  /** The dots go before hole 1 and hole 4. */
  lemma SeparatorAt(k: nat)
    requires k < HOLES
    ensures Separator(Full(k)) == if k == 1 || k == 4 then "." else ""
  {
    var w := if k == 0 then 0 else if k < 6 then k + 1 else if k == 6 then 8 else 10;
    assert w in Full(k);
  }

  /** The symbol of every hole, in order. */
  function Symbols(f: Mask): (r: string)
    ensures |r| == HOLES
    ensures forall k :: 0 <= k < HOLES ==> r[k] == HoleSymbol(f, Full(k), Partial(k))
  {
    [HoleSymbol(f, Full(0), Partial(0)), HoleSymbol(f, Full(1), Partial(1)),
     HoleSymbol(f, Full(2), Partial(2)), HoleSymbol(f, Full(3), Partial(3)),
     HoleSymbol(f, Full(4), Partial(4)), HoleSymbol(f, Full(5), Partial(5)),
     HoleSymbol(f, Full(6), Partial(6)), HoleSymbol(f, Full(7), Partial(7))]
  }

  /** The first n symbols of syms, each preceded by its hole's separator. */
  function Decorated(syms: string, n: nat): string
    requires n <= |syms| == HOLES
  {
    if n == 0 then ""
    else Decorated(syms, n - 1) + Separator(Full(n - 1)) + [syms[n - 1]]
  }

  /** The loop of `decode_fingering`: one symbol per hole, dots before the index fingers. */
  method DecodeMask(f: Mask) returns (s: string)
    ensures s == Decorated(Symbols(f), HOLES)
  {
    s := "";
    for i := 0 to HOLES
      invariant s == Decorated(Symbols(f), i)
    {
      var full := Full(i);
      var partial := Partial(i);
      if full == {2} || full == {5} {
        s := s + ".";
      }
      s := s + [HoleSymbol(f, full, partial)];
    }
  }

  /** The three hand groups of an 8-symbol fingering, separated by dots: `o.ooo.oooo`. */
  function Dotted(y: string): (r: string)
    requires |y| == HOLES
    ensures |r| == 10 && r[1] == '.' && r[5] == '.'
  {
    [y[0], '.', y[1], y[2], y[3], '.', y[4], y[5], y[6], y[7]]
  }

  /** Decoration puts a dot after hole 0 and after hole 3. */
  lemma DecoratedLayout(y: string)
    requires |y| == HOLES
    ensures Decorated(y, HOLES) == Dotted(y)
  {
    DecoratedLeftHand(y);
    DecoratedStep(y, 4);
    assert Decorated(y, 5) == [y[0], '.', y[1], y[2], y[3], '.', y[4]];
    DecoratedStep(y, 5);
    assert Decorated(y, 6) == [y[0], '.', y[1], y[2], y[3], '.', y[4], y[5]];
    DecoratedStep(y, 6);
    assert Decorated(y, 7) == [y[0], '.', y[1], y[2], y[3], '.', y[4], y[5], y[6]];
    DecoratedStep(y, 7);
  }

  lemma DecoratedLeftHand(y: string)
    requires |y| == HOLES
    ensures Decorated(y, 4) == [y[0], '.', y[1], y[2], y[3]]
  {
    DecoratedStep(y, 0);
    assert Decorated(y, 1) == [y[0]];
    DecoratedStep(y, 1);
    assert Decorated(y, 2) == [y[0], '.', y[1]];
    DecoratedStep(y, 2);
    assert Decorated(y, 3) == [y[0], '.', y[1], y[2]];
    DecoratedStep(y, 3);
  }

  lemma DecoratedStep(y: string, k: nat)
    requires |y| == HOLES && k < HOLES
    ensures Decorated(y, k + 1) == Decorated(y, k) + (if k == 1 || k == 4 then [ '.', y[k] ] else [y[k]])
  {
    SeparatorAt(k);
  }

  /** `decode_fingering` as a value: the sharp-spelled note and the dotted fingering. */
  function DecodedFingering(note: nat, f: Mask): (r: (string, string))
    ensures |r.1| == 10 && r.1[1] == '.' && r.1[5] == '.'
  {
    DecoratedLayout(Symbols(f));
    (FromMidiNote(note), Decorated(Symbols(f), HOLES))
  }

  /** js/re_corder_utils.js reads the mask as `(e[1] << 8) | e[2]`; a missing byte is `undefined`, read as 0. */
  function JsMask(e: seq<Byte>): Mask
  {
    var hi := if |e| > 1 then e[1] else 0;
    var lo := if |e| > 2 then e[2] else 0;
    BitsOf(hi, 8, 8) + BitsOf(lo, 0, 8)
  }

  /** python/re_corder_charts.py reads a chunk of up to 3 bytes as one big-endian number. */
  function BigEndian(e: seq<Byte>): nat
  {
    if e == [] then 0 else BigEndian(e[..|e| - 1]) * 256 + e[|e| - 1]
  }

  /** Its `f >> 16`: the note, present only in a full 3-byte entry. */
  function PyNote(e: seq<Byte>): nat
    requires 1 <= |e| <= 3
  {
    if |e| == 3 then e[0] else 0
  }

  /** The two bytes below the note, which are the number's low 16 bits. */
  function PyMaskBytes(e: seq<Byte>): (Byte, Byte)
    requires 1 <= |e| <= 3
  {
    (if |e| >= 2 then e[|e| - 2] else 0, e[|e| - 1])
  }

  /** Its `f & full` tests see the bits of those two bytes. */
  function PyMask(e: seq<Byte>): Mask
    requires 1 <= |e| <= 3
  {
    BitsOf(PyMaskBytes(e).0, 8, 8) + BitsOf(PyMaskBytes(e).1, 0, 8)
  }

  /** PyNote and PyMaskBytes are the number's parts above and below bit 16. */
  lemma PyFieldsOfNumber(e: seq<Byte>)
    requires 1 <= |e| <= 3
    ensures BigEndian(e) == PyNote(e) * 0x10000 + PyMaskBytes(e).0 * 256 + PyMaskBytes(e).1
  {
    assert e[..|e| - 1][..0] == [];
    if |e| == 3 {
      assert e[..2][..1] == [e[0]];
      assert BigEndian(e[..1]) == e[0];
    }
  }

  /** On a full entry both readings agree. */
  lemma EntryReadingsAgree(e: seq<Byte>)
    requires |e| == 3
    ensures PyNote(e) == e[0] && PyMask(e) == JsMask(e)
  {
  }

  // ---- round trip --------------------------------------------------------

  /** Reading back the bits of a range's number gives the mask's bits in that range. */
  lemma {:induction false} BitsOfValue(f: Mask, from: nat, n: nat, m: nat)
    requires n <= m
    ensures forall i :: i in BitsOf(Value(f, from, n), from, m) <==> i in f && from <= i < from + n
    decreases n
  {
    var v := Value(f, from, n);
    if n == 0 {
      BitsOfZero(from, m);
    } else {
      assert v % 2 == (if from in f then 1 else 0) && v / 2 == Value(f, from + 1, n - 1);
      BitsOfValue(f, from + 1, n - 1, m - 1);
    }
  }

  lemma {:induction false} BitsOfZero(from: nat, m: nat)
    ensures BitsOf(0, from, m) == {}
    decreases m
  {
    if m > 0 {
      BitsOfZero(from + 1, m - 1);
    }
  }

  /** A mask within the holes survives its split into the entry's two low bytes. */
  lemma SplitMaskRecombines(f: Mask)
    requires WithinHoles(f)
    ensures JsMask(EntryBytes(0, f)) == f
  {
    BitsOfValue(f, 8, 8, 8);
    BitsOfValue(f, 0, 7, 8);
    forall i | i in f
      ensures i < 7 || 8 <= i < 16
    {
    }
  }

  /** Reading the bits of one hole. */
  lemma HoleSymbolLocal(f: Mask, full: Mask, partial: Mask)
    requires partial <= full
    ensures HoleSymbol(f, full, partial) == HoleSymbol(f * full, full, partial)
  {
    assert (f * full) * partial == f * partial;
  }

  /** The bits a symbol contributes show that symbol again. */
  lemma HoleSymbolOfBits(c: char, full: Mask, partial: Mask)
    requires partial <= full && partial != {}
    requires Accepts(c, full, partial)
    ensures HoleSymbol(HoleBits(c, full, partial), full, partial) == c
  {
    var b := HoleBits(c, full, partial);
    var p :| p in partial;
    if c == 'e' {
      var q :| q in full && q !in partial;
      assert q in b && q in b * full;
      assert p !in b;
    } else if c == '@' {
      var q :| q in full && q !in partial;
      assert q !in b;
      assert p in b * partial;
    } else if c == 'o' {
      assert p !in b;
    }
  }

  /** The symbols given, followed by 'o' for every hole not given. */
  function Padded(s: string): (r: string)
    requires |s| <= HOLES
    ensures |r| == HOLES && r[..|s|] == s
    ensures forall k :: |s| <= k < HOLES ==> r[k] == 'o'
  {
    s + seq(HOLES - |s|, _ => 'o')
  }

  /** The bits a padded fingering sets at each hole. */
  lemma PaddedHoleBits(s: string, f: Mask, k: nat)
    requires |s| <= HOLES && ValidSymbols(s) && f == MaskPrefix(s, |s|) && k < HOLES
    ensures Accepts(Padded(s)[k], Full(k), Partial(k))
    ensures f * Full(k) == HoleBits(Padded(s)[k], Full(k), Partial(k))
  {
    var p := Padded(s);
    MaskAtHole(s, |s|);
    PartialNotEmpty(k);
    if k < |s| {
      assert p[k] == p[..|s|][k] == s[k];
    }
    forall i
      ensures i in f * Full(k) <==> i in HoleBits(p[k], Full(k), Partial(k))
    {
      HoleBitsOfTable(k, i);
    }
  }

  /** Reading every hole of an encoded mask gives back the padded fingering. */
  lemma PaddedSymbols(s: string)
    requires |s| <= HOLES && ValidSymbols(s)
    ensures Symbols(MaskPrefix(s, |s|)) == Padded(s)
  {
    var f, p := MaskPrefix(s, |s|), Padded(s);
    forall k | 0 <= k < HOLES
      ensures HoleSymbol(f, Full(k), Partial(k)) == p[k]
    {
      PaddedSymbolAt(s, k);
    }
    SymbolsAre(f, p);
  }

  /** The symbols of a mask are the string that agrees with them hole by hole. */
  lemma SymbolsAre(f: Mask, p: string)
    requires |p| == HOLES
    requires forall k :: 0 <= k < HOLES ==> HoleSymbol(f, Full(k), Partial(k)) == p[k]
    ensures Symbols(f) == p
  {
  }

  lemma PaddedSymbolAt(s: string, k: nat)
    requires |s| <= HOLES && ValidSymbols(s) && k < HOLES
    ensures HoleSymbol(MaskPrefix(s, |s|), Full(k), Partial(k)) == Padded(s)[k]
  {
    var f, p := MaskPrefix(s, |s|), Padded(s);
    PaddedHoleBits(s, f, k);
    PartialNotEmpty(k);
    HoleSymbolLocal(f, Full(k), Partial(k));
    HoleSymbolOfBits(p[k], Full(k), Partial(k));
  }

  /**
   * `decode_fingering(encode_fingering(note, s))` is the sharp spelling of the
   * note and s without its dots, padded with 'o' to eight holes and re-dotted.
   */
  lemma {:induction false} FingeringRoundTrip(note: string, fingering: string)
    requires FingeringEntry(note, fingering).Ok?
    ensures var e := FingeringEntry(note, fingering).value;
            var s := StripDots(fingering);
            |s| <= HOLES &&
            DecodedFingering(e[0], JsMask(e)) == (FromMidiNote(ToMidiNote(note).value), Dotted(Padded(s)))
  {
    var s := StripDots(fingering);
    var e := FingeringEntry(note, fingering).value;
    var f := MaskPrefix(s, |s|);
    MaskAtHole(s, |s|);
    SplitMaskRecombines(f);
    assert JsMask(e) == JsMask(EntryBytes(0, f)) == f;
    PaddedSymbols(s);
    DecoratedLayout(Padded(s));
  }
}
