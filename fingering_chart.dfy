/**
 * The fingering chart on the wire: the setter sends 1..62 three-byte entries
 * (MIDI note, mask high byte, mask low byte) after two zero bytes; the getter
 * receives the user mode followed by the entries. Both library generations
 * check every entry's unused bits before sending, with different expressions
 * that accept the same entries.
 */
module FingeringChart {
  import opened Common
  import opened Tables
  import opened SysEx
  import opened Bits
  import opened Fingering
  import opened Codec

  /** An entry the device accepts: a 7-bit note, a 4-bit high mask byte, a 7-bit low mask byte. */
  predicate EntryInRange(b: seq<Byte>)
  {
    |b| == 3 && b[0] < 0x80 && b[1] < 0x10 && b[2] < 0x80
  }

  /** JavaScript's check: `b.length != 3 || b[0] & 0x80 || b[1] & 0xf0 || b[2] & 0x80` rejects. */
  predicate JsEntryOk(b: seq<Byte>)
  {
    |b| == 3 && BitAnd(b[0], 0x80) == 0 && BitAnd(b[1], 0xf0) == 0 && BitAnd(b[2], 0x80) == 0
  }

  /** Python's check: three bytes whose big-endian number n satisfies `n & 0x7f0f7f == n`. */
  predicate PyEntryOk(b: seq<Byte>)
  {
    |b| == 3 && BitAnd(BigEndian(b), 0x7f0f7f) == BigEndian(b)
  }

  /** A byte has no bit in common with 0x80 exactly when it is below 0x80, and likewise 0xf0 and 0x10. */
  lemma ByteHighBits(x: Byte)
    ensures BitAnd(x, 0x80) == 0 <==> x < 0x80
    ensures BitAnd(x, 0xf0) == 0 <==> x < 0x10
  {
    SmallPowers();
    assert Shl(Ones(1), 7) == 0x80 && Shl(Ones(4), 4) == 0xf0;
    HighBits(x, 7, 1);
    HighBits(x, 4, 4);
  }

  /** JavaScript's check accepts exactly the entries in range. */
  lemma JsEntryCheck(b: seq<Byte>)
    ensures JsEntryOk(b) <==> EntryInRange(b)
  {
    if |b| == 3 {
      ByteHighBits(b[0]);
      ByteHighBits(b[1]);
      ByteHighBits(b[2]);
    }
  }

  /** Three fields packed into one number, each of the lower two n bits wide. */
  function Pack(x: nat, y: nat, z: nat, n: nat): nat
  {
    Shl(Shl(x, n) + y, n) + z
  }

  /** The three bytes of an entry as one number. */
  function Triple(x: nat, y: nat, z: nat): nat
  {
    Pack(x, y, z, 8)
  }

  lemma BytePowers()
    ensures Pow2(4) == 16 && Pow2(7) == 128 && Pow2(8) == 256
  {
  }

  /** Python's number of an entry, split at bits 16 and 8, gives back its bytes. */
  lemma BigEndianTriple(b: seq<Byte>)
    requires |b| == 3
    ensures BigEndian(b) == Triple(b[0], b[1], b[2])
  {
    BytePowers();
    PyFieldsOfNumber(b);
    ShlIsProduct(b[0], 8);
    ShlIsProduct(Shl(b[0], 8) + b[1], 8);
  }

  /** The mask 0x7f0f7f keeps 7, 4 and 7 bits of the three bytes. */
  lemma MaskTriple()
    ensures 0x7f0f7f == Triple(Ones(7), Ones(4), Ones(7))
  {
    BytePowers();
    ShlIsProduct(Ones(7), 8);
    ShlIsProduct(Shl(Ones(7), 8) + Ones(4), 8);
  }

  /** `&` of two packed numbers works field by field. */
  lemma {:induction false} AndPack(x: nat, y: nat, z: nat, p: nat, q: nat, r: nat, n: nat)
    requires y < Pow2(n) && z < Pow2(n) && q < Pow2(n) && r < Pow2(n)
    ensures BitAnd(Pack(x, y, z, n), Pack(p, q, r, n)) == Pack(BitAnd(x, p), BitAnd(y, q), BitAnd(z, r), n)
  {
    var hi, mask := Shl(x, n) + y, Shl(p, n) + q;
    assert Pack(x, y, z, n) == Shl(hi, n) + z && Pack(p, q, r, n) == Shl(mask, n) + r;
    assert BitAnd(Shl(hi, n) + z, Shl(mask, n) + r) == Shl(BitAnd(hi, mask), n) + BitAnd(z, r) by {
      AndSplit(hi, z, mask, r, n);
    }
    assert BitAnd(hi, mask) == Shl(BitAnd(x, p), n) + BitAnd(y, q) by {
      AndSplit(x, y, p, q, n);
    }
  }

  /** Two packed numbers are equal exactly when their fields are. */
  lemma PackUnique(x: nat, y: nat, z: nat, p: nat, q: nat, r: nat, n: nat)
    requires y < Pow2(n) && z < Pow2(n) && q < Pow2(n) && r < Pow2(n)
    ensures Pack(x, y, z, n) == Pack(p, q, r, n) <==> x == p && y == q && z == r
  {
    SplitUnique(Shl(x, n) + y, z, Shl(p, n) + q, r, n);
    SplitUnique(x, y, p, q, n);
  }

  /** Python's check accepts exactly the entries in range. */
  lemma PyEntryCheck(b: seq<Byte>)
    ensures PyEntryOk(b) <==> EntryInRange(b)
  {
    if |b| == 3 {
      BytePowers();
      BigEndianTriple(b);
      MaskTriple();
      AndPack(b[0], b[1], b[2], Ones(7), Ones(4), Ones(7), 8);
      AndLowMask(b[0], 7);
      AndLowMask(b[1], 4);
      AndLowMask(b[2], 7);
      PackUnique(Low(b[0], 7), Low(b[1], 4), Low(b[2], 7), b[0], b[1], b[2], 8);
      LowOfSmall(b[0], 7);
      LowOfSmall(b[1], 4);
      LowOfSmall(b[2], 7);
    }
  }

  /** Every entry encode_fingering produces passes both checks. */
  lemma EncodedEntryAccepted(note: string, fingering: string)
    requires FingeringEntry(note, fingering).Ok?
    ensures JsEntryOk(FingeringEntry(note, fingering).value)
    ensures PyEntryOk(FingeringEntry(note, fingering).value)
  {
    JsEntryCheck(FingeringEntry(note, fingering).value);
    PyEntryCheck(FingeringEntry(note, fingering).value);
  }

  /** Every entry of the chart is in range. */
  predicate AllInRange(chart: seq<seq<Byte>>)
  {
    forall i :: 0 <= i < |chart| ==> EntryInRange(chart[i])
  }

  /**
   * `set_fingering_chart`: 1..62 entries, each in range; the data is two
   * zero bytes followed by the entries' bytes in order.
   */
  function FingeringChartRequest(chart: seq<seq<Byte>>): (r: Result<Request>)
    ensures r.Ok? <==> 1 <= |chart| <= 62 && AllInRange(chart)
    ensures r.Err? ==> r.error == (if 1 <= |chart| <= 62 then InvalidFingering else InvalidArgument)
    ensures r.Ok? ==> r.value == Request(SET_CONFIG, [0, 0] + Flatten(chart))
  {
    if |chart| < 1 || |chart| > 62 then Err(InvalidArgument)
    else if !AllInRange(chart) then Err(InvalidFingering)
    else Ok(Request(SET_CONFIG, [0, 0] + Flatten(chart)))
  }

  /** `set_fingering_chart` (JavaScript): checks every entry, then sends them all. */
  method JsSetFingeringChart(chart: seq<seq<Byte>>) returns (r: Result<Request>)
    ensures r == FingeringChartRequest(chart)
  {
    if |chart| < 1 || |chart| > 62 {
      return Err(InvalidArgument);
    }
    for i := 0 to |chart|
      invariant forall k :: 0 <= k < i ==> EntryInRange(chart[k])
    {
      var b := chart[i];
      JsEntryCheck(b);
      if |b| != 3 || BitAnd(b[0], 0x80) != 0 || BitAnd(b[1], 0xf0) != 0 || BitAnd(b[2], 0x80) != 0 {
        return Err(InvalidFingering);
      }
    }
    r := Ok(Request(SET_CONFIG, [0, 0] + Flatten(chart)));
  }

  /** `set_fingering_chart` (Python): appends each entry to the data once it passes the check. */
  method PySetFingeringChart(chart: seq<seq<Byte>>) returns (r: Result<Request>)
    ensures r == FingeringChartRequest(chart)
  {
    if |chart| < 1 || |chart| > 62 {
      return Err(InvalidArgument);
    }
    var data: seq<Byte> := [0, 0];
    for i := 0 to |chart|
      invariant data == [0, 0] + Flatten(chart[..i])
      invariant forall k :: 0 <= k < i ==> EntryInRange(chart[k])
    {
      var b := chart[i];
      var n := BigEndian(b);
      PyEntryCheck(b);
      if |b| != 3 || BitAnd(n, 0x7f0f7f) != n {
        return Err(InvalidFingering);
      }
      FlattenAppend(chart[..i], b);
      assert chart[..i + 1] == chart[..i] + [b];
      data := data + b;
    }
    assert chart[..|chart|] == chart;
    r := Ok(Request(SET_CONFIG, data));
  }

  // ---- reading the chart back ----------------------------------------------

  function Min(a: int, b: int): int
  {
    if a < b then a else b
  }

  /**
   * `get_fingering_chart` (JavaScript): the mode named by byte 0 (undefined
   * for an unknown code) and `floor(length / 3)` slices of three bytes
   * starting at byte 1, the last one cut short by the end of the data.
   */
  function JsFingeringChart(data: seq<Byte>): (r: (Option<string>, seq<seq<Byte>>))
    ensures r.0 == (if |data| >= 1 then ModeName(data[0]) else None)
    ensures |r.1| == |data| / 3
    ensures forall i :: 0 <= i < |r.1| ==> r.1[i] == data[3 * i + 1..Min(3 * i + 4, |data|)]
  {
    (if |data| >= 1 then ModeName(data[0]) else None,
     seq(|data| / 3, i requires 0 <= i < |data| / 3 => data[3 * i + 1..Min(3 * i + 4, |data|)]))
  }

  /** Python's chunks of six hex digits of the data after the mode: three bytes each, the last possibly fewer. */
  function Chunks(rest: seq<Byte>): (r: seq<seq<Byte>>)
    ensures Flatten(r) == rest
    ensures forall i :: 0 <= i < |r| ==> 1 <= |r[i]| <= 3
    ensures forall i :: 0 <= i < |r| - 1 ==> |r[i]| == 3
    decreases |rest|
  {
    if rest == [] then []
    else if |rest| <= 3 then
      FlattenCons(rest, []);
      [rest]
    else
      FlattenCons(rest[..3], Chunks(rest[3..]));
      assert rest == rest[..3] + rest[3..];
      [rest[..3]] + Chunks(rest[3..])
  }

  /** `get_fingering_chart` (Python): an unknown mode code or no data raises. */
  function PyFingeringChart(data: seq<Byte>): (r: Result<(string, seq<seq<Byte>>)>)
    ensures r.Ok? <==> |data| >= 1 && 1 <= data[0] <= 3
    ensures r.Ok? ==> Some(r.value.0) == JsFingeringChart(data).0 && Flatten(r.value.1) == data[1..]
  {
    if |data| >= 1 && ModeName(data[0]).Some? then Ok((ModeName(data[0]).value, Chunks(data[1..])))
    else Err(MalformedResponse)
  }

  /** Every entry has three bytes. */
  predicate AllTriples(chart: seq<seq<Byte>>)
  {
    forall i :: 0 <= i < |chart| ==> |chart[i]| == 3
  }

  lemma {:induction false} FlattenLength(chart: seq<seq<Byte>>)
    requires AllTriples(chart)
    ensures |Flatten(chart)| == 3 * |chart|
    decreases |chart|
  {
    if chart != [] {
      var init := chart[..|chart| - 1];
      assert AllTriples(init) by {
        forall k | 0 <= k < |init| ensures |init[k]| == 3 {
          assert init[k] == chart[k];
        }
      }
      FlattenLength(init);
    }
  }

  /** Entry i of a chart of triples sits at bytes 3i .. 3i + 2 of its flattening. */
  lemma {:induction false} FlattenSlice(chart: seq<seq<Byte>>, i: nat)
    requires AllTriples(chart) && i < |chart|
    ensures 3 * i + 3 <= |Flatten(chart)|
    ensures Flatten(chart)[3 * i..3 * i + 3] == chart[i]
    decreases |chart|
  {
    var init, last := chart[..|chart| - 1], chart[|chart| - 1];
    assert AllTriples(init) by {
      forall k | 0 <= k < |init| ensures |init[k]| == 3 {
        assert init[k] == chart[k];
      }
    }
    FlattenLength(init);
    var f := Flatten(init);
    assert Flatten(chart) == f + last;
    if i < |init| {
      FlattenSlice(init, i);
      assert (f + last)[3 * i..3 * i + 3] == f[3 * i..3 * i + 3];
    } else {
      assert (f + last)[|f|..|f| + 3] == last;
    }
  }

  /** Python's chunks of a chart's bytes are the chart's entries. */
  lemma {:induction false} ChunksOfTriples(chart: seq<seq<Byte>>)
    requires AllTriples(chart)
    ensures Chunks(Flatten(chart)) == chart
    decreases |chart|
  {
    if chart != [] {
      var first, rest := chart[0], chart[1..];
      assert chart == [first] + rest;
      assert AllTriples(rest) by {
        forall k | 0 <= k < |rest| ensures |rest[k]| == 3 {
          assert rest[k] == chart[k + 1];
        }
      }
      FlattenCons(first, rest);
      FlattenLength(rest);
      var f := Flatten(chart);
      assert f == first + Flatten(rest);
      assert f[..3] == first && f[3..] == Flatten(rest);
      assert |first| == 3 && |f| == 3 + 3 * |rest|;
      if rest == [] {
        assert f == first;
        assert Chunks(f) == [f];
      } else {
        ChunksOfTriples(rest);
        assert Chunks(f) == [f[..3]] + Chunks(f[3..]);
        assert Chunks(f) == [first] + rest;
      }
    }
  }

  /** A device that answers with mode code m and the entries last written hands JavaScript back those entries. */
  lemma JsChartReadBack(m: Byte, chart: seq<seq<Byte>>)
    requires AllTriples(chart)
    ensures JsFingeringChart([m] + Flatten(chart)) == (ModeName(m), chart)
  {
    var f := Flatten(chart);
    var data := [m] + f;
    var js := JsFingeringChart(data);
    FlattenLength(chart);
    assert |data| == 3 * |chart| + 1;
    assert |js.1| == |chart|;
    forall i | 0 <= i < |chart|
      ensures js.1[i] == chart[i]
    {
      FlattenSlice(chart, i);
      assert Min(3 * i + 4, |data|) == 3 * i + 4;
      assert data[3 * i + 1..3 * i + 4] == f[3 * i..3 * i + 3];
    }
    assert js.1 == chart;
    assert data[0] == m;
  }

  /** The same for Python, which also names the mode when its code is known. */
  lemma PyChartReadBack(m: Byte, chart: seq<seq<Byte>>)
    requires AllTriples(chart) && 1 <= m <= 3
    ensures PyFingeringChart([m] + Flatten(chart)) == Ok((ModeName(m).value, chart))
  {
    assert ([m] + Flatten(chart))[1..] == Flatten(chart);
    ChunksOfTriples(chart);
  }
}
