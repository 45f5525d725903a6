/**
 * The note-name codec: a 24-entry chromatic table holding two spellings per
 * semitone (sharp at even positions, flat or repeat at odd ones). A note name
 * is a table entry followed by a single octave digit.
 */
module Notes {
  import opened Common

  const NOTES: seq<string> := [
    "C", "C", "C#", "Db", "D", "D", "D#", "Eb", "E", "E", "F", "F",
    "F#", "Gb", "G", "G", "G#", "Ab", "A", "A", "A#", "Bb", "B", "B"]

  function DigitValue(c: char): (r: Option<nat>)
    ensures r.Some? <==> '0' <= c <= '9'
    ensures r.Some? ==> r.value < 10 && DigitChar(r.value) == c
  {
    if '0' <= c <= '9' then Some(c as int - '0' as int) else None
  }

  function DigitChar(d: nat): char
    requires d < 10
  {
    ('0' as int + d) as char
  }

  /** Decimal digits of a natural number (`str(n)`, `String(n)`). */
  function Decimal(n: nat): (s: string)
    ensures |s| >= 1
    ensures n < 10 ==> s == [DigitChar(n)]
  {
    if n < 10 then [DigitChar(n)] else Decimal(n / 10) + [DigitChar(n % 10)]
  }

  /**
   * The semitone (0..11) of a spelling: the first table position holding it,
   * halved. Both spellings of a semitone share one pair of positions, so the
   * first pair that holds the name gives the same answer.
   */
  function PitchClass(name: string): (r: Option<nat>)
    ensures r.Some? ==> r.value < 12 && (NOTES[2 * r.value] == name || NOTES[2 * r.value + 1] == name)
  {
    if name == "C" then Some(0)
    else if name == "C#" || name == "Db" then Some(1)
    else if name == "D" then Some(2)
    else if name == "D#" || name == "Eb" then Some(3)
    else if name == "E" then Some(4)
    else if name == "F" then Some(5)
    else if name == "F#" || name == "Gb" then Some(6)
    else if name == "G" then Some(7)
    else if name == "G#" || name == "Ab" then Some(8)
    else if name == "A" then Some(9)
    else if name == "A#" || name == "Bb" then Some(10)
    else if name == "B" then Some(11)
    else None
  }

  /** Exactly the table's spellings have a semitone. */
  lemma KnownSpellings(name: string)
    ensures PitchClass(name).Some? <==> name in NOTES
  {
  }

  /**
   * `to_midi_note`: twelve times the octave digit plus the semitone of the
   * name, so both spellings of a semitone give the same number.
   */
  function ToMidiNote(note: string): (r: Result<nat>)
    ensures r.Ok? <==> |note| >= 1 && '0' <= note[|note| - 1] <= '9' && PitchClass(note[..|note| - 1]).Some?
    ensures r.Err? ==> r.error == InvalidNote
    ensures r.Ok? ==> r.value < 120
    ensures r.Ok? ==> DigitChar(r.value / 12) == note[|note| - 1]
    ensures r.Ok? ==> var name := note[..|note| - 1];
                      NOTES[2 * (r.value % 12)] == name || NOTES[2 * (r.value % 12) + 1] == name
  {
    if |note| == 0 then Err(InvalidNote)
    else
      var name := note[..|note| - 1];
      match (DigitValue(note[|note| - 1]), PitchClass(name))
      case (Some(octave), Some(semitone)) =>
        var n := 12 * octave + semitone;
        assert n / 12 == octave && n % 12 == semitone;
        Ok(n)
      case _ => Err(InvalidNote)
  }

  /**
   * `from_midi_note`: always the sharp spelling, then the octave in decimal.
   * The leading spelling names the note's semitone, and an octave below 10 is
   * the last character alone.
   */
  function FromMidiNote(n: nat): (s: string)
    ensures var k := |NOTES[2 * (n % 12)]|;
            |s| > k && s[..k] == NOTES[2 * (n % 12)] && PitchClass(s[..k]) == Some(n % 12) &&
            s[k..] == Decimal(n / 12)
    ensures n < 120 ==> |s| == |NOTES[2 * (n % 12)]| + 1 && s[|s| - 1] == DigitChar(n / 12)
  {
    SharpSpellingPitchClass(n % 12);
    var name, octave := NOTES[2 * (n % 12)], Decimal(n / 12);
    assert (name + octave)[..|name|] == name && (name + octave)[|name|..] == octave;
    name + octave
  }

  lemma SpellingC()
    ensures PitchClass("C") == Some(0)
  {
  }

  lemma SpellingCSharp()
    ensures PitchClass("C#") == Some(1)
  {
  }

  lemma SpellingD()
    ensures PitchClass("D") == Some(2)
  {
  }

  lemma SpellingDSharp()
    ensures PitchClass("D#") == Some(3)
  {
  }

  lemma SpellingE()
    ensures PitchClass("E") == Some(4)
  {
  }

  lemma SpellingF()
    ensures PitchClass("F") == Some(5)
  {
  }

  lemma SpellingFSharp()
    ensures PitchClass("F#") == Some(6)
  {
  }

  lemma SpellingG()
    ensures PitchClass("G") == Some(7)
  {
  }

  lemma SpellingGSharp()
    ensures PitchClass("G#") == Some(8)
  {
  }

  lemma SpellingA()
    ensures PitchClass("A") == Some(9)
  {
  }

  lemma SpellingASharp()
    ensures PitchClass("A#") == Some(10)
  {
  }

  lemma SpellingB()
    ensures PitchClass("B") == Some(11)
  {
  }

  /** The sharp spelling of semitone k names semitone k. */
  lemma SharpSpellingPitchClass(k: nat)
    requires k < 12
    ensures PitchClass(NOTES[2 * k]) == Some(k)
  {
    if k < 6 {
      LowSharpSpelling(k);
    } else {
      HighSharpSpelling(k);
    }
  }

  lemma LowSharpSpelling(k: nat)
    requires k < 6
    ensures PitchClass(NOTES[2 * k]) == Some(k)
  {
    if k == 0 {
      assert PitchClass(NOTES[0]) == Some(0) by {
        SpellingC();
        assert NOTES[0] == "C";
      }
    } else if k == 1 {
      assert PitchClass(NOTES[2]) == Some(1) by {
        SpellingCSharp();
        assert NOTES[2] == "C#";
      }
    } else if k == 2 {
      assert PitchClass(NOTES[4]) == Some(2) by {
        SpellingD();
        assert NOTES[4] == "D";
      }
    } else if k == 3 {
      assert PitchClass(NOTES[6]) == Some(3) by {
        SpellingDSharp();
        assert NOTES[6] == "D#";
      }
    } else if k == 4 {
      assert PitchClass(NOTES[8]) == Some(4) by {
        SpellingE();
        assert NOTES[8] == "E";
      }
    } else {
      assert PitchClass(NOTES[10]) == Some(5) by {
        SpellingF();
        assert NOTES[10] == "F";
      }
    }
  }

  lemma HighSharpSpelling(k: nat)
    requires 6 <= k < 12
    ensures PitchClass(NOTES[2 * k]) == Some(k)
  {
    if k == 6 {
      assert PitchClass(NOTES[12]) == Some(6) by {
        SpellingFSharp();
        assert NOTES[12] == "F#";
      }
    } else if k == 7 {
      assert PitchClass(NOTES[14]) == Some(7) by {
        SpellingG();
        assert NOTES[14] == "G";
      }
    } else if k == 8 {
      assert PitchClass(NOTES[16]) == Some(8) by {
        SpellingGSharp();
        assert NOTES[16] == "G#";
      }
    } else if k == 9 {
      assert PitchClass(NOTES[18]) == Some(9) by {
        SpellingA();
        assert NOTES[18] == "A";
      }
    } else if k == 10 {
      assert PitchClass(NOTES[20]) == Some(10) by {
        SpellingASharp();
        assert NOTES[20] == "A#";
      }
    } else {
      assert PitchClass(NOTES[22]) == Some(11) by {
        SpellingB();
        assert NOTES[22] == "B";
      }
    }
  }

  /** `to_midi_note(from_midi_note(n)) == n` for every note with a one-digit octave. */
  lemma FromMidiNoteRoundTrip(n: nat)
    requires n < 120
    ensures ToMidiNote(FromMidiNote(n)) == Ok(n)
  {
    var s := FromMidiNote(n);
    assert s[..|s| - 1] == NOTES[2 * (n % 12)];
    assert DigitValue(s[|s| - 1]) == Some(n / 12);
    assert PitchClass(s[..|s| - 1]) == Some(n % 12);
    assert n == 12 * (n / 12) + n % 12;
  }

  /** Exactly a table spelling followed by one decimal digit is accepted. */
  lemma ToMidiNoteAccepts(note: string)
    ensures ToMidiNote(note).Ok? <==>
            |note| >= 1 && '0' <= note[|note| - 1] <= '9' && note[..|note| - 1] in NOTES
  {
    if |note| >= 1 {
      KnownSpellings(note[..|note| - 1]);
    }
  }

  /** Any accepted spelling comes back as the sharp spelling of the same number. */
  lemma ToMidiNoteRespelled(note: string)
    requires ToMidiNote(note).Ok?
    ensures ToMidiNote(FromMidiNote(ToMidiNote(note).value)) == ToMidiNote(note)
    ensures var sharp := FromMidiNote(ToMidiNote(note).value);
            sharp[|sharp| - 1] == note[|note| - 1]
  {
    FromMidiNoteRoundTrip(ToMidiNote(note).value);
  }
}
