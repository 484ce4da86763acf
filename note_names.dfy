// Note names as the piano roll's keyboard and the main window's status line
// print them: pitch class letter (with '#'), then the octave, counting C4 as
// MIDI 60. Python's `//` and `%` by 12 floor, which for a positive divisor
// is what Dafny's `/` and `%` do as well.
module NoteNames {
  import opened Text

  /** The twelve pitch classes from C, sharps spelled with '#'. */
  const PitchClasses: seq<string> := ["C", "C#", "D", "D#", "E", "F", "F#", "G", "G#", "A", "A#", "B"]

  /** `midi_to_name(midi)` and `_midi_name(midi)`: pitch class, then `midi // 12 - 1`. */
  function NoteName(midi: int): string
  {
    PitchClasses[midi % 12] + IntToString(midi / 12 - 1)
  }

  /** Middle C and the ends of the piano's range. */
  lemma WellKnownNames()
    ensures NoteName(60) == "C4"
    ensures NoteName(21) == "A0"
    ensures NoteName(108) == "C8"
    ensures NoteName(61) == "C#4"
  {
    assert NatToString(4) == "4";
    assert NatToString(0) == "0";
    assert NatToString(8) == "8";
  }

  /** A name starts with the pitch class, and the rest reads back, with `int()`, as the octave. */
  lemma NoteNameParts(midi: int)
    ensures StartsWith(NoteName(midi), PitchClasses[midi % 12])
    ensures ParseInt(NoteName(midi)[|PitchClasses[midi % 12]|..]) == Some(midi / 12 - 1)
  {
    var pc := PitchClasses[midi % 12];
    var octave := IntToString(midi / 12 - 1);
    assert NoteName(midi)[..|pc|] == pc;
    assert NoteName(midi)[|pc|..] == octave;
    ParseIntToString(midi / 12 - 1);
  }

  /** Printed integers start with a digit or a minus sign, never with '#'. */
  lemma IntToStringHead(n: int)
    ensures IntToString(n)[0] != '#'
  {
    if n >= 0 {
      assert IsDigit(NatToString(n)[0]);
    }
  }

  /** A name's second character is '#' exactly when its pitch class is a sharp, which fixes where the octave begins. */
  lemma SharpMarksSplit(midi: int)
    ensures |NoteName(midi)| >= 2
    ensures NoteName(midi)[1] == '#' <==> |PitchClasses[midi % 12]| == 2
  {
    var pc := PitchClasses[midi % 12];
    var octave := IntToString(midi / 12 - 1);
    IntToStringHead(midi / 12 - 1);
    PitchClassLength(midi % 12);
    if |pc| == 2 {
      assert pc[1] == '#';
      assert NoteName(midi)[1] == pc[1];
    } else {
      assert NoteName(midi)[1] == octave[0];
    }
  }

  /** A pitch class is a letter, perhaps followed by '#'. */
  lemma PitchClassLength(k: int)
    requires 0 <= k < 12
    ensures 1 <= |PitchClasses[k]| <= 2
  {
  }

  /** The pitch classes are twelve different strings. */
  lemma PitchClassesDistinct(j: int, k: int)
    requires 0 <= j < 12 && 0 <= k < 12
    requires PitchClasses[j] == PitchClasses[k]
    ensures j == k
  {
  }

  /** Different pitches get different names. */
  lemma NoteNameInjective(a: int, b: int)
    requires NoteName(a) == NoteName(b)
    ensures a == b
  {
    var pa, pb := PitchClasses[a % 12], PitchClasses[b % 12];
    var oa, ob := IntToString(a / 12 - 1), IntToString(b / 12 - 1);
    var name := NoteName(a);
    SharpMarksSplit(a);
    SharpMarksSplit(b);
    PitchClassLength(a % 12);
    PitchClassLength(b % 12);
    assert |pa| == |pb|;
    assert pa == name[..|pa|] == pb;
    PitchClassesDistinct(a % 12, b % 12);
    assert oa == name[|pa|..] == ob;
    IntToStringInjective(a / 12 - 1, b / 12 - 1);
  }
}
