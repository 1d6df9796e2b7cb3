/** Semitone-to-note-name mapping of `freq_para_nota`.

    The semitone count `h` is the distance from C0 (four and three quarter
    octaves, 57 semitones, below A4 = 440 Hz) in equal-tempered
    semitones. Its computation from a frequency, a rounded base-2
    logarithm in floating point, is a parameter `semitone` here; everything
    after it is the integer arithmetic below: the octave is `h` divided by
    12 rounded down, the pitch class is `h` modulo 12 taken non-negative,
    and the note name is the pitch class's name followed by the octave in
    decimal. Dafny's `/` and `%` agree with Python's `//` and `%` for the
    positive divisor 12, including negative `h`. */
module NoteNames {
  import opened Numerals

  /** The chromatic pitch-class names, starting at C. */
  const PitchNames: seq<string> := ["C", "C#", "D", "D#", "E", "F", "F#", "G", "G#", "A", "A#", "B"]

  /** Octave number of semitone `h`: the floor of `h / 12`. */
  function Octave(h: int): (o: int)
    ensures 12 * o <= h < 12 * o + 12
  {
    h / 12
  }

  /** Pitch-class index of semitone `h`; always a valid index into the
      name table, also for negative `h`, and together with the octave it
      gives back `h`. */
  function PitchIndex(h: int): (n: nat)
    ensures n < |PitchNames|
    ensures h == 12 * Octave(h) + n
  {
    h % 12
  }

  /** The note name of semitone `h`, such as "A4" or "C#-1": the
      pitch-class name followed by a non-empty octave number. */
  function NoteName(h: int): (s: string)
    ensures PitchNames[PitchIndex(h)] < s
  {
    PitchNames[PitchIndex(h)] + IntToString(Octave(h))
  }

  /** `freq_para_nota`: the name of the note nearest to `freq`, where
      `semitone` stands for the rounded logarithmic step from C0. */
  function FreqToNote(semitone: real -> int, freq: real): (s: string)
    requires freq > 0.0
    ensures PitchNames[PitchIndex(semitone(freq))] < s
  {
    NoteName(semitone(freq))
  }

  /** Position of `name` in the table, if it is there. */
  function IndexOfName(name: string): (r: Option<nat>)
    ensures r.Some? ==> r.value < |PitchNames| && PitchNames[r.value] == name
    ensures r.None? ==> name !in PitchNames
  {
    IndexOfNameFrom(name, 0)
  }

  function IndexOfNameFrom(name: string, i: nat): (r: Option<nat>)
    requires i <= |PitchNames|
    ensures r.Some? ==> i <= r.value < |PitchNames| && PitchNames[r.value] == name
    ensures r.None? ==> forall j :: i <= j < |PitchNames| ==> PitchNames[j] != name
    decreases |PitchNames| - i
  {
    if i == |PitchNames| then None
    else if PitchNames[i] == name then Some(i)
    else IndexOfNameFrom(name, i + 1)
  }

  /** Reads a note name back to its semitone count: a pitch class (one
      letter, or a letter and '#') followed by a decimal octave. */
  function ParseNoteName(s: string): Option<int> {
    if |s| == 0 then None
    else
      var split := if |s| >= 2 && s[1] == '#' then 2 else 1;
      match IndexOfName(s[..split])
      case None => None
      case Some(n) =>
        match ParseInt(s[split..])
        case None => None
        case Some(o) => Some(12 * o + n)
  }

  /** Shape of the name table: every name is a letter alone or a letter
      followed by '#', and no two names are equal. */
  lemma PitchNamesShape()
    ensures forall n :: 0 <= n < |PitchNames| ==>
      1 <= |PitchNames[n]| <= 2 && PitchNames[n][0] != '#' &&
      (|PitchNames[n]| == 2 ==> PitchNames[n][1] == '#')
    ensures forall m, n :: 0 <= m < n < |PitchNames| ==> PitchNames[m] != PitchNames[n]
  {
  }

  /** A pitch-class name followed by a decimal octave reads back to the
      semitone count `12 * o + n`. */
  lemma ParseNamed(n: nat, o: int)
    requires n < |PitchNames|
    ensures ParseNoteName(PitchNames[n] + IntToString(o)) == Some(12 * o + n)
  {
    var name, digits := PitchNames[n], IntToString(o);
    var s := name + digits;
    PitchNamesShape();
    var split := if |s| >= 2 && s[1] == '#' then 2 else 1;
    assert split == |name| by {
      if |name| == 1 {
        assert s[1] == digits[0];
      }
    }
    assert s[..split] == name;
    assert s[split..] == digits;
    assert IndexOfName(name) == Some(n);
    IntRoundTrip(o);
  }

  /** The note name determines the semitone count: reading it back gives `h`. */
  lemma NoteNameRoundTrip(h: int)
    ensures ParseNoteName(NoteName(h)) == Some(h)
  {
    ParseNamed(PitchIndex(h), Octave(h));
  }

  /** Distinct semitone counts have distinct names. */
  lemma NoteNameInjective(h1: int, h2: int)
    ensures NoteName(h1) == NoteName(h2) <==> h1 == h2
  {
    NoteNameRoundTrip(h1);
    NoteNameRoundTrip(h2);
  }

  /** Moving `k` octaves (12 * k semitones) keeps the pitch-class name and
      moves the octave number by exactly `k`. */
  lemma OctaveShift(h: int, k: int)
    ensures PitchIndex(h + 12 * k) == PitchIndex(h)
    ensures Octave(h + 12 * k) == Octave(h) + k
    ensures NoteName(h + 12 * k) == PitchNames[PitchIndex(h)] + IntToString(Octave(h) + k)
  {
  }

  /** A frequency twice as high has the same pitch class one octave up,
      given a semitone step that adds 12 when the frequency doubles. */
  lemma FreqToNoteOctaveDoubling(semitone: real -> int, freq: real)
    requires freq > 0.0
    requires semitone(2.0 * freq) == semitone(freq) + 12
    ensures FreqToNote(semitone, 2.0 * freq) ==
      PitchNames[PitchIndex(semitone(freq))] + IntToString(Octave(semitone(freq)) + 1)
  {
    OctaveShift(semitone(freq), 1);
  }

  /** The reference pitches: A4 is 57 semitones above C0, middle C is 48;
      the octave below C0 is octave -1. */
  lemma ReferencePitches()
    ensures NoteName(57) == "A4"
    ensures NoteName(48) == "C4"
    ensures NoteName(0) == "C0"
    ensures NoteName(-1) == "B-1"
    ensures NoteName(-12) == "C-1"
  {
  }
}
