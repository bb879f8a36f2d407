/**
  The `Note` value of the tuner: an integer position `n` on the
  equal-tempered chromatic scale, with the reference frequency and the
  reference position it is measured against. A note is never changed after
  it is built, so it is a datatype here.

  `toString` indexes a 12-entry name table with the host language's
  remainder operator, which truncates toward zero: for a negative position
  that is not a multiple of 12 the index is negative, the table lookup
  yields no name, and the call fails. `ToString` keeps that failure as the
  `LookupFailed` outcome.
 */
module Notes {
  import opened Decimal

  /** The note letters, starting at A, one per semitone. */
  const Names: seq<string> := ["A", "A#", "B", "C", "C#", "D", "D#", "E", "F", "F#", "G", "G#"]

  datatype Note = Note(n: int, freqRef: real, nRef: int)

  /** What `toString` produces: the text, or the negative index the table lookup failed on. */
  datatype NameOutcome = Named(text: string) | LookupFailed(index: int)

  /** A note built with the default reference: concert A (440 Hz) at position 48. */
  function DefaultNote(n: int): (note: Note)
    ensures note.n == n && note.freqRef == 440.0 && note.nRef == 48
  {
    Note(n, 440.0, 48)
  }

  /**
    The table index `toString` uses: the host language's `n % 12`, the
    remainder of a division truncated toward zero, which takes the sign of `n`.
   */
  function NameIndex(n: int): (i: int)
    ensures -12 < i < 12
    ensures (n - i) % 12 == 0
    ensures n >= 0 ==> i >= 0
    ensures n <= 0 ==> i <= 0
  {
    if n >= 0 then n % 12 else -((-n) % 12)
  }

  /** The octave number, the floor of (n + 9) / 12: octaves begin at C, three semitones above A. */
  function Octave(n: int): (o: int)
    ensures 12 * o <= n + 9 < 12 * o + 12
  {
    (n + 9) / 12
  }

  /** `Note.toString`: the note letter followed by the octave number. */
  function ToString(note: Note): (r: NameOutcome)
    ensures r.Named? <==> note.n >= 0 || note.n % 12 == 0
    ensures r.Named? ==> r.text == Names[note.n % 12] + IntText(Octave(note.n))
    ensures r.LookupFailed? ==> -12 < r.index < 0 && r.index == note.n % 12 - 12
  {
    var i := NameIndex(note.n);
    if 0 <= i < |Names| then Named(Names[i] + IntText(Octave(note.n)))
    else LookupFailed(i)
  }

  /** `Note.toCents`: one hundred cents per semitone position. */
  function ToCents(note: Note): (r: int)
    ensures r % 100 == 0 && r / 100 == note.n
  {
    100 * note.n
  }

  /**
    `Note.toHertz`: the reference frequency scaled by two to the power of
    the distance from the reference position in twelfths. The power
    function of the host is a parameter (`pow(2.0, e)`).
   */
  function ToHertz(note: Note, pow: (real, real) -> real): (hz: real)
    ensures note.n == note.nRef && pow(2.0, 0.0) == 1.0 ==> hz == note.freqRef
  {
    note.freqRef * pow(2.0, (note.n - note.nRef) as real / 12.0)
  }

  /** With the default reference, position 48 sounds at 440 Hz whenever pow(2, 0) is 1. */
  lemma DefaultReferenceHertz(pow: (real, real) -> real)
    requires pow(2.0, 0.0) == 1.0
    ensures ToHertz(DefaultNote(48), pow) == 440.0
  {
  }

  /** The default reference position is named A4, position 0 is A0, position -12 is A-1. */
  lemma DefaultNames()
    ensures ToString(DefaultNote(48)) == Named("A4")
    ensures ToString(DefaultNote(0)) == Named("A0")
    ensures ToString(DefaultNote(-12)) == Named("A-1")
    ensures ToString(DefaultNote(-1)) == LookupFailed(-1)
  {
  }

  /**
    Twelve semitones up keeps the letter and raises the octave by exactly
    one, wherever the name exists.
   */
  lemma OctaveShift(note: Note)
    requires note.n >= 0 || note.n % 12 == 0
    ensures ToString(note).Named?
    ensures ToString(note.(n := note.n + 12)) == Named(Names[note.n % 12] + IntText(Octave(note.n) + 1))
  {
    var up := note.(n := note.n + 12);
    assert up.n % 12 == note.n % 12;
    assert Octave(up.n) == Octave(note.n) + 1;
    assert up.n >= 0 || up.n % 12 == 0;
  }

  /** The octave number goes up by one exactly at the letter C, and stays the same otherwise. */
  lemma OctaveStepsAtC(n: int)
    ensures Names[n % 12] == "C" <==> n % 12 == 3
    ensures Octave(n) == if n % 12 == 3 then Octave(n - 1) + 1 else Octave(n - 1)
  {
  }

  /** Below zero and off a multiple of 12, the truncated remainder is -11..-1 and the name lookup fails on it. */
  lemma NegativeNameFails(note: Note)
    requires note.n < 0 && note.n % 12 != 0
    ensures -11 <= NameIndex(note.n) <= -1
    ensures ToString(note) == LookupFailed(NameIndex(note.n))
  {
  }

  /** Cents grow by exactly 100 per semitone, for negative positions too. */
  lemma CentsStep(a: Note, b: Note)
    ensures ToCents(b) - ToCents(a) == 100 * (b.n - a.n)
  {
  }

  /** The letter of a name, read back as its table index. */
  function LetterIndex(letter: string): (r: Option<nat>)
    ensures r.Some? ==> r.value < |Names| && Names[r.value] == letter
    ensures r.None? ==> letter !in Names
  {
    if letter == "A" then Some(0) else if letter == "A#" then Some(1)
    else if letter == "B" then Some(2) else if letter == "C" then Some(3)
    else if letter == "C#" then Some(4) else if letter == "D" then Some(5)
    else if letter == "D#" then Some(6) else if letter == "E" then Some(7)
    else if letter == "F" then Some(8) else if letter == "F#" then Some(9)
    else if letter == "G" then Some(10) else if letter == "G#" then Some(11)
    else None
  }

  /** Reads a note name back into the position it names: the partner of `ToString`. */
  function PositionOfName(s: string): Option<int> {
    var split := if |s| >= 2 && s[1] == '#' then 2 else 1;
    if |s| < split then None
    else match (LetterIndex(s[..split]), ParseInt(s[split..]))
      case (Some(i), Some(o)) => Some(12 * o + (i + 9) % 12 - 9)
      case _ => None
  }

  /** The letter index and the octave together determine the position. */
  lemma PositionFromParts(n: int)
    ensures 12 * Octave(n) + (n % 12 + 9) % 12 - 9 == n
  {
  }

  /** Every name `ToString` produces reads back as the position it was made from. */
  lemma NameRoundTrip(note: Note)
    requires ToString(note).Named?
    ensures PositionOfName(ToString(note).text) == Some(note.n)
  {
    var i := note.n % 12;
    var letter := Names[i];
    var octave := IntText(Octave(note.n));
    var s := ToString(note).text;
    assert s == letter + octave;
    var split := if |s| >= 2 && s[1] == '#' then 2 else 1;
    assert split == |letter| by {
      if |letter| == 1 {
        assert s[1] == octave[0];
      }
    }
    assert s[..split] == letter && s[split..] == octave;
    IntTextRoundTrip(Octave(note.n));
    PositionFromParts(note.n);
  }

  /** Distinct positions always have distinct names: a name identifies its note. */
  lemma NamesIdentifyPositions(a: Note, b: Note)
    requires ToString(a).Named? && ToString(b).Named?
    ensures ToString(a) == ToString(b) <==> a.n == b.n
  {
    NameRoundTrip(a);
    NameRoundTrip(b);
  }
}
