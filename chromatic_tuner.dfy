/**
 * The chromatic tuner's arithmetic: the nearest equal-tempered note to a
 * frequency (A4 = 440 Hz = MIDI 69), its name and octave, the deviation in
 * cents, the display string and the accuracy band.
 */
module ChromaticTuner {
  import opened Numerics
  import opened Text

  /** `NOTE_NAMES`: the twelve pitch classes from C, spelled with sharps. */
  const NOTE_NAMES: seq<string> := ["C", "C#", "D", "D#", "E", "F", "F#", "G", "G#", "A", "A#", "B"]

  datatype ChromaticNote = ChromaticNote(name: string, octave: int, frequency: real, midi: int)

  datatype Reading = Reading(note: ChromaticNote, cents: int)

  /** `midiToFrequency`. */
  function MidiToFrequency(m: MathLib, midi: int): real
  {
    440.0 * m.exp2((midi - 69) as real / 12.0)
  }

  /** `((midi % 12) + 12) % 12` with JavaScript's truncating remainder. */
  function NoteIndex(midi: int): int
  {
    JsRem(JsRem(midi, 12) + 12, 12)
  }

  /** `Math.floor(midi / 12) - 1`. */
  function Octave(midi: int): int
  {
    Floor(midi as real / 12.0) - 1
  }

  /** The fractional MIDI number of a frequency. */
  function MidiFloat(m: MathLib, frequency: real): real
  {
    69.0 + 12.0 * m.log2(frequency / 440.0)
  }

  /** `findClosestChromaticNote`. */
  function FindClosestChromaticNote(m: MathLib, frequency: real): Reading
  {
    var midiFloat := MidiFloat(m, frequency);
    var midiRounded := Round(midiFloat);
    var cents := Round((midiFloat - midiRounded as real) * 100.0);
    var noteIndex := NoteIndex(midiRounded);
    NoteIndexSpec(midiRounded);
    var note := ChromaticNote(NOTE_NAMES[noteIndex], Octave(midiRounded), MidiToFrequency(m, midiRounded), midiRounded);
    Reading(note, cents)
  }

  /**
   * The double truncating remainder is the mathematical remainder: it lies in
   * 0..11 even for negative MIDI numbers, and the octave is the floor
   * quotient less one.
   */
  lemma NoteIndexSpec(midi: int)
    ensures 0 <= NoteIndex(midi) < 12
    ensures NoteIndex(midi) == midi % 12
    ensures Octave(midi) == midi / 12 - 1
  {
    var q, r := midi / 12, midi % 12;
    assert midi == 12 * q + r && 0 <= r < 12;
    if midi >= 0 {
      assert JsRem(midi, 12) == r;
      assert (r + 12) % 12 == r;
    } else {
      var n := -midi;
      var t := n % 12;
      assert JsRem(midi, 12) == -t;
      assert n == 12 * (n / 12) + t;
      if t == 0 {
        assert midi == 12 * (-(n / 12));
        assert r == 0;
      } else {
        assert midi == 12 * (-(n / 12) - 1) + (12 - t);
        assert r == 12 - t;
      }
      assert (-t + 12) % 12 == r;
    }
    FloorOfQuotient(midi);
  }

  lemma FloorOfQuotient(midi: int)
    ensures Floor(midi as real / 12.0) == midi / 12
  {
    var q := midi / 12;
    assert q as real <= midi as real / 12.0 < q as real + 1.0;
  }

  /** A rounded MIDI number 12 higher names the same pitch class one octave up. */
  lemma OctaveShift(midi: int)
    ensures NoteIndex(midi + 12) == NoteIndex(midi)
    ensures Octave(midi + 12) == Octave(midi) + 1
  {
    NoteIndexSpec(midi);
    NoteIndexSpec(midi + 12);
  }

  /** MIDI 60 is C4, MIDI 69 is A4. */
  lemma MiddleCAndConcertA()
    ensures NOTE_NAMES[NoteIndex(60)] == "C" && Octave(60) == 4
    ensures NOTE_NAMES[NoteIndex(69)] == "A" && Octave(69) == 4
  {
    NoteIndexSpec(60);
    NoteIndexSpec(69);
  }

  /**
   * The cents deviation always lies in [-50, 50]: the MIDI number is rounded
   * to the nearest whole one before the remainder is scaled and rounded.
   */
  lemma CentsRange(m: MathLib, frequency: real)
    ensures -50 <= FindClosestChromaticNote(m, frequency).cents <= 50
  {
    var midiFloat := MidiFloat(m, frequency);
    var midiRounded := Round(midiFloat);
    var x := (midiFloat - midiRounded as real) * 100.0;
    assert -50.0 <= x < 50.0;
    var c := Round(x);
    assert x - 0.5 < c as real <= x + 0.5;
  }

  /** 440 Hz reads as A4, MIDI 69, exactly in tune, with frequency 440. */
  lemma ConcertAReading(m: MathLib)
    requires m.Lawful()
    ensures FindClosestChromaticNote(m, 440.0) == Reading(ChromaticNote("A", 4, 440.0, 69), 0)
  {
    assert 440.0 / 440.0 == 1.0;
    assert MidiFloat(m, 440.0) == 69.0;
    assert Round(69.0) == 69;
    assert Round(0.0) == 0;
    MiddleCAndConcertA();
    assert (69 - 69) as real / 12.0 == 0.0;
  }

  /**
   * Doubling a frequency moves the reading up exactly one octave: the same
   * name and cents, the octave and the MIDI number one octave higher.
   */
  lemma DoublingRaisesOneOctave(m: MathLib, frequency: real)
    requires m.Lawful() && frequency > 0.0
    ensures var lo, hi := FindClosestChromaticNote(m, frequency), FindClosestChromaticNote(m, 2.0 * frequency);
      && hi.note.name == lo.note.name
      && hi.note.octave == lo.note.octave + 1
      && hi.note.midi == lo.note.midi + 12
      && hi.cents == lo.cents
  {
    var x := frequency / 440.0;
    assert (2.0 * frequency) / 440.0 == 2.0 * x;
    assert m.log2(2.0 * x) == m.log2(x) + 1.0;
    var a := MidiFloat(m, frequency);
    assert MidiFloat(m, 2.0 * frequency) == a + 12 as real;
    RoundShift(a, 12);
    OctaveShift(Round(a));
    var r := Round(a);
    assert (a + 12 as real) - (r + 12) as real == a - r as real;
  }

  /** `noteDisplay`: the name, followed by the octave when asked for. */
  function NoteDisplay(note: ChromaticNote, includeOctave: bool): string
  {
    if includeOctave then note.name + IntToString(note.octave) else note.name
  }

  /**
   * With octaves, different notes of the table are displayed differently;
   * without, the display is the name alone.
   */
  lemma NoteDisplayInjective(a: ChromaticNote, b: ChromaticNote)
    requires a.name in NOTE_NAMES && b.name in NOTE_NAMES
    requires NoteDisplay(a, true) == NoteDisplay(b, true)
    ensures a.name == b.name && a.octave == b.octave
    ensures NoteDisplay(a, false) == a.name
  {
    var da, db := NoteDisplay(a, true), NoteDisplay(b, true);
    var oa, ob := IntToString(a.octave), IntToString(b.octave);
    assert forall n :: n in NOTE_NAMES ==> (|n| == 1 || (|n| == 2 && n[1] == '#'));
    if |a.name| == |b.name| {
      assert a.name == da[..|a.name|] == db[..|b.name|] == b.name;
      assert oa == da[|a.name|..] == db[|b.name|..] == ob;
      IntToStringInjective(a.octave, b.octave);
    } else if |a.name| == 1 {
      SharpIsNotAnOctave(a.name, a.octave, b.name, b.octave);
    } else {
      SharpIsNotAnOctave(b.name, b.octave, a.name, a.octave);
    }
  }

  /** After a one-letter name comes the octave; after a sharp name, its `#`. */
  lemma SharpIsNotAnOctave(natural: string, o1: int, sharp: string, o2: int)
    requires |natural| == 1 && |sharp| == 2 && sharp[1] == '#'
    ensures natural + IntToString(o1) != sharp + IntToString(o2)
  {
    var o := IntToString(o1);
    assert |o| >= 1 && (IsDigit(o[0]) || o[0] == '-');
    assert (natural + o)[1] == o[0];
    assert (sharp + IntToString(o2))[1] == '#';
  }

  datatype Accuracy = InTune | Close | Off

  /** `tuningAccuracy`. */
  function TuningAccuracy(cents: int): Accuracy
  {
    var absCents := Abs(cents);
    if absCents <= 5 then InTune
    else if absCents <= 15 then Close
    else Off
  }

  /** The three bands by absolute deviation, the same for sharp and flat. */
  lemma TuningAccuracyBands(cents: int)
    ensures TuningAccuracy(cents) == InTune <==> -5 <= cents <= 5
    ensures TuningAccuracy(cents) == Close <==> 5 < Abs(cents) <= 15
    ensures TuningAccuracy(cents) == Off <==> Abs(cents) > 15
    ensures TuningAccuracy(-cents) == TuningAccuracy(cents)
  {
  }
}
