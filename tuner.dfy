/**
 * The chromatic tuner page.  Each frame reads the detector; a pitch is mapped
 * to the nearest equal-tempered note, its cents offset joins a history of at
 * most four readings, and the displayed cents is the rounded mean of that
 * history.  A detection also leaves a hold record; a frame with no pitch
 * clears the display only while there is no hold record.
 *
 * The page's state is a `Tuner` value and each event a pure function on it;
 * the class `TunerSession` keeps the same state in fields, with the history
 * a sequence its methods push onto and shift, and is proved to follow the
 * functions.
 */
module Tuner {
  import opened Wrappers
  import opened Numerics
  import opened ChromaticTuner
  import PitchDetection
  import Yin

  /** Number of cents readings averaged for the display. */
  const HISTORY_LENGTH: nat := 4

  /** The error shown when the microphone cannot be opened: the iOS wording or the desktop one, and the cause. */
  datatype TunerError = TunerError(ios: bool, detail: string)

  datatype Tuner = Tuner(
    listening: bool,
    note: Option<ChromaticNote>,
    cents: int,
    frequency: Option<real>,
    error: Option<TunerError>,
    history: seq<int>,                // `centsHistoryRef.current`
    hold: Option<ChromaticNote>)      // `noteHoldRef.current`; the timer id is not modelled

  const Initial: Tuner := Tuner(false, None, 0, None, None, [], None)

  // ---------------------------------------------------------------- cents history

  /** `history.push(c); if (history.length > 4) history.shift()`. */
  function Push(history: seq<int>, c: int): seq<int>
  {
    var h := history + [c];
    if |h| > HISTORY_LENGTH then h[1..] else h
  }

  /** The most recent at most four readings of `readings`, oldest first. */
  function LastFour(readings: seq<int>): (r: seq<int>)
    ensures |r| <= HISTORY_LENGTH
  {
    if |readings| <= HISTORY_LENGTH then readings else readings[|readings| - HISTORY_LENGTH..]
  }

  /** Pushing onto the last four readings gives the last four readings with the new one. */
  lemma PushKeepsLastFour(readings: seq<int>, c: int)
    ensures Push(LastFour(readings), c) == LastFour(readings + [c])
  {
    var rs := readings + [c];
    if |readings| > HISTORY_LENGTH {
      assert LastFour(readings) + [c] == rs[|rs| - HISTORY_LENGTH - 1..];
      assert (LastFour(readings) + [c])[1..] == rs[|rs| - HISTORY_LENGTH..];
    }
  }

  /** The history after pushing each of `cs` in turn. */
  function PushAll(history: seq<int>, cs: seq<int>): seq<int>
    decreases |cs|
  {
    if cs == [] then history else PushAll(Push(history, cs[0]), cs[1..])
  }

  /**
   * Starting from the empty history (or any window of the last four), a run
   * of readings leaves exactly the most recent at most four, oldest first.
   */
  lemma {:induction false} HistoryIsLastFour(earlier: seq<int>, cs: seq<int>)
    ensures PushAll(LastFour(earlier), cs) == LastFour(earlier + cs)
    decreases |cs|
  {
    if cs == [] {
      assert earlier + cs == earlier;
    } else {
      PushKeepsLastFour(earlier, cs[0]);
      assert earlier + cs == (earlier + [cs[0]]) + cs[1..];
      HistoryIsLastFour(earlier + [cs[0]], cs[1..]);
    }
  }

  function Sum(h: seq<int>): int
  {
    if h == [] then 0 else Sum(h[..|h| - 1]) + h[|h| - 1]
  }

  /** `Math.round(history.reduce((a, b) => a + b, 0) / history.length)`. */
  function Smoothed(h: seq<int>): int
    requires |h| > 0
  {
    Round(Sum(h) as real / |h| as real)
  }

  lemma {:induction false} SumBounds(h: seq<int>, lo: int, hi: int)
    requires forall i :: 0 <= i < |h| ==> lo <= h[i] <= hi
    ensures lo * |h| <= Sum(h) <= hi * |h|
  {
    if h != [] {
      SumBounds(h[..|h| - 1], lo, hi);
    }
  }

  /**
   * The smoothed cents lies between any bounds of the history: between its
   * smallest and its largest reading.
   */
  lemma SmoothedBetween(h: seq<int>, lo: int, hi: int)
    requires |h| > 0 && forall i :: 0 <= i < |h| ==> lo <= h[i] <= hi
    ensures lo <= Smoothed(h) <= hi
  {
    SumBounds(h, lo, hi);
    var n := |h| as real;
    var s := Sum(h) as real;
    ProductAsReal(lo, |h|);
    ProductAsReal(hi, |h|);
    QuotientBetween(s, n, lo as real, hi as real);
  }

  /** Steady readings give that very reading. */
  lemma SmoothedOfSteadyReadings(h: seq<int>, c: int)
    requires |h| > 0 && forall i :: 0 <= i < |h| ==> h[i] == c
    ensures Smoothed(h) == c
  {
    SmoothedBetween(h, c, c);
  }

  // ---------------------------------------------------------------- events

  /** `if (freq)`: no pitch, or a zero frequency, is falsy. */
  predicate Truthy(freq: Option<real>)
  {
    freq.Some? && freq.value != 0.0
  }

  /** One run of `analyzeRef.current` with the detector's frequency for this frame. */
  function Frame(m: MathLib, s: Tuner, freq: Option<real>): Tuner
  {
    if !s.listening then s
    else if Truthy(freq) then
      var r := FindClosestChromaticNote(m, freq.value);
      var h := Push(s.history, r.cents);
      s.(frequency := Some(freq.value), history := h, cents := Smoothed(h),
         note := Some(r.note), hold := Some(r.note))
    else if s.hold.None? then
      s.(note := None, frequency := None, cents := 0, history := [])
    else s
  }

  /** The stop branch of `toggleListening`. */
  function Stop(s: Tuner): Tuner
  {
    s.(listening := false, note := None, frequency := None, cents := 0, error := None, history := [])
  }

  /** The start branch when the detector starts. */
  function Started(s: Tuner): Tuner
  {
    s.(error := None, listening := true)
  }

  /** The start branch when the detector refuses to start. */
  function StartFailed(s: Tuner, e: TunerError): Tuner
  {
    s.(error := Some(e))
  }

  /** What every reachable state satisfies: at most four readings, all of them and the display within +-50 cents. */
  predicate Valid(s: Tuner)
  {
    && |s.history| <= HISTORY_LENGTH
    && (forall i :: 0 <= i < |s.history| ==> -50 <= s.history[i] <= 50)
    && -50 <= s.cents <= 50
  }

  /**
   * A detection pushes its cents offset (at most four readings are kept) and
   * shows the rounded mean of the history, which stays within +-50 cents;
   * the note and frequency shown are the detection's.
   */
  lemma FrameKeepsValid(m: MathLib, s: Tuner, freq: Option<real>)
    requires Valid(s)
    ensures Valid(Frame(m, s, freq))
    ensures s.listening && Truthy(freq) ==>
      var r := FindClosestChromaticNote(m, freq.value);
      var t := Frame(m, s, freq);
      && t.history == Push(s.history, r.cents) && t.history[|t.history| - 1] == r.cents
      && t.note == Some(r.note) && t.frequency == freq
  {
    if s.listening && Truthy(freq) {
      var r := FindClosestChromaticNote(m, freq.value);
      CentsRange(m, freq.value);
      var h := Push(s.history, r.cents);
      assert forall i :: 0 <= i < |h| ==> -50 <= h[i] <= 50;
      SmoothedBetween(h, -50, 50);
    }
  }

  /** Every event keeps the state valid. */
  lemma EventsKeepValid(s: Tuner, e: TunerError)
    requires Valid(s)
    ensures Valid(Stop(s)) && Valid(Started(s)) && Valid(StartFailed(s, e))
    ensures Valid(Initial)
  {
  }

  /** With no pitch and no hold record the display is cleared and the history emptied. */
  lemma SilenceWithoutHoldClears(m: MathLib, s: Tuner, freq: Option<real>)
    requires s.listening && !Truthy(freq) && s.hold.None?
    ensures var t := Frame(m, s, freq);
      t.note == None && t.frequency == None && t.cents == 0 && t.history == [] && t.hold == None
  {
  }

  /** Stopping clears note, frequency, cents, error and history. */
  lemma StopClears(s: Tuner)
    ensures var t := Stop(s);
      !t.listening && t.note == None && t.frequency == None && t.cents == 0 && t.error == None && t.history == []
  {
  }

  /**
   * The frequencies the detector reports to the tuner lie in 180..2200 Hz:
   * the detector has no constructor, so the page's wider range is not used.
   */
  lemma DisplayedFrequencyInDetectorRange(m: MathLib, s: Tuner, samples: seq<real>,
                                          sampleRate: PitchDetection.PositiveReal, ios: bool)
    requires s.frequency.Some? ==> Yin.MIN_FREQUENCY <= s.frequency.value <= Yin.MAX_FREQUENCY
    ensures var t := Frame(m, s, PitchDetection.FrameFrequency(samples, sampleRate, ios));
      t.frequency.Some? ==> Yin.MIN_FREQUENCY <= t.frequency.value <= Yin.MAX_FREQUENCY
  {
    PitchDetection.FrameFrequencyRange(samples, sampleRate, ios);
  }

  // ---------------------------------------------------------------- the hold record

  /** The timeout the page sets after each detection, as written: its callback does nothing. */
  function HoldTimeoutAsWritten(s: Tuner): Tuner
  {
    s
  }

  /**
   * As written, once a note has been detected the hold record is never
   * cleared: not by the timeout, not by stopping, not by starting again.  So
   * a silent frame never clears the display again: the last note stays on
   * screen while listening.
   */
  lemma HoldIsNeverCleared(m: MathLib, s: Tuner, freq: Option<real>, e: TunerError)
    requires s.hold.Some?
    ensures Frame(m, s, freq).hold.Some? && HoldTimeoutAsWritten(s).hold.Some?
    ensures Stop(s).hold.Some? && Started(s).hold.Some? && StartFailed(s, e).hold.Some?
    ensures !Truthy(freq) ==> Frame(m, s, freq) == s
  {
  }

  /**
   * Detect 440 Hz, then a silent frame: the note A4 stays on screen even
   * after the 1.5 s timeout has fired.
   */
  lemma StaleNoteAfterSilence(m: MathLib)
    requires m.Lawful()
    ensures var s1 := Frame(m, Started(Initial), Some(440.0));
      var s2 := Frame(m, HoldTimeoutAsWritten(s1), None);
      s2.note == s1.note == Some(ChromaticNote("A", 4, 440.0, 69))
  {
    ConcertAReading(m);
  }

  /** The timeout as evidently intended: when it fires, the hold record is dropped. */
  function HoldTimeout(s: Tuner): Tuner
  {
    s.(hold := None)
  }

  /**
   * With the timeout dropping the hold record, the first silent frame after
   * it clears the display and the history, and a new detection shows again.
   */
  lemma SilenceAfterTimeoutClears(m: MathLib, s: Tuner, freq: Option<real>)
    requires s.listening && !Truthy(freq)
    ensures var t := Frame(m, HoldTimeout(s), freq);
      t.note == None && t.frequency == None && t.cents == 0 && t.history == []
  {
  }

  // ---------------------------------------------------------------- display

  /** `(cents / 50) * 135` degrees when a note is shown, 0 otherwise. */
  function WheelRotation(s: Tuner): real
  {
    if s.note.Some? && s.listening then s.cents as real / 50.0 * 135.0 else 0.0
  }

  /** In a valid state the wheel turns at most 135 degrees either way, and 0 in tune. */
  lemma WheelRotationBounds(s: Tuner)
    requires Valid(s)
    ensures -135.0 <= WheelRotation(s) <= 135.0
    ensures s.cents == 0 ==> WheelRotation(s) == 0.0
  {
  }

  // ---------------------------------------------------------------- the page

  class TunerSession {
    var listening: bool
    var note: Option<ChromaticNote>
    var cents: int
    var frequency: Option<real>
    var error: Option<TunerError>
    var centsHistory: seq<int>
    var noteHold: Option<ChromaticNote>

    function Model(): Tuner
      reads this
    {
      Tuner(listening, note, cents, frequency, error, centsHistory, noteHold)
    }

    constructor ()
      ensures Model() == Initial
    {
      listening, note, cents, frequency, error := false, None, 0, None, None;
      centsHistory, noteHold := [], None;
    }

    /** `analyzeRef.current`, for a frame whose detector reading is `freq`. */
    method Analyze(m: MathLib, freq: Option<real>)
      requires Valid(Model())
      modifies this
      ensures Valid(Model()) && Model() == Frame(m, old(Model()), freq)
    {
      FrameKeepsValid(m, Model(), freq);
      if !listening {
        return;
      }
      if Truthy(freq) {
        var r := FindClosestChromaticNote(m, freq.value);
        frequency := freq;
        centsHistory := centsHistory + [r.cents];
        if |centsHistory| > HISTORY_LENGTH {
          centsHistory := centsHistory[1..];
        }
        cents := Smoothed(centsHistory);
        note := Some(r.note);
        noteHold := Some(r.note);
      } else if noteHold.None? {
        note := None;
        frequency := None;
        cents := 0;
        centsHistory := [];
      }
    }

    method StopListening()
      requires Valid(Model())
      modifies this
      ensures Valid(Model()) && Model() == Stop(old(Model()))
    {
      listening := false;
      note := None;
      frequency := None;
      cents := 0;
      error := None;
      centsHistory := [];
    }

    /** The start branch, given whether the detector started and, if not, the error shown. */
    method StartListening(started: bool, e: TunerError)
      requires Valid(Model())
      modifies this
      ensures Valid(Model())
      ensures Model() == if started then Started(old(Model())) else StartFailed(old(Model()), e)
    {
      error := None;
      if started {
        listening := true;
      } else {
        error := Some(e);
      }
    }

    /** The hold timeout firing, as written: its callback is empty, so nothing changes. */
    method HoldExpired()
      requires Valid(Model())
      modifies this
      ensures Valid(Model()) && Model() == HoldTimeoutAsWritten(old(Model()))
    {
    }

    /** The hold timeout firing as evidently intended: the hold record is dropped. */
    method HoldExpiredAsIntended()
      requires Valid(Model())
      modifies this
      ensures Valid(Model()) && Model() == HoldTimeout(old(Model()))
    {
      noteHold := None;
    }
  }
}
