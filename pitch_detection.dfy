/**
 * The `PitchDetector` class: a lifecycle over browser audio handles
 * (`start`, `stop`, `cleanUp`), and the per-frame readers `getFrequency` and
 * `getVolume` that copy the analyser's time-domain window into the detector's
 * buffer, test it for silence and hand it to the YIN estimator.
 *
 * The browser objects are opaque values; what the browser does when asked for
 * them (whether audio is supported, whether the microphone is granted, whether
 * the new context starts suspended and resumes) is a `Platform` value given to
 * `Start`.  The lifecycle is specified by transition functions on a
 * `Lifecycle` snapshot, which the class methods are proved to follow.
 */
module PitchDetection {
  import opened Wrappers
  import opened Numerics
  import Yin

  /** The analyser configuration `start` applies. */
  const FFT_SIZE: nat := 8192
  const MIN_DECIBELS: int := -100
  const MAX_DECIBELS: int := -10

  /** The sample rate before any context has been created. */
  const DEFAULT_SAMPLE_RATE: real := 44100.0

  type PositiveReal = r: real | r > 0.0 witness 1.0

  /** The microphone request that was granted. */
  datatype MicRequest =
    | ProcessedForIOS   // echo cancellation and automatic gain on, noise suppression off
    | RawForDesktop     // every processing stage asked to be off
    | PlainAudio        // the retry with `{ audio: true }`

  datatype Context = Context(sampleRate: PositiveReal)
  datatype Analyser = Analyser(fftSize: nat, smoothingTimeConstant: real, minDecibels: int, maxDecibels: int)
  datatype GainNode = GainNode(gain: real)
  datatype Stream = Stream(request: MicRequest)
  datatype Source = Source(stream: Stream)

  /** What the browser answers while `start` runs. */
  datatype Platform = Platform(
    audioSupported: bool,      // an `AudioContext` constructor exists
    ios: bool,                 // the user agent names an iPad, iPhone or iPod
    tunedMicGranted: bool,     // the first `getUserMedia` call succeeds
    plainMicGranted: bool,     // the retry with `{ audio: true }` succeeds
    startsSuspended: bool,     // the new context is in the "suspended" state
    resumeSucceeds: bool,      // `resume()` on it resolves
    sampleRate: PositiveReal)  // the new context's sample rate

  datatype Failure = Unsupported | MicrophoneDenied | ResumeFailed

  /** `start` either resolves or rejects with the error it rethrows. */
  datatype StartOutcome = Resolved | Rejected(failure: Failure)

  /** The detector's fields, except the sample buffer. */
  datatype Lifecycle = Lifecycle(
    running: bool,
    ios: bool,
    sampleRate: PositiveReal,
    context: Option<Context>,
    analyser: Option<Analyser>,
    gain: Option<GainNode>,
    stream: Option<Stream>,
    source: Option<Source>)

  const Initial: Lifecycle := Lifecycle(false, false, DEFAULT_SAMPLE_RATE, None, None, None, None, None)

  predicate NoHandles(s: Lifecycle)
  {
    s.context.None? && s.analyser.None? && s.gain.None? && s.stream.None? && s.source.None?
  }

  /**
   * A running detector holds every handle, with the analyser configured as
   * `start` configures it; a stopped one holds none.
   */
  predicate Consistent(s: Lifecycle)
  {
    if s.running then
      && s.context.Some? && s.analyser.Some? && s.gain.Some? && s.stream.Some? && s.source.Some?
      && s.analyser.value == Analyser(FFT_SIZE, 0.0, MIN_DECIBELS, MAX_DECIBELS)
      && s.gain.value.gain == (if s.ios then 4.0 else 1.5)
      && s.context.value.sampleRate == s.sampleRate
      && s.source.value.stream == s.stream.value
    else NoHandles(s)
  }

  /** `cleanUp`: disconnects and drops every handle. */
  function CleanUp(s: Lifecycle): Lifecycle
  {
    s.(context := None, analyser := None, gain := None, stream := None, source := None)
  }

  /** `stop`. */
  function Stop(s: Lifecycle): Lifecycle
  {
    CleanUp(s.(running := false))
  }

  function GrantedRequest(p: Platform): Option<MicRequest>
  {
    if p.tunedMicGranted then Some(if p.ios then ProcessedForIOS else RawForDesktop)
    else if p.plainMicGranted then Some(PlainAudio)
    else None
  }

  /** `start`: the new state and how the returned promise settles. */
  function Start(s: Lifecycle, p: Platform): (Lifecycle, StartOutcome)
  {
    if s.running then (s, Resolved)
    else if !p.audioSupported then (s, Rejected(Unsupported))
    else
      var s1 := s.(ios := p.ios);
      match GrantedRequest(p)
      case None => (CleanUp(s1), Rejected(MicrophoneDenied))
      case Some(request) =>
        if p.startsSuspended && !p.resumeSucceeds then (CleanUp(s1), Rejected(ResumeFailed))
        else
          var stream := Stream(request);
          (s1.(running := true, sampleRate := p.sampleRate,
               context := Some(Context(p.sampleRate)),
               analyser := Some(Analyser(FFT_SIZE, 0.0, MIN_DECIBELS, MAX_DECIBELS)),
               gain := Some(GainNode(if p.ios then 4.0 else 1.5)),
               stream := Some(stream),
               source := Some(Source(stream))),
           Resolved)
  }

  /** `start` on a running detector changes nothing and resolves. */
  lemma StartWhileRunning(s: Lifecycle, p: Platform)
    requires s.running
    ensures Start(s, p) == (s, Resolved)
  {
  }

  /**
   * From a stopped detector, `start` resolves exactly when audio is
   * supported, one of the two microphone requests is granted and the context
   * is running or resumes; it then leaves a consistent running detector.
   * Every rejection leaves it stopped with no handle held.
   */
  lemma StartOutcomes(s: Lifecycle, p: Platform)
    requires Consistent(s) && !s.running
    ensures var (t, outcome) := Start(s, p);
      && (outcome == Resolved <==>
            p.audioSupported && (p.tunedMicGranted || p.plainMicGranted)
            && (!p.startsSuspended || p.resumeSucceeds))
      && (outcome == Resolved ==> t.running && Consistent(t) && t.sampleRate == p.sampleRate && t.ios == p.ios)
      && (outcome.Rejected? ==> !t.running && NoHandles(t) && t.sampleRate == s.sampleRate)
      && (outcome == Rejected(Unsupported) <==> !p.audioSupported)
  {
  }

  /** Every operation keeps the detector consistent. */
  lemma OperationsKeepConsistent(s: Lifecycle, p: Platform)
    requires Consistent(s)
    ensures Consistent(Start(s, p).0)
    ensures Consistent(Stop(s))
    ensures Consistent(Initial)
  {
  }

  /**
   * `stop` leaves the detector stopped with no handle held, whatever its
   * state, and a second `stop` changes nothing.
   */
  lemma StopIsFinalAndIdempotent(s: Lifecycle)
    ensures !Stop(s).running && NoHandles(Stop(s))
    ensures Stop(Stop(s)) == Stop(s)
    ensures Stop(s).ios == s.ios && Stop(s).sampleRate == s.sampleRate
  {
  }

  // ---------------------------------------------------------------- frames

  /** Silence thresholds on the root-mean-square level: lower on iOS. */
  function SilenceThreshold(ios: bool): real
  {
    if ios then 0.003 else 0.006
  }

  function SumOfSquares(s: seq<real>): (r: real)
    ensures r >= 0.0
  {
    if s == [] then 0.0 else SumOfSquares(s[..|s| - 1]) + s[|s| - 1] * s[|s| - 1]
  }

  /**
   * `rms < silenceThreshold`, stated without the square root: the mean square
   * is below the threshold squared.  For an empty buffer JavaScript compares
   * `NaN`, which is false, and so does this.
   */
  predicate Silent(samples: seq<real>, ios: bool)
  {
    var t := SilenceThreshold(ios);
    SumOfSquares(samples) < t * t * (|samples| as real)
  }

  /** The squared test agrees with the source's test on the square root of the mean square. */
  lemma SilentIsRmsBelowThreshold(m: MathLib, samples: seq<real>, ios: bool)
    requires m.Lawful() && |samples| > 0
    ensures Silent(samples, ios) <==> m.sqrt(SumOfSquares(samples) / (|samples| as real)) < SilenceThreshold(ios)
  {
    var n := |samples| as real;
    var ms := SumOfSquares(samples) / n;
    assert ms >= 0.0;
    RootBelow(SumOfSquares(samples), n, m.sqrt(ms), SilenceThreshold(ios));
  }

  /** For a mean square `sum / n` with square root `rms`: `rms < t` iff `sum < t * t * n`. */
  lemma RootBelow(sum: real, n: real, rms: real, t: real)
    requires n > 0.0 && t > 0.0 && rms >= 0.0 && rms * rms == sum / n
    ensures sum < t * t * n <==> rms < t
  {
    var ms := sum / n;
    assert sum == ms * n;
    if rms < t {
      SquareMonotone(rms, t);
      ScaleMonotone(ms, t * t, n);
    } else {
      SquareMonotone(t, rms);
      ScaleMonotone(t * t, ms, n);
    }
  }

  lemma SquareMonotone(a: real, b: real)
    requires 0.0 <= a
    ensures a < b ==> a * a < b * b
    ensures a <= b ==> a * a <= b * b
  {
    if a <= b {
      assert b * b - a * a == (b - a) * (b + a);
      ScaleMonotone(0.0, b - a, b + a);
    }
  }

  lemma ScaleMonotone(x: real, y: real, c: real)
    requires c > 0.0 || (c == 0.0 && x <= y)
    ensures x < y && c > 0.0 ==> x * c < y * c
    ensures x <= y ==> x * c <= y * c
  {
  }

  /** What `getFrequency` reports for the window it read. */
  function FrameFrequency(samples: seq<real>, sampleRate: PositiveReal, ios: bool): Option<real>
  {
    if Silent(samples, ios) then None else Yin.Estimate(samples, sampleRate, ios)
  }

  /** A frame yields no pitch or a pitch in the harmonica range; silence yields none. */
  lemma FrameFrequencyRange(samples: seq<real>, sampleRate: PositiveReal, ios: bool)
    ensures var r := FrameFrequency(samples, sampleRate, ios);
      && (Silent(samples, ios) ==> r == None)
      && (r.Some? ==> Yin.MIN_FREQUENCY <= r.value <= Yin.MAX_FREQUENCY)
  {
    Yin.EstimateSpec(samples, sampleRate, ios);
  }

  /** `Math.min(1, rms * 10)`. */
  function Volume(m: MathLib, samples: seq<real>): real
    requires |samples| > 0
  {
    MinReal(1.0, m.sqrt(SumOfSquares(samples) / (|samples| as real)) * 10.0)
  }

  lemma VolumeBounds(m: MathLib, samples: seq<real>)
    requires m.Lawful() && |samples| > 0
    ensures 0.0 <= Volume(m, samples) <= 1.0
  {
    assert SumOfSquares(samples) / (|samples| as real) >= 0.0;
  }

  /**
   * `getFloatTimeDomainData`: the window is copied into the buffer as far as
   * both reach; the rest of the buffer keeps its values.
   */
  function Overwrite(buffer: seq<real>, window: seq<real>): (r: seq<real>)
    ensures |r| == |buffer|
    ensures forall i :: 0 <= i < |r| ==> r[i] == (if i < |window| then window[i] else buffer[i])
  {
    var n := Min(|buffer|, |window|);
    window[..n] + buffer[n..]
  }

  class PitchDetector {
    var isRunning: bool
    var isIOS: bool
    var sampleRate: PositiveReal
    var audioContext: Option<Context>
    var analyser: Option<Analyser>
    var gainNode: Option<GainNode>
    var stream: Option<Stream>
    var source: Option<Source>
    var buffer: array<real>

    function State(): Lifecycle
      reads this
    {
      Lifecycle(isRunning, isIOS, sampleRate, audioContext, analyser, gainNode, stream, source)
    }

    ghost predicate Valid()
      reads this
    {
      Consistent(State()) && (isRunning ==> buffer.Length == FFT_SIZE)
    }

    constructor ()
      ensures Valid() && State() == Initial && buffer.Length == 0
    {
      isRunning, isIOS, sampleRate := false, false, DEFAULT_SAMPLE_RATE;
      audioContext, analyser, gainNode, stream, source := None, None, None, None, None;
      buffer := new real[0];
    }

    /** The `running` getter. */
    function Running(): (r: bool)
      reads this
      requires Valid()
      ensures r ==> Consistent(State()) && audioContext.Some? && analyser.Some?
    {
      isRunning
    }

    method CleanUpHandles()
      modifies this`audioContext, this`analyser, this`gainNode, this`stream, this`source
      ensures State() == CleanUp(old(State()))
    {
      if source.Some? {
        source := None;
      }
      if gainNode.Some? {
        gainNode := None;
      }
      if stream.Some? {
        stream := None;
      }
      if audioContext.Some? {
        audioContext := None;
      }
      analyser := None;
    }

    method StopDetector()
      requires Valid()
      modifies this
      ensures Valid() && State() == Stop(old(State())) && buffer == old(buffer)
    {
      isRunning := false;
      CleanUpHandles();
    }

    method StartDetector(p: Platform) returns (outcome: StartOutcome)
      requires Valid()
      modifies this
      ensures Valid()
      ensures (State(), outcome) == Start(old(State()), p)
      ensures outcome == Resolved && !old(isRunning) ==> fresh(buffer) && buffer.Length == FFT_SIZE
      ensures outcome.Rejected? || old(isRunning) ==> buffer == old(buffer)
    {
      if isRunning {
        return Resolved;
      }
      if !p.audioSupported {
        return Rejected(Unsupported);
      }
      isIOS := p.ios;
      var granted := GrantedRequest(p);
      if granted.None? {
        CleanUpHandles();
        return Rejected(MicrophoneDenied);
      }
      var s := Stream(granted.value);
      stream := Some(s);
      audioContext := Some(Context(p.sampleRate));
      if p.startsSuspended && !p.resumeSucceeds {
        CleanUpHandles();
        return Rejected(ResumeFailed);
      }
      sampleRate := p.sampleRate;
      analyser := Some(Analyser(FFT_SIZE, 0.0, MIN_DECIBELS, MAX_DECIBELS));
      gainNode := Some(GainNode(if isIOS then 4.0 else 1.5));
      source := Some(Source(s));
      buffer := new real[FFT_SIZE](_ => 0.0);
      isRunning := true;
      outcome := Resolved;
    }

    /**
     * `getFrequency`: no pitch unless running with a context that is not
     * suspended (a suspended one is asked to resume, which this model leaves
     * to the caller's next `Platform`); otherwise the window read into the
     * buffer, its silence test, and the estimator.
     */
    method GetFrequency(window: seq<real>, contextSuspended: bool) returns (r: Option<real>)
      requires Valid()
      modifies buffer
      ensures Valid()
      ensures !isRunning || contextSuspended ==> r == None && buffer[..] == old(buffer[..])
      ensures isRunning && !contextSuspended ==>
                buffer[..] == Overwrite(old(buffer[..]), window)
                && r == FrameFrequency(buffer[..], sampleRate, isIOS)
    {
      if !isRunning || analyser.None? || audioContext.None? {
        return None;
      }
      if contextSuspended {
        return None;
      }
      ReadWindow(window);
      var sum := BufferSumOfSquares();
      ghost var frame := buffer[..];
      var t := SilenceThreshold(isIOS);
      if sum < t * t * (buffer.Length as real) {
        assert Silent(frame, isIOS);
        return None;
      }
      assert !Silent(frame, isIOS);
      r := Yin.YinDetect(buffer[..], sampleRate, isIOS);
      assert r == FrameFrequency(frame, sampleRate, isIOS);
    }

    /** `getVolume`: 0 unless running; the level of the window read, capped at 1. */
    method GetVolume(m: MathLib, window: seq<real>) returns (r: real)
      requires Valid()
      modifies buffer
      ensures Valid()
      ensures !isRunning ==> r == 0.0 && buffer[..] == old(buffer[..])
      ensures isRunning ==> buffer[..] == Overwrite(old(buffer[..]), window) && r == Volume(m, buffer[..])
    {
      if !isRunning || analyser.None? {
        return 0.0;
      }
      ReadWindow(window);
      var sum := BufferSumOfSquares();
      var rms := m.sqrt(sum / (buffer.Length as real));
      r := MinReal(1.0, rms * 10.0);
    }

    /** The loop summing the squares of the buffer's samples. */
    method BufferSumOfSquares() returns (sum: real)
      ensures sum == SumOfSquares(buffer[..])
    {
      sum := 0.0;
      for i := 0 to buffer.Length
        invariant sum == SumOfSquares(buffer[..i])
      {
        assert buffer[..i + 1][..i] == buffer[..i];
        sum := sum + buffer[i] * buffer[i];
      }
      assert buffer[..buffer.Length] == buffer[..];
    }

    /** `analyser.getFloatTimeDomainData(this.buffer)`. */
    method ReadWindow(window: seq<real>)
      modifies buffer
      ensures buffer[..] == Overwrite(old(buffer[..]), window)
    {
      var n := Min(buffer.Length, |window|);
      for i := 0 to n
        invariant forall k :: 0 <= k < i ==> buffer[k] == window[k]
        invariant forall k :: i <= k < buffer.Length ==> buffer[k] == old(buffer[k])
      {
        buffer[i] := window[i];
      }
      assert buffer[..] == window[..n] + old(buffer[..])[n..];
    }
  }
}
