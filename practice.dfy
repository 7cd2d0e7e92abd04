/**
 * The practice page: free play, or a sequence of holes to play in turn.  Each
 * animation frame reads the detector, finds the nearest harmonica note and, in
 * sequence mode, counts consecutive frames on the target note; the sixteenth
 * consecutive match scores a point and advances to the next note, wrapping
 * after the last.
 *
 * The page's state is a `Practice` value and one frame is the pure function
 * `Frame`; the class `PracticeSession` holds the same state in fields and its
 * methods are proved to follow the functions.
 */
module Practice {
  import opened Wrappers
  import opened Numerics
  import opened HarmonicaData

  datatype Mode = Free | SequenceMode

  datatype Step = Step(hole: int, action: Action)

  datatype Sequence = Sequence(name: string, notes: seq<Step>)

  /** `SEQUENCES`. */
  const SEQUENCES: seq<Sequence> := [
    Sequence("Easy Scale (Blow Only)",
      [Step(4, Blow), Step(5, Blow), Step(6, Blow), Step(7, Blow)]),
    Sequence("C Major Scale",
      [Step(4, Blow), Step(4, Draw), Step(5, Blow), Step(5, Draw),
       Step(6, Blow), Step(6, Draw), Step(7, Draw), Step(7, Blow)]),
    Sequence("Low Notes",
      [Step(1, Blow), Step(1, Draw), Step(2, Blow), Step(2, Draw), Step(3, Blow), Step(3, Draw)]),
    Sequence("Alternating Blow-Draw",
      [Step(4, Blow), Step(4, Draw), Step(5, Blow), Step(5, Draw), Step(6, Blow), Step(6, Draw)]),
    Sequence("High Notes",
      [Step(7, Blow), Step(7, Draw), Step(8, Blow), Step(8, Draw),
       Step(9, Blow), Step(9, Draw), Step(10, Blow), Step(10, Draw)]),
    Sequence("Zig-Zag Pattern",
      [Step(4, Blow), Step(5, Draw), Step(4, Draw), Step(5, Blow),
       Step(6, Blow), Step(5, Draw), Step(6, Draw), Step(7, Blow)])
  ]

  /** A match is counted once the counter exceeds this: on the sixteenth consecutive frame. */
  const MATCH_FRAMES: nat := 15
  /** A detected note counts as on target below this many cents off. */
  const MATCH_CENTS: nat := 20

  /** Every step of every sequence names a hole 1..10, so its target note exists. */
  lemma SequencesWellFormed()
    ensures |SEQUENCES| == 6
    ensures forall i, j :: 0 <= i < |SEQUENCES| && 0 <= j < |SEQUENCES[i].notes| ==>
      1 <= SEQUENCES[i].notes[j].hole <= 10
    ensures forall i :: 0 <= i < |SEQUENCES| ==> |SEQUENCES[i].notes| > 0
  {
  }

  datatype Practice = Practice(
    mode: Mode,
    selected: nat,             // `selectedSequence`
    step: nat,                 // `currentStep`
    score: nat,
    matchTimer: nat,           // `matchTimerRef.current`
    detectedNote: Option<HarmonicaNote>,
    detectedFreq: Option<real>,
    cents: int,
    volume: real)

  const Initial: Practice := Practice(Free, 0, 0, 0, 0, None, None, 0, 0.0)

  /**
   * The page can render: a valid sequence is selected and, in sequence mode,
   * the current step indexes one of its notes.
   */
  predicate Renders(s: Practice)
  {
    s.selected < |SEQUENCES| && (s.mode == SequenceMode ==> s.step < |SEQUENCES[s.selected].notes|)
  }

  /** What the session keeps at all times: the step is always within the selected sequence. */
  predicate Valid(s: Practice)
  {
    s.selected < |SEQUENCES| && s.step < |SEQUENCES[s.selected].notes|
  }

  /** `targetNote`, as computed in the render that created the frame callback. */
  function TargetNote(s: Practice): Option<HarmonicaNote>
    requires Renders(s)
  {
    if s.mode == SequenceMode then
      var n := SEQUENCES[s.selected].notes[s.step];
      GetNoteForHole(n.hole, n.action)
    else None
  }

  /** In sequence mode the target is the table entry of the current step's hole and action. */
  lemma TargetNoteSpec(s: Practice)
    requires Renders(s)
    ensures s.mode == Free ==> TargetNote(s) == None
    ensures s.mode == SequenceMode ==>
      var n := SEQUENCES[s.selected].notes[s.step];
      TargetNote(s).Some? && TargetNote(s).value.hole == n.hole && TargetNote(s).value.action == n.action
  {
    SequencesWellFormed();
    if s.mode == SequenceMode {
      var n := SEQUENCES[s.selected].notes[s.step];
      GetNoteForHoleSpec(n.hole, n.action);
    }
  }

  /** `if (freq)`: no pitch, or a zero frequency, is falsy. */
  predicate Truthy(freq: Option<real>)
  {
    freq.Some? && freq.value != 0.0
  }

  /** The step after the current one, back to the first after the last. */
  function NextStep(step: nat, length: nat): nat
  {
    if step + 1 >= length then 0 else step + 1
  }

  /** The note just detected is the target: same hole and action, and under 20 cents off. */
  predicate OnTarget(closest: HarmonicaNote, target: HarmonicaNote, c: int)
  {
    closest.hole == target.hole && closest.action == target.action && Abs(c) < MATCH_CENTS
  }

  /** The counter, score and step after a frame that detected `closest`, `c` cents off. */
  function Count(s: Practice, closest: HarmonicaNote, c: int): Practice
    requires Renders(s)
  {
    match TargetNote(s)
    case None => s
    case Some(target) =>
      if OnTarget(closest, target, c) then
        if s.matchTimer + 1 > MATCH_FRAMES then
          s.(score := s.score + 1, matchTimer := 0,
             step := NextStep(s.step, |SEQUENCES[s.selected].notes|))
        else s.(matchTimer := s.matchTimer + 1)
      else s.(matchTimer := 0)
  }

  /** One run of `analyze`: the detector's frequency and volume for this frame. */
  function Frame(m: MathLib, s: Practice, freq: Option<real>, vol: real): Practice
    requires Renders(s)
  {
    var s0 := s.(volume := vol);
    if !Truthy(freq) then
      s0.(detectedNote := None, detectedFreq := None, cents := 0, matchTimer := 0)
    else
      var f := freq.value;
      var closest := ClosestNote(m, f);
      var s1 := s0.(detectedFreq := Some(f), detectedNote := closest);
      if closest.None? then s1
      else
        var c := GetCentsOff(m, f, closest.value.frequency);
        Count(s1.(cents := c), closest.value, c)
  }

  /** A frame keeps the session valid: the step never leaves the selected sequence. */
  lemma FrameKeepsValid(m: MathLib, s: Practice, freq: Option<real>, vol: real)
    requires Valid(s)
    ensures Valid(Frame(m, s, freq, vol))
    ensures Frame(m, s, freq, vol).selected == s.selected && Frame(m, s, freq, vol).mode == s.mode
  {
  }

  /**
   * In sequence mode, a frame whose nearest note is the target and under 20
   * cents off raises the counter by one, or, on the sixteenth consecutive
   * such frame, scores a point, resets the counter and advances the step
   * (wrapping after the last note).  Any other detected note resets the
   * counter: there is no gradual decay.
   */
  lemma MatchCounting(m: MathLib, s: Practice, f: real, vol: real)
    requires Valid(s) && s.mode == SequenceMode && f != 0.0 && ClosestNote(m, f).Some?
    ensures var closest := ClosestNote(m, f).value;
      var n := SEQUENCES[s.selected].notes[s.step];
      var t := Frame(m, s, Some(f), vol);
      var c := GetCentsOff(m, f, closest.frequency);
      var hit := closest.hole == n.hole && closest.action == n.action && Abs(c) < MATCH_CENTS;
      && t.cents == c && t.detectedNote == Some(closest) && t.detectedFreq == Some(f)
      && (hit && s.matchTimer < MATCH_FRAMES ==>
            t.matchTimer == s.matchTimer + 1 && t.score == s.score && t.step == s.step)
      && (hit && s.matchTimer >= MATCH_FRAMES ==>
            t.matchTimer == 0 && t.score == s.score + 1
            && t.step == (if s.step == |SEQUENCES[s.selected].notes| - 1 then 0 else s.step + 1))
      && (!hit ==> t.matchTimer == 0 && t.score == s.score && t.step == s.step)
  {
    TargetNoteSpec(s);
    TableShape();
    ClosestNoteSpec(m, f);
  }

  /** No pitch clears the detected note, frequency and cents and resets the counter. */
  lemma SilenceClears(m: MathLib, s: Practice, freq: Option<real>, vol: real)
    requires Renders(s) && !Truthy(freq)
    ensures Frame(m, s, freq, vol) ==
      s.(detectedNote := None, detectedFreq := None, cents := 0, matchTimer := 0, volume := vol)
  {
  }

  /** A pitch with no harmonica note near it leaves counter, score and step alone. */
  lemma NoNoteKeepsCounter(m: MathLib, s: Practice, f: real, vol: real)
    requires Renders(s) && f != 0.0 && ClosestNote(m, f).None?
    ensures var t := Frame(m, s, Some(f), vol);
      t.matchTimer == s.matchTimer && t.score == s.score && t.step == s.step && t.detectedNote == None
      && t.cents == s.cents
  {
  }

  /** Free play never scores, never moves the step and never raises the hold counter. */
  lemma FreePlayNeverScores(m: MathLib, s: Practice, freq: Option<real>, vol: real)
    requires Renders(s) && s.mode == Free
    ensures Frame(m, s, freq, vol).score == s.score && Frame(m, s, freq, vol).step == s.step
    ensures Frame(m, s, freq, vol).matchTimer <= s.matchTimer
  {
  }

  // ---------------------------------------------------------------- many frames

  /** The state after feeding the frames `freqs` one after another, at a fixed volume. */
  function Frames(m: MathLib, s: Practice, freqs: seq<real>, vol: real): Practice
    requires Valid(s)
    decreases |freqs|
  {
    if freqs == [] then s
    else
      FrameKeepsValid(m, s, Some(freqs[0]), vol);
      Frames(m, Frame(m, s, Some(freqs[0]), vol), freqs[1..], vol)
  }

  /** `f` reads as the target of the current step, under 20 cents off. */
  predicate HitsTarget(m: MathLib, s: Practice, f: real)
    requires Valid(s)
  {
    && f != 0.0 && ClosestNote(m, f).Some?
    && var closest := ClosestNote(m, f).value;
      var n := SEQUENCES[s.selected].notes[s.step];
      && closest.hole == n.hole && closest.action == n.action
      && Abs(GetCentsOff(m, f, closest.frequency)) < MATCH_CENTS
  }

  /** `k` frames in a row at frequency `f`. */
  function Repeat(f: real, k: nat): (r: seq<real>)
    ensures |r| == k && forall i :: 0 <= i < k ==> r[i] == f
  {
    if k == 0 then [] else Repeat(f, k - 1) + [f]
  }

  /**
   * Holding the target: `k` frames on the target, while the counter stays
   * at most 15, raise the counter by `k` and score nothing.
   */
  lemma {:induction false} HoldingCounts(m: MathLib, s: Practice, f: real, k: nat, vol: real)
    requires Valid(s) && s.mode == SequenceMode && HitsTarget(m, s, f) && s.matchTimer + k <= MATCH_FRAMES
    ensures Valid(Frames(m, s, Repeat(f, k), vol))
    ensures var t := Frames(m, s, Repeat(f, k), vol);
      t.matchTimer == s.matchTimer + k && t.score == s.score && t.step == s.step && t.selected == s.selected
      && t.mode == s.mode
  {
    if k > 0 {
      HoldingCounts(m, s, f, k - 1, vol);
      var t := Frames(m, s, Repeat(f, k - 1), vol);
      FramesAppend(m, s, Repeat(f, k - 1), [f], vol);
      assert HitsTarget(m, t, f);
      MatchCounting(m, t, f, vol);
      FrameKeepsValid(m, t, Some(f), vol);
      FramesOne(m, t, f, vol);
    }
  }

  lemma FramesOne(m: MathLib, s: Practice, f: real, vol: real)
    requires Valid(s)
    ensures Frames(m, s, [f], vol) == Frame(m, s, Some(f), vol)
  {
    FrameKeepsValid(m, s, Some(f), vol);
    assert [f][1..] == [];
  }

  /**
   * From a counter of 0, fifteen consecutive frames on the target score
   * nothing, and the sixteenth scores exactly one point and moves to the
   * next step.
   */
  lemma SixteenFramesScoreOnce(m: MathLib, s: Practice, f: real, vol: real)
    requires Valid(s) && s.mode == SequenceMode && s.matchTimer == 0 && HitsTarget(m, s, f)
    ensures var t := Frames(m, s, Repeat(f, MATCH_FRAMES), vol);
      t.score == s.score && t.matchTimer == MATCH_FRAMES
    ensures var t := Frames(m, s, Repeat(f, MATCH_FRAMES + 1), vol);
      && t.score == s.score + 1 && t.matchTimer == 0
      && t.step == NextStep(s.step, |SEQUENCES[s.selected].notes|)
  {
    HoldingCounts(m, s, f, MATCH_FRAMES, vol);
    var t := Frames(m, s, Repeat(f, MATCH_FRAMES), vol);
    FramesAppend(m, s, Repeat(f, MATCH_FRAMES), [f], vol);
    assert HitsTarget(m, t, f);
    MatchCounting(m, t, f, vol);
    FramesOne(m, t, f, vol);
  }

  lemma {:induction false} FramesAppend(m: MathLib, s: Practice, a: seq<real>, b: seq<real>, vol: real)
    requires Valid(s)
    ensures Valid(Frames(m, s, a, vol))
    ensures Frames(m, s, a + b, vol) == Frames(m, Frames(m, s, a, vol), b, vol)
    decreases |a|
  {
    if a != [] {
      FrameKeepsValid(m, s, Some(a[0]), vol);
      assert (a + b)[0] == a[0] && (a + b)[1..] == a[1..] + b;
      FramesAppend(m, Frame(m, s, Some(a[0]), vol), a[1..], b, vol);
    } else {
      assert a + b == b;
    }
  }

  /**
   * At exactly 523.25 Hz (hole 4 blow) the first step of the easy scale is
   * hit dead on; sixteen such frames score one point and move to hole 5.
   */
  lemma EasyScaleFirstNote(m: MathLib, vol: real)
    requires m.Lawful()
    ensures var s := Initial.(mode := SequenceMode);
      var t := Frames(m, s, Repeat(523.25, MATCH_FRAMES + 1), vol);
      t.score == 1 && t.step == 1 && t.matchTimer == 0
  {
    var s := Initial.(mode := SequenceMode);
    var f := 523.25;
    TableShape();
    assert CentsDistance(m, f, HARMONICA_NOTES[3]) == 0.0 by {
      assert f / HARMONICA_NOTES[3].frequency == 1.0;
    }
    forall j | 0 <= j < 3 ensures CentsDistance(m, f, HARMONICA_NOTES[j]) > 0.0 {
      Log2Sign(m, f / HARMONICA_NOTES[j].frequency);
    }
    var k := NearestIndex(m, f, HARMONICA_NOTES, |HARMONICA_NOTES|);
    assert CentsDistance(m, f, HARMONICA_NOTES[k]) <= 0.0;
    assert k == 3;
    assert ClosestNote(m, f) == Some(HARMONICA_NOTES[3]);
    assert GetCentsOff(m, f, 523.25) == 0 by {
      CentsOffSign(m, f, 523.25);
    }
    assert HitsTarget(m, s, f);
    SixteenFramesScoreOnce(m, s, f, vol);
  }

  // ---------------------------------------------------------------- other events

  /** The mode buttons: the step, score and counter are kept. */
  function SetMode(s: Practice, mode: Mode): Practice
  {
    s.(mode := mode)
  }

  /**
   * Choosing a sequence as the page does it: the selection changes at once,
   * and the page renders with the new sequence and the old step before the
   * effect that resets step, score and counter runs.
   */
  function SelectSequenceAsWritten(s: Practice, index: nat): Practice
  {
    s.(selected := index)
  }

  /** The reset effect on `selectedSequence`. */
  function ResetOnSelection(s: Practice): Practice
  {
    s.(step := 0, score := 0, matchTimer := 0)
  }

  /**
   * Sequence mode at the last note of "C Major Scale" (step 7), then choosing
   * "Easy Scale (Blow Only)" (four notes): the render that follows reads note
   * 7 of a four-note sequence, an `undefined` whose `hole` throws, before
   * the reset effect can run.
   */
  lemma SelectSequenceCanBreakRender()
    ensures var s := Initial.(mode := SequenceMode, selected := 1, step := 7);
      && Valid(s) && Renders(s)
      && !Renders(SelectSequenceAsWritten(s, 0))
      && Renders(ResetOnSelection(SelectSequenceAsWritten(s, 0)))
  {
  }

  /** Choosing a sequence with the reset applied together with the selection. */
  function SelectSequence(s: Practice, index: nat): Practice
    requires index < |SEQUENCES|
  {
    ResetOnSelection(SelectSequenceAsWritten(s, index))
  }

  /**
   * With the reset made part of the selection, every state the page renders
   * is valid, and the new sequence starts from its first note with no score
   * and no counted frames.
   */
  lemma SelectSequenceKeepsValid(s: Practice, index: nat)
    requires index < |SEQUENCES|
    ensures var t := SelectSequence(s, index);
      && Valid(t) && Renders(t)
      && t.selected == index && t.step == 0 && t.score == 0 && t.matchTimer == 0 && t.mode == s.mode
  {
    SequencesWellFormed();
  }

  /** The stop branch of `toggleListening`: the display is cleared, counter and cents are kept. */
  function StopListening(s: Practice): Practice
  {
    s.(detectedNote := None, detectedFreq := None, volume := 0.0)
  }

  /** Every event keeps the session valid; valid sessions always render. */
  lemma EventsKeepValid(s: Practice, mode: Mode)
    requires Valid(s)
    ensures Valid(SetMode(s, mode)) && Valid(StopListening(s)) && Renders(s)
    ensures Valid(Initial)
  {
  }

  // ---------------------------------------------------------------- the page

  class PracticeSession {
    var mode: Mode
    var selectedSequence: nat
    var currentStep: nat
    var score: nat
    var matchTimer: nat
    var detectedNote: Option<HarmonicaNote>
    var detectedFreq: Option<real>
    var cents: int
    var volume: real

    function Model(): Practice
      reads this
    {
      Practice(mode, selectedSequence, currentStep, score, matchTimer, detectedNote, detectedFreq, cents, volume)
    }

    constructor ()
      ensures Model() == Initial
    {
      mode, selectedSequence, currentStep, score, matchTimer := Free, 0, 0, 0, 0;
      detectedNote, detectedFreq, cents, volume := None, None, 0, 0.0;
    }

    /** `analyze`, for one frame whose detector readings are `freq` and `vol`. */
    method Analyze(m: MathLib, freq: Option<real>, vol: real)
      requires Valid(Model())
      modifies this
      ensures Valid(Model())
      ensures Model() == Frame(m, old(Model()), freq, vol)
    {
      FrameKeepsValid(m, Model(), freq, vol);
      ghost var before := Model();
      var targetNote := TargetNote(Model());
      var notesLength := |SEQUENCES[selectedSequence].notes|;
      volume := vol;
      if Truthy(freq) {
        var f := freq.value;
        detectedFreq := Some(f);
        var closest := FindClosestNote(m, f);
        detectedNote := closest;
        if closest.Some? {
          var c := GetCentsOff(m, f, closest.value.frequency);
          cents := c;
          if mode == SequenceMode && targetNote.Some? {
            if closest.value.hole == targetNote.value.hole && closest.value.action == targetNote.value.action
               && Abs(c) < MATCH_CENTS {
              matchTimer := matchTimer + 1;
              if matchTimer > MATCH_FRAMES {
                score := score + 1;
                matchTimer := 0;
                if currentStep >= notesLength - 1 {
                  currentStep := 0;
                } else {
                  currentStep := currentStep + 1;
                }
              }
            } else {
              matchTimer := 0;
            }
          }
        }
      } else {
        detectedNote := None;
        detectedFreq := None;
        cents := 0;
        matchTimer := 0;
      }
    }

    /** The mode buttons. */
    method SetPracticeMode(newMode: Mode)
      requires Valid(Model())
      modifies this
      ensures Valid(Model()) && Model() == SetMode(old(Model()), newMode)
    {
      mode := newMode;
    }

    /** The sequence selector, with the reset applied together with the selection. */
    method ChooseSequence(index: nat)
      requires index < |SEQUENCES|
      modifies this
      ensures Valid(Model()) && Model() == SelectSequence(old(Model()), index)
    {
      SequencesWellFormed();
      selectedSequence := index;
      currentStep := 0;
      score := 0;
      matchTimer := 0;
    }

    method Stop()
      requires Valid(Model())
      modifies this
      ensures Valid(Model()) && Model() == StopListening(old(Model()))
    {
      detectedNote := None;
      detectedFreq := None;
      volume := 0.0;
    }
  }
}
