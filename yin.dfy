/**
 * The YIN pitch estimator of `PitchDetector.yinDetect`
 * (de Cheveigné and Kawahara): a squared-difference function over lags, its
 * cumulative-mean-normalised form, threshold candidates with a global-minimum
 * fallback, octave correction, parabolic interpolation and a range gate.
 *
 * Every step is given twice: as a specification function over sequences, and
 * as a method that fills arrays with loops the way the source does, proved
 * equal to the function.  Samples are exact reals.
 */
module Yin {
  import opened Wrappers
  import opened Numerics

  /** The harmonica range, in Hz, hard-coded in the estimator. */
  const MIN_FREQUENCY: real := 180.0
  const MAX_FREQUENCY: real := 2200.0

  /** Absolute threshold for a candidate: more lenient on iOS. */
  function Threshold(ios: bool): real
  {
    if ios then 0.3 else 0.2
  }

  /** The fallback global minimum is rejected above this value. */
  function Ceiling(ios: bool): real
  {
    if ios then 0.65 else 0.5
  }

  // ---------------------------------------------------------------- lags

  function TauMin(sampleRate: real): int
  {
    Max(2, Floor(sampleRate / MAX_FREQUENCY))
  }

  function TauMax(bufferSize: nat, sampleRate: real): int
  {
    Min(bufferSize / 2 - 1, Floor(sampleRate / MIN_FREQUENCY))
  }

  /**
   * The lag bounds keep every buffer access of the difference function in
   * range: `j + tau < bufferSize` for every `j < halfSize` and `tau <= tauMax`.
   */
  lemma LagBounds(bufferSize: nat, sampleRate: real, j: int, tau: int)
    requires sampleRate > 0.0
    ensures TauMin(sampleRate) >= 2
    ensures -1 <= TauMax(bufferSize, sampleRate) <= bufferSize / 2 - 1
    ensures 0 <= j < bufferSize / 2 && 1 <= tau <= TauMax(bufferSize, sampleRate) ==> j + tau < bufferSize
  {
  }

  // ---------------------------------------------------------------- step 1

  function Sq(x: real): real
  {
    x * x
  }

  /** Sum over `j < count` of `(b[j] - b[j + tau])^2`. */
  function SqDiff(b: seq<real>, count: nat, tau: nat): (r: real)
    requires count + tau <= |b|
    ensures r >= 0.0
  {
    if count == 0 then 0.0 else SqDiff(b, count - 1, tau) + Sq(b[count - 1] - b[count - 1 + tau])
  }

  /** The difference buffer: entry 0 stays 0, entry `tau` is the squared difference at lag `tau`. */
  function Diff(b: seq<real>, half: nat, tauMax: int): seq<real>
    requires -1 <= tauMax && half + tauMax <= |b|
  {
    seq(tauMax + 1, tau requires 0 <= tau <= tauMax => if tau == 0 then 0.0 else SqDiff(b, half, tau))
  }

  // ---------------------------------------------------------------- step 2

  /** `d[1] + ... + d[tau]`. */
  function RunningSum(d: seq<real>, tau: nat): real
    requires tau < |d|
  {
    if tau == 0 then 0.0 else RunningSum(d, tau - 1) + d[tau]
  }

  function CmndfAt(d: seq<real>, tau: nat): real
    requires tau < |d|
  {
    if tau == 0 then 1.0
    else
      var rs := RunningSum(d, tau);
      if rs == 0.0 then 1.0 else d[tau] * (tau as real) / rs
  }

  /** The cumulative-mean-normalised difference function. */
  function Cmndf(d: seq<real>): seq<real>
  {
    seq(|d|, tau requires 0 <= tau < |d| => CmndfAt(d, tau))
  }

  ghost predicate NonNegative(d: seq<real>)
  {
    forall i :: 0 <= i < |d| ==> d[i] >= 0.0
  }

  lemma {:induction false} RunningSumBounds(d: seq<real>, tau: nat)
    requires tau < |d| && NonNegative(d)
    ensures RunningSum(d, tau) >= 0.0
    ensures tau > 0 ==> RunningSum(d, tau) >= d[tau]
  {
    if tau > 0 {
      RunningSumBounds(d, tau - 1);
    }
  }

  /**
   * The normalised difference is 1 at lag 0, 1 wherever the running sum is
   * 0, and otherwise lies in `[0, tau]`: never negative.
   */
  lemma CmndfBounds(d: seq<real>, tau: nat)
    requires tau < |d| && NonNegative(d)
    ensures tau == 0 ==> CmndfAt(d, tau) == 1.0
    ensures 0.0 <= CmndfAt(d, tau)
    ensures tau > 0 && RunningSum(d, tau) != 0.0 ==> CmndfAt(d, tau) <= tau as real
  {
    if tau > 0 {
      RunningSumBounds(d, tau);
      var rs := RunningSum(d, tau);
      if rs != 0.0 {
        var t := tau as real;
        assert d[tau] * t >= 0.0;
        assert d[tau] * t <= rs * t;
        DivideBounds(d[tau] * t, rs, t);
      }
    }
  }

  lemma DivideBounds(x: real, y: real, c: real)
    requires y > 0.0 && 0.0 <= x <= y * c
    ensures 0.0 <= x / y <= c
  {
  }

  /** The difference buffer of any signal is non-negative, so its normalised form is too. */
  lemma DiffNonNegative(b: seq<real>, half: nat, tauMax: int)
    requires -1 <= tauMax && half + tauMax <= |b|
    ensures NonNegative(Diff(b, half, tauMax))
    ensures NonNegative(Cmndf(Diff(b, half, tauMax)))
  {
    var d := Diff(b, half, tauMax);
    forall tau | 0 <= tau < |d| ensures Cmndf(d)[tau] >= 0.0 {
      CmndfBounds(d, tau);
    }
  }

  // ---------------------------------------------------------------- step 3

  datatype Candidate = Candidate(tau: int, value: real)

  /**
   * A lag that becomes a candidate: below the threshold and either the last
   * lag or not higher than its right neighbour.
   */
  predicate IsCandidateLag(y: seq<real>, tauMax: int, thr: real, t: int)
    requires 0 <= t <= tauMax && |y| == tauMax + 1
  {
    y[t] < thr && (t == tauMax || y[t + 1] >= y[t])
  }

  /** The candidates among the lags `tauMin .. hi - 1`, in increasing lag order. */
  function CandidatesIn(y: seq<real>, tauMin: nat, tauMax: int, thr: real, hi: int): seq<Candidate>
    requires |y| == tauMax + 1 && hi <= tauMax + 1
    decreases hi - tauMin
  {
    if hi <= tauMin then []
    else
      CandidatesIn(y, tauMin, tauMax, thr, hi - 1)
      + (if IsCandidateLag(y, tauMax, thr, hi - 1) then [Candidate(hi - 1, y[hi - 1])] else [])
  }

  function Candidates(y: seq<real>, tauMin: nat, tauMax: int, thr: real): seq<Candidate>
    requires |y| == tauMax + 1
  {
    CandidatesIn(y, tauMin, tauMax, thr, tauMax + 1)
  }

  /**
   * What the candidate list is: strictly increasing lags inside
   * `[tauMin, hi)`, each with its own value, below the threshold, each the
   * last lag or with a right neighbour that is not smaller; and every such
   * lag is on the list (so a below-threshold sample on a rising slope is a
   * candidate too, not only the local minima).
   */
  lemma {:induction false} CandidatesInSpec(y: seq<real>, tauMin: nat, tauMax: int, thr: real, hi: int)
    requires |y| == tauMax + 1 && hi <= tauMax + 1
    ensures var c := CandidatesIn(y, tauMin, tauMax, thr, hi);
      && (forall i :: 0 <= i < |c| ==>
            tauMin <= c[i].tau < hi && c[i].value == y[c[i].tau] && c[i].value < thr
            && IsCandidateLag(y, tauMax, thr, c[i].tau))
      && (forall i, j :: 0 <= i < j < |c| ==> c[i].tau < c[j].tau)
      && (forall t :: tauMin <= t < hi && IsCandidateLag(y, tauMax, thr, t) ==>
            exists i :: 0 <= i < |c| && c[i].tau == t)
    decreases hi - tauMin
  {
    if hi > tauMin {
      CandidatesInSpec(y, tauMin, tauMax, thr, hi - 1);
      var prev := CandidatesIn(y, tauMin, tauMax, thr, hi - 1);
      var c := CandidatesIn(y, tauMin, tauMax, thr, hi);
      forall t | tauMin <= t < hi && IsCandidateLag(y, tauMax, thr, t)
        ensures exists i :: 0 <= i < |c| && c[i].tau == t
      {
        if t < hi - 1 {
          var i :| 0 <= i < |prev| && prev[i].tau == t;
          assert c[i] == prev[i];
        } else {
          assert c[|c| - 1].tau == t;
        }
      }
    }
  }

  // ---------------------------------------------------------------- fallback

  /** The first lag in `[lo, hi]` holding the smallest value. */
  function FirstMinIndex(y: seq<real>, lo: nat, hi: nat): (k: nat)
    requires lo <= hi < |y|
    ensures lo <= k <= hi
    ensures forall t :: lo <= t <= hi ==> y[k] <= y[t]
    ensures forall t :: lo <= t < k ==> y[t] > y[k]
  {
    if hi == lo then lo
    else
      var k := FirstMinIndex(y, lo, hi - 1);
      if y[hi] < y[k] then hi else k
  }

  /**
   * The fallback when no lag crossed the threshold: the first global minimum
   * in the lag range, or no pitch when the range is empty or the minimum is
   * above the ceiling.
   */
  function Fallback(y: seq<real>, tauMin: nat, tauMax: int, ios: bool): Option<Candidate>
    requires |y| == tauMax + 1
  {
    if tauMin > tauMax then None
    else
      var k := FirstMinIndex(y, tauMin, tauMax);
      if y[k] > Ceiling(ios) then None else Some(Candidate(k, y[k]))
  }

  // ---------------------------------------------------------------- step 4

  /** `candidates.reduce((a, b) => b.value < a.value ? b : a)`, as an index. */
  function ReduceMin(cands: seq<Candidate>): (k: nat)
    requires |cands| > 0
    ensures k < |cands|
    ensures forall i :: 0 <= i < |cands| ==> cands[k].value <= cands[i].value
    ensures forall i :: 0 <= i < k ==> cands[i].value > cands[k].value
  {
    if |cands| == 1 then 0
    else
      var k := ReduceMin(cands[..|cands| - 1]);
      if cands[|cands| - 1].value < cands[k].value then |cands| - 1 else k
  }

  /** Keep the shortest lag unless it is 0.1 or more above the best value. */
  function PreferShortest(cands: seq<Candidate>): Candidate
    requires |cands| > 0
  {
    var best := cands[ReduceMin(cands)];
    if cands[0].value < best.value + 0.1 then cands[0] else best
  }

  ghost predicate PositiveLags(cands: seq<Candidate>)
  {
    forall i :: 0 <= i < |cands| ==> cands[i].tau > 0
  }

  /**
   * The octave-down check: the first candidate, from position `i` on, whose
   * lag is between 1.8 and 2.2 times shorter than `best` and whose value is
   * less than 0.15 above it; `best` when there is none.  A zero lag gives
   * JavaScript an infinite or `NaN` ratio, which is never in range.
   */
  function OctaveCheck(cands: seq<Candidate>, best: Candidate, i: nat): Candidate
    decreases |cands| - i
  {
    if i >= |cands| then best
    else
      var c := cands[i];
      if Qualifies(best, c) then c
      else OctaveCheck(cands, best, i + 1)
  }

  /** `c` passes the octave test against `best`: a lag ratio in (1.8, 2.2) and a value less than 0.15 above. */
  predicate Qualifies(best: Candidate, c: Candidate)
  {
    c.tau != 0 && OctaveRatio(best, c) && c.value < best.value + 0.15
  }

  predicate OctaveRatio(best: Candidate, c: Candidate)
    requires c.tau != 0
  {
    var ratio := (best.tau as real) / (c.tau as real);
    1.8 < ratio < 2.2
  }

  function Choose(cands: seq<Candidate>): Candidate
    requires |cands| > 0
  {
    OctaveCheck(cands, PreferShortest(cands), 0)
  }

  lemma {:induction false} OctaveCheckSpec(cands: seq<Candidate>, best: Candidate, i: nat)
    requires PositiveLags(cands) && best.tau > 0
    ensures var r := OctaveCheck(cands, best, i);
      && (r == best || exists j :: i <= j < |cands| && r == cands[j])
      && r.tau <= best.tau
      && r.value < best.value + 0.15
    ensures (forall j :: i <= j < |cands| ==> !Qualifies(best, cands[j])) ==>
      OctaveCheck(cands, best, i) == best
    ensures forall j ::
      (i <= j < |cands| && Qualifies(best, cands[j]) && forall k :: i <= k < j ==> !Qualifies(best, cands[k])) ==>
        OctaveCheck(cands, best, i) == cands[j]
    decreases |cands| - i
  {
    if i < |cands| {
      var c := cands[i];
      if Qualifies(best, c) {
        assert (best.tau as real) > 1.8 * (c.tau as real);
      } else {
        OctaveCheckSpec(cands, best, i + 1);
      }
    }
  }

  /**
   * The octave-corrected choice is one of the candidates, its lag is never
   * longer than the shortest-lag preference of step 4 and never below the
   * smallest candidate lag, and its value is within 0.25 of the best value.
   */
  lemma ChooseSpec(cands: seq<Candidate>, tauMin: int)
    requires |cands| > 0 && tauMin > 0
    requires forall i :: 0 <= i < |cands| ==> cands[i].tau >= tauMin
    ensures var r := Choose(cands);
      && (exists j :: 0 <= j < |cands| && r == cands[j])
      && tauMin <= r.tau <= PreferShortest(cands).tau
      && r.value < cands[ReduceMin(cands)].value + 0.25
  {
    var p := PreferShortest(cands);
    assert p == cands[0] || p == cands[ReduceMin(cands)];
    OctaveCheckSpec(cands, p, 0);
  }

  // ---------------------------------------------------------------- step 5

  /**
   * Parabolic interpolation around lag `tau`.  JavaScript yields `NaN` or an
   * infinity for a zero denominator, which fails `|adjustment| < 1`; the
   * explicit test for zero models that.
   */
  function Parabolic(y: seq<real>, tau: int, tauMax: int): (r: real)
    requires |y| == tauMax + 1
    ensures tau <= 0 || tau >= tauMax ==> r == tau as real
    ensures 0 < tau < tauMax ==>
      var den := 2.0 * (2.0 * y[tau] - y[tau + 1] - y[tau - 1]);
      && (den == 0.0 ==> r == tau as real)
      && (den != 0.0 && AbsReal((y[tau + 1] - y[tau - 1]) / den) >= 1.0 ==> r == tau as real)
      && (den != 0.0 && AbsReal((y[tau + 1] - y[tau - 1]) / den) < 1.0 ==>
            r == tau as real + (y[tau + 1] - y[tau - 1]) / den)
    ensures tau as real - 1.0 < r < tau as real + 1.0
  {
    if tau <= 0 || tau >= tauMax then tau as real
    else
      var s0, s1, s2 := y[tau - 1], y[tau], y[tau + 1];
      var den := 2.0 * (2.0 * s1 - s2 - s0);
      if den == 0.0 then tau as real
      else
        var adjustment := (s2 - s0) / den;
        if AbsReal(adjustment) < 1.0 then tau as real + adjustment else tau as real
  }

  // ---------------------------------------------------------------- whole

  /** The candidate list after the fallback has been applied. */
  function CandidatesWithFallback(y: seq<real>, tauMin: nat, tauMax: int, ios: bool): seq<Candidate>
    requires |y| == tauMax + 1
  {
    var cands := Candidates(y, tauMin, tauMax, Threshold(ios));
    if cands != [] then cands
    else match Fallback(y, tauMin, tauMax, ios)
      case None => []
      case Some(c) => [c]
  }

  lemma CandidatesWithFallbackLags(y: seq<real>, tauMin: nat, tauMax: int, ios: bool)
    requires |y| == tauMax + 1
    ensures var c := CandidatesWithFallback(y, tauMin, tauMax, ios);
      forall i :: 0 <= i < |c| ==> tauMin <= c[i].tau <= tauMax && c[i].value == y[c[i].tau]
  {
    var cands := Candidates(y, tauMin, tauMax, Threshold(ios));
    var c := CandidatesWithFallback(y, tauMin, tauMax, ios);
    CandidatesInSpec(y, tauMin, tauMax, Threshold(ios), tauMax + 1);
    if cands == [] {
      if tauMin <= tauMax {
        var k := FirstMinIndex(y, tauMin, tauMax);
        if y[k] <= Ceiling(ios) {
          assert c == [Candidate(k, y[k])];
        } else {
          assert c == [];
        }
      } else {
        assert c == [];
      }
    } else {
      assert c == cands;
      forall i | 0 <= i < |c| ensures tauMin <= c[i].tau <= tauMax && c[i].value == y[c[i].tau] {
        assert tauMin <= cands[i].tau < tauMax + 1;
      }
    }
  }

  /** The frequency the estimator reports for one buffer, or no pitch. */
  function Estimate(b: seq<real>, sampleRate: real, ios: bool): Option<real>
    requires sampleRate > 0.0
  {
    var tauMax := TauMax(|b|, sampleRate);
    EstimateFrom(Cmndf(Diff(b, |b| / 2, tauMax)), sampleRate, TauMin(sampleRate), tauMax, ios)
  }

  /** Steps 3 to 5 and the range gate, on the normalised difference `y`. */
  function EstimateFrom(y: seq<real>, sampleRate: real, tauMin: nat, tauMax: int, ios: bool): Option<real>
    requires sampleRate > 0.0 && |y| == tauMax + 1 && tauMin >= 1
  {
    var cands := CandidatesWithFallback(y, tauMin, tauMax, ios);
    if cands == [] then None
    else
      var best := Choose(cands);
      if best.tau < tauMin then None
      else
        var estimate := Parabolic(y, best.tau, tauMax);
        var frequency := sampleRate / estimate;
        if frequency < MIN_FREQUENCY || frequency > MAX_FREQUENCY then None else Some(frequency)
  }

  /**
   * The estimate lies in the harmonica range, comes from a lag in
   * `[tauMin, tauMax]` within one sample of the chosen candidate, and the
   * test for a lag below `tauMin` never fires; conversely, a frequency from
   * the chosen lag that is in range is returned.
   */
  lemma EstimateSpec(b: seq<real>, sampleRate: real, ios: bool)
    requires sampleRate > 0.0
    ensures var tauMin, tauMax := TauMin(sampleRate), TauMax(|b|, sampleRate);
      var y := Cmndf(Diff(b, |b| / 2, tauMax));
      var cands := CandidatesWithFallback(y, tauMin, tauMax, ios);
      && (cands == [] ==> Estimate(b, sampleRate, ios) == None)
      && (cands != [] ==>
            var best := Choose(cands);
            && tauMin <= best.tau <= tauMax
            && (Estimate(b, sampleRate, ios).Some? ==>
                  Estimate(b, sampleRate, ios).value == sampleRate / Parabolic(y, best.tau, tauMax)))
      && (Estimate(b, sampleRate, ios).Some? ==>
            MIN_FREQUENCY <= Estimate(b, sampleRate, ios).value <= MAX_FREQUENCY)
      && (cands != [] ==>
            var best := Choose(cands);
            var f := sampleRate / Parabolic(y, best.tau, tauMax);
            MIN_FREQUENCY <= f <= MAX_FREQUENCY ==> Estimate(b, sampleRate, ios) == Some(f))
  {
    var tauMin, tauMax := TauMin(sampleRate), TauMax(|b|, sampleRate);
    var y := Cmndf(Diff(b, |b| / 2, tauMax));
    var cands := CandidatesWithFallback(y, tauMin, tauMax, ios);
    if cands != [] {
      CandidatesWithFallbackLags(y, tauMin, tauMax, ios);
      ChooseSpec(cands, tauMin);
      var j :| 0 <= j < |cands| && Choose(cands) == cands[j];
    }
  }

  /** No lag range (a buffer of at most 2 * tauMin samples) means no pitch. */
  lemma ShortBufferHasNoPitch(b: seq<real>, sampleRate: real, ios: bool)
    requires sampleRate > 0.0 && |b| / 2 - 1 < TauMin(sampleRate)
    ensures Estimate(b, sampleRate, ios) == None
  {
    var tauMin, tauMax := TauMin(sampleRate), TauMax(|b|, sampleRate);
    var y := Cmndf(Diff(b, |b| / 2, tauMax));
    CandidatesInSpec(y, tauMin, tauMax, Threshold(ios), tauMax + 1);
    assert Candidates(y, tauMin, tauMax, Threshold(ios)) == [];
  }

  // ---------------------------------------------------------------- methods

  /** Step 1: the nested loops filling the difference buffer. */
  method DifferenceFunction(b: seq<real>, half: nat, tauMax: int) returns (diff: array<real>)
    requires -1 <= tauMax && half + tauMax <= |b|
    ensures diff[..] == Diff(b, half, tauMax)
  {
    diff := new real[tauMax + 1](_ => 0.0);
    var tau := 1;
    while tau <= tauMax
      invariant 1 <= tau <= tauMax + 1 || (tau == 1 && tauMax < 1)
      invariant diff.Length == tauMax + 1
      invariant forall t :: 0 <= t < tau && t <= tauMax ==> diff[t] == Diff(b, half, tauMax)[t]
      invariant forall t :: tau <= t <= tauMax ==> diff[t] == 0.0
    {
      var sum := 0.0;
      for j := 0 to half
        invariant sum == SqDiff(b, j, tau)
      {
        var delta := b[j] - b[j + tau];
        sum := sum + delta * delta;
      }
      diff[tau] := sum;
      tau := tau + 1;
    }
  }

  /** Step 2: the running-sum loop filling the normalised buffer. */
  method NormalisedDifference(diff: array<real>) returns (yin: array<real>)
    ensures yin[..] == Cmndf(diff[..])
  {
    ghost var d := diff[..];
    yin := new real[diff.Length](_ => 0.0);
    if yin.Length > 0 {
      yin[0] := 1.0;
    }
    var runningSum := 0.0;
    var tau := 1;
    while tau < diff.Length
      invariant 1 <= tau <= diff.Length || (tau == 1 && diff.Length == 0)
      invariant yin.Length == diff.Length && diff[..] == d
      invariant forall t :: 0 <= t < tau && t < yin.Length ==> yin[t] == CmndfAt(d, t)
      invariant tau <= diff.Length ==> runningSum == RunningSum(d, tau - 1)
    {
      runningSum := runningSum + diff[tau];
      if runningSum == 0.0 {
        yin[tau] := 1.0;
      } else {
        yin[tau] := (diff[tau] * (tau as real)) / runningSum;
      }
      tau := tau + 1;
    }
  }

  /**
   * Step 3: the threshold scan, whose inner loop walks the counter forward
   * while the function keeps falling.
   */
  method CollectCandidates(yin: array<real>, tauMin: nat, tauMax: int, thr: real)
    returns (cands: seq<Candidate>)
    requires yin.Length == tauMax + 1
    ensures cands == Candidates(yin[..], tauMin, tauMax, thr)
  {
    ghost var y := yin[..];
    cands := [];
    var tau: int := tauMin;
    while tau <= tauMax
      invariant tauMin <= tau
      invariant tau <= tauMax + 1 || tau == tauMin
      invariant cands == CandidatesIn(y, tauMin, tauMax, thr, Min(tau, tauMax + 1))
      decreases tauMax + 1 - tau
    {
      if yin[tau] < thr {
        ghost var start := tau;
        while tau + 1 <= tauMax && yin[tau + 1] < yin[tau]
          invariant start <= tau <= tauMax
          invariant y[tau] < thr
          invariant CandidatesIn(y, tauMin, tauMax, thr, tau) == CandidatesIn(y, tauMin, tauMax, thr, start)
          decreases tauMax - tau
        {
          assert !IsCandidateLag(y, tauMax, thr, tau);
          tau := tau + 1;
        }
        assert IsCandidateLag(y, tauMax, thr, tau);
        cands := cands + [Candidate(tau, yin[tau])];
      }
      tau := tau + 1;
    }
  }

  /** The fallback loop; `found` stands for `minVal` no longer being `Infinity`. */
  method FallbackMinimum(yin: array<real>, tauMin: nat, tauMax: int, ios: bool)
    returns (r: Option<Candidate>)
    requires yin.Length == tauMax + 1
    ensures r == Fallback(yin[..], tauMin, tauMax, ios)
  {
    var found := false;
    var minVal := 0.0;
    var minTau: int := tauMin;
    var tau: int := tauMin;
    while tau <= tauMax
      invariant tauMin <= tau && (tau <= tauMax + 1 || tau == tauMin)
      invariant found <==> tau > tauMin
      invariant found ==> minTau == FirstMinIndex(yin[..], tauMin, tau - 1) && minVal == yin[minTau]
    {
      if !found || yin[tau] < minVal {
        minVal := yin[tau];
        minTau := tau;
        found := true;
      }
      tau := tau + 1;
    }
    if !found || minVal > Ceiling(ios) {
      return None;
    }
    r := Some(Candidate(minTau, minVal));
  }

  /** Step 4: prefer the shortest lag, then the octave-down loop with its early exit. */
  method ChooseCandidate(cands: seq<Candidate>) returns (best: Candidate)
    requires |cands| > 0
    ensures best == Choose(cands)
  {
    best := cands[0];
    var absoluteBest := cands[0];
    for i := 1 to |cands|
      invariant absoluteBest == cands[ReduceMin(cands[..i])]
    {
      assert cands[..i + 1][..i] == cands[..i];
      if cands[i].value < absoluteBest.value {
        absoluteBest := cands[i];
      }
    }
    assert cands[..|cands|] == cands;
    if best.value < absoluteBest.value + 0.1 {
      // already the shortest lag
    } else {
      best := absoluteBest;
    }
    ghost var preferred := best;
    for i := 0 to |cands|
      invariant best == preferred
      invariant OctaveCheck(cands, preferred, 0) == OctaveCheck(cands, preferred, i)
    {
      var c := cands[i];
      if Qualifies(best, c) {
        best := c;
        return;
      }
    }
  }

  /** Step 3 with its fallback: the candidate list the octave correction works on. */
  method SelectCandidates(yin: array<real>, tauMin: nat, tauMax: int, ios: bool)
    returns (candidates: seq<Candidate>)
    requires yin.Length == tauMax + 1
    ensures candidates == CandidatesWithFallback(yin[..], tauMin, tauMax, ios)
  {
    candidates := CollectCandidates(yin, tauMin, tauMax, Threshold(ios));
    if candidates == [] {
      var fallback := FallbackMinimum(yin, tauMin, tauMax, ios);
      if fallback.Some? {
        candidates := [fallback.value];
      }
    }
  }

  /** Steps 3 to 5 and the range gate, on the normalised buffer. */
  method EstimateFromBuffer(yin: array<real>, sampleRate: real, tauMin: nat, tauMax: int, ios: bool)
    returns (r: Option<real>)
    requires sampleRate > 0.0 && yin.Length == tauMax + 1 && tauMin >= 1
    ensures r == EstimateFrom(yin[..], sampleRate, tauMin, tauMax, ios)
  {
    var candidates := SelectCandidates(yin, tauMin, tauMax, ios);
    if candidates == [] {
      return None;
    }

    var best := ChooseCandidate(candidates);
    var bestTau := best.tau;
    if bestTau < tauMin {
      return None;
    }
    var tauEstimate := Parabolic(yin[..], bestTau, tauMax);
    var frequency := sampleRate / tauEstimate;
    if frequency < MIN_FREQUENCY || frequency > MAX_FREQUENCY {
      return None;
    }
    r := Some(frequency);
  }

  /** `yinDetect`: the five steps and the range gate. */
  method YinDetect(b: seq<real>, sampleRate: real, ios: bool) returns (r: Option<real>)
    requires sampleRate > 0.0
    ensures r == Estimate(b, sampleRate, ios)
  {
    var halfSize := |b| / 2;
    var tauMin := TauMin(sampleRate);
    var tauMax := TauMax(|b|, sampleRate);
    LagBounds(|b|, sampleRate, 0, 1);

    var diff := DifferenceFunction(b, halfSize, tauMax);
    var yin := NormalisedDifference(diff);
    r := EstimateFromBuffer(yin, sampleRate, tauMin, tauMax, ios);
  }
}
