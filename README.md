# Harmonica trainer — a verified model of its core

This project models the logic of a browser harmonica trainer written in
TypeScript (Next.js). It also proves properties of that model. The trainer
listens to the microphone and estimates the pitch with the YIN algorithm. It
then maps the pitch to the nearest note of a ten-hole C harmonica, or to the
nearest chromatic note for the tuner. The pages built on top of that are:

- a practice page that counts held target notes;
- a tuner that smooths the last four readings;
- a reference chart with a select/deselect toggle;
- a song library with search and difficulty groups;
- a progress store with milestones, plus the summaries and the achievement
  card built from it.

One Dafny module per source file:

| module | source |
|---|---|
| `Wrappers`, `Numerics`, `Text` | shared helpers: `Option`, `Math.round`/`Math.floor`/JavaScript `%`, number-to-string, `toLowerCase` restricted to ASCII letters, `includes`, `trim` |
| `Yin`, `PitchDetection` | `src/lib/pitchDetection.ts` |
| `HarmonicaData` | `src/lib/harmonicaData.ts` |
| `ChromaticTuner` | `src/lib/chromaticTuner.ts` |
| `Practice` | `src/app/practice/page.tsx` |
| `Tuner` | `src/app/tuner/page.tsx` |
| `Reference` | `src/app/reference/page.tsx` |
| `Milestones` | `src/lib/milestones.ts` |
| `Progress` | `src/lib/progress.ts` |
| `ProgressSummary` | `src/app/components/ProgressSummary.tsx` |
| `MilestoneTracker` | `src/app/components/MilestoneTracker.tsx` |
| `PitchMeter` | `src/app/components/PitchMeter.tsx` |
| `Songs` | `src/lib/songs.ts` |
| `SongList` | `src/app/components/SongList.tsx` |
| `AchievementCard` | `src/lib/achievementCard.ts` |
| `Supporters` | `src/lib/supporters.ts` |

**How each kind of code is modelled.**

- **Imperative code** keeps its shape.
  - Each YIN step is a method that fills arrays with loops. It is proved equal to a specification function over sequences.
  - The pitch detector is a class whose fields are the audio handles.
  - The practice, tuner and reference pages are classes whose methods update the page state. Each method ensures `Model() == F(old(Model()), …)`, where `F` is a pure transition function.
  - The progress store is a class over one storage value.
  - The seeded random generator is a class with one field.
- **Pure code** becomes functions and lemmas.
- **Samples and frequencies** are exact reals.
- **`Math.log2`, `Math.pow(2, x)` and `Math.sqrt`** are passed in as a record of functions (`Numerics.MathLib`). A predicate `Lawful()` states the few laws the proofs use.

## Model

| member | source | states |
|---|---|---|
| Yin.LagBounds | src/lib/pitchDetection.ts:187-205 | tauMin >= 2, -1 <= tauMax <= halfSize - 1, and every access `j + tau` of the difference loop is inside the buffer |
| Yin.CmndfBounds | src/lib/pitchDetection.ts:207-218 | the normalised difference is 1 at lag 0, 1 where the running sum is 0, otherwise in [0, tau], never negative |
| Yin.DiffNonNegative | src/lib/pitchDetection.ts:196-218 | every squared difference and every normalised value is non-negative |
| Yin.CandidatesInSpec | src/lib/pitchDetection.ts:220-229 | candidates have strictly increasing lags in [tauMin, tauMax], values below the threshold (0.2 desktop, 0.3 iOS), are the last lag or have a right neighbour not smaller; every such lag is a candidate, including ones on a rising slope |
| Yin.FirstMinIndex | src/lib/pitchDetection.ts:232-240 | the fallback picks the first lag holding the global minimum of the range |
| Yin.ReduceMin | src/lib/pitchDetection.ts:247-249 | the reduce returns the first candidate of smallest value |
| Yin.OctaveCheckSpec | src/lib/pitchDetection.ts:257-268 | the result is the first candidate from position i whose lag ratio to the best is in (1.8, 2.2) and whose value is less than 0.15 above it (`Qualifies`), and the best itself when none qualifies; it is never a longer lag |
| Yin.ChooseSpec | src/lib/pitchDetection.ts:245-271 | the chosen candidate is on the list, its lag is no longer than the step-4 choice and not below the smallest lag (so the `bestTau < tauMin` test never fires), and its value is within 0.25 of the minimum |
| Yin.Parabolic | src/lib/pitchDetection.ts:290-308 | the lag is returned unchanged at the ends of the range, on a zero denominator and when the adjustment is at least 1 in magnitude; otherwise it is the lag plus the adjustment; the result always lies strictly within one sample of the lag |
| Yin.CandidatesWithFallbackLags | src/lib/pitchDetection.ts:231-243 | after the fallback every candidate has a lag in [tauMin, tauMax] and carries that lag's own value |
| Yin.EstimateSpec | src/lib/pitchDetection.ts:183-285 | no candidates means no pitch; otherwise the chosen lag is in [tauMin, tauMax], a pitch is the sample rate over the interpolated lag and lies in 180..2200 Hz, and that frequency is returned whenever it lies in 180..2200 Hz |
| Yin.ShortBufferHasNoPitch | src/lib/pitchDetection.ts:188-192 | a buffer too short for any lag yields no pitch |
| Yin.DifferenceFunction | src/lib/pitchDetection.ts:196-205 | the nested loops fill the difference buffer with the squared-difference function |
| Yin.NormalisedDifference | src/lib/pitchDetection.ts:207-218 | the running-sum loop fills the normalised buffer |
| Yin.CollectCandidates | src/lib/pitchDetection.ts:220-229 | the scan, with its inner loop advancing the counter, builds exactly the candidate list |
| Yin.FallbackMinimum | src/lib/pitchDetection.ts:231-243 | the fallback loop returns the first global minimum, or no pitch above the ceiling |
| Yin.ChooseCandidate | src/lib/pitchDetection.ts:245-271 | the preference and octave loops with early exit return the chosen candidate |
| Yin.SelectCandidates | src/lib/pitchDetection.ts:220-243 | scan then fallback yields the candidate list with fallback |
| Yin.EstimateFromBuffer | src/lib/pitchDetection.ts:220-285 | candidate selection, octave correction, interpolation and the range gate on the normalised buffer return what the estimator function returns |
| Yin.YinDetect | src/lib/pitchDetection.ts:183-285 | the whole method equals the estimator function |
| PitchDetection.StartWhileRunning | src/lib/pitchDetection.ts:24-25 | start on a running detector changes nothing and resolves |
| PitchDetection.StartOutcomes | src/lib/pitchDetection.ts:24-96 | start resolves exactly when audio is supported, a microphone request is granted (constrained, else plain) and the context runs; any rejection leaves the detector stopped with no handles |
| PitchDetection.OperationsKeepConsistent | src/lib/pitchDetection.ts:24-133 | start, stop and the initial state keep the detector consistent: running holds every handle, stopped holds none |
| PitchDetection.StopIsFinalAndIdempotent | src/lib/pitchDetection.ts:98-133 | stop leaves the detector not running with every handle null, and stopping again changes nothing |
| PitchDetection.SilentIsRmsBelowThreshold | src/lib/pitchDetection.ts:147-156 | the squared silence test agrees with `rms < 0.003` (iOS) or `0.006` |
| PitchDetection.FrameFrequencyRange | src/lib/pitchDetection.ts:145-158 | a frame yields no pitch or one in 180..2200 Hz, and silence yields none |
| PitchDetection.VolumeBounds | src/lib/pitchDetection.ts:161-173 | the volume lies in [0, 1] |
| PitchDetection.Overwrite | src/lib/pitchDetection.ts:145 | reading the analyser copies the window into the buffer as far as both reach |
| PitchDetection.PitchDetector.constructor | src/lib/pitchDetection.ts:13-22 | a new detector is stopped, holds no handles and an empty buffer |
| PitchDetection.PitchDetector.Running | src/lib/pitchDetection.ts:175-177 | the getter is true only for a consistent detector with a context and an analyser |
| PitchDetection.PitchDetector.CleanUpHandles | src/lib/pitchDetection.ts:103-133 | cleanUp drops every handle |
| PitchDetection.PitchDetector.StopDetector | src/lib/pitchDetection.ts:98-101 | stop performs the stop transition and keeps the buffer |
| PitchDetection.PitchDetector.StartDetector | src/lib/pitchDetection.ts:24-96 | start performs the start transition; a successful start from stopped allocates a fresh buffer of the analyser's 8192 samples |
| PitchDetection.PitchDetector.GetFrequency | src/lib/pitchDetection.ts:135-159 | no pitch unless running with a context that is not suspended; otherwise the window is read and passed through the silence test and the estimator |
| PitchDetection.PitchDetector.GetVolume | src/lib/pitchDetection.ts:161-173 | 0 unless running; otherwise the level of the window read, capped at 1 |
| PitchDetection.PitchDetector.BufferSumOfSquares | src/lib/pitchDetection.ts:148-151 | the loop sums the squares of the buffer |
| PitchDetection.PitchDetector.ReadWindow | src/lib/pitchDetection.ts:145 | the analyser read overwrites the buffer with the window |
| HarmonicaData.TableShape | src/lib/harmonicaData.ts:9-32 | 20 entries, blow holes 1..10 then draw holes 1..10, all frequencies positive |
| HarmonicaData.OneEntryPerPair | src/lib/harmonicaData.ts:9-32 | exactly one entry per hole 1..10 and action |
| HarmonicaData.GetNoteForHoleSpec | src/lib/harmonicaData.ts:34-39 | getNoteForHole finds the entry of that hole and action, and nothing outside holes 1..10 |
| HarmonicaData.NearestIndex | src/lib/harmonicaData.ts:47-54 | the first entry of smallest cents distance |
| HarmonicaData.ClosestNoteSpec | src/lib/harmonicaData.ts:41-60 | null outside 180..2200 Hz or when every entry is more than 100 cents away (exactly 100 accepted); otherwise an entry at minimal cents distance, the earliest on ties |
| HarmonicaData.TieGoesToEarlierEntry | src/lib/harmonicaData.ts:13-54 | 392 Hz yields hole 3 blow, not hole 2 draw |
| HarmonicaData.FindClosestNote | src/lib/harmonicaData.ts:41-60 | the loop keeping the closest entry returns the closest note |
| HarmonicaData.CentsOffSign | src/lib/harmonicaData.ts:62-64 | 0 on target; positive only above the target, negative only below |
| HarmonicaData.TabNotationInjective | src/lib/harmonicaData.ts:68-70 | distinct (hole, action) pairs give distinct tabs |
| HarmonicaData.DigitsAreNotDraws | src/lib/harmonicaData.ts:68-70 | a blow tab never equals a draw tab |
| HarmonicaData.TabNotationNegativeCollision | src/lib/harmonicaData.ts:68-70 | a negative hole would collide: blow -4 and draw 4 both read "-4" |
| HarmonicaData.NoteDisplayNameSpec | src/lib/harmonicaData.ts:73-75 | exactly the first digit is removed; a second digit survives; a name without digits is unchanged |
| HarmonicaData.SortByHolePermutes | src/lib/harmonicaData.ts:78-80 | the sort yields a permutation of its input |
| HarmonicaData.SortByHoleSorted | src/lib/harmonicaData.ts:78-80 | the sort yields entries in hole order |
| HarmonicaData.SortByHoleKeepsSorted | src/lib/harmonicaData.ts:78-80 | sorting input already in hole order changes nothing |
| HarmonicaData.RowsSpec | src/lib/harmonicaData.ts:77-87 | getBlowNotes is the ten blow entries for holes 1..10 in order, getDrawNotes the ten draw entries |
| ChromaticTuner.NoteIndexSpec | src/lib/chromaticTuner.ts:51-53 | the double truncating remainder lies in 0..11 and equals the mathematical remainder even for negative MIDI numbers; octave is floor(midi/12) - 1 |
| ChromaticTuner.OctaveShift | src/lib/chromaticTuner.ts:52-53 | 12 more MIDI steps keep the name and raise the octave by one |
| ChromaticTuner.MiddleCAndConcertA | src/lib/chromaticTuner.ts:51-53 | MIDI 60 is C4 and MIDI 69 is A4 |
| ChromaticTuner.CentsRange | src/lib/chromaticTuner.ts:44-48 | the cents deviation always lies in [-50, 50] |
| ChromaticTuner.ConcertAReading | src/lib/chromaticTuner.ts:44-60 | 440 Hz reads A, octave 4, MIDI 69, 0 cents |
| ChromaticTuner.DoublingRaisesOneOctave | src/lib/chromaticTuner.ts:44-60 | doubling the frequency keeps name and cents and raises octave and MIDI by one octave |
| ChromaticTuner.NoteDisplayInjective | src/lib/chromaticTuner.ts:69-74 | with octaves, equal displays mean equal name and octave; without, the display is the name |
| ChromaticTuner.TuningAccuracyBands | src/lib/chromaticTuner.ts:79-84 | in tune iff abs(c) <= 5, close iff 5 < abs(c) <= 15, off otherwise; symmetric in sign |
| Numerics.Round | src/lib/chromaticTuner.ts:45 | `Math.round` returns the integer within half of x, halves rounded up |
| Numerics.JsRem | src/lib/chromaticTuner.ts:52 | the truncating remainder has the sign of the dividend and magnitude below the divisor |
| Practice.SequencesWellFormed | src/app/practice/page.tsx:22-93 | six sequences, all non-empty, every note on a hole 1..10 |
| Practice.TargetNoteSpec | src/app/practice/page.tsx:111-118 | in sequence mode the target is the table entry of the current step; none in free mode |
| Practice.FrameKeepsValid | src/app/practice/page.tsx:120-168 | a frame keeps the step inside the selected sequence and never changes mode or selection |
| Practice.MatchCounting | src/app/practice/page.tsx:132-158 | on target and under 20 cents the counter rises by one; past 15 it scores, resets and advances the step with wrap-around; any other note resets the counter |
| Practice.SilenceClears | src/app/practice/page.tsx:160-165 | no frequency clears note, frequency and cents and resets the counter |
| Practice.NoNoteKeepsCounter | src/app/practice/page.tsx:127-132 | a pitch with no harmonica note nearby leaves counter, score and step unchanged |
| Practice.FreePlayNeverScores | src/app/practice/page.tsx:137-143 | in free mode a frame never scores, never moves the step and never raises the hold counter (it stays or resets) |
| Practice.HoldingCounts | src/app/practice/page.tsx:137-143 | k frames on target from counter c with c + k <= 15 reach counter c + k with no score |
| Practice.SixteenFramesScoreOnce | src/app/practice/page.tsx:143-153 | from 0, fifteen frames on target score nothing and the sixteenth scores one point and advances |
| Practice.EasyScaleFirstNote | src/app/practice/page.tsx:137-153 | sixteen frames at 523.25 Hz score the first note of the easy scale and move to hole 5 |
| Practice.SelectSequenceCanBreakRender | src/app/practice/page.tsx:111-118 | selecting the easy scale at step 7 of the C major scale renders an out-of-range step |
| Practice.SelectSequenceKeepsValid | src/app/practice/page.tsx:212-217 | selection with its reset keeps the state renderable and restarts at step 0, score 0, counter 0 |
| Practice.EventsKeepValid | src/app/practice/page.tsx:170-194 | mode changes and stopping keep the state valid; a valid state renders |
| Practice.PracticeSession.Analyze | src/app/practice/page.tsx:120-168 | the method performs one frame on the page state |
| Practice.PracticeSession.SetPracticeMode | src/app/practice/page.tsx:96 | the method changes the mode only |
| Practice.PracticeSession.ChooseSequence | src/app/practice/page.tsx:212-217 | the corrected form of the practice row under "## Findings": the selection and the reset effect (step, score and counter to 0) happen in one step, so the new state is valid; the intermediate render of the source is `Practice.SelectSequenceCanBreakRender` |
| Practice.PracticeSession.Stop | src/app/practice/page.tsx:170-179 | the method clears the display |
| Tuner.PushKeepsLastFour | src/app/tuner/page.tsx:41-43 | push then shift keeps the last four readings |
| Tuner.HistoryIsLastFour | src/app/tuner/page.tsx:41-43 | after any run of detections the history is the most recent at most four readings, oldest first |
| Tuner.SmoothedBetween | src/app/tuner/page.tsx:44-46 | the rounded mean lies between any bounds of the history |
| Tuner.SmoothedOfSteadyReadings | src/app/tuner/page.tsx:44-46 | steady readings smooth to that reading |
| Tuner.FrameKeepsValid | src/app/tuner/page.tsx:29-70 | a frame keeps at most four readings, all within 50 cents; a detection shows its note and frequency |
| Tuner.EventsKeepValid | src/app/tuner/page.tsx:85-117 | stop, start and a failed start keep the state valid |
| Tuner.SilenceWithoutHoldClears | src/app/tuner/page.tsx:61-68 | no pitch and no hold record clears the display and empties the history |
| Tuner.StopClears | src/app/tuner/page.tsx:85-95 | stopping clears note, frequency, cents, error and history |
| Tuner.DisplayedFrequencyInDetectorRange | src/app/tuner/page.tsx:99-102 | the frequency shown lies in the detector's fixed 180..2200 Hz |
| Tuner.HoldIsNeverCleared | src/app/tuner/page.tsx:52-95 | once set, the hold record survives frames, the timeout, stop and start, so a silent frame changes nothing |
| Tuner.StaleNoteAfterSilence | src/app/tuner/page.tsx:55-68 | after 440 Hz, the timeout and a silent frame, the note shown is still A4 (MIDI 69) |
| Tuner.SilenceAfterTimeoutClears | src/app/tuner/page.tsx:57-68 | with the timeout dropping the hold record, the next silent frame clears the display |
| Tuner.WheelRotationBounds | src/app/tuner/page.tsx:129-130 | the wheel turns at most 135 degrees either way, 0 when in tune |
| Tuner.TunerSession.Analyze | src/app/tuner/page.tsx:29-70 | the method performs one frame |
| Tuner.TunerSession.StopListening | src/app/tuner/page.tsx:86-95 | the method performs the stop branch |
| Tuner.TunerSession.StartListening | src/app/tuner/page.tsx:96-116 | the method performs the start branch, or the failure branch with its error |
| Tuner.TunerSession.HoldExpired | src/app/tuner/page.tsx:57-59 | the timeout's callback is empty: firing it leaves the whole state, hold record included, as it was |
| Tuner.TunerSession.HoldExpiredAsIntended | src/app/tuner/page.tsx:57-59 | the corrected timeout of the tuner row under "## Findings": firing it drops the hold record and changes nothing else (the silent frame after it is `Tuner.SilenceAfterTimeoutClears`) |
| Reference.ClickSpec | src/app/reference/page.tsx:14-22 | clicking the selected pair clears both fields, any other pair selects it; both fields set or neither |
| Reference.ClickTwiceDeselects | src/app/reference/page.tsx:14-22 | two clicks on one pair return to no selection |
| Reference.SelectedNoteSpec | src/app/reference/page.tsx:24-27 | a note is shown exactly when a hole 1..10 and an action are selected, and it is their table entry |
| Reference.ChartSpec | src/app/reference/page.tsx:11-12 | ten blow and ten draw cells in hole order; clicking a cell shows its note |
| Reference.ReferencePage.HandleHoleClick | src/app/reference/page.tsx:14-22 | the method performs a click |
| Reference.ReferencePage.Selected | src/app/reference/page.tsx:24-27 | the method returns the selected note of the current fields |
| Milestones.TableSpec | src/lib/milestones.ts:9-52 | six milestones with thresholds 3, 5, 10, 15, 20, 30: ascending, positive, distinct ids |
| Milestones.UnlockedSpec | src/lib/progress.ts:45-48 | the unlocked milestones are exactly those reached; on an ascending table they are a prefix |
| Milestones.NothingUnlockedAtZero | src/lib/milestones.ts:12-47 | no milestone is unlocked at 0 songs |
| Milestones.FindInReverse | src/app/components/ProgressSummary.tsx:16-18 | find on a reversed copy is the last entry reached |
| Milestones.CurrentAndNext | src/app/components/ProgressSummary.tsx:16-19 | on an ascending table current and next are adjacent entries at the unlocked count |
| Progress.ReadSpec | src/lib/progress.ts:10-27 | empty data without a window, a value or parseable JSON; an accepted write reads back |
| Progress.AddIfAbsentSpec | src/lib/progress.ts:39-40 | adding keeps order, adds only if absent, keeps the list duplicate-free and is idempotent |
| Progress.MarkSongCompletedSpec | src/lib/progress.ts:37-43 | adds the id when storage accepts the write, keeps the shown milestones, is idempotent |
| Progress.MarkMilestoneShownSpec | src/lib/progress.ts:60-66 | adds the id when storage accepts the write, keeps the completed songs, is idempotent |
| Progress.UnlockedMilestonesSpec | src/lib/progress.ts:45-48 | exactly the milestones whose threshold the count reaches, in table order |
| Progress.UnshownSpec | src/lib/progress.ts:55 | the unshown milestones are the unlocked ones whose id was not shown |
| Progress.NewestUnshownSpec | src/lib/progress.ts:51-58 | none iff every unlocked milestone was shown; otherwise the last unlocked, unshown one |
| Progress.MarkingShownMovesOn | src/lib/progress.ts:51-66 | marking the new milestone shown makes the next query return another or none |
| Progress.ProgressStore.GetSongsCompleted | src/lib/progress.ts:29-31 | the count of completed songs read |
| Progress.ProgressStore.MarkSong | src/lib/progress.ts:37-43 | the method performs markSongCompleted on the storage |
| Progress.ProgressStore.MarkShown | src/lib/progress.ts:60-66 | the method performs markMilestoneShown on the storage |
| Progress.ProgressStore.GetNewMilestone | src/lib/progress.ts:51-58 | the method returns the newest unshown unlocked milestone |
| ProgressSummary.PctSpec | src/app/components/ProgressSummary.tsx:15 | the percentage is 0..100 within the library, 100 at all songs, and unclamped (25 of 20 is 125) |
| ProgressSummary.ViewSpec | src/app/components/ProgressSummary.tsx:13-45 | hidden exactly at 0; current is the last reached, next the first above, adjacent; songs to unlock positive |
| ProgressSummary.AllReached | src/app/components/ProgressSummary.tsx:16-19 | from 30 songs the last milestone is current and there is no next |
| MilestoneTracker.UnlockedCountSpec | src/app/components/MilestoneTracker.tsx:96-148 | the count equals the unlocked list's length and the percentage lies in 0..100 |
| MilestoneTracker.RowsMatchHeader | src/app/components/MilestoneTracker.tsx:96-207 | row i is shown unlocked exactly when i is below the header's unlocked count, and shows a positive "to go" exactly when it is locked |
| MilestoneTracker.PreviewOnlyUnlocked | src/app/components/MilestoneTracker.tsx:160-166 | a click opens the preview exactly for an unlocked milestone |
| PitchMeter.NeedleSpec | src/app/components/PitchMeter.tsx:9-10 | clamped cents in [-50, 50]; needle in [0, 100], 50 at 0 cents, monotone |
| PitchMeter.ColourBands | src/app/components/PitchMeter.tsx:11-33 | green iff under 10 cents, amber 10 to under 25, red from 25; symmetric |
| Songs.LibrarySize | src/lib/songs.ts:31-1258 | the library holds 20 songs |
| Songs.LibraryIds | src/lib/songs.ts:31-1258 | the 20 song ids are pairwise distinct |
| Songs.LibraryHoles | src/lib/songs.ts:31-1258 | every tab note of every song is on a hole 1..10 |
| Songs.EveryTabNoteSounds | src/lib/songs.ts:31-1258 | every tab note has its harmonica table entry |
| Songs.FindByIdSpec | src/lib/songs.ts:1260-1262 | none iff no song has the id; otherwise the first such song |
| Songs.GetSongByOwnId | src/lib/songs.ts:1260-1262 | every song is found by its own id |
| Songs.GetSongsByDifficulty | src/lib/songs.ts:1264-1266 | exactly the songs of the difficulty, in library order |
| Songs.FilterDifficultySpec | src/lib/songs.ts:1264-1266 | the filter keeps exactly the songs of the difficulty, as a subsequence |
| Songs.DifficultiesPartition | src/lib/songs.ts:1264-1266 | the three difficulty lists together hold each song as often as the list |
| Songs.LibraryPartition | src/lib/songs.ts:1264-1266 | the three difficulty lists partition the library |
| SongList.FilteredSpec | src/app/components/SongList.tsx:25-34 | a blank query keeps the list; otherwise exactly the songs whose lowercased title, artist or genre contains the lowercased query, in order |
| SongList.FilterMatchingSpec | src/app/components/SongList.tsx:28-33 | the filter keeps exactly the matching songs as a subsequence |
| SongList.SearchIgnoresCase | src/app/components/SongList.tsx:26-27 | a query and its lowercase form show the same songs |
| SongList.GroupedSpec | src/app/components/SongList.tsx:36-44 | at most three non-empty groups, in the order Beginner, Intermediate, Advanced, each the shown songs of its difficulty with its label |
| SongList.GroupKept | src/app/components/SongList.tsx:43 | a difficulty's group is kept iff some shown song has it |
| SongList.GroupedCovers | src/app/components/SongList.tsx:38-43 | every shown song is in the group of its difficulty and in no other; no groups iff no songs |
| AchievementCard.StepInRange | src/lib/achievementCard.ts:6-8 | a state in 1..2^31-2 stays in that range |
| AchievementCard.DrawInUnitInterval | src/lib/achievementCard.ts:4-10 | from a seed in range every value lies strictly between 0 and 1 |
| AchievementCard.SeededRandom.Next | src/lib/achievementCard.ts:6-9 | each call steps the state and returns it over the modulus |
| AchievementCard.SeedsInRange | src/lib/achievementCard.ts:40 | every milestone's seed is at least 63 and in the generator's range |
| AchievementCard.StarBounds | src/lib/achievementCard.ts:42-46 | every star lies on the card with radius in (0.3, 2.1) and opacity in (0.1, 0.6) |
| AchievementCard.StarLayout | src/lib/achievementCard.ts:40-51 | the particle loop yields the fifty stars drawn from the milestone's seed |
| AchievementCard.SlugSpec | src/lib/achievementCard.ts:212 | the slug has the title's length, only [a-z0-9-], keeps letters and digits lowercased and is idempotent |
| AchievementCard.KelvinSignSlugsToDash | src/lib/achievementCard.ts:212 | the Kelvin sign, which full case mapping lowercases to "k", is replaced by a dash before lowercasing |
| AchievementCard.HighFiveFileName | src/lib/achievementCard.ts:212 | "High Five!" downloads as "high-five-.png" |
| AchievementCard.StatsPlural | src/lib/achievementCard.ts:156 | "song" iff the count is 1, otherwise "songs" |
| Supporters.TotalOfAppend | src/lib/supporters.ts:20-22 | the total of a concatenation is the sum of the totals |
| Supporters.TotalSpec | src/lib/supporters.ts:20-22 | the empty list totals 0 and appending a supporter adds exactly their coffees |
| Supporters.TotalNonNegative | src/lib/supporters.ts:20-22 | non-negative coffees give a non-negative total |
| Supporters.CurrentTotal | src/lib/supporters.ts:11-22 | the current list totals 1 |

## Left out

- Web Audio and media plumbing are not modelled. This covers `getUserMedia`, `AudioContext`, the analyser and gain nodes, and the browser's answers. Each is a parameter (`Platform`, the sample window, whether the context is suspended). The resume call on a suspended context is left to the next frame's parameter.
- Floating point is not modelled. Samples and frequencies are exact reals, and `Float32Array` rounding is absent. `log2`, `pow` and `sqrt` are function values that obey only the laws in `Numerics.MathLib.Lawful`, so no claim about the accuracy of the estimate is made.
- React scheduling is not modelled: `requestAnimationFrame`, `setTimeout`, effects and re-renders. Each frame and each event is one synchronous call. The practice page's frame callback reads the state of the render that created it, and the model treats that state as current.
- Local storage and JSON are one value: absent, unparseable, or saved data. Saved data is assumed to have the `ProgressData` shape.
- The canvas drawing of the achievement card is not modelled (text, gradients, word wrap), and neither are download or share. Only the star layout, the file name and the stats text are.
- The songs' `tabSheet` (the printed tab sheet with timestamps) is left out of the `Song` datatype. Only `tabs` is modelled. Song descriptions are kept as data, and nothing is proved about them.
- AchievementCard.SlugSpec: characters are Dafny `char`s, not UTF-16 code units. A title with characters outside the Basic Multilingual Plane would give one dash per code unit in the source and one per character here. The case mapping is ASCII-only, which is exact here: the regex turns every character other than an ASCII letter or digit into `-` before `toLowerCase` runs, so only ASCII letters are ever lowercased (a Kelvin sign U+212A gives "-" in both). Every milestone title is ASCII.
- SongList.FilteredSpec: the search lowercases with ASCII letters only, where JavaScript's `toLowerCase` applies full Unicode case mapping. A query or a song field with non-ASCII letters can match in the source and not here: the Kelvin sign U+212A lowercases to "k" in JavaScript and matches "Yankee Doodle", but finds nothing in the model. Every title, artist and genre in the library is ASCII.
- PitchDetection.PitchDetector.StartDetector: `start` is one atomic step. The source awaits the microphone request, the fallback request and `resume()` before it sets `isRunning`, so two overlapping `start()` calls both pass the running guard and each builds its own audio context. `PitchDetection.StartWhileRunning` covers only a call made after a start has finished; overlapping starts are not captured.
- ProgressSummary.Pct requires a positive library size. The only caller passes the library length, which is 20. With 0 the source would divide by zero, and the result would be `NaN` or `Infinity`.
- The practice page's hold counter resets to 0 on a miss. It does not decay by one.
- The tuner page passes a frequency range of 60 to 4200 Hz to the detector. The detector has no constructor and ignores it, so the model uses the fixed 180 to 2200 Hz range.
- The threshold scan of the estimator also accepts a below-threshold lag on a rising slope, not only local minima. `Yin.CandidatesInSpec` states this.
- The interface files, layouts, sitemap, manifest, site configuration and icon script are not part of this model. They are presentation or build code.

## Findings

| source | as written | input that shows it | evidently intended | confidence | as-written member | corrected member |
|---|---|---|---|---|---|---|
| src/app/practice/page.tsx:111-118, 212-217 | choosing a sequence changes `selectedSequence` at once; step, score and counter are reset by an effect that runs after the next render, and that render indexes `notes[currentStep]` | sequence mode at step 7 of "C Major Scale", then choose "Easy Scale (Blow Only)" (4 notes): `notes[7]` is `undefined`, and reading `.hole` throws | the new sequence starts at step 0 with score and counter 0 before it is rendered | not executed | Practice.SelectSequenceCanBreakRender | Practice.SelectSequenceKeepsValid |
| src/app/tuner/page.tsx:52-68 | the hold timeout's callback is empty, and stopping does not clear `noteHoldRef`; once a note is detected the no-pitch branch never clears the display | detect 440 Hz, let the 1.5 s timeout fire, then a silent frame: A4 stays on screen | the note decays after 1.5 s of silence, as the comment at line 58 says: the hold record is dropped and the next silent frame clears the display | not executed | Tuner.HoldIsNeverCleared | Tuner.SilenceAfterTimeoutClears |
