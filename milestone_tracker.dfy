/**
 * The milestone tracker panel: how many milestones the song count unlocks,
 * the share of them as a percentage, each milestone's unlocked or "to go"
 * state, and the achievement preview, which only an unlocked milestone can
 * open.
 */
module MilestoneTracker {
  import opened Wrappers
  import opened Numerics
  import opened Milestones
  import Progress

  /** `MILESTONES.filter((m) => count >= m.threshold).length`. */
  function UnlockedCount(count: nat): nat
  {
    |Unlocked(MILESTONES, count)|
  }

  /** `Math.round((unlocked / MILESTONES.length) * 100)`. */
  function ProgressPercent(count: nat): int
  {
    TableSpec();
    Round(UnlockedCount(count) as real / |MILESTONES| as real * 100.0)
  }

  /**
   * The count is the number of milestones whose threshold is reached, the
   * same as the progress store's unlocked list, and the percentage lies in
   * 0..100: 0 before the first milestone, 100 once all six are reached.
   */
  lemma UnlockedCountSpec(d: Progress.ProgressData)
    ensures var count := Progress.SongsCompleted(d);
      && UnlockedCount(count) == |Progress.UnlockedMilestones(d)|
      && UnlockedCount(count) <= |MILESTONES|
      && 0 <= ProgressPercent(count) <= 100
      && (count < MILESTONES[0].threshold ==> ProgressPercent(count) == 0)
      && (count >= MILESTONES[5].threshold ==> ProgressPercent(count) == 100)
  {
    TableSpec();
    var count := Progress.SongsCompleted(d);
    UnlockedSpec(MILESTONES, count);
    var k := UnlockedCount(count);
    assert k as real / 6.0 <= 1.0;
    if count >= MILESTONES[5].threshold {
      assert k as real / 6.0 * 100.0 == 100.0;
    }
  }

  /** `count >= m.threshold`. */
  predicate IsUnlocked(m: Milestone, count: nat)
  {
    count >= m.threshold
  }

  /** `m.threshold - count`, shown for a locked milestone. */
  function ToGo(m: Milestone, count: nat): int
  {
    m.threshold - count
  }

  /**
   * The rows agree with the header: the rows shown unlocked are exactly the
   * first `UnlockedCount(count)` of the table, and a row shows a positive
   * number of songs to go exactly when it is locked, i.e. from that position
   * on.
   */
  lemma RowsMatchHeader(count: nat)
    ensures forall i :: 0 <= i < |MILESTONES| ==>
      (IsUnlocked(MILESTONES[i], count) <==> i < UnlockedCount(count))
    ensures forall i :: 0 <= i < |MILESTONES| ==>
      (ToGo(MILESTONES[i], count) > 0 <==> UnlockedCount(count) <= i)
  {
    TableSpec();
    UnlockedSpec(MILESTONES, count);
    var k := UnlockedCount(count);
    forall i | 0 <= i < k
      ensures IsUnlocked(MILESTONES[i], count)
    {
      assert MILESTONES[i] == Unlocked(MILESTONES, count)[i];
      assert MILESTONES[i] in Unlocked(MILESTONES, count);
    }
  }

  /** A click on a milestone's row: `isUnlocked && setPreviewMilestone(m)`. */
  function ClickMilestone(preview: Option<Milestone>, m: Milestone, count: nat): Option<Milestone>
  {
    if IsUnlocked(m, count) then Some(m) else preview
  }

  /** Closing the preview. */
  function ClosePreview(preview: Option<Milestone>): Option<Milestone>
  {
    None
  }

  /**
   * A click opens the preview of that milestone exactly when it is unlocked
   * and changes nothing otherwise, so a preview that starts closed only ever
   * shows an unlocked milestone.
   */
  lemma PreviewOnlyUnlocked(preview: Option<Milestone>, m: Milestone, count: nat)
    ensures ClickMilestone(preview, m, count) == Some(m) <==> IsUnlocked(m, count) || preview == Some(m)
    ensures !IsUnlocked(m, count) ==> ClickMilestone(preview, m, count) == preview
    ensures (preview.Some? ==> IsUnlocked(preview.value, count)) ==>
      var p := ClickMilestone(preview, m, count); p.Some? ==> IsUnlocked(p.value, count)
    ensures ClosePreview(preview) == None
  {
  }
}
