/**
 * The progress summary on the home page: the number of songs completed, the
 * percentage of the song library, the milestone reached last and the next
 * one to aim for.
 */
module ProgressSummary {
  import opened Wrappers
  import opened Numerics
  import opened Milestones

  /** What the card shows for a song count, when it shows anything. */
  datatype Summary = Summary(
    noun: string,                    // "song" or "songs"
    pct: int,
    current: Option<Milestone>,
    next: Option<Milestone>,
    toUnlock: Option<int>)           // "N more to unlock", when there is a next milestone

  /** `Math.round((count / totalSongs) * 100)`. */
  function Pct(count: nat, totalSongs: nat): int
    requires totalSongs > 0
  {
    Round(count as real / totalSongs as real * 100.0)
  }

  /** `[...MILESTONES].reverse().find((m) => count >= m.threshold)`. */
  function CurrentMilestone(count: nat): Option<Milestone>
  {
    FindReached(Reverse(MILESTONES), count)
  }

  /** `MILESTONES.find((m) => m.threshold > count)`. */
  function NextMilestone(count: nat): Option<Milestone>
  {
    FindAbove(MILESTONES, count)
  }

  function SongsLabel(count: nat): string
  {
    if count == 1 then "song" else "songs"
  }

  /** The card: nothing at all before the first completed song. */
  function View(count: nat, totalSongs: nat): Option<Summary>
    requires totalSongs > 0
  {
    if count == 0 then None
    else
      var next := NextMilestone(count);
      Some(Summary(SongsLabel(count), Pct(count, totalSongs), CurrentMilestone(count), next,
                   if next.Some? then Some(next.value.threshold - count) else None))
  }

  /**
   * The percentage is 0 to 100 while the count is within the library, 100
   * when every song is done, and is not clamped: completed ids are never
   * checked against the library, so 25 completions of 20 songs read 125%.
   */
  lemma PctSpec(count: nat, totalSongs: nat)
    requires totalSongs > 0
    ensures count <= totalSongs ==> 0 <= Pct(count, totalSongs) <= 100
    ensures count == totalSongs ==> Pct(count, totalSongs) == 100
    ensures Pct(25, 20) == 125
  {
    var c := count as real;
    var t := totalSongs as real;
    if count <= totalSongs {
      QuotientBetween(c, t, 0.0, 1.0);
    }
    if count == totalSongs {
      QuotientBetween(c, t, 1.0, 1.0);
    }
    assert 25.0 / 20.0 * 100.0 == 125.0;
  }

  /**
   * The card is hidden exactly at 0 songs.  The current milestone is the
   * last one whose threshold the count reaches, the next one is the entry
   * right after it in the table (the first one out of reach), and the songs
   * still needed for it are always positive.
   */
  lemma ViewSpec(count: nat, totalSongs: nat)
    requires totalSongs > 0
    ensures View(count, totalSongs).None? <==> count == 0
    ensures var k := |Unlocked(MILESTONES, count)|;
      && CurrentMilestone(count) == (if k > 0 then Some(MILESTONES[k - 1]) else None)
      && NextMilestone(count) == (if k < |MILESTONES| then Some(MILESTONES[k]) else None)
      && (k > 0 ==> MILESTONES[k - 1].threshold <= count)
      && (k < |MILESTONES| ==> MILESTONES[k].threshold > count)
    ensures View(count, totalSongs).Some? && View(count, totalSongs).value.toUnlock.Some? ==>
      View(count, totalSongs).value.toUnlock.value > 0
  {
    TableSpec();
    CurrentAndNext(MILESTONES, count);
    UnlockedSpec(MILESTONES, count);
    var k := |Unlocked(MILESTONES, count)|;
    if k > 0 {
      assert MILESTONES[k - 1] in Unlocked(MILESTONES, count);
    }
  }

  /** From 30 songs on every milestone is reached: the last is current and there is no next. */
  lemma AllReached(count: nat)
    requires count >= 30
    ensures CurrentMilestone(count) == Some(MILESTONES[5]) && NextMilestone(count) == None
  {
    TableSpec();
    CurrentAndNext(MILESTONES, count);
    UnlockedSpec(MILESTONES, count);
  }
}
