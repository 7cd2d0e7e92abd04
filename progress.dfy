/**
 * The learner's progress: the ids of completed songs and of milestones whose
 * banner was shown, kept under one key of the browser's local storage.  The
 * stored value is abstracted to `Stored`: nothing, something that does not
 * parse, or saved data.  Reading falls back to empty data, and writing may
 * fail silently (no browser window, private browsing, quota).
 *
 * `ProgressStore` is the store as an object whose methods update the stored
 * value; the functions beside it say what each operation does to that value.
 */
module Progress {
  import opened Wrappers
  import opened Milestones

  datatype ProgressData = ProgressData(completedSongs: seq<string>, shownMilestones: seq<string>)

  const Empty: ProgressData := ProgressData([], [])

  /** The value under `fh_progress`. */
  datatype Stored = Absent | Unparseable | Saved(data: ProgressData)

  /** `read`: the saved data, or empty data without a window, without a value or when it does not parse. */
  function Read(hasWindow: bool, stored: Stored): ProgressData
  {
    if !hasWindow then Empty
    else match stored
      case Absent => Empty
      case Unparseable => Empty
      case Saved(d) => d
  }

  /** `write`: the new data is saved unless storage refuses it, in which case nothing changes. */
  function Write(hasWindow: bool, writable: bool, stored: Stored, d: ProgressData): Stored
  {
    if hasWindow && writable then Saved(d) else stored
  }

  /**
   * Read falls back to empty data when there is no window or no parseable
   * value, and reads back whatever an accepted write saved.
   */
  lemma ReadSpec(hasWindow: bool, stored: Stored)
    ensures !hasWindow || stored == Absent || stored == Unparseable ==> Read(hasWindow, stored) == Empty
    ensures hasWindow && stored.Saved? ==> Read(hasWindow, stored) == stored.data
    ensures hasWindow ==> forall d :: Read(hasWindow, Write(hasWindow, true, stored, d)) == d
  {
  }

  // ---------------------------------------------------------------- set-like lists

  /** `if (!xs.includes(x)) xs.push(x)`. */
  function AddIfAbsent(xs: seq<string>, x: string): seq<string>
  {
    if x in xs then xs else xs + [x]
  }

  predicate NoDuplicates(xs: seq<string>)
  {
    forall i, j :: 0 <= i < j < |xs| ==> xs[i] != xs[j]
  }

  /**
   * Adding keeps what was there, in order, and makes `x` a member; it grows
   * the list by one exactly when `x` was absent, keeps it free of duplicates,
   * and adding again changes nothing.
   */
  lemma AddIfAbsentSpec(xs: seq<string>, x: string)
    ensures var r := AddIfAbsent(xs, x);
      && x in r && r[..|xs|] == xs
      && (forall y :: y in r <==> y in xs || y == x)
      && |r| == (if x in xs then |xs| else |xs| + 1)
      && (NoDuplicates(xs) ==> NoDuplicates(r))
      && AddIfAbsent(r, x) == r
  {
  }

  // ---------------------------------------------------------------- operations on storage

  /** `getSongsCompleted`. */
  function SongsCompleted(d: ProgressData): nat
  {
    |d.completedSongs|
  }

  /** `markSongCompleted`: the read data with the id added, written back only if it was new. */
  function MarkSongCompleted(hasWindow: bool, writable: bool, stored: Stored, songId: string): Stored
  {
    var d := Read(hasWindow, stored);
    if songId in d.completedSongs then stored
    else Write(hasWindow, writable, stored, d.(completedSongs := d.completedSongs + [songId]))
  }

  /** `markMilestoneShown`. */
  function MarkMilestoneShown(hasWindow: bool, writable: bool, stored: Stored, id: string): Stored
  {
    var d := Read(hasWindow, stored);
    if id in d.shownMilestones then stored
    else Write(hasWindow, writable, stored, d.(shownMilestones := d.shownMilestones + [id]))
  }

  /**
   * Marking a song adds its id to the completed songs when storage accepts
   * the write, and leaves everything as it was otherwise; the shown
   * milestones never change, the count rises by at most one, and marking
   * the same song again changes nothing.
   */
  lemma MarkSongCompletedSpec(hasWindow: bool, writable: bool, stored: Stored, songId: string)
    ensures var before := Read(hasWindow, stored);
      var after := Read(hasWindow, MarkSongCompleted(hasWindow, writable, stored, songId));
      && after.shownMilestones == before.shownMilestones
      && (hasWindow && writable ==> after.completedSongs == AddIfAbsent(before.completedSongs, songId))
      && (!(hasWindow && writable) ==> after == before)
      && SongsCompleted(before) <= SongsCompleted(after) <= SongsCompleted(before) + 1
    ensures var once := MarkSongCompleted(hasWindow, writable, stored, songId);
      MarkSongCompleted(hasWindow, writable, once, songId) == once
  {
  }

  /**
   * Marking a milestone adds its id to the shown milestones when storage
   * accepts the write; the completed songs never change, and marking again
   * changes nothing.
   */
  lemma MarkMilestoneShownSpec(hasWindow: bool, writable: bool, stored: Stored, id: string)
    ensures var before := Read(hasWindow, stored);
      var after := Read(hasWindow, MarkMilestoneShown(hasWindow, writable, stored, id));
      && after.completedSongs == before.completedSongs
      && (hasWindow && writable ==> after.shownMilestones == AddIfAbsent(before.shownMilestones, id))
      && (!(hasWindow && writable) ==> after == before)
    ensures var once := MarkMilestoneShown(hasWindow, writable, stored, id);
      MarkMilestoneShown(hasWindow, writable, once, id) == once
  {
  }

  // ---------------------------------------------------------------- milestones

  /** `getUnlockedMilestones`. */
  function UnlockedMilestones(d: ProgressData): seq<Milestone>
  {
    Unlocked(MILESTONES, SongsCompleted(d))
  }

  /** Exactly the first milestones of the table, those whose threshold the song count reaches. */
  lemma UnlockedMilestonesSpec(d: ProgressData)
    ensures var u := UnlockedMilestones(d);
      && u == MILESTONES[..|u|]
      && (forall i :: 0 <= i < |MILESTONES| ==> (MILESTONES[i] in u <==> MILESTONES[i].threshold <= SongsCompleted(d)))
  {
    TableSpec();
    UnlockedSpec(MILESTONES, SongsCompleted(d));
  }

  /** `unlocked.filter((m) => !shown.includes(m.id))`. */
  function Unshown(ms: seq<Milestone>, shown: seq<string>): seq<Milestone>
  {
    if ms == [] then []
    else (if ms[0].id in shown then [] else [ms[0]]) + Unshown(ms[1..], shown)
  }

  lemma {:induction false} UnshownSpec(ms: seq<Milestone>, shown: seq<string>)
    ensures forall m :: m in Unshown(ms, shown) <==> m in ms && m.id !in shown
  {
    if ms != [] {
      UnshownSpec(ms[1..], shown);
    }
  }

  /** `getNewMilestone` on a list of unlocked milestones: the last one not yet shown. */
  function NewestUnshown(unlocked: seq<Milestone>, shown: seq<string>): Option<Milestone>
  {
    var unshown := Unshown(unlocked, shown);
    if |unshown| == 0 then None else Some(unshown[|unshown| - 1])
  }

  /** Every milestone of `ms` from position `i` on was shown. */
  predicate ShownFrom(ms: seq<Milestone>, shown: seq<string>, i: nat)
  {
    forall j :: i <= j < |ms| ==> ms[j].id in shown
  }

  /**
   * None exactly when every unlocked milestone was shown; otherwise an
   * unlocked, unshown milestone after which every unlocked one was shown.
   */
  lemma {:induction false} NewestUnshownSpec(unlocked: seq<Milestone>, shown: seq<string>)
    ensures var r := NewestUnshown(unlocked, shown);
      && (r.None? <==> ShownFrom(unlocked, shown, 0))
      && (r.Some? ==> exists i :: (0 <= i < |unlocked| && unlocked[i] == r.value && r.value.id !in shown
            && ShownFrom(unlocked, shown, i + 1)))
  {
    if unlocked != [] {
      var init, last := unlocked[..|unlocked| - 1], unlocked[|unlocked| - 1];
      assert unlocked == init + [last];
      UnshownAppend(init, last, shown);
      if last.id !in shown {
        assert NewestUnshown(unlocked, shown) == Some(last);
        assert !ShownFrom(unlocked, shown, 0);
        assert ShownFrom(unlocked, shown, |unlocked|);
      } else {
        NewestUnshownSpec(init, shown);
        assert Unshown(unlocked, shown) == Unshown(init, shown);
        assert ShownFrom(unlocked, shown, 0) <==> ShownFrom(init, shown, 0);
        if NewestUnshown(init, shown).Some? {
          var i :| 0 <= i < |init| && init[i] == NewestUnshown(init, shown).value
            && NewestUnshown(init, shown).value.id !in shown && ShownFrom(init, shown, i + 1);
          assert unlocked[i] == init[i];
          assert ShownFrom(unlocked, shown, i + 1);
        }
      }
    }
  }

  lemma {:induction false} UnshownAppend(ms: seq<Milestone>, m: Milestone, shown: seq<string>)
    ensures Unshown(ms + [m], shown) == Unshown(ms, shown) + (if m.id in shown then [] else [m])
  {
    if ms != [] {
      assert (ms + [m])[0] == ms[0] && (ms + [m])[1..] == ms[1..] + [m];
      UnshownAppend(ms[1..], m, shown);
    } else {
      assert [m][1..] == [];
    }
  }

  /** `getNewMilestone`. */
  function NewMilestone(d: ProgressData): Option<Milestone>
  {
    NewestUnshown(UnlockedMilestones(d), d.shownMilestones)
  }

  /**
   * Once the new milestone is marked shown and storage accepts the write,
   * the next query returns another milestone or none; a refused write leaves
   * the same milestone new.
   */
  lemma MarkingShownMovesOn(hasWindow: bool, writable: bool, stored: Stored)
    requires NewMilestone(Read(hasWindow, stored)).Some?
    ensures var m := NewMilestone(Read(hasWindow, stored)).value;
      var after := Read(hasWindow, MarkMilestoneShown(hasWindow, writable, stored, m.id));
      hasWindow && writable ==> NewMilestone(after) != Some(m)
    ensures var m := NewMilestone(Read(hasWindow, stored)).value;
      var after := Read(hasWindow, MarkMilestoneShown(hasWindow, writable, stored, m.id));
      !(hasWindow && writable) ==> NewMilestone(after) == Some(m)
  {
    var d := Read(hasWindow, stored);
    var m := NewMilestone(d).value;
    MarkMilestoneShownSpec(hasWindow, writable, stored, m.id);
    var after := Read(hasWindow, MarkMilestoneShown(hasWindow, writable, stored, m.id));
    if hasWindow && writable {
      assert m.id in after.shownMilestones;
      NewestUnshownSpec(UnlockedMilestones(after), after.shownMilestones);
    }
  }

  // ---------------------------------------------------------------- the store

  class ProgressStore {
    /** Whether the code runs in a browser window. */
    const hasWindow: bool
    /** Whether local storage accepts writes. */
    const writable: bool
    var stored: Stored

    constructor (hasWindow: bool, writable: bool, stored: Stored)
      ensures this.hasWindow == hasWindow && this.writable == writable && this.stored == stored
    {
      this.hasWindow := hasWindow;
      this.writable := writable;
      this.stored := stored;
    }

    function Data(): ProgressData
      reads this
    {
      Read(hasWindow, stored)
    }

    method GetSongsCompleted() returns (n: nat)
      ensures n == |Data().completedSongs|
    {
      var d := Read(hasWindow, stored);
      n := |d.completedSongs|;
    }

    method MarkSong(songId: string)
      modifies this
      ensures stored == MarkSongCompleted(hasWindow, writable, old(stored), songId)
    {
      var d := Read(hasWindow, stored);
      if songId !in d.completedSongs {
        var completed := d.completedSongs + [songId];
        if hasWindow && writable {
          stored := Saved(d.(completedSongs := completed));
        }
      }
    }

    method MarkShown(id: string)
      modifies this
      ensures stored == MarkMilestoneShown(hasWindow, writable, old(stored), id)
    {
      var d := Read(hasWindow, stored);
      if id !in d.shownMilestones {
        var shown := d.shownMilestones + [id];
        if hasWindow && writable {
          stored := Saved(d.(shownMilestones := shown));
        }
      }
    }

    method GetNewMilestone() returns (r: Option<Milestone>)
      ensures r == NewMilestone(Data())
      ensures r.Some? ==>
        r.value in MILESTONES && r.value.threshold <= |Data().completedSongs| && r.value.id !in Data().shownMilestones
    {
      var d := Read(hasWindow, stored);
      NewestUnshownSpec(UnlockedMilestones(d), d.shownMilestones);
      UnlockedSpec(MILESTONES, SongsCompleted(d));
      r := NewMilestone(d);
    }
  }
}
