/**
 * The milestone table and the threshold queries the progress store, the
 * progress summary and the milestone tracker make of it.  The queries are
 * stated over any table and proved for the ascending ones; the table itself
 * is shown to be ascending, with distinct ids and positive thresholds.
 */
module Milestones {
  import opened Wrappers

  datatype Milestone = Milestone(id: string, threshold: nat, title: string, message: string, emoji: string)

  /** `MILESTONES`. */
  const MILESTONES: seq<Milestone> := [
    Milestone("three-songs", 3, "Getting the Hang of It!",
      "3 songs down — your lips are getting stronger and your ear is sharpening.", "\U{1F525}"),
    Milestone("five-songs", 5, "High Five!",
      "5 songs completed! You're building a real repertoire.", "\U{1F64C}"),
    Milestone("ten-songs", 10, "Rising Star!",
      "10 songs — you're officially hooked. Keep that harmonica close!", "\U{2B50}"),
    Milestone("fifteen-songs", 15, "Harmonica Hero!",
      "15 songs! You can entertain a whole campfire now.", "\U{1F3B8}"),
    Milestone("twenty-songs", 20, "Master Player!",
      "20 songs completed — you've mastered the library!", "\U{1F3C6}"),
    Milestone("thirty-songs", 30, "Harmonica Legend!",
      "30 songs completed — you've become a true harmonica legend!", "\U{1F3B8}")
  ]

  predicate Ascending(ms: seq<Milestone>)
  {
    forall i, j :: 0 <= i < j < |ms| ==> ms[i].threshold < ms[j].threshold
  }

  predicate DistinctIds(ms: seq<Milestone>)
  {
    forall i, j :: 0 <= i < j < |ms| ==> ms[i].id != ms[j].id
  }

  /**
   * Six milestones, at 3, 5, 10, 15, 20 and 30 songs: strictly ascending,
   * all positive, with pairwise distinct ids.
   */
  lemma TableSpec()
    ensures |MILESTONES| == 6
    ensures MILESTONES[0].threshold == 3 && MILESTONES[1].threshold == 5 && MILESTONES[2].threshold == 10
    ensures MILESTONES[3].threshold == 15 && MILESTONES[4].threshold == 20 && MILESTONES[5].threshold == 30
    ensures Ascending(MILESTONES) && DistinctIds(MILESTONES)
    ensures forall i :: 0 <= i < |MILESTONES| ==> MILESTONES[i].threshold > 0
  {
  }

  // ---------------------------------------------------------------- queries

  /** `ms.filter((m) => count >= m.threshold)`. */
  function Unlocked(ms: seq<Milestone>, count: int): (r: seq<Milestone>)
    ensures |r| <= |ms|
  {
    if ms == [] then []
    else (if ms[0].threshold <= count then [ms[0]] else []) + Unlocked(ms[1..], count)
  }

  /**
   * The unlocked milestones are exactly those reached by `count`; on an
   * ascending table they are its first `k` entries, all later ones being out
   * of reach.
   */
  lemma {:induction false} UnlockedSpec(ms: seq<Milestone>, count: int)
    ensures forall m :: m in Unlocked(ms, count) <==> m in ms && m.threshold <= count
    ensures |Unlocked(ms, count)| <= |ms|
    ensures Ascending(ms) ==>
      var k := |Unlocked(ms, count)|;
      && Unlocked(ms, count) == ms[..k]
      && (forall i :: k <= i < |ms| ==> ms[i].threshold > count)
  {
    if ms != [] {
      UnlockedSpec(ms[1..], count);
      if Ascending(ms) {
        assert Ascending(ms[1..]);
        var u := Unlocked(ms[1..], count);
        if ms[0].threshold > count {
          forall i | 0 <= i < |ms[1..]| ensures ms[1..][i].threshold > count {
            assert ms[1..][i] == ms[i + 1];
          }
          assert u == ms[1..][..|u|];
          assert u == [];
        } else {
          assert [ms[0]] + ms[1..][..|u|] == ms[..|u| + 1];
        }
      }
    }
  }

  /** Nothing is unlocked at 0 songs, since every threshold is positive. */
  lemma NothingUnlockedAtZero()
    ensures Unlocked(MILESTONES, 0) == []
  {
    TableSpec();
    UnlockedSpec(MILESTONES, 0);
  }

  /** `ms.find((m) => count >= m.threshold)`. */
  function FindReached(ms: seq<Milestone>, count: int): Option<Milestone>
  {
    if ms == [] then None
    else if ms[0].threshold <= count then Some(ms[0])
    else FindReached(ms[1..], count)
  }

  /** `ms.find((m) => m.threshold > count)`. */
  function FindAbove(ms: seq<Milestone>, count: int): Option<Milestone>
  {
    if ms == [] then None
    else if ms[0].threshold > count then Some(ms[0])
    else FindAbove(ms[1..], count)
  }

  /** `[...ms].reverse()`: a reversed copy. */
  function Reverse(ms: seq<Milestone>): (r: seq<Milestone>)
    ensures |r| == |ms|
  {
    if ms == [] then [] else [ms[|ms| - 1]] + Reverse(ms[..|ms| - 1])
  }

  /** The last entry reached by `count`, searched from the end. */
  function LastReached(ms: seq<Milestone>, count: int): Option<Milestone>
  {
    if ms == [] then None
    else if ms[|ms| - 1].threshold <= count then Some(ms[|ms| - 1])
    else LastReached(ms[..|ms| - 1], count)
  }

  /** Finding in the reversed copy is finding the last entry reached. */
  lemma {:induction false} FindInReverse(ms: seq<Milestone>, count: int)
    ensures FindReached(Reverse(ms), count) == LastReached(ms, count)
  {
    if ms != [] {
      var r := Reverse(ms);
      assert r[0] == ms[|ms| - 1] && r[1..] == Reverse(ms[..|ms| - 1]);
      FindInReverse(ms[..|ms| - 1], count);
    }
  }

  /** Below position `k` every entry is reached, and from `k` on none is. */
  predicate SplitAt(ms: seq<Milestone>, count: int, k: nat)
  {
    && k <= |ms|
    && (forall i :: 0 <= i < k ==> ms[i].threshold <= count)
    && (forall i :: k <= i < |ms| ==> ms[i].threshold > count)
  }

  lemma {:induction false} FindAboveAt(ms: seq<Milestone>, count: int, k: nat)
    requires SplitAt(ms, count, k)
    ensures FindAbove(ms, count) == if k < |ms| then Some(ms[k]) else None
    decreases k
  {
    if k > 0 {
      assert SplitAt(ms[1..], count, k - 1) by {
        forall i | 0 <= i < |ms[1..]| ensures ms[1..][i] == ms[i + 1] { }
      }
      FindAboveAt(ms[1..], count, k - 1);
    } else if ms != [] {
      assert ms[0].threshold > count;
    }
  }

  lemma {:induction false} LastReachedAt(ms: seq<Milestone>, count: int, k: nat)
    requires SplitAt(ms, count, k)
    ensures LastReached(ms, count) == if k > 0 then Some(ms[k - 1]) else None
    decreases |ms|
  {
    if ms != [] && k < |ms| {
      var init := ms[..|ms| - 1];
      assert SplitAt(init, count, k);
      LastReachedAt(init, count, k);
    } else if ms != [] {
      assert ms[|ms| - 1].threshold <= count;
    }
  }

  /**
   * On an ascending table, with `k` entries unlocked by `count`: the last
   * entry reached (found in a reversed copy) is entry `k - 1`, or none when
   * `k` is 0, and the first entry not reached is entry `k`, or none when all
   * are reached.  So the current and the next milestone are adjacent.
   */
  lemma CurrentAndNext(ms: seq<Milestone>, count: int)
    requires Ascending(ms)
    ensures var k := |Unlocked(ms, count)|;
      && k <= |ms|
      && FindReached(Reverse(ms), count) == (if k > 0 then Some(ms[k - 1]) else None)
      && FindAbove(ms, count) == (if k < |ms| then Some(ms[k]) else None)
  {
    UnlockedSpec(ms, count);
    var k := |Unlocked(ms, count)|;
    forall i | 0 <= i < k ensures ms[i].threshold <= count {
      assert ms[i] in Unlocked(ms, count);
    }
    assert SplitAt(ms, count, k);
    FindInReverse(ms, count);
    LastReachedAt(ms, count, k);
    FindAboveAt(ms, count, k);
  }
}
