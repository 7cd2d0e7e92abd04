/**
 * The note table of a 10-hole diatonic harmonica in C and the lookups on it:
 * the note of a hole and action, the nearest note to a detected frequency
 * (by cents distance, with a 100-cent rejection), the cents offset from a
 * target, tab notation, note names without the octave digit, and the blow
 * and draw rows sorted by hole.
 */
module HarmonicaData {
  import opened Wrappers
  import opened Numerics
  import opened Text

  datatype Action = Blow | Draw

  datatype HarmonicaNote = HarmonicaNote(hole: int, action: Action, note: string, frequency: real)

  /** `HARMONICA_NOTES`: the ten blow notes, then the ten draw notes, each in hole order. */
  const HARMONICA_NOTES: seq<HarmonicaNote> := [
    HarmonicaNote(1, Blow, "C4", 261.63),
    HarmonicaNote(2, Blow, "E4", 329.63),
    HarmonicaNote(3, Blow, "G4", 392.0),
    HarmonicaNote(4, Blow, "C5", 523.25),
    HarmonicaNote(5, Blow, "E5", 659.25),
    HarmonicaNote(6, Blow, "G5", 783.99),
    HarmonicaNote(7, Blow, "C6", 1046.5),
    HarmonicaNote(8, Blow, "E6", 1318.51),
    HarmonicaNote(9, Blow, "G6", 1567.98),
    HarmonicaNote(10, Blow, "C7", 2093.0),
    HarmonicaNote(1, Draw, "D4", 293.66),
    HarmonicaNote(2, Draw, "G4", 392.0),
    HarmonicaNote(3, Draw, "B4", 493.88),
    HarmonicaNote(4, Draw, "D5", 587.33),
    HarmonicaNote(5, Draw, "F5", 698.46),
    HarmonicaNote(6, Draw, "A5", 880.0),
    HarmonicaNote(7, Draw, "B5", 987.77),
    HarmonicaNote(8, Draw, "D6", 1174.66),
    HarmonicaNote(9, Draw, "F6", 1396.91),
    HarmonicaNote(10, Draw, "A6", 1760.0)
  ]

  /** Where the entry for a hole and action sits in the table. */
  function TableIndex(hole: int, action: Action): int
  {
    if action == Blow then hole - 1 else hole + 9
  }

  /**
   * The table has 20 entries, one for each hole 1..10 and action, each at
   * `TableIndex`, and all frequencies are positive.
   */
  lemma TableShape()
    ensures |HARMONICA_NOTES| == 20
    ensures forall i :: 0 <= i < 20 ==>
      var n := HARMONICA_NOTES[i];
      && 1 <= n.hole <= 10
      && TableIndex(n.hole, n.action) == i
      && n.frequency > 0.0
    ensures PositiveFrequencies(HARMONICA_NOTES)
  {
  }

  /** No two entries share a hole and an action, and every pair has an entry. */
  lemma OneEntryPerPair(hole: int, action: Action)
    requires 1 <= hole <= 10
    ensures 0 <= TableIndex(hole, action) < 20
    ensures var n := HARMONICA_NOTES[TableIndex(hole, action)]; n.hole == hole && n.action == action
    ensures forall i :: 0 <= i < 20 && HARMONICA_NOTES[i].hole == hole && HARMONICA_NOTES[i].action == action ==>
      i == TableIndex(hole, action)
  {
    TableShape();
  }

  // ---------------------------------------------------------------- lookup

  /** `notes.find(...)` for a hole and action, from position `i` on. */
  function FindFrom(notes: seq<HarmonicaNote>, hole: int, action: Action, i: nat): (r: Option<HarmonicaNote>)
    decreases |notes| - i
  {
    if i >= |notes| then None
    else if notes[i].hole == hole && notes[i].action == action then Some(notes[i])
    else FindFrom(notes, hole, action, i + 1)
  }

  /** What `find` returns: the first matching entry at or after `i`, or nothing when none matches. */
  lemma {:induction false} FindFromSpec(notes: seq<HarmonicaNote>, hole: int, action: Action, i: nat)
    ensures var r := FindFrom(notes, hole, action, i);
      && (r.None? <==> forall j :: i <= j < |notes| ==> !(notes[j].hole == hole && notes[j].action == action))
      && (r.Some? ==> exists j :: i <= j < |notes| && notes[j] == r.value
                        && r.value.hole == hole && r.value.action == action
                        && forall k :: i <= k < j ==> !(notes[k].hole == hole && notes[k].action == action))
    decreases |notes| - i
  {
    if i < |notes| && !(notes[i].hole == hole && notes[i].action == action) {
      FindFromSpec(notes, hole, action, i + 1);
    }
  }

  function GetNoteForHole(hole: int, action: Action): Option<HarmonicaNote>
  {
    FindFrom(HARMONICA_NOTES, hole, action, 0)
  }

  /**
   * `getNoteForHole` finds the table entry of a hole 1..10 and action, and
   * nothing for any other hole.
   */
  lemma GetNoteForHoleSpec(hole: int, action: Action)
    ensures 1 <= hole <= 10 ==> GetNoteForHole(hole, action) == Some(HARMONICA_NOTES[TableIndex(hole, action)])
    ensures !(1 <= hole <= 10) ==> GetNoteForHole(hole, action) == None
    ensures GetNoteForHole(hole, action).Some? ==>
      GetNoteForHole(hole, action).value.hole == hole && GetNoteForHole(hole, action).value.action == action
  {
    FindFromSpec(HARMONICA_NOTES, hole, action, 0);
    TableShape();
    if 1 <= hole <= 10 {
      OneEntryPerPair(hole, action);
    }
  }

  // ---------------------------------------------------------------- nearest note

  const MIN_NOTE_FREQUENCY: real := 180.0
  const MAX_NOTE_FREQUENCY: real := 2200.0
  const MAX_CENTS_AWAY: real := 100.0

  /** `|1200 * log2(frequency / note.frequency)|`. */
  function CentsDistance(m: MathLib, frequency: real, n: HarmonicaNote): real
    requires n.frequency != 0.0
  {
    AbsReal(1200.0 * m.log2(frequency / n.frequency))
  }

  predicate PositiveFrequencies(notes: seq<HarmonicaNote>)
  {
    forall i :: 0 <= i < |notes| ==> notes[i].frequency > 0.0
  }

  /** The first of the first `count` entries with the smallest cents distance. */
  function NearestIndex(m: MathLib, frequency: real, notes: seq<HarmonicaNote>, count: nat): (k: nat)
    requires PositiveFrequencies(notes) && 1 <= count <= |notes|
    ensures k < count
    ensures forall j :: 0 <= j < count ==>
      CentsDistance(m, frequency, notes[k]) <= CentsDistance(m, frequency, notes[j])
    ensures forall j :: 0 <= j < k ==>
      CentsDistance(m, frequency, notes[j]) > CentsDistance(m, frequency, notes[k])
  {
    if count == 1 then 0
    else
      var k := NearestIndex(m, frequency, notes, count - 1);
      if CentsDistance(m, frequency, notes[count - 1]) < CentsDistance(m, frequency, notes[k]) then count - 1 else k
  }

  /** The note `findClosestNote` reports. */
  function ClosestNote(m: MathLib, frequency: real): (r: Option<HarmonicaNote>)
    ensures r.Some? ==> r.value.frequency > 0.0 && 1 <= r.value.hole <= 10
    ensures r.Some? ==> MIN_NOTE_FREQUENCY <= frequency <= MAX_NOTE_FREQUENCY
  {
    if frequency < MIN_NOTE_FREQUENCY || frequency > MAX_NOTE_FREQUENCY then None
    else
      TableShape();
      var k := NearestIndex(m, frequency, HARMONICA_NOTES, |HARMONICA_NOTES|);
      if CentsDistance(m, frequency, HARMONICA_NOTES[k]) > MAX_CENTS_AWAY then None
      else Some(HARMONICA_NOTES[k])
  }

  /**
   * No note outside 180..2200 Hz or when every entry is more than 100 cents
   * away (exactly 100 is accepted); otherwise a table entry at the smallest
   * cents distance, and the earliest such entry when several tie.
   */
  lemma ClosestNoteSpec(m: MathLib, frequency: real)
    ensures PositiveFrequencies(HARMONICA_NOTES)
    ensures var r := ClosestNote(m, frequency);
      && (r.None? <==>
            || frequency < MIN_NOTE_FREQUENCY || frequency > MAX_NOTE_FREQUENCY
            || forall j :: 0 <= j < |HARMONICA_NOTES| ==> CentsDistance(m, frequency, HARMONICA_NOTES[j]) > MAX_CENTS_AWAY)
      && (r.Some? ==>
            exists k :: (0 <= k < |HARMONICA_NOTES| && r.value == HARMONICA_NOTES[k]
              && CentsDistance(m, frequency, r.value) <= MAX_CENTS_AWAY
              && (forall j :: 0 <= j < |HARMONICA_NOTES| ==>
                    CentsDistance(m, frequency, r.value) <= CentsDistance(m, frequency, HARMONICA_NOTES[j]))
              && (forall j :: 0 <= j < k ==>
                    CentsDistance(m, frequency, HARMONICA_NOTES[j]) > CentsDistance(m, frequency, r.value))))
  {
    TableShape();
  }

  /**
   * 392 Hz is both hole 3 blow and hole 2 draw; the earlier entry, hole 3
   * blow, wins.
   */
  lemma TieGoesToEarlierEntry(m: MathLib)
    requires m.Lawful()
    ensures ClosestNote(m, 392.0) == Some(HarmonicaNote(3, Blow, "G4", 392.0))
  {
    TableShape();
    var f := 392.0;
    assert CentsDistance(m, f, HARMONICA_NOTES[2]) == 0.0 by {
      assert f / HARMONICA_NOTES[2].frequency == 1.0;
    }
    forall j | 0 <= j < 2 ensures CentsDistance(m, f, HARMONICA_NOTES[j]) > 0.0 {
      Log2Sign(m, f / HARMONICA_NOTES[j].frequency);
    }
    var k := NearestIndex(m, f, HARMONICA_NOTES, |HARMONICA_NOTES|);
    assert CentsDistance(m, f, HARMONICA_NOTES[k]) <= 0.0;
    assert k == 2;
  }

  /** `findClosestNote`: the loop keeping the closest entry seen so far. */
  method FindClosestNote(m: MathLib, frequency: real) returns (r: Option<HarmonicaNote>)
    ensures r == ClosestNote(m, frequency)
  {
    if frequency < MIN_NOTE_FREQUENCY || frequency > MAX_NOTE_FREQUENCY {
      return None;
    }
    TableShape();
    var closest := 0;
    var minCents := 0.0;
    for i := 0 to |HARMONICA_NOTES|
      invariant i > 0 ==> closest == NearestIndex(m, frequency, HARMONICA_NOTES, i)
      invariant i > 0 ==> minCents == CentsDistance(m, frequency, HARMONICA_NOTES[closest])
    {
      var cents := CentsDistance(m, frequency, HARMONICA_NOTES[i]);
      if i == 0 || cents < minCents {
        minCents := cents;
        closest := i;
      }
    }
    if minCents > MAX_CENTS_AWAY {
      return None;
    }
    r := Some(HARMONICA_NOTES[closest]);
  }

  // ---------------------------------------------------------------- cents

  /** `getCentsOff`: the rounded cents offset of a frequency from a target. */
  function GetCentsOff(m: MathLib, frequency: real, targetFreq: real): int
    requires targetFreq > 0.0
  {
    Round(1200.0 * m.log2(frequency / targetFreq))
  }

  /**
   * The offset is 0 on target, and its sign tells sharp from flat: a positive
   * offset means the frequency is above the target, a negative one below it.
   * Within half a cent of the target the offset rounds to 0.
   */
  lemma CentsOffSign(m: MathLib, frequency: real, targetFreq: real)
    requires m.Lawful() && frequency > 0.0 && targetFreq > 0.0
    ensures frequency == targetFreq ==> GetCentsOff(m, frequency, targetFreq) == 0
    ensures GetCentsOff(m, frequency, targetFreq) > 0 ==> frequency > targetFreq
    ensures GetCentsOff(m, frequency, targetFreq) < 0 ==> frequency < targetFreq
    ensures frequency > targetFreq ==> GetCentsOff(m, frequency, targetFreq) >= 0
    ensures frequency < targetFreq ==> GetCentsOff(m, frequency, targetFreq) <= 0
  {
    QuotientVsOne(frequency, targetFreq);
    Log2Sign(m, frequency / targetFreq);
  }

  // ---------------------------------------------------------------- notation

  /** `tabNotation`: the hole number, with a minus sign for a draw. */
  function TabNotation(hole: int, action: Action): string
  {
    if action == Draw then "-" + IntToString(hole) else IntToString(hole)
  }

  /** Different holes (numbered from 0 up) or actions give different tabs. */
  lemma TabNotationInjective(h1: nat, a1: Action, h2: nat, a2: Action)
    requires TabNotation(h1, a1) == TabNotation(h2, a2)
    ensures h1 == h2 && a1 == a2
  {
    var t1, t2 := TabNotation(h1, a1), TabNotation(h2, a2);
    if a1 == Draw && a2 == Draw {
      assert NatToString(h1) == t1[1..] == t2[1..] == NatToString(h2);
      NatToStringInjective(h1, h2);
    } else if a1 == Blow && a2 == Blow {
      assert NatToString(h1) == t1 == t2 == NatToString(h2);
      NatToStringInjective(h1, h2);
    } else if a1 == Blow {
      DigitsAreNotDraws(h1, h2);
    } else {
      DigitsAreNotDraws(h2, h1);
    }
  }

  /** A blow tab starts with a digit, a draw tab with a minus sign. */
  lemma DigitsAreNotDraws(h1: nat, h2: nat)
    ensures TabNotation(h1, Blow) != TabNotation(h2, Draw)
  {
    assert IsDigit(TabNotation(h1, Blow)[0]);
    assert TabNotation(h2, Draw)[0] == '-';
  }

  /** A negative hole number would collide with a draw: blow on -4 reads as draw on 4. */
  lemma TabNotationNegativeCollision()
    ensures TabNotation(-4, Blow) == TabNotation(4, Draw) == "-4"
  {
  }

  /** Position of the first digit of `s` at or after `i`, if any. */
  function FirstDigit(s: string, i: nat): (r: Option<nat>)
    decreases |s| - i
  {
    if i >= |s| then None
    else if IsDigit(s[i]) then Some(i)
    else FirstDigit(s, i + 1)
  }

  lemma {:induction false} FirstDigitSpec(s: string, i: nat)
    ensures var r := FirstDigit(s, i);
      && (r.None? <==> forall k :: i <= k < |s| ==> !IsDigit(s[k]))
      && (r.Some? ==> i <= r.value < |s| && IsDigit(s[r.value])
                      && forall k :: i <= k < r.value ==> !IsDigit(s[k]))
    decreases |s| - i
  {
    if i < |s| && !IsDigit(s[i]) {
      FirstDigitSpec(s, i + 1);
    }
  }

  /** `note.replace(/(\d)/, "")`: the first digit removed, and no other. */
  function NoteDisplayName(note: string): string
  {
    match FirstDigit(note, 0)
    case None => note
    case Some(i) => if i < |note| then note[..i] + note[i + 1..] else note
  }

  /**
   * Removing the octave digit drops exactly one character, the first digit:
   * what precedes it has no digit and what follows is kept whole, so a second
   * digit survives; a name without a digit is unchanged.
   */
  lemma NoteDisplayNameSpec(note: string)
    ensures var r := NoteDisplayName(note);
      && ((forall k :: 0 <= k < |note| ==> !IsDigit(note[k])) ==> r == note)
      && (forall i :: 0 <= i < |note| && IsDigit(note[i]) && (forall k :: 0 <= k < i ==> !IsDigit(note[k])) ==>
            |r| == |note| - 1 && r[..i] == note[..i] && r[i..] == note[i + 1..])
  {
    FirstDigitSpec(note, 0);
  }

  // ---------------------------------------------------------------- rows

  predicate SortedByHole(s: seq<HarmonicaNote>)
  {
    forall i, j :: 0 <= i < j < |s| ==> s[i].hole <= s[j].hole
  }

  /** Inserts `x` before the first entry whose hole is not smaller. */
  function Insert(x: HarmonicaNote, s: seq<HarmonicaNote>): seq<HarmonicaNote>
  {
    if s == [] || x.hole <= s[0].hole then [x] + s else [s[0]] + Insert(x, s[1..])
  }

  /**
   * `sort((a, b) => a.hole - b.hole)` on a copy; JavaScript's sort is stable,
   * so entries with equal holes keep their order.
   */
  function SortByHole(s: seq<HarmonicaNote>): seq<HarmonicaNote>
  {
    if s == [] then [] else Insert(s[0], SortByHole(s[1..]))
  }

  /** Inserting adds the entry and nothing else, in front of the first entry with a hole not below it. */
  lemma {:induction false} InsertPermutes(x: HarmonicaNote, s: seq<HarmonicaNote>)
    ensures multiset(Insert(x, s)) == multiset(s) + multiset{x}
    ensures Insert(x, s) != [] && Insert(x, s)[0] == (if s == [] || x.hole <= s[0].hole then x else s[0])
  {
    if s != [] && x.hole > s[0].hole {
      InsertPermutes(x, s[1..]);
      assert s == [s[0]] + s[1..];
    }
  }

  /** Every entry of the result is the inserted one or an entry of the list. */
  lemma {:induction false} InsertMembers(x: HarmonicaNote, s: seq<HarmonicaNote>)
    ensures forall y :: y in Insert(x, s) ==> y == x || y in s
  {
    if s != [] && x.hole > s[0].hole {
      InsertMembers(x, s[1..]);
    }
  }

  /** Inserting into a hole-ordered list keeps it hole-ordered. */
  lemma {:induction false} InsertSorted(x: HarmonicaNote, s: seq<HarmonicaNote>)
    requires SortedByHole(s)
    ensures SortedByHole(Insert(x, s))
  {
    if s != [] && x.hole > s[0].hole {
      var t := s[1..];
      InsertSorted(x, t);
      InsertMembers(x, t);
      var r := Insert(x, t);
      forall i | 0 <= i < |r| ensures s[0].hole <= r[i].hole {
        assert r[i] in r;
      }
      assert Insert(x, s) == [s[0]] + r;
    }
  }

  /** The sort yields a permutation of its input. */
  lemma {:induction false} SortByHolePermutes(s: seq<HarmonicaNote>)
    ensures multiset(SortByHole(s)) == multiset(s)
  {
    if s != [] {
      SortByHolePermutes(s[1..]);
      InsertPermutes(s[0], SortByHole(s[1..]));
      assert s == [s[0]] + s[1..];
    }
  }

  /** The sort yields a hole-ordered list. */
  lemma {:induction false} SortByHoleSorted(s: seq<HarmonicaNote>)
    ensures SortedByHole(SortByHole(s))
  {
    if s != [] {
      SortByHoleSorted(s[1..]);
      InsertSorted(s[0], SortByHole(s[1..]));
    }
  }

  /** On input already in hole order the sort changes nothing. */
  lemma {:induction false} SortByHoleKeepsSorted(s: seq<HarmonicaNote>)
    requires SortedByHole(s)
    ensures SortByHole(s) == s
  {
    if s != [] {
      SortByHoleKeepsSorted(s[1..]);
    }
  }

  function FilterAction(notes: seq<HarmonicaNote>, action: Action): seq<HarmonicaNote>
  {
    if notes == [] then []
    else (if notes[0].action == action then [notes[0]] else []) + FilterAction(notes[1..], action)
  }

  function GetBlowNotes(): seq<HarmonicaNote>
  {
    SortByHole(FilterAction(HARMONICA_NOTES, Blow))
  }

  function GetDrawNotes(): seq<HarmonicaNote>
  {
    SortByHole(FilterAction(HARMONICA_NOTES, Draw))
  }

  /** A row of the chart: ten entries of one action, for holes 1 to 10 in order. */
  predicate IsRow(s: seq<HarmonicaNote>, action: Action)
  {
    |s| == 10 && forall i :: 0 <= i < 10 ==> s[i].action == action && s[i].hole == i + 1
  }

  /**
   * The blow row is the table's first ten entries, the blow notes for holes
   * 1 to 10 in order; the draw row is the other ten.  The table itself is
   * left as it is (both are computed on copies).
   */
  lemma RowsSpec()
    ensures GetBlowNotes() == HARMONICA_NOTES[..10] && IsRow(HARMONICA_NOTES[..10], Blow)
    ensures GetDrawNotes() == HARMONICA_NOTES[10..] && IsRow(HARMONICA_NOTES[10..], Draw)
  {
    Halves();
    var blow, draw := HARMONICA_NOTES[..10], HARMONICA_NOTES[10..];
    RowOf(blow, draw, Blow);
    RowOf(blow, draw, Draw);
  }

  /** The table's two halves: the blow row and the draw row, each sorted. */
  lemma Halves()
    ensures HARMONICA_NOTES[..10] + HARMONICA_NOTES[10..] == HARMONICA_NOTES
    ensures IsRow(HARMONICA_NOTES[..10], Blow) && IsRow(HARMONICA_NOTES[10..], Draw)
  {
    TableShape();
  }

  /**
   * Filtering `first + second` for an action that every entry of `first` has
   * and no entry of `second` has, then sorting, gives back `first` when it is
   * in hole order; and symmetrically.
   */
  lemma RowOf(first: seq<HarmonicaNote>, second: seq<HarmonicaNote>, action: Action)
    requires IsRow(first, Blow) && IsRow(second, Draw)
    ensures action == Blow ==> SortByHole(FilterAction(first + second, action)) == first
    ensures action == Draw ==> SortByHole(FilterAction(first + second, action)) == second
  {
    FilterAppend(first, second, action);
    assert SortedByHole(first) && SortedByHole(second);
    if action == Blow {
      FilterAll(first, Blow);
      FilterNone(second, Blow);
      assert first + [] == first;
      SortByHoleKeepsSorted(first);
    } else {
      FilterNone(first, Draw);
      FilterAll(second, Draw);
      assert [] + second == second;
      SortByHoleKeepsSorted(second);
    }
  }

  lemma {:induction false} FilterAppend(a: seq<HarmonicaNote>, b: seq<HarmonicaNote>, action: Action)
    ensures FilterAction(a + b, action) == FilterAction(a, action) + FilterAction(b, action)
  {
    if a == [] {
      assert a + b == b;
    } else {
      var ab := a + b;
      assert ab != [] && ab[0] == a[0] && ab[1..] == a[1..] + b;
      FilterAppend(a[1..], b, action);
      var head := if a[0].action == action then [a[0]] else [];
      assert FilterAction(ab, action) == head + FilterAction(a[1..] + b, action);
      assert FilterAction(a, action) == head + FilterAction(a[1..], action);
    }
  }

  lemma {:induction false} FilterAll(s: seq<HarmonicaNote>, action: Action)
    requires forall i :: 0 <= i < |s| ==> s[i].action == action
    ensures FilterAction(s, action) == s
  {
    if s != [] {
      FilterAll(s[1..], action);
    }
  }

  lemma {:induction false} FilterNone(s: seq<HarmonicaNote>, action: Action)
    requires forall i :: 0 <= i < |s| ==> s[i].action != action
    ensures FilterAction(s, action) == []
  {
    if s != [] {
      FilterNone(s[1..], action);
    }
  }
}
