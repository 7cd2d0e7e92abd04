/**
 * The note reference page: a chart of the ten blow and ten draw notes, and a
 * selection of one (hole, action) pair that a click toggles.  The selection
 * is a `Selection` value, a click the pure function `Click`, and the class
 * `ReferencePage` holds the two state fields its method updates.
 */
module Reference {
  import opened Wrappers
  import opened HarmonicaData

  /** `activeHole` and `activeAction`, each possibly null. */
  datatype Selection = Selection(hole: Option<int>, action: Option<Action>)

  const Unselected: Selection := Selection(None, None)

  /** `handleHoleClick`: clicking the selected pair clears it, any other pair selects that pair. */
  function Click(s: Selection, hole: int, action: Action): Selection
  {
    if s.hole == Some(hole) && s.action == Some(action) then Unselected
    else Selection(Some(hole), Some(action))
  }

  /** Both fields are set or neither: every click leaves the selection so. */
  predicate Valid(s: Selection)
  {
    s.hole.Some? <==> s.action.Some?
  }

  /**
   * A click clears exactly when the pair is the selected one and otherwise
   * selects the pair; either way both fields are set or neither is.
   */
  lemma ClickSpec(s: Selection, hole: int, action: Action)
    ensures Valid(Click(s, hole, action))
    ensures Click(s, hole, action) == Unselected <==> s == Selection(Some(hole), Some(action))
    ensures Click(s, hole, action) != Unselected ==> Click(s, hole, action) == Selection(Some(hole), Some(action))
  {
  }

  /** Clicking the same pair twice from no selection returns to no selection. */
  lemma ClickTwiceDeselects(hole: int, action: Action)
    ensures Click(Unselected, hole, action) == Selection(Some(hole), Some(action))
    ensures Click(Click(Unselected, hole, action), hole, action) == Unselected
  {
  }

  /** `selectedNote`: a note only when a (truthy) hole and an action are set. */
  function SelectedNote(s: Selection): Option<HarmonicaNote>
  {
    if s.hole.Some? && s.hole.value != 0 && s.action.Some? then GetNoteForHole(s.hole.value, s.action.value)
    else None
  }

  /**
   * A note is shown exactly when a hole 1..10 and an action are selected,
   * and it is that hole's table entry for that action.
   */
  lemma SelectedNoteSpec(s: Selection)
    ensures SelectedNote(s).Some? <==> s.hole.Some? && 1 <= s.hole.value <= 10 && s.action.Some?
    ensures SelectedNote(s).Some? ==>
      SelectedNote(s).value == HARMONICA_NOTES[TableIndex(s.hole.value, s.action.value)]
      && SelectedNote(s).value.hole == s.hole.value && SelectedNote(s).value.action == s.action.value
  {
    if s.hole.Some? && s.action.Some? {
      GetNoteForHoleSpec(s.hole.value, s.action.value);
    }
  }

  /** The chart's two rows: ten blow cells and ten draw cells, each for holes 1 to 10 in order. */
  function ChartRows(): (seq<HarmonicaNote>, seq<HarmonicaNote>)
  {
    (GetBlowNotes(), GetDrawNotes())
  }

  /**
   * The rows hold ten cells each, holes 1 to 10 in order, blow above draw,
   * and clicking cell `i` of a row from no selection shows that cell's note.
   */
  lemma ChartSpec(i: nat)
    requires i < 10
    ensures IsRow(ChartRows().0, Blow) && IsRow(ChartRows().1, Draw)
    ensures SelectedNote(Click(Unselected, ChartRows().0[i].hole, Blow)) == Some(ChartRows().0[i])
    ensures SelectedNote(Click(Unselected, ChartRows().1[i].hole, Draw)) == Some(ChartRows().1[i])
  {
    RowsSpec();
    TableShape();
    var blow, draw := ChartRows().0, ChartRows().1;
    SelectedNoteSpec(Click(Unselected, blow[i].hole, Blow));
    SelectedNoteSpec(Click(Unselected, draw[i].hole, Draw));
    assert blow[i] == HARMONICA_NOTES[i];
    assert draw[i] == HARMONICA_NOTES[10 + i];
  }

  class ReferencePage {
    var activeHole: Option<int>
    var activeAction: Option<Action>

    function Model(): Selection
      reads this
    {
      Selection(activeHole, activeAction)
    }

    constructor ()
      ensures Model() == Unselected
    {
      activeHole, activeAction := None, None;
    }

    method HandleHoleClick(hole: int, action: Action)
      requires Valid(Model())
      modifies this
      ensures Valid(Model()) && Model() == Click(old(Model()), hole, action)
    {
      if activeHole == Some(hole) && activeAction == Some(action) {
        activeHole := None;
        activeAction := None;
      } else {
        activeHole := Some(hole);
        activeAction := Some(action);
      }
    }

    /** The note panel below the harmonica, if any. */
    method Selected() returns (r: Option<HarmonicaNote>)
      ensures r == SelectedNote(Model())
      ensures r.Some? ==> r.value.hole == activeHole.value && r.value.action == activeAction.value
    {
      SelectedNoteSpec(Model());
      r := SelectedNote(Model());
    }
  }
}
