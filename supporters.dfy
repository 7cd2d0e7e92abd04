/**
 * The supporters list and the total number of coffees bought.
 */
module Supporters {
  import opened Wrappers

  datatype Supporter = Supporter(name: string, message: Option<string>, coffees: int, date: string)

  /** `SUPPORTERS`. */
  const SUPPORTERS: seq<Supporter> := [Supporter("Carl", Some("Well Done"), 1, "2026-02-19")]

  /** `supporters.reduce((sum, s) => sum + s.coffees, 0)`: folded from the left. */
  function TotalOf(ss: seq<Supporter>): int
  {
    if ss == [] then 0 else TotalOf(ss[..|ss| - 1]) + ss[|ss| - 1].coffees
  }

  /** `getTotalCoffees`. */
  function GetTotalCoffees(): int
  {
    TotalOf(SUPPORTERS)
  }

  /**
   * The total of two lists one after the other is the sum of their totals:
   * the empty list totals 0 and appending one supporter raises the total by
   * exactly that supporter's coffees.
   */
  lemma {:induction false} TotalOfAppend(a: seq<Supporter>, b: seq<Supporter>)
    ensures TotalOf(a + b) == TotalOf(a) + TotalOf(b)
    decreases |b|
  {
    if b == [] {
      assert a + b == a;
    } else {
      var init := b[..|b| - 1];
      assert a + b == (a + init) + [b[|b| - 1]];
      assert (a + b)[..|a + b| - 1] == a + init;
      TotalOfAppend(a, init);
    }
  }

  /** The total is the sum of each supporter's coffees, wherever the list is split. */
  lemma TotalSpec(ss: seq<Supporter>, s: Supporter)
    ensures TotalOf([]) == 0
    ensures TotalOf(ss + [s]) == TotalOf(ss) + s.coffees
    ensures TotalOf([s] + ss) == s.coffees + TotalOf(ss)
  {
    TotalOfAppend([s], ss);
    assert ([s] + [])[..0] == [];
  }

  /** Non-negative coffee counts give a non-negative total. */
  lemma {:induction false} TotalNonNegative(ss: seq<Supporter>)
    requires forall i :: 0 <= i < |ss| ==> ss[i].coffees >= 0
    ensures TotalOf(ss) >= 0
  {
    if ss != [] {
      TotalNonNegative(ss[..|ss| - 1]);
    }
  }

  /** One supporter, one coffee. */
  lemma CurrentTotal()
    ensures GetTotalCoffees() == 1
  {
    assert SUPPORTERS[..0] == [];
  }
}
