/**
 * The song list page: a search box that narrows the songs to those whose
 * title, artist or genre contains the query (ignoring ASCII case), and the
 * narrowed list shown in difficulty groups, easiest first, empty groups left
 * out.
 */
module SongList {
  import opened Text
  import opened Songs

  /** A heading with its label, colour and songs. */
  datatype Group = Group(difficulty: Difficulty, name: string, colour: string, songs: seq<Song>)

  /** `difficultyLabel[d]`. */
  function Label(d: Difficulty): (string, string)
  {
    match d
    case Beginner => ("Beginner", "text-success")
    case Intermediate => ("Intermediate", "text-warning")
    case Advanced => ("Advanced", "text-danger")
  }

  /** The song matches the lower-cased query in its title, artist or genre. */
  predicate Matches(s: Song, q: string)
  {
    Contains(Lower(s.title), q) || Contains(Lower(s.artist), q) || Contains(Lower(s.genre), q)
  }

  function FilterMatching(ss: seq<Song>, q: string): (r: seq<Song>)
    ensures |r| <= |ss|
  {
    if ss == [] then []
    else (if Matches(ss[0], q) then [ss[0]] else []) + FilterMatching(ss[1..], q)
  }

  /**
   * `filtered`: every song while the query is blank after trimming, else the
   * songs matching the query lower-cased (but not trimmed).
   */
  function Filtered(songs: seq<Song>, query: string): seq<Song>
  {
    if IsBlank(query) then songs else FilterMatching(songs, Lower(query))
  }

  /** The songs kept are exactly the matching ones, in their order. */
  lemma {:induction false} FilterMatchingSpec(ss: seq<Song>, q: string)
    ensures forall s :: s in FilterMatching(ss, q) <==> s in ss && Matches(s, q)
    ensures Subsequence(FilterMatching(ss, q), ss)
  {
    if ss != [] {
      FilterMatchingSpec(ss[1..], q);
      var r := FilterMatching(ss, q);
      if Matches(ss[0], q) {
        assert r[0] == ss[0] && r[1..] == FilterMatching(ss[1..], q);
      } else {
        assert r == FilterMatching(ss[1..], q);
        SubsequenceSkip(r, ss);
      }
    }
  }

  /**
   * A blank query shows every song unchanged; any other query shows exactly
   * the songs whose title, artist or genre contains it, ASCII case ignored,
   * in the order of the list.  The query "" shows everything and a query
   * never adds a song.
   */
  lemma FilteredSpec(songs: seq<Song>, query: string)
    ensures IsBlank(query) ==> Filtered(songs, query) == songs
    ensures !IsBlank(query) ==>
      forall s :: s in Filtered(songs, query) <==> s in songs && Matches(s, Lower(query))
    ensures Subsequence(Filtered(songs, query), songs)
    ensures Filtered(songs, "") == songs
  {
    FilterMatchingSpec(songs, Lower(query));
    SubsequenceReflexive(songs);
  }

  lemma {:induction false} SubsequenceReflexive(ss: seq<Song>)
    ensures Subsequence(ss, ss)
  {
    if ss != [] {
      SubsequenceReflexive(ss[1..]);
    }
  }

  /** Searching is blind to ASCII case: a query and its lower-case form show the same songs. */
  lemma SearchIgnoresCase(songs: seq<Song>, query: string)
    ensures Filtered(songs, query) == Filtered(songs, Lower(query))
  {
    assert Lower(Lower(query)) == Lower(query);
    assert IsBlank(query) <==> IsBlank(Lower(query));
  }

  function MakeGroup(filtered: seq<Song>, d: Difficulty): Group
  {
    Group(d, Label(d).0, Label(d).1, FilterDifficulty(filtered, d))
  }

  function NonEmpty(gs: seq<Group>): (r: seq<Group>)
    ensures |r| <= |gs|
  {
    if gs == [] then []
    else Keep(gs[0]) + NonEmpty(gs[1..])
  }

  /** `grouped`: one group per difficulty, easiest first, without the empty ones. */
  function Grouped(filtered: seq<Song>): seq<Group>
  {
    NonEmpty([MakeGroup(filtered, Beginner), MakeGroup(filtered, Intermediate), MakeGroup(filtered, Advanced)])
  }

  /** The rank of a difficulty in the page's order. */
  function Rank(d: Difficulty): nat
  {
    match d
    case Beginner => 0
    case Intermediate => 1
    case Advanced => 2
  }

  /** The kept groups are exactly the non-empty ones. */
  lemma {:induction false} NonEmptySpec(gs: seq<Group>)
    ensures forall g :: g in NonEmpty(gs) <==> g in gs && |g.songs| > 0
  {
    if gs != [] {
      NonEmptySpec(gs[1..]);
      assert gs == [gs[0]] + gs[1..];
    }
  }

  function Keep(g: Group): seq<Group>
  {
    if |g.songs| > 0 then [g] else []
  }

  lemma NonEmptyOfThree(x: Group, y: Group, z: Group)
    ensures NonEmpty([x, y, z]) == Keep(x) + Keep(y) + Keep(z)
  {
    assert [x, y, z][1..] == [y, z];
    assert [y, z][1..] == [z];
    assert [z][1..] == [];
    assert NonEmpty([z]) == Keep(z);
    assert NonEmpty([y, z]) == Keep(y) + Keep(z);
  }

  /** Groups of pairwise different, increasing ranks stay so after dropping some. */
  lemma OrderOfThree(x: Group, y: Group, z: Group)
    requires Rank(x.difficulty) < Rank(y.difficulty) < Rank(z.difficulty)
    ensures var r := Keep(x) + Keep(y) + Keep(z);
      forall i, j :: 0 <= i < j < |r| ==> Rank(r[i].difficulty) < Rank(r[j].difficulty)
  {
  }

  /** The group of each difficulty, kept when it has a song. */
  lemma GroupedShape(filtered: seq<Song>)
    ensures Grouped(filtered) ==
      Keep(MakeGroup(filtered, Beginner)) + Keep(MakeGroup(filtered, Intermediate)) + Keep(MakeGroup(filtered, Advanced))
  {
    NonEmptyOfThree(MakeGroup(filtered, Beginner), MakeGroup(filtered, Intermediate), MakeGroup(filtered, Advanced));
  }

  /**
   * The groups come in the order Beginner, Intermediate, Advanced, none is
   * empty, each holds exactly the shown songs of its difficulty in their
   * order and carries that difficulty's label.
   */
  lemma GroupedSpec(filtered: seq<Song>)
    ensures |Grouped(filtered)| <= 3
    ensures forall i, j :: 0 <= i < j < |Grouped(filtered)| ==>
      Rank(Grouped(filtered)[i].difficulty) < Rank(Grouped(filtered)[j].difficulty)
    ensures forall g :: g in Grouped(filtered) ==>
      && |g.songs| > 0
      && g.songs == FilterDifficulty(filtered, g.difficulty)
      && (g.name, g.colour) == Label(g.difficulty)
  {
    GroupedShape(filtered);
    OrderOfThree(MakeGroup(filtered, Beginner), MakeGroup(filtered, Intermediate), MakeGroup(filtered, Advanced));
  }

  /** Each difficulty's group is kept exactly when a shown song has that difficulty. */
  lemma GroupKept(filtered: seq<Song>, d: Difficulty)
    ensures MakeGroup(filtered, d) in Grouped(filtered) <==> exists s :: s in filtered && s.difficulty == d
  {
    GroupedShape(filtered);
    FilterDifficultySpec(filtered, d);
    var g := MakeGroup(filtered, d);
    if |g.songs| > 0 {
      assert g.songs[0] in g.songs;
    }
  }

  /**
   * A shown song is in the group of its difficulty and in no other, so in
   * exactly one group; there are groups exactly when some song is shown.
   */
  lemma GroupedCovers(filtered: seq<Song>)
    ensures forall s :: s in filtered ==>
      MakeGroup(filtered, s.difficulty) in Grouped(filtered) && s in MakeGroup(filtered, s.difficulty).songs
    ensures forall s, g :: s in filtered && g in Grouped(filtered) && s in g.songs ==> g.difficulty == s.difficulty
    ensures filtered == [] <==> Grouped(filtered) == []
  {
    forall s | s in filtered
      ensures MakeGroup(filtered, s.difficulty) in Grouped(filtered) && s in MakeGroup(filtered, s.difficulty).songs
    {
      GroupKept(filtered, s.difficulty);
      FilterDifficultySpec(filtered, s.difficulty);
    }
    forall s, g | s in filtered && g in Grouped(filtered) && s in g.songs
      ensures g.difficulty == s.difficulty
    {
      GroupedSpec(filtered);
      FilterDifficultySpec(filtered, g.difficulty);
    }
    if filtered == [] {
      GroupedShape(filtered);
    } else {
      var s := filtered[0];
      GroupKept(filtered, s.difficulty);
    }
  }
}
