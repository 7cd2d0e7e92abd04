/**
 * The parts of the achievement card that are not drawing: the seeded
 * "minimal standard" Lehmer generator that scatters the star particles, the
 * seed chosen per milestone, the particle layout it yields, the download
 * file name and the stats line.
 */
module AchievementCard {
  import opened Numerics
  import opened Text
  import opened Milestones

  /** The modulus 2^31 - 1, a prime. */
  const MODULUS: int := 2147483647
  /** The multiplier 7^5. */
  const MULTIPLIER: int := 16807
  /** The inverse of the multiplier modulo the modulus. */
  const INVERSE: int := 1407677000

  /** One step: `s = (s * 16807 + 0) % 2147483647`, with JavaScript's truncating remainder. */
  function Step(s: int): int
  {
    JsRem(s * MULTIPLIER + 0, MODULUS)
  }

  /** A state in 1..2^31-2, which the generator never leaves. */
  predicate InRange(s: int)
  {
    1 <= s < MODULUS
  }

  /**
   * From a state in 1..2^31-2 the next state is in that range too: the
   * product is a multiple of the prime modulus only when the state is, as
   * the multiplier has an inverse.
   */
  lemma StepInRange(s: int)
    requires InRange(s)
    ensures InRange(Step(s))
  {
    var q, r := (s * MULTIPLIER) / MODULUS, (s * MULTIPLIER) % MODULUS;
    assert s * MULTIPLIER == q * MODULUS + r;
    assert MULTIPLIER * INVERSE == 1 + 11017 * MODULUS;
    assert s * MULTIPLIER * INVERSE == s + s * 11017 * MODULUS;
    assert s == r * INVERSE + (q * INVERSE - s * 11017) * MODULUS;
  }

  /** The state after `k` steps from `seed`. */
  function State(seed: int, k: nat): int
  {
    if k == 0 then seed else Step(State(seed, k - 1))
  }

  /** The `k`-th value returned (from 0): `s / 2147483647` after `k + 1` steps. */
  function Draw(seed: int, k: nat): real
  {
    State(seed, k + 1) as real / MODULUS as real
  }

  /** From a seed in range every state is in range, so every value lies strictly between 0 and 1. */
  lemma {:induction false} DrawInUnitInterval(seed: int, k: nat)
    requires InRange(seed)
    ensures InRange(State(seed, k))
    ensures 0.0 < Draw(seed, k) < 1.0
  {
    if k > 0 {
      DrawInUnitInterval(seed, k - 1);
    }
    StepInRange(State(seed, k));
  }

  /** `seededRandom(seed)`: the closure's captured state as a field, each call a method call. */
  class SeededRandom {
    var s: int

    constructor (seed: int)
      ensures s == seed
    {
      s := seed;
    }

    method Next() returns (r: real)
      modifies this
      ensures s == Step(old(s)) && r == s as real / MODULUS as real
    {
      s := JsRem(s * MULTIPLIER + 0, MODULUS);
      r := s as real / MODULUS as real;
    }
  }

  // ---------------------------------------------------------------- star particles

  /** `milestone.threshold * 7 + 42`. */
  function SeedFor(m: Milestone): int
  {
    m.threshold * 7 + 42
  }

  /** Every milestone's seed is at least 63 and in the generator's range, so no layout is stuck at 0. */
  lemma SeedsInRange()
    ensures forall i :: 0 <= i < |MILESTONES| ==> 63 <= SeedFor(MILESTONES[i]) && InRange(SeedFor(MILESTONES[i]))
  {
    TableSpec();
  }

  /** A star: its centre, radius and opacity on the 1000 x 560 card. */
  datatype Star = Star(x: real, y: real, radius: real, alpha: real)

  const STAR_COUNT: nat := 50
  const WIDTH: real := 1000.0
  const HEIGHT: real := 560.0

  /** Star `i` uses the values `4i` to `4i + 3`, in that order. */
  function StarAt(seed: int, i: nat): Star
  {
    Star(Draw(seed, 4 * i) * WIDTH, Draw(seed, 4 * i + 1) * HEIGHT,
         Draw(seed, 4 * i + 2) * 1.8 + 0.3, Draw(seed, 4 * i + 3) * 0.5 + 0.1)
  }

  function Stars(seed: int, n: nat): seq<Star>
  {
    if n == 0 then [] else Stars(seed, n - 1) + [StarAt(seed, n - 1)]
  }

  /**
   * For a seed in range every star lies inside the card, with a radius
   * between 0.3 and 2.1 and an opacity between 0.1 and 0.6 (all strict).
   */
  lemma StarBounds(seed: int, i: nat)
    requires InRange(seed)
    ensures var st := StarAt(seed, i);
      && 0.0 < st.x < WIDTH && 0.0 < st.y < HEIGHT
      && 0.3 < st.radius < 2.1 && 0.1 < st.alpha < 0.6
  {
    DrawInUnitInterval(seed, 4 * i);
    DrawInUnitInterval(seed, 4 * i + 1);
    DrawInUnitInterval(seed, 4 * i + 2);
    DrawInUnitInterval(seed, 4 * i + 3);
  }

  /** The next star from the four values drawn after `4i` earlier ones. */
  lemma StarsStep(seed: int, i: nat, x: real, y: real, r: real, alpha: real)
    requires x == Draw(seed, 4 * i) && y == Draw(seed, 4 * i + 1)
    requires r == Draw(seed, 4 * i + 2) && alpha == Draw(seed, 4 * i + 3)
    ensures Stars(seed, i) + [Star(x * WIDTH, y * HEIGHT, r * 1.8 + 0.3, alpha * 0.5 + 0.1)] == Stars(seed, i + 1)
  {
  }

  /** The particle loop: fifty stars, four values each, from the milestone's seed. */
  method StarLayout(m: Milestone) returns (stars: seq<Star>)
    ensures stars == Stars(SeedFor(m), STAR_COUNT)
  {
    var seed := SeedFor(m);
    var rand := new SeededRandom(seed);
    stars := [];
    var i := 0;
    ghost var k := 0;
    while i < STAR_COUNT
      invariant 0 <= i <= STAR_COUNT && k == 4 * i
      invariant rand.s == State(seed, k)
      invariant stars == Stars(seed, i)
    {
      var x := rand.Next();
      var y := rand.Next();
      var r := rand.Next();
      var alpha := rand.Next();
      StarsStep(seed, i, x, y, r, alpha);
      stars := stars + [Star(x * WIDTH, y * HEIGHT, r * 1.8 + 0.3, alpha * 0.5 + 0.1)];
      i := i + 1;
      k := k + 4;
    }
  }

  // ---------------------------------------------------------------- text

  predicate IsAsciiAlphanumeric(c: char)
  {
    'a' <= c <= 'z' || 'A' <= c <= 'Z' || '0' <= c <= '9'
  }

  /** `title.replace(/[^a-zA-Z0-9]/g, "-").toLowerCase()`. */
  function Slug(title: string): string
  {
    Lower(seq(|title|, i requires 0 <= i < |title| => if IsAsciiAlphanumeric(title[i]) then title[i] else '-'))
  }

  /**
   * The replacement runs before the lower-casing, so a non-ASCII letter that
   * full Unicode case mapping would send to an ASCII one (the Kelvin sign
   * goes to "k") has already become a dash.
   */
  lemma KelvinSignSlugsToDash()
    ensures Slug("\U{212A}") == "-"
  {
  }

  /** The download and share file name. */
  function FileName(m: Milestone): string
  {
    Slug(m.title) + ".png"
  }

  /**
   * The slug has the title's length and uses only lower-case letters,
   * digits and dashes: each letter or digit is kept (lower-cased) and every
   * other character becomes a dash; slugging a slug changes nothing.
   */
  lemma SlugSpec(title: string)
    ensures |Slug(title)| == |title|
    ensures forall i :: 0 <= i < |title| ==>
      var c := Slug(title)[i];
      ('a' <= c <= 'z' || '0' <= c <= '9' || c == '-')
      && (IsAsciiAlphanumeric(title[i]) <==> c != '-')
      && (IsAsciiAlphanumeric(title[i]) ==> c == LowerChar(title[i]))
    ensures Slug(Slug(title)) == Slug(title)
  {
  }

  /** "High Five!" downloads as "high-five-.png". */
  lemma HighFiveFileName()
    ensures FileName(MILESTONES[1]) == "high-five-.png"
  {
    var s := Slug("High Five!");
    assert s == "high-five-";
  }

  /** `${songsCount} ${songsCount === 1 ? "song" : "songs"} completed`. */
  function StatsText(songsCount: nat): string
  {
    NatToString(songsCount) + " " + (if songsCount == 1 then "song" else "songs") + " completed"
  }

  /** The singular appears exactly for one song. */
  lemma StatsPlural(songsCount: nat)
    ensures StatsText(songsCount) == NatToString(songsCount) + " song completed" <==> songsCount == 1
    ensures StatsText(songsCount) == NatToString(songsCount) + " songs completed" <==> songsCount != 1
  {
    if songsCount != 1 {
      assert |StatsText(songsCount)| == |NatToString(songsCount) + " song completed"| + 1;
    } else {
      assert |StatsText(songsCount)| + 1 == |NatToString(songsCount) + " songs completed"|;
    }
  }
}
