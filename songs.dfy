/**
 * The song library: twenty songs, each a list of tab notes (hole and
 * breath), with lookup by id and by difficulty.
 */
module Songs {
  import opened Wrappers
  import opened HarmonicaData

  datatype Difficulty = Beginner | Intermediate | Advanced

  /** One note of a song's tab: the hole, the breath, and optionally its length in beats and its syllable. */
  datatype SongNote = SongNote(hole: int, action: Action, duration: Option<real>, lyric: Option<string>)

  datatype Song = Song(
    id: string,
    title: string,
    artist: string,
    difficulty: Difficulty,
    genre: string,
    description: string,
    bpm: int,
    tabs: seq<SongNote>)

  const TWINKLE_TWINKLE: Song := Song(
    "twinkle-twinkle", "Twinkle Twinkle Little Star", "Traditional",
    Beginner, "Children's",
    "The perfect first song for any harmonica beginner. Simple blow notes to get you started.",
    100,
    [
      SongNote(4, Blow, None, Some("Twin-")), SongNote(4, Blow, None, Some("kle")),
      SongNote(6, Blow, None, Some("twin-")), SongNote(6, Blow, None, Some("kle")),
      SongNote(6, Draw, None, Some("lit-")), SongNote(6, Draw, None, Some("tle")),
      SongNote(6, Blow, Some(2.0), Some("star")), SongNote(5, Draw, None, Some("How")),
      SongNote(5, Draw, None, Some("I")), SongNote(5, Blow, None, Some("won-")),
      SongNote(5, Blow, None, Some("der")), SongNote(4, Draw, None, Some("what")),
      SongNote(4, Draw, None, Some("you")), SongNote(4, Blow, Some(2.0), Some("are")),
      SongNote(6, Blow, None, Some("Up")), SongNote(6, Blow, None, Some("a-")),
      SongNote(5, Draw, None, Some("bove")), SongNote(5, Draw, None, Some("the")),
      SongNote(5, Blow, None, Some("world")), SongNote(5, Blow, None, Some("so")),
      SongNote(4, Draw, Some(2.0), Some("high")), SongNote(6, Blow, None, Some("Like")),
      SongNote(6, Blow, None, Some("a")), SongNote(5, Draw, None, Some("dia-")),
      SongNote(5, Draw, None, Some("mond")), SongNote(5, Blow, None, Some("in")),
      SongNote(5, Blow, None, Some("the")), SongNote(4, Draw, Some(2.0), Some("sky"))
    ])

  const MARY_HAD_A_LITTLE_LAMB: Song := Song(
    "mary-had-a-little-lamb", "Mary Had a Little Lamb", "Traditional",
    Beginner, "Children's",
    "Another excellent beginner song using simple blow and draw patterns.",
    110,
    [
      SongNote(5, Blow, None, Some("Ma-")), SongNote(4, Draw, None, Some("ry")),
      SongNote(4, Blow, None, Some("had")), SongNote(4, Draw, None, Some("a")),
      SongNote(5, Blow, None, Some("lit-")), SongNote(5, Blow, None, Some("tle")),
      SongNote(5, Blow, Some(2.0), Some("lamb")), SongNote(4, Draw, None, Some("Lit-")),
      SongNote(4, Draw, None, Some("tle")), SongNote(4, Draw, Some(2.0), Some("lamb")),
      SongNote(5, Blow, None, Some("Lit-")), SongNote(6, Blow, None, Some("tle")),
      SongNote(6, Blow, Some(2.0), Some("lamb")), SongNote(5, Blow, None, Some("Ma-")),
      SongNote(4, Draw, None, Some("ry")), SongNote(4, Blow, None, Some("had")),
      SongNote(4, Draw, None, Some("a")), SongNote(5, Blow, None, Some("lit-")),
      SongNote(5, Blow, None, Some("tle")), SongNote(5, Blow, Some(1.0), Some("lamb")),
      SongNote(5, Blow, None, Some("its")), SongNote(4, Draw, None, Some("fleece")),
      SongNote(4, Draw, None, Some("was")), SongNote(5, Blow, None, Some("white")),
      SongNote(4, Draw, None, Some("as")), SongNote(4, Blow, Some(2.0), Some("snow"))
    ])

  const OH_SUSANNA: Song := Song(
    "oh-susanna", "Oh! Susanna", "Stephen Foster",
    Beginner, "Folk",
    "A classic American folk song that's a favorite for harmonica players worldwide.",
    120,
    [
      SongNote(4, Blow, None, Some("Oh")), SongNote(4, Draw, None, Some("I")),
      SongNote(5, Blow, None, Some("come")), SongNote(6, Blow, None, Some("from")),
      SongNote(6, Blow, None, Some("Al-")), SongNote(6, Draw, None, Some("a-")),
      SongNote(6, Blow, None, Some("ba-")), SongNote(5, Blow, None, Some("ma")),
      SongNote(4, Blow, None, Some("with")), SongNote(4, Draw, None, Some("a")),
      SongNote(5, Blow, None, Some("ban-")), SongNote(5, Blow, None, Some("jo")),
      SongNote(4, Draw, None, Some("on")), SongNote(4, Blow, None, Some("my")),
      SongNote(4, Draw, Some(2.0), Some("knee")), SongNote(5, Draw, None, Some("Oh")),
      SongNote(5, Draw, None, Some("Su-")), SongNote(6, Draw, None, Some("san-")),
      SongNote(6, Draw, None, Some("na")), SongNote(6, Draw, None, Some("don't")),
      SongNote(6, Blow, None, Some("you")), SongNote(6, Blow, None, Some("cry")),
      SongNote(5, Blow, None, Some("for")), SongNote(4, Blow, None, Some("me")),
      SongNote(4, Draw, Some(2.0), Some(""))
    ])

  const HAPPY_BIRTHDAY: Song := Song(
    "happy-birthday", "Happy Birthday", "Traditional",
    Beginner, "Celebration",
    "Play happy birthday on harmonica at every party! A must-know song.",
    100,
    [
      SongNote(6, Blow, None, Some("Hap-")), SongNote(6, Blow, None, Some("py")),
      SongNote(6, Draw, None, Some("birth-")), SongNote(6, Blow, None, Some("day")),
      SongNote(7, Blow, None, Some("to")), SongNote(7, Draw, Some(2.0), Some("you")),
      SongNote(6, Blow, None, Some("Hap-")), SongNote(6, Blow, None, Some("py")),
      SongNote(6, Draw, None, Some("birth-")), SongNote(6, Blow, None, Some("day")),
      SongNote(8, Draw, None, Some("to")), SongNote(7, Blow, Some(2.0), Some("you")),
      SongNote(6, Blow, None, Some("Hap-")), SongNote(6, Blow, None, Some("py")),
      SongNote(9, Blow, None, Some("birth-")), SongNote(8, Blow, None, Some("day")),
      SongNote(7, Blow, None, Some("dear")), SongNote(7, Draw, None, Some("friend")),
      SongNote(6, Draw, Some(2.0), Some("")), SongNote(9, Draw, None, Some("Hap-")),
      SongNote(9, Draw, None, Some("py")), SongNote(8, Blow, None, Some("birth-")),
      SongNote(7, Blow, None, Some("day")), SongNote(8, Draw, None, Some("to")),
      SongNote(7, Blow, Some(2.0), Some("you"))
    ])

  const WHEN_THE_SAINTS: Song := Song(
    "when-the-saints", "When the Saints Go Marching In", "Traditional",
    Beginner, "Gospel / Jazz",
    "A lively gospel classic that sounds amazing on harmonica. Great for building confidence.",
    120,
    [
      SongNote(4, Blow, None, Some("Oh")), SongNote(5, Blow, None, Some("when")),
      SongNote(5, Draw, None, Some("the")), SongNote(6, Blow, None, Some("saints")),
      SongNote(4, Blow, None, Some("oh")), SongNote(5, Blow, None, Some("when")),
      SongNote(5, Draw, None, Some("the")), SongNote(6, Blow, Some(2.0), Some("saints")),
      SongNote(4, Blow, None, Some("Oh")), SongNote(5, Blow, None, Some("when")),
      SongNote(5, Draw, None, Some("the")), SongNote(6, Blow, None, Some("saints")),
      SongNote(5, Blow, None, Some("go")), SongNote(4, Blow, None, Some("march-")),
      SongNote(5, Blow, None, Some("ing")), SongNote(4, Draw, Some(2.0), Some("in")),
      SongNote(5, Blow, None, Some("How")), SongNote(4, Draw, None, Some("I")),
      SongNote(4, Blow, None, Some("want")), SongNote(4, Blow, None, Some("to")),
      SongNote(5, Blow, None, Some("be")), SongNote(6, Blow, None, Some("in")),
      SongNote(6, Blow, None, Some("that")), SongNote(6, Blow, None, Some("num-")),
      SongNote(5, Draw, None, Some("ber")), SongNote(5, Blow, None, Some("when")),
      SongNote(5, Draw, None, Some("the")), SongNote(6, Blow, None, Some("saints")),
      SongNote(5, Blow, None, Some("go")), SongNote(4, Blow, None, Some("march-")),
      SongNote(4, Draw, None, Some("ing")), SongNote(4, Blow, Some(2.0), Some("in"))
    ])

  const ODE_TO_JOY: Song := Song(
    "ode-to-joy", "Ode to Joy", "Beethoven",
    Intermediate, "Classical",
    "Beethoven's masterpiece adapted for harmonica. A rewarding intermediate challenge.",
    108,
    [
      SongNote(5, Blow, None, Some("")), SongNote(5, Blow, None, Some("")),
      SongNote(5, Draw, None, Some("")), SongNote(6, Blow, None, Some("")),
      SongNote(6, Blow, None, Some("")), SongNote(5, Draw, None, Some("")),
      SongNote(5, Blow, None, Some("")), SongNote(4, Draw, None, Some("")),
      SongNote(4, Blow, None, Some("")), SongNote(4, Blow, None, Some("")),
      SongNote(4, Draw, None, Some("")), SongNote(5, Blow, None, Some("")),
      SongNote(5, Blow, Some(1.5), Some("")), SongNote(4, Draw, None, Some("")),
      SongNote(4, Draw, Some(2.0), Some("")), SongNote(5, Blow, None, Some("")),
      SongNote(5, Blow, None, Some("")), SongNote(5, Draw, None, Some("")),
      SongNote(6, Blow, None, Some("")), SongNote(6, Blow, None, Some("")),
      SongNote(5, Draw, None, Some("")), SongNote(5, Blow, None, Some("")),
      SongNote(4, Draw, None, Some("")), SongNote(4, Blow, None, Some("")),
      SongNote(4, Blow, None, Some("")), SongNote(4, Draw, None, Some("")),
      SongNote(5, Blow, None, Some("")), SongNote(4, Draw, Some(1.5), Some("")),
      SongNote(4, Blow, None, Some("")), SongNote(4, Blow, Some(2.0), Some(""))
    ])

  const AMAZING_GRACE: Song := Song(
    "amazing-grace", "Amazing Grace", "John Newton",
    Intermediate, "Hymn",
    "One of the most beloved hymns ever written. Beautiful slow melody perfect for harmonica.",
    80,
    [
      SongNote(4, Blow, None, Some("A-")), SongNote(4, Draw, None, Some("maz-")),
      SongNote(5, Blow, Some(1.0), Some("ing")), SongNote(4, Draw, None, Some("")),
      SongNote(5, Blow, None, Some("grace")), SongNote(5, Draw, Some(2.0), Some("how")),
      SongNote(5, Blow, None, Some("sweet")), SongNote(4, Draw, Some(2.0), Some("the")),
      SongNote(4, Blow, None, Some("sound")), SongNote(4, Draw, Some(2.0), Some("that")),
      SongNote(3, Draw, None, Some("saved")), SongNote(4, Blow, Some(2.0), Some("a")),
      SongNote(4, Draw, None, Some("wretch")), SongNote(4, Blow, Some(2.0), Some("like")),
      SongNote(4, Draw, Some(3.0), Some("me"))
    ])

  const JINGLE_BELLS: Song := Song(
    "jingle-bells", "Jingle Bells", "James Lord Pierpont",
    Beginner, "Holiday",
    "A festive classic! Learn this to spread holiday cheer with your harmonica.",
    130,
    [
      SongNote(5, Blow, None, Some("Jin-")), SongNote(5, Blow, None, Some("gle")),
      SongNote(5, Blow, Some(2.0), Some("bells")), SongNote(5, Blow, None, Some("Jin-")),
      SongNote(5, Blow, None, Some("gle")), SongNote(5, Blow, Some(2.0), Some("bells")),
      SongNote(5, Blow, None, Some("Jin-")), SongNote(6, Blow, None, Some("gle")),
      SongNote(4, Blow, None, Some("all")), SongNote(4, Draw, None, Some("the")),
      SongNote(5, Blow, Some(2.0), Some("way")), SongNote(5, Draw, None, Some("Oh")),
      SongNote(5, Draw, None, Some("what")), SongNote(5, Draw, None, Some("fun")),
      SongNote(5, Blow, None, Some("it")), SongNote(5, Blow, None, Some("is")),
      SongNote(5, Blow, None, Some("to")), SongNote(4, Draw, None, Some("ride")),
      SongNote(4, Draw, None, Some("in")), SongNote(4, Blow, None, Some("a")),
      SongNote(4, Draw, None, Some("one")), SongNote(5, Blow, None, Some("horse")),
      SongNote(6, Blow, None, Some("o-")), SongNote(6, Draw, None, Some("pen")),
      SongNote(5, Draw, Some(2.0), Some("sleigh"))
    ])

  const LOVE_ME_DO: Song := Song(
    "love-me-do", "Love Me Do", "The Beatles",
    Intermediate, "Rock",
    "The Beatles' classic featuring one of the most iconic harmonica riffs in rock history.",
    148,
    [
      SongNote(5, Draw, None, Some("Love")), SongNote(5, Blow, None, Some("me")),
      SongNote(4, Draw, None, Some("do")), SongNote(2, Draw, Some(1.5), Some("")),
      SongNote(2, Draw, None, Some("")), SongNote(2, Draw, None, Some("")),
      SongNote(2, Draw, Some(2.0), Some("")), SongNote(5, Draw, None, Some("Love")),
      SongNote(5, Draw, None, Some("me")), SongNote(5, Draw, None, Some("do")),
      SongNote(5, Blow, None, Some("")), SongNote(5, Blow, None, Some("")),
      SongNote(5, Blow, None, Some("")), SongNote(4, Draw, None, Some("")),
      SongNote(2, Draw, Some(2.0), Some("")), SongNote(2, Draw, None, Some("")),
      SongNote(2, Draw, None, Some("")), SongNote(2, Draw, None, Some("")),
      SongNote(2, Draw, None, Some("")), SongNote(4, Blow, None, Some("Love")),
      SongNote(3, Draw, None, Some("me")), SongNote(2, Draw, Some(2.0), Some("do"))
    ])

  const PIANO_MAN: Song := Song(
    "piano-man", "Piano Man", "Billy Joel",
    Advanced, "Rock / Pop",
    "Billy Joel's signature song with its haunting harmonica intro. A rewarding challenge for advanced players.",
    90,
    [
      SongNote(6, Blow, None, Some("")), SongNote(6, Draw, None, Some("")),
      SongNote(6, Blow, None, Some("")), SongNote(5, Draw, None, Some("")),
      SongNote(5, Blow, None, Some("")), SongNote(5, Draw, None, Some("")),
      SongNote(5, Blow, None, Some("")), SongNote(4, Blow, Some(1.5), Some("")),
      SongNote(4, Draw, None, Some("")), SongNote(5, Blow, None, Some("")),
      SongNote(4, Draw, Some(2.0), Some("")), SongNote(5, Blow, None, Some("")),
      SongNote(5, Draw, None, Some("")), SongNote(6, Blow, None, Some("")),
      SongNote(6, Draw, None, Some("")), SongNote(6, Blow, None, Some("")),
      SongNote(5, Draw, None, Some("")), SongNote(5, Blow, None, Some("")),
      SongNote(5, Draw, None, Some("")), SongNote(5, Blow, None, Some("")),
      SongNote(4, Blow, Some(1.5), Some("")), SongNote(4, Blow, None, Some("")),
      SongNote(5, Draw, None, Some("")), SongNote(5, Blow, None, Some("")),
      SongNote(4, Draw, None, Some("")), SongNote(4, Blow, Some(2.0), Some(""))
    ])

  const YANKEE_DOODLE: Song := Song(
    "yankee-doodle", "Yankee Doodle", "Traditional",
    Beginner, "Patriotic",
    "An iconic American patriotic song that makes a great beginner exercise with its simple stepwise melody.",
    120,
    [
      SongNote(4, Blow, None, Some("Yan-")), SongNote(4, Draw, None, Some("kee")),
      SongNote(5, Blow, None, Some("Doo-")), SongNote(5, Draw, None, Some("dle")),
      SongNote(5, Blow, None, Some("went")), SongNote(4, Draw, None, Some("to")),
      SongNote(4, Blow, None, Some("town")), SongNote(3, Draw, None, Some("")),
      SongNote(4, Blow, None, Some("Ri-")), SongNote(4, Draw, None, Some("ding")),
      SongNote(5, Blow, None, Some("on")), SongNote(4, Draw, None, Some("a")),
      SongNote(4, Blow, Some(2.0), Some("po-")), SongNote(4, Draw, None, Some("ny")),
      SongNote(4, Draw, None, Some("Stuck")), SongNote(5, Blow, None, Some("a")),
      SongNote(5, Draw, None, Some("fea-")), SongNote(5, Blow, None, Some("ther")),
      SongNote(4, Draw, None, Some("in")), SongNote(4, Blow, None, Some("his")),
      SongNote(4, Draw, None, Some("cap")), SongNote(3, Draw, None, Some("And")),
      SongNote(4, Blow, None, Some("called")), SongNote(4, Draw, None, Some("it")),
      SongNote(4, Blow, None, Some("mac-")), SongNote(3, Draw, None, Some("a-")),
      SongNote(4, Blow, Some(2.0), Some("ro-")), SongNote(3, Draw, None, Some("ni"))
    ])

  const CAMPTOWN_RACES: Song := Song(
    "camptown-races", "Camptown Races", "Stephen Foster",
    Beginner, "Folk",
    "A fun, upbeat Stephen Foster classic. Great for practicing quick transitions between blow and draw.",
    120,
    [
      SongNote(5, Blow, None, Some("Camp-")), SongNote(5, Blow, None, Some("town")),
      SongNote(5, Blow, None, Some("la-")), SongNote(4, Draw, None, Some("dies")),
      SongNote(5, Blow, None, Some("sing")), SongNote(5, Draw, None, Some("this")),
      SongNote(4, Draw, None, Some("song")), SongNote(4, Blow, None, Some("Doo-")),
      SongNote(4, Draw, None, Some("dah")), SongNote(5, Blow, None, Some("doo-")),
      SongNote(4, Draw, Some(2.0), Some("dah")), SongNote(5, Blow, None, Some("Camp-")),
      SongNote(5, Blow, None, Some("town")), SongNote(5, Blow, None, Some("race-")),
      SongNote(4, Draw, None, Some("track")), SongNote(5, Blow, None, Some("five")),
      SongNote(5, Draw, None, Some("miles")), SongNote(4, Draw, None, Some("long")),
      SongNote(4, Blow, None, Some("Oh")), SongNote(4, Draw, None, Some("doo-")),
      SongNote(4, Blow, Some(2.0), Some("dah")), SongNote(4, Draw, None, Some("day"))
    ])

  const AULD_LANG_SYNE: Song := Song(
    "auld-lang-syne", "Auld Lang Syne", "Traditional",
    Beginner, "Folk",
    "The classic New Year's Eve anthem. A beautiful, slow melody that's perfect for harmonica.",
    90,
    [
      SongNote(4, Blow, None, Some("Should")), SongNote(6, Blow, None, Some("auld")),
      SongNote(6, Blow, None, Some("ac-")), SongNote(6, Draw, None, Some("quain-")),
      SongNote(6, Blow, None, Some("tance")), SongNote(6, Blow, None, Some("be")),
      SongNote(6, Draw, None, Some("for-")), SongNote(7, Blow, None, Some("got")),
      SongNote(6, Blow, None, Some("And")), SongNote(6, Blow, None, Some("ne-")),
      SongNote(6, Draw, None, Some("ver")), SongNote(7, Blow, None, Some("brought")),
      SongNote(7, Draw, None, Some("to")), SongNote(7, Draw, Some(2.0), Some("mind"))
    ])

  const SILENT_NIGHT: Song := Song(
    "silent-night", "Silent Night", "Franz Gruber",
    Beginner, "Holiday",
    "The beloved Christmas carol with a gentle melody. Perfect for quiet, expressive harmonica playing.",
    72,
    [
      SongNote(6, Blow, None, Some("Si-")), SongNote(6, Draw, None, Some("lent")),
      SongNote(6, Blow, None, Some("night")), SongNote(5, Blow, None, Some("")),
      SongNote(6, Blow, None, Some("Ho-")), SongNote(6, Draw, None, Some("ly")),
      SongNote(6, Blow, None, Some("night")), SongNote(5, Blow, None, Some("")),
      SongNote(7, Draw, None, Some("All")), SongNote(7, Draw, None, Some("is")),
      SongNote(7, Blow, None, Some("calm")), SongNote(7, Blow, None, Some("All")),
      SongNote(7, Blow, None, Some("is")), SongNote(6, Blow, None, Some("bright"))
    ])

  const RED_RIVER_VALLEY: Song := Song(
    "red-river-valley", "Red River Valley", "Traditional",
    Beginner, "Folk / Country",
    "A beloved American folk song with a smooth, flowing melody. Great for developing breath control.",
    100,
    [
      SongNote(4, Blow, None, Some("From")), SongNote(5, Blow, None, Some("this")),
      SongNote(5, Draw, None, Some("val-")), SongNote(5, Blow, None, Some("ley")),
      SongNote(4, Draw, None, Some("they")), SongNote(4, Blow, None, Some("say")),
      SongNote(4, Draw, None, Some("you")), SongNote(4, Blow, None, Some("are")),
      SongNote(4, Blow, None, Some("go-")), SongNote(5, Blow, None, Some("ing")),
      SongNote(5, Draw, None, Some("")), SongNote(5, Blow, None, Some("")),
      SongNote(4, Draw, None, Some("We")), SongNote(4, Draw, None, Some("will")),
      SongNote(5, Blow, None, Some("miss")), SongNote(4, Draw, None, Some("your")),
      SongNote(4, Blow, None, Some("bright")), SongNote(4, Draw, None, Some("eyes")),
      SongNote(4, Blow, None, Some("and")), SongNote(5, Blow, None, Some("sweet")),
      SongNote(4, Draw, Some(2.0), Some("smile"))
    ])

  const HOME_ON_THE_RANGE: Song := Song(
    "home-on-the-range", "Home on the Range", "Traditional",
    Beginner, "Folk / Country",
    "The official state song of Kansas and a cowboy classic. Its gentle melody sounds beautiful on harmonica.",
    90,
    [
      SongNote(4, Blow, None, Some("Oh")), SongNote(4, Draw, None, Some("give")),
      SongNote(5, Blow, None, Some("me")), SongNote(5, Blow, None, Some("a")),
      SongNote(5, Draw, None, Some("home")), SongNote(5, Blow, None, Some("where")),
      SongNote(4, Draw, None, Some("the")), SongNote(4, Blow, None, Some("buf-")),
      SongNote(4, Draw, None, Some("fa-")), SongNote(5, Blow, None, Some("lo")),
      SongNote(6, Blow, None, Some("roam")), SongNote(6, Draw, None, Some("Where")),
      SongNote(6, Blow, None, Some("the")), SongNote(5, Draw, None, Some("deer")),
      SongNote(5, Blow, None, Some("and")), SongNote(5, Draw, None, Some("the")),
      SongNote(5, Blow, None, Some("an-")), SongNote(4, Draw, None, Some("te-")),
      SongNote(5, Blow, None, Some("lope")), SongNote(4, Draw, Some(2.0), Some("play"))
    ])

  const SWING_LOW: Song := Song(
    "swing-low", "Swing Low, Sweet Chariot", "Traditional",
    Beginner, "Spiritual",
    "A powerful African-American spiritual. The slow tempo and simple notes make it ideal for beginners.",
    76,
    [
      SongNote(5, Draw, None, Some("Swing")), SongNote(5, Blow, None, Some("low")),
      SongNote(4, Draw, None, Some("sweet")), SongNote(4, Blow, None, Some("cha-")),
      SongNote(4, Draw, None, Some("ri-")), SongNote(5, Blow, None, Some("ot")),
      SongNote(6, Blow, None, Some("Co-")), SongNote(5, Draw, None, Some("ming")),
      SongNote(5, Blow, None, Some("for")), SongNote(4, Draw, None, Some("to")),
      SongNote(4, Blow, None, Some("car-")), SongNote(4, Draw, None, Some("ry")),
      SongNote(4, Blow, None, Some("me")), SongNote(5, Blow, Some(2.0), Some("home"))
    ])

  const DANNY_BOY: Song := Song(
    "danny-boy", "Danny Boy", "Traditional Irish",
    Intermediate, "Folk / Irish",
    "One of the most beautiful melodies ever written. Requires good breath control and a feel for dynamics.",
    72,
    [
      SongNote(4, Blow, None, Some("Oh")), SongNote(4, Draw, None, Some("Dan-")),
      SongNote(5, Blow, None, Some("ny")), SongNote(6, Blow, None, Some("boy")),
      SongNote(6, Draw, None, Some("the")), SongNote(7, Blow, None, Some("pipes")),
      SongNote(7, Draw, None, Some("the")), SongNote(7, Blow, None, Some("pipes")),
      SongNote(6, Draw, None, Some("are")), SongNote(6, Blow, None, Some("call-")),
      SongNote(5, Draw, None, Some("ing")), SongNote(5, Blow, None, Some("")),
      SongNote(6, Blow, None, Some("From")), SongNote(6, Blow, None, Some("glen")),
      SongNote(5, Draw, None, Some("to")), SongNote(5, Blow, None, Some("glen")),
      SongNote(4, Draw, None, Some("and")), SongNote(5, Blow, None, Some("down")),
      SongNote(4, Draw, None, Some("the")), SongNote(5, Blow, None, Some("moun-")),
      SongNote(4, Draw, None, Some("tain")), SongNote(4, Blow, Some(2.0), Some("side"))
    ])

  const SCARBOROUGH_FAIR: Song := Song(
    "scarborough-fair", "Scarborough Fair", "Traditional English",
    Intermediate, "Folk",
    "A haunting medieval English ballad popularized by Simon & Garfunkel. Its minor tonality creates a beautiful mood.",
    84,
    [
      SongNote(6, Blow, None, Some("Are")), SongNote(6, Blow, None, Some("you")),
      SongNote(6, Blow, None, Some("go-")), SongNote(7, Blow, None, Some("ing")),
      SongNote(7, Draw, None, Some("to")), SongNote(8, Blow, None, Some("Scar-")),
      SongNote(7, Draw, None, Some("bo-")), SongNote(7, Blow, None, Some("rough")),
      SongNote(7, Draw, None, Some("Fair")), SongNote(7, Blow, None, Some("")),
      SongNote(6, Draw, None, Some("Pars-")), SongNote(6, Blow, None, Some("ley")),
      SongNote(6, Draw, None, Some("sage")), SongNote(7, Blow, None, Some("rose-")),
      SongNote(6, Draw, None, Some("ma-")), SongNote(6, Blow, None, Some("ry")),
      SongNote(5, Draw, None, Some("and")), SongNote(6, Blow, Some(2.0), Some("thyme"))
    ])

  const BLOWIN_IN_THE_WIND: Song := Song(
    "blowin-in-the-wind", "Blowin' in the Wind", "Bob Dylan",
    Intermediate, "Folk / Rock",
    "Bob Dylan's timeless anthem. One of the most famous harmonica songs ever recorded.",
    100,
    [
      SongNote(5, Blow, None, Some("How")), SongNote(5, Draw, None, Some("ma-")),
      SongNote(6, Blow, None, Some("ny")), SongNote(6, Blow, None, Some("roads")),
      SongNote(6, Blow, None, Some("must")), SongNote(6, Draw, None, Some("a")),
      SongNote(7, Blow, None, Some("man")), SongNote(6, Draw, None, Some("walk")),
      SongNote(6, Blow, None, Some("down")), SongNote(5, Draw, None, Some("")),
      SongNote(5, Blow, None, Some("Be-")), SongNote(5, Draw, None, Some("fore")),
      SongNote(6, Blow, None, Some("you")), SongNote(6, Blow, None, Some("call")),
      SongNote(6, Draw, None, Some("him")), SongNote(6, Blow, None, Some("a")),
      SongNote(5, Draw, Some(2.0), Some("man"))
    ])

  const SONGS: seq<Song> := [
    TWINKLE_TWINKLE,
    MARY_HAD_A_LITTLE_LAMB,
    OH_SUSANNA,
    HAPPY_BIRTHDAY,
    WHEN_THE_SAINTS,
    ODE_TO_JOY,
    AMAZING_GRACE,
    JINGLE_BELLS,
    LOVE_ME_DO,
    PIANO_MAN,
    YANKEE_DOODLE,
    CAMPTOWN_RACES,
    AULD_LANG_SYNE,
    SILENT_NIGHT,
    RED_RIVER_VALLEY,
    HOME_ON_THE_RANGE,
    SWING_LOW,
    DANNY_BOY,
    SCARBOROUGH_FAIR,
    BLOWIN_IN_THE_WIND
  ]

  // ---------------------------------------------------------------- data invariants

  predicate DistinctIds(ss: seq<Song>)
  {
    forall i, j :: 0 <= i < j < |ss| ==> ss[i].id != ss[j].id
  }

  /** Every tab note names a hole 1..10. */
  predicate HolesInRange(tabs: seq<SongNote>)
  {
    forall k :: 0 <= k < |tabs| ==> 1 <= tabs[k].hole <= 10
  }

  // One lemma per song: the library proofs are split so that each fits the solver.
  lemma TwinkleTwinkleHoles() ensures HolesInRange(TWINKLE_TWINKLE.tabs) { }
  lemma MaryHadALittleLambHoles() ensures HolesInRange(MARY_HAD_A_LITTLE_LAMB.tabs) { }
  lemma OhSusannaHoles() ensures HolesInRange(OH_SUSANNA.tabs) { }
  lemma HappyBirthdayHoles() ensures HolesInRange(HAPPY_BIRTHDAY.tabs) { }
  lemma WhenTheSaintsHoles() ensures HolesInRange(WHEN_THE_SAINTS.tabs) { }
  lemma OdeToJoyHoles() ensures HolesInRange(ODE_TO_JOY.tabs) { }
  lemma AmazingGraceHoles() ensures HolesInRange(AMAZING_GRACE.tabs) { }
  lemma JingleBellsHoles() ensures HolesInRange(JINGLE_BELLS.tabs) { }
  lemma LoveMeDoHoles() ensures HolesInRange(LOVE_ME_DO.tabs) { }
  lemma PianoManHoles() ensures HolesInRange(PIANO_MAN.tabs) { }
  lemma YankeeDoodleHoles() ensures HolesInRange(YANKEE_DOODLE.tabs) { }
  lemma CamptownRacesHoles() ensures HolesInRange(CAMPTOWN_RACES.tabs) { }
  lemma AuldLangSyneHoles() ensures HolesInRange(AULD_LANG_SYNE.tabs) { }
  lemma SilentNightHoles() ensures HolesInRange(SILENT_NIGHT.tabs) { }
  lemma RedRiverValleyHoles() ensures HolesInRange(RED_RIVER_VALLEY.tabs) { }
  lemma HomeOnTheRangeHoles() ensures HolesInRange(HOME_ON_THE_RANGE.tabs) { }
  lemma SwingLowHoles() ensures HolesInRange(SWING_LOW.tabs) { }
  lemma DannyBoyHoles() ensures HolesInRange(DANNY_BOY.tabs) { }
  lemma ScarboroughFairHoles() ensures HolesInRange(SCARBOROUGH_FAIR.tabs) { }
  lemma BlowinInTheWindHoles() ensures HolesInRange(BLOWIN_IN_THE_WIND.tabs) { }

  lemma LibrarySize()
    ensures |SONGS| == 20
  {
  }

  // The song at each index has an id different from every later song's; one
  // lemma per index, so that each fits the solver.
  lemma IdsAfter0() ensures forall j :: 0 < j < |SONGS| ==> SONGS[0].id != SONGS[j].id { }
  lemma IdsAfter1() ensures forall j :: 1 < j < |SONGS| ==> SONGS[1].id != SONGS[j].id { }
  lemma IdsAfter2() ensures forall j :: 2 < j < |SONGS| ==> SONGS[2].id != SONGS[j].id { }
  lemma IdsAfter3() ensures forall j :: 3 < j < |SONGS| ==> SONGS[3].id != SONGS[j].id { }
  lemma IdsAfter4() ensures forall j :: 4 < j < |SONGS| ==> SONGS[4].id != SONGS[j].id { }
  lemma IdsAfter5() ensures forall j :: 5 < j < |SONGS| ==> SONGS[5].id != SONGS[j].id { }
  lemma IdsAfter6() ensures forall j :: 6 < j < |SONGS| ==> SONGS[6].id != SONGS[j].id { }
  lemma IdsAfter7() ensures forall j :: 7 < j < |SONGS| ==> SONGS[7].id != SONGS[j].id { }
  lemma IdsAfter8() ensures forall j :: 8 < j < |SONGS| ==> SONGS[8].id != SONGS[j].id { }
  lemma IdsAfter9() ensures forall j :: 9 < j < |SONGS| ==> SONGS[9].id != SONGS[j].id { }
  lemma IdsAfter10() ensures forall j :: 10 < j < |SONGS| ==> SONGS[10].id != SONGS[j].id { }
  lemma IdsAfter11() ensures forall j :: 11 < j < |SONGS| ==> SONGS[11].id != SONGS[j].id { }
  lemma IdsAfter12() ensures forall j :: 12 < j < |SONGS| ==> SONGS[12].id != SONGS[j].id { }
  lemma IdsAfter13() ensures forall j :: 13 < j < |SONGS| ==> SONGS[13].id != SONGS[j].id { }
  lemma IdsAfter14() ensures forall j :: 14 < j < |SONGS| ==> SONGS[14].id != SONGS[j].id { }
  lemma IdsAfter15() ensures forall j :: 15 < j < |SONGS| ==> SONGS[15].id != SONGS[j].id { }
  lemma IdsAfter16() ensures forall j :: 16 < j < |SONGS| ==> SONGS[16].id != SONGS[j].id { }
  lemma IdsAfter17() ensures forall j :: 17 < j < |SONGS| ==> SONGS[17].id != SONGS[j].id { }
  lemma IdsAfter18() ensures forall j :: 18 < j < |SONGS| ==> SONGS[18].id != SONGS[j].id { }

  /** The twenty songs have pairwise distinct ids. */
  lemma LibraryIds()
    ensures DistinctIds(SONGS)
  {
    forall i, j | 0 <= i < j < |SONGS|
      ensures SONGS[i].id != SONGS[j].id
    {
      if i == 0 {
        IdsAfter0();
      } else if i == 1 {
        IdsAfter1();
      } else if i == 2 {
        IdsAfter2();
      } else if i == 3 {
        IdsAfter3();
      } else if i == 4 {
        IdsAfter4();
      } else if i == 5 {
        IdsAfter5();
      } else if i == 6 {
        IdsAfter6();
      } else if i == 7 {
        IdsAfter7();
      } else if i == 8 {
        IdsAfter8();
      } else if i == 9 {
        IdsAfter9();
      } else if i == 10 {
        IdsAfter10();
      } else if i == 11 {
        IdsAfter11();
      } else if i == 12 {
        IdsAfter12();
      } else if i == 13 {
        IdsAfter13();
      } else if i == 14 {
        IdsAfter14();
      } else if i == 15 {
        IdsAfter15();
      } else if i == 16 {
        IdsAfter16();
      } else if i == 17 {
        IdsAfter17();
      } else {
        IdsAfter18();
      }
    }
  }

  /**
   * Every tab note of every song is on a hole 1..10, so every note of every
   * song has its entry in the harmonica table.
   */
  lemma LibraryHoles()
    ensures forall i :: 0 <= i < |SONGS| ==> HolesInRange(SONGS[i].tabs)
  {
    TwinkleTwinkleHoles();
    MaryHadALittleLambHoles();
    OhSusannaHoles();
    HappyBirthdayHoles();
    WhenTheSaintsHoles();
    OdeToJoyHoles();
    AmazingGraceHoles();
    JingleBellsHoles();
    LoveMeDoHoles();
    PianoManHoles();
    YankeeDoodleHoles();
    CamptownRacesHoles();
    AuldLangSyneHoles();
    SilentNightHoles();
    RedRiverValleyHoles();
    HomeOnTheRangeHoles();
    SwingLowHoles();
    DannyBoyHoles();
    ScarboroughFairHoles();
    BlowinInTheWindHoles();
  }

  /** Every note of every song sounds: its hole and breath have a table entry. */
  lemma EveryTabNoteSounds(i: nat, k: nat)
    requires i < |SONGS| && k < |SONGS[i].tabs|
    ensures var n := SONGS[i].tabs[k];
      GetNoteForHole(n.hole, n.action).Some? && GetNoteForHole(n.hole, n.action).value.hole == n.hole
      && GetNoteForHole(n.hole, n.action).value.action == n.action
  {
    LibraryHoles();
    var n := SONGS[i].tabs[k];
    assert HolesInRange(SONGS[i].tabs);
    GetNoteForHoleSpec(n.hole, n.action);
  }

  // ---------------------------------------------------------------- lookup

  /** `ss.find((s) => s.id === id)`. */
  function FindById(ss: seq<Song>, id: string): Option<Song>
  {
    if ss == [] then None
    else if ss[0].id == id then Some(ss[0])
    else FindById(ss[1..], id)
  }

  /** `getSongById`. */
  function GetSongById(id: string): Option<Song>
  {
    FindById(SONGS, id)
  }

  /**
   * Nothing when no song has the id; otherwise the first song with it.
   * With distinct ids, looking a song up by its own id finds that song.
   */
  lemma {:induction false} FindByIdSpec(ss: seq<Song>, id: string)
    ensures FindById(ss, id).None? <==> forall i :: 0 <= i < |ss| ==> ss[i].id != id
    ensures FindById(ss, id).Some? ==>
      exists i :: (0 <= i < |ss| && FindById(ss, id).value == ss[i] && ss[i].id == id
        && forall j :: 0 <= j < i ==> ss[j].id != id)
    ensures DistinctIds(ss) ==> forall i :: 0 <= i < |ss| && ss[i].id == id ==> FindById(ss, id) == Some(ss[i])
  {
    if ss != [] {
      FindByIdSpec(ss[1..], id);
      assert forall i :: 1 <= i < |ss| ==> ss[i] == ss[1..][i - 1];
      if ss[0].id != id && FindById(ss, id).Some? {
        var i :| 0 <= i < |ss[1..]| && FindById(ss, id).value == ss[1..][i] && ss[1..][i].id == id
          && forall j :: 0 <= j < i ==> ss[1..][j].id != id;
        assert FindById(ss, id).value == ss[i + 1];
      }
    }
  }

  /** Every song is found by its own id. */
  lemma GetSongByOwnId(i: nat)
    requires i < |SONGS|
    ensures GetSongById(SONGS[i].id) == Some(SONGS[i])
  {
    LibraryIds();
    FindByIdSpec(SONGS, SONGS[i].id);
  }

  /** `ss.filter((s) => s.difficulty === difficulty)`. */
  function FilterDifficulty(ss: seq<Song>, d: Difficulty): seq<Song>
  {
    if ss == [] then []
    else (if ss[0].difficulty == d then [ss[0]] else []) + FilterDifficulty(ss[1..], d)
  }

  /** `getSongsByDifficulty`: the library's songs of one difficulty, in library order. */
  function GetSongsByDifficulty(d: Difficulty): (r: seq<Song>)
    ensures forall s :: s in r <==> s in SONGS && s.difficulty == d
    ensures Subsequence(r, SONGS)
  {
    FilterDifficultySpec(SONGS, d);
    FilterDifficulty(SONGS, d)
  }

  /** `xs` is `ys` with some elements left out, the rest in their order. */
  predicate Subsequence(xs: seq<Song>, ys: seq<Song>)
    decreases |ys|
  {
    if xs == [] then true
    else if ys == [] then false
    else (xs[0] == ys[0] && Subsequence(xs[1..], ys[1..])) || Subsequence(xs, ys[1..])
  }

  /**
   * The songs of a difficulty: exactly those of `ss` with it, in the order
   * of `ss`.
   */
  lemma {:induction false} FilterDifficultySpec(ss: seq<Song>, d: Difficulty)
    ensures forall s :: s in FilterDifficulty(ss, d) <==> s in ss && s.difficulty == d
    ensures Subsequence(FilterDifficulty(ss, d), ss)
  {
    if ss != [] {
      FilterDifficultySpec(ss[1..], d);
      var r := FilterDifficulty(ss, d);
      if ss[0].difficulty == d {
        assert r[0] == ss[0] && r[1..] == FilterDifficulty(ss[1..], d);
      } else {
        assert r == FilterDifficulty(ss[1..], d);
        SubsequenceSkip(r, ss);
      }
    }
  }

  lemma SubsequenceSkip(xs: seq<Song>, ys: seq<Song>)
    requires ys != [] && Subsequence(xs, ys[1..])
    ensures Subsequence(xs, ys)
  {
  }

  /**
   * The three difficulty lists partition the songs: together they hold each
   * song as often as the list does, and no song is in two of them.
   */
  lemma {:induction false} DifficultiesPartition(ss: seq<Song>)
    ensures multiset(FilterDifficulty(ss, Beginner)) + multiset(FilterDifficulty(ss, Intermediate))
      + multiset(FilterDifficulty(ss, Advanced)) == multiset(ss)
    ensures |FilterDifficulty(ss, Beginner)| + |FilterDifficulty(ss, Intermediate)|
      + |FilterDifficulty(ss, Advanced)| == |ss|
  {
    if ss != [] {
      DifficultiesPartition(ss[1..]);
      assert ss == [ss[0]] + ss[1..];
      assert multiset(ss) == multiset([ss[0]]) + multiset(ss[1..]);
    }
  }

  /** Every song of the library is in exactly one of the three difficulty lists. */
  lemma LibraryPartition()
    ensures multiset(GetSongsByDifficulty(Beginner)) + multiset(GetSongsByDifficulty(Intermediate))
      + multiset(GetSongsByDifficulty(Advanced)) == multiset(SONGS)
  {
    DifficultiesPartition(SONGS);
  }
}
