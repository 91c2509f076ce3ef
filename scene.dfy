/**
  The scene program that `makeSceneProgram` builds: the theme palette, the
  star and cloud tables drawn from the seeded generator, the hair colour and
  the three-line dialogue script. The tables keep the raw 32-bit draws; the
  `lerp`-scaled values are functions of them.
*/
module Scene {
  import opened Common
  import opened Xorshift
  import Numeric
  import Text

  /** What the configuration controls read: theme, mood, title and character name. */
  datatype Config = Config(theme: string, mood: string, title: string, name: string)

  datatype ThemeKind = Action | Romance | Scifi | Default

  /** The `switch(theme)` of `themePalette`: any value other than the three named ones is the default. */
  function KindOf(theme: string): (k: ThemeKind)
    ensures k == Default <==> theme != "action" && theme != "romance" && theme != "scifi"
  {
    if theme == "action" then Action
    else if theme == "romance" then Romance
    else if theme == "scifi" then Scifi
    else Default
  }

  datatype Palette = Palette(sky: string, grad1: string, grad2: string, ground: string, accent: string)

  function PaletteOf(k: ThemeKind): Palette {
    match k
    case Action => Palette("#0b0f1a", "#0f2a5a", "#2b115e", "#0a0b14", "#ff8c3a")
    case Romance => Palette("#120d1a", "#3a0f3e", "#6d1f5a", "#160a1b", "#ff6fa8")
    case Scifi => Palette("#04080f", "#0e2240", "#0f3c5a", "#05070e", "#39d98a")
    case Default => Palette("#060912", "#152048", "#2a0f5a", "#0a0d18", "#7a88ff")
  }

  /** `themePalette(theme, mood)`: the mood is read but takes no part. */
  function ThemePalette(theme: string, mood: string): (r: Palette)
    ensures theme != "action" && theme != "romance" && theme != "scifi" ==> r == PaletteOf(Default)
  {
    PaletteOf(KindOf(theme))
  }

  /** The palette depends on the theme only, and different kinds of theme get different accents. */
  lemma PaletteByThemeOnly(t1: string, m1: string, t2: string, m2: string)
    ensures ThemePalette(t1, m1) == ThemePalette(t2, m2) <==> KindOf(t1) == KindOf(t2)
  {
    if KindOf(t1) != KindOf(t2) {
      assert ThemePalette(t1, m1).accent != ThemePalette(t2, m2).accent;
    }
  }

  const NumStars: nat := 160
  const NumClouds: nat := 6
  /** Each star takes 4 draws (x, y, z, size) and each cloud 5 (y, speed, offset, alpha, scale). */
  const StarDrawCount: nat := 640
  const CloudDrawCount: nat := 30
  /** Draws taken by the star and cloud tables before the hair pick. */
  const HairDrawIndex: nat := StarDrawCount + CloudDrawCount
  /** Every draw `makeSceneProgram` takes: 160 stars × 4, 6 clouds × 5 and the hair pick. */
  const SceneDrawCount: nat := HairDrawIndex + 1

  /** One star: the raw draws behind `x`, `y`, `z` and `s`. */
  datatype Star = Star(x: bv32, y: bv32, z: bv32, size: bv32)

  /** One cloud layer: the raw draws behind `y`, `speed`, `offset`, `alpha` and `scale`. */
  datatype Cloud = Cloud(y: bv32, speed: bv32, offset: bv32, alpha: bv32, scale: bv32)

  /** `s: lerp(0.5, 1.8, rand())`. */
  function StarSize(s: Star): (r: real)
    ensures 0.5 <= r <= 1.8
  {
    Numeric.Lerp(0.5, 1.8, DrawValue(s.size))
  }

  datatype CloudLayer = CloudLayer(y: real, speed: real, offset: real, alpha: real, scale: real)

  /** The scaled cloud fields: each lies in the range its `lerp` (or `* 1000`) gives it. */
  function CloudLayerOf(c: Cloud): (l: CloudLayer)
    ensures 60.0 <= l.y <= 260.0 && 10.0 <= l.speed <= 40.0 && 0.0 <= l.offset <= 1000.0
    ensures 0.08 <= l.alpha <= 0.22 && 0.6 <= l.scale <= 2.0
  {
    CloudLayer(
      Numeric.Lerp(60.0, 260.0, DrawValue(c.y)),
      Numeric.Lerp(10.0, 40.0, DrawValue(c.speed)),
      DrawValue(c.offset) * 1000.0,
      Numeric.Lerp(0.08, 0.22, DrawValue(c.alpha)),
      Numeric.Lerp(0.6, 2.0, DrawValue(c.scale)))
  }

  const HairColors: seq<string> := ["#27212b", "#4f2a2f", "#1d2a4f", "#2f3a6d", "#0f0f0f"]

  /** `Math.floor(rand() * hairColors.length)`: one past the last colour exactly when the draw is 1. */
  function HairPick(n: bv32): (i: int)
    ensures 0 <= i <= |HairColors|
    ensures i == |HairColors| <==> n == 0xFFFF_FFFF
  {
    var x := DrawValue(n) * 5.0;
    assert 0.0 <= x <= 5.0;
    assert x == 5.0 <==> n == 0xFFFF_FFFF;
    x.Floor
  }

  /** `hairColors[...]`: `None` is the `undefined` read past the end of the array. */
  function HairColor(n: bv32): (h: Option<string>)
    ensures h.None? <==> n == 0xFFFF_FFFF
    ensures h.Some? ==> h.value in HairColors
  {
    var i := HairPick(n);
    if i < |HairColors| then Some(HairColors[i]) else None
  }

  /** The fallbacks and fixed parts of the dialogue; the Devanagari text is garbled to `?` in the source and kept as written. */
  const FallbackName: string := "????"
  const FallbackTitle: string := "???? ?????"
  const GreetingOpen: string := "??? "
  const GreetingClose: string := " ???..."
  const TitleClose: string := " ?? ?????? ???? ?? ???? ???"

  /** The third dialogue line, chosen by the kind of theme; none of them is blank. */
  function ThemeLine(k: ThemeKind): (r: string)
    ensures Trimmed(r)
  {
    match k
    case Action =>
      var line := "??? ????, ??? ???? ? ?? ??? ???? ?????";
      assert line[0] == '?' && line[|line| - 1] == '?';
      line
    case Romance =>
      var line := "???? ???, ???? ??????? ? ?? ????? ?????";
      assert line[0] == '?' && line[|line| - 1] == '?';
      line
    case Scifi =>
      var line := "??? ?????? ??, ????? ????? " + "?? ? ?? ??? ????? ????";
      assert line[0] == '?' && line[|line| - 1] == '?';
      line
    case Default =>
      var line := "???? ?? ?????? ? ??? ????? ?????? ???";
      assert line[0] == '?' && line[|line| - 1] == '?';
      line
  }

  /** Text with something visible at both ends: what `trim` leaves of a value that is not blank. */
  predicate Trimmed(s: string) {
    s != [] && !Text.IsJsWhitespace(s[0]) && !Text.IsJsWhitespace(s[|s| - 1])
  }

  lemma FallbacksTrimmed()
    ensures Trimmed(FallbackName) && Trimmed(FallbackTitle)
  {
    assert !Text.IsJsWhitespace('?');
  }

  /** `value.trim() || fallback`: the trimmed text, or the fallback when nothing but whitespace was typed. */
  function OrFallback(raw: string, fallback: string): (r: string)
    ensures Text.AllWhitespace(raw) ==> r == fallback
    ensures !Text.AllWhitespace(raw) ==> r == Text.Trim(raw) && Trimmed(r)
  {
    var t := Text.Trim(raw);
    if t == [] then fallback else t
  }

  /** The three dialogue lines: a greeting with the name, a line with the title, a line chosen by the theme. */
  function DialogueLines(cfg: Config): (lines: seq<string>)
    ensures |lines| == 3
  {
    [ GreetingOpen + OrFallback(cfg.name, FallbackName) + GreetingClose,
      OrFallback(cfg.title, FallbackTitle) + TitleClose,
      ThemeLine(KindOf(cfg.theme)) ]
  }

  /** The name and title the dialogue shows are never blank and never padded with whitespace. */
  lemma DialogueShowsInputs(cfg: Config)
    ensures Trimmed(OrFallback(cfg.name, FallbackName)) && Trimmed(OrFallback(cfg.title, FallbackTitle))
    ensures DialogueLines(cfg)[0] == GreetingOpen + OrFallback(cfg.name, FallbackName) + GreetingClose
    ensures DialogueLines(cfg)[1] == OrFallback(cfg.title, FallbackTitle) + TitleClose
  {
    FallbacksTrimmed();
  }

  /** The program `makeSceneProgram` returns (with the tables its `render` closes over). */
  datatype Program = Program(
    palette: Palette,
    stars: seq<Star>,
    clouds: seq<Cloud>,
    hairDraw: bv32,
    hair: Option<string>,
    outfit: string,
    lines: seq<string>)

  /** Star `i` of a draw stream takes draws 4i .. 4i+3, in field order. */
  function StarAt(d: seq<bv32>, i: nat): Star
    requires 4 * i + 4 <= |d|
  {
    var k := 4 * i;
    Star(d[k], d[k + 1], d[k + 2], d[k + 3])
  }

  /** Cloud `j` of the draws after the stars takes draws 5j .. 5j+4 of them, in field order. */
  function CloudAt(d: seq<bv32>, j: nat): Cloud
    requires 5 * j + 5 <= |d|
  {
    var k := 5 * j;
    Cloud(d[k], d[k + 1], d[k + 2], d[k + 3], d[k + 4])
  }

  /** The first `n` stars of a draw stream, in the order `map` builds them. */
  function StarTable(d: seq<bv32>, n: nat): (stars: seq<Star>)
    requires 4 * n <= |d|
    ensures |stars| == n
  {
    if n == 0 then [] else StarTable(d, n - 1) + [StarAt(d, n - 1)]
  }

  /** The first `n` clouds of the draws that follow the stars. */
  function CloudTable(d: seq<bv32>, n: nat): (clouds: seq<Cloud>)
    requires 5 * n <= |d|
    ensures |clouds| == n
  {
    if n == 0 then [] else CloudTable(d, n - 1) + [CloudAt(d, n - 1)]
  }

  /** The program built from the 671 draws `d` and the configuration. */
  function SceneFromDraws(d: seq<bv32>, cfg: Config): (p: Program)
    requires |d| == SceneDrawCount
    ensures |p.stars| == NumStars && |p.clouds| == NumClouds && |p.lines| == 3
    ensures p.hairDraw == d[HairDrawIndex]
    ensures p.hair.None? <==> d[HairDrawIndex] == 0xFFFF_FFFF
    ensures p.outfit == p.palette.accent
  {
    var palette := ThemePalette(cfg.theme, cfg.mood);
    Program(
      palette,
      StarTable(d[..StarDrawCount], NumStars),
      CloudTable(d[StarDrawCount..HairDrawIndex], NumClouds),
      d[HairDrawIndex],
      HairColor(d[HairDrawIndex]),
      palette.accent,
      DialogueLines(cfg))
  }

  /** The program built from seed state `seed`: the tables take the first 671 draws of its stream. */
  function SceneOf(seed: bv32, cfg: Config): (p: Program)
    ensures |p.stars| == NumStars && |p.clouds| == NumClouds && |p.lines| == 3
    ensures p.hair.None? <==> NthDraw(seed, HairDrawIndex) == 0xFFFF_FFFF
    ensures p.outfit == p.palette.accent
  {
    SceneFromDraws(Draws(seed, SceneDrawCount), cfg)
  }

  /** The draws behind one star, in the order `x`, `y`, `z`, `s` are drawn. */
  function StarFields(s: Star): (r: seq<bv32>)
    ensures |r| == 4
  {
    [s.x, s.y, s.z, s.size]
  }

  /** The draws behind one cloud layer, in the order its fields are drawn. */
  function CloudFields(c: Cloud): (r: seq<bv32>)
    ensures |r| == 5
  {
    [c.y, c.speed, c.offset, c.alpha, c.scale]
  }

  /** The draws a star table holds, in table order. */
  function StarDraws(stars: seq<Star>): (r: seq<bv32>)
    ensures |r| == 4 * |stars|
  {
    if stars == [] then [] else StarDraws(stars[..|stars| - 1]) + StarFields(stars[|stars| - 1])
  }

  /** The draws a cloud table holds, in table order. */
  function CloudDraws(clouds: seq<Cloud>): (r: seq<bv32>)
    ensures |r| == 5 * |clouds|
  {
    if clouds == [] then [] else CloudDraws(clouds[..|clouds| - 1]) + CloudFields(clouds[|clouds| - 1])
  }

  /** Every draw a program holds, in the order they were taken. */
  function TableDraws(p: Program): seq<bv32> {
    StarDraws(p.stars) + CloudDraws(p.clouds) + [p.hairDraw]
  }

  lemma SliceSplit<T>(d: seq<T>, i: nat, j: nat)
    requires i <= j <= |d|
    ensures d[..j] == d[..i] + d[i..j]
  {
  }

  /** A sequence is its prefix, the middle part and its last element. */
  lemma ThreeParts<T>(d: seq<T>, i: nat, j: nat)
    requires i <= j && j + 1 == |d|
    ensures d[..i] + d[i..j] + [d[j]] == d
  {
  }

  lemma StarFieldsAt(d: seq<bv32>, i: nat)
    requires 4 * i + 4 <= |d|
    ensures StarFields(StarAt(d, i)) == d[4 * i..4 * i + 4]
  {
  }

  lemma CloudFieldsAt(d: seq<bv32>, j: nat)
    requires 5 * j + 5 <= |d|
    ensures CloudFields(CloudAt(d, j)) == d[5 * j..5 * j + 5]
  {
  }

  /** The star table holds the stream's first 4n draws, unchanged and in order. */
  lemma {:induction false} StarTableHoldsDraws(d: seq<bv32>, n: nat)
    requires 4 * n <= |d|
    ensures StarDraws(StarTable(d, n)) == d[..4 * n]
  {
    if n > 0 {
      var t, k := StarTable(d, n), 4 * (n - 1);
      assert t[..n - 1] == StarTable(d, n - 1);
      StarTableHoldsDraws(d, n - 1);
      StarFieldsAt(d, n - 1);
      SliceSplit(d, k, k + 4);
    }
  }

  /** The cloud table holds the first 5n draws it is given, unchanged and in order. */
  lemma {:induction false} CloudTableHoldsDraws(d: seq<bv32>, n: nat)
    requires 5 * n <= |d|
    ensures CloudDraws(CloudTable(d, n)) == d[..5 * n]
  {
    if n > 0 {
      var t, k := CloudTable(d, n), 5 * (n - 1);
      assert t[..n - 1] == CloudTable(d, n - 1);
      CloudTableHoldsDraws(d, n - 1);
      CloudFieldsAt(d, n - 1);
      SliceSplit(d, k, k + 5);
    }
  }

  /** The star table, the cloud table and the hair pick together hold the whole stream. */
  lemma TablesHoldStream(d: seq<bv32>)
    requires |d| == SceneDrawCount
    ensures StarDraws(StarTable(d[..StarDrawCount], NumStars))
      + CloudDraws(CloudTable(d[StarDrawCount..HairDrawIndex], NumClouds)) + [d[HairDrawIndex]] == d
  {
    var stars, clouds := d[..640], d[640..670];
    StarTableHoldsDraws(stars, NumStars);
    assert stars[..4 * NumStars] == stars;
    CloudTableHoldsDraws(clouds, NumClouds);
    assert clouds[..5 * NumClouds] == clouds;
    ThreeParts(d, 640, 670);
  }

  /** A program's tables give back exactly the draws it was built from. */
  lemma ProgramHoldsDraws(d: seq<bv32>, cfg: Config)
    requires |d| == SceneDrawCount
    ensures TableDraws(SceneFromDraws(d, cfg)) == d
  {
    TablesHoldStream(d);
  }

  /**
    `makeSceneProgram` consumes exactly the first 671 draws, in order: star i
    holds draws 4i .. 4i+3, cloud j holds 640+5j .. 644+5j, the hair pick is draw 670.
  */
  lemma SceneConsumesDrawsInOrder(seed: bv32, cfg: Config)
    ensures TableDraws(SceneOf(seed, cfg)) == Draws(seed, SceneDrawCount)
  {
    ProgramHoldsDraws(Draws(seed, SceneDrawCount), cfg);
  }

  /** A star table reads only its own draws: later draws do not change it. */
  lemma {:induction false} StarTablePrefix(d: seq<bv32>, e: seq<bv32>, n: nat)
    requires 4 * n <= |d|
    ensures StarTable(d + e, n) == StarTable(d, n)
  {
    if n > 0 {
      StarTablePrefix(d, e, n - 1);
      var k := 4 * (n - 1);
      assert (d + e)[k..k + 4] == d[k..k + 4];
    }
  }

  /** A cloud table reads only its own draws: later draws do not change it. */
  lemma {:induction false} CloudTablePrefix(d: seq<bv32>, e: seq<bv32>, n: nat)
    requires 5 * n <= |d|
    ensures CloudTable(d + e, n) == CloudTable(d, n)
  {
    if n > 0 {
      CloudTablePrefix(d, e, n - 1);
      var k := 5 * (n - 1);
      assert (d + e)[k..k + 5] == d[k..k + 5];
    }
  }

  /** Drawing one more star extends the star table by that star. */
  lemma StarTableSnoc(d: seq<bv32>, s: Star, n: nat)
    requires |d| == 4 * n
    ensures StarTable(d + StarFields(s), n + 1) == StarTable(d, n) + [s]
  {
    StarTablePrefix(d, StarFields(s), n);
  }

  /** Drawing one more cloud extends the cloud table by that cloud. */
  lemma CloudTableSnoc(d: seq<bv32>, c: Cloud, n: nat)
    requires |d| == 5 * n
    ensures CloudTable(d + CloudFields(c), n + 1) == CloudTable(d, n) + [c]
  {
    CloudTablePrefix(d, CloudFields(c), n);
  }

  /** One star of the `map` in `makeSceneProgram`: four draws for `x`, `y`, `z` and `s`. */
  method DrawStar(rand: Generator) returns (s: Star)
    requires rand.Valid()
    modifies rand
    ensures rand.Valid() && rand.origin == old(rand.origin)
    ensures rand.drawn == old(rand.drawn) + StarFields(s)
  {
    var x := rand.Next();
    var y := rand.Next();
    var z := rand.Next();
    var size := rand.Next();
    s := Star(x, y, z, size);
  }

  /** One cloud layer: five draws for `y`, `speed`, `offset`, `alpha` and `scale`. */
  method DrawCloud(rand: Generator) returns (c: Cloud)
    requires rand.Valid()
    modifies rand
    ensures rand.Valid() && rand.origin == old(rand.origin)
    ensures rand.drawn == old(rand.drawn) + CloudFields(c)
  {
    var y := rand.Next();
    var speed := rand.Next();
    var offset := rand.Next();
    var alpha := rand.Next();
    var scale := rand.Next();
    c := Cloud(y, speed, offset, alpha, scale);
  }

  /** The star table of `makeSceneProgram`: 160 stars from the start of a fresh stream. */
  method DrawStars(rand: Generator) returns (stars: seq<Star>)
    requires rand.Valid() && rand.drawn == []
    modifies rand
    ensures rand.Valid() && rand.origin == old(rand.origin) && |rand.drawn| == StarDrawCount
    ensures stars == StarTable(rand.drawn, NumStars)
  {
    stars := [];
    var i := 0;
    while i < NumStars
      invariant 0 <= i <= NumStars
      invariant rand.Valid() && rand.origin == old(rand.origin) && |rand.drawn| == 4 * i
      invariant stars == StarTable(rand.drawn, i)
    {
      ghost var before := rand.drawn;
      var s := DrawStar(rand);
      StarTableSnoc(before, s, i);
      stars := stars + [s];
      i := i + 1;
    }
  }

  /** The cloud table of `makeSceneProgram`: 6 layers from the 30 draws after the stars. */
  method DrawClouds(rand: Generator) returns (clouds: seq<Cloud>)
    requires rand.Valid() && |rand.drawn| == StarDrawCount
    modifies rand
    ensures rand.Valid() && rand.origin == old(rand.origin) && |rand.drawn| == HairDrawIndex
    ensures rand.drawn[..StarDrawCount] == old(rand.drawn)
    ensures clouds == CloudTable(rand.drawn[StarDrawCount..], NumClouds)
  {
    ghost var start := rand.drawn;
    ghost var taken: seq<bv32> := [];
    clouds := [];
    var j := 0;
    while j < NumClouds
      invariant 0 <= j <= NumClouds
      invariant rand.Valid() && rand.origin == old(rand.origin)
      invariant rand.drawn == start + taken && |taken| == 5 * j
      invariant clouds == CloudTable(taken, j)
    {
      var c := DrawCloud(rand);
      CloudTableSnoc(taken, c, j);
      taken := taken + CloudFields(c);
      clouds := clouds + [c];
      j := j + 1;
    }
    assert rand.drawn[640..] == taken;
  }

  /** Splitting the full stream back into the parts the three steps of `makeSceneProgram` took. */
  lemma StreamParts(starDraws: seq<bv32>, tableDraws: seq<bv32>, hairDraw: bv32)
    requires |starDraws| == StarDrawCount && |tableDraws| == HairDrawIndex
    requires tableDraws[..StarDrawCount] == starDraws
    ensures var d := tableDraws + [hairDraw];
      d[..StarDrawCount] == starDraws && d[StarDrawCount..HairDrawIndex] == tableDraws[StarDrawCount..]
      && d[HairDrawIndex] == hairDraw
  {
    var d := tableDraws + [hairDraw];
    assert d[..HairDrawIndex] == tableDraws;
  }

  /** `makeSceneProgram`: draws from a fresh generator seeded with `seed`, table by table. */
  method MakeSceneProgram(seed: int, cfg: Config) returns (p: Program)
    ensures p == SceneOf(SeedState(seed), cfg)
  {
    var rand := new Generator(seed);
    var pal := ThemePalette(cfg.theme, cfg.mood);
    var stars := DrawStars(rand);
    ghost var starDraws := rand.drawn;
    var clouds := DrawClouds(rand);
    ghost var tableDraws := rand.drawn;
    var hairDraw := rand.Next();
    StreamParts(starDraws, tableDraws, hairDraw);
    var hair := HairColor(hairDraw);
    p := Program(pal, stars, clouds, hairDraw, hair, pal.accent, DialogueLines(cfg));
  }
}
