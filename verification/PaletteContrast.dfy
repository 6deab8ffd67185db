/** The promise of the palette: whatever the hue, the text reads and the brand colours are findable. */
module PaletteContrast {
  import opened Prelude
  import opened Palette

  // ------------------------------------------------------------ powers

  lemma {:induction false} PowNonNegative(x: real, n: nat)
    requires x >= 0.0
    ensures Pow(x, n) >= 0.0
    ensures x <= 1.0 ==> Pow(x, n) <= 1.0
    decreases n
  {
    if n > 0 {
      PowNonNegative(x, n - 1);
      if x <= 1.0 {
        Shrinks(x, Pow(x, n - 1));
      }
    }
  }

  lemma Shrinks(x: real, y: real)
    requires 0.0 <= x <= 1.0 && y >= 0.0
    ensures 0.0 <= x * y <= y
  {
  }

  lemma {:induction false} PowAdd(x: real, a: nat, b: nat)
    ensures Pow(x, a + b) == Pow(x, a) * Pow(x, b)
    decreases a
  {
    if a > 0 {
      PowAdd(x, a - 1, b);
      assert x * (Pow(x, a - 1) * Pow(x, b)) == (x * Pow(x, a - 1)) * Pow(x, b);
    }
  }

  lemma {:induction false} PowOfPow(x: real, a: nat, n: nat)
    ensures Pow(Pow(x, a), n) == Pow(x, a * n)
    decreases n
  {
    if n > 0 {
      PowOfPow(x, a, n - 1);
      PowAdd(x, a, a * (n - 1));
      assert a + a * (n - 1) == a * n;
    }
  }

  lemma MulMono(a: real, b: real, c: real, d: real)
    requires 0.0 <= a < b && 0.0 <= c < d
    ensures 0.0 <= a * c < b * d
  {
    assert a * c <= b * c;
    assert b * c < b * d;
  }

  lemma {:induction false} PowStrict(a: real, b: real, n: nat)
    requires 0.0 <= a < b && n > 0
    ensures 0.0 <= Pow(a, n) < Pow(b, n)
    decreases n
  {
    if n == 1 {
      assert Pow(a, 1) == a * Pow(a, 0) && Pow(b, 1) == b * Pow(b, 0);
    } else {
      PowStrict(a, b, n - 1);
      MulMono(a, b, Pow(a, n - 1), Pow(b, n - 1));
    }
  }

  /** On the unit interval higher powers are smaller. */
  lemma {:induction false} PowShrinks(x: real, m: nat, n: nat)
    requires 0.0 <= x <= 1.0 && n <= m
    ensures Pow(x, m) <= Pow(x, n)
  {
    PowNonNegative(x, n);
    PowNonNegative(x, m - n);
    PowAdd(x, m - n, n);
    assert (m - n) + n == m;
    Shrinks(Pow(x, m - n), Pow(x, n));
  }

  /** If the n-th power of y is the m-th of x, then y lies between x to the a and x to the b
      whenever m/n lies between a and b. */
  lemma {:induction false} RootBetween(x: real, y: real, n: nat, m: nat, a: nat, b: nat)
    requires 0.0 <= x <= 1.0 && y >= 0.0 && n > 0 && Pow(y, n) == Pow(x, m) && a * n <= m <= b * n
    ensures Pow(x, b) <= y <= Pow(x, a)
  {
    PowOfPow(x, a, n);
    PowOfPow(x, b, n);
    PowShrinks(x, m, a * n);
    PowShrinks(x, b * n, m);
    PowNonNegative(x, a);
    if y > Pow(x, a) {
      PowStrict(Pow(x, a), y, n);
    }
    if y < Pow(x, b) {
      PowStrict(y, Pow(x, b), n);
    }
  }

  /** On the unit interval x^2.4 lies between the cube and the square. */
  lemma {:induction false} BetweenCubeAndSquare(f: Maths, x: real)
    requires Exact(f) && 0.0 <= x <= 1.0
    ensures Pow(x, 3) <= f.pow24(x) <= Pow(x, 2)
  {
    RootBetween(x, f.pow24(x), 5, 12, 2, 3);
  }

  lemma {:induction false} PowMonotone(a: real, b: real, n: nat)
    requires 0.0 <= a <= b && n > 0
    ensures Pow(a, n) <= Pow(b, n)
  {
    if a < b {
      PowStrict(a, b, n);
    }
  }

  // ------------------------------------------------------------ channels

  lemma RoundWithin(x: real, lo: int, hi: int)
    requires lo as real <= x <= hi as real
    ensures lo <= Round(x) <= hi
  {
  }

  lemma NonNegativeProduct(a: real, b: real)
    requires a >= 0.0 && b >= 0.0
    ensures a * b >= 0.0
  {
  }

  lemma FloorBounds(m: real, q: real, y: real) returns (r: real)
    requires m > 0.0 && q <= y < q + 1.0
    ensures r == m * y - m * q && 0.0 <= r <= m
  {
    r := m * (y - q);
    NonNegativeProduct(m, y - q);
    NonNegativeProduct(m, 1.0 - (y - q));
    assert m * (1.0 - (y - q)) == m - r;
  }

  lemma ModIs(x: real, m: real, y: real, q: real)
    requires m > 0.0 && y == x / m && q == y.Floor as real
    ensures Mod(x, m) == m * y - m * q
  {
    assert m * y == x;
  }

  lemma ModRange(x: real, m: real)
    requires m > 0.0
    ensures 0.0 <= Mod(x, m) <= m
  {
    var y := x / m;
    var q := y.Floor as real;
    ModIs(x, m, y, q);
    var r := FloorBounds(m, q, y);
    assert Mod(x, m) == r;
  }

  lemma ChromaRange(s: real, l: real)
    requires 0.0 <= s <= 1.0 && 0.0 <= l <= 1.0
    ensures 0.0 <= Chroma(s, l) && Chroma(s, l) <= 2.0 * l && Chroma(s, l) <= 2.0 * (1.0 - l)
  {
    var t := 1.0 - Abs(2.0 * l - 1.0);
    assert 0.0 <= t;
    assert t <= 2.0 * l;
    assert t <= 2.0 * (1.0 - l);
    Shrinks(s, t);
    assert Chroma(s, l) == t * s <= t;
  }

  lemma ChannelWithin(v: real, c: real, l: real, lo: int, hi: int)
    requires 0.0 <= v <= c && lo as real <= (l - c / 2.0) * 255.0 && (l + c / 2.0) * 255.0 <= hi as real
    ensures lo <= Channel(v, l - c / 2.0) <= hi
  {
    RoundWithin((v + (l - c / 2.0)) * 255.0, lo, hi);
  }

  lemma PartOfChroma(h: real, c: real)
    requires c >= 0.0
    ensures 0.0 <= Part(h, c) <= c
  {
    ModRange(h / 60.0, 2.0);
    var part := 1.0 - Abs(Mod(h / 60.0, 2.0) - 1.0);
    Shrinks(part, c);
    assert c * part == part * c;
  }

  lemma HexantWithin(h: real, full: int, part: int, none: int, lo: int, hi: int)
    requires lo <= full <= hi && lo <= part <= hi && lo <= none <= hi
    ensures Within(Hexant(h, full, part, none), lo, hi)
  {
  }

  lemma ShadeWithin(h: real, c: real, l: real, lo: int, hi: int)
    requires 0.0 <= c && lo as real <= (l - c / 2.0) * 255.0 && (l + c / 2.0) * 255.0 <= hi as real
    ensures Within(Shade(h, c, l - c / 2.0), lo, hi)
  {
    PartOfChroma(h, c);
    ChannelWithin(c, c, l, lo, hi);
    ChannelWithin(Part(h, c), c, l, lo, hi);
    ChannelWithin(0.0, c, l, lo, hi);
    HexantWithin(h, Channel(c, l - c / 2.0), Channel(Part(h, c), l - c / 2.0), Channel(0.0, l - c / 2.0), lo, hi);
  }

  lemma IsShade(hue: real, sat: real, light: real, h: real, c: real, l: real)
    requires l == Clamp(light) && c == Chroma(Clamp(sat), l) && h == Mod(hue, 360.0)
    ensures HslToColor(hue, sat, light) == Shade(h, c, l - c / 2.0)
  {
  }

  /** The three channels of a colour stay between lightness minus and plus half the chroma. */
  lemma ColorWithin(hue: real, sat: real, light: real, lo: int, hi: int)
    requires var s, l := Clamp(sat), Clamp(light);
             lo as real <= (l - Chroma(s, l) / 2.0) * 255.0 && (l + Chroma(s, l) / 2.0) * 255.0 <= hi as real
    ensures Within(HslToColor(hue, sat, light), lo, hi)
  {
    var l := Clamp(light);
    var c := Chroma(Clamp(sat), l);
    ChromaRange(Clamp(sat), l);
    ShadeWithin(Mod(hue, 360.0), c, l, lo, hi);
    IsShade(hue, sat, light, Mod(hue, 360.0), c, l);
  }

  /** Every colour there is has channels that two hexadecimal digits can hold. */
  lemma ColorIsValid(hue: real, sat: real, light: real)
    ensures Valid(HslToColor(hue, sat, light))
  {
    ChromaRange(Clamp(sat), Clamp(light));
    ColorWithin(hue, sat, light, 0, 255);
  }

  // ------------------------------------------------------------ luminance

  lemma DarkChannel(f: Maths, v: int)
    requires Exact(f) && 0 <= v <= 27
    ensures 0.0 <= Linear(f, v) <= 0.03
  {
    var c := v as real / 255.0;
    if c > 0.03928 {
      var x := (c + 0.055) / 1.055;
      assert 0.0 <= x <= 0.16;
      BetweenCubeAndSquare(f, x);
      PowMonotone(x, 0.16, 2);
      assert Pow(0.16, 2) <= 0.03;
    }
  }

  lemma LightChannel(f: Maths, v: int)
    requires Exact(f) && 238 <= v <= 255
    ensures 0.8 <= Linear(f, v) <= 1.0
  {
    var c := v as real / 255.0;
    var x := (c + 0.055) / 1.055;
    assert 0.93 <= x <= 1.0;
    BetweenCubeAndSquare(f, x);
    PowMonotone(0.93, x, 3);
    PowMonotone(x, 1.0, 2);
    assert Pow(0.93, 3) >= 0.8 && Pow(1.0, 2) == 1.0;
  }

  ghost predicate Dark(f: Maths, bg: Color) {
    0.0 <= Luminance(f, bg) <= 0.03
  }

  ghost predicate Light(f: Maths, bg: Color) {
    0.8 <= Luminance(f, bg) <= 1.0
  }

  lemma DarkGround(f: Maths, bg: Color)
    requires Exact(f) && Within(bg, 0, 27)
    ensures Dark(f, bg)
  {
    DarkChannel(f, bg.r);
    DarkChannel(f, bg.g);
    DarkChannel(f, bg.b);
    Mix(Linear(f, bg.r), Linear(f, bg.g), Linear(f, bg.b), 0.0, 0.03);
  }

  lemma LightGround(f: Maths, bg: Color)
    requires Exact(f) && Within(bg, 238, 255)
    ensures Light(f, bg)
  {
    LightChannel(f, bg.r);
    LightChannel(f, bg.g);
    LightChannel(f, bg.b);
    Mix(Linear(f, bg.r), Linear(f, bg.g), Linear(f, bg.b), 0.8, 1.0);
  }

  lemma Mix(r: real, g: real, b: real, lo: real, hi: real)
    requires lo <= r <= hi && lo <= g <= hi && lo <= b <= hi
    ensures lo <= 0.2126 * r + 0.7152 * g + 0.0722 * b <= hi
  {
  }

  lemma BlackAndWhite(f: Maths)
    requires Exact(f)
    ensures Luminance(f, BLACK) == 0.0 && Luminance(f, WHITE) == 1.0
  {
    BetweenCubeAndSquare(f, 1.0);
    assert Pow(1.0, 3) == 1.0 && Pow(1.0, 2) == 1.0;
    assert (1.0 + 0.055) / 1.055 == 1.0;
    assert Linear(f, 0) == 0.0 && Linear(f, 255) == 1.0;
  }

  /** The ground of every mood is far from the middle, whatever the hue. */
  lemma GroundIsFar(f: Maths, hue: real, mood: string)
    requires Exact(f)
    ensures var m := MoodNamed(mood); var bg := HslToColor(hue, m.bgS, m.bgL); Dark(f, bg) || Light(f, bg)
  {
    var m := MoodNamed(mood);
    if mood == "paper" || mood == "bone" {
      ColorWithin(hue, m.bgS, m.bgL, 238, 255);
      LightGround(f, HslToColor(hue, m.bgS, m.bgL));
    } else {
      ColorWithin(hue, m.bgS, m.bgL, 0, 27);
      DarkGround(f, HslToColor(hue, m.bgS, m.bgL));
    }
  }

  // ------------------------------------------------------------ the floors

  lemma RatioValue(la: real, lb: real)
    requires la >= 0.0 && lb >= 0.0
    ensures la >= lb ==> Ratio(la, lb) * (lb + 0.05) == la + 0.05
    ensures la <= lb ==> Ratio(la, lb) * (la + 0.05) == lb + 0.05
  {
  }

  /** Exactly when the flat fallback clears a floor. */
  lemma FallbackClearsIff(f: Maths, against: Color, floor: real)
    requires Exact(f) && 0.0 <= Luminance(f, against) <= 1.0
    ensures Clears(f, Fallback(f, against), against, floor) <==> FarSideClears(Luminance(f, against), floor)
  {
    BlackAndWhite(f);
    var l := Luminance(f, against);
    if l > 0.5 {
      RatioValue(0.0, l);
      AtLeast(Ratio(0.0, l), 0.05, l + 0.05, floor);
    } else {
      RatioValue(1.0, l);
      AtLeast(Ratio(1.0, l), l + 0.05, 1.05, floor);
    }
  }

  lemma LinearRange(f: Maths, v: int)
    requires Exact(f) && 0 <= v <= 255
    ensures 0.0 <= Linear(f, v) <= 1.0
  {
    var c := v as real / 255.0;
    if c > 0.03928 {
      var x := (c + 0.055) / 1.055;
      assert 0.0 <= x <= 1.0;
      BetweenCubeAndSquare(f, x);
      PowNonNegative(x, 3);
      PowNonNegative(x, 2);
    }
  }

  lemma LuminanceRange(f: Maths, c: Color)
    requires Exact(f) && Valid(c)
    ensures 0.0 <= Luminance(f, c) <= 1.0
  {
    LinearRange(f, c.r);
    LinearRange(f, c.g);
    LinearRange(f, c.b);
    Mix(Linear(f, c.r), Linear(f, c.g), Linear(f, c.b), 0.0, 1.0);
  }

  /** Without saturation the two ends of the lightness range are black and white. */
  lemma Extremes()
    ensures HslToColor(0.0, 0.0, 0.0) == BLACK && HslToColor(0.0, 0.0, 1.0) == WHITE
  {
    assert Mod(0.0, 360.0) == 0.0;
    IsShade(0.0, 0.0, 0.0, 0.0, 0.0, 0.0);
    IsShade(0.0, 0.0, 1.0, 0.0, 0.0, 1.0);
    assert Part(0.0, 0.0) == 0.0;
  }

  /** A walk that starts at the end it heads for has nowhere to go. */
  lemma FitAtTheEnd(f: Maths, light: real, against: Color, floor: real)
    requires light == if Luminance(f, against) > 0.5 then 0.0 else 1.0
    ensures Fit(f, 0.0, 0.0, light, against, floor) == Fallback(f, against)
  {
    Extremes();
  }

  /** Whether the extreme on the far side of the ground meets a floor. */
  predicate FarSideClears(l: real, floor: real) {
    if l > 0.5 then floor * 0.05 <= l + 0.05 else floor * (l + 0.05) <= 1.05
  }

  ghost predicate AlwaysFits(f: Maths, against: Color, floor: real) {
    forall hue, sat, light :: Clears(f, Fit(f, hue, sat, light, against, floor), against, floor)
  }

  /** Fitting meets its floor on a ground for every colour asked of it if and only if the extreme
      it heads for does. On a ground of middling luminance that extreme can miss although the
      other one, which fitting never looks at, would clear. */
  lemma FitAlwaysClearsIff(f: Maths, against: Color, floor: real)
    requires Exact(f) && Valid(against)
    ensures AlwaysFits(f, against, floor) <==> FarSideClears(Luminance(f, against), floor)
  {
    LuminanceRange(f, against);
    FallbackClearsIff(f, against, floor);
    var end := if Luminance(f, against) > 0.5 then 0.0 else 1.0;
    FitAtTheEnd(f, end, against, floor);
    if Clears(f, Fallback(f, against), against, floor) {
      forall hue, sat, light
        ensures Clears(f, Fit(f, hue, sat, light, against, floor), against, floor)
      {
        FitClearsOrFallsBack(f, hue, sat, light, against, floor);
      }
    }
  }

  const GREY := Color(170, 170, 170)

  lemma GreyLuminance(f: Maths)
    requires Exact(f)
    ensures 0.31 <= Luminance(f, GREY) <= 0.48
  {
    var x := (170.0 / 255.0 + 0.055) / 1.055;
    assert 0.68 <= x <= 0.69;
    BetweenCubeAndSquare(f, x);
    PowMonotone(0.68, x, 3);
    PowMonotone(x, 0.69, 2);
    assert Pow(0.68, 3) >= 0.31 && Pow(0.69, 2) <= 0.48;
    assert Linear(f, 170) == f.pow24(x);
    Mix(Linear(f, 170), Linear(f, 170), Linear(f, 170), 0.31, 0.48);
  }

  /** Such a ground: fitting a white text to this grey leaves it white, below the floor, while
      black would have cleared it. */
  lemma GreyDefeatsFit(f: Maths)
    requires Exact(f)
    ensures Fit(f, 0.0, 0.0, 1.0, GREY, MIN_TEXT) == WHITE
    ensures !Clears(f, WHITE, GREY, MIN_TEXT) && Clears(f, BLACK, GREY, MIN_TEXT)
  {
    GreyLuminance(f);
    BlackAndWhite(f);
    var l := Luminance(f, GREY);
    FitAtTheEnd(f, 1.0, GREY, MIN_TEXT);
    RatioValue(1.0, l);
    AtLeast(Ratio(1.0, l), l + 0.05, 1.05, MIN_TEXT);
    RatioValue(0.0, l);
    AtLeast(Ratio(0.0, l), 0.05, l + 0.05, MIN_TEXT);
  }

  lemma AtLeast(q: real, d: real, n: real, floor: real)
    requires d > 0.0 && q * d == n
    ensures q >= floor <==> floor * d <= n
  {
    if q >= floor {
      assert (q - floor) * d >= 0.0;
    } else {
      assert (floor - q) * d > 0.0;
    }
  }

  lemma {:induction false} WalkAccepts(shade: real -> Color, accepts: Color -> bool, probe: real, step: real, n: nat)
    ensures var found := Walk(shade, accepts, probe, step, n); found.Some? ==> accepts(found.value)
    decreases n
  {
    if n > 0 && 0.0 <= probe + step <= 1.0 && !accepts(shade(probe + step)) {
      WalkAccepts(shade, accepts, probe + step, step, n - 1);
    }
  }

  lemma {:induction false} FitClearsOrFallsBack(f: Maths, hue: real, sat: real, light: real, against: Color, floor: real)
    ensures var c := Fit(f, hue, sat, light, against, floor); Clears(f, c, against, floor) || c == Fallback(f, against)
  {
    var shade := (l: real) => HslToColor(hue, sat, l);
    var accepts := (c: Color) => Clears(f, c, against, floor);
    WalkAccepts(shade, accepts, light, WalkStep(f, against), PROBES);
  }

  lemma {:induction false} FallbackClears(f: Maths, against: Color, floor: real)
    requires Exact(f) && (Dark(f, against) || Light(f, against)) && floor <= 7.0
    ensures Clears(f, Fallback(f, against), against, floor)
  {
    FallbackClearsIff(f, against, floor);
    var l := Luminance(f, against);
    if Dark(f, against) {
      FloorTimes(floor, l + 0.05, 0.08);
    } else {
      FloorTimes(floor, 0.05, 0.05);
    }
  }

  lemma {:induction false} FitClears(f: Maths, hue: real, sat: real, light: real, against: Color, floor: real, c: Color)
    requires Exact(f) && (Dark(f, against) || Light(f, against)) && floor <= 7.0
    requires c == Fit(f, hue, sat, light, against, floor)
    ensures Clears(f, c, against, floor)
  {
    FitClearsOrFallsBack(f, hue, sat, light, against, floor);
    FallbackClears(f, against, floor);
  }

  lemma FloorTimes(floor: real, d: real, hi: real)
    requires floor <= 7.0 && 0.0 <= d <= hi
    ensures floor * d <= 7.0 * hi
  {
    assert (7.0 - floor) * d >= 0.0;
    assert 7.0 * d <= 7.0 * hi;
  }

  /** What the accent is chosen from; without a hue of its own it is set apart by lightness. */
  function Accent(hue: real, harmony: string, mood: string, c: Colors): AccentSpec {
    var m := MoodNamed(mood);
    var light := if harmony == "mono" then m.accentL + (if m.bgL < 0.5 then 0.16 else -0.16) else m.accentL;
    AccentSpec(Mod(Mod(hue, 360.0) + HarmonyOffset(harmony), 360.0), m.accentS, light, c.bg, c.primary, c.text)
  }

  ghost predicate PickedAt(f: Maths, a: AccentSpec, offsets: seq<real>, c: Color, h: nat, s: nat) {
    && Picked((x, y) => Separation(f, a, Candidate(f, a, x, y)), offsets, STEPS, h, s)
    && h < |offsets| && s < |STEPS| && c == Candidate(f, a, offsets[h], STEPS[s])
  }

  /** The accent is some candidate of the search, picked by the search's rule. */
  ghost predicate AccentIsPicked(f: Maths, a: AccentSpec, offsets: seq<real>, c: Color) {
    exists h: nat, s: nat :: PickedAt(f, a, offsets, c, h, s)
  }

  /** What being picked means: at least 22 away from both primary and text, or else no candidate
      tried is, and none is further from the nearer of the two. */
  lemma PickedIsBest(f: Maths, a: AccentSpec, offsets: seq<real>, c: Color, h: nat, s: nat)
    requires AccentIsPicked(f, a, offsets, c) && h < |offsets| && s < |STEPS|
    ensures (DeltaE(f, c, a.primary) >= MIN_SEPARATION && DeltaE(f, c, a.text) >= MIN_SEPARATION) ||
            (Separation(f, a, Candidate(f, a, offsets[h], STEPS[s])) <= Separation(f, a, c) < MIN_SEPARATION)
  {
    var i: nat, j: nat :| PickedAt(f, a, offsets, c, i, j);
    var score := (x, y) => Separation(f, a, Candidate(f, a, x, y));
    assert Picked(score, offsets, STEPS, i, j);
    assert Before(h, s, |offsets|, 0);
    if score(offsets[i], STEPS[j]) < MIN_SEPARATION {
      assert score(offsets[h], STEPS[s]) <= score(offsets[i], STEPS[j]);
    }
  }

  ghost predicate IsDerived(f: Maths, hue: real, harmony: string, mood: string, out: Colors) {
    var m, h := MoodNamed(mood), Mod(hue, 360.0);
    && out.bg == HslToColor(h, m.bgS, m.bgL)
    && out.text == Fit(f, h, m.textS, m.textL, out.bg, MIN_TEXT)
    && out.primary == Fit(f, h, m.primaryS, m.primaryL, out.bg, MIN_BRAND)
    && AccentIsPicked(f, Accent(hue, harmony, mood, out), HueOffsets(harmony), out.accent)
  }

  /** For every real hue, every harmony and every mood, known or not: text at least 7:1 and both
      brand colours at least 3:1 against the ground. */
  lemma FloorsHold(f: Maths, hue: real, harmony: string, mood: string, out: Colors)
    requires Exact(f) && IsDerived(f, hue, harmony, mood, out)
    ensures Contrast(f, out.text, out.bg) >= MIN_TEXT
    ensures Contrast(f, out.primary, out.bg) >= MIN_BRAND
    ensures Contrast(f, out.accent, out.bg) >= MIN_BRAND
  {
    var m, h := MoodNamed(mood), Mod(hue, 360.0);
    GroundIsFar(f, h, mood);
    FitClears(f, h, m.textS, m.textL, out.bg, MIN_TEXT, out.text);
    FitClears(f, h, m.primaryS, m.primaryL, out.bg, MIN_BRAND, out.primary);
    AccentClears(f, Accent(hue, harmony, mood, out), HueOffsets(harmony), out.accent);
  }

  lemma CandidateIsFit(f: Maths, a: AccentSpec, x: real, y: real, hue: real, light: real)
    requires hue == a.hue + x && light == a.light + y
    ensures Candidate(f, a, x, y) == Fit(f, hue, a.sat, light, a.bg, MIN_BRAND)
  {
  }

  lemma AccentClears(f: Maths, a: AccentSpec, offsets: seq<real>, c: Color)
    requires Exact(f) && (Dark(f, a.bg) || Light(f, a.bg)) && AccentIsPicked(f, a, offsets, c)
    ensures Clears(f, c, a.bg, MIN_BRAND)
  {
    var i: nat, j: nat :| PickedAt(f, a, offsets, c, i, j);
    var hue, light := a.hue + offsets[i], a.light + STEPS[j];
    CandidateIsFit(f, a, offsets[i], STEPS[j], hue, light);
    FitClears(f, hue, a.sat, light, a.bg, MIN_BRAND, c);
  }

  lemma AccentIsValid(f: Maths, a: AccentSpec, offsets: seq<real>, c: Color)
    requires AccentIsPicked(f, a, offsets, c)
    ensures Valid(c)
  {
    var i: nat, j: nat :| PickedAt(f, a, offsets, c, i, j);
    var hue, light := a.hue + offsets[i], a.light + STEPS[j];
    CandidateIsFit(f, a, offsets[i], STEPS[j], hue, light);
    FitIsValid(f, hue, a.sat, light, a.bg, MIN_BRAND);
  }

  lemma {:induction false} WalkMakes(shade: real -> Color, accepts: Color -> bool, probe: real, step: real, n: nat)
    ensures var found := Walk(shade, accepts, probe, step, n); found.Some? ==> exists l :: found.value == shade(l)
    decreases n
  {
    if n > 0 && 0.0 <= probe + step <= 1.0 && !accepts(shade(probe + step)) {
      WalkMakes(shade, accepts, probe + step, step, n - 1);
    }
  }

  lemma {:induction false} FitIsValid(f: Maths, hue: real, sat: real, light: real, against: Color, floor: real)
    ensures Valid(Fit(f, hue, sat, light, against, floor))
  {
    var shade := (l: real) => HslToColor(hue, sat, l);
    var accepts := (c: Color) => Clears(f, c, against, floor);
    WalkMakes(shade, accepts, light, WalkStep(f, against), PROBES);
    forall l
      ensures Valid(shade(l))
    {
      ColorIsValid(hue, sat, l);
    }
  }

  /** And all four are colours a #rrggbb string can hold. */
  lemma AllValid(f: Maths, hue: real, harmony: string, mood: string, out: Colors)
    requires IsDerived(f, hue, harmony, mood, out)
    ensures Valid(out.primary) && Valid(out.accent) && Valid(out.bg) && Valid(out.text)
  {
    var m, h := MoodNamed(mood), Mod(hue, 360.0);
    ColorIsValid(h, m.bgS, m.bgL);
    FitIsValid(f, h, m.textS, m.textL, out.bg, MIN_TEXT);
    FitIsValid(f, h, m.primaryS, m.primaryL, out.bg, MIN_BRAND);
    AccentIsValid(f, Accent(hue, harmony, mood, out), HueOffsets(harmony), out.accent);
  }

  /** The palette itself: derived as specified, above every floor, and made of real colours. */
  method Derive(f: Maths, hue: real, harmony: string, mood: string) returns (out: Colors)
    requires Exact(f)
    ensures IsDerived(f, hue, harmony, mood, out)
    ensures Contrast(f, out.text, out.bg) >= MIN_TEXT
    ensures Contrast(f, out.primary, out.bg) >= MIN_BRAND && Contrast(f, out.accent, out.bg) >= MIN_BRAND
    ensures Valid(out.primary) && Valid(out.accent) && Valid(out.bg) && Valid(out.text)
  {
    var m, h := MoodNamed(mood), Mod(hue, 360.0);
    var bg := HslToColor(h, m.bgS, m.bgL);
    var text := FitContrast(f, h, m.textS, m.textL, bg, MIN_TEXT);
    var primary := FitContrast(f, h, m.primaryS, m.primaryL, bg, MIN_BRAND);
    out := Colors(primary, WHITE, bg, text);
    var accent, i, j := SeparatedAccent(f, Accent(hue, harmony, mood, out), harmony);
    assert PickedAt(f, Accent(hue, harmony, mood, out), HueOffsets(harmony), accent, i, j);
    out := out.(accent := accent);
    FloorsHold(f, hue, harmony, mood, out);
    AllValid(f, hue, harmony, mood, out);
  }
}
