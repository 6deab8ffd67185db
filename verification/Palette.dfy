/** A palette derived from one hue. Colours are computed over the reals; the irrational functions
    are any functions that satisfy their defining equations. */
module Palette {
  import opened Prelude

  const MIN_TEXT := 7.0
  const MIN_BRAND := 3.0
  const MIN_SEPARATION := 22.0

  datatype Color = Color(r: int, g: int, b: int)

  const BLACK := Color(0, 0, 0)
  const WHITE := Color(255, 255, 255)

  /** x to the power 2.4, the cube root and the square root. */
  datatype Maths = Maths(pow24: real -> real, cbrt: real -> real, sqrt: real -> real)

  function Pow(x: real, n: nat): real {
    if n == 0 then 1.0 else x * Pow(x, n - 1)
  }

  /** Roots of numbers that have them, and no root negative. */
  ghost predicate Exact(f: Maths) {
    && (forall x {:trigger f.pow24(x)} :: x >= 0.0 ==> f.pow24(x) >= 0.0 && Pow(f.pow24(x), 5) == Pow(x, 12))
    && (forall x {:trigger f.cbrt(x)} :: x >= 0.0 ==> f.cbrt(x) >= 0.0 && Pow(f.cbrt(x), 3) == x)
    && (forall x {:trigger f.sqrt(x)} :: f.sqrt(x) >= 0.0 && (x >= 0.0 ==> Pow(f.sqrt(x), 2) == x))
  }

  datatype Mood = Mood(
    bgL: real, bgS: real, textL: real, textS: real,
    primaryS: real, primaryL: real, accentS: real, accentL: real)

  datatype Colors = Colors(primary: Color, accent: Color, bg: Color, text: Color)

  function HarmonyOffset(name: string): real {
    if name == "mono" then 0.0
    else if name == "complementary" then 180.0
    else if name == "triadic" then 120.0
    else 32.0
  }

  /** An unknown mood is the default one. */
  function MoodNamed(name: string): Mood {
    if name == "ink" then Mood(0.10, 0.05, 0.93, 0.02, 0.45, 0.66, 0.50, 0.58)
    else if name == "paper" then Mood(0.975, 0.06, 0.11, 0.20, 0.70, 0.40, 0.72, 0.34)
    else if name == "bone" then Mood(0.945, 0.18, 0.16, 0.28, 0.48, 0.36, 0.52, 0.30)
    else Mood(0.055, 0.14, 0.96, 0.05, 0.72, 0.62, 0.78, 0.52)
  }

  // ------------------------------------------------------------ hue, saturation, lightness

  function Abs(x: real): real {
    if x < 0.0 then -x else x
  }

  function Clamp(x: real): real {
    if x < 0.0 then 0.0 else if x > 1.0 then 1.0 else x
  }

  /** The remainder with the sign of the divisor. */
  function Mod(x: real, m: real): real
    requires m > 0.0
  {
    x - m * (x / m).Floor as real
  }

  /** To the nearest integer; halves go to the even one. */
  function Round(x: real): int {
    var f := x.Floor;
    if x - f as real < 0.5 || (x - f as real == 0.5 && f % 2 == 0) then f else f + 1
  }

  function Chroma(sat: real, light: real): real {
    (1.0 - Abs(2.0 * light - 1.0)) * sat
  }

  function Channel(v: real, m: real): int {
    Round((v + m) * 255.0)
  }

  /** Which channel gets what, by sixth of the colour circle. */
  function Hexant(h: real, full: int, part: int, none: int): Color {
    if h < 60.0 then Color(full, part, none)
    else if h < 120.0 then Color(part, full, none)
    else if h < 180.0 then Color(none, full, part)
    else if h < 240.0 then Color(none, part, full)
    else if h < 300.0 then Color(part, none, full)
    else Color(full, none, part)
  }

  /** The middle channel of a hue, from nothing to all of the chroma. */
  function Part(h: real, c: real): real {
    c * (1.0 - Abs(Mod(h / 60.0, 2.0) - 1.0))
  }

  function Shade(h: real, c: real, m: real): Color {
    Hexant(h, Channel(c, m), Channel(Part(h, c), m), Channel(0.0, m))
  }

  function HslToColor(hue: real, sat: real, light: real): Color {
    var c := Chroma(Clamp(sat), Clamp(light));
    Shade(Mod(hue, 360.0), c, Clamp(light) - c / 2.0)
  }

  ghost predicate Valid(c: Color) {
    0 <= c.r <= 255 && 0 <= c.g <= 255 && 0 <= c.b <= 255
  }

  ghost predicate Within(c: Color, lo: int, hi: int) {
    lo <= c.r <= hi && lo <= c.g <= hi && lo <= c.b <= hi
  }

  // ------------------------------------------------------------ luminance and contrast

  function Linear(f: Maths, v: int): real {
    var c := v as real / 255.0;
    if c <= 0.03928 then c / 12.92 else f.pow24((c + 0.055) / 1.055)
  }

  function Luminance(f: Maths, c: Color): real {
    0.2126 * Linear(f, c.r) + 0.7152 * Linear(f, c.g) + 0.0722 * Linear(f, c.b)
  }

  function Ratio(la: real, lb: real): real {
    var lighter, darker := if la < lb then lb else la, if la < lb then la else lb;
    if darker + 0.05 == 0.0 then 0.0 else (lighter + 0.05) / (darker + 0.05)
  }

  function Contrast(f: Maths, a: Color, b: Color): real {
    Ratio(Luminance(f, a), Luminance(f, b))
  }

  // ------------------------------------------------------------ colour difference

  function LabLinear(f: Maths, v: int): real {
    var c := v as real / 255.0;
    if c <= 0.04045 then c / 12.92 else f.pow24((c + 0.055) / 1.055)
  }

  function LabCurve(f: Maths, t: real): real {
    if t > 0.008856 then f.cbrt(t) else 7.787 * t + 16.0 / 116.0
  }

  function ToLab(f: Maths, c: Color): (real, real, real) {
    var r, g, b := LabLinear(f, c.r), LabLinear(f, c.g), LabLinear(f, c.b);
    var x := LabCurve(f, (r * 0.4124 + g * 0.3576 + b * 0.1805) / 0.95047);
    var y := LabCurve(f, r * 0.2126 + g * 0.7152 + b * 0.0722);
    var z := LabCurve(f, (r * 0.0193 + g * 0.1192 + b * 0.9505) / 1.08883);
    (116.0 * y - 16.0, 500.0 * (x - y), 200.0 * (y - z))
  }

  function Square(x: real): real {
    x * x
  }

  function DeltaE(f: Maths, a: Color, b: Color): real {
    var p, q := ToLab(f, a), ToLab(f, b);
    f.sqrt(Square(p.0 - q.0) + Square(p.1 - q.1) + Square(p.2 - q.2))
  }

  // ------------------------------------------------------------ fitting a contrast

  /** The end of the range the walk heads for. */
  function Fallback(f: Maths, against: Color): Color {
    if Luminance(f, against) > 0.5 then BLACK else WHITE
  }

  function WalkStep(f: Maths, against: Color): real {
    if Luminance(f, against) > 0.5 then -0.02 else 0.02
  }

  predicate Clears(f: Maths, c: Color, against: Color, floor: real) {
    Contrast(f, c, against) >= floor
  }

  const PROBES: nat := 50

  /** The first shade accepted within the next n steps, as long as lightness stays in range. */
  function Walk(shade: real -> Color, accepts: Color -> bool, probe: real, step: real, n: nat): Option<Color>
    decreases n, probe
  {
    if n == 0 || !(0.0 <= probe + step <= 1.0) then None
    else if accepts(shade(probe + step)) then Some(shade(probe + step))
    else Walk(shade, accepts, probe + step, step, n - 1)
  }

  /** The walk itself, for whatever makes and accepts the shades. */
  method WalkLightness(shade: real -> Color, accepts: Color -> bool, light: real, step: real, n: nat) returns (found: Option<Color>)
    ensures found == Walk(shade, accepts, light, step, n)
    ensures found.Some? ==> accepts(found.value)
  {
    var probe := light;
    for i := 0 to n
      invariant Walk(shade, accepts, light, step, n) == Walk(shade, accepts, probe, step, n - i)
    {
      probe := probe + step;
      if !(0.0 <= probe <= 1.0) {
        return None;
      }
      var candidate := shade(probe);
      if accepts(candidate) {
        return Some(candidate);
      }
    }
    return None;
  }

  function Fit(f: Maths, hue: real, sat: real, light: real, against: Color, floor: real): Color {
    var shade := (l: real) => HslToColor(hue, sat, l);
    var accepts := (c: Color) => Clears(f, c, against, floor);
    if accepts(shade(light)) then shade(light)
    else Walk(shade, accepts, light, WalkStep(f, against), PROBES).GetOr(Fallback(f, against))
  }

  method FitContrast(f: Maths, hue: real, sat: real, light: real, against: Color, floor: real) returns (c: Color)
    ensures c == Fit(f, hue, sat, light, against, floor)
    ensures Clears(f, c, against, floor) || c == Fallback(f, against)
  {
    var shade := (l: real) => HslToColor(hue, sat, l);
    var accepts := (c: Color) => Clears(f, c, against, floor);
    if accepts(shade(light)) {
      return shade(light);
    }
    var found := WalkLightness(shade, accepts, light, WalkStep(f, against), PROBES);
    return found.GetOr(Fallback(f, against));
  }

  // ------------------------------------------------------------ the accent

  const STEPS: seq<real> := [0.0, 0.10, -0.10, 0.18, -0.18, 0.26, -0.26, 0.34, -0.34, 0.42, -0.42]

  function HueOffsets(harmony: string): seq<real> {
    if harmony == "mono" then [0.0, 16.0, -16.0, 30.0, -30.0] else [0.0]
  }

  datatype AccentSpec = AccentSpec(hue: real, sat: real, light: real, bg: Color, primary: Color, text: Color)

  /** The accent for one hue offset and one lightness step. */
  function Candidate(f: Maths, a: AccentSpec, offset: real, step: real): Color {
    Fit(f, a.hue + offset, a.sat, a.light + step, a.bg, MIN_BRAND)
  }

  /** How far a colour is from the nearer of primary and text. */
  function Separation(f: Maths, a: AccentSpec, c: Color): real {
    var p, t := DeltaE(f, c, a.primary), DeltaE(f, c, a.text);
    if p < t then p else t
  }

  /** The order in which the nested loops try: hue offsets outside, lightness steps inside. */
  predicate Before(h: nat, s: nat, h2: nat, s2: nat) {
    h < h2 || (h == h2 && s < s2)
  }

  /** Every candidate tried before (h2, s2) is too close, and none is further than the best. */
  ghost predicate NoneBetter(score: (real, real) -> real, offsets: seq<real>, steps: seq<real>, best: real, h2: nat, s2: nat) {
    forall h: nat, s: nat :: h < |offsets| && s < |steps| && Before(h, s, h2, s2) ==>
      score(offsets[h], steps[s]) <= best && score(offsets[h], steps[s]) < MIN_SEPARATION
  }

  ghost predicate AllWorse(score: (real, real) -> real, offsets: seq<real>, steps: seq<real>, best: real, h2: nat, s2: nat) {
    forall h: nat, s: nat :: h < |offsets| && s < |steps| && Before(h, s, h2, s2) ==> score(offsets[h], steps[s]) < best
  }

  /** The first candidate that is separated enough, or else the first of the most separated ones. */
  ghost predicate Picked(score: (real, real) -> real, offsets: seq<real>, steps: seq<real>, h: nat, s: nat) {
    && h < |offsets| && s < |steps|
    && var best := score(offsets[h], steps[s]);
       AllWorse(score, offsets, steps, best, h, s) &&
       if best >= MIN_SEPARATION then NoneBetter(score, offsets, steps, best, h, s)
       else NoneBetter(score, offsets, steps, best, |offsets|, 0)
  }

  /** Candidate (h, s) leads after every candidate before (i, j) was tried. */
  ghost predicate Leads(score: (real, real) -> real, offsets: seq<real>, steps: seq<real>, h: nat, s: nat, i: nat, j: nat) {
    && h < |offsets| && s < |steps|
    && NoneBetter(score, offsets, steps, score(offsets[h], steps[s]), i, j)
    && AllWorse(score, offsets, steps, score(offsets[h], steps[s]), h, s)
  }

  lemma Overtakes(score: (real, real) -> real, offsets: seq<real>, steps: seq<real>, h: nat, s: nat, i: nat, j: nat)
    requires i < |offsets| && j < |steps| && score(offsets[i], steps[j]) < MIN_SEPARATION
    requires (i == 0 && j == 0) || (Leads(score, offsets, steps, h, s, i, j) && score(offsets[i], steps[j]) > score(offsets[h], steps[s]))
    ensures Leads(score, offsets, steps, i, j, i, j + 1)
  {
  }

  lemma StaysAhead(score: (real, real) -> real, offsets: seq<real>, steps: seq<real>, h: nat, s: nat, i: nat, j: nat)
    requires Leads(score, offsets, steps, h, s, i, j) && i < |offsets| && j < |steps|
    requires score(offsets[i], steps[j]) <= score(offsets[h], steps[s]) && score(offsets[i], steps[j]) < MIN_SEPARATION
    ensures Leads(score, offsets, steps, h, s, i, j + 1)
  {
  }

  lemma NextOffset(score: (real, real) -> real, offsets: seq<real>, steps: seq<real>, h: nat, s: nat, i: nat)
    requires Leads(score, offsets, steps, h, s, i, |steps|)
    ensures Leads(score, offsets, steps, h, s, i + 1, 0)
  {
  }

  lemma FirstSeparated(score: (real, real) -> real, offsets: seq<real>, steps: seq<real>, h: nat, s: nat, i: nat, j: nat)
    requires i < |offsets| && j < |steps| && score(offsets[i], steps[j]) >= MIN_SEPARATION
    requires (i == 0 && j == 0) || Leads(score, offsets, steps, h, s, i, j)
    ensures Picked(score, offsets, steps, i, j)
  {
  }

  /** The nested loops, for whatever makes the candidates and scores them. */
  method Search(shade: (real, real) -> Color, score: (real, real) -> real, offsets: seq<real>, steps: seq<real>)
    returns (c: Color, h: nat, s: nat)
    requires offsets != [] && steps != []
    requires forall x, y :: score(x, y) >= 0.0
    ensures Picked(score, offsets, steps, h, s) && c == shade(offsets[h], steps[s])
  {
    var best, bestScore := shade(offsets[0], steps[0]), -1.0;
    h, s := 0, 0;
    for i := 0 to |offsets|
      invariant forall x, y :: score(x, y) >= 0.0
      invariant h < |offsets| && s < |steps| && best == shade(offsets[h], steps[s])
      invariant if i == 0 then bestScore == -1.0
                else bestScore == score(offsets[h], steps[s]) && Leads(score, offsets, steps, h, s, i, 0)
    {
      for j := 0 to |steps|
        invariant forall x, y :: score(x, y) >= 0.0
        invariant h < |offsets| && s < |steps| && best == shade(offsets[h], steps[s])
        invariant if i == 0 && j == 0 then bestScore == -1.0
                  else bestScore == score(offsets[h], steps[s]) && Leads(score, offsets, steps, h, s, i, j)
      {
        var candidate, found := shade(offsets[i], steps[j]), score(offsets[i], steps[j]);
        if found >= MIN_SEPARATION {
          FirstSeparated(score, offsets, steps, h, s, i, j);
          return candidate, i, j;
        }
        if found > bestScore {
          Overtakes(score, offsets, steps, h, s, i, j);
          best, bestScore, h, s := candidate, found, i, j;
        } else {
          StaysAhead(score, offsets, steps, h, s, i, j);
        }
      }
      NextOffset(score, offsets, steps, h, s, i);
    }
    return best, h, s;
  }

  lemma SeparationNonNegative(f: Maths, a: AccentSpec, c: Color)
    requires Exact(f)
    ensures Separation(f, a, c) >= 0.0
  {
  }

  method SeparatedAccent(f: Maths, a: AccentSpec, harmony: string) returns (c: Color, h: nat, s: nat)
    requires Exact(f)
    ensures Picked((x, y) => Separation(f, a, Candidate(f, a, x, y)), HueOffsets(harmony), STEPS, h, s)
    ensures c == Candidate(f, a, HueOffsets(harmony)[h], STEPS[s])
  {
    var score := (x, y) => Separation(f, a, Candidate(f, a, x, y));
    forall x, y
      ensures score(x, y) >= 0.0
    {
      SeparationNonNegative(f, a, Candidate(f, a, x, y));
    }
    c, h, s := Search((x, y) => Candidate(f, a, x, y), score, HueOffsets(harmony), STEPS);
  }
}
