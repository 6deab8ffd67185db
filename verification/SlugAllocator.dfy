/** Store slugs: made from a name, and moved aside when the name is taken, first with the brand's
    own words, then with trade words, and at last with a number. */
module SlugAllocator {
  const MAX_LEN := 40

  const RESERVED: set<string> := {
    "api", "s", "health", "create-store", "files", "admin", "static", "docs", "openapi",
    "openapi.json", "redoc", "favicon.ico", "robots.txt", "well-known" }

  const TRADE_SUFFIXES: seq<string> :=
    ["co", "studio", "shop", "works", "supply", "goods", "house", "atelier", "press", "lab"]

  /** The code asserts the pattern on what it returns; a failing assertion is an outcome too. */
  datatype Result = Slug(value: string) | AssertionFailed(value: string)

  predicate IsLower(c: char) {
    'a' <= c <= 'z' || '0' <= c <= '9'
  }

  predicate IsUpper(c: char) {
    'A' <= c <= 'Z'
  }

  predicate IsWord(s: string) {
    s != [] && forall i :: 0 <= i < |s| ==> IsLower(s[i])
  }

  /** The route pattern: a letter or digit, then up to 39 letters, digits or hyphens. */
  predicate IsSlug(s: string) {
    1 <= |s| <= MAX_LEN && IsLower(s[0]) && forall i :: 0 <= i < |s| ==> IsLower(s[i]) || s[i] == '-'
  }

  // ------------------------------------------------------------ slugify

  function Lower(c: char): char {
    if IsUpper(c) then (c as int - 'A' as int + 'a' as int) as char else c
  }

  /** Every run of other characters becomes one hyphen. */
  function Collapse(s: string): string {
    if s == [] then []
    else
      var front, c := Collapse(s[..|s| - 1]), s[|s| - 1];
      if IsLower(c) || IsUpper(c) then front + [c]
      else if front != [] && front[|front| - 1] == '-' then front
      else front + ['-']
  }

  function RStrip(s: string): string {
    if s != [] && s[|s| - 1] == '-' then RStrip(s[..|s| - 1]) else s
  }

  function LStrip(s: string): string {
    if s != [] && s[0] == '-' then LStrip(s[1..]) else s
  }

  function LowerAll(s: string): string {
    seq(|s|, i requires 0 <= i < |s| => Lower(s[i]))
  }

  /** A slice from the start, with the end counted from the back when it is negative. */
  function Take(s: string, n: int): string {
    if n >= 0 then s[..if n < |s| then n else |s|]
    else if |s| + n > 0 then s[..|s| + n] else []
  }

  function Slugify(name: string): string {
    var s := LowerAll(RStrip(LStrip(Collapse(name))));
    Take(if s == [] then "store" else s, MAX_LEN)
  }

  /** What slugify produces: hyphens stand alone, and not at an end unless the name was cut there. */
  ghost predicate Neat(s: string) {
    && IsSlug(s)
    && (forall i :: 0 <= i < |s| - 1 ==> s[i] != '-' || s[i + 1] != '-')
    && (|s| < MAX_LEN ==> s[|s| - 1] != '-')
  }

  ghost predicate Alone(s: string) {
    && (forall i :: 0 <= i < |s| ==> IsLower(s[i]) || IsUpper(s[i]) || s[i] == '-')
    && (forall i :: 0 <= i < |s| - 1 ==> s[i] != '-' || s[i + 1] != '-')
  }

  lemma {:induction false} CollapseAlone(s: string)
    ensures Alone(Collapse(s))
    decreases |s|
  {
    if s != [] {
      CollapseAlone(s[..|s| - 1]);
    }
  }

  lemma {:induction false} LStripAlone(s: string)
    requires Alone(s)
    ensures Alone(LStrip(s)) && (LStrip(s) != [] ==> LStrip(s)[0] != '-')
    decreases |s|
  {
    if s != [] && s[0] == '-' {
      LStripAlone(s[1..]);
    }
  }

  lemma {:induction false} RStripIsPrefix(s: string)
    ensures RStrip(s) <= s && (RStrip(s) != [] ==> RStrip(s)[|RStrip(s)| - 1] != '-')
    ensures forall i :: |RStrip(s)| <= i < |s| ==> s[i] == '-'
    decreases |s|
  {
    if s != [] && s[|s| - 1] == '-' {
      RStripIsPrefix(s[..|s| - 1]);
    }
  }

  /** Every name has a slug, even an empty one or one without a single letter. */
  lemma {:induction false} SlugifyIsNeat(name: string)
    ensures Neat(Slugify(name))
  {
    CollapseAlone(name);
    LStripAlone(Collapse(name));
    var stripped := LStrip(Collapse(name));
    RStripIsPrefix(stripped);
    var s := RStrip(stripped);
    if s != [] {
      assert s[0] == stripped[0];
      assert forall i :: 0 <= i < |s| ==> s[i] == stripped[i];
    }
  }

  // ------------------------------------------------------------ numbers

  function Digit(n: nat): char
    requires n < 10
  {
    ('0' as int + n) as char
  }

  function Str(n: nat): string {
    if n < 10 then [Digit(n)] else Str(n / 10) + [Digit(n % 10)]
  }

  function Pow10(k: nat): nat {
    if k == 0 then 1 else 10 * Pow10(k - 1)
  }

  lemma {:induction false} StrFacts(n: nat, k: nat)
    ensures IsWord(Str(n)) && '0' <= Str(n)[|Str(n)| - 1] <= '9'
    ensures k > 0 && n < Pow10(k) ==> |Str(n)| <= k
    decreases n
  {
    if k > 0 {
      assert Pow10(k) == 10 * Pow10(k - 1);
    }
    if n >= 10 {
      assert Pow10(0) == 1;
      StrFacts(n / 10, if k > 0 then k - 1 else 0);
    }
  }

  lemma {:induction false} StrInjective(m: nat, n: nat)
    requires Str(m) == Str(n)
    ensures m == n
    decreases m
  {
    StrFacts(m / 10, 1);
    StrFacts(n / 10, 1);
    if m >= 10 && n >= 10 {
      assert Str(m)[..|Str(m)| - 1] == Str(m / 10) && Str(n)[..|Str(n)| - 1] == Str(n / 10);
      assert Str(m)[|Str(m)| - 1] == Digit(m % 10) && Str(n)[|Str(n)| - 1] == Digit(n % 10);
      StrInjective(m / 10, n / 10);
    }
  }

  // ------------------------------------------------------------ candidates

  function WithSuffix(slug: string, suffix: string): string {
    RStrip(Take(slug, MAX_LEN - |suffix| - 1)) + "-" + suffix
  }

  /** The word after the last hyphen can be read back. */
  lemma {:induction false} LastWord(a: string, v: string, b: string, w: string)
    requires a + "-" + v == b + "-" + w && IsWord(v) && IsWord(w)
    ensures a == b && v == w
  {
    var s := a + "-" + v;
    assert s[|a|] == '-' && s[|b|] == '-';
    assert forall i :: |a| < i < |s| ==> s[i] == v[i - |a| - 1];
    assert forall i :: |b| < i < |s| ==> s[i] == w[i - |b| - 1];
    assert a == s[..|a|] && b == s[..|b|];
    assert v == s[|a| + 1..] && w == s[|b| + 1..];
  }

  /** Distinct numbers give distinct candidates, however much of the slug had to be cut. */
  lemma {:induction false} NumbersDiffer(slug: string, m: nat, n: nat)
    requires m != n
    ensures WithSuffix(slug, Str(m)) != WithSuffix(slug, Str(n))
  {
    StrFacts(m, 1);
    StrFacts(n, 1);
    if WithSuffix(slug, Str(m)) == WithSuffix(slug, Str(n)) {
      LastWord(RStrip(Take(slug, MAX_LEN - |Str(m)| - 1)), Str(m), RStrip(Take(slug, MAX_LEN - |Str(n)| - 1)), Str(n));
      StrInjective(m, n);
    }
  }

  lemma {:induction false} ShortSuffixIsSlug(slug: string, suffix: string)
    requires IsSlug(slug) && IsWord(suffix) && |suffix| <= MAX_LEN - 2
    ensures IsSlug(WithSuffix(slug, suffix))
  {
    var head := Take(slug, MAX_LEN - |suffix| - 1);
    RStripIsPrefix(head);
    assert head[0] == slug[0];
    assert RStrip(head) != [];
  }

  // ------------------------------------------------------------ which candidate is chosen

  function Avoided(base: string): string {
    Take(if base in RESERVED then base + "-store" else base, MAX_LEN)
  }

  predicate Contains(s: string, w: string) {
    exists i :: 0 <= i <= |s| - |w| && OccursAt(s, w, i)
  }

  predicate OccursAt(s: string, w: string, i: nat) {
    i + |w| <= |s| && s[i..i + |w|] == w
  }

  /** The brand's words that do not already occur in the slug, then the trade words. */
  function Suffixes(slug: string, words: seq<string>): seq<string> {
    Unused(slug, words) + TRADE_SUFFIXES
  }

  function Unused(slug: string, words: seq<string>): seq<string> {
    if words == [] then []
    else
      var rest := Unused(slug, words[..|words| - 1]);
      if Contains(slug, words[|words| - 1]) then rest else rest + [words[|words| - 1]]
  }

  predicate Free(candidate: string, taken: set<string>) {
    IsSlug(candidate) && candidate !in taken
  }

  /** The first suffix whose candidate is a free slug. */
  ghost predicate IsFirstFree(slug: string, suffixes: seq<string>, taken: set<string>, k: nat) {
    k < |suffixes| && Free(WithSuffix(slug, suffixes[k]), taken) &&
    forall i :: 0 <= i < k ==> !Free(WithSuffix(slug, suffixes[i]), taken)
  }

  ghost predicate NoneFree(slug: string, suffixes: seq<string>, taken: set<string>) {
    forall i :: 0 <= i < |suffixes| ==> !Free(WithSuffix(slug, suffixes[i]), taken)
  }

  /** n is the first number from 2 on whose candidate is not taken. */
  ghost predicate IsFirstNumber(slug: string, taken: set<string>, n: nat) {
    n >= 2 && WithSuffix(slug, Str(n)) !in taken &&
    forall m :: 2 <= m < n ==> WithSuffix(slug, Str(m)) in taken
  }

  /** What is chosen, rule by rule. */
  ghost predicate Chosen(base: string, words: seq<string>, taken: set<string>, v: string) {
    var slug := Avoided(base);
    var suffixes := Suffixes(slug, words);
    if slug !in taken then v == slug
    else if NoneFree(slug, suffixes, taken)
    then exists n: nat :: IsFirstNumber(slug, taken, n) && v == WithSuffix(slug, Str(n))
    else exists k: nat :: IsFirstFree(slug, suffixes, taken, k) && v == WithSuffix(slug, suffixes[k])
  }

  function Numbered(slug: string, n: nat): set<string> {
    set m | 2 <= m < n :: WithSuffix(slug, Str(m))
  }

  lemma OneMore(a: set<string>, b: set<string>, x: string)
    requires x !in a && b == a + {x}
    ensures |b| == |a| + 1
  {
  }

  lemma {:induction false} NumberedGrows(slug: string, n: nat)
    requires n >= 2
    ensures WithSuffix(slug, Str(n)) !in Numbered(slug, n)
    ensures Numbered(slug, n + 1) == Numbered(slug, n) + {WithSuffix(slug, Str(n))}
  {
    forall m | 2 <= m < n
      ensures WithSuffix(slug, Str(m)) != WithSuffix(slug, Str(n))
    {
      NumbersDiffer(slug, m, n);
    }
  }

  lemma {:induction false} NumberedCount(slug: string, n: nat)
    requires n >= 2
    ensures |Numbered(slug, n)| == n - 2
    decreases n
  {
    if n > 2 {
      NumberedCount(slug, n - 1);
      NumberedGrows(slug, n - 1);
      OneMore(Numbered(slug, n - 1), Numbered(slug, n), WithSuffix(slug, Str(n - 1)));
    } else {
      assert Numbered(slug, n) == {};
    }
  }

  lemma SubsetSize(a: set<string>, b: set<string>)
    requires a <= b
    ensures |a| <= |b|
  {
    assert b == a + (b - a);
  }

  /** Always terminates, after at most one numeric try more than there are slugs taken. */
  method UniqueSlug(base: string, words: seq<string>, taken: set<string>) returns (r: Result, tries: nat)
    requires forall i :: 0 <= i < |words| ==> IsWord(words[i])
    ensures Chosen(base, words, taken, r.value) && r.value !in taken
    ensures r.Slug? <==> IsSlug(r.value)
    ensures tries <= |taken| + 1
    ensures Neat(base) && |taken| + 2 < Pow10(38) ==> r.Slug?
  {
    tries := 0;
    var slug := Avoided(base);
    if Neat(base) {
      AvoidedIsNeat(base);
    }
    if slug !in taken {
      return if IsSlug(slug) then Slug(slug) else AssertionFailed(slug), 0;
    }
    var suffixes := Suffixes(slug, words);
    for k := 0 to |suffixes|
      invariant forall i :: 0 <= i < k ==> !Free(WithSuffix(slug, suffixes[i]), taken)
    {
      var candidate := WithSuffix(slug, suffixes[k]);
      if IsSlug(candidate) && candidate !in taken {
        assert IsFirstFree(slug, suffixes, taken, k);
        return Slug(candidate), 0;
      }
    }
    var n := 2;
    while true
      invariant n >= 2 && tries == n - 2 <= |taken|
      invariant forall m :: 2 <= m < n ==> WithSuffix(slug, Str(m)) in taken
      decreases |taken| - tries
    {
      var candidate := WithSuffix(slug, Str(n));
      tries := tries + 1;
      if candidate !in taken {
        assert IsFirstNumber(slug, taken, n);
        StrFacts(n, 38);
        if Neat(base) && |taken| + 2 < Pow10(38) {
          ShortSuffixIsSlug(slug, Str(n));
        }
        return if IsSlug(candidate) then Slug(candidate) else AssertionFailed(candidate), tries;
      }
      n := n + 1;
      NumberedCount(slug, n);
      SubsetSize(Numbered(slug, n), taken);
    }
  }

  // ------------------------------------------------------------ reserved words

  /** The only reserved words a suffix can produce. */
  lemma ReservedWithHyphen(r: string, i: nat)
    requires r in RESERVED && i < |r| && r[i] == '-'
    ensures r == "create-store" || r == "well-known"
  {
  }

  lemma AvoidedIsNeat(base: string)
    requires Neat(base)
    ensures Neat(Avoided(base)) && Avoided(base) !in RESERVED
  {
    if base in RESERVED {
      var s := base + "-store";
      assert |base| <= 13 && base[|base| - 1] != '-';
      assert Take(s, MAX_LEN) == s;
      assert forall i :: 0 <= i < |s| ==> s[i] == if i < |base| then base[i] else "-store"[i - |base|];
      assert s[|base|] == '-' && s[|s| - 1] == 'e';
      if s in RESERVED {
        ReservedWithHyphen(s, |base|);
        assert false;
      }
    } else {
      assert Take(base, MAX_LEN) == base;
    }
  }

  /** Two slugs whose reserved extension is a word away. */
  predicate Companions(slug: string, suffix: string) {
    (slug == "create" && suffix == "store") || (slug == "well" && suffix == "known")
  }

  ghost predicate CompanionIsFirst(slug: string, suffixes: seq<string>, taken: set<string>) {
    exists k: nat :: IsFirstFree(slug, suffixes, taken, k) && Companions(slug, suffixes[k])
  }

  /** Cutting and stripping a neat slug gives a short word only if it was that word. */
  lemma {:induction false} HeadIsWhole(slug: string, n: nat, word: string)
    requires Neat(slug) && n <= MAX_LEN && |word| + 2 <= n && RStrip(Take(slug, n)) == word
    ensures slug == word
  {
    var head := Take(slug, n);
    RStripIsPrefix(head);
    assert forall i :: 0 <= i < |head| ==> head[i] == slug[i];
    if |head| > |word| + 1 {
      assert false;
    }
    assert head == slug;
  }

  lemma {:induction false} SuffixedReservedIff(slug: string, suffix: string)
    requires Neat(slug) && IsWord(suffix)
    ensures WithSuffix(slug, suffix) in RESERVED <==> Companions(slug, suffix)
  {
    var head := RStrip(Take(slug, MAX_LEN - |suffix| - 1));
    var v := WithSuffix(slug, suffix);
    if v in RESERVED {
      assert v[|head|] == '-';
      ReservedWithHyphen(v, |head|);
      if v == "create-store" {
        assert v == "create" + "-" + "store";
        LastWord(head, suffix, "create", "store");
        HeadIsWhole(slug, 34, "create");
      } else {
        assert v == "well" + "-" + "known";
        LastWord(head, suffix, "well", "known");
        HeadIsWhole(slug, 34, "well");
      }
    }
    if Companions(slug, suffix) {
      assert Take(slug, MAX_LEN - |suffix| - 1) == slug && RStrip(slug) == slug;
      assert v == if slug == "create" then "create-store" else "well-known";
    }
  }

  lemma {:induction false} UnusedWords(slug: string, words: seq<string>)
    requires forall i :: 0 <= i < |words| ==> IsWord(words[i])
    ensures forall i :: 0 <= i < |Suffixes(slug, words)| ==> IsWord(Suffixes(slug, words)[i])
  {
    OnlyWords(slug, words);
  }

  lemma {:induction false} OnlyWords(slug: string, words: seq<string>)
    requires forall i :: 0 <= i < |words| ==> IsWord(words[i])
    ensures forall i :: 0 <= i < |Unused(slug, words)| ==> IsWord(Unused(slug, words)[i])
    decreases |words|
  {
    if words != [] {
      OnlyWords(slug, words[..|words| - 1]);
    }
  }

  /** A slug is meant never to be an app route. It is one exactly when the name was "create" or
      "well", is taken, and the first suffix that is free is the word that completes the route. */
  lemma {:induction false} ReservedIff(base: string, words: seq<string>, taken: set<string>, v: string)
    requires Neat(base) && (forall i :: 0 <= i < |words| ==> IsWord(words[i])) && Chosen(base, words, taken, v)
    ensures v in RESERVED <==>
            Avoided(base) in taken && CompanionIsFirst(Avoided(base), Suffixes(Avoided(base), words), taken)
  {
    var slug := Avoided(base);
    var suffixes := Suffixes(slug, words);
    AvoidedIsNeat(base);
    UnusedWords(slug, words);
    if slug in taken {
      if NoneFree(slug, suffixes, taken) {
        var n: nat :| IsFirstNumber(slug, taken, n) && v == WithSuffix(slug, Str(n));
        StrFacts(n, 1);
        SuffixedReservedIff(slug, Str(n));
      } else {
        var k: nat :| IsFirstFree(slug, suffixes, taken, k) && v == WithSuffix(slug, suffixes[k]);
        SuffixedReservedIff(slug, suffixes[k]);
        forall j: nat | IsFirstFree(slug, suffixes, taken, j)
          ensures j == k
        {
        }
      }
    }
  }

  lemma StoreNotInCreate()
    ensures !Contains("create", "store")
  {
    assert "create"[0..5][0] != 's' && "create"[1..6][0] != 's';
  }

  lemma {:induction false} FirstSuffixOfCreate()
    ensures Suffixes("create", ["store"])[0] == "store"
  {
    StoreNotInCreate();
    assert ["store"][..0] == [] && Unused("create", []) == [];
    assert Unused("create", ["store"]) == ["store"];
  }

  lemma CreateIsNeat()
    ensures Neat("create") && Avoided("create") == "create" && IsWord("store")
  {
  }

  lemma {:induction false} StoreIsFirstFree(slug: string, suffixes: seq<string>)
    requires Neat(slug) && |slug| <= 34 && |suffixes| > 0 && IsWord("store") && suffixes[0] == "store"
    ensures IsFirstFree(slug, suffixes, {slug}, 0)
  {
    ShortSuffixIsSlug(slug, "store");
    assert Take(slug, 34) == slug && RStrip(slug) == slug;
    assert |WithSuffix(slug, "store")| == |slug| + 6;
  }

  /** The brand's own word is enough: a second "create" whose copy says "store" gets the route. */
  lemma {:induction false} ReservedIsReachable(v: string)
    requires Chosen("create", ["store"], {"create"}, v)
    ensures v in RESERVED
  {
    FirstSuffixOfCreate();
    CreateIsNeat();
    StoreIsFirstFree("create", Suffixes("create", ["store"]));
    ReservedIff("create", ["store"], {"create"}, v);
  }
}
