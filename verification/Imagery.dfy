/** Choosing a store's photographs under hard budgets. Searches, downloads, the look at each
    photograph and the disk are answered by a world that may say anything at any time. */
module Imagery {
  import opened Prelude

  const MAX_SEARCHES := 6
  const MAX_IMAGE_BYTES := 2 * 1024 * 1024
  const MAX_TOTAL_BYTES := 8 * 1024 * 1024
  const MAX_LIFESTYLE := 3
  const MAX_VERIFY_PER_SLOT := 3
  const MAX_GENERATE_ATTEMPTS := 3
  const SHORT_TERM := 4

  const STOPWORDS: set<string> := {
    "a", "an", "and", "the", "of", "for", "with", "without", "in", "on", "at", "to", "from", "by", "is", "are",
    "be", "this", "that", "these", "those", "it", "its", "our", "your", "my", "his", "her", "their", "new", "best",
    "top", "premium", "quality", "product", "products", "item", "items", "thing", "things", "set", "kit", "pack",
    "bundle", "style", "styles", "design", "designs", "made", "make", "custom", "original", "classic", "modern" }

  datatype Kind = Product | Hero | Lifestyle

  /** A candidate as the provider describes it, in lower case: its caption, and caption plus page
      address. An id that is not a number makes it no candidate. */
  datatype Photo = Photo(id: Option<nat>, alt: string, haystack: string)

  /** The body of a download: how it was declared, how it starts, and its length. */
  datatype Body = Body(declaredJpeg: bool, startsJpeg: bool, size: nat)

  datatype Source = Stock(id: nat) | Generated

  datatype Image = Image(source: Source, size: nat, hits: nat)

  /** Every answer depends on when it is asked. */
  datatype World = World(
    finds: (nat, string) -> seq<Photo>,
    downloads: (nat, Photo) -> Option<Body>,
    accepts: (nat, Body) -> bool,
    renders: nat -> Option<Body>,
    writes: nat -> bool,
    draws: nat -> real,
    generationOn: bool)

  datatype Ranked = Ranked(photo: Photo, hits: nat, primacy: int, draw: real)

  // ------------------------------------------------------------ relevance

  predicate IsWordChar(c: char) {
    'a' <= c <= 'z' || '0' <= c <= '9'
  }

  /** The maximal runs of letters and digits of a lower-cased text. */
  function Words(s: string): (ws: seq<string>)
    ensures s != [] && IsWordChar(s[|s| - 1]) ==> ws != []
  {
    if s == [] then []
    else
      var n, c := |s| - 1, s[|s| - 1];
      var front := Words(s[..n]);
      if !IsWordChar(c) then front
      else if n == 0 || !IsWordChar(s[n - 1]) then front + [[c]]
      else front[..|front| - 1] + [front[|front| - 1] + [c]]
  }

  /** Words that carry visual information. */
  function Terms(s: string): seq<string> {
    Informative(Words(s))
  }

  function Informative(ws: seq<string>): seq<string> {
    if ws == [] then []
    else
      var rest, w := Informative(ws[..|ws| - 1]), ws[|ws| - 1];
      if w in STOPWORDS || |w| <= 2 then rest else rest + [w]
  }

  /** Whether the term is found at i: anywhere if it is long, as a whole word if it is short. */
  predicate FoundAt(term: string, text: string, i: nat) {
    && i + |term| <= |text| && text[i..i + |term|] == term
    && (|term| < SHORT_TERM ==>
          (i == 0 || !IsWordOrUnderscore(text[i - 1])) && (i + |term| == |text| || !IsWordOrUnderscore(text[i + |term|])))
  }

  predicate IsWordOrUnderscore(c: char) {
    IsWordChar(c) || c == '_'
  }

  /** The first place from i on where the term is found. */
  function FirstFrom(term: string, text: string, i: nat): Option<nat>
    decreases |text| - i
  {
    if i > |text| then None
    else if FoundAt(term, text, i) then Some(i)
    else if i == |text| then None
    else FirstFrom(term, text, i + 1)
  }

  predicate Matches(term: string, text: string) {
    FirstFrom(term, text, 0).Some?
  }

  function Distinct(terms: seq<string>): seq<string> {
    if terms == [] then []
    else
      var rest := Distinct(terms[..|terms| - 1]);
      if terms[|terms| - 1] in rest then rest else rest + [terms[|terms| - 1]]
  }

  function Matching(terms: seq<string>, text: string): nat {
    if terms == [] then 0 else Matching(terms[..|terms| - 1], text) + if Matches(terms[|terms| - 1], text) then 1 else 0
  }

  function Score(photo: Photo, terms: seq<string>, requireHead: bool): nat {
    var distinct := Distinct(terms);
    if distinct == [] || (requireHead && !Matches(distinct[0], photo.haystack)) then 0 else Matching(distinct, photo.haystack)
  }

  function Earliest(text: string, terms: seq<string>): Option<nat> {
    if terms == [] then None
    else
      var rest, at := Earliest(text, terms[..|terms| - 1]), FirstFrom(terms[|terms| - 1], text, 0);
      if at.None? || (rest.Some? && rest.value <= at.value) then rest else at
  }

  /** The earliest mention of any of the terms in the caption, negated. */
  function Primacy(photo: Photo, terms: seq<string>): int {
    match Earliest(photo.alt, terms)
    case Some(at) => 0 - at
    case None => -9999
  }

  /** The photographs that clear the bar, each with its draw, in the order they were offered. */
  function Qualified(photos: seq<Photo>, terms: seq<string>, used: set<nat>, draws: nat -> real, clock: nat, requireHead: bool): seq<Ranked> {
    if photos == [] then []
    else
      var rest, p := Qualified(photos[..|photos| - 1], terms, used, draws, clock, requireHead), photos[|photos| - 1];
      var hits := Score(p, terms, requireHead);
      if p.id.None? || p.id.value in used || hits < 1 then rest
      else rest + [Ranked(p, hits, Primacy(p, terms), draws(clock + |rest|))]
  }

  predicate Precedes(a: Ranked, b: Ranked) {
    a.hits > b.hits || (a.hits == b.hits && (a.primacy > b.primacy || (a.primacy == b.primacy && a.draw <= b.draw)))
  }

  function Insert(r: Ranked, sorted: seq<Ranked>): seq<Ranked> {
    if sorted == [] then [r]
    else if Precedes(sorted[|sorted| - 1], r) then sorted + [r]
    else Insert(r, sorted[..|sorted| - 1]) + [sorted[|sorted| - 1]]
  }

  /** Best first; candidates that tie stay in the order they came. */
  function Sorted(rs: seq<Ranked>): seq<Ranked> {
    if rs == [] then [] else Insert(rs[|rs| - 1], Sorted(rs[..|rs| - 1]))
  }

  ghost predicate InOrder(rs: seq<Ranked>) {
    forall i, j :: 0 <= i < j < |rs| ==> Precedes(rs[i], rs[j])
  }

  lemma AppendInOrder(rs: seq<Ranked>, last: Ranked)
    requires InOrder(rs) && forall x :: x in rs ==> Precedes(x, last)
    ensures InOrder(rs + [last])
  {
  }

  lemma {:induction false} InsertFacts(r: Ranked, sorted: seq<Ranked>)
    requires InOrder(sorted)
    ensures InOrder(Insert(r, sorted)) && multiset(Insert(r, sorted)) == multiset(sorted) + multiset{r}
    decreases |sorted|
  {
    if sorted != [] {
      var front, last := sorted[..|sorted| - 1], sorted[|sorted| - 1];
      assert sorted == front + [last];
      if !Precedes(last, r) {
        InsertFacts(r, front);
        InsertedBefore(r, front, last);
        AppendInOrder(Insert(r, front), last);
      } else {
        assert forall x :: x in sorted ==> Precedes(x, r);
        AppendInOrder(sorted, r);
      }
    }
  }

  lemma {:induction false} InsertedBefore(r: Ranked, front: seq<Ranked>, last: Ranked)
    requires multiset(Insert(r, front)) == multiset(front) + multiset{r}
    requires Precedes(r, last) && forall x :: x in front ==> Precedes(x, last)
    ensures forall x :: x in Insert(r, front) ==> Precedes(x, last)
  {
    forall x | x in Insert(r, front)
      ensures Precedes(x, last)
    {
      assert x in multiset(Insert(r, front));
      assert x in front || x == r;
    }
  }

  lemma {:induction false} SortedFacts(rs: seq<Ranked>)
    ensures InOrder(Sorted(rs)) && multiset(Sorted(rs)) == multiset(rs)
    decreases |rs|
  {
    if rs != [] {
      SortedFacts(rs[..|rs| - 1]);
      InsertFacts(rs[|rs| - 1], Sorted(rs[..|rs| - 1]));
      assert rs == rs[..|rs| - 1] + [rs[|rs| - 1]];
    }
  }

  /** A candidate that may be kept: unused, described by the provider as showing the subject, and
      for a card or a hero as showing the head of it. */
  ghost predicate Relevant(photo: Photo, photos: seq<Photo>, terms: seq<string>, used: set<nat>, requireHead: bool) {
    && photo in photos && photo.id.Some? && photo.id.value !in used
    && (exists t :: t in terms && Matches(t, photo.haystack))
    && (requireHead ==> terms != [] && Matches(terms[0], photo.haystack))
  }

  lemma {:induction false} MatchingSome(terms: seq<string>, text: string)
    requires Matching(terms, text) > 0
    ensures exists t :: t in terms && Matches(t, text)
    decreases |terms|
  {
    if !Matches(terms[|terms| - 1], text) {
      MatchingSome(terms[..|terms| - 1], text);
      var t :| t in terms[..|terms| - 1] && Matches(t, text);
      assert t in terms;
    }
  }

  lemma {:induction false} DistinctFacts(terms: seq<string>)
    ensures forall t :: t in Distinct(terms) <==> t in terms
    ensures terms != [] ==> Distinct(terms) != [] && Distinct(terms)[0] == terms[0]
    decreases |terms|
  {
    if terms != [] {
      DistinctFacts(terms[..|terms| - 1]);
    }
  }

  lemma {:induction false} ScoreMeans(photo: Photo, terms: seq<string>, requireHead: bool)
    requires Score(photo, terms, requireHead) >= 1
    ensures exists t :: t in terms && Matches(t, photo.haystack)
    ensures requireHead ==> terms != [] && Matches(terms[0], photo.haystack)
  {
    DistinctFacts(terms);
    MatchingSome(Distinct(terms), photo.haystack);
  }

  lemma {:induction false} QualifiedFacts(photos: seq<Photo>, terms: seq<string>, used: set<nat>, draws: nat -> real, clock: nat, requireHead: bool)
    ensures forall r :: r in Qualified(photos, terms, used, draws, clock, requireHead) ==>
              Relevant(r.photo, photos, terms, used, requireHead) && r.hits >= 1 && r.hits == Score(r.photo, terms, requireHead)
    decreases |photos|
  {
    if photos != [] {
      var front, p := photos[..|photos| - 1], photos[|photos| - 1];
      QualifiedFacts(front, terms, used, draws, clock, requireHead);
      if Score(p, terms, requireHead) >= 1 {
        ScoreMeans(p, terms, requireHead);
      }
      forall r | r in Qualified(front, terms, used, draws, clock, requireHead)
        ensures Relevant(r.photo, photos, terms, used, requireHead)
      {
        assert r.photo in photos;
      }
    }
  }

  lemma {:induction false} RankFacts(photos: seq<Photo>, terms: seq<string>, used: set<nat>, draws: nat -> real, clock: nat, requireHead: bool)
    ensures var ranked := Sorted(Qualified(photos, terms, used, draws, clock, requireHead));
            && InOrder(ranked)
            && forall k :: 0 <= k < |ranked| ==> Relevant(ranked[k].photo, photos, terms, used, requireHead) && ranked[k].hits >= 1
  {
    var qualified := Qualified(photos, terms, used, draws, clock, requireHead);
    QualifiedFacts(photos, terms, used, draws, clock, requireHead);
    SortedFacts(qualified);
    forall k | 0 <= k < |Sorted(qualified)|
      ensures Sorted(qualified)[k] in qualified
    {
      assert Sorted(qualified)[k] in multiset(Sorted(qualified));
    }
  }
}
