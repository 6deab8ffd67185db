/** One store's imagery run: budgets, cache and used ids are updated in place as slots are filled. */
module ImageryService {
  import opened Prelude
  import opened Imagery

  /** What the page needs a picture for, in the words it was asked for. */
  datatype Brief = Brief(query: string, subject: string)

  /** A product entry that is not an object takes no part. */
  datatype Content = Content(products: seq<Option<Brief>>, hero: Brief, artPrompt: string, lifestyle: seq<string>)

  datatype StoreImagery = StoreImagery(hero: Option<Image>, products: seq<Option<Image>>, lifestyle: seq<Image>)

  function TermsOf(brief: Brief): seq<string> {
    if Terms(brief.subject) != [] then Terms(brief.subject) else Terms(brief.query)
  }

  function Bytes(images: seq<Image>): nat {
    if images == [] then 0 else Bytes(images[..|images| - 1]) + images[|images| - 1].size
  }

  function StockIds(images: seq<Image>): seq<nat> {
    if images == [] then []
    else
      var rest, last := StockIds(images[..|images| - 1]), images[|images| - 1];
      match last.source
      case Stock(id) => rest + [id]
      case Generated => rest
  }

  ghost predicate AllDistinct(ids: seq<nat>) {
    forall i, j :: 0 <= i < j < |ids| ==> ids[i] != ids[j]
  }

  ghost predicate Balanced(kept: seq<Image>, bytesLeft: int, used: set<nat>) {
    && bytesLeft == MAX_TOTAL_BYTES - Bytes(kept) && bytesLeft > -MAX_IMAGE_BYTES
    && AllDistinct(StockIds(kept)) && (forall id :: id in StockIds(kept) <==> id in used)
  }

  lemma {:induction false} KeepOne(kept: seq<Image>, image: Image)
    ensures Bytes(kept + [image]) == Bytes(kept) + image.size
    ensures StockIds(kept + [image]) == if image.source.Stock? then StockIds(kept) + [image.source.id] else StockIds(kept)
  {
    assert (kept + [image])[..|kept|] == kept;
  }

  /** The photograph id an image takes, if it is a photograph. */
  function Claimed(image: Image): set<nat> {
    match image.source
    case Stock(id) => {id}
    case Generated => {}
  }

  lemma {:induction false} StillBalanced(kept: seq<Image>, bytesLeft: int, used: set<nat>, image: Image)
    requires Balanced(kept, bytesLeft, used) && image.size <= MAX_IMAGE_BYTES
    requires if image.source.Stock? then image.source.id !in used && image.size <= bytesLeft else bytesLeft > 0
    ensures Balanced(kept + [image], bytesLeft - image.size, used + Claimed(image))
  {
    KeepOne(kept, image);
  }

  /** The images of a set, in the order the run fills them. */
  function Present(slots: seq<Option<Image>>): seq<Image> {
    if slots == [] then []
    else Present(slots[..|slots| - 1]) + if slots[|slots| - 1].Some? then [slots[|slots| - 1].value] else []
  }

  function AllImages(g: StoreImagery): seq<Image> {
    Present(g.products) + Present([g.hero]) + g.lifestyle
  }

  lemma {:induction false} PresentSnoc(slots: seq<Option<Image>>, slot: Option<Image>)
    ensures Present(slots + [slot]) == Present(slots) + if slot.Some? then [slot.value] else []
  {
    assert (slots + [slot])[..|slots|] == slots;
  }

  ghost predicate OffersAt(w: World, query: string, photos: seq<Photo>, t: nat) {
    w.finds(t, query) == photos
  }

  /** Everything in the cache is what the provider once answered to that query. */
  ghost predicate Answered(w: World, cache: map<string, seq<Photo>>) {
    forall query :: query in cache ==> exists t: nat :: OffersAt(w, query, cache[query], t)
  }

  ghost predicate ShowsHeadAt(w: World, brief: Brief, image: Image, photo: Photo, t: nat) {
    && image.source.Stock? && photo.id == Some(image.source.id) && photo in w.finds(t, brief.query)
    && TermsOf(brief) != [] && Matches(TermsOf(brief)[0], photo.haystack)
  }

  /** The image is a photograph the provider offered for this query, in whose description the head
      term of the subject occurs. */
  ghost predicate ShowsHead(w: World, brief: Brief, image: Image) {
    exists photo: Photo, t: nat :: ShowsHeadAt(w, brief, image, photo, t)
  }

  lemma {:induction false} Offered(w: World, brief: Brief, cache: map<string, seq<Photo>>, photo: Photo, image: Image)
    requires Answered(w, cache) && brief.query in cache && photo in cache[brief.query]
    requires image.source.Stock? && photo.id == Some(image.source.id)
    ensures TermsOf(brief) != [] && Matches(TermsOf(brief)[0], photo.haystack) ==> ShowsHead(w, brief, image)
  {
    var t: nat :| OffersAt(w, brief.query, cache[brief.query], t);
    assert TermsOf(brief) != [] && Matches(TermsOf(brief)[0], photo.haystack) ==> ShowsHeadAt(w, brief, image, photo, t);
  }

  class Studio {
    const w: World
    var searchesLeft: int
    var bytesLeft: int
    var cache: map<string, seq<Photo>>
    var used: set<nat>
    var clock: nat
    var searches: nat
    /** Every image written to disk so far, in order. */
    ghost var kept: seq<Image>

    constructor (world: World)
      ensures Valid() && w == world && kept == [] && searches == 0 && used == {} && bytesLeft == MAX_TOTAL_BYTES
    {
      w := world;
      searchesLeft := MAX_SEARCHES;
      bytesLeft := MAX_TOTAL_BYTES;
      cache := map[];
      used := {};
      clock := 0;
      searches := 0;
      kept := [];
    }

    /** The budgets account for what was done, and no stock photograph is in two places. */
    ghost predicate Valid()
      reads this
    {
      && searchesLeft >= 0 && searches + searchesLeft == MAX_SEARCHES
      && Balanced(kept, bytesLeft, used) && Answered(w, cache)
    }

    /** A query is asked once; when the budget is spent, no more are asked. */
    method Search(query: string) returns (photos: seq<Photo>)
      requires Valid()
      modifies this`searchesLeft, this`searches, this`cache, this`clock
      ensures Valid() && searches <= old(searches) + 1
      ensures query == "" ==> photos == []
      ensures query in old(cache) ==> searches == old(searches) && (query != "" ==> photos == old(cache)[query])
      ensures photos != [] ==> query in cache && photos == cache[query]
    {
      if query == "" {
        return [];
      }
      if query in cache {
        return cache[query];
      }
      if searchesLeft <= 0 {
        return [];
      }
      searchesLeft := searchesLeft - 1;
      searches := searches + 1;
      photos := w.finds(clock, query);
      assert OffersAt(w, query, photos, clock);
      clock := clock + 1;
      cache := cache[query := photos];
    }

    /** Downloads within what is left of the budget; anything that is not a JPEG is refused. */
    method FetchBytes(photo: Photo) returns (body: Option<Body>)
      requires Valid()
      modifies this`clock
      ensures Valid() && (body.Some? ==> body.value.size <= bytesLeft && body.value.size <= MAX_IMAGE_BYTES)
      ensures body.Some? ==> body.value.declaredJpeg && body.value.startsJpeg
      ensures bytesLeft <= 0 ==> body.None?
    {
      if bytesLeft <= 0 {
        return None;
      }
      var cap := if bytesLeft < MAX_IMAGE_BYTES then bytesLeft else MAX_IMAGE_BYTES;
      body := w.downloads(clock, photo);
      clock := clock + 1;
      if body.Some? && (!body.value.declaredJpeg || body.value.size > cap || !body.value.startsJpeg) {
        return None;
      }
    }

    method Looks(body: Body) returns (ok: bool)
      requires Valid()
      modifies this`clock
      ensures Valid()
    {
      ok := w.accepts(clock, body);
      clock := clock + 1;
    }

    /** Writes the picture and pays for it. */
    method Store(image: Image) returns (stored: bool)
      requires Valid() && image.size <= MAX_IMAGE_BYTES
      requires image.source.Stock? ==> image.source.id !in used && image.size <= bytesLeft
      requires image.source.Generated? ==> bytesLeft > 0
      modifies this`clock, this`bytesLeft, this`used, this`kept
      ensures Valid()
      ensures if stored then kept == old(kept) + [image] && bytesLeft == old(bytesLeft) - image.size
              else kept == old(kept) && bytesLeft == old(bytesLeft)
      ensures used == if stored then old(used) + Claimed(image) else old(used)
    {
      stored := w.writes(clock);
      clock := clock + 1;
      if stored {
        StillBalanced(kept, bytesLeft, used, image);
        kept := kept + [image];
        bytesLeft := bytesLeft - image.size;
        used := used + Claimed(image);
      }
    }

    /** Up to three seeds; the first picture that survives being looked at. */
    method Generate() returns (image: Option<Image>)
      requires Valid() && bytesLeft > 0
      modifies this`clock, this`bytesLeft, this`used, this`kept
      ensures Valid() && used == old(used)
      ensures match image
              case Some(i) => i.source.Generated? && kept == old(kept) + [i]
              case None => kept == old(kept)
    {
      for attempt := 0 to MAX_GENERATE_ATTEMPTS
        invariant Valid() && kept == old(kept) && used == old(used) && bytesLeft == old(bytesLeft)
      {
        var body := w.renders(clock);
        clock := clock + 1;
        if body.Some? && body.value.startsJpeg && body.value.size <= MAX_IMAGE_BYTES {
          var ok := Looks(body.value);
          if ok {
            var candidate := Image(Generated, body.value.size, 0);
            var stored := Store(candidate);
            if stored {
              return Some(candidate);
            }
          }
        }
      }
      return None;
    }

    /** Walks the ranking from the top and keeps the first candidate that survives. */
    method TryRanked(ranked: seq<Ranked>) returns (image: Option<Image>, k: nat)
      requires Valid()
      requires forall i :: 0 <= i < |ranked| ==> ranked[i].photo.id.Some? && ranked[i].photo.id.value !in used
      modifies this`clock, this`bytesLeft, this`used, this`kept
      ensures Valid()
      ensures match image
              case None => kept == old(kept) && used == old(used) && bytesLeft == old(bytesLeft)
              case Some(i) =>
                && k < |ranked| && k < MAX_VERIFY_PER_SLOT && i.hits == ranked[k].hits
                && i.source == Stock(ranked[k].photo.id.value) && kept == old(kept) + [i]
                && used == old(used) + {i.source.id}
    {
      k := 0;
      while k < |ranked| && k < MAX_VERIFY_PER_SLOT
        invariant Valid() && kept == old(kept) && used == old(used) && bytesLeft == old(bytesLeft)
      {
        var body := FetchBytes(ranked[k].photo);
        if body.Some? {
          var ok := Looks(body.value);
          if ok {
            var candidate := Image(Stock(ranked[k].photo.id.value), body.value.size, ranked[k].hits);
            var stored := Store(candidate);
            if stored {
              return Some(candidate), k;
            }
          }
        }
        k := k + 1;
      }
      return None, k;
    }

    /** Fills one slot: stock first, and for the hero alone, art when stock has nothing. */
    method Slot(brief: Brief, kind: Kind) returns (image: Option<Image>, ghost photo: Photo)
      requires Valid()
      modifies this
      ensures Valid()
      ensures match image
              case None => kept == old(kept) && used == old(used)
              case Some(i) =>
                && kept == old(kept) + [i]
                && if i.source.Generated? then kind == Hero && w.generationOn && used == old(used)
                   else photo.id == Some(i.source.id) && brief.query in cache && i.source.id !in old(used) && i.hits >= 1
                        && Relevant(photo, cache[brief.query], TermsOf(brief), old(used), kind != Lifestyle)
                        && (kind != Lifestyle ==> ShowsHead(w, brief, i))
    {
      photo := Photo(None, "", "");
      image := None;
      var terms := TermsOf(brief);
      if terms == [] {
        return;
      }
      var photos := Search(brief.query);
      var requireHead := kind != Lifestyle;
      var qualified := Qualified(photos, terms, used, w.draws, clock, requireHead);
      var ranked := Sorted(qualified);
      RankFacts(photos, terms, used, w.draws, clock, requireHead);
      clock := clock + |qualified|;
      var k;
      image, k := TryRanked(ranked);
      if image.Some? {
        photo := ranked[k].photo;
        Offered(w, brief, cache, photo, image.value);
        return;
      }
      if kind == Hero && w.generationOn && bytesLeft > 0 {
        image := Generate();
      }
    }

    /** Atmosphere for a store whose goods cannot be photographed; never sent to the provider. */
    method GeneratedHero(prompt: string) returns (image: Option<Image>)
      requires Valid()
      modifies this`clock, this`bytesLeft, this`used, this`kept
      ensures Valid() && used == old(used) && searches == old(searches)
      ensures match image
              case Some(i) => i.source.Generated? && kept == old(kept) + [i] && w.generationOn && prompt != ""
              case None => kept == old(kept)
    {
      if prompt == "" || !w.generationOn || bytesLeft <= 0 {
        return None;
      }
      image := Generate();
    }

    /** One place per product, in order; a product that is not an object gets none. */
    method Cards(products: seq<Option<Brief>>) returns (images: seq<Option<Image>>)
      requires Valid() && kept == []
      modifies this
      ensures Valid() && kept == Present(images) && |images| == |products|
      ensures forall k :: 0 <= k < |images| && images[k].Some? ==> products[k].Some? && ShowsHead(w, products[k].value, images[k].value)
    {
      images := [];
      for i := 0 to |products|
        invariant Valid() && kept == Present(images) && |images| == i
        invariant forall k :: 0 <= k < i && images[k].Some? ==> products[k].Some? && ShowsHead(w, products[k].value, images[k].value)
      {
        var image: Option<Image> := None;
        if products[i].Some? {
          ghost var photo;
          image, photo := Slot(products[i].value, Product);
        }
        PresentSnoc(images, image);
        images := images + [image];
      }
    }

    method Band(queries: seq<string>) returns (images: seq<Image>)
      requires Valid()
      modifies this
      ensures Valid() && kept == old(kept) + images && |images| <= MAX_LIFESTYLE
      ensures forall k :: 0 <= k < |images| ==> images[k].source.Stock?
    {
      images := [];
      var i := 0;
      while i < |queries| && i < MAX_LIFESTYLE
        invariant Valid() && 0 <= i <= MAX_LIFESTYLE && |images| <= i && kept == old(kept) + images
        invariant forall k :: 0 <= k < |images| ==> images[k].source.Stock?
      {
        ghost var photo;
        var image;
        image, photo := Slot(Brief(queries[i], queries[i]), Lifestyle);
        if image.Some? {
          assert old(kept) + images + [image.value] == old(kept) + (images + [image.value]);
          images := images + [image.value];
        }
        i := i + 1;
      }
    }
  }

  // ------------------------------------------------------------ the whole set

  /** The set never breaks a budget, never repeats a photograph, never passes art off as a product,
      and gives every product its own place, filled or not. */
  ghost predicate WithinBudgets(w: World, g: StoreImagery, content: Content, searches: nat) {
    && |g.products| == |content.products|
    && searches <= MAX_SEARCHES
    && Bytes(AllImages(g)) < MAX_TOTAL_BYTES + MAX_IMAGE_BYTES
    && AllDistinct(StockIds(AllImages(g)))
    && (forall i :: 0 <= i < |g.products| && g.products[i].Some? ==>
          content.products[i].Some? && ShowsHead(w, content.products[i].value, g.products[i].value))
    && (g.hero.Some? ==> g.hero.value.source.Generated? || ShowsHead(w, content.hero, g.hero.value))
    && (forall i :: 0 <= i < |g.lifestyle| ==> g.lifestyle[i].source.Stock?)
    && |g.lifestyle| <= MAX_LIFESTYLE
  }

  /** Products first, then the hero, then the band. */
  method Resolve(w: World, keyed: bool, content: Content) returns (g: StoreImagery, searches: nat)
    ensures !keyed ==> g == StoreImagery(None, [], []) && searches == 0
    ensures keyed ==> WithinBudgets(w, g, content, searches)
  {
    if !keyed {
      return StoreImagery(None, [], []), 0;
    }
    var studio := new Studio(w);
    var products := studio.Cards(content.products);
    ghost var photo;
    var hero;
    hero, photo := studio.Slot(content.hero, Hero);
    if hero.None? {
      hero := studio.GeneratedHero(content.artPrompt);
    }
    assert [hero][..0] == [] && Present([hero]) == if hero.Some? then [hero.value] else [];
    var lifestyle := studio.Band(content.lifestyle);
    g, searches := StoreImagery(hero, products, lifestyle), studio.searches;
    assert AllImages(g) == studio.kept;
  }

  // ------------------------------------------------------------ writing it into the page

  /** Any image already in a product is dropped, whoever put it there. */
  method Apply(images: seq<Option<Image>>, resolved: StoreImagery, isObject: seq<bool>) returns (after: seq<Option<Image>>)
    requires |isObject| == |images|
    ensures |after| == |images|
    ensures forall k :: 0 <= k < |after| && isObject[k] ==>
              after[k] == if k < |resolved.products| then resolved.products[k] else None
    ensures forall k :: 0 <= k < |after| && !isObject[k] ==> after[k] == images[k]
  {
    after := [];
    for k := 0 to |images|
      invariant |after| == k
      invariant forall j :: 0 <= j < k && isObject[j] ==>
                  after[j] == if j < |resolved.products| then resolved.products[j] else None
      invariant forall j :: 0 <= j < k && !isObject[j] ==> after[j] == images[j]
    {
      var image: Option<Image> := images[k];
      if isObject[k] {
        image := None;
        if k < |resolved.products| && resolved.products[k].Some? {
          image := resolved.products[k];
        }
      }
      after := after + [image];
    }
  }
}
