/**
 * The year-in-review page (components/WrappedPage.tsx): `analyzeHistory`
 * tallies the purchase history by brand and by genre into insertion-ordered
 * dictionaries, picks the entry with the largest count, deduplicates the
 * purchases, and the page steps through the resulting slides.
 */
module Wrapped {
  import opened Types
  import opened Seqs
  import opened Catalog

  // ------------------------------------------------------------------ tallies

  /** One `[key, count]` pair of `Object.entries(counts)`. */
  datatype Entry = Entry(name: string, count: nat)

  /** The keys of a tally, in insertion order. */
  function Names(t: seq<Entry>): (r: seq<string>)
    ensures |r| == |t|
  {
    if t == [] then [] else [t[0].name] + Names(t[1..])
  }

  /** `counts[key] || 0`. */
  function Lookup(t: seq<Entry>, key: string): nat {
    if t == [] then 0 else if t[0].name == key then t[0].count else Lookup(t[1..], key)
  }

  /** The sum of all counts. */
  function Total(t: seq<Entry>): nat {
    if t == [] then 0 else t[0].count + Total(t[1..])
  }

  /**
   * `acc[key] = (acc[key] || 0) + 1` on an insertion-ordered dictionary: an
   * existing key keeps its place and counts one more, a new key is appended with 1.
   */
  function Bump(t: seq<Entry>, key: string): (r: seq<Entry>)
    ensures Names(r) == if key in Names(t) then Names(t) else Names(t) + [key]
    ensures forall k :: Lookup(r, k) == Lookup(t, k) + (if k == key then 1 else 0)
    ensures Total(r) == Total(t) + 1
  {
    if t == [] then [Entry(key, 1)]
    else if t[0].name == key then [t[0].(count := t[0].count + 1)] + t[1..]
    else
      var r := [t[0]] + Bump(t[1..], key);
      assert r[1..] == Bump(t[1..], key);
      r
  }

  /** Bumping a key the tally does not hold appends it with count one. */
  lemma {:induction false} BumpNew(t: seq<Entry>, key: string)
    requires key !in Names(t)
    ensures Bump(t, key) == t + [Entry(key, 1)]
  {
    if t != [] {
      assert Names(t)[1..] == Names(t[1..]);
      BumpNew(t[1..], key);
      assert [t[0]] + (t[1..] + [Entry(key, 1)]) == t + [Entry(key, 1)];
    }
  }

  /** Bumping a key held at position `i` adds one to that entry and changes nothing else. */
  lemma {:induction false} BumpAt(t: seq<Entry>, key: string, i: nat)
    requires i < |t| && t[i].name == key
    requires forall j :: 0 <= j < i ==> t[j].name != key
    ensures Bump(t, key) == t[i := t[i].(count := t[i].count + 1)]
  {
    var e := t[i].(count := t[i].count + 1);
    if i == 0 {
      assert Bump(t, key) == [e] + t[1..];
    } else {
      var s := t[1..];
      forall j | 0 <= j < i - 1
        ensures s[j].name != key
      {
        assert s[j] == t[j + 1];
      }
      BumpAt(s, key, i - 1);
      BumpPast(t, key, i - 1, e);
    }
  }

  /** A tally whose first key is not `key` is bumped in its tail. */
  lemma BumpPast(t: seq<Entry>, key: string, j: nat, e: Entry)
    requires j + 1 < |t| && t[0].name != key
    requires Bump(t[1..], key) == t[1..][j := e]
    ensures Bump(t, key) == t[j + 1 := e]
  {
    assert Bump(t, key) == [t[0]] + Bump(t[1..], key);
    ConsUpdate(t[0], t[1..], j, e);
    assert [t[0]] + t[1..] == t;
  }

  /** Updating the tail of a list is updating the list one place further on. */
  lemma ConsUpdate<T>(x: T, s: seq<T>, j: nat, v: T)
    requires j < |s|
    ensures [x] + s[j := v] == ([x] + s)[j + 1 := v]
  {
  }

  /** The dictionary a `reduce` that bumps each key in turn leaves behind. */
  function TallyOf(keys: seq<string>): (t: seq<Entry>)
    ensures Names(t) == Distinct(keys)
    ensures forall k :: Lookup(t, k) == Count(keys, k)
    ensures Total(t) == |keys|
  {
    if keys == [] then [] else Bump(TallyOf(keys[..|keys| - 1]), keys[|keys| - 1])
  }

  lemma TallyOfSnoc(keys: seq<string>, key: string)
    ensures TallyOf(keys + [key]) == Bump(TallyOf(keys), key)
  {
    assert (keys + [key])[..|keys|] == keys;
  }

  /** The brand of each purchase, in order. */
  function BrandKeys(ps: seq<Product>): (r: seq<string>)
    ensures |r| == |ps|
  {
    if ps == [] then [] else BrandKeys(ps[..|ps| - 1]) + [ps[|ps| - 1].brand]
  }

  /** Whether a genre lists the product: `genre.productIds.includes(id)`. */
  predicate Lists(g: Genre, id: Id) {
    id in g.productIds
  }

  /** The names of the genres listing one product, in genre order. */
  function GenreHits(id: Id, gs: seq<Genre>): seq<string> {
    if gs == [] then []
    else GenreHits(id, gs[..|gs| - 1]) + (if Lists(gs[|gs| - 1], id) then [gs[|gs| - 1].name] else [])
  }

  /** The genre names each purchase contributes, purchase by purchase. */
  function GenreKeys(ps: seq<Product>, gs: seq<Genre>): seq<string> {
    if ps == [] then [] else GenreKeys(ps[..|ps| - 1], gs) + GenreHits(ps[|ps| - 1].id, gs)
  }

  /** The number of purchases a genre lists. */
  function Listed(ps: seq<Product>, g: Genre): nat {
    if ps == [] then 0 else Listed(ps[..|ps| - 1], g) + (if Lists(g, ps[|ps| - 1].id) then 1 else 0)
  }

  /** The number of purchases of a brand. */
  function OfBrand(ps: seq<Product>, brand: string): nat {
    if ps == [] then 0 else OfBrand(ps[..|ps| - 1], brand) + (if ps[|ps| - 1].brand == brand then 1 else 0)
  }

  /** Each brand's count is its number of purchases. */
  lemma {:induction false} BrandCountIsPurchases(ps: seq<Product>, brand: string)
    ensures Lookup(TallyOf(BrandKeys(ps)), brand) == OfBrand(ps, brand)
  {
    if ps != [] {
      BrandCountIsPurchases(ps[..|ps| - 1], brand);
      var init := BrandKeys(ps[..|ps| - 1]);
      assert (init + [ps[|ps| - 1].brand])[..|init|] == init;
    }
  }

  /** The brand counts add up to the number of purchases. */
  lemma BrandCountsSum(ps: seq<Product>)
    ensures Total(TallyOf(BrandKeys(ps))) == |ps|
  {
  }

  /** Genre names are distinct, as in the shipped genre list. */
  predicate DistinctNames(gs: seq<Genre>) {
    forall i, j :: 0 <= i < j < |gs| ==> gs[i].name != gs[j].name
  }

  /** A product hits a genre name once if the genre of that name lists it, and never otherwise. */
  lemma {:induction false} GenreHitsCount(id: Id, gs: seq<Genre>, g: Genre)
    requires DistinctNames(gs) && g in gs
    ensures Count(GenreHits(id, gs), g.name) == if Lists(g, id) then 1 else 0
  {
    var init := gs[..|gs| - 1];
    var last := gs[|gs| - 1];
    var hit := if Lists(last, id) then [last.name] else [];
    CountAppend(GenreHits(id, init), hit, g.name);
    assert Count(hit, g.name) == if Lists(last, id) && last.name == g.name then 1 else 0 by {
      if hit != [] {
        assert hit[..0] == [];
      }
    }
    if g == last {
      GenreHitsAbsent(id, init, g.name);
    } else {
      assert g in init;
      assert last.name != g.name;
      GenreHitsCount(id, init, g);
    }
  }

  /** No genre of that name in the list means no hit with that name. */
  lemma {:induction false} GenreHitsAbsent(id: Id, gs: seq<Genre>, name: string)
    requires forall g :: g in gs ==> g.name != name
    ensures Count(GenreHits(id, gs), name) == 0
  {
    if gs != [] {
      var init := gs[..|gs| - 1];
      var last := gs[|gs| - 1];
      var hit := if Lists(last, id) then [last.name] else [];
      GenreHitsAbsent(id, init, name);
      CountAppend(GenreHits(id, init), hit, name);
      if hit != [] {
        assert hit[..0] == [];
      }
    }
  }

  /** Each genre's count is the number of purchases it lists: every purchase adds one to each genre listing it. */
  lemma {:induction false} GenreCountIsListed(ps: seq<Product>, gs: seq<Genre>, g: Genre)
    requires DistinctNames(gs) && g in gs
    ensures Lookup(TallyOf(GenreKeys(ps, gs)), g.name) == Listed(ps, g)
  {
    if ps != [] {
      var init := ps[..|ps| - 1];
      GenreCountIsListed(init, gs, g);
      CountAppend(GenreKeys(init, gs), GenreHits(ps[|ps| - 1].id, gs), g.name);
      GenreHitsCount(ps[|ps| - 1].id, gs, g);
    }
  }

  // -------------------------------------------------------------- the reduces

  /** The brand `reduce`: one bump per purchase, into a dictionary updated in place. */
  method CountBrands(purchased: seq<Product>) returns (counts: seq<Entry>)
    ensures counts == TallyOf(BrandKeys(purchased))
  {
    counts := [];
    for i := 0 to |purchased|
      invariant counts == TallyOf(BrandKeys(purchased[..i]))
    {
      assert purchased[..i + 1][..i] == purchased[..i];
      TallyOfSnoc(BrandKeys(purchased[..i]), purchased[i].brand);
      counts := Bump(counts, purchased[i].brand);
    }
    assert purchased[..|purchased|] == purchased;
  }

  /** The genre `reduce`: for each purchase, a bump for every genre listing it. */
  method CountGenres(purchased: seq<Product>, genres: seq<Genre>) returns (counts: seq<Entry>)
    ensures counts == TallyOf(GenreKeys(purchased, genres))
  {
    counts := [];
    for i := 0 to |purchased|
      invariant counts == TallyOf(GenreKeys(purchased[..i], genres))
    {
      assert purchased[..i + 1][..i] == purchased[..i];
      counts := BumpGenres(counts, GenreKeys(purchased[..i], genres), purchased[i].id, genres);
    }
    assert purchased[..|purchased|] == purchased;
  }

  /** The `GENRES.forEach` inside the genre `reduce`, for one purchase, in genre order. */
  method BumpGenres(counts: seq<Entry>, ghost before: seq<string>, id: Id, genres: seq<Genre>)
    returns (r: seq<Entry>)
    requires counts == TallyOf(before)
    ensures r == TallyOf(before + GenreHits(id, genres))
  {
    r := counts;
    assert before + GenreHits(id, genres[..0]) == before;
    for j := 0 to |genres|
      invariant r == TallyOf(before + GenreHits(id, genres[..j]))
    {
      GenreStep(before, id, genres, j);
      if id in genres[j].productIds {
        r := Bump(r, genres[j].name);
      }
    }
    assert genres[..|genres|] == genres;
  }

  /** One more genre either bumps its name or leaves the tally as it was. */
  lemma GenreStep(before: seq<string>, id: Id, genres: seq<Genre>, j: nat)
    requires j < |genres|
    ensures TallyOf(before + GenreHits(id, genres[..j + 1])) ==
      if Lists(genres[j], id) then Bump(TallyOf(before + GenreHits(id, genres[..j])), genres[j].name)
      else TallyOf(before + GenreHits(id, genres[..j]))
  {
    var done := GenreHits(id, genres[..j]);
    assert genres[..j + 1][..j] == genres[..j];
    if Lists(genres[j], id) {
      TallyOfSnoc(before + done, genres[j].name);
      assert before + (done + [genres[j].name]) == before + done + [genres[j].name];
    } else {
      assert done + [] == done;
    }
  }

  // ---------------------------------------------------------------- top entry

  /** `i` holds a largest count and nothing before it is as large. */
  predicate IsFirstMax(t: seq<Entry>, i: nat) {
    i < |t| &&
    (forall j :: 0 <= j < |t| ==> t[j].count <= t[i].count) &&
    (forall j :: 0 <= j < i ==> t[j].count < t[i].count)
  }

  /** The position a stable descending sort moves to the front. */
  function TopIndex(t: seq<Entry>): (i: nat)
    requires t != []
    ensures IsFirstMax(t, i)
  {
    if |t| == 1 then 0
    else
      var k := TopIndex(t[..|t| - 1]);
      if t[|t| - 1].count > t[k].count then |t| - 1 else k
  }

  /** `Object.entries(counts).sort((a, b) => b[1] - a[1])[0]`: absent exactly when nothing was counted. */
  function Top(t: seq<Entry>): (r: Option<Entry>)
    ensures r.None? <==> t == []
    ensures r.Some? ==> exists i: nat :: IsFirstMax(t, i) && r.value == t[i]
  {
    if t == [] then None else Some(t[TopIndex(t)])
  }

  /** A tally of keys has a top entry exactly when there was at least one key. */
  lemma TopOfTally(keys: seq<string>)
    ensures Top(TallyOf(keys)).None? <==> keys == []
  {
    if keys != [] {
      assert keys[0] in Distinct(keys);
    }
  }

  // ---------------------------------------------------------------- analysis

  /** What `analyzeHistory` returns; the top genre keeps only its name. */
  datatype Analysis = Analysis(
    purchasedProducts: seq<Product>,
    totalItems: nat,
    topBrand: Option<Entry>,
    topGenre: Option<string>)

  function TopName(t: seq<Entry>): Option<string> {
    match Top(t) case Some(e) => Some(e.name) case None => None
  }

  /** `analyzeHistory` as a function of the catalogue, the history and the genres. */
  function Analyze(products: seq<Product>, history: seq<Id>, genres: seq<Genre>): (a: Analysis)
    ensures a.totalItems == |history|
    ensures Ids(a.purchasedProducts) == Distinct(Ids(ResolveIds(products, history)))
    ensures a.topBrand.None? <==> ResolveIds(products, history) == []
  {
    var purchased := ResolveIds(products, history);
    UniqueByIdIds(purchased);
    TopOfTally(BrandKeys(purchased));
    Analysis(UniqueById(purchased), |history|,
      Top(TallyOf(BrandKeys(purchased))), TopName(TallyOf(GenreKeys(purchased, genres))))
  }

  /** `analyzeHistory`, with its two `reduce`s run as loops. */
  method AnalyzeHistory(products: seq<Product>, history: seq<Id>, genres: seq<Genre>) returns (a: Analysis)
    ensures a == Analyze(products, history, genres)
  {
    var purchased := ResolveIds(products, history);
    var brandCounts := CountBrands(purchased);
    var genreCounts := CountGenres(purchased, genres);
    a := Analysis(UniqueById(purchased), |history|, Top(brandCounts), TopName(genreCounts));
  }

  // ------------------------------------------------------------------ slides

  datatype Slide =
    | IntroSlide
    | SnapshotSlide(totalItems: nat, uniquePieces: nat)
    | TopBrandSlide(brand: Entry)
    | TopGenreSlide(genre: string)
    | GallerySlide(pictures: seq<Product>)
    | ShareSlide

  /** `analysis.purchasedProducts.slice(0, 9)`. */
  function Gallery(ps: seq<Product>): (r: seq<Product>)
    ensures |r| <= 9 && |r| <= |ps| && r == ps[..|r|]
    ensures |ps| <= 9 ==> r == ps
  {
    if |ps| <= 9 then ps else ps[..9]
  }

  /** The number of slides an analysis makes: four fixed ones and one per top entry found. */
  function SlideCount(a: Analysis): nat {
    4 + (if a.topBrand.Some? then 1 else 0) + (if a.topGenre.Some? then 1 else 0)
  }

  /** The slide list after `.filter(Boolean)` has dropped the missing top-brand and top-genre slides. */
  function Slides(a: Analysis): (r: seq<Slide>)
    ensures |r| == SlideCount(a)
    ensures 4 <= |r| <= 6
    ensures r[0] == IntroSlide && r[|r| - 1] == ShareSlide
    ensures (exists s :: s in r && s.TopBrandSlide?) <==> a.topBrand.Some?
    ensures (exists s :: s in r && s.TopGenreSlide?) <==> a.topGenre.Some?
  {
    var brand := match a.topBrand case Some(e) => [TopBrandSlide(e)] case None => [];
    var genre := match a.topGenre case Some(g) => [TopGenreSlide(g)] case None => [];
    var r := [IntroSlide, SnapshotSlide(a.totalItems, |a.purchasedProducts|)] + brand + genre +
      [GallerySlide(Gallery(a.purchasedProducts)), ShareSlide];
    assert forall s :: s in r && s.TopBrandSlide? ==> s in brand;
    assert forall s :: s in r && s.TopGenreSlide? ==> s in genre;
    assert brand != [] ==> brand[0] in r;
    assert genre != [] ==> genre[0] in r;
    r
  }

  /** `nextSlide`: one forward, held at the last slide. */
  function NextSlide(s: nat, n: nat): (r: nat)
    requires s < n
    ensures r < n
    ensures r == if s + 1 < n then s + 1 else s
  {
    if s + 1 <= n - 1 then s + 1 else n - 1
  }

  /** `prevSlide`: one back, held at the first slide. */
  function PrevSlide(s: nat): (r: nat)
    ensures r <= s
    ensures r == if s > 0 then s - 1 else 0
  {
    if s - 1 >= 0 then s - 1 else 0
  }

  /** Going forward and back returns to the slide one started from, unless it was the last. */
  lemma PrevUndoesNext(s: nat, n: nat)
    requires s + 1 < n
    ensures PrevSlide(NextSlide(s, n)) == s
  {
  }

  /** Going forward `k` times from the first slide lands on slide `k`, or stays on the last. */
  lemma {:induction false} ForwardFromStart(n: nat, k: nat)
    requires n > 0
    ensures Forward(0, n, k) == if k < n then k else n - 1
  {
    if k > 0 {
      ForwardFromStart(n, k - 1);
    }
  }

  function Forward(s: nat, n: nat, k: nat): (r: nat)
    requires s < n
    ensures r < n
  {
    if k == 0 then s else NextSlide(Forward(s, n, k - 1), n)
  }

  class WrappedPage {
    const analysis: Analysis
    const slideCount: nat
    var slide: nat

    /** The slide index names one of the `Slides(analysis)`, whose number is `SlideCount(analysis)`. */
    ghost predicate Valid()
      reads this
    {
      slideCount == SlideCount(analysis) && slide < slideCount
    }

    /** The page opens on the first slide; `analysis` is computed once, as `useMemo` does. */
    constructor(products: seq<Product>, history: seq<Id>, genres: seq<Genre>)
      ensures analysis == Analyze(products, history, genres) && slide == 0
      ensures Valid()
    {
      var a := Analyze(products, history, genres);
      var n := SlideCount(a);
      assert 0 < n;
      analysis, slideCount, slide := a, n, 0;
    }

    method Next()
      requires Valid()
      modifies this
      ensures Valid()
      ensures slide == NextSlide(old(slide), slideCount)
    {
      slide := if slide + 1 < slideCount - 1 then slide + 1 else slideCount - 1;
    }

    method Prev()
      requires Valid()
      modifies this
      ensures Valid()
      ensures slide == PrevSlide(old(slide))
    {
      slide := if slide - 1 > 0 then slide - 1 else 0;
    }
  }
}
