/** The home feed (src/pages/HomeFeed.tsx): the fetched listings of the chosen circle, narrowed by a type chip, a
    search box and the filter sheet, then sorted. The client-side pipeline is a fixed chain of `filter` stages
    followed by a stable sort. */
module HomeFeed {
  import opened Options
  import opened Text
  import opened Seqs
  import opened Sorting
  import opened Database
  import opened FilterModal
  import Utils

  /** The localStorage key under which the chosen circle is remembered. */
  const PreferredCircleKey := "kbs_preferred_circle"

  /** The chip row. */
  const Chips: seq<string> := ["All", "For Sale", "Trade", "Donation"]

  /** The listing type a chip stands for; "All" and any unknown chip select no type. */
  function ChipKind(chip: string): (r: Option<ListingType>)
    ensures r == Some(DONATION) <==> chip == "Donation"
    ensures r == Some(TRADE) <==> chip == "Trade"
    ensures r == Some(SALE) <==> chip == "For Sale"
  {
    if chip == "All" then None
    else if chip == "Donation" then Some(DONATION)
    else if chip == "Trade" then Some(TRADE)
    else if chip == "For Sale" then Some(SALE)
    else None
  }

  /** `l.distance || 0`: a missing distance counts as 0. */
  function Distance(l: Listing): real {
    match l.distance
    case None => 0.0
    case Some(d) => d
  }

  predicate InCircle(c: Circle, l: Listing) {
    l.circleId == Some(c.id)
  }

  predicate KindOk(chip: string, l: Listing) {
    ChipKind(chip).None? || l.kind == ChipKind(chip).value
  }

  /** The lowercased title or description contains the lowercased, untrimmed query. */
  predicate MatchesSearch(query: string, l: Listing) {
    Contains(ToLower(l.title), ToLower(query)) || Contains(ToLower(l.description), ToLower(query))
  }

  /** The search stage runs only when the trimmed query is non-empty. */
  predicate SearchOk(query: string, l: Listing) {
    IsBlank(query) || MatchesSearch(query, l)
  }

  /** A distance of 0 is falsy and switches the stage off. */
  predicate DistanceOk(f: FilterState, l: Listing) {
    f.distance == 0 || Distance(l) <= f.distance as real
  }

  /** A non-empty bound is parsed and scaled to cents; an unparsable one is NaN, and every comparison with NaN is
      false. */
  predicate MinOk(f: FilterState, parse: NumberParser, l: Listing) {
    f.priceMin == [] || (parse(f.priceMin).Some? && l.priceCents as real >= parse(f.priceMin).value * 100.0)
  }

  predicate MaxOk(f: FilterState, parse: NumberParser, l: Listing) {
    f.priceMax == [] || (parse(f.priceMax).Some? && l.priceCents as real <= parse(f.priceMax).value * 100.0)
  }

  predicate ConditionOk(f: FilterState, l: Listing) {
    f.condition == [] || l.condition in f.condition
  }

  /** The stages that both the client pipeline and the refinement of server results apply. */
  predicate RefineOk(f: FilterState, parse: NumberParser, l: Listing) {
    DistanceOk(f, l) && MinOk(f, parse, l) && MaxOk(f, parse, l) && ConditionOk(f, l)
  }

  /** The stages a server query already applies: circle, chip and search. */
  predicate QueryOk(c: Circle, chip: string, query: string, l: Listing) {
    InCircle(c, l) && KindOk(chip, l) && SearchOk(query, l)
  }

  /** A listing survives the client pipeline. */
  predicate Keeps(c: Circle, chip: string, query: string, f: FilterState, parse: NumberParser, l: Listing) {
    QueryOk(c, chip, query, l) && RefineOk(f, parse, l)
  }

  /** The sort keys: the comparators subtract these. `price_desc` compares `b - a`, which is ascending on the
      negated price. */
  function PriceKey(l: Listing): real { l.priceCents as real }
  function NegPriceKey(l: Listing): real { -(l.priceCents as real) }
  function DistanceKey(l: Listing): real { Distance(l) }

  /** The key a sort option subtracts in its comparator; "newest" and unknown options do not sort. */
  function SortKeyOf(sortBy: string): Option<Listing -> real> {
    if sortBy == "price_asc" then Some(PriceKey)
    else if sortBy == "price_desc" then Some(NegPriceKey)
    else if sortBy == "closest" then Some(DistanceKey)
    else None
  }

  /** The sort step. */
  function SortListings(s: seq<Listing>, sortBy: string): (r: seq<Listing>)
    ensures multiset(r) == multiset(s)
  {
    match SortKeyOf(sortBy)
    case None => s
    case Some(key) => SortBy(s, key)
  }

  /** The narrowed listings, before sorting. */
  function Narrow(listings: seq<Listing>, c: Circle, chip: string, query: string, f: FilterState,
                  parse: NumberParser): seq<Listing>
  {
    Filter(listings, l => Keeps(c, chip, query, f, parse, l))
  }

  /** What the feed shows. */
  function Feed(listings: seq<Listing>, c: Circle, chip: string, query: string, f: FilterState,
                parse: NumberParser): seq<Listing>
  {
    SortListings(Narrow(listings, c, chip, query, f, parse), f.sortBy)
  }

  /** The client refinement of rows a server query returned (distance, price, condition, then sort). */
  function Refine(data: seq<Listing>, f: FilterState, parse: NumberParser): seq<Listing> {
    SortListings(Filter(data, l => RefineOk(f, parse, l)), f.sortBy)
  }

  // ---------------------------------------------------------------------------------------------------------
  // The pipeline as the source runs it: a local `result` rebound stage by stage.

  /** The callbacks passed to `filter`, one per stage. */
  function IsKind(kind: ListingType): Listing -> bool { (l: Listing) => l.kind == kind }
  function Matching(query: string): Listing -> bool { (l: Listing) => MatchesSearch(query, l) }
  function WithinMiles(miles: int): Listing -> bool { (l: Listing) => Distance(l) <= miles as real }
  function AtLeast(min: Option<real>): Listing -> bool { (l: Listing) => min.Some? && l.priceCents as real >= min.value * 100.0 }
  function AtMost(max: Option<real>): Listing -> bool { (l: Listing) => max.Some? && l.priceCents as real <= max.value * 100.0 }
  function ConditionIn(conditions: seq<string>): Listing -> bool { (l: Listing) => l.condition in conditions }

  /** Circle, chip and search stages. */
  method Preselect(listings: seq<Listing>, c: Circle, chip: string, query: string) returns (result: seq<Listing>)
    ensures result == Filter(listings, l => QueryOk(c, chip, query, l))
  {
    var inCircle: Listing -> bool := l => InCircle(c, l);
    ghost var upToChip: Listing -> bool := l => InCircle(c, l) && KindOk(chip, l);
    result := Filter(listings, inCircle);
    if ChipKind(chip).Some? {
      result := Filter(result, IsKind(ChipKind(chip).value));
      FilterFilter(listings, inCircle, IsKind(ChipKind(chip).value), upToChip);
    } else {
      FilterExt(listings, inCircle, upToChip);
    }
    if !IsBlank(query) {
      result := Filter(result, Matching(query));
    }
    FilterIfFilter(listings, upToChip, !IsBlank(query), Matching(query), l => QueryOk(c, chip, query, l));
  }

  /** Distance, price and condition stages, as the client applies them to a list. */
  method ApplyModalFilters(s: seq<Listing>, f: FilterState, parse: NumberParser) returns (result: seq<Listing>)
    ensures result == Filter(s, l => RefineOk(f, parse, l))
  {
    ghost var all: Listing -> bool := l => true;
    ghost var upToDistance: Listing -> bool := l => DistanceOk(f, l);
    ghost var upToMin: Listing -> bool := l => DistanceOk(f, l) && MinOk(f, parse, l);
    ghost var upToMax: Listing -> bool := l => DistanceOk(f, l) && MinOk(f, parse, l) && MaxOk(f, parse, l);
    result := s;
    FilterAll(s, all);
    if f.distance != 0 {
      result := Filter(result, WithinMiles(f.distance));
    }
    FilterIfFilter(s, all, f.distance != 0, WithinMiles(f.distance), upToDistance);
    ApplyPriceBounds(s, f, parse, upToDistance, upToMin, upToMax);
    if f.priceMin != [] {
      result := Filter(result, AtLeast(parse(f.priceMin)));
    }
    if f.priceMax != [] {
      result := Filter(result, AtMost(parse(f.priceMax)));
    }
    if f.condition != [] {
      result := Filter(result, ConditionIn(f.condition));
    }
    FilterIfFilter(s, upToMax, f.condition != [], ConditionIn(f.condition), l => RefineOk(f, parse, l));
  }

  /** The two price stages on top of the distance stage. */
  lemma ApplyPriceBounds(s: seq<Listing>, f: FilterState, parse: NumberParser,
                         upToDistance: Listing -> bool, upToMin: Listing -> bool, upToMax: Listing -> bool)
    requires forall l :: upToDistance(l) == DistanceOk(f, l)
    requires forall l :: upToMin(l) == (DistanceOk(f, l) && MinOk(f, parse, l))
    requires forall l :: upToMax(l) == (DistanceOk(f, l) && MinOk(f, parse, l) && MaxOk(f, parse, l))
    ensures FilterIf(FilterIf(Filter(s, upToDistance), f.priceMin != [], AtLeast(parse(f.priceMin))),
                     f.priceMax != [], AtMost(parse(f.priceMax)))
         == Filter(s, upToMax)
  {
    FilterIfFilter(s, upToDistance, f.priceMin != [], AtLeast(parse(f.priceMin)), upToMin);
    FilterIfFilter(s, upToMin, f.priceMax != [], AtMost(parse(f.priceMax)), upToMax);
  }

  // ---------------------------------------------------------------------------------------------------------
  // What the pipeline guarantees.

  /** A listing is shown exactly when it was fetched and passes every stage. */
  lemma FeedMembership(listings: seq<Listing>, c: Circle, chip: string, query: string, f: FilterState,
                       parse: NumberParser, x: Listing)
    ensures x in Feed(listings, c, chip, query, f, parse) <==> x in listings && Keeps(c, chip, query, f, parse, x)
  {
    var narrow := Narrow(listings, c, chip, query, f, parse);
    FilterMembers(listings, l => Keeps(c, chip, query, f, parse, l), x);
    assert x in Feed(listings, c, chip, query, f, parse) <==> x in multiset(narrow);
  }

  /** Each stage's promise, for every shown listing. */
  lemma FeedRespectsStages(listings: seq<Listing>, c: Circle, chip: string, query: string, f: FilterState,
                           parse: NumberParser, x: Listing)
    requires x in Feed(listings, c, chip, query, f, parse)
    ensures x in listings && x.circleId == Some(c.id)
    ensures chip == "Donation" ==> x.kind == DONATION
    ensures chip == "Trade" ==> x.kind == TRADE
    ensures chip == "For Sale" ==> x.kind == SALE
    ensures !IsBlank(query) ==>
              Contains(ToLower(x.title), ToLower(query)) || Contains(ToLower(x.description), ToLower(query))
    ensures f.distance != 0 ==> Distance(x) <= f.distance as real
    ensures f.priceMin != [] ==>
              parse(f.priceMin).Some? && x.priceCents as real >= parse(f.priceMin).value * 100.0
    ensures f.priceMax != [] ==>
              parse(f.priceMax).Some? && x.priceCents as real <= parse(f.priceMax).value * 100.0
    ensures f.condition != [] ==> x.condition in f.condition
  {
    FeedMembership(listings, c, chip, query, f, parse, x);
  }

  /** "All", and any chip that names no type, filter nothing. */
  lemma UntypedChipFiltersNothing(listings: seq<Listing>, c: Circle, chip: string, query: string,
                                  f: FilterState, parse: NumberParser)
    requires chip !in ["Donation", "Trade", "For Sale"]
    ensures Feed(listings, c, chip, query, f, parse) == Feed(listings, c, "All", query, f, parse)
  {
    FilterExt(listings, l => Keeps(c, chip, query, f, parse, l), l => Keeps(c, "All", query, f, parse, l));
  }

  /** A query of only white space searches nothing. */
  lemma BlankSearchFiltersNothing(listings: seq<Listing>, c: Circle, chip: string, query: string,
                                  f: FilterState, parse: NumberParser)
    requires IsBlank(query)
    ensures Feed(listings, c, chip, query, f, parse) == Feed(listings, c, chip, "", f, parse)
  {
    assert IsBlank("");
    FilterExt(listings, l => Keeps(c, chip, query, f, parse, l), l => Keeps(c, chip, "", f, parse, l));
  }

  /** A distance of 0 turns the distance stage off: the listings' distances no longer matter. */
  lemma ZeroDistanceFiltersNothing(c: Circle, chip: string, query: string, f: FilterState,
                                   parse: NumberParser, l: Listing, d: Option<real>)
    requires f.distance == 0
    ensures Keeps(c, chip, query, f, parse, l) == Keeps(c, chip, query, f, parse, l.(distance := d))
  {
  }

  /** A non-empty bound that does not parse is NaN, and the NaN comparison drops every listing. */
  lemma UnparsableBoundEmptiesFeed(listings: seq<Listing>, c: Circle, chip: string, query: string,
                                   f: FilterState, parse: NumberParser)
    requires (f.priceMin != [] && parse(f.priceMin).None?) || (f.priceMax != [] && parse(f.priceMax).None?)
    ensures Feed(listings, c, chip, query, f, parse) == []
  {
    FilterNone(listings, l => Keeps(c, chip, query, f, parse, l));
    assert multiset(Feed(listings, c, chip, query, f, parse)) == multiset{};
  }

  /** Before the sort the result keeps the fetched order; the sort only permutes it. */
  lemma FeedShape(listings: seq<Listing>, c: Circle, chip: string, query: string, f: FilterState,
                  parse: NumberParser)
    ensures IsSubsequence(Narrow(listings, c, chip, query, f, parse), listings)
    ensures multiset(Feed(listings, c, chip, query, f, parse)) == multiset(Narrow(listings, c, chip, query, f, parse))
    ensures SortKeyOf(f.sortBy).None? ==> Feed(listings, c, chip, query, f, parse) == Narrow(listings, c, chip, query, f, parse)
  {
    FilterIsSubsequence(listings, l => Keeps(c, chip, query, f, parse, l));
  }

  /** The three sort options order the feed by their key. */
  lemma FeedOrder(listings: seq<Listing>, c: Circle, chip: string, query: string, f: FilterState,
                  parse: NumberParser)
    ensures var r := Feed(listings, c, chip, query, f, parse);
      && (f.sortBy == "price_asc" ==> forall i, j :: 0 <= i < j < |r| ==> r[i].priceCents <= r[j].priceCents)
      && (f.sortBy == "price_desc" ==> forall i, j :: 0 <= i < j < |r| ==> r[i].priceCents >= r[j].priceCents)
      && (f.sortBy == "closest" ==> forall i, j :: 0 <= i < j < |r| ==> Distance(r[i]) <= Distance(r[j]))
  {
    var narrow := Narrow(listings, c, chip, query, f, parse);
    var r := Feed(listings, c, chip, query, f, parse);
    match SortKeyOf(f.sortBy)
    case None =>
    case Some(key) =>
      SortBySorted(narrow, key);
      assert Sorted(r, key);
  }

  /** The sort is stable: listings with the same key stay in fetched order. */
  lemma FeedStable(listings: seq<Listing>, c: Circle, chip: string, query: string, f: FilterState,
                   parse: NumberParser, v: real)
    requires SortKeyOf(f.sortBy).Some?
    ensures var key := SortKeyOf(f.sortBy).value;
      Filter(Feed(listings, c, chip, query, f, parse), KeyIs(key, v))
        == Filter(Narrow(listings, c, chip, query, f, parse), KeyIs(key, v))
  {
    SortByStable(Narrow(listings, c, chip, query, f, parse), SortKeyOf(f.sortBy).value, v);
  }

  /** Running the pipeline on what it shows shows the same thing again. */
  lemma FeedIdempotent(listings: seq<Listing>, c: Circle, chip: string, query: string, f: FilterState,
                       parse: NumberParser)
    ensures var r := Feed(listings, c, chip, query, f, parse);
      Feed(r, c, chip, query, f, parse) == r
  {
    var keeps := l => Keeps(c, chip, query, f, parse, l);
    var narrow := Narrow(listings, c, chip, query, f, parse);
    var r := Feed(listings, c, chip, query, f, parse);
    forall x | x in r ensures keeps(x) {
      FeedMembership(listings, c, chip, query, f, parse, x);
    }
    FilterAll(r, keeps);
    match SortKeyOf(f.sortBy)
    case None =>
    case Some(key) =>
      SortBySorted(narrow, key);
      SortBySortedIsIdentity(r, key);
  }

  /** The server path: rows the query already narrowed by circle, chip and search, refined on the client, give
      what the client pipeline gives. */
  lemma FeedIsRefinedQuery(listings: seq<Listing>, c: Circle, chip: string, query: string, f: FilterState,
                           parse: NumberParser)
    ensures Feed(listings, c, chip, query, f, parse)
         == Refine(Filter(listings, l => QueryOk(c, chip, query, l)), f, parse)
  {
    FilterFilter(listings, l => QueryOk(c, chip, query, l), l => RefineOk(f, parse, l),
                 l => Keeps(c, chip, query, f, parse, l));
  }

  // ---------------------------------------------------------------------------------------------------------
  // Choosing the circle.

  /** `circles.findIndex(c => c.id === id)`, with -1 as None. */
  function FindCircle(circles: seq<Circle>, id: string): (r: Option<nat>)
    ensures r.Some? ==> r.value < |circles| && circles[r.value].id == id
    ensures r.Some? ==> forall j :: 0 <= j < r.value ==> circles[j].id != id
    ensures r.None? ==> forall j :: 0 <= j < |circles| ==> circles[j].id != id
  {
    if circles == [] then None
    else if circles[0].id == id then Some(0)
    else match FindCircle(circles[1..], id)
      case None => None
      case Some(k) => Some(k + 1)
  }

  /** The circle selected on load: the saved one when it is found, otherwise the first circle (undefined, i.e.
      None, when there are none). An empty saved id is falsy and counts as none. */
  function ChooseCircle(circles: seq<Circle>, saved: Option<string>): (r: Option<Circle>)
    ensures r.None? <==> circles == []
    ensures r.Some? ==> r.value in circles
    ensures (saved.Some? && saved.value != [] && exists i :: 0 <= i < |circles| && circles[i].id == saved.value)
              ==> r.Some? && r.value.id == saved.value
    ensures (saved.None? || saved.value == [] || forall i :: 0 <= i < |circles| ==> circles[i].id != saved.value)
              ==> r == (if circles == [] then None else Some(circles[0]))
  {
    var fallback := if circles == [] then None else Some(circles[0]);
    if saved.Some? && saved.value != [] then
      match FindCircle(circles, saved.value)
      case Some(k) => Some(circles[k])
      case None => fallback
    else fallback
  }

  /** `localStorage.getItem(key)`: null when absent. */
  function Lookup(storage: map<string, string>, key: string): Option<string> {
    if key in storage then Some(storage[key]) else None
  }

  // ---------------------------------------------------------------------------------------------------------
  // The page's state.

  class FeedPage {
    var listings: seq<Listing>
    var filteredListings: seq<Listing>
    var circles: seq<Circle>
    var selectedCircle: Option<Circle>
    var activeChip: string
    var searchQuery: string
    var isFilterModalOpen: bool
    var filters: FilterState
    /** The filter sheet, mounted with the page. */
    const sheet: Sheet
    /** The browser's localStorage. */
    var storage: map<string, string>

    /** The initial state: chip "All", no search, a 25-mile distance and no other filter. */
    constructor(storage: map<string, string>)
      ensures listings == [] && filteredListings == [] && circles == [] && selectedCircle == None
      ensures activeChip == "All" && searchQuery == "" && !isFilterModalOpen
      ensures filters == FilterState(25, "", "", [], "newest")
      ensures this.storage == storage
      ensures fresh(sheet) && sheet.draft == filters
    {
      listings := [];
      filteredListings := [];
      circles := [];
      selectedCircle := None;
      activeChip := "All";
      searchQuery := "";
      isFilterModalOpen := false;
      filters := FilterState(25, "", "", [], "newest");
      sheet := new Sheet(FilterState(25, "", "", [], "newest"));
      this.storage := storage;
    }

    /** Loading the circles chooses the saved circle or the first. */
    method LoadCircles(loaded: seq<Circle>)
      modifies this`circles, this`selectedCircle
      ensures circles == loaded
      ensures selectedCircle == ChooseCircle(loaded, Lookup(storage, PreferredCircleKey))
    {
      circles := loaded;
      selectedCircle := ChooseCircle(loaded, Lookup(storage, PreferredCircleKey));
    }

    /** `fetchListings`: the demo listings without a backend, after an error (None) and when the query found
        nothing; the returned rows otherwise. */
    method FetchListings(configured: bool, result: Option<seq<Listing>>)
      modifies this`listings
      ensures configured && result.Some? && result.value != [] ==> listings == result.value
      ensures !(configured && result.Some? && result.value != []) ==> listings == Utils.MockListings()
    {
      var live := configured && result.Some? && result.value != [];
      listings := if live then result.value else Utils.MockListings();
    }

    /** A chip click. */
    method SelectChip(chip: string)
      modifies this`activeChip
      ensures activeChip == chip
    {
      activeChip := chip;
    }

    /** The search box's onChange. */
    method TypeSearch(text: string)
      modifies this`searchQuery
      ensures searchQuery == text
    {
      searchQuery := text;
    }

    /** The filter button opens the sheet, which shows the draft it already holds. */
    method OpenFilters()
      modifies this`isFilterModalOpen
      ensures isFilterModalOpen && sheet.draft == old(sheet.draft)
    {
      isFilterModalOpen := true;
    }

    /** `handleLocationSelect`: select the circle, remember its id and fetch its listings; `result` is what the
        query filtered to that circle returned. */
    method SelectLocation(c: Circle, configured: bool, result: Option<seq<Listing>>)
      modifies this`selectedCircle, this`storage, this`listings
      ensures selectedCircle == Some(c)
      ensures storage == old(storage)[PreferredCircleKey := c.id]
      ensures Lookup(storage, PreferredCircleKey) == Some(c.id)
      ensures configured && result.Some? && result.value != [] ==> listings == result.value
      ensures !(configured && result.Some? && result.value != []) ==> listings == Utils.MockListings()
    {
      selectedCircle := Some(c);
      storage := storage[PreferredCircleKey := c.id];
      FetchListings(configured, result);
    }

    /** The filtering effect without a backend: nothing happens until a circle is selected; then the feed is
        recomputed stage by stage. */
    method RunClientFilter(parse: NumberParser)
      modifies this`filteredListings
      ensures selectedCircle.None? ==> filteredListings == old(filteredListings)
      ensures selectedCircle.Some? ==>
        filteredListings == Feed(listings, selectedCircle.value, activeChip, searchQuery, filters, parse)
    {
      if selectedCircle.None? {
        return;
      }
      var c := selectedCircle.value;
      var result := Preselect(listings, c, activeChip, searchQuery);
      result := ApplyModalFilters(result, filters, parse);
      FeedIsRefinedQuery(listings, c, activeChip, searchQuery, filters, parse);
      result := SortListings(result, filters.sortBy);
      filteredListings := result;
    }

    /** The filtering effect with a backend, once the query answered: an error keeps the list shown, otherwise
        the returned rows are refined and sorted on the client. */
    method ApplyServerRows(rows: Option<seq<Listing>>, parse: NumberParser)
      modifies this`filteredListings
      ensures rows.None? ==> filteredListings == old(filteredListings)
      ensures rows.Some? ==> filteredListings == Refine(rows.value, filters, parse)
    {
      if rows.Some? {
        var result := ApplyModalFilters(rows.value, filters, parse);
        result := SortListings(result, filters.sortBy);
        filteredListings := result;
      }
    }

    /** The sheet's Apply button, `onApply(filters)` into `handleApplyFilters`: the sheet's draft becomes the
        active filters and the sheet closes; the draft itself stays as it is. */
    method ApplyFilters()
      modifies this`filters, this`isFilterModalOpen
      ensures filters == sheet.draft && !isFilterModalOpen
    {
      filters := sheet.draft;
      isFilterModalOpen := false;
    }

    /** The sheet's X button and its backdrop (`onClose`): the sheet closes, keeping its draft unapplied. */
    method CloseFilters()
      modifies this`isFilterModalOpen
      ensures !isFilterModalOpen && sheet.draft == old(sheet.draft)
    {
      isFilterModalOpen := false;
    }

    /** The "Clear Filters" button of the empty feed. Its distance is 25, not the sheet's Reset value of 10; the
        sheet's draft is not touched. */
    method ClearFilters()
      modifies this`activeChip, this`searchQuery, this`filters
      ensures activeChip == "All" && searchQuery == ""
      ensures filters == FilterState(25, "", "", [], "newest")
      ensures filters.distance != Reset().distance
      ensures sheet.draft == old(sheet.draft)
    {
      activeChip := "All";
      searchQuery := "";
      filters := FilterState(25, "", "", [], "newest");
    }
  }

  /** The stale draft: a distance of 5 applied from the sheet, then "Clear Filters" (distance 25), then the sheet
      opened again and applied without an edit. The sheet still holds 5, so Apply brings the cleared distance
      back. */
  method ClearedDistanceComesBack(storage: map<string, string>) returns (cleared: int, reapplied: int)
    ensures cleared == 25 && reapplied == 5
  {
    var page := new FeedPage(storage);
    page.OpenFilters();
    page.sheet.Slide(5);
    page.ApplyFilters();
    page.ClearFilters();
    cleared := page.filters.distance;
    page.OpenFilters();
    page.ApplyFilters();
    reapplied := page.filters.distance;
  }
}
