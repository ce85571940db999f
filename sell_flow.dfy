/** The new-listing form (src_pages/SellFlow.tsx): a tab for the listing type, photos, text fields and a price,
    an "enhance" button that fills fields from an image analysis, and a submit that validates the form and
    inserts the listing and one media row per photo. The backend, the signed-in user and the parse of the price
    text are parameters. */
module SellFlow {
  import opened Options
  import opened Text
  import opened Decimal
  import opened Database

  const PreferredCircleKey := "kbs_preferred_circle"

  /** The alert texts of the form. */
  const NoTitleAlert := "Please enter a title."
  const NoPhotoAlert := "Please add at " + "least one photo."
  const NoPhotoToEnhanceAlert := "Please upload at " + "least one photo " + "first."
  const DemoPostedAlert := "Listing posted " + "successfully! " + "(Demo Simulation)"

  /** The text fields the analysis may fill. A price of 0 and empty strings are falsy and fill nothing. */
  datatype AiDetails = AiDetails(title: string, description: string, category: string, priceCents: int,
                                 condition: string)

  /** The record inserted into the `listing` table. A price that does not parse is NaN: None here. */
  datatype NewListing = NewListing(
    sellerId: string,
    circleId: Option<string>,
    title: string,
    description: string,
    category: string,
    condition: string,
    kind: ListingType,
    status: string,
    priceCents: Option<int>)

  /** A `listing_media` row. */
  datatype MediaRow = MediaRow(listingId: string, storagePath: string)

  /** `Math.round`: the nearest integer, halves rounded up. */
  function RoundHalfUp(x: real): (r: int)
    ensures r as real <= x + 0.5 < r as real + 1.0
  {
    (x + 0.5).Floor
  }

  lemma RoundWhole(n: int)
    ensures RoundHalfUp(n as real) == n
  {
  }

  /** The `price_cents` of the record: `Math.round(parseFloat(price || '0') * 100)` on the SALE tab, 0 on the
      others. */
  function PriceCents(kind: ListingType, price: string, parse: NumberParser): (r: Option<int>)
    ensures kind != SALE ==> r == Some(0)
    ensures kind == SALE ==> (r.None? <==> parse(if price == [] then "0" else price).None?)
  {
    if kind != SALE then Some(0)
    else
      match parse(if price == [] then "0" else price)
      case None => None
      case Some(v) => Some(RoundHalfUp(v * 100.0))
  }

  /** On the SALE tab the price is the parsed amount in cents, to the nearest cent. */
  lemma SalePriceNearest(price: string, parse: NumberParser)
    requires parse(if price == [] then "0" else price).Some?
    ensures var v := parse(if price == [] then "0" else price).value * 100.0;
      var r := PriceCents(SALE, price, parse);
      r.Some? && r.value as real - 0.5 <= v < r.value as real + 0.5
  {
  }

  /** An empty price on the SALE tab is read as "0". */
  lemma EmptySalePriceIsZero(parse: NumberParser)
    requires parse("0") == Some(0.0)
    ensures PriceCents(SALE, "", parse) == Some(0)
  {
    RoundWhole(0);
  }

  /** The digits of `m / 100` for m >= 0: whole dollars, then the cents without trailing zeros. */
  function DollarText(m: nat): (r: string)
    ensures r != [] && IsDigit(r[0])
  {
    var whole := NatToString(m / 100);
    var frac := m % 100;
    if frac == 0 then whole
    else if frac % 10 == 0 then whole + "." + [DigitChar(frac / 10)]
    else whole + "." + TwoDigits(frac)
  }

  /** `(cents / 100).toString()`: a minus sign for a negative amount, then its digits. */
  function PriceText(cents: int): (r: string)
    ensures r != []
  {
    if cents < 0 then "-" + DollarText(-cents) else DollarText(cents)
  }

  /** The dollar digits read back as the amount they print. */
  lemma DollarTextValue(m: nat)
    ensures UnsignedDecimalValue(DollarText(m)) == Some(m as real / 100.0)
  {
    var w, frac := m / 100, m % 100;
    var whole := NatToString(w);
    NatToStringRoundTrip(w);
    assert m as real / 100.0 == w as real + frac as real / 100.0;
    if frac == 0 {
      assert DollarText(m) == whole;
    } else if frac % 10 == 0 {
      var d := [DigitChar(frac / 10)];
      assert DollarText(m) == whole + "." + d;
      UnsignedDecimalOfParts(whole, d);
      TenthsFraction(frac);
    } else {
      assert DollarText(m) == whole + "." + TwoDigits(frac);
      UnsignedDecimalOfParts(whole, TwoDigits(frac));
      HundredthsFraction(frac);
    }
  }

  /** A single fraction digit counts tenths. */
  lemma TenthsFraction(frac: nat)
    requires frac < 100 && frac % 10 == 0
    ensures FractionValue([DigitChar(frac / 10)]) == frac as real / 100.0
  {
    var d := [DigitChar(frac / 10)];
    assert d[..0] == [];
    assert DigitsValue(d) == frac / 10;
    assert Pow10(|d|) == 10;
  }

  /** Two fraction digits count hundredths. */
  lemma HundredthsFraction(frac: nat)
    requires frac < 100
    ensures FractionValue(TwoDigits(frac)) == frac as real / 100.0
  {
    TwoDigitsRoundTrip(frac);
    assert Pow10(2) == 100;
  }

  /** The price the analysis fills in reads, as a decimal numeral, as cents / 100. */
  lemma PriceTextValue(cents: int)
    ensures DecimalValue(PriceText(cents)) == Some(cents as real / 100.0)
  {
    var m := if cents < 0 then -cents else cents;
    DollarTextValue(m);
    DecimalSign(DollarText(m));
  }

  /** A price the analysis filled in posts as the same number of cents, given a parser that reads decimal
      numerals as the numbers they show. */
  lemma AiPriceRoundTrip(cents: int, parse: NumberParser)
    requires ReadsDecimals(parse)
    ensures PriceCents(SALE, PriceText(cents), parse) == Some(cents)
  {
    PriceTextValue(cents);
    assert parse(PriceText(cents)) == Some(cents as real / 100.0);
    assert cents as real / 100.0 * 100.0 == cents as real;
    RoundWhole(cents);
  }

  /** The record handleSubmit builds. */
  function BuildListing(sellerId: string, savedCircle: Option<string>, title: string, description: string,
                        category: string, condition: string, kind: ListingType, price: string,
                        parse: NumberParser): (r: NewListing)
    ensures r.status == "ACTIVE" && r.kind == kind
    ensures r.circleId == (if savedCircle.Some? && savedCircle.value != [] then savedCircle else None)
    ensures r.priceCents == PriceCents(kind, price, parse)
    ensures r.sellerId == sellerId && r.title == title && r.description == description
    ensures r.category == category && r.condition == condition
  {
    NewListing(sellerId, if savedCircle.Some? && savedCircle.value != [] then savedCircle else None,
               title, description, category, condition, kind, "ACTIVE", PriceCents(kind, price, parse))
  }

  /** `images.map(url => ({ listing_id, storage_path: url }))` */
  function MediaRows(listingId: string, images: seq<string>): (r: seq<MediaRow>)
    ensures |r| == |images|
    ensures forall i :: 0 <= i < |r| ==> r[i].listingId == listingId && r[i].storagePath == images[i]
  {
    if images == [] then [] else [MediaRow(listingId, images[0])] + MediaRows(listingId, images[1..])
  }

  /** The answer of the disabled analysis service. */
  function ServiceStub(): AiDetails {
    AiDetails("", "", "", 0, "Used - Good")
  }

  /** The canned answer used for photos that are not data URLs. */
  function MockAiResponse(): AiDetails {
    AiDetails("Vintage Item " + "(AI Detected)",
              "This looks like " + "a great item found " + "in the uploaded " + "photo. It appears " + "to be in good " + "condition.",
              "Furniture", 4500, "Used - Good")
  }

  /** The canned $45.00 fills the price field with "45". */
  lemma MockPriceText()
    ensures PriceText(MockAiResponse().priceCents) == "45"
  {
    assert NatToString(45) == "45";
  }

  datatype SubmitOutcome = MissingTitle | MissingPhotos | Submitted

  /** `user?.id`, or "current-user" without a session. */
  function SellerOf(user: Option<string>): (r: string)
    ensures user.Some? ==> r == user.value
    ensures user.None? ==> r == "current-user"
  {
    if user.Some? then user.value else "current-user"
  }

  /** `localStorage.getItem('kbs_preferred_circle')`. */
  function SavedCircle(storage: map<string, string>): (r: Option<string>)
    ensures r.Some? <==> PreferredCircleKey in storage
    ensures r.Some? ==> r.value == storage[PreferredCircleKey]
  {
    if PreferredCircleKey in storage then Some(storage[PreferredCircleKey]) else None
  }

  class SellForm {
    var activeTab: ListingType
    var images: seq<string>
    var title: string
    var description: string
    var price: string
    var condition: string
    var category: string
    var isEnhancing: bool
    var isSubmitting: bool
    /** The browser's localStorage. */
    var storage: map<string, string>
    /** Records sent to the `listing` table, media rows sent to `listing_media`, router navigations and alert
        texts, in order. */
    var insertedListings: seq<NewListing>
    var insertedMedia: seq<MediaRow>
    var navigations: seq<string>
    var alerts: seq<string>

    constructor(storage: map<string, string>)
      ensures activeTab == SALE && images == [] && title == "" && description == "" && price == ""
      ensures condition == "Used - Good" && category == "" && !isEnhancing && !isSubmitting
      ensures this.storage == storage
      ensures insertedListings == [] && insertedMedia == [] && navigations == [] && alerts == []
    {
      activeTab := SALE;
      images := [];
      title := "";
      description := "";
      price := "";
      condition := "Used - Good";
      category := "";
      isEnhancing := false;
      isSubmitting := false;
      this.storage := storage;
      insertedListings := [];
      insertedMedia := [];
      navigations := [];
      alerts := [];
    }

    /** The photo grid reports a new list of photos. */
    method SetImages(urls: seq<string>)
      modifies this`images
      ensures images == urls
    {
      images := urls;
    }

    /** The post button is disabled while a submit or an analysis is in flight. */
    predicate SubmitEnabled()
      reads this
    {
      !isSubmitting && !isEnhancing
    }

    /** The enhance button is disabled while busy and while there is no photo. */
    predicate EnhanceEnabled()
      reads this
    {
      !isEnhancing && !isSubmitting && images != []
    }

    /** The tab bar: switching to Donate also sets the price text to "0". */
    method ChangeTab(tab: ListingType)
      modifies this`activeTab, this`price
      ensures activeTab == tab
      ensures price == if tab == DONATION then "0" else old(price)
    {
      activeTab := tab;
      if tab == DONATION {
        price := "0";
      }
    }

    /** `applyAiData`: only truthy values overwrite, and the price only on the SALE tab. */
    method ApplyAiData(ai: AiDetails)
      modifies this`title, this`description, this`category, this`condition, this`price
      ensures title == (if ai.title != [] then ai.title else old(title))
      ensures description == (if ai.description != [] then ai.description else old(description))
      ensures category == (if ai.category != [] then ai.category else old(category))
      ensures condition == (if ai.condition != [] then ai.condition else old(condition))
      ensures price == (if ai.priceCents != 0 && activeTab == SALE then PriceText(ai.priceCents) else old(price))
    {
      if ai.title != [] { title := ai.title; }
      if ai.description != [] { description := ai.description; }
      if ai.category != [] { category := ai.category; }
      if ai.condition != [] { condition := ai.condition; }
      if ai.priceCents != 0 && activeTab == SALE {
        price := PriceText(ai.priceCents);
      }
    }

    /** `handleEnhance`: with no photo only an alert; a data-URL photo goes to the (disabled) service, any other
        photo gets the canned answer. The button is disabled while busy. */
    method Enhance()
      modifies this`title, this`description, this`category, this`condition, this`price, this`alerts
      ensures images == [] ==>
        alerts == old(alerts) + [NoPhotoToEnhanceAlert]
        && title == old(title) && description == old(description) && category == old(category)
        && condition == old(condition) && price == old(price)
      ensures images != [] && StartsWith(images[0], "data:image") ==>
        alerts == old(alerts) && condition == "Used - Good"
        && title == old(title) && description == old(description) && category == old(category)
        && price == old(price)
      ensures images != [] && !StartsWith(images[0], "data:image") ==>
        alerts == old(alerts) && title == MockAiResponse().title
        && description == MockAiResponse().description && category == MockAiResponse().category
        && condition == MockAiResponse().condition
        && price == (if activeTab == SALE then "45" else old(price))
    {
      if |images| == 0 {
        alerts := alerts + [NoPhotoToEnhanceAlert];
        return;
      }
      if StartsWith(images[0], "data:image") {
        ApplyAiData(ServiceStub());
      } else {
        MockPriceText();
        ApplyAiData(MockAiResponse());
      }
    }

    /** The record the form posts for the given session. */
    function Posted(user: Option<string>, parse: NumberParser): NewListing
      reads this
    {
      BuildListing(SellerOf(user), SavedCircle(storage), title, description, category, condition, activeTab,
                   price, parse)
    }

    /** `handleSubmit`. A blank title is refused first, then a form without photos; nothing is inserted then.
        Otherwise the record is inserted; when the insert returns a row id, one media row per photo follows; the
        page goes home either way. Without a signed-in user the seller is "current-user". */
    method Submit(user: Option<string>, insertedId: Option<string>, parse: NumberParser)
      returns (outcome: SubmitOutcome)
      modifies this`insertedListings, this`insertedMedia, this`navigations, this`alerts
      ensures outcome == (if IsBlank(title) then MissingTitle else if images == [] then MissingPhotos else Submitted)
      ensures outcome != Submitted ==>
        insertedListings == old(insertedListings) && insertedMedia == old(insertedMedia)
        && navigations == old(navigations)
      ensures outcome == MissingTitle ==> alerts == old(alerts) + [NoTitleAlert]
      ensures outcome == MissingPhotos ==> alerts == old(alerts) + [NoPhotoAlert]
      ensures outcome == Submitted ==>
        alerts == old(alerts) + (if insertedId.Some? then [] else [DemoPostedAlert])
      ensures outcome == Submitted ==>
        (insertedListings == old(insertedListings) + [Posted(user, parse)])
      ensures outcome == Submitted ==>
        (insertedMedia == old(insertedMedia) + (if insertedId.Some? then MediaRows(insertedId.value, images) else []))
      ensures outcome == Submitted ==> navigations == old(navigations) + ["/home"]
    {
      var blank := IsBlank(title);
      if blank {
        alerts := alerts + [NoTitleAlert];
        outcome := MissingTitle;
      } else if |images| == 0 {
        alerts := alerts + [NoPhotoAlert];
        outcome := MissingPhotos;
      } else {
        Post(user, insertedId, parse);
        outcome := Submitted;
      }
    }

    /** The insert of a form that passed both checks: the record, then its media rows when the insert returned a
        row id (the demo alert otherwise), then the way home. */
    method Post(user: Option<string>, insertedId: Option<string>, parse: NumberParser)
      modifies this`insertedListings, this`insertedMedia, this`navigations, this`alerts
      ensures alerts == old(alerts) + (if insertedId.Some? then [] else [DemoPostedAlert])
      ensures insertedListings == old(insertedListings) + [old(Posted(user, parse))]
      ensures insertedMedia == old(insertedMedia) + (if insertedId.Some? then MediaRows(insertedId.value, images) else [])
      ensures navigations == old(navigations) + ["/home"]
    {
      insertedListings := insertedListings + [Posted(user, parse)];
      if insertedId.Some? {
        insertedMedia := insertedMedia + MediaRows(insertedId.value, images);
      } else {
        alerts := alerts + [DemoPostedAlert];
      }
      navigations := navigations + ["/home"];
    }
  }

  /** A listing posted from the Donate tab is free whatever price text was typed before. */
  method DonationPostsFree(form: SellForm, user: Option<string>, id: Option<string>, parse: NumberParser)
    requires !IsBlank(form.title) && form.images != []
    modifies form
    ensures |form.insertedListings| == |old(form.insertedListings)| + 1
    ensures form.insertedListings[|form.insertedListings| - 1].priceCents == Some(0)
    ensures form.insertedListings[|form.insertedListings| - 1].kind == DONATION
  {
    form.ChangeTab(DONATION);
    var outcome := form.Submit(user, id, parse);
  }
}
