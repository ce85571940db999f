/** Display helpers and demo data (lib/utils.ts). */
module Utils {
  import opened Options
  import opened Seqs
  import opened Decimal
  import opened Database

  /** Digits with a comma before every group of three from the right, as en-US number formatting groups them. */
  function Grouped(digits: string): (r: string)
    decreases |digits|
  {
    if |digits| <= 3 then digits else Grouped(digits[..|digits| - 3]) + "," + digits[|digits| - 3..]
  }

  function NotComma(c: char): bool { c != ',' }

  /** A digit string has no comma to drop. */
  lemma DigitsKept(s: string)
    requires AllDigits(s)
    ensures Filter(s, NotComma) == s
  {
    assert forall x :: x in s ==> NotComma(x);
    FilterAll(s, NotComma);
  }

  /** Dropping the commas of `g + ","` drops the trailing separator. */
  lemma DropTrailingComma(g: string)
    ensures Filter(g + ",", NotComma) == Filter(g, NotComma)
  {
    FilterNone(",", NotComma);
    FilterConcat(g, ",", NotComma);
  }

  /** Dropping the commas of `g + "," + lo`, where lo has none, drops the separator and keeps lo. */
  lemma DropSeparator(g: string, lo: string)
    requires Filter(lo, NotComma) == lo
    ensures Filter(g + "," + lo, NotComma) == Filter(g, NotComma) + lo
  {
    DropTrailingComma(g);
    FilterConcat(g + ",", lo, NotComma);
  }

  /** Dropping the commas of a grouped digit string gives the digits back. */
  lemma {:induction false} UngroupGrouped(digits: string)
    requires AllDigits(digits)
    ensures Filter(Grouped(digits), NotComma) == digits
    decreases |digits|
  {
    if |digits| <= 3 {
      DigitsKept(digits);
    } else {
      var hi := digits[..|digits| - 3];
      var lo := digits[|digits| - 3..];
      assert AllDigits(hi) by {
        forall i | 0 <= i < |hi| ensures IsDigit(hi[i]) { assert hi[i] == digits[i]; }
      }
      assert AllDigits(lo) by {
        forall i | 0 <= i < |lo| ensures IsDigit(lo[i]) { assert lo[i] == digits[i + |hi|]; }
      }
      UngroupGrouped(hi);
      assert Grouped(digits) == Grouped(hi) + "," + lo;
      DigitsKept(lo);
      DropSeparator(Grouped(hi), lo);
      assert hi + lo == digits;
    }
  }

  /** The unsigned part of a USD label: a dollar sign, grouped whole dollars, a point and two cent digits. */
  function AmountLabel(cents: nat): (r: string)
    ensures |r| >= 5
  {
    "$" + Grouped(NatToString(cents / 100)) + "." + TwoDigits(cents % 100)
  }

  /** `Intl.NumberFormat('en-US', { style: 'currency', currency: 'USD' }).format(cents / 100)`: the amount label,
      behind a minus sign when negative. */
  function UsdLabel(cents: int): (r: string)
    ensures |r| >= 5
  {
    if cents < 0 then "-" + AmountLabel(-cents) else AmountLabel(cents)
  }

  /** Reads an amount label back into cents. */
  function ParseAmount(t: string): Option<nat> {
    if |t| < 5 || t[0] != '$' || t[|t| - 3] != '.' then None
    else
      var whole := Filter(t[1..|t| - 3], NotComma);
      var frac := t[|t| - 2..];
      if whole == [] || !AllDigits(whole) || !AllDigits(frac) then None
      else Some(DigitsValue(whole) * 100 + DigitsValue(frac))
  }

  /** Reads a USD label back into cents. */
  function ParseUsd(s: string): Option<int> {
    if |s| > 0 && s[0] == '-' then
      match ParseAmount(s[1..])
      case None => None
      case Some(v) => Some(-(v as int))
    else
      match ParseAmount(s)
      case None => None
      case Some(v) => Some(v as int)
  }

  /** The pieces of "$" + g + "." + f that ParseAmount looks at. */
  lemma LabelParts(g: string, f: string)
    requires |f| == 2
    ensures var t := "$" + g + "." + f;
      && |t| == |g| + 4 && t[0] == '$' && t[|t| - 3] == '.' && t[1..|t| - 3] == g && t[|t| - 2..] == f
  {
    var t := "$" + g + "." + f;
    assert t[1..|t| - 3] == g;
    assert t[|t| - 2..] == f;
  }

  /** A label whose grouped part ungroups to a digit string and whose cents are two digits parses to its value. */
  lemma ParseAmountOfParts(g: string, f: string, digits: string)
    requires |f| == 2 && AllDigits(f)
    requires digits != [] && AllDigits(digits) && Filter(g, NotComma) == digits
    ensures ParseAmount("$" + g + "." + f) == Some(DigitsValue(digits) * 100 + DigitsValue(f))
  {
    var t := "$" + g + "." + f;
    LabelParts(g, f);
    assert |g| >= |digits| >= 1;
    ParseAmountOfShape(t, digits, f);
  }

  /** ParseAmount on a label already known to have its dollar sign, dot and parts in place. */
  lemma ParseAmountOfShape(t: string, digits: string, f: string)
    requires |t| >= 5 && t[0] == '$' && t[|t| - 3] == '.'
    requires digits != [] && AllDigits(digits) && Filter(t[1..|t| - 3], NotComma) == digits
    requires t[|t| - 2..] == f && AllDigits(f)
    ensures ParseAmount(t) == Some(DigitsValue(digits) * 100 + DigitsValue(f))
  {
  }

  lemma AmountLabelRoundTrip(cents: nat)
    ensures ParseAmount(AmountLabel(cents)) == Some(cents)
  {
    var dollars := NatToString(cents / 100);
    var f := TwoDigits(cents % 100);
    UngroupGrouped(dollars);
    ParseAmountOfParts(Grouped(dollars), f, dollars);
    NatToStringRoundTrip(cents / 100);
    TwoDigitsRoundTrip(cents % 100);
    assert AmountLabel(cents) == "$" + Grouped(dollars) + "." + f;
  }

  /** A label read by ParseAmount reads the same through ParseUsd, and behind a minus sign as the negation. */
  lemma ParseUsdOfAmount(a: string, v: nat)
    requires ParseAmount(a) == Some(v)
    ensures ParseUsd(a) == Some(v as int)
    ensures ParseUsd("-" + a) == Some(-(v as int))
  {
    assert a[0] == '$';
    assert ("-" + a)[1..] == a;
  }

  /** Every amount can be read back from its label, so different amounts get different labels. */
  lemma UsdLabelRoundTrip(cents: int)
    ensures ParseUsd(UsdLabel(cents)) == Some(cents)
  {
    if cents < 0 {
      AmountLabelRoundTrip(-cents);
      ParseUsdOfAmount(AmountLabel(-cents), -cents);
    } else {
      AmountLabelRoundTrip(cents);
      ParseUsdOfAmount(AmountLabel(cents), cents);
    }
  }

  lemma UsdLabelInjective(a: int, b: int)
    requires UsdLabel(a) == UsdLabel(b)
    ensures a == b
  {
    UsdLabelRoundTrip(a);
    UsdLabelRoundTrip(b);
  }

  /** `formatPrice(cents, type)` */
  function FormatPrice(cents: int, kind: ListingType): (r: string)
    ensures kind == DONATION ==> r == "FREE"
    ensures kind == TRADE ==> r == "TRADE"
    ensures kind == SALE ==> r == UsdLabel(cents)
  {
    if kind == DONATION then "FREE"
    else if kind == TRADE then "TRADE"
    else UsdLabel(cents)
  }

  /** A sale label is never "FREE" or "TRADE", and it determines the amount. */
  lemma SaleLabelsAreAmounts(a: int, b: int)
    ensures FormatPrice(a, SALE) != "FREE" && FormatPrice(a, SALE) != "TRADE"
    ensures FormatPrice(a, SALE) == FormatPrice(b, SALE) ==> a == b
  {
    var r := UsdLabel(a);
    assert r[0] == '-' || r[0] == '$' by {
      if a < 0 { assert r == "-" + AmountLabel(-a); } else { assert r == AmountLabel(a); }
    }
    if FormatPrice(a, SALE) == FormatPrice(b, SALE) {
      UsdLabelInjective(a, b);
    }
  }

  const PicsumPrefix := "https://picsum.photos/seed/"
  const PicsumSuffix := "/400/400"

  /** `getPlaceholderImage(seed)`: the seed sits between a fixed prefix and a fixed suffix. */
  function PlaceholderImage(seed: string): (r: string)
    ensures |r| == |PicsumPrefix| + |seed| + |PicsumSuffix|
    ensures r[..|PicsumPrefix|] == PicsumPrefix && r[|r| - |PicsumSuffix|..] == PicsumSuffix
    ensures r[|PicsumPrefix|..|r| - |PicsumSuffix|] == seed
  {
    PicsumPrefix + seed + PicsumSuffix
  }

  /** Different seeds give different placeholder URLs. */
  lemma PlaceholderInjective(a: string, b: string)
    requires PlaceholderImage(a) == PlaceholderImage(b)
    ensures a == b
  {
    var r := PlaceholderImage(a);
    assert a == r[|PicsumPrefix|..|r| - |PicsumSuffix|];
  }

  /** `generateMockCircles()` */
  function MockCircles(): (r: seq<Circle>)
    ensures |r| == 4
    ensures forall i, j :: 0 <= i < j < |r| ==> r[i].id != r[j].id
    ensures r[0].id == "c1" && r[1].id == "c2" && r[2].id == "c3" && r[3].id == "c4"
  {
    [ Circle("c1", "Brooklyn, NY", "11201", ""),
      Circle("c2", "Florence, KY", "41042", ""),
      Circle("c3", "Cincinnati Downtown", "45202", ""),
      Circle("c4", "Hyde Park, OH", "45208", "") ]
  }

  /** `generateMockListings()`; the seller id is taken from the embedded seller object. The descriptions are
      written as concatenated phrases, which keeps the long literals cheap to reason about. */
  function MockListings(): seq<Listing> {
    [ Listing("1", "u1", "Wooden Chair",
              "Solid oak chair, " + "mid-century modern " + "style. " + "Great condition.",
              "Used - Good", 2500, SALE, Some("c1"), Some(0.8)),
      Listing("2", "u2", "Ceramic Vase",
              "Handmade ceramic vase. " + "White matte finish. " + "Moving out " + "so giving it away.",
              "Like New", 0, DONATION, Some("c1"), Some(1.2)),
      Listing("3", "current-user", "MCM Armchair",
              "Original 1960s " + "armchair. " + "Reupholstered " + "last year. " + "Super comfortable.",
              "Used - Good", 15000, SALE, Some("c2"), Some(2.5)),
      Listing("4", "current-user", "Floor Lamp",
              "Works perfectly " + "but I bought " + "a new one. " + "Pick up only.",
              "Used - Fair", 0, DONATION, Some("c2"), Some(0.5)),
      Listing("5", "u5", "Vintage Leather Jacket",
              "Classic brown " + "leather jacket " + "in great condition. " + "Shows some minor " + "signs of wear " +
              "which add to its " + "vintage character. " + "No tears " + "or major scuffs. " + "All zippers " +
              "and buttons " + "are functional. " + "Selling because " + "it no longer fits.",
              "Used - Good", 7500, SALE, Some("c3"), Some(3.0)),
      Listing("6", "u6", "Mountain Bike",
              "Trek Marlin 5. " + "Good condition, " + "just tuned up.",
              "Used - Good", 12000, SALE, Some("c4"), Some(1.5)) ]
  }

  /** Six listings with distinct ids; every donation is free and every listing has a distance and a circle. */
  lemma MockListingsFacts()
    ensures var r := MockListings();
      && |r| == 6
      && (forall i, j :: 0 <= i < j < |r| ==> r[i].id != r[j].id)
      && (forall i :: 0 <= i < |r| && r[i].kind == DONATION ==> r[i].priceCents == 0)
      && (forall i :: 0 <= i < |r| ==> r[i].priceCents >= 0 && r[i].distance.Some? && r[i].circleId.Some?)
  {
    var r := MockListings();
    forall i | 0 <= i < |r| ensures |r[i].id| == 1 && r[i].id[0] == DigitChar(i + 1) {
    }
    forall i, j | 0 <= i < j < |r| ensures r[i].id != r[j].id {
      assert r[i].id[0] != r[j].id[0];
    }
  }

  /** Every mock listing belongs to one of the mock circles. */
  lemma MockListingsInMockCircles()
    ensures forall i :: 0 <= i < |MockListings()| ==>
      exists j :: 0 <= j < |MockCircles()| && MockListings()[i].circleId == Some(MockCircles()[j].id)
  {
    var ls := MockListings();
    var cs := MockCircles();
    forall i | 0 <= i < |ls|
      ensures exists j :: 0 <= j < |cs| && ls[i].circleId == Some(cs[j].id)
    {
      var j := if i <= 1 then 0 else if i <= 3 then 1 else if i == 4 then 2 else 3;
      assert ls[i].circleId == Some(cs[j].id);
    }
  }
}
