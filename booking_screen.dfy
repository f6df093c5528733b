/** The smart-booking screen: two fixed catalogues (hotels near the Haram and
    transport options) narrowed by a price band and a rating band chosen from two
    drop-downs. Ratings are kept in tenths of a star (4.8 is 48), which is exact for
    every rating in the catalogues and for the thresholds 4.0 and 4.5. */
module Booking {
  import opened Seqs

  /** What a card shows beyond the common fields: a hotel's distance to the Haram
      and amenities, or a transport option's availability and vehicle type. */
  datatype Details =
    | HotelDetails(distance: string, amenities: seq<string>)
    | TransportDetails(duration: string, kind: string)

  /** One catalogue entry. */
  datatype Listing = Listing(
    id: nat,
    name: string,
    ratingTenths: nat,
    price: int,
    aiRecommended: bool,
    description: string,
    details: Details)

  const Hotels: seq<Listing> := [
    Listing(1, "Abraj Al Bait", 48, 250, true, "Luxury hotel with Kaaba view",
            HotelDetails("200m", ["Wifi", "AC", "Restaurant", "View"])),
    Listing(2, "Fairmont Makkah", 47, 180, true, "Modern comfort with premium service",
            HotelDetails("500m", ["Wifi", "Pool", "Spa", "Restaurant"])),
    Listing(3, "Raffles Makkah", 49, 320, false, "Ultra-luxury experience",
            HotelDetails("300m", ["Wifi", "Concierge", "Spa", "Fine Dining"]))
  ]

  const Transport: seq<Listing> := [
    Listing(1, "Private Car Service", 49, 150, true, "Comfortable private transport",
            TransportDetails("24/7 Available", "car")),
    Listing(2, "Shuttle Service", 45, 25, true, "Regular shuttle to Haram",
            TransportDetails("Every 15 mins", "bus")),
    Listing(3, "Premium Transfer", 48, 200, false, "Luxury vehicle service",
            TransportDetails("On-demand", "car"))
  ]

  /** The price test of `getFilteredItems`. Any value other than the four options
      accepts nothing. */
  predicate PriceMatch(priceRange: string, price: int) {
    || priceRange == "all"
    || (priceRange == "budget" && price <= 100)
    || (priceRange == "mid" && price > 100 && price <= 250)
    || (priceRange == "luxury" && price > 250)
  }

  /** The rating test of `getFilteredItems`, on tenths of a star. Any value other
      than the three options accepts nothing. */
  predicate RatingMatch(rating: string, tenths: int) {
    || rating == "all"
    || (rating == "4+" && tenths >= 40)
    || (rating == "4.5+" && tenths >= 45)
  }

  /** The callback passed to `filter`: both tests must pass. */
  function Keep(priceRange: string, rating: string): Listing -> bool {
    (item: Listing) => PriceMatch(priceRange, item.price) && RatingMatch(rating, item.ratingTenths)
  }

  /** `getFilteredItems`: `items.filter` with the callback above. */
  function GetFilteredItems(items: seq<Listing>, priceRange: string, rating: string): seq<Listing> {
    Filter(items, Keep(priceRange, rating))
  }

  /** The listings shown keep their catalogue order. */
  lemma ShownInCatalogueOrder(items: seq<Listing>, priceRange: string, rating: string)
    ensures IsSubsequence(GetFilteredItems(items, priceRange, rating), items)
  {
    FilterSubsequence(items, Keep(priceRange, rating));
  }

  /** A listing is shown exactly when it is in the catalogue and passes both the
      price test and the rating test. */
  lemma ShownIffBothMatch(items: seq<Listing>, priceRange: string, rating: string)
    ensures forall item :: item in GetFilteredItems(items, priceRange, rating) <==>
              item in items && PriceMatch(priceRange, item.price) && RatingMatch(rating, item.ratingTenths)
  {
    FilterMembers(items, Keep(priceRange, rating));
  }

  /** A listing that passes is shown as often as the catalogue holds it; one that
      fails, never. */
  lemma ShownAsOften(items: seq<Listing>, priceRange: string, rating: string)
    ensures forall item :: multiset(GetFilteredItems(items, priceRange, rating))[item] ==
              if PriceMatch(priceRange, item.price) && RatingMatch(rating, item.ratingTenths)
              then multiset(items)[item] else 0
  {
    FilterMultiplicity(items, Keep(priceRange, rating));
  }

  /** The three bounded price bands split the prices with no gap and no overlap:
      up to and including 100 is budget, above 100 up to and including 250 is mid,
      above 250 is luxury. */
  lemma PriceBandsPartition(price: int)
    ensures PriceMatch("budget", price) <==> price <= 100
    ensures PriceMatch("mid", price) <==> 100 < price <= 250
    ensures PriceMatch("luxury", price) <==> price > 250
    ensures (if PriceMatch("budget", price) then 1 else 0) + (if PriceMatch("mid", price) then 1 else 0)
            + (if PriceMatch("luxury", price) then 1 else 0) == 1
  {
  }

  /** Because the bands partition the prices, the three bounded price bands together
      show as many listings as "all" does, for any rating band. */
  lemma PriceBandCountsAddUp(items: seq<Listing>, rating: string)
    ensures |GetFilteredItems(items, "budget", rating)| + |GetFilteredItems(items, "mid", rating)|
            + |GetFilteredItems(items, "luxury", rating)| == |GetFilteredItems(items, "all", rating)|
  {
    FilterSplit3(items, Keep("all", rating), Keep("budget", rating), Keep("mid", rating), Keep("luxury", rating));
  }

  /** With both drop-downs on "all" every listing is shown, in order. */
  lemma AllShowsEverything(items: seq<Listing>)
    ensures GetFilteredItems(items, "all", "all") == items
  {
    FilterAll(items, Keep("all", "all"));
  }

  /** A band value that is not one of the drop-down's options shows nothing. */
  lemma UnknownBandShowsNothing(items: seq<Listing>, priceRange: string, rating: string)
    requires || (priceRange != "all" && priceRange != "budget" && priceRange != "mid" && priceRange != "luxury")
             || (rating != "all" && rating != "4+" && rating != "4.5+")
    ensures GetFilteredItems(items, priceRange, rating) == []
  {
    FilterNone(items, Keep(priceRange, rating));
  }

  /** "4.5+" shows some of the listings "4+" shows, in the same order, for any price
      band. */
  lemma HigherRatingShowsFewer(items: seq<Listing>, priceRange: string)
    ensures IsSubsequence(GetFilteredItems(items, priceRange, "4.5+"), GetFilteredItems(items, priceRange, "4+"))
  {
    FilterStricter(items, Keep(priceRange, "4.5+"), Keep(priceRange, "4+"));
  }

  /** Applying the same filter to what is already shown changes nothing. */
  lemma FilterTwiceIsOnce(items: seq<Listing>, priceRange: string, rating: string)
    ensures GetFilteredItems(GetFilteredItems(items, priceRange, rating), priceRange, rating)
            == GetFilteredItems(items, priceRange, rating)
  {
    FilterIdempotent(items, Keep(priceRange, rating));
  }

  /** A catalogue without repeated entries shows none twice. */
  lemma NoListingShownTwice(items: seq<Listing>, priceRange: string, rating: string)
    requires NoDuplicates(items)
    ensures NoDuplicates(GetFilteredItems(items, priceRange, rating))
  {
    FilterNoDuplicates(items, Keep(priceRange, rating));
  }

  /** Budget prices with a 4.5 rating: a 100 SAR item rated 4.0 fails the rating
      test and a 101 SAR item rated 4.6 fails the price test, so nothing is shown. */
  lemma BudgetTopRatedExample(a: Listing, b: Listing)
    requires a.price == 100 && a.ratingTenths == 40
    requires b.price == 101 && b.ratingTenths == 46
    ensures GetFilteredItems([a, b], "budget", "4.5+") == []
  {
    FilterNone([a, b], Keep("budget", "4.5+"));
  }

  /** The "available" badge of the hotels tab under a few settings: the luxury band
      leaves only Raffles Makkah, the budget band no hotel, and the mid band with
      "4.5+" the other two. */
  lemma AvailableHotels()
    ensures GetFilteredItems(Hotels, "luxury", "all") == [Hotels[2]]
    ensures GetFilteredItems(Hotels, "budget", "all") == []
    ensures GetFilteredItems(Hotels, "mid", "4.5+") == [Hotels[0], Hotels[1]]
  {
    assert Hotels == [Hotels[0], Hotels[1], Hotels[2]];
    FilterThree(Hotels[0], Hotels[1], Hotels[2], Keep("luxury", "all"));
    FilterThree(Hotels[0], Hotels[1], Hotels[2], Keep("budget", "all"));
    FilterThree(Hotels[0], Hotels[1], Hotels[2], Keep("mid", "4.5+"));
  }

  /** The "available" badge of the transport tab under a few settings: the budget
      band leaves only the shuttle, the luxury band nothing, and "4.5+" all three. */
  lemma AvailableTransport()
    ensures GetFilteredItems(Transport, "budget", "all") == [Transport[1]]
    ensures GetFilteredItems(Transport, "luxury", "all") == []
    ensures GetFilteredItems(Transport, "all", "4.5+") == Transport
  {
    assert Transport == [Transport[0], Transport[1], Transport[2]];
    FilterThree(Transport[0], Transport[1], Transport[2], Keep("budget", "all"));
    FilterThree(Transport[0], Transport[1], Transport[2], Keep("luxury", "all"));
    FilterThree(Transport[0], Transport[1], Transport[2], Keep("all", "4.5+"));
  }
}
