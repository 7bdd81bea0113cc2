/**
 * The map screen (src/components/MapView.tsx), without its geometry: the
 * access-token gate, where the user is taken to be, which listings count as
 * nearby, and the marker list redrawn from them. Distances are inputs: the
 * screen draws them at random around the user on every pass.
 */
module MapView {
  import opened Optional
  import opened Seqs
  import SearchBooks

  type Listing = SearchBooks.Listing

  datatype Coord = Coord(lat: real, lng: real)

  /** Where the map centres when the device cannot say where the user is (New York). */
  const Fallback: Coord := Coord(40.7128, -74.0060)

  /** How a geolocation request ended. */
  datatype GeoOutcome = Unsupported | Failed | Located(position: Coord)

  /** The location `getUserLocation` records for each outcome. */
  function ResolveLocation(outcome: GeoOutcome): (c: Coord)
    ensures outcome.Located? ==> c == outcome.position
    ensures !outcome.Located? ==> c == Fallback
  {
    if outcome.Located? then outcome.position else Fallback
  }

  /** The listings whose sampled distance is within the radius, in order. */
  function WithinRadius(books: seq<Listing>, distances: seq<real>, radius: real): (r: seq<Listing>)
    requires |distances| == |books|
    ensures |r| <= |books|
  {
    if books == [] then []
    else (if distances[0] <= radius then [books[0]] else []) + WithinRadius(books[1..], distances[1..], radius)
  }

  /** `getNearbyBooks`, with the distance drawn for each listing given. */
  function NearbyBooks(books: seq<Listing>, userLocation: Option<Coord>, radius: real, distances: seq<real>): seq<Listing>
    requires |distances| == |books|
  {
    if userLocation.None? then books else WithinRadius(books, distances, radius)
  }

  /** Before the user's location is known every listing counts as nearby. */
  lemma NoLocationKeepsAll(books: seq<Listing>, radius: real, distances: seq<real>)
    requires |distances| == |books|
    ensures NearbyBooks(books, None, radius, distances) == books
  {
  }

  /**
   * The nearby listings are loaded listings in their order, and a listing is
   * nearby exactly when one of its occurrences drew a distance within the radius.
   */
  lemma {:induction false} WithinRadiusSpec(books: seq<Listing>, distances: seq<real>, radius: real, b: Listing)
    requires |distances| == |books|
    ensures IsSubsequence(WithinRadius(books, distances, radius), books)
    ensures b in WithinRadius(books, distances, radius) <==>
      exists i :: 0 <= i < |books| && books[i] == b && distances[i] <= radius
    decreases |books|
  {
    if books != [] {
      var rest := WithinRadius(books[1..], distances[1..], radius);
      WithinRadiusSpec(books[1..], distances[1..], radius, b);
      if distances[0] <= radius {
        assert WithinRadius(books, distances, radius)[1..] == rest;
      } else {
        assert WithinRadius(books, distances, radius) == rest;
        SubsequenceWeaken(rest, books[1..], books[0]);
        assert [books[0]] + books[1..] == books;
      }
      if exists i :: 0 <= i < |books| && books[i] == b && distances[i] <= radius {
        var i :| 0 <= i < |books| && books[i] == b && distances[i] <= radius;
        if i > 0 {
          assert books[1..][i - 1] == b && distances[1..][i - 1] <= radius;
        }
      }
      if exists i :: 0 <= i < |books[1..]| && books[1..][i] == b && distances[1..][i] <= radius {
        var i :| 0 <= i < |books[1..]| && books[1..][i] == b && distances[1..][i] <= radius;
        assert books[i + 1] == b && distances[i + 1] <= radius;
      }
    }
  }

  /** Widening the radius never loses a nearby listing. */
  lemma {:induction false} WiderRadiusKeepsMore(books: seq<Listing>, distances: seq<real>, r1: real, r2: real)
    requires |distances| == |books| && r1 <= r2
    ensures IsSubsequence(WithinRadius(books, distances, r1), WithinRadius(books, distances, r2))
    decreases |books|
  {
    if books != [] {
      WiderRadiusKeepsMore(books[1..], distances[1..], r1, r2);
      var a, b := WithinRadius(books[1..], distances[1..], r1), WithinRadius(books[1..], distances[1..], r2);
      if distances[0] <= r1 {
        assert ([books[0]] + a)[1..] == a && ([books[0]] + b)[1..] == b;
      } else if distances[0] <= r2 {
        assert WithinRadius(books, distances, r1) == a;
        assert WithinRadius(books, distances, r2) == [books[0]] + b;
        SubsequenceWeaken(a, b, books[0]);
      } else {
        assert WithinRadius(books, distances, r1) == a && WithinRadius(books, distances, r2) == b;
      }
    }
  }

  /** The marker's background colour: free green, exchange blue, anything else amber. */
  function MarkerColor(listingType: string): string {
    if listingType == "free" then "#10b981" else if listingType == "exchange" then "#3b82f6" else "#f59e0b"
  }

  /**
   * `getListingTypeIcon`: the text drawn inside a marker. Apart from "$", the
   * literals are kept exactly as the file spells them: arrow, star and book
   * glyphs whose UTF-8 bytes were re-read as Mac Roman, and the app shows them
   * that way.
   */
  function ListingTypeIcon(listingType: string): string {
    match listingType
    case "sell" => "$"
    case "exchange" => ExchangeIcon
    case "free" => FreeIcon
    case _ => DefaultIcon
  }

  const ExchangeIcon: string := "\U{201A}\U{00DC}\U{00EE}"
  const FreeIcon: string := "\U{201A}\U{00F2}\U{00D6}"
  const DefaultIcon: string := "\U{F8FF}\U{00FC}\U{00EC}\U{00F1}"

  /** Sell and unknown types share the amber marker; the three known types get distinct glyphs, and any other type the default one. */
  lemma MarkerStyles(t: string)
    ensures MarkerColor(t) == "#f59e0b" <==> t != "free" && t != "exchange"
    ensures ListingTypeIcon("sell") != ListingTypeIcon("exchange") && ListingTypeIcon("exchange") != ListingTypeIcon("free")
    ensures ListingTypeIcon("free") != ListingTypeIcon("sell")
    ensures t !in SearchBooks.ListingTypes ==> ListingTypeIcon(t) == DefaultIcon && ListingTypeIcon(t) !in {"$", ExchangeIcon, FreeIcon}
  {
    assert ExchangeIcon[1] != FreeIcon[1];
  }

  /**
   * What a marker on the map carries: its style and its popup's title, author,
   * condition, price label and location (its position and the popup's distance
   * are drawn at random and not kept).
   */
  datatype Marker = Marker(bookId: string, color: string, glyph: string, title: string, author: string,
                           condition: string, priceLabel: string, location: string)

  function MarkerFor(b: Listing): Marker {
    Marker(b.id, MarkerColor(b.listingType), ListingTypeIcon(b.listingType), b.title, b.author,
           b.condition, SearchBooks.FormatPrice(b.price, b.listingType), b.location)
  }

  /** The map screen's state. `mapCreated` stands for `mapRef.current` being set. */
  class MapScreen {
    var books: seq<Listing>
    var userLocation: Option<Coord>
    var searchRadius: int
    var mapboxToken: string
    var showTokenInput: bool
    var isLoading: bool
    var mapCreated: bool
    var markers: seq<Marker>
    /** How many times a map object has been constructed. */
    ghost var mapsConstructed: nat

    ghost predicate Valid()
      reads this
    {
      && 1 <= searchRadius <= 50
      && mapsConstructed == (if mapCreated then 1 else 0)
      && (mapCreated ==> mapboxToken != "" && userLocation.Some?)
    }

    constructor ()
      ensures Valid() && books == [] && userLocation == None && searchRadius == 5
      ensures mapboxToken == "" && showTokenInput && isLoading && !mapCreated && markers == []
    {
      books, userLocation, searchRadius := [], None, 5;
      mapboxToken, showTokenInput, isLoading := "", true, true;
      mapCreated, markers := false, [];
      mapsConstructed := 0;
    }

    /** Typing into the token box. */
    method SetToken(token: string)
      requires Valid() && !mapCreated
      modifies this`mapboxToken
      ensures Valid() && mapboxToken == token
    {
      mapboxToken := token;
    }

    /** `fetchBooks` finished: the rows on success; on failure the list stays as it was. */
    method FetchCompleted(result: Option<seq<Listing>>)
      requires Valid()
      modifies this`books, this`isLoading
      ensures Valid() && !isLoading
      ensures books == if result.Some? then result.value else old(books)
    {
      if result.Some? {
        books := result.value;
      }
      isLoading := false;
    }

    /** `getUserLocation`: the device's position, or the fallback when it is unavailable or refused. */
    method GetUserLocation(outcome: GeoOutcome)
      requires Valid()
      modifies this`userLocation
      ensures Valid() && userLocation == Some(ResolveLocation(outcome))
    {
      match outcome
      case Located(position) =>
        userLocation := Some(position);
      case Failed =>
        userLocation := Some(Fallback);
      case Unsupported =>
        userLocation := Some(Fallback);
    }

    /**
     * `handleTokenSubmit`: with no token the setup screen stays and no location
     * is requested; with one the setup screen closes and the location is
     * requested. The request only starts here: its answer arrives later, if at
     * all, through `GetUserLocation`, so the location is still what it was.
     */
    method SubmitToken() returns (requested: bool)
      requires Valid() && !isLoading
      modifies this`showTokenInput
      ensures Valid()
      ensures requested <==> mapboxToken != ""
      ensures showTokenInput == (old(showTokenInput) && !requested)
      ensures userLocation == old(userLocation)
    {
      if mapboxToken == "" {
        return false;
      }
      showTokenInput := false;
      requested := true;
    }

    /**
     * The map's container is rendered only once loading is over and the
     * setup screen is gone; before that the page returns early.
     */
    predicate ContainerMounted()
      reads this
    {
      !isLoading && !showTokenInput
    }

    /**
     * The effect that creates the map: it fires only with a token, a location,
     * a mounted container and no map yet, so at most one map is ever built.
     */
    method InitializeMapIfReady()
      requires Valid()
      modifies this`mapCreated, this`mapsConstructed
      ensures Valid() && mapsConstructed <= 1
      ensures mapCreated <==> old(mapCreated) || (mapboxToken != "" && userLocation.Some? && ContainerMounted())
      ensures old(mapCreated) ==> mapsConstructed == old(mapsConstructed)
    {
      if mapboxToken != "" && userLocation.Some? && ContainerMounted() && !mapCreated {
        mapCreated := true;
        mapsConstructed := mapsConstructed + 1;
      }
    }

    /** Moving the radius slider (1 to 50 km in steps of 1). */
    method SetRadius(km: int)
      requires Valid() && 1 <= km <= 50
      modifies this`searchRadius
      ensures Valid() && searchRadius == km
    {
      searchRadius := km;
    }

    /**
     * `updateMapMarkers`, with the distances drawn on this pass given: with a
     * map and a location, the old markers are dropped and one marker is placed
     * per nearby listing, in order; otherwise nothing changes.
     */
    method UpdateMapMarkers(distances: seq<real>)
      requires Valid() && |distances| == |books|
      modifies this`markers
      ensures Valid()
      ensures !mapCreated || userLocation.None? ==> markers == old(markers)
      ensures mapCreated && userLocation.Some? ==>
        var nearby := NearbyBooks(books, userLocation, searchRadius as real, distances);
        |markers| == |nearby| && forall i :: 0 <= i < |nearby| ==> markers[i] == MarkerFor(nearby[i])
    {
      if !mapCreated || userLocation.None? {
        return;
      }
      markers := [];
      var nearby := NearbyBooks(books, userLocation, searchRadius as real, distances);
      var i := 0;
      while i < |nearby|
        invariant 0 <= i <= |nearby| && |markers| == i
        invariant forall j :: 0 <= j < i ==> markers[j] == MarkerFor(nearby[j])
      {
        markers := markers + [MarkerFor(nearby[i])];
        i := i + 1;
      }
    }

    /**
     * The effect that redraws the markers when the listings, the radius or the
     * location change: it runs `updateMapMarkers` only when some listing is loaded.
     */
    method RefreshMarkers(distances: seq<real>)
      requires Valid() && |distances| == |books|
      modifies this`markers
      ensures Valid()
      ensures books == [] ==> markers == old(markers)
      ensures books != [] && mapCreated && userLocation.Some? ==>
        var nearby := NearbyBooks(books, userLocation, searchRadius as real, distances);
        |markers| == |nearby| && forall i :: 0 <= i < |nearby| ==> markers[i] == MarkerFor(nearby[i])
    {
      if |books| > 0 {
        UpdateMapMarkers(distances);
      }
    }
  }

  /**
   * The listings have loaded and a token is submitted, so the map container
   * is mounted, but the location
   * request has not been answered (and may never be): the setup screen is
   * gone, no location is known and the map-building effect builds nothing.
   */
  method SubmitBeforeLocationArrives() returns (screen: MapScreen)
    ensures screen.Valid() && !screen.showTokenInput
    ensures screen.userLocation == None && !screen.mapCreated && screen.mapsConstructed == 0
  {
    screen := new MapScreen();
    screen.SetToken("pk.token");
    screen.FetchCompleted(None);
    var requested := screen.SubmitToken();
    screen.InitializeMapIfReady();
  }
}
