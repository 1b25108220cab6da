/** The server's state and request handlers.  `Database` holds the four tables
    the pg client talks to (and the serial counter behind `locations.id`).  Its
    `Save*` methods are the `save` functions of server.js and state the row they
    append; its `Fetch*` and `Get*` methods are the `fetch*` and `get*`
    functions, with the `lookup*` query and hit/miss dispatch inlined into
    `Get*`, and each is proved to agree with a function of module ReadThrough.
    Every upstream API call is a parameter: the item list its response held,
    or `Unreachable`. */
module Server {
  import opened Records
  import opened Tables
  import opened ReadThrough

  class Database {
    var locations: seq<LocationRow>
    var nextId: int
    var weathers: seq<Row<Weather>>
    var restaurants: seq<Row<Restaurant>>
    var movies: seq<Row<Movie>>

    ghost predicate Valid()
      reads this
    {
      Consistent(locations, nextId)
    }

    /** Every child row refers to a stored location. */
    ghost predicate ReferencesValid()
      reads this
    {
      && ReferencesStored(weathers, locations)
      && ReferencesStored(restaurants, locations)
      && ReferencesStored(movies, locations)
    }

    /** Empty tables; the serial sequence starts at 1. */
    constructor ()
      ensures Valid() && ReferencesValid()
      ensures locations == [] && nextId == 1
      ensures weathers == [] && restaurants == [] && movies == []
    {
      locations, nextId := [], 1;
      weathers, restaurants, movies := [], [], [];
    }

    // ---- Location ----

    /** `Location.prototype.save`: INSERT ... RETURNING id. */
    method SaveLocation(location: Location) returns (id: int)
      modifies this
      ensures id == old(nextId) && nextId == old(nextId) + 1
      ensures locations == old(locations) + [LocationRow(id, location)]
      ensures weathers == old(weathers) && restaurants == old(restaurants) && movies == old(movies)
    {
      id := nextId;
      locations := locations + [LocationRow(id, location)];
      nextId := nextId + 1;
    }

    /** `Location.fetchLocation`; the returned row is the location object after
        `location.id` was set from the insert. */
    method FetchLocation(query: string, geocode: Fetch<GeocodeResult>) returns (reply: LocationReply)
      modifies this
      ensures var step := ReadThrough.FetchLocation(old(locations), old(nextId), query, geocode);
              locations == step.locations && nextId == step.nextId && reply == step.reply
      ensures weathers == old(weathers) && restaurants == old(restaurants) && movies == old(movies)
    {
      match geocode
      case Unreachable =>
        reply := LocationFailed(UpstreamUnreachable);
      case Received(results) =>
        if |results| == 0 {
          reply := LocationFailed(NoData);
        } else {
          var location := LocationOf(query, results[0]);
          var id := SaveLocation(location);
          reply := GeocodedLocation(LocationRow(id, location));
        }
    }

    /** `getLocation` through `Location.lookupLocation`. */
    method GetLocation(query: string, geocode: Fetch<GeocodeResult>) returns (reply: LocationReply)
      requires Valid()
      modifies this
      ensures Valid()
      ensures var step := ServeLocation(old(locations), old(nextId), query, geocode);
              locations == step.locations && nextId == step.nextId && reply == step.reply
      ensures weathers == old(weathers) && restaurants == old(restaurants) && movies == old(movies)
      ensures old(ReferencesValid()) ==> ReferencesValid()
    {
      ServeLocationPreserves(locations, nextId, query, geocode);
      var cached := WithQuery(locations, query);
      if |cached| > 0 {
        reply := CachedLocation(cached[0]);
      } else {
        reply := FetchLocation(query, geocode);
      }
    }

    // ---- Weather ----

    /** `Weather.prototype.save`. */
    method SaveWeather(weather: Weather, id: int)
      modifies this
      ensures weathers == old(weathers) + [Row(weather, id)]
      ensures locations == old(locations) && nextId == old(nextId)
      ensures restaurants == old(restaurants) && movies == old(movies)
    {
      weathers := weathers + [Row(weather, id)];
    }

    /** `Weather.fetchWeather`: the `map` over `daily.data`, saving each record. */
    method FetchWeather(location: LocationRow, upstream: Fetch<DailyForecast>, toDateString: int -> string)
      returns (reply: ListReply<Weather>)
      modifies this
      ensures var step := FetchChild(old(weathers), location.id, upstream, WeatherNormaliser(toDateString));
              weathers == step.rows && reply == step.reply
      ensures locations == old(locations) && nextId == old(nextId)
      ensures restaurants == old(restaurants) && movies == old(movies)
    {
      if upstream.Unreachable? {
        return ListFailed(UpstreamUnreachable);
      }
      var days := upstream.items;
      var summaries: seq<Weather> := [];
      var i := 0;
      while i < |days|
        invariant 0 <= i <= |days|
        invariant |summaries| == i
        invariant forall k :: 0 <= k < i ==> summaries[k] == WeatherOf(days[k], toDateString)
        invariant weathers == old(weathers) + Tagged(summaries, location.id)
        invariant locations == old(locations) && nextId == old(nextId)
        invariant restaurants == old(restaurants) && movies == old(movies)
      {
        var summary := WeatherOf(days[i], toDateString);
        SaveWeather(summary, location.id);
        TaggedSnoc(summaries, summary, location.id);
        summaries := summaries + [summary];
        i := i + 1;
      }
      assert summaries == MapAll(days, WeatherNormaliser(toDateString));
      reply := FetchedRecords(summaries);
    }

    /** `getWeather` through `Weather.lookupWeather`. */
    method GetWeather(location: LocationRow, upstream: Fetch<DailyForecast>, toDateString: int -> string)
      returns (reply: ListReply<Weather>)
      modifies this
      ensures var step := ServeChild(old(weathers), location.id, upstream, WeatherNormaliser(toDateString));
              weathers == step.rows && reply == step.reply
      ensures locations == old(locations) && nextId == old(nextId)
      ensures restaurants == old(restaurants) && movies == old(movies)
      ensures old(ReferencesValid()) && location.id in Ids(locations) ==> ReferencesValid()
    {
      if ReferencesValid() && location.id in Ids(locations) {
        ServeChildReferencesStored(weathers, location, upstream, WeatherNormaliser(toDateString), locations);
      }
      var cached := OwnedBy(weathers, location.id);
      if |cached| > 0 {
        reply := CachedRows(cached);
      } else {
        reply := FetchWeather(location, upstream, toDateString);
      }
    }

    // ---- Restaurant ----

    /** `Restaurant.prototype.save`. */
    method SaveRestaurant(restaurant: Restaurant, id: int)
      modifies this
      ensures restaurants == old(restaurants) + [Row(restaurant, id)]
      ensures locations == old(locations) && nextId == old(nextId)
      ensures weathers == old(weathers) && movies == old(movies)
    {
      restaurants := restaurants + [Row(restaurant, id)];
    }

    /** `Restaurant.fetchRestaurant`: the `map` over `businesses`, saving each record. */
    method FetchRestaurant(location: LocationRow, upstream: Fetch<Business>)
      returns (reply: ListReply<Restaurant>)
      modifies this
      ensures var step := FetchChild(old(restaurants), location.id, upstream, RestaurantOf);
              restaurants == step.rows && reply == step.reply
      ensures locations == old(locations) && nextId == old(nextId)
      ensures weathers == old(weathers) && movies == old(movies)
    {
      if upstream.Unreachable? {
        return ListFailed(UpstreamUnreachable);
      }
      var places := upstream.items;
      var businesses: seq<Restaurant> := [];
      var i := 0;
      while i < |places|
        invariant 0 <= i <= |places|
        invariant |businesses| == i
        invariant forall k :: 0 <= k < i ==> businesses[k] == RestaurantOf(places[k])
        invariant restaurants == old(restaurants) + Tagged(businesses, location.id)
        invariant locations == old(locations) && nextId == old(nextId)
        invariant weathers == old(weathers) && movies == old(movies)
      {
        var business := RestaurantOf(places[i]);
        SaveRestaurant(business, location.id);
        TaggedSnoc(businesses, business, location.id);
        businesses := businesses + [business];
        i := i + 1;
      }
      assert businesses == MapAll(places, RestaurantOf);
      reply := FetchedRecords(businesses);
    }

    /** `getRestaurants` through `Restaurant.lookupRestaurant`. */
    method GetRestaurants(location: LocationRow, upstream: Fetch<Business>)
      returns (reply: ListReply<Restaurant>)
      modifies this
      ensures var step := ServeChild(old(restaurants), location.id, upstream, RestaurantOf);
              restaurants == step.rows && reply == step.reply
      ensures locations == old(locations) && nextId == old(nextId)
      ensures weathers == old(weathers) && movies == old(movies)
      ensures old(ReferencesValid()) && location.id in Ids(locations) ==> ReferencesValid()
    {
      if ReferencesValid() && location.id in Ids(locations) {
        ServeChildReferencesStored(restaurants, location, upstream, RestaurantOf, locations);
      }
      var cached := OwnedBy(restaurants, location.id);
      if |cached| > 0 {
        reply := CachedRows(cached);
      } else {
        reply := FetchRestaurant(location, upstream);
      }
    }

    // ---- Movie ----

    /** `Movie.prototype.save`. */
    method SaveMovie(movie: Movie, id: int)
      modifies this
      ensures movies == old(movies) + [Row(movie, id)]
      ensures locations == old(locations) && nextId == old(nextId)
      ensures weathers == old(weathers) && restaurants == old(restaurants)
    {
      movies := movies + [Row(movie, id)];
    }

    /** `Movie.fetchMovies`: the `map` over `results`, saving each record. */
    method FetchMovies(location: LocationRow, upstream: Fetch<MovieResult>)
      returns (reply: ListReply<Movie>)
      modifies this
      ensures var step := FetchChild(old(movies), location.id, upstream, MovieOf);
              movies == step.rows && reply == step.reply
      ensures locations == old(locations) && nextId == old(nextId)
      ensures weathers == old(weathers) && restaurants == old(restaurants)
    {
      if upstream.Unreachable? {
        return ListFailed(UpstreamUnreachable);
      }
      var results := upstream.items;
      var movieData: seq<Movie> := [];
      var i := 0;
      while i < |results|
        invariant 0 <= i <= |results|
        invariant |movieData| == i
        invariant forall k :: 0 <= k < i ==> movieData[k] == MovieOf(results[k])
        invariant movies == old(movies) + Tagged(movieData, location.id)
        invariant locations == old(locations) && nextId == old(nextId)
        invariant weathers == old(weathers) && restaurants == old(restaurants)
      {
        var movie := MovieOf(results[i]);
        SaveMovie(movie, location.id);
        TaggedSnoc(movieData, movie, location.id);
        movieData := movieData + [movie];
        i := i + 1;
      }
      assert movieData == MapAll(results, MovieOf);
      reply := FetchedRecords(movieData);
    }

    /** `getMovies` through `Movie.lookupMovies`. */
    method GetMovies(location: LocationRow, upstream: Fetch<MovieResult>)
      returns (reply: ListReply<Movie>)
      modifies this
      ensures var step := ServeChild(old(movies), location.id, upstream, MovieOf);
              movies == step.rows && reply == step.reply
      ensures locations == old(locations) && nextId == old(nextId)
      ensures weathers == old(weathers) && restaurants == old(restaurants)
      ensures old(ReferencesValid()) && location.id in Ids(locations) ==> ReferencesValid()
    {
      if ReferencesValid() && location.id in Ids(locations) {
        ServeChildReferencesStored(movies, location, upstream, MovieOf, locations);
      }
      var cached := OwnedBy(movies, location.id);
      if |cached| > 0 {
        reply := CachedRows(cached);
      } else {
        reply := FetchMovies(location, upstream);
      }
    }
  }

  /** A session following the handlers' contracts: a first location request for
      "98005" geocodes and stores the location with id 1; its first weather
      request fetches and stores one row per day; the next weather request and
      the next location request are served from the tables. */
  method ExampleSession(result: GeocodeResult, days: seq<DailyForecast>, toDateString: int -> string,
                        later: Fetch<DailyForecast>)
    requires |days| > 0
  {
    var db := new Database();
    var first := db.GetLocation("98005", Received([result]));
    assert first == GeocodedLocation(LocationRow(1, LocationOf("98005", result)));
    var location := first.row;

    var weather := db.GetWeather(location, Received(days), toDateString);
    assert weather.FetchedRecords? && |weather.records| == |days|;
    assert db.weathers == Tagged(weather.records, 1);

    ChildMissThenHit([], 1, days, WeatherNormaliser(toDateString), later, 2);
    var again := db.GetWeather(location, later, toDateString);
    assert again == CachedRows(Tagged(weather.records, 1));

    LocationMissThenHit([], 1, "98005", [result], Unreachable, "");
    var cachedLocation := db.GetLocation("98005", Unreachable);
    assert cachedLocation == CachedLocation(location);
  }
}
