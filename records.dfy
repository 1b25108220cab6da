/** The four record kinds the server caches, the shapes of the upstream API items
    they are built from, and the normalisers (the `Location`, `Weather`,
    `Restaurant` and `Movie` constructors of server.js).

    Field names are the JSON keys of the upstream APIs and the column names of the
    database tables, so they keep their snake_case spelling.  Latitudes,
    longitudes, ratings, vote averages and popularity are JavaScript numbers on
    which no arithmetic is done; they are carried as opaque `real` values. */
module Records {

  datatype Option<T> = None | Some(value: T)

  /** A JSON value as a template literal sees it: a string, `null`, or a missing
      key (`undefined`). */
  datatype JsText = Text(text: string) | Null | Undefined

  /** What `${v}` inserts into a template literal. */
  function Interpolate(v: JsText): string
  {
    match v
    case Text(s) => s
    case Null => "null"
    case Undefined => "undefined"
  }

  // ---- Upstream items: only the fields the normalisers read ----

  /** `geometry.location` of a geocoder result. */
  datatype LatLng = LatLng(lat: real, lng: real)
  datatype Geometry = Geometry(location: LatLng)
  /** One element of the geocoder's `results` array. */
  datatype GeocodeResult = GeocodeResult(formatted_address: string, geometry: Geometry)

  /** One element of the weather API's `daily.data` array; `time` is a Unix time in seconds. */
  datatype DailyForecast = DailyForecast(summary: string, time: int)

  /** One element of the business search's `businesses` array. */
  datatype Business = Business(name: string, image_url: string, price: string, rating: real, url: string)

  /** One element of the movie search's `results` array. */
  datatype MovieResult = MovieResult(title: string, overview: string, vote_average: real,
                                     vote_count: int, poster_path: JsText, popularity: real,
                                     release_date: string)

  // ---- Records, fields in the order `Object.values` lists them ----

  datatype Location = Location(search_query: string, formatted_query: string, latitude: real, longitude: real)
  datatype Weather = Weather(forecast: string, time: string)
  datatype Restaurant = Restaurant(name: string, image_url: string, price: string, rating: real, url: string)
  datatype Movie = Movie(title: string, overview: string, average_votes: real, total_votes: int,
                         image_url: string, popularity: real, released_on: string)

  // ---- Normalisers ----

  /** `new Location(query, data)`: the query text becomes the cache key. */
  function LocationOf(query: string, data: GeocodeResult): Location
  {
    Location(query, data.formatted_address, data.geometry.location.lat, data.geometry.location.lng)
  }

  /** `new Weather(day)`.  `toDateString(ms)` stands for
      `new Date(ms).toDateString()`, a library call outside this model; the
      normaliser converts the Unix time from seconds to milliseconds first. */
  function WeatherOf(day: DailyForecast, toDateString: int -> string): Weather
  {
    Weather(day.summary, toDateString(day.time * 1000))
  }

  /** `WeatherOf` with the date formatter fixed, as a value to map over a list. */
  function WeatherNormaliser(toDateString: int -> string): DailyForecast -> Weather
  {
    day => WeatherOf(day, toDateString)
  }

  /** `new Restaurant(business)`. */
  function RestaurantOf(business: Business): Restaurant
  {
    Restaurant(business.name, business.image_url, business.price, business.rating, business.url)
  }

  /** The fixed image prefix the movie normaliser puts before `poster_path`. */
  const PosterBase: string := "https://image.tmdb.org/t/p/w200_and_h300_bestv2/"

  /** `new Movie(data)`. */
  function MovieOf(data: MovieResult): Movie
  {
    Movie(data.title, data.overview, data.vote_average, data.vote_count,
          PosterBase + Interpolate(data.poster_path), data.popularity, data.release_date)
  }

  // ---- Partners of the normalisers ----

  /** The business item a restaurant record was built from. */
  function BusinessOf(r: Restaurant): Business
  {
    Business(r.name, r.image_url, r.price, r.rating, r.url)
  }

  /** The text after `PosterBase` in a movie's `image_url`; `None` when the URL
      does not have that prefix. */
  function PosterPathOf(image_url: string): (p: Option<string>)
    ensures p.Some? ==> image_url == PosterBase + p.value
    ensures p.None? <==> !(|PosterBase| <= |image_url| && image_url[..|PosterBase|] == PosterBase)
  {
    if |PosterBase| <= |image_url| && image_url[..|PosterBase|] == PosterBase
    then Some(image_url[|PosterBase|..])
    else None
  }

  /** The location record keeps the query as its key and copies the first
      result's address and coordinates. */
  lemma LocationOfFields(query: string, data: GeocodeResult)
    ensures LocationOf(query, data).search_query == query
    ensures LocationOf(query, data).formatted_query == data.formatted_address
    ensures LocationOf(query, data).latitude == data.geometry.location.lat
    ensures LocationOf(query, data).longitude == data.geometry.location.lng
  {
  }

  /** The weather record's forecast is the day's summary and its time is the
      formatted date of the day's Unix time, converted to milliseconds. */
  lemma WeatherOfFields(day: DailyForecast, toDateString: int -> string)
    ensures WeatherOf(day, toDateString).forecast == day.summary
    ensures WeatherOf(day, toDateString).time == toDateString(day.time * 1000)
    ensures WeatherNormaliser(toDateString)(day) == WeatherOf(day, toDateString)
  {
  }

  /** The restaurant normaliser loses nothing: it and `BusinessOf` are inverse. */
  lemma RestaurantOfLossless(b: Business, r: Restaurant)
    ensures BusinessOf(RestaurantOf(b)) == b
    ensures RestaurantOf(BusinessOf(r)) == r
  {
  }

  /** The movie normaliser renames the vote and release fields, copies the rest,
      and the poster path can be read back from `image_url`. */
  lemma MovieOfFields(data: MovieResult)
    ensures MovieOf(data).average_votes == data.vote_average
    ensures MovieOf(data).total_votes == data.vote_count
    ensures MovieOf(data).released_on == data.release_date
    ensures MovieOf(data).title == data.title && MovieOf(data).overview == data.overview
    ensures MovieOf(data).popularity == data.popularity
    ensures PosterPathOf(MovieOf(data).image_url) == Some(Interpolate(data.poster_path))
  {
  }

  /** A movie whose `poster_path` is `null` gets a URL ending in "null", the same
      record as a movie whose poster path is the text "null". */
  lemma MissingPosterIsAmbiguous(data: MovieResult)
    requires data.poster_path == Null
    ensures MovieOf(data) == MovieOf(data.(poster_path := Text("null")))
    ensures MovieOf(data).image_url == "https://image.tmdb.org/t/p/w200_and_h300_bestv2/null"
  {
  }
}
