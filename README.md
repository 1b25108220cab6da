# Read-through cache of the lab-08 location/weather/restaurant/movie backend

The backend answers four GET routes (`/location`, `/weather`, `/yelp`,
`/movies`). Each handler first queries its table in PostgreSQL. On a hit it
returns the stored rows. On a miss it calls a third-party API, normalises each
item into a record, inserts a row per record, and returns the records.

- **Location** rows are keyed by the exact `search_query` text. A miss geocodes
  the query and keeps only the first result. The insert returns the
  database-assigned `id`, and the handler returns the location with that id.
- **Weather, Restaurant and Movie** rows are keyed by `location_id`. On a miss,
  each upstream item becomes one row tagged with the given location's id. The
  handler returns the in-memory records and does not read the table back.

The model has four modules:

- `Records` (records.dfy): the upstream item shapes, the four record kinds and
  the normalisers (`LocationOf`, `WeatherOf`, `RestaurantOf`, `MovieOf`).
- `Tables` (tables.dfy): table rows, `SELECT ... WHERE` as `Select`, the map
  over an upstream list, and tagging with `location_id`.
- `ReadThrough` (read_through.dfy): one request as a function of the tables
  (`FetchLocation`, `ServeLocation`, `FetchChild`, `ServeChild`). Its lemmas
  state the hit/miss, failure, append-only and miss-then-hit properties.
- `Server` (database.dfy): the class `Database`. It holds the `locations`,
  `weathers`, `restaurants` and `movies` tables as sequences, plus the serial
  counter behind `locations.id`. The `Save*` methods are the `save`
  functions; each contract states the one row appended and that nothing else
  changes. The `Fetch*` and `Get*` methods are the `fetch*` and `get*`
  functions. There is no separate lookup method: the `lookup*` query and its
  hit/miss dispatch are inlined into `GetLocation` and the other `Get*`
  methods. The contract of each `Fetch*` and `Get*` method says its new
  tables and its reply are exactly what the matching `ReadThrough` function
  gives. The fetch methods insert one row per item inside a loop, as the
  source's `map` callbacks do.

Each upstream API call is a parameter of type `Fetch<T>`. It is either
`Received(items)`, the list in the response body, or `Unreachable`, a
transport error. `new Date(ms).toDateString()` is the parameter
`toDateString: int -> string`. The weather normaliser applies it to
`day.time * 1000`.

Failed requests get no reply at all. The code calls `handleError` at
server.js:113, 138, 169, 199, 230, 260 and 291 without the response object.
The geocoder's `'No data'` rejection
(server.js:89) and a geocoder transport error are never caught (server.js:77).
`handleError`'s own `if (res) res.status(500)` branch (server.js:32) would
send a 500, but no caller passes `res`. The model therefore returns failures
as reply values (`LocationFailed`, `ListFailed`) and sends no HTTP 500.

The functions `ReadThrough.FetchLocation`, `ServeLocation`, `FetchChild` and
`ServeChild` model server.js:84-114 and 131-292. They carry no contract of their
own. The `Server.Database` method rows below state that the methods agree with
them, and the `ReadThrough` lemma rows state their properties.

`poster_path` is a `JsText`: text, `null`, or a missing key. The model
interpolates it the way a template literal does, so a movie without a poster
gets an `image_url` ending in `null` or `undefined`.

## Model

| member | source | states |
|---|---|---|
| `Records.LocationOfFields` | server.js:49-54 | the location record's `search_query` is the query text; `formatted_query`, `latitude` and `longitude` come from the result's `formatted_address` and `geometry.location.lat/lng` |
| `Records.WeatherOfFields` | server.js:118-121 | the weather record's `forecast` is the day's `summary`, and its `time` is the date formatter applied to `day.time * 1000` |
| `Records.RestaurantOfLossless` | server.js:175-181 | the restaurant normaliser copies `name`, `image_url`, `price`, `rating` and `url` unchanged: it has an inverse in both directions |
| `Records.MovieOfFields` | server.js:235-243 | `vote_average`→`average_votes`, `vote_count`→`total_votes`, `release_date`→`released_on`; title, overview and popularity are copied; `image_url` is the fixed poster prefix followed by the interpolated `poster_path`, which can be read back from it |
| `Records.PosterPathOf` | server.js:240 | reading back the poster path: when the URL has the fixed prefix, the result is `Some` of the text after it; otherwise it is `None` |
| `Records.MissingPosterIsAmbiguous` | server.js:240 | a `null` poster path yields `.../w200_and_h300_bestv2/null`, the same record as a poster whose path is the text "null" |
| `Tables.Select` | server.js:104-108 | a `SELECT ... WHERE`: every returned row is in the table and matches; every matching row is returned; the result is empty exactly when no row matches |
| `Tables.MapAll` | server.js:149-153 | the `map` over an upstream list: same length, and element `i` is the normalised item `i` |
| `Tables.Tagged` | server.js:123-127 | the rows a list of records is saved as: one per record, in order, with `location_id` set to the given id |
| `Tables.SelectAppend` | server.js:57-61 | a `SELECT` over a table grown by appends is the `SELECT` over the old rows followed by the `SELECT` over the new ones |
| `ReadThrough.LocationHit` | server.js:103-111 | when a stored row has the query as its `search_query`, the reply is the first such row and the tables and serial counter are unchanged, whatever the geocoder would answer |
| `ReadThrough.LocationHitIff` | server.js:107-112 | a location request is served from the table exactly when some stored row's `search_query` equals the query |
| `ReadThrough.LocationNoResults` | server.js:89 | a miss with zero geocoder results fails with `NoData` and leaves the table and counter unchanged |
| `ReadThrough.LocationMiss` | server.js:92-95 | a miss with results appends exactly one row built from the first result with the query as key; the reply is that row; its id is not among the existing ids; the table stays consistent |
| `ReadThrough.ServeLocationPreserves` | server.js:56-65 | every location request keeps ids increasing and below the counter and `search_query` unique; the table only grows; existing ids remain |
| `ReadThrough.LocationMissThenHit` | server.js:103-111 | a miss with results leaves the table grown by exactly the returned row and the counter advanced by one; in that state the same query is a hit returning that row with no change, whatever the geocoder would answer; lookups of other queries return what they returned before |
| `ReadThrough.LocationCachedIdempotent` | server.js:72-75 | repeating a cached location request returns the same reply and leaves the same state |
| `ReadThrough.ChildHit` | server.js:159-168 | a weather/restaurant/movie request is a hit exactly when some row has `location_id` equal to the location's id; a hit returns all such rows, in table order, and changes nothing |
| `ReadThrough.ChildMiss` | server.js:145-155 | a miss appends one row per upstream item, in upstream order, each a normalised item with the location's id as `location_id`; the reply is the normalised records, as many as the items and in their order |
| `ReadThrough.ChildEmptyUpstream` | server.js:149-154 | a miss with an empty upstream list returns an empty list and writes nothing |
| `ReadThrough.ChildUnreachable` | server.js:138 | a miss whose upstream call fails writes nothing and fails with `UpstreamUnreachable` |
| `ReadThrough.ChildMissThenHit` | server.js:123-127 | after a miss that stored at least one row, the same request is a hit returning exactly the stored rows, whose records are the ones the miss returned, whatever the upstream would answer; rows of other locations are untouched |
| `ReadThrough.ServeChildExtends` | server.js:145-155 | every child request, whatever its outcome, leaves the old rows as a prefix of the new table |
| `ReadThrough.ServeChildAppendOnly` | server.js:184-188 | every child request leaves the old rows as a prefix of the new table; the rows selected for any other location are unchanged |
| `ReadThrough.ServeChildReferencesStored` | server.js:245-249 | a child request whose location id is stored keeps every child row referring to a stored location id |
| `Server.Database.constructor` | server.js:17-18 | the tables start empty and the serial counter at 1 |
| `Server.Database.SaveLocation` | server.js:56-65 | appends one `locations` row with the counter's value as id, returns that id, advances the counter, and leaves the other tables unchanged |
| `Server.Database.FetchLocation` | server.js:84-100 | the tables and reply afterwards are `ReadThrough.FetchLocation` of the tables before; the child tables are unchanged |
| `Server.Database.GetLocation` | server.js:69-114 | the tables and reply afterwards are `ReadThrough.ServeLocation` of the tables before; consistency of `locations` and the references of child rows are preserved |
| `Server.Database.SaveWeather` | server.js:123-128 | appends one `weathers` row `(forecast, time, location_id)`; nothing else changes |
| `Server.Database.FetchWeather` | server.js:145-156 | the loop saves one row per day in order; the `weathers` table and reply afterwards are `FetchChild` with the weather normaliser |
| `Server.Database.GetWeather` | server.js:131-170 | the `weathers` table and reply afterwards are `ServeChild` of the table before; no other table changes; child references stay valid for a stored location |
| `Server.Database.SaveRestaurant` | server.js:184-189 | appends one `restaurants` row `(name, image_url, price, rating, url, location_id)`; nothing else changes |
| `Server.Database.FetchRestaurant` | server.js:206-217 | the loop saves one row per business in order; the `restaurants` table and reply afterwards are `FetchChild` with the restaurant normaliser |
| `Server.Database.GetRestaurants` | server.js:192-231 | the `restaurants` table and reply afterwards are `ServeChild` of the table before; no other table changes; child references stay valid for a stored location |
| `Server.Database.SaveMovie` | server.js:245-250 | appends one `movies` row with the seven movie columns and `location_id`; nothing else changes |
| `Server.Database.FetchMovies` | server.js:267-278 | the loop saves one row per result in order; the `movies` table and reply afterwards are `FetchChild` with the movie normaliser |
| `Server.Database.GetMovies` | server.js:253-292 | the `movies` table and reply afterwards are `ServeChild` of the table before; no other table changes; child references stay valid for a stored location |

`Server.ExampleSession` walks through one session using only these contracts.
It geocodes "98005" and stores it with id 1. Its first weather request stores
one row per day. The repeated weather and location requests are then served
from the tables.

## Left out

- Express setup, CORS, `listen`, route registration and request/response objects (server.js:4-45): HTTP plumbing. Each handler is modelled as "lookup, then hit or miss", and its reply is a value.
- The pg client's connection, error listener and SQL text (server.js:17-19): replaced by the `Database` class. The database itself never fails here, so the `.catch(handleError)` paths for query errors are not modelled.
- The serial sequence: modelled as a counter starting at 1. The table schema is not part of this model, so any columns of the child tables beyond the inserted ones are not modelled. Rows come back from `SELECT` in insertion order, which the query does not guarantee without `ORDER BY`.
- superagent calls, URL construction, API keys and headers (server.js:85-86, 146-148, 207-209, 268-270): network clients. The response item list, or a transport error, is passed in as a `Fetch` value.
- `new Date(day.time * 1000).toDateString()` (server.js:120): a library call. It is the parameter `toDateString`.
- Promises, asynchronous ordering and the un-awaited child `save` calls (server.js:127, 151, 188, 212, 249, 273): each request is one sequential step, and every save completes before the reply. Because of this the model cannot lose a save or interleave two requests, so it has no duplicate rows from concurrent identical requests.
- Console logging and the message text of `handleError` (server.js:30-33): side effects only.
- Latitude, longitude, rating, vote average and popularity: JavaScript numbers on which no arithmetic is done, carried as opaque `real` values.
- Missing or malformed upstream fields other than `poster_path`: the model assumes every item has the shape the normaliser reads. A missing `geometry` would make the source throw, and a missing string field would be copied as `undefined`.
- The location payload of the child routes arrives as client-supplied JSON. It is modelled as a well-formed `LocationRow`, whose `id` need not be stored. This is why the reference property is stated conditionally, on the payload's `id` being stored.
- Column types and read-back conversion: the tables are assumed to read back every stored value unchanged, with no type conversion, rounding or truncation. The hit paths send pg's parse of the stored columns (server.js:74, 135, 196, 257). The miss paths send the in-memory objects (server.js:95, 154, 215, 276). The table schema is not part of this model, so `LocationMissThenHit` and `ChildMissThenHit` rest on this assumption. For example, node-pg returns NUMERIC columns as strings and DATE columns as `Date` objects.
