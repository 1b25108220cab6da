/** The read-through cache of server.js as functions of the tables: what one
    request returns and what the tables hold afterwards.  The class in
    database.dfy performs the same steps in place and is proved to agree with
    these functions; the lemmas here state what the cache promises. */
module ReadThrough {
  import opened Records
  import opened Tables

  /** What an upstream API call produced: the item list of its response body, or
      a transport error. */
  datatype Fetch<T> = Received(items: seq<T>) | Unreachable

  /** Why a request failed.  In the source neither failure reaches the client:
      `handleError` is called without the response object and the geocoder's
      'No data' rejection is never caught, so the request gets no reply at all. */
  datatype Failure = NoData | UpstreamUnreachable

  /** The outcome of a location request. */
  datatype LocationReply =
    | CachedLocation(row: LocationRow)      // the first stored row for the query
    | GeocodedLocation(row: LocationRow)    // the record just inserted, with its new id
    | LocationFailed(cause: Failure)

  /** The outcome of a weather, restaurant or movie request. */
  datatype ListReply<R> =
    | CachedRows(rows: seq<Row<R>>)        // all stored rows, `location_id` included
    | FetchedRecords(records: seq<R>)      // the normalised in-memory records
    | ListFailed(cause: Failure)

  /** The `locations` table, the next serial id and the reply after one request. */
  datatype LocationStep = LocationStep(locations: seq<LocationRow>, nextId: int, reply: LocationReply)

  /** A child table and the reply after one request. */
  datatype ChildStep<R> = ChildStep(rows: seq<Row<R>>, reply: ListReply<R>)

  // ---- Location ----

  /** `Location.fetchLocation`: geocode, fail on an empty result list, otherwise
      normalise the first result, insert it and return it with the new id. */
  function FetchLocation(locations: seq<LocationRow>, nextId: int, query: string,
                         geocode: Fetch<GeocodeResult>): LocationStep
  {
    match geocode
    case Unreachable => LocationStep(locations, nextId, LocationFailed(UpstreamUnreachable))
    case Received(results) =>
      if |results| == 0 then LocationStep(locations, nextId, LocationFailed(NoData))
      else
        var row := LocationRow(nextId, LocationOf(query, results[0]));
        LocationStep(locations + [row], nextId + 1, GeocodedLocation(row))
  }

  /** `getLocation` with `Location.lookupLocation`: the first stored row for the
      query on a hit, `FetchLocation` on a miss. */
  function ServeLocation(locations: seq<LocationRow>, nextId: int, query: string,
                         geocode: Fetch<GeocodeResult>): LocationStep
  {
    var cached := WithQuery(locations, query);
    if |cached| > 0 then LocationStep(locations, nextId, CachedLocation(cached[0]))
    else FetchLocation(locations, nextId, query, geocode)
  }

  // ---- Weather, Restaurant, Movie ----

  /** `fetchWeather` / `fetchRestaurant` / `fetchMovies`: normalise every item,
      save each tagged with the location's id, return the records. */
  function FetchChild<I, R>(rows: seq<Row<R>>, locationId: int, upstream: Fetch<I>,
                            normalise: I -> R): ChildStep<R>
  {
    match upstream
    case Unreachable => ChildStep(rows, ListFailed(UpstreamUnreachable))
    case Received(items) =>
      var records := MapAll(items, normalise);
      ChildStep(rows + Tagged(records, locationId), FetchedRecords(records))
  }

  /** `getWeather` with `lookupWeather` (and the restaurant and movie pairs):
      all stored rows for the location on a hit, `FetchChild` on a miss. */
  function ServeChild<I, R>(rows: seq<Row<R>>, locationId: int, upstream: Fetch<I>,
                            normalise: I -> R): ChildStep<R>
  {
    var cached := OwnedBy(rows, locationId);
    if |cached| > 0 then ChildStep(rows, CachedRows(cached))
    else FetchChild(rows, locationId, upstream, normalise)
  }

  // ---- Location properties ----

  /** A location request is a hit exactly when a stored row has the query as its
      `search_query`; a hit returns the first such row and changes nothing,
      whatever the geocoder would have answered. */
  lemma {:induction false} LocationHit(locations: seq<LocationRow>, nextId: int, query: string,
                                       geocode: Fetch<GeocodeResult>, k: nat)
    requires k < |locations| && locations[k].location.search_query == query
    requires forall j :: 0 <= j < k ==> locations[j].location.search_query != query
    ensures ServeLocation(locations, nextId, query, geocode)
         == LocationStep(locations, nextId, CachedLocation(locations[k]))
  {
    SelectFirst(locations, (row: LocationRow) => row.location.search_query == query, k);
  }

  /** The hit condition, both ways. */
  lemma LocationHitIff(locations: seq<LocationRow>, nextId: int, query: string,
                       geocode: Fetch<GeocodeResult>)
    ensures ServeLocation(locations, nextId, query, geocode).reply.CachedLocation?
        <==> exists k :: 0 <= k < |locations| && locations[k].location.search_query == query
  {
  }

  /** A miss with no geocoder results fails with 'No data' and inserts nothing. */
  lemma LocationNoResults(locations: seq<LocationRow>, nextId: int, query: string)
    requires WithQuery(locations, query) == []
    ensures ServeLocation(locations, nextId, query, Received([]))
         == LocationStep(locations, nextId, LocationFailed(NoData))
  {
  }

  /** A miss with results appends exactly one row built from the first result,
      returns it with a fresh id, and keeps the table consistent. */
  lemma LocationMiss(locations: seq<LocationRow>, nextId: int, query: string,
                     results: seq<GeocodeResult>)
    requires Consistent(locations, nextId)
    requires WithQuery(locations, query) == [] && |results| > 0
    ensures var step := ServeLocation(locations, nextId, query, Received(results));
            var row := LocationRow(nextId, LocationOf(query, results[0]));
            && step == LocationStep(locations + [row], nextId + 1, GeocodedLocation(row))
            && row.location.search_query == query
            && row.id !in Ids(locations)
            && Consistent(step.locations, step.nextId)
  {
  }

  /** Every location request keeps the table consistent and only appends. */
  lemma ServeLocationPreserves(locations: seq<LocationRow>, nextId: int, query: string,
                               geocode: Fetch<GeocodeResult>)
    requires Consistent(locations, nextId)
    ensures var step := ServeLocation(locations, nextId, query, geocode);
            && Consistent(step.locations, step.nextId)
            && locations <= step.locations
            && nextId <= step.nextId
            && Ids(locations) <= Ids(step.locations)
  {
  }

  /** After a miss that stored a row (`LocationMiss` gives the step), the same
      query is a hit returning that row, whatever the geocoder would answer;
      lookups of other queries see the table as it was. */
  lemma LocationMissThenHit(locations: seq<LocationRow>, nextId: int, query: string,
                            results: seq<GeocodeResult>, later: Fetch<GeocodeResult>, other: string)
    requires WithQuery(locations, query) == [] && |results| > 0
    requires other != query
    ensures var row := LocationRow(nextId, LocationOf(query, results[0]));
            && ServeLocation(locations, nextId, query, Received(results)).reply == GeocodedLocation(row)
            && ServeLocation(locations, nextId, query, Received(results)).locations == locations + [row]
            && ServeLocation(locations, nextId, query, Received(results)).nextId == nextId + 1
            && ServeLocation(locations + [row], nextId + 1, query, later)
               == LocationStep(locations + [row], nextId + 1, CachedLocation(row))
            && WithQuery(locations + [row], other) == WithQuery(locations, other)
  {
    var row := LocationRow(nextId, LocationOf(query, results[0]));
    SelectAppend(locations, [row], (r: LocationRow) => r.location.search_query == query);
    SelectAppend(locations, [row], (r: LocationRow) => r.location.search_query == other);
    assert WithQuery(locations + [row], query) == [row];
    assert WithQuery(locations + [row], other) == WithQuery(locations, other) + [];
  }

  /** Reading a cached location twice gives the same answer both times. */
  lemma LocationCachedIdempotent(locations: seq<LocationRow>, nextId: int, query: string,
                                 geocode: Fetch<GeocodeResult>, later: Fetch<GeocodeResult>)
    requires ServeLocation(locations, nextId, query, geocode).reply.CachedLocation?
    ensures var step := ServeLocation(locations, nextId, query, geocode);
            ServeLocation(step.locations, step.nextId, query, later) == step
  {
  }

  // ---- Child-table properties ----

  /** A child request is a hit exactly when some row carries the location's id;
      a hit returns all such rows, in table order, and changes nothing. */
  lemma ChildHit<I, R>(rows: seq<Row<R>>, locationId: int, upstream: Fetch<I>, normalise: I -> R)
    ensures var step := ServeChild(rows, locationId, upstream, normalise);
            && (step.reply.CachedRows? <==> exists k :: 0 <= k < |rows| && rows[k].location_id == locationId)
            && (step.reply.CachedRows? ==>
                  && step.rows == rows
                  && step.reply.rows == OwnedBy(rows, locationId)
                  && (forall k :: 0 <= k < |rows| && rows[k].location_id == locationId
                        ==> rows[k] in step.reply.rows)
                  && (forall k :: 0 <= k < |step.reply.rows|
                        ==> step.reply.rows[k] in rows && step.reply.rows[k].location_id == locationId))
  {
  }

  /** A miss appends one row per upstream item, in upstream order, each tagged
      with the location's id, and returns the normalised records: as many as
      there were items, in the same order. */
  lemma ChildMiss<I, R>(rows: seq<Row<R>>, locationId: int, items: seq<I>, normalise: I -> R)
    requires OwnedBy(rows, locationId) == []
    ensures var step := ServeChild(rows, locationId, Received(items), normalise);
            && step.reply.FetchedRecords?
            && |step.reply.records| == |items|
            && (forall k :: 0 <= k < |items| ==> step.reply.records[k] == normalise(items[k]))
            && |step.rows| == |rows| + |items|
            && step.rows[..|rows|] == rows
            && (forall k :: 0 <= k < |items| ==>
                  step.rows[|rows| + k] == Row(normalise(items[k]), locationId))
  {
  }

  /** A miss whose upstream list is empty returns an empty list and writes nothing. */
  lemma ChildEmptyUpstream<I, R>(rows: seq<Row<R>>, locationId: int, normalise: I -> R)
    requires OwnedBy(rows, locationId) == []
    ensures ServeChild(rows, locationId, Received([]), normalise) == ChildStep(rows, FetchedRecords([]))
  {
  }

  /** A miss whose upstream call fails writes nothing. */
  lemma ChildUnreachable<I, R>(rows: seq<Row<R>>, locationId: int, normalise: I -> R)
    requires OwnedBy(rows, locationId) == []
    ensures ServeChild(rows, locationId, Unreachable, normalise)
         == ChildStep(rows, ListFailed(UpstreamUnreachable))
  {
  }

  /** After a miss that stored at least one row, the same request is a hit that
      returns exactly the stored rows, whose records are the ones the miss
      returned, whatever the upstream would answer; rows of other locations are
      untouched. */
  lemma ChildMissThenHit<I, R>(rows: seq<Row<R>>, locationId: int, items: seq<I>,
                               normalise: I -> R, later: Fetch<I>, other: int)
    requires OwnedBy(rows, locationId) == [] && |items| > 0
    requires other != locationId
    ensures var step := ServeChild(rows, locationId, Received(items), normalise);
            var stored := Tagged(step.reply.records, locationId);
            && ServeChild(step.rows, locationId, later, normalise) == ChildStep(step.rows, CachedRows(stored))
            && MapAll(stored, (row: Row<R>) => row.entry) == step.reply.records
            && OwnedBy(step.rows, other) == OwnedBy(rows, other)
  {
    var step := ServeChild(rows, locationId, Received(items), normalise);
    var records := step.reply.records;
    var stored := Tagged(records, locationId);
    SelectAppend(rows, stored, (row: Row<R>) => row.location_id == locationId);
    SelectAppend(rows, stored, (row: Row<R>) => row.location_id == other);
    OwnedByTagged(records, locationId, other);
    assert OwnedBy(step.rows, locationId) == stored;
    assert OwnedBy(step.rows, other) == OwnedBy(rows, other) + [];
  }

  /** Every child request only appends: the old rows stay a prefix of the table. */
  lemma ServeChildExtends<I, R>(rows: seq<Row<R>>, locationId: int, upstream: Fetch<I>, normalise: I -> R)
    ensures rows <= ServeChild(rows, locationId, upstream, normalise).rows
  {
  }

  /** Every child request only appends, and rows of other locations are untouched. */
  lemma ServeChildAppendOnly<I, R>(rows: seq<Row<R>>, locationId: int, upstream: Fetch<I>,
                                   normalise: I -> R, other: int)
    requires other != locationId
    ensures var step := ServeChild(rows, locationId, upstream, normalise);
            && rows <= step.rows
            && OwnedBy(step.rows, other) == OwnedBy(rows, other)
  {
    var step := ServeChild(rows, locationId, upstream, normalise);
    if step.reply.FetchedRecords? {
      var stored := Tagged(step.reply.records, locationId);
      SelectAppend(rows, stored, (row: Row<R>) => row.location_id == other);
      OwnedByTagged(step.reply.records, locationId, other);
      assert OwnedBy(step.rows, other) == OwnedBy(rows, other) + [];
    }
  }

  /** A child request whose location id is stored keeps every child row pointing
      at a stored location; only the id of the location payload is read. */
  lemma ServeChildReferencesStored<I, R>(rows: seq<Row<R>>, location: LocationRow, upstream: Fetch<I>,
                                         normalise: I -> R, locations: seq<LocationRow>)
    requires ReferencesStored(rows, locations) && location.id in Ids(locations)
    ensures ReferencesStored(ServeChild(rows, location.id, upstream, normalise).rows, locations)
  {
  }
}
