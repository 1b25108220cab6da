/** Rows of the four tables (`locations`, `weathers`, `restaurants`, `movies`)
    and the query operations the cache needs: `SELECT * ... WHERE`, the
    per-item map of a fetch, and the tagging of child records with their
    location's id. */
module Tables {
  import opened Records

  /** A `locations` row: the serial `id` the database assigns, then the record. */
  datatype LocationRow = LocationRow(id: int, location: Location)

  /** A row of a child table: the record's columns, then `location_id`. */
  datatype Row<R> = Row(entry: R, location_id: int)

  /** `SELECT * FROM table WHERE cond`, rows in insertion order. */
  function Select<T>(rows: seq<T>, cond: T -> bool): (r: seq<T>)
    ensures |r| <= |rows|
    ensures forall i :: 0 <= i < |r| ==> r[i] in rows && cond(r[i])
    ensures forall i :: 0 <= i < |rows| && cond(rows[i]) ==> rows[i] in r
    ensures r == [] <==> forall i :: 0 <= i < |rows| ==> !cond(rows[i])
  {
    if rows == [] then []
    else (if cond(rows[0]) then [rows[0]] else []) + Select(rows[1..], cond)
  }

  /** `SELECT * FROM locations WHERE search_query=$1`. */
  function WithQuery(rows: seq<LocationRow>, query: string): seq<LocationRow>
  {
    Select(rows, (row: LocationRow) => row.location.search_query == query)
  }

  /** `SELECT * FROM <child table> WHERE location_id=$1`. */
  function OwnedBy<R>(rows: seq<Row<R>>, id: int): seq<Row<R>>
  {
    Select(rows, (row: Row<R>) => row.location_id == id)
  }

  /** `items.map(f)`. */
  function MapAll<A, B>(xs: seq<A>, f: A -> B): (ys: seq<B>)
    ensures |ys| == |xs|
    ensures forall i :: 0 <= i < |xs| ==> ys[i] == f(xs[i])
  {
    if xs == [] then [] else [f(xs[0])] + MapAll(xs[1..], f)
  }

  /** The rows a list of records is saved as, each with `location_id` set to `id`. */
  function Tagged<R>(records: seq<R>, id: int): (rows: seq<Row<R>>)
    ensures |rows| == |records|
    ensures forall i :: 0 <= i < |rows| ==> rows[i] == Row(records[i], id)
  {
    MapAll(records, (r: R) => Row(r, id))
  }

  /** The ids present in the `locations` table. */
  function Ids(rows: seq<LocationRow>): set<int>
  {
    set row | row in rows :: row.id
  }

  /** What the `locations` table keeps between requests: ids strictly increase in
      insertion order and lie below the next serial value, and no two rows share
      a `search_query` (a row is only inserted after a lookup of its query missed). */
  ghost predicate Consistent(rows: seq<LocationRow>, nextId: int)
  {
    && (forall i :: 0 <= i < |rows| ==> rows[i].id < nextId)
    && (forall i, j :: 0 <= i < j < |rows| ==> rows[i].id < rows[j].id)
    && (forall i, j :: 0 <= i < j < |rows| ==>
          rows[i].location.search_query != rows[j].location.search_query)
  }

  /** Every child row refers to a stored location. */
  ghost predicate ReferencesStored<R>(rows: seq<Row<R>>, locations: seq<LocationRow>)
  {
    forall i :: 0 <= i < |rows| ==> rows[i].location_id in Ids(locations)
  }

  /** Selecting from a concatenation selects from each part. */
  lemma {:induction false} SelectAppend<T>(a: seq<T>, b: seq<T>, cond: T -> bool)
    ensures Select(a + b, cond) == Select(a, cond) + Select(b, cond)
  {
    if a == [] {
      assert a + b == b;
    } else {
      assert (a + b)[0] == a[0];
      assert (a + b)[1..] == a[1..] + b;
      SelectAppend(a[1..], b, cond);
    }
  }

  /** Selecting rows that all match returns them all, in order. */
  lemma {:induction false} SelectAll<T>(rows: seq<T>, cond: T -> bool)
    requires forall i :: 0 <= i < |rows| ==> cond(rows[i])
    ensures Select(rows, cond) == rows
  {
    if rows != [] {
      SelectAll(rows[1..], cond);
      assert [rows[0]] + rows[1..] == rows;
    }
  }

  /** The first row of a selection is the first matching row of the table. */
  lemma {:induction false} SelectFirst<T>(rows: seq<T>, cond: T -> bool, k: nat)
    requires k < |rows| && cond(rows[k])
    requires forall j :: 0 <= j < k ==> !cond(rows[j])
    ensures Select(rows, cond) != [] && Select(rows, cond)[0] == rows[k]
  {
    if k > 0 {
      SelectFirst(rows[1..], cond, k - 1);
    }
  }

  /** Appending one element to a list extends its tagging by one row. */
  lemma TaggedSnoc<R>(records: seq<R>, r: R, id: int)
    ensures Tagged(records + [r], id) == Tagged(records, id) + [Row(r, id)]
  {
  }

  /** Tagged rows are all owned by their id and none by another. */
  lemma OwnedByTagged<R>(records: seq<R>, id: int, other: int)
    requires other != id
    ensures OwnedBy(Tagged(records, id), id) == Tagged(records, id)
    ensures OwnedBy(Tagged(records, id), other) == []
  {
    SelectAll(Tagged(records, id), (row: Row<R>) => row.location_id == id);
  }
}
