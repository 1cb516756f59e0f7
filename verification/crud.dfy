/** Server/crud.py over an in-memory copy of the SQLite database: the
    `tiles` table keyed by dataset, the `detections` table in primary-key
    order and the `ports` table. The two queries are functions of the
    tables; the duplicate sweep and the insertion of a parsed Tile change
    a Session in place. */
module Crud {
  import opened Common
  import opened Text
  import opened Models

  // ---------------------------------------------------------------------
  // The detections table

  /** Every row has its primary key, and the keys increase strictly: the
      table read in primary-key order. */
  predicate KeyedInOrder(rows: seq<Detection>)
  {
    && (forall i :: 0 <= i < |rows| ==> rows[i].id.Some?)
    && (forall i, j :: 0 <= i < j < |rows| ==> rows[i].id.value < rows[j].id.value)
  }

  /** Appending a row whose key exceeds every key of a keyed table keeps it
      keyed. */
  lemma KeyedAppend(rows: seq<Detection>, d: Detection)
    requires KeyedInOrder(rows) && d.id.Some?
    requires forall x :: x in rows ==> x.id.value < d.id.value
    ensures KeyedInOrder(rows + [d])
  {
    var all := rows + [d];
    forall i, j | 0 <= i < j < |all| ensures all[i].id.value < all[j].id.value {
      if j == |rows| {
        assert all[i] in rows;
      }
    }
  }

  /** A row is in a table no later than any row with a smaller key. */
  lemma KeyedPrefixBelowLast(rows: seq<Detection>)
    requires KeyedInOrder(rows) && rows != []
    ensures forall x :: x in rows[..|rows| - 1] ==> x.id.value < rows[|rows| - 1].id.value
  {
    forall x | x in rows[..|rows| - 1] ensures x.id.value < rows[|rows| - 1].id.value {
      var k :| 0 <= k < |rows| - 1 && rows[..|rows| - 1][k] == x;
      assert rows[k] == x;
    }
  }

  lemma KeyedPrefix(rows: seq<Detection>, n: nat)
    requires KeyedInOrder(rows) && n <= |rows|
    ensures KeyedInOrder(rows[..n])
  {
  }

  // ---------------------------------------------------------------------
  // get_detections

  /** The join with `tiles` and the date filter of `get_detections` for one
      row: the row's Tile exists and was acquired strictly between the two
      instants. A Tile without an acquisition time never matches, as a
      comparison with SQL NULL is never true. */
  predicate InWindow(tiles: map<string, Tile>, d: Detection, start: Micros, end: Micros)
  {
    && d.tileDataset.Some? && d.tileDataset.value in tiles
    && tiles[d.tileDataset.value].acquisitionTime.Some?
    && start < tiles[d.tileDataset.value].acquisitionTime.value < end
  }

  /** The rows the query returns, in table order. */
  function MatchingDetections(tiles: map<string, Tile>, rows: seq<Detection>, start: Micros, end: Micros): seq<Detection>
    decreases |rows|
  {
    if rows == [] then []
    else
      var last := rows[|rows| - 1];
      MatchingDetections(tiles, rows[..|rows| - 1], start, end) + (if InWindow(tiles, last, start, end) then [last] else [])
  }

  /** A row is returned exactly when it is in the table and its Tile lies
      strictly inside the window. */
  lemma {:induction false} MatchingDetectionsSelects(tiles: map<string, Tile>, rows: seq<Detection>, start: Micros, end: Micros)
    ensures forall d :: d in MatchingDetections(tiles, rows, start, end) <==> d in rows && InWindow(tiles, d, start, end)
    decreases |rows|
  {
    if rows != [] {
      var init := rows[..|rows| - 1];
      MatchingDetectionsSelects(tiles, init, start, end);
      assert rows == init + [rows[|rows| - 1]];
    }
  }

  /** An empty window (the end not after the start) matches nothing. */
  lemma {:induction false} EmptyWindowMatchesNothing(tiles: map<string, Tile>, rows: seq<Detection>, start: Micros, end: Micros)
    requires end <= start
    ensures MatchingDetections(tiles, rows, start, end) == []
    decreases |rows|
  {
    if rows != [] {
      EmptyWindowMatchesNothing(tiles, rows[..|rows| - 1], start, end);
    }
  }

  /** What `get_detections` returns: CSV text or a GeoJSON
      FeatureCollection. */
  datatype Export = CsvText(text: string) | FeatureCollection(features: seq<Feature>)

  /** `detections[0]` on an empty list. */
  const IndexOutOfRange := Error(IndexError, "list index out of range")

  /** `[det.to_csv() for det in detections]`. */
  function CsvLines(detections: seq<Detection>, showFloat: Float -> string): (r: seq<string>)
    ensures |r| == |detections|
  {
    seq(|detections|, i requires 0 <= i < |detections| => ToCsv(detections[i], showFloat))
  }

  /** `[det.to_geojson() for det in detections]`. */
  function Features(detections: seq<Detection>): (r: seq<Feature>)
    ensures |r| == |detections|
  {
    seq(|detections|, i requires 0 <= i < |detections| => ToGeoJson(detections[i]))
  }

  /** `get_detections(db, start_date, end_date, data_type)`, with the two
      dates given as the instants they are compared as. `None` for a format
      other than `"csv"` and `"geojson"`. */
  function GetDetections(tiles: map<string, Tile>, rows: seq<Detection>, start: Micros, end: Micros,
                         dataType: string, showFloat: Float -> string): (r: Result<Option<Export>>)
    ensures r.Err? <==> dataType == "csv" && MatchingDetections(tiles, rows, start, end) == []
    ensures r.Err? ==> r.error == IndexOutOfRange
    ensures r.Ok? ==> (r.value.Some? <==> dataType == "csv" || dataType == "geojson")
    ensures r.Ok? && dataType == "csv" ==> r.value.value.CsvText?
    ensures dataType == "geojson" ==> r.Ok? && r.value.value.FeatureCollection?
  {
    var detections := MatchingDetections(tiles, rows, start, end);
    if dataType == "csv" then
      if |detections| == 0 then Err(IndexOutOfRange)
      else Ok(Some(CsvText(Join([AttributesString()] + CsvLines(detections, showFloat), '\n'))))
    else if dataType == "geojson" then
      Ok(Some(FeatureCollection(Features(detections))))
    else
      Ok(None)
  }

  /** A CSV row holds no line break when neither a printed float nor the
      tile name does. */
  lemma CsvRowHasNoLineBreak(d: Detection, showFloat: Float -> string)
    requires FloatsAvoid(showFloat, '\n') && DatasetAvoids(d, '\n')
    ensures '\n' !in ToCsv(d, showFloat)
  {
    CsvRowIsColumns(d, showFloat);
    ColumnStringsAvoid(d, showFloat, '\n');
    JoinAvoids(ColumnStrings(d, showFloat), ',', '\n');
  }

  /** The header holds no line break. */
  lemma HeaderHasNoLineBreak()
    ensures '\n' !in AttributesString()
  {
    HeaderText();
    ColumnNamesCommaFree();
    JoinAvoids(ColumnNames, ',', '\n');
  }

  /** No row holds a line break when neither a printed float nor a tile
      name does. */
  lemma CsvLinesHaveNoLineBreak(detections: seq<Detection>, showFloat: Float -> string)
    requires FloatsAvoid(showFloat, '\n')
    requires forall d :: d in detections ==> DatasetAvoids(d, '\n')
    ensures NoSeparator(CsvLines(detections, showFloat), '\n')
  {
    forall i | 0 <= i < |detections| ensures '\n' !in CsvLines(detections, showFloat)[i] {
      CsvRowHasNoLineBreak(detections[i], showFloat);
    }
  }

  /** Splitting a CSV export into lines gives the header first, then the
      CSV row of each matching detection in result order, provided neither
      a printed float nor a tile name holds a line break. */
  lemma CsvExportLines(tiles: map<string, Tile>, rows: seq<Detection>, start: Micros, end: Micros, showFloat: Float -> string)
    requires FloatsAvoid(showFloat, '\n')
    requires forall d :: d in rows ==> DatasetAvoids(d, '\n')
    requires MatchingDetections(tiles, rows, start, end) != []
    ensures Split(GetDetections(tiles, rows, start, end, "csv", showFloat).value.value.text, '\n') ==
      [AttributesString()] + CsvLines(MatchingDetections(tiles, rows, start, end), showFloat)
  {
    var detections := MatchingDetections(tiles, rows, start, end);
    MatchingDetectionsSelects(tiles, rows, start, end);
    HeaderHasNoLineBreak();
    CsvLinesHaveNoLineBreak(detections, showFloat);
    NoSeparatorAppend([AttributesString()], CsvLines(detections, showFloat), '\n');
    SplitJoin([AttributesString()] + CsvLines(detections, showFloat), '\n');
  }

  /** A GeoJSON export has one feature per matching detection, in result
      order, each placed at the detection's `(longitude, latitude)`. */
  lemma GeoJsonExportFeatures(tiles: map<string, Tile>, rows: seq<Detection>, start: Micros, end: Micros, showFloat: Float -> string)
    ensures
      var detections := MatchingDetections(tiles, rows, start, end);
      var features := GetDetections(tiles, rows, start, end, "geojson", showFloat).value.value.features;
      && |features| == |detections|
      && forall i :: 0 <= i < |detections| ==>
           && features[i].geometry.coordinates == (detections[i].longitude, detections[i].latitude)
           && Keys(features[i].properties) == ["id", "width", "length"]
  {
  }

  // ---------------------------------------------------------------------
  // get_ports

  /** A row of the `ports` table. */
  datatype Port = Port(locode: string, country: string, name: string, outflows: int, latitude: Float, longitude: Float)

  predicate NonIncreasing(ports: seq<Port>)
  {
    forall i, j :: 0 <= i < j < |ports| ==> ports[i].outflows >= ports[j].outflows
  }

  /** Puts `p` before the first port with no more outflows than it. */
  function InsertByOutflows(p: Port, ports: seq<Port>): (r: seq<Port>)
    ensures multiset(r) == multiset(ports) + multiset{p}
    ensures |r| == |ports| + 1 && (r[0] == p || (|ports| > 0 && r[0] == ports[0]))
    decreases |ports|
  {
    if ports == [] || ports[0].outflows <= p.outflows then
      [p] + ports
    else
      assert ports == [ports[0]] + ports[1..];
      [ports[0]] + InsertByOutflows(p, ports[1..])
  }

  /** Inserting into ports by non-increasing outflows keeps that order. */
  lemma {:induction false} InsertKeepsOrder(p: Port, ports: seq<Port>)
    requires NonIncreasing(ports)
    ensures NonIncreasing(InsertByOutflows(p, ports))
    decreases |ports|
  {
    if ports != [] && ports[0].outflows > p.outflows {
      var tail := ports[1..];
      InsertKeepsOrder(p, tail);
      var rest := InsertByOutflows(p, tail);
      var r := [ports[0]] + rest;
      assert r == InsertByOutflows(p, ports);
      forall i, j | 0 <= i < j < |r| ensures r[i].outflows >= r[j].outflows {
        if i == 0 {
          assert rest[0].outflows <= ports[0].outflows;
          if j > 1 {
            assert rest[0].outflows >= rest[j - 1].outflows;
          }
        } else {
          assert r[i] == rest[i - 1] && r[j] == rest[j - 1];
        }
      }
    }
  }

  /** `ORDER BY outflows DESC`: the ports by non-increasing outflows. The
      order among equal outflows is the database's choice; this one keeps
      table order. */
  function ByOutflows(ports: seq<Port>): (r: seq<Port>)
    ensures |r| == |ports|
    ensures multiset(r) == multiset(ports)
    ensures NonIncreasing(r)
    decreases |ports|
  {
    if ports == [] then []
    else
      assert ports == [ports[0]] + ports[1..];
      InsertKeepsOrder(ports[0], ByOutflows(ports[1..]));
      InsertByOutflows(ports[0], ByOutflows(ports[1..]))
  }

  /** `LIMIT number`: SQLite reads a negative limit as no limit. */
  function Limit(ports: seq<Port>, number: int): seq<Port>
  {
    if 0 <= number < |ports| then ports[..number] else ports
  }

  /** `get_ports(db, number)`: the ports the query returns, before each is
      turned into a GeoJSON feature. */
  function TopPorts(ports: seq<Port>, number: int): (r: seq<Port>)
    ensures |r| == if 0 <= number < |ports| then number else |ports|
    ensures NonIncreasing(r)
    ensures multiset(r) <= multiset(ports)
  {
    var sorted := ByOutflows(ports);
    var r := Limit(sorted, number);
    assert sorted == r + sorted[|r|..];
    r
  }

  /** In a list by non-increasing outflows, nothing after position `n` has
      more outflows than anything before it. */
  lemma SortedPrefixIsTop(sorted: seq<Port>, n: nat)
    requires NonIncreasing(sorted) && n <= |sorted|
    ensures forall p, q :: p in sorted[n..] && q in sorted[..n] ==> p.outflows <= q.outflows
  {
    forall p, q | p in sorted[n..] && q in sorted[..n] ensures p.outflows <= q.outflows {
      var i :| 0 <= i < |sorted| - n && sorted[n..][i] == p;
      var j :| 0 <= j < n && sorted[..n][j] == q;
      assert sorted[j] == q && sorted[n + i] == p;
    }
  }

  /** Every port left out has no more outflows than any port returned. */
  lemma TopPortsAreTop(ports: seq<Port>, number: int)
    ensures forall p, q :: p in multiset(ports) - multiset(TopPorts(ports, number)) && q in TopPorts(ports, number) ==>
      p.outflows <= q.outflows
  {
    var sorted := ByOutflows(ports);
    var r := TopPorts(ports, number);
    var rest := sorted[|r|..];
    assert sorted == r + rest;
    SortedPrefixIsTop(sorted, |r|);
    assert multiset(ports) - multiset(r) == multiset(rest);
  }

  // ---------------------------------------------------------------------
  // remove_duplicates

  /** The `(latitude, longitude)` pair the sweep groups by. */
  type Place = (Float, Float)

  function PlaceOf(d: Detection): Place
  {
    (d.latitude, d.longitude)
  }

  /** The pairs present in a table. */
  function Places(rows: seq<Detection>): set<Place>
    decreases |rows|
  {
    if rows == [] then {} else Places(rows[..|rows| - 1]) + {PlaceOf(rows[|rows| - 1])}
  }

  lemma {:induction false} PlacesOfRows(rows: seq<Detection>)
    ensures forall i :: 0 <= i < |rows| ==> PlaceOf(rows[i]) in Places(rows)
    ensures forall p :: p in Places(rows) ==> exists i :: 0 <= i < |rows| && PlaceOf(rows[i]) == p
    decreases |rows|
  {
    if rows != [] {
      var init := rows[..|rows| - 1];
      PlacesOfRows(init);
      forall p | p in Places(rows) ensures exists i :: 0 <= i < |rows| && PlaceOf(rows[i]) == p {
        if p in Places(init) {
          var i :| 0 <= i < |init| && PlaceOf(init[i]) == p;
          assert rows[i] == init[i];
        } else {
          assert PlaceOf(rows[|rows| - 1]) == p;
        }
      }
      forall i | 0 <= i < |rows| ensures PlaceOf(rows[i]) in Places(rows) {
        if i < |init| {
          assert rows[i] == init[i];
        }
      }
    }
  }

  /** No two rows share a pair. */
  predicate DistinctPlaces(rows: seq<Detection>)
  {
    forall i, j :: 0 <= i < j < |rows| ==> PlaceOf(rows[i]) != PlaceOf(rows[j])
  }

  /** The rows the sweep keeps: the first row of each pair, in table
      order. */
  function Deduplicated(rows: seq<Detection>): (r: seq<Detection>)
    decreases |rows|
  {
    if rows == [] then []
    else
      var init := rows[..|rows| - 1];
      var last := rows[|rows| - 1];
      Deduplicated(init) + (if PlaceOf(last) in Places(init) then [] else [last])
  }

  /** The rows the query of line 46 selects: every row that is not the
      first of its pair, in table order. */
  function Duplicates(rows: seq<Detection>): (r: seq<Detection>)
    decreases |rows|
  {
    if rows == [] then []
    else
      var init := rows[..|rows| - 1];
      var last := rows[|rows| - 1];
      Duplicates(init) + (if PlaceOf(last) in Places(init) then [last] else [])
  }

  /** Every row is either kept or selected as a duplicate. */
  lemma {:induction false} KeptPlusDuplicates(rows: seq<Detection>)
    ensures |Deduplicated(rows)| + |Duplicates(rows)| == |rows|
    decreases |rows|
  {
    if rows != [] {
      KeptPlusDuplicates(rows[..|rows| - 1]);
    }
  }

  lemma PlacesAppend(rows: seq<Detection>, d: Detection)
    ensures Places(rows + [d]) == Places(rows) + {PlaceOf(d)}
  {
    assert (rows + [d])[..|rows|] == rows;
  }

  /** Every pair present before the sweep is present after it, and no
      other. */
  lemma {:induction false} DeduplicatedKeepsPlaces(rows: seq<Detection>)
    ensures Places(Deduplicated(rows)) == Places(rows)
    decreases |rows|
  {
    if rows != [] {
      var init := rows[..|rows| - 1];
      var last := rows[|rows| - 1];
      DeduplicatedKeepsPlaces(init);
      assert Places(rows) == Places(init) + {PlaceOf(last)};
      if PlaceOf(last) !in Places(init) {
        assert Deduplicated(rows) == Deduplicated(init) + [last];
        PlacesAppend(Deduplicated(init), last);
      } else {
        assert Deduplicated(rows) == Deduplicated(init);
      }
    }
  }

  /** After the sweep no two rows share a pair. */
  lemma {:induction false} DeduplicatedDistinct(rows: seq<Detection>)
    ensures DistinctPlaces(Deduplicated(rows))
    decreases |rows|
  {
    if rows != [] {
      var init := rows[..|rows| - 1];
      var last := rows[|rows| - 1];
      DeduplicatedDistinct(init);
      if PlaceOf(last) !in Places(init) {
        var kept := Deduplicated(init);
        DeduplicatedKeepsPlaces(init);
        PlacesOfRows(kept);
        var r := kept + [last];
        forall i, j | 0 <= i < j < |r| ensures PlaceOf(r[i]) != PlaceOf(r[j]) {
          if j == |kept| {
            assert PlaceOf(kept[i]) in Places(kept);
          } else {
            assert r[i] == kept[i] && r[j] == kept[j];
          }
        }
      }
    }
  }

  /** The sweep keeps one row per pair: as many rows as there are pairs. */
  lemma {:induction false} OneRowPerPlace(rows: seq<Detection>)
    ensures |Deduplicated(rows)| == |Places(rows)|
    decreases |rows|
  {
    if rows != [] {
      OneRowPerPlace(rows[..|rows| - 1]);
    }
  }

  /** The rows kept are rows of the table, unchanged, in table order. */
  lemma {:induction false} DeduplicatedKeepsRows(rows: seq<Detection>)
    ensures forall d :: d in Deduplicated(rows) ==> d in rows
    ensures KeyedInOrder(rows) ==> KeyedInOrder(Deduplicated(rows))
    decreases |rows|
  {
    if rows != [] {
      var init := rows[..|rows| - 1];
      var last := rows[|rows| - 1];
      DeduplicatedKeepsRows(init);
      assert rows == init + [last];
      if KeyedInOrder(rows) && PlaceOf(last) !in Places(init) {
        KeyedPrefix(rows, |rows| - 1);
        KeyedPrefixBelowLast(rows);
        KeyedAppend(Deduplicated(init), last);
      }
    }
  }

  /** A table without shared pairs is left as it is. */
  lemma {:induction false} DistinctUntouched(rows: seq<Detection>)
    requires DistinctPlaces(rows)
    ensures Deduplicated(rows) == rows
    ensures Duplicates(rows) == []
    decreases |rows|
  {
    if rows != [] {
      var init := rows[..|rows| - 1];
      var last := rows[|rows| - 1];
      assert DistinctPlaces(init) by {
        forall i, j | 0 <= i < j < |init| ensures PlaceOf(init[i]) != PlaceOf(init[j]) {
          assert init[i] == rows[i] && init[j] == rows[j];
        }
      }
      DistinctUntouched(init);
      assert PlaceOf(last) !in Places(init) by {
        forall i | 0 <= i < |init| ensures PlaceOf(init[i]) != PlaceOf(last) {
          assert rows[i] == init[i];
        }
        PlacesOfRows(init);
      }
      assert rows == init + [last];
    }
  }

  /** A second sweep removes nothing. */
  lemma SweepIsIdempotent(rows: seq<Detection>)
    ensures Deduplicated(Deduplicated(rows)) == Deduplicated(rows)
    ensures Duplicates(Deduplicated(rows)) == []
  {
    DeduplicatedDistinct(rows);
    DistinctUntouched(Deduplicated(rows));
  }

  /** The table without the rows whose key is in `ids`. */
  function Without(rows: seq<Detection>, ids: set<Option<int>>): (r: seq<Detection>)
    ensures |r| <= |rows|
    decreases |rows|
  {
    if rows == [] then []
    else
      var last := rows[|rows| - 1];
      Without(rows[..|rows| - 1], ids) + (if last.id in ids then [] else [last])
  }

  /** The keys of some rows. */
  function KeysOf(rows: seq<Detection>): set<Option<int>>
    decreases |rows|
  {
    if rows == [] then {} else KeysOf(rows[..|rows| - 1]) + {rows[|rows| - 1].id}
  }

  lemma {:induction false} WithoutNoKeys(rows: seq<Detection>)
    ensures Without(rows, {}) == rows
    decreases |rows|
  {
    if rows != [] {
      WithoutNoKeys(rows[..|rows| - 1]);
      assert rows == rows[..|rows| - 1] + [rows[|rows| - 1]];
    }
  }

  /** Deleting one more key is deleting the larger set of keys. */
  lemma {:induction false} WithoutTwice(rows: seq<Detection>, ids: set<Option<int>>, id: Option<int>)
    ensures Without(Without(rows, ids), {id}) == Without(rows, ids + {id})
    decreases |rows|
  {
    if rows != [] {
      var init := rows[..|rows| - 1];
      var last := rows[|rows| - 1];
      WithoutTwice(init, ids, id);
      var once := Without(init, ids);
      if last.id !in ids {
        assert Without(rows, ids) == once + [last];
        assert (once + [last])[..|once|] == once;
        assert Without(once + [last], {id}) == Without(once, {id}) + (if last.id == id then [] else [last]);
        assert Without(rows, ids + {id}) == Without(init, ids + {id}) + (if last.id == id then [] else [last]);
      } else {
        assert Without(rows, ids) == once;
        assert Without(rows, ids + {id}) == Without(init, ids + {id});
      }
    }
  }

  /** Keys not carried by any row delete nothing. */
  lemma {:induction false} WithoutAbsentKey(rows: seq<Detection>, ids: set<Option<int>>, id: Option<int>)
    requires forall d :: d in rows ==> d.id != id
    ensures Without(rows, ids + {id}) == Without(rows, ids)
    decreases |rows|
  {
    if rows != [] {
      var init := rows[..|rows| - 1];
      assert forall d :: d in init ==> d in rows;
      WithoutAbsentKey(init, ids, id);
      assert rows[|rows| - 1] in rows;
    }
  }

  lemma {:induction false} KeysOfRows(rows: seq<Detection>)
    ensures forall k :: k in KeysOf(rows) ==> exists d :: d in rows && d.id == k
    decreases |rows|
  {
    if rows != [] {
      var init := rows[..|rows| - 1];
      KeysOfRows(init);
      assert forall d :: d in init ==> d in rows;
      assert rows[|rows| - 1] in rows;
    }
  }

  /** Deleting the selected duplicates one key at a time leaves exactly the
      rows the sweep keeps. */
  lemma {:induction false} DeletingDuplicatesLeavesKept(rows: seq<Detection>)
    requires KeyedInOrder(rows)
    ensures Without(rows, KeysOf(Duplicates(rows))) == Deduplicated(rows)
    decreases |rows|
  {
    if rows != [] {
      var init := rows[..|rows| - 1];
      var last := rows[|rows| - 1];
      KeyedPrefix(rows, |rows| - 1);
      DeletingDuplicatesLeavesKept(init);
      KeyedPrefixBelowLast(rows);
      var dups := Duplicates(init);
      var ids := KeysOf(dups);
      assert forall d :: d in init ==> d.id != last.id;
      if PlaceOf(last) in Places(init) {
        assert Duplicates(rows) == dups + [last];
        assert (dups + [last])[..|dups|] == dups;
        assert KeysOf(Duplicates(rows)) == ids + {last.id};
        WithoutAbsentKey(init, ids, last.id);
      } else {
        assert Duplicates(rows) == dups;
        KeysOfRows(dups);
        DuplicatesAreRows(init);
        assert last.id !in ids;
      }
    }
  }

  lemma {:induction false} DuplicatesAreRows(rows: seq<Detection>)
    ensures forall d :: d in Duplicates(rows) ==> d in rows
    decreases |rows|
  {
    if rows != [] {
      var init := rows[..|rows| - 1];
      DuplicatesAreRows(init);
      assert forall d :: d in init ==> d in rows;
      assert rows[|rows| - 1] in rows;
    }
  }

  /** The line `remove_duplicates` prints. */
  function RemovalReport(removed: int, total: int): string
  {
    "Removed " + IntToString(removed) + " out of " + IntToString(total) + " detections"
  }

  // ---------------------------------------------------------------------
  // Inserting a parsed Tile

  /** The key SQLite gives the next row: one more than the largest key, or
      1 for an empty table. */
  function NextId(rows: seq<Detection>): (n: int)
    requires KeyedInOrder(rows)
    ensures forall d :: d in rows ==> d.id.value < n
  {
    if rows == [] then 1
    else
      KeyedPrefixBelowLast(rows);
      assert forall d :: d in rows ==> d in rows[..|rows| - 1] || d == rows[|rows| - 1];
      rows[|rows| - 1].id.value + 1
  }

  /** The detections of a new Tile as they are inserted: consecutive keys
      from `first` on, and the foreign key set to the Tile's dataset. */
  function Numbered(detections: seq<Detection>, first: int, dataset: string): (r: seq<Detection>)
    ensures |r| == |detections|
  {
    seq(|detections|, i requires 0 <= i < |detections| =>
      detections[i].(id := Some(first + i), tileDataset := Some(dataset)))
  }

  /** The `detections` relationship of the Tile `dataset`: its rows in
      primary-key order. */
  function TileDetections(rows: seq<Detection>, dataset: string): seq<Detection>
    decreases |rows|
  {
    if rows == [] then []
    else
      var last := rows[|rows| - 1];
      TileDetections(rows[..|rows| - 1], dataset) + (if last.tileDataset == Some(dataset) then [last] else [])
  }

  /** `Tile.detections` comes ordered by `Detection.id`. */
  lemma {:induction false} TileDetectionsInKeyOrder(rows: seq<Detection>, dataset: string)
    requires KeyedInOrder(rows)
    ensures KeyedInOrder(TileDetections(rows, dataset))
    ensures forall d :: d in TileDetections(rows, dataset) <==> d in rows && d.tileDataset == Some(dataset)
    decreases |rows|
  {
    if rows != [] {
      var init := rows[..|rows| - 1];
      var last := rows[|rows| - 1];
      KeyedPrefix(rows, |rows| - 1);
      TileDetectionsInKeyOrder(init, dataset);
      assert rows == init + [last];
      if last.tileDataset == Some(dataset) {
        KeyedPrefixBelowLast(rows);
        KeyedAppend(TileDetections(init, dataset), last);
      }
    }
  }

  lemma {:induction false} TileDetectionsOfOthers(rows: seq<Detection>, dataset: string)
    requires forall i :: 0 <= i < |rows| ==> rows[i].tileDataset != Some(dataset)
    ensures TileDetections(rows, dataset) == []
    decreases |rows|
  {
    if rows != [] {
      TileDetectionsOfOthers(rows[..|rows| - 1], dataset);
    }
  }

  lemma {:induction false} TileDetectionsOfOwn(rows: seq<Detection>, dataset: string)
    requires forall i :: 0 <= i < |rows| ==> rows[i].tileDataset == Some(dataset)
    ensures TileDetections(rows, dataset) == rows
    decreases |rows|
  {
    if rows != [] {
      TileDetectionsOfOwn(rows[..|rows| - 1], dataset);
      assert rows == rows[..|rows| - 1] + [rows[|rows| - 1]];
    }
  }

  lemma {:induction false} TileDetectionsAppend(a: seq<Detection>, b: seq<Detection>, dataset: string)
    ensures TileDetections(a + b, dataset) == TileDetections(a, dataset) + TileDetections(b, dataset)
    decreases |b|
  {
    if b == [] {
      assert a + b == a;
    } else {
      var init := b[..|b| - 1];
      TileDetectionsAppend(a, init, dataset);
      assert (a + b)[..|a + b| - 1] == a + init;
    }
  }

  /** Reading a newly inserted Tile's relationship back gives its parsed
      detections in list order, each with the foreign key set and a new
      key, the keys consecutive from above every key already stored. */
  lemma InsertedTileReadsBack(rows: seq<Detection>, detections: seq<Detection>, dataset: string)
    requires KeyedInOrder(rows)
    requires forall i :: 0 <= i < |rows| ==> rows[i].tileDataset != Some(dataset)
    ensures
      var stored := TileDetections(rows + Numbered(detections, NextId(rows), dataset), dataset);
      && |stored| == |detections|
      && forall i :: 0 <= i < |detections| ==>
           stored[i] == detections[i].(id := Some(NextId(rows) + i), tileDataset := Some(dataset))
  {
    ReadBackFrom(rows, detections, NextId(rows), dataset);
  }

  lemma ReadBackFrom(rows: seq<Detection>, detections: seq<Detection>, first: int, dataset: string)
    requires forall i :: 0 <= i < |rows| ==> rows[i].tileDataset != Some(dataset)
    ensures TileDetections(rows + Numbered(detections, first, dataset), dataset) == Numbered(detections, first, dataset)
  {
    var added := Numbered(detections, first, dataset);
    TileDetectionsAppend(rows, added, dataset);
    TileDetectionsOfOthers(rows, dataset);
    TileDetectionsOfOwn(added, dataset);
  }

  // ---------------------------------------------------------------------
  // The session

  /** Adding a Tile whose dataset is None: the INSERT puts NULL into the
      primary key column, which the table declares NOT NULL. */
  const NotNullViolation := Error(IntegrityError, "(sqlite3.IntegrityError) NOT NULL constraint failed: tiles.dataset")

  /** Adding a Tile whose dataset is already stored. */
  const UniqueViolation := Error(IntegrityError, "(sqlite3.IntegrityError) UNIQUE constraint failed: tiles.dataset")

  /** The tables as the mapping keeps them: each Tile row under its own
      dataset with its relationship held by the detections table, the
      detections in key order, each referring to a stored Tile. */
  predicate Consistent(tiles: map<string, Tile>, rows: seq<Detection>)
  {
    && (forall k :: k in tiles ==> tiles[k].dataset == Some(k) && tiles[k].detections == [])
    && KeyedInOrder(rows)
    && forall d :: d in rows ==> d.tileDataset.Some? && d.tileDataset.value in tiles
  }

  /** New rows numbered from `NextId` extend the keys in order. */
  lemma NumberedExtendsKeys(rows: seq<Detection>, detections: seq<Detection>, dataset: string)
    requires KeyedInOrder(rows)
    ensures KeyedInOrder(rows + Numbered(detections, NextId(rows), dataset))
  {
    var added := Numbered(detections, NextId(rows), dataset);
    var all := rows + added;
    forall i, j | 0 <= i < j < |all| ensures all[i].id.value < all[j].id.value {
      if i < |rows| <= j {
        assert all[i] in rows;
      }
    }
  }

  /** Committing a Tile with a new dataset keeps the tables consistent. */
  lemma InsertKeepsConsistent(tiles: map<string, Tile>, rows: seq<Detection>, tile: Tile, dataset: string)
    requires Consistent(tiles, rows) && dataset !in tiles
    requires tile.dataset == Some(dataset)
    ensures Consistent(tiles[dataset := tile.(detections := [])], rows + Numbered(tile.detections, NextId(rows), dataset))
  {
    var added := Numbered(tile.detections, NextId(rows), dataset);
    NumberedExtendsKeys(rows, tile.detections, dataset);
    forall d | d in rows + added ensures d.tileDataset == Some(dataset) || d in rows {
      if d !in rows {
        var i :| 0 <= i < |added| && added[i] == d;
      }
    }
  }

  /** The sweep keeps the tables consistent. */
  lemma SweepKeepsConsistent(tiles: map<string, Tile>, rows: seq<Detection>)
    requires Consistent(tiles, rows)
    ensures Consistent(tiles, Deduplicated(rows))
  {
    DeduplicatedKeepsRows(rows);
  }

  /** A database session over the three tables. */
  class Session {
    var tiles: map<string, Tile>
    var detections: seq<Detection>
    var ports: seq<Port>

    predicate Valid()
      reads this
    {
      Consistent(tiles, detections)
    }

    /** A session over a database holding only the ports. */
    constructor (ports: seq<Port>)
      ensures Valid()
      ensures tiles == map[] && detections == [] && this.ports == ports
    {
      tiles := map[];
      detections := [];
      this.ports := ports;
    }

    /** `session.query(Tile.dataset).filter_by(dataset=...).scalar() is not
        None`: whether a Tile with this dataset is stored. A None dataset
        asks for a NULL key, which no stored Tile has. */
    predicate HasTile(dataset: Option<string>)
      reads this
    {
      dataset.Some? && dataset.value in tiles
    }

    /** `session.add(tile); session.commit()`: the Tile row and, through
        the relationship, its detections with consecutive new keys. A NULL
        or repeated primary key makes the commit fail and nothing is
        stored. */
    method AddTile(tile: Tile) returns (r: Outcome)
      requires Valid()
      modifies this`tiles, this`detections
      ensures Valid()
      ensures tile.dataset.None? ==>
        r == Fail(NotNullViolation) && tiles == old(tiles) && detections == old(detections)
      ensures tile.dataset.Some? && tile.dataset.value in old(tiles) ==>
        r == Fail(UniqueViolation) && tiles == old(tiles) && detections == old(detections)
      ensures tile.dataset.Some? && tile.dataset.value !in old(tiles) ==>
        && r == Pass
        && tiles == old(tiles)[tile.dataset.value := tile.(detections := [])]
        && detections == old(detections) + Numbered(tile.detections, NextId(old(detections)), tile.dataset.value)
    {
      if tile.dataset.None? {
        return Fail(NotNullViolation);
      }
      var dataset := tile.dataset.value;
      if dataset in tiles {
        return Fail(UniqueViolation);
      }
      var added := Numbered(tile.detections, NextId(detections), dataset);
      InsertKeepsConsistent(tiles, detections, tile, dataset);
      tiles := tiles[dataset := tile.(detections := [])];
      detections := detections + added;
      return Pass;
    }

    /** `db.delete(detection)`: the row with its key goes. */
    method Delete(d: Detection)
      modifies this`detections
      ensures detections == Without(old(detections), {d.id})
    {
      detections := Without(detections, {d.id});
    }

    /** The loop of `remove_duplicates`: `db.delete` on each selected row
        in turn. */
    method DeleteAll(selected: seq<Detection>)
      modifies this`detections
      ensures detections == Without(old(detections), KeysOf(selected))
    {
      var i := 0;
      assert KeysOf(selected[..0]) == {};
      WithoutNoKeys(detections);
      while i < |selected|
        invariant 0 <= i <= |selected|
        invariant detections == Without(old(detections), KeysOf(selected[..i]))
      {
        WithoutTwice(old(detections), KeysOf(selected[..i]), selected[i].id);
        assert selected[..i + 1][..i] == selected[..i];
        Delete(selected[i]);
        i := i + 1;
      }
      assert selected[..i] == selected;
    }

    /** `remove_duplicates(db)`: select every row that is not the first of
        its pair, delete them, and report how many went. */
    method RemoveDuplicates() returns (report: string)
      requires Valid()
      modifies this`detections
      ensures Valid()
      ensures detections == Deduplicated(old(detections))
      ensures report == RemovalReport(|old(detections)| - |detections|, |old(detections)|)
    {
      var numberOfDetections := |detections|;
      var duplicates := Duplicates(detections);
      DeletingDuplicatesLeavesKept(detections);
      SweepKeepsConsistent(tiles, detections);
      DeleteAll(duplicates);
      var newNumberOfDetections := |detections|;
      report := RemovalReport(numberOfDetections - newNumberOfDetections, numberOfDetections);
    }
  }
}
