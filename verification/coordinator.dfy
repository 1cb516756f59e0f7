/** Server/main.py: the background job that downloads a Sentinel product,
    processes it, stores the resulting Tile and sweeps duplicates, the
    handler that reports the job's result over the websocket manager, and
    the date guard of the ships endpoint. Downloading and processing are
    collaborators of the model, given as functions. */
module Coordinator {
  import opened Common
  import opened Models
  import opened ResultParser
  import opened WebSockets
  import opened Crud

  /** The GeoJSON FeatureCollection a client posts as the area of interest. */
  type Area

  /** A `datetime.date`, as a day number. */
  type Day = int

  /** Microseconds in a day. */
  const MicrosPerDay: int := 86_400_000_000

  /** The instant a date stands for when it is compared with a DATETIME
      column: its midnight. */
  function Midnight(day: Day): (r: Micros)
    ensures r % MicrosPerDay == 0 && r / MicrosPerDay == day
  {
    day * MicrosPerDay
  }

  /** What the job relies on but the model does not contain:
      `download_sentinel_data`, which yields a path or None (or raises);
      `process`, which leaves the processing output on disk (or raises);
      the `int`/`float`/`strptime` coercions; and the clock. */
  datatype Collaborators = Collaborators(
    download: (Area, Day, Day) -> Result<Option<Path>>,
    process: Path -> Result<Disk>,
    coercions: Coercions,
    now: Micros)

  /** The steps of `detect_ships_in_area`. */
  datatype Stage = Download | Process | Parse | Lookup | Store | Sweep

  /** The steps in the order the job takes them. */
  const AllStages: seq<Stage> := [Download, Process, Parse, Lookup, Store, Sweep]

  const DownloadFailed := Error(FileNotFoundError, "Error while downloading the file.")
  const ProductExists := Error(ValueError, "Product already exists in database.")

  /** What one run of the job does: how it ends, the steps it reached,
      and the `tiles` and `detections` tables it leaves. */
  datatype Run = Run(outcome: Outcome, stages: seq<Stage>, tiles: map<string, Tile>, rows: seq<Detection>)

  /** How far the first three steps got: the parsed Tile or the exception
      that stopped them, and how many steps ran. */
  datatype Fetch = Fetch(product: Result<Tile>, reached: nat)

  /** Download, process and parse: the part of `detect_ships_in_area`
      that does not touch the database. */
  function Fetched(env: Collaborators, area: Area, start: Day, end: Day): (f: Fetch)
    ensures 1 <= f.reached <= 3
    ensures f.product.Ok? ==> f.reached == 3
    ensures f.reached == 1 <==> !(env.download(area, start, end).Ok? && env.download(area, start, end).value.Some?)
  {
    match env.download(area, start, end)
    case Err(e) => Fetch(Err(e), 1)
    case Ok(None) => Fetch(Err(DownloadFailed), 1)
    case Ok(Some(file)) =>
      match env.process(file)
      case Err(e) => Fetch(Err(e), 2)
      case Ok(disk) => Fetch(ParsedResult(file, disk, env.coercions, env.now), 3)
  }

  /** Looking the dataset up, committing the Tile, sweeping: the part of
      `detect_ships_in_area` that works on the tables. */
  function Commit(tile: Tile, tiles: map<string, Tile>, rows: seq<Detection>): (r: Run)
    requires Consistent(tiles, rows)
    ensures Consistent(r.tiles, r.rows)
    ensures r.outcome == Pass <==> tile.dataset.Some? && tile.dataset.value !in tiles
    ensures r.outcome != Pass ==> r.tiles == tiles && r.rows == rows
  {
    if tile.dataset.Some? && tile.dataset.value in tiles then
      Run(Fail(ProductExists), AllStages[..4], tiles, rows)
    else if tile.dataset.None? then
      Run(Fail(NotNullViolation), AllStages[..5], tiles, rows)
    else
      var dataset := tile.dataset.value;
      var stored := rows + Numbered(tile.detections, NextId(rows), dataset);
      InsertKeepsConsistent(tiles, rows, tile, dataset);
      SweepKeepsConsistent(tiles[dataset := tile.(detections := [])], stored);
      Run(Pass, AllStages, tiles[dataset := tile.(detections := [])], Deduplicated(stored))
  }

  /** `detect_ships_in_area(geo_dict, start_time, end_time)` on tables
      `tiles` and `rows`: the first step that raises ends the run, and the
      tables change only when the Tile is committed. */
  function Ingest(env: Collaborators, area: Area, start: Day, end: Day,
                  tiles: map<string, Tile>, rows: seq<Detection>): (r: Run)
    requires Consistent(tiles, rows)
    ensures Consistent(r.tiles, r.rows)
  {
    var f := Fetched(env, area, start, end);
    match f.product
    case Err(e) => Run(Fail(e), AllStages[..f.reached], tiles, rows)
    case Ok(tile) => Commit(tile, tiles, rows)
  }

  /** The steps run in their fixed order, and a run stops at the first
      failing one: every run takes a non-empty prefix of the steps, and
      only a successful run reaches the sweep. */
  lemma StagesInOrder(env: Collaborators, area: Area, start: Day, end: Day, tiles: map<string, Tile>, rows: seq<Detection>)
    requires Consistent(tiles, rows)
    ensures var r := Ingest(env, area, start, end, tiles, rows);
      && 1 <= |r.stages| <= |AllStages|
      && r.stages == AllStages[..|r.stages|]
      && (r.outcome == Pass <==> r.stages == AllStages)
      && (r.outcome != Pass ==> r.tiles == tiles && r.rows == rows)
  {
  }

  /** When the download yields no file, the job raises FileNotFoundError
      right away: nothing is processed, parsed or stored. */
  lemma MissingDownloadStopsEarly(env: Collaborators, area: Area, start: Day, end: Day, tiles: map<string, Tile>, rows: seq<Detection>)
    requires Consistent(tiles, rows)
    requires env.download(area, start, end) == Ok(None)
    ensures Ingest(env, area, start, end, tiles, rows) == Run(Fail(DownloadFailed), [Download], tiles, rows)
  {
  }

  /** A product whose dataset is already stored is rejected with
      ValueError and the tables are left as they were. */
  lemma DuplicateProductRejected(env: Collaborators, area: Area, start: Day, end: Day, tiles: map<string, Tile>, rows: seq<Detection>)
    requires Consistent(tiles, rows)
    requires Fetched(env, area, start, end).product.Ok?
    requires Fetched(env, area, start, end).product.value.dataset.Some?
    requires Fetched(env, area, start, end).product.value.dataset.value in tiles
    ensures Ingest(env, area, start, end, tiles, rows) == Run(Fail(ProductExists), [Download, Process, Parse, Lookup], tiles, rows)
  {
  }

  /** A run succeeds exactly when the product is parsed and its dataset
      is new; then the Tile is stored under its dataset, its detections
      are added with new keys, and the sweep runs on the enlarged table. */
  lemma SuccessStoresThenSweeps(env: Collaborators, area: Area, start: Day, end: Day, tiles: map<string, Tile>, rows: seq<Detection>)
    requires Consistent(tiles, rows)
    ensures var r := Ingest(env, area, start, end, tiles, rows);
      var p := Fetched(env, area, start, end).product;
      && (r.outcome == Pass <==> p.Ok? && p.value.dataset.Some? && p.value.dataset.value !in tiles)
      && (r.outcome == Pass ==>
            var dataset := p.value.dataset.value;
            && r.tiles == tiles[dataset := p.value.(detections := [])]
            && r.rows == Deduplicated(rows + Numbered(p.value.detections, NextId(rows), dataset)))
  {
  }

  /** Running the same job again after a success stores nothing more: the
      second run fails with the duplicate message and one Tile stays
      stored for the dataset. */
  lemma RepeatedRequestRejected(env: Collaborators, area: Area, start: Day, end: Day, tiles: map<string, Tile>, rows: seq<Detection>)
    requires Consistent(tiles, rows)
    requires Ingest(env, area, start, end, tiles, rows).outcome == Pass
    ensures var first := Ingest(env, area, start, end, tiles, rows);
      var second := Ingest(env, area, start, end, first.tiles, first.rows);
      && second.outcome == Fail(ProductExists)
      && second.tiles == first.tiles && second.rows == first.rows
  {
    SuccessStoresThenSweeps(env, area, start, end, tiles, rows);
  }

  /** What `error_handler` sends: the exception's text to the client on
      failure; on success "success" to the client, then "update_ships" to
      every connection. */
  function Notification(conns: seq<SocketAndId>, clientId: int, outcome: Outcome): seq<Event>
  {
    match outcome
    case Fail(e) => Send(conns, clientId, e.message, LogUnidentified).events
    case Pass =>
      Send(conns, clientId, "success", LogUnidentified).events
        + BroadcastLog(conns, |conns|, "update_ships")
  }

  /** On failure exactly one message goes out, the exception's text: to
      the client's first connection, or to the log of unidentified
      clients; nothing is broadcast. */
  lemma FailureNotifiesClientOnly(conns: seq<SocketAndId>, clientId: int, e: Error)
    ensures var events := Notification(conns, clientId, Fail(e));
      && |events| == 1
      && (FirstWithId(conns, clientId).Some? ==>
            events[0] == Sent(conns[FirstWithId(conns, clientId).value].socket, e.message))
      && (FirstWithId(conns, clientId).None? ==> events[0] == NoClient(clientId, e.message))
  {
  }

  /** On success the client's "success" comes first, then one
      "update_ships" per connection, in connection order. */
  lemma SuccessNotifiesThenBroadcasts(conns: seq<SocketAndId>, clientId: int)
    ensures var events := Notification(conns, clientId, Pass);
      && |events| == 1 + |conns|
      && (FirstWithId(conns, clientId).Some? ==>
            events[0] == Sent(conns[FirstWithId(conns, clientId).value].socket, "success"))
      && (FirstWithId(conns, clientId).None? ==> events[0] == NoClient(clientId, "success"))
      && forall i :: 0 <= i < |conns| ==> events[1 + i] == Sent(Recipient(conns, i), "update_ships")
  {
    var send := Send(conns, clientId, "success", LogUnidentified).events;
    BroadcastOnePerConnection(conns, |conns|, "update_ships");
    assert |send| == 1;
  }

  /** `get_ships(start_date, end_date, data_type)`: HTTP 406 when the end
      date is before the start date, otherwise `get_detections` with the
      two dates compared as their midnights. */
  const EndBeforeStart := Error(HTTPException(406), "End date should be later than start date.")

  function GetShips(tiles: map<string, Tile>, rows: seq<Detection>, start: Day, end: Day,
                    dataType: string, showFloat: Float -> string): Result<Option<Export>>
  {
    if end < start then Err(EndBeforeStart)
    else GetDetections(tiles, rows, Midnight(start), Midnight(end), dataType, showFloat)
  }

  /** The request is rejected with status 406 exactly when the end date is
      before the start date; equal dates pass the guard. */
  lemma DateGuard(tiles: map<string, Tile>, rows: seq<Detection>, start: Day, end: Day,
                  dataType: string, showFloat: Float -> string)
    ensures var r := GetShips(tiles, rows, start, end, dataType, showFloat);
      (r.Err? && r.error.kind == HTTPException(406)) <==> end < start
  {
  }

  /** A single-day window (equal dates) matches no detection: a CSV
      export fails on the empty result and a GeoJSON export is empty. */
  lemma SameDayFindsNothing(tiles: map<string, Tile>, rows: seq<Detection>, day: Day, showFloat: Float -> string)
    ensures GetShips(tiles, rows, day, day, "csv", showFloat) == Err(IndexOutOfRange)
    ensures GetShips(tiles, rows, day, day, "geojson", showFloat) == Ok(Some(FeatureCollection([])))
  {
    EmptyWindowMatchesNothing(tiles, rows, Midnight(day), Midnight(day));
  }

  /** A detection is among those `get_ships` exports exactly when its
      Tile was acquired after the start date's midnight and before the
      end date's. */
  lemma ShipsInDateRange(tiles: map<string, Tile>, rows: seq<Detection>, start: Day, end: Day, d: Detection)
    requires start <= end
    ensures d in MatchingDetections(tiles, rows, Midnight(start), Midnight(end)) <==>
      && d in rows && d.tileDataset.Some? && d.tileDataset.value in tiles
      && tiles[d.tileDataset.value].acquisitionTime.Some?
      && start * MicrosPerDay < tiles[d.tileDataset.value].acquisitionTime.value < end * MicrosPerDay
  {
    MatchingDetectionsSelects(tiles, rows, Midnight(start), Midnight(end));
  }

  /** The first half of `detect_ships_in_area`: download the product,
      run the detector on it and parse what it left on disk. */
  method FetchProduct(area: Area, start: Day, end: Day, env: Collaborators) returns (f: Fetch)
    ensures f == Fetched(env, area, start, end)
  {
    var downloaded := env.download(area, start, end);
    if downloaded.Err? {
      return Fetch(Err(downloaded.error), 1);
    }
    if downloaded.value.None? {
      return Fetch(Err(DownloadFailed), 1);
    }
    var file := downloaded.value.value;
    var processed := env.process(file);
    if processed.Err? {
      return Fetch(Err(processed.error), 2);
    }
    var result := ParseResult(file, processed.value, env.coercions, env.now);
    return Fetch(result, 3);
  }

  /** The module state of Server/main.py: the database session the job
      opens and the shared `ws_manager`. */
  class Server {
    const session: Session
    const manager: ConnectionManager

    constructor (session: Session, manager: ConnectionManager)
      ensures this.session == session && this.manager == manager
    {
      this.session := session;
      this.manager := manager;
    }

    /** The second half of `detect_ships_in_area`: refuse a dataset that
        is already stored, commit the Tile, sweep duplicates. */
    method CommitProduct(tile: Tile) returns (r: Outcome, stages: seq<Stage>)
      requires session.Valid()
      modifies session
      ensures session.Valid()
      ensures var run := Commit(tile, old(session.tiles), old(session.detections));
        && r == run.outcome && stages == run.stages
        && session.tiles == run.tiles && session.detections == run.rows
      ensures session.ports == old(session.ports)
    {
      ghost var run := Commit(tile, session.tiles, session.detections);
      if session.HasTile(tile.dataset) {
        return Fail(ProductExists), AllStages[..4];
      }
      var added := session.AddTile(tile);
      if added.Fail? {
        return added, AllStages[..5];
      }
      var report := session.RemoveDuplicates();
      return Pass, AllStages;
    }

    /** `detect_ships_in_area`: download, process, parse, look the dataset
        up, store, sweep; the first failing step ends the job. */
    method DetectShipsInArea(area: Area, start: Day, end: Day, env: Collaborators) returns (r: Outcome, stages: seq<Stage>)
      requires session.Valid()
      modifies session
      ensures session.Valid()
      ensures var run := Ingest(env, area, start, end, old(session.tiles), old(session.detections));
        && r == run.outcome && stages == run.stages
        && session.tiles == run.tiles && session.detections == run.rows
      ensures session.ports == old(session.ports)
    {
      var f := FetchProduct(area, start, end, env);
      if f.product.Err? {
        return Fail(f.product.error), AllStages[..f.reached];
      }
      r, stages := CommitProduct(f.product.value);
    }

    /** The reporting half of `error_handler`: the exception's text to
        the client, or "success" to the client and "update_ships" to every
        connection. */
    method Notify(clientId: int, outcome: Outcome)
      modifies manager`log
      ensures manager.log == old(manager.log) + Notification(manager.activeConnections, clientId, outcome)
    {
      match outcome
      case Fail(e) =>
        var sent := manager.SendTextToClient(clientId, e.message, LogUnidentified);
      case Pass =>
        var sent := manager.SendTextToClient(clientId, "success", LogUnidentified);
        manager.Broadcast("update_ships");
    }

    /** `error_handler`: run the job, then tell the client how it ended;
        on success every connection is told to refresh. */
    method ErrorHandler(area: Area, clientId: int, start: Day, end: Day, env: Collaborators)
      requires session.Valid()
      modifies session, manager`log
      ensures session.Valid()
      ensures var run := Ingest(env, area, start, end, old(session.tiles), old(session.detections));
        && session.tiles == run.tiles && session.detections == run.rows
        && manager.log == old(manager.log) + Notification(manager.activeConnections, clientId, run.outcome)
      ensures session.ports == old(session.ports)
    {
      var r, stages := DetectShipsInArea(area, start, end, env);
      Notify(clientId, r);
    }
  }
}
