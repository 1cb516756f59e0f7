# BOATMAN ingestion server, modelled in Dafny

BOATMAN is a web service that detects ships in Sentinel-1 radar imagery.
A client posts an area and a date range. The server then does the following:

1. It downloads a product and runs the SNAP ship detector on it.
2. It parses the detector's output into a `Tile` row and its `Detection`
   rows, and stores them in SQLite.
3. It sweeps detections that share a position.
4. It reports the outcome over a websocket.

Clients then read the detections of a date window back as CSV or GeoJSON.

This project models that core and proves properties of it:

- `common.dfy` (`Common`): options, results carrying the Python exception
  (its class and its `str`), `list.index`/`list.remove`, an opaque `Float`
  type and microsecond timestamps.
- `text.dfy` (`Text`): `str.split` and `str.join` on one-character
  separators with their round trips, `str` of an `int`, and `repr` of a
  `str` as the exception messages quote it.
- `models.dfy` (`Models`): the `Detection` and `Tile` records of
  `server/models.py`.
  - The CSV header is derived from the class dictionary, as
    `attributes_string` does it.
  - It also covers the CSV row and the GeoJSON feature.
- `result_parser.dfy` (`ResultParser`): `parse_metadata`,
  `parse_ship_positions` and `parse_result`.
  - These are imperative loops, each proved against a specification
    function.
  - The files on disk are a value `Disk`. It holds the `MDATTR` elements of
    each metadata file and the lines of each detections file.
- `web_sockets.dfy` (`WebSockets`): the `ConnectionManager` class.
  - It holds its connection list and blocking flag.
  - Every message sent is appended to a log.
- `crud.dfy` (`Crud`): `get_detections`, `get_ports` and
  `remove_duplicates` over an in-memory copy of the tables, and a `Session`
  class that commits Tiles and deletes rows in place.
- `coordinator.dfy` (`Coordinator`): `detect_ships_in_area`,
  `error_handler` and the date guard of `get_ships`.
  - The download and the detector are collaborators passed in as functions.
  - The `Server` class owns the session and the connection manager.

## Model

| member | source | states |
|---|---|---|
| Common.IndexOf | Server/web_sockets.py:26 | `list.index`: the result holds `x` and no earlier position does |
| Common.RemoveFirst | Server/web_sockets.py:26 | `list.remove` shortens the list by exactly one |
| Common.RemoveFirstDropsFirstOccurrence | Server/web_sockets.py:26 | `list.remove` drops the first occurrence and keeps what is before and after it, in order |
| Common.RemoveFirstTakesOneCopy | server/models.py:39 | removing takes out one copy of the element and leaves every other element |
| Text.Split | server/models.py:57 | `str.split` yields at least one piece and no piece holds the separator |
| Text.Join | server/models.py:59 | `",".join(parts)` (here and at line 40): the parts with one separator between neighbours; stated by JoinSplit and SplitJoin |
| Text.JoinSplit | server/models.py:57-59 | joining the pieces of a split restores the string |
| Text.SplitPrefix | server/models.py:57 | a separator-free prefix sticks to the first piece of a split |
| Text.SplitJoin | server/models.py:40 | splitting a join of separator-free parts returns the parts |
| Text.DigitChar | server/models.py:58 | a decimal digit character has the given digit value |
| Text.NatToString | server/models.py:58 | `str` of a natural number is a non-empty string of digits |
| Text.IntToString | server/models.py:58 | `str` of an int is non-empty and holds no comma or line break |
| Text.NatToStringRoundTrip | server/models.py:58 | reading the digits of `str(n)` back gives `n` |
| Text.IntToStringValue | server/models.py:58 | `str(n)` is the decimal digits of `n`, after a `-` exactly when `n` is negative, and they read back as `n` |
| Text.NatToStringNoLeadingZero | server/models.py:58 | `str(n)` begins with `0` only when it is `"0"` |
| Text.Repr | Server/result_parser.py:86-105 | `repr` of a str as the `int`, `float` and `strptime` messages quote it: between quotes, with the quote, the backslash and control characters escaped |
| Text.ReprQuotes | Server/result_parser.py:86-105 | one quote character opens and closes the repr; it is `"` exactly when the string holds `'` and no `"` |
| Text.ReprPlain | Server/result_parser.py:86-105 | a string of printable characters other than `'` and `\` appears as it is, in single quotes |
| Text.ReprRoundTrip | Server/result_parser.py:86-105 | the text between the quotes reads back as the original string, so a message identifies the offending text |
| Models.NoRelationshipListsColumns | server/models.py:31-38 | without a relationship, the comprehension keeps exactly the column names, and none is `tile` |
| Models.RemoveRelationshipListsColumns | server/models.py:31-39 | with the single relationship `tile`, removing it from the filtered names leaves exactly the columns |
| Models.DetectionDictConventional | server/models.py:13-59 | every name of `Detection.__dict__` follows the naming the filter relies on, and there is one relationship |
| Models.DeclaredColumns | server/models.py:16-28 | the mapped columns are the eight names in declaration order |
| Models.AttributeNames | server/models.py:30-39 | the filtered keys of the class dictionary with `tile` removed; stated by AttributeNamesAreColumns |
| Models.AttributesString | server/models.py:30-40 | those names joined by commas; stated by HeaderText |
| Models.AttributeNamesAreColumns | server/models.py:30-40 | `attributes_string` lists exactly the declared columns in order: no relationship, method or `__`/`_sa_` name |
| Models.HeaderText | server/models.py:30-40 | the header is `id,tile_dataset,width,length,latitude,longitude,pixel_x,pixel_y` |
| Models.ColumnNamesCommaFree | server/models.py:16-28 | no column name holds a comma or a line break |
| Models.HeaderFields | server/models.py:57 | splitting the header on commas gives the eight column names |
| Models.GetAttrReadsColumn | server/models.py:58 | `getattr` on each header field reads that column of the detection |
| Models.GetAttr | server/models.py:58 | `getattr(detection, field)` for a column name: the column's value, NULL included; stated by GetAttrReadsColumn |
| Models.Str | server/models.py:58 | `str` of a column value: an int's digits, a float's text, a string itself, NULL as `None`; stated by CsvRowIsColumns and CsvRowSplitsIntoColumns |
| Models.CsvOfColumnNames | server/models.py:58-59 | the strings of the fields, read in column order, joined by commas, are the column strings joined |
| Models.ToCsv | server/models.py:56-59 | the header split on commas, each field replaced by its attribute's string, joined by commas; stated by CsvRowIsColumns and CsvRowSplitsIntoColumns |
| Models.CsvRowIsColumns | server/models.py:56-59 | `to_csv` is the eight column strings, in header order, joined by commas |
| Models.ColumnStringsAvoid | server/models.py:58 | no column string holds a comma or a line break unless a printed float or the tile name does |
| Models.CsvRowSplitsIntoColumns | server/models.py:56-59 | a CSV row has as many fields as the header, and field i is the string of header attribute i |
| Models.ToGeoJson | server/models.py:42-46 | the point is `(longitude, latitude)`; the properties are exactly `id`, `width`, `length` with the detection's values |
| ResultParser.LastIndexOf | Server/result_parser.py:47 | `rfind`: the result holds the character and nothing after it does, or it is -1 |
| ResultParser.Suffix | Server/result_parser.py:19 | `PurePath.suffix`: from the last dot on when that dot is neither first nor last, else empty; its properties are stated by SuffixOfAppended |
| ResultParser.Stem | Server/result_parser.py:19 | `PurePath.stem`: the name without its suffix; its properties are stated by StemNonEmpty and SuffixOfAppended |
| ResultParser.WithSuffix | Server/result_parser.py:19 | `with_suffix` succeeds exactly on a valid suffix and a named path; otherwise ValueError, naming the suffix or the path by its repr |
| ResultParser.StemNonEmpty | Server/result_parser.py:47 | the stem of a non-empty name is not empty |
| ResultParser.SuffixOfAppended | Server/result_parser.py:47 | appending a simple suffix to a stem makes it the suffix and keeps the stem |
| ResultParser.WithSuffixReplacesSuffix | Server/result_parser.py:19 | `with_suffix` keeps the directory and the stem, sets the suffix, and is idempotent |
| ResultParser.MetadataPath | Server/result_parser.py:47 | the metadata file: the input with suffix `.dim`; stated by DerivedPaths |
| ResultParser.DetectionsPath | Server/result_parser.py:18-20 | the detections file `vector_data/ShipDetections.csv` inside the input's `.data` directory; stated by DerivedPaths |
| ResultParser.IntError | Server/result_parser.py:86-88 | the ValueError of `int()`: the repr of the text, cut at 200 characters |
| ResultParser.IntErrorPlain | Server/result_parser.py:86-88 | for a short text of plain characters the `int()` message quotes the text itself in single quotes |
| ResultParser.FloatError | Server/result_parser.py:105 | the ValueError of `float()`, quoting the text by its repr |
| ResultParser.TimeError | Server/result_parser.py:92-102 | the ValueError of `strptime`: the unconverted rest when only a beginning of the text matches the format, else the repr of the text and of the format |
| ResultParser.DerivedPaths | Server/result_parser.py:18-47 | the metadata file is `<stem>.dim` beside the input and the detections file is `<stem>.data/vector_data/ShipDetections.csv`; a nameless input is a ValueError |
| ResultParser.SetCorner | Server/result_parser.py:104-105 | storing a corner reading sets that key and leaves the other seven |
| ResultParser.Step | Server/result_parser.py:76-105 | one pass of the loop body over an attribute; its effect is stated by the StepSets lemmas and StepFailsOnConversion |
| ResultParser.Scan | Server/result_parser.py:75-105 | the loop over the `MDATTR` elements, raising out of the first failure; its result is stated by the Scan and ScanKeepsLatest lemmas |
| ResultParser.KindOfMatchesName | Server/result_parser.py:76-105 | an attribute reaches a branch exactly when it carries that branch's name |
| ResultParser.StepFailsOnConversion | Server/result_parser.py:85-105 | one attribute fails the loop exactly when its `int`, `float` or `strptime` fails, with that exception |
| ResultParser.StepIgnoresUnrecognised | Server/result_parser.py:76-105 | an attribute with any other name, or none, leaves the state unchanged |
| ResultParser.ScanSucceedsWhenAllConvert | Server/result_parser.py:75-105 | the loop completes exactly when every attribute converts |
| ResultParser.ScanFailsAtFirstBadAttribute | Server/result_parser.py:75-105 | a failed loop raises the exception of the first attribute that does not convert |
| ResultParser.ScanStopsAtError | Server/result_parser.py:75-105 | once an attribute has raised, later attributes change nothing |
| ResultParser.RecognisedOnly | Server/result_parser.py:75-105 | filtering keeps only attributes the loop acts on |
| ResultParser.ScanIgnoresUnrecognised | Server/result_parser.py:75-105 | dropping the unrecognised attributes does not change the result of the loop |
| ResultParser.Latest | Server/result_parser.py:75-105 | the last attribute with a name is one of them, or none has the name |
| ResultParser.StepSetsText | Server/result_parser.py:77-83 | one attribute sets the text field its name selects and no other |
| ResultParser.StepSetsNumbers | Server/result_parser.py:85-102 | one attribute sets the image size or processing time its name selects and no other |
| ResultParser.StepSetsLineTimes | Server/result_parser.py:90-98 | one attribute sets the line time its name selects and no other |
| ResultParser.StepSetsCorner | Server/result_parser.py:104-105 | one attribute sets the corner its name selects and no other |
| ResultParser.ScanKeepsLatestText | Server/result_parser.py:75-83 | after the loop, dataset, descriptor and orbit hold the text of their last attribute; the input path is kept |
| ResultParser.ScanKeepsLatestNumbers | Server/result_parser.py:85-102 | after the loop, image size and processing time hold the conversion of their last attribute |
| ResultParser.ScanKeepsLatestLineTimes | Server/result_parser.py:90-98 | after the loop, each line time holds the conversion of its last attribute |
| ResultParser.ScanKeepsLatestCorners | Server/result_parser.py:104-105 | after the loop, each corner holds the conversion of its last attribute |
| ResultParser.LatestCorners | Server/result_parser.py:104-105 | after the loop from no readings, the reading under each corner key is the conversion of the last attribute with that key, or missing |
| ResultParser.BoundingBox | Server/result_parser.py:115-124 | each box field is the corner reading under the key the orbit selects: `DESCENDING` takes `first_far_lat`, `first_near_long`, `last_near_lat`, `last_far_long`; any other value takes `first_near_lat`, `first_far_long`, `last_far_lat`, `last_near_long` |
| ResultParser.DescendingMirrorsAscending | Server/result_parser.py:115-124 | a descending pass reads the ascending box with near and far exchanged; any other orbit value reads the ascending box |
| ResultParser.Half | Server/result_parser.py:108-109 | `timedelta / 2` is exact on even deltas; an odd delta of either sign goes to the even one of its two neighbouring halves |
| ResultParser.HalfIsNearest | Server/result_parser.py:109 | the half is a nearest integer to `delta / 2` and commutes with negation |
| ResultParser.Midpoint | Server/result_parser.py:107-109 | the acquisition time lies between the two line times and is their exact midpoint on an even delta |
| ResultParser.Finish | Server/result_parser.py:107-126 | after the loop: "Unable to parse dates" unless both line times were read, else the midpoint, the clock reading and the box are set; stated by MetadataOutcome |
| ResultParser.Metadata | Server/result_parser.py:46-126 | `parse_metadata` as a function; stated by MetadataOutcome and computed by ParseMetadata |
| ResultParser.ApplyAttribute | Server/result_parser.py:76-105 | the loop body does what one step of the specification does |
| ResultParser.ParseMetadata | Server/result_parser.py:46-126 | the method computes the specification of `parse_metadata` |
| ResultParser.MetadataOutcome | Server/result_parser.py:46-126 | a missing `.dim` raises FileNotFoundError first; otherwise a failed conversion raises, missing line times raise "Unable to parse dates", and success gives the input path, the clock reading, the midpoint of the last line times read, and the box that the last `PASS` text selects from the last corner readings |
| ResultParser.Uncommented | Server/result_parser.py:28 | no line left by the filter starts with `#` |
| ResultParser.IsComment | Server/result_parser.py:28 | the filter drops a line whose first character is `#`; stated by Uncommented and CommentLinesIgnored |
| ResultParser.UncommentedAppend | Server/result_parser.py:28 | the comment filter works line by line |
| ResultParser.DataRows | Server/result_parser.py:30-32 | the reader yields no empty row and at most one row per line |
| ResultParser.Fields | Server/result_parser.py:30 | one line split on tabs, an empty line giving no fields; stated by DataRows, DataRowsStep and CommentLinesIgnored |
| ResultParser.DataRowsAppend | Server/result_parser.py:30-32 | the rows of concatenated lines are the concatenated rows |
| ResultParser.LastPosition | Server/result_parser.py:30 | a repeated header field is read from its last column |
| ResultParser.Cell | Server/result_parser.py:35-40 | `row[key]` raises KeyError with the repr of the key exactly when the header lacks the key |
| ResultParser.CellFollowsDictReader | Server/result_parser.py:30-40 | the cell is the row's field under the key's last header position, or None past the row's end |
| ResultParser.IntColumn | Server/result_parser.py:35-36 | `int(row[key])`: KeyError for a missing column, TypeError for a row too short to reach it, ValueError for text that does not convert |
| ResultParser.FloatColumn | Server/result_parser.py:37-40 | `float(row[key])`, with the same three failures |
| ResultParser.RowDetection | Server/result_parser.py:33-41 | the Detection of one row, its columns read in argument order; stated by RowFieldsFromColumns |
| ResultParser.RowFieldsFromColumns | Server/result_parser.py:33-41 | a row yields a Detection exactly when the six columns convert; each field comes from its column, and the first failing column decides the exception |
| ResultParser.Positions | Server/result_parser.py:32-43 | the loop over the data rows; stated by the Positions lemmas |
| ResultParser.PositionsCollect | Server/result_parser.py:32-43 | the loop collects the conversions of the rows, in order, stopping at the first failure |
| ResultParser.PositionsAllOk | Server/result_parser.py:32-43 | the rows yield Detections exactly when every row converts |
| ResultParser.PositionsOnePerRow | Server/result_parser.py:32-43 | one Detection per data row, in row order |
| ResultParser.PositionsFirstError | Server/result_parser.py:32-43 | a failure is the exception of the first failing row; no partial list is returned |
| ResultParser.PositionsStopAtError | Server/result_parser.py:32-43 | rows after a failing row are never converted |
| ResultParser.PositionsExtend | Server/result_parser.py:32-42 | one more row appends its Detection or fails with its exception |
| ResultParser.DataRowsStep | Server/result_parser.py:30-32 | each further line adds its fields as a row unless it is empty |
| ResultParser.ReadSkipsEmpty | Server/result_parser.py:30-32 | an empty line adds no Detection |
| ResultParser.ReadAppendsRow | Server/result_parser.py:32-42 | a converting row appends its Detection |
| ResultParser.ReadFailsAtRow | Server/result_parser.py:32-42 | a failing row decides the outcome of the whole file |
| ResultParser.DataRowsStopAtError | Server/result_parser.py:32-43 | a failure among the first lines is the failure of the file |
| ResultParser.CommentLinesIgnored | Server/result_parser.py:27-30 | a `#` line anywhere is never the header and never a row |
| ResultParser.ShipPositions | Server/result_parser.py:17-43 | `parse_ship_positions` as a function: the path, FileNotFoundError for a missing file, then the reader; computed by ParseShipPositions |
| ResultParser.ParseShipPositions | Server/result_parser.py:17-43 | the method computes the specification of `parse_ship_positions` |
| ResultParser.ReadRows | Server/result_parser.py:27-43 | reading the open file computes the specification of the reader |
| ResultParser.ConvertRows | Server/result_parser.py:32-43 | the row loop computes one Detection per data row or the first failure |
| ResultParser.ParsedResult | Server/result_parser.py:129-133 | `parse_result` as a function; stated by ParsedResultComposes |
| ResultParser.ParseResult | Server/result_parser.py:129-133 | the method computes the specification of `parse_result` |
| ResultParser.ParsedResultComposes | Server/result_parser.py:129-133 | a metadata failure wins; otherwise the Tile is the metadata with the file's Detections attached, in file order |
| WebSockets.FirstWithId | Server/web_sockets.py:46-47 | the first connection with the id, or none has it |
| WebSockets.Send | Server/web_sockets.py:43-54 | one `send_text_to_client`: the first connection with the id gets the message, else the fallback runs; stated by SendReachesFirstConnection and SendFallsBack |
| WebSockets.SendReachesFirstConnection | Server/web_sockets.py:46-53 | a registered id gets exactly one message, on its first connection, and no fallback |
| WebSockets.SendFallsBack | Server/web_sockets.py:54 | an unregistered id gets nothing and the fallback runs once with the id and the message |
| WebSockets.BroadcastLog | Server/web_sockets.py:56-58 | broadcasting logs one event per connection visited |
| WebSockets.BroadcastOnePerConnection | Server/web_sockets.py:56-58 | copy i goes to the first connection having connection i's id |
| WebSockets.Recipient | Server/web_sockets.py:56-58 | the socket copy i of a broadcast goes to: the first connection with connection i's id; stated by BroadcastOnePerConnection and BroadcastReachesEveryone |
| WebSockets.BroadcastNeverFallsBack | Server/web_sockets.py:58 | the one-argument fallback of `broadcast` is never reached |
| WebSockets.BroadcastReachesEveryone | Server/web_sockets.py:56-58 | with distinct ids, every connection receives the message once, in list order |
| WebSockets.BroadcastSharedIdGoesToFirst | Server/web_sockets.py:56-58 | with a shared id, the first connection with it receives the later connection's copy as well as its own |
| WebSockets.ConnectThenDisconnect | Server/web_sockets.py:21-26 | connecting then disconnecting a pair restores the list when the pair was new |
| WebSockets.ConnectionManager.constructor | Server/web_sockets.py:16-19 | a new manager has no connections, is not blocking and has sent nothing |
| WebSockets.ConnectionManager.Connect | Server/web_sockets.py:21-23 | the pair is appended and the existing entries are untouched |
| WebSockets.ConnectionManager.Disconnect | Server/web_sockets.py:25-26 | the first equal pair is removed; an absent pair raises ValueError and changes nothing |
| WebSockets.ConnectionManager.UnblockClients | Server/web_sockets.py:28-30 | the flag is cleared and "unblock" is broadcast |
| WebSockets.ConnectionManager.BlockClients | Server/web_sockets.py:32-34 | the flag is set and "block" is broadcast |
| WebSockets.ConnectionManager.SendTextToClient | Server/web_sockets.py:43-54 | the log grows by what `Send` says and the connections are unchanged |
| WebSockets.ConnectionManager.Broadcast | Server/web_sockets.py:56-58 | the log grows by one send per connection, in list order; connections unchanged |
| Crud.InWindow | Server/crud.py:22-23 | the join and the strict date filter for one row; a NULL acquisition time never matches |
| Crud.MatchingDetections | Server/crud.py:20-25 | the rows the query returns, in table order; stated by MatchingDetectionsSelects |
| Crud.MatchingDetectionsSelects | Server/crud.py:20-25 | a row is returned exactly when its Tile's acquisition time is strictly inside the window |
| Crud.EmptyWindowMatchesNothing | Server/crud.py:23 | a window whose end is not after its start matches nothing |
| Crud.CsvLines | Server/crud.py:28 | one CSV line per detection |
| Crud.Features | Server/crud.py:32 | one feature per detection |
| Crud.GetDetections | Server/crud.py:17-34 | CSV fails with IndexError exactly when nothing matches; CSV gives text, GeoJSON a collection, anything else None |
| Crud.CsvRowHasNoLineBreak | Server/crud.py:28-30 | a CSV row holds no line break unless a printed float or tile name does |
| Crud.HeaderHasNoLineBreak | Server/crud.py:27 | the header holds no line break |
| Crud.CsvLinesHaveNoLineBreak | Server/crud.py:28-30 | no row of the export holds a line break |
| Crud.CsvExportLines | Server/crud.py:26-30 | split on line breaks, the export is the header and then one row per matching detection, in result order |
| Crud.GeoJsonExportFeatures | Server/crud.py:31-33 | one feature per matching detection, in result order, at `(longitude, latitude)` with keys `id`, `width`, `length` |
| Crud.InsertByOutflows | Server/crud.py:38 | inserting a port adds exactly that port to the multiset |
| Crud.InsertKeepsOrder | Server/crud.py:38 | inserting keeps outflows non-increasing |
| Crud.ByOutflows | Server/crud.py:38 | `ORDER BY outflows DESC` is a permutation with non-increasing outflows |
| Crud.Limit | Server/crud.py:38 | `LIMIT number`: the first `number` ports, all of them for a negative limit; stated by TopPorts |
| Crud.TopPorts | Server/crud.py:37-40 | at most `number` ports (all for a negative limit), non-increasing, drawn from the table |
| Crud.SortedPrefixIsTop | Server/crud.py:38 | in a sorted list, nothing after a cut outranks anything before it |
| Crud.TopPortsAreTop | Server/crud.py:37-40 | every port left out has no more outflows than any port returned |
| Crud.PlacesOfRows | Server/crud.py:50 | the pairs of a table are exactly those of its rows |
| Crud.Deduplicated | Server/crud.py:46-57 | the rows the sweep keeps, the first of each pair; stated by the dedup lemmas |
| Crud.Duplicates | Server/crud.py:46-54 | the rows the query selects for deletion, every one not first of its pair; stated by KeptPlusDuplicates |
| Crud.KeptPlusDuplicates | Server/crud.py:46-57 | every row is kept or selected for deletion |
| Crud.DeduplicatedKeepsPlaces | Server/crud.py:46-59 | every pair present before the sweep is present after it, and no other |
| Crud.DeduplicatedDistinct | Server/crud.py:46-59 | after the sweep no two rows share a pair |
| Crud.OneRowPerPlace | Server/crud.py:46-59 | the sweep leaves exactly one row per pair |
| Crud.DeduplicatedKeepsRows | Server/crud.py:46-59 | the surviving rows are unchanged rows of the table, in key order |
| Crud.DistinctUntouched | Server/crud.py:46-59 | a table without shared pairs is left as it is |
| Crud.SweepIsIdempotent | Server/crud.py:43-65 | a second sweep removes nothing |
| Crud.Without | Server/crud.py:56-57 | deleting keys never adds rows |
| Crud.DeletingDuplicatesLeavesKept | Server/crud.py:46-59 | deleting the selected duplicates by key leaves exactly the rows the sweep keeps |
| Crud.RemovalReport | Server/crud.py:63-65 | the printed line, with the removed count and the total in decimal |
| Crud.NextId | server/models.py:16 | the next INTEGER key exceeds every stored key |
| Crud.Numbered | server/models.py:16-18 | numbering keeps one row per parsed detection |
| Crud.TileDetections | server/models.py:65 | the rows whose foreign key is the Tile's dataset, in key order; stated by TileDetectionsInKeyOrder |
| Crud.TileDetectionsInKeyOrder | server/models.py:65 | `Tile.detections` holds exactly the Tile's rows, in `Detection.id` order |
| Crud.InsertedTileReadsBack | server/models.py:65 | a newly stored Tile reads back its parsed detections with consecutive new keys and its dataset as foreign key |
| Crud.InsertKeepsConsistent | server/models.py:65-68 | committing a Tile with a new dataset keeps the key and reference invariants |
| Crud.SweepKeepsConsistent | Server/crud.py:56-59 | the sweep keeps the key and reference invariants |
| Crud.Session.constructor | Server/main.py:75-86 | a session over a database whose ports table is filled and whose tile and detection tables are empty |
| Crud.Session.AddTile | Server/main.py:111-112 | a NULL dataset raises IntegrityError for the NOT NULL primary key and a repeated one IntegrityError for the UNIQUE key, changing nothing; otherwise the Tile and its numbered detections are stored |
| Crud.Session.HasTile | Server/main.py:105-108 | the primary-key lookup finds a Tile exactly when the dataset is not NULL and stored; stated by Coordinator.Server.CommitProduct |
| Crud.Session.Delete | Server/crud.py:57 | deleting a row removes the rows with its key |
| Crud.Session.DeleteAll | Server/crud.py:56-57 | the loop deletes every selected key and nothing else |
| Crud.Session.RemoveDuplicates | Server/crud.py:43-65 | the table becomes the deduplicated table, the invariants hold, and the report counts the removed rows out of the total |
| Coordinator.Fetched | Server/main.py:95-101 | a download that yields no file stops after the first step; a parsed Tile means all three steps ran |
| Coordinator.Commit | Server/main.py:105-114 | the store succeeds exactly for a new dataset, and a failure leaves the tables as they were |
| Coordinator.Ingest | Server/main.py:89-114 | every run leaves the tables consistent |
| Coordinator.StagesInOrder | Server/main.py:95-114 | the steps run in fixed order and stop at the first failure; only a success reaches the sweep, and a failure changes nothing |
| Coordinator.MissingDownloadStopsEarly | Server/main.py:95-98 | a download of None raises FileNotFoundError("Error while downloading the file.") before anything else runs |
| Coordinator.DuplicateProductRejected | Server/main.py:105-109 | a stored dataset raises ValueError("Product already exists in database.") and the store is unchanged |
| Coordinator.SuccessStoresThenSweeps | Server/main.py:105-114 | a run succeeds exactly for a parsed new dataset; then the Tile is stored and the sweep runs over the enlarged table |
| Coordinator.RepeatedRequestRejected | Server/main.py:105-112 | repeating a successful request is rejected as a duplicate and stores nothing more |
| Coordinator.Notification | Server/main.py:123-133 | the events `error_handler` logs after the job; stated by FailureNotifiesClientOnly and SuccessNotifiesThenBroadcasts |
| Coordinator.FailureNotifiesClientOnly | Server/main.py:125-128 | on failure exactly one message, `str(exception)`, goes to the client or to the log; nothing is broadcast |
| Coordinator.SuccessNotifiesThenBroadcasts | Server/main.py:129-133 | on success "success" goes first, to the client's first connection or, when no connection has the id, to the log; then one "update_ships" per connection |
| Coordinator.GetShips | Server/main.py:143-147 | the date guard, then `get_detections` on the two midnights; stated by DateGuard, SameDayFindsNothing and ShipsInDateRange |
| Coordinator.Midnight | Server/crud.py:23 | a date compared with a DATETIME column is the first instant of that day: a whole number of days from the epoch |
| Coordinator.DateGuard | Server/main.py:143-146 | status 406 exactly when the end date is before the start date |
| Coordinator.SameDayFindsNothing | Server/main.py:143-147 | equal dates pass the guard and match nothing: CSV raises IndexError, GeoJSON is empty |
| Coordinator.ShipsInDateRange | Server/main.py:147 | a detection is exported exactly when its Tile was acquired strictly between the two midnights |
| Coordinator.FetchProduct | Server/main.py:95-101 | download, process and parse compute the specification of the first three steps |
| Coordinator.Server.constructor | Server/main.py:29-31 | the server holds the given session and the shared manager |
| Coordinator.Server.CommitProduct | Server/main.py:105-114 | the lookup, commit and sweep leave the tables as the specification says; the ports are untouched |
| Coordinator.Server.DetectShipsInArea | Server/main.py:89-114 | the job's outcome, steps and tables are those of the specification |
| Coordinator.Server.Notify | Server/main.py:124-133 | the manager's log grows by the failure message, or by "success" and then the broadcast |
| Coordinator.Server.ErrorHandler | Server/main.py:117-133 | the tables follow the job, and the log grows by the notification of its outcome; the ports are untouched |

## Left out

- The asyncio event loop that `send_text_to_client` creates for each send,
  and `awaitable_block_clients`, are not modelled. This is concurrency.
  - A send is an atomic append to the manager's log.
  - `awaitable_block_clients` is not modelled at all.
- The `accept` handshake of `connect` is not modelled. This is network I/O.
- The FastAPI routes, background tasks, `ensure_ports_table`, the
  `db_creation_lock` of `get_db`, the websocket endpoint and the server
  startup are left out. They are HTTP plumbing, file I/O and locking.
  - The guard of `get_ships` is modelled as the function `GetShips`.
  - The ports route only supplies the default of 50 to `get_ports`.
- XML parsing, the `csv.DictReader` dialect, `int`, `float`,
  `datetime.strptime` and `datetime.now()` are parameters of the model.
  These are library calls and a clock. The parameter for `strptime` also
  says which trailing text it reports as unconverted.
  - The metadata file is given as its list of `MDATTR` elements.
  - The detections file is given as its lines.
  - A line is split on tabs without quoting.
- The `locale_context` around the scan is left out. It changes process-wide
  state.
- `str` of a float, and every float comparison other than equality, are
  left out. The model treats floats as opaque values. `to_csv` is
  parametrised by how a float prints.
- The `Port` model is not part of this model, and neither is its
  `to_geojson`. `get_ports` is modelled up to the ports it selects.
  `outflows` is taken to be a non-NULL integer.
- Crud.TopPorts: does not fix the order among ports with equal outflows. SQLite
  leaves that order to the query plan; the model keeps table order.
- Crud.Deduplicated: keeps the first row of each `(latitude, longitude)`
  pair, in key order. SQLite gives no such guarantee: the query
  `SELECT id ... GROUP BY latitude, longitude` may return any row of each
  group.
- The comparison of a `DATETIME` column with a `date` is modelled on the
  date's midnight. The date-to-text conversion SQLite performs is not
  modelled.
- A corner the metadata never mentions keeps the `typing.Optional[float]`
  placeholder in the source, and storing such a Tile would then fail. The
  model reads it as a missing value.
- The detections of a parsed Tile are stored with new consecutive keys. A
  detection that already carries a key is not modelled, and neither is the
  64-bit bound on keys.
- Crud.Session.AddTile: the IntegrityError messages stop after SQLite's own
  text. SQLAlchemy appends the SQL statement, its parameters and a
  documentation link, which depend on the statement it generates.
- Crud.MatchingDetections: returns the rows in table (rowid) order. The
  query has no `ORDER BY`, so SQLite promises no order; the model fixes one,
  and the CSV and GeoJSON exports follow it.
- Text.Repr: keeps every character from U+0080 up as it is. Python escapes
  the ones Unicode does not class as printable.
- A session that fails to commit is not rolled back. The model leaves its
  tables as they were before the commit.
- `remove_duplicates` prints its report. The model returns the line instead.
- The disconnect of a pair that is not connected raises ValueError from
  `list.remove`. The model follows that code; it does not treat the call as
  a no-op.
