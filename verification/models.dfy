/** The two mapped records of server/models.py, Detection and Tile, and the
    ways a Detection is exported: the CSV header taken from the class's own
    attribute listing, a CSV row, and a GeoJSON feature. */
module Models {
  import opened Common
  import opened Text

  /** One candidate ship sighting. `id` is the surrogate key the database
      assigns on insert and `tileDataset` the foreign key to the owning Tile;
      both are None on a freshly parsed detection. */
  datatype Detection = Detection(
    id: Option<int>,
    tileDataset: Option<string>,
    width: Float,
    length: Float,
    latitude: Float,
    longitude: Float,
    pixelX: int,
    pixelY: int)

  /** One processed product. Every column starts out as None, as in `Tile()`;
      `detections` is the relationship to the Tile's Detection rows. */
  datatype Tile = Tile(
    inputPath: Option<string>,
    dataset: Option<string>,
    descriptor: Option<string>,
    orbitType: Option<string>,
    imageWidth: Option<int>,
    imageHeight: Option<int>,
    acquisitionTime: Option<Micros>,
    esaProcessedTime: Option<Micros>,
    processedTime: Option<Micros>,
    topLeftLatitude: Option<Float>,
    topLeftLongitude: Option<Float>,
    bottomRightLatitude: Option<Float>,
    bottomRightLongitude: Option<Float>,
    detections: seq<Detection>)

  const EmptyTile := Tile(None, None, None, None, None, None, None, None, None,
                          None, None, None, None, [])

  /** What a name in the class's `__dict__` is bound to. */
  datatype MemberKind = Column | Relationship | Method | Internal

  datatype ClassMember = ClassMember(name: string, kind: MemberKind)

  /** The keys of a class's `__dict__`, in insertion order. */
  datatype ClassDict = End | Entry(member: ClassMember, rest: ClassDict)

  /** The tail of `Detection.__dict__` that the declarative base adds after
      the class body; every name starts with `__` or `_sa_`, and the
      generated `__init__` is callable. */
  const DeclarativeAdditions: ClassDict :=
    Entry(ClassMember("__doc__", Internal),
    Entry(ClassMember("__table__", Internal),
    Entry(ClassMember("__init__", Method),
    Entry(ClassMember("_sa_class_manager", Internal),
    Entry(ClassMember("__mapper__", Internal),
    End)))))

  /** The four methods of the class body, in declaration order. */
  const DetectionMethods: ClassDict :=
    Entry(ClassMember("attributes_string", Method),
    Entry(ClassMember("to_geojson", Method),
    Entry(ClassMember("__repr__", Method),
    Entry(ClassMember("to_csv", Method),
    DeclarativeAdditions))))

  /** The measurement and position columns of the class body. */
  const MeasureColumns: ClassDict :=
    Entry(ClassMember("width", Column),
    Entry(ClassMember("length", Column),
    Entry(ClassMember("latitude", Column),
    Entry(ClassMember("longitude", Column),
    Entry(ClassMember("pixel_x", Column),
    Entry(ClassMember("pixel_y", Column),
    DetectionMethods))))))

  /** `Detection.__dict__`: the class body in declaration order (module
      name, table name, key, foreign key, relationship, measurements,
      methods), then what the declarative base adds. */
  const DetectionClassDict: ClassDict :=
    Entry(ClassMember("__module__", Internal),
    Entry(ClassMember("__tablename__", Internal),
    Entry(ClassMember("id", Column),
    Entry(ClassMember("tile_dataset", Column),
    Entry(ClassMember("tile", Relationship),
    MeasureColumns)))))

  /** The eight column names in declaration order. */
  const ColumnNames: seq<string> :=
    ["id", "tile_dataset", "width", "length", "latitude", "longitude", "pixel_x", "pixel_y"]

  /** `s.startswith(prefix)`. */
  predicate StartsWith(s: string, prefix: string)
    decreases |prefix|
  {
    |prefix| == 0 || (|s| > 0 && s[0] == prefix[0] && StartsWith(s[1..], prefix[1..]))
  }

  /** The comprehension's filter in `attributes_string`: not callable, and
      not a `__` or `_sa_` name. */
  predicate Listed(m: ClassMember)
  {
    m.kind != Method && !(StartsWith(m.name, "__") || StartsWith(m.name, "_sa_"))
  }

  /** The names the comprehension keeps, in dictionary order. */
  function ListedNames(d: ClassDict): seq<string>
  {
    match d
    case End => []
    case Entry(m, rest) => (if Listed(m) then [m.name] else []) + ListedNames(rest)
  }

  /** The names bound to mapped columns, in dictionary order. */
  function ColumnsOf(d: ClassDict): seq<string>
  {
    match d
    case End => []
    case Entry(m, rest) => (if m.kind == Column then [m.name] else []) + ColumnsOf(rest)
  }

  /** How many relationships the dictionary declares. */
  function Relationships(d: ClassDict): nat
  {
    match d
    case End => 0
    case Entry(m, rest) => (if m.kind == Relationship then 1 else 0) + Relationships(rest)
  }

  /** The naming the filter relies on: internal names start with `__` or
      `_sa_`, the relationship is called `tile`, and no column is. */
  predicate Conventional(m: ClassMember)
  {
    (Listed(m) <==> m.kind == Column || m.kind == Relationship)
    && (m.kind == Relationship ==> m.name == "tile")
    && (m.kind == Column ==> m.name != "tile")
  }

  predicate AllConventional(d: ClassDict)
  {
    match d
    case End => true
    case Entry(m, rest) => Conventional(m) && AllConventional(rest)
  }

  /** Without a relationship, the filter keeps exactly the columns, and
      none of them is called `tile`. */
  lemma {:induction false} NoRelationshipListsColumns(d: ClassDict)
    requires AllConventional(d) && Relationships(d) == 0
    ensures ListedNames(d) == ColumnsOf(d)
    ensures "tile" !in ListedNames(d)
  {
    match d
    case End =>
    case Entry(m, rest) =>
      NoRelationshipListsColumns(rest);
  }

  /** With a single relationship named `tile`, the filter keeps the columns
      and the relationship in dictionary order, so removing `tile` leaves
      exactly the columns. */
  lemma {:induction false} RemoveRelationshipListsColumns(d: ClassDict)
    requires AllConventional(d) && Relationships(d) == 1
    ensures "tile" in ListedNames(d)
    ensures RemoveFirst(ListedNames(d), "tile") == ColumnsOf(d)
  {
    match d
    case Entry(m, rest) =>
      if m.kind == Relationship {
        NoRelationshipListsColumns(rest);
        assert ListedNames(d) == ["tile"] + ListedNames(rest);
      } else {
        RemoveRelationshipListsColumns(rest);
        var l := ListedNames(d);
        if m.kind == Column {
          assert l == [m.name] + ListedNames(rest);
          assert l[0] == m.name && m.name != "tile";
          assert l[1..] == ListedNames(rest);
          assert RemoveFirst(l, "tile") == [m.name] + RemoveFirst(ListedNames(rest), "tile");
        } else {
          assert !Listed(m);
          assert l == ListedNames(rest);
        }
      }
  }

  /** Each part of the dictionary follows that naming, checked name by
      name. */
  lemma AdditionsConventional()
    ensures AllConventional(DeclarativeAdditions)
    ensures Relationships(DeclarativeAdditions) == 0 && ColumnsOf(DeclarativeAdditions) == []
  {
    assert Conventional(ClassMember("__doc__", Internal));
    assert Conventional(ClassMember("__table__", Internal));
    assert Conventional(ClassMember("_sa_class_manager", Internal));
    assert Conventional(ClassMember("__mapper__", Internal));
    assert Conventional(ClassMember("attributes_string", Method));
    assert Conventional(ClassMember("to_geojson", Method));
    assert Conventional(ClassMember("__repr__", Method));
    assert Conventional(ClassMember("to_csv", Method));
    assert Conventional(ClassMember("__init__", Method));
  }

  lemma MethodsConventional()
    ensures AllConventional(DetectionMethods)
    ensures Relationships(DetectionMethods) == 0 && ColumnsOf(DetectionMethods) == []
  {
    assert Conventional(ClassMember("attributes_string", Method));
    assert Conventional(ClassMember("to_geojson", Method));
    assert Conventional(ClassMember("__repr__", Method));
    assert Conventional(ClassMember("to_csv", Method));
    assert Conventional(ClassMember("__init__", Method));
    AdditionsConventional();
  }

  lemma MeasuresConventional()
    ensures AllConventional(MeasureColumns) && Relationships(MeasureColumns) == 0
  {
    assert Conventional(ClassMember("width", Column));
    assert Conventional(ClassMember("length", Column));
    assert Conventional(ClassMember("latitude", Column));
    assert Conventional(ClassMember("longitude", Column));
    assert Conventional(ClassMember("pixel_x", Column));
    assert Conventional(ClassMember("pixel_y", Column));
    MethodsConventional();
  }

  lemma MeasureColumnNames()
    ensures ColumnsOf(MeasureColumns) == ColumnNames[2..]
  {
    assert ColumnsOf(DeclarativeAdditions) == [];
    assert ColumnsOf(DetectionMethods) == [];
    assert ColumnNames[2..] == ["width", "length", "latitude", "longitude", "pixel_x", "pixel_y"];
  }

  /** The dictionary follows the naming the filter relies on and declares
      one relationship. */
  lemma DetectionDictConventional()
    ensures AllConventional(DetectionClassDict) && Relationships(DetectionClassDict) == 1
  {
    assert Conventional(ClassMember("__module__", Internal));
    assert Conventional(ClassMember("__tablename__", Internal));
    assert Conventional(ClassMember("id", Column));
    assert Conventional(ClassMember("tile_dataset", Column));
    assert Conventional(ClassMember("tile", Relationship));
    MeasuresConventional();
  }

  /** The mapped columns of Detection are the eight names, in declaration
      order. */
  lemma DeclaredColumns()
    ensures ColumnsOf(DetectionClassDict) == ColumnNames
  {
    MeasureColumnNames();
    assert ColumnsOf(DetectionClassDict) == ["id", "tile_dataset"] + ColumnsOf(MeasureColumns);
  }

  /** The attribute names `attributes_string` lists: the filtered
      dictionary keys with `tile` removed. */
  function AttributeNames(): seq<string>
  {
    DetectionDictConventional();
    RemoveRelationshipListsColumns(DetectionClassDict);
    RemoveFirst(ListedNames(DetectionClassDict), "tile")
  }

  /** `Detection.attributes_string()`: the CSV header. */
  function AttributesString(): string
  {
    Join(AttributeNames(), ',')
  }

  /** The header lists exactly the declared columns, in declaration order:
      the relationship, the methods and the internal names are left out. */
  lemma AttributeNamesAreColumns()
    ensures AttributeNames() == ColumnsOf(DetectionClassDict)
    ensures AttributeNames() == ColumnNames
  {
    DetectionDictConventional();
    RemoveRelationshipListsColumns(DetectionClassDict);
    DeclaredColumns();
  }

  /** The header line of a CSV export is the column names joined by commas. */
  lemma HeaderText()
    ensures AttributesString() == Join(ColumnNames, ',')
  {
    AttributeNamesAreColumns();
  }

  /** No column name holds a comma or a line break. */
  lemma ColumnNamesCommaFree()
    ensures NoSeparator(ColumnNames, ',')
    ensures NoSeparator(ColumnNames, '\n')
  {}

  /** Splitting the header on commas gives the column names back. */
  lemma HeaderFields()
    ensures Split(AttributesString(), ',') == ColumnNames
  {
    AttributeNamesAreColumns();
    ColumnNamesCommaFree();
    SplitJoin(ColumnNames, ',');
  }

  /** A Python value as it is read off a mapped attribute. */
  datatype Value = IntV(i: int) | FloatV(f: Float) | StrV(s: string) | NoneV

  function OptIntV(x: Option<int>): Value
  {
    match x
    case Some(n) => IntV(n)
    case None => NoneV
  }

  function OptStrV(x: Option<string>): Value
  {
    match x
    case Some(s) => StrV(s)
    case None => NoneV
  }

  /** `getattr(detection, name)` for a column name. */
  function GetAttr(d: Detection, name: string): Value
    requires name in ColumnNames
  {
    if name == "id" then OptIntV(d.id)
    else if name == "tile_dataset" then OptStrV(d.tileDataset)
    else if name == "width" then FloatV(d.width)
    else if name == "length" then FloatV(d.length)
    else if name == "latitude" then FloatV(d.latitude)
    else if name == "longitude" then FloatV(d.longitude)
    else if name == "pixel_x" then IntV(d.pixelX)
    else IntV(d.pixelY)
  }

  /** `str(value)`; how a float prints is a parameter of the model. */
  function Str(v: Value, showFloat: Float -> string): string
  {
    match v
    case IntV(n) => IntToString(n)
    case FloatV(f) => showFloat(f)
    case StrV(s) => s
    case NoneV => "None"
  }

  /** The strings of the named attributes, joined with commas. */
  function CsvOf(d: Detection, showFloat: Float -> string, fields: seq<string>): string
    requires forall i :: 0 <= i < |fields| ==> fields[i] in ColumnNames
  {
    Join(seq(|fields|, i requires 0 <= i < |fields| => Str(GetAttr(d, fields[i]), showFloat)), ',')
  }

  /** `Detection.to_csv()`: the header's fields, each replaced by the string
      of that attribute, joined with commas. */
  function ToCsv(d: Detection, showFloat: Float -> string): string
  {
    HeaderFields();
    CsvOf(d, showFloat, Split(AttributesString(), ','))
  }

  /** The strings of the eight columns of a detection, in declaration order. */
  function ColumnStrings(d: Detection, showFloat: Float -> string): seq<string>
  {
    [Str(OptIntV(d.id), showFloat), Str(OptStrV(d.tileDataset), showFloat),
     showFloat(d.width), showFloat(d.length), showFloat(d.latitude), showFloat(d.longitude),
     IntToString(d.pixelX), IntToString(d.pixelY)]
  }

  /** `getattr` on each column name reads that column. */
  lemma GetAttrReadsColumn(d: Detection)
    ensures GetAttr(d, ColumnNames[0]) == OptIntV(d.id)
    ensures GetAttr(d, ColumnNames[1]) == OptStrV(d.tileDataset)
    ensures GetAttr(d, ColumnNames[2]) == FloatV(d.width)
    ensures GetAttr(d, ColumnNames[3]) == FloatV(d.length)
    ensures GetAttr(d, ColumnNames[4]) == FloatV(d.latitude)
    ensures GetAttr(d, ColumnNames[5]) == FloatV(d.longitude)
    ensures GetAttr(d, ColumnNames[6]) == IntV(d.pixelX)
    ensures GetAttr(d, ColumnNames[7]) == IntV(d.pixelY)
  {}

  /** Reading the column names in order gives the column strings. */
  lemma CsvOfColumnNames(d: Detection, showFloat: Float -> string)
    ensures CsvOf(d, showFloat, ColumnNames) == Join(ColumnStrings(d, showFloat), ',')
  {
    GetAttrReadsColumn(d);
    var data := seq(|ColumnNames|, i requires 0 <= i < |ColumnNames| => Str(GetAttr(d, ColumnNames[i]), showFloat));
    assert data == ColumnStrings(d, showFloat);
  }

  /** A CSV row lists the columns of the detection in header order. */
  lemma CsvRowIsColumns(d: Detection, showFloat: Float -> string)
    ensures ToCsv(d, showFloat) == Join(ColumnStrings(d, showFloat), ',')
  {
    HeaderFields();
    CsvOfColumnNames(d, showFloat);
  }

  /** No printed float contains the character `c`. */
  ghost predicate FloatsAvoid(showFloat: Float -> string, c: char)
  {
    forall f :: c !in showFloat(f)
  }

  /** The tile name of a detection does not hold `c`. */
  predicate DatasetAvoids(d: Detection, c: char)
  {
    d.tileDataset.Some? ==> c !in d.tileDataset.value
  }

  /** No column string holds a comma, or a line break, when neither a
      printed float nor the tile name does. */
  lemma ColumnStringsAvoid(d: Detection, showFloat: Float -> string, c: char)
    requires c == ',' || c == '\n'
    requires FloatsAvoid(showFloat, c) && DatasetAvoids(d, c)
    ensures NoSeparator(ColumnStrings(d, showFloat), c)
  {
    var data := ColumnStrings(d, showFloat);
    assert c !in "None";
    assert c !in showFloat(d.width) && c !in showFloat(d.length);
    assert c !in showFloat(d.latitude) && c !in showFloat(d.longitude);
    assert c !in data[0] && c !in data[1];
  }

  /** Splitting a CSV row on commas gives the column strings back, one per
      header field, provided neither a printed float nor the tile name holds
      a comma. */
  lemma CsvRowSplitsIntoColumns(d: Detection, showFloat: Float -> string)
    requires FloatsAvoid(showFloat, ',') && DatasetAvoids(d, ',')
    ensures Split(ToCsv(d, showFloat), ',') == ColumnStrings(d, showFloat)
  {
    CsvRowIsColumns(d, showFloat);
    ColumnStringsAvoid(d, showFloat, ',');
    SplitJoin(ColumnStrings(d, showFloat), ',');
  }

  /** A GeoJSON point: `(longitude, latitude)`. */
  datatype Point = Point(coordinates: (Float, Float))

  /** A GeoJSON feature with its properties in insertion order. */
  datatype Feature = Feature(geometry: Point, properties: seq<(string, Value)>)

  function Keys(props: seq<(string, Value)>): seq<string>
  {
    seq(|props|, i requires 0 <= i < |props| => props[i].0)
  }

  /** Value of the last entry under `key`, as a Python dict keeps it. */
  function Lookup(props: seq<(string, Value)>, key: string): Option<Value>
    decreases |props|
  {
    if props == [] then None
    else if props[|props| - 1].0 == key then Some(props[|props| - 1].1)
    else Lookup(props[..|props| - 1], key)
  }

  /** `Detection.to_geojson()`. */
  function ToGeoJson(d: Detection): (f: Feature)
    ensures f.geometry.coordinates.0 == d.longitude && f.geometry.coordinates.1 == d.latitude
    ensures Keys(f.properties) == ["id", "width", "length"]
    ensures Lookup(f.properties, "id") == Some(OptIntV(d.id))
    ensures Lookup(f.properties, "width") == Some(FloatV(d.width))
    ensures Lookup(f.properties, "length") == Some(FloatV(d.length))
  {
    var props := [("id", OptIntV(d.id)), ("width", FloatV(d.width)), ("length", FloatV(d.length))];
    var first := props[..|props| - 1];
    assert first == [("id", OptIntV(d.id)), ("width", FloatV(d.width))];
    assert first[..|first| - 1] == [("id", OptIntV(d.id))];
    assert Lookup(first, "id") == Lookup(first[..|first| - 1], "id") == Some(OptIntV(d.id));
    Feature(Point((d.longitude, d.latitude)), props)
  }
}
