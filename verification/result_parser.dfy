/** Server/result_parser.py: turning the output of the SNAP processing
    graph into a Tile with its Detections. The XML metadata file and the
    tab-separated detections file are given already split: the metadata as
    the `(name, text)` pairs of its `MDATTR` elements in document order,
    the detections file as its lines. `int()`, `float()` and
    `datetime.strptime` are parameters of the model. */
module ResultParser {
  import opened Common
  import opened Text
  import opened Models

  // ---------------------------------------------------------------------
  // Paths

  /** A `pathlib.Path`: the components before the last one, and the last
      one (`Path.name`). An absolute path has `""` as its first component;
      the root is `Path([""], "")`. */
  datatype Path = Path(parent: seq<string>, name: string)

  /** `str(path)`. */
  function PathString(p: Path): string
  {
    if p.parent == [] && p.name == "" then "." else Join(p.parent + [p.name], '/')
  }

  /** `s.rfind(c)`: the last position holding `c`, or -1. */
  function LastIndexOf(s: string, c: char): (r: int)
    ensures -1 <= r < |s|
    ensures r >= 0 ==> s[r] == c
    ensures forall k :: r < k < |s| ==> s[k] != c
    decreases |s|
  {
    if |s| == 0 then -1
    else if s[|s| - 1] == c then |s| - 1
    else LastIndexOf(s[..|s| - 1], c)
  }

  /** Whether `name` has a suffix: a dot that is neither its first nor its
      last character. */
  predicate HasSuffix(name: string)
  {
    0 < LastIndexOf(name, '.') < |name| - 1
  }

  /** `PurePath.suffix`: from the last dot on, or empty. */
  function Suffix(name: string): string
  {
    if HasSuffix(name) then name[LastIndexOf(name, '.')..] else ""
  }

  /** `PurePath.stem`: the name without its suffix. */
  function Stem(name: string): string
  {
    if HasSuffix(name) then name[..LastIndexOf(name, '.')] else name
  }

  /** A suffix `with_suffix` accepts. */
  predicate ValidSuffix(suffix: string)
  {
    '/' !in suffix && (suffix == "" || (suffix[0] == '.' && suffix != "."))
  }

  /** `path.with_suffix(suffix)`: the same directory, the stem followed by
      the new suffix. */
  function WithSuffix(p: Path, suffix: string): (r: Result<Path>)
    ensures r.Ok? <==> ValidSuffix(suffix) && p.name != ""
    ensures r.Err? ==> r.error.kind == ValueError
  {
    if !ValidSuffix(suffix) then Err(Error(ValueError, "Invalid suffix " + Repr(suffix)))
    else if p.name == "" then Err(Error(ValueError, "PosixPath(" + Repr(PathString(p)) + ") has an empty name"))
    else Ok(Path(p.parent, Stem(p.name) + suffix))
  }

  /** A suffix made of one dot and at least one other character. */
  predicate SimpleSuffix(suffix: string)
  {
    |suffix| >= 2 && suffix[0] == '.' && '.' !in suffix[1..] && '/' !in suffix
  }

  /** The stem of a non-empty name is not empty. */
  lemma StemNonEmpty(name: string)
    requires name != ""
    ensures Stem(name) != ""
  {}

  /** Appending a simple suffix to a non-empty stem makes it the suffix and
      leaves the stem as it was. */
  lemma {:induction false} SuffixOfAppended(stem: string, suffix: string)
    requires stem != "" && SimpleSuffix(suffix)
    ensures Suffix(stem + suffix) == suffix
    ensures Stem(stem + suffix) == stem
  {
    var name := stem + suffix;
    var i := LastIndexOf(name, '.');
    assert name[|stem|] == '.';
    assert i == |stem|;
    assert name[i..] == suffix;
    assert name[..i] == stem;
  }

  /** `with_suffix` with a simple suffix replaces the suffix, keeps the
      stem and the directory, and is idempotent. */
  lemma WithSuffixReplacesSuffix(p: Path, suffix: string)
    requires p.name != "" && SimpleSuffix(suffix)
    ensures WithSuffix(p, suffix).Ok?
    ensures WithSuffix(p, suffix).value.parent == p.parent
    ensures Stem(WithSuffix(p, suffix).value.name) == Stem(p.name)
    ensures Suffix(WithSuffix(p, suffix).value.name) == suffix
    ensures WithSuffix(WithSuffix(p, suffix).value, suffix) == WithSuffix(p, suffix)
  {
    StemNonEmpty(p.name);
    SuffixOfAppended(Stem(p.name), suffix);
  }

  /** The metadata file: the input with its suffix replaced by `.dim`. */
  function MetadataPath(input: Path): Result<Path>
  {
    WithSuffix(input, ".dim")
  }

  /** The detections file: `vector_data/ShipDetections.csv` inside the
      input's `.data` directory. */
  function DetectionsPath(input: Path): Result<Path>
  {
    match WithSuffix(input, ".data")
    case Err(e) => Err(e)
    case Ok(data) => Ok(Path(data.parent + [data.name, "vector_data"], "ShipDetections.csv"))
  }

  /** Both derived files sit next to the input and share its stem: the
      metadata file is `<stem>.dim`, the detections file lives under
      `<stem>.data/vector_data/`. A nameless input is a ValueError. */
  lemma DerivedPaths(input: Path)
    ensures input.name == "" ==> MetadataPath(input).Err? && DetectionsPath(input).Err?
    ensures input.name != "" ==>
      && MetadataPath(input).Ok? && DetectionsPath(input).Ok?
      && MetadataPath(input).value.parent == input.parent
      && Stem(MetadataPath(input).value.name) == Stem(input.name)
      && Suffix(MetadataPath(input).value.name) == ".dim"
      && DetectionsPath(input).value.parent == input.parent + [Stem(input.name) + ".data", "vector_data"]
      && DetectionsPath(input).value.name == "ShipDetections.csv"
  {
    if input.name != "" {
      assert SimpleSuffix(".dim") && SimpleSuffix(".data");
      WithSuffixReplacesSuffix(input, ".dim");
      WithSuffixReplacesSuffix(input, ".data");
    }
  }

  // ---------------------------------------------------------------------
  // Inputs

  /** An `MDATTR` element: its `name` attribute and its text, either of
      which may be missing. */
  datatype Attr = Attr(name: Option<string>, text: Option<string>)

  /** The files the parser can open: parsed metadata files and the lines
      of tab-separated files. A path that is in neither map does not
      exist. */
  datatype Disk = Disk(metadata: map<Path, seq<Attr>>, tables: map<Path, seq<string>>)

  /** `int(s)`, `float(s)` and `datetime.strptime(s, "%d-%b-%Y
      %H:%M:%S.%f")`, None where Python raises ValueError; and, for a
      text whose beginning matches the time format but not the whole,
      the rest that `strptime` reports as unconverted. */
  datatype Coercions = Coercions(
    toInt: string -> Option<int>,
    toFloat: string -> Option<Float>,
    toTime: string -> Option<Micros>,
    timeLeftover: string -> Option<string>)

  function NotFound(p: Path): Error
  {
    Error(FileNotFoundError, "Unable to open: " + PathString(p))
  }

  /** What `int(s)` raises: the repr of `s`, cut at 200 characters. */
  function IntError(s: string): Error
  {
    var quoted := Repr(s);
    Error(ValueError, "invalid literal for int() with base 10: " + quoted[..if |quoted| <= 200 then |quoted| else 200])
  }

  /** For a short text of plain characters the message quotes the text
      itself in single quotes. */
  lemma IntErrorPlain(s: string)
    requires forall i :: 0 <= i < |s| ==> Plain(s[i])
    requires |s| <= 198
    ensures IntError(s) == Error(ValueError, "invalid literal for int() with base 10: '" + s + "'")
  {
    ReprPlain(s);
  }

  /** What `float(s)` raises. */
  function FloatError(s: string): Error
  {
    Error(ValueError, "could not convert string to float: " + Repr(s))
  }

  const TimeFormat := "%d-%b-%Y %H:%M:%S.%f"

  /** What `strptime(s, TimeFormat)` raises: a text that matches the
      format only in its beginning reports the rest. */
  function TimeError(s: string, c: Coercions): Error
  {
    match c.timeLeftover(s)
    case Some(rest) => Error(ValueError, "unconverted data remains: " + rest)
    case None => Error(ValueError, "time data " + Repr(s) + " does not match format " + Repr(TimeFormat))
  }

  // ---------------------------------------------------------------------
  // The metadata scan

  /** The eight corner readings of the scan, keyed as in the metadata. */
  datatype Corners = Corners(
    firstNearLat: Option<Float>, firstNearLong: Option<Float>,
    firstFarLat: Option<Float>, firstFarLong: Option<Float>,
    lastNearLat: Option<Float>, lastNearLong: Option<Float>,
    lastFarLat: Option<Float>, lastFarLong: Option<Float>)

  const NoCorners := Corners(None, None, None, None, None, None, None, None)

  const CornerKeys: seq<string> :=
    ["first_near_lat", "first_near_long", "first_far_lat", "first_far_long",
     "last_near_lat", "last_near_long", "last_far_lat", "last_far_long"]

  /** The reading stored under a corner key. */
  function CornerAt(c: Corners, key: string): Option<Float>
  {
    if key == "first_near_lat" then c.firstNearLat
    else if key == "first_near_long" then c.firstNearLong
    else if key == "first_far_lat" then c.firstFarLat
    else if key == "first_far_long" then c.firstFarLong
    else if key == "last_near_lat" then c.lastNearLat
    else if key == "last_near_long" then c.lastNearLong
    else if key == "last_far_lat" then c.lastFarLat
    else c.lastFarLong
  }

  /** `positions[key] = v` for a corner key. */
  function SetCorner(c: Corners, key: string, v: Float): (r: Corners)
    requires key in CornerKeys
    ensures CornerAt(r, key) == Some(v)
    ensures forall k :: k in CornerKeys && k != key ==> CornerAt(r, k) == CornerAt(c, k)
  {
    if key == "first_near_lat" then c.(firstNearLat := Some(v))
    else if key == "first_near_long" then c.(firstNearLong := Some(v))
    else if key == "first_far_lat" then c.(firstFarLat := Some(v))
    else if key == "first_far_long" then c.(firstFarLong := Some(v))
    else if key == "last_near_lat" then c.(lastNearLat := Some(v))
    else if key == "last_near_long" then c.(lastNearLong := Some(v))
    else if key == "last_far_lat" then c.(lastFarLat := Some(v))
    else c.(lastFarLong := Some(v))
  }

  /** What the loop of `parse_metadata` carries from one attribute to the
      next: the Tile being filled, the two line times and the corners. */
  datatype ScanState = ScanState(
    tile: Tile,
    firstLineTime: Option<Micros>,
    lastLineTime: Option<Micros>,
    corners: Corners)

  /** The state before the first attribute: a fresh Tile with its input
      path set. */
  function InitialState(input: Path): ScanState
  {
    ScanState(EmptyTile.(inputPath := Some(PathString(input))), None, None, NoCorners)
  }

  /** `str(type_tag.text)`. */
  function TextOf(text: Option<string>): string
  {
    match text
    case Some(s) => s
    case None => "None"
  }

  /** What the loop does with an attribute, decided by its name. */
  datatype NameKind =
    | Product | Descriptor | OrbitPass
    | OutputLines | SamplesPerLine
    | FirstLineTime | LastLineTime | ProcTime
    | Corner
    | Other

  /** The test of the loop body that an attribute name passes; a missing
      name passes none of them. */
  function KindOf(name: Option<string>): NameKind
  {
    match name
    case None => Other
    case Some(n) =>
      if n == "PRODUCT" then Product
      else if n == "SPH_DESCRIPTOR" then Descriptor
      else if n == "PASS" then OrbitPass
      else if n == "num_output_lines" then OutputLines
      else if n == "num_samples_per_line" then SamplesPerLine
      else if n == "first_line_time" then FirstLineTime
      else if n == "last_line_time" then LastLineTime
      else if n == "PROC_TIME" then ProcTime
      else if n in CornerKeys then Corner
      else Other
  }

  /** Each test is an exact match on the name, so an attribute reaches a
      branch exactly when it carries that branch's name. */
  lemma KindOfMatchesName(name: Option<string>)
    ensures KindOf(name) == Product <==> name == Some("PRODUCT")
    ensures KindOf(name) == Descriptor <==> name == Some("SPH_DESCRIPTOR")
    ensures KindOf(name) == OrbitPass <==> name == Some("PASS")
    ensures KindOf(name) == OutputLines <==> name == Some("num_output_lines")
    ensures KindOf(name) == SamplesPerLine <==> name == Some("num_samples_per_line")
    ensures KindOf(name) == FirstLineTime <==> name == Some("first_line_time")
    ensures KindOf(name) == LastLineTime <==> name == Some("last_line_time")
    ensures KindOf(name) == ProcTime <==> name == Some("PROC_TIME")
    ensures KindOf(name) == Corner <==> name.Some? && name.value in CornerKeys
  {}

  /** The attributes the scan acts on. */
  predicate Recognised(a: Attr)
  {
    KindOf(a.name) != Other
  }

  /** The attribute's text converts the way its name asks for; names that
      take the text as it is always convert. */
  predicate Converts(a: Attr, c: Coercions)
  {
    match KindOf(a.name)
    case OutputLines | SamplesPerLine => c.toInt(TextOf(a.text)).Some?
    case FirstLineTime | LastLineTime | ProcTime => c.toTime(TextOf(a.text)).Some?
    case Corner => c.toFloat(TextOf(a.text)).Some?
    case _ => true
  }

  /** The exception raised for an attribute that does not convert. */
  function ConversionError(a: Attr, c: Coercions): Error
  {
    var text := TextOf(a.text);
    match KindOf(a.name)
    case OutputLines | SamplesPerLine => IntError(text)
    case FirstLineTime | LastLineTime | ProcTime => TimeError(text, c)
    case _ => FloatError(text)
  }

  /** One iteration of the loop in `parse_metadata`. */
  function Step(s: ScanState, a: Attr, c: Coercions): Result<ScanState>
  {
    var text := TextOf(a.text);
    match KindOf(a.name)
    case Product => Ok(s.(tile := s.tile.(dataset := a.text)))
    case Descriptor => Ok(s.(tile := s.tile.(descriptor := a.text)))
    case OrbitPass => Ok(s.(tile := s.tile.(orbitType := a.text)))
    case OutputLines =>
      (match c.toInt(text)
       case None => Err(IntError(text))
       case Some(v) => Ok(s.(tile := s.tile.(imageHeight := Some(v)))))
    case SamplesPerLine =>
      (match c.toInt(text)
       case None => Err(IntError(text))
       case Some(v) => Ok(s.(tile := s.tile.(imageWidth := Some(v)))))
    case FirstLineTime =>
      (match c.toTime(text)
       case None => Err(TimeError(text, c))
       case Some(t) => Ok(s.(firstLineTime := Some(t))))
    case LastLineTime =>
      (match c.toTime(text)
       case None => Err(TimeError(text, c))
       case Some(t) => Ok(s.(lastLineTime := Some(t))))
    case ProcTime =>
      (match c.toTime(text)
       case None => Err(TimeError(text, c))
       case Some(t) => Ok(s.(tile := s.tile.(esaProcessedTime := Some(t)))))
    case Corner =>
      (match c.toFloat(text)
       case None => Err(FloatError(text))
       case Some(f) => Ok(s.(corners := SetCorner(s.corners, a.name.value, f))))
    case Other => Ok(s)
  }

  /** An attribute fails the scan exactly when its text does not convert,
      with the exception of that conversion. */
  lemma StepFailsOnConversion(s: ScanState, a: Attr, c: Coercions)
    ensures Step(s, a, c).Err? <==> !Converts(a, c)
    ensures Step(s, a, c).Err? ==> Step(s, a, c).error == ConversionError(a, c)
  {}

  /** An attribute with another name, or none, leaves the state alone. */
  lemma StepIgnoresUnrecognised(s: ScanState, a: Attr, c: Coercions)
    ensures !Recognised(a) ==> Step(s, a, c) == Ok(s)
  {}

  /** The scan over the attributes in document order, stopping at the
      first attribute that does not convert. */
  function Scan(init: ScanState, attrs: seq<Attr>, c: Coercions): Result<ScanState>
    decreases |attrs|
  {
    if |attrs| == 0 then Ok(init)
    else
      match Scan(init, attrs[..|attrs| - 1], c)
      case Err(e) => Err(e)
      case Ok(s) => Step(s, attrs[|attrs| - 1], c)
  }

  /** The scan succeeds exactly when every attribute converts. */
  lemma {:induction false} ScanSucceedsWhenAllConvert(init: ScanState, attrs: seq<Attr>, c: Coercions)
    ensures Scan(init, attrs, c).Ok? <==> forall i :: 0 <= i < |attrs| ==> Converts(attrs[i], c)
    decreases |attrs|
  {
    if |attrs| > 0 {
      var front := attrs[..|attrs| - 1];
      ScanSucceedsWhenAllConvert(init, front, c);
      if Scan(init, front, c).Ok? {
        StepFailsOnConversion(Scan(init, front, c).value, attrs[|attrs| - 1], c);
      }
      assert forall i :: 0 <= i < |front| ==> front[i] == attrs[i];
    }
  }

  /** A failed scan fails with the exception of the first attribute that
      does not convert. */
  lemma {:induction false} ScanFailsAtFirstBadAttribute(init: ScanState, attrs: seq<Attr>, c: Coercions)
    ensures Scan(init, attrs, c).Err? ==>
      exists i :: 0 <= i < |attrs| && !Converts(attrs[i], c) &&
        (forall j :: 0 <= j < i ==> Converts(attrs[j], c)) &&
        Scan(init, attrs, c).error == ConversionError(attrs[i], c)
    decreases |attrs|
  {
    if |attrs| > 0 {
      var front := attrs[..|attrs| - 1];
      var last := attrs[|attrs| - 1];
      ScanFailsAtFirstBadAttribute(init, front, c);
      if Scan(init, front, c).Err? {
        var i :| 0 <= i < |front| && !Converts(front[i], c) &&
          (forall j :: 0 <= j < i ==> Converts(front[j], c)) &&
          Scan(init, front, c).error == ConversionError(front[i], c);
        assert attrs[i] == front[i];
        assert forall j :: 0 <= j < i ==> attrs[j] == front[j];
      } else if Scan(init, attrs, c).Err? {
        StepFailsOnConversion(Scan(init, front, c).value, last, c);
        ScanSucceedsWhenAllConvert(init, front, c);
        assert forall j :: 0 <= j < |front| ==> attrs[j] == front[j];
        assert !Converts(attrs[|front|], c);
      }
    }
  }

  /** Once the scan has failed, later attributes do not change the
      exception. */
  lemma {:induction false} ScanStopsAtError(init: ScanState, attrs: seq<Attr>, k: nat, c: Coercions)
    requires k <= |attrs| && Scan(init, attrs[..k], c).Err?
    ensures Scan(init, attrs, c) == Scan(init, attrs[..k], c)
    decreases |attrs| - k
  {
    if k < |attrs| {
      assert attrs[..k + 1][..k] == attrs[..k];
      ScanStopsAtError(init, attrs, k + 1, c);
    } else {
      assert attrs[..k] == attrs;
    }
  }

  /** Keeps the attributes the scan acts on. */
  function RecognisedOnly(attrs: seq<Attr>): (r: seq<Attr>)
    ensures forall i :: 0 <= i < |r| ==> Recognised(r[i])
    ensures |r| <= |attrs|
    decreases |attrs|
  {
    if |attrs| == 0 then []
    else
      var last := attrs[|attrs| - 1];
      RecognisedOnly(attrs[..|attrs| - 1]) + (if Recognised(last) then [last] else [])
  }

  /** Attributes with other names, or with no name, change nothing: the
      scan over the recognised attributes alone gives the same result. */
  lemma {:induction false} ScanIgnoresUnrecognised(init: ScanState, attrs: seq<Attr>, c: Coercions)
    ensures Scan(init, RecognisedOnly(attrs), c) == Scan(init, attrs, c)
    decreases |attrs|
  {
    if |attrs| > 0 {
      var front := attrs[..|attrs| - 1];
      var last := attrs[|attrs| - 1];
      ScanIgnoresUnrecognised(init, front, c);
      if Scan(init, front, c).Ok? {
        StepIgnoresUnrecognised(Scan(init, front, c).value, last, c);
      }
      var kept := RecognisedOnly(attrs);
      if Recognised(last) {
        assert kept[..|kept| - 1] == RecognisedOnly(front);
        assert kept[|kept| - 1] == last;
      } else {
        assert kept == RecognisedOnly(front);
      }
    }
  }

  /** The last attribute with the given name, if any. */
  function Latest(attrs: seq<Attr>, name: string): (r: Option<Attr>)
    ensures r.Some? ==> r.value in attrs && r.value.name == Some(name)
    ensures r.None? ==> forall i :: 0 <= i < |attrs| ==> attrs[i].name != Some(name)
    decreases |attrs|
  {
    if |attrs| == 0 then None
    else if attrs[|attrs| - 1].name == Some(name) then Some(attrs[|attrs| - 1])
    else
      var r := Latest(attrs[..|attrs| - 1], name);
      assert forall i :: 0 <= i < |attrs| - 1 ==> attrs[..|attrs| - 1][i] == attrs[i];
      r
  }

  /** A text field after the scan: the text of the last attribute with
      that name, or the value it had before. */
  function LatestText(attrs: seq<Attr>, name: string, before: Option<string>): Option<string>
  {
    match Latest(attrs, name)
    case None => before
    case Some(a) => a.text
  }

  /** A converted field after the scan: the conversion of the last
      attribute with that name, or the value it had before. */
  function LatestConverted<T>(attrs: seq<Attr>, name: string, convert: string -> Option<T>, before: Option<T>): Option<T>
  {
    match Latest(attrs, name)
    case None => before
    case Some(a) => convert(TextOf(a.text))
  }

  /** One attribute sets the text fields its name selects and no other. */
  lemma StepSetsText(s: ScanState, a: Attr, c: Coercions)
    requires Step(s, a, c).Ok?
    ensures var t := Step(s, a, c).value.tile;
      && t.dataset == (if a.name == Some("PRODUCT") then a.text else s.tile.dataset)
      && t.descriptor == (if a.name == Some("SPH_DESCRIPTOR") then a.text else s.tile.descriptor)
      && t.orbitType == (if a.name == Some("PASS") then a.text else s.tile.orbitType)
      && t.inputPath == s.tile.inputPath
      && t.detections == s.tile.detections
  {
    KindOfMatchesName(a.name);
  }

  /** One attribute sets the numeric fields its name selects and no other. */
  lemma StepSetsNumbers(s: ScanState, a: Attr, c: Coercions)
    requires Step(s, a, c).Ok?
    ensures var t := Step(s, a, c).value.tile;
      && t.imageHeight == (if a.name == Some("num_output_lines") then c.toInt(TextOf(a.text)) else s.tile.imageHeight)
      && t.imageWidth == (if a.name == Some("num_samples_per_line") then c.toInt(TextOf(a.text)) else s.tile.imageWidth)
      && t.esaProcessedTime == (if a.name == Some("PROC_TIME") then c.toTime(TextOf(a.text)) else s.tile.esaProcessedTime)
  {
    KindOfMatchesName(a.name);
  }

  /** One attribute sets the line time its name selects and no other. */
  lemma StepSetsLineTimes(s: ScanState, a: Attr, c: Coercions)
    requires Step(s, a, c).Ok?
    ensures var r := Step(s, a, c).value;
      && r.firstLineTime == (if a.name == Some("first_line_time") then c.toTime(TextOf(a.text)) else s.firstLineTime)
      && r.lastLineTime == (if a.name == Some("last_line_time") then c.toTime(TextOf(a.text)) else s.lastLineTime)
  {
    KindOfMatchesName(a.name);
  }

  /** One attribute sets the corner its name selects and no other. */
  lemma StepSetsCorner(s: ScanState, a: Attr, c: Coercions, k: string)
    requires Step(s, a, c).Ok? && k in CornerKeys
    ensures CornerAt(Step(s, a, c).value.corners, k) ==
      (if a.name == Some(k) then c.toFloat(TextOf(a.text)) else CornerAt(s.corners, k))
  {
    KindOfMatchesName(a.name);
  }

  /** A later attribute overwrites an earlier one with the same name: after
      a successful scan each text field holds the text of its last
      attribute, and the input path and the detections are untouched. */
  lemma {:induction false} ScanKeepsLatestText(init: ScanState, attrs: seq<Attr>, c: Coercions)
    requires Scan(init, attrs, c).Ok?
    ensures var s := Scan(init, attrs, c).value;
      && s.tile.dataset == LatestText(attrs, "PRODUCT", init.tile.dataset)
      && s.tile.descriptor == LatestText(attrs, "SPH_DESCRIPTOR", init.tile.descriptor)
      && s.tile.orbitType == LatestText(attrs, "PASS", init.tile.orbitType)
      && s.tile.inputPath == init.tile.inputPath
      && s.tile.detections == init.tile.detections
    decreases |attrs|
  {
    if |attrs| > 0 {
      var front := attrs[..|attrs| - 1];
      ScanKeepsLatestText(init, front, c);
      StepSetsText(Scan(init, front, c).value, attrs[|attrs| - 1], c);
    }
  }

  /** The same for the image size and the processing time: each holds the
      conversion of its last attribute. */
  lemma {:induction false} ScanKeepsLatestNumbers(init: ScanState, attrs: seq<Attr>, c: Coercions)
    requires Scan(init, attrs, c).Ok?
    ensures var s := Scan(init, attrs, c).value;
      && s.tile.imageHeight == LatestConverted(attrs, "num_output_lines", c.toInt, init.tile.imageHeight)
      && s.tile.imageWidth == LatestConverted(attrs, "num_samples_per_line", c.toInt, init.tile.imageWidth)
      && s.tile.esaProcessedTime == LatestConverted(attrs, "PROC_TIME", c.toTime, init.tile.esaProcessedTime)
    decreases |attrs|
  {
    if |attrs| > 0 {
      var front := attrs[..|attrs| - 1];
      ScanKeepsLatestNumbers(init, front, c);
      StepSetsNumbers(Scan(init, front, c).value, attrs[|attrs| - 1], c);
    }
  }

  /** The same for the two line times. */
  lemma {:induction false} ScanKeepsLatestLineTimes(init: ScanState, attrs: seq<Attr>, c: Coercions)
    requires Scan(init, attrs, c).Ok?
    ensures var s := Scan(init, attrs, c).value;
      && s.firstLineTime == LatestConverted(attrs, "first_line_time", c.toTime, init.firstLineTime)
      && s.lastLineTime == LatestConverted(attrs, "last_line_time", c.toTime, init.lastLineTime)
    decreases |attrs|
  {
    if |attrs| > 0 {
      var front := attrs[..|attrs| - 1];
      ScanKeepsLatestLineTimes(init, front, c);
      StepSetsLineTimes(Scan(init, front, c).value, attrs[|attrs| - 1], c);
    }
  }

  /** The same for the eight corner readings. */
  lemma {:induction false} ScanKeepsLatestCorners(init: ScanState, attrs: seq<Attr>, c: Coercions)
    requires Scan(init, attrs, c).Ok?
    ensures forall k :: k in CornerKeys ==>
      CornerAt(Scan(init, attrs, c).value.corners, k) == LatestConverted(attrs, k, c.toFloat, CornerAt(init.corners, k))
    decreases |attrs|
  {
    if |attrs| > 0 {
      var front := attrs[..|attrs| - 1];
      var a := attrs[|attrs| - 1];
      ScanKeepsLatestCorners(init, front, c);
      var s := Scan(init, front, c).value;
      assert Scan(init, attrs, c) == Step(s, a, c);
      forall k | k in CornerKeys
        ensures CornerAt(Scan(init, attrs, c).value.corners, k) == LatestConverted(attrs, k, c.toFloat, CornerAt(init.corners, k))
      {
        StepSetsCorner(s, a, c, k);
      }
    }
  }

  /** The corner readings after a whole scan from no readings: under each
      key, the conversion of the last attribute with that name. */
  function LatestCorners(attrs: seq<Attr>, c: Coercions): (r: Corners)
    ensures forall k :: k in CornerKeys ==> CornerAt(r, k) == LatestConverted(attrs, k, c.toFloat, None)
  {
    Corners(
      LatestConverted(attrs, "first_near_lat", c.toFloat, None),
      LatestConverted(attrs, "first_near_long", c.toFloat, None),
      LatestConverted(attrs, "first_far_lat", c.toFloat, None),
      LatestConverted(attrs, "first_far_long", c.toFloat, None),
      LatestConverted(attrs, "last_near_lat", c.toFloat, None),
      LatestConverted(attrs, "last_near_long", c.toFloat, None),
      LatestConverted(attrs, "last_far_lat", c.toFloat, None),
      LatestConverted(attrs, "last_far_long", c.toFloat, None))
  }

  /** Two corner records that agree under every key are equal. */
  lemma CornersByKey(a: Corners, b: Corners)
    requires forall k :: k in CornerKeys ==> CornerAt(a, k) == CornerAt(b, k)
    ensures a == b
  {
    assert CornerAt(a, "first_near_lat") == CornerAt(b, "first_near_lat");
    assert CornerAt(a, "first_near_long") == CornerAt(b, "first_near_long");
    assert CornerAt(a, "first_far_lat") == CornerAt(b, "first_far_lat");
    assert CornerAt(a, "first_far_long") == CornerAt(b, "first_far_long");
    assert CornerAt(a, "last_near_lat") == CornerAt(b, "last_near_lat");
    assert CornerAt(a, "last_near_long") == CornerAt(b, "last_near_long");
    assert CornerAt(a, "last_far_lat") == CornerAt(b, "last_far_lat");
    assert CornerAt(a, "last_far_long") == CornerAt(b, "last_far_long");
  }

  /** The bounding box stored on the Tile. */
  datatype Box = Box(topLeftLat: Option<Float>, topLeftLong: Option<Float>,
                     bottomRightLat: Option<Float>, bottomRightLong: Option<Float>)

  /** The corners the orbit direction selects: a descending pass takes the
      far-side latitude and near-side longitude on the first line, and the
      near-side latitude and far-side longitude on the last line; any other
      pass, or none, the other way round. */
  function BoundingBox(orbit: Option<string>, c: Corners): (r: Box)
    ensures var descending := orbit == Some("DESCENDING");
      && r.topLeftLat == CornerAt(c, if descending then "first_far_lat" else "first_near_lat")
      && r.topLeftLong == CornerAt(c, if descending then "first_near_long" else "first_far_long")
      && r.bottomRightLat == CornerAt(c, if descending then "last_near_lat" else "last_far_lat")
      && r.bottomRightLong == CornerAt(c, if descending then "last_far_long" else "last_near_long")
  {
    if orbit == Some("DESCENDING") then
      Box(c.firstFarLat, c.firstNearLong, c.lastNearLat, c.lastFarLong)
    else
      Box(c.firstNearLat, c.firstFarLong, c.lastFarLat, c.lastNearLong)
  }

  /** The near and far sides exchanged. */
  function SwapNearFar(c: Corners): Corners
  {
    Corners(c.firstFarLat, c.firstFarLong, c.firstNearLat, c.firstNearLong,
            c.lastFarLat, c.lastFarLong, c.lastNearLat, c.lastNearLong)
  }

  /** A descending pass reads the box of an ascending pass with near and
      far exchanged; every orbit value other than `DESCENDING`, including
      a missing one, reads the ascending box. */
  lemma DescendingMirrorsAscending(orbit: Option<string>, c: Corners)
    ensures BoundingBox(Some("DESCENDING"), c) == BoundingBox(Some("ASCENDING"), SwapNearFar(c))
    ensures orbit != Some("DESCENDING") ==> BoundingBox(orbit, c) == BoundingBox(None, c)
    ensures SwapNearFar(SwapNearFar(c)) == c
  {}

  /** `timedelta / 2` in microseconds: Python divides and rounds half to
      even. */
  function Half(delta: int): (h: int)
    ensures delta % 2 == 0 ==> 2 * h == delta
    ensures delta % 2 == 1 ==> (2 * h == delta - 1 || 2 * h == delta + 1) && h % 2 == 0
  {
    var q := delta / 2;
    if delta % 2 == 1 && q % 2 == 1 then q + 1 else q
  }

  /** The half is a nearest integer to `delta / 2`, and halving commutes
      with negation. */
  lemma HalfIsNearest(delta: int, k: int)
    ensures -1 <= delta - 2 * Half(delta) <= 1
    ensures (delta - 2 * Half(delta)) * (delta - 2 * Half(delta)) <= (delta - 2 * k) * (delta - 2 * k)
    ensures Half(-delta) == -Half(delta)
  {
    var d := delta - 2 * k;
    if delta % 2 == 1 {
      assert d != 0;
    }
  }

  /** `first_line_time + (last_line_time - first_line_time) / 2`. */
  function Midpoint(first: Micros, last: Micros): (m: Micros)
    ensures first <= last ==> first <= m <= last
    ensures last <= first ==> last <= m <= first
    ensures (last - first) % 2 == 0 ==> 2 * m == first + last
  {
    HalfIsNearest(last - first, 0);
    first + Half(last - first)
  }

  /** What `parse_metadata` does after the loop. */
  function Finish(s: ScanState, now: Micros): Result<Tile>
  {
    if s.firstLineTime.None? || s.lastLineTime.None? then Err(Error(ValueError, "Unable to parse dates"))
    else
      var box := BoundingBox(s.tile.orbitType, s.corners);
      Ok(s.tile.(
        acquisitionTime := Some(Midpoint(s.firstLineTime.value, s.lastLineTime.value)),
        processedTime := Some(now),
        topLeftLatitude := box.topLeftLat,
        topLeftLongitude := box.topLeftLong,
        bottomRightLatitude := box.bottomRightLat,
        bottomRightLongitude := box.bottomRightLong))
  }

  /** `parse_metadata(input_data)`, with `datetime.now()` given as `now`. */
  function Metadata(input: Path, disk: Disk, c: Coercions, now: Micros): Result<Tile>
  {
    match MetadataPath(input)
    case Err(e) => Err(e)
    case Ok(dim) =>
      if dim !in disk.metadata then Err(NotFound(dim))
      else
        match Scan(InitialState(input), disk.metadata[dim], c)
        case Err(e) => Err(e)
        case Ok(s) => Finish(s, now)
  }

  /** The body of the loop of `parse_metadata`: the tests on the
      attribute name, in the order they are written, each updating the
      Tile, a line time or a corner reading. */
  method ApplyAttribute(s: ScanState, a: Attr, c: Coercions) returns (r: Result<ScanState>)
    ensures r == Step(s, a, c)
  {
    var result := s.tile;
    var firstLineTime := s.firstLineTime;
    var lastLineTime := s.lastLineTime;
    var positions := s.corners;
    KindOfMatchesName(a.name);
    if a.name.Some? {
      var value := a.name.value;
      var text := TextOf(a.text);
      if value == "PRODUCT" {
        result := result.(dataset := a.text);
      } else if value == "SPH_DESCRIPTOR" {
        result := result.(descriptor := a.text);
      } else if value == "PASS" {
        result := result.(orbitType := a.text);
      } else if value == "num_output_lines" {
        var v := c.toInt(text);
        if v.None? { return Err(IntError(text)); }
        result := result.(imageHeight := v);
      } else if value == "num_samples_per_line" {
        var v := c.toInt(text);
        if v.None? { return Err(IntError(text)); }
        result := result.(imageWidth := v);
      } else if value == "first_line_time" {
        firstLineTime := c.toTime(text);
        if firstLineTime.None? { return Err(TimeError(text, c)); }
      } else if value == "last_line_time" {
        lastLineTime := c.toTime(text);
        if lastLineTime.None? { return Err(TimeError(text, c)); }
      } else if value == "PROC_TIME" {
        var t := c.toTime(text);
        if t.None? { return Err(TimeError(text, c)); }
        result := result.(esaProcessedTime := t);
      } else if value in CornerKeys {
        var f := c.toFloat(text);
        if f.None? { return Err(FloatError(text)); }
        positions := SetCorner(positions, value, f.value);
      }
    }
    return Ok(ScanState(result, firstLineTime, lastLineTime, positions));
  }

  /** `parse_metadata`: the loop over the `MDATTR` elements updates the
      Tile, the two line times and the corner readings in place, then the
      acquisition time, the clock reading and the bounding box are set. */
  method ParseMetadata(input: Path, disk: Disk, c: Coercions, now: Micros) returns (r: Result<Tile>)
    ensures r == Metadata(input, disk, c, now)
  {
    var path := WithSuffix(input, ".dim");
    if path.Err? {
      return Err(path.error);
    }
    var dim := path.value;
    if dim !in disk.metadata {
      return Err(NotFound(dim));
    }
    var result := EmptyTile.(inputPath := Some(PathString(input)));
    var firstLineTime: Option<Micros> := None;
    var lastLineTime: Option<Micros> := None;
    var positions := NoCorners;
    var attrs := disk.metadata[dim];
    var i := 0;
    while i < |attrs|
      invariant 0 <= i <= |attrs|
      invariant Scan(InitialState(input), attrs[..i], c) == Ok(ScanState(result, firstLineTime, lastLineTime, positions))
    {
      assert attrs[..i + 1][..i] == attrs[..i];
      var next := ApplyAttribute(ScanState(result, firstLineTime, lastLineTime, positions), attrs[i], c);
      if next.Err? {
        ScanStopsAtError(InitialState(input), attrs, i + 1, c);
        return Err(next.error);
      }
      result := next.value.tile;
      firstLineTime := next.value.firstLineTime;
      lastLineTime := next.value.lastLineTime;
      positions := next.value.corners;
      i := i + 1;
    }
    assert attrs[..i] == attrs;
    if firstLineTime.None? || lastLineTime.None? {
      return Err(Error(ValueError, "Unable to parse dates"));
    }
    result := result.(acquisitionTime := Some(Midpoint(firstLineTime.value, lastLineTime.value)));
    result := result.(processedTime := Some(now));
    var box := BoundingBox(result.orbitType, positions);
    result := result.(topLeftLatitude := box.topLeftLat, topLeftLongitude := box.topLeftLong,
                      bottomRightLatitude := box.bottomRightLat, bottomRightLongitude := box.bottomRightLong);
    return Ok(result);
  }

  /** A missing metadata file is reported before anything is read; a scan
      that never sees both line times is a ValueError; otherwise the Tile
      carries the input path, the clock reading, the midpoint of the last
      line times seen and the box the last orbit value selects. */
  lemma MetadataOutcome(input: Path, disk: Disk, c: Coercions, now: Micros)
    requires MetadataPath(input).Ok?
    ensures MetadataPath(input).value !in disk.metadata ==>
      Metadata(input, disk, c, now) == Err(NotFound(MetadataPath(input).value))
    ensures MetadataPath(input).value in disk.metadata ==>
      var attrs := disk.metadata[MetadataPath(input).value];
      var first := LatestConverted(attrs, "first_line_time", c.toTime, None);
      var last := LatestConverted(attrs, "last_line_time", c.toTime, None);
      Scan(InitialState(input), attrs, c).Ok? ==>
        if first.None? || last.None? then
          Metadata(input, disk, c, now) == Err(Error(ValueError, "Unable to parse dates"))
        else
          && Metadata(input, disk, c, now).Ok?
          && Metadata(input, disk, c, now).value.inputPath == Some(PathString(input))
          && Metadata(input, disk, c, now).value.processedTime == Some(now)
          && Metadata(input, disk, c, now).value.acquisitionTime == Some(Midpoint(first.value, last.value))
          && Metadata(input, disk, c, now).value.detections == []
          && var box := BoundingBox(LatestText(attrs, "PASS", None), LatestCorners(attrs, c));
          && Metadata(input, disk, c, now).value.topLeftLatitude == box.topLeftLat
          && Metadata(input, disk, c, now).value.topLeftLongitude == box.topLeftLong
          && Metadata(input, disk, c, now).value.bottomRightLatitude == box.bottomRightLat
          && Metadata(input, disk, c, now).value.bottomRightLongitude == box.bottomRightLong
  {
    var dim := MetadataPath(input).value;
    if dim in disk.metadata {
      var attrs := disk.metadata[dim];
      var init := InitialState(input);
      if Scan(init, attrs, c).Ok? {
        ScanKeepsLatestText(init, attrs, c);
        ScanKeepsLatestLineTimes(init, attrs, c);
        ScanKeepsLatestCorners(init, attrs, c);
        CornersByKey(Scan(init, attrs, c).value.corners, LatestCorners(attrs, c));
      }
    }
  }

  // ---------------------------------------------------------------------
  // The detections file

  /** A line `filter(lambda row: row[0] != "#", ...)` drops. */
  predicate IsComment(line: string)
  {
    |line| > 0 && line[0] == '#'
  }

  /** The lines that survive the comment filter, in file order. */
  function Uncommented(lines: seq<string>): (r: seq<string>)
    ensures forall i :: 0 <= i < |r| ==> !IsComment(r[i])
    decreases |lines|
  {
    if |lines| == 0 then []
    else
      var last := lines[|lines| - 1];
      Uncommented(lines[..|lines| - 1]) + (if IsComment(last) then [] else [last])
  }

  lemma {:induction false} UncommentedAppend(a: seq<string>, b: seq<string>)
    ensures Uncommented(a + b) == Uncommented(a) + Uncommented(b)
    decreases |b|
  {
    if |b| > 0 {
      var front := b[..|b| - 1];
      UncommentedAppend(a, front);
      assert (a + b)[..|a + b| - 1] == a + front;
      assert (a + b)[|a + b| - 1] == b[|b| - 1];
    } else {
      assert a + b == a;
    }
  }

  /** The fields of one line as the tab-delimited reader splits it; an
      empty line is the empty row. */
  function Fields(line: string): seq<string>
  {
    if line == "" then [] else Split(line, '\t')
  }

  /** The rows after the header, without the empty rows `DictReader`
      skips. */
  function DataRows(lines: seq<string>): (r: seq<seq<string>>)
    ensures forall i :: 0 <= i < |r| ==> r[i] != []
    ensures |r| <= |lines|
    decreases |lines|
  {
    if |lines| == 0 then []
    else
      var line := lines[|lines| - 1];
      DataRows(lines[..|lines| - 1]) + (if line == "" then [] else [Fields(line)])
  }

  /** The position of the last occurrence of `key`. */
  function LastPosition(header: seq<string>, key: string): (j: nat)
    requires key in header
    ensures j < |header| && header[j] == key && key !in header[j + 1..]
    decreases |header|
  {
    if header[|header| - 1] == key then |header| - 1
    else
      var j := LastPosition(header[..|header| - 1], key);
      assert header[j + 1..] == header[..|header| - 1][j + 1..] + [header[|header| - 1]];
      j
  }

  /** `row[key]` on the dict `DictReader` builds from a row: the header
      is searched from its end, so the last occurrence of the key decides;
      it reads the field under that occurrence, or None (the `restval`)
      when the row is too short to reach it; a header without the key
      raises KeyError. */
  function Cell(header: seq<string>, row: seq<string>, key: string): (r: Result<Option<string>>)
    ensures r.Err? <==> key !in header
    ensures r.Err? ==> r.error == Error(KeyError, Repr(key))
    decreases |header|
  {
    if |header| == 0 then Err(Error(KeyError, Repr(key)))
    else if header[|header| - 1] == key then
      if |header| - 1 < |row| then Ok(Some(row[|header| - 1])) else Ok(None)
    else Cell(header[..|header| - 1], row, key)
  }

  /** The dict is built by zipping the header with the row and then
      setting every header key past the end of the row to None: so the
      cell is None exactly when some occurrence of the key lies past the
      end of the row, and otherwise it is the field under the key's last
      occurrence. */
  lemma {:induction false} CellFollowsDictReader(header: seq<string>, row: seq<string>, key: string)
    requires key in header
    ensures Cell(header, row, key) ==
      if |row| < |header| && key in header[|row|..] then Ok(None)
      else Ok(Some(row[LastPosition(header, key)]))
    decreases |header|
  {
    var n := |header| - 1;
    if header[n] != key {
      var front := header[..n];
      assert key in front by {
        var k :| 0 <= k < |header| && header[k] == key;
        assert front[k] == key;
      }
      CellFollowsDictReader(front, row, key);
      if |row| < |header| {
        assert header[|row|..] == (if |row| <= n then front[|row|..] else []) + [header[n]];
      }
    } else if n < |row| {
      assert LastPosition(header, key) == n;
    } else {
      assert header[|row|..][n - |row|] == key;
    }
  }

  /** What `int(None)` and `float(None)` raise. */
  const IntNoneMessage := "int() argument must be a string, a bytes-like object or a real number, not 'NoneType'"
  const FloatNoneMessage := "float() argument must be a string or a real number, not 'NoneType'"

  /** `int(row[key])`. */
  function IntColumn(header: seq<string>, row: seq<string>, key: string, c: Coercions): Result<int>
  {
    var cell :- Cell(header, row, key);
    match cell
    case None => Err(Error(TypeError, IntNoneMessage))
    case Some(s) => if c.toInt(s).Some? then Ok(c.toInt(s).value) else Err(IntError(s))
  }

  /** `float(row[key])`. */
  function FloatColumn(header: seq<string>, row: seq<string>, key: string, c: Coercions): Result<Float>
  {
    var cell :- Cell(header, row, key);
    match cell
    case None => Err(Error(TypeError, FloatNoneMessage))
    case Some(s) => if c.toFloat(s).Some? then Ok(c.toFloat(s).value) else Err(FloatError(s))
  }

  const XColumn := "Detected_x:Integer"
  const YColumn := "Detected_y:Integer"
  const LatColumn := "Detected_lat:Double"
  const LonColumn := "Detected_lon:Double"
  const WidthColumn := "Detected_width:Double"
  const LengthColumn := "Detected_length:Double"

  /** The Detection built from one row. The keyword arguments are
      evaluated in the order they are written, so the first one that fails
      decides the exception. */
  function RowDetection(header: seq<string>, row: seq<string>, c: Coercions): Result<Detection>
  {
    var pixelX :- IntColumn(header, row, XColumn, c);
    var pixelY :- IntColumn(header, row, YColumn, c);
    var latitude :- FloatColumn(header, row, LatColumn, c);
    var longitude :- FloatColumn(header, row, LonColumn, c);
    var width :- FloatColumn(header, row, WidthColumn, c);
    var length :- FloatColumn(header, row, LengthColumn, c);
    Ok(Detection(None, None, width, length, latitude, longitude, pixelX, pixelY))
  }

  /** A row yields a Detection exactly when all six columns convert; each
      field is the conversion of the text under its column, and the
      Detection has no id and no tile yet. A missing or unreadable pixel
      column is reported before anything else. */
  lemma RowFieldsFromColumns(header: seq<string>, row: seq<string>, c: Coercions)
    ensures RowDetection(header, row, c).Ok? <==>
      && IntColumn(header, row, XColumn, c).Ok? && IntColumn(header, row, YColumn, c).Ok?
      && FloatColumn(header, row, LatColumn, c).Ok? && FloatColumn(header, row, LonColumn, c).Ok?
      && FloatColumn(header, row, WidthColumn, c).Ok? && FloatColumn(header, row, LengthColumn, c).Ok?
    ensures RowDetection(header, row, c).Ok? ==>
      var d := RowDetection(header, row, c).value;
      && d.pixelX == IntColumn(header, row, XColumn, c).value
      && d.pixelY == IntColumn(header, row, YColumn, c).value
      && d.latitude == FloatColumn(header, row, LatColumn, c).value
      && d.longitude == FloatColumn(header, row, LonColumn, c).value
      && d.width == FloatColumn(header, row, WidthColumn, c).value
      && d.length == FloatColumn(header, row, LengthColumn, c).value
      && d.id.None? && d.tileDataset.None?
    ensures IntColumn(header, row, XColumn, c).Err? ==>
      RowDetection(header, row, c) == Err(IntColumn(header, row, XColumn, c).error)
  {}

  /** The Detections of the data rows, in order, or the exception of the
      first row that fails: the loop appends one Detection per row and
      raises out of the first row that does not convert. */
  function Positions(header: seq<string>, rows: seq<seq<string>>, c: Coercions): Result<seq<Detection>>
    decreases |rows|
  {
    if |rows| == 0 then Ok([])
    else
      match Positions(header, rows[..|rows| - 1], c)
      case Err(e) => Err(e)
      case Ok(ps) =>
        match RowDetection(header, rows[|rows| - 1], c)
        case Err(e) => Err(e)
        case Ok(d) => Ok(ps + [d])
  }

  /** The values of a run of results, in order, or the error of the
      first failing one: the shape of a loop that appends each value and
      raises out of the first failure. */
  function Collect<T>(rs: seq<Result<T>>): Result<seq<T>>
    decreases |rs|
  {
    if |rs| == 0 then Ok([])
    else
      match Collect(rs[..|rs| - 1])
      case Err(e) => Err(e)
      case Ok(vs) =>
        match rs[|rs| - 1]
        case Err(e) => Err(e)
        case Ok(v) => Ok(vs + [v])
  }

  lemma {:induction false} CollectAllOk<T>(rs: seq<Result<T>>)
    ensures Collect(rs).Ok? <==> forall i :: 0 <= i < |rs| ==> rs[i].Ok?
    decreases |rs|
  {
    if |rs| > 0 {
      var front := rs[..|rs| - 1];
      CollectAllOk(front);
      assert forall i :: 0 <= i < |front| ==> front[i] == rs[i];
    }
  }

  lemma {:induction false} CollectOnePer<T>(rs: seq<Result<T>>)
    requires Collect(rs).Ok?
    ensures |Collect(rs).value| == |rs|
    ensures forall i :: 0 <= i < |rs| ==> rs[i] == Ok(Collect(rs).value[i])
    decreases |rs|
  {
    if |rs| > 0 {
      var front := rs[..|rs| - 1];
      CollectOnePer(front);
      forall i | 0 <= i < |rs|
        ensures rs[i] == Ok(Collect(rs).value[i])
      {
        if i < |front| {
          assert rs[i] == front[i];
        }
      }
    }
  }

  lemma {:induction false} CollectFirstError<T>(rs: seq<Result<T>>)
    ensures Collect(rs).Err? ==>
      exists i :: 0 <= i < |rs| && rs[i].Err? &&
        (forall j :: 0 <= j < i ==> rs[j].Ok?) && Collect(rs).error == rs[i].error
    decreases |rs|
  {
    if |rs| > 0 {
      var n := |rs| - 1;
      var front := rs[..n];
      assert forall j :: 0 <= j < n ==> front[j] == rs[j];
      if Collect(front).Err? {
        CollectFirstError(front);
        var i :| 0 <= i < n && front[i].Err? &&
          (forall j :: 0 <= j < i ==> front[j].Ok?) && Collect(front).error == front[i].error;
        assert rs[i] == front[i];
      } else {
        CollectAllOk(front);
      }
    }
  }

  /** The conversion of each data row, in row order. */
  function RowResults(header: seq<string>, rows: seq<seq<string>>, c: Coercions): (r: seq<Result<Detection>>)
    ensures |r| == |rows|
    ensures forall i :: 0 <= i < |rows| ==> r[i] == RowDetection(header, rows[i], c)
  {
    seq(|rows|, i requires 0 <= i < |rows| => RowDetection(header, rows[i], c))
  }

  /** The loop over the data rows collects the rows' conversions. */
  lemma {:induction false} PositionsCollect(header: seq<string>, rows: seq<seq<string>>, c: Coercions)
    ensures Positions(header, rows, c) == Collect(RowResults(header, rows, c))
    decreases |rows|
  {
    if |rows| > 0 {
      var n := |rows| - 1;
      var rs := RowResults(header, rows, c);
      PositionsCollect(header, rows[..n], c);
      assert rs[..n] == RowResults(header, rows[..n], c);
      assert rs[n] == RowDetection(header, rows[n], c);
    }
  }

  /** The data rows yield Detections exactly when every row converts. */
  lemma PositionsAllOk(header: seq<string>, rows: seq<seq<string>>, c: Coercions)
    ensures Positions(header, rows, c).Ok? <==> forall i :: 0 <= i < |rows| ==> RowDetection(header, rows[i], c).Ok?
  {
    PositionsCollect(header, rows, c);
    CollectAllOk(RowResults(header, rows, c));
  }

  /** One Detection per data row, in row order: the i-th is the i-th
      row's. */
  lemma PositionsOnePerRow(header: seq<string>, rows: seq<seq<string>>, c: Coercions)
    requires Positions(header, rows, c).Ok?
    ensures |Positions(header, rows, c).value| == |rows|
    ensures forall i :: 0 <= i < |rows| ==> RowDetection(header, rows[i], c) == Ok(Positions(header, rows, c).value[i])
  {
    PositionsCollect(header, rows, c);
    CollectOnePer(RowResults(header, rows, c));
  }

  /** A failing row fails the whole file with the exception of the first
      failing row; no partial list is returned. */
  lemma PositionsFirstError(header: seq<string>, rows: seq<seq<string>>, c: Coercions)
    ensures Positions(header, rows, c).Err? ==>
      exists i :: 0 <= i < |rows| && RowDetection(header, rows[i], c).Err? &&
        (forall j :: 0 <= j < i ==> RowDetection(header, rows[j], c).Ok?) &&
        Positions(header, rows, c).error == RowDetection(header, rows[i], c).error
  {
    PositionsCollect(header, rows, c);
    var rs := RowResults(header, rows, c);
    CollectFirstError(rs);
    if Positions(header, rows, c).Err? {
      var i :| 0 <= i < |rs| && rs[i].Err? &&
        (forall j :: 0 <= j < i ==> rs[j].Ok?) && Collect(rs).error == rs[i].error;
      assert RowDetection(header, rows[i], c) == rs[i];
    }
  }

  /** Rows after a failing one are never converted. */
  lemma {:induction false} PositionsStopAtError(header: seq<string>, rows: seq<seq<string>>, k: nat, c: Coercions)
    requires k <= |rows| && Positions(header, rows[..k], c).Err?
    ensures Positions(header, rows, c) == Positions(header, rows[..k], c)
    decreases |rows| - k
  {
    if k < |rows| {
      assert rows[..k + 1][..k] == rows[..k];
      PositionsStopAtError(header, rows, k + 1, c);
    } else {
      assert rows[..k] == rows;
    }
  }

  /** The loop step: one more row extends the Detections by that row's, or
      fails with its exception. */
  lemma PositionsExtend(header: seq<string>, rows: seq<seq<string>>, row: seq<string>, c: Coercions)
    requires Positions(header, rows, c).Ok?
    ensures RowDetection(header, row, c).Err? ==>
      Positions(header, rows + [row], c) == Err(RowDetection(header, row, c).error)
    ensures RowDetection(header, row, c).Ok? ==>
      Positions(header, rows + [row], c) == Ok(Positions(header, rows, c).value + [RowDetection(header, row, c).value])
  {
    assert (rows + [row])[..|rows|] == rows;
  }

  lemma {:induction false} DataRowsAppend(a: seq<string>, b: seq<string>)
    ensures DataRows(a + b) == DataRows(a) + DataRows(b)
    decreases |b|
  {
    if |b| > 0 {
      var front := b[..|b| - 1];
      DataRowsAppend(a, front);
      assert (a + b)[..|a + b| - 1] == a + front;
      assert (a + b)[|a + b| - 1] == b[|b| - 1];
    } else {
      assert a + b == a;
    }
  }

  /** The data rows grow by the next line's fields, unless it is empty. */
  lemma DataRowsStep(lines: seq<string>, i: nat)
    requires i < |lines|
    ensures DataRows(lines[..i + 1]) ==
      DataRows(lines[..i]) + (if lines[i] == "" then [] else [Fields(lines[i])])
  {
    assert lines[..i + 1][..i] == lines[..i];
  }

  /** An empty line is skipped by the row loop. */
  lemma ReadSkipsEmpty(lines: seq<string>, header: seq<string>, i: nat, c: Coercions)
    requires i < |lines| && lines[i] == ""
    ensures Positions(header, DataRows(lines[..i + 1]), c) == Positions(header, DataRows(lines[..i]), c)
  {
    DataRowsStep(lines, i);
    assert DataRows(lines[..i + 1]) == DataRows(lines[..i]) + [];
    assert DataRows(lines[..i + 1]) == DataRows(lines[..i]);
  }

  /** A row that converts is appended by the row loop. */
  lemma ReadAppendsRow(lines: seq<string>, header: seq<string>, i: nat, c: Coercions)
    requires i < |lines| && lines[i] != ""
    requires Positions(header, DataRows(lines[..i]), c).Ok?
    requires RowDetection(header, Fields(lines[i]), c).Ok?
    ensures Positions(header, DataRows(lines[..i + 1]), c) ==
      Ok(Positions(header, DataRows(lines[..i]), c).value + [RowDetection(header, Fields(lines[i]), c).value])
  {
    DataRowsStep(lines, i);
    PositionsExtend(header, DataRows(lines[..i]), Fields(lines[i]), c);
  }

  /** A row that fails decides the outcome of the whole file: the rows
      after it are never converted. */
  lemma ReadFailsAtRow(lines: seq<string>, header: seq<string>, i: nat, c: Coercions)
    requires i < |lines| && lines[i] != ""
    requires Positions(header, DataRows(lines[..i]), c).Ok?
    requires RowDetection(header, Fields(lines[i]), c).Err?
    ensures Positions(header, DataRows(lines), c) == Err(RowDetection(header, Fields(lines[i]), c).error)
  {
    DataRowsStep(lines, i);
    PositionsExtend(header, DataRows(lines[..i]), Fields(lines[i]), c);
    DataRowsStopAtError(lines, header, i + 1, c);
  }

  /** A failure among the first lines is the failure of the whole file. */
  lemma DataRowsStopAtError(lines: seq<string>, header: seq<string>, k: nat, c: Coercions)
    requires k <= |lines| && Positions(header, DataRows(lines[..k]), c).Err?
    ensures Positions(header, DataRows(lines), c) == Positions(header, DataRows(lines[..k]), c)
  {
    var done := DataRows(lines[..k]);
    assert lines == lines[..k] + lines[k..];
    DataRowsAppend(lines[..k], lines[k..]);
    assert DataRows(lines)[..|done|] == done;
    PositionsStopAtError(header, DataRows(lines), |done|, c);
  }

  /** What `DictReader` yields from the lines of the file: the first line
      that is not a comment is the header, and the non-empty rows after it
      are the data. */
  function ReadPositions(lines: seq<string>, c: Coercions): Result<seq<Detection>>
  {
    var kept := Uncommented(lines);
    if |kept| == 0 then Ok([])
    else Positions(Fields(kept[0]), DataRows(kept[1..]), c)
  }

  /** A comment line, wherever it is, changes nothing: it is never the
      header and never a row. */
  lemma CommentLinesIgnored(before: seq<string>, comment: string, after: seq<string>, c: Coercions)
    requires IsComment(comment)
    ensures ReadPositions(before + [comment] + after, c) == ReadPositions(before + after, c)
  {
    UncommentedAppend(before + [comment], after);
    UncommentedAppend(before, [comment]);
    UncommentedAppend(before, after);
    assert Uncommented([comment]) == [];
    assert Uncommented(before + [comment]) == Uncommented(before);
  }

  /** `parse_ship_positions(input_data)`. */
  function ShipPositions(input: Path, disk: Disk, c: Coercions): Result<seq<Detection>>
  {
    match DetectionsPath(input)
    case Err(e) => Err(e)
    case Ok(p) => if p !in disk.tables then Err(NotFound(p)) else ReadPositions(disk.tables[p], c)
  }

  /** `parse_ship_positions`: reads the header, then appends one Detection
      per non-empty data row. */
  method ParseShipPositions(input: Path, disk: Disk, c: Coercions) returns (r: Result<seq<Detection>>)
    ensures r == ShipPositions(input, disk, c)
  {
    var path := DetectionsPath(input);
    if path.Err? {
      return Err(path.error);
    }
    var csvPath := path.value;
    if csvPath !in disk.tables {
      return Err(NotFound(csvPath));
    }
    r := ReadRows(disk.tables[csvPath], c);
  }

  /** The lines of the open file: the header is the first line that is
      not a comment, and the rows after it are converted. */
  method ReadRows(lines: seq<string>, c: Coercions) returns (r: Result<seq<Detection>>)
    ensures r == ReadPositions(lines, c)
  {
    var filtered := Uncommented(lines);
    if |filtered| == 0 {
      return Ok([]);
    }
    var header := Fields(filtered[0]);
    r := ConvertRows(header, filtered[1..], c);
  }

  /** The `for row in reader` loop of `parse_ship_positions`: one Detection
      appended per non-empty line after the header, raising out of the
      first row that does not convert. */
  method ConvertRows(header: seq<string>, lines: seq<string>, c: Coercions) returns (r: Result<seq<Detection>>)
    ensures r == Positions(header, DataRows(lines), c)
  {
    var positions: seq<Detection> := [];
    var i := 0;
    while i < |lines|
      invariant 0 <= i <= |lines|
      invariant Positions(header, DataRows(lines[..i]), c) == Ok(positions)
    {
      if lines[i] == "" {
        ReadSkipsEmpty(lines, header, i, c);
      } else {
        var row := Fields(lines[i]);
        var d := RowDetection(header, row, c);
        if d.Err? {
          ReadFailsAtRow(lines, header, i, c);
          return Err(d.error);
        }
        ReadAppendsRow(lines, header, i, c);
        positions := positions + [d.value];
      }
      i := i + 1;
    }
    assert lines[..i] == lines;
    return Ok(positions);
  }

  /** `parse_result(input_data)`: the metadata first, then the detections
      attached to the Tile. */
  function ParsedResult(input: Path, disk: Disk, c: Coercions, now: Micros): Result<Tile>
  {
    match Metadata(input, disk, c, now)
    case Err(e) => Err(e)
    case Ok(tile) =>
      match ShipPositions(input, disk, c)
      case Err(e) => Err(e)
      case Ok(ps) => Ok(tile.(detections := ps))
  }

  method ParseResult(input: Path, disk: Disk, c: Coercions, now: Micros) returns (r: Result<Tile>)
    ensures r == ParsedResult(input, disk, c, now)
  {
    var result := ParseMetadata(input, disk, c, now);
    if result.Err? {
      return result;
    }
    var positions := ParseShipPositions(input, disk, c);
    if positions.Err? {
      return Err(positions.error);
    }
    return Ok(result.value.(detections := positions.value));
  }

  /** A metadata failure wins over any problem with the detections file;
      on success the Tile is the metadata Tile with the detections of the
      file attached, in file order. */
  lemma ParsedResultComposes(input: Path, disk: Disk, c: Coercions, now: Micros)
    ensures Metadata(input, disk, c, now).Err? ==> ParsedResult(input, disk, c, now) == Err(Metadata(input, disk, c, now).error)
    ensures ParsedResult(input, disk, c, now).Ok? <==>
      Metadata(input, disk, c, now).Ok? && ShipPositions(input, disk, c).Ok?
    ensures ParsedResult(input, disk, c, now).Ok? ==>
      && ParsedResult(input, disk, c, now).value.detections == ShipPositions(input, disk, c).value
      && ParsedResult(input, disk, c, now).value.(detections := []) == Metadata(input, disk, c, now).value
  {
    if Metadata(input, disk, c, now).Ok? {
      var dim := MetadataPath(input).value;
      MetadataOutcome(input, disk, c, now);
    }
  }
}
