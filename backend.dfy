/**
 * The Flask service (backend/app.py): the file-name check, the early-return
 * validation of the three POST routes, the cleaning of coordinates, and the
 * `/cluster` route around the choice of k. Requests, the upload folder and the
 * outcomes of file and library calls are parameters; KMeans, scaling and
 * silhouette arithmetic are not modelled.
 */
module Backend {
  import opened Wrappers
  import opened ClusterModel
  import opened KSelection

  // ---------------------------------------------------------------- responses

  datatype Body =
    | ErrorBody(error: string, details: Option<string>)
    | UploadedBody(message: string, filename: string)
    | ClusteredBody(numClusters: int, data: seq<Point>)  // `centers`, `labels`, `clustered` are KMeans output
    | ApiClusteredBody(data: seq<Point>)                 // likewise
    | InternalServerError                                // an uncaught exception: Flask's HTML error page

  datatype Response = Response(status: int, body: Body)

  function Error(status: int, message: string): Response {
    Response(status, ErrorBody(message, None))
  }

  // ---------------------------------------------------------------- allowed_file

  /** The index of the last '.' in `s`, if any. */
  function LastDot(s: string): (r: Option<nat>)
    ensures r.Some? ==> r.value < |s| && s[r.value] == '.' && forall j :: r.value < j < |s| ==> s[j] != '.'
    ensures r.None? ==> forall j :: 0 <= j < |s| ==> s[j] != '.'
  {
    if |s| == 0 then None
    else if s[|s| - 1] == '.' then Some(|s| - 1)
    else LastDot(s[..|s| - 1])
  }

  /** `str.lower()` on the ASCII letters; no other character lower-cases to 'c', 's' or 'v'. */
  function LowerChar(c: char): char {
    if 'A' <= c <= 'Z' then (c as int + 32) as char else c
  }

  function Lower(s: string): string {
    seq(|s|, i requires 0 <= i < |s| => LowerChar(s[i]))
  }

  /**
   * `'.' in filename and filename.rsplit('.', 1)[1].lower() in {'csv'}`: the text
   * after the last dot is "csv" in any letter case.
   */
  function AllowedFile(name: string): (ok: bool)
    ensures ok <==>
      && |name| >= 4
      && name[|name| - 4] == '.'
      && name[|name| - 3] in "cC" && name[|name| - 2] in "sS" && name[|name| - 1] in "vV"
  {
    match LastDot(name)
    case None => false
    case Some(i) =>
      var ext := name[i + 1..];
      assert |Lower(ext)| == |ext| && forall j :: 0 <= j < |ext| ==> Lower(ext)[j] == LowerChar(ext[j]);
      Lower(ext) == "csv"
  }

  lemma AllowedFileExamples()
    ensures AllowedFile("a.CSV") && AllowedFile(".csv") && AllowedFile("trips.Csv")
    ensures !AllowedFile("csv") && !AllowedFile("a.csv.txt") && !AllowedFile("a.csvx") && !AllowedFile("")
  {
  }

  // ---------------------------------------------------------------- POST /upload

  /** The multipart `file` part; `filename` is None when the part carries no file name. */
  datatype FilePart = FilePart(filename: Option<string>)

  /** What `file.save(filepath)` did. */
  datatype SaveOutcome = Saved | SaveFailed(details: string)

  /**
   * `upload_file` (app.py:35-61): `writable` is `os.access(UPLOAD_FOLDER, W_OK)`,
   * `filePart` is `request.files.get('file')`.
   */
  function UploadFile(folder: string, writable: bool, filePart: Option<FilePart>, save: SaveOutcome): (r: Response)
    ensures !writable ==> r == Error(500, "Upload folder not writable: " + folder)
    ensures writable && filePart.None? ==> r == Error(400, "No file part")
    ensures writable && filePart == Some(FilePart(Some(""))) ==> r == Error(400, "No selected file")
    ensures writable && filePart.Some? && filePart.value.filename != Some("")
            && (filePart.value.filename.None? || !AllowedFile(filePart.value.filename.value)) ==>
              r == Error(400, "Invalid file type")
    ensures writable && filePart.Some? && filePart.value.filename.Some? && AllowedFile(filePart.value.filename.value)
            && save.SaveFailed? ==>
              r == Response(500, ErrorBody("Failed to save file", Some(save.details)))
    ensures r.status == 200 <==>
              writable && filePart.Some? && filePart.value.filename.Some?
              && AllowedFile(filePart.value.filename.value) && save.Saved?
    ensures r.status == 200 ==> r.body == UploadedBody("File uploaded successfully", filePart.value.filename.value)
    ensures r.status != 200 ==> r.body.ErrorBody? && r.status in {400, 500}
  {
    if !writable then Error(500, "Upload folder not writable: " + folder)
    else if filePart.None? then Error(400, "No file part")
    else if filePart.value.filename == Some("") then Error(400, "No selected file")
    // `if file and ...`: a part without a file name is falsy
    else if filePart.value.filename.None? || !AllowedFile(filePart.value.filename.value) then Error(400, "Invalid file type")
    else if save.SaveFailed? then Response(500, ErrorBody("Failed to save file", Some(save.details)))
    else Response(200, UploadedBody("File uploaded successfully", filePart.value.filename.value))
  }

  /** An accepted upload is reported under the submitted name, unchanged, and that name ends in ".csv". */
  lemma UploadEchoesName(folder: string, name: string)
    requires AllowedFile(name)
    ensures UploadFile(folder, true, Some(FilePart(Some(name))), Saved) == Response(200, UploadedBody("File uploaded successfully", name))
    ensures name != ""
  {
  }

  // ---------------------------------------------------------------- cleaning

  /** A data-frame row: a cell is None when it is missing or NaN. */
  type Row = map<string, Option<real>>

  function Cell(row: Row, column: string): Option<real> {
    if column in row then row[column] else None
  }

  /** `df[[lat_col, lon_col]]`. */
  function Project(rows: seq<Row>, lat: string, lon: string): seq<(Option<real>, Option<real>)> {
    seq(|rows|, i requires 0 <= i < |rows| => (Cell(rows[i], lat), Cell(rows[i], lon)))
  }

  /** A row survives `dropna()` and the non-zero filter. */
  predicate Keep(pair: (Option<real>, Option<real>)) {
    pair.0.Some? && pair.1.Some? && pair.0.value != 0.0 && pair.1.value != 0.0
  }

  /** `dropna()` then `df[(lat != 0) & (lon != 0)]` (app.py:95-96, 161-162). */
  function Clean(pairs: seq<(Option<real>, Option<real>)>): (points: seq<Point>)
    ensures |points| <= |pairs|
    ensures forall i :: 0 <= i < |points| ==> points[i].0 != 0.0 && points[i].1 != 0.0
    ensures forall i :: 0 <= i < |pairs| && Keep(pairs[i]) ==> (pairs[i].0.value, pairs[i].1.value) in points
    ensures |points| == |pairs| <==> forall i :: 0 <= i < |pairs| ==> Keep(pairs[i])
  {
    if pairs == [] then []
    else
      var last := pairs[|pairs| - 1];
      Clean(pairs[..|pairs| - 1]) + if Keep(last) then [(last.0.value, last.1.value)] else []
  }

  /** Cleaning keeps the order of the rows: it distributes over concatenation. */
  lemma {:induction false} CleanAppend(a: seq<(Option<real>, Option<real>)>, b: seq<(Option<real>, Option<real>)>)
    ensures Clean(a + b) == Clean(a) + Clean(b)
    decreases |b|
  {
    if b != [] {
      var init, last := b[..|b| - 1], b[|b| - 1];
      CleanAppend(a, init);
      assert (a + b)[..|a + b| - 1] == a + init;
      assert (a + b)[|a + b| - 1] == last;
      var tail := if Keep(last) then [(last.0.value, last.1.value)] else [];
      calc {
        Clean(a + b);
        Clean(a + init) + tail;
        Clean(a) + Clean(init) + tail;
        Clean(a) + (Clean(init) + tail);
        Clean(a) + Clean(b);
      }
    } else {
      assert a + b == a;
    }
  }

  /** One row: kept with its two values, or dropped. */
  lemma CleanOne(pair: (Option<real>, Option<real>))
    ensures Clean([pair]) == if Keep(pair) then [(pair.0.value, pair.1.value)] else []
  {
    assert [pair][..0] == [];
  }

  // ---------------------------------------------------------------- POST /cluster

  /** The JSON body of a POST /cluster request; `numClusters` is read by nothing. */
  datatype ClusterBody = ClusterBody(filename: Option<string>, latCol: Option<string>, lonCol: Option<string>, numClusters: Option<int>)

  /** What `pd.read_csv` makes of a file. */
  datatype CsvRead = Unreadable(details: string) | Table(columns: set<string>, rows: seq<Row>)

  function LatColumn(latCol: Option<string>): string {
    if latCol.Some? then latCol.value else "pickup_lat"
  }

  function LonColumn(lonCol: Option<string>): string {
    if lonCol.Some? then lonCol.value else "pickup_lon"
  }

  function MissingColumns(lat: string, lon: string): Response {
    Error(400, "Missing required columns: " + lat + ", " + lon)
  }

  /**
   * The checks of `cluster` before any model is fitted (app.py:75-99); `folder`
   * maps each file in the upload folder to what `read_csv` makes of it.
   * Success carries the cleaned points.
   */
  function ClusterGuards(req: ClusterBody, folder: map<string, CsvRead>): (r: Result<seq<Point>, Response>)
    ensures (req.filename.None? || req.filename.value == "") ==> r == Failure(Error(400, "No filename provided"))
    ensures req.filename.Some? && req.filename.value != "" && req.filename.value !in folder ==>
              r == Failure(Error(404, "File not found"))
    ensures req.filename.Some? && req.filename.value != "" && req.filename.value in folder
            && folder[req.filename.value].Unreadable? ==>
              r == Failure(Response(400, ErrorBody("Failed to read CSV", Some(folder[req.filename.value].details))))
    ensures req.filename.Some? && req.filename.value != "" && req.filename.value in folder
            && folder[req.filename.value].Table?
            && (LatColumn(req.latCol) !in folder[req.filename.value].columns
                || LonColumn(req.lonCol) !in folder[req.filename.value].columns) ==>
              r == Failure(MissingColumns(LatColumn(req.latCol), LonColumn(req.lonCol)))
    ensures req.filename.Some? && req.filename.value != "" && req.filename.value in folder
            && folder[req.filename.value].Table?
            && LatColumn(req.latCol) in folder[req.filename.value].columns
            && LonColumn(req.lonCol) in folder[req.filename.value].columns
            && |Clean(Project(folder[req.filename.value].rows, LatColumn(req.latCol), LonColumn(req.lonCol)))| == 0 ==>
              r == Failure(Error(400, "No valid data points after cleaning"))
    ensures r.Success? <==>
              && req.filename.Some? && req.filename.value != "" && req.filename.value in folder
              && folder[req.filename.value].Table?
              && LatColumn(req.latCol) in folder[req.filename.value].columns
              && LonColumn(req.lonCol) in folder[req.filename.value].columns
              && |Clean(Project(folder[req.filename.value].rows, LatColumn(req.latCol), LonColumn(req.lonCol)))| > 0
    ensures r.Success? ==>
              r.value == Clean(Project(folder[req.filename.value].rows, LatColumn(req.latCol), LonColumn(req.lonCol)))
    ensures r.Failure? ==> r.error.status in {400, 404} && r.error.body.ErrorBody?
  {
    if req.filename.None? || req.filename.value == "" then Failure(Error(400, "No filename provided"))
    else if req.filename.value !in folder then Failure(Error(404, "File not found"))
    else
      match folder[req.filename.value]
      case Unreadable(details) => Failure(Response(400, ErrorBody("Failed to read CSV", Some(details))))
      case Table(columns, rows) =>
        var lat, lon := LatColumn(req.latCol), LonColumn(req.lonCol);
        if lat !in columns || lon !in columns then Failure(MissingColumns(lat, lon))
        else
          var points := Clean(Project(rows, lat, lon));
          if |points| == 0 then Failure(Error(400, "No valid data points after cleaning"))
          else Success(points)
  }

  /** The cluster count the client sends changes nothing in the checks. */
  lemma ClusterGuardsIgnoreCount(req: ClusterBody, folder: map<string, CsvRead>, sent: Option<int>)
    ensures ClusterGuards(req.(numClusters := sent), folder) == ClusterGuards(req, folder)
  {
  }

  /**
   * `cluster` (app.py:64-136). `score(k)` is the outcome of trial k on the scaled
   * points (None: fewer than two distinct labels, or the silhouette score raised).
   * With one point, the first `KMeans(n_clusters=2)` fit raises outside the `try`.
   */
  method Cluster(req: ClusterBody, folder: map<string, CsvRead>, score: int -> Option<real>) returns (r: Response)
    ensures ClusterGuards(req, folder).Failure? ==> r == ClusterGuards(req, folder).error
    ensures ClusterGuards(req, folder).Success? && |ClusterGuards(req, folder).value| < MinK ==>
              r == Response(500, InternalServerError)
    ensures ClusterGuards(req, folder).Success? && |ClusterGuards(req, folder).value| >= MinK ==>
              && r.status == 200 && r.body.ClusteredBody?
              && r.body.data == ClusterGuards(req, folder).value
              && IsBestK(score, MaxK(|r.body.data|), r.body.numClusters)
              && MinK <= r.body.numClusters <= 10 && r.body.numClusters <= |r.body.data|
  {
    var checked := ClusterGuards(req, folder);
    if checked.Failure? {
      return checked.error;
    }
    var points := checked.value;
    if |points| < MinK {
      // KMeans refuses more clusters than samples
      return Response(500, InternalServerError);
    }
    var bestK, _ := SelectBestK(MaxK(|points|), score);
    BestKBounds(score, |points|, bestK);
    r := Response(200, ClusteredBody(bestK, points));
  }

  // ---------------------------------------------------------------- POST /cluster-api-data

  /** A `num_clusters` value as `int()` sees it. */
  datatype CountArg =
    | WholeCount(n: int)        // an integer, a boolean, or a string that spells an integer
    | FractionCount(x: real)    // a float: `int()` truncates toward zero
    | NotConvertible            // `int()` raises

  /** The JSON body of a POST /cluster-api-data request; `data` is None when absent or null. */
  datatype ApiBody = ApiBody(data: Option<seq<Row>>, numClusters: Option<CountArg>, latCol: Option<string>, lonCol: Option<string>)

  /** `int(data.get('num_clusters', 6))`; None when the conversion raises. */
  function RequestedClusters(arg: Option<CountArg>): (k: Option<int>)
    ensures arg.None? ==> k == Some(6)
    ensures arg.Some? && arg.value.WholeCount? ==> k == Some(arg.value.n)
    ensures arg.Some? && arg.value.FractionCount? ==>
              k.Some? && (arg.value.x >= 0.0 ==> 0.0 <= arg.value.x - k.value as real < 1.0)
                      && (arg.value.x < 0.0 ==> 0.0 <= k.value as real - arg.value.x < 1.0)
    ensures arg == Some(NotConvertible) <==> k.None?
  {
    match arg
    case None => Some(6)
    case Some(WholeCount(n)) => Some(n)
    case Some(FractionCount(x)) => Some(if x >= 0.0 then x.Floor else -((-x).Floor))
    case Some(NotConvertible) => None
  }

  /** `pd.DataFrame(records).columns`: every key of every record. */
  function Columns(records: seq<Row>): set<string> {
    set i, c | 0 <= i < |records| && c in records[i] :: c
  }

  /** The frame built from one record has that record's keys as its columns. */
  lemma ColumnsOne(row: Row)
    ensures Columns([row]) == row.Keys
  {
    assert forall c :: c in row ==> c in Columns([row]) by {
      forall c | c in row
        ensures c in Columns([row])
      {
        assert [row][0] == row;
      }
    }
  }

  /**
   * Building a frame from two batches of records gives the union of their
   * columns: a column is missing only when no record of either batch has it.
   */
  lemma ColumnsAppend(a: seq<Row>, b: seq<Row>)
    ensures Columns(a + b) == Columns(a) + Columns(b)
  {
    forall c | c in Columns(a + b)
      ensures c in Columns(a) + Columns(b)
    {
      var i :| 0 <= i < |a + b| && c in (a + b)[i];
      if i < |a| {
        assert (a + b)[i] == a[i];
      } else {
        assert (a + b)[i] == b[i - |a|];
      }
    }
    forall c | c in Columns(a) + Columns(b)
      ensures c in Columns(a + b)
    {
      if c in Columns(a) {
        var i :| 0 <= i < |a| && c in a[i];
        assert (a + b)[i] == a[i];
      } else {
        var i :| 0 <= i < |b| && c in b[i];
        assert (a + b)[|a| + i] == b[i];
      }
    }
  }

  /** The count converts, records are present and both columns exist. */
  predicate ApiChecksPass(req: ApiBody) {
    && RequestedClusters(req.numClusters).Some?
    && req.data.Some? && req.data.value != []
    && LatColumn(req.latCol) in Columns(req.data.value) && LonColumn(req.lonCol) in Columns(req.data.value)
  }

  /**
   * `cluster_api_data` (app.py:147-178) up to the fit. Library failures on what
   * passes the checks (no rows left, or fewer than one cluster requested) raise.
   */
  function ClusterApiData(req: ApiBody): (r: Response)
    ensures RequestedClusters(req.numClusters).None? ==> r == Response(500, InternalServerError)
    ensures RequestedClusters(req.numClusters).Some? && (req.data.None? || req.data.value == []) ==>
              r == Error(400, "No data provided")
    ensures RequestedClusters(req.numClusters).Some? && req.data.Some? && req.data.value != []
            && (LatColumn(req.latCol) !in Columns(req.data.value) || LonColumn(req.lonCol) !in Columns(req.data.value)) ==>
              r == MissingColumns(LatColumn(req.latCol), LonColumn(req.lonCol))
    ensures r.status == 200 ==>
              && req.data.Some? && req.data.value != []
              && var points := Clean(Project(req.data.value, LatColumn(req.latCol), LonColumn(req.lonCol)));
                 && RequestedClusters(req.numClusters).Some?
                 && 1 <= RequestedClusters(req.numClusters).value <= |points|
                 && r.body == ApiClusteredBody(points)
    ensures ApiChecksPass(req) ==>
              var points := Clean(Project(req.data.value, LatColumn(req.latCol), LonColumn(req.lonCol)));
              var k := RequestedClusters(req.numClusters).value;
              && (|points| < k ==> r == Error(400, "Not enough data points for the requested number of clusters"))
              && (|points| >= k >= 1 ==> r == Response(200, ApiClusteredBody(points)))
              && (|points| >= k && k < 1 ==> r == Response(500, InternalServerError))
  {
    var k := RequestedClusters(req.numClusters);
    if k.None? then Response(500, InternalServerError)
    else if req.data.None? || req.data.value == [] then Error(400, "No data provided")
    else
      var records := req.data.value;
      var lat, lon := LatColumn(req.latCol), LonColumn(req.lonCol);
      if lat !in Columns(records) || lon !in Columns(records) then MissingColumns(lat, lon)
      else
        var points := Clean(Project(records, lat, lon));
        if |points| < k.value then Error(400, "Not enough data points for the requested number of clusters")
        else if |points| == 0 || k.value < 1 then Response(500, InternalServerError)
        else Response(200, ApiClusteredBody(points))
  }
}
