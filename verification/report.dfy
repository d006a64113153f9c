/**
 The data flow of `main` (pricing.py:120-140) with its side effects removed:
 resolve the window, query (a parameter standing for the Cost Explorer call),
 flatten, name the local files, derive the upload keys and compute the
 summary. Writing files, uploading and printing are not modelled.
 */
module Report {
  import opened Wrappers
  import opened Calendar
  import opened Paths
  import opened DateWindow
  import opened CostRows
  import opened UploadKeys
  import opened Summary

  datatype RunError = WindowFailed(windowError: WindowError) | NormalizeFailed(normalizeError: NormalizeError)

  /** What one run produces: the window, the rows, the local files written,
      the keys uploaded, and the total with its unit. */
  datatype Outcome = Outcome(window: Window, rows: seq<Row>, files: seq<string>, keys: seq<string>, total: real, unit: string)

  function RunReport(sel: Selectors, today: Date, prefix: string, csvAvailable: bool,
                     query: (string, string) -> Response): Result<Outcome, RunError>
    requires Valid(today)
  {
    match GetDates(sel, today)
    case Failure(e) => Failure(WindowFailed(e))
    case Success(w) =>
      match Normalize(query(w.start, w.end))
      case Failure(e) => Failure(NormalizeFailed(e))
      case Success(rows) => Success(Assemble(w, rows, prefix, csvAvailable))
  }

  /** The files, keys and summary of a run whose window and rows are known. */
  function Assemble(w: Window, rows: seq<Row>, prefix: string, csvAvailable: bool): Outcome {
    var files := [LocalPath(w.labelText, JsonExt)] + (if csvAvailable then [LocalPath(w.labelText, CsvExt)] else []);
    Outcome(w, rows, files, UploadedKeys(prefix, w.labelText, csvAvailable), Total(rows), ReportUnit(rows))
  }

  /** Success means both the window and the flattening succeeded. */
  lemma RunReportSuccess(sel: Selectors, today: Date, prefix: string, csvAvailable: bool,
                         query: (string, string) -> Response)
    requires Valid(today) && RunReport(sel, today, prefix, csvAvailable, query).Success?
    ensures GetDates(sel, today).Success?
    ensures var w := GetDates(sel, today).value;
      && Normalize(query(w.start, w.end)).Success?
      && RunReport(sel, today, prefix, csvAvailable, query).value
         == Assemble(w, Normalize(query(w.start, w.end)).value, prefix, csvAvailable)
  {
  }

  /** The JSON file, and the CSV file when the tabular library is available,
      are written under `output/`, named after the label. */
  lemma AssembleFiles(w: Window, rows: seq<Row>, prefix: string, csvAvailable: bool)
    ensures var o := Assemble(w, rows, prefix, csvAvailable);
      && |o.files| == (if csvAvailable then 2 else 1)
      && o.files[0] == "output/aws_costs_" + w.labelText + ".json"
      && (csvAvailable ==> o.files[1] == "output/aws_costs_" + w.labelText + ".csv")
  {
    LocalPathsSpelled(w.labelText);
  }

  /** Each written file is uploaded under its own key, the JSON file first. */
  lemma AssembleUploads(w: Window, rows: seq<Row>, prefix: string, csvAvailable: bool)
    requires NoSlash(w.labelText)
    ensures var o := Assemble(w, rows, prefix, csvAvailable);
      && |o.files| == |o.keys| == (if csvAvailable then 2 else 1)
      && (forall k :: 0 <= k < |o.keys| ==> o.keys[k] == ObjectKey(prefix, o.files[k]))
      && o.keys[0] == RStripSlashes(prefix) + "/" + FileName(w.labelText, JsonExt)
  {
    var o := Assemble(w, rows, prefix, csvAvailable);
    var json, csv := LocalPath(w.labelText, JsonExt), LocalPath(w.labelText, CsvExt);
    if csvAvailable {
      assert o.files == [json, csv];
      assert o.keys == [ObjectKey(prefix, json), ObjectKey(prefix, csv)];
    } else {
      assert o.files == [json];
      assert o.keys == [ObjectKey(prefix, json)];
    }
    ExtensionsHaveNoSlash();
    KeyOfLabel(prefix, w.labelText, JsonExt);
  }

  /** A malformed or overflowing date stops the run before the query: the
      response is never consulted. */
  lemma RunStopsOnWindowError(sel: Selectors, today: Date, prefix: string, csvAvailable: bool,
                              query: (string, string) -> Response)
    requires Valid(today) && GetDates(sel, today).Failure?
    ensures RunReport(sel, today, prefix, csvAvailable, query) == Failure(WindowFailed(GetDates(sel, today).error))
  {
  }

  /** A response that `normalize` rejects ends the run with that error, before
      any file is written or uploaded. */
  lemma RunStopsOnNormalizeError(sel: Selectors, today: Date, prefix: string, csvAvailable: bool,
                                 query: (string, string) -> Response)
    requires Valid(today) && GetDates(sel, today).Success?
    requires var w := GetDates(sel, today).value; Normalize(query(w.start, w.end)).Failure?
    ensures var w := GetDates(sel, today).value;
      RunReport(sel, today, prefix, csvAvailable, query) == Failure(NormalizeFailed(Normalize(query(w.start, w.end)).error))
  {
  }

  /** Each written file is uploaded under the stripped prefix and the file's own
      name; the JSON file is always written and uploaded first, the CSV file
      only with the tabular library. */
  lemma RunUploads(sel: Selectors, today: Date, prefix: string, csvAvailable: bool,
                   query: (string, string) -> Response)
    requires Valid(today) && RunReport(sel, today, prefix, csvAvailable, query).Success?
    ensures var o := RunReport(sel, today, prefix, csvAvailable, query).value;
      && GetDates(sel, today) == Success(o.window)
      && |o.files| == |o.keys| == (if csvAvailable then 2 else 1)
      && (forall k :: 0 <= k < |o.keys| ==> o.keys[k] == ObjectKey(prefix, o.files[k]))
      && o.keys[0] == RStripSlashes(prefix) + "/" + FileName(o.window.labelText, JsonExt)
      && o.files[0] == "output/aws_costs_" + o.window.labelText + ".json"
  {
    RunReportSuccess(sel, today, prefix, csvAvailable, query);
    var w := GetDates(sel, today).value;
    LabelHasNoSlash(sel, today);
    AssembleFiles(w, Normalize(query(w.start, w.end)).value, prefix, csvAvailable);
    AssembleUploads(w, Normalize(query(w.start, w.end)).value, prefix, csvAvailable);
  }

  /** The reported total is the sum of every amount in the response to the
      window's query, and its unit is `"USD"` when the response has no groups. */
  lemma RunTotal(sel: Selectors, today: Date, prefix: string, csvAvailable: bool,
                 query: (string, string) -> Response)
    requires Valid(today) && RunReport(sel, today, prefix, csvAvailable, query).Success?
    ensures var o := RunReport(sel, today, prefix, csvAvailable, query).value;
      && o.total == ResponseTotal(PeriodsOf(query(o.window.start, o.window.end)))
      && (GroupCount(PeriodsOf(query(o.window.start, o.window.end))) == 0 ==> o.total == 0.0 && o.unit == DefaultUnit)
  {
    RunReportSuccess(sel, today, prefix, csvAvailable, query);
    var o := RunReport(sel, today, prefix, csvAvailable, query).value;
    var ps := PeriodsOf(query(o.window.start, o.window.end));
    TotalOfNormalized(ps, o.rows);
    UnitOfNormalized(ps, o.rows);
  }
}
