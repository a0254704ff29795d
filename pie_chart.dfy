/**
 * `generate_pie_chart` (output.py) up to the point where the chart would be
 * drawn: the data-file check, the aggregation loop over a mutable totals map
 * and a counter, the "no data" check, and the parallel label and size lists
 * handed to the plotting library.
 */
module PieChart {
  import opened Wrappers
  import opened Aggregate

  /** The data file as the program finds it. */
  datatype DataFile =
    | Absent                      // `os.path.exists` is false
    | Unopenable                  // it exists, but `open` raises
    | Present(rows: seq<Record>)  // the records `csv.DictReader` yields, in order

  /** How the function ends; each non-chart outcome stands for one diagnostic message. */
  datatype Report =
    | NoFile                                     // "data file not found"
    | ReadError                                  // "error while reading the file"
    | NoData                                     // "no data to plot"
    | Chart(labels: seq<Cell>, sizes: seq<real>) // the arguments of `plt.pie`

  /**
   * `labels` lists every key of `totals` exactly once, and `sizes` is
   * parallel to it: `sizes[i]` is the total of `labels[i]`.
   */
  ghost predicate Enumerates(labels: seq<Cell>, sizes: seq<real>, totals: map<Cell, real>) {
    && |labels| == |sizes|
    && (forall i, j :: 0 <= i < j < |labels| ==> labels[i] != labels[j])
    && (forall k :: k in labels <==> k in totals)
    && (forall i :: 0 <= i < |labels| ==> labels[i] in totals && sizes[i] == totals[labels[i]])
  }

  /**
   * `list(totals.keys())` and `list(totals.values())`: both lists follow the
   * map's one iteration order, which is left unspecified here.
   */
  method Entries(totals: map<Cell, real>) returns (labels: seq<Cell>, sizes: seq<real>)
    ensures Enumerates(labels, sizes, totals)
  {
    labels, sizes := [], [];
    var rest := totals.Keys;
    while rest != {}
      invariant rest <= totals.Keys
      invariant |labels| == |sizes|
      invariant forall i, j :: 0 <= i < j < |labels| ==> labels[i] != labels[j]
      invariant forall k :: k in labels <==> k in totals && k !in rest
      invariant forall i :: 0 <= i < |labels| ==> labels[i] in totals && sizes[i] == totals[labels[i]]
      decreases rest
    {
      var k :| k in rest;
      labels, sizes := labels + [k], sizes + [totals[k]];
      rest := rest - {k};
    }
  }

  /** The outcome the function must reach, from the file alone. */
  ghost predicate Expected(parse: Parser, file: DataFile, r: Report) {
    match file
    case Absent => r == NoFile
    case Unopenable => r == ReadError
    case Present(rows) =>
      match Scan(parse, rows)
      case Aborted => r == ReadError
      case Done(totals, count) =>
        if count == 0 then r == NoData
        else r.Chart? && Enumerates(r.labels, r.sizes, totals)
  }

  /**
   * The body of `generate_pie_chart` without the drawing. `parse` stands for
   * `float()` applied to text.
   */
  method GeneratePieChart(parse: Parser, file: DataFile) returns (r: Report)
    ensures Expected(parse, file, r)
  {
    if file.Absent? {
      return NoFile;
    }
    if file.Unopenable? {
      return ReadError;
    }
    var rows := file.rows;
    var categoryTotals: map<Cell, real> := map[];
    var rowCount: nat := 0;
    var i := 0;
    while i < |rows|
      invariant 0 <= i <= |rows|
      invariant Scan(parse, rows[..i]) == Done(categoryTotals, rowCount)
    {
      ScanSnoc(parse, rows[..i], rows[i]);
      assert rows[..i + 1] == rows[..i] + [rows[i]];
      match rows[i] {
        case Unreadable =>
          AbortAt(parse, rows, i);
          return ReadError;
        case Row(fields) =>
          if CategoryColumn !in fields || AmountColumn !in fields {
            // `KeyError` from `row['Category']` or `row['Amount']`
            AbortAt(parse, rows, i);
            return ReadError;
          }
          var category := fields[CategoryColumn];
          match fields[AmountColumn] {
            case Null =>
              // `TypeError` from `float(None)`
              AbortAt(parse, rows, i);
              return ReadError;
            case Text(s) =>
              match parse(s) {
                case None =>
                  // `ValueError`: the corrupted row is skipped
                case Some(amount) =>
                  var previous := if category in categoryTotals then categoryTotals[category] else 0.0;
                  categoryTotals := categoryTotals[category := previous + amount];
                  rowCount := rowCount + 1;
              }
          }
      }
      i := i + 1;
    }
    assert rows[..i] == rows;
    if rowCount == 0 {
      return NoData;
    }
    var labels, sizes := Entries(categoryTotals);
    return Chart(labels, sizes);
  }

  /**
   * What a drawn chart shows, in terms of the rows alone: its labels are
   * exactly the categories of rows whose amount parsed, each once, and each
   * slice is the sum of those rows' amounts; no record aborted the read and
   * at least one row was valid.
   */
  lemma ChartMeaning(parse: Parser, rows: seq<Record>, labels: seq<Cell>, sizes: seq<real>)
    requires Expected(parse, Present(rows), Chart(labels, sizes))
    ensures !Aborts(parse, rows) && ValidCount(parse, rows) > 0
    ensures |labels| == |sizes|
    ensures forall k :: k in labels <==> k in Categories(parse, rows)
    ensures forall i :: 0 <= i < |labels| ==> sizes[i] == CategorySum(parse, rows, labels[i])
  {
    ScanAbortsIff(parse, rows);
    ScanMeaning(parse, rows);
  }

  /** No chart is drawn exactly when the read is abandoned or no row had a parseable amount. */
  lemma NoChartIff(parse: Parser, rows: seq<Record>, r: Report)
    requires Expected(parse, Present(rows), r)
    ensures r.ReadError? <==> Aborts(parse, rows)
    ensures r.NoData? <==> !Aborts(parse, rows) && Categories(parse, rows) == {}
    ensures r.NoData? <==> !Aborts(parse, rows) && ValidCount(parse, rows) == 0
  {
    ScanAbortsIff(parse, rows);
    if !Aborts(parse, rows) {
      ScanMeaning(parse, rows);
      ScanEmptyIffZero(parse, rows);
    }
  }
}
