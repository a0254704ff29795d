/**
 * The category-totals fold of `generate_pie_chart` (output.py), stated as
 * pure functions over the rows `csv.DictReader` yields, together with
 * independent reference definitions of what its result means.
 */
module Aggregate {
  import opened Wrappers

  /**
   * A value of a `DictReader` row: the text of a field, or `Null`, the
   * `None` that fills the columns a short row lacks.
   */
  datatype Cell = Text(text: string) | Null

  /**
   * One item the reader yields: a row mapping column names to cells, or
   * `Unreadable` when the reader raises while producing it (a decoding or
   * CSV format error).
   */
  datatype Record = Row(fields: map<string, Cell>) | Unreadable

  /** The amount parser: `None` where `float()` raises `ValueError`. */
  type Parser = string -> Option<real>

  /** What one record does to the fold (the inner `try`). */
  datatype Step =
    | Add(category: Cell, amount: real)  // lines 24-27 run to completion
    | Skip                               // `ValueError`: the row is skipped
    | Fail                               // any other exception: the read is abandoned

  /** The state of the fold: the per-category totals and the valid-row counter, or aborted. */
  datatype Tally = Aborted | Done(totals: map<Cell, real>, count: nat)

  const CategoryColumn: string := "Category"
  const AmountColumn: string := "Amount"

  /**
   * `row['Category']` is looked up first and `row['Amount']` second (a
   * missing column raises `KeyError`); `float(None)` raises `TypeError`;
   * only a failing `float(text)` raises `ValueError`.
   */
  function Classify(parse: Parser, rec: Record): Step {
    match rec
    case Unreadable => Fail
    case Row(fields) =>
      if CategoryColumn !in fields || AmountColumn !in fields then Fail
      else
        match fields[AmountColumn]
        case Null => Fail
        case Text(s) =>
          match parse(s)
          case None => Skip
          case Some(v) => Add(fields[CategoryColumn], v)
  }

  /** The total of a category so far; a `defaultdict(float)` starts every key at zero. */
  function Lookup(totals: map<Cell, real>, k: Cell): real {
    if k in totals then totals[k] else 0.0
  }

  /** One iteration of the `for row in reader` loop. */
  function Advance(t: Tally, s: Step): Tally {
    match t
    case Aborted => Aborted
    case Done(totals, count) =>
      match s
      case Fail => Aborted
      case Skip => t
      case Add(k, v) => Done(totals[k := Lookup(totals, k) + v], count + 1)
  }

  /** The loop over the first |rows| records, from an empty map and a zero counter. */
  function Scan(parse: Parser, rows: seq<Record>): Tally {
    if rows == [] then Done(map[], 0)
    else Advance(Scan(parse, rows[..|rows| - 1]), Classify(parse, rows[|rows| - 1]))
  }

  // ---------------------------------------------------------------------
  // Reference definitions, independent of the map and the loop.

  /** Some record makes the fold abandon the read. */
  predicate Aborts(parse: Parser, rows: seq<Record>) {
    exists i :: 0 <= i < |rows| && Classify(parse, rows[i]).Fail?
  }

  /** The amount a record adds to category `k`. */
  function Contribution(parse: Parser, rec: Record, k: Cell): real {
    match Classify(parse, rec)
    case Add(c, v) => if c == k then v else 0.0
    case _ => 0.0
  }

  /** The sum of the parsed amounts of the rows of category `k`. */
  function CategorySum(parse: Parser, rows: seq<Record>, k: Cell): real {
    if rows == [] then 0.0 else Contribution(parse, rows[0], k) + CategorySum(parse, rows[1..], k)
  }

  /** The number of rows whose category and amount were read. */
  function ValidCount(parse: Parser, rows: seq<Record>): nat {
    if rows == [] then 0
    else (if Classify(parse, rows[0]).Add? then 1 else 0) + ValidCount(parse, rows[1..])
  }

  /** The categories of the rows whose amount parsed. */
  function Categories(parse: Parser, rows: seq<Record>): set<Cell> {
    set i | 0 <= i < |rows| && Classify(parse, rows[i]).Add? :: Classify(parse, rows[i]).category
  }

  // ---------------------------------------------------------------------
  // How the reference definitions extend by one record.

  lemma {:induction false} CategorySumSnoc(parse: Parser, rows: seq<Record>, r: Record, k: Cell)
    ensures CategorySum(parse, rows + [r], k) == CategorySum(parse, rows, k) + Contribution(parse, r, k)
  {
    if rows == [] {
      assert [r][1..] == [];
    } else {
      assert (rows + [r])[1..] == rows[1..] + [r];
      CategorySumSnoc(parse, rows[1..], r, k);
    }
  }

  lemma {:induction false} ValidCountSnoc(parse: Parser, rows: seq<Record>, r: Record)
    ensures ValidCount(parse, rows + [r]) == ValidCount(parse, rows) + (if Classify(parse, r).Add? then 1 else 0)
  {
    if rows == [] {
      assert [r][1..] == [];
    } else {
      assert (rows + [r])[1..] == rows[1..] + [r];
      ValidCountSnoc(parse, rows[1..], r);
    }
  }

  lemma CategoriesSnoc(parse: Parser, rows: seq<Record>, r: Record)
    ensures Categories(parse, rows + [r]) ==
      Categories(parse, rows) + (if Classify(parse, r).Add? then {Classify(parse, r).category} else {})
  {
    var s := rows + [r];
    assert forall i :: 0 <= i < |rows| ==> s[i] == rows[i];
    assert s[|rows|] == r;
  }

  /** The loop processes the records in order: the last record is folded in last. */
  lemma ScanSnoc(parse: Parser, rows: seq<Record>, r: Record)
    ensures Scan(parse, rows + [r]) == Advance(Scan(parse, rows), Classify(parse, r))
  {
    assert (rows + [r])[..|rows|] == rows;
  }

  // ---------------------------------------------------------------------
  // What the fold computes.

  /** The read is abandoned exactly when some record raises something other than `ValueError`. */
  lemma {:induction false} ScanAbortsIff(parse: Parser, rows: seq<Record>)
    ensures Scan(parse, rows).Aborted? <==> Aborts(parse, rows)
  {
    if rows != [] {
      var init := rows[..|rows| - 1];
      ScanAbortsIff(parse, init);
      if Aborts(parse, init) {
        var i :| 0 <= i < |init| && Classify(parse, init[i]).Fail?;
        assert rows[i] == init[i];
      }
      if Aborts(parse, rows) {
        var i :| 0 <= i < |rows| && Classify(parse, rows[i]).Fail?;
        if i < |init| {
          assert init[i] == rows[i];
        }
      }
    }
  }

  /**
   * When the read completes, each category's total is the sum of the parsed
   * amounts of exactly the rows of that category, the keys are exactly the
   * categories of rows whose amount parsed, and the counter is the number of
   * such rows.
   */
  lemma {:induction false} ScanMeaning(parse: Parser, rows: seq<Record>)
    requires Scan(parse, rows).Done?
    ensures Scan(parse, rows).totals.Keys == Categories(parse, rows)
    ensures forall k :: k in Scan(parse, rows).totals ==> Scan(parse, rows).totals[k] == CategorySum(parse, rows, k)
    ensures Scan(parse, rows).count == ValidCount(parse, rows)
  {
    if rows != [] {
      var init, r := rows[..|rows| - 1], rows[|rows| - 1];
      assert rows == init + [r];
      ScanSnoc(parse, init, r);
      ScanMeaning(parse, init);
      CategoriesSnoc(parse, init, r);
      ValidCountSnoc(parse, init, r);
      forall k | k in Scan(parse, rows).totals
        ensures Scan(parse, rows).totals[k] == CategorySum(parse, rows, k)
      {
        TotalAfterRecord(parse, init, r, k);
      }
    }
  }

  /** One record keeps a correct total correct: the new total is the old sum plus the record's contribution. */
  lemma TotalAfterRecord(parse: Parser, init: seq<Record>, r: Record, k: Cell)
    requires Scan(parse, init + [r]).Done?
    requires k in Scan(parse, init + [r]).totals
    requires Scan(parse, init).Done? && Scan(parse, init).totals.Keys == Categories(parse, init)
    requires forall j :: j in Scan(parse, init).totals ==> Scan(parse, init).totals[j] == CategorySum(parse, init, j)
    ensures Scan(parse, init + [r]).totals[k] == CategorySum(parse, init + [r], k)
  {
    ScanSnoc(parse, init, r);
    CategorySumSnoc(parse, init, r, k);
    if k !in Scan(parse, init).totals {
      CategorySumNotIn(parse, init, k);
    }
  }

  /** A category no valid row carries sums to zero. */
  lemma {:induction false} CategorySumNotIn(parse: Parser, rows: seq<Record>, k: Cell)
    requires k !in Categories(parse, rows)
    ensures CategorySum(parse, rows, k) == 0.0
  {
    if rows != [] {
      assert Classify(parse, rows[0]).Add? ==> Classify(parse, rows[0]).category != k;
      forall i | 0 <= i < |rows[1..]| && Classify(parse, rows[1..][i]).Add?
        ensures Classify(parse, rows[1..][i]).category != k
      {
        assert rows[1..][i] == rows[i + 1];
      }
      CategorySumNotIn(parse, rows[1..], k);
    }
  }

  /** The counter never exceeds the number of rows read. */
  lemma {:induction false} ValidCountBound(parse: Parser, rows: seq<Record>)
    ensures ValidCount(parse, rows) <= |rows|
  {
    if rows != [] {
      ValidCountBound(parse, rows[1..]);
    }
  }

  /** The loop's counter never exceeds the number of rows read. */
  lemma ScanCountBound(parse: Parser, rows: seq<Record>)
    requires Scan(parse, rows).Done?
    ensures Scan(parse, rows).count <= |rows|
  {
    ScanMeaning(parse, rows);
    ValidCountBound(parse, rows);
  }

  /** A zero counter, the "nothing to plot" case, is the same as an empty totals map. */
  lemma {:induction false} ScanEmptyIffZero(parse: Parser, rows: seq<Record>)
    requires Scan(parse, rows).Done?
    ensures Scan(parse, rows).count == 0 <==> Scan(parse, rows).totals == map[]
  {
    if rows != [] {
      var init := rows[..|rows| - 1];
      ScanEmptyIffZero(parse, init);
      match Classify(parse, rows[|rows| - 1])
      case Add(k, v) =>
        assert k in Scan(parse, rows).totals;
      case _ =>
    }
  }

  /**
   * A row whose amount raises `ValueError` changes neither the totals nor
   * the counter, wherever it stands: the rows after it are processed as if
   * it were absent.
   */
  lemma {:induction false} SkippedRowIsInvisible(parse: Parser, before: seq<Record>, r: Record, after: seq<Record>)
    requires Classify(parse, r).Skip?
    ensures Scan(parse, before + [r] + after) == Scan(parse, before + after)
  {
    if after == [] {
      assert before + [r] + after == before + [r];
      assert before + after == before;
      ScanSnoc(parse, before, r);
    } else {
      var init, last := after[..|after| - 1], after[|after| - 1];
      SkippedRowIsInvisible(parse, before, r, init);
      assert before + [r] + after == (before + [r] + init) + [last];
      assert before + after == (before + init) + [last];
      ScanSnoc(parse, before + [r] + init, last);
      ScanSnoc(parse, before + init, last);
    }
  }

  /**
   * One more valid row adds its amount to its own category, creating the key
   * if it was absent, increments the counter by one and leaves every other
   * category's total as it was.
   */
  lemma ValidRowStep(parse: Parser, rows: seq<Record>, r: Record)
    requires Scan(parse, rows).Done? && Classify(parse, r).Add?
    ensures var before, after, k, v := Scan(parse, rows), Scan(parse, rows + [r]), Classify(parse, r).category, Classify(parse, r).amount;
      && after.Done?
      && after.count == before.count + 1
      && after.totals.Keys == before.totals.Keys + {k}
      && after.totals[k] == Lookup(before.totals, k) + v
      && forall j :: j in before.totals && j != k ==> after.totals[j] == before.totals[j]
  {
    assert (rows + [r])[..|rows|] == rows;
  }

  /** Once abandoned, a read stays abandoned whatever follows. */
  lemma {:induction false} AbortIsFinal(parse: Parser, rows: seq<Record>, more: seq<Record>)
    requires Scan(parse, rows).Aborted?
    ensures Scan(parse, rows + more).Aborted?
  {
    if more == [] {
      assert rows + more == rows;
    } else {
      var init := more[..|more| - 1];
      AbortIsFinal(parse, rows, init);
      assert (rows + more)[..|rows + more| - 1] == rows + init;
    }
  }

  /** A record that raises something other than `ValueError` abandons the read of the whole file. */
  lemma AbortAt(parse: Parser, rows: seq<Record>, i: nat)
    requires i < |rows| && Classify(parse, rows[i]).Fail?
    ensures Scan(parse, rows).Aborted?
  {
    ScanAbortsIff(parse, rows);
  }

  lemma AdvanceCommutes(t: Tally, a: Step, b: Step)
    ensures Advance(Advance(t, a), b) == Advance(Advance(t, b), a)
  {
    if t.Done? && a.Add? && b.Add? && a.category != b.category {
      var m := t.totals;
      var ka, kb := a.category, b.category;
      assert m[ka := Lookup(m, ka) + a.amount][kb := Lookup(m, kb) + b.amount]
          == m[kb := Lookup(m, kb) + b.amount][ka := Lookup(m, ka) + a.amount];
    }
  }

  /**
   * The totals do not depend on the order of the rows: exchanging two
   * neighbouring rows gives the same result, so only the set of
   * (category, total) pairs is meaningful, not the order the keys were met.
   */
  lemma {:induction false} ScanSwap(parse: Parser, before: seq<Record>, a: Record, b: Record, after: seq<Record>)
    ensures Scan(parse, before + [a, b] + after) == Scan(parse, before + [b, a] + after)
  {
    if after == [] {
      assert before + [a, b] + after == (before + [a]) + [b];
      assert before + [b, a] + after == (before + [b]) + [a];
      ScanSnoc(parse, before + [a], b);
      ScanSnoc(parse, before + [b], a);
      ScanSnoc(parse, before, a);
      ScanSnoc(parse, before, b);
      AdvanceCommutes(Scan(parse, before), Classify(parse, a), Classify(parse, b));
    } else {
      var init, last := after[..|after| - 1], after[|after| - 1];
      ScanSwap(parse, before, a, b, init);
      assert before + [a, b] + after == (before + [a, b] + init) + [last];
      assert before + [b, a] + after == (before + [b, a] + init) + [last];
      ScanSnoc(parse, before + [a, b] + init, last);
      ScanSnoc(parse, before + [b, a] + init, last);
    }
  }
}
