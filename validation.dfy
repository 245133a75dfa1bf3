/** The checks `process_student_data` runs on the loaded table before any training: required
    columns, at least one row, no missing cells, numeric required columns. Each check is an
    early return; the first one that fails is the one reported. */
module Validation {
  import opened Wrappers
  import opened Seqs
  import opened Tables

  const RequiredColumns: seq<string> :=
    ["comprehension", "attention", "focus", "retention", "engagement_time", "assessment_score"]

  /** The column the model is trained to predict. */
  const Target: string := "assessment_score"

  lemma RequiredColumnsDistinct()
    ensures Distinct(RequiredColumns)
  {
  }

  predicate HasRequiredColumns(t: Table) {
    forall c :: c in RequiredColumns ==> c in t.header
  }

  /** `[col for col in required_columns if col not in df.columns]`: exactly the required
      columns absent from the header, in the order of RequiredColumns. */
  function MissingColumns(header: seq<string>): (r: seq<string>)
    ensures forall c :: c in r <==> c in RequiredColumns && c !in header
    ensures IsSubsequence(r, RequiredColumns)
  {
    Filter(RequiredColumns, c => c !in header)
  }

  /** The required columns with at least one missing cell, in the order of RequiredColumns
      (the index of `isnull().sum()` restricted to positive counts). */
  function MissingValueColumns(t: Table): (r: seq<string>)
    requires WellFormed(t) && HasRequiredColumns(t)
    ensures forall c :: c in r <==> c in RequiredColumns && Missing in Column(t, c)
    ensures IsSubsequence(r, RequiredColumns)
  {
    Filter(RequiredColumns, c => c in t.header && Missing in Column(t, c))
  }

  /** `pd.to_numeric(..., errors='coerce')` on one cell: text that `parse` reads as a number
      becomes that number, any other text becomes NaN; numbers and NaN stay as they are. */
  function CoerceCell(c: Cell, parse: string -> Option<real>): Cell {
    match c
    case Text(s) => (match parse(s) case Some(v) => Num(v) case None => Missing)
    case _ => c
  }

  function CoerceValues(col: seq<Cell>, parse: string -> Option<real>): (r: seq<Cell>)
    ensures |r| == |col|
  {
    seq(|col|, i requires 0 <= i < |col| => CoerceCell(col[i], parse))
  }

  /** `is_numeric_dtype`: every cell of the column is a number. */
  predicate IsNumeric(col: seq<Cell>) {
    forall i :: 0 <= i < |col| ==> col[i].Num?
  }

  /** The column, once coerced, holds a NaN (`df[col].isnull().any()` after `to_numeric`). */
  predicate ColumnFails(col: seq<Cell>, parse: string -> Option<real>) {
    Missing in CoerceValues(col, parse)
  }

  /** The loop skips a numeric column; coercing it would leave it as it is in any case. */
  lemma NumericColumnUnchanged(col: seq<Cell>, parse: string -> Option<real>)
    requires IsNumeric(col)
    ensures CoerceValues(col, parse) == col
    ensures !ColumnFails(col, parse)
  {
  }

  /** Once missing cells are excluded, a column fails exactly when one of its texts does not
      parse; after a successful coercion the column is numeric. */
  lemma ColumnFailsExactly(col: seq<Cell>, parse: string -> Option<real>)
    requires Missing !in col
    ensures ColumnFails(col, parse) <==> exists i :: 0 <= i < |col| && col[i].Text? && parse(col[i].text).None?
    ensures !ColumnFails(col, parse) ==> IsNumeric(CoerceValues(col, parse))
  {
    var r := CoerceValues(col, parse);
    if ColumnFails(col, parse) {
      var i :| 0 <= i < |r| && r[i] == Missing;
      assert col[i] != Missing by { assert col[i] in col; }
    }
    if !ColumnFails(col, parse) {
      forall i | 0 <= i < |r| ensures r[i].Num? && !(col[i].Text? && parse(col[i].text).None?) {
        assert col[i] in col;
        assert r[i] in r;
      }
    }
  }

  /** The position of the first of cols, at or after `from`, whose column fails to coerce;
      |cols| when there is none. */
  function FirstFailureFrom(t: Table, cols: seq<string>, parse: string -> Option<real>, from: nat): (k: nat)
    requires WellFormed(t) && (forall c :: c in cols ==> c in t.header) && from <= |cols|
    ensures from <= k <= |cols|
    ensures k < |cols| ==> ColumnFails(Column(t, cols[k]), parse)
    ensures forall j :: from <= j < k ==> !ColumnFails(Column(t, cols[j]), parse)
    decreases |cols| - from
  {
    if from == |cols| then from
    else if ColumnFails(Column(t, cols[from]), parse) then from
    else FirstFailureFrom(t, cols, parse, from + 1)
  }

  /** The first of cols (in order) whose column fails to coerce, if any. */
  function FirstFailing(t: Table, cols: seq<string>, parse: string -> Option<real>): (r: Option<string>)
    requires WellFormed(t) && forall c :: c in cols ==> c in t.header
    ensures r.None? <==> forall k :: 0 <= k < |cols| ==> !ColumnFails(Column(t, cols[k]), parse)
    ensures r.Some? ==> exists k :: 0 <= k < |cols| && cols[k] == r.value
                          && ColumnFails(Column(t, cols[k]), parse)
                          && forall j :: 0 <= j < k ==> !ColumnFails(Column(t, cols[j]), parse)
  {
    var k := FirstFailureFrom(t, cols, parse, 0);
    if k < |cols| then Some(cols[k]) else None
  }

  /** A failing column preceded only by columns that pass is the first failure. */
  lemma FirstFailureAt(t: Table, cols: seq<string>, parse: string -> Option<real>, i: nat)
    requires WellFormed(t) && (forall c :: c in cols ==> c in t.header) && i < |cols|
    requires ColumnFails(Column(t, cols[i]), parse)
    requires forall j :: 0 <= j < i ==> !ColumnFails(Column(t, cols[j]), parse)
    ensures FirstFailureFrom(t, cols, parse, 0) == i
  {
    var k := FirstFailureFrom(t, cols, parse, 0);
  }

  /** The column FirstFailing reports is the one at the first position whose column fails. */
  lemma FirstFailingIs(t: Table, cols: seq<string>, parse: string -> Option<real>, col: string)
    requires WellFormed(t) && forall c :: c in cols ==> c in t.header
    ensures FirstFailing(t, cols, parse) == Some(col) <==>
      exists k :: 0 <= k < |cols| && cols[k] == col
        && ColumnFails(Column(t, cols[k]), parse)
        && forall j :: 0 <= j < k ==> !ColumnFails(Column(t, cols[j]), parse)
  {
    var k0 := FirstFailureFrom(t, cols, parse, 0);
    forall k | 0 <= k < |cols| && cols[k] == col && ColumnFails(Column(t, cols[k]), parse)
               && (forall j :: 0 <= j < k ==> !ColumnFails(Column(t, cols[j]), parse))
      ensures k0 == k
    {
      FirstFailureAt(t, cols, parse, k);
    }
  }

  /** The table after the coercion loop has run over cols, one column at a time. */
  function CoerceColumns(t: Table, cols: seq<string>, parse: string -> Option<real>): (r: Table)
    requires WellFormed(t) && forall c :: c in cols ==> c in t.header
    ensures WellFormed(r) && r.header == t.header && r.height == t.height
    decreases |cols|
  {
    if cols == [] then t
    else
      var init := cols[..|cols| - 1];
      var c := cols[|cols| - 1];
      assert forall x :: x in init ==> x in cols;
      var before := CoerceColumns(t, init, parse);
      AssignColumn(before, c, CoerceValues(Column(before, c), parse))
  }

  /** Coercing distinct columns coerces each of them once and touches nothing else. */
  lemma {:induction false} CoerceColumnsEffect(t: Table, cols: seq<string>, parse: string -> Option<real>)
    requires WellFormed(t) && (forall c :: c in cols ==> c in t.header) && Distinct(cols)
    ensures forall c :: c in t.header ==>
      Column(CoerceColumns(t, cols, parse), c) ==
        if c in cols then CoerceValues(Column(t, c), parse) else Column(t, c)
    decreases |cols|
  {
    if cols != [] {
      var init := cols[..|cols| - 1];
      var last := cols[|cols| - 1];
      assert forall x :: x in init ==> x in cols;
      assert Distinct(init);
      CoerceColumnsEffect(t, init, parse);
      var before := CoerceColumns(t, init, parse);
      var after := CoerceColumns(t, cols, parse);
      assert after == AssignColumn(before, last, CoerceValues(Column(before, last), parse));
      assert cols == init + [last];
      assert forall i :: 0 <= i < |init| ==> init[i] == cols[i];
      assert last !in init;
      forall c | c in t.header
        ensures Column(after, c) == if c in cols then CoerceValues(Column(t, c), parse) else Column(t, c)
      {
        assert c in cols <==> c in init || c == last;
        if c == last {
          assert Column(before, last) == Column(t, last);
        } else {
          assert Column(after, c) == Column(before, c);
        }
      }
    }
  }

  datatype ValidationError =
    | MissingRequiredColumns(columns: seq<string>)
    | EmptyTable
    | MissingValues(columns: seq<string>)
    | NonNumericColumn(column: string)

  /** Lines 20-61 of the script: the first failing check, or the coerced table. */
  function Validate(t: Table, parse: string -> Option<real>): (r: Result<Table, ValidationError>)
    requires WellFormed(t)
    ensures r.Ok? ==> WellFormed(r.value) && r.value.header == t.header && r.value.height == t.height
    ensures r.Ok? ==> HasRequiredColumns(t) && t.height > 0
    ensures r.Err? && r.error.MissingRequiredColumns? ==> r.error.columns != []
    ensures r.Err? && r.error.MissingValues? ==> r.error.columns != []
    ensures r.Err? && r.error.NonNumericColumn? ==> r.error.column in RequiredColumns
  {
    NoMissingColumns(t);
    var missing := MissingColumns(t.header);
    if missing != [] then Err(MissingRequiredColumns(missing))
    else if t.height == 0 then Err(EmptyTable)
    else
      var incomplete := MissingValueColumns(t);
      if incomplete != [] then Err(MissingValues(incomplete))
      else match FirstFailing(t, RequiredColumns, parse)
        case Some(c) => Err(NonNumericColumn(c))
        case None => Ok(CoerceColumns(t, RequiredColumns, parse))
  }

  /** Python's `repr` of a list of column names, as the f-strings print it. */
  function PyList(names: seq<string>): string {
    "[" + PyItems(names) + "]"
  }

  function PyItems(names: seq<string>): string {
    if names == [] then ""
    else if |names| == 1 then "'" + names[0] + "'"
    else "'" + names[0] + "', " + PyItems(names[1..])
  }

  /** The text x appears in m at offset at, with more text after it. */
  predicate Quotes(m: string, at: nat, x: string) {
    at + |x| < |m| && m[at..at + |x|] == x
  }

  lemma Framed(p: string, x: string, q: string)
    requires q != []
    ensures Quotes(p + x + q, |p|, x)
  {
    assert (p + x + q)[|p|..|p| + |x|] == x;
  }

  /** The error text of each failed check. The two lists come right after their fixed openings,
      and the column name right after the opening quote. */
  function Message(e: ValidationError): (m: string)
    ensures e.MissingRequiredColumns? ==> Quotes(m, 26, PyList(e.columns))
    ensures e.MissingValues? ==> Quotes(m, 33, PyList(e.columns))
    ensures e.NonNumericColumn? ==> Quotes(m, 8, e.column)
  {
    match e
    case MissingRequiredColumns(cols) =>
      var opening := "Missing required columns: ";
      var closing := ". Please ensure your CSV has columns: " + PyList(RequiredColumns);
      Framed(opening, PyList(cols), closing);
      opening + PyList(cols) + closing
    case EmptyTable => "The CSV file is empty. Please provide a file with data."
    case MissingValues(cols) =>
      var opening := "Missing values found in columns: ";
      var closing := ". Please ensure all data is complete.";
      Framed(opening, PyList(cols), closing);
      opening + PyList(cols) + closing
    case NonNumericColumn(c) =>
      var opening := "Column \"";
      var closing := "\" contains non-numeric values that cannot be converted.";
      Framed(opening, c, closing);
      opening + c + closing
  }

  // ---------------------------------------------------------------------------------------
  // Properties of the validation chain

  /** The three checks that come before coercion all pass. */
  predicate EarlyChecksPass(t: Table)
    requires WellFormed(t)
  {
    && HasRequiredColumns(t) && t.height > 0
    && forall c :: c in RequiredColumns ==> Missing !in Column(t, c)
  }

  /** The missing-columns list is empty exactly when every required column is present. */
  lemma NoMissingColumns(t: Table)
    ensures HasRequiredColumns(t) <==> MissingColumns(t.header) == []
  {
    if HasRequiredColumns(t) {
      assert forall c :: c !in MissingColumns(t.header);
    }
  }

  /** The missing-values list is empty exactly when no required column has a missing cell. */
  lemma NoMissingValues(t: Table)
    requires WellFormed(t) && HasRequiredColumns(t)
    ensures MissingValueColumns(t) == [] <==> forall c :: c in RequiredColumns ==> Missing !in Column(t, c)
  {
    FilterEmpty(RequiredColumns, c => c in t.header && Missing in Column(t, c));
  }

  /** When an early check fails, validation stops there; otherwise it is decided by the first
      required column that fails to coerce. */
  lemma EarlyChecks(t: Table, parse: string -> Option<real>)
    requires WellFormed(t)
    ensures !EarlyChecksPass(t) ==> Validate(t, parse).Err? && !Validate(t, parse).error.NonNumericColumn?
    ensures EarlyChecksPass(t) ==> (Validate(t, parse) ==
      match FirstFailing(t, RequiredColumns, parse)
      case Some(c) => Err(NonNumericColumn(c))
      case None => Ok(CoerceColumns(t, RequiredColumns, parse)))
  {
    NoMissingColumns(t);
    if HasRequiredColumns(t) {
      NoMissingValues(t);
    }
  }

  /** The missing-columns error is reported exactly when a required column is absent, and it
      lists precisely the absent required columns in required order. */
  lemma MissingColumnsReported(t: Table, parse: string -> Option<real>, cols: seq<string>)
    requires WellFormed(t)
    ensures Validate(t, parse) == Err(MissingRequiredColumns(cols)) <==>
      && cols != []
      && (forall c :: c in cols <==> c in RequiredColumns && c !in t.header)
      && IsSubsequence(cols, RequiredColumns)
  {
    var m := MissingColumns(t.header);
    if cols != [] && (forall c :: c in cols <==> c in RequiredColumns && c !in t.header)
       && IsSubsequence(cols, RequiredColumns) {
      RequiredColumnsDistinct();
      SubsequenceUnique(cols, m, RequiredColumns);
    }
  }

  /** Whether a header is missing columns, and which, depends only on which required columns it
      has: extra columns never matter. */
  lemma {:induction false} ExtraColumnsIgnored(h1: seq<string>, h2: seq<string>)
    requires forall c :: c in RequiredColumns ==> (c in h1 <==> c in h2)
    ensures MissingColumns(h1) == MissingColumns(h2)
  {
    FilterAgrees(RequiredColumns, c => c !in h1, c => c !in h2);
  }

  /** The empty-table error is reported exactly when all required columns are present and there
      are no rows. */
  lemma EmptyTableReported(t: Table, parse: string -> Option<real>)
    requires WellFormed(t)
    ensures Validate(t, parse) == Err(EmptyTable) <==> HasRequiredColumns(t) && t.height == 0
  {
    NoMissingColumns(t);
  }

  /** The missing-values list is the only list of required columns, in required order, that
      holds exactly the required columns with a missing cell. */
  lemma MissingValueColumnsUnique(t: Table, cols: seq<string>)
    requires WellFormed(t) && HasRequiredColumns(t)
    ensures cols == MissingValueColumns(t) <==>
      && (forall c :: c in cols <==> c in RequiredColumns && c in t.header && Missing in Column(t, c))
      && IsSubsequence(cols, RequiredColumns)
  {
    if (forall c :: c in cols <==> c in RequiredColumns && c in t.header && Missing in Column(t, c))
       && IsSubsequence(cols, RequiredColumns) {
      RequiredColumnsDistinct();
      SubsequenceUnique(cols, MissingValueColumns(t), RequiredColumns);
    }
  }

  /** Validation stops at the missing-values check exactly when the first two checks pass and
      the missing-values list is not empty; the error carries that list. */
  lemma MissingValuesStage(t: Table, parse: string -> Option<real>, cols: seq<string>)
    requires WellFormed(t)
    ensures Validate(t, parse) == Err(MissingValues(cols)) <==>
      HasRequiredColumns(t) && t.height > 0 && cols != [] && cols == MissingValueColumns(t)
  {
    NoMissingColumns(t);
  }

  /** The missing-values error is reported exactly when the columns are all there, there is a
      row, and some required column has a missing cell; it lists exactly those columns in
      required order. */
  lemma MissingValuesReported(t: Table, parse: string -> Option<real>, cols: seq<string>)
    requires WellFormed(t)
    ensures Validate(t, parse) == Err(MissingValues(cols)) <==>
      && HasRequiredColumns(t) && t.height > 0
      && cols != []
      && (forall c :: c in cols <==> c in RequiredColumns && c in t.header && Missing in Column(t, c))
      && IsSubsequence(cols, RequiredColumns)
  {
    MissingValuesStage(t, parse, cols);
    if HasRequiredColumns(t) {
      MissingValueColumnsUnique(t, cols);
    }
  }

  /** The non-numeric error names the first required column, in required order, that fails to
      coerce; it is reported only when the three earlier checks pass. */
  lemma NonNumericReported(t: Table, parse: string -> Option<real>, col: string)
    requires WellFormed(t)
    ensures Validate(t, parse) == Err(NonNumericColumn(col)) <==>
      && EarlyChecksPass(t)
      && exists k :: 0 <= k < |RequiredColumns| && RequiredColumns[k] == col
           && ColumnFails(Column(t, col), parse)
           && forall j :: 0 <= j < k ==> !ColumnFails(Column(t, RequiredColumns[j]), parse)
  {
    EarlyChecks(t, parse);
    if EarlyChecksPass(t) {
      FirstFailingIs(t, RequiredColumns, parse, col);
    }
  }

  /** Validation succeeds exactly when every check passes. */
  lemma ValidateSucceeds(t: Table, parse: string -> Option<real>)
    requires WellFormed(t)
    ensures Validate(t, parse).Ok? <==>
      EarlyChecksPass(t) && forall c :: c in RequiredColumns ==> !ColumnFails(Column(t, c), parse)
  {
    EarlyChecks(t, parse);
    if EarlyChecksPass(t) {
      var r := FirstFailing(t, RequiredColumns, parse);
      assert r.None? <==> forall c :: c in RequiredColumns ==> !ColumnFails(Column(t, c), parse);
    }
  }

  /** On success the table keeps its header and its row count; each required column is the coerced
      form of the original and is numeric; columns that were numeric already and all other
      columns are unchanged. */
  lemma ValidatedTable(t: Table, parse: string -> Option<real>)
    requires WellFormed(t) && Validate(t, parse).Ok?
    ensures Validate(t, parse).value == CoerceColumns(t, RequiredColumns, parse)
    ensures var clean := Validate(t, parse).value;
      && WellFormed(clean) && clean.header == t.header && clean.height == t.height
      && (forall c :: c in RequiredColumns ==>
            Column(clean, c) == CoerceValues(Column(t, c), parse) && IsNumeric(Column(clean, c)))
      && (forall c :: c in RequiredColumns && IsNumeric(Column(t, c)) ==> Column(clean, c) == Column(t, c))
      && (forall c :: c in t.header && c !in RequiredColumns ==> Column(clean, c) == Column(t, c))
  {
    EarlyChecks(t, parse);
    ValidateSucceeds(t, parse);
    var clean := CoerceColumns(t, RequiredColumns, parse);
    assert Validate(t, parse).value == clean;
    RequiredColumnsDistinct();
    CoerceColumnsEffect(t, RequiredColumns, parse);
    forall c | c in RequiredColumns
      ensures Column(clean, c) == CoerceValues(Column(t, c), parse) && IsNumeric(Column(clean, c))
    {
      ColumnFailsExactly(Column(t, c), parse);
    }
    forall c | c in RequiredColumns && IsNumeric(Column(t, c))
      ensures Column(clean, c) == Column(t, c)
    {
      NumericColumnUnchanged(Column(t, c), parse);
    }
  }
}
