/** The pandas data frame `df` of the script as a mutable object: the statements of lines 48-66
    assign its columns in place, one after the other. Each method is specified by the value
    functions of Tables, Validation and Features applied to the frame's contents before the call. */
module DataFrames {
  import opened Wrappers
  import opened Seqs
  import opened Tables
  import opened Validation
  import opened Features

  class Frame {
    var header: seq<string>
    var columns: seq<seq<Cell>>
    var height: nat

    /** The frame's contents as a value. */
    function Snapshot(): Table
      reads this
    {
      Table(header, columns, height)
    }

    /** A frame holding the table `read_csv` produced (or a `copy()` of another frame). */
    constructor (t: Table)
      ensures Snapshot() == t
    {
      header := t.header;
      columns := t.columns;
      height := t.height;
    }

    /** `df[name] = vals`. */
    method Assign(name: string, vals: seq<Cell>)
      requires WellFormed(Snapshot()) && |vals| == height
      modifies this
      ensures Snapshot() == AssignColumn(old(Snapshot()), name, vals)
    {
      var r := AssignColumn(Snapshot(), name, vals);
      header, columns, height := r.header, r.columns, r.height;
    }

    /** The loop of lines 48-61 over the given columns: a column that is not numeric is replaced
        by its coerced form, and the loop stops at the first coerced column that still holds a
        NaN, returning its name. Columns before it have been coerced, the failing one too. */
    method CoerceNumeric(cols: seq<string>, parse: string -> Option<real>) returns (failed: Option<string>)
      requires WellFormed(Snapshot()) && Distinct(cols)
      requires forall c :: c in cols ==> c in header && Missing !in Column(Snapshot(), c)
      modifies this
      ensures failed == FirstFailing(old(Snapshot()), cols, parse)
      ensures failed.None? ==> Snapshot() == CoerceColumns(old(Snapshot()), cols, parse)
      ensures failed.Some? ==>
        Snapshot() == CoerceColumns(old(Snapshot()), cols[..FirstFailureFrom(old(Snapshot()), cols, parse, 0) + 1], parse)
    {
      ghost var t0 := Snapshot();
      var i := 0;
      while i < |cols|
        invariant 0 <= i <= |cols|
        invariant forall c :: c in cols ==> c in t0.header
        invariant Snapshot() == CoerceColumns(t0, cols[..i], parse)
        invariant forall j :: 0 <= j < i ==> !ColumnFails(Column(t0, cols[j]), parse)
      {
        var c := cols[i];
        ghost var before := Snapshot();
        CoercePrefixStep(t0, cols, parse, i, before);
        var fails := CoerceColumn(c, parse);
        if fails {
          FirstFailureAt(t0, cols, parse, i);
          return Some(c);
        }
        i := i + 1;
      }
      assert cols[..i] == cols;
      return None;
    }

    /** One turn of the loop: a column that is not numeric is replaced by its coerced form, and
        the result says whether that form holds a NaN. A numeric column is left alone, which is
        what coercing it would give. */
    method CoerceColumn(c: string, parse: string -> Option<real>) returns (fails: bool)
      requires WellFormed(Snapshot()) && c in header
      modifies this
      ensures fails == ColumnFails(old(Column(Snapshot(), c)), parse)
      ensures Snapshot() == AssignColumn(old(Snapshot()), c, CoerceValues(old(Column(Snapshot(), c)), parse))
    {
      var col := Column(Snapshot(), c);
      if !IsNumeric(col) {
        var coerced := CoerceValues(col, parse);
        Assign(c, coerced);
        return Missing in coerced;
      }
      NumericColumnUnchanged(col, parse);
      AssignOwnColumn(Snapshot(), c);
      return false;
    }

    /** Lines 64-66: the three derived columns, each computed from the frame as the previous
        assignment left it (WithFeaturesEngineered says what that table holds). */
    method AddDerivedFeatures()
      requires Validated(Snapshot())
      modifies this
      ensures Snapshot() == WithFeatures(old(Snapshot()))
    {
      ghost var t0 := Snapshot();
      DerivedNotRequired();
      Assign(MeanCognitive, MeanCognitiveCells(Snapshot()));
      ghost var t1 := Snapshot();
      assert t1 == AddMeanCognitive(t0);
      Assign(AttentionFocus, ProductCells(Snapshot(), "attention", "focus"));
      ghost var t2 := Snapshot();
      assert t2 == AddProduct(t1, AttentionFocus, "attention", "focus");
      Assign(ComprehensionRetention, ProductCells(Snapshot(), "comprehension", "retention"));
      assert Snapshot() == AddProduct(t2, ComprehensionRetention, "comprehension", "retention");
    }
  }

  /** One more turn of the coercion loop: the next column, untouched so far, is coerced. */
  lemma CoercePrefixStep(t: Table, cols: seq<string>, parse: string -> Option<real>, i: nat, before: Table)
    requires WellFormed(t) && (forall c :: c in cols ==> c in t.header) && Distinct(cols) && i < |cols|
    requires forall c :: c in cols[..i] ==> c in t.header
    requires before == CoerceColumns(t, cols[..i], parse)
    ensures WellFormed(before) && cols[i] in before.header && before.height == t.height
    ensures Column(before, cols[i]) == Column(t, cols[i])
    ensures CoerceColumns(t, cols[..i + 1], parse) ==
      AssignColumn(before, cols[i], CoerceValues(Column(before, cols[i]), parse))
  {
    var init := cols[..i];
    var next := cols[..i + 1];
    DistinctPrefix(cols, i);
    assert next[..|next| - 1] == init && next[|next| - 1] == cols[i];
    assert forall x :: x in next ==> x in t.header;
    CoerceColumnsEffect(t, init, parse);
    assert cols[i] in t.header && cols[i] !in init;
    assert CoerceColumns(t, next, parse) ==
      AssignColumn(CoerceColumns(t, next[..|next| - 1], parse), cols[i],
                   CoerceValues(Column(CoerceColumns(t, next[..|next| - 1], parse), cols[i]), parse));
  }
}
