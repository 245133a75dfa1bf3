/** Feature engineering (lines 63-73 of the script): three derived columns are added to the
    validated table, and the model sees eight features per row plus the target. */
module Features {
  import opened Seqs
  import opened Tables
  import opened Validation

  const MeanCognitive: string := "mean_cognitive"
  const AttentionFocus: string := "attention_focus"
  const ComprehensionRetention: string := "comprehension_retention"

  const DerivedColumns: seq<string> := [MeanCognitive, AttentionFocus, ComprehensionRetention]

  /** The feature columns, in the order the model receives them. */
  const FeatureNames: seq<string> := [
    "comprehension", "attention", "focus", "retention",
    "engagement_time", MeanCognitive, AttentionFocus, ComprehensionRetention
  ]

  lemma FeatureNamesDistinct()
    ensures Distinct(FeatureNames) && |FeatureNames| == 8
    ensures Distinct(RequiredColumns + DerivedColumns)
  {
  }

  /** The derived names are not required columns; the factors of the products are. */
  lemma DerivedNotRequired()
    ensures forall c :: c in DerivedColumns ==> c !in RequiredColumns
    ensures "comprehension" in RequiredColumns && "attention" in RequiredColumns
    ensures "focus" in RequiredColumns && "retention" in RequiredColumns
  {
  }

  /** The column is present and all of its cells are numbers. */
  predicate NumericColumn(t: Table, c: string)
    requires WellFormed(t)
  {
    c in t.header && IsNumeric(Column(t, c))
  }

  /** The numbers of a numeric column. */
  function Values(col: seq<Cell>): (r: seq<real>)
    requires IsNumeric(col)
    ensures |r| == |col| && forall i :: 0 <= i < |col| ==> col[i] == Num(r[i])
  {
    seq(|col|, i requires 0 <= i < |col| => col[i].value)
  }

  /** The table as validation leaves it: every required column numeric (spelled out column by
      column; ValidatedAll states it over RequiredColumns). */
  predicate Validated(t: Table) {
    && WellFormed(t)
    && NumericColumn(t, "comprehension") && NumericColumn(t, "attention")
    && NumericColumn(t, "focus") && NumericColumn(t, "retention")
    && NumericColumn(t, "engagement_time") && NumericColumn(t, "assessment_score")
  }

  lemma ValidatedAll(t: Table)
    requires WellFormed(t)
    ensures Validated(t) <==> forall c :: c in RequiredColumns ==> NumericColumn(t, c)
  {
  }

  /** The value of column c in row i of a table where c is numeric. */
  function At(t: Table, c: string, i: nat): real
    requires WellFormed(t) && NumericColumn(t, c) && i < t.height
  {
    Values(Column(t, c))[i]
  }

  /** `(comprehension + attention + focus + retention) / 4`, row by row. */
  function MeanCognitiveCells(t: Table): (r: seq<Cell>)
    requires Validated(t)
    ensures |r| == t.height
  {
    seq(t.height, i requires 0 <= i < t.height =>
      Num((At(t, "comprehension", i) + At(t, "attention", i) + At(t, "focus", i) + At(t, "retention", i)) / 4.0))
  }

  /** `df[a] * df[b]`, row by row. */
  function ProductCells(t: Table, a: string, b: string): (r: seq<Cell>)
    requires WellFormed(t) && NumericColumn(t, a) && NumericColumn(t, b)
    ensures |r| == t.height
  {
    seq(t.height, i requires 0 <= i < t.height => Num(At(t, a, i) * At(t, b, i)))
  }

  /** `df['attention'] * df['focus']`. */
  function AttentionFocusCells(t: Table): (r: seq<Cell>)
    requires Validated(t)
    ensures |r| == t.height
  {
    ProductCells(t, "attention", "focus")
  }

  /** `df['comprehension'] * df['retention']`. */
  function ComprehensionRetentionCells(t: Table): (r: seq<Cell>)
    requires Validated(t)
    ensures |r| == t.height
  {
    ProductCells(t, "comprehension", "retention")
  }

  /** The header after `df[name] = ...`: the name is appended unless it is already a column. */
  function AppendNew(h: seq<string>, name: string): seq<string> {
    if name in h then h else h + [name]
  }

  /** Assigning a column other than the required ones keeps the table validated. */
  lemma AssignKeepsValidated(t: Table, name: string, vals: seq<Cell>)
    requires Validated(t) && |vals| == t.height && name !in RequiredColumns
    ensures Validated(AssignColumn(t, name, vals))
    ensures forall c :: c in RequiredColumns ==> Column(AssignColumn(t, name, vals), c) == Column(t, c)
  {
  }

  /** `df['mean_cognitive'] = (df['comprehension'] + ... + df['retention']) / 4`. */
  function AddMeanCognitive(t: Table): (r: Table)
    requires Validated(t)
    ensures Validated(r) && r.height == t.height && r.header == AppendNew(t.header, MeanCognitive)
    ensures Column(r, MeanCognitive) == MeanCognitiveCells(t)
    ensures forall c :: c in RequiredColumns ==> Column(r, c) == Column(t, c)
  {
    AssignKeepsValidated(t, MeanCognitive, MeanCognitiveCells(t));
    AssignColumn(t, MeanCognitive, MeanCognitiveCells(t))
  }

  /** `df[name] = df[a] * df[b]` for a derived name and two required columns. */
  function AddProduct(t: Table, name: string, a: string, b: string): (r: Table)
    requires Validated(t) && name !in RequiredColumns && a in RequiredColumns && b in RequiredColumns
    ensures Validated(r) && r.height == t.height && r.header == AppendNew(t.header, name)
    ensures Column(r, name) == ProductCells(t, a, b)
    ensures forall c :: c in RequiredColumns ==> Column(r, c) == Column(t, c)
  {
    AssignKeepsValidated(t, name, ProductCells(t, a, b));
    AssignColumn(t, name, ProductCells(t, a, b))
  }

  /** The table after the three assignments of lines 64-66, each computed from the table as the
      previous assignment left it. */
  function WithFeatures(t: Table): (r: Table)
    requires Validated(t)
    ensures Validated(r) && r.height == t.height
  {
    DerivedNotRequired();
    var t1 := AddMeanCognitive(t);
    var t2 := AddProduct(t1, AttentionFocus, "attention", "focus");
    AddProduct(t2, ComprehensionRetention, "comprehension", "retention")
  }

  /** What feature engineering promises about u as computed from t: the same rows, the header
      extended by the derived names, the required columns unchanged, and each derived column
      holding its formula over t. */
  predicate Engineered(t: Table, u: Table)
    requires Validated(t)
  {
    && WellFormed(u) && u.height == t.height
    && u.header == AppendNew(AppendNew(AppendNew(t.header, MeanCognitive), AttentionFocus), ComprehensionRetention)
    && (forall c :: c in RequiredColumns ==> c in u.header && Column(u, c) == Column(t, c))
    && MeanCognitive in u.header && Column(u, MeanCognitive) == MeanCognitiveCells(t)
    && AttentionFocus in u.header && Column(u, AttentionFocus) == AttentionFocusCells(t)
    && ComprehensionRetention in u.header && Column(u, ComprehensionRetention) == ComprehensionRetentionCells(t)
  }

  /** A product over two columns that an assignment left alone is the same before and after. */
  lemma ProductCellsAgree(t: Table, u: Table, a: string, b: string)
    requires WellFormed(t) && NumericColumn(t, a) && NumericColumn(t, b)
    requires WellFormed(u) && a in u.header && b in u.header
    requires Column(u, a) == Column(t, a) && Column(u, b) == Column(t, b)
    ensures NumericColumn(u, a) && NumericColumn(u, b)
    ensures ProductCells(u, a, b) == ProductCells(t, a, b)
  {
    forall i | 0 <= i < t.height ensures ProductCells(u, a, b)[i] == ProductCells(t, a, b)[i] {
      assert u.height == t.height by { assert |Column(u, a)| == u.height; }
    }
  }

  /** The header and the required columns after lines 64-66. */
  lemma WithFeaturesKeeps(t: Table)
    requires Validated(t)
    ensures var r := WithFeatures(t);
      && r.header == AppendNew(AppendNew(AppendNew(t.header, MeanCognitive), AttentionFocus), ComprehensionRetention)
      && forall c :: c in RequiredColumns ==> c in r.header && Column(r, c) == Column(t, c)
  {
    DerivedNotRequired();
    var t1 := AddMeanCognitive(t);
    var t2 := AddProduct(t1, AttentionFocus, "attention", "focus");
    var r := AddProduct(t2, ComprehensionRetention, "comprehension", "retention");
    assert r == WithFeatures(t);
  }

  /** The derived columns after lines 64-66, each computed from the validated columns. */
  lemma WithFeaturesDerives(t: Table)
    requires Validated(t)
    ensures var r := WithFeatures(t);
      && MeanCognitive in r.header && Column(r, MeanCognitive) == MeanCognitiveCells(t)
      && AttentionFocus in r.header && Column(r, AttentionFocus) == AttentionFocusCells(t)
      && ComprehensionRetention in r.header && Column(r, ComprehensionRetention) == ComprehensionRetentionCells(t)
  {
    DerivedNotRequired();
    var t1 := AddMeanCognitive(t);
    var t2 := AddProduct(t1, AttentionFocus, "attention", "focus");
    var r := AddProduct(t2, ComprehensionRetention, "comprehension", "retention");
    assert r == WithFeatures(t);
    assert Column(t1, MeanCognitive) == MeanCognitiveCells(t);
    assert Column(t2, MeanCognitive) == Column(t1, MeanCognitive);
    assert Column(r, MeanCognitive) == Column(t2, MeanCognitive);
    FirstProductDerived(t, t1, t2);
    assert Column(r, AttentionFocus) == Column(t2, AttentionFocus);
    SecondProductDerived(t, t2, r);
  }

  /** Line 65 reads the required columns that line 64 left alone. */
  lemma FirstProductDerived(t: Table, t1: Table, t2: Table)
    requires Validated(t) && Validated(t1) && AttentionFocus !in RequiredColumns
    requires forall c :: c in RequiredColumns ==> Column(t1, c) == Column(t, c)
    requires t2 == AddProduct(t1, AttentionFocus, "attention", "focus")
    ensures AttentionFocus in t2.header && Column(t2, AttentionFocus) == AttentionFocusCells(t)
  {
    ProductCellsAgree(t, t1, "attention", "focus");
  }

  /** Line 66 reads the required columns that lines 64-65 left alone. */
  lemma SecondProductDerived(t: Table, t2: Table, r: Table)
    requires Validated(t) && Validated(t2) && ComprehensionRetention !in RequiredColumns
    requires forall c :: c in RequiredColumns ==> Column(t2, c) == Column(t, c)
    requires r == AddProduct(t2, ComprehensionRetention, "comprehension", "retention")
    ensures ComprehensionRetention in r.header && Column(r, ComprehensionRetention) == ComprehensionRetentionCells(t)
  {
    ProductCellsAgree(t, t2, "comprehension", "retention");
  }

  /** The three assignments of lines 64-66 do what Engineered describes. */
  lemma WithFeaturesEngineered(t: Table)
    requires Validated(t)
    ensures Engineered(t, WithFeatures(t))
  {
    WithFeaturesKeeps(t);
    WithFeaturesDerives(t);
  }

  /** Appending a name only when it is absent keeps the names distinct. */
  lemma AppendNewDistinct(h: seq<string>, name: string)
    requires Distinct(h)
    ensures Distinct(AppendNew(h, name))
  {
  }

  /** Feature engineering keeps the column names distinct. */
  lemma WithFeaturesDistinct(t: Table)
    requires Validated(t) && DistinctNames(t)
    ensures DistinctNames(WithFeatures(t))
  {
    WithFeaturesKeeps(t);
    AppendNewDistinct(t.header, MeanCognitive);
    AppendNewDistinct(AppendNew(t.header, MeanCognitive), AttentionFocus);
    AppendNewDistinct(AppendNew(AppendNew(t.header, MeanCognitive), AttentionFocus), ComprehensionRetention);
  }

  /** In the usual case, where the input has none of the derived names, the three names are
      appended at the right in the order of the assignments. */
  lemma FreshDerivedHeader(h: seq<string>)
    requires forall c :: c in DerivedColumns ==> c !in h
    ensures AppendNew(AppendNew(AppendNew(h, MeanCognitive), AttentionFocus), ComprehensionRetention)
      == h + DerivedColumns
  {
  }

  /** All eight features are numeric columns. */
  predicate HasFeatures(t: Table) {
    && Validated(t) && NumericColumn(t, MeanCognitive)
    && NumericColumn(t, AttentionFocus) && NumericColumn(t, ComprehensionRetention)
  }

  lemma HasFeaturesAll(t: Table)
    requires WellFormed(t)
    ensures HasFeatures(t) <==> (Validated(t) && forall c :: c in FeatureNames ==> NumericColumn(t, c))
  {
  }

  /** Row i of `df[features]`: the values of the eight feature columns, in the order of
      FeatureNames. */
  function FeatureRow(t: Table, i: nat): (x: seq<real>)
    requires HasFeatures(t) && i < t.height
    ensures |x| == |FeatureNames|
    ensures forall k :: 0 <= k < |FeatureNames| ==> NumericColumn(t, FeatureNames[k]) && x[k] == At(t, FeatureNames[k], i)
  {
    HasFeaturesAll(t);
    [At(t, "comprehension", i), At(t, "attention", i), At(t, "focus", i), At(t, "retention", i),
     At(t, "engagement_time", i), At(t, MeanCognitive, i), At(t, AttentionFocus, i),
     At(t, ComprehensionRetention, i)]
  }

  /** The value of a column known cell by cell. */
  lemma AtCells(t: Table, c: string, i: nat, col: seq<Cell>)
    requires WellFormed(t) && c in t.header && Column(t, c) == col && IsNumeric(col) && i < t.height
    ensures NumericColumn(t, c) && Num(At(t, c, i)) == col[i]
  {
  }

  /** A column assigned a product of two columns holds, in each row, the product of the two
      values. */
  lemma ProductAt(t: Table, u: Table, name: string, a: string, b: string, i: nat)
    requires WellFormed(t) && NumericColumn(t, a) && NumericColumn(t, b) && i < t.height
    requires WellFormed(u) && name in u.header && Column(u, name) == ProductCells(t, a, b)
    ensures NumericColumn(u, name) && At(u, name, i) == At(t, a, i) * At(t, b, i)
  {
    AtCells(u, name, i, ProductCells(t, a, b));
  }

  /** A required column of the engineered table holds the validated value. */
  lemma RequiredAt(t: Table, u: Table, c: string, i: nat)
    requires Validated(t) && Engineered(t, u) && c in RequiredColumns && i < t.height
    ensures NumericColumn(u, c) && At(u, c, i) == At(t, c, i)
  {
  }

  /** The `mean_cognitive` column of the engineered table holds the mean of line 64. */
  lemma MeanCognitiveAt(t: Table, u: Table, i: nat)
    requires Validated(t) && Engineered(t, u) && i < t.height
    ensures NumericColumn(u, MeanCognitive)
    ensures At(u, MeanCognitive, i) ==
      (At(t, "comprehension", i) + At(t, "attention", i) + At(t, "focus", i) + At(t, "retention", i)) / 4.0
  {
    AtCells(u, MeanCognitive, i, MeanCognitiveCells(t));
  }

  /** The `attention_focus` column of the engineered table holds the product of line 65. */
  lemma AttentionFocusAt(t: Table, u: Table, i: nat)
    requires Validated(t) && Engineered(t, u) && i < t.height
    ensures NumericColumn(u, AttentionFocus)
    ensures At(u, AttentionFocus, i) == At(t, "attention", i) * At(t, "focus", i)
  {
    ProductAt(t, u, AttentionFocus, "attention", "focus", i);
  }

  /** The `comprehension_retention` column of the engineered table holds the product of line 66. */
  lemma ComprehensionRetentionAt(t: Table, u: Table, i: nat)
    requires Validated(t) && Engineered(t, u) && i < t.height
    ensures NumericColumn(u, ComprehensionRetention)
    ensures At(u, ComprehensionRetention, i) == At(t, "comprehension", i) * At(t, "retention", i)
  {
    ProductAt(t, u, ComprehensionRetention, "comprehension", "retention", i);
  }

  /** The derived cells are all numbers. */
  lemma DerivedCellsNumeric(t: Table)
    requires Validated(t)
    ensures IsNumeric(MeanCognitiveCells(t))
    ensures IsNumeric(AttentionFocusCells(t))
    ensures IsNumeric(ComprehensionRetentionCells(t))
  {
  }

  /** The engineered table has all eight features as numeric columns. */
  lemma EngineeredHasFeatures(t: Table, u: Table)
    requires Validated(t) && Engineered(t, u)
    ensures HasFeatures(u)
  {
    DerivedNotRequired();
    DerivedCellsNumeric(t);
  }

  /** `X = df[features]`: one row of eight numbers per table row. */
  function FeatureMatrix(t: Table): (x: seq<seq<real>>)
    requires HasFeatures(t)
    ensures |x| == t.height && forall i :: 0 <= i < |x| ==> x[i] == FeatureRow(t, i)
  {
    seq(t.height, i requires 0 <= i < t.height => FeatureRow(t, i))
  }

  /** `y = df['assessment_score']`. */
  function TargetValues(t: Table): (y: seq<real>)
    requires WellFormed(t) && NumericColumn(t, Target)
    ensures |y| == t.height && forall i :: 0 <= i < t.height ==> Column(t, Target)[i] == Num(y[i])
  {
    Values(Column(t, Target))
  }
}
