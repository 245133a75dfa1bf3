/** `process_student_data` (lines 12-179 of ml_model_simple.py): load, validate, engineer the
    features, train the random forest and assemble the report, or return the error of the first
    step that fails. The pandas and scikit-learn calls are a Library of functions about which
    only their shapes are known. */
module Pipeline {
  import opened Wrappers
  import opened Seqs
  import opened Tables
  import opened Validation
  import opened Features
  import opened DataFrames
  import opened Ranking

  // ---------------------------------------------------------------------------------------
  // Library calls

  /** The constructor arguments of the forest, lines 83-88. */
  datatype ForestParams = ForestParams(nEstimators: nat, maxDepth: nat, randomState: nat, nJobs: nat)

  const RandomForest: ForestParams := ForestParams(300, 10, 42, 1)

  /** `train_test_split(..., test_size=0.2, random_state=42)` and `cross_val_score(..., cv=3)`. */
  const TestSize: real := 0.2
  const SplitSeed: nat := 42
  const Folds: nat := 3

  /** A forest fitted with a seed is determined by its parameters and its training data. */
  datatype Forest = Forest(params: ForestParams, xTrain: seq<seq<real>>, yTrain: seq<real>)

  datatype Split = Split(xTrain: seq<seq<real>>, xTest: seq<seq<real>>, yTrain: seq<real>, yTest: seq<real>)

  /** The library calls the script makes. A call that can raise returns Err with the text of the
      exception: `train_test_split` raises when a part would be empty, `cross_val_score` when
      there are fewer rows than folds. */
  datatype Library = Library(
    scale: seq<seq<real>> -> seq<seq<real>>,
    split: (seq<seq<real>>, seq<real>, real, nat) -> Result<Split, string>,
    predict: (Forest, seq<seq<real>>) -> seq<real>,
    importances: Forest -> seq<real>,
    r2: (seq<real>, seq<real>) -> real,
    mae: (seq<real>, seq<real>) -> real,
    mse: (seq<real>, seq<real>) -> real,
    sqrt: real -> real,
    crossValidate: (ForestParams, seq<seq<real>>, seq<real>, nat) -> Result<seq<real>, string>,
    mean: seq<real> -> real,
    std: seq<real> -> real)

  /** A split of n rows: train and test parts whose features and targets line up and that
      share out the rows. */
  predicate SplitShape(sp: Split, n: nat) {
    |sp.xTrain| == |sp.yTrain| && |sp.xTest| == |sp.yTest| && |sp.xTrain| + |sp.xTest| == n
  }

  /** The shapes the library guarantees: scaling keeps the rows, a split shares them out, a
      forest predicts one value per row and gives one importance per feature. */
  ghost predicate Conforms(lib: Library) {
    && (forall x :: |lib.scale(x)| == |x|)
    && (forall x, y, size, seed :: |x| == |y| && lib.split(x, y, size, seed).Ok? ==>
          SplitShape(lib.split(x, y, size, seed).value, |x|))
    && (forall f, x :: |lib.predict(f, x)| == |x|)
    && (forall f :: |lib.importances(f)| == |FeatureNames|)
  }

  // ---------------------------------------------------------------------------------------
  // The report

  datatype Metrics = Metrics(r2: real, mae: real, mse: real, rmse: real, cvR2Mean: real, cvR2Std: real)

  datatype BestParams = BestParams(nEstimators: nat, maxDepth: nat)

  datatype Pair = Pair(actual: real, predicted: real)

  datatype Overview = Overview(
    totalRows: nat, totalColumns: nat, sampleData: seq<map<string, Cell>>, columnNames: seq<string>)

  /** The success dictionary of lines 138-156; `predictions` is the table that `to_csv` writes. */
  datatype Report = Report(
    metrics: Metrics,
    bestParams: BestParams,
    featureImportance: seq<Importance>,
    predictedVsActual: seq<Pair>,
    overview: Overview,
    predictions: Table)

  /** `{'success': True, ...}` or `{'success': False, 'error': ...}`. */
  datatype ScriptResult = Success(report: Report) | Failure(error: string)

  /** What `read_csv` does: a loaded table, or one of the exceptions the script catches. */
  datatype Exception =
    | FileNotFound
    | EmptyData
    | ParserError(text: string)
    | OtherError(text: string)

  datatype Input = Loaded(table: Table) | Raised(exception: Exception)

  /** A loaded table is rectangular. */
  predicate Readable(input: Input) {
    input.Loaded? ==> WellFormed(input.table)
  }

  /** The handlers of lines 160-179. The catch-all handler's message opens with "Unexpected
      error", and the parser's handler quotes the exception's text. */
  function ExceptionMessage(e: Exception): (m: string)
    ensures e.OtherError? ==> Unexpected(m) && m[|UnexpectedOpening|..] == e.text
    ensures e.ParserError? ==> Quotes(m, 24, e.text)
  {
    match e
    case FileNotFound => "File not found. Please ensure the CSV file exists and is accessible."
    case EmptyData => "The CSV file is empty or corrupted. Please provide a valid CSV file with data."
    case ParserError(text) =>
      var opening := "Error parsing CSV file: ";
      var closing := ". Please ensure the file is a valid CSV format.";
      Framed(opening, text, closing);
      opening + text + closing
    case OtherError(text) => UnexpectedError(text)
  }

  const UnexpectedOpening: string := "Unexpected error: "

  /** The message opens with the catch-all handler's words. */
  predicate Unexpected(m: string) {
    |UnexpectedOpening| <= |m| && m[..|UnexpectedOpening|] == UnexpectedOpening
  }

  /** Line 179: the catch-all message, ending with the exception's text. */
  function UnexpectedError(text: string): (m: string)
    ensures Unexpected(m) && m[|UnexpectedOpening|..] == text
  {
    UnexpectedOpening + text
  }

  const BestParamsReported: BestParams := BestParams(300, 10)

  const PredictedScore: string := "predicted_score"

  /** A sequence of numbers as a column of cells. */
  function Nums(v: seq<real>): (r: seq<Cell>)
    ensures |r| == |v| && IsNumeric(r) && forall i :: 0 <= i < |v| ==> r[i] == Num(v[i])
  {
    seq(|v|, i requires 0 <= i < |v| => Num(v[i]))
  }

  /** Entry i pairs the i-th actual test value with the i-th prediction. */
  function Pairs(actual: seq<real>, predicted: seq<real>): (r: seq<Pair>)
    requires |actual| == |predicted|
    ensures |r| == |actual| && forall i :: 0 <= i < |r| ==> r[i] == Pair(actual[i], predicted[i])
  {
    seq(|actual|, i requires 0 <= i < |actual| => Pair(actual[i], predicted[i]))
  }

  // ---------------------------------------------------------------------------------------
  // The script as a function

  /** Validation leaves a table ready for feature engineering. */
  lemma ValidatedReady(t: Table, parse: string -> Option<real>)
    requires WellFormed(t) && Validate(t, parse).Ok?
    ensures Validated(Validate(t, parse).value) && Validate(t, parse).value.header == t.header
  {
    var clean := Validate(t, parse).value;
    ValidatedTable(t, parse);
    ValidatedAll(clean);
    assert forall c :: c in RequiredColumns ==> NumericColumn(clean, c);
  }

  /** The engineered table has the eight features. */
  lemma EngineeredReady(clean: Table)
    requires Validated(clean)
    ensures HasFeatures(WithFeatures(clean))
  {
    WithFeaturesEngineered(clean);
    EngineeredHasFeatures(clean, WithFeatures(clean));
  }

  /** Lines 89-156 once the split and the cross-validation have succeeded. */
  function Assemble(lib: Library, df: Table, xs: seq<seq<real>>, sp: Split, scores: seq<real>): (r: Report)
    requires Conforms(lib) && WellFormed(df) && |xs| == df.height
    requires SplitShape(sp, |xs|)
    ensures r.bestParams == BestParamsReported
    ensures |r.predictedVsActual| == |sp.yTest| && |r.featureImportance| == |FeatureNames|
    ensures r.overview.totalRows == df.height && r.predictions.height == df.height
  {
    var rf := Forest(RandomForest, sp.xTrain, sp.yTrain);
    var yPred := lib.predict(rf, sp.xTest);
    var mse := lib.mse(sp.yTest, yPred);
    Report(
      Metrics(lib.r2(sp.yTest, yPred), lib.mae(sp.yTest, yPred), mse, lib.sqrt(mse),
              lib.mean(scores), lib.std(scores)),
      BestParamsReported,
      SortByImportance(Zip(FeatureNames, lib.importances(rf))),
      Pairs(sp.yTest, yPred),
      Overview(df.height, |df.header|, HeadRecords(df, 5), df.header),
      AssignColumn(df, PredictedScore, Nums(lib.predict(rf, xs))))
  }

  /** The scaled feature matrix of lines 72-77. */
  function Design(lib: Library, df: Table): (xs: seq<seq<real>>)
    requires Conforms(lib) && HasFeatures(df)
    ensures |xs| == df.height
  {
    lib.scale(FeatureMatrix(df))
  }

  /** Lines 63-156 on a validated table. */
  function Train(lib: Library, clean: Table): (r: ScriptResult)
    requires Conforms(lib) && Validated(clean)
    ensures r.Failure? ==> Unexpected(r.error)
    ensures r.Success? ==> r.report.overview.totalRows == clean.height && r.report.predictions.height == clean.height
  {
    EngineeredReady(clean);
    Fit(lib, WithFeatures(clean))
  }

  /** Lines 72-156 on the engineered table: the split and the cross-validation may raise. */
  function Fit(lib: Library, df: Table): (r: ScriptResult)
    requires Conforms(lib) && HasFeatures(df)
    ensures r.Success? <==>
      && lib.split(Design(lib, df), TargetValues(df), TestSize, SplitSeed).Ok?
      && lib.crossValidate(RandomForest, Design(lib, df), TargetValues(df), Folds).Ok?
    ensures r.Failure? ==> Unexpected(r.error)
    ensures r.Success? ==> r.report.overview.totalRows == df.height && r.report.predictions.height == df.height
  {
    var xs := Design(lib, df);
    var y := TargetValues(df);
    match lib.split(xs, y, TestSize, SplitSeed)
    case Err(text) => Failure(UnexpectedError(text))
    case Ok(sp) =>
      match lib.crossValidate(RandomForest, xs, y, Folds)
      case Err(text) => Failure(UnexpectedError(text))
      case Ok(scores) => Success(Assemble(lib, df, xs, sp, scores))
  }

  /** `process_student_data` as a function of the loaded input. */
  function Run(lib: Library, input: Input, parse: string -> Option<real>): (r: ScriptResult)
    requires Conforms(lib) && Readable(input)
    ensures input.Raised? ==> r == Failure(ExceptionMessage(input.exception))
    ensures input.Loaded? && Validate(input.table, parse).Err? ==> r == Failure(Message(Validate(input.table, parse).error))
    ensures r.Success? ==> input.Loaded? && Validate(input.table, parse).Ok?
    ensures r.Success? ==> r.report.overview.totalRows == input.table.height && r.report.predictions.height == input.table.height
  {
    match input
    case Raised(e) => Failure(ExceptionMessage(e))
    case Loaded(t) =>
      match Validate(t, parse)
      case Err(e) => Failure(Message(e))
      case Ok(clean) =>
        ValidatedReady(t, parse);
        Train(lib, clean)
  }

  // ---------------------------------------------------------------------------------------
  // The report's shape

  /** `predicted_vs_actual` has one entry per test row, pairing its target with its prediction;
      there are no more entries than rows. */
  lemma AssemblePairs(lib: Library, df: Table, xs: seq<seq<real>>, sp: Split, scores: seq<real>)
    requires Conforms(lib) && WellFormed(df) && |xs| == df.height
    requires SplitShape(sp, |xs|)
    ensures var pairs := Assemble(lib, df, xs, sp, scores).predictedVsActual;
      var yPred := lib.predict(Forest(RandomForest, sp.xTrain, sp.yTrain), sp.xTest);
      && |pairs| == |sp.yTest| <= df.height
      && forall i :: 0 <= i < |pairs| ==> pairs[i] == Pair(sp.yTest[i], yPred[i])
  {
  }

  /** `feature_importance` is the zipped table of the eight features and their importances,
      reordered from the most to the least important: it holds each entry of that table, and
      nothing else, as often as the table does. */
  lemma AssembleRanking(lib: Library, df: Table, xs: seq<seq<real>>, sp: Split, scores: seq<real>)
    requires Conforms(lib) && WellFormed(df) && |xs| == df.height
    requires SplitShape(sp, |xs|)
    ensures var ranked := Assemble(lib, df, xs, sp, scores).featureImportance;
      var imps := lib.importances(Forest(RandomForest, sp.xTrain, sp.yTrain));
      && |imps| == |FeatureNames|
      && |ranked| == |FeatureNames| && Descending(ranked)
      && multiset(ranked) == multiset(Zip(FeatureNames, imps))
      && multiset(Names(ranked)) == multiset(FeatureNames)
  {
    var imps := lib.importances(Forest(RandomForest, sp.xTrain, sp.yTrain));
    var z := Zip(FeatureNames, imps);
    SortNames(z);
    ZipNames(FeatureNames, imps);
  }

  /** `dataset_overview` describes the engineered table: its row count, its column names and
      their number, and its first five rows (all of them when there are fewer). */
  lemma AssembleOverview(lib: Library, df: Table, xs: seq<seq<real>>, sp: Split, scores: seq<real>)
    requires Conforms(lib) && WellFormed(df) && |xs| == df.height
    requires SplitShape(sp, |xs|)
    ensures var o := Assemble(lib, df, xs, sp, scores).overview;
      && o.totalRows == df.height && o.columnNames == df.header && o.totalColumns == |o.columnNames|
      && |o.sampleData| == (if df.height < 5 then df.height else 5)
      && (forall i :: 0 <= i < |o.sampleData| ==> o.sampleData[i].Keys == set c | c in df.header)
      && (forall i, c :: 0 <= i < |o.sampleData| && c in df.header ==> o.sampleData[i][c] == Column(df, c)[i])
  {
  }

  /** The predictions table has a row for every row of the data set, not only the test rows: it
      is the engineered table with `predicted_score` holding the forest's prediction for each. */
  lemma AssemblePredictions(lib: Library, df: Table, xs: seq<seq<real>>, sp: Split, scores: seq<real>)
    requires Conforms(lib) && WellFormed(df) && |xs| == df.height
    requires SplitShape(sp, |xs|)
    ensures var p := Assemble(lib, df, xs, sp, scores).predictions;
      && WellFormed(p) && p.height == df.height && p.header == AppendNew(df.header, PredictedScore)
      && Column(p, PredictedScore) == Nums(lib.predict(Forest(RandomForest, sp.xTrain, sp.yTrain), xs))
      && forall c :: c in df.header && c != PredictedScore ==> Column(p, c) == Column(df, c)
  {
  }

  /** The reported parameters are those the forest is built with, and the metrics are the
      library's scores of the test predictions and of the three-fold cross-validation. */
  lemma AssembleMetrics(lib: Library, df: Table, xs: seq<seq<real>>, sp: Split, scores: seq<real>)
    requires Conforms(lib) && WellFormed(df) && |xs| == df.height
    requires SplitShape(sp, |xs|)
    ensures var rep := Assemble(lib, df, xs, sp, scores);
      var yPred := lib.predict(Forest(RandomForest, sp.xTrain, sp.yTrain), sp.xTest);
      && rep.bestParams.nEstimators == RandomForest.nEstimators == 300
      && rep.bestParams.maxDepth == RandomForest.maxDepth == 10
      && rep.metrics.r2 == lib.r2(sp.yTest, yPred) && rep.metrics.mae == lib.mae(sp.yTest, yPred)
      && rep.metrics.mse == lib.mse(sp.yTest, yPred) && rep.metrics.rmse == lib.sqrt(rep.metrics.mse)
      && rep.metrics.cvR2Mean == lib.mean(scores) && rep.metrics.cvR2Std == lib.std(scores)
  {
  }

  // ---------------------------------------------------------------------------------------
  // Properties of the script

  /** A read error is reported with its handler's message. */
  lemma ReadErrorReported(lib: Library, e: Exception, parse: string -> Option<real>)
    requires Conforms(lib)
    ensures Run(lib, Raised(e), parse) == Failure(ExceptionMessage(e))
  {
  }

  /** A failed check is reported with its message, and no library call is made: the result
      does not depend on the library. */
  lemma ValidationErrorReported(lib1: Library, lib2: Library, t: Table, parse: string -> Option<real>)
    requires Conforms(lib1) && Conforms(lib2) && WellFormed(t)
    requires Validate(t, parse).Err?
    ensures Run(lib1, Loaded(t), parse) == Failure(Message(Validate(t, parse).error))
    ensures Run(lib1, Loaded(t), parse) == Run(lib2, Loaded(t), parse)
  {
  }

  /** The script succeeds exactly when the table loads and validates and neither the split nor
      the cross-validation raises; otherwise its error is the message of the first failure. */
  lemma RunOutcome(lib: Library, input: Input, parse: string -> Option<real>)
    requires Conforms(lib) && Readable(input)
    ensures Run(lib, input, parse).Failure? <==>
      || input.Raised?
      || Validate(input.table, parse).Err?
      || (ValidatedReady(input.table, parse);
          var df := WithFeatures(Validate(input.table, parse).value);
          EngineeredReady(Validate(input.table, parse).value);
          var xs := Design(lib, df);
          var y := TargetValues(df);
          || lib.split(xs, y, TestSize, SplitSeed).Err?
          || lib.crossValidate(RandomForest, xs, y, Folds).Err?)
  {
  }

  /** On success, the report is the assembly of the engineered table with the library's split
      and cross-validation scores. */
  lemma RunSucceeds(lib: Library, t: Table, parse: string -> Option<real>)
    requires Conforms(lib) && WellFormed(t)
    requires Run(lib, Loaded(t), parse).Success?
    ensures Validate(t, parse).Ok?
    ensures var clean := Validate(t, parse).value;
      && Validated(clean) && clean.header == t.header && clean.height == t.height
      && HasFeatures(WithFeatures(clean))
      && Engineered(clean, WithFeatures(clean))
      && var df := WithFeatures(clean);
         var xs := Design(lib, df);
         var y := TargetValues(df);
         && lib.split(xs, y, TestSize, SplitSeed).Ok?
         && lib.crossValidate(RandomForest, xs, y, Folds).Ok?
         && SplitShape(lib.split(xs, y, TestSize, SplitSeed).value, |xs|)
         && Run(lib, Loaded(t), parse) ==
              Success(Assemble(lib, df, xs, lib.split(xs, y, TestSize, SplitSeed).value,
                               lib.crossValidate(RandomForest, xs, y, Folds).value))
  {
    ValidatedReady(t, parse);
    ValidatedTable(t, parse);
    EngineeredReady(Validate(t, parse).value);
    WithFeaturesEngineered(Validate(t, parse).value);
  }

  /** On success the overview counts every row of the input; its column names are the input's
      header followed by the derived names that were not already there (no name twice when the
      input has none twice, as `read_csv` ensures), and the sample holds the first five rows or
      all of them. */
  lemma SuccessOverview(lib: Library, t: Table, parse: string -> Option<real>)
    requires Conforms(lib) && WellFormed(t)
    requires Run(lib, Loaded(t), parse).Success?
    ensures var o := Run(lib, Loaded(t), parse).report.overview;
      && o.totalRows == t.height
      && o.columnNames == AppendNew(AppendNew(AppendNew(t.header, MeanCognitive), AttentionFocus), ComprehensionRetention)
      && o.totalColumns == |o.columnNames|
      && |o.sampleData| == (if t.height < 5 then t.height else 5)
      && (DistinctNames(t) ==> Distinct(o.columnNames))
  {
    RunSucceeds(lib, t, parse);
    var clean := Validate(t, parse).value;
    if DistinctNames(t) {
      WithFeaturesDistinct(clean);
    }
    var df := WithFeatures(clean);
    var xs := Design(lib, df);
    var y := TargetValues(df);
    AssembleOverview(lib, df, xs, lib.split(xs, y, TestSize, SplitSeed).value,
                     lib.crossValidate(RandomForest, xs, y, Folds).value);
  }

  /** On success the predictions table has one row per input row. Its header is the input's,
      with each derived name and `predicted_score` appended only when absent, so an existing
      column keeps its place; the six required columns keep their validated values. */
  lemma SuccessPredictions(lib: Library, t: Table, parse: string -> Option<real>)
    requires Conforms(lib) && WellFormed(t)
    requires Run(lib, Loaded(t), parse).Success?
    ensures Validate(t, parse).Ok? && WellFormed(Validate(t, parse).value)
    ensures var p := Run(lib, Loaded(t), parse).report.predictions;
      && WellFormed(p) && p.height == t.height
      && p.header == AppendNew(AppendNew(AppendNew(AppendNew(t.header, MeanCognitive), AttentionFocus),
                               ComprehensionRetention), PredictedScore)
      && forall c :: c in RequiredColumns ==>
           c in p.header && c in Validate(t, parse).value.header && Column(p, c) == Column(Validate(t, parse).value, c)
  {
    RunSucceeds(lib, t, parse);
    var clean := Validate(t, parse).value;
    var df := WithFeatures(clean);
    var xs := Design(lib, df);
    var y := TargetValues(df);
    var sp := lib.split(xs, y, TestSize, SplitSeed).value;
    var scores := lib.crossValidate(RandomForest, xs, y, Folds).value;
    var p := Assemble(lib, df, xs, sp, scores).predictions;
    assert Run(lib, Loaded(t), parse).report.predictions == p;
    AssemblePredictions(lib, df, xs, sp, scores);
    PredictionsKeep(clean, df, p);
  }

  /** Adding `predicted_score` to the engineered table keeps the validated columns. */
  lemma PredictionsKeep(clean: Table, df: Table, p: Table)
    requires WellFormed(clean) && WellFormed(df) && WellFormed(p)
    requires forall c :: c in RequiredColumns ==> c in clean.header && c in df.header && Column(df, c) == Column(clean, c)
    requires p.header == AppendNew(df.header, PredictedScore)
    requires forall c :: c in df.header && c != PredictedScore ==> Column(p, c) == Column(df, c)
    ensures forall c :: c in RequiredColumns ==> c in p.header && Column(p, c) == Column(clean, c)
  {
    forall c | c in RequiredColumns ensures c in p.header && Column(p, c) == Column(clean, c) {
      assert c != PredictedScore;
    }
  }

  /** On success the ranking is a non-increasing reordering of the eight features, and there are
      at most as many predicted/actual pairs as input rows. */
  lemma SuccessRankingAndPairs(lib: Library, t: Table, parse: string -> Option<real>)
    requires Conforms(lib) && WellFormed(t)
    requires Run(lib, Loaded(t), parse).Success?
    ensures var rep := Run(lib, Loaded(t), parse).report;
      && |rep.featureImportance| == 8 && Descending(rep.featureImportance)
      && multiset(Names(rep.featureImportance)) == multiset(FeatureNames)
      && |rep.predictedVsActual| <= t.height
      && rep.bestParams == BestParams(RandomForest.nEstimators, RandomForest.maxDepth)
  {
    RunSucceeds(lib, t, parse);
    var clean := Validate(t, parse).value;
    var df := WithFeatures(clean);
    var xs := Design(lib, df);
    var y := TargetValues(df);
    var sp := lib.split(xs, y, TestSize, SplitSeed).value;
    var scores := lib.crossValidate(RandomForest, xs, y, Folds).value;
    AssembleRanking(lib, df, xs, sp, scores);
    AssemblePairs(lib, df, xs, sp, scores);
  }
}
