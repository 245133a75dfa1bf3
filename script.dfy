/** `process_student_data` step by step, as the script runs it: early returns for the checks, the
    data frame updated in place, and the two loops that fill the chart lists. Each method is
    proved to compute what the functions of Pipeline describe. */
module Script {
  import opened Wrappers
  import opened Tables
  import opened Validation
  import opened Features
  import opened DataFrames
  import opened Ranking
  import opened Pipeline

  /** Lines 114-119: one entry per test row, pairing the row's target with its prediction. */
  method PredictedVsActual(yTest: seq<real>, yPred: seq<real>) returns (pairs: seq<Pair>)
    requires |yTest| <= |yPred|
    ensures |pairs| == |yTest|
    ensures forall i :: 0 <= i < |pairs| ==> pairs[i] == Pair(yTest[i], yPred[i])
  {
    pairs := [];
    for i := 0 to |yTest|
      invariant |pairs| == i
      invariant forall k :: 0 <= k < i ==> pairs[k] == Pair(yTest[k], yPred[k])
    {
      pairs := pairs + [Pair(yTest[i], yPred[i])];
    }
  }

  /** Lines 122-127: the rows of the ranked table, in its order, as records. */
  method FeatureImportanceData(ranked: seq<Importance>) returns (data: seq<Importance>)
    ensures |data| == |ranked|
    ensures forall i :: 0 <= i < |data| ==> data[i].feature == ranked[i].feature && data[i].importance == ranked[i].importance
  {
    data := [];
    for i := 0 to |ranked|
      invariant |data| == i
      invariant forall k :: 0 <= k < i ==> data[k] == ranked[k]
    {
      data := data + [Importance(ranked[i].feature, ranked[i].importance)];
    }
  }

  /** Lines 18-61: the checks in order, each returning its error, then the coercion loop on the
      frame. On success the frame holds the validated table. */
  method LoadAndValidate(t: Table, parse: string -> Option<real>) returns (df: Frame, err: Option<ValidationError>)
    requires WellFormed(t)
    ensures fresh(df)
    ensures err.None? <==> Validate(t, parse).Ok?
    ensures err.Some? ==> Validate(t, parse) == Err(err.value)
    ensures err.None? ==> df.Snapshot() == Validate(t, parse).value
  {
    df := new Frame(t);
    var missing := MissingColumns(t.header);
    if missing != [] {
      return df, Some(MissingRequiredColumns(missing));
    }
    if t.height == 0 {
      return df, Some(EmptyTable);
    }
    NoMissingColumns(t);
    var incomplete := MissingValueColumns(t);
    if incomplete != [] {
      return df, Some(MissingValues(incomplete));
    }
    NoMissingValues(t);
    RequiredColumnsDistinct();
    EarlyChecks(t, parse);
    var failed := df.CoerceNumeric(RequiredColumns, parse);
    if failed.Some? {
      return df, Some(NonNumericColumn(failed.value));
    }
    return df, None;
  }

  /** The whole of `process_student_data` on the loaded input: it returns exactly what Run
      describes. */
  method ProcessStudentData(lib: Library, input: Input, parse: string -> Option<real>) returns (r: ScriptResult)
    requires Conforms(lib) && Readable(input)
    ensures r == Run(lib, input, parse)
  {
    if input.Raised? {
      return Failure(ExceptionMessage(input.exception));
    }
    var t := input.table;
    var df, err := LoadAndValidate(t, parse);
    if err.Some? {
      return Failure(Message(err.value));
    }
    ghost var clean := df.Snapshot();
    assert Validate(t, parse) == Ok(clean);
    ValidatedReady(t, parse);
    assert Run(lib, input, parse) == Train(lib, clean);
    r := TrainAndReport(lib, df);
  }

  /** Lines 63-156 on the validated frame: the derived columns are added in place, then the
      model is trained on the engineered table. */
  method TrainAndReport(lib: Library, df: Frame) returns (r: ScriptResult)
    requires Conforms(lib) && Validated(df.Snapshot())
    modifies df
    ensures r == Train(lib, old(df.Snapshot()))
  {
    EngineeredReady(df.Snapshot());
    df.AddDerivedFeatures();
    r := FitAndReport(lib, df.Snapshot());
  }

  /** Lines 72-104: the scaled features, the split and the cross-validation, each of which may
      raise; then the report. */
  method FitAndReport(lib: Library, engineered: Table) returns (r: ScriptResult)
    requires Conforms(lib) && HasFeatures(engineered)
    ensures r == Fit(lib, engineered)
  {
    var xs := lib.scale(FeatureMatrix(engineered));
    var y := TargetValues(engineered);
    var split := lib.split(xs, y, TestSize, SplitSeed);
    if split.Err? {
      return Failure(UnexpectedError(split.error));
    }
    var cv := lib.crossValidate(RandomForest, xs, y, Folds);
    if cv.Err? {
      return Failure(UnexpectedError(cv.error));
    }
    var report := BuildReport(lib, engineered, xs, split.value, cv.value);
    return Success(report);
  }

  /** Lines 89-156 with the split and the fold scores in hand: fit and predict, the metrics, the
      ranked importances, the predictions on a copy of the frame, the two loops and the overview. */
  method BuildReport(lib: Library, engineered: Table, xs: seq<seq<real>>, sp: Split, scores: seq<real>)
    returns (report: Report)
    requires Conforms(lib) && WellFormed(engineered)
    requires |xs| == engineered.height && SplitShape(sp, |xs|)
    ensures report == Assemble(lib, engineered, xs, sp, scores)
  {
    var rf := Forest(RandomForest, sp.xTrain, sp.yTrain);
    var yPred := lib.predict(rf, sp.xTest);
    var r2 := lib.r2(sp.yTest, yPred);
    var mae := lib.mae(sp.yTest, yPred);
    var mse := lib.mse(sp.yTest, yPred);
    var rmse := lib.sqrt(mse);
    var ranked := SortByImportance(Zip(FeatureNames, lib.importances(rf)));
    var yAll := lib.predict(rf, xs);
    var results := new Frame(engineered);
    results.Assign(PredictedScore, Nums(yAll));
    var pairs := PredictedVsActual(sp.yTest, yPred);
    var data := FeatureImportanceData(ranked);
    var overview := Overview(engineered.height, |engineered.header|, HeadRecords(engineered, 5), engineered.header);
    assert pairs == Pairs(sp.yTest, yPred);
    assert data == ranked;
    report := Report(Metrics(r2, mae, mse, rmse, lib.mean(scores), lib.std(scores)),
                     BestParams(300, 10), data, pairs, overview, results.Snapshot());
  }
}
