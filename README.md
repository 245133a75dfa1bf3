# Student Performance Dashboard: the processing core in Dafny

The Student Performance Dashboard accepts a CSV file of student scores through a web form. It
runs a Python script that checks the data, derives three features, trains a random forest that
predicts `assessment_score` and reports the accuracy. It then shows the results as metric cards
and a predicted-versus-actual chart. This project models the four parts that decide what the
user sees:

- **`process_student_data`** (`ml_model_simple.py`). It validates the loaded table: required
  columns, at least one row, no missing values, numeric coercion. It adds the three derived
  columns in place on the data frame and selects the feature matrix and the target. It
  calls the scaler, the split, the forest and the cross-validation. It assembles the result
  dictionary or the error of the first step that fails.
  - `Tables`, `Validation`, `Features` and `Ranking` hold the value model.
  - `DataFrames.Frame` is the data frame as a mutable object.
  - `Pipeline` has the script as one function, `Run`, with its properties.
  - `Script` has the script's own step-by-step form: early returns, the frame updated in place,
    the two loops that build the chart lists. Each method is proved to compute what `Pipeline`
    describes.
- **The `POST` route** (`src/app/api/process-ml/route.ts`) is modelled in `ProcessMlRoute`:
  - the acceptance checks on the uploaded file;
  - how the script's outcome becomes the HTTP response;
  - the uploads directory the handler writes to and cleans up. This directory is a `class`
    whose `Post` method changes it step by step.
- **The metric cards** (`src/components/MetricsCards.tsx`) are modelled in `MetricsCards`: the
  threshold rating of each metric and how a rating is drawn.
- **The chart's arithmetic** (`src/components/PredictedVsActualChart.tsx`) is modelled in
  `PredictedVsActualChart`: the R² shown under the chart and the plotted range. JavaScript's
  NaN and infinities are modelled explicitly.

The pandas and scikit-learn calls are a `Pipeline.Library` of functions. The model knows only
their shapes (`Pipeline.Conforms`): scaling keeps the rows, a split shares them out, a forest
gives one prediction per row and one importance per feature. `train_test_split` and
`cross_val_score` may raise; their exception text is a parameter. Number parsing in
`pd.to_numeric` is a parameter `parse`. The script's exit through stdout/stderr and the route's
`JSON.parse` are parameters of the route model.

The model follows the code, which:

- runs no hyper-parameter search: `best_params` is the constant 300/10 the forest is built with;
- cross-validates with 3 folds (`cv=3`), although the metric card is labelled "5-fold";
- rejects only a table with no rows; there is no larger minimum row count;
- names the column in the non-numeric error, but not a row;
- writes a predictions table that holds every row of the data set, each with its prediction,
  not only the test rows.

## Model

| member | source | states |
|---|---|---|
| Tables.IndexOf | ml_model_simple.py:22 | the position of a column name in the header; it is within the header exactly when the name is present, and it is the first such position |
| Tables.Column | ml_model_simple.py:38 | `df[name]` has one cell per row |
| Tables.AssignColumn | ml_model_simple.py:51 | `df[name] = vals` replaces an existing column in place or appends a new one at the end; afterwards the column holds vals, all other columns are unchanged, and distinct names stay distinct |
| Tables.AssignOwnColumn | ml_model_simple.py:51 | assigning a column its own values leaves the table unchanged |
| Tables.HeadRecords | ml_model_simple.py:133 | `df.head(5).to_dict('records')` gives min(5, rows) records, each keyed by every column name and holding that row's cells |
| Validation.RequiredColumnsDistinct | ml_model_simple.py:21 | the six required names are distinct |
| Validation.MissingColumns | ml_model_simple.py:22 | the comprehension lists exactly the required columns absent from the header, in required order |
| Validation.MissingValueColumns | ml_model_simple.py:38-40 | the missing-values list holds exactly the required columns with a missing cell, in required order |
| Validation.CoerceValues | ml_model_simple.py:51 | coercion keeps the column's length |
| Validation.NumericColumnUnchanged | ml_model_simple.py:49 | a column that is already numeric is skipped: it neither changes nor fails |
| Validation.ColumnFailsExactly | ml_model_simple.py:51-52 | a coerced column has a NaN exactly when some text cell does not parse; otherwise the coerced column is all numbers |
| Validation.FirstFailureFrom | ml_model_simple.py:48-56 | the loop's stopping index: every column before it passes, and the column at it fails |
| Validation.FirstFailing | ml_model_simple.py:48-56 | no failing column exactly when every listed column passes; otherwise the name of a listed column |
| Validation.FirstFailureAt | ml_model_simple.py:48-56 | the stopping index is the one failing column with no failing column before it |
| Validation.FirstFailingIs | ml_model_simple.py:48-56 | the reported column is the first failing one in loop order, and only that one |
| Validation.CoerceColumns | ml_model_simple.py:48-51 | coercing columns keeps the header and the number of rows |
| Validation.CoerceColumnsEffect | ml_model_simple.py:48-51 | after the loop, each listed column holds its coerced form and every other column is unchanged |
| Validation.Validate | ml_model_simple.py:20-61 | the checks in order: on success the table keeps its header and rows and has every required column and a row; a missing-columns or missing-values error lists at least one column; a non-numeric error names a required column |
| Validation.Message | ml_model_simple.py:24-56 | each error's text quotes its column list, or its column name, right after the fixed opening |
| Validation.NoMissingColumns | ml_model_simple.py:22-24 | the missing-columns list is empty exactly when every required column is present |
| Validation.NoMissingValues | ml_model_simple.py:38-39 | the missing-values list is empty exactly when no required column has a missing cell |
| Validation.EarlyChecks | ml_model_simple.py:20-61 | if one of the first three checks fails, validation stops there; otherwise the first non-coercible required column decides the outcome |
| Validation.MissingColumnsReported | ml_model_simple.py:22-28 | the missing-columns error is returned exactly when a required column is absent, and it lists exactly the absent ones in required order |
| Validation.ExtraColumnsIgnored | ml_model_simple.py:22 | columns beyond the required ones never change the missing-columns result |
| Validation.EmptyTableReported | ml_model_simple.py:31-35 | the empty-file error is returned exactly when all required columns are present and there are no rows |
| Validation.MissingValueColumnsUnique | ml_model_simple.py:38-40 | the missing-values list is the only list in required order holding exactly the required columns with a missing cell |
| Validation.MissingValuesStage | ml_model_simple.py:37-44 | validation stops at the missing-values check exactly when the first two checks pass and the list is non-empty; the error carries that list |
| Validation.MissingValuesReported | ml_model_simple.py:37-44 | the missing-values error is returned exactly when the columns are present, there is a row and a required column has a missing cell; it lists exactly those columns in required order |
| Validation.NonNumericReported | ml_model_simple.py:46-56 | the non-numeric error names column c exactly when the early checks pass, c fails coercion and no required column before c fails |
| Validation.ValidateSucceeds | ml_model_simple.py:20-61 | validation succeeds exactly when all four checks pass |
| Validation.ValidatedTable | ml_model_simple.py:46-61 | on success the header and rows are kept; each required column is its coerced, all-numeric form; columns already numeric and non-required columns are unchanged |
| Features.FeatureNamesDistinct | ml_model_simple.py:68-71 | the eight feature names are distinct, and so are the required and derived names together |
| Features.DerivedNotRequired | ml_model_simple.py:64-66 | the derived names are not required columns; the factors of the products are |
| Features.Values | ml_model_simple.py:64-66 | a numeric column's numbers, one per cell |
| Features.ValidatedAll | ml_model_simple.py:47-61 | a validated table is one whose every required column is present and numeric |
| Features.MeanCognitiveCells | ml_model_simple.py:64 | the mean of the four cognitive scores has one cell per row |
| Features.ProductCells | ml_model_simple.py:65-66 | a product of two columns has one cell per row |
| Features.AttentionFocusCells | ml_model_simple.py:65 | `attention * focus` has one cell per row |
| Features.ComprehensionRetentionCells | ml_model_simple.py:66 | `comprehension * retention` has one cell per row |
| Features.AssignKeepsValidated | ml_model_simple.py:64-66 | assigning a non-required column keeps a table validated and its required columns unchanged |
| Features.AddMeanCognitive | ml_model_simple.py:64 | line 64 adds `mean_cognitive` as the formula's cells, keeps the rows and the required columns, and keeps the table validated |
| Features.AddProduct | ml_model_simple.py:65-66 | lines 65 and 66 add a product column the same way |
| Features.WithFeatures | ml_model_simple.py:64-66 | the three assignments keep the table validated and keep its rows |
| Features.ProductCellsAgree | ml_model_simple.py:65-66 | a product over two columns that earlier assignments left alone is the same before and after them |
| Features.WithFeaturesKeeps | ml_model_simple.py:64-66 | after feature engineering the header gains the derived names that were not already there, and the required columns are unchanged |
| Features.WithFeaturesDerives | ml_model_simple.py:64-66 | each derived column holds its formula computed from the validated columns |
| Features.FirstProductDerived | ml_model_simple.py:65 | `attention_focus` is computed from the validated columns even after line 64 |
| Features.SecondProductDerived | ml_model_simple.py:66 | `comprehension_retention` is computed from the validated columns even after lines 64-65 |
| Features.WithFeaturesEngineered | ml_model_simple.py:64-66 | the engineered table meets every promise of feature engineering together |
| Features.AppendNewDistinct | ml_model_simple.py:64-66 | appending a name only when it is new keeps the names distinct |
| Features.WithFeaturesDistinct | ml_model_simple.py:64-66 | feature engineering keeps the column names distinct |
| Features.FreshDerivedHeader | ml_model_simple.py:64-66 | when no derived name is in the header, the three are appended in order |
| Features.HasFeaturesAll | ml_model_simple.py:68-73 | the engineered table has all eight features numeric, and the target too |
| Features.FeatureRow | ml_model_simple.py:68-72 | row i of `df[features]` has eight values, entry k being the value of feature k of the list at row i |
| Features.AtCells | ml_model_simple.py:64-66 | a numeric column's value at a row is the number in its cell |
| Features.ProductAt | ml_model_simple.py:65-66 | a product column's value at row i is the product of its factors at row i |
| Features.RequiredAt | ml_model_simple.py:64-66 | a required column's value at each row is kept by feature engineering |
| Features.MeanCognitiveAt | ml_model_simple.py:64 | at every row `mean_cognitive` is the sum of the four cognitive scores divided by 4 |
| Features.AttentionFocusAt | ml_model_simple.py:65 | at every row `attention_focus` is attention times focus |
| Features.ComprehensionRetentionAt | ml_model_simple.py:66 | at every row `comprehension_retention` is comprehension times retention |
| Features.DerivedCellsNumeric | ml_model_simple.py:64-66 | the derived columns are numeric |
| Features.EngineeredHasFeatures | ml_model_simple.py:64-73 | an engineered table has the eight features and the target |
| Features.FeatureMatrix | ml_model_simple.py:72 | `X` has one feature row per data row, row i being FeatureRow at i |
| Features.TargetValues | ml_model_simple.py:73 | `y` has one value per data row, the number in that row's `assessment_score` cell |
| DataFrames.Frame.constructor | ml_model_simple.py:18 | the frame holds the loaded table (line 110's `copy()` too) |
| DataFrames.Frame.Assign | ml_model_simple.py:111 | `df[name] = vals` in place: the new contents are the value-level assignment of the old |
| DataFrames.Frame.CoerceNumeric | ml_model_simple.py:47-61 | the coercion loop returns the first failing column; without a failure the frame holds all listed columns coerced, and with one it holds the columns up to and including the failing one coerced |
| DataFrames.Frame.CoerceColumn | ml_model_simple.py:49-52 | one iteration: the column is replaced by its coerced form, and the result says whether it still has a NaN |
| DataFrames.Frame.AddDerivedFeatures | ml_model_simple.py:64-66 | the three assignments in place: the new contents are WithFeatures of the old |
| DataFrames.CoercePrefixStep | ml_model_simple.py:48-51 | one more loop iteration adds the next column to the coerced prefix |
| Ranking.Zip | ml_model_simple.py:103 | the importance table pairs the i-th feature with the i-th importance |
| Ranking.Insert | ml_model_simple.py:104 | inserting into a descending list adds exactly one entry and keeps it descending |
| Ranking.SortByImportance | ml_model_simple.py:104 | `sort_values('importance', ascending=False)` gives a non-increasing permutation of the table |
| Ranking.Names | ml_model_simple.py:123-127 | the feature names of a ranking, in its order |
| Ranking.RankingIsPermutation | ml_model_simple.py:102-104 | the ranking is non-increasing, lists each feature exactly as often as the input does, and each entry is a feature with its own importance, nothing lost and nothing added |
| Ranking.SameMembers | ml_model_simple.py:104 | two reorderings of the same entries have the same members |
| Ranking.ZipNames | ml_model_simple.py:103 | the `feature` column of the zipped table is the feature list |
| Ranking.InsertNames | ml_model_simple.py:104 | insertion adds exactly the inserted entry's name |
| Ranking.SortNames | ml_model_simple.py:104 | sorting keeps the multiset of feature names |
| Pipeline.ExceptionMessage | ml_model_simple.py:160-179 | the catch-all handler's message opens with "Unexpected error: " followed by the exception's text; the parser handler's message quotes the parser's text |
| Pipeline.UnexpectedError | ml_model_simple.py:175-179 | the catch-all message: the fixed opening followed by the exception's text |
| Pipeline.Assemble | ml_model_simple.py:89-156 | the report has the forest's parameters, one pair per test row, one ranked entry per feature, and an overview and a predictions table with one row per data row |
| Pipeline.Fit | ml_model_simple.py:72-158 | success exactly when neither the split nor the cross-validation raises; a failure carries the catch-all message; a report covers every row |
| Pipeline.Train | ml_model_simple.py:63-158 | a failure after validation always carries the catch-all message; a report covers every row of the validated table |
| Pipeline.Run | ml_model_simple.py:12-179 | a read exception gives its handler's message; a failed check gives its message; a success means the table loaded and validated, and the report covers every input row |
| Pipeline.Nums | ml_model_simple.py:111 | the predictions as a numeric column, cell i holding prediction i |
| Pipeline.Pairs | ml_model_simple.py:114-119 | entry i pairs the i-th actual test value with the i-th prediction |
| Pipeline.ValidatedReady | ml_model_simple.py:46-64 | validation leaves a validated table with the input's header |
| Pipeline.EngineeredReady | ml_model_simple.py:64-73 | the engineered table has the eight features |
| Pipeline.Design | ml_model_simple.py:72-77 | the scaled matrix has one row per data row |
| Pipeline.AssemblePairs | ml_model_simple.py:113-119 | `predicted_vs_actual` has one entry per test row, pairing its target with its prediction, and no more entries than rows |
| Pipeline.AssembleRanking | ml_model_simple.py:101-104 | `feature_importance` is a non-increasing reordering of the eight features zipped with the forest's importances |
| Pipeline.AssembleOverview | ml_model_simple.py:129-135 | the overview gives the row count, the column names and their number, and the first five rows of the engineered table |
| Pipeline.AssemblePredictions | ml_model_simple.py:106-111 | the predictions table is the engineered table plus `predicted_score`, holding the forest's prediction for every row |
| Pipeline.AssembleMetrics | ml_model_simple.py:83-99 | the reported parameters are those the forest is built with (300, 10); the metrics are the library's scores of the test predictions, with rmse the root of mse, and the mean and std of the fold scores |
| Pipeline.ReadErrorReported | ml_model_simple.py:160-179 | a `read_csv` exception is reported with its handler's message |
| Pipeline.ValidationErrorReported | ml_model_simple.py:20-61 | a failed check is reported with its message, and no library call shapes the result |
| Pipeline.RunOutcome | ml_model_simple.py:16-179 | the script fails exactly when reading raises, validation fails, or the split or the cross-validation raises |
| Pipeline.RunSucceeds | ml_model_simple.py:63-158 | on success the report is the assembly of the engineered validated table with the library's split and fold scores |
| Pipeline.SuccessOverview | ml_model_simple.py:129-135 | on success the overview counts every input row, lists the input's header followed by the new derived names (distinct when the input's are), and samples min(5, rows) rows |
| Pipeline.SuccessPredictions | ml_model_simple.py:106-111 | on success the predictions table has one row per input row; its header is the input's with the derived names and `predicted_score` appended where not already present (an existing column keeps its place); it keeps the validated required columns |
| Pipeline.PredictionsKeep | ml_model_simple.py:110-111 | adding `predicted_score` keeps the validated columns |
| Pipeline.SuccessRankingAndPairs | ml_model_simple.py:101-151 | on success the ranking lists each of the eight features once, non-increasing; there are at most as many pairs as rows; the parameters are the forest's |
| Script.PredictedVsActual | ml_model_simple.py:114-119 | the loop builds one pair per test row, pairing the actual value with the prediction |
| Script.FeatureImportanceData | ml_model_simple.py:122-127 | the loop copies the ranked rows in order |
| Script.LoadAndValidate | ml_model_simple.py:18-61 | the checks with early returns and in-place coercion: an error exactly when validation fails, that error, and otherwise the frame holds the validated table |
| Script.ProcessStudentData | ml_model_simple.py:12-179 | the step-by-step script returns exactly what Run describes |
| Script.TrainAndReport | ml_model_simple.py:63-158 | derive the features in place, then train: the result is Train of the validated table |
| Script.FitAndReport | ml_model_simple.py:72-158 | scale, split and cross-validate with their exception paths: the result is Fit of the engineered table |
| Script.BuildReport | ml_model_simple.py:89-156 | fitting, metrics, ranking, predictions and the two loops give exactly the assembled report |
| ProcessMlRoute.Gate | src/app/api/process-ml/route.ts:14-35 | a file is accepted exactly when it passes the type check (MIME `text/csv` or a name ending `.csv`) and is at most 10 MiB; a rejection is 400, except a non-empty text field, which throws and gets a 500 |
| ProcessMlRoute.Respond | src/app/api/process-ml/route.ts:52-88 | the result is relayed exactly when the run finished with an empty stderr and a stdout that parses, and then it is the parsed value; every other outcome is a 500, with the stderr message exactly when stderr is non-empty, and otherwise (a thrown run or an unparsable stdout) the "Failed to process the file" message |
| ProcessMlRoute.Handle | src/app/api/process-ml/route.ts:9-95 | a relayed result needs the form, the checks and the write to succeed, and is then the script's response; a failed form gives 500, and a rejected upload gets the checks' answer; an accepted upload whose write fails gets 500 with the internal-error message, and a saved one gets Respond's answer for the run |
| ProcessMlRoute.Remaining | src/app/api/process-ml/route.ts:38-82 | a request adds or removes no file but the upload's own name, and leaves the directory as it was unless the file was accepted and saved |
| ProcessMlRoute.UploadsDir.constructor | src/app/api/process-ml/route.ts:38-39 | the directory as found |
| ProcessMlRoute.UploadsDir.Post | src/app/api/process-ml/route.ts:9-96 | the handler step by step answers with Handle; afterwards the directory exists once a file was accepted, and holds the files Remaining describes |
| ProcessMlRoute.UploadsDir.Unlink | src/app/api/process-ml/route.ts:67-71 | `unlinkSync` removes the file when it can, and a failure only leaves it there |
| ProcessMlRoute.MissingFileFirst | src/app/api/process-ml/route.ts:14-19 | a missing field and an empty text value get 400 with the no-file message |
| ProcessMlRoute.TypeCheck | src/app/api/process-ml/route.ts:22-27 | the type error is returned exactly when both halves of the check fail; either half alone lets a file of allowed size through |
| ProcessMlRoute.SizeBoundary | src/app/api/process-ml/route.ts:30-35 | the limit is inclusive: a file passing the type check is accepted up to 10485760 bytes, and every larger one gets 400 with the size message |
| ProcessMlRoute.CsvNamePasses | src/app/api/process-ml/route.ts:22 | a name ending in `.csv` passes whatever MIME type was sent |
| ProcessMlRoute.RejectedUpload | src/app/api/process-ml/route.ts:14-35 | a rejected upload gets the checks' own answer and never touches the directory |
| ProcessMlRoute.StderrWins | src/app/api/process-ml/route.ts:55-61 | a non-empty stderr gives 500 with the fixed message whatever stdout holds |
| ProcessMlRoute.RelayedExactly | src/app/api/process-ml/route.ts:52-73 | the script's JSON is relayed unchanged exactly when the form loads, the file is accepted and saved, and the script finishes with an empty stderr and a parsable stdout |
| ProcessMlRoute.FailureStatuses | src/app/api/process-ml/route.ts:14-95 | every other answer has status 400 or 500, and 400 exactly for the checks' rejections |
| ProcessMlRoute.UnparsableLikeThrown | src/app/api/process-ml/route.ts:64-87 | a stdout that is not JSON gets the same answer as a script run that threw |
| ProcessMlRoute.UploadLeftBehind | src/app/api/process-ml/route.ts:44-82 | a saved upload is gone afterwards exactly when a clean-up was reached and succeeded; the stderr path always leaves it behind |
| ProcessMlRoute.OtherFilesKept | src/app/api/process-ml/route.ts:44-82 | a request touches no file but the one named after its upload |
| ProcessMlRoute.SameNameOverwritten | src/app/api/process-ml/route.ts:46-47 | when the clean-up succeeds it also deletes an older file of the same name |
| MetricsCards.R2Status | src/components/MetricsCards.tsx:31 | R² above 0.8 is excellent, above 0.6 good, otherwise needs improvement, with each band's exact bounds |
| MetricsCards.MaeStatus | src/components/MetricsCards.tsx:43 | MAE below 3 is excellent, below 5 good, otherwise needs improvement |
| MetricsCards.RmseStatus | src/components/MetricsCards.tsx:55 | RMSE below 4 is excellent, below 6 good, otherwise needs improvement |
| MetricsCards.Cards | src/components/MetricsCards.tsx:20-69 | there are exactly four cards |
| MetricsCards.StatusIcon | src/components/MetricsCards.tsx:71-80 | Award exactly for "excellent", Zap exactly for "good", TrendingDown otherwise |
| MetricsCards.StatusColor | src/components/MetricsCards.tsx:82-91 | the green classes exactly for "excellent", the yellow ones exactly for "good", the red ones for every other text |
| MetricsCards.BarWidth | src/components/MetricsCards.tsx:150 | 100 exactly for "excellent", 70 exactly for "good", 40 for every other text |
| MetricsCards.LabelsDistinct | src/components/MetricsCards.tsx:31 | the three rating texts are distinct |
| MetricsCards.Drawing | src/components/MetricsCards.tsx:71-91 | each rating gets its own icon and bar width (Award/100%, Zap/70%, TrendingDown/40%), and "needs improvement" is drawn like any text the switches do not know |
| MetricsCards.WidthFollowsRank | src/components/MetricsCards.tsx:150 | a better rating gets a wider bar, and only a better one |
| MetricsCards.R2Monotone | src/components/MetricsCards.tsx:31 | a higher R² never gets a worse rating |
| MetricsCards.ErrorsMonotone | src/components/MetricsCards.tsx:43-55 | a lower MAE or RMSE never gets a worse rating |
| MetricsCards.CardsIgnore | src/components/MetricsCards.tsx:20-69 | MSE is never shown, and the fold spread is shown but never changes a rating |
| MetricsCards.CardRatings | src/components/MetricsCards.tsx:20-69 | the cards come in the order R², MAE, RMSE, cross-validation, each rated by its own metric's thresholds |
| MetricsCards.CardValues | src/components/MetricsCards.tsx:23-59 | the cards show R², MAE, RMSE, and the fold mean with its spread |
| MetricsCards.CrossValidationRatedLikeR2 | src/components/MetricsCards.tsx:67 | the cross-validation card is rated as an R² card with the fold mean would be |
| PredictedVsActualChart.Divide | src/components/PredictedVsActualChart.tsx:21 | the quotient is finite exactly when the divisor is non-zero, and then times the divisor gives the dividend; dividing by zero gives NaN exactly for a zero dividend and +Infinity exactly for a positive one |
| PredictedVsActualChart.OneMinus | src/components/PredictedVsActualChart.tsx:21 | `1 - n` is finite exactly when n is, adds up with n to 1, and is NaN exactly when n is |
| PredictedVsActualChart.ActualSum | src/components/PredictedVsActualChart.tsx:18 | actual values that all equal the first one add up to that value times the number of points |
| PredictedVsActualChart.ActualMean | src/components/PredictedVsActualChart.tsx:18 | the mean is finite exactly when there is a point; otherwise it is NaN |
| PredictedVsActualChart.R2 | src/components/PredictedVsActualChart.tsx:17-21 | R² is finite exactly when the total sum of squares is positive, and a finite R² is at most 1 |
| PredictedVsActualChart.MinVal | src/components/PredictedVsActualChart.tsx:24-25 | the minimum is finite exactly when there is a point, and then no actual or predicted value is below it |
| PredictedVsActualChart.MaxVal | src/components/PredictedVsActualChart.tsx:24-26 | the maximum is finite exactly when there is a point, and then no actual or predicted value is above it |
| PredictedVsActualChart.Square | src/components/PredictedVsActualChart.tsx:19-20 | a square is never negative |
| PredictedVsActualChart.SsRes | src/components/PredictedVsActualChart.tsx:19 | the residual sum of squares is never negative |
| PredictedVsActualChart.Spread | src/components/PredictedVsActualChart.tsx:20 | a sum of squared distances is never negative |
| PredictedVsActualChart.SsTot | src/components/PredictedVsActualChart.tsx:20 | the total sum of squares is never negative |
| PredictedVsActualChart.Values | src/components/PredictedVsActualChart.tsx:24 | `flatMap` gives two values per point: its actual value at 2i, its prediction at 2i+1 |
| PredictedVsActualChart.Least | src/components/PredictedVsActualChart.tsx:25 | the minimum is one of the values and at most every value |
| PredictedVsActualChart.Greatest | src/components/PredictedVsActualChart.tsx:26 | the maximum is one of the values and at least every value |
| PredictedVsActualChart.SpreadAtCentre | src/components/PredictedVsActualChart.tsx:20 | the squared distances from m add to zero when every actual value is m |
| PredictedVsActualChart.PerfectResiduals | src/components/PredictedVsActualChart.tsx:19 | perfect predictions leave no residual |
| PredictedVsActualChart.ConstantMean | src/components/PredictedVsActualChart.tsx:18 | actual values all equal to c have mean c |
| PredictedVsActualChart.ConstantActuals | src/components/PredictedVsActualChart.tsx:18-20 | constant actual values leave no total sum of squares |
| PredictedVsActualChart.R2Defined | src/components/PredictedVsActualChart.tsx:17-21 | R² is finite exactly when the total sum of squares is positive; with a zero total it is NaN (no residual) or -Infinity; with no points it is NaN |
| PredictedVsActualChart.R2AtMostOne | src/components/PredictedVsActualChart.tsx:19-21 | with a positive total sum of squares R² is at most 1, and exactly 1 for perfect predictions |
| PredictedVsActualChart.Range | src/components/PredictedVsActualChart.tsx:23-26 | with points, both bounds are finite, every actual and predicted value lies between them, and each bound is one of those values |
| PredictedVsActualChart.Attained | src/components/PredictedVsActualChart.tsx:24 | every plotted value is some point's actual or predicted value |
| PredictedVsActualChart.EmptyRange | src/components/PredictedVsActualChart.tsx:25-26 | with no points the bounds are `Math.min()` = +Infinity and `Math.max()` = -Infinity |

## Left out

- **Numbers.** Numbers are mathematical reals, not float64. This covers the division by 4 on
  line 64, the forest's arithmetic and the chart's sums. Rounding, overflow and NaN produced
  by arithmetic are not modelled. The chart's NaN and infinities from empty or constant data
  are modelled.
- **Library calls.** `StandardScaler`, `train_test_split`, `RandomForestRegressor`, the metric
  functions, `np.sqrt`, `cross_val_score`, `mean`/`std` and `feature_importances_` are opaque
  functions of a `Library` parameter. Only their shapes are assumed of them, and their numeric
  behaviour is not modelled.
- **Model fit.** `fit` is the `Forest` value built from its parameters and training data. A
  forest fitted with `random_state=42` is taken to be determined by them, so the fit cannot
  raise.
- **`read_csv`.** Parsing is an input: a rectangular table (`Pipeline.Readable`), or one of the
  file-not-found, empty-data, parser or other exceptions. pandas also makes column names
  distinct; only SuccessOverview relies on that, as its own hypothesis.
- **Non-numeric check.** `pd.to_numeric` parsing is the parameter `parse`. The bare `except`
  of lines 57-61 is not modelled: with `errors='coerce'` the conversion does not raise, so that
  branch is treated as unreachable.
- **Error texts.** The f-string lists in the error messages are written `['a', 'b']`. Python's
  `repr` escaping of quotes or backslashes inside column names is not modelled.
- **Output of the results.** The predictions table is the `results_df` table itself: the
  `to_csv` text, the `json.dumps` encoding and the `__main__` block (lines 181-188, argument
  handling and printing) are left out. So is the float conversion of lines 117-146.
- **Ranking ties.** `sort_values` uses a sort that is not stable. The model sorts by stable
  insertion. The contract states only what both promise: the result is non-increasing and a
  permutation. The order among equal importances is not modelled.
- **Route I/O.** The form parsing (`request.formData()`), `arrayBuffer`, the process `exec` and
  `JSON.parse` are parameters of `Env` and `Post`. The console logging is left out. So is the
  quoting of the file path in the shell command, and what a path with separators or `..` in the
  file name would reach.
- **Concurrency.** Requests that overlap on the same upload name are not modelled; each `Post`
  runs alone.
- **ProcessMlRoute.UploadsDir.Post:** a failing `mkdirSync` is the same outcome as a failing
  `writeFileSync` (500, nothing saved). The directory is recorded as present in both cases,
  because the model does not tell the two failures apart.
- **ProcessMlRoute.Gate:** its own contract states no rejection message. The messages are
  stated by MissingFileFirst (no file), TypeCheck (type) and SizeBoundary (every file over the
  limit).
- **Other components.** Dashboard, FileUpload, DataOverview, FeatureImportanceChart,
  ThemeToggle and the page are not part of this model. The cards' and chart's styling, the
  animations and `toFixed` formatting of the displayed numbers are left out.
- **PredictedVsActualChart.ConstantActuals:** only one direction is proved: constant actual
  values give a zero total sum of squares. The converse (a zero total means constant actual
  values) is not proved. It needs reasoning that a non-zero square is positive, which the
  solver does not find through these definitions.
- **MetricsCards.Cards:** its own contract states only that there are four cards. Their titles,
  values and ratings are stated by CardRatings and CardValues.
