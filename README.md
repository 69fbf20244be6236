# Rossmann sales forecasting service: a verified model of its core

This project models the parts of the Rossmann sales forecasting service that carry logic, and proves
properties about them in Dafny:

- **Request validation** (`Models`, models.dfy). The 22-field prediction record and its declarative
  field bounds (`ge`, `gt`, `le`) are written as a rule table and a validity predicate. The batch
  request is accepted only if every one of its records is.
- **Prediction service** (`Api`, api.dfy), covering several pieces:
  - the fixed feature order;
  - assembling the model input: 17 values go through the scaler and 5 raw values are appended;
  - the single-prediction endpoint:
    - 503 when no model is loaded;
    - 500 for any other failure;
    - on success, the output divided by 1000, with confidence 0.95;
  - the batch endpoint, whose loop isolates each item's failure and records it with the item's
    position;
  - the health and feature-list endpoints.

  The scaler and the model are opaque functions that may fail.
- **Performance monitor** (`Monitoring`, monitor.dfy). A class with an append-only prediction log.
  - The performance check returns "insufficient data" below 10 records. Otherwise it looks at the last
    100 records and raises an alert on RMSE drift beyond 15 %.
  - The report covers the whole log.
  - RMSE values are carried squared, as mean squared errors, so no square root is needed. A lemma
    ties the squared rule back to the source's `|(rmse - b) / b| > 0.15` test.
- **Notebook cleaner** (`NotebookCleaner`, notebook.dfy). The notebook's cell list is an array of
  JSON objects.
  - Outputs and execution counts are stripped in place.
  - Metadata is reset.
  - Oversized cells are found by scanning with an abstract size function.
  - The default path of the cleaned copy is derived with Python's `str.replace` semantics.

`Wrappers` (wrappers.dfy) holds the `Option` and `Result` types.

Some inputs become parameters:

- timestamps (`datetime.now()`) are a `now` string;
- the loaded estimator and scaler are `Option`s, because either global may be `None`;
- the serialised size of a cell (`len(json.dumps(cell))`) is a size function.

## Model

| member | source | states |
|---|---|---|
| Models.NameRoundTrip | src/api/models.py:10-42 | every field is found again under its own attribute name, so the 22 names are pairwise distinct |
| Models.DeclaredFieldsComplete | src/api/models.py:10-42 | the declaration order lists each of the 22 fields exactly once |
| Models.Valid | src/api/models.py:6-42 | a record is accepted exactly when each of its 22 fields meets the `ge`, `gt` and `le` bounds its rule table entry declares |
| Models.ValidSpelledOut | src/api/models.py:10-42 | the rule table accepts a record exactly when every bound of the schema, written out field by field, holds |
| Models.CalendarRanges | src/api/models.py:10-12 | DayOfWeek, Month and Quarter are accepted exactly in [1,7], [1,12] and [1,4] |
| Models.FlagsAreBinary | src/api/models.py:13-39 | IsWeekend, SchoolHoliday and Open are accepted exactly when they are 0 or 1 |
| Models.IntFieldsHoldWholeNumbers | src/api/models.py:10-42 | every field declared `int` holds a whole number, so the kind table agrees with the record's field types |
| Models.FloatFieldsMayHoldFractions | src/api/models.py:10-42 | conversely, every field the kind table calls `float` can hold a fraction, so no float field of the record is tagged as an integer one and no integer one as a float |
| Models.PromoMayBeFractional | src/api/models.py:16 | Promo is declared a float, unlike the other flags; 0.5 is accepted and 1.5 rejected |
| Models.PositivityRules | src/api/models.py:20-42 | on an accepted record, lags, rolling means and sales per customer are strictly positive and the rolling deviations and competition distance are non-negative; zero is accepted for the latter three and rejected for the former |
| Models.NegativeDistancesRejected | src/api/models.py:31-42 | every negative value of a rolling deviation or of the competition distance is rejected |
| Models.CodesUnbounded | src/api/models.py:38-41 | Store >= 1, StoreType >= 0 and Assortment >= 0, with no upper bound on any of them |
| Models.ExampleIsValid | src/api/models.py:46-69 | the documented example record satisfies every rule |
| Models.Violations | src/api/models.py:6-42 | the fields a rejected record is reported for: every field that breaks its bounds, in declaration order, not only the first |
| Models.ValidIffNoViolations | src/api/models.py:6-42 | a record is accepted exactly when no field is reported, and a field is reported exactly when it breaks its bounds |
| Models.ValidBatch | src/api/models.py:96-98 | a batch request is accepted exactly when every record in its `data` list is |
| Models.BatchErrors | src/api/models.py:96-98 | the 422 error list of a batch request: each violated field of each record, tagged with the record's position |
| Models.ErrorsFromExact | src/api/models.py:96-98 | a batch error names record i and field f exactly when that record's field is out of bounds |
| Models.BatchErrorsExact | src/api/models.py:96-98 | the same property for a whole batch request, with positions counted from 0 |
| Models.OneBadRecordRejectsBatch | src/api/models.py:96-98 | one out-of-range record rejects the whole batch request |
| Models.ValidBatchIffNoErrors | src/api/models.py:96-98 | a batch request is accepted exactly when it has no error |
| Models.ValidOutput | src/api/models.py:72-77 | a prediction response is well formed exactly when its confidence lies in [0,1] |
| Api.FeatureNamesResolve | src/api/main.py:48-55 | the feature name at position i names the field declared at position i |
| Api.FeatureNamesWellFormed | src/api/main.py:48-55 | the feature list has 22 pairwise-distinct names, in declaration order, and its first 17 followed by its last 5 is the whole list |
| Api.ScaledFeatures | src/api/main.py:106-124 | the 17 values sent to the scaler, taken from the record in the order DayOfWeek … SalesPerCustomer (the batch loop builds the same list at lines 187-195) |
| Api.UnscaledFeatures | src/api/main.py:127-133 | the 5 values appended raw: Store, Open, StoreType, Assortment, CompetitionDistance (the batch loop builds the same list at lines 198-201) |
| Api.AssemblyFollowsFeatureNames | src/api/main.py:106-133 | the scaled vector holds the fields named by FEATURE_NAMES[0:17] in that order, and the unscaled vector holds those named by FEATURE_NAMES[17:22] |
| Api.ModelInput | src/api/main.py:139-142 | with no scaler the assembly fails with the AttributeError message; on success it ends with the 5 raw values |
| Api.ModelInputLayout | src/api/main.py:139-142 | when the transform keeps the width, the model input has 22 values: the transform's output, then the raw values of the last five named fields |
| Api.RawPrediction | src/api/main.py:139-149 | one record through the pipeline: the model's raw output on the assembled input, or the failure's message; with no scaler it is always the AttributeError message (the batch loop runs the same steps at lines 203-206) |
| Api.PredictSales | src/api/main.py:101-171 | 503 exactly when no model is loaded; every other failure becomes 500 with "Prediction failed: " and the message; on success, prediction × 1000 is the raw output, confidence is 0.95 (in [0,1]) and the version is "1.0.0" |
| Api.HandlePredict | src/api/main.py:94-103 | an invalid record gets 422, with a non-empty list of errors, before the handler runs; a valid one gets the handler's answer |
| Api.UnloadedIgnoresArtifacts | src/api/main.py:101-103 | without a model the answer is 503 whatever the scaler is |
| Api.PredictBatch | src/api/main.py:178-223 | 503 without a model; otherwise the response built from the successes and the positioned failures of the items, each item run on its own |
| Api.BatchResponseSpelledOut | src/api/main.py:184-218 | successful + failed = batch_size; every error index is below batch_size and carries that item's own failure message; indices are strictly increasing; exactly the failing items are listed; the predictions are the raw outputs of exactly the succeeding items, in input order |
| Api.HandleBatch | src/api/main.py:174-179 | one invalid record rejects the whole batch with 422 before any item is handled, model or not |
| Api.BatchCounts | src/api/main.py:207-218 | every item is counted once, as a success or as a failure |
| Api.FailureIndices | src/api/main.py:209-211 | failure positions are in range and increasing, each carries its item's message, and exactly the failing items are listed |
| Api.SuccessPositions | src/api/main.py:184-207 | the k-th prediction is the raw output of the k-th succeeding item: success positions are in range and strictly increasing, and exactly the succeeding items have one |
| Api.OutcomesIsolation | src/api/main.py:184-211 | the outcome of an item does not depend on the other items of the batch |
| Api.SuccessesIsolation | src/api/main.py:184-207 | the successes of a concatenated batch are those of its halves, in order |
| Api.FailuresIsolation | src/api/main.py:184-211 | the failures of a concatenated batch are those of its halves, the second half's positions offset by the first half's length |
| Api.SingleItemBatch | src/api/main.py:184-211 | a one-item batch holds that item's raw output, or its failure at position 0 |
| Api.BatchIsThousandfoldSingle | src/api/main.py:206 | batch values are not divided by 1000, unlike line 149: for a record that succeeds, the batch value is 1000 × the single prediction |
| Api.MissingScalerFailsEveryItem | src/api/main.py:203 | without a scaler every item fails at its own position with the AttributeError message, and nothing succeeds |
| Api.OneFailingItem | src/api/main.py:184-218 | if exactly item k fails, the batch reports N-1 successes and the one failure at position k |
| Api.Health | src/api/main.py:82-91 | the health answer never fails; model_loaded holds exactly when a model is loaded |
| Api.HealthAgreesWithPredict | src/api/main.py:89-103 | health reports an unloaded model exactly when a valid prediction request gets 503 |
| Api.ModelFeatures | src/api/main.py:250-259 | the features reported are FEATURE_NAMES itself: 22 pairwise-distinct names, the i-th naming the i-th declared field; scaled + unscaled is the full list, the count is 22 and 17 of them are scaled |
| Api.FeatureListMatchesAssembly | src/api/main.py:250-259 | the reported scaled and unscaled lists name, one by one and in order, the values the prediction endpoint sends to the scaler and appends raw (lines 106-133) |
| Monitoring.MakeRecord | src/monitoring/performance_monitor.py:26-36 | the error is \|actual − predicted\| >= 0; the percentage is error/actual·100 when actual > 0 and 0 otherwise; no division by zero |
| Monitoring.PerformanceMonitor.constructor | src/monitoring/performance_monitor.py:14-18 | a new monitor has an empty log, threshold 0.15, and the given baselines, 147015 and 1.65 by default |
| Monitoring.PerformanceMonitor.LogPrediction | src/monitoring/performance_monitor.py:21-41 | appends exactly one record at the end, leaves earlier records unchanged and returns the appended record; a missing timestamp is taken as now |
| Monitoring.MeanSquaredError | src/monitoring/performance_monitor.py:50 | the mean of the squared errors, the square of the RMSE: times the record count it is the sum of the squared errors (also line 83 over the whole log) |
| Monitoring.MeanAbsoluteError | src/monitoring/performance_monitor.py:84 | the mean absolute error: times the record count it is the sum of the errors |
| Monitoring.MeanErrorPct | src/monitoring/performance_monitor.py:51 | the MAPE: times the record count it is the sum of the percentage errors (also line 85) |
| Monitoring.Recent | src/monitoring/performance_monitor.py:48 | the window is the last min(n, 100) records |
| Monitoring.Assess | src/monitoring/performance_monitor.py:43-70 | insufficient data exactly below 10 records; otherwise the MSE and MAPE of the window, the baselines, the MAPE drift (mape − b)/b·100, absent exactly at a zero baseline, and the alert by the RMSE rule |
| Monitoring.PerformanceMonitor.CheckModelPerformance | src/monitoring/performance_monitor.py:43-70 | the check on the current log, insufficient data exactly below 10 records, non-negative metrics |
| Monitoring.RmseAlert | src/monitoring/performance_monitor.py:53-67 | the alert rule on the mean squared error: the MSE lies above (1.15·b)² or below (0.85·b)² for the baseline b, and always for a negative b; `AlertMatchesRmseRule` and `AlertMatchesDegradation` tie it to the source's test |
| Monitoring.AlertMatchesRmseRule | src/monitoring/performance_monitor.py:53-67 | for any RMSE r >= 0 with r² = MSE, the squared rule alerts exactly when \|r − b\| > 0.15·\|b\|, which also covers the infinite and NaN drift at b = 0 |
| Monitoring.AlertMatchesDegradation | src/monitoring/performance_monitor.py:53-67 | for a non-zero baseline, the alert fires exactly when \|(r − b)/b\| > 0.15 |
| Monitoring.WindowIgnoresOlder | src/monitoring/performance_monitor.py:48 | records older than the last 100 never influence the check |
| Monitoring.ShortLogFullyWindowed | src/monitoring/performance_monitor.py:45-48 | with 10 to 100 records the check looks at all of them |
| Monitoring.AlertIgnoresMape | src/monitoring/performance_monitor.py:50-67 | the alert depends on the absolute errors only; percentages, and so the MAPE, never change it |
| Monitoring.PerfectModelAlerts | src/monitoring/performance_monitor.py:53-67 | the alert also fires on improvement: zero error against a positive baseline raises it |
| Monitoring.CheckMetricsNonNegative | src/monitoring/performance_monitor.py:48-51 | the check's MSE and MAPE are non-negative |
| Monitoring.Summarize | src/monitoring/performance_monitor.py:72-90 | "no predictions" exactly on an empty log; otherwise total_predictions is the log length and the metrics are those of the whole log |
| Monitoring.PerformanceMonitor.GenerateReport | src/monitoring/performance_monitor.py:72-90 | the report on the current log, "no predictions" exactly when it is empty, MAE >= 0 and MAE <= RMSE |
| Monitoring.ReportMetricsOrdered | src/monitoring/performance_monitor.py:83-85 | the report's MSE, MAE and MAPE are non-negative, and MAE² <= MSE |
| Monitoring.SumsCauchySchwarz | src/monitoring/performance_monitor.py:83-84 | (sum of errors)² <= n · (sum of squared errors) |
| Monitoring.MaeSquaredAtMostMse | src/monitoring/performance_monitor.py:83-84 | MAE² <= MSE on any non-empty log |
| Monitoring.ReportAgreesWithCheck | src/monitoring/performance_monitor.py:50-83 | with 10 to 100 records, the report and the check agree on the MSE |
| NotebookCleaner.StripCell | notebook_optimization.py:23-25 | the execution count becomes None; existing outputs become empty; a cell without outputs does not get them; every other key is unchanged |
| NotebookCleaner.StripAll | notebook_optimization.py:22-25 | every cell is stripped, with the number and order of cells kept |
| NotebookCleaner.StripKeepsOutputsPresence | notebook_optimization.py:23-24 | a cell has an outputs key after stripping exactly when it had one before |
| NotebookCleaner.StripAllIdempotent | notebook_optimization.py:20-25 | stripping twice is stripping once |
| NotebookCleaner.NotebookOptimizer.constructor | notebook_optimization.py:8-15 | the optimizer holds the path, the parsed cells and the metadata entry |
| NotebookCleaner.NotebookOptimizer.StripOutputs | notebook_optimization.py:20-26 | strips every cell of the array in place; the new cells are StripAll of the old ones |
| NotebookCleaner.NotebookOptimizer.CleanMetadata | notebook_optimization.py:31-35 | metadata becomes empty exactly when it is present and is never added; the cells are untouched |
| NotebookCleaner.NotebookOptimizer.DetectLargeCells | notebook_optimization.py:40-48 | the warnings are the large cells of the current cell list |
| NotebookCleaner.LargeCells | notebook_optimization.py:43-48 | the warnings of the scan: (position, size in KB) for every cell larger than the threshold, in ascending position; `LargeCellsSpelledOut` states this |
| NotebookCleaner.LargeCellsSpelledOut | notebook_optimization.py:43-48 | each warning names a cell and carries its size in KB; warnings are in ascending order; a cell is listed exactly when size/1024 strictly exceeds the threshold |
| NotebookCleaner.LargeCellsExact | notebook_optimization.py:45-48 | cell i is listed exactly when its size in KB strictly exceeds the threshold |
| NotebookCleaner.LargeCellsAscending | notebook_optimization.py:43-48 | warning positions are strictly ascending |
| NotebookCleaner.NotebookOptimizer.SaveCleanVersion | notebook_optimization.py:60-63 | the target is the given path, or by default the notebook path with ".ipynb" replaced by "_CLEAN.ipynb" |
| NotebookCleaner.DefaultCleanPath | notebook_optimization.py:63 | the default output path: every non-overlapping ".ipynb", left to right, becomes "_CLEAN.ipynb", as Python's str.replace does; the lemmas below state it |
| NotebookCleaner.PathWithoutSuffixUnchanged | notebook_optimization.py:63 | a path without ".ipynb" is its own default clean path |
| NotebookCleaner.DefaultPathSplits | notebook_optimization.py:63 | the first ".ipynb" becomes "_CLEAN.ipynb", the text before it is kept, and the rest is replaced in turn, so every occurrence is replaced |
| NotebookCleaner.DefaultPathOfNotebook | notebook_optimization.py:63 | "stem.ipynb", where the stem holds no ".ipynb", becomes "stem_CLEAN.ipynb" |

## Left out

- app/dashboard.py is not part of this model. It is a Streamlit user interface over HTTP calls and plots.
- Web framework wiring is not modelled: application setup, CORS, logging, the static answers of `/`
  and `/model/info`, and `value_error_handler`. Validation is modelled as a 422 answer before the
  handler runs.
- Validation messages are not modelled beyond the record position and the field.
- Pydantic's type coercion is not modelled, nor are missing or ill-typed fields. The model starts
  from a typed record, with integer fields as `int` and float fields as `real`.
- Loading the estimator and the scaler with joblib, and startup and shutdown, are not modelled.
  Either artifact may be missing (`Option`), and Dafny cannot see inside either: each is a function
  that may fail.
- The scaler's output shape is not checked by the source. The model concatenates whatever the
  transform returns. `Api.ModelInputLayout` assumes the transform keeps 17 values.
- Timestamps from `datetime.now()` are parameters (`now`). The monitor's `timestamp` is a string, not
  a `datetime`.
- Floating-point behaviour and `np.sqrt` are not modelled. Values are `real`.
- Monitoring.Assess: `current_rmse` and `rmse_degradation_pct` are not reported, because they need a
  square root.
  - The mean squared error stands in for the RMSE.
  - `Monitoring.AlertMatchesRmseRule` and `Monitoring.AlertMatchesDegradation` relate the alert to
    any square root of it.
  - A MAPE drift over a zero baseline, non-finite in numpy, is `None`.
- Monitoring.PerformanceMonitor.GenerateReport: the report carries the MSE in place of the RMSE, for
  the same reason.
- The outer `except Exception` of the batch endpoint (500) is not modelled. In the model nothing outside
  the per-item `try` can fail.
- Logging, the emoji messages and `print` output are not modelled.
- NotebookCleaner.NotebookOptimizer.DetectLargeCells: the source only prints the warnings; the model
  returns the list it prints. It does not round sizes to two decimals, because that is
  floating-point formatting.
- File I/O is not modelled:
  - `save_logs`;
  - the write in `save_clean_version`, whose model returns only the target path;
  - the file read, JSON parsing and `FileNotFoundError` in the `NotebookOptimizer` constructor;
  - `save_matplotlib_figure` with mpld3.
- A notebook without a "cells" key is modelled as one with no cells; both operations then do nothing.
  Cells that are not JSON objects are not modelled.
- Neither `check_model_performance` nor `generate_report` changes the log: both methods have no
  `modifies` clause, which the verifier enforces; the read-only property rests on that frame alone.
- Concurrent use of the monitor is not modelled. The source has no synchronisation.
