/**
 * The prediction service: the fixed feature order, the assembly of the model
 * input (17 scaled values followed by 5 raw ones), the single and batch
 * prediction endpoints with their error statuses, and the feature and health
 * endpoints. The scaler and the model are opaque functions that may fail.
 */
module Api {
  import opened Wrappers
  import opened Models

  /** The feature order the model was trained with. */
  const FeatureNames: seq<string> := [
    "DayOfWeek", "Month", "Quarter", "IsWeekend", "Promo", "SchoolHoliday",
    "Sales_Lag_1", "Sales_Lag_7", "Sales_Lag_14", "Sales_Lag_30",
    "Customers_Lag_1", "Customers_Lag_7", "Sales_Rolling_Mean_7",
    "Sales_Rolling_Mean_14", "Sales_Rolling_Std_7", "Sales_Rolling_Std_14",
    "SalesPerCustomer", "Store", "Open", "StoreType", "Assortment",
    "CompetitionDistance"]

  /** The first ScaledCount features go through the scaler; the rest are passed raw. */
  const ScaledCount: nat := 17
  const ModelVersion: string := "1.0.0"
  const ApiVersion: string := "1.0.0"
  /** The single-prediction endpoint reports the model's output divided by this. */
  const PredictionDivisor: real := 1000.0
  /** The confidence reported with every single prediction (a constant, not computed). */
  const ConfidenceScore: real := 0.95
  const NotLoaded: string := "Model not loaded"
  /** What calling the transform of an unloaded (None) scaler raises. */
  const NoScaler: string := "'NoneType' object has no attribute 'transform'"

  type Vector = seq<real>
  /** A fitted scaler: may fail, for instance on a vector of the wrong width. */
  type Scaler = Vector -> Result<Vector, string>
  /** A trained model: one raw prediction per input vector, or a failure. */
  type Model = Vector -> Result<real, string>

  /** The loaded artifacts; either may be missing. */
  datatype Service = Service(model: Option<Model>, scaler: Option<Scaler>)

  /** The HTTP errors the endpoints raise. */
  datatype ApiError =
    | Unavailable(detail: string)
    | Internal(detail: string)
    | Unprocessable(errors: seq<ValidationError>)
  {
    function Status(): int {
      match this
      case Unavailable(_) => 503
      case Internal(_) => 500
      case Unprocessable(_) => 422
    }
  }

  // ---------------------------------------------------------------------------
  // The feature order
  // ---------------------------------------------------------------------------

  lemma TemporalNamesResolve(i: nat)
    requires 0 <= i < 6
    ensures FieldNamed(FeatureNames[i]) == Some(DeclaredFields()[i])
  {
  }

  lemma LagNamesResolve(i: nat)
    requires 6 <= i < 12
    ensures FieldNamed(FeatureNames[i]) == Some(DeclaredFields()[i])
  {
  }

  lemma RollingNamesResolve(i: nat)
    requires 12 <= i < 17
    ensures FieldNamed(FeatureNames[i]) == Some(DeclaredFields()[i])
  {
  }

  lemma StoreNamesResolve(i: nat)
    requires 17 <= i < 22
    ensures FieldNamed(FeatureNames[i]) == Some(DeclaredFields()[i])
  {
  }

  /** Each feature name denotes the field declared at the same position. */
  lemma FeatureNamesResolve(i: nat)
    requires i < |FeatureNames|
    ensures FieldNamed(FeatureNames[i]) == Some(DeclaredFields()[i])
  {
    if i < 6 { TemporalNamesResolve(i); }
    else if i < 12 { LagNamesResolve(i); }
    else if i < 17 { RollingNamesResolve(i); }
    else { StoreNamesResolve(i); }
  }

  /** The feature list names the record's fields, in declaration order, each once. */
  lemma FeatureNamesWellFormed()
    ensures |FeatureNames| == |DeclaredFields()| == 22
    ensures forall i :: 0 <= i < 22 ==> FieldNamed(FeatureNames[i]) == Some(DeclaredFields()[i])
    ensures forall i, j :: 0 <= i < j < 22 ==> FeatureNames[i] != FeatureNames[j]
    ensures FeatureNames[..ScaledCount] + FeatureNames[ScaledCount..] == FeatureNames
  {
    DeclaredFieldsComplete();
    forall i | 0 <= i < 22 ensures FieldNamed(FeatureNames[i]) == Some(DeclaredFields()[i]) {
      FeatureNamesResolve(i);
    }
  }

  /** The values sent through the scaler, in feature order. */
  function ScaledFeatures(p: PredictionInput): (v: Vector)
    ensures |v| == ScaledCount
  {
    [p.dayOfWeek as real, p.month as real, p.quarter as real, p.isWeekend as real,
     p.promo, p.schoolHoliday as real,
     p.salesLag1, p.salesLag7, p.salesLag14, p.salesLag30,
     p.customersLag1, p.customersLag7,
     p.salesRollingMean7, p.salesRollingMean14,
     p.salesRollingStd7, p.salesRollingStd14,
     p.salesPerCustomer]
  }

  /** The values passed to the model unscaled, in feature order. */
  function UnscaledFeatures(p: PredictionInput): (v: Vector)
    ensures |v| == |FeatureNames| - ScaledCount
  {
    [p.store as real, p.open as real, p.storeType as real, p.assortment as real,
     p.competitionDistance]
  }

  lemma TemporalValuesInOrder(p: PredictionInput, i: nat)
    requires i < 6
    ensures ScaledFeatures(p)[i] == Value(p, FieldAt(i))
  {
  }

  lemma LagValuesInOrder(p: PredictionInput, i: nat)
    requires 6 <= i < 12
    ensures ScaledFeatures(p)[i] == Value(p, FieldAt(i))
  {
  }

  lemma RollingValuesInOrder(p: PredictionInput, i: nat)
    requires 12 <= i < ScaledCount
    ensures ScaledFeatures(p)[i] == Value(p, FieldAt(i))
  {
  }

  lemma StoreValuesInOrder(p: PredictionInput, i: nat)
    requires ScaledCount <= i < 22
    ensures UnscaledFeatures(p)[i - ScaledCount] == Value(p, FieldAt(i))
  {
  }

  /** Position i of the assembled values holds the field that FeatureNames[i] names. */
  lemma AssemblyFollowsFeatureNames(p: PredictionInput)
    ensures forall i :: 0 <= i < 22 ==> FieldNamed(FeatureNames[i]).Some?
    ensures forall i :: 0 <= i < ScaledCount ==>
      ScaledFeatures(p)[i] == Value(p, FieldNamed(FeatureNames[i]).value)
    ensures forall i :: ScaledCount <= i < 22 ==>
      UnscaledFeatures(p)[i - ScaledCount] == Value(p, FieldNamed(FeatureNames[i]).value)
  {
    forall i | 0 <= i < 22
      ensures FieldNamed(FeatureNames[i]) == Some(FieldAt(i))
    {
      FeatureNamesResolve(i);
    }
    forall i | 0 <= i < ScaledCount
      ensures ScaledFeatures(p)[i] == Value(p, FieldAt(i))
    {
      if i < 6 { TemporalValuesInOrder(p, i); }
      else if i < 12 { LagValuesInOrder(p, i); }
      else { RollingValuesInOrder(p, i); }
    }
    forall i | ScaledCount <= i < 22
      ensures UnscaledFeatures(p)[i - ScaledCount] == Value(p, FieldAt(i))
    {
      StoreValuesInOrder(p, i);
    }
  }

  // ---------------------------------------------------------------------------
  // The pipeline
  // ---------------------------------------------------------------------------

  /** The model input: the scaled values as the scaler returns them, then the raw ones. */
  function ModelInput(scaler: Option<Scaler>, p: PredictionInput): (r: Result<Vector, string>)
    ensures scaler.None? ==> r == Err(NoScaler)
    ensures r.Ok? ==> |r.value| >= 5 && r.value[|r.value| - 5..] == UnscaledFeatures(p)
  {
    match scaler
    case None => Err(NoScaler)
    case Some(transform) =>
      match transform(ScaledFeatures(p))
      case Err(e) => Err(e)
      case Ok(scaled) => Ok(scaled + UnscaledFeatures(p))
  }

  /** When the scaler keeps the width, the model sees 22 values: the scaler's 17,
      then the raw values of the last five named features. */
  lemma ModelInputLayout(transform: Scaler, p: PredictionInput)
    requires transform(ScaledFeatures(p)).Ok?
    requires |transform(ScaledFeatures(p)).value| == ScaledCount
    ensures ModelInput(Some(transform), p).Ok?
    ensures var v := ModelInput(Some(transform), p).value;
      && |v| == |FeatureNames|
      && v[..ScaledCount] == transform(ScaledFeatures(p)).value
      && forall i :: ScaledCount <= i < |FeatureNames| ==> v[i] == Value(p, FieldNamed(FeatureNames[i]).value)
  {
    AssemblyFollowsFeatureNames(p);
    FeatureNamesWellFormed();
  }

  /** The model's raw output for one record, or the message of the failure. */
  function RawPrediction(model: Model, scaler: Option<Scaler>, p: PredictionInput): (r: Result<real, string>)
    ensures scaler.None? ==> r == Err(NoScaler)
  {
    match ModelInput(scaler, p)
    case Err(e) => Err(e)
    case Ok(v) => model(v)
  }

  /** The single-prediction handler on a record that passed validation. */
  function PredictSales(svc: Service, p: PredictionInput, now: string): (r: Result<PredictionOutput, ApiError>)
    ensures svc.model.None? <==> r.Err? && r.error.Status() == 503
    ensures svc.model.None? ==> r == Err(Unavailable(NotLoaded))
    ensures r.Err? ==> r.error.Unavailable? || r.error.Internal?
    ensures r.Ok? ==> (ValidOutput(r.value) && r.value.confidence == ConfidenceScore
      && r.value.modelVersion == ModelVersion && r.value.predictionTimestamp == now)
    ensures svc.model.Some? ==>
      match RawPrediction(svc.model.value, svc.scaler, p)
      case Ok(raw) => r.Ok? && r.value.prediction * PredictionDivisor == raw
      case Err(e) => r == Err(Internal("Prediction failed: " + e))
  {
    match svc.model
    case None => Err(Unavailable(NotLoaded))
    case Some(model) =>
      match RawPrediction(model, svc.scaler, p)
      case Err(e) => Err(Internal("Prediction failed: " + e))
      case Ok(raw) =>
        Ok(PredictionOutput(raw / PredictionDivisor, ConfidenceScore, now, ModelVersion))
  }

  /** POST /predict: the request is validated before the handler runs. */
  function HandlePredict(svc: Service, p: PredictionInput, now: string): (r: Result<PredictionOutput, ApiError>)
    ensures !Valid(p) ==> r == Err(Unprocessable(RequestErrors(p))) && r.error.errors != []
    ensures Valid(p) ==> r == PredictSales(svc, p, now)
  {
    ValidIffNoViolations(p);
    if Valid(p) then PredictSales(svc, p, now) else Err(Unprocessable(RequestErrors(p)))
  }

  /** When no model is loaded the answer is 503 whatever the scaler is, so neither
      the scaler nor the model is consulted. */
  lemma UnloadedIgnoresArtifacts(scaler1: Option<Scaler>, scaler2: Option<Scaler>, p: PredictionInput, now: string)
    requires Valid(p)
    ensures HandlePredict(Service(None, scaler1), p, now) == HandlePredict(Service(None, scaler2), p, now)
    ensures HandlePredict(Service(None, scaler1), p, now).error.Status() == 503
  {
  }

  // ---------------------------------------------------------------------------
  // Batch predictions
  // ---------------------------------------------------------------------------

  /** A failed batch item: its position in the request and the failure's message. */
  datatype ItemError = ItemError(index: nat, error: string)

  datatype BatchResponse = BatchResponse(
    batchSize: nat, successful: nat, failed: nat,
    predictions: seq<real>, errors: seq<ItemError>,
    timestamp: string, modelVersion: string)

  /** What running one item through the pipeline gives: a raw output or a message. */
  type Outcome = Result<real, string>

  /** The outcome of every item, position by position: each item is run on its own. */
  function Outcomes(model: Model, scaler: Option<Scaler>, items: seq<PredictionInput>): seq<Outcome>
  {
    seq(|items|, i requires 0 <= i < |items| => RawPrediction(model, scaler, items[i]))
  }

  /** The raw outputs of the items that succeed, in input order. */
  function Successes(outs: seq<Outcome>): seq<real>
    decreases |outs|
  {
    if outs == [] then []
    else
      var init := Successes(outs[..|outs| - 1]);
      match outs[|outs| - 1]
      case Ok(v) => init + [v]
      case Err(_) => init
  }

  /** The failure of item i, if it fails: nothing or one entry. */
  function FailureAt(outs: seq<Outcome>, i: nat): seq<ItemError>
    requires i < |outs|
  {
    match outs[i]
    case Ok(_) => []
    case Err(e) => [ItemError(i, e)]
  }

  /** The items that fail, with their positions, in input order. */
  function Failures(outs: seq<Outcome>): seq<ItemError>
    decreases |outs|
  {
    if outs == [] then []
    else Failures(outs[..|outs| - 1]) + FailureAt(outs, |outs| - 1)
  }

  /** The response the batch handler builds for a loaded model. */
  function ExpectedBatch(outs: seq<Outcome>, now: string): BatchResponse {
    var ok := Successes(outs);
    var failed := Failures(outs);
    BatchResponse(|outs|, |ok|, |failed|, ok, failed, now, ModelVersion)
  }

  /** One more item handled: its outcome is appended to the successes or the failures. */
  lemma PrefixStep(outs: seq<Outcome>, idx: nat)
    requires idx < |outs|
    ensures Successes(outs[..idx + 1]) ==
      Successes(outs[..idx]) + (if outs[idx].Ok? then [outs[idx].value] else [])
    ensures Failures(outs[..idx + 1]) == Failures(outs[..idx]) + FailureAt(outs, idx)
  {
    var pre := outs[..idx + 1];
    assert pre[..idx] == outs[..idx];
    assert pre[|pre| - 1] == outs[idx];
  }

  /** The batch handler on a request that passed validation: every item is run
      through the pipeline on its own, and a failure is recorded, not raised. */
  method PredictBatch(svc: Service, req: BatchPredictionRequest, now: string) returns (r: Result<BatchResponse, ApiError>)
    ensures svc.model.None? ==> r == Err(Unavailable(NotLoaded))
    ensures svc.model.Some? ==> r == Ok(ExpectedBatch(Outcomes(svc.model.value, svc.scaler, req.data), now))
  {
    if svc.model.None? {
      return Err(Unavailable(NotLoaded));
    }
    var model := svc.model.value;
    ghost var outs := Outcomes(model, svc.scaler, req.data);
    var predictions: seq<real> := [];
    var errors: seq<ItemError> := [];
    for idx := 0 to |req.data|
      invariant predictions == Successes(outs[..idx])
      invariant errors == Failures(outs[..idx])
    {
      PrefixStep(outs, idx);
      var outcome := RawPrediction(model, svc.scaler, req.data[idx]);
      match outcome
      case Ok(pred) =>
        predictions := predictions + [pred];
      case Err(e) =>
        errors := errors + [ItemError(idx, e)];
    }
    assert outs[..|req.data|] == outs;
    r := Ok(BatchResponse(|req.data|, |predictions|, |errors|, predictions, errors, now, ModelVersion));
  }

  /** What the batch response reports: every item is counted once, each listed
      failure names an item of the request and carries that item's own message,
      failures are listed in input order, and exactly the failing items are listed;
      the predictions are the raw outputs of exactly the succeeding items, in input order. */
  lemma BatchResponseSpelledOut(model: Model, scaler: Option<Scaler>, items: seq<PredictionInput>, now: string)
    ensures var b := ExpectedBatch(Outcomes(model, scaler, items), now);
      && b.batchSize == |items|
      && b.successful == |b.predictions| && b.failed == |b.errors|
      && b.successful + b.failed == b.batchSize
      && (forall k :: 0 <= k < |b.errors| ==>
            && b.errors[k].index < b.batchSize
            && RawPrediction(model, scaler, items[b.errors[k].index]) == Err(b.errors[k].error))
      && (forall k, l :: 0 <= k < l < |b.errors| ==> b.errors[k].index < b.errors[l].index)
      && (forall i :: 0 <= i < |items| ==>
            (RawPrediction(model, scaler, items[i]).Err? <==>
             exists k :: 0 <= k < |b.errors| && b.errors[k].index == i))
      && var ix := SuccessIndices(Outcomes(model, scaler, items));
      && |ix| == |b.predictions|
      && (forall k :: 0 <= k < |ix| ==>
            ix[k] < |items| && RawPrediction(model, scaler, items[ix[k]]) == Ok(b.predictions[k]))
      && (forall k, l :: 0 <= k < l < |ix| ==> ix[k] < ix[l])
      && (forall i :: 0 <= i < |items| ==> (RawPrediction(model, scaler, items[i]).Ok? <==> i in ix))
  {
    var outs := Outcomes(model, scaler, items);
    BatchCounts(outs);
    FailureIndices(outs);
    SuccessPositions(outs);
    assert forall i :: 0 <= i < |items| ==> outs[i] == RawPrediction(model, scaler, items[i]);
  }

  /** POST /predict_batch: one invalid record rejects the whole request with 422
      before any item is handled, whether or not a model is loaded. */
  method HandleBatch(svc: Service, req: BatchPredictionRequest, now: string) returns (r: Result<BatchResponse, ApiError>)
    ensures !ValidBatch(req) ==> r == Err(Unprocessable(BatchErrors(req))) && r.error.errors != []
    ensures ValidBatch(req) && svc.model.None? ==> r == Err(Unavailable(NotLoaded))
    ensures ValidBatch(req) && svc.model.Some? ==>
      r == Ok(ExpectedBatch(Outcomes(svc.model.value, svc.scaler, req.data), now))
  {
    ValidBatchIffNoErrors(req);
    if !ValidBatch(req) {
      return Err(Unprocessable(BatchErrors(req)));
    }
    r := PredictBatch(svc, req, now);
  }

  /** Every item is either a success or a failure. */
  lemma {:induction false} BatchCounts(outs: seq<Outcome>)
    ensures |Successes(outs)| + |Failures(outs)| == |outs|
    decreases |outs|
  {
    if outs != [] {
      BatchCounts(outs[..|outs| - 1]);
    }
  }

  /** Every failure lies in range and carries its own item's message. */
  lemma {:induction false} FailuresInRange(outs: seq<Outcome>)
    ensures forall k :: 0 <= k < |Failures(outs)| ==>
      Failures(outs)[k].index < |outs| && outs[Failures(outs)[k].index] == Err(Failures(outs)[k].error)
    decreases |outs|
  {
    if outs != [] {
      var init := outs[..|outs| - 1];
      FailuresInRange(init);
      var fs0 := Failures(init);
      var last := FailureAt(outs, |outs| - 1);
      var fs := fs0 + last;
      assert Failures(outs) == fs;
      forall k | 0 <= k < |fs|
        ensures fs[k].index < |outs| && outs[fs[k].index] == Err(fs[k].error)
      {
        if k < |fs0| {
          assert fs[k] == fs0[k];
          assert init[fs0[k].index] == outs[fs0[k].index];
        } else {
          assert fs[k] == last[0];
        }
      }
    }
  }

  /** Failure positions are strictly increasing. */
  lemma {:induction false} FailuresIncreasing(outs: seq<Outcome>)
    ensures forall k, l :: 0 <= k < l < |Failures(outs)| ==> Failures(outs)[k].index < Failures(outs)[l].index
    decreases |outs|
  {
    if outs != [] {
      var init := outs[..|outs| - 1];
      FailuresIncreasing(init);
      FailuresInRange(init);
      var fs0 := Failures(init);
      var last := FailureAt(outs, |outs| - 1);
      var fs := fs0 + last;
      assert Failures(outs) == fs;
      forall k, l | 0 <= k < l < |fs| ensures fs[k].index < fs[l].index {
        assert fs[k] == fs0[k];
        if l < |fs0| {
          assert fs[l] == fs0[l];
        } else {
          assert fs[l] == last[0];
        }
      }
    }
  }

  /** Exactly the failing items are listed among the failures. */
  lemma {:induction false} FailuresExact(outs: seq<Outcome>, i: nat)
    requires i < |outs|
    ensures outs[i].Err? <==> exists k :: 0 <= k < |Failures(outs)| && Failures(outs)[k].index == i
    decreases |outs|
  {
    var init := outs[..|outs| - 1];
    var fs0 := Failures(init);
    var last := FailureAt(outs, |outs| - 1);
    var fs := fs0 + last;
    assert Failures(outs) == fs;
    FailuresInRange(init);
    if i < |init| {
      FailuresExact(init, i);
      assert init[i] == outs[i];
      if outs[i].Err? {
        var k :| 0 <= k < |fs0| && fs0[k].index == i;
        assert fs[k] == fs0[k];
      }
      if exists k :: 0 <= k < |fs| && fs[k].index == i {
        var k :| 0 <= k < |fs| && fs[k].index == i;
        if k < |fs0| {
          assert fs[k] == fs0[k];
        }
      }
    } else {
      if outs[i].Err? {
        assert fs[|fs| - 1] == last[0];
      }
      if exists k :: 0 <= k < |fs| && fs[k].index == i {
        var k :| 0 <= k < |fs| && fs[k].index == i;
        if k >= |fs0| {
          assert fs[k] == last[0];
        }
      }
    }
  }

  /** Failure positions are in range and increasing, each comes with its item's own
      message, and exactly the failing items are listed. */
  lemma FailureIndices(outs: seq<Outcome>)
    ensures var fs := Failures(outs);
      && (forall k :: 0 <= k < |fs| ==> fs[k].index < |outs| && outs[fs[k].index] == Err(fs[k].error))
      && (forall k, l :: 0 <= k < l < |fs| ==> fs[k].index < fs[l].index)
      && (forall i :: 0 <= i < |outs| ==> (outs[i].Err? <==> exists k :: 0 <= k < |fs| && fs[k].index == i))
  {
    FailuresInRange(outs);
    FailuresIncreasing(outs);
    forall i | 0 <= i < |outs|
      ensures outs[i].Err? <==> exists k :: 0 <= k < |Failures(outs)| && Failures(outs)[k].index == i
    {
      FailuresExact(outs, i);
    }
  }

  /** The positions of the items that succeed, in input order. */
  function SuccessIndices(outs: seq<Outcome>): seq<nat>
    decreases |outs|
  {
    if outs == [] then []
    else SuccessIndices(outs[..|outs| - 1]) + (if outs[|outs| - 1].Ok? then [|outs| - 1] else [])
  }

  /** The k-th success is the raw output of the item at the k-th success position. */
  lemma {:induction false} SuccessesInRange(outs: seq<Outcome>)
    ensures |SuccessIndices(outs)| == |Successes(outs)|
    ensures forall k :: 0 <= k < |SuccessIndices(outs)| ==>
      SuccessIndices(outs)[k] < |outs| && outs[SuccessIndices(outs)[k]] == Ok(Successes(outs)[k])
    decreases |outs|
  {
    if outs != [] {
      var init := outs[..|outs| - 1];
      SuccessesInRange(init);
      var ix0, vs0 := SuccessIndices(init), Successes(init);
      var ix, vs := SuccessIndices(outs), Successes(outs);
      forall k | 0 <= k < |ix|
        ensures ix[k] < |outs| && outs[ix[k]] == Ok(vs[k])
      {
        if k < |ix0| {
          assert ix[k] == ix0[k] && vs[k] == vs0[k];
          assert init[ix0[k]] == outs[ix0[k]];
        }
      }
    }
  }

  /** Success positions are strictly increasing. */
  lemma {:induction false} SuccessesIncreasing(outs: seq<Outcome>)
    ensures forall k, l :: 0 <= k < l < |SuccessIndices(outs)| ==> SuccessIndices(outs)[k] < SuccessIndices(outs)[l]
    decreases |outs|
  {
    if outs != [] {
      var init := outs[..|outs| - 1];
      SuccessesIncreasing(init);
      SuccessesInRange(init);
      var ix0, ix := SuccessIndices(init), SuccessIndices(outs);
      forall k, l | 0 <= k < l < |ix| ensures ix[k] < ix[l] {
        assert ix[k] == ix0[k];
        if l < |ix0| {
          assert ix[l] == ix0[l];
        }
      }
    }
  }

  /** Exactly the succeeding items have a success position. */
  lemma {:induction false} SuccessesExact(outs: seq<Outcome>, i: nat)
    requires i < |outs|
    ensures outs[i].Ok? <==> i in SuccessIndices(outs)
    decreases |outs|
  {
    var init := outs[..|outs| - 1];
    var ix0 := SuccessIndices(init);
    SuccessesInRange(init);
    if i < |init| {
      SuccessesExact(init, i);
      assert init[i] == outs[i];
      assert i !in (if outs[|outs| - 1].Ok? then [|outs| - 1] else []);
    } else {
      assert i !in ix0;
    }
  }

  /** The successes are the raw outputs of exactly the succeeding items, in input order. */
  lemma {:induction false} SuccessPositions(outs: seq<Outcome>)
    ensures var ix, vs := SuccessIndices(outs), Successes(outs);
      && |ix| == |vs|
      && (forall k :: 0 <= k < |ix| ==> ix[k] < |outs| && outs[ix[k]] == Ok(vs[k]))
      && (forall k, l :: 0 <= k < l < |ix| ==> ix[k] < ix[l])
      && (forall i :: 0 <= i < |outs| ==> (outs[i].Ok? <==> i in ix))
  {
    SuccessesInRange(outs);
    SuccessesIncreasing(outs);
    forall i | 0 <= i < |outs| ensures outs[i].Ok? <==> i in SuccessIndices(outs) {
      SuccessesExact(outs, i);
    }
  }

  /** Failure positions moved by an offset. */
  function Shifted(es: seq<ItemError>, offset: nat): seq<ItemError>
  {
    seq(|es|, k requires 0 <= k < |es| => ItemError(es[k].index + offset, es[k].error))
  }

  /** Items are isolated: the outcomes of a concatenation are those of its halves. */
  lemma OutcomesIsolation(model: Model, scaler: Option<Scaler>, s1: seq<PredictionInput>, s2: seq<PredictionInput>)
    ensures Outcomes(model, scaler, s1 + s2) == Outcomes(model, scaler, s1) + Outcomes(model, scaler, s2)
  {
    var o, o1, o2 := Outcomes(model, scaler, s1 + s2), Outcomes(model, scaler, s1), Outcomes(model, scaler, s2);
    forall i | 0 <= i < |o|
      ensures o[i] == (o1 + o2)[i]
    {
      if i < |s1| {
        assert (s1 + s2)[i] == s1[i];
      } else {
        assert (s1 + s2)[i] == s2[i - |s1|];
      }
    }
  }

  /** The successes of a concatenation are those of its halves. */
  lemma {:induction false} SuccessesIsolation(o1: seq<Outcome>, o2: seq<Outcome>)
    ensures Successes(o1 + o2) == Successes(o1) + Successes(o2)
    decreases |o2|
  {
    if o2 == [] {
      assert o1 + o2 == o1;
    } else {
      var init := o2[..|o2| - 1];
      SuccessesIsolation(o1, init);
      assert (o1 + o2)[..|o1 + o2| - 1] == o1 + init;
      assert (o1 + o2)[|o1 + o2| - 1] == o2[|o2| - 1];
    }
  }

  /** The failures of a concatenation are those of its halves, the second half's
      positions offset by the length of the first. */
  lemma {:induction false} FailuresIsolation(o1: seq<Outcome>, o2: seq<Outcome>)
    ensures Failures(o1 + o2) == Failures(o1) + Shifted(Failures(o2), |o1|)
    decreases |o2|
  {
    if o2 == [] {
      assert o1 + o2 == o1;
    } else {
      var init := o2[..|o2| - 1];
      FailuresIsolation(o1, init);
      LastOfConcat(o1, o2);
      ShiftedAppend(Failures(init), FailureAt(o2, |o2| - 1), |o1|);
    }
  }

  /** The last failure of a concatenation is the second half's, offset. */
  lemma LastOfConcat(o1: seq<Outcome>, o2: seq<Outcome>)
    requires o2 != []
    ensures Failures(o1 + o2) ==
      Failures(o1 + o2[..|o2| - 1]) + Shifted(FailureAt(o2, |o2| - 1), |o1|)
  {
    var o := o1 + o2;
    assert o[..|o| - 1] == o1 + o2[..|o2| - 1];
    assert o[|o| - 1] == o2[|o2| - 1];
  }

  lemma ShiftedAppend(a: seq<ItemError>, b: seq<ItemError>, offset: nat)
    ensures Shifted(a + b, offset) == Shifted(a, offset) + Shifted(b, offset)
  {
    var l, r := Shifted(a + b, offset), Shifted(a, offset) + Shifted(b, offset);
    assert |l| == |r|;
    forall k | 0 <= k < |l| ensures l[k] == r[k] {
      if k < |a| {
        assert (a + b)[k] == a[k];
      } else {
        assert (a + b)[k] == b[k - |a|];
      }
    }
  }

  /** A batch whose items all succeed has no failures. */
  lemma {:induction false} AllSucceed(outs: seq<Outcome>)
    requires forall i :: 0 <= i < |outs| ==> outs[i].Ok?
    ensures Failures(outs) == []
    decreases |outs|
  {
    if outs != [] {
      var init := outs[..|outs| - 1];
      assert forall i :: 0 <= i < |init| ==> init[i] == outs[i];
      AllSucceed(init);
    }
  }

  /** A batch whose items all fail with the same message lists every position. */
  lemma {:induction false} AllFailWith(outs: seq<Outcome>, e: string)
    requires forall i :: 0 <= i < |outs| ==> outs[i] == Err(e)
    ensures Successes(outs) == []
    ensures |Failures(outs)| == |outs|
    ensures forall k :: 0 <= k < |outs| ==> Failures(outs)[k] == ItemError(k, e)
    decreases |outs|
  {
    if outs != [] {
      var init := outs[..|outs| - 1];
      assert forall i :: 0 <= i < |init| ==> init[i] == outs[i];
      AllFailWith(init, e);
    }
  }

  /** A one-item batch holds that item's raw output or its failure. */
  lemma SingleItemBatch(model: Model, scaler: Option<Scaler>, p: PredictionInput)
    ensures RawPrediction(model, scaler, p).Ok? ==>
      Successes(Outcomes(model, scaler, [p])) == [RawPrediction(model, scaler, p).value]
      && Failures(Outcomes(model, scaler, [p])) == []
    ensures RawPrediction(model, scaler, p).Err? ==>
      Successes(Outcomes(model, scaler, [p])) == []
      && Failures(Outcomes(model, scaler, [p])) == [ItemError(0, RawPrediction(model, scaler, p).error)]
  {
    var outs := Outcomes(model, scaler, [p]);
    assert outs == [RawPrediction(model, scaler, p)];
    assert outs[..0] == [];
  }

  /** The batch reports raw model outputs, not divided by 1000: for a record that
      succeeds, the batch value is 1000 times the single prediction. */
  lemma BatchIsThousandfoldSingle(model: Model, scaler: Option<Scaler>, p: PredictionInput, now: string)
    requires RawPrediction(model, scaler, p).Ok?
    ensures PredictSales(Service(Some(model), scaler), p, now).Ok?
    ensures Successes(Outcomes(model, scaler, [p])) ==
      [PredictSales(Service(Some(model), scaler), p, now).value.prediction * PredictionDivisor]
  {
    SingleItemBatch(model, scaler, p);
  }

  /** Without a scaler every item fails, each with its own position. */
  lemma MissingScalerFailsEveryItem(model: Model, items: seq<PredictionInput>)
    ensures Successes(Outcomes(model, None, items)) == []
    ensures |Failures(Outcomes(model, None, items))| == |items|
    ensures forall k :: 0 <= k < |items| ==> Failures(Outcomes(model, None, items))[k] == ItemError(k, NoScaler)
  {
    AllFailWith(Outcomes(model, None, items), NoScaler);
  }

  /** A batch in which exactly the item at position k fails lists that item, and
      only it, among the failures. */
  lemma {:induction false} OnlyFailure(outs: seq<Outcome>, k: nat)
    requires k < |outs| && outs[k].Err?
    requires forall i :: 0 <= i < |outs| && i != k ==> outs[i].Ok?
    ensures Failures(outs) == [ItemError(k, outs[k].error)]
    decreases |outs|
  {
    var init := outs[..|outs| - 1];
    assert forall i :: 0 <= i < |init| ==> init[i] == outs[i];
    if k == |outs| - 1 {
      AllSucceed(init);
    } else {
      OnlyFailure(init, k);
    }
  }

  /** A batch in which exactly the item at position k fails reports N-1 successes
      and one failure at position k. */
  lemma OneFailingItem(outs: seq<Outcome>, k: nat)
    requires k < |outs| && outs[k].Err?
    requires forall i :: 0 <= i < |outs| && i != k ==> outs[i].Ok?
    ensures |Successes(outs)| == |outs| - 1
    ensures Failures(outs) == [ItemError(k, outs[k].error)]
  {
    OnlyFailure(outs, k);
    BatchCounts(outs);
  }

  // ---------------------------------------------------------------------------
  // Health and feature endpoints
  // ---------------------------------------------------------------------------

  datatype HealthResponse = HealthResponse(status: string, timestamp: string, modelLoaded: bool, apiVersion: string)

  /** GET /health never fails; it reports whether a model is loaded. */
  function Health(svc: Service, now: string): (h: HealthResponse)
    ensures h.modelLoaded <==> svc.model.Some?
    ensures h.apiVersion == ApiVersion && h.timestamp == now
  {
    HealthResponse("✅ Healthy", now, svc.model.Some?, ApiVersion)
  }

  /** Health reports an unloaded model exactly when a valid prediction request gets 503. */
  lemma HealthAgreesWithPredict(svc: Service, p: PredictionInput, now: string, later: string)
    requires Valid(p)
    ensures !Health(svc, now).modelLoaded <==>
      HandlePredict(svc, p, later).Err? && HandlePredict(svc, p, later).error.Status() == 503
  {
  }

  datatype FeatureList = FeatureList(
    features: seq<string>, count: nat, scaledFeatures: seq<string>, unscaledFeatures: seq<string>,
    description: string)

  /** GET /model/features: the full order and its split into the scaled and raw parts. */
  function ModelFeatures(): (r: FeatureList)
    ensures r.scaledFeatures + r.unscaledFeatures == r.features
    ensures r.count == |r.features| == 22
    ensures |r.scaledFeatures| == ScaledCount
    ensures r.features == FeatureNames
    ensures forall i :: 0 <= i < |r.features| ==> FieldNamed(r.features[i]) == Some(DeclaredFields()[i])
    ensures forall i, j :: 0 <= i < j < |r.features| ==> r.features[i] != r.features[j]
  {
    FeatureNamesWellFormed();
    FeatureList(FeatureNames, |FeatureNames|, FeatureNames[..ScaledCount], FeatureNames[ScaledCount..],
      "First 17 features are scaled, last 5 are not")
  }

  /** The lists /model/features reports are the order the prediction endpoint assembles:
      the scaled list names the scaler's input values one by one, and the unscaled list
      names the raw values appended after it. */
  lemma FeatureListMatchesAssembly(p: PredictionInput)
    ensures var r := ModelFeatures();
      && |r.scaledFeatures| == |ScaledFeatures(p)|
      && |r.unscaledFeatures| == |UnscaledFeatures(p)|
      && (forall i :: 0 <= i < |r.scaledFeatures| ==>
            FieldNamed(r.scaledFeatures[i]).Some? &&
            ScaledFeatures(p)[i] == Value(p, FieldNamed(r.scaledFeatures[i]).value))
      && (forall i :: 0 <= i < |r.unscaledFeatures| ==>
            FieldNamed(r.unscaledFeatures[i]).Some? &&
            UnscaledFeatures(p)[i] == Value(p, FieldNamed(r.unscaledFeatures[i]).value))
  {
    var r := ModelFeatures();
    AssemblyFollowsFeatureNames(p);
    forall i | 0 <= i < |r.unscaledFeatures|
      ensures FieldNamed(r.unscaledFeatures[i]).Some?
      ensures UnscaledFeatures(p)[i] == Value(p, FieldNamed(r.unscaledFeatures[i]).value)
    {
      assert r.unscaledFeatures[i] == FeatureNames[i + ScaledCount];
    }
  }
}
