/** The request handlers: single prediction, batch prediction and the published
    model metadata. The trained regressor is an opaque function that may fail. */
module Handlers {
  import opened Wrappers
  import opened Encoding

  /** The loaded regressor's single-sample prediction: a price for a feature
      vector, or the message of the exception it raised. */
  type Model = FeatureVector -> Result<real, string>

  /** The response to one prediction. The confidence score and the interval bounds
      are part of the schema but no code path fills them. */
  datatype PredictionOutput = PredictionOutput(
    prediction: real,
    confidenceScore: Option<real>,
    intervalLower: Option<real>,
    intervalUpper: Option<real>)

  /** An error response: a status code and a detail message. */
  datatype HttpError = HttpError(status: int, detail: string)

  const BadRequest: int := 400

  /** An output carrying only a price. */
  function PriceOnly(price: real): PredictionOutput {
    PredictionOutput(price, None, None, None)
  }

  /** Single prediction: encode, run the model, wrap the price. Every failure
      becomes one client error with the failure's message. */
  function Predict(model: Model, r: PropertyRecord): (res: Result<PredictionOutput, HttpError>)
    ensures res.Success? <==> model(Encode(r)).Success?
    ensures res.Success? ==> res.value.prediction == model(Encode(r)).value
    ensures res.Success? ==> res.value.confidenceScore.None? && res.value.intervalLower.None?
                             && res.value.intervalUpper.None?
    ensures res.Failure? ==> res.error.status == BadRequest && res.error.detail == model(Encode(r)).error
  {
    var features := Encode(r);
    match model(features)
    case Success(price) => Success(PriceOnly(price))
    case Failure(message) => Failure(HttpError(BadRequest, message))
  }

  /** A single prediction does not depend on the letter case of the categorical fields. */
  lemma PredictIgnoresCase(model: Model, r1: PropertyRecord, r2: PropertyRecord)
    requires SameNumericFields(r1, r2)
    requires SameCategoriesIgnoringCase(r1, r2)
    ensures Predict(model, r1) == Predict(model, r2)
  {
    EncodeIgnoresCase(r1, r2);
  }

  /** Batch prediction: predicts the records one by one, in input order, and stops
      at the first failure, which becomes the single error of the whole batch; the
      predictions made before it are discarded. */
  method BatchPredict(model: Model, inputs: seq<PropertyRecord>)
    returns (res: Result<seq<PredictionOutput>, HttpError>)
    ensures res.Success? <==> forall i :: 0 <= i < |inputs| ==> Predict(model, inputs[i]).Success?
    ensures res.Success? ==> |res.value| == |inputs|
    ensures res.Success? ==> forall i :: 0 <= i < |inputs| ==> Predict(model, inputs[i]) == Success(res.value[i])
    ensures res.Failure? ==>
      exists k :: 0 <= k < |inputs| && Predict(model, inputs[k]) == Failure(res.error) &&
                  forall j :: 0 <= j < k ==> Predict(model, inputs[j]).Success?
  {
    var predictions: seq<PredictionOutput> := [];
    for i := 0 to |inputs|
      invariant |predictions| == i
      invariant forall j :: 0 <= j < i ==> Predict(model, inputs[j]) == Success(predictions[j])
    {
      var features := Encode(inputs[i]);
      var outcome := model(features);
      if outcome.Failure? {
        return Failure(HttpError(BadRequest, outcome.error));
      }
      predictions := predictions + [PriceOnly(outcome.value)];
    }
    return Success(predictions);
  }

  /** The static metadata the service publishes about its model. */
  datatype ModelInfo = ModelInfo(modelType: string, problemType: string, features: seq<string>)

  /** The metadata: its feature list names the encoder's slots in order. */
  function GetModelInfo(): (info: ModelInfo)
    ensures info.problemType == "regression"
    ensures forall r: PropertyRecord :: |info.features| == |Encode(r)|
    ensures forall r: PropertyRecord, i :: 0 <= i < |info.features| ==>
              FieldValue(r, info.features[i]) == Some(Encode(r)[i])
  {
    var info := ModelInfo("Linear Regression", "regression", FeatureNames);
    forall r: PropertyRecord
      ensures |info.features| == |Encode(r)|
      ensures forall i :: 0 <= i < |info.features| ==> FieldValue(r, info.features[i]) == Some(Encode(r)[i])
    {
      FeatureNamesMatchSlots(r);
    }
    info
  }
}
