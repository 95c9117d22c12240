/** `predict_image`: extraction, classification and the decision, with every fault turned
    into an error record. */
module Pipeline {
  import opened Outcomes
  import opened Embedding
  import opened Decision

  /** The artifacts loaded once at start-up: the scaler and SVM together as one function
      from an embedding to class probabilities (or the exception they raise), and the
      label encoder's classes in class-index order. */
  datatype Artifacts = Artifacts(classify: seq<real> -> Result<seq<real>>, labels: seq<string>)

  /** One prediction as an outcome. `tensor` is what the feature extractor produced for
      the image: its flattened output vector, or the exception raised on the way. */
  function Diagnose(model: Artifacts, tensor: Result<seq<real>>): (d: Diagnosis)
    ensures tensor.Raised? ==> d == Error(tensor.message)
    ensures tensor.Ok? && |tensor.value| != EmbDim ==> d == Error(MismatchMessage(|tensor.value|))
    ensures !d.Error? ==> && tensor.Ok? && |tensor.value| == EmbDim
                          && model.classify(tensor.value).Ok?
                          && d == Decide(model.labels, model.classify(tensor.value).value)
  {
    match ExtractEmbedding(tensor)
    case Raised(m) => Error(m)
    case Ok(emb) =>
      match model.classify(emb)
      case Raised(m) => Error(m)
      case Ok(probs) => Decide(model.labels, probs)
  }

  /** `predict_image` itself: always one of the three records; a success only ever comes
      from an embedding of the trained dimension. */
  function PredictImage(model: Artifacts, tensor: Result<seq<real>>): (r: Report)
    ensures r.status in {"success", "rejected", "error"}
    ensures r.status != "error" ==> tensor.Ok? && |tensor.value| == EmbDim
  {
    ToReport(Diagnose(model, tensor))
  }

  /** An embedding of the wrong length is an error record whose cause is the mismatch
      message; never a success or a rejection. */
  lemma DimensionMismatchIsError(model: Artifacts, tensor: Result<seq<real>>)
    requires tensor.Ok? && |tensor.value| != EmbDim
    ensures PredictImage(model, tensor) == Report("error", "Error", 0.0,
      MismatchMessage(|tensor.value|), "Check image format and model files", "Ensure proper setup")
  {
  }

  /** The mismatch record tells the lengths apart: equal records mean equal lengths. */
  lemma MismatchRecordNamesLength(model: Artifacts, t1: Result<seq<real>>, t2: Result<seq<real>>)
    requires t1.Ok? && |t1.value| != EmbDim && t2.Ok? && |t2.value| != EmbDim
    requires PredictImage(model, t1) == PredictImage(model, t2)
    ensures |t1.value| == |t2.value|
  {
    DimensionMismatchIsError(model, t1);
    DimensionMismatchIsError(model, t2);
    MismatchMessageNamesLength(|t1.value|, |t2.value|);
  }

  /** A fault raised by the extractor or by the classifier is reported with its own text. */
  lemma FaultIsError(model: Artifacts, tensor: Result<seq<real>>, message: string)
    requires tensor == Raised(message)
      || (tensor.Ok? && |tensor.value| == EmbDim && model.classify(tensor.value) == Raised(message))
    ensures PredictImage(model, tensor) == Report("error", "Error", 0.0,
      message, "Check image format and model files", "Ensure proper setup")
  {
  }

  /** For an embedding of the trained dimension that the classifier scores, the record is
      the decision policy's on those probabilities. */
  lemma PredictionFollowsPolicy(model: Artifacts, tensor: Result<seq<real>>, probs: seq<real>)
    requires tensor.Ok? && |tensor.value| == EmbDim && model.classify(tensor.value) == Ok(probs)
    ensures PredictImage(model, tensor) == ToReport(Decide(model.labels, probs))
  {
  }

  /** A classifier that only yields probability vectors gives a confidence in [0, 1]. */
  lemma PredictedConfidenceInUnitInterval(model: Artifacts, tensor: Result<seq<real>>)
    requires forall e :: model.classify(e).Ok? ==> InUnitRange(model.classify(e).value)
    ensures 0.0 <= PredictImage(model, tensor).confidence <= 1.0
  {
    if tensor.Ok? && |tensor.value| == EmbDim && model.classify(tensor.value).Ok? {
      ConfidenceInUnitInterval(model.labels, model.classify(tensor.value).value);
    }
  }
}
