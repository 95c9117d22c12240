/** The confidence-gated decision of `predict_image` and the record it returns. */
module Decision {
  import opened KnowledgeBase
  import opened Selection
  import Decimal

  /** Below this, any winning class is rejected (the literal `0.50`, exact in binary64). */
  const LowConfidence: real := 0.5

  /** Below this, a winning `Healthy` class is rejected. The source writes `0.6`; the
      comparison is between binary64 numbers, and the binary64 number that literal
      denotes is this one, a little under 3/5. */
  const HealthyConfidence: real := 0.59999999999999997779553950749686919152736663818359375

  datatype Rejection = NoValidLeaf | UnclearImage

  /** The three outcomes of one prediction. */
  datatype Diagnosis =
    | Success(predicted: string, confidence: real, info: KnowledgeEntry)
    | Rejected(reason: Rejection, confidence: real)
    | Error(message: string)

  /** The dictionary `predict_image` returns. */
  datatype Report = Report(
    status: string, predictedLabel: string, confidence: real,
    cause: string, treatment: string, prevention: string)

  /** The `ValueError` numpy raises for `argmax` of an empty vector. */
  const EmptyArgMaxMessage: string := "attempt to get argmax of an empty sequence"

  /** The `ValueError` the label encoder raises for an index it has no class for; it lists
      the offending index as a one-element array. */
  function UnseenLabelMessage(idx: nat): string {
    "y contains previously unseen labels: [" + Decimal.Format(idx) + "]"
  }

  /** Index `i` is the winning class and the label encoder has a label for it. */
  ghost predicate Wins(labels: seq<string>, probs: seq<real>, i: int) {
    IsFirstMax(probs, i) && i < |labels|
  }

  /** From the classifier's probabilities and the label encoder's classes to an outcome:
      arg-max, label lookup, the two rejections in order, then the table lookup. */
  function Decide(labels: seq<string>, probs: seq<real>): (d: Diagnosis)
    ensures (exists i :: Wins(labels, probs, i)) <==> !d.Error?
    ensures forall i :: Wins(labels, probs, i) ==> d.confidence == probs[i]
    ensures !d.Error? ==> forall j :: 0 <= j < |probs| ==> probs[j] <= d.confidence
    ensures d.Success? ==> d.confidence >= LowConfidence
    ensures d.Success? ==> (d.predicted == Healthy ==> d.confidence >= HealthyConfidence)
    ensures d.Success? ==> d.info == Lookup(d.predicted) && d.predicted in labels
    ensures d.Rejected? ==> (d.reason == NoValidLeaf <==> d.confidence < LowConfidence)
    ensures d.Rejected? ==> d.confidence < HealthyConfidence
  {
    if |probs| == 0 then Error(EmptyArgMaxMessage)
    else
      var idx := ArgMax(probs);
      if idx >= |labels| then
        assert forall i :: Wins(labels, probs, i) ==> i == idx by {
          forall i | Wins(labels, probs, i) ensures i == idx { FirstMaxUnique(probs, i, idx); }
        }
        Error(UnseenLabelMessage(idx))
      else
        var predicted, confidence := labels[idx], probs[idx];
        assert Wins(labels, probs, idx);
        assert forall i :: Wins(labels, probs, i) ==> i == idx by {
          forall i | Wins(labels, probs, i) ensures i == idx { FirstMaxUnique(probs, i, idx); }
        }
        if confidence < LowConfidence then Rejected(NoValidLeaf, confidence)
        else if predicted == Healthy && confidence < HealthyConfidence then Rejected(UnclearImage, confidence)
        else Success(predicted, confidence, Lookup(predicted))
  }

  /** The dictionary built for each outcome: the rejected and error records carry fixed
      text; only a success carries a table entry. */
  function ToReport(d: Diagnosis): (r: Report)
    ensures r.status in {"success", "rejected", "error"}
    ensures r.status == "success" <==> d.Success?
    ensures r.status == "error" <==> d.Error?
    ensures d.Success? ==> r == Report("success", d.predicted, d.confidence, d.info.cause, d.info.treatment, d.info.prevention)
    ensures d.Error? ==> r.predictedLabel == "Error" && r.confidence == 0.0 && r.cause == d.message
    ensures d.Rejected? ==> r.confidence == d.confidence
    ensures d.Rejected? ==> r.predictedLabel == (if d.reason == NoValidLeaf then "No Valid Leaf Detected" else "Unclear Image")
  {
    match d
    case Success(predicted, confidence, info) =>
      Report("success", predicted, confidence, info.cause, info.treatment, info.prevention)
    case Rejected(NoValidLeaf, confidence) =>
      Report("rejected", "No Valid Leaf Detected", confidence,
        "Image does not appear to be a mango leaf or confidence too low.",
        "Please capture a clear image of a mango leaf",
        "Ensure proper lighting and leaf is clearly visible")
    case Rejected(UnclearImage, confidence) =>
      Report("rejected", "Unclear Image", confidence,
        "Image quality insufficient for accurate diagnosis.",
        "Recapture with better focus on the leaf",
        "Hold camera steady and ensure good lighting")
    case Error(message) =>
      Report("error", "Error", 0.0, message,
        "Check image format and model files", "Ensure proper setup")
  }

  datatype Option = None | Some(value: Diagnosis)

  /** Reading an outcome back from its record. */
  function FromReport(r: Report): (d: Option)
  {
    if r.status == "success" then Some(Success(r.predictedLabel, r.confidence, KnowledgeEntry(r.cause, r.treatment, r.prevention)))
    else if r.status == "error" then Some(Error(r.cause))
    else if r.status == "rejected" && r.predictedLabel == "No Valid Leaf Detected" then Some(Rejected(NoValidLeaf, r.confidence))
    else if r.status == "rejected" && r.predictedLabel == "Unclear Image" then Some(Rejected(UnclearImage, r.confidence))
    else None
  }

  /** The record determines the outcome: nothing is lost in building it (of the
      confidence as carried here, before any rounding). */
  lemma ReportRoundTrip(d: Diagnosis)
    ensures FromReport(ToReport(d)) == Some(d)
  {
  }

  /** Every probability is in the closed unit interval. */
  ghost predicate InUnitRange(probs: seq<real>) {
    forall j :: 0 <= j < |probs| ==> 0.0 <= probs[j] <= 1.0
  }

  /** A winning probability under one half is rejected as "No Valid Leaf Detected",
      whatever the winning label. */
  lemma LowConfidenceRejects(labels: seq<string>, probs: seq<real>, i: int)
    requires Wins(labels, probs, i) && probs[i] < LowConfidence
    ensures Decide(labels, probs) == Rejected(NoValidLeaf, probs[i])
    ensures ToReport(Decide(labels, probs)) == Report("rejected", "No Valid Leaf Detected", probs[i],
      "Image does not appear to be a mango leaf or confidence too low.",
      "Please capture a clear image of a mango leaf",
      "Ensure proper lighting and leaf is clearly visible")
  {
    FirstMaxUnique(probs, i, ArgMax(probs));
  }

  /** A winning `Healthy` that passed the first gate but not the second is rejected as
      "Unclear Image". */
  lemma UncertainHealthyRejects(labels: seq<string>, probs: seq<real>, i: int)
    requires Wins(labels, probs, i) && labels[i] == Healthy
    requires LowConfidence <= probs[i] < HealthyConfidence
    ensures Decide(labels, probs) == Rejected(UnclearImage, probs[i])
    ensures ToReport(Decide(labels, probs)) == Report("rejected", "Unclear Image", probs[i],
      "Image quality insufficient for accurate diagnosis.",
      "Recapture with better focus on the leaf",
      "Hold camera steady and ensure good lighting")
  {
    FirstMaxUnique(probs, i, ArgMax(probs));
  }

  /** Otherwise the winning label is reported with its probability and its table entry. */
  lemma ConfidentDiagnosisSucceeds(labels: seq<string>, probs: seq<real>, i: int)
    requires Wins(labels, probs, i) && probs[i] >= LowConfidence
    requires labels[i] == Healthy ==> probs[i] >= HealthyConfidence
    ensures Decide(labels, probs) == Success(labels[i], probs[i], Lookup(labels[i]))
    ensures ToReport(Decide(labels, probs)) == Report("success", labels[i], probs[i],
      Lookup(labels[i]).cause, Lookup(labels[i]).treatment, Lookup(labels[i]).prevention)
  {
    FirstMaxUnique(probs, i, ArgMax(probs));
  }

  /** Without a winning class that has a label (no probabilities at all, or a winning
      index past the encoder's classes) the outcome is the library's error. */
  lemma NoWinnerIsError(labels: seq<string>, probs: seq<real>)
    requires forall i :: !Wins(labels, probs, i)
    ensures Decide(labels, probs) == Error(if |probs| == 0 then EmptyArgMaxMessage else UnseenLabelMessage(ArgMax(probs)))
  {
  }

  /** The rejection record does not depend on which label won: two label encoders that
      differ only in their names give the same record. */
  lemma RejectionIgnoresLabels(labels: seq<string>, others: seq<string>, probs: seq<real>, i: int)
    requires Wins(labels, probs, i) && Wins(others, probs, i) && probs[i] < LowConfidence
    ensures ToReport(Decide(labels, probs)) == ToReport(Decide(others, probs))
  {
    LowConfidenceRejects(labels, probs, i);
    LowConfidenceRejects(others, probs, i);
  }

  /** When the classifier's output is a vector of probabilities, the reported confidence
      is one too. */
  lemma ConfidenceInUnitInterval(labels: seq<string>, probs: seq<real>)
    requires InUnitRange(probs)
    ensures 0.0 <= ToReport(Decide(labels, probs)).confidence <= 1.0
  {
    var d := Decide(labels, probs);
    if !d.Error? {
      var i :| Wins(labels, probs, i);
      assert d.confidence == probs[i];
    }
  }

  /** A blank frame scoring 0.55 on `Healthy` is an unclear image, not a diagnosis. */
  lemma UnclearHealthyScenario()
    ensures ToReport(Decide(["Anthracnose", "Healthy"], [0.2, 0.55])).predictedLabel == "Unclear Image"
  {
    UncertainHealthyRejects(["Anthracnose", "Healthy"], [0.2, 0.55], 1);
  }

  /** A confident Anthracnose gets the Anthracnose entry. */
  lemma AnthracnoseScenario()
    ensures ToReport(Decide(["Anthracnose", "Healthy"], [0.85, 0.1])) == Report("success", "Anthracnose", 0.85,
      "Fungal infection causing dark sunken lesions on leaves and fruits.",
      "Spray Carbendazim 0.1% or Copper Oxychloride 0.3%",
      "Avoid overhead irrigation and prune infected parts")
  {
    ConfidentDiagnosisSucceeds(["Anthracnose", "Healthy"], [0.85, 0.1], 0);
  }
}
