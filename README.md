# Leaf-disease diagnosis decision, in Dafny

This project models the diagnosis decision of `backend/api/inference.py`, the one part of the
repository with real logic. `predict_image` runs four steps in order:

- It checks that the feature extractor's embedding has the trained length 512.
- It takes the arg-max class of the SVM's probabilities, maps it to its label and reads off its probability as the confidence.
- It applies two ordered thresholds. Below 0.50 the image is rejected ("No Valid Leaf Detected"). A `Healthy` winner below 0.6 is rejected too ("Unclear Image").
- If neither threshold rejects, it looks the label up in the `DISEASE_TREATMENT` table, falling back to the `Healthy` entry on a miss.

Every exception on the way becomes an error record.

Modules, one per component:

- `Outcomes`: `Result<T>`, either a value or the text of an exception that was raised.
- `Decimal`: how Python prints a non-negative `int`. It is used to build the mismatch message.
- `Embedding`: `EMB_DIM` and the dimension gate of `extract_embedding`.
- `Selection`: `numpy.argmax`, the first index of a largest probability.
- `KnowledgeBase`: the `DISEASE_TREATMENT` table and its total lookup.
- `Decision`: the three outcomes (`Diagnosis`), the decision policy (`Decide`) and the dictionary built for each outcome (`Report`, `ToReport`).
- `Pipeline`: `predict_image` as `Diagnose`/`PredictImage`, over the loaded artifacts.

The foreign parts are given as inputs:

- the TFLite extractor's output tensor (or the exception it raised), as a `Result<seq<real>>`;
- the scaler and SVM together, as a total function from an embedding to a `Result<seq<real>>` of class probabilities;
- the label encoder's classes, as a `seq<string>` in class-index order.

Everything is a function, so each prediction is deterministic for fixed inputs.

Details of the source the model keeps:

- `inference.py` writes the healthy threshold as `0.6` and compares binary64 numbers against it. So the model uses the exact value of that double, 0.59999999999999997779553950749686919152736663818359375, which is a little under 3/5. For every binary64 probability `p`, the model's `p < HealthyConfidence` agrees with Python's `p < 0.6`, including at `p` equal to that double. `0.50` is exact in binary64.
- The rejected record has the same six fields as the others: `status`, `predicted_label`, `confidence`, `cause`, `treatment` and `prevention`.
- The label is looked up (`le.inverse_transform`) before the thresholds are tested. So a winning index the encoder has no class for is an error even when its confidence is low.
- `classes.npy` is loaded but not used by `predict_image`. Labels come from the label encoder.

## Model

| member | source | states |
|---|---|---|
| `Decimal.Format` | backend/api/inference.py:106 | the printed length is a non-empty digit string with no leading zero |
| `Decimal.ValueOfFormat` | backend/api/inference.py:106 | reading the printed digits back gives the number (round trip) |
| `Decimal.FormatInjective` | backend/api/inference.py:106 | different lengths print differently |
| `Embedding.MismatchMessageShape` | backend/api/inference.py:106 | the error text is "Embedding dim mismatch: <n> != 512" |
| `Embedding.MismatchMessageNamesLength` | backend/api/inference.py:106 | equal mismatch messages mean equal lengths |
| `Embedding.ExtractEmbedding` | backend/api/inference.py:96-108 | a vector passes exactly when its length is 512, and it passes unchanged; a wrong length becomes the mismatch error, never a reshape; an upstream exception passes through |
| `Selection.ArgMax` | backend/api/inference.py:128 | the index holds a largest probability, and every earlier probability is strictly smaller (first on ties) |
| `Selection.FirstMaxUnique` | backend/api/inference.py:128 | there is only one first maximum |
| `Selection.ArgMaxIsFirstMax` | backend/api/inference.py:128 | `ArgMax` is exactly the first maximum (both directions) |
| `KnowledgeBase.TableKeys` | backend/api/inference.py:42-83 | the table's keys are the seven diseases plus `Healthy` |
| `KnowledgeBase.Lookup` | backend/api/inference.py:157 | the lookup is total: a known label gets its own entry, any other label the `Healthy` entry |
| `KnowledgeBase.UnknownLabelFallsBack` | backend/api/inference.py:78-82 | a label outside the eight keys gets the healthy texts |
| `KnowledgeBase.DiseaseEntriesDiffer` | backend/api/inference.py:42-83 | no disease is described with the healthy entry |
| `Decision.Decide` | backend/api/inference.py:127-166 | an outcome is an error exactly when there is no winning class with a label; otherwise the confidence is the winner's probability and no probability exceeds it; a success has confidence at least 0.50 (at least 0.6 for `Healthy`) and carries its label's table entry; a rejection is "no valid leaf" exactly when the confidence is below 0.50 |
| `Decision.ToReport` | backend/api/inference.py:135-176 | status is one of "success", "rejected", "error"; success carries the label, confidence and entry; error has label "Error", confidence 0.0 and the message as cause; a rejection carries its fixed placeholder label and the confidence |
| `Decision.ReportRoundTrip` | backend/api/inference.py:135-176 | the record, with its confidence unrounded, determines the outcome: kind, label or reason, entry texts, message and confidence |
| `Decision.LowConfidenceRejects` | backend/api/inference.py:135-143 | a winning probability below 0.50 gives the "No Valid Leaf Detected" record with its three fixed texts, whatever the label |
| `Decision.UncertainHealthyRejects` | backend/api/inference.py:146-154 | a `Healthy` winner with 0.50 <= confidence < 0.6 gives the "Unclear Image" record with its three fixed texts |
| `Decision.ConfidentDiagnosisSucceeds` | backend/api/inference.py:157-166 | in every other case the record is a success with the winning label, its probability and the table entry's three texts |
| `Decision.NoWinnerIsError` | backend/api/inference.py:128-130 | an empty probability vector gives numpy's argmax error; a winning index with no class gives the label encoder's error naming that index |
| `Decision.RejectionIgnoresLabels` | backend/api/inference.py:135-143 | the low-confidence record does not depend on the label names |
| `Decision.ConfidenceInUnitInterval` | backend/api/inference.py:131 | probabilities in [0, 1] give a reported confidence in [0, 1] |
| `Decision.UnclearHealthyScenario` | backend/api/inference.py:146-154 | `Healthy` at 0.55 against Anthracnose at 0.2 is "Unclear Image" |
| `Decision.AnthracnoseScenario` | backend/api/inference.py:157-166 | Anthracnose at 0.85 is a success with the Anthracnose texts |
| `Pipeline.Diagnose` | backend/api/inference.py:119-176 | an extractor exception and a wrong length are errors with their messages; any other outcome comes only from a 512-long embedding the classifier scored, and is the policy's decision on those probabilities |
| `Pipeline.PredictImage` | backend/api/inference.py:112-176 | every call returns a record with status "success", "rejected" or "error"; a non-error record only ever comes from a 512-long embedding |
| `Pipeline.DimensionMismatchIsError` | backend/api/inference.py:168-176 | a wrong-length embedding gives exactly the error record with the mismatch message as cause |
| `Pipeline.MismatchRecordNamesLength` | backend/api/inference.py:106 | two mismatch records are equal only for equal lengths |
| `Pipeline.FaultIsError` | backend/api/inference.py:168-176 | an exception from the extractor or the classifier gives the error record with its text as cause |
| `Pipeline.PredictionFollowsPolicy` | backend/api/inference.py:121-131 | for a 512-long embedding that the classifier scores, the record is the policy's record on those probabilities |
| `Pipeline.PredictedConfidenceInUnitInterval` | backend/api/inference.py:131 | a classifier that yields probabilities in [0, 1] gives a reported confidence in [0, 1] |

## Left out

- Image decoding and resizing (PIL), EfficientNetV2 `preprocess_input`, and running the TFLite interpreter (`backend/api/inference.py:25-29`, `87-103`). These are foreign calls on float tensors. Their result is an input to the model: a vector or the exception raised.
- The fitted scaler, the SVM's `predict_proba` and the label encoder (`backend/api/inference.py:32-39`, `124-130`). These are pickled, foreign floating-point code. They appear as an abstract function and a sequence of labels.
- Decision.UnseenLabelMessage and Decision.EmptyArgMaxMessage: these are the texts of scikit-learn's and numpy's own exceptions. They follow those libraries' wording, and that code is not part of this model.
- Decision.ReportRoundTrip: holds only of the unrounded confidence the model carries. With `round(confidence, 4)`, two outcomes whose confidences round alike (0.85001 and 0.85002) give the same dictionary.
- `round(confidence, 4)` in the three non-error records. It depends on Python float rounding, so the model reports the confidence unrounded. The thresholds are tested on the unrounded value, as in the source.
- Probabilities are exact reals. NaN, infinities and float error are not modelled.
- Whether the classifier's output sums to 1 is not assumed. Only the confidence bound lemmas require probabilities in [0, 1].
- backend/api/main.py, voice.py, start_server.py and the camera and launcher scripts. These are the HTTP layer, text-to-speech, network advertisement, camera capture and UI launchers: I/O, threads and hardware with no decision logic.
