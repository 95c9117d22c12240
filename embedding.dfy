/** The dimension gate of `extract_embedding` (backend/api/inference.py). */
module Embedding {
  import opened Outcomes
  import Decimal

  /** The embedding length the classifier was trained on. */
  const EmbDim: nat := 512

  /** The text of the `ValueError` raised for a vector of length `n`. */
  function MismatchMessage(n: nat): string {
    "Embedding dim mismatch: " + Decimal.Format(n) + " != " + Decimal.Format(EmbDim)
  }

  /** The trained dimension prints as `512`. */
  lemma MismatchMessageShape(n: nat)
    ensures MismatchMessage(n) == "Embedding dim mismatch: " + Decimal.Format(n) + " != 512"
  {
    assert Decimal.Format(EmbDim) == Decimal.Format(51) + ['2'];
    assert Decimal.Format(51) == Decimal.Format(5) + ['1'];
  }

  /** The mismatch message names the offending length: different lengths give different messages. */
  lemma MismatchMessageNamesLength(m: nat, n: nat)
    requires MismatchMessage(m) == MismatchMessage(n)
    ensures m == n
  {
    var prefix, suffix := "Embedding dim mismatch: ", " != " + Decimal.Format(EmbDim);
    var a, b := MismatchMessage(m), MismatchMessage(n);
    assert a == prefix + Decimal.Format(m) + suffix;
    assert b == prefix + Decimal.Format(n) + suffix;
    assert a[|prefix|..|a| - |suffix|] == Decimal.Format(m);
    assert b[|prefix|..|b| - |suffix|] == Decimal.Format(n);
    Decimal.FormatInjective(m, n);
  }

  /** `extract_embedding` after the interpreter has run: `tensor` is the flattened output
      tensor, or the exception raised while opening, preprocessing or running the image.
      A vector of the wrong length is never reshaped: it becomes the mismatch error. */
  function ExtractEmbedding(tensor: Result<seq<real>>): (r: Result<seq<real>>)
    ensures r.Ok? <==> tensor.Ok? && |tensor.value| == EmbDim
    ensures r.Ok? ==> r.value == tensor.value
    ensures tensor.Raised? ==> r == tensor
    ensures tensor.Ok? && |tensor.value| != EmbDim ==> r == Raised(MismatchMessage(|tensor.value|))
  {
    match tensor
    case Raised(m) => Raised(m)
    case Ok(emb) =>
      if |emb| != EmbDim then Raised(MismatchMessage(|emb|)) else Ok(emb)
  }
}
