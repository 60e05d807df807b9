/**
  The recognition pipeline: one prediction per detected face, in the order the
  detector emitted the faces.

  The cascade detector and the classifier (resize, normalise, forward pass,
  softmax, argmax/max) are outside the model. The detector's output is the
  input sequence of boxes; the classifier is an arbitrary function from the
  crop window it is shown to a (label, confidence) pair, the frame being fixed
  for the duration of one call.
 */
module Recognition {
  import opened Crop

  /** The classifier's top label and its confidence. */
  datatype Prediction = Prediction(labelIndex: int, confidence: real)

  /** The per-face loop: crop each detection and classify the crop, appending in order. */
  function Recognize(faces: seq<Box>, classify: Window -> Prediction): (results: seq<Prediction>)
    ensures |results| == |faces|
    ensures forall i :: 0 <= i < |faces| ==> results[i] == classify(CropWindow(faces[i]))
  {
    if |faces| == 0 then []
    else Recognize(faces[..|faces| - 1], classify) + [classify(CropWindow(faces[|faces| - 1]))]
  }

  /** Faces are handled independently: recognising two runs of detections back to back is recognising their concatenation. */
  lemma RecognizeConcat(a: seq<Box>, b: seq<Box>, classify: Window -> Prediction)
    ensures Recognize(a + b, classify) == Recognize(a, classify) + Recognize(b, classify)
  {
  }
}
