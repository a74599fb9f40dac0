/** `DetectionAgent`: run the CNN on the image, then report between one and
    four random "hot spots" inside it. The network's output is never read,
    so the detections depend on the image's shape alone. */
module DetectionAgent {
  import opened Python
  import opened Fits
  import opened NumpyRandom

  const BadPixelsText := "Pixel data must be a 2D numpy array."
  const FailedPrefix := "Detection failed: "
  const LoadFailedPrefix := "Could not load detection model: "

  /** One detection, a dictionary with keys `x`, `y` and `confidence`; a key
      may be missing from a dictionary some other caller builds. */
  datatype Detection = Detection(x: Option<int>, y: Option<int>, confidence: Option<real>)
  {
    predicate Complete()
    {
      x.Some? && y.Some? && confidence.Some?
    }
  }

  /** How preprocessing and the forward pass of the CNN end: the conversion to
      a contiguous float32 array, the tensor and the inference are PyTorch and
      numpy code outside this model, so only whether they raise is modelled. */
  datatype ModelOutcome = ForwardPassOk | ForwardPassRaised(error: Exception)

  /** The constructor's `_load_model`: a failure to build the model is
      re-raised as `RuntimeError`. */
  function InitError(modelLoad: Option<Exception>): (r: Option<Exception>)
    ensures r.Some? <==> modelLoad.Some?
    ensures r.Some? ==> r.value.RuntimeError? && r.value.msg == LoadFailedPrefix + modelLoad.value.Str()
  {
    match modelLoad
    case None => None
    case Some(e) => Some(RuntimeError(LoadFailedPrefix + e.Str()))
  }

  /** A complete detection at a pixel of a `rows` by `cols` image, with a
      confidence drawn from `[0.7, 0.99]`. */
  predicate InImage(d: Detection, rows: int, cols: int)
  {
    d.Complete()
    && 0 <= d.x.value < cols && 0 <= d.y.value < rows
    && 0.7 <= d.confidence.value <= 0.99
  }

  /** The outcomes `run` can have. The log line's `pixel_data.shape` is
      evaluated first; then the 2-D check; an invalid header only logs a
      warning; everything inside the `try` is wrapped as `RuntimeError`,
      including numpy's `ValueError` for `randint(0, 0)` that an image with
      no rows or no columns would meet if the forward pass let it through. */
  predicate Allowed(pixels: PixelArg, model: ModelOutcome, r: Result<seq<Detection>>)
  {
    match pixels
    case NonArray(t, hasShape) =>
      r == Raise(if hasShape then ValueError(BadPixelsText) else AttributeError(NoAttribute(t, "shape")))
    case Array(a) =>
      if |a.shape| != 2 then r == Raise(ValueError(BadPixelsText))
      else if model.ForwardPassRaised? then r == Raise(RuntimeError(FailedPrefix + model.error.Str()))
      else if a.shape[0] == 0 || a.shape[1] == 0 then
        r == Raise(RuntimeError(FailedPrefix + ValueError(EmptyRangeText(0)).Str()))
      else
        r.Ok? && 1 <= |r.value| <= 4
        && forall d <- r.value :: InImage(d, a.shape[0], a.shape[1])
  }

  /** The agent as written. `header` is accepted and, when it is not a FITS
      header, only warned about: `Allowed` does not mention it. */
  method Run(pixels: PixelArg, header: HeaderArg, model: ModelOutcome) returns (r: Result<seq<Detection>>)
    ensures Allowed(pixels, model, r)
  {
    if pixels.NonArray? {
      r := Raise(if pixels.hasShape then ValueError(BadPixelsText)
                 else AttributeError(NoAttribute(pixels.typeName, "shape")));
      return;
    }
    var shape := pixels.nd.shape;
    if |shape| != 2 {
      r := Raise(ValueError(BadPixelsText));
      return;
    }
    // try:
    if model.ForwardPassRaised? {
      r := Raise(RuntimeError(FailedPrefix + model.error.Str()));
      return;
    }
    var count := RandInt(1, 5);
    var detections: seq<Detection> := [];
    for i := 0 to count.value
      invariant |detections| == i
      invariant forall d <- detections :: InImage(d, shape[0], shape[1])
    {
      var x := RandInt(0, shape[1]);
      if x.Raise? {
        r := Raise(RuntimeError(FailedPrefix + x.error.Str()));
        return;
      }
      var y := RandInt(0, shape[0]);
      if y.Raise? {
        r := Raise(RuntimeError(FailedPrefix + y.error.Str()));
        return;
      }
      var confidence := Uniform(0.7, 0.99);
      detections := detections + [Detection(Some(x.value), Some(y.value), Some(confidence))];
    }
    // at least one detection was drawn, so neither dimension is zero
    assert InImage(detections[0], shape[0], shape[1]);
    r := Ok(detections);
  }

  /** The outcomes allowed for an image depend on its shape only: not on its
      pixel values. */
  lemma OnlyShapeMatters(a: NdArray, b: NdArray, model: ModelOutcome, r: Result<seq<Detection>>)
    requires a.shape == b.shape
    requires Allowed(Array(a), model, r)
    ensures Allowed(Array(b), model, r)
  {
  }

  /** Every successful run reports one to four complete, in-bounds detections:
      `randint(1, 5)` excludes 5. */
  lemma SuccessfulDetections(a: NdArray, model: ModelOutcome, r: Result<seq<Detection>>)
    requires Allowed(Array(a), model, r) && r.Ok?
    ensures |a.shape| == 2 && a.shape[0] > 0 && a.shape[1] > 0 && model.ForwardPassOk?
    ensures 1 <= |r.value| <= 4
    ensures forall i :: 0 <= i < |r.value| ==>
              (r.value[i].Complete()
               && 0 <= r.value[i].x.value < a.shape[1]
               && 0 <= r.value[i].y.value < a.shape[0])
  {
    forall i | 0 <= i < |r.value|
      ensures r.value[i].Complete()
              && 0 <= r.value[i].x.value < a.shape[1]
              && 0 <= r.value[i].y.value < a.shape[0]
    {
      assert InImage(r.value[i], a.shape[0], a.shape[1]);
    }
  }

  /** On a 2-D array every failure happens inside the `try`, so it surfaces
      as a `RuntimeError` whose text starts with the agent's prefix. */
  lemma FailureOnImage(a: NdArray, model: ModelOutcome, r: Result<seq<Detection>>)
    requires Allowed(Array(a), model, r) && |a.shape| == 2 && r.Raise?
    ensures r.error.RuntimeError? && r.error.msg[..|FailedPrefix|] == FailedPrefix
  {
  }
}
