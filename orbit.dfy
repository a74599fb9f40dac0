/** `OrbitAgent.run`: for each detection, derive a sky position from the
    header's linear WCS cards (or draw a random one when a card is missing)
    and attach six random placeholder orbital elements. */
module OrbitAgent {
  import opened Python
  import opened Fits
  import opened NumpyRandom
  import DetectionAgent

  const BadDetectionsText := "Detections must be a list of dictionaries."
  const BadHeaderText := "Header must be an astropy.io.fits.Header object."
  const FailedPrefix := "Orbit estimation failed: "
  /** Stands for the text of the `TypeError` (or, for a string `dec`, the
      `ValueError` of the `:.6f` format) that arithmetic on a string-valued
      WCS card raises; that text depends on the operand types and is not
      modelled. */
  const WcsArithmeticText := "unsupported operand type(s)"

  /** What a caller may pass as `detections`: a list, or some other object,
      which may or may not have a length. */
  datatype DetectionsArg = DetList(items: seq<DetectionAgent.Detection>) | NonList(typeName: string, hasLen: bool)

  /** Placeholder orbital elements: semi-major axis (AU), eccentricity,
      inclination, node, argument of periapsis, mean anomaly (degrees). */
  datatype Elements = Elements(a: real, e: real, i: real, node: real, argPeri: real, meanAnom: real)

  /** One entry of the result: sky position in degrees, elements, and the
      confidence carried over from the detection. */
  datatype OrbitEstimate = OrbitEstimate(ra: real, dec: real, elements: Elements, confidence: real)

  predicate ElementsInRange(el: Elements)
  {
    1.0 <= el.a <= 5.0 && 0.0 <= el.e <= 0.5 && 0.0 <= el.i <= 60.0
    && 0.0 <= el.node <= 360.0 && 0.0 <= el.argPeri <= 360.0 && 0.0 <= el.meanAnom <= 360.0
  }

  /** All six cards the linear approximation looks up are present. */
  predicate HasWcs(h: Header)
  {
    "CRVAL1" in h && "CRVAL2" in h && "CDELT1" in h && "CDELT2" in h && "CRPIX1" in h && "CRPIX2" in h
  }

  /** ... and all six are numbers. */
  predicate NumericWcs(h: Header)
  {
    HasWcs(h)
    && h["CRVAL1"].IsNumber() && h["CRVAL2"].IsNumber() && h["CDELT1"].IsNumber()
    && h["CDELT2"].IsNumber() && h["CRPIX1"].IsNumber() && h["CRPIX2"].IsNumber()
  }

  /** The linear pixel-to-sky step used for both axes: reference value plus
      offset from the reference pixel times the scale. */
  function Linear(crval: real, crpix: real, cdelt: real, p: int): real
  {
    crval + (p as real - crpix) * cdelt
  }

  /** Right ascension of pixel column `x`, brought into `[0, 360)`. */
  function WcsRa(h: Header, x: int): real
    requires NumericWcs(h)
  {
    FloatMod(Linear(h["CRVAL1"].AsReal(), h["CRPIX1"].AsReal(), h["CDELT1"].AsReal(), x), 360.0)
  }

  /** Declination of pixel row `y`; it is not clamped. */
  function WcsDec(h: Header, y: int): real
    requires NumericWcs(h)
  {
    Linear(h["CRVAL2"].AsReal(), h["CRPIX2"].AsReal(), h["CDELT2"].AsReal(), y)
  }

  /** `header.get('DATE', ...)` is followed by `.replace`, which a card that is
      not a string lacks; a string DATE never fails, because a `ValueError`
      while parsing it falls back to the current time. */
  function DateError(h: Header): Option<Exception>
  {
    if "DATE" in h && !h["DATE"].HStr? then Some(AttributeError(NoAttribute(h["DATE"].TypeName(), "replace")))
    else None
  }

  /** What processing one detection raises, in the order the loop body does
      it: `x` and `y` in the debug line, the WCS arithmetic (a missing card is
      not an error: it selects the random fallback), then `confidence`. */
  function EntryError(d: DetectionAgent.Detection, h: Header): (e: Option<Exception>)
    ensures e.None? ==> d.Complete()
  {
    if d.x.None? then Some(KeyError("x"))
    else if d.y.None? then Some(KeyError("y"))
    else if HasWcs(h) && !NumericWcs(h) then Some(TypeError(WcsArithmeticText))
    else if d.confidence.None? then Some(KeyError("confidence"))
    else None
  }

  /** The exception of the first detection that raises one. */
  function FirstEntryError(ds: seq<DetectionAgent.Detection>, h: Header): Option<Exception>
  {
    if ds == [] then None
    else if EntryError(ds[0], h).Some? then EntryError(ds[0], h)
    else FirstEntryError(ds[1..], h)
  }

  /** The estimate for a detection that raised nothing: confidence carried
      over, position from the WCS cards when all six are present, otherwise
      drawn from the whole sky. */
  predicate EntryAllowed(d: DetectionAgent.Detection, h: Header, o: OrbitEstimate)
    requires d.Complete()
  {
    o.confidence == d.confidence.value
    && ElementsInRange(o.elements)
    && if HasWcs(h) then
         NumericWcs(h) && o.ra == WcsRa(h, d.x.value) && o.dec == WcsDec(h, d.y.value)
       else
         0.0 <= o.ra <= 360.0 && -90.0 <= o.dec <= 90.0
  }

  /** The outcomes `run` can have. `len(detections)` in the opening log line
      comes first; then the list check, then the header check, then the
      empty-list return; inside the `try` every failure is re-raised as
      `RuntimeError`. */
  predicate Allowed(dets: DetectionsArg, header: HeaderArg, r: Result<seq<OrbitEstimate>>)
  {
    match dets
    case NonList(t, hasLen) =>
      r == Raise(if hasLen then ValueError(BadDetectionsText) else TypeError(NoLength(t)))
    case DetList(ds) =>
      match header
      case NonHeader(_) => r == Raise(ValueError(BadHeaderText))
      case FitsHeader(h) =>
        if ds == [] then r == Ok([])
        else if DateError(h).Some? then r == Raise(RuntimeError(FailedPrefix + DateError(h).value.Str()))
        else if FirstEntryError(ds, h).Some? then
          r == Raise(RuntimeError(FailedPrefix + FirstEntryError(ds, h).value.Str()))
        else
          r.Ok? && |r.value| == |ds|
          && forall i :: 0 <= i < |ds| ==> ds[i].Complete() && EntryAllowed(ds[i], h, r.value[i])
  }

  /** When detections before index `i` raise nothing, the first error of the
      list is that of detection `i` (or none, at the end of the list). */
  lemma {:induction false} FirstEntryErrorAt(ds: seq<DetectionAgent.Detection>, h: Header, i: nat)
    requires i <= |ds|
    requires forall j :: 0 <= j < i ==> EntryError(ds[j], h).None?
    requires i < |ds| ==> EntryError(ds[i], h).Some?
    ensures FirstEntryError(ds, h) == if i < |ds| then EntryError(ds[i], h) else None
  {
    if ds != [] && i > 0 {
      FirstEntryErrorAt(ds[1..], h, i - 1);
    }
  }

  /** The body of the loop for one detection: its estimate, or what it raises
      before the wrapping `except`. */
  method Estimate(det: DetectionAgent.Detection, h: Header) returns (r: Result<OrbitEstimate>)
    ensures r.Raise? <==> EntryError(det, h).Some?
    ensures r.Raise? ==> r.error == EntryError(det, h).value
    ensures r.Ok? ==> det.Complete() && EntryAllowed(det, h, r.value)
  {
    // the debug line reads x, then y
    if det.x.None? {
      r := Raise(KeyError("x"));
      return;
    }
    if det.y.None? {
      r := Raise(KeyError("y"));
      return;
    }
    var raDeg, decDeg;
    if HasWcs(h) {
      if !NumericWcs(h) {
        r := Raise(TypeError(WcsArithmeticText));
        return;
      }
      var crval1, crval2 := h["CRVAL1"].AsReal(), h["CRVAL2"].AsReal();
      var cdelt1, cdelt2 := h["CDELT1"].AsReal(), h["CDELT2"].AsReal();
      var crpix1, crpix2 := h["CRPIX1"].AsReal(), h["CRPIX2"].AsReal();
      raDeg := Linear(crval1, crpix1, cdelt1, det.x.value);
      decDeg := Linear(crval2, crpix2, cdelt2, det.y.value);
      raDeg := FloatMod(raDeg, 360.0);
      if raDeg < 0.0 {
        raDeg := raDeg + 360.0;
      }
    } else {
      // a card is missing (KeyError): draw a position instead
      raDeg := Uniform(0.0, 360.0);
      decDeg := Uniform(-90.0, 90.0);
    }
    var a := Uniform(1.0, 5.0);
    var e := Uniform(0.0, 0.5);
    var incl := Uniform(0.0, 60.0);
    var node := Uniform(0.0, 360.0);
    var argPeri := Uniform(0.0, 360.0);
    var meanAnom := Uniform(0.0, 360.0);
    if det.confidence.None? {
      r := Raise(KeyError("confidence"));
      return;
    }
    r := Ok(OrbitEstimate(raDeg, decDeg, Elements(a, e, incl, node, argPeri, meanAnom), det.confidence.value));
  }

  /** The agent as written. */
  method Run(dets: DetectionsArg, header: HeaderArg) returns (r: Result<seq<OrbitEstimate>>)
    ensures Allowed(dets, header, r)
  {
    if dets.NonList? {
      r := Raise(if dets.hasLen then ValueError(BadDetectionsText) else TypeError(NoLength(dets.typeName)));
      return;
    }
    if header.NonHeader? {
      r := Raise(ValueError(BadHeaderText));
      return;
    }
    var detections, h := dets.items, header.cards;
    var orbitalElements: seq<OrbitEstimate> := [];
    if detections == [] {
      r := Ok([]);
      return;
    }
    // try:
    if "DATE" in h && !h["DATE"].HStr? {
      r := Raise(RuntimeError(FailedPrefix + NoAttribute(h["DATE"].TypeName(), "replace")));
      return;
    }
    for i := 0 to |detections|
      invariant |orbitalElements| == i
      invariant forall j :: 0 <= j < i ==> EntryError(detections[j], h).None?
      invariant forall j :: 0 <= j < i ==>
                  detections[j].Complete() && EntryAllowed(detections[j], h, orbitalElements[j])
    {
      var estimate := Estimate(detections[i], h);
      if estimate.Raise? {
        FirstEntryErrorAt(detections, h, i);
        r := Raise(RuntimeError(FailedPrefix + estimate.error.Str()));
        return;
      }
      orbitalElements := orbitalElements + [estimate.value];
    }
    FirstEntryErrorAt(detections, h, |detections|);
    r := Ok(orbitalElements);
  }

  /** The header check comes before the empty-list return: an empty list with
      a bad header raises, with a good header it yields `[]`. */
  lemma EmptyDetections(header: HeaderArg, r: Result<seq<OrbitEstimate>>)
    requires Allowed(DetList([]), header, r)
    ensures header.FitsHeader? ==> r == Ok([])
    ensures header.NonHeader? ==> r == Raise(ValueError(BadHeaderText))
  {
  }

  /** Every right ascension the agent reports lies in `[0, 360]`, and in
      `[0, 360)` on the WCS path: the `ra_deg < 0` correction never fires,
      because the float `%` is already non-negative. */
  lemma RaInRange(ds: seq<DetectionAgent.Detection>, h: Header, os: seq<OrbitEstimate>)
    requires Allowed(DetList(ds), FitsHeader(h), Ok(os))
    ensures forall o <- os :: 0.0 <= o.ra <= 360.0
    ensures HasWcs(h) ==> forall o <- os :: 0.0 <= o.ra < 360.0
  {
    forall o | o in os
      ensures 0.0 <= o.ra <= 360.0
      ensures HasWcs(h) ==> o.ra < 360.0
    {
      var i :| 0 <= i < |os| && os[i] == o;
      assert EntryAllowed(ds[i], h, os[i]);
    }
  }

  /** A detection lacking a key fails the whole call, even when the WCS cards
      are missing and the position would have been drawn at random. */
  lemma MissingKeyFailsRun(ds: seq<DetectionAgent.Detection>, h: Header, k: nat, r: Result<seq<OrbitEstimate>>)
    requires k < |ds| && !ds[k].Complete()
    requires Allowed(DetList(ds), FitsHeader(h), r)
    ensures r.Raise? && r.error.RuntimeError?
  {
    if DateError(h).None? && FirstEntryError(ds, h).None? {
      NoFirstErrorMeansNone(ds, h, k);
    }
  }

  lemma {:induction false} NoFirstErrorMeansNone(ds: seq<DetectionAgent.Detection>, h: Header, k: nat)
    requires k < |ds| && FirstEntryError(ds, h).None?
    ensures EntryError(ds[k], h).None?
  {
    if k > 0 {
      NoFirstErrorMeansNone(ds[1..], h, k - 1);
    }
  }

  /** Given a list and a header, every failure happens inside the `try`, so
      it surfaces as a `RuntimeError` whose text starts with the agent's
      prefix. */
  lemma FailureOnList(ds: seq<DetectionAgent.Detection>, h: Header, r: Result<seq<OrbitEstimate>>)
    requires Allowed(DetList(ds), FitsHeader(h), r) && r.Raise?
    ensures r.error.RuntimeError? && r.error.msg[..|FailedPrefix|] == FailedPrefix
  {
  }
}
