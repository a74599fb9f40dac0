/** `CalibrationAgent.run`: validate the image, then write a fixed, fake WCS
    solution into a copy of its header. The pixel data passes through. */
module CalibrationAgent {
  import opened Python
  import opened Fits

  const BadPixelsText := "Pixel data must be a 2D numpy array."
  const BadHeaderText := "Header must be an astropy.io.fits.Header object."

  /** The keywords the agent writes. */
  const CalibrationKeys: set<string> :=
    {"WCSAXES", "CRPIX1", "CRPIX2", "CRVAL1", "CRVAL2", "CDELT1", "CDELT2",
     "CTYPE1", "CTYPE2", "PC1_1", "PC1_2", "PC2_1", "PC2_2", "CALIB"}

  /** The cards of the fake WCS solution for an image of `rows` by `cols`
      pixels: the reference pixel at the image centre, fixed reference
      coordinates and scale, and an identity PC matrix. */
  function FakeWcs(rows: nat, cols: nat): Header
  {
    map[
      "WCSAXES" := HInt(2),
      "CRPIX1" := HReal(cols as real / 2.0),
      "CRPIX2" := HReal(rows as real / 2.0),
      "CRVAL1" := HReal(200.0),
      "CRVAL2" := HReal(30.0),
      "CDELT1" := HReal(-0.0001),
      "CDELT2" := HReal(0.0001),
      "CTYPE1" := HStr("RA---TAN"),
      "CTYPE2" := HStr("DEC--TAN"),
      "PC1_1" := HReal(1.0),
      "PC1_2" := HReal(0.0),
      "PC2_1" := HReal(0.0),
      "PC2_2" := HReal(1.0),
      "CALIB" := HStr("FAKE_WCS")
    ]
  }

  /** What `run` returns or raises. The `pixel_data.shape` in the opening log
      line is evaluated before any check, so an argument without a `shape`
      raises `AttributeError`; then a non-2-D argument raises `ValueError`,
      then a non-header does. */
  function Calibrated(pixels: PixelArg, header: HeaderArg): (r: Result<Image>)
    ensures r.Ok? <==> pixels.Array? && |pixels.nd.shape| == 2 && header.FitsHeader?
    // the pixel check comes before the header check
    ensures pixels.NonArray? && pixels.hasShape ==> r == Raise(ValueError(BadPixelsText))
    ensures pixels.Array? && |pixels.nd.shape| != 2 ==> r == Raise(ValueError(BadPixelsText))
    ensures pixels.Array? && |pixels.nd.shape| == 2 && header.NonHeader? ==>
              r == Raise(ValueError(BadHeaderText))
    // the pixel data is returned as it came
    ensures r.Ok? ==> r.value.data == pixels.nd
    // the header gains exactly the calibration keywords
    ensures r.Ok? ==> r.value.header.Keys == header.cards.Keys + CalibrationKeys
  {
    match pixels
    case NonArray(t, hasShape) =>
      if hasShape then Raise(ValueError(BadPixelsText))
      else Raise(AttributeError(NoAttribute(t, "shape")))
    case Array(a) =>
      if |a.shape| != 2 then Raise(ValueError(BadPixelsText))
      else
        match header
        case NonHeader(_) => Raise(ValueError(BadHeaderText))
        case FitsHeader(h) => Ok(Image(a, h + FakeWcs(a.shape[0], a.shape[1])))
  }

  /** The agent as written: validate, copy the header, then assign the
      fourteen cards one after another to the copy. */
  method Run(pixels: PixelArg, header: HeaderArg) returns (r: Result<Image>)
    ensures r == Calibrated(pixels, header)
  {
    if pixels.NonArray? && !pixels.hasShape {
      r := Raise(AttributeError(NoAttribute(pixels.typeName, "shape")));
      return;
    }
    if !pixels.Array? || |pixels.nd.shape| != 2 {
      r := Raise(ValueError(BadPixelsText));
      return;
    }
    if !header.FitsHeader? {
      r := Raise(ValueError(BadHeaderText));
      return;
    }
    var pixelData := pixels.nd;
    var rows, cols := pixelData.shape[0], pixelData.shape[1];
    var calibrated := header.cards;
    calibrated := calibrated["WCSAXES" := HInt(2)];
    calibrated := calibrated["CRPIX1" := HReal(cols as real / 2.0)];
    calibrated := calibrated["CRPIX2" := HReal(rows as real / 2.0)];
    calibrated := calibrated["CRVAL1" := HReal(200.0)];
    calibrated := calibrated["CRVAL2" := HReal(30.0)];
    calibrated := calibrated["CDELT1" := HReal(-0.0001)];
    calibrated := calibrated["CDELT2" := HReal(0.0001)];
    calibrated := calibrated["CTYPE1" := HStr("RA---TAN")];
    calibrated := calibrated["CTYPE2" := HStr("DEC--TAN")];
    calibrated := calibrated["PC1_1" := HReal(1.0)];
    calibrated := calibrated["PC1_2" := HReal(0.0)];
    calibrated := calibrated["PC2_1" := HReal(0.0)];
    calibrated := calibrated["PC2_2" := HReal(1.0)];
    calibrated := calibrated["CALIB" := HStr("FAKE_WCS")];
    assert calibrated == header.cards + FakeWcs(rows, cols);
    r := Ok(Image(pixelData, calibrated));
  }

  /** Every card of the input header that the agent does not write keeps its
      value; every card it writes has the fake solution's value. */
  lemma CalibrationKeepsOtherCards(pixels: NdArray, h: Header, k: string)
    requires |pixels.shape| == 2
    ensures var r := Calibrated(Array(pixels), FitsHeader(h));
            r.Ok?
            && (k in h && k !in CalibrationKeys ==> k in r.value.header && r.value.header[k] == h[k])
            && (k in CalibrationKeys ==> r.value.header[k] == FakeWcs(pixels.shape[0], pixels.shape[1])[k])
  {
  }

  /** A header holding the six cards the orbit agent reads, with the values
      of the fake solution for a `rows` by `cols` image. */
  predicate HasFakeWcs(c: Header, rows: nat, cols: nat)
  {
    "CRVAL1" in c && c["CRVAL1"] == HReal(200.0) && "CRVAL2" in c && c["CRVAL2"] == HReal(30.0)
    && "CDELT1" in c && c["CDELT1"] == HReal(-0.0001) && "CDELT2" in c && c["CDELT2"] == HReal(0.0001)
    && "CRPIX1" in c && c["CRPIX1"] == HReal(cols as real / 2.0)
    && "CRPIX2" in c && c["CRPIX2"] == HReal(rows as real / 2.0)
  }

  /** The calibrated header carries the six numeric cards the orbit agent
      reads, with the reference pixel at the image centre. */
  lemma CalibratedWcs(pixels: NdArray, h: Header)
    requires |pixels.shape| == 2
    ensures var r := Calibrated(Array(pixels), FitsHeader(h));
            r.Ok? && HasFakeWcs(r.value.header, pixels.shape[0], pixels.shape[1])
  {
  }
}
