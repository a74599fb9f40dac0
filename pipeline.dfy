/** `run_asteroid_detection_pipeline`: build the four agents, run them in the
    order ingest, calibrate, detect, orbit, each on the previous one's
    output, and collect what they produce in a results dictionary. Any
    exception ends the run and is turned into a failure record. */
module Pipeline {
  import opened Python
  import opened Fits
  import IngestAgent
  import CalibrationAgent
  import DetectionAgent
  import OrbitAgent

  datatype Stage = IngestStage | CalibrationStage | DetectionStage | OrbitStage

  const StageOrder: seq<Stage> := [IngestStage, CalibrationStage, DetectionStage, OrbitStage]

  /** A value stored in the results dictionary. */
  datatype RVal =
    | HeaderV(header: Header)
    | DetectionsV(detections: seq<DetectionAgent.Detection>)
    | OrbitsV(orbits: seq<OrbitAgent.OrbitEstimate>)
    | StrV(s: string)

  type Results = map<string, RVal>

  const SuccessKeys: set<string> := {"ingested_header", "calibrated_header", "detections", "orbital_elements"}
  const NotFoundText := "File not found"

  /** What the run depends on besides the path: the files on disk, whether
      the detection agent's model and the orbit agent's ephemeris load (or
      what they raise), and how the CNN's forward pass ends. */
  datatype Env = Env(
    files: FileStore,
    modelLoad: Option<Exception>,
    ephemerisLoad: Option<Exception>,
    forwardPass: DetectionAgent.ModelOutcome)

  /** Building the agents: the ingest and calibration agents only set up a
      logger; the detection agent can fail to load its model, and after it
      the orbit agent can fail to load the ephemeris, raising whatever
      Skyfield raised. */
  function AgentsError(env: Env): (e: Option<Exception>)
    ensures e.None? <==> env.modelLoad.None? && env.ephemerisLoad.None?
    ensures env.modelLoad.Some? ==> e == DetectionAgent.InitError(env.modelLoad)
  {
    var detectionError := DetectionAgent.InitError(env.modelLoad);
    if detectionError.Some? then detectionError else env.ephemerisLoad
  }

  /** The `error` text of a failure record: a fixed text for
      `FileNotFoundError`, `str(e)` for anything else. */
  function ErrorText(e: Exception): string
  {
    if e.FileNotFoundError? then NotFoundText else e.Str()
  }

  /** What the `except` clauses return; partial results are dropped. */
  function FailureRecord(e: Exception): Results
  {
    map["status" := StrV("failed"), "error" := StrV(ErrorText(e))]
  }

  function SuccessRecord(ingested: Header, calibrated: Header, ds: seq<DetectionAgent.Detection>,
                         os: seq<OrbitAgent.OrbitEstimate>): Results
  {
    map["ingested_header" := HeaderV(ingested), "calibrated_header" := HeaderV(calibrated),
        "detections" := DetectionsV(ds), "orbital_elements" := OrbitsV(os)]
  }

  /** The runs the pipeline can make, with the stages it invokes. Each stage
      gets the previous stage's output; the first exception fixes the result
      and no later stage is invoked. Detection and orbit estimation draw
      random values, so their outcome is any one their agent allows. */
  ghost predicate PipelineAllowed(path: PathArg, env: Env, results: Results, stages: seq<Stage>)
  {
    match AgentsError(env)
    case Some(e) => stages == [] && results == FailureRecord(e)
    case None =>
      match IngestAgent.Run(env.files, path)
      case Raise(e) => stages == StageOrder[..1] && results == FailureRecord(e)
      case Ok(ingested) => AfterIngest(ingested, env.forwardPass, results, stages)
  }

  /** The rest of a run once ingestion returned `ingested`. */
  ghost predicate AfterIngest(ingested: Image, forwardPass: DetectionAgent.ModelOutcome,
                              results: Results, stages: seq<Stage>)
  {
    match CalibrationAgent.Calibrated(Array(ingested.data), FitsHeader(ingested.header))
    case Raise(e) => stages == StageOrder[..2] && results == FailureRecord(e)
    case Ok(calibrated) =>
      exists det ::
        DetectionAgent.Allowed(Array(calibrated.data), forwardPass, det)
        && AfterDetection(ingested.header, calibrated.header, det, results, stages)
  }

  /** The rest of a run once detection ended with `det`. */
  ghost predicate AfterDetection(ingested: Header, calibrated: Header, det: Result<seq<DetectionAgent.Detection>>,
                                 results: Results, stages: seq<Stage>)
  {
    match det
    case Raise(e) => stages == StageOrder[..3] && results == FailureRecord(e)
    case Ok(ds) =>
      stages == StageOrder
      && exists orb ::
           OrbitAgent.Allowed(OrbitAgent.DetList(ds), FitsHeader(calibrated), orb)
           && AfterOrbit(ingested, calibrated, ds, orb, results)
  }

  /** The result once orbit estimation ended with `orb`. */
  predicate AfterOrbit(ingested: Header, calibrated: Header, ds: seq<DetectionAgent.Detection>,
                       orb: Result<seq<OrbitAgent.OrbitEstimate>>, results: Results)
  {
    match orb
    case Raise(e) => results == FailureRecord(e)
    case Ok(os) => results == SuccessRecord(ingested, calibrated, ds, os)
  }

  /** The pipeline as written: `pipelineResults` is filled in place, one key
      after each stage; `stages` records the stages invoked. */
  method RunAsteroidDetectionPipeline(path: PathArg, env: Env)
    returns (pipelineResults: Results, ghost stages: seq<Stage>)
    ensures PipelineAllowed(path, env, pipelineResults, stages)
    // the caller reads a missing `status` as success
    ensures "status" in pipelineResults ==>
              pipelineResults.Keys == {"status", "error"} && pipelineResults["status"] == StrV("failed")
    ensures "status" !in pipelineResults ==> pipelineResults.Keys == SuccessKeys
  {
    pipelineResults := map[];
    stages := [];
    // try: build the agents
    var agentsError := AgentsError(env);
    if agentsError.Some? {
      pipelineResults := FailureRecord(agentsError.value);
      FailureRecordFields(agentsError.value);
      return;
    }

    stages := StageOrder[..1];
    var ingested := IngestAgent.Run(env.files, path);
    if ingested.Raise? {
      pipelineResults := FailureRecord(ingested.error);
      FailureRecordFields(ingested.error);
      return;
    }
    var pixelData, header := ingested.value.data, ingested.value.header;
    pipelineResults := pipelineResults["ingested_header" := HeaderV(header)];

    stages := StageOrder[..2];
    var calibrated := CalibrationAgent.Run(Array(pixelData), FitsHeader(header));
    if calibrated.Raise? {
      pipelineResults := FailureRecord(calibrated.error);
      FailureRecordFields(calibrated.error);
      FromIngest(path, env, ingested.value, pipelineResults, stages);
      return;
    }
    var calibratedPixelData, calibratedHeader := calibrated.value.data, calibrated.value.header;
    pipelineResults := pipelineResults["calibrated_header" := HeaderV(calibratedHeader)];

    stages := StageOrder[..3];
    var detections := DetectionAgent.Run(Array(calibratedPixelData), FitsHeader(calibratedHeader), env.forwardPass);
    if detections.Raise? {
      pipelineResults := FailureRecord(detections.error);
      FailureRecordFields(detections.error);
      FromCalibration(ingested.value, env.forwardPass, calibrated.value, detections, pipelineResults, stages);
      FromIngest(path, env, ingested.value, pipelineResults, stages);
      return;
    }
    pipelineResults := pipelineResults["detections" := DetectionsV(detections.value)];
    // The log loop reads det['x'], det['y'] and det['confidence']: never a KeyError here.
    DetectionAgent.SuccessfulDetections(calibratedPixelData, env.forwardPass, detections);
    assert forall det <- detections.value :: det.Complete();

    stages := StageOrder;
    var orbitalElements := OrbitAgent.Run(OrbitAgent.DetList(detections.value), FitsHeader(calibratedHeader));
    if orbitalElements.Raise? {
      pipelineResults := FailureRecord(orbitalElements.error);
      FailureRecordFields(orbitalElements.error);
    } else {
      pipelineResults := pipelineResults["orbital_elements" := OrbitsV(orbitalElements.value)];
      assert pipelineResults == SuccessRecord(header, calibratedHeader, detections.value, orbitalElements.value);
      SuccessRecordFields(header, calibratedHeader, detections.value, orbitalElements.value);
    }
    FromDetection(header, calibratedHeader, detections.value, orbitalElements, pipelineResults, stages);
    FromCalibration(ingested.value, env.forwardPass, calibrated.value, detections, pipelineResults, stages);
    FromIngest(path, env, ingested.value, pipelineResults, stages);
  }

  // The three steps that assemble `PipelineAllowed` from the outcome of each stage.

  lemma FromIngest(path: PathArg, env: Env, ingested: Image, results: Results, stages: seq<Stage>)
    requires AgentsError(env).None? && IngestAgent.Run(env.files, path) == Ok(ingested)
    requires AfterIngest(ingested, env.forwardPass, results, stages)
    ensures PipelineAllowed(path, env, results, stages)
  {
  }

  lemma FromCalibration(ingested: Image, forwardPass: DetectionAgent.ModelOutcome, calibrated: Image,
                        det: Result<seq<DetectionAgent.Detection>>, results: Results, stages: seq<Stage>)
    requires CalibrationAgent.Calibrated(Array(ingested.data), FitsHeader(ingested.header)) == Ok(calibrated)
    requires DetectionAgent.Allowed(Array(calibrated.data), forwardPass, det)
    requires AfterDetection(ingested.header, calibrated.header, det, results, stages)
    ensures AfterIngest(ingested, forwardPass, results, stages)
  {
  }

  lemma FromDetection(ingested: Header, calibrated: Header, ds: seq<DetectionAgent.Detection>,
                      orb: Result<seq<OrbitAgent.OrbitEstimate>>, results: Results, stages: seq<Stage>)
    requires stages == StageOrder
    requires OrbitAgent.Allowed(OrbitAgent.DetList(ds), FitsHeader(calibrated), orb)
    requires AfterOrbit(ingested, calibrated, ds, orb, results)
    ensures AfterDetection(ingested, calibrated, Ok(ds), results, stages)
  {
  }

  /** The two dictionaries a run can end in: the failure record, with
      exactly `status` and `error`, or the four stage outputs after all four
      stages ran; a run cut short always reports `status`. */
  predicate WellShaped(results: Results, stages: seq<Stage>)
  {
    stages <= StageOrder
    && (("status" in results && results.Keys == {"status", "error"} && results["status"] == StrV("failed"))
        || (stages == StageOrder && results.Keys == SuccessKeys))
    && (|stages| < |StageOrder| ==> "status" in results)
  }

  lemma AfterDetectionShape(ingested: Header, calibrated: Header, det: Result<seq<DetectionAgent.Detection>>,
                            results: Results, stages: seq<Stage>)
    requires AfterDetection(ingested, calibrated, det, results, stages)
    ensures WellShaped(results, stages)
  {
    if det.Ok? {
      var orb: Result<seq<OrbitAgent.OrbitEstimate>> :|
        OrbitAgent.Allowed(OrbitAgent.DetList(det.value), FitsHeader(calibrated), orb)
        && AfterOrbit(ingested, calibrated, det.value, orb, results);
    }
  }

  lemma AfterIngestShape(ingested: Image, forwardPass: DetectionAgent.ModelOutcome,
                         results: Results, stages: seq<Stage>)
    requires AfterIngest(ingested, forwardPass, results, stages)
    ensures WellShaped(results, stages)
  {
    var c := CalibrationAgent.Calibrated(Array(ingested.data), FitsHeader(ingested.header));
    if c.Ok? {
      var det: Result<seq<DetectionAgent.Detection>> :|
        DetectionAgent.Allowed(Array(c.value.data), forwardPass, det)
        && AfterDetection(ingested.header, c.value.header, det, results, stages);
      AfterDetectionShape(ingested.header, c.value.header, det, results, stages);
    }
  }

  /** Every run ends in one of the two dictionaries: partial results never
      leak into a failure, and the stages invoked are a prefix of the
      pipeline's order. */
  lemma OutcomeShape(path: PathArg, env: Env, results: Results, stages: seq<Stage>)
    requires PipelineAllowed(path, env, results, stages)
    ensures stages <= StageOrder
    ensures ("status" in results && results.Keys == {"status", "error"} && results["status"] == StrV("failed"))
            || (stages == StageOrder && results.Keys == SuccessKeys)
    ensures |stages| < |StageOrder| ==> "status" in results
  {
    if AgentsError(env).None? && IngestAgent.Run(env.files, path).Ok? {
      AfterIngestShape(IngestAgent.Run(env.files, path).value, env.forwardPass, results, stages);
    }
  }

  /** A run that reports no `status` went through all four stages on a
      readable FITS file: the ingested header is stored as read, the
      calibrated one is it plus the fake WCS cards, there are one to four
      detections inside the image, and each orbit entry takes its position
      from those WCS cards (never from the random fallback) and its
      confidence from its detection. */
  lemma SuccessfulRun(path: PathArg, env: Env, results: Results, stages: seq<Stage>)
    requires PipelineAllowed(path, env, results, stages)
    requires "status" !in results
    ensures AgentsError(env).None? && env.forwardPass.ForwardPassOk?
    ensures stages == StageOrder && results.Keys == SuccessKeys
    ensures IngestAgent.Run(env.files, path).Ok?
    ensures var img := IngestAgent.Run(env.files, path).value;
            |img.data.shape| == 2 && img.data.shape[0] > 0 && img.data.shape[1] > 0
            && results["ingested_header"] == HeaderV(img.header)
            && results["calibrated_header"]
                 == HeaderV(img.header + CalibrationAgent.FakeWcs(img.data.shape[0], img.data.shape[1]))
    ensures results["detections"].DetectionsV? && results["orbital_elements"].OrbitsV?
    ensures var img := IngestAgent.Run(env.files, path).value;
            SuccessfulOutputs(img.data.shape[0], img.data.shape[1],
                              results["detections"].detections, results["orbital_elements"].orbits)
  {
    SuccessAfterIngest(IngestAgent.Run(env.files, path).value, env.forwardPass, results, stages);
  }

  /** The detections and orbit entries of a successful run on a `rows` by
      `cols` image: one to four of each, in step, with the positions the
      fake WCS solution gives. */
  predicate SuccessfulOutputs(rows: nat, cols: nat, ds: seq<DetectionAgent.Detection>,
                              os: seq<OrbitAgent.OrbitEstimate>)
  {
    1 <= |ds| <= 4 && |os| == |ds|
    && forall i :: 0 <= i < |ds| ==>
         DetectionAgent.InImage(ds[i], rows, cols)
         && os[i].confidence == ds[i].confidence.value
         && OrbitAgent.ElementsInRange(os[i].elements)
         && os[i].ra == FloatMod(OrbitAgent.Linear(200.0, cols as real / 2.0, -0.0001, ds[i].x.value), 360.0)
         && os[i].dec == OrbitAgent.Linear(30.0, rows as real / 2.0, 0.0001, ds[i].y.value)
  }

  lemma SuccessAfterIngest(img: Image, forwardPass: DetectionAgent.ModelOutcome, results: Results, stages: seq<Stage>)
    requires AfterIngest(img, forwardPass, results, stages) && "status" !in results
    ensures forwardPass.ForwardPassOk?
    ensures stages == StageOrder && results.Keys == SuccessKeys
    ensures |img.data.shape| == 2 && img.data.shape[0] > 0 && img.data.shape[1] > 0
    ensures results["ingested_header"] == HeaderV(img.header)
    ensures results["calibrated_header"]
              == HeaderV(img.header + CalibrationAgent.FakeWcs(img.data.shape[0], img.data.shape[1]))
    ensures results["detections"].DetectionsV? && results["orbital_elements"].OrbitsV?
    ensures SuccessfulOutputs(img.data.shape[0], img.data.shape[1],
                              results["detections"].detections, results["orbital_elements"].orbits)
  {
    var h, ds := CalibratedDetections(img, forwardPass, results, stages);
    DetectionAgent.SuccessfulDetections(img.data, forwardPass, Ok(ds));
    var rows, cols := img.data.shape[0], img.data.shape[1];
    var os := SuccessAfterDetection(img.header, h, ds, results, stages);
    CalibrationAgent.CalibratedWcs(img.data, img.header);
    SuccessRecordFields(img.header, h, ds, os);
    WcsOrbits(h, rows, cols, ds, os);
  }

  /** After ingestion, a run without `status` calibrated the image and
      detected something in it. */
  lemma CalibratedDetections(img: Image, forwardPass: DetectionAgent.ModelOutcome, results: Results,
                             stages: seq<Stage>)
    returns (h: Header, ds: seq<DetectionAgent.Detection>)
    requires AfterIngest(img, forwardPass, results, stages) && "status" !in results
    ensures |img.data.shape| == 2
    ensures h == CalibrationAgent.Calibrated(Array(img.data), FitsHeader(img.header)).value.header
    ensures h == img.header + CalibrationAgent.FakeWcs(img.data.shape[0], img.data.shape[1])
    ensures DetectionAgent.Allowed(Array(img.data), forwardPass, Ok(ds))
    ensures AfterDetection(img.header, h, Ok(ds), results, stages)
  {
    var cal := CalibrationAgent.Calibrated(Array(img.data), FitsHeader(img.header));
    h := cal.value.header;
    var det: Result<seq<DetectionAgent.Detection>> :|
      DetectionAgent.Allowed(Array(img.data), forwardPass, det)
      && AfterDetection(img.header, h, det, results, stages);
    ds := det.value;
  }

  lemma FailureRecordFields(e: Exception)
    ensures var r := FailureRecord(e);
            r.Keys == {"status", "error"} && r["status"] == StrV("failed") && r["error"] == StrV(ErrorText(e))
  {
  }

  lemma SuccessRecordFields(ingested: Header, calibrated: Header, ds: seq<DetectionAgent.Detection>,
                            os: seq<OrbitAgent.OrbitEstimate>)
    ensures var r := SuccessRecord(ingested, calibrated, ds, os);
            r.Keys == SuccessKeys && "status" !in r
            && r["ingested_header"] == HeaderV(ingested) && r["calibrated_header"] == HeaderV(calibrated)
            && r["detections"] == DetectionsV(ds) && r["orbital_elements"] == OrbitsV(os)
  {
  }

  /** After a successful detection stage, a run without `status` is the
      success record of an orbit outcome the orbit agent allows. */
  lemma SuccessAfterDetection(ingested: Header, h: Header, ds: seq<DetectionAgent.Detection>,
                              results: Results, stages: seq<Stage>)
    returns (os: seq<OrbitAgent.OrbitEstimate>)
    requires AfterDetection(ingested, h, Ok(ds), results, stages) && "status" !in results
    ensures stages == StageOrder
    ensures OrbitAgent.Allowed(OrbitAgent.DetList(ds), FitsHeader(h), Ok(os))
    ensures results == SuccessRecord(ingested, h, ds, os)
  {
    var orb: Result<seq<OrbitAgent.OrbitEstimate>> :|
      OrbitAgent.Allowed(OrbitAgent.DetList(ds), FitsHeader(h), orb)
      && AfterOrbit(ingested, h, ds, orb, results);
    os := orb.value;
  }

  /** The orbit agent on a header carrying the fake WCS cards always takes the
      linear WCS path. */
  lemma WcsOrbits(h: Header, rows: nat, cols: nat, ds: seq<DetectionAgent.Detection>,
                  os: seq<OrbitAgent.OrbitEstimate>)
    requires CalibrationAgent.HasFakeWcs(h, rows, cols)
    requires 1 <= |ds| <= 4 && forall i :: 0 <= i < |ds| ==> DetectionAgent.InImage(ds[i], rows, cols)
    requires OrbitAgent.Allowed(OrbitAgent.DetList(ds), FitsHeader(h), Ok(os))
    ensures SuccessfulOutputs(rows, cols, ds, os)
  {
    assert OrbitAgent.HasWcs(h);
    forall i | 0 <= i < |ds|
      ensures os[i].confidence == ds[i].confidence.value
      ensures OrbitAgent.ElementsInRange(os[i].elements)
      ensures os[i].ra == FloatMod(OrbitAgent.Linear(200.0, cols as real / 2.0, -0.0001, ds[i].x.value), 360.0)
      ensures os[i].dec == OrbitAgent.Linear(30.0, rows as real / 2.0, 0.0001, ds[i].y.value)
    {
      assert OrbitAgent.EntryAllowed(ds[i], h, os[i]);
    }
  }

  /** A well-formed path that does not exist yields the fixed "File not found"
      record, not the agent's own message, after the ingest stage alone. */
  lemma MissingFileIsNotFound(p: string, env: Env, results: Results, stages: seq<Stage>)
    requires AgentsError(env).None? && p != "" && p !in env.files
    requires PipelineAllowed(PathStr(p), env, results, stages)
    ensures stages == [IngestStage]
    ensures results == map["status" := StrV("failed"), "error" := StrV("File not found")]
  {
  }

  /** Conversely, once the agents are built, the "File not found" text is
      reported only for a missing file: no other stage's error reads so. */
  lemma NotFoundOnlyForMissingFile(path: PathArg, env: Env, results: Results, stages: seq<Stage>)
    requires PipelineAllowed(path, env, results, stages)
    requires AgentsError(env).None?
    requires "error" in results && results["error"] == StrV(NotFoundText)
    ensures path.PathStr? && path.s != "" && path.s !in env.files
    ensures stages == [IngestStage]
  {
    var ing := IngestAgent.Run(env.files, path);
    if ing.Ok? {
      NotFoundNotAfterIngest(ing.value, env.forwardPass, results, stages);
    }
  }

  lemma NotFoundNotAfterIngest(img: Image, forwardPass: DetectionAgent.ModelOutcome, results: Results,
                               stages: seq<Stage>)
    requires AfterIngest(img, forwardPass, results, stages)
    ensures "error" in results ==> results["error"] != StrV(NotFoundText)
  {
    var cal := CalibrationAgent.Calibrated(Array(img.data), FitsHeader(img.header));
    if cal.Raise? {
      assert |ErrorText(cal.error)| != |NotFoundText|;
    } else {
      var det: Result<seq<DetectionAgent.Detection>> :|
        DetectionAgent.Allowed(Array(cal.value.data), forwardPass, det)
        && AfterDetection(img.header, cal.value.header, det, results, stages);
      if det.Raise? {
        DetectionAgent.FailureOnImage(cal.value.data, forwardPass, det);
        PrefixedText(det.error.msg, DetectionAgent.FailedPrefix);
      } else {
        NotFoundNotAfterDetection(img.header, cal.value.header, det.value, results, stages);
      }
    }
  }

  lemma NotFoundNotAfterDetection(ingested: Header, calibrated: Header, ds: seq<DetectionAgent.Detection>,
                                  results: Results, stages: seq<Stage>)
    requires AfterDetection(ingested, calibrated, Ok(ds), results, stages)
    ensures "error" in results ==> results["error"] != StrV(NotFoundText)
  {
    var orb: Result<seq<OrbitAgent.OrbitEstimate>> :|
      OrbitAgent.Allowed(OrbitAgent.DetList(ds), FitsHeader(calibrated), orb)
      && AfterOrbit(ingested, calibrated, ds, orb, results);
    if orb.Raise? {
      OrbitAgent.FailureOnList(ds, calibrated, orb);
      PrefixedText(orb.error.msg, OrbitAgent.FailedPrefix);
    } else {
      SuccessRecordFields(ingested, calibrated, ds, orb.value);
      assert "error" !in SuccessKeys;
    }
  }

  /** A text that starts with a prefix longer than "File not found" is not it. */
  lemma PrefixedText(msg: string, prefix: string)
    requires |prefix| <= |msg| && msg[..|prefix|] == prefix && |prefix| > |NotFoundText|
    ensures msg != NotFoundText
  {
  }
}
