# Multi-agent asteroid detection pipeline, modelled in Dafny

This project models `run_asteroid_detection_pipeline` of the multi-agent
asteroid pipeline, together with the `run` method of each of its four agents.

The four stages run in a fixed order:

1. `IngestAgent` loads the primary HDU of a FITS file.
2. `CalibrationAgent` validates the image and writes a fixed, fake WCS
   solution into a copy of its header.
3. `DetectionAgent` runs a CNN on the calibrated image. It then reports one
   to four random in-bounds detections.
4. `OrbitAgent` turns each detection into a sky position and attaches six
   placeholder orbital elements. The position comes from the calibrated
   header's linear WCS cards, or is drawn at random when a card is missing.

The orchestration builds the agents and runs the stages, each on the
previous stage's output. It stores each output in a results dictionary. The
first exception ends the run, and the run then returns
`{"status": "failed", "error": ...}`. That error is the fixed text
"File not found" for a `FileNotFoundError`, and `str(e)` for anything else.

Modules, one per source file or library concept:

- `Python`: options, exceptions with their `str()`, a `Result` that is a
  value or a raised exception, and Python's float `%`.
- `Fits`: header cards, headers as maps, numpy arrays as shape plus data,
  and the file store that ingestion reads.
- `NumpyRandom`: `randint` and `uniform` as nondeterministic draws in
  numpy's documented ranges. `randint` raises on an empty range.
- `IngestAgent`: `Run` is a pure function of the path and the file store.
- `CalibrationAgent`: `Run` assigns the fourteen cards one by one to a
  copy of the header. `Calibrated` is its specification.
- `DetectionAgent`: `Run` has a counted loop of random draws, proved against
  the relational specification `Allowed`.
- `OrbitAgent`: `Run` loops over the detections. `Estimate` is the loop body
  for one detection. Both are proved against `Allowed`, `EntryError` and
  `EntryAllowed`.
- `Pipeline`: `RunAsteroidDetectionPipeline` fills the results map in place
  and records the stages it invokes, as a ghost trace. It is proved against
  `PipelineAllowed`, which is layered per stage as `AfterIngest`,
  `AfterDetection` and `AfterOrbit`.

The agents' random draws are nondeterministic. So the specification of
detection, of orbit estimation and of the whole pipeline is a relation
between inputs and outcomes. A failure outcome is fully determined: its
exception kind and its text. A successful outcome is pinned down up to the
random values, which are constrained to their ranges.

Several behaviours come from the code itself:

- Each agent's opening log line is evaluated before its validation. So
  calibration and detection raise `AttributeError` on an argument without a
  `shape`. The orbit agent raises `TypeError` on an argument without a
  length. Only an argument that has these attributes reaches the documented
  `ValueError`.
- Ingestion's "no data" `ValueError` is raised inside the `try`, so it
  surfaces as an `IOError`.
- `FileNotFoundError` is raised outside that `try`, so it reaches the
  pipeline unwrapped.
- Detection and orbit estimation wrap every failure inside their `try` as a
  `RuntimeError` with their own prefix.
- In the orbit agent, a missing WCS card selects the random position. A
  missing `x`, `y` or `confidence` key fails the whole call.
- A non-string `DATE` card fails the orbit call, because `.replace` is
  missing on it. A string `DATE` never fails, because a parse error falls
  back to the current time.

The code has no scheduler, no result store, no per-stage outcome records
and no `Idle` status:

- A run is one synchronous call.
- A failure returns only `status` and `error`. Any partial results are
  dropped.
- A success carries no `status` key.
- The detection agent never returns an empty list. So the empty-list path
  of the orbit agent is not reachable from the pipeline, although
  `OrbitAgent.EmptyDetections` states what it does.

## Model

| member | source | states |
|---|---|---|
| Python.FloatMod | agents/orbit.py:92 | Python's `x % m` for a positive float divisor: the result lies in `[0, m)` and differs from `x` by a whole multiple of `m` |
| NumpyRandom.RandInt | agents/detection.py:115-119 | `randint(low, high)` succeeds exactly when `low < high`, with a value in `[low, high)`; otherwise it raises `ValueError`, with the text "high <= 0" when `low` is 0 and "low >= high" otherwise |
| NumpyRandom.Uniform | agents/orbit.py:121-126 | `uniform(low, high)` returns a value between its bounds |
| IngestAgent.Run | agents/ingest.py:36-70 | a non-string or empty path is the only `ValueError`; a missing path is exactly the `FileNotFoundError` case; every other failure is an `IOError` on an existing file; success happens exactly for a readable file whose primary HDU has data, and returns that HDU's data and header unmodified |
| IngestAgent.NoDataIsIOError | agents/ingest.py:53-64 | a primary HDU without data is reported as `IOError("Failed to read FITS file <p>: FITS file does not contain primary HDU data.")` |
| CalibrationAgent.Calibrated | agents/calibration.py:30-80 | success exactly for a 2-D array with a FITS header; the pixel check comes before the header check; the pixel data is returned as it came; the new header's keys are the old keys plus the fourteen calibration keys |
| CalibrationAgent.Run | agents/calibration.py:30-80 | the fourteen successive card assignments on the copy give exactly the result `Calibrated` specifies |
| CalibrationAgent.CalibrationKeepsOtherCards | agents/calibration.py:48-67 | every input card the agent does not write keeps its value; every card it writes has the fake solution's value |
| CalibrationAgent.CalibratedWcs | agents/calibration.py:55-60 | the calibrated header holds the six cards the orbit agent reads: CRVAL1 200.0, CRVAL2 30.0, CDELT1 -0.0001, CDELT2 0.0001, and the reference pixel at the image centre |
| DetectionAgent.InitError | agents/detection.py:53-63 | a model-load failure becomes `RuntimeError("Could not load detection model: " + str(e))`, and there is no error otherwise |
| DetectionAgent.Run | agents/detection.py:78-127 | the outcome is one `Allowed` admits: the errors for a shapeless or non-2-D input, for a failing forward pass and for an image with no rows or no columns (an outcome of the model only, see below), or else one to four complete detections inside the image with confidence in `[0.7, 0.99]` |
| DetectionAgent.OnlyShapeMatters | agents/detection.py:108-121 | the allowed outcomes depend on the image's shape, not on its pixel values |
| DetectionAgent.SuccessfulDetections | agents/detection.py:115-121 | a successful run had a 2-D image with both dimensions positive and a forward pass that did not raise; it returns one to four detections, each with `x`, `y` and `confidence` and with `0 <= x < cols` and `0 <= y < rows` |
| DetectionAgent.FailureOnImage | agents/detection.py:89-127 | on a 2-D array every failure is a `RuntimeError` whose text starts with "Detection failed: " |
| OrbitAgent.EntryError | agents/orbit.py:71-128 | a detection raises nothing only when it has `x`, `y` and `confidence` |
| OrbitAgent.FirstEntryErrorAt | agents/orbit.py:70-135 | when detections before index `i` raise nothing, the list's first error is that of detection `i`, or none at the end |
| OrbitAgent.NoFirstErrorMeansNone | agents/orbit.py:70-135 | when the list has no first error, no detection in it raises |
| OrbitAgent.Estimate | agents/orbit.py:71-130 | one detection raises exactly its `EntryError`; otherwise it gets an estimate with its confidence, elements in range, and the linear WCS position (RA taken mod 360) when all six cards are present, or a random position in range when one is missing |
| OrbitAgent.Run | agents/orbit.py:38-142 | the outcome is one `Allowed` admits: the list check before the header check, both before the empty-list return, then the DATE check, then the first failing detection wrapped as `RuntimeError("Orbit estimation failed: ...")`, or else one estimate per detection, in order |
| OrbitAgent.EmptyDetections | agents/orbit.py:44-52 | an empty list with a bad header raises the header `ValueError`; with a good header it returns `[]` |
| OrbitAgent.RaInRange | agents/orbit.py:92-102 | every reported RA lies in `[0, 360]`, and in `[0, 360)` on the WCS path, so the `ra_deg < 0` correction never fires |
| OrbitAgent.MissingKeyFailsRun | agents/orbit.py:70-135 | a detection lacking `x`, `y` or `confidence` fails the whole call with a `RuntimeError`, even when the position would have been random |
| OrbitAgent.FailureOnList | agents/orbit.py:54-135 | given a list and a header, every failure is a `RuntimeError` whose text starts with "Orbit estimation failed: " |
| Pipeline.AgentsError | pipeline.py:73-76 | building the agents fails exactly when the detection model or the ephemeris fails to load, and a model-load failure is reported first |
| Pipeline.RunAsteroidDetectionPipeline | pipeline.py:56-116 | the run is one `PipelineAllowed` admits: the stages run in order, each on the previous stage's output (detection and orbit get the calibrated image and header); the first exception ends the run, with no later stage invoked, and yields the failure record; otherwise the four outputs are returned. A result with `status` has exactly `status` ("failed") and `error`; one without has exactly the four success keys |
| Pipeline.OutcomeShape | pipeline.py:69-116 | the stages invoked are a prefix of ingest, calibrate, detect, orbit; the result is either exactly `{status: "failed", error}`, with partial results dropped, or exactly the four success keys after all four stages ran; a run cut short always reports `status` |
| Pipeline.SuccessfulRun | pipeline.py:80-109 | a run without `status` ran all four stages; the ingested header is stored as read; the calibrated one is it plus the fake WCS cards; there are one to four detections inside the image and as many orbit entries; each entry keeps its detection's confidence and takes its RA/Dec from the fake WCS solution, never from the random fallback |
| Pipeline.WcsOrbits | agents/orbit.py:79-92 | for one to four detections inside a `rows` by `cols` image and a header holding that image's fake WCS cards, each orbit entry keeps its detection's confidence, has elements in range, and its RA is `(200 + (x - cols/2) * -0.0001) mod 360` and its Dec is `30 + (y - rows/2) * 0.0001` |
| Pipeline.MissingFileIsNotFound | pipeline.py:111-113 | once the agents are built, a non-empty path that does not exist yields exactly `{status: "failed", error: "File not found"}` after the ingest stage alone |
| Pipeline.NotFoundOnlyForMissingFile | pipeline.py:111-116 | once the agents are built, the "File not found" text is reported only for a non-empty path that does not exist |

## Left out

- FITS file access: `fits.open` and HDU parsing are a parameter, a map from path to an HDU list or a read failure with its text.
- The PyTorch model: the CNN, the device choice, tensor conversion and the forward pass are reduced to whether they raise. The network's output is unused by the code.
- Skyfield: loading the timescale and ephemeris is reduced to whether it raises. The observation time, DATE parsing and the `epoch` field are not modelled. Only the failure of `.replace` on a non-string DATE card is kept. The unused `Topos` location is left out.
- The `ra`/`dec` strings are modelled as the numbers before their 6-decimal `"... deg"` formatting.
- Floating point: all arithmetic, including `% 360`, is over exact reals. With IEEE floats a tiny negative RA can round to 360.0, which `OrbitAgent.RaInRange`'s `[0, 360)` bound does not cover.
- OrbitAgent.Estimate: the text of the `TypeError` (or `ValueError`) that arithmetic on a string-valued WCS card raises is a stand-in constant, because Python's message depends on the operand types.
- DetectionAgent.Run: the text of an exception raised by PyTorch or numpy during the forward pass is whatever that library gives, carried as a parameter.
- DetectionAgent.Run: whether the forward pass raises is a parameter that does not depend on the image's shape. In the code, the CNN's 3x3 convolution and 2x2 pooling fail on an image with fewer than two rows or columns, so the model admits outcomes the code cannot produce: the wrapped `randint` error ("Detection failed: high <= 0") on an image with no rows or no columns, and detections on an image one pixel high or wide.
- Random distributions: `randint` and `uniform` are arbitrary values in their ranges, with no distribution.
- Logging and the logging configuration are left out. The log lines whose evaluation can raise are kept as failure points: `pixel_data.shape`, `len(detections)` and the orbit agent's `det['x']`/`det['y']` lookups. The pipeline's per-detection log loop is not a failure point: every detection the detection agent returns has all three keys, which the pipeline method proves at that loop.
- The `__main__` demo and `create_dummy_fits_file` are file I/O and console output.
- Concurrency: there is none in the code.
- Aliasing: headers and arrays are values, so `copy()` is the identity and mutation of a shared header is not modelled. In exchange, "the input header is not mutated" holds by construction.
- Header card values are limited to int, float, bool and str. astropy's complex and undefined values are not modelled, so neither is the `AttributeError` naming `'complex'` or `'Undefined'` that such a DATE card raises, nor the formatting of a complex Dec.
- Header keywords are taken in canonical upper-case form. astropy's case-insensitive lookup is not modelled.
- Elements of the detections list that are not dictionaries are not modelled. A detection is a record whose keys may be missing.
- Exceptions that do not derive from `Exception`, such as `KeyboardInterrupt`, are not modelled. They would escape the pipeline's `except`.
