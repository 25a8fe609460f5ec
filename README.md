# Olive leaf diagnosis handler — Dafny model

This project models the prediction endpoint of a small Flask service
(`server.py`). The service takes an uploaded leaf photo. It checks the upload
in a fixed order, hands the image to an object detector, and keeps the
detection with the highest confidence. It then answers with the class name, a
`healthy`/`disease` type, a severity percentage, a treatment text and a list of
recommendations. The last two come from two constant French-language catalogs.

Modules:

- `Wrappers` (`wrappers.dfy`): `Option` and `Result`.
- `Uploads` (`uploads.dfy`): `ALLOWED_EXTENSIONS` and `allowed_file`. The split at the last `.` is `LastDot`/`Extension`. Python's `str.lower()` is `Lower`.
- `Catalogs` (`catalogs.dfy`): `TREATMENTS`, the table inside `generate_recommendations`, the treatment lookup at the fixed `"high"` tier, and the fallbacks of both lookups.
- `Prediction` (`prediction.dfy`): `predict`. It covers the short-circuiting validation chain, the detector call, the no-detection answer, the choice of the top box (`argmax`), the class-name lookup, the `type` field, the severity, and the catch-all error.

Decoding the bytes, converting to RGB and running the detector belong to
image and inference libraries. They are modelled as one function parameter,
`engine`. It maps the uploaded bytes either to the list of results (each
result given by its boxes, each box by class id and confidence) or to the
message of the exception it raised. The detector's class-name table is the
map parameter `names`. The request's uploaded files are a map from form field
name to `FileStorage` (name and bytes).

## Model

| member | source | states |
|---|---|---|
| Uploads.LastDot | server.py:29 | the cut `rsplit('.', 1)` makes: None exactly when there is no `.`, otherwise the index of a `.` with no `.` after it |
| Uploads.Extension | server.py:29 | `rsplit('.', 1)[1]`: absent exactly when the name has no `.`; otherwise the suffix of the name that directly follows a `.` and holds no `.`, i.e. exactly the text after the last `.` |
| Uploads.LastDotIsUnique | server.py:29 | a name has at most one `.` with no `.` after it, and `LastDot` finds it |
| Uploads.AllowedFile | server.py:21-29 | `allowed_file` accepts iff the name has a last `.` and the text after it, lower-cased, is `png`, `jpg` or `jpeg` |
| Uploads.Lower | server.py:29 | `lower()` keeps the length and lower-cases each character in place |
| Uploads.AllowedFileAt | server.py:29 | once the last `.` is at index i, the answer is whether the lower-cased text after i is an allowed extension |
| Uploads.NoDotRejected | server.py:28 | a name without any `.` is always refused |
| Uploads.AllowedFileByExtension | server.py:21-29 | for `stem + "." + ext` with no `.` in `ext`, the name is accepted iff lower-cased `ext` is `png`, `jpg` or `jpeg`, whatever the stem |
| Uploads.SplitAtLastDot | server.py:27-29 | every name that holds a `.` has such a split, so the two lemmas above decide every name |
| Uploads.LastDotIgnoresCase | server.py:29 | names equal after lower-casing have their last `.` at the same place |
| Uploads.CaseInsensitive | server.py:29 | names equal after lower-casing get the same answer, e.g. `a.PNG` and `a.png` |
| Uploads.UpperCaseSuffixAccepted | server.py:27-29 | `"x.tar.PNG"` is accepted |
| Uploads.EmptyStemAccepted | server.py:27-29 | `".png"` is accepted |
| Uploads.TrailingDotRejected | server.py:27-29 | `"png."` is refused |
| Uploads.BareExtensionRejected | server.py:28 | `"png"` is refused |
| Uploads.InnerExtensionIgnored | server.py:29 | `"x.png.gif"` is refused: only the text after the last `.` counts |
| Uploads.EmptyNameRejected | server.py:28 | the empty name is refused by `allowed_file` too |
| Catalogs.CatalogsAgree | server.py:48-118 | both catalogs know the same six class names; the advice table also has a `"default"` entry |
| Catalogs.TreatmentsHaveAllTiers | server.py:48-79 | every catalogued name has exactly the tiers low, medium and high |
| Catalogs.Treatment | server.py:181 | a catalogued name gets its `"high"`-tier text; any other name gets "Consulter un spécialiste" |
| Catalogs.GenerateRecommendations | server.py:82-119 | each of the six known names gets its own list; every other name, `"default"` included, gets the 3-item default list |
| Catalogs.TreatmentIsHighTier | server.py:181 | a catalogued name gets its `"high"` text, never a disease's low or medium text; any other name gets "Consulter un spécialiste" |
| Catalogs.RecommendationsFallBack | server.py:82-119 | a known name gets its own list; the 3-item default list is given iff the name is not one of the six known names; every answer has 2 or 3 items |
| Prediction.Status | server.py:126-193 | 400 iff the request was rejected by validation, 500 iff processing failed, 200 for no-detection and diagnosis answers |
| Prediction.Validate | server.py:124-135 | checks in order: a missing field gives MissingFile; else an empty name gives EmptyFilename; else a refused extension gives Unsupported; it passes iff the `file` field is present and its name is allowed, and then yields that file |
| Prediction.TopBox | server.py:163 | `argmax` of the confidences: a box no other box exceeds, and the first such box |
| Prediction.SeverityPercent | server.py:172 | `int(confidence * 100)`: the percentage truncated toward zero |
| Prediction.SeverityInRange | server.py:172 | a confidence in [0, 1] gives a severity in 0..100 |
| Prediction.Diagnose | server.py:175-184 | the answer names the class and keeps the detector's raw confidence; `type` is healthy iff the name is `"en bonne etat"`; treatment and recommendations come from the catalog lookups, whatever the severity |
| Prediction.Assemble | server.py:152-186 | no result or no box gives the no-detection answer, and only then. A diagnosis reports the class and confidence of a box whose confidence is at least every other box's. A class id missing from the name table ends in the catch-all with that id. When every box's class is named, the answer is a diagnosis or no-detection |
| Prediction.Predict | server.py:124-135 | missing field gives MissingFile; else an empty name gives EmptyFilename; else a refused extension gives Unsupported; a request is rejected iff it lacks an allowed upload |
| Prediction.RejectionNeverReachesEngine | server.py:124-149 | a rejected request gets the same answer for every engine and class table: nothing is decoded or inferred for it |
| Prediction.AcceptedUploadIsProcessed | server.py:137-193 | an accepted upload's bytes go to the engine; an engine failure becomes the processing error carrying its message; otherwise the results are assembled |

## Left out

- Flask routing, `jsonify`, CORS and the JSON bodies and French error texts: the outcome is a datatype, and `Status` gives its HTTP code.
- The 10 MiB body limit: the transport enforces it before the handler runs.
- Model loading at start-up and the `/test` endpoint: they only call the detector library.
- Image decoding, RGB conversion and inference: these are the `engine` parameter. Which exception they raise is not modelled beyond its message.
- `round(confidence * 100, 2)`, the `message` text with `:.2f`, the timestamps and all logging: float formatting, clock and I/O.
- Prediction.SeverityPercent: computed on exact reals. Python multiplies binary floats, so a confidence like 0.29 can give 28 in the service and 29 here. NaN confidences are not modelled either.
- Prediction.TopBox: ties go to the first maximal box, as torch's `argmax` documents. Only the maximality is the handler's own promise.
- Uploads.Lower: changes only ASCII `A`-`Z`, while Python's `lower()` follows Unicode. No other character lower-cases to one of the letters of `png`, `jpg` or `jpeg`, so the accept/refuse answer is the same.
- `FileStorage.filename` is always a string here. A missing name (`None`) is not modelled.
