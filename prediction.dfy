/**
 * The `/predict` handler of server.py: the ordered validation of the upload,
 * then the assembly of the answer from the detection with the highest
 * confidence. Decoding the image and running the detector are done by code
 * outside this model and arrive as the `engine` parameter.
 */
module Prediction {
  import opened Wrappers
  import opened Uploads
  import opened Catalogs

  /** An uploaded file as the request holds it: its declared name and its bytes. */
  datatype FileStorage = FileStorage(filename: string, content: seq<bv8>)

  /** One detected box: its class id and its confidence; its coordinates are never read. */
  datatype Box = Box(classId: int, confidence: real)

  /**
   * Decoding the bytes, converting to RGB and running the detector: either the
   * list of results (each given by its boxes), or the message of the
   * exception one of these steps raised.
   */
  type Engine = seq<bv8> -> Result<seq<seq<Box>>, string>

  /** The `type` field of a diagnosis. */
  datatype Kind = Disease | Healthy

  /**
   * The fields of a diagnosis answer that the model computes. `rawConfidence`
   * is the detector's own value; the answer sends it as a percentage rounded
   * to two decimals, which is not modelled.
   */
  datatype Diagnosis = Diagnosis(
    kind: Kind,
    disease: string,
    severity: int,
    rawConfidence: real,
    treatment: string,
    recommendations: seq<string>)

  /** What the catch-all around decoding, inference and assembly reports. */
  datatype Failure = EngineFailed(message: string) | UnknownClassId(classId: int)

  /** Every answer `/predict` can give. */
  datatype Outcome =
    | MissingFile
    | EmptyFilename
    | Unsupported
    | ProcessingFailed(failure: Failure)
    | NoDetection
    | Diagnosed(diagnosis: Diagnosis)
  {
    /** The three answers given before the upload is read. */
    predicate IsRejection() {
      MissingFile? || EmptyFilename? || Unsupported?
    }
  }

  /** The form field the upload must arrive in. */
  const FileField: string := "file"

  /** The HTTP status sent with an outcome. */
  function Status(o: Outcome): (code: int)
    ensures code == 400 <==> o.IsRejection()
    ensures code == 500 <==> o.ProcessingFailed?
    ensures code == 200 <==> (o.NoDetection? || o.Diagnosed?)
  {
    match o
    case MissingFile => 400
    case EmptyFilename => 400
    case Unsupported => 400
    case ProcessingFailed(_) => 500
    case NoDetection => 200
    case Diagnosed(_) => 200
  }

  /** The three checks at the head of `predict`, first failure wins. */
  function Validate(files: map<string, FileStorage>): (r: Result<FileStorage, Outcome>)
    ensures FileField !in files ==> r == Err(MissingFile)
    ensures FileField in files && files[FileField].filename == "" ==> r == Err(EmptyFilename)
    ensures (FileField in files && files[FileField].filename != "" &&
             !AllowedFile(files[FileField].filename)) ==> r == Err(Unsupported)
    ensures r.Err? ==> r.error.IsRejection()
    ensures r.Ok? <==> FileField in files && AllowedFile(files[FileField].filename)
    ensures r.Ok? ==> r.value == files[FileField]
  {
    if FileField !in files then Err(MissingFile)
    else if files[FileField].filename == "" then Err(EmptyFilename)
    else if !AllowedFile(files[FileField].filename) then Err(Unsupported)
    else Ok(files[FileField])
  }

  /** Box `k` has a confidence no other box exceeds. */
  predicate IsTop(boxes: seq<Box>, k: int)
  {
    0 <= k < |boxes| && forall j :: 0 <= j < |boxes| ==> boxes[j].confidence <= boxes[k].confidence
  }

  /** `boxes.conf.argmax()`: the first box of highest confidence. */
  function TopBox(boxes: seq<Box>): (k: nat)
    requires |boxes| > 0
    ensures IsTop(boxes, k)
    ensures forall j :: 0 <= j < k ==> boxes[j].confidence < boxes[k].confidence
  {
    if |boxes| == 1 then 0
    else
      var k := TopBox(boxes[..|boxes| - 1]);
      if boxes[|boxes| - 1].confidence > boxes[k].confidence then |boxes| - 1 else k
  }

  /** `int(confidence * 100)`: the percentage, truncated toward zero. */
  function SeverityPercent(confidence: real): (s: int)
    ensures confidence >= 0.0 ==> s as real <= confidence * 100.0 < s as real + 1.0
    ensures confidence < 0.0 ==> s as real - 1.0 < confidence * 100.0 <= s as real
  {
    var x := confidence * 100.0;
    if x >= 0.0 then x.Floor else -((-x).Floor)
  }

  /** A confidence in [0, 1] gives a severity in 0..100. */
  lemma SeverityInRange(confidence: real)
    requires 0.0 <= confidence <= 1.0
    ensures 0 <= SeverityPercent(confidence) <= 100
  {
  }

  /** The diagnosis built for the chosen class name and its confidence. */
  function Diagnose(name: string, confidence: real): (d: Diagnosis)
    ensures d.disease == name && d.rawConfidence == confidence
    ensures d.kind == Healthy <==> name == HealthyLabel
    ensures d.severity == SeverityPercent(confidence)
    ensures d.treatment == Treatment(name)
    ensures d.recommendations == GenerateRecommendations(name)
  {
    Diagnosis(
      if name != HealthyLabel then Disease else Healthy,
      name,
      SeverityPercent(confidence),
      confidence,
      Treatment(name),
      GenerateRecommendations(name))
  }

  /**
   * What the handler makes of the detector's results: no box at all is the
   * "no detection" answer; otherwise the class of a top box is looked up in
   * `names`, and a class id missing there ends in the catch-all.
   */
  function Assemble(results: seq<seq<Box>>, names: map<int, string>): (o: Outcome)
    ensures !o.IsRejection()
    ensures o.NoDetection? <==> (|results| == 0 || |results[0]| == 0)
    ensures o.Diagnosed? ==>
      (exists k :: IsTop(results[0], k) && results[0][k].classId in names &&
         o.diagnosis == Diagnose(names[results[0][k].classId], results[0][k].confidence))
    ensures o.ProcessingFailed? ==>
      (exists k :: IsTop(results[0], k) && results[0][k].classId !in names &&
         o.failure == UnknownClassId(results[0][k].classId))
    ensures |results| > 0 && (forall b :: b in results[0] ==> b.classId in names)
      ==> o.Diagnosed? || o.NoDetection?
  {
    if |results| == 0 || |results[0]| == 0 then NoDetection
    else
      var boxes := results[0];
      var k := TopBox(boxes);
      if boxes[k].classId !in names then ProcessingFailed(UnknownClassId(boxes[k].classId))
      else Diagnosed(Diagnose(names[boxes[k].classId], boxes[k].confidence))
  }

  /** `predict()`: validate the upload, run the engine on its bytes, assemble the answer. */
  function Predict(files: map<string, FileStorage>, engine: Engine, names: map<int, string>): (o: Outcome)
    ensures FileField !in files ==> o == MissingFile
    ensures FileField in files && files[FileField].filename == "" ==> o == EmptyFilename
    ensures (FileField in files && files[FileField].filename != "" &&
             !AllowedFile(files[FileField].filename)) ==> o == Unsupported
    ensures o.IsRejection() <==> !(FileField in files && AllowedFile(files[FileField].filename))
  {
    match Validate(files)
    case Err(rejection) => rejection
    case Ok(file) =>
      match engine(file.content)
      case Err(message) => ProcessingFailed(EngineFailed(message))
      case Ok(results) => Assemble(results, names)
  }

  /** A rejected request gets the same answer whatever the engine and class table: they are never consulted. */
  lemma RejectionNeverReachesEngine(
    files: map<string, FileStorage>, engine: Engine, names: map<int, string>,
    engine': Engine, names': map<int, string>)
    requires Predict(files, engine, names).IsRejection()
    ensures Predict(files, engine', names') == Predict(files, engine, names)
  {
  }

  /** An accepted upload is handed to the engine as is, and its results are assembled. */
  lemma AcceptedUploadIsProcessed(files: map<string, FileStorage>, engine: Engine, names: map<int, string>)
    requires FileField in files && AllowedFile(files[FileField].filename)
    ensures engine(files[FileField].content).Err? ==>
      Predict(files, engine, names) == ProcessingFailed(EngineFailed(engine(files[FileField].content).error))
    ensures engine(files[FileField].content).Ok? ==>
      Predict(files, engine, names) == Assemble(engine(files[FileField].content).value, names)
  {
  }
}
