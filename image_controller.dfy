/** The image endpoints: the upload-and-diagnose pipeline over the blob store
    and the images and diagnoses tables, and the paginated history of a user's
    images. */
module ImageController {
  import opened Common
  import opened JsText
  import ML = MlService
  import IP = ImageProcessor
  import CS = CloudStorage
  import V = Validation
  import AM = AuthMiddleware

  /** The stages of uploadImageWithPrediction in the order the code runs them. */
  datatype Stage =
    | ValidateStage | ProcessStage | Base64Stage | PredictStage | CheckStage
    | InterpretStage | UploadStage | ImageRowStage | ModelStage | DiagnosisStage

  const Stages: seq<Stage> :=
    [ValidateStage, ProcessStage, Base64Stage, PredictStage, CheckStage,
     InterpretStage, UploadStage, ImageRowStage, ModelStage, DiagnosisStage]

  /** One row of the images table (the `NOW()` timestamp is not modelled). */
  datatype ImageRow = ImageRow(id: int, userId: int, filename: string, path: string, source: string)

  /** One row of the diagnoses table as this pipeline writes it. */
  datatype DiagnosisRow = DiagnosisRow(id: int, userId: int, modelId: Option<int>, imageId: int,
                                       disease: string, confidence: ML.Confidence)

  /** The outcome of an INSERT: its `insertId`, or `{success: false}`. */
  datatype DbWrite = WriteOk(insertId: int) | WriteFailed

  /** The outcome of the latest-model SELECT: the ids it returned, or a failure. */
  datatype ModelLookup = LookupFailed | Models(ids: seq<int>)

  /** The authenticated uploader and the accepted file's name and declared type. */
  datatype UploadRequest = UploadRequest(userId: int, originalName: string, mimeType: string)

  /** How every collaborator behaves for this one request. */
  datatype Services = Services(
    uploadMetadata: Option<IP.Metadata>,   // metadata of the uploaded bytes, None if unreadable
    encode: IP.Encoder,                    // the resize-and-encode of the uploaded bytes
    inspect: IP.Inspector,                 // metadata of a processed buffer
    maxImageSize: Option<string>,          // MAX_IMAGE_SIZE
    base64: seq<byte> -> Option<string>,   // imageToBase64, None on an exception
    classifier: ML.ServiceCall,            // the POST to the classifier
    uploadFault: CS.UploadFault,           // the storage client's behaviour
    imageInsert: DbWrite,
    modelLookup: ModelLookup,
    diagnosisInsert: DbWrite,
    now: nat,                              // Date.now()
    uuid: string)                          // uuidv4()

  /** The image part of a 201 body. */
  datatype UploadedImage = UploadedImage(id: int, filename: string, url: string, size: nat, width: int, height: int)

  /** The prediction part of a 201 body. */
  datatype PredictionView = PredictionView(id: int, disease: string, confidence: ML.Confidence, isConfident: bool,
                                           allPredictions: seq<ML.Entry>, modelInfo: Option<Json>)

  datatype UploadAnswer = UploadAnswer(status: int, message: string, data: Option<(UploadedImage, PredictionView)>)

  /** The messages of the upload answers. */
  const ProcessError: string := "Failed to process image"
  const Base64Error: string := "Failed to convert image for prediction"
  const PredictionErrorPrefix: string := "Prediction failed: "
  const FormatError: string := "Invalid prediction response format"
  const StorageError: string := "Failed to upload image to storage"
  const InternalError: string := "Internal server error during image upload"
  const ImageRowError: string := "Failed to save image metadata"
  const DiagnosisRowError: string := "Failed to save diagnosis result"
  const UploadSuccess: string := "Image uploaded and analyzed successfully"

  /** Everything one request does: its answer, how many stages ran, the blob
      written and the rows inserted. */
  datatype Plan = Plan(answer: UploadAnswer, ran: nat, blob: Option<(string, CS.StoredObject)>,
                       image: Option<ImageRow>, diagnosis: Option<DiagnosisRow>)

  function Halt(status: int, message: string, ran: nat): Plan
  {
    Plan(UploadAnswer(status, message, None), ran, None, None, None)
  }

  /** `modelResult.success && modelResult.data.length > 0 ? modelResult.data[0].id : null`. */
  function ModelId(lookup: ModelLookup): (id: Option<int>)
    ensures id.None? <==> lookup.LookupFailed? || lookup.ids == []
    ensures id.Some? ==> id.value == lookup.ids[0]
  {
    if lookup.Models? && |lookup.ids| > 0 then Some(lookup.ids[0]) else None
  }

  /** `user_uploads/${label}`. */
  function Folder(predicted: string): string
  {
    "user_uploads/" + predicted
  }

  /** What the pure stages compute for one request: the validation, the
      processed image, whether a base64 form was produced, the classifier's
      answer, whether it passes validatePredictionResponse (MlService.Accepted),
      its interpretation and the generated name. */
  datatype Observations = Observations(validation: IP.Validation, processed: IP.Processed, encoded: bool,
                                       prediction: ML.PredictResult, wellFormed: bool,
                                       interp: ML.Interpretation, fileName: string)

  function Observe(req: UploadRequest, sv: Services): Observations
  {
    var processed := IP.ProcessOutcome(sv.encode, sv.inspect, IP.DefaultOptions, sv.maxImageSize);
    var prediction := ML.PredictImage(sv.classifier);
    var entries := if prediction.Predicted? && prediction.predictions.Object? then prediction.predictions.entries else [];
    Observations(IP.ValidateImage(sv.uploadMetadata), processed,
                 processed.Processed? && Present(sv.base64(processed.buffer)),
                 prediction, prediction.Predicted? && ML.Accepted(prediction.predictions),
                 ML.Interpret(entries), IP.GenerateFileName(req.originalName, Some(req.userId), sv.now, sv.uuid))
  }

  /** The specification of uploadImageWithPrediction. */
  function UploadPlan(bucket: string, req: UploadRequest, sv: Services): Plan
  {
    StagePlan(bucket, req, sv, Observe(req, sv))
  }

  /** The stage order over the stage results: stages 1 to 6, then PersistPlan. */
  function StagePlan(bucket: string, req: UploadRequest, sv: Services, obs: Observations): Plan
  {
    if obs.validation.Invalid? then Halt(400, obs.validation.error, 1)
    else if obs.processed.ProcessFailed? then Halt(500, ProcessError, 2)
    else if !obs.encoded then Halt(500, Base64Error, 3)
    else if obs.prediction.PredictFailed? then Halt(500, PredictionErrorPrefix + obs.prediction.error, 4)
    else if !obs.wellFormed then Halt(500, FormatError, 5)
    else PersistPlan(bucket, req, sv, obs.processed, obs.fileName, obs.interp, obs.prediction.modelInfo)
  }

  /** Stages 7 to 10: blob, image row, model lookup, diagnosis row. */
  function PersistPlan(bucket: string, req: UploadRequest, sv: Services, processed: IP.Processed, fileName: string,
                       interp: ML.Interpretation, modelInfo: Option<Json>): Plan
    requires processed.Processed?
  {
    var up := CS.UploadOutcome(bucket, fileName, Folder(interp.predicted), sv.uploadFault);
    if up.UploadFailed? then Halt(500, StorageError, 7)
    else if up.UploadRejected? then Halt(500, InternalError, 7)
    else
      var blob := Some((up.fileName, CS.StoredObject(processed.buffer, req.mimeType, CS.CacheControl)));
      if sv.imageInsert.WriteFailed? then
        Plan(UploadAnswer(500, ImageRowError, None), 8, blob, None, None)
      else
        var image := ImageRow(sv.imageInsert.insertId, req.userId, fileName, up.fileName, "upload");
        if sv.diagnosisInsert.WriteFailed? then
          Plan(UploadAnswer(500, DiagnosisRowError, None), 10, blob, Some(image), None)
        else
          var diagnosis := DiagnosisRow(sv.diagnosisInsert.insertId, req.userId, ModelId(sv.modelLookup), image.id,
                                        interp.predicted, interp.confidence);
          var data := (UploadedImage(image.id, fileName, up.publicUrl, |processed.buffer|,
                                     processed.metadata.width, processed.metadata.height),
                       PredictionView(diagnosis.id, interp.predicted, interp.confidence, interp.isConfident,
                                      interp.allPredictions, modelInfo));
          Plan(UploadAnswer(201, UploadSuccess, Some(data)), 10, blob, Some(image), Some(diagnosis))
  }

  function Plus<T>(xs: seq<T>, x: Option<T>): seq<T>
  {
    if x.Some? then xs + [x.value] else xs
  }

  function Stored(objects: map<string, CS.StoredObject>, blob: Option<(string, CS.StoredObject)>): map<string, CS.StoredObject>
  {
    if blob.Some? then objects[blob.value.0 := blob.value.1] else objects
  }

  /** The application's state behind the image endpoints. */
  class Backend {
    const storage: CS.Bucket
    var images: seq<ImageRow>
    var diagnoses: seq<DiagnosisRow>

    constructor(storage: CS.Bucket)
      ensures this.storage == storage && images == [] && diagnoses == []
    {
      this.storage := storage;
      images := [];
      diagnoses := [];
    }

    /** uploadImageWithPrediction: the stages in order, each failure answering
        at once; the store and the tables change as the plan says. */
    method UploadImageWithPrediction(req: UploadRequest, sv: Services) returns (answer: UploadAnswer)
      modifies this, storage
      ensures var p := UploadPlan(storage.name, req, sv);
              && answer == p.answer
              && storage.objects == Stored(old(storage.objects), p.blob)
              && images == Plus(old(images), p.image)
              && diagnoses == Plus(old(diagnoses), p.diagnosis)
    {
      var validation := IP.ValidateImage(sv.uploadMetadata);
      if validation.Invalid? {
        return UploadAnswer(400, validation.error, None);
      }

      var processed, tried := IP.ProcessImage(sv.encode, sv.inspect, IP.DefaultOptions, sv.maxImageSize);
      if processed.ProcessFailed? {
        return UploadAnswer(500, ProcessError, None);
      }

      answer := Classify(req, sv, processed, Observe(req, sv));
    }

    /** Stages 3 to 10, once the image is processed; `obs` is what every stage
        observes, of which this part agrees with the calls made here. */
    method Classify(req: UploadRequest, sv: Services, processed: IP.Processed, ghost obs: Observations)
      returns (answer: UploadAnswer)
      requires processed.Processed? && obs.processed == processed && obs.validation.Valid?
      requires obs.encoded == Present(sv.base64(processed.buffer))
      requires obs.prediction == ML.PredictImage(sv.classifier)
      requires obs.wellFormed == (obs.prediction.Predicted? && ML.Accepted(obs.prediction.predictions))
      requires obs.prediction.Predicted? && obs.prediction.predictions.Object? ==>
                 obs.interp == ML.Interpret(obs.prediction.predictions.entries)
      requires obs.fileName == IP.GenerateFileName(req.originalName, Some(req.userId), sv.now, sv.uuid)
      modifies this, storage
      ensures var p := StagePlan(storage.name, req, sv, obs);
              && answer == p.answer
              && storage.objects == Stored(old(storage.objects), p.blob)
              && images == Plus(old(images), p.image)
              && diagnoses == Plus(old(diagnoses), p.diagnosis)
    {
      var fileName := IP.GenerateFileName(req.originalName, Some(req.userId), sv.now, sv.uuid);

      var imageBase64 := sv.base64(processed.buffer);
      if !Present(imageBase64) {
        return UploadAnswer(500, Base64Error, None);
      }

      var prediction := ML.PredictImage(sv.classifier);
      if prediction.PredictFailed? {
        return UploadAnswer(500, PredictionErrorPrefix + prediction.error, None);
      }

      var wellFormed := ML.ValidatePredictionResponse(prediction.predictions);
      if !wellFormed {
        return UploadAnswer(500, FormatError, None);
      }

      var interp := ML.ProcessPredictionResults(prediction.predictions.entries);

      answer := Persist(req, sv, processed, fileName, interp, prediction.modelInfo);
    }

    /** Stages 7 to 10 of uploadImageWithPrediction. */
    method Persist(req: UploadRequest, sv: Services, processed: IP.Processed, fileName: string,
                   interp: ML.Interpretation, modelInfo: Option<Json>)
      returns (answer: UploadAnswer)
      requires processed.Processed?
      modifies this, storage
      ensures var p := PersistPlan(storage.name, req, sv, processed, fileName, interp, modelInfo);
              && answer == p.answer
              && storage.objects == Stored(old(storage.objects), p.blob)
              && images == Plus(old(images), p.image)
              && diagnoses == Plus(old(diagnoses), p.diagnosis)
    {
      var uploadResult := storage.UploadFile(fileName, processed.buffer, req.mimeType, Folder(interp.predicted), sv.uploadFault);
      if uploadResult.UploadFailed? {
        return UploadAnswer(500, StorageError, None);
      }
      if uploadResult.UploadRejected? {
        // the awaited promise rejects; the handler's catch answers
        return UploadAnswer(500, InternalError, None);
      }

      if sv.imageInsert.WriteFailed? {
        return UploadAnswer(500, ImageRowError, None);
      }
      var imageId := sv.imageInsert.insertId;
      images := images + [ImageRow(imageId, req.userId, fileName, uploadResult.fileName, "upload")];

      var modelId := ModelId(sv.modelLookup);

      if sv.diagnosisInsert.WriteFailed? {
        return UploadAnswer(500, DiagnosisRowError, None);
      }
      var diagnosisId := sv.diagnosisInsert.insertId;
      diagnoses := diagnoses + [DiagnosisRow(diagnosisId, req.userId, modelId, imageId, interp.predicted, interp.confidence)];

      var data := (UploadedImage(imageId, fileName, uploadResult.publicUrl, |processed.buffer|,
                                 processed.metadata.width, processed.metadata.height),
                   PredictionView(diagnosisId, interp.predicted, interp.confidence, interp.isConfident,
                                  interp.allPredictions, modelInfo));
      answer := UploadAnswer(201, UploadSuccess, Some(data));
    }
  }

  // ---------------------------------------------------------------------------
  // Properties of the pipeline, over the stage results

  /** A stage runs only after every earlier one succeeded, and the writes follow
      the stage order: no blob before stage 7 succeeds, no image row without a
      blob, no diagnosis row without an image row, and 201 exactly when the
      diagnosis row was written. */
  lemma PlanOrder(bucket: string, req: UploadRequest, sv: Services, obs: Observations)
    ensures var p := StagePlan(bucket, req, sv, obs);
            && 1 <= p.ran <= |Stages|
            && (p.ran <= 7 ==> p.blob.None?)
            && (p.image.Some? ==> p.blob.Some? && p.ran == |Stages|)
            && (p.diagnosis.Some? ==> p.image.Some?)
  {
  }

  /** The answer carries data exactly when it is the 201, which is exactly
      when the diagnosis row was written. */
  lemma PlanAnswerShape(bucket: string, req: UploadRequest, sv: Services, obs: Observations)
    ensures var p := StagePlan(bucket, req, sv, obs);
            && (p.answer.status == 201 <==> p.diagnosis.Some?)
            && (p.answer.data.Some? <==> p.answer.status == 201)
  {
  }

  /** The pipeline reaches the persistence stages only with a valid image,
      a processed buffer, its base64 form and a well-formed prediction. */
  lemma PlanPreconditions(bucket: string, req: UploadRequest, sv: Services, obs: Observations)
    ensures StagePlan(bucket, req, sv, obs).ran >= 7 <==>
              obs.validation.Valid? && obs.processed.Processed? && obs.encoded
              && obs.prediction.Predicted? && obs.wellFormed
  {
  }

  /** An invalid image is the only 400, and carries the validator's message;
      every other failure is a 500, with the message of the stage that failed. */
  lemma PlanStatuses(bucket: string, req: UploadRequest, sv: Services, obs: Observations)
    ensures var p := StagePlan(bucket, req, sv, obs);
            && (p.answer.status == 400 <==> obs.validation.Invalid?)
            && (p.answer.status == 400 ==> p.answer.message == obs.validation.error)
            && (p.answer.status == 400 || p.answer.status == 500 || p.answer.status == 201)
    ensures var p := StagePlan(bucket, req, sv, obs);
            && (p.ran == 2 ==> p.answer.message == ProcessError)
            && (p.ran == 3 ==> p.answer.message == Base64Error)
            && (p.ran == 4 ==> p.answer.message == PredictionErrorPrefix + obs.prediction.error)
            && (p.ran == 5 ==> p.answer.message == FormatError)
  {
  }

  /** The blob is stored at user_uploads/<interpreted label>/<generated name>,
      with the processed bytes, the upload's declared type and the one-year
      cache lifetime, and the image row records that path. */
  lemma BlobPath(bucket: string, req: UploadRequest, sv: Services, obs: Observations)
    ensures var p := StagePlan(bucket, req, sv, obs);
            p.blob.Some? ==>
              && p.blob.value.0 == "user_uploads/" + obs.interp.predicted + "/" + obs.fileName
              && p.blob.value.1 == CS.StoredObject(obs.processed.buffer, req.mimeType, CS.CacheControl)
              && (p.image.Some? ==> p.image.value.path == p.blob.value.0 && p.image.value.filename == obs.fileName)
  {
  }

  /** The persisted rows: the diagnosis references the image row's insertId,
      carries the interpreted label and confidence, and a failed or empty model
      lookup leaves model_id null without stopping the pipeline. */
  lemma PlanRows(bucket: string, req: UploadRequest, sv: Services, obs: Observations)
    ensures var p := StagePlan(bucket, req, sv, obs);
            p.diagnosis.Some? ==>
              && p.diagnosis.value.imageId == p.image.value.id == sv.imageInsert.insertId
              && p.diagnosis.value.userId == p.image.value.userId == req.userId
              && p.diagnosis.value.disease == obs.interp.predicted
              && p.diagnosis.value.confidence == obs.interp.confidence
              && p.diagnosis.value.modelId == ModelId(sv.modelLookup)
              && p.image.value.source == "upload"
    ensures var p := StagePlan(bucket, req, sv, obs);
            p.image.Some? && sv.diagnosisInsert.WriteOk? ==> p.diagnosis.Some?
  {
  }

  /** The failures after the upload leave what was written behind: a failed
      image insert leaves the blob (no delete is issued), a failed diagnosis
      insert leaves the blob and the image row. */
  lemma Orphans(bucket: string, req: UploadRequest, sv: Services, obs: Observations)
    ensures var p := StagePlan(bucket, req, sv, obs);
            p.blob.Some? && sv.imageInsert.WriteFailed? ==>
              p.answer == UploadAnswer(500, ImageRowError, None) && p.image.None?
    ensures var p := StagePlan(bucket, req, sv, obs);
            p.image.Some? && sv.diagnosisInsert.WriteFailed? ==>
              p.answer == UploadAnswer(500, DiagnosisRowError, None)
              && p.blob.Some? && p.diagnosis.None?
  {
  }

  /** A storage failure halts the pipeline at the upload stage with no write
      at all; a stream error surfaces as the handler's generic 500. */
  lemma UploadFailureWritesNothing(bucket: string, req: UploadRequest, sv: Services, obs: Observations)
    requires !sv.uploadFault.NoFault?
    ensures var p := StagePlan(bucket, req, sv, obs);
            p.blob.None? && p.image.None? && p.diagnosis.None? && p.ran <= 7
    ensures var p := StagePlan(bucket, req, sv, obs);
            p.ran == 7 && sv.uploadFault.StreamError? ==>
              p.answer == UploadAnswer(500, InternalError, None)
    ensures var p := StagePlan(bucket, req, sv, obs);
            p.ran == 7 && sv.uploadFault.ThrowsBeforeStream? ==>
              p.answer == UploadAnswer(500, StorageError, None)
  {
  }

  /** The image part of the 201 body reports the stored image: its row id,
      its public URL, the size of the processed buffer and its dimensions. */
  lemma SuccessImage(bucket: string, req: UploadRequest, sv: Services, obs: Observations)
    requires StagePlan(bucket, req, sv, obs).answer.status == 201
    ensures var p := StagePlan(bucket, req, sv, obs);
            p.answer.data.Some? && p.image.Some? && p.blob.Some? &&
              var image := p.answer.data.value.0;
              && image.id == p.image.value.id
              && image.url == CS.PublicUrl(bucket, p.blob.value.0)
              && image.size == |obs.processed.buffer|
              && image.width == obs.processed.metadata.width && image.height == obs.processed.metadata.height
              && p.answer.message == UploadSuccess
  {
  }

  /** The prediction part of the 201 body reports the diagnosis row and the
      interpretation. */
  lemma SuccessPrediction(bucket: string, req: UploadRequest, sv: Services, obs: Observations)
    requires StagePlan(bucket, req, sv, obs).answer.status == 201
    ensures var p := StagePlan(bucket, req, sv, obs);
            p.answer.data.Some? && p.diagnosis.Some? &&
              var prediction := p.answer.data.value.1;
              && prediction.id == p.diagnosis.value.id
              && prediction.disease == p.diagnosis.value.disease
              && prediction.confidence == p.diagnosis.value.confidence
              && prediction.isConfident == obs.interp.isConfident
              && prediction.allPredictions == obs.interp.allPredictions
              && prediction.modelInfo == obs.prediction.modelInfo
  {
  }

  /** The flow with every collaborator succeeding: user 42's photo classified
      {Coccidiosis: 0.85, ND: 0.1, Sehat: 0.05} is stored under
      user_uploads/Coccidiosis/, gets an image row for user 42 and a diagnosis
      row labelled Coccidiosis at 0.85, and the answer is confident. */
  lemma ConfidentCoccidiosis(bucket: string, sv: Services, name: string, mime: string, obs: Observations)
    requires obs.validation.Valid? && obs.processed.Processed? && obs.encoded
    requires obs.prediction == ML.PredictImage(ML.Responded(ML.Body(true, ML.Object(ML.CoccidiosisCase), None, None)))
    requires obs.wellFormed == ML.Accepted(ML.Object(ML.CoccidiosisCase))
    requires obs.interp == ML.Interpret(ML.CoccidiosisCase)
    requires sv.uploadFault.NoFault? && sv.imageInsert.WriteOk? && sv.diagnosisInsert.WriteOk?
    ensures var p := StagePlan(bucket, UploadRequest(42, name, mime), sv, obs);
            && p.answer.status == 201
            && StartsWith(p.blob.value.0, "user_uploads/Coccidiosis/")
            && p.image.value.userId == 42
            && p.diagnosis.value.disease == "Coccidiosis"
            && p.diagnosis.value.confidence == ML.Num(0.85)
            && p.answer.data.value.1.isConfident
  {
    ML.CoccidiosisIsConfident();
    assert CS.FilePath(Folder("Coccidiosis"), obs.fileName) == "user_uploads/Coccidiosis/" + obs.fileName;
    StartsWithAppend("user_uploads/Coccidiosis/", obs.fileName);
  }

  /** When every stage succeeds the answer is the 201, and the diagnosis row
      and the body carry the interpretation. */
  lemma AllStagesSucceed(bucket: string, req: UploadRequest, sv: Services, obs: Observations)
    requires obs.validation.Valid? && obs.processed.Processed? && obs.encoded
    requires obs.prediction.Predicted? && obs.wellFormed
    requires sv.uploadFault.NoFault? && sv.imageInsert.WriteOk? && sv.diagnosisInsert.WriteOk?
    ensures var p := StagePlan(bucket, req, sv, obs);
            && p.answer.status == 201 && p.diagnosis.Some? && p.answer.data.Some?
            && p.diagnosis.value.disease == obs.interp.predicted
            && p.diagnosis.value.confidence == obs.interp.confidence
            && p.answer.data.value.1.isConfident == obs.interp.isConfident
  {
  }

  /** The defect of the sum check end to end: the classifier's {Coccidiosis: 1,
      ND: 1, Sehat: 1, note: "n/a"} passes the check as written, so the photo is
      stored and diagnosed as a confident Coccidiosis at 1 with a 201. */
  lemma SumOfThreeStored(bucket: string, req: UploadRequest, sv: Services, obs: Observations)
    requires obs.validation.Valid? && obs.processed.Processed? && obs.encoded
    requires obs.prediction == ML.PredictImage(ML.Responded(ML.Body(true, ML.Object(ML.SumOfThreeCase), None, None)))
    requires obs.wellFormed == ML.Accepted(ML.Object(ML.SumOfThreeCase))
    requires obs.interp == ML.Interpret(ML.SumOfThreeCase)
    requires sv.uploadFault.NoFault? && sv.imageInsert.WriteOk? && sv.diagnosisInsert.WriteOk?
    ensures var p := StagePlan(bucket, req, sv, obs);
            && p.answer.status == 201
            && p.diagnosis.value.disease == "Coccidiosis"
            && p.diagnosis.value.confidence == ML.Num(1.0)
            && p.answer.data.value.1.isConfident
  {
    ML.SumOfThreeAccepted();
    ML.SumOfThreeInterpretation();
    AllStagesSucceed(bucket, req, sv, obs);
  }

  /** With the corrected check in its place, the same answer is refused as
      malformed and nothing is written. */
  lemma SumOfThreeRefusedWhenCorrected(bucket: string, req: UploadRequest, sv: Services, obs: Observations)
    requires obs.validation.Valid? && obs.processed.Processed? && obs.encoded
    requires obs.prediction == ML.PredictImage(ML.Responded(ML.Body(true, ML.Object(ML.SumOfThreeCase), None, None)))
    requires obs.wellFormed == ML.ValidPrediction(ML.Object(ML.SumOfThreeCase))
    ensures var p := StagePlan(bucket, req, sv, obs);
            && p.answer == UploadAnswer(500, FormatError, None)
            && p.blob.None? && p.image.None? && p.diagnosis.None?
  {
    ML.SumOfThreeAccepted();
  }

  // ---------------------------------------------------------------------------
  // getImageHistory

  /** The authenticated caller. */
  datatype Caller = Caller(id: int, role: string)

  /** One row of the history SELECT (images left-joined with their diagnosis
      and its verifier). */
  datatype HistoryRow = HistoryRow(id: int, filename: string, path: string, uploadedAt: string,
                                   diagnosisId: Option<int>, disease: Option<string>, confidence: Option<real>,
                                   verifiedBy: Option<int>, verifiedAt: Option<string>, verifiedByName: Option<string>)

  datatype DiagnosisView = DiagnosisView(id: int, disease: Option<string>, confidence: Option<real>, verified: bool,
                                         verifiedBy: Option<string>, verifiedAt: Option<string>)

  datatype HistoryImage = HistoryImage(id: int, filename: string, url: string, uploadedAt: string,
                                       diagnosis: Option<DiagnosisView>)

  datatype CountRead = CountOk(total: nat) | CountFailed
  datatype RowsRead = RowsOk(rows: seq<HistoryRow>) | RowsFailed

  /** The statements the handler issues, with their parameters. */
  datatype Statement = CountImages(userId: Option<int>) | FetchImages(userId: Option<int>, limit: int, offset: int)

  datatype HistoryAnswer =
    | HistoryDenied                              // 403 'Access denied'
    | HistoryFailed                              // 500 'Failed to fetch image history'
    | HistoryPage(images: seq<HistoryImage>, page: int, limit: int, total: nat, pages: int)

  function AnswerReply(a: HistoryAnswer): Reply
  {
    match a
    case HistoryDenied => Reply(403, "Access denied")
    case HistoryFailed => Reply(500, "Failed to fetch image history")
    case HistoryPage(_, _, _, _, _) => Reply(200, "")
  }

  /** `Math.ceil(a / b)` on integers. */
  function CeilDiv(a: int, b: int): int
    requires b != 0
  {
    if b > 0 then (a + b - 1) / b else (-a - b - 1) / (-b)
  }

  /** `pages` pages of `limit` rows hold `total` rows, and one page fewer
      would not. */
  predicate Covers(pages: int, limit: int, total: int)
  {
    (pages - 1) * limit < total <= pages * limit
  }

  lemma CeilDivBounds(a: int, b: int)
    requires b > 0
    ensures Covers(CeilDiv(a, b), b, a)
  {
    var q := (a + b - 1) / b;
    var m := (a + b - 1) % b;
    assert a + b - 1 == b * q + m && 0 <= m < b;
    assert (q - 1) * b == b * q - b;
    assert q * b == b * q;
  }

  /** page, limit and offset from the query string. */
  datatype Paging = Paging(page: int, limit: int, offset: int)

  function HistoryPaging(page: Option<string>, limit: Option<string>): (p: Paging)
    ensures p.limit != 0 && p.page != 0
    ensures p.offset == (p.page - 1) * p.limit
    ensures ParseIntOpt(page).None? || ParseIntOpt(page) == Some(0) ==> p.page == 1
    ensures ParseIntOpt(limit).None? || ParseIntOpt(limit) == Some(0) ==> p.limit == 10
    ensures ParseIntOpt(page).Some? && ParseIntOpt(page).value != 0 ==> p.page == ParseIntOpt(page).value
    ensures ParseIntOpt(limit).Some? && ParseIntOpt(limit).value != 0 ==> p.limit == ParseIntOpt(limit).value
  {
    var pg := ParseIntOr(page, 1);
    var lim := ParseIntOr(limit, 10);
    Paging(pg, lim, (pg - 1) * lim)
  }

  /** `role === 'administrator'` or the caller's id equals the parsed route id
      (a NaN id equals no one). */
  predicate MayReadHistory(caller: Caller, userId: Option<int>)
  {
    userId == Some(caller.id) || caller.role == "administrator"
  }

  function DescribeRow(bucket: string, row: HistoryRow): (h: HistoryImage)
    ensures h.id == row.id && h.url == CS.PublicUrl(bucket, row.path)
    ensures h.diagnosis.Some? <==> row.diagnosisId.Some? && row.diagnosisId.value != 0
    ensures h.diagnosis.Some? ==> h.diagnosis.value.verified == (row.verifiedBy.Some? && row.verifiedBy.value != 0)
  {
    HistoryImage(row.id, row.filename, CS.PublicUrl(bucket, row.path), row.uploadedAt,
      if row.diagnosisId.Some? && row.diagnosisId.value != 0 then
        Some(DiagnosisView(row.diagnosisId.value, row.disease, row.confidence,
                           row.verifiedBy.Some? && row.verifiedBy.value != 0, row.verifiedByName, row.verifiedAt))
      else None)
  }

  function DescribeRows(bucket: string, rows: seq<HistoryRow>): (r: seq<HistoryImage>)
    ensures |r| == |rows|
    ensures forall i :: 0 <= i < |rows| ==> r[i] == DescribeRow(bucket, rows[i])
  {
    if rows == [] then [] else [DescribeRow(bucket, rows[0])] + DescribeRows(bucket, rows[1..])
  }

  /** getImageHistory: the answer and the statements issued, given what the
      two queries return. */
  function GetImageHistory(bucket: string, caller: Caller, userIdParam: string, page: Option<string>,
                           limit: Option<string>, count: CountRead, rows: RowsRead): (HistoryAnswer, seq<Statement>)
  {
    var userId := ParseInt(userIdParam);
    var paging := HistoryPaging(page, limit);
    if !MayReadHistory(caller, userId) then (HistoryDenied, [])
    else
      var total := if count.CountOk? then count.total else 0;
      var issued := [CountImages(userId), FetchImages(userId, paging.limit, paging.offset)];
      if rows.RowsFailed? then (HistoryFailed, issued)
      else (HistoryPage(DescribeRows(bucket, rows.rows), paging.page, paging.limit, total, CeilDiv(total, paging.limit)),
            issued)
  }

  /** Access: a caller who is neither the owner nor an administrator gets 403
      before any statement is issued, whatever the database would return. */
  lemma HistoryAccess(bucket: string, caller: Caller, userIdParam: string, page: Option<string>, limit: Option<string>,
                      count: CountRead, rows: RowsRead)
    ensures var (a, issued) := GetImageHistory(bucket, caller, userIdParam, page, limit, count, rows);
            (a.HistoryDenied? <==> !MayReadHistory(caller, ParseInt(userIdParam)))
            && (a.HistoryDenied? ==> issued == [] && AnswerReply(a) == Reply(403, "Access denied"))
    ensures caller.role == "administrator" ==>
              !GetImageHistory(bucket, caller, userIdParam, page, limit, count, rows).0.HistoryDenied?
    ensures ParseInt(userIdParam).None? && caller.role != "administrator" ==>
              GetImageHistory(bucket, caller, userIdParam, page, limit, count, rows).0.HistoryDenied?
  {
  }

  /** The owner reading their own history by id passes the check. */
  lemma OwnerMayRead(caller: Caller)
    ensures MayReadHistory(caller, ParseInt(IntToString(caller.id)))
  {
    ParseIntRoundTrip(caller.id);
  }

  /** Pagination: the count and the page query are issued for the parsed id
      with the page's limit and offset; a failed count reports total 0. */
  lemma HistoryPagination(bucket: string, caller: Caller, userIdParam: string, page: Option<string>,
                          limit: Option<string>, count: CountRead, rows: seq<HistoryRow>)
    requires MayReadHistory(caller, ParseInt(userIdParam))
    ensures var (a, issued) := GetImageHistory(bucket, caller, userIdParam, page, limit, count, RowsOk(rows));
            var p := HistoryPaging(page, limit);
            && a.HistoryPage?
            && issued == [CountImages(ParseInt(userIdParam)), FetchImages(ParseInt(userIdParam), p.limit, p.offset)]
            && a.total == (if count.CountOk? then count.total else 0)
            && a.page == p.page && a.limit == p.limit
            && |a.images| == |rows|
  {
  }

  /** With a positive limit, pages is the least page count covering the total. */
  lemma HistoryPages(bucket: string, caller: Caller, userIdParam: string, page: Option<string>,
                     limit: Option<string>, count: CountRead, rows: seq<HistoryRow>)
    requires MayReadHistory(caller, ParseInt(userIdParam))
    ensures var a := GetImageHistory(bucket, caller, userIdParam, page, limit, count, RowsOk(rows)).0;
            a.HistoryPage? && (a.limit > 0 ==> Covers(a.pages, a.limit, a.total))
  {
    var p := HistoryPaging(page, limit);
    var total := if count.CountOk? then count.total else 0;
    if p.limit > 0 {
      CeilDivBounds(total, p.limit);
    }
  }

  /** The defaults: with no page or limit, page 1 of 10 starting at offset 0. */
  lemma HistoryDefaults()
    ensures HistoryPaging(None, None) == Paging(1, 10, 0)
    ensures CeilDiv(25, 10) == 3 && CeilDiv(30, 10) == 3 && CeilDiv(0, 10) == 0
  {
  }

  // ---------------------------------------------------------------------------
  // The history route: parameter and query validation, the owner gate, then
  // the handler

  /** Where a request to the route ends: answered by a gate, or by the handler. */
  datatype RouteOutcome = Stopped(reply: Reply) | Handled(answer: HistoryAnswer, issued: seq<Statement>)

  /** The query string as the validator sees it. */
  function QueryFields(page: Option<string>, limit: Option<string>): map<string, Json>
  {
    var m := if page.Some? then map["page" := JStr(page.value)] else map[];
    if limit.Some? then m["limit" := JStr(limit.value)] else m
  }

  /** GET /history/:userId after authentication, with `paramSchema` as the
      route's parameter schema; `details` are what the validator reports. */
  function HistoryChain(paramSchema: V.Schema, f: V.Formats, details: seq<V.Detail>, user: AM.User, bucket: string,
                        userIdParam: string, page: Option<string>, limit: Option<string>,
                        count: CountRead, rows: RowsRead): RouteOutcome
  {
    var params := V.Validate(paramSchema, V.Fields(map["userId" := JStr(userIdParam)]), f, details);
    if params.ValidationFailed? then Stopped(Reply(params.status, params.message))
    else
      var query := V.Validate(V.PaginationSchema, V.Fields(QueryFields(page, limit)), f, details);
      if query.ValidationFailed? then Stopped(Reply(query.status, query.message))
      else
        var gate := AM.RequireOwnerOrAdmin("userId", Some(user), map["userId" := userIdParam], map[]);
        if gate.Respond? then Stopped(gate.reply)
        else
          var (answer, issued) := GetImageHistory(bucket, Caller(user.id, user.role), userIdParam, page, limit, count, rows);
          Handled(answer, issued)
  }

  /** The route as written names the id schema, which refuses `{userId}`:
      every request is answered 400 and the handler never runs. */
  lemma HistoryRouteAsWritten(f: V.Formats, details: seq<V.Detail>, user: AM.User, bucket: string,
                              userIdParam: string, page: Option<string>, limit: Option<string>,
                              count: CountRead, rows: RowsRead)
    ensures HistoryChain(V.IdParamSchema, f, details, user, bucket, userIdParam, page, limit, count, rows)
            == Stopped(Reply(400, "Validation error"))
  {
    V.IdSchemaRefusesUserIdParams(JStr(userIdParam), f);
  }

  /** With the parameter schema it means, an owner asking for their own
      history without paging parameters reaches the handler and gets page 1
      of 10. */
  lemma HistoryRouteServesOwner(f: V.Formats, details: seq<V.Detail>, user: AM.User, bucket: string,
                                count: CountRead, rows: seq<HistoryRow>)
    requires 1 <= user.id <= V.MaxSafeInteger
    ensures var out := HistoryChain(V.UserIdParamSchema, f, details, user, bucket, IntToString(user.id),
                                    None, None, count, RowsOk(rows));
            && out.Handled?
            && out.answer.HistoryPage?
            && out.answer.page == 1 && out.answer.limit == 10
            && |out.answer.images| == |rows|
  {
    V.UserIdSchemaAcceptsIds(user.id, f);
    V.PaginationMeaning(map[], f);
    ParseIntRoundTrip(user.id);
    assert QueryFields(None, None) == map[];
  }

  /** Past the parameter check, a caller who is neither the owner nor an
      administrator is stopped by the owner gate with 403, before the handler. */
  lemma HistoryRouteRefusesOthers(f: V.Formats, details: seq<V.Detail>, user: AM.User, bucket: string,
                                  other: int, count: CountRead, rows: RowsRead)
    requires 1 <= other <= V.MaxSafeInteger && other != user.id && user.role != AM.Administrator
    ensures HistoryChain(V.UserIdParamSchema, f, details, user, bucket, IntToString(other), None, None, count, rows)
            == Stopped(Reply(403, AM.OwnResourcesOnly))
  {
    V.UserIdSchemaAcceptsIds(other, f);
    V.PaginationMeaning(map[], f);
    AM.OthersRefused("userId", user, other, map[]);
    assert QueryFields(None, None) == map[];
  }
}
