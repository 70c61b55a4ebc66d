# ChickFit backend core in Dafny

ChickFit is a backend for poultry farmers. A farmer uploads a photo of a
chicken. The server checks it, recompresses it and sends it to a classifier
that scores three diseases: Coccidiosis, ND (Newcastle disease) and Sehat
(healthy). It then stores the photo in a cloud bucket and records an image row
and a diagnosis row. Around this pipeline sit the request gates: bearer-token
authentication, role and owner checks, request schemas, and the multipart
upload filter. The account handlers are modelled too: register, login,
profile update and password change.

Each source file of the core is one Dafny module:

| module | file | models |
|---|---|---|
| `MlService` | ml_service.dfy | `src/services/mlService.js`: reply mapping, prediction check, label choice |
| `ImageProcessor` | image_processor.dfy | `src/utils/imageProcessor.js`: dimension gate, re-encode ladder, file names |
| `ImageController` | image_controller.dfy | `src/controllers/imageController.js`: the upload pipeline over the bucket and two tables, the image history; the history route of `src/routes/images.js` |
| `CloudStorage` | cloud_storage.dfy | `src/config/cloudStorage.js`: the bucket, paths and URLs, the error wrapping |
| `AuthConfig` | auth_config.dfy | `src/config/auth.js`: JWT settings, header extraction, expiry |
| `AuthMiddleware` | auth_middleware.dfy | `src/middleware/auth.js`: authentication, role and owner gates |
| `Validation` | validation.dfy | `src/middleware/validation.js`: the Joi schemas as predicates, `validate` |
| `Upload` | upload.dfy | `src/middleware/upload.js`: file filter, limits, error mapping |
| `AuthController` | auth_controller.dfy | `src/controllers/authController.js`: register, login, updateProfile, changePassword |
| `Common`, `JsText` | common.dfy, js_text.dfy | JSON values, truthiness and replies; the JavaScript string operations the code uses (`parseInt`, `split`, `join`, `toLowerCase`, `length`, number rendering) |

How the model is built:

- **Code that changes state is imperative.**
  - `CloudStorage.Bucket` is a class whose `objects` map is written by `UploadFile` and `DeleteFile`.
  - `ImageController.Backend` holds the bucket and the `images` and `diagnoses` tables.
  - `AuthMiddleware.Request` holds the `user` field that the authentication middleware sets.
- **Loops stay loops.** These are methods proved against a specification function:
  - `ProcessImage`: the re-encode loop.
  - `ValidatePredictionResponse` and `ProcessPredictionResults`.
  - `BuildProfileUpdate`: the array pushes.
- **Collaborators are parameters.** The image library, the classifier, the database, the clock and the uuid generator are passed in as values or functions. So is the outcome of each call: a row, a failure or a throw.

Two points of the code's order are easy to misread:
- **Classifier before storage.** The pipeline runs the classifier before it writes the blob (`imageController.js:54` and `:77`). The blob's folder depends on the predicted label.
- **Quality 10 is never tried.** The quality loop stops before quality 10, because its guard is `reduceQuality > 10` (`imageProcessor.js:29`).

## Model

| member | source | states |
|---|---|---|
| MlService.Lookup | src/services/mlService.js:168-173 | `name in predictions` holds iff some entry has that key; the value found belongs to an entry with that key |
| MlService.ValidatePredictionResponse | src/services/mlService.js:159-186 | the early-return loop over the three labels and the reduce decide `Accepted`: an object, the three labels numbers in [0,1], the sum check passes |
| MlService.AcceptedMeaning | src/services/mlService.js:160-185 | refusal in each case: a non-object, a missing label, or a label that is not a number in [0,1]. Extra keys are never range-checked. Without text values, the answer is true iff the sum of all values is within 0.01 of 1 |
| MlService.Accepted | src/services/mlService.js:159-186 | the specification of validatePredictionResponse as written; its meaning is stated by AcceptedMeaning and TextValueDefeatsSumCheck |
| MlService.TextValueDefeatsSumCheck | src/services/mlService.js:179-185 | as written, a text value (one whose string form holds a character no numeric string can hold) turns the sum into a string that is NaN as a number; then the check passes whatever the numbers add up to |
| MlService.SumOfThreeAccepted | src/services/mlService.js:179-185 | the three labels at 1.0 plus the note "n/a" are accepted as written, though they sum to 3 (the reduce gives "3n/a"); the corrected check refuses them |
| MlService.ValidPredictionMeaning | src/services/mlService.js:179-185 | the corrected check implies the written one. Its pass means no text values, labels in range and a numeric sum within 0.01 of 1. On maps without text the two checks agree |
| MlService.ProcessPredictionResults | src/services/mlService.js:122-156 | the loop over the keys computes `Interpret`: the label and confidence of the last strict improvement on the running maximum, the map unchanged, and the flag |
| MlService.ScanResult | src/services/mlService.js:130-136 | from a running maximum, the scan either keeps it (no value exceeds it) or ends at the first entry holding the strict maximum above it |
| MlService.InterpretIsFirstMaximum | src/services/mlService.js:125-144 | the result is the first entry with the greatest confidence above 0 (a later equal value never wins), else Sehat at 0; `is_confident` iff confidence ≥ 0.7; `all_predictions` is the input |
| MlService.FirstMaximumUnique | src/services/mlService.js:130-136 | the first strict maximum is unique, so the label is determined |
| MlService.ReferenceInterpretations | src/services/mlService.js:125-144 | {0.2, 0.1, 0.7} gives a confident Sehat at 0.7; the tie {0.5, 0.5, 0} gives Coccidiosis; the empty map gives Sehat at 0 |
| MlService.CoccidiosisIsConfident | src/services/mlService.js:122-186 | {Coccidiosis 0.85, ND 0.1, Sehat 0.05} passes the check as written and corrected, and is a confident Coccidiosis at 0.85 |
| MlService.SumOfThreeInterpretation | src/services/mlService.js:125-144 | the defect's map is read as a confident Coccidiosis at 1: equal later labels and the text note never displace it |
| MlService.PredictImage | src/services/mlService.js:7-42 | success iff the service replied with a body whose `success` is true, and then the predictions are the body's |
| MlService.PredictImageMessages | src/services/mlService.js:22-40 | the error text is the service's own message when truthy, else 'Prediction failed' for a reply that says it failed, else 'ML service unavailable'; a falsy model_info becomes null |
| ImageProcessor.ValidateImage | src/utils/imageProcessor.js:83-127 | valid iff the metadata was read, has a format, and both sides lie in [100, 4000]; a valid result carries that metadata |
| ImageProcessor.ValidateImageOrder | src/utils/imageProcessor.js:88-113 | a missing format is reported before any size; too small before too large; a failed read gives 'Failed to validate image' |
| ImageProcessor.NarrowTallIsTooSmall | src/utils/imageProcessor.js:101-106 | a 50 x 5000 image is reported too small |
| ImageProcessor.Budget | src/utils/imageProcessor.js:25 | the byte budget is MAX_IMAGE_SIZE when it parses to a non-zero integer, else 1048576 |
| ImageProcessor.BudgetOfSetting | src/utils/imageProcessor.js:25 | every non-zero decimal setting is taken as written |
| ImageProcessor.BudgetFallback | src/utils/imageProcessor.js:25 | unset or non-numeric settings give 1 MiB |
| ImageProcessor.Encodes | src/utils/imageProcessor.js:16-51 | at least one encode runs and at most the whole ladder |
| ImageProcessor.ProcessImage | src/utils/imageProcessor.js:6-67 | the encodes run are exactly the first `Encodes` steps of the ladder, in order; the result is the last one's buffer with its metadata, or a failure when an encode or the metadata read throws |
| ImageProcessor.EncodesMeaning | src/utils/imageProcessor.js:26-51 | every encode before the last came out over budget; the last one threw, fitted, or was the final step |
| ImageProcessor.RetriesShape | src/utils/imageProcessor.js:28-38 | starting from quality r, retry i uses quality r - 10i, and all are above 10; the next would be 10 or less |
| ImageProcessor.DefaultLadder | src/utils/imageProcessor.js:8-51 | with defaults: 80, then 70 down to 20 at 1024 x 1024, then 819 x 819 at 70; eight encodes, never quality 10 |
| ImageProcessor.ProcessStops | src/utils/imageProcessor.js:26-58 | a first encode within budget is the only one; an over-budget result means the whole ladder ran; any earlier stop is within budget |
| ImageProcessor.Extname | src/utils/imageProcessor.js:73 | `path.extname` is empty or a '.'-led, slash-free suffix of the name with no further '.' |
| ImageProcessor.ExtnameOfName | src/utils/imageProcessor.js:73 | for `stem.ext` the extension is "." + ext, except for an empty stem or the name ".." |
| ImageProcessor.Extension | src/utils/imageProcessor.js:73 | the lower-cased extension, or '.jpg' when there is none; always '.'-led |
| ImageProcessor.ExtensionOfName | src/utils/imageProcessor.js:73 | `stem.EXT` gets "." + lower-case ext |
| ImageProcessor.GenerateFileName | src/utils/imageProcessor.js:70-80 | the specification of generateFileName; its properties are FileNameShape, FileNameOwner, FileNameWithoutOwner, StampParts and StampOfName |
| ImageProcessor.FileNameShape | src/utils/imageProcessor.js:70-80 | the name ends with the stamp, and starts with "id_" when the uploader id is truthy |
| ImageProcessor.FileNameOwner | src/utils/imageProcessor.js:75-77 | `parseInt` of the name recovers a non-zero uploader id |
| ImageProcessor.FileNameWithoutOwner | src/utils/imageProcessor.js:79 | without a truthy id the name is the stamp, and `parseInt` of it is the timestamp |
| ImageProcessor.StampParts | src/utils/imageProcessor.js:71-79 | the stamp is timestamp, '_', the uuid up to its first '-', then the extension |
| ImageProcessor.StampOfName | src/utils/imageProcessor.js:72-79 | for uuid `u-rest` and name `stem.ext` the stamp is `ts_u.ext` with ext lower-cased |
| ImageController.ModelId | src/controllers/imageController.js:106-109 | the model id is null iff the lookup failed or returned no rows, else the first row's id |
| ImageController.Backend.UploadImageWithPrediction | src/controllers/imageController.js:16-166 | the answer and the new bucket, images and diagnoses are exactly those of `UploadPlan`, the stage sequence over the collaborators' outcomes, with the prediction check as written (`MlService.Accepted`) |
| ImageController.Backend.Classify | src/controllers/imageController.js:42-157 | stages 3 to 10 once the image is processed, calling validatePredictionResponse as written: answer and state changes as `StagePlan` says |
| ImageController.Backend.Persist | src/controllers/imageController.js:76-157 | blob upload, image insert, model lookup, diagnosis insert: each state change and the answer as `PersistPlan` says |
| ImageController.PlanOrder | src/controllers/imageController.js:24-129 | stages run in order, 1 to 10; no blob before stage 7, no image row without a blob, no diagnosis row without an image row |
| ImageController.PlanAnswerShape | src/controllers/imageController.js:124-157 | 201 iff the diagnosis row was written, and only the 201 carries data |
| ImageController.PlanPreconditions | src/controllers/imageController.js:24-71 | the upload stage is reached iff validation, processing, base64 and prediction succeeded and the prediction passed validatePredictionResponse |
| ImageController.PlanStatuses | src/controllers/imageController.js:25-68 | only an invalid image gives 400, with the validator's message; every other failure is a 500 with its stage's message |
| ImageController.BlobPath | src/controllers/imageController.js:74-94 | the blob sits at user_uploads/label/fileName and holds the processed bytes, the declared type and the one-year cache header; the image row records that path |
| ImageController.PlanRows | src/controllers/imageController.js:86-122 | the diagnosis row points at the image row's insertId and carries the user, label and confidence; model_id follows `ModelId` and its failure does not stop the pipeline |
| ImageController.Orphans | src/controllers/imageController.js:96-129 | a failed image insert leaves the blob; a failed diagnosis insert leaves the blob and the image row; both answer 500 |
| ImageController.UploadFailureWritesNothing | src/controllers/imageController.js:77-83 | a storage fault writes nothing; a throw before the stream answers 'Failed to upload image to storage', a stream error the generic 500 |
| ImageController.SuccessImage | src/controllers/imageController.js:134-147 | the 201 body's image has the row id, the public URL of the stored path, the processed size and dimensions |
| ImageController.SuccessPrediction | src/controllers/imageController.js:148-155 | the 201 body's prediction has the diagnosis id, label, confidence, flag, full map and model info |
| ImageController.ConfidentCoccidiosis | src/controllers/imageController.js:16-157 | user 42 with classifier output {0.85, 0.1, 0.05}: 201, stored under user_uploads/Coccidiosis/, rows for user 42 labelled Coccidiosis at 0.85, confident |
| ImageController.AllStagesSucceed | src/controllers/imageController.js:24-157 | when every stage succeeds the answer is the 201, and the diagnosis row and the body carry the interpretation's label, confidence and flag |
| ImageController.SumOfThreeStored | src/controllers/imageController.js:63-157 | as written, the classifier's {1, 1, 1, note "n/a"} passes the check, and the photo is stored and diagnosed as a confident Coccidiosis at 1 with a 201 |
| ImageController.SumOfThreeRefusedWhenCorrected | src/controllers/imageController.js:63-68 | with the corrected check the same answer gets 500 'Invalid prediction response format' and nothing is written |
| ImageController.CeilDivBounds | src/controllers/imageController.js:241 | `Math.ceil(total / limit)` is the least page count covering the total |
| ImageController.GetImageHistory | src/controllers/imageController.js:169-243 | the specification of getImageHistory: statements issued and answer; its properties are HistoryAccess, HistoryPagination, HistoryPages and HistoryDefaults |
| ImageController.HistoryPaging | src/controllers/imageController.js:172-174 | page and limit are the parsed values unless NaN or 0, then 1 and 10; offset = (page - 1) * limit |
| ImageController.DescribeRow | src/controllers/imageController.js:218-231 | each row keeps its id and gets the public URL of its path; a diagnosis object exists iff the diagnosis id is truthy, with `verified` = truthy verifier |
| ImageController.DescribeRows | src/controllers/imageController.js:218-231 | the map keeps order and length |
| ImageController.HistoryAccess | src/controllers/imageController.js:177-182 | 403 with no query issued iff the caller is neither the owner nor an administrator; a NaN id admits only administrators |
| ImageController.OwnerMayRead | src/controllers/imageController.js:171-177 | the owner's rendered id parses back to the owner |
| ImageController.HistoryPagination | src/controllers/imageController.js:185-240 | an admitted caller gets the count and the page query for the parsed id with the page's limit and offset; a failed count reports total 0 |
| ImageController.HistoryPages | src/controllers/imageController.js:237-242 | with a positive limit, `pages` pages of `limit` rows cover the total and one fewer would not |
| ImageController.HistoryDefaults | src/controllers/imageController.js:172-174 | no query gives page 1 of 10 at offset 0 |
| ImageController.HistoryRouteAsWritten | src/routes/images.js:19-25 | with the id schema on `{userId}` every request gets 400 'Validation error' and the handler never runs |
| ImageController.HistoryRouteServesOwner | src/routes/images.js:19-25 | with a `userId` schema the owner reaches the handler and gets page 1 of 10 |
| ImageController.HistoryRouteRefusesOthers | src/routes/images.js:19-25 | with a `userId` schema, anyone else who is not an administrator is stopped by the owner gate with 403 |
| CloudStorage.FilePath | src/config/cloudStorage.js:14 | the path is the file name under an empty folder, else folder + "/" + name |
| CloudStorage.PublicUrl | src/config/cloudStorage.js:35 | the URL is the storage host, the bucket, '/', then the path |
| CloudStorage.UploadOutcome | src/config/cloudStorage.js:12-52 | success iff the client writes; it reports the full path and its URL; a throw before the stream gives `{success:false}` and a stream error a rejected promise |
| CloudStorage.UploadedUrlMatchesPath | src/config/cloudStorage.js:14-39 | the reported URL is the public address of the reported path |
| CloudStorage.Wrap | src/config/cloudStorage.js:84-93 | the helpers' try/catch: success iff the client returned, else the error message |
| CloudStorage.Bucket.UploadFile | src/config/cloudStorage.js:12-52 | settles as `UploadOutcome`; a write stores bytes, type and cache header at the path, and a fault leaves the bucket unchanged |
| CloudStorage.Bucket.DeleteFile | src/config/cloudStorage.js:55-63 | a delete removes the name and reports success; a throw changes nothing and reports its message |
| CloudStorage.Bucket.FileExists | src/config/cloudStorage.js:85-93 | reports whether the name is stored, or the thrown message |
| CloudStorage.UploadThenExists | src/config/cloudStorage.js:85-93 | after an upload the path exists and holds what was written |
| CloudStorage.SignedUploadOptions | src/config/cloudStorage.js:66-74 | v4 write options with the content type and expiry now + lifetime, which defaults to one hour |
| CloudStorage.GetSignedUploadUrl | src/config/cloudStorage.js:66-82 | success iff signing returns; otherwise its error message |
| CloudStorage.DescribeAll | src/config/cloudStorage.js:99-104 | one `{name, size, updated, contentType}` per file, in order |
| CloudStorage.ListFiles | src/config/cloudStorage.js:96-110 | a listing maps each file in order, a throw gives its message |
| CloudStorage.DescribeAllAppend | src/config/cloudStorage.js:99-104 | listing a concatenation lists each part in turn |
| AuthConfig.Config | src/config/auth.js:4-9 | issuer chickfit-api, audience chickfit-mobile-app, lifetime JWT_EXPIRE when set and non-empty, else 24h |
| AuthConfig.AccessTokenRequest | src/config/auth.js:12-23 | access tokens are signed with the configured lifetime, issuer and audience |
| AuthConfig.RefreshTokenRequest | src/config/auth.js:70-81 | refresh tokens last 7d under the same issuer and audience |
| AuthConfig.ExtractToken | src/config/auth.js:49-54 | a token iff the header exists and starts with the exact "Bearer "; the header is then "Bearer " + token |
| AuthConfig.ExtractOfBearer | src/config/auth.js:53 | extraction inverts prefixing: "Bearer " + t gives t for every t |
| AuthConfig.ExtractEdgeCases | src/config/auth.js:49-54 | no header, "", "bearer abc" and "Bearer" give null; "Bearer " gives the empty token |
| AuthConfig.IsTokenExpired | src/config/auth.js:57-67 | the specification of isTokenExpired; its properties are ExpiryMeaning, ExpiryIsMonotone and ExpiryBoundary |
| AuthConfig.ExpiryMeaning | src/config/auth.js:57-67 | expired when decoding fails or exp is missing or 0, else iff now ≥ exp·1000 |
| AuthConfig.ExpiryIsMonotone | src/config/auth.js:63 | a token once expired stays expired |
| AuthConfig.ExpiryBoundary | src/config/auth.js:63 | exp seconds expires exactly at exp·1000 ms |
| AuthMiddleware.UserOf | src/middleware/auth.js:30-36 | `req.user` takes id, role name and role id from the row |
| AuthMiddleware.FoundUser | src/middleware/auth.js:21-27 | a user iff the lookup succeeded with rows, and then the first row's |
| AuthMiddleware.Authenticate | src/middleware/auth.js:5-46 | the decision of authenticateToken; its properties are AuthenticateMeaning, NoTokenNoLookup and BareBearerRejected |
| AuthMiddleware.Request.AuthenticateToken | src/middleware/auth.js:5-46 | answers 401 or calls next as `Authenticate` decides, setting `user` exactly on admission |
| AuthMiddleware.Request.OptionalAuth | src/middleware/auth.js:107-132 | always calls next; sets `user` only when the token verifies and names a known user |
| AuthMiddleware.AuthenticateMeaning | src/middleware/auth.js:8-45 | rejections come in order with their messages: no token, verification fails, no user. On admission the user is the first row |
| AuthMiddleware.NoTokenNoLookup | src/middleware/auth.js:8-15 | without a token the answer does not depend on verification or the lookup |
| AuthMiddleware.BareBearerRejected | src/middleware/auth.js:8-15 | the header "Bearer " is answered 'Access token is required' |
| AuthMiddleware.AuthorizeRole | src/middleware/auth.js:49-67 | 401 without a user; next iff the role is allowed; else 403 naming the roles joined by ', ' |
| AuthMiddleware.PresetsAdmit | src/middleware/auth.js:70-79 | each preset admits exactly its roles |
| AuthMiddleware.VetOrAdminRefusal | src/middleware/auth.js:79 | the two-role preset's refusal names "veterinarian, administrator" |
| AuthMiddleware.ParseJson | src/middleware/auth.js:91 | `parseInt` of a body value: strings are parsed, non-negative numbers floored; booleans, null and objects are NaN |
| AuthMiddleware.RequireOwnerOrAdmin | src/middleware/auth.js:82-104 | 401 without a user; next iff the requested id parses to the user's id or the user is an administrator; else 403 |
| AuthMiddleware.ParamsTakePrecedence | src/middleware/auth.js:91 | a non-empty route parameter decides; the body is ignored |
| AuthMiddleware.OwnerPasses | src/middleware/auth.js:91-92 | the owner's rendered id passes from the route or the body |
| AuthMiddleware.OthersRefused | src/middleware/auth.js:91-100 | another id, or none, is refused with 403 for a non-administrator |
| Validation.IntegerValue | src/middleware/validation.js:155 | the integer a number field denotes: an integral number or a decimal string |
| Validation.FieldErrors | src/middleware/validation.js:11-14 | one entry per detail, field = path joined by '.', message kept |
| Validation.Validate | src/middleware/validation.js:4-19 | next iff the schema accepts the input; else 400 'Validation error' with the mapped details |
| Validation.NestedFieldName | src/middleware/validation.js:12 | the path [a, b] is reported as "a.b" |
| Validation.UnknownKeyRefused | src/middleware/validation.js:22-49 | every schema refuses a key it does not name, and a non-object |
| Validation.RegisterMeaning | src/middleware/validation.js:22-49 | accepted registration: name 2..100, password ≥ 6, a known role, and a veterinarian's specialization 2..200, all lengths in UTF-16 units |
| Validation.AstralNameRefused | src/middleware/validation.js:22 | a name of 51 characters beyond U+FFFF is 102 units long and refused |
| Validation.BasicNameLength | src/middleware/validation.js:22 | a name of 2..100 characters up to U+FFFF passes the name rule |
| Validation.SpecializationOptionalOtherwise | src/middleware/validation.js:40-48 | for other roles any specialization, or none, is accepted |
| Validation.VeterinarianNeedsSpecialization | src/middleware/validation.js:40-46 | a veterinarian without specialization is refused |
| Validation.ProfileUpdateMeaning | src/middleware/validation.js:63-75 | at least one field; name 2..100, specialization 2..200 UTF-16 units; booleans also as "TRUE"-style strings |
| Validation.PaginationMeaning | src/middleware/validation.js:164-176 | both optional; page ≥ 1, limit 1..100 |
| Validation.PaginationExamples | src/middleware/validation.js:164-176 | "2"/"100" accepted; limit "101" and page "0" refused |
| Validation.IdParamMeaning | src/middleware/validation.js:154-161 | the id is a positive integer: "7" passes, "0", -3, 2.5 and "abc" do not |
| Validation.MessageMeaning | src/middleware/validation.js:94-100 | a message is accepted iff it is the only key and a string of 1..1000 UTF-16 units |
| Validation.PrescriptionMeaning | src/middleware/validation.js:120-151 | positive diagnosis and farmer ids, medicine 2..500, instructions 10..1000, notes 1..500 (UTF-16 units), consultation id positive |
| Validation.ArticleMeaning | src/middleware/validation.js:103-117 | title 5..200, content ≥ 10 UTF-16 units, a thumbnail URL passes the URI check |
| Validation.IdSchemaRefusesUserIdParams | src/routes/images.js:21 | the id schema refuses `{userId: v}` for every v |
| Validation.UserIdSchemaAcceptsIds | src/routes/images.js:21 | a `userId` schema accepts every positive safe id as rendered |
| Upload.FileFilter | src/middleware/upload.js:8-21 | a non-image is refused first; an image type passes iff it is exactly one of the comma-split entries; else the entries joined by ', ' are named |
| Upload.NonImageRefusedFirst | src/middleware/upload.js:10-12 | a non-image is refused whatever the allow-list |
| Upload.SpacedListRefuses | src/middleware/upload.js:15-16 | entries are not trimmed: "a, t" refuses t, "a,t" accepts it |
| Upload.UploadLimits | src/middleware/upload.js:24-31 | one file; the byte limit is the parsed setting unless NaN or 0, then 1048576 |
| Upload.Parse | src/middleware/upload.js:24-34 | a parse that keeps files keeps all parts, within both count limits |
| Upload.RoundedMegabytesBounds | src/middleware/upload.js:43 | `Math.round` of bytes / 2^20 is the nearest integer, halves up |
| Upload.SizeMessageWithoutSetting | src/middleware/upload.js:43 | as written, with no setting the message says 'Maximum size is NaNMB' and with "0" it says 0, though 1 MB is enforced in both cases; the corrected message says 1MB |
| Upload.SizeMessageWithSetting | src/middleware/upload.js:43 | with a non-zero setting the two messages agree |
| Upload.ErrorReply | src/middleware/upload.js:39-61 | every error is a 400: filter errors keep their message, a size error gets the as-written size message, a count error the route's text, others 'Upload error: ' + message |
| Upload.HandleImageUpload | src/middleware/upload.js:37-73 | the specification of handleImageUpload; its properties are ImageUploadMeaning, ImageUploadEmpty and ImageUploadTooMany |
| Upload.ImageUploadMeaning | src/middleware/upload.js:37-73 | the single-file route calls next iff there is exactly one part and it is a good image |
| Upload.ImageUploadEmpty | src/middleware/upload.js:64-69 | no part gives 'No image file uploaded' |
| Upload.ImageUploadTooMany | src/middleware/upload.js:46-51 | a good image followed by another part gives 'Only one file is allowed per upload' |
| Upload.HandleMultipleImageUpload | src/middleware/upload.js:76-114 | handleMultipleImageUpload as written, under the shared one-file limit; its property is TwoImagesRefusedAsWritten |
| Upload.HandleMultipleFiveFileLimit | src/middleware/upload.js:76-114 | the multi-file route with the five-file limit it evidently means; its property is MultipleUploadMeaning |
| Upload.TwoImagesRefusedAsWritten | src/middleware/upload.js:76 | as written, the one-file limit is shared with `array('images', 5)` and two good images get 'Maximum 5 files allowed per upload' |
| Upload.MultipleUploadMeaning | src/middleware/upload.js:76-114 | corrected: 1 to 5 good images pass, a sixth is refused, none gives 'No image files uploaded' |
| AuthController.Register | src/controllers/authController.js:12-101 | the specification of register: writes issued and answer; its properties are RegisterRefusals, RegisterWrites and RegisterSucceeds |
| AuthController.RegisterRefusals | src/controllers/authController.js:16-32 | a known email gives 409, then an unknown role 400, both before any write; nothing is written exactly then |
| AuthController.RegisterWrites | src/controllers/authController.js:34-63 | the user row gets the password's hash and the role id; a second write sets the specialization iff the insert succeeded and a veterinarian gave a truthy one |
| AuthController.RegisterSucceeds | src/controllers/authController.js:48-92 | 201 iff no known email, a known role, the insert, the token and the read-back all succeed |
| AuthController.Login | src/controllers/authController.js:104-162 | login writes nothing |
| AuthController.LoginDoesNotRevealAccounts | src/controllers/authController.js:109-126 | a failed lookup, an unknown email and a wrong password get the same 401 |
| AuthController.LoginSucceeds | src/controllers/authController.js:117-153 | 200 iff the first account's hash matches and a token is made |
| AuthController.Clauses | src/controllers/authController.js:215 | one `column = ?` per assignment, in order |
| AuthController.Values | src/controllers/authController.js:216 | one bound value per assignment, in order |
| AuthController.BuildProfileUpdate | src/controllers/authController.js:210-238 | nothing to update iff no field may be set. Otherwise the statement joins the clauses of the given fields in order, and the values follow with the user id last |
| AuthController.AssignmentsMeaning | src/controllers/authController.js:214-227 | name is set for every role and comes first; specialization and is_available are set only for a veterinarian |
| AuthController.UpdateSqlCount | src/controllers/authController.js:238 | the statement holds one '?' per clause plus the id's |
| AuthController.PlaceholdersMatchValues | src/controllers/authController.js:236-238 | the number of '?' equals the number of bound values |
| AuthController.UpdateProfile | src/controllers/authController.js:205-276 | the specification of updateProfile; its properties are UpdateProfileMeaning and FarmerSpecializationIgnored |
| AuthController.UpdateProfileMeaning | src/controllers/authController.js:205-276 | 400 with no statement iff no field may be set; else one statement whose '?' match its values, id last; 200 iff it and the read-back succeed |
| AuthController.FarmerSpecializationIgnored | src/controllers/authController.js:219-234 | a farmer sending only a specialization gets 400 and no statement |
| AuthController.ChangePassword | src/controllers/authController.js:279-331 | the specification of changePassword; its property is ChangePasswordMeaning |
| AuthController.ChangePasswordMeaning | src/controllers/authController.js:284-322 | the new hash is written for this user only after the current password matched; a wrong one gives 401 and no write; 200 iff the write succeeds |
| JsText.ParseIntRoundTrip | src/middleware/auth.js:91 | `parseInt` reads back the decimal rendering of every integer |
| JsText.ParseIntOr | src/controllers/imageController.js:172-173 | `parseInt(x) \|\| d` is d or the parsed value, and never 0 unless d is |
| JsText.Split | src/middleware/upload.js:15 | `split` gives at least one piece, none containing the separator |
| JsText.JoinSplit | src/middleware/upload.js:15-17 | joining the pieces with the separator gives back the string |
| JsText.BeforeFirst | src/utils/imageProcessor.js:72 | `split('-')[0]` is a '-'-free prefix, followed by '-' when shorter |
| JsText.BeforeFirstOf | src/utils/imageProcessor.js:72 | for `u-rest` with no '-' in u it is u |
| JsText.Lower | src/utils/imageProcessor.js:73 | same length; ASCII capitals lower-cased, every other character kept |
| JsText.Utf16Length | src/middleware/validation.js:22 | `length` in UTF-16 units: between the character count and twice it; equal to the count iff no character lies beyond U+FFFF |

## Left out

- The image library's own work (decode, resize with fit 'inside', JPEG encode, metadata) is an uninterpreted encoder and inspector. `createThumbnail` and `getImageAnalysis` are library wrappers with float statistics and are not part of this model.
- `imageToBase64` is a parameter; only its null-on-exception outcome is modelled.
- The network calls are outcomes passed in: the classifier POST and its 30 s timeout, the storage client's stream and signing, and the MySQL pool. `getMLServiceHealth`, `getModelInfo`, `triggerRetraining`, `predictBatchImages` and `getImageDetails` are not part of this model.
- bcrypt hashing and comparison and JWT signing, verification and decoding are abstract functions. A throwing `bcrypt.hash` or `bcrypt.compare` is not modelled.
- `Date.now()`, `uuidv4()` and SQL `NOW()` are parameters or absent.
- Confidences are exact reals, not IEEE doubles. So the 0.01 tolerance and `Math.floor(d * 0.8)` are exact arithmetic.
- MlService.Accepted: a text confidence is a value whose string form holds a character no numeric string can hold ("n/a", an object). Strings and arrays made only of characters that can occur in numbers ("x", "e5", "1", [], [7]) are not represented. In the sum they can make a concatenation that reads as a number ("0x100" from a note "x" before 1, 0, 0), which the code refuses; and they compare numerically in the maximum.
- JsText.Lower: only ASCII capitals are lower-cased. JavaScript's `toLowerCase` maps every Unicode capital and can change the length ("İ" becomes two code points).
- ImageProcessor.Extension: the extension is lower-cased by JsText.Lower, so a non-ASCII capital in it is kept (".JPÉG" gives ".jpÉg" where JavaScript gives ".jpég"). The same holds for ImageProcessor.ExtensionOfName and ImageProcessor.StampOfName.
- MlService.Lookup: an `Object` whose entries repeat a key stands for no JavaScript value. `JSON.parse` keeps one entry per key, with the last value at the first key's position. On such a sequence Lookup takes the first entry, while the sum and the label scan see every entry.
- MlService.ProcessPredictionResults: the catch branch is not modelled, because the pipeline only calls it on an object that passed the check.
- AuthMiddleware.ParseJson: this contract is weaker than the source for some numbers. For a negative number it states nothing. Numbers whose decimal rendering uses an exponent (1e21, 1e-7) are read by their value, not by the rendering, as `parseInt` reads them. JSON arrays carry no elements in the model and parse to NaN; JavaScript parses their text, so {userId: [42]} names user 42.
- Validation.IntegerValue: numeric strings are only `-?digits`. Joi also converts forms such as "+5", " 5", "1.0" and "1e3".
- Validation: Joi's email and URI format checks are parameters. Joi's message texts, detail order and applied defaults are not modelled; `validate` discards the converted value anyway.
- Upload: the multipart parser is modelled by the order in which it applies its checks to the file parts. Non-file fields and busboy's other limits are not modelled.
- Upload.FileFilter: the allow-list is a given string. An unset ALLOWED_IMAGE_TYPES makes the filter throw, and that path is not modelled.
- AuthController: the response fields of the 200/201 bodies, `getProfile`, and the ignored result of register's specialization update are not modelled. The writes issued and the answer's status and message are modelled.
- ImageProcessor.ProcessImage: the error text of a failed process is not modelled; the pipeline replaces it with its own message.
- The interleaving of concurrent requests and the async scheduling are not modelled. Of the route wiring, only the chain of the history route is modelled.

## Findings

| source | as written | input that shows it | evidently intended | confidence | as-written member | corrected member |
|---|---|---|---|---|---|---|
| src/services/mlService.js:179-185 | the sum is a `reduce` with `+`, and the check is `Math.abs(sum - 1) > 0.01` | {Coccidiosis: 1, ND: 1, Sehat: 1, note: "n/a"}: the sum becomes "3n/a", `Math.abs(NaN) > 0.01` is false, the map is accepted, and the upload is stored with a 201 | refuse a map whose values do not sum to about 1 | not executed | MlService.SumOfThreeAccepted, ImageController.SumOfThreeStored | MlService.ValidPredictionMeaning, ImageController.SumOfThreeRefusedWhenCorrected |
| src/routes/images.js:21 | the history route validates its params `{userId}` with `idParamSchema`, which requires `id` and refuses unknown keys | GET /history/42 by user 42: 400 'Validation error' | validate `userId` as a positive integer | not executed | ImageController.HistoryRouteAsWritten | ImageController.HistoryRouteServesOwner |
| src/middleware/upload.js:43 | the size message divides `parseInt(MAX_IMAGE_SIZE)` | MAX_IMAGE_SIZE unset and a 2 MB file: 'Maximum size is NaNMB', while 1 MB is enforced | name the limit in force | not executed | Upload.SizeMessageWithoutSetting | Upload.SizeMessageWithSetting |
| src/middleware/upload.js:76 | `upload.array('images', 5)` shares the `files: 1` limit of line 28 | two valid images on the multi-file route: 'Maximum 5 files allowed per upload' | allow up to five files | not executed | Upload.HandleMultipleImageUpload, Upload.TwoImagesRefusedAsWritten | Upload.HandleMultipleFiveFileLimit, Upload.MultipleUploadMeaning |

The handlers are modelled as written, and each correction is a definition of its own:
- **Prediction check.** The pipeline runs `MlService.Accepted`, as the code does. `MlService.ValidPrediction` is the corrected check; `StagePlan` over an observation made with it gives the corrected pipeline.
- **History route.** `ImageController.HistoryChain` takes the parameter schema. `Validation.IdParamSchema` is the schema as written, and `Validation.UserIdParamSchema` is the corrected one.
- **Size message.** `Upload.ErrorReply` sends `Upload.SizeMessageAsWritten`. `Upload.SizeMessage` names the limit in force.
- **Multi-file route.** `Upload.HandleMultipleImageUpload` parses with the shared one-file limit. `Upload.HandleMultipleFiveFileLimit` parses with a limit of five files.
