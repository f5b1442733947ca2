/** The image routes: the checks the upload route makes before it calls the
    service, and the response headers of the download and view routes. The
    remaining routes hand `req.userId` and the route id to the service
    unchanged, so their behaviour is that of the service methods. */
module ImagesController {
  import opened Common
  import opened Aws
  import opened UserSchema
  import opened ImagesService

  const AllowedMimeTypes: seq<string> := ["image/jpeg", "image/png", "image/webp", "image/avif"]

  /** 10 MiB. */
  const MaxUploadSize := 10 * 1024 * 1024

  const FileRequired := "File is required"
  const OnlyImages := "Only image files are allowed"
  const TooLarge := "File size must not exceed 10MB"

  /** The three upload checks in their order: presence, MIME type, size.
      The first one that fails decides the message. */
  function CheckUpload(file: Option<UploadedFile>): (r: Result<UploadedFile, HttpError>)
    ensures file.None? ==> r == Failure(BadRequest(FileRequired))
    ensures file.Some? && file.value.mimetype !in AllowedMimeTypes ==> r == Failure(BadRequest(OnlyImages))
    ensures file.Some? && file.value.mimetype in AllowedMimeTypes && file.value.size > MaxUploadSize ==>
      r == Failure(BadRequest(TooLarge))
    ensures r.Success? <==>
      file.Some? && file.value.mimetype in AllowedMimeTypes && file.value.size <= MaxUploadSize
    ensures r.Success? ==> r.value == file.value
  {
    if file.None? then Failure(BadRequest(FileRequired))
    else if file.value.mimetype !in AllowedMimeTypes then Failure(BadRequest(OnlyImages))
    else if file.value.size > MaxUploadSize then Failure(BadRequest(TooLarge))
    else Success(file.value)
  }

  /** The cap is inclusive: exactly 10 MiB passes, one byte more does not. */
  lemma SizeCapInclusive(file: UploadedFile)
    requires file.mimetype in AllowedMimeTypes
    ensures file.size == 10485760 ==> CheckUpload(Some(file)).Success?
    ensures file.size == 10485761 ==> CheckUpload(Some(file)) == Failure(BadRequest(TooLarge))
  {
  }

  /** A file of the wrong type is reported as such whatever its size. */
  lemma TypeCheckedBeforeSize(file: UploadedFile)
    requires file.mimetype !in AllowedMimeTypes
    ensures CheckUpload(Some(file)) == Failure(BadRequest(OnlyImages))
  {
  }

  /** An accepted file is stored under a key ending in its MIME subtype. */
  lemma AcceptedUploadKey(userId: Id, fileId: Id, file: UploadedFile)
    requires CheckUpload(Some(file)).Success?
    ensures exists subtype ::
      && subtype in ["jpeg", "png", "webp", "avif"]
      && file.mimetype == "image/" + subtype
      && UploadKey(userId, fileId, file.mimetype) == "images/" + userId + "/" + fileId + "." + subtype
  {
    var subtype := file.mimetype[6..];
    assert file.mimetype == "image/" + subtype;
    ExtensionOfImageType(subtype);
  }

  /** The response headers, as a header-name to value map. */
  type Headers = map<string, string>

  datatype Response = Response(headers: Headers, body: Bytes)

  /** Content type and an attachment disposition naming the original file. */
  function DownloadHeaders(mimeType: string, originalName: string): (h: Headers)
    ensures h.Keys == {"Content-Type", "Content-Disposition"}
    ensures h["Content-Type"] == mimeType
    ensures h["Content-Disposition"] == "attachment; filename=\"" + originalName + "\""
  {
    map["Content-Type" := mimeType, "Content-Disposition" := "attachment; filename=\"" + originalName + "\""]
  }

  /** Content type and a one-year public cache lifetime. */
  function ViewHeaders(mimeType: string): (h: Headers)
    ensures h.Keys == {"Content-Type", "Cache-Control"}
    ensures h["Content-Type"] == mimeType
    ensures h["Cache-Control"] == "public, max-age=31536000"
  {
    map["Content-Type" := mimeType, "Cache-Control" := "public, max-age=31536000"]
  }

  /** `POST /images/upload`: the service runs only when all three checks
      pass; otherwise nothing is stored, recorded or charged. */
  method UploadImage(service: ImagesService, userId: Id, file: Option<UploadedFile>,
                     fileId: Id, recordId: Id, now: Time, probe: Probe, fault: Fault)
    returns (r: Result<UploadSummary, HttpError>)
    requires service.Valid()
    requires fileId != "" && recordId !in service.images
    modifies service, service.aws
    ensures service.Valid()
    ensures CheckUpload(file).Failure? ==>
      && r == Failure(CheckUpload(file).error)
      && service.images == old(service.images) && service.users == old(service.users)
      && service.aws.objects == old(service.aws.objects)
    ensures CheckUpload(file).Success? ==>
      var f := file.value;
      var meta := probe(f.buffer);
      var stored := meta.Success? && !fault.BlobPutFault?;
      var recorded := stored && !fault.RecordCreateFault? && f.originalname != "";
      var credited := recorded && !fault.LedgerUpdateFault?;
      && service.users == (if credited then Credit(old(service.users), userId, recordId, f.size, now)
                           else old(service.users))
      && (r.Success? <==> credited)
      && (!credited ==> r == Failure(BadRequest(UploadFailed)))
    ensures r.Success? ==>
      && CheckUpload(file).Success?
      && recordId in service.images
      && service.images[recordId].userId == userId
      && service.images[recordId].size == Some(file.value.size)
      && service.images[recordId].s3Key in service.aws.objects
      && service.aws.objects[service.images[recordId].s3Key].body == file.value.buffer
  {
    var checked := CheckUpload(file);
    if checked.Failure? {
      return Failure(checked.error);
    }
    r := service.UploadImage(userId, checked.value, fileId, recordId, now, probe, fault);
  }

  /** `GET /images/:id/download`: the stored bytes as an attachment. */
  method DownloadImage(service: ImagesService, userId: Id, imageId: Id)
    returns (r: Result<Response, HttpError>)
    requires service.Valid()
    ensures FindOwned(service.images, imageId, userId).None? ==> r == Failure(NotFound(ImageNotFound))
    ensures r.Success? ==>
      var rec := service.images[imageId];
      && FindOwned(service.images, imageId, userId).Some?
      && rec.s3Key in service.aws.objects
      && r.value.body == service.aws.objects[rec.s3Key].body
      && r.value.headers == DownloadHeaders(rec.mimeType.value, rec.originalName)
    ensures FindOwned(service.images, imageId, userId).Some? ==>
      var rec := service.images[imageId];
      && (rec.s3Key in service.aws.objects ==> r.Success?)
      && (rec.s3Key !in service.aws.objects ==> r == Failure(BadRequest(ImageNotFound)))
  {
    var image := service.GetImage(userId, imageId);
    if image.Failure? {
      return Failure(image.error);
    }
    r := Success(Response(DownloadHeaders(image.value.mimeType.value, image.value.originalName), image.value.buffer));
  }

  /** `GET /images/:id/view`: the stored bytes, cacheable for a year. */
  method ViewImage(service: ImagesService, userId: Id, imageId: Id)
    returns (r: Result<Response, HttpError>)
    requires service.Valid()
    ensures FindOwned(service.images, imageId, userId).None? ==> r == Failure(NotFound(ImageNotFound))
    ensures r.Success? ==>
      var rec := service.images[imageId];
      && FindOwned(service.images, imageId, userId).Some?
      && rec.s3Key in service.aws.objects
      && r.value.body == service.aws.objects[rec.s3Key].body
      && r.value.headers == ViewHeaders(rec.mimeType.value)
    ensures FindOwned(service.images, imageId, userId).Some? ==>
      var rec := service.images[imageId];
      && (rec.s3Key in service.aws.objects ==> r.Success?)
      && (rec.s3Key !in service.aws.objects ==> r == Failure(BadRequest(ImageNotFound)))
  {
    var image := service.GetImage(userId, imageId);
    if image.Failure? {
      return Failure(image.error);
    }
    r := Success(Response(ViewHeaders(image.value.mimeType.value), image.value.buffer));
  }
}
