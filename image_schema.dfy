/** The `Image` record of the catalog: four required fields, four optional
    ones, a status that defaults to "active", and timestamps the store
    maintains. */
module ImageSchema {
  import opened Common

  /** What a caller hands to `create`: every field may be missing. */
  datatype ImageDraft = ImageDraft(
    userId: Option<Id>,
    fileName: Option<string>,
    s3Key: Option<string>,
    originalName: Option<string>,
    mimeType: Option<string>,
    size: Option<int>,
    width: Option<int>,
    height: Option<int>,
    status: Option<string>)

  /** A stored record: the required fields are always there. */
  datatype ImageRecord = ImageRecord(
    id: Id,
    userId: Id,
    fileName: string,
    s3Key: string,
    originalName: string,
    mimeType: Option<string>,
    size: Option<int>,
    width: Option<int>,
    height: Option<int>,
    status: string,
    createdAt: Time,
    updatedAt: Time)

  const DefaultStatus := "active"

  const RequiredPaths: seq<string> := ["userId", "fileName", "s3Key", "originalName"]

  /** The required paths a draft fails, in declaration order. The store's
      required check wants an ObjectId present and a string present and
      non-empty. */
  function MissingPaths(d: ImageDraft): (paths: seq<string>)
    ensures forall p :: p in paths ==> p in RequiredPaths
    ensures "userId" in paths <==> d.userId.None?
    ensures "fileName" in paths <==> !TruthyText(d.fileName)
    ensures "s3Key" in paths <==> !TruthyText(d.s3Key)
    ensures "originalName" in paths <==> !TruthyText(d.originalName)
  {
    (if d.userId.None? then ["userId"] else [])
    + (if !TruthyText(d.fileName) then ["fileName"] else [])
    + (if !TruthyText(d.s3Key) then ["s3Key"] else [])
    + (if !TruthyText(d.originalName) then ["originalName"] else [])
  }

  /** `imageModel.create(draft)`: rejects a draft that misses a required
      path, otherwise stores it under `id` with the status default and both
      timestamps set to `now`. */
  function CreateImage(d: ImageDraft, id: Id, now: Time): (r: Result<ImageRecord, seq<string>>)
    ensures r.Success? <==> MissingPaths(d) == []
    ensures r.Failure? ==> r.error == MissingPaths(d) && |r.error| > 0
    ensures r.Success? ==>
      && r.value.id == id
      && Some(r.value.userId) == d.userId
      && Some(r.value.fileName) == d.fileName && r.value.fileName != ""
      && Some(r.value.s3Key) == d.s3Key && r.value.s3Key != ""
      && Some(r.value.originalName) == d.originalName && r.value.originalName != ""
      && r.value.mimeType == d.mimeType
      && r.value.size == d.size
      && r.value.width == d.width
      && r.value.height == d.height
      && r.value.status == (if d.status.None? then DefaultStatus else d.status.value)
      && r.value.createdAt == now && r.value.updatedAt == now
  {
    var missing := MissingPaths(d);
    if missing != [] then Failure(missing)
    else
      Success(ImageRecord(
        id, d.userId.value, d.fileName.value, d.s3Key.value, d.originalName.value,
        d.mimeType, d.size, d.width, d.height,
        if d.status.None? then DefaultStatus else d.status.value,
        now, now))
  }

  /** A record read back as a draft. */
  function DraftOf(rec: ImageRecord): ImageDraft {
    ImageDraft(Some(rec.userId), Some(rec.fileName), Some(rec.s3Key), Some(rec.originalName),
               rec.mimeType, rec.size, rec.width, rec.height, Some(rec.status))
  }

  /** Creating from a stored record's own fields reproduces it, up to the
      timestamps the store writes. */
  lemma CreateImageFromRecord(rec: ImageRecord, now: Time)
    requires rec.fileName != "" && rec.s3Key != "" && rec.originalName != ""
    ensures CreateImage(DraftOf(rec), rec.id, now) == Success(rec.(createdAt := now, updatedAt := now))
  {
  }

  /** A draft that leaves the status out is stored as "active". */
  lemma StatusDefaultsToActive(d: ImageDraft, id: Id, now: Time)
    requires MissingPaths(d) == [] && d.status.None?
    ensures CreateImage(d, id, now).Success?
    ensures CreateImage(d, id, now).value.status == "active"
  {
  }
}
