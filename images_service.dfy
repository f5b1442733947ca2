/** The image service: the orchestrator over the blob store, the image
    catalog and the user ledger. Uploads and transforms write the blob
    first and the record second; uploads and deletes then update the
    owner's ledger entry. */
module ImagesService {
  import opened Common
  import opened Strings
  import opened ImageSchema
  import opened UserSchema
  import opened Aws
  import opened ImageDto
  import opened TransformPlan
  import opened Pagination

  /** The uploaded file as the multipart parser hands it over. */
  datatype UploadedFile = UploadedFile(buffer: Bytes, mimetype: string, originalname: string, size: nat)

  /** What the image library reports about an encoded image. */
  datatype Metadata = Metadata(width: Option<int>, height: Option<int>)

  /** The image library, which the model does not interpret: reading an
      image's metadata, and running a plan over an image to encoded bytes.
      Either may fail with a message. */
  type Probe = Bytes -> Result<Metadata, string>
  type Engine = (Bytes, seq<Op>) -> Result<Bytes, string>

  /** The one call into S3 or the database that fails during a request, if
      any, with the message of the error it throws. */
  datatype Fault =
    | NoFault
    | BlobPutFault(message: string)
    | RecordCreateFault(message: string)
    | LedgerUpdateFault(message: string)
    | BlobDeleteFault(message: string)
    | RecordDeleteFault(message: string)

  const UploadFailed := "Failed to upload image"
  const TransformFailedPrefix := "Failed to transform image: "
  const ImageNotFound := "Image not found"
  const Deleted := "Image and physical file deleted successfully"

  /** `mimetype.split('/')[1]`: the text between the first and the second
      slash. A type without a slash has no second piece, and the template
      then renders it as the text "undefined". */
  function Extension(mimetype: string): (ext: string)
    ensures '/' !in ext
    ensures '/' !in mimetype ==> ext == "undefined"
  {
    var parts := Split(mimetype, '/');
    if |parts| >= 2 then parts[1] else "undefined"
  }

  lemma ExtensionOfImageType(subtype: string)
    requires '/' !in subtype
    ensures Extension("image/" + subtype) == subtype
  {
    assert "image/" + subtype == "image" + ['/'] + subtype;
    SplitAtSeparator("image", '/', subtype);
  }

  /** After the first slash, the extension runs up to the next slash or
      the end of the type. */
  lemma ExtensionIsSecondSegment(before: string, after: string)
    requires '/' !in before
    ensures var ext := Extension(before + "/" + after);
      && |ext| <= |after| && after[..|ext|] == ext
      && (|after| == |ext| || after[|ext|] == '/')
  {
    assert before + "/" + after == before + ['/'] + after;
    SplitAtSeparator(before, '/', after);
    SplitHead(after, '/');
  }

  /** `images/{userId}/{fileId}.{ext}`. */
  function UploadKey(userId: Id, fileId: Id, mimetype: string): string {
    "images/" + userId + "/" + fileId + "." + Extension(mimetype)
  }

  /** `images/{userId}/transformed/{fileId}.{format}`. */
  function TransformedKey(userId: Id, fileId: Id, format: string): string {
    "images/" + userId + "/transformed/" + fileId + "." + format
  }

  /** `findOne({_id: imageId, userId})`: a record that exists but belongs to
      someone else is not found either. */
  function FindOwned(images: map<Id, ImageRecord>, imageId: Id, userId: Id): (r: Option<ImageRecord>)
    ensures r.Some? <==> imageId in images && images[imageId].userId == userId
    ensures r.Some? ==> r.value == images[imageId]
  {
    if imageId in images && images[imageId].userId == userId then Some(images[imageId]) else None
  }

  datatype UploadSummary = UploadSummary(
    id: Id, userId: Id, fileName: string, originalName: string,
    size: Option<int>, width: Option<int>, height: Option<int>, createdAt: Time)

  datatype TransformSummary = TransformSummary(
    id: Id, fileName: string, originalName: string,
    size: Option<int>, width: Option<int>, height: Option<int>, format: string, createdAt: Time)

  datatype ImageFile = ImageFile(buffer: Bytes, mimeType: Option<string>, originalName: string)

  /** Record details; `size` is the byte count the route prints in KB. */
  datatype ImageDetails = ImageDetails(
    id: Id, fileName: string, originalName: string, mimeType: Option<string>,
    size: Option<int>, width: Option<int>, height: Option<int>, url: SignedUrl,
    createdAt: Time, updatedAt: Time)

  /** One entry of a list page; `userId` is only shown by the public list. */
  datatype ListItem = ListItem(
    id: Id, userId: Option<Id>, fileName: string, originalName: string, mimeType: Option<string>,
    size: Option<int>, width: Option<int>, height: Option<int>, createdAt: Time)

  datatype ImageList = ImageList(data: seq<ListItem>, pagination: PageInfo)

  function Item(rec: ImageRecord, showOwner: bool): ListItem {
    ListItem(rec.id, if showOwner then Some(rec.userId) else None, rec.fileName, rec.originalName,
             rec.mimeType, rec.size, rec.width, rec.height, rec.createdAt)
  }

  /** No id occurs twice. */
  ghost predicate Distinct<T>(s: seq<T>) {
    forall i, j :: 0 <= i < j < |s| ==> s[i] != s[j]
  }

  /** `sorted` is the catalog as the store's sort returns it: every record
      exactly once. */
  ghost predicate SortedCatalog(sorted: seq<Id>, images: map<Id, ImageRecord>) {
    && (forall id :: id in sorted <==> id in images)
    && Distinct(sorted)
  }

  /** The owner filter of `find({userId})`, keeping the sort order. */
  function OwnedIds(sorted: seq<Id>, images: map<Id, ImageRecord>, userId: Id): (r: seq<Id>)
    requires forall id :: id in sorted ==> id in images
    ensures forall id :: id in r <==> id in sorted && images[id].userId == userId
  {
    if sorted == [] then []
    else (if images[sorted[0]].userId == userId then [sorted[0]] else []) + OwnedIds(sorted[1..], images, userId)
  }

  function Items(ids: seq<Id>, images: map<Id, ImageRecord>, showOwner: bool): (r: seq<ListItem>)
    requires forall id :: id in ids ==> id in images
    ensures |r| == |ids|
    ensures forall i :: 0 <= i < |ids| ==> r[i] == Item(images[ids[i]], showOwner)
  {
    if ids == [] then [] else [Item(images[ids[0]], showOwner)] + Items(ids[1..], images, showOwner)
  }

  /** The records a user owns. */
  ghost function OwnedSet(images: map<Id, ImageRecord>, userId: Id): set<Id> {
    set id | id in images && images[id].userId == userId
  }

  lemma DistinctTail<T>(s: seq<T>)
    requires Distinct(s) && s != []
    ensures Distinct(s[1..]) && s[0] !in s[1..]
  {
    forall i, j | 0 <= i < j < |s[1..]| ensures s[1..][i] != s[1..][j] {
      assert s[1..][i] == s[i + 1] && s[1..][j] == s[j + 1];
    }
  }

  /** A sequence without repeats has as many elements as its set. */
  lemma {:induction false} DistinctCard<T>(s: seq<T>)
    requires Distinct(s)
    ensures |set x | x in s| == |s|
  {
    if s != [] {
      DistinctTail(s);
      DistinctCard(s[1..]);
      assert s == [s[0]] + s[1..];
      assert (set x | x in s) == (set x | x in s[1..]) + {s[0]};
    }
  }

  /** Filtering keeps a sequence free of repeats. */
  lemma {:induction false} OwnedIdsDistinct(sorted: seq<Id>, images: map<Id, ImageRecord>, userId: Id)
    requires forall id :: id in sorted ==> id in images
    requires Distinct(sorted)
    ensures Distinct(OwnedIds(sorted, images, userId))
  {
    if sorted != [] {
      DistinctTail(sorted);
      OwnedIdsDistinct(sorted[1..], images, userId);
    }
  }

  /** `r` is `s` with some elements left out and the others kept in their
      order. */
  predicate Subsequence(r: seq<Id>, s: seq<Id>)
    decreases |s|
  {
    if r == [] then true
    else if s == [] then false
    else if r[0] == s[0] then Subsequence(r[1..], s[1..])
    else Subsequence(r, s[1..])
  }

  /** The filter keeps the store's order: its result is a subsequence of
      the sorted catalog. */
  lemma {:induction false} OwnedIdsKeepOrder(sorted: seq<Id>, images: map<Id, ImageRecord>, userId: Id)
    requires forall id :: id in sorted ==> id in images
    ensures Subsequence(OwnedIds(sorted, images, userId), sorted)
  {
    if sorted != [] {
      var r := OwnedIds(sorted, images, userId);
      var rest := OwnedIds(sorted[1..], images, userId);
      OwnedIdsKeepOrder(sorted[1..], images, userId);
      if images[sorted[0]].userId == userId {
        assert r[0] == sorted[0] && r[1..] == rest;
      } else {
        assert r == rest;
        if rest != [] {
          assert rest[0] in rest;
        }
      }
    }
  }

  /** The filtered list is as long as the number of records the user owns:
      `countDocuments({userId})`. */
  lemma OwnedTotal(sorted: seq<Id>, images: map<Id, ImageRecord>, userId: Id)
    requires SortedCatalog(sorted, images)
    ensures |OwnedIds(sorted, images, userId)| == |OwnedSet(images, userId)|
  {
    var owned := OwnedIds(sorted, images, userId);
    OwnedIdsDistinct(sorted, images, userId);
    DistinctCard(owned);
    assert (set x | x in owned) == OwnedSet(images, userId);
  }

  /** A permutation of the catalog is as long as the catalog. */
  lemma CatalogTotal(sorted: seq<Id>, images: map<Id, ImageRecord>)
    requires SortedCatalog(sorted, images)
    ensures |sorted| == |images|
  {
    DistinctCard(sorted);
    assert (set x | x in sorted) == images.Keys;
  }

  class ImagesService {
    const aws: BlobStore
    /** The image catalog. */
    var images: map<Id, ImageRecord>
    /** The user collection, which holds the ledger. */
    var users: Users

    /** Every record is stored under its own id and has the size and MIME
        type the service always writes. */
    ghost predicate Valid()
      reads this
    {
      forall id :: id in images ==> images[id].id == id && images[id].size.Some? && images[id].mimeType.Some?
    }

    constructor (aws: BlobStore, users: Users)
      ensures Valid() && this.aws == aws && images == map[] && this.users == users
    {
      this.aws := aws;
      images := map[];
      this.users := users;
    }

    /** `uploadImage`: read the metadata, put the blob at
        `images/{userId}/{fileId}.{ext}`, create the record, then push the id
        onto the user's list and add `file.size` to the counter. The first
        failure stops the sequence, leaves what was already written in place
        and is reported as "Failed to upload image". `fileId` and `recordId`
        are fresh ObjectIds. */
    method UploadImage(userId: Id, file: UploadedFile, fileId: Id, recordId: Id, now: Time,
                       probe: Probe, fault: Fault)
      returns (r: Result<UploadSummary, HttpError>)
      requires Valid()
      requires fileId != "" && recordId !in images
      modifies this, aws
      ensures Valid()
      ensures
        var meta := probe(file.buffer);
        var key := UploadKey(userId, fileId, file.mimetype);
        var stored := meta.Success? && !fault.BlobPutFault?;
        var recorded := stored && !fault.RecordCreateFault? && file.originalname != "";
        var credited := recorded && !fault.LedgerUpdateFault?;
        && aws.objects == (if stored then old(aws.objects)[key := StoredObject(file.buffer, TextOr(Some(file.mimetype), DefaultContentType))]
                           else old(aws.objects))
        && images == (if recorded then old(images)[recordId := ImageRecord(
                        recordId, userId, fileId, key, file.originalname, Some(file.mimetype), Some(file.size),
                        meta.value.width, meta.value.height, DefaultStatus, now, now)]
                      else old(images))
        && users == (if credited then Credit(old(users), userId, recordId, file.size, now) else old(users))
        && (r.Success? <==> credited)
        && (credited ==> r.value == UploadSummary(recordId, userId, fileId, file.originalname, Some(file.size),
                                                  meta.value.width, meta.value.height, now))
        && (!credited ==> r == Failure(BadRequest(UploadFailed)))
    {
      var metadata := probe(file.buffer);
      if metadata.Failure? {
        return Failure(BadRequest(UploadFailed));
      }
      var filePath := UploadKey(userId, fileId, file.mimetype);
      if fault.BlobPutFault? {
        return Failure(BadRequest(UploadFailed));
      }
      // The path is never empty and the body is present, so the put succeeds.
      var _ := aws.UploadImage(filePath, Some(file.buffer), Some(file.mimetype));
      var draft := ImageDraft(Some(userId), Some(fileId), Some(filePath), Some(file.originalname),
                              Some(file.mimetype), Some(file.size), metadata.value.width, metadata.value.height, None);
      var created := CreateImage(draft, recordId, now);
      if fault.RecordCreateFault? || created.Failure? {
        return Failure(BadRequest(UploadFailed));
      }
      var image := created.value;
      images := images[recordId := image];
      if fault.LedgerUpdateFault? {
        return Failure(BadRequest(UploadFailed));
      }
      users := Credit(users, userId, recordId, file.size, now);
      r := Success(UploadSummary(image.id, image.userId, image.fileName, image.originalName,
                                 image.size, image.width, image.height, image.createdAt));
    }

    /** `transformImage`: the ownership-checked lookup comes first; then the
        source blob is read, the plan is run, and the result is written as a
        new blob and a new record at
        `images/{userId}/transformed/{fileId}.{format}`. The ledger is never
        touched, nor is the source record or blob. Failures after the lookup
        are reported as "Failed to transform image: " and the cause. */
    method TransformImage(userId: Id, imageId: Id, dto: TransformImageDto, fileId: Id, recordId: Id,
                          now: Time, engine: Engine, probe: Probe, fault: Fault)
      returns (r: Result<TransformSummary, HttpError>)
      requires Valid()
      requires fileId != "" && recordId !in images
      requires TransformedKey(userId, fileId, FormatName(dto)) !in aws.objects
      modifies this, aws
      ensures Valid()
      ensures users == old(users)
      ensures FindOwned(old(images), imageId, userId).None? ==>
        r == Failure(NotFound(ImageNotFound)) && images == old(images) && aws.objects == old(aws.objects)
      ensures FindOwned(old(images), imageId, userId).Some? ==>
        var src := old(images)[imageId];
        var fetched := src.s3Key in old(aws.objects);
        var rendered := if fetched then engine(old(aws.objects)[src.s3Key].body, Plan(dto)) else Failure(ImageNotFound);
        var meta := if rendered.Success? then probe(rendered.value) else Failure(rendered.error);
        var format := FormatName(dto);
        var key := TransformedKey(userId, fileId, format);
        var stored := meta.Success? && !fault.BlobPutFault?;
        var recorded := stored && !fault.RecordCreateFault?;
        && aws.objects == (if stored then old(aws.objects)[key := StoredObject(rendered.value, "image/" + format)]
                           else old(aws.objects))
        && images == (if recorded then old(images)[recordId := ImageRecord(
                        recordId, userId, fileId, key, "transformed_" + src.originalName, Some("image/" + format),
                        Some(|rendered.value|), meta.value.width, meta.value.height, DefaultStatus, now, now)]
                      else old(images))
        && (r.Success? <==> recorded)
        && (recorded ==> r.value == TransformSummary(recordId, fileId, "transformed_" + src.originalName,
                                                     Some(|rendered.value|), meta.value.width, meta.value.height,
                                                     format, now))
        && (meta.Failure? ==> r == Failure(BadRequest(TransformFailedPrefix + meta.error)))
        && (stored || meta.Success? ==> src.s3Key in aws.objects && aws.objects[src.s3Key] == old(aws.objects)[src.s3Key])
        && (fault.BlobPutFault? && meta.Success? ==> r == Failure(BadRequest(TransformFailedPrefix + fault.message)))
        && (fault.RecordCreateFault? && stored ==> r == Failure(BadRequest(TransformFailedPrefix + fault.message)))
    {
      var image := FindOwned(images, imageId, userId);
      if image.None? {
        return Failure(NotFound(ImageNotFound));
      }
      var src := image.value;
      var originalBuffer := aws.GetImage(src.s3Key);
      if originalBuffer.Failure? {
        return Failure(BadRequest(TransformFailedPrefix + originalBuffer.error.message));
      }
      var transformer := BuildPlan(dto);
      var transformedBuffer := engine(originalBuffer.value, transformer);
      if transformedBuffer.Failure? {
        return Failure(BadRequest(TransformFailedPrefix + transformedBuffer.error));
      }
      var metadata := probe(transformedBuffer.value);
      if metadata.Failure? {
        return Failure(BadRequest(TransformFailedPrefix + metadata.error));
      }
      var format := TextOr(dto.format, DefaultFormat);
      var transformedPath := TransformedKey(userId, fileId, format);
      if fault.BlobPutFault? {
        return Failure(BadRequest(TransformFailedPrefix + fault.message));
      }
      var _ := aws.UploadImage(transformedPath, Some(transformedBuffer.value), Some("image/" + format));
      if fault.RecordCreateFault? {
        return Failure(BadRequest(TransformFailedPrefix + fault.message));
      }
      var draft := ImageDraft(Some(userId), Some(fileId), Some(transformedPath), Some("transformed_" + src.originalName),
                              Some("image/" + format), Some(|transformedBuffer.value|),
                              metadata.value.width, metadata.value.height, None);
      var created := CreateImage(draft, recordId, now);
      var transformed := created.value;
      images := images[recordId := transformed];
      r := Success(TransformSummary(transformed.id, transformed.fileName, transformed.originalName,
                                    transformed.size, transformed.width, transformed.height, format,
                                    transformed.createdAt));
    }

    /** `getImage`: the ownership-checked lookup, then the blob; a record
        whose blob is missing surfaces the store's "Image not found". */
    method GetImage(userId: Id, imageId: Id) returns (r: Result<ImageFile, HttpError>)
      requires Valid()
      ensures FindOwned(images, imageId, userId).None? ==> r == Failure(NotFound(ImageNotFound))
      ensures FindOwned(images, imageId, userId).Some? ==>
        var rec := images[imageId];
        && (rec.s3Key !in aws.objects ==> r == Failure(BadRequest(ImageNotFound)))
        && (rec.s3Key in aws.objects ==>
              r == Success(ImageFile(aws.objects[rec.s3Key].body, rec.mimeType, rec.originalName)))
      ensures r.Success? ==> r.value.mimeType.Some?
    {
      var image := FindOwned(images, imageId, userId);
      if image.None? {
        return Failure(NotFound(ImageNotFound));
      }
      var imageBuffer := aws.GetImage(image.value.s3Key);
      if imageBuffer.Failure? {
        return Failure(imageBuffer.error);
      }
      r := Success(ImageFile(imageBuffer.value, image.value.mimeType, image.value.originalName));
    }

    /** `getImageDetails`: the ownership-checked lookup and a read URL for
        the record's key with the default expiry; the blob is not read. */
    method GetImageDetails(userId: Id, imageId: Id) returns (r: Result<ImageDetails, HttpError>)
      requires Valid()
      ensures FindOwned(images, imageId, userId).None? ==> r == Failure(NotFound(ImageNotFound))
      ensures FindOwned(images, imageId, userId).Some? ==>
        var rec := images[imageId];
        r == Success(ImageDetails(imageId, rec.fileName, rec.originalName, rec.mimeType, rec.size,
                                  rec.width, rec.height, SignedUrl(rec.s3Key, 3600), rec.createdAt, rec.updatedAt))
      ensures r.Success? ==> imageId in images && images[imageId].userId == userId
    {
      var image := FindOwned(images, imageId, userId);
      if image.None? {
        return Failure(NotFound(ImageNotFound));
      }
      var rec := image.value;
      var signedUrl := aws.GetSignedUrl(rec.s3Key, None);
      r := Success(ImageDetails(rec.id, rec.fileName, rec.originalName, rec.mimeType, rec.size,
                                rec.width, rec.height, signedUrl, rec.createdAt, rec.updatedAt));
    }

    /** `listImages`: one page of the caller's records in the store's sort
        order, and the pagination envelope over the caller's record count. */
    function ListImages(userId: Id, q: ListQuery, sorted: seq<Id>): (r: ImageList)
      reads this
      requires Valid()
      requires q.limit >= 1 && q.page >= 1
      requires SortedCatalog(sorted, images)
      ensures |r.data| <= q.limit
      ensures forall i :: 0 <= i < |r.data| ==>
        r.data[i].id in images && images[r.data[i].id].userId == userId && r.data[i].userId.None?
      ensures r.pagination == Paginate(|OwnedSet(images, userId)|, q.page, q.limit)
      ensures r.data == Items(PageOf(OwnedIds(sorted, images, userId), q.page, q.limit), images, false)
    {
      var owned := OwnedIds(sorted, images, userId);
      OwnedTotal(sorted, images, userId);
      var page := PageOf(owned, q.page, q.limit);
      assert forall i :: 0 <= i < |page| ==> page[i] in owned;
      ImageList(Items(page, images, false), Paginate(|owned|, q.page, q.limit))
    }

    /** `listImagesPublic`: the same over every record, showing owners. */
    function ListImagesPublic(q: ListQuery, sorted: seq<Id>): (r: ImageList)
      reads this
      requires Valid()
      requires q.limit >= 1 && q.page >= 1
      requires SortedCatalog(sorted, images)
      ensures |r.data| <= q.limit
      ensures forall i :: 0 <= i < |r.data| ==>
        r.data[i].id in images && r.data[i].userId == Some(images[r.data[i].id].userId)
      ensures r.pagination == Paginate(|images|, q.page, q.limit)
      ensures r.data == Items(PageOf(sorted, q.page, q.limit), images, true)
    {
      CatalogTotal(sorted, images);
      var page := PageOf(sorted, q.page, q.limit);
      assert forall i :: 0 <= i < |page| ==> page[i] in sorted;
      ImageList(Items(page, images, true), Paginate(|sorted|, q.page, q.limit))
    }

    /** `deleteImage`: the ownership-checked lookup, then the blob delete,
        the record delete, and the ledger update that pulls the id and
        subtracts the record's size with no lower bound. Nothing is caught:
        the first failing call ends the request with the steps before it
        done. */
    method DeleteImage(userId: Id, imageId: Id, now: Time, fault: Fault) returns (r: Result<string, HttpError>)
      requires Valid()
      modifies this, aws
      ensures Valid()
      ensures FindOwned(old(images), imageId, userId).None? ==>
        && r == Failure(NotFound(ImageNotFound))
        && images == old(images) && users == old(users) && aws.objects == old(aws.objects)
      ensures FindOwned(old(images), imageId, userId).Some? ==>
        var src := old(images)[imageId];
        var blobGone := !fault.BlobDeleteFault?;
        var recordGone := blobGone && !fault.RecordDeleteFault?;
        var debited := recordGone && !fault.LedgerUpdateFault?;
        && aws.objects == (if blobGone then old(aws.objects) - {src.s3Key} else old(aws.objects))
        && images == (if recordGone then old(images) - {imageId} else old(images))
        && users == (if debited then Debit(old(users), userId, imageId, src.size.value, now) else old(users))
        && (debited ==> r == Success(Deleted))
        && (!debited ==> r == Failure(ServerError(fault.message)))
    {
      var image := FindOwned(images, imageId, userId);
      if image.None? {
        return Failure(NotFound(ImageNotFound));
      }
      if fault.BlobDeleteFault? {
        return Failure(ServerError(fault.message));
      }
      aws.DeleteFile(image.value.s3Key);
      if fault.RecordDeleteFault? {
        return Failure(ServerError(fault.message));
      }
      images := images - {imageId};
      if fault.LedgerUpdateFault? {
        return Failure(ServerError(fault.message));
      }
      users := Debit(users, userId, imageId, image.value.size.value, now);
      r := Success(Deleted);
    }
  }

  /** Deleting an image right after uploading it puts the bucket, the
      catalog and the owner's ledger entry back as they were, apart from the
      entry's update time. */
  method UploadThenDelete(service: ImagesService, userId: Id, file: UploadedFile, fileId: Id, recordId: Id,
                          t1: Time, t2: Time, probe: Probe)
    requires service.Valid() && userId in service.users
    requires fileId != "" && recordId !in service.images && recordId !in service.users[userId].images
    requires UploadKey(userId, fileId, file.mimetype) !in service.aws.objects
    requires probe(file.buffer).Success? && file.originalname != ""
    modifies service, service.aws
    ensures service.aws.objects == old(service.aws.objects)
    ensures service.images == old(service.images)
    ensures service.users == old(service.users)[userId := old(service.users[userId]).(updatedAt := t2)]
  {
    var uploaded := service.UploadImage(userId, file, fileId, recordId, t1, probe, NoFault);
    var deleted := service.DeleteImage(userId, recordId, t2, NoFault);
    PullUndoesPush(old(service.users[userId]), recordId, file.size, t1, t2);
  }

  /** A transform followed by deleting both the original and the copy: the
      transform never added the copy's size to the owner's counter, yet its
      delete subtracts it, so the counter ends the copy's size below where
      it was before the original's own debit. Starting from a counter that
      held only the original, it ends below zero. */
  method TransformThenDeleteBoth(service: ImagesService, userId: Id, imageId: Id, dto: TransformImageDto,
                                 fileId: Id, recordId: Id, now: Time, engine: Engine, probe: Probe)
    returns (copySize: int)
    requires service.Valid() && userId in service.users
    requires FindOwned(service.images, imageId, userId).Some?
    requires fileId != "" && recordId !in service.images
    requires TransformedKey(userId, fileId, FormatName(dto)) !in service.aws.objects
    requires service.images[imageId].s3Key in service.aws.objects
    requires engine(service.aws.objects[service.images[imageId].s3Key].body, Plan(dto)).Success?
    requires probe(engine(service.aws.objects[service.images[imageId].s3Key].body, Plan(dto)).value).Success?
    modifies service, service.aws
    ensures copySize >= 0 && userId in service.users
    ensures service.users[userId].totalStorageUsed
         == old(service.users[userId].totalStorageUsed) - old(service.images[imageId].size.value) - copySize
    ensures old(service.users[userId].totalStorageUsed) == old(service.images[imageId].size.value) && copySize > 0
         ==> service.users[userId].totalStorageUsed < 0
  {
    var size := service.images[imageId].size.value;
    var transformed := service.TransformImage(userId, imageId, dto, fileId, recordId, now, engine, probe, NoFault);
    assert service.images[recordId].userId == userId;
    copySize := service.images[recordId].size.value;
    var first := service.DeleteImage(userId, imageId, now, NoFault);
    assert service.users[userId].totalStorageUsed == old(service.users[userId].totalStorageUsed) - size;
    var second := service.DeleteImage(userId, recordId, now, NoFault);
  }
}
