# image-ps in Dafny

A model of the image service of image-ps, a NestJS back end. Users upload
images, transform them into new images, list, view, download and delete
them. The model covers these parts:

- **The service.** `ImagesService` is a class over three pieces of state: the
  S3 bucket, the `Image` catalog and the `User` collection. The `User`
  collection doubles as a per-user ledger: each user's list of image ids
  and a running byte counter, `totalStorageUsed`. Every method states the
  whole new state for each way the request can end: success, a record that
  is not found or belongs to someone else, and a failure of any one
  collaborator call part-way through.
- **The transformation plan.** A transform request becomes a sequence of
  tagged operations: crop, resize, rotate, mirror, flip, watermark, encode.
  The builder chain is proved equal to a specification function. That
  function is proved to keep the fixed order and to hold exactly the steps
  whose triggers hold.
- **The blob store.** The S3 client is modelled as a key-to-object map. Its
  stream reader is proved to give back exactly the stored body.
- **The schemas.** The `Image` and `User` schemas with their defaults and
  required and unique constraints, the ledger updates (`$push`/`$pull`/`$inc`)
  and the `toJSON` transform of users.
- **The request checks.** The list-query validators and defaults, the
  controller's upload checks and response headers, and the auth guard's
  Bearer-token parsing.

Files: `common.dfy` (options, results, HTTP errors, JavaScript truthiness,
`String.prototype.split`), `image_schema.dfy`, `user_schema.dfy`,
`aws_service.dfy`, `image_dto.dfy`, `transform_plan.dfy`, `pagination.dfy`,
`images_service.dfy`, `images_controller.dfy`, `auth_guard.dfy`.

Collaborators the model cannot see are parameters:

- The image library is two functions. `Probe` reads an image's metadata.
  `Engine` runs a plan over an image's bytes. Either may fail with a message.
- Fresh ObjectIds are parameters (`fileId`, `recordId`). The preconditions
  say they are fresh.
- The clock is a parameter `now`.
- Database and S3 outages are a `Fault` value. It names the one call that
  throws during a request.
- The token verifier is a function from a token to optional claims.
- The order the store's sort returns is a parameter `sorted`: a permutation
  of the catalog.

The model follows the code as written:

- A transform does not add the copy's size to the owner's counter.
  Deleting the copy still subtracts it, and there is no lower bound.
  `ImagesService.TransformThenDeleteBoth` proves that the counter then ends
  below zero.
- A failure of the ledger update during an upload is reported as "Failed to
  upload image". The blob and the record written before it stay in place.
- Nothing is compensated after a partial failure.
- `getImage` of a record whose blob is gone surfaces the store's
  BadRequest "Image not found", not a NotFound.
- `deleteFile` is called by the service, but `src/aws/aws.service.ts` does
  not define it. The TypeScript compiler rejects that call. If the code is
  transpiled without type checking, the call throws a TypeError, so every
  delete of an owned image fails with a 500 before anything is removed.
  The model instead takes the evident intent: `Aws.BlobStore.DeleteFile`
  behaves like S3's DeleteObject, and the key is absent afterwards. The
  thrown TypeError is the `Fault` that names the blob delete.

## Model

| member | source | states |
|---|---|---|
| Common.TextOr | src/images/images.service.ts:119 | `v \|\| fallback`: the value when it is a non-empty string, the fallback otherwise; never empty when the fallback is not |
| Common.NumberOr | src/images/images.service.ts:120 | `v \|\| fallback` on numbers: the value when present and non-zero, the fallback otherwise; never zero when the fallback is not |
| Strings.Split | src/images/images.service.ts:23 | JavaScript `split` on one character: at least one piece, and no piece contains the separator |
| Strings.JoinSplit | src/auth/guards/auth.guard.ts:24 | joining the pieces of a split with the separator gives the string back |
| Strings.SplitHead | src/images/images.service.ts:23 | the first piece of a split is a prefix of the string, followed by the end or by the separator |
| Strings.SplitAtSeparator | src/auth/guards/auth.guard.ts:24 | a separator splits a string into the pieces of its left side followed by those of its right side |
| ImageSchema.MissingPaths | src/images/schema/image.schema.ts:6-16 | a required path is reported exactly when it is missing: an absent userId, or an absent or empty string for fileName, s3Key and originalName |
| ImageSchema.CreateImage | src/images/schema/image.schema.ts:4-31 | create succeeds iff no required path is missing; on success it copies every field, sets status to "active" unless given, and stamps both timestamps; on failure it names the missing paths |
| ImageSchema.CreateImageFromRecord | src/images/schema/image.schema.ts:4-31 | creating from a stored record's own fields gives that record back, with fresh timestamps |
| ImageSchema.StatusDefaultsToActive | src/images/schema/image.schema.ts:30-31 | a complete draft without a status is stored with status "active" |
| UserSchema.CreateUser | src/users/schema/user.schema.ts:18-33 | a new user is accepted iff its id and email are unused; it starts with no images and a zero counter; the email uniqueness invariant is preserved and other users are unchanged |
| UserSchema.Pull | src/images/images.service.ts:312 | `$pull` removes every occurrence of the id and keeps every other element |
| UserSchema.PushImage | src/images/images.service.ts:39-42 | appends the id, adds the size to the counter, and changes nothing else but `updatedAt` |
| UserSchema.PullImage | src/images/images.service.ts:311-314 | the list is the `$pull` of the id: the id is gone, every other id stays and none is added; the size is subtracted with no lower bound; nothing else changes but `updatedAt` |
| UserSchema.Credit | src/images/images.service.ts:39-42 | applies the push to the user if that user exists; a missing user leaves the collection unchanged; no other user changes |
| UserSchema.Debit | src/images/images.service.ts:311-314 | applies the pull to the user if that user exists; a missing user leaves the collection unchanged; no other user changes |
| UserSchema.PullUndoesPush | src/images/images.service.ts:311-314 | pulling an id that was just pushed restores the list and the counter |
| UserSchema.CounterDriftsBelowZero | src/images/images.service.ts:311-314 | debiting an image that was never credited leaves the counter below zero |
| UserSchema.ToJson | src/users/schema/user.schema.ts:8-14 | the JSON form drops totalStorageUsed, password and __v and keeps every other key with its value |
| UserSchema.Selected | src/users/schema/user.schema.ts:25-26 | a default read omits the password; a read selecting "+password" keeps it |
| UserSchema.UserJsonShape | src/users/schema/user.schema.ts:6-41 | a user's JSON never has the keys totalStorageUsed, password or __v, and shows its id, image list and any email; the counter still shows through the `totalStorageUsedMB` virtual, which carries the stored byte count |
| Aws.ConcatChunks | src/aws/aws.service.ts:45-51 | concatenating the streamed chunks gives back exactly the stored body, for any chunk size |
| Aws.BlobStore.UploadImage | src/aws/aws.service.ts:21-34 | an empty path or a missing body is refused with "File path and file are required" and nothing is stored; otherwise the object is put under the path with the content type or "image/jpeg", and the path is returned |
| Aws.BlobStore.GetImage | src/aws/aws.service.ts:36-55 | the stored body for a present key; "Image not found" for a missing one |
| Aws.BlobStore.GetSignedUrl | src/aws/aws.service.ts:57-64 | a URL for the key, with expiry 3600 seconds unless one is given |
| Aws.BlobStore.DeleteFile | src/images/images.service.ts:308 | the key is gone afterwards and every other object is unchanged |
| ImageDto.ValidateList | src/images/dto/image.dto.ts:75-93 | the query is accepted iff limit is in [1, 100], page is at least 1 and sortOrder is "asc" or "desc"; missing fields default to 10, 1, "createdAt", "desc"; a rejection names exactly the failing fields: limit iff it is outside [1, 100], page iff it is given and below 1, sortOrder iff it is given and not "asc" or "desc" |
| ImageDto.ValidTransform | src/images/dto/image.dto.ts:9-73 | a transform request is accepted iff width and height are integers in [1, 5000], fit is one of cover, contain, fill, inside, outside, rotate is an integer in [0, 360], flip is horizontal, vertical or both, format is jpeg, png, webp or avif, quality is an integer in [1, 100], cropX and cropY are integers in [0, 5000], cropWidth and cropHeight are integers in [1, 5000], each where given; on an accepted request the fields with minimum 1 are truthy iff given and a given format is a known non-empty name |
| ImageDto.ListDefaults | src/images/dto/image.dto.ts:75-93 | an empty query means the first ten records, newest first |
| TransformPlan.Encoder | src/images/images.service.ts:122-130 | an encoder is chosen iff the format is jpeg, png, webp or avif |
| TransformPlan.BuildPlan | src/images/images.service.ts:72-130 | the builder chain produces exactly the specification plan |
| TransformPlan.PlanBands | src/images/images.service.ts:72-130 | the plan is strictly ordered by step kind, and holds each kind exactly when that step's guard fires |
| TransformPlan.PlanSteps | src/images/images.service.ts:72-130 | each step is present iff its trigger holds: crop needs cropX and cropY present and non-zero width and height; resize needs a non-zero width or height; rotate needs a non-zero angle; encode needs a known format |
| TransformPlan.PlanValues | src/images/images.service.ts:74-117 | the crop rectangle is passed as given; resize uses the given target and fit "cover" by default; a rotation carries the requested non-zero angle; the watermark carries the text anchored "southeast" |
| TransformPlan.FlipAxes | src/images/images.service.ts:96-103 | "horizontal" mirrors only, "vertical" flips only, "both" does both, none does neither |
| TransformPlan.EncodeIsLast | src/images/images.service.ts:119-130 | for a valid request the plan ends with an encode in the requested format (JPEG by default) at the requested quality (80 by default) |
| TransformPlan.ZeroRotationSkipped | src/images/images.service.ts:92-94 | a rotation of 0 passes validation but adds no rotation |
| TransformPlan.ValidCropNeedsAllFour | src/images/images.service.ts:74-82 | for a valid request the crop runs iff all four crop fields are given |
| TransformPlan.EmptyRequestOnlyEncodes | src/images/images.service.ts:119-130 | an empty request re-encodes as JPEG at quality 80 and does nothing else |
| Pagination.TotalPages | src/images/images.service.ts:274 | the fewest pages of `limit` records that hold `total`: they hold them all, one page fewer would not, and zero records means zero pages |
| Pagination.Paginate | src/images/images.service.ts:287-294 | the envelope echoes total, page and limit; hasNextPage iff page < totalPages; hasPrevPage iff page > 1 |
| Pagination.HasNextPageIffMoreRecords | src/images/images.service.ts:287-294 | there is a next page exactly when records remain after this page |
| Pagination.PageOf | src/images/images.service.ts:265-270 | the page holds at most `limit` records, and they are the records after the skipped ones, in order; it is full when enough records remain and empty when none do |
| Pagination.RecordOnItsPage | src/images/images.service.ts:259 | every record appears on the page its index determines, and that page exists |
| Pagination.BeyondLastPage | src/images/images.service.ts:287-294 | past the last page the data is empty and there is no next page |
| Pagination.SecondPageOfTwentyFive | src/images/images.service.ts:259 | with 25 records and limit 10, page 2 skips 10 records, shows records 11 to 20, and has both a previous and a next page out of 3 |
| ImagesService.Extension | src/images/images.service.ts:23 | the extension is the second piece of the type split on "/", so it never contains a slash; a type without a slash gives the text "undefined" |
| ImagesService.ExtensionIsSecondSegment | src/images/images.service.ts:23 | for `a/rest` with no slash in `a`, the extension is the text of `rest` up to its first slash or its end |
| ImagesService.ExtensionOfImageType | src/images/images.service.ts:23 | the extension of "image/x" is x |
| ImagesService.FindOwned | src/images/images.service.ts:60-67 | a record is found iff it exists and belongs to the caller |
| ImagesService.OwnedIds | src/images/images.service.ts:266 | an id is kept iff it is the caller's record |
| ImagesService.OwnedIdsKeepOrder | src/images/images.service.ts:266-267 | the filtered list is a subsequence of the sorted catalog: the sort order is kept |
| ImagesService.OwnedIdsDistinct | src/images/images.service.ts:266 | the filtered list of a catalog without repeats has no repeats |
| ImagesService.Items | src/images/images.service.ts:277-286 | one list item per id, in order, showing the owner only in the public list |
| ImagesService.OwnedTotal | src/images/images.service.ts:271 | the filtered list is as long as the number of records the user owns |
| ImagesService.CatalogTotal | src/images/images.service.ts:230 | the sorted catalog is as long as the catalog |
| ImagesService.ImagesService.UploadImage | src/images/images.service.ts:18-56 | the steps run in order: probe, blob put at images/{user}/{fileId}.{ext}, record create, ledger credit; the first failure stops the request with "Failed to upload image" and earlier writes stay; the record holds the key, original name, type, size and probed dimensions; the catalog invariant is kept |
| ImagesService.ImagesService.TransformImage | src/images/images.service.ts:59-167 | a missing or foreign record is NotFound; otherwise the source blob is read, the plan run and probed, then a blob is put at images/{user}/transformed/{fileId}.{format} and a record is created with size equal to the output length, name "transformed_" + original and type image/{format}; each failure is "Failed to transform image: " plus its cause; the ledger and the source are never changed |
| ImagesService.ImagesService.GetImage | src/images/images.service.ts:169-186 | NotFound for a missing or foreign record; "Image not found" when the blob is gone; otherwise the stored bytes with the record's type and original name |
| ImagesService.ImagesService.GetImageDetails | src/images/images.service.ts:188-212 | NotFound for a missing or foreign record; otherwise the record's fields and a signed URL for its key valid for 3600 seconds |
| ImagesService.ImagesService.ListImages | src/images/images.service.ts:257-296 | one page of the caller's records in sort order, never another user's; the pagination total is the number of records the caller owns |
| ImagesService.ImagesService.ListImagesPublic | src/images/images.service.ts:214-256 | one page of all records in sort order, each with its owner; the pagination total is the catalog size |
| ImagesService.ImagesService.DeleteImage | src/images/images.service.ts:298-317 | NotFound for a missing or foreign record; otherwise blob delete, record delete, then a ledger debit of the record's size with no lower bound; the first failure stops the request and earlier steps stay done |
| ImagesService.UploadThenDelete | src/images/images.service.ts:298-317 | deleting a just-uploaded image restores the bucket, the catalog and the owner's ledger entry apart from its update time |
| ImagesService.TransformThenDeleteBoth | src/images/images.service.ts:311-314 | after a transform, deleting the original and the copy lowers the counter by both sizes; from a counter holding only the original it ends below zero |
| ImagesController.CheckUpload | src/images/images.controller.ts:33-45 | the checks run in order, presence then type then size, and the first failure decides the message; a file passes iff present, of an allowed image type, and at most 10 MiB |
| ImagesController.SizeCapInclusive | src/images/images.controller.ts:42-45 | for any allowed type, exactly 10 MiB is accepted and one byte more is refused as too large |
| ImagesController.TypeCheckedBeforeSize | src/images/images.controller.ts:37-40 | a file of any type outside the list is refused as "Only image files are allowed" whatever its size |
| ImagesController.AcceptedUploadKey | src/images/images.controller.ts:37-40 | an accepted file's blob key ends in its MIME subtype: jpeg, png, webp or avif |
| ImagesController.DownloadHeaders | src/images/images.controller.ts:86-89 | exactly Content-Type, the record's type, and Content-Disposition, an attachment named after the original file |
| ImagesController.ViewHeaders | src/images/images.controller.ts:105-108 | exactly Content-Type, the record's type, and Cache-Control "public, max-age=31536000" |
| ImagesController.UploadImage | src/images/images.controller.ts:27-48 | the service runs only when the checks pass; a refused file changes nothing; a file that passes is handed to the service with the caller's id, so the ledger is credited and the route succeeds exactly when probe, blob put, record create and ledger update all succeed, and otherwise it answers "Failed to upload image"; a success leaves a record of the caller with the file's size whose blob holds the file's bytes |
| ImagesController.DownloadImage | src/images/images.controller.ts:75-92 | NotFound for a missing or foreign record; the store's BadRequest "Image not found" when the blob is gone; an owned record whose blob is present is always served, with the stored bytes and the download headers |
| ImagesController.ViewImage | src/images/images.controller.ts:94-111 | NotFound for a missing or foreign record; the store's BadRequest "Image not found" when the blob is gone; an owned record whose blob is present is always served, with the stored bytes and the view headers |
| AuthGuard.GetToken | src/auth/guards/auth.guard.ts:22-26 | no token without an authorization header or with an empty one; a token never contains a space |
| AuthGuard.BearerGivesToken | src/auth/guards/auth.guard.ts:24-25 | "Bearer " followed by a token, and then the end or a space, gives that token |
| AuthGuard.TokenComesFromBearer | src/auth/guards/auth.guard.ts:24-25 | a token only comes from a header that starts with "Bearer " and the token, followed by the end or a space |
| AuthGuard.LowercaseSchemeRejected | src/auth/guards/auth.guard.ts:25 | the scheme is compared exactly, so "bearer" gives no token |
| AuthGuard.BareScheme | src/auth/guards/auth.guard.ts:24-25 | "Bearer" alone gives no token; "Bearer " gives an empty one |
| AuthGuard.CanActivate | src/auth/guards/auth.guard.ts:7-20 | a missing or empty token is "Token not found" and the verifier is not consulted; a refused token is "Invalid token"; otherwise the request gets the payload's user id and passes; the headers are never changed |

## Left out

- The pixel work of sharp (crop, resize, rotate, mirror, composite, encode) and metadata extraction are left out. They are the `Engine` and `Probe` parameters.
- The SVG text of the watermark is left out. The model records only the watermark text and the "southeast" anchor.
- TransformPlan.CropRequested: a JSON `null` is treated like an absent field. The validators let `cropX: null` (and the other crop fields) through, and the source's `!== undefined` test then starts a crop with a null rectangle, which the image library refuses, so the source answers "Failed to transform image: …"; the model plans no crop and the transform goes ahead.
- Sizes shown as `"x.xx KB"` in lists and details are left out. They are floating-point text formatting; the model keeps the byte count.
- UserSchema.UserJsonShape: the `totalStorageUsedMB` virtual is modelled as a field carrying the byte count; its decimal text is not modelled.
- Mongo's sort comparator is left out. The sorted catalog is a parameter, so the model does not state what order `sortBy`/`sortOrder` produce.
- ObjectId generation and casting are left out. Fresh ids are parameters, and ids are strings.
- S3 credentials, the bucket name, request signing and network errors other than a named `Fault` are left out.
- The concurrency of `Promise.all` and of simultaneous requests is left out. Each request runs alone, one step after another.
- `console.log` of the headers in the guard is left out.
- JWT signing and verification are left out. They are the `Verifier` parameter.
- The transform, list, details and delete routes are left out as separate members. They pass `req.userId` and the route id to the service unchanged, so they are the service methods.
- The other users routes, auth controller, app controller and module wiring are not part of this model.
- Aws.BlobStore.GetImage: streaming is modelled by fixed-size chunks of the stored body; a stream that fails part-way is not modelled.
- ImagesService.ImagesService.TransformImage: requires that the new blob key is not already in the bucket. A fresh ObjectId makes that so; the source never checks it.
- ImagesService.ImagesService.ListImages: requires limit and page of at least 1, which the validators guarantee; the service's own destructuring defaults are those of ImageDto.ValidateList.
