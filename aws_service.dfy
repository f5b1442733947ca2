/** The S3 client as an abstract key -> object store: a put that checks its
    arguments, a get that reassembles the streamed body from its chunks, a
    presigned read URL, and a delete. */
module Aws {
  import opened Common

  /** One stored object: its bytes and the content type it was put with. */
  datatype StoredObject = StoredObject(body: Bytes, contentType: string)

  /** A presigned GET for `key`, valid for `expiresIn` seconds. The signature
      itself is not modelled. */
  datatype SignedUrl = SignedUrl(key: string, expiresIn: nat)

  const DefaultContentType := "image/jpeg"
  const DefaultExpiry: nat := 3600

  type Positive = n: nat | n > 0 witness 1

  /** `Buffer.concat`. */
  function Concat(chunks: seq<Bytes>): (b: Bytes)
  {
    if chunks == [] then [] else chunks[0] + Concat(chunks[1..])
  }

  /** The body as the response stream delivers it: pieces of `size` bytes,
      the last one possibly shorter. */
  function Chunks(body: Bytes, size: Positive): (chunks: seq<Bytes>)
    ensures forall i :: 0 <= i < |chunks| ==> 0 < |chunks[i]| <= size
    decreases |body|
  {
    if |body| <= size then (if body == [] then [] else [body])
    else [body[..size]] + Chunks(body[size..], size)
  }

  /** Reassembling the streamed chunks gives back exactly the stored body,
      whatever the chunk size. */
  lemma {:induction false} ConcatChunks(body: Bytes, size: Positive)
    ensures Concat(Chunks(body, size)) == body
    decreases |body|
  {
    if |body| > size {
      ConcatChunks(body[size..], size);
      var chunks := Chunks(body, size);
      assert chunks[0] == body[..size];
      assert chunks[1..] == Chunks(body[size..], size);
      assert body == body[..size] + body[size..];
    } else if body != [] {
      assert Concat(Chunks(body, size)) == body + Concat([]);
    }
  }

  class BlobStore {
    /** The bucket. */
    var objects: map<string, StoredObject>
    /** How many bytes the response stream delivers per chunk. */
    const chunkSize: Positive

    constructor (chunkSize: Positive)
      ensures objects == map[] && this.chunkSize == chunkSize
    {
      objects := map[];
      this.chunkSize := chunkSize;
    }

    /** `uploadImage(filePath, file, contentType)`: an empty path or a missing
        body is refused and nothing is stored; otherwise the body is put under
        the path (replacing what was there) and the path is returned. */
    method UploadImage(filePath: string, file: Option<Bytes>, contentType: Option<string>)
      returns (r: Result<string, HttpError>)
      modifies this
      ensures filePath == "" || file.None? ==>
        r == Failure(BadRequest("File path and file are required")) && objects == old(objects)
      ensures filePath != "" && file.Some? ==>
        && r == Success(filePath)
        && objects == old(objects)[filePath := StoredObject(file.value, TextOr(contentType, DefaultContentType))]
    {
      if filePath == "" || file.None? {
        return Failure(BadRequest("File path and file are required"));
      }
      objects := objects[filePath := StoredObject(file.value, TextOr(contentType, DefaultContentType))];
      r := Success(filePath);
    }

    /** `getImage(filePath)`: collects the streamed chunks in arrival order and
        concatenates them, which yields the stored body; any failure, a
        missing key included, is "Image not found". */
    method GetImage(filePath: string) returns (r: Result<Bytes, HttpError>)
      ensures filePath in objects ==> r == Success(objects[filePath].body)
      ensures filePath !in objects ==> r == Failure(BadRequest("Image not found"))
    {
      if filePath !in objects {
        return Failure(BadRequest("Image not found"));
      }
      var body := objects[filePath].body;
      var stream := Chunks(body, chunkSize);
      var chunks: seq<Bytes> := [];
      var i := 0;
      while i < |stream|
        invariant 0 <= i <= |stream|
        invariant chunks == stream[..i]
      {
        chunks := chunks + [stream[i]];
        i := i + 1;
      }
      assert chunks == stream;
      ConcatChunks(body, chunkSize);
      r := Success(Concat(chunks));
    }

    /** `getSignedUrl(filePath, expiresIn = 3600)`. */
    function GetSignedUrl(filePath: string, expiresIn: Option<nat>): (u: SignedUrl)
      ensures u.key == filePath
      ensures u.expiresIn == if expiresIn.None? then DefaultExpiry else expiresIn.value
    {
      SignedUrl(filePath, if expiresIn.None? then DefaultExpiry else expiresIn.value)
    }

    /** The delete the service calls. The client has no such method; the
        model gives it the contract of S3's DeleteObject: the key is gone
        afterwards, and deleting an absent key is not an error. */
    method DeleteFile(filePath: string)
      modifies this
      ensures objects == old(objects) - {filePath}
    {
      objects := objects - {filePath};
    }
  }
}
