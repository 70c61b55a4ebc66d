/** The blob store: one bucket of named objects, the path and public URL of an
    upload, and the success/error wrapping of the storage helpers. The storage
    client's own work (streams, the network, signing) is abstract: its outcome is
    passed in. */
module CloudStorage {
  import opened Common
  import opened JsText

  const CacheControl: string := "public, max-age=31536000"
  const PublicHost: string := "https://storage.googleapis.com/"
  const DefaultSignedUrlLifetime: int := 3600000

  /** `folder ? `${folder}/${fileName}` : fileName`. */
  function FilePath(folder: string, fileName: string): (path: string)
    ensures folder == [] ==> path == fileName
    ensures folder != [] ==> StartsWith(path, folder + "/") && EndsWith(path, fileName)
  {
    if folder != [] then
      StartsWithAppend(folder + "/", fileName);
      EndsWithAppend(folder + "/", fileName);
      folder + "/" + fileName
    else fileName
  }

  /** The public address of a stored path. */
  function PublicUrl(bucket: string, path: string): (url: string)
    ensures StartsWith(url, PublicHost + bucket + "/") && EndsWith(url, path)
  {
    StartsWithAppend(PublicHost + bucket + "/", path);
    EndsWithAppend(PublicHost + bucket + "/", path);
    PublicHost + bucket + "/" + path
  }

  /** What the bucket holds under one name: the bytes and the write's metadata. */
  datatype StoredObject = StoredObject(content: seq<byte>, contentType: string, cacheControl: string)

  /** How the client behaves on one upload: it writes, it throws before the
      stream exists (`{success: false}` is returned), or the stream emits
      'error' (the returned promise rejects). */
  datatype UploadFault = NoFault | ThrowsBeforeStream(message: string) | StreamError(message: string)

  /** The settled value of uploadFile. `UploadRejected` is a rejected promise,
      which the caller's `await` turns into a throw. */
  datatype UploadResult =
    | Uploaded(fileName: string, publicUrl: string)
    | UploadFailed(error: string)
    | UploadRejected(error: string)

  /** What uploadFile settles to, given the client's behaviour. */
  function UploadOutcome(bucket: string, fileName: string, folder: string, fault: UploadFault): (r: UploadResult)
    ensures r.Uploaded? <==> fault.NoFault?
    ensures r.Uploaded? ==> r.fileName == FilePath(folder, fileName)
                            && r.publicUrl == PublicUrl(bucket, FilePath(folder, fileName))
    ensures fault.ThrowsBeforeStream? ==> r == UploadFailed(fault.message)
    ensures fault.StreamError? ==> r == UploadRejected(fault.message)
  {
    match fault
    case NoFault =>
      var path := FilePath(folder, fileName);
      Uploaded(path, PublicUrl(bucket, path))
    case ThrowsBeforeStream(m) => UploadFailed(m)
    case StreamError(m) => UploadRejected(m)
  }

  /** A successful upload's URL is the public address of the very path it reports. */
  lemma UploadedUrlMatchesPath(bucket: string, fileName: string, folder: string)
    ensures UploadOutcome(bucket, fileName, folder, NoFault).publicUrl
            == PublicUrl(bucket, UploadOutcome(bucket, fileName, folder, NoFault).fileName)
    ensures folder != [] ==>
              UploadOutcome(bucket, fileName, folder, NoFault).fileName == folder + "/" + fileName
    ensures folder == [] ==> UploadOutcome(bucket, fileName, folder, NoFault).fileName == fileName
  {
  }

  /** The outcome of a call into the storage client that may throw. */
  datatype Outcome<T> = Returned(value: T) | Thrown(message: string)

  /** `{success: true, ...}` or `{success: false, error: error.message}`. */
  datatype StorageResult<T> = Success(value: T) | Failure(error: string)

  /** The try/catch shared by the helpers: a throw becomes its message. */
  function Wrap<T>(o: Outcome<T>): (r: StorageResult<T>)
    ensures o.Returned? <==> r.Success?
    ensures o.Returned? ==> r.value == o.value
    ensures o.Thrown? ==> r.error == o.message
  {
    match o
    case Returned(v) => Success(v)
    case Thrown(m) => Failure(m)
  }

  /** One bucket. Its name is also the host path of the public URLs. */
  class Bucket {
    const name: string
    var objects: map<string, StoredObject>

    constructor(name: string)
      ensures this.name == name && objects == map[]
    {
      this.name := name;
      objects := map[];
    }

    /** uploadFile: a non-resumable write of the buffer under
        folder/fileName with the given content type and a one-year cache
        lifetime. An error before or during the stream writes nothing. */
    method UploadFile(fileName: string, content: seq<byte>, contentType: string, folder: string, fault: UploadFault)
      returns (r: UploadResult)
      modifies this
      ensures r == UploadOutcome(name, fileName, folder, fault)
      ensures fault.NoFault? ==>
                objects == old(objects)[FilePath(folder, fileName) := StoredObject(content, contentType, CacheControl)]
      ensures !fault.NoFault? ==> objects == old(objects)
    {
      var path := FilePath(folder, fileName);
      if fault.ThrowsBeforeStream? {
        return UploadFailed(fault.message);
      }
      if fault.StreamError? {
        return UploadRejected(fault.message);
      }
      objects := objects[path := StoredObject(content, contentType, CacheControl)];
      r := Uploaded(path, PublicUrl(name, path));
    }

    /** deleteFile; `thrown` is the client's error, if it throws. */
    method DeleteFile(fileName: string, thrown: Option<string>) returns (r: StorageResult<string>)
      modifies this
      ensures thrown.None? ==> r == Success("File deleted successfully") && objects == old(objects) - {fileName}
      ensures thrown.Some? ==> r == Failure(thrown.value) && objects == old(objects)
    {
      if thrown.Some? {
        return Failure(thrown.value);
      }
      objects := objects - {fileName};
      r := Success("File deleted successfully");
    }

    /** fileExists; `thrown` is the client's error, if it throws. */
    function FileExists(fileName: string, thrown: Option<string>): (r: StorageResult<bool>)
      reads this
      ensures thrown.None? ==> r == Success(fileName in objects)
      ensures thrown.Some? ==> r == Failure(thrown.value)
    {
      Wrap(if thrown.Some? then Thrown(thrown.value) else Returned(fileName in objects))
    }
  }

  /** An upload is then visible to fileExists, with the bytes and metadata written. */
  lemma UploadThenExists(b: Bucket, path: string, obj: StoredObject, before: map<string, StoredObject>)
    requires b.objects == before[path := obj]
    ensures b.FileExists(path, None) == Success(true)
    ensures b.objects[path] == obj
  {
  }

  /** The options handed to the signer. A missing lifetime is one hour; 0 is kept. */
  datatype SignOptions = SignOptions(version: string, action: string, expires: int, contentType: string)

  function SignedUploadOptions(contentType: string, expires: Option<int>, now: int): (o: SignOptions)
    ensures o.version == "v4" && o.action == "write" && o.contentType == contentType
    ensures expires.None? ==> o.expires == now + DefaultSignedUrlLifetime
    ensures expires.Some? ==> o.expires == now + expires.value
  {
    SignOptions("v4", "write", now + if expires.Some? then expires.value else DefaultSignedUrlLifetime, contentType)
  }

  /** getSignedUploadUrl over an abstract signer, with the clock passed in. */
  function GetSignedUploadUrl(fileName: string, contentType: string, expires: Option<int>, now: int,
                              sign: (string, SignOptions) -> Outcome<string>): (r: StorageResult<string>)
    ensures r.Success? <==> sign(fileName, SignedUploadOptions(contentType, expires, now)).Returned?
    ensures r.Failure? ==> r.error == sign(fileName, SignedUploadOptions(contentType, expires, now)).message
  {
    Wrap(sign(fileName, SignedUploadOptions(contentType, expires, now)))
  }

  /** What the client lists for one file. */
  datatype RemoteFile = RemoteFile(name: string, size: string, updated: string, contentType: string, md5: string)

  /** The entry listFiles reports for it. */
  datatype FileInfo = FileInfo(name: string, size: string, updated: string, contentType: string)

  function Describe(f: RemoteFile): FileInfo
  {
    FileInfo(f.name, f.size, f.updated, f.contentType)
  }

  function DescribeAll(files: seq<RemoteFile>): (r: seq<FileInfo>)
    ensures |r| == |files|
    ensures forall i :: 0 <= i < |files| ==> r[i] == Describe(files[i])
  {
    if files == [] then [] else [Describe(files[0])] + DescribeAll(files[1..])
  }

  /** listFiles over the client's listing for the prefix. */
  function ListFiles(listing: Outcome<seq<RemoteFile>>): (r: StorageResult<seq<FileInfo>>)
    ensures r.Success? <==> listing.Returned?
    ensures r.Success? ==> |r.value| == |listing.value|
    ensures r.Success? ==>
              forall i :: 0 <= i < |listing.value| ==>
                r.value[i] == FileInfo(listing.value[i].name, listing.value[i].size,
                                       listing.value[i].updated, listing.value[i].contentType)
    ensures r.Failure? ==> r.error == listing.message
  {
    match listing
    case Returned(files) => Success(DescribeAll(files))
    case Thrown(m) => Failure(m)
  }

  /** The listing keeps the client's order and adds nothing: listing a
      concatenation lists each part in turn. */
  lemma {:induction false} DescribeAllAppend(a: seq<RemoteFile>, b: seq<RemoteFile>)
    ensures DescribeAll(a + b) == DescribeAll(a) + DescribeAll(b)
  {
    if a != [] {
      assert (a + b)[1..] == a[1..] + b;
      DescribeAllAppend(a[1..], b);
    }
  }
}
