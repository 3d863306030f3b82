/** The MinIO adapter `MinioStorage`: object paths of the form `bucket/object`, buckets
    created on first use, streamed uploads, downloads and presigned download links.

    The MinIO server behind the client is modelled by the adapter's own state: the set
    of buckets, the stored objects, and the log of client calls in the order they were
    made. `faults` is the set of client calls the server answers with an error. Each
    operation is a function from the old state to the new state and result (`BucketStep`,
    `UploadStep`, `CloseStep`, `DownloadStep`, `PresignStep`); the class's methods
    perform the same steps on their fields. */
module Storage {
  import opened Wrappers
  import opened GoStrings
  import opened TaskModel

  /** A request the adapter sends to the MinIO server. */
  datatype ClientCall =
    | BucketExists(bucket: string)
    | MakeBucket(bucket: string)
    | PutObject(bucket: string, objectName: string)
    | GetObject(bucket: string, objectName: string)
    | PresignGet(bucket: string, objectName: string)

  datatype ObjectKey = ObjectKey(bucket: string, objectName: string)

  datatype StorageError =
    | InvalidPath(path: string)              // parsePath: no `/` in the path
    | NotBucketAndObject(path: string)       // Download, GetPresignedURL: not exactly two segments
    | BucketCheckFailed(bucket: string)
    | BucketCreateFailed(bucket: string)
    | GetObjectFailed(key: ObjectKey)
    | PresignFailed(key: ObjectKey)

  /** The write end of the upload pipe: what is written to it becomes the object `key`
      once the writer is closed. */
  datatype Writer = Writer(key: ObjectKey)

  /** The server's state as the adapter sees it. */
  datatype Store = Store(buckets: set<string>, objects: map<ObjectKey, seq<byte>>, calls: seq<ClientCall>)

  // ---------------------------------------------------------------------------
  // Object paths
  // ---------------------------------------------------------------------------

  /** parsePath: the first `/`-segment is the bucket, the rest (joined back with `/`)
      the object name; a path without `/` is an error. */
  function ParsePath(path: string): (r: Result<ObjectKey, StorageError>)
    ensures r.Failure? <==> '/' !in path
    ensures r.Failure? ==> r.error == InvalidPath(path)
    ensures r.Success? ==> r.value.bucket + "/" + r.value.objectName == path && '/' !in r.value.bucket
  {
    var arr := Split(path, '/');
    CountZero(path, '/');
    JoinSplit(path, '/');
    if |arr| < 2 then Failure(InvalidPath(path))
    else
      assert Join(arr, "/") == arr[0] + "/" + Join(arr[1..], "/");
      Success(ObjectKey(arr[0], Join(arr[1..], "/")))
  }

  /** A bucket name without `/`, a `/` and any object name parse back into that bucket
      and object name. */
  lemma ParsePathOf(bucket: string, objectName: string)
    requires '/' !in bucket
    ensures ParsePath(bucket + "/" + objectName) == Success(ObjectKey(bucket, objectName))
  {
    var path := bucket + "/" + objectName;
    SplitAfterPiece(bucket, '/', objectName);
    assert Split(path, '/') == [bucket] + Split(objectName, '/');
    assert ([bucket] + Split(objectName, '/'))[1..] == Split(objectName, '/');
    JoinSplit(objectName, '/');
  }

  /** The check in Download and GetPresignedURL: exactly two `/`-segments. */
  predicate IsBucketAndObject(path: string)
  {
    |Split(path, '/')| == 2
  }

  /** The two-segment check accepts exactly the paths that parse into a bucket and an
      object name that is itself a single segment. */
  lemma BucketAndObjectIffParsedFlat(path: string)
    ensures IsBucketAndObject(path) <==> ParsePath(path).Success? && '/' !in ParsePath(path).value.objectName
  {
    CountZero(path, '/');
    var r := ParsePath(path);
    if r.Success? {
      var b, o := r.value.bucket, r.value.objectName;
      CountAppend(b + "/", o, '/');
      CountAppend(b, "/", '/');
      CountZero(b, '/');
      CountZero(o, '/');
      assert Count("/", '/') == 1;
      assert Count(path, '/') == 1 + Count(o, '/');
    }
  }

  /** A nested object path (`a/b/c`) is accepted by parsePath, and so by Upload, but
      rejected by Download and GetPresignedURL. */
  lemma NestedPathOnlyUploadable(bucket: string, objectName: string)
    requires '/' !in bucket && '/' in objectName
    ensures ParsePath(bucket + "/" + objectName) == Success(ObjectKey(bucket, objectName))
    ensures !IsBucketAndObject(bucket + "/" + objectName)
  {
    ParsePathOf(bucket, objectName);
    BucketAndObjectIffParsedFlat(bucket + "/" + objectName);
  }

  // ---------------------------------------------------------------------------
  // Operations on the server state
  // ---------------------------------------------------------------------------

  /** createBucketIfNotExists: ask whether the bucket exists, and create it when it
      does not. */
  function BucketStep(s: Store, faults: set<ClientCall>, bucket: string): (Store, Option<StorageError>)
  {
    var s1 := s.(calls := s.calls + [BucketExists(bucket)]);
    if BucketExists(bucket) in faults then (s1, Some(BucketCheckFailed(bucket)))
    else if bucket in s.buckets then (s1, None)
    else
      var s2 := s1.(calls := s1.calls + [MakeBucket(bucket)]);
      if MakeBucket(bucket) in faults then (s2, Some(BucketCreateFailed(bucket)))
      else (s2.(buckets := s.buckets + {bucket}), None)
  }

  /** Upload: parse the path, make sure the bucket exists, hand back a writer. A path that
      does not parse is refused before any client call. */
  function UploadStep(s: Store, faults: set<ClientCall>, path: string): (Store, Result<Writer, StorageError>)
  {
    match ParsePath(path)
    case Failure(e) => (s, Failure(e))
    case Success(key) =>
      var (s1, err) := BucketStep(s, faults, key.bucket);
      if err.Some? then (s1, Failure(err.value)) else (s1, Success(Writer(key)))
  }

  /** Closing the writer ends the stream that PutObject reads; the bytes written become the
      object unless the server refuses the put. */
  function CloseStep(s: Store, faults: set<ClientCall>, w: Writer, data: seq<byte>): Store
  {
    var call := PutObject(w.key.bucket, w.key.objectName);
    var s1 := s.(calls := s.calls + [call]);
    if call in faults || w.key.bucket !in s.buckets then s1 else s1.(objects := s.objects[w.key := data])
  }

  /** Download: exactly two segments, then a GetObject; the reader is the object handle. */
  function DownloadStep(s: Store, faults: set<ClientCall>, path: string): (Store, Result<ObjectKey, StorageError>)
  {
    var arr := Split(path, '/');
    if |arr| != 2 then (s, Failure(NotBucketAndObject(path)))
    else
      var key := ObjectKey(arr[0], arr[1]);
      var call := GetObject(key.bucket, key.objectName);
      var s1 := s.(calls := s.calls + [call]);
      if call in faults then (s1, Failure(GetObjectFailed(key))) else (s1, Success(key))
  }

  /** The link PresignedGetObject produces for an object (its signature query is not part
      of this model). */
  function PresignedUrl(endpoint: string, key: ObjectKey): string
  {
    "http://" + endpoint + "/" + key.bucket + "/" + key.objectName
  }

  /** GetPresignedURL: exactly two segments, then a presign request. */
  function PresignStep(s: Store, faults: set<ClientCall>, endpoint: string, path: string): (Store, Result<string, StorageError>)
  {
    var arr := Split(path, '/');
    if |arr| != 2 then (s, Failure(NotBucketAndObject(path)))
    else
      var key := ObjectKey(arr[0], arr[1]);
      var call := PresignGet(key.bucket, key.objectName);
      var s1 := s.(calls := s.calls + [call]);
      if call in faults then (s1, Failure(PresignFailed(key))) else (s1, Success(PresignedUrl(endpoint, key)))
  }

  // ---------------------------------------------------------------------------
  // Properties of the operations
  // ---------------------------------------------------------------------------

  /** After a successful createBucketIfNotExists the bucket is present; a failed one
      changes no bucket. It creates no other bucket, calls MakeBucket only for a bucket
      that is missing, and never touches objects. */
  lemma BucketStepEffect(s: Store, faults: set<ClientCall>, bucket: string)
    ensures var (s', err) := BucketStep(s, faults, bucket);
      && (err.None? ==> bucket in s'.buckets)
      && (err.Some? ==> s'.buckets == s.buckets)
      && s.buckets <= s'.buckets <= s.buckets + {bucket}
      && s'.objects == s.objects
      && (MakeBucket(bucket) in s'.calls[|s.calls|..] <==> BucketExists(bucket) !in faults && bucket !in s.buckets)
      && s'.calls[..|s.calls|] == s.calls && s'.calls[|s.calls|] == BucketExists(bucket)
  {
    var (s', err) := BucketStep(s, faults, bucket);
    if BucketExists(bucket) !in faults && bucket !in s.buckets {
      assert s'.calls[|s.calls|..] == [BucketExists(bucket), MakeBucket(bucket)];
    } else {
      assert s'.calls[|s.calls|..] == [BucketExists(bucket)];
    }
  }

  /** After a successful createBucketIfNotExists, a second call changes no bucket and
      sends no MakeBucket, whichever requests the server refuses that second time; when
      it answers the existence check, the second call succeeds with that single request.
      When the same requests are refused both times, two calls leave the buckets of one. */
  lemma BucketStepIdempotent(s: Store, faults1: set<ClientCall>, faults2: set<ClientCall>, bucket: string)
    ensures var (s1, err1) := BucketStep(s, faults1, bucket);
      var (s2, err2) := BucketStep(s1, faults2, bucket);
      && |s2.calls| > |s1.calls|
      && (err1.None? ==> s2.buckets == s1.buckets && MakeBucket(bucket) !in s2.calls[|s1.calls|..])
      && (err1.None? && BucketExists(bucket) !in faults2 ==>
            err2.None? && s2.calls == s1.calls + [BucketExists(bucket)])
      && (faults2 == faults1 ==> s2.buckets == s1.buckets)
  {
    var (s1, err1) := BucketStep(s, faults1, bucket);
    BucketStepEffect(s1, faults2, bucket);
    if BucketExists(bucket) !in faults1 && MakeBucket(bucket) in faults1 && bucket !in s.buckets {
      assert bucket !in s1.buckets;
    }
  }

  /** Upload refuses a path without `/` before any client call; otherwise it returns a
      writer for the parsed object only once the bucket exists, and passes a bucket
      failure on as its error. */
  lemma UploadStepEffect(s: Store, faults: set<ClientCall>, path: string)
    ensures var (s', r) := UploadStep(s, faults, path);
      && ('/' !in path ==> s' == s && r == Failure(InvalidPath(path)))
      && ('/' in path ==>
            var key := ParsePath(path).value;
            && s' == BucketStep(s, faults, key.bucket).0
            && (r.Success? ==> r.value == Writer(key) && key.bucket in s'.buckets)
            && (r.Failure? ==> r.error == BucketStep(s, faults, key.bucket).1.value))
  {
    if '/' in path {
      BucketStepEffect(s, faults, ParsePath(path).value.bucket);
    }
  }

  /** Closing a writer stores exactly the bytes written under its key, unless the put is
      refused; no other object changes. */
  lemma CloseStepEffect(s: Store, faults: set<ClientCall>, w: Writer, data: seq<byte>)
    ensures var s' := CloseStep(s, faults, w, data);
      && s'.buckets == s.buckets
      && s'.calls == s.calls + [PutObject(w.key.bucket, w.key.objectName)]
      && (forall k :: k != w.key ==> (k in s'.objects <==> k in s.objects))
      && (forall k :: k != w.key && k in s.objects ==> s'.objects[k] == s.objects[k])
      && (PutObject(w.key.bucket, w.key.objectName) !in faults && w.key.bucket in s.buckets ==>
            w.key in s'.objects && s'.objects[w.key] == data)
  {
  }

  /** Download and GetPresignedURL refuse every path that is not exactly two segments
      before any client call; otherwise they address the object `bucket/object`. */
  lemma ReadStepsCheckPath(s: Store, faults: set<ClientCall>, endpoint: string, path: string)
    ensures !IsBucketAndObject(path) ==>
      DownloadStep(s, faults, path) == (s, Failure(NotBucketAndObject(path))) &&
      PresignStep(s, faults, endpoint, path) == (s, Failure(NotBucketAndObject(path)))
    ensures IsBucketAndObject(path) ==>
      var key := ParsePath(path).value;
      && DownloadStep(s, faults, path).0.calls == s.calls + [GetObject(key.bucket, key.objectName)]
      && PresignStep(s, faults, endpoint, path).0.calls == s.calls + [PresignGet(key.bucket, key.objectName)]
      && (PresignGet(key.bucket, key.objectName) !in faults ==>
            PresignStep(s, faults, endpoint, path).1 == Success(PresignedUrl(endpoint, key)))
  {
    if IsBucketAndObject(path) {
      var arr := Split(path, '/');
      BucketAndObjectIffParsedFlat(path);
      var key := ParsePath(path).value;
      ParsePathOf(arr[0], arr[1]);
      JoinSplit(path, '/');
      assert Join(arr, "/") == arr[0] + "/" + arr[1];
      assert key == ObjectKey(arr[0], arr[1]);
    }
  }

  // ---------------------------------------------------------------------------
  // The adapter
  // ---------------------------------------------------------------------------

  class MinioStorage {
    /** The server address the client was built for. */
    const endpoint: string
    /** `bucket` from the configuration; none of the operations read it. */
    const bucket: string
    /** The client calls the server answers with an error. */
    const faults: set<ClientCall>

    var buckets: set<string>
    var objects: map<ObjectKey, seq<byte>>
    var calls: seq<ClientCall>

    function State(): Store
      reads this
    {
      Store(buckets, objects, calls)
    }

    /** NewMinioStorage, against a server that already holds `buckets` and `objects`. */
    constructor (endpoint: string, bucket: string, faults: set<ClientCall>,
                 buckets: set<string>, objects: map<ObjectKey, seq<byte>>)
      ensures this.endpoint == endpoint && this.bucket == bucket && this.faults == faults
      ensures State() == Store(buckets, objects, [])
    {
      this.endpoint := endpoint;
      this.bucket := bucket;
      this.faults := faults;
      this.buckets := buckets;
      this.objects := objects;
      this.calls := [];
    }

    method CreateBucketIfNotExists(b: string) returns (err: Option<StorageError>)
      modifies this
      ensures (State(), err) == BucketStep(old(State()), faults, b)
    {
      calls := calls + [BucketExists(b)];
      if BucketExists(b) in faults {
        return Some(BucketCheckFailed(b));
      }
      var present := b in buckets;
      if !present {
        calls := calls + [MakeBucket(b)];
        if MakeBucket(b) in faults {
          return Some(BucketCreateFailed(b));
        }
        buckets := buckets + {b};
      }
      return None;
    }

    method Upload(pathUpload: string) returns (r: Result<Writer, StorageError>)
      modifies this
      ensures (State(), r) == UploadStep(old(State()), faults, pathUpload)
    {
      var parsed := ParsePath(pathUpload);
      if parsed.Failure? {
        return Failure(parsed.error);
      }
      var err := CreateBucketIfNotExists(parsed.value.bucket);
      if err.Some? {
        return Failure(err.value);
      }
      return Success(Writer(parsed.value));
    }

    /** `Close` on the writer returned by Upload, after `data` was written to it. */
    method Close(w: Writer, data: seq<byte>)
      modifies this
      ensures State() == CloseStep(old(State()), faults, w, data)
    {
      var call := PutObject(w.key.bucket, w.key.objectName);
      calls := calls + [call];
      if call !in faults && w.key.bucket in buckets {
        objects := objects[w.key := data];
      }
    }

    method Download(pathDownload: string) returns (r: Result<ObjectKey, StorageError>)
      modifies this
      ensures (State(), r) == DownloadStep(old(State()), faults, pathDownload)
    {
      var arr := Split(pathDownload, '/');
      if |arr| != 2 {
        return Failure(NotBucketAndObject(pathDownload));
      }
      var key := ObjectKey(arr[0], arr[1]);
      calls := calls + [GetObject(key.bucket, key.objectName)];
      if GetObject(key.bucket, key.objectName) in faults {
        return Failure(GetObjectFailed(key));
      }
      return Success(key);
    }

    method GetPresignedURL(pathDownload: string) returns (r: Result<string, StorageError>)
      modifies this
      ensures (State(), r) == PresignStep(old(State()), faults, endpoint, pathDownload)
    {
      var arr := Split(pathDownload, '/');
      if |arr| != 2 {
        return Failure(NotBucketAndObject(pathDownload));
      }
      var key := ObjectKey(arr[0], arr[1]);
      calls := calls + [PresignGet(key.bucket, key.objectName)];
      if PresignGet(key.bucket, key.objectName) in faults {
        return Failure(PresignFailed(key));
      }
      return Success(PresignedUrl(endpoint, key));
    }
  }
}
