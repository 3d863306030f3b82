/** The task orchestrator `VideoService.Execute`: inside a temporary directory that is
    removed on every return path, presign the source video, process it into HLS there,
    upload the produced tree under `videos/<processID>`, and presign the master playlist.

    The filesystem and the randomness are inputs (`Environment`): the directory MkdirTemp
    creates (or its failure), whether MkdirAll fails, the UUID `uuid.New` returns, and the
    entries `filepath.Walk` visits in the output directory. The storage is the MinIO
    adapter; the processing step is the service's `task.Processer`, a function value. */
module Services {
  import opened Wrappers
  import opened GoStrings
  import opened TaskModel
  import opened Processer
  import opened Storage

  const BucketName: string := "videos"
  const OutputSubdir: string := "processed_output"

  /** One entry `filepath.Walk` hands to the callback: its path relative to the walk root,
      whether it is a directory, whether the walk reports an error for it, and for a
      regular file whether opening it fails, whether copying it fails (after how many
      bytes) and its contents. */
  datatype WalkEntry = WalkEntry(relPath: string, isDir: bool, statFails: bool,
                                 openFails: bool, copyFailsAfter: Option<nat>, content: seq<byte>)

  datatype WalkError =
    | StatFailed(path: string)
    | UploadRefused(objectPath: string, uploadCause: StorageError)
    | OpenFailed(path: string)
    | CopyFailed(path: string)

  datatype ServiceError =
    | TempDirFailed
    | OutputDirFailed
    | SourceLinkFailed(sourceCause: StorageError)
    | ProcessFailed(processCause: ProcessError)
    | UploadFailed(walkCause: WalkError)
    | PlaylistLinkFailed(playlistCause: StorageError)

  /** What the outside world answers during one Execute. */
  datatype Environment = Environment(tempDir: Option<string>, mkdirFails: bool, processId: Uuid, tree: seq<WalkEntry>)

  /** The local side effects of Execute, in order. */
  datatype ServiceEvent =
    | TempDirCreated(dir: string)
    | OutputDirCreated(path: string)
    | Processed(videoUrl: string, outputDir: string, run: ProcessRun)
    | TempDirRemoved(dir: string)

  datatype ExecOutcome = ExecOutcome(store: Store, events: seq<ServiceEvent>, url: string, err: Option<ServiceError>)

  // ---------------------------------------------------------------------------
  // uploadAllFilesInDir
  // ---------------------------------------------------------------------------

  /** `ToSlash(Join(prefix, relPath))` for the clean prefix and relative paths the walk
      produces. */
  function ObjectPath(prefix: string, relPath: string): string
  {
    PathJoin(prefix, relPath)
  }

  predicate CopyFails(e: WalkEntry)
  {
    e.copyFailsAfter.Some?
  }

  /** The bytes io.Copy moves into the writer: all of them, or those before the failure. */
  function Copied(e: WalkEntry): seq<byte>
  {
    match e.copyFailsAfter
    case None => e.content
    case Some(n) => if n < |e.content| then e.content[..n] else e.content
  }

  /** The walk callback for one entry. The deferred `writer.Close()` runs on every return
      after a successful Upload, so whatever was written lands even when open or copy
      fails. */
  function Visit(s: Store, faults: set<ClientCall>, prefix: string, e: WalkEntry): (Store, Option<WalkError>)
  {
    if e.statFails then (s, Some(StatFailed(e.relPath)))
    else if e.isDir then (s, None)
    else
      var objectPath := ObjectPath(prefix, e.relPath);
      var (s1, w) := UploadStep(s, faults, objectPath);
      if w.Failure? then (s1, Some(UploadRefused(objectPath, w.error)))
      else if e.openFails then (CloseStep(s1, faults, w.value, []), Some(OpenFailed(e.relPath)))
      else if CopyFails(e) then (CloseStep(s1, faults, w.value, Copied(e)), Some(CopyFailed(e.relPath)))
      else (CloseStep(s1, faults, w.value, e.content), None)
  }

  /** filepath.Walk with that callback: entries in walk order, stopping at the first error. */
  function UploadTree(s: Store, faults: set<ClientCall>, prefix: string, es: seq<WalkEntry>): (Store, Option<WalkError>)
    decreases es
  {
    if es == [] then (s, None)
    else
      var (s1, err) := Visit(s, faults, prefix, es[0]);
      if err.Some? then (s1, err) else UploadTree(s1, faults, prefix, es[1..])
  }

  /** The object key a regular file is uploaded to. */
  function KeyOf(prefix: string, e: WalkEntry): ObjectKey
    requires '/' in ObjectPath(prefix, e.relPath)
  {
    ParsePath(ObjectPath(prefix, e.relPath)).value
  }

  // ---------------------------------------------------------------------------
  // Execute
  // ---------------------------------------------------------------------------

  /** The `task.Processer` interface the service embeds: the task, the source link and
      the output directory in, the outcome out. */
  type Processor = (VideoTask, string, string) -> ProcessRun

  /** `VideoProcess` as a `task.Processer`, with ffprobe and ffmpeg answering, for each
      source link, as `probe` and `ffmpegFails` say. */
  function VideoProcessor(probe: string -> ProbeOutcome, ffmpegFails: string -> bool): Processor
  {
    (t: VideoTask, videoUrl: string, outputDir: string) => Process(t, videoUrl, outputDir, probe(videoUrl), ffmpegFails(videoUrl))
  }

  /** The wired processor succeeds exactly when the probe of the source link yields
      metadata at least 360 lines high and ffmpeg then succeeds. */
  lemma VideoProcessorRuns(probe: string -> ProbeOutcome, ffmpegFails: string -> bool, t: VideoTask,
                           videoUrl: string, outputDir: string)
    ensures var run := VideoProcessor(probe, ffmpegFails)(t, videoUrl, outputDir);
      var meta := ExtractMetadata(videoUrl, probe(videoUrl));
      run.err.None? <==> meta.Success? && meta.value.height >= 360 && !ffmpegFails(videoUrl)
  {
    ProcessSteps(t, videoUrl, outputDir, probe(videoUrl), ffmpegFails(videoUrl));
  }

  /** `filepath.Join("videos", videoID)`: where the source video lives. */
  function SourcePath(videoId: string): string
  {
    PathJoin(BucketName, videoId)
  }

  /** `videos/<processID>`: where the produced files are uploaded. */
  function UploadPrefix(processId: string): string
  {
    BucketName + "/" + processId
  }

  /** The path whose link Execute returns: the master playlist under the upload prefix. */
  function PlaylistPath(processId: string): string
  {
    UploadPrefix(processId) + "/" + MasterPlaylistName
  }

  /** Execute after the temporary directory exists (everything the deferred removal
      covers), for the video and process IDs in their string form. */
  function InTempDir(vt: VideoTask, env: Environment, tempDir: string, videoId: string, processId: string, process: Processor,
                     s: Store, faults: set<ClientCall>, endpoint: string): ExecOutcome
  {
    var outDir := PathJoin(tempDir, OutputSubdir);
    if env.mkdirFails then ExecOutcome(s, [], "", Some(OutputDirFailed))
    else
      var made := [OutputDirCreated(outDir)];
      var (s1, link) := PresignStep(s, faults, endpoint, SourcePath(videoId));
      if link.Failure? then ExecOutcome(s1, made, "", Some(SourceLinkFailed(link.error)))
      else
        var run := process(vt, link.value, outDir);
        var ran := made + [Processed(link.value, outDir, run)];
        if run.err.Some? then ExecOutcome(s1, ran, "", Some(ProcessFailed(run.err.value)))
        else
          var (s2, werr) := UploadTree(s1, faults, UploadPrefix(processId), env.tree);
          if werr.Some? then ExecOutcome(s2, ran, "", Some(UploadFailed(werr.value)))
          else
            var (s3, playlist) := PresignStep(s2, faults, endpoint, PlaylistPath(processId));
            if playlist.Failure? then ExecOutcome(s3, ran, "", Some(PlaylistLinkFailed(playlist.error)))
            else ExecOutcome(s3, ran, playlist.value, None)
  }

  /** Execute: create the temporary directory, run the steps, remove the directory. */
  function ExecuteSpec(vt: VideoTask, env: Environment, process: Processor, s: Store, faults: set<ClientCall>, endpoint: string): ExecOutcome
  {
    match env.tempDir
    case None => ExecOutcome(s, [], "", Some(TempDirFailed))
    case Some(d) =>
      var o := InTempDir(vt, env, d, UuidString(vt.videoId), UuidString(env.processId), process, s, faults, endpoint);
      o.(events := [TempDirCreated(d)] + o.events + [TempDirRemoved(d)])
  }

  // ---------------------------------------------------------------------------
  // Properties of the walk
  // ---------------------------------------------------------------------------

  /** A relative path as `filepath.Rel` gives it for a file below the walk root: segments
      separated by single `/`, none of them empty, `.` or `..`. `filepath.Join` leaves
      such a path as it is, which `ObjectPath` relies on. */
  predicate CleanRelPath(p: string)
  {
    forall seg :: seg in Split(p, '/') ==> seg != "" && seg != "." && seg != ".."
  }

  /** Object paths sit under `prefix/`, and distinct clean relative paths give distinct
      object paths and distinct object keys. */
  lemma ObjectPathsDistinct(prefix: string, a: WalkEntry, b: WalkEntry)
    requires CleanRelPath(a.relPath) && CleanRelPath(b.relPath)
    ensures ObjectPath(prefix, a.relPath)[..|prefix| + 1] == prefix + "/"
    ensures a.relPath != b.relPath ==> KeyOf(prefix, a) != KeyOf(prefix, b)
  {
    var pa, pb := ObjectPath(prefix, a.relPath), ObjectPath(prefix, b.relPath);
    assert pa[..|prefix| + 1] == prefix + "/";
    if a.relPath != b.relPath {
      assert pa[|prefix| + 1..] == a.relPath && pb[|prefix| + 1..] == b.relPath;
      var ka, kb := ParsePath(pa).value, ParsePath(pb).value;
      assert ka.bucket + "/" + ka.objectName == pa;
      assert kb.bucket + "/" + kb.objectName == pb;
    }
  }

  /** Under `videos/<processID>`, a file lands in bucket `videos` as object
      `<processID>/<relPath>`. */
  lemma KeyUnderPrefix(processId: string, e: WalkEntry)
    ensures KeyOf(UploadPrefix(processId), e) == ObjectKey(BucketName, processId + "/" + e.relPath)
  {
    assert ObjectPath(UploadPrefix(processId), e.relPath) == BucketName + "/" + (processId + "/" + e.relPath);
    assert '/' !in BucketName;
    ParsePathOf(BucketName, processId + "/" + e.relPath);
  }

  /** Directories are skipped without any client call. */
  lemma VisitSkipsDirectories(s: Store, faults: set<ClientCall>, prefix: string, e: WalkEntry)
    requires e.isDir && !e.statFails
    ensures Visit(s, faults, prefix, e) == (s, None)
  {
  }

  /** Walking `a + b` walks `a`, and then `b` only when `a` reported no error: entries are
      visited in order and the first error ends the walk. */
  lemma {:induction false} UploadTreeAppend(s: Store, faults: set<ClientCall>, prefix: string, a: seq<WalkEntry>, b: seq<WalkEntry>)
    decreases a
    ensures var (sa, ea) := UploadTree(s, faults, prefix, a);
      UploadTree(s, faults, prefix, a + b) == if ea.Some? then (sa, ea) else UploadTree(sa, faults, prefix, b)
  {
    if a == [] {
      assert a + b == b;
    } else {
      assert (a + b)[0] == a[0] && (a + b)[1..] == a[1..] + b;
      var (s1, err) := Visit(s, faults, prefix, a[0]);
      if err.None? {
        UploadTreeAppend(s1, faults, prefix, a[1..], b);
      }
    }
  }

  /** An entry the callback rejects whatever the storage does. */
  predicate AlwaysFails(e: WalkEntry)
  {
    e.statFails || (!e.isDir && (e.openFails || CopyFails(e)))
  }

  lemma VisitFails(s: Store, faults: set<ClientCall>, prefix: string, e: WalkEntry)
    requires AlwaysFails(e)
    ensures Visit(s, faults, prefix, e).1.Some?
  {
  }

  /** A walk over one entry is one callback. */
  lemma UploadTreeSingle(s: Store, faults: set<ClientCall>, prefix: string, e: WalkEntry)
    ensures UploadTree(s, faults, prefix, [e]) == Visit(s, faults, prefix, e)
  {
    assert [e][1..] == [];
  }

  /** At an entry whose stat, open or copy fails, the walk ends: the entries after it are
      never visited, so nothing after it is uploaded. */
  lemma UploadTreeAbortsAt(s: Store, faults: set<ClientCall>, prefix: string, es: seq<WalkEntry>, k: nat)
    requires k < |es| && AlwaysFails(es[k])
    ensures UploadTree(s, faults, prefix, es) == UploadTree(s, faults, prefix, es[..k + 1])
    ensures UploadTree(s, faults, prefix, es).1.Some?
  {
    assert es == es[..k + 1] + es[k + 1..];
    UploadTreeAppend(s, faults, prefix, es[..k + 1], es[k + 1..]);
    assert es[..k + 1] == es[..k] + [es[k]];
    UploadTreeAppend(s, faults, prefix, es[..k], [es[k]]);
    var (sk, ek) := UploadTree(s, faults, prefix, es[..k]);
    if ek.None? {
      VisitFails(sk, faults, prefix, es[k]);
      UploadTreeSingle(sk, faults, prefix, es[k]);
    }
  }

  /** A walk that ends without error met no failing entry. */
  lemma {:induction false} UploadTreeSuccess(s: Store, faults: set<ClientCall>, prefix: string, es: seq<WalkEntry>)
    decreases es
    ensures UploadTree(s, faults, prefix, es).1.None? ==> forall k :: 0 <= k < |es| ==> !AlwaysFails(es[k])
  {
    if es != [] {
      var (s1, err) := Visit(s, faults, prefix, es[0]);
      if AlwaysFails(es[0]) {
        VisitFails(s, faults, prefix, es[0]);
      } else if err.None? {
        UploadTreeSuccess(s1, faults, prefix, es[1..]);
        assert forall k :: 1 <= k < |es| ==> es[k] == es[1..][k - 1];
      }
    }
  }

  /** The keys of the regular files among `es`. */
  predicate IsFileKey(prefix: string, es: seq<WalkEntry>, key: ObjectKey)
  {
    exists k :: 0 <= k < |es| && !es[k].isDir && KeyOf(prefix, es[k]) == key
  }

  /** Visiting one entry changes no object except the entry's own, and no bucket except
      the bucket of its object. */
  lemma VisitFrame(s: Store, faults: set<ClientCall>, prefix: string, e: WalkEntry, key: ObjectKey)
    requires e.isDir || key != KeyOf(prefix, e)
    ensures var s' := Visit(s, faults, prefix, e).0;
      (key in s'.objects <==> key in s.objects) && (key in s.objects ==> s'.objects[key] == s.objects[key])
    ensures s.buckets <= Visit(s, faults, prefix, e).0.buckets
  {
    if !e.statFails && !e.isDir {
      var (s1, w) := UploadStep(s, faults, ObjectPath(prefix, e.relPath));
      UploadStepEffect(s, faults, ObjectPath(prefix, e.relPath));
      if w.Success? {
        BucketStepEffect(s, faults, KeyOf(prefix, e).bucket);
        CloseStepEffect(s1, faults, w.value, []);
        CloseStepEffect(s1, faults, w.value, Copied(e));
        CloseStepEffect(s1, faults, w.value, e.content);
      } else {
        BucketStepEffect(s, faults, KeyOf(prefix, e).bucket);
      }
    }
  }

  /** The walk changes no object other than those of its regular files. */
  lemma {:induction false} UploadTreeFrame(s: Store, faults: set<ClientCall>, prefix: string, es: seq<WalkEntry>, key: ObjectKey)
    requires !IsFileKey(prefix, es, key)
    decreases es
    ensures var s' := UploadTree(s, faults, prefix, es).0;
      (key in s'.objects <==> key in s.objects) && (key in s.objects ==> s'.objects[key] == s.objects[key])
  {
    if es != [] {
      assert !es[0].isDir ==> KeyOf(prefix, es[0]) != key;
      VisitFrame(s, faults, prefix, es[0], key);
      var (s1, err) := Visit(s, faults, prefix, es[0]);
      if err.None? {
        forall j | 0 <= j < |es[1..]| && !es[1..][j].isDir
          ensures KeyOf(prefix, es[1..][j]) != key
        {
          assert es[1..][j] == es[j + 1];
        }
        UploadTreeFrame(s1, faults, prefix, es[1..], key);
      }
    }
  }

  /** A regular file whose upload succeeds is stored with its full contents. */
  lemma VisitStores(s: Store, faults: set<ClientCall>, prefix: string, e: WalkEntry)
    requires !e.isDir && !e.statFails
    requires PutObject(KeyOf(prefix, e).bucket, KeyOf(prefix, e).objectName) !in faults
    ensures var (s', err) := Visit(s, faults, prefix, e);
      err.None? ==> KeyOf(prefix, e) in s'.objects && s'.objects[KeyOf(prefix, e)] == e.content
  {
    var path := ObjectPath(prefix, e.relPath);
    UploadStepEffect(s, faults, path);
    var (s1, w) := UploadStep(s, faults, path);
    if w.Success? {
      CloseStepEffect(s1, faults, w.value, e.content);
    }
  }

  /** Relative paths of the regular files are clean and pairwise distinct (as a walk
      produces them). */
  predicate DistinctFiles(es: seq<WalkEntry>)
  {
    && (forall i :: 0 <= i < |es| && !es[i].isDir ==> CleanRelPath(es[i].relPath))
    && forall i, j :: 0 <= i < j < |es| && !es[i].isDir && !es[j].isDir ==> es[i].relPath != es[j].relPath
  }

  /** After a walk that ends without error, every regular file is stored under its key
      with exactly its contents, unless the server refused that put. */
  lemma {:induction false} UploadTreeStoresFiles(s: Store, faults: set<ClientCall>, prefix: string, es: seq<WalkEntry>, k: nat)
    requires DistinctFiles(es) && k < |es| && !es[k].isDir
    decreases es
    requires PutObject(KeyOf(prefix, es[k]).bucket, KeyOf(prefix, es[k]).objectName) !in faults
    ensures var (s', err) := UploadTree(s, faults, prefix, es);
      err.None? ==> KeyOf(prefix, es[k]) in s'.objects && s'.objects[KeyOf(prefix, es[k])] == es[k].content
  {
    var (s1, err) := Visit(s, faults, prefix, es[0]);
    if err.None? {
      if k == 0 {
        VisitStores(s, faults, prefix, es[0]);
        assert !IsFileKey(prefix, es[1..], KeyOf(prefix, es[0])) by {
          if IsFileKey(prefix, es[1..], KeyOf(prefix, es[0])) {
            var j :| 0 <= j < |es[1..]| && !es[1..][j].isDir && KeyOf(prefix, es[1..][j]) == KeyOf(prefix, es[0]);
            assert es[j + 1] == es[1..][j];
            ObjectPathsDistinct(prefix, es[0], es[j + 1]);
          }
        }
        UploadTreeFrame(s1, faults, prefix, es[1..], KeyOf(prefix, es[0]));
      } else {
        assert es[1..][k - 1] == es[k];
        UploadTreeStoresFiles(s1, faults, prefix, es[1..], k - 1);
      }
    }
  }

  /** The PutObject requests in a call log, in order. */
  function Puts(cs: seq<ClientCall>): seq<ClientCall>
    decreases |cs|
  {
    if cs == [] then [] else (if cs[0].PutObject? then [cs[0]] else []) + Puts(cs[1..])
  }

  lemma {:induction false} PutsAppend(a: seq<ClientCall>, b: seq<ClientCall>)
    decreases |a|
    ensures Puts(a + b) == Puts(a) + Puts(b)
  {
    if a == [] {
      assert a + b == b;
    } else {
      assert (a + b)[0] == a[0] && (a + b)[1..] == a[1..] + b;
      PutsAppend(a[1..], b);
    }
  }

  /** The PutObject request for an object key. */
  function PutOf(key: ObjectKey): ClientCall
  {
    PutObject(key.bucket, key.objectName)
  }

  /** One PutObject per regular file of `es`, for its key, in walk order; none for a
      directory. */
  function FilePuts(prefix: string, es: seq<WalkEntry>): seq<ClientCall>
    decreases |es|
  {
    if es == [] then []
    else (if es[0].isDir then [] else [PutOf(KeyOf(prefix, es[0]))]) + FilePuts(prefix, es[1..])
  }

  /** createBucketIfNotExists sends no PutObject and only appends to the call log. */
  lemma BucketStepNoPuts(s: Store, faults: set<ClientCall>, bucket: string)
    ensures var s' := BucketStep(s, faults, bucket).0;
      |s.calls| <= |s'.calls| && s'.calls[..|s.calls|] == s.calls && Puts(s'.calls[|s.calls|..]) == []
  {
    var s' := BucketStep(s, faults, bucket).0;
    var c, m := BucketExists(bucket), MakeBucket(bucket);
    if c !in faults && bucket !in s.buckets {
      assert s'.calls[|s.calls|..] == [c, m] && [c, m][1..] == [m] && [m][1..] == [];
      assert Puts([m]) == [];
    } else {
      assert s'.calls[|s.calls|..] == [c] && [c][1..] == [];
    }
  }

  /** A regular file's callback that reports no error ends with the PutObject of its key,
      sent after the bucket step. */
  lemma VisitFileCalls(s: Store, faults: set<ClientCall>, prefix: string, e: WalkEntry)
    requires !e.isDir
    ensures var (s', err) := Visit(s, faults, prefix, e);
      err.None? ==> s'.calls == BucketStep(s, faults, KeyOf(prefix, e).bucket).0.calls + [PutOf(KeyOf(prefix, e))]
  {
    var path := ObjectPath(prefix, e.relPath);
    UploadStepEffect(s, faults, path);
  }

  /** A callback that reports no error sends exactly one PutObject, for the entry's own
      key, when the entry is a regular file, and none for a directory; either way it only
      appends to the call log. */
  lemma VisitPuts(s: Store, faults: set<ClientCall>, prefix: string, e: WalkEntry)
    ensures var (s', err) := Visit(s, faults, prefix, e);
      && |s.calls| <= |s'.calls| && s'.calls[..|s.calls|] == s.calls
      && (err.None? ==> Puts(s'.calls[|s.calls|..]) == (if e.isDir then [] else [PutOf(KeyOf(prefix, e))]))
  {
    VisitPrefix(s, faults, prefix, e);
    var (s', err) := Visit(s, faults, prefix, e);
    if err.None? {
      if e.isDir {
        assert s'.calls[|s.calls|..] == [];
      } else {
        var key := KeyOf(prefix, e);
        VisitFileCalls(s, faults, prefix, e);
        BucketStepNoPuts(s, faults, key.bucket);
        var s1 := BucketStep(s, faults, key.bucket).0;
        assert s'.calls[|s.calls|..] == s1.calls[|s.calls|..] + [PutOf(key)];
        PutsAppend(s1.calls[|s.calls|..], [PutOf(key)]);
        assert [PutOf(key)][1..] == [];
      }
    }
  }

  /** A walk that ends without error sends exactly one PutObject per regular file, for
      that file's key, in walk order, and none for directories. */
  lemma {:induction false} UploadTreePuts(s: Store, faults: set<ClientCall>, prefix: string, es: seq<WalkEntry>)
    decreases es
    ensures var (s', err) := UploadTree(s, faults, prefix, es);
      |s.calls| <= |s'.calls| && (err.None? ==> Puts(s'.calls[|s.calls|..]) == FilePuts(prefix, es))
  {
    UploadTreePrefix(s, faults, prefix, es);
    if es != [] {
      VisitPuts(s, faults, prefix, es[0]);
      var (s1, err1) := Visit(s, faults, prefix, es[0]);
      if err1.None? {
        UploadTreePuts(s1, faults, prefix, es[1..]);
        UploadTreePrefix(s1, faults, prefix, es[1..]);
        var s' := UploadTree(s1, faults, prefix, es[1..]).0;
        assert s'.calls[|s.calls|..] == s1.calls[|s.calls|..] + s'.calls[|s1.calls|..];
        PutsAppend(s1.calls[|s.calls|..], s'.calls[|s1.calls|..]);
      }
    }
  }

  // ---------------------------------------------------------------------------
  // Properties of Execute
  // ---------------------------------------------------------------------------

  /** Inside the temporary directory Execute creates the output directory and then runs
      Process at most once, in that order. */
  lemma InTempDirEvents(vt: VideoTask, env: Environment, tempDir: string, videoId: string, processId: string, process: Processor,
                        s: Store, faults: set<ClientCall>, endpoint: string)
    ensures var o := InTempDir(vt, env, tempDir, videoId, processId, process, s, faults, endpoint);
      && |o.events| <= 2
      && (|o.events| >= 1 ==> o.events[0] == OutputDirCreated(PathJoin(tempDir, OutputSubdir)))
      && (|o.events| == 2 ==> o.events[1].Processed?)
  {
  }

  /** Once the temporary directory exists, it is removed on every return path, and removed
      last; without it nothing happens at all. */
  lemma ExecuteRemovesTempDir(vt: VideoTask, env: Environment, process: Processor, s: Store, faults: set<ClientCall>, endpoint: string)
    ensures var o := ExecuteSpec(vt, env, process, s, faults, endpoint);
      && (env.tempDir.None? ==> o == ExecOutcome(s, [], "", Some(TempDirFailed)))
      && (env.tempDir.Some? ==>
            && |o.events| >= 2
            && o.events[0] == TempDirCreated(env.tempDir.value)
            && o.events[|o.events| - 1] == TempDirRemoved(env.tempDir.value)
            && forall k :: 0 < k < |o.events| - 1 ==> o.events[k].OutputDirCreated? || o.events[k].Processed?)
  {
    if env.tempDir.Some? {
      InTempDirEvents(vt, env, env.tempDir.value, UuidString(vt.videoId), UuidString(env.processId), process, s, faults, endpoint);
    }
  }

  /** `a/b` for single segments `a` and `b` is a bucket and an object. */
  lemma SegmentsOfPair(a: string, b: string)
    requires '/' !in a && '/' !in b
    ensures IsBucketAndObject(a + "/" + b)
    ensures ParsePath(a + "/" + b) == Success(ObjectKey(a, b))
  {
    ParsePathOf(a, b);
    BucketAndObjectIffParsedFlat(a + "/" + b);
  }

  /** The source is presigned as `videos/<videoID>`, a path the two-segment check accepts,
      naming object `<videoID>` in bucket `videos`; a UUID's string form is such a
      segment. */
  lemma SourcePathShape(videoId: string)
    requires '/' !in videoId
    ensures SourcePath(videoId) == "videos/" + videoId
    ensures IsBucketAndObject(SourcePath(videoId))
    ensures ParsePath(SourcePath(videoId)) == Success(ObjectKey(BucketName, videoId))
  {
    SegmentsOfPair(BucketName, videoId);
  }

  /** Visiting an entry only appends to the call log. */
  lemma VisitPrefix(s: Store, faults: set<ClientCall>, prefix: string, e: WalkEntry)
    ensures var s' := Visit(s, faults, prefix, e).0;
      |s.calls| <= |s'.calls| && s'.calls[..|s.calls|] == s.calls
  {
    if !e.statFails && !e.isDir {
      var path := ObjectPath(prefix, e.relPath);
      UploadStepEffect(s, faults, path);
      if '/' in path {
        BucketStepEffect(s, faults, ParsePath(path).value.bucket);
      }
    }
  }

  /** The walk only appends to the call log. */
  lemma {:induction false} UploadTreePrefix(s: Store, faults: set<ClientCall>, prefix: string, es: seq<WalkEntry>)
    decreases es
    ensures var s' := UploadTree(s, faults, prefix, es).0;
      |s.calls| <= |s'.calls| && s'.calls[..|s.calls|] == s.calls
  {
    if es != [] {
      VisitPrefix(s, faults, prefix, es[0]);
      var (s1, err) := Visit(s, faults, prefix, es[0]);
      if err.None? {
        UploadTreePrefix(s1, faults, prefix, es[1..]);
      }
    }
  }

  lemma PresignStepPrefix(s: Store, faults: set<ClientCall>, endpoint: string, path: string)
    ensures var s' := PresignStep(s, faults, endpoint, path).0;
      |s.calls| <= |s'.calls| && s'.calls[..|s.calls|] == s.calls
  {
  }

  /** Presigning the source is the first request sent to the storage. */
  lemma SourceLinkFirst(vt: VideoTask, env: Environment, tempDir: string, videoId: string, processId: string, process: Processor,
                        s: Store, faults: set<ClientCall>, endpoint: string)
    requires '/' !in videoId && !env.mkdirFails
    ensures var calls := InTempDir(vt, env, tempDir, videoId, processId, process, s, faults, endpoint).store.calls;
      |calls| > |s.calls| && calls[..|s.calls| + 1] == s.calls + [PresignGet(BucketName, videoId)]
  {
    SourcePathShape(videoId);
    ReadStepsCheckPath(s, faults, endpoint, SourcePath(videoId));
    var (s1, link) := PresignStep(s, faults, endpoint, SourcePath(videoId));
    if link.Success? && process(vt, link.value, PathJoin(tempDir, OutputSubdir)).err.None? {
      UploadTreePrefix(s1, faults, UploadPrefix(processId), env.tree);
      var s2 := UploadTree(s1, faults, UploadPrefix(processId), env.tree).0;
      PresignStepPrefix(s2, faults, endpoint, PlaylistPath(processId));
    }
  }

  /** Steps run in order and the first failure ends Execute: a failed source link means
      no processing and no further request; Process runs on the source link and the
      output directory, and when it fails nothing is uploaded; a failed upload walk is
      reported as Execute's error before the playlist is presigned; the returned link is
      empty whenever there is an error. */
  lemma StepsStopAtFirstFailure(vt: VideoTask, env: Environment, tempDir: string, videoId: string, processId: string, process: Processor,
                                s: Store, faults: set<ClientCall>, endpoint: string)
    ensures var o := InTempDir(vt, env, tempDir, videoId, processId, process, s, faults, endpoint);
      var outDir := PathJoin(tempDir, OutputSubdir);
      var (s1, link) := PresignStep(s, faults, endpoint, SourcePath(videoId));
      && (o.err.Some? ==> o.url == "")
      && (env.mkdirFails ==> o.store == s && o.err == Some(OutputDirFailed))
      && (!env.mkdirFails && link.Failure? ==>
            o.store == s1 && o.err == Some(SourceLinkFailed(link.error)) && |o.events| == 1)
      && (!env.mkdirFails && link.Success? ==>
            && o.events[1] == Processed(link.value, outDir, process(vt, link.value, outDir))
            && (process(vt, link.value, outDir).err.Some? ==>
                  o.store == s1 && o.err == Some(ProcessFailed(process(vt, link.value, outDir).err.value)))
            && (process(vt, link.value, outDir).err.None? ==>
                  var (s2, werr) := UploadTree(s1, faults, UploadPrefix(processId), env.tree);
                  werr.Some? ==> o.store == s2 && o.err == Some(UploadFailed(werr.value))))
  {
  }

  /** `a/b/c` for single segments has three segments. */
  lemma SegmentsOfTriple(a: string, b: string, c: string)
    requires '/' !in a && '/' !in b && '/' !in c
    ensures Count(a + "/" + b + "/" + c, '/') == 2
  {
    CountZero(a, '/');
    CountZero(b, '/');
    CountZero(c, '/');
    assert Count("/", '/') == 1;
    CountAppend(a, "/", '/');
    CountAppend(a + "/", b, '/');
    CountAppend(a + "/" + b, "/", '/');
    CountAppend(a + "/" + b + "/", c, '/');
  }

  /** The playlist path `videos/<processID>/master.m3u8` has three segments. */
  lemma PlaylistPathSegments(processId: string)
    requires '/' !in processId
    ensures !IsBucketAndObject(PlaylistPath(processId))
  {
    assert '/' !in BucketName && '/' !in MasterPlaylistName;
    SegmentsOfTriple(BucketName, processId, MasterPlaylistName);
  }

  /** With a single-segment process ID, the steps never succeed against the MinIO
      adapter: the playlist path has three segments, which GetPresignedURL refuses
      before asking the server. */
  lemma StepsNeverSucceed(vt: VideoTask, env: Environment, tempDir: string, videoId: string, processId: string, process: Processor,
                          s: Store, faults: set<ClientCall>, endpoint: string)
    requires '/' !in processId
    ensures var o := InTempDir(vt, env, tempDir, videoId, processId, process, s, faults, endpoint);
      o.err.Some? && o.url == ""
  {
    PlaylistPathSegments(processId);
    if !env.mkdirFails {
      var (s1, link) := PresignStep(s, faults, endpoint, SourcePath(videoId));
      if link.Success? && process(vt, link.value, PathJoin(tempDir, OutputSubdir)).err.None? {
        var s2 := UploadTree(s1, faults, UploadPrefix(processId), env.tree).0;
        ReadStepsCheckPath(s2, faults, endpoint, PlaylistPath(processId));
      }
    }
  }

  /** Execute never succeeds with the MinIO adapter, whatever the processor, the storage
      and the environment do; its first request is the presign of `videos/<videoID>`. */
  lemma ExecuteNeverSucceeds(vt: VideoTask, env: Environment, process: Processor, s: Store, faults: set<ClientCall>, endpoint: string)
    ensures ExecuteSpec(vt, env, process, s, faults, endpoint).err.Some?
    ensures ExecuteSpec(vt, env, process, s, faults, endpoint).url == ""
    ensures env.tempDir.Some? && !env.mkdirFails ==>
      var calls := ExecuteSpec(vt, env, process, s, faults, endpoint).store.calls;
      |calls| > |s.calls| && calls[..|s.calls| + 1] == s.calls + [PresignGet(BucketName, UuidString(vt.videoId))]
  {
    UuidStringShape(vt.videoId);
    UuidStringShape(env.processId);
    if env.tempDir.Some? {
      var videoId, processId := UuidString(vt.videoId), UuidString(env.processId);
      StepsNeverSucceed(vt, env, env.tempDir.value, videoId, processId, process, s, faults, endpoint);
      if !env.mkdirFails {
        SourceLinkFirst(vt, env, env.tempDir.value, videoId, processId, process, s, faults, endpoint);
      }
    }
  }

  // ---------------------------------------------------------------------------
  // The service
  // ---------------------------------------------------------------------------

  class VideoService {
    const storage: MinioStorage
    /** The embedded `task.Processer`. */
    const processer: Processor
    var events: seq<ServiceEvent>

    /** NewVideoService. */
    constructor (storage: MinioStorage, processer: Processor)
      ensures this.storage == storage && this.processer == processer && events == []
    {
      this.storage := storage;
      this.processer := processer;
      events := [];
    }

    /** The walk callback for one entry. */
    method VisitEntry(prefix: string, e: WalkEntry) returns (err: Option<WalkError>)
      modifies storage
      ensures (storage.State(), err) == Visit(old(storage.State()), storage.faults, prefix, e)
    {
      if e.statFails {
        return Some(StatFailed(e.relPath));
      }
      if e.isDir {
        return None;
      }
      var objectPath := ObjectPath(prefix, e.relPath);
      var w := storage.Upload(objectPath);
      if w.Failure? {
        return Some(UploadRefused(objectPath, w.error));
      }
      if e.openFails {
        storage.Close(w.value, []);
        return Some(OpenFailed(e.relPath));
      }
      if CopyFails(e) {
        storage.Close(w.value, Copied(e));
        return Some(CopyFailed(e.relPath));
      }
      storage.Close(w.value, e.content);
      return None;
    }

    /** uploadAllFilesInDir: walk the tree, uploading every regular file under `prefix`. */
    method UploadAllFilesInDir(prefix: string, tree: seq<WalkEntry>) returns (err: Option<WalkError>)
      modifies storage
      ensures (storage.State(), err) == UploadTree(old(storage.State()), storage.faults, prefix, tree)
    {
      var i := 0;
      while i < |tree|
        invariant 0 <= i <= |tree|
        invariant UploadTree(old(storage.State()), storage.faults, prefix, tree)
               == UploadTree(storage.State(), storage.faults, prefix, tree[i..])
      {
        assert tree[i..][0] == tree[i] && tree[i..][1..] == tree[i + 1..];
        err := VisitEntry(prefix, tree[i]);
        if err.Some? {
          return;
        }
        i := i + 1;
      }
      return None;
    }

    /** Execute from the creation of the output directory to the final link. */
    method ExecuteInTempDir(vt: VideoTask, env: Environment, tempDir: string)
      returns (url: string, err: Option<ServiceError>)
      modifies this, storage
      ensures var o := InTempDir(vt, env, tempDir, UuidString(vt.videoId), UuidString(env.processId), processer,
                                 old(storage.State()), storage.faults, storage.endpoint);
        storage.State() == o.store && events == old(events) + o.events && url == o.url && err == o.err
    {
      var localOutputPath := PathJoin(tempDir, OutputSubdir);
      if env.mkdirFails {
        return "", Some(OutputDirFailed);
      }
      events := events + [OutputDirCreated(localOutputPath)];
      var downloadPath := PathJoin(BucketName, UuidString(vt.videoId));
      var link := storage.GetPresignedURL(downloadPath);
      if link.Failure? {
        return "", Some(SourceLinkFailed(link.error));
      }
      var run := processer(vt, link.value, localOutputPath);
      events := events + [Processed(link.value, localOutputPath, run)];
      if run.err.Some? {
        return "", Some(ProcessFailed(run.err.value));
      }
      var processId := UuidString(env.processId);
      var uploadPrefix := BucketName + "/" + processId;
      var werr := UploadAllFilesInDir(uploadPrefix, env.tree);
      if werr.Some? {
        return "", Some(UploadFailed(werr.value));
      }
      var playlist := storage.GetPresignedURL(uploadPrefix + "/" + MasterPlaylistName);
      if playlist.Failure? {
        return "", Some(PlaylistLinkFailed(playlist.error));
      }
      return playlist.value, None;
    }

    /** Execute: the temporary directory is created first and removed on every path after
        that (the deferred `os.RemoveAll`). */
    method Execute(vt: VideoTask, env: Environment) returns (url: string, err: Option<ServiceError>)
      modifies this, storage
      ensures var o := ExecuteSpec(vt, env, processer, old(storage.State()), storage.faults, storage.endpoint);
        storage.State() == o.store && events == old(events) + o.events && url == o.url && err == o.err
    {
      if env.tempDir.None? {
        return "", Some(TempDirFailed);
      }
      var taskTempDir := env.tempDir.value;
      events := events + [TempDirCreated(taskTempDir)];
      url, err := ExecuteInTempDir(vt, env, taskTempDir);
      events := events + [TempDirRemoved(taskTempDir)];
    }
  }
}
