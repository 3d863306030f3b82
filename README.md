# VideoProcessor in Dafny

A model of the task pipeline of VideoHosting-Platform/VideoProcessor. The pipeline is a worker that:

1. takes a `VideoTask` message from RabbitMQ;
2. presigns the source video in MinIO;
3. has ffprobe measure the video and plans a bitrate ladder from the measurements;
4. runs one multi-output ffmpeg command that writes an HLS master playlist, one variant playlist per rendition and the segments;
5. uploads the produced tree under `videos/<processID>`;
6. acknowledges the message and publishes a `DBUpload` completion event.

The model has seven modules, one per source file plus three shared ones.

| module | file | models |
|---|---|---|
| `Wrappers` | `wrappers.dfy` | `Option` and `Result` |
| `GoStrings` | `go_strings.dfy` | the Go library behaviour the core relies on: `strings.Split`, `strings.Join`, `%d`, `strconv.Atoi` with 64-bit `int`, and `filepath.Join` on clean paths |
| `TaskModel` | `task_model.dfy` | the messages (`VideoTask`, `DBUpload`) and the 8-4-4-4-12 string form of a UUID |
| `Processer` | `processer.dfy` | `internal/app/task/processer.go` |
| `Storage` | `minio.dfy` | `internal/app/storage/minio.go` |
| `Services` | `video_service.dfy` | `internal/app/services/videoService.go` |
| `Queue` | `rabbit.dfy` | the `Run` loop of `internal/app/queue/rabbit.go` |

**How code that changes state is modelled.** Each such unit is a specification function plus an imperative member proved equal to it. The properties are then proved as lemmas about the function.

- **Processer.** The source's loops are the methods `GetVideoMetadata`, `AutoConfig` (with its base-rate step `PlanBaseRate`, proved equal to `BaseRate`), `GenerateHls`, `BuildFilterComplex`, `BuildMapLabels`, `AddRenditionArgs` and `BuildVarStreamEntries`. Each is proved equal to a function: `ExtractMetadata`, `Ladder`, `RunHls`, `FilterComplex`, `MapLabels`, `RenditionArgs` and `VarStreamEntries`.
- **Storage.** The MinIO adapter is the class `MinioStorage`. Its state is the server as the adapter sees it: the buckets, the objects and the log of client requests. Each method is proved equal to a step function on `Store`.
- **Services.** `VideoService` holds the storage and its embedded `task.Processer`, which is a function value. `Execute` and `uploadAllFilesInDir` are proved equal to `ExecuteSpec` and `UploadTree`.
- **Queue.** `RabbitConsumer.Run` is a loop over the deliveries. It is proved to produce `RunTrace`, the sequence of calls the loop makes on the handler and the broker.

**The outside world is an input.** Each piece becomes data or a parameter:

| outside piece | how the model receives it |
|---|---|
| ffprobe's decoded output | a `ProbeOutcome` |
| whether ffmpeg fails | a flag |
| the directory `os.MkdirTemp` returns, or its failure | a field of `Environment` |
| the `uuid.New` value | a field of `Environment` |
| the entries `filepath.Walk` visits | a field of `Environment` |
| client requests the MinIO server refuses | a set `faults`, one per step function call and fixed for the lifetime of a `MinioStorage` |
| the result of each message | fields of its `Delivery`: what it decodes to, the handler's answer, whether the publish fails |

**Execute can never succeed.** `Services.ExecuteNeverSucceeds` proves this holds with the MinIO adapter whatever the environment does. `Execute` ends by presigning `videos/<processID>/master.m3u8`, a path of three segments. `GetPresignedURL` refuses any path that does not split into exactly two segments. The model follows the code, so every task ends in an error and every published `DBUpload` carries an empty URL. The processing and the upload still happen before that last step.

**Behaviour as written.** In these places the model follows the code, although a reader might expect otherwise:

- The process ID is generated after processing, not before.
- The consumer calls the handler even when the message failed to decode.
- The consumer acknowledges every message; there is no reject path.
- The consumer publishes a completion event for failed tasks too.
- `Execute` returns a presigned link, not the bare object path.
- An error from the background `PutObject` is only logged; it never reaches the caller of `Upload` or `Close`.

## Model

| member | source | states |
|---|---|---|
| `TaskModel.UuidStringShape` | internal/app/services/videoService.go:50 | The string form of a UUID has 36 characters: hex digits with dashes at positions 8, 13, 18 and 23. So it never contains `/` and is a single path segment. |
| `GoStrings.Split` | internal/app/storage/minio.go:122 | `strings.Split` on one character yields one more piece than there are separators, and no piece contains the separator. |
| `GoStrings.JoinSplit` | internal/app/storage/minio.go:122-127 | Joining the pieces of a split with the same separator gives back the string. Hence parsePath's object name is exactly what follows the first `/`. |
| `GoStrings.SplitJoin` | internal/app/storage/minio.go:85-91 | Splitting a join of separator-free pieces gives back the pieces. |
| `GoStrings.Atoi` | internal/app/task/processer.go:152-160 | `strconv.Atoi` fails on the empty string and on a string whose first character is not a sign or a digit. Any value it returns fits in 64 bits. |
| `GoStrings.AtoiIntToString` | internal/app/task/processer.go:270 | `strconv.Atoi` inverts `%d` on every 64-bit integer. |
| `Processer.FirstVideoStream` | internal/app/task/processer.go:123-135 | The search returns the first stream whose codec type is `video`: no earlier stream is a video stream. No result means no stream is a video stream. |
| `Processer.GetVideoMetadata` | internal/app/task/processer.go:103-167 | The stream search and bitrate parsing compute `ExtractMetadata` of the probe outcome. |
| `Processer.MetadataRules` | internal/app/task/processer.go:116-166 | The cases for a decoded probe. Without a video stream it is an error, and in both directions. Otherwise the first video stream supplies width and height. The container bitrate is preferred over the stream's. Two empty bitrates give 0 with no error. A non-numeric bitrate is an error, in both directions. Otherwise the bitrate is the number divided by 1000. |
| `Processer.MetadataProbeFailures` | internal/app/task/processer.go:105-114 | A failed ffprobe run and unparsable ffprobe output are distinct errors. |
| `Processer.TableHeights` | internal/app/task/processer.go:180-186 | The rendition table has four rows, all at least 360 lines high. |
| `Processer.PlanBaseRate` | internal/app/task/processer.go:172-176 | The pixel-count estimate, replaced by 90% of the source bitrate when it exceeds that bitrate, is `BaseRate(meta)`. |
| `Processer.AutoConfig` | internal/app/task/processer.go:169-202 | The base-rate step and the loop over the rendition table compute `Ladder(meta)`. |
| `Processer.LadderCases` | internal/app/task/processer.go:169-202 | The ladder by source height band: none below 360; 360p below 480; 480p and 360p below 720; three rungs below 1080; all four otherwise. Each rung has the rate the source computes. |
| `Processer.LadderMatchesTable` | internal/app/task/processer.go:180-199 | The ladder is a suffix of the table. It contains exactly the rows no taller than the source, with their names, widths and heights, and each rate is `RungRate` of the base rate. |
| `Processer.LadderNoUpscale` | internal/app/task/processer.go:187-189 | No rung is taller than the source. |
| `Processer.LadderOrdered` | internal/app/task/processer.go:185-199 | Rungs are in strictly decreasing height with distinct names. |
| `Processer.LadderEmptyIffShort` | internal/app/task/processer.go:185-189 | The ladder is empty exactly when the source is under 360 lines. |
| `Processer.LadderFor400Lines` | internal/app/task/processer.go:185-199 | A 400-line source gets exactly one rung, 360p at 640x360. |
| `Processer.RungRateCeiling` | internal/app/task/processer.go:190-193 | A rung's rate never exceeds `MaxBitrateKbps` (5000). |
| `Processer.LadderBitrateCeiling` | internal/app/task/processer.go:190-198 | Every rung's bitrate is at most 5000 kbit/s. |
| `Processer.BaseRateWithinSource` | internal/app/task/processer.go:172-176 | The base rate never exceeds a non-negative source bitrate. |
| `Processer.RungRateWithin` | internal/app/task/processer.go:190-198 | A rung no taller than the source gets at most 80% of any non-negative bound on the base rate. |
| `Processer.LadderWithinSourceBitrate` | internal/app/task/processer.go:172-198 | For a non-negative source bitrate, every rung's bitrate is at most 80% of it. When the pixel estimate also exceeds the source bitrate, every rung's bitrate is at most 80% of 90% of it. |
| `Processer.RungRateMonotone` | internal/app/task/processer.go:190-198 | For a non-negative base rate, a taller rung never gets a smaller rate than a shorter one. |
| `Processer.LadderBitratesNonIncreasing` | internal/app/task/processer.go:185-199 | For a source with non-negative width and bitrate, bitrates do not increase down the ladder. |
| `Processer.LadderFor1080pAt8000` | internal/app/task/processer.go:169-202 | A 1920x1080 source at 8000 kbit/s gets 5000, 3840, 2560 and 1920 kbit/s. |
| `Processer.QualitiesChecked` | internal/app/task/processer.go:65-82 | A result is the non-empty ladder of the extracted metadata. The empty-ladder error happens exactly when the metadata is under 360 lines. A metadata error is passed on, wrapped. |
| `Processer.ProcessSteps` | internal/app/task/processer.go:46-61 | A ladder failure is returned before ffmpeg is invoked. Otherwise the HLS command for the ladder is invoked, and Process fails exactly when ffmpeg fails. Overall Process succeeds exactly when the metadata is readable, at least 360 lines high, and ffmpeg succeeds. |
| `Processer.BitrateTextRoundTrip` | internal/app/task/processer.go:268-270 | The `b:v:<i>` text is the decimal bitrate followed by `k`, and parsing it back gives the bitrate. |
| `Processer.KeyNamesDistinct` | internal/app/task/processer.go:251-288 | Distinct argument keys have distinct ffmpeg option names, so no assignment to the argument map overwrites another. |
| `Processer.GenerateHls` | internal/app/task/processer.go:207-305 | GenerateHls computes `RunHls`: an empty ladder is refused before ffmpeg runs; otherwise the HLS command is invoked and its failure is reported. |
| `Processer.BuildFilterComplex` | internal/app/task/processer.go:215-237 | The label loop and the format call build `FilterComplex(qualities)`. |
| `Processer.BuildMapLabels` | internal/app/task/processer.go:241-245 | The map-label loop builds `MapLabels(n)`. |
| `Processer.AddRenditionArgs` | internal/app/task/processer.go:262-280 | The per-rendition loop adds exactly `RenditionArgs` for every rung. |
| `Processer.BuildVarStreamEntries` | internal/app/task/processer.go:283-286 | The loop builds one `var_stream_map` entry per rung. |
| `Processer.HlsRefusesEmptyLadder` | internal/app/task/processer.go:210-213 | An empty ladder is an error and ffmpeg is not invoked. |
| `Processer.HlsArgKeys` | internal/app/task/processer.go:251-288 | The command's options are exactly the fixed ones plus four per rendition index below the ladder length. |
| `Processer.HlsRenditionArgs` | internal/app/task/processer.go:262-280 | Rendition `i` gets `libx264`, its own bitrate written as `<kbps>k`, `aac` and `128k`. |
| `Processer.HlsMapLabels` | internal/app/task/processer.go:241-253 | `map` holds 2n labels: first `[v<i>out]` for every rung, then `[a<i>]` for every rung. |
| `Processer.HlsOutputArgs` | internal/app/task/processer.go:290-298 | The input is the source link and the output is `<outputDir>/stream_%v.m3u8`. |
| `Processer.HlsSegmentArg` | internal/app/task/processer.go:256 | Segments are written to `<outputDir>/segment_%v_%d.ts`. |
| `Processer.HlsFormatArgs` | internal/app/task/processer.go:251-288 | The format is `hls` with 6-second segments, playlist type `vod`, and master playlist `master.m3u8`. |
| `Processer.HlsVarStreamMap` | internal/app/task/processer.go:283-287 | `var_stream_map` is the space-joined entries `v:<i>,a:<i>,name:<name>`, one per rung, in ladder order. |
| `Processer.HlsFilterArg` | internal/app/task/processer.go:230-252 | `filter_complex` is the filter graph of the ladder. |
| `Processer.HlsFilterGraph` | internal/app/task/processer.go:223-237 | Split on `;`, the filter graph has n+2 chains: the video split into n labels, then scale chain `i` for rung `i` in order, then the audio split. |
| `Storage.ParsePath` | internal/app/storage/minio.go:121-129 | Parsing fails exactly when the path has no `/`. Otherwise the bucket has no `/`, and bucket, `/` and object name make up the path. |
| `Storage.ParsePathOf` | internal/app/storage/minio.go:121-129 | A `/`-free bucket, a `/` and any object name parse back into that bucket and object name. |
| `Storage.BucketAndObjectIffParsedFlat` | internal/app/storage/minio.go:85-91 | Download's two-segment check passes exactly when parsePath succeeds with an object name containing no `/`. |
| `Storage.NestedPathOnlyUploadable` | internal/app/storage/minio.go:103-109 | A nested object path can be uploaded but neither downloaded nor presigned. |
| `Storage.BucketStepEffect` | internal/app/storage/minio.go:131-142 | Success leaves the bucket present. Failure leaves the buckets as they were. At most that one bucket is added and objects stay unchanged. The existence check is the first request. `MakeBucket` is sent exactly when the check succeeded and the bucket was missing. |
| `Storage.BucketStepIdempotent` | internal/app/storage/minio.go:131-142 | After a successful call, a second call changes no bucket and sends no `MakeBucket`, whatever the server refuses the second time. If the server answers its existence check, the second call succeeds with that single request. With the same refusals both times, two calls leave the buckets of one. |
| `Storage.UploadStepEffect` | internal/app/storage/minio.go:48-61 | A path without `/` fails before any request. Otherwise the bucket is ensured first, and its failure is the upload's error. Success yields a writer for the parsed key, with the bucket present. |
| `Storage.CloseStepEffect` | internal/app/storage/minio.go:64-79 | Closing sends one `PutObject`. Unless the server refuses it, the object then holds the written bytes. No other object or bucket changes. |
| `Storage.ReadStepsCheckPath` | internal/app/storage/minio.go:82-119 | A path that is not exactly two segments is refused by Download and GetPresignedURL before any request. Otherwise one request is sent for the split bucket and object. An unrefused presign returns the link for that key. |
| `Storage.MinioStorage.constructor` | internal/app/storage/minio.go:40-46 | A new adapter starts from the given server state with no requests sent. |
| `Storage.MinioStorage.CreateBucketIfNotExists` | internal/app/storage/minio.go:131-142 | The method's new state and result are `BucketStep` of the old state. |
| `Storage.MinioStorage.Upload` | internal/app/storage/minio.go:48-80 | Upload's new state and writer are `UploadStep` of the old state. |
| `Storage.MinioStorage.Close` | internal/app/storage/minio.go:64-79 | Closing the writer is `CloseStep` of the old state. |
| `Storage.MinioStorage.Download` | internal/app/storage/minio.go:82-101 | Download's new state and result are `DownloadStep` of the old state. |
| `Storage.MinioStorage.GetPresignedURL` | internal/app/storage/minio.go:103-119 | The presign's new state and link are `PresignStep` of the old state. |
| `Services.ObjectPathsDistinct` | internal/app/services/videoService.go:94-99 | Every object path starts with the prefix and a `/`. Files with different clean relative paths (no empty, `.` or `..` segment) get different object keys. |
| `Services.KeyUnderPrefix` | internal/app/services/videoService.go:98-101 | Under `videos/<processID>` a file lands in bucket `videos` as object `<processID>/<relPath>`. |
| `Services.VisitSkipsDirectories` | internal/app/services/videoService.go:89-92 | A directory is skipped with no request and no error. |
| `Services.UploadTreeAppend` | internal/app/services/videoService.go:84-119 | Entries are visited in order and the first error ends the walk. |
| `Services.VisitFails` | internal/app/services/videoService.go:86-113 | A stat, open or copy failure is an error of the callback whatever the storage does. |
| `Services.UploadTreeAbortsAt` | internal/app/services/videoService.go:84-119 | At an entry whose stat, open or copy fails, the walk ends with an error and nothing after it is visited. |
| `Services.UploadTreeSuccess` | internal/app/services/videoService.go:84-119 | A walk that ends without error met no entry whose stat, open or copy failed. |
| `Services.VisitFrame` | internal/app/services/videoService.go:99-113 | Visiting an entry touches no object but its own and removes no bucket. |
| `Services.UploadTreeFrame` | internal/app/services/videoService.go:84-119 | The walk changes no object except those of its regular files. |
| `Services.VisitStores` | internal/app/services/videoService.go:101-113 | A file whose callback succeeds is stored with its full contents, unless the server refused the put. |
| `Services.UploadTreeStoresFiles` | internal/app/services/videoService.go:83-122 | After a walk without error, every regular file (with clean, distinct paths) is stored under its key with exactly its contents, unless the server refused that put. |
| `Services.VisitPuts` | internal/app/services/videoService.go:89-113 | A callback without error sends exactly one `PutObject`, for the file's key, for a regular file, and none for a directory. It only appends to the request log. |
| `Services.UploadTreePuts` | internal/app/services/videoService.go:83-122 | A walk without error sends exactly one `PutObject` per regular file, for that file's key, in walk order, and none for directories. |
| `Services.UploadTreePrefix` | internal/app/services/videoService.go:83-122 | The walk only appends to the request log. |
| `Services.VideoProcessorRuns` | internal/app/services/videoService.go:58 | The processor wired into the service succeeds exactly when the probe of the source link gives metadata at least 360 lines high and ffmpeg succeeds. |
| `Services.InTempDirEvents` | internal/app/services/videoService.go:42-61 | Inside the temporary directory Execute first creates the output directory and then runs Process at most once. |
| `Services.ExecuteRemovesTempDir` | internal/app/services/videoService.go:35-40 | Without a temporary directory nothing happens. With one, it is created first and removed last on every return path, and nothing outside it happens in between. |
| `Services.SourcePathShape` | internal/app/services/videoService.go:50-51 | The source is presigned as `videos/<videoID>`, a path of two segments that names object `<videoID>` in bucket `videos`. |
| `Services.SourceLinkFirst` | internal/app/services/videoService.go:50-54 | Once the output directory exists, the first storage request is the presign of the source. |
| `Services.StepsStopAtFirstFailure` | internal/app/services/videoService.go:42-79 | The first failure ends Execute with an empty link. A failed MkdirAll leaves storage untouched. A failed source presign means no processing. Process runs on the source link and the output directory, and when it fails nothing is uploaded. When the upload walk fails, its error is Execute's error and the playlist is not presigned. |
| `Services.PlaylistPathSegments` | internal/app/services/videoService.go:75-76 | `videos/<processID>/master.m3u8` is not a two-segment path. |
| `Services.StepsNeverSucceed` | internal/app/services/videoService.go:75-79 | With a one-segment process ID, the final presign is always refused, so the steps always end in an error with an empty link. |
| `Services.ExecuteNeverSucceeds` | internal/app/services/videoService.go:33-81 | Execute always returns an error and an empty link, whatever the processor, the storage and the environment do. When the output directory is made, its first storage request is the presign of `videos/<videoID>`. |
| `Services.VideoService.constructor` | internal/app/services/videoService.go:27-30 | NewVideoService keeps the given storage and processor and starts with no side effects. |
| `Services.VideoService.VisitEntry` | internal/app/services/videoService.go:84-116 | The callback's new storage state and error are `Visit` of the old state. |
| `Services.VideoService.UploadAllFilesInDir` | internal/app/services/videoService.go:83-122 | The walk's new storage state and error are `UploadTree` of the old state. |
| `Services.VideoService.ExecuteInTempDir` | internal/app/services/videoService.go:42-80 | The steps after MkdirTemp produce the storage state, side effects, link and error of `InTempDir`. |
| `Services.VideoService.Execute` | internal/app/services/videoService.go:33-81 | Execute produces the storage state, side effects, link and error of `ExecuteSpec` with the service's processor. |
| `Queue.RunTraceShape` | internal/app/queue/rabbit.go:162-191 | Messages are handled one at a time in delivery order. For each, the handler is called with the decoded task, then the message is acknowledged, then a `DBUpload` is published to the producer queue. The post copies the task's IDs and title and carries the handler's URL. |
| `Queue.EveryMessageAckedOnce` | internal/app/queue/rabbit.go:162-173 | The acknowledged tags are exactly the delivered tags, in order: each message is acknowledged once, whatever happened to it. |
| `Queue.EveryMessagePublished` | internal/app/queue/rabbit.go:175-190 | One completion event is published per message, in order, including for failed messages, each built from the message's task and its handler's URL. |
| `Queue.RunIgnoresFailures` | internal/app/queue/rabbit.go:164-190 | Decode, handler and publish failures do not change what the loop does. |
| `Queue.RabbitConsumer.constructor` | internal/app/queue/rabbit.go:75-78 | A new consumer keeps its queue names and has made no calls. |
| `Queue.RabbitConsumer.Run` | internal/app/queue/rabbit.go:154-194 | A consume-setup failure is returned before any message is handled. Otherwise Run makes exactly the calls of `RunTrace` and returns no error. |

## Left out

- ffprobe, ffmpeg, the filesystem, the clock and `uuid.New` are not run. What they answer is input data (`ProbeOutcome`, the ffmpeg failure flag, `Environment`).
- JSON decoding of ffprobe output and of messages is not modelled. The decoded structures are inputs. `json.Marshal` of a `DBUpload` cannot fail, so the post itself stands for its encoding.
- Logging (`log`, `slog`, `fmt.Printf`) is left out. It has no effect on behaviour.
- The presign signature and the expiry query string are left out. A presigned link is modelled as `http://<endpoint>/<bucket>/<object>`.
- The goroutine and `io.Pipe` behind Upload are modelled as a synchronous put when the writer closes. The interleaving with the writer and an error on the pipe's read side are not modelled. A `PutObject` failure is only logged, as in the source.
- io.Copy either copies all bytes or fails after a given count. Short writes are not modelled otherwise.
- `filepath.Rel` is taken never to fail: the walk hands relative paths directly. `filepath.Join` is modelled only on the clean paths the core passes it: it is not normalised, so `ObjectPath` of `a/../b` is not `b`.
- `Services.ObjectPathsDistinct`, `Services.UploadTreeStoresFiles`: stated only for clean relative paths (`CleanRelPath`: no empty, `.` or `..` segment), the form `filepath.Rel` gives for files below the walk root.
- `Processer.LadderWithinSourceBitrate`, `Processer.RungRateMonotone`, `Processer.LadderBitratesNonIncreasing`: negative widths and negative source bitrates are not covered. `strconv.Atoi` accepts a sign, so a bit rate of `-8000000` gives rungs whose bitrates rise down the ladder and exceed 80% of the (negative) source bitrate.
- `Storage.BucketStepIdempotent`: the class `MinioStorage` holds one fault set for its lifetime, so a request the server refuses once it refuses on every later call. A server that refuses a request on one call and accepts it on a later one is modelled only by the step functions, which take the fault set per call.
- `Processer.AutoConfig`, `Processer.Ladder`: Go's `int` overflow in `Width*Height*30` is not modelled. Integers are unbounded.
- `Processer.AutoConfig`, `Processer.Ladder`: `float64` arithmetic is modelled as exact real arithmetic, so rounding in the rate computation is not captured. `int(rate)` truncates toward zero as in Go.
- How ffmpeg-go renders the argument map into a command line, and in what order, is not modelled. The command is the input, the output pattern and the map of options.
- The `bucket` field of `MinioStorage` is kept but never read, which matches the source.
- The RabbitMQ connection, channel, queue declaration and publish plumbing are left out, and so is `failOnError`. A publish outcome is only logged, so the model records the attempted publish.
- The task handler of `Run` is abstract. Each delivery carries the URL and error its `Execute` returned. The connection to `VideoService.Execute` is stated separately as `Services.ExecuteNeverSucceeds`.
- `internal/app/services/service.go` is an earlier revision of the service and is not part of this model. Neither are `internal/app/processor/process.go` and the configuration and logger setup.
- `cmd/main.go` is not part of this model. It only wires the components together, and it takes two results from `NewMinioStorage`, which returns one.
