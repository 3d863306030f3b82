/** The transcoding step (`internal/app/task/processer.go`): probed metadata becomes a
    bitrate ladder, and the ladder becomes one multi-output ffmpeg invocation that writes
    an HLS master playlist plus one variant playlist per rendition.

    Each loop of processer.go is a method (`GetVideoMetadata`, `AutoConfig`,
    `GenerateHls`) proved equal to a specification function (`ExtractMetadata`, `Ladder`,
    `RunHls`); `CheckAndGenerateQualities` and `Process`, which only compose those steps
    with early returns, are functions over the specification functions. The external
    tools are abstract: the probe's decoded output is a `ProbeOutcome`, and whether the
    ffmpeg run fails is a flag. */
module Processer {
  import opened Wrappers
  import opened GoStrings
  import opened TaskModel

  const MaxBitrateKbps: int := 5000
  const AVC: string := "libx264"
  const AAC: string := "aac"
  const AudioBitrate: string := "128k"
  const MasterPlaylistName: string := "master.m3u8"
  const VariantPlaylistPattern: string := "stream_%v.m3u8"
  const SegmentPattern: string := "segment_%v_%d.ts"

  /** One rendition of the ladder. */
  datatype Quality = Quality(name: string, width: int, height: int, bitrateKbps: int)

  /** What the planner needs to know about the source; the bitrate is in kbit/s. */
  datatype VideoMetadata = VideoMetadata(width: int, height: int, sourceBitrate: real)

  /** The decoded ffprobe output: its streams and the container-level bitrate. Absent
      JSON fields decode to `0` and `""`. */
  datatype ProbeStream = ProbeStream(codecType: string, width: int, height: int, bitRate: string)
  datatype ProbeMetadata = ProbeMetadata(streams: seq<ProbeStream>, formatBitRate: string)

  /** Running ffprobe either fails, prints something that is not the expected JSON, or
      yields decoded metadata. */
  datatype ProbeOutcome = ProbeRunFailed | ProbeOutputInvalid | Probed(meta: ProbeMetadata)

  datatype MetadataError = ProbeFailed | ProbeJsonInvalid | NoVideoStream(videoUrl: string) | BadBitrate(raw: string)
  datatype QualityError = MetadataUnavailable(cause: MetadataError) | NoQualities(videoUrl: string)
  datatype HlsError = EmptyQualities | FfmpegFailed
  datatype ProcessError = QualitiesFailed(cause: QualityError) | HlsFailed(hlsCause: HlsError)

  // ---------------------------------------------------------------------------
  // Metadata extraction (getVideoMetadata after the probe)
  // ---------------------------------------------------------------------------

  /** Index of the first stream at or after `from` whose codec type is `"video"`. */
  function FirstVideoStream(streams: seq<ProbeStream>, from: nat): (r: Option<nat>)
    requires from <= |streams|
    ensures r.Some? ==> from <= r.value < |streams| && streams[r.value].codecType == "video"
    ensures r.Some? ==> forall k :: from <= k < r.value ==> streams[k].codecType != "video"
    ensures r.None? ==> forall k :: from <= k < |streams| ==> streams[k].codecType != "video"
    decreases |streams| - from
  {
    if from == |streams| then None
    else if streams[from].codecType == "video" then Some(from)
    else FirstVideoStream(streams, from + 1)
  }

  /** The metadata the planner gets from one probe of `videoUrl`. */
  function ExtractMetadata(videoUrl: string, probe: ProbeOutcome): Result<VideoMetadata, MetadataError>
  {
    match probe
    case ProbeRunFailed => Failure(ProbeFailed)
    case ProbeOutputInvalid => Failure(ProbeJsonInvalid)
    case Probed(p) =>
      match FirstVideoStream(p.streams, 0)
      case None => Failure(NoVideoStream(videoUrl))
      case Some(k) =>
        var s := p.streams[k];
        var raw := if p.formatBitRate == "" then s.bitRate else p.formatBitRate;
        if raw == "" then Success(VideoMetadata(s.width, s.height, 0.0))
        else
          match Atoi(raw)
          case None => Failure(BadBitrate(raw))
          case Some(n) => Success(VideoMetadata(s.width, s.height, n as real / 1000.0))
  }

  /** The linear search for the first video stream, with its `found` flag and `break`,
      followed by the bitrate fall-back and the decimal parse. */
  method GetVideoMetadata(videoUrl: string, probe: ProbeOutcome) returns (r: Result<VideoMetadata, MetadataError>)
    ensures r == ExtractMetadata(videoUrl, probe)
  {
    if probe.ProbeRunFailed? {
      return Failure(ProbeFailed);
    }
    if probe.ProbeOutputInvalid? {
      return Failure(ProbeJsonInvalid);
    }
    var meta := probe.meta;
    var width, height, bitRate := 0, 0, "";
    var found := false;
    var i := 0;
    while i < |meta.streams|
      invariant 0 <= i <= |meta.streams|
      invariant !found
      invariant forall k :: 0 <= k < i ==> meta.streams[k].codecType != "video"
    {
      var s := meta.streams[i];
      if s.codecType == "video" {
        width, height, bitRate := s.width, s.height, s.bitRate;
        found := true;
        break;
      }
      i := i + 1;
    }
    if !found {
      return Failure(NoVideoStream(videoUrl));
    }
    assert FirstVideoStream(meta.streams, 0) == Some(i);
    var rawBitrate := meta.formatBitRate;
    if rawBitrate == "" {
      rawBitrate := bitRate;
    }
    if rawBitrate == "" {
      return Success(VideoMetadata(width, height, 0.0));
    }
    var total := Atoi(rawBitrate);
    if total.None? {
      return Failure(BadBitrate(rawBitrate));
    }
    return Success(VideoMetadata(width, height, total.value as real / 1000.0));
  }

  /** The five rules of metadata extraction. */
  lemma MetadataRules(videoUrl: string, p: ProbeMetadata)
    ensures var r := ExtractMetadata(videoUrl, Probed(p));
      // no video stream is an error
      && (r == Failure(NoVideoStream(videoUrl)) <==> forall k :: 0 <= k < |p.streams| ==> p.streams[k].codecType != "video")
      // the first video stream supplies the dimensions
      && (r.Success? ==> exists k :: FirstVideoStream(p.streams, 0) == Some(k)
                          && r.value.width == p.streams[k].width && r.value.height == p.streams[k].height)
      // the container bitrate is preferred over the stream bitrate
      && (forall k, n :: FirstVideoStream(p.streams, 0) == Some(k) && p.formatBitRate != "" && Atoi(p.formatBitRate) == Some(n)
            ==> r.Success? && r.value.sourceBitrate == n as real / 1000.0)
      // both bitrates empty: zero with no error
      && (forall k :: FirstVideoStream(p.streams, 0) == Some(k) && p.formatBitRate == "" && p.streams[k].bitRate == ""
            ==> r == Success(VideoMetadata(p.streams[k].width, p.streams[k].height, 0.0)))
      // a non-numeric bitrate is an error; otherwise kbit/s is the number over 1000
      && (forall k :: FirstVideoStream(p.streams, 0) == Some(k) ==>
            var raw := if p.formatBitRate == "" then p.streams[k].bitRate else p.formatBitRate;
            raw != "" ==> (Atoi(raw).None? <==> r == Failure(BadBitrate(raw)))
                          && (Atoi(raw).Some? ==> r.Success? && r.value.sourceBitrate == Atoi(raw).value as real / 1000.0))
  {
    var first := FirstVideoStream(p.streams, 0);
    if first.Some? {
      assert p.streams[first.value].codecType == "video";
    }
  }

  /** Probe failures are reported as errors of their own. */
  lemma MetadataProbeFailures(videoUrl: string)
    ensures ExtractMetadata(videoUrl, ProbeRunFailed) == Failure(ProbeFailed)
    ensures ExtractMetadata(videoUrl, ProbeOutputInvalid) == Failure(ProbeJsonInvalid)
  {
  }

  // ---------------------------------------------------------------------------
  // Bitrate ladder (autoConfig)
  // ---------------------------------------------------------------------------

  /** A rung of the fixed resolution table. */
  datatype Rendition = Rendition(width: int, height: int, name: string)

  const Renditions: seq<Rendition> :=
    [Rendition(1920, 1080, "1080p"), Rendition(1280, 720, "720p"), Rendition(854, 480, "480p"), Rendition(640, 360, "360p")]

  /** The table has four rungs, all at least 360 lines tall. */
  lemma TableHeights()
    ensures |Renditions| == 4
    ensures forall i :: 0 <= i < |Renditions| ==> Renditions[i].height >= 360
  {
  }

  /** Go's `int(x)` on a float: truncation toward zero. */
  function Trunc(x: real): int
  {
    if x >= 0.0 then x.Floor else -((-x).Floor)
  }

  /** The rate for the top rung: `W*H*30*0.2/1000` kbit/s, replaced by 90% of the
      source bitrate when it exceeds the source bitrate. */
  function BaseRate(meta: VideoMetadata): real
  {
    var target := ((meta.width * meta.height * 30) as real * 0.2) / 1000.0;
    if target > meta.sourceBitrate then meta.sourceBitrate * 0.9 else target
  }

  /** The rate of a rung of height `h`: the base scaled by `h/maxH`, times 0.8, clamped
      to the ceiling and truncated. */
  function RungRate(base: real, h: int, maxH: int): int
    requires maxH > 0
  {
    Trunc(Clamp(ScaledRate(base, h, maxH)))
  }

  /** The base scaled by `h/maxH`, times 0.8. */
  function ScaledRate(base: real, h: int, maxH: int): real
    requires maxH > 0
  {
    base * (h as real / maxH as real) * 0.8
  }

  /** The 5000 kbit/s ceiling. */
  function Clamp(rate: real): real
  {
    if rate > MaxBitrateKbps as real then MaxBitrateKbps as real else rate
  }

  function QualityFor(r: Rendition, base: real, maxH: int): Quality
    requires maxH > 0
  {
    Quality(r.name, r.width, r.height, RungRate(base, r.height, maxH))
  }

  /** The rungs of `rungs` no taller than `maxH`, in table order. */
  function LadderOf(rungs: seq<Rendition>, base: real, maxH: int): seq<Quality>
    requires forall i :: 0 <= i < |rungs| ==> rungs[i].height > 0
  {
    if rungs == [] then []
    else
      var rest := LadderOf(rungs[1..], base, maxH);
      if rungs[0].height > maxH then rest else [QualityFor(rungs[0], base, maxH)] + rest
  }

  /** One step of `LadderOf`: the first rung's contribution, then the rest. */
  lemma LadderOfStep(rungs: seq<Rendition>, base: real, maxH: int)
    requires |rungs| > 0 && forall i :: 0 <= i < |rungs| ==> rungs[i].height > 0
    ensures LadderOf(rungs, base, maxH) ==
      (if rungs[0].height > maxH then [] else [QualityFor(rungs[0], base, maxH)]) + LadderOf(rungs[1..], base, maxH)
  {
  }

  /** The ladder planned for a source. */
  function Ladder(meta: VideoMetadata): seq<Quality>
  {
    LadderOf(Renditions, BaseRate(meta), meta.height)
  }

  /** The first step of autoConfig: the pixel-count estimate, capped at 90% of the
      measured source bitrate when it exceeds it. Kept apart from the rendition loop so
      that the real arithmetic of this step does not enter that loop's proof. */
  method PlanBaseRate(meta: VideoMetadata) returns (baseRate: real)
    ensures baseRate == BaseRate(meta)
  {
    baseRate := ((meta.width * meta.height * 30) as real * 0.2) / 1000.0;
    if baseRate > meta.sourceBitrate {
      baseRate := meta.sourceBitrate * 0.9;
    }
  }

  /** autoConfig: append one profile per table rung that does not exceed the source height. */
  method AutoConfig(meta: VideoMetadata) returns (profiles: seq<Quality>)
    ensures profiles == Ladder(meta)
  {
    var maxHeightVideo := meta.height;
    var baseRate := PlanBaseRate(meta);
    TableHeights();
    profiles := [];
    for i := 0 to |Renditions|
      invariant profiles + LadderOf(Renditions[i..], baseRate, maxHeightVideo) == Ladder(meta)
    {
      var res := Renditions[i];
      LadderOfStep(Renditions[i..], baseRate, maxHeightVideo);
      assert Renditions[i..][1..] == Renditions[i + 1..];
      if res.height > maxHeightVideo {
        continue;
      }
      var rate := ScaledRate(baseRate, res.height, maxHeightVideo);
      if rate > MaxBitrateKbps as real {
        rate := MaxBitrateKbps as real;
      }
      assert Quality(res.name, res.width, res.height, Trunc(rate)) == QualityFor(res, baseRate, maxHeightVideo) by {
        assert rate == Clamp(ScaledRate(baseRate, res.height, maxHeightVideo));
      }
      profiles := profiles + [Quality(res.name, res.width, res.height, Trunc(rate))];
    }
  }

  /** The ladder for every source height, rung by rung. */
  lemma LadderCases(meta: VideoMetadata)
    ensures var base, h := BaseRate(meta), meta.height;
      Ladder(meta) ==
        if h < 360 then []
        else if h < 480 then [QualityFor(Renditions[3], base, h)]
        else if h < 720 then [QualityFor(Renditions[2], base, h), QualityFor(Renditions[3], base, h)]
        else if h < 1080 then [QualityFor(Renditions[1], base, h), QualityFor(Renditions[2], base, h), QualityFor(Renditions[3], base, h)]
        else [QualityFor(Renditions[0], base, h), QualityFor(Renditions[1], base, h),
              QualityFor(Renditions[2], base, h), QualityFor(Renditions[3], base, h)]
  {
    var base, h := BaseRate(meta), meta.height;
    var r0, r1, r2, r3 := Renditions[0], Renditions[1], Renditions[2], Renditions[3];
    assert Renditions[1..] == [r1, r2, r3];
    assert [r1, r2, r3][1..] == [r2, r3];
    assert [r2, r3][1..] == [r3];
    assert [r3][1..] == [];
    assert LadderOf([], base, h) == [];
    assert LadderOf([r3], base, h) == if h < 360 then [] else [QualityFor(r3, base, h)];
    assert LadderOf([r2, r3], base, h) == (if h < 480 then [] else [QualityFor(r2, base, h)]) + LadderOf([r3], base, h);
    assert LadderOf([r1, r2, r3], base, h) == (if h < 720 then [] else [QualityFor(r1, base, h)]) + LadderOf([r2, r3], base, h);
    assert Ladder(meta) == (if h < 1080 then [] else [QualityFor(r0, base, h)]) + LadderOf([r1, r2, r3], base, h);
  }

  /** The ladder is the tail of the table that fits under the source height, with each
      rung's name and resolution copied from the table and its rate from `RungRate`.
      A rung is kept exactly when its height does not exceed the source height. */
  lemma LadderMatchesTable(meta: VideoMetadata)
    ensures var L := Ladder(meta);
      && |L| <= 4
      && (|L| > 0 ==> meta.height >= 360)
      && (forall j :: 0 <= j < 4 ==> (4 - |L| <= j <==> Renditions[j].height <= meta.height))
      && (forall i :: 0 <= i < |L| ==>
            && L[i].name == Renditions[4 - |L| + i].name
            && L[i].width == Renditions[4 - |L| + i].width
            && L[i].height == Renditions[4 - |L| + i].height)
      && (|L| > 0 ==> forall i :: 0 <= i < |L| ==> L[i].bitrateKbps == RungRate(BaseRate(meta), L[i].height, meta.height))
  {
    LadderCases(meta);
  }

  /** No upscaling: every rung is at most as tall as the source. */
  lemma LadderNoUpscale(meta: VideoMetadata)
    ensures forall q :: q in Ladder(meta) ==> q.height <= meta.height
  {
    LadderMatchesTable(meta);
    var L := Ladder(meta);
    forall q | q in L ensures q.height <= meta.height {
      var i :| 0 <= i < |L| && L[i] == q;
      assert Renditions[4 - |L| + i].height <= meta.height;
    }
  }

  /** Heights strictly decrease along the ladder, so its names are distinct. */
  lemma LadderOrdered(meta: VideoMetadata)
    ensures var L := Ladder(meta);
      && (forall i, j :: 0 <= i < j < |L| ==> L[i].height > L[j].height)
      && (forall i, j :: 0 <= i < j < |L| ==> L[i].name != L[j].name)
  {
    LadderMatchesTable(meta);
  }

  /** The ladder is empty exactly when the source is shorter than the smallest rung. */
  lemma LadderEmptyIffShort(meta: VideoMetadata)
    ensures Ladder(meta) == [] <==> meta.height < 360
  {
    LadderMatchesTable(meta);
    if meta.height >= 360 {
      assert Renditions[3].height <= meta.height;
    }
  }

  /** A 400-line source gets only the 360p rung. */
  lemma LadderFor400Lines(width: int, sourceBitrate: real)
    ensures var L := Ladder(VideoMetadata(width, 400, sourceBitrate));
      |L| == 1 && L[0].name == "360p" && L[0].width == 640 && L[0].height == 360
  {
    var meta := VideoMetadata(width, 400, sourceBitrate);
    LadderMatchesTable(meta);
    assert Renditions[2].height > 400 && Renditions[3].height <= 400;
  }

  lemma TruncMonotone(x: real, y: real)
    requires x <= y
    ensures Trunc(x) <= Trunc(y)
  {
    if x < 0.0 && y >= 0.0 {
      assert Trunc(x) <= 0;
    }
  }

  lemma TruncBelow(x: real, bound: real)
    requires x <= bound && bound >= 0.0
    ensures Trunc(x) as real <= bound
  {
    if x < 0.0 {
      assert (-x).Floor >= 0;
    }
  }

  /** No rung exceeds the ceiling. */
  lemma RungRateCeiling(base: real, h: int, maxH: int)
    requires maxH > 0
    ensures RungRate(base, h, maxH) <= MaxBitrateKbps
  {
    var rate := base * (h as real / maxH as real) * 0.8;
    var clamped := if rate > MaxBitrateKbps as real then MaxBitrateKbps as real else rate;
    TruncBelow(clamped, MaxBitrateKbps as real);
  }

  /** Every bitrate in the ladder is at most 5000 kbit/s. */
  lemma LadderBitrateCeiling(meta: VideoMetadata)
    ensures forall q :: q in Ladder(meta) ==> q.bitrateKbps <= MaxBitrateKbps
  {
    LadderMatchesTable(meta);
    var L := Ladder(meta);
    forall q | q in L ensures q.bitrateKbps <= MaxBitrateKbps {
      var i :| 0 <= i < |L| && L[i] == q;
      RungRateCeiling(BaseRate(meta), q.height, meta.height);
    }
  }

  /** With a non-negative source bitrate the base rate never exceeds it. */
  lemma BaseRateWithinSource(meta: VideoMetadata)
    requires meta.sourceBitrate >= 0.0
    ensures BaseRate(meta) <= meta.sourceBitrate
  {
  }

  lemma RungRateWithin(base: real, h: int, maxH: int, cap: real)
    requires 0 < h <= maxH && base <= cap && cap >= 0.0
    ensures RungRate(base, h, maxH) as real <= 0.8 * cap
  {
    var ratio := h as real / maxH as real;
    assert 0.0 < ratio <= 1.0;
    var rate := base * ratio * 0.8;
    if base >= 0.0 {
      assert base * ratio <= base;
      assert rate <= 0.8 * cap;
    } else {
      assert base * ratio < 0.0;
      assert rate <= 0.0;
    }
    var clamped := if rate > MaxBitrateKbps as real then MaxBitrateKbps as real else rate;
    TruncBelow(clamped, 0.8 * cap);
  }

  /** Never more bits than the source carries: with a non-negative measured source
      bitrate, every rung gets at most 80% of it (at most 72% when the 90% cap binds). */
  lemma LadderWithinSourceBitrate(meta: VideoMetadata)
    requires meta.sourceBitrate >= 0.0
    ensures forall q :: q in Ladder(meta) ==> q.bitrateKbps as real <= 0.8 * meta.sourceBitrate
    ensures ((meta.width * meta.height * 30) as real * 0.2) / 1000.0 > meta.sourceBitrate ==>
      forall q :: q in Ladder(meta) ==> q.bitrateKbps as real <= 0.8 * (0.9 * meta.sourceBitrate)
  {
    LadderMatchesTable(meta);
    var L := Ladder(meta);
    var base := BaseRate(meta);
    forall q | q in L ensures q.bitrateKbps as real <= 0.8 * meta.sourceBitrate {
      var i :| 0 <= i < |L| && L[i] == q;
      RungRateWithin(base, q.height, meta.height, meta.sourceBitrate);
    }
    if ((meta.width * meta.height * 30) as real * 0.2) / 1000.0 > meta.sourceBitrate {
      forall q | q in L ensures q.bitrateKbps as real <= 0.8 * (0.9 * meta.sourceBitrate) {
        var i :| 0 <= i < |L| && L[i] == q;
        RungRateWithin(base, q.height, meta.height, 0.9 * meta.sourceBitrate);
      }
    }
  }

  lemma ScaledRateMonotone(base: real, lo: int, hi: int, maxH: int)
    requires base >= 0.0 && 0 < lo <= hi && maxH > 0
    ensures ScaledRate(base, lo, maxH) <= ScaledRate(base, hi, maxH)
  {
    var rl, rh := lo as real / maxH as real, hi as real / maxH as real;
    assert rl <= rh;
    assert base * rl <= base * rh;
  }

  lemma RungRateMonotone(base: real, lo: int, hi: int, maxH: int)
    requires base >= 0.0 && 0 < lo <= hi && maxH > 0
    ensures RungRate(base, lo, maxH) <= RungRate(base, hi, maxH)
  {
    ScaledRateMonotone(base, lo, hi, maxH);
    TruncMonotone(Clamp(ScaledRate(base, lo, maxH)), Clamp(ScaledRate(base, hi, maxH)));
  }

  /** For a source with non-negative width and bitrate, bitrates never increase down
      the ladder. */
  lemma LadderBitratesNonIncreasing(meta: VideoMetadata)
    requires meta.width >= 0 && meta.sourceBitrate >= 0.0
    ensures var L := Ladder(meta);
      forall i, j :: 0 <= i < j < |L| ==> L[i].bitrateKbps >= L[j].bitrateKbps
  {
    LadderMatchesTable(meta);
    var L := Ladder(meta);
    var base := BaseRate(meta);
    if |L| > 0 {
      assert meta.height >= 360;
      assert base >= 0.0;
      forall i, j | 0 <= i < j < |L| ensures L[i].bitrateKbps >= L[j].bitrateKbps {
        RungRateMonotone(base, L[j].height, L[i].height, meta.height);
      }
    }
  }

  /** A 1080p source measured at 8000 kbit/s: all four rungs, the 90% cap binding
      (base 7200), the top rung clamped to 5000, strictly decreasing bitrates. */
  lemma LadderFor1080pAt8000()
    ensures Ladder(VideoMetadata(1920, 1080, 8000.0)) ==
      [Quality("1080p", 1920, 1080, 5000), Quality("720p", 1280, 720, 3840),
       Quality("480p", 854, 480, 2560), Quality("360p", 640, 360, 1920)]
  {
    var meta := VideoMetadata(1920, 1080, 8000.0);
    assert BaseRate(meta) == 7200.0;
    LadderMatchesTable(meta);
    assert RungRate(7200.0, 1080, 1080) == 5000;
    assert 7200.0 * (720 as real / 1080 as real) * 0.8 == 3840.0;
    assert RungRate(7200.0, 720, 1080) == 3840;
    assert 7200.0 * (480 as real / 1080 as real) * 0.8 == 2560.0;
    assert RungRate(7200.0, 480, 1080) == 2560;
    assert 7200.0 * (360 as real / 1080 as real) * 0.8 == 1920.0;
    assert RungRate(7200.0, 360, 1080) == 1920;
  }

  // ---------------------------------------------------------------------------
  // checkAndGenerateQualities and Process
  // ---------------------------------------------------------------------------

  /** Metadata, then the ladder; an empty ladder is an error. */
  function CheckAndGenerateQualities(videoUrl: string, probe: ProbeOutcome): Result<seq<Quality>, QualityError>
  {
    match ExtractMetadata(videoUrl, probe)
    case Failure(e) => Failure(MetadataUnavailable(e))
    case Success(meta) =>
      var qualities := Ladder(meta);
      if |qualities| == 0 then Failure(NoQualities(videoUrl)) else Success(qualities)
  }

  /** The qualities handed on are the planned ladder and are never empty; the ladder
      error is raised exactly for probed sources shorter than 360 lines. */
  lemma QualitiesChecked(videoUrl: string, probe: ProbeOutcome)
    ensures var r := CheckAndGenerateQualities(videoUrl, probe);
      && (r.Success? ==> r.value != [] && ExtractMetadata(videoUrl, probe).Success?
                         && r.value == Ladder(ExtractMetadata(videoUrl, probe).value))
      && (r == Failure(NoQualities(videoUrl)) <==>
            ExtractMetadata(videoUrl, probe).Success? && ExtractMetadata(videoUrl, probe).value.height < 360)
      && (ExtractMetadata(videoUrl, probe).Failure? ==>
            r == Failure(MetadataUnavailable(ExtractMetadata(videoUrl, probe).error)))
  {
    var m := ExtractMetadata(videoUrl, probe);
    if m.Success? {
      LadderEmptyIffShort(m.value);
    }
  }

  /** What one `Process` call did: the ffmpeg command it ran, if it got that far, and
      its error. */
  datatype ProcessRun = ProcessRun(invoked: Option<FfmpegCommand>, err: Option<ProcessError>)

  /** Process: plan the ladder, then generate HLS into `outputDir`. The task is only
      used for logging. */
  function Process(t: VideoTask, videoUrl: string, outputDir: string, probe: ProbeOutcome, ffmpegFails: bool): ProcessRun
  {
    match CheckAndGenerateQualities(videoUrl, probe)
    case Failure(e) => ProcessRun(None, Some(QualitiesFailed(e)))
    case Success(q) =>
      var h := RunHls(videoUrl, outputDir, q, ffmpegFails);
      ProcessRun(h.invoked, if h.err.Some? then Some(HlsFailed(h.err.value)) else None)
  }

  /** Process stops before generateHLS when metadata or planning fails; otherwise it runs
      ffmpeg exactly once, with the command built from the planned ladder, and succeeds
      exactly when that run does. */
  lemma ProcessSteps(t: VideoTask, videoUrl: string, outputDir: string, probe: ProbeOutcome, ffmpegFails: bool)
    ensures var run := Process(t, videoUrl, outputDir, probe, ffmpegFails);
      var q := CheckAndGenerateQualities(videoUrl, probe);
      && (q.Failure? ==> run == ProcessRun(None, Some(QualitiesFailed(q.error))))
      && (q.Success? ==> run.invoked == Some(HlsCommand(videoUrl, outputDir, q.value))
                         && (run.err.None? <==> !ffmpegFails)
                         && (ffmpegFails ==> run.err == Some(HlsFailed(FfmpegFailed))))
      && (run.err.None? <==>
            ExtractMetadata(videoUrl, probe).Success? && ExtractMetadata(videoUrl, probe).value.height >= 360 && !ffmpegFails)
  {
    QualitiesChecked(videoUrl, probe);
  }

  // ---------------------------------------------------------------------------
  // ffmpeg arguments (generateHLS)
  // ---------------------------------------------------------------------------

  /** A keyword-argument value: a string, a list of strings (repeated `-map`), or a
      bitrate in kbit/s, which generateHLS formats as `%dk` (see `ArgText`). */
  datatype ArgValue = Str(s: string) | Strs(items: seq<string>) | Kbps(kbps: int)

  /** The text ffmpeg receives for a single-valued option. */
  function ArgText(v: ArgValue): string
    requires !v.Strs?
  {
    match v
    case Str(s) => s
    case Kbps(n) => IntToString(n) + "k"
  }

  /** A bitrate option ends in `k`, and the digits before it read back as the bitrate. */
  lemma BitrateTextRoundTrip(n: int)
    requires MinInt64 <= n <= MaxInt64
    ensures var t := ArgText(Kbps(n));
      |t| >= 2 && t[|t| - 1] == 'k' && Atoi(t[..|t| - 1]) == Some(n)
  {
    var t := ArgText(Kbps(n));
    assert t[..|t| - 1] == IntToString(n);
    AtoiIntToString(n);
  }

  /** One ffmpeg invocation: input, output pattern and keyword arguments. */
  datatype FfmpegCommand = FfmpegCommand(input: string, output: string, args: map<ArgKey, ArgValue>)

  /** The keyword arguments generateHLS writes: six fixed options, four per rendition,
      then `var_stream_map` and `master_pl_name`. Each key prints as the option name
      ffmpeg receives (`KeyName`); distinct keys print differently (`KeyNamesDistinct`),
      so a map over these keys holds exactly the entries of generateHLS's map over the
      printed names. */
  datatype ArgKey =
    | FilterComplexKey | MapKey | FormatKey | HlsTimeKey | SegmentFilenameKey | PlaylistTypeKey
    | VideoCodecKey(stream: nat) | VideoBitrateKey(stream: nat) | AudioCodecKey(stream: nat) | AudioBitrateKey(stream: nat)
    | VarStreamMapKey | MasterPlaylistKey

  predicate IsRenditionKey(k: ArgKey)
  {
    k.VideoCodecKey? || k.VideoBitrateKey? || k.AudioCodecKey? || k.AudioBitrateKey?
  }

  function KeyName(k: ArgKey): string
  {
    match k
    case FilterComplexKey => "filter_complex"
    case MapKey => "map"
    case FormatKey => "f"
    case HlsTimeKey => "hls_time"
    case SegmentFilenameKey => "hls_segment_filename"
    case PlaylistTypeKey => "hls_playlist_type"
    case VideoCodecKey(i) => "c:v:" + NatToString(i)
    case VideoBitrateKey(i) => "b:v:" + NatToString(i)
    case AudioCodecKey(i) => "c:a:" + NatToString(i)
    case AudioBitrateKey(i) => "b:a:" + NatToString(i)
    case VarStreamMapKey => "var_stream_map"
    case MasterPlaylistKey => "master_pl_name"
  }

  /** No two keys print as the same option name: the per-rendition keys differ in their
      kind letters or their number, and none of them starts like a fixed option. */
  lemma KeyNamesDistinct(a: ArgKey, b: ArgKey)
    requires a != b
    ensures KeyName(a) != KeyName(b)
  {
    if IsRenditionKey(a) && IsRenditionKey(b) {
      if a.stream == b.stream {
        assert KeyName(a)[0] != KeyName(b)[0] || KeyName(a)[2] != KeyName(b)[2];
      } else if a.VideoCodecKey? && b.VideoCodecKey? {
        PrefixedNumbersDiffer("c:v:", a.stream, b.stream);
      } else if a.VideoBitrateKey? && b.VideoBitrateKey? {
        PrefixedNumbersDiffer("b:v:", a.stream, b.stream);
      } else if a.AudioCodecKey? && b.AudioCodecKey? {
        PrefixedNumbersDiffer("c:a:", a.stream, b.stream);
      } else if a.AudioBitrateKey? && b.AudioBitrateKey? {
        PrefixedNumbersDiffer("b:a:", a.stream, b.stream);
      } else {
        assert KeyName(a)[0] != KeyName(b)[0] || KeyName(a)[2] != KeyName(b)[2];
      }
    } else if IsRenditionKey(a) {
      assert KeyName(a)[0] in {'c', 'b'} && KeyName(b)[0] in {'f', 'm', 'h', 'v'};
    } else if IsRenditionKey(b) {
      assert KeyName(b)[0] in {'c', 'b'} && KeyName(a)[0] in {'f', 'm', 'h', 'v'};
    }
  }

  /** The six options set before the per-rendition loop. */
  function FixedArgs(filterComplex: string, mapLabels: seq<string>, segmentFile: string): map<ArgKey, ArgValue>
  {
    map[FilterComplexKey := Str(filterComplex),
        MapKey := Strs(mapLabels),
        FormatKey := Str("hls"),
        HlsTimeKey := Str("6"),
        SegmentFilenameKey := Str(segmentFile),
        PlaylistTypeKey := Str("vod")]
  }

  /** The rendition's bitrate option. */
  function BitrateArg(q: Quality): ArgValue
  {
    Kbps(q.bitrateKbps)
  }

  function BitrateArgs(qs: seq<Quality>): seq<ArgValue>
  {
    seq(|qs|, k requires 0 <= k < |qs| => BitrateArg(qs[k]))
  }

  /** `base` with the four per-rendition keys of renditions `0..i-1` written in order,
      rendition `k`'s video bitrate being `rates[k]`. */
  function RenditionArgs(base: map<ArgKey, ArgValue>, rates: seq<ArgValue>, i: nat): map<ArgKey, ArgValue>
    requires i <= |rates|
  {
    if i == 0 then base
    else
      RenditionArgs(base, rates, i - 1)
        [VideoCodecKey(i - 1) := Str(AVC)]
        [VideoBitrateKey(i - 1) := rates[i - 1]]
        [AudioCodecKey(i - 1) := Str(AAC)]
        [AudioBitrateKey(i - 1) := Str(AudioBitrate)]
  }

  /** The finished option map: the fixed options, every rendition's options, then
      `var_stream_map` and `master_pl_name`. */
  function CompleteArgs(fixed: map<ArgKey, ArgValue>, rates: seq<ArgValue>, varStreamMap: string): map<ArgKey, ArgValue>
  {
    RenditionArgs(fixed, rates, |rates|)
      [VarStreamMapKey := Str(varStreamMap)]
      [MasterPlaylistKey := Str(MasterPlaylistName)]
  }

  function HlsArgs(outputDir: string, qs: seq<Quality>): map<ArgKey, ArgValue>
  {
    CompleteArgs(FixedArgs(FilterComplex(qs), MapLabels(|qs|), PathJoin(outputDir, SegmentPattern)),
                 BitrateArgs(qs), Join(VarStreamEntries(qs), " "))
  }

  function HlsCommand(inputUrl: string, outputDir: string, qs: seq<Quality>): FfmpegCommand
  {
    FfmpegCommand(inputUrl, PathJoin(outputDir, VariantPlaylistPattern), HlsArgs(outputDir, qs))
  }

  function SplitLabel(i: nat): string { "[v" + NatToString(i) + "]" }
  function ScaledLabel(i: nat): string { "[v" + NatToString(i) + "out]" }
  function AudioLabel(i: nat): string { "[a" + NatToString(i) + "]" }

  function ScalePart(i: nat, q: Quality): string
  {
    SplitLabel(i) + "scale=" + IntToString(q.width) + ":" + IntToString(q.height) + ScaledLabel(i)
  }

  function VarStreamEntry(i: nat, q: Quality): string
  {
    "v:" + NatToString(i) + ",a:" + NatToString(i) + ",name:" + q.name
  }

  /** `[v0]`, …, `[v<n-1>]`: the outputs of the video split. */
  function SplitLabels(n: nat): seq<string>
  {
    seq(n, i requires 0 <= i => SplitLabel(i))
  }

  /** `[a0]`, …, `[a<n-1>]`: the outputs of the audio split. */
  function AudioLabels(n: nat): seq<string>
  {
    seq(n, i requires 0 <= i => AudioLabel(i))
  }

  function VideoHead(n: nat): string
  {
    "[0:v]split=" + NatToString(n) + Join(SplitLabels(n), "")
  }

  function AudioTail(n: nat): string
  {
    "[0:a]asplit=" + NatToString(n) + Join(AudioLabels(n), "")
  }

  function ScaleParts(qs: seq<Quality>): seq<string>
  {
    seq(|qs|, i requires 0 <= i < |qs| => ScalePart(i, qs[i]))
  }

  /** `[0:v]split=N[v0]..;[v0]scale=W:H[v0out];..;[0:a]asplit=N[a0]..` */
  function FilterComplex(qs: seq<Quality>): string
  {
    VideoHead(|qs|) + ";" + Join(ScaleParts(qs), ";") + ";" + AudioTail(|qs|)
  }

  function MapLabels(n: nat): seq<string>
  {
    seq(n, i requires 0 <= i => ScaledLabel(i)) + AudioLabels(n)
  }

  function VarStreamEntries(qs: seq<Quality>): seq<string>
  {
    seq(|qs|, i requires 0 <= i < |qs| => VarStreamEntry(i, qs[i]))
  }

  /** What generateHLS did: the command it ran, if any, and its error. */
  datatype HlsRun = HlsRun(invoked: Option<FfmpegCommand>, err: Option<HlsError>)

  function RunHls(inputUrl: string, outputDir: string, qs: seq<Quality>, ffmpegFails: bool): HlsRun
  {
    if |qs| == 0 then HlsRun(None, Some(EmptyQualities))
    else HlsRun(Some(HlsCommand(inputUrl, outputDir, qs)), if ffmpegFails then Some(FfmpegFailed) else None)
  }

  /** generateHLS: refuse an empty ladder, build the filter graph, the map labels, the
      keyword arguments and `var_stream_map`, then run ffmpeg. Each of the
      four loops of generateHLS is one of the methods below. */
  method GenerateHls(inputUrl: string, outputDir: string, qualities: seq<Quality>, ffmpegFails: bool)
    returns (invoked: Option<FfmpegCommand>, err: Option<HlsError>)
    ensures HlsRun(invoked, err) == RunHls(inputUrl, outputDir, qualities, ffmpegFails)
  {
    var n := |qualities|;
    if n == 0 {
      return None, Some(EmptyQualities);
    }
    var filterComplex := BuildFilterComplex(qualities);
    var mapLabels := BuildMapLabels(n);
    var args := map[FilterComplexKey := Str(filterComplex),
                    MapKey := Strs(mapLabels),
                    FormatKey := Str("hls"),
                    HlsTimeKey := Str("6"),
                    SegmentFilenameKey := Str(PathJoin(outputDir, SegmentPattern)),
                    PlaylistTypeKey := Str("vod")];
    args := AddRenditionArgs(args, qualities);
    var vsEntries := BuildVarStreamEntries(qualities);
    args := args[VarStreamMapKey := Str(Join(vsEntries, " "))];
    args := args[MasterPlaylistKey := Str(MasterPlaylistName)];

    invoked := Some(FfmpegCommand(inputUrl, PathJoin(outputDir, VariantPlaylistPattern), args));
    err := if ffmpegFails then Some(FfmpegFailed) else None;
  }

  /** The label slices, filled by index, joined into the filter graph. */
  method BuildFilterComplex(qualities: seq<Quality>) returns (filterComplex: string)
    ensures filterComplex == FilterComplex(qualities)
  {
    var n := |qualities|;
    var splitLabels := new string[n];
    var scaleParts := new string[n];
    var audioLabels := new string[n];
    for i := 0 to n
      invariant splitLabels[..i] == SplitLabels(i)
      invariant scaleParts[..i] == ScaleParts(qualities[..i])
      invariant audioLabels[..i] == AudioLabels(i)
    {
      splitLabels[i] := SplitLabel(i);
      scaleParts[i] := ScalePart(i, qualities[i]);
      audioLabels[i] := AudioLabel(i);
      assert splitLabels[..i + 1] == splitLabels[..i] + [SplitLabel(i)];
      assert scaleParts[..i + 1] == scaleParts[..i] + [ScalePart(i, qualities[i])];
      assert audioLabels[..i + 1] == audioLabels[..i] + [AudioLabel(i)];
      ScalePartsSnoc(qualities, i);
    }
    assert splitLabels[..] == splitLabels[..n] && scaleParts[..] == scaleParts[..n] && audioLabels[..] == audioLabels[..n];
    assert qualities[..n] == qualities;
    var videoSplit := "[0:v]split=" + NatToString(n) + Join(splitLabels[..], "");
    var audioSplit := "[0:a]asplit=" + NatToString(n) + Join(audioLabels[..], "");
    filterComplex := videoSplit + ";" + Join(scaleParts[..], ";") + ";" + audioSplit;
  }

  /** One more rendition's scale chain, at the end. */
  lemma ScalePartsSnoc(qs: seq<Quality>, i: nat)
    requires i < |qs|
    ensures ScaleParts(qs[..i + 1]) == ScaleParts(qs[..i]) + [ScalePart(i, qs[i])]
  {
    assert forall k :: 0 <= k < i ==> qs[..i + 1][k] == qs[..i][k];
  }

  /** `n` empty slots overwritten with the scaled-video labels while the audio labels
      are appended after them. */
  method BuildMapLabels(n: nat) returns (mapLabels: seq<string>)
    ensures mapLabels == MapLabels(n)
  {
    mapLabels := seq(n, _ => "");
    for i := 0 to n
      invariant |mapLabels| == n + i
      invariant forall k :: 0 <= k < i ==> mapLabels[k] == ScaledLabel(k)
      invariant forall k :: i <= k < n ==> mapLabels[k] == ""
      invariant forall k :: 0 <= k < i ==> mapLabels[n + k] == AudioLabel(k)
    {
      mapLabels := mapLabels[i := ScaledLabel(i)];
      mapLabels := mapLabels + [AudioLabel(i)];
    }
  }

  /** The per-rendition codec and bitrate keys, written rendition by rendition. */
  method AddRenditionArgs(base: map<ArgKey, ArgValue>, qualities: seq<Quality>) returns (args: map<ArgKey, ArgValue>)
    ensures args == RenditionArgs(base, BitrateArgs(qualities), |qualities|)
  {
    ghost var rates := BitrateArgs(qualities);
    args := base;
    for i := 0 to |qualities|
      invariant args == RenditionArgs(base, rates, i)
    {
      args := args[VideoCodecKey(i) := Str(AVC)];
      args := args[VideoBitrateKey(i) := Kbps(qualities[i].bitrateKbps)];
      args := args[AudioCodecKey(i) := Str(AAC)];
      args := args[AudioBitrateKey(i) := Str(AudioBitrate)];
    }
  }

  /** One `var_stream_map` entry per rendition, appended in order. */
  method BuildVarStreamEntries(qualities: seq<Quality>) returns (vsEntries: seq<string>)
    ensures vsEntries == VarStreamEntries(qualities)
  {
    vsEntries := [];
    for i := 0 to |qualities|
      invariant |vsEntries| == i
      invariant forall k :: 0 <= k < i ==> vsEntries[k] == VarStreamEntry(k, qualities[k])
    {
      vsEntries := vsEntries + [VarStreamEntry(i, qualities[i])];
    }
  }

  /** An empty ladder is refused before ffmpeg is started. */
  lemma HlsRefusesEmptyLadder(inputUrl: string, outputDir: string, ffmpegFails: bool)
    ensures RunHls(inputUrl, outputDir, [], ffmpegFails) == HlsRun(None, Some(EmptyQualities))
  {
  }

  /** After the loop over renditions `0..i-1`, the four keys of each rendition `k < i`
      hold its values... */
  lemma {:induction false} RenditionArgsLookup(base: map<ArgKey, ArgValue>, rates: seq<ArgValue>, i: nat, k: nat)
    requires k < i <= |rates|
    ensures var m := RenditionArgs(base, rates, i);
      && VideoCodecKey(k) in m && m[VideoCodecKey(k)] == Str(AVC)
      && VideoBitrateKey(k) in m && m[VideoBitrateKey(k)] == rates[k]
      && AudioCodecKey(k) in m && m[AudioCodecKey(k)] == Str(AAC)
      && AudioBitrateKey(k) in m && m[AudioBitrateKey(k)] == Str(AudioBitrate)
  {
    if k < i - 1 {
      RenditionArgsLookup(base, rates, i - 1, k);
    }
  }

  /** ... every other key keeps its value from `base`... */
  lemma {:induction false} RenditionArgsKeep(base: map<ArgKey, ArgValue>, rates: seq<ArgValue>, i: nat, key: ArgKey)
    requires i <= |rates| && key in base && !IsRenditionKey(key)
    ensures key in RenditionArgs(base, rates, i) && RenditionArgs(base, rates, i)[key] == base[key]
  {
    if i > 0 {
      RenditionArgsKeep(base, rates, i - 1, key);
    }
  }

  /** ... and no other key is added. */
  lemma {:induction false} RenditionArgsDomain(base: map<ArgKey, ArgValue>, rates: seq<ArgValue>, i: nat, key: ArgKey)
    requires i <= |rates|
    ensures key in RenditionArgs(base, rates, i) <==> key in base || (IsRenditionKey(key) && key.stream < i)
  {
    if i > 0 {
      RenditionArgsDomain(base, rates, i - 1, key);
    }
  }

  /** The options passed are exactly the eight fixed ones and the four of each rendition. */
  lemma HlsArgKeys(inputUrl: string, outputDir: string, qs: seq<Quality>, key: ArgKey)
    ensures key in HlsCommand(inputUrl, outputDir, qs).args <==> !IsRenditionKey(key) || key.stream < |qs|
  {
    RenditionArgsDomain(FixedArgs(FilterComplex(qs), MapLabels(|qs|), PathJoin(outputDir, SegmentPattern)), BitrateArgs(qs), |qs|, key);
  }

  /** Each rendition `i` is encoded with libx264 at `<bitrate_i>k` and aac at 128k. */
  lemma HlsRenditionArgs(inputUrl: string, outputDir: string, qs: seq<Quality>, i: nat)
    requires i < |qs|
    ensures var args := HlsCommand(inputUrl, outputDir, qs).args;
      && VideoCodecKey(i) in args && args[VideoCodecKey(i)] == Str("libx264")
      && VideoBitrateKey(i) in args && args[VideoBitrateKey(i)] == Kbps(qs[i].bitrateKbps)
      && ArgText(args[VideoBitrateKey(i)]) == IntToString(qs[i].bitrateKbps) + "k"
      && AudioCodecKey(i) in args && args[AudioCodecKey(i)] == Str("aac")
      && AudioBitrateKey(i) in args && args[AudioBitrateKey(i)] == Str("128k")
  {
    RenditionArgsLookup(FixedArgs(FilterComplex(qs), MapLabels(|qs|), PathJoin(outputDir, SegmentPattern)), BitrateArgs(qs), |qs|, i);
  }

  /** The map labels are `[v0out]..[v(n-1)out]` followed by `[a0]..[a(n-1)]`. */
  lemma HlsMapLabels(inputUrl: string, outputDir: string, qs: seq<Quality>)
    ensures var args := HlsCommand(inputUrl, outputDir, qs).args;
      MapKey in args && args[MapKey].Strs? && |args[MapKey].items| == 2 * |qs|
      && (forall i :: 0 <= i < |qs| ==> args[MapKey].items[i] == "[v" + NatToString(i) + "out]")
      && (forall i :: 0 <= i < |qs| ==> args[MapKey].items[|qs| + i] == "[a" + NatToString(i) + "]")
  {
    RenditionArgsKeep(FixedArgs(FilterComplex(qs), MapLabels(|qs|), PathJoin(outputDir, SegmentPattern)), BitrateArgs(qs), |qs|, MapKey);
  }

  /** ffmpeg reads the source URL and writes the variant playlists `stream_%v.m3u8`
      into `outputDir`. */
  lemma HlsOutputArgs(inputUrl: string, outputDir: string, qs: seq<Quality>)
    ensures HlsCommand(inputUrl, outputDir, qs).input == inputUrl
    ensures HlsCommand(inputUrl, outputDir, qs).output == outputDir + "/stream_%v.m3u8"
  {
    var cmd := HlsCommand(inputUrl, outputDir, qs);
    assert cmd.output == PathJoin(outputDir, VariantPlaylistPattern);
  }

  /** The segments `segment_%v_%d.ts` go into `outputDir` too. */
  lemma HlsSegmentArg(inputUrl: string, outputDir: string, qs: seq<Quality>)
    ensures var args := HlsCommand(inputUrl, outputDir, qs).args;
      SegmentFilenameKey in args && args[SegmentFilenameKey] == Str(outputDir + "/segment_%v_%d.ts")
  {
    var segmentFile := PathJoin(outputDir, SegmentPattern);
    var base := FixedArgs(FilterComplex(qs), MapLabels(|qs|), segmentFile);
    RenditionArgsKeep(base, BitrateArgs(qs), |qs|, SegmentFilenameKey);
    assert segmentFile == outputDir + "/segment_%v_%d.ts";
  }

  /** The output is VOD HLS in 6-second segments, with master playlist `master.m3u8`. */
  lemma HlsFormatArgs(inputUrl: string, outputDir: string, qs: seq<Quality>)
    ensures var args := HlsCommand(inputUrl, outputDir, qs).args;
      && FormatKey in args && args[FormatKey] == Str("hls")
      && HlsTimeKey in args && args[HlsTimeKey] == Str("6")
      && PlaylistTypeKey in args && args[PlaylistTypeKey] == Str("vod")
      && MasterPlaylistKey in args && args[MasterPlaylistKey] == Str("master.m3u8")
  {
    var base := FixedArgs(FilterComplex(qs), MapLabels(|qs|), PathJoin(outputDir, SegmentPattern));
    RenditionArgsKeep(base, BitrateArgs(qs), |qs|, FormatKey);
    RenditionArgsKeep(base, BitrateArgs(qs), |qs|, HlsTimeKey);
    RenditionArgsKeep(base, BitrateArgs(qs), |qs|, PlaylistTypeKey);
  }

  /** `var_stream_map` binds video and audio stream `i` to the variant named after
      rendition `i`, one space-separated entry per rendition in ladder order. */
  lemma HlsVarStreamMap(inputUrl: string, outputDir: string, qs: seq<Quality>)
    ensures var args := HlsCommand(inputUrl, outputDir, qs).args;
      && VarStreamMapKey in args && args[VarStreamMapKey] == Str(Join(VarStreamEntries(qs), " "))
      && |VarStreamEntries(qs)| == |qs|
      && forall i :: 0 <= i < |qs| ==>
           VarStreamEntries(qs)[i] == "v:" + NatToString(i) + ",a:" + NatToString(i) + ",name:" + qs[i].name
  {
  }

  /** The filter graph passed is the one built from the ladder. */
  lemma HlsFilterArg(inputUrl: string, outputDir: string, qs: seq<Quality>)
    ensures var args := HlsCommand(inputUrl, outputDir, qs).args;
      FilterComplexKey in args && args[FilterComplexKey] == Str(FilterComplex(qs))
  {
    RenditionArgsKeep(FixedArgs(FilterComplex(qs), MapLabels(|qs|), PathJoin(outputDir, SegmentPattern)), BitrateArgs(qs), |qs|, FilterComplexKey);
  }

  /** The chains of the filter graph, in order. */
  function FilterChains(qs: seq<Quality>): seq<string>
  {
    [VideoHead(|qs|)] + ScaleParts(qs) + [AudioTail(|qs|)]
  }

  /** No chain contains `;`. */
  lemma FilterChainsFree(qs: seq<Quality>)
    ensures forall i :: 0 <= i < |FilterChains(qs)| ==> ';' !in FilterChains(qs)[i]
  {
    var n, parts := |qs|, FilterChains(qs);
    forall i | 0 <= i < |parts| ensures ';' !in parts[i] {
      if i == 0 {
        NoSemicolonInHead(n);
      } else if i == |parts| - 1 {
        NoSemicolonInTail(n);
      } else {
        NoSemicolonInScalePart(i - 1, qs[i - 1]);
      }
    }
  }

  /** The filter graph is its chains joined with `;`, and splits back into them. */
  lemma FilterComplexSplits(qs: seq<Quality>)
    requires |qs| > 0
    ensures Split(FilterComplex(qs), ';') == FilterChains(qs)
  {
    JoinThree(VideoHead(|qs|), ScaleParts(qs), AudioTail(|qs|), ";");
    FilterChainsFree(qs);
    SplitJoin(FilterChains(qs), ';');
  }

  /** No label, number or scale part contains `;`, so the filter graph splits at `;`
      into exactly `n + 2` chains: the video split, one scale chain per rendition in
      ladder order, and the audio split. */
  lemma HlsFilterGraph(qs: seq<Quality>)
    requires |qs| > 0
    ensures var chains := Split(FilterComplex(qs), ';');
      && |chains| == |qs| + 2
      && chains[0] == VideoHead(|qs|)
      && (forall i :: 0 <= i < |qs| ==> chains[i + 1] == ScalePart(i, qs[i]))
      && chains[|qs| + 1] == AudioTail(|qs|)
  {
    FilterComplexSplits(qs);
    FilterChainsAt(qs);
  }

  /** The chains by position: the video split, the scale chains, the audio split. */
  lemma FilterChainsAt(qs: seq<Quality>)
    ensures var chains := FilterChains(qs);
      && |chains| == |qs| + 2
      && chains[0] == VideoHead(|qs|)
      && (forall i :: 0 <= i < |qs| ==> chains[i + 1] == ScalePart(i, qs[i]))
      && chains[|qs| + 1] == AudioTail(|qs|)
  {
    var chains := FilterChains(qs);
    forall i | 0 <= i < |qs| ensures chains[i + 1] == ScalePart(i, qs[i]) {
      assert chains[i + 1] == ScaleParts(qs)[i];
    }
  }

  lemma JoinThree(head: string, middle: seq<string>, tail: string, sep: string)
    requires |middle| > 0
    ensures Join([head] + middle + [tail], sep) == head + sep + Join(middle, sep) + sep + tail
  {
    var parts := [head] + middle + [tail];
    assert parts[0] == head && parts[1..] == middle + [tail];
    assert Join(parts, sep) == head + sep + Join(middle + [tail], sep);
    JoinAppendOne(middle, tail, sep);
  }

  lemma {:induction false} JoinAppendOne(parts: seq<string>, last: string, sep: string)
    requires |parts| > 0
    ensures Join(parts + [last], sep) == Join(parts, sep) + sep + last
  {
    if |parts| == 1 {
      assert parts + [last] == [parts[0], last];
    } else {
      JoinAppendOne(parts[1..], last, sep);
      assert (parts + [last])[1..] == parts[1..] + [last];
    }
  }

  lemma NoSemicolonInNumber(i: int)
    ensures ';' !in IntToString(i)
  {
    if i < 0 {
      assert ';' !in NatToString(-i) by { assert AllDigits(NatToString(-i)); }
    } else {
      assert AllDigits(NatToString(i));
    }
  }

  lemma {:induction false} NoSemicolonInJoin(parts: seq<string>)
    requires forall i :: 0 <= i < |parts| ==> ';' !in parts[i]
    ensures ';' !in Join(parts, "")
  {
    if |parts| > 1 {
      NoSemicolonInJoin(parts[1..]);
    }
  }

  lemma NoSemicolonInHead(n: nat)
    ensures ';' !in VideoHead(n)
  {
    var labels := SplitLabels(n);
    forall i | 0 <= i < n ensures ';' !in labels[i] {
      NoSemicolonInNumber(i);
    }
    NoSemicolonInJoin(labels);
    NoSemicolonInNumber(n);
  }

  lemma NoSemicolonInTail(n: nat)
    ensures ';' !in AudioTail(n)
  {
    var labels := AudioLabels(n);
    forall i | 0 <= i < n ensures ';' !in labels[i] {
      NoSemicolonInNumber(i);
    }
    NoSemicolonInJoin(labels);
    NoSemicolonInNumber(n);
  }

  lemma NoSemicolonInScalePart(i: nat, q: Quality)
    ensures ';' !in ScalePart(i, q)
  {
    NoSemicolonInNumber(i);
    NoSemicolonInNumber(q.width);
    NoSemicolonInNumber(q.height);
  }
}
