/**
 * `EnhancedYouTubeDownloader.enhanced_download_with_fallback`: resolve the
 * link to one video, then try four format tiers in order until one yields
 * metadata, a completed download and an existing output file.
 *
 * The downloader tool is an oracle: given the options of a tier and the URL it
 * is pointed at, it says what the metadata probe returned, whether the
 * download raised, and whether the output path exists afterwards. The driver
 * returns the calls it made, so that what it asked of the tool can be stated.
 */
module FallbackDownload {
  import opened Strings
  import opened VideoIds
  import opened EmbedScan

  // ---------------------------------------------------------------------------
  // Options
  // ---------------------------------------------------------------------------

  /** A value in the tool's option dictionary; `Callbacks` stands for the retry back-off functions. */
  datatype OptValue = Text(text: string) | Number(n: int) | Switch(on: bool) | Callbacks

  type Opts = map<string, OptValue>

  /** `self.ytdl_opts`, set once by the constructor and never updated. */
  const YtdlOpts: Opts := map[
    "quiet" := Switch(false),
    "no_warnings" := Switch(false),
    "extractaudio" := Switch(false),
    "format" := Text("bestvideo[height<=720]+bestaudio/best[height<=720]"),
    "merge_output_format" := Text("mp4"),
    "writesubtitles" := Switch(false),
    "writeautomaticsub" := Switch(false),
    "socket_timeout" := Number(30),
    "retries" := Number(5),
    "fragment_retries" := Number(10),
    "http_chunk_size" := Number(2097152),
    "concurrent_fragments" := Number(6),
    "extractor_retries" := Number(3),
    "retry_sleep_functions" := Callbacks,
    "youtube_include_dash_manifest" := Switch(false),
    "extract_flat" := Switch(false),
    "force_json" := Switch(true),
    "dump_single_json" := Switch(false),
    "simulate" := Switch(false),
    "skip_download" := Switch(false),
    "ignoreerrors" := Switch(true),
    "abort_on_unavailable_fragment" := Switch(false),
    "keep_fragments" := Switch(false)
  ]

  /** One entry of `download_attempts`; `merge` is None where the entry has no merge format. */
  datatype Tier = Tier(format: string, merge: Option<string>, description: string)

  const Tiers: seq<Tier> := [
    Tier("bestvideo[height<=720]+bestaudio/best[height<=720]", Some("mp4"), "Best quality (720p max) with audio merge"),
    Tier("best[height<=720]", None, "Single file best quality (720p max)"),
    Tier("bestvideo[height<=480]+bestaudio/best[height<=480]", Some("mp4"), "Medium quality (480p max) with audio merge"),
    Tier("best", None, "Any available format")
  ]

  /** The options of one tier: a copy of `base` with the format and output template replaced. */
  function TierOptions(base: Opts, tier: Tier, outputPath: string): (opts: Opts)
  {
    var opts := base["format" := Text(tier.format)]["outtmpl" := Text(outputPath)];
    match tier.merge
    case Some(m) => opts["merge_output_format" := Text(m)]
    case None => opts
  }

  /**
   * The format and template are overridden, the merge format is set only from
   * a tier that defines one, and every other entry is the base's.
   */
  lemma TierOptionsOverride(base: Opts, tier: Tier, outputPath: string)
    ensures var opts := TierOptions(base, tier, outputPath);
      && opts["format"] == Text(tier.format)
      && opts["outtmpl"] == Text(outputPath)
      && (tier.merge.Some? ==> opts["merge_output_format"] == Text(tier.merge.value))
      && (tier.merge.None? ==>
            ("merge_output_format" in opts <==> "merge_output_format" in base) &&
            ("merge_output_format" in base ==> opts["merge_output_format"] == base["merge_output_format"]))
      && (forall key :: key != "format" && key != "outtmpl" && key != "merge_output_format" ==>
            (key in opts <==> key in base) && (key in base ==> opts[key] == base[key]))
  {
  }

  /** Since the base options already merge to mp4, every tier does, with or without its own merge entry. */
  lemma EveryTierMergesToMp4(k: nat, outputPath: string)
    requires k < |Tiers|
    ensures TierOptions(YtdlOpts, Tiers[k], outputPath)["merge_output_format"] == Text("mp4")
  {
    TierOptionsOverride(YtdlOpts, Tiers[k], outputPath);
  }

  // ---------------------------------------------------------------------------
  // The tool oracle
  // ---------------------------------------------------------------------------

  /** A metadata entry: missing, present but null, or present with a value. */
  datatype Field<T> = Absent | Null | Present(value: T)

  /** `info.get(key, default)`: None for a present null. */
  function InfoGet<T>(field: Field<T>, default: T): (r: Option<T>)
    ensures field.Null? <==> r.None?
  {
    match field
    case Absent => Some(default)
    case Null => None
    case Present(v) => Some(v)
  }

  datatype Info = Info(title: Field<string>, duration: Field<int>, viewCount: Field<int>)

  /** `extract_info(..., download=False)`: it raised, returned nothing usable, or returned metadata. */
  datatype InfoProbe = ProbeRaised | NoInfo | GotInfo(info: Info)

  /** What the tool does in one tier: the probe, whether `download` raised, whether the path exists after. */
  datatype TierRun = TierRun(probe: InfoProbe, downloadRaised: bool, fileExists: bool)

  type Tool = (Opts, string) -> TierRun

  /** The tool pointed at a URL with a set of options. */
  datatype ToolCall = ToolCall(opts: Opts, url: string)

  /**
   * A tier passes when the probe returned metadata, the view count is not
   * null (formatting a null with `{:,}` raises TypeError), the download did not
   * raise, and the output path exists.
   */
  predicate TierPasses(run: TierRun) {
    run.probe.GotInfo? && !run.probe.info.viewCount.Null? && !run.downloadRaised && run.fileExists
  }

  // ---------------------------------------------------------------------------
  // Results
  // ---------------------------------------------------------------------------

  datatype Download = Download(
    filePath: string, title: Option<string>, duration: Option<int>, viewCount: int, methodLabel: string, videoId: string)

  /** The returned dictionary, or the message of the exception the driver raises. */
  datatype Outcome = Downloaded(download: Download) | Raised(message: string)

  const NoVideosFound: string := "No YouTube videos found on the webpage"
  const NoVideoId: string := "Could not extract video ID from URL"
  const AllAttemptsFailed: string := "All download attempts failed"

  /** `f"Method {i}: {description}"` for the tier at (zero-based) index k. */
  function MethodLabel(k: nat): string
    requires k < |Tiers|
  {
    "Method " + IntToDecimal(k + 1) + ": " + Tiers[k].description
  }

  /** Everything the tier loop depends on once the video is known. */
  datatype Job = Job(outputPath: string, title: string, videoId: string, tool: Tool)

  function CallOf(job: Job, k: nat): ToolCall
    requires k < |Tiers|
  {
    ToolCall(TierOptions(YtdlOpts, Tiers[k], job.outputPath), WatchUrl(job.videoId))
  }

  function RunOf(job: Job, k: nat): TierRun
    requires k < |Tiers|
  {
    job.tool(CallOf(job, k).opts, CallOf(job, k).url)
  }

  /** The dictionary returned when tier k passes. */
  function SuccessOf(job: Job, k: nat): Download
    requires k < |Tiers| && TierPasses(RunOf(job, k))
  {
    var info := RunOf(job, k).probe.info;
    Download(job.outputPath, InfoGet(info.title, job.title), InfoGet(info.duration, 0),
             InfoGet(info.viewCount, 0).value, MethodLabel(k), job.videoId)
  }

  /** The tiers from k on: the outcome and the calls made, in order. */
  function Attempts(job: Job, k: nat): (Outcome, seq<ToolCall>)
    requires k <= |Tiers|
    decreases |Tiers| - k
  {
    if k == |Tiers| then (Raised(AllAttemptsFailed), [])
    else if TierPasses(RunOf(job, k)) then (Downloaded(SuccessOf(job, k)), [CallOf(job, k)])
    else
      var rest := Attempts(job, k + 1);
      (rest.0, [CallOf(job, k)] + rest.1)
  }

  /** From tier k on, the calls go to consecutive tiers, and every tier before the last one tried failed. */
  lemma {:induction false} AttemptsCalls(job: Job, k: nat)
    requires k < |Tiers|
    ensures var calls := Attempts(job, k).1;
      && 1 <= |calls| <= |Tiers| - k
      && (forall j :: 0 <= j < |calls| ==> calls[j] == CallOf(job, k + j))
      && (forall i :: k <= i < k + |calls| - 1 ==> !TierPasses(RunOf(job, i)))
    decreases |Tiers| - k
  {
    if !TierPasses(RunOf(job, k)) && k + 1 < |Tiers| {
      AttemptsCalls(job, k + 1);
      var rest := Attempts(job, k + 1).1;
      var calls := [CallOf(job, k)] + rest;
      assert Attempts(job, k).1 == calls;
      forall j | 1 <= j < |calls|
        ensures calls[j] == CallOf(job, k + j)
      {
        assert calls[j] == rest[j - 1];
      }
    }
  }

  /** From tier k on, the outcome is the last tried tier's dictionary when it passed, and the final exception otherwise. */
  lemma {:induction false} AttemptsOutcome(job: Job, k: nat)
    requires k < |Tiers|
    ensures var (outcome, calls) := Attempts(job, k);
      && (outcome.Downloaded? <==> TierPasses(RunOf(job, k + |calls| - 1)))
      && (outcome.Downloaded? ==> outcome.download == SuccessOf(job, k + |calls| - 1))
      && (outcome.Raised? ==> outcome.message == AllAttemptsFailed && k + |calls| == |Tiers|)
    decreases |Tiers| - k
  {
    if !TierPasses(RunOf(job, k)) && k + 1 < |Tiers| {
      AttemptsOutcome(job, k + 1);
      var rest := Attempts(job, k + 1);
      assert Attempts(job, k) == (rest.0, [CallOf(job, k)] + rest.1);
    }
  }

  /**
   * From tier k on, the tiers are tried in list order, each once, until the
   * first that passes; the outcome is that tier's dictionary, or the final
   * exception when none passes.
   */
  lemma AttemptsInOrder(job: Job, k: nat)
    requires k < |Tiers|
    ensures var (outcome, calls) := Attempts(job, k);
      && 1 <= |calls| <= |Tiers| - k
      && (forall j :: 0 <= j < |calls| ==> calls[j] == CallOf(job, k + j))
      && (forall i :: k <= i < k + |calls| - 1 ==> !TierPasses(RunOf(job, i)))
      && (outcome.Downloaded? <==> TierPasses(RunOf(job, k + |calls| - 1)))
      && (outcome.Downloaded? ==> outcome.download == SuccessOf(job, k + |calls| - 1))
      && (outcome.Raised? ==> outcome.message == AllAttemptsFailed && k + |calls| == |Tiers|)
  {
    AttemptsCalls(job, k);
    AttemptsOutcome(job, k);
  }

  /** A dictionary from the tier loop names the output path and the label of the last tier tried. */
  lemma AttemptsDownloadFields(job: Job)
    ensures var (outcome, calls) := Attempts(job, 0);
      && 1 <= |calls| <= |Tiers|
      && (outcome.Downloaded? ==>
            outcome.download.filePath == job.outputPath && outcome.download.methodLabel == MethodLabel(|calls| - 1))
  {
    AttemptsInOrder(job, 0);
  }

  /** The first passing tier decides the outcome; the tiers after it are never tried. */
  lemma FirstPassingTierWins(job: Job, k: nat)
    requires k < |Tiers| && TierPasses(RunOf(job, k))
    requires forall j :: 0 <= j < k ==> !TierPasses(RunOf(job, j))
    ensures Attempts(job, 0).0 == Downloaded(SuccessOf(job, k))
    ensures Attempts(job, 0).0.download.filePath == job.outputPath
    ensures Attempts(job, 0).0.download.methodLabel == MethodLabel(k)
    ensures |Attempts(job, 0).1| == k + 1
  {
    AttemptsInOrder(job, 0);
  }

  /** When no tier passes, all four are tried and the driver raises. */
  lemma NoPassingTierFails(job: Job)
    requires forall j :: 0 <= j < |Tiers| ==> !TierPasses(RunOf(job, j))
    ensures Attempts(job, 0).0 == Raised(AllAttemptsFailed)
    ensures |Attempts(job, 0).1| == |Tiers|
  {
    AttemptsInOrder(job, 0);
  }

  // ---------------------------------------------------------------------------
  // The driver
  // ---------------------------------------------------------------------------

  /** The page scan finds nothing: the fetch failed, the scan raised, or no candidate was kept. */
  predicate NothingEmbedded(fetch: FetchResult) {
    |Candidates(fetch)| == 0
  }

  lemma WatchUrlOfIsWatchUrl(u: string)
    requires IsWatchUrl(u)
    ensures u == WatchUrl(u[|WatchPrefix|..]) && ExtractVideoId(u) == Some(u[|WatchPrefix|..])
  {
    ExtractVideoIdOfWatchUrl(u[|WatchPrefix|..]);
  }

  /**
   * One tier of the loop: build its options, call the tool, and return the
   * dictionary when the probe, the view-count log line, the download and the
   * existence test all go through.
   */
  method RunTier(job: Job, i: nat) returns (call: ToolCall, passed: bool, d: Download)
    requires i < |Tiers|
    ensures call == CallOf(job, i)
    ensures passed == TierPasses(RunOf(job, i))
    ensures passed ==> d == SuccessOf(job, i)
  {
    var tier := Tiers[i];
    var opts := YtdlOpts["format" := Text(tier.format)]["outtmpl" := Text(job.outputPath)];
    if tier.merge.Some? {
      opts := opts["merge_output_format" := Text(tier.merge.value)];
    }
    call := ToolCall(opts, WatchUrl(job.videoId));
    var run := job.tool(opts, call.url);
    passed, d := false, Download(job.outputPath, None, None, 0, "", job.videoId);
    if run.probe.GotInfo? {
      var info := run.probe.info;
      var videoTitle := InfoGet(info.title, job.title);
      var duration := InfoGet(info.duration, 0);
      // Logging the view count with a thousands separator raises for a null.
      if !info.viewCount.Null? {
        var viewCount := InfoGet(info.viewCount, 0).value;
        if !run.downloadRaised && run.fileExists {
          passed := true;
          d := Download(job.outputPath, videoTitle, duration, viewCount,
                        "Method " + IntToDecimal(i + 1) + ": " + tier.description, job.videoId);
        }
      }
    }
  }

  /** A failing tier adds its call in front of those of the tiers after it. */
  lemma AttemptsAfterFailure(job: Job, i: nat, before: seq<ToolCall>)
    requires i < |Tiers| && !TierPasses(RunOf(job, i))
    ensures (Attempts(job, i).0, before + Attempts(job, i).1) ==
      (Attempts(job, i + 1).0, (before + [CallOf(job, i)]) + Attempts(job, i + 1).1)
  {
    assert before + [CallOf(job, i)] + Attempts(job, i + 1).1 == before + ([CallOf(job, i)] + Attempts(job, i + 1).1);
  }

  /** The tier loop for a resolved video: each tier's options, one probe, one download, one existence check. */
  method DownloadTiers(outputPath: string, title: string, videoId: string, tool: Tool)
    returns (outcome: Outcome, calls: seq<ToolCall>)
    ensures (outcome, calls) == Attempts(Job(outputPath, title, videoId, tool), 0)
  {
    var job := Job(outputPath, title, videoId, tool);
    calls := [];
    assert calls + Attempts(job, 0).1 == Attempts(job, 0).1;
    var i := 0;
    while i < |Tiers|
      invariant 0 <= i <= |Tiers|
      invariant Attempts(job, 0) == (Attempts(job, i).0, calls + Attempts(job, i).1)
    {
      var call, passed, d := RunTier(job, i);
      if passed {
        outcome, calls := Downloaded(d), calls + [call];
        return;
      }
      AttemptsAfterFailure(job, i, calls);
      calls := calls + [call];
      i := i + 1;
    }
    assert calls + Attempts(job, i).1 == calls;
    outcome := Raised(AllAttemptsFailed);
  }

  /** Every call of the tier loop points the tool at the canonical URL of the video. */
  lemma AttemptsUseWatchUrl(job: Job)
    requires IsVideoId(job.videoId)
    ensures forall c :: c in Attempts(job, 0).1 ==> c.url == WatchUrl(job.videoId) && IsWatchUrl(c.url)
  {
    AttemptsInOrder(job, 0);
    assert WatchUrl(job.videoId)[|WatchPrefix|..] == job.videoId;
  }

  /** The video the driver settles on before any tier runs, or the message it raises. */
  datatype Resolution = Resolved(videoId: string) | Unresolved(message: string)

  /**
   * The checks before the tiers: a link that is not a YouTube URL is treated
   * as a web page (`fetch` is what fetching it gives) and its first embedded
   * video is used; then the identifier must be extractable.
   */
  method ResolveVideo(url: string, fetch: FetchResult) returns (r: Resolution)
    ensures IsYouTubeUrl(url) ==>
      r == (if ExtractVideoId(url).Some? then Resolved(ExtractVideoId(url).value) else Unresolved(NoVideoId))
    ensures !IsYouTubeUrl(url) && NothingEmbedded(fetch) ==> r == Unresolved(NoVideosFound)
    ensures !IsYouTubeUrl(url) && !NothingEmbedded(fetch) ==>
      r.Resolved? && WatchUrl(r.videoId) in Candidates(fetch)
    ensures r.Resolved? ==> IsVideoId(r.videoId)
  {
    var target := url;
    if !IsYouTubeUrl(url) {
      var embedded := ExtractEmbeddedYoutubeUrls(fetch);
      if |embedded| == 0 {
        return Unresolved(NoVideosFound);
      }
      target := embedded[0];
      WatchUrlOfIsWatchUrl(target);
    }
    var videoId := ExtractVideoId(target);
    if videoId.None? {
      return Unresolved(NoVideoId);
    }
    r := Resolved(videoId.value);
  }

  /**
   * `enhanced_download_with_fallback(url, output_path, title)`: the tool is
   * only ever pointed at the canonical watch URL of the resolved video.
   */
  method EnhancedDownloadWithFallback(url: string, outputPath: string, title: string, fetch: FetchResult, tool: Tool)
    returns (outcome: Outcome, calls: seq<ToolCall>)
    ensures IsYouTubeUrl(url) && ExtractVideoId(url).None? ==> outcome == Raised(NoVideoId) && calls == []
    ensures IsYouTubeUrl(url) && ExtractVideoId(url).Some? ==>
      (outcome, calls) == Attempts(Job(outputPath, title, ExtractVideoId(url).value, tool), 0)
    ensures !IsYouTubeUrl(url) && NothingEmbedded(fetch) ==> outcome == Raised(NoVideosFound) && calls == []
    ensures !IsYouTubeUrl(url) && !NothingEmbedded(fetch) ==>
      exists id :: IsVideoId(id) && WatchUrl(id) in Candidates(fetch) &&
        (outcome, calls) == Attempts(Job(outputPath, title, id, tool), 0)
    ensures forall c :: c in calls ==> IsWatchUrl(c.url)
  {
    var resolution := ResolveVideo(url, fetch);
    if resolution.Unresolved? {
      return Raised(resolution.message), [];
    }
    outcome, calls := DownloadTiers(outputPath, title, resolution.videoId, tool);
    AttemptsUseWatchUrl(Job(outputPath, title, resolution.videoId, tool));
  }
}
