/**
 * `TelegramBotIntegration`: turns a link a user sends into a reply. A YouTube
 * link is downloaded at once; any other link is treated as a web page whose
 * embedded videos are downloaded (exactly one) or listed (several, at most
 * ten). Replies are either a result record or a text starting with a cross
 * mark.
 */
module BotIntegration {
  import opened Strings
  import opened VideoIds
  import opened EmbedScan
  import opened FallbackDownload
  import opened VideoInfo

  // ---------------------------------------------------------------------------
  // How values are rendered inside the reply texts
  // ---------------------------------------------------------------------------

  /** `str(x)` for a text that may be None. */
  function PyStr(o: Option<string>): string {
    match o
    case Some(s) => s
    case None => "None"
  }

  /** `f"{n:02d}"` for 0 <= n < 100: two digits, zero-padded. */
  function ZeroPad2(n: nat): (r: string)
    requires n < 100
    ensures |r| == 2 && AllDigits(r) && ParseDigits(r) == n
  {
    if n < 10 then
      assert ParseDigits("0") == 0 by { assert "0"[..0] == ""; }
      assert ("0" + [DigitChar(n)])[..1] == "0";
      "0" + [DigitChar(n)]
    else
      ParseNatToDecimal(n);
      NatToDecimal(n)
  }

  /**
   * `f"{d//60}:{d%60:02d}"`. Python's `//` and `%` by a positive divisor
   * floor, which is what Dafny's Euclidean `/` and `%` do there too, so a
   * negative duration renders as Python renders it.
   */
  function DurationText(d: int): string {
    IntToDecimal(d / 60) + ":" + ZeroPad2(d % 60)
  }

  /** Reads "m:ss" back as a number of seconds. */
  function ParseDuration(t: string): Option<int> {
    match SplitFirst(t, ":")
    case None => None
    case Some(parts) =>
      match ParseInt(parts.0)
      case None => None
      case Some(m) =>
        if |parts.1| == 2 && AllDigits(parts.1) then Some(m * 60 + ParseDigits(parts.1)) else None
  }

  /** The rendered duration reads back as the same number of seconds. */
  lemma DurationTextRoundTrip(d: int)
    ensures ParseDuration(DurationText(d)) == Some(d)
  {
    var m := IntToDecimal(d / 60);
    var sec := ZeroPad2(d % 60);
    forall i | 0 <= i < |m|
      ensures !StartsWith((m + ":" + sec)[i..], ":")
    {
      assert (m + ":" + sec)[i..][0] == m[i];
    }
    SplitFirstOfConcat(m, ":", sec);
    IntToDecimalRoundTrip(d / 60);
  }

  /** Three digits, zero-padded: one thousands group. */
  function Pad3(k: nat): (r: string)
    requires k < 1000
    ensures |r| == 3 && AllDigits(r)
  {
    [DigitChar(k / 100), DigitChar(k / 10 % 10), DigitChar(k % 10)]
  }

  function GroupedNat(n: nat): (r: string)
    ensures |r| > 0
    decreases n
  {
    if n < 1000 then NatToDecimal(n) else GroupedNat(n / 1000) + "," + Pad3(n % 1000)
  }

  /** `f"{n:,}"`: the decimal digits with a ',' between groups of three. */
  function Grouped(i: int): string {
    if i < 0 then "-" + GroupedNat(-i) else GroupedNat(i)
  }

  /** `s.replace(",", "")`. */
  function DropCommas(s: string): (r: string)
    decreases |s|
  {
    if |s| == 0 then ""
    else if s[0] == ',' then DropCommas(s[1..])
    else [s[0]] + DropCommas(s[1..])
  }

  lemma {:induction false} DropCommasConcat(a: string, b: string)
    ensures DropCommas(a + b) == DropCommas(a) + DropCommas(b)
    decreases |a|
  {
    if |a| == 0 {
      assert a + b == b;
    } else {
      assert (a + b)[1..] == a[1..] + b;
      DropCommasConcat(a[1..], b);
    }
  }

  lemma {:induction false} DropCommasOfDigits(s: string)
    requires AllDigits(s)
    ensures DropCommas(s) == s
    decreases |s|
  {
    if |s| > 0 {
      DropCommasOfDigits(s[1..]);
    }
  }

  /** Peeling three digits off the decimal text at once. */
  lemma NatToDecimalThousands(n: nat)
    requires n >= 1000
    ensures NatToDecimal(n) == NatToDecimal(n / 1000) + Pad3(n % 1000)
  {
    var q, r := n / 1000, n % 1000;
    assert n == 1000 * q + r;
    assert n / 10 == 100 * q + r / 10;
    assert n % 10 == r % 10;
    assert n / 10 / 10 == 10 * q + r / 100;
    assert n / 10 % 10 == r / 10 % 10;
    assert n / 10 / 10 / 10 == q;
    assert n / 10 / 10 % 10 == r / 100;
    calc {
      NatToDecimal(n);
      NatToDecimal(n / 10) + [DigitChar(n % 10)];
      NatToDecimal(n / 10 / 10) + [DigitChar(n / 10 % 10)] + [DigitChar(n % 10)];
      NatToDecimal(q) + [DigitChar(r / 100)] + [DigitChar(r / 10 % 10)] + [DigitChar(r % 10)];
      NatToDecimal(q) + Pad3(r);
    }
  }

  lemma {:induction false} GroupedNatDigits(n: nat)
    ensures DropCommas(GroupedNat(n)) == NatToDecimal(n)
    decreases n
  {
    if n < 1000 {
      DropCommasOfDigits(NatToDecimal(n));
    } else {
      GroupedNatDigits(n / 1000);
      DropCommasConcat(GroupedNat(n / 1000) + ",", Pad3(n % 1000));
      DropCommasConcat(GroupedNat(n / 1000), ",");
      assert DropCommas(",") == "";
      DropCommasOfDigits(Pad3(n % 1000));
      NatToDecimalThousands(n);
    }
  }

  /** Removing the separators from the grouped text and parsing it gives the number back. */
  lemma GroupedRoundTrip(i: int)
    ensures DropCommas(Grouped(i)) == IntToDecimal(i)
    ensures ParseInt(DropCommas(Grouped(i))) == Some(i)
  {
    if i < 0 {
      GroupedNatDigits(-i);
      DropCommasConcat("-", GroupedNat(-i));
    } else {
      GroupedNatDigits(i);
    }
    IntToDecimalRoundTrip(i);
  }

  /** `os.path.basename(p)`: the text after the last '/'. */
  function Basename(p: string): (r: string)
    ensures '/' !in r
    ensures |r| <= |p| && p[|p| - |r|..] == r
    decreases |p|
  {
    if |p| == 0 || p[|p| - 1] == '/' then ""
    else
      var init := Basename(p[..|p| - 1]);
      assert p[..|p| - 1][|p| - 1 - |init|..] == p[|p| - 1 - |init|..|p| - 1];
      init + [p[|p| - 1]]
  }

  /** The base name of `dir/name` is `name` when `name` holds no '/'. */
  lemma BasenameOfJoin(dir: string, name: string)
    requires '/' !in name
    ensures Basename(dir + "/" + name) == name
  {
    BasenameAfterSlash(dir + "/", name);
  }

  /** What follows a final '/' and holds none is the base name. */
  lemma {:induction false} BasenameAfterSlash(head: string, name: string)
    requires |head| > 0 && head[|head| - 1] == '/' && '/' !in name
    ensures Basename(head + name) == name
    decreases |name|
  {
    if |name| > 0 {
      var init, last := name[..|name| - 1], name[|name| - 1];
      assert '/' !in init by {
        assert forall c :: c in init ==> c in name;
      }
      BasenameAfterSlash(head, init);
      assert head + name == (head + init) + [last] by {
        assert name == init + [last];
      }
      BasenameSnoc(head + init, last);
    } else {
      assert head + name == head;
    }
  }

  /** Appending a character other than '/' appends it to the base name. */
  lemma BasenameSnoc(q: string, c: char)
    requires c != '/'
    ensures Basename(q + [c]) == Basename(q) + [c]
  {
    assert (q + [c])[..|q|] == q;
  }

  // ---------------------------------------------------------------------------
  // Output paths
  // ---------------------------------------------------------------------------

  const DownloadsDir: string := "downloads"

  /** `f"{video_id}_{user_id}.%(ext)s"`: the tool's output template, extension left open. */
  function FileTemplate(videoId: Option<string>, userId: int): string {
    PyStr(videoId) + "_" + IntToDecimal(userId) + ".%(ext)s"
  }

  /** `os.path.join(self.downloads_dir, template)`. */
  function OutputPath(videoId: Option<string>, userId: int): string {
    DownloadsDir + "/" + FileTemplate(videoId, userId)
  }

  /**
   * The file name a success reply shows is the output template itself, with
   * "%(ext)s" still in it, not the name of the file the tool wrote.
   */
  lemma ReportedFileName(videoId: Option<string>, userId: int)
    requires videoId.Some? ==> IsVideoId(videoId.value)
    ensures Basename(OutputPath(videoId, userId)) == FileTemplate(videoId, userId)
  {
    var t := FileTemplate(videoId, userId);
    assert '/' !in PyStr(videoId) by {
      if videoId.Some? {
        assert forall i :: 0 <= i < |videoId.value| ==> IsIdChar(videoId.value[i]);
      }
    }
    assert '/' !in IntToDecimal(userId) by {
      var d := IntToDecimal(userId);
      assert forall i :: 0 <= i < |d| ==> d[i] == '-' || IsDigit(d[i]);
    }
    assert forall c :: c in t ==> c in PyStr(videoId) || c in "_" || c in IntToDecimal(userId) || c in ".%(ext)s";
    BasenameOfJoin(DownloadsDir, t);
  }

  // ---------------------------------------------------------------------------
  // Replies
  // ---------------------------------------------------------------------------

  /** What a handler returns: a result record or a text for the user. */
  datatype Reply =
    | VideoDownload(filePath: string, title: Option<string>, infoText: string, methodLabel: string)
    | SingleEmbeddedVideo(filePath: string, title: Option<string>, methodLabel: string)
    | MultipleEmbeddedVideos(total: nat, videosList: string, youtubeUrls: seq<string>)
    | Message(text: string)

  const DownloadErrorPrefix: string := "\U{274C} Download error: "
  const WebpageErrorPrefix: string := "\U{274C} Error analyzing webpage: "
  const NoVideosOnWebpage: string :=
    "\U{274C} No YouTube videos found on this webpage. Please check the URL and try again."
  /** `str(e)` for `None // 60`. */
  const NullDurationError: string := "unsupported operand type(s) for //: 'NoneType' and 'int'"

  /** The headings of the summary's lines. */
  const SuccessHeading: string := "\n\U{2705} **Download Successful!**\n"
  const TitleHeading: string := "\n\U{1F4F9} **Title:** "
  const DurationHeading: string := "\n\U{23F1}\U{FE0F} **Duration:** "
  const ViewsHeading: string := "\n\U{1F440} **Views:** "
  const MethodHeading: string := "\n\U{1F3AF} **Method:** "
  const FileHeading: string := "\n\U{1F4BE} **File:** "

  /** The multi-line summary of a completed download. */
  function InfoText(d: Download): string
    requires d.duration.Some?
  {
    SuccessHeading
    + (TitleHeading + PyStr(d.title))
    + (DurationHeading + DurationText(d.duration.value))
    + (ViewsHeading + Grouped(d.viewCount))
    + (MethodHeading + d.methodLabel)
    + (FileHeading + Basename(d.filePath) + "\n")
  }

  /** The summary shows the title, the m:ss duration, the grouped view count, the tier's label and the file's base name, each after its own heading. */
  lemma InfoTextFields(d: Download)
    requires d.duration.Some?
    ensures Contains(InfoText(d), TitleHeading + PyStr(d.title))
    ensures Contains(InfoText(d), DurationHeading + DurationText(d.duration.value))
    ensures Contains(InfoText(d), ViewsHeading + Grouped(d.viewCount))
    ensures Contains(InfoText(d), MethodHeading + d.methodLabel)
    ensures Contains(InfoText(d), FileHeading + Basename(d.filePath) + "\n")
  {
    var title := TitleHeading + PyStr(d.title);
    var duration := DurationHeading + DurationText(d.duration.value);
    var views := ViewsHeading + Grouped(d.viewCount);
    var tierLine := MethodHeading + d.methodLabel;
    var file := FileHeading + Basename(d.filePath) + "\n";
    var t2 := SuccessHeading + title;
    var t4 := t2 + duration;
    var t6 := t4 + views;
    var t8 := t6 + tierLine;
    assert InfoText(d) == t8 + file;
    ContainsSuffix(SuccessHeading, title);
    ContainsConcatLeft(t2, duration, title);
    ContainsConcatLeft(t4, views, title);
    ContainsConcatLeft(t6, tierLine, title);
    ContainsConcatLeft(t8, file, title);
    ContainsSuffix(t2, duration);
    ContainsConcatLeft(t4, views, duration);
    ContainsConcatLeft(t6, tierLine, duration);
    ContainsConcatLeft(t8, file, duration);
    ContainsSuffix(t4, views);
    ContainsConcatLeft(t6, tierLine, views);
    ContainsConcatLeft(t8, file, views);
    ContainsSuffix(t6, tierLine);
    ContainsConcatLeft(t8, file, tierLine);
    ContainsSuffix(t8, file);
  }

  /**
   * The reply of `_download_single_video` for the downloader's outcome. The
   * downloader raises rather than returning a failure, so its message is
   * reported as a download error; a null duration makes the summary's `//`
   * raise, which is reported the same way.
   */
  function SingleVideoReply(outcome: Outcome): (r: Reply)
    ensures outcome.Raised? ==> r == Message(DownloadErrorPrefix + outcome.message)
    ensures r.VideoDownload? <==> outcome.Downloaded? && outcome.download.duration.Some?
    ensures r.VideoDownload? ==> r.filePath == outcome.download.filePath && r.methodLabel == outcome.download.methodLabel
  {
    match outcome
    case Raised(m) => Message(DownloadErrorPrefix + m)
    case Downloaded(d) =>
      if d.duration.None? then Message(DownloadErrorPrefix + NullDurationError)
      else VideoDownload(d.filePath, d.title, InfoText(d), d.methodLabel)
  }

  /** The reply for the single video of a page; the downloader's exception reaches the page handler's own handler. */
  function EmbeddedReply(outcome: Outcome): (r: Reply)
    ensures outcome.Raised? ==> r == Message(WebpageErrorPrefix + outcome.message)
    ensures r.SingleEmbeddedVideo? <==> outcome.Downloaded?
    ensures r.SingleEmbeddedVideo? ==> r.filePath == outcome.download.filePath && r.methodLabel == outcome.download.methodLabel
  {
    match outcome
    case Raised(m) => Message(WebpageErrorPrefix + m)
    case Downloaded(d) => SingleEmbeddedVideo(d.filePath, d.title, d.methodLabel)
  }

  // ---------------------------------------------------------------------------
  // The listing of several embedded videos
  // ---------------------------------------------------------------------------

  const MaxListed: nat := 10

  /** `youtube_urls[:10]`. */
  function Shown(urls: seq<string>): (r: seq<string>)
    ensures |r| <= MaxListed && r <= urls
    ensures |urls| <= MaxListed ==> r == urls
  {
    if |urls| <= MaxListed then urls else urls[..MaxListed]
  }

  /** The preview of a canonical URL: what `get_video_info_only` returns for it. */
  function InfoOf(u: string, probe: Prober): InfoResult
    requires IsWatchUrl(u)
  {
    ProbeResult(probe(InfoOpts, u), u[|WatchPrefix|..])
  }

  /**
   * The line for the i-th video (numbered from 1): nothing when the preview
   * failed; a placeholder when the duration is null (its `//` raises inside
   * the loop's own handler); otherwise "i. title (m:ss)".
   */
  function VideoLine(i: nat, info: InfoResult): (lines: seq<string>)
    ensures |lines| <= 1
    ensures |lines| == 1 <==> info.InfoFound?
    ensures |lines| == 1 ==> StartsWith(lines[0], IntToDecimal(i) + ". ")
  {
    if info.InfoFailed? then []
    else if info.duration.None? then [IntToDecimal(i) + ". " + ("Video " + IntToDecimal(i) + " (info unavailable)")]
    else [IntToDecimal(i) + ". " + (PyStr(info.title) + " (" + DurationText(info.duration.value) + ")")]
  }

  /** The lines for the shown URLs, in order, numbered by position. */
  function Listing(shown: seq<string>, probe: Prober): seq<string>
    requires AllWatchUrls(shown)
    decreases |shown|
  {
    if |shown| == 0 then []
    else Listing(shown[..|shown| - 1], probe) + VideoLine(|shown|, InfoOf(shown[|shown| - 1], probe))
  }

  /** The positions (from 1) of the entries of xs that pass ok, in order. */
  function Hits(ok: string -> bool, xs: seq<string>): seq<nat>
    decreases |xs|
  {
    if |xs| == 0 then []
    else Hits(ok, xs[..|xs| - 1]) + (if ok(xs[|xs| - 1]) then [|xs|] else [])
  }

  /** Every hit is the position of an entry that passes. */
  lemma {:induction false} HitsPass(ok: string -> bool, xs: seq<string>)
    ensures forall j :: 0 <= j < |Hits(ok, xs)| ==> 1 <= Hits(ok, xs)[j] <= |xs| && ok(xs[Hits(ok, xs)[j] - 1])
    decreases |xs|
  {
    if |xs| > 0 {
      var n := |xs|;
      var init := xs[..n - 1];
      var p0, pos := Hits(ok, init), Hits(ok, xs);
      HitsPass(ok, init);
      forall j | 0 <= j < |pos|
        ensures 1 <= pos[j] <= n && ok(xs[pos[j] - 1])
      {
        if j < |p0| {
          assert pos[j] == p0[j] && xs[p0[j] - 1] == init[p0[j] - 1];
        } else {
          assert pos[j] == n;
        }
      }
    }
  }

  /** Whether u is a canonical URL whose preview succeeds. */
  function PreviewOk(probe: Prober): string -> bool {
    u => IsWatchUrl(u) && InfoOf(u, probe).InfoFound?
  }

  /** The positions (from 1) of the shown URLs that contribute a line. */
  function ListedPositions(shown: seq<string>, probe: Prober): seq<nat> {
    Hits(PreviewOk(probe), shown)
  }

  /**
   * Lines numbered by increasing positions in 1..bound: one position per
   * line, and each line begins with its position and ". ".
   */
  predicate Numbered(lines: seq<string>, pos: seq<nat>, bound: nat) {
    && |lines| == |pos| <= bound
    && (forall j :: 0 <= j < |pos| ==> 1 <= pos[j] <= bound)
    && (forall j, k :: 0 <= j < k < |pos| ==> pos[j] < pos[k])
    && (forall j :: 0 <= j < |lines| ==> StartsWith(lines[j], IntToDecimal(pos[j]) + ". "))
  }

  /** Appending at most one line numbered n keeps a numbering below n numbered. */
  lemma NumberedSnoc(lines: seq<string>, pos: seq<nat>, n: nat, line: seq<string>, p: seq<nat>)
    requires 1 <= n && Numbered(lines, pos, n - 1)
    requires |line| == |p| <= 1
    requires |p| == 1 ==> p[0] == n && StartsWith(line[0], IntToDecimal(n) + ". ")
    ensures Numbered(lines + line, pos + p, n)
  {
    var ls, ps := lines + line, pos + p;
    assert forall j :: 0 <= j < |pos| ==> ps[j] == pos[j] && ls[j] == lines[j];
    assert |p| == 1 ==> ps[|pos|] == n && ls[|pos|] == line[0];
    assert forall j :: 0 <= j < |ps| ==> 1 <= ps[j] <= n;
    assert forall j, k :: 0 <= j < k < |ps| ==> ps[j] < ps[k];
  }

  /** The listing's lines are numbered by the listed positions. */
  lemma {:induction false} ListingIsNumbered(shown: seq<string>, probe: Prober)
    requires AllWatchUrls(shown)
    ensures Numbered(Listing(shown, probe), ListedPositions(shown, probe), |shown|)
    decreases |shown|
  {
    if |shown| > 0 {
      var init := shown[..|shown| - 1];
      var n := |shown|;
      ListingIsNumbered(init, probe);
      var info := InfoOf(shown[n - 1], probe);
      var p: seq<nat> := if info.InfoFound? then [n] else [];
      NumberedSnoc(Listing(init, probe), ListedPositions(init, probe), n, VideoLine(n, info), p);
    }
  }

  /** Every listed position is that of a video whose preview succeeded. */
  lemma ListedPositionsFound(shown: seq<string>, probe: Prober)
    requires AllWatchUrls(shown)
    ensures forall j :: 0 <= j < |ListedPositions(shown, probe)| ==>
      1 <= ListedPositions(shown, probe)[j] <= |shown| &&
      InfoOf(shown[ListedPositions(shown, probe)[j] - 1], probe).InfoFound?
  {
    HitsPass(PreviewOk(probe), shown);
  }

  /**
   * The listing holds one line per video whose preview succeeded, in page
   * order; each line begins with the video's position among the shown ones,
   * so positions of failed previews are skipped, not renumbered.
   */
  lemma ListingNumbered(shown: seq<string>, probe: Prober)
    requires AllWatchUrls(shown)
    ensures var lines, pos := Listing(shown, probe), ListedPositions(shown, probe);
      && |lines| == |pos| <= |shown|
      && (forall j :: 0 <= j < |pos| ==> 1 <= pos[j] <= |shown| && InfoOf(shown[pos[j] - 1], probe).InfoFound?)
      && (forall j, k :: 0 <= j < k < |pos| ==> pos[j] < pos[k])
      && (forall j :: 0 <= j < |lines| ==> StartsWith(lines[j], IntToDecimal(pos[j]) + ". "))
  {
    ListingIsNumbered(shown, probe);
    ListedPositionsFound(shown, probe);
  }

  /** When every preview succeeds, every shown video gets a line. */
  lemma {:induction false} ListingComplete(shown: seq<string>, probe: Prober)
    requires AllWatchUrls(shown)
    requires forall u :: u in shown ==> InfoOf(u, probe).InfoFound?
    ensures |Listing(shown, probe)| == |shown|
    decreases |shown|
  {
    if |shown| > 0 {
      assert shown[|shown| - 1] in shown;
      ListingComplete(shown[..|shown| - 1], probe);
    }
  }

  // ---------------------------------------------------------------------------
  // The handlers
  // ---------------------------------------------------------------------------

  /** What `_download_single_video(url, user_id)` replies for a YouTube link, and the tool calls it makes. */
  predicate SingleVideoHandled(url: string, userId: int, tool: Tool, reply: Reply, calls: seq<ToolCall>) {
    match ExtractVideoId(url)
    case None => reply == Message(DownloadErrorPrefix + NoVideoId) && calls == []
    case Some(id) =>
      var (outcome, tried) := Attempts(Job(OutputPath(Some(id), userId), "video_" + id, id, tool), 0);
      reply == SingleVideoReply(outcome) && calls == tried
  }

  /**
   * What `_handle_webpage_with_videos(url, user_id)` replies for a page whose
   * scan gave `urls`, and the tool calls it makes.
   */
  predicate WebpageHandled(urls: seq<string>, userId: int, tool: Tool, probe: Prober, reply: Reply, calls: seq<ToolCall>)
    requires AllWatchUrls(urls)
  {
    if |urls| == 0 then
      reply == Message(NoVideosOnWebpage) && calls == []
    else if |urls| == 1 then
      assert urls[0] in urls;
      var id := urls[0][|WatchPrefix|..];
      var (outcome, tried) := Attempts(Job(OutputPath(Some(id), userId), "embedded_video_" + id, id, tool), 0);
      reply == EmbeddedReply(outcome) && calls == tried
    else
      reply == MultipleEmbeddedVideos(|urls|, Join(Listing(Shown(urls), probe), "\n"), Shown(urls)) && calls == []
  }

  /** The scan's list: the page's candidates, each once, in an order the model leaves open. */
  ghost predicate ScannedFrom(urls: seq<string>, fetch: FetchResult) {
    && NoDuplicates(urls)
    && (forall u :: u in urls <==> u in Candidates(fetch))
    && AllWatchUrls(urls)
  }

  /**
   * A download reply points at the output template: its path is the one
   * built from the video and the user, the file it shows is the template with
   * "%(ext)s" unexpanded, and its method is that of the last tier tried.
   */
  lemma SuccessReplyNamesTemplate(url: string, userId: int, tool: Tool, reply: Reply, calls: seq<ToolCall>)
    requires SingleVideoHandled(url, userId, tool, reply, calls) && reply.VideoDownload?
    ensures ExtractVideoId(url).Some?
    ensures reply.filePath == OutputPath(ExtractVideoId(url), userId)
    ensures Basename(reply.filePath) == FileTemplate(ExtractVideoId(url), userId)
    ensures 1 <= |calls| <= |Tiers| && reply.methodLabel == MethodLabel(|calls| - 1)
  {
    DownloadReplyOfId(ExtractVideoId(url).value, userId, tool, reply, calls);
  }

  /** The same, for the reply built from the tier loop on a known identifier. */
  lemma DownloadReplyOfId(id: string, userId: int, tool: Tool, reply: Reply, calls: seq<ToolCall>)
    requires IsVideoId(id) && reply.VideoDownload?
    requires var (outcome, tried) := Attempts(Job(OutputPath(Some(id), userId), "video_" + id, id, tool), 0);
      reply == SingleVideoReply(outcome) && calls == tried
    ensures reply.filePath == OutputPath(Some(id), userId)
    ensures Basename(reply.filePath) == FileTemplate(Some(id), userId)
    ensures 1 <= |calls| <= |Tiers| && reply.methodLabel == MethodLabel(|calls| - 1)
  {
    AttemptsDownloadFields(Job(OutputPath(Some(id), userId), "video_" + id, id, tool));
    ReportedFileName(Some(id), userId);
  }

  /**
   * A listing reply reports how many videos the page has, carries the first
   * ten of them (all of them when there are at most ten) in scan order, and
   * holds at most one line per carried video.
   */
  lemma ListingReplyCapped(urls: seq<string>, userId: int, tool: Tool, probe: Prober, reply: Reply, calls: seq<ToolCall>)
    requires AllWatchUrls(urls) && WebpageHandled(urls, userId, tool, probe, reply, calls)
    requires reply.MultipleEmbeddedVideos?
    ensures |urls| >= 2 && reply.total == |urls| && calls == []
    ensures reply.youtubeUrls <= urls
    ensures |reply.youtubeUrls| == if |urls| <= MaxListed then |urls| else MaxListed
    ensures reply.videosList == Join(Listing(reply.youtubeUrls, probe), "\n")
    ensures |Listing(reply.youtubeUrls, probe)| <= |reply.youtubeUrls|
  {
    ListingNumbered(Shown(urls), probe);
  }

  method DownloadSingleVideo(url: string, userId: int, fetch: FetchResult, tool: Tool)
    returns (reply: Reply, calls: seq<ToolCall>)
    requires IsYouTubeUrl(url)
    ensures SingleVideoHandled(url, userId, tool, reply, calls)
  {
    var videoId := ExtractVideoId(url);
    var outputPath := OutputPath(videoId, userId);
    var outcome;
    outcome, calls := EnhancedDownloadWithFallback(url, outputPath, "video_" + PyStr(videoId), fetch, tool);
    match outcome {
      case Raised(m) =>
        reply := Message(DownloadErrorPrefix + m);
      case Downloaded(d) =>
        if d.duration.None? {
          reply := Message(DownloadErrorPrefix + NullDurationError);
        } else {
          reply := VideoDownload(d.filePath, d.title, InfoText(d), d.methodLabel);
        }
    }
  }

  /** The listing of a prefix grows by the next video's line. */
  lemma ListingPrefixGrows(shown: seq<string>, i: nat, probe: Prober)
    requires AllWatchUrls(shown) && i < |shown|
    ensures AllWatchUrls(shown[..i]) && AllWatchUrls(shown[..i + 1]) && IsWatchUrl(shown[i])
    ensures Listing(shown[..i + 1], probe) == Listing(shown[..i], probe) + VideoLine(i + 1, InfoOf(shown[i], probe))
  {
    assert shown[..i + 1][..i] == shown[..i];
    assert shown[i] in shown;
  }

  /** One turn of the listing loop: the preview of u and the line it gives at position i. */
  method PreviewLine(u: string, i: nat, fetch: FetchResult, probe: Prober) returns (line: seq<string>)
    requires IsWatchUrl(u)
    ensures line == VideoLine(i, InfoOf(u, probe))
  {
    WatchUrlOfIsWatchUrl(u);
    WatchUrlIsYouTubeUrl(u[|WatchPrefix|..]);
    var info := GetVideoInfoOnly(u, fetch, probe);
    line := [];
    if info.InfoFound? {
      if info.duration.None? {
        line := [IntToDecimal(i) + ". " + ("Video " + IntToDecimal(i) + " (info unavailable)")];
      } else {
        line := [IntToDecimal(i) + ". " + (PyStr(info.title) + " (" + DurationText(info.duration.value) + ")")];
      }
    }
  }

  /** The loop over the first ten URLs, one preview each. */
  method ListVideos(shown: seq<string>, fetch: FetchResult, probe: Prober) returns (lines: seq<string>)
    requires AllWatchUrls(shown)
    ensures lines == Listing(shown, probe)
  {
    lines := [];
    var i := 0;
    while i < |shown|
      invariant 0 <= i <= |shown|
      invariant lines == Listing(shown[..i], probe)
    {
      ListingPrefixGrows(shown, i, probe);
      var line := PreviewLine(shown[i], i + 1, fetch, probe);
      lines := lines + line;
      i := i + 1;
    }
    assert shown[..i] == shown;
  }

  method HandleWebpageWithVideos(userId: int, fetch: FetchResult, tool: Tool, probe: Prober)
    returns (reply: Reply, calls: seq<ToolCall>, youtubeUrls: seq<string>)
    ensures ScannedFrom(youtubeUrls, fetch)
    ensures WebpageHandled(youtubeUrls, userId, tool, probe, reply, calls)
  {
    youtubeUrls := ExtractEmbeddedYoutubeUrls(fetch);
    if |youtubeUrls| == 0 {
      return Message(NoVideosOnWebpage), [], youtubeUrls;
    }
    if |youtubeUrls| == 1 {
      var url := youtubeUrls[0];
      assert url in youtubeUrls;
      WatchUrlOfIsWatchUrl(url);
      WatchUrlIsYouTubeUrl(url[|WatchPrefix|..]);
      var videoId := ExtractVideoId(url);
      var outputPath := OutputPath(videoId, userId);
      var outcome;
      outcome, calls := EnhancedDownloadWithFallback(url, outputPath, "embedded_video_" + PyStr(videoId), fetch, tool);
      match outcome {
        case Raised(m) =>
          reply := Message(WebpageErrorPrefix + m);
        case Downloaded(d) =>
          reply := SingleEmbeddedVideo(d.filePath, d.title, d.methodLabel);
      }
      return;
    }
    var shown := if |youtubeUrls| <= MaxListed then youtubeUrls else youtubeUrls[..MaxListed];
    var lines := ListVideos(shown, fetch, probe);
    reply := MultipleEmbeddedVideos(|youtubeUrls|, Join(lines, "\n"), shown);
    calls := [];
  }

  /**
   * `handle_url_message(url, user_id, chat_id)`: a YouTube link is downloaded
   * directly; anything else is scanned as a web page (`fetch` is what
   * fetching it gives).
   */
  method HandleUrlMessage(url: string, userId: int, fetch: FetchResult, tool: Tool, probe: Prober)
    returns (reply: Reply, calls: seq<ToolCall>, scanned: seq<string>)
    ensures IsYouTubeUrl(url) ==> SingleVideoHandled(url, userId, tool, reply, calls) && scanned == []
    ensures !IsYouTubeUrl(url) ==> ScannedFrom(scanned, fetch) && WebpageHandled(scanned, userId, tool, probe, reply, calls)
  {
    if IsYouTubeUrl(url) {
      reply, calls := DownloadSingleVideo(url, userId, fetch, tool);
      scanned := [];
    } else {
      reply, calls, scanned := HandleWebpageWithVideos(userId, fetch, tool, probe);
    }
  }
}
