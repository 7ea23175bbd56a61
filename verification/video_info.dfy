/**
 * `get_video_info_only`: metadata for a preview, without downloading. The
 * video is resolved exactly as the downloader resolves it, the tool is asked
 * for metadata only, and the list of available resolutions is rebuilt from
 * the format entries: one "<height>p" label per entry with a non-zero height,
 * duplicates removed, highest first.
 */
module VideoInfo {
  import opened Strings
  import opened VideoIds
  import opened EmbedScan
  import opened FallbackDownload

  // ---------------------------------------------------------------------------
  // Resolution labels
  // ---------------------------------------------------------------------------

  /** `f"{height}p"`. */
  function HeightLabel(h: int): string { IntToDecimal(h) + "p" }

  /**
   * The sort key `int(x[:-1])`. Every label the collector produces has this
   * form; for any other string `int` would raise, and the key is 0 here.
   */
  function LabelHeight(s: string): int {
    if |s| > 0 then
      match ParseInt(s[..|s| - 1])
      case Some(h) => h
      case None => 0
    else 0
  }

  /** The key recovers the height a label was made from. */
  lemma LabelHeightOfLabel(h: int)
    ensures LabelHeight(HeightLabel(h)) == h
  {
    var s := HeightLabel(h);
    assert s[..|s| - 1] == IntToDecimal(h);
    IntToDecimalRoundTrip(h);
  }

  /** Labels are made from heights: each is the label of its own key. */
  predicate WellFormedLabels(labels: seq<string>) {
    forall l :: l in labels ==> l == HeightLabel(LabelHeight(l))
  }

  /** A format entry: a dictionary whose 'height' is missing, null, or a number. */
  datatype Format = Format(height: Field<int>)

  /** `if fmt.get('height')`: a height that is present and not zero. */
  predicate HasHeight(f: Format) { f.height.Present? && f.height.value != 0 }

  /** The labels the loop over the format entries appends, in entry order. */
  function HeightLabels(formats: seq<Format>): (labels: seq<string>)
    ensures |labels| <= |formats|
    ensures WellFormedLabels(labels)
    decreases |formats|
  {
    if |formats| == 0 then []
    else
      var init := HeightLabels(formats[..|formats| - 1]);
      var f := formats[|formats| - 1];
      if HasHeight(f) then
        LabelHeightOfLabel(f.height.value);
        init + [HeightLabel(f.height.value)]
      else init
  }

  /** A label is collected exactly when some entry has that non-zero height. */
  lemma {:induction false} HeightLabelsMembers(formats: seq<Format>)
    ensures forall l :: l in HeightLabels(formats) <==>
      exists j :: 0 <= j < |formats| && HasHeight(formats[j]) && l == HeightLabel(formats[j].height.value)
    decreases |formats|
  {
    if |formats| > 0 {
      var init := formats[..|formats| - 1];
      HeightLabelsMembers(init);
      forall l | l in HeightLabels(formats)
        ensures exists j :: 0 <= j < |formats| && HasHeight(formats[j]) && l == HeightLabel(formats[j].height.value)
      {
        if l in HeightLabels(init) {
          var j :| 0 <= j < |init| && HasHeight(init[j]) && l == HeightLabel(init[j].height.value);
          assert formats[j] == init[j];
        }
      }
      forall l, j | 0 <= j < |formats| && HasHeight(formats[j]) && l == HeightLabel(formats[j].height.value)
        ensures l in HeightLabels(formats)
      {
        if j < |init| {
          assert formats[j] == init[j];
        }
      }
    }
  }

  // ---------------------------------------------------------------------------
  // sorted(set(labels), key=lambda x: int(x[:-1]), reverse=True)
  // ---------------------------------------------------------------------------

  predicate HeightsDescending(labels: seq<string>) {
    forall i, j :: 0 <= i < j < |labels| ==> LabelHeight(labels[i]) > LabelHeight(labels[j])
  }

  function InsertByHeight(x: string, xs: seq<string>): (r: seq<string>)
    requires HeightsDescending(xs)
    requires forall y :: y in xs ==> LabelHeight(y) != LabelHeight(x)
    ensures HeightsDescending(r)
    ensures |r| == |xs| + 1
    ensures forall u :: u in r <==> u == x || u in xs
    decreases |xs|
  {
    if |xs| == 0 then [x]
    else if LabelHeight(x) > LabelHeight(xs[0]) then [x] + xs
    else
      var rest := InsertByHeight(x, xs[1..]);
      assert forall u :: u in rest ==> LabelHeight(u) < LabelHeight(xs[0]);
      [xs[0]] + rest
  }

  /** Sorting labels whose keys are pairwise different, highest key first. */
  function SortByHeight(xs: seq<string>): (r: seq<string>)
    requires forall i, j :: 0 <= i < j < |xs| ==> LabelHeight(xs[i]) != LabelHeight(xs[j])
    ensures HeightsDescending(r)
    ensures |r| == |xs|
    ensures forall u :: u in r <==> u in xs
    decreases |xs|
  {
    if |xs| == 0 then []
    else InsertByHeight(xs[0], SortByHeight(xs[1..]))
  }

  /**
   * Two lists in strictly descending key order with the same elements are
   * the same list: the order `set` happens to iterate in does not affect the
   * sorted result.
   */
  lemma {:induction false} DescendingUnique(a: seq<string>, b: seq<string>)
    requires HeightsDescending(a) && HeightsDescending(b)
    requires forall u :: u in a <==> u in b
    ensures a == b
    decreases |a|
  {
    if |b| > 0 {
      assert b[0] in a;
    }
    if |a| > 0 {
      DescendingHeads(a, b);
      forall u
        ensures u in a[1..] <==> u in b[1..]
      {
        if u in a[1..] {
          DescendingTailIn(a, b, u);
        }
        if u in b[1..] {
          DescendingTailIn(b, a, u);
        }
      }
      DescendingUnique(a[1..], b[1..]);
      assert a == [a[0]] + a[1..] && b == [b[0]] + b[1..];
    }
  }

  /** Two such lists start with the same label: the one with the highest key. */
  lemma DescendingHeads(a: seq<string>, b: seq<string>)
    requires HeightsDescending(a) && HeightsDescending(b)
    requires forall u :: u in a <==> u in b
    requires |a| > 0
    ensures |b| > 0 && a[0] == b[0]
  {
    assert a[0] in b;
    var j :| 0 <= j < |b| && b[j] == a[0];
    assert b[0] in b;
    var i :| 0 <= i < |a| && a[i] == b[0];
  }

  /** A label after the head of one such list comes after the head of the other. */
  lemma DescendingTailIn(a: seq<string>, b: seq<string>, u: string)
    requires HeightsDescending(a) && HeightsDescending(b)
    requires forall v :: v in a <==> v in b
    requires |a| > 0 && |b| > 0 && a[0] == b[0] && u in a[1..]
    ensures u in b[1..]
  {
    var k :| 0 <= k < |a| - 1 && a[1..][k] == u;
    assert a[k + 1] == u;
    assert u in a;
    assert LabelHeight(u) < LabelHeight(a[0]);
    var m :| 0 <= m < |b| && b[m] == u;
    assert m > 0 && b[1..][m - 1] == u;
  }

  /** The deduplicated, sorted resolution labels. */
  function SortedFormats(labels: seq<string>): (r: seq<string>)
    requires WellFormedLabels(labels)
    ensures HeightsDescending(r)
    ensures NoDuplicates(r)
    ensures forall u :: u in r <==> u in labels
  {
    var d := Distinct(labels);
    assert forall i, j :: 0 <= i < j < |d| ==> LabelHeight(d[i]) != LabelHeight(d[j]) by {
      forall i, j | 0 <= i < j < |d|
        ensures LabelHeight(d[i]) != LabelHeight(d[j])
      {
        assert d[i] in labels && d[j] in labels;
      }
    }
    SortByHeight(d)
  }

  /** `', '.join(available_formats) if available_formats else 'Unknown'`. */
  function FormatsText(labels: seq<string>): (r: string)
    requires WellFormedLabels(labels)
  {
    var sorted := SortedFormats(labels);
    if |sorted| > 0 then Join(sorted, ", ") else "Unknown"
  }

  /** A label is at least one digit followed by 'p'. */
  lemma LabelEndsWithP(l: string, h: int)
    requires l == HeightLabel(h)
    ensures |l| >= 2 && l[|l| - 1] == 'p' && l[0] != ','
  {
  }

  /** A non-empty list of labels never joins to the text "Unknown". */
  lemma JoinedLabelsNotUnknown(sorted: seq<string>, h: int)
    requires |sorted| > 0 && sorted[0] == HeightLabel(h)
    ensures Join(sorted, ", ") != "Unknown"
  {
    var text := Join(sorted, ", ");
    var first := sorted[0];
    LabelEndsWithP(first, h);
    if |sorted| == 1 {
      assert text[|text| - 1] == 'p';
    } else {
      var tail := Join(sorted[1..], ", ");
      assert text == first + (", " + tail);
      assert text[|first|] == ',';
    }
  }

  /** "Unknown" stands exactly for an empty label list; otherwise every label appears in the text. */
  lemma FormatsTextOfLabels(labels: seq<string>)
    requires WellFormedLabels(labels)
    ensures FormatsText(labels) == "Unknown" <==> |labels| == 0
    ensures forall l :: l in labels ==> Contains(FormatsText(labels), l)
  {
    var sorted := SortedFormats(labels);
    JoinContains(sorted, ", ");
    if |sorted| > 0 {
      assert sorted[0] in labels;
      JoinedLabelsNotUnknown(sorted, LabelHeight(sorted[0]));
    }
  }

  /**
   * The available formats of a list of entries: "Unknown" exactly when no
   * entry has a height, and otherwise a text in which the label of every
   * entry with a height appears.
   */
  lemma FormatsTextOfEntries(formats: seq<Format>)
    ensures FormatsText(HeightLabels(formats)) == "Unknown" <==>
      forall j :: 0 <= j < |formats| ==> !HasHeight(formats[j])
    ensures forall j :: 0 <= j < |formats| && HasHeight(formats[j]) ==>
      Contains(FormatsText(HeightLabels(formats)), HeightLabel(formats[j].height.value))
  {
    var labels := HeightLabels(formats);
    HeightLabelsMembers(formats);
    FormatsTextOfLabels(labels);
    if |labels| > 0 {
      assert labels[0] in labels;
      var j :| 0 <= j < |formats| && HasHeight(formats[j]) && labels[0] == HeightLabel(formats[j].height.value);
    }
    forall j | 0 <= j < |formats| && HasHeight(formats[j])
      ensures HeightLabel(formats[j].height.value) in labels
    {
    }
  }

  /** The loop over the format entries, appending one label per entry with a height. */
  method CollectFormatLabels(formats: seq<Format>) returns (labels: seq<string>)
    ensures labels == HeightLabels(formats)
  {
    labels := [];
    var j := 0;
    while j < |formats|
      invariant 0 <= j <= |formats|
      invariant labels == HeightLabels(formats[..j])
    {
      assert formats[..j + 1][..j] == formats[..j];
      var f := formats[j];
      if f.height.Present? && f.height.value != 0 {
        labels := labels + [HeightLabel(f.height.value)];
      }
      j := j + 1;
    }
    assert formats[..j] == formats;
  }

  // ---------------------------------------------------------------------------
  // The description
  // ---------------------------------------------------------------------------

  const DescriptionLimit: nat := 500

  /** The description cut to its first 500 characters plus "..." when it is longer than that. */
  function TruncateDescription(d: string): (r: string)
    ensures |r| <= DescriptionLimit + 3
    ensures |d| <= DescriptionLimit ==> r == d
    ensures |d| > DescriptionLimit ==> |r| == DescriptionLimit + 3
    ensures StartsWith(d, r) || (StartsWith(r, d[..DescriptionLimit]) && r[DescriptionLimit..] == "...")
  {
    if |d| > DescriptionLimit then d[..DescriptionLimit] + "..." else d
  }

  /** Cutting an already cut description changes nothing. */
  lemma TruncateIdempotent(d: string)
    ensures TruncateDescription(TruncateDescription(d)) == TruncateDescription(d)
  {
    var r := TruncateDescription(d);
    if |d| > DescriptionLimit {
      assert r[..DescriptionLimit] == d[..DescriptionLimit];
    }
  }

  // ---------------------------------------------------------------------------
  // The probe and the result
  // ---------------------------------------------------------------------------

  /** The metadata the tool returns when asked not to download. */
  datatype Details = Details(
    title: Field<string>, uploader: Field<string>, duration: Field<int>, viewCount: Field<int>,
    description: Field<string>, formats: Field<seq<Format>>)

  /** `extract_info(clean_url, download=False)`: it raised, returned nothing, or returned metadata. */
  datatype DetailsProbe = DetailsRaised(message: string) | NoDetails | GotDetails(details: Details)

  type Prober = (Opts, string) -> DetailsProbe

  /** The returned dictionary: the metadata, or `success` False with an error text. */
  datatype InfoResult =
    | InfoFound(title: Option<string>, uploader: Option<string>, duration: Option<int>, viewCount: Option<int>,
                description: string, videoId: string, url: string, availableFormats: string)
    | InfoFailed(error: string)

  const NoVideosOnPage: string := "No YouTube videos found on webpage"
  const NoVideoIdFound: string := "Could not extract video ID"
  const NoInformation: string := "Could not extract video information"
  /** `str(e)` for iterating over a null format list. */
  const NullNotIterable: string := "'NoneType' object is not iterable"
  /** `str(e)` for taking the length of a null description. */
  const NullHasNoLen: string := "object of type 'NoneType' has no len()"

  /** The downloader's options with `skip_download` and `quiet` switched on. */
  const InfoOpts: Opts := YtdlOpts["skip_download" := Switch(true)]["quiet" := Switch(true)]

  /** The dictionary built from the metadata of the video `videoId`. */
  function Summary(d: Details, videoId: string): (r: InfoResult)
    ensures r.InfoFound? <==> !d.formats.Null? && !d.description.Null?
    ensures r.InfoFound? ==> r.videoId == videoId && r.url == WatchUrl(videoId)
    ensures r.InfoFound? ==> |r.description| <= DescriptionLimit + 3
  {
    if d.formats.Null? then InfoFailed(NullNotIterable)
    else if d.description.Null? then InfoFailed(NullHasNoLen)
    else
      var formats := if d.formats.Present? then d.formats.value else [];
      InfoFound(InfoGet(d.title, "Unknown"), InfoGet(d.uploader, "Unknown"), InfoGet(d.duration, 0),
                InfoGet(d.viewCount, 0), TruncateDescription(InfoGet(d.description, "").value),
                videoId, WatchUrl(videoId), FormatsText(HeightLabels(formats)))
  }

  /** The dictionary for the probe's answer about the video `videoId`. */
  function ProbeResult(p: DetailsProbe, videoId: string): (r: InfoResult)
    ensures p.DetailsRaised? ==> r == InfoFailed(p.message)
    ensures p.NoDetails? ==> r == InfoFailed(NoInformation)
    ensures r.InfoFound? ==> p.GotDetails? && r.videoId == videoId
  {
    match p
    case DetailsRaised(m) => InfoFailed(m)
    case NoDetails => InfoFailed(NoInformation)
    case GotDetails(d) => Summary(d, videoId)
  }

  /**
   * `get_video_info_only(url)`: the same resolution as the downloader (a page
   * contributes its first embedded video), with this function's own error
   * texts, then one metadata probe of the canonical URL.
   */
  method GetVideoInfoOnly(url: string, fetch: FetchResult, probe: Prober) returns (r: InfoResult)
    ensures IsYouTubeUrl(url) && ExtractVideoId(url).Some? ==>
      r == ProbeResult(probe(InfoOpts, WatchUrl(ExtractVideoId(url).value)), ExtractVideoId(url).value)
    ensures IsYouTubeUrl(url) && ExtractVideoId(url).None? ==> r == InfoFailed(NoVideoIdFound)
    ensures !IsYouTubeUrl(url) && NothingEmbedded(fetch) ==> r == InfoFailed(NoVideosOnPage)
    ensures !IsYouTubeUrl(url) && !NothingEmbedded(fetch) ==>
      exists id :: IsVideoId(id) && WatchUrl(id) in Candidates(fetch) &&
        r == ProbeResult(probe(InfoOpts, WatchUrl(id)), id)
    ensures r.InfoFound? ==> r.url == WatchUrl(r.videoId)
  {
    var resolution := ResolveVideo(url, fetch);
    if resolution.Unresolved? {
      if resolution.message == NoVideosFound {
        return InfoFailed(NoVideosOnPage);
      }
      return InfoFailed(NoVideoIdFound);
    }
    var videoId := resolution.videoId;
    var cleanUrl := WatchUrl(videoId);
    var opts := YtdlOpts["skip_download" := Switch(true)]["quiet" := Switch(true)];
    var answer := probe(opts, cleanUrl);
    match answer {
      case DetailsRaised(m) =>
        r := InfoFailed(m);
      case NoDetails =>
        r := InfoFailed(NoInformation);
      case GotDetails(d) =>
        if d.formats.Null? {
          return InfoFailed(NullNotIterable);
        }
        var formats := if d.formats.Present? then d.formats.value else [];
        var labels := CollectFormatLabels(formats);
        var available := SortedFormats(labels);
        if d.description.Null? {
          return InfoFailed(NullHasNoLen);
        }
        var description := InfoGet(d.description, "").value;
        if |description| > DescriptionLimit {
          description := description[..DescriptionLimit] + "...";
        }
        r := InfoFound(InfoGet(d.title, "Unknown"), InfoGet(d.uploader, "Unknown"), InfoGet(d.duration, 0),
                       InfoGet(d.viewCount, 0), description, videoId, cleanUrl,
                       if |available| > 0 then Join(available, ", ") else "Unknown");
    }
  }
}
