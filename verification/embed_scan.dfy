/**
 * `EnhancedYouTubeDownloader.extract_embedded_youtube_urls`: the candidate
 * links a fetched web page offers, pooled into canonical watch URLs and
 * de-duplicated.
 *
 * The fetch and the HTML/JSON parsing are not modelled: a page is given as
 * the strings they would have produced (iframe `src` values, script texts
 * with the JSON-LD view of each `application/ld+json` script, `meta`
 * property/content pairs and the page text). Five sources are read in order:
 * iframes, script texts (identifier assignments and embedded links), JSON-LD
 * `VideoObject.embedUrl`, `og:video` metas and page-builder `"youtube_url"`
 * fields in the page text.
 */
module EmbedScan {
  import opened Strings
  import opened Urls
  import opened VideoIds

  // ---------------------------------------------------------------------------
  // The page as the parser hands it over
  // ---------------------------------------------------------------------------

  /** What `json.loads` makes of a JSON-LD script's text. */
  datatype JsonView =
    | NotJson                                  // JSONDecodeError: the script is skipped
    | NotVideoObject                           // not a dict, or its "@type" is not "VideoObject"
    | VideoObject(embedUrl: Option<string>)    // None: "embedUrl" missing or not a string

  datatype ScriptKind = PlainScript | JsonLdScript(json: JsonView)

  /** A `<script>` tag; `text` is None where BeautifulSoup's `.string` is None. */
  datatype Script = Script(text: Option<string>, kind: ScriptKind)

  /** A `<meta>` tag's `property` attribute, if any, and its `content` ("" when missing). */
  datatype Meta = Meta(property: Option<string>, content: string)

  /** The iframe `src` values ("" when missing), scripts and metas in document order, and `get_text()`. */
  datatype Page = Page(iframeSrcs: seq<string>, scripts: seq<Script>, metas: seq<Meta>, text: string)

  /** The HTTP fetch: any request error or error status is FetchFailed. */
  datatype FetchResult = FetchFailed | Fetched(page: Page)

  // ---------------------------------------------------------------------------
  // Pooling
  // ---------------------------------------------------------------------------

  /** The candidates each element contributes, in order: a list grown by appending in a loop. */
  function Gather<T>(xs: seq<T>, f: T -> seq<string>): (r: seq<string>)
    decreases |xs|
  {
    if |xs| == 0 then [] else Gather(xs[..|xs| - 1], f) + f(xs[|xs| - 1])
  }

  lemma GatherStep<T>(xs: seq<T>, f: T -> seq<string>, i: nat)
    requires i < |xs|
    ensures Gather(xs[..i + 1], f) == Gather(xs[..i], f) + f(xs[i])
  {
    assert xs[..i + 1][..i] == xs[..i];
  }

  /** Every pooled candidate comes from some element. */
  lemma {:induction false} GatherMember<T>(xs: seq<T>, f: T -> seq<string>, u: string)
    requires u in Gather(xs, f)
    ensures exists i :: 0 <= i < |xs| && u in f(xs[i])
    decreases |xs|
  {
    var n := |xs| - 1;
    if u !in f(xs[n]) {
      GatherMember(xs[..n], f, u);
      var i :| 0 <= i < n && u in f(xs[..n][i]);
      assert xs[..n][i] == xs[i];
    }
  }

  predicate AllWatchUrls(us: seq<string>) {
    forall u :: u in us ==> IsWatchUrl(u)
  }

  lemma GatherWatchUrls<T>(xs: seq<T>, f: T -> seq<string>)
    requires forall i :: 0 <= i < |xs| ==> AllWatchUrls(f(xs[i]))
    ensures AllWatchUrls(Gather(xs, f))
  {
    forall u | u in Gather(xs, f)
      ensures IsWatchUrl(u)
    {
      GatherMember(xs, f, u);
    }
  }

  /**
   * One candidate link: kept, as its canonical watch URL, when it is a YouTube
   * URL and an identifier can be extracted from it.
   */
  function ResolveLink(link: string): (r: seq<string>)
  {
    if IsYouTubeUrl(link) && ExtractVideoId(link).Some? then [WatchUrl(ExtractVideoId(link).value)] else []
  }

  /** A kept link becomes one canonical URL naming the same video. */
  lemma ResolveLinkCanonical(link: string)
    ensures |ResolveLink(link)| <= 1
    ensures |ResolveLink(link)| == 1 <==> IsYouTubeUrl(link) && ExtractVideoId(link).Some?
    ensures forall u :: u in ResolveLink(link) ==>
      IsWatchUrl(u) && IsYouTubeUrl(u) && ExtractVideoId(u) == ExtractVideoId(link)
  {
    if IsYouTubeUrl(link) && ExtractVideoId(link).Some? {
      var id := ExtractVideoId(link).value;
      ExtractVideoIdOfWatchUrl(id);
      WatchUrlIsYouTubeUrl(id);
    }
  }

  /** An identifier found in a script becomes its watch URL directly. */
  function WatchUrlOf(id: string): seq<string> { [WatchUrl(id)] }

  // ---------------------------------------------------------------------------
  // The script regular expressions, as findall
  // ---------------------------------------------------------------------------

  /** Non-overlapping identifier assignments (`videoId: "..."`), left to right. */
  function FindAllKeyValue(t: string): (ids: seq<string>)
    ensures forall i :: 0 <= i < |ids| ==> IsVideoId(ids[i])
    decreases |t|
  {
    if |t| == 0 then []
    else match KeyValueAt(t)
      case Some(m) => [m.0] + FindAllKeyValue(t[m.1..])
      case None => FindAllKeyValue(t[1..])
  }

  /**
   * `https?://(?:www\.)?(?:youtube\.com|youtu\.be)/` at the start of `t`, as
   * the length it covers. No backtracking is ever needed: "https://" and
   * "http://" exclude each other at index 4, a "www." prefix cannot also be a
   * domain, and the two domains differ at index 5.
   */
  function EmbeddedHead(t: string): (n: Option<nat>)
    ensures n.Some? ==> 16 <= n.value <= |t|
  {
    var s := if StartsWith(t, "https://") then 8 else if StartsWith(t, "http://") then 7 else 0;
    if s == 0 then None
    else
      var w := if StartsWith(t[s..], "www.") then s + 4 else s;
      if StartsWith(t[w..], "youtube.com/") then Some(w + 12)
      else if StartsWith(t[w..], "youtu.be/") then Some(w + 9)
      else None
  }

  /** `[^"'>\s]`. */
  predicate IsLinkChar(c: char) { !IsQuote(c) && c != '>' && !IsSpace(c) }

  function LinkRun(t: string): (n: nat)
    ensures n <= |t|
    ensures forall i :: 0 <= i < n ==> IsLinkChar(t[i])
    ensures n == |t| || !IsLinkChar(t[n])
    decreases |t|
  {
    if |t| > 0 && IsLinkChar(t[0]) then 1 + LinkRun(t[1..]) else 0
  }

  /**
   * `["']?(https?://(?:www\.)?(?:youtube\.com|youtu\.be)/[^"'>\s]+)["']?` at
   * the start of `t`: the captured link and the length of the whole match. A
   * leading quote not followed by a link cannot be skipped either, since the
   * link would then have to start at the quote.
   */
  function EmbeddedLinkAt(t: string): (r: Option<(string, nat)>)
    ensures r.Some? ==> 0 < r.value.1 <= |t|
  {
    var q := if |t| > 0 && IsQuote(t[0]) then 1 else 0;
    match EmbeddedHead(t[q..])
    case None => None
    case Some(h) =>
      var b := LinkRun(t[q + h..]);
      if b == 0 then None
      else
        var e := q + h + b;
        var close := if e < |t| && IsQuote(t[e]) then 1 else 0;
        Some((t[q..e], e + close))
  }

  function FindAllEmbedded(t: string): (links: seq<string>)
    decreases |t|
  {
    if |t| == 0 then []
    else match EmbeddedLinkAt(t)
      case Some(m) => [m.0] + FindAllEmbedded(t[m.1..])
      case None => FindAllEmbedded(t[1..])
  }

  /** `"youtube_url":"`, the page-builder field that precedes a link in the page text. */
  const ElementorKey: string := "\"youtube_url\":\""

  /** The number of characters before the first '"' (all of them when there is none). */
  function QuoteFreeRun(t: string): (n: nat)
    ensures n <= |t|
    ensures forall i :: 0 <= i < n ==> t[i] != '"'
    ensures n == |t| || t[n] == '"'
    decreases |t|
  {
    if |t| > 0 && t[0] != '"' then 1 + QuoteFreeRun(t[1..]) else 0
  }

  /**
   * `https?://[^"]+youtube[^"]+` matching the whole of a quote-free `seg`:
   * after the scheme, "youtube" occurs with at least one character before it
   * and at least one after it.
   */
  predicate IsElementorLink(seg: string) {
    var s := if StartsWith(seg, "https://") then 8 else if StartsWith(seg, "http://") then 7 else 0;
    s > 0 && |seg| - s >= 2 && Contains(seg[s + 1..|seg| - 1], "youtube")
  }

  /**
   * `"youtube_url":"(https?://[^"]+youtube[^"]+)"` at the start of `t`. The
   * character classes exclude '"', so the capture runs exactly up to the next
   * '"', which must exist.
   */
  function ElementorAt(t: string): (r: Option<(string, nat)>)
    ensures r.Some? ==> 0 < r.value.1 <= |t|
  {
    if StartsWith(t, ElementorKey) then
      var k := |ElementorKey|;
      var n := QuoteFreeRun(t[k..]);
      if k + n < |t| && IsElementorLink(t[k..k + n]) then Some((t[k..k + n], k + n + 1)) else None
    else None
  }

  function FindAllElementor(t: string): (links: seq<string>)
    decreases |t|
  {
    if |t| == 0 then []
    else match ElementorAt(t)
      case Some(m) => [m.0] + FindAllElementor(t[m.1..])
      case None => FindAllElementor(t[1..])
  }

  // ---------------------------------------------------------------------------
  // The five sources
  // ---------------------------------------------------------------------------

  /** Method 2: a script with non-empty text contributes its identifier assignments, then its embedded links. */
  function ScriptUrls(script: Script): seq<string> {
    if script.text.Some? && script.text.value != "" then
      Gather(FindAllKeyValue(script.text.value), WatchUrlOf) + Gather(FindAllEmbedded(script.text.value), ResolveLink)
    else []
  }

  /** Method 3: a JSON-LD `VideoObject` contributes its `embedUrl`. */
  function LdUrls(script: Script): seq<string> {
    match script.kind
    case JsonLdScript(VideoObject(Some(embed))) => ResolveLink(embed)
    case _ => []
  }

  /** A JSON-LD script whose `.string` is None makes `json.loads` raise TypeError, which aborts the scan. */
  predicate Unreadable(script: Script) { script.kind.JsonLdScript? && script.text.None? }

  /** Method 4: a meta whose property contains "og:video" contributes its content. */
  function OgUrls(meta: Meta): seq<string> {
    if meta.property.Some? && Contains(meta.property.value, "og:video") then ResolveLink(meta.content) else []
  }

  /** Method 5: a page-builder link, with its escaped slashes `\/` restored. */
  function ElementorUrls(link: string): seq<string> {
    ResolveLink(ReplaceAll(link, "\\/", "/"))
  }

  /**
   * `youtube_urls` just before de-duplication, or None when the scan raises
   * and returns the empty list.
   */
  function Collected(page: Page): Option<seq<string>> {
    if exists i :: 0 <= i < |page.scripts| && Unreadable(page.scripts[i]) then None
    else Some(Gather(page.iframeSrcs, ResolveLink) + Gather(page.scripts, ScriptUrls) +
              Gather(page.scripts, LdUrls) + Gather(page.metas, OgUrls) +
              Gather(FindAllElementor(page.text), ElementorUrls))
  }

  /** The candidates of a fetch: none when it failed or the scan raised. */
  function Candidates(fetch: FetchResult): seq<string> {
    match fetch
    case FetchFailed => []
    case Fetched(page) => match Collected(page) case None => [] case Some(found) => found
  }

  /** Every pooled candidate is a canonical watch URL. */
  lemma CollectedAreWatchUrls(page: Page)
    requires Collected(page).Some?
    ensures AllWatchUrls(Collected(page).value)
  {
    forall link: string ensures AllWatchUrls(ResolveLink(link)) { ResolveLinkWatch(link); }
    GatherWatchUrls(page.iframeSrcs, ResolveLink);
    forall i | 0 <= i < |page.scripts| ensures AllWatchUrls(ScriptUrls(page.scripts[i])) {
      ScriptUrlsWatch(page.scripts[i]);
    }
    GatherWatchUrls(page.scripts, ScriptUrls);
    GatherWatchUrls(page.scripts, LdUrls);
    GatherWatchUrls(page.metas, OgUrls);
    GatherWatchUrls(FindAllElementor(page.text), ElementorUrls);
    var parts := [Gather(page.iframeSrcs, ResolveLink), Gather(page.scripts, ScriptUrls),
                  Gather(page.scripts, LdUrls), Gather(page.metas, OgUrls),
                  Gather(FindAllElementor(page.text), ElementorUrls)];
    AllWatchUrlsConcat5(parts[0], parts[1], parts[2], parts[3], parts[4]);
  }

  lemma ResolveLinkWatch(link: string)
    ensures AllWatchUrls(ResolveLink(link))
  {
    ResolveLinkCanonical(link);
  }

  lemma ScriptUrlsWatch(script: Script)
    ensures AllWatchUrls(ScriptUrls(script))
  {
    var text := script.text;
    if text.Some? && text.value != "" {
      forall link: string ensures AllWatchUrls(ResolveLink(link)) { ResolveLinkWatch(link); }
      GatherWatchUrls(FindAllKeyValue(text.value), WatchUrlOf);
      GatherWatchUrls(FindAllEmbedded(text.value), ResolveLink);
    }
  }

  lemma AllWatchUrlsConcat5(a: seq<string>, b: seq<string>, c: seq<string>, d: seq<string>, e: seq<string>)
    requires AllWatchUrls(a) && AllWatchUrls(b) && AllWatchUrls(c) && AllWatchUrls(d) && AllWatchUrls(e)
    ensures AllWatchUrls(a + b + c + d + e)
  {
  }

  /** `list(set(xs))`: the same elements, each once (the order is not fixed). */
  function Distinct(xs: seq<string>): (r: seq<string>)
    ensures NoDuplicates(r)
    ensures forall u :: u in r <==> u in xs
    decreases |xs|
  {
    if |xs| == 0 then []
    else
      var d := Distinct(xs[..|xs| - 1]);
      var x := xs[|xs| - 1];
      assert forall u :: u in xs <==> u in xs[..|xs| - 1] || u == x;
      if x in d then d else d + [x]
  }

  // ---------------------------------------------------------------------------
  // The scan
  // ---------------------------------------------------------------------------

  /** Method 1: the iframe sources, in document order. */
  method PoolIframes(srcs: seq<string>) returns (found: seq<string>)
    ensures found == Gather(srcs, ResolveLink)
  {
    found := [];
    var i := 0;
    while i < |srcs|
      invariant 0 <= i <= |srcs|
      invariant found == Gather(srcs[..i], ResolveLink)
    {
      var more := PoolLink(srcs[i]);
      found := found + more;
      GatherStep(srcs, ResolveLink, i);
      i := i + 1;
    }
    assert srcs[..i] == srcs;
  }

  /** Method 2 for one script text: identifier assignments first, then embedded links. */
  method PoolScriptText(text: string) returns (found: seq<string>)
    ensures found == Gather(FindAllKeyValue(text), WatchUrlOf) + Gather(FindAllEmbedded(text), ResolveLink)
  {
    found := [];
    var ids := FindAllKeyValue(text);
    var j := 0;
    while j < |ids|
      invariant 0 <= j <= |ids|
      invariant found == Gather(ids[..j], WatchUrlOf)
    {
      found := found + [WatchUrl(ids[j])];
      GatherStep(ids, WatchUrlOf, j);
      j := j + 1;
    }
    assert ids[..j] == ids;
    ghost var fromIds := found;
    var links := FindAllEmbedded(text);
    j := 0;
    while j < |links|
      invariant 0 <= j <= |links|
      invariant found == fromIds + Gather(links[..j], ResolveLink)
    {
      var more := PoolLink(links[j]);
      GatherStep(links, ResolveLink, j);
      AppendAssoc(fromIds, Gather(links[..j], ResolveLink), more);
      found := found + more;
      j := j + 1;
    }
    assert links[..j] == links;
  }

  /** One candidate link: its canonical URL when it is a YouTube URL with an identifier. */
  method PoolLink(link: string) returns (found: seq<string>)
    ensures found == ResolveLink(link)
  {
    found := [];
    if IsYouTubeUrl(link) {
      var id := ExtractVideoId(link);
      if id.Some? {
        found := [WatchUrl(id.value)];
      }
    }
  }

  lemma AppendAssoc(a: seq<string>, b: seq<string>, c: seq<string>)
    ensures a + b + c == a + (b + c)
  {
  }

  /** Method 2: every script with non-empty text. */
  method PoolScripts(scripts: seq<Script>) returns (found: seq<string>)
    ensures found == Gather(scripts, ScriptUrls)
  {
    found := [];
    var i := 0;
    while i < |scripts|
      invariant 0 <= i <= |scripts|
      invariant found == Gather(scripts[..i], ScriptUrls)
    {
      var script := scripts[i];
      if script.text.Some? && script.text.value != "" {
        var more := PoolScriptText(script.text.value);
        found := found + more;
      }
      GatherStep(scripts, ScriptUrls, i);
      i := i + 1;
    }
    assert scripts[..i] == scripts;
  }

  /** Method 3: the JSON-LD scripts; None when one of them has no text and `json.loads` raises. */
  method PoolJsonLd(scripts: seq<Script>) returns (found: Option<seq<string>>)
    ensures found.None? <==> exists i :: 0 <= i < |scripts| && Unreadable(scripts[i])
    ensures found.Some? ==> found.value == Gather(scripts, LdUrls)
  {
    var pooled: seq<string> := [];
    var i := 0;
    while i < |scripts|
      invariant 0 <= i <= |scripts|
      invariant pooled == Gather(scripts[..i], LdUrls)
      invariant forall k :: 0 <= k < i ==> !Unreadable(scripts[k])
    {
      var script := scripts[i];
      if Unreadable(script) {
        return None;
      }
      ReadablePrefixGrows(scripts, i);
      var more := PoolJsonLdScript(script);
      pooled := pooled + more;
      GatherStep(scripts, LdUrls, i);
      i := i + 1;
    }
    assert scripts[..i] == scripts;
    found := Some(pooled);
  }

  lemma ReadablePrefixGrows(scripts: seq<Script>, i: nat)
    requires i < |scripts| && !Unreadable(scripts[i])
    requires forall k :: 0 <= k < i ==> !Unreadable(scripts[k])
    ensures forall k :: 0 <= k < i + 1 ==> !Unreadable(scripts[k])
  {
  }

  /** Method 3 for one readable script: a `VideoObject`'s `embedUrl`. */
  method PoolJsonLdScript(script: Script) returns (found: seq<string>)
    requires !Unreadable(script)
    ensures found == LdUrls(script)
  {
    found := [];
    if script.kind.JsonLdScript? {
      match script.kind.json
      case VideoObject(Some(embed)) =>
        found := PoolLink(embed);
      case _ =>
    }
  }

  /** Method 4: metas whose property mentions og:video. */
  method PoolMetas(metas: seq<Meta>) returns (found: seq<string>)
    ensures found == Gather(metas, OgUrls)
  {
    found := [];
    var i := 0;
    while i < |metas|
      invariant 0 <= i <= |metas|
      invariant found == Gather(metas[..i], OgUrls)
    {
      var meta := metas[i];
      if meta.property.Some? && Contains(meta.property.value, "og:video") {
        var more := PoolLink(meta.content);
        found := found + more;
      }
      GatherStep(metas, OgUrls, i);
      i := i + 1;
    }
    assert metas[..i] == metas;
  }

  /** Method 5: page-builder fields of the page text, escaped slashes restored. */
  method PoolElementor(text: string) returns (found: seq<string>)
    ensures found == Gather(FindAllElementor(text), ElementorUrls)
  {
    found := [];
    var fields := FindAllElementor(text);
    var i := 0;
    while i < |fields|
      invariant 0 <= i <= |fields|
      invariant found == Gather(fields[..i], ElementorUrls)
    {
      var link := ReplaceAll(fields[i], "\\/", "/");
      var more := PoolLink(link);
      found := found + more;
      GatherStep(fields, ElementorUrls, i);
      i := i + 1;
    }
    assert fields[..i] == fields;
  }

  /**
   * `extract_embedded_youtube_urls`: the pooled canonical URLs of the page
   * without duplicates, or the empty list when the fetch fails or the scan
   * raises.
   */
  method ExtractEmbeddedYoutubeUrls(fetch: FetchResult) returns (urls: seq<string>)
    ensures NoDuplicates(urls)
    ensures forall u :: u in urls <==> u in Candidates(fetch)
    ensures |urls| == 0 <==> |Candidates(fetch)| == 0
    ensures AllWatchUrls(urls)
  {
    if fetch.FetchFailed? {
      return [];
    }
    var page := fetch.page;
    var found := PoolIframes(page.iframeSrcs);
    var more := PoolScripts(page.scripts);
    found := found + more;
    var ld := PoolJsonLd(page.scripts);
    if ld.None? {
      return [];
    }
    found := found + ld.value;
    more := PoolMetas(page.metas);
    found := found + more;
    more := PoolElementor(page.text);
    found := found + more;
    assert Collected(page) == Some(found);
    CollectedAreWatchUrls(page);
    urls := Distinct(found);
    if |found| > 0 {
      assert found[0] in urls;
    }
  }
}
