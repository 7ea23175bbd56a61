# YouTube downloader bot: a verified model of its link logic

The repository is a Telegram bot that downloads YouTube videos and audio. This
project models in Dafny the parts of it that decide *what* is downloaded and
*how* the attempts are ordered. It proves properties of those parts. The
parts that talk to Telegram, to web servers, to `yt-dlp` or to the file
system are represented by parameters ("oracles").

The model covers two source files.

`enhanced_youtube_downloader.py` (class `EnhancedYouTubeDownloader` and the
bot front end `TelegramBotIntegration`):

- **URL recognition** (`_is_youtube_url`): the lower-cased host (the
  authority, section 3.2 of RFC 3986, as CPython 3.12's `urlparse` computes it)
  must *contain* one of six domain strings.
- **Video-identifier extraction** (`_extract_video_id`): the URL is
  percent-decoded (section 2.1 of RFC 3986, as `unquote` does it). Then four
  regular expressions are searched in a fixed order, leftmost-first, and the
  first 11-character `[A-Za-z0-9_-]` capture is returned.
- **Embedded-video scan** (`extract_embedded_youtube_urls`): it pools
  canonical `https://www.youtube.com/watch?v=<id>` URLs from five sources of a
  fetched page. The sources are iframes, script texts, JSON-LD objects,
  `og:video` metas and page-builder fields. The pool is then deduplicated.
- **Four-tier fallback download** (`enhanced_download_with_fallback`): each
  tier copies the base options and overrides the format and output template.
  It probes the metadata, downloads, and checks that the output path exists.
  The first tier that passes all three wins; if none passes, the call raises.
- **Preview** (`get_video_info_only`): the resolution labels are collected,
  deduplicated and sorted by height, highest first. The description is cut to
  500 characters.
- **Bot handlers** (`handle_url_message`, `_download_single_video`,
  `_handle_webpage_with_videos`): the branch logic and reply records. This
  includes the `m:ss` duration, the grouped view count, the reported file name,
  and the numbered listing of at most ten videos.

`modules/youtube_handler.py`:

- **Link harvesting** (`extract_youtube_urls`): eight case-insensitive
  `findall` patterns, concatenated in pattern order.
- **File-name sanitising** (`sanitize_filename`).
- **The `ytm_handler` music batch**:
  - the link normalisation (`https://` prefix and split at the first `://`);
  - the embed rewrite to `youtu.be/<id>`;
  - the output-name building;
  - the index loop with its polled cancel flag, its counter and the two
    shared flags it writes.

Modules, one per file: `Strings` (string vocabulary), `Urls` (netloc and
unquote), `VideoIds`, `EmbedScan`, `FallbackDownload`, `VideoInfo`,
`BotIntegration`, `LinkHarvest`, `Filenames`, `MusicBatch`.

Modelling choices:

- Pure Python functions become Dafny functions.
- Python loops that append to a list become methods with loops. Each method is
  proved equal to a specification function, and the properties are proved
  about that function.
- The shared `globals` flags become the class `MusicBatch.SharedFlags`, whose
  methods update them in place.
- Each regular expression is written out as a hand-made matcher, scanning
  positions leftmost-first as `re.search` and `re.findall` do.

## Model

| member | source | states |
|---|---|---|
| Urls.Netloc | enhanced_youtube_downloader.py:183 | `urlparse(url).netloc` holds no '/', '?' or '#', only characters of the URL other than tab/CR/LF; it fails only when the URL holds a bracket |
| Urls.RemoveUnsafe | enhanced_youtube_downloader.py:183 | `urlsplit` drops tab, CR and LF: none is left, every kept character comes from the input, and a text without them is unchanged |
| Urls.TakeAuthority | enhanced_youtube_downloader.py:183 | the authority after "//" is the longest prefix without '/', '?' or '#' |
| Urls.NetlocOfSchemeUrl | enhanced_youtube_downloader.py:183 | for `scheme://host<rest>` with a valid scheme and a delimiter-free host, the netloc is exactly the host |
| Urls.NetlocWithoutScheme | enhanced_youtube_downloader.py:183 | a string with no ':' that does not start with "//" has an empty netloc |
| Urls.Unquote | enhanced_youtube_downloader.py:205 | percent-decoding never lengthens the text |
| Urls.UnquoteWithoutPercent | enhanced_youtube_downloader.py:205 | a text without '%' is left unchanged by decoding |
| Urls.UnquotePrefix | enhanced_youtube_downloader.py:205 | a '%'-free prefix passes through decoding unchanged |
| Urls.UnquotePercentEncodeAll | enhanced_youtube_downloader.py:205 | decoding inverts full percent-encoding of any ASCII text |
| VideoIds.IsYouTubeUrl | enhanced_youtube_downloader.py:172-186 | the empty string is rejected; a recognised URL has a netloc whose lower-cased form contains one of the six domains |
| VideoIds.IsYouTubeUrlReduced | enhanced_youtube_downloader.py:174-186 | recognised iff non-empty, parsable, and the lower-cased netloc contains "youtube.com" or "youtu.be" (both directions) |
| VideoIds.DomainsReduce | enhanced_youtube_downloader.py:177-184 | containing any of the six domain strings is the same as containing one of the two shortest |
| VideoIds.NoCookieEmbedIsNotYouTubeUrl | enhanced_youtube_downloader.py:177-184 | `https://www.youtube-nocookie.com/embed/<id>` is not recognised: its host contains neither domain |
| VideoIds.SchemelessLinkIsNotYouTubeUrl | enhanced_youtube_downloader.py:183-184 | `youtube.com/watch?v=<id>` without a scheme has an empty netloc and is not recognised |
| VideoIds.WatchUrlIsYouTubeUrl | enhanced_youtube_downloader.py:177-184 | the canonical watch URL of any identifier is recognised |
| VideoIds.NetlocOfWatchUrl | enhanced_youtube_downloader.py:183 | the canonical watch URL's netloc is `www.youtube.com` |
| VideoIds.WatchUrl | enhanced_youtube_downloader.py:255 | the canonical URL is the fixed watch prefix followed by the identifier itself |
| VideoIds.WatchUrlInjective | enhanced_youtube_downloader.py:255 | different identifiers give different canonical URLs |
| VideoIds.IdAt | enhanced_youtube_downloader.py:209-212 | the capture `([a-zA-Z0-9_-]{11})` is exactly the first eleven characters, and fails iff they are fewer or not all identifier characters |
| VideoIds.AltsThenId | enhanced_youtube_downloader.py:209 | a match of the first pattern is an alternative followed by a valid identifier |
| VideoIds.KeyValueAt | enhanced_youtube_downloader.py:210 | a match of the key/value pattern yields a valid identifier and a positive match length within the text |
| VideoIds.MatchAt | enhanced_youtube_downloader.py:208-213 | whatever one pattern captures at a position is a valid identifier |
| VideoIds.Search | enhanced_youtube_downloader.py:216 | `re.search(...).group(1)` yields only valid identifiers |
| VideoIds.SearchFindsLeftmost | enhanced_youtube_downloader.py:216 | a match at p with none before it is what `re.search` returns |
| VideoIds.SearchResultPosition | enhanced_youtube_downloader.py:216 | a search result is the match at some position before which nothing matches |
| VideoIds.SearchNoneMeansNoMatch | enhanced_youtube_downloader.py:216 | a failed search means the pattern matches at no position |
| VideoIds.FirstMatchIsFirst | enhanced_youtube_downloader.py:215-218 | the loop returns the capture of the first pattern, in list order, whose search succeeds |
| VideoIds.ExtractVideoId | enhanced_youtube_downloader.py:188-220 | None for the empty string; any identifier returned has exactly 11 characters from `[A-Za-z0-9_-]` |
| VideoIds.ExtractVideoIdTriesPatternsInOrder | enhanced_youtube_downloader.py:205-218 | when pattern k is the first to match the decoded URL, its capture is the result |
| VideoIds.ExtractVideoIdNone | enhanced_youtube_downloader.py:215-220 | when no pattern matches the decoded URL, the result is None |
| VideoIds.ExtractVideoIdOfShape | enhanced_youtube_downloader.py:190-218 | each supported URL shape (watch, youtu.be, embed, v, shorts) followed by anything yields its identifier; only the first 11 characters are taken |
| VideoIds.ExtractVideoIdOfWatchUrl | enhanced_youtube_downloader.py:205-218 | the canonical watch URL of an identifier yields that identifier back |
| VideoIds.WatchUrlRoundTrip | enhanced_youtube_downloader.py:205-255 | for any URL with an identifier, its canonical URL is recognised and yields the same identifier |
| VideoIds.ExtractVideoIdOfPercentEncoded | enhanced_youtube_downloader.py:205 | a fully percent-encoded ASCII URL yields what the URL itself yields |
| EmbedScan.ResolveLinkCanonical | enhanced_youtube_downloader.py:103-106 | a candidate link contributes one canonical URL iff it is recognised and has an identifier, and that URL names the link's identifier |
| EmbedScan.ResolveLink | enhanced_youtube_downloader.py:103-106 | a candidate link's contribution: its canonical watch URL when it is recognised and has an identifier, else nothing (properties in `ResolveLinkCanonical`) |
| EmbedScan.FindAllKeyValue | enhanced_youtube_downloader.py:113 | every identifier found by the script `findall` is a valid identifier |
| EmbedScan.EmbeddedHead | enhanced_youtube_downloader.py:118 | a match of the embedded-link prefix has a length between 16 and the text's length |
| EmbedScan.EmbeddedLinkAt | enhanced_youtube_downloader.py:118 | the embedded-link pattern at one position: optional quote, the head, a non-empty run up to a quote, '>' or white space, optional closing quote; the captured link and a positive match length within the text (head in `EmbeddedHead`) |
| EmbedScan.FindAllEmbedded | enhanced_youtube_downloader.py:118 | `re.findall` of that pattern: the captures of the non-overlapping leftmost matches, in order (how a script pools them in `PoolScriptText`) |
| EmbedScan.IsElementorLink | enhanced_youtube_downloader.py:154 | `https?://[^"]+youtube[^"]+` over a quote-free segment: a scheme, then "youtube" with at least one character on each side |
| EmbedScan.ElementorAt | enhanced_youtube_downloader.py:154 | the page-builder pattern at one position: the `"youtube_url":"` key, the capture up to the next '"', which must exist, and a positive match length within the text |
| EmbedScan.FindAllElementor | enhanced_youtube_downloader.py:154 | `re.findall` of the page-builder pattern over the page text, in order (pooled in `PoolElementor`) |
| EmbedScan.PoolIframes | enhanced_youtube_downloader.py:100-106 | the iframe loop appends exactly the canonical URLs of the recognised iframe sources, in order |
| EmbedScan.PoolScriptText | enhanced_youtube_downloader.py:112-123 | one script text contributes its identifier assignments first, then its recognised embedded links |
| EmbedScan.PoolScripts | enhanced_youtube_downloader.py:109-123 | the script loop appends each non-empty script's candidates, in order |
| EmbedScan.ScriptUrls | enhanced_youtube_downloader.py:109-123 | a script with non-empty text gives the watch URLs of its identifier assignments, then those of its recognised embedded links; every one canonical (`ScriptUrlsWatch`) |
| EmbedScan.PoolJsonLd | enhanced_youtube_downloader.py:126-139 | the JSON-LD loop fails exactly when some JSON-LD script has no text; otherwise it pools every `VideoObject` embed URL |
| EmbedScan.PoolJsonLdScript | enhanced_youtube_downloader.py:129-137 | a readable JSON-LD script contributes its `VideoObject` embed URL when recognised |
| EmbedScan.LdUrls | enhanced_youtube_downloader.py:126-139 | a JSON-LD `VideoObject` gives the canonical URL of its recognised `embedUrl`, anything else nothing (pooled in `PoolJsonLd`) |
| EmbedScan.PoolMetas | enhanced_youtube_downloader.py:142-148 | the meta loop appends the canonical URLs of the `og:video` contents, in order |
| EmbedScan.OgUrls | enhanced_youtube_downloader.py:142-148 | a meta whose property contains "og:video" gives the canonical URL of its recognised content (pooled in `PoolMetas`) |
| EmbedScan.PoolElementor | enhanced_youtube_downloader.py:151-160 | the page-builder loop appends the canonical URLs of the links, with escaped slashes restored |
| EmbedScan.ElementorUrls | enhanced_youtube_downloader.py:155-160 | a page-builder link, with `\/` turned into `/`, gives its canonical URL when recognised (pooled in `PoolElementor`) |
| EmbedScan.PoolLink | enhanced_youtube_downloader.py:103-106 | one candidate link adds exactly its canonical URL when it is recognised and has an identifier |
| EmbedScan.CollectedAreWatchUrls | enhanced_youtube_downloader.py:100-160 | every pooled candidate is `https://www.youtube.com/watch?v=` followed by a valid identifier |
| EmbedScan.Collected | enhanced_youtube_downloader.py:100-160 | `youtube_urls` before de-duplication: iframes, scripts, JSON-LD, metas and page-builder links in that order, or None when a JSON-LD script has no text (properties in `CollectedAreWatchUrls` and the `Pool*` methods) |
| EmbedScan.Candidates | enhanced_youtube_downloader.py:76-160 | the pooled candidates of a fetch, none when the fetch failed or the scan raised |
| EmbedScan.Distinct | enhanced_youtube_downloader.py:163 | `list(set(xs))` has no duplicates and exactly the elements of xs |
| EmbedScan.ExtractEmbeddedYoutubeUrls | enhanced_youtube_downloader.py:76-170 | the result has no duplicates, holds exactly the candidates of a successful scan (none on a failed fetch or a raised scan), and every element is a canonical watch URL |
| FallbackDownload.TierOptionsOverride | enhanced_youtube_downloader.py:288-295 | each tier's options are the base options with `format` and `outtmpl` replaced, `merge_output_format` replaced only by a tier that defines one, and every other entry unchanged |
| FallbackDownload.TierOptions | enhanced_youtube_downloader.py:288-295 | a tier's options: the base copied, `format` and `outtmpl` set, `merge_output_format` set when the tier has one (properties in `TierOptionsOverride`) |
| FallbackDownload.EveryTierMergesToMp4 | enhanced_youtube_downloader.py:288-295 | every tier ends up merging to mp4: the base options already set `merge_output_format` to mp4 |
| FallbackDownload.InfoGet | enhanced_youtube_downloader.py:307-309 | `info.get(key, default)` is missing only for a present null |
| FallbackDownload.AttemptsCalls | enhanced_youtube_downloader.py:283-333 | from tier k on, the tool is called for consecutive tiers, each at most once, and every tier before the last one tried failed |
| FallbackDownload.Attempts | enhanced_youtube_downloader.py:283-336 | the tiers from k on: the first passing tier's result and the calls up to it, or the final exception after all calls (properties in the `Attempts*` lemmas) |
| FallbackDownload.AttemptsOutcome | enhanced_youtube_downloader.py:283-336 | the outcome is the last tried tier's result when it passed; otherwise it is "All download attempts failed" after all tiers |
| FallbackDownload.AttemptsInOrder | enhanced_youtube_downloader.py:283-336 | the tiers are tried in list order, each at most once, until the first that passes; its result is returned, or the final exception when none passes |
| FallbackDownload.AttemptsDownloadFields | enhanced_youtube_downloader.py:321-329 | a returned result names the output path, the video, and the label "Method i: ..." of the tier that passed |
| FallbackDownload.MethodLabel | enhanced_youtube_downloader.py:327 | `f"Method {i}: {description}"` with the tier's one-based number (carried by the result in `AttemptsDownloadFields`) |
| FallbackDownload.FirstPassingTierWins | enhanced_youtube_downloader.py:283-329 | the first passing tier k decides the result; exactly k+1 tool calls are made |
| FallbackDownload.NoPassingTierFails | enhanced_youtube_downloader.py:331-336 | when no tier passes, all four are tried and "All download attempts failed" is raised |
| FallbackDownload.RunTier | enhanced_youtube_downloader.py:286-333 | one tier makes its call with that tier's options, passes iff metadata, view count, download and existence check all succeed, and then returns that tier's result |
| FallbackDownload.AttemptsAfterFailure | enhanced_youtube_downloader.py:331-333 | a failing tier prepends its call to the later tiers' calls and leaves their outcome |
| FallbackDownload.DownloadTiers | enhanced_youtube_downloader.py:283-336 | the tier loop's outcome and calls are exactly those of the tier specification |
| FallbackDownload.AttemptsUseWatchUrl | enhanced_youtube_downloader.py:255-316 | every tool call of the tier loop is for the canonical watch URL of the video |
| FallbackDownload.ResolveVideo | enhanced_youtube_downloader.py:238-252 | a recognised URL resolves to its identifier or raises "Could not extract video ID from URL"; otherwise an empty scan raises "No YouTube videos found on the webpage", and a non-empty one resolves to a scanned video |
| FallbackDownload.EnhancedDownloadWithFallback | enhanced_youtube_downloader.py:222-336 | raises with no tool call when the video cannot be resolved; otherwise it is the tier specification for the resolved video; every call is for a canonical watch URL |
| VideoInfo.LabelHeightOfLabel | enhanced_youtube_downloader.py:378-381 | the sort key `int(x[:-1])` recovers the height a label `f"{h}p"` was made from |
| VideoInfo.HeightLabel | enhanced_youtube_downloader.py:378 | `f"{height}p"` |
| VideoInfo.LabelHeight | enhanced_youtube_downloader.py:381 | the sort key `int(x[:-1])`, inverse of `HeightLabel` by `LabelHeightOfLabel` |
| VideoInfo.HeightLabels | enhanced_youtube_downloader.py:374-379 | at most one label per format entry, each the label of its own height |
| VideoInfo.HeightLabelsMembers | enhanced_youtube_downloader.py:374-379 | a label is collected iff some format entry has that non-zero height |
| VideoInfo.CollectFormatLabels | enhanced_youtube_downloader.py:374-379 | the format loop appends exactly the labels of the entries with a height, in order |
| VideoInfo.InsertByHeight | enhanced_youtube_downloader.py:381 | inserting a label keeps the list strictly descending by height and adds exactly that label |
| VideoInfo.SortByHeight | enhanced_youtube_downloader.py:381 | the sort gives a strictly descending list with the same labels |
| VideoInfo.SortedFormats | enhanced_youtube_downloader.py:381 | `available_formats` has no duplicates, is strictly descending by height, and holds exactly the collected labels |
| VideoInfo.DescendingUnique | enhanced_youtube_downloader.py:381 | two strictly descending lists with the same labels are equal, so the unordered `set` does not affect the result |
| VideoInfo.FormatsTextOfLabels | enhanced_youtube_downloader.py:392 | the text is "Unknown" iff there is no label; otherwise every label occurs in it |
| VideoInfo.FormatsText | enhanced_youtube_downloader.py:381-392 | the sorted labels joined with ", ", or "Unknown" (properties in `FormatsTextOfLabels`) |
| VideoInfo.FormatsTextOfEntries | enhanced_youtube_downloader.py:374-392 | "Unknown" iff no format entry has a height; otherwise every entry's height label occurs in the text |
| VideoInfo.JoinedLabelsNotUnknown | enhanced_youtube_downloader.py:392 | a non-empty label list never joins to the text "Unknown" |
| VideoInfo.TruncateDescription | enhanced_youtube_downloader.py:389 | a description of at most 500 characters is unchanged; a longer one becomes its first 500 characters plus "..." |
| VideoInfo.TruncateIdempotent | enhanced_youtube_downloader.py:389 | cutting an already cut description changes nothing |
| VideoInfo.Summary | enhanced_youtube_downloader.py:383-393 | the result record exists iff the format list and description are not null; it names the video and its canonical URL, with a description of at most 503 characters |
| VideoInfo.ProbeResult | enhanced_youtube_downloader.py:367-397 | a raised probe reports its message, an empty one "Could not extract video information", and success comes only from metadata |
| VideoInfo.GetVideoInfoOnly | enhanced_youtube_downloader.py:338-397 | resolves the video as the download does, with the preview's own error texts; a recognised URL's preview is the probe of its canonical URL; a page's preview is the probe of the canonical URL of some scanned video, with the same outcomes; a success names its canonical URL |
| BotIntegration.ZeroPad2 | enhanced_youtube_downloader.py:496 | `f"{n:02d}"` is two digits that read back as n |
| BotIntegration.DurationTextRoundTrip | enhanced_youtube_downloader.py:496 | the `m:ss` rendering of a duration reads back as the same number of seconds, for negative durations too |
| BotIntegration.DurationText | enhanced_youtube_downloader.py:496 | `f"{d//60}:{d%60:02d}"`, also used at line 556 (inverted by `ParseDuration` in `DurationTextRoundTrip`) |
| BotIntegration.GroupedNatDigits | enhanced_youtube_downloader.py:497 | removing the separators from `f"{n:,}"` gives the plain decimal digits |
| BotIntegration.GroupedRoundTrip | enhanced_youtube_downloader.py:497 | the grouped view count, without its commas, parses back to the number |
| BotIntegration.GroupedNat | enhanced_youtube_downloader.py:497 | `f"{n:,}"` of a natural number: digits with ',' between groups of three (properties in `GroupedNatDigits`) |
| BotIntegration.Grouped | enhanced_youtube_downloader.py:497 | `f"{i:,}"` with a leading '-' for a negative count (inverted in `GroupedRoundTrip`) |
| BotIntegration.Basename | enhanced_youtube_downloader.py:499 | the base name is the '/'-free tail of the path |
| BotIntegration.BasenameOfJoin | enhanced_youtube_downloader.py:484-499 | the base name of `dir/name` is `name` when `name` holds no '/' |
| BotIntegration.ReportedFileName | enhanced_youtube_downloader.py:484-499 | the file name a success reply shows is the output template, still holding `%(ext)s` |
| BotIntegration.OutputPath | enhanced_youtube_downloader.py:484 | `downloads/<id>_<user>.%(ext)s` (its base name in `ReportedFileName`) |
| BotIntegration.SingleVideoReply | enhanced_youtube_downloader.py:491-515 | a raised download is reported as a download error; a record is built iff the download succeeded with a duration, and it carries that download's path and method |
| BotIntegration.InfoText | enhanced_youtube_downloader.py:492-500 | the success summary: heading, then title, `m:ss` duration, grouped views, method label and the file's base name, each on its own line (properties in `InfoTextFields`) |
| BotIntegration.InfoTextFields | enhanced_youtube_downloader.py:492-500 | the summary holds each value right after its own heading: the title, the duration as `DurationText`, the views as `Grouped`, the tier's label, and the base name of the file followed by a newline |
| BotIntegration.EmbeddedReply | enhanced_youtube_downloader.py:533-546 | the single embedded video gives a record iff its download succeeded; a raised download is reported by the page handler |
| BotIntegration.Shown | enhanced_youtube_downloader.py:552-567 | `youtube_urls[:10]`: at most ten, a prefix of the list, all of it when there are at most ten |
| BotIntegration.VideoLine | enhanced_youtube_downloader.py:553-559 | a video gets one line iff its preview succeeded, and the line starts with its number and ". " |
| BotIntegration.ListingIsNumbered | enhanced_youtube_downloader.py:552-559 | the listing's lines are numbered by increasing positions among the shown videos |
| BotIntegration.ListedPositionsFound | enhanced_youtube_downloader.py:552-559 | every listed position is that of a video whose preview succeeded |
| BotIntegration.ListingNumbered | enhanced_youtube_downloader.py:552-559 | one line per successful preview, in page order, each starting with the video's own position; failed previews are skipped, not renumbered |
| BotIntegration.Listing | enhanced_youtube_downloader.py:552-559 | the lines of the shown videos, in order, numbered by position (properties in the `Listing*` lemmas) |
| BotIntegration.ListingComplete | enhanced_youtube_downloader.py:552-559 | when every preview succeeds, every shown video gets a line |
| BotIntegration.ListingPrefixGrows | enhanced_youtube_downloader.py:552-559 | each loop turn appends exactly the next video's line |
| BotIntegration.PreviewLine | enhanced_youtube_downloader.py:553-559 | one loop turn gives the line of that video's preview |
| BotIntegration.ListVideos | enhanced_youtube_downloader.py:552-559 | the listing loop gives exactly the specified listing |
| BotIntegration.ListingReplyCapped | enhanced_youtube_downloader.py:548-568 | a listing reply counts all videos of the page, carries the first ten (all when at most ten) in scan order, makes no download, and has at most one line per carried video |
| BotIntegration.DownloadReplyOfId | enhanced_youtube_downloader.py:484-509 | a download reply for a known identifier carries the path built from video and user, shows the template as its file name, and names the last tier tried |
| BotIntegration.SuccessReplyNamesTemplate | enhanced_youtube_downloader.py:478-509 | a download reply for a YouTube link implies the link had an identifier; it carries that path, that file name and the last tier's label |
| BotIntegration.DownloadSingleVideo | enhanced_youtube_downloader.py:478-515 | the reply and tool calls of a direct YouTube link are those of the fallback download for its identifier |
| BotIntegration.SingleVideoHandled | enhanced_youtube_downloader.py:478-515 | the direct download's reply and calls: "Could not extract video ID" with no call, or the tier loop's outcome and calls for the identifier |
| BotIntegration.HandleWebpageWithVideos | enhanced_youtube_downloader.py:517-571 | no video gives the "no videos" text; one video is downloaded; several are listed without downloading |
| BotIntegration.WebpageHandled | enhanced_youtube_downloader.py:517-571 | the page handler's reply and calls by the number of scanned videos: none, one (downloaded), several (listed, no call) |
| BotIntegration.HandleUrlMessage | enhanced_youtube_downloader.py:456-476 | a recognised URL is downloaded directly with no scan; anything else is scanned as a page and handled by the page branch |
| LinkHarvest.RunLength | modules/youtube_handler.py:21-28 | `[\w-]+` takes the longest run of word characters and '-' |
| LinkHarvest.Shift | modules/youtube_handler.py:21-28 | a match length moved past a matched piece keeps success and adds the piece's length |
| LinkHarvest.MatchPieces | modules/youtube_handler.py:21-28 | a pattern match at the start of a text is non-empty and within the text |
| LinkHarvest.FindAll | modules/youtube_handler.py:33 | every `findall` match is non-empty |
| LinkHarvest.FindAllSubstrings | modules/youtube_handler.py:33 | every match is a piece of the text in its original case |
| LinkHarvest.HarvestedOccurInText | modules/youtube_handler.py:18-36 | every harvested link is non-empty and occurs in the text |
| LinkHarvest.Harvest | modules/youtube_handler.py:18-36 | the matches of the first k patterns, concatenated in pattern order |
| LinkHarvest.HarvestKeeps | modules/youtube_handler.py:32-34 | later patterns only append: the first j patterns' matches stay a prefix |
| LinkHarvest.ExtractYoutubeUrls | modules/youtube_handler.py:18-36 | the loop returns the matches of the eight patterns, concatenated in pattern order |
| LinkHarvest.ShortLinkMatchesWithScheme | modules/youtube_handler.py:24 | the fourth pattern matches a whole `https://youtu.be/<run>` |
| LinkHarvest.ShortLinkMatchesWithoutScheme | modules/youtube_handler.py:28 | the eighth pattern finds `youtu.be/<run>` inside it, and nothing else |
| LinkHarvest.ShortLinkHarvestedTwice | modules/youtube_handler.py:20-34 | one short link in a text is harvested twice, once with and once without its scheme |
| LinkHarvest.WithScheme | modules/youtube_handler.py:118-119 | "https://" is prepended iff the link does not start with "http" (case-sensitive) |
| LinkHarvest.LinkParts | modules/youtube_handler.py:118-124 | the split at the first "://" gives two parts that rejoin to the link, with no "://" in the first; it fails iff there is no "://" |
| LinkHarvest.SchemelessLinkParts | modules/youtube_handler.py:118-124 | a link without "http" at its start splits into "https" and the link itself |
| LinkHarvest.SchemedLinkParts | modules/youtube_handler.py:118-124 | a link starting with "http" that holds "://" splits into parts that rejoin to it |
| LinkHarvest.Pairs | modules/youtube_handler.py:116-124 | the loop keeps at most one pair per link |
| LinkHarvest.PairsOfDefined | modules/youtube_handler.py:116-124 | when every link splits, there is exactly one pair per link, in order |
| LinkHarvest.CollectLinks | modules/youtube_handler.py:116-124 | the loop that fills `links` gives exactly the specified pairs |
| LinkHarvest.LinksOfKept | modules/youtube_handler.py:116-124 | when every link holds "://", `links` has one pair per link, in order |
| LinkHarvest.MatchKept | modules/youtube_handler.py:20-29 | every match of a harvest pattern holds "://" once its scheme is ensured |
| LinkHarvest.HarvestKept | modules/youtube_handler.py:113-124 | every harvested link passes the `"://" in url` test |
| LinkHarvest.HarvestedLinksAllKept | modules/youtube_handler.py:113-124 | `links` has exactly one pair per harvested link, in order: no link is dropped |
| LinkHarvest.EmbedId | modules/youtube_handler.py:200 | the cut identifier begins the text after the first "/embed/" and holds no "/embed/", '?' or '&' |
| LinkHarvest.EmbedIdEnds | modules/youtube_handler.py:200 | the cut runs to the end or stops at '?', '&' or a second "/embed/" |
| LinkHarvest.EmbedBranchCuts | modules/youtube_handler.py:197-203 | an embed part always holds "/embed/", so the inner else is unreachable, and it becomes `youtu.be/` plus the cut identifier |
| LinkHarvest.AudioUrl | modules/youtube_handler.py:214 | the final URL is "https://" followed by the rewritten part |
| LinkHarvest.RewriteLinkPart | modules/youtube_handler.py:197-212 | `Vxy`: an embed part becomes `youtu.be/<id>`, a watch or short link is kept, anything else has the nocookie embed host replaced (properties in `EmbedBranchCuts`, `RewriteIdempotent`, `EmbedLinkRewritten`) |
| LinkHarvest.ShortLinkIsNotEmbed | modules/youtube_handler.py:197 | a short link whose identifier holds no "/embed/" does not take the embed branch |
| LinkHarvest.RewriteIdempotent | modules/youtube_handler.py:197-212 | rewriting an embed, watch or short-link part twice is rewriting it once |
| LinkHarvest.EmbedLinkRewritten | modules/youtube_handler.py:197-214 | every embed link of either host, with or without "www.", becomes `https://youtu.be/<id>` |
| Filenames.StripForbidden | modules/youtube_handler.py:41 | deletion leaves no forbidden character and only characters of the input |
| Filenames.StripForbiddenFixed | modules/youtube_handler.py:41 | deletion is the identity exactly on strings without forbidden characters |
| Filenames.StripForbiddenConcat | modules/youtube_handler.py:41 | deletion distributes over concatenation |
| Filenames.StripForbiddenKeepsAllowed | modules/youtube_handler.py:41 | deletion removes exactly the forbidden characters: every other character is kept as often as it occurs and in its original order, and the length drops by the number of forbidden characters |
| Filenames.CountForbidden | modules/youtube_handler.py:41 | the count of forbidden characters is zero iff there are none |
| Filenames.SanitizeFilename | modules/youtube_handler.py:38-44 | the result has at most 100 characters, no forbidden character and no space, and is a prefix of the stripped, underscored input (all of it when short enough) |
| Filenames.SanitizeFixedPoints | modules/youtube_handler.py:38-44 | a name is left unchanged iff it is clean and at most 100 characters long |
| Filenames.SanitizeIdempotent | modules/youtube_handler.py:38-44 | sanitising twice is sanitising once |
| MusicBatch.SharedFlags.Begin | modules/youtube_handler.py:100-101 | a request is being processed and no cancel is pending |
| MusicBatch.SharedFlags.ClearOnCancel | modules/youtube_handler.py:188-192 | the cancel branch clears both flags |
| MusicBatch.SharedFlags.Finish | modules/youtube_handler.py:267-271 | the `finally` block clears the processing flag and leaves the cancel flag |
| MusicBatch.SharedFlags.ObserveCancel | modules/youtube_handler.py:188 | what other handlers leave in `globals.cancel_requested`: the flag takes that value, "processing" is unchanged |
| MusicBatch.LookupTitle | modules/youtube_handler.py:217-227 | a missing or failed lookup gives "YouTube Video"; a null title makes `.replace` raise |
| MusicBatch.BuildNamesShape | modules/youtube_handler.py:227-231 | the yt-dlp output name is a clean prefix of at most 60 characters of the sanitised title, then '_', CREDIT and ".mp3"; the shown name has no underscore in its title part |
| MusicBatch.BuildNames | modules/youtube_handler.py:227-231 | `name` and `name1` from the title (properties in `BuildNamesShape`) |
| MusicBatch.ErrorText | modules/youtube_handler.py:261-262 | the reported error is "Unknown error" without stderr, otherwise its first 100 characters |
| MusicBatch.PyIndex | modules/youtube_handler.py:194 | Python's `links[i]` for `-n <= i < n`, counting negative indices from the end |
| MusicBatch.Checks | modules/youtube_handler.py:187 | `range(arg - 1, len(links))` runs up to the last link and is empty iff `arg - 1 >= len(links)` |
| MusicBatch.ItemOutcome | modules/youtube_handler.py:194-263 | an index out of range or a null title stops the batch with "Failed Reason"; a link without a YouTube domain is skipped; otherwise one yt-dlp call with the rewritten URL and the built name, and one reply numbered with the counter |
| MusicBatch.CheckOutcome | modules/youtube_handler.py:187-263 | each check reads the cancel flag first and stops iff it is set; otherwise it handles the item at index `arg - 1 + j` |
| MusicBatch.Apply | modules/youtube_handler.py:187-263 | one check appends at most one reply and keeps the earlier ones |
| MusicBatch.WalkChecks | modules/youtube_handler.py:187-263 | the loop's final state is the specified walk over the checks |
| MusicBatch.Walk | modules/youtube_handler.py:187-263 | the state after the first k checks, unchanged once a check stops the loop |
| MusicBatch.BatchWalk | modules/youtube_handler.py:186-263 | the walk over all `len(links) - (arg - 1)` checks |
| MusicBatch.RunBatch | modules/youtube_handler.py:186-271 | replies, calls and counter are the walk's, followed by the final reply; the processing flag ends cleared; the cancel flag ends cleared when the batch was cancelled and otherwise holds what other handlers left in it after the last check |
| MusicBatch.WalkStopped | modules/youtube_handler.py:187-192 | once the walk has stopped, later checks change nothing |
| MusicBatch.ItemNumbers | modules/youtube_handler.py:234-262 | there are at most as many item numbers as replies |
| MusicBatch.BatchWellNumbered | modules/youtube_handler.py:234-263 | every processed check sends a reply numbered with the counter, and a halt sends none |
| MusicBatch.ApplyCounts | modules/youtube_handler.py:249-263 | one check moves the counter by at most one, exactly when it makes a call and sends a reply numbered with the old counter |
| MusicBatch.CountPerProcessedLink | modules/youtube_handler.py:249-263 | the counter is `arg` plus the number of calls, and the item replies are numbered `arg`, `arg + 1`, ... in order, whatever each download's result |
| MusicBatch.BatchCount | modules/youtube_handler.py:186-271 | the same for the whole batch, the final reply included |
| MusicBatch.CancelStopsBatch | modules/youtube_handler.py:188-192 | a cancel seen at check j stops the batch there: nothing later is called or counted, and "STOPPED" and the final reply follow |
| MusicBatch.WalkReadsCancelBelow | modules/youtube_handler.py:187-188 | the first k checks depend on the cancel flag only at checks 0 to k-1 |
| MusicBatch.LateCancelUnread | modules/youtube_handler.py:187-271 | a cancel requested after the last check changes no reply, call or count of the batch |
| MusicBatch.WalkHalts | modules/youtube_handler.py:186-266 | a halting check's reply is the walk's last one |
| MusicBatch.VisitsInOrder | modules/youtube_handler.py:187-194 | the j-th call happens only with the cancel flag clear and is for the link at index `arg - 1 + j`, so links are visited in increasing order |
| MusicBatch.NonYouTubeLinkSkipped | modules/youtube_handler.py:233 | a URL without "youtube.com" or "youtu.be" is skipped: no call, no reply, no count |
| MusicBatch.BatchSafeCalls | modules/youtube_handler.py:227-237 | every call the checks can make is for a YouTube link and writes to a clean file name |
| MusicBatch.WalkCallsSafe | modules/youtube_handler.py:227-237 | every call made during the walk is for a YouTube link and writes to a clean file name |
| MusicBatch.CallsAreSafe | modules/youtube_handler.py:227-237 | every yt-dlp call of the batch is for a YouTube link and writes to a clean file name |
| MusicBatch.PlanOf | modules/youtube_handler.py:103-185 | which early reply ends the request (unsupported input, unreadable file, no links, a start that is not a number); otherwise one link pair per harvested link, starting at 1 for text and at the given number for a file |
| MusicBatch.YtmHandler | modules/youtube_handler.py:94-272 | an early end leaves "processing" set and no cancel; a batch yields the walk's replies, calls and counter, clears "processing", and leaves a cancel requested after the last check set |

## Left out

- HTTP fetching, the DOM parsing and `json.loads` are left out. The model takes the page as already extracted data: iframe sources, script kinds and texts, parsed JSON-LD values, meta properties and contents, and page text. A failed fetch is a single `FetchFailed` value.
- `yt_dlp` (`extract_info`, `download`), `subprocess.run` of yt-dlp and `os.path.exists` are oracle parameters. They give the per-tier probe, download and existence results and the per-item run result and stderr. The option values other than `format`, `outtmpl` and `merge_output_format` are opaque (`retry_sleep_functions` and the other tuning values).
- The oEmbed title lookup (`modules/youtube_handler.py:217-225`) is an oracle input per item.
- Telegram messaging is left out: `reply_text`, `listen`, `edit`, `delete`, `send_document`, `pin_chat_message`, the playlist pin and the progress messages. Replies are modelled as values, and message texts only where a property depends on them.
- `cookies_handler`, `getcookies_handler`, `y2t_handler`, `batch_extract_from_webpage`, `render_start.py` and `cleanup_temp_files` are not part of this model. They are I/O and start-up wiring.
- File reading, `os.remove` and the temporary files are left out. A file that cannot be read is `content == None`.
- `async`/`await` and other handlers setting the shared flags are left out. The cancel flag is an input read at each check of the batch loop and once more when the loop is over; there is no concurrency.
- YtmHandler: a cancel requested by another handler during the early replies, before the batch starts, is not modelled; an early end reports the flag as `Begin` left it.
- Unicode is left out:
  - `\w`, `\s` and `re.IGNORECASE` are restricted to ASCII.
  - `str.lower()` lower-cases ASCII letters only.
  - `unquote` decodes each `%XY` escape to one character: ASCII below 0x80, U+FFFD at or above it. Multi-byte UTF-8 sequences are not decoded.
- `Netloc` does not check the port or the bracketed IPv6 form inside the brackets. It models only the unmatched-bracket `ValueError`.
- ExtractEmbeddedYoutubeUrls: the order of `list(set(...))` is not fixed. Only "no duplicates, same elements" is stated, so "the first scanned URL" (lines 246 and 351) is some scanned URL.
- A format entry or JSON value of an unexpected Python type is left out (a non-dict entry, a non-string `embedUrl`, `content` or title). Such values are not representable in the model; only missing and null are.
- `int(raw_text)` is an `Option<int>` computed outside the model. A non-number ends the handler (the uncaught `ValueError`).
- The `zfill(3)` rendering and the exact reply texts of the batch are left out. The replies carry the counter and the name.
- Durations are integers; a floating-point duration from the tool is not modelled.
- `content.strip()` on a text message is not applied. No harvest pattern matches white space, so the links found are meant to be the same; the model does not prove this.
- `chat_id` is unused by the source and not modelled.

## Notes on behaviour

The model follows the code where it differs from what its comments or
documentation suggest:

- A `youtube-nocookie.com` embed is not recognised by `_is_youtube_url`: the host contains neither domain (`VideoIds.NoCookieEmbedIsNotYouTubeUrl`). The page scan therefore drops privacy-enhanced iframes, although the scan is described as finding them.
- The existence check (line 319) tests the output template, which still holds `%(ext)s`. A tier passes only as far as the oracle says that path exists, and the reply's file name is the template (`BotIntegration.ReportedFileName`).
- Every tier merges to mp4, because the base options already set `merge_output_format` (`FallbackDownload.EveryTierMergesToMp4`).
- A null `view_count` makes a tier fail: the `{:,}` in the log line raises `TypeError`, which the tier's handler swallows.
- A JSON-LD script whose text is None makes `json.loads` raise `TypeError`. Only `JSONDecodeError` is caught per script, so the whole scan returns `[]` (`EmbedScan.PoolJsonLd`).
- A null duration makes `_download_single_video` report a download error. In the listing, it gives the "info unavailable" line.
- The early returns of `ytm_handler` before the batch leave `processing_request` set (`MusicBatch.YtmHandler`).
- A cancel requested after the batch's last check, for example while the last item's yt-dlp run is going on, is never read and never cleared: the `finally` block clears only `processing_request`, so the next batch's `Begin` is what clears it (`MusicBatch.LateCancelUnread`, `MusicBatch.RunBatch`).
- The inner `else` at `modules/youtube_handler.py:203` is unreachable (`LinkHarvest.EmbedBranchCuts`).
