/**
 * YouTube link recognition and video-identifier extraction
 * (`EnhancedYouTubeDownloader._is_youtube_url` and `_extract_video_id`).
 *
 * A video identifier is exactly eleven characters from [A-Za-z0-9_-]. Every
 * URL shape the resolver understands collapses to one identifier, and from
 * there to the canonical watch URL `https://www.youtube.com/watch?v=<id>`.
 *
 * The four regular expressions of `_extract_video_id` are written out as
 * matchers over the suffix of the text at which a match would start, so that
 * `re.search` becomes "the first suffix, leftmost first, at which the matcher
 * succeeds". Alternatives are tried in the order the pattern lists them, and
 * an alternative whose continuation fails falls through to the next one, as
 * Python's backtracking engine does.
 */
module VideoIds {
  import opened Strings
  import opened Urls

  // ---------------------------------------------------------------------------
  // _is_youtube_url
  // ---------------------------------------------------------------------------

  const YouTubeDomains: seq<string> :=
    ["youtube.com", "www.youtube.com", "youtu.be", "www.youtu.be", "m.youtube.com", "music.youtube.com"]

  /** `any(domain in host for domain in YouTubeDomains)`. */
  predicate MentionsYouTubeDomain(host: string) {
    exists k :: 0 <= k < |YouTubeDomains| && Contains(host, YouTubeDomains[k])
  }

  /**
   * `_is_youtube_url(url)`: false for the empty string and for a URL that
   * `urlparse` rejects; otherwise whether the lower-cased netloc contains one
   * of the six domain strings.
   */
  function IsYouTubeUrl(url: string): (r: bool)
    ensures url == "" ==> !r
    ensures r ==> Netloc(url).Some? && MentionsYouTubeDomain(Lower(Netloc(url).value))
  {
    if url == "" then false
    else match Netloc(url)
      case None => false
      case Some(host) => MentionsYouTubeDomain(Lower(host))
  }

  /**
   * Four of the six domain strings contain "youtube.com" or "youtu.be", so the
   * test reduces to containment of those two strings in the netloc.
   */
  lemma IsYouTubeUrlReduced(url: string)
    ensures IsYouTubeUrl(url) <==>
      url != "" && Netloc(url).Some? &&
      (Contains(Lower(Netloc(url).value), "youtube.com") || Contains(Lower(Netloc(url).value), "youtu.be"))
  {
    if url != "" && Netloc(url).Some? {
      var host := Lower(Netloc(url).value);
      DomainsReduce(host);
    }
  }

  lemma DomainsReduce(host: string)
    ensures MentionsYouTubeDomain(host) <==> Contains(host, "youtube.com") || Contains(host, "youtu.be")
  {
    assert YouTubeDomains[0] == "youtube.com" && YouTubeDomains[2] == "youtu.be";
    if MentionsYouTubeDomain(host) {
      var k :| 0 <= k < |YouTubeDomains| && Contains(host, YouTubeDomains[k]);
      var d := YouTubeDomains[k];
      DomainHoldsBase(k);
      if Contains(d, "youtube.com") {
        ContainsTrans(host, d, "youtube.com");
      } else {
        ContainsTrans(host, d, "youtu.be");
      }
    }
  }

  /** Each domain string contains one of the two shortest. */
  lemma DomainHoldsBase(k: nat)
    requires k < |YouTubeDomains|
    ensures Contains(YouTubeDomains[k], "youtube.com") || Contains(YouTubeDomains[k], "youtu.be")
  {
    var d := YouTubeDomains[k];
    if k == 0 || k == 2 {
      ContainsSelf(d);
    } else if k == 3 {
      assert d[4..][..8] == "youtu.be";
      ContainsAt(d, 4, "youtu.be");
    } else {
      var at := if k == 1 then 4 else if k == 4 then 2 else 6;
      assert d[at..][..11] == "youtube.com";
      ContainsAt(d, at, "youtube.com");
    }
  }

  // ---------------------------------------------------------------------------
  // Video identifiers and the canonical watch URL
  // ---------------------------------------------------------------------------

  /** `[a-zA-Z0-9_-]`. */
  predicate IsIdChar(c: char) { IsAsciiLetter(c) || IsDigit(c) || c == '_' || c == '-' }

  predicate IsVideoId(s: string) {
    |s| == 11 && forall i :: 0 <= i < |s| ==> IsIdChar(s[i])
  }

  const WatchPrefix: string := "https://www.youtube.com/watch?v="

  /** `f"https://www.youtube.com/watch?v={video_id}"`. */
  function WatchUrl(id: string): (u: string)
    ensures StartsWith(u, WatchPrefix) && u[|WatchPrefix|..] == id
  {
    WatchPrefix + id
  }

  /** The strings `WatchUrl` produces from a valid identifier. */
  predicate IsWatchUrl(u: string) {
    StartsWith(u, WatchPrefix) && IsVideoId(u[|WatchPrefix|..])
  }

  lemma WatchUrlInjective(a: string, b: string)
    requires WatchUrl(a) == WatchUrl(b)
    ensures a == b
  {
    assert a == WatchUrl(a)[|WatchPrefix|..];
  }

  // ---------------------------------------------------------------------------
  // The four patterns of _extract_video_id
  // ---------------------------------------------------------------------------

  /** `([a-zA-Z0-9_-]{11})` at the start of `t`: exactly the first eleven characters. */
  function IdAt(t: string): (r: Option<string>)
    ensures r.Some? ==> IsVideoId(r.value) && StartsWith(t, r.value)
    ensures r.None? <==> |t| < 11 || !IsVideoId(t[..11])
  {
    if |t| >= 11 && IsVideoId(t[..11]) then Some(t[..11]) else None
  }

  /**
   * `(?:A0|A1|...)([a-zA-Z0-9_-]{11})` at the start of `t`: the first
   * alternative that is a prefix of `t` AND is followed by an identifier.
   */
  function AltsThenId(t: string, alts: seq<string>): (r: Option<string>)
    ensures r.Some? ==> IsVideoId(r.value)
    ensures r.Some? ==> exists k :: 0 <= k < |alts| && StartsWith(t, alts[k]) && IdAt(t[|alts[k]|..]) == r
    decreases |alts|
  {
    if |alts| == 0 then None
    else if StartsWith(t, alts[0]) && IdAt(t[|alts[0]|..]).Some? then IdAt(t[|alts[0]|..])
    else
      var r := AltsThenId(t, alts[1..]);
      assert r.Some? ==> exists k :: 1 <= k < |alts| && StartsWith(t, alts[k]) && IdAt(t[|alts[k]|..]) == r by {
        if r.Some? {
          var k :| 0 <= k < |alts[1..]| && StartsWith(t, alts[1..][k]) && IdAt(t[|alts[1..][k]|..]) == r;
          assert alts[1..][k] == alts[k + 1];
        }
      }
      r
  }

  /** The length of the run of `\s` characters at the start of `t`. */
  function SpaceRun(t: string): (n: nat)
    ensures n <= |t|
    ensures forall i :: 0 <= i < n ==> IsSpace(t[i])
    ensures n == |t| || !IsSpace(t[n])
    decreases |t|
  {
    if |t| > 0 && IsSpace(t[0]) then 1 + SpaceRun(t[1..]) else 0
  }

  /**
   * `\s*[:=]\s*["']([a-zA-Z0-9_-]{11})["']` at the start of `t`, giving the
   * identifier and the number of characters matched. Each `\s*` is followed by
   * a token that is not whitespace, so only its longest run can succeed.
   */
  function SeparatorThenValue(t: string): (r: Option<(string, nat)>)
    ensures r.Some? ==> IsVideoId(r.value.0) && 14 <= r.value.1 <= |t|
  {
    var a := SpaceRun(t);
    if a < |t| && (t[a] == ':' || t[a] == '=') then
      var b := a + 1 + SpaceRun(t[a + 1..]);
      if b < |t| && IsQuote(t[b]) && IdAt(t[b + 1..]).Some? && b + 12 < |t| && IsQuote(t[b + 12]) then
        Some((IdAt(t[b + 1..]).value, b + 13))
      else None
    else None
  }

  /** `["']?` followed by the separator and quoted value, backtracking over the optional quote. */
  function AfterKey(t: string): (r: Option<(string, nat)>)
    ensures r.Some? ==> IsVideoId(r.value.0) && 14 <= r.value.1 <= |t|
  {
    if |t| > 0 && IsQuote(t[0]) && SeparatorThenValue(t[1..]).Some? then
      var v := SeparatorThenValue(t[1..]).value;
      Some((v.0, v.1 + 1))
    else SeparatorThenValue(t)
  }

  const Keys: seq<string> := ["videoId", "video_id"]

  /** `(?:videoId|video_id)` followed by the rest of the key/value pattern. */
  function KeyThenValue(t: string, keys: seq<string>): (r: Option<(string, nat)>)
    requires forall k :: 0 <= k < |keys| ==> |keys[k]| > 0
    ensures r.Some? ==> IsVideoId(r.value.0) && 15 <= r.value.1 <= |t|
    decreases |keys|
  {
    if |keys| == 0 then None
    else if StartsWith(t, keys[0]) && AfterKey(t[|keys[0]|..]).Some? then
      var v := AfterKey(t[|keys[0]|..]).value;
      Some((v.0, |keys[0]| + v.1))
    else KeyThenValue(t, keys[1..])
  }

  /**
   * `["']?(?:videoId|video_id)["']?\s*[:=]\s*["']([a-zA-Z0-9_-]{11})["']` at
   * the start of `t`: the identifier and the length of the whole match.
   */
  function KeyValueAt(t: string): (r: Option<(string, nat)>)
    ensures r.Some? ==> IsVideoId(r.value.0) && 0 < r.value.1 <= |t|
  {
    if |t| > 0 && IsQuote(t[0]) && KeyThenValue(t[1..], Keys).Some? then
      var v := KeyThenValue(t[1..], Keys).value;
      Some((v.0, v.1 + 1))
    else KeyThenValue(t, Keys)
  }

  /** The shapes of the patterns: literal alternatives before an identifier, or the key/value form. */
  datatype IdPattern = Prefixed(alts: seq<string>) | KeyValue

  /** `(?:youtube\.com/watch\?v=|youtu\.be/|youtube\.com/embed/|youtube\.com/v/|youtube\.com/shorts/)(id)` */
  const LinkPattern: IdPattern :=
    Prefixed(["youtube.com/watch?v=", "youtu.be/", "youtube.com/embed/", "youtube.com/v/", "youtube.com/shorts/"])
  /** `/(?:embed|v|watch)/(id)` */
  const PathPattern: IdPattern := Prefixed(["/embed/", "/v/", "/watch/"])
  /** `[?&]v=(id)` */
  const QueryPattern: IdPattern := Prefixed(["?v=", "&v="])

  /** The patterns in the order `_extract_video_id` tries them. */
  const IdPatterns: seq<IdPattern> := [LinkPattern, KeyValue, PathPattern, QueryPattern]

  /** The capture of `pat` when a match starts at the beginning of `t`. */
  function MatchAt(pat: IdPattern, t: string): (r: Option<string>)
    ensures r.Some? ==> IsVideoId(r.value)
  {
    match pat
    case Prefixed(alts) => AltsThenId(t, alts)
    case KeyValue => match KeyValueAt(t) case Some(v) => Some(v.0) case None => None
  }

  /** A matcher: the capture of a pattern when it matches at the start of a text. */
  type Matcher = string -> Option<string>

  function MatcherOf(pat: IdPattern): Matcher {
    (u: string) => MatchAt(pat, u)
  }

  /** `re.search`: the capture at the leftmost position where the matcher succeeds. */
  function SearchBy(m: Matcher, t: string): (r: Option<string>)
    decreases |t|
  {
    if m(t).Some? then m(t)
    else if |t| == 0 then None
    else SearchBy(m, t[1..])
  }

  /** `re.search(pat, t).group(1)`. */
  function Search(pat: IdPattern, t: string): (r: Option<string>)
    ensures r.Some? ==> IsVideoId(r.value)
  {
    SearchByFound(MatcherOf(pat), t);
    SearchBy(MatcherOf(pat), t)
  }

  /** The first pattern of `pats` that matches somewhere in `s`, and its capture. */
  function FirstMatch(pats: seq<IdPattern>, s: string): (r: Option<string>)
    ensures r.Some? ==> IsVideoId(r.value)
    decreases |pats|
  {
    if |pats| == 0 then None
    else match Search(pats[0], s)
      case Some(id) => Some(id)
      case None => FirstMatch(pats[1..], s)
  }

  /**
   * `_extract_video_id(url)`: None for the empty string; otherwise the URL is
   * percent-decoded and the four patterns are tried in order.
   */
  function ExtractVideoId(url: string): (r: Option<string>)
    ensures url == "" ==> r.None?
    ensures r.Some? ==> IsVideoId(r.value)
  {
    if url == "" then None else FirstMatch(IdPatterns, Unquote(url))
  }

  // ---------------------------------------------------------------------------
  // re.search is leftmost-first
  // ---------------------------------------------------------------------------

  /** A match at `p` with no match before it is what the search returns. */
  lemma {:induction false} SearchFindsLeftmost(m: Matcher, t: string, p: nat)
    requires p <= |t| && m(t[p..]).Some?
    requires forall q :: 0 <= q < p ==> m(t[q..]).None?
    ensures SearchBy(m, t) == m(t[p..])
    decreases p
  {
    assert t[0..] == t;
    if p > 0 {
      forall q | 0 <= q < p - 1
        ensures m(t[1..][q..]).None?
      {
        assert t[1..][q..] == t[q + 1..];
      }
      assert t[1..][p - 1..] == t[p..];
      SearchFindsLeftmost(m, t[1..], p - 1);
    }
  }

  /** Whatever the search returns is the capture at a position before which nothing matches. */
  lemma {:induction false} SearchResultPosition(m: Matcher, t: string) returns (p: nat)
    requires SearchBy(m, t).Some?
    ensures p <= |t| && m(t[p..]) == SearchBy(m, t)
    ensures forall q :: 0 <= q < p ==> m(t[q..]).None?
    decreases |t|
  {
    assert t[0..] == t;
    if m(t).Some? {
      p := 0;
    } else {
      var p' := SearchResultPosition(m, t[1..]);
      p := p' + 1;
      assert t[1..][p'..] == t[p..];
      forall q | 0 < q < p
        ensures m(t[q..]).None?
      {
        assert t[1..][q - 1..] == t[q..];
      }
    }
  }

  /** No result means no position matches. */
  lemma {:induction false} SearchNoneMeansNoMatch(m: Matcher, t: string, p: nat)
    requires SearchBy(m, t).None? && p <= |t|
    ensures m(t[p..]).None?
    decreases p
  {
    assert t[0..] == t;
    if p > 0 {
      assert t[1..][p - 1..] == t[p..];
      SearchNoneMeansNoMatch(m, t[1..], p - 1);
    }
  }

  /** A prefix at whose positions the pattern never matches is skipped by the search. */
  lemma SearchSkipsPrefix(m: Matcher, a: string, b: string)
    requires forall q :: 0 <= q < |a| ==> m((a + b)[q..]).None?
    ensures SearchBy(m, a + b) == SearchBy(m, b)
  {
    if SearchBy(m, b).Some? {
      SearchSkipsPrefixFound(m, a, b);
    } else {
      SearchSkipsPrefixMissing(m, a, b);
    }
  }

  lemma SearchSkipsPrefixFound(m: Matcher, a: string, b: string)
    requires forall q :: 0 <= q < |a| ==> m((a + b)[q..]).None?
    requires SearchBy(m, b).Some?
    ensures SearchBy(m, a + b) == SearchBy(m, b)
  {
    var p := SearchResultPosition(m, b);
    assert (a + b)[|a| + p..] == b[p..];
    forall q | |a| <= q < |a| + p
      ensures m((a + b)[q..]).None?
    {
      assert (a + b)[q..] == b[q - |a|..];
    }
    SearchFindsLeftmost(m, a + b, |a| + p);
  }

  lemma SearchSkipsPrefixMissing(m: Matcher, a: string, b: string)
    requires forall q :: 0 <= q < |a| ==> m((a + b)[q..]).None?
    requires SearchBy(m, b).None?
    ensures SearchBy(m, a + b).None?
  {
    if SearchBy(m, a + b).Some? {
      var p := SearchResultPosition(m, a + b);
      if p >= |a| {
        assert (a + b)[p..] == b[p - |a|..];
        SearchNoneMeansNoMatch(m, b, p - |a|);
      }
    }
  }

  /** What the search returns is the matcher's result at some position. */
  lemma SearchByFound(m: Matcher, t: string)
    ensures SearchBy(m, t).Some? ==> exists p :: 0 <= p <= |t| && m(t[p..]) == SearchBy(m, t)
  {
    if SearchBy(m, t).Some? {
      var p := SearchResultPosition(m, t);
    }
  }

  // ---------------------------------------------------------------------------
  // Pattern order
  // ---------------------------------------------------------------------------

  /** FirstMatch returns the capture of the first pattern, in list order, whose search succeeds. */
  lemma {:induction false} FirstMatchIsFirst(pats: seq<IdPattern>, s: string, k: nat)
    requires k < |pats| && Search(pats[k], s).Some?
    requires forall j :: 0 <= j < k ==> Search(pats[j], s).None?
    ensures FirstMatch(pats, s) == Search(pats[k], s)
    decreases k
  {
    if k > 0 {
      forall j | 0 <= j < k - 1
        ensures Search(pats[1..][j], s).None?
      {
        assert pats[1..][j] == pats[j + 1];
      }
      assert pats[1..][k - 1] == pats[k];
      FirstMatchIsFirst(pats[1..], s, k - 1);
    }
  }

  lemma {:induction false} FirstMatchNone(pats: seq<IdPattern>, s: string)
    requires forall j :: 0 <= j < |pats| ==> Search(pats[j], s).None?
    ensures FirstMatch(pats, s).None?
    decreases |pats|
  {
    if |pats| > 0 {
      assert forall j :: 0 <= j < |pats[1..]| ==> pats[1..][j] == pats[j + 1];
      FirstMatchNone(pats[1..], s);
    }
  }

  /**
   * `_extract_video_id` returns the capture of the first of its four patterns
   * that matches the decoded URL, and None when none of them matches.
   */
  lemma ExtractVideoIdTriesPatternsInOrder(url: string, k: nat)
    requires url != "" && k < 4
    requires Search(IdPatterns[k], Unquote(url)).Some?
    requires forall j :: 0 <= j < k ==> Search(IdPatterns[j], Unquote(url)).None?
    ensures ExtractVideoId(url) == Search(IdPatterns[k], Unquote(url))
  {
    FirstMatchIsFirst(IdPatterns, Unquote(url), k);
  }

  lemma ExtractVideoIdNone(url: string)
    requires forall j :: 0 <= j < 4 ==> Search(IdPatterns[j], Unquote(url)).None?
    ensures ExtractVideoId(url).None?
  {
    FirstMatchNone(IdPatterns, Unquote(url));
  }

  // ---------------------------------------------------------------------------
  // Every URL shape resolves to the same identifier
  // ---------------------------------------------------------------------------

  predicate NoPercent(s: string) { forall i :: 0 <= i < |s| ==> s[i] != '%' }

  lemma NoPercentConcat(a: string, b: string)
    requires NoPercent(a) && NoPercent(b)
    ensures NoPercent(a + b)
  {
    forall i | 0 <= i < |a + b|
      ensures (a + b)[i] != '%'
    {
      if i >= |a| {
        assert (a + b)[i] == b[i - |a|];
      }
    }
  }

  /** The alternatives of the first pattern all start with 'y'; it cannot match elsewhere. */
  lemma {:induction false} AltsNeedFirstChar(t: string, alts: seq<string>, c: char)
    requires forall k :: 0 <= k < |alts| ==> |alts[k]| > 0 && alts[k][0] == c
    requires |t| == 0 || t[0] != c
    ensures AltsThenId(t, alts).None?
    decreases |alts|
  {
    if |alts| > 0 {
      assert !StartsWith(t, alts[0]);
      assert forall k :: 0 <= k < |alts[1..]| ==> alts[1..][k] == alts[k + 1];
      AltsNeedFirstChar(t, alts[1..], c);
    }
  }

  /** The first pattern never matches inside a text that holds no 'y'. */
  lemma LinkPatternSkips(a: string, b: string)
    requires forall i :: 0 <= i < |a| ==> a[i] != 'y'
    ensures Search(LinkPattern, a + b) == Search(LinkPattern, b)
  {
    forall q | 0 <= q < |a|
      ensures MatchAt(LinkPattern, (a + b)[q..]).None?
    {
      AltsNeedFirstChar((a + b)[q..], LinkPattern.alts, 'y');
    }
    SearchSkipsPrefix(MatcherOf(LinkPattern), a, b);
  }

  /** After alternative number k of the first pattern comes the identifier it captures. */
  lemma LinkPatternMatches(k: nat, id: string, rest: string)
    requires k < 5 && IsVideoId(id)
    ensures MatchAt(LinkPattern, LinkPattern.alts[k] + id + rest) == Some(id)
  {
    var alts := LinkPattern.alts;
    var t := alts[k] + id + rest;
    assert t[|alts[k]|..] == id + rest;
    assert (id + rest)[..11] == id;
    LinkAltsExclusive(k, t);
    AltsThenIdAt(t, alts, k);
  }

  /**
   * When alternative k is the first that is a prefix of t and an identifier
   * follows it, that identifier is the capture.
   */
  lemma {:induction false} AltsThenIdAt(t: string, alts: seq<string>, k: nat)
    requires k < |alts| && StartsWith(t, alts[k]) && IdAt(t[|alts[k]|..]).Some?
    requires forall j :: 0 <= j < k ==> !StartsWith(t, alts[j])
    ensures AltsThenId(t, alts) == IdAt(t[|alts[k]|..])
    decreases k
  {
    if k > 0 {
      AltsThenIdAt(t, alts[1..], k - 1);
    }
  }

  /** A text that begins with alternative k of the first pattern begins with none before it. */
  lemma LinkAltsExclusive(k: nat, t: string)
    requires k < 5 && StartsWith(t, LinkPattern.alts[k])
    ensures forall j :: 0 <= j < k ==> !StartsWith(t, LinkPattern.alts[j])
  {
    var alts := LinkPattern.alts;
    // Each earlier alternative differs from alts[k] at position 5 or 12, inside both.
    if k >= 1 {
      assert t[5] == alts[k][5];
      assert !StartsWith(t, alts[0]) by {
        if k == 1 { assert t[5] != alts[0][5]; } else { assert t[12] == alts[k][12]; assert t[12] != alts[0][12]; }
      }
    }
    if k >= 2 {
      assert t[5] != alts[1][5];
    }
    if k >= 3 {
      assert t[12] == alts[k][12] && t[12] != alts[2][12];
    }
    if k >= 4 {
      assert t[12] != alts[3][12];
    }
  }

  /** The scheme and host in front of each alternative of the first pattern. */
  function ShapeHead(k: nat): (h: string)
    ensures NoPercent(h) && forall i :: 0 <= i < |h| ==> h[i] != 'y'
  {
    if k == 1 then "https://" else "https://www."
  }

  /**
   * The five URL shapes of the first pattern:
   * `https://www.youtube.com/watch?v=<id>`, `https://youtu.be/<id>`,
   * `https://www.youtube.com/embed/<id>`, `https://www.youtube.com/v/<id>`
   * and `https://www.youtube.com/shorts/<id>`.
   */
  function ShapeUrl(k: nat, id: string): (u: string)
    requires k < 5
  {
    ShapeHead(k) + LinkPattern.alts[k] + id
  }

  /** A '%'-free, 'y'-free head, an alternative of the first pattern and an identifier resolve to it. */
  lemma ExtractVideoIdAfterHead(head: string, k: nat, id: string, rest: string)
    requires k < 5 && IsVideoId(id)
    requires NoPercent(head) && forall i :: 0 <= i < |head| ==> head[i] != 'y'
    ensures ExtractVideoId(head + LinkPattern.alts[k] + id + rest) == Some(id)
  {
    var url := head + LinkPattern.alts[k] + id + rest;
    var s := head + (LinkPattern.alts[k] + id + Unquote(rest));
    LinkAltNoPercent(k);
    assert NoPercent(id);
    UnquoteAfterShape(head, LinkPattern.alts[k], id, rest);
    LinkPatternSearch(head, k, id, Unquote(rest));
    FirstMatchIsFirst(IdPatterns, s, 0);
  }

  lemma LinkAltNoPercent(k: nat)
    requires k < 5
    ensures NoPercent(LinkPattern.alts[k])
  {
  }

  /** Only the part after the identifier can hold escapes. */
  lemma UnquoteAfterShape(head: string, alt: string, id: string, rest: string)
    requires NoPercent(head) && NoPercent(alt) && NoPercent(id)
    ensures Unquote(head + alt + id + rest) == head + (alt + id + Unquote(rest))
  {
    assert head + alt + id + rest == head + (alt + (id + rest));
    UnquotePrefix(id, rest);
    UnquotePrefix(alt, id + rest);
    UnquotePrefix(head, alt + (id + rest));
    assert alt + (id + Unquote(rest)) == alt + id + Unquote(rest);
  }

  /** The first pattern finds the identifier after a 'y'-free head. */
  lemma LinkPatternSearch(head: string, k: nat, id: string, rest: string)
    requires k < 5 && IsVideoId(id)
    requires forall i :: 0 <= i < |head| ==> head[i] != 'y'
    ensures Search(LinkPattern, head + (LinkPattern.alts[k] + id + rest)) == Some(id)
  {
    var tail := LinkPattern.alts[k] + id + rest;
    LinkPatternSkips(head, tail);
    LinkPatternMatches(k, id, rest);
    assert tail[0..] == tail;
    SearchFindsLeftmost(MatcherOf(LinkPattern), tail, 0);
  }

  /**
   * Each supported shape, followed by anything at all, resolves to its
   * identifier: only the first eleven identifier characters are taken, and
   * what follows them does not matter.
   */
  lemma ExtractVideoIdOfShape(k: nat, id: string, rest: string)
    requires k < 5 && IsVideoId(id)
    ensures ExtractVideoId(ShapeUrl(k, id) + rest) == Some(id)
  {
    ExtractVideoIdAfterHead(ShapeHead(k), k, id, rest);
  }

  /** The canonical watch URL of an identifier resolves back to it. */
  lemma ExtractVideoIdOfWatchUrl(id: string)
    requires IsVideoId(id)
    ensures ExtractVideoId(WatchUrl(id)) == Some(id)
  {
    WatchUrlIsFirstShape(id);
    ExtractVideoIdOfShape(0, id, "");
    assert ShapeUrl(0, id) + "" == ShapeUrl(0, id);
  }

  lemma WatchUrlIsFirstShape(id: string)
    ensures WatchUrl(id) == ShapeUrl(0, id)
  {
    assert WatchPrefix == ShapeHead(0) + LinkPattern.alts[0];
  }

  /** Recognition depends only on the netloc. */
  lemma IsYouTubeUrlOfNetloc(url: string, host: string)
    requires url != "" && Netloc(url) == Some(host)
    ensures IsYouTubeUrl(url) == MentionsYouTubeDomain(Lower(host))
  {
  }

  const WatchHost: string := "www.youtube.com"

  lemma WatchHostMentionsYouTube()
    ensures MentionsYouTubeDomain(Lower(WatchHost))
  {
    assert Lower(WatchHost) == WatchHost;
    assert YouTubeDomains[1] == WatchHost;
    ContainsSelf(WatchHost);
  }

  lemma NetlocOfWatchUrl(id: string)
    requires IsVideoId(id)
    ensures Netloc(WatchUrl(id)) == Some(WatchHost)
  {
    var url := "https" + "://" + WatchHost + ("/watch?v=" + id);
    assert url == WatchUrl(id);
    WatchUrlHasNoUnsafeChar(id, url);
    NetlocOfSchemeUrl("https", WatchHost, "/watch?v=" + id);
  }

  lemma WatchUrlHasNoUnsafeChar(id: string, url: string)
    requires IsVideoId(id) && url == WatchUrl(id)
    ensures forall i :: 0 <= i < |url| ==> !IsUnsafeChar(url[i])
  {
    forall i | 0 <= i < |url|
      ensures !IsUnsafeChar(url[i])
    {
      if i >= |WatchPrefix| {
        assert url[i] == id[i - |WatchPrefix|];
      }
    }
  }

  /** The canonical watch URL is recognised as a YouTube URL. */
  lemma WatchUrlIsYouTubeUrl(id: string)
    requires IsVideoId(id)
    ensures IsYouTubeUrl(WatchUrl(id))
  {
    NetlocOfWatchUrl(id);
    WatchHostMentionsYouTube();
    IsYouTubeUrlOfNetloc(WatchUrl(id), WatchHost);
  }

  /** The canonical form of every recognised identifier is a fixed point of resolution. */
  lemma WatchUrlRoundTrip(url: string)
    requires ExtractVideoId(url).Some?
    ensures var id := ExtractVideoId(url).value;
      IsWatchUrl(WatchUrl(id)) && IsYouTubeUrl(WatchUrl(id)) && ExtractVideoId(WatchUrl(id)) == Some(id)
  {
    var id := ExtractVideoId(url).value;
    ExtractVideoIdOfWatchUrl(id);
    WatchUrlIsYouTubeUrl(id);
  }

  /** Resolution sees only the decoded URL. */
  lemma ExtractVideoIdOfDecoded(u: string, v: string)
    requires u != "" && v != "" && Unquote(u) == Unquote(v)
    ensures ExtractVideoId(u) == ExtractVideoId(v)
  {
  }

  /** A URL written with every character percent-encoded resolves as the URL itself. */
  lemma ExtractVideoIdOfPercentEncoded(url: string)
    requires forall i :: 0 <= i < |url| ==> url[i] < '\U{80}' && url[i] != '%'
    ensures ExtractVideoId(PercentEncodeAll(url)) == ExtractVideoId(url)
  {
    if url != "" {
      var e := PercentEncodeAll(url);
      UnquotePercentEncodeAll(url);
      UnquoteWithoutPercent(url);
      ExtractVideoIdOfDecoded(e, url);
    }
  }

  // ---------------------------------------------------------------------------
  // What the host test does not recognise
  // ---------------------------------------------------------------------------

  /** A link without a scheme has an empty netloc and is not a YouTube URL. */
  lemma SchemelessLinkIsNotYouTubeUrl(id: string)
    requires IsVideoId(id)
    ensures !IsYouTubeUrl("youtube.com/watch?v=" + id)
  {
    var url := "youtube.com/watch?v=" + id;
    forall i | 0 <= i < |url|
      ensures !IsUnsafeChar(url[i]) && url[i] != ':'
    {
      if i >= 20 {
        assert url[i] == id[i - 20];
      }
    }
    assert url[0] == 'y';
    NetlocWithoutScheme(url);
    assert Lower("") == "";
    NotContainsWithoutFirstChar("", "youtube.com");
    NotContainsWithoutFirstChar("", "youtu.be");
    DomainsReduce("");
  }

  const NoCookieHost: string := "www.youtube-nocookie.com"

  lemma NoCookieHostNotMentioned()
    ensures !MentionsYouTubeDomain(Lower(NoCookieHost))
  {
    NoCookieHostIsLower();
    NoCookieHostLacksDomains();
    DomainsReduce(NoCookieHost);
  }

  lemma NoCookieHostIsLower()
    ensures Lower(NoCookieHost) == NoCookieHost
  {
  }

  lemma NoCookieHostLacksDomains()
    ensures !Contains(NoCookieHost, "youtube.com") && !Contains(NoCookieHost, "youtu.be")
  {
    NoCookieHostOneY();
    NoCookieHostAtY();
    NotContainsUniqueStart(NoCookieHost, "youtube.com", 4);
    NotContainsUniqueStart(NoCookieHost, "youtu.be", 4);
  }

  /** The host holds a single 'y'. */
  lemma NoCookieHostOneY()
    ensures forall i :: 0 <= i < |NoCookieHost| && i != 4 ==> NoCookieHost[i] != 'y'
  {
    var h := NoCookieHost;
    assert forall i :: 0 <= i < |h| && i != 4 ==> h[i] != 'y';
  }

  /** The host's 'y' begins "youtube-", which is neither domain. */
  lemma NoCookieHostAtY()
    ensures !StartsWith(NoCookieHost[4..], "youtube.com") && !StartsWith(NoCookieHost[4..], "youtu.be")
  {
    var h := NoCookieHost;
    assert h[4..][7] != "youtube.com"[7];
    assert h[4..][5] != "youtu.be"[5];
  }

  lemma NetlocOfNoCookieEmbed(id: string)
    requires IsVideoId(id)
    ensures Netloc("https" + "://" + NoCookieHost + ("/embed/" + id)) == Some(NoCookieHost)
  {
    EmbedUrlHasNoUnsafeChar(id, "https" + "://" + NoCookieHost + ("/embed/" + id));
    NetlocOfSchemeUrl("https", NoCookieHost, "/embed/" + id);
  }

  lemma EmbedUrlHasNoUnsafeChar(id: string, url: string)
    requires IsVideoId(id) && url == "https" + "://" + NoCookieHost + ("/embed/" + id)
    ensures forall i :: 0 <= i < |url| ==> !IsUnsafeChar(url[i])
  {
    forall i | 0 <= i < |url|
      ensures !IsUnsafeChar(url[i])
    {
      if i >= 39 {
        assert url[i] == id[i - 39];
      }
    }
  }

  /** The privacy-enhanced embed `https://www.youtube-nocookie.com/embed/<id>` is not recognised. */
  lemma NoCookieEmbedIsNotYouTubeUrl(id: string)
    requires IsVideoId(id)
    ensures !IsYouTubeUrl("https" + "://" + NoCookieHost + ("/embed/" + id))
  {
    NetlocOfNoCookieEmbed(id);
    NoCookieHostNotMentioned();
    IsYouTubeUrlOfNetloc("https" + "://" + NoCookieHost + ("/embed/" + id), NoCookieHost);
  }
}
