/**
 * The text-level side of the music batch: pulling YouTube links out of a
 * message or a file with eight regular expressions, giving each a scheme
 * and splitting it at "://", and rewriting embed links to short links.
 *
 * The regular expressions all have the shape `literal (?:literal)? ...
 * [\w-]+`, matched with IGNORECASE. They are modelled as a list of pieces
 * (a literal, or an optional literal tried first and skipped when the rest
 * then fails) followed by a greedy run of word characters and '-'. Literals
 * are written in lower case and compared with the lower-cased text.
 */
module LinkHarvest {
  import opened Strings

  // ---------------------------------------------------------------------------
  // The patterns
  // ---------------------------------------------------------------------------

  datatype Piece = Lit(text: string) | Opt(text: string)

  /** `[\w-]`, ASCII only. */
  predicate IsRunChar(c: char) { IsWordChar(c) || c == '-' }

  /** The length of the longest run of `[\w-]` at the start of t. */
  function RunLength(t: string): (n: nat)
    ensures n <= |t|
    ensures forall i :: 0 <= i < n ==> IsRunChar(t[i])
    ensures n == |t| || !IsRunChar(t[n])
    decreases |t|
  {
    if |t| > 0 && IsRunChar(t[0]) then 1 + RunLength(t[1..]) else 0
  }

  /** t starts with the lower-case literal x, ignoring case. */
  predicate StartsWithCI(t: string, x: string) {
    |x| <= |t| && forall i :: 0 <= i < |x| ==> LowerChar(t[i]) == x[i]
  }

  function Shift(r: Option<nat>, k: nat): (s: Option<nat>)
    ensures s.Some? <==> r.Some?
    ensures s.Some? ==> s.value == r.value + k
  {
    match r
    case None => None
    case Some(n) => Some(n + k)
  }

  /** The length of the match of `pieces [\w-]+` at the start of t, if there is one. */
  function MatchPieces(t: string, pieces: seq<Piece>): (r: Option<nat>)
    ensures r.Some? ==> 0 < r.value <= |t|
    decreases |pieces|
  {
    if |pieces| == 0 then
      var n := RunLength(t);
      if n > 0 then Some(n) else None
    else
      var x := pieces[0].text;
      var taken := if StartsWithCI(t, x) then Shift(MatchPieces(t[|x|..], pieces[1..]), |x|) else None;
      if pieces[0].Lit? || taken.Some? then taken else MatchPieces(t, pieces[1..])
  }

  const Scheme: seq<Piece> := [Lit("http"), Opt("s"), Lit("://")]
  const WatchPath: string := "youtube.com/watch?v="
  const EmbedPath: string := "youtube.com/embed/"
  const NoCookieEmbedPath: string := "youtube-nocookie.com/embed/"
  const ShortPath: string := "youtu.be/"

  /** The eight patterns, in the order they are tried. */
  const HarvestPatterns: seq<seq<Piece>> := [
    Scheme + [Opt("www."), Lit(WatchPath)],
    Scheme + [Opt("www."), Lit(EmbedPath)],
    Scheme + [Opt("www."), Lit(NoCookieEmbedPath)],
    Scheme + [Lit(ShortPath)],
    [Lit(WatchPath)],
    [Lit(EmbedPath)],
    [Lit(NoCookieEmbedPath)],
    [Lit(ShortPath)]
  ]

  /** `re.findall(pattern, t, re.IGNORECASE)`: the non-overlapping matches, leftmost first. */
  function FindAll(t: string, pieces: seq<Piece>): (ms: seq<string>)
    ensures forall m :: m in ms ==> |m| > 0
    decreases |t|
  {
    if |t| == 0 then []
    else match MatchPieces(t, pieces)
      case Some(n) => [t[..n]] + FindAll(t[n..], pieces)
      case None => FindAll(t[1..], pieces)
  }

  /** Every match is a piece of the text, in its original case. */
  lemma {:induction false} FindAllSubstrings(t: string, pieces: seq<Piece>)
    ensures forall m :: m in FindAll(t, pieces) ==> Contains(t, m)
    decreases |t|
  {
    if |t| > 0 {
      match MatchPieces(t, pieces)
      case Some(n) =>
        FindAllSubstrings(t[n..], pieces);
        assert StartsWith(t, t[..n]);
        forall m | m in FindAll(t[n..], pieces)
          ensures Contains(t, m)
        {
          assert t == t[..n] + t[n..];
          ContainsConcatRight(t[..n], t[n..], m);
        }
      case None =>
        FindAllSubstrings(t[1..], pieces);
        forall m | m in FindAll(t[1..], pieces)
          ensures Contains(t, m)
        {
          assert t == t[..1] + t[1..];
          ContainsConcatRight(t[..1], t[1..], m);
        }
    }
  }

  /** The matches of the first k patterns, concatenated in pattern order. */
  function Harvest(text: string, k: nat): seq<string>
    requires k <= |HarvestPatterns|
  {
    if k == 0 then [] else Harvest(text, k - 1) + FindAll(text, HarvestPatterns[k - 1])
  }

  /** Every harvested link occurs in the text. */
  lemma {:induction false} HarvestedOccurInText(text: string, k: nat)
    requires k <= |HarvestPatterns|
    ensures forall u :: u in Harvest(text, k) ==> |u| > 0 && Contains(text, u)
  {
    if k > 0 {
      HarvestedOccurInText(text, k - 1);
      FindAllSubstrings(text, HarvestPatterns[k - 1]);
    }
  }

  /** Later patterns only add links: the first j patterns' matches stay a prefix. */
  lemma {:induction false} HarvestKeeps(text: string, j: nat, k: nat)
    requires j <= k <= |HarvestPatterns|
    ensures Harvest(text, j) <= Harvest(text, k)
    ensures forall u :: u in Harvest(text, j) ==> u in Harvest(text, k)
    decreases k
  {
    if j < k {
      HarvestKeeps(text, j, k - 1);
    }
  }

  /** `extract_youtube_urls(text)`. */
  method ExtractYoutubeUrls(text: string) returns (urls: seq<string>)
    ensures urls == Harvest(text, |HarvestPatterns|)
  {
    urls := [];
    for k := 0 to |HarvestPatterns|
      invariant urls == Harvest(text, k)
    {
      var matches := FindAll(text, HarvestPatterns[k]);
      urls := urls + matches;
    }
  }

  // A short link with a scheme is harvested twice: whole by the fourth
  // pattern, and without its scheme by the eighth.

  lemma {:induction false} RunLengthOfRun(t: string)
    requires forall i :: 0 <= i < |t| ==> IsRunChar(t[i])
    ensures RunLength(t) == |t|
    decreases |t|
  {
    if |t| > 0 {
      RunLengthOfRun(t[1..]);
    }
  }

  /** A text made of a literal and a run of `[\w-]` matches a one-literal pattern whole. */
  lemma LiteralThenRunMatches(x: string, id: string)
    requires |id| > 0 && forall i :: 0 <= i < |id| ==> IsRunChar(id[i])
    requires IsLowerLiteral(x)
    ensures MatchPieces(x + id, [Lit(x)]) == Some(|x| + |id|)
  {
    LowerLiteralFound(x, id);
    MatchLitStep(x + id, x, []);
    RunLengthOfRun(id);
    assert [Lit(x)] + [] == [Lit(x)];
  }

  /** When the only match is the whole text, `findall` returns just the text. */
  lemma FindAllWhole(t: string, pieces: seq<Piece>)
    requires MatchPieces(t, pieces) == Some(|t|)
    ensures FindAll(t, pieces) == [t]
  {
    assert t[..|t|] == t;
    assert FindAll(t[|t|..], pieces) == [];
  }

  /** Positions where no match starts are skipped by `findall`. */
  lemma {:induction false} FindAllSkips(t: string, pieces: seq<Piece>, k: nat)
    requires k <= |t|
    requires forall i :: 0 <= i < k ==> MatchPieces(t[i..], pieces).None?
    ensures FindAll(t, pieces) == FindAll(t[k..], pieces)
    decreases k
  {
    if k > 0 {
      assert MatchPieces(t[0..], pieces).None?;
      assert t[0..] == t;
      forall i | 0 <= i < k - 1
        ensures MatchPieces(t[1..][i..], pieces).None?
      {
        assert t[1..][i..] == t[i + 1..];
      }
      FindAllSkips(t[1..], pieces, k - 1);
      assert t[1..][k - 1..] == t[k..];
    }
  }

  /** A pattern that starts with a literal cannot match where the text's first character differs. */
  lemma NoMatchOnFirstChar(t: string, pieces: seq<Piece>)
    requires |pieces| > 0 && pieces[0].Lit? && |pieces[0].text| > 0
    requires |t| == 0 || LowerChar(t[0]) != pieces[0].text[0]
    ensures MatchPieces(t, pieces).None?
  {
  }

  /** Matching a literal piece: the literal, then the rest. */
  lemma MatchLitStep(t: string, x: string, rest: seq<Piece>)
    requires StartsWithCI(t, x)
    ensures MatchPieces(t, [Lit(x)] + rest) == Shift(MatchPieces(t[|x|..], rest), |x|)
  {
    assert ([Lit(x)] + rest)[1..] == rest;
  }

  /** Matching an optional piece whose literal is there and after which the rest matches. */
  lemma MatchOptTakenStep(t: string, x: string, rest: seq<Piece>)
    requires StartsWithCI(t, x) && MatchPieces(t[|x|..], rest).Some?
    ensures MatchPieces(t, [Opt(x)] + rest) == Shift(MatchPieces(t[|x|..], rest), |x|)
  {
    assert ([Opt(x)] + rest)[1..] == rest;
  }

  /** The fourth and the eighth pattern, written out. */
  lemma ShortPatterns()
    ensures HarvestPatterns[3] == [Lit("http")] + ([Opt("s")] + ([Lit("://")] + [Lit(ShortPath)]))
    ensures HarvestPatterns[7] == [Lit(ShortPath)]
  {
  }

  /** `https?://` followed by the rest of a pattern: "https://" is taken, then the rest. */
  lemma SchemeStep(body: string, rest: seq<Piece>, n: nat)
    requires MatchPieces(body, rest) == Some(n)
    ensures MatchPieces("https://" + body, [Lit("http")] + ([Opt("s")] + ([Lit("://")] + rest))) == Some(n + 8)
  {
    HttpsSplit(body);
    LowerLiterals();
    LitOptLitStep("http", "s", "://", body, rest, n);
  }

  lemma HttpsSplit(body: string)
    ensures "https://" + body == "http" + ("s" + ("://" + body))
  {
  }

  lemma LowerLiterals()
    ensures IsLowerLiteral("http") && IsLowerLiteral("s") && IsLowerLiteral("://")
  {
  }

  predicate IsLowerLiteral(x: string) {
    forall i :: 0 <= i < |x| ==> LowerChar(x[i]) == x[i]
  }

  /** A lower-case literal is found, ignoring case, at the start of a text that begins with it. */
  lemma LowerLiteralFound(x: string, rest: string)
    requires IsLowerLiteral(x)
    ensures StartsWithCI(x + rest, x) && (x + rest)[|x|..] == rest
  {
    assert forall i :: 0 <= i < |x| ==> (x + rest)[i] == x[i];
  }

  /** A literal, an optional literal that is present, and a literal, then the rest of the pattern. */
  lemma LitOptLitStep(a: string, b: string, c: string, body: string, rest: seq<Piece>, n: nat)
    requires IsLowerLiteral(a) && IsLowerLiteral(b) && IsLowerLiteral(c)
    requires MatchPieces(body, rest) == Some(n)
    ensures MatchPieces(a + (b + (c + body)), [Lit(a)] + ([Opt(b)] + ([Lit(c)] + rest))) == Some(n + |c| + |b| + |a|)
  {
    OptLitStep(b, c, body, rest, n);
    LitStepFound(a, b + (c + body), [Opt(b)] + ([Lit(c)] + rest), n + |c| + |b|);
  }

  /** An optional literal that is present and a literal, then the rest of the pattern. */
  lemma OptLitStep(b: string, c: string, body: string, rest: seq<Piece>, n: nat)
    requires IsLowerLiteral(b) && IsLowerLiteral(c)
    requires MatchPieces(body, rest) == Some(n)
    ensures MatchPieces(b + (c + body), [Opt(b)] + ([Lit(c)] + rest)) == Some(n + |c| + |b|)
  {
    LitStepFound(c, body, rest, n);
    OptStepFound(b, c + body, [Lit(c)] + rest, n + |c|);
  }

  lemma LitStepFound(x: string, body: string, rest: seq<Piece>, n: nat)
    requires IsLowerLiteral(x) && MatchPieces(body, rest) == Some(n)
    ensures MatchPieces(x + body, [Lit(x)] + rest) == Some(n + |x|)
  {
    LowerLiteralFound(x, body);
    MatchLitStep(x + body, x, rest);
  }

  lemma OptStepFound(x: string, body: string, rest: seq<Piece>, n: nat)
    requires IsLowerLiteral(x) && MatchPieces(body, rest) == Some(n)
    ensures MatchPieces(x + body, [Opt(x)] + rest) == Some(n + |x|)
  {
    LowerLiteralFound(x, body);
    MatchOptTakenStep(x + body, x, rest);
  }

  /** A prefix none of whose characters can start the pattern is skipped by `findall`. */
  lemma SkipPrefix(pre: string, body: string, pieces: seq<Piece>)
    requires |pieces| > 0 && pieces[0].Lit? && |pieces[0].text| > 0
    requires forall i :: 0 <= i < |pre| ==> LowerChar(pre[i]) != pieces[0].text[0]
    ensures FindAll(pre + body, pieces) == FindAll(body, pieces)
  {
    var t := pre + body;
    forall i | 0 <= i < |pre|
      ensures MatchPieces(t[i..], pieces).None?
    {
      assert t[i..][0] == pre[i];
      NoMatchOnFirstChar(t[i..], pieces);
    }
    FindAllSkips(t, pieces, |pre|);
    assert t[|pre|..] == body;
  }

  /** `https?://youtu\.be/[\w-]+` matches a whole "https://youtu.be/<run>". */
  lemma SchemeShortLinkMatches(id: string, short: string, text: string)
    requires |id| > 0 && forall i :: 0 <= i < |id| ==> IsRunChar(id[i])
    requires short == ShortPath + id && text == "https://" + short
    ensures MatchPieces(text, [Lit("http")] + ([Opt("s")] + ([Lit("://")] + [Lit(ShortPath)]))) == Some(|text|)
  {
    ShortPathFacts();
    LiteralThenRunMatches(ShortPath, id);
    SchemeStep(short, [Lit(ShortPath)], |short|);
  }

  /** `youtu\.be/[\w-]+` finds "youtu.be/<run>" inside "https://youtu.be/<run>", and nothing else. */
  lemma BareShortLinkFound(id: string, short: string, text: string)
    requires |id| > 0 && forall i :: 0 <= i < |id| ==> IsRunChar(id[i])
    requires short == ShortPath + id && text == "https://" + short
    ensures FindAll(text, [Lit(ShortPath)]) == [short]
  {
    ShortPathFacts();
    SkipPrefix("https://", short, [Lit(ShortPath)]);
    LiteralThenRunMatches(ShortPath, id);
    FindAllWhole(short, [Lit(ShortPath)]);
  }

  /** "youtu.be/" is lower case, and no character of "https://" is its first one. */
  lemma ShortPathFacts()
    ensures IsLowerLiteral(ShortPath) && |ShortPath| > 0
    ensures forall i :: 0 <= i < |"https://"| ==> LowerChar("https://"[i]) != ShortPath[0]
  {
  }

  /** The fourth pattern matches a whole "https://youtu.be/<run>". */
  lemma ShortLinkMatchesWithScheme(id: string, short: string, text: string)
    requires |id| > 0 && forall i :: 0 <= i < |id| ==> IsRunChar(id[i])
    requires short == ShortPath + id && text == "https://" + short
    ensures FindAll(text, HarvestPatterns[3]) == [text]
  {
    ShortPatterns();
    SchemeShortLinkMatches(id, short, text);
    FindAllWhole(text, HarvestPatterns[3]);
  }

  /** The eighth pattern finds the short link without its scheme. */
  lemma ShortLinkMatchesWithoutScheme(id: string, short: string, text: string)
    requires |id| > 0 && forall i :: 0 <= i < |id| ==> IsRunChar(id[i])
    requires short == ShortPath + id && text == "https://" + short
    ensures FindAll(text, HarvestPatterns[7]) == [short]
  {
    ShortPatterns();
    BareShortLinkFound(id, short, text);
  }

  /**
   * A short link with a scheme, "https://youtu.be/<run>", is harvested both
   * whole and without its scheme, so the same video is listed twice.
   */
  lemma ShortLinkHarvestedTwice(id: string, short: string, text: string)
    requires |id| > 0 && forall i :: 0 <= i < |id| ==> IsRunChar(id[i])
    requires short == ShortPath + id && text == "https://" + short
    ensures text in Harvest(text, |HarvestPatterns|) && short in Harvest(text, |HarvestPatterns|)
  {
    ShortLinkMatchesWithScheme(id, short, text);
    ShortLinkMatchesWithoutScheme(id, short, text);
    HarvestKeeps(text, 4, 8);
    assert text in Harvest(text, 4);
    assert short in Harvest(text, 8);
  }

  // ---------------------------------------------------------------------------
  // Giving each link a scheme and splitting it at "://"
  // ---------------------------------------------------------------------------

  const SchemeSeparator: string := "://"
  const DefaultScheme: string := "https://"

  /** The link with `https://` put in front unless it already starts with "http" (case-sensitive). */
  function WithScheme(u: string): (full: string)
    ensures StartsWith(full, "http")
    ensures full == u <==> StartsWith(u, "http")
    ensures full != u ==> full == DefaultScheme + u
  {
    if StartsWith(u, "http") then u else DefaultScheme + u
  }

  /** `url.split("://", 1)` of the link with its scheme; None when it holds no "://". */
  function LinkParts(u: string): (r: Option<(string, string)>)
    ensures r.Some? ==> r.value.0 + SchemeSeparator + r.value.1 == WithScheme(u)
    ensures r.Some? ==> !Contains(r.value.0, SchemeSeparator)
    ensures r.None? <==> !Contains(WithScheme(u), SchemeSeparator)
  {
    var r := SplitFirst(WithScheme(u), SchemeSeparator);
    if r.Some? then
      PrefixWithoutOccurrence(WithScheme(u), r.value.0, SchemeSeparator);
      r
    else r
  }

  /** The `links` list built from the harvested links: one pair per link that has a "://". */
  function Links(urls: seq<string>): (links: seq<(string, string)>)
    ensures |links| <= |urls|
  {
    Pairs(LinkParts, urls)
  }

  /** The defined results of f on urls, in order. */
  function Pairs(f: string -> Option<(string, string)>, urls: seq<string>): (links: seq<(string, string)>)
    ensures |links| <= |urls|
  {
    if |urls| == 0 then []
    else
      var rest := Pairs(f, urls[..|urls| - 1]);
      match f(urls[|urls| - 1])
      case Some(parts) => rest + [parts]
      case None => rest
  }

  /** When f is defined on every element, there is one result per element, in order. */
  lemma {:induction false} PairsOfDefined(f: string -> Option<(string, string)>, urls: seq<string>)
    requires forall i :: 0 <= i < |urls| ==> f(urls[i]).Some?
    ensures |Pairs(f, urls)| == |urls|
    ensures forall i :: 0 <= i < |urls| ==> f(urls[i]) == Some(Pairs(f, urls)[i])
  {
    if |urls| > 0 {
      var init := urls[..|urls| - 1];
      assert forall i :: 0 <= i < |init| ==> init[i] == urls[i];
      PairsOfDefined(f, init);
    }
  }

  /** The loop that fills `links`. */
  method CollectLinks(urls: seq<string>) returns (links: seq<(string, string)>)
    ensures links == Links(urls)
  {
    links := [];
    for i := 0 to |urls|
      invariant links == Links(urls[..i])
    {
      assert urls[..i + 1][..i] == urls[..i];
      var url := urls[i];
      if !StartsWith(url, "http") {
        url := DefaultScheme + url;
      }
      if Contains(url, SchemeSeparator) {
        var parts := SplitFirst(url, SchemeSeparator).value;
        links := links + [parts];
      }
    }
    assert urls[..|urls|] == urls;
  }

  /** A link without a scheme gets "https" as its first part and itself, unchanged, as its second. */
  lemma SchemelessLinkParts(u: string)
    requires !StartsWith(u, "http")
    ensures LinkParts(u) == Some(("https", u))
  {
    assert DefaultScheme + u == "https" + SchemeSeparator + u;
    SplitAfterSeparatorFree("https", SchemeSeparator, u);
  }

  /** A link that starts with "http" keeps its own scheme, and is kept when it holds "://". */
  lemma SchemedLinkParts(u: string)
    requires StartsWith(u, "http") && Contains(u, SchemeSeparator)
    ensures LinkParts(u).Some?
    ensures LinkParts(u).value.0 + SchemeSeparator + LinkParts(u).value.1 == u
  {
  }

  /** The `if "://" in url` test keeps this link. */
  predicate Kept(u: string) {
    !StartsWith(u, "http") || Contains(u, SchemeSeparator)
  }

  /** When every link passes the test, `links` holds exactly one pair per link, in order. */
  lemma LinksOfKept(urls: seq<string>)
    requires forall i :: 0 <= i < |urls| ==> Kept(urls[i])
    ensures |Links(urls)| == |urls|
    ensures forall i :: 0 <= i < |urls| ==> LinkParts(urls[i]) == Some(Links(urls)[i])
  {
    forall i | 0 <= i < |urls|
      ensures LinkParts(urls[i]).Some?
    {
      KeptHasParts(urls[i]);
    }
    PairsOfDefined(LinkParts, urls);
  }

  /** A link that passes the test gives a pair. */
  lemma KeptHasParts(u: string)
    requires Kept(u)
    ensures LinkParts(u).Some?
  {
    if !StartsWith(u, "http") {
      SchemelessLinkParts(u);
    }
  }

  /** A match of `https?://...` holds "://" right after its scheme. */
  lemma SchemeMatchHasSeparator(s: string, rest: seq<Piece>, n: nat)
    requires MatchPieces(s, Scheme + rest) == Some(n)
    ensures Contains(s[..n], SchemeSeparator)
  {
    var p := Scheme + rest;
    assert p[0] == Lit("http") && p[1..] == [Opt("s"), Lit("://")] + rest;
    var q := [Opt("s"), Lit("://")] + rest;
    assert StartsWithCI(s, "http");
    var s4 := s[4..];
    assert MatchPieces(s4, q).Some?;
    var taken := if StartsWithCI(s4, "s") then Shift(MatchPieces(s4[1..], q[1..]), 1) else None;
    assert q[1..] == [Lit("://")] + rest;
    if taken.Some? {
      var s5 := s4[1..];
      assert StartsWithCI(s5, "://");
      SeparatorExact(s5);
      assert MatchPieces(s5, q[1..]).Some?;
      assert s[..n][5..][..3] == s5[..3];
      ContainsAt(s[..n], 5, SchemeSeparator);
    } else {
      assert MatchPieces(s4, q[1..]).Some?;
      assert StartsWithCI(s4, "://");
      SeparatorExact(s4);
      assert s[..n][4..][..3] == s4[..3];
      ContainsAt(s[..n], 4, SchemeSeparator);
    }
  }

  /** ':' and '/' have no other case, so a case-insensitive "://" is "://" itself. */
  lemma SeparatorExact(t: string)
    requires StartsWithCI(t, "://")
    ensures StartsWith(t, SchemeSeparator)
  {
    assert LowerChar(t[0]) == ':' && LowerChar(t[1]) == '/' && LowerChar(t[2]) == '/';
  }

  /** Every match of a harvest pattern passes the `"://" in url` test. */
  lemma MatchKept(s: string, k: nat, n: nat)
    requires k < |HarvestPatterns| && MatchPieces(s, HarvestPatterns[k]) == Some(n)
    ensures Kept(s[..n])
  {
    var p := HarvestPatterns[k];
    if k < 4 {
      assert p == Scheme + p[3..];
      SchemeMatchHasSeparator(s, p[3..], n);
    } else {
      assert p[0].Lit? && p[0].text[0] == 'y';
      assert LowerChar(s[0]) == 'y';
      assert s[..n][0] != 'h';
    }
  }

  lemma {:induction false} FindAllKept(t: string, k: nat)
    requires k < |HarvestPatterns|
    ensures forall m :: m in FindAll(t, HarvestPatterns[k]) ==> Kept(m)
    decreases |t|
  {
    if |t| > 0 {
      match MatchPieces(t, HarvestPatterns[k])
      case Some(n) =>
        MatchKept(t, k, n);
        FindAllKept(t[n..], k);
      case None =>
        FindAllKept(t[1..], k);
    }
  }

  /**
   * Every harvested link passes the `"://" in url` test, so `links` has
   * exactly one [scheme, rest] pair per harvested link, in harvest order.
   */
  lemma {:induction false} HarvestedLinksAllKept(text: string, k: nat)
    requires k <= |HarvestPatterns|
    ensures |Links(Harvest(text, k))| == |Harvest(text, k)|
    ensures forall i :: 0 <= i < |Harvest(text, k)| ==> LinkParts(Harvest(text, k)[i]) == Some(Links(Harvest(text, k))[i])
  {
    HarvestKept(text, k);
    LinksOfKept(Harvest(text, k));
  }

  lemma {:induction false} HarvestKept(text: string, k: nat)
    requires k <= |HarvestPatterns|
    ensures forall i :: 0 <= i < |Harvest(text, k)| ==> Kept(Harvest(text, k)[i])
  {
    if k > 0 {
      HarvestKept(text, k - 1);
      FindAllKept(text, k - 1);
      var h := Harvest(text, k);
      var pre := Harvest(text, k - 1);
      forall i | 0 <= i < |h|
        ensures Kept(h[i])
      {
        if i >= |pre| {
          assert h[i] in FindAll(text, HarvestPatterns[k - 1]);
        }
      }
    }
  }

  // ---------------------------------------------------------------------------
  // Rewriting embed links to short links
  // ---------------------------------------------------------------------------

  const EmbedMarker: string := "/embed/"
  const WatchMarker: string := "watch?v="
  const NoCookieEmbedHost: string := "www.youtube-nocookie.com/embed"
  const ShortHost: string := "youtu.be"

  /** The first test of the rewrite: an embed link of either host. */
  predicate IsEmbedPart(part: string) {
    Contains(part, EmbedPath) || Contains(part, NoCookieEmbedPath)
  }

  /** The text after the first "/embed/", up to the next "/embed/", then cut at '?' and then at '&'. */
  function EmbedId(part: string): (id: string)
    requires Contains(part, EmbedMarker)
    ensures StartsWith(SplitFirst(part, EmbedMarker).value.1, id)
    ensures !Contains(id, EmbedMarker) && !Contains(id, "?") && !Contains(id, "&")
  {
    var after := SplitFirst(part, EmbedMarker).value.1;
    var x1 := Before(after, EmbedMarker);
    var x2 := Before(x1, "?");
    var id := Before(x2, "&");
    NotContainsPrefix(x1, id, EmbedMarker);
    NotContainsPrefix(x2, id, "?");
    id
  }

  /** `Vxy`: the link part after the embed, watch and short-link branches. */
  function RewriteLinkPart(part: string): (v: string)
  {
    if IsEmbedPart(part) then
      if Contains(part, EmbedMarker) then ShortPath + EmbedId(part) else part
    else if Contains(part, WatchMarker) then part
    else if Contains(part, ShortPath) then part
    else ReplaceAll(part, NoCookieEmbedHost, ShortHost)
  }

  /** `url = "https://" + Vxy`. */
  function AudioUrl(part: string): (url: string)
    ensures StartsWith(url, DefaultScheme) && url[|DefaultScheme|..] == RewriteLinkPart(part)
  {
    DefaultScheme + RewriteLinkPart(part)
  }

  /**
   * Both embed paths hold "/embed/", so the embed branch always cuts out an
   * id: the `else` inside it can never be taken.
   */
  lemma EmbedBranchCuts(part: string)
    requires IsEmbedPart(part)
    ensures Contains(part, EmbedMarker)
    ensures RewriteLinkPart(part) == ShortPath + EmbedId(part)
  {
    EmbedPathsHoldMarker();
    if Contains(part, EmbedPath) {
      ContainsTrans(part, EmbedPath, EmbedMarker);
    } else {
      ContainsTrans(part, NoCookieEmbedPath, EmbedMarker);
    }
  }

  /** The cut id runs to the end of the text after "/embed/" or stops at '?', '&' or a second "/embed/". */
  lemma EmbedIdEnds(part: string)
    requires Contains(part, EmbedMarker)
    ensures var after := SplitFirst(part, EmbedMarker).value.1; var id := EmbedId(part);
      id == after || after[|id|] == '?' || after[|id|] == '&' || StartsWith(after[|id|..], EmbedMarker)
  {
    var after := SplitFirst(part, EmbedMarker).value.1;
    var x1 := Before(after, EmbedMarker);
    var x2 := Before(x1, "?");
    var id := Before(x2, "&");
    if id != x2 {
      assert StartsWith(x2[|id|..], "&");
      assert after[|id|] == x2[|id|];
    } else if x2 != x1 {
      assert StartsWith(x1[|x2|..], "?");
      assert after[|id|] == x1[|x2|];
    } else if x1 != after {
      assert StartsWith(after[|x1|..], EmbedMarker);
    }
  }

  /** Both embed paths hold "/embed/". */
  lemma EmbedPathsHoldMarker()
    ensures Contains(EmbedPath, EmbedMarker) && Contains(NoCookieEmbedPath, EmbedMarker)
  {
    EmbedPathHoldsMarker();
    NoCookieEmbedPathHoldsMarker();
  }

  lemma EmbedPathHoldsMarker()
    ensures Contains(EmbedPath, EmbedMarker)
  {
    assert EmbedPath[11..][..7] == EmbedMarker;
    ContainsAt(EmbedPath, 11, EmbedMarker);
  }

  lemma NoCookieEmbedPathHoldsMarker()
    ensures Contains(NoCookieEmbedPath, EmbedMarker)
  {
    assert NoCookieEmbedPath[20..][..7] == EmbedMarker;
    ContainsAt(NoCookieEmbedPath, 20, EmbedMarker);
  }

  /** Neither embed path can occur at the start of a short link, nor anywhere when the id holds no "/embed/". */
  lemma ShortLinkIsNotEmbed(id: string, path: string)
    requires !Contains(id, EmbedMarker)
    requires path == EmbedPath || path == NoCookieEmbedPath
    ensures !Contains(ShortPath + id, path)
  {
    EmbedPathsHoldMarker();
    EmbedPathsStart();
    ShortLinkLacks(id, path);
  }

  /** A path that starts "y????b" and holds "/embed/" does not occur in a short link whose id holds no "/embed/". */
  lemma ShortLinkLacks(id: string, path: string)
    requires !Contains(id, EmbedMarker) && Contains(path, EmbedMarker)
    requires |path| > 5 && path[0] == 'y' && path[5] == 'b'
    ensures !Contains(ShortPath + id, path)
  {
    var v := ShortPath + id;
    if Contains(v, path) {
      var j := ContainsWitness(v, path);
      if j >= |ShortPath| {
        assert v[j..] == id[j - |ShortPath|..];
        ContainsAt(id, j - |ShortPath|, path);
        ContainsTrans(id, path, EmbedMarker);
      } else {
        ShortPathHoldsNoEmbed(id, path, j);
      }
    }
  }

  /** What the two embed paths start with. */
  lemma EmbedPathsStart()
    ensures |EmbedPath| > 5 && EmbedPath[0] == 'y' && EmbedPath[5] == 'b'
    ensures |NoCookieEmbedPath| > 5 && NoCookieEmbedPath[0] == 'y' && NoCookieEmbedPath[5] == 'b'
  {
  }

  /** A text starting "y????b" does not start inside "youtu.be/". */
  lemma ShortPathHoldsNoEmbed(id: string, path: string, j: nat)
    requires j < |ShortPath| && |path| > 5 && path[0] == 'y' && path[5] == 'b'
    ensures !StartsWith((ShortPath + id)[j..], path)
  {
    var v := ShortPath + id;
    if j == 0 {
      assert v[5] == '.';
    } else {
      assert v[j] == ShortPath[j] && ShortPath[j] != 'y';
    }
  }

  /** Rewriting is idempotent on embed, watch and short-link parts: a rewritten link is left alone. */
  lemma RewriteIdempotent(part: string)
    requires IsEmbedPart(part) || Contains(part, WatchMarker) || Contains(part, ShortPath)
    ensures RewriteLinkPart(RewriteLinkPart(part)) == RewriteLinkPart(part)
  {
    if IsEmbedPart(part) {
      EmbedBranchCuts(part);
      var id := EmbedId(part);
      ShortLinkIsNotEmbed(id, EmbedPath);
      ShortLinkIsNotEmbed(id, NoCookieEmbedPath);
      assert StartsWith((ShortPath + id)[0..], ShortPath);
      ContainsAt(ShortPath + id, 0, ShortPath);
    }
  }

  /** A run of `[\w-]` holds none of '/', '?' and '&'. */
  lemma RunHasNoCutChars(id: string)
    requires forall i :: 0 <= i < |id| ==> IsRunChar(id[i])
    ensures '/' !in id && '?' !in id && '&' !in id
  {
  }

  /** An embed link whose "/embed/" is the first '/' is cut right after it. */
  lemma EmbedCutAfterHost(front: string, id: string, part: string)
    requires IsEmbedPart(part) && '/' !in front
    requires forall i :: 0 <= i < |id| ==> IsRunChar(id[i])
    requires part == front + EmbedMarker + id
    ensures RewriteLinkPart(part) == ShortPath + id
  {
    EmbedBranchCuts(part);
    SplitAfterSeparatorFree(front, EmbedMarker, id);
    RunHasNoCutChars(id);
    NotContainsWithoutFirstChar(id, EmbedMarker);
    NotContainsWithoutFirstChar(id, "?");
    NotContainsWithoutFirstChar(id, "&");
  }

  /** The embed links of either host, with or without "www.". */
  predicate EmbedLinkShape(pre: string, host: string) {
    (pre == "" || pre == "www.") && (host == "youtube.com" || host == "youtube-nocookie.com")
  }

  lemma EmbedLinkShapeFacts(pre: string, host: string, id: string, part: string)
    requires EmbedLinkShape(pre, host)
    requires part == pre + host + EmbedMarker + id
    ensures IsEmbedPart(part) && '/' !in pre + host && part == (pre + host) + EmbedMarker + id
  {
    HostEmbedPath(host);
    assert '/' !in pre;
    var path := host + EmbedMarker;
    PathInLink(pre, path, id, part);
  }

  /** Each host followed by "/embed/" is one of the two embed paths, and no host holds '/'. */
  lemma HostEmbedPath(host: string)
    requires host == "youtube.com" || host == "youtube-nocookie.com"
    ensures host + EmbedMarker == EmbedPath || host + EmbedMarker == NoCookieEmbedPath
    ensures '/' !in host
  {
  }

  lemma PathInLink(pre: string, path: string, id: string, part: string)
    requires part == pre + path + id
    ensures Contains(part, path)
  {
    assert part[|pre|..][..|path|] == path;
    ContainsAt(part, |pre|, path);
  }

  /**
   * An embed link of either host, with or without "www.", becomes the short
   * link of the same id.
   */
  lemma EmbedLinkRewritten(pre: string, host: string, id: string, part: string)
    requires EmbedLinkShape(pre, host)
    requires forall i :: 0 <= i < |id| ==> IsRunChar(id[i])
    requires part == pre + host + EmbedMarker + id
    ensures RewriteLinkPart(part) == ShortPath + id
    ensures AudioUrl(part) == DefaultScheme + ShortPath + id
  {
    EmbedLinkShapeFacts(pre, host, id, part);
    EmbedCutAfterHost(pre + host, id, part);
  }
}
