/**
 * The two pieces of Python's urllib.parse that the link resolver relies on:
 * the authority ("netloc", section 3.2 of RFC 3986) that `urlparse` splits off,
 * and the percent-decoding that `unquote` performs (section 2.1 of RFC 3986).
 *
 * `Netloc` follows CPython 3.12's `urlsplit`: leading C0 controls and spaces
 * are stripped, tab/CR/LF are deleted, a scheme is split off at the first ':'
 * when it is a letter followed by scheme characters, and the authority is the
 * text after a leading "//" up to the first '/', '?' or '#'. An authority with
 * an unmatched '[' or ']' raises ValueError, modelled as None.
 */
module Urls {
  import opened Strings

  // ---------------------------------------------------------------------------
  // urlsplit: the netloc
  // ---------------------------------------------------------------------------

  /** The characters `urlsplit` strips from the front of a URL: C0 controls and space. */
  predicate IsC0OrSpace(c: char) { c <= ' ' }

  /** Tab, carriage return and line feed, which `urlsplit` deletes everywhere. */
  predicate IsUnsafeChar(c: char) { c == '\t' || c == '\r' || c == '\n' }

  predicate IsSchemeChar(c: char) {
    IsAsciiLetter(c) || IsDigit(c) || c == '+' || c == '-' || c == '.'
  }

  /** The characters that end the authority: '/', '?' and '#'. */
  predicate IsAuthorityEnd(c: char) { c == '/' || c == '?' || c == '#' }

  function LStripC0(s: string): (r: string)
    ensures |r| <= |s| && r == s[|s| - |r|..]
    ensures |r| == 0 || !IsC0OrSpace(r[0])
    ensures |s| > 0 && !IsC0OrSpace(s[0]) ==> r == s
    ensures forall c :: c in r ==> c in s
    decreases |s|
  {
    if |s| > 0 && IsC0OrSpace(s[0]) then LStripC0(s[1..]) else s
  }

  function RemoveUnsafe(s: string): (r: string)
    ensures forall i :: 0 <= i < |r| ==> !IsUnsafeChar(r[i])
    ensures (forall i :: 0 <= i < |s| ==> !IsUnsafeChar(s[i])) ==> r == s
    ensures forall c :: c in r ==> c in s
    decreases |s|
  {
    if |s| == 0 then ""
    else if IsUnsafeChar(s[0]) then RemoveUnsafe(s[1..])
    else [s[0]] + RemoveUnsafe(s[1..])
  }

  /** True when `scheme` is what `urlsplit` accepts before the first ':'. */
  predicate IsScheme(scheme: string) {
    |scheme| > 0 && IsAsciiLetter(scheme[0]) &&
    forall i :: 0 <= i < |scheme| ==> IsSchemeChar(scheme[i])
  }

  /** The URL with its scheme and the ':' after it removed, if it has a scheme. */
  function AfterScheme(url: string): (r: string)
    ensures forall c :: c in r ==> c in url
  {
    match SplitFirst(url, ":")
    case Some(parts) =>
      if IsScheme(parts.0) then
        assert url == parts.0 + ":" + parts.1;
        assert forall c :: c in parts.1 ==> c in url;
        parts.1
      else url
    case None => url
  }

  /** `_splitnetloc(url, 2)`'s first half, applied to the text after "//". */
  function TakeAuthority(t: string): (r: string)
    ensures StartsWith(t, r)
    ensures forall i :: 0 <= i < |r| ==> !IsAuthorityEnd(r[i])
    ensures |r| == |t| || IsAuthorityEnd(t[|r|])
    ensures forall c :: c in r ==> c in t
    decreases |t|
  {
    if |t| == 0 || IsAuthorityEnd(t[0]) then "" else [t[0]] + TakeAuthority(t[1..])
  }

  /** `urlparse(url).netloc`, or None where `urlparse` raises ValueError. */
  function Netloc(url: string): (r: Option<string>)
    ensures r.Some? ==> forall i :: 0 <= i < |r.value| ==> !IsAuthorityEnd(r.value[i])
    ensures r.Some? ==> forall c :: c in r.value ==> c in url && !IsUnsafeChar(c)
    ensures r.None? ==> '[' in url || ']' in url
  {
    var u := RemoveUnsafe(LStripC0(url));
    var rest := AfterScheme(u);
    if StartsWith(rest, "//") then
      var n := TakeAuthority(rest[2..]);
      assert forall c :: c in rest[2..] ==> c in rest;
      if ('[' in n) != (']' in n) then None else Some(n)
    else Some("")
  }

  lemma {:induction false} TakeAuthorityOfConcat(host: string, rest: string)
    requires forall i :: 0 <= i < |host| ==> !IsAuthorityEnd(host[i])
    requires |rest| == 0 || IsAuthorityEnd(rest[0])
    ensures TakeAuthority(host + rest) == host
    decreases |host|
  {
    if |host| > 0 {
      assert (host + rest)[1..] == host[1..] + rest;
      TakeAuthorityOfConcat(host[1..], rest);
    } else {
      assert host + rest == rest;
    }
  }

  /**
   * The netloc of `scheme://host<rest>` is `host` whenever the scheme is a
   * valid one, the host has no delimiter, and the rest starts at a delimiter.
   */
  lemma NetlocOfSchemeUrl(scheme: string, host: string, rest: string)
    requires IsScheme(scheme)
    requires forall i :: 0 <= i < |host| ==> !IsAuthorityEnd(host[i]) && host[i] != '[' && host[i] != ']'
    requires |rest| == 0 || IsAuthorityEnd(rest[0])
    requires forall i :: 0 <= i < |scheme + "://" + host + rest| ==> !IsUnsafeChar((scheme + "://" + host + rest)[i])
    ensures Netloc(scheme + "://" + host + rest) == Some(host)
  {
    var url := scheme + "://" + host + rest;
    assert url[0] == scheme[0];
    CleanUrl(url);
    SchemeUrlAuthority(scheme, host, rest);
    assert '[' !in host && ']' !in host;
    NetlocOfParts(url, "//" + host + rest, host);
  }

  /** After the scheme of such a URL come "//" and an authority that is exactly the host. */
  lemma SchemeUrlAuthority(scheme: string, host: string, rest: string)
    requires IsScheme(scheme)
    requires forall i :: 0 <= i < |host| ==> !IsAuthorityEnd(host[i])
    requires |rest| == 0 || IsAuthorityEnd(rest[0])
    ensures var tail := "//" + host + rest;
      AfterScheme(scheme + "://" + host + rest) == tail && |tail| >= 2 && tail[..2] == "//" &&
      TakeAuthority(tail[2..]) == host
  {
    var url := scheme + "://" + host + rest;
    var tail := "//" + host + rest;
    assert url == scheme + ":" + tail;
    AfterSchemeOfSchemeUrl(scheme, tail);
    assert tail[2..] == host + rest;
    TakeAuthorityOfConcat(host, rest);
  }

  /** Netloc read off its steps: the cleaned URL, the text after the scheme, and the authority after "//". */
  lemma NetlocOfParts(url: string, tail: string, host: string)
    requires RemoveUnsafe(LStripC0(url)) == url && AfterScheme(url) == tail
    requires |tail| >= 2 && tail[..2] == "//" && TakeAuthority(tail[2..]) == host
    requires '[' !in host && ']' !in host
    ensures Netloc(url) == Some(host)
  {
  }

  /** A URL that starts with a visible character and holds no tab or newline is left as it is by the cleaning steps. */
  lemma CleanUrl(url: string)
    requires |url| > 0 && !IsC0OrSpace(url[0])
    requires forall i :: 0 <= i < |url| ==> !IsUnsafeChar(url[i])
    ensures RemoveUnsafe(LStripC0(url)) == url
  {
  }

  /** After a valid scheme and its ':' comes the rest of the URL. */
  lemma AfterSchemeOfSchemeUrl(scheme: string, tail: string)
    requires IsScheme(scheme)
    ensures AfterScheme(scheme + ":" + tail) == tail
  {
    forall i | 0 <= i < |scheme|
      ensures !StartsWith((scheme + ":" + tail)[i..], ":")
    {
      assert (scheme + ":" + tail)[i..][0] == scheme[i];
    }
    SplitFirstOfConcat(scheme, ":", tail);
  }

  /** A string with no ':' that does not begin with "//" has an empty netloc. */
  lemma NetlocWithoutScheme(url: string)
    requires |url| > 0 && !IsC0OrSpace(url[0])
    requires forall i :: 0 <= i < |url| ==> !IsUnsafeChar(url[i]) && url[i] != ':'
    requires !StartsWith(url, "//")
    ensures Netloc(url) == Some("")
  {
    assert LStripC0(url) == url;
    assert RemoveUnsafe(url) == url;
    NotContainsWithoutFirstChar(url, ":");
  }

  // ---------------------------------------------------------------------------
  // unquote: percent-decoding
  // ---------------------------------------------------------------------------

  predicate IsHexDigit(c: char) { IsDigit(c) || 'a' <= c <= 'f' || 'A' <= c <= 'F' }

  function HexValue(c: char): (v: nat)
    requires IsHexDigit(c)
    ensures v < 16
  {
    if IsDigit(c) then c as int - '0' as int
    else if 'a' <= c <= 'f' then c as int - 'a' as int + 10
    else c as int - 'A' as int + 10
  }

  /**
   * The character one decoded byte contributes. Bytes below 0x80 are ASCII;
   * a byte at or above 0x80 becomes U+FFFD, which is what `unquote`'s UTF-8
   * decoding with errors='replace' yields for a byte that does not belong to
   * a valid multi-byte sequence.
   */
  function ByteChar(b: nat): char
    requires b < 256
  {
    if b < 128 then b as char else '\U{FFFD}'
  }

  /** `unquote(s)`: each "%XY" with two hex digits becomes one byte; any other '%' stays. */
  function Unquote(s: string): (r: string)
    ensures |r| <= |s|
    decreases |s|
  {
    if |s| == 0 then ""
    else if s[0] == '%' && |s| >= 3 && IsHexDigit(s[1]) && IsHexDigit(s[2]) then
      [ByteChar(HexValue(s[1]) * 16 + HexValue(s[2]))] + Unquote(s[3..])
    else
      [s[0]] + Unquote(s[1..])
  }

  /** Decoding passes a '%'-free prefix through unchanged. */
  lemma {:induction false} UnquotePrefix(a: string, b: string)
    requires forall i :: 0 <= i < |a| ==> a[i] != '%'
    ensures Unquote(a + b) == a + Unquote(b)
    decreases |a|
  {
    if |a| > 0 {
      var ab := a + b;
      assert ab[0] == a[0] && ab[1..] == a[1..] + b;
      UnquotePrefix(a[1..], b);
      assert Unquote(ab) == [a[0]] + Unquote(a[1..] + b);
      assert [a[0]] + (a[1..] + Unquote(b)) == a + Unquote(b);
    } else {
      assert a + b == b;
    }
  }

  /** A string without '%' decodes to itself. */
  lemma UnquoteWithoutPercent(s: string)
    requires forall i :: 0 <= i < |s| ==> s[i] != '%'
    ensures Unquote(s) == s
  {
    UnquotePrefix(s, "");
    assert s + "" == s;
  }

  // An independent encoder, used to state what decoding undoes.

  function HexChar(n: nat): (c: char)
    requires n < 16
    ensures IsHexDigit(c) && HexValue(c) == n
  {
    if n < 10 then ('0' as int + n) as char else ('A' as int + n - 10) as char
  }

  /** Percent-encodes every character of an ASCII string as "%XY". */
  function PercentEncodeAll(s: string): (r: string)
    requires forall i :: 0 <= i < |s| ==> s[i] < '\U{80}'
    ensures |r| == 3 * |s|
    decreases |s|
  {
    if |s| == 0 then ""
    else "%" + [HexChar(s[0] as int / 16), HexChar(s[0] as int % 16)] + PercentEncodeAll(s[1..])
  }

  /** Decoding undoes full percent-encoding of any ASCII string. */
  lemma {:induction false} UnquotePercentEncodeAll(s: string)
    requires forall i :: 0 <= i < |s| ==> s[i] < '\U{80}'
    ensures Unquote(PercentEncodeAll(s)) == s
    decreases |s|
  {
    if |s| > 0 {
      var e := PercentEncodeAll(s);
      var hi, lo := s[0] as int / 16, s[0] as int % 16;
      assert e[0] == '%' && e[1] == HexChar(hi) && e[2] == HexChar(lo);
      assert e[3..] == PercentEncodeAll(s[1..]);
      assert HexValue(e[1]) * 16 + HexValue(e[2]) == s[0] as int;
      UnquotePercentEncodeAll(s[1..]);
      assert Unquote(e) == [s[0]] + s[1..];
    }
  }
}
