/**
 * `sanitize_filename`: the file name the music batch hands to yt-dlp is
 * built from a video title with one character class removed, spaces turned
 * into underscores and the result cut to 100 characters.
 */
module Filenames {
  import opened Strings

  /** `[<>:"/\\|?*'"`$;&(){}[\]]`: the twenty characters that are removed. */
  const ForbiddenChars: string := "<>:\"/\\|?*'`$;&(){}[]"

  /** The longest sanitised name. */
  const MaxNameLength: nat := 100

  predicate IsForbidden(c: char) { c in ForbiddenChars }

  /** A name with no forbidden character and no space. */
  predicate IsClean(s: string) {
    forall i :: 0 <= i < |s| ==> !IsForbidden(s[i]) && s[i] != ' '
  }

  /** `re.sub(<class>, '', s)`: s with every forbidden character deleted. */
  function StripForbidden(s: string): (r: string)
    ensures |r| <= |s|
    ensures forall i :: 0 <= i < |r| ==> !IsForbidden(r[i]) && r[i] in s
    decreases |s|
  {
    if |s| == 0 then []
    else
      var rest := StripForbidden(s[1..]);
      if IsForbidden(s[0]) then rest else [s[0]] + rest
  }

  /** `sanitize_filename(s)`. */
  function SanitizeFilename(s: string): (r: string)
    ensures |r| <= MaxNameLength
    ensures IsClean(r)
    ensures StartsWith(ReplaceChar(StripForbidden(s), ' ', '_'), r)
    ensures |ReplaceChar(StripForbidden(s), ' ', '_')| <= MaxNameLength ==> r == ReplaceChar(StripForbidden(s), ' ', '_')
  {
    var t := ReplaceChar(StripForbidden(s), ' ', '_');
    if |t| <= MaxNameLength then t else t[..MaxNameLength]
  }

  /** Deleting forbidden characters is the identity exactly on strings that hold none. */
  lemma {:induction false} StripForbiddenFixed(s: string)
    ensures StripForbidden(s) == s <==> forall i :: 0 <= i < |s| ==> !IsForbidden(s[i])
    decreases |s|
  {
    if |s| > 0 {
      StripForbiddenFixed(s[1..]);
      if forall i :: 0 <= i < |s| ==> !IsForbidden(s[i]) {
        assert forall i :: 0 <= i < |s[1..]| ==> !IsForbidden(s[1..][i]) by {
          forall i | 0 <= i < |s[1..]| ensures !IsForbidden(s[1..][i]) {
            assert s[1..][i] == s[i + 1];
          }
        }
      } else if IsForbidden(s[0]) {
        assert |StripForbidden(s)| < |s|;
      } else {
        var i :| 0 <= i < |s| && IsForbidden(s[i]);
        assert IsForbidden(s[1..][i - 1]);
        assert StripForbidden(s) == [s[0]] + StripForbidden(s[1..]);
        assert StripForbidden(s)[1..] == StripForbidden(s[1..]);
      }
    }
  }

  /** A clean name of at most 100 characters is left as it is, and only such a name is. */
  lemma SanitizeFixedPoints(s: string)
    ensures SanitizeFilename(s) == s <==> IsClean(s) && |s| <= MaxNameLength
  {
    StripForbiddenFixed(s);
    if IsClean(s) {
      assert ReplaceChar(s, ' ', '_') == s;
    }
  }

  /** Sanitising twice is sanitising once. */
  lemma SanitizeIdempotent(s: string)
    ensures SanitizeFilename(SanitizeFilename(s)) == SanitizeFilename(s)
  {
    SanitizeFixedPoints(SanitizeFilename(s));
  }

  /** Deletion distributes over concatenation. */
  lemma {:induction false} StripForbiddenConcat(a: string, b: string)
    ensures StripForbidden(a + b) == StripForbidden(a) + StripForbidden(b)
    decreases |a|
  {
    if |a| > 0 {
      assert (a + b)[1..] == a[1..] + b;
      StripForbiddenConcat(a[1..], b);
    } else {
      assert a + b == b;
    }
  }

  /** r can be read off s from left to right, skipping characters of s. */
  predicate IsSubsequence(r: string, s: string)
    decreases |s|
  {
    |r| == 0 || (|s| > 0 && if r[0] == s[0] then IsSubsequence(r[1..], s[1..]) else IsSubsequence(r, s[1..]))
  }

  /**
   * Exactly the forbidden characters are removed: every other character is
   * kept as often as it occurs, in its original order.
   */
  lemma {:induction false} StripForbiddenKeepsAllowed(s: string)
    ensures |StripForbidden(s)| == |s| - CountForbidden(s)
    ensures forall c ::
      multiset(StripForbidden(s))[c] == if IsForbidden(c) then 0 else multiset(s)[c]
    ensures IsSubsequence(StripForbidden(s), s)
    decreases |s|
  {
    if |s| > 0 {
      StripForbiddenKeepsAllowed(s[1..]);
      var rest := StripForbidden(s[1..]);
      assert s == [s[0]] + s[1..];
      assert multiset(s) == multiset{s[0]} + multiset(s[1..]);
      if IsForbidden(s[0]) {
        assert |rest| > 0 ==> rest[0] != s[0];
      } else {
        assert StripForbidden(s) == [s[0]] + rest;
        assert StripForbidden(s)[1..] == rest;
        assert multiset(StripForbidden(s)) == multiset{s[0]} + multiset(rest);
      }
    }
  }

  /** How many forbidden characters s holds. */
  function CountForbidden(s: string): (n: nat)
    ensures n <= |s|
    ensures n == 0 <==> forall i :: 0 <= i < |s| ==> !IsForbidden(s[i])
    decreases |s|
  {
    if |s| == 0 then 0
    else
      var rest := CountForbidden(s[1..]);
      assert forall i :: 1 <= i < |s| ==> s[i] == s[1..][i - 1];
      (if IsForbidden(s[0]) then 1 else 0) + rest
  }
}
