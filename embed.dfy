/** `toIframeIfUrl` (v2/app.js:86-100): what a panel's editor text becomes
    when the draft is committed. Text is blank, an embed snippet already,
    a bare http(s) URL that gets wrapped into one, or other markup kept
    verbatim. */
module Embed {

  /** The characters `String.prototype.trim` removes and the regular
      expression class `\S` excludes: ECMAScript WhiteSpace and
      LineTerminator. */
  predicate IsSpace(c: char)
  {
    || c == ' ' || c == '\t' || c == '\n' || c == '\U{000B}' || c == '\U{000C}' || c == '\r'
    || c == '\U{00A0}' || c == '\U{1680}' || ('\U{2000}' <= c <= '\U{200A}')
    || c == '\U{2028}' || c == '\U{2029}' || c == '\U{202F}' || c == '\U{205F}'
    || c == '\U{3000}' || c == '\U{FEFF}'
  }

  predicate NoSpace(s: string)
  {
    forall i | 0 <= i < |s| :: !IsSpace(s[i])
  }

  predicate AllSpace(s: string)
  {
    forall i | 0 <= i < |s| :: IsSpace(s[i])
  }

  /** A string with nothing for `trim` to remove. */
  predicate IsTrimmed(s: string)
  {
    s == [] || (!IsSpace(s[0]) && !IsSpace(s[|s| - 1]))
  }

  function TrimStart(s: string): (r: string)
    ensures |r| <= |s| && r == s[|s| - |r|..]
    ensures AllSpace(s[..|s| - |r|])
    ensures r == [] || !IsSpace(r[0])
  {
    if s == [] || !IsSpace(s[0]) then s else TrimStart(s[1..])
  }

  function TrimEnd(s: string): (r: string)
    ensures |r| <= |s| && r == s[..|r|]
    ensures AllSpace(s[|r|..])
    ensures r == [] || !IsSpace(r[|r| - 1])
  {
    if s == [] || !IsSpace(s[|s| - 1]) then s else TrimEnd(s[..|s| - 1])
  }

  /** `String.prototype.trim`: nothing is left for it to cut. */
  function Trim(s: string): (r: string)
    ensures IsTrimmed(r)
  {
    var t := TrimStart(s);
    var r := TrimEnd(t);
    assert r == [] || !IsSpace(r[0]);
    r
  }

  /** `trim` keeps a slice of the text and cuts only white space either
      side of it. */
  lemma TrimCutsSpace(s: string)
    ensures exists i, j | 0 <= i <= j <= |s| :: Trim(s) == s[i..j] && AllSpace(s[..i]) && AllSpace(s[j..])
  {
    var t := TrimStart(s);
    var r := TrimEnd(t);
    assert r == s[|s| - |t|..|s| - |t| + |r|];
    assert AllSpace(s[|s| - |t| + |r|..]) by {
      assert s[|s| - |t| + |r|..] == t[|r|..];
    }
  }

  lemma TrimOfTrimmed(s: string)
    requires IsTrimmed(s)
    ensures Trim(s) == s
  {
  }

  lemma {:induction false} TrimOfAllSpace(s: string)
    requires AllSpace(s)
    ensures Trim(s) == []
  {
    if s != [] {
      TrimOfAllSpace(s[1..]);
      assert TrimStart(s) == TrimStart(s[1..]);
    }
  }

  /** Trimming leaves nothing exactly when the text is all white space. */
  lemma TrimEmptyIffBlank(s: string)
    ensures Trim(s) == [] <==> AllSpace(s)
  {
    if AllSpace(s) {
      TrimOfAllSpace(s);
    }
    TrimCutsSpace(s);
    var i, j :| 0 <= i <= j <= |s| && Trim(s) == s[i..j] && AllSpace(s[..i]) && AllSpace(s[j..]);
    if Trim(s) == [] {
      AllSpaceJoin(s, i, j);
    }
  }

  lemma AllSpaceJoin(s: string, i: int, j: int)
    requires 0 <= i <= j <= |s|
    requires AllSpace(s[..i]) && AllSpace(s[i..j]) && AllSpace(s[j..])
    ensures AllSpace(s)
  {
    forall k | 0 <= k < |s| ensures IsSpace(s[k]) {
      if k < i {
        assert s[..i][k] == s[k];
      } else if k < j {
        assert s[i..j][k - i] == s[k];
      } else {
        assert s[j..][k - j] == s[k];
      }
    }
  }

  /** `toLowerCase` on one character. Only the ASCII letters are mapped;
      no non-ASCII character lowers to a letter of the two tokens tested
      below in a way that would let them match. */
  function LowerChar(c: char): char
  {
    if 'A' <= c <= 'Z' then (c as int + 32) as char else c
  }

  function Lower(s: string): (r: string)
    ensures |r| == |s|
    ensures forall i | 0 <= i < |s| :: r[i] == LowerChar(s[i])
  {
    seq(|s|, i requires 0 <= i < |s| => LowerChar(s[i]))
  }

  /** `s.includes(t)`. */
  predicate Contains(s: string, t: string)
  {
    exists i | 0 <= i <= |s| - |t| :: t <= s[i..]
  }

  /** The page's test for text that is already an embed snippet: its lower
      case holds both `<iframe` and `src=`. */
  predicate LooksLikeIframe(t: string)
  {
    var low := Lower(t);
    Contains(low, "<iframe") && Contains(low, "src=")
  }

  /** `t` starts with `p` when letter case is ignored. */
  predicate StartsWithIgnoringCase(t: string, p: string)
  {
    |p| <= |t| && Lower(t[..|p|]) == p
  }

  /** `/^https?:\/\/\S+$/i.test(t)`: the whole text is `http://` or
      `https://` in any letter case followed by one or more characters that
      are not white space. */
  predicate LooksLikeUrl(t: string)
  {
    || (StartsWithIgnoringCase(t, "http://") && |t| > 7 && NoSpace(t[7..]))
    || (StartsWithIgnoringCase(t, "https://") && |t| > 8 && NoSpace(t[8..]))
  }

  const WrapStart: string := "<iframe src=\""
  const WrapEnd: string := "\" loading=\"lazy\"></iframe>"

  /** The snippet a bare URL is wrapped into; the URL is inserted as it is,
      without escaping. */
  function Wrap(url: string): string
  {
    WrapStart + url + WrapEnd
  }

  function ToIframeIfUrl(text: string): (r: string)
  {
    var trimmed := Trim(text);
    if trimmed == [] then ""
    else if LooksLikeIframe(trimmed) then trimmed
    else if LooksLikeUrl(trimmed) then Wrap(trimmed)
    else trimmed
  }

  /** Text that opens the way a wrapped URL does is taken for a snippet. */
  lemma SnippetHead(s: string)
    requires WrapStart <= s
    ensures LooksLikeIframe(s)
  {
    var low := Lower(s);
    assert Lower(WrapStart) == WrapStart;
    assert low[..|WrapStart|] == Lower(WrapStart);
    assert "<iframe" <= low[0..];
    assert "src=" <= low[8..];
  }

  /** A wrapped URL is itself recognised as an embed snippet and needs no
      trimming, so it passes through a second time unchanged. */
  lemma WrapIsSnippet(url: string)
    ensures IsTrimmed(Wrap(url))
    ensures LooksLikeIframe(Wrap(url))
  {
    SnippetHead(Wrap(url));
  }

  /** What the editor commits for a panel:
      blank text gives the empty string; otherwise the result is the
      trimmed text, except that a bare URL (and only a bare URL that is not
      already a snippet) is wrapped, with the URL as its `src`. */
  lemma ToIframeIfUrlCases(text: string)
    ensures ToIframeIfUrl(text) == "" <==> AllSpace(text)
    ensures ToIframeIfUrl(text) != Trim(text) <==>
              !AllSpace(text) && !LooksLikeIframe(Trim(text)) && LooksLikeUrl(Trim(text))
    ensures ToIframeIfUrl(text) != Trim(text) ==>
              ToIframeIfUrl(text) == WrapStart + Trim(text) + WrapEnd
  {
    TrimEmptyIffBlank(text);
    var t := Trim(text);
    if t != [] && !LooksLikeIframe(t) && LooksLikeUrl(t) {
      assert |Wrap(t)| > |t|;
    }
  }

  /** The result never needs trimming and is a fixed point: committing a
      committed value again changes nothing. */
  lemma ToIframeIfUrlIdempotent(text: string)
    ensures IsTrimmed(ToIframeIfUrl(text))
    ensures ToIframeIfUrl(ToIframeIfUrl(text)) == ToIframeIfUrl(text)
  {
    var t := Trim(text);
    if t == [] {
    } else if LooksLikeIframe(t) {
      TrimOfTrimmed(t);
    } else if LooksLikeUrl(t) {
      WrapIsSnippet(t);
      TrimOfTrimmed(Wrap(t));
    } else {
      TrimOfTrimmed(t);
    }
  }

  /** Text without a `<` is never taken for a snippet. */
  lemma NoTagNoSnippet(t: string)
    requires forall i | 0 <= i < |t| :: t[i] != '<'
    ensures !LooksLikeIframe(t)
  {
    var low := Lower(t);
    forall i | 0 <= i <= |low| - 7 ensures !("<iframe" <= low[i..]) {
      assert low[i..][0] == low[i];
    }
  }

  /** A bare URL is wrapped, with the URL as the snippet's `src`. */
  lemma WrapUrlExample()
    ensures ToIframeIfUrl("https://example.com/x") == Wrap("https://example.com/x")
  {
    var url := "https://example.com/x";
    assert IsTrimmed(url) && url != [];
    NoTagNoSnippet(url);
    assert LooksLikeUrl(url) by {
      assert Lower(url[..8]) == "https://";
      assert NoSpace(url[8..]);
    }
    WrapsBareUrl(url);
  }

  lemma WrapsBareUrl(t: string)
    requires IsTrimmed(t) && t != [] && !LooksLikeIframe(t) && LooksLikeUrl(t)
    ensures ToIframeIfUrl(t) == Wrap(t)
  {
    TrimOfTrimmed(t);
  }

  /** A snippet with an `src` is returned as it is. */
  lemma KeepSnippetExample()
    ensures ToIframeIfUrl("<iframe src=\"a\"></iframe>") == "<iframe src=\"a\"></iframe>"
  {
    var snip := "<iframe src=\"a\"></iframe>";
    assert snip[..|WrapStart|] == WrapStart;
    SnippetHead(snip);
    TrimOfTrimmed(snip);
  }
}
