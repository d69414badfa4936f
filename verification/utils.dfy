/** URL and text helpers shared by the forms: the protocol allow-list,
    protocol auto-completion and HTML-special-character escaping. */
module Utils {
  import opened Wrappers
  import opened Strings
  import opened Url

  // ---------------------------------------------------------------------------
  // isValidUrl

  /** `isValidUrl`: a non-empty text that parses as a URL whose protocol is
      `http:` or `https:`. Every other protocol (`javascript:`, `data:`,
      `ftp:`, ...) is refused, and so is text that does not parse. */
  function IsValidUrl(parse: Parser, url: string): (r: bool)
    ensures url == "" ==> !r
    ensures r <==> url != "" && parse(url).Some? && parse(url).value.protocol in ["http:", "https:"]
  {
    if url == "" then false
    else
      match parse(url)
      case None => false
      case Some(u) => u.protocol == "http:" || u.protocol == "https:"
  }

  // ---------------------------------------------------------------------------
  // normalizeUrl

  const HttpScheme := "http://"
  const HttpsScheme := "https://"

  /** `/^https?:\/\//i.test(s)`: `s` begins with `http://` or `https://` in
      any mix of letter case. */
  predicate HasHttpScheme(s: string) {
    (|s| >= |HttpScheme| && EqualsIgnoreCase(s[..|HttpScheme|], HttpScheme))
    || (|s| >= |HttpsScheme| && EqualsIgnoreCase(s[..|HttpsScheme|], HttpsScheme))
  }

  /** `normalizeUrl`: "" stays ""; anything else is trimmed and gets
      `https://` in front unless it already starts with an HTTP scheme. */
  function NormalizeUrl(url: string): (r: string)
    ensures url == "" <==> r == ""
    ensures url != "" ==> HasHttpScheme(r)
    ensures url != "" && HasHttpScheme(Trim(url)) ==> r == Trim(url)
    ensures url != "" && !HasHttpScheme(Trim(url)) ==> r == HttpsScheme + Trim(url)
  {
    if url == "" then ""
    else
      var t := Trim(url);
      if HasHttpScheme(t) then t
      else
        var r := HttpsScheme + t;
        assert r[..|HttpsScheme|] == HttpsScheme;
        r
  }

  /** A normalized URL is trimmed: it begins with a letter of the scheme and
      ends either with the trimmed text's last character or with `/`. */
  lemma NormalizedIsTrimmed(url: string)
    requires url != ""
    ensures Trim(NormalizeUrl(url)) == NormalizeUrl(url)
  {
    var t := Trim(url);
    TrimSlice(url);
    if !HasHttpScheme(t) {
      var r := HttpsScheme + t;
      assert r[0] == 'h';
      if t != [] {
        assert r[|r| - 1] == t[|t| - 1];
      } else {
        assert r[|r| - 1] == '/';
      }
      TrimOfTrimmed(r);
    } else {
      TrimOfTrimmed(t);
    }
  }

  /** Normalizing twice is normalizing once. */
  lemma NormalizeIdempotent(url: string)
    ensures NormalizeUrl(NormalizeUrl(url)) == NormalizeUrl(url)
  {
    if url != "" {
      NormalizedIsTrimmed(url);
    }
  }

  /** A non-empty, all-whitespace input normalizes to the bare scheme. */
  lemma NormalizeWhitespace(url: string)
    requires url != "" && AllWhitespace(url)
    ensures NormalizeUrl(url) == HttpsScheme
  {
    TrimEmptyIff(url);
    assert Trim(url) == [];
    assert HttpsScheme + [] == HttpsScheme;
  }

  /** An upper-case scheme is kept as it is, not prefixed a second time. */
  lemma NormalizeKeepsUpperScheme(rest: string)
    requires rest == [] || !IsWhitespace(rest[|rest| - 1])
    ensures NormalizeUrl("HTTP://" + rest) == "HTTP://" + rest
  {
    var s := "HTTP://" + rest;
    assert s[0] == 'H';
    TrimOfTrimmed(s);
    assert s[..|HttpScheme|] == "HTTP://";
    assert Lower("HTTP://") == HttpScheme;
  }

  // ---------------------------------------------------------------------------
  // sanitizeText

  /** `s.replace(/c/g, rep)`: every occurrence of the character `c` replaced
      by `rep`. */
  function ReplaceAll(s: string, c: char, rep: string): string {
    if s == [] then []
    else (if s[0] == c then rep else [s[0]]) + ReplaceAll(s[1..], c, rep)
  }

  lemma {:induction false} ReplaceAllConcat(a: string, b: string, c: char, rep: string)
    ensures ReplaceAll(a + b, c, rep) == ReplaceAll(a, c, rep) + ReplaceAll(b, c, rep)
  {
    if a == [] {
      assert a + b == b;
    } else {
      assert (a + b)[0] == a[0];
      assert (a + b)[1..] == a[1..] + b;
      ReplaceAllConcat(a[1..], b, c, rep);
    }
  }

  lemma {:induction false} ReplaceAbsent(s: string, c: char, rep: string)
    requires c !in s
    ensures ReplaceAll(s, c, rep) == s
  {
    if s != [] {
      assert s[0] in s;
      assert forall x :: x in s[1..] ==> x in s;
      ReplaceAbsent(s[1..], c, rep);
    }
  }

  /** The escape of one character: the four HTML-special characters other
      than `&` become entities, every other character stays. */
  function Escape(c: char): string {
    if c == '<' then "&lt;"
    else if c == '>' then "&gt;"
    else if c == '"' then "&quot;"
    else if c == '\'' then "&#x27;"
    else [c]
  }

  /** The per-character reference definition of the escaping. */
  function EscapeAll(s: string): string {
    if s == [] then [] else Escape(s[0]) + EscapeAll(s[1..])
  }

  /** The four chained replacements of `sanitizeText`, in source order. */
  function ChainedReplace(s: string): string {
    ReplaceAll(ReplaceAll(ReplaceAll(ReplaceAll(s, '<', "&lt;"), '>', "&gt;"), '"', "&quot;"), '\'', "&#x27;")
  }

  /** `sanitizeText`: "" for an empty text, otherwise the chained replacements. */
  function SanitizeText(text: string): (r: string)
    ensures text == "" ==> r == ""
    ensures r == EscapeAll(text)
  {
    if text == "" then ""
    else
      SanitizeIsEscape(text);
      ChainedReplace(text)
  }

  lemma ReplaceOne(x: char, c: char, rep: string)
    ensures ReplaceAll([x], c, rep) == if x == c then rep else [x]
  {
    assert [x][1..] == [];
  }

  /** The chained replacements act on one character exactly as `Escape` does. */
  lemma ChainedReplaceChar(c: char)
    ensures ChainedReplace([c]) == Escape(c)
  {
    var s1 := ReplaceAll([c], '<', "&lt;");
    ReplaceOne(c, '<', "&lt;");
    var s2 := ReplaceAll(s1, '>', "&gt;");
    if c == '<' { ReplaceAbsent(s1, '>', "&gt;"); } else { ReplaceOne(c, '>', "&gt;"); }
    var s3 := ReplaceAll(s2, '"', "&quot;");
    if c == '<' || c == '>' { ReplaceAbsent(s2, '"', "&quot;"); } else { ReplaceOne(c, '"', "&quot;"); }
    if c == '<' || c == '>' || c == '"' { ReplaceAbsent(s3, '\'', "&#x27;"); } else { ReplaceOne(c, '\'', "&#x27;"); }
  }

  lemma {:induction false} ChainedReplaceConcat(a: string, b: string)
    ensures ChainedReplace(a + b) == ChainedReplace(a) + ChainedReplace(b)
  {
    var a1, b1 := ReplaceAll(a, '<', "&lt;"), ReplaceAll(b, '<', "&lt;");
    ReplaceAllConcat(a, b, '<', "&lt;");
    var a2, b2 := ReplaceAll(a1, '>', "&gt;"), ReplaceAll(b1, '>', "&gt;");
    ReplaceAllConcat(a1, b1, '>', "&gt;");
    var a3, b3 := ReplaceAll(a2, '"', "&quot;"), ReplaceAll(b2, '"', "&quot;");
    ReplaceAllConcat(a2, b2, '"', "&quot;");
    ReplaceAllConcat(a3, b3, '\'', "&#x27;");
  }

  /** Replacing the four characters one after another equals escaping each
      character on its own: no replacement produces a character that a
      later one would rewrite. */
  lemma {:induction false} SanitizeIsEscape(s: string)
    ensures ChainedReplace(s) == EscapeAll(s)
  {
    if s != [] {
      assert s == [s[0]] + s[1..];
      ChainedReplaceConcat([s[0]], s[1..]);
      ChainedReplaceChar(s[0]);
      SanitizeIsEscape(s[1..]);
    }
  }

  /** The escaped text holds none of `<`, `>`, `"`, `'`, is no shorter than
      the input, and leaves `&` alone. */
  lemma {:induction false} EscapeAllSafe(s: string)
    ensures '<' !in EscapeAll(s) && '>' !in EscapeAll(s) && '"' !in EscapeAll(s) && '\'' !in EscapeAll(s)
    ensures |EscapeAll(s)| >= |s|
  {
    if s != [] {
      EscapeAllSafe(s[1..]);
      var e := Escape(s[0]);
      assert '<' !in e && '>' !in e && '"' !in e && '\'' !in e;
      assert EscapeAll(s) == e + EscapeAll(s[1..]);
    }
  }

  lemma SanitizeSafe(text: string)
    ensures '<' !in SanitizeText(text) && '>' !in SanitizeText(text)
    ensures '"' !in SanitizeText(text) && '\'' !in SanitizeText(text)
    ensures |SanitizeText(text)| >= |text|
  {
    EscapeAllSafe(text);
  }

  /** An ampersand is not escaped, so an existing entity is not double-escaped. */
  lemma AmpersandKept()
    ensures SanitizeText("&amp;") == "&amp;"
  {
    var s := "&amp;";
    assert EscapeAll(s) == "&" + EscapeAll(s[1..]);
    assert EscapeAll(s[1..]) == "a" + EscapeAll(s[2..]);
    assert EscapeAll(s[2..]) == "m" + EscapeAll(s[3..]);
    assert EscapeAll(s[3..]) == "p" + EscapeAll(s[4..]);
    assert EscapeAll(s[4..]) == ";" + EscapeAll(s[5..]);
  }
}
