// Quoting of values inside STIX patterns.
module StixPattern {
  import opened Basics

  // Replacement of every occurrence of one character.
  function Replace(s: string, c: char, replacement: string): string {
    if s == "" then ""
    else (if s[0] == c then replacement else [s[0]]) + Replace(s[1..], c, replacement)
  }

  function Quote(value: string): string {
    Replace(Replace(value, '\\', "\\\\"), '\'', "\\'")
  }

  // The comparison the URLhaus connector writes for one URL.
  function UrlPattern(url: string): string {
    "[url:value = '" + Quote(url) + "']"
  }

  // ---- Reading a string literal: section 9 of STIX Version 2.1 ----

  // The value read from the opening quote's successor up to the closing quote, and what follows it.
  // Inside, a quote or a backslash is written with a backslash before it, and nothing else is.
  function ReadBody(s: string): Option<(string, string)> {
    if s == "" then None
    else if s[0] == '\'' then Some(("", s[1..]))
    else if s[0] == '\\' then
      if |s| > 1 && (s[1] == '\'' || s[1] == '\\') then Prepended(s[1], ReadBody(s[2..])) else None
    else Prepended(s[0], ReadBody(s[1..]))
  }

  function Prepended(c: char, r: Option<(string, string)>): Option<(string, string)> {
    if r.Some? then Some(([c] + r.value.0, r.value.1)) else None
  }

  function ReadLiteral(s: string): Option<(string, string)> {
    if s == "" || s[0] != '\'' then None else ReadBody(s[1..])
  }

  const URL_PREFIX := "[url:value = "

  // The URL compared with by a whole pattern of the shape above.
  function ReadUrlPattern(pattern: string): Option<string> {
    if |pattern| < |URL_PREFIX| || pattern[..|URL_PREFIX|] != URL_PREFIX then None
    else
      var literal := ReadLiteral(pattern[|URL_PREFIX|..]);
      if literal.Some? && literal.value.1 == "]" then Some(literal.value.0) else None
  }

  // ---- Quoting and reading are inverse ----

  function EscapedChar(c: char): string {
    if c == '\\' then "\\\\" else if c == '\'' then "\\'" else [c]
  }

  function Escaped(value: string): string {
    if value == "" then "" else EscapedChar(value[0]) + Escaped(value[1..])
  }

  lemma {:induction false} ReplaceConcat(a: string, b: string, c: char, replacement: string)
    ensures Replace(a + b, c, replacement) == Replace(a, c, replacement) + Replace(b, c, replacement)
  {
    if a == "" {
      assert a + b == b;
    } else {
      assert (a + b)[1..] == a[1..] + b;
      ReplaceConcat(a[1..], b, c, replacement);
    }
  }

  // The two passes escape each character once.
  lemma {:induction false} TwoPassesAreOne(value: string)
    ensures Quote(value) == Escaped(value)
  {
    if value != "" {
      TwoPassesAreOne(value[1..]);
      var first := if value[0] == '\\' then "\\\\" else [value[0]];
      ReplaceConcat(first, Replace(value[1..], '\\', "\\\\"), '\'', "\\'");
      if value[0] == '\\' {
        assert Replace("\\", '\'', "\\'") == "\\" + Replace("", '\'', "\\'");
        assert first[1..] == "\\";
        assert Replace(first, '\'', "\\'") == "\\" + Replace("\\", '\'', "\\'");
      } else {
        assert first[1..] == "";
        assert Replace(first, '\'', "\\'") == EscapedChar(value[0]) + "";
      }
    }
  }

  lemma {:induction false} EscapedReadsBack(value: string, rest: string)
    ensures ReadBody(Escaped(value) + "'" + rest) == Some((value, rest))
  {
    var s := Escaped(value) + "'" + rest;
    if value == "" {
      assert s == "'" + rest;
      assert s[1..] == rest;
    } else {
      EscapedReadsBack(value[1..], rest);
      var e := EscapedChar(value[0]);
      assert s == e + (Escaped(value[1..]) + "'" + rest);
      assert s[|e|..] == Escaped(value[1..]) + "'" + rest;
      assert value == [value[0]] + value[1..];
    }
  }

  lemma {:induction false} OnlyEscapedReads(s: string)
    requires ReadBody(s).Some?
    ensures s == Escaped(ReadBody(s).value.0) + "'" + ReadBody(s).value.1
  {
    if s[0] == '\'' {
      assert s == "'" + s[1..];
    } else {
      var n := if s[0] == '\\' then 2 else 1;
      OnlyEscapedReads(s[n..]);
      var v := ReadBody(s).value.0;
      assert v[1..] == ReadBody(s[n..]).value.0;
      assert s == s[..n] + s[n..];
      assert s[..n] == EscapedChar(v[0]);
    }
  }

  // A literal reads as a value, ending at its closing quote, if and only if it is that value quoted.
  lemma LiteralReadsIffQuoted(literal: string, value: string, rest: string)
    ensures ReadLiteral(literal) == Some((value, rest)) <==> literal == "'" + Quote(value) + "'" + rest
  {
    TwoPassesAreOne(value);
    EscapedReadsBack(value, rest);
    assert ("'" + Quote(value) + "'" + rest)[1..] == Escaped(value) + "'" + rest;
    if ReadLiteral(literal) == Some((value, rest)) {
      OnlyEscapedReads(literal[1..]);
      assert literal == "'" + literal[1..];
    }
  }

  // The pattern written for a URL compares with exactly that URL, and no other URL gives that pattern.
  lemma UrlPatternReadsBack(pattern: string, url: string)
    ensures ReadUrlPattern(pattern) == Some(url) <==> pattern == UrlPattern(url)
    ensures UrlPattern(url) == "[url:value = '" + Escaped(url) + "']"
  {
    TwoPassesAreOne(url);
    var literal := "'" + Quote(url) + "'" + "]";
    assert UrlPattern(url) == URL_PREFIX + literal;
    LiteralReadsIffQuoted(literal, url, "]");
    if ReadUrlPattern(pattern) == Some(url) {
      LiteralReadsIffQuoted(pattern[|URL_PREFIX|..], url, "]");
      assert pattern == URL_PREFIX + pattern[|URL_PREFIX|..];
    }
    assert UrlPattern(url)[|URL_PREFIX|..] == literal;
  }
}
