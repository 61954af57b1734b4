/** `search_contains`, and what its pattern means to SQL
    (src/filter_ast.rs:289-303; `LIKE … ESCAPE` is section 8.5 of ISO/IEC 9075-2). */
module LikePattern {

  /** The characters that mean something in a pattern whose escape is `\`. */
  predicate Special(c: char)
  {
    c == '%' || c == '_' || c == '\\'
  }

  /** No data exception: each escape stands before a special character. */
  predicate WellFormed(pattern: string)
  {
    if pattern == "" then true
    else if pattern[0] == '\\' then |pattern| >= 2 && Special(pattern[1]) && WellFormed(pattern[2..])
    else WellFormed(pattern[1..])
  }

  /** `text LIKE pattern ESCAPE '\'`: `%` stands for any substring, `_` for any
      one character, an escaped character for itself. */
  predicate LikeMatches(pattern: string, text: string)
    decreases |pattern|
  {
    if pattern == "" then text == ""
    else if pattern[0] == '%' then exists k | 0 <= k <= |text| :: LikeMatches(pattern[1..], text[k..])
    else if text == "" then false
    else if pattern[0] == '_' then LikeMatches(pattern[1..], text[1..])
    else if pattern[0] != '\\' then pattern[0] == text[0] && LikeMatches(pattern[1..], text[1..])
    else |pattern| >= 2 && pattern[1] == text[0] && LikeMatches(pattern[2..], text[1..])
  }

  predicate Contains(text: string, needle: string)
  {
    exists k | 0 <= k <= |text| :: needle <= text[k..]
  }

  // ------------------------------------------------------------------ escaping

  function EscapeChar(c: char): string
  {
    if Special(c) then ['\\', c] else [c]
  }

  function Escape(s: string): string
  {
    if s == "" then "" else EscapeChar(s[0]) + Escape(s[1..])
  }

  function SearchPattern(needle: string): string
  {
    "%" + Escape(needle) + "%"
  }

  lemma {:induction false} EscapeAppend(s: string, c: char)
    ensures Escape(s + [c]) == Escape(s) + EscapeChar(c)
  {
    if s == "" {
      assert Escape([c]) == EscapeChar(c) + Escape([c][1..]);
    } else {
      EscapeAppend(s[1..], c);
      assert (s + [c])[1..] == s[1..] + [c];
    }
  }

  /** An escaped text in front of a pattern demands exactly that text. */
  lemma {:induction false} LiteralPrefix(needle: string, rest: string, text: string)
    ensures LikeMatches(Escape(needle) + rest, text) <==> needle <= text && LikeMatches(rest, text[|needle|..])
    ensures WellFormed(Escape(needle) + rest) <==> WellFormed(rest)
  {
    var pattern := Escape(needle) + rest;
    if needle == "" {
      assert pattern == rest && text[0..] == text;
    } else {
      var c, tail := needle[0], Escape(needle[1..]) + rest;
      assert pattern == EscapeChar(c) + tail;
      assert pattern[|EscapeChar(c)|..] == tail;
      LiteralPrefix(needle[1..], rest, if text == "" then "" else text[1..]);
      if text != "" {
        assert needle == [c] + needle[1..] && text == [text[0]] + text[1..];
        assert needle <= text <==> c == text[0] && needle[1..] <= text[1..];
        assert needle <= text ==> text[1..][|needle[1..]|..] == text[|needle|..];
      }
    }
  }

  lemma {:induction false} PercentMatchesAll(text: string)
    ensures LikeMatches("%", text)
  {
    assert "%"[1..] == "" && text[|text|..] == "";
    assert LikeMatches("%"[1..], text[|text|..]);
  }

  /** The escaped pattern raises no exception and means "contains". */
  lemma {:induction false} PatternContains(needle: string, text: string)
    ensures WellFormed(SearchPattern(needle))
    ensures LikeMatches(SearchPattern(needle), text) <==> Contains(text, needle)
  {
    var pattern := SearchPattern(needle);
    var body := Escape(needle) + "%";
    assert pattern[1..] == body;
    assert "%"[1..] == "";
    LiteralPrefix(needle, "%", text);
    forall k | 0 <= k <= |text|
      ensures LikeMatches(body, text[k..]) <==> needle <= text[k..]
    {
      LiteralPrefix(needle, "%", text[k..]);
      if needle <= text[k..] { PercentMatchesAll(text[k..][|needle|..]); }
    }
  }

  // ------------------------------------------------------------------ trimming

  /** The `White_Space` characters of Unicode. */
  predicate Whitespace(c: char)
  {
    || '\U{9}' <= c <= '\U{d}' || c == ' ' || c == '\U{85}' || c == '\U{a0}' || c == '\U{1680}'
    || '\U{2000}' <= c <= '\U{200a}' || c == '\U{2028}' || c == '\U{2029}' || c == '\U{202f}'
    || c == '\U{205f}' || c == '\U{3000}'
  }

  function TrimStart(s: string): string
  {
    if s != "" && Whitespace(s[0]) then TrimStart(s[1..]) else s
  }

  function TrimEnd(s: string): string
  {
    if s != "" && Whitespace(s[|s| - 1]) then TrimEnd(s[..|s| - 1]) else s
  }

  /** `str::trim`. */
  function Trim(s: string): string
  {
    TrimEnd(TrimStart(s))
  }

  /** All but the white space at both ends. */
  ghost predicate Trimmed(s: string, t: string)
  {
    exists i, j ::
      && 0 <= i <= j <= |s| && t == s[i..j]
      && (forall k | 0 <= k < |s| :: k < i || j <= k ==> Whitespace(s[k]))
      && (i < j ==> !Whitespace(s[i]) && !Whitespace(s[j - 1]))
  }

  lemma {:induction false} TrimStartAt(s: string) returns (i: nat)
    ensures i <= |s| && TrimStart(s) == s[i..] && (forall k | 0 <= k < i :: Whitespace(s[k]))
    ensures i < |s| ==> !Whitespace(s[i])
  {
    i := 0;
    if s != "" && Whitespace(s[0]) {
      var n := TrimStartAt(s[1..]);
      i := n + 1;
      assert s[1..][n..] == s[i..];
      assert forall k | 0 < k < i :: s[k] == s[1..][k - 1];
    }
  }

  lemma {:induction false} TrimEndAt(s: string) returns (j: nat)
    ensures j <= |s| && TrimEnd(s) == s[..j] && (forall k | j <= k < |s| :: Whitespace(s[k]))
    ensures j > 0 ==> !Whitespace(s[j - 1])
  {
    j := |s|;
    if s != "" && Whitespace(s[|s| - 1]) {
      j := TrimEndAt(s[..|s| - 1]);
      assert s[..|s| - 1][..j] == s[..j];
      assert forall k | 0 <= k < |s| - 1 :: s[k] == s[..|s| - 1][k];
    }
  }

  /** Trimming is that. */
  lemma {:induction false} TrimIs(s: string)
    ensures Trimmed(s, Trim(s))
  {
    var i := TrimStartAt(s);
    var rest := s[i..];
    var n := TrimEndAt(rest);
    var j := i + n;
    assert rest[..n] == s[i..j];
    forall k | 0 <= k < |s| && (k < i || j <= k) ensures Whitespace(s[k]) {
      if k >= j { assert s[k] == rest[k - i]; }
    }
    if i < j { assert s[j - 1] == rest[n - 1]; }
  }

  /** Whatever is typed, the bound pattern is valid and finds exactly the texts
      that contain the trimmed, lower-cased input. */
  method SearchContains(value: string, toLowercase: string -> string) returns (escaped: string)
    ensures WellFormed(escaped)
    ensures forall text :: LikeMatches(escaped, text) <==> Contains(text, toLowercase(Trim(value)))
  {
    var needle := toLowercase(Trim(value));
    escaped := "%";
    for i := 0 to |needle|
      invariant escaped == "%" + Escape(needle[..i])
    {
      EscapeAppend(needle[..i], needle[i]);
      assert needle[..i] + [needle[i]] == needle[..i + 1];
      if Special(needle[i]) { escaped := escaped + "\\"; }
      escaped := escaped + [needle[i]];
    }
    assert needle[..|needle|] == needle;
    escaped := escaped + "%";
    assert escaped == SearchPattern(needle);
    PatternContains(needle, "");
    forall text
      ensures LikeMatches(escaped, text) <==> Contains(text, needle)
    {
      PatternContains(needle, text);
    }
  }
}
