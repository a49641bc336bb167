/** The search of payment orders: escaping a query for LIKE, and what the resulting pattern matches. */
module Search {
  import opened Domain

  // ----- escaping -----

  /** strings.ReplaceAll for a needle of one character. */
  function ReplaceAll(s: string, needle: char, replacement: string): string {
    if s == "" then ""
    else (if s[0] == needle then replacement else [s[0]]) + ReplaceAll(s[1..], needle, replacement)
  }

  function EscapeLike(value: string): string {
    var value := ReplaceAll(value, '\\', "\\\\");
    var value := ReplaceAll(value, '%', "\\%");
    ReplaceAll(value, '_', "\\_")
  }

  function EscapedChar(c: char): string {
    if c == '\\' || c == '%' || c == '_' then ['\\', c] else [c]
  }

  /** One pass, one character at a time. */
  function Escaped(s: string): string {
    if s == "" then "" else EscapedChar(s[0]) + Escaped(s[1..])
  }

  lemma {:induction false} ReplaceAllAppend(a: string, b: string, needle: char, replacement: string)
    ensures ReplaceAll(a + b, needle, replacement) == ReplaceAll(a, needle, replacement) + ReplaceAll(b, needle, replacement)
  {
    if a == "" {
      assert a + b == b;
    } else {
      assert a + b == [a[0]] + (a[1..] + b) && (a + b)[1..] == a[1..] + b;
      ReplaceAllAppend(a[1..], b, needle, replacement);
    }
  }

  lemma ReplaceAllInChar(c: char, needle: char, replacement: string)
    ensures ReplaceAll([c], needle, replacement) == if c == needle then replacement else [c]
  {
    assert [c][1..] == "";
  }

  lemma ReplaceAllInPair(c: char, d: char, needle: char, replacement: string)
    requires c != needle && d != needle
    ensures ReplaceAll([c, d], needle, replacement) == [c, d]
  {
    assert [c, d][1..] == [d];
    ReplaceAllInChar(d, needle, replacement);
  }

  /** The three passes do not touch each other's work: they are the single pass. */
  lemma {:induction false} PassesAreOnePass(s: string)
    ensures EscapeLike(s) == Escaped(s)
  {
    if s != "" {
      var c, rest := s[0], s[1..];
      PassesAreOnePass(rest);
      assert s == [c] + rest;
      ReplaceAllAppend([c], rest, '\\', "\\\\");
      var first := ReplaceAll([c], '\\', "\\\\");
      ReplaceAllInChar(c, '\\', "\\\\");
      var restFirst := ReplaceAll(rest, '\\', "\\\\");
      ReplaceAllAppend(first, restFirst, '%', "\\%");
      var second, restSecond := ReplaceAll(first, '%', "\\%"), ReplaceAll(restFirst, '%', "\\%");
      ReplaceAllAppend(second, restSecond, '_', "\\_");
      assert ReplaceAll(second, '_', "\\_") == EscapedChar(c) by {
        if c == '\\' {
          ReplaceAllInPair('\\', '\\', '%', "\\%");
          ReplaceAllInPair('\\', '\\', '_', "\\_");
        } else if c == '%' {
          ReplaceAllInChar(c, '%', "\\%");
          ReplaceAllInPair('\\', '%', '_', "\\_");
        } else {
          ReplaceAllInChar(c, '%', "\\%");
          ReplaceAllInChar(c, '_', "\\_");
        }
      }
    }
  }

  // ----- LIKE -----

  predicate SameLetter(a: char, b: char) {
    LowerChar(a) == LowerChar(b)
  }

  /** SQLite's LIKE with ESCAPE '\': a percent sign matches any text, an underscore any character, an
      escaped character and any other character itself up to ASCII case. */
  predicate Like(pattern: string, text: string)
    decreases |pattern|, |text|
  {
    if pattern == "" then text == ""
    else if pattern[0] == '%' then Like(pattern[1..], text) || (text != "" && Like(pattern, text[1..]))
    else if pattern[0] == '\\' then
      |pattern| > 1 && text != "" && SameLetter(pattern[1], text[0]) && Like(pattern[2..], text[1..])
    else text != "" && (pattern[0] == '_' || SameLetter(pattern[0], text[0])) && Like(pattern[1..], text[1..])
  }

  predicate StartsLike(q: string, text: string) {
    |q| <= |text| && forall i :: 0 <= i < |q| ==> SameLetter(q[i], text[i])
  }

  /** The text contains the query, up to ASCII case. */
  ghost predicate ContainsLike(q: string, text: string) {
    exists k :: 0 <= k <= |text| && StartsLike(q, text[k..])
  }

  lemma {:induction false} PercentMatchesAll(text: string)
    ensures Like("%", text)
  {
    assert "%"[1..] == "";
    if text != "" {
      PercentMatchesAll(text[1..]);
    }
  }

  lemma {:induction false} EscapedMatchesItself(q: string, text: string)
    ensures Like(Escaped(q) + "%", text) <==> StartsLike(q, text)
  {
    if q == "" {
      assert Escaped(q) + "%" == "%";
      PercentMatchesAll(text);
    } else {
      var tail := Escaped(q[1..]) + "%";
      var pattern := Escaped(q) + "%";
      assert pattern == EscapedChar(q[0]) + tail;
      assert pattern[|EscapedChar(q[0])|..] == tail;
      if text != "" {
        EscapedMatchesItself(q[1..], text[1..]);
        assert StartsLike(q, text) <==> SameLetter(q[0], text[0]) && StartsLike(q[1..], text[1..]) by {
          if SameLetter(q[0], text[0]) && StartsLike(q[1..], text[1..]) {
            assert forall i :: 0 < i < |q| ==> q[i] == q[1..][i - 1] && text[i] == text[1..][i - 1];
          }
        }
      }
    }
  }

  lemma {:induction false} PercentSkips(pattern: string, text: string)
    requires pattern != "" && pattern[0] == '%'
    ensures Like(pattern, text) <==> exists k :: 0 <= k <= |text| && Like(pattern[1..], text[k..])
  {
    assert text[0..] == text;
    if text != "" {
      PercentSkips(pattern, text[1..]);
      forall k | 0 <= k <= |text[1..]|
        ensures text[1..][k..] == text[k + 1..]
      {
      }
      if k :| 0 <= k <= |text[1..]| && Like(pattern[1..], text[1..][k..]) {
        assert Like(pattern[1..], text[k + 1..]);
      }
      if k :| 0 <= k <= |text| && Like(pattern[1..], text[k..]) {
        if k > 0 {
          assert Like(pattern[1..], text[1..][k - 1..]);
        }
      }
    }
  }

  /** The pattern built from any query matches exactly the texts that contain the query, whatever
      percent signs, underscores and backslashes either of them holds. */
  lemma SearchFindsTheQuery(q: string, text: string)
    ensures Like("%" + EscapeLike(q) + "%", text) <==> ContainsLike(q, text)
  {
    var pattern := "%" + EscapeLike(q) + "%";
    PassesAreOnePass(q);
    assert pattern[1..] == Escaped(q) + "%";
    PercentSkips(pattern, text);
    forall k | 0 <= k <= |text|
      ensures Like(pattern[1..], text[k..]) <==> StartsLike(q, text[k..])
    {
      EscapedMatchesItself(q, text[k..]);
    }
  }

  /** Unescaped, a query that holds a percent sign would match texts that do not contain it. */
  lemma EscapingMatters()
    ensures exists q, text :: Like("%" + q + "%", text) && !ContainsLike(q, text)
  {
    var q, text := "%", "a";
    assert ("%" + q + "%")[1..] == "%%" && "%%"[1..] == "%";
    PercentMatchesAll(text);
    assert Like("%%", text);
    assert Like("%" + q + "%", text);
    forall k | 0 <= k <= |text|
      ensures !StartsLike(q, text[k..])
    {
      if k == 0 {
        assert !SameLetter(q[0], text[0..][0]);
      }
    }
  }
}
