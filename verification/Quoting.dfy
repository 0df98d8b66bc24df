/** String literals: the two replacements that undo the escapes, and writing a string so that they do. */
module Quoting {
  import opened Wrappers
  import opened Lexers
  import opened Tokenizers

  /** s.replace(xy, into), left to right, without overlaps. */
  function Replace(s: string, x: char, y: char, into: char): string {
    if s == "" then ""
    else if |s| >= 2 && s[0] == x && s[1] == y then [into] + Replace(s[2..], x, y, into)
    else [s[0]] + Replace(s[1..], x, y, into)
  }

  /** First \" becomes ", then \\ becomes \. */
  function Unescape(inner: string): string {
    Replace(Replace(inner, '\\', '"', '"'), '\\', '\\', '\\')
  }

  /** _unquote(raw) */
  function Unquote(raw: string): string {
    Unescape(if |raw| >= 2 then raw[1..|raw| - 1] else "")
  }

  /** Between two quotes, escaped pairs and plain characters; on one line. */
  predicate IsStringText(text: string) {
    && |text| >= 2 && text[0] == '"' && text[|text| - 1] == '"'
    && IsUnits(text, 1, |text| - 1) && Newlines(text) == 0
  }

  /** One escape at a time: \" and \\ lose their backslash, any other pair stays as it is. */
  function OnePass(s: string): string {
    if s == "" then ""
    else if s[0] == '\\' && |s| >= 2 then
      (if s[1] == '"' || s[1] == '\\' then [s[1]] else [s[0], s[1]]) + OnePass(s[2..])
    else [s[0]] + OnePass(s[1..])
  }

  lemma TailOf(s: string, i: nat)
    requires i < |s|
    ensures s[i..][0] == s[i] && s[i..][1..] == s[i + 1..]
    ensures i + 1 < |s| ==> s[i..][1] == s[i + 1] && s[i..][2..] == s[i + 2..] && s[i + 1..][1..] == s[i + 2..]
  {
  }

  /** An escaped pair goes through the two replacements on its own. */
  lemma PairPasses(s: string, rest: string, c: char)
    requires s == ['\\', c] + rest && (rest != "" ==> rest[0] != '"')
    ensures Unescape(s) == (if c == '"' || c == '\\' then [c] else ['\\', c]) + Unescape(rest)
  {
    var first := Replace(rest, '\\', '"', '"');
    assert s[2..] == rest && s[1..] == [c] + rest && ([c] + rest)[1..] == rest;
    if c == '"' {
      assert Replace(s, '\\', '"', '"') == ['"'] + first;
      assert (['"'] + first)[1..] == first;
    } else {
      assert Replace(s, '\\', '"', '"') == ['\\'] + Replace([c] + rest, '\\', '"', '"');
      assert Replace([c] + rest, '\\', '"', '"') == [c] + first;
      var all := ['\\'] + ([c] + first);
      assert all[2..] == first && all[1..] == [c] + first && ([c] + first)[1..] == first;
      if c != '\\' {
        assert Replace(all, '\\', '\\', '\\') == ['\\'] + Replace([c] + first, '\\', '\\', '\\');
        assert ['\\'] + ([c] + Unescape(rest)) == ['\\', c] + Unescape(rest);
      }
    }
  }

  lemma PlainPasses(s: string, rest: string, c: char)
    requires s == [c] + rest && c != '\\'
    ensures Unescape(s) == [c] + Unescape(rest)
  {
    var first := Replace(rest, '\\', '"', '"');
    assert s[1..] == rest && ([c] + first)[1..] == first;
    assert Replace(s, '\\', '"', '"') == [c] + first;
  }

  /** On every string the lexer accepts the two replacements undo exactly one escape at a time. */
  lemma {:induction false} TwoPassesAreOne(s: string, i: nat)
    requires IsUnits(s, i, |s|)
    ensures Unescape(s[i..]) == OnePass(s[i..])
    decreases |s| - i
  {
    hide Unescape;
    if i == |s| {
      NothingToUnescape();
      assert s[i..] == "";
    } else {
      TailOf(s, i);
      if s[i] == '\\' {
        TwoPassesAreOne(s, i + 2);
        assert s[i..] == ['\\', s[i + 1]] + s[i + 2..];
        UnitsStart(s, i + 2);
        PairPasses(s[i..], s[i + 2..], s[i + 1]);
      } else {
        TwoPassesAreOne(s, i + 1);
        assert s[i..] == [s[i]] + s[i + 1..];
        PlainPasses(s[i..], s[i + 1..], s[i]);
      }
    }
  }

  lemma NothingToUnescape()
    ensures Unescape("") == ""
  {
  }

  lemma UnitsStart(s: string, i: nat)
    requires IsUnits(s, i, |s|)
    ensures s[i..] != "" ==> s[i..][0] != '"'
  {
  }

  // ---------------------------------------------------------------- writing a string

  function Escape(v: string): string {
    if v == "" then ""
    else (if v[0] == '"' || v[0] == '\\' then ['\\', v[0]] else [v[0]]) + Escape(v[1..])
  }

  function Quote(v: string): string {
    "\"" + Escape(v) + "\""
  }

  lemma {:induction false} EscapeUndone(v: string)
    ensures OnePass(Escape(v)) == v
    decreases |v|
  {
    if v != "" {
      EscapeUndone(v[1..]);
      var e, rest := Escape(v), Escape(v[1..]);
      if v[0] == '"' || v[0] == '\\' {
        assert e[2..] == rest && e[0] == '\\' && e[1] == v[0];
      } else {
        assert e[1..] == rest && e[0] == v[0];
      }
      assert v == [v[0]] + v[1..];
    }
  }

  /** Units shift with the text around them. */
  lemma {:induction false} UnitsShift(s: string, i: nat, t: string, j: nat, n: nat)
    requires i <= n <= |s| && j <= |t| && n - i <= |t| - j && forall k | i <= k < n :: s[k] == t[k - i + j]
    requires IsUnits(s, i, n)
    ensures IsUnits(t, j, j + n - i)
    decreases n - i
  {
    if i < n {
      if s[i] == '\\' { UnitsShift(s, i + 2, t, j + 2, n); } else { UnitsShift(s, i + 1, t, j + 1, n); }
    }
  }

  lemma {:induction false} EscapeUnits(v: string)
    ensures IsUnits(Escape(v), 0, |Escape(v)|)
    decreases |v|
  {
    if v != "" {
      EscapeUnits(v[1..]);
      var e, rest := Escape(v), Escape(v[1..]);
      var k := |e| - |rest|;
      assert e[k..] == rest;
      forall m | 0 <= m < |rest| ensures rest[m] == e[m + k] { assert e[k..][m] == e[m + k]; }
      UnitsShift(rest, 0, e, k, |rest|);
    }
  }

  lemma {:induction false} NewlinesConcat(a: string, b: string)
    ensures Newlines(a + b) == Newlines(a) + Newlines(b)
    decreases |b|
  {
    if b == "" {
      assert a + b == a;
    } else {
      NewlinesConcat(a, b[..|b| - 1]);
      assert (a + b)[..|a + b| - 1] == a + b[..|b| - 1];
    }
  }

  lemma NewlinesOne(c: char)
    ensures Newlines([c]) == if c == '\n' then 1 else 0
  {
    assert [c][..0] == "";
  }

  lemma {:induction false} EscapeNewlines(v: string)
    ensures Newlines(Escape(v)) == Newlines(v)
    decreases |v|
  {
    if v != "" {
      EscapeNewlines(v[1..]);
      var head := if v[0] == '"' || v[0] == '\\' then ['\\', v[0]] else [v[0]];
      assert v == [v[0]] + v[1..];
      NewlinesConcat([v[0]], v[1..]);
      NewlinesConcat(head, Escape(v[1..]));
      NewlinesOne(v[0]);
      if |head| == 2 {
        assert head == ['\\'] + [v[0]];
        NewlinesConcat(['\\'], [v[0]]);
        NewlinesOne('\\');
      }
    }
  }

  /** Writing a string that is on one line and reading it back. */
  lemma QuoteRoundTrip(v: string)
    requires Newlines(v) == 0
    ensures IsStringText(Quote(v)) && Unquote(Quote(v)) == v
  {
    hide Unescape;
    var e, q := Escape(v), Quote(v);
    EscapeUnits(v);
    EscapeUndone(v);
    EscapeNewlines(v);
    TwoPassesAreOne(e, 0);
    assert e[0..] == e && q[1..|q| - 1] == e;
    forall k | 0 <= k < |e| ensures e[k] == q[k + 1] { assert q[1..|q| - 1][k] == q[k + 1]; }
    UnitsShift(e, 0, q, 1, |e|);
    NewlinesConcat("\"" + e, "\"");
    NewlinesConcat("\"", e);
    NewlinesOne('"');
  }

  /** What is read back from a literal is on one line too. */
  lemma {:induction false} ReplaceNewlines(s: string, x: char, y: char, into: char)
    requires Newlines(s) == 0 && into != '\n'
    ensures Newlines(Replace(s, x, y, into)) == 0
    decreases |s|
  {
    if s != "" {
      assert s == [s[0]] + s[1..];
      NewlinesConcat([s[0]], s[1..]);
      if |s| >= 2 && s[0] == x && s[1] == y {
        assert s == s[..2] + s[2..];
        NewlinesConcat(s[..2], s[2..]);
        ReplaceNewlines(s[2..], x, y, into);
        NewlinesConcat([into], Replace(s[2..], x, y, into));
        NewlinesOne(into);
      } else {
        ReplaceNewlines(s[1..], x, y, into);
        NewlinesConcat([s[0]], Replace(s[1..], x, y, into));
      }
    }
  }

  lemma UnquoteNewlines(raw: string)
    requires IsStringText(raw)
    ensures Newlines(Unquote(raw)) == 0
  {
    var inner := raw[1..|raw| - 1];
    assert raw == raw[..1] + inner + raw[|raw| - 1..];
    NewlinesConcat(raw[..1] + inner, raw[|raw| - 1..]);
    NewlinesConcat(raw[..1], inner);
    ReplaceNewlines(inner, '\\', '"', '"');
    ReplaceNewlines(Replace(inner, '\\', '"', '"'), '\\', '\\', '\\');
  }
}
