/** The string primitives of Rust's standard library that the core relies on:
    `char::is_whitespace`, `str::trim`, `str::split_whitespace`,
    `str::starts_with` (the sequence prefix `p <= s`) and `str::contains`. */
module Text {

  /** Rust's `char::is_whitespace`: the Unicode White_Space property. */
  predicate IsWhitespace(c: char)
  {
    ('\U{9}' <= c <= '\U{D}') || c == ' ' || c == '\U{85}' || c == '\U{A0}' || c == '\U{1680}'
    || ('\U{2000}' <= c <= '\U{200A}') || c == '\U{2028}' || c == '\U{2029}'
    || c == '\U{202F}' || c == '\U{205F}' || c == '\U{3000}'
  }

  predicate AllWhitespace(s: string)
    decreases |s|
  {
    s == [] || (IsWhitespace(s[0]) && AllWhitespace(s[1..]))
  }

  predicate NoWhitespace(s: string)
    decreases |s|
  {
    s == [] || (!IsWhitespace(s[0]) && NoWhitespace(s[1..]))
  }

  /** A token as `split_whitespace` yields it: non-empty and free of whitespace. */
  predicate IsWord(w: string)
  {
    |w| > 0 && NoWhitespace(w)
  }

  predicate AllWords(ws: seq<string>)
  {
    forall i :: 0 <= i < |ws| ==> IsWord(ws[i])
  }

  /** `str::contains`. */
  predicate Contains(s: string, part: string)
    decreases |s|
  {
    part <= s || (s != [] && Contains(s[1..], part))
  }

  /** `str::trim_start`. */
  function TrimStart(s: string): (r: string)
    ensures |r| <= |s| && r == s[|s| - |r|..]
    ensures AllWhitespace(s[..|s| - |r|])
    ensures r == [] || !IsWhitespace(r[0])
  {
    if s != [] && IsWhitespace(s[0]) then
      var r := TrimStart(s[1..]);
      assert s[..|s| - |r|][1..] == s[1..][..|s| - 1 - |r|];
      r
    else s
  }

  /** `str::trim_end`. */
  function TrimEnd(s: string): (r: string)
    ensures |r| <= |s| && r == s[..|r|]
    ensures AllWhitespace(s[|r|..])
    ensures r == [] || !IsWhitespace(r[|r| - 1])
  {
    if s != [] && IsWhitespace(s[|s| - 1]) then
      var r := TrimEnd(s[..|s| - 1]);
      AllWhitespaceAppend(s[..|s| - 1][|r|..], [s[|s| - 1]]);
      assert s[|r|..] == s[..|s| - 1][|r|..] + [s[|s| - 1]];
      r
    else s
  }

  /** `str::trim`: `trim_start` followed by `trim_end`. */
  function Trim(s: string): (r: string)
    ensures |r| <= |s|
    ensures r == [] || (!IsWhitespace(r[0]) && !IsWhitespace(r[|r| - 1]))
  {
    TrimEnd(TrimStart(s))
  }

  /** What `trim` removes is whitespace: `s` is the trimmed text with a
      whitespace padding on each side. */
  lemma TrimPadding(s: string) returns (lead: string, trail: string)
    ensures s == lead + (Trim(s) + trail)
    ensures AllWhitespace(lead) && AllWhitespace(trail)
  {
    var t := TrimStart(s);
    lead := s[..|s| - |t|];
    trail := t[|TrimEnd(t)|..];
    TrimStartSplits(s);
    TrimEndSplits(t);
  }

  lemma TrimStartSplits(s: string)
    ensures s == s[..|s| - |TrimStart(s)|] + TrimStart(s)
  {
    SplitAt(s, |s| - |TrimStart(s)|);
  }

  lemma TrimEndSplits(t: string)
    ensures t == TrimEnd(t) + t[|TrimEnd(t)|..]
  {
    SplitAt(t, |TrimEnd(t)|);
  }

  lemma SplitAt<T>(s: seq<T>, k: nat)
    requires k <= |s|
    ensures s == s[..k] + s[k..]
  {
  }

  /** Length of the leading run of non-whitespace characters. */
  function WordLen(s: string): (n: nat)
    ensures n <= |s| && NoWhitespace(s[..n])
    ensures n < |s| ==> IsWhitespace(s[n])
  {
    if s == [] || IsWhitespace(s[0]) then 0
    else
      var n := WordLen(s[1..]);
      assert s[..n + 1][1..] == s[1..][..n];
      1 + n
  }

  /** `str::split_whitespace`, collected: the maximal runs of non-whitespace
      characters, in order. */
  function Words(s: string): (ws: seq<string>)
    ensures AllWords(ws)
    decreases |s|
  {
    if s == [] then []
    else if IsWhitespace(s[0]) then Words(s[1..])
    else
      var n := WordLen(s);
      [s[..n]] + Words(s[n..])
  }

  /** The tokens joined by single spaces: the canonical text `Words` reads back. */
  function Unwords(ws: seq<string>): string
  {
    if ws == [] then ""
    else if |ws| == 1 then ws[0]
    else ws[0] + " " + Unwords(ws[1..])
  }

  /** Concatenation of a sequence of strings, in order. */
  function Concat(ss: seq<string>): string
  {
    if ss == [] then "" else Concat(ss[..|ss| - 1]) + ss[|ss| - 1]
  }

  // ---------------------------------------------------------------------
  // Lemmas about tokenising

  lemma {:induction false} AllWhitespaceAppend(a: string, b: string)
    requires AllWhitespace(a) && AllWhitespace(b)
    ensures AllWhitespace(a + b)
    decreases |a|
  {
    if a == [] {
      assert a + b == b;
    } else {
      assert (a + b)[1..] == a[1..] + b;
      AllWhitespaceAppend(a[1..], b);
    }
  }

  lemma {:induction false} AllWhitespaceTake(t: string, n: nat)
    requires AllWhitespace(t) && n <= |t|
    ensures AllWhitespace(t[..n])
    ensures n < |t| ==> IsWhitespace(t[n])
    decreases n
  {
    if n > 0 {
      assert t[..n][1..] == t[1..][..n - 1];
      AllWhitespaceTake(t[1..], n - 1);
    }
  }

  lemma {:induction false} WordLenOfWord(w: string, t: string)
    requires NoWhitespace(w)
    requires t == [] || IsWhitespace(t[0])
    ensures WordLen(w + t) == |w|
    decreases |w|
  {
    if w == [] {
      assert w + t == t;
    } else {
      assert (w + t)[1..] == w[1..] + t;
      WordLenOfWord(w[1..], t);
    }
  }

  /** A word followed by whitespace (or nothing) is split off as the first token. */
  lemma {:induction false} WordsOfWordThen(w: string, t: string)
    requires IsWord(w)
    requires t == [] || IsWhitespace(t[0])
    ensures Words(w + t) == [w] + Words(t)
  {
    WordLenOfWord(w, t);
    var s := w + t;
    assert s[..|w|] == w;
    assert s[|w|..] == t;
  }

  /** Round trip: splitting tokens joined by single spaces gives the tokens back. */
  lemma {:induction false} WordsOfUnwords(ws: seq<string>)
    requires AllWords(ws)
    ensures Words(Unwords(ws)) == ws
  {
    if |ws| == 0 {
    } else if |ws| == 1 {
      WordsOfWordThen(ws[0], "");
      assert ws[0] + "" == ws[0];
    } else {
      var rest := " " + Unwords(ws[1..]);
      assert Unwords(ws) == ws[0] + rest;
      WordsOfWordThen(ws[0], rest);
      assert rest[1..] == Unwords(ws[1..]);
      WordsOfUnwords(ws[1..]);
    }
  }

  lemma {:induction false} WordsOfBlank(t: string)
    requires AllWhitespace(t)
    ensures Words(t) == []
  {
    if t != [] {
      WordsOfBlank(t[1..]);
    }
  }

  lemma {:induction false} WordLenBeforeBlank(s: string, t: string)
    requires AllWhitespace(t)
    ensures WordLen(s + t) == WordLen(s)
    decreases |s|
  {
    if s == [] {
      assert s + t == t;
    } else {
      assert (s + t)[0] == s[0];
      assert (s + t)[1..] == s[1..] + t;
      WordLenBeforeBlank(s[1..], t);
    }
  }

  /** Trailing whitespace never adds a token. */
  lemma {:induction false} WordsBeforeBlank(s: string, t: string)
    requires AllWhitespace(t)
    ensures Words(s + t) == Words(s)
    decreases |s|
  {
    if s == [] {
      assert s + t == t;
      WordsOfBlank(t);
    } else if IsWhitespace(s[0]) {
      assert (s + t)[1..] == s[1..] + t;
      WordsBeforeBlank(s[1..], t);
    } else {
      var n := WordLen(s);
      WordLenBeforeBlank(s, t);
      assert (s + t)[..n] == s[..n];
      assert (s + t)[n..] == s[n..] + t;
      WordsBeforeBlank(s[n..], t);
    }
  }

  /** Leading whitespace never adds a token. */
  lemma {:induction false} WordsAfterBlank(t: string, s: string)
    requires AllWhitespace(t)
    ensures Words(t + s) == Words(s)
    decreases |t|
  {
    if t != [] {
      assert (t + s)[1..] == t[1..] + s;
      WordsAfterBlank(t[1..], s);
    } else {
      assert t + s == s;
    }
  }

  /** `s.trim().split_whitespace()` yields the same tokens as `s.split_whitespace()`. */
  lemma WordsOfTrim(s: string)
    ensures Words(Trim(s)) == Words(s)
  {
    var r := Trim(s);
    var lead, trail := TrimPadding(s);
    WordsAfterBlank(lead, r + trail);
    WordsBeforeBlank(r, trail);
  }

  lemma {:induction false} TrimStartAfterBlank(t: string, s: string)
    requires AllWhitespace(t)
    requires s == [] || !IsWhitespace(s[0])
    ensures TrimStart(t + s) == s
    decreases |t|
  {
    if t == [] {
      assert t + s == s;
    } else {
      assert (t + s)[1..] == t[1..] + s;
      TrimStartAfterBlank(t[1..], s);
    }
  }

  lemma {:induction false} TrimEndBeforeBlank(s: string, t: string)
    requires AllWhitespace(t)
    requires s == [] || !IsWhitespace(s[|s| - 1])
    ensures TrimEnd(s + t) == s
    decreases |t|
  {
    if t == [] {
      assert s + t == s;
    } else {
      var u := t[..|t| - 1];
      AllWhitespaceTake(t, |t| - 1);
      assert (s + t)[..|s + t| - 1] == s + u;
      TrimEndBeforeBlank(s, u);
    }
  }

  /** `trim` removes exactly the whitespace padding around a core that neither
      starts nor ends with whitespace. */
  lemma TrimOfPadded(lead: string, core: string, trail: string)
    requires AllWhitespace(lead) && AllWhitespace(trail)
    requires core == [] || (!IsWhitespace(core[0]) && !IsWhitespace(core[|core| - 1]))
    ensures Trim(lead + (core + trail)) == core
  {
    if core == [] {
      assert core + trail == trail;
      AllWhitespaceAppend(lead, trail);
      assert lead + trail == (lead + trail) + "";
      TrimStartAfterBlank(lead + trail, "");
    } else {
      TrimStartAfterBlank(lead, core + trail);
      TrimEndBeforeBlank(core, trail);
    }
  }

  /** `Concat` distributes over sequence concatenation: order is preserved. */
  lemma {:induction false} ConcatAppend(a: seq<string>, b: seq<string>)
    ensures Concat(a + b) == Concat(a) + Concat(b)
    decreases |b|
  {
    if b == [] {
      assert a + b == a;
    } else {
      var b', last := b[..|b| - 1], b[|b| - 1];
      assert a + b == (a + b') + [last];
      assert Concat(b) == Concat(b') + last;
      ConcatAppend(a, b');
      calc {
        Concat(a + b);
        Concat(a + b') + last;
        (Concat(a) + Concat(b')) + last;
      }
    }
  }
}
