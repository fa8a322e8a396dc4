/**
 * Turning the generated text into the list of campaign ideas:
 * `[line.strip() for line in text.split('\n') if line.strip()]`.
 * Splitting is on '\n' alone; `strip()` removes Python whitespace from both ends.
 */
module IdeaText {

  /** The characters for which Python's `str.isspace()` holds, i.e. those `str.strip()` removes. */
  predicate IsWhitespace(c: char) {
    ('\t' <= c <= '\r')                        // \t \n \x0b \x0c \r
    || ('\U{1C}' <= c <= ' ')                  // \x1c..\x1f and the space
    || c == '\U{85}' || c == '\U{A0}' || c == '\U{1680}'
    || ('\U{2000}' <= c <= '\U{200A}')
    || c == '\U{2028}' || c == '\U{2029}' || c == '\U{202F}' || c == '\U{205F}' || c == '\U{3000}'
  }

  predicate AllWhitespace(s: string) {
    forall i :: 0 <= i < |s| ==> IsWhitespace(s[i])
  }

  /** A string with no whitespace at either end. */
  predicate Stripped(s: string) {
    s == [] || (!IsWhitespace(s[0]) && !IsWhitespace(s[|s| - 1]))
  }

  /** `s.lstrip()`: `s` without its leading whitespace. */
  function TrimStart(s: string): (r: string)
    ensures |r| <= |s|
    ensures r == [] || !IsWhitespace(r[0])
  {
    if s != [] && IsWhitespace(s[0]) then TrimStart(s[1..]) else s
  }

  /** `s.rstrip()`: `s` without its trailing whitespace; what is left is a prefix of `s`. */
  function TrimEnd(s: string): (r: string)
    ensures |r| <= |s| && r == s[..|r|]
    ensures r == [] || !IsWhitespace(r[|r| - 1])
  {
    if s != [] && IsWhitespace(s[|s| - 1]) then TrimEnd(s[..|s| - 1]) else s
  }

  /** `s.strip()`: what is left has no whitespace at either end. */
  function Strip(s: string): (r: string)
    ensures Stripped(r)
    ensures |r| <= |s|
  {
    TrimEnd(TrimStart(s))
  }

  /** None of the strings contains a newline. */
  predicate NoNewlines(xs: seq<string>) {
    forall k :: 0 <= k < |xs| ==> '\n' !in xs[k]
  }

  /** What every returned idea satisfies: non-empty, stripped, a single line. */
  predicate IsIdea(x: string) {
    x != "" && Stripped(x) && '\n' !in x
  }

  /** `s.split('\n')`: the pieces between newline characters, in order; always at least one. */
  function Split(s: string): (r: seq<string>)
    ensures |r| >= 1
    ensures NoNewlines(r)
  {
    if s == [] then [""]
    else
      var rest := Split(s[1..]);
      if s[0] == '\n' then [""] + rest
      else [[s[0]] + rest[0]] + rest[1..]
  }

  /** `"\n".join(xs)`. */
  function Join(xs: seq<string>): string {
    if xs == [] then ""
    else if |xs| == 1 then xs[0]
    else xs[0] + "\n" + Join(xs[1..])
  }

  /** The stripped lines that are not empty, in their original order. */
  function Keep(lines: seq<string>): (r: seq<string>)
    ensures |r| <= |lines|
    ensures forall k :: 0 <= k < |r| ==> r[k] != "" && Stripped(r[k])
  {
    if lines == [] then []
    else
      var x := Strip(lines[0]);
      (if x == "" then [] else [x]) + Keep(lines[1..])
  }

  /** The idea list built from the generated text. */
  function Ideas(text: string): (r: seq<string>)
    ensures forall k :: 0 <= k < |r| ==> IsIdea(r[k])
    ensures |r| <= |Split(text)|
  {
    KeepNoNewlines(Split(text));
    Keep(Split(text))
  }

  /** Every line with its ends stripped, before empty ones are dropped. */
  function StripAll(lines: seq<string>): (r: seq<string>)
    ensures |r| == |lines|
    ensures forall k :: 0 <= k < |r| ==> r[k] == Strip(lines[k])
  {
    if lines == [] then [] else [Strip(lines[0])] + StripAll(lines[1..])
  }

  /** `xs` can be obtained from `ys` by deleting elements (order kept). */
  predicate IsSubsequence(xs: seq<string>, ys: seq<string>)
    decreases |ys|
  {
    xs == [] || (ys != [] && if xs[0] == ys[0] then IsSubsequence(xs[1..], ys[1..]) else IsSubsequence(xs, ys[1..]))
  }

  // ---------------------------------------------------------------- strip

  /** `lstrip()` removes a whitespace prefix and keeps the rest. */
  lemma {:induction false} TrimStartSlice(s: string)
    ensures |TrimStart(s)| <= |s| && TrimStart(s) == s[|s| - |TrimStart(s)|..]
    ensures AllWhitespace(s[..|s| - |TrimStart(s)|])
  {
    if s != [] && IsWhitespace(s[0]) {
      TrimStartSlice(s[1..]);
      var n := |s| - |TrimStart(s)|;
      assert s[..n] == [s[0]] + s[1..][..n - 1];
    }
  }

  /** `rstrip()` removes a whitespace suffix and keeps the rest. */
  lemma {:induction false} TrimEndSlice(s: string)
    ensures AllWhitespace(s[|TrimEnd(s)|..])
  {
    if s != [] && IsWhitespace(s[|s| - 1]) {
      TrimEndSlice(s[..|s| - 1]);
      var n := |TrimEnd(s)|;
      assert s[n..] == s[..|s| - 1][n..] + [s[|s| - 1]];
    }
  }

  /**
   * `strip()` cuts only whitespace: its result is a slice of `s` with nothing
   * but whitespace before and after it in `s`.
   */
  lemma {:induction false} StripSlice(s: string)
    ensures exists i, j :: 0 <= i <= j <= |s| && Strip(s) == s[i..j] && AllWhitespace(s[..i]) && AllWhitespace(s[j..])
  {
    var t := TrimStart(s);
    var r := TrimEnd(t);
    var i := |s| - |t|;
    TrimStartSlice(s);
    TrimEndSlice(t);
    assert t == s[i..];
    assert r == s[i..i + |r|];
    assert s[i + |r|..] == t[|r|..];
  }

  /** A line strips to nothing exactly when it is all whitespace. */
  lemma {:induction false} StripEmpty(s: string)
    ensures Strip(s) == [] <==> AllWhitespace(s)
  {
    var t := TrimStart(s);
    var i := |s| - |t|;
    TrimStartSlice(s);
    TrimEndSlice(t);
    if TrimEnd(t) == [] {
      assert t[0..] == t;
      assert s == s[..i] + t;
    }
  }

  /** Stripping never introduces a newline, so the ideas of single lines are single lines. */
  lemma {:induction false} StripKeepsNewlineOut(s: string)
    ensures '\n' in Strip(s) ==> '\n' in s
  {
    var t := TrimStart(s);
    var r := TrimEnd(t);
    var i := |s| - |t|;
    TrimStartSlice(s);
    assert t == s[i..];
    if '\n' in r {
      var k :| 0 <= k < |r| && r[k] == '\n';
      assert t[k] == '\n';
      assert s[i + k] == '\n';
    }
  }

  /** Stripping a string that has no whitespace at its ends leaves it unchanged. */
  lemma {:induction false} StripStripped(s: string)
    requires Stripped(s)
    ensures Strip(s) == s
  {
    assert TrimStart(s) == s;
    assert TrimEnd(s) == s;
  }

  /** `strip()` is idempotent. */
  lemma {:induction false} StripIdempotent(s: string)
    ensures Strip(Strip(s)) == Strip(s)
  {
    StripStripped(Strip(s));
  }

  // ---------------------------------------------------------------- split and join

  /** A string without a newline splits into itself alone. */
  lemma {:induction false} SplitNoNewline(s: string)
    requires '\n' !in s
    ensures Split(s) == [s]
  {
    if s != [] {
      SplitNoNewline(s[1..]);
      assert [s[0]] + s[1..] == s;
    }
  }

  /** Splitting around one newline splits each side independently. */
  lemma {:induction false} SplitAround(a: string, b: string)
    ensures Split(a + "\n" + b) == Split(a) + Split(b)
  {
    if a == [] {
      assert a + "\n" + b == "\n" + b;
      assert ("\n" + b)[1..] == b;
    } else {
      var s := a + "\n" + b;
      assert s[1..] == a[1..] + "\n" + b;
      SplitAround(a[1..], b);
    }
  }

  /** Joining the pieces of a split gives back the text: `"\n".join(s.split('\n')) == s`. */
  lemma {:induction false} JoinSplit(s: string)
    ensures Join(Split(s)) == s
  {
    if s != [] {
      var rest := Split(s[1..]);
      JoinSplit(s[1..]);
      if s[0] == '\n' {
        assert Split(s) == [""] + rest;
        assert (["" ] + rest)[1..] == rest;
        assert s == "\n" + s[1..];
      } else {
        var first := [s[0]] + rest[0];
        assert Split(s) == [first] + rest[1..];
        if |rest| == 1 {
          assert Join(Split(s)) == first;
          assert s == [s[0]] + s[1..];
        } else {
          assert ([first] + rest[1..])[1..] == rest[1..];
          assert Join(rest) == rest[0] + "\n" + Join(rest[1..]);
          assert s == [s[0]] + s[1..];
        }
      }
    }
  }

  /** Splitting a join of newline-free pieces gives back the pieces. */
  lemma {:induction false} SplitJoin(xs: seq<string>)
    requires |xs| >= 1
    requires NoNewlines(xs)
    ensures Split(Join(xs)) == xs
  {
    if |xs| == 1 {
      SplitNoNewline(xs[0]);
    } else {
      SplitJoin(xs[1..]);
      SplitAround(xs[0], Join(xs[1..]));
      SplitNoNewline(xs[0]);
      assert [xs[0]] + xs[1..] == xs;
    }
  }

  // ---------------------------------------------------------------- the idea list

  /** Filtering distributes over concatenation, so the order of lines is kept. */
  lemma {:induction false} KeepAppend(a: seq<string>, b: seq<string>)
    ensures Keep(a + b) == Keep(a) + Keep(b)
  {
    if a != [] {
      assert (a + b)[1..] == a[1..] + b;
      KeepAppend(a[1..], b);
    } else {
      assert a + b == b;
    }
  }

  /** The ideas of two blocks of text joined by a newline are the ideas of each, in order. */
  lemma {:induction false} IdeasAround(a: string, b: string)
    ensures Ideas(a + "\n" + b) == Ideas(a) + Ideas(b)
  {
    SplitAround(a, b);
    KeepAppend(Split(a), Split(b));
  }

  /** Lines that are already non-empty and stripped all survive, unchanged. */
  lemma {:induction false} KeepFixed(xs: seq<string>)
    requires forall k :: 0 <= k < |xs| ==> xs[k] != "" && Stripped(xs[k])
    ensures Keep(xs) == xs
  {
    if xs != [] {
      assert Keep(xs) == [xs[0]] + Keep(xs[1..]) by { StripStripped(xs[0]); }
      assert Keep(xs[1..]) == xs[1..] by { KeepFixed(xs[1..]); }
      assert [xs[0]] + xs[1..] == xs;
    }
  }

  /** Kept lines of newline-free lines are newline-free. */
  lemma {:induction false} KeepNoNewlines(lines: seq<string>)
    requires NoNewlines(lines)
    ensures NoNewlines(Keep(lines))
  {
    if lines != [] {
      KeepNoNewlines(lines[1..]);
      StripKeepsNewlineOut(lines[0]);
      var x := Strip(lines[0]);
      var rest := Keep(lines[1..]);
      assert Keep(lines) == (if x == "" then [] else [x]) + rest;
    }
  }

  /** Empty text yields no idea. */
  lemma {:induction false} IdeasEmpty()
    ensures Ideas("") == []
  {
    assert Split("") == [""];
    assert Keep([""]) == [] + Keep([]);
  }

  /** Re-splitting `"\n".join(ideas)` gives the same ideas. */
  lemma {:induction false} IdeasIdempotent(text: string)
    ensures Ideas(Join(Ideas(text))) == Ideas(text)
  {
    var xs := Ideas(text);
    if xs == [] {
      assert Join(xs) == "";
      IdeasEmpty();
    } else {
      assert NoNewlines(xs) by {
        forall k | 0 <= k < |xs| ensures '\n' !in xs[k] {
          assert IsIdea(xs[k]);
        }
      }
      assert Split(Join(xs)) == xs by { SplitJoin(xs); }
      assert Keep(xs) == xs by { KeepFixed(xs); }
    }
  }

  /** A string is an idea exactly when it is a non-empty stripped line of the text. */
  lemma {:induction false} KeepMembers(lines: seq<string>, x: string)
    ensures x in Keep(lines) <==> x != "" && exists k :: 0 <= k < |lines| && Strip(lines[k]) == x
  {
    if lines != [] {
      KeepMembers(lines[1..], x);
      if x != "" && Strip(lines[0]) != x && (exists k :: 0 <= k < |lines| && Strip(lines[k]) == x) {
        var k :| 0 <= k < |lines| && Strip(lines[k]) == x;
        assert lines[1..][k - 1] == lines[k];
      }
      if x in Keep(lines[1..]) {
        var k :| 0 <= k < |lines[1..]| && Strip(lines[1..][k]) == x;
        assert Strip(lines[k + 1]) == x;
      }
    }
  }

  lemma {:induction false} IdeasMembers(text: string, x: string)
    ensures x in Ideas(text) <==> x != "" && exists line :: line in Split(text) && Strip(line) == x
  {
    var lines := Split(text);
    assert Ideas(text) == Keep(lines);
    KeepMembers(lines, x);
    assert (exists k :: 0 <= k < |lines| && Strip(lines[k]) == x) <==> (exists line :: line in lines && Strip(line) == x) by {
      if exists line :: line in lines && Strip(line) == x {
        var line :| line in lines && Strip(line) == x;
        var k :| 0 <= k < |lines| && lines[k] == line;
        assert Strip(lines[k]) == x;
      }
      if exists k :: 0 <= k < |lines| && Strip(lines[k]) == x {
        var k :| 0 <= k < |lines| && Strip(lines[k]) == x;
        assert lines[k] in lines;
      }
    }
  }

  /** The ideas are an in-order subsequence of the stripped lines. */
  lemma {:induction false} KeepSubsequence(lines: seq<string>)
    ensures IsSubsequence(Keep(lines), StripAll(lines))
  {
    if lines != [] {
      KeepSubsequence(lines[1..]);
      var rest := Keep(lines[1..]);
      var all := StripAll(lines);
      assert all[1..] == StripAll(lines[1..]);
      if Strip(lines[0]) != "" {
        assert Keep(lines) == [Strip(lines[0])] + rest;
        assert Keep(lines)[1..] == rest;
      } else {
        assert Keep(lines) == rest;
        assert rest != [] ==> rest[0] != all[0];
      }
    }
  }

  lemma {:induction false} IdeasSubsequence(text: string)
    ensures IsSubsequence(Ideas(text), StripAll(Split(text)))
  {
    KeepSubsequence(Split(text));
  }

  /**
   * The kept lines are the stripped lines with exactly the empty ones removed:
   * every non-empty stripped line is kept as often as it occurs.
   */
  lemma {:induction false} KeepMultiset(lines: seq<string>)
    ensures multiset(Keep(lines)) == multiset(StripAll(lines))[[] := 0]
  {
    if lines != [] {
      KeepMultiset(lines[1..]);
      assert StripAll(lines) == [Strip(lines[0])] + StripAll(lines[1..]);
    }
  }

  /** Each non-empty stripped line of the text is an idea as many times as it occurs, and nothing else is. */
  lemma {:induction false} IdeasMultiset(text: string)
    ensures multiset(Ideas(text)) == multiset(StripAll(Split(text)))[[] := 0]
  {
    KeepMultiset(Split(text));
  }

  /** A single line that is already an idea yields exactly itself. */
  lemma {:induction false} IdeaLine(line: string)
    requires IsIdea(line)
    ensures Ideas(line) == [line]
  {
    assert Ideas(line) == Keep([line]) by { SplitNoNewline(line); }
    assert Keep([line]) == [line] by { StripStripped(line); }
  }

  /** A single line of whitespace yields nothing. */
  lemma {:induction false} BlankLine(line: string)
    requires '\n' !in line && AllWhitespace(line)
    ensures Ideas(line) == []
  {
    assert Ideas(line) == Keep([line]) by { SplitNoNewline(line); }
    assert Strip(line) == [] by { StripEmpty(line); }
    assert Keep([line]) == [] + Keep([]);
  }

  /** A leading line that is already an idea is the first idea. */
  lemma {:induction false} IdeaLineFirst(line: string, rest: string)
    requires IsIdea(line)
    ensures Ideas(line + "\n" + rest) == [line] + Ideas(rest)
  {
    IdeasAround(line, rest);
    IdeaLine(line);
  }

  /** A leading whitespace-only line contributes nothing. */
  lemma {:induction false} BlankLineFirst(line: string, rest: string)
    requires '\n' !in line && AllWhitespace(line)
    ensures Ideas(line + "\n" + rest) == Ideas(rest)
  {
    IdeasAround(line, rest);
    BlankLine(line);
  }

  /**
   * Blank and whitespace-only lines vanish and the others keep their order:
   * four idea lines around an empty line and a whitespace-only line give exactly those four ideas.
   */
  lemma {:induction false} BlankLinesDropped(a: string, b: string, w: string, c: string, d: string)
    requires IsIdea(a) && IsIdea(b) && IsIdea(c) && IsIdea(d)
    requires '\n' !in w && AllWhitespace(w)
    ensures Ideas(a + "\n" + b + "\n" + "\n" + w + "\n" + c + "\n" + d) == [a, b, c, d]
  {
    var tail := c + "\n" + d;
    var blank := w + "\n" + tail;
    var second := b + "\n" + ("" + "\n" + blank);
    assert a + "\n" + b + "\n" + "\n" + w + "\n" + c + "\n" + d == a + "\n" + second;
    IdeaLineFirst(a, second);
    IdeaLineFirst(b, "" + "\n" + blank);
    BlankLineFirst("", blank);
    BlankLineFirst(w, tail);
    IdeaLineFirst(c, d);
    IdeaLine(d);
  }
}
