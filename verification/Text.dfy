/** The JavaScript string operations the text components use. */
module Text {
  /** White space and line terminators of ECMA-262: what trim removes and \s matches. */
  predicate IsSpace(c: char) {
    || c == ' ' || c == '\n' || c == '\t' || c == '\r'
    || c == '\U{000B}' || c == '\U{000C}' || c == '\U{00A0}' || c == '\U{FEFF}' || c == '\U{1680}'
    || '\U{2000}' <= c <= '\U{200A}' || c == '\U{2028}' || c == '\U{2029}' || c == '\U{202F}'
    || c == '\U{205F}' || c == '\U{3000}'
  }

  function TrimStart(s: string): (r: string)
    ensures |r| <= |s|
    ensures r != "" ==> !IsSpace(r[0])
  {
    if s != "" && IsSpace(s[0]) then TrimStart(s[1..]) else s
  }

  function TrimEnd(s: string): (r: string)
    ensures |r| <= |s|
    ensures r != "" ==> !IsSpace(r[|r| - 1])
  {
    if s != "" && IsSpace(s[|s| - 1]) then TrimEnd(s[..|s| - 1]) else s
  }

  /** Trimming takes a part of the text. */
  lemma {:induction false} TrimStartPart(s: string)
    ensures TrimStart(s) == s[|s| - |TrimStart(s)|..]
  {
    if s != "" && IsSpace(s[0]) {
      TrimStartPart(s[1..]);
    }
  }

  lemma {:induction false} TrimEndPart(s: string)
    ensures TrimEnd(s) == s[..|TrimEnd(s)|]
  {
    if s != "" && IsSpace(s[|s| - 1]) {
      TrimEndPart(s[..|s| - 1]);
    }
  }

  function Trim(s: string): (r: string)
    ensures r != "" ==> !IsSpace(r[0]) && !IsSpace(r[|r| - 1])
    ensures |r| <= |s|
  {
    TrimEndPart(TrimStart(s));
    TrimEnd(TrimStart(s))
  }

  predicate IsTrimmed(s: string) {
    s != "" ==> !IsSpace(s[0]) && !IsSpace(s[|s| - 1])
  }

  lemma TrimOfTrimmed(s: string)
    requires IsTrimmed(s)
    ensures Trim(s) == s && TrimStart(s) == s && TrimEnd(s) == s
  {
  }

  /** `replace(/\s+/g, " ")` */
  function CollapseSpace(s: string): string
    decreases |s|
  {
    if s == "" then ""
    else if IsSpace(s[0]) then " " + CollapseSpace(TrimStart(s[1..]))
    else [s[0]] + CollapseSpace(s[1..])
  }

  /** `trim().replace(/\s+/g, " ")` */
  function NormalizeText(s: string): string {
    CollapseSpace(Trim(s))
  }

  /** White space only as single blanks, none at the end. */
  predicate IsCollapsed(s: string) {
    s == "" ||
    (if IsSpace(s[0]) then s[0] == ' ' && |s| > 1 && !IsSpace(s[1]) && IsCollapsed(s[1..])
     else IsCollapsed(s[1..]))
  }

  lemma {:induction false} CollapseOfCollapsed(s: string)
    requires IsCollapsed(s)
    ensures CollapseSpace(s) == s
    decreases |s|
  {
    if s != "" {
      CollapseOfCollapsed(s[1..]);
      assert s == [s[0]] + s[1..];
      assert IsSpace(s[0]) ==> TrimStart(s[1..]) == s[1..];
    }
  }

  predicate EndsVisibly(s: string) {
    s != "" ==> !IsSpace(s[|s| - 1])
  }

  lemma {:induction false} CollapseCollapses(s: string)
    requires EndsVisibly(s)
    ensures IsCollapsed(CollapseSpace(s)) && EndsVisibly(CollapseSpace(s))
    ensures s != "" ==> CollapseSpace(s) != "" && (!IsSpace(s[0]) ==> CollapseSpace(s)[0] == s[0])
    decreases |s|
  {
    if s != "" && IsSpace(s[0]) {
      var rest := TrimStart(s[1..]);
      AllSpaceTrimmed(s[1..]);
      CollapseCollapses(rest);
      assert CollapseSpace(s)[1..] == CollapseSpace(rest);
    } else if s != "" {
      CollapseCollapses(s[1..]);
      assert CollapseSpace(s)[1..] == CollapseSpace(s[1..]);
    }
  }

  /** Text that ends visibly has something left after trimming its start. */
  lemma {:induction false} AllSpaceTrimmed(s: string)
    requires EndsVisibly(s)
    ensures s != "" ==> TrimStart(s) != ""
    ensures EndsVisibly(TrimStart(s))
  {
    if s != "" && IsSpace(s[0]) {
      AllSpaceTrimmed(s[1..]);
    }
  }

  /** Normalizing twice is normalizing once. */
  lemma {:induction false} NormalizeIsIdempotent(s: string)
    ensures NormalizeText(NormalizeText(s)) == NormalizeText(s)
  {
    var t := NormalizeText(s);
    CollapseCollapses(Trim(s));
    TrimOfTrimmed(t);
    CollapseOfCollapsed(t);
  }

  /** Text without white space is normal. */
  lemma {:induction false} NoSpaceIsNormal(s: string)
    requires forall i :: 0 <= i < |s| ==> !IsSpace(s[i])
    ensures NormalizeText(s) == s
  {
    TrimOfTrimmed(s);
    NoSpaceIsCollapsed(s);
    CollapseOfCollapsed(s);
  }

  lemma {:induction false} NoSpaceIsCollapsed(s: string)
    requires forall i :: 0 <= i < |s| ==> !IsSpace(s[i])
    ensures IsCollapsed(s)
  {
    if s != "" {
      NoSpaceIsCollapsed(s[1..]);
    }
  }

  lemma {:induction false} CollapsedIsOneLine(s: string)
    requires IsCollapsed(s)
    ensures OneLine(s)
  {
    if s != "" {
      CollapsedIsOneLine(s[1..]);
      assert s == [s[0]] + s[1..];
    }
  }

  /** Normalized text is trimmed and on one line. */
  lemma {:induction false} NormalizedIsOneLine(s: string)
    ensures OneLine(NormalizeText(s)) && IsTrimmed(NormalizeText(s))
  {
    CollapseCollapses(Trim(s));
    CollapsedIsOneLine(NormalizeText(s));
  }

  // --- normalizing, said of words ---

  /** The longest stretches of visible characters, in order. */
  function Words(s: string): seq<string> {
    if s == "" then []
    else if IsSpace(s[0]) then Words(s[1..])
    else if |s| == 1 || IsSpace(s[1]) then [[s[0]]] + Words(s[1..])
    else OntoWord(s[0], Words(s[1..]))
  }

  function OntoWord(c: char, words: seq<string>): seq<string> {
    if words == [] then [[c]] else [[c] + words[0]] + words[1..]
  }

  /** `words.join(" ")`. */
  function JoinWords(words: seq<string>): string {
    if words == [] then "" else if |words| == 1 then words[0] else words[0] + " " + JoinWords(words[1..])
  }

  lemma {:induction false} WordsTrimStart(s: string)
    ensures Words(TrimStart(s)) == Words(s)
  {
    if s != "" && IsSpace(s[0]) {
      WordsTrimStart(s[1..]);
    }
  }

  lemma {:induction false} WordsBeforeSpace(s: string, c: char)
    requires IsSpace(c)
    ensures Words(s + [c]) == Words(s)
  {
    if s == "" {
      assert s + [c] == [c] && [c][1..] == "";
    } else {
      WordsBeforeSpace(s[1..], c);
      assert (s + [c])[1..] == s[1..] + [c];
      hide IsSpace;
    }
  }

  lemma {:induction false} WordsTrimEnd(s: string)
    ensures Words(TrimEnd(s)) == Words(s)
  {
    if s != "" && IsSpace(s[|s| - 1]) {
      var front := s[..|s| - 1];
      WordsTrimEnd(front);
      WordsBeforeSpace(front, s[|s| - 1]);
      assert s == front + [s[|s| - 1]];
    }
  }

  lemma {:induction false} VisibleHasWords(s: string)
    requires s != "" && EndsVisibly(s)
    ensures Words(s) != []
  {
    if IsSpace(s[0]) {
      VisibleHasWords(s[1..]);
    }
  }

  lemma {:induction false} JoinOnto(c: char, words: seq<string>)
    requires words != []
    ensures JoinWords(OntoWord(c, words)) == [c] + JoinWords(words)
  {
    if |words| > 1 {
      assert OntoWord(c, words)[1..] == words[1..];
      assert [c] + words[0] + " " + JoinWords(words[1..]) == [c] + (words[0] + " " + JoinWords(words[1..]));
    }
  }

  lemma {:induction false} CollapseIsWords(s: string)
    requires EndsVisibly(s)
    ensures CollapseSpace(s) == (if s != "" && IsSpace(s[0]) then " " else "") + JoinWords(Words(s))
    decreases |s|
  {
    if s != "" {
      var rest := s[1..];
      if IsSpace(s[0]) {
        AllSpaceTrimmed(rest);
        WordsTrimStart(rest);
        CollapseIsWords(TrimStart(rest));
        assert "" + JoinWords(Words(rest)) == JoinWords(Words(rest));
      } else {
        CollapseIsWords(rest);
        VisibleFirst(s);
      }
    }
  }

  lemma {:induction false} VisibleFirst(s: string)
    requires s != "" && !IsSpace(s[0]) && EndsVisibly(s)
    requires var rest := s[1..];
      CollapseSpace(rest) == (if rest != "" && IsSpace(rest[0]) then " " else "") + JoinWords(Words(rest))
    ensures CollapseSpace(s) == JoinWords(Words(s))
  {
    var rest := s[1..];
    if rest != "" {
      VisibleHasWords(rest);
      JoinOnto(s[0], Words(rest));
      if IsSpace(rest[0]) {
        assert ([[s[0]]] + Words(rest))[1..] == Words(rest);
        assert [s[0]] + (" " + JoinWords(Words(rest))) == [s[0]] + " " + JoinWords(Words(rest));
      } else {
        assert "" + JoinWords(Words(rest)) == JoinWords(Words(rest));
      }
    } else {
      assert Words(s) == [[s[0]]] + [];
      assert [s[0]] + "" == [s[0]];
    }
  }

  /** Normalizing a text joins its words by single blanks. */
  lemma {:induction false} NormalizeIsWords(s: string)
    ensures NormalizeText(s) == JoinWords(Words(s))
  {
    WordsTrimStart(s);
    WordsTrimEnd(TrimStart(s));
    CollapseIsWords(Trim(s));
    assert "" + JoinWords(Words(s)) == JoinWords(Words(s));
  }

  /** `lines.join("\n")`. */
  function JoinLines(lines: seq<string>): string {
    if lines == [] then ""
    else if |lines| == 1 then lines[0]
    else lines[0] + "\n" + JoinLines(lines[1..])
  }

  predicate OneLine(s: string) { '\n' !in s }

  /** `s.split("\n")`. */
  function SplitLines(s: string): (lines: seq<string>)
    ensures lines != []
  {
    if s == "" then [""] else OntoFirst(s[0], SplitLines(s[1..]))
  }

  /** A character in front of split text: a new empty line, or one more character of the first line. */
  function OntoFirst(c: char, lines: seq<string>): (r: seq<string>)
    requires lines != []
    ensures r != []
  {
    if c == '\n' then [""] + lines else [[c] + lines[0]] + lines[1..]
  }

  lemma {:induction false} OntoFirstConcat(c: char, a: seq<string>, b: seq<string>)
    requires a != []
    ensures OntoFirst(c, a + b) == OntoFirst(c, a) + b
  {
    assert (a + b)[1..] == a[1..] + b;
  }

  ghost predicate AllOneLine(lines: seq<string>) {
    forall i :: 0 <= i < |lines| ==> OneLine(lines[i])
  }

  lemma {:induction false} SplitIsOneLine(s: string)
    ensures AllOneLine(SplitLines(s))
  {
    if s != "" {
      SplitIsOneLine(s[1..]);
      assert OneLine(SplitLines(s[1..])[0]);
    }
  }

  lemma {:induction false} SplitCons(c: char, s: string)
    ensures SplitLines([c] + s) == OntoFirst(c, SplitLines(s))
  {
    assert ([c] + s)[1..] == s;
  }

  lemma {:induction false} SplitOneLine(line: string)
    requires OneLine(line)
    ensures SplitLines(line) == [line]
  {
    if line != "" {
      SplitOneLine(line[1..]);
      assert [line[0]] + line[1..] == line;
    }
  }

  /** A line break joins the lines of two texts. */
  lemma {:induction false} SplitConcat(a: string, b: string)
    ensures SplitLines(a + "\n" + b) == SplitLines(a) + SplitLines(b)
  {
    if a == "" {
      SplitCons('\n', b);
      assert a + "\n" + b == ['\n'] + b;
    } else {
      SplitConcat(a[1..], b);
      SplitCons(a[0], a[1..] + "\n" + b);
      OntoFirstConcat(a[0], SplitLines(a[1..]), SplitLines(b));
      assert a + "\n" + b == [a[0]] + (a[1..] + "\n" + b);
    }
  }

  lemma {:induction false} SplitAfterLine(line: string, rest: string)
    requires OneLine(line)
    ensures SplitLines(line + "\n" + rest) == [line] + SplitLines(rest)
  {
    SplitConcat(line, rest);
    SplitOneLine(line);
  }

  /** Splitting joined lines gives the lines back. */
  lemma {:induction false} SplitJoined(lines: seq<string>)
    requires lines != [] && AllOneLine(lines)
    ensures SplitLines(JoinLines(lines)) == lines
  {
    assert OneLine(lines[0]);
    if |lines| == 1 {
      SplitOneLine(lines[0]);
    } else {
      SplitJoined(lines[1..]);
      SplitAfterLine(lines[0], JoinLines(lines[1..]));
    }
  }

  /** Joining split lines gives the text back. */
  lemma {:induction false} JoinSplit(s: string)
    ensures JoinLines(SplitLines(s)) == s
  {
    if s != "" {
      JoinSplit(s[1..]);
      JoinCons(s[0], SplitLines(s[1..]));
      assert s == [s[0]] + s[1..];
    }
  }

  lemma {:induction false} JoinCons(c: char, lines: seq<string>)
    requires lines != []
    ensures JoinLines(OntoFirst(c, lines)) == [c] + JoinLines(lines)
  {
    if c == '\n' {
      assert ([""] + lines)[1..] == lines;
      assert "" + "\n" + JoinLines(lines) == [c] + JoinLines(lines);
    } else if |lines| > 1 {
      var other := [[c] + lines[0]] + lines[1..];
      assert other[1..] == lines[1..];
      assert [c] + lines[0] + "\n" + JoinLines(lines[1..]) == [c] + (lines[0] + "\n" + JoinLines(lines[1..]));
    }
  }

  predicate OccursAt(s: string, pattern: string, i: int) {
    0 <= i && i + |pattern| <= |s| && s[i..i + |pattern|] == pattern
  }

  /** `pattern` does not occur in s. */
  ghost predicate Without(s: string, pattern: string) {
    forall i :: !OccursAt(s, pattern, i)
  }

  function IndexFrom(s: string, pattern: string, from: nat): (i: int)
    requires from <= |s|
    ensures i >= 0 ==> from <= i && OccursAt(s, pattern, i)
    ensures forall j :: from <= j && (i < 0 || j < i) ==> !OccursAt(s, pattern, j)
    decreases |s| - from
  {
    if OccursAt(s, pattern, from) then from
    else if from < |s| then IndexFrom(s, pattern, from + 1)
    else -1
  }

  /** `s.indexOf(pattern)`. */
  function IndexOf(s: string, pattern: string): (i: int)
    ensures i >= 0 ==> OccursAt(s, pattern, i)
    ensures forall j :: (i < 0 || j < i) ==> !OccursAt(s, pattern, j)
  {
    IndexFrom(s, pattern, 0)
  }

  lemma {:induction false} PartOccurs(s: string, pattern: string, lo: int, hi: int, i: int)
    requires 0 <= lo <= hi <= |s| && OccursAt(s[lo..hi], pattern, i)
    ensures OccursAt(s, pattern, lo + i)
  {
    var part := s[lo..hi];
    var found := s[lo + i..lo + i + |pattern|];
    forall k | 0 <= k < |pattern| ensures found[k] == pattern[k] {
      assert part[i..i + |pattern|][k] == part[i + k] == s[lo + (i + k)];
    }
    assert found == pattern;
  }

  /** A pattern on one line cannot span a line break. */
  lemma {:induction false} WithoutAcrossLines(a: string, b: string, pattern: string)
    requires OneLine(pattern) && pattern != ""
    requires Without(a, pattern) && Without(b, pattern)
    ensures Without(a + "\n" + b, pattern)
  {
    var s := a + "\n" + b;
    forall i ensures !OccursAt(s, pattern, i) {
      if OccursAt(s, pattern, i) {
        BreakNotInside(a, b, pattern, i);
      }
    }
  }

  lemma {:induction false} BreakNotInside(a: string, b: string, pattern: string, i: int)
    requires OneLine(pattern) && pattern != "" && OccursAt(a + "\n" + b, pattern, i)
    ensures OccursAt(a, pattern, i) || OccursAt(b, pattern, i - |a| - 1)
  {
    var s := a + "\n" + b;
    assert s[|a|] == '\n';
    assert forall k :: 0 <= k < |pattern| ==> s[i + k] == pattern[k];
    if i + |pattern| <= |a| {
      assert a[i..i + |pattern|] == s[i..i + |pattern|];
    } else if i > |a| {
      assert b[i - |a| - 1..i - |a| - 1 + |pattern|] == s[i..i + |pattern|];
    }
  }

  /** The first occurrence of a pattern that begins a line after text without it. */
  lemma {:induction false} FirstOnNextLine(a: string, pattern: string, rest: string)
    requires OneLine(pattern) && pattern != "" && Without(a, pattern)
    ensures IndexOf(a + "\n" + pattern + rest, pattern) == |a| + 1
  {
    var b := pattern + rest;
    var s := a + "\n" + b;
    assert a + "\n" + pattern + rest == s;
    assert s[|a| + 1..|a| + 1 + |pattern|] == pattern;
    assert OccursAt(s, pattern, |a| + 1);
    forall i | i < |a| + 1 ensures !OccursAt(s, pattern, i) {
      if OccursAt(s, pattern, i) {
        BreakNotInside(a, b, pattern, i);
      }
    }
  }
}
