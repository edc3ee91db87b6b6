/** What a reader sees of a text: its visible characters, and its trimmed non-blank lines. */
module VisibleLines {
  import opened Lists
  import opened Text

  // --- visible characters ---

  function VisibleChar(c: char): string {
    if IsSpace(c) then "" else [c]
  }

  /** The text without white space. */
  function Visible(s: string): string {
    FlatMap(VisibleChar, s)
  }

  lemma {:induction false} VisibleAppend(a: string, b: string)
    ensures Visible(a + b) == Visible(a) + Visible(b)
  {
    FlatMapAppend(VisibleChar, a, b);
  }

  lemma {:induction false} VisibleTrimStart(s: string)
    ensures Visible(TrimStart(s)) == Visible(s)
  {
    if s != "" && IsSpace(s[0]) {
      VisibleTrimStart(s[1..]);
    }
  }

  lemma {:induction false} VisibleTrimEnd(s: string)
    ensures Visible(TrimEnd(s)) == Visible(s)
  {
    if s != "" && IsSpace(s[|s| - 1]) {
      var front := s[..|s| - 1];
      VisibleTrimEnd(front);
      FlatMapSnoc(VisibleChar, front, s[|s| - 1]);
      assert s == front + [s[|s| - 1]];
    }
  }

  lemma {:induction false} VisibleTrim(s: string)
    ensures Visible(Trim(s)) == Visible(s)
  {
    VisibleTrimStart(s);
    VisibleTrimEnd(TrimStart(s));
  }

  // --- lines ---

  /** A line without its surrounding white space, if anything is left. */
  function TrimmedLine(line: string): seq<string> {
    if Trim(line) == "" then [] else [Trim(line)]
  }

  /** The trimmed non-blank lines of a text. */
  function LinesOf(s: string): seq<string> {
    FlatMap(TrimmedLine, SplitLines(s))
  }

  lemma {:induction false} LinesConcat(a: string, b: string)
    ensures LinesOf(a + "\n" + b) == LinesOf(a) + LinesOf(b)
  {
    SplitConcat(a, b);
    FlatMapAppend(TrimmedLine, SplitLines(a), SplitLines(b));
  }

  /** Splitting joined texts gives the lines of each. */
  lemma {:induction false} SplitJoinedTexts(texts: seq<string>)
    requires texts != []
    ensures SplitLines(JoinLines(texts)) == FlatMap(SplitLines, texts)
  {
    if |texts| == 1 {
      FlatMapOne(SplitLines, texts[0]);
      assert texts == [texts[0]];
    } else {
      SplitConcat(texts[0], JoinLines(texts[1..]));
      SplitJoinedTexts(texts[1..]);
    }
  }

  lemma {:induction false} LinesOfLine(s: string)
    requires OneLine(s)
    ensures LinesOf(s) == TrimmedLine(s)
  {
    SplitOneLine(s);
    FlatMapOne(TrimmedLine, s);
  }

  lemma {:induction false} NoLines()
    ensures LinesOf("") == []
  {
    LinesOfLine("");
  }

  lemma {:induction false} LinesAfterBreak(s: string)
    ensures LinesOf(['\n'] + s) == LinesOf(s)
  {
    LinesConcat("", s);
    NoLines();
    assert "" + "\n" + s == ['\n'] + s;
  }

  lemma {:induction false} LinesBeforeBreak(s: string)
    ensures LinesOf(s + ['\n']) == LinesOf(s)
  {
    LinesConcat(s, "");
    NoLines();
    assert s + "\n" + "" == s + ['\n'];
  }

  lemma {:induction false} TrimCons(c: char, s: string)
    requires IsSpace(c)
    ensures Trim([c] + s) == Trim(s)
  {
    assert ([c] + s)[1..] == s;
  }

  lemma {:induction false} TrimEndSnoc(s: string, c: char)
    requires IsSpace(c)
    ensures TrimEnd(s + [c]) == TrimEnd(s)
  {
    assert (s + [c])[..|s|] == s;
  }

  lemma {:induction false} TrimStartSnoc(s: string, c: char)
    requires IsSpace(c)
    ensures TrimStart(s + [c]) == if TrimStart(s) == "" then "" else TrimStart(s) + [c]
  {
    if s == "" {
      assert s + [c] == [c];
      assert [c][1..] == "";
    } else if IsSpace(s[0]) {
      TrimStartSnoc(s[1..], c);
      assert (s + [c])[1..] == s[1..] + [c];
    }
  }

  lemma {:induction false} TrimSnoc(s: string, c: char)
    requires IsSpace(c)
    ensures Trim(s + [c]) == Trim(s)
  {
    TrimStartSnoc(s, c);
    TrimEndSnoc(TrimStart(s), c);
  }

  lemma {:induction false} LinesAfterSpace(c: char, s: string)
    requires IsSpace(c)
    ensures LinesOf([c] + s) == LinesOf(s)
  {
    if c == '\n' {
      LinesAfterBreak(s);
    } else {
      var lines := SplitLines(s);
      SplitCons(c, s);
      TrimCons(c, lines[0]);
      FlatMapAppend(TrimmedLine, [lines[0]], lines[1..]);
      FlatMapAppend(TrimmedLine, [[c] + lines[0]], lines[1..]);
      FlatMapOne(TrimmedLine, lines[0]);
      FlatMapOne(TrimmedLine, [c] + lines[0]);
      assert [lines[0]] + lines[1..] == lines;
    }
  }

  lemma {:induction false} LinesTrimStart(s: string)
    ensures LinesOf(TrimStart(s)) == LinesOf(s)
  {
    if s != "" && IsSpace(s[0]) {
      LinesTrimStart(s[1..]);
      LinesAfterSpace(s[0], s[1..]);
      assert s == [s[0]] + s[1..];
    }
  }

  /** Another character behind a text goes behind its last line. */
  lemma {:induction false} SplitSnoc(s: string, c: char)
    requires c != '\n'
    ensures
      var lines := SplitLines(s);
      var last := |lines| - 1;
      SplitLines(s + [c]) == lines[..last] + [lines[last] + [c]]
  {
    if s == "" {
      SplitOneLine([c]);
      assert s + [c] == [c];
      assert SplitLines(s)[..0] + ["" + [c]] == [[c]];
    } else {
      SplitSnoc(s[1..], c);
      SplitCons(s[0], s[1..] + [c]);
      assert s + [c] == [s[0]] + (s[1..] + [c]);
      OntoFirstSnoc(s[0], SplitLines(s[1..]), c);
    }
  }

  lemma {:induction false} OntoFirstSnoc(b: char, lines: seq<string>, c: char)
    requires lines != []
    ensures
      var last, all := |lines| - 1, OntoFirst(b, lines);
      OntoFirst(b, lines[..last] + [lines[last] + [c]]) == all[..|all| - 1] + [all[|all| - 1] + [c]]
  {
    var last := |lines| - 1;
    if b != '\n' && last == 0 {
      assert [b] + (lines[0] + [c]) == [b] + lines[0] + [c];
    }
  }

  lemma {:induction false} LinesBeforeSpace(s: string, c: char)
    requires IsSpace(c)
    ensures LinesOf(s + [c]) == LinesOf(s)
  {
    hide LinesOf, IsSpace;
    if c == '\n' {
      LinesBeforeBreak(s);
    } else {
      LinesBeforeOther(s, c);
    }
  }

  lemma {:induction false} LinesBeforeOther(s: string, c: char)
    requires IsSpace(c) && c != '\n'
    ensures LinesOf(s + [c]) == LinesOf(s)
  {
    SplitSnoc(s, c);
    SpaceBehindLast(SplitLines(s), c);
    hide SplitLines, FlatMap, TrimmedLine, IsSpace;
  }

  lemma {:induction false} SpaceBehindLast(lines: seq<string>, c: char)
    requires IsSpace(c) && lines != []
    ensures FlatMap(TrimmedLine, lines[..|lines| - 1] + [lines[|lines| - 1] + [c]]) == FlatMap(TrimmedLine, lines)
  {
    var front, last := lines[..|lines| - 1], lines[|lines| - 1];
    TrimSnoc(last, c);
    FlatMapSnoc(TrimmedLine, front, last);
    FlatMapSnoc(TrimmedLine, front, last + [c]);
    hide FlatMap, Trim, IsSpace;
    assert lines == front + [last];
  }

  function Snoc(s: string, c: char): string {
    s + [c]
  }

  /** A reading that does not see white space at the end. */
  ghost predicate IgnoresLastSpace<B>(g: string -> seq<B>) {
    forall s, c {:trigger Snoc(s, c)} :: IsSpace(c) ==> g(Snoc(s, c)) == g(s)
  }

  lemma {:induction false} TrimEndUnseen<B>(g: string -> seq<B>, s: string)
    requires IgnoresLastSpace(g)
    ensures g(TrimEnd(s)) == g(s)
  {
    if s != "" && IsSpace(s[|s| - 1]) {
      TrimEndUnseen(g, s[..|s| - 1]);
      assert s == Snoc(s[..|s| - 1], s[|s| - 1]);
    }
  }

  lemma {:induction false} LinesTrimEnd(s: string)
    ensures LinesOf(TrimEnd(s)) == LinesOf(s)
  {
    forall t, c | IsSpace(c) ensures LinesOf(Snoc(t, c)) == LinesOf(t) {
      LinesBeforeSpace(t, c);
    }
    TrimEndUnseen(LinesOf, s);
  }

  /** Trimming a text changes none of its trimmed non-blank lines. */
  lemma {:induction false} LinesTrim(s: string)
    ensures LinesOf(Trim(s)) == LinesOf(s)
  {
    LinesTrimStart(s);
    LinesTrimEnd(TrimStart(s));
  }
}
