/** The splice that keeps a generated block inside a file the user also edits. */
module GeneratedBlock {
  import opened Text

  /** The two comments around the generated text. */
  datatype Markers = Markers(start: string, end: string)

  const GENERATED_START := "<!-- COGITO AUTO-GENERATED START -->"
  const GENERATED_END := "<!-- COGITO AUTO-GENERATED END -->"
  const MARKERS := Markers(GENERATED_START, GENERATED_END)

  /** What the proofs use of the markers: visible one-line texts, the second not inside the first. */
  ghost predicate GoodMarkers(m: Markers) {
    && m.start != "" && OneLine(m.start) && IsTrimmed(m.start)
    && m.end != "" && OneLine(m.end) && IsTrimmed(m.end)
    && Without(m.start, m.end)
  }

  /** The user's text in front of the block. */
  function Before(m: Markers, file: string): string {
    var start := IndexOf(file, m.start);
    if start >= 0 then TrimEnd(file[..start]) else TrimEnd(file)
  }

  /** The user's text behind the block. */
  function After(m: Markers, file: string): string {
    var start, end := IndexOf(file, m.start), IndexOf(file, m.end);
    if start >= 0 && end >= 0 then TrimStart(file[end + |m.end|..]) else ""
  }

  function Block(m: Markers, body: string): string {
    if Trim(body) == "" then "" else m.start + "\n" + Trim(body) + "\n" + m.end
  }

  /** Non-empty sections separated by a blank line. */
  function JoinSections(left: string, right: string): string {
    if left == "" then right else if right == "" then left else left + "\n\n" + right
  }

  function Render(before: string, block: string, after: string): string {
    JoinSections(JoinSections(before, block), after) + "\n"
  }

  function Merge(m: Markers, existing: string, body: string): string {
    Render(Before(m, existing), Block(m, body), After(m, existing))
  }

  /** A body the splice can find the end of: non-blank and without the end marker. */
  ghost predicate GoodBody(m: Markers, body: string) {
    Trim(body) != "" && Without(Trim(body), m.end)
  }

  /** What callers can look for before merging: no end marker in the text in front of the block. */
  ghost predicate NoStrayEnd(m: Markers, file: string) {
    Without(Before(m, file), m.end)
  }

  /** Each merge leaves one more line break behind the user's trailing text. */
  function Growth(text: string): string {
    if text == "" then "" else "\n"
  }

  // --- the markers of the source ---

  lemma {:induction false} NotAt(s: string, pattern: string, i: nat, k: nat)
    requires k < |pattern| && i + k < |s| && s[i + k] != pattern[k]
    ensures !OccursAt(s, pattern, i)
  {
    assert i + |pattern| <= |s| ==> s[i..i + |pattern|][k] == s[i + k];
  }

  lemma {:induction false} MarkerChars()
    ensures |GENERATED_START| == 36 && |GENERATED_END| == 34
    ensures GENERATED_START[1] == '!' && GENERATED_START[2] == '-' && GENERATED_START[27] == 'S'
    ensures GENERATED_END[0] == '<' && GENERATED_END[27] == 'E'
  {
  }

  lemma {:induction false} NotInside(start: string, end: string)
    requires |start| == 36 && |end| == 34 && start[1] == '!' && start[2] == '-' && start[27] == 'S'
    requires end[0] == '<' && end[27] == 'E'
    ensures Without(start, end)
  {
    NotAt(start, end, 0, 27);
    NotAt(start, end, 1, 0);
    NotAt(start, end, 2, 0);
  }

  lemma {:induction false} StartHasNoEnd()
    ensures Without(GENERATED_START, GENERATED_END)
  {
    MarkerChars();
    NotInside(GENERATED_START, GENERATED_END);
    hide Without;
  }

  lemma {:induction false} StartIsOneLine()
    ensures OneLine(GENERATED_START)
  {
    assert forall i :: 0 <= i < |GENERATED_START| ==> GENERATED_START[i] != '\n';
  }

  lemma {:induction false} EndIsOneLine()
    ensures OneLine(GENERATED_END)
  {
    assert forall i :: 0 <= i < |GENERATED_END| ==> GENERATED_END[i] != '\n';
  }

  lemma {:induction false} AreTrimmed()
    ensures GENERATED_START != "" && IsTrimmed(GENERATED_START) && GENERATED_END != "" && IsTrimmed(GENERATED_END)
  {
    assert GENERATED_START[0] == '<' && GENERATED_START[35] == '>' && |GENERATED_START| == 36;
    assert GENERATED_END[0] == '<' && GENERATED_END[33] == '>' && |GENERATED_END| == 34;
  }

  lemma {:induction false} MarkersAreGood()
    ensures GoodMarkers(MARKERS)
  {
    StartHasNoEnd();
    StartIsOneLine();
    EndIsOneLine();
    AreTrimmed();
  }

  // --- trimming ---

  lemma {:induction false} TrimStartDrops(space: string, text: string)
    requires forall i :: 0 <= i < |space| ==> IsSpace(space[i])
    requires text != "" ==> !IsSpace(text[0])
    ensures TrimStart(space + text) == text
    decreases |space|
  {
    if space == "" {
      assert space + text == text;
    } else {
      assert (space + text)[1..] == space[1..] + text;
      TrimStartDrops(space[1..], text);
    }
  }

  /** Trimming the end does not reach in front of a visible character. */
  lemma {:induction false} TrimEndKeeps(text: string, tail: string)
    requires text != "" ==> !IsSpace(text[|text| - 1])
    ensures TrimEnd(text + tail) == text + TrimEnd(tail)
    decreases |tail|
  {
    var s := text + tail;
    if tail == "" {
      assert s == text;
    } else if IsSpace(tail[|tail| - 1]) {
      assert s[..|s| - 1] == text + tail[..|tail| - 1];
      TrimEndKeeps(text, tail[..|tail| - 1]);
    }
  }

  // --- what a merged file looks like ---

  /** The user's leading text and the blank line after it. */
  function Lead(before: string): string {
    if before == "" then "" else before + "\n\n"
  }

  /** The blank line behind the block, the user's trailing text and the final line break. */
  function Tail(after: string): string {
    if after == "" then "\n" else "\n\n" + after + "\n"
  }

  lemma {:induction false} LeadJoins(before: string, block: string)
    requires block != ""
    ensures JoinSections(before, block) == Lead(before) + block
  {
    assert "" + block == block;
  }

  lemma {:induction false} TailJoins(joined: string, after: string)
    requires joined != ""
    ensures JoinSections(joined, after) + "\n" == joined + Tail(after)
  {
    assert joined + "\n\n" + after + "\n" == joined + ("\n\n" + after + "\n");
  }

  lemma {:induction false} RenderShape(before: string, block: string, after: string)
    requires block != ""
    ensures Render(before, block, after) == Lead(before) + (block + Tail(after))
  {
    hide JoinSections, Lead, Tail;
    LeadJoins(before, block);
    TailJoins(Lead(before) + block, after);
    assert Lead(before) + block + Tail(after) == Lead(before) + (block + Tail(after));
  }

  lemma {:induction false} WithoutBreakAfter(text: string, pattern: string)
    requires OneLine(pattern) && pattern != "" && Without(text, pattern)
    ensures Without(text + "\n", pattern)
  {
    WithoutAcrossLines(text, "", pattern);
    assert text + "\n" + "" == text + "\n";
  }

  lemma {:induction false} BeforeHasNoStart(m: Markers, file: string)
    requires m.start != ""
    ensures Without(Before(m, file), m.start)
  {
    var start := IndexOf(file, m.start);
    var before := Before(m, file);
    TrimEndPart(if start >= 0 then file[..start] else file);
    assert before == file[0..|before|];
    if i :| OccursAt(before, m.start, i) {
      PartOccurs(file, m.start, 0, |before|, i);
    }
  }

  lemma {:induction false} StartFound(before: string, start: string, rest: string)
    requires OneLine(start) && start != "" && Without(before, start)
    ensures IndexOf(Lead(before) + (start + rest), start) == |Lead(before)|
  {
    var s := Lead(before) + (start + rest);
    if before == "" {
      assert s[0..|start|] == start;
      assert OccursAt(s, start, 0);
    } else {
      WithoutBreakAfter(before, start);
      FirstOnNextLine(before + "\n", start, rest);
      assert s == before + "\n" + "\n" + start + rest;
    }
  }

  /** The block of a merged file starts where the user's leading text ends. */
  lemma {:induction false} StartAt(m: Markers, file: string, body: string)
    requires GoodMarkers(m) && Trim(body) != ""
    ensures IndexOf(Merge(m, file, body), m.start) == |Lead(Before(m, file))|
    ensures Before(m, Merge(m, file, body)) == Before(m, file)
  {
    var b, block, tail := Before(m, file), Block(m, body), Tail(After(m, file));
    var g := Lead(b) + (block + tail);
    BeforeHasNoStart(m, file);
    RenderShape(b, block, After(m, file));
    assert Merge(m, file, body) == g;
    BlockFrom(m, body, tail);
    hide Lead, Block, Tail, IndexOf, Before, Merge, IsTrimmed;
    StartFound(b, m.start, AfterStart(m, body, tail));
    BeforeAt(m, file, block + tail);
  }

  lemma {:induction false} BeforeAt(m: Markers, file: string, rest: string)
    requires IndexOf(Lead(Before(m, file)) + rest, m.start) == |Lead(Before(m, file))|
    ensures Before(m, Lead(Before(m, file)) + rest) == Before(m, file)
  {
    hide Lead, IndexOf;
    LeadTrimmed(Before(m, file), rest);
  }

  lemma {:induction false} LeadTrimmed(before: string, rest: string)
    requires before != "" ==> !IsSpace(before[|before| - 1])
    ensures TrimEnd((Lead(before) + rest)[..|Lead(before)|]) == before
  {
    assert (Lead(before) + rest)[..|Lead(before)|] == Lead(before);
    if before != "" {
      TrimEndKeeps(before, "\n\n");
      assert before + "" == before;
    }
  }

  function AfterStart(m: Markers, body: string, tail: string): string {
    "\n" + Trim(body) + ("\n" + m.end + tail)
  }

  lemma {:induction false} BlockFrom(m: Markers, body: string, tail: string)
    requires Trim(body) != ""
    ensures Block(m, body) + tail == m.start + AfterStart(m, body, tail)
  {
  }

  /** Everything of a merged file in front of its end marker's line. */
  function Head(m: Markers, before: string, body: string): string {
    Lead(before) + m.start + "\n" + Trim(body)
  }

  lemma {:induction false} LeadWithout(m: Markers, before: string)
    requires GoodMarkers(m) && Without(before, m.end)
    ensures Without(Lead(before) + m.start, m.end)
  {
    if before == "" {
      assert Lead(before) + m.start == m.start;
    } else {
      WithoutBreakAfter(before, m.end);
      WithoutAcrossLines(before + "\n", m.start, m.end);
      assert Lead(before) == before + "\n" + "\n";
    }
  }

  lemma {:induction false} EndFound(m: Markers, before: string, body: string, tail: string)
    requires GoodMarkers(m) && Without(before, m.end) && GoodBody(m, body)
    ensures IndexOf(Lead(before) + (Block(m, body) + tail), m.end) == |Head(m, before, body)| + 1
    ensures Lead(before) + (Block(m, body) + tail) == Head(m, before, body) + "\n" + m.end + tail
  {
    LeadWithout(m, before);
    WithoutAcrossLines(Lead(before) + m.start, Trim(body), m.end);
    FirstOnNextLine(Head(m, before, body), m.end, tail);
    EndSplit(m, before, body, tail);
  }

  lemma {:induction false} EndSplit(m: Markers, before: string, body: string, tail: string)
    requires Trim(body) != ""
    ensures Lead(before) + (Block(m, body) + tail) == Head(m, before, body) + "\n" + m.end + tail
  {
    assert Lead(before) + Block(m, body) == Head(m, before, body) + "\n" + m.end;
  }

  lemma {:induction false} TailTrimmed(after: string)
    requires after != "" ==> !IsSpace(after[0])
    ensures TrimStart(Tail(after)) == after + Growth(after)
  {
    if after == "" {
      TrimStartDrops("\n", "");
      assert "\n" + "" == "\n";
    } else {
      TrimStartDrops("\n\n", after + "\n");
      assert Tail(after) == "\n\n" + (after + "\n");
    }
  }

  /** Merging keeps the user's text on both sides, up to the added line break. */
  lemma {:induction false} SidesSurvive(m: Markers, file: string, body: string)
    requires GoodMarkers(m) && GoodBody(m, body) && NoStrayEnd(m, file)
    ensures Before(m, Merge(m, file, body)) == Before(m, file)
    ensures After(m, Merge(m, file, body)) == After(m, file) + Growth(After(m, file))
  {
    var b, a := Before(m, file), After(m, file);
    var g := Merge(m, file, body);
    StartAt(m, file, body);
    RenderShape(b, Block(m, body), a);
    EndFound(m, b, body, Tail(a));
    assert g[|Head(m, b, body)| + 1 + |m.end|..] == Tail(a);
    TailTrimmed(a);
  }

  // --- main results ---

  /** Merging twice is merging the last body, but for one line break behind trailing text. */
  lemma {:induction false} SecondMergeReplaces(m: Markers, file: string, first: string, second: string)
    requires GoodMarkers(m) && GoodBody(m, first) && Trim(second) != "" && NoStrayEnd(m, file)
    ensures Merge(m, Merge(m, file, first), second) == Merge(m, file, second) + Growth(After(m, file))
  {
    SidesSurvive(m, file, first);
    var a := After(m, file);
    assert Grown(a, 1) == Growth(a);
    GrownShows(Before(m, file), Block(m, second), a, 1);
  }

  predicate EndsWith(s: string, suffix: string) {
    |suffix| <= |s| && s[|s| - |suffix|..] == suffix
  }

  /** Trimming white space in front of a visible suffix keeps the suffix. */
  lemma {:induction false} TrimStartKeepsSuffix(front: string, suffix: string)
    requires suffix != "" && !IsSpace(suffix[0])
    ensures EndsWith(TrimStart(front + suffix), suffix)
    decreases |front|
  {
    var s := front + suffix;
    if front == "" {
      assert s == suffix;
    } else if IsSpace(front[0]) {
      assert s[1..] == front[1..] + suffix;
      TrimStartKeepsSuffix(front[1..], suffix);
    }
  }

  /** With an end marker in front of the block, the block just written becomes the user's trailing text. */
  lemma {:induction false} StrayEndKeepsOldBlock(m: Markers, file: string, body: string)
    requires GoodMarkers(m) && Trim(body) != "" && !NoStrayEnd(m, file)
    ensures EndsWith(After(m, Merge(m, file, body)), Block(m, body) + Tail(After(m, file)))
  {
    var b, a := Before(m, file), After(m, file);
    var suffix := Block(m, body) + Tail(a);
    RenderShape(b, Block(m, body), a);
    StartAt(m, file, body);
    StrayEndIndex(m, b, suffix);
    BlockFrom(m, body, Tail(a));
    AfterCut(m, Lead(b), suffix);
  }

  lemma {:induction false} AfterCut(m: Markers, front: string, suffix: string)
    requires suffix != "" && !IsSpace(suffix[0])
    requires IndexOf(front + suffix, m.start) >= 0
    requires 0 <= IndexOf(front + suffix, m.end) <= |front| - |m.end|
    ensures EndsWith(After(m, front + suffix), suffix)
  {
    var cut := IndexOf(front + suffix, m.end) + |m.end|;
    assert (front + suffix)[cut..] == front[cut..] + suffix;
    TrimStartKeepsSuffix(front[cut..], suffix);
  }

  lemma {:induction false} StrayEndIndex(m: Markers, before: string, suffix: string)
    requires !Without(before, m.end)
    ensures 0 <= IndexOf(Lead(before) + suffix, m.end) <= |Lead(before)| - |m.end|
  {
    var g := Lead(before) + suffix;
    var i :| OccursAt(before, m.end, i);
    if before == "" {
      assert g[0..0] == before;
    } else {
      assert g[0..|before|] == before;
    }
    PartOccurs(g, m.end, 0, |before|, i);
  }

  /**
   * Replacing a block gives the file that the last body alone would give, up to trailing white
   * space, exactly when no end marker precedes the block.
   */
  lemma {:induction false} MergeReplacesIff(m: Markers, file: string, first: string, second: string)
    requires GoodMarkers(m) && GoodBody(m, first) && Trim(second) != ""
    ensures TrimEnd(Merge(m, Merge(m, file, first), second)) == TrimEnd(Merge(m, file, second))
       <==> NoStrayEnd(m, file)
  {
    if NoStrayEnd(m, file) {
      SecondMergeReplaces(m, file, first, second);
      GrowthIsSpace(Merge(m, file, second), After(m, file));
    } else {
      StrayEndGrows(m, file, first, second);
    }
  }

  lemma {:induction false} GrowthIsSpace(s: string, after: string)
    ensures TrimEnd(s + Growth(after)) == TrimEnd(s)
  {
    assert (s + "\n")[..|s|] == s;
    assert s + "" == s;
  }

  lemma {:induction false} StrayEndGrows(m: Markers, file: string, first: string, second: string)
    requires GoodMarkers(m) && Trim(first) != "" && Trim(second) != "" && !NoStrayEnd(m, file)
    ensures |TrimEnd(Merge(m, Merge(m, file, first), second))| > |TrimEnd(Merge(m, file, second))|
  {
    var a := After(m, file);
    var g := Merge(m, file, first);
    StrayEndKeepsOldBlock(m, file, first);
    StartAt(m, file, first);
    LongerTail(Before(m, file), Block(m, first), Block(m, second), a, After(m, g));
  }

  lemma {:induction false} LongerTail(before: string, first: string, second: string, after: string, longer: string)
    requires first != "" && !IsSpace(first[|first| - 1]) && second != "" && !IsSpace(second[|second| - 1])
    requires EndsWith(longer, first + Tail(after))
    ensures |TrimEnd(Render(before, second, longer))| > |TrimEnd(Render(before, second, after))|
  {
    var tail := Tail(after);
    var lead := Lead(before) + second;
    RenderLead(before, second, after);
    RenderLead(before, second, longer);
    assert lead != "" && lead[|lead| - 1] == second[|second| - 1];
    var long := LongFront(lead, first, longer, tail);
    hide Render, Lead, Tail, TrimEnd, IsSpace, EndsWith;
    LongerEnd(lead, long, tail);
  }

  lemma {:induction false} RenderLead(before: string, block: string, after: string)
    requires block != ""
    ensures Render(before, block, after) == (Lead(before) + block) + Tail(after)
  {
    RenderShape(before, block, after);
  }

  lemma {:induction false} LongerEnd(lead: string, long: string, tail: string)
    requires |long| > |lead| > 0 && !IsSpace(long[|long| - 1]) && !IsSpace(lead[|lead| - 1])
    ensures |TrimEnd(long + (tail + "\n"))| > |TrimEnd(lead + tail)|
  {
    TrimEndKeeps(long, tail + "\n");
    TrimEndKeeps(lead, tail);
    assert (tail + "\n")[..|tail|] == tail;
  }

  lemma {:induction false} LongFront(lead: string, first: string, longer: string, tail: string) returns (long: string)
    requires first != "" && !IsSpace(first[|first| - 1]) && EndsWith(longer, first + tail)
    ensures lead + Tail(longer) == long + (tail + "\n")
    ensures |long| > |lead| && !IsSpace(long[|long| - 1])
  {
    var kept := longer[..|longer| - |first + tail|];
    assert longer == kept + (first + tail);
    long := lead + "\n\n" + kept + first;
    assert longer == (kept + first) + tail;
    assert lead + Tail(longer) == lead + ("\n\n" + ((kept + first) + tail) + "\n");
  }

  /** Applying a list of bodies, one commit after another. */
  function MergeAll(m: Markers, file: string, bodies: seq<string>): string
    decreases |bodies|
  {
    if bodies == [] then file
    else Merge(m, MergeAll(m, file, bodies[..|bodies| - 1]), bodies[|bodies| - 1])
  }

  ghost predicate GoodBodies(m: Markers, bodies: seq<string>) {
    forall i :: 0 <= i < |bodies| ==> GoodBody(m, bodies[i])
  }

  /** The line breaks that n merges add behind the user's trailing text. */
  function Grown(text: string, n: nat): string {
    if text == "" || n == 0 then "" else Grown(text, n - 1) + "\n"
  }

  /** The user's text survives any number of commits. */
  lemma {:induction false} SidesSurviveAll(m: Markers, file: string, bodies: seq<string>)
    requires GoodMarkers(m) && NoStrayEnd(m, file) && GoodBodies(m, bodies)
    ensures Before(m, MergeAll(m, file, bodies)) == Before(m, file)
    ensures After(m, MergeAll(m, file, bodies)) == After(m, file) + Grown(After(m, file), |bodies|)
    decreases |bodies|
  {
    var a, n := After(m, file), |bodies|;
    if n == 0 {
      assert a + "" == a;
    } else {
      SidesSurviveAll(m, file, bodies[..n - 1]);
      SidesSurvive(m, MergeAll(m, file, bodies[..n - 1]), bodies[n - 1]);
      GrownStep(a, n - 1);
    }
  }

  lemma {:induction false} GrownStep(text: string, n: nat)
    ensures text + Grown(text, n) + Growth(text + Grown(text, n)) == text + Grown(text, n + 1)
  {
    assert text + Grown(text, n) + "\n" == text + (Grown(text, n) + "\n");
    assert text == "" ==> text + Grown(text, n) + "" == "";
  }

  /**
   * After any number of commits the file is the user's text around the last body; the only trace
   * of the earlier ones is a line break each behind the user's trailing text.
   */
  lemma {:induction false} OnlyTheLastBodyShows(m: Markers, file: string, bodies: seq<string>)
    requires GoodMarkers(m) && bodies != [] && NoStrayEnd(m, file) && GoodBodies(m, bodies)
    ensures MergeAll(m, file, bodies)
         == Merge(m, file, bodies[|bodies| - 1]) + Grown(After(m, file), |bodies| - 1)
  {
    var n := |bodies| - 1;
    SidesSurviveAll(m, file, bodies[..n]);
    GrownShows(Before(m, file), Block(m, bodies[n]), After(m, file), n);
  }

  lemma {:induction false} GrownShows(before: string, block: string, after: string, n: nat)
    requires block != ""
    ensures Render(before, block, after + Grown(after, n)) == Render(before, block, after) + Grown(after, n)
  {
    var joined, grown := JoinSections(before, block), Grown(after, n);
    if after == "" {
      assert after + grown == after;
      assert Render(before, block, after) + grown == Render(before, block, after);
    } else {
      GrownIsBreaks(after, n);
      BreaksCommute(grown);
      assert joined + "\n\n" + (after + grown) + "\n" == joined + "\n\n" + after + (grown + "\n");
    }
  }

  lemma {:induction false} GrownIsBreaks(text: string, n: nat)
    ensures forall i :: 0 <= i < |Grown(text, n)| ==> Grown(text, n)[i] == '\n'
  {
    if text != "" && n > 0 {
      GrownIsBreaks(text, n - 1);
    }
  }

  lemma {:induction false} BreaksCommute(breaks: string)
    requires forall i :: 0 <= i < |breaks| ==> breaks[i] == '\n'
    ensures breaks + "\n" == "\n" + breaks
  {
  }

  /** How a caller can check the condition: the file has no end marker, or its start marker comes first. */
  lemma {:induction false} StrayEndCheck(m: Markers, file: string)
    requires GoodMarkers(m)
    ensures
      var start, end := IndexOf(file, m.start), IndexOf(file, m.end);
      NoStrayEnd(m, file) <==> end < 0 || (start >= 0 && end + |m.end| > start)
  {
    var start, end := IndexOf(file, m.start), IndexOf(file, m.end);
    var front := if start >= 0 then file[..start] else file;
    var b := Before(m, file);
    TrimEndPart(front);
    assert b == TrimEnd(front) && b == file[0..|b|];
    forall i | OccursAt(b, m.end, i) ensures 0 <= end <= i {
      PartOccurs(file, m.end, 0, |b|, i);
    }
    if end >= 0 && end + |m.end| <= |front| {
      StrayEndInFront(front, m.end, end);
    }
  }

  lemma {:induction false} StrayEndInFront(front: string, end: string, i: nat)
    requires end != "" && IsTrimmed(end) && i + |end| <= |front| && front[i..i + |end|] == end
    ensures OccursAt(TrimEnd(front), end, i)
  {
    var cut := i + |end|;
    assert front == front[..cut] + front[cut..];
    assert front[..cut][cut - 1] == end[|end| - 1];
    TrimEndKeeps(front[..cut], front[cut..]);
    assert TrimEnd(front)[i..cut] == front[i..cut];
  }

  /** Without an end marker everything behind the start marker is dropped. */
  lemma {:induction false} UnterminatedBlockDropsTheRest(m: Markers, file: string, body: string)
    requires m.start != "" && IndexOf(file, m.start) >= 0 && IndexOf(file, m.end) < 0
    ensures Merge(m, file, body) == Merge(m, file[..IndexOf(file, m.start)], body)
  {
    var start := IndexOf(file, m.start);
    var head := file[..start];
    assert head == file[0..start];
    var i := IndexOf(head, m.start);
    assert i < 0 by {
      if i >= 0 {
        PartOccurs(file, m.start, 0, start, i);
      }
    }
  }

  /** A file with nothing but an end marker in it: a second merge does not replace the first. */
  lemma {:induction false} StrayEndExample()
    ensures !NoStrayEnd(MARKERS, GENERATED_END)
    ensures TrimEnd(Merge(MARKERS, Merge(MARKERS, GENERATED_END, "x"), "y")) != TrimEnd(Merge(MARKERS, GENERATED_END, "y"))
  {
    MarkersAreGood();
    StrayEndCheck(MARKERS, GENERATED_END);
    assert |GENERATED_START| > |GENERATED_END|;
    assert OccursAt(GENERATED_END, GENERATED_END, 0);
    TrimOfTrimmed("x");
    TrimOfTrimmed("y");
    assert Without("x", GENERATED_END);
    hide GoodMarkers, NoStrayEnd, Merge, TrimEnd;
    MergeReplacesIff(MARKERS, GENERATED_END, "x", "y");
  }
}
