/** Cutting a message into sections Slack accepts, and grouping their lines into blocks. */
module SlackSections {
  import opened Text
  import opened Lists
  import opened VisibleLines

  const SECTION_TEXT_LIMIT := 3000

  // --- one long line ---

  predicate IsBreak(c: char) {
    c == '\n' || c == ' ' || c == '、'
  }

  /** The last place a line may break at, or -1. */
  function BreakAt(slice: string): (i: int)
    ensures -1 <= i < |slice|
    ensures i >= 0 ==> IsBreak(slice[i])
    ensures forall j :: i < j < |slice| && j >= 0 ==> !IsBreak(slice[j])
  {
    if slice == "" then -1 else
      var n := |slice| - 1;
      if IsBreak(slice[n]) then n else BreakAt(slice[..n])
  }

  /**
   * Where to cut text that is too long: at the last break in the final two fifths of what fits, or
   * at the limit when there is none.
   */
  function CutAt(remaining: string, max: nat): (cut: nat)
    requires 2 <= max < |remaining|
    ensures 0 < cut <= max && max * 6 / 10 <= cut
    ensures cut < max ==> remaining[cut] in {'\n', ' ', '、'}
    ensures forall j :: cut < j < max ==> remaining[j] !in {'\n', ' ', '、'}
    ensures cut == max ==> forall j :: max * 6 / 10 <= j < max ==> remaining[j] !in {'\n', ' ', '、'}
  {
    var breakAt := BreakAt(remaining[..max]);
    if breakAt >= max * 6 / 10 then breakAt else max
  }

  /** The pieces of trimmed text, each trimmed. */
  function Chunks(remaining: string, max: nat): seq<string>
    requires 2 <= max
    decreases |remaining|
  {
    if |remaining| <= max then
      if remaining == "" then [] else [remaining]
    else
      var cut := CutAt(remaining, max);
      [Trim(remaining[..cut])] + Chunks(Trim(remaining[cut..]), max)
  }

  function LongLinePieces(text: string, max: nat): seq<string>
    requires 2 <= max
  {
    if |text| <= max then [text] else Chunks(Trim(text), max)
  }

  lemma {:induction false} NextChunk(chunks: seq<string>, remaining: string, max: nat)
    requires 2 <= max < |remaining|
    ensures
      var cut := CutAt(remaining, max);
      && chunks + [Trim(remaining[..cut])] + Chunks(Trim(remaining[cut..]), max) == chunks + Chunks(remaining, max)
      && |Trim(remaining[cut..])| < |remaining|
  {
    var cut := CutAt(remaining, max);
    var chunk, rest := [Trim(remaining[..cut])], Chunks(Trim(remaining[cut..]), max);
    assert chunks + (chunk + rest) == chunks + chunk + rest;
  }

  method SplitLongLine(text: string, max: nat) returns (chunks: seq<string>)
    requires 2 <= max
    ensures chunks == LongLinePieces(text, max)
  {
    if |text| <= max {
      return [text];
    }
    chunks := [];
    var remaining := Trim(text);
    while |remaining| > max
      invariant chunks + Chunks(remaining, max) == Chunks(Trim(text), max)
      decreases |remaining|
    {
      var cut := CutAt(remaining, max);
      NextChunk(chunks, remaining, max);
      chunks := chunks + [Trim(remaining[..cut])];
      remaining := Trim(remaining[cut..]);
    }
    if remaining != "" {
      chunks := chunks + [remaining];
    }
  }

  // --- paragraphs ---

  /** The position of the first blank line, or the end. */
  function Gap(s: string): (p: nat)
    ensures p <= |s|
    ensures p < |s| ==> p + 1 < |s| && s[p] == '\n' && s[p + 1] == '\n'
  {
    if s == "" then 0
    else if |s| > 1 && s[0] == '\n' && s[1] == '\n' then 0
    else 1 + Gap(s[1..])
  }

  function SkipBreaks(s: string): (r: string)
    ensures |r| <= |s|
  {
    if s != "" && s[0] == '\n' then SkipBreaks(s[1..]) else s
  }

  /** `s.split(/\n{2,}/)` */
  function SplitParagraphs(s: string): seq<string>
    decreases |s|
  {
    var p := Gap(s);
    if p == |s| then [s] else [s[..p]] + SplitParagraphs(SkipBreaks(s[p + 2..]))
  }

  function TrimmedParagraph(paragraph: string): seq<string> {
    if Trim(paragraph) == "" then [] else [Trim(paragraph)]
  }

  /** The trimmed non-empty paragraphs of a text. */
  function Paragraphs(text: string): seq<string> {
    FlatMap(TrimmedParagraph, SplitParagraphs(text))
  }

  function LinePieces(line: string): seq<string> {
    LongLinePieces(line, SECTION_TEXT_LIMIT)
  }

  /** The parts a paragraph contributes: itself, or the pieces of its lines. */
  function PartsOf(paragraph: string): seq<string> {
    if |paragraph| <= SECTION_TEXT_LIMIT then [paragraph] else FlatMap(LinePieces, SplitLines(paragraph))
  }

  // --- packing parts into sections ---

  datatype Packing = Packing(sections: seq<string>, current: string)

  /** Two parts in one section, with a blank line between them. */
  function Joined(a: string, b: string): string {
    a + "\n\n" + b
  }

  /** One part more: joined to the open section if it still fits, or the start of a new one. */
  function Push(p: Packing, part: string): Packing {
    if part == "" then p
    else if p.current == "" then Packing(p.sections, part)
    else if |Joined(p.current, part)| <= SECTION_TEXT_LIMIT then Packing(p.sections, Joined(p.current, part))
    else Packing(p.sections + [p.current], part)
  }

  function Pack(parts: seq<string>): Packing {
    if parts == [] then Packing([], "") else Push(Pack(parts[..|parts| - 1]), parts[|parts| - 1])
  }

  function Closed(p: Packing): seq<string> {
    if p.current == "" then p.sections else p.sections + [p.current]
  }

  function AllParts(text: string): seq<string> {
    FlatMap(PartsOf, Paragraphs(text))
  }

  function Sections(text: string): seq<string> {
    Closed(Pack(AllParts(text)))
  }

  method SplitSections(text: string) returns (sections: seq<string>)
    ensures sections == Sections(text)
  {
    var paragraphs := Paragraphs(text);
    var packing := Packing([], "");
    for i := 0 to |paragraphs|
      invariant packing == Pack(FlatMap(PartsOf, paragraphs[..i]))
    {
      PartsStep(paragraphs, i);
      if |paragraphs[i]| <= SECTION_TEXT_LIMIT {
        PackSnoc(FlatMap(PartsOf, paragraphs[..i]), paragraphs[i]);
        packing := Push(packing, paragraphs[i]);
      } else {
        packing := PushLines(packing, FlatMap(PartsOf, paragraphs[..i]), SplitLines(paragraphs[i]));
      }
    }
    assert paragraphs[..|paragraphs|] == paragraphs;
    return if packing.current != "" then packing.sections + [packing.current] else packing.sections;
  }

  lemma {:induction false} PartsStep(paragraphs: seq<string>, i: nat)
    requires i < |paragraphs|
    ensures FlatMap(PartsOf, paragraphs[..i]) + PartsOf(paragraphs[i]) == FlatMap(PartsOf, paragraphs[..i + 1])
  {
    assert paragraphs[..i + 1] == paragraphs[..i] + [paragraphs[i]];
    FlatMapSnoc(PartsOf, paragraphs[..i], paragraphs[i]);
  }

  /** The pieces of every line of a long paragraph, one after another. */
  method PushLines(start: Packing, ghost before: seq<string>, lines: seq<string>) returns (packing: Packing)
    requires start == Pack(before)
    ensures packing == Pack(before + FlatMap(LinePieces, lines))
  {
    packing := start;
    assert before + [] == before;
    for k := 0 to |lines|
      invariant packing == Pack(before + FlatMap(LinePieces, lines[..k]))
    {
      var pieces := SplitLongLine(lines[k], SECTION_TEXT_LIMIT);
      PiecesStep(before, lines, k);
      packing := PushAll(packing, before + FlatMap(LinePieces, lines[..k]), pieces);
    }
    assert lines[..|lines|] == lines;
  }

  lemma {:induction false} PiecesStep(before: seq<string>, lines: seq<string>, k: nat)
    requires k < |lines|
    ensures before + FlatMap(LinePieces, lines[..k]) + LinePieces(lines[k])
         == before + FlatMap(LinePieces, lines[..k + 1])
  {
    assert lines[..k + 1] == lines[..k] + [lines[k]];
    FlatMapSnoc(LinePieces, lines[..k], lines[k]);
  }

  method PushAll(start: Packing, ghost before: seq<string>, parts: seq<string>) returns (packing: Packing)
    requires start == Pack(before)
    ensures packing == Pack(before + parts)
  {
    packing := start;
    assert before + [] == before;
    for k := 0 to |parts|
      invariant packing == Pack(before + parts[..k])
    {
      PackSnoc(before + parts[..k], parts[k]);
      assert before + parts[..k] + [parts[k]] == before + parts[..k + 1];
      packing := Push(packing, parts[k]);
    }
    assert parts[..|parts|] == parts;
  }

  lemma {:induction false} PackSnoc(parts: seq<string>, part: string)
    ensures Pack(parts + [part]) == Push(Pack(parts), part)
  {
    assert (parts + [part])[..|parts|] == parts;
  }

  // --- every section fits ---

  ghost predicate Fits(part: string) {
    |part| <= SECTION_TEXT_LIMIT
  }

  ghost predicate AllFit(parts: seq<string>) {
    forall i :: 0 <= i < |parts| ==> Fits(parts[i])
  }

  ghost predicate NoneEmpty(parts: seq<string>) {
    forall i :: 0 <= i < |parts| ==> parts[i] != ""
  }

  lemma {:induction false} AllFitFlatMap(f: string -> seq<string>, xs: seq<string>)
    requires forall i :: 0 <= i < |xs| ==> AllFit(f(xs[i]))
    ensures AllFit(FlatMap(f, xs))
  {
    if xs != [] {
      AllFitFlatMap(f, xs[1..]);
      assert AllFit(f(xs[0]));
    }
  }

  lemma {:induction false} TrimShrinks(s: string)
    ensures |Trim(s)| <= |s| && IsTrimmed(Trim(s))
  {
  }

  lemma {:induction false} ChunksFit(remaining: string, max: nat)
    requires 2 <= max <= SECTION_TEXT_LIMIT
    ensures AllFit(Chunks(remaining, max))
    decreases |remaining|
  {
    if |remaining| > max {
      var cut := CutAt(remaining, max);
      TrimShrinks(remaining[..cut]);
      ChunksFit(Trim(remaining[cut..]), max);
    }
  }

  lemma {:induction false} PartsFit(paragraph: string)
    ensures AllFit(PartsOf(paragraph))
  {
    if |paragraph| > SECTION_TEXT_LIMIT {
      var lines := SplitLines(paragraph);
      forall i | 0 <= i < |lines| ensures AllFit(LinePieces(lines[i])) {
        ChunksFit(Trim(lines[i]), SECTION_TEXT_LIMIT);
      }
      AllFitFlatMap(LinePieces, lines);
    }
  }

  lemma {:induction false} PackFits(parts: seq<string>)
    requires AllFit(parts)
    ensures AllFit(Pack(parts).sections) && NoneEmpty(Pack(parts).sections) && Fits(Pack(parts).current)
  {
    if parts != [] {
      var n := |parts| - 1;
      PackFits(parts[..n]);
      assert Fits(parts[n]);
    }
  }

  /** Every section is non-empty and within Slack's limit. */
  lemma {:induction false} SectionsFit(text: string)
    ensures forall i :: 0 <= i < |Sections(text)| ==> 0 < |Sections(text)[i]| <= 3000
  {
    var paragraphs := Paragraphs(text);
    forall i | 0 <= i < |paragraphs| ensures AllFit(PartsOf(paragraphs[i])) {
      PartsFit(paragraphs[i]);
    }
    AllFitFlatMap(PartsOf, paragraphs);
    PackFits(AllParts(text));
    var p := Pack(AllParts(text));
    assert forall i :: 0 <= i < |p.sections| ==> Fits(p.sections[i]);
  }

  /** The part that starts a section did not fit behind the section before it. */
  ghost predicate Needed(before: string, section: string, parts: seq<string>) {
    exists k :: 0 <= k < |parts| && parts[k] <= section && |before| + 2 + |parts[k]| > 3000
  }

  ghost predicate AllNeeded(sections: seq<string>, parts: seq<string>) {
    forall i :: 0 < i < |sections| ==> Needed(sections[i - 1], sections[i], parts)
  }

  lemma {:induction false} NeededKept(before: string, section: string, parts: seq<string>, longer: string, part: string)
    requires Needed(before, section, parts) && section <= longer
    ensures Needed(before, longer, parts + [part])
  {
    var k :| 0 <= k < |parts| && parts[k] <= section && |before| + 2 + |parts[k]| > 3000;
    assert (parts + [part])[k] == parts[k] <= longer;
  }

  lemma {:induction false} PackNeeded(parts: seq<string>)
    ensures AllNeeded(Closed(Pack(parts)), parts)
    ensures Pack(parts).current == "" ==> Pack(parts).sections == []
  {
    if parts != [] {
      var n := |parts| - 1;
      var p, part := Pack(parts[..n]), parts[n];
      PackNeeded(parts[..n]);
      assert parts == parts[..n] + [part];
      PushNeeded(p, part, parts[..n]);
    }
  }

  lemma {:induction false} PushNeeded(p: Packing, part: string, parts: seq<string>)
    requires AllNeeded(Closed(p), parts) && (p.current == "" ==> p.sections == [])
    ensures AllNeeded(Closed(Push(p, part)), parts + [part])
    ensures Push(p, part).current == "" ==> Push(p, part).sections == []
  {
    var old_, now := Closed(p), Closed(Push(p, part));
    forall i | 0 < i < |now| ensures Needed(now[i - 1], now[i], parts + [part]) {
      if i < |old_| {
        assert old_[i - 1] == now[i - 1] && old_[i] <= now[i];
        assert Needed(old_[i - 1], old_[i], parts);
        NeededKept(old_[i - 1], old_[i], parts, now[i], part);
      } else {
        assert (parts + [part])[|parts|] == part;
      }
    }
  }

  /** Sections are filled greedily: each starts with a part that the one before it had no room for. */
  lemma {:induction false} SectionsAreFull(text: string)
    ensures AllNeeded(Sections(text), AllParts(text))
  {
    PackNeeded(AllParts(text));
  }

  // --- what does not depend on how a text is cut into paragraphs and sections ---

  ghost predicate AddsUp<B>(g: string -> seq<B>) {
    forall a, b {:trigger Joined(a, b)} :: g(Joined(a, b)) == g(a) + g(b)
  }

  ghost predicate IgnoresTrim<B>(g: string -> seq<B>) {
    forall s {:trigger Trim(s)} :: g(Trim(s)) == g(s)
  }

  ghost predicate IgnoresBreaks<B>(g: string -> seq<B>) {
    forall s {:trigger SkipBreaks(s)} :: g(SkipBreaks(s)) == g(s)
  }

  /** A reading of texts that adds up over blank lines and does not see outer white space. */
  ghost predicate IgnoresLayout<B>(g: string -> seq<B>) {
    AddsUp(g) && IgnoresTrim(g) && IgnoresBreaks(g) && g("") == []
  }

  /** Mapping each element to pieces with the same image leaves the image of the list. */
  lemma {:induction false} FlatMapSame<B>(g: string -> seq<B>, f: string -> seq<string>, xs: seq<string>)
    requires forall i :: 0 <= i < |xs| ==> FlatMap(g, f(xs[i])) == g(xs[i])
    ensures FlatMap(g, FlatMap(f, xs)) == FlatMap(g, xs)
  {
    if xs != [] {
      assert FlatMap(g, f(xs[0])) == g(xs[0]);
      FlatMapSame(g, f, xs[1..]);
      FlatMapAppend(g, f(xs[0]), FlatMap(f, xs[1..]));
    }
  }

  lemma {:induction false} SplitKeeps<B>(g: string -> seq<B>, s: string)
    requires IgnoresLayout(g)
    ensures FlatMap(g, SplitParagraphs(s)) == g(s)
    decreases |s|
  {
    var p := Gap(s);
    if p == |s| {
      FlatMapOne(g, s);
    } else {
      var front, rest := s[..p], s[p + 2..];
      ReadAtGap(g, s, front, rest);
      SplitKeeps(g, SkipBreaks(rest));
      hide IgnoresLayout, Gap, SkipBreaks;
      FlatMapAppend(g, [front], SplitParagraphs(SkipBreaks(rest)));
      FlatMapOne(g, front);
    }
  }

  lemma {:induction false} ReadAtGap<B>(g: string -> seq<B>, s: string, front: string, rest: string)
    requires IgnoresLayout(g) && s == front + "\n\n" + rest
    ensures g(s) == g(front) + g(SkipBreaks(rest))
  {
    assert s == Joined(front, rest);
  }

  /** The paragraphs of a text read like the text. */
  lemma {:induction false} ParagraphsKeep<B>(g: string -> seq<B>, text: string)
    requires IgnoresLayout(g)
    ensures FlatMap(g, Paragraphs(text)) == g(text)
  {
    SplitKeeps(g, text);
    var all := SplitParagraphs(text);
    forall i | 0 <= i < |all| ensures FlatMap(g, TrimmedParagraph(all[i])) == g(all[i]) {
      assert g(Trim(all[i])) == g(all[i]);
      FlatMapOne(g, Trim(all[i]));
    }
    FlatMapSame(g, TrimmedParagraph, all);
  }

  lemma {:induction false} PushKeeps<B>(g: string -> seq<B>, p: Packing, part: string)
    requires IgnoresLayout(g)
    ensures FlatMap(g, Push(p, part).sections) + g(Push(p, part).current)
         == FlatMap(g, p.sections) + g(p.current) + g(part)
  {
    FlatMapSnoc(g, p.sections, p.current);
    var before, a, b := FlatMap(g, p.sections), g(p.current), g(part);
    assert before + (a + b) == before + a + b;
    assert g(Joined(p.current, part)) == a + b;
    assert part == "" ==> before + a + b == before + a;
    assert p.current == "" ==> before + a + b == before + b;
  }

  lemma {:induction false} PackKeeps<B>(g: string -> seq<B>, parts: seq<string>)
    requires IgnoresLayout(g)
    ensures FlatMap(g, Pack(parts).sections) + g(Pack(parts).current) == FlatMap(g, parts)
  {
    if parts != [] {
      var n := |parts| - 1;
      PackKeeps(g, parts[..n]);
      assert parts == parts[..n] + [parts[n]];
      FlatMapSnoc(g, parts[..n], parts[n]);
      PushKeeps(g, Pack(parts[..n]), parts[n]);
    }
  }

  /** The sections of a text read like its parts. */
  lemma {:induction false} SectionsKeep<B>(g: string -> seq<B>, text: string)
    requires IgnoresLayout(g)
    ensures FlatMap(g, Sections(text)) == FlatMap(g, AllParts(text))
  {
    PackKeeps(g, AllParts(text));
    var p := Pack(AllParts(text));
    FlatMapSnoc(g, p.sections, p.current);
    assert p.current == "" ==> FlatMap(g, p.sections) + g(p.current) == FlatMap(g, p.sections);
  }

  // --- nothing visible is lost, added or moved ---

  /** The visible characters of a list of texts. */
  function VisibleAll(parts: seq<string>): string {
    FlatMap(Visible, parts)
  }

  lemma {:induction false} VisibleIgnoresLayout()
    ensures IgnoresLayout(Visible)
  {
    forall a, b ensures Visible(Joined(a, b)) == Visible(a) + Visible(b) {
      VisibleAcrossGap(a, b);
    }
    forall s ensures Visible(Trim(s)) == Visible(s) {
      VisibleTrim(s);
    }
    forall s ensures Visible(SkipBreaks(s)) == Visible(s) {
      VisibleSkipBreaks(s);
    }
  }

  lemma {:induction false} VisibleSkipBreaks(s: string)
    ensures Visible(SkipBreaks(s)) == Visible(s)
  {
    if s != "" && s[0] == '\n' {
      VisibleSkipBreaks(s[1..]);
    }
  }

  lemma {:induction false} VisibleAcrossGap(a: string, b: string)
    ensures Visible(Joined(a, b)) == Visible(a) + Visible(b)
  {
    VisibleAppend(a + "\n\n", b);
    FlatMapSnoc(VisibleChar, a + "\n", '\n');
    FlatMapSnoc(VisibleChar, a, '\n');
    assert a + "\n" + ['\n'] == a + "\n\n";
  }

  lemma {:induction false} VisibleChunks(remaining: string, max: nat)
    requires 2 <= max
    ensures VisibleAll(Chunks(remaining, max)) == Visible(remaining)
    decreases |remaining|
  {
    if |remaining| <= max {
      FlatMapOne(Visible, remaining);
    } else {
      var cut := CutAt(remaining, max);
      var chunk, rest := Trim(remaining[..cut]), Trim(remaining[cut..]);
      VisibleChunks(rest, max);
      VisibleTrim(remaining[..cut]);
      VisibleTrim(remaining[cut..]);
      VisibleAppend(remaining[..cut], remaining[cut..]);
      assert remaining == remaining[..cut] + remaining[cut..];
      FlatMapAppend(Visible, [chunk], Chunks(rest, max));
      FlatMapOne(Visible, chunk);
    }
  }

  lemma {:induction false} VisiblePieces(line: string)
    ensures VisibleAll(LinePieces(line)) == Visible(line)
  {
    FlatMapOne(Visible, line);
    VisibleTrim(line);
    VisibleChunks(Trim(line), SECTION_TEXT_LIMIT);
  }

  lemma {:induction false} VisibleLinesOf(s: string)
    ensures VisibleAll(SplitLines(s)) == Visible(s)
  {
    if s == "" {
      FlatMapOne(Visible, "");
    } else {
      VisibleLinesOf(s[1..]);
      FlatMapAppend(VisibleChar, [s[0]], s[1..]);
      FlatMapOne(VisibleChar, s[0]);
      assert s == [s[0]] + s[1..];
      VisibleOntoFirst(s[0], SplitLines(s[1..]));
    }
  }

  lemma {:induction false} VisibleOntoFirst(c: char, lines: seq<string>)
    requires lines != []
    ensures VisibleAll(OntoFirst(c, lines)) == VisibleChar(c) + VisibleAll(lines)
  {
    if c == '\n' {
      FlatMapAppend(Visible, [""], lines);
      FlatMapOne(Visible, "");
    } else {
      FlatMapAppend(VisibleChar, [c], lines[0]);
      FlatMapOne(VisibleChar, c);
      var first := [c] + lines[0];
      FlatMapAppend(Visible, [first], lines[1..]);
      FlatMapOne(Visible, first);
      var rest := VisibleAll(lines[1..]);
      assert VisibleChar(c) + Visible(lines[0]) + rest == VisibleChar(c) + (Visible(lines[0]) + rest);
    }
  }

  lemma {:induction false} VisibleParts(paragraph: string)
    ensures VisibleAll(PartsOf(paragraph)) == Visible(paragraph)
  {
    if |paragraph| <= SECTION_TEXT_LIMIT {
      FlatMapOne(Visible, paragraph);
    } else {
      var lines := SplitLines(paragraph);
      VisibleLinesOf(paragraph);
      forall i | 0 <= i < |lines| ensures FlatMap(Visible, LinePieces(lines[i])) == Visible(lines[i]) {
        VisiblePieces(lines[i]);
      }
      FlatMapSame(Visible, LinePieces, lines);
    }
  }

  /** The visible characters of the sections are those of the text, in order. */
  lemma {:induction false} SectionsKeepVisibleText(text: string)
    ensures VisibleAll(Sections(text)) == Visible(text)
  {
    VisibleIgnoresLayout();
    ParagraphsKeep(Visible, text);
    SectionsKeep(Visible, text);
    var paragraphs := Paragraphs(text);
    forall i | 0 <= i < |paragraphs| ensures FlatMap(Visible, PartsOf(paragraphs[i])) == Visible(paragraphs[i]) {
      VisibleParts(paragraphs[i]);
    }
    FlatMapSame(Visible, PartsOf, paragraphs);
  }

  // --- what paragraphs and sections are, said of the text ---

  /** The texts with a blank line between each two. */
  function Spaced(texts: seq<string>): string {
    if texts == [] then "" else
      var n := |texts| - 1;
      if n == 0 then texts[0] else Spaced(texts[..n]) + "\n\n" + texts[n]
  }

  lemma {:induction false} SpacedSnoc(texts: seq<string>, text: string)
    requires texts != []
    ensures Spaced(texts + [text]) == Spaced(texts) + "\n\n" + text
  {
    assert (texts + [text])[..|texts|] == texts;
  }

  /** Packing only decides which blank lines separate sections. */
  lemma {:induction false} PackIsSpaced(parts: seq<string>)
    requires forall i :: 0 <= i < |parts| ==> parts[i] != ""
    ensures Spaced(Closed(Pack(parts))) == Spaced(parts)
    ensures parts != [] ==> Pack(parts).current != ""
    ensures parts == [] ==> Pack(parts) == Packing([], "")
  {
    if parts != [] {
      var front, part := parts[..|parts| - 1], parts[|parts| - 1];
      PackIsSpaced(front);
      assert front + [part] == parts;
      PushIsSpaced(Pack(front), part);
      if front != [] {
        SpacedSnoc(front, part);
      }
    }
  }

  lemma {:induction false} PushIsSpaced(p: Packing, part: string)
    requires part != "" && (p.current == "" ==> p.sections == [])
    ensures Spaced(Closed(Push(p, part))) == if p.current == "" then part else Spaced(Closed(p)) + "\n\n" + part
    ensures Push(p, part).current != ""
  {
    if p.current == "" {
      assert [] + [part] == [part];
    } else if |Joined(p.current, part)| <= SECTION_TEXT_LIMIT {
      if p.sections == [] {
        assert [] + [p.current] == [p.current] && [] + [Joined(p.current, part)] == [Joined(p.current, part)];
      } else {
        SpacedSnoc(p.sections, p.current);
        SpacedSnoc(p.sections, Joined(p.current, part));
        var front := Spaced(p.sections);
        assert front + "\n\n" + (p.current + "\n\n" + part) == front + "\n\n" + p.current + "\n\n" + part;
      }
    } else {
      SpacedSnoc(p.sections + [p.current], part);
    }
  }

  lemma {:induction false} ParagraphsVisible(paragraphs: seq<string>)
    ensures forall i :: 0 <= i < |FlatMap(TrimmedParagraph, paragraphs)| ==> FlatMap(TrimmedParagraph, paragraphs)[i] != ""
  {
    if paragraphs != [] {
      ParagraphsVisible(paragraphs[1..]);
    }
  }

  lemma {:induction false} ShortParagraphsStay(paragraphs: seq<string>)
    requires forall i :: 0 <= i < |paragraphs| ==> |paragraphs[i]| <= 3000
    ensures FlatMap(PartsOf, paragraphs) == paragraphs
  {
    if paragraphs != [] {
      ShortParagraphsStay(paragraphs[1..]);
    }
  }

  /** If every paragraph fits, the sections are the paragraphs, whole and in order, with a blank line between. */
  lemma {:induction false} SectionsAreParagraphs(text: string)
    requires forall i :: 0 <= i < |Paragraphs(text)| ==> |Paragraphs(text)[i]| <= 3000
    ensures Spaced(Sections(text)) == Spaced(Paragraphs(text))
  {
    ParagraphsVisible(SplitParagraphs(text));
    ShortParagraphsStay(Paragraphs(text));
    PackIsSpaced(Paragraphs(text));
  }

  lemma {:induction false} GapBehind(a: string, rest: string)
    requires Gap(a) == |a| && (a == "" || a[|a| - 1] != '\n')
    ensures Gap(a + ("\n\n" + rest)) == |a|
  {
    var s := a + ("\n\n" + rest);
    if a == "" {
      assert s == "\n\n" + rest;
    } else {
      assert s[1..] == a[1..] + ("\n\n" + rest);
      GapBehind(a[1..], rest);
    }
  }

  lemma {:induction false} GapInside(a: string, rest: string)
    requires Gap(a) < |a|
    ensures Gap(a + rest) == Gap(a)
  {
    if !(|a| > 1 && a[0] == '\n' && a[1] == '\n') {
      assert (a + rest)[1..] == a[1..] + rest;
      GapInside(a[1..], rest);
      assert |a| > 1;
    }
  }

  lemma {:induction false} NoGapInFront(a: string)
    requires a != "" && Gap(a) == |a|
    ensures Gap(a[..|a| - 1]) == |a| - 1
  {
    if |a| > 1 {
      NoGapInFront(a[1..]);
      assert a[1..][..|a| - 2] == a[..|a| - 1][1..];
    }
  }

  lemma {:induction false} NoTwoBreaks(a: string)
    ensures Gap(a) == |a| <==> forall i :: 0 <= i < |a| - 1 ==> !(a[i] == '\n' && a[i + 1] == '\n')
  {
    if a != "" {
      NoTwoBreaks(a[1..]);
      assert forall i :: 0 < i < |a| ==> a[i] == a[1..][i - 1];
    }
  }

  /** Breaks in front of a text belong to no paragraph. */
  lemma {:induction false} BreakInFront(b: string)
    ensures Paragraphs("\n" + b) == Paragraphs(b)
    decreases |b|, 1
  {
    if b != "" && b[0] == '\n' {
      var rest := b[1..];
      BreakInFront(rest);
      BreaksInFront(rest);
      hide Paragraphs, SkipBreaks;
      assert b == "\n" + rest;
      TwoBreaks(rest);
      assert "\n" + b == "\n\n" + rest;
    } else {
      OneBreak(b);
    }
  }

  lemma {:induction false} TwoBreaks(rest: string)
    ensures Paragraphs("\n\n" + rest) == Paragraphs(SkipBreaks(rest))
  {
    var s := "\n\n" + rest;
    assert Gap(s) == 0 && s[2..] == rest && s[..0] == "";
    SplitAtGap(s, 0);
    hide Paragraphs, SkipBreaks, Gap;
    assert TrimmedParagraph("") == [];
  }

  lemma {:induction false} OneBreak(b: string)
    requires b == "" || b[0] != '\n'
    ensures Paragraphs("\n" + b) == Paragraphs(b)
  {
    var s, p := "\n" + b, Gap(b);
    assert s[1..] == b;
    assert Gap(s) == 1 + p;
    hide Paragraphs, Gap;
    BreakTrimmed(b[..p]);
    assert s[..p + 1] == "\n" + b[..p];
    if p < |b| {
      assert s[p + 3..] == b[p + 2..];
      SplitAtGap(s, p + 1);
      SplitAtGap(b, p);
    } else {
      assert b[..p] == b;
      OneParagraph(s);
      OneParagraph(b);
    }
  }

  lemma {:induction false} BreakTrimmed(b: string)
    ensures TrimmedParagraph("\n" + b) == TrimmedParagraph(b)
  {
    TrimCons('\n', b);
    assert "\n" + b == ['\n'] + b;
    hide Trim;
  }

  lemma {:induction false} BreaksInFront(b: string)
    ensures Paragraphs(SkipBreaks(b)) == Paragraphs(b)
    decreases |b|, 0
  {
    if b != "" && b[0] == '\n' {
      assert b == "\n" + b[1..];
      BreaksInFront(b[1..]);
      BreakInFront(b[1..]);
    }
  }

  lemma {:induction false} SplitAtGap(s: string, p: nat)
    requires p == Gap(s) < |s|
    ensures Paragraphs(s) == TrimmedParagraph(s[..p]) + Paragraphs(SkipBreaks(s[p + 2..]))
  {
    FlatMapAppend(TrimmedParagraph, [s[..p]], SplitParagraphs(SkipBreaks(s[p + 2..])));
    FlatMapOne(TrimmedParagraph, s[..p]);
  }

  /** A text without a blank line is one paragraph, if anything is visible. */
  lemma {:induction false} OneParagraph(s: string)
    requires Gap(s) == |s|
    ensures Paragraphs(s) == TrimmedParagraph(s)
  {
    FlatMapOne(TrimmedParagraph, s);
  }

  lemma {:induction false} TwoParts(a: string, b: string)
    ensures Paragraphs(a + ("\n\n" + b)) == Paragraphs(a) + Paragraphs(b)
    decreases |a|
  {
    hide Paragraphs;
    if Gap(a) < |a| {
      var rest := a[Gap(a) + 2..];
      TwoParts(rest, b);
      GapInA(a, "\n\n" + b, rest, Paragraphs(b));
    } else if a != "" && a[|a| - 1] == '\n' {
      AfterBreak(a, b);
    } else {
      GapBetween(a, b);
    }
  }

  lemma {:induction false} SliceBehind(a: string, t: string, p: nat)
    requires p + 2 <= |a|
    ensures (a + t)[..p] == a[..p] && (a + t)[p + 2..] == a[p + 2..] + t
  {
  }

  /** A gap leaves the paragraph in front of it and the paragraphs behind it. */
  lemma {:induction false} AtGap(s: string, front: string, rest: string)
    requires Gap(s) < |s| && front == s[..Gap(s)] && rest == s[Gap(s) + 2..]
    ensures Paragraphs(s) == TrimmedParagraph(front) + Paragraphs(rest)
  {
    hide Paragraphs, Gap, SkipBreaks, TrimmedParagraph;
    SplitAtGap(s, Gap(s));
    BreaksInFront(rest);
  }

  lemma {:induction false} GapInA(a: string, t: string, rest: string, back: seq<string>)
    requires Gap(a) < |a| && rest == a[Gap(a) + 2..] && Paragraphs(rest + t) == Paragraphs(rest) + back
    ensures Paragraphs(a + t) == Paragraphs(a) + back
  {
    var front := a[..Gap(a)];
    GapInside(a, t);
    SliceBehind(a, t, Gap(a));
    hide Paragraphs, Gap, TrimmedParagraph;
    AtGap(a + t, front, rest + t);
    AtGap(a, front, rest);
    assert TrimmedParagraph(front) + (Paragraphs(rest) + back) == TrimmedParagraph(front) + Paragraphs(rest) + back;
  }

  lemma {:induction false} GapBetween(a: string, b: string)
    requires Gap(a) == |a| && (a == "" || a[|a| - 1] != '\n')
    ensures Paragraphs(a + ("\n\n" + b)) == Paragraphs(a) + Paragraphs(b)
  {
    var s := a + ("\n\n" + b);
    GapBehind(a, b);
    hide Paragraphs, Gap, SkipBreaks, TrimmedParagraph;
    assert s[..|a|] == a && s[|a| + 2..] == b;
    SplitAtGap(s, |a|);
    BreaksInFront(b);
    OneParagraph(a);
  }

  lemma {:induction false} AfterBreak(a: string, b: string)
    requires a != "" && Gap(a) == |a| && a[|a| - 1] == '\n'
    ensures Paragraphs(a + ("\n\n" + b)) == Paragraphs(a) + Paragraphs(b)
  {
    var front := a[..|a| - 1];
    NoTwoBreaks(a);
    NoGapInFront(a);
    assert front != "" ==> front[|front| - 1] == a[|a| - 2];
    hide Paragraphs, Gap;
    assert a == front + ['\n'];
    BehindFront(front, b);
    OneParagraph(a);
    TrimmedBreak(front);
    BreakMoves(front, b);
  }

  lemma {:induction false} BreakMoves(front: string, b: string)
    ensures front + ['\n'] + ("\n\n" + b) == front + ("\n\n" + ("\n" + b))
  {
  }

  lemma {:induction false} TrimmedBreak(front: string)
    ensures TrimmedParagraph(front + ['\n']) == TrimmedParagraph(front)
  {
    TrimSnoc(front, '\n');
    hide Trim;
  }

  lemma {:induction false} BehindFront(front: string, b: string)
    requires Gap(front) == |front| && (front == "" || front[|front| - 1] != '\n')
    ensures Paragraphs(front + ("\n\n" + ("\n" + b))) == TrimmedParagraph(front) + Paragraphs(b)
  {
    var s := front + ("\n\n" + ("\n" + b));
    GapBehind(front, "\n" + b);
    hide Paragraphs, Gap;
    assert s[..|front|] == front && s[|front| + 2..] == "\n" + b;
    SplitAtGap(s, |front|);
    BreaksInFront("\n" + b);
    BreakInFront(b);
  }

  /** Paragraphs are what blank lines separate: a text without one is a single paragraph, trimmed, if visible, and
      putting a blank line between two texts puts their paragraphs one after the other. */
  lemma {:induction false} ParagraphsAre(a: string, b: string)
    ensures Paragraphs(a + "\n\n" + b) == Paragraphs(a) + Paragraphs(b)
    ensures (forall i :: 0 <= i < |a| - 1 ==> !(a[i] == '\n' && a[i + 1] == '\n')) ==>
      Paragraphs(a) == if Trim(a) == "" then [] else [Trim(a)]
  {
    TwoParts(a, b);
    assert a + "\n\n" + b == a + ("\n\n" + b);
    NoTwoBreaks(a);
    if Gap(a) == |a| {
      OneParagraph(a);
    }
  }
}
