/** Building the blocks of a Slack message: every line of the text is shown once, in order. */
module SlackBlocks {
  import opened Text
  import opened Lists
  import opened VisibleLines
  import opened SlackSections

  /** A text section, or a bullet list given by its bullet lines. */
  datatype Block = SectionBlock(text: string) | ListBlock(items: seq<string>)

  predicate IsBullet(line: string) {
    |line| >= 2 && line[0] == '-' && line[1] == ' '
  }

  /** The lines a block shows. */
  function LinesShown(block: Block): seq<string> {
    match block
    case SectionBlock(text) => SplitLines(text)
    case ListBlock(items) => items
  }

  function AllShown(blocks: seq<Block>): seq<string> {
    FlatMap(LinesShown, blocks)
  }

  // --- grouping the lines of one paragraph ---

  /** A block of one kind of line, and at least one. */
  ghost predicate Homogeneous(block: Block) {
    && LinesShown(block) != []
    && forall i :: 0 <= i < |LinesShown(block)| ==> (IsBullet(LinesShown(block)[i]) <==> block.ListBlock?)
  }

  /** Maximal groups: neighbours are of different kinds. */
  ghost predicate Grouped(blocks: seq<Block>) {
    && (forall i :: 0 <= i < |blocks| ==> Homogeneous(blocks[i]))
    && (forall i :: 0 < i < |blocks| ==> blocks[i - 1].ListBlock? != blocks[i].ListBlock?)
  }

  ghost predicate AllBullets(lines: seq<string>, bullets: bool) {
    forall i :: 0 <= i < |lines| ==> IsBullet(lines[i]) == bullets
  }

  /** The blocks so far, followed by a block for the lines still buffered. */
  function Flushed(blocks: seq<Block>, buffer: seq<string>, bullets: bool): seq<Block> {
    if buffer == [] then blocks
    else if bullets then blocks + [ListBlock(buffer)]
    else blocks + [SectionBlock(JoinLines(buffer))]
  }

  /** What flushing a buffer behind grouped blocks gives. */
  lemma {:induction false} FlushKeepsLines(blocks: seq<Block>, buffer: seq<string>, bullets: bool)
    requires Grouped(blocks) && AllBullets(buffer, bullets) && AllOneLine(buffer)
    requires blocks != [] && buffer != [] ==> blocks[|blocks| - 1].ListBlock? != bullets
    ensures AllShown(Flushed(blocks, buffer, bullets)) == AllShown(blocks) + buffer
    ensures Grouped(Flushed(blocks, buffer, bullets))
    ensures buffer != [] ==>
      var all := Flushed(blocks, buffer, bullets);
      all != [] && all[|all| - 1].ListBlock? == bullets
  {
    if buffer != [] {
      var block := if bullets then ListBlock(buffer) else SectionBlock(JoinLines(buffer));
      SplitJoined(buffer);
      FlatMapSnoc(LinesShown, blocks, block);
      assert Homogeneous(block);
    } else {
      assert AllShown(blocks) + [] == AllShown(blocks);
    }
  }

  /** The blocks and buffers after the lines `done`: at most one buffer is in use. */
  ghost predicate Buffered(blocks: seq<Block>, plain: seq<string>, bullets: seq<string>, done: seq<string>) {
    && Grouped(blocks)
    && AllBullets(plain, false) && AllOneLine(plain) && AllBullets(bullets, true) && AllOneLine(bullets)
    && (plain == [] || bullets == [])
    && (blocks != [] ==>
         && (plain != [] || bullets != [])
         && blocks[|blocks| - 1].ListBlock? == (plain != []))
    && AllShown(blocks) + plain + bullets == done
  }

  lemma {:induction false} BufferBullet(blocks: seq<Block>, plain: seq<string>, bullets: seq<string>, done: seq<string>,
                                        line: string)
    requires Buffered(blocks, plain, bullets, done) && IsBullet(line) && OneLine(line)
    ensures Buffered(Flushed(blocks, plain, false), [], bullets + [line], done + [line])
  {
    FlushKeepsLines(blocks, plain, false);
    assert AllShown(blocks) + plain + [] + (bullets + [line]) == AllShown(blocks) + plain + bullets + [line];
  }

  lemma {:induction false} BufferPlain(blocks: seq<Block>, plain: seq<string>, bullets: seq<string>, done: seq<string>,
                                       line: string)
    requires Buffered(blocks, plain, bullets, done) && !IsBullet(line) && OneLine(line)
    ensures Buffered(Flushed(blocks, bullets, true), plain + [line], [], done + [line])
  {
    FlushKeepsLines(blocks, bullets, true);
    PlainBehind(AllShown(blocks), plain, bullets, line);
  }

  lemma {:induction false} PlainBehind(shown: seq<string>, plain: seq<string>, bullets: seq<string>, line: string)
    requires plain == [] || bullets == []
    ensures shown + bullets + (plain + [line]) + [] == shown + plain + bullets + [line]
  {
    if plain == [] {
      assert shown + plain == shown;
    } else {
      assert shown + bullets == shown;
    }
  }

  lemma {:induction false} BufferEnd(blocks: seq<Block>, plain: seq<string>, bullets: seq<string>, done: seq<string>)
    requires Buffered(blocks, plain, bullets, done)
    ensures
      var all := Flushed(Flushed(blocks, plain, false), bullets, true);
      AllShown(all) == done && Grouped(all)
  {
    FlushKeepsLines(blocks, plain, false);
    FlushKeepsLines(Flushed(blocks, plain, false), bullets, true);
  }

  /** The lines of a paragraph as maximal groups of bullets and of other lines, in order. */
  method GroupLines(lines: seq<string>) returns (blocks: seq<Block>)
    requires AllOneLine(lines)
    ensures AllShown(blocks) == lines
    ensures Grouped(blocks)
  {
    blocks := [];
    var paragraphBuffer: seq<string>, bulletBuffer: seq<string> := [], [];
    for i := 0 to |lines|
      invariant Buffered(blocks, paragraphBuffer, bulletBuffer, lines[..i])
    {
      var line := lines[i];
      assert OneLine(line) && lines[..i + 1] == lines[..i] + [line];
      if IsBullet(line) {
        BufferBullet(blocks, paragraphBuffer, bulletBuffer, lines[..i], line);
        blocks := Flushed(blocks, paragraphBuffer, false);
        paragraphBuffer, bulletBuffer := [], bulletBuffer + [line];
      } else {
        BufferPlain(blocks, paragraphBuffer, bulletBuffer, lines[..i], line);
        blocks := Flushed(blocks, bulletBuffer, true);
        paragraphBuffer, bulletBuffer := paragraphBuffer + [line], [];
      }
    }
    assert lines[..|lines|] == lines;
    BufferEnd(blocks, paragraphBuffer, bulletBuffer, lines);
    blocks := Flushed(blocks, paragraphBuffer, false);
    blocks := Flushed(blocks, bulletBuffer, true);
  }

  // --- the lines of a text, wrapped ---

  /** A trimmed line as it is sent: itself, or its pieces when it is longer than a section. */
  function WrapLine(line: string): seq<string> {
    Chunks(line, SECTION_TEXT_LIMIT)
  }

  function WrappedLines(text: string): seq<string> {
    FlatMap(WrapLine, LinesOf(text))
  }

  lemma {:induction false} FusionSame<B>(g: string -> seq<B>, f: string -> seq<string>, k: string -> seq<B>,
                                         h: string -> seq<string>, xs: seq<string>)
    requires forall i :: 0 <= i < |xs| ==> FlatMap(g, f(xs[i])) == FlatMap(k, h(xs[i]))
    ensures FlatMap(g, FlatMap(f, xs)) == FlatMap(k, FlatMap(h, xs))
  {
    if xs != [] {
      assert FlatMap(g, f(xs[0])) == FlatMap(k, h(xs[0]));
      FusionSame(g, f, k, h, xs[1..]);
      FlatMapAppend(g, f(xs[0]), FlatMap(f, xs[1..]));
      FlatMapAppend(k, h(xs[0]), FlatMap(h, xs[1..]));
    }
  }

  lemma {:induction false} ShortLinesStay(lines: seq<string>)
    requires forall i :: 0 <= i < |lines| ==> 0 < |lines[i]| <= SECTION_TEXT_LIMIT
    ensures FlatMap(WrapLine, lines) == lines
  {
    if lines != [] {
      ShortLinesStay(lines[1..]);
      assert WrapLine(lines[0]) == [lines[0]];
    }
  }

  lemma {:induction false} SplitShrinks(s: string)
    ensures forall i :: 0 <= i < |SplitLines(s)| ==> |SplitLines(s)[i]| <= |s|
  {
    if s != "" {
      SplitShrinks(s[1..]);
    }
  }

  lemma {:induction false} TrimmedShort(lines: seq<string>, max: nat)
    requires forall i :: 0 <= i < |lines| ==> |lines[i]| <= max
    ensures forall i :: 0 <= i < |FlatMap(TrimmedLine, lines)| ==> 0 < |FlatMap(TrimmedLine, lines)[i]| <= max
  {
    if lines != [] {
      TrimmedShort(lines[1..], max);
      TrimShrinks(lines[0]);
    }
  }

  lemma {:induction false} ShortTextStays(text: string)
    requires |text| <= SECTION_TEXT_LIMIT
    ensures WrappedLines(text) == LinesOf(text)
  {
    SplitShrinks(text);
    TrimmedShort(SplitLines(text), SECTION_TEXT_LIMIT);
    ShortLinesStay(LinesOf(text));
  }

  /** Cutting and trimming one line gives trimmed, visible pieces on one line each. */
  ghost predicate IsPiece(s: string) {
    s != "" && IsTrimmed(s) && OneLine(s)
  }

  lemma {:induction false} TrimOneLine(s: string)
    requires OneLine(s)
    ensures OneLine(Trim(s))
  {
    TrimStartPart(s);
    TrimEndPart(TrimStart(s));
  }

  lemma {:induction false} ChunksArePieces(remaining: string)
    requires IsTrimmed(remaining) && OneLine(remaining)
    ensures forall i :: 0 <= i < |WrapLine(remaining)| ==> IsPiece(WrapLine(remaining)[i])
    decreases |remaining|
  {
    if |remaining| > SECTION_TEXT_LIMIT {
      var cut := CutAt(remaining, SECTION_TEXT_LIMIT);
      var front, back := remaining[..cut], remaining[cut..];
      TrimOneLine(front);
      TrimOneLine(back);
      TrimShrinks(back);
      VisibleFront(front);
      TrimShrinks(front);
      ChunksArePieces(Trim(back));
      assert IsPiece(Trim(front));
      assert WrapLine(remaining) == [Trim(front)] + WrapLine(Trim(back));
    }
  }

  lemma {:induction false} VisibleFront(front: string)
    requires front != "" && !IsSpace(front[0])
    ensures Trim(front) != ""
  {
    VisibleTrim(front);
    assert Visible(front) == VisibleChar(front[0]) + Visible(front[1..]);
    assert Visible("") == "";
  }

  lemma {:induction false} LinesOfPieces(pieces: seq<string>)
    requires forall i :: 0 <= i < |pieces| ==> IsPiece(pieces[i])
    ensures FlatMap(LinesOf, pieces) == pieces
  {
    if pieces != [] {
      assert IsPiece(pieces[0]);
      LinesOfPieces(pieces[1..]);
      LinesOfLine(pieces[0]);
      TrimOfTrimmed(pieces[0]);
    }
  }

  lemma {:induction false} LinePiecesWrap(line: string)
    requires OneLine(line)
    ensures FlatMap(LinesOf, LinePieces(line)) == FlatMap(WrapLine, TrimmedLine(line))
  {
    TrimShrinks(line);
    TrimOneLine(line);
    if |line| <= SECTION_TEXT_LIMIT {
      FlatMapOne(LinesOf, line);
      LinesOfLine(line);
      ShortLinesStay(TrimmedLine(line));
    } else {
      ChunksArePieces(Trim(line));
      LinesOfPieces(WrapLine(Trim(line)));
      FlatMapOne(WrapLine, Trim(line));
    }
  }

  lemma {:induction false} PartsWrap(paragraph: string)
    ensures FlatMap(LinesOf, PartsOf(paragraph)) == WrappedLines(paragraph)
  {
    if |paragraph| <= SECTION_TEXT_LIMIT {
      FlatMapOne(LinesOf, paragraph);
      ShortTextStays(paragraph);
    } else {
      var lines := SplitLines(paragraph);
      SplitIsOneLine(paragraph);
      forall i | 0 <= i < |lines|
        ensures FlatMap(LinesOf, LinePieces(lines[i])) == FlatMap(WrapLine, TrimmedLine(lines[i]))
      {
        LinePiecesWrap(lines[i]);
      }
      FusionSame(LinesOf, LinePieces, WrapLine, TrimmedLine, lines);
    }
  }

  // --- paragraphs and sections keep the lines ---

  lemma {:induction false} LinesSkipBreaks(s: string)
    ensures LinesOf(SkipBreaks(s)) == LinesOf(s)
  {
    if s != "" && s[0] == '\n' {
      LinesSkipBreaks(s[1..]);
      LinesAfterBreak(s[1..]);
      assert s == ['\n'] + s[1..];
    }
  }

  lemma {:induction false} LinesAcrossGap(a: string, b: string)
    ensures LinesOf(Joined(a, b)) == LinesOf(a) + LinesOf(b)
  {
    LinesConcat(a, ['\n'] + b);
    LinesAfterBreak(b);
    assert a + "\n" + (['\n'] + b) == Joined(a, b);
  }

  lemma {:induction false} LinesAddUp()
    ensures AddsUp(LinesOf)
  {
    forall a, b ensures LinesOf(Joined(a, b)) == LinesOf(a) + LinesOf(b) {
      LinesAcrossGap(a, b);
    }
  }

  lemma {:induction false} LinesIgnoreTrim()
    ensures IgnoresTrim(LinesOf)
  {
    forall s ensures LinesOf(Trim(s)) == LinesOf(s) {
      LinesTrim(s);
    }
  }

  lemma {:induction false} LinesIgnoreBreaks()
    ensures IgnoresBreaks(LinesOf)
  {
    forall s ensures LinesOf(SkipBreaks(s)) == LinesOf(s) {
      LinesSkipBreaks(s);
    }
  }

  lemma {:induction false} LinesIgnoreLayout()
    ensures IgnoresLayout(LinesOf)
  {
    LinesAddUp();
    LinesIgnoreTrim();
    LinesIgnoreBreaks();
    NoLines();
  }

  /** The sections have exactly the wrapped lines of the text. */
  lemma {:induction false} LinesOfSections(text: string)
    ensures FlatMap(LinesOf, Sections(text)) == WrappedLines(text)
  {
    var paragraphs := Paragraphs(text);
    LinesIgnoreLayout();
    ParagraphsKeep(LinesOf, text);
    SectionsKeep(LinesOf, text);
    forall i | 0 <= i < |paragraphs|
      ensures FlatMap(LinesOf, PartsOf(paragraphs[i])) == FlatMap(WrapLine, LinesOf(paragraphs[i]))
    {
      PartsWrap(paragraphs[i]);
    }
    FusionSame(LinesOf, PartsOf, WrapLine, LinesOf, paragraphs);
  }

  // --- the source's builder ---

  lemma {:induction false} LinesAreOneLine(text: string)
    ensures AllOneLine(LinesOf(text))
  {
    SplitIsOneLine(text);
    TrimmedAreOneLine(SplitLines(text));
  }

  lemma {:induction false} TrimmedAreOneLine(lines: seq<string>)
    requires AllOneLine(lines)
    ensures AllOneLine(FlatMap(TrimmedLine, lines))
  {
    if lines != [] {
      assert OneLine(lines[0]);
      TrimOneLine(lines[0]);
      TrimmedAreOneLine(lines[1..]);
    }
  }

  lemma {:induction false} ShowMore(blocks: seq<Block>, group: seq<Block>, texts: seq<string>, i: nat)
    requires i < |texts|
    requires AllShown(blocks) == FlatMap(LinesOf, texts[..i]) && AllShown(group) == LinesOf(texts[i])
    ensures AllShown(blocks + group) == FlatMap(LinesOf, texts[..i + 1])
  {
    assert texts[..i + 1] == texts[..i] + [texts[i]];
    FlatMapSnoc(LinesOf, texts[..i], texts[i]);
    FlatMapAppend(LinesShown, blocks, group);
  }

  method BuildSectionBlocks(section: string) returns (blocks: seq<Block>)
    ensures AllShown(blocks) == LinesOf(section)
  {
    blocks := [];
    var paragraphs := Paragraphs(section);
    for j := 0 to |paragraphs|
      invariant AllShown(blocks) == FlatMap(LinesOf, paragraphs[..j])
    {
      LinesAreOneLine(paragraphs[j]);
      var group := GroupLines(LinesOf(paragraphs[j]));
      ShowMore(blocks, group, paragraphs, j);
      blocks := blocks + group;
    }
    assert paragraphs[..|paragraphs|] == paragraphs;
    LinesIgnoreLayout();
    ParagraphsKeep(LinesOf, section);
  }

  /** Every non-blank line of the text is shown once and in order, long ones wrapped. */
  method BuildSlackBlocks(text: string) returns (blocks: seq<Block>)
    ensures AllShown(blocks) == WrappedLines(text)
  {
    blocks := [];
    var sections := SplitSections(text);
    for i := 0 to |sections|
      invariant AllShown(blocks) == FlatMap(LinesOf, sections[..i])
    {
      var group := BuildSectionBlocks(sections[i]);
      ShowMore(blocks, group, sections, i);
      blocks := blocks + group;
    }
    assert sections[..|sections|] == sections;
    LinesOfSections(text);
  }

  /** Without over-long lines, the wrapped lines are the text's lines themselves. */
  lemma {:induction false} NoLongLines(text: string)
    requires forall i :: 0 <= i < |SplitLines(text)| ==> |SplitLines(text)[i]| <= SECTION_TEXT_LIMIT
    ensures WrappedLines(text) == LinesOf(text)
  {
    TrimmedShort(SplitLines(text), SECTION_TEXT_LIMIT);
    ShortLinesStay(LinesOf(text));
  }
}
