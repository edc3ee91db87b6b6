/** The inline markup parser behind Slack's rich text lists. */
module RichText {
  datatype Style = Style(bold: bool, code: bool)

  datatype Element = TextElement(text: string, style: Style) | LinkElement(url: string, text: string, style: Style)

  // --- the markup ---

  /** A stretch of text, a code span, a bold span with markup inside, or a link. */
  datatype Token = Plain(text: string) | Code(text: string) | Bold(inner: Tokens) | Link(url: string, caption: string)

  datatype Tokens = End | Next(head: Token, tail: Tokens)

  /** The text a list of tokens is written as. */
  function Unparse(tokens: Tokens): string {
    match tokens
    case End => ""
    case Next(head, tail) => UnparseToken(head) + Unparse(tail)
  }

  function UnparseToken(token: Token): string {
    match token
    case Plain(text) => text
    case Code(text) => "`" + text + "`"
    case Bold(inner) => "*" + Unparse(inner) + "*"
    case Link(url, caption) => "<" + url + "|" + caption + ">"
  }

  /** What the tokens show: spans without their delimiters, links without an address dropped. */
  function Elements(tokens: Tokens, style: Style): seq<Element> {
    match tokens
    case End => []
    case Next(head, tail) => ElementsOf(head, style) + Elements(tail, style)
  }

  function ElementsOf(token: Token, style: Style): seq<Element> {
    match token
    case Plain(text) => if text == "" then [] else [TextElement(text, style)]
    case Code(text) => if text == "" then [] else [TextElement(text, style.(code := true))]
    case Bold(inner) => Elements(inner, style.(bold := true))
    case Link(url, caption) => if url == "" then [] else [LinkElement(url, caption, style)]
  }

  // --- reading the markup ---

  /** The position of a character, or the length of the text. */
  function Find(s: string, c: char): (i: nat)
    ensures i <= |s|
    ensures i < |s| ==> s[i] == c
  {
    if s == "" || s[0] == c then 0 else 1 + Find(s[1..], c)
  }

  predicate IsSpecial(c: char) {
    c == '`' || c == '*' || c == '<'
  }

  function NextSpecial(s: string): (i: nat)
    ensures i <= |s|
    ensures i < |s| ==> IsSpecial(s[i])
  {
    if s == "" || IsSpecial(s[0]) then 0 else 1 + NextSpecial(s[1..])
  }

  /** A delimiter that is closed later, with something in between. */
  predicate ClosesSpan(rest: string, c: char) {
    0 < Find(rest, c) < |rest|
  }

  predicate ClosesLink(rest: string) {
    Find(rest, '|') < Find(rest, '>') < |rest|
  }

  /** The first token of a text and the number of characters it takes. */
  datatype Step = Step(token: Token, width: nat)

  function FirstToken(text: string): (step: Step)
    requires text != ""
    ensures 0 < step.width <= |text|
    decreases |text|, 0
  {
    var c, rest := text[0], text[1..];
    if c == '`' && ClosesSpan(rest, c) then Step(Code(rest[..Find(rest, c)]), Find(rest, c) + 2)
    else if c == '*' && ClosesSpan(rest, c) then
      Step(Bold(Tokenize(rest[..Find(rest, c)])), Find(rest, c) + 2)
    else if c == '<' && ClosesLink(rest) then
      Step(Link(rest[..Find(rest, '|')], rest[Find(rest, '|') + 1..Find(rest, '>')]), Find(rest, '>') + 2)
    else if NextSpecial(text) > 0 then Step(Plain(text[..NextSpecial(text)]), NextSpecial(text))
    else Step(Plain([c]), 1)
  }

  function Tokenize(text: string): Tokens
    decreases |text|, 1
  {
    if text == "" then End else
      var step := FirstToken(text);
      Next(step.token, Tokenize(text[step.width..]))
  }

  // --- every character is accounted for ---

  lemma {:induction false} TokenWritesItsText(text: string)
    requires text != ""
    ensures UnparseToken(FirstToken(text).token) == text[..FirstToken(text).width]
    decreases |text|, 0
  {
    var c, rest := text[0], text[1..];
    if c == '*' && ClosesSpan(rest, c) {
      UnparseTokenize(rest[..Find(rest, c)]);
      SpanText(text);
    } else if c == '`' && ClosesSpan(rest, c) {
      SpanText(text);
    } else if c == '<' && ClosesLink(rest) {
      LinkText(text);
    }
  }

  lemma {:induction false} SpanText(text: string)
    requires text != "" && ClosesSpan(text[1..], text[0])
    ensures
      var rest := text[1..];
      [text[0]] + rest[..Find(rest, text[0])] + [text[0]] == text[..Find(rest, text[0]) + 2]
  {
  }

  lemma {:induction false} LinkText(text: string)
    requires text != "" && text[0] == '<' && ClosesLink(text[1..])
    ensures
      var rest := text[1..];
      var p, e := Find(rest, '|'), Find(rest, '>');
      "<" + rest[..p] + "|" + rest[p + 1..e] + ">" == text[..e + 2]
  {
  }

  /** Writing out what was read gives the text back: only delimiters and addresses are not shown. */
  lemma {:induction false} UnparseTokenize(text: string)
    ensures Unparse(Tokenize(text)) == text
    decreases |text|, 1
  {
    if text != "" {
      var w := FirstToken(text).width;
      TokenWritesItsText(text);
      UnparseTokenize(text[w..]);
      assert text == text[..w] + text[w..];
    }
  }

  /** Text without markup is shown as it is. */
  lemma {:induction false} PlainTextIsKept(text: string, style: Style)
    requires forall i :: 0 <= i < |text| ==> !IsSpecial(text[i])
    ensures Elements(Tokenize(text), style) == if text == "" then [] else [TextElement(text, style)]
  {
    if text != "" {
      assert NextSpecial(text) == |text|;
      assert text[..|text|] == text && text[|text|..] == "";
    }
  }

  // --- reading back what was written ---

  /** A markup character that opens nothing in front of `back`. */
  predicate IsUnpaired(c: char, back: string) {
    IsSpecial(c) && if c == '<' then !ClosesLink(back) else !ClosesSpan(back, c)
  }

  ghost predicate IsOrdinary(text: string) {
    forall i :: 0 <= i < |text| ==> !IsSpecial(text[i])
  }

  /** Tokens a writer can produce: a markup character is a delimiter or, where nothing closes it, literal
      text of its own; ordinary text reaches up to the next markup character. */
  ghost predicate Written(tokens: Tokens) {
    match tokens
    case End => true
    case Next(head, tail) => WrittenToken(head, Unparse(tail)) && Written(tail)
  }

  ghost predicate WrittenToken(token: Token, back: string) {
    match token
    case Plain(text) =>
      || (text != "" && IsOrdinary(text) && (back == "" || IsSpecial(back[0])))
      || (|text| == 1 && IsUnpaired(text[0], back))
    case Code(text) => text != "" && '`' !in text
    case Bold(inner) => !inner.End? && Written(inner) && '*' !in Unparse(inner)
    case Link(url, caption) => '|' !in url && '>' !in url && '>' !in caption
  }

  lemma {:induction false} FindAt(front: string, c: char, back: string)
    requires c !in front && (back == "" || back[0] == c)
    ensures Find(front + back, c) == |front|
  {
    if front == "" {
      assert front + back == back;
    } else {
      assert (front + back)[1..] == front[1..] + back;
      FindAt(front[1..], c, back);
    }
  }

  lemma {:induction false} NextSpecialAt(front: string, back: string)
    requires forall i :: 0 <= i < |front| ==> !IsSpecial(front[i])
    requires back == "" || IsSpecial(back[0])
    ensures NextSpecial(front + back) == |front|
  {
    if front == "" {
      assert front + back == back;
    } else {
      assert (front + back)[1..] == front[1..] + back;
      NextSpecialAt(front[1..], back);
    }
  }

  lemma {:induction false} WrittenIsVisible(token: Token, back: string)
    requires WrittenToken(token, back)
    ensures UnparseToken(token) != ""
  {
  }

  lemma {:induction false} CodeReadBack(text: string, back: string)
    requires text != "" && '`' !in text
    ensures FirstToken("`" + text + "`" + back) == Step(Code(text), |text| + 2)
  {
    var s := "`" + text + "`" + back;
    var rest := s[1..];
    assert rest == text + ("`" + back);
    FindAt(text, '`', "`" + back);
    assert rest[..|text|] == text;
  }

  lemma {:induction false} BoldReadBack(inner: Tokens, back: string)
    requires Unparse(inner) != "" && '*' !in Unparse(inner) && Tokenize(Unparse(inner)) == inner
    ensures FirstToken("*" + Unparse(inner) + "*" + back) == Step(Bold(inner), |Unparse(inner)| + 2)
  {
    var text := Unparse(inner);
    var s := "*" + text + "*" + back;
    var rest := s[1..];
    assert rest == text + ("*" + back);
    FindAt(text, '*', "*" + back);
    assert rest[..|text|] == text;
  }

  lemma {:induction false} LinkReadBack(url: string, caption: string, back: string)
    requires '|' !in url && '>' !in url && '>' !in caption
    ensures FirstToken("<" + url + "|" + caption + ">" + back) == Step(Link(url, caption), |url| + |caption| + 3)
  {
    var s := "<" + url + "|" + caption + ">" + back;
    var rest := s[1..];
    assert rest == url + "|" + caption + ">" + back;
    LinkParts(url, caption, back);
    assert rest[..|url|] == url && rest[|url| + 1..|url| + 1 + |caption|] == caption;
  }

  lemma {:induction false} LinkParts(url: string, caption: string, back: string)
    requires '|' !in url && '>' !in url && '>' !in caption
    ensures
      var rest := url + "|" + caption + ">" + back;
      Find(rest, '|') == |url| && Find(rest, '>') == |url| + 1 + |caption|
  {
    var rest := url + "|" + caption + ">" + back;
    var body := url + "|" + caption;
    assert rest == url + ("|" + caption + ">" + back);
    FindAt(url, '|', "|" + caption + ">" + back);
    assert rest == body + (">" + back);
    FindAt(body, '>', ">" + back);
  }

  lemma {:induction false} PlainReadBack(text: string, back: string)
    requires text != "" && IsOrdinary(text) && (back == "" || IsSpecial(back[0]))
    ensures FirstToken(text + back) == Step(Plain(text), |text|)
  {
    NextSpecialAt(text, back);
    assert (text + back)[0] == text[0] && !IsSpecial(text[0]);
    assert (text + back)[..|text|] == text;
  }

  /** An unpaired markup character is literal text. */
  lemma {:induction false} UnpairedReadBack(c: char, back: string)
    requires IsUnpaired(c, back)
    ensures FirstToken([c] + back) == Step(Plain([c]), 1)
  {
    assert ([c] + back)[1..] == back;
  }

  lemma {:induction false} TokenReadBack(token: Token, back: string)
    requires WrittenToken(token, back)
    requires token.Bold? ==> Tokenize(Unparse(token.inner)) == token.inner
    ensures FirstToken(UnparseToken(token) + back) == Step(token, |UnparseToken(token)|)
  {
    match token
    case Plain(text) =>
      if IsOrdinary(text) {
        PlainReadBack(text, back);
      } else {
        UnpairedReadBack(text[0], back);
        assert [text[0]] == text;
      }
    case Code(text) => CodeReadBack(text, back);
    case Bold(inner) => BoldReadBack(inner, back);
    case Link(url, caption) => LinkReadBack(url, caption, back);
  }

  lemma {:induction false} WrittenIsReadBack(tokens: Tokens)
    requires Written(tokens)
    ensures Tokenize(Unparse(tokens)) == tokens
    decreases tokens
  {
    if tokens.Next? {
      var head, tail := tokens.head, tokens.tail;
      var own, back := UnparseToken(head), Unparse(tail);
      WrittenIsReadBack(tail);
      if head.Bold? {
        WrittenIsReadBack(head.inner);
      }
      WrittenIsVisible(head, back);
      TokenReadBack(head, back);
      assert (own + back)[|own|..] == back;
    }
  }

  lemma {:induction false} NotBefore(s: string, c: char)
    ensures c !in s[..Find(s, c)]
  {
    if s != "" && s[0] != c {
      NotBefore(s[1..], c);
      assert s[..Find(s, c)] == [s[0]] + s[1..][..Find(s[1..], c)];
    }
  }

  lemma {:induction false} OrdinaryBefore(s: string)
    ensures IsOrdinary(s[..NextSpecial(s)])
  {
    if s != "" && !IsSpecial(s[0]) {
      OrdinaryBefore(s[1..]);
      assert s[..NextSpecial(s)] == [s[0]] + s[1..][..NextSpecial(s[1..])];
    }
  }

  lemma {:induction false} LinkIsWritten(rest: string)
    requires ClosesLink(rest)
    ensures
      var p, e := Find(rest, '|'), Find(rest, '>');
      WrittenToken(Link(rest[..p], rest[p + 1..e]), rest[e + 1..])
  {
    var p, e := Find(rest, '|'), Find(rest, '>');
    NotBefore(rest, '|');
    NotBefore(rest, '>');
    assert forall i :: 0 <= i < e ==> rest[..e][i] == rest[i];
  }

  lemma {:induction false} BoldIsWritten(rest: string)
    requires ClosesSpan(rest, '*') && Written(Tokenize(rest[..Find(rest, '*')]))
    ensures WrittenToken(Bold(Tokenize(rest[..Find(rest, '*')])), rest[Find(rest, '*') + 1..])
  {
    NotBefore(rest, '*');
    UnparseTokenize(rest[..Find(rest, '*')]);
  }

  lemma {:induction false} FirstIsWritten(text: string)
    requires text != ""
    requires text[0] == '*' && ClosesSpan(text[1..], '*') ==> Written(Tokenize(text[1..][..Find(text[1..], '*')]))
    ensures WrittenToken(FirstToken(text).token, text[FirstToken(text).width..])
  {
    var c, rest := text[0], text[1..];
    if c == '`' && ClosesSpan(rest, c) {
      NotBefore(rest, c);
    } else if c == '*' && ClosesSpan(rest, c) {
      BoldIsWritten(rest);
    } else if c == '<' && ClosesLink(rest) {
      LinkIsWritten(rest);
    } else if NextSpecial(text) > 0 {
      OrdinaryBefore(text);
    }
  }

  /** What is read from any text could have been written. */
  lemma {:induction false} ReadIsWritten(text: string)
    ensures Written(Tokenize(text))
    decreases |text|
  {
    if text != "" {
      var step, rest := FirstToken(text), text[1..];
      if text[0] == '*' && ClosesSpan(rest, '*') {
        ReadIsWritten(rest[..Find(rest, '*')]);
      }
      FirstIsWritten(text);
      ReadIsWritten(text[step.width..]);
      UnparseTokenize(text[step.width..]);
    }
  }

  /** Tokens are read back from their text if and only if each markup character among them is a delimiter
      or has nothing that closes it. */
  lemma {:induction false} TokenizeUnparse(tokens: Tokens)
    ensures Tokenize(Unparse(tokens)) == tokens <==> Written(tokens)
  {
    if Written(tokens) {
      WrittenIsReadBack(tokens);
    }
    ReadIsWritten(Unparse(tokens));
  }

  // --- the source's parser ---

  predicate Shows(element: Element) {
    match element
    case TextElement(text, _) => text != ""
    case LinkElement(url, _, _) => url != ""
  }

  /** `elements.filter(...)` */
  function Shown(elements: seq<Element>): seq<Element> {
    if elements == [] then []
    else (if Shows(elements[0]) then [elements[0]] else []) + Shown(elements[1..])
  }

  // --- what markup shows ---

  /** The elements a text is shown as. */
  function Displayed(text: string, style: Style): seq<Element> {
    Elements(Tokenize(text), style)
  }

  lemma {:induction false} FirstThenRest(text: string, back: string, token: Token, style: Style)
    requires text != "" && FirstToken(text + back) == Step(token, |text|)
    ensures Displayed(text + back, style) == ElementsOf(token, style) + Displayed(back, style)
  {
    assert (text + back)[|text|..] == back;
  }

  lemma {:induction false} PairIsCode(text: string, rest: string, style: Style)
    requires text != "" && '`' !in text
    ensures Displayed("`" + text + "`" + rest, style) == [TextElement(text, style.(code := true))] + Displayed(rest, style)
  {
    CodeReadBack(text, rest);
    FirstThenRest("`" + text + "`", rest, Code(text), style);
  }

  lemma {:induction false} PairIsBold(text: string, rest: string, style: Style)
    requires text != "" && '*' !in text
    ensures Displayed("*" + text + "*" + rest, style) == Displayed(text, style.(bold := true)) + Displayed(rest, style)
  {
    var s := "*" + text + "*" + rest;
    var inner := s[1..];
    assert inner == text + ("*" + rest);
    FindAt(text, '*', "*" + rest);
    assert inner[..|text|] == text;
    assert FirstToken(s) == Step(Bold(Tokenize(text)), |text| + 2);
    FirstThenRest("*" + text + "*", rest, Bold(Tokenize(text)), style);
  }

  lemma {:induction false} AngleIsLink(url: string, caption: string, rest: string, style: Style)
    requires '|' !in url && '>' !in url && '>' !in caption
    ensures Displayed("<" + url + "|" + caption + ">" + rest, style)
         == (if url == "" then [] else [LinkElement(url, caption, style)]) + Displayed(rest, style)
  {
    LinkReadBack(url, caption, rest);
    FirstThenRest("<" + url + "|" + caption + ">", rest, Link(url, caption), style);
  }

  lemma {:induction false} OrdinaryIsText(text: string, rest: string, style: Style)
    requires text != "" && forall i :: 0 <= i < |text| ==> text[i] !in {'`', '*', '<'}
    requires rest == "" || rest[0] in {'`', '*', '<'}
    ensures Displayed(text + rest, style) == [TextElement(text, style)] + Displayed(rest, style)
  {
    PlainReadBack(text, rest);
    FirstThenRest(text, rest, Plain(text), style);
  }

  /** The mark opens nothing: it is not closed, or closed at once, or no bar comes before the closing bracket. */
  ghost predicate OpensNothing(mark: char, rest: string) {
    if mark == '<' then
      forall i :: 0 <= i < |rest| && rest[i] == '>' && '>' !in rest[..i] ==> '|' !in rest[..i]
    else (mark == '*' || mark == '`') && (mark !in rest || rest[0] == mark)
  }

  lemma {:induction false} FindFirst(s: string, c: char)
    ensures c !in s[..Find(s, c)] && (Find(s, c) == |s| <==> c !in s)
  {
    NotBefore(s, c);
    assert Find(s, c) == |s| ==> s[..|s|] == s;
    assert Find(s, c) < |s| ==> s[Find(s, c)] == c;
  }

  lemma {:induction false} LinkHasBar(rest: string)
    ensures ClosesLink(rest) ==>
      exists i :: 0 <= i < |rest| && rest[i] == '>' && '>' !in rest[..i] && '|' in rest[..i]
  {
    if ClosesLink(rest) {
      var e := Find(rest, '>');
      FindFirst(rest, '>');
      assert rest[..e][Find(rest, '|')] == '|';
    }
  }

  lemma {:induction false} UnpairedIsText(mark: char, rest: string, style: Style)
    requires OpensNothing(mark, rest)
    ensures Displayed([mark] + rest, style) == [TextElement([mark], style)] + Displayed(rest, style)
  {
    if mark == '<' {
      LinkHasBar(rest);
    } else {
      FindFirst(rest, mark);
    }
    UnpairedReadBack(mark, rest);
    FirstThenRest([mark], rest, Plain([mark]), style);
  }

  lemma {:induction false} ShownAppend(a: seq<Element>, b: seq<Element>)
    ensures Shown(a + b) == Shown(a) + Shown(b)
  {
    if a == [] {
      assert a + b == b;
    } else {
      assert (a + b)[1..] == a[1..] + b;
      ShownAppend(a[1..], b);
      var own := if Shows(a[0]) then [a[0]] else [];
      assert own + (Shown(a[1..]) + Shown(b)) == own + Shown(a[1..]) + Shown(b);
    }
  }

  lemma {:induction false} ElementsAreShown(tokens: Tokens, style: Style)
    ensures Shown(Elements(tokens, style)) == Elements(tokens, style)
    decreases tokens
  {
    if tokens.Next? {
      ElementsAreShown(tokens.tail, style);
      ShownAppend(ElementsOf(tokens.head, style), Elements(tokens.tail, style));
      if tokens.head.Bold? {
        ElementsAreShown(tokens.head.inner, style.(bold := true));
      }
    }
  }

  /** What is to be shown of every rest of a text. */
  ghost predicate Means(shown: seq<seq<Element>>, text: string, style: Style) {
    && |shown| == |text| + 1
    && forall i {:trigger Tokenize(text[i..])} :: 0 <= i <= |text| ==> shown[i] == Elements(Tokenize(text[i..]), style)
  }

  lemma {:induction false} Meaning(text: string, style: Style) returns (shown: seq<seq<Element>>)
    ensures Means(shown, text, style)
    ensures shown[0] == Elements(Tokenize(text), style) && shown[|text|] == []
  {
    shown := seq(|text| + 1, i requires 0 <= i <= |text| => Elements(Tokenize(text[i..]), style));
    assert text[0..] == text && text[|text|..] == "";
  }

  /** The first token of a rest is shown in front of what follows it. */
  lemma {:induction false} MeaningStep(shown: seq<seq<Element>>, text: string, style: Style, i: nat)
    requires Means(shown, text, style) && i < |text|
    ensures
      var step := FirstToken(text[i..]);
      i + step.width <= |text| && shown[i] == ElementsOf(step.token, style) + shown[i + step.width]
  {
    var step := FirstToken(text[i..]);
    assert text[i..][step.width..] == text[i + step.width..];
    assert Tokenize(text[i..]) == Next(step.token, Tokenize(text[i + step.width..]));
  }

  /** The elements of a text: its tokens' elements, each position read once. */
  method ParseRichTextElements(text: string, style: Style) returns (elements: seq<Element>)
    ensures elements == Elements(Tokenize(text), style)
    decreases |text|, 2
  {
    ghost var shown := Meaning(text, style);
    elements := ParseAll(text, style, shown);
  }

  method ParseAll(text: string, style: Style, ghost shown: seq<seq<Element>>) returns (elements: seq<Element>)
    requires Means(shown, text, style) && shown[|text|] == []
    ensures elements == shown[0]
    decreases |text|, 1
  {
    elements := [];
    var index := 0;
    while index < |text|
      invariant index <= |text|
      invariant Shown(elements) + shown[index] == shown[0]
    {
      var piece, width := PieceAt(text, style, index, shown);
      PushPiece(elements, piece, shown[index + width]);
      elements := elements + piece;
      index := index + width;
    }
    return Shown(elements);
  }

  lemma {:induction false} PushPiece(elements: seq<Element>, piece: seq<Element>, rest: seq<Element>)
    ensures Shown(elements + piece) + rest == Shown(elements) + (Shown(piece) + rest)
  {
    ShownAppend(elements, piece);
  }

  method PieceAt(text: string, style: Style, index: nat, ghost shown: seq<seq<Element>>)
    returns (piece: seq<Element>, width: nat)
    requires Means(shown, text, style) && index < |text|
    ensures 0 < width && index + width <= |text|
    ensures shown[index] == Shown(piece) + shown[index + width]
    decreases |text|, 0, 1
  {
    piece, width := PieceOf(text[index..], style);
    MeaningStep(shown, text, style, index);
  }

  /** The elements pushed for the markup at the start of a text, before the final filter, and its width. */
  method PieceOf(text: string, style: Style) returns (piece: seq<Element>, width: nat)
    requires text != ""
    ensures Shown(piece) == ElementsOf(FirstToken(text).token, style)
    ensures width == FirstToken(text).width
    decreases |text|, 0, 0
  {
    var c, rest := text[0], text[1..];
    if c == '`' && ClosesSpan(rest, c) {
      return [TextElement(rest[..Find(rest, c)], style.(code := true))], Find(rest, c) + 2;
    }
    if c == '*' && ClosesSpan(rest, c) {
      piece := ParseRichTextElements(rest[..Find(rest, c)], style.(bold := true));
      ElementsAreShown(Tokenize(rest[..Find(rest, c)]), style.(bold := true));
      return piece, Find(rest, c) + 2;
    }
    if c == '<' && ClosesLink(rest) {
      return [LinkElement(rest[..Find(rest, '|')], rest[Find(rest, '|') + 1..Find(rest, '>')], style)],
        Find(rest, '>') + 2;
    }
    if NextSpecial(text) > 0 {
      return [TextElement(text[..NextSpecial(text)], style)], NextSpecial(text);
    }
    return [TextElement([c], style)], 1;
  }
}
