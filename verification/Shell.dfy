/** The command line handed to a POSIX shell, and what the shell reads from it. */
module Shell {
  import opened Prelude

  // --- the source: quoting ---

  predicate IsSafe(c: char) {
    'A' <= c <= 'Z' || 'a' <= c <= 'z' || '0' <= c <= '9' || c == '_' || c == '.' || c == '/' || c == ':' || c == '-'
  }

  predicate AllSafe(value: string) {
    forall i :: 0 <= i < |value| ==> IsSafe(value[i])
  }

  /** `/^[A-Za-z0-9_./:-]+$/` */
  predicate IsSafeWord(value: string) {
    value != "" && AllSafe(value)
  }

  /** Every apostrophe replaced by an apostrophe that leaves and re-enters single quotes. */
  function ReplaceApostrophes(value: string): string {
    if value == "" then ""
    else (if value[0] == '\'' then "'\"'\"'" else [value[0]]) + ReplaceApostrophes(value[1..])
  }

  function ShellEscape(value: string): string {
    if IsSafeWord(value) then value else "'" + ReplaceApostrophes(value) + "'"
  }

  function JoinWords(words: seq<string>): string {
    if words == [] then ""
    else if |words| == 1 then ShellEscape(words[0])
    else ShellEscape(words[0]) + " " + JoinWords(words[1..])
  }

  function BuildNotionShellCommand(args: seq<string>): string {
    JoinWords(["ntn"] + args)
  }

  // --- the shell: token recognition and quote removal ---

  /** Where the reader stands: between words, or inside one whose text so far is known. */
  datatype Mode = Between | Plain(word: string) | Single(word: string) | Double(word: string)

  /** Characters that, unquoted, do more than stand for themselves somewhere in a word. */
  predicate IsSpecial(c: char) {
    || c == '|' || c == '&' || c == ';' || c == '<' || c == '>' || c == '(' || c == ')' || c == '$' || c == '`'
    || c == '*' || c == '?' || c == '[' || c == ']' || c == '#' || c == '~' || c == '=' || c == '%' || c == '!'
    || c == '{' || c == '}' || c == '^' || c == '\n' || c == '\r' || c == '\0'
  }

  function Text(mode: Mode): string {
    if mode.Between? then "" else mode.word
  }

  function EndWord(mode: Mode, rest: Option<seq<string>>): Option<seq<string>> {
    if mode.Between? || rest.None? then rest else Some([mode.word] + rest.value)
  }

  /**
   * The words of a command made of one simple command, after quote removal; None when the text
   * has an unquoted special character, an expansion, a NUL, or an open quote.
   */
  function Lex(s: string, mode: Mode): Option<seq<string>>
    decreases |s|
  {
    if s == "" then
      if mode.Between? then Some([]) else if mode.Plain? then Some([mode.word]) else None
    else
      var c := s[0];
      if mode.Single? then
        if c == '\'' then Lex(s[1..], Plain(mode.word))
        else if c == '\0' then None
        else Lex(s[1..], Single(mode.word + [c]))
      else if mode.Double? then
        if c == '"' then Lex(s[1..], Plain(mode.word))
        else if c == '$' || c == '`' || c == '\0' then None
        else if c == '\\' && |s| == 1 then None
        else if c == '\\' && s[1] in "$`\"\\" then Lex(s[2..], Double(mode.word + [s[1]]))
        else if c == '\\' && s[1] == '\n' then Lex(s[2..], mode)
        else Lex(s[1..], Double(mode.word + [c]))
      else if c == ' ' || c == '\t' then
        EndWord(mode, Lex(s[1..], Between))
      else if c == '\'' then Lex(s[1..], Single(Text(mode)))
      else if c == '"' then Lex(s[1..], Double(Text(mode)))
      else if c == '\\' then
        if |s| == 1 || s[1] == '\0' then None
        else if s[1] == '\n' then Lex(s[2..], mode)
        else Lex(s[2..], Plain(Text(mode) + [s[1]]))
      else if IsSpecial(c) then None
      else Lex(s[1..], Plain(Text(mode) + [c]))
  }

  function ReadCommand(command: string): Option<seq<string>> {
    Lex(command, Between)
  }

  predicate NulFree(args: seq<string>) {
    forall i :: 0 <= i < |args| ==> '\0' !in args[i]
  }

  // --- reading one quoted word ---

  lemma {:induction false} SafeIsPlain(c: char)
    requires IsSafe(c)
    ensures !IsSpecial(c) && c != ' ' && c != '\t' && c != '\'' && c != '"' && c != '\\'
  {
  }

  lemma {:induction false} SafeStep(c: char, rest: string, mode: Mode)
    requires IsSafe(c) && (mode.Between? || mode.Plain?)
    ensures Lex([c] + rest, mode) == Lex(rest, Plain(Text(mode) + [c]))
  {
    SafeIsPlain(c);
    assert ([c] + rest)[1..] == rest;
  }

  lemma {:induction false} SafeRun(value: string, rest: string, mode: Mode)
    requires mode.Between? || mode.Plain?
    requires value != "" && AllSafe(value)
    ensures Lex(value + rest, mode) == Lex(rest, Plain(Text(mode) + value))
    decreases |value|
  {
    var n := |value| - 1;
    var front, c := value[..n], value[n];
    SafeParts(value);
    assert value + rest == front + ([c] + rest);
    assert Text(mode) + front + [c] == Text(mode) + value;
    if front == "" {
      assert front + ([c] + rest) == [c] + rest;
      assert Text(mode) + front == Text(mode);
      SafeStep(c, rest, mode);
    } else {
      SafeRun(front, [c] + rest, mode);
      SafeStep(c, rest, Plain(Text(mode) + front));
    }
  }

  lemma {:induction false} SafeParts(value: string)
    requires value != "" && AllSafe(value)
    ensures AllSafe(value[..|value| - 1]) && IsSafe(value[|value| - 1])
  {
  }

  /** Leaving single quotes, an apostrophe in double quotes, and back into single quotes. */
  lemma {:induction false} ApostropheRead(rest: string, word: string)
    ensures Lex("'\"'\"'" + rest, Single(word)) == Lex(rest, Single(word + "'"))
  {
    var s := "'\"'\"'" + rest;
    assert s[1..] == "\"'\"'" + rest;
    assert s[1..][1..] == "'\"'" + rest;
    assert s[1..][1..][1..] == "\"'" + rest;
    assert s[1..][1..][1..][1..] == "'" + rest;
    assert s[1..][1..][1..][1..][1..] == rest;
    assert Lex(s[1..][1..], Double(word)) == Lex(s[1..][1..][1..], Double(word + "'"));
    assert Lex(s[1..][1..][1..], Double(word + "'")) == Lex(s[1..][1..][1..][1..], Plain(word + "'"));
  }

  lemma {:induction false} QuotedRun(value: string, rest: string, word: string)
    ensures Lex(ReplaceApostrophes(value) + "'" + rest, Single(word))
         == if '\0' in value then None else Lex(rest, Plain(word + value))
    decreases |value|
  {
    var s := ReplaceApostrophes(value) + "'" + rest;
    if value == "" {
      assert s[1..] == rest;
      assert word + value == word;
    } else {
      var tail := ReplaceApostrophes(value[1..]) + "'" + rest;
      var c := value[0];
      QuotedRun(value[1..], rest, word + [c]);
      assert word + [c] + value[1..] == word + value;
      assert value == [c] + value[1..];
      if c == '\'' {
        assert s == "'\"'\"'" + tail;
        ApostropheRead(tail, word);
      } else {
        assert s == [c] + tail;
        assert s[1..] == tail;
      }
    }
  }

  lemma {:induction false} WordRead(value: string, rest: string)
    ensures Lex(ShellEscape(value) + rest, Between)
         == if '\0' in value then None else Lex(rest, Plain(value))
  {
    assert "" + value == value;
    if IsSafeWord(value) {
      SafeRun(value, rest, Between);
      SafeHasNoNul(value);
    } else {
      OpenQuote(ReplaceApostrophes(value) + "'" + rest);
      assert ShellEscape(value) + rest == "'" + (ReplaceApostrophes(value) + "'" + rest);
      QuotedRun(value, rest, "");
    }
  }

  lemma {:induction false} OpenQuote(rest: string)
    ensures Lex("'" + rest, Between) == Lex(rest, Single(""))
  {
    assert ("'" + rest)[1..] == rest;
  }

  lemma {:induction false} SafeHasNoNul(value: string)
    requires IsSafeWord(value)
    ensures '\0' !in value
  {
    assert !IsSafe('\0');
  }

  lemma {:induction false} WordsRead(words: seq<string>)
    ensures Lex(JoinWords(words), Between) == if NulFree(words) then Some(words) else None
    decreases |words|
  {
    if |words| == 1 {
      WordRead(words[0], "");
      assert ShellEscape(words[0]) + "" == ShellEscape(words[0]);
      assert words == [words[0]];
    } else if |words| > 1 {
      var rest := " " + JoinWords(words[1..]);
      assert JoinWords(words) == ShellEscape(words[0]) + rest;
      WordRead(words[0], rest);
      WordsRead(words[1..]);
      assert rest[1..] == JoinWords(words[1..]);
      assert words == [words[0]] + words[1..];
      assert NulFree(words) <==> '\0' !in words[0] && NulFree(words[1..]) by {
        assert forall i :: 0 <= i < |words| - 1 ==> words[1..][i] == words[i + 1];
        assert forall i :: 0 < i < |words| ==> words[i] == words[1..][i - 1];
      }
    }
  }

  // --- main results ---

  /** The shell reads `ntn` and exactly the given arguments, unless one contains a NUL. */
  lemma {:induction false} ShellUndoesQuoting(args: seq<string>)
    ensures ReadCommand(BuildNotionShellCommand(args))
         == if NulFree(args) then Some(["ntn"] + args) else None
  {
    var words := ["ntn"] + args;
    WordsRead(words);
    assert words[0] == "ntn";
    assert NulFree(words) <==> NulFree(args) by {
      assert forall i :: 0 <= i < |args| ==> words[i + 1] == args[i];
      assert forall i :: 0 < i < |words| ==> words[i] == args[i - 1];
    }
  }

  /** Different argument lists never share a command line. */
  lemma {:induction false} CommandsAreDistinct(a: seq<string>, b: seq<string>)
    requires NulFree(a) && NulFree(b) && BuildNotionShellCommand(a) == BuildNotionShellCommand(b)
    ensures a == b
  {
    ShellUndoesQuoting(a);
    ShellUndoesQuoting(b);
    assert a == (["ntn"] + a)[1..] && b == (["ntn"] + b)[1..];
  }

  lemma {:induction false} ReplacedIsNotShorter(value: string)
    ensures |ReplaceApostrophes(value)| >= |value|
  {
    if value != "" {
      ReplacedIsNotShorter(value[1..]);
    }
  }

  /** A word of letters, digits and the characters _./:- is left as it is, and no other word is. */
  lemma {:induction false} BareIff(value: string)
    ensures ShellEscape(value) == value
      <==> value != "" && forall i :: 0 <= i < |value| ==>
             'A' <= value[i] <= 'Z' || 'a' <= value[i] <= 'z' || '0' <= value[i] <= '9' || value[i] in {'_', '.', '/', ':', '-'}
  {
    ReplacedIsNotShorter(value);
    assert !IsSafeWord(value) ==> |ShellEscape(value)| > |value|;
  }
}
