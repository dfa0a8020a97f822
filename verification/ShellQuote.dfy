/**
 Quoting arguments for a remote shell, against a reader of words after the quoting rules of the Shell
 Command Language of POSIX.1-2017 (sections 2.2.1 to 2.2.3).
 */
module ShellQuote {
  import opened Basics

  /** shellQuote's body: a single quote leaves the quotes, is double-quoted, and enters them again. */
  function Escaped(value: string): string {
    if value == "" then "" else EscapedChar(value[0]) + Escaped(value[1..])
  }

  function EscapedChar(c: char): string {
    if c == '\'' then "'\"'\"'" else [c]
  }

  function Quote(value: string): string {
    "'" + Escaped(value) + "'"
  }

  /** The quoted arguments separated by single spaces. */
  function CommandLine(arguments: seq<string>): string {
    if arguments == [] then ""
    else if |arguments| == 1 then Quote(arguments[0])
    else CommandLine(arguments[..|arguments| - 1]) + " " + Quote(arguments[|arguments| - 1])
  }

  // ---- Reading words ----

  /** Where the reader stands; `Failed` when something other than a plain word would be meant. */
  datatype Reader =
    | Between(words: seq<string>)
    | Bare(words: seq<string>, word: string)
    | BareEscape(words: seq<string>, word: string)
    | Single(words: seq<string>, word: string)
    | Double(words: seq<string>, word: string)
    | DoubleEscape(words: seq<string>, word: string)
    | Failed

  predicate IsBlank(c: char) { c == ' ' || c == '\t' }

  /** Characters that must be quoted to represent themselves, besides blanks, quotes and the backslash. */
  predicate IsSpecial(c: char) { c in "|&;<>()$`\n*?[#~=%" }

  function Advance(r: Reader, c: char): Reader {
    match r
    case Between(words) => if IsBlank(c) then r else AdvanceBare(words, "", c)
    case Bare(words, word) => if IsBlank(c) then Between(words + [word]) else AdvanceBare(words, word, c)
    case BareEscape(words, word) => if c == '\n' then Bare(words, word) else Bare(words, word + [c])
    case Single(words, word) => if c == '\'' then Bare(words, word) else Single(words, word + [c])
    case Double(words, word) =>
      if c == '"' then Bare(words, word)
      else if c == '\\' then DoubleEscape(words, word)
      else if c == '$' || c == '`' then Failed
      else Double(words, word + [c])
    case DoubleEscape(words, word) =>
      if c == '\n' then Double(words, word)
      else if c in "$`\"\\" then Double(words, word + [c])
      else Double(words, word + ['\\', c])
    case Failed => Failed
  }

  function AdvanceBare(words: seq<string>, word: string, c: char): Reader {
    if c == '\'' then Single(words, word)
    else if c == '"' then Double(words, word)
    else if c == '\\' then BareEscape(words, word)
    else if IsSpecial(c) then Failed
    else Bare(words, word + [c])
  }

  function Read(r: Reader, text: string): Reader
    decreases |text|
  {
    if text == "" then r else Read(Advance(r, text[0]), text[1..])
  }

  /** The words of a command line, if it consists of plain and quoted words only and every quote is closed. */
  function Words(text: string): Option<seq<string>> {
    match Read(Between([]), text)
    case Between(words) => Some(words)
    case Bare(words, word) => Some(words + [word])
    case _ => None
  }

  // ---- Reading what was quoted ----

  lemma {:induction false} ReadConcat(r: Reader, a: string, b: string)
    ensures Read(r, a + b) == Read(Read(r, a), b)
    decreases |a|
  {
    if a == "" {
      assert a + b == b;
    } else {
      assert (a + b)[1..] == a[1..] + b;
      ReadConcat(Advance(r, a[0]), a[1..], b);
    }
  }

  lemma ReadSnoc(r: Reader, a: string, c: char)
    ensures Read(r, a + [c]) == Advance(Read(r, a), c)
  {
    ReadConcat(r, a, [c]);
    assert Read(Read(r, a), [c]) == Read(Advance(Read(r, a), c), "");
  }

  lemma QuoteEscapeRead(words: seq<string>, word: string)
    ensures Read(Single(words, word), "'\"'\"'") == Single(words, word + "'")
  {
    ReadSnoc(Single(words, word), "'\"'\"", '\'');
    ReadSnoc(Single(words, word), "'\"'", '"');
    ReadSnoc(Single(words, word), "'\"", '\'');
    ReadSnoc(Single(words, word), "'", '"');
    ReadSnoc(Single(words, word), "", '\'');
    assert "" + ['\''] == "'" && "'" + ['"'] == "'\"" && "'\"" + ['\''] == "'\"'";
    assert "'\"'" + ['"'] == "'\"'\"" && "'\"'\"" + ['\''] == "'\"'\"'";
  }

  lemma EscapedCharRead(words: seq<string>, word: string, c: char)
    ensures Read(Single(words, word), EscapedChar(c)) == Single(words, word + [c])
  {
    if c == '\'' {
      QuoteEscapeRead(words, word);
    } else {
      ReadSnoc(Single(words, word), "", c);
      assert "" + [c] == [c];
    }
  }

  lemma {:induction false} EscapedRead(words: seq<string>, word: string, value: string)
    ensures Read(Single(words, word), Escaped(value)) == Single(words, word + value)
    decreases |value|
  {
    if value == "" {
      assert word + value == word;
    } else {
      var c, rest := value[0], value[1..];
      ReadConcat(Single(words, word), EscapedChar(c), Escaped(rest));
      EscapedCharRead(words, word, c);
      EscapedRead(words, word + [c], rest);
      assert word + [c] + rest == word + value;
    }
  }

  lemma QuoteRead(words: seq<string>, value: string)
    ensures Read(Between(words), Quote(value)) == Bare(words, value)
  {
    ReadConcat(Between(words), "'" + Escaped(value), "'");
    ReadConcat(Between(words), "'", Escaped(value));
    assert Read(Between(words), "'") == Read(Single(words, ""), "'"[1..]) == Single(words, "");
    EscapedRead(words, "", value);
    assert "" + value == value;
    ReadSnoc(Single(words, value), "", '\'');
    assert "" + ['\''] == "'";
  }

  lemma {:induction false} CommandLineRead(arguments: seq<string>)
    requires arguments != []
    ensures Read(Between([]), CommandLine(arguments)) == Bare(arguments[..|arguments| - 1], arguments[|arguments| - 1])
  {
    var front, last := arguments[..|arguments| - 1], arguments[|arguments| - 1];
    if front == [] {
      QuoteRead([], last);
    } else {
      CommandLineRead(front);
      assert front == front[..|front| - 1] + [front[|front| - 1]];
      ReadConcat(Between([]), CommandLine(front) + " ", Quote(last));
      ReadSnoc(Between([]), CommandLine(front), ' ');
      assert CommandLine(front) + [' '] == CommandLine(front) + " ";
      QuoteRead(front, last);
    }
  }

  /** A shell reads back exactly the arguments, whatever they contain, empty ones included. */
  lemma QuotedRoundTrip(arguments: seq<string>)
    ensures Words(CommandLine(arguments)) == Some(arguments)
  {
    if arguments != [] {
      CommandLineRead(arguments);
      assert arguments == arguments[..|arguments| - 1] + [arguments[|arguments| - 1]];
    }
  }

  lemma {:induction false} EscapedConcat(a: string, b: string)
    ensures Escaped(a + b) == Escaped(a) + Escaped(b)
    decreases |a|
  {
    if a == "" {
      assert a + b == b;
    } else {
      assert (a + b)[1..] == a[1..] + b;
      EscapedConcat(a[1..], b);
    }
  }

  lemma {:induction false} EscapedPlain(value: string)
    requires '\'' !in value
    ensures Escaped(value) == value
    decreases |value|
  {
    if value != "" {
      EscapedPlain(value[1..]);
    }
  }

  /** The quoted text: single quotes around the value, each single quote in it written as '"'"' and nothing else changed. */
  lemma QuoteText(value: string, before: string, after: string)
    requires '\'' !in before
    ensures Quote(value) == "'" + Escaped(value) + "'"
    ensures Escaped(before) == before
    ensures Escaped(before + ['\''] + after) == before + "'\"'\"'" + Escaped(after)
  {
    var rest := ['\''] + after;
    EscapedPlain(before);
    EscapedConcat(before, rest);
    assert before + ['\''] + after == before + rest;
    assert rest[1..] == after && Escaped(rest) == "'\"'\"'" + Escaped(after);
  }

  /** A quoted argument in the middle of a word only ever adds its own text to that word. */
  lemma QuotedInWord(words: seq<string>, word: string, value: string)
    ensures Read(Bare(words, word), Quote(value)) == Bare(words, word + value)
  {
    ReadConcat(Bare(words, word), "'" + Escaped(value), "'");
    ReadConcat(Bare(words, word), "'", Escaped(value));
    assert Read(Bare(words, word), "'") == Read(Single(words, word), "'"[1..]) == Single(words, word);
    EscapedRead(words, word, value);
    ReadSnoc(Single(words, word + value), "", '\'');
    assert "" + ['\''] == "'";
  }
}
