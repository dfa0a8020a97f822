/**
 Cutting a command at its bare "|" and "&&". Segments is what the loop of shell.go computes, read from
 the front; Derives is a grammar for the accepted commands. The two agree in both directions.
 */
module ApprovalSplit {
  import opened Basics
  import opened Text
  import opened ShellLexer

  datatype Separator = Pipe | AndAnd {
    function Text(): string { if Pipe? then "|" else "&&" }
  }

  // ----- The grammar -----

  /** p[i] may stand inside a piece in the state it is read in. */
  predicate Allowed(m: Mode, p: string, i: nat)
    requires i < |p|
  {
    var substitution := p[i] == '$' && i + 1 < |p| && p[i + 1] in {'(', '{'};
    match m
    case Bare => p[i] !in {'\n', '\r', ';', '<', '>', '`', '(', ')', '|', '&'} && !substitution
    case Double => p[i] != '`' && !substitution
    case _ => true
  }

  /** p[i] may stand where it does when p is read from state m. */
  predicate AllowedAt(m: Mode, p: string, i: nat)
    requires i < |p|
  {
    Allowed(Run(m, p[..i]), p, i)
  }

  /** A piece closes its quotes, ends in no escape and holds nothing forbidden. */
  ghost predicate Piece(p: string) {
    && Run(Bare, p) == Bare
    && forall i | 0 <= i < |p| :: AllowedAt(Bare, p, i)
  }

  ghost function Interleave(raws: seq<string>, seps: seq<Separator>): string
    requires |raws| == |seps| + 1
  {
    if |raws| == 1 then raws[0] else raws[0] + seps[0].Text() + Interleave(raws[1..], seps[1..])
  }

  ghost predicate Derives(command: string, raws: seq<string>, seps: seq<Separator>) {
    && |raws| == |seps| + 1
    && command == Interleave(raws, seps)
    && forall k | 0 <= k < |raws| :: Piece(raws[k]) && Trim(raws[k]) != ""
  }

  function Trimmed(raws: seq<string>): (r: seq<string>)
    ensures |r| == |raws|
  {
    seq(|raws|, k requires 0 <= k < |raws| => Trim(raws[k]))
  }

  // ----- What the loop computes -----

  /** The untrimmed pieces of s, the first of them already begun and read up to state m. */
  function Scan(s: string, m: Mode): (r: Option<seq<string>>)
    ensures r.Some? ==> |r.value| > 0
    decreases |s|
  {
    if s == "" then
      if m == Bare then Some([""]) else None
    else if m == Bare && s[0] == '|' then
      if |s| > 1 && s[1] == '|' then None else Cut(Scan(s[1..], Bare))
    else if m == Bare && s[0] == '&' then
      if |s| == 1 || s[1] != '&' then None else Cut(Scan(s[2..], Bare))
    else if !Allowed(m, s, 0) then None
    else Push(s[0], Scan(s[1..], Next(m, s[0])))
  }

  function Cut(rest: Option<seq<string>>): Option<seq<string>> {
    if rest.None? then None else Some([""] + rest.value)
  }

  function Push(c: char, rest: Option<seq<string>>): Option<seq<string>>
    requires rest.Some? ==> |rest.value| > 0
  {
    if rest.None? then None else Some([[c] + rest.value[0]] + rest.value[1..])
  }

  ghost predicate NoneBlank(raws: seq<string>) {
    forall k | 0 <= k < |raws| :: Trim(raws[k]) != ""
  }

  ghost function Segments(command: string): Option<seq<string>> {
    var pieces := Scan(command, Bare);
    if pieces.Some? && NoneBlank(pieces.value) then Some(Trimmed(pieces.value)) else None
  }

  /** The pieces of a command of which `raws` are finished, `current` is begun and `rest` is ahead. */
  ghost function Attach(raws: seq<string>, current: string, rest: Option<seq<string>>): Option<seq<string>>
    requires rest.Some? ==> |rest.value| > 0
  {
    if rest.None? then None else Some(raws + [current + rest.value[0]] + rest.value[1..])
  }

  /** The loop's account of the command: finished pieces, the piece begun at start, the state at i. */
  ghost predicate Reads(command: string, raws: seq<string>, start: nat, i: nat, m: Mode) {
    && start <= i <= |command|
    && NoneBlank(raws)
    && Scan(command, Bare) == Attach(raws, command[start..i], Scan(command[i..], m))
  }

  lemma ReadsNothing(command: string)
    ensures Reads(command, [], 0, 0, Bare)
  {
    assert command[0..] == command && command[0..0] == "";
    var pieces := Scan(command, Bare);
    if pieces.Some? {
      assert "" + pieces.value[0] == pieces.value[0];
      assert [] + [pieces.value[0]] + pieces.value[1..] == pieces.value;
    }
  }

  lemma AttachPush(raws: seq<string>, current: string, c: char, rest: Option<seq<string>>)
    requires rest.Some? ==> |rest.value| > 0
    ensures Attach(raws, current, Push(c, rest)) == Attach(raws, current + [c], rest)
  {
    if rest.Some? {
      assert current + ([c] + rest.value[0]) == current + [c] + rest.value[0];
      assert ([[c] + rest.value[0]] + rest.value[1..])[1..] == rest.value[1..];
    }
  }

  /** The next character joins the current piece. */
  lemma ReadsOn(command: string, raws: seq<string>, start: nat, i: nat, m: Mode)
    requires Reads(command, raws, start, i, m) && i < |command|
    requires Allowed(m, command, i) && (m == Bare ==> command[i] !in {'|', '&'})
    ensures Reads(command, raws, start, i + 1, Next(m, command[i]))
  {
    var s := command[i..];
    assert s[1..] == command[i + 1..] && command[start..i + 1] == command[start..i] + [s[0]];
    assert i + 1 < |command| ==> s[1] == command[i + 1];
    var rest := Scan(s[1..], Next(m, s[0]));
    assert Scan(s, m) == Push(s[0], rest);
    AttachPush(raws, command[start..i], s[0], rest);
  }

  /** The next character is not allowed: no continuation is accepted. */
  lemma ReadsRefused(command: string, raws: seq<string>, start: nat, i: nat, m: Mode)
    requires Reads(command, raws, start, i, m) && i < |command|
    requires
      || (!Allowed(m, command, i) && (m == Bare ==> command[i] !in {'|', '&'}))
      || (m == Bare && command[i] == '|' && i + 1 < |command| && command[i + 1] == '|')
      || (m == Bare && command[i] == '&' && (i + 1 >= |command| || command[i + 1] != '&'))
    ensures Segments(command) == None
  {
    var s := command[i..];
    assert i + 1 < |command| ==> s[1] == command[i + 1];
  }

  /** A separator ends the current piece; a blank piece refuses the command. */
  lemma ReadsSeparator(command: string, raws: seq<string>, start: nat, i: nat)
    requires Reads(command, raws, start, i, Bare) && i < |command|
    requires
      || (command[i] == '|' && (i + 1 < |command| ==> command[i + 1] != '|'))
      || (command[i] == '&' && i + 1 < |command| && command[i + 1] == '&')
    ensures var next, piece := (if command[i] == '|' then i + 1 else i + 2), command[start..i];
      if Trim(piece) == "" then Segments(command) == None
      else Reads(command, raws + [piece], next, next, Bare)
  {
    var s, piece := command[i..], command[start..i];
    var next := if command[i] == '|' then i + 1 else i + 2;
    assert i + 1 < |command| ==> s[1] == command[i + 1];
    assert command[next..] == s[next - i..] && command[next..next] == "";
    var rest := Scan(command[next..], Bare);
    assert Scan(s, Bare) == Cut(rest);
    AttachCut(raws, piece, rest);
    if rest.Some? {
      assert Scan(command, Bare).value[|raws|] == piece;
    }
  }

  lemma AttachCut(raws: seq<string>, piece: string, rest: Option<seq<string>>)
    requires rest.Some? ==> |rest.value| > 0
    ensures Attach(raws, piece, Cut(rest)) == Attach(raws + [piece], "", rest)
    ensures rest.Some? ==> Attach(raws + [piece], "", rest).value[|raws|] == piece
  {
    if rest.Some? {
      assert piece + "" == piece && "" + rest.value[0] == rest.value[0];
      assert ([""] + rest.value)[1..] == rest.value;
      assert raws + [piece] + rest.value == raws + [piece] + [rest.value[0]] + rest.value[1..];
    }
  }

  lemma ReadsEnd(command: string, raws: seq<string>, start: nat, m: Mode)
    requires Reads(command, raws, start, |command|, m)
    ensures m != Bare ==> Segments(command) == None
    ensures m == Bare ==>
      Segments(command) == (if Trim(command[start..]) == "" then None else Some(Trimmed(raws) + [Trim(command[start..])]))
  {
    var n := |command|;
    assert command[n..] == "" && command[start..n] == command[start..];
    if m == Bare {
      var pieces := Scan(command, Bare).value;
      assert command[start..] + "" == command[start..];
      assert pieces == raws + [command[start..]];
      assert pieces[|raws|] == command[start..];
      assert Trimmed(pieces) == Trimmed(raws) + [Trim(command[start..])];
    }
  }

  lemma EmptyRefused()
    ensures Segments("") == None
  {
    assert Scan("", Bare).value[0] == "";
  }

  /** A character that neither refuses the command nor ends a piece. */
  predicate Joins(m: Mode, command: string, i: nat)
    requires i < |command|
  {
    Allowed(m, command, i) && (m == Bare ==> command[i] !in {'|', '&'})
  }

  /** The quote and escape variables after a character that joins the current piece. */
  method Follow(quote: char, escaped: bool, current: char) returns (quote': char, escaped': bool)
    requires quote in {'\0', '\'', '"'} && (escaped ==> quote != '\'')
    ensures quote' in {'\0', '\'', '"'} && (escaped' ==> quote' != '\'')
    ensures ModeOf(quote', escaped') == Next(ModeOf(quote, escaped), current)
  {
    quote', escaped' := quote, escaped;
    if escaped {
      escaped' := false;
    } else if quote != '\0' {
      if quote == '"' && current == '\\' {
        escaped' := true;
      } else if current == quote {
        quote' := '\0';
      }
    } else if current == '\\' {
      escaped' := true;
    } else if current == '\'' || current == '"' {
      quote' := current;
    }
  }

  /** What the loop does with the byte at i: refuse the command, end the piece, or go on. */
  method Classify(command: string, i: nat, quote: char, escaped: bool) returns (refuses: bool, separates: bool)
    requires i < |command| && quote in {'\0', '\'', '"'} && (escaped ==> quote != '\'')
    ensures var m := ModeOf(quote, escaped);
      && (refuses <==>
            || (!Allowed(m, command, i) && (m == Bare ==> command[i] !in {'|', '&'}))
            || (m == Bare && command[i] == '|' && i + 1 < |command| && command[i + 1] == '|')
            || (m == Bare && command[i] == '&' && (i + 1 >= |command| || command[i + 1] != '&')))
      && (separates <==> !refuses && !Joins(m, command, i))
  {
    var current := command[i];
    var opensSubstitution := current == '$' && i + 1 < |command| && (command[i + 1] == '(' || command[i + 1] == '{');
    refuses, separates := false, false;
    if escaped || quote == '\'' {
      return;
    }
    if quote == '"' {
      refuses := current == '`' || opensSubstitution;
      return;
    }
    if current in {'\n', '\r', ';', '<', '>', '`', '(', ')'} || opensSubstitution {
      refuses := true;
    } else if current == '&' {
      refuses := i + 1 >= |command| || command[i + 1] != '&';
      separates := !refuses;
    } else if current == '|' {
      refuses := i + 1 < |command| && command[i + 1] == '|';
      separates := !refuses;
    }
  }

  /** The loop's variables before position i; `raws` are the finished pieces. */
  ghost predicate Scanned(command: string, raws: seq<string>, start: nat, i: nat, quote: char, escaped: bool) {
    && quote in {'\0', '\'', '"'} && (escaped ==> quote != '\'')
    && Reads(command, raws, start, i, ModeOf(quote, escaped))
  }

  /** One turn of the loop. `goes` is false when the command is refused. */
  method ScanTurn(command: string, ghost raws: seq<string>, start: nat, i: nat, quote: char, escaped: bool, segments: seq<string>)
    returns (goes: bool, segments': seq<string>, ghost raws': seq<string>, start': nat, i': nat, quote': char, escaped': bool)
    requires Scanned(command, raws, start, i, quote, escaped) && i < |command| && segments == Trimmed(raws)
    ensures !goes ==> Segments(command) == None
    ensures goes ==> Scanned(command, raws', start', i', quote', escaped') && segments' == Trimmed(raws') && i < i' <= |command|
  {
    goes, segments', raws', start', i', quote', escaped' := true, segments, raws, start, i + 1, quote, escaped;
    ghost var m := ModeOf(quote, escaped);
    var refuses, separates := Classify(command, i, quote, escaped);
    if refuses {
      ReadsRefused(command, raws, start, i, m);
      goes := false;
    } else if separates {
      ReadsSeparator(command, raws, start, i);
      var segment := Trim(command[start..i]);
      if segment == "" {
        goes := false;
        return;
      }
      raws' := raws + [command[start..i]];
      segments' := segments + [segment];
      i' := if command[i] == '&' then i + 2 else i + 1;
      start' := i';
    } else {
      ReadsOn(command, raws, start, i, m);
      quote', escaped' := Follow(quote, escaped, command[i]);
    }
  }

  method SplitApprovalExemptSegments(command: string) returns (segments: seq<string>, ok: bool)
    ensures ok == Segments(command).Some?
    ensures ok ==> segments == Segments(command).value
  {
    if command == "" {
      EmptyRefused();
      return [], false;
    }
    segments := [];
    var start: nat, i: nat := 0, 0;
    var quote, escaped := '\0', false;
    ghost var raws: seq<string> := [];
    ReadsNothing(command);
    while i < |command|
      invariant i <= |command| && segments == Trimmed(raws)
      invariant Scanned(command, raws, start, i, quote, escaped)
    {
      var goes;
      goes, segments, raws, start, i, quote, escaped := ScanTurn(command, raws, start, i, quote, escaped, segments);
      if !goes {
        return [], false;
      }
    }
    ReadsEnd(command, raws, start, ModeOf(quote, escaped));
    if escaped || quote != '\0' {
      return [], false;
    }
    var last := Trim(command[start..]);
    if last == "" {
      return [], false;
    }
    segments := segments + [last];
    return segments, true;
  }
}
