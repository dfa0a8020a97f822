/** The quote and escape state shared by the two command lexers of shell.go. */
module ShellLexer {

  /** Reading state in front of a character: outside quotes, inside '..' or "..", or just after a backslash. */
  datatype Mode = Bare | BareEscape | Single | Double | DoubleEscape

  function Next(m: Mode, c: char): Mode {
    match m
    case BareEscape => Bare
    case DoubleEscape => Double
    case Single => if c == '\'' then Bare else Single
    case Double => if c == '\\' then DoubleEscape else if c == '"' then Bare else Double
    case Bare =>
      if c == '\\' then BareEscape
      else if c == '\'' then Single
      else if c == '"' then Double
      else Bare
  }

  function Run(m: Mode, s: string): Mode
    decreases |s|
  {
    if s == "" then m else Run(Next(m, s[0]), s[1..])
  }

  /** The state in which s[i] is read. */
  function ModeAt(s: string, i: nat): Mode
    requires i <= |s|
  {
    Run(Bare, s[..i])
  }

  lemma {:induction false} RunConcat(m: Mode, a: string, b: string)
    ensures Run(m, a + b) == Run(Run(m, a), b)
    decreases |a|
  {
    if a == "" {
      assert a + b == b;
    } else {
      assert (a + b)[1..] == a[1..] + b;
      RunConcat(Next(m, a[0]), a[1..], b);
    }
  }

  lemma RunSnoc(m: Mode, s: string, i: nat)
    requires i < |s|
    ensures Run(m, s[..i + 1]) == Next(Run(m, s[..i]), s[i])
  {
    assert s[..i + 1] == s[..i] + [s[i]];
    RunConcat(m, s[..i], [s[i]]);
    assert Run(Run(m, s[..i]), [s[i]]) == Run(Next(Run(m, s[..i]), s[i]), [s[i]][1..]);
  }

  /** The pair of variables the Go loops keep, read as a mode; 0 is "no quote". */
  function ModeOf(quote: char, escaped: bool): Mode
    requires quote in {'\0', '\'', '"'}
    requires escaped ==> quote != '\''
  {
    if quote == '\0' then (if escaped then BareEscape else Bare)
    else if quote == '\'' then Single
    else if escaped then DoubleEscape else Double
  }

  // ----- What the states mean, without the automaton -----

  /** The inside of double quotes: a backslash takes the next character with it, and no other double quote. */
  predicate Inner(s: string)
    decreases |s|
  {
    || s == ""
    || (s[0] == '\\' && |s| >= 2 && Inner(s[2..]))
    || (s[0] !in {'\\', '"'} && Inner(s[1..]))
  }

  /** A plain character, a character behind a backslash, or a whole quotation. */
  predicate IsToken(t: string) {
    || (|t| == 1 && t[0] !in {'\\', '\'', '"'})
    || (|t| == 2 && t[0] == '\\')
    || (|t| >= 2 && t[0] == '\'' && t[|t| - 1] == '\'' && '\'' !in t[1..|t| - 1])
    || (|t| >= 2 && t[0] == '"' && t[|t| - 1] == '"' && Inner(t[1..|t| - 1]))
  }

  function Concat(tokens: seq<string>): string {
    if tokens == [] then "" else tokens[0] + Concat(tokens[1..])
  }

  ghost predicate Tokenizes(tokens: seq<string>, s: string) {
    s == Concat(tokens) && forall t | t in tokens :: IsToken(t)
  }

  lemma {:induction false} SingleRun(s: string)
    requires '\'' !in s
    ensures Run(Single, s) == Single
    decreases |s|
  {
    if s != "" {
      SingleRun(s[1..]);
    }
  }

  lemma {:induction false} InnerRun(s: string)
    requires Inner(s)
    ensures Run(Double, s) == Double
    decreases |s|
  {
    if s != "" {
      if s[0] == '\\' {
        assert s[1..][1..] == s[2..];
        InnerRun(s[2..]);
      } else {
        InnerRun(s[1..]);
      }
    }
  }

  lemma TokenRun(t: string)
    requires IsToken(t)
    ensures Run(Bare, t) == Bare
  {
    if |t| == 1 {
      assert t[1..] == "";
    } else if t[0] == '\\' {
      assert t[1..][1..] == "";
      assert Run(Bare, t) == Run(BareEscape, t[1..]) == Run(Bare, t[1..][1..]);
    } else {
      var body, last := t[1..|t| - 1], [t[|t| - 1]];
      assert t[1..] == body + last && last[1..] == "";
      RunConcat(Next(Bare, t[0]), body, last);
      if t[0] == '\'' {
        SingleRun(body);
        assert Run(Single, last) == Run(Bare, "");
      } else {
        InnerRun(body);
        assert Run(Double, last) == Run(Bare, "");
      }
    }
  }

  lemma {:induction false} TokensRun(tokens: seq<string>)
    requires forall t | t in tokens :: IsToken(t)
    ensures Run(Bare, Concat(tokens)) == Bare
  {
    if tokens != [] {
      TokenRun(tokens[0]);
      TokensRun(tokens[1..]);
      RunConcat(Bare, tokens[0], Concat(tokens[1..]));
    }
  }

  /** Text read from inside single quotes to a closed end has its closing quote. */
  lemma {:induction false} SingleCloses(s: string) returns (k: nat)
    requires Run(Single, s) == Bare
    ensures k < |s| && s[k] == '\'' && '\'' !in s[..k] && Run(Bare, s[k + 1..]) == Bare
    decreases |s|
  {
    if s[0] == '\'' {
      k := 0;
    } else {
      var j := SingleCloses(s[1..]);
      k := j + 1;
      assert s[..k] == [s[0]] + s[1..][..j] && s[k + 1..] == s[1..][j + 1..];
    }
  }

  lemma {:induction false} DoubleCloses(s: string) returns (k: nat)
    requires Run(Double, s) == Bare
    ensures k < |s| && s[k] == '"' && Inner(s[..k]) && Run(Bare, s[k + 1..]) == Bare
    decreases |s|
  {
    if s[0] == '"' {
      k := 0;
    } else if s[0] == '\\' {
      assert |s| >= 2 && s[1..][1..] == s[2..];
      var j := DoubleCloses(s[2..]);
      k := j + 2;
      assert s[..k][2..] == s[2..][..j] && s[k + 1..] == s[2..][j + 1..];
    } else {
      var j := DoubleCloses(s[1..]);
      k := j + 1;
      assert s[..k][1..] == s[1..][..j] && s[k + 1..] == s[1..][j + 1..];
    }
  }

  /** The first token of a closed text, and the closed rest. */
  lemma FirstToken(s: string) returns (n: nat)
    requires s != "" && Run(Bare, s) == Bare
    ensures 0 < n <= |s| && IsToken(s[..n]) && Run(Bare, s[n..]) == Bare
  {
    if s[0] == '\\' {
      assert |s| >= 2 && s[1..][1..] == s[2..];
      n := 2;
    } else if s[0] == '\'' {
      var k := SingleCloses(s[1..]);
      n := k + 2;
      assert s[..n][1..n - 1] == s[1..][..k] && s[n..] == s[1..][k + 1..];
    } else if s[0] == '"' {
      var k := DoubleCloses(s[1..]);
      n := k + 2;
      assert s[..n][1..n - 1] == s[1..][..k] && s[n..] == s[1..][k + 1..];
    } else {
      n := 1;
    }
  }

  lemma {:induction false} ClosedTokens(s: string) returns (tokens: seq<string>)
    requires Run(Bare, s) == Bare
    ensures Tokenizes(tokens, s)
    decreases |s|
  {
    if s == "" {
      tokens := [];
    } else {
      var n := FirstToken(s);
      var rest := ClosedTokens(s[n..]);
      tokens := [s[..n]] + rest;
      assert tokens[1..] == rest && s == s[..n] + s[n..];
    }
  }

  /** A position is bare exactly when the text before it falls into plain characters, escapes and whole quotations. */
  lemma BareIsTokenized(s: string, i: nat)
    requires i <= |s|
    ensures ModeAt(s, i) == Bare <==> exists tokens :: Tokenizes(tokens, s[..i])
  {
    if Run(Bare, s[..i]) == Bare {
      var tokens := ClosedTokens(s[..i]);
    }
    forall tokens | Tokenizes(tokens, s[..i]) ensures ModeAt(s, i) == Bare {
      TokensRun(tokens);
    }
  }

  lemma {:induction false} InnerConcat(a: string, b: string)
    requires Inner(a) && Inner(b)
    ensures Inner(a + b)
    decreases |a|
  {
    if a == "" {
      assert a + b == b;
    } else if a[0] == '\\' {
      assert (a + b)[2..] == a[2..] + b;
      InnerConcat(a[2..], b);
    } else {
      assert (a + b)[1..] == a[1..] + b;
      InnerConcat(a[1..], b);
    }
  }

  lemma InnerGrows(s: string, from: nat, k: nat, i: nat)
    requires from <= k <= i <= |s| && Inner(s[from..k]) && Inner(s[k..i])
    ensures Inner(s[from..i])
  {
    InnerConcat(s[from..k], s[k..i]);
    assert s[from..i] == s[from..k] + s[k..i];
  }

  /** The last one or two characters before a position inside double quotes, unless they opened them. */
  lemma DoubleStep(s: string, i: nat) returns (k: nat)
    requires 0 < i <= |s| && ModeAt(s, i) == Double && ModeAt(s, i - 1) != Bare
    ensures k < i && ModeAt(s, k) == Double && Inner(s[k..i])
  {
    RunSnoc(Bare, s, i - 1);
    if ModeAt(s, i - 1) == Double {
      k := i - 1;
    } else {
      RunSnoc(Bare, s, i - 2);
      k := i - 2;
      assert s[k..i][2..] == "";
    }
  }

  lemma {:induction false} DoubleOpens(s: string, i: nat) returns (j: nat)
    requires i <= |s| && ModeAt(s, i) == Double
    ensures j < i && s[j] == '"' && ModeAt(s, j) == Bare && Inner(s[j + 1..i])
    decreases i
  {
    if i == 0 {
      assert false;
    } else {
      RunSnoc(Bare, s, i - 1);
      if ModeAt(s, i - 1) == Bare {
        j := i - 1;
      } else {
        var k := DoubleStep(s, i);
        j := DoubleOpens(s, k);
        InnerGrows(s, j + 1, k, i);
      }
    }
  }

  /** A position is inside double quotes exactly when a bare double quote stands before it and did not close yet. */
  lemma DoubleIsOpened(s: string, i: nat)
    requires i <= |s|
    ensures ModeAt(s, i) == Double <==>
      exists j :: 0 <= j < i && s[j] == '"' && ModeAt(s, j) == Bare && Inner(s[j + 1..i])
  {
    if ModeAt(s, i) == Double {
      var j := DoubleOpens(s, i);
    }
    forall j | 0 <= j < i && s[j] == '"' && ModeAt(s, j) == Bare && Inner(s[j + 1..i]) ensures ModeAt(s, i) == Double {
      RunSnoc(Bare, s, j);
      assert s[..i] == s[..j + 1] + s[j + 1..i];
      RunConcat(Bare, s[..j + 1], s[j + 1..i]);
      InnerRun(s[j + 1..i]);
    }
  }
}
