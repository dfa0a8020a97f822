/**
 Which commands the splitter accepts, byte by byte. The conditions name the bytes and the quote state of
 each position only, not the splitter's grammar or reader.
 */
module ApprovalBytes {
  import opened Basics
  import opened Text
  import opened ShellLexer
  import opened ApprovalSplit

  predicate BareAt(command: string, i: nat, c: char)
    requires i < |command|
  {
    command[i] == c && ModeAt(command, i) == Bare
  }

  predicate FollowedBy(command: string, i: nat, c: char)
    requires i < |command|
  {
    i + 1 < |command| && command[i + 1] == c
  }

  predicate AfterBareAmpersand(command: string, i: nat)
    requires i < |command|
  {
    i > 0 && BareAt(command, i - 1, '&')
  }

  /** A bare "&" or "|". */
  predicate Separates(command: string, i: nat)
    requires i < |command|
  {
    BareAt(command, i, '&') || BareAt(command, i, '|')
  }

  /**
   What a position may hold. Bare: no line end, semicolon, redirection, backquote, parenthesis or start of a
   substitution, a single "|", and "&" in pairs. In double quotes: no backquote and no start of a substitution.
   */
  predicate ByteOk(command: string, i: nat)
    requires i < |command|
  {
    var substitution := command[i] == '$' && (FollowedBy(command, i, '(') || FollowedBy(command, i, '{'));
    match ModeAt(command, i)
    case Bare =>
      && command[i] !in {'\n', '\r', ';', '<', '>', '`', '(', ')'} && !substitution
      && (command[i] == '|' ==> !FollowedBy(command, i, '|'))
      && (command[i] == '&' ==> FollowedBy(command, i, '&') != AfterBareAmpersand(command, i))
    case Double => command[i] != '`' && !substitution
    case _ => true
  }

  /** A piece ends here: at the end of the command, at "|", or at the first of a pair "&&". */
  predicate EndsPiece(command: string, b: nat)
    requires b <= |command|
  {
    b == |command| || BareAt(command, b, '|') || (BareAt(command, b, '&') && FollowedBy(command, b, '&'))
  }

  /** Something other than white space stands between the separator before b, if any, and b. */
  ghost predicate Filled(command: string, b: nat)
    requires b <= |command|
  {
    exists k :: 0 <= k < b && !IsSpace(command[k]) && NoSeparator(command, k, b)
  }

  ghost predicate NoSeparator(command: string, lo: nat, hi: nat)
    requires lo <= hi <= |command|
  {
    forall j | lo <= j < hi :: !Separates(command, j)
  }

  ghost predicate Acceptable(command: string) {
    && Run(Bare, command) == Bare
    && (forall i | 0 <= i < |command| :: ByteOk(command, i))
    && (forall b | 0 <= b <= |command| && EndsPiece(command, b) :: Filled(command, b))
  }

  // ----- The loop, seen position by position -----

  /** The piece begun at start holds no separator up to i and follows a whole one. */
  ghost predicate Stands(command: string, start: nat, i: nat) {
    && start <= i <= |command| && NoSeparator(command, start, i)
    && (start > 0 ==> Separates(command, start - 1))
    && (start > 0 && command[start - 1] == '&' ==> start > 1 && BareAt(command, start - 2, '&'))
  }

  /** The byte at i makes three in a row with a pair before it. */
  predicate ThirdAmpersand(command: string, i: nat)
    requires i <= |command|
  {
    i < |command| && command[i] == '&' && AfterBareAmpersand(command, i)
  }

  /** Nothing before i is wrong, unless the byte at i makes it so. */
  ghost predicate FineBefore(command: string, i: nat)
    requires i <= |command|
  {
    && (forall j | 0 <= j < i :: ByteOk(command, j) || (j == i - 1 && ThirdAmpersand(command, i)))
    && (forall b | 0 <= b < i && EndsPiece(command, b) :: Filled(command, b) || (b == i - 1 && ThirdAmpersand(command, i)))
  }

  lemma BlankTrims(s: string)
    ensures Trim(s) == "" <==> AllSpace(s)
  {
    var left, right := TrimSplit(s);
    if AllSpace(s) {
      assert s + "" + "" == s;
      TrimUnique(s, "", "");
    }
  }

  /** The piece in front of b is blank exactly when nothing fills it. */
  lemma FilledIsNotBlank(command: string, start: nat, b: nat)
    requires Stands(command, start, b)
    ensures Filled(command, b) <==> Trim(command[start..b]) != ""
  {
    var piece := command[start..b];
    BlankTrims(piece);
    if !AllSpace(piece) {
      var j :| 0 <= j < |piece| && !IsSpace(piece[j]);
      assert !IsSpace(command[start + j]) && NoSeparator(command, start + j, b);
    }
    if Filled(command, b) {
      var k :| 0 <= k < b && !IsSpace(command[k]) && NoSeparator(command, k, b);
      assert k >= start;
      assert piece[k - start] == command[k];
    }
  }

  /** What the loop refuses at i is what ByteOk refuses, and a third "&". */
  lemma RefusedByte(command: string, i: nat)
    requires i < |command|
    ensures var m := ModeAt(command, i);
      var joins := Allowed(m, command, i) && (m == Bare ==> command[i] !in {'|', '&'});
      && (joins ==> ByteOk(command, i) && !Separates(command, i) && !EndsPiece(command, i))
      && (!Allowed(m, command, i) && (m == Bare ==> command[i] !in {'|', '&'}) ==> !ByteOk(command, i))
  {
  }

  lemma AfterAmpersand(command: string, i: nat)
    requires i < |command| && AfterBareAmpersand(command, i)
    ensures ModeAt(command, i) == Bare
  {
    RunSnoc(Bare, command, i - 1);
  }

  /** Three in a row: the loop stops, and the middle one is wrong. */
  lemma ThirdRefused(command: string, raws: seq<string>, start: nat, i: nat)
    requires i < |command| && Reads(command, raws, start, i, ModeAt(command, i))
    requires Stands(command, start, i) && ThirdAmpersand(command, i)
    ensures Segments(command).None? && !Acceptable(command)
  {
    AfterAmpersand(command, i);
    assert Separates(command, i - 1);
    assert start == i;
    assert !ByteOk(command, i - 1) by {
      assert BareAt(command, i - 1, '&') && AfterBareAmpersand(command, i - 1);
    }
    if FollowedBy(command, i, '&') {
      ReadsSeparator(command, raws, start, i);
      assert command[start..i] == "";
    } else {
      ReadsRefused(command, raws, start, i, Bare);
    }
  }

  /** A lone "&" or a doubled "|". */
  lemma WrongSeparator(command: string, raws: seq<string>, start: nat, i: nat)
    requires Reads(command, raws, start, i, Bare) && ModeAt(command, i) == Bare && i < |command| && Separates(command, i)
    requires !ThirdAmpersand(command, i)
    requires if command[i] == '|' then FollowedBy(command, i, '|') else !FollowedBy(command, i, '&')
    ensures Segments(command).None? && !Acceptable(command)
  {
    ReadsRefused(command, raws, start, i, Bare);
    assert !ByteOk(command, i);
  }

  /** A whole separator at i; the next piece starts behind it. */
  lemma SeparatorStep(command: string, raws: seq<string>, start: nat, i: nat) returns (next: nat)
    requires Reads(command, raws, start, i, Bare) && ModeAt(command, i) == Bare && i < |command| && Separates(command, i)
    requires Stands(command, start, i) && FineBefore(command, i) && !ThirdAmpersand(command, i)
    requires if command[i] == '|' then !FollowedBy(command, i, '|') else FollowedBy(command, i, '&')
    ensures Trim(command[start..i]) == "" ==> Segments(command).None? && !Acceptable(command)
    ensures Trim(command[start..i]) != "" ==>
      && i < next <= |command| && ModeAt(command, next) == Bare
      && Reads(command, raws + [command[start..i]], next, next, Bare)
      && Stands(command, next, next) && FineBefore(command, next)
  {
    next := if command[i] == '|' then i + 1 else i + 2;
    FilledIsNotBlank(command, start, i);
    ReadsSeparator(command, raws, start, i);
    RunSnoc(Bare, command, i);
    if command[i] == '&' {
      RunSnoc(Bare, command, i + 1);
    }
    if Trim(command[start..i]) == "" {
      assert EndsPiece(command, i) && !Filled(command, i);
    } else {
      PassedSeparator(command, i, next);
    }
  }

  lemma PassedSeparator(command: string, i: nat, next: nat)
    requires i < |command| && Separates(command, i) && next == if command[i] == '|' then i + 1 else i + 2
    requires FineBefore(command, i) && !ThirdAmpersand(command, i) && Filled(command, i)
    requires if command[i] == '|' then !FollowedBy(command, i, '|') else FollowedBy(command, i, '&')
    requires ModeAt(command, i + 1) == Bare
    ensures FineBefore(command, next)
  {
    forall j | 0 <= j < next ensures ByteOk(command, j) || (j == next - 1 && ThirdAmpersand(command, next)) {
      if j < i {
        assert ByteOk(command, j);
      }
    }
    forall b | 0 <= b < next && EndsPiece(command, b)
      ensures Filled(command, b) || (b == next - 1 && ThirdAmpersand(command, next))
    {
      if b < i {
        assert Filled(command, b);
      }
    }
  }

  lemma FineAtEnd(command: string)
    requires FineBefore(command, |command|) && Run(Bare, command) == Bare
    ensures Acceptable(command) <==> Filled(command, |command|)
  {
    var n := |command|;
    assert EndsPiece(command, n);
    if Filled(command, n) {
      forall b | 0 <= b <= n && EndsPiece(command, b) ensures Filled(command, b) {
        assert b < n ==> Filled(command, b);
      }
      forall i | 0 <= i < n ensures ByteOk(command, i) {
        assert !ThirdAmpersand(command, n);
      }
    }
  }

  /** At the end of the command the last piece decides. */
  lemma JudgeEnd(command: string, raws: seq<string>, start: nat)
    requires Reads(command, raws, start, |command|, Run(Bare, command))
    requires Stands(command, start, |command|) && FineBefore(command, |command|)
    ensures Segments(command).Some? <==> Acceptable(command)
  {
    ReadsEnd(command, raws, start, Run(Bare, command));
    FilledIsNotBlank(command, start, |command|);
    assert command[start..|command|] == command[start..];
    if Run(Bare, command) == Bare {
      FineAtEnd(command);
    }
  }

  lemma {:induction false} Judge(command: string, raws: seq<string>, start: nat, i: nat)
    requires i <= |command| && Reads(command, raws, start, i, ModeAt(command, i))
    requires Stands(command, start, i) && FineBefore(command, i)
    ensures Segments(command).Some? <==> Acceptable(command)
    decreases |command| - i
  {
    if i == |command| {
      assert command[..i] == command;
      JudgeEnd(command, raws, start);
    } else if ThirdAmpersand(command, i) {
      ThirdRefused(command, raws, start, i);
    } else if Separates(command, i) {
      if (if command[i] == '|' then FollowedBy(command, i, '|') else !FollowedBy(command, i, '&')) {
        WrongSeparator(command, raws, start, i);
      } else {
        var next := SeparatorStep(command, raws, start, i);
        if Trim(command[start..i]) != "" {
          Judge(command, raws + [command[start..i]], next, next);
        }
      }
    } else {
      RefusedByte(command, i);
      if Allowed(ModeAt(command, i), command, i) {
        ReadsOn(command, raws, start, i, ModeAt(command, i));
        RunSnoc(Bare, command, i);
        Judge(command, raws, start, i + 1);
      } else {
        ReadsRefused(command, raws, start, i, ModeAt(command, i));
      }
    }
  }

  /**
   A command is accepted exactly when its quotes close, no byte stands where it could redirect, substitute,
   group, background or chain another command, and something stands in front of each separator and at the end.
   */
  lemma AcceptedBytes(command: string)
    ensures Segments(command).Some? <==> Acceptable(command)
  {
    ReadsNothing(command);
    Judge(command, [], 0, 0);
  }

  /** The same in one direction, with the bytes in place. */
  lemma NothingElseRuns(command: string, i: nat)
    requires Segments(command).Some? && i < |command|
    ensures ModeAt(command, i) == Bare ==>
      command[i] !in {'\n', '\r', ';', '<', '>', '`', '(', ')'}
    ensures ModeAt(command, i) == Double ==> command[i] != '`'
    ensures ModeAt(command, i) in {Bare, Double} && command[i] == '$' && i + 1 < |command| ==> command[i + 1] !in {'(', '{'}
    ensures ModeAt(command, i) == Bare && command[i] == '|' ==>
      (i + 1 < |command| ==> command[i + 1] != '|') && (i > 0 && ModeAt(command, i - 1) == Bare ==> command[i - 1] != '|')
    ensures ModeAt(command, i) == Bare && command[i] == '&' ==>
      (i + 1 < |command| && command[i + 1] == '&') != (i > 0 && ModeAt(command, i - 1) == Bare && command[i - 1] == '&')
  {
    AcceptedBytes(command);
    assert ByteOk(command, i);
    assert i > 0 ==> ByteOk(command, i - 1);
  }
}
