/** The splitter accepts exactly what the grammar derives, and undoes joining with " | ". */
module ApprovalSplitLaws {
  import opened Basics
  import opened Text
  import opened ShellLexer
  import opened ApprovalSplit

  /** Piece for text that begins in state m. */
  ghost predicate PieceFrom(p: string, m: Mode)
    decreases |p|
  {
    if p == "" then m == Bare
    else Allowed(m, p, 0) && PieceFrom(p[1..], Next(m, p[0]))
  }

  lemma {:induction false} PiecePositions(p: string, m: Mode)
    ensures PieceFrom(p, m) <==> Run(m, p) == Bare && forall i | 0 <= i < |p| :: AllowedAt(m, p, i)
    decreases |p|
  {
    if p != "" {
      var q, n := p[1..], Next(m, p[0]);
      PiecePositions(q, n);
      assert p[..0] == "" && AllowedAt(m, p, 0) == Allowed(m, p, 0);
      forall i | 0 < i < |p|
        ensures AllowedAt(m, p, i) == AllowedAt(n, q, i - 1)
      {
        assert p[..i][1..] == q[..i - 1];
      }
      if forall i | 0 <= i < |p| :: AllowedAt(m, p, i) {
        forall i | 0 <= i < |q| ensures AllowedAt(n, q, i) {
          assert AllowedAt(m, p, i + 1) == AllowedAt(n, q, i + 1 - 1);
        }
      }
    }
  }

  lemma PieceIsPieceFrom(p: string)
    ensures Piece(p) <==> PieceFrom(p, Bare)
  {
    PiecePositions(p, Bare);
  }

  /** A following separator does not change what is allowed in front of it. */
  lemma AllowedBefore(m: Mode, p: string, tail: string)
    requires p != "" && (tail == "" || tail[0] in {'|', '&'})
    ensures Allowed(m, p + tail, 0) <==> Allowed(m, p, 0)
  {
    assert |p| == 1 && tail != "" ==> (p + tail)[1] == tail[0];
  }

  /** What follows the first piece. */
  ghost function Tail(raws: seq<string>, seps: seq<Separator>): (t: string)
    requires |raws| == |seps| + 1
    ensures Interleave(raws, seps) == raws[0] + t
    ensures t == "" || t[0] in {'|', '&'}
  {
    if |raws| == 1 then
      assert raws[0] + "" == raws[0];
      ""
    else
      assert raws[0] + seps[0].Text() + Interleave(raws[1..], seps[1..])
          == raws[0] + (seps[0].Text() + Interleave(raws[1..], seps[1..]));
      seps[0].Text() + Interleave(raws[1..], seps[1..])
  }

  function Grown(c: char, pieces: seq<string>): seq<string>
    requires pieces != []
  {
    [[c] + pieces[0]] + pieces[1..]
  }

  lemma InterleaveGrown(c: char, inner: seq<string>, seps: seq<Separator>)
    requires |inner| == |seps| + 1
    ensures Interleave(Grown(c, inner), seps) == [c] + Interleave(inner, seps)
  {
    assert Grown(c, inner)[1..] == inner[1..];
    if |inner| > 1 {
      var tail := Interleave(inner[1..], seps[1..]);
      assert [c] + inner[0] + seps[0].Text() + tail == [c] + (inner[0] + seps[0].Text() + tail);
    }
  }

  /** Reading one more allowed character in front. */
  lemma ScanGrown(c: char, rest: string, m: Mode, inner: seq<string>)
    requires Allowed(m, [c] + rest, 0) && (m == Bare ==> c !in {'|', '&'})
    requires inner != [] && Scan(rest, Next(m, c)) == Some(inner)
    ensures Scan([c] + rest, m) == Some(Grown(c, inner))
  {
    assert ([c] + rest)[1..] == rest;
  }

  lemma {:induction false} ScanDerived(raws: seq<string>, seps: seq<Separator>, m: Mode)
    requires |raws| == |seps| + 1
    requires PieceFrom(raws[0], m)
    requires forall k | 1 <= k < |raws| :: PieceFrom(raws[k], Bare) && raws[k] != ""
    ensures Scan(Interleave(raws, seps), m) == Some(raws)
    decreases |raws|, |raws[0]|
  {
    if raws[0] != "" {
      ScanDerivedPush(raws, seps, m);
    } else if |raws| > 1 {
      ScanDerivedCut(raws, seps);
    } else {
      assert raws == [""];
    }
  }

  lemma {:induction false} ScanDerivedPush(raws: seq<string>, seps: seq<Separator>, m: Mode)
    requires |raws| == |seps| + 1
    requires PieceFrom(raws[0], m) && raws[0] != ""
    requires forall k | 1 <= k < |raws| :: PieceFrom(raws[k], Bare) && raws[k] != ""
    ensures Scan(Interleave(raws, seps), m) == Some(raws)
    decreases |raws|, |raws[0]|, 0
  {
    var p := raws[0];
    var raws' := [p[1..]] + raws[1..];
    assert [p[0]] + p[1..] == p && raws'[1..] == raws[1..];
    assert raws == Grown(p[0], raws');
    InterleaveGrown(p[0], raws', seps);
    AllowedBefore(m, p, Tail(raws, seps));
    ScanDerived(raws', seps, Next(m, p[0]));
    ScanGrown(p[0], Interleave(raws', seps), m, raws');
  }

  lemma {:induction false} ScanDerivedCut(raws: seq<string>, seps: seq<Separator>)
    requires |raws| == |seps| + 1 && |raws| > 1 && raws[0] == ""
    requires forall k | 1 <= k < |raws| :: PieceFrom(raws[k], Bare) && raws[k] != ""
    ensures Scan(Interleave(raws, seps), Bare) == Some(raws)
    decreases |raws|, |raws[0]|, 0
  {
    var s, rest := Interleave(raws, seps), Interleave(raws[1..], seps[1..]);
    ScanDerived(raws[1..], seps[1..], Bare);
    InterleaveStart(raws[1..], seps[1..]);
    assert s == seps[0].Text() + rest;
    assert seps[0] == Pipe ==> s[1..] == rest;
    assert seps[0] == AndAnd ==> s[2..] == rest;
    assert [""] + raws[1..] == raws;
  }

  /** A non-empty first piece does not begin with a separator. */
  lemma InterleaveStart(raws: seq<string>, seps: seq<Separator>)
    requires |raws| == |seps| + 1 && raws[0] != "" && PieceFrom(raws[0], Bare)
    ensures Interleave(raws, seps) != "" && Interleave(raws, seps)[0] !in {'|', '&'}
  {
  }

  lemma InterleaveCut(sep: Separator, inner: seq<string>, seps: seq<Separator>)
    requires |inner| == |seps| + 1
    ensures Interleave([""] + inner, [sep] + seps) == sep.Text() + Interleave(inner, seps)
  {
    assert ([""] + inner)[1..] == inner && ([sep] + seps)[1..] == seps;
    assert "" + sep.Text() == sep.Text();
  }

  lemma {:induction false} ScanSound(s: string, m: Mode) returns (seps: seq<Separator>)
    requires Scan(s, m).Some?
    ensures var raws := Scan(s, m).value;
      && |raws| == |seps| + 1
      && s == Interleave(raws, seps)
      && PieceFrom(raws[0], m)
      && forall k | 1 <= k < |raws| :: PieceFrom(raws[k], Bare)
    decreases |s|
  {
    var raws := Scan(s, m).value;
    if s == "" {
      seps := [];
    } else if m == Bare && s[0] in {'|', '&'} {
      var sep := if s[0] == '|' then Pipe else AndAnd;
      var after := if s[0] == '|' then s[1..] else s[2..];
      var rest := ScanSound(after, Bare);
      seps := [sep] + rest;
      assert raws == [""] + Scan(after, Bare).value;
      InterleaveCut(sep, Scan(after, Bare).value, rest);
      assert s == sep.Text() + after;
    } else {
      var n := Next(m, s[0]);
      seps := ScanSound(s[1..], n);
      assert raws == Grown(s[0], Scan(s[1..], n).value);
      ScanSoundPush(s, m, Scan(s[1..], n).value, seps);
    }
  }

  lemma PieceGrown(c: char, p: string, m: Mode, tail: string)
    requires PieceFrom(p, Next(m, c)) && Allowed(m, [c] + (p + tail), 0) && (tail == "" || tail[0] in {'|', '&'})
    ensures PieceFrom([c] + p, m)
  {
    assert ([c] + p)[1..] == p && [c] + p + tail == [c] + (p + tail);
    AllowedBefore(m, [c] + p, tail);
  }

  /** One more character in front of the first piece. */
  lemma ScanSoundPush(s: string, m: Mode, inner: seq<string>, seps: seq<Separator>)
    requires s != "" && Allowed(m, s, 0)
    requires |inner| == |seps| + 1 && s[1..] == Interleave(inner, seps)
    requires PieceFrom(inner[0], Next(m, s[0]))
    ensures s == Interleave(Grown(s[0], inner), seps) && PieceFrom(Grown(s[0], inner)[0], m)
  {
    assert s == [s[0]] + s[1..];
    InterleaveGrown(s[0], inner, seps);
    PieceGrown(s[0], inner[0], m, Tail(inner, seps));
  }

  lemma BlankText()
    ensures Trim("") == ""
  {
  }

  /** Completeness: every derivation is found, so the pieces of a command are unique. */
  lemma DerivedAccepted(command: string, raws: seq<string>, seps: seq<Separator>)
    requires Derives(command, raws, seps)
    ensures Segments(command) == Some(Trimmed(raws))
  {
    BlankText();
    forall k | 0 <= k < |raws| ensures PieceFrom(raws[k], Bare) && raws[k] != "" {
      PieceIsPieceFrom(raws[k]);
    }
    ScanDerived(raws, seps, Bare);
  }

  /** Soundness: an accepted command has a derivation, and the result is its trimmed pieces. */
  lemma AcceptedDerived(command: string) returns (raws: seq<string>, seps: seq<Separator>)
    requires Segments(command).Some?
    ensures Derives(command, raws, seps) && Segments(command).value == Trimmed(raws)
  {
    raws := Scan(command, Bare).value;
    seps := ScanSound(command, Bare);
    forall k | 0 <= k < |raws| ensures Piece(raws[k]) && Trim(raws[k]) != "" {
      PieceIsPieceFrom(raws[k]);
    }
  }

  /** The splitter accepts exactly the language of the grammar. */
  lemma SplitMeetsGrammar(command: string)
    ensures Segments(command).Some? <==> exists raws, seps :: Derives(command, raws, seps)
    ensures forall raws, seps | Derives(command, raws, seps) :: Segments(command) == Some(Trimmed(raws))
  {
    forall raws, seps | Derives(command, raws, seps)
      ensures Segments(command) == Some(Trimmed(raws))
    {
      DerivedAccepted(command, raws, seps);
    }
    if Segments(command).Some? {
      var raws, seps := AcceptedDerived(command);
    }
  }

  // ----- Joining and splitting again -----

  ghost function JoinPipes(segments: seq<string>): string
    requires segments != []
  {
    if |segments| == 1 then segments[0] else segments[0] + " | " + JoinPipes(segments[1..])
  }

  /** What a trimmed piece of an accepted command looks like. */
  ghost predicate Segment(s: string) {
    && s != "" && IsTrimmed(s)
    && Run(Bare, s) in {Bare, BareEscape}
    && forall i | 0 <= i < |s| :: AllowedAt(Bare, s, i)
  }

  lemma {:induction false} SpaceRun(pad: string)
    requires AllSpace(pad)
    ensures Run(Bare, pad) == Bare
    decreases |pad|
  {
    if pad != "" {
      SpaceRun(pad[1..]);
    }
  }

  lemma {:induction false} SpaceRunFrom(m: Mode, pad: string)
    requires AllSpace(pad) && Run(m, pad) == Bare
    ensures m in {Bare, BareEscape}
    decreases |pad|
  {
    if pad != "" {
      SpaceRunFrom(Next(m, pad[0]), pad[1..]);
    }
  }

  lemma PieceTrimmed(raw: string)
    requires Piece(raw) && Trim(raw) != ""
    ensures Segment(Trim(raw))
  {
    var left, right := TrimSplit(raw);
    var s := Trim(raw);
    SpaceRun(left);
    RunConcat(Bare, left + s, right);
    RunConcat(Bare, left, s);
    SpaceRunFrom(Run(Bare, s), right);
    forall i | 0 <= i < |s| ensures AllowedAt(Bare, s, i) {
      var j := |left| + i;
      assert raw[..j] == left + s[..i];
      RunConcat(Bare, left, s[..i]);
      assert AllowedAt(Bare, raw, j);
    }
  }

  /** Padding a segment with spaces gives a piece that trims back to it. */
  lemma PaddedSegment(left: string, s: string, right: string)
    requires Segment(s)
    requires left in {"", " "} && right in {"", " "}
    requires right == "" ==> Run(Bare, s) == Bare
    ensures Piece(left + s + right) && Trim(left + s + right) == s
  {
    var p := left + s + right;
    TrimUnique(left, s, right);
    SpaceRun(left);
    RunConcat(Bare, left + s, right);
    RunConcat(Bare, left, s);
    assert Run(Run(Bare, s), right) == Bare by {
      if right == " " {
        assert Run(Run(Bare, s), " ") == Run(Next(Run(Bare, s), ' '), " "[1..]);
      }
    }
    forall i | 0 <= i < |p| ensures AllowedAt(Bare, p, i) {
      var j := i - |left|;
      if 0 <= j < |s| {
        assert p[..i] == left + s[..j];
        RunConcat(Bare, left, s[..j]);
        assert AllowedAt(Bare, s, j);
        assert p[i] == s[j] && (j + 1 < |s| ==> p[i + 1] == s[j + 1]);
      } else {
        assert p[i] == ' ';
      }
    }
  }

  ghost function Pads(segments: seq<string>, left: string): (raws: seq<string>)
    ensures |raws| == |segments|
  {
    seq(|segments|, k requires 0 <= k < |segments| =>
      (if k == 0 then left else " ") + segments[k] + (if k == |segments| - 1 then "" else " "))
  }

  ghost function Pipes(n: nat): seq<Separator> {
    seq(n, _ => Pipe)
  }

  lemma {:induction false} JoinIsInterleave(segments: seq<string>, left: string)
    requires segments != []
    ensures Interleave(Pads(segments, left), Pipes(|segments| - 1)) == left + JoinPipes(segments)
  {
    var raws, seps := Pads(segments, left), Pipes(|segments| - 1);
    if |segments| > 1 {
      JoinIsInterleave(segments[1..], " ");
      assert raws[1..] == Pads(segments[1..], " ") && seps[1..] == Pipes(|segments| - 2);
      assert raws[0] + "|" + (" " + JoinPipes(segments[1..]))
          == left + (segments[0] + " | " + JoinPipes(segments[1..]));
    } else {
      assert raws[0] == left + segments[0] + "" == left + segments[0];
    }
  }

  lemma {:induction false} JoinRun(segments: seq<string>)
    requires segments != []
    requires forall k | 0 <= k < |segments| :: Segment(segments[k])
    ensures Run(Bare, JoinPipes(segments)) == Run(Bare, segments[|segments| - 1])
  {
    if |segments| > 1 {
      JoinRun(segments[1..]);
      var s, rest := segments[0], JoinPipes(segments[1..]);
      PaddedSegment("", s, " ");
      assert "" + s + " " == s + " ";
      assert JoinPipes(segments) == (s + " ") + ("| " + rest);
      RunConcat(Bare, s + " ", "| " + rest);
      RunConcat(Bare, "| ", rest);
      assert "| "[1..] == " ";
      assert Run(Bare, "| ") == Run(Bare, " ") == Bare by { SpaceRun(" "); }
    }
  }

  lemma {:induction false} DerivedRun(raws: seq<string>, seps: seq<Separator>)
    requires |raws| == |seps| + 1
    requires forall k | 0 <= k < |raws| :: Piece(raws[k])
    ensures Run(Bare, Interleave(raws, seps)) == Bare
  {
    if |raws| > 1 {
      var rest := Interleave(raws[1..], seps[1..]);
      DerivedRun(raws[1..], seps[1..]);
      RunConcat(Bare, raws[0] + seps[0].Text(), rest);
      RunConcat(Bare, raws[0], seps[0].Text());
      assert "&&"[1..] == "&" && Run(Bare, "&") == Run(Bare, "&"[1..]) && Run(Bare, "|") == Run(Bare, "|"[1..]);
    }
  }

  /**
   Joining the result with " | " and splitting again gives the same list, unless trimming left the last
   piece with a dangling escape; then the joined text is refused.
   */
  lemma SplitJoin(command: string)
    requires Segments(command).Some?
    ensures var segments := Segments(command).value;
      && segments != []
      && Segments(JoinPipes(segments)) ==
           if Run(Bare, segments[|segments| - 1]) == Bare then Some(segments) else None
  {
    var raws, seps := AcceptedDerived(command);
    var segments := Trimmed(raws);
    forall k | 0 <= k < |segments| ensures Segment(segments[k]) {
      PieceTrimmed(raws[k]);
    }
    var joined := JoinPipes(segments);
    if Run(Bare, segments[|segments| - 1]) == Bare {
      JoinIsInterleave(segments, "");
      assert "" + joined == joined;
      var pads := Pads(segments, "");
      forall k | 0 <= k < |pads| ensures Piece(pads[k]) && Trim(pads[k]) == segments[k] {
        PaddedSegment(if k == 0 then "" else " ", segments[k], if k == |pads| - 1 then "" else " ");
      }
      DerivedAccepted(joined, pads, Pipes(|segments| - 1));
      assert Trimmed(pads) == segments;
    } else {
      JoinRun(segments);
      if Segments(joined).Some? {
        var raws', seps' := AcceptedDerived(joined);
        DerivedRun(raws', seps');
      }
    }
  }

  lemma {:induction false} InterleaveEnd(raws: seq<string>, seps: seq<Separator>)
    requires |raws| == |seps| + 1 && raws[|seps|] != ""
    ensures var text, last := Interleave(raws, seps), raws[|seps|];
      text != "" && text[|text| - 1] == last[|last| - 1]
  {
    if |raws| > 1 {
      InterleaveEnd(raws[1..], seps[1..]);
    }
  }

  /** The last character of a padded text is white space unless there is no padding behind it. */
  lemma LastOfPadded(left: string, core: string, right: string)
    requires core != "" && AllSpace(right)
    ensures var text := left + core + right;
      right == "" || IsSpace(text[|text| - 1])
  {
  }

  /** The splitter's caller passes a trimmed command, and for those joining and splitting always gives the list back. */
  lemma TrimmedSplitJoin(command: string)
    requires Segments(command).Some? && IsTrimmed(command)
    ensures Segments(command).value != []
    ensures Segments(JoinPipes(Segments(command).value)) == Segments(command)
  {
    SplitJoin(command);
    var raws, seps := AcceptedDerived(command);
    var last := raws[|raws| - 1];
    var left, right := TrimSplit(last);
    assert Trim(last) != "";
    InterleaveEnd(raws, seps);
    LastOfPadded(left, Trim(last), right);
    assert left + Trim(last) + "" == left + Trim(last);
    SpaceRun(left);
    RunConcat(Bare, left, Trim(last));
  }

  /** Untrimmed, "ls", a backslash and a space are one piece; trimmed, its backslash escapes nothing. */
  lemma DanglingEscapeLost()
    ensures var command := "ls\\ ";
      && Segments(command) == Some(["ls\\"])
      && Segments(JoinPipes(["ls\\"])) == None
  {
    var command, escape := "ls\\ ", "ls\\";
    assert escape[1..] == "s\\" && "s\\"[1..] == "\\" && "\\"[1..] == "";
    assert Run(Bare, escape) == Run(Bare, "s\\") == Run(Bare, "\\") == Run(BareEscape, "");
    RunSnoc(Bare, command, 3);
    assert command[..4] == command && command[..3] == escape;
    assert forall i | 0 <= i < |command| :: command[i] in {'l', 's', '\\', ' '};
    TrimUnique("", escape, " ");
    assert "" + escape + " " == command;
    assert Piece(command);
    DerivedAccepted(command, [command], []);
    assert Trimmed([command]) == [escape];
    SplitJoin(command);
  }

  /** A text is accepted after trimming only if its quotes are closed. */
  lemma AcceptedClosed(text: string)
    requires Segments(Trim(text)).Some?
    ensures Run(Bare, text) in {Bare, BareEscape}
  {
    var left, right := TrimSplit(text);
    var raws, seps := AcceptedDerived(Trim(text));
    DerivedRun(raws, seps);
    SpaceRun(left);
    RunConcat(Bare, left + Trim(text), right);
    RunConcat(Bare, left, Trim(text));
    SpaceRun(right);
  }
}
