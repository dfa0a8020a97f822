/** What the policy copy keeps of a command and when an added null redirection makes no difference. */
module NullRedirectionLaws {
  import opened Text
  import opened ShellLexer
  import opened NullRedirection

  /** One written character: a copied one, or the space that replaces command[from..to]. */
  datatype Edit = Keep(at: nat) | Blank(from: nat, to: nat) {
    function Start(): nat { if Keep? then at else from }
    function Stop(): nat { if Keep? then at + 1 else to }
  }

  /** The edits cut [lo, hi) into consecutive pieces: spans are disjoint and nothing else is lost. */
  ghost predicate Tiles(edits: seq<Edit>, lo: nat, hi: nat) {
    if edits == [] then lo == hi
    else edits[0].Start() == lo < edits[0].Stop() && Tiles(edits[1..], edits[0].Stop(), hi)
  }

  ghost function Edits(command: string, i: nat, m: Mode): seq<Edit>
    requires i <= |command|
    decreases |command| - i
  {
    if i == |command| then []
    else if m == Bare && RedirectionEnd(command, i) > 0 then
      [Blank(i, RedirectionEnd(command, i))] + Edits(command, RedirectionEnd(command, i), Bare)
    else
      [Keep(i)] + Edits(command, i + 1, Next(m, command[i]))
  }

  /** e is a faithful edit of command: a bare null redirection, or a character that starts none. */
  ghost predicate Justified(command: string, e: Edit) {
    match e
    case Keep(at) => at < |command| && (ModeAt(command, at) == Bare ==> RedirectionEnd(command, at) == 0)
    case Blank(from, to) => from <= |command| && ModeAt(command, from) == Bare && IsNullRedirection(command, from, to)
  }

  /** out[j] is what e writes, read in the same quote and escape state as its origin. */
  ghost predicate WrittenBy(command: string, out: string, j: nat, e: Edit)
    requires j < |out| && e.Start() < |command|
  {
    && out[j] == (if e.Keep? then command[e.at] else ' ')
    && ModeAt(out, j) == ModeAt(command, e.Start())
  }

  predicate Plain(s: string) {
    forall k | 0 <= k < |s| :: s[k] !in {'\\', '\'', '"'}
  }

  lemma {:induction false} PlainRun(s: string)
    requires Plain(s)
    ensures Run(Bare, s) == Bare
    decreases |s|
  {
    if s != "" {
      PlainRun(s[1..]);
    }
  }

  lemma SpanIsPlain(command: string, a: nat, b: nat)
    requires IsNullRedirection(command, a, b)
    ensures Plain(command[a..b])
  {
    var t := b - |NULL_DEVICE|;
    forall k | a <= k < b
      ensures command[k] !in {'\\', '\'', '"'}
    {
      if k >= t {
        assert command[k] == command[t..b][k - t];
      }
    }
  }

  lemma SpanMode(command: string, a: nat, b: nat, k: nat)
    requires IsNullRedirection(command, a, b) && ModeAt(command, a) == Bare
    requires a <= k <= b
    ensures ModeAt(command, k) == Bare
  {
    SpanIsPlain(command, a, b);
    assert Plain(command[a..k]) by {
      forall j | 0 <= j < k - a ensures command[a..k][j] !in {'\\', '\'', '"'} {
        assert command[a..k][j] == command[a..b][j];
      }
    }
    PlainRun(command[a..k]);
    assert command[..k] == command[..a] + command[a..k];
    RunConcat(Bare, command[..a], command[a..k]);
  }

  /** How the scan goes on from i: after a replaced span, or after one kept character. */
  lemma EditsStep(command: string, i: nat, m: Mode) returns (e: Edit, next: nat, n: Mode)
    requires i < |command| && m == ModeAt(command, i)
    ensures i < next <= |command| && n == ModeAt(command, next) && e.Start() == i && e.Stop() == next
    ensures Edits(command, i, m) == [e] + Edits(command, next, n)
    ensures StrippedFrom(command, i, m) == [if e.Keep? then command[i] else ' '] + StrippedFrom(command, next, n)
    ensures Justified(command, e) && n == Next(m, if e.Keep? then command[i] else ' ')
    ensures forall k | i <= k < next && ModeAt(command, k) != Bare :: Keep(k) == e
  {
    if m == Bare && RedirectionEnd(command, i) > 0 {
      next, n := RedirectionEnd(command, i), Bare;
      e := Blank(i, next);
      forall k | i <= k <= next ensures ModeAt(command, k) == Bare {
        SpanMode(command, i, next, k);
      }
    } else {
      RunSnoc(Bare, command, i);
      e, next, n := Keep(i), i + 1, Next(m, command[i]);
    }
  }

  lemma {:induction false} EditsTile(command: string, i: nat, m: Mode)
    requires i <= |command| && m == ModeAt(command, i)
    ensures Tiles(Edits(command, i, m), i, |command|)
    ensures |Edits(command, i, m)| == |StrippedFrom(command, i, m)|
    decreases |command| - i
  {
    if i < |command| {
      var e, next, n := EditsStep(command, i, m);
      EditsTile(command, next, n);
    }
  }

  lemma {:induction false} EditsJustified(command: string, i: nat, m: Mode, e: Edit)
    requires i <= |command| && m == ModeAt(command, i) && e in Edits(command, i, m)
    ensures Justified(command, e) && i <= e.Start() < |command|
    decreases |command| - i
  {
    if i < |command| {
      var first, next, n := EditsStep(command, i, m);
      if e != first {
        EditsJustified(command, next, n, e);
      }
    }
  }

  lemma {:induction false} EditsKeepQuoted(command: string, i: nat, m: Mode, k: nat)
    requires i <= k < |command| && m == ModeAt(command, i) && ModeAt(command, k) != Bare
    ensures Keep(k) in Edits(command, i, m)
    decreases |command| - i
  {
    var first, next, n := EditsStep(command, i, m);
    if k >= next {
      EditsKeepQuoted(command, next, n, k);
    }
  }

  /** out holds, from position at on, what the edits write. */
  ghost predicate WrittenFrom(command: string, out: string, at: nat, edits: seq<Edit>)
    decreases |edits|
  {
    edits == [] || (
      && at < |out| && edits[0].Start() < |command|
      && WrittenBy(command, out, at, edits[0])
      && WrittenFrom(command, out, at + 1, edits[1..]))
  }

  lemma {:induction false} WrittenFromAt(command: string, out: string, at: nat, edits: seq<Edit>, j: nat)
    requires WrittenFrom(command, out, at, edits) && j < |edits|
    ensures at + j < |out| && edits[j].Start() < |command| && WrittenBy(command, out, at + j, edits[j])
    decreases j
  {
    if j > 0 {
      WrittenFromAt(command, out, at + 1, edits[1..], j - 1);
      assert edits[1..][j - 1] == edits[j];
    }
  }

  /** The scan from i, added to what was already written, writes each edit in its state. */
  ghost predicate Writes(command: string, i: nat, m: Mode, done: string)
    requires i <= |command|
  {
    var out := done + StrippedFrom(command, i, m);
    && WrittenFrom(command, out, |done|, Edits(command, i, m))
    && Run(Bare, out) == Run(Bare, command)
  }

  lemma {:induction false} EditsWrite(command: string, i: nat, m: Mode, done: string)
    requires i <= |command| && m == ModeAt(command, i) == Run(Bare, done)
    ensures Writes(command, i, m, done)
    decreases |command| - i
  {
    if i == |command| {
      assert command[..i] == command && done + "" == done;
    } else {
      var e, next, n := EditsStep(command, i, m);
      var c := if e.Keep? then command[i] else ' ';
      RunOne(Bare, done, c);
      EditsWrite(command, next, n, done + [c]);
      WritesOneMore(command, done, c, e, StrippedFrom(command, next, n), Edits(command, next, n));
    }
  }

  /** One more edit in front: the characters behind it keep their places. */
  lemma WritesOneMore(command: string, done: string, c: char, e: Edit, rest: string, tail: seq<Edit>)
    requires e.Start() < |command| && c == (if e.Keep? then command[e.Start()] else ' ')
    requires ModeAt(command, e.Start()) == Run(Bare, done)
    requires WrittenFrom(command, done + [c] + rest, |done| + 1, tail)
    ensures done + [c] + rest == done + ([c] + rest)
    ensures WrittenFrom(command, done + ([c] + rest), |done|, [e] + tail)
  {
    var out := done + ([c] + rest);
    assert done + [c] + rest == out && out[..|done|] == done && ([e] + tail)[1..] == tail;
  }

  lemma RunOne(m: Mode, s: string, c: char)
    ensures Run(m, s + [c]) == Next(Run(m, s), c)
  {
    RunConcat(m, s, [c]);
    assert Run(Run(m, s), [c]) == Run(Next(Run(m, s), c), [c][1..]);
  }

  /**
   The policy copy is the command with disjoint bare null redirections each replaced by one space.
   Every quoted or escaped character is kept, every kept character is read in the state it had, and none
   of them began a bare null redirection in the command; a new one may form from what is kept.
   */
  lemma StripStructure(command: string)
    ensures var es, out := Edits(command, 0, Bare), Stripped(command);
      && Tiles(es, 0, |command|)
      && (forall e | e in es :: Justified(command, e) && e.Start() < |command|)
      && (forall i | 0 <= i < |command| && ModeAt(command, i) != Bare :: Keep(i) in es)
      && |out| == |es|
      && (forall j | 0 <= j < |es| :: WrittenBy(command, out, j, es[j]))
      && Run(Bare, out) == Run(Bare, command)
  {
    var es, out := Edits(command, 0, Bare), Stripped(command);
    EditsTile(command, 0, Bare);
    EditsWrite(command, 0, Bare, "");
    assert "" + out == out;
    forall e | e in es ensures Justified(command, e) && e.Start() < |command| {
      EditsJustified(command, 0, Bare, e);
    }
    forall i | 0 <= i < |command| && ModeAt(command, i) != Bare ensures Keep(i) in es {
      EditsKeepQuoted(command, 0, Bare, i);
    }
    forall j | 0 <= j < |es| ensures WrittenBy(command, out, j, es[j]) {
      WrittenFromAt(command, out, 0, es, j);
    }
  }

  // ----- What counts as a null redirection, in text -----

  /** The text ends in a number of its own, other than 1 and 2. */
  ghost predicate EndsInDescriptor(pre: string) {
    exists head, digits :: NamesDescriptor(pre, head, digits)
  }

  predicate NamesDescriptor(pre: string, head: string, digits: string) {
    && pre == head + digits && digits != "" && digits != "1" && digits != "2"
    && (forall k | 0 <= k < |digits| :: '0' <= digits[k] <= '9')
    && (head == "" || head[|head| - 1] in {' ', '\t', '\r', '\n', ';', '|', '&', '('})
  }

  /** pre op blanks "/dev/null" post, where the operator is not part of a longer one. */
  ghost predicate NullRedirectionText(pre: string, op: string, blanks: string, post: string) {
    && (op == "&>" || (op == ">" && (pre == "" || pre[|pre| - 1] !in {'>', '<', '&'}) && !EndsInDescriptor(pre)))
    && (forall k | 0 <= k < |blanks| :: blanks[k] in {' ', '\t'})
    && (post == "" || post[0] in {' ', '\t', '\r', '\n', ';', '|', '&'})
  }

  ghost predicate IsTextOf(command: string, a: nat, b: nat, pre: string, op: string, blanks: string, post: string) {
    && command == pre + op + blanks + "/dev/null" + post
    && |pre| == a && |pre + op + blanks| + 9 == b
    && NullRedirectionText(pre, op, blanks, post)
  }

  lemma DescriptorHasText(command: string, a: nat, start: nat)
    requires DigitRun(command, start, a) && start < a
    requires start == 0 || IsTokenBoundary(command[start - 1]) || command[start - 1] == '('
    requires command[start..a] != "1" && command[start..a] != "2"
    ensures NamesDescriptor(command[..a], command[..start], command[start..a])
  {
    assert command[..a] == command[..start] + command[start..a];
    assert forall k | 0 <= k < a - start :: IsDigit(command[start..a][k]);
  }

  lemma TextIsDescriptor(command: string, a: nat, head: string, digits: string)
    requires a <= |command| && NamesDescriptor(command[..a], head, digits)
    ensures UnsupportedDescriptor(command, a)
  {
    var start := |head|;
    assert command[start..a] == digits && command[..start] == head;
    forall k | start <= k < a ensures IsDigit(command[k]) {
      assert command[k] == digits[k - start];
    }
    assert DigitRun(command, start, a);
  }

  lemma DescriptorText(command: string, a: nat)
    requires a <= |command|
    ensures UnsupportedDescriptor(command, a) <==> EndsInDescriptor(command[..a])
  {
    if UnsupportedDescriptor(command, a) {
      var start: nat :| DigitRun(command, start, a) && start < a
        && (start == 0 || IsTokenBoundary(command[start - 1]) || command[start - 1] == '(')
        && command[start..a] != "1" && command[start..a] != "2";
      DescriptorHasText(command, a, start);
    }
    if EndsInDescriptor(command[..a]) {
      var head, digits :| NamesDescriptor(command[..a], head, digits);
      TextIsDescriptor(command, a, head, digits);
    }
  }

  /** A span of a command is a null redirection exactly when the command reads so around it. */
  lemma RedirectionGrammar(command: string, a: nat, b: nat)
    ensures IsNullRedirection(command, a, b) <==>
      exists pre, op, blanks, post :: IsTextOf(command, a, b, pre, op, blanks, post)
  {
    if IsNullRedirection(command, a, b) {
      RedirectionHasText(command, a, b);
    }
    forall pre, op, blanks, post | IsTextOf(command, a, b, pre, op, blanks, post) ensures IsNullRedirection(command, a, b) {
      TextIsRedirection(command, a, b, pre, op, blanks, post);
    }
  }

  lemma RedirectionHasText(command: string, a: nat, b: nat)
    requires IsNullRedirection(command, a, b)
    ensures var o := a + OperatorLength(command, a);
      IsTextOf(command, a, b, command[..a], command[a..o], command[o..b - 9], command[b..])
  {
    var o := a + OperatorLength(command, a);
    DescriptorText(command, a);
    assert command == command[..a] + command[a..o] + command[o..b - 9] + command[b - 9..b] + command[b..];
    assert command[a..o] == if OperatorLength(command, a) == 2 then "&>" else ">";
  }

  lemma TextIsRedirection(command: string, a: nat, b: nat, pre: string, op: string, blanks: string, post: string)
    requires IsTextOf(command, a, b, pre, op, blanks, post)
    ensures IsNullRedirection(command, a, b)
  {
    var o := a + |op|;
    assert command[..a] == pre && command[a..o] == op && command[o..b - 9] == blanks;
    assert command[b - 9..b] == "/dev/null" && command[b..] == post;
    DescriptorText(command, a);
    NextAfterOperator(command, o, b, blanks);
    assert forall k | o <= k < b - 9 :: command[k] == blanks[k - o];
    assert OperatorLength(command, a) == |op|;
  }

  lemma NextAfterOperator(command: string, o: nat, b: nat, blanks: string)
    requires o + |blanks| + 9 == b <= |command| && command[o..b - 9] == blanks && command[b - 9..b] == "/dev/null"
    requires forall k | 0 <= k < |blanks| :: blanks[k] in {' ', '\t'}
    ensures o < |command| && command[o] in {' ', '\t', '/'}
  {
    if blanks == "" {
      assert command[o] == command[b - 9..b][0];
    } else {
      assert command[o] == blanks[0];
    }
  }

  const TO_NULL := " >/dev/null"

  lemma UnsupportedDescriptorExtended(c: string, rest: string, i: nat)
    requires i < |c|
    ensures UnsupportedDescriptor(c + rest, i) <==> UnsupportedDescriptor(c, i)
  {
    var d := c + rest;
    assert forall k | 0 <= k < i :: d[k] == c[k];
    assert forall start: nat | start <= i :: d[start..i] == c[start..i];
    if UnsupportedDescriptor(d, i) {
      var start: nat :| DigitRun(d, start, i) && start < i
        && (start == 0 || IsTokenBoundary(d[start - 1]) || d[start - 1] == '(')
        && d[start..i] != "1" && d[start..i] != "2";
      assert DigitRun(c, start, i) && c[start..i] == d[start..i];
    }
    if UnsupportedDescriptor(c, i) {
      var start: nat :| DigitRun(c, start, i) && start < i
        && (start == 0 || IsTokenBoundary(c[start - 1]) || c[start - 1] == '(')
        && c[start..i] != "1" && c[start..i] != "2";
      assert DigitRun(d, start, i) && c[start..i] == d[start..i];
    }
  }

  lemma OperatorExtended(c: string, i: nat)
    requires i < |c|
    ensures OperatorLength(c + TO_NULL, i) == OperatorLength(c, i)
  {
    UnsupportedDescriptorExtended(c, TO_NULL, i);
    assert TO_NULL[0] == ' ';
    assert |c| == i + 1 ==> (c + TO_NULL)[i + 1] == ' ';
    assert |c| == i + 2 ==> (c + TO_NULL)[i + 2] == ' ';
  }

  /** The added text cannot complete a redirection begun in c, nor break one. */
  lemma RedirectionExtended(c: string, i: nat)
    requires i < |c|
    ensures RedirectionEnd(c + TO_NULL, i) == RedirectionEnd(c, i)
  {
    var d := c + TO_NULL;
    OperatorExtended(c, i);
    forall b: nat | IsNullRedirection(c, i, b) ensures IsNullRedirection(d, i, b) {
      assert d[b - |NULL_DEVICE|..b] == c[b - |NULL_DEVICE|..b];
      assert b == |c| ==> d[b] == TO_NULL[0] == ' ';
    }
    forall b: nat | IsNullRedirection(d, i, b) ensures IsNullRedirection(c, i, b) {
      TargetInside(c, i, b);
      assert forall k | 0 <= k < |c| :: d[k] == c[k];
      assert d[b - |NULL_DEVICE|..b] == c[b - |NULL_DEVICE|..b];
    }
    assert RedirectionEnd(d, i) > 0 ==> IsNullRedirection(c, i, RedirectionEnd(d, i));
    assert RedirectionEnd(c, i) > 0 ==> IsNullRedirection(d, i, RedirectionEnd(c, i));
  }

  lemma TargetInside(c: string, i: nat, b: nat)
    requires i < |c| && IsNullRedirection(c + TO_NULL, i, b)
    ensures b <= |c|
  {
    var d := c + TO_NULL;
    var t := b - |NULL_DEVICE|;
    OperatorExtended(c, i);
    assert d[|c|] == TO_NULL[0] == ' ' && d[|c| + 1] == TO_NULL[1] == '>';
    forall k | t <= k < b ensures d[k] != ' ' && d[k] != '>' {
      assert d[k] == d[t..b][k - t] == NULL_DEVICE[k - t];
    }
  }

  lemma PrependAssoc(x: string, s: string, tail: string)
    ensures x + (s + tail) == x + s + tail
  {
  }

  lemma {:induction false} StripExtended(c: string, i: nat, m: Mode)
    requires i <= |c| && m == ModeAt(c, i)
    ensures StrippedFrom(c + TO_NULL, i, m)
         == StrippedFrom(c, i, m) + StrippedFrom(c + TO_NULL, |c|, Run(Bare, c))
    decreases |c| - i
  {
    var d := c + TO_NULL;
    var tail := StrippedFrom(d, |c|, Run(Bare, c));
    if i == |c| {
      assert c[..i] == c && StrippedFrom(c, i, m) + tail == tail;
    } else {
      RedirectionExtended(c, i);
      var b := RedirectionEnd(c, i);
      if m == Bare && b > 0 {
        SpanMode(c, i, b, b);
        StripExtended(c, b, Bare);
        PrependAssoc(" ", StrippedFrom(c, b, Bare), tail);
      } else {
        RunSnoc(Bare, c, i);
        StripExtended(c, i + 1, Next(m, c[i]));
        assert d[i] == c[i];
        PrependAssoc([c[i]], StrippedFrom(c, i + 1, Next(m, c[i])), tail);
      }
    }
  }

  /** In a bare position the added redirection becomes a space. */
  lemma TailDropped(c: string, m: Mode)
    requires m == Bare || m == BareEscape
    ensures StrippedFrom(c + TO_NULL, |c|, m) == "  "
  {
    var d := c + TO_NULL;
    var i := |c| + 1;
    assert d[|c|] == ' ' && d[i] == '>' && |d| == i + 10;
    assert d[i + 1..i + 10] == NULL_DEVICE;
    assert !UnsupportedDescriptor(d, i) by {
      forall start: nat | DigitRun(d, start, i) ensures start == i {
        DigitRunUnique(d, start, i, i);
      }
    }
    assert OperatorLength(d, i) == 1;
    assert IsNullRedirection(d, i, |d|);
    assert RedirectionEnd(d, i) == |d|;
    assert m == Bare ==> OperatorLength(d, |c|) == 0 && RedirectionEnd(d, |c|) == 0;
    assert Next(m, ' ') == Bare;
    assert StrippedFrom(d, i, Bare) == " " + StrippedFrom(d, |d|, Bare) == " ";
  }

  /** Inside quotes it is ordinary text. */
  lemma {:induction false} TailKept(c: string, i: nat, m: Mode)
    requires |c| <= i <= |c + TO_NULL|
    requires m in {Single, Double, DoubleEscape}
    ensures StrippedFrom(c + TO_NULL, i, m) == (c + TO_NULL)[i..]
    decreases |c + TO_NULL| - i
  {
    var d := c + TO_NULL;
    if i < |d| {
      assert d[i] == TO_NULL[i - |c|];
      assert d[i] !in {'\\', '\'', '"'};
      TailKept(c, i + 1, Next(m, d[i]));
    }
  }

  /** Trimming cannot hide text that ends in a character other than white space. */
  lemma TrimGrows(s: string, tail: string)
    requires tail != "" && !IsSpace(tail[|tail| - 1])
    ensures Trim(s + tail) != Trim(s)
  {
    var l, r := TrimSplit(s);
    var core := Trim(s);
    if core == "" {
      assert s + tail == (l + r) + tail;
      TrimLeftPadded(l + r, tail);
      var l' := TrimLeftSplit(tail);
      assert !AllSpace(tail) && l' + "" == l';
      assert Trim(s + tail) == TrimLeft(tail);
    } else {
      var long := core + (r + tail);
      assert s + tail == l + long + "";
      assert long[|long| - 1] == tail[|tail| - 1];
      TrimUnique(l, long, "");
      assert |Trim(s + tail)| > |core|;
    }
  }

  /** A null redirection added after c leaves the policy copy unchanged exactly when c closes its quotes. */
  lemma AddedNullRedirection(c: string)
    ensures Trim(Stripped(c + TO_NULL)) == Trim(Stripped(c)) <==> Run(Bare, c) in {Bare, BareEscape}
  {
    StripExtended(c, 0, Bare);
    var m := Run(Bare, c);
    if m in {Bare, BareEscape} {
      TailDropped(c, m);
      TrimRightSpaces(Stripped(c), "  ");
    } else {
      TailKept(c, |c|, m);
      assert (c + TO_NULL)[|c|..] == TO_NULL;
      TrimGrows(Stripped(c), TO_NULL);
    }
  }

  lemma TrimRightSpaces(s: string, pad: string)
    requires AllSpace(pad)
    ensures Trim(s + pad) == Trim(s)
  {
    var l, r := TrimSplit(s);
    assert s + pad == l + Trim(s) + (r + pad);
    TrimUnique(l, Trim(s), r + pad);
  }
}
