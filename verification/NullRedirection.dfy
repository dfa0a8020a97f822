/**
 The policy copy of a shell command: shell.go removes output redirections whose target is exactly
 /dev/null. Stripped is the text before the final trim; it is described as a list of edits, one for
 each character it writes.
 */
module NullRedirection {
  import opened Text
  import opened ShellLexer

  const NULL_DEVICE := "/dev/null"

  predicate IsTokenBoundary(c: char) {
    c in {' ', '\t', '\r', '\n', ';', '|', '&'}
  }

  predicate IsDigit(c: char) {
    '0' <= c <= '9'
  }

  predicate IsBlank(c: char) {
    c == ' ' || c == '\t'
  }

  /** [start, op) is the whole run of digits that ends where the operator begins. */
  ghost predicate DigitRun(command: string, start: nat, op: nat) {
    && start <= op <= |command|
    && (forall k | start <= k < op :: IsDigit(command[k]))
    && (start == 0 || !IsDigit(command[start - 1]))
  }

  /** A run of digits standing as a word of its own in front of the operator names a descriptor. */
  ghost predicate UnsupportedDescriptor(command: string, op: nat)
    requires op <= |command|
  {
    exists start: nat ::
      && DigitRun(command, start, op)
      && start < op
      && (start == 0 || IsTokenBoundary(command[start - 1]) || command[start - 1] == '(')
      && command[start..op] != "1" && command[start..op] != "2"
  }

  method HasUnsupportedExplicitOutputDescriptor(command: string, operatorIndex: nat) returns (unsupported: bool)
    requires operatorIndex <= |command|
    ensures unsupported == UnsupportedDescriptor(command, operatorIndex)
  {
    var descriptorStart := operatorIndex;
    while descriptorStart > 0 && '0' <= command[descriptorStart - 1] <= '9'
      invariant 0 <= descriptorStart <= operatorIndex
      invariant forall k | descriptorStart <= k < operatorIndex :: IsDigit(command[k])
    {
      descriptorStart := descriptorStart - 1;
    }
    assert DigitRun(command, descriptorStart, operatorIndex);
    forall start: nat | DigitRun(command, start, operatorIndex)
      ensures start == descriptorStart
    {
      DigitRunUnique(command, start, descriptorStart, operatorIndex);
    }
    if descriptorStart == operatorIndex {
      return false;
    }
    if descriptorStart > 0 && !IsTokenBoundary(command[descriptorStart - 1]) && command[descriptorStart - 1] != '(' {
      return false;
    }
    var descriptor := command[descriptorStart..operatorIndex];
    return descriptor != "1" && descriptor != "2";
  }

  lemma DigitRunUnique(command: string, a: nat, b: nat, op: nat)
    requires DigitRun(command, a, op) && DigitRun(command, b, op)
    ensures a == b
  {
    assert a > 0 ==> !IsDigit(command[a - 1]);
    assert b > 0 ==> !IsDigit(command[b - 1]);
  }

  /** Length of the output operator that starts at i, 0 when there is none the policy copy may drop. */
  ghost function OperatorLength(command: string, i: nat): nat
    requires i < |command|
  {
    if command[i] == '&' && i + 1 < |command| && command[i + 1] == '>'
       && (i + 2 >= |command| || command[i + 2] != '>') then 2
    else if command[i] == '>'
       && (i == 0 || command[i - 1] !in {'>', '<', '&'})
       && (i + 1 >= |command| || command[i + 1] !in {'>', '|'})
       && !UnsupportedDescriptor(command, i) then 1
    else 0
  }

  /** command[a..b] is an output operator, blanks, and the null device as a whole word. */
  ghost predicate IsNullRedirection(command: string, a: nat, b: nat) {
    && a < |command|
    && OperatorLength(command, a) > 0
    && a + OperatorLength(command, a) <= b - |NULL_DEVICE|
    && b <= |command|
    && (forall k | a + OperatorLength(command, a) <= k < b - |NULL_DEVICE| :: IsBlank(command[k]))
    && command[b - |NULL_DEVICE|..b] == NULL_DEVICE
    && (b == |command| || IsTokenBoundary(command[b]))
  }

  /** The target is the first character after the operator that is not a blank. */
  lemma NullRedirectionTarget(command: string, a: nat, b: nat, target: nat)
    requires IsNullRedirection(command, a, b)
    requires a + OperatorLength(command, a) <= target <= |command|
    requires forall k | a + OperatorLength(command, a) <= k < target :: IsBlank(command[k])
    requires target < |command| ==> !IsBlank(command[target])
    ensures b == target + |NULL_DEVICE|
  {
    var t := b - |NULL_DEVICE|;
    assert command[t] == command[t..b][0] == '/';
  }

  lemma NullRedirectionUnique(command: string, a: nat, b: nat, b': nat)
    requires IsNullRedirection(command, a, b) && IsNullRedirection(command, a, b')
    ensures b == b'
  {
    var t := b - |NULL_DEVICE|;
    assert command[t] == command[t..b][0] == '/';
    NullRedirectionTarget(command, a, b', t);
  }

  /** Where the null redirection that starts at i ends, 0 when none starts there. */
  ghost function RedirectionEnd(command: string, i: nat): (end: nat)
    ensures end > 0 ==> i < end && IsNullRedirection(command, i, end)
    ensures forall b: nat | IsNullRedirection(command, i, b) :: b == end
  {
    if b: nat :| IsNullRedirection(command, i, b) then
      assert forall b': nat | IsNullRedirection(command, i, b') :: b' == b by {
        forall b': nat | IsNullRedirection(command, i, b') ensures b' == b {
          NullRedirectionUnique(command, i, b, b');
        }
      }
      b
    else 0
  }

  /** The policy copy before its final trim, from position i read in state m. */
  ghost function StrippedFrom(command: string, i: nat, m: Mode): string
    requires i <= |command|
    decreases |command| - i
  {
    if i == |command| then ""
    else if m == Bare && RedirectionEnd(command, i) > 0 then
      " " + StrippedFrom(command, RedirectionEnd(command, i), Bare)
    else
      [command[i]] + StrippedFrom(command, i + 1, Next(m, command[i]))
  }

  ghost function Stripped(command: string): string {
    StrippedFrom(command, 0, Bare)
  }

  /** What the scan finds after the operator and its blanks decides the redirection. */
  lemma EndFromTarget(command: string, i: nat, target: nat)
    requires i < |command| && OperatorLength(command, i) > 0
    requires i + OperatorLength(command, i) <= target <= |command|
    requires forall k | i + OperatorLength(command, i) <= k < target :: IsBlank(command[k])
    requires target < |command| ==> !IsBlank(command[target])
    ensures RedirectionEnd(command, i) ==
      var end := target + |NULL_DEVICE|;
      if end > |command| || command[target..end] != NULL_DEVICE || (end < |command| && !IsTokenBoundary(command[end]))
      then 0 else end
  {
    var end := target + |NULL_DEVICE|;
    if RedirectionEnd(command, i) > 0 {
      NullRedirectionTarget(command, i, RedirectionEnd(command, i), target);
    } else {
      assert !IsNullRedirection(command, i, end);
    }
  }

  /** The operator and target match of one loop turn in a bare position. */
  method MatchNullRedirection(command: string, i: nat) returns (end: nat)
    requires i < |command|
    ensures end == RedirectionEnd(command, i)
  {
    var current := command[i];
    var operatorLength := 0;
    if current == '&' && i + 1 < |command| && command[i + 1] == '>'
       && (i + 2 >= |command| || command[i + 2] != '>') {
      operatorLength := 2;
    } else if current == '>'
       && (i == 0 || (command[i - 1] != '>' && command[i - 1] != '<' && command[i - 1] != '&'))
       && (i + 1 >= |command| || (command[i + 1] != '>' && command[i + 1] != '|')) {
      var unsupported := HasUnsupportedExplicitOutputDescriptor(command, i);
      operatorLength := if unsupported then 0 else 1;
    }
    if operatorLength == 0 {
      return 0;
    }
    var targetStart := i + operatorLength;
    while targetStart < |command| && (command[targetStart] == ' ' || command[targetStart] == '\t')
      invariant i + operatorLength <= targetStart <= |command|
      invariant forall k | i + operatorLength <= k < targetStart :: IsBlank(command[k])
    {
      targetStart := targetStart + 1;
    }
    var targetEnd := targetStart + |NULL_DEVICE|;
    EndFromTarget(command, i, targetStart);
    if targetEnd > |command| || command[targetStart..targetEnd] != NULL_DEVICE
       || (targetEnd < |command| && !IsTokenBoundary(command[targetEnd])) {
      return 0;
    }
    return targetEnd;
  }

  lemma CopyStep(command: string, i: nat, m: Mode, written: string)
    requires i < |command| && (m == Bare ==> RedirectionEnd(command, i) == 0)
    ensures written + StrippedFrom(command, i, m)
         == written + [command[i]] + StrippedFrom(command, i + 1, Next(m, command[i]))
  {
  }

  lemma ReplaceStep(command: string, i: nat, written: string)
    requires i < |command| && RedirectionEnd(command, i) > 0
    ensures written + StrippedFrom(command, i, Bare)
         == written + " " + StrippedFrom(command, RedirectionEnd(command, i), Bare)
  {
  }

  method StripAllowedNullOutputRedirections(command: string) returns (result: string)
    ensures result == Trim(Stripped(command))
  {
    var written := "";
    var quote := '\0';
    var escaped := false;
    var i := 0;
    while i < |command|
      invariant 0 <= i <= |command|
      invariant quote in {'\0', '\'', '"'} && (escaped ==> quote != '\'')
      invariant Stripped(command) == written + StrippedFrom(command, i, ModeOf(quote, escaped))
    {
      var current := command[i];
      ghost var m := ModeOf(quote, escaped);
      if escaped {
        CopyStep(command, i, m, written);
        written := written + [current];
        escaped := false;
        i := i + 1;
      } else if quote != '\0' {
        CopyStep(command, i, m, written);
        written := written + [current];
        if current == '\\' && quote == '"' {
          escaped := true;
        } else if current == quote {
          quote := '\0';
        }
        i := i + 1;
      } else {
        var end := MatchNullRedirection(command, i);
        if end > 0 {
          ReplaceStep(command, i, written);
          written := written + " ";
          i := end;
        } else {
          CopyStep(command, i, m, written);
          written := written + [current];
          escaped := current == '\\';
          quote := if current == '\'' || current == '"' then current else '\0';
          i := i + 1;
        }
      }
    }
    assert written + "" == written;
    result := Trim(written);
  }
}
