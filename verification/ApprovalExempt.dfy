/** Which commands need no approval: every piece of the policy copy starts with a listed, harmless program. */
module ApprovalExempt {
  import opened Text
  import opened ShellLexer
  import opened NullRedirection
  import opened NullRedirectionLaws
  import opened ApprovalSplit
  import opened ApprovalSplitLaws
  import opened ApprovalBytes

  /** The parts that are library calls or pattern tables: the analysis allowlist and Unicode case folding. */
  datatype Library = Library(analysis: string -> bool, lower: string -> string, isFind: string -> bool)

  /** strings.Fields, with the word read so far. */
  function FieldsFrom(s: string, word: string): seq<string>
    decreases |s|
  {
    var done := if word == "" then [] else [word];
    if s == "" then done
    else if IsSpace(s[0]) then done + FieldsFrom(s[1..], "")
    else FieldsFrom(s[1..], word + [s[0]])
  }

  function Fields(s: string): seq<string> { FieldsFrom(s, "") }

  lemma {:induction false} FieldsOfText(s: string, word: string)
    ensures FieldsFrom(s, word) == [] <==> word == "" && AllSpace(s)
    decreases |s|
  {
    if s != "" {
      FieldsOfText(s[1..], if IsSpace(s[0]) then "" else word + [s[0]]);
      assert AllSpace(s) <==> IsSpace(s[0]) && AllSpace(s[1..]) by {
        assert s == [s[0]] + s[1..];
      }
    }
  }

  /** gap word gap word ... gap. */
  function Weave(gaps: seq<string>, words: seq<string>): string
    requires |gaps| == |words| + 1
  {
    if words == [] then gaps[0] else gaps[0] + words[0] + Weave(gaps[1..], words[1..])
  }

  predicate IsWord(w: string) {
    w != "" && forall i | 0 <= i < |w| :: !IsSpace(w[i])
  }

  /** s is the words with white space around them, at least some between any two. */
  ghost predicate Weaves(s: string, gaps: seq<string>, words: seq<string>) {
    && |gaps| == |words| + 1 && s == Weave(gaps, words)
    && (forall k | 0 <= k < |words| :: IsWord(words[k]))
    && (forall k | 0 <= k < |gaps| :: AllSpace(gaps[k]) && (0 < k < |words| ==> gaps[k] != ""))
  }

  /** White space in front of woven text widens its first gap. */
  lemma WeavesAfterSpace(c: char, s: string, gaps: seq<string>, words: seq<string>)
    requires IsSpace(c) && Weaves(s, gaps, words)
    ensures Weaves([c] + s, [[c] + gaps[0]] + gaps[1..], words)
  {
    var wider := [[c] + gaps[0]] + gaps[1..];
    assert wider[1..] == gaps[1..];
    if words == [] {
      assert [c] + s == wider[0];
    } else {
      assert [c] + s == wider[0] + words[0] + Weave(wider[1..], words[1..]);
    }
  }

  /** So does a word in front of a gap. */
  lemma WeavesAfterWord(w: string, s: string, gaps: seq<string>, words: seq<string>)
    requires IsWord(w) && Weaves(s, gaps, words) && (words != [] ==> gaps[0] != "")
    ensures Weaves(w + s, [""] + gaps, [w] + words)
  {
    assert ([""] + gaps)[1..] == gaps && ([w] + words)[1..] == words;
    assert w + s == "" + w + s;
  }

  lemma {:induction false} FieldsFromWeaves(s: string, word: string) returns (gaps: seq<string>)
    requires word == "" || IsWord(word)
    ensures Weaves(word + s, gaps, FieldsFrom(s, word))
    ensures word != "" ==> gaps[0] == ""
    decreases |s|
  {
    if s == "" {
      gaps := if word == "" then [""] else ["", ""];
      assert word + s == word == "" + word + "";
    } else if IsSpace(s[0]) {
      var rest := FieldsFromWeaves(s[1..], "");
      assert "" + s[1..] == s[1..] && [s[0]] + s[1..] == s;
      WeavesAfterSpace(s[0], s[1..], rest, FieldsFrom(s[1..], ""));
      gaps := [[s[0]] + rest[0]] + rest[1..];
      if word == "" {
        assert word + s == s && [] + FieldsFrom(s[1..], "") == FieldsFrom(s[1..], "");
      } else {
        WeavesAfterWord(word, s, gaps, FieldsFrom(s[1..], ""));
        gaps := [""] + gaps;
      }
    } else {
      assert word + s == word + [s[0]] + s[1..];
      gaps := FieldsFromWeaves(s[1..], word + [s[0]]);
    }
  }

  /** The fields of a text are its words, in order, with nothing but white space around them. */
  lemma FieldsAreWords(s: string) returns (gaps: seq<string>)
    ensures Weaves(s, gaps, Fields(s))
  {
    gaps := FieldsFromWeaves(s, "");
    assert "" + s == s;
  }

  /** path.Base after backslashes became slashes. */
  function Base(s: string): string {
    if s == "" then "."
    else if s[|s| - 1] in {'/', '\\'} then (if AllSlashes(s) then "/" else Base(s[..|s| - 1]))
    else LastElement(s)
  }

  predicate AllSlashes(s: string) {
    forall i | 0 <= i < |s| :: s[i] in {'/', '\\'}
  }

  function LastElement(s: string): string {
    if s == "" || s[|s| - 1] in {'/', '\\'} then "" else LastElement(s[..|s| - 1]) + [s[|s| - 1]]
  }

  lemma {:induction false} LastElementSplits(s: string) returns (dir: string)
    ensures s == dir + LastElement(s) && (dir == "" || dir[|dir| - 1] in {'/', '\\'})
    ensures forall c | c in LastElement(s) :: c !in {'/', '\\'}
  {
    if s == "" || s[|s| - 1] in {'/', '\\'} {
      dir := s;
    } else {
      dir := LastElementSplits(s[..|s| - 1]);
    }
  }

  /** The base is what stands between the last slash and any slashes at the end. */
  lemma {:induction false} BaseSplits(s: string) returns (dir: string, tail: string)
    requires !AllSlashes(s)
    ensures s == dir + Base(s) + tail && AllSlashes(tail) && (dir == "" || dir[|dir| - 1] in {'/', '\\'})
    ensures Base(s) != "" && forall c | c in Base(s) :: c !in {'/', '\\'}
  {
    if s[|s| - 1] in {'/', '\\'} {
      var more;
      dir, more := BaseSplits(s[..|s| - 1]);
      tail := more + [s[|s| - 1]];
      assert s == s[..|s| - 1] + [s[|s| - 1]];
    } else {
      dir := LastElementSplits(s);
      tail := "";
    }
  }

  const EXEMPT := {"ls", "grep", "ps", "cd", "head", "tail", "df", "find"}

  predicate WriteAction(lower: string) {
    lower == "-delete" || "-exec" <= lower || "-ok" <= lower || "-fls" <= lower || "-fprint" <= lower
  }

  ghost predicate HasWriteAction(lib: Library, fields: seq<string>) {
    exists f :: f in fields && WriteAction(lib.lower(f))
  }

  method FindHasWriteAction(lib: Library, fields: seq<string>) returns (found: bool)
    ensures found <==> HasWriteAction(lib, fields)
  {
    for i := 0 to |fields|
      invariant !HasWriteAction(lib, fields[..i])
    {
      assert fields[..i + 1] == fields[..i] + [fields[i]];
      if WriteAction(lib.lower(fields[i])) {
        return true;
      }
    }
    assert fields[..|fields|] == fields;
    return false;
  }

  ghost predicate ExemptSegment(lib: Library, segment: string) {
    var fields := Fields(segment);
    && fields != []
    && (forall c | c in fields[0] :: c !in {'"', '\'', '$'})
    && lib.lower(Base(fields[0])) in EXEMPT
    && (lib.isFind(Base(fields[0])) ==> !HasWriteAction(lib, fields[1..]))
  }

  ghost predicate IsExempt(lib: Library, command: string) {
    || lib.analysis(Trim(command))
    || match Segments(Trim(Stripped(Trim(command))))
       case Some(segments) => forall s | s in segments :: ExemptSegment(lib, s)
       case None => false
  }

  method IsApprovalExemptCommand(lib: Library, command: string) returns (exempt: bool)
    ensures exempt <==> IsExempt(lib, command)
  {
    var trimmed := Trim(command);
    if lib.analysis(trimmed) {
      return true;
    }
    var policyCommand := StripAllowedNullOutputRedirections(trimmed);
    var segments, ok := SplitApprovalExemptSegments(policyCommand);
    if ok {
      SegmentsExist(policyCommand);
    }
    if !ok || |segments| == 0 {
      return false;
    }
    for i := 0 to |segments|
      invariant forall s | s in segments[..i] :: ExemptSegment(lib, s)
    {
      assert segments[..i + 1] == segments[..i] + [segments[i]];
      assert segments[i] in segments;
      var fields := Fields(segments[i]);
      if |fields| == 0 || exists c :: c in fields[0] && c in {'"', '\'', '$'} {
        return false;
      }
      var executable := Base(fields[0]);
      if lib.lower(executable) !in EXEMPT {
        return false;
      }
      if lib.isFind(executable) {
        var writes := FindHasWriteAction(lib, fields[1..]);
        if writes {
          return false;
        }
      }
    }
    assert segments[..|segments|] == segments;
    return true;
  }

  /** The splitter returns no blank segment, so the loop's test for a segment without fields never fires. */
  lemma SegmentHasProgram(command: string, s: string)
    requires Segments(command).Some? && s in Segments(command).value
    ensures Fields(s) != []
  {
    var raws, seps := AcceptedDerived(command);
    var k :| 0 <= k < |raws| && Trimmed(raws)[k] == s;
    var left, right := TrimSplit(raws[k]);
    FieldsOfText(s, "");
    assert !IsSpace(s[0]);
  }

  lemma SegmentsExist(command: string)
    requires Segments(command).Some?
    ensures Segments(command).value != []
  {
    SplitJoin(command);
  }

  /** A derivation of the policy copy in which every piece is a listed program that writes nothing. */
  ghost predicate DerivesExempt(lib: Library, policy: string, raws: seq<string>, seps: seq<Separator>) {
    Derives(policy, raws, seps) && forall k | 0 <= k < |raws| :: ExemptSegment(lib, Trim(raws[k]))
  }

  lemma DerivedExempt(lib: Library, command: string, raws: seq<string>, seps: seq<Separator>)
    requires DerivesExempt(lib, Trim(Stripped(Trim(command))), raws, seps)
    ensures IsExempt(lib, command)
  {
    DerivedAccepted(Trim(Stripped(Trim(command))), raws, seps);
    forall s | s in Trimmed(raws) ensures ExemptSegment(lib, s) {
      var k :| 0 <= k < |raws| && Trimmed(raws)[k] == s;
    }
  }

  /** A command outside the analysis allowlist is exempt exactly when its policy copy has such a derivation. */
  lemma ExemptMeetsGrammar(lib: Library, command: string)
    requires !lib.analysis(Trim(command))
    ensures IsExempt(lib, command) <==> exists raws, seps :: DerivesExempt(lib, Trim(Stripped(Trim(command))), raws, seps)
  {
    var policy := Trim(Stripped(Trim(command)));
    if IsExempt(lib, command) {
      var raws, seps := AcceptedDerived(policy);
      forall k | 0 <= k < |raws| ensures ExemptSegment(lib, Trim(raws[k])) {
        assert Trimmed(raws)[k] in Segments(policy).value;
      }
      assert DerivesExempt(lib, policy, raws, seps);
    }
    forall raws, seps | DerivesExempt(lib, policy, raws, seps) ensures IsExempt(lib, command) {
      DerivedExempt(lib, command, raws, seps);
    }
  }

  lemma TrimOfTrimmed(s: string)
    requires IsTrimmed(s)
    ensures Trim(s) == s
  {
    TrimUnique("", s, "");
    assert "" + s + "" == s;
  }

  /** A command with open quotes is refused whatever follows it plainly. */
  lemma OpenRefused(c: string)
    requires Run(Bare, c) !in {Bare, BareEscape}
    ensures Segments(Trim(Stripped(c))).None?
  {
    StripStructure(c);
    if Segments(Trim(Stripped(c))).Some? {
      AcceptedClosed(Stripped(c));
    }
  }

  lemma {:induction false} PlainKeepsQuote(m: Mode, text: string)
    requires m !in {Bare, BareEscape} && Plain(text)
    ensures Run(m, text) !in {Bare, BareEscape}
    decreases |text|
  {
    if text != "" {
      PlainKeepsQuote(Next(m, text[0]), text[1..]);
    }
  }

  /** A null redirection added to any command leaves the policy copy's segments, or its refusal, as they were. */
  lemma NullRedirectionKeepsSegments(c: string)
    ensures Segments(Trim(Stripped(c + TO_NULL))) == Segments(Trim(Stripped(c)))
  {
    if Run(Bare, c) in {Bare, BareEscape} {
      AddedNullRedirection(c);
    } else {
      PlainStaysOpen(c, TO_NULL);
      OpenRefused(c);
      OpenRefused(c + TO_NULL);
    }
  }

  lemma PlainStaysOpen(c: string, tail: string)
    requires Run(Bare, c) !in {Bare, BareEscape} && Plain(tail)
    ensures Run(Bare, c + tail) !in {Bare, BareEscape}
  {
    RunConcat(Bare, c, tail);
    PlainKeepsQuote(Run(Bare, c), tail);
  }

  lemma TrimOfExtended(c: string)
    requires c != "" && IsTrimmed(c)
    ensures Trim(c + TO_NULL) == c + TO_NULL
  {
    var extended := c + TO_NULL;
    assert extended[0] == c[0] && extended[|extended| - 1] == 'l';
    TrimOfTrimmed(extended);
  }

  /** Sending the output of a command to /dev/null does not change whether it needs approval. */
  lemma NullRedirectionKeepsVerdict(lib: Library, command: string)
    requires Trim(command) != ""
    requires lib.analysis(Trim(command) + TO_NULL) == lib.analysis(Trim(command))
    ensures IsExempt(lib, Trim(command) + TO_NULL) <==> IsExempt(lib, command)
  {
    var left, right := TrimSplit(command);
    TrimOfExtended(Trim(command));
    NullRedirectionKeepsSegments(Trim(command));
  }

  // ----- The verdict spelled out -----

  /** The words of a segment make it harmless. */
  ghost predicate HarmlessWords(lib: Library, words: seq<string>) {
    && words != []
    && (forall c | c in words[0] :: c != '"' && c != '\'' && c != '$')
    && lib.lower(Base(words[0])) in ["ls", "grep", "ps", "cd", "head", "tail", "df", "find"]
    && (lib.isFind(Base(words[0])) ==>
          forall k | 0 < k < |words| ::
            var w := lib.lower(words[k]);
            w != "-delete" && !("-exec" <= w) && !("-ok" <= w) && !("-fls" <= w) && !("-fprint" <= w))
  }

  lemma SegmentSpelled(lib: Library, s: string)
    ensures ExemptSegment(lib, s) <==> HarmlessWords(lib, Fields(s))
  {
    var words := Fields(s);
    if words != [] {
      forall k | 0 < k < |words| ensures words[k] in words[1..] {
        assert words[1..][k - 1] == words[k];
      }
      forall f | f in words[1..] ensures exists k :: 0 < k < |words| && words[k] == f {
        var j :| 0 <= j < |words[1..]| && words[1..][j] == f;
        assert words[j + 1] == f;
      }
    }
  }

  /**
   A command needs no approval exactly when it is on the analysis allowlist, or its policy copy holds no byte
   that could do more than pipe and chain, and each of its pieces is one of eight programs that writes nothing.
   */
  lemma ExemptSpelled(lib: Library, command: string)
    ensures var policy := Trim(Stripped(Trim(command)));
      IsExempt(lib, command) <==>
        || lib.analysis(Trim(command))
        || (Acceptable(policy) && Segments(policy).Some?
            && forall s | s in Segments(policy).value :: HarmlessWords(lib, Fields(s)))
  {
    var policy := Trim(Stripped(Trim(command)));
    AcceptedBytes(policy);
    forall s ensures ExemptSegment(lib, s) <==> HarmlessWords(lib, Fields(s)) {
      SegmentSpelled(lib, s);
    }
  }
}
