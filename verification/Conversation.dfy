/** The question sent with the tail of a conversation, kept within a length. Characters are UTF-16 units. */
module Conversation {
  import opened TailFitting

  datatype Role = User | Assistant | Other

  datatype Turn = Turn(role: Role, content: string)

  /** The white space that JavaScript's trim removes. */
  predicate IsWhite(c: char) {
    || c in {' ', '\t', '\n', '\r', '\U{0B}', '\U{0C}', '\U{A0}', '\U{1680}', '\U{FEFF}'}
    || '\U{2000}' <= c <= '\U{200A}'
    || c in {'\U{2028}', '\U{2029}', '\U{202F}', '\U{205F}', '\U{3000}'}
  }

  /** The same by code points: ECMAScript's WhiteSpace and LineTerminator. */
  lemma WhiteTable(c: char)
    ensures IsWhite(c) <==>
      var u := c as int;
      0x09 <= u <= 0x0D || u == 0x20 || u == 0xA0 || u == 0x1680 || 0x2000 <= u <= 0x200A
      || u == 0x2028 || u == 0x2029 || u == 0x202F || u == 0x205F || u == 0x3000 || u == 0xFEFF
  {
  }

  predicate AllWhite(s: string) { forall i | 0 <= i < |s| :: IsWhite(s[i]) }

  function Trimmed(s: string): string {
    if s != "" && IsWhite(s[0]) then Trimmed(s[1..])
    else if s != "" && IsWhite(s[|s| - 1]) then Trimmed(s[..|s| - 1])
    else s
  }

  /** s[lo..hi] is what is left of s without the white space around it. */
  ghost predicate IsCore(s: string, lo: nat, hi: nat) {
    && lo <= hi <= |s|
    && (forall i | 0 <= i < lo :: IsWhite(s[i])) && (forall i | hi <= i < |s| :: IsWhite(s[i]))
    && (lo < hi ==> !IsWhite(s[lo]) && !IsWhite(s[hi - 1]))
  }

  lemma CoreOfTail(s: string, lo: nat, hi: nat)
    requires s != "" && IsWhite(s[0]) && IsCore(s[1..], lo, hi)
    ensures IsCore(s, lo + 1, hi + 1) && s[lo + 1..hi + 1] == s[1..][lo..hi]
  {
    assert forall i | 1 <= i < |s| :: s[i] == s[1..][i - 1];
  }

  lemma CoreOfFront(s: string, lo: nat, hi: nat)
    requires s != "" && IsWhite(s[|s| - 1]) && IsCore(s[..|s| - 1], lo, hi)
    ensures IsCore(s, lo, hi) && s[lo..hi] == s[..|s| - 1][lo..hi]
  {
    assert forall i | 0 <= i < |s| - 1 :: s[i] == s[..|s| - 1][i];
  }

  /** White space at both ends goes, and nothing else. */
  lemma {:induction false} TrimmedSplits(s: string) returns (lo: nat, hi: nat)
    ensures IsCore(s, lo, hi) && Trimmed(s) == s[lo..hi]
    decreases |s|
  {
    if s != "" && IsWhite(s[0]) {
      lo, hi := TrimmedSplits(s[1..]);
      CoreOfTail(s, lo, hi);
      lo, hi := lo + 1, hi + 1;
    } else if s != "" && IsWhite(s[|s| - 1]) {
      lo, hi := TrimmedSplits(s[..|s| - 1]);
      CoreOfFront(s, lo, hi);
    } else {
      lo, hi := 0, |s|;
      assert s[lo..hi] == s;
    }
  }

  function Min(a: int, b: int): int { if a <= b then a else b }

  const MARKER := "\n[前文已截断]"

  const PREFIX :=
    "这是同一代码分析会话中的追问。前文仅用于理解指代，所有结论仍须重新依据当前源码核对；不要把前文回答当作已验证事实。\n\n前文：\n"

  function Suffix(current: string): string { "\n\n当前追问：\n" + current }

  function Label(role: Role): string { if role == User then "用户" else "代码分析" }

  function Cap(role: Role): nat { if role == Assistant then 6000 else 3000 }

  /** clipped: the marker comes on top of the length, which is where the overshoot below comes from. */
  function Clipped(value: string, maxLength: nat): string {
    var text := Trimmed(value);
    if |text| <= maxLength then text else text[..maxLength] + MARKER
  }

  predicate Counts(turn: Turn) {
    turn.role != Other && Trimmed(turn.content) != ""
  }

  function Relevant(turns: seq<Turn>): seq<Turn> {
    if turns == [] then []
    else Relevant(turns[..|turns| - 1]) + if Counts(turns[|turns| - 1]) then [turns[|turns| - 1]] else []
  }

  function LastSix(turns: seq<Turn>): seq<Turn> {
    if |turns| <= 6 then turns else turns[|turns| - 6..]
  }

  function Budget(current: string, maxLength: nat): nat {
    if maxLength < |PREFIX| + |Suffix(current)| then 0 else maxLength - |PREFIX| - |Suffix(current)|
  }

  /** How a turn is written when `room` characters are left for its content. */
  function Write(turn: Turn, room: int): string {
    if room <= 0 then "" else Label(turn.role) + "：" + Clipped(turn.content, Min(room, Cap(turn.role)))
  }

  function Overhead(turn: Turn): nat { |Label(turn.role)| + 4 }

  function HistoryPieces(history: seq<Turn>, budget: nat): seq<string> {
    Pieces(history, Write, Overhead, budget, 0)
  }

  /** What the built question is. */
  function Question(turns: seq<Turn>, question: string, maxLength: nat): string {
    var current, history := Trimmed(question), LastSix(Relevant(turns));
    if current == "" then ""
    else if history == [] then current[..Min(maxLength, |current|)]
    else
      var budget := Budget(current, maxLength);
      PREFIX + Bounded(Joined(HistoryPieces(history, budget)), budget) + Suffix(current)
  }

  method RelevantTurns(turns: seq<Turn>) returns (history: seq<Turn>)
    ensures history == Relevant(turns)
  {
    history := [];
    for i := 0 to |turns|
      invariant history == Relevant(turns[..i])
    {
      assert turns[..i + 1][..i] == turns[..i];
      if Counts(turns[i]) {
        history := history + [turns[i]];
      }
    }
    assert turns[..|turns|] == turns;
  }

  method BuildConversationQuestion(turns: seq<Turn>, question: string, maxLength: nat) returns (built: string)
    ensures built == Question(turns, question, maxLength)
  {
    var current := Trimmed(question);
    if current == "" {
      return "";
    }
    var history := RelevantTurns(turns);
    history := LastSix(history);
    if history == [] {
      return current[..Min(maxLength, |current|)];
    }
    var suffix := Suffix(current);
    var budget := Budget(current, maxLength);
    var selected := SelectPieces(history, Write, Overhead, budget);
    var historyText := Joined(selected);
    if |historyText| > budget {
      historyText := SliceEnd(historyText, budget);
    }
    built := PREFIX + historyText + suffix;
  }

  lemma WriteLength(turn: Turn, room: int)
    requires room > 0
    ensures |Write(turn, room)| <= Overhead(turn) + room + 5
    ensures |Write(turn, room)| > Overhead(turn) + room - 3 ==> |Write(turn, room)| > 5
  {
  }

  lemma WritesFit()
    ensures WritesWithin(Write, Overhead)
  {
    forall turn, room | room > 0
      ensures |Write(turn, room)| <= Overhead(turn) + room + 5
      ensures |Write(turn, room)| > Overhead(turn) + room - 3 ==> |Write(turn, room)| > 5
    {
      WriteLength(turn, room);
    }
  }

  lemma OvershootOfText(history: seq<Turn>, budget: nat)
    ensures var pieces := HistoryPieces(history, budget);
      && |Joined(pieces)| <= budget + 5
      && (|Joined(pieces)| > budget ==> budget > 0 && pieces != [] && |pieces[0]| > 5)
  {
    WritesFit();
    Overshoot(history, Write, Overhead, budget, 0);
    var pieces := HistoryPieces(history, budget);
    if pieces != [] {
      JoinedLength(pieces);
    }
  }

  /** With history the question fits exactly when its fixed parts and the current question alone do. */
  lemma FitsExactlyWhenFixedPartsFit(turns: seq<Turn>, question: string, maxLength: nat)
    requires Trimmed(question) != "" && Relevant(turns) != []
    ensures |Question(turns, question, maxLength)| <= maxLength <==> |PREFIX| + |Suffix(Trimmed(question))| <= maxLength
  {
    OvershootOfText(LastSix(Relevant(turns)), Budget(Trimmed(question), maxLength));
  }

  lemma {:induction false} TrimmedShorter(s: string)
    ensures |Trimmed(s)| <= |s|
    decreases |s|
  {
    if s != "" && IsWhite(s[0]) {
      TrimmedShorter(s[1..]);
    } else if s != "" && IsWhite(s[|s| - 1]) {
      TrimmedShorter(s[..|s| - 1]);
    }
  }

  /** The page accepts questions of up to 4000 characters and asks for the default limit; those always fit. */
  lemma PageQuestionFits(turns: seq<Turn>, question: string)
    requires |question| <= 4000
    ensures |Question(turns, question, 16000)| <= 16000
  {
    TrimmedShorter(question);
    if Trimmed(question) != "" && Relevant(turns) != [] {
      FitsExactlyWhenFixedPartsFit(turns, question, 16000);
    }
  }

  /** With a limit below its fixed opening a follow-up question does not fit: here a limit of ten. */
  lemma TooLongForTen()
    ensures |Question([Turn(User, "a")], "b", 10)| > 10
  {
    var turn := Turn(User, "a");
    assert Trimmed("a") == "a" && Trimmed("b") == "b";
    assert [turn][..0] == [];
    assert Relevant([turn]) == Relevant([]) + [turn];
    FitsExactlyWhenFixedPartsFit([turn], "b", 10);
  }

  lemma HistoryStopsWhenFull(history: seq<Turn>, budget: nat) returns (left: seq<Turn>)
    ensures left <= history && |left| + |HistoryPieces(history, budget)| == |history|
    ensures left != [] ==> Total(HistoryPieces(history, budget)) + Overhead(left[|left| - 1]) >= budget
  {
    left := Unshown(history, Write, Overhead, budget, 0);
    StopsWhenFull(history, Write, Overhead, budget, 0);
  }

  /**
   The last six turns are the ones left out followed by those of the pieces, and the newest left out is so
   only because its label would already fill what the newer ones left.
   */
  lemma LeftOutOnlyWhenFull(turns: seq<Turn>, question: string, maxLength: nat)
    returns (pieces: seq<string>, left: seq<Turn>, budget: nat)
    ensures budget == Budget(Trimmed(question), maxLength) && pieces == HistoryPieces(LastSix(Relevant(turns)), budget)
    ensures left <= LastSix(Relevant(turns)) && |left| + |pieces| == |LastSix(Relevant(turns))|
    ensures left != [] ==> Total(pieces) + Overhead(left[|left| - 1]) >= budget
  {
    budget := Budget(Trimmed(question), maxLength);
    pieces := HistoryPieces(LastSix(Relevant(turns)), budget);
    left := HistoryStopsWhenFull(LastSix(Relevant(turns)), budget);
  }

  // ----- What is shown, with the labels, caps and marker written out -----

  /** The turn says something and is the user's or the assistant's. */
  predicate SaysSomething(turn: Turn) {
    turn.role in {User, Assistant} && !AllWhite(turn.content)
  }

  lemma CountsMeans(turn: Turn)
    ensures Counts(turn) <==> SaysSomething(turn)
  {
    var lo, hi := TrimmedSplits(turn.content);
  }

  /** `at` lists in order the positions in turns of the turns that say something, and those turns are `all`. */
  ghost predicate Lists(at: seq<nat>, turns: seq<Turn>, all: seq<Turn>) {
    && |at| == |all|
    && (forall k | 0 <= k < |at| :: at[k] < |turns| && all[k] == turns[at[k]])
    && (forall j, k | 0 <= j < k < |at| :: at[j] < at[k])
    && (forall i | 0 <= i < |turns| :: i in at <==> SaysSomething(turns[i]))
  }

  lemma ListsOneMore(at: seq<nat>, turns: seq<Turn>, all: seq<Turn>)
    requires turns != [] && Lists(at, turns[..|turns| - 1], all)
    ensures var n := |turns| - 1;
      if SaysSomething(turns[n]) then Lists(at + [n], turns, all + [turns[n]]) else Lists(at, turns, all)
  {
    var n := |turns| - 1;
    assert n !in at;
    assert forall i | 0 <= i < n :: turns[..n][i] == turns[i];
  }

  /** The turns that say something are all there, in order. */
  lemma {:induction false} RelevantAre(turns: seq<Turn>) returns (at: seq<nat>)
    ensures Lists(at, turns, Relevant(turns))
  {
    if turns == [] {
      at := [];
    } else {
      var n := |turns| - 1;
      var front := RelevantAre(turns[..n]);
      CountsMeans(turns[n]);
      ListsOneMore(front, turns, Relevant(turns[..n]));
      at := if SaysSomething(turns[n]) then front + [n] else front;
    }
  }

  function LabelText(turn: Turn): string { if turn.role == User then "用户" else "代码分析" }

  /** A turn in full: its label and its whole text without the white space around it. */
  function InFull(turn: Turn): string { LabelText(turn) + "：" + Trimmed(turn.content) }

  function AllInFull(history: seq<Turn>): seq<string> { Mapped(history, InFull) }

  predicate WithinCap(turn: Turn) {
    |Trimmed(turn.content)| <= if turn.role == Assistant then 6000 else 3000
  }

  /** A turn as it is shown when `room` characters are left for its text. */
  predicate ShownIn(piece: string, turn: Turn, room: int) {
    var text, most := Trimmed(turn.content), Min(room, if turn.role == Assistant then 6000 else 3000);
    && room > 0
    && piece == LabelText(turn) + "：" + if |text| <= most then text else text[..most] + "\n[前文已截断]"
  }

  /** Four characters are kept besides the label. */
  function KeptBesides(turn: Turn): nat { |LabelText(turn)| + 4 }

  lemma WriteShown(turn: Turn, room: int)
    requires room > 0
    ensures ShownIn(Write(turn, room), turn, room)
  {
  }

  lemma PiecesShown(history: seq<Turn>, budget: nat)
    ensures FromNewest(HistoryPieces(history, budget), history, ShownIn, KeptBesides, budget, 0)
  {
    forall turn, room | room > 0 ensures ShownIn(Write(turn, room), turn, room) {
      WriteShown(turn, room);
    }
    PiecesFromNewest(history, Write, Overhead, ShownIn, KeptBesides, budget, 0);
  }

  lemma WriteInFull(turn: Turn, room: int)
    requires WithinCap(turn) && 0 < |Trimmed(turn.content)| <= room
    ensures Write(turn, room) == InFull(turn)
  {
  }

  lemma SaidInFull(turn: Turn)
    requires SaysSomething(turn) && WithinCap(turn)
    ensures WritesFull(turn, Write, Overhead, InFull)
  {
    CountsMeans(turn);
    forall room | |InFull(turn)| + 3 <= Overhead(turn) + room ensures Write(turn, room) == InFull(turn) {
      WriteInFull(turn, room);
    }
  }

  lemma {:induction false} RelevantSays(turns: seq<Turn>, turn: Turn)
    requires turn in Relevant(turns)
    ensures SaysSomething(turn)
  {
    var n := |turns| - 1;
    CountsMeans(turns[n]);
    if turn in Relevant(turns[..n]) {
      RelevantSays(turns[..n], turn);
    }
  }

  /** The turns that may be shown: the last six that say something. */
  ghost predicate IsHistory(history: seq<Turn>, turns: seq<Turn>) {
    var all := Relevant(turns);
    history == if |all| <= 6 then all else all[|all| - 6..]
  }

  lemma QuestionForm(turns: seq<Turn>, question: string, maxLength: nat, history: seq<Turn>, budget: nat)
    requires Trimmed(question) != "" && history != [] && IsHistory(history, turns)
    requires budget == Budget(Trimmed(question), maxLength)
    ensures Question(turns, question, maxLength) ==
      PREFIX + Bounded(Joined(HistoryPieces(history, budget)), budget) + Suffix(Trimmed(question))
  {
    assert LastSix(Relevant(turns)) == history;
  }

  lemma FullPieces(history: seq<Turn>, budget: nat)
    requires history != [] && forall turn | turn in history :: SaysSomething(turn) && WithinCap(turn)
    requires |Joined(AllInFull(history))| + 3 <= budget
    ensures Bounded(Joined(HistoryPieces(history, budget)), budget) == Joined(AllInFull(history))
  {
    JoinedLength(AllInFull(history));
    forall turn | turn in history ensures WritesFull(turn, Write, Overhead, InFull) {
      SaidInFull(turn);
    }
    AllFit(history, Write, Overhead, InFull, budget, 0);
  }

  /** Every turn is shown in full whenever all of them, with three characters to spare, fit besides the fixed parts. */
  lemma ShortHistoryShownInFull(turns: seq<Turn>, question: string, maxLength: nat, history: seq<Turn>)
    requires Trimmed(question) != "" && history != [] && IsHistory(history, turns)
    requires forall turn | turn in history :: WithinCap(turn)
    requires |PREFIX| + |Joined(AllInFull(history))| + 3 + |Suffix(Trimmed(question))| <= maxLength
    ensures Question(turns, question, maxLength) == PREFIX + Joined(AllInFull(history)) + Suffix(Trimmed(question))
  {
    var budget := Budget(Trimmed(question), maxLength);
    forall turn | turn in history ensures SaysSomething(turn) {
      RelevantSays(turns, turn);
    }
    FullPieces(history, budget);
    QuestionForm(turns, question, maxLength, history, budget);
  }

  /**
   With history the question is the fixed opening, one piece for each of the newest turns in order, and the
   whole current question. Each turn is shown in the room left to it, cut exactly to that room or its cap and
   marked when it is longer; what all pieces overshoot, at most five characters, goes from the oldest one.
   */
  lemma NewestTurnsThenCurrent(turns: seq<Turn>, question: string, maxLength: nat, history: seq<Turn>)
    returns (pieces: seq<string>, budget: nat, cut: nat)
    requires Trimmed(question) != "" && history != [] && IsHistory(history, turns)
    ensures budget == 0 || budget == maxLength - |PREFIX| - |Suffix(Trimmed(question))|
    ensures budget == 0 ==> maxLength <= |PREFIX| + |Suffix(Trimmed(question))|
    ensures FromNewest(pieces, history, ShownIn, KeptBesides, budget, 0)
    ensures cut == (if |Joined(pieces)| > budget then |Joined(pieces)| - budget else 0) <= 5
    ensures cut > 0 ==> pieces != [] && cut < |pieces[0]|
    ensures Question(turns, question, maxLength) ==
      PREFIX + Joined(if cut > 0 then Shortened(pieces, cut) else pieces) + Suffix(Trimmed(question))
  {
    budget := Budget(Trimmed(question), maxLength);
    pieces := HistoryPieces(history, budget);
    PiecesShown(history, budget);
    OvershootOfText(history, budget);
    cut := BoundedJoined(pieces, budget);
    QuestionForm(turns, question, maxLength, history, budget);
  }

  /** The fixed parts in words. */
  lemma FixedParts(current: string)
    ensures PREFIX ==
      "这是同一代码分析会话中的追问。前文仅用于理解指代，所有结论仍须重新依据当前源码核对；不要把前文回答当作已验证事实。\n\n前文：\n"
    ensures Suffix(current) == "\n\n当前追问：\n" + current
  {
  }

  /** Without history the question is the current one, cut to the limit; an empty one stays empty. */
  lemma WithoutHistory(turns: seq<Turn>, question: string, maxLength: nat)
    requires Trimmed(question) == "" || forall turn | turn in turns :: !SaysSomething(turn)
    ensures var asked, current := Question(turns, question, maxLength), Trimmed(question);
      asked <= current && |asked| == if |current| <= maxLength then |current| else maxLength
  {
    if Trimmed(question) != "" {
      if Relevant(turns) != [] {
        RelevantSays(turns, Relevant(turns)[0]);
        RelevantIn(turns, Relevant(turns)[0]);
      }
    }
  }

  lemma {:induction false} RelevantIn(turns: seq<Turn>, turn: Turn)
    requires turn in Relevant(turns)
    ensures turn in turns
  {
    var n := |turns| - 1;
    if turn in Relevant(turns[..n]) {
      RelevantIn(turns[..n], turn);
    }
  }
}
