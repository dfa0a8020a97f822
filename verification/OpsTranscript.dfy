/** The transcript and the logs that the progress of a task must stay consistent with. */
module OpsTranscript {
  import opened Basics
  import opened OpsTask
  import opened OpsProtocol

  predicate FinishedRound(r: Round) { |r.results| == |r.calls| }

  function Unanswered(h: History): seq<ToolCall>
    requires RoundsOk(h.rounds)
  {
    if h.rounds == [] then []
    else
      var last := h.rounds[|h.rounds| - 1];
      last.calls[|last.results|..]
  }

  /** Only the last round may be open, and no call is answered twice. */
  predicate RoundsOk(rounds: seq<Round>) {
    && (forall k | 0 <= k < |rounds| :: |rounds[k].results| <= |rounds[k].calls|)
    && (forall k | 0 <= k < |rounds| - 1 :: FinishedRound(rounds[k]))
  }

  /** An assistant message and one tool message for each answered call, in call order. */
  function RoundMessages(r: Round): seq<Message>
    requires |r.results| <= |r.calls|
  {
    [Assistant(r.content, r.calls)] +
    seq(|r.results|, k requires 0 <= k < |r.results| => Tool(r.calls[k].id, r.results[k]))
  }

  function Flatten(rounds: seq<Round>): seq<Message>
    requires forall k | 0 <= k < |rounds| :: |rounds[k].results| <= |rounds[k].calls|
  {
    if rounds == [] then []
    else Flatten(rounds[..|rounds| - 1]) + RoundMessages(rounds[|rounds| - 1])
  }

  /** The transcript is system, user, then the rounds. */
  predicate IsTranscript(p: Policy, messages: seq<Message>, rounds: seq<Round>) {
    && RoundsOk(rounds)
    && messages == [System(p.systemPrompt), User(p.question)] + Flatten(rounds)
  }

  predicate AllFinished(h: History) { forall k | 0 <= k < |h.rounds| :: FinishedRound(h.rounds[k]) }

  lemma NewRound(p: Policy, t: Task, h: History, content: string, calls: seq<ToolCall>)
    requires IsTranscript(p, t.messages, h.rounds) && AllFinished(h)
    ensures var h' := RecordRound(h, content, calls);
      && IsTranscript(p, Append(t, Assistant(content, calls)).messages, h'.rounds)
      && Unanswered(h') == calls
      && (calls == [] ==> AllFinished(h'))
  {
    var r := Round(content, calls, []);
    FlattenSnoc(h.rounds, r);
    assert RoundMessages(r) == [Assistant(content, calls)];
    AppendAssoc([System(p.systemPrompt), User(p.question)], Flatten(h.rounds), RoundMessages(r));
    assert calls[0..] == calls;
  }

  lemma FlattenSnoc(rounds: seq<Round>, r: Round)
    requires forall k | 0 <= k < |rounds| :: |rounds[k].results| <= |rounds[k].calls|
    requires |r.results| <= |r.calls|
    ensures Flatten(rounds + [r]) == Flatten(rounds) + RoundMessages(r)
  {
    assert (rounds + [r])[..|rounds|] == rounds;
  }

  lemma AppendAssoc(a: seq<Message>, b: seq<Message>, c: seq<Message>)
    ensures a + b + c == a + (b + c)
  {
  }

  lemma AnsweredCall(p: Policy, t: Task, h: History, result: ToolResult)
    requires IsTranscript(p, t.messages, h.rounds) && Unanswered(h) != []
    ensures var h' := RecordResult(h, result);
      && IsTranscript(p, Append(t, Tool(Unanswered(h)[0].id, result)).messages, h'.rounds)
      && Unanswered(h') == Unanswered(h)[1..]
      && (Unanswered(h') == [] ==> AllFinished(h'))
      && |h'.rounds| == |h.rounds|
  {
    var n := |h.rounds| - 1;
    var r := h.rounds[n];
    var r' := r.(results := r.results + [result]);
    var m := Tool(r.calls[|r.results|].id, result);
    assert RoundMessages(r') == RoundMessages(r) + [m];
    assert h.rounds[n := r'] == h.rounds[..n] + [r'];
    FlattenSnoc(h.rounds[..n], r');
    AppendAssoc(Flatten(h.rounds[..n]), RoundMessages(r), [m]);
    AppendAssoc([System(p.systemPrompt), User(p.question)], Flatten(h.rounds), [m]);
    assert r'.calls[|r'.results|..] == r.calls[|r.results|..][1..];
  }

  // ----- Slots -----

  predicate Before(a: Slot, b: Slot) {
    a.round < b.round || (a.round == b.round && a.index < b.index)
  }

  predicate IsSlot(h: History, s: Slot) {
    s.round < |h.rounds| && s.index < |h.rounds[s.round].calls|
  }

  function CallAt(h: History, s: Slot): ToolCall
    requires IsSlot(h, s)
  {
    h.rounds[s.round].calls[s.index]
  }

  /** call asks the shell for r, and every check that does not read loaded skills lets it through. */
  predicate Requests(p: Policy, call: ToolCall, r: ShellRequest) {
    && call.name == "shell_exec"
    && p.decodeRequest(call.arguments) == Ok(r)
    && p.requestError(r).None?
    && p.serverError(r).None?
    && !(r.target == "current-server" && p.serverId == "")
  }

  predicate Valid(p: Policy, loaded: set<string>, r: ShellRequest) {
    p.requestError(r).None? && p.serverError(r).None? && p.skillError(loaded, r).None?
  }

  ghost predicate DecidedBy(p: Policy, h: History, k: nat, slot: Slot) {
    && k < |h.decisions|
    && h.decisions[k].slot == slot
    && h.decisions[k].approved
    && h.decisions[k].actor == p.creator
    && IsSlot(h, slot)
    && h.decisions[k].callId == CallAt(h, slot).id
  }

  /** An execution is a requested shell call; unless it is exempt, its creator approved that very call. */
  ghost predicate Warranted(p: Policy, h: History, e: Execution) {
    && IsSlot(h, e.slot)
    && Requests(p, CallAt(h, e.slot), e.request)
    && e.approved == !p.exempt(e.request.command)
    && (e.approved ==> exists k: nat :: DecidedBy(p, h, k, e.slot))
  }

  ghost predicate Named(p: Policy, h: History, d: Decision) {
    IsSlot(h, d.slot) && d.callId == CallAt(h, d.slot).id && d.actor == p.creator
  }

  ghost predicate LogsOk(p: Policy, h: History) {
    && (forall k | 0 <= k < |h.executions| :: Warranted(p, h, h.executions[k]))
    && (forall j, k | 0 <= j < k < |h.executions| :: Before(h.executions[j].slot, h.executions[k].slot))
    && (forall k | 0 <= k < |h.decisions| :: Named(p, h, h.decisions[k]))
    && (forall j, k | 0 <= j < k < |h.decisions| :: Before(h.decisions[j].slot, h.decisions[k].slot))
    && (forall j, k | 0 <= j < |h.decisions| && 0 <= k < |h.executions| && !h.decisions[j].approved ::
          h.decisions[j].slot != h.executions[k].slot)
  }

  /** Everything executed lies before the call at the cursor, or (at) is that call. */
  ghost predicate ExecutedBelow(h: History, at: bool) {
    forall k | 0 <= k < |h.executions| ::
      Before(h.executions[k].slot, Cursor(h)) || (at && h.executions[k].slot == Cursor(h))
  }

  /** The same for decisions. */
  ghost predicate DecidedBelow(h: History, at: bool) {
    forall k | 0 <= k < |h.decisions| ::
      Before(h.decisions[k].slot, Cursor(h)) || (at && h.decisions[k].slot == Cursor(h))
  }

  ghost predicate Extends(h: History, h': History) {
    && |h.rounds| <= |h'.rounds|
    && (forall k | 0 <= k < |h.rounds| :: h'.rounds[k].calls == h.rounds[k].calls)
    && h.decisions <= h'.decisions
  }

  lemma WarrantStays(p: Policy, h: History, h': History, e: Execution)
    requires Extends(h, h') && Warranted(p, h, e)
    ensures Warranted(p, h', e)
  {
    if e.approved {
      var k: nat :| DecidedBy(p, h, k, e.slot);
      assert DecidedBy(p, h', k, e.slot);
    }
  }

  lemma LogsStay(p: Policy, h: History, h': History)
    requires Extends(h, h') && LogsOk(p, h)
    requires h'.executions == h.executions && h'.decisions == h.decisions
    ensures LogsOk(p, h')
  {
    forall k | 0 <= k < |h.executions| ensures Warranted(p, h', h'.executions[k]) {
      WarrantStays(p, h, h', h.executions[k]);
    }
    forall k | 0 <= k < |h.decisions| ensures Named(p, h', h'.decisions[k]) {
      assert Named(p, h, h.decisions[k]);
    }
  }

  /** The cursor moves past the call that a result answers. */
  lemma AnsweredLogs(p: Policy, h: History, result: ToolResult)
    requires RoundsOk(h.rounds) && Unanswered(h) != []
    requires LogsOk(p, h) && ExecutedBelow(h, true) && DecidedBelow(h, true)
    ensures var h' := RecordResult(h, result);
      LogsOk(p, h') && ExecutedBelow(h', false) && DecidedBelow(h', false)
  {
    LogsStay(p, h, RecordResult(h, result));
  }

  lemma NewRoundLogs(p: Policy, h: History, content: string, calls: seq<ToolCall>)
    requires RoundsOk(h.rounds) && LogsOk(p, h)
    requires ExecutedBelow(h, false) && DecidedBelow(h, false)
    ensures var h' := RecordRound(h, content, calls);
      LogsOk(p, h') && ExecutedBelow(h', false) && DecidedBelow(h', false)
  {
    LogsStay(p, h, RecordRound(h, content, calls));
  }

  lemma CursorIsSlot(h: History)
    requires RoundsOk(h.rounds) && Unanswered(h) != []
    ensures IsSlot(h, Cursor(h)) && CallAt(h, Cursor(h)) == Unanswered(h)[0]
  {
  }

  lemma ExecutedLogs(p: Policy, h: History, r: ShellRequest, approved: bool)
    requires RoundsOk(h.rounds) && Unanswered(h) != []
    requires LogsOk(p, h) && ExecutedBelow(h, false) && DecidedBelow(h, approved)
    requires Requests(p, Unanswered(h)[0], r) && approved == !p.exempt(r.command)
    requires approved ==> exists k: nat :: DecidedBy(p, h, k, Cursor(h))
    ensures var h' := RecordExecution(h, r, approved);
      LogsOk(p, h') && ExecutedBelow(h', true) && (forall at :: DecidedBelow(h, at) ==> DecidedBelow(h', at))
  {
    var h' := RecordExecution(h, r, approved);
    CursorIsSlot(h);
    forall k | 0 <= k < |h'.executions| ensures Warranted(p, h', h'.executions[k]) {
      if k < |h.executions| {
        WarrantStays(p, h, h', h.executions[k]);
      } else if approved {
        var j: nat :| DecidedBy(p, h, j, Cursor(h));
        assert DecidedBy(p, h', j, Cursor(h));
      }
    }
    forall k | 0 <= k < |h.decisions| ensures Named(p, h', h'.decisions[k]) {
      assert Named(p, h, h.decisions[k]);
    }
  }

  lemma DecidedLogs(p: Policy, h: History, callId: string, approved: bool)
    requires RoundsOk(h.rounds) && Unanswered(h) != [] && callId == Unanswered(h)[0].id
    requires LogsOk(p, h) && ExecutedBelow(h, false) && DecidedBelow(h, false)
    ensures var h' := RecordDecision(h, callId, p.creator, approved);
      && LogsOk(p, h') && ExecutedBelow(h', false)
      && DecidedBelow(h', true)
      && (approved ==> DecidedBy(p, h', |h.decisions|, Cursor(h')))
  {
    var h' := RecordDecision(h, callId, p.creator, approved);
    CursorIsSlot(h);
    forall k | 0 <= k < |h.executions| ensures Warranted(p, h', h'.executions[k]) {
      WarrantStays(p, h, h', h.executions[k]);
    }
    forall k | 0 <= k < |h'.decisions| ensures Named(p, h', h'.decisions[k]) {
      assert k < |h.decisions| ==> Named(p, h, h.decisions[k]);
    }
  }
}
