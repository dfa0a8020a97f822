/**
 The event log tells the history of the task: what the owner and the decisions emit, in order, is a function
 of the recorded rounds, decisions and executions and of where the owner stands. The end of the task and the
 requests for approval, which other threads emit at their own time, are in OpsEvents.
 */
module OpsStory {
  import opened Basics
  import opened Text
  import opened OpsTask
  import opened OpsProtocol
  import opened OpsTranscript
  import opened OpsInvariant
  import opened OpsSafety
  import opened OpsEndings
  import opened OpsRuns

  // ----- The story of a history -----

  predicate InStory(e: Event) { !TerminalEvent(e) && !e.ApprovalRequired? }

  function Tale(events: seq<Event>): seq<Event> {
    if events == [] then []
    else
      var n := |events| - 1;
      Tale(events[..n]) + if InStory(events[n]) then [events[n]] else []
  }

  /** The announced decisions on one call. */
  function Verdicts(ds: seq<Decision>, slot: Slot): seq<Event> {
    if ds == [] then []
    else
      var d := ds[|ds| - 1];
      Verdicts(ds[..|ds| - 1], slot) + if d.slot == slot then [ApprovalDecided(d.callId, d.approved, d.actor)] else []
  }

  predicate WasDenied(ds: seq<Decision>, slot: Slot) {
    exists k :: 0 <= k < |ds| && ds[k].slot == slot && !ds[k].approved
  }

  /** The announced executions of one call. */
  function Starts(es: seq<Execution>, slot: Slot, id: string): seq<Event> {
    if es == [] then []
    else Starts(es[..|es| - 1], slot, id) + if es[|es| - 1].slot == slot then [ToolStarted(id)] else []
  }

  /** What a call has had before its result. */
  function CallPart(ds: seq<Decision>, es: seq<Execution>, slot: Slot, id: string): seq<Event> {
    Verdicts(ds, slot) + Starts(es, slot, id)
  }

  /** A result is announced unless it is a denial. */
  function CallTale(ds: seq<Decision>, es: seq<Execution>, slot: Slot, id: string): seq<Event> {
    CallPart(ds, es, slot, id) + if WasDenied(ds, slot) then [] else [ToolFinished(id)]
  }

  function CallsTale(calls: seq<ToolCall>, round: nat, ds: seq<Decision>, es: seq<Execution>, n: nat): seq<Event>
    requires n <= |calls|
  {
    if n == 0 then []
    else CallsTale(calls, round, ds, es, n - 1) + CallTale(ds, es, Slot(round, n - 1), calls[n - 1].id)
  }

  /** Round k begins with the model call that gave it. */
  function Head(p: Policy, k: nat, content: string): seq<Event> {
    [ModelStarted(k + 1), ModelFinished(k + 1, true)] + Said(p, content)
  }

  function Said(p: Policy, content: string): seq<Event> {
    if Trim(content) != "" then [AssistantMessage(p.safeText(content, 16000))] else []
  }

  function RoundTale(p: Policy, r: Round, k: nat, ds: seq<Decision>, es: seq<Execution>): seq<Event>
    requires |r.results| <= |r.calls|
  {
    Head(p, k, r.content) + CallsTale(r.calls, k, ds, es, |r.results|)
  }

  function RoundsTale(p: Policy, rounds: seq<Round>, ds: seq<Decision>, es: seq<Execution>): seq<Event>
    requires forall k | 0 <= k < |rounds| :: |rounds[k].results| <= |rounds[k].calls|
  {
    if rounds == [] then []
    else
      var n := |rounds| - 1;
      RoundsTale(p, rounds[..n], ds, es) + RoundTale(p, rounds[n], n, ds, es)
  }

  /** What the first open call has had so far. */
  function OpenPart(h: History): seq<Event>
    requires RoundsOk(h.rounds)
  {
    if Unanswered(h) == [] then [] else CallPart(h.decisions, h.executions, Cursor(h), Unanswered(h)[0].id)
  }

  function Story(p: Policy, h: History): seq<Event>
    requires RoundsOk(h.rounds)
  {
    [TaskStarted] + RoundsTale(p, h.rounds, h.decisions, h.executions) + OpenPart(h)
  }

  /** What has been announced ahead of the history where a thread stands; a step without a round is a failed request. */
  function Ahead(t: Task, h: History, pc: Pc): seq<Event> {
    match pc
    case Asking(_) => [ModelStarted(t.steps)]
    case Replied(_, _) => [ModelStarted(t.steps), ModelFinished(t.steps, true)]
    case Executing(call, _, _) => [ToolStarted(call.id)]
    case ExecutingApproved(id, _) => [ToolStarted(id)]
    case Answering(call, _, _) => [ToolFinished(call.id)]
    case _ => if t.steps > |h.rounds| then [ModelStarted(t.steps), ModelFinished(t.steps, false)] else []
  }

  function Expected(p: Policy, t: Task, h: History, pc: Pc): seq<Event>
    requires RoundsOk(h.rounds)
  {
    Story(p, h) + Ahead(t, h, pc)
  }

  // ----- How the story grows -----

  lemma {:induction false} TaleConcat(a: seq<Event>, b: seq<Event>)
    ensures Tale(a + b) == Tale(a) + Tale(b)
  {
    if b == [] {
      assert a + b == a;
    } else {
      var n := |b| - 1;
      TaleConcat(a, b[..n]);
      assert (a + b)[..|a + b| - 1] == a + b[..n];
    }
  }

  lemma {:induction false} NoVerdicts(ds: seq<Decision>, slot: Slot)
    requires forall k | 0 <= k < |ds| :: ds[k].slot != slot
    ensures Verdicts(ds, slot) == []
  {
    if ds != [] {
      NoVerdicts(ds[..|ds| - 1], slot);
    }
  }

  lemma {:induction false} NoStarts(es: seq<Execution>, slot: Slot, id: string)
    requires forall k | 0 <= k < |es| :: es[k].slot != slot
    ensures Starts(es, slot, id) == []
  {
    if es != [] {
      NoStarts(es[..|es| - 1], slot, id);
    }
  }

  /** Both logs say the same of this call. */
  ghost predicate SameAt(ds: seq<Decision>, es: seq<Execution>, ds': seq<Decision>, es': seq<Execution>, slot: Slot) {
    && Verdicts(ds', slot) == Verdicts(ds, slot) && (WasDenied(ds', slot) <==> WasDenied(ds, slot))
    && forall id :: Starts(es', slot, id) == Starts(es, slot, id)
  }

  lemma {:induction false} DecisionElsewhere(ds: seq<Decision>, es: seq<Execution>, d: Decision, slot: Slot)
    requires d.slot != slot
    ensures SameAt(ds, es, ds + [d], es, slot)
  {
    assert (ds + [d])[..|ds|] == ds;
    if WasDenied(ds, slot) {
      var k :| 0 <= k < |ds| && ds[k].slot == slot && !ds[k].approved;
      assert (ds + [d])[k] == ds[k];
    }
  }

  lemma {:induction false} ExecutionElsewhere(ds: seq<Decision>, es: seq<Execution>, e: Execution, slot: Slot)
    requires e.slot != slot
    ensures SameAt(ds, es, ds, es + [e], slot)
  {
    assert (es + [e])[..|es|] == es;
  }

  lemma {:induction false} CallsFrame(calls: seq<ToolCall>, round: nat, ds: seq<Decision>, es: seq<Execution>,
                                      ds': seq<Decision>, es': seq<Execution>, n: nat)
    requires n <= |calls| && forall i: nat | i < n :: SameAt(ds, es, ds', es', Slot(round, i))
    ensures CallsTale(calls, round, ds', es', n) == CallsTale(calls, round, ds, es, n)
  {
    if n > 0 {
      CallsFrame(calls, round, ds, es, ds', es', n - 1);
      assert SameAt(ds, es, ds', es', Slot(round, n - 1));
    }
  }

  lemma {:induction false} RoundsFrame(p: Policy, rounds: seq<Round>, ds: seq<Decision>, es: seq<Execution>,
                                       ds': seq<Decision>, es': seq<Execution>)
    requires forall k | 0 <= k < |rounds| :: |rounds[k].results| <= |rounds[k].calls|
    requires forall k: nat, i: nat | k < |rounds| && i < |rounds[k].results| :: SameAt(ds, es, ds', es', Slot(k, i))
    ensures RoundsTale(p, rounds, ds', es') == RoundsTale(p, rounds, ds, es)
  {
    if rounds != [] {
      var n := |rounds| - 1;
      RoundsFrame(p, rounds[..n], ds, es, ds', es');
      CallsFrame(rounds[n].calls, n, ds, es, ds', es', |rounds[n].results|);
    }
  }

  lemma {:induction false} AnsweredBefore(h: History, k: nat, i: nat)
    requires RoundsOk(h.rounds) && k < |h.rounds| && i < |h.rounds[k].results|
    ensures Slot(k, i) != Cursor(h)
  {
  }

  lemma {:induction false} Regroup(a: seq<Event>, b: seq<Event>, c: seq<Event>, d: seq<Event>)
    ensures a + b + (c + d) == a + b + c + d && a + (b + c) + d == a + b + (c + d) && a + (b + c) == a + b + c
  {
  }

  lemma {:induction false} DecisionRounds(p: Policy, h: History, d: Decision)
    requires RoundsOk(h.rounds) && d.slot == Cursor(h)
    ensures RoundsTale(p, h.rounds, h.decisions + [d], h.executions) == RoundsTale(p, h.rounds, h.decisions, h.executions)
  {
    forall k: nat, i: nat | k < |h.rounds| && i < |h.rounds[k].results|
      ensures SameAt(h.decisions, h.executions, h.decisions + [d], h.executions, Slot(k, i))
    {
      AnsweredBefore(h, k, i);
      DecisionElsewhere(h.decisions, h.executions, d, Slot(k, i));
    }
    RoundsFrame(p, h.rounds, h.decisions, h.executions, h.decisions + [d], h.executions);
  }

  lemma {:induction false} VerdictsOneMore(ds: seq<Decision>, d: Decision)
    requires forall k | 0 <= k < |ds| :: ds[k].slot != d.slot
    ensures Verdicts(ds + [d], d.slot) == [ApprovalDecided(d.callId, d.approved, d.actor)]
  {
    var said := [ApprovalDecided(d.callId, d.approved, d.actor)];
    NoVerdicts(ds, d.slot);
    assert (ds + [d])[..|ds|] == ds;
    assert Verdicts(ds + [d], d.slot) == Verdicts(ds, d.slot) + said;
    assert [] + said == said;
  }

  lemma {:induction false} DeniedOneMore(ds: seq<Decision>, d: Decision)
    requires forall k | 0 <= k < |ds| :: ds[k].slot != d.slot
    ensures WasDenied(ds + [d], d.slot) <==> !d.approved
  {
    assert (ds + [d])[|ds|] == d;
    assert forall k | 0 <= k < |ds| :: (ds + [d])[k] == ds[k];
  }

  /** Nothing but the part of the open call grew. */
  lemma {:induction false} StoryParts(p: Policy, h: History, h': History, gained: seq<Event>)
    requires RoundsOk(h.rounds) && RoundsOk(h'.rounds)
    requires RoundsTale(p, h'.rounds, h'.decisions, h'.executions) == RoundsTale(p, h.rounds, h.decisions, h.executions)
    requires OpenPart(h') == OpenPart(h) + gained
    ensures Story(p, h') == Story(p, h) + gained
  {
    var front := [TaskStarted] + RoundsTale(p, h.rounds, h.decisions, h.executions);
    assert front + (OpenPart(h) + gained) == (front + OpenPart(h)) + gained;
  }

  lemma {:induction false} WithNothing(a: seq<Event>)
    ensures a + [] == a
  {
  }

  lemma {:induction false} DecisionOpen(h: History, d: Decision)
    requires RoundsOk(h.rounds) && Unanswered(h) != [] && DecidedBelow(h, false) && ExecutedBelow(h, false)
    requires d.slot == Cursor(h)
    ensures OpenPart(h) == [] && OpenPart(h.(decisions := h.decisions + [d])) == [ApprovalDecided(d.callId, d.approved, d.actor)]
  {
    var id := Unanswered(h)[0].id;
    VerdictsOneMore(h.decisions, d);
    NoVerdicts(h.decisions, Cursor(h));
    NoStarts(h.executions, Cursor(h), id);
    WithNothing(Verdicts(h.decisions + [d], Cursor(h)));
  }

  /** A decision on the first open call is next in the story. */
  lemma {:induction false} DecisionTold(p: Policy, h: History, callId: string, actor: string, approved: bool)
    requires RoundsOk(h.rounds) && Unanswered(h) != [] && DecidedBelow(h, false) && ExecutedBelow(h, false)
    ensures var h' := RecordDecision(h, callId, actor, approved);
      && Story(p, h') == Story(p, h) + [ApprovalDecided(callId, approved, actor)]
      && (WasDenied(h'.decisions, Cursor(h)) <==> !approved)
  {
    var d := Decision(Cursor(h), callId, actor, approved);
    DecisionRounds(p, h, d);
    DeniedOneMore(h.decisions, d);
    DecisionOpen(h, d);
    StoryParts(p, h, RecordDecision(h, callId, actor, approved), [ApprovalDecided(callId, approved, actor)]);
  }

  lemma {:induction false} ExecutionRounds(p: Policy, h: History, e: Execution)
    requires RoundsOk(h.rounds) && e.slot == Cursor(h)
    ensures RoundsTale(p, h.rounds, h.decisions, h.executions + [e]) == RoundsTale(p, h.rounds, h.decisions, h.executions)
  {
    forall k: nat, i: nat | k < |h.rounds| && i < |h.rounds[k].results|
      ensures SameAt(h.decisions, h.executions, h.decisions, h.executions + [e], Slot(k, i))
    {
      AnsweredBefore(h, k, i);
      ExecutionElsewhere(h.decisions, h.executions, e, Slot(k, i));
    }
    RoundsFrame(p, h.rounds, h.decisions, h.executions, h.decisions, h.executions + [e]);
  }

  lemma {:induction false} StartsOneMore(es: seq<Execution>, e: Execution, id: string)
    ensures Starts(es + [e], e.slot, id) == Starts(es, e.slot, id) + [ToolStarted(id)]
  {
    assert (es + [e])[..|es|] == es;
  }

  lemma {:induction false} ExecutionOpen(h: History, e: Execution)
    requires RoundsOk(h.rounds) && Unanswered(h) != [] && e.slot == Cursor(h)
    ensures OpenPart(h.(executions := h.executions + [e])) == OpenPart(h) + [ToolStarted(Unanswered(h)[0].id)]
  {
    var id := Unanswered(h)[0].id;
    StartsOneMore(h.executions, e, id);
    Regroup(Verdicts(h.decisions, e.slot), Starts(h.executions, e.slot, id), [ToolStarted(id)], []);
  }

  lemma {:induction false} ExecutionTold(p: Policy, h: History, r: ShellRequest, approved: bool)
    requires RoundsOk(h.rounds) && Unanswered(h) != []
    ensures Story(p, RecordExecution(h, r, approved)) == Story(p, h) + [ToolStarted(Unanswered(h)[0].id)]
  {
    var e := Execution(Cursor(h), r, approved);
    ExecutionRounds(p, h, e);
    ExecutionOpen(h, e);
    StoryParts(p, h, RecordExecution(h, r, approved), [ToolStarted(Unanswered(h)[0].id)]);
  }

  /** Nothing concerns a call behind the cursor. */
  lemma {:induction false} NothingAhead(h: History, slot: Slot, id: string)
    requires ExecutedBelow(h, true) && DecidedBelow(h, true) && Before(Cursor(h), slot)
    ensures CallPart(h.decisions, h.executions, slot, id) == []
  {
    NoVerdicts(h.decisions, slot);
    NoStarts(h.executions, slot, id);
  }

  lemma {:induction false} OpenAfterResult(h: History, result: ToolResult)
    requires RoundsOk(h.rounds) && Unanswered(h) != [] && ExecutedBelow(h, true) && DecidedBelow(h, true)
    requires RoundsOk(RecordResult(h, result).rounds)
    ensures OpenPart(RecordResult(h, result)) == []
  {
    var h' := RecordResult(h, result);
    if Unanswered(h') != [] {
      assert Before(Cursor(h), Cursor(h'));
      NothingAhead(h, Cursor(h'), Unanswered(h')[0].id);
    }
  }

  lemma {:induction false} RoundsSnoc(p: Policy, front: seq<Round>, r: Round, ds: seq<Decision>, es: seq<Execution>)
    requires forall k | 0 <= k < |front| :: |front[k].results| <= |front[k].calls|
    requires |r.results| <= |r.calls|
    ensures RoundsTale(p, front + [r], ds, es) == RoundsTale(p, front, ds, es) + RoundTale(p, r, |front|, ds, es)
  {
    assert (front + [r])[..|front|] == front;
  }

  lemma {:induction false} RoundAfterResult(p: Policy, r: Round, result: ToolResult, n: nat, ds: seq<Decision>, es: seq<Execution>)
    requires |r.results| < |r.calls|
    ensures var m := |r.results|;
      RoundTale(p, r.(results := r.results + [result]), n, ds, es)
        == RoundTale(p, r, n, ds, es) + CallTale(ds, es, Slot(n, m), r.calls[m].id)
  {
    var m, head := |r.results|, Head(p, n, r.content);
    var before, call := CallsTale(r.calls, n, ds, es, m), CallTale(ds, es, Slot(n, m), r.calls[m].id);
    assert CallsTale(r.calls, n, ds, es, m + 1) == before + call;
    assert head + (before + call) == (head + before) + call;
  }

  lemma {:induction false} LastRoundGrows(p: Policy, front: seq<Round>, r: Round, result: ToolResult, ds: seq<Decision>,
                                          es: seq<Execution>)
    requires forall k | 0 <= k < |front| :: |front[k].results| <= |front[k].calls|
    requires |r.results| < |r.calls|
    ensures var n, m := |front|, |r.results|;
      RoundsTale(p, front + [r.(results := r.results + [result])], ds, es)
        == RoundsTale(p, front + [r], ds, es) + CallTale(ds, es, Slot(n, m), r.calls[m].id)
  {
    var n, m := |front|, |r.results|;
    RoundsSnoc(p, front, r, ds, es);
    RoundsSnoc(p, front, r.(results := r.results + [result]), ds, es);
    RoundAfterResult(p, r, result, n, ds, es);
    Regroup(RoundsTale(p, front, ds, es), RoundTale(p, r, n, ds, es), CallTale(ds, es, Slot(n, m), r.calls[m].id), []);
  }

  lemma {:induction false} LastRound(h: History, result: ToolResult) returns (front: seq<Round>, r: Round)
    requires RoundsOk(h.rounds) && Unanswered(h) != []
    ensures h.rounds == front + [r] && RecordResult(h, result).rounds == front + [r.(results := r.results + [result])]
    ensures |r.results| < |r.calls| && Cursor(h) == Slot(|front|, |r.results|) && Unanswered(h)[0] == r.calls[|r.results|]
    ensures forall k | 0 <= k < |front| :: |front[k].results| <= |front[k].calls|
  {
    var n := |h.rounds| - 1;
    front, r := h.rounds[..n], h.rounds[n];
  }

  lemma {:induction false} RoundsAfterResult(p: Policy, h: History, result: ToolResult)
    requires RoundsOk(h.rounds) && Unanswered(h) != [] && RoundsOk(RecordResult(h, result).rounds)
    ensures var h' := RecordResult(h, result);
      RoundsTale(p, h'.rounds, h.decisions, h.executions) ==
        RoundsTale(p, h.rounds, h.decisions, h.executions) + CallTale(h.decisions, h.executions, Cursor(h), Unanswered(h)[0].id)
  {
    var front, r := LastRound(h, result);
    LastRoundGrows(p, front, r, result, h.decisions, h.executions);
  }

  lemma {:induction false} PartThenRest(a: seq<Event>, b: seq<Event>, c: seq<Event>, d: seq<Event>)
    ensures a + (b + (c + d)) + [] == (a + b + c) + d
  {
  }

  lemma {:induction false} ResultTold(p: Policy, h: History, result: ToolResult)
    requires RoundsOk(h.rounds) && Unanswered(h) != [] && ExecutedBelow(h, true) && DecidedBelow(h, true)
    requires RoundsOk(RecordResult(h, result).rounds)
    ensures Story(p, RecordResult(h, result)) ==
      Story(p, h) + if WasDenied(h.decisions, Cursor(h)) then [] else [ToolFinished(Unanswered(h)[0].id)]
  {
    var rounds, part := RoundsTale(p, h.rounds, h.decisions, h.executions), OpenPart(h);
    var finished := if WasDenied(h.decisions, Cursor(h)) then [] else [ToolFinished(Unanswered(h)[0].id)];
    OpenAfterResult(h, result);
    RoundsAfterResult(p, h, result);
    StoryIs(p, h, rounds, part);
    StoryIs(p, RecordResult(h, result), rounds + (part + finished), []);
    PartThenRest([TaskStarted], rounds, part, finished);
  }

  lemma {:induction false} OpenAfterRound(p: Policy, h: History, content: string, calls: seq<ToolCall>)
    requires RoundsOk(h.rounds) && AllFinished(h) && LogsOk(p, h) && RoundsOk(RecordRound(h, content, calls).rounds)
    ensures OpenPart(h) == [] && OpenPart(RecordRound(h, content, calls)) == []
  {
    var n := |h.rounds|;
    NothingUnanswered(h);
    if calls != [] {
      NoVerdicts(h.decisions, Slot(n, 0)) by {
        assert forall k | 0 <= k < |h.decisions| :: Named(p, h, h.decisions[k]);
      }
      NoStarts(h.executions, Slot(n, 0), calls[0].id) by {
        assert forall k | 0 <= k < |h.executions| :: Warranted(p, h, h.executions[k]);
      }
    }
  }

  lemma {:induction false} RoundsAfterRound(p: Policy, h: History, content: string, calls: seq<ToolCall>)
    requires RoundsOk(h.rounds)
    ensures var rounds := h.rounds + [Round(content, calls, [])];
      RoundsTale(p, rounds, h.decisions, h.executions)
        == RoundsTale(p, h.rounds, h.decisions, h.executions) + Head(p, |h.rounds|, content)
  {
    var n, r := |h.rounds|, Round(content, calls, []);
    RoundsSnoc(p, h.rounds, r, h.decisions, h.executions);
    assert RoundTale(p, r, n, h.decisions, h.executions) == Head(p, n, content) + [] == Head(p, n, content);
  }

  lemma {:induction false} StoryIs(p: Policy, h: History, rounds: seq<Event>, open: seq<Event>)
    requires RoundsOk(h.rounds) && rounds == RoundsTale(p, h.rounds, h.decisions, h.executions) && open == OpenPart(h)
    ensures Story(p, h) == [TaskStarted] + rounds + open
  {
  }

  lemma {:induction false} BeforeNothing(a: seq<Event>, b: seq<Event>, c: seq<Event>)
    ensures a + (b + c) + [] == a + b + [] + c
  {
  }

  lemma {:induction false} RoundTold(p: Policy, h: History, content: string, calls: seq<ToolCall>)
    requires RoundsOk(h.rounds) && AllFinished(h) && LogsOk(p, h) && RoundsOk(RecordRound(h, content, calls).rounds)
    ensures Story(p, RecordRound(h, content, calls)) == Story(p, h) + Head(p, |h.rounds|, content)
  {
    var rounds, head := RoundsTale(p, h.rounds, h.decisions, h.executions), Head(p, |h.rounds|, content);
    OpenAfterRound(p, h, content, calls);
    RoundsAfterRound(p, h, content, calls);
    StoryIs(p, h, rounds, []);
    StoryIs(p, RecordRound(h, content, calls), rounds + head, []);
    BeforeNothing([TaskStarted], rounds, head);
  }

  // ----- The steps of the owner -----

  lemma TaleOne(e: Event)
    ensures Tale([e]) == if InStory(e) then [e] else []
  {
    assert [e][..0] == [];
  }

  lemma TaleTwo(e: Event, f: Event)
    requires InStory(e) && InStory(f)
    ensures Tale([e, f]) == [e, f]
  {
    assert [e, f][..1] == [e];
    TaleOne(e);
  }

  /** Where a result is on its way, the call was not denied. */
  ghost predicate Undenied(h: History, pc: Pc) {
    pc.InShell? || pc.Answering? || pc.ExecutingApproved? || pc.InApprovedShell? || pc.Recording? ==>
      !WasDenied(h.decisions, Cursor(h))
  }

  lemma {:induction false} ClearUndenied(h: History)
    requires DecidedBelow(h, false)
    ensures !WasDenied(h.decisions, Cursor(h))
  {
  }

  /** What is ahead of the history takes up what the history gained and what is left in the outbox. */
  ghost predicate AheadMoves(x: Local, x': Local, gained: seq<Event>) {
    && gained + Ahead(x'.task, x'.hist, x'.thread.pc) == Ahead(x.task, x.hist, x.thread.pc) + Tale(x'.thread.outbox)
    && Undenied(x'.hist, x'.thread.pc)
    && (!Owns(x'.thread) ==>
          Tale(x'.thread.outbox) == [] && Ahead(x'.task, x'.hist, x'.thread.pc) == Ahead(x'.task, x'.hist, Gone))
  }

  /** The section adds to the story what it leaves in the outbox. */
  ghost predicate TellsOn(p: Policy, x: Local, x': Local) {
    && RoundsOk(x.hist.rounds) && RoundsOk(x'.hist.rounds) && Undenied(x'.hist, x'.thread.pc)
    && Expected(p, x'.task, x'.hist, x'.thread.pc) == Expected(p, x.task, x.hist, x.thread.pc) + Tale(x'.thread.outbox)
    && (!Owns(x'.thread) ==>
          Tale(x'.thread.outbox) == [] && Ahead(x'.task, x'.hist, x'.thread.pc) == Ahead(x'.task, x'.hist, Gone))
  }

  lemma {:induction false} AddsUp(story: seq<Event>, ahead: seq<Event>, gained: seq<Event>, ahead': seq<Event>, left: seq<Event>)
    requires gained + ahead' == ahead + left
    ensures (story + gained) + ahead' == (story + ahead) + left
  {
    assert (story + gained) + ahead' == story + (gained + ahead');
    assert (story + ahead) + left == story + (ahead + left);
  }

  lemma {:induction false} Combined(p: Policy, x: Local, x': Local, gained: seq<Event>)
    requires RoundsOk(x.hist.rounds) && RoundsOk(x'.hist.rounds)
    requires Story(p, x'.hist) == Story(p, x.hist) + gained && AheadMoves(x, x', gained)
    ensures TellsOn(p, x, x')
  {
    AddsUp(Story(p, x.hist), Ahead(x.task, x.hist, x.thread.pc), gained, Ahead(x'.task, x'.hist, x'.thread.pc),
           Tale(x'.thread.outbox));
  }

  lemma {:induction false} TaleOfSaid(p: Policy, content: string)
    ensures Tale(Said(p, content)) == Said(p, content)
  {
    if Said(p, content) != [] {
      TaleOne(Said(p, content)[0]);
    }
  }

  lemma {:induction false} ReplyOutbox(p: Policy, content: string, calls: seq<ToolCall>)
    ensures var th := AfterReply(p, content, calls);
      th.outbox == Said(p, content) && Owns(th) && (th.pc.Completing? || th.pc.Calls?)
  {
  }

  /** With every request accounted for nothing is ahead at these places. */
  lemma {:induction false} NothingMore(t: Task, h: History, pc: Pc)
    requires t.steps == |h.rounds| && (pc.Completing? || pc.Calls?)
    ensures Ahead(t, h, pc) == []
  {
  }

  lemma {:induction false} RepliedMoves(x: Local, x': Local, said: seq<Event>)
    requires x.thread.pc.Replied? && x'.thread.outbox == said && Tale(said) == said
    requires Ahead(x'.task, x'.hist, x'.thread.pc) == [] && (x'.thread.pc.Completing? || x'.thread.pc.Calls?)
    ensures AheadMoves(x, x', [ModelStarted(x.task.steps), ModelFinished(x.task.steps, true)] + said)
  {
    var asked := [ModelStarted(x.task.steps), ModelFinished(x.task.steps, true)];
    assert (asked + said) + [] == asked + said;
  }

  lemma {:induction false} AnswerMoves(t: Task, h: History, call: ToolCall, rest: seq<ToolCall>, result: ToolResult)
    requires t.steps == |h.rounds| == |RecordResult(h, result).rounds|
    ensures AheadMoves(Local(t, h, At(Answering(call, rest, result))),
                       Local(Append(t, Tool(call.id, result)), RecordResult(h, result), At(Calls(rest))), [ToolFinished(call.id)])
  {
  }

  lemma {:induction false} RecordMoves(t: Task, h: History, id: string, result: ToolResult)
    requires t.steps == |h.rounds| == |RecordResult(h, result).rounds|
    ensures AheadMoves(Local(t, h, At(Recording(id, result))),
                       Local(Append(t, Tool(id, result)), RecordResult(h, result), Thread([ToolFinished(id)], HandOff)),
                       [ToolFinished(id)])
  {
    TaleOne(ToolFinished(id));
  }

  lemma {:induction false} ExecutionMoves(t: Task, h: History, call: ToolCall, rest: seq<ToolCall>, r: ShellRequest)
    requires t.steps == |h.rounds| && !WasDenied(h.decisions, Cursor(h))
    ensures AheadMoves(Local(t, h, At(Executing(call, rest, r))),
                       Local(t, RecordExecution(h, r, false), At(InShell(call, rest, r))), [ToolStarted(call.id)])
  {
  }

  lemma {:induction false} ApprovedMoves(t: Task, h: History, id: string, r: ShellRequest)
    requires t.steps == |h.rounds| && !WasDenied(h.decisions, Cursor(h))
    ensures AheadMoves(Local(t, h, At(ExecutingApproved(id, r))),
                       Local(t, RecordExecution(h, r, true), At(InApprovedShell(id, r))), [ToolStarted(id)])
  {
  }

  lemma {:induction false} AnsweredMoves(t: Task, h: History, pc: Pc, call: ToolCall, rest: seq<ToolCall>, result: ToolResult)
    requires t.steps == |h.rounds| && !WasDenied(h.decisions, Cursor(h)) && Ahead(t, h, pc) == []
    ensures AheadMoves(Local(t, h, At(pc)), Local(t, h, Answer(call, rest, result)), [])
  {
    TaleOne(ToolFinished(call.id));
  }

  lemma {:induction false} DispatchMoves(p: Policy, t: Task, h: History, call: ToolCall, rest: seq<ToolCall>)
    requires t.steps == |h.rounds| && !WasDenied(h.decisions, Cursor(h))
    ensures AheadMoves(Local(t, h, At(Dispatching(call, rest))), Local(t, h, Dispatch(p, call, rest)), [])
  {
    var result := DispatchCases(p, call, rest);
    if Dispatch(p, call, rest) == Answer(call, rest, result) {
      AnsweredMoves(t, h, Dispatching(call, rest), call, rest, result);
    } else {
      DispatchOutbox(p, call, rest);
    }
  }

  lemma {:induction false} DispatchOutbox(p: Policy, call: ToolCall, rest: seq<ToolCall>)
    requires !Dispatch(p, call, rest).pc.Answering?
    ensures Dispatch(p, call, rest).outbox == []
  {
  }

  lemma {:induction false} ExemptMoves(t: Task, h: History, call: ToolCall, rest: seq<ToolCall>, r: ShellRequest)
    requires t.steps == |h.rounds|
    ensures AheadMoves(Local(t, h, At(Checking(call, rest, r))),
                       Local(t, h, Thread([ToolStarted(call.id)], Executing(call, rest, r))), [])
  {
    TaleOne(ToolStarted(call.id));
  }

  lemma {:induction false} CheckMoves(p: Policy, t: Task, h: History, call: ToolCall, rest: seq<ToolCall>, r: ShellRequest)
    requires t.steps == |h.rounds| && !WasDenied(h.decisions, Cursor(h))
    ensures AheadMoves(Local(t, h, At(Checking(call, rest, r))), Local(t, h, Check(p, t.loadedSkills, call, rest, r)), [])
  {
    var pc, th := Checking(call, rest, r), Check(p, t.loadedSkills, call, rest, r);
    if th.pc.Answering? {
      AnsweredMoves(t, h, pc, call, rest, th.pc.result);
    } else if th.pc.Executing? {
      ExemptMoves(t, h, call, rest, r);
    } else {
      SilentMoves(Local(t, h, At(pc)), Local(t, h, th));
    }
  }

  /** A model request, and its answer. */
  lemma {:induction false} AskMoves(t: Task, h: History)
    requires t.steps == |h.rounds|
    ensures AheadMoves(Local(t, h, At(LoopTop)),
                       Local(BeginStep(t), h, Thread([ModelStarted(t.steps + 1)], Asking(t.messages))), [])
  {
    TaleOne(ModelStarted(t.steps + 1));
  }

  lemma {:induction false} FailedReplyMoves(t: Task, h: History, transcript: seq<Message>, message: string)
    requires t.steps == |h.rounds| + 1
    ensures AheadMoves(Local(t, h, At(Asking(transcript))),
                       Local(t, h, Thread([ModelFinished(t.steps, false)], Failing(message))), [])
  {
    TaleOne(ModelFinished(t.steps, false));
    assert [ModelStarted(t.steps)] + [ModelFinished(t.steps, false)] == [ModelStarted(t.steps), ModelFinished(t.steps, false)];
  }

  lemma {:induction false} GoodReplyMoves(t: Task, h: History, transcript: seq<Message>, content: string, calls: seq<ToolCall>)
    requires t.steps == |h.rounds| + 1
    ensures AheadMoves(Local(t, h, At(Asking(transcript))),
                       Local(t, h, Thread([ModelFinished(t.steps, true)], Replied(content, calls))), [])
  {
    TaleOne(ModelFinished(t.steps, true));
    assert [ModelStarted(t.steps)] + [ModelFinished(t.steps, true)] == [ModelStarted(t.steps), ModelFinished(t.steps, true)];
  }

  lemma {:induction false} ParkMoves(t: Task, h: History, call: ToolCall, rest: seq<ToolCall>, r: ShellRequest)
    ensures AheadMoves(Local(t, h, At(Parking(call, rest, r))),
                       Local(Park(t, PendingFor(call.id, r)), h, Thread([ApprovalRequired(call.id)], Gone)), [])
  {
    TaleOne(ApprovalRequired(call.id));
  }

  /** Sections that announce nothing. */
  lemma {:induction false} SilentMoves(x: Local, x': Local)
    requires x'.thread.outbox == [] && Undenied(x'.hist, x'.thread.pc)
    requires Ahead(x'.task, x'.hist, x'.thread.pc) == Ahead(x.task, x.hist, x.thread.pc)
    requires !Owns(x'.thread) ==> Ahead(x'.task, x'.hist, x'.thread.pc) == Ahead(x'.task, x'.hist, Gone)
    ensures AheadMoves(x, x', [])
  {
  }

  lemma {:induction false} StoryFrame(p: Policy, h: History, h': History)
    requires RoundsOk(h.rounds) && SameLogs(h, h')
    ensures Story(p, h') == Story(p, h)
  {
  }

  lemma {:induction false} RepliedTells(p: Policy, x: Local)
    requires OwnerFacts(p, x) && x.thread.outbox == [] && x.thread.pc.Replied?
    ensures TellsOn(p, x, Advance(p, x, NoInput))
  {
    var h, pc := x.hist, x.thread.pc;
    NewRound(p, x.task, h, pc.content, pc.calls);
    RoundTold(p, h, pc.content, pc.calls);
    var x', said := Advance(p, x, NoInput), Said(p, pc.content);
    TaleOfSaid(p, pc.content);
    ReplyOutbox(p, pc.content, pc.calls);
    NothingMore(x'.task, x'.hist, x'.thread.pc);
    RepliedMoves(x, x', said);
    Combined(p, x, x', Head(p, |h.rounds|, pc.content));
  }

  lemma {:induction false} ExecutionTells(p: Policy, x: Local)
    requires OwnerFacts(p, x) && Undenied(x.hist, x.thread.pc)
    requires x.thread.outbox == [] && (x.thread.pc.Executing? || x.thread.pc.ExecutingApproved?)
    ensures TellsOn(p, x, Advance(p, x, NoInput))
  {
    var h, pc := x.hist, x.thread.pc;
    ExecutionTold(p, h, pc.request, pc.ExecutingApproved?);
    if pc.Executing? {
      ClearUndenied(h);
      ExecutionMoves(x.task, h, pc.call, pc.rest, pc.request);
    } else {
      ApprovedMoves(x.task, h, pc.callId, pc.request);
    }
    Combined(p, x, Advance(p, x, NoInput), [ToolStarted(Unanswered(h)[0].id)]);
  }

  lemma {:induction false} ResultTells(p: Policy, x: Local)
    requires OwnerFacts(p, x) && Undenied(x.hist, x.thread.pc)
    requires x.thread.outbox == [] && (x.thread.pc.Answering? || x.thread.pc.Recording?)
    ensures TellsOn(p, x, Advance(p, x, NoInput))
  {
    var h, pc := x.hist, x.thread.pc;
    AnsweredCall(p, x.task, h, pc.result);
    ResultTold(p, h, pc.result);
    if pc.Answering? {
      AnswerMoves(x.task, h, pc.call, pc.rest, pc.result);
    } else {
      RecordMoves(x.task, h, pc.callId, pc.result);
    }
    Combined(p, x, Advance(p, x, NoInput), [ToolFinished(Unanswered(h)[0].id)]);
  }

  lemma {:induction false} LogsUntouched(p: Policy, x: Local, input: Input)
    requires Ready(x, input) && x.thread.outbox == []
    requires var pc := x.thread.pc; !(pc.Replied? || pc.Answering? || pc.Recording? || pc.Executing? || pc.ExecutingApproved?)
    ensures SameLogs(x.hist, Advance(p, x, input).hist)
  {
  }

  lemma {:induction false} OtherTells(p: Policy, x: Local, input: Input)
    requires RoundsOk(x.hist.rounds) && Ready(x, input) && x.thread.outbox == []
    requires var pc := x.thread.pc; !(pc.Replied? || pc.Answering? || pc.Recording? || pc.Executing? || pc.ExecutingApproved?)
    requires AheadMoves(x, Advance(p, x, input), [])
    ensures TellsOn(p, x, Advance(p, x, input))
  {
    LogsUntouched(p, x, input);
    StoryFrame(p, x.hist, Advance(p, x, input).hist);
    assert Story(p, x.hist) + [] == Story(p, x.hist);
    Combined(p, x, Advance(p, x, input), []);
  }

  lemma {:induction false} CallMoves(p: Policy, x: Local, input: Input)
    requires OwnerFacts(p, x) && Undenied(x.hist, x.thread.pc) && x.thread.outbox == [] && Ready(x, input)
    requires var pc := x.thread.pc; pc.Dispatching? || pc.Checking? || pc.Loading? || pc.InShell? || pc.Parking?
    ensures AheadMoves(x, Advance(p, x, input), [])
  {
    var t, h, pc := x.task, x.hist, x.thread.pc;
    if pc.Dispatching? {
      ClearUndenied(h);
      DispatchMoves(p, t, h, pc.call, pc.rest);
    } else if pc.Checking? {
      ClearUndenied(h);
      CheckMoves(p, t, h, pc.call, pc.rest, pc.request);
    } else if pc.Loading? {
      ClearUndenied(h);
      AnsweredMoves(t, h, pc, pc.call, pc.rest, SkillLoaded(pc.skill.name, pc.skill.text));
    } else if pc.InShell? {
      AnsweredMoves(t, h, pc, pc.call, pc.rest, ShellOutput(input.text));
    } else {
      ParkMoves(t, h, pc.call, pc.rest, pc.request);
    }
  }

  lemma {:induction false} ModelMoves(p: Policy, x: Local, input: Input)
    requires OwnerFacts(p, x) && x.thread.outbox == [] && Ready(x, input) && (x.thread.pc.LoopTop? || x.thread.pc.Asking?)
    ensures AheadMoves(x, Advance(p, x, input), [])
  {
    var pc := x.thread.pc;
    if pc.Asking? {
      if input.reply.ModelError? {
        FailedReplyMoves(x.task, x.hist, pc.transcript, MODEL_FAILURE_PREFIX + p.safeText(input.reply.error, 500));
      } else {
        GoodReplyMoves(x.task, x.hist, pc.transcript, input.reply.content, input.reply.calls);
      }
    } else if StepsLeft(p, x.task) {
      AskMoves(x.task, x.hist);
    } else {
      SilentMoves(x, Advance(p, x, input));
    }
  }

  lemma {:induction false} EndMoves(p: Policy, x: Local)
    requires OwnerFacts(p, x) && x.thread.outbox == [] && (x.thread.pc.Completing? || x.thread.pc.Failing?)
    ensures AheadMoves(x, Advance(p, x, NoInput), [])
  {
    SilentMoves(x, Advance(p, x, NoInput));
  }

  lemma {:induction false} QuietMoves(p: Policy, x: Local, input: Input)
    requires OwnerFacts(p, x) && Undenied(x.hist, x.thread.pc) && x.thread.outbox == [] && Ready(x, input)
    requires var pc := x.thread.pc; pc.Calls? || pc.InApprovedShell? || pc.Resuming?
    ensures AheadMoves(x, Advance(p, x, input), [])
  {
    SilentMoves(x, Advance(p, x, input));
  }

  lemma {:induction false} OwnerTells(p: Policy, x: Local, input: Input)
    requires OwnerFacts(p, x) && Undenied(x.hist, x.thread.pc) && x.thread.outbox == [] && Ready(x, input)
    ensures TellsOn(p, x, Advance(p, x, input))
  {
    var pc := x.thread.pc;
    if pc.Replied? {
      RepliedTells(p, x);
    } else if pc.Executing? || pc.ExecutingApproved? {
      ExecutionTells(p, x);
    } else if pc.Answering? || pc.Recording? {
      ResultTells(p, x);
    } else {
      if pc.Dispatching? || pc.Checking? || pc.Loading? || pc.InShell? || pc.Parking? {
        CallMoves(p, x, input);
      } else if pc.LoopTop? || pc.Asking? {
        ModelMoves(p, x, input);
      } else if pc.Completing? || pc.Failing? {
        EndMoves(p, x);
      } else {
        QuietMoves(p, x, input);
      }
      OtherTells(p, x, input);
    }
  }

  // ----- Every action keeps the log to the story -----

  /** The log is a front part of what is expected; while the task is listed only this outbox is missing. */
  ghost predicate Told(p: Policy, t: Task, h: History, th: Thread)
    requires RoundsOk(h.rounds)
  {
    && Tale(t.events) <= Expected(p, t, h, th.pc)
    && (t.listed ==> Tale(t.events) + Tale(th.outbox) == Expected(p, t, h, th.pc))
  }

  ghost predicate Narrated(p: Policy, s: Sys) {
    && RoundsOk(s.hist.rounds)
    && (forall t | t in s.threads && Owns(s.threads[t]) ::
          Told(p, s.task, s.hist, s.threads[t]) && Undenied(s.hist, s.threads[t].pc))
    && (Resting(s) ==> Told(p, s.task, s.hist, At(Gone)))
    && (forall t | t in s.threads && !Owns(s.threads[t]) :: Tale(s.threads[t].outbox) == [])
  }

  lemma {:induction false} AheadFrame(t: Task, t': Task, h: History, h': History, pc: Pc)
    requires SameWork(t, t') && SameLogs(h, h')
    ensures Ahead(t', h', pc) == Ahead(t, h, pc)
  {
  }

  lemma {:induction false} ExpectedFrame(p: Policy, t: Task, t': Task, h: History, h': History, pc: Pc)
    requires RoundsOk(h.rounds) && SameWork(t, t') && SameLogs(h, h')
    ensures Expected(p, t', h', pc) == Expected(p, t, h, pc)
  {
    StoryFrame(p, h, h');
    AheadFrame(t, t', h, h', pc);
  }

  lemma {:induction false} Moved(events: seq<Event>, outbox: seq<Event>)
    requires outbox != []
    ensures Tale(events + [outbox[0]]) + Tale(outbox[1..]) == Tale(events) + Tale(outbox)
  {
    var e, rest := outbox[0], outbox[1..];
    assert outbox == [e] + rest;
    TaleConcat([e], rest);
    TaleConcat(events, [e]);
    assert Tale(events) + Tale([e]) + Tale(rest) == Tale(events) + (Tale([e]) + Tale(rest));
  }

  /** The owner emits: the event moves from its outbox to the log. */
  lemma {:induction false} EmitTold(p: Policy, t: Task, h: History, th: Thread)
    requires RoundsOk(h.rounds) && Told(p, t, h, th) && th.outbox != []
    ensures Told(p, Emit(t, th.outbox[0]), h, Thread(th.outbox[1..], th.pc))
  {
    ExpectedFrame(p, t, Emit(t, th.outbox[0]), h, h, th.pc);
    Moved(t.events, th.outbox);
  }

  /** A section of the owner that leaves the log alone. */
  lemma {:induction false} SectionTold(p: Policy, x: Local, x': Local)
    requires TellsOn(p, x, x') && x.thread.outbox == [] && Told(p, x.task, x.hist, x.thread)
    requires x'.task.events == x.task.events && x'.task.listed == x.task.listed
    ensures Told(p, x'.task, x'.hist, x'.thread)
    ensures !Owns(x'.thread) ==> Told(p, x'.task, x'.hist, At(Gone))
  {
    assert Tale([]) == [];
    assert Tale(x.task.events) + [] == Tale(x.task.events);
  }

  lemma {:induction false} OwnerNarrates(p: Policy, x: Local, input: Input)
    requires OwnerFacts(p, x) && Undenied(x.hist, x.thread.pc) && Ready(x, input) && Told(p, x.task, x.hist, x.thread)
    ensures var x' := Advance(p, x, input);
      && RoundsOk(x'.hist.rounds) && Told(p, x'.task, x'.hist, x'.thread)
      && (Owns(x'.thread) ==> Undenied(x'.hist, x'.thread.pc))
      && (!Owns(x'.thread) ==> Told(p, x'.task, x'.hist, At(Gone)) && Tale(x'.thread.outbox) == [])
  {
    if x.thread.outbox != [] {
      EmitTold(p, x.task, x.hist, x.thread);
    } else {
      OwnerTells(p, x, input);
      SectionQuiet(p, x, input);
      ListedStays(p, x, input);
      SectionTold(p, x, Advance(p, x, input));
    }
  }

  lemma {:induction false} ListedStays(p: Policy, x: Local, input: Input)
    requires Ready(x, input)
    ensures Advance(p, x, input).task.listed == x.task.listed
  {
  }

  lemma {:induction false} SilentOutbox(outbox: seq<Event>)
    requires outbox != [] && Tale(outbox) == []
    ensures !InStory(outbox[0]) && Tale(outbox[1..]) == []
  {
    assert outbox == [outbox[0]] + outbox[1..];
    TaleConcat([outbox[0]], outbox[1..]);
    TaleOne(outbox[0]);
  }

  /** Other threads add nothing to the story. */
  lemma {:induction false} BystanderNarrates(p: Policy, x: Local, input: Input)
    requires Ready(x, input) && !Owns(x.thread) && Tale(x.thread.outbox) == [] && Shaped(x.thread)
    ensures var x' := Advance(p, x, input);
      Tale(x'.task.events) == Tale(x.task.events) && Tale(x'.thread.outbox) == [] && x'.task.listed == x.task.listed
  {
    var x' := Advance(p, x, input);
    ListedStays(p, x, input);
    if x.thread.outbox != [] {
      SilentOutbox(x.thread.outbox);
      TaleConcat(x.task.events, [x.thread.outbox[0]]);
      TaleOne(x.thread.outbox[0]);
      assert Tale(x.task.events) + [] == Tale(x.task.events);
    } else {
      SectionQuiet(p, x, input);
      BystanderOutbox(p, x, input);
    }
  }

  lemma {:induction false} BystanderOutbox(p: Policy, x: Local, input: Input)
    requires Ready(x, input) && !Owns(x.thread) && x.thread.outbox == [] && Shaped(x.thread)
    ensures Tale(Advance(p, x, input).thread.outbox) == []
  {
    var outbox := Advance(p, x, input).thread.outbox;
    if outbox != [] {
      assert outbox == [outbox[0]] && TerminalEvent(outbox[0]);
      TaleOne(outbox[0]);
    }
  }

  lemma {:induction false} ToldFrame(p: Policy, t: Task, t': Task, h: History, h': History, th: Thread)
    requires RoundsOk(h.rounds) && SameWork(t, t') && SameLogs(h, h') && Told(p, t, h, th)
    requires Tale(t'.events) == Tale(t.events) && (t'.listed ==> t.listed)
    ensures Told(p, t', h', th)
  {
    ExpectedFrame(p, t, t', h, h', th.pc);
  }

  /** A step outside the story. */
  lemma {:induction false} NarratedFrame(p: Policy, s: Sys, s': Sys)
    requires Narrated(p, s) && SameWork(s.task, s'.task) && SameLogs(s.hist, s'.hist)
    requires Tale(s'.task.events) == Tale(s.task.events) && (s'.task.listed ==> s.task.listed)
    requires forall u | u in s'.threads && Owns(s'.threads[u]) :: u in s.threads && s.threads[u] == s'.threads[u]
    requires forall u | u in s.threads && Owns(s.threads[u]) :: u in s'.threads && s.threads[u] == s'.threads[u]
    requires forall u | u in s'.threads && !Owns(s'.threads[u]) :: Tale(s'.threads[u].outbox) == []
    ensures Narrated(p, s')
  {
    forall u | u in s'.threads && Owns(s'.threads[u]) ensures Told(p, s'.task, s'.hist, s'.threads[u]) {
      ToldFrame(p, s.task, s'.task, s.hist, s'.hist, s'.threads[u]);
    }
    if Resting(s') {
      assert Resting(s);
      ToldFrame(p, s.task, s'.task, s.hist, s'.hist, At(Gone));
    }
  }

  lemma {:induction false} OwnerNarrated(p: Policy, s: Sys, t: nat, input: Input)
    requires Inv(p, s) && Narrated(p, s) && Possible(s, Advances(t, input)) && Owns(s.threads[t])
    ensures Narrated(p, Apply(p, s, Advances(t, input)))
  {
    var x := Local(s.task, s.hist, s.threads[t]);
    var s' := Apply(p, s, Advances(t, input));
    OwnerNarrates(p, x, input);
    SoleNarrator(p, s, s', t);
  }

  /** After a step of the owner t only t can own. */
  lemma {:induction false} SoleNarrator(p: Policy, s: Sys, s': Sys, t: nat)
    requires OneOwner(s) && Narrated(p, s) && t in s.threads && Owns(s.threads[t])
    requires t in s'.threads && s'.threads == s.threads[t := s'.threads[t]] && RoundsOk(s'.hist.rounds)
    requires Told(p, s'.task, s'.hist, s'.threads[t])
    requires Owns(s'.threads[t]) ==> Undenied(s'.hist, s'.threads[t].pc)
    requires !Owns(s'.threads[t]) ==> Told(p, s'.task, s'.hist, At(Gone)) && Tale(s'.threads[t].outbox) == []
    ensures Narrated(p, s')
  {
    assert forall u | u in s'.threads && Owns(s'.threads[u]) :: u == t;
  }

  lemma {:induction false} BystanderNarrated(p: Policy, s: Sys, t: nat, input: Input)
    requires Inv(p, s) && Narrated(p, s) && Possible(s, Advances(t, input)) && !Owns(s.threads[t])
    ensures Narrated(p, Apply(p, s, Advances(t, input)))
  {
    var x := Local(s.task, s.hist, s.threads[t]);
    BystanderStep(p, x, input);
    BystanderNarrates(p, x, input);
    ThreadNarrated(p, s, t, Advance(p, x, input));
  }

  lemma {:induction false} ThreadNarrated(p: Policy, s: Sys, t: nat, x': Local)
    requires Narrated(p, s) && t in s.threads && !Owns(s.threads[t]) && !Owns(x'.thread)
    requires SameWork(s.task, x'.task) && SameLogs(s.hist, x'.hist) && Tale(x'.thread.outbox) == []
    requires Tale(x'.task.events) == Tale(s.task.events) && x'.task.listed == s.task.listed
    ensures Narrated(p, Sys(x'.task, x'.hist, s.threads[t := x'.thread]))
  {
    NarratedFrame(p, s, Sys(x'.task, x'.hist, s.threads[t := x'.thread]));
  }

  /** The log follows the story up to what is left to say. */
  ghost predicate Follows(tale: seq<Event>, listed: bool, left: seq<Event>, expected: seq<Event>) {
    tale <= expected && (listed ==> tale + left == expected)
  }

  lemma {:induction false} NextTold(tale: seq<Event>, story: seq<Event>, told: seq<Event>, ahead: seq<Event>, left: seq<Event>,
                                    listed: bool)
    requires Follows(tale, listed, [], story) && left == told + ahead
    ensures Follows(tale, listed, left, story + told + ahead)
  {
    assert tale + [] == tale;
    assert (story + told) + ahead == story + (told + ahead);
  }

  lemma {:induction false} ToldIs(p: Policy, t: Task, h: History, th: Thread, expected: seq<Event>)
    requires RoundsOk(h.rounds) && expected == Expected(p, t, h, th.pc)
    ensures Told(p, t, h, th) <==> Follows(Tale(t.events), t.listed, Tale(th.outbox), expected)
  {
  }

  lemma {:induction false} ExpectedIdle(p: Policy, t: Task, h: History)
    requires RoundsOk(h.rounds) && t.steps == |h.rounds|
    ensures Expected(p, t, h, Gone) == Story(p, h)
  {
    WithNothing(Story(p, h));
  }

  /** The story goes on while nobody owned the task: a thread has what is new, and what is ahead, in its outbox. */
  lemma {:induction false} ToldNext(p: Policy, t: Task, h: History, t': Task, h': History, th: Thread, told: seq<Event>)
    requires RoundsOk(h.rounds) && RoundsOk(h'.rounds) && Told(p, t, h, At(Gone)) && t.steps == |h.rounds|
    requires t'.events == t.events && t'.listed == t.listed && Story(p, h') == Story(p, h) + told
    requires Tale(th.outbox) == told + Ahead(t', h', th.pc)
    ensures Told(p, t', h', th)
  {
    var story := Story(p, h);
    ExpectedIdle(p, t, h);
    assert Tale([]) == [];
    ToldIs(p, t, h, At(Gone), story);
    NextTold(Tale(t.events), story, told, Ahead(t', h', th.pc), Tale(th.outbox), t.listed);
    ToldIs(p, t', h', th, Expected(p, t', h', th.pc));
  }

  lemma {:induction false} ApprovalOutbox(t: Task, h: History, c: PendingCommand, actor: string)
    ensures var th := DecideThread(Approved(c), actor);
      Tale(th.outbox) == [ApprovalDecided(c.callId, true, actor)] + Ahead(t, h, th.pc)
  {
    TaleTwo(ApprovalDecided(c.callId, true, actor), ToolStarted(c.callId));
  }

  /** The decision is told, and what follows it is ahead. */
  lemma {:induction false} ApprovalTold(p: Policy, t: Task, h: History, t': Task, h': History, c: PendingCommand, th: Thread)
    requires RoundsOk(h.rounds) && Unanswered(h) != [] && DecidedBelow(h, false) && ExecutedBelow(h, false)
    requires t.steps == |h.rounds| && Told(p, t, h, At(Gone))
    requires t' == AfterVerdict(t, Approved(c)) && h' == RecordDecision(h, c.callId, p.creator, true)
    requires th == DecideThread(Approved(c), p.creator)
    ensures RoundsOk(h'.rounds) && Told(p, t', h', th) && Undenied(h', th.pc)
  {
    DecisionTold(p, h, c.callId, p.creator, true);
    ApprovalOutbox(t', h', c, p.creator);
    ToldNext(p, t, h, t', h', th, [ApprovalDecided(c.callId, true, p.creator)]);
    assert Cursor(h') == Cursor(h);
  }

  lemma {:induction false} DenialOutbox(t: Task, h: History, c: PendingCommand, actor: string)
    requires t.steps == |h.rounds|
    ensures var th := DecideThread(Denied(c), actor);
      Tale(th.outbox) == [ApprovalDecided(c.callId, false, actor)] + Ahead(t, h, th.pc)
  {
    TaleOne(ApprovalDecided(c.callId, false, actor));
  }

  lemma {:induction false} DenialLogs(p: Policy, t: Task, h: History, h1: History, c: PendingCommand)
    requires IsTranscript(p, t.messages, h.rounds) && Unanswered(h) != [] && DecidedBelow(h, false) && ExecutedBelow(h, false)
    requires LogsOk(p, h) && Concerns(h, c) && h1 == RecordDecision(h, c.callId, p.creator, false)
    ensures DecidedBelow(h1, true) && ExecutedBelow(h1, true) && Unanswered(h1) == Unanswered(h) && Cursor(h1) == Cursor(h)
    ensures RoundsOk(RecordResult(h1, DENIAL).rounds) && |RecordResult(h1, DENIAL).rounds| == |h.rounds|
  {
    DecidedLogs(p, h, c.callId, false);
    AnsweredCall(p, t, h1, DENIAL);
  }

  /** A denial is told with the decision; its result is not. */
  lemma {:induction false} DenialStory(p: Policy, t: Task, h: History, h1: History, h': History, c: PendingCommand)
    requires IsTranscript(p, t.messages, h.rounds) && Unanswered(h) != [] && DecidedBelow(h, false) && ExecutedBelow(h, false)
    requires LogsOk(p, h) && Concerns(h, c)
    requires h1 == RecordDecision(h, c.callId, p.creator, false) && h' == RecordResult(h1, DENIAL)
    ensures RoundsOk(h'.rounds) && |h'.rounds| == |h.rounds|
    ensures Story(p, h') == Story(p, h) + [ApprovalDecided(c.callId, false, p.creator)]
  {
    DenialLogs(p, t, h, h1, c);
    DecisionTold(p, h, c.callId, p.creator, false);
    ResultTold(p, h1, DENIAL);
    assert Story(p, h1) + [] == Story(p, h1);
  }

  lemma {:induction false} DenialTold(p: Policy, t: Task, h: History, t': Task, h': History, c: PendingCommand, th: Thread)
    requires IsTranscript(p, t.messages, h.rounds) && Unanswered(h) != [] && DecidedBelow(h, false) && ExecutedBelow(h, false)
    requires LogsOk(p, h) && Concerns(h, c) && t.steps == |h.rounds| && Told(p, t, h, At(Gone))
    requires t' == AfterVerdict(t, Denied(c)) && h' == RecordVerdict(h, Denied(c), p.creator)
    requires th == DecideThread(Denied(c), p.creator)
    ensures RoundsOk(h'.rounds) && Told(p, t', h', th) && Undenied(h', th.pc)
  {
    DenialStory(p, t, h, RecordDecision(h, c.callId, p.creator, false), h', c);
    DenialOutbox(t', h', c, p.creator);
    ToldNext(p, t, h, t', h', th, [ApprovalDecided(c.callId, false, p.creator)]);
  }

  predicate Concerns(h: History, c: PendingCommand)
    requires RoundsOk(h.rounds) && Unanswered(h) != []
  {
    c.callId == Unanswered(h)[0].id
  }

  lemma {:induction false} DecidedNarrated(p: Policy, s: Sys, t: nat, v: Verdict)
    requires Narrated(p, s) && Sound(p, s.task, s.hist) && s.task.pending.Some? && Parked(p, s.task, s.hist) && Resting(s)
    requires v == Approved(s.task.pending.value) || v == Denied(s.task.pending.value)
    ensures Narrated(p, Decided(s, t, v, p.creator))
  {
    var s' := Decided(s, t, v, p.creator);
    if v.Approved? {
      ApprovalTold(p, s.task, s.hist, s'.task, s'.hist, v.pending, s'.threads[t]);
    } else {
      DenialTold(p, s.task, s.hist, s'.task, s'.hist, v.pending, s'.threads[t]);
    }
    OnlyNarrator(p, s', t);
  }

  lemma {:induction false} DecideNarrated(p: Policy, s: Sys, a: Action)
    requires Inv(p, s) && Narrated(p, s) && a.Decides? && Possible(s, a)
    ensures Narrated(p, Apply(p, s, a))
  {
    var v := Judge(p, s.task, a.actor, a.admin, a.callId, a.approve);
    if Accepted(v) {
      AcceptedVerdict(p, s.task, s.hist, a.actor, a.admin, a.callId, a.approve);
      DecidedNarrated(p, s, a.tid, v);
    }
  }

  lemma {:induction false} ToldAt(p: Policy, t: Task, h: History, from: Pc, to: Pc)
    requires RoundsOk(h.rounds) && Told(p, t, h, At(from)) && Ahead(t, h, to) == Ahead(t, h, from)
    ensures Told(p, t, h, At(to))
  {
  }

  /** A successor stands where its starter stood in the story. */
  lemma {:induction false} SameStand(t: Task, h: History, a: Action)
    requires a.Spawns? || a.HandsOff?
    ensures Ahead(t, h, Successor(a)) == Ahead(t, h, Starter(a)) && Undenied(h, Successor(a))
  {
  }

  function Starter(a: Action): Pc { if a.Spawns? then Spawning else HandOff }

  function Successor(a: Action): Pc { if a.Spawns? then LoopTop else Resuming }

  function SuccessorId(a: Action): nat
    requires a.Spawns? || a.HandsOff?
  {
    if a.Spawns? then a.runner else a.resumer
  }

  lemma {:induction false} StartNarrated(p: Policy, s: Sys, a: Action)
    requires Narrated(p, s) && Possible(s, a) && (a.Spawns? || a.HandsOff?) && OneOwner(s)
    ensures Narrated(p, Apply(p, s, a))
  {
    StartsAlone(p, s, a);
    SameStand(s.task, s.hist, a);
    StartedNarrated(p, s, Apply(p, s, a), a.tid, SuccessorId(a), Starter(a), Successor(a));
  }

  /** Of the threads after a start only the successor owns, and every new one has an empty outbox. */
  lemma {:induction false} StartsAlone(p: Policy, s: Sys, a: Action)
    requires OneOwner(s) && Possible(s, a) && (a.Spawns? || a.HandsOff?)
    ensures var s', r := Apply(p, s, a), SuccessorId(a);
      && s'.task == s.task && s'.hist == s.hist && r in s'.threads && s'.threads[r] == At(Successor(a))
      && a.tid in s.threads && s.threads[a.tid] == At(Starter(a))
      && Owns(At(Starter(a))) && Owns(At(Successor(a)))
      && forall u | u in s'.threads && u != r ::
           !Owns(s'.threads[u]) && (s'.threads[u].outbox == [] || (u in s.threads && s'.threads[u] == s.threads[u]))
  {
    assert Owns(s.threads[a.tid]);
  }

  /** One owner, and what is told of it, is all there is to say. */
  lemma {:induction false} OnlyNarrator(p: Policy, s: Sys, r: nat)
    requires RoundsOk(s.hist.rounds) && r in s.threads && Owns(s.threads[r])
    requires Told(p, s.task, s.hist, s.threads[r]) && Undenied(s.hist, s.threads[r].pc)
    requires forall u | u in s.threads && u != r :: !Owns(s.threads[u]) && Tale(s.threads[u].outbox) == []
    ensures Narrated(p, s)
  {
  }

  lemma {:induction false} OthersSilent(p: Policy, s: Sys, s': Sys, r: nat)
    requires Narrated(p, s)
    requires forall u | u in s'.threads && u != r ::
      !Owns(s'.threads[u]) && (s'.threads[u].outbox == [] || (u in s.threads && s'.threads[u] == s.threads[u]))
    ensures forall u | u in s'.threads && u != r :: !Owns(s'.threads[u]) && Tale(s'.threads[u].outbox) == []
  {
    assert Tale([]) == [];
  }

  lemma {:induction false} StartedNarrated(p: Policy, s: Sys, s': Sys, t: nat, r: nat, from: Pc, to: Pc)
    requires Narrated(p, s) && t in s.threads && s.threads[t] == At(from) && Owns(s.threads[t])
    requires s'.task == s.task && s'.hist == s.hist && r in s'.threads && s'.threads[r] == At(to) && Owns(At(to))
    requires Ahead(s.task, s.hist, to) == Ahead(s.task, s.hist, from) && Undenied(s.hist, to)
    requires forall u | u in s'.threads && u != r ::
      !Owns(s'.threads[u]) && (s'.threads[u].outbox == [] || (u in s.threads && s'.threads[u] == s.threads[u]))
    ensures Narrated(p, s')
  {
    OthersSilent(p, s, s', r);
    OwnerTold(p, s, t);
    ToldAt(p, s.task, s.hist, from, to);
    OnlyNarrator(p, s', r);
  }

  lemma {:induction false} OwnerTold(p: Policy, s: Sys, t: nat)
    requires Narrated(p, s) && t in s.threads && Owns(s.threads[t])
    ensures Told(p, s.task, s.hist, s.threads[t])
  {
  }

  lemma {:induction false} NarratedKept(p: Policy, s: Sys, a: Action)
    requires Inv(p, s) && Narrated(p, s) && Possible(s, a)
    ensures Narrated(p, Apply(p, s, a))
  {
    match a
    case Advances(t, input) =>
      if Owns(s.threads[t]) {
        OwnerNarrated(p, s, t, input);
      } else {
        BystanderNarrated(p, s, t, input);
      }
    case Decides(_, _, _, _, _) => DecideNarrated(p, s, a);
    case Spawns(_, _, _) => StartNarrated(p, s, a);
    case HandsOff(_, _) => StartNarrated(p, s, a);
    case _ => ContextNarrated(p, s, a);
  }

  lemma {:induction false} ContextNarrated(p: Policy, s: Sys, a: Action)
    requires Narrated(p, s) && (a.DeadlinePasses? || a.Cancels? || a.Reaps?)
    ensures Narrated(p, Apply(p, s, a))
  {
    NarratedFrame(p, s, Apply(p, s, a));
  }

  lemma {:induction false} FirstStory(p: Policy, t: Task, h: History)
    requires h.rounds == [] && t.steps == 0
    ensures Expected(p, t, h, Spawning) == [TaskStarted]
  {
    var nothing: seq<Event> := [];
    assert OpenPart(h) == nothing && Ahead(t, h, Spawning) == nothing;
    StoryIs(p, h, nothing, nothing);
  }

  lemma {:induction false} InitialNarrated(p: Policy)
    ensures Narrated(p, Initial(p))
  {
    var s, th := Initial(p), Thread([TaskStarted], Spawning);
    TaleOne(TaskStarted);
    FirstStory(p, s.task, s.hist);
    assert Tale([]) == [];
    ToldIs(p, s.task, s.hist, th, [TaskStarted]);
    OnlyNarrator(p, s, 0);
  }

  lemma {:induction false} NextNarrated(p: Policy, states: seq<Sys>, actions: seq<Action>, k: nat)
    requires IsRun(p, states, actions) && k < |actions| && Narrated(p, states[k])
    ensures Narrated(p, states[k + 1])
  {
    RunInv(p, states, actions, k);
    NarratedKept(p, states[k], actions[k]);
  }

  lemma {:induction false} RunNarrated(p: Policy, states: seq<Sys>, actions: seq<Action>, i: nat)
    requires IsRun(p, states, actions) && i < |states|
    ensures Narrated(p, states[i])
  {
    if i == 0 {
      InitialNarrated(p);
    } else {
      RunNarrated(p, states, actions, i - 1);
      NextNarrated(p, states, actions, i - 1);
    }
  }

  /**
   The log tells the history. Without the ends and the requests for approval it is always a front part of what
   the rounds, decisions and executions and the place of the owner call for, in that order; while the task is
   listed, only what the owner's outbox still holds is missing.
   */
  lemma LogTellsHistory(p: Policy, s: Sys)
    requires Reachable(p, s)
    ensures RoundsOk(s.hist.rounds)
    ensures forall t | t in s.threads && Owns(s.threads[t]) :: Told(p, s.task, s.hist, s.threads[t])
    ensures Resting(s) ==> Told(p, s.task, s.hist, At(Gone))
  {
    var states, actions :| IsRun(p, states, actions) && s == states[|states| - 1];
    RunNarrated(p, states, actions, |states| - 1);
  }
}
