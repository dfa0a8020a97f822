/**
 The protocol with its pauses and hand-offs gives what the sequential interpreter gives. Settle is the
 interpreter state a thread is committed to: once a call's outcome is determined it counts as answered.
 */
module OpsRefinement {
  import opened Basics
  import opened OpsTask
  import opened OpsProtocol
  import opened OpsTranscript
  import opened OpsInvariant
  import opened OpsSafety
  import opened OpsEndings
  import opened OpsRuns
  import opened OpsSequential

  /** What the shared record and the history alone say. */
  function Base(t: Task, h: History): State
    requires RoundsOk(h.rounds)
  {
    State(t.messages, t.loadedSkills, t.steps, h.executions, |h.rounds|,
          if h.rounds == [] then 0 else |h.rounds[|h.rounds| - 1].results|, Unanswered(h), h.ending)
  }

  function Settle(p: Policy, o: Oracles, t: Task, h: History, pc: Pc): State
    requires RoundsOk(h.rounds)
  {
    var q := Base(t, h);
    match pc
    case Asking(transcript) => TakeReply(p, q, o.model(t.steps, transcript))
    case Replied(content, calls) => TakeReply(p, q, Completion(content, calls))
    case Loading(call, _, skill) =>
      GiveAnswer(q.(loadedSkills := q.loadedSkills + {skill.name}), call.id, SkillLoaded(skill.name, skill.text))
    case Executing(call, _, r) => RunShell(o, q, call.id, r, false)
    case InShell(call, _, r) => GiveAnswer(q, call.id, ShellOutput(o.shell(Cursor(h), r)))
    case Answering(call, _, result) => GiveAnswer(q, call.id, result)
    case Completing(answer) => q.(ending := Some(EndingOf(p, pc)))
    case Failing(message) => q.(ending := Some(EndingOf(p, pc)))
    case ExecutingApproved(id, r) => RunShell(o, q, id, r, true)
    case InApprovedShell(id, r) => GiveAnswer(q, id, ShellOutput(o.shell(Cursor(h), r)))
    case Recording(id, result) => GiveAnswer(q, id, result)
    case _ => q
  }

  /** The input is what the oracles say. */
  predicate Told(o: Oracles, x: Local, input: Input) {
    match x.thread.pc
    case Asking(transcript) => input.ModelReplies? ==> input.reply == o.model(x.task.steps, transcript)
    case InShell(_, _, r) => input.ShellReturns? ==> input.text == o.shell(Cursor(x.hist), r)
    case InApprovedShell(_, r) => input.ShellReturns? ==> input.text == o.shell(Cursor(x.hist), r)
    case _ => true
  }

  /** The protocol state moves as the interpreter does: not at all, or by one turn. */
  ghost predicate Follows(p: Policy, o: Oracles, q: State, q': State) {
    q' == q || (q.ending.None? && q' == Turn(p, o, q))
  }

  ghost predicate Open(x: Local) {
    x.hist.ending.None? && x.task.status == Running
  }

  /** The step does not show in the interpreter. */
  ghost predicate Stutters(p: Policy, o: Oracles, x: Local, input: Input)
    requires Ready(x, input) && RoundsOk(x.hist.rounds)
  {
    var x' := Advance(p, x, input);
    && RoundsOk(x'.hist.rounds)
    && Settle(p, o, x'.task, x'.hist, x'.thread.pc) == Settle(p, o, x.task, x.hist, x.thread.pc)
  }

  ghost predicate StepsInTurn(p: Policy, o: Oracles, x: Local, input: Input)
    requires Ready(x, input) && RoundsOk(x.hist.rounds)
  {
    var x' := Advance(p, x, input);
    && RoundsOk(x'.hist.rounds)
    && Follows(p, o, Settle(p, o, x.task, x.hist, x.thread.pc), Settle(p, o, x'.task, x'.hist, x'.thread.pc))
  }

  lemma AnswerBase(p: Policy, t: Task, h: History, callId: string, result: ToolResult)
    requires IsTranscript(p, t.messages, h.rounds) && Unanswered(h) != []
    ensures RoundsOk(RecordResult(h, result).rounds)
    ensures Base(Append(t, Tool(callId, result)), RecordResult(h, result)) == GiveAnswer(Base(t, h), callId, result)
  {
    AnsweredCall(p, t, h, result);
  }

  lemma FollowsReplied(p: Policy, o: Oracles, x: Local)
    requires OwnerFacts(p, x) && Open(x) && x.thread.outbox == [] && x.thread.pc.Replied?
    ensures Stutters(p, o, x, NoInput)
  {
    NewRound(p, x.task, x.hist, x.thread.pc.content, x.thread.pc.calls);
  }

  lemma FollowsAnswer(p: Policy, o: Oracles, x: Local)
    requires OwnerFacts(p, x) && Open(x) && x.thread.outbox == [] && (x.thread.pc.Answering? || x.thread.pc.Recording?)
    ensures Stutters(p, o, x, NoInput)
  {
    var id := if x.thread.pc.Answering? then x.thread.pc.call.id else x.thread.pc.callId;
    AnswerBase(p, x.task, x.hist, id, x.thread.pc.result);
  }

  lemma FollowsLoopTop(p: Policy, o: Oracles, x: Local)
    requires OwnerFacts(p, x) && Open(x) && x.thread.outbox == [] && x.thread.pc.LoopTop?
    ensures StepsInTurn(p, o, x, NoInput)
  {
    NothingUnanswered(x.hist);
  }

  lemma FollowsShellRequest(p: Policy, o: Oracles, x: Local)
    requires OwnerFacts(p, x) && Open(x) && x.thread.outbox == [] && x.thread.pc.Dispatching?
    requires x.thread.pc.call.name == "shell_exec"
    ensures StepsInTurn(p, o, x, NoInput)
  {
    assert Unanswered(x.hist)[0] == x.thread.pc.call;
  }

  lemma FollowsOtherTool(p: Policy, o: Oracles, x: Local)
    requires OwnerFacts(p, x) && Open(x) && x.thread.outbox == [] && x.thread.pc.Dispatching?
    requires x.thread.pc.call.name != "shell_exec"
    ensures StepsInTurn(p, o, x, NoInput)
  {
    assert Unanswered(x.hist)[0] == x.thread.pc.call;
  }

  lemma FollowsDispatch(p: Policy, o: Oracles, x: Local)
    requires OwnerFacts(p, x) && Open(x) && x.thread.outbox == [] && x.thread.pc.Dispatching?
    ensures StepsInTurn(p, o, x, NoInput)
  {
    if x.thread.pc.call.name == "shell_exec" {
      FollowsShellRequest(p, o, x);
    } else {
      FollowsOtherTool(p, o, x);
    }
  }

  lemma FollowsCheck(p: Policy, o: Oracles, x: Local)
    requires OwnerFacts(p, x) && Open(x) && x.thread.outbox == [] && x.thread.pc.Checking?
    ensures StepsInTurn(p, o, x, NoInput)
  {
    assert Unanswered(x.hist)[0] == x.thread.pc.call;
  }

  lemma ExecutedBase(t: Task, h: History, r: ShellRequest, approved: bool)
    requires RoundsOk(h.rounds)
    ensures var q, h' := Base(t, h), RecordExecution(h, r, approved);
      && Cursor(h') == Cursor(h) == Place(q)
      && Base(t, h') == q.(executions := q.executions + [Execution(Place(q), r, approved)])
  {
  }

  lemma FollowsExecution(p: Policy, o: Oracles, x: Local)
    requires OwnerFacts(p, x) && Open(x)
    requires x.thread.outbox == [] && (x.thread.pc.Executing? || x.thread.pc.ExecutingApproved?)
    ensures Stutters(p, o, x, NoInput)
  {
    var pc := x.thread.pc;
    ExecutedBase(x.task, x.hist, pc.request, pc.ExecutingApproved?);
  }

  lemma FollowsShell(p: Policy, o: Oracles, x: Local, input: Input)
    requires OwnerFacts(p, x) && Open(x) && Ready(x, input) && Told(o, x, input)
    requires x.thread.outbox == [] && (x.thread.pc.InShell? || x.thread.pc.InApprovedShell?)
    ensures Stutters(p, o, x, input)
  {
  }

  lemma FollowsModel(p: Policy, o: Oracles, x: Local, input: Input)
    requires OwnerFacts(p, x) && Open(x) && Ready(x, input) && Told(o, x, input)
    requires x.thread.outbox == [] && x.thread.pc.Asking?
    ensures Stutters(p, o, x, input)
  {
  }

  lemma FollowsCalls(p: Policy, o: Oracles, x: Local)
    requires OwnerFacts(p, x) && Open(x)
    requires x.thread.outbox == [] && (x.thread.pc.Calls? || x.thread.pc.Resuming?)
    ensures Stutters(p, o, x, NoInput)
  {
  }

  lemma FollowsSkill(p: Policy, o: Oracles, x: Local)
    requires OwnerFacts(p, x) && Open(x) && x.thread.outbox == [] && x.thread.pc.Loading?
    ensures Stutters(p, o, x, NoInput)
  {
    var t', name := Advance(p, x, NoInput).task, x.thread.pc.skill.name;
    assert Base(t', x.hist) == Base(x.task, x.hist).(loadedSkills := x.task.loadedSkills + {name});
  }

  lemma FollowsParking(p: Policy, o: Oracles, x: Local)
    requires OwnerFacts(p, x) && Open(x) && x.thread.outbox == [] && x.thread.pc.Parking?
    ensures Stutters(p, o, x, NoInput)
  {
    assert Base(Advance(p, x, NoInput).task, x.hist) == Base(x.task, x.hist);
  }

  lemma FollowsEnding(p: Policy, o: Oracles, x: Local)
    requires OwnerFacts(p, x) && Open(x)
    requires x.thread.outbox == [] && (x.thread.pc.Completing? || x.thread.pc.Failing?)
    ensures Stutters(p, o, x, NoInput)
  {
  }

  lemma FollowsEmit(p: Policy, o: Oracles, x: Local)
    requires OwnerFacts(p, x) && Open(x)
    requires x.thread.outbox != []
    ensures Stutters(p, o, x, NoInput)
  {
    var x' := Advance(p, x, NoInput);
    assert Base(x'.task, x'.hist) == Base(x.task, x.hist);
  }

  /** The sections that work on one call. */
  lemma CallFollows(p: Policy, o: Oracles, x: Local, input: Input)
    requires OwnerFacts(p, x) && Open(x) && Ready(x, input) && Told(o, x, input) && x.thread.outbox == []
    requires var pc := x.thread.pc;
      || pc.Dispatching? || pc.Checking? || pc.Loading? || pc.Parking? || pc.Executing? || pc.InShell?
      || pc.ExecutingApproved? || pc.InApprovedShell? || pc.Answering? || pc.Recording?
    ensures StepsInTurn(p, o, x, input)
  {
    var pc := x.thread.pc;
    if pc.Dispatching? {
      FollowsDispatch(p, o, x);
    } else if pc.Checking? {
      FollowsCheck(p, o, x);
    } else if pc.Loading? {
      FollowsSkill(p, o, x);
    } else if pc.Parking? {
      FollowsParking(p, o, x);
    } else if pc.Executing? || pc.ExecutingApproved? {
      FollowsExecution(p, o, x);
    } else if pc.InShell? || pc.InApprovedShell? {
      FollowsShell(p, o, x, input);
    } else {
      FollowsAnswer(p, o, x);
    }
  }

  lemma OwnerFollows(p: Policy, o: Oracles, x: Local, input: Input)
    requires OwnerFacts(p, x) && Open(x) && Ready(x, input) && Told(o, x, input)
    ensures StepsInTurn(p, o, x, input)
  {
    var pc := x.thread.pc;
    if x.thread.outbox != [] {
      FollowsEmit(p, o, x);
    } else if pc.LoopTop? {
      FollowsLoopTop(p, o, x);
    } else if pc.Asking? {
      FollowsModel(p, o, x, input);
    } else if pc.Replied? {
      FollowsReplied(p, o, x);
    } else if pc.Calls? || pc.Resuming? {
      FollowsCalls(p, o, x);
    } else if pc.Completing? || pc.Failing? {
      FollowsEnding(p, o, x);
    } else {
      CallFollows(p, o, x, input);
    }
  }

  /** The interpreter's next turn for a parked command is to ask about it. */
  lemma ParkedTurn(p: Policy, o: Oracles, t: Task, h: History)
    requires Sound(p, t, h) && t.pending.Some? && Parked(p, t, h) && h.ending.None?
    ensures var q, c := Base(t, h), t.pending.value;
      Turn(p, o, q) ==
        if o.decide(Cursor(h)) then RunShell(o, q, c.callId, RequestOf(c), true) else GiveAnswer(q, c.callId, DENIAL)
  {
    assert Place(Base(t, h)) == Cursor(h);
    assert Turn(p, o, Base(t, h)) == AnswerShell(p, o, Base(t, h), Unanswered(h)[0], RequestOf(t.pending.value));
  }

  lemma DenialFollows(p: Policy, o: Oracles, t: Task, h: History, c: PendingCommand, actor: string)
    requires IsTranscript(p, t.messages, h.rounds) && Unanswered(h) != []
    ensures var v := Denied(c);
      && RoundsOk(RecordVerdict(h, v, actor).rounds)
      && Settle(p, o, AfterVerdict(t, v), RecordVerdict(h, v, actor), HandOff) == GiveAnswer(Base(t, h), c.callId, DENIAL)
  {
    AnswerBase(p, t, RecordDecision(h, c.callId, actor, false), c.callId, DENIAL);
  }

  lemma ApprovalFollows(p: Policy, o: Oracles, t: Task, h: History, c: PendingCommand, actor: string)
    requires RoundsOk(h.rounds)
    ensures var v := Approved(c);
      && RoundsOk(RecordVerdict(h, v, actor).rounds)
      && Settle(p, o, AfterVerdict(t, v), RecordVerdict(h, v, actor), DecideThread(v, actor).pc)
         == RunShell(o, Base(t, h), c.callId, RequestOf(c), true)
  {
    var h' := RecordVerdict(h, Approved(c), actor);
    assert h'.rounds == h.rounds && Base(AfterVerdict(t, Approved(c)), h') == Base(t, h);
  }

  /** An accepted decision is one turn of the interpreter: the question asked and answered on the spot. */
  lemma DecisionFollows(p: Policy, o: Oracles, t: Task, h: History, v: Verdict, actor: string)
    requires Sound(p, t, h) && t.pending.Some? && Parked(p, t, h) && h.ending.None?
    requires v == if o.decide(Cursor(h)) then Approved(t.pending.value) else Denied(t.pending.value)
    ensures RoundsOk(RecordVerdict(h, v, actor).rounds)
    ensures Settle(p, o, AfterVerdict(t, v), RecordVerdict(h, v, actor), DecideThread(v, actor).pc) == Turn(p, o, Base(t, h))
  {
    ParkedTurn(p, o, t, h);
    if v.Denied? {
      DenialFollows(p, o, t, h, v.pending, actor);
    } else {
      ApprovalFollows(p, o, t, h, v.pending, actor);
    }
  }

  // ----- Whole runs -----

  /** The one thread that moves the task, if any. */
  ghost function OwnerPc(s: Sys): Pc {
    if t :| t in s.threads && Owns(s.threads[t]) then s.threads[t].pc else Gone
  }

  lemma OwnerPcIs(s: Sys, t: nat)
    requires OneOwner(s) && t in s.threads && Owns(s.threads[t])
    ensures OwnerPc(s) == s.threads[t].pc
  {
  }

  function Erased(h: History): History { h.(ending := None) }

  /** What the task is committed to, leaving the recorded ending aside: a deadline may have written it early. */
  ghost function Commitment(p: Policy, o: Oracles, s: Sys): State
    requires RoundsOk(s.hist.rounds)
  {
    Settle(p, o, s.task, Erased(s.hist), OwnerPc(s))
  }

  /** Every external answer and accepted decision is the oracles'; deadline, cancellation and reaper are free. */
  ghost predicate Prompted(p: Policy, o: Oracles, s: Sys, a: Action) {
    match a
    case Advances(t, input) => t in s.threads ==> Told(o, Local(s.task, s.hist, s.threads[t]), input)
    case Decides(_, actor, admin, callId, approve) =>
      Accepted(Judge(p, s.task, actor, admin, callId, approve)) ==> approve == o.decide(Cursor(s.hist))
    case _ => true
  }

  /** The task still stands at q, and only a deadline can have ended it. */
  ghost predicate StandsAt(p: Policy, o: Oracles, s: Sys, q: State)
    requires RoundsOk(s.hist.rounds)
  {
    Commitment(p, o, s) == q && (s.hist.ending.None? || s.task.ctx == Expired)
  }

  /** The task has run out at q, which ends the interpreter; q's ending is recorded unless a deadline came first. */
  ghost predicate RanOutAt(p: Policy, o: Oracles, s: Sys, q: State)
    requires RoundsOk(s.hist.rounds)
  {
    && Resting(s) && s.task.pending.None?
    && q.ending.Some? && Commitment(p, o, s) == q.(ending := None)
    && (s.hist.ending == q.ending || s.task.ctx == Expired)
  }

  ghost predicate InStep(p: Policy, o: Oracles, s: Sys, q: State) {
    RoundsOk(s.hist.rounds) && (StandsAt(p, o, s, q) || RanOutAt(p, o, s, q))
  }

  // ----- Steps of the owner -----

  function Undisturbed(x: Local): Local {
    Local(x.task.(status := Running), Erased(x.hist), x.thread)
  }

  /** The section looks at the status and finds that the task was ended under it. */
  predicate FindsEnd(x: Local) {
    x.thread.outbox == [] && x.thread.pc.Resuming? && x.task.status != Running
  }

  predicate Finishes(x: Local) {
    x.thread.outbox == [] && (x.thread.pc.Completing? || x.thread.pc.Failing?)
  }

  /** No other section of the owner reads the status or the ending. */
  lemma UndisturbedStep(p: Policy, x: Local, input: Input)
    requires Ready(x, input) && Owns(x.thread) && !FindsEnd(x) && !Finishes(x)
    ensures var x', y' := Advance(p, x, input), Advance(p, Undisturbed(x), input);
      && y'.thread == x'.thread && y'.hist == Erased(x'.hist)
      && y'.task == x'.task.(status := y'.task.status)
      && x'.hist.ending == x.hist.ending && x'.task.ctx == x.task.ctx
  {
  }

  lemma UndisturbedFacts(p: Policy, x: Local)
    requires OwnerFacts(p, x)
    ensures OwnerFacts(p, Undisturbed(x)) && Open(Undisturbed(x))
  {
    var y := Undisturbed(x);
    SoundFrame(p, x.task, y.task, x.hist, y.hist);
    HoldsFrame(p, x.task, y.task, x.hist, y.hist, x.thread.pc);
  }

  lemma SettleFrame(p: Policy, o: Oracles, t: Task, t': Task, h: History, pc: Pc)
    requires RoundsOk(h.rounds) && Base(t, h) == Base(t', h)
    ensures Settle(p, o, t, h, pc) == Settle(p, o, t', h, pc)
  {
  }

  lemma GoneSettle(p: Policy, o: Oracles, t: Task, h: History, pc: Pc)
    requires RoundsOk(h.rounds) && !Owns(At(pc))
    ensures Settle(p, o, t, h, pc) == Settle(p, o, t, h, Gone)
  {
  }

  /** A plain step of the owner, seen by its own view of the task. */
  lemma OwnerTurns(p: Policy, o: Oracles, x: Local, input: Input)
    requires OwnerFacts(p, x) && Ready(x, input) && Told(o, x, input) && !FindsEnd(x) && !Finishes(x)
    ensures var x' := Advance(p, x, input);
      && RoundsOk(x'.hist.rounds)
      && Follows(p, o, Settle(p, o, x.task, Erased(x.hist), x.thread.pc), Settle(p, o, x'.task, Erased(x'.hist), x'.thread.pc))
  {
    var y := Undisturbed(x);
    var x', y' := Advance(p, x, input), Advance(p, y, input);
    UndisturbedFacts(p, x);
    UndisturbedStep(p, x, input);
    OwnerFollows(p, o, y, input);
    SettleFrame(p, o, x.task, y.task, y.hist, x.thread.pc);
    SettleFrame(p, o, x'.task, y'.task, y'.hist, x'.thread.pc);
  }

  /** The state after a step of the owner t: its own standing, or rest. */
  lemma OwnerCommitment(p: Policy, o: Oracles, s: Sys, s': Sys, t: nat)
    requires OneOwner(s) && OneOwner(s') && t in s.threads && Owns(s.threads[t])
    requires t in s'.threads && s'.threads == s.threads[t := s'.threads[t]]
    requires RoundsOk(s.hist.rounds) && RoundsOk(s'.hist.rounds)
    ensures Commitment(p, o, s) == Settle(p, o, s.task, Erased(s.hist), s.threads[t].pc)
    ensures Commitment(p, o, s') == Settle(p, o, s'.task, Erased(s'.hist), s'.threads[t].pc)
    ensures !Owns(s'.threads[t]) ==> Resting(s')
  {
    OwnerPcIs(s, t);
    if Owns(s'.threads[t]) {
      OwnerPcIs(s', t);
    } else {
      assert Resting(s');
      GoneSettle(p, o, s'.task, Erased(s'.hist), s'.threads[t].pc);
    }
  }

  /** Writing the ending, or finding it written, takes the task from standing at q to having run out there. */
  lemma FinishRunsOut(p: Policy, o: Oracles, x: Local)
    requires OwnerFacts(p, x) && Finishes(x) && (Terminal(x.task.status) ==> x.task.ctx == Expired)
    ensures var x' := Advance(p, x, NoInput);
      var q := Settle(p, o, x.task, Erased(x.hist), x.thread.pc);
      && RoundsOk(x'.hist.rounds) && !Owns(x'.thread) && x'.task.pending.None? && x'.task.ctx == x.task.ctx
      && q.ending.Some? && Settle(p, o, x'.task, Erased(x'.hist), x'.thread.pc) == q.(ending := None)
      && (x'.hist.ending == q.ending || x.task.ctx == Expired)
  {
    var x' := Advance(p, x, NoInput);
    assert Erased(x'.hist) == Erased(x.hist);
    assert Base(x'.task, Erased(x'.hist)) == Base(x.task, Erased(x.hist));
  }

  lemma OwnerStays(p: Policy, o: Oracles, s: Sys, s': Sys, t: nat, x': Local, q: State) returns (q': State)
    requires OneOwner(s) && OneOwner(s') && t in s.threads && Owns(s.threads[t])
    requires s' == Sys(x'.task, x'.hist, s.threads[t := x'.thread])
    requires RoundsOk(s.hist.rounds) && RoundsOk(x'.hist.rounds) && StandsAt(p, o, s, q)
    requires Follows(p, o, Settle(p, o, s.task, Erased(s.hist), s.threads[t].pc),
                     Settle(p, o, x'.task, Erased(x'.hist), x'.thread.pc))
    requires x'.hist.ending == s.hist.ending && x'.task.ctx == s.task.ctx
    ensures Follows(p, o, q, q') && InStep(p, o, s', q')
  {
    OwnerCommitment(p, o, s, s', t);
    q' := Commitment(p, o, s');
  }

  lemma OwnerRunsOut(p: Policy, o: Oracles, s: Sys, s': Sys, t: nat, q: State)
    requires OneOwner(s) && OneOwner(s') && t in s.threads && Owns(s.threads[t])
    requires OwnerFacts(p, Local(s.task, s.hist, s.threads[t])) && Finishes(Local(s.task, s.hist, s.threads[t]))
    requires Terminal(s.task.status) ==> s.task.ctx == Expired
    requires var x' := Advance(p, Local(s.task, s.hist, s.threads[t]), NoInput);
      s' == Sys(x'.task, x'.hist, s.threads[t := x'.thread])
    requires RoundsOk(s.hist.rounds) && StandsAt(p, o, s, q)
    ensures InStep(p, o, s', q)
  {
    FinishRunsOut(p, o, Local(s.task, s.hist, s.threads[t]));
    OwnerCommitment(p, o, s, s', t);
  }

  /** An owner is at work only while the task stands, and a terminal status under it is a deadline's. */
  lemma OwnerStands(p: Policy, o: Oracles, s: Sys, t: nat, q: State)
    requires Inv(p, s) && InStep(p, o, s, q) && t in s.threads && Owns(s.threads[t])
    ensures OwnerFacts(p, Local(s.task, s.hist, s.threads[t])) && StandsAt(p, o, s, q)
    ensures Terminal(s.task.status) ==> s.task.ctx == Expired
  {
  }

  lemma OwnerGoesOn(p: Policy, o: Oracles, s: Sys, s': Sys, t: nat, input: Input, x': Local, q: State) returns (q': State)
    requires OneOwner(s) && OneOwner(s') && t in s.threads && Owns(s.threads[t]) && RoundsOk(s.hist.rounds)
    requires var x := Local(s.task, s.hist, s.threads[t]);
      OwnerFacts(p, x) && Ready(x, input) && Told(o, x, input) && !Finishes(x) && x' == Advance(p, x, input)
    requires s' == Sys(x'.task, x'.hist, s.threads[t := x'.thread]) && StandsAt(p, o, s, q)
    ensures Follows(p, o, q, q') && InStep(p, o, s', q')
  {
    var x := Local(s.task, s.hist, s.threads[t]);
    if FindsEnd(x) {
      assert x'.task == x.task && x'.hist == x.hist && x'.thread == At(Gone);
    } else {
      OwnerTurns(p, o, x, input);
      UndisturbedStep(p, x, input);
    }
    q' := OwnerStays(p, o, s, s', t, x', q);
  }

  lemma OwnerInStep(p: Policy, o: Oracles, s: Sys, t: nat, input: Input, q: State) returns (q': State)
    requires Inv(p, s) && InStep(p, o, s, q) && Possible(s, Advances(t, input)) && Prompted(p, o, s, Advances(t, input))
    requires Owns(s.threads[t]) && OneOwner(Apply(p, s, Advances(t, input)))
    ensures Follows(p, o, q, q') && InStep(p, o, Apply(p, s, Advances(t, input)), q')
  {
    var x := Local(s.task, s.hist, s.threads[t]);
    OwnerStands(p, o, s, t, q);
    if Finishes(x) {
      q' := q;
      OwnerRunsOut(p, o, s, Apply(p, s, Advances(t, input)), t, q);
    } else {
      q' := OwnerGoesOn(p, o, s, Apply(p, s, Advances(t, input)), t, input, Advance(p, x, input), q);
    }
  }

  // ----- Other steps -----

  /** A step outside the owner's work keeps the commitment; a recorded ending can only come from a deadline. */
  lemma WorkStays(p: Policy, o: Oracles, s: Sys, s': Sys, q: State)
    requires OneOwner(s) && OneOwner(s') && InStep(p, o, s, q)
    requires SameWork(s.task, s'.task) && SameLogs(s.hist, s'.hist)
    requires s'.hist.ending == s.hist.ending || s'.task.ctx == Expired
    requires s.task.ctx == Expired ==> s'.task.ctx == Expired
    requires forall u | u in s'.threads && Owns(s'.threads[u]) :: u in s.threads && s.threads[u] == s'.threads[u]
    requires forall u | u in s.threads && Owns(s.threads[u]) :: u in s'.threads && s.threads[u] == s'.threads[u]
    ensures InStep(p, o, s', q)
  {
    assert Erased(s'.hist) == Erased(s.hist);
    SameOwner(s, s');
    SettleFrame(p, o, s.task, s'.task, Erased(s.hist), OwnerPc(s));
  }

  lemma SameOwner(s: Sys, s': Sys)
    requires OneOwner(s) && OneOwner(s')
    requires forall u | u in s'.threads && Owns(s'.threads[u]) :: u in s.threads && s.threads[u] == s'.threads[u]
    requires forall u | u in s.threads && Owns(s.threads[u]) :: u in s'.threads && s.threads[u] == s'.threads[u]
    ensures OwnerPc(s) == OwnerPc(s')
  {
    if t :| t in s.threads && Owns(s.threads[t]) {
      OwnerPcIs(s, t);
      OwnerPcIs(s', t);
    }
  }

  lemma BystanderStays(p: Policy, o: Oracles, s: Sys, t: nat, input: Input, q: State)
    requires Inv(p, s) && InStep(p, o, s, q) && Possible(s, Advances(t, input)) && !Owns(s.threads[t])
    requires OneOwner(Apply(p, s, Advances(t, input)))
    ensures InStep(p, o, Apply(p, s, Advances(t, input)), q)
  {
    var x := Local(s.task, s.hist, s.threads[t]);
    BystanderStep(p, x, input);
    StatusStep(p, x, input);
    WorkStays(p, o, s, Apply(p, s, Advances(t, input)), q);
  }

  lemma StartStays(p: Policy, o: Oracles, s: Sys, a: Action, q: State)
    requires OneOwner(s) && InStep(p, o, s, q) && Possible(s, a) && (a.Spawns? || a.HandsOff?)
    requires OneOwner(Apply(p, s, a))
    ensures InStep(p, o, Apply(p, s, a), q)
  {
    OwnerPcIs(s, a.tid);
    OwnerPcIs(Apply(p, s, a), if a.Spawns? then a.runner else a.resumer);
  }

  lemma RestingCommitment(p: Policy, o: Oracles, s: Sys)
    requires RoundsOk(s.hist.rounds) && Resting(s)
    ensures Commitment(p, o, s) == Base(s.task, Erased(s.hist))
  {
    assert OwnerPc(s) == Gone;
  }

  lemma ErasedVerdict(h: History, v: Verdict, actor: string)
    ensures Erased(RecordVerdict(h, v, actor)) == RecordVerdict(Erased(h), v, actor)
    ensures RecordVerdict(h, v, actor).ending == h.ending && Cursor(Erased(h)) == Cursor(h)
  {
  }

  lemma DecisionTurns(p: Policy, o: Oracles, t: Task, h: History, v: Verdict, actor: string)
    requires Sound(p, t, h) && t.pending.Some? && Parked(p, t, h)
    requires v == if o.decide(Cursor(h)) then Approved(t.pending.value) else Denied(t.pending.value)
    ensures RoundsOk(RecordVerdict(h, v, actor).rounds) && RecordVerdict(h, v, actor).ending == h.ending
    ensures Settle(p, o, AfterVerdict(t, v), Erased(RecordVerdict(h, v, actor)), DecideThread(v, actor).pc)
         == Turn(p, o, Base(t, Erased(h)))
  {
    SoundFrame(p, t, t, h, Erased(h));
    ErasedVerdict(h, v, actor);
    DecisionFollows(p, o, t, Erased(h), v, actor);
  }

  /** An accepted decision: nobody moves the task, the context lives, and the verdict is the caller's word. */
  lemma AcceptedFacts(p: Policy, s: Sys, a: Action)
    requires Inv(p, s) && a.Decides? && Accepted(Judge(p, s.task, a.actor, a.admin, a.callId, a.approve))
    ensures Sound(p, s.task, s.hist) && s.task.pending.Some? && Parked(p, s.task, s.hist)
    ensures Resting(s) && s.task.ctx == Live
    ensures Judge(p, s.task, a.actor, a.admin, a.callId, a.approve)
         == if a.approve then Approved(s.task.pending.value) else Denied(s.task.pending.value)
  {
    AcceptedVerdict(p, s.task, s.hist, a.actor, a.admin, a.callId, a.approve);
  }

  /** The state after an accepted decision stands one turn further. */
  lemma DecidedStands(p: Policy, o: Oracles, s: Sys, s': Sys, t: nat, v: Verdict, actor: string, q: State)
    requires Sound(p, s.task, s.hist) && s.task.pending.Some? && Parked(p, s.task, s.hist)
    requires Resting(s) && s.task.ctx == Live && InStep(p, o, s, q)
    requires v == if o.decide(Cursor(s.hist)) then Approved(s.task.pending.value) else Denied(s.task.pending.value)
    requires s' == Decided(s, t, v, actor) && OneOwner(s')
    ensures q.ending.None? && InStep(p, o, s', Turn(p, o, q))
  {
    RestingCommitment(p, o, s);
    DecisionTurns(p, o, s.task, s.hist, v, actor);
    OwnerPcIs(s', t);
  }

  lemma DecideStands(p: Policy, o: Oracles, s: Sys, a: Action, q: State)
    requires Inv(p, s) && InStep(p, o, s, q) && a.Decides? && Possible(s, a) && Prompted(p, o, s, a)
    requires Accepted(Judge(p, s.task, a.actor, a.admin, a.callId, a.approve)) && OneOwner(Apply(p, s, a))
    ensures q.ending.None? && InStep(p, o, Apply(p, s, a), Turn(p, o, q))
  {
    AcceptedFacts(p, s, a);
    var v := Judge(p, s.task, a.actor, a.admin, a.callId, a.approve);
    DecidedStands(p, o, s, Apply(p, s, a), a.tid, v, a.actor, q);
  }

  lemma ContextStays(p: Policy, o: Oracles, s: Sys, a: Action, q: State)
    requires OneOwner(s) && InStep(p, o, s, q) && (a.DeadlinePasses? || a.Cancels? || a.Reaps?)
    requires OneOwner(Apply(p, s, a))
    ensures InStep(p, o, Apply(p, s, a), q)
  {
    WorkStays(p, o, s, Apply(p, s, a), q);
  }

  lemma StepFollows(p: Policy, o: Oracles, s: Sys, a: Action, q: State) returns (q': State)
    requires Inv(p, s) && InStep(p, o, s, q) && Possible(s, a) && Prompted(p, o, s, a)
    ensures Follows(p, o, q, q') && InStep(p, o, Apply(p, s, a), q')
  {
    OneOwnerKept(p, s, a);
    q' := q;
    match a
    case Advances(t, input) =>
      if Owns(s.threads[t]) {
        q' := OwnerInStep(p, o, s, t, input, q);
      } else {
        BystanderStays(p, o, s, t, input, q);
      }
    case Decides(_, actor, admin, callId, approve) =>
      if Accepted(Judge(p, s.task, actor, admin, callId, approve)) {
        DecideStands(p, o, s, a, q);
        q' := Turn(p, o, q);
      }
    case Spawns(_, _, _) => StartStays(p, o, s, a, q);
    case HandsOff(_, _) => StartStays(p, o, s, a, q);
    case _ => ContextStays(p, o, s, a, q);
  }

  /**
   Pausing and resuming refines the sequential interpreter: after any run, wherever the pauses fell and
   whatever a deadline, cancellation or the reaper did, the task stands at, or has run out at, the state
   after some number of turns.
   */
  lemma {:induction false} RunFollows(p: Policy, o: Oracles, states: seq<Sys>, actions: seq<Action>, i: nat) returns (n: nat)
    requires IsRun(p, states, actions) && i < |states|
    requires forall k | 0 <= k < |actions| :: Prompted(p, o, states[k], actions[k])
    ensures InStep(p, o, states[i], Turns(p, o, Start(p), n))
  {
    if i == 0 {
      StartInStep(p, o);
      n := 0;
    } else {
      var m := RunFollows(p, o, states, actions, i - 1);
      RunInv(p, states, actions, i - 1);
      var q := StepFollows(p, o, states[i - 1], actions[i - 1], Turns(p, o, Start(p), m));
      n := CountTurn(p, o, m, q);
    }
  }

  lemma StartInStep(p: Policy, o: Oracles)
    ensures InStep(p, o, Initial(p), Turns(p, o, Start(p), 0))
  {
    OwnerPcIs(Initial(p), 0);
  }

  lemma CountTurn(p: Policy, o: Oracles, m: nat, q: State) returns (n: nat)
    requires Follows(p, o, Turns(p, o, Start(p), m), q)
    ensures q == Turns(p, o, Start(p), n)
  {
    n := m;
    if q != Turns(p, o, Start(p), m) {
      OneMoreTurn(p, o, Start(p), m);
      n := m + 1;
    }
  }

  /** Whenever no thread moves the task, paused, ended or cut short, its record is that of some number of turns. */
  lemma RestingRecordIsTurns(p: Policy, o: Oracles, states: seq<Sys>, actions: seq<Action>, i: nat) returns (n: nat)
    requires IsRun(p, states, actions) && i < |states| && Resting(states[i])
    requires forall k | 0 <= k < |actions| :: Prompted(p, o, states[k], actions[k])
    ensures var s, q := states[i], Turns(p, o, Start(p), n);
      && s.task.messages == q.messages
      && s.task.loadedSkills == q.loadedSkills
      && s.task.steps == q.steps
      && s.hist.executions == q.executions
  {
    n := RunFollows(p, o, states, actions, i);
    assert OwnerPc(states[i]) == Gone;
  }

  /** When a run has ended the task before any deadline, its record is the interpreter's result. */
  lemma EndedRunIsResult(p: Policy, o: Oracles, states: seq<Sys>, actions: seq<Action>)
    requires IsRun(p, states, actions)
    requires forall k | 0 <= k < |actions| :: Prompted(p, o, states[k], actions[k])
    requires Terminal(states[|states| - 1].task.status) && states[|states| - 1].task.ctx != Expired
    ensures var s, q := states[|states| - 1], Outcome(p, o, Start(p));
      && s.task.messages == q.messages
      && s.task.loadedSkills == q.loadedSkills
      && s.task.steps == q.steps
      && s.hist.executions == q.executions
      && s.hist.ending == q.ending
  {
    var s := states[|states| - 1];
    var n := RunFollows(p, o, states, actions, |states| - 1);
    RunInv(p, states, actions, |states| - 1);
    TurnsOutcome(p, o, Start(p), n);
    assert s.hist.ending.Some?;
    assert RanOutAt(p, o, s, Turns(p, o, Start(p), n));
    assert OwnerPc(s) == Gone;
  }
}
