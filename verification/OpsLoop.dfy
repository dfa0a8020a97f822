/**
 The methods of the agent on the mutable record: runLoop, processToolCalls and dispatch, which pause for an
 approval, Decide, which answers it, and resumeQueuedCalls, which goes on. One thread runs at a time here;
 between the pauses this is what the protocol interleaves with everything else.
 */
module OpsLoop {
  import opened Basics
  import opened Text
  import opened OpsTask
  import opened OpsProtocol
  import opened OpsTranscript
  import opened OpsSequential

  /** Where the answers come from, and the commands that were run. */
  class Outside {
    const oracles: Oracles
    var rounds: nat
    var answered: nat
    var executions: seq<Execution>

    constructor (o: Oracles)
      ensures oracles == o && rounds == 0 && answered == 0 && executions == []
    {
      oracles, rounds, answered, executions := o, 0, 0, [];
    }

    function Here(): Slot
      reads this
    {
      if rounds == 0 then Slot(0, 0) else Slot(rounds - 1, answered)
    }

    method Execute(r: ShellRequest, approved: bool) returns (text: string)
      modifies this`executions
      ensures executions == old(executions) + [Execution(Here(), r, approved)]
      ensures text == oracles.shell(Here(), r)
    {
      executions := executions + [Execution(Here(), r, approved)];
      text := oracles.shell(Here(), r);
    }
  }

  /** The record and the executions so far are the interpreter's. */
  ghost predicate Agrees(t: TaskState, w: Outside, q: State)
    reads t, w
  {
    && t.messages == q.messages && t.loadedSkills == q.loadedSkills && t.steps == q.steps
    && w.executions == q.executions && w.rounds == q.rounds && w.answered == q.answered
  }

  ghost predicate Open(t: TaskState)
    reads t
  {
    t.status == Running && t.pending == None && t.ctx == Live && t.listed
  }

  /** The first open call waits for its decision and the others are saved. */
  ghost predicate Waits(t: TaskState, w: Outside, q: State)
    reads t, w
  {
    && Agrees(t, w, q) && q.ending.None? && q.open != [] && t.queuedCalls == q.open[1..]
    && t.status == AwaitingApproval && t.ctx == Live && t.listed
    && t.pending.Some? && t.pending.value.callId == q.open[0].id
    && var r := RequestOf(t.pending.value);
       Requests(t.policy, q.open[0], r) && Valid(t.policy, t.loadedSkills, r) && !t.policy.exempt(r.command)
  }

  /** The task has ended as the interpreter does. */
  ghost predicate Ended(t: TaskState, w: Outside, q: State)
    reads t, w
  {
    && Agrees(t, w, q) && Terminal(t.status) && t.pending == None && t.ctx == Cancelled
    && q.ending == Some(if t.status == Completed then Answered(t.finalAnswer) else Stopped(t.error))
    && t.events != [] && t.events[|t.events| - 1] == (if t.status == Completed then TaskCompleted else TaskFailed)
  }

  /** With `result` recorded the record is the interpreter's after its next turn. */
  ghost predicate Answers(t: TaskState, w: Outside, q: State, callId: string, result: ToolResult)
    reads t, w
    requires q.ending.None?
  {
    var q' := Turn(t.policy, w.oracles, q);
    && t.messages + [Tool(callId, result)] == q'.messages && t.loadedSkills == q'.loadedSkills && t.steps == q'.steps
    && w.executions == q'.executions && w.rounds == q'.rounds && w.answered + 1 == q'.answered
  }

  /** The shell_exec branch of dispatch. */
  method DispatchShell(t: TaskState, w: Outside, ghost q: State, call: ToolCall, r: ShellRequest)
    returns (result: ToolResult, paused: bool)
    requires Agrees(t, w, q) && Open(t) && q.ending.None? && q.open != [] && q.open[0] == call
    requires t.queuedCalls == q.open[1..] && call.name == "shell_exec" && t.policy.decodeRequest(call.arguments) == Ok(r)
    modifies t, w`executions
    ensures if paused then Waits(t, w, q) else Open(t) && Answers(t, w, q, call.id, result)
    ensures t.queuedCalls == q.open[1..]
    ensures t.events == old(t.events) +
      if paused then [ApprovalRequired(call.id)]
      else if w.executions != old(w.executions) then [ToolStarted(call.id), ToolFinished(call.id)]
      else [ToolFinished(call.id)]
  {
    var p := t.policy;
    paused := false;
    if p.requestError(r).Some? {
      result := ToolError("COMMAND_REJECTED", p.requestError(r).value);
    } else if p.serverError(r).Some? {
      result := ToolError("COMMAND_REJECTED", p.serverError(r).value);
    } else if p.skillError(t.loadedSkills, r).Some? {
      result := ToolError("SKILL_REQUIRED", p.skillError(t.loadedSkills, r).value);
    } else if r.target == "current-server" && p.serverId == "" {
      result := ToolError("SERVER_REQUIRED", "当前任务没有固定服务器");
    } else if p.exempt(r.command) {
      t.AppendEvent(ToolStarted(call.id));
      var text := w.Execute(r, false);
      result := ShellOutput(text);
    } else {
      t.AwaitApproval(call.id, r);
      t.AppendEvent(ApprovalRequired(call.id));
      return DENIAL, true;
    }
    t.AppendEvent(ToolFinished(call.id));
  }

  /** dispatch; on a pause its result is not used. */
  method Dispatch(t: TaskState, w: Outside, ghost q: State, call: ToolCall) returns (result: ToolResult, paused: bool)
    requires Agrees(t, w, q) && Open(t) && q.ending.None? && q.open != [] && q.open[0] == call
    requires t.queuedCalls == q.open[1..]
    modifies t, w`executions
    ensures if paused then Waits(t, w, q) else Open(t) && Answers(t, w, q, call.id, result)
    ensures t.queuedCalls == q.open[1..]
    ensures t.events == old(t.events) +
      if paused then [ApprovalRequired(call.id)]
      else if w.executions != old(w.executions) then [ToolStarted(call.id), ToolFinished(call.id)]
      else [ToolFinished(call.id)]
  {
    var p := t.policy;
    paused := false;
    if call.name == "list_skills" {
      result := SkillList(p.skillList);
    } else if call.name == "load_skill" {
      match p.decodeSkillName(call.arguments) {
        case Err(e) => result := ToolError("INVALID_ARGUMENTS", e);
        case Ok(name) =>
          match p.findSkill(name) {
            case None => result := ToolError("SKILL_NOT_FOUND", "Skill 不存在");
            case Some(skill) =>
              t.AddSkill(skill.name);
              result := SkillLoaded(skill.name, skill.text);
          }
      }
    } else if call.name == "shell_exec" {
      match p.decodeRequest(call.arguments) {
        case Err(e) => result := ToolError("INVALID_ARGUMENTS", e);
        case Ok(r) =>
          result, paused := DispatchShell(t, w, q, call, r);
          return;
      }
    } else {
      result := ToolError("TOOL_NOT_ALLOWED", "工具不在 Agent 白名单中");
    }
    t.AppendEvent(ToolFinished(call.id));
  }

  /** How far the interpreter has got; a turn that does not end it gets further. */
  ghost predicate NoEarlier(p: Policy, q: State, q': State) {
    || StepsLeftOver(p, q') < StepsLeftOver(p, q)
    || (StepsLeftOver(p, q') == StepsLeftOver(p, q) && |q'.open| <= |q.open|)
  }

  /** q' comes after q and leads to the same outcome. */
  ghost predicate LaterOn(p: Policy, o: Oracles, q: State, q': State) {
    NoEarlier(p, q, q') && Outcome(p, o, q') == Outcome(p, o, q)
  }

  /** One turn of the interpreter on an open call. */
  lemma CallTurn(p: Policy, o: Oracles, q: State)
    requires q.open != [] && q.ending.None? && q.rounds > 0
    ensures var q' := Turn(p, o, q);
      && q'.open == q.open[1..] && q'.rounds == q.rounds && q'.ending.None? && LaterOn(p, o, q, q')
      && StepsLeftOver(p, q') == StepsLeftOver(p, q)
  {
    assert Turn(p, o, q) == AnswerCall(p, o, q, q.open[0]);
    TurnDescends(p, o, q);
  }

  /** processToolCalls: the calls of the open round in their order, up to the first that must be approved. */
  method ProcessToolCalls(t: TaskState, w: Outside, ghost q: State, calls: seq<ToolCall>)
    returns (paused: bool, ghost q': State)
    requires Agrees(t, w, q) && Open(t) && q.open == calls && q.rounds > 0 && q.ending.None?
    modifies t, w
    ensures LaterOn(t.policy, w.oracles, q, q') && q'.rounds > 0
    ensures if paused then Waits(t, w, q') else Agrees(t, w, q') && Open(t) && q'.open == [] && q'.ending.None?
  {
    paused, q' := false, q;
    for i := 0 to |calls|
      invariant Agrees(t, w, q') && Open(t) && q'.open == calls[i..] && q'.rounds > 0 && q'.ending.None?
      invariant LaterOn(t.policy, w.oracles, q, q')
    {
      t.SaveRemaining(calls[i + 1..]);
      var result;
      result, paused := Dispatch(t, w, q', calls[i]);
      if paused {
        return;
      }
      CallTurn(t.policy, w.oracles, q');
      t.AppendMessage(Tool(calls[i].id, result));
      w.answered := w.answered + 1;
      q' := Turn(t.policy, w.oracles, q');
    }
  }

  /** complete and fail: the write, then the cancellation, then the event. */
  method Finish(t: TaskState, end: Ending)
    requires Open(t)
    modifies t
    ensures t.messages == old(t.messages) && t.loadedSkills == old(t.loadedSkills) && t.steps == old(t.steps)
    ensures t.ctx == Cancelled && t.pending == None
    ensures t.events == old(t.events) + [if end.Answered? then TaskCompleted else TaskFailed]
    ensures match end
      case Answered(text) => t.status == Completed && t.finalAnswer == t.policy.safeText(text, 32000)
      case Stopped(text) => t.status == Failed && t.error == t.policy.safeText(text, 1000)
  {
    match end {
      case Answered(text) =>
        var changed := t.Complete(text);
      case Stopped(text) =>
        var changed := t.Fail(text);
    }
    t.CancelContext();
    t.AppendEvent(if end.Answered? then TaskCompleted else TaskFailed);
  }

  /** What one model request emits: its start and end, what was said, and the end of the task if it comes to that. */
  function AskEvents(p: Policy, step: nat, reply: Reply): seq<Event> {
    match reply
    case ModelError(_) => [ModelStarted(step), ModelFinished(step, false), TaskFailed]
    case Completion(content, calls) =>
      [ModelStarted(step), ModelFinished(step, true)]
      + (if Trim(content) != "" then [AssistantMessage(p.safeText(content, 16000))] else [])
      + if calls == [] then [TaskCompleted] else []
  }

  /** The rest of the turn once the step is counted and the model has answered. */
  method TakeReplyIn(t: TaskState, w: Outside, ghost q: State, reply: Reply) returns (ended: bool, calls: seq<ToolCall>)
    requires Agrees(t, w, q.(steps := q.steps + 1)) && Open(t) && q.open == [] && q.ending.None?
    requires q.steps < t.policy.maxSteps && reply == w.oracles.model(q.steps + 1, q.messages)
    modifies t, w
    ensures var q' := Turn(t.policy, w.oracles, q);
      if ended then Ended(t, w, q')
      else
        && Agrees(t, w, q') && Open(t) && q'.open == calls && q'.rounds > 0 && q'.ending.None?
        && q.steps < q'.steps <= t.policy.maxSteps
    ensures t.events == old(t.events) + AskEvents(t.policy, q.steps + 1, reply)[2..]
  {
    if reply.ModelError? {
      Finish(t, Stopped(MODEL_FAILURE_PREFIX + t.policy.safeText(reply.error, 500)));
      return true, [];
    }
    t.AppendMessage(Assistant(reply.content, reply.calls));
    w.rounds, w.answered := w.rounds + 1, 0;
    if Trim(reply.content) != "" {
      t.AppendEvent(AssistantMessage(t.policy.safeText(reply.content, 16000)));
    }
    if reply.calls == [] {
      Finish(t, Answered(reply.content));
      return true, [];
    }
    return false, reply.calls;
  }

  /** One turn of runLoop up to its tool calls; `ended` says that it wrote the ending. */
  method AskModel(t: TaskState, w: Outside, ghost q: State) returns (ended: bool, calls: seq<ToolCall>)
    requires Agrees(t, w, q) && Open(t) && q.open == [] && q.ending.None?
    modifies t, w
    ensures var q' := Turn(t.policy, w.oracles, q);
      if ended then Ended(t, w, q')
      else
        && Agrees(t, w, q') && Open(t) && q'.open == calls && q'.rounds > 0 && q'.ending.None?
        && q.steps < q'.steps <= t.policy.maxSteps
    ensures t.events == old(t.events) +
      if q.steps >= t.policy.maxSteps then [TaskFailed]
      else AskEvents(t.policy, q.steps + 1, w.oracles.model(q.steps + 1, q.messages))
  {
    var ok, transcript := t.NextStep();
    if !ok {
      Finish(t, Stopped(STEP_LIMIT_MESSAGE));
      return true, [];
    }
    t.AppendEvent(ModelStarted(t.steps));
    var reply := w.oracles.model(t.steps, transcript);
    t.AppendEvent(ModelFinished(t.steps, reply.Completion?));
    ended, calls := TakeReplyIn(t, w, q, reply);
  }

  lemma LaterTransitive(p: Policy, o: Oracles, a: State, b: State, c: State)
    requires LaterOn(p, o, a, b) && LaterOn(p, o, b, c)
    ensures LaterOn(p, o, a, c)
  {
  }

  /** A turn without an open call ends the interpreter, or spends a step. */
  lemma ModelTurn(p: Policy, o: Oracles, q: State)
    requires q.open == [] && q.ending.None?
    ensures var q' := Turn(p, o, q);
      && Outcome(p, o, q') == Outcome(p, o, q)
      && (q'.ending.Some? ==> Outcome(p, o, q) == q')
      && (q'.ending.None? ==> StepsLeftOver(p, q') < StepsLeftOver(p, q))
  {
    TurnDescends(p, o, q);
  }

  /** runLoop: up to the end of the task or the next pause. */
  method RunLoop(t: TaskState, w: Outside, ghost q: State) returns (paused: bool, ghost q': State)
    requires Agrees(t, w, q) && Open(t) && q.open == [] && q.ending.None?
    modifies t, w
    ensures if paused then Waits(t, w, q') && q'.rounds > 0 && LaterOn(t.policy, w.oracles, q, q')
      else Ended(t, w, q') && q' == Outcome(t.policy, w.oracles, q)
  {
    q' := q;
    while true
      invariant Agrees(t, w, q') && Open(t) && q'.open == [] && q'.ending.None?
      invariant LaterOn(t.policy, w.oracles, q, q')
      decreases StepsLeftOver(t.policy, q')
    {
      ModelTurn(t.policy, w.oracles, q');
      ghost var before, next := q', Turn(t.policy, w.oracles, q');
      var ended, calls := AskModel(t, w, q');
      q' := next;
      if ended {
        return false, q';
      }
      paused, q' := ProcessToolCalls(t, w, next, calls);
      LaterTransitive(t.policy, w.oracles, q, before, q');
      if paused {
        return;
      }
    }
  }

  /** The interpreter's turn for a waiting command, which still passes every validator. */
  lemma WaitingTurn(p: Policy, o: Oracles, q: State, r: ShellRequest)
    requires q.ending.None? && q.open != []
    requires Requests(p, q.open[0], r) && Valid(p, q.loadedSkills, r) && !p.exempt(r.command)
    ensures Revalidate(p, q.loadedSkills, r).None?
    ensures Turn(p, o, q) ==
      if o.decide(Place(q)) then RunShell(o, q, q.open[0].id, r, true) else GiveAnswer(q, q.open[0].id, DENIAL)
  {
    assert Turn(p, o, q) == AnswerShell(p, o, q, q.open[0], r);
  }

  /** What Decide does with an approved command. */
  method RunApproved(t: TaskState, w: Outside, id: string, r: ShellRequest)
    modifies t, w`executions
    ensures t.messages == old(t.messages) + [Tool(id, ShellOutput(w.oracles.shell(w.Here(), r)))]
    ensures t.Value() == old(t.Value()).(messages := t.messages, events := t.events)
    ensures t.events == if t.listed then old(t.events) + [ToolStarted(id), ToolFinished(id)] else old(t.events)
    ensures w.executions == old(w.executions) + [Execution(w.Here(), r, true)]
  {
    t.AppendEvent(ToolStarted(id));
    var text := w.Execute(r, true);
    t.AppendMessage(Tool(id, ShellOutput(text)));
    t.AppendEvent(ToolFinished(id));
  }

  /**
   Decide on the waiting command, whichever way its creator decides. The revalidation passes, because the
   validators let the command through when it was parked and no skill was loaded since.
   */
  method Decide(t: TaskState, w: Outside, ghost q: State)
    requires Waits(t, w, q) && q.rounds > 0
    modifies t, w
    ensures var q' := Turn(t.policy, w.oracles, q);
      Agrees(t, w, q') && Open(t) && t.queuedCalls == q'.open && q'.rounds > 0 && q'.ending.None?
    ensures var id, approve := q.open[0].id, w.oracles.decide(old(w.Here()));
      t.events == old(t.events) + [ApprovalDecided(id, approve, t.policy.creator)]
        + if approve then [ToolStarted(id), ToolFinished(id)] else []
  {
    var id, r := t.pending.value.callId, RequestOf(t.pending.value);
    var approve := w.oracles.decide(w.Here());
    WaitingTurn(t.policy, w.oracles, q, r);
    var verdict := t.TakeDecision(t.policy.creator, true, id, approve);
    t.AppendEvent(ApprovalDecided(id, approve, t.policy.creator));
    if verdict.Approved? {
      RunApproved(t, w, id, r);
    }
    w.answered := w.answered + 1;
  }

  /** resumeQueuedCalls, which Decide starts: the saved calls, then runLoop. */
  method ResumeQueuedCalls(t: TaskState, w: Outside, ghost q: State) returns (paused: bool, ghost q': State)
    requires Agrees(t, w, q) && Open(t) && t.queuedCalls == q.open && q.rounds > 0 && q.ending.None?
    modifies t, w
    ensures if paused then Waits(t, w, q') && q'.rounds > 0 && LaterOn(t.policy, w.oracles, q, q')
      else Ended(t, w, q') && q' == Outcome(t.policy, w.oracles, q)
  {
    var ok, calls := t.TakeQueued();
    assert ok;
    q' := q;
    if calls != [] {
      paused, q' := ProcessToolCalls(t, w, q, calls);
      if paused {
        return;
      }
    }
    ghost var resumed := q';
    paused, q' := RunLoop(t, w, q');
    if paused {
      LaterTransitive(t.policy, w.oracles, q, resumed, q');
    }
  }

  /** A whole task: runLoop, and for every pause a decision and the goroutine that it starts. */
  method RunTask(p: Policy, o: Oracles) returns (t: TaskState, w: Outside)
    ensures fresh(t) && fresh(w) && t.policy == p && w.oracles == o
    ensures Ended(t, w, Outcome(p, o, Start(p)))
  {
    t := new TaskState(p);
    w := new Outside(o);
    t.AppendEvent(TaskStarted);
    var paused;
    ghost var q;
    paused, q := RunLoop(t, w, Start(p));
    while paused
      invariant fresh(t) && fresh(w) && t.policy == p && w.oracles == o
      invariant if paused then Waits(t, w, q) && q.rounds > 0 && Outcome(p, o, q) == Outcome(p, o, Start(p))
        else Ended(t, w, Outcome(p, o, Start(p)))
      decreases paused, StepsLeftOver(p, q), |q.open|
    {
      CallTurn(p, o, q);
      ghost var decided := Turn(p, o, q);
      Decide(t, w, q);
      paused, q := ResumeQueuedCalls(t, w, decided);
    }
  }

  /** watchTaskDeadline once the context has ended: nothing after a cancellation, otherwise the failure. */
  method WatchTaskDeadline(t: TaskState)
    requires t.ctx != Live
    modifies t
    ensures t.Value() ==
      var v := old(t.Value());
      if v.ctx != Expired || Terminal(v.status) then v else Emit(Close(v, Stopped(DEADLINE_MESSAGE)), TaskFailed)
  {
    if t.ctx != Expired {
      return;
    }
    var changed := t.FailOnDeadline();
    if changed {
      t.AppendEvent(TaskFailed);
    }
  }
}
