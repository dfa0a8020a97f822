/**
 The task protocol as a transition system with one step per critical section. Every goroutine of the
 task is a thread with a program counter; threads interleave freely with decisions, the deadline,
 cancellation and the reaper. History records what was asked, executed and decided.
 */
module OpsProtocol {
  import opened Basics
  import opened Text
  import opened OpsTask

  // ----- History -----

  datatype Round = Round(content: string, calls: seq<ToolCall>, results: seq<ToolResult>)

  /** A requested call: the index of its round and its place among that round's calls. */
  datatype Slot = Slot(round: nat, index: nat)

  datatype Execution = Execution(slot: Slot, request: ShellRequest, approved: bool)

  datatype Decision = Decision(slot: Slot, callId: string, actor: string, approved: bool)

  datatype History = History(
    rounds: seq<Round>,
    executions: seq<Execution>,
    decisions: seq<Decision>,
    ending: Option<Ending>)

  function Cursor(h: History): Slot {
    if h.rounds == [] then Slot(0, 0)
    else Slot(|h.rounds| - 1, |h.rounds[|h.rounds| - 1].results|)
  }

  function RecordRound(h: History, content: string, calls: seq<ToolCall>): History {
    h.(rounds := h.rounds + [Round(content, calls, [])])
  }

  function RecordResult(h: History, result: ToolResult): History {
    if h.rounds == [] then h
    else
      var n := |h.rounds| - 1;
      h.(rounds := h.rounds[n := h.rounds[n].(results := h.rounds[n].results + [result])])
  }

  function RecordExecution(h: History, r: ShellRequest, approved: bool): History {
    h.(executions := h.executions + [Execution(Cursor(h), r, approved)])
  }

  function RecordDecision(h: History, callId: string, actor: string, approved: bool): History {
    h.(decisions := h.decisions + [Decision(Cursor(h), callId, actor, approved)])
  }

  /** The ending that is written, if the task is not terminal yet. */
  function RecordEnding(h: History, t: Task, end: Ending): History {
    if Terminal(t.status) then h else h.(ending := Some(end))
  }

  // ----- Threads -----

  datatype Pc =
    | Spawning                                                       // CreateTask, before its two goroutines
    | LoopTop                                                        // runLoop
    | Asking(transcript: seq<Message>)                               // the model call is out
    | Replied(content: string, calls: seq<ToolCall>)
    | Calls(calls: seq<ToolCall>)                                    // processToolCalls, head of its loop
    | Dispatching(call: ToolCall, rest: seq<ToolCall>)
    | Loading(call: ToolCall, rest: seq<ToolCall>, skill: Skill)
    | Checking(call: ToolCall, rest: seq<ToolCall>, request: ShellRequest)
    | Executing(call: ToolCall, rest: seq<ToolCall>, request: ShellRequest)
    | InShell(call: ToolCall, rest: seq<ToolCall>, request: ShellRequest)
    | Parking(call: ToolCall, rest: seq<ToolCall>, request: ShellRequest)
    | Answering(call: ToolCall, rest: seq<ToolCall>, result: ToolResult)
    | Completing(answer: string)
    | Failing(message: string)
    | Cancelling(event: Event)                                       // after a terminal write, before cancel
    | ExecutingApproved(callId: string, request: ShellRequest)       // Decide, after its first section
    | InApprovedShell(callId: string, request: ShellRequest)
    | Recording(callId: string, result: ToolResult)
    | HandOff                                                        // Decide, before it starts the resumer
    | Resuming                                                       // resumeQueuedCalls
    | WatchWait                                                      // watchTaskDeadline
    | WatchLock
    | Gone

  /** A thread first emits the events in its outbox, each in a section of its own, then goes on at pc. */
  datatype Thread = Thread(outbox: seq<Event>, pc: Pc)

  datatype Input = NoInput | ModelReplies(reply: Reply) | ShellReturns(text: string)

  /** One thread's view: what it shares, what history notes, where it is. */
  datatype Local = Local(task: Task, hist: History, thread: Thread)

  predicate Ready(x: Local, input: Input) {
    if x.thread.outbox != [] then input.NoInput?
    else
      match x.thread.pc
      case Asking(_) => input.ModelReplies?
      case InShell(_, _, _) => input.ShellReturns?
      case InApprovedShell(_, _) => input.ShellReturns?
      case WatchWait => input.NoInput? && x.task.ctx != Live
      case Spawning => false
      case HandOff => false
      case Gone => false
      case _ => input.NoInput?
  }

  const STEP_LIMIT_MESSAGE := "达到本次任务最大步骤数"
  const MODEL_FAILURE_PREFIX := "模型调用失败："

  function At(pc: Pc): Thread { Thread([], pc) }

  function Answer(call: ToolCall, rest: seq<ToolCall>, result: ToolResult): Thread {
    Thread([ToolFinished(call.id)], Answering(call, rest, result))
  }

  /** dispatch up to its first lock: argument decoding and the two validators that read no task state. */
  function Dispatch(p: Policy, call: ToolCall, rest: seq<ToolCall>): Thread {
    if call.name == "list_skills" then Answer(call, rest, SkillList(p.skillList))
    else if call.name == "load_skill" then
      match p.decodeSkillName(call.arguments) {
        case Err(e) => Answer(call, rest, ToolError("INVALID_ARGUMENTS", e))
        case Ok(name) =>
          match p.findSkill(name)
          case None => Answer(call, rest, ToolError("SKILL_NOT_FOUND", "Skill 不存在"))
          case Some(skill) => At(Loading(call, rest, skill))
      }
    else if call.name == "shell_exec" then
      match p.decodeRequest(call.arguments) {
        case Err(e) => Answer(call, rest, ToolError("INVALID_ARGUMENTS", e))
        case Ok(r) =>
          if p.requestError(r).Some? then Answer(call, rest, ToolError("COMMAND_REJECTED", p.requestError(r).value))
          else if p.serverError(r).Some? then Answer(call, rest, ToolError("COMMAND_REJECTED", p.serverError(r).value))
          else At(Checking(call, rest, r))
      }
    else Answer(call, rest, ToolError("TOOL_NOT_ALLOWED", "工具不在 Agent 白名单中"))
  }

  /** The skill check under the read lock, and what dispatch decides right after it. */
  function Check(p: Policy, loaded: set<string>, call: ToolCall, rest: seq<ToolCall>, r: ShellRequest): Thread {
    if p.skillError(loaded, r).Some? then Answer(call, rest, ToolError("SKILL_REQUIRED", p.skillError(loaded, r).value))
    else if r.target == "current-server" && p.serverId == "" then
      Answer(call, rest, ToolError("SERVER_REQUIRED", "当前任务没有固定服务器"))
    else if p.exempt(r.command) then Thread([ToolStarted(call.id)], Executing(call, rest, r))
    else At(Parking(call, rest, r))
  }

  /** After the assistant message: announce it if it says anything, then act on its calls. */
  function AfterReply(p: Policy, content: string, calls: seq<ToolCall>): Thread {
    Thread(if Trim(content) != "" then [AssistantMessage(p.safeText(content, 16000))] else [],
           if calls == [] then Completing(content) else Calls(calls))
  }

  function EndingOf(p: Policy, pc: Pc): Ending
    requires pc.Completing? || pc.Failing? || pc.WatchLock?
  {
    match pc
    case Completing(answer) => Answered(p.safeText(answer, 32000))
    case Failing(message) => Stopped(p.safeText(message, 1000))
    case WatchLock => Stopped(DEADLINE_MESSAGE)
  }

  /** The next critical section, external call or local decision of a thread. */
  function Advance(p: Policy, x: Local, input: Input): Local
    requires Ready(x, input)
  {
    var t, h := x.task, x.hist;
    if x.thread.outbox != [] then
      Local(Emit(t, x.thread.outbox[0]), h, Thread(x.thread.outbox[1..], x.thread.pc))
    else
      match x.thread.pc
      case LoopTop =>
        if !StepsLeft(p, t) then Local(t, h, At(Failing(STEP_LIMIT_MESSAGE)))
        else Local(BeginStep(t), h, Thread([ModelStarted(t.steps + 1)], Asking(t.messages)))
      case Asking(_) => Local(t, h, AfterModel(p, t.steps, input.reply))
      case Replied(content, calls) =>
        Local(Append(t, Assistant(content, calls)), RecordRound(h, content, calls), AfterReply(p, content, calls))
      case Calls(calls) =>
        if calls == [] then Local(t, h, At(LoopTop))
        else Local(SaveQueue(t, calls[1..]), h, At(Dispatching(calls[0], calls[1..])))
      case Dispatching(call, rest) => Local(t, h, Dispatch(p, call, rest))
      case Loading(call, rest, skill) =>
        Local(LoadSkill(t, skill.name), h, Answer(call, rest, SkillLoaded(skill.name, skill.text)))
      case Checking(call, rest, r) => Local(t, h, Check(p, t.loadedSkills, call, rest, r))
      case Executing(call, rest, r) => Local(t, RecordExecution(h, r, false), At(InShell(call, rest, r)))
      case InShell(call, rest, _) => Local(t, h, Answer(call, rest, ShellOutput(input.text)))
      case Parking(call, rest, r) =>
        Local(Park(t, PendingFor(call.id, r)), h, Thread([ApprovalRequired(call.id)], Gone))
      case Answering(call, rest, result) =>
        Local(Append(t, Tool(call.id, result)), RecordResult(h, result), At(Calls(rest)))
      case Completing(_) => Finish(p, t, h, x.thread.pc, At(Cancelling(TaskCompleted)))
      case Failing(_) => Finish(p, t, h, x.thread.pc, At(Cancelling(TaskFailed)))
      case Cancelling(e) => Local(Cancel(t), h, Thread([e], Gone))
      case ExecutingApproved(id, r) => Local(t, RecordExecution(h, r, true), At(InApprovedShell(id, r)))
      case InApprovedShell(id, _) => Local(t, h, At(Recording(id, ShellOutput(input.text))))
      case Recording(id, result) =>
        Local(Append(t, Tool(id, result)), RecordResult(h, result), Thread([ToolFinished(id)], HandOff))
      case Resuming =>
        if t.status != Running then Local(t, h, At(Gone))
        else Local(TakeQueue(t), h, At(if t.queuedCalls == [] then LoopTop else Calls(t.queuedCalls)))
      case WatchWait => Local(t, h, At(if t.ctx == Expired then WatchLock else Gone))
      case WatchLock => Finish(p, t, h, x.thread.pc, Thread([TaskFailed], Gone))
  }

  function AfterModel(p: Policy, step: nat, reply: Reply): Thread {
    match reply
    case ModelError(e) => Thread([ModelFinished(step, false)], Failing(MODEL_FAILURE_PREFIX + p.safeText(e, 500)))
    case Completion(content, calls) => Thread([ModelFinished(step, true)], Replied(content, calls))
  }

  /** A terminal write, skipped when the task is already terminal; `after` is how the writer goes on. */
  function Finish(p: Policy, t: Task, h: History, pc: Pc, after: Thread): Local
    requires pc.Completing? || pc.Failing? || pc.WatchLock?
  {
    Local(Close(t, EndingOf(p, pc)), RecordEnding(h, t, EndingOf(p, pc)), if Terminal(t.status) then At(Gone) else after)
  }

  /** How Decide goes on after its first section. */
  function DecideThread(v: Verdict, actor: string): Thread
    requires Accepted(v)
  {
    match v
    case Denied(c) => Thread([ApprovalDecided(c.callId, false, actor)], HandOff)
    case Refused(c, _) => Thread([ApprovalDecided(c.callId, true, actor), ToolFinished(c.callId)], HandOff)
    case Approved(c) =>
      Thread([ApprovalDecided(c.callId, true, actor), ToolStarted(c.callId)], ExecutingApproved(c.callId, RequestOf(c)))
  }

  function RecordVerdict(h: History, v: Verdict, actor: string): History {
    match v
    case Denied(c) => RecordResult(RecordDecision(h, c.callId, actor, false), DENIAL)
    case Refused(c, result) => RecordResult(RecordDecision(h, c.callId, actor, true), result)
    case Approved(c) => RecordDecision(h, c.callId, actor, true)
    case _ => h
  }

  // ----- The system -----

  datatype Sys = Sys(task: Task, hist: History, threads: map<nat, Thread>)

  datatype Action =
    | Advances(tid: nat, input: Input)
    | Spawns(tid: nat, runner: nat, watcher: nat)
    | HandsOff(tid: nat, resumer: nat)
    | Decides(tid: nat, actor: string, admin: bool, callId: string, approve: bool)
    | DeadlinePasses
    | Cancels
    | Reaps

  predicate Possible(s: Sys, a: Action) {
    match a
    case Advances(t, input) => t in s.threads && Ready(Local(s.task, s.hist, s.threads[t]), input)
    case Spawns(t, r, w) =>
      t in s.threads && s.threads[t] == At(Spawning) && r !in s.threads && w !in s.threads && r != w
    case HandsOff(t, r) => t in s.threads && s.threads[t] == At(HandOff) && r !in s.threads
    case Decides(t, _, _, _, _) => t !in s.threads
    case _ => true
  }

  /** The state that an accepted decision leaves: its caller's thread t goes on from there. */
  function Decided(s: Sys, t: nat, v: Verdict, actor: string): Sys
    requires Accepted(v)
  {
    Sys(AfterVerdict(s.task, v), RecordVerdict(s.hist, v, actor), s.threads[t := DecideThread(v, actor)])
  }

  function Apply(p: Policy, s: Sys, a: Action): Sys
    requires Possible(s, a)
  {
    match a
    case Advances(t, input) =>
      var x := Advance(p, Local(s.task, s.hist, s.threads[t]), input);
      Sys(x.task, x.hist, s.threads[t := x.thread])
    case Spawns(t, r, w) => s.(threads := s.threads[t := At(Gone)][r := At(LoopTop)][w := At(WatchWait)])
    case HandsOff(t, r) => s.(threads := s.threads[t := At(Gone)][r := At(Resuming)])
    case Decides(t, actor, admin, callId, approve) =>
      var v := Judge(p, s.task, actor, admin, callId, approve);
      if Accepted(v) then Decided(s, t, v, actor) else s
    case DeadlinePasses => s.(task := PassDeadline(s.task))
    case Cancels => s.(task := Cancel(s.task))
    case Reaps => s.(task := Reap(s.task))
  }

  function Initial(p: Policy): Sys {
    Sys(Fresh(p), History([], [], [], None), map[0 := Thread([TaskStarted], Spawning)])
  }

  /** The states that the actions lead through, first to last. */
  ghost predicate IsRun(p: Policy, states: seq<Sys>, actions: seq<Action>) {
    && |states| == |actions| + 1
    && states[0] == Initial(p)
    && forall i | 0 <= i < |actions| :: Possible(states[i], actions[i]) && states[i + 1] == Apply(p, states[i], actions[i])
  }

  ghost predicate Reachable(p: Policy, s: Sys) {
    exists states, actions :: IsRun(p, states, actions) && s == states[|states| - 1]
  }
}
