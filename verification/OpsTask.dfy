/**
 The record one operations task shares between its goroutines, and the critical sections that change it.
 Each section is a function on Task; the methods of TaskState do the same to the mutable record.
 */
module OpsTask {
  import opened Basics

  datatype ToolCall = ToolCall(id: string, name: string, arguments: string)

  datatype ShellRequest = ShellRequest(target: string, command: string, reason: string, timeoutSeconds: int)

  datatype PendingCommand =
    PendingCommand(callId: string, target: string, command: string, reason: string, timeoutSeconds: int)

  /** The request Decide rebuilds from the pending command. */
  function RequestOf(p: PendingCommand): ShellRequest {
    ShellRequest(p.target, p.command, p.reason, p.timeoutSeconds)
  }

  function PendingFor(callId: string, r: ShellRequest): PendingCommand {
    PendingCommand(callId, r.target, r.command, r.reason, r.timeoutSeconds)
  }

  datatype ToolResult =
    | ToolError(code: string, message: string)
    | SkillList(text: string)
    | SkillLoaded(name: string, text: string)
    | ShellOutput(text: string)

  datatype Message =
    | System(content: string)
    | User(content: string)
    | Assistant(content: string, calls: seq<ToolCall>)
    | Tool(callId: string, result: ToolResult)

  datatype Reply = ModelError(error: string) | Completion(content: string, calls: seq<ToolCall>)

  datatype Status = Running | AwaitingApproval | Completed | Failed

  predicate Terminal(s: Status) { s == Completed || s == Failed }

  /** The task context: it ends once, by its deadline or by a cancellation, whichever is first. */
  datatype Context = Live | Cancelled | Expired

  datatype Event =
    | TaskStarted
    | ModelStarted(step: nat)
    | ModelFinished(step: nat, ok: bool)
    | AssistantMessage(content: string)
    | ToolStarted(callId: string)
    | ToolFinished(callId: string)
    | ApprovalRequired(callId: string)
    | ApprovalDecided(callId: string, approved: bool, actor: string)
    | TaskCompleted
    | TaskFailed

  datatype Ending = Answered(text: string) | Stopped(text: string)

  predicate TerminalEvent(e: Event) { e == TaskCompleted || e == TaskFailed }

  datatype Skill = Skill(name: string, text: string)

  /** What does not change while a task runs. The validators and decoders are arbitrary functions. */
  datatype Policy = Policy(
    maxSteps: nat,
    creator: string,
    serverId: string,
    systemPrompt: string,
    question: string,
    skillList: string,
    decodeSkillName: string -> Result<string, string>,
    findSkill: string -> Option<Skill>,
    decodeRequest: string -> Result<ShellRequest, string>,
    requestError: ShellRequest -> Option<string>,
    serverError: ShellRequest -> Option<string>,
    skillError: (set<string>, ShellRequest) -> Option<string>,
    exempt: string -> bool,
    safeText: (string, nat) -> string)

  datatype Task = Task(
    status: Status,
    pending: Option<PendingCommand>,
    messages: seq<Message>,
    queuedCalls: seq<ToolCall>,
    loadedSkills: set<string>,
    steps: nat,
    finalAnswer: string,
    error: string,
    events: seq<Event>,
    ctx: Context,
    listed: bool)

  function Fresh(p: Policy): Task {
    Task(Running, None, [System(p.systemPrompt), User(p.question)], [], {}, 0, "", "", [], Live, true)
  }

  // ----- Critical sections -----

  predicate StepsLeft(p: Policy, t: Task) { t.steps < p.maxSteps }

  function BeginStep(t: Task): Task { t.(steps := t.steps + 1) }

  function Append(t: Task, m: Message): Task { t.(messages := t.messages + [m]) }

  function SaveQueue(t: Task, rest: seq<ToolCall>): Task { t.(queuedCalls := rest) }

  function LoadSkill(t: Task, name: string): Task { t.(loadedSkills := t.loadedSkills + {name}) }

  function Park(t: Task, p: PendingCommand): Task { t.(pending := Some(p), status := AwaitingApproval) }

  function TakeQueue(t: Task): Task { t.(queuedCalls := []) }

  /** complete, fail and the deadline watcher write a terminal status only over a task that is not terminal. */
  function Close(t: Task, end: Ending): Task {
    if Terminal(t.status) then t
    else if end.Answered? then t.(status := Completed, finalAnswer := end.text)
    else t.(status := Failed, error := end.text)
  }

  function Emit(t: Task, e: Event): Task { if t.listed then t.(events := t.events + [e]) else t }

  function Cancel(t: Task): Task { if t.ctx == Live then t.(ctx := Cancelled) else t }

  function PassDeadline(t: Task): Task { if t.ctx == Live then t.(ctx := Expired) else t }

  function Reap(t: Task): Task { Cancel(t).(listed := false) }

  /** What the first critical section of Decide finds. */
  datatype Verdict =
    | NotAdmin
    | NotFound
    | NotOwner
    | TaskExpired
    | NotWaiting
    | Denied(pending: PendingCommand)
    | Refused(pending: PendingCommand, result: ToolResult)
    | Approved(pending: PendingCommand)

  predicate Accepted(v: Verdict) { v.Denied? || v.Refused? || v.Approved? }

  const DEADLINE_MESSAGE := "本次运维任务超过最大执行时间"

  const DENIAL := ToolError("COMMAND_DENIED", "用户拒绝执行该命令")

  /** The three validators in the order Decide repeats them. */
  function Revalidate(p: Policy, loaded: set<string>, r: ShellRequest): Option<ToolResult> {
    if p.requestError(r).Some? then Some(ToolError("COMMAND_REJECTED", p.requestError(r).value))
    else if p.serverError(r).Some? then Some(ToolError("COMMAND_REJECTED", p.serverError(r).value))
    else if p.skillError(loaded, r).Some? then Some(ToolError("SKILL_REQUIRED", p.skillError(loaded, r).value))
    else None
  }

  function Judge(p: Policy, t: Task, actor: string, admin: bool, callId: string, approve: bool): Verdict {
    if !admin then NotAdmin
    else if !t.listed then NotFound
    else if actor != p.creator then NotOwner
    else if t.ctx != Live then TaskExpired
    else if t.status != AwaitingApproval || t.pending.None? || t.pending.value.callId != callId then NotWaiting
    else
      var pending := t.pending.value;
      if !approve then Denied(pending)
      else
        var refusal := Revalidate(p, t.loadedSkills, RequestOf(pending));
        if refusal.Some? then Refused(pending, refusal.value) else Approved(pending)
  }

  /** The state the section leaves: an accepted decision takes the pending command over. */
  function AfterVerdict(t: Task, v: Verdict): Task {
    match v
    case Denied(c) => Append(t.(pending := None, status := Running), Tool(c.callId, DENIAL))
    case Refused(c, result) => Append(t.(pending := None, status := Running), Tool(c.callId, result))
    case Approved(c) => t.(pending := None, status := Running)
    case _ => t
  }

  /** The mutable record behind the mutex. */
  class TaskState {
    const policy: Policy
    var status: Status
    var pending: Option<PendingCommand>
    var messages: seq<Message>
    var queuedCalls: seq<ToolCall>
    var loadedSkills: set<string>
    var steps: nat
    var finalAnswer: string
    var error: string
    var events: seq<Event>
    var ctx: Context
    var listed: bool

    ghost function Value(): Task
      reads this
    {
      Task(status, pending, messages, queuedCalls, loadedSkills, steps, finalAnswer, error, events, ctx, listed)
    }

    constructor (p: Policy)
      ensures policy == p && Value() == Fresh(p)
    {
      policy := p;
      status, pending := Running, None;
      messages := [System(p.systemPrompt), User(p.question)];
      queuedCalls, loadedSkills, steps := [], {}, 0;
      finalAnswer, error := "", "";
      events, ctx, listed := [], Live, true;
    }

    /** The head of runLoop: counts the step and copies the transcript for the model. */
    method NextStep() returns (ok: bool, transcript: seq<Message>)
      modifies this
      ensures ok == StepsLeft(policy, old(Value()))
      ensures Value() == if ok then BeginStep(old(Value())) else old(Value())
      ensures transcript == messages
    {
      transcript := messages;
      if steps >= policy.maxSteps {
        return false, transcript;
      }
      steps := steps + 1;
      ok := true;
    }

    method AppendMessage(m: Message)
      modifies this
      ensures Value() == Append(old(Value()), m)
    {
      messages := messages + [m];
    }

    method SaveRemaining(rest: seq<ToolCall>)
      modifies this
      ensures Value() == SaveQueue(old(Value()), rest)
    {
      queuedCalls := rest;
    }

    method AddSkill(name: string)
      modifies this
      ensures Value() == LoadSkill(old(Value()), name)
    {
      loadedSkills := loadedSkills + {name};
    }

    method AwaitApproval(callId: string, request: ShellRequest)
      modifies this
      ensures Value() == Park(old(Value()), PendingFor(callId, request))
    {
      pending := Some(PendingFor(callId, request));
      status := AwaitingApproval;
    }

    method TakeQueued() returns (ok: bool, calls: seq<ToolCall>)
      modifies this
      ensures ok == (old(status) == Running)
      ensures Value() == if ok then TakeQueue(old(Value())) else old(Value())
      ensures ok ==> calls == old(queuedCalls)
    {
      if Terminal(status) || status != Running {
        return false, [];
      }
      calls, queuedCalls := queuedCalls, [];
      ok := true;
    }

    /** complete and fail, up to their unlock. */
    method Complete(answer: string) returns (changed: bool)
      modifies this
      ensures changed == !Terminal(old(status))
      ensures Value() == Close(old(Value()), Answered(policy.safeText(answer, 32000)))
    {
      var text := policy.safeText(answer, 32000);
      if Terminal(status) {
        return false;
      }
      status := Completed;
      finalAnswer := text;
      changed := true;
    }

    method Fail(message: string) returns (changed: bool)
      modifies this
      ensures changed == !Terminal(old(status))
      ensures Value() == Close(old(Value()), Stopped(policy.safeText(message, 1000)))
    {
      var text := policy.safeText(message, 1000);
      if Terminal(status) {
        return false;
      }
      status := Failed;
      error := text;
      changed := true;
    }

    /** The deadline watcher's section, which tests for the two open statuses instead. */
    method FailOnDeadline() returns (changed: bool)
      modifies this
      ensures changed == !Terminal(old(status))
      ensures Value() == Close(old(Value()), Stopped(DEADLINE_MESSAGE))
    {
      if status != Running && status != AwaitingApproval {
        return false;
      }
      status := Failed;
      error := DEADLINE_MESSAGE;
      changed := true;
    }

    method CancelContext()
      modifies this
      ensures Value() == Cancel(old(Value()))
    {
      if ctx == Live {
        ctx := Cancelled;
      }
    }

    /** The part of emit under the lock; delivery is in EventLog. */
    method AppendEvent(e: Event)
      modifies this
      ensures Value() == Emit(old(Value()), e)
    {
      if listed {
        events := events + [e];
      }
    }

    /** Decide up to its first unlock. */
    method TakeDecision(actor: string, admin: bool, callId: string, approve: bool) returns (v: Verdict)
      modifies this
      ensures v == Judge(policy, old(Value()), actor, admin, callId, approve)
      ensures Value() == AfterVerdict(old(Value()), v)
    {
      if !admin {
        return NotAdmin;
      }
      if !listed {
        return NotFound;
      }
      if policy.creator != actor {
        return NotOwner;
      }
      if ctx != Live {
        return TaskExpired;
      }
      if status != AwaitingApproval || pending.None? || pending.value.callId != callId {
        return NotWaiting;
      }
      var command := pending.value;
      pending := None;
      status := Running;
      if !approve {
        messages := messages + [Tool(command.callId, DENIAL)];
        return Denied(command);
      }
      var request := ShellRequest(command.target, command.command, command.reason, command.timeoutSeconds);
      var error := policy.requestError(request);
      var code := "COMMAND_REJECTED";
      if error.None? {
        error := policy.serverError(request);
      }
      if error.None? {
        error, code := policy.skillError(loadedSkills, request), "SKILL_REQUIRED";
      }
      if error.Some? {
        var result := ToolError(code, error.value);
        messages := messages + [Tool(command.callId, result)];
        return Refused(command, result);
      }
      return Approved(command);
    }
  }
}
