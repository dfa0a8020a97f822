/**
 The task as one would run it by hand: a loop that asks the model, answers its calls one after the other
 and asks for each approval on the spot. Replies, decisions and shell outputs come from oracles.
 */
module OpsSequential {
  import opened Basics
  import opened OpsTask
  import opened OpsProtocol

  datatype Oracles = Oracles(
    model: (nat, seq<Message>) -> Reply,
    decide: Slot -> bool,
    shell: (Slot, ShellRequest) -> string)

  /** `open` are the calls of the last round without a result; `answered` of its calls have one. */
  datatype State = State(
    messages: seq<Message>,
    loadedSkills: set<string>,
    steps: nat,
    executions: seq<Execution>,
    rounds: nat,
    answered: nat,
    open: seq<ToolCall>,
    ending: Option<Ending>)

  function Start(p: Policy): State {
    State([System(p.systemPrompt), User(p.question)], {}, 0, [], 0, 0, [], None)
  }

  function Place(q: State): Slot {
    if q.rounds == 0 then Slot(0, 0) else Slot(q.rounds - 1, q.answered)
  }

  function GiveAnswer(q: State, callId: string, result: ToolResult): State {
    q.(messages := q.messages + [Tool(callId, result)],
       answered := q.answered + 1,
       open := if q.open == [] then [] else q.open[1..])
  }

  function RunShell(o: Oracles, q: State, callId: string, r: ShellRequest, approved: bool): State {
    GiveAnswer(q.(executions := q.executions + [Execution(Place(q), r, approved)]), callId, ShellOutput(o.shell(Place(q), r)))
  }

  function AnswerShell(p: Policy, o: Oracles, q: State, call: ToolCall, r: ShellRequest): State {
    if p.requestError(r).Some? then GiveAnswer(q, call.id, ToolError("COMMAND_REJECTED", p.requestError(r).value))
    else if p.serverError(r).Some? then GiveAnswer(q, call.id, ToolError("COMMAND_REJECTED", p.serverError(r).value))
    else if p.skillError(q.loadedSkills, r).Some? then
      GiveAnswer(q, call.id, ToolError("SKILL_REQUIRED", p.skillError(q.loadedSkills, r).value))
    else if r.target == "current-server" && p.serverId == "" then
      GiveAnswer(q, call.id, ToolError("SERVER_REQUIRED", "当前任务没有固定服务器"))
    else if p.exempt(r.command) then RunShell(o, q, call.id, r, false)
    else if o.decide(Place(q)) then RunShell(o, q, call.id, r, true)
    else GiveAnswer(q, call.id, DENIAL)
  }

  function AnswerCall(p: Policy, o: Oracles, q: State, call: ToolCall): State {
    if call.name == "list_skills" then GiveAnswer(q, call.id, SkillList(p.skillList))
    else if call.name == "load_skill" then
      match p.decodeSkillName(call.arguments) {
        case Err(e) => GiveAnswer(q, call.id, ToolError("INVALID_ARGUMENTS", e))
        case Ok(name) =>
          match p.findSkill(name)
          case None => GiveAnswer(q, call.id, ToolError("SKILL_NOT_FOUND", "Skill 不存在"))
          case Some(skill) =>
            GiveAnswer(q.(loadedSkills := q.loadedSkills + {skill.name}), call.id, SkillLoaded(skill.name, skill.text))
      }
    else if call.name == "shell_exec" then
      match p.decodeRequest(call.arguments) {
        case Err(e) => GiveAnswer(q, call.id, ToolError("INVALID_ARGUMENTS", e))
        case Ok(r) => AnswerShell(p, o, q, call, r)
      }
    else GiveAnswer(q, call.id, ToolError("TOOL_NOT_ALLOWED", "工具不在 Agent 白名单中"))
  }

  /** What a model reply does once the step is counted. */
  function TakeReply(p: Policy, q: State, reply: Reply): State {
    match reply
    case ModelError(e) => q.(ending := Some(Stopped(p.safeText(MODEL_FAILURE_PREFIX + p.safeText(e, 500), 1000))))
    case Completion(content, calls) =>
      q.(messages := q.messages + [Assistant(content, calls)],
         rounds := q.rounds + 1, answered := 0, open := calls,
         ending := if calls == [] then Some(Answered(p.safeText(content, 32000))) else None)
  }

  /** One call, or one model request when no call is open. */
  function Turn(p: Policy, o: Oracles, q: State): State
    requires q.ending.None?
  {
    if q.open != [] then AnswerCall(p, o, q, q.open[0])
    else if q.steps >= p.maxSteps then q.(ending := Some(Stopped(p.safeText(STEP_LIMIT_MESSAGE, 1000))))
    else TakeReply(p, q.(steps := q.steps + 1), o.model(q.steps + 1, q.messages))
  }

  function StepsLeftOver(p: Policy, q: State): nat {
    if q.steps <= p.maxSteps then p.maxSteps - q.steps else 0
  }

  /** A turn ends the task, spends a step, or answers a call at no step: the order the interpreter descends. */
  lemma TurnDescends(p: Policy, o: Oracles, q: State)
    requires q.ending.None?
    ensures var q' := Turn(p, o, q);
      || q'.ending.Some?
      || StepsLeftOver(p, q') < StepsLeftOver(p, q)
      || (StepsLeftOver(p, q') == StepsLeftOver(p, q) && |q'.open| < |q.open|)
  {
    var q' := Turn(p, o, q);
    if q.open != [] {
      assert q'.steps == q.steps && |q'.open| == |q.open| - 1;
    }
  }

  /** The interpreter run to its end; it always ends. */
  function Outcome(p: Policy, o: Oracles, q: State): State
    decreases q.ending.None?, StepsLeftOver(p, q), |q.open|
  {
    if q.ending.Some? then q
    else
      TurnDescends(p, o, q);
      Outcome(p, o, Turn(p, o, q))
  }

  function Turns(p: Policy, o: Oracles, q: State, n: nat): State
    decreases n
  {
    if n == 0 || q.ending.Some? then q else Turns(p, o, Turn(p, o, q), n - 1)
  }

  lemma {:induction false} OneMoreTurn(p: Policy, o: Oracles, q: State, n: nat)
    requires Turns(p, o, q, n).ending.None?
    ensures Turns(p, o, q, n + 1) == Turn(p, o, Turns(p, o, q, n))
    ensures Outcome(p, o, Turns(p, o, q, n + 1)) == Outcome(p, o, Turns(p, o, q, n))
    decreases n
  {
    if n > 0 && q.ending.None? {
      OneMoreTurn(p, o, Turn(p, o, q), n - 1);
    }
  }

  lemma {:induction false} TurnsOutcome(p: Policy, o: Oracles, q: State, n: nat)
    ensures Outcome(p, o, Turns(p, o, q, n)) == Outcome(p, o, q)
    decreases n
  {
    if n > 0 && q.ending.None? {
      TurnsOutcome(p, o, Turn(p, o, q), n - 1);
    }
  }
}
