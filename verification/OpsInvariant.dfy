/** What every step of the task protocol keeps. */
module OpsInvariant {
  import opened Basics
  import opened OpsTask
  import opened OpsProtocol
  import opened OpsTranscript

  // ----- Who may move the task forward -----

  /** The thread is a runner or a decision in progress. */
  predicate Owns(th: Thread) {
    th.pc !in {WatchWait, WatchLock, Gone} && !th.pc.Cancelling?
  }

  /** No thread moves the task. */
  ghost predicate Resting(s: Sys) {
    forall t | t in s.threads :: !Owns(s.threads[t])
  }

  /** The thread is, or will start, the deadline watcher. */
  predicate Watches(th: Thread) {
    th.pc in {Spawning, WatchWait, WatchLock}
  }

  /** The thread still has to announce the end of the task. */
  predicate Announces(th: Thread) {
    th.pc.Cancelling? || exists k :: 0 <= k < |th.outbox| && TerminalEvent(th.outbox[k])
  }

  /** One owner: a single owning thread, or an unanswered pending command and no owning thread. */
  ghost predicate OneOwner(s: Sys) {
    && (forall t, u | t in s.threads && u in s.threads && Owns(s.threads[t]) && Owns(s.threads[u]) :: t == u)
    && (s.task.pending.Some? ==> forall t | t in s.threads :: !Owns(s.threads[t]))
  }

  // ----- What the owner may rely on -----

  /** Holds of the shared record and the history in every state. */
  ghost predicate Sound(p: Policy, t: Task, h: History) {
    && IsTranscript(p, t.messages, h.rounds)
    && LogsOk(p, h) && ExecutedBelow(h, true) && DecidedBelow(h, true)
    && |h.rounds| <= t.steps <= |h.rounds| + 1
    && t.steps <= p.maxSteps
  }

  /** No execution or decision concerns the call at the cursor yet. */
  ghost predicate Clear(h: History) {
    ExecutedBelow(h, false) && DecidedBelow(h, false)
  }

  /** call is next to be answered and the calls after it are saved. */
  ghost predicate AtCall(t: Task, h: History, call: ToolCall, rest: seq<ToolCall>) {
    && RoundsOk(h.rounds) && Unanswered(h) == [call] + rest
    && t.queuedCalls == rest
    && t.steps == |h.rounds|
  }

  ghost predicate AtApproved(t: Task, h: History, callId: string) {
    && RoundsOk(h.rounds) && Unanswered(h) != [] && Unanswered(h)[0].id == callId
    && t.queuedCalls == Unanswered(h)[1..]
    && t.steps == |h.rounds|
  }

  /** What holds when the owner stands at pc. */
  ghost predicate Holds(p: Policy, t: Task, h: History, pc: Pc) {
    match pc
    case Spawning => AllFinished(h) && t.steps == |h.rounds| && Clear(h)
    case LoopTop => AllFinished(h) && t.steps == |h.rounds| && Clear(h)
    case Asking(transcript) => AllFinished(h) && t.steps == |h.rounds| + 1 && Clear(h) && transcript == t.messages
    case Replied(_, _) => AllFinished(h) && t.steps == |h.rounds| + 1 && Clear(h)
    case Calls(calls) =>
      h.rounds != [] && RoundsOk(h.rounds) && Unanswered(h) == calls && t.steps == |h.rounds| && Clear(h)
    case Dispatching(call, rest) => AtCall(t, h, call, rest) && Clear(h)
    case Loading(call, rest, _) => AtCall(t, h, call, rest) && Clear(h)
    case Checking(call, rest, r) =>
      && AtCall(t, h, call, rest) && Clear(h)
      && call.name == "shell_exec" && p.decodeRequest(call.arguments) == Ok(r)
      && p.requestError(r).None? && p.serverError(r).None?
    case Executing(call, rest, r) =>
      AtCall(t, h, call, rest) && Clear(h) && Requests(p, call, r) && Valid(p, t.loadedSkills, r) && p.exempt(r.command)
    case InShell(call, rest, _) => AtCall(t, h, call, rest)
    case Parking(call, rest, r) =>
      AtCall(t, h, call, rest) && Clear(h) && Requests(p, call, r) && Valid(p, t.loadedSkills, r) && !p.exempt(r.command)
    case Answering(call, rest, _) => AtCall(t, h, call, rest)
    case Completing(_) => AllFinished(h) && t.steps == |h.rounds|
    case Failing(_) => AllFinished(h)
    case ExecutingApproved(id, r) =>
      && AtApproved(t, h, id) && ExecutedBelow(h, false)
      && Requests(p, Unanswered(h)[0], r) && Valid(p, t.loadedSkills, r) && !p.exempt(r.command)
      && exists k: nat :: DecidedBy(p, h, k, Cursor(h))
    case InApprovedShell(id, _) => AtApproved(t, h, id)
    case Recording(id, _) => AtApproved(t, h, id)
    case HandOff => h.rounds != [] && RoundsOk(h.rounds) && t.queuedCalls == Unanswered(h) && t.steps == |h.rounds| && Clear(h)
    case Resuming => h.rounds != [] && RoundsOk(h.rounds) && t.queuedCalls == Unanswered(h) && t.steps == |h.rounds| && Clear(h)
    case _ => true
  }

  /** What holds while a command waits for its decision. */
  ghost predicate Parked(p: Policy, t: Task, h: History)
    requires t.pending.Some?
  {
    var c := t.pending.value;
    && AtApproved(t, h, c.callId) && Clear(h)
    && Requests(p, Unanswered(h)[0], RequestOf(c))
    && Valid(p, t.loadedSkills, RequestOf(c))
    && !p.exempt(c.command)
  }

  ghost predicate Progress(p: Policy, s: Sys) {
    && Sound(p, s.task, s.hist)
    && (s.task.pending.Some? ==> Parked(p, s.task, s.hist))
    && forall t | t in s.threads && Owns(s.threads[t]) :: Holds(p, s.task, s.hist, s.threads[t].pc)
  }

  // ----- Steps of the owner -----

  ghost predicate OwnerFacts(p: Policy, x: Local) {
    Sound(p, x.task, x.hist) && x.task.pending.None? && Owns(x.thread) && Holds(p, x.task, x.hist, x.thread.pc)
  }

  ghost predicate AfterOwner(p: Policy, x: Local) {
    && Sound(p, x.task, x.hist)
    && (Owns(x.thread) ==> x.task.pending.None? && Holds(p, x.task, x.hist, x.thread.pc))
    && (x.task.pending.Some? ==> Parked(p, x.task, x.hist))
  }

  lemma LastAnswered(h: History)
    requires RoundsOk(h.rounds) && h.rounds != [] && Unanswered(h) == []
    ensures AllFinished(h)
  {
    var last := h.rounds[|h.rounds| - 1];
    assert |last.calls[|last.results|..]| == |last.calls| - |last.results|;
  }

  lemma RepliedStep(p: Policy, x: Local)
    requires OwnerFacts(p, x) && x.thread.outbox == [] && x.thread.pc.Replied?
    ensures AfterOwner(p, Advance(p, x, NoInput))
  {
    NewRound(p, x.task, x.hist, x.thread.pc.content, x.thread.pc.calls);
    NewRoundLogs(p, x.hist, x.thread.pc.content, x.thread.pc.calls);
  }

  lemma CallsStep(p: Policy, x: Local)
    requires OwnerFacts(p, x) && x.thread.outbox == [] && x.thread.pc.Calls?
    ensures AfterOwner(p, Advance(p, x, NoInput))
  {
    var calls := x.thread.pc.calls;
    if calls == [] {
      LastAnswered(x.hist);
    } else {
      assert calls == [calls[0]] + calls[1..];
    }
  }

  lemma AnsweringStep(p: Policy, x: Local)
    requires OwnerFacts(p, x) && x.thread.outbox == [] && x.thread.pc.Answering?
    ensures AfterOwner(p, Advance(p, x, NoInput))
  {
    AnsweredCall(p, x.task, x.hist, x.thread.pc.result);
    AnsweredLogs(p, x.hist, x.thread.pc.result);
    assert ([x.thread.pc.call] + x.thread.pc.rest)[1..] == x.thread.pc.rest;
  }

  lemma RecordingStep(p: Policy, x: Local)
    requires OwnerFacts(p, x) && x.thread.outbox == [] && x.thread.pc.Recording?
    ensures AfterOwner(p, Advance(p, x, NoInput))
  {
    AnsweredCall(p, x.task, x.hist, x.thread.pc.result);
    AnsweredLogs(p, x.hist, x.thread.pc.result);
  }

  lemma ExecutingStep(p: Policy, x: Local)
    requires OwnerFacts(p, x) && x.thread.outbox == [] && (x.thread.pc.Executing? || x.thread.pc.ExecutingApproved?)
    ensures AfterOwner(p, Advance(p, x, NoInput))
  {
    ExecutedLogs(p, x.hist, x.thread.pc.request, x.thread.pc.ExecutingApproved?);
  }

  lemma ParkingStep(p: Policy, x: Local)
    requires OwnerFacts(p, x) && x.thread.outbox == [] && x.thread.pc.Parking?
    ensures AfterOwner(p, Advance(p, x, NoInput))
  {
    var pc := x.thread.pc;
    assert ([pc.call] + pc.rest)[1..] == pc.rest;
    assert RequestOf(PendingFor(pc.call.id, pc.request)) == pc.request;
  }

  /** dispatch answers at once, loads a skill, or has a request that passed both early validators. */
  lemma DispatchCases(p: Policy, call: ToolCall, rest: seq<ToolCall>) returns (result: ToolResult)
    ensures var pc := Dispatch(p, call, rest).pc;
      || Dispatch(p, call, rest) == Answer(call, rest, result)
      || (pc.Loading? && pc.call == call && pc.rest == rest)
      || (pc.Checking? && pc.call == call && pc.rest == rest
          && call.name == "shell_exec" && p.decodeRequest(call.arguments) == Ok(pc.request)
          && p.requestError(pc.request).None? && p.serverError(pc.request).None?)
  {
    var pc := Dispatch(p, call, rest).pc;
    result := if pc.Answering? then pc.result else DENIAL;
  }

  lemma DispatchingStep(p: Policy, x: Local)
    requires OwnerFacts(p, x) && x.thread.outbox == [] && x.thread.pc.Dispatching?
    ensures AfterOwner(p, Advance(p, x, NoInput))
  {
    var result := DispatchCases(p, x.thread.pc.call, x.thread.pc.rest);
  }

  lemma CheckingStep(p: Policy, x: Local)
    requires OwnerFacts(p, x) && x.thread.outbox == [] && x.thread.pc.Checking?
    ensures AfterOwner(p, Advance(p, x, NoInput))
  {
  }

  /** The remaining sections leave the transcript and the logs alone. */
  lemma PlainStep(p: Policy, x: Local, input: Input)
    requires OwnerFacts(p, x) && x.thread.outbox == [] && Ready(x, input)
    requires var pc := x.thread.pc; pc.Loading? || pc.InShell? || pc.LoopTop? || pc.Asking? || pc.InApprovedShell?
    ensures AfterOwner(p, Advance(p, x, input))
  {
    var x' := Advance(p, x, input);
    assert x'.hist == x.hist && x'.task.messages == x.task.messages;
  }

  lemma EndingStep(p: Policy, x: Local)
    requires OwnerFacts(p, x) && x.thread.outbox == [] && (x.thread.pc.Completing? || x.thread.pc.Failing?)
    ensures AfterOwner(p, Advance(p, x, NoInput))
  {
    SoundFrame(p, x.task, Advance(p, x, NoInput).task, x.hist, Advance(p, x, NoInput).hist);
  }

  lemma EmittingStep(p: Policy, x: Local)
    requires OwnerFacts(p, x) && x.thread.outbox != []
    ensures AfterOwner(p, Advance(p, x, NoInput))
  {
    var x' := Advance(p, x, NoInput);
    SoundFrame(p, x.task, x'.task, x.hist, x'.hist);
    HoldsFrame(p, x.task, x'.task, x.hist, x'.hist, x.thread.pc);
  }

  lemma ResumingStep(p: Policy, x: Local)
    requires OwnerFacts(p, x) && x.thread.outbox == [] && x.thread.pc.Resuming?
    ensures AfterOwner(p, Advance(p, x, NoInput))
  {
    if x.task.queuedCalls == [] {
      LastAnswered(x.hist);
    }
  }

  lemma OwnerStep(p: Policy, x: Local, input: Input)
    requires OwnerFacts(p, x) && Ready(x, input)
    ensures AfterOwner(p, Advance(p, x, input))
  {
    if x.thread.outbox != [] {
      EmittingStep(p, x);
    } else {
      match x.thread.pc
      case Replied(_, _) => RepliedStep(p, x);
      case Calls(_) => CallsStep(p, x);
      case Dispatching(_, _) => DispatchingStep(p, x);
      case Checking(_, _, _) => CheckingStep(p, x);
      case Executing(_, _, _) => ExecutingStep(p, x);
      case Parking(_, _, _) => ParkingStep(p, x);
      case Answering(_, _, _) => AnsweringStep(p, x);
      case Completing(_) => EndingStep(p, x);
      case Failing(_) => EndingStep(p, x);
      case ExecutingApproved(_, _) => ExecutingStep(p, x);
      case Recording(_, _) => RecordingStep(p, x);
      case Resuming => ResumingStep(p, x);
      case LoopTop => PlainStep(p, x, input);
      case Asking(_) => PlainStep(p, x, input);
      case Loading(_, _, _) => PlainStep(p, x, input);
      case InShell(_, _, _) => PlainStep(p, x, input);
      case InApprovedShell(_, _) => PlainStep(p, x, input);
      case Spawning =>
      case HandOff =>
      case Cancelling(_) =>
      case WatchWait =>
      case WatchLock =>
      case Gone =>
    }
  }

  // ----- Other steps -----

  /** The fields that only the owner, or an accepted decision, writes. */
  predicate SameWork(t: Task, t': Task) {
    && t'.pending == t.pending && t'.messages == t.messages && t'.queuedCalls == t.queuedCalls
    && t'.loadedSkills == t.loadedSkills && t'.steps == t.steps
  }

  predicate SameLogs(h: History, h': History) {
    h'.rounds == h.rounds && h'.executions == h.executions && h'.decisions == h.decisions
  }

  lemma BystanderStep(p: Policy, x: Local, input: Input)
    requires Ready(x, input) && !Owns(x.thread)
    ensures var x' := Advance(p, x, input);
      SameWork(x.task, x'.task) && SameLogs(x.hist, x'.hist) && !Owns(x'.thread)
  {
  }

  lemma HoldsFrame(p: Policy, t: Task, t': Task, h: History, h': History, pc: Pc)
    requires SameWork(t, t') && SameLogs(h, h') && Holds(p, t, h, pc)
    ensures Holds(p, t', h', pc)
  {
    if pc.ExecutingApproved? {
      var k: nat :| DecidedBy(p, h, k, Cursor(h));
      assert DecidedBy(p, h', k, Cursor(h'));
    }
  }

  lemma SoundFrame(p: Policy, t: Task, t': Task, h: History, h': History)
    requires SameWork(t, t') && SameLogs(h, h') && Sound(p, t, h)
    ensures Sound(p, t', h')
  {
    LogsStay(p, h, h');
  }
}
