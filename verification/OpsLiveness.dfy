/**
 Whether a task that has not ended can still end. Its own work ends it while decisions come in; a deadline
 ends it while the context has not been cancelled; and a cancelled task is lost exactly when its way leads to
 a command that waits for a decision.
 */
module OpsLiveness {
  import opened Basics
  import opened OpsTask
  import opened OpsProtocol
  import opened OpsTranscript
  import opened OpsInvariant
  import opened OpsSafety
  import opened OpsEndings
  import opened OpsRuns
  import opened OpsSequential
  import opened OpsRefinement
  import opened OpsBound

  /** The actions lead from s to s'. */
  ghost predicate Leads(p: Policy, s: Sys, actions: seq<Action>, s': Sys)
    decreases |actions|
  {
    if actions == [] then s' == s
    else Possible(s, actions[0]) && Leads(p, Apply(p, s, actions[0]), actions[1..], s')
  }

  ghost predicate CanEnd(p: Policy, s: Sys) {
    exists actions, s' :: Leads(p, s, actions, s') && s'.hist.ending.Some?
  }

  lemma ReachableNext(p: Policy, s: Sys, a: Action)
    requires Reachable(p, s) && Possible(s, a)
    ensures Reachable(p, Apply(p, s, a))
  {
    var states, actions :| IsRun(p, states, actions) && s == states[|states| - 1];
    var states', actions' := states + [Apply(p, s, a)], actions + [a];
    forall i | 0 <= i < |actions'|
      ensures Possible(states'[i], actions'[i]) && states'[i + 1] == Apply(p, states'[i], actions'[i])
    {
      if i < |actions| {
        assert states'[i] == states[i] && states'[i + 1] == states[i + 1] && actions'[i] == actions[i];
      }
    }
    assert IsRun(p, states', actions');
    assert states'[|states'| - 1] == Apply(p, s, a);
  }

  // ----- The deadline -----

  /** Until the task has ended or its context was cancelled, a thread watches the deadline or will start to. */
  ghost predicate Watched(s: Sys) {
    s.hist.ending.None? && s.task.ctx != Cancelled ==> exists t :: t in s.threads && Watches(s.threads[t])
  }

  /** A watcher stops only when the context was cancelled or the task has ended. */
  lemma WatcherStops(p: Policy, x: Local, input: Input)
    requires Ready(x, input) && Watches(x.thread)
    requires x.hist.ending.None? ==> !Terminal(x.task.status)
    ensures var x' := Advance(p, x, input);
      Watches(x'.thread) || x'.hist.ending.Some? || x'.task.ctx == Cancelled
  {
  }

  /** A cancelled context stays cancelled, and an ending stays. */
  lemma ContextStep(p: Policy, s: Sys, a: Action)
    requires Possible(s, a)
    ensures var s' := Apply(p, s, a);
      && (s.task.ctx == Cancelled ==> s'.task.ctx == Cancelled)
      && (s.hist.ending.Some? ==> s'.hist.ending.Some?)
  {
  }

  /** The watcher t after an action: itself, one it started, or unchanged. */
  lemma WatcherAfter(p: Policy, s: Sys, a: Action, t: nat) returns (t': nat)
    requires Possible(s, a) && t in s.threads && Watches(s.threads[t])
    requires s.hist.ending.None? && !Terminal(s.task.status)
    ensures var s' := Apply(p, s, a);
      s'.hist.ending.Some? || s'.task.ctx == Cancelled || (t' in s'.threads && Watches(s'.threads[t']))
  {
    t' := if a.Spawns? && a.tid == t then a.watcher else t;
    if a.Advances? && a.tid == t {
      WatcherStops(p, Local(s.task, s.hist, s.threads[t]), a.input);
    }
  }

  lemma WatchedKept(p: Policy, s: Sys, a: Action)
    requires EndedOnce(s) && Watched(s) && Possible(s, a)
    ensures Watched(Apply(p, s, a))
  {
    ContextStep(p, s, a);
    if s.hist.ending.None? && s.task.ctx != Cancelled {
      var t :| t in s.threads && Watches(s.threads[t]);
      var t' := WatcherAfter(p, s, a, t);
    }
  }

  lemma {:induction false} RunWatched(p: Policy, states: seq<Sys>, actions: seq<Action>, i: nat)
    requires IsRun(p, states, actions) && i < |states|
    ensures Watched(states[i])
  {
    if i == 0 {
      assert Watches(Initial(p).threads[0]);
    } else {
      RunWatched(p, states, actions, i - 1);
      RunInv(p, states, actions, i - 1);
      WatchedKept(p, states[i - 1], actions[i - 1]);
    }
  }

  /** In every reachable state. */
  lemma AlwaysWatched(p: Policy, s: Sys)
    requires Reachable(p, s)
    ensures Watched(s)
  {
    var states, actions :| IsRun(p, states, actions) && s == states[|states| - 1];
    RunWatched(p, states, actions, |states| - 1);
  }

  /** How far a watcher is from writing the end. */
  function WatchRank(th: Thread): nat {
    |th.outbox| + match th.pc
      case Spawning => 3
      case WatchWait => 2
      case _ => 1
  }

  /** The deadline passes, or the watcher takes its next step; nothing else is needed. */
  ghost predicate OnlyWatches(s: Sys, a: Action) {
    match a
    case DeadlinePasses => true
    case Advances(t, _) => t in s.threads && Watches(s.threads[t])
    case Spawns(_, _, _) => true
    case _ => false
  }

  ghost predicate LeadsByWatch(p: Policy, s: Sys, actions: seq<Action>, s': Sys)
    decreases |actions|
  {
    if actions == [] then s' == s
    else
      && Possible(s, actions[0]) && OnlyWatches(s, actions[0])
      && LeadsByWatch(p, Apply(p, s, actions[0]), actions[1..], s')
  }

  /** With the deadline passed, the next step of the watcher t writes the end or brings a watcher closer to it. */
  lemma WatcherMoves(p: Policy, s: Sys, t: nat) returns (a: Action, t': nat)
    requires s.task.ctx == Expired && s.hist.ending.None? && !Terminal(s.task.status)
    requires t in s.threads && Watches(s.threads[t])
    ensures Possible(s, a) && OnlyWatches(s, a)
    ensures var s' := Apply(p, s, a);
      && s'.task.ctx == Expired && s'.task.pending == s.task.pending
      && if s'.hist.ending.Some? then s'.hist.ending == Some(Stopped(DEADLINE_MESSAGE)) && s'.task.status == Failed
         else !Terminal(s'.task.status) && t' in s'.threads && Watches(s'.threads[t'])
              && WatchRank(s'.threads[t']) < WatchRank(s.threads[t])
  {
    t' := t;
    if s.threads[t] == At(Spawning) {
      var n := AboveAll(s.threads.Keys);
      a, t' := Spawns(t, n, n + 1), n + 1;
    } else {
      a := Advances(t, NoInput);
    }
  }

  lemma {:induction false} WatcherEnds(p: Policy, s: Sys, t: nat) returns (actions: seq<Action>, s': Sys)
    requires s.task.ctx == Expired && s.hist.ending.None? && !Terminal(s.task.status)
    requires t in s.threads && Watches(s.threads[t])
    ensures LeadsByWatch(p, s, actions, s')
    ensures s'.hist.ending == Some(Stopped(DEADLINE_MESSAGE)) && s'.task.status == Failed
    ensures s'.task.pending == s.task.pending
    decreases WatchRank(s.threads[t])
  {
    var a, t' := WatcherMoves(p, s, t);
    var next := Apply(p, s, a);
    if next.hist.ending.Some? {
      actions, s' := [a], next;
      assert [a][1..] == [];
    } else {
      var rest;
      rest, s' := WatcherEnds(p, next, t');
      actions := [a] + rest;
      assert actions[1..] == rest;
    }
  }

  /**
   Whatever its owner does, and also while a command waits for its decision, a task whose context was not
   cancelled is ended by its deadline and the watcher alone: it is failed with the deadline's message. A
   command that waited stays in the record.
   */
  lemma DeadlineEnds(p: Policy, s: Sys) returns (actions: seq<Action>, s': Sys)
    requires Reachable(p, s) && s.hist.ending.None? && s.task.ctx != Cancelled
    ensures LeadsByWatch(p, s, actions, s')
    ensures s'.hist.ending == Some(Stopped(DEADLINE_MESSAGE)) && s'.task.status == Failed
    ensures s'.task.pending == s.task.pending
  {
    ReachableInv(p, s);
    AlwaysWatched(p, s);
    var t :| t in s.threads && Watches(s.threads[t]);
    if s.task.ctx == Live {
      var rest;
      rest, s' := WatcherEnds(p, Apply(p, s, DeadlinePasses), t);
      actions := [DeadlinePasses] + rest;
      assert actions[1..] == rest;
    } else {
      actions, s' := WatcherEnds(p, s, t);
    }
  }

  lemma {:induction false} WatchLeads(p: Policy, s: Sys, actions: seq<Action>, s': Sys)
    requires LeadsByWatch(p, s, actions, s')
    ensures Leads(p, s, actions, s')
    decreases |actions|
  {
    if actions != [] {
      WatchLeads(p, Apply(p, s, actions[0]), actions[1..], s');
    }
  }

  // ----- Where the owner's way leads -----

  /** With these skills loaded the call is neither answered at once nor exempt: it waits for a decision. */
  predicate ParksAt(p: Policy, loaded: set<string>, call: ToolCall) {
    match p.decodeRequest(call.arguments)
    case Ok(r) => Requests(p, call, r) && Valid(p, loaded, r) && !p.exempt(r.command)
    case Err(_) => false
  }

  function LoadedBy(p: Policy, loaded: set<string>, call: ToolCall): set<string> {
    if call.name != "load_skill" then loaded
    else match p.decodeSkillName(call.arguments)
      case Err(_) => loaded
      case Ok(name) => match p.findSkill(name)
        case None => loaded
        case Some(skill) => loaded + {skill.name}
  }

  predicate ParksIn(p: Policy, loaded: set<string>, calls: seq<ToolCall>)
    decreases |calls|
  {
    calls != [] && (ParksAt(p, loaded, calls[0]) || ParksIn(p, LoadedBy(p, loaded, calls[0]), calls[1..]))
  }

  /** Before it asks the model again, a thread at pc comes to a command that waits for a decision. */
  predicate ParksAhead(p: Policy, t: Task, pc: Pc) {
    match pc
    case Calls(calls) => ParksIn(p, t.loadedSkills, calls)
    case Replied(_, calls) => ParksIn(p, t.loadedSkills, calls)
    case Dispatching(call, rest) => ParksIn(p, t.loadedSkills, [call] + rest)
    case Loading(_, rest, skill) => ParksIn(p, t.loadedSkills + {skill.name}, rest)
    case Checking(call, rest, _) => ParksIn(p, t.loadedSkills, [call] + rest)
    case Executing(_, rest, _) => ParksIn(p, t.loadedSkills, rest)
    case InShell(_, rest, _) => ParksIn(p, t.loadedSkills, rest)
    case Answering(_, rest, _) => ParksIn(p, t.loadedSkills, rest)
    case Parking(_, _, _) => true
    case ExecutingApproved(_, _) => ParksIn(p, t.loadedSkills, t.queuedCalls)
    case InApprovedShell(_, _) => ParksIn(p, t.loadedSkills, t.queuedCalls)
    case Recording(_, _) => ParksIn(p, t.loadedSkills, t.queuedCalls)
    case HandOff => ParksIn(p, t.loadedSkills, t.queuedCalls)
    case Resuming => ParksIn(p, t.loadedSkills, t.queuedCalls)
    case _ => false
  }

  predicate Parks(p: Policy, x: Local) {
    x.task.pending.Some? || ParksAhead(p, x.task, x.thread.pc)
  }

  /** A command waits for its decision, or the owner's way leads to one. */
  ghost predicate Doomed(p: Policy, s: Sys) {
    s.task.pending.Some? || exists t :: t in s.threads && Owns(s.threads[t]) && ParksAhead(p, s.task, s.threads[t].pc)
  }

  ghost predicate SameParks(p: Policy, x: Local, input: Input)
    requires Ready(x, input)
  {
    Parks(p, Advance(p, x, input)) == Parks(p, x)
  }

  lemma ParksFirst(p: Policy, loaded: set<string>, call: ToolCall, rest: seq<ToolCall>)
    ensures ParksIn(p, loaded, [call] + rest) == (ParksAt(p, loaded, call) || ParksIn(p, LoadedBy(p, loaded, call), rest))
  {
    assert ([call] + rest)[1..] == rest;
  }

  lemma DispatchParks(p: Policy, x: Local)
    requires x.thread.outbox == [] && x.thread.pc.Dispatching?
    ensures SameParks(p, x, NoInput)
  {
    ParksFirst(p, x.task.loadedSkills, x.thread.pc.call, x.thread.pc.rest);
  }

  lemma CheckParks(p: Policy, x: Local)
    requires x.thread.outbox == [] && x.thread.pc.Checking?
    requires var pc := x.thread.pc;
      && pc.call.name == "shell_exec" && p.decodeRequest(pc.call.arguments) == Ok(pc.request)
      && p.requestError(pc.request).None? && p.serverError(pc.request).None?
    ensures SameParks(p, x, NoInput)
  {
    ParksFirst(p, x.task.loadedSkills, x.thread.pc.call, x.thread.pc.rest);
  }

  lemma CallsParks(p: Policy, x: Local)
    requires x.thread.outbox == [] && x.thread.pc.Calls?
    ensures SameParks(p, x, NoInput)
  {
    var calls := x.thread.pc.calls;
    if calls != [] {
      assert [calls[0]] + calls[1..] == calls;
    }
  }

  lemma ShellParks(p: Policy, x: Local, input: Input)
    requires x.thread.outbox == [] && Ready(x, input)
    requires var pc := x.thread.pc;
      pc.InShell? || pc.InApprovedShell? || pc.Executing? || pc.ExecutingApproved? || pc.Answering? || pc.Recording?
    ensures SameParks(p, x, input)
  {
  }

  lemma SectionParks(p: Policy, x: Local, input: Input)
    requires x.thread.outbox == [] && Ready(x, input)
    requires var pc := x.thread.pc;
      pc.LoopTop? || pc.Replied? || pc.Loading? || pc.Parking? || pc.Completing? || pc.Failing?
    ensures SameParks(p, x, input)
  {
  }

  lemma ResumingParks(p: Policy, x: Local)
    requires x.thread.outbox == [] && x.thread.pc.Resuming? && x.task.status == Running
    ensures SameParks(p, x, NoInput)
  {
  }

  lemma EmitParks(p: Policy, x: Local)
    requires x.thread.outbox != []
    ensures SameParks(p, x, NoInput)
  {
  }

  /**
   Whether the way leads to a waiting command does not change along it, and no shell output affects it; only
   what the model replies does.
   */
  lemma OwnerParks(p: Policy, x: Local, input: Input)
    requires OwnerFacts(p, x) && Ready(x, input) && x.task.status == Running
    ensures !x.thread.pc.Asking? || input.NoInput? || input.reply.ModelError? ==> SameParks(p, x, input)
    ensures Parks(p, x) ==> SameParks(p, x, input)
  {
    var pc := x.thread.pc;
    if x.thread.outbox != [] {
      EmitParks(p, x);
    } else if pc.Dispatching? {
      DispatchParks(p, x);
    } else if pc.Checking? {
      CheckParks(p, x);
    } else if pc.Calls? {
      CallsParks(p, x);
    } else if pc.Resuming? {
      ResumingParks(p, x);
    } else if pc.LoopTop? || pc.Replied? || pc.Loading? || pc.Parking? || pc.Completing? || pc.Failing? {
      SectionParks(p, x, input);
    } else if !pc.Asking? {
      ShellParks(p, x, input);
    }
  }

  /** Before the end an owner at work finds the task running and nothing pending. */
  lemma OwnerOpen(p: Policy, s: Sys, t: nat)
    requires Inv(p, s) && s.hist.ending.None? && t in s.threads && Owns(s.threads[t])
    ensures OwnerFacts(p, Local(s.task, s.hist, s.threads[t])) && s.task.status == Running
    ensures Doomed(p, s) == ParksAhead(p, s.task, s.threads[t].pc)
  {
    SoleOwnerDoom(p, s, t);
  }

  /** What Doomed looks at stays as it was. */
  lemma DoomFrame(p: Policy, s: Sys, s': Sys)
    requires SameWork(s.task, s'.task)
    requires forall u | u in s'.threads && Owns(s'.threads[u]) :: u in s.threads && s.threads[u] == s'.threads[u]
    requires forall u | u in s.threads && Owns(s.threads[u]) :: u in s'.threads && s.threads[u] == s'.threads[u]
    ensures Doomed(p, s') == Doomed(p, s)
  {
  }

  /** After a step of the owner t. */
  lemma OwnerDoom(p: Policy, s: Sys, t: nat, x': Local)
    requires OneOwner(s) && t in s.threads && Owns(s.threads[t])
    ensures Doomed(p, Sys(x'.task, x'.hist, s.threads[t := x'.thread])) == Parks(p, x')
  {
    var s' := Sys(x'.task, x'.hist, s.threads[t := x'.thread]);
    assert forall u | u in s'.threads && Owns(s'.threads[u]) :: u == t;
    assert t in s'.threads;
  }

  lemma SoleOwnerDoom(p: Policy, s: Sys, t: nat)
    requires s.task.pending.None? && t in s.threads && Owns(s.threads[t])
    requires forall u | u in s.threads && Owns(s.threads[u]) :: u == t
    ensures Doomed(p, s) == ParksAhead(p, s.task, s.threads[t].pc)
  {
  }

  /** A successor has the same way ahead. */
  lemma StartDoom(p: Policy, s: Sys, a: Action)
    requires OneOwner(s) && Possible(s, a) && (a.Spawns? || a.HandsOff?)
    ensures Doomed(p, Apply(p, s, a)) == Doomed(p, s)
  {
    assert Owns(s.threads[a.tid]);
    SoleOwnerDoom(p, s, a.tid);
    OneOwnerKept(p, s, a);
    SoleOwnerDoom(p, Apply(p, s, a), if a.Spawns? then a.runner else a.resumer);
  }

  // ----- Lost for good -----

  ghost predicate Stranded(p: Policy, s: Sys) {
    s.hist.ending.None? && s.task.ctx == Cancelled && Doomed(p, s)
  }

  lemma StrandedOwner(p: Policy, s: Sys, t: nat, input: Input)
    requires Inv(p, s) && Stranded(p, s) && Possible(s, Advances(t, input)) && Owns(s.threads[t])
    ensures Stranded(p, Apply(p, s, Advances(t, input)))
  {
    var x := Local(s.task, s.hist, s.threads[t]);
    OwnerOpen(p, s, t);
    OwnerParks(p, x, input);
    OwnerDoom(p, s, t, Advance(p, x, input));
    StatusStep(p, x, input);
    ContextStep(p, s, Advances(t, input));
  }

  lemma StrandedBystander(p: Policy, s: Sys, t: nat, input: Input)
    requires Inv(p, s) && Stranded(p, s) && Possible(s, Advances(t, input)) && !Owns(s.threads[t])
    ensures Stranded(p, Apply(p, s, Advances(t, input)))
  {
    var x := Local(s.task, s.hist, s.threads[t]);
    BystanderStep(p, x, input);
    StatusStep(p, x, input);
    ContextStep(p, s, Advances(t, input));
    DoomFrame(p, s, Apply(p, s, Advances(t, input)));
  }

  lemma StrandedKept(p: Policy, s: Sys, a: Action)
    requires Inv(p, s) && Stranded(p, s) && Possible(s, a)
    ensures Stranded(p, Apply(p, s, a))
  {
    match a
    case Advances(t, input) =>
      if Owns(s.threads[t]) {
        StrandedOwner(p, s, t, input);
      } else {
        StrandedBystander(p, s, t, input);
      }
    case Decides(_, _, _, _, _) =>
    case Spawns(_, _, _) => StartDoom(p, s, a);
    case HandsOff(_, _) => StartDoom(p, s, a);
    case _ => DoomFrame(p, s, Apply(p, s, a));
  }

  /** No action ever ends a cancelled task that waits, or is bound to wait, for a decision. */
  lemma {:induction false} StrandedForGood(p: Policy, s: Sys, actions: seq<Action>, s': Sys)
    requires Reachable(p, s) && Stranded(p, s) && Leads(p, s, actions, s')
    ensures Stranded(p, s')
    decreases |actions|
  {
    if actions != [] {
      ReachableInv(p, s);
      StrandedKept(p, s, actions[0]);
      ReachableNext(p, s, actions[0]);
      StrandedForGood(p, Apply(p, s, actions[0]), actions[1..], s');
    }
  }

  // ----- The task's own work -----

  /** Every action moves the task, and every reply, shell output and decision is the oracles'. */
  ghost predicate Works(p: Policy, o: Oracles, s: Sys, actions: seq<Action>, s': Sys)
    decreases |actions|
  {
    if actions == [] then s' == s
    else
      && Possible(s, actions[0]) && Moves(p, s, actions[0]) && Prompted(p, o, s, actions[0])
      && Works(p, o, Apply(p, s, actions[0]), actions[1..], s')
  }

  ghost predicate AlwaysFails(o: Oracles) {
    forall step, transcript :: o.model(step, transcript).ModelError?
  }

  /** Decisions are taken, or none is needed because the model says nothing any more. */
  ghost predicate Unblocked(p: Policy, o: Oracles, s: Sys) {
    (s.task.ctx == Live && s.task.listed) || (AlwaysFails(o) && !Doomed(p, s))
  }

  function OracleInput(o: Oracles, s: Sys, th: Thread): Input {
    if th.outbox != [] then NoInput
    else
      match th.pc
      case Asking(transcript) => ModelReplies(o.model(s.task.steps, transcript))
      case InShell(_, _, r) => ShellReturns(o.shell(Cursor(s.hist), r))
      case InApprovedShell(_, r) => ShellReturns(o.shell(Cursor(s.hist), r))
      case _ => NoInput
  }

  lemma NextMove(p: Policy, o: Oracles, s: Sys) returns (a: Action)
    requires Reachable(p, s) && s.hist.ending.None? && Unblocked(p, o, s)
    ensures Possible(s, a) && Moves(p, s, a) && Prompted(p, o, s, a)
  {
    if s.task.pending.Some? {
      a := NeverStuck(p, s, o.decide(Cursor(s.hist)));
    } else {
      ReachableInv(p, s);
      var t :| t in s.threads && Owns(s.threads[t]);
      a := OwnerCanMove(p, s, t, OracleInput(o, s, s.threads[t]));
    }
  }

  /** Moving the task touches neither its context nor its place in the table. */
  lemma MoveContext(p: Policy, s: Sys, a: Action)
    requires Possible(s, a) && Moves(p, s, a)
    ensures Apply(p, s, a).task.ctx == s.task.ctx && Apply(p, s, a).task.listed == s.task.listed
  {
  }

  lemma SilentMove(p: Policy, o: Oracles, s: Sys, t: nat, input: Input)
    requires Inv(p, s) && s.hist.ending.None? && AlwaysFails(o) && !Doomed(p, s)
    requires Possible(s, Advances(t, input)) && Owns(s.threads[t]) && Prompted(p, o, s, Advances(t, input))
    ensures !Doomed(p, Apply(p, s, Advances(t, input)))
  {
    var x := Local(s.task, s.hist, s.threads[t]);
    OwnerOpen(p, s, t);
    OwnerParks(p, x, input);
    OwnerDoom(p, s, t, Advance(p, x, input));
  }

  lemma MoveUnblocked(p: Policy, o: Oracles, s: Sys, a: Action)
    requires Inv(p, s) && s.hist.ending.None? && Unblocked(p, o, s)
    requires Possible(s, a) && Moves(p, s, a) && Prompted(p, o, s, a)
    ensures Unblocked(p, o, Apply(p, s, a))
  {
    MoveContext(p, s, a);
    if !(s.task.ctx == Live && s.task.listed) {
      if a.Advances? {
        SilentMove(p, o, s, a.tid, a.input);
      } else if !a.Decides? {
        StartDoom(p, s, a);
      }
    }
  }

  /** The measure, also where it is not defined. */
  ghost function Remaining(p: Policy, s: Sys): Measure {
    if RoundsOk(s.hist.rounds) then SysMeasure(p, s) else Measure(0, 0, 0, 0)
  }

  /**
   From any state that has not ended the work of the task reaches its end: whatever the model and the shell
   answer and however its creator decides, as long as the task is listed and its context lives; and without
   any decision, in whatever context, when the model fails and no command waits or is bound to wait.
   */
  lemma {:induction false} WorkEnds(p: Policy, o: Oracles, s: Sys) returns (actions: seq<Action>, s': Sys)
    requires Reachable(p, s) && s.hist.ending.None? && Unblocked(p, o, s)
    ensures Works(p, o, s, actions, s') && s'.hist.ending.Some?
    decreases Remaining(p, s).stepsLeft, Remaining(p, s).awaitsReply, Remaining(p, s).unanswered, Remaining(p, s).place
  {
    ReachableInv(p, s);
    var a := NextMove(p, o, s);
    var next := Apply(p, s, a);
    if next.hist.ending.Some? {
      actions, s' := [a], next;
      assert [a][1..] == [];
    } else {
      MovesDescend(p, s, a);
      MoveUnblocked(p, o, s, a);
      ReachableNext(p, s, a);
      var rest;
      rest, s' := WorkEnds(p, o, next);
      actions := [a] + rest;
      assert actions[1..] == rest;
    }
  }

  lemma {:induction false} WorkLeads(p: Policy, o: Oracles, s: Sys, actions: seq<Action>, s': Sys)
    requires Works(p, o, s, actions, s')
    ensures Leads(p, s, actions, s')
    decreases |actions|
  {
    if actions != [] {
      WorkLeads(p, o, Apply(p, s, actions[0]), actions[1..], s');
    }
  }

  /**
   A task that has not ended can still end exactly when its context was not cancelled, or no command waits
   for a decision and none lies ahead of its owner before the next model request.
   */
  lemma CanStillEnd(p: Policy, s: Sys)
    requires Reachable(p, s) && s.hist.ending.None?
    ensures CanEnd(p, s) <==> s.task.ctx != Cancelled || !Doomed(p, s)
  {
    if s.task.ctx != Cancelled {
      var actions, s' := DeadlineEnds(p, s);
      WatchLeads(p, s, actions, s');
    } else if !Doomed(p, s) {
      var o := Oracles((step, transcript) => ModelError(""), slot => false, (slot, r) => "");
      var actions, s' := WorkEnds(p, o, s);
      WorkLeads(p, o, s, actions, s');
    } else {
      forall actions, s' | Leads(p, s, actions, s') ensures s'.hist.ending.None? {
        StrandedForGood(p, s, actions, s');
      }
    }
  }
}
