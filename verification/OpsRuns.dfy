/** Safety of the task protocol over whole runs. */
module OpsRuns {
  import opened Basics
  import opened OpsTask
  import opened OpsProtocol
  import opened OpsTranscript
  import opened OpsInvariant
  import opened OpsSafety
  import opened OpsEndings

  ghost predicate Inv(p: Policy, s: Sys) {
    OneOwner(s) && Progress(p, s) && OneWatcher(s) && EndedOnce(s) && AnnouncedOnce(s) && Attended(s)
  }

  lemma InitialInv(p: Policy)
    ensures Inv(p, Initial(p))
  {
    assert Flatten([]) == [];
    assert 0 in Initial(p).threads && Owns(Initial(p).threads[0]);
  }

  lemma InvKept(p: Policy, s: Sys, a: Action)
    requires Inv(p, s) && Possible(s, a)
    ensures Inv(p, Apply(p, s, a))
  {
    OneOwnerKept(p, s, a);
    ProgressKept(p, s, a);
    OneWatcherKept(p, s, a);
    EndedOnceKept(p, s, a);
    AnnouncedOnceKept(p, s, a);
    AttendedKept(p, s, a);
  }

  lemma {:induction false} RunInv(p: Policy, states: seq<Sys>, actions: seq<Action>, i: nat)
    requires IsRun(p, states, actions) && i < |states|
    ensures Inv(p, states[i])
  {
    if i == 0 {
      InitialInv(p);
    } else {
      RunInv(p, states, actions, i - 1);
      InvKept(p, states[i - 1], actions[i - 1]);
    }
  }

  lemma ReachableInv(p: Policy, s: Sys)
    requires Reachable(p, s)
    ensures Inv(p, s)
  {
    var states, actions :| IsRun(p, states, actions) && s == states[|states| - 1];
    RunInv(p, states, actions, |states| - 1);
  }

  // ----- Transcript -----

  /** The calls that the thread still has to answer, given the saved queue. */
  function Outstanding(th: Thread, queued: seq<ToolCall>): Option<seq<ToolCall>> {
    match th.pc
    case Calls(calls) => Some(calls)
    case Dispatching(call, _) => Some([call] + queued)
    case Loading(call, _, _) => Some([call] + queued)
    case Checking(call, _, _) => Some([call] + queued)
    case Executing(call, _, _) => Some([call] + queued)
    case InShell(call, _, _) => Some([call] + queued)
    case Parking(call, _, _) => Some([call] + queued)
    case Answering(call, _, _) => Some([call] + queued)
    case HandOff => Some(queued)
    case Resuming => Some(queued)
    case Spawning => Some([])
    case LoopTop => Some([])
    case Asking(_) => Some([])
    case Replied(_, _) => Some([])
    case Completing(_) => Some([])
    case Failing(_) => Some([])
    case _ => None
  }

  /** Decide runs an approved command; its call is known by the pending command's ID. */
  predicate Approving(pc: Pc) {
    pc.ExecutingApproved? || pc.InApprovedShell? || pc.Recording?
  }

  /**
   In every reachable state the messages are the system and user messages followed by the rounds, each
   finished round an assistant message and one result for each of its calls in order. The open round's
   unanswered calls are the one in flight, pending or being decided followed by the saved queue, and what
   a model request carries has only finished rounds.
   */
  lemma TranscriptWellFormed(p: Policy, s: Sys)
    requires Reachable(p, s)
    ensures IsTranscript(p, s.task.messages, s.hist.rounds)
    ensures forall t | t in s.threads && Owns(s.threads[t]) && Outstanding(s.threads[t], s.task.queuedCalls).Some? ::
      Unanswered(s.hist) == Outstanding(s.threads[t], s.task.queuedCalls).value
    ensures forall t | t in s.threads && Approving(s.threads[t].pc) ::
      && Unanswered(s.hist) != []
      && Unanswered(s.hist)[0].id == s.threads[t].pc.callId
      && Unanswered(s.hist)[1..] == s.task.queuedCalls
    ensures s.task.pending.Some? ==>
      && Unanswered(s.hist) != []
      && Unanswered(s.hist)[0].id == s.task.pending.value.callId
      && p.decodeRequest(Unanswered(s.hist)[0].arguments) == Ok(RequestOf(s.task.pending.value))
      && Unanswered(s.hist)[1..] == s.task.queuedCalls
    ensures forall t | t in s.threads && s.threads[t].pc.Asking? ::
      AllFinished(s.hist) && IsTranscript(p, s.threads[t].pc.transcript, s.hist.rounds)
  {
    ReachableInv(p, s);
    forall t | t in s.threads && Owns(s.threads[t]) && Outstanding(s.threads[t], s.task.queuedCalls).Some?
      ensures Unanswered(s.hist) == Outstanding(s.threads[t], s.task.queuedCalls).value
    {
      OutstandingIsUnanswered(p, s.task, s.hist, s.threads[t]);
    }
    forall t | t in s.threads && Approving(s.threads[t].pc)
      ensures AtApproved(s.task, s.hist, s.threads[t].pc.callId)
    {
      ApprovingHolds(p, s, t);
    }
    forall t | t in s.threads && s.threads[t].pc.Asking?
      ensures AllFinished(s.hist) && s.threads[t].pc.transcript == s.task.messages
    {
      AskingHolds(p, s, t);
    }
  }

  lemma OutstandingIsUnanswered(p: Policy, t: Task, h: History, th: Thread)
    requires RoundsOk(h.rounds) && Holds(p, t, h, th.pc) && Owns(th) && Outstanding(th, t.queuedCalls).Some?
    ensures Unanswered(h) == Outstanding(th, t.queuedCalls).value
  {
    if AllFinished(h) {
      NothingUnanswered(h);
    }
  }

  lemma ApprovingHolds(p: Policy, s: Sys, t: nat)
    requires Progress(p, s) && t in s.threads && Approving(s.threads[t].pc)
    ensures AtApproved(s.task, s.hist, s.threads[t].pc.callId)
  {
    assert Owns(s.threads[t]);
  }

  lemma AskingHolds(p: Policy, s: Sys, t: nat)
    requires Progress(p, s) && t in s.threads && s.threads[t].pc.Asking?
    ensures AllFinished(s.hist) && s.threads[t].pc.transcript == s.task.messages
  {
    assert Owns(s.threads[t]);
  }

  lemma NothingUnanswered(h: History)
    requires RoundsOk(h.rounds) && AllFinished(h)
    ensures Unanswered(h) == []
  {
  }

  // ----- Ownership and revalidation -----

  /**
   Until the task has ended exactly one party holds it: one owning thread, or the pending command that
   the status shows. After the end at most one thread is left.
   */
  lemma ExactlyOneHolder(p: Policy, s: Sys)
    requires Reachable(p, s)
    ensures OneOwner(s)
    ensures s.hist.ending.None? ==>
      if s.task.pending.Some? then s.task.status == AwaitingApproval && forall t | t in s.threads :: !Owns(s.threads[t])
      else exists t :: t in s.threads && Owns(s.threads[t]) && forall u | u in s.threads && Owns(s.threads[u]) :: u == t
  {
    ReachableInv(p, s);
    if s.hist.ending.None? && s.task.pending.None? {
      var t :| t in s.threads && Owns(s.threads[t]);
      assert forall u | u in s.threads && Owns(s.threads[u]) :: u == t;
    }
  }

  /**
   At most one party owns the task. What waits for approval still passes all three validators with the
   skills loaded now, so no decision ever takes a rejection branch of the revalidation.
   */
  lemma PendingStaysValid(p: Policy, s: Sys)
    requires Reachable(p, s)
    ensures OneOwner(s)
    ensures s.task.pending.Some? ==>
      Valid(p, s.task.loadedSkills, RequestOf(s.task.pending.value)) && !p.exempt(s.task.pending.value.command)
    ensures forall actor, admin, callId, approve :: !Judge(p, s.task, actor, admin, callId, approve).Refused?
  {
    ReachableInv(p, s);
    forall actor, admin, callId, approve ensures !Judge(p, s.task, actor, admin, callId, approve).Refused? {
      RevalidationPasses(p, s.task, s.hist, actor, admin, callId, approve);
    }
  }

  /** While a command is pending, no action changes the loaded skills, the queue or the transcript, except its decision. */
  lemma FrozenWhilePending(p: Policy, s: Sys, a: Action)
    requires Reachable(p, s) && Possible(s, a) && s.task.pending.Some?
    ensures var t' := Apply(p, s, a).task;
      && t'.loadedSkills == s.task.loadedSkills
      && t'.queuedCalls == s.task.queuedCalls
      && ((t'.pending == s.task.pending && t'.messages == s.task.messages)
          || (a.Decides? && t'.pending.None? && Accepted(Judge(p, s.task, a.actor, a.admin, a.callId, a.approve))))
  {
    ReachableInv(p, s);
    match a
    case Advances(t, input) => BystanderStep(p, Local(s.task, s.hist, s.threads[t]), input);
    case _ =>
  }

  // ----- Executions -----

  /**
   Each requested call reaches the shell at most once and executions follow the order of the requests.
   Each executed call was requested with exactly that command, and either is exempt or was approved by
   the task's creator under its own call ID; a denied call is never executed.
   */
  lemma ExecutionsWarranted(p: Policy, s: Sys)
    requires Reachable(p, s)
    ensures forall j, k | 0 <= j < k < |s.hist.executions| ::
      Before(s.hist.executions[j].slot, s.hist.executions[k].slot)
    ensures forall k | 0 <= k < |s.hist.executions| :: Warranted(p, s.hist, s.hist.executions[k])
    ensures forall j, k | 0 <= j < |s.hist.decisions| && 0 <= k < |s.hist.executions| && !s.hist.decisions[j].approved ::
      s.hist.decisions[j].slot != s.hist.executions[k].slot
  {
    ReachableInv(p, s);
  }

  lemma LogGrowth(p: Policy, s: Sys, a: Action)
    requires Possible(s, a)
    ensures var h, h' := s.hist, Apply(p, s, a).hist;
      && (h'.decisions == h.decisions
          || (a.Decides? && Accepted(Judge(p, s.task, a.actor, a.admin, a.callId, a.approve))
              && h'.decisions == h.decisions + [Decision(Cursor(h), a.callId, a.actor, a.approve)]))
      && (h'.executions == h.executions
          || (a.Advances? && |h'.executions| == |h.executions| + 1
              && h'.executions[..|h.executions|] == h.executions && h'.decisions == h.decisions))
  {
  }

  /** A logged decision is an action of the run: an admin's accepted decision with that call ID. */
  lemma {:induction false} DecisionHappened(p: Policy, states: seq<Sys>, actions: seq<Action>, i: nat, k: nat) returns (j: nat)
    requires IsRun(p, states, actions) && i < |states| && k < |states[i].hist.decisions|
    ensures j < i && actions[j].Decides? && actions[j].admin
    ensures var d := states[i].hist.decisions[k];
      actions[j].actor == d.actor && actions[j].callId == d.callId && actions[j].approve == d.approved
    ensures Accepted(Judge(p, states[j].task, actions[j].actor, true, actions[j].callId, actions[j].approve))
  {
    if i == 0 {
      assert false;
    } else {
      LogGrowth(p, states[i - 1], actions[i - 1]);
      if k < |states[i - 1].hist.decisions| {
        assert states[i].hist.decisions[k] == states[i - 1].hist.decisions[k];
        j := DecisionHappened(p, states, actions, i - 1, k);
      } else {
        j := i - 1;
      }
    }
  }

  /** A call that is not exempt is executed only after its creator's approval of that call was accepted. */
  lemma ApprovedFirst(p: Policy, states: seq<Sys>, actions: seq<Action>, i: nat) returns (j: nat)
    requires IsRun(p, states, actions) && i < |actions|
    requires |states[i + 1].hist.executions| > |states[i].hist.executions|
    requires var es := states[i + 1].hist.executions; !p.exempt(es[|es| - 1].request.command)
    ensures j < i && actions[j].Decides?
    ensures var h := states[i + 1].hist;
      var slot := h.executions[|h.executions| - 1].slot;
      && IsSlot(h, slot)
      && actions[j] == Decides(actions[j].tid, p.creator, true, CallAt(h, slot).id, true)
      && Accepted(Judge(p, states[j].task, p.creator, true, CallAt(h, slot).id, true))
  {
    RunInv(p, states, actions, i + 1);
    LogGrowth(p, states[i], actions[i]);
    var h := states[i + 1].hist;
    var e := h.executions[|h.executions| - 1];
    assert Warranted(p, h, e);
    var k: nat :| DecidedBy(p, h, k, e.slot);
    j := DecisionHappened(p, states, actions, i, k);
  }

  // ----- Endings -----

  /** The log of every reachable state holds at most one terminal event. */
  lemma OneTerminalEvent(p: Policy, s: Sys)
    requires Reachable(p, s)
    ensures AtMostOneTerminal(s.task.events)
  {
    ReachableInv(p, s);
  }

  lemma CompletedStep(p: Policy, s: Sys, a: Action)
    requires Inv(p, s) && Possible(s, a) && s.task.status == Completed
    ensures var t' := Apply(p, s, a).task;
      t'.status == Completed && t'.finalAnswer == s.task.finalAnswer && t'.messages == s.task.messages
  {
    assert s.hist.ending.Some? && Settled(s);
    match a
    case Advances(t, input) =>
      BystanderStep(p, Local(s.task, s.hist, s.threads[t]), input);
    case _ =>
  }

  /** Completed is absorbing, and the answer and transcript are final. */
  lemma {:induction false} CompletedAbsorbing(p: Policy, states: seq<Sys>, actions: seq<Action>, i: nat, j: nat)
    requires IsRun(p, states, actions) && i <= j < |states| && states[i].task.status == Completed
    ensures states[j].task.status == Completed
    ensures states[j].task.finalAnswer == states[i].task.finalAnswer && states[j].task.messages == states[i].task.messages
    decreases j
  {
    if i < j {
      CompletedAbsorbing(p, states, actions, i, j - 1);
      CompletedMove(p, states, actions, j - 1);
    }
  }

  lemma CompletedMove(p: Policy, states: seq<Sys>, actions: seq<Action>, k: nat)
    requires IsRun(p, states, actions) && k < |actions| && states[k].task.status == Completed
    ensures var t, t' := states[k].task, states[k + 1].task;
      t'.status == Completed && t'.finalAnswer == t.finalAnswer && t'.messages == t.messages
  {
    RunInv(p, states, actions, k);
    CompletedStep(p, states[k], actions[k]);
  }

  /** Once the task context has ended, no decision is accepted in the rest of the run. */
  lemma {:induction false} NoDecisionAfterContextEnds(p: Policy, states: seq<Sys>, actions: seq<Action>, i: nat, j: nat)
    requires IsRun(p, states, actions) && i <= j < |states| && states[i].task.ctx != Live
    ensures states[j].task.ctx == states[i].task.ctx
    ensures forall actor, admin, callId, approve :: !Accepted(Judge(p, states[j].task, actor, admin, callId, approve))
    decreases j
  {
    if i < j {
      NoDecisionAfterContextEnds(p, states, actions, i, j - 1);
    }
  }

  /**
   Failed is not absorbing. It is left exactly when a runner parks a command after the deadline already
   failed the task; the task then shows AwaitingApproval but its context has expired.
   */
  lemma FailedLeftOnlyByParking(p: Policy, s: Sys, a: Action)
    requires Reachable(p, s) && Possible(s, a) && s.task.status == Failed
    ensures var s' := Apply(p, s, a);
      var parks := a.Advances? && s.threads[a.tid].outbox == [] && s.threads[a.tid].pc.Parking?;
      && (s'.task.status != Failed <==> parks)
      && (parks ==> s'.task.status == AwaitingApproval && s'.task.ctx == Expired)
  {
    ReachableInv(p, s);
    assert Settled(s) || Overtaken(s);
    match a
    case Advances(t, input) =>
      StatusStep(p, Local(s.task, s.hist, s.threads[t]), input);
      assert s.threads[t].pc.Parking? ==> Owns(s.threads[t]);
    case _ =>
  }
}
