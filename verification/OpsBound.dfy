/** How long a task can go on, and that while decisions are possible something can always move it on. */
module OpsBound {
  import opened OpsTask
  import opened OpsProtocol
  import opened OpsTranscript
  import opened OpsInvariant
  import opened OpsSafety
  import opened OpsRuns

  // ----- The descent -----

  /** Lexicographic: steps left, a reply outstanding, calls without a result, place within the current call. */
  datatype Measure = Measure(stepsLeft: int, awaitsReply: nat, unanswered: nat, place: nat)

  predicate Less(m: Measure, n: Measure) {
    || 0 <= m.stepsLeft < n.stepsLeft
    || (m.stepsLeft == n.stepsLeft && m.awaitsReply < n.awaitsReply)
    || (m.stepsLeft == n.stepsLeft && m.awaitsReply == n.awaitsReply && m.unanswered < n.unanswered)
    || (m.stepsLeft == n.stepsLeft && m.awaitsReply == n.awaitsReply && m.unanswered == n.unanswered && m.place < n.place)
  }

  function Rank(pc: Pc): nat {
    match pc
    case Spawning => 18
    case HandOff => 17
    case Resuming => 16
    case Calls(_) => 15
    case Dispatching(_, _) => 14
    case Checking(_, _, _) => 13
    case Loading(_, _, _) => 13
    case Parking(_, _, _) => 12
    case ExecutingApproved(_, _) => 10
    case InApprovedShell(_, _) => 9
    case Recording(_, _) => 8
    case Executing(_, _, _) => 10
    case InShell(_, _, _) => 9
    case Answering(_, _, _) => 8
    case LoopTop => 6
    case Asking(_) => 5
    case Replied(_, _) => 4
    case Completing(_) => 2
    case Failing(_) => 2
    case _ => 0
  }

  /** Three units for each program point leave room for the events emitted in between. */
  function Place(th: Thread): nat { 3 * Rank(th.pc) + |th.outbox| }

  const PARKED_PLACE := 35

  function Awaits(pc: Pc): nat { if pc.Asking? || pc.Replied? then 1 else 0 }

  /** The measure while th moves the task. */
  function MeasureAt(p: Policy, t: Task, h: History, th: Thread): Measure
    requires RoundsOk(h.rounds)
  {
    Measure(p.maxSteps - t.steps, Awaits(th.pc), |Unanswered(h)|, Place(th))
  }

  /** The measure while a command waits for its decision, or when nothing moves the task. */
  function MeasureIdle(p: Policy, t: Task, h: History): Measure
    requires RoundsOk(h.rounds)
  {
    Measure(p.maxSteps - t.steps, 0, |Unanswered(h)|, if t.pending.Some? then PARKED_PLACE else 0)
  }

  function MeasureAfter(p: Policy, x: Local): Measure
    requires RoundsOk(x.hist.rounds)
  {
    if Owns(x.thread) then MeasureAt(p, x.task, x.hist, x.thread) else MeasureIdle(p, x.task, x.hist)
  }

  /** The thread's step lowers the measure. */
  ghost predicate Descends(p: Policy, x: Local, input: Input)
    requires Ready(x, input) && RoundsOk(x.hist.rounds)
  {
    var x' := Advance(p, x, input);
    RoundsOk(x'.hist.rounds) && Less(MeasureAfter(p, x'), MeasureAt(p, x.task, x.hist, x.thread))
  }

  lemma AnsweringDescends(p: Policy, x: Local)
    requires OwnerFacts(p, x) && x.thread.outbox == [] && (x.thread.pc.Answering? || x.thread.pc.Recording?)
    ensures Descends(p, x, NoInput)
  {
    AnsweredCall(p, x.task, x.hist, x.thread.pc.result);
  }

  lemma RepliedDescends(p: Policy, x: Local)
    requires OwnerFacts(p, x) && x.thread.outbox == [] && x.thread.pc.Replied?
    ensures Descends(p, x, NoInput)
  {
    NewRound(p, x.task, x.hist, x.thread.pc.content, x.thread.pc.calls);
  }

  lemma EmitDescends(p: Policy, x: Local)
    requires OwnerFacts(p, x) && x.thread.outbox != []
    ensures Descends(p, x, NoInput)
  {
    var x' := Advance(p, x, NoInput);
    assert Unanswered(x'.hist) == Unanswered(x.hist) && x'.task.steps == x.task.steps;
  }

  lemma DispatchDescends(p: Policy, x: Local)
    requires OwnerFacts(p, x) && x.thread.outbox == []
    requires x.thread.pc.Dispatching? || x.thread.pc.Checking? || x.thread.pc.Loading? || x.thread.pc.Parking?
    ensures Descends(p, x, NoInput)
  {
    var x' := Advance(p, x, NoInput);
    assert x'.hist == x.hist && x'.task.steps == x.task.steps;
  }

  lemma ExecutionDescends(p: Policy, x: Local)
    requires OwnerFacts(p, x) && x.thread.outbox == [] && (x.thread.pc.Executing? || x.thread.pc.ExecutingApproved?)
    ensures Descends(p, x, NoInput)
  {
    var x' := Advance(p, x, NoInput);
    assert Unanswered(x'.hist) == Unanswered(x.hist) && x'.task == x.task;
  }

  lemma ShellDescends(p: Policy, x: Local, input: Input)
    requires OwnerFacts(p, x) && x.thread.outbox == [] && Ready(x, input)
    requires x.thread.pc.InShell? || x.thread.pc.InApprovedShell?
    ensures Descends(p, x, input)
  {
    var x' := Advance(p, x, input);
    assert x'.hist == x.hist && x'.task == x.task;
  }

  lemma LoopDescends(p: Policy, x: Local, input: Input)
    requires OwnerFacts(p, x) && x.thread.outbox == [] && Ready(x, input)
    requires var pc := x.thread.pc;
      pc.LoopTop? || pc.Asking? || pc.Calls? || pc.Resuming? || pc.Completing? || pc.Failing?
    ensures Descends(p, x, input)
  {
    var x' := Advance(p, x, input);
    assert x'.hist.rounds == x.hist.rounds;
  }

  /**
   Every step of the owner descends: a model call lowers the steps left, a reply what is awaited, an
   answered call the unanswered ones, and anything else the place within the current call.
   */
  lemma OwnerDescends(p: Policy, x: Local, input: Input)
    requires OwnerFacts(p, x) && Ready(x, input)
    ensures Descends(p, x, input)
  {
    if x.thread.outbox != [] {
      EmitDescends(p, x);
    } else {
      var pc := x.thread.pc;
      if pc.Replied? {
        RepliedDescends(p, x);
      } else if pc.Answering? || pc.Recording? {
        AnsweringDescends(p, x);
      } else if pc.Dispatching? || pc.Checking? || pc.Loading? || pc.Parking? {
        DispatchDescends(p, x);
      } else if pc.Executing? || pc.ExecutingApproved? {
        ExecutionDescends(p, x);
      } else if pc.InShell? || pc.InApprovedShell? {
        ShellDescends(p, x, input);
      } else {
        LoopDescends(p, x, input);
      }
    }
  }

  // ----- The system's measure -----

  ghost function SysMeasure(p: Policy, s: Sys): Measure
    requires RoundsOk(s.hist.rounds)
  {
    if t :| t in s.threads && Owns(s.threads[t]) then MeasureAt(p, s.task, s.hist, s.threads[t])
    else MeasureIdle(p, s.task, s.hist)
  }

  lemma SysMeasureIs(p: Policy, s: Sys, t: nat)
    requires OneOwner(s) && RoundsOk(s.hist.rounds) && t in s.threads && Owns(s.threads[t])
    ensures SysMeasure(p, s) == MeasureAt(p, s.task, s.hist, s.threads[t])
  {
  }

  /** The action moves the task: a step of its owner, a hand-over, or an accepted decision. */
  ghost predicate Moves(p: Policy, s: Sys, a: Action)
    requires Possible(s, a)
  {
    match a
    case Advances(t, _) => Owns(s.threads[t])
    case Spawns(_, _, _) => true
    case HandsOff(_, _) => true
    case Decides(_, actor, admin, callId, approve) => Accepted(Judge(p, s.task, actor, admin, callId, approve))
    case _ => false
  }

  lemma OwnerMoveDescends(p: Policy, s: Sys, t: nat, input: Input)
    requires OneOwner(s) && Possible(s, Advances(t, input)) && Owns(s.threads[t])
    requires OwnerFacts(p, Local(s.task, s.hist, s.threads[t]))
    ensures var s' := Apply(p, s, Advances(t, input));
      RoundsOk(s'.hist.rounds) && Less(SysMeasure(p, s'), SysMeasure(p, s))
  {
    var s' := Apply(p, s, Advances(t, input));
    OwnerDescends(p, Local(s.task, s.hist, s.threads[t]), input);
    SysMeasureIs(p, s, t);
    OneOwnerKept(p, s, Advances(t, input));
    if Owns(s'.threads[t]) {
      SysMeasureIs(p, s', t);
    } else {
      assert forall u | u in s'.threads :: !Owns(s'.threads[u]);
    }
  }

  lemma StartDescends(p: Policy, s: Sys, a: Action)
    requires OneOwner(s) && RoundsOk(s.hist.rounds) && Possible(s, a) && (a.Spawns? || a.HandsOff?)
    ensures Less(SysMeasure(p, Apply(p, s, a)), SysMeasure(p, s))
  {
    OneOwnerKept(p, s, a);
    SysMeasureIs(p, s, a.tid);
    SysMeasureIs(p, Apply(p, s, a), if a.Spawns? then a.runner else a.resumer);
  }

  lemma RestingMeasure(p: Policy, s: Sys)
    requires RoundsOk(s.hist.rounds) && forall t | t in s.threads :: !Owns(s.threads[t])
    ensures SysMeasure(p, s) == MeasureIdle(p, s.task, s.hist)
  {
  }

  lemma ApprovalDescends(p: Policy, t: Task, h: History)
    requires RoundsOk(h.rounds) && t.pending.Some?
    ensures var v := Approved(t.pending.value);
      var t', h' := AfterVerdict(t, v), RecordVerdict(h, v, p.creator);
      RoundsOk(h'.rounds) && Less(MeasureAt(p, t', h', DecideThread(v, p.creator)), MeasureIdle(p, t, h))
  {
    assert RecordVerdict(h, Approved(t.pending.value), p.creator).rounds == h.rounds;
  }

  lemma DenialDescends(p: Policy, t: Task, h: History)
    requires IsTranscript(p, t.messages, h.rounds) && Unanswered(h) != [] && t.pending.Some?
    ensures var v := Denied(t.pending.value);
      var t', h' := AfterVerdict(t, v), RecordVerdict(h, v, p.creator);
      RoundsOk(h'.rounds) && Less(MeasureAt(p, t', h', DecideThread(v, p.creator)), MeasureIdle(p, t, h))
  {
    AnsweredCall(p, t, RecordDecision(h, t.pending.value.callId, p.creator, false), DENIAL);
  }

  lemma DecidedDescends(p: Policy, s: Sys, t: nat, v: Verdict)
    requires Sound(p, s.task, s.hist) && s.task.pending.Some? && Parked(p, s.task, s.hist)
    requires forall u | u in s.threads :: !Owns(s.threads[u])
    requires v == Approved(s.task.pending.value) || v == Denied(s.task.pending.value)
    requires OneOwner(Decided(s, t, v, p.creator))
    ensures var s' := Decided(s, t, v, p.creator);
      RoundsOk(s'.hist.rounds) && Less(SysMeasure(p, s'), SysMeasure(p, s))
  {
    RestingMeasure(p, s);
    if v.Approved? {
      ApprovalDescends(p, s.task, s.hist);
    } else {
      DenialDescends(p, s.task, s.hist);
    }
    SysMeasureIs(p, Decided(s, t, v, p.creator), t);
  }

  lemma DecisionDescends(p: Policy, s: Sys, a: Action)
    requires OneOwner(s) && a.Decides? && Possible(s, a)
    requires Sound(p, s.task, s.hist) && s.task.pending.Some? && Parked(p, s.task, s.hist)
    requires Accepted(Judge(p, s.task, a.actor, a.admin, a.callId, a.approve))
    ensures var s' := Apply(p, s, a);
      RoundsOk(s'.hist.rounds) && Less(SysMeasure(p, s'), SysMeasure(p, s))
  {
    AcceptedVerdict(p, s.task, s.hist, a.actor, a.admin, a.callId, a.approve);
    OneOwnerKept(p, s, a);
    DecidedDescends(p, s, a.tid, Judge(p, s.task, a.actor, a.admin, a.callId, a.approve));
  }

  /** Every action that moves the task lowers the measure: the descent on which OpsLiveness.WorkEnds recurses. */
  lemma MovesDescend(p: Policy, s: Sys, a: Action)
    requires Reachable(p, s) && Possible(s, a) && Moves(p, s, a)
    ensures var s' := Apply(p, s, a);
      RoundsOk(s.hist.rounds) && RoundsOk(s'.hist.rounds) && Less(SysMeasure(p, s'), SysMeasure(p, s))
  {
    ReachableInv(p, s);
    match a
    case Advances(t, input) => OwnerMoveDescends(p, s, t, input);
    case Decides(_, _, _, _, _) => DecisionDescends(p, s, a);
    case Spawns(_, _, _) => StartDescends(p, s, a);
    case HandsOff(_, _) => StartDescends(p, s, a);
  }

  /** No other action raises it. */
  lemma OthersKeepMeasure(p: Policy, s: Sys, a: Action)
    requires Reachable(p, s) && Possible(s, a) && !Moves(p, s, a)
    ensures var s' := Apply(p, s, a);
      RoundsOk(s.hist.rounds) && RoundsOk(s'.hist.rounds) && SysMeasure(p, s') == SysMeasure(p, s)
  {
    ReachableInv(p, s);
    OneOwnerKept(p, s, a);
    OtherWork(p, s, a);
    SameOwnerMeasure(p, s, Apply(p, s, a));
  }

  lemma OtherWork(p: Policy, s: Sys, a: Action)
    requires Possible(s, a) && !Moves(p, s, a)
    ensures var s' := Apply(p, s, a);
      && SameWork(s.task, s'.task) && SameLogs(s.hist, s'.hist)
      && (forall u | u in s'.threads && Owns(s'.threads[u]) :: u in s.threads && s.threads[u] == s'.threads[u])
      && (forall u | u in s.threads && Owns(s.threads[u]) :: u in s'.threads && s.threads[u] == s'.threads[u])
  {
    if a.Advances? {
      BystanderStep(p, Local(s.task, s.hist, s.threads[a.tid]), a.input);
    }
  }

  lemma SameOwnerMeasure(p: Policy, s: Sys, s': Sys)
    requires OneOwner(s) && OneOwner(s') && RoundsOk(s.hist.rounds)
    requires SameWork(s.task, s'.task) && SameLogs(s.hist, s'.hist)
    requires forall u | u in s'.threads && Owns(s'.threads[u]) :: u in s.threads && s.threads[u] == s'.threads[u]
    requires forall u | u in s.threads && Owns(s.threads[u]) :: u in s'.threads && s.threads[u] == s'.threads[u]
    ensures SysMeasure(p, s) == SysMeasure(p, s')
  {
    if t :| t in s.threads && Owns(s.threads[t]) {
      SysMeasureIs(p, s, t);
      SysMeasureIs(p, s', t);
    }
  }

  // ----- Never stuck -----

  lemma {:induction false} AboveAll(keys: set<nat>) returns (n: nat)
    ensures forall k | k in keys :: k < n
  {
    n := 0;
    if keys != {} {
      var k :| k in keys;
      var m := AboveAll(keys - {k});
      n := if m <= k then k + 1 else m;
      assert forall j | j in keys :: j == k || j in keys - {k};
    }
  }

  function InputFor(th: Thread): Input {
    if th.outbox != [] then NoInput
    else if th.pc.Asking? then ModelReplies(Completion("", []))
    else if th.pc.InShell? || th.pc.InApprovedShell? then ShellReturns("")
    else NoInput
  }

  predicate Starts(th: Thread) { th == At(Spawning) || th == At(HandOff) }

  /** An owner can always take its next step, with any answer it waits for, or start its successor. */
  lemma OwnerCanMove(p: Policy, s: Sys, t: nat, input: Input) returns (a: Action)
    requires t in s.threads && Owns(s.threads[t])
    requires Starts(s.threads[t]) || Ready(Local(s.task, s.hist, s.threads[t]), input)
    ensures Possible(s, a) && Moves(p, s, a) && !a.Decides? && (a.Advances? ==> a == Advances(t, input))
  {
    var n := AboveAll(s.threads.Keys);
    if s.threads[t] == At(Spawning) {
      a := Spawns(t, n, n + 1);
    } else if s.threads[t] == At(HandOff) {
      a := HandsOff(t, n);
    } else {
      a := Advances(t, input);
    }
  }

  /**
   A task that has not ended can always be moved on: by its owner, or, while it is listed and its context
   lives, by its creator's decision, whichever way it goes. OpsLiveness.WorkEnds follows such moves to the
   end, and OpsLiveness.CanStillEnd says when a task can end at all.
   */
  lemma NeverStuck(p: Policy, s: Sys, approve: bool) returns (a: Action)
    requires Reachable(p, s) && s.hist.ending.None?
    requires s.task.pending.Some? ==> s.task.listed && s.task.ctx == Live
    ensures Possible(s, a) && Moves(p, s, a)
    ensures s.task.pending.Some? ==> a == Decides(a.tid, p.creator, true, s.task.pending.value.callId, approve)
  {
    ReachableInv(p, s);
    if s.task.pending.Some? {
      var n := AboveAll(s.threads.Keys);
      a := Decides(n, p.creator, true, s.task.pending.value.callId, approve);
    } else {
      var t :| t in s.threads && Owns(s.threads[t]);
      a := OwnerCanMove(p, s, t, InputFor(s.threads[t]));
    }
  }

  // ----- Model calls -----

  function RepliesIn(actions: seq<Action>): nat {
    if actions == [] then 0
    else
      var last := actions[|actions| - 1];
      RepliesIn(actions[..|actions| - 1]) + if last.Advances? && last.input.ModelReplies? then 1 else 0
  }

  /** A thread has asked the model and has no reply yet. */
  ghost predicate Asks(s: Sys) {
    exists t :: t in s.threads && s.threads[t].pc.Asking?
  }

  lemma AsksStep(p: Policy, s: Sys, a: Action)
    requires OneOwner(s) && Possible(s, a)
    ensures var s' := Apply(p, s, a);
      var replied := a.Advances? && a.input.ModelReplies?;
      s'.task.steps - (if Asks(s') then 1 else 0) == s.task.steps - (if Asks(s) then 1 else 0) + (if replied then 1 else 0)
  {
    match a
    case Advances(t, input) => AsksAdvance(p, s, t, input);
    case Decides(_, _, _, _, _) => AsksDecide(p, s, a);
    case _ => SameAsks(s, Apply(p, s, a));
  }

  lemma AsksDecide(p: Policy, s: Sys, a: Action)
    requires a.Decides? && Possible(s, a)
    ensures Asks(Apply(p, s, a)) == Asks(s) && Apply(p, s, a).task.steps == s.task.steps
  {
    SameAsks(s, Apply(p, s, a));
  }

  lemma SameAsks(s: Sys, s': Sys)
    requires forall u | u in s'.threads && s'.threads[u].pc.Asking? :: u in s.threads && s.threads[u] == s'.threads[u]
    requires forall u | u in s.threads && s.threads[u].pc.Asking? :: u in s'.threads && s.threads[u] == s'.threads[u]
    ensures Asks(s) == Asks(s')
  {
  }

  /** Only the owner asks, so it alone says whether a request is out. */
  lemma OwnerAsks(s: Sys, t: nat)
    requires OneOwner(s) && t in s.threads && Owns(s.threads[t])
    ensures Asks(s) == s.threads[t].pc.Asking?
  {
    assert forall u | u in s.threads && s.threads[u].pc.Asking? :: Owns(s.threads[u]);
  }

  lemma AskingStep(p: Policy, x: Local, input: Input)
    requires Ready(x, input)
    ensures var x' := Advance(p, x, input);
      x'.task.steps - (if x'.thread.pc.Asking? then 1 else 0)
      == x.task.steps - (if x.thread.pc.Asking? then 1 else 0) + (if input.ModelReplies? then 1 else 0)
  {
  }

  lemma AsksAdvance(p: Policy, s: Sys, t: nat, input: Input)
    requires OneOwner(s) && Possible(s, Advances(t, input))
    ensures var s' := Apply(p, s, Advances(t, input));
      s'.task.steps - (if Asks(s') then 1 else 0)
      == s.task.steps - (if Asks(s) then 1 else 0) + (if input.ModelReplies? then 1 else 0)
  {
    var s' := Apply(p, s, Advances(t, input));
    AskingStep(p, Local(s.task, s.hist, s.threads[t]), input);
    if Owns(s.threads[t]) {
      OwnerAsks(s, t);
      assert Asks(s') == s'.threads[t].pc.Asking? by {
        assert forall u | u in s'.threads && s'.threads[u].pc.Asking? :: u == t;
      }
    } else {
      BystanderStep(p, Local(s.task, s.hist, s.threads[t]), input);
      SameAsks(s, s');
    }
  }

  lemma RunFacts(p: Policy, states: seq<Sys>, actions: seq<Action>, i: nat)
    requires IsRun(p, states, actions) && i < |states|
    ensures OneOwner(states[i]) && states[i].task.steps <= p.maxSteps
  {
    RunInv(p, states, actions, i);
  }

  lemma RepliesSnoc(actions: seq<Action>, i: nat)
    requires i < |actions|
    ensures RepliesIn(actions[..i + 1])
         == RepliesIn(actions[..i]) + if actions[i].Advances? && actions[i].input.ModelReplies? then 1 else 0
  {
    assert actions[..i + 1][..i] == actions[..i];
  }

  lemma {:induction false} CallsCounted(p: Policy, states: seq<Sys>, actions: seq<Action>, i: nat)
    requires IsRun(p, states, actions) && i < |states|
    ensures RepliesIn(actions[..i]) + (if Asks(states[i]) then 1 else 0) == states[i].task.steps
  {
    if i == 0 {
      assert actions[..i] == [];
    } else {
      CallsCounted(p, states, actions, i - 1);
      RunFacts(p, states, actions, i - 1);
      AsksStep(p, states[i - 1], actions[i - 1]);
      RepliesSnoc(actions, i - 1);
    }
  }

  /** Across any number of pauses and resumes the model is called at most MaxSteps times. */
  lemma ModelCallsBounded(p: Policy, states: seq<Sys>, actions: seq<Action>, i: nat)
    requires IsRun(p, states, actions) && i < |states|
    ensures RepliesIn(actions[..i]) + (if Asks(states[i]) then 1 else 0) == states[i].task.steps <= p.maxSteps
  {
    CallsCounted(p, states, actions, i);
    RunFacts(p, states, actions, i);
  }
}
