/** What a task announces: its end, once and as it was recorded, and each command that waits for approval. */
module OpsEvents {
  import opened Basics
  import opened OpsTask
  import opened OpsProtocol
  import opened OpsInvariant
  import opened OpsSafety
  import opened OpsEndings
  import opened OpsRuns

  // ----- The record and the ending -----

  /** Status, answer and error are those of the recorded ending; a command parked after it hides a failure only. */
  ghost predicate EndingShown(t: Task, ending: Option<Ending>) {
    && (t.status == Completed ==> ending == Some(Answered(t.finalAnswer)))
    && (t.status == Failed ==> ending == Some(Stopped(t.error)))
    && (ending.Some? ==>
          match ending.value
          case Answered(text) => t.status == Completed && t.finalAnswer == text
          case Stopped(text) => t.status in {Failed, AwaitingApproval} && t.error == text)
  }

  /** A terminal event says which way the task ended. */
  predicate Tells(e: Event, ending: Option<Ending>) {
    && (e == TaskCompleted ==> ending.Some? && ending.value.Answered?)
    && (e == TaskFailed ==> ending.Some? && ending.value.Stopped?)
  }

  ghost predicate AllTell(events: seq<Event>, ending: Option<Ending>) {
    forall e | e in events :: Tells(e, ending)
  }

  ghost predicate ThreadTells(th: Thread, ending: Option<Ending>) {
    AllTell(th.outbox, ending) && (th.pc.Cancelling? ==> Tells(th.pc.event, ending))
  }

  ghost predicate Truthful(s: Sys) {
    && EndingShown(s.task, s.hist.ending)
    && AllTell(s.task.events, s.hist.ending)
    && forall t | t in s.threads :: ThreadTells(s.threads[t], s.hist.ending)
  }

  /** Once the end is recorded it is in the log, or a thread has still to announce it or to end the context. */
  ghost predicate Due(s: Sys) {
    s.hist.ending.Some? ==>
      && (s.task.listed && NoneTerminal(s.task.events) ==> exists t :: t in s.threads && Announces(s.threads[t]))
      && (s.task.ctx == Live ==> exists t :: t in s.threads && s.threads[t].pc.Cancelling?)
  }

  /** A thread that writes the end writes what its place in the code says, and goes on to announce just that. */
  lemma WritingStep(p: Policy, x: Local)
    requires Ready(x, NoInput) && Writes(x)
    requires x.thread.pc == WatchLock ==> x.task.ctx != Live
    ensures var x' := Advance(p, x, NoInput);
      && x'.hist.ending.Some? && EndingShown(x'.task, x'.hist.ending)
      && x'.task.events == x.task.events && x'.task.listed == x.task.listed
      && ThreadTells(x'.thread, x'.hist.ending) && Announces(x'.thread)
      && (x'.task.ctx == Live ==> x'.thread.pc.Cancelling?)
  {
    var x' := Advance(p, x, NoInput);
    if x.thread.pc == WatchLock {
      assert x'.thread.outbox[0] == TaskFailed;
    }
  }

  /** Before the end nothing announces one. */
  lemma NothingTold(events: seq<Event>, ending: Option<Ending>)
    requires ending.None? && AllTell(events, ending)
    ensures forall after :: AllTell(events, after)
  {
  }

  /** After the end is written the thread cancels the context and then has only the event left. */
  lemma CancellingTells(p: Policy, x: Local)
    requires Ready(x, NoInput) && x.thread.outbox == [] && x.thread.pc.Cancelling? && Shaped(x.thread)
    requires EndingShown(x.task, x.hist.ending) && ThreadTells(x.thread, x.hist.ending)
    ensures var x' := Advance(p, x, NoInput);
      && x'.hist == x.hist && EndingShown(x'.task, x'.hist.ending)
      && x'.task.events == x.task.events && x'.task.listed == x.task.listed
      && ThreadTells(x'.thread, x'.hist.ending) && Announces(x'.thread) && x'.task.ctx != Live
  {
    assert Advance(p, x, NoInput).thread.outbox[0] == x.thread.pc.event;
  }

  /** Any other section keeps the ending, and the record shows it still, unless it hides a completion. */
  lemma SectionTells(p: Policy, x: Local, input: Input)
    requires Ready(x, input) && x.thread.outbox == [] && !x.thread.pc.Cancelling? && !Writes(x)
    requires EndingShown(x.task, x.hist.ending) && (x.thread.pc.Parking? ==> x.task.status != Completed)
    ensures var x' := Advance(p, x, input);
      && x'.hist.ending == x.hist.ending && EndingShown(x'.task, x'.hist.ending)
      && x'.task.events == x.task.events && x'.task.listed == x.task.listed && x'.task.ctx == x.task.ctx
  {
  }

  lemma SectionSilent(p: Policy, x: Local, input: Input)
    requires Ready(x, input) && x.thread.outbox == [] && !x.thread.pc.Cancelling? && !Writes(x)
    ensures var th := Advance(p, x, input).thread;
      !th.pc.Cancelling? && forall e | e in th.outbox :: !TerminalEvent(e)
  {
  }

  lemma EmitTells(p: Policy, x: Local)
    requires x.thread.outbox != [] && ThreadTells(x.thread, x.hist.ending) && AllTell(x.task.events, x.hist.ending)
    ensures var x' := Advance(p, x, NoInput);
      && x'.hist == x.hist && x'.task == x.task.(events := x'.task.events)
      && AllTell(x'.task.events, x'.hist.ending) && ThreadTells(x'.thread, x'.hist.ending)
  {
    var e, rest := x.thread.outbox[0], x.thread.outbox[1..];
    assert forall f | f in rest :: f in x.thread.outbox;
    assert e in x.thread.outbox;
  }

  /** A completed task has no owner left. */
  lemma CompletedAlone(s: Sys, t: nat)
    requires EndedOnce(s) && s.task.status == Completed && t in s.threads
    ensures !Owns(s.threads[t])
  {
    assert s.hist.ending.Some? && Settled(s);
  }

  // ----- Every action keeps it -----

  lemma WriteTruthful(p: Policy, s: Sys, t: nat)
    requires Inv(p, s) && Truthful(s) && Possible(s, Advances(t, NoInput)) && Writes(Local(s.task, s.hist, s.threads[t]))
    ensures Truthful(Apply(p, s, Advances(t, NoInput)))
  {
    var s' := Apply(p, s, Advances(t, NoInput));
    FirstWrite(s, t);
    WritingStep(p, Local(s.task, s.hist, s.threads[t]));
    NothingTold(s.task.events, s.hist.ending);
    forall u | u in s'.threads ensures ThreadTells(s'.threads[u], s'.hist.ending) {
      if u != t {
        NothingTold(s.threads[u].outbox, s.hist.ending);
      }
    }
  }

  lemma StepTruthful(p: Policy, s: Sys, t: nat, input: Input)
    requires Inv(p, s) && Truthful(s) && Possible(s, Advances(t, input))
    requires !Writes(Local(s.task, s.hist, s.threads[t]))
    ensures Truthful(Apply(p, s, Advances(t, input)))
  {
    var x := Local(s.task, s.hist, s.threads[t]);
    if x.thread.outbox != [] {
      EmitTells(p, x);
    } else if x.thread.pc.Cancelling? {
      CancellingTells(p, x);
    } else {
      if x.task.status == Completed {
        CompletedAlone(s, t);
      }
      SectionTells(p, x, input);
      SectionSilent(p, x, input);
    }
  }

  lemma DecidedTruthful(s: Sys, t: nat, v: Verdict, actor: string)
    requires Truthful(s) && s.hist.ending.None? && Accepted(v)
    ensures Truthful(Decided(s, t, v, actor))
  {
  }

  lemma TruthfulKept(p: Policy, s: Sys, a: Action)
    requires Inv(p, s) && Truthful(s) && Possible(s, a)
    ensures Truthful(Apply(p, s, a))
  {
    match a
    case Advances(t, input) =>
      if Writes(Local(s.task, s.hist, s.threads[t])) {
        WriteTruthful(p, s, t);
      } else {
        StepTruthful(p, s, t, input);
      }
    case Decides(t, actor, admin, callId, approve) =>
      var v := Judge(p, s.task, actor, admin, callId, approve);
      if Accepted(v) {
        EndedOnceDecided(p, s, a);
        DecidedTruthful(s, t, v, actor);
      }
    case _ => OthersTruthful(p, s, a);
  }

  lemma OthersTruthful(p: Policy, s: Sys, a: Action)
    requires Truthful(s) && Possible(s, a) && !a.Advances? && !a.Decides?
    ensures Truthful(Apply(p, s, a))
  {
  }

  // ----- The announcement comes -----

  /** The announcer stays one, or its event is in the log now. */
  lemma EmitAnnounces(p: Policy, x: Local)
    requires x.thread.outbox != [] && Announces(x.thread) && x.task.listed
    ensures var x' := Advance(p, x, NoInput);
      Announces(x'.thread) || !NoneTerminal(x'.task.events)
  {
    var x', rest := Advance(p, x, NoInput), x.thread.outbox[1..];
    if !x.thread.pc.Cancelling? {
      var k :| 0 <= k < |x.thread.outbox| && TerminalEvent(x.thread.outbox[k]);
      if k > 0 {
        assert TerminalEvent(rest[k - 1]);
      } else {
        assert x'.task.events[|x.task.events|] == x.thread.outbox[0];
      }
    }
  }

  lemma EarlierTerminal(events: seq<Event>, e: Event)
    requires NoneTerminal(events + [e])
    ensures NoneTerminal(events)
  {
    assert forall i | 0 <= i < |events| :: (events + [e])[i] == events[i];
  }

  /** The announcing thread after a step of its own. */
  lemma AnnouncerSteps(p: Policy, x: Local, input: Input)
    requires Ready(x, input) && Announces(x.thread) && Shaped(x.thread) && !Writes(x)
    requires ThreadTells(x.thread, x.hist.ending) && EndingShown(x.task, x.hist.ending)
    ensures var x' := Advance(p, x, input);
      x'.task.listed && NoneTerminal(x'.task.events) ==> Announces(x'.thread)
  {
    if x.thread.outbox != [] {
      if x.task.listed {
        EmitAnnounces(p, x);
      }
    } else {
      CancellingTells(p, x);
    }
  }

  lemma ContextEnds(p: Policy, x: Local, input: Input)
    requires Ready(x, input)
    ensures var x' := Advance(p, x, input);
      && (x'.task.ctx == Live ==> x.task.ctx == Live)
      && (x'.task.ctx == Live && x.thread.pc.Cancelling? ==> x'.thread.pc == x.thread.pc)
      && (x'.task.listed == x.task.listed)
      && (x'.task.events == x.task.events || exists e :: x'.task.events == x.task.events + [e])
  {
  }

  lemma DueWritten(p: Policy, s: Sys, t: nat)
    requires OneWatcher(s) && Possible(s, Advances(t, NoInput)) && Writes(Local(s.task, s.hist, s.threads[t]))
    ensures Due(Apply(p, s, Advances(t, NoInput)))
  {
    var s' := Apply(p, s, Advances(t, NoInput));
    WritingStep(p, Local(s.task, s.hist, s.threads[t]));
    assert t in s'.threads && Announces(s'.threads[t]);
  }

  lemma DueAdvance(p: Policy, s: Sys, t: nat, input: Input)
    requires Inv(p, s) && Truthful(s) && Due(s) && Possible(s, Advances(t, input))
    ensures Due(Apply(p, s, Advances(t, input)))
  {
    var x := Local(s.task, s.hist, s.threads[t]);
    if Writes(x) {
      DueWritten(p, s, t);
    } else if s.hist.ending.Some? {
      DueLater(p, s, t, input);
    } else {
      StatusStep(p, x, input);
    }
  }

  lemma DueLater(p: Policy, s: Sys, t: nat, input: Input)
    requires Inv(p, s) && Truthful(s) && Due(s) && s.hist.ending.Some? && Possible(s, Advances(t, input))
    requires !Writes(Local(s.task, s.hist, s.threads[t]))
    ensures Due(Apply(p, s, Advances(t, input)))
  {
    var s' := Apply(p, s, Advances(t, input));
    ContextEnds(p, Local(s.task, s.hist, s.threads[t]), input);
    if s'.task.listed && NoneTerminal(s'.task.events) {
      LaterAnnounces(p, s, t, input);
    }
    if s'.task.ctx == Live {
      var u :| u in s.threads && s.threads[u].pc.Cancelling?;
      assert u in s'.threads && s'.threads[u].pc.Cancelling?;
    }
  }

  lemma LaterAnnounces(p: Policy, s: Sys, t: nat, input: Input)
    requires Inv(p, s) && Truthful(s) && Due(s) && s.hist.ending.Some? && Possible(s, Advances(t, input))
    requires !Writes(Local(s.task, s.hist, s.threads[t]))
    requires var s' := Apply(p, s, Advances(t, input)); s'.task.listed && NoneTerminal(s'.task.events)
    ensures var s' := Apply(p, s, Advances(t, input)); exists u :: u in s'.threads && Announces(s'.threads[u])
  {
    var x := Local(s.task, s.hist, s.threads[t]);
    var s' := Apply(p, s, Advances(t, input));
    ContextEnds(p, x, input);
    if s'.task.events != s.task.events {
      var e :| s'.task.events == s.task.events + [e];
      EarlierTerminal(s.task.events, e);
    }
    var u :| u in s.threads && Announces(s.threads[u]);
    if u == t {
      AnnouncerSteps(p, x, input);
    }
    assert u in s'.threads && Announces(s'.threads[u]);
  }

  lemma DueKept(p: Policy, s: Sys, a: Action)
    requires Inv(p, s) && Truthful(s) && Due(s) && Possible(s, a)
    ensures Due(Apply(p, s, a))
  {
    var s' := Apply(p, s, a);
    match a
    case Advances(t, input) => DueAdvance(p, s, t, input);
    case Decides(_, actor, admin, callId, approve) =>
      if Accepted(Judge(p, s.task, actor, admin, callId, approve)) {
        EndedOnceDecided(p, s, a);
      }
    case _ => OthersAnnounce(p, s, a);
  }

  /** Starting a successor and ending the context leave the announcer as it is. */
  lemma OthersAnnounce(p: Policy, s: Sys, a: Action)
    requires Due(s) && Possible(s, a) && !a.Advances? && !a.Decides?
    ensures Due(Apply(p, s, a))
  {
    var s' := Apply(p, s, a);
    if t :| t in s.threads && Announces(s.threads[t]) {
      assert t in s'.threads && s'.threads[t] == s.threads[t];
    }
    if t :| t in s.threads && s.threads[t].pc.Cancelling? {
      assert t in s'.threads && s'.threads[t] == s.threads[t];
    }
  }

  lemma {:induction false} RunTruthful(p: Policy, states: seq<Sys>, actions: seq<Action>, i: nat)
    requires IsRun(p, states, actions) && i < |states|
    ensures Truthful(states[i]) && Due(states[i])
  {
    if i > 0 {
      RunTruthful(p, states, actions, i - 1);
      RunInv(p, states, actions, i - 1);
      TruthfulKept(p, states[i - 1], actions[i - 1]);
      DueKept(p, states[i - 1], actions[i - 1]);
    }
  }

  // ----- Which end is announced -----

  /** No thread has an event left to emit or to bring up. */
  ghost predicate AllSaid(s: Sys) {
    forall t | t in s.threads :: s.threads[t].outbox == [] && !s.threads[t].pc.Cancelling?
  }

  /** Exactly this one terminal event is in the log. */
  ghost predicate OnlyEnd(events: seq<Event>, end: Event) {
    exists i :: 0 <= i < |events| && events[i] == end && forall j | 0 <= j < |events| && j != i :: !TerminalEvent(events[j])
  }

  /**
   The log says how the task ended. A completion in it means that the task is completed, a failure that a
   failure was recorded. Once the end is recorded, no thread has an event left and the task is still listed,
   the log holds exactly one terminal event, the one of the recorded ending, and the context has ended.
   */
  lemma EndIsAnnounced(p: Policy, s: Sys)
    requires Reachable(p, s)
    ensures TaskCompleted in s.task.events ==> s.task.status == Completed && s.hist.ending == Some(Answered(s.task.finalAnswer))
    ensures TaskFailed in s.task.events ==>
      s.hist.ending == Some(Stopped(s.task.error)) && s.task.status in {Failed, AwaitingApproval}
    ensures s.hist.ending.Some? && s.task.listed && AllSaid(s) ==>
      && OnlyEnd(s.task.events, if s.hist.ending.value.Answered? then TaskCompleted else TaskFailed)
      && s.task.ctx != Live
  {
    var states, actions :| IsRun(p, states, actions) && s == states[|states| - 1];
    RunTruthful(p, states, actions, |states| - 1);
    ReachableInv(p, s);
    if s.hist.ending.Some? && s.task.listed && AllSaid(s) {
      var i :| 0 <= i < |s.task.events| && TerminalEvent(s.task.events[i]);
      OneTerminalIs(s.task.events, i, s.hist.ending);
    }
  }

  lemma OneTerminalIs(events: seq<Event>, i: nat, ending: Option<Ending>)
    requires AtMostOneTerminal(events) && AllTell(events, ending) && ending.Some?
    requires i < |events| && TerminalEvent(events[i])
    ensures OnlyEnd(events, if ending.value.Answered? then TaskCompleted else TaskFailed)
  {
    assert Tells(events[i], ending);
  }

  // ----- Commands that wait -----

  /** The event is in the log or in some thread's outbox. */
  ghost predicate Raised(s: Sys, e: Event) {
    e in s.task.events || exists t :: t in s.threads && e in s.threads[t].outbox
  }

  /** A command that waits has been announced, or its thread has the announcement left. */
  ghost predicate WaitingRaised(s: Sys) {
    s.task.pending.Some? && s.task.listed ==> Raised(s, ApprovalRequired(s.task.pending.value.callId))
  }

  /** A thread that is done has at most one event left: it announces one end or one waiting command. */
  ghost predicate LastWords(s: Sys) {
    forall t | t in s.threads && s.threads[t].pc == Gone :: |s.threads[t].outbox| <= 1
  }

  /** An event leaves an outbox only for the log, unless the task is gone. */
  lemma RaisedAdvance(p: Policy, s: Sys, t: nat, input: Input, e: Event)
    requires Possible(s, Advances(t, input)) && Raised(s, e) && s.task.listed
    ensures Raised(Apply(p, s, Advances(t, input)), e)
  {
    var s' := Apply(p, s, Advances(t, input));
    var x := Local(s.task, s.hist, s.threads[t]);
    OutboxAdvance(p, x, input);
    if e !in s'.task.events {
      var u :| u in s.threads && e in s.threads[u].outbox;
      assert u in s'.threads && e in s'.threads[u].outbox;
    }
  }

  lemma OutboxAdvance(p: Policy, x: Local, input: Input)
    requires Ready(x, input)
    ensures var x' := Advance(p, x, input);
      && x.task.events <= x'.task.events && x'.task.listed == x.task.listed
      && (x.task.listed ==> forall e | e in x.thread.outbox :: e in x'.task.events || e in x'.thread.outbox)
  {
    if x.thread.outbox != [] {
      var rest := x.thread.outbox[1..];
      assert x.thread.outbox == [x.thread.outbox[0]] + rest;
    } else {
      SectionQuiet(p, x, input);
    }
  }

  lemma ParkedOrKept(p: Policy, x: Local, input: Input)
    requires Ready(x, input)
    ensures var x' := Advance(p, x, input);
      || x'.task.pending == x.task.pending
      || (x'.task.pending.Some? && x'.thread == Thread([ApprovalRequired(x'.task.pending.value.callId)], Gone))
  {
  }

  lemma WaitingAdvance(p: Policy, s: Sys, t: nat, input: Input)
    requires WaitingRaised(s) && Possible(s, Advances(t, input))
    ensures WaitingRaised(Apply(p, s, Advances(t, input)))
  {
    var x := Local(s.task, s.hist, s.threads[t]);
    var s' := Apply(p, s, Advances(t, input));
    ParkedOrKept(p, x, input);
    OutboxAdvance(p, x, input);
    if s'.task.pending.Some? && s'.task.listed {
      var e := ApprovalRequired(s'.task.pending.value.callId);
      if s'.task.pending == s.task.pending {
        RaisedAdvance(p, s, t, input, e);
      } else {
        assert t in s'.threads && e in s'.threads[t].outbox;
      }
    }
  }

  lemma WaitingOthers(p: Policy, s: Sys, a: Action)
    requires WaitingRaised(s) && Possible(s, a) && !a.Advances?
    ensures WaitingRaised(Apply(p, s, a))
  {
    var s' := Apply(p, s, a);
    if s'.task.pending.Some? && s'.task.listed {
      var e := ApprovalRequired(s'.task.pending.value.callId);
      if e !in s.task.events {
        var t :| t in s.threads && e in s.threads[t].outbox;
        assert t in s'.threads && s'.threads[t] == s.threads[t];
      }
    }
  }

  lemma LastWordsKept(p: Policy, s: Sys, a: Action)
    requires LastWords(s) && Possible(s, a)
    ensures LastWords(Apply(p, s, a))
  {
    if a.Advances? {
      LastWordsStep(p, Local(s.task, s.hist, s.threads[a.tid]), a.input);
    }
  }

  lemma LastWordsStep(p: Policy, x: Local, input: Input)
    requires Ready(x, input) && (x.thread.pc == Gone ==> |x.thread.outbox| <= 1)
    ensures var th := Advance(p, x, input).thread;
      th.pc == Gone ==> |th.outbox| <= 1
  {
  }

  lemma {:induction false} RunWaiting(p: Policy, states: seq<Sys>, actions: seq<Action>, i: nat)
    requires IsRun(p, states, actions) && i < |states|
    ensures WaitingRaised(states[i]) && LastWords(states[i])
  {
    if i > 0 {
      RunWaiting(p, states, actions, i - 1);
      LastWordsKept(p, states[i - 1], actions[i - 1]);
      if actions[i - 1].Advances? {
        WaitingAdvance(p, states[i - 1], actions[i - 1].tid, actions[i - 1].input);
      } else {
        WaitingOthers(p, states[i - 1], actions[i - 1]);
      }
    }
  }

  /** A raised request for approval is that of the command just parked, or was raised before. */
  lemma RaisedStep(p: Policy, s: Sys, a: Action, callId: string)
    requires AnnouncedOnce(s) && Possible(s, a) && Raised(Apply(p, s, a), ApprovalRequired(callId))
    ensures var s' := Apply(p, s, a);
      Raised(s, ApprovalRequired(callId)) || (s'.task.pending.Some? && s'.task.pending.value.callId == callId)
  {
    var s', e := Apply(p, s, a), ApprovalRequired(callId);
    if a.Advances? {
      RequiredStep(p, Local(s.task, s.hist, s.threads[a.tid]), a.input, callId);
      if e !in s'.task.events {
        var t :| t in s'.threads && e in s'.threads[t].outbox;
      }
    } else if e !in s'.task.events {
      var t :| t in s'.threads && e in s'.threads[t].outbox;
      assert t in s.threads && s.threads[t] == s'.threads[t];
    }
  }

  lemma RequiredSection(p: Policy, x: Local, input: Input, callId: string)
    requires Ready(x, input) && x.thread.outbox == [] && Shaped(x.thread)
    requires ApprovalRequired(callId) in Advance(p, x, input).thread.outbox
    ensures var x' := Advance(p, x, input); x'.task.pending.Some? && x'.task.pending.value.callId == callId
  {
  }

  lemma RequiredStep(p: Policy, x: Local, input: Input, callId: string)
    requires Ready(x, input) && Shaped(x.thread)
    ensures var x', e := Advance(p, x, input), ApprovalRequired(callId);
      e in x'.task.events || e in x'.thread.outbox ==>
        || e in x.task.events || e in x.thread.outbox
        || (x'.task.pending.Some? && x'.task.pending.value.callId == callId)
  {
    if x.thread.outbox != [] {
      assert x.thread.outbox == [x.thread.outbox[0]] + x.thread.outbox[1..];
    } else {
      SectionQuiet(p, x, input);
      if ApprovalRequired(callId) in Advance(p, x, input).thread.outbox {
        RequiredSection(p, x, input, callId);
      }
    }
  }

  lemma {:induction false} RaisedWasParked(p: Policy, states: seq<Sys>, actions: seq<Action>, i: nat, callId: string)
    returns (j: nat)
    requires IsRun(p, states, actions) && i < |states| && Raised(states[i], ApprovalRequired(callId))
    ensures j <= i && states[j].task.pending.Some? && states[j].task.pending.value.callId == callId
  {
    if i == 0 {
      assert false;
    } else {
      RunInv(p, states, actions, i - 1);
      RaisedStep(p, states[i - 1], actions[i - 1], callId);
      if states[i].task.pending.Some? && states[i].task.pending.value.callId == callId {
        j := i;
      } else {
        j := RaisedWasParked(p, states, actions, i - 1, callId);
      }
    }
  }

  /**
   Requests for approval in the log are those of parked commands: each one in it goes back to a state in which
   a command with that call ID waited, and while a command waits and no thread has an event left, it is there.
   */
  lemma WaitingIsAnnounced(p: Policy, states: seq<Sys>, actions: seq<Action>, i: nat)
    requires IsRun(p, states, actions) && i < |states|
    ensures forall callId | ApprovalRequired(callId) in states[i].task.events ::
      exists j :: 0 <= j <= i && states[j].task.pending.Some? && states[j].task.pending.value.callId == callId
    ensures states[i].task.pending.Some? && states[i].task.listed && AllSaid(states[i]) ==>
      ApprovalRequired(states[i].task.pending.value.callId) in states[i].task.events
  {
    forall callId | ApprovalRequired(callId) in states[i].task.events
      ensures exists j :: 0 <= j <= i && states[j].task.pending.Some? && states[j].task.pending.value.callId == callId
    {
      var j := RaisedWasParked(p, states, actions, i, callId);
    }
    RunWaiting(p, states, actions, i);
  }

  // ----- A task that is gone -----

  ghost predicate GoneEnded(s: Sys) { s.task.listed || s.task.ctx != Live }

  lemma GoneKept(p: Policy, s: Sys, a: Action)
    requires GoneEnded(s) && Possible(s, a)
    ensures var s' := Apply(p, s, a);
      && GoneEnded(s') && (!s.task.listed ==> !s'.task.listed && s'.task.events == s.task.events)
      && s.task.events <= s'.task.events
  {
  }

  lemma {:induction false} RunGone(p: Policy, states: seq<Sys>, actions: seq<Action>, i: nat)
    requires IsRun(p, states, actions) && i < |states|
    ensures GoneEnded(states[i])
  {
    if i > 0 {
      RunGone(p, states, actions, i - 1);
      GoneKept(p, states[i - 1], actions[i - 1]);
    }
  }

  /** The log only grows at its end; a task taken off the table has an ended context and its log stays as it is. */
  lemma LogGrowsWhileListed(p: Policy, s: Sys, a: Action)
    requires Reachable(p, s) && Possible(s, a)
    ensures s.task.events <= Apply(p, s, a).task.events
    ensures !s.task.listed ==> s.task.ctx != Live
    ensures !s.task.listed ==> !Apply(p, s, a).task.listed && Apply(p, s, a).task.events == s.task.events
  {
    var states, actions :| IsRun(p, states, actions) && s == states[|states| - 1];
    RunGone(p, states, actions, |states| - 1);
    GoneKept(p, s, a);
  }

  // ----- Decisions -----

  function Announced(d: Decision): Event { ApprovalDecided(d.callId, d.approved, d.actor) }

  ghost predicate IsAnnounced(ds: seq<Decision>, e: Event) {
    exists k :: 0 <= k < |ds| && Announced(ds[k]) == e
  }

  /** Every announced decision was recorded, and while the task is listed every recorded one is announced. */
  ghost predicate DecisionsRaised(s: Sys) {
    && (forall e: Event | e.ApprovalDecided? && Raised(s, e) :: IsAnnounced(s.hist.decisions, e))
    && (s.task.listed ==> forall k | 0 <= k < |s.hist.decisions| :: Raised(s, Announced(s.hist.decisions[k])))
  }

  lemma DecisionSection(p: Policy, x: Local, input: Input, e: Event)
    requires Ready(x, input) && Shaped(x.thread) && e.ApprovalDecided?
    ensures var x' := Advance(p, x, input);
      && x'.hist.decisions == x.hist.decisions
      && (e in x'.task.events || e in x'.thread.outbox ==> e in x.task.events || e in x.thread.outbox)
  {
    if x.thread.outbox != [] {
      assert x.thread.outbox == [x.thread.outbox[0]] + x.thread.outbox[1..];
    } else {
      SectionQuiet(p, x, input);
      NoDecisionInSection(p, x, input, e);
    }
  }

  lemma NoDecisionInSection(p: Policy, x: Local, input: Input, e: Event)
    requires Ready(x, input) && Shaped(x.thread) && x.thread.outbox == [] && e.ApprovalDecided?
    ensures e !in Advance(p, x, input).thread.outbox
  {
  }

  lemma RaisedBefore(p: Policy, s: Sys, t: nat, input: Input, e: Event)
    requires AnnouncedOnce(s) && Possible(s, Advances(t, input)) && e.ApprovalDecided?
    requires Raised(Apply(p, s, Advances(t, input)), e)
    ensures Raised(s, e) && Apply(p, s, Advances(t, input)).hist.decisions == s.hist.decisions
  {
    var s' := Apply(p, s, Advances(t, input));
    DecisionSection(p, Local(s.task, s.hist, s.threads[t]), input, e);
    if e !in s'.task.events {
      var u :| u in s'.threads && e in s'.threads[u].outbox;
      assert u in s.threads;
    }
  }

  lemma DecisionsAdvance(p: Policy, s: Sys, t: nat, input: Input)
    requires AnnouncedOnce(s) && DecisionsRaised(s) && Possible(s, Advances(t, input))
    ensures DecisionsRaised(Apply(p, s, Advances(t, input)))
  {
    var s' := Apply(p, s, Advances(t, input));
    LogGrowth(p, s, Advances(t, input));
    OutboxAdvance(p, Local(s.task, s.hist, s.threads[t]), input);
    forall e: Event | e.ApprovalDecided? && Raised(s', e) ensures IsAnnounced(s'.hist.decisions, e) {
      RaisedBefore(p, s, t, input, e);
    }
    if s'.task.listed {
      forall k | 0 <= k < |s'.hist.decisions| ensures Raised(s', Announced(s'.hist.decisions[k])) {
        RaisedAdvance(p, s, t, input, Announced(s.hist.decisions[k]));
      }
    }
  }

  lemma RaisedByDecision(s: Sys, t: nat, v: Verdict, actor: string, e: Event)
    requires Accepted(v) && t !in s.threads && e.ApprovalDecided?
    ensures Raised(Decided(s, t, v, actor), e) <==> Raised(s, e) || e in DecideThread(v, actor).outbox
  {
    var s' := Decided(s, t, v, actor);
    assert s'.task.events == s.task.events;
    if u :| u in s.threads && e in s.threads[u].outbox {
      assert u in s'.threads && e in s'.threads[u].outbox;
    }
    assert t in s'.threads && s'.threads[t] == DecideThread(v, actor);
  }

  lemma VerdictLogged(s: Sys, v: Verdict, actor: string)
    requires Accepted(v)
    ensures RecordVerdict(s.hist, v, actor).decisions
         == s.hist.decisions + [Decision(Cursor(s.hist), v.pending.callId, actor, !v.Denied?)]
    ensures forall e: Event | e.ApprovalDecided? ::
      e in DecideThread(v, actor).outbox <==> e == ApprovalDecided(v.pending.callId, !v.Denied?, actor)
  {
  }

  lemma DecisionsDecided(s: Sys, t: nat, v: Verdict, actor: string)
    requires DecisionsRaised(s) && Accepted(v) && t !in s.threads
    ensures DecisionsRaised(Decided(s, t, v, actor))
  {
    var s', ds := Decided(s, t, v, actor), s.hist.decisions;
    VerdictLogged(s, v, actor);
    var ds' := s'.hist.decisions;
    forall e: Event | e.ApprovalDecided? && Raised(s', e) ensures IsAnnounced(ds', e) {
      RaisedByDecision(s, t, v, actor, e);
      if Raised(s, e) {
        var k :| 0 <= k < |ds| && Announced(ds[k]) == e;
        assert Announced(ds'[k]) == e;
      } else {
        assert Announced(ds'[|ds|]) == e;
      }
    }
    forall k | 0 <= k < |ds'| && s'.task.listed ensures Raised(s', Announced(ds'[k])) {
      RaisedByDecision(s, t, v, actor, Announced(ds'[k]));
      if k < |ds| {
        assert ds'[k] == ds[k];
      }
    }
  }

  lemma DecisionsOthers(p: Policy, s: Sys, a: Action)
    requires DecisionsRaised(s) && Possible(s, a) && !a.Advances? && !a.Decides?
    ensures DecisionsRaised(Apply(p, s, a))
  {
    var s' := Apply(p, s, a);
    forall e: Event ensures Raised(s', e) <==> Raised(s, e) {
      if t :| t in s.threads && e in s.threads[t].outbox {
        assert t in s'.threads && s'.threads[t] == s.threads[t];
      }
      if t :| t in s'.threads && e in s'.threads[t].outbox {
        assert t in s.threads && s.threads[t] == s'.threads[t];
      }
    }
  }

  lemma {:induction false} RunDecisions(p: Policy, states: seq<Sys>, actions: seq<Action>, i: nat)
    requires IsRun(p, states, actions) && i < |states|
    ensures DecisionsRaised(states[i])
  {
    if i > 0 {
      RunDecisions(p, states, actions, i - 1);
      RunInv(p, states, actions, i - 1);
      DecisionsKept(p, states[i - 1], actions[i - 1]);
    }
  }

  lemma DecisionsKept(p: Policy, s: Sys, a: Action)
    requires AnnouncedOnce(s) && DecisionsRaised(s) && Possible(s, a)
    ensures DecisionsRaised(Apply(p, s, a))
  {
    match a
    case Advances(t, input) => DecisionsAdvance(p, s, t, input);
    case Decides(t, actor, admin, callId, approve) =>
      var v := Judge(p, s.task, actor, admin, callId, approve);
      if Accepted(v) {
        DecisionsDecided(s, t, v, actor);
      }
    case _ => DecisionsOthers(p, s, a);
  }

  /**
   Each announced decision in the log is a recorded one with the same call, verdict and actor; and while the task
   is listed and no thread has an event left, every recorded decision is in the log.
   */
  lemma DecisionsAnnounced(p: Policy, s: Sys)
    requires Reachable(p, s)
    ensures forall callId, approved, actor | ApprovalDecided(callId, approved, actor) in s.task.events ::
      exists k :: 0 <= k < |s.hist.decisions| && Says(s.hist.decisions[k], callId, approved, actor)
    ensures s.task.listed && AllSaid(s) ==>
      forall k | 0 <= k < |s.hist.decisions| :: Announced(s.hist.decisions[k]) in s.task.events
  {
    var states, actions :| IsRun(p, states, actions) && s == states[|states| - 1];
    RunDecisions(p, states, actions, |states| - 1);
    forall callId, approved, actor | ApprovalDecided(callId, approved, actor) in s.task.events
      ensures exists k :: 0 <= k < |s.hist.decisions| && Says(s.hist.decisions[k], callId, approved, actor)
    {
      assert Raised(s, ApprovalDecided(callId, approved, actor));
      var k :| 0 <= k < |s.hist.decisions| && Announced(s.hist.decisions[k]) == ApprovalDecided(callId, approved, actor);
      assert Says(s.hist.decisions[k], callId, approved, actor);
    }
    if s.task.listed && AllSaid(s) {
      forall k | 0 <= k < |s.hist.decisions| ensures Announced(s.hist.decisions[k]) in s.task.events {
        assert Raised(s, Announced(s.hist.decisions[k]));
      }
    }
  }

  predicate Says(d: Decision, callId: string, approved: bool, actor: string) {
    d.callId == callId && d.approved == approved && d.actor == actor
  }
}
