/** A task ends at most once, whatever interleaves. */
module OpsEndings {
  import opened OpsTask
  import opened OpsProtocol
  import opened OpsInvariant
  import opened OpsSafety

  ghost predicate OneWatcher(s: Sys) {
    && (forall t, u | t in s.threads && u in s.threads && Watches(s.threads[t]) && Watches(s.threads[u]) :: t == u)
    && (forall t | t in s.threads && s.threads[t].pc == WatchLock :: s.task.ctx == Expired)
  }

  /** An outbox ends with its only terminal event, and then the thread has nothing left to do. */
  ghost predicate Shaped(th: Thread) {
    && (forall k | 0 <= k < |th.outbox| && TerminalEvent(th.outbox[k]) :: k == |th.outbox| - 1 && th.pc == Gone)
    && (th.pc.Cancelling? ==> TerminalEvent(th.pc.event))
  }

  ghost predicate NoneTerminal(events: seq<Event>) {
    forall i | 0 <= i < |events| :: !TerminalEvent(events[i])
  }

  ghost predicate AtMostOneTerminal(events: seq<Event>) {
    forall i, j | 0 <= i < j < |events| :: !(TerminalEvent(events[i]) && TerminalEvent(events[j]))
  }

  ghost predicate AnnouncedOnce(s: Sys) {
    && (forall t | t in s.threads :: Shaped(s.threads[t]))
    && (forall t, u | t in s.threads && u in s.threads && Announces(s.threads[t]) && Announces(s.threads[u]) :: t == u)
    && AtMostOneTerminal(s.task.events)
    && ((exists t :: t in s.threads && Announces(s.threads[t])) ==> NoneTerminal(s.task.events))
    && (s.hist.ending.None? ==>
          NoneTerminal(s.task.events) && forall t | t in s.threads :: !Announces(s.threads[t]))
  }

  /** Nothing will move the task again. */
  ghost predicate Settled(s: Sys) {
    Terminal(s.task.status) && s.task.pending.None? && forall t | t in s.threads :: !Owns(s.threads[t])
  }

  /** The deadline ended the task while its owner was still at work; the owner can only run out. */
  ghost predicate Overtaken(s: Sys) {
    && s.task.ctx == Expired
    && (s.task.status == Failed || s.task.status == AwaitingApproval)
    && forall t | t in s.threads :: !Watches(s.threads[t])
  }

  ghost predicate EndedOnce(s: Sys) {
    && (s.hist.ending.None? ==> !Terminal(s.task.status))
    && (s.hist.ending.Some? ==> Settled(s) || Overtaken(s))
    && (s.task.status == AwaitingApproval ==> s.task.pending.Some?)
  }

  lemma WatchStep(p: Policy, x: Local, input: Input)
    requires Ready(x, input)
    ensures var x' := Advance(p, x, input);
      && (Watches(x'.thread) ==> Watches(x.thread))
      && (x'.thread.pc == WatchLock ==> x.thread.pc == WatchLock || x.task.ctx == Expired)
      && (x.task.ctx == Expired ==> x'.task.ctx == Expired)
  {
  }

  lemma OneWatcherKept(p: Policy, s: Sys, a: Action)
    requires OneWatcher(s) && Possible(s, a)
    ensures OneWatcher(Apply(p, s, a))
  {
    var s' := Apply(p, s, a);
    match a
    case Advances(t, input) =>
      WatchStep(p, Local(s.task, s.hist, s.threads[t]), input);
      WatchMoves(s, s', t, t);
    case Spawns(t, r, w) => WatchMoves(s, s', t, w);
    case HandsOff(t, r) => WatchMoves(s, s', t, r);
    case Decides(t, actor, admin, callId, approve) =>
      var v := Judge(p, s.task, actor, admin, callId, approve);
      if Accepted(v) {
        DecisionWatches(s, t, v, actor);
      }
    case _ =>
  }

  lemma DecisionWatches(s: Sys, t: nat, v: Verdict, actor: string)
    requires OneWatcher(s) && Accepted(v) && t !in s.threads
    ensures OneWatcher(Decided(s, t, v, actor))
  {
    assert !Watches(DecideThread(v, actor));
  }

  lemma WatchMoves(s: Sys, s': Sys, from: nat, to: nat)
    requires OneWatcher(s) && from in s.threads
    requires forall u | u in s'.threads && Watches(s'.threads[u]) && u != to ::
      u in s.threads && u != from && s'.threads[u] == s.threads[u]
    requires to in s'.threads && Watches(s'.threads[to]) ==> Watches(s.threads[from])
    requires to in s'.threads && s'.threads[to].pc == WatchLock ==> s'.task.ctx == Expired
    requires s.task.ctx == Expired ==> s'.task.ctx == Expired
    ensures OneWatcher(s')
  {
    forall t | t in s'.threads && s'.threads[t].pc == WatchLock ensures s'.task.ctx == Expired {
      assert Watches(s'.threads[t]);
    }
  }

  // ----- The status and the ending -----

  /** The thread writes the ending now: it is at a terminal write and the task is not terminal. */
  predicate Writes(x: Local) {
    && x.thread.outbox == []
    && (x.thread.pc.Completing? || x.thread.pc.Failing? || x.thread.pc == WatchLock)
    && !Terminal(x.task.status)
  }

  /** What one thread's step can do to the status and to its own standing. */
  lemma StatusStep(p: Policy, x: Local, input: Input)
    requires Ready(x, input)
    ensures var x' := Advance(p, x, input);
      && (Writes(x) ==> x'.hist.ending.Some? && Terminal(x'.task.status) && x'.task.pending == x.task.pending)
      && (Writes(x) ==> !Owns(x'.thread) && !Watches(x'.thread))
      && (Writes(x) && x.thread.pc == WatchLock ==> x'.task.status == Failed)
      && (!Writes(x) ==> x'.hist.ending == x.hist.ending)
      && (!Writes(x) && x'.task.status != x.task.status ==>
            x.thread.pc.Parking? && x'.task.status == AwaitingApproval && x'.task.pending.Some?)
      && (x.task.pending.Some? ==> x'.task.pending.Some?)
      && (x.task.ctx == Expired ==> x'.task.ctx == Expired)
  {
  }

  lemma EndedOnceAdvance(p: Policy, s: Sys, t: nat, input: Input)
    requires OneOwner(s) && OneWatcher(s) && EndedOnce(s) && Possible(s, Advances(t, input))
    ensures EndedOnce(Apply(p, s, Advances(t, input)))
  {
    var x := Local(s.task, s.hist, s.threads[t]);
    var s' := Apply(p, s, Advances(t, input));
    StatusStep(p, x, input);
    OwnershipStep(p, x, input);
    WatchStep(p, x, input);
    if Writes(x) {
      if x.thread.pc == WatchLock {
        assert Watches(s.threads[t]);
        assert Overtaken(s');
      } else {
        assert Owns(s.threads[t]);
        assert Settled(s');
      }
    } else if s.hist.ending.Some? {
      if Settled(s) {
        assert !Owns(s.threads[t]);
        assert Settled(s');
      } else {
        assert Overtaken(s');
      }
    }
  }

  /** A decision is accepted only while the task waits, and then no ending is recorded. */
  lemma EndedOnceDecided(p: Policy, s: Sys, a: Action)
    requires EndedOnce(s) && a.Decides? && a.tid !in s.threads
    requires Accepted(Judge(p, s.task, a.actor, a.admin, a.callId, a.approve))
    ensures s.hist.ending.None?
    ensures EndedOnce(Decided(s, a.tid, Judge(p, s.task, a.actor, a.admin, a.callId, a.approve), a.actor))
  {
    assert s.hist.ending.None?;
  }

  lemma EndedOnceStarted(p: Policy, s: Sys, a: Action)
    requires EndedOnce(s) && Possible(s, a) && (a.Spawns? || a.HandsOff?)
    ensures EndedOnce(Apply(p, s, a))
  {
    assert Owns(s.threads[a.tid]);
    if a.Spawns? {
      assert Watches(s.threads[a.tid]);
    } else {
      assert s.hist.ending.Some? ==> Overtaken(Apply(p, s, a));
    }
  }

  lemma EndedOnceKept(p: Policy, s: Sys, a: Action)
    requires OneOwner(s) && OneWatcher(s) && EndedOnce(s) && Possible(s, a)
    ensures EndedOnce(Apply(p, s, a))
  {
    match a
    case Advances(t, input) => EndedOnceAdvance(p, s, t, input);
    case Decides(_, actor, admin, callId, approve) =>
      if Accepted(Judge(p, s.task, actor, admin, callId, approve)) {
        EndedOnceDecided(p, s, a);
      }
    case Spawns(_, _, _) => EndedOnceStarted(p, s, a);
    case HandsOff(_, _) => EndedOnceStarted(p, s, a);
    case _ =>
  }

  // ----- The announcement -----

  lemma AnnounceStep(p: Policy, x: Local, input: Input)
    requires Ready(x, input) && Shaped(x.thread)
    ensures var x' := Advance(p, x, input);
      && Shaped(x'.thread)
      && (Announces(x'.thread) ==> Announces(x.thread) || Writes(x))
      && (x'.task.events == x.task.events
          || exists e :: x'.task.events == x.task.events + [e]
               && (TerminalEvent(e) ==> Announces(x.thread) && !Announces(x'.thread)))
  {
    if x.thread.outbox != [] {
      OutboxStep(p, x);
    } else {
      SectionQuiet(p, x, input);
      SectionShape(p, x, input);
    }
  }

  /** Only the outbox writes events. */
  lemma SectionQuiet(p: Policy, x: Local, input: Input)
    requires Ready(x, input) && x.thread.outbox == []
    ensures Advance(p, x, input).task.events == x.task.events
  {
  }

  lemma SectionShape(p: Policy, x: Local, input: Input)
    requires Ready(x, input) && x.thread.outbox == [] && Shaped(x.thread)
    ensures var x' := Advance(p, x, input);
      Shaped(x'.thread) && (Announces(x'.thread) ==> Announces(x.thread) || Writes(x))
  {
  }

  lemma OutboxStep(p: Policy, x: Local)
    requires x.thread.outbox != [] && Shaped(x.thread)
    ensures var x', e := Advance(p, x, NoInput), x.thread.outbox[0];
      && Shaped(x'.thread)
      && (Announces(x'.thread) ==> Announces(x.thread))
      && (TerminalEvent(e) ==> Announces(x.thread) && !Announces(x'.thread))
      && (x'.task.events == x.task.events || x'.task.events == x.task.events + [e])
  {
    var x', e, rest := Advance(p, x, NoInput), x.thread.outbox[0], x.thread.outbox[1..];
    assert forall k | 0 <= k < |rest| :: rest[k] == x.thread.outbox[k + 1];
    if Announces(x'.thread) && !x'.thread.pc.Cancelling? {
      var k :| 0 <= k < |rest| && TerminalEvent(rest[k]);
      assert TerminalEvent(x.thread.outbox[k + 1]);
    }
  }

  /** One thread's step: it may become the only announcer, or turn its announcement into an event. */
  lemma AnnouncerMoves(s: Sys, s': Sys, t: nat, writes: bool)
    requires AnnouncedOnce(s) && t in s.threads && t in s'.threads && s'.threads == s.threads[t := s'.threads[t]]
    requires Shaped(s'.threads[t]) && (Announces(s'.threads[t]) ==> Announces(s.threads[t]) || writes)
    requires writes ==> s.hist.ending.None?
    requires s'.hist.ending == s.hist.ending || (writes && s'.hist.ending.Some?)
    requires writes ==> s'.hist.ending.Some?
    requires s'.task.events == s.task.events
      || exists e :: s'.task.events == s.task.events + [e]
           && (TerminalEvent(e) ==> Announces(s.threads[t]) && !Announces(s'.threads[t]))
    ensures AnnouncedOnce(s')
  {
    if s'.task.events != s.task.events {
      var e :| s'.task.events == s.task.events + [e]
        && (TerminalEvent(e) ==> Announces(s.threads[t]) && !Announces(s'.threads[t]));
      if TerminalEvent(e) {
        assert forall u | u in s'.threads :: !Announces(s'.threads[u]);
      }
    }
  }

  lemma AnnouncedOnceAdvance(p: Policy, s: Sys, t: nat, input: Input)
    requires EndedOnce(s) && AnnouncedOnce(s) && Possible(s, Advances(t, input))
    requires Writes(Local(s.task, s.hist, s.threads[t])) ==> s.hist.ending.None?
    ensures AnnouncedOnce(Apply(p, s, Advances(t, input)))
  {
    var x := Local(s.task, s.hist, s.threads[t]);
    AnnounceStep(p, x, input);
    StatusStep(p, x, input);
    AnnouncerMoves(s, Apply(p, s, Advances(t, input)), t, Writes(x));
  }

  /** A terminal write happens only while no ending is recorded. */
  lemma FirstWrite(s: Sys, t: nat)
    requires OneOwner(s) && EndedOnce(s) && t in s.threads
    requires Writes(Local(s.task, s.hist, s.threads[t]))
    ensures s.hist.ending.None?
  {
    if s.threads[t].pc == WatchLock {
      assert Watches(s.threads[t]);
    } else {
      assert Owns(s.threads[t]);
    }
  }

  lemma DecideThreadShape(v: Verdict, actor: string)
    requires Accepted(v)
    ensures Shaped(DecideThread(v, actor)) && !Announces(DecideThread(v, actor))
  {
  }

  /** A step that adds no event and no announcer. */
  lemma QuietStep(s: Sys, s': Sys)
    requires AnnouncedOnce(s) && s'.task.events == s.task.events && s'.hist.ending == s.hist.ending
    requires forall t | t in s'.threads :: (t in s.threads && s'.threads[t] == s.threads[t])
                                         || (Shaped(s'.threads[t]) && !Announces(s'.threads[t]))
    ensures AnnouncedOnce(s')
  {
  }

  lemma AnnouncedOnceDecided(s: Sys, t: nat, v: Verdict, actor: string)
    requires AnnouncedOnce(s) && Accepted(v) && t !in s.threads
    ensures AnnouncedOnce(Decided(s, t, v, actor))
  {
    DecideThreadShape(v, actor);
    QuietStep(s, Decided(s, t, v, actor));
  }

  lemma AnnouncedOnceStarted(p: Policy, s: Sys, a: Action)
    requires AnnouncedOnce(s) && Possible(s, a) && !a.Advances? && !a.Decides?
    ensures AnnouncedOnce(Apply(p, s, a))
  {
    QuietStep(s, Apply(p, s, a));
  }

  lemma AnnouncedOnceKept(p: Policy, s: Sys, a: Action)
    requires OneOwner(s) && EndedOnce(s) && AnnouncedOnce(s) && Possible(s, a)
    ensures AnnouncedOnce(Apply(p, s, a))
  {
    match a
    case Advances(t, input) =>
      if Writes(Local(s.task, s.hist, s.threads[t])) {
        FirstWrite(s, t);
      }
      AnnouncedOnceAdvance(p, s, t, input);
    case Decides(t, actor, admin, callId, approve) =>
      var v := Judge(p, s.task, actor, admin, callId, approve);
      if Accepted(v) {
        AnnouncedOnceDecided(s, t, v, actor);
      }
    case _ => AnnouncedOnceStarted(p, s, a);
  }

  // ----- Somebody can move the task -----

  /** Until it has ended, the task has an owner or waits for a decision, and a pending command shows as such. */
  ghost predicate Attended(s: Sys) {
    s.hist.ending.None? ==>
      && (s.task.pending.Some? ==> s.task.status == AwaitingApproval)
      && (s.task.pending.Some? || exists t :: t in s.threads && Owns(s.threads[t]))
  }

  /** An owner lets go only by parking a command, or by writing or finding the end. */
  lemma LeavingStep(p: Policy, x: Local, input: Input)
    requires Ready(x, input) && Owns(x.thread)
    ensures var x' := Advance(p, x, input);
      || Owns(x'.thread)
      || (x'.task.pending.Some? && x'.task.status == AwaitingApproval)
      || Writes(x)
      || x.task.status != Running
  {
  }

  lemma AttendedAdvance(p: Policy, s: Sys, t: nat, input: Input)
    requires OneOwner(s) && EndedOnce(s) && Attended(s) && Possible(s, Advances(t, input))
    ensures Attended(Apply(p, s, Advances(t, input)))
  {
    var x := Local(s.task, s.hist, s.threads[t]);
    var s' := Apply(p, s, Advances(t, input));
    StatusStep(p, x, input);
    OwnershipStep(p, x, input);
    if Owns(x.thread) {
      LeavingStep(p, x, input);
      assert Owns(s'.threads[t]) ==> exists u :: u in s'.threads && Owns(s'.threads[u]);
    } else if u :| u in s.threads && Owns(s.threads[u]) {
      assert u in s'.threads && Owns(s'.threads[u]);
    }
  }

  lemma AttendedDecided(s: Sys, t: nat, v: Verdict, actor: string)
    requires Accepted(v)
    ensures Attended(Decided(s, t, v, actor))
  {
    var s' := Decided(s, t, v, actor);
    assert t in s'.threads && Owns(s'.threads[t]);
  }

  lemma AttendedKept(p: Policy, s: Sys, a: Action)
    requires OneOwner(s) && EndedOnce(s) && Attended(s) && Possible(s, a)
    ensures Attended(Apply(p, s, a))
  {
    var s' := Apply(p, s, a);
    match a
    case Advances(t, input) => AttendedAdvance(p, s, t, input);
    case Decides(t, actor, admin, callId, approve) =>
      var v := Judge(p, s.task, actor, admin, callId, approve);
      if Accepted(v) {
        AttendedDecided(s, t, v, actor);
      }
    case Spawns(_, r, _) => assert r in s'.threads && Owns(s'.threads[r]);
    case HandsOff(_, r) => assert r in s'.threads && Owns(s'.threads[r]);
    case _ =>
  }
}
