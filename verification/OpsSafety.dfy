/** Ownership, progress and endings are kept by every action of the system. */
module OpsSafety {
  import opened OpsTask
  import opened OpsProtocol
  import opened OpsTranscript
  import opened OpsInvariant

  // ----- Ownership -----

  lemma OwnershipStep(p: Policy, x: Local, input: Input)
    requires Ready(x, input)
    ensures var x' := Advance(p, x, input);
      && (Owns(x'.thread) ==> Owns(x.thread))
      && (x'.task.pending.Some? ==> x.task.pending.Some? || (Owns(x.thread) && !Owns(x'.thread)))
  {
  }

  lemma OneOwnerKept(p: Policy, s: Sys, a: Action)
    requires OneOwner(s) && Possible(s, a)
    ensures OneOwner(Apply(p, s, a))
  {
    var s' := Apply(p, s, a);
    match a
    case Advances(t, input) =>
      OwnershipStep(p, Local(s.task, s.hist, s.threads[t]), input);
      OwnersMove(s, s', t, t);
    case Decides(t, actor, admin, callId, approve) =>
      var v := Judge(p, s.task, actor, admin, callId, approve);
      if Accepted(v) {
        assert forall u | u in s'.threads && Owns(s'.threads[u]) :: u == t;
      }
    case Spawns(t, r, w) => OwnersMove(s, s', t, r);
    case HandsOff(t, r) => OwnersMove(s, s', t, r);
    case _ =>
  }

  /** At most one thread changes from owning, and only it can pass ownership on. */
  lemma OwnersMove(s: Sys, s': Sys, from: nat, to: nat)
    requires OneOwner(s) && from in s.threads
    requires forall u | u in s'.threads && Owns(s'.threads[u]) && u != to ::
      u in s.threads && u != from && s'.threads[u] == s.threads[u]
    requires to in s'.threads && Owns(s'.threads[to]) ==> Owns(s.threads[from])
    requires s'.task.pending.Some? ==>
      s.task.pending.Some? || (Owns(s.threads[from]) && (to in s'.threads ==> !Owns(s'.threads[to])))
    ensures OneOwner(s')
  {
  }

  // ----- Progress -----

  lemma RevalidationPasses(p: Policy, t: Task, h: History, actor: string, admin: bool, callId: string, approve: bool)
    requires t.pending.Some? ==> Parked(p, t, h)
    ensures !Judge(p, t, actor, admin, callId, approve).Refused?
  {
  }

  /**
   Who may decide, on what and when, and what comes of it, for any record: an approved command passes the three
   validators with the skills loaded now.
   */
  lemma VerdictMeans(p: Policy, t: Task, actor: string, admin: bool, callId: string, approve: bool)
    ensures var v := Judge(p, t, actor, admin, callId, approve);
      && (Accepted(v) <==>
            && admin && t.listed && actor == p.creator && t.ctx == Live
            && t.status == AwaitingApproval && t.pending.Some? && t.pending.value.callId == callId)
      && (Accepted(v) ==> v.pending == t.pending.value && (v.Denied? <==> !approve))
      && (Accepted(v) && approve ==> (v.Approved? <==> Valid(p, t.loadedSkills, RequestOf(t.pending.value))))
  {
  }

  /** An accepted verdict is the caller's word on the pending command, and the caller is the creator. */
  lemma AcceptedVerdict(p: Policy, t: Task, h: History, actor: string, admin: bool, callId: string, approve: bool)
    requires t.pending.Some? ==> Parked(p, t, h)
    requires Accepted(Judge(p, t, actor, admin, callId, approve))
    ensures t.pending.Some? && t.pending.value.callId == callId && actor == p.creator && t.ctx == Live
    ensures t.status == AwaitingApproval
    ensures Judge(p, t, actor, admin, callId, approve)
         == if approve then Approved(t.pending.value) else Denied(t.pending.value)
  {
    RevalidationPasses(p, t, h, actor, admin, callId, approve);
  }

  lemma ApprovedAt(p: Policy, t: Task, h: History)
    requires Sound(p, t, h) && t.pending.Some? && Parked(p, t, h)
    ensures var v := Approved(t.pending.value);
      var t', h' := AfterVerdict(t, v), RecordVerdict(h, v, p.creator);
      Sound(p, t', h') && Holds(p, t', h', DecideThread(v, p.creator).pc)
  {
    DecidedLogs(p, h, t.pending.value.callId, true);
  }

  lemma DeniedAt(p: Policy, t: Task, h: History)
    requires Sound(p, t, h) && t.pending.Some? && Parked(p, t, h)
    ensures var v := Denied(t.pending.value);
      var t', h' := AfterVerdict(t, v), RecordVerdict(h, v, p.creator);
      Sound(p, t', h') && Holds(p, t', h', DecideThread(v, p.creator).pc)
  {
    var c := t.pending.value;
    var h1 := RecordDecision(h, c.callId, p.creator, false);
    DecidedLogs(p, h, c.callId, false);
    AnsweredCall(p, t, h1, DENIAL);
    AnsweredLogs(p, h1, DENIAL);
    assert AfterVerdict(t, Denied(c)).messages == Append(t, Tool(Unanswered(h)[0].id, DENIAL)).messages;
  }

  lemma AdvanceProgress(p: Policy, s: Sys, t: nat, input: Input)
    requires OneOwner(s) && Progress(p, s) && Possible(s, Advances(t, input))
    ensures Progress(p, Apply(p, s, Advances(t, input)))
  {
    var s' := Apply(p, s, Advances(t, input));
    var x := Local(s.task, s.hist, s.threads[t]);
    OwnershipStep(p, x, input);
    if Owns(x.thread) {
      OwnerStep(p, x, input);
      assert forall u | u in s'.threads && Owns(s'.threads[u]) :: u == t;
    } else {
      BystanderStep(p, x, input);
      FrameProgress(p, s, s');
    }
  }

  /** A step outside the owner's fields that starts no owner keeps progress. */
  lemma FrameProgress(p: Policy, s: Sys, s': Sys)
    requires Progress(p, s) && SameWork(s.task, s'.task) && SameLogs(s.hist, s'.hist)
    requires forall t | t in s'.threads && Owns(s'.threads[t]) :: t in s.threads && s.threads[t] == s'.threads[t]
    ensures Progress(p, s')
  {
    SoundFrame(p, s.task, s'.task, s.hist, s'.hist);
    forall t | t in s'.threads && Owns(s'.threads[t])
      ensures Holds(p, s'.task, s'.hist, s'.threads[t].pc)
    {
      HoldsFrame(p, s.task, s'.task, s.hist, s'.hist, s.threads[t].pc);
    }
  }

  lemma DecidedProgress(p: Policy, s: Sys, t: nat, v: Verdict)
    requires OneOwner(s) && Sound(p, s.task, s.hist) && s.task.pending.Some? && Parked(p, s.task, s.hist)
    requires v == Approved(s.task.pending.value) || v == Denied(s.task.pending.value)
    ensures Progress(p, Decided(s, t, v, p.creator))
  {
    if v.Approved? {
      ApprovedAt(p, s.task, s.hist);
    } else {
      DeniedAt(p, s.task, s.hist);
    }
    SoleOwner(p, Decided(s, t, v, p.creator), t);
  }

  lemma DecideProgress(p: Policy, s: Sys, a: Action)
    requires OneOwner(s) && Progress(p, s) && a.Decides? && Possible(s, a)
    ensures Progress(p, Apply(p, s, a))
  {
    var v := Judge(p, s.task, a.actor, a.admin, a.callId, a.approve);
    if Accepted(v) {
      AcceptedVerdict(p, s.task, s.hist, a.actor, a.admin, a.callId, a.approve);
      DecidedProgress(p, s, a.tid, v);
    }
  }

  lemma SoleOwner(p: Policy, s: Sys, t: nat)
    requires Sound(p, s.task, s.hist) && s.task.pending.None?
    requires t in s.threads && Holds(p, s.task, s.hist, s.threads[t].pc)
    requires forall u | u in s.threads && Owns(s.threads[u]) :: u == t
    ensures Progress(p, s)
  {
  }

  /** A thread that starts its successor passes its facts on. */
  lemma StartProgress(p: Policy, s: Sys, a: Action)
    requires OneOwner(s) && Progress(p, s) && Possible(s, a) && (a.Spawns? || a.HandsOff?)
    ensures Progress(p, Apply(p, s, a))
  {
    var s' := Apply(p, s, a);
    var r := if a.Spawns? then a.runner else a.resumer;
    assert Holds(p, s.task, s.hist, s.threads[a.tid].pc);
    assert Holds(p, s.task, s.hist, s'.threads[r].pc);
    assert forall u | u in s'.threads && Owns(s'.threads[u]) && u != r :: u in s.threads && s.threads[u] == s'.threads[u];
  }

  lemma ProgressKept(p: Policy, s: Sys, a: Action)
    requires OneOwner(s) && Progress(p, s) && Possible(s, a)
    ensures Progress(p, Apply(p, s, a))
  {
    match a
    case Advances(t, input) => AdvanceProgress(p, s, t, input);
    case Decides(_, _, _, _, _) => DecideProgress(p, s, a);
    case Spawns(_, _, _) => StartProgress(p, s, a);
    case HandsOff(_, _) => StartProgress(p, s, a);
    case DeadlinePasses => FrameProgress(p, s, Apply(p, s, a));
    case Cancels => FrameProgress(p, s, Apply(p, s, a));
    case Reaps => FrameProgress(p, s, Apply(p, s, a));
  }
}
