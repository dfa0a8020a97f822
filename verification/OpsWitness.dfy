/** A concrete run in which a task leaves Failed: the deadline passes while a runner is about to park. */
module OpsWitness {
  import opened Basics
  import opened Text
  import opened OpsTask
  import opened OpsProtocol

  const REQUEST := ShellRequest("current-server", "printf health", "check", 5)
  const CALL := ToolCall("shell-1", "shell_exec", "{}")

  /** One step, every check passes, nothing is exempt. */
  function OneCallPolicy(): Policy {
    Policy(1, "alice", "s1", "system", "question", "skills",
           _ => Err("none"), _ => None, _ => Ok(REQUEST), _ => None, _ => None, (_, _) => None,
           _ => false, (text, _) => text)
  }

  lemma ReachedStep(p: Policy, s: Sys, a: Action)
    requires Reachable(p, s) && Possible(s, a)
    ensures Reachable(p, Apply(p, s, a))
  {
    var states, actions :| IsRun(p, states, actions) && s == states[|states| - 1];
    var states', actions' := states + [Apply(p, s, a)], actions + [a];
    assert IsRun(p, states', actions');
    assert states'[|states'| - 1] == Apply(p, s, a);
  }

  lemma ReachedStart(p: Policy)
    ensures Reachable(p, Initial(p))
  {
    assert IsRun(p, [Initial(p)], []);
  }

  lemma ReachedTurn(p: Policy, s: Sys, t: nat, input: Input, task: Task, h: History, th: Thread)
    requires Reachable(p, s) && Possible(s, Advances(t, input))
    requires Advance(p, Local(s.task, s.hist, s.threads[t]), input) == Local(task, h, th)
    ensures Reachable(p, Sys(task, h, s.threads[t := th]))
  {
    ReachedStep(p, s, Advances(t, input));
  }

  function Threads(runner: Thread, watcher: Thread): map<nat, Thread> {
    map[0 := At(Gone), 1 := runner, 2 := watcher]
  }

  function Asked(): Task {
    var p := OneCallPolicy();
    Emit(Emit(BeginStep(Emit(Fresh(p), TaskStarted)), ModelStarted(1)), ModelFinished(1, true))
  }

  function OneRound(): History {
    History([Round("", [CALL], [])], [], [], None)
  }

  /** The task after the model's one reply, with the call taken up. */
  function Taken(): Task {
    SaveQueue(Append(Asked(), Assistant("", [CALL])), [])
  }

  const NOTHING := History([], [], [], None)

  /** The task while the model is asked. */
  function Asking1(): Task {
    BeginStep(Emit(Fresh(OneCallPolicy()), TaskStarted))
  }

  lemma ReachAsking()
    ensures Reachable(OneCallPolicy(),
      Sys(Asking1(), NOTHING, Threads(Thread([ModelStarted(1)], Asking(Asking1().messages)), At(WatchWait))))
  {
    var p := OneCallPolicy();
    ReachedStart(p);
    var t1 := Emit(Fresh(p), TaskStarted);
    ReachedTurn(p, Initial(p), 0, NoInput, t1, NOTHING, At(Spawning));
    var s1 := Sys(t1, NOTHING, Initial(p).threads[0 := At(Spawning)]);
    ReachedStep(p, s1, Spawns(0, 1, 2));
    var s2 := Sys(t1, NOTHING, Threads(At(LoopTop), At(WatchWait)));
    assert Apply(p, s1, Spawns(0, 1, 2)) == s2;
    var asking := Thread([ModelStarted(1)], Asking(t1.messages));
    ReachedTurn(p, s2, 1, NoInput, Asking1(), NOTHING, asking);
    assert s2.threads[1 := asking] == Threads(asking, At(WatchWait));
  }

  lemma ReachReply()
    ensures Reachable(OneCallPolicy(), Sys(Asked(), NOTHING, Threads(At(Replied("", [CALL])), At(WatchWait))))
  {
    var p := OneCallPolicy();
    ReachAsking();
    var asking := Asking(Asking1().messages);
    var s3 := Sys(Asking1(), NOTHING, Threads(Thread([ModelStarted(1)], asking), At(WatchWait)));
    var t3 := Emit(Asking1(), ModelStarted(1));
    ReachedTurn(p, s3, 1, NoInput, t3, NOTHING, At(asking));
    assert s3.threads[1 := At(asking)] == Threads(At(asking), At(WatchWait));
    var s4 := Sys(t3, NOTHING, Threads(At(asking), At(WatchWait)));
    var reply := Thread([ModelFinished(1, true)], Replied("", [CALL]));
    ReachedTurn(p, s4, 1, ModelReplies(Completion("", [CALL])), t3, NOTHING, reply);
    assert s4.threads[1 := reply] == Threads(reply, At(WatchWait));
    var s5 := Sys(t3, NOTHING, Threads(reply, At(WatchWait)));
    ReachedTurn(p, s5, 1, NoInput, Asked(), NOTHING, At(Replied("", [CALL])));
    assert s5.threads[1 := At(Replied("", [CALL]))] == Threads(At(Replied("", [CALL])), At(WatchWait));
  }

  lemma ReachParking()
    ensures var p := OneCallPolicy();
      Reachable(p, Sys(Taken(), OneRound(), Threads(At(Parking(CALL, [], REQUEST)), At(WatchWait))))
  {
    var p := OneCallPolicy();
    ReachReply();
    var h := OneRound();
    var s1 := Sys(Asked(), NOTHING, Threads(At(Replied("", [CALL])), At(WatchWait)));
    var t2 := Append(Asked(), Assistant("", [CALL]));
    assert Trim("") == "";
    ReachedTurn(p, s1, 1, NoInput, t2, h, At(Calls([CALL])));
    assert s1.threads[1 := At(Calls([CALL]))] == Threads(At(Calls([CALL])), At(WatchWait));
    var s2 := Sys(t2, h, Threads(At(Calls([CALL])), At(WatchWait)));
    ReachedTurn(p, s2, 1, NoInput, Taken(), h, At(Dispatching(CALL, [])));
    assert s2.threads[1 := At(Dispatching(CALL, []))] == Threads(At(Dispatching(CALL, [])), At(WatchWait));
    var s3 := Sys(Taken(), h, Threads(At(Dispatching(CALL, [])), At(WatchWait)));
    var checking := At(Checking(CALL, [], REQUEST));
    ReachedTurn(p, s3, 1, NoInput, Taken(), h, checking);
    assert s3.threads[1 := checking] == Threads(checking, At(WatchWait));
    var s4 := Sys(Taken(), h, Threads(checking, At(WatchWait)));
    var parking := At(Parking(CALL, [], REQUEST));
    ReachedTurn(p, s4, 1, NoInput, Taken(), h, parking);
    assert s4.threads[1 := parking] == Threads(parking, At(WatchWait));
  }

  /** Failed is not absorbing: here the task is failed by its deadline and then shows AwaitingApproval. */
  lemma FailedTaskAwaitsApproval() returns (before: Sys, a: Action)
    ensures var p := OneCallPolicy();
      && Reachable(p, before) && before.task.status == Failed
      && Possible(before, a) && Apply(p, before, a).task.status == AwaitingApproval
  {
    var p := OneCallPolicy();
    ReachParking();
    var parking := At(Parking(CALL, [], REQUEST));
    var s1 := Sys(Taken(), OneRound(), Threads(parking, At(WatchWait)));
    ReachedStep(p, s1, DeadlinePasses);
    var late := PassDeadline(Taken());
    var s2 := Sys(late, OneRound(), Threads(parking, At(WatchWait)));
    ReachedTurn(p, s2, 2, NoInput, late, OneRound(), At(WatchLock));
    assert s2.threads[2 := At(WatchLock)] == Threads(parking, At(WatchLock));
    var s3 := Sys(late, OneRound(), Threads(parking, At(WatchLock)));
    var end := Stopped(DEADLINE_MESSAGE);
    var h := OneRound().(ending := Some(end));
    ReachedTurn(p, s3, 2, NoInput, Close(late, end), h, Thread([TaskFailed], Gone));
    assert s3.threads[2 := Thread([TaskFailed], Gone)] == Threads(parking, Thread([TaskFailed], Gone));
    before := Sys(Close(late, end), h, Threads(parking, Thread([TaskFailed], Gone)));
    a := Advances(1, NoInput);
  }
}
