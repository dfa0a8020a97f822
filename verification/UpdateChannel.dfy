/**
 One worker's update channel. The three channel operations of queueServerUpdate are separate steps, so
 the worker may receive before, between and after them; configurations keep arriving for ever.
 */
module UpdateChannel {
  import opened Basics
  import opened ExporterConfig

  /** The sender stands before one of its three channel operations. `order` numbers the configurations. */
  datatype Sender = Idle | TrySend(order: nat) | Drain(order: nat) | Send(order: nat)

  /**
   `configs` is every configuration this worker was ever meant to have, the last one current. The queued
   update, the one being applied, and the one in use are positions in it.
   */
  datatype State = State(
    configs: seq<Server>,
    sender: Sender,
    queue: Option<nat>,
    hand: Option<nat>,
    using: nat,
    alive: bool)

  datatype Action =
    | Configure(server: Server)   // ApplyConfig reaches this worker
    | Sends                       // the sender's next channel operation
    | Receives                    // the worker takes the queued update
    | Adopts                      // the worker finishes collecting and switches to it
    | Stops                       // the worker's context ended

  function Start(server: Server): State {
    State([server], Idle, None, None, 0, true)
  }

  function Current(s: State): Server
    requires s.configs != []
  {
    s.configs[|s.configs| - 1]
  }

  ghost predicate Possible(s: State, a: Action) {
    match a
    case Configure(_) => s.sender.Idle? && s.configs != []
    case Sends => !s.sender.Idle? && (s.sender.Send? ==> s.queue.None?)
    case Receives => s.alive && s.queue.Some? && s.hand.None?
    case Adopts => s.alive && s.hand.Some?
    case Stops => s.alive
  }

  function Apply(s: State, a: Action): State
    requires Possible(s, a)
  {
    match a
    case Configure(server) =>
      if server == Current(s) then s
      else s.(configs := s.configs + [server], sender := TrySend(|s.configs|))
    case Sends =>
      (match s.sender
       case Idle => s
       case TrySend(order) => if s.queue.None? then s.(queue := Some(order), sender := Idle) else s.(sender := Drain(order))
       case Drain(order) => s.(queue := None, sender := Send(order))
       case Send(order) => s.(queue := Some(order), sender := Idle))
    case Receives => s.(hand := s.queue, queue := None)
    case Adopts => s.(using := s.hand.value, hand := None)
    case Stops => s.(alive := false)
  }

  ghost predicate IsRun(states: seq<State>, actions: seq<Action>) {
    && |states| == |actions| + 1
    && (exists server :: states[0] == Start(server))
    && forall i | 0 <= i < |actions| :: Possible(states[i], actions[i]) && states[i + 1] == Apply(states[i], actions[i])
  }

  /** The newest configuration on its way to the worker, or the one it uses. */
  function Newest(s: State): nat {
    if s.queue.Some? then s.queue.value else if s.hand.Some? then s.hand.value else s.using
  }

  /** Configurations are in order: in use, in hand, queued, being sent. */
  ghost predicate Ordered(s: State) {
    && (s.hand.Some? ==> s.using < s.hand.value)
    && (s.queue.Some? ==> (if s.hand.Some? then s.hand.value else s.using) < s.queue.value)
    && Newest(s) < |s.configs|
    && (!s.sender.Idle? ==> Newest(s) < s.sender.order == |s.configs| - 1)
    && (s.sender.Idle? ==> Newest(s) == |s.configs| - 1)
    && (s.sender.Send? ==> s.queue.None?)
  }

  lemma OrderedKept(s: State, a: Action)
    requires Ordered(s) && Possible(s, a)
    ensures Ordered(Apply(s, a))
  {
  }

  lemma {:induction false} RunOrdered(states: seq<State>, actions: seq<Action>, i: nat)
    requires IsRun(states, actions) && i < |states|
    ensures Ordered(states[i])
  {
    if i > 0 {
      RunOrdered(states, actions, i - 1);
      OrderedKept(states[i - 1], actions[i - 1]);
    }
  }

  /**
   The plain send at the end of queueServerUpdate finds the channel empty whenever it is reached, so a
   sender never waits: its next operation is always possible, whether or not the worker still runs.
   */
  lemma SenderNeverBlocks(states: seq<State>, actions: seq<Action>, i: nat)
    requires IsRun(states, actions) && i < |states|
    ensures states[i].sender.Send? ==> states[i].queue == None
    ensures states[i].sender.Idle? || Possible(states[i], Sends)
  {
    RunOrdered(states, actions, i);
  }

  /** How many operations a sender still has before it. */
  function ToSend(s: Sender): nat {
    match s
    case Idle => 0
    case TrySend(_) => 3
    case Drain(_) => 2
    case Send(_) => 1
  }

  /** The sender's operations one after the other with nothing in between. */
  function Finished(s: State): State
    requires s.sender.Send? ==> s.queue.None?
    decreases ToSend(s.sender)
  {
    if s.sender.Idle? then s else Finished(Apply(s, Sends))
  }

  /** Undisturbed, the three operations put exactly the new configuration into the channel and change nothing else. */
  lemma QueueAlone(s: State)
    requires s.sender.TrySend?
    ensures Finished(s) == s.(sender := Idle, queue := Some(s.sender.order))
  {
    var s1 := Apply(s, Sends);
    assert Finished(s) == Finished(s1);
    if s.queue.Some? {
      var s2 := Apply(s1, Sends);
      var s3 := Apply(s2, Sends);
      assert Finished(s1) == Finished(s2) == Finished(s3) == s3;
    }
  }

  function Operations(actions: seq<Action>): nat {
    if actions == [] then 0
    else Operations(actions[..|actions| - 1]) + if actions[|actions| - 1].Sends? then 1 else 0
  }

  /** Each call of queueServerUpdate is over after at most three channel operations, whatever the worker does. */
  lemma {:induction false} SendEnds(states: seq<State>, actions: seq<Action>, i: nat, j: nat)
    requires IsRun(states, actions) && i <= j < |states|
    requires forall k | i <= k < j :: !actions[k].Configure?
    ensures Operations(actions[i..j]) + ToSend(states[j].sender) <= ToSend(states[i].sender) <= 3
    decreases j
  {
    if i < j {
      SendEnds(states, actions, i, j - 1);
      assert actions[i..j][..j - 1 - i] == actions[i..j - 1];
    }
  }

  /** Between calls of ApplyConfig the newest of queued, in hand, and in use is the current configuration. */
  lemma LatestConfigWins(states: seq<State>, actions: seq<Action>, i: nat)
    requires IsRun(states, actions) && i < |states| && states[i].sender.Idle?
    ensures var s := states[i]; Newest(s) < |s.configs| && s.configs[Newest(s)] == Current(s)
  {
    RunOrdered(states, actions, i);
  }

  /** A worker that has nothing left to take up uses the current configuration. */
  lemma SettledOnCurrent(states: seq<State>, actions: seq<Action>, i: nat)
    requires IsRun(states, actions) && i < |states|
    requires states[i].alive && forall a: Action :: Possible(states[i], a) ==> a.Configure? || a.Stops?
    ensures states[i].using < |states[i].configs| && states[i].configs[states[i].using] == Current(states[i])
  {
    RunOrdered(states, actions, i);
    var s := states[i];
    assert !Possible(s, Sends) && !Possible(s, Receives) && !Possible(s, Adopts);
  }

  /** The worker never goes back to a configuration older than one it used. */
  lemma {:induction false} NeverGoesBack(states: seq<State>, actions: seq<Action>, i: nat, j: nat)
    requires IsRun(states, actions) && i <= j < |states|
    ensures states[i].using <= states[j].using
    ensures (exists k | i <= k < j :: actions[k].Adopts?) ==> states[i].using < states[j].using
    decreases j
  {
    if i < j {
      NeverGoesBack(states, actions, i, j - 1);
      RunOrdered(states, actions, j - 1);
    }
  }

  /** Skipped updates are only ever those overtaken by a newer one: what is drained is never the newest. */
  lemma OnlyOvertakenAreDropped(states: seq<State>, actions: seq<Action>, i: nat)
    requires IsRun(states, actions) && i < |actions|
    requires actions[i].Sends? && states[i].sender.Drain? && states[i].queue.Some?
    ensures states[i].queue.value < states[i].sender.order == |states[i].configs| - 1
  {
    RunOrdered(states, actions, i);
  }

  /** Whatever ApplyConfig hands over is the current configuration from then on, and nothing else changes it. */
  lemma ConfiguredIsCurrent(s: State, a: Action)
    requires s.configs != [] && Possible(s, a)
    ensures var s' := Apply(s, a);
      && s.configs <= s'.configs && |s'.configs| <= |s.configs| + 1
      && s'.configs[|s'.configs| - 1] == (if a.Configure? then a.server else s.configs[|s.configs| - 1])
  {
  }

  predicate Differs(configs: seq<Server>, k: nat)
    requires 0 < k < |configs|
  {
    configs[k] != configs[k - 1]
  }

  /** A worker is only ever sent a configuration that differs from the one before it. */
  lemma {:induction false} OnlyChangesAreSent(states: seq<State>, actions: seq<Action>, i: nat, k: nat)
    requires IsRun(states, actions) && i < |states| && 0 < k < |states[i].configs|
    ensures Differs(states[i].configs, k)
  {
    if i > 0 && k < |states[i - 1].configs| {
      OnlyChangesAreSent(states, actions, i - 1, k);
      assert Differs(states[i - 1].configs, k);
    }
  }
}
