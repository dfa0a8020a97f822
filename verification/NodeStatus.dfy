/** A targeted confirmation updates a server's status: its failed nodes, its counters and its state. */
module NodeStatus {
  import opened Basics
  import opened NodeNames
  import opened Confirmation
  import opened StatusStore

  /** What a selected collection gave, and the error it ended with if any. */
  datatype Observation = Observation(result: Collected, err: Option<string>)

  datatype Outcome = Recovered | Failing(message: string) | Unseen

  ghost predicate Succeeded(nodes: seq<Node>, name: string) {
    exists node :: node in nodes && (node.name == name || ShortName(node.name) == name)
  }

  /** What the last failure reported under a name says. */
  function LastFailure(failures: seq<NodeFailure>, name: string): Option<string> {
    if failures == [] then None
    else if failures[|failures| - 1].name == name then Some(failures[|failures| - 1].error)
    else LastFailure(failures[..|failures| - 1], name)
  }

  /** What a selected collection says of a node it was asked about. */
  ghost function OutcomeOf(name: string, seen: Observation): Outcome {
    if Succeeded(seen.result.nodes, name) then Recovered
    else match LastFailure(seen.result.failures, name)
      case Some(message) => Failing(message)
      case None => if seen.err.Some? then Failing(seen.err.value) else Unseen
  }

  method SucceededNames(nodes: seq<Node>) returns (succeeded: map<string, string>)
    ensures forall n :: n in succeeded <==> Succeeded(nodes, n)
  {
    succeeded := map[];
    for i := 0 to |nodes|
      invariant forall n :: n in succeeded <==> Succeeded(nodes[..i], n)
    {
      var node := nodes[i];
      assert nodes[..i + 1] == nodes[..i] + [node];
      succeeded := succeeded[node.name := node.name];
      succeeded := succeeded[ShortName(node.name) := node.name];
    }
    assert nodes[..|nodes|] == nodes;
  }

  function Classified(n: string, succeeded: map<string, string>, failed: map<string, string>): Outcome {
    if n in succeeded then Recovered else if n in failed then Failing(failed[n]) else Unseen
  }

  ghost predicate IsOutcome(outcome: Outcome, n: string, seen: Observation) {
    outcome == OutcomeOf(n, seen)
  }

  /** The two tables the targets are looked up in. */
  method Classify(targets: seq<string>, seen: Observation)
    returns (succeeded: map<string, string>, failed: map<string, string>)
    ensures forall k | 0 <= k < |targets| :: IsOutcome(Classified(targets[k], succeeded, failed), targets[k], seen)
  {
    succeeded := SucceededNames(seen.result.nodes);
    failed := FailedNames(targets, seen, succeeded);
  }

  /** The failures by name, and the collection's own error for every target nothing else is known about. */
  method FailedNames(targets: seq<string>, seen: Observation, succeeded: map<string, string>)
    returns (failed: map<string, string>)
    requires forall n :: n in succeeded <==> Succeeded(seen.result.nodes, n)
    ensures forall n | n in targets :: OutcomeOf(n, seen) == Classified(n, succeeded, failed)
  {
    failed := map[];
    for i := 0 to |seen.result.failures|
      invariant forall n ::
        LastFailure(seen.result.failures[..i], n) == if n in failed then Some(failed[n]) else None
    {
      assert seen.result.failures[..i + 1][..i] == seen.result.failures[..i];
      failed := failed[seen.result.failures[i].name := seen.result.failures[i].error];
    }
    assert seen.result.failures[..|seen.result.failures|] == seen.result.failures;
    if seen.err.None? {
      return;
    }
    ghost var reported := failed;
    for i := 0 to |targets|
      invariant forall n | n in reported :: n in failed && failed[n] == reported[n]
      invariant forall n | n in failed && n !in reported :: failed[n] == seen.err.value
      invariant forall n | n in targets[..i] && n !in succeeded :: n in failed
    {
      if targets[i] !in succeeded && targets[i] !in failed {
        failed := failed[targets[i] := seen.err.value];
      }
    }
  }

  /** How the errors of one node follow from its outcome. */
  ghost predicate UpdatedAt(before: map<string, string>, after: map<string, string>, outcome: Outcome, n: string) {
    match outcome
    case Recovered => n !in after
    case Failing(message) => n in after && after[n] == message
    case Unseen => (n in after <==> n in before) && (n in after ==> after[n] == before[n])
  }

  /** The new errors: targets as the collection found them, every other node as before. */
  ghost predicate Updated(before: map<string, string>, after: map<string, string>, targets: seq<string>, seen: Observation) {
    forall n :: UpdatedAt(before, after, if n in targets then OutcomeOf(n, seen) else Unseen, n)
  }

  ghost predicate NewlyFails(before: map<string, string>, seen: Observation, n: string) {
    OutcomeOf(n, seen).Failing? && n !in before
  }

  ghost predicate Recovers(before: map<string, string>, seen: Observation, n: string) {
    OutcomeOf(n, seen).Recovered? && n in before
  }

  /** The node errors after the targets, one by one. */
  ghost function ErrorsAfter(before: map<string, string>, targets: seq<string>, seen: Observation): map<string, string> {
    if targets == [] then before
    else
      var n, errors := targets[|targets| - 1], ErrorsAfter(before, targets[..|targets| - 1], seen);
      match OutcomeOf(n, seen)
      case Recovered => errors - {n}
      case Failing(message) => errors[n := message]
      case Unseen => errors
  }

  /** The node count after the targets: up for each recovered one, down for each newly failing one, stopping at zero. */
  ghost function NodesAfter(previous: ServerStatus, targets: seq<string>, seen: Observation): int {
    if targets == [] then previous.nodes
    else
      var n, nodes := targets[|targets| - 1], NodesAfter(previous, targets[..|targets| - 1], seen);
      if Recovers(previous.nodeErrors, seen, n) then nodes + 1
      else if NewlyFails(previous.nodeErrors, seen, n) && nodes > 0 then nodes - 1
      else nodes
  }

  lemma {:induction false} ErrorsUpdated(before: map<string, string>, targets: seq<string>, seen: Observation)
    ensures Updated(before, ErrorsAfter(before, targets, seen), targets, seen)
  {
    if targets != [] {
      var front, name := targets[..|targets| - 1], targets[|targets| - 1];
      ErrorsUpdated(before, front, seen);
      var errors, errors' := ErrorsAfter(before, front, seen), ErrorsAfter(before, targets, seen);
      assert targets == front + [name];
      forall n ensures UpdatedAt(before, errors', if n in targets then OutcomeOf(n, seen) else Unseen, n) {
        assert UpdatedAt(before, errors, if n in front then OutcomeOf(n, seen) else Unseen, n);
        assert n != name ==> (n in errors' <==> n in errors) && (n in errors ==> errors'[n] == errors[n]);
      }
    }
  }

  /** A target met for the first time has the errors it had before. */
  lemma FirstMet(before: map<string, string>, targets: seq<string>, seen: Observation, n: string)
    requires n !in targets
    ensures n in ErrorsAfter(before, targets, seen) <==> n in before
  {
    ErrorsUpdated(before, targets, seen);
    assert UpdatedAt(before, ErrorsAfter(before, targets, seen), Unseen, n);
  }

  lemma TargetOnce(targets: seq<string>, i: nat)
    requires StrictlySorted(targets) && i < |targets|
    ensures targets[i] !in targets[..i] && targets[..i + 1][..i] == targets[..i] && targets[..i + 1][i] == targets[i]
  {
    LessTotal(targets[i], targets[i]);
  }

  /** One turn of the loop that updates the errors and the node count. */
  method ApplyTarget(ghost previous: ServerStatus, targets: seq<string>, i: nat, ghost seen: Observation,
                     errors: map<string, string>, nodes: int, succeeded: map<string, string>, failed: map<string, string>)
    returns (errors': map<string, string>, nodes': int)
    requires StrictlySorted(targets) && i < |targets|
    requires errors == ErrorsAfter(previous.nodeErrors, targets[..i], seen) && nodes == NodesAfter(previous, targets[..i], seen)
    requires IsOutcome(Classified(targets[i], succeeded, failed), targets[i], seen)
    ensures errors' == ErrorsAfter(previous.nodeErrors, targets[..i + 1], seen)
    ensures nodes' == NodesAfter(previous, targets[..i + 1], seen)
  {
    TargetOnce(targets, i);
    FirstMet(previous.nodeErrors, targets[..i], seen, targets[i]);
    errors', nodes' := errors, nodes;
    var name := targets[i];
    if name in succeeded {
      errors' := errors - {name};
      if name in errors {
        nodes' := nodes + 1;
      }
    } else if name in failed {
      errors' := errors[name := failed[name]];
      if name !in errors && nodes > 0 {
        nodes' := nodes - 1;
      }
    }
  }

  /** The loop over the targets. */
  method ApplyTargets(previous: ServerStatus, targets: seq<string>, seen: Observation)
    returns (errors: map<string, string>, nodes: int)
    requires StrictlySorted(targets)
    ensures Updated(previous.nodeErrors, errors, targets, seen)
    ensures nodes == NodesAfter(previous, targets, seen)
  {
    var succeeded, failed := Classify(targets, seen);
    errors, nodes := previous.nodeErrors, previous.nodes;
    for i := 0 to |targets|
      invariant errors == ErrorsAfter(previous.nodeErrors, targets[..i], seen)
      invariant nodes == NodesAfter(previous, targets[..i], seen)
    {
      errors, nodes := ApplyTarget(previous, targets, i, seen, errors, nodes, succeeded, failed);
    }
    assert targets[..|targets|] == targets;
    ErrorsUpdated(previous.nodeErrors, targets, seen);
  }

  function TargetNodes(scope: Scope): seq<string> {
    Merged(scope.failureNodes, scope.runQueueNodes)
  }

  /** The host error after a confirmation: only a scope that looked at the host may change it. */
  ghost predicate HostUpdated(before: string, after: string, scope: Scope, seen: Observation) {
    after ==
    if !scope.host then before
    else if seen.result.hostCollected then ""
    else if seen.result.hostError != "" then seen.result.hostError
    else if seen.err.Some? then seen.err.value
    else before
  }

  /** The moments a confirmation reads the clock, and how long its collection took. */
  datatype Times = Times(attempt: int, success: int, durationMs: int)

  /** How a server's status follows from the one before and a targeted collection. */
  ghost predicate Confirmed(previous: ServerStatus, status: ServerStatus, scope: Scope, seen: Observation, times: Times) {
    && Updated(previous.nodeErrors, status.nodeErrors, TargetNodes(scope), seen)
    && status.failedNodes == |status.nodeErrors|
    && status.nodes == NodesAfter(previous, TargetNodes(scope), seen)
    && HostUpdated(previous.hostError, status.hostError, scope, seen)
    && (status.state == "healthy" <==> status.nodeErrors == map[] && status.hostError == "" && seen.err.None?)
    && (status.state == "down" <==> status.nodes == 0 && status.nodeErrors != map[])
    && status.state in {"healthy", "degraded", "down"}
    && status.lastError == (if seen.err.Some? then seen.err.value else "")
    && status.lastAttempt == times.attempt && status.durationMs == times.durationMs
    && status.lastSuccess ==
       (if previous.state == "down" && seen.result.nodes != [] && seen.err.None? then times.success else previous.lastSuccess)
  }

  /**
   applySelectedConfirmation: a server without a status keeps none, no other server is touched, and the new
   status goes to memory and, if the store has a file and writing works, to the file.
   */
  method ApplySelectedConfirmation(store: Store, server: string, scope: Scope, seen: Observation, times: Times, writes: bool)
    modifies store
    ensures server in store.servers <==> server in old(store.servers)
    ensures store.servers ==
      if server in store.servers then old(store.servers)[server := store.servers[server]] else old(store.servers)
    ensures server in old(store.servers) ==>
      Confirmed(old(store.servers)[server], store.servers[server], scope, seen, times)
    ensures store.file ==
      if server in store.servers && store.path != "" && writes then Some(Capture(store.servers)) else old(store.file)
  {
    var targets := MergeNodeNames(scope.failureNodes, scope.runQueueNodes);
    if server !in store.servers {
      return;
    }
    var previous := store.servers[server];
    var errors, nodes := ApplyTargets(previous, targets, seen);
    var hostError := previous.hostError;
    if scope.host {
      if seen.result.hostCollected {
        hostError := "";
      } else if seen.result.hostError != "" {
        hostError := seen.result.hostError;
      } else if seen.err.Some? {
        hostError := seen.err.value;
      }
    }
    var lastError, state := "", "healthy";
    if nodes == 0 && |errors| > 0 {
      state := "down";
      if seen.err.Some? {
        lastError := seen.err.value;
      }
    } else if |errors| > 0 || hostError != "" || seen.err.Some? {
      state := "degraded";
      if seen.err.Some? {
        lastError := seen.err.value;
      }
    }
    assert |errors| == 0 <==> errors == map[];
    var lastSuccess := previous.lastSuccess;
    if previous.state == "down" && |seen.result.nodes| > 0 && seen.err.None? {
      lastSuccess := times.success;
    }
    var status := ServerStatus(state, times.attempt, lastSuccess, lastError, nodes, |errors|, errors, hostError,
                               times.durationMs);
    var ok := store.Apply(Put(server, status), writes);
  }

  // ---- What becomes of one node, in the source's terms ----

  /** Some node of the collection has this name, in full or up to its at sign. */
  ghost predicate Answered(nodes: seq<Node>, n: string) {
    exists k :: 0 <= k < |nodes| && Named(nodes[k].name, n)
  }

  predicate Named(full: string, n: string) {
    full == n || ('@' !in n && n + "@" <= full)
  }

  lemma NamedShort(full: string, n: string)
    ensures Named(full, n) <==> full == n || ShortName(full) == n
  {
    if '@' !in n && n + "@" <= full {
      assert full == n + "@" + full[|n| + 1..];
      ShortNameOf(n, full[|n| + 1..]);
    }
  }

  lemma AnsweredSucceeded(nodes: seq<Node>, n: string)
    ensures Answered(nodes, n) <==> Succeeded(nodes, n)
  {
    if Answered(nodes, n) {
      var k :| 0 <= k < |nodes| && Named(nodes[k].name, n);
      NamedShort(nodes[k].name, n);
    }
    if Succeeded(nodes, n) {
      var node :| node in nodes && (node.name == n || ShortName(node.name) == n);
      var k :| 0 <= k < |nodes| && nodes[k] == node;
      NamedShort(node.name, n);
    }
  }

  /** The last failure with this name is the k-th. */
  ghost predicate LastNamed(failures: seq<NodeFailure>, n: string, k: nat) {
    && k < |failures| && failures[k].name == n
    && forall j | k < j < |failures| :: failures[j].name != n
  }

  lemma {:induction false} LastFailureIs(failures: seq<NodeFailure>, n: string)
    ensures LastFailure(failures, n) == None <==> forall j | 0 <= j < |failures| :: failures[j].name != n
    ensures forall k: nat | LastNamed(failures, n, k) :: LastFailure(failures, n) == Some(failures[k].error)
  {
    if failures != [] {
      var front := failures[..|failures| - 1];
      LastFailureIs(front, n);
      forall k: nat | LastNamed(failures, n, k) ensures LastFailure(failures, n) == Some(failures[k].error) {
        if k < |front| {
          assert failures[|front|].name != n && LastNamed(front, n, k);
        }
      }
    }
  }

  ghost predicate SameError(before: map<string, string>, after: map<string, string>, n: string) {
    (n in after <==> n in before) && (n in after ==> after[n] == before[n])
  }

  /**
   A node that was not asked about keeps its error or has none still. Of those asked about, one that answered
   has none, one reported as failed has what the last report says, and one not heard of has the error of the
   whole collection, or without one keeps what it had.
   */
  lemma ErrorOfNode(previous: ServerStatus, status: ServerStatus, scope: Scope, seen: Observation, times: Times, n: string)
    requires Confirmed(previous, status, scope, seen, times)
    ensures var before, after := previous.nodeErrors, status.nodeErrors;
      if n !in scope.failureNodes && n !in scope.runQueueNodes then SameError(before, after, n)
      else if Answered(seen.result.nodes, n) then n !in after
      else if exists k :: 0 <= k < |seen.result.failures| && seen.result.failures[k].name == n then
        n in after && forall k: nat | LastNamed(seen.result.failures, n, k) :: after[n] == seen.result.failures[k].error
      else if seen.err.Some? then n in after && after[n] == seen.err.value
      else SameError(before, after, n)
  {
    var targets := TargetNodes(scope);
    MergedIsUnion(scope.failureNodes, scope.runQueueNodes);
    assert n in targets <==> n in Members(targets);
    assert UpdatedAt(previous.nodeErrors, status.nodeErrors, if n in targets then OutcomeOf(n, seen) else Unseen, n);
    AnsweredSucceeded(seen.result.nodes, n);
    LastFailureIs(seen.result.failures, n);
  }

  // ---- When the total of good and failed nodes is conserved ----

  /** The running node count as it would be without the stop at zero. */
  ghost function Balance(previous: ServerStatus, targets: seq<string>, seen: Observation): int {
    if targets == [] then previous.nodes
    else
      var n := targets[|targets| - 1];
      Balance(previous, targets[..|targets| - 1], seen)
        + (if Recovers(previous.nodeErrors, seen, n) then 1 else 0)
        - (if NewlyFails(previous.nodeErrors, seen, n) then 1 else 0)
  }

  /** Whenever a target newly fails there is still a node to take off the count. */
  ghost predicate Covered(previous: ServerStatus, targets: seq<string>, seen: Observation) {
    forall k | 0 <= k < |targets| && NewlyFails(previous.nodeErrors, seen, targets[k]) ::
      Balance(previous, targets[..k], seen) > 0
  }

  lemma CoveredSnoc(previous: ServerStatus, targets: seq<string>, seen: Observation)
    requires targets != []
    ensures var n := |targets| - 1;
      Covered(previous, targets, seen) <==>
        && Covered(previous, targets[..n], seen)
        && (NewlyFails(previous.nodeErrors, seen, targets[n]) ==> Balance(previous, targets[..n], seen) > 0)
  {
    var n := |targets| - 1;
    assert forall k | 0 <= k < n :: targets[..n][..k] == targets[..k];
  }

  ghost predicate Distinctly(targets: seq<string>) {
    forall i | 0 <= i < |targets| :: targets[i] !in targets[..i]
  }

  lemma SizeWithout(errors: map<string, string>, name: string)
    ensures |errors - {name}| == |errors| - if name in errors then 1 else 0
  {
    if name in errors {
      assert errors.Keys == (errors - {name}).Keys + {name};
    } else {
      assert errors - {name} == errors;
    }
  }

  lemma SizeWith(errors: map<string, string>, name: string, message: string)
    ensures |errors[name := message]| == |errors| + if name in errors then 0 else 1
  {
    assert errors[name := message].Keys == errors.Keys + {name};
    if name in errors {
      assert errors[name := message].Keys == errors.Keys;
    }
  }

  ghost function TotalAfter(previous: ServerStatus, targets: seq<string>, seen: Observation): int {
    NodesAfter(previous, targets, seen) + |ErrorsAfter(previous.nodeErrors, targets, seen)|
  }

  /** One more target adds to the total only if it newly fails with nothing left to take off the count. */
  lemma TotalStep(previous: ServerStatus, targets: seq<string>, seen: Observation)
    requires targets != [] && targets[|targets| - 1] !in targets[..|targets| - 1]
    ensures var front, n := targets[..|targets| - 1], targets[|targets| - 1];
      TotalAfter(previous, targets, seen) == TotalAfter(previous, front, seen)
        + if NewlyFails(previous.nodeErrors, seen, n) && NodesAfter(previous, front, seen) <= 0 then 1 else 0
  {
    var front, n := targets[..|targets| - 1], targets[|targets| - 1];
    var errors := ErrorsAfter(previous.nodeErrors, front, seen);
    FirstMet(previous.nodeErrors, front, seen, n);
    match OutcomeOf(n, seen)
    case Recovered => SizeWithout(errors, n);
    case Failing(message) => SizeWith(errors, n, message);
    case Unseen =>
  }

  /** The total never falls; it stays exactly for covered targets, and then the count is the plain balance. */
  lemma {:induction false} TotalKept(previous: ServerStatus, targets: seq<string>, seen: Observation)
    requires Distinctly(targets)
    ensures var before := previous.nodes + |previous.nodeErrors|;
      && TotalAfter(previous, targets, seen) >= before
      && (TotalAfter(previous, targets, seen) == before <==> Covered(previous, targets, seen))
      && (Covered(previous, targets, seen) ==> NodesAfter(previous, targets, seen) == Balance(previous, targets, seen))
  {
    if targets != [] {
      var front := targets[..|targets| - 1];
      assert Distinctly(front) by {
        assert forall i | 0 <= i < |front| :: front[..i] == targets[..i] && front[i] == targets[i];
      }
      TotalKept(previous, front, seen);
      TotalStep(previous, targets, seen);
      CoveredSnoc(previous, targets, seen);
    }
  }

  ghost function NewFailures(previous: ServerStatus, targets: seq<string>, seen: Observation): nat {
    if targets == [] then 0
    else NewFailures(previous, targets[..|targets| - 1], seen)
         + if NewlyFails(previous.nodeErrors, seen, targets[|targets| - 1]) then 1 else 0
  }

  lemma {:induction false} BalanceBound(previous: ServerStatus, targets: seq<string>, seen: Observation, k: nat)
    requires k < |targets| && NewlyFails(previous.nodeErrors, seen, targets[k])
    ensures Balance(previous, targets[..k], seen) > previous.nodes - NewFailures(previous, targets, seen)
  {
    var n := |targets| - 1;
    if k < n {
      BalanceBound(previous, targets[..n], seen, k);
      assert targets[..n][..k] == targets[..k];
    } else {
      BalanceAtLeast(previous, targets[..n], seen);
    }
  }

  lemma {:induction false} BalanceAtLeast(previous: ServerStatus, targets: seq<string>, seen: Observation)
    ensures Balance(previous, targets, seen) >= previous.nodes - NewFailures(previous, targets, seen)
  {
    if targets != [] {
      BalanceAtLeast(previous, targets[..|targets| - 1], seen);
    }
  }

  lemma UpdatedUnique(before: map<string, string>, a: map<string, string>, b: map<string, string>,
                      targets: seq<string>, seen: Observation)
    requires Updated(before, a, targets, seen) && Updated(before, b, targets, seen)
    ensures a == b
  {
    forall n ensures (n in a <==> n in b) && (n in a ==> a[n] == b[n]) {
      assert UpdatedAt(before, a, if n in targets then OutcomeOf(n, seen) else Unseen, n);
      assert UpdatedAt(before, b, if n in targets then OutcomeOf(n, seen) else Unseen, n);
    }
  }

  /**
   Good nodes plus failed nodes stay the same number exactly when no target newly fails while the running
   count stands at zero, in particular whenever the previous count covers the newly failing targets.
   */
  lemma TotalConserved(previous: ServerStatus, status: ServerStatus, scope: Scope, seen: Observation, times: Times)
    requires Confirmed(previous, status, scope, seen, times)
    ensures var before, after := previous.nodes + |previous.nodeErrors|, status.nodes + |status.nodeErrors|;
      && after >= before
      && (after == before <==> Covered(previous, TargetNodes(scope), seen))
      && (previous.nodes >= NewFailures(previous, TargetNodes(scope), seen) ==> after == before)
  {
    var targets := TargetNodes(scope);
    MergedIsUnion(scope.failureNodes, scope.runQueueNodes);
    forall i | 0 <= i < |targets| ensures targets[i] !in targets[..i] {
      TargetOnce(targets, i);
    }
    ErrorsUpdated(previous.nodeErrors, targets, seen);
    UpdatedUnique(previous.nodeErrors, status.nodeErrors, ErrorsAfter(previous.nodeErrors, targets, seen), targets, seen);
    TotalKept(previous, targets, seen);
    if previous.nodes >= NewFailures(previous, targets, seen) {
      forall k | 0 <= k < |targets| && NewlyFails(previous.nodeErrors, seen, targets[k])
        ensures Balance(previous, targets[..k], seen) > 0
      {
        BalanceBound(previous, targets, seen, k);
      }
    }
  }

  const ONE_NODE := Scope(false, false, ["a"], [])

  const NO_ANSWER := Observation(Collected([], [NodeFailure("a", "no answer")], "", false), None)

  lemma OneName(n: string)
    ensures Merged([n], []) == [n] && Merged([], [n]) == [n]
  {
    MergedIsUnion([n], []);
    assert [n] + [] == [n] == [] + [n];
    assert Members([n]) == {n} && Members([]) == {};
    StrictlySortedUnique(Merged([n], []), [n]);
  }

  lemma OneFailure()
    ensures OutcomeOf("a", NO_ANSWER) == Failing("no answer")
  {
  }

  lemma OneTargetFails(previous: ServerStatus, seen: Observation, n: string, message: string)
    requires OutcomeOf(n, seen) == Failing(message) && n !in previous.nodeErrors && previous.nodes <= 1
    ensures NodesAfter(previous, [n], seen) == if previous.nodes == 1 then 0 else previous.nodes
    ensures Updated(previous.nodeErrors, previous.nodeErrors[n := message], [n], seen)
  {
    assert [n][..0] == [];
    assert NodesAfter(previous, [], seen) == previous.nodes;
    ErrorsUpdated(previous.nodeErrors, [n], seen);
    assert ErrorsAfter(previous.nodeErrors, [], seen) == previous.nodeErrors;
  }

  /** With the count at zero and no errors, one node that newly fails raises the total from 0 to 1. */
  lemma TotalNotConserved()
    ensures var previous := ServerStatus("down", 0, 0, "", 0, 0, map[], "", 0);
      var status := ServerStatus("down", 5, 0, "", 0, 1, map["a" := "no answer"], "", 2);
      && Confirmed(previous, status, ONE_NODE, NO_ANSWER, Times(5, 7, 2))
      && status.nodes + |status.nodeErrors| == previous.nodes + |previous.nodeErrors| + 1
  {
    var previous := ServerStatus("down", 0, 0, "", 0, 0, map[], "", 0);
    OneName("a");
    OneFailure();
    OneTargetFails(previous, NO_ANSWER, "a", "no answer");
  }
}
