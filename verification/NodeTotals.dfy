/**
 The node total of a server over a whole round: a full collection, which replaces its status, and the
 confirmation passes that follow it.
 */
module NodeTotals {
  import opened Basics
  import opened ExporterConfig
  import opened NodeNames
  import opened Confirmation
  import opened NodeStatus
  import opened StatusStore

  // ---- The full collection ----

  /** One collection: what it gave, the nodes known by then, and the clock. */
  datatype Step = Step(seen: Observation, known: seq<string>, times: Times)

  ghost predicate Reports(failures: seq<NodeFailure>, errors: map<string, string>) {
    forall n :: LastFailure(failures, n) == if n in errors then Some(errors[n]) else None
  }

  /** The errors of the nodes: the failures, or the collection's own error for all known nodes if it names none. */
  ghost predicate ErrorsOf(step: Step, errors: map<string, string>) {
    if step.seen.err.Some? && step.seen.result.failures == [] then
      errors.Keys == Members(step.known) && forall n | n in errors :: errors[n] == step.seen.err.value
    else Reports(step.seen.result.failures, errors)
  }

  /** The status that a full collection leaves; only the time of the last success may come from the one before. */
  ghost predicate Replaced(previous: Option<ServerStatus>, status: ServerStatus, step: Step) {
    var result, err := step.seen.result, step.seen.err;
    && ErrorsOf(step, status.nodeErrors)
    && status.failedNodes == (if err.Some? && result.failures == [] then |status.nodeErrors| else |result.failures|)
    && status.nodes == (if err.Some? then 0 else |result.nodes|)
    && status.state ==
       (if err.Some? then "down" else if result.failures != [] || result.hostError != "" then "degraded" else "healthy")
    && status.hostError == (if result.hostCollected then "" else result.hostError)
    && status.lastError == (if err.Some? then err.value else "")
    && status.lastAttempt == step.times.attempt && status.durationMs == step.times.durationMs
    && status.lastSuccess ==
       (if err.None? then step.times.success else if previous.Some? then previous.value.lastSuccess else 0)
  }

  method FailureErrors(failures: seq<NodeFailure>) returns (errors: map<string, string>)
    ensures Reports(failures, errors)
  {
    errors := map[];
    for i := 0 to |failures|
      invariant Reports(failures[..i], errors)
    {
      assert failures[..i + 1][..i] == failures[..i];
      errors := errors[failures[i].name := failures[i].error];
    }
    assert failures[..|failures|] == failures;
  }

  method KnownErrors(known: seq<string>, error: string) returns (errors: map<string, string>)
    ensures errors.Keys == Members(known) && forall n | n in errors :: errors[n] == error
  {
    errors := map[];
    for i := 0 to |known|
      invariant errors.Keys == Members(known[..i]) && forall n | n in errors :: errors[n] == error
    {
      assert known[..i + 1] == known[..i] + [known[i]];
      errors := errors[known[i] := error];
    }
    assert known[..|known|] == known;
  }

  /** collect, up to the confirmation scope: the new status goes to memory and to the file. */
  method Collect(store: Store, server: string, step: Step, writes: bool)
    modifies store
    ensures server in store.servers && store.servers == old(store.servers)[server := store.servers[server]]
    ensures Replaced(if server in old(store.servers) then Some(old(store.servers)[server]) else None,
                     store.servers[server], step)
    ensures store.file == if store.path != "" && writes then Some(Capture(store.servers)) else old(store.file)
  {
    var result, err := step.seen.result, step.seen.err;
    var hostError := if result.hostCollected then "" else result.hostError;
    var errors := FailureErrors(result.failures);
    var status;
    if err.Some? {
      var failed := |result.failures|;
      if failed == 0 {
        errors := KnownErrors(step.known, err.value);
        failed := |errors|;
      }
      var lastSuccess := 0;
      if server in store.servers {
        lastSuccess := store.servers[server].lastSuccess;
      }
      status := ServerStatus("down", step.times.attempt, lastSuccess, err.value, 0, failed, errors, hostError,
                             step.times.durationMs);
    } else {
      var state := if |result.failures| > 0 || result.hostError != "" then "degraded" else "healthy";
      status := ServerStatus(state, step.times.attempt, step.times.success, "", |result.nodes|, |result.failures|, errors,
                             hostError, step.times.durationMs);
    }
    var ok := store.Apply(Put(server, status), writes);
  }

  // ---- What the collector promises ----

  /** Every collection that ends with an error returns no node. */
  predicate NoNodesOnError(seen: Observation) {
    seen.err.Some? ==> seen.result.nodes == []
  }

  /** The failures of a selected collection carry the names it was asked for. */
  ghost predicate NamedAsAsked(names: seq<string>, seen: Observation) {
    FailureNames(seen.result.failures) <= Members(names)
  }

  // ---- One pass ----

  function Total(status: ServerStatus): int { status.nodes + |status.nodeErrors| }

  /** The good nodes are at least as many as the nodes of `tracked` that have no error. */
  ghost predicate Spare(status: ServerStatus, tracked: set<string>) {
    |tracked - status.nodeErrors.Keys| <= status.nodes
  }

  lemma RecoveredLeaves(tracked: set<string>, errors: map<string, string>, n: string)
    requires n in tracked
    ensures |tracked - (errors - {n}).Keys| == |tracked - errors.Keys| + if n in errors then 1 else 0
  {
    assert tracked - (errors - {n}).Keys == (tracked - errors.Keys) + {n};
    if n !in errors {
      assert n in tracked - errors.Keys && tracked - (errors - {n}).Keys == tracked - errors.Keys;
    }
  }

  lemma FailingJoins(tracked: set<string>, errors: map<string, string>, n: string, message: string)
    requires n in tracked
    ensures |tracked - errors[n := message].Keys| == |tracked - errors.Keys| - if n in errors then 0 else 1
  {
    assert tracked - errors[n := message].Keys == (tracked - errors.Keys) - {n};
    if n in errors {
      assert tracked - errors[n := message].Keys == tracked - errors.Keys;
    }
  }

  /** One more target moves the count with the tracked nodes that have no error, and never at zero. */
  lemma TargetKeepsSpare(previous: ServerStatus, targets: seq<string>, seen: Observation, tracked: set<string>)
    requires targets != [] && targets[|targets| - 1] !in targets[..|targets| - 1] && targets[|targets| - 1] in tracked
    requires var front := targets[..|targets| - 1];
      NodesAfter(previous, front, seen) >= |tracked - ErrorsAfter(previous.nodeErrors, front, seen).Keys|
    ensures NodesAfter(previous, targets, seen) >= |tracked - ErrorsAfter(previous.nodeErrors, targets, seen).Keys|
    ensures TotalAfter(previous, targets, seen) == TotalAfter(previous, targets[..|targets| - 1], seen)
  {
    var front, n := targets[..|targets| - 1], targets[|targets| - 1];
    var errors := ErrorsAfter(previous.nodeErrors, front, seen);
    FirstMet(previous.nodeErrors, front, seen, n);
    TotalStep(previous, targets, seen);
    match OutcomeOf(n, seen)
    case Recovered => RecoveredLeaves(tracked, errors, n);
    case Failing(message) => FailingJoins(tracked, errors, n, message);
    case Unseen =>
  }

  lemma FrontDistinct(targets: seq<string>)
    requires targets != [] && Distinctly(targets)
    ensures Distinctly(targets[..|targets| - 1])
  {
    var front := targets[..|targets| - 1];
    assert forall i | 0 <= i < |front| :: front[..i] == targets[..i] && front[i] == targets[i];
  }

  /** As long as only tracked nodes are targets, the count stops at zero for none of them. */
  lemma {:induction false} TargetsKeepTotal(previous: ServerStatus, targets: seq<string>, seen: Observation, tracked: set<string>)
    requires Distinctly(targets) && Members(targets) <= tracked && Spare(previous, tracked)
    ensures NodesAfter(previous, targets, seen) >= |tracked - ErrorsAfter(previous.nodeErrors, targets, seen).Keys|
    ensures TotalAfter(previous, targets, seen) == Total(previous)
  {
    if targets != [] {
      FrontDistinct(targets);
      assert targets[|targets| - 1] in Members(targets);
      assert Members(targets[..|targets| - 1]) <= Members(targets);
      TargetsKeepTotal(previous, targets[..|targets| - 1], seen, tracked);
      TargetKeepsSpare(previous, targets, seen, tracked);
    }
  }

  /** A targeted pass at tracked nodes only keeps the total, and what is spared. */
  lemma PassKeepsTotal(previous: ServerStatus, status: ServerStatus, scope: Scope, seen: Observation, times: Times,
                       tracked: set<string>)
    requires Confirmed(previous, status, scope, seen, times) && Spare(previous, tracked)
    requires Members(scope.failureNodes) <= tracked && Members(scope.runQueueNodes) <= tracked
    ensures Total(status) == Total(previous) && Spare(status, tracked)
  {
    var targets := TargetNodes(scope);
    MergedIsUnion(scope.failureNodes, scope.runQueueNodes);
    forall i | 0 <= i < |targets| ensures targets[i] !in targets[..i] {
      TargetOnce(targets, i);
    }
    ErrorsUpdated(previous.nodeErrors, targets, seen);
    UpdatedUnique(previous.nodeErrors, status.nodeErrors, ErrorsAfter(previous.nodeErrors, targets, seen), targets, seen);
    TargetsKeepTotal(previous, targets, seen, tracked);
  }

  // ---- The nodes that a collection tracks ----

  lemma {:induction false} ReportedNames(failures: seq<NodeFailure>, n: string)
    ensures LastFailure(failures, n).Some? <==> n in FailureNames(failures)
  {
    if failures != [] {
      var front, last := failures[..|failures| - 1], failures[|failures| - 1];
      ReportedNames(front, n);
      assert failures == front + [last];
      assert FailureNames(failures) == FailureNames(front) + {last.name};
    }
  }

  lemma ReportedKeys(failures: seq<NodeFailure>, errors: map<string, string>)
    requires Reports(failures, errors)
    ensures errors.Keys == FailureNames(failures)
  {
    forall n ensures n in errors <==> n in FailureNames(failures) {
      ReportedNames(failures, n);
      assert LastFailure(failures, n) == if n in errors then Some(errors[n]) else None;
    }
  }

  lemma {:induction false} OverloadedCount(server: Server, nodes: seq<Node>)
    ensures |OverloadedNames(server, nodes)| <= |nodes|
  {
    if nodes != [] {
      OverloadedCount(server, nodes[..|nodes| - 1]);
    }
  }

  lemma {:induction false} MemberCount(names: seq<string>)
    ensures |Members(names)| <= |names|
  {
    if names != [] {
      MemberCount(names[1..]);
      assert names == [names[0]] + names[1..];
      assert Members(names) == {names[0]} + Members(names[1..]);
    }
  }

  lemma SubsetCount(a: set<string>, b: set<string>)
    requires a <= b
    ensures |a| <= |b|
  {
    assert b == a + (b - a);
  }

  lemma RunQueueCount(server: Server, seen: Observation, scope: Scope)
    requires ScopeFor(server, seen.result, seen.err, scope)
    ensures |Members(scope.runQueueNodes)| <= |seen.result.nodes|
  {
    OverloadedCount(server, seen.result.nodes);
    MemberCount(scope.runQueueNodes);
    assert |multiset(scope.runQueueNodes)| == |multiset(OverloadedNames(server, seen.result.nodes))|;
  }

  /** After a full collection its scope's nodes are tracked: an error stands for each failed one. */
  lemma CollectionSpares(server: Server, previous: Option<ServerStatus>, status: ServerStatus, step: Step, scope: Scope)
    requires Replaced(previous, status, step) && NoNodesOnError(step.seen)
    requires ScopeFor(server, step.seen.result, step.seen.err, scope)
    ensures Spare(status, Members(scope.failureNodes) + Members(scope.runQueueNodes))
  {
    var failed, busy := Members(scope.failureNodes), Members(scope.runQueueNodes);
    RunQueueCount(server, step.seen, scope);
    if step.seen.err.Some? && step.seen.result.failures == [] {
      assert failed == {};
    } else {
      ReportedKeys(step.seen.result.failures, status.nodeErrors);
    }
    assert failed <= status.nodeErrors.Keys;
    SubsetCount(failed + busy - status.nodeErrors.Keys, busy);
  }

  // ---- The whole round ----

  /** What one pass does to the status. */
  ghost predicate PassApplied(before: ServerStatus, after: ServerStatus, scope: Scope, step: Step) {
    if scope.full then Replaced(Some(before), after, step) else Confirmed(before, after, scope, step.seen, step.times)
  }

  /** The passes of a confirmation with what each saw and asked for next, and the statuses in between. */
  ghost predicate Round(server: Server, scope: Scope, passes: seq<Pass>, found: seq<Scope>, steps: seq<Step>,
                        statuses: seq<ServerStatus>) {
    && Grounded(server, scope, passes, found)
    && |passes| == |steps| && |statuses| == |passes| + 1
    && forall k | 0 <= k < |passes| :: PassAt(server, passes, found, steps, statuses, k)
  }

  ghost predicate PassAt(server: Server, passes: seq<Pass>, found: seq<Scope>, steps: seq<Step>, statuses: seq<ServerStatus>,
                         k: nat)
    requires k < |passes| == |found| == |steps| && |statuses| == |passes| + 1
  {
    && PassApplied(statuses[k], statuses[k + 1], passes[k].scope, steps[k])
    && ScopeFor(server, steps[k].seen.result, steps[k].seen.err, found[k])
  }

  /** What the collector keeps to in the passes; failures must be named as asked only where a run queue was looked at. */
  ghost predicate CollectorKeeps(passes: seq<Pass>, steps: seq<Step>)
    requires |passes| == |steps|
  {
    forall k | 0 <= k < |passes| ::
      && NoNodesOnError(steps[k].seen)
      && (IsFast(passes[k]) && !passes[k].scope.full ==> NamedAsAsked(passes[k].scope.runQueueNodes, steps[k].seen))
  }

  /** The nodes to track from pass `k` on: those of the last full collection's scope. */
  ghost function Tracked(scope: Scope, found: seq<Scope>): set<string> {
    if !scope.full then Members(scope.failureNodes) + Members(scope.runQueueNodes)
    else if found == [] then {}
    else Members(found[0].failureNodes) + Members(found[0].runQueueNodes)
  }

  /** Where the statuses after the last full collection begin. */
  function LastFull(scope: Scope): nat { if scope.full then 1 else 0 }

  /** A full scope names no nodes, so its confirmation begins with the full pass. */
  lemma FullScope(server: Server, first: Step, scope: Scope)
    requires ScopeFor(server, first.seen.result, first.seen.err, scope) && scope.full && NoNodesOnError(first.seen)
    ensures scope.failureNodes == [] && scope.runQueueNodes == []
  {
    NoMembers(scope.failureNodes);
    RunQueueCount(server, first.seen, scope);
    NoMembers(scope.runQueueNodes);
  }

  /** From the last full collection on every pass is targeted, at tracked nodes only. */
  lemma TargetsTracked(server: Server, scope: Scope, passes: seq<Pass>, found: seq<Scope>, steps: seq<Step>,
                       statuses: seq<ServerStatus>, k: nat)
    requires Round(server, scope, passes, found, steps, statuses) && CollectorKeeps(passes, steps)
    requires scope.full ==> scope.failureNodes == [] && scope.runQueueNodes == []
    requires LastFull(scope) <= k < |passes|
    ensures !passes[k].scope.full
    ensures Members(passes[k].scope.failureNodes) <= Tracked(scope, found)
    ensures Members(passes[k].scope.runQueueNodes) <= Tracked(scope, found)
  {
    var f := FastAt(server, scope);
    assert PassAt(server, passes, found, steps, statuses, k);
    if !IsFast(passes[k]) && f < k && IsFast(passes[f]) && !scope.full {
      assert PassAt(server, passes, found, steps, statuses, f);
      assert Members(found[f].failureNodes) == FailureNames(steps[f].seen.result.failures);
    }
  }

  lemma FirstPassFull(server: Server, scope: Scope, passes: seq<Pass>, found: seq<Scope>)
    requires Grounded(server, scope, passes, found) && passes != []
    requires scope.full && scope.failureNodes == []
    ensures passes[0].scope.full
  {
    NoMembers(passes[0].scope.failureNodes);
  }

  /** After the last full collection its nodes are spared. */
  lemma BaseSpares(server: Server, previous: Option<ServerStatus>, first: Step, scope: Scope, passes: seq<Pass>,
                   found: seq<Scope>, steps: seq<Step>, statuses: seq<ServerStatus>)
    requires Round(server, scope, passes, found, steps, statuses) && CollectorKeeps(passes, steps)
    requires Replaced(previous, statuses[0], first) && NoNodesOnError(first.seen)
    requires ScopeFor(server, first.seen.result, first.seen.err, scope)
    requires scope.full ==> passes != [] && scope.failureNodes == []
    ensures Spare(statuses[LastFull(scope)], Tracked(scope, found))
  {
    if scope.full {
      FirstPassFull(server, scope, passes, found);
      assert PassAt(server, passes, found, steps, statuses, 0);
      CollectionSpares(server, Some(statuses[0]), statuses[1], steps[0], found[0]);
    } else {
      CollectionSpares(server, previous, statuses[0], first, scope);
    }
  }

  lemma TrackedPass(server: Server, scope: Scope, passes: seq<Pass>, found: seq<Scope>, steps: seq<Step>,
                    statuses: seq<ServerStatus>, k: nat)
    requires Round(server, scope, passes, found, steps, statuses) && CollectorKeeps(passes, steps)
    requires scope.full ==> scope.failureNodes == [] && scope.runQueueNodes == []
    requires LastFull(scope) <= k < |passes| && Spare(statuses[k], Tracked(scope, found))
    ensures Total(statuses[k + 1]) == Total(statuses[k]) && Spare(statuses[k + 1], Tracked(scope, found))
  {
    TargetsTracked(server, scope, passes, found, steps, statuses, k);
    assert PassAt(server, passes, found, steps, statuses, k);
    PassKeepsTotal(statuses[k], statuses[k + 1], passes[k].scope, steps[k].seen, steps[k].times, Tracked(scope, found));
  }

  ghost predicate KeepsAt(statuses: seq<ServerStatus>, tracked: set<string>, j: nat)
    requires j + 1 < |statuses|
  {
    Spare(statuses[j], tracked) ==> Total(statuses[j + 1]) == Total(statuses[j]) && Spare(statuses[j + 1], tracked)
  }

  lemma {:induction false} TotalKeptFrom(statuses: seq<ServerStatus>, tracked: set<string>, base: nat, k: nat)
    requires base <= k < |statuses| && Spare(statuses[base], tracked)
    requires forall j | base <= j < k :: KeepsAt(statuses, tracked, j)
    ensures Total(statuses[k]) == Total(statuses[base]) && Spare(statuses[k], tracked)
    decreases k
  {
    if k > base {
      TotalKeptFrom(statuses, tracked, base, k - 1);
      assert KeepsAt(statuses, tracked, k - 1);
    }
  }

  /**
   After a full collection, and however its confirmation goes on, good plus failed nodes stay the number
   that the last full collection found: no pass adds or loses a node.
   */
  lemma RoundConserves(server: Server, previous: Option<ServerStatus>, first: Step, scope: Scope, passes: seq<Pass>,
                       found: seq<Scope>, steps: seq<Step>, statuses: seq<ServerStatus>, k: nat)
    requires Round(server, scope, passes, found, steps, statuses) && CollectorKeeps(passes, steps)
    requires Replaced(previous, statuses[0], first) && NoNodesOnError(first.seen)
    requires ScopeFor(server, first.seen.result, first.seen.err, scope)
    requires LastFull(scope) <= k < |statuses|
    ensures Total(statuses[k]) == Total(statuses[LastFull(scope)])
  {
    if scope.full {
      FullScope(server, first, scope);
    }
    BaseSpares(server, previous, first, scope, passes, found, steps, statuses);
    forall j | LastFull(scope) <= j < k ensures KeepsAt(statuses, Tracked(scope, found), j) {
      if Spare(statuses[j], Tracked(scope, found)) {
        TrackedPass(server, scope, passes, found, steps, statuses, j);
      }
    }
    TotalKeptFrom(statuses, Tracked(scope, found), LastFull(scope), k);
  }

  // ---- A node that answers under another name ----

  /** A selected collection in which the one node it found failed, under this name. */
  function AllFailed(name: string, error: string, text: string): Observation {
    Observation(Collected([], [NodeFailure(name, error)], "", false), Some(text))
  }

  function Only(node: Node): Observation { Observation(Collected([node], [], "", true), None) }

  function FirstStatus(times: Times): ServerStatus {
    ServerStatus("healthy", times.attempt, times.success, "", 1, 0, map[], "", times.durationMs)
  }

  /** The status after one more node has failed and none is good. */
  function DownStatus(previous: ServerStatus, n: string, message: string, text: string, times: Times): ServerStatus {
    ServerStatus("down", times.attempt, previous.lastSuccess, text, 0, |previous.nodeErrors| + 1,
                 previous.nodeErrors[n := message], previous.hostError, times.durationMs)
  }

  lemma FailingPass(previous: ServerStatus, scope: Scope, seen: Observation, n: string, message: string, times: Times)
    requires TargetNodes(scope) == [n] && !scope.host && seen.err.Some?
    requires OutcomeOf(n, seen) == Failing(message) && n !in previous.nodeErrors && 0 <= previous.nodes <= 1
    ensures Confirmed(previous, DownStatus(previous, n, message, seen.err.value, times), scope, seen, times)
  {
    OneTargetFails(previous, seen, n, message);
    SizeWith(previous.nodeErrors, n, message);
    assert n in previous.nodeErrors[n := message];
  }

  lemma RenamedOutcomes(asked: string, answered: string, error: string, text: string)
    requires answered != asked
    ensures OutcomeOf(asked, AllFailed(answered, error, text)) == Failing(text)
    ensures OutcomeOf(answered, AllFailed(answered, error, text)) == Failing(error)
  {
    var failures := AllFailed(answered, error, text).result.failures;
    assert LastFailure(failures[..0], asked) == None;
  }

  lemma BusyScope(server: Server, node: Node)
    requires Overloaded(server, node)
    ensures ScopeFor(server, Collected([node], [], "", true), None, Scope(false, false, [], [node.name]))
  {
    assert [node][..0] == [];
    assert OverloadedNames(server, [node]) == [node.name];
  }

  lemma FailedScope(server: Server, name: string, error: string, text: string)
    ensures ScopeFor(server, AllFailed(name, error, text).result, Some(text), Scope(false, false, [name], []))
  {
    assert FailureNames([NodeFailure(name, error)]) == {name};
  }

  lemma FastThenFailure(server: Server, scope: Scope, failed: Scope)
    requires Required(FastScope(scope)) && scope.failureNodes == [] && failed.failureNodes != []
    ensures Grounded(server, scope, [FastPass(server, scope), FailurePass(server, failed.failureNodes)], [failed, failed])
  {
  }

  lemma TwoPasses(server: Server, scope: Scope, failed: Scope, p: Pass, q: Pass, step: Step, s0: ServerStatus, s1: ServerStatus,
                  s2: ServerStatus)
    requires Grounded(server, scope, [p, q], [failed, failed])
    requires PassApplied(s0, s1, p.scope, step) && PassApplied(s1, s2, q.scope, step)
    requires ScopeFor(server, step.seen.result, step.seen.err, failed)
    ensures Round(server, scope, [p, q], [failed, failed], [step, step], [s0, s1, s2])
  {
    var passes, found, steps, statuses := [p, q], [failed, failed], [step, step], [s0, s1, s2];
    assert PassAt(server, passes, found, steps, statuses, 0);
    assert PassAt(server, passes, found, steps, statuses, 1);
  }

  /**
   The promise about names is needed. A busy node comes back under another name and fails, as when "a" is
   restarted as "a@h" and found by its short name: the fast pass notes the failure of the name it asked for
   and asks for the new name, which the failure pass then counts as a second node.
   */
  lemma RenamedNodeCountedTwice(server: Server, node: Node, renamed: string, error: string, text: string, times: Times)
    requires Overloaded(server, node) && renamed != node.name
    ensures var busy, failed := Scope(false, false, [], [node.name]), Scope(false, false, [renamed], []);
      var first, later := Step(Only(node), [], times), Step(AllFailed(renamed, error, text), [], times);
      var s0 := FirstStatus(times);
      var s1 := DownStatus(s0, node.name, text, text, times);
      var s2 := DownStatus(s1, renamed, error, text, times);
      && Replaced(None, s0, first) && NoNodesOnError(first.seen) && ScopeFor(server, first.seen.result, None, busy)
      && Round(server, busy, [FastPass(server, busy), FailurePass(server, [renamed])], [failed, failed], [later, later],
               [s0, s1, s2])
      && NoNodesOnError(later.seen)
      && Total(s0) == 1 && Total(s1) == 1 && Total(s2) == 2
  {
    var busy, failed := Scope(false, false, [], [node.name]), Scope(false, false, [renamed], []);
    var seen := AllFailed(renamed, error, text);
    var s0 := FirstStatus(times);
    var s1 := DownStatus(s0, node.name, text, text, times);
    OneName(node.name);
    OneName(renamed);
    RenamedOutcomes(node.name, renamed, error, text);
    BusyScope(server, node);
    FailedScope(server, renamed, error, text);
    FailingPass(s0, busy, seen, node.name, text, times);
    FailingPass(s1, failed, seen, renamed, error, times);
    FastThenFailure(server, busy, failed);
    TwoPasses(server, busy, failed, FastPass(server, busy), FailurePass(server, [renamed]), Step(seen, [], times), s0, s1,
              DownStatus(s1, renamed, error, text, times));
  }
}
