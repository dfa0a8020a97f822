/**
 Confirming an abnormal collection: what has to be looked at again, when, and what the passes together
 cover. The schedule grows while it is being worked through.
 */
module Confirmation {
  import opened Basics
  import opened ExporterConfig
  import opened NodeNames

  datatype Scope = Scope(full: bool, host: bool, failureNodes: seq<string>, runQueueNodes: seq<string>)

  datatype Pass = Pass(after: int, scope: Scope)

  datatype Node = Node(name: string, runQueue: nat, schedulersOnline: nat)

  datatype NodeFailure = NodeFailure(name: string, error: string)

  datatype Collected = Collected(nodes: seq<Node>, failures: seq<NodeFailure>, hostError: string, hostCollected: bool)

  predicate Required(s: Scope) {
    s.full || s.host || s.failureNodes != [] || s.runQueueNodes != []
  }

  // ---- What a collection asks to be confirmed ----

  /** Unsigned 64-bit multiplication wraps. */
  predicate Overloaded(server: Server, node: Node) {
    node.schedulersOnline > 0 &&
    node.runQueue > node.schedulersOnline * server.runQueueAlertMultiple % 0x1_0000_0000_0000_0000
  }

  function OverloadedNames(server: Server, nodes: seq<Node>): seq<string> {
    if nodes == [] then []
    else
      var rest := OverloadedNames(server, nodes[..|nodes| - 1]);
      if Overloaded(server, nodes[|nodes| - 1]) then rest + [nodes[|nodes| - 1].name] else rest
  }

  lemma {:induction false} OverloadedAre(server: Server, nodes: seq<Node>, n: string)
    ensures n in OverloadedNames(server, nodes) <==> exists k :: 0 <= k < |nodes| && IsBusy(server, nodes[k], n)
  {
    if nodes != [] {
      var front := nodes[..|nodes| - 1];
      OverloadedAre(server, front, n);
      assert forall k | 0 <= k < |front| :: front[k] == nodes[k];
    }
  }

  /** The node has this name and more processes waiting than its schedulers times the configured multiple. */
  predicate IsBusy(server: Server, node: Node, n: string) {
    && node.name == n && node.schedulersOnline > 0
    && node.runQueue > (node.schedulersOnline * server.runQueueAlertMultiple) % 0x1_0000_0000_0000_0000
  }

  function FailureNames(failures: seq<NodeFailure>): set<string> {
    set f | f in failures :: f.name
  }

  /** What a collection asks to be confirmed. */
  ghost predicate ScopeFor(server: Server, result: Collected, err: Option<string>, scope: Scope) {
    && scope.host == (result.hostError != "")
    && StrictlySorted(scope.failureNodes) && Members(scope.failureNodes) == FailureNames(result.failures)
    && Sorted(scope.runQueueNodes) && multiset(scope.runQueueNodes) == multiset(OverloadedNames(server, result.nodes))
    && (scope.full <==> err.Some? && result.failures == [] && result.hostError == "")
  }

  /**
   confirmationScopeFor. Every failed node and every overloaded one is in the scope, and any error leads
   to a confirmation: a full one only when no failed node and no host error tells where to look.
   */
  method ConfirmationScopeFor(server: Server, result: Collected, err: Option<string>) returns (scope: Scope)
    ensures ScopeFor(server, result, err, scope)
    ensures forall n :: n in scope.failureNodes <==> exists k :: 0 <= k < |result.failures| && result.failures[k].name == n
    ensures forall n :: n in scope.runQueueNodes <==> exists k :: 0 <= k < |result.nodes| && IsBusy(server, result.nodes[k], n)
    ensures err.Some? ==> scope.full || scope.host || scope.failureNodes != []
  {
    var unique: set<string> := {};
    for i := 0 to |result.failures|
      invariant unique == FailureNames(result.failures[..i])
    {
      assert result.failures[..i + 1] == result.failures[..i] + [result.failures[i]];
      unique := unique + {result.failures[i].name};
    }
    assert result.failures[..|result.failures|] == result.failures;
    var failureNodes := SortedKeys(unique);
    NoMembers(failureNodes);
    assert result.failures != [] ==> result.failures[0].name in FailureNames(result.failures);
    var busy: seq<string> := [];
    for i := 0 to |result.nodes|
      invariant busy == OverloadedNames(server, result.nodes[..i])
    {
      assert result.nodes[..i + 1][..i] == result.nodes[..i];
      if Overloaded(server, result.nodes[i]) {
        busy := busy + [result.nodes[i].name];
      }
    }
    assert result.nodes[..|result.nodes|] == result.nodes;
    SortNamesSorts(busy);
    var host := result.hostError != "";
    scope := Scope(err.Some? && failureNodes == [] && !host, host, failureNodes, SortNames(busy));
    forall n ensures n in scope.runQueueNodes <==> exists k :: 0 <= k < |result.nodes| && IsBusy(server, result.nodes[k], n) {
      OverloadedAre(server, result.nodes, n);
      assert n in scope.runQueueNodes <==> n in multiset(scope.runQueueNodes);
    }
    assert forall n :: n in scope.failureNodes <==> n in Members(scope.failureNodes);
  }

  // ---- The schedule ----

  /** The library's stable sort by delay, by insertion. */
  function InsertPass(passes: seq<Pass>, p: Pass): seq<Pass> {
    if passes == [] || passes[|passes| - 1].after <= p.after then passes + [p]
    else InsertPass(passes[..|passes| - 1], p) + [passes[|passes| - 1]]
  }

  function SortPasses(passes: seq<Pass>): seq<Pass> {
    if passes == [] then [] else InsertPass(SortPasses(passes[..|passes| - 1]), passes[|passes| - 1])
  }

  ghost predicate ByDelay(passes: seq<Pass>) {
    forall i, j | 0 <= i < j < |passes| :: passes[i].after <= passes[j].after
  }

  /** The passes with one delay, in order. */
  function At(passes: seq<Pass>, after: int): seq<Pass> {
    if passes == [] then []
    else At(passes[..|passes| - 1], after) + if passes[|passes| - 1].after == after then [passes[|passes| - 1]] else []
  }

  lemma {:induction false} InsertPassSorted(passes: seq<Pass>, p: Pass)
    requires ByDelay(passes)
    ensures ByDelay(InsertPass(passes, p)) && multiset(InsertPass(passes, p)) == multiset(passes) + multiset{p}
  {
    if passes != [] {
      var n := |passes| - 1;
      assert passes == passes[..n] + [passes[n]];
      if passes[n].after > p.after {
        InsertPassSorted(passes[..n], p);
        var less := InsertPass(passes[..n], p);
        forall i | 0 <= i < |less| ensures less[i].after <= passes[n].after {
          assert less[i] in multiset(less);
          assert less[i] == p || less[i] in passes[..n];
        }
      }
    }
  }

  lemma AtSnoc(passes: seq<Pass>, p: Pass, after: int)
    ensures At(passes + [p], after) == At(passes, after) + if p.after == after then [p] else []
  {
    assert (passes + [p])[..|passes|] == passes;
  }

  lemma {:induction false} InsertPassStable(passes: seq<Pass>, p: Pass, after: int)
    ensures At(InsertPass(passes, p), after) == At(passes, after) + if p.after == after then [p] else []
  {
    if passes == [] || passes[|passes| - 1].after <= p.after {
      AtSnoc(passes, p, after);
    } else {
      var front, last := passes[..|passes| - 1], passes[|passes| - 1];
      InsertPassStable(front, p, after);
      AtSnoc(InsertPass(front, p), last, after);
      var found := At(front, after);
      if last.after == after {
        assert At(passes, after) == found + [last];
      } else {
        assert At(passes, after) == found + [] == found;
      }
    }
  }

  lemma {:induction false} SortPassesSorted(passes: seq<Pass>)
    ensures ByDelay(SortPasses(passes)) && multiset(SortPasses(passes)) == multiset(passes)
  {
    if passes != [] {
      var front, last := passes[..|passes| - 1], passes[|passes| - 1];
      SortPassesSorted(front);
      assert multiset(passes) == multiset(front) + multiset{last} by {
        assert passes == front + [last];
      }
      InsertPassSorted(SortPasses(front), last);
    }
  }

  /** The sort is stable: it orders by delay, keeps every pass, and keeps the order of equal delays. */
  lemma {:induction false} SortPassesStable(passes: seq<Pass>, after: int)
    ensures ByDelay(SortPasses(passes)) && multiset(SortPasses(passes)) == multiset(passes)
    ensures At(SortPasses(passes), after) == At(passes, after)
  {
    SortPassesSorted(passes);
    if passes != [] {
      var n := |passes| - 1;
      SortPassesStable(passes[..n], after);
      InsertPassStable(SortPasses(passes[..n]), passes[n], after);
    }
  }

  function FastScope(scope: Scope): Scope {
    Scope(scope.full, scope.host, [], scope.runQueueNodes)
  }

  function FastPass(server: Server, scope: Scope): Pass {
    Pass(server.confirmInterval, FastScope(scope))
  }

  function FailurePass(server: Server, nodes: seq<string>): Pass {
    Pass(server.nodeFailureConfirmInterval, Scope(false, false, nodes, []))
  }

  /** The passes a scope calls for: the fast one first unless the failure delay is shorter. */
  function Initial(server: Server, scope: Scope): seq<Pass> {
    var fast := if Required(FastScope(scope)) then [FastPass(server, scope)] else [];
    var failure := if scope.failureNodes != [] then [FailurePass(server, scope.failureNodes)] else [];
    if server.nodeFailureConfirmInterval < server.confirmInterval then failure + fast else fast + failure
  }

  /** Everything the scope names is looked at after its delay. */
  ghost predicate Covers(server: Server, scope: Scope, passes: seq<Pass>) {
    && (scope.full ==> exists p :: p in passes && p.scope.full && p.after == server.confirmInterval)
    && (scope.host ==> exists p :: p in passes && p.scope.host && p.after == server.confirmInterval)
    && (forall n | n in scope.runQueueNodes ::
          exists p :: p in passes && n in p.scope.runQueueNodes && p.after == server.confirmInterval)
    && (forall n | n in scope.failureNodes ::
          exists p :: p in passes && n in p.scope.failureNodes && p.after == server.nodeFailureConfirmInterval)
    && (scope.full || scope.host || scope.failureNodes != [] || scope.runQueueNodes != [] ==> passes != [])
  }

  /** Nothing is looked at without a reason: the host and run queues only as the scope says, and each pass at its delay. */
  ghost predicate OnlyAsked(server: Server, scope: Scope, passes: seq<Pass>) {
    forall p | p in passes ::
      && p.after == (if p.scope.failureNodes == [] then server.confirmInterval else server.nodeFailureConfirmInterval)
      && (p.scope.full ==> scope.full) && (p.scope.host ==> scope.host)
      && (forall n | n in p.scope.runQueueNodes :: n in scope.runQueueNodes)
  }

  lemma InitialCovers(server: Server, scope: Scope)
    ensures var all := Initial(server, scope);
      ByDelay(all) && Covers(server, scope, all) && OnlyAsked(server, scope, all)
  {
    var all, fast, failure := Initial(server, scope), FastPass(server, scope), FailurePass(server, scope.failureNodes);
    assert forall p | p in all :: p == fast || p == failure;
    assert Required(FastScope(scope)) ==> fast in all;
    assert scope.failureNodes != [] ==> failure in all;
  }

  method ConfirmationSchedule(server: Server, scope: Scope) returns (schedule: seq<Pass>)
    ensures schedule == Initial(server, scope)
    ensures ByDelay(schedule) && Covers(server, scope, schedule) && OnlyAsked(server, scope, schedule)
  {
    schedule := SortedPasses(server, scope);
    InitialCovers(server, scope);
  }

  /** The two passes that may be called for, sorted. */
  method SortedPasses(server: Server, scope: Scope) returns (schedule: seq<Pass>)
    ensures schedule == Initial(server, scope)
  {
    schedule := [];
    if Required(FastScope(scope)) {
      schedule := schedule + [FastPass(server, scope)];
    }
    if scope.failureNodes != [] {
      schedule := schedule + [FailurePass(server, scope.failureNodes)];
    }
    SortOne(FastPass(server, scope));
    SortOne(FailurePass(server, scope.failureNodes));
    SortTwo(FastPass(server, scope), FailurePass(server, scope.failureNodes));
    schedule := SortPasses(schedule);
  }

  lemma SortSnoc(passes: seq<Pass>, p: Pass)
    ensures SortPasses(passes + [p]) == InsertPass(SortPasses(passes), p)
  {
    assert (passes + [p])[..|passes|] == passes;
  }

  lemma SortOne(p: Pass)
    ensures SortPasses([p]) == [p]
  {
    SortSnoc([], p);
    assert [] + [p] == [p];
  }

  lemma SortTwo(p: Pass, q: Pass)
    ensures SortPasses([p, q]) == if q.after < p.after then [q, p] else [p, q]
  {
    SortSnoc([p], q);
    SortOne(p);
    assert [p] + [q] == [p, q];
    assert [p][..0] == [];
    assert InsertPass([], q) == [q];
  }

  predicate IsFast(p: Pass) {
    p.scope.failureNodes == []
  }

  /** Some pass looks at the node because it had failed. */
  ghost predicate Targeted(passes: seq<Pass>, node: string) {
    exists p :: p in passes && node in p.scope.failureNodes
  }

  ghost predicate KeepsTargets(a: seq<Pass>, b: seq<Pass>) {
    forall n | Targeted(a, n) :: Targeted(b, n)
  }

  /** Position of the first failure pass, or the length. */
  function FirstFailure(passes: seq<Pass>, from: nat): (k: nat)
    requires from <= |passes|
    ensures from <= k <= |passes| && (forall j | from <= j < k :: IsFast(passes[j])) && (k < |passes| ==> !IsFast(passes[k]))
    decreases |passes| - from
  {
    if from == |passes| || !IsFast(passes[from]) then from else FirstFailure(passes, from + 1)
  }

  /** What addFailureConfirmation may return. */
  ghost predicate Added(schedule: seq<Pass>, start: nat, after: int, nodes: seq<string>, grown: seq<Pass>)
    requires start <= |schedule|
  {
    var k := FirstFailure(schedule, start);
    if k < |schedule| then
      && |grown| == |schedule| && grown[..k] == schedule[..k] && grown[k + 1..] == schedule[k + 1..]
      && grown[k] == Pass(schedule[k].after, schedule[k].scope.(failureNodes := grown[k].scope.failureNodes))
      && StrictlySorted(grown[k].scope.failureNodes)
      && Members(grown[k].scope.failureNodes) == Members(schedule[k].scope.failureNodes) + Members(nodes)
    else
      grown == schedule[..start] + SortPasses(schedule[start..] + [Pass(after, Scope(false, false, nodes, []))])
  }

  lemma MergedAt(schedule: seq<Pass>, start: nat, k: nat, after: int, nodes: seq<string>, merged: seq<string>)
    requires start <= k < |schedule| && k == FirstFailure(schedule, start)
    requires StrictlySorted(merged) && Members(merged) == Members(schedule[k].scope.failureNodes) + Members(nodes)
    ensures Added(schedule, start, after, nodes, schedule[k := schedule[k].(scope := schedule[k].scope.(failureNodes := merged))])
  {
    var grown := schedule[k := schedule[k].(scope := schedule[k].scope.(failureNodes := merged))];
    assert grown[..k] == schedule[..k] && grown[k + 1..] == schedule[k + 1..];
  }

  method AddFailureConfirmation(schedule: seq<Pass>, start: nat, after: int, nodes: seq<string>) returns (grown: seq<Pass>)
    requires start <= |schedule|
    ensures Added(schedule, start, after, nodes, grown)
  {
    var i := start;
    while i < |schedule|
      invariant start <= i <= |schedule| && FirstFailure(schedule, start) == FirstFailure(schedule, i)
    {
      if !IsFast(schedule[i]) {
        var merged := MergeNodeNames(schedule[i].scope.failureNodes, nodes);
        grown := schedule[i := schedule[i].(scope := schedule[i].scope.(failureNodes := merged))];
        MergedAt(schedule, start, i, after, nodes, merged);
        return;
      }
      i := i + 1;
    }
    grown := schedule + [Pass(after, Scope(false, false, nodes, []))];
    assert grown[start..] == schedule[start..] + [Pass(after, Scope(false, false, nodes, []))];
    grown := grown[..start] + SortPasses(grown[start..]);
  }

  lemma TargetedSplit(a: seq<Pass>, p: Pass, b: seq<Pass>, node: string)
    ensures Targeted(a + [p] + b, node) <==> Targeted(a, node) || node in p.scope.failureNodes || Targeted(b, node)
  {
    assert forall x :: x in a + [p] + b <==> x in a || x == p || x in b;
  }

  /** From `start` on the grown schedule differs from the old one in the one pass at k. */
  lemma SplitAt(schedule: seq<Pass>, start: nat, k: nat, grown: seq<Pass>)
    requires start <= k < |schedule| == |grown| && grown[..k] == schedule[..k] && grown[k + 1..] == schedule[k + 1..]
    ensures schedule[start..] == schedule[start..k] + [schedule[k]] + schedule[k + 1..]
    ensures grown[start..] == schedule[start..k] + [grown[k]] + schedule[k + 1..]
    ensures grown[..start] == schedule[..start]
  {
    assert grown == grown[..k] + [grown[k]] + grown[k + 1..];
    assert grown[..k][start..] == schedule[..k][start..];
    assert grown[..k][..start] == schedule[..k][..start];
  }

  lemma SortTargets(passes: seq<Pass>, more: Pass, node: string)
    ensures Targeted(SortPasses(passes + [more]), node) <==> Targeted(passes, node) || node in more.scope.failureNodes
  {
    var all := passes + [more];
    SortPassesSorted(all);
    forall p ensures p in SortPasses(all) <==> p in passes || p == more {
      assert p in SortPasses(all) <==> p in multiset(SortPasses(all));
      assert p in all <==> p in multiset(all);
    }
    assert more in SortPasses(all);
  }

  /** No node is lost: the passes from `start` on target exactly what they did before and the new nodes. */
  lemma AddedTargets(schedule: seq<Pass>, start: nat, after: int, nodes: seq<string>, grown: seq<Pass>, node: string)
    requires start <= |schedule| && Added(schedule, start, after, nodes, grown)
    ensures start <= |grown| && grown[..start] == schedule[..start]
    ensures Targeted(grown[start..], node) <==> Targeted(schedule[start..], node) || node in nodes
  {
    var k := FirstFailure(schedule, start);
    if k < |schedule| {
      SplitAt(schedule, start, k, grown);
      TargetedSplit(schedule[start..k], schedule[k], schedule[k + 1..], node);
      TargetedSplit(schedule[start..k], grown[k], schedule[k + 1..], node);
      assert node in grown[k].scope.failureNodes <==> node in Members(grown[k].scope.failureNodes);
    } else {
      var more := Pass(after, Scope(false, false, nodes, []));
      SortTargets(schedule[start..], more, node);
      assert grown[start..] == SortPasses(schedule[start..] + [more]);
    }
  }

  /** The schedule can only outgrow its initial form when the failure pass does not come after the fast one. */
  predicate NoLaterFailurePass(server: Server, scope: Scope) {
    scope.failureNodes == [] || server.nodeFailureConfirmInterval < server.confirmInterval
  }

  /** Some fast pass found failed nodes. */
  ghost predicate FastFoundFailures(passes: seq<Pass>, found: seq<Scope>) {
    exists k :: 0 <= k < |passes| && k < |found| && IsFast(passes[k]) && found[k].failureNodes != []
  }

  const NOTHING := Scope(false, false, [], [])

  /** Whether or not it was cut short: its one fast pass has its place, and the others look at failed nodes only. */
  ghost predicate Grounded(server: Server, scope: Scope, passes: seq<Pass>, found: seq<Scope>) {
    var f := FastAt(server, scope);
    && |passes| == |found|
    && forall k | 0 <= k < |passes| ::
         if IsFast(passes[k]) then k == f && passes[k] == FastPass(server, scope)
         else ForFailures(passes[k], server.nodeFailureConfirmInterval, scope,
                          if f < k && IsFast(passes[f]) then found[f] else NOTHING)
  }

  /** What a confirmation that the context did not cut short has done. */
  ghost predicate RanInFull(server: Server, scope: Scope, passes: seq<Pass>, found: seq<Scope>) {
    && |passes| == |found|
    && |passes| == |Initial(server, scope)| +
         (if NoLaterFailurePass(server, scope) && FastFoundFailures(passes, found) then 1 else 0)
    && (Required(FastScope(scope)) ==> FastPass(server, scope) in passes)
    && (forall n | n in scope.failureNodes :: Targeted(passes, n))
    && (forall k, n | 0 <= k < |passes| && IsFast(passes[k]) && n in found[k].failureNodes :: Targeted(passes[k + 1..], n))
  }

  /** Where the one fast pass stands in the initial schedule. */
  function FastAt(server: Server, scope: Scope): nat {
    if scope.failureNodes != [] && server.nodeFailureConfirmInterval < server.confirmInterval then 1 else 0
  }

  lemma FastPosition(server: Server, scope: Scope)
    ensures var all := Initial(server, scope);
      && |all| == (if Required(FastScope(scope)) then 1 else 0) + (if scope.failureNodes != [] then 1 else 0)
      && (Required(FastScope(scope)) ==>
            && FastAt(server, scope) < |all| && all[FastAt(server, scope)] == FastPass(server, scope)
            && (FastAt(server, scope) + 1 == |all| <==> NoLaterFailurePass(server, scope)))
      && (forall k | 0 <= k < |all| :: IsFast(all[k]) <==> Required(FastScope(scope)) && k == FastAt(server, scope))
      && (forall k | 0 <= k < |all| && !IsFast(all[k]) :: all[k].scope.failureNodes == scope.failureNodes)
  {
  }

  /** A pass that looks only at nodes that had failed at the start or in the fast pass. */
  ghost predicate ForFailures(p: Pass, after: int, scope: Scope, confirmed: Scope) {
    && p.after == after && p.scope == Scope(false, false, p.scope.failureNodes, [])
    && forall n | n in p.scope.failureNodes :: n in scope.failureNodes || n in confirmed.failureNodes
  }

  /** The schedule once the fast pass has run and found `confirmed`. */
  ghost predicate AfterFast(server: Server, scope: Scope, schedule: seq<Pass>, confirmed: Scope) {
    AfterPass(Initial(server, scope), FastAt(server, scope), NoLaterFailurePass(server, scope),
              server.nodeFailureConfirmInterval, scope, schedule, confirmed)
  }

  ghost predicate AfterPass(all: seq<Pass>, f: nat, last: bool, after: int, scope: Scope, schedule: seq<Pass>,
                            confirmed: Scope) {
    && f < |all|
    && |schedule| == |all| + (if last && confirmed.failureNodes != [] then 1 else 0)
    && schedule[..f + 1] == all[..f + 1]
    && (forall k | f < k < |schedule| :: !IsFast(schedule[k]) && ForFailures(schedule[k], after, scope, confirmed))
    && (forall n | n in confirmed.failureNodes :: Targeted(schedule[f + 1..], n))
    && KeepsTargets(all[f + 1..], schedule[f + 1..])
  }

  /** After the fast pass found failed nodes one failure pass is ahead, the old one grown or a new one. */
  lemma OneFailurePass(server: Server, scope: Scope, confirmed: Scope, schedule: seq<Pass>)
    requires Required(FastScope(scope)) && confirmed.failureNodes != []
    requires FastAt(server, scope) < |Initial(server, scope)|
    requires Added(Initial(server, scope), FastAt(server, scope) + 1, server.nodeFailureConfirmInterval,
                   confirmed.failureNodes, schedule)
    ensures var start := FastAt(server, scope) + 1;
      && |schedule| == start + 1 == |Initial(server, scope)| + (if NoLaterFailurePass(server, scope) then 1 else 0)
      && !IsFast(schedule[start]) && ForFailures(schedule[start], server.nodeFailureConfirmInterval, scope, confirmed)
  {
    FastPosition(server, scope);
    var all, start := Initial(server, scope), FastAt(server, scope) + 1;
    if start < |all| {
      assert FirstFailure(all, start) == start;
      NoMembers(all[start].scope.failureNodes);
      NoMembers(schedule[start].scope.failureNodes);
      assert forall n :: n in schedule[start].scope.failureNodes <==> n in Members(schedule[start].scope.failureNodes);
    } else {
      var more := Pass(server.nodeFailureConfirmInterval, Scope(false, false, confirmed.failureNodes, []));
      assert all[start..] + [more] == [more];
      SortOne(more);
    }
  }

  lemma OnePassAhead(all: seq<Pass>, f: nat, last: bool, scope: Scope, after: int, confirmed: Scope, schedule: seq<Pass>)
    requires f < |all| && confirmed.failureNodes != [] && Added(all, f + 1, after, confirmed.failureNodes, schedule)
    requires |schedule| == f + 2 == |all| + (if last then 1 else 0)
    requires !IsFast(schedule[f + 1]) && ForFailures(schedule[f + 1], after, scope, confirmed)
    ensures AfterPass(all, f, last, after, scope, schedule, confirmed)
  {
    AddedTargets(all, f + 1, after, confirmed.failureNodes, schedule, "");
    var start := f + 1;
    forall n ensures Targeted(schedule[start..], n) <==> Targeted(all[start..], n) || n in confirmed.failureNodes {
      AddedTargets(all, start, after, confirmed.failureNodes, schedule, n);
    }
  }

  lemma FastStep(server: Server, scope: Scope, confirmed: Scope, schedule: seq<Pass>)
    requires Required(FastScope(scope))
    requires FastAt(server, scope) < |Initial(server, scope)|
    requires if confirmed.failureNodes == [] then schedule == Initial(server, scope)
      else Added(Initial(server, scope), FastAt(server, scope) + 1, server.nodeFailureConfirmInterval,
                 confirmed.failureNodes, schedule)
    ensures AfterFast(server, scope, schedule, confirmed)
  {
    if confirmed.failureNodes != [] {
      OneFailurePass(server, scope, confirmed, schedule);
      OnePassAhead(Initial(server, scope), FastAt(server, scope), NoLaterFailurePass(server, scope), scope,
                   server.nodeFailureConfirmInterval, confirmed, schedule);
    } else {
      FastPosition(server, scope);
    }
  }

  lemma Finish(server: Server, scope: Scope, passes: seq<Pass>, found: seq<Scope>)
    requires |passes| == |found|
    requires if Required(FastScope(scope))
      then FastAt(server, scope) < |found| && AfterFast(server, scope, passes, found[FastAt(server, scope)])
      else passes == Initial(server, scope)
    ensures RanInFull(server, scope, passes, found)
  {
    FastPosition(server, scope);
    var all, f := Initial(server, scope), FastAt(server, scope);
    if Required(FastScope(scope)) {
      assert passes[f] == passes[..f + 1][f] == all[f];
      assert forall k | 0 <= k < f :: passes[k] == passes[..f + 1][k] == all[k];
      assert FastFoundFailures(passes, found) <==> found[f].failureNodes != [];
    }
    forall n | n in scope.failureNodes ensures Targeted(passes, n) {
      if Required(FastScope(scope)) && f == 0 {
        assert all[1] in all[1..];
        assert Targeted(passes[1..], n);
      } else {
        assert passes[0].scope.failureNodes == scope.failureNodes;
      }
    }
  }

  /** The loop of confirm before its pass `i`. */
  ghost predicate Underway(server: Server, scope: Scope, schedule: seq<Pass>, i: nat, found: seq<Scope>) {
    if Required(FastScope(scope)) && i > FastAt(server, scope)
    then FastAt(server, scope) < |found| && AfterFast(server, scope, schedule, found[FastAt(server, scope)])
    else schedule == Initial(server, scope)
  }

  /** Whether the pass made the schedule grow, or at least change. */
  predicate AddsFailures(item: Pass, confirmed: Scope) {
    Required(confirmed) && item.scope.failureNodes == [] && confirmed.failureNodes != []
  }

  lemma UnderwayStep(server: Server, scope: Scope, schedule: seq<Pass>, i: nat, found: seq<Scope>,
                     confirmed: Scope, grown: seq<Pass>)
    requires Underway(server, scope, schedule, i, found) && i < |schedule| && |found| == i
    requires if AddsFailures(schedule[i], confirmed)
      then Added(schedule, i + 1, server.nodeFailureConfirmInterval, confirmed.failureNodes, grown)
      else grown == schedule
    ensures Underway(server, scope, grown, i + 1, found + [confirmed])
    ensures i < |grown| && grown[..i + 1] == schedule[..i + 1]
  {
    FastPosition(server, scope);
    if Required(FastScope(scope)) && i == FastAt(server, scope) {
      FastStep(server, scope, confirmed, grown);
    }
  }

  lemma UnderwayBound(server: Server, scope: Scope, schedule: seq<Pass>, i: nat, found: seq<Scope>)
    requires Underway(server, scope, schedule, i, found) && i <= |schedule| && |found| == i
    ensures |schedule| <= 3 && (server.confirmInterval <= server.nodeFailureConfirmInterval ==> |schedule| <= 2)
    ensures i == |schedule| ==> RanInFull(server, scope, schedule, found)
  {
    FastPosition(server, scope);
    if i == |schedule| {
      Finish(server, scope, schedule, found);
    }
  }

  lemma UnderwayGrounded(server: Server, scope: Scope, schedule: seq<Pass>, i: nat, found: seq<Scope>)
    requires Underway(server, scope, schedule, i, found) && i <= |schedule| && |found| == i
    ensures Grounded(server, scope, schedule[..i], found)
  {
    FastPosition(server, scope);
    var all, f := Initial(server, scope), FastAt(server, scope);
    if Required(FastScope(scope)) && i > f {
      assert forall k | 0 <= k <= f :: schedule[k] == schedule[..f + 1][k] == all[..f + 1][k] == all[k];
    }
  }

  lemma GroundedAsks(server: Server, scope: Scope, passes: seq<Pass>, found: seq<Scope>)
    requires Grounded(server, scope, passes, found)
    ensures OnlyAsked(server, scope, passes)
  {
  }

  lemma FullRunCovers(server: Server, scope: Scope, passes: seq<Pass>, found: seq<Scope>)
    requires Grounded(server, scope, passes, found) && RanInFull(server, scope, passes, found)
    ensures Covers(server, scope, passes)
  {
    GroundedAsks(server, scope, passes, found);
    if Required(FastScope(scope)) {
      var fast := FastPass(server, scope);
      assert fast in passes && fast.after == server.confirmInterval;
      assert (scope.full ==> fast.scope.full) && (scope.host ==> fast.scope.host);
      assert forall n | n in scope.runQueueNodes :: n in fast.scope.runQueueNodes;
    }
    forall n | n in scope.failureNodes
      ensures exists p :: p in passes && n in p.scope.failureNodes && p.after == server.nodeFailureConfirmInterval
    {
      var p :| p in passes && n in p.scope.failureNodes;
    }
    if scope.failureNodes != [] {
      assert Targeted(passes, scope.failureNodes[0]);
    }
  }

  /** The end of a turn of confirm's loop: what the pass at `i` confirmed may add to the rest of the schedule. */
  method Extend(server: Server, ghost scope: Scope, schedule: seq<Pass>, i: nat, ghost found: seq<Scope>, confirmed: Scope)
    returns (grown: seq<Pass>)
    requires Underway(server, scope, schedule, i, found) && i < |schedule| && |found| == i
    ensures Underway(server, scope, grown, i + 1, found + [confirmed])
    ensures i < |grown| && grown[..i + 1] == schedule[..i + 1]
  {
    grown := schedule;
    if AddsFailures(schedule[i], confirmed) {
      grown := AddFailureConfirmation(schedule, i + 1, server.nodeFailureConfirmInterval, confirmed.failureNodes);
    }
    UnderwayStep(server, scope, schedule, i, found, confirmed, grown);
  }

  /** The passes waited for their delay, and each found what its collection gives. */
  ghost predicate Ran(passes: seq<Pass>, found: seq<Scope>, wait: nat -> bool, collect: (nat, Scope) -> Scope) {
    |passes| == |found| && forall k | 0 <= k < |passes| :: wait(k) && found[k] == collect(k, passes[k].scope)
  }

  lemma RanOneMore(passes: seq<Pass>, found: seq<Scope>, wait: nat -> bool, collect: (nat, Scope) -> Scope, item: Pass)
    requires Ran(passes, found, wait, collect) && wait(|passes|)
    ensures Ran(passes + [item], found + [collect(|passes|, item.scope)], wait, collect)
  {
  }

  lemma FrontOneMore(schedule: seq<Pass>, grown: seq<Pass>, i: nat)
    requires i < |schedule| && i < |grown| && grown[..i + 1] == schedule[..i + 1]
    ensures schedule[..i] + [schedule[i]] == grown[..i + 1]
  {
  }

  /** The loop of confirm over its schedule. */
  method RunSchedule(server: Server, scope: Scope, initial: seq<Pass>, wait: nat -> bool, collect: (nat, Scope) -> Scope)
    returns (passes: seq<Pass>, found: seq<Scope>, cancelled: bool)
    requires initial == Initial(server, scope)
    ensures Ran(passes, found, wait, collect)
    ensures cancelled ==> !wait(|passes|)
    ensures |passes| <= 3 && (server.confirmInterval <= server.nodeFailureConfirmInterval ==> |passes| <= 2)
    ensures Grounded(server, scope, passes, found)
    ensures !cancelled ==> RanInFull(server, scope, passes, found)
  {
    var schedule := initial;
    passes, found, cancelled := [], [], false;
    var i := 0;
    while i < |schedule|
      invariant 0 <= i <= |schedule| && passes == schedule[..i] && |found| == i
      invariant Ran(passes, found, wait, collect)
      invariant Underway(server, scope, schedule, i, found)
      decreases 3 - i
    {
      UnderwayBound(server, scope, schedule, i, found);
      UnderwayGrounded(server, scope, schedule, i, found);
      var item := schedule[i];
      if !wait(i) {
        cancelled := true;
        return;
      }
      RanOneMore(passes, found, wait, collect, item);
      passes := passes + [item];
      var confirmed := collect(i, item.scope);
      var grown := Extend(server, scope, schedule, i, found, confirmed);
      FrontOneMore(schedule, grown, i);
      schedule, found, i := grown, found + [confirmed], i + 1;
    }
    assert schedule == passes;
    UnderwayBound(server, scope, schedule, i, found);
    UnderwayGrounded(server, scope, schedule, i, found);
  }

  /**
   confirm. `wait` says which of its waits end with the delay and not the context, `collect` what each
   pass finds. Result: the passes it ran, what each found, and whether the context cut it short.
   */
  method Confirm(server: Server, scope: Scope, wait: nat -> bool, collect: (nat, Scope) -> Scope)
    returns (passes: seq<Pass>, found: seq<Scope>, cancelled: bool)
    ensures Ran(passes, found, wait, collect)
    ensures cancelled ==> !wait(|passes|)
    ensures |passes| <= 3 && (server.confirmInterval <= server.nodeFailureConfirmInterval ==> |passes| <= 2)
    ensures Grounded(server, scope, passes, found) && OnlyAsked(server, scope, passes)
    ensures !cancelled ==> RanInFull(server, scope, passes, found) && Covers(server, scope, passes)
  {
    var schedule := ConfirmationSchedule(server, scope);
    passes, found, cancelled := RunSchedule(server, scope, schedule, wait, collect);
    GroundedAsks(server, scope, passes, found);
    if !cancelled {
      FullRunCovers(server, scope, passes, found);
    }
  }
}
