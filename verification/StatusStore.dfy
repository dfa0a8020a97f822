/**
 The status store: memory changes under one lock, and a snapshot is taken and written to the file under
 another. Any number of updates and deletes are in flight; a write may fail and leave the file alone.
 */
module StatusStore {
  import opened Basics

  datatype ServerStatus = ServerStatus(
    state: string,
    lastAttempt: int,
    lastSuccess: int,
    lastError: string,
    nodes: int,
    failedNodes: int,
    nodeErrors: map<string, string>,
    hostError: string,
    durationMs: int)

  datatype Snapshot = Snapshot(state: string, servers: map<string, ServerStatus>)

  type Servers = map<string, ServerStatus>

  datatype Health = Healthy | Degraded | Down

  function HealthOf(status: ServerStatus): Health {
    if status.state == "healthy" then Healthy else if status.state == "degraded" then Degraded else Down
  }

  ghost predicate Any(servers: Servers, h: Health) {
    exists id :: id in servers && HealthOf(servers[id]) == h
  }

  lemma AnyAdded(servers: Servers, id: string, status: ServerStatus, h: Health)
    requires id !in servers
    ensures Any(servers[id := status], h) <==> Any(servers, h) || HealthOf(status) == h
  {
    var more := servers[id := status];
    assert HealthOf(more[id]) == HealthOf(status);
    assert forall x | x in servers :: more[x] == servers[x];
    if Any(servers, h) {
      var x :| x in servers && HealthOf(servers[x]) == h;
      assert HealthOf(more[x]) == h;
    }
  }

  /** The overall state in terms of the servers' own states. */
  function Summary(servers: Servers): string {
    if servers == map[] then "starting"
    else if forall id | id in servers :: servers[id].state == "healthy" then "healthy"
    else if exists id :: id in servers && servers[id].state in {"healthy", "degraded"} then "degraded"
    else "down"
  }

  lemma SummaryCases(servers: Servers)
    ensures Summary(servers) ==
      if Any(servers, Healthy) && !Any(servers, Degraded) && !Any(servers, Down) then "healthy"
      else if Any(servers, Healthy) || Any(servers, Degraded) then "degraded"
      else if Any(servers, Down) then "down"
      else "starting"
  {
    if servers != map[] {
      var id :| id in servers;
      assert Any(servers, HealthOf(servers[id]));
    }
  }

  function Capture(servers: Servers): Snapshot { Snapshot(Summary(servers), servers) }

  /** A snapshot holds memory as it is and an overall state: each of the four has its own condition. */
  lemma CaptureMeans(servers: Servers)
    ensures var s := Capture(servers);
      && s.servers == servers
      && (s.state == "starting" <==> servers == map[])
      && (s.state == "healthy" <==> servers != map[] && forall id | id in servers :: servers[id].state == "healthy")
      && (s.state == "down" <==>
            servers != map[] && forall id | id in servers :: servers[id].state != "healthy" && servers[id].state != "degraded")
      && s.state in {"starting", "healthy", "degraded", "down"}
  {
    if servers != map[] {
      var id :| id in servers;
    }
  }

  datatype Operation = Put(server: string, status: ServerStatus) | Remove(server: string)

  function Changed(servers: Servers, op: Operation): Servers {
    match op
    case Put(id, status) => servers[id := status]
    case Remove(id) => servers - {id}
  }

  /** The operation shows in memory: a put server has exactly that status, a removed one is gone. */
  predicate Shows(servers: Servers, op: Operation) {
    match op
    case Put(id, status) => id in servers && servers[id] == status
    case Remove(id) => id !in servers
  }

  /** No entry but the one of this server differs. */
  ghost predicate SameExcept(before: Servers, after: Servers, id: string) {
    forall other | other != id :: (other in after <==> other in before) && (other in after ==> after[other] == before[other])
  }

  /** The mutable store; its methods are the critical sections that Update and Delete string together. */
  class Store {
    const path: string
    var servers: Servers
    var file: Option<Snapshot>

    constructor (path: string)
      ensures this.path == path && servers == map[] && file == None
    {
      this.path := path;
      servers, file := map[], None;
    }

    method Change(op: Operation)
      modifies this`servers
      ensures servers == Changed(old(servers), op)
      ensures Shows(servers, op) && SameExcept(old(servers), servers, op.server)
    {
      match op {
        case Put(id, status) => servers := servers[id := status];
        case Remove(id) => servers := servers - {id};
      }
    }

    method SnapshotLocked() returns (s: Snapshot)
      ensures s == Capture(servers)
    {
      var copy: Servers := map[];
      var healthy, degraded, down := 0, 0, 0;
      var left := servers.Keys;
      while left != {}
        invariant left <= servers.Keys && copy.Keys == servers.Keys - left
        invariant forall id | id in copy :: copy[id] == servers[id]
        invariant healthy >= 0 && degraded >= 0 && down >= 0
        invariant Any(copy, Healthy) == (healthy > 0)
        invariant Any(copy, Degraded) == (degraded > 0)
        invariant Any(copy, Down) == (down > 0)
        decreases |left|
      {
        var id :| id in left;
        left := left - {id};
        forall h: Health { AnyAdded(copy, id, servers[id], h); }
        copy := copy[id := servers[id]];
        if servers[id].state == "healthy" {
          healthy := healthy + 1;
        } else if servers[id].state == "degraded" {
          degraded := degraded + 1;
        } else {
          down := down + 1;
        }
      }
      assert copy == servers;
      SummaryCases(servers);
      var state := "starting";
      if healthy > 0 && degraded == 0 && down == 0 {
        state := "healthy";
      } else if healthy + degraded > 0 {
        state := "degraded";
      } else if down > 0 {
        state := "down";
      }
      s := Snapshot(state, copy);
    }

    /** WriteJSONAtomic: the replacement is all or nothing. */
    method WriteFile(s: Snapshot, ok: bool)
      modifies this`file
      ensures file == if ok then Some(s) else old(file)
    {
      if ok {
        file := Some(s);
      }
    }

    /** Update and Delete with nothing in between; the system below interleaves their sections. */
    method Apply(op: Operation, writes: bool) returns (ok: bool)
      modifies this
      ensures servers == Changed(old(servers), op)
      ensures match op
        case Put(id, status) => id in servers && servers[id] == status
        case Remove(id) => id !in servers
      ensures SameExcept(old(servers), servers, op.server)
      ensures file == if path != "" && writes then Some(Capture(servers)) else old(file)
      ensures ok == (path == "" || writes)
    {
      Change(op);
      if path == "" {
        return true;
      }
      var snapshot := SnapshotLocked();
      WriteFile(snapshot, writes);
      ok := writes;
    }
  }

  // ----- The interleaved system -----

  /** `own` is the memory version that the thread's own change produced. */
  datatype Pc =
    | Queued(own: nat)
    | Locked(own: nat)
    | Writing(own: nat, version: nat, snapshot: Snapshot)
    | Done(own: nat, ok: bool)

  datatype File = File(version: nat, snapshot: Snapshot)

  datatype Attempt = Attempt(version: nat, ok: bool)

  /** log[v] is the memory after v changes; `last` is the latest attempt to write the file. */
  datatype State = State(
    persistent: bool,
    servers: Servers,
    log: seq<Servers>,
    holder: Option<nat>,
    file: Option<File>,
    last: Option<Attempt>,
    threads: map<nat, Pc>)

  datatype Action =
    | Starts(tid: nat, op: Operation)
    | Acquires(tid: nat)
    | Captures(tid: nat)
    | Writes(tid: nat, ok: bool)

  function Version(s: State): nat { if s.log == [] then 0 else |s.log| - 1 }

  predicate Possible(s: State, a: Action) {
    match a
    case Starts(t, _) => t !in s.threads
    case Acquires(t) => t in s.threads && s.threads[t].Queued? && s.holder.None?
    case Captures(t) => t in s.threads && s.threads[t].Locked?
    case Writes(t, _) => t in s.threads && s.threads[t].Writing?
  }

  function Apply(s: State, a: Action): State
    requires Possible(s, a)
  {
    match a
    case Starts(t, op) =>
      var servers := Changed(s.servers, op);
      var own := |s.log|;
      s.(servers := servers, log := s.log + [servers],
         threads := s.threads[t := if s.persistent then Queued(own) else Done(own, true)])
    case Acquires(t) => s.(holder := Some(t), threads := s.threads[t := Locked(s.threads[t].own)])
    case Captures(t) =>
      s.(threads := s.threads[t := Writing(s.threads[t].own, Version(s), Capture(s.servers))])
    case Writes(t, ok) =>
      var w := s.threads[t];
      s.(holder := None,
         file := if ok then Some(File(w.version, w.snapshot)) else s.file,
         last := Some(Attempt(w.version, ok)),
         threads := s.threads[t := Done(w.own, ok)])
  }

  function Initial(persistent: bool): State {
    State(persistent, map[], [map[]], None, None, None, map[])
  }

  ghost predicate IsRun(persistent: bool, states: seq<State>, actions: seq<Action>) {
    && |states| == |actions| + 1
    && states[0] == Initial(persistent)
    && forall i | 0 <= i < |actions| :: Possible(states[i], actions[i]) && states[i + 1] == Apply(states[i], actions[i])
  }

  /** The version below which the file is known to be no older. */
  function FileVersion(s: State): int { if s.file.Some? then s.file.value.version else 0 }

  function LastVersion(s: State): int { if s.last.Some? then s.last.value.version else 0 }

  predicate InFlight(pc: Pc) { !pc.Done? }

  ghost predicate ThreadOk(s: State, t: nat)
    requires t in s.threads
  {
    var pc := s.threads[t];
    && 0 < pc.own <= Version(s)
    && (pc.Locked? || pc.Writing? ==> s.holder == Some(t))
    && (pc.Writing? ==>
          pc.own <= pc.version <= Version(s) && pc.snapshot == Capture(s.log[pc.version]) && LastVersion(s) <= pc.version)
    && (pc.Done? && pc.ok && s.persistent ==> s.file.Some? && pc.own <= s.file.value.version)
    && (!s.persistent ==> pc.Done?)
  }

  /** The newest change is in the last attempt, or its own thread has still to write. */
  ghost predicate NewestPending(s: State) {
    || Version(s) == LastVersion(s)
    || exists t :: t in s.threads && InFlight(s.threads[t]) && s.threads[t].own == Version(s)
  }

  ghost predicate Inv(s: State) {
    && s.log != [] && s.servers == s.log[Version(s)]
    && (forall t | t in s.threads :: ThreadOk(s, t))
    && (s.file.Some? ==> s.file.value.version <= Version(s) && s.file.value.snapshot == Capture(s.log[s.file.value.version]))
    && FileVersion(s) <= LastVersion(s) <= Version(s)
    && (s.last.Some? && s.last.value.ok ==> s.file.Some? && s.file.value.version == s.last.value.version)
    && (s.holder.Some? ==> s.holder.value in s.threads && (s.threads[s.holder.value].Locked? || s.threads[s.holder.value].Writing?))
    && (s.persistent ==> NewestPending(s))
  }

  lemma StartsKept(s: State, t: nat, op: Operation)
    requires Inv(s) && Possible(s, Starts(t, op))
    ensures Inv(Apply(s, Starts(t, op)))
  {
    var s' := Apply(s, Starts(t, op));
    forall u | u in s'.threads ensures ThreadOk(s', u) {
      if u != t {
        assert ThreadOk(s, u);
      }
    }
    assert s.persistent ==> InFlight(s'.threads[t]) && s'.threads[t].own == Version(s');
  }

  lemma AcquiresKept(s: State, t: nat)
    requires Inv(s) && Possible(s, Acquires(t))
    ensures Inv(Apply(s, Acquires(t)))
  {
    var s' := Apply(s, Acquires(t));
    forall u | u in s'.threads ensures ThreadOk(s', u) {
      assert ThreadOk(s, u);
    }
    PendingStays(s, s', t);
  }

  /** A thread that stays in flight keeps its claim. */
  lemma PendingStays(s: State, s': State, t: nat)
    requires s.persistent ==> NewestPending(s)
    requires s'.persistent == s.persistent && s'.log == s.log && s'.last == s.last
    requires t in s.threads && t in s'.threads && InFlight(s'.threads[t]) && s'.threads[t].own == s.threads[t].own
    requires s'.threads.Keys == s.threads.Keys
    requires forall u | u in s.threads && u != t :: s'.threads[u] == s.threads[u]
    ensures s'.persistent ==> NewestPending(s')
  {
    if s.persistent && Version(s) != LastVersion(s) {
      var u :| u in s.threads && InFlight(s.threads[u]) && s.threads[u].own == Version(s);
      assert u in s'.threads && InFlight(s'.threads[u]) && s'.threads[u].own == Version(s');
    }
  }

  lemma CapturesKept(s: State, t: nat)
    requires Inv(s) && Possible(s, Captures(t))
    ensures Inv(Apply(s, Captures(t)))
  {
    var s' := Apply(s, Captures(t));
    forall u | u in s'.threads ensures ThreadOk(s', u) {
      assert ThreadOk(s, u);
    }
    PendingStays(s, s', t);
  }

  lemma WritesKept(s: State, t: nat, ok: bool)
    requires Inv(s) && Possible(s, Writes(t, ok))
    ensures Inv(Apply(s, Writes(t, ok)))
  {
    var s' := Apply(s, Writes(t, ok));
    assert ThreadOk(s, t);
    forall u | u in s'.threads ensures ThreadOk(s', u) {
      assert ThreadOk(s, u);
    }
    if s.persistent && Version(s) != LastVersion(s') {
      assert LastVersion(s) <= LastVersion(s') < Version(s);
      var u :| u in s.threads && InFlight(s.threads[u]) && s.threads[u].own == Version(s);
      assert u in s'.threads && InFlight(s'.threads[u]) && s'.threads[u].own == Version(s');
    }
  }

  lemma InvKept(s: State, a: Action)
    requires Inv(s) && Possible(s, a)
    ensures Inv(Apply(s, a))
  {
    match a
    case Starts(t, op) => StartsKept(s, t, op);
    case Acquires(t) => AcquiresKept(s, t);
    case Captures(t) => CapturesKept(s, t);
    case Writes(t, ok) => WritesKept(s, t, ok);
  }

  lemma {:induction false} RunInv(persistent: bool, states: seq<State>, actions: seq<Action>, i: nat)
    requires IsRun(persistent, states, actions) && i < |states|
    ensures Inv(states[i]) && states[i].persistent == persistent
  {
    if i > 0 {
      RunInv(persistent, states, actions, i - 1);
      InvKept(states[i - 1], actions[i - 1]);
    }
  }

  /** Memory is never rewritten: a version keeps its content. */
  lemma {:induction false} LogIsHistory(persistent: bool, states: seq<State>, actions: seq<Action>, i: nat, j: nat)
    requires IsRun(persistent, states, actions) && i <= j < |states|
    ensures states[i].log <= states[j].log
    decreases j
  {
    if i < j {
      LogIsHistory(persistent, states, actions, i, j - 1);
    }
  }

  lemma FileStep(s: State, a: Action)
    requires Inv(s) && Possible(s, a) && s.file.Some?
    ensures Apply(s, a).file.Some? && s.file.value.version <= Apply(s, a).file.value.version
  {
    if a.Writes? {
      assert ThreadOk(s, a.tid);
    }
  }

  lemma {:induction false} FileVersionsRise(persistent: bool, states: seq<State>, actions: seq<Action>, i: nat, j: nat)
    requires IsRun(persistent, states, actions) && i <= j < |states| && states[i].file.Some?
    ensures states[j].file.Some? && states[i].file.value.version <= states[j].file.value.version
    decreases j
  {
    if i < j {
      FileVersionsRise(persistent, states, actions, i, j - 1);
      RunInv(persistent, states, actions, j - 1);
      FileStep(states[j - 1], actions[j - 1]);
    }
  }

  /**
   At any two moments of a run the later file is at least as new: both contents are versions of the one
   history of memory, and the later version is no smaller.
   */
  lemma FileNeverGoesBack(persistent: bool, states: seq<State>, actions: seq<Action>, i: nat, j: nat)
    requires IsRun(persistent, states, actions) && i <= j < |states| && states[i].file.Some?
    ensures states[j].file.Some?
    ensures var before, after, log := states[i].file.value, states[j].file.value, states[j].log;
      && before.version <= after.version < |log|
      && before.snapshot == Capture(log[before.version]) && after.snapshot == Capture(log[after.version])
  {
    FileVersionsRise(persistent, states, actions, i, j);
    LogIsHistory(persistent, states, actions, i, j);
    RunInv(persistent, states, actions, i);
    RunInv(persistent, states, actions, j);
  }

  /** When an update or delete returns without error the file holds its change or something newer. */
  lemma ReturnedMeansWritten(persistent: bool, states: seq<State>, actions: seq<Action>, i: nat, t: nat)
    requires IsRun(persistent, states, actions) && i < |states| && persistent
    requires t in states[i].threads && states[i].threads[t].Done? && states[i].threads[t].ok
    ensures var s := states[i];
      && s.file.Some? && s.threads[t].own <= s.file.value.version < |s.log|
      && s.file.value.snapshot == Capture(s.log[s.file.value.version])
  {
    RunInv(persistent, states, actions, i);
    assert ThreadOk(states[i], t);
  }

  lemma OwnStep(s: State, a: Action, t: nat)
    requires Possible(s, a) && t in Apply(s, a).threads
    requires s.log != [] && s.servers == s.log[Version(s)]
    ensures var s' := Apply(s, a);
      && s.log <= s'.log
      && (if a.Starts? && a.tid == t
          then s'.threads[t].own == |s.log| && s'.log == s.log + [Changed(s.log[|s.log| - 1], a.op)]
          else t in s.threads && s'.threads[t].own == s.threads[t].own)
  {
  }

  /** The version a thread owns is the memory right after its own operation. */
  lemma {:induction false} OwnVersion(persistent: bool, states: seq<State>, actions: seq<Action>, i: nat, t: nat) returns (k: nat)
    requires IsRun(persistent, states, actions) && i < |states| && t in states[i].threads
    ensures k < i && actions[k].Starts? && actions[k].tid == t
    ensures var own := states[i].threads[t].own;
      0 < own < |states[i].log| && states[i].log[own] == Changed(states[i].log[own - 1], actions[k].op)
  {
    if i == 0 {
      assert false;
    } else {
      MemoryIsNewest(persistent, states, actions, i - 1);
      var a := actions[i - 1];
      OwnStep(states[i - 1], a, t);
      if a.Starts? && a.tid == t {
        k := i - 1;
      } else {
        k := OwnVersion(persistent, states, actions, i - 1, t);
      }
    }
  }

  lemma MemoryIsNewest(persistent: bool, states: seq<State>, actions: seq<Action>, i: nat)
    requires IsRun(persistent, states, actions) && i < |states|
    ensures states[i].log != [] && states[i].servers == states[i].log[Version(states[i])]
  {
    RunInv(persistent, states, actions, i);
  }

  /**
   When nothing is in flight the last write attempt had the newest memory; if it succeeded the file
   equals memory, however many threads there were and whatever failed before.
   */
  lemma QuietFileEqualsMemory(persistent: bool, states: seq<State>, actions: seq<Action>, i: nat)
    requires IsRun(persistent, states, actions) && i < |states| && persistent
    requires forall t | t in states[i].threads :: !InFlight(states[i].threads[t])
    ensures LastVersion(states[i]) == Version(states[i])
    ensures states[i].last.Some? && states[i].last.value.ok ==>
      states[i].file == Some(File(Version(states[i]), Capture(states[i].servers)))
  {
    RunInv(persistent, states, actions, i);
  }

  // ----- What an operation leaves in the file -----

  /** Another operation on the same server that asks for something else. */
  predicate Undoes(later: Operation, op: Operation) {
    later.server == op.server && later != op
  }

  ghost predicate Stands(actions: seq<Action>, k: nat, i: nat, op: Operation) {
    forall j | k < j < i && j < |actions| && actions[j].Starts? :: !Undoes(actions[j].op, op)
  }

  lemma ShowsKept(servers: Servers, op: Operation, later: Operation)
    requires Shows(servers, op) && !Undoes(later, op)
    ensures Shows(Changed(servers, later), op)
  {
  }

  /** Every version of memory from the one that the operation made shows it. */
  lemma {:induction false} EffectLasts(persistent: bool, states: seq<State>, actions: seq<Action>, k: nat, i: nat)
    requires IsRun(persistent, states, actions) && k < i < |states| && actions[k].Starts?
    requires Stands(actions, k, i, actions[k].op)
    ensures |states[k].log| < |states[i].log|
    ensures forall v | |states[k].log| <= v < |states[i].log| :: Shows(states[i].log[v], actions[k].op)
    decreases i
  {
    MemoryIsNewest(persistent, states, actions, i - 1);
    if i - 1 > k {
      EffectLasts(persistent, states, actions, k, i - 1);
      var a := actions[i - 1];
      if a.Starts? {
        ShowsKept(states[i - 1].servers, actions[k].op, a.op);
      }
    }
  }

  /** A thread keeps the version that its own change produced. */
  lemma {:induction false} OwnIsItsStart(persistent: bool, states: seq<State>, actions: seq<Action>, k: nat, i: nat)
    requires IsRun(persistent, states, actions) && k < i < |states| && actions[k].Starts?
    ensures actions[k].tid in states[i].threads && states[i].threads[actions[k].tid].own == |states[k].log|
    decreases i
  {
    if i - 1 > k {
      OwnIsItsStart(persistent, states, actions, k, i - 1);
    }
  }

  /**
   Once an update or delete has returned without error and no later operation asked for something else on
   its server, the file shows it: a put server is there with that status, a removed one is not.
   */
  lemma FileShowsOperation(persistent: bool, states: seq<State>, actions: seq<Action>, k: nat, i: nat)
    requires IsRun(persistent, states, actions) && k < i < |states| && persistent && actions[k].Starts?
    requires var t := actions[k].tid; t in states[i].threads && states[i].threads[t].Done? && states[i].threads[t].ok
    requires forall j | k < j < i && actions[j].Starts? ::
      actions[j].op.server != actions[k].op.server || actions[j].op == actions[k].op
    ensures states[i].file.Some?
    ensures var saved := states[i].file.value.snapshot.servers;
      match actions[k].op
      case Put(id, status) => id in saved && saved[id] == status
      case Remove(id) => id !in saved
  {
    OwnIsItsStart(persistent, states, actions, k, i);
    ReturnedMeansWritten(persistent, states, actions, i, actions[k].tid);
    EffectLasts(persistent, states, actions, k, i);
    assert Shows(states[i].log[states[i].file.value.version], actions[k].op);
  }
}
