/** The poller's workers and schedule controls across configuration changes. */
module PollerWorkers {
  import opened Basics
  import opened ExporterConfig

  class Control {
    var auto: bool

    constructor ()
      ensures auto
    {
      auto := true;
    }
  }

  /** A worker's fields at one moment. */
  datatype View = Fields(server: Server, updates: Option<Server>, cancelled: bool, done: bool)

  /** A server is wanted when the new configuration holds it enabled. */
  predicate Stays(after: map<string, Server>, id: string) {
    id in after && after[id].enabled
  }

  /** What a change of configuration means for one running worker. */
  function Reconciled(v: View, id: string, before: map<string, Server>, after: map<string, Server>): View {
    if !Stays(after, id) then v.(cancelled := true)
    else if id in before && before[id] == after[id] then v
    else v.(updates := Some(after[id]))
  }

  /** The same once ApplyConfig has waited for the cancelled goroutines. */
  function Settled(v: View, id: string, before: map<string, Server>, after: map<string, Server>): View {
    if Stays(after, id) then Reconciled(v, id, before, after) else v.(cancelled := true, done := true)
  }

  /** A collection goroutine with its channel of capacity one; it runs until `done`. */
  class Worker {
    const id: string
    const control: Control
    var server: Server
    var updates: Option<Server>
    var cancelled: bool
    var done: bool

    constructor (server: Server, control: Control)
      ensures id == server.id && this.control == control && this.server == server
      ensures updates == None && !cancelled && !done
    {
      id, this.control, this.server := server.id, control, server;
      updates, cancelled, done := None, false, false;
    }

    /** The configuration the worker will be using once it has read its channel. */
    function Latest(): Server
      reads this
    {
      if updates.Some? then updates.value else server
    }

    function View(): View
      reads this
    {
      Fields(server, updates, cancelled, done)
    }

    /** queueServerUpdate with nothing in between; UpdateChannel interleaves its operations with the worker's. */
    method Queue(changed: Server)
      modifies this`updates
      ensures updates == Some(changed) && Latest() == changed
    {
      if updates.None? {
        updates := Some(changed);
        return;
      }
      if updates.Some? {
        updates := None;
      }
      assert updates.None?;
      updates := Some(changed);
    }

    /** The receive in runServer. */
    method TakeUpdate()
      requires updates.Some?
      modifies this`updates, this`server
      ensures updates == None && server == old(updates.value) && Latest() == old(Latest())
    {
      server := updates.value;
      updates := None;
    }
  }

  function Ids(servers: seq<Server>): set<string> {
    set i | 0 <= i < |servers| :: servers[i].id
  }

  function EnabledIds(servers: seq<Server>): set<string> {
    set i | 0 <= i < |servers| && servers[i].enabled :: servers[i].id
  }

  /** The servers by ID, a later entry replacing an earlier one. */
  function ById(servers: seq<Server>): map<string, Server> {
    if servers == [] then map[]
    else ById(servers[..|servers| - 1])[servers[|servers| - 1].id := servers[|servers| - 1]]
  }

  lemma {:induction false} ByIdKeys(servers: seq<Server>)
    ensures ById(servers).Keys == Ids(servers)
  {
    if servers != [] {
      var n := |servers| - 1;
      ByIdKeys(servers[..n]);
      assert Ids(servers) == Ids(servers[..n]) + {servers[n].id} by {
        assert forall i | 0 <= i < n :: servers[..n][i] == servers[i];
      }
    }
  }

  lemma {:induction false} ByIdAt(servers: seq<Server>, i: nat)
    requires UniqueIds(servers) && i < |servers|
    ensures servers[i].id in ById(servers) && ById(servers)[servers[i].id] == servers[i]
  {
    var n := |servers| - 1;
    if i < n {
      ByIdAt(servers[..n], i);
    }
  }

  method IndexById(servers: seq<Server>) returns (m: map<string, Server>)
    ensures m == ById(servers)
  {
    m := map[];
    for i := 0 to |servers|
      invariant m == ById(servers[..i])
    {
      assert servers[..i + 1][..i] == servers[..i];
      m := m[servers[i].id := servers[i]];
    }
    assert servers[..|servers|] == servers;
  }

  lemma EntryOf(servers: seq<Server>, s: Server)
    requires UniqueIds(servers) && s in servers
    ensures s.id in ById(servers) && ById(servers)[s.id] == s
  {
    var i :| 0 <= i < |servers| && servers[i] == s;
    ByIdAt(servers, i);
  }

  lemma {:induction false} ByIdEntry(servers: seq<Server>, id: string)
    requires id in ById(servers)
    ensures ById(servers)[id] in servers && ById(servers)[id].id == id
  {
    var n := |servers| - 1;
    if servers[n].id != id {
      ByIdEntry(servers[..n], id);
    }
  }

  /**
   What a new configuration does to a running worker: its server listed and enabled as before, it is left
   alone; listed and enabled but changed, it is sent that server; otherwise it is cancelled and has returned.
   */
  ghost predicate AsConfigured(was: View, now: View, id: string, before: seq<Server>, after: seq<Server>) {
    && (forall s | s in after && s.id == id && s.enabled :: now == if s in before then was else was.(updates := Some(s)))
    && ((forall s | s in after && s.id == id :: !s.enabled) ==> now == was.(cancelled := true, done := true))
  }

  lemma SettledAsConfigured(v: View, id: string, before: seq<Server>, after: seq<Server>)
    requires UniqueIds(before) && UniqueIds(after)
    ensures AsConfigured(v, Settled(v, id, ById(before), ById(after)), id, before, after)
  {
    forall s | s in after && s.id == id && s.enabled
      ensures Settled(v, id, ById(before), ById(after)) == if s in before then v else v.(updates := Some(s))
    {
      EntryOf(after, s);
      if s in before {
        EntryOf(before, s);
      } else if id in ById(before) {
        ByIdEntry(before, id);
      }
    }
    if id in ById(after) {
      ByIdEntry(after, id);
    }
  }

  lemma StaysEnabled(servers: seq<Server>, id: string)
    requires UniqueIds(servers)
    ensures Stays(ById(servers), id) <==> id in EnabledIds(servers)
  {
    ByIdKeys(servers);
    if id in ById(servers) {
      var i :| 0 <= i < |servers| && servers[i].id == id;
      ByIdAt(servers, i);
    }
  }

  lemma EnabledSnoc(servers: seq<Server>, i: nat)
    requires i < |servers|
    ensures EnabledIds(servers[..i + 1]) == EnabledIds(servers[..i]) + if servers[i].enabled then {servers[i].id} else {}
  {
    assert forall j | 0 <= j < i :: servers[..i + 1][j] == servers[..i][j];
    assert servers[..i + 1][i] == servers[i];
  }

  class Poller {
    var config: seq<Server>
    var controls: map<string, Control>
    var workers: map<string, Worker>
    var started: bool
    var contextLive: bool
    ghost var spawned: set<Worker>

    /** The map holds workers that were not cancelled, each under its own ID. */
    ghost predicate Registered()
      reads this, spawned
    {
      forall id | id in workers :: workers[id] in spawned && workers[id].id == id && !workers[id].cancelled
    }

    /** The map holds exactly the workers that were never cancelled, each under its own ID. */
    ghost predicate WorkersOk()
      reads this, spawned
    {
      && Registered()
      && forall w | w in spawned && !w.cancelled :: w.id in workers && workers[w.id] == w
    }

    /** Every cancelled goroutine has returned. */
    ghost predicate AllExited()
      reads this, spawned
    {
      forall w | w in spawned && w.cancelled :: w.done
    }

    ghost predicate Valid()
      reads this, spawned
    {
      && WorkersOk() && AllExited()
      && UniqueIds(config)
      && controls.Keys == Ids(config)
      && (!started ==> spawned == {})
      && (started && contextLive ==>
            workers.Keys == EnabledIds(config) && Current(workers, ById(config), controls))
    }

    /** Every worker runs for an enabled server, has its ID's control and is up to date with its ID's server. */
    static ghost predicate Current(running: map<string, Worker>, servers: map<string, Server>, table: map<string, Control>)
      reads running.Values
    {
      forall id | id in running ::
        && id in table && running[id].control == table[id]
        && Stays(servers, id) && running[id].Latest() == servers[id] && !running[id].done
    }

    constructor (cfg: Exporter)
      requires UniqueIds(cfg.servers)
      ensures Valid() && config == cfg.servers && !started && contextLive
      ensures forall id | id in controls :: controls[id].auto
    {
      config := cfg.servers;
      workers, started, contextLive, spawned := map[], false, true, {};
      controls := map[];
      new;
      var made := KeepControls(cfg.servers);
      controls := made;
    }

    /** The loop of ApplyConfig that carries controls over by ID and makes the missing ones. */
    method KeepControls(servers: seq<Server>) returns (kept: map<string, Control>)
      ensures kept.Keys == Ids(servers)
      ensures forall id | id in kept :: if id in controls then kept[id] == controls[id] else fresh(kept[id]) && kept[id].auto
    {
      kept := map[];
      for i := 0 to |servers|
        invariant kept.Keys == Ids(servers[..i])
        invariant forall id | id in kept :: if id in controls then kept[id] == controls[id] else fresh(kept[id]) && kept[id].auto
      {
        var id := servers[i].id;
        assert Ids(servers[..i + 1]) == Ids(servers[..i]) + {id} by {
          assert forall j | 0 <= j < i :: servers[..i + 1][j] == servers[..i][j];
          assert servers[..i + 1][i].id == id;
        }
        var control: Control;
        if id in controls {
          control := controls[id];
        } else {
          control := new Control();
        }
        kept := kept[id := control];
      }
      assert servers[..|servers|] == servers;
    }

    method StartServer(server: Server, control: Control)
      requires WorkersOk() && server.id !in workers
      modifies this`workers, this`spawned
      ensures WorkersOk() && server.id in workers && workers == old(workers)[server.id := workers[server.id]]
      ensures fresh(workers[server.id]) && spawned == old(spawned) + {workers[server.id]}
      ensures workers[server.id].control == control
      ensures workers[server.id].server == server && workers[server.id].updates == None
      ensures !workers[server.id].done && !workers[server.id].cancelled
    {
      var worker := new Worker(server, control);
      workers := workers[server.id := worker];
      spawned := spawned + {worker};
    }

    /** The workers outside `before` are new, have their ID's control and were made for their entry of `servers`. */
    ghost predicate NewWorkers(before: map<string, Worker>, spawnedBefore: set<Worker>, servers: seq<Server>)
      reads this, spawned
      requires Registered()
    {
      && spawnedBefore <= spawned && (forall w | w in spawned - spawnedBefore :: !w.cancelled)
      && (forall id | id in before :: id in workers && workers[id] == before[id])
      && forall id | id in workers && id !in before ::
        && workers[id] !in spawnedBefore
        && id in controls && workers[id].control == controls[id]
        && workers[id].updates == None && !workers[id].done
        && workers[id].server in servers && workers[id].server.id == id
    }

    /** One turn of the loop that starts missing workers. */
    method StartTurn(ghost before: map<string, Worker>, ghost spawnedBefore: set<Worker>, servers: seq<Server>, i: nat)
      requires WorkersOk() && Ids(servers) <= controls.Keys && i < |servers| && NewWorkers(before, spawnedBefore, servers)
      requires workers.Keys == before.Keys + EnabledIds(servers[..i])
      modifies this`workers, this`spawned
      ensures WorkersOk() && NewWorkers(before, spawnedBefore, servers) && fresh(spawned - old(spawned))
      ensures workers.Keys == before.Keys + EnabledIds(servers[..i + 1])
    {
      EnabledSnoc(servers, i);
      if servers[i].enabled && servers[i].id !in workers {
        assert servers[i].id in Ids(servers);
        StartServer(servers[i], controls[servers[i].id]);
      }
    }

    /** Starts a worker for each enabled server that has none. */
    method StartLoop(servers: seq<Server>)
      requires WorkersOk() && Ids(servers) <= controls.Keys
      modifies this`workers, this`spawned
      ensures WorkersOk() && fresh(spawned - old(spawned))
      ensures workers.Keys == old(workers.Keys) + EnabledIds(servers)
      ensures NewWorkers(old(workers), old(spawned), servers)
    {
      for i := 0 to |servers|
        invariant WorkersOk() && fresh(spawned - old(spawned))
        invariant workers.Keys == old(workers.Keys) + EnabledIds(servers[..i])
        invariant NewWorkers(old(workers), old(spawned), servers)
      {
        StartTurn(old(workers), old(spawned), servers, i);
      }
      assert servers[..|servers|] == servers;
    }

    /** Old workers that are up to date and new ones together are up to date. */
    method StartMissing(servers: seq<Server>)
      requires WorkersOk() && Ids(servers) <= controls.Keys && UniqueIds(servers)
      requires Current(workers, ById(servers), controls)
      modifies this`workers, this`spawned
      ensures WorkersOk() && old(spawned) <= spawned && fresh(spawned - old(spawned))
      ensures forall w | w in spawned - old(spawned) :: !w.cancelled
      ensures workers.Keys == EnabledIds(servers) && Current(workers, ById(servers), controls)
      ensures forall id | id in workers :: if id in old(workers) then workers[id] == old(workers)[id] else fresh(workers[id])
    {
      assert workers.Keys <= EnabledIds(servers) by {
        forall id | id in workers ensures id in EnabledIds(servers) {
          StaysEnabled(servers, id);
        }
      }
      StartLoop(servers);
      forall id | id in workers && id !in old(workers)
        ensures Stays(ById(servers), id) && ById(servers)[id] == workers[id].server
      {
        EntryOf(servers, workers[id].server);
        StaysEnabled(servers, id);
      }
    }

    method Start()
      requires Valid()
      modifies this
      ensures Valid() && started && config == old(config) && controls == old(controls) && contextLive == old(contextLive)
      ensures old(started) ==> workers == old(workers) && spawned == old(spawned)
      ensures !old(started) ==> workers.Keys == EnabledIds(config) && Current(workers, ById(config), controls)
    {
      if started {
        return;
      }
      started := true;
      StartMissing(config);
    }

    /** One turn of the loop over the running workers: cancel it, send it its new configuration, or leave it. */
    method ReconcileOne(id: string, before: map<string, Server>, after: map<string, Server>, retired: seq<Worker>)
      returns (retired': seq<Worker>)
      requires id in workers
      modifies this`workers, workers[id]
      ensures old(workers[id]).View() == Reconciled(old(workers[id].View()), id, before, after)
      ensures workers == if Stays(after, id) then old(workers) else old(workers) - {id}
      ensures retired' == if Stays(after, id) then retired else retired + [old(workers[id])]
    {
      var worker := workers[id];
      retired' := retired;
      if !Stays(after, id) {
        workers := workers - {id};
        worker.cancelled := true;
        retired' := retired + [worker];
      } else if !(id in before && before[id] == after[id]) {
        worker.Queue(after[id]);
      }
    }

    /** The map while the loop over `all` still has `left` before it. */
    ghost predicate Remaining(all: map<string, Worker>, left: set<string>, after: map<string, Server>)
      reads this
    {
      && left <= all.Keys
      && (forall id :: id in workers <==> id in all && (id in left || Stays(after, id)))
      && forall id | id in workers :: workers[id] == all[id]
    }

    static ghost function Views(all: map<string, Worker>): map<string, View>
      reads all.Values
    {
      map id | id in all :: all[id].View()
    }

    /** The workers while the loop still has `left` before it. */
    static ghost predicate Turned(all: map<string, Worker>, left: set<string>, was: map<string, View>,
                                  before: map<string, Server>, after: map<string, Server>)
      reads all.Values
    {
      forall id | id in all ::
        id in was && all[id].View() == if id in left then was[id] else Reconciled(was[id], id, before, after)
    }

    /** The workers that the loop over `all` retires, once `left` are still before it. */
    static ghost predicate Retires(all: map<string, Worker>, left: set<string>, after: map<string, Server>,
                                   retired: seq<Worker>) {
      && (forall w | w in retired :: exists id :: id in all && !Stays(after, id) && all[id] == w)
      && forall id | id in all && id !in left && !Stays(after, id) :: all[id] in retired
    }

    static lemma RetiresOne(all: map<string, Worker>, left: set<string>, id: string, after: map<string, Server>,
                            retired: seq<Worker>, retired': seq<Worker>)
      requires id in all && id in left && Retires(all, left, after, retired)
      requires retired' == if Stays(after, id) then retired else retired + [all[id]]
      ensures Retires(all, left - {id}, after, retired')
    {
      forall w | w in retired' ensures exists i :: i in all && !Stays(after, i) && all[i] == w {
        if w !in retired {
          assert id in all && !Stays(after, id) && all[id] == w;
        }
      }
    }

    method ReconcileTurn(ghost all: map<string, Worker>, ghost was: map<string, View>, ghost left: set<string>, id: string,
                         before: map<string, Server>, after: map<string, Server>, retired: seq<Worker>)
      returns (retired': seq<Worker>)
      requires forall i | i in all :: all[i].id == i
      requires id in left && Remaining(all, left, after) && Turned(all, left, was, before, after)
      requires Retires(all, left, after, retired)
      modifies this`workers, all[id]
      ensures Remaining(all, left - {id}, after) && Turned(all, left - {id}, was, before, after)
      ensures Retires(all, left - {id}, after, retired')
    {
      retired' := ReconcileOne(id, before, after, retired);
      RetiresOne(all, left, id, after, retired, retired');
    }

    /**
     The loop over the running workers: cancel those no longer wanted, queue an update for the changed ones.
     Workers outside the map are not touched.
     */
    method ReconcileLoop(before: map<string, Server>, after: map<string, Server>) returns (retired: seq<Worker>)
      requires Registered()
      modifies this`workers, workers.Values
      ensures Remaining(old(workers), {}, after)
      ensures Turned(old(workers), {}, old(Views(workers)), before, after)
      ensures Retires(old(workers), {}, after, retired)
    {
      ghost var all, was := workers, Views(workers);
      retired := [];
      var left := workers.Keys;
      while left != {}
        invariant left <= all.Keys && Remaining(all, left, after)
        invariant Turned(all, left, was, before, after)
        invariant Retires(all, left, after, retired)
        decreases |left|
      {
        var id :| id in left;
        retired := ReconcileTurn(all, was, left, id, before, after, retired);
        left := left - {id};
      }
    }

    /** `all` are the workers of the map before the loop, with their fields; every other worker is cancelled. */
    ghost predicate WereRunning(all: map<string, Worker>, was: map<string, View>, before: map<string, Server>)
      reads this, spawned
    {
      && (forall w | w in spawned :: w.cancelled || (w.id in all && all[w.id] == w))
      && forall id | id in all ::
        && all[id] in spawned && all[id].id == id
        && (id in controls ==> all[id].control == controls[id])
        && id in was && !was[id].cancelled && !was[id].done
        && id in before && before[id] == if was[id].updates.Some? then was[id].updates.value else was[id].server
    }

    lemma RemainingOk(all: map<string, Worker>, was: map<string, View>, before: map<string, Server>, after: map<string, Server>)
      requires WereRunning(all, was, before) && Remaining(all, {}, after) && Turned(all, {}, was, before, after)
      requires after.Keys <= controls.Keys
      ensures WorkersOk() && Current(workers, after, controls)
    {
      assert forall id | id in all :: all[id].View() == Reconciled(was[id], id, before, after);
    }

    /** After the loop exactly the workers left in the map are not cancelled, and they are up to date. */
    method ReconcileRunning(before: map<string, Server>, after: map<string, Server>) returns (retired: seq<Worker>)
      requires WorkersOk() && after.Keys <= controls.Keys
      requires forall id | id in workers :: id in before && workers[id].Latest() == before[id] && !workers[id].done
      requires forall id | id in workers && id in controls :: workers[id].control == controls[id]
      modifies this`workers, workers.Values
      ensures WorkersOk() && Current(workers, after, controls)
      ensures Remaining(old(workers), {}, after)
      ensures Turned(old(workers), {}, old(Views(workers)), before, after)
      ensures Retires(old(workers), {}, after, retired)
    {
      ghost var all, was := workers, Views(workers);
      assert WereRunning(all, was, before);
      retired := ReconcileLoop(before, after);
      assert WereRunning(all, was, before);
      RemainingOk(all, was, before, after);
    }

    /** The waits at the end of ApplyConfig: each cancelled goroutine returns and closes `done`. */
    static method AwaitExits(retired: seq<Worker>)
      requires forall w | w in retired :: w.cancelled
      modifies (set w | w in retired)`done
      ensures forall w | w in retired :: w.done
      ensures forall w: Worker | allocated(w) && old(allocated(w)) && w !in retired :: w.done == old(w.done)
    {
      for i := 0 to |retired|
        invariant forall w | w in retired[..i] :: w.done
      {
        assert retired[..i + 1] == retired[..i] + [retired[i]];
        retired[i].done := true;
      }
      assert retired[..|retired|] == retired;
    }

    /** The first half of the part under the lock. */
    method KeepWanted(oldServers: map<string, Server>, servers: seq<Server>) returns (retired: seq<Worker>)
      requires WorkersOk() && UniqueIds(servers) && Ids(servers) <= controls.Keys
      requires forall id | id in workers :: id in oldServers && workers[id].Latest() == oldServers[id] && !workers[id].done
      requires forall id | id in workers && id in controls :: workers[id].control == controls[id]
      modifies this`workers, workers.Values
      ensures WorkersOk() && Current(workers, ById(servers), controls)
      ensures Remaining(old(workers), {}, ById(servers))
      ensures Turned(old(workers), {}, old(Views(workers)), oldServers, ById(servers))
      ensures Retires(old(workers), {}, ById(servers), retired)
    {
      var newServers := IndexById(servers);
      ByIdKeys(servers);
      retired := ReconcileRunning(oldServers, newServers);
    }

    /** While retired goroutines still run, no worker of the map has the ID of one of them. */
    lemma RetiredApart(all: map<string, Worker>, after: map<string, Server>, retired: seq<Worker>)
      requires (forall id | id in all :: all[id].id == id) && Retires(all, {}, after, retired)
      requires Current(workers, after, controls)
      ensures forall w | w in retired :: w.id !in workers
    {
      forall w | w in retired ensures w.id !in workers {
        var id :| id in all && !Stays(after, id) && all[id] == w;
      }
    }

    /** The part of ApplyConfig between its early return and its unlock. */
    method Reconcile(oldServers: map<string, Server>, servers: seq<Server>) returns (retired: seq<Worker>)
      requires WorkersOk() && UniqueIds(servers) && Ids(servers) <= controls.Keys
      requires forall id | id in workers :: id in oldServers && workers[id].Latest() == oldServers[id] && !workers[id].done
      requires forall id | id in workers && id in controls :: workers[id].control == controls[id]
      modifies this`workers, this`spawned, workers.Values
      ensures WorkersOk() && old(spawned) <= spawned && fresh(spawned - old(spawned))
      ensures forall w | w in spawned - old(spawned) :: !w.cancelled
      ensures workers.Keys == EnabledIds(servers) && Current(workers, ById(servers), controls)
      ensures forall id | id in workers :: if id in old(workers) then workers[id] == old(workers)[id] else fresh(workers[id])
      ensures Turned(old(workers), {}, old(Views(workers)), oldServers, ById(servers))
      ensures Retires(old(workers), {}, ById(servers), retired) && forall w | w in retired :: w.id !in workers
    {
      retired := KeepWanted(oldServers, servers);
      StartMissing(servers);
      RetiredApart(old(workers), ById(servers), retired);
    }

    /** Everything after ApplyConfig's early return. */
    method ReconcileAndWait(oldServers: map<string, Server>, servers: seq<Server>)
      requires WorkersOk() && AllExited() && UniqueIds(servers) && Ids(servers) <= controls.Keys
      requires forall id | id in workers :: id in oldServers && workers[id].Latest() == oldServers[id] && !workers[id].done
      requires forall id | id in workers && id in controls :: workers[id].control == controls[id]
      modifies this`workers, this`spawned, workers.Values
      ensures WorkersOk() && AllExited() && fresh(spawned - old(spawned))
      ensures workers.Keys == EnabledIds(servers) && Current(workers, ById(servers), controls)
      ensures forall id | id in workers :: if id in old(workers) then workers[id] == old(workers)[id] else fresh(workers[id])
      ensures forall id | id in old(workers) ::
        old(workers)[id].View() == Settled(old(workers[id].View()), id, oldServers, ById(servers))
    {
      ghost var all, was, before := workers, Views(workers), spawned;
      var retired := Reconcile(oldServers, servers);
      forall w | w in retired ensures w in all.Values && w.cancelled {
        var id :| id in all && !Stays(ById(servers), id) && all[id] == w;
      }
      forall w | w in before && w.cancelled ensures w.done || w in retired {
        assert old(w.cancelled) || (w.id in all && all[w.id] == w);
      }
      AwaitExits(retired);
      forall id | id in all ensures all[id].View() == Settled(was[id], id, oldServers, ById(servers)) {
        assert all[id].cancelled == !Stays(ById(servers), id);
      }
    }

    /** The same in terms of the two configurations. */
    method ReconcileConfigured(ghost before: seq<Server>, oldServers: map<string, Server>, servers: seq<Server>)
      requires WorkersOk() && AllExited() && UniqueIds(servers) && Ids(servers) <= controls.Keys
      requires UniqueIds(before) && oldServers == ById(before)
      requires forall id | id in workers :: id in oldServers && workers[id].Latest() == oldServers[id] && !workers[id].done
      requires forall id | id in workers && id in controls :: workers[id].control == controls[id]
      modifies this`workers, this`spawned, workers.Values
      ensures WorkersOk() && AllExited() && fresh(spawned - old(spawned))
      ensures workers.Keys == EnabledIds(servers) && Current(workers, ById(servers), controls)
      ensures forall id | id in workers :: if id in old(workers) then workers[id] == old(workers)[id] else fresh(workers[id])
      ensures forall id | id in old(workers) ::
        AsConfigured(old(workers[id].View()), old(workers)[id].View(), id, before, servers)
    {
      ghost var all, was := workers, Views(workers);
      ReconcileAndWait(oldServers, servers);
      forall id | id in all ensures AsConfigured(was[id], all[id].View(), id, before, servers) {
        SettledAsConfigured(was[id], id, before, servers);
      }
    }

    /** Makes the new configuration and its controls visible. */
    method Install(servers: seq<Server>)
      modifies this`config, this`controls
      ensures config == servers && controls.Keys == Ids(servers)
      ensures forall id | id in controls ::
        if id in old(controls) then controls[id] == old(controls)[id] else fresh(controls[id]) && controls[id].auto
    {
      var kept := KeepControls(servers);
      config := servers;
      controls := kept;
    }

    /**
     ApplyConfig. With a started poller and a live context the workers end up being those of the enabled
     servers: wanted workers stay the same objects, the others are cancelled and have returned, missing ones
     are started.
     */
    method ApplyConfig(cfg: Exporter)
      requires Valid() && UniqueIds(cfg.servers)
      modifies this, spawned
      ensures Valid() && config == cfg.servers
      ensures started == old(started) && contextLive == old(contextLive) && fresh(spawned - old(spawned))
      ensures forall id | id in controls ::
        if id in old(controls) then controls[id] == old(controls)[id] else fresh(controls[id]) && controls[id].auto
      ensures !(started && contextLive) ==> workers == old(workers)
      ensures !(started && contextLive) ==> forall w | w in old(spawned) :: unchanged(w)
      ensures started && contextLive ==>
        forall id | id in old(workers) ::
          AsConfigured(old(workers[id].View()), old(workers)[id].View(), id, old(config), cfg.servers)
      ensures started && contextLive ==>
        forall id | id in workers :: if id in old(workers) then workers[id] == old(workers)[id] else fresh(workers[id])
    {
      var oldServers := IndexById(config);
      Install(cfg.servers);
      if !started || !contextLive {
        return;
      }
      ReconcileConfigured(old(config), oldServers, cfg.servers);
    }

    /** Any worker may read its channel at any time. */
    method WorkerReads(worker: Worker)
      requires Valid() && worker in spawned && worker.updates.Some?
      modifies worker
      ensures Valid() && worker.updates == None && worker.server == old(worker.updates.value)
    {
      worker.TakeUpdate();
    }

    /** A goroutine returns when its context, which ends with the poller's, has ended. */
    method WorkerReturns(worker: Worker)
      requires Valid() && worker in spawned && (worker.cancelled || !contextLive)
      modifies worker`done
      ensures Valid() && worker.done
    {
      worker.done := true;
    }

    method EndContext()
      requires Valid()
      modifies this`contextLive
      ensures Valid() && !contextLive
    {
      contextLive := false;
    }
  }

  /** The goroutines that have not returned. */
  ghost function Live(spawned: set<Worker>): set<Worker>
    reads spawned
  {
    set w | w in spawned && !w.done
  }

  lemma {:induction false} OneEach(ids: set<string>, live: set<Worker>)
    requires forall w | w in live :: w.id in ids
    requires forall id | id in ids :: exists w :: w in live && w.id == id
    requires forall v, w | v in live && w in live && v.id == w.id :: v == w
    ensures |live| == |ids|
    decreases |ids|
  {
    if ids == {} {
      assert live == {};
    } else {
      var id :| id in ids;
      var w :| w in live && w.id == id;
      OneEach(ids - {id}, live - {w});
    }
  }

  /** No server ID has two running workers, and with a live context exactly one runs for each enabled server. */
  lemma OneLiveWorkerEach(p: Poller)
    requires p.Valid()
    ensures forall v, w | v in Live(p.spawned) && w in Live(p.spawned) && v.id == w.id :: v == w
    ensures p.started && p.contextLive ==> |Live(p.spawned)| == |EnabledIds(p.config)|
    ensures p.started && p.contextLive ==>
      forall id :: id in EnabledIds(p.config) <==> exists w :: w in Live(p.spawned) && w.id == id
    ensures forall id :: id in EnabledIds(p.config) <==> exists s :: s in p.config && s.enabled && s.id == id
  {
    if p.started && p.contextLive {
      forall id | id in EnabledIds(p.config) ensures exists w :: w in Live(p.spawned) && w.id == id {
        assert p.workers[id] in Live(p.spawned);
      }
      OneEach(EnabledIds(p.config), Live(p.spawned));
    }
  }
}
