/** Hot reload: a digest of the file decides whether it is parsed again. */
module HotReload {
  import opened Basics
  import opened ExporterConfig

  datatype ServerSummary = ServerSummary(id: string, name: string, address: string, enabled: bool, pollInterval: int)

  function Summarize(servers: seq<Server>): seq<ServerSummary> {
    seq(|servers|, i requires 0 <= i < |servers| =>
      ServerSummary(servers[i].id, servers[i].name, servers[i].address, servers[i].enabled, servers[i].pollInterval))
  }

  /** One entry for each server, in order, with what the configuration says of it. */
  ghost predicate Describes(summaries: seq<ServerSummary>, servers: seq<Server>) {
    && |summaries| == |servers|
    && forall i | 0 <= i < |servers| ::
         && summaries[i].id == servers[i].id && summaries[i].name == servers[i].name
         && summaries[i].address == servers[i].address && summaries[i].enabled == servers[i].enabled
         && summaries[i].pollInterval == servers[i].pollInterval
  }

  const NO_DIGEST := 0

  /** The parser, with validation, and the digest; both are arbitrary functions of the file content. */
  datatype Env = Env(parse: string -> Result<Exporter, string>, digest: string -> int)

  /** applied lists the configurations handed to the apply function; active is the one in force. */
  datatype State = State(
    seenHash: int,
    version: nat,
    lastError: string,
    servers: seq<ServerSummary>,
    ignoredNodes: map<string, seq<string>>,
    active: Exporter,
    applied: seq<Exporter>)

  function Started(env: Env, content: string, initial: Exporter): State {
    State(if env.parse(content) == Ok(initial) then env.digest(content) else NO_DIGEST,
          1, "", Summarize(initial.servers), initial.ignoredNodes, initial, [])
  }

  /** One scan; `read` is what reading the file gives. */
  function AfterScan(env: Env, s: State, read: Result<string, string>): State {
    match read
    case Err(e) => s.(lastError := "read config: " + e)
    case Ok(content) =>
      if env.digest(content) == s.seenHash then s
      else
        match env.parse(content)
        case Err(e) => s.(seenHash := env.digest(content), lastError := e)
        case Ok(cfg) =>
          State(env.digest(content), s.version + 1, "", Summarize(cfg.servers), cfg.ignoredNodes, cfg, s.applied + [cfg])
  }

  class HotReloader {
    const env: Env
    var seenHash: int
    var version: nat
    var lastError: string
    var servers: seq<ServerSummary>
    var ignoredNodes: map<string, seq<string>>
    var active: Exporter
    var applied: seq<Exporter>

    ghost function Value(): State
      reads this
    {
      State(seenHash, version, lastError, servers, ignoredNodes, active, applied)
    }

    /** NewHotReloader once the file could be read; a file that is not the running configuration is not seen. */
    constructor (env: Env, content: string, initial: Exporter)
      ensures this.env == env && Value() == Started(env, content, initial)
    {
      this.env := env;
      seenHash := if env.parse(content) == Ok(initial) then env.digest(content) else NO_DIGEST;
      version, lastError, active, applied := 1, "", initial, [];
      ignoredNodes := initial.ignoredNodes;
      servers := [];
      new;
      var summaries := SummarizeServers(initial);
      servers := summaries;
    }

    static method SummarizeServers(cfg: Exporter) returns (summaries: seq<ServerSummary>)
      ensures summaries == Summarize(cfg.servers)
    {
      summaries := [];
      for i := 0 to |cfg.servers|
        invariant |summaries| == i
        invariant summaries == Summarize(cfg.servers)[..i]
      {
        var s := cfg.servers[i];
        summaries := summaries + [ServerSummary(s.id, s.name, s.address, s.enabled, s.pollInterval)];
      }
    }

    method Scan(read: Result<string, string>)
      modifies this
      ensures Value() == AfterScan(env, old(Value()), read)
    {
      if read.Err? {
        Reject("read config: " + read.error, None);
        return;
      }
      var digest := env.digest(read.value);
      if digest == seenHash {
        return;
      }
      seenHash := digest;
      var parsed := env.parse(read.value);
      if parsed.Err? {
        Reject(parsed.error, Some(digest));
        return;
      }
      var cfg := parsed.value;
      active, applied := cfg, applied + [cfg];
      version := version + 1;
      lastError := "";
      ignoredNodes := cfg.ignoredNodes;
      var summaries := SummarizeServers(cfg);
      servers := summaries;
    }

    method Reject(error: string, digest: Option<int>)
      modifies this
      ensures Value() == old(Value()).(lastError := error, seenHash := if digest.Some? then digest.value else old(seenHash))
    {
      if digest.Some? {
        seenHash := digest.value;
      }
      lastError := error;
    }
  }

  // ----- Histories -----

  type History = seq<Result<string, string>>

  function Scans(env: Env, s: State, history: History): State {
    if history == [] then s else AfterScan(env, Scans(env, s, history[..|history| - 1]), history[|history| - 1])
  }

  /** What parsing the file at every read would leave in force. */
  function Reparse(env: Env, active: Exporter, history: History): Exporter {
    if history == [] then active
    else
      var before := Reparse(env, active, history[..|history| - 1]);
      match history[|history| - 1]
      case Err(_) => before
      case Ok(content) => if env.parse(content).Ok? then env.parse(content).value else before
  }

  ghost predicate FaithfulDigest(env: Env) {
    && (forall a, b :: env.digest(a) == env.digest(b) ==> a == b)
    && forall a :: env.digest(a) != NO_DIGEST
  }

  /** The content whose digest is remembered is in force, if it is valid. */
  ghost predicate Remembers(env: Env, s: State) {
    s.seenHash != NO_DIGEST ==>
      exists content :: env.digest(content) == s.seenHash && (env.parse(content).Ok? ==> env.parse(content).value == s.active)
  }

  lemma RemembersKept(env: Env, s: State, read: Result<string, string>)
    requires FaithfulDigest(env) && Remembers(env, s)
    ensures Remembers(env, AfterScan(env, s, read))
    ensures AfterScan(env, s, read).active == Reparse(env, s.active, [read])
  {
    assert Reparse(env, s.active, []) == s.active;
    assert [read][..0] == [];
    if read.Ok? {
      var content := read.value;
      var s' := AfterScan(env, s, read);
      if env.digest(content) == s.seenHash {
        var known :| env.digest(known) == s.seenHash && (env.parse(known).Ok? ==> env.parse(known).value == s.active);
        assert known == content;
      } else {
        assert env.digest(content) == s'.seenHash && (env.parse(content).Ok? ==> env.parse(content).value == s'.active);
      }
    }
  }

  /** For every history of good, bad, unreadable and reverted files, reloading agrees with parsing each time. */
  lemma {:induction false} AgreesWithReparsing(env: Env, content: string, initial: Exporter, history: History)
    requires FaithfulDigest(env)
    ensures Scans(env, Started(env, content, initial), history).active == Reparse(env, initial, history)
    ensures Remembers(env, Scans(env, Started(env, content, initial), history))
  {
    var s0 := Started(env, content, initial);
    if history == [] {
      assert s0.seenHash != NO_DIGEST ==>
        env.digest(content) == s0.seenHash && (env.parse(content).Ok? ==> env.parse(content).value == s0.active);
    } else {
      var n := |history| - 1;
      AgreesWithReparsing(env, content, initial, history[..n]);
      var s := Scans(env, s0, history[..n]);
      RemembersKept(env, s, history[n]);
      assert [history[n]][..0] == [];
      assert Reparse(env, s.active, []) == s.active;
    }
  }

  /** The published status always describes the configuration in force, and Version counts the reloads. */
  lemma {:induction false} StatusMatchesActive(env: Env, content: string, initial: Exporter, history: History)
    ensures var s := Scans(env, Started(env, content, initial), history);
      && s.version == 1 + |s.applied|
      && s.active == (if s.applied == [] then initial else s.applied[|s.applied| - 1])
      && s.servers == Summarize(s.active.servers)
      && Describes(s.servers, s.active.servers)
      && s.ignoredNodes == s.active.ignoredNodes
  {
    if history != [] {
      StatusMatchesActive(env, content, initial, history[..|history| - 1]);
    }
  }

  /** The content that the reloader takes as seen: the last one read, or at first the start file if it matched. */
  function LastSeen(env: Env, start: string, initial: Exporter, history: History): Option<string> {
    if history == [] then if env.parse(start) == Ok(initial) then Some(start) else None
    else
      match history[|history| - 1]
      case Ok(content) => Some(content)
      case Err(_) => LastSeen(env, start, initial, history[..|history| - 1])
  }

  /**
   What one more scan does after any history, in terms of the content last seen. A read error is reported and
   nothing else changes; content already seen changes nothing; unseen invalid content is reported with the
   parser's words and the configuration in force stays; unseen valid content comes into force with no error.
   */
  lemma ScanMeans(env: Env, start: string, initial: Exporter, history: History, read: Result<string, string>)
    requires FaithfulDigest(env)
    ensures var s0 := Started(env, start, initial);
      var s, s' := Scans(env, s0, history), Scans(env, s0, history + [read]);
      match read
      case Err(e) => s' == s.(lastError := "read config: " + e)
      case Ok(content) =>
        if LastSeen(env, start, initial, history) == Some(content) then s' == s
        else match env.parse(content)
          case Err(e) =>
            s'.lastError == e && s'.active == s.active && s'.applied == s.applied && s'.version == s.version
            && s'.servers == s.servers && s'.ignoredNodes == s.ignoredNodes
          case Ok(cfg) =>
            s'.lastError == "" && s'.active == cfg && s'.applied == s.applied + [cfg] && s'.version == s.version + 1
            && Describes(s'.servers, cfg.servers) && s'.ignoredNodes == cfg.ignoredNodes
  {
    assert (history + [read])[..|history|] == history;
    SeenIsLast(env, start, initial, history);
  }

  predicate FailsOrRepeats(read: Result<string, string>, content: string) {
    read.Err? || read.value == content
  }

  /** A read failed while the content was the last one seen, and only failures and the same content came since. */
  ghost predicate FailedSince(env: Env, start: string, initial: Exporter, history: History, content: string) {
    exists k :: 0 <= k < |history| && FailedAt(env, start, initial, history, content, k)
  }

  ghost predicate FailedAt(env: Env, start: string, initial: Exporter, history: History, content: string, k: nat)
    requires k < |history|
  {
    && history[k].Err? && LastSeen(env, start, initial, history[..k]) == Some(content)
    && forall j | k < j < |history| :: FailsOrRepeats(history[j], content)
  }

  /** One more read either is itself the failure or must leave an earlier one standing. */
  lemma FailedSinceSnoc(env: Env, start: string, initial: Exporter, history: History, content: string)
    requires history != []
    ensures var front, read := history[..|history| - 1], history[|history| - 1];
      FailedSince(env, start, initial, history, content) <==>
        || (read.Err? && LastSeen(env, start, initial, front) == Some(content))
        || (FailsOrRepeats(read, content) && FailedSince(env, start, initial, front, content))
  {
    var n := |history| - 1;
    var front, read := history[..n], history[n];
    if FailedSince(env, start, initial, history, content) {
      var k :| 0 <= k < |history| && FailedAt(env, start, initial, history, content, k);
      if k < n {
        assert front[..k] == history[..k];
        assert FailedAt(env, start, initial, front, content, k);
      }
    }
    if FailsOrRepeats(read, content) && FailedSince(env, start, initial, front, content) {
      var k :| 0 <= k < |front| && FailedAt(env, start, initial, front, content, k);
      assert front[..k] == history[..k];
      assert FailedAt(env, start, initial, history, content, k);
    }
    if read.Err? && LastSeen(env, start, initial, front) == Some(content) {
      assert FailedAt(env, start, initial, history, content, n);
    }
  }

  /** The remembered digest is that of the content last seen. */
  lemma {:induction false} SeenIsLast(env: Env, start: string, initial: Exporter, history: History)
    ensures Scans(env, Started(env, start, initial), history).seenHash ==
      match LastSeen(env, start, initial, history) { case Some(content) => env.digest(content) case None => NO_DIGEST }
  {
    if history != [] {
      SeenIsLast(env, start, initial, history[..|history| - 1]);
    }
  }

  /** While valid content is the last seen, an error stands exactly if a read failed since it was. */
  lemma {:induction false} ErrorOfSeen(env: Env, start: string, initial: Exporter, history: History, content: string)
    requires FaithfulDigest(env) && env.parse(content).Ok?
    requires LastSeen(env, start, initial, history) == Some(content)
    ensures Scans(env, Started(env, start, initial), history).lastError != "" <==>
      FailedSince(env, start, initial, history, content)
  {
    if history != [] {
      var n := |history| - 1;
      var front, read := history[..n], history[n];
      FailedSinceSnoc(env, start, initial, history, content);
      SeenIsLast(env, start, initial, front);
      if LastSeen(env, start, initial, front) == Some(content) {
        ErrorOfSeen(env, start, initial, front, content);
      } else {
        NotFailedSince(env, start, initial, front, content);
      }
    }
  }

  lemma {:induction false} NotFailedSince(env: Env, start: string, initial: Exporter, history: History, content: string)
    requires LastSeen(env, start, initial, history) != Some(content)
    ensures !FailedSince(env, start, initial, history, content)
  {
    if history != [] {
      FailedSinceSnoc(env, start, initial, history, content);
      if history[|history| - 1].Err? {
        NotFailedSince(env, start, initial, history[..|history| - 1], content);
      }
    }
  }

  /**
   For every history, a scan that reads valid content leaves an error standing exactly when that content
   was the last one seen when a read failed, and only failures and the same content came in between.
   */
  lemma GoodScanError(env: Env, start: string, initial: Exporter, history: History, content: string)
    requires FaithfulDigest(env) && env.parse(content).Ok?
    ensures Scans(env, Started(env, start, initial), history + [Ok(content)]).lastError != "" <==>
      FailedSince(env, start, initial, history, content)
  {
    var longer := history + [Ok(content)];
    assert longer[..|history|] == history;
    ErrorOfSeen(env, start, initial, longer, content);
    FailedSinceSnoc(env, start, initial, longer, content);
  }

  /** An error outlives a good scan: the file is unreadable once and then back unchanged. */
  lemma ErrorOutlivesGoodScan(env: Env, content: string, initial: Exporter)
    requires FaithfulDigest(env) && env.parse(content) == Ok(initial)
    ensures Scans(env, Started(env, content, initial), [Err("gone"), Ok(content)]).lastError == "read config: gone"
  {
    var s0 := Started(env, content, initial);
    var history: History := [Err("gone"), Ok(content)];
    assert history[..1] == [Err("gone")] && history[..1][..0] == [];
    assert Scans(env, s0, []) == s0;
    assert Scans(env, s0, [Err("gone")]) == s0.(lastError := "read config: gone");
  }

  /** Without an injective digest a reload can be missed: here every content has the same digest. */
  lemma CollisionMissesReload(parse: string -> Result<Exporter, string>, a: string, b: string)
    requires parse(a).Ok? && parse(b).Ok? && parse(a) != parse(b)
    ensures var env := Env(parse, _ => 1);
      Scans(env, Started(env, a, parse(a).value), [Ok(b)]).active != Reparse(env, parse(a).value, [Ok(b)])
  {
    var env := Env(parse, _ => 1);
    var history: History := [Ok(b)];
    assert history[..0] == [];
    assert Scans(env, Started(env, a, parse(a).value), []) == Started(env, a, parse(a).value);
    assert Reparse(env, parse(a).value, []) == parse(a).value;
  }
}
