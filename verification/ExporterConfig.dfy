/** The parts of the exporter configuration that hot reload and the poller read. */
module ExporterConfig {

  /** One configured server; times are in the unit of the configuration. */
  datatype Server = Server(
    id: string,
    name: string,
    address: string,
    enabled: bool,
    pollInterval: int,
    confirmInterval: int,
    nodeFailureConfirmInterval: int,
    runQueueAlertMultiple: nat)

  datatype Exporter = Exporter(servers: seq<Server>, ignoredNodes: map<string, seq<string>>)

  /** Validation rejects a configuration that names a server twice. */
  ghost predicate UniqueIds(servers: seq<Server>) {
    forall i, j | 0 <= i < j < |servers| :: servers[i].id != servers[j].id
  }
}
