/** What a node declares about itself, and what the registry keeps about it. */
module MeshTypes {
  import opened Prelude

  type NodeId = string

  /** `S` is how strings are held: as characters, or as the UTF-16 code units that get signed. */
  datatype Capability<S> = Capability(
    model: S, contextWindow: int, pricePer1kTokensUsdc: S, quantization: Option<S>)

  datatype Registration<S> = Registration(
    nodeId: S, operatorAddress: S, endpoint: S, capabilities: seq<Capability<S>>,
    network: S, version: S, timestamp: int, nonce: S)

  datatype Heartbeat<S> = Heartbeat(
    nodeId: S, healthy: bool, inFlight: int, maxConcurrency: int, version: S, timestamp: int, nonce: S)

  datatype Health = Health(
    nodeId: NodeId, healthy: bool, latencyMsP50: real, latencyMsP95: real,
    inFlight: int, maxConcurrency: int, uptimeRatio: real, qualityScore: real,
    consecutiveFailures: nat, lastSeenAt: int)

  datatype NodeRecord = NodeRecord(
    registration: Registration<string>, health: Health, usdcOptedIn: bool,
    totalRequests: int, totalPaidAtomic: string, registeredAt: int)
}
