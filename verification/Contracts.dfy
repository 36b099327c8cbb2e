/** The records of contracts.py that cross component boundaries. */
module Contracts {

  datatype Option<+T> = None | Some(value: T)

  datatype Result<+T, +E> = Ok(value: T) | Err(error: E)

  /** `not s.strip()`, for ASCII white space. */
  predicate Blank(s: string) { forall c :: c in s ==> c in " \t\n\r\U{b}\U{c}\U{1c}\U{1d}\U{1e}\U{1f}" }

  datatype NodeState = Joining | Idle | Computing | Degraded | Offline

  datatype NodeProfile = NodeProfile(
    id: string, host: string, backend: string, tgTokS: real, rttMs: real, state: NodeState)

  datatype NodeMetrics = NodeMetrics(
    nodeId: string, ramFreeMb: int, vramFreeMb: Option<int>, jobsRunning: nat)

  /** One entry `node_id -> (first, last)` of `Assignment.layers`. */
  datatype Slot = Slot(id: string, first: int, last: int) {
    function Count(): int { last - first + 1 }
  }

  /** `layers` lists the dict's entries in insertion order, one per node id. */
  datatype Assignment = Assignment(
    modelId: string,
    layers: seq<Slot>,
    nCpuMoe: map<string, int>,
    tensorSplit: seq<real>,
    predictedTokS: real)

  datatype ModelSpec = ModelSpec(
    modelId: string, totalLayers: int, fileSizeMb: real, kvMbPerLayer: real)
}
