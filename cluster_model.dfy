/**
 * The shape of a clustering response as the browser receives it and keeps it in
 * session state: `num_clusters`, `centers`, `data`, `clustered` and an optional
 * `plots` payload. The response is stored as received; nothing validates it.
 */
module ClusterModel {
  import opened Wrappers

  /** A (latitude, longitude) pair. */
  type Point = (real, real)

  /** One element of `clustered`: only its `cluster` label is read by the client. */
  datatype ClusteredRecord = ClusteredRecord(cluster: int)

  /** An opaque JSON payload; only its JavaScript truthiness matters to the client. */
  datatype JsonValue =
    | JsonNull
    | JsonBool(b: bool)
    | JsonNumber(x: real)
    | JsonString(s: string)
    | JsonArray(length: nat)
    | JsonObject

  /** JavaScript truthiness: null, false, 0 and "" are falsy; every array and object is truthy. */
  predicate Truthy(v: JsonValue) {
    match v
    case JsonNull => false
    case JsonBool(b) => b
    case JsonNumber(x) => x != 0.0
    case JsonString(s) => s != ""
    case JsonArray(_) => true
    case JsonObject => true
  }

  /** A clustering response body; a missing `clustered` or `plots` field is None. */
  datatype ClusterResult = ClusterResult(
    numClusters: int,
    centers: seq<Point>,
    data: seq<Point>,
    clustered: Option<seq<ClusteredRecord>>,
    plots: Option<JsonValue>)
}
