/** What the handle sends to the cluster: one `Call` per request made through the client library. */
module Requests {
  import opened Json
  import opened Wrappers

  /** The payload of a bulk action: `_source` for an index action, `doc` for an update action, none otherwise. */
  datatype Payload = SourcePayload(source: Document) | DocPayload(doc: Document) | NoPayload

  /** One bulk action: its `_op_type`, its `_id` and its payload. */
  datatype Action = Action(opType: string, id: Value, payload: Payload)

  /** A request to the cluster, with the arguments the handle passes to the client. */
  datatype Call =
    | ExistsRequest(index: string)
    | CreateRequest(index: string, body: Document)
    | DeleteRequest(index: string)
    | SearchRequest(index: string, docType: string, body: Document, size: int, scroll: Option<string>)
    | ScanRequest(index: string, docType: string, query: Document)
    | ScrollRequest(scrollId: string, keepAlive: string)
    | GetRequest(index: string, docType: string, id: Value)
    | IndexRequest(index: string, docType: string, id: Value, document: Value)
    | UpdateRequest(index: string, docType: string, docId: string, body: Document)
    | BulkRequest(index: string, docType: string, actions: seq<Action>)

  /** The query used when the caller gives none: `{"query": {"match_all": {}}}`. */
  function MatchAll(): Document {
    map["query" := Obj(map["match_all" := Obj(map[])])]
  }

  /** The settings of a new index when the caller gives none. */
  function DefaultSettings(): Document {
    map[
      "number_of_shards" := Num(1),
      "number_of_replicas" := Num(0),
      "auto_expand_replicas" := Bool(false),
      "refresh_interval" := Str("1s")
    ]
  }
}
