# simple-elastic: a Dafny model of `ElasticIndex`

This project models the request-shaping core of `ElasticIndex` (`simple_elastic/index.py`),
a handle on one Elasticsearch index. The model covers:

- opening a handle (the existence check and the creation of a missing index with its body);
- search, scan and get, which unpack the hits of the answer;
- the scroll loop;
- bulk action building and the check of the bulk reply;
- the point updates;
- reindexing, which composes scroll and bulk.

The cluster and the `elasticsearch` client library stay outside the model. Every answer of the
cluster is a parameter: the "exists" flag, the hit list of a search or scan, the record of a get
(None when not found), the sequence of scroll answers, and the reply of a bulk request. Every
request the handle makes is returned as a `Call` value that holds the arguments passed to the client.

Modules:

- `Json`: JSON-like values (`Value`) and documents (`map<string, Value>`).
- `Wrappers`: `Option` and `Result`.
- `Requests`: `Call`, bulk `Action`s, the match-all query and the default settings.
- `Hits`: unpacking hits.
- `Scroll`: the scroll protocol over a finite sequence of answers. `Leading(rs)` is the number
  of answers before the first one with no hits.
- `Bulk`: the reference definition `BuildActions` of the bulk builder, and the reply check.
- `SimpleElastic`: the handle `ElasticIndex` and its operations, plus the reference definition
  `ReindexSteps` of the reindex loop.

`ElasticIndex` is a datatype, not a class. Its fields are assigned in `__init__` and no method
reassigns them (index.py:45-55). Its operations change nothing, so they are methods and functions
that return their requests. Where the code does its work in loops (search, scan, scroll, bulk,
reindex), the model is a method with the same loop. Each such method is proved equal to a reference
function (`UnpackAll`, `Batches` and `FollowUps`, `BuildActions`, `ReindexSteps`), and the lemmas
about that function state what the source promises.

The model follows what the code does, in particular:

- The default settings of a new index are 1 shard, 0 replicas, `auto_expand_replicas` false and
  refresh `'1s'` (index.py:58-65).
- `index_into` returns nothing (index.py:147), although test/tests.py:27-32 compares its result
  with booleans.
- `script_update` always sends `params`, as null when none are given (index.py:165).
- `bulk` builds each action from `_op_type`, `_id` and the payload only (index.py:180-186): no
  other flag is attached to an update action, and the identifier field stays in the payload.
- A document without the identifier key makes `bulk` raise before anything is sent
  (index.py:182). It does not become an action without an `_id`.
- `__init__` creates the index only when it does not exist (index.py:50-51); it never deletes an
  existing one.
- The default arguments of the source are default parameter values here: `query=None`,
  `size=100`, `scroll='5m'`, `op_type='index'`, and the `url`, `mapping` and `settings` defaults
  of `__init__`.

## Model

| member | source | states |
|---|---|---|
| `SimpleElastic.CreationBody` | simple_elastic/index.py:57-76 | the creation body has `mappings` iff a mapping is set (holding it); `settings` is always present, the caller's settings when given, else exactly 1 shard, 0 replicas, auto-expand false, refresh `1s`; no other key |
| `SimpleElastic.ElasticIndex.Create` | simple_elastic/index.py:67-76 | the body filled key by key is the creation body above, sent for this handle's index |
| `SimpleElastic.ElasticIndex.OpenCalls` | simple_elastic/index.py:45-51 | opening first asks whether the index exists, and sends a creation request (with the creation body) iff it does not; an existing index gets the existence check and nothing else (no delete, no create) |
| `SimpleElastic.ElasticIndex.Open` | simple_elastic/index.py:40-55 | the handle stores the given parameters (url, mapping and settings defaulting as in `__init__`), and the requests are the existence check plus creation only for a missing index; an existing index is not touched |
| `SimpleElastic.ElasticIndex.Delete` | simple_elastic/index.py:78-83 | deletion is a single request for this handle's index |
| `SimpleElastic.ElasticIndex.Search` | simple_elastic/index.py:85-100 | a None query (the default) is replaced by the match-all query and the size defaults to 100; the results are `UnpackAll` of the hits: their length and order, each the hit's `_source` when present, else the hit unchanged |
| `SimpleElastic.ElasticIndex.ScanIndex` | simple_elastic/index.py:102-116 | a None query is replaced by match-all; the results are the scanned hits unpacked, in order |
| `Hits.UnpackAll` | simple_elastic/index.py:127 | unpacking keeps the number of hits |
| `Hits.UnpackAllAt` | simple_elastic/index.py:95-99 | element `i` of the unpacked list is hit `i` unpacked, so order is kept |
| `Hits.UnpackAllAppend` | simple_elastic/index.py:127 | unpacking two answers one after the other equals unpacking their concatenation |
| `Hits.UnpackAllSources` | simple_elastic/index.py:96-97 | when every hit carries `_source`, the results are exactly those sources |
| `SimpleElastic.ElasticIndex.Scroll` | simple_elastic/index.py:118-128 | a None query (the default) is replaced by match-all, keep-alive and size default to 5m and 100; one batch per answer before the first empty one, each non-empty and the unpacked hits of its answer; fetch `k` uses the scroll id of answer `k`, the latest one; the loop ends at the first empty answer |
| `Scroll.Leading` | simple_elastic/index.py:125 | the answers before position `Leading(rs)` all have hits, and the answer at that position (if any) has none |
| `Scroll.FollowUps` | simple_elastic/index.py:126-128 | a drained scroll makes exactly one follow-up fetch per yielded batch |
| `Scroll.BatchesShape` | simple_elastic/index.py:125-127 | the scroll yields `Leading(rs)` batches, batch `k` is answer `k` unpacked, and no batch is empty |
| `Scroll.CollectedScroll` | simple_elastic/index.py:125-128 | batches and fetches collected answer by answer until an empty answer or the end of the answers are the whole scroll's batches and fetches, one per leading non-empty answer, none of them empty |
| `Scroll.ScrollYieldsLeadingHits` | simple_elastic/index.py:123-128 | everything the scroll yields, over all batches, is exactly the hits before the first empty answer, unpacked, in answer order |
| `SimpleElastic.ElasticIndex.Get` | simple_elastic/index.py:130-143 | one request by identifier; None exactly when the cluster reports not found, else the record unpacked |
| `SimpleElastic.ElasticIndex.IndexInto` | simple_elastic/index.py:145-147 | one index request carrying the document and id; no result is returned |
| `SimpleElastic.GetOfStoredRecord` | simple_elastic/index.py:138-139 | a corollary of `Get`: a found record carrying a value under `_source`, whatever its other metadata, yields exactly that value |
| `SimpleElastic.ElasticIndex.Update` | simple_elastic/index.py:149-157 | the update body is exactly `{doc: <partial document>}` for the given id |
| `SimpleElastic.ElasticIndex.ScriptUpdate` | simple_elastic/index.py:159-168 | the body is exactly `{script: {source, lang: painless, params}}`, and `params` is sent even when absent, as null |
| `SimpleElastic.ElasticIndex.Bulk` | simple_elastic/index.py:170-196 | the op type defaults to `index`; the bulk request carries the actions of the reference builder; when building raises (with its error), nothing is sent; otherwise the reply is checked with the corrected `CheckReply`, and the count the code logs is the negation of the reported one |
| `Bulk.BuildActionsSucceedsIff` | simple_elastic/index.py:179-182 | building succeeds iff every document is a dict holding the identifier key |
| `Bulk.BuildActionsFailsAtFirst` | simple_elastic/index.py:179-182 | a failure is raised by the first document lacking the key: KeyError for a dict, TypeError for a non-dict |
| `Bulk.BuildActionsShape` | simple_elastic/index.py:178-187 | one action per document, in order, each with the requested op type and `_id` equal to `document[identifier_key]`; payload `_source` for index, `doc` for update, none for any other op type |
| `Bulk.BuildActionsSingle` | simple_elastic/index.py:180-187 | a single document with an identifier builds exactly its one action |
| `Bulk.BuildActionsAppend` | simple_elastic/index.py:178-187 | building two lists in turn is building their concatenation, and a failure in the first list wins |
| `Bulk.PayloadsRoundTrip` | simple_elastic/index.py:183-186 | index and update actions carry every document whole and unaltered (identifier field included): reading the payloads back gives the input |
| `Bulk.CheckReply` | simple_elastic/index.py:191-195 | the corrected reply check of the Findings row: the failure branch is taken iff the success count differs from the number of actions, as in the code; the count it reports is actions minus successes (the code logs successes minus actions), and the errors are reported as received |
| `Bulk.ReportCountsFailures` | simple_elastic/index.py:192-195 | with a consistent reply, a failure is reported iff some action failed, and the count is the number of failed actions |
| `Bulk.AsWrittenFailureCountIsNegative` | simple_elastic/index.py:192-193 | the count the code logs is negative for every partial failure (3 actions, 1 success: -2) |
| `SimpleElastic.ElasticIndex.InheritDefaults` | simple_elastic/index.py:208-213 | `url`, `doc_type` and `mapping` come from the source handle only when absent from the keyword arguments; a supplied value, None included, is never overwritten; `settings` is passed through |
| `SimpleElastic.ElasticIndex.Reindex` | simple_elastic/index.py:198-218 | the new handle gets the inherited parameters; the requests are opening the new index, then the scrolling search of this index (match-all, size 500, keep-alive 5m), then the reindex steps |
| `SimpleElastic.ElasticIndex.CopyInto` | simple_elastic/index.py:216-217 | the scroll-and-bulk loop makes the search and then exactly the reindex steps: a bulk request for each batch before the next fetch |
| `SimpleElastic.ReindexBulksEveryBatch` | simple_elastic/index.py:208-217 | a reindex raises iff building actions for everything the scroll yields would, with the same error; otherwise its bulk requests carry exactly those actions, in order, and it ends at an empty answer iff there is one |
| `SimpleElastic.ReindexCopiesEveryDocument` | simple_elastic/index.py:216-217 | a reindex that does not raise sends one `index` action per document the scroll yields, in order, each with the document as its source and `document[identifier_key]` as its `_id` |

## Findings

| source | as written | input that shows it | evidently intended | confidence | as-written member | corrected member |
|---|---|---|---|---|---|---|
| simple_elastic/index.py:193 | logs `errors[0] - len(bulk_objects)` (successes minus actions) as the number of documents that could not be indexed | 3 documents, reply with 1 success and 2 errors: logs "-2 documents could not be indexed/updated/deleted" | actions minus successes, i.e. 2 | not executed; high | `Bulk.AsWrittenFailureCountIsNegative` | `Bulk.ReportCountsFailures` |

## Left out

- The `elasticsearch` client (`Elasticsearch(...)`, `indices.*`, `search`, `scroll`, `get`, `index`, `update`, `helpers.bulk`, `helpers.scan`): this is network I/O through a library whose code is not part of this model. Its answers are parameters and its requests are `Call` values.
- The timeout: it is a transport parameter only, so it is not a field of the handle and not a reindex keyword.
- `json.dumps(document, ensure_ascii=False)` in `index_into`: the request carries the document value, not its encoding.
- Logging: it is not modelled. The one exception is the bulk failure branch: its decision is modelled as written, and its count is modelled by the corrected `Bulk.CheckReply` (actions minus successes) while `Bulk.LoggedCountAsWritten` gives the count the code logs (see Findings).
- `NotFoundError` in `get`: it is only the "not found" answer (`record == None`). Other client errors are not modelled.
- Scroll: the model is a fully drained generator over a finite sequence of answers. Partial consumption by a caller and the server-side cursor it leaves open are not modelled. If the answers run out before an empty one, the model stops and reports `drained == false` (reindex: `Unanswered`).
- Cluster behaviour: result-size limits, how many hits each answer holds, and what is stored are not modelled. Whether a get returns what an earlier `index_into` stored is up to the cluster and is not stated.
- Reindex: each batch's bulk reply is checked only to be logged, and reindex discards it. The model takes the replies as the function `bulkReply` and does not return the reports. Keyword arguments other than `url`, `doc_type`, `mapping` and `settings` are not modelled.
- Answers that lack `hits` or `_scroll_id`: these would raise in the source. The model's answer types always have both.
- Numbers: they are integers only. Floats and dictionary key order are not represented.
- Endpoints: a `Call` does not record the cluster it is sent to. In a reindex whose `url` names another cluster, the search and scroll fetches go to this handle's `url` and the existence check, create and bulk requests go to the new one (index.py:214-217); the model joins both into one `calls` sequence and shows the new cluster only as `target.url`.
- Wildcard index names: an index name is an opaque string.
