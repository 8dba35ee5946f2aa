/** The handle on one index of a cluster, and the operations it offers. Every request the handle
    makes is returned as a `Call`; every answer of the cluster is a parameter. */
module SimpleElastic {
  import opened Json
  import opened Wrappers
  import opened Requests
  import opened Hits
  import opened Scroll
  import opened Bulk

  /** The body of the index-creation request: `mappings` exactly when a mapping is set, and
      `settings` from the caller, or else the fixed defaults. */
  function CreationBody(mapping: Option<Document>, settings: Option<Document>): (body: Document)
    ensures "mappings" in body <==> mapping.Some?
    ensures mapping.Some? ==> body["mappings"] == Obj(mapping.value)
    ensures "settings" in body && body.Keys <= {"mappings", "settings"}
    ensures settings.Some? ==> body["settings"] == Obj(settings.value)
    ensures settings.None? ==> body["settings"] == Obj(map[
              "number_of_shards" := Num(1),
              "number_of_replicas" := Num(0),
              "auto_expand_replicas" := Bool(false),
              "refresh_interval" := Str("1s")])
  {
    var withSettings := map["settings" := Obj(settings.GetOr(DefaultSettings()))];
    if mapping.Some? then withSettings["mappings" := Obj(mapping.value)] else withSettings
  }

  /** The keyword arguments `reindex` forwards to the new handle. A present `mapping` or
      `settings` may itself be None, which is why those two are doubly optional. */
  datatype Overrides = Overrides(
    url: Option<string>,
    docType: Option<string>,
    mapping: Option<Option<Document>>,
    settings: Option<Option<Document>>)

  /** How a reindex ended: at an empty scroll response, with the given responses used up before
      one was empty, or with the error a batch raised while its bulk actions were built. */
  datatype ReindexOutcome = Drained | Unanswered | Raised(error: BulkError)

  /** The requests a reindex makes after its initial search, and how it ends. */
  datatype Steps = Steps(calls: seq<Call>, outcome: ReindexOutcome)

  /** One handle. Its fields are set when it is opened and never change afterwards. */
  datatype ElasticIndex = ElasticIndex(
    index: string,
    docType: string,
    url: string,
    mapping: Option<Document>,
    settings: Option<Document>)
  {
    /** The requests made while opening: the existence check, then a creation request only when
        the index does not exist yet. */
    function OpenCalls(indexExists: bool): (calls: seq<Call>)
      ensures |calls| >= 1 && calls[0] == ExistsRequest(index)
      ensures |calls| == 2 <==> !indexExists
      ensures indexExists ==> calls == [ExistsRequest(index)]
      ensures !indexExists ==> calls[1] == CreateRequest(index, CreationBody(mapping, settings))
    {
      [ExistsRequest(index)] + if indexExists then [] else [CreateRequest(index, CreationBody(mapping, settings))]
    }

    /** Opening a handle: store the parameters, and create the index if the cluster says it is
        absent. An existing index is reused as it is. */
    static method Open(indexExists: bool, index: string, docType: string, url: string := "http://localhost:9200",
                       mapping: Option<Document> := None, settings: Option<Document> := None)
      returns (h: ElasticIndex, calls: seq<Call>)
      ensures h == ElasticIndex(index, docType, url, mapping, settings)
      ensures calls == h.OpenCalls(indexExists)
    {
      h := ElasticIndex(index, docType, url, mapping, settings);
      calls := [ExistsRequest(index)];
      if !indexExists {
        var create := h.Create();
        calls := calls + [create];
      }
    }

    /** The creation request, its body filled in key by key. */
    method Create() returns (call: Call)
      ensures call == CreateRequest(index, CreationBody(mapping, settings))
    {
      var body: Document := map[];
      if mapping.Some? {
        body := body["mappings" := Obj(mapping.value)];
      }
      if settings.Some? {
        body := body["settings" := Obj(settings.value)];
      } else {
        body := body["settings" := Obj(DefaultSettings())];
      }
      call := CreateRequest(index, body);
    }

    /** Deleting the index: one request naming this handle's index and nothing else. */
    function Delete(): (call: Call)
      ensures call.DeleteRequest? && call.index == index
    {
      DeleteRequest(index)
    }

    /** A bounded search: one request, with the match-all query when none is given, and every
        hit of the answer unpacked, in order. */
    method Search(hits: seq<Document>, query: Option<Document> := None, size: int := 100)
      returns (call: Call, results: seq<Value>)
      ensures call == SearchRequest(index, docType, query.GetOr(MatchAll()), size, None)
      ensures query.None? ==> call.body == MatchAll()
      ensures |results| == |hits|
      ensures forall i :: 0 <= i < |hits| ==> results[i] == Unpack(hits[i])
      ensures results == UnpackAll(hits)
    {
      call := SearchRequest(index, docType, query.GetOr(MatchAll()), size, None);
      results := [];
      for i := 0 to |hits|
        invariant |results| == i
        invariant forall j :: 0 <= j < i ==> results[j] == Unpack(hits[j])
      {
        var items := hits[i];
        if "_source" in items {
          results := results + [items["_source"]];
        } else {
          results := results + [Obj(items)];
        }
      }
      forall j | 0 <= j < |hits|
        ensures results[j] == UnpackAll(hits)[j]
      {
        UnpackAllAt(hits, j);
      }
    }

    /** A full scan through the scan helper: the match-all query when none is given, and every
        hit the helper returns unpacked, in order. */
    method ScanIndex(hits: seq<Document>, query: Option<Document> := None)
      returns (call: Call, results: seq<Value>)
      ensures call == ScanRequest(index, docType, query.GetOr(MatchAll()))
      ensures query.None? ==> call.query == MatchAll()
      ensures results == UnpackAll(hits)
    {
      call := ScanRequest(index, docType, query.GetOr(MatchAll()));
      results := [];
      for i := 0 to |hits|
        invariant |results| == i
        invariant forall j :: 0 <= j < i ==> results[j] == Unpack(hits[j])
      {
        var items := hits[i];
        if "_source" in items {
          results := results + [items["_source"]];
        } else {
          results := results + [Obj(items)];
        }
      }
      forall j | 0 <= j < |hits|
        ensures results[j] == UnpackAll(hits)[j]
      {
        UnpackAllAt(hits, j);
      }
    }

    /** A fully drained scroll over the answers `rs` (the first answers the initial search, the
        `k+1`-th answers the `k`-th fetch). It yields one non-empty batch per answer before the
        first empty one, and fetches each time with the scroll id of the latest answer.
        `drained` says whether an empty answer was reached within `rs`. */
    method Scroll(rs: seq<ScrollResponse>, query: Option<Document> := None, keepAlive: string := "5m", size: int := 100)
      returns (calls: seq<Call>, batches: seq<seq<Value>>, drained: bool)
      ensures calls == [SearchRequest(index, docType, query.GetOr(MatchAll()), size, Some(keepAlive))]
                       + FollowUps(rs, keepAlive)
      ensures batches == Batches(rs)
      ensures |batches| == Leading(rs) && |calls| == |batches| + 1
      ensures forall k :: 0 <= k < |batches| ==>
                |batches[k]| > 0 && calls[k + 1] == ScrollRequest(rs[k].scrollId, keepAlive)
      ensures drained <==> Leading(rs) < |rs|
    {
      var search := SearchRequest(index, docType, query.GetOr(MatchAll()), size, Some(keepAlive));
      calls := [search];
      batches := [];
      var k := 0;
      while k < |rs| && |rs[k].hits| > 0
        invariant k <= |rs| && |batches| == k && |calls| == k + 1 && calls[0] == search
        invariant forall j :: 0 <= j < k ==> |rs[j].hits| > 0 && batches[j] == UnpackAll(rs[j].hits)
        invariant forall j :: 0 <= j < k ==> calls[j + 1] == ScrollRequest(rs[j].scrollId, keepAlive)
      {
        var scrollId := rs[k].scrollId;
        batches := batches + [UnpackAll(rs[k].hits)];
        calls := calls + [ScrollRequest(scrollId, keepAlive)];
        k := k + 1;
      }
      drained := k < |rs|;
      CollectedScroll(rs, keepAlive, search, batches, calls);
    }

    /** Fetching one document: the request by identifier, and the unpacked record, or None when
        the cluster reports it not found. */
    function Get(identifier: Value, record: Option<Document>): (r: (Call, Option<Value>))
      ensures r.0 == GetRequest(index, docType, identifier)
      ensures r.1.None? <==> record.None?
      ensures record.Some? ==> r.1 == Some(Unpack(record.value))
    {
      (GetRequest(index, docType, identifier),
       match record
       case None => None
       case Some(found) => Some(if "_source" in found then found["_source"] else Obj(found)))
    }

    /** Indexing one document: a single request carrying the document under the given id.
        Nothing is returned to the caller. */
    function IndexInto(document: Value, id: Value): (call: Call)
      ensures call.IndexRequest? && call.index == index && call.docType == docType
      ensures call.id == id && call.document == document
    {
      IndexRequest(index, docType, id, document)
    }

    /** A partial update: the partial document sent whole under `doc`, and nothing else. */
    function Update(doc: Document, docId: string): (call: Call)
      ensures call.UpdateRequest? && call.index == index && call.docType == docType && call.docId == docId
      ensures call.body.Keys == {"doc"} && call.body["doc"] == Obj(doc)
    {
      UpdateRequest(index, docType, docId, map["doc" := Obj(doc)])
    }

    /** A scripted update: a painless script with its parameters, which are sent even when
        absent (as null). */
    function ScriptUpdate(script: string, params: Option<Document>, docId: string): (call: Call)
      ensures call.UpdateRequest? && call.index == index && call.docType == docType && call.docId == docId
      ensures call.body.Keys == {"script"} && call.body["script"].Obj?
      ensures var s := call.body["script"].fields;
        && s.Keys == {"source", "lang", "params"}
        && s["source"] == Str(script)
        && s["lang"] == Str("painless")
        && s["params"] == (if params.Some? then Obj(params.value) else Null)
    {
      var p := match params case Some(d) => Obj(d) case None => Null;
      UpdateRequest(index, docType, docId,
        map["script" := Obj(map["source" := Str(script), "lang" := Str("painless"), "params" := p])])
    }

    /** A bulk operation: one action per element, built in a loop, sent in one bulk request, and
        the reply checked. Building raises on the first element that has no identifier, and then
        nothing is sent. */
    method Bulk(reply: BulkReply, data: seq<Value>, identifierKey: string, opType: string := "index")
      returns (r: Result<Call, BulkError>, report: Report)
      ensures r.Failure? <==> BuildActions(data, identifierKey, opType).Failure?
      ensures r.Failure? ==> r.error == BuildActions(data, identifierKey, opType).error && report == Quiet
      ensures r.Success? ==>
                && r.value == BulkRequest(index, docType, BuildActions(data, identifierKey, opType).value)
                && report == CheckReply(|data|, reply)
      ensures report.FailureReport? ==> LoggedCountAsWritten(|data|, reply) == -report.count
    {
      var actions: seq<Action> := [];
      for k := 0 to |data|
        invariant BuildActions(data[..k], identifierKey, opType) == Success(actions)
        invariant |actions| == k
      {
        var document := data[k];
        assert data == data[..k] + data[k..];
        assert data[k..][0] == document;
        BuildActionsAppend(data[..k], data[k..], identifierKey, opType);
        if !document.Obj? {
          return Failure(TypeError), Quiet;
        }
        if identifierKey !in document.fields {
          return Failure(KeyError(identifierKey)), Quiet;
        }
        var payload := NoPayload;
        if opType == "index" {
          payload := SourcePayload(document.fields);
        } else if opType == "update" {
          payload := DocPayload(document.fields);
        }
        var action := Action(opType, document.fields[identifierKey], payload);
        assert ActionFor(document, identifierKey, opType) == Success(action);
        BuildActionsSingle(document, identifierKey, opType);
        assert data[..k + 1] == data[..k] + [document];
        BuildActionsAppend(data[..k], [document], identifierKey, opType);
        actions := actions + [action];
      }
      assert data[..|data|] == data;
      r := Success(BulkRequest(index, docType, actions));
      report := CheckReply(|actions|, reply);
    }

    /** Filling in the keyword arguments of a reindex: `url`, `doc_type` and `mapping` are taken
        from this handle only when absent; a supplied value, None included, is kept. */
    method InheritDefaults(kwargs: Overrides) returns (filled: Overrides)
      ensures filled.url == (if kwargs.url.Some? then kwargs.url else Some(url))
      ensures filled.docType == (if kwargs.docType.Some? then kwargs.docType else Some(docType))
      ensures filled.mapping == (if kwargs.mapping.Some? then kwargs.mapping else Some(mapping))
      ensures filled.settings == kwargs.settings
    {
      filled := kwargs;
      if filled.url.None? {
        filled := filled.(url := Some(url));
      }
      if filled.docType.None? {
        filled := filled.(docType := Some(docType));
      }
      if filled.mapping.None? {
        filled := filled.(mapping := Some(mapping));
      }
    }

    /** Reindexing into a new index: open it with the inherited parameters, then scroll this index
        500 hits at a time and bulk-index every batch into the new one with the same identifier
        key. `bulkReply(k)` is the cluster's answer to the `k`-th bulk request. */
    method Reindex(newIndexName: string, identifierKey: string, kwargs: Overrides, newIndexExists: bool,
                   rs: seq<ScrollResponse>, bulkReply: nat -> BulkReply)
      returns (target: ElasticIndex, calls: seq<Call>, outcome: ReindexOutcome)
      ensures target == ElasticIndex(newIndexName, kwargs.docType.GetOr(docType), kwargs.url.GetOr(url),
                                     kwargs.mapping.GetOr(mapping), kwargs.settings.GetOr(None))
      ensures calls == target.OpenCalls(newIndexExists)
                       + [SearchRequest(index, docType, MatchAll(), 500, Some("5m"))]
                       + ReindexSteps(target, identifierKey, rs).calls
      ensures outcome == ReindexSteps(target, identifierKey, rs).outcome
    {
      var filled := InheritDefaults(kwargs);
      var openCalls;
      target, openCalls := Open(newIndexExists, newIndexName, filled.docType.value, filled.url.value,
                                filled.mapping.value, filled.settings.GetOr(None));
      var copyCalls;
      copyCalls, outcome := CopyInto(target, identifierKey, rs, bulkReply);
      calls := openCalls + copyCalls;
    }

    /** The loop of a reindex: scroll this index 500 hits at a time and bulk-index every batch
        into `target`, a bulk request after each batch and before the next fetch. */
    method CopyInto(target: ElasticIndex, identifierKey: string, rs: seq<ScrollResponse>, bulkReply: nat -> BulkReply)
      returns (calls: seq<Call>, outcome: ReindexOutcome)
      ensures calls == [SearchRequest(index, docType, MatchAll(), 500, Some("5m"))]
                       + ReindexSteps(target, identifierKey, rs).calls
      ensures outcome == ReindexSteps(target, identifierKey, rs).outcome
    {
      var search := SearchRequest(index, docType, MatchAll(), 500, Some("5m"));
      calls := [search];
      ghost var whole := ReindexSteps(target, identifierKey, rs);
      var k := 0;
      while k < |rs| && |rs[k].hits| > 0
        invariant k <= |rs|
        invariant calls + ReindexSteps(target, identifierKey, rs[k..]).calls == [search] + whole.calls
        invariant ReindexSteps(target, identifierKey, rs[k..]).outcome == whole.outcome
      {
        var scrollId := rs[k].scrollId;
        var batch := UnpackAll(rs[k].hits);
        var bulk, _ := target.Bulk(bulkReply(k), batch, identifierKey);
        ReindexStep(target, identifierKey, rs, k);
        if bulk.Failure? {
          outcome := Raised(bulk.error);
          return;
        }
        var fetch := ScrollRequest(scrollId, "5m");
        ghost var later := ReindexSteps(target, identifierKey, rs[k + 1..]).calls;
        assert ReindexSteps(target, identifierKey, rs[k..]).calls == [bulk.value, fetch] + later;
        assert calls + ([bulk.value, fetch] + later) == (calls + [bulk.value, fetch]) + later;
        calls := calls + [bulk.value, fetch];
        k := k + 1;
      }
      if k < |rs| {
        assert rs[k..][0] == rs[k];
        assert ReindexSteps(target, identifierKey, rs[k..]) == Steps([], Drained);
        outcome := Drained;
      } else {
        assert rs[k..] == [];
        outcome := Unanswered;
      }
      assert calls + [] == calls;
    }
  }

  /** One step of a reindex from answer `k`: a batch that raises ends it there; otherwise its bulk
      request and the next fetch come first. */
  lemma ReindexStep(target: ElasticIndex, key: string, rs: seq<ScrollResponse>, k: nat)
    requires k < |rs| && |rs[k].hits| > 0
    ensures var built := BuildActions(UnpackAll(rs[k].hits), key, "index");
      var later := ReindexSteps(target, key, rs[k + 1..]);
      ReindexSteps(target, key, rs[k..]) ==
        if built.Failure? then Steps([], Raised(built.error))
        else Steps([BulkRequest(target.index, target.docType, built.value), ScrollRequest(rs[k].scrollId, "5m")]
                   + later.calls, later.outcome)
  {
  }

  /** Reference definition of what a reindex does after its initial search: for each non-empty
      answer, bulk-index its batch into `target`, then fetch the next answer; stop at an empty
      answer, when the answers run out, or when a batch raises. */
  function ReindexSteps(target: ElasticIndex, key: string, rs: seq<ScrollResponse>): Steps {
    if rs == [] then Steps([], Unanswered)
    else if |rs[0].hits| == 0 then Steps([], Drained)
    else
      match BuildActions(UnpackAll(rs[0].hits), key, "index")
      case Failure(e) => Steps([], Raised(e))
      case Success(actions) =>
        var rest := ReindexSteps(target, key, rs[1..]);
        Steps([BulkRequest(target.index, target.docType, actions), ScrollRequest(rs[0].scrollId, "5m")] + rest.calls,
              rest.outcome)
  }

  /** The actions of all bulk requests among `calls`, in request order. */
  function BulkedActions(calls: seq<Call>): seq<Action> {
    if calls == [] then []
    else (if calls[0].BulkRequest? then calls[0].actions else []) + BulkedActions(calls[1..])
  }

  /** The reindex pipeline is the bulk builder applied to everything the scroll yields: it raises
      exactly when building the actions of all scrolled documents at once would, with the same
      error, and otherwise its bulk requests carry exactly those actions, in order. It ends at an
      empty answer exactly when there is one. */
  lemma {:induction false} ReindexBulksEveryBatch(target: ElasticIndex, key: string, rs: seq<ScrollResponse>)
    ensures var s := ReindexSteps(target, key, rs);
      var built := BuildActions(Concat(Batches(rs)), key, "index");
      && (s.outcome.Raised? <==> built.Failure?)
      && (s.outcome.Raised? ==> s.outcome.error == built.error)
      && (!s.outcome.Raised? ==> BulkedActions(s.calls) == built.value)
      && (!s.outcome.Raised? ==> (s.outcome == Drained <==> Leading(rs) < |rs|))
  {
    if rs == [] || |rs[0].hits| == 0 {
    } else {
      var batch := UnpackAll(rs[0].hits);
      var rest := Concat(Batches(rs[1..]));
      assert Batches(rs) == [batch] + Batches(rs[1..]);
      assert Concat(Batches(rs)) == batch + rest;
      BuildActionsAppend(batch, rest, key, "index");
      match BuildActions(batch, key, "index")
      case Failure(e) =>
      case Success(actions) =>
        ReindexBulksEveryBatch(target, key, rs[1..]);
        var s' := ReindexSteps(target, key, rs[1..]);
        var bulk := BulkRequest(target.index, target.docType, actions);
        var fetch := ScrollRequest(rs[0].scrollId, "5m");
        assert ReindexSteps(target, key, rs) == Steps([bulk, fetch] + s'.calls, s'.outcome);
        BulkedActionsStep(bulk, fetch, s'.calls);
    }
  }

  /** A bulk request followed by a fetch contributes exactly the bulk's actions. */
  lemma BulkedActionsStep(bulk: Call, fetch: Call, rest: seq<Call>)
    requires bulk.BulkRequest? && fetch.ScrollRequest?
    ensures BulkedActions([bulk, fetch] + rest) == bulk.actions + BulkedActions(rest)
  {
  }

  /** The net effect of a reindex that did not raise: the new index receives one index action per
      document the scroll of this index yields, in order, each carrying that document whole as
      its source and the document's identifier as its `_id`. */
  lemma ReindexCopiesEveryDocument(target: ElasticIndex, key: string, rs: seq<ScrollResponse>)
    requires !ReindexSteps(target, key, rs).outcome.Raised?
    ensures var actions := BulkedActions(ReindexSteps(target, key, rs).calls);
      var yielded := UnpackAll(AllHits(rs[..Leading(rs)]));
      && Payloads(actions) == yielded
      && |actions| == |yielded|
      && forall i :: 0 <= i < |actions| ==>
           actions[i].opType == "index" && HasKey(yielded[i], key) && actions[i].id == yielded[i].fields[key]
  {
    ReindexBulksEveryBatch(target, key, rs);
    ScrollYieldsLeadingHits(rs);
    var docs := Concat(Batches(rs));
    PayloadsRoundTrip(docs, key, "index");
    BuildActionsShape(docs, key, "index");
  }

  /** A corollary of `Get`'s contract for records that carry a document: whatever value a record
      holds under `_source`, beside any other metadata, is what the caller receives. */
  lemma GetOfStoredRecord(h: ElasticIndex, id: Value, stored: Value, metadata: Document)
    ensures h.Get(id, Some(metadata["_source" := stored])).1 == Some(stored)
  {
  }
}
