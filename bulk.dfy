/** Building bulk actions from documents, and the check of the bulk reply. */
module Bulk {
  import opened Json
  import opened Wrappers
  import opened Requests

  /** Why building the actions raised: a document lacking the identifier key (KeyError), or an
      element that is not a dict and cannot be subscripted by a string (TypeError). */
  datatype BulkError = KeyError(key: string) | TypeError

  /** True when `v` is a dict holding `key`: the only elements the builder accepts. */
  predicate HasKey(v: Value, key: string) {
    v.Obj? && key in v.fields
  }

  /** The payload attached for an operation type. */
  function PayloadFor(opType: string, document: Document): Payload {
    if opType == "index" then SourcePayload(document)
    else if opType == "update" then DocPayload(document)
    else NoPayload
  }

  /** The action for one element, or the error its `_id` lookup raises. */
  function ActionFor(v: Value, key: string, opType: string): Result<Action, BulkError> {
    match v
    case Obj(document) =>
      if key in document then Success(Action(opType, document[key], PayloadFor(opType, document)))
      else Failure(KeyError(key))
    case _ => Failure(TypeError)
  }

  /** Reference definition of the builder: the actions of all elements in order, or the error of
      the first element whose `_id` lookup fails. */
  function BuildActions(data: seq<Value>, key: string, opType: string): Result<seq<Action>, BulkError> {
    if data == [] then Success([])
    else
      match ActionFor(data[0], key, opType)
      case Failure(e) => Failure(e)
      case Success(a) =>
        match BuildActions(data[1..], key, opType)
        case Failure(e) => Failure(e)
        case Success(rest) => Success([a] + rest)
  }

  /** The builder succeeds exactly when every element is a dict holding the identifier key. */
  lemma {:induction false} BuildActionsSucceedsIff(data: seq<Value>, key: string, opType: string)
    ensures BuildActions(data, key, opType).Success? <==> forall i :: 0 <= i < |data| ==> HasKey(data[i], key)
  {
    if data != [] {
      BuildActionsSucceedsIff(data[1..], key, opType);
      assert forall i :: 1 <= i < |data| ==> data[i] == data[1..][i - 1];
    }
  }

  /** A failure reports the error of the first element lacking the key. */
  lemma {:induction false} BuildActionsFailsAtFirst(data: seq<Value>, key: string, opType: string)
    requires BuildActions(data, key, opType).Failure?
    ensures exists i :: 0 <= i < |data| && !HasKey(data[i], key)
              && (forall j :: 0 <= j < i ==> HasKey(data[j], key))
              && BuildActions(data, key, opType).error == (if data[i].Obj? then KeyError(key) else TypeError)
  {
    if HasKey(data[0], key) {
      BuildActionsFailsAtFirst(data[1..], key, opType);
      var i :| 0 <= i < |data[1..]| && !HasKey(data[1..][i], key)
               && (forall j :: 0 <= j < i ==> HasKey(data[1..][j], key))
               && BuildActions(data[1..], key, opType).error == (if data[1..][i].Obj? then KeyError(key) else TypeError);
      assert forall j :: 1 <= j < i + 1 ==> data[j] == data[1..][j - 1];
      assert !HasKey(data[i + 1], key);
    } else {
      assert !HasKey(data[0], key);
    }
  }

  /** One action per element, in element order, each carrying the requested operation type, the
      element's identifier as `_id`, and the payload its operation type calls for. */
  lemma {:induction false} BuildActionsShape(data: seq<Value>, key: string, opType: string)
    requires BuildActions(data, key, opType).Success?
    ensures var actions := BuildActions(data, key, opType).value;
      |actions| == |data| &&
      forall i :: 0 <= i < |data| ==>
        && HasKey(data[i], key)
        && actions[i].opType == opType
        && actions[i].id == data[i].fields[key]
        && (opType == "index" ==> actions[i].payload == SourcePayload(data[i].fields))
        && (opType == "update" ==> actions[i].payload == DocPayload(data[i].fields))
        && (opType != "index" && opType != "update" ==> actions[i].payload == NoPayload)
  {
    if data != [] {
      BuildActionsShape(data[1..], key, opType);
    }
  }

  /** A one-element list whose element has an identifier builds exactly that element's action. */
  lemma BuildActionsSingle(v: Value, key: string, opType: string)
    requires ActionFor(v, key, opType).Success?
    ensures BuildActions([v], key, opType) == Success([ActionFor(v, key, opType).value])
  {
    assert [v][0] == v && [v][1..] == [];
    assert [ActionFor(v, key, opType).value] + [] == [ActionFor(v, key, opType).value];
  }

  /** Building the actions of two lists one after the other is building those of their
      concatenation; a failure in the first list wins. */
  lemma {:induction false} BuildActionsAppend(a: seq<Value>, b: seq<Value>, key: string, opType: string)
    ensures BuildActions(a + b, key, opType) ==
      match BuildActions(a, key, opType)
      case Failure(e) => Failure(e)
      case Success(xs) =>
        match BuildActions(b, key, opType)
        case Failure(e) => Failure(e)
        case Success(ys) => Success(xs + ys)
  {
    if a == [] {
      assert a + b == b;
      match BuildActions(b, key, opType)
      case Failure(e) =>
      case Success(ys) => assert [] + ys == ys;
    } else {
      assert a + b != [] && (a + b)[0] == a[0];
      assert (a + b)[1..] == a[1..] + b;
      BuildActionsAppend(a[1..], b, key, opType);
      match ActionFor(a[0], key, opType)
      case Failure(e) =>
      case Success(x) =>
        match BuildActions(a[1..], key, opType)
        case Failure(e) =>
        case Success(xs) =>
          match BuildActions(b, key, opType)
          case Failure(e) =>
          case Success(ys) => assert [x] + (xs + ys) == ([x] + xs) + ys;
    }
  }

  /** The documents an index or update bulk carries, read back from its actions. */
  function Payloads(actions: seq<Action>): seq<Value> {
    if actions == [] then []
    else
      var p := actions[0].payload;
      [match p
       case SourcePayload(d) => Obj(d)
       case DocPayload(d) => Obj(d)
       case NoPayload => Null] + Payloads(actions[1..])
  }

  /** Index and update actions carry every document whole and unaltered, identifier field
      included: reading the payloads back gives the input list. */
  lemma {:induction false} PayloadsRoundTrip(data: seq<Value>, key: string, opType: string)
    requires opType == "index" || opType == "update"
    requires BuildActions(data, key, opType).Success?
    ensures Payloads(BuildActions(data, key, opType).value) == data
  {
    if data != [] {
      PayloadsRoundTrip(data[1..], key, opType);
    }
  }

  /** What `helpers.bulk` with `raise_on_error=False` answers: the number of successful actions
      and the per-action error descriptions. */
  datatype BulkReply = BulkReply(successCount: nat, errors: seq<Value>)

  /** The outcome of the reply check: nothing to report, or a failure count with the errors. */
  datatype Report = Quiet | FailureReport(count: int, errors: seq<Value>)

  /** The reply check as the code writes it: the logged count is successes minus actions. */
  function LoggedCountAsWritten(total: nat, reply: BulkReply): int {
    reply.successCount - total
  }

  /** For a partial failure the count logged as written is negative: three actions of which one
      succeeded log "-2 documents could not be indexed". */
  lemma AsWrittenFailureCountIsNegative(total: nat, reply: BulkReply)
    requires reply.successCount + |reply.errors| == total
    requires |reply.errors| > 0
    ensures LoggedCountAsWritten(total, reply) == -|reply.errors| < 0
    ensures LoggedCountAsWritten(3, BulkReply(1, [Str("e1"), Str("e2")])) == -2
  {
  }

  /** The reply check with the failure count it evidently means: actions minus successes. */
  function CheckReply(total: nat, reply: BulkReply): (r: Report)
    ensures r.FailureReport? <==> reply.successCount != total
    ensures r.FailureReport? ==> r.count + reply.successCount == total && r.errors == reply.errors
  {
    if reply.successCount - total != 0 then FailureReport(total - reply.successCount, reply.errors)
    else Quiet
  }

  /** With a consistent reply (every action either succeeded or has an error entry) the check
      reports exactly when some action failed, and the count it reports is the number of failures. */
  lemma ReportCountsFailures(total: nat, reply: BulkReply)
    requires reply.successCount + |reply.errors| == total
    ensures CheckReply(total, reply).FailureReport? <==> |reply.errors| > 0
    ensures CheckReply(total, reply).FailureReport? ==> CheckReply(total, reply).count == |reply.errors| > 0
  {
  }
}
