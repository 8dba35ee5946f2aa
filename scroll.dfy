/** The scroll protocol: an initial search followed by fetches with the latest scroll id,
    ending at the first response without hits. */
module Scroll {
  import opened Json
  import opened Hits
  import opened Requests

  /** One answer of the cluster to a scrolling search or a scroll fetch. */
  datatype ScrollResponse = ScrollResponse(hits: seq<Document>, scrollId: string)

  /** How many responses come before the first one with no hits (all of them if none is empty). */
  function Leading(rs: seq<ScrollResponse>): (n: nat)
    ensures n <= |rs|
    ensures forall k :: 0 <= k < n ==> |rs[k].hits| > 0
    ensures n < |rs| ==> |rs[n].hits| == 0
  {
    if rs == [] || |rs[0].hits| == 0 then 0 else 1 + Leading(rs[1..])
  }

  /** The batches a fully drained scroll yields over the responses `rs`. */
  function Batches(rs: seq<ScrollResponse>): seq<seq<Value>> {
    if rs == [] || |rs[0].hits| == 0 then [] else [UnpackAll(rs[0].hits)] + Batches(rs[1..])
  }

  /** The follow-up fetches: after yielding the batch of response `k` the loop fetches with that
      response's scroll id. */
  function FollowUps(rs: seq<ScrollResponse>, keepAlive: string): (cs: seq<Call>)
    ensures |cs| == Leading(rs)
  {
    seq(Leading(rs), k requires 0 <= k < Leading(rs) => ScrollRequest(rs[k].scrollId, keepAlive))
  }

  /** Batches and fetches collected one response at a time, up to the first empty response or
      the end of the responses, are the batches and follow-up fetches of the whole scroll. */
  lemma CollectedScroll(rs: seq<ScrollResponse>, keepAlive: string, search: Call,
                        batches: seq<seq<Value>>, calls: seq<Call>)
    requires |batches| <= |rs| && (|batches| == |rs| || |rs[|batches|].hits| == 0)
    requires forall j :: 0 <= j < |batches| ==> |rs[j].hits| > 0 && batches[j] == UnpackAll(rs[j].hits)
    requires |calls| == |batches| + 1 && calls[0] == search
    requires forall j :: 0 <= j < |batches| ==> calls[j + 1] == ScrollRequest(rs[j].scrollId, keepAlive)
    ensures |batches| == Leading(rs)
    ensures batches == Batches(rs)
    ensures calls == [search] + FollowUps(rs, keepAlive)
    ensures forall k :: 0 <= k < |batches| ==> |batches[k]| > 0
  {
    BatchesShape(rs);
  }

  /** Concatenation of batches. */
  function Concat(bs: seq<seq<Value>>): seq<Value> {
    if bs == [] then [] else bs[0] + Concat(bs[1..])
  }

  /** All hits of a sequence of responses, in order. */
  function AllHits(rs: seq<ScrollResponse>): seq<Document> {
    if rs == [] then [] else rs[0].hits + AllHits(rs[1..])
  }

  /** One batch per leading non-empty response, each the unpacked hits of that response,
      and never an empty batch. */
  lemma {:induction false} BatchesShape(rs: seq<ScrollResponse>)
    ensures |Batches(rs)| == Leading(rs)
    ensures forall k :: 0 <= k < |Batches(rs)| ==>
              Batches(rs)[k] == UnpackAll(rs[k].hits) && |Batches(rs)[k]| > 0
  {
    if rs != [] && |rs[0].hits| != 0 {
      BatchesShape(rs[1..]);
    }
  }

  /** The elements yielded over all batches are exactly the hits before the first empty
      response, unpacked, in response order. */
  lemma {:induction false} ScrollYieldsLeadingHits(rs: seq<ScrollResponse>)
    ensures Concat(Batches(rs)) == UnpackAll(AllHits(rs[..Leading(rs)]))
  {
    if rs == [] || |rs[0].hits| == 0 {
      assert rs[..Leading(rs)] == [];
    } else {
      var n := Leading(rs);
      ScrollYieldsLeadingHits(rs[1..]);
      assert rs[..n][0] == rs[0];
      assert rs[..n][1..] == rs[1..][..n - 1];
      UnpackAllAppend(rs[0].hits, AllHits(rs[1..][..n - 1]));
    }
  }
}
