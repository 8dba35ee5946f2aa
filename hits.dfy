/** Turning the hits of a search response into what the caller receives. */
module Hits {
  import opened Json

  /** One hit as the caller sees it: the stored document when the hit carries `_source`,
      otherwise the hit itself, unchanged. */
  function Unpack(hit: Document): Value {
    if "_source" in hit then hit["_source"] else Obj(hit)
  }

  /** Every hit of a response unpacked, in response order. */
  function UnpackAll(hits: seq<Document>): (vs: seq<Value>)
    ensures |vs| == |hits|
  {
    if hits == [] then [] else [Unpack(hits[0])] + UnpackAll(hits[1..])
  }

  /** Position `i` of the unpacked list is the `i`-th hit unpacked: order is kept. */
  lemma {:induction false} UnpackAllAt(hits: seq<Document>, i: int)
    requires 0 <= i < |hits|
    ensures UnpackAll(hits)[i] == Unpack(hits[i])
  {
    if i > 0 {
      UnpackAllAt(hits[1..], i - 1);
    }
  }

  /** Unpacking two responses one after the other is unpacking their concatenation. */
  lemma {:induction false} UnpackAllAppend(a: seq<Document>, b: seq<Document>)
    ensures UnpackAll(a + b) == UnpackAll(a) + UnpackAll(b)
  {
    if a == [] {
      assert a + b == b;
    } else {
      assert (a + b)[1..] == a[1..] + b;
      UnpackAllAppend(a[1..], b);
    }
  }

  /** When every hit carries its document, unpacking gives back exactly those documents. */
  lemma {:induction false} UnpackAllSources(hits: seq<Document>)
    requires forall i :: 0 <= i < |hits| ==> "_source" in hits[i]
    ensures UnpackAll(hits) == seq(|hits|, i requires 0 <= i < |hits| => hits[i]["_source"])
  {
    forall i | 0 <= i < |hits|
      ensures UnpackAll(hits)[i] == hits[i]["_source"]
    {
      UnpackAllAt(hits, i);
    }
  }
}
