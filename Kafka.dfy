/** The part of the Kafka client the core touches: record headers with `lastHeader`,
    consumed and produced records, the manual `Acknowledgment` and the `KafkaTemplate`
    the services send through. The broker itself is not modelled: a send is recorded,
    and whether it is later accepted is an outcome handed to the caller. */
module Kafka {
  import opened Values

  /** One record header; a header may carry a null value. */
  datatype Header = Header(key: string, value: Option<string>)

  /** `Headers.lastHeader(key)`: the last header with that key, or null. */
  function LastHeader(hs: seq<Header>, key: string): (r: Option<Header>)
    ensures r.Some? <==> exists i :: 0 <= i < |hs| && hs[i].key == key
    ensures r.Some? ==> r.value.key == key
    ensures r.Some? ==> exists i :: 0 <= i < |hs| && hs[i] == r.value &&
                                    forall j :: i < j < |hs| ==> hs[j].key != key
    decreases |hs|
  {
    if hs == [] then None
    else if hs[|hs| - 1].key == key then Some(hs[|hs| - 1])
    else
      var r := LastHeader(hs[..|hs| - 1], key);
      assert forall i :: 0 <= i < |hs| - 1 ==> hs[..|hs| - 1][i] == hs[i];
      r
  }

  /** Adding a header makes it the one read for its key and hides no other key. */
  lemma LastHeaderAfterAdd(hs: seq<Header>, h: Header, key: string)
    ensures LastHeader(hs + [h], key) == if h.key == key then Some(h) else LastHeader(hs, key)
  {
    assert (hs + [h])[..|hs|] == hs;
  }

  /** The header list after `add(key, value)`; whatever was read for `key` before is now
      shadowed by `value`, and every other key reads as before. */
  function WithHeader(hs: seq<Header>, key: string, value: string): (r: seq<Header>)
    ensures |r| == |hs| + 1 && r[..|hs|] == hs && r[|hs|] == Header(key, Some(value))
    ensures forall k {:trigger LastHeader(r, k)} ::
      LastHeader(r, k) == if k == key then Some(Header(key, Some(value))) else LastHeader(hs, k)
  {
    var r := hs + [Header(key, Some(value))];
    forall k ensures LastHeader(r, k) == if k == key then Some(Header(key, Some(value))) else LastHeader(hs, k) {
      LastHeaderAfterAdd(hs, Header(key, Some(value)), k);
    }
    r
  }

  /** The keys of a header list, in order. */
  function Keys(hs: seq<Header>): (ks: seq<string>)
    ensures |ks| == |hs| && forall i :: 0 <= i < |hs| ==> ks[i] == hs[i].key
  {
    seq(|hs|, i requires 0 <= i < |hs| => hs[i].key)
  }

  /** `RecordHeaders`: a header list that `add` extends in place. */
  class RecordHeaders {
    var list: seq<Header>

    constructor ()
      ensures list == []
    {
      list := [];
    }

    method Add(key: string, value: string)
      modifies this
      ensures list == WithHeader(old(list), key, value)
    {
      list := WithHeader(list, key, value);
    }
  }

  /** A record as a listener receives it, with its own coordinates. */
  datatype ConsumerRecord = ConsumerRecord(
    topic: string, partition: int32, offset: int64,
    key: string, value: string, headers: seq<Header>)

  /** A record handed to `KafkaTemplate.send` (no explicit partition). */
  datatype ProducerRecord = ProducerRecord(topic: string, key: string, value: string, headers: seq<Header>)

  /** The manual acknowledgment of one delivery; `count` is how often it was called. */
  class Acknowledgment {
    var count: nat

    constructor ()
      ensures count == 0
    {
      count := 0;
    }

    method Acknowledge()
      modifies this
      ensures count == old(count) + 1
    {
      count := count + 1;
    }
  }

  /** The producer: every record handed to `send`, in order. */
  class KafkaTemplate {
    var sent: seq<ProducerRecord>

    constructor ()
      ensures sent == []
    {
      sent := [];
    }

    method Send(r: ProducerRecord)
      modifies this
      ensures sent == old(sent) + [r]
    {
      sent := sent + [r];
    }
  }
}
