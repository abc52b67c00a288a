/** What travels through the outbox: the stored payload is the domain payload
    plus, when a trace is active, one reserved key carrying the trace context. */
module Envelope {
  import opened Prelude

  datatype Json =
    | JNull
    | JBool(flag: bool)
    | JNum(num: int)
    | JStr(str: string)
    | JArr(items: seq<Json>)
    | JObj(fields: map<string, Json>)

  type Payload = map<string, Json>
  type Carrier = map<string, string>

  const TRACE_CARRIER_KEY := "_trace"

  function CarrierJson(carrier: Carrier): Json {
    JObj(map k | k in carrier :: JStr(carrier[k]))
  }

  /** The payload `enqueue` stores. */
  function Wrap(payload: Payload, carrier: Carrier): Payload {
    if carrier.Keys != {} then payload[TRACE_CARRIER_KEY := CarrierJson(carrier)] else payload
  }

  /** The payload every target receives. */
  function Strip(stored: Payload): Payload {
    stored - {TRACE_CARRIER_KEY}
  }

  /** The trace context the relay publishes under: the stored one, if any. */
  function Restored(stored: Payload): Option<Json> {
    if TRACE_CARRIER_KEY in stored then Some(stored[TRACE_CARRIER_KEY]) else None
  }

  /** The round trip is the identity on exactly the payloads that leave the
      reserved key alone, with or without an active trace. */
  lemma RoundTripIffKeyUnused(payload: Payload, carrier: Carrier)
    ensures Strip(Wrap(payload, carrier)) == payload <==> "_trace" !in payload
    ensures forall k :: k in payload && k != "_trace" ==>
              k in Strip(Wrap(payload, carrier)) && Strip(Wrap(payload, carrier))[k] == payload[k]
  {
    if TRACE_CARRIER_KEY in payload {
      assert TRACE_CARRIER_KEY !in Strip(Wrap(payload, carrier));
    } else {
      assert Strip(Wrap(payload, carrier)) == payload;
    }
  }

  /** The consumer joins the producer's trace when there was one, and no two
      trace contexts are confused on the way. */
  lemma TraceSurvives(payload: Payload, c1: Carrier, c2: Carrier)
    requires TRACE_CARRIER_KEY !in payload
    ensures Restored(Wrap(payload, c1)) == if c1 == map[] then None else Some(CarrierJson(c1))
    ensures Wrap(payload, c1) == Wrap(payload, c2) ==> c1 == c2
  {
    assert c1.Keys == {} <==> c1 == map[];
    assert c2.Keys == {} <==> c2 == map[];
    if Wrap(payload, c1) == Wrap(payload, c2) && c1 != map[] {
      assert TRACE_CARRIER_KEY in Wrap(payload, c2);
      assert Wrap(payload, c1)[TRACE_CARRIER_KEY] == Wrap(payload, c2)[TRACE_CARRIER_KEY];
      CarrierInjective(c1, c2);
    }
  }

  lemma CarrierInjective(c1: Carrier, c2: Carrier)
    requires CarrierJson(c1) == CarrierJson(c2)
    ensures c1 == c2
  {
    var f1, f2 := CarrierJson(c1).fields, CarrierJson(c2).fields;
    assert c1.Keys == f1.Keys == f2.Keys == c2.Keys;
    forall k | k in c1 ensures c1[k] == c2[k] {
      assert f1[k] == JStr(c1[k]) && f2[k] == JStr(c2[k]);
    }
  }
}
