/** The four rosbridge v2.0 operations the gateway builds ("advertise",
    "publish", "subscribe" and "call_service"), their JSON wire form, and the
    decoding of that wire form back into an envelope. */
module Envelopes {
  import opened Js

  datatype Envelope =
    | Subscribe(id: string, topic: string, msgType: string, compression: string,
                throttleRate: int, queueLength: int)
    | Advertise(id: string, topic: string, msgType: string, latch: bool, queueSize: int)
    | Publish(id: string, topic: string, msg: Json, latch: bool)
    | CallService(id: string, service: string, msgType: string, args: Json)
  {
    /** The `op` tag the envelope carries on the wire. */
    function Op(): string
    {
      match this
      case Subscribe(_, _, _, _, _, _) => "subscribe"
      case Advertise(_, _, _, _, _) => "advertise"
      case Publish(_, _, _, _) => "publish"
      case CallService(_, _, _, _) => "call_service"
    }
  }

  /** The keys of each operation's wire object, `op` included. */
  function WireKeys(op: string): set<string>
  {
    match op
    case "subscribe" => {"op", "id", "topic", "type", "compression", "throttle_rate", "queue_length"}
    case "advertise" => {"op", "id", "topic", "type", "latch", "queue_size"}
    case "publish" => {"op", "id", "topic", "msg", "latch"}
    case "call_service" => {"op", "id", "service", "type", "args"}
    case _ => {}
  }

  /** The object JSON.stringify serialises: one property per field, named as
      the rosbridge protocol names it. */
  function Wire(e: Envelope): (j: Json)
    ensures j.JObj? && j.fields.Keys == WireKeys(e.Op())
    ensures j.fields["op"] == JStr(e.Op()) && j.fields["id"] == JStr(e.id)
  {
    match e
    case Subscribe(id, topic, msgType, compression, throttleRate, queueLength) =>
      JObj(map["op" := JStr("subscribe"), "id" := JStr(id), "topic" := JStr(topic),
               "type" := JStr(msgType), "compression" := JStr(compression),
               "throttle_rate" := JNum(throttleRate as real),
               "queue_length" := JNum(queueLength as real)])
    case Advertise(id, topic, msgType, latch, queueSize) =>
      JObj(map["op" := JStr("advertise"), "id" := JStr(id), "topic" := JStr(topic),
               "type" := JStr(msgType), "latch" := JBool(latch),
               "queue_size" := JNum(queueSize as real)])
    case Publish(id, topic, msg, latch) =>
      JObj(map["op" := JStr("publish"), "id" := JStr(id), "topic" := JStr(topic),
               "msg" := msg, "latch" := JBool(latch)])
    case CallService(id, service, msgType, args) =>
      JObj(map["op" := JStr("call_service"), "id" := JStr(id), "service" := JStr(service),
               "type" := JStr(msgType), "args" := args])
  }

  predicate IsStr(j: Json) { j.JStr? }
  predicate IsBool(j: Json) { j.JBool? }
  predicate IsInt(j: Json) { j.JNum? && j.n.Floor as real == j.n }

  /** Reads a wire object back: Some exactly when it has the key set of its
      `op` and every field has the type the envelope gives it. */
  function FromWire(j: Json): Option<Envelope>
  {
    match j
    case JObj(f) =>
      if "op" !in f || !f["op"].JStr? || f.Keys != WireKeys(f["op"].s) then None
      else if f["op"].s == "subscribe" then
        if IsStr(f["id"]) && IsStr(f["topic"]) && IsStr(f["type"]) && IsStr(f["compression"])
           && IsInt(f["throttle_rate"]) && IsInt(f["queue_length"])
        then Some(Subscribe(f["id"].s, f["topic"].s, f["type"].s, f["compression"].s,
                            f["throttle_rate"].n.Floor, f["queue_length"].n.Floor))
        else None
      else if f["op"].s == "advertise" then
        if IsStr(f["id"]) && IsStr(f["topic"]) && IsStr(f["type"]) && IsBool(f["latch"])
           && IsInt(f["queue_size"])
        then Some(Advertise(f["id"].s, f["topic"].s, f["type"].s, f["latch"].b,
                            f["queue_size"].n.Floor))
        else None
      else if f["op"].s == "publish" then
        if IsStr(f["id"]) && IsStr(f["topic"]) && IsBool(f["latch"])
        then Some(Publish(f["id"].s, f["topic"].s, f["msg"], f["latch"].b))
        else None
      else if f["op"].s == "call_service" then
        if IsStr(f["id"]) && IsStr(f["service"]) && IsStr(f["type"])
        then Some(CallService(f["id"].s, f["service"].s, f["type"].s, f["args"]))
        else None
      else None
    case _ => None
  }

  /** Every envelope survives serialisation: the receiving bridge recovers
      it from its wire object. */
  lemma {:induction false} FromWireOfWire(e: Envelope)
    ensures FromWire(Wire(e)) == Some(e)
  {
  }

  /** Conversely, a wire object that decodes is exactly the wire form of what
      it decodes to: no property is added or dropped. */
  lemma {:induction false} WireOfFromWire(j: Json, e: Envelope)
    requires FromWire(j) == Some(e)
    ensures Wire(e) == j
  {
  }

  /** subscribeData: a "subscribe" envelope (section 3.4.4 of the rosbridge
      v2.0 protocol) carrying its six arguments and nothing else. */
  function SubscribeData(id: string, topic: string, msgType: string, compression: string,
                         throttleRate: int, queueLength: int): (e: Envelope)
    ensures Wire(e) == JObj(map["op" := JStr("subscribe"), "id" := JStr(id),
                                "topic" := JStr(topic), "type" := JStr(msgType),
                                "compression" := JStr(compression),
                                "throttle_rate" := JNum(throttleRate as real),
                                "queue_length" := JNum(queueLength as real)])
  {
    Subscribe(id, topic, msgType, compression, throttleRate, queueLength)
  }

  /** advertiseData: an "advertise" envelope (section 3.4.1 of the rosbridge v2.0 protocol). */
  function AdvertiseData(id: string, topic: string, msgType: string, latch: bool,
                         queueSize: int): (e: Envelope)
    ensures Wire(e) == JObj(map["op" := JStr("advertise"), "id" := JStr(id),
                                "topic" := JStr(topic), "type" := JStr(msgType),
                                "latch" := JBool(latch),
                                "queue_size" := JNum(queueSize as real)])
  {
    Advertise(id, topic, msgType, latch, queueSize)
  }

  /** publishData: a "publish" envelope (section 3.4.3 of the rosbridge
      v2.0 protocol); the payload is carried as it is. */
  function PublishData(id: string, topic: string, msg: Json, latch: bool): (e: Envelope)
    ensures Wire(e) == JObj(map["op" := JStr("publish"), "id" := JStr(id),
                                "topic" := JStr(topic), "msg" := msg,
                                "latch" := JBool(latch)])
  {
    Publish(id, topic, msg, latch)
  }

  /** callServiceData: a "call_service" envelope (section 3.5.1 of the rosbridge v2.0 protocol). */
  function CallServiceData(id: string, service: string, msgType: string, args: Json): (e: Envelope)
    ensures Wire(e) == JObj(map["op" := JStr("call_service"), "id" := JStr(id),
                                "service" := JStr(service), "type" := JStr(msgType),
                                "args" := args])
  {
    CallService(id, service, msgType, args)
  }
}
