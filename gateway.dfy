/** The gateway's state and handlers: the cached robot status, the envelopes
    handed to the websocket, the connection's open and message handlers, and
    the decision logic of the /basic/state, /basic/moveTo, /basic/move and
    /basic/suction endpoints. The socket is its outbox; an HTTP reply is a
    returned value; a reply deferred with setTimeout carries its delay. */
module Gateway {
  import opened Js
  import opened Envelopes
  import Estimator

  const StatusTopic := "/jetmax/status"
  const SpeedCommandTopic := "/jetmax/speed_command"
  const RelativeCommandTopic := "/jetmax/relative_command"
  const SuckerCommandTopic := "/jetmax/end_effector/sucker/command"

  const MissingMsg := "Error, missing msg parameter."
  const MoveToDone := "/basic/moveTo endpoint completed successfully"
  const MoveDone := "/basic/move endpoint completed successfully"
  const SuctionDone := "/basic/suction endpoint completed successfully"

  /** An HTTP reply: sent at once, sent after a delay in milliseconds (None
      is a NaN delay), or Express's error answer to a handler that threw. */
  datatype Reply =
    | Immediate(body: string)
    | Delayed(delayMs: Option<real>, body: string)
    | ServerError

  /** The four envelopes the open handler sends, in order: the status
      subscription, then one advertisement per command topic. */
  function OpenSequence(): seq<Envelope>
  {
    [ SubscribeData("subscribe:/jetmaxState", StatusTopic, "jetmax_control/JetMax", "none", 0, 0),
      AdvertiseData("advertise:/moveTo", SpeedCommandTopic, "jetmax/SetJetMax", false, 100),
      AdvertiseData("advertise:/move", RelativeCommandTopic, "jetmax/SetJetMax", false, 100),
      AdvertiseData("advertise:/suction", SuckerCommandTopic, "std_msgs/Bool", false, 100) ]
  }

  /** The open sequence subscribes to the status topic first and then
      advertises every topic an endpoint publishes on, each unlatched with a
      queue of 100. */
  lemma OpenSequenceShape()
    ensures |OpenSequence()| == 4
    ensures OpenSequence()[0].Subscribe? && OpenSequence()[0].topic == StatusTopic
    ensures OpenSequence()[0].Op() == "subscribe"
    ensures forall i :: 1 <= i < 4 ==>
              OpenSequence()[i].Op() == "advertise"
              && !OpenSequence()[i].latch && OpenSequence()[i].queueSize == 100
    ensures OpenSequence()[1].topic == SpeedCommandTopic && OpenSequence()[2].topic == RelativeCommandTopic
            && OpenSequence()[3].topic == SuckerCommandTopic
    ensures AdvertisedTopics(OpenSequence()) == {SpeedCommandTopic, RelativeCommandTopic, SuckerCommandTopic}
  {
    var s := OpenSequence();
    assert s[1].topic == SpeedCommandTopic && s[2].topic == RelativeCommandTopic && s[3].topic == SuckerCommandTopic;
    assert s[0] in s && s[1] in s && s[2] in s && s[3] in s;
  }

  /** The topics a run of envelopes advertises. */
  function AdvertisedTopics(s: seq<Envelope>): set<string>
  {
    set e | e in s && e.Advertise? :: e.topic
  }

  /** Whether an inbound frame carries the robot's status. */
  predicate IsStatusFrame(frame: Json)
  {
    frame.JObj? && Lookup(frame.fields, "topic") == Some(JStr(StatusTopic))
  }

  /** The cache after the message handler has seen one inbound frame: a
      status frame replaces it wholesale with the frame's `msg` (undefined
      when absent); any other frame leaves it as it was. */
  function AfterMessage(cache: Option<Json>, frame: Json): Option<Json>
  {
    if IsStatusFrame(frame) then Lookup(frame.fields, "msg") else cache
  }

  /** The cache after a run of inbound frames, handled in order. */
  function Replay(cache: Option<Json>, frames: seq<Json>): Option<Json>
    decreases |frames|
  {
    if frames == [] then cache
    else AfterMessage(Replay(cache, frames[..|frames| - 1]), frames[|frames| - 1])
  }

  /** Frames on other topics never touch the cache. */
  lemma {:induction false} ReplayIgnoresOtherTopics(cache: Option<Json>, frames: seq<Json>)
    requires forall j :: 0 <= j < |frames| ==> !IsStatusFrame(frames[j])
    ensures Replay(cache, frames) == cache
  {
    if frames != [] {
      ReplayIgnoresOtherTopics(cache, frames[..|frames| - 1]);
    }
  }

  /** The cache holds the payload of the latest status frame: no merge and no
      history. */
  lemma {:induction false} ReplayKeepsLatestStatus(cache: Option<Json>, frames: seq<Json>, i: nat)
    requires i < |frames| && IsStatusFrame(frames[i])
    requires forall j :: i < j < |frames| ==> !IsStatusFrame(frames[j])
    ensures Replay(cache, frames) == Lookup(frames[i].fields, "msg")
  {
    if i < |frames| - 1 {
      ReplayKeepsLatestStatus(cache, frames[..|frames| - 1], i);
    }
  }

  /** The reply an endpoint defers with setTimeout: a delay that throws while
      being computed turns into Express's error answer. */
  function ReplyAfter(delay: Eval<Option<real>>, body: string): Reply
  {
    match delay
    case Value(ms) => Delayed(ms, body)
    case TypeError => ServerError
  }

  /** The process-wide state of the gateway: `jetmaxState` and the
      connection to the bridge. */
  class Server {
    /** The last status payload; None is undefined. */
    var cache: Option<Json>
    /** Every envelope passed to ws.send, oldest first. */
    var outbox: seq<Envelope>
    /** Math.sqrt. */
    const sqrt: real -> real
    /** config.relativeMoveSpeed. */
    const relativeMoveSpeed: real
    /** config.absoluteMoveSpeedDefault, sent as the duration of absolute moves. */
    const absoluteMoveDuration: real

    /** Process start: the cache is the empty object and nothing is sent. */
    constructor (sqrt: real -> real, relativeMoveSpeed: real, absoluteMoveDuration: real)
      ensures cache == Some(JObj(map[])) && outbox == []
      ensures this.sqrt == sqrt && this.relativeMoveSpeed == relativeMoveSpeed
      ensures this.absoluteMoveDuration == absoluteMoveDuration
    {
      this.sqrt := sqrt;
      this.relativeMoveSpeed := relativeMoveSpeed;
      this.absoluteMoveDuration := absoluteMoveDuration;
      cache := Some(JObj(map[]));
      outbox := [];
    }

    /** The `open` handler. */
    method OnOpen()
      modifies this`outbox
      ensures outbox == old(outbox) + OpenSequence()
    {
      outbox := outbox + [SubscribeData("subscribe:/jetmaxState", StatusTopic, "jetmax_control/JetMax", "none", 0, 0)];
      outbox := outbox + [AdvertiseData("advertise:/moveTo", SpeedCommandTopic, "jetmax/SetJetMax", false, 100)];
      outbox := outbox + [AdvertiseData("advertise:/move", RelativeCommandTopic, "jetmax/SetJetMax", false, 100)];
      outbox := outbox + [AdvertiseData("advertise:/suction", SuckerCommandTopic, "std_msgs/Bool", false, 100)];
    }

    /** The `message` handler, for a frame already parsed. */
    method OnMessage(frame: Json)
      modifies this`cache
      ensures cache == AfterMessage(old(cache), frame)
      ensures IsStatusFrame(frame) ==> cache == Lookup(frame.fields, "msg")
      ensures !IsStatusFrame(frame) ==> cache == old(cache)
    {
      if frame.JObj? && Lookup(frame.fields, "topic") == Some(JStr(StatusTopic)) {
        cache := Lookup(frame.fields, "msg");
      } else if frame.JObj? && Lookup(frame.fields, "topic") == Some(JStr("/usb_cam/image_rect_color")) {
        // images are not stored
      }
    }

    /** GET /basic/state: the cache, unchanged, and nothing sent. */
    method GetState() returns (reply: Option<Json>)
      ensures reply == cache
    {
      reply := cache;
    }

    /** GET /basic/moveTo?msg=...: an absolute move. `query` is the parsed
        msg parameter, None when it is missing. */
    method MoveTo(query: Option<Fields>) returns (reply: Reply)
      modifies this`outbox
      ensures query.None? ==> outbox == old(outbox) && reply == Immediate(MissingMsg)
      ensures query.Some? ==>
        var msg := query.value["duration" := JNum(absoluteMoveDuration)];
        outbox == old(outbox) + [PublishData("publish:/moveTo", SpeedCommandTopic, JObj(msg), false)]
        && reply == ReplyAfter(Estimator.TimeoutMillis(sqrt, msg, cache), MoveToDone)
    {
      if query.None? {
        reply := Immediate(MissingMsg);
      } else {
        var msg := query.value;
        msg := msg["duration" := JNum(absoluteMoveDuration)];
        outbox := outbox + [PublishData("publish:/moveTo", SpeedCommandTopic, JObj(msg), false)];
        reply := ReplyAfter(Estimator.TimeoutMillis(sqrt, msg, cache), MoveToDone);
      }
    }

    /** GET /basic/move?msg=...: a relative move, its duration computed from
        its z (a NaN duration is serialised as null). */
    method Move(query: Option<Fields>) returns (reply: Reply)
      requires relativeMoveSpeed > 0.0
      modifies this`outbox
      ensures query.None? ==> outbox == old(outbox) && reply == Immediate(MissingMsg)
      ensures query.Some? ==>
        var msg := query.value["duration" := NumberToJson(Estimator.Duration(query.value, relativeMoveSpeed))];
        outbox == old(outbox) + [PublishData("publish:/moveTo", RelativeCommandTopic, JObj(msg), false)]
        && reply == ReplyAfter(Estimator.TimeoutMillis(sqrt, msg, cache), MoveDone)
    {
      if query.None? {
        reply := Immediate(MissingMsg);
      } else {
        var msg := query.value;
        msg := msg["duration" := NumberToJson(Estimator.Duration(msg, relativeMoveSpeed))];
        outbox := outbox + [PublishData("publish:/moveTo", RelativeCommandTopic, JObj(msg), false)];
        reply := ReplyAfter(Estimator.TimeoutMillis(sqrt, msg, cache), MoveDone);
      }
    }

    /** GET /basic/suction?msg=...: the payload is published as it is and the
        reply is not delayed. */
    method Suction(query: Option<Fields>) returns (reply: Reply)
      modifies this`outbox
      ensures query.None? ==> outbox == old(outbox) && reply == Immediate(MissingMsg)
      ensures query.Some? ==>
        outbox == old(outbox) + [PublishData("publish:/suction", SuckerCommandTopic, JObj(query.value), false)]
        && reply == Immediate(SuctionDone)
    {
      if query.None? {
        reply := Immediate(MissingMsg);
      } else {
        var msg := query.value;
        outbox := outbox + [PublishData("publish:/suction", SuckerCommandTopic, JObj(msg), false)];
        reply := Immediate(SuctionDone);
      }
    }
  }
}
