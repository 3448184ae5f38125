/** The device router of the subscribing LED project: it subscribes to the
    device's `LED/req` topic, building that topic on first use, and passes
    every inbound message on to the LED agent's device buffer. */
module RouterLed {
  import opened Base
  import opened LedCommon
  import Topics

  /** Whether an LED agent is attached, and the cached request topic. */
  datatype Router = Router(hasAgent: bool, topic: Option<string>)

  /** A new router holds the agent it was given and no topic yet. */
  function New(hasAgent: bool): (r: Router)
    ensures r.hasAgent == hasAgent && r.topic.None?
  {
    Router(hasAgent, None)
  }

  /** The router after subscribing, and the subscriptions it asked for. */
  datatype Subscribed = Subscribed(router: Router, subs: seq<Subscription>)

  /** `subscribe`: builds the request topic from the interface's id when there
      is none yet (`alloc` says whether its storage could be allocated), then
      subscribes to it at QoS 1 when it exists. */
  function Subscribe(r: Router, id: string, alloc: bool): (s: Subscribed)
    ensures s.router.hasAgent == r.hasAgent
    ensures r.topic.Some? ==> s.router.topic == r.topic
    ensures r.topic.None? ==>
      s.router.topic == (if alloc then Some(Topics.ThingTopic(id, LED_REQ_SUFFIX)) else None)
    ensures |s.subs| <= 1
    ensures |s.subs| == 1 <==> s.router.topic.Some?
    ensures |s.subs| == 1 ==> s.subs[0] == Subscription(s.router.topic.value, 1)
  {
    var topic := if r.topic.None? && alloc then Some(Topics.ThingTopic(id, LED_REQ_SUFFIX)) else r.topic;
    Subscribed(r.(topic := topic), if topic.Some? then [Subscription(topic.value, 1)] else [])
  }

  /** The topic is built once: after a subscribe that built it, later
      subscribes, whatever id and allocator they see, keep it and subscribe to
      it again, exactly once each. */
  lemma TopicBuiltOnce(r: Router, id: string, alloc: bool, laterId: string, laterAlloc: bool)
    requires Subscribe(r, id, alloc).router.topic.Some?
    ensures var first := Subscribe(r, id, alloc);
      var second := Subscribe(first.router, laterId, laterAlloc);
      second.router == first.router && second.subs == first.subs
  {
  }

  /** `route`: hands the payload, unchanged, to the agent's device buffer
      when an agent is attached; nothing happens without one. */
  function Route(r: Router, topic: string, payload: seq<byte>): (d: seq<Delivery>)
    ensures |d| == (if r.hasAgent then 1 else 0)
    ensures forall x :: x in d ==> x == ToDevice(payload)
  {
    if r.hasAgent then [ToDevice(payload)] else []
  }

  /** Routing does not look at the topic. */
  lemma RouteIgnoresTopic(r: Router, t1: string, t2: string, payload: seq<byte>)
    ensures Route(r, t1, payload) == Route(r, t2, payload)
  {
    var d1, d2 := Route(r, t1, payload), Route(r, t2, payload);
    if r.hasAgent {
      assert d1[0] == d2[0];
    }
  }
}
