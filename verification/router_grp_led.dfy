/** The group router: the device router plus the LED group topic. Every
    message goes to the device router first; a message whose topic is exactly
    the agent's group topic is also handed to the agent's group buffer. */
module RouterGrpLed {
  import opened Base
  import opened LedCommon
  import RouterLed
  import Topics

  /** The device router it extends, and the attached agent's group topic
      (absent when the agent could not allocate it). */
  datatype GrpRouter = GrpRouter(base: RouterLed.Router, grpTopic: Option<string>)

  /** What the source reads without a check: the agent (for its group topic)
      and the group topic itself. */
  predicate Ready(g: GrpRouter) {
    g.base.hasAgent && g.grpTopic.Some?
  }

  /** `subscribe`: the device router's subscription, then the group topic at QoS 1. */
  function Subscribe(g: GrpRouter, id: string, alloc: bool): (s: (GrpRouter, seq<Subscription>))
    requires Ready(g)
    ensures var b := RouterLed.Subscribe(g.base, id, alloc);
      && s.0 == g.(base := b.router)
      && s.1 == b.subs + [Subscription(g.grpTopic.value, 1)]
  {
    var b := RouterLed.Subscribe(g.base, id, alloc);
    (g.(base := b.router), b.subs + [Subscription(g.grpTopic.value, 1)])
  }

  /** On a router that has not yet built its device topic, a subscribe with
      the topic's storage available asks for exactly two subscriptions: the
      device request topic, then the group topic, both at QoS 1. */
  lemma SubscribeDeviceThenGroup(g: GrpRouter, id: string)
    requires Ready(g) && g.base.topic.None?
    ensures Subscribe(g, id, true).1 ==
      [Subscription(Topics.ThingTopic(id, LED_REQ_SUFFIX), 1), Subscription(g.grpTopic.value, 1)]
  {
  }

  /** `memcmp` over the first `n` characters: zero exactly when they agree. */
  function MemEq(a: string, b: string, n: nat): (r: bool)
    requires n <= |a| && n <= |b|
    ensures r <==> a[..n] == b[..n]
    decreases n
  {
    if n == 0 then true
    else
      var eq := MemEq(a, b, n - 1);
      assert a[..n] == a[..n - 1] + [a[n - 1]];
      assert b[..n] == b[..n - 1] + [b[n - 1]];
      eq && a[n - 1] == b[n - 1]
  }

  /** The group test: the lengths agree and so do all the bytes. */
  function IsGroupTopic(topic: string, grp: string): (r: bool)
    ensures r <==> topic == grp
  {
    |grp| == |topic| && MemEq(topic, grp, |topic|)
  }

  /** `route`: the device router's delivery, then a group delivery of the same
      payload exactly when the topic is the group topic. */
  function Route(g: GrpRouter, topic: string, payload: seq<byte>): (d: seq<Delivery>)
    requires Ready(g)
    ensures |d| == 1 + (if topic == g.grpTopic.value then 1 else 0)
    ensures d[..1] == RouterLed.Route(g.base, topic, payload)
    ensures (ToGroup(payload) in d) <==> topic == g.grpTopic.value
    ensures topic == g.grpTopic.value ==> d[1] == ToGroup(payload)
  {
    var grp := if IsGroupTopic(topic, g.grpTopic.value) then [ToGroup(payload)] else [];
    RouterLed.Route(g.base, topic, payload) + grp
  }

  /** A message on the group topic reaches both of the agent's buffers, the
      device buffer first; a message on any device topic never reaches the
      group buffer. */
  lemma GroupMessageReachesBoth(g: GrpRouter, payload: seq<byte>, id: string, suffix: string)
    requires Ready(g) && g.grpTopic.value == LedGroupTopic()
    ensures Route(g, LedGroupTopic(), payload) == [ToDevice(payload), ToGroup(payload)]
    ensures ToGroup(payload) !in Route(g, Topics.ThingTopic(id, suffix), payload)
  {
    Topics.ThingTopicIsNotGroupTopic(id, suffix, LED_GROUP, LED_GROUP_REQ);
    var d := Route(g, LedGroupTopic(), payload);
    assert d[..1] == [ToDevice(payload)];
  }
}
