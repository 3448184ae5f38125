/** How the LED routers' subscriptions reach the MQTT agent: a router's
    `subscribe` calls the agent's `subToTopic` once for every subscription it
    asks for, so entering Online with a router attached queues the online
    announcement and then one subscribe command per router subscription. */
module Wiring {
  import opened Base
  import opened MqttAgentDefs
  import opened LedCommon
  import MqttAgent
  import RouterLed
  import RouterGrpLed
  import Topics

  /** The (filter, QoS) pairs a router's subscriptions hand to `subToTopic`. */
  function Requests(subs: seq<Subscription>): (r: seq<(string, byte)>)
    requires forall i :: 0 <= i < |subs| ==> subs[i].qos < 0x100
    ensures |r| == |subs|
    ensures forall i :: 0 <= i < |r| ==> r[i].0 == subs[i].topic && r[i].1 == subs[i].qos
  {
    if subs == [] then [] else [(subs[0].topic, subs[0].qos as byte)] + Requests(subs[1..])
  }

  /** The MqttConned step with the device LED router attached, from a router
      that has not built its topic yet and with every allocation and enqueue
      succeeding: two commands are queued, the online announcement and the
      subscription to the device's `LED/req` topic. */
  lemma {:induction false} DeviceRouterOnlineEntryQueuesTwo(
    a: Agent, pub: MqttAgent.PubEnv, router: RouterLed.Router, id: string, envs: seq<MqttAgent.SubEnv>)
    requires a.onlineTopic.Some? && a.hasRouter
    requires pub.contextOk && pub.topicOk && pub.payloadOk && pub.accepted
    requires router.topic.None?
    requires |envs| == 1 && MqttAgent.Subscribed(envs[0])
    ensures var subs := Requests(RouterLed.Subscribe(router, id, true).subs);
      var r := MqttAgent.SubscribeEach(MqttAgent.EnterOnline(a, pub), subs, envs);
      && |r.inFlight| == |a.inFlight| + 2
      && r.inFlight[|a.inFlight|].PublishCmd?
      && MqttAgent.IsSubscription(r.inFlight[|a.inFlight| + 1], Topics.ThingTopic(id, LED_REQ_SUFFIX))
  {
    var subs := Requests(RouterLed.Subscribe(router, id, true).subs);
    MqttAgent.OnlineEntryWithRouter(a, pub, subs, envs);
    var r := MqttAgent.SubscribeEach(MqttAgent.EnterOnline(a, pub), subs, envs);
    assert MqttAgent.IsSubscription(r.inFlight[|a.inFlight| + 1 + 0], subs[0].0);
  }

  /** The same step with the group LED router attached: three commands are
      queued, the online announcement, the device's `LED/req` subscription and
      the group topic's subscription. */
  lemma {:induction false} GroupRouterOnlineEntryQueuesThree(
    a: Agent, pub: MqttAgent.PubEnv, g: RouterGrpLed.GrpRouter, id: string, envs: seq<MqttAgent.SubEnv>)
    requires a.onlineTopic.Some? && a.hasRouter
    requires pub.contextOk && pub.topicOk && pub.payloadOk && pub.accepted
    requires RouterGrpLed.Ready(g) && g.base.topic.None?
    requires |envs| == 2 && MqttAgent.Subscribed(envs[0]) && MqttAgent.Subscribed(envs[1])
    ensures var subs := Requests(RouterGrpLed.Subscribe(g, id, true).1);
      var r := MqttAgent.SubscribeEach(MqttAgent.EnterOnline(a, pub), subs, envs);
      && |r.inFlight| == |a.inFlight| + 3
      && r.inFlight[|a.inFlight|].PublishCmd?
      && MqttAgent.IsSubscription(r.inFlight[|a.inFlight| + 1], Topics.ThingTopic(id, LED_REQ_SUFFIX))
      && MqttAgent.IsSubscription(r.inFlight[|a.inFlight| + 2], g.grpTopic.value)
  {
    var subs := Requests(RouterGrpLed.Subscribe(g, id, true).1);
    RouterGrpLed.SubscribeDeviceThenGroup(g, id);
    MqttAgent.OnlineEntryWithRouter(a, pub, subs, envs);
    var r := MqttAgent.SubscribeEach(MqttAgent.EnterOnline(a, pub), subs, envs);
    assert MqttAgent.IsSubscription(r.inFlight[|a.inFlight| + 1 + 0], subs[0].0);
    assert MqttAgent.IsSubscription(r.inFlight[|a.inFlight| + 1 + 1], subs[1].0);
  }
}
