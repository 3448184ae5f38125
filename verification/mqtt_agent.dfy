/** The MQTT agent's operations: one iteration of its task loop as a pure
    step, the state setter with its reconnect hop, the configuration calls,
    and the publish/subscribe command builders with their completion
    callbacks.

    What the network, the Wi-Fi driver and the MQTT library answer is not
    computed here: each answer is an input of the operation that asks. */
module MqttAgent {
  import opened Base
  import opened MqttAgentDefs
  import Topics

  // ---------------------------------------------------------------------
  // Observer notifications and the state setter

  /** The observer call that entering a state produces, independent of the
      reconnect hop: Offline and Online are announced, the others are silent. */
  function Announcement(s: MqttState): seq<Event> {
    match s
    case Offline => [ObserverOffline]
    case Online => [ObserverOnline]
    case _ => []
  }

  /** Appends `es` to the trace. */
  function Emit(a: Agent, es: seq<Event>): (r: Agent)
    ensures r.trace == a.trace + es
    ensures r.(trace := a.trace) == a
  {
    a.(trace := a.trace + es)
  }

  /** Sets the connection state. With an observer attached, entering Offline
      or Online is announced, and entering Offline with the reconnect flag set
      moves on to MqttRecon. With no observer attached nothing is announced and
      the reconnect hop does not happen either. */
  function SetConnState(a: Agent, s: MqttState): (r: Agent)
    ensures r.state == (if s == Offline && a.hasObserver && a.recon then MqttRecon else s)
    ensures r.trace == a.trace + (if a.hasObserver then Announcement(s) else [])
    ensures r.(state := a.state, trace := a.trace) == a
    decreases if s == Offline then 1 else 0
  {
    var a1 := a.(state := s);
    if !a1.hasObserver then a1
    else
      match s
      case Offline =>
        var a2 := Emit(a1, [ObserverOffline]);
        if a2.recon then SetConnState(a2, MqttRecon) else a2
      case Online => Emit(a1, [ObserverOnline])
      case _ => a1
  }

  /** Going Offline fires the offline notification once when an observer is
      attached, and then rests in MqttRecon exactly when the reconnect flag is
      set; with no observer it stays Offline and fires nothing, whatever the flag. */
  lemma SetOfflineNotifiesOnce(a: Agent)
    ensures var r := SetConnState(a, Offline);
      && |r.trace| >= |a.trace| && r.trace[..|a.trace|] == a.trace
      && Count(r.trace[|a.trace|..], ObserverOffline) == (if a.hasObserver then 1 else 0)
      && (a.hasObserver ==> (r.state == MqttRecon <==> a.recon))
      && (a.hasObserver ==> (r.state == Offline <==> !a.recon))
      && (!a.hasObserver ==> r.state == Offline && r.trace == a.trace)
  {
    var r := SetConnState(a, Offline);
    assert r.trace[|a.trace|..] == (if a.hasObserver then [ObserverOffline] else []);
  }

  // ---------------------------------------------------------------------
  // Configuration

  /** Stores the credentials, the client id defaulting to the user name, and
      builds the two lifecycle topics from that id unless they already exist.
      `willAlloc` and `onlineAlloc` say whether the heap supplied the topics' storage. */
  function SetCredentials(a: Agent, user: string, password: string, id: Option<string>,
                          willAlloc: bool, onlineAlloc: bool): (r: Agent)
    ensures r.creds == Some(Credentials(user, password, id.GetOr(user)))
    ensures a.willTopic.Some? ==> r.willTopic == a.willTopic
    ensures a.willTopic.None? ==>
      r.willTopic == (if willAlloc then Some(Topics.LifeCycleTopic(id.GetOr(user), Topics.LifeCycleOffline)) else None)
    ensures a.onlineTopic.Some? ==> r.onlineTopic == a.onlineTopic
    ensures a.onlineTopic.None? ==>
      r.onlineTopic == (if onlineAlloc then Some(Topics.LifeCycleTopic(id.GetOr(user), Topics.LifeCycleOnline)) else None)
    ensures r.(creds := a.creds, willTopic := a.willTopic, onlineTopic := a.onlineTopic) == a
  {
    var cid := if id.Some? then id.value else user;
    var will := if a.willTopic.None? && willAlloc
      then Some(Topics.LifeCycleTopic(cid, Topics.LifeCycleOffline)) else a.willTopic;
    var online := if a.onlineTopic.None? && onlineAlloc
      then Some(Topics.LifeCycleTopic(cid, Topics.LifeCycleOnline)) else a.onlineTopic;
    a.(creds := Some(Credentials(user, password, cid)), willTopic := will, onlineTopic := online)
  }

  /** The outcome of a call that reports success as a boolean. */
  datatype Sent = Sent(agent: Agent, ok: bool)

  /** Records the broker endpoint and the reconnect flag and requests a TCP
      connection. Nothing is opened here: the connection is made later by the
      task loop. */
  function MqttConnectRequest(a: Agent, target: string, port: uint16, recon: bool): (r: Sent)
    ensures r.ok
    ensures r.agent.state == TcpReq
    ensures r.agent.target == Some(target) && r.agent.port == port && r.agent.recon == recon
    ensures r.agent.trace == a.trace
    ensures r.agent.(state := a.state, target := a.target, port := a.port, recon := a.recon) == a
  {
    Sent(SetConnState(a.(target := Some(target), port := port, recon := recon), TcpReq), true)
  }

  /** Attaches or detaches the observer. */
  function SetObserver(a: Agent, attached: bool): (r: Agent)
    ensures r.hasObserver == attached && r.(hasObserver := a.hasObserver) == a
  {
    a.(hasObserver := attached)
  }

  /** Fills the router slot; when already Online, the new router is asked to
      subscribe at once. Clearing the slot while Online dereferences the null
      router, so the source requires a router in that case. */
  function SetRouter(a: Agent, attached: bool): (r: Agent)
    requires attached || a.state != Online
    ensures r.hasRouter == attached
    ensures r.trace == a.trace + (if a.state == Online then [RouterSubscribe] else [])
    ensures r.(hasRouter := a.hasRouter, trace := a.trace) == a
  {
    var a1 := a.(hasRouter := attached);
    if a.state == Online then Emit(a1, [RouterSubscribe]) else a1
  }

  /** Hands an inbound message to the router, if one is attached, then tells
      the observer, if one is attached. */
  function Route(a: Agent, topic: string, payload: seq<byte>): (r: Agent)
    ensures |r.trace| >= |a.trace| && r.trace[..|a.trace|] == a.trace
    ensures RouterRoute(topic, payload) in r.trace[|a.trace|..] <==> a.hasRouter
    ensures Count(r.trace[|a.trace|..], ObserverRecv) == (if a.hasObserver then 1 else 0)
    ensures a.hasRouter ==> r.trace[|a.trace|] == RouterRoute(topic, payload)
    ensures r.(trace := a.trace) == a
  {
    var routed := if a.hasRouter then [RouterRoute(topic, payload)] else [];
    var noted := if a.hasObserver then [ObserverRecv] else [];
    var r := Emit(a, routed + noted);
    assert r.trace[|a.trace|..] == routed + noted;
    r
  }

  // ---------------------------------------------------------------------
  // Command construction

  /** Whether each heap allocation a publish makes succeeds, in the order the
      source makes them, and whether the command queue accepts the command. */
  datatype PubEnv = PubEnv(contextOk: bool, topicOk: bool, payloadOk: bool, accepted: bool)

  /** Whether each heap allocation a subscribe makes succeeds, in source
      order, and whether the command queue accepts the command. */
  datatype SubEnv = SubEnv(infoOk: bool, argsOk: bool, contextOk: bool, accepted: bool)

  /** Allocates one heap block, numbered `a.nextBlock`. */
  function Alloc(a: Agent): (r: Agent)
    ensures r.live == a.live + multiset{a.nextBlock} && r.nextBlock == a.nextBlock + 1
    ensures r.(live := a.live, nextBlock := a.nextBlock) == a
  {
    a.(live := a.live + multiset{a.nextBlock}, nextBlock := a.nextBlock + 1)
  }

  /** The queue has taken `cmd`: it is in flight, and the observer hears of a send. */
  function Accept(a: Agent, cmd: Command): (r: Agent)
    ensures r.inFlight == a.inFlight + [cmd]
    ensures r.trace == a.trace + [Enqueue(cmd)] + (if a.hasObserver then [ObserverSend] else [])
    ensures r.(inFlight := a.inFlight, trace := a.trace) == a
  {
    Emit(a.(inFlight := a.inFlight + [cmd]), [Enqueue(cmd)] + (if a.hasObserver then [ObserverSend] else []))
  }

  /** Three fresh blocks allocated for `cmd`, which owns exactly them, and
      `cmd` accepted by the queue. */
  function Enqueued(a: Agent, cmd: Command): (r: Agent)
    requires Blocks(cmd) == multiset{a.nextBlock, a.nextBlock + 1, a.nextBlock + 2}
    ensures SameSettings(a, r)
    ensures r.inFlight == a.inFlight + [cmd]
    ensures r.live == a.live + Blocks(cmd)
    ensures r.nextBlock == a.nextBlock + 3
    ensures r.trace == a.trace + [Enqueue(cmd)] + (if a.hasObserver then [ObserverSend] else [])
  {
    var n := a.nextBlock;
    a.(live := a.live + multiset{n, n + 1, n + 2}, nextBlock := n + 3,
       inFlight := a.inFlight + [cmd],
       trace := a.trace + [Enqueue(cmd)] + (if a.hasObserver then [ObserverSend] else []))
  }

  /** The publish command built from blocks numbered from `n`: copies of the
      topic and of the first `payloadLen` payload bytes, always at QoS 1. */
  function PublishCommand(n: nat, topic: string, payload: seq<byte>, payloadLen: nat, retain: bool): Command
    requires payloadLen <= |payload|
  {
    PublishCmd(n, n + 1, n + 2, topic, payload[..payloadLen], QoS1, retain)
  }

  /** `pubToTopic` exactly as the source writes it: each allocation failure
      returns false at once, and so does a refused enqueue, without freeing
      the blocks already allocated. The QoS argument is not used. */
  function PubToTopicAsWritten(a: Agent, topic: string, payload: seq<byte>, payloadLen: nat,
                               qos: byte, retain: bool, env: PubEnv): (r: Sent)
    requires payloadLen <= |payload|
    ensures r.ok <==> env.contextOk && env.topicOk && env.payloadOk && env.accepted
    ensures r.agent.inFlight == a.inFlight + (if r.ok then [PublishCommand(a.nextBlock, topic, payload, payloadLen, retain)] else [])
  {
    if !env.contextOk then Sent(a, false)
    else
      var a1 := Alloc(a);
      if !env.topicOk then Sent(a1, false)
      else
        var a2 := Alloc(a1);
        if !env.payloadOk then Sent(a2, false)
        else
          var a3 := Alloc(a2);
          if !env.accepted then Sent(a3, false)
          else Sent(Accept(a3, PublishCommand(a.nextBlock, topic, payload, payloadLen, retain)), true)
  }

  /** On a refused enqueue the as-written publish keeps all three blocks live
      with no command left to free them: the ledger no longer balances. */
  lemma PubToTopicAsWrittenLeaks(a: Agent, topic: string, payload: seq<byte>, retain: bool)
    requires LedgerOk(a)
    ensures var r := PubToTopicAsWritten(a, topic, payload, |payload|, 1, retain, PubEnv(true, true, true, false));
      && !r.ok
      && r.agent.inFlight == a.inFlight
      && |r.agent.live| == |a.live| + 3
      && !LedgerOk(r.agent)
  {
  }

  /** `pubToTopic` with its leak repaired: on any failure it releases what it
      allocated, so the agent is left as it was. On success the queued command
      holds copies of the topic and of the first `payloadLen` payload bytes, is
      at QoS 1 whatever QoS was asked for, and owns three fresh blocks; the
      observer hears of the send only on success. */
  function PubToTopic(a: Agent, topic: string, payload: seq<byte>, payloadLen: nat,
                      qos: byte, retain: bool, env: PubEnv): (r: Sent)
    requires payloadLen <= |payload|
    ensures |r.agent.trace| >= |a.trace| && r.agent.trace[..|a.trace|] == a.trace
    ensures r.ok <==> env.contextOk && env.topicOk && env.payloadOk && env.accepted
    ensures !r.ok ==> r.agent == a
    ensures SameSettings(a, r.agent)
    ensures r.ok ==>
      && |r.agent.inFlight| == |a.inFlight| + 1
      && r.agent.inFlight[..|a.inFlight|] == a.inFlight
      && var cmd := r.agent.inFlight[|a.inFlight|];
      && cmd.PublishCmd?
      && cmd.topic == topic
      && |cmd.payload| == payloadLen
      && (forall i :: 0 <= i < payloadLen ==> cmd.payload[i] == payload[i])
      && cmd.qos == QoS1
      && cmd.retain == retain
      && r.agent.live == a.live + Blocks(cmd)
      && (forall b :: b in Blocks(cmd) ==> a.nextBlock <= b < r.agent.nextBlock)
      && r.agent.trace == a.trace + [Enqueue(cmd)] + (if a.hasObserver then [ObserverSend] else [])
  {
    if env.contextOk && env.topicOk && env.payloadOk && env.accepted then
      var cmd := PublishCommand(a.nextBlock, topic, payload, payloadLen, retain);
      var r := Enqueued(a, cmd);
      assert r.inFlight[..|a.inFlight|] == a.inFlight && r.inFlight[|a.inFlight|] == cmd;
      Sent(r, true)
    else
      Sent(a, false)
  }

  /** The QoS a subscription asks for: 0, 1 and 2 stand for themselves, any
      other value for QoS 1. */
  function SubscriptionQoS(q: byte): (r: QoS)
    ensures q <= 2 ==> QoSLevel(r) == q
    ensures q > 2 ==> r == QoS1
  {
    match q
    case 0 => QoS0
    case 1 => QoS1
    case 2 => QoS2
    case _ => QoS1
  }

  /** The subscribe command built from blocks numbered from `n`: one filter.
      The model keeps the filter's value; the source keeps the caller's
      pointer until the subscription completes. */
  function SubscribeCommand(n: nat, topic: string, qos: byte): Command {
    SubscribeCmd(n, n + 1, n + 2, topic, SubscriptionQoS(qos), 1)
  }

  /** `subToTopic` exactly as the source writes it: an allocation failure or a
      refused enqueue returns false without freeing the blocks already allocated. */
  function SubToTopicAsWritten(a: Agent, topic: string, qos: byte, env: SubEnv): (r: Sent)
    ensures r.ok <==> env.infoOk && env.argsOk && env.contextOk && env.accepted
    ensures r.agent.inFlight == a.inFlight + (if r.ok then [SubscribeCommand(a.nextBlock, topic, qos)] else [])
  {
    if !env.infoOk then Sent(a, false)
    else
      var a1 := Alloc(a);
      if !env.argsOk then Sent(a1, false)
      else
        var a2 := Alloc(a1);
        if !env.contextOk then Sent(a2, false)
        else
          var a3 := Alloc(a2);
          if !env.accepted then Sent(a3, false)
          else Sent(Accept(a3, SubscribeCommand(a.nextBlock, topic, qos)), true)
  }

  /** When the context allocation fails, the as-written subscribe leaves the
      two blocks it already holds live with nothing to free them. */
  lemma SubToTopicAsWrittenLeaks(a: Agent, topic: string, qos: byte)
    requires LedgerOk(a)
    ensures var r := SubToTopicAsWritten(a, topic, qos, SubEnv(true, true, false, true));
      && !r.ok
      && r.agent.inFlight == a.inFlight
      && |r.agent.live| == |a.live| + 2
      && !LedgerOk(r.agent)
  {
  }

  /** `subToTopic` with its leak repaired: on any failure the agent is left as
      it was. On success exactly one subscription is queued, for `topic`, at
      the normalised QoS, owning three fresh blocks, and the observer hears of
      the send. */
  function SubToTopic(a: Agent, topic: string, qos: byte, env: SubEnv): (r: Sent)
    ensures |r.agent.trace| >= |a.trace| && r.agent.trace[..|a.trace|] == a.trace
    ensures r.ok <==> env.infoOk && env.argsOk && env.contextOk && env.accepted
    ensures !r.ok ==> r.agent == a
    ensures SameSettings(a, r.agent)
    ensures r.ok ==>
      && |r.agent.inFlight| == |a.inFlight| + 1
      && r.agent.inFlight[..|a.inFlight|] == a.inFlight
      && var cmd := r.agent.inFlight[|a.inFlight|];
      && cmd.SubscribeCmd?
      && cmd.filter == topic
      && cmd.count == 1
      && (qos <= 2 ==> QoSLevel(cmd.qos) == qos)
      && (qos > 2 ==> cmd.qos == QoS1)
      && r.agent.live == a.live + Blocks(cmd)
      && (forall b :: b in Blocks(cmd) ==> a.nextBlock <= b < r.agent.nextBlock)
      && r.agent.trace == a.trace + [Enqueue(cmd)] + (if a.hasObserver then [ObserverSend] else [])
  {
    if env.infoOk && env.argsOk && env.contextOk && env.accepted then
      var cmd := SubscribeCommand(a.nextBlock, topic, qos);
      var r := Enqueued(a, cmd);
      assert r.inFlight[..|a.inFlight|] == a.inFlight && r.inFlight[|a.inFlight|] == cmd;
      Sent(r, true)
    else
      Sent(a, false)
  }

  /** The completion callback of in-flight command `i` (publish or subscribe):
      frees the three blocks the command owns and retires it. Run on a
      balanced ledger it frees only live blocks and keeps the ledger balanced. */
  function Complete(a: Agent, i: nat): (r: Agent)
    requires i < |a.inFlight|
    ensures r.inFlight == a.inFlight[..i] + a.inFlight[i + 1..]
    ensures LedgerOk(a) ==> LedgerOk(r) && Blocks(a.inFlight[i]) <= a.live && |r.live| == |a.live| - 3
    ensures r.(live := a.live, inFlight := a.inFlight) == a
  {
    var cmd := a.inFlight[i];
    var r := a.(live := a.live - Blocks(cmd), inFlight := a.inFlight[..i] + a.inFlight[i + 1..]);
    InFlightBlocksRemove(a.inFlight, i);
    r
  }

  /** A successful publish followed by its completion callback returns the
      heap ledger and the in-flight commands to where they started. */
  lemma PublishThenCompleteRestores(a: Agent, topic: string, payload: seq<byte>, payloadLen: nat,
                                    qos: byte, retain: bool, env: PubEnv)
    requires payloadLen <= |payload|
    requires LedgerOk(a)
    requires PubToTopic(a, topic, payload, payloadLen, qos, retain, env).ok
    ensures var s := PubToTopic(a, topic, payload, payloadLen, qos, retain, env).agent;
      && LedgerOk(s)
      && var c := Complete(s, |a.inFlight|);
      && c.live == a.live
      && c.inFlight == a.inFlight
  {
    var s := PubToTopic(a, topic, payload, payloadLen, qos, retain, env).agent;
    PublishKeepsLedger(a, topic, payload, payloadLen, qos, retain, env);
    assert s.inFlight == a.inFlight + [s.inFlight[|a.inFlight|]];
    var c := Complete(s, |a.inFlight|);
    assert c.inFlight == a.inFlight;
  }

  /** A successful subscribe followed by its completion callback returns the
      heap ledger and the in-flight commands to where they started. */
  lemma SubscribeThenCompleteRestores(a: Agent, topic: string, qos: byte, env: SubEnv)
    requires LedgerOk(a)
    requires SubToTopic(a, topic, qos, env).ok
    ensures var s := SubToTopic(a, topic, qos, env).agent;
      && LedgerOk(s)
      && var c := Complete(s, |a.inFlight|);
      && c.live == a.live
      && c.inFlight == a.inFlight
  {
    var s := SubToTopic(a, topic, qos, env).agent;
    SubscribeKeepsLedger(a, topic, qos, env);
    assert s.inFlight == a.inFlight + [s.inFlight[|a.inFlight|]];
    var c := Complete(s, |a.inFlight|);
    assert c.inFlight == a.inFlight;
  }

  /** Adding a command with fresh blocks to a balanced ledger keeps it balanced. */
  lemma AcceptKeepsLedger(a: Agent, s: Agent, cmd: Command)
    requires LedgerOk(a)
    requires s.inFlight == a.inFlight + [cmd]
    requires s.live == a.live + Blocks(cmd)
    requires a.nextBlock <= s.nextBlock
    requires forall b :: b in Blocks(cmd) ==> b < s.nextBlock
    ensures LedgerOk(s)
  {
    InFlightBlocksAppend(a.inFlight, [cmd]);
    assert InFlightBlocks([cmd]) == Blocks(cmd) by {
      assert [cmd][1..] == [];
    }
  }

  lemma PublishKeepsLedger(a: Agent, topic: string, payload: seq<byte>, payloadLen: nat,
                           qos: byte, retain: bool, env: PubEnv)
    requires payloadLen <= |payload|
    requires LedgerOk(a)
    ensures LedgerOk(PubToTopic(a, topic, payload, payloadLen, qos, retain, env).agent)
  {
    var r := PubToTopic(a, topic, payload, payloadLen, qos, retain, env);
    if r.ok {
      var cmd := r.agent.inFlight[|a.inFlight|];
      assert r.agent.inFlight == a.inFlight + [cmd];
      AcceptKeepsLedger(a, r.agent, cmd);
    }
  }

  lemma SubscribeKeepsLedger(a: Agent, topic: string, qos: byte, env: SubEnv)
    requires LedgerOk(a)
    ensures LedgerOk(SubToTopic(a, topic, qos, env).agent)
  {
    var r := SubToTopic(a, topic, qos, env);
    if r.ok {
      var cmd := r.agent.inFlight[|a.inFlight|];
      assert r.agent.inFlight == a.inFlight + [cmd];
      AcceptKeepsLedger(a, r.agent, cmd);
    }
  }

  // ---------------------------------------------------------------------
  // The task loop

  /** What the outside world answers during one iteration of the task loop:
      whether Wi-Fi is joined, whether the TCP connect succeeds, whether the
      MQTT connect succeeds, whether the MQTT command loop returns success and,
      if so, whether the MQTT connection is still up, and how the online
      announcement's publish fares. */
  datatype StepEnv = StepEnv(
    joined: bool,
    tcpOk: bool,
    connectOk: bool,
    loopOk: bool,
    stillConnected: bool,
    pub: PubEnv)

  /** What an iteration needs to be defined: the MQTT connect reads the
      credentials and the will topic, and the online announcement reads the
      online topic. The source dereferences all three without a check. */
  predicate Ready(a: Agent) {
    && (a.state == TcpConned ==> a.creds.Some? && a.willTopic.Some?)
    && (a.state == MqttConned ==> a.onlineTopic.Some?)
  }

  /** The CONNECT request built from the stored credentials: clean session,
      the default keep-alive period, the will `{'online':0}` on the will topic at QoS 1, not retained. */
  function ConnectRequest(c: Credentials, willTopic: string): ConnectInfo {
    ConnectInfo(true, c.id, c.user, c.password, MQTT_KEEP_ALIVE,
                Will(willTopic, WILL_PAYLOAD, QoS1, false))
  }

  /** `r` keeps the configuration and slots of `a`, and its trace extends `a`'s. */
  ghost predicate Extends(a: Agent, r: Agent) {
    && r.creds == a.creds && r.target == a.target && r.port == a.port && r.recon == a.recon
    && r.willTopic == a.willTopic && r.onlineTopic == a.onlineTopic
    && r.hasRouter == a.hasRouter && r.hasObserver == a.hasObserver
    && |r.trace| >= |a.trace| && r.trace[..|a.trace|] == a.trace
  }

  /** The state entered when the source asks for Offline. */
  function OfflineOutcome(a: Agent): MqttState {
    if a.recon && a.hasObserver then MqttRecon else Offline
  }

  /** TCPReq with Wi-Fi joined: opens the TCP connection to the stored target;
      success leads to TcpConned, failure to Offline. */
  function TcpConnect(a: Agent, ok: bool): (r: Agent)
    ensures r.state == (if ok then TcpConned else OfflineOutcome(a))
    ensures Extends(a, r) && r.live == a.live && r.inFlight == a.inFlight
  {
    var a1 := Emit(a, [TransportConnect(a.target, a.port)]);
    SetConnState(a1, if ok then TcpConned else Offline)
  }

  /** TcpConned: sends the MQTT CONNECT; success leads to MqttReq, failure to Offline. */
  function MqttConnectStep(a: Agent, ok: bool): (r: Agent)
    requires a.creds.Some? && a.willTopic.Some?
    ensures r.state == (if ok then MqttReq else OfflineOutcome(a))
    ensures Extends(a, r) && r.live == a.live && r.inFlight == a.inFlight
  {
    var a1 := Emit(a, [MqttConnect(ConnectRequest(a.creds.value, a.willTopic.value))]);
    SetConnState(a1, if ok then MqttReq else Offline)
  }

  /** The TCP connect is made to the endpoint `mqttConnect` recorded, and is
      the first thing the iteration does. */
  lemma TcpConnectUsesTarget(a: Agent, ok: bool)
    ensures var r := TcpConnect(a, ok);
      |r.trace| > |a.trace| && r.trace[|a.trace|] == TransportConnect(a.target, a.port)
  {
    var a1 := Emit(a, [TransportConnect(a.target, a.port)]);
    assert a1.trace[|a.trace|] == TransportConnect(a.target, a.port);
  }

  /** The CONNECT asks for a clean session with the stored client id, user
      name and password and a keep-alive of 10 seconds, and registers `{'online':0}` on the will topic as the
      last will, at QoS 1 and not retained. */
  lemma MqttConnectUsesCredentials(a: Agent, ok: bool)
    requires a.creds.Some? && a.willTopic.Some?
    ensures var r := MqttConnectStep(a, ok);
      && |r.trace| > |a.trace|
      && r.trace[|a.trace|].MqttConnect?
      && var info := r.trace[|a.trace|].info;
      && info.cleanSession
      && info.clientId == a.creds.value.id
      && info.user == a.creds.value.user && info.password == a.creds.value.password
      && info.keepAlive == 10
      && info.will == Will(a.willTopic.value, WILL_PAYLOAD, QoS1, false)
  {
    var e := MqttConnect(ConnectRequest(a.creds.value, a.willTopic.value));
    var a1 := Emit(a, [e]);
    assert a1.trace[|a.trace|] == e;
  }

  /** MqttConned: goes Online, queues the online announcement, and asks the
      router, if any, to subscribe. */
  function EnterOnline(a: Agent, pub: PubEnv): (r: Agent)
    requires a.onlineTopic.Some?
    ensures r.state == Online
    ensures Extends(a, r)
  {
    var a2 := OnlineAnnouncement(a, pub).agent;
    if a2.hasRouter then Emit(a2, [RouterSubscribe]) else a2
  }

  /** The publish of `{'online':1}` to the online topic, made just after the
      state has become Online. */
  function OnlineAnnouncement(a: Agent, pub: PubEnv): (r: Sent)
    requires a.onlineTopic.Some?
    ensures r.agent.state == Online && Extends(a, r.agent)
  {
    var a1 := SetConnState(a, Online);
    assert Extends(a, a1);
    PubToTopic(a1, a.onlineTopic.value, ONLINE_PAYLOAD, |ONLINE_PAYLOAD|, 1, false, pub)
  }

  /** The events the online announcement appends: its enqueue and the send
      notice when it was queued, nothing otherwise. Neither is an online
      notice or a router subscribe. */
  function AnnouncementEvents(a: Agent, p: Sent): (es: seq<Event>)
    ensures ObserverOnline !in es && RouterSubscribe !in es
  {
    if p.ok && |p.agent.inFlight| > |a.inFlight|
    then [Enqueue(p.agent.inFlight[|a.inFlight|])] + (if a.hasObserver then [ObserverSend] else [])
    else []
  }

  /** The events appended on entering Online: the observer's notice, then
      the announcement's enqueue and send notice, then the router's subscribe. */
  lemma EnterOnlineTrace(a: Agent, pub: PubEnv)
    requires a.onlineTopic.Some?
    ensures var p := OnlineAnnouncement(a, pub);
      var obs := if a.hasObserver then [ObserverOnline] else [];
      var sends := AnnouncementEvents(a, p);
      var sub := if a.hasRouter then [RouterSubscribe] else [];
      && EnterOnline(a, pub).trace == a.trace + (obs + sends + sub)
      && EnterOnline(a, pub).inFlight == p.agent.inFlight
  {
    var p := OnlineAnnouncement(a, pub);
    var obs := if a.hasObserver then [ObserverOnline] else [];
    var sends := AnnouncementEvents(a, p);
    var sub := if a.hasRouter then [RouterSubscribe] else [];
    AnnouncementTrace(a, pub);
    Regroup(a.trace, obs, sends, sub);
  }

  /** The announcement's trace: the online notice, then its own events. */
  lemma AnnouncementTrace(a: Agent, pub: PubEnv)
    requires a.onlineTopic.Some?
    ensures var p := OnlineAnnouncement(a, pub);
      p.agent.trace == a.trace + (if a.hasObserver then [ObserverOnline] else []) + AnnouncementEvents(a, p)
  {
    var a1 := SetConnState(a, Online);
    var p := PubToTopic(a1, a.onlineTopic.value, ONLINE_PAYLOAD, |ONLINE_PAYLOAD|, 1, false, pub);
    assert OnlineAnnouncement(a, pub) == p;
    assert a1.inFlight == a.inFlight;
  }

  /** Online: the command loop has returned. On success with the session
      already closed the transport is closed; on success with the session still
      up the session is disconnected and the transport closed; on error neither
      happens. All three go Offline. */
  function LeaveOnlineStep(a: Agent, loopOk: bool, stillConnected: bool): (r: Agent)
    ensures r.state == OfflineOutcome(a)
    ensures Extends(a, r) && r.live == a.live && r.inFlight == a.inFlight
  {
    SetConnState(Emit(a, Closing(loopOk, stillConnected)), Offline)
  }

  /** What leaving Online closes before going Offline: the transport alone
      when the session had already ended, the session and then the transport
      when it had not, and nothing after an error. */
  function Closing(loopOk: bool, stillConnected: bool): (es: seq<Event>)
    ensures ObserverOffline !in es
    ensures TransportClose in es <==> loopOk
    ensures MqttDisconnect in es <==> loopOk && stillConnected
  {
    if loopOk && !stillConnected then [TransportClose]
    else if loopOk then [MqttDisconnect, TransportClose]
    else []
  }

  /** MqttRecon: closes the stale transport when Wi-Fi is joined, then
      requests a new TCP connection. */
  function ReconStep(a: Agent, joined: bool): (r: Agent)
    ensures r.state == TcpReq
    ensures Extends(a, r) && r.live == a.live && r.inFlight == a.inFlight
  {
    var a1 := if joined then Emit(a, [TransportClose]) else a;
    SetConnState(a1, TcpReq)
  }

  /** One pass of the task loop's switch on the connection state. Every
      iteration follows the transition table `Edge`; it lands in MqttRecon
      from any other state only through the reconnect hop, which needs both
      the reconnect flag and an attached observer; and Online is entered only
      from MqttConned. */
  function Step(a: Agent, env: StepEnv): (r: Agent)
    requires Ready(a)
    ensures Extends(a, r)
    ensures Edge(a.state, r.state)
    ensures r.state == MqttRecon && a.state != MqttRecon ==> a.recon && a.hasObserver
    ensures r.state == Online ==> a.state == MqttConned
  {
    match a.state
    case Offline => a
    case TcpReq => if env.joined then TcpConnect(a, env.tcpOk) else a
    case TcpConned => MqttConnectStep(a, env.connectOk)
    case MqttReq => SetConnState(a, MqttConned)
    case MqttConned => EnterOnline(a, env.pub)
    case Online => LeaveOnlineStep(a, env.loopOk, env.stillConnected)
    case MqttRecon => ReconStep(a, env.joined)
  }

  /** Which helper an iteration runs in each state. */
  lemma StepDispatch(a: Agent, env: StepEnv)
    requires Ready(a)
    ensures a.state == MqttConned ==> Step(a, env) == EnterOnline(a, env.pub)
    ensures a.state == Online ==> Step(a, env) == LeaveOnlineStep(a, env.loopOk, env.stillConnected)
    ensures a.state == MqttRecon ==> Step(a, env) == ReconStep(a, env.joined)
    ensures a.state == Offline ==> Step(a, env) == a
    ensures a.state == TcpReq ==> Step(a, env) == if env.joined then TcpConnect(a, env.tcpOk) else a
    ensures a.state == TcpConned ==> Step(a, env) == MqttConnectStep(a, env.connectOk)
    ensures a.state == MqttReq ==> Step(a, env) == SetConnState(a, MqttConned)
  {
  }

  /** The transition table of the task loop, written independently of `Step`.
      Every edge into Offline may continue to MqttRecon through the state setter. */
  predicate Edge(s: MqttState, t: MqttState) {
    match s
    case Offline => t == Offline
    case TcpReq => t == TcpReq || t == TcpConned || t == Offline || t == MqttRecon
    case TcpConned => t == MqttReq || t == Offline || t == MqttRecon
    case MqttReq => t == MqttConned
    case MqttConned => t == Online
    case Online => t == Offline || t == MqttRecon
    case MqttRecon => t == TcpReq
  }

  /** Entering Online announces it to the observer exactly once, as the
      first new event, and asks the router to subscribe exactly once, as the
      last new event, iff a router is attached. */
  lemma OnlineEntryNotifies(a: Agent, pub: PubEnv)
    requires a.onlineTopic.Some?
    ensures var r := EnterOnline(a, pub);
      && r.state == Online
      && |r.trace| >= |a.trace| && r.trace[..|a.trace|] == a.trace
      && var added := r.trace[|a.trace|..];
      && Count(added, ObserverOnline) == (if a.hasObserver then 1 else 0)
      && (a.hasObserver ==> added[0] == ObserverOnline)
      && Count(added, RouterSubscribe) == (if a.hasRouter then 1 else 0)
      && (a.hasRouter ==> added[|added| - 1] == RouterSubscribe)
  {
    var p := OnlineAnnouncement(a, pub);
    var r := EnterOnline(a, pub);
    var obs := if a.hasObserver then [ObserverOnline] else [];
    var sends := AnnouncementEvents(a, p);
    var sub := if a.hasRouter then [RouterSubscribe] else [];
    EnterOnlineTrace(a, pub);
    Suffix(a.trace, obs + sends + sub);
    Bracketed(obs, sends, sub, ObserverOnline, RouterSubscribe);
  }

  /** Counting in `first + middle + last`, where `first` and `last` hold at
      most one bracketing event each and `middle` holds neither. */
  lemma Bracketed(first: seq<Event>, middle: seq<Event>, last: seq<Event>, open: Event, close: Event)
    requires first == [] || first == [open]
    requires last == [] || last == [close]
    requires open != close && open !in middle && close !in middle
    ensures var s := first + middle + last;
      && Count(s, open) == |first| && Count(s, close) == |last|
      && (first != [] ==> s[0] == open)
      && (last != [] ==> s[|s| - 1] == close)
  {
    CountAbsent(middle, open);
    CountAbsent(middle, close);
    CountAppend(first + middle, last, open);
    CountAppend(first, middle, open);
    CountAppend(first + middle, last, close);
    CountAppend(first, middle, close);
  }

  /** Entering Online queues exactly one command iff every allocation and the
      enqueue succeed: the publish of `{'online':1}` to the online topic at
      QoS 1, not retained, and the trace records its enqueue. */
  lemma OnlineEntryPublishes(a: Agent, pub: PubEnv)
    requires a.onlineTopic.Some?
    ensures var r := EnterOnline(a, pub);
      && (|r.inFlight| == |a.inFlight| + 1 <==> pub.contextOk && pub.topicOk && pub.payloadOk && pub.accepted)
      && (|r.inFlight| != |a.inFlight| + 1 ==> r.inFlight == a.inFlight)
      && (|r.inFlight| == |a.inFlight| + 1 ==>
            var cmd := r.inFlight[|a.inFlight|];
            && cmd.PublishCmd?
            && cmd.topic == a.onlineTopic.value
            && cmd.payload == ONLINE_PAYLOAD
            && cmd.qos == QoS1
            && !cmd.retain
            && Enqueue(cmd) in r.trace[|a.trace|..])
  {
    var p := OnlineAnnouncement(a, pub);
    var r := EnterOnline(a, pub);
    var obs := if a.hasObserver then [ObserverOnline] else [];
    var sends := AnnouncementEvents(a, p);
    var sub := if a.hasRouter then [RouterSubscribe] else [];
    EnterOnlineTrace(a, pub);
    AnnouncementPublishes(a, pub);
    if p.ok {
      AddedHolds(a.trace, obs, sends, sub, r.trace);
    }
  }

  /** The first event of the middle part is among those appended. */
  lemma AddedHolds(t0: seq<Event>, first: seq<Event>, middle: seq<Event>, last: seq<Event>, t: seq<Event>)
    requires t == t0 + (first + middle + last) && middle != []
    ensures |t| >= |t0| && middle[0] in t[|t0|..]
  {
    Suffix(t0, first + middle + last);
    assert t[|t0|..][|first|] == middle[0];
  }

  /** The online announcement is queued iff every allocation and the enqueue
      succeed, and then it is the publish of `{'online':1}` to the online
      topic at QoS 1, not retained; otherwise nothing is queued. */
  lemma AnnouncementPublishes(a: Agent, pub: PubEnv)
    requires a.onlineTopic.Some?
    ensures var p := OnlineAnnouncement(a, pub);
      && (p.ok <==> pub.contextOk && pub.topicOk && pub.payloadOk && pub.accepted)
      && (!p.ok ==> p.agent.inFlight == a.inFlight)
      && (p.ok ==>
            && |p.agent.inFlight| == |a.inFlight| + 1
            && var cmd := p.agent.inFlight[|a.inFlight|];
            && cmd.PublishCmd?
            && cmd.topic == a.onlineTopic.value
            && cmd.payload == ONLINE_PAYLOAD
            && cmd.qos == QoS1
            && !cmd.retain)
  {
    var p := OnlineAnnouncement(a, pub);
    if p.ok {
      var cmd := p.agent.inFlight[|a.inFlight|];
      assert cmd.payload == ONLINE_PAYLOAD[..|ONLINE_PAYLOAD|];
    }
  }

  /** Leaving Online always goes Offline (and on to MqttRecon when the
      reconnect hop applies). The transport is closed when the command loop
      returned success, whether or not the MQTT session had already ended,
      and is left open when it returned an error. */
  lemma LeaveOnline(a: Agent, loopOk: bool, stillConnected: bool)
    ensures var r := LeaveOnlineStep(a, loopOk, stillConnected);
      && (r.state == Offline || (r.state == MqttRecon && a.recon && a.hasObserver))
      && |r.trace| >= |a.trace| && r.trace[..|a.trace|] == a.trace
      && (TransportClose in r.trace[|a.trace|..] <==> loopOk)
      && (MqttDisconnect in r.trace[|a.trace|..] <==> loopOk && stillConnected)
      && Count(r.trace[|a.trace|..], ObserverOffline) == (if a.hasObserver then 1 else 0)
  {
    var r := LeaveOnlineStep(a, loopOk, stillConnected);
    var obs := if a.hasObserver then [ObserverOffline] else [];
    var closing := Closing(loopOk, stillConnected);
    assert r.trace == a.trace + (closing + obs);
    Suffix(a.trace, closing + obs);
    CountAbsent(closing, ObserverOffline);
    CountAppend(closing, obs, ObserverOffline);
  }

  /** `close`: closes the transport, clears the reconnect flag and goes Offline,
      so the reconnect hop cannot happen. */
  function Close(a: Agent): (r: Agent)
    ensures r.state == Offline && !r.recon
    ensures r.trace == a.trace + [TransportClose] + (if a.hasObserver then [ObserverOffline] else [])
    ensures r.(state := a.state, recon := a.recon, trace := a.trace) == a
  {
    SetConnState(Emit(a, [TransportClose]).(recon := false), Offline)
  }

  /** `stop`: when not already Offline, closes the transport and goes Offline.
      It leaves the reconnect flag alone, so with an observer attached and the
      flag set it ends in MqttRecon. (Deleting the task is not modelled.) */
  function Stop(a: Agent): (r: Agent)
    ensures a.state == Offline ==> r == a
    ensures a.state != Offline ==>
      && r.state == (if a.recon && a.hasObserver then MqttRecon else Offline)
      && r.trace == a.trace + [TransportClose] + (if a.hasObserver then [ObserverOffline] else [])
      && r.(state := a.state, trace := a.trace) == a
  {
    if a.state != Offline then SetConnState(Emit(a, [TransportClose]), Offline) else a
  }

  /** Runs the task loop over a sequence of answers, one iteration each. The
      run halts where an iteration would read a missing string. */
  function Run(a: Agent, envs: seq<StepEnv>): Agent
    decreases |envs|
  {
    if envs == [] || !Ready(a) then a else Run(Step(a, envs[0]), envs[1..])
  }

  /** Offline is a resting state: whatever the world answers, later
      iterations change nothing until a new connection is requested. */
  lemma {:induction false} OfflineRests(a: Agent, envs: seq<StepEnv>)
    requires a.state == Offline
    ensures Run(a, envs) == a
    decreases |envs|
  {
    if envs != [] {
      OfflineRests(Step(a, envs[0]), envs[1..]);
    }
  }

  /** After `close` the agent stays Offline under any further iterations. */
  lemma CloseRests(a: Agent, envs: seq<StepEnv>)
    ensures Run(Close(a), envs) == Close(a)
    ensures Run(Close(a), envs).state == Offline
  {
    OfflineRests(Close(a), envs);
  }

  /** A freshly constructed agent is Offline with reconnect off, port 1883, no
      target and empty slots, its ledger balances, and it does nothing until a
      connection is requested. */
  lemma InitialAgent(envs: seq<StepEnv>)
    ensures var a := Init();
      && a.state == Offline && Ordinal(a.state) == 0
      && !a.recon && a.port == 1883 && a.target.None?
      && !a.hasRouter && !a.hasObserver
      && LedgerOk(a)
      && Run(a, envs) == a
  {
    OfflineRests(Init(), envs);
  }

  /** Every iteration of the loop, with the announcement made through the
      repaired publish, keeps the allocation ledger balanced. */
  lemma StepKeepsLedger(a: Agent, env: StepEnv)
    requires Ready(a)
    requires LedgerOk(a)
    ensures LedgerOk(Step(a, env))
  {
    if a.state == MqttConned {
      EnterOnlineKeepsLedger(a, env.pub);
    }
  }

  /** Entering Online keeps the ledger balanced. */
  lemma {:induction false} EnterOnlineKeepsLedger(a: Agent, pub: PubEnv)
    requires a.onlineTopic.Some? && LedgerOk(a)
    ensures LedgerOk(EnterOnline(a, pub))
  {
    var a1 := SetConnState(a, Online);
    PublishKeepsLedger(a1, a.onlineTopic.value, ONLINE_PAYLOAD, |ONLINE_PAYLOAD|, 1, false, pub);
  }

  /** The MqttConned step exactly as the source writes it, announcing through
      the leaking publish. It queues what the repaired step queues. */
  function EnterOnlineAsWritten(a: Agent, pub: PubEnv): (r: Agent)
    requires a.onlineTopic.Some?
    ensures r.state == Online
    ensures r.inFlight == EnterOnline(a, pub).inFlight
  {
    var a1 := SetConnState(a, Online);
    var a2 := PubToTopicAsWritten(a1, a.onlineTopic.value, ONLINE_PAYLOAD, |ONLINE_PAYLOAD|, 1, false, pub).agent;
    if a2.hasRouter then Emit(a2, [RouterSubscribe]) else a2
  }

  /** When the command queue refuses the announcement, the source's step
      leaves three blocks live that no command owns, while the repaired step
      keeps the ledger balanced. */
  lemma {:induction false} EnterOnlineAsWrittenLeaks(a: Agent)
    requires a.onlineTopic.Some? && LedgerOk(a)
    ensures var refused := PubEnv(true, true, true, false);
      && !LedgerOk(EnterOnlineAsWritten(a, refused))
      && LedgerOk(EnterOnline(a, refused))
  {
    var refused := PubEnv(true, true, true, false);
    var a1 := SetConnState(a, Online);
    PubToTopicAsWrittenLeaks(a1, a.onlineTopic.value, ONLINE_PAYLOAD, false);
    EnterOnlineKeepsLedger(a, refused);
  }

  // ---------------------------------------------------------------------
  // The router's subscriptions

  /** Whether a subscribe's allocations and enqueue all succeed. */
  predicate Subscribed(env: SubEnv) {
    env.infoOk && env.argsOk && env.contextOk && env.accepted
  }

  /** How many of the subscribes succeed. */
  function Successes(envs: seq<SubEnv>): (n: nat)
    ensures n <= |envs|
  {
    if envs == [] then 0 else (if Subscribed(envs[0]) then 1 else 0) + Successes(envs[1..])
  }

  /** The calls a router's `subscribe` makes back into the agent: one
      `subToTopic` per (filter, QoS) pair it asks for, in order, each with
      its own allocation outcomes. */
  function SubscribeEach(a: Agent, subs: seq<(string, byte)>, envs: seq<SubEnv>): (r: Agent)
    requires |envs| == |subs|
    ensures SameSettings(a, r)
    decreases |subs|
  {
    if subs == [] then a
    else SubscribeEach(SubToTopic(a, subs[0].0, subs[0].1, envs[0]).agent, subs[1..], envs[1..])
  }

  /** The router's subscriptions add one command per successful subscribe,
      behind those already in flight, and keep the ledger balanced. */
  lemma {:induction false} SubscribeEachQueues(a: Agent, subs: seq<(string, byte)>, envs: seq<SubEnv>)
    requires |envs| == |subs|
    ensures var r := SubscribeEach(a, subs, envs);
      && |r.inFlight| == |a.inFlight| + Successes(envs)
      && r.inFlight[..|a.inFlight|] == a.inFlight
      && (LedgerOk(a) ==> LedgerOk(r))
    decreases |subs|
  {
    if subs != [] {
      var a1 := SubToTopic(a, subs[0].0, subs[0].1, envs[0]).agent;
      SubscribeEachQueues(a1, subs[1..], envs[1..]);
      if LedgerOk(a) {
        SubscribeKeepsLedger(a, subs[0].0, subs[0].1, envs[0]);
      }
      var r := SubscribeEach(a1, subs[1..], envs[1..]);
      assert r.inFlight[..|a.inFlight|] == r.inFlight[..|a1.inFlight|][..|a.inFlight|];
    }
  }

  /** When every subscribe succeeds, the new commands are subscriptions to
      the requested filters, in the order the router asked for them. */
  lemma {:induction false} SubscribeEachFilters(a: Agent, subs: seq<(string, byte)>, envs: seq<SubEnv>)
    requires |envs| == |subs|
    requires forall i :: 0 <= i < |envs| ==> Subscribed(envs[i])
    ensures var r := SubscribeEach(a, subs, envs);
      && |r.inFlight| == |a.inFlight| + |subs|
      && SubscriptionsAt(r.inFlight, |a.inFlight|, subs)
    decreases |subs|
  {
    if subs != [] {
      var a1 := SubToTopic(a, subs[0].0, subs[0].1, envs[0]).agent;
      SubscribeOne(a, subs[0].0, subs[0].1, envs[0]);
      SubscribeEachFilters(a1, subs[1..], envs[1..]);
      SubscribeEachQueues(a1, subs[1..], envs[1..]);
      var r := SubscribeEach(a1, subs[1..], envs[1..]);
      assert r == SubscribeEach(a, subs, envs);
      Shifted(a.inFlight, a1.inFlight, r.inFlight, subs);
    }
  }

  /** Whether `c` is a subscription to `filter`. */
  predicate IsSubscription(c: Command, filter: string) {
    c.SubscribeCmd? && c.filter == filter
  }

  /** Whether `f` holds, from index `start` on, one subscription per filter
      in `subs`, in order. */
  predicate SubscriptionsAt(f: seq<Command>, start: nat, subs: seq<(string, byte)>) {
    && start + |subs| <= |f|
    && forall i :: 0 <= i < |subs| ==> IsSubscription(f[start + i], subs[i].0)
  }

  /** A successful subscribe adds exactly one subscription to its filter. */
  lemma {:induction false} SubscribeOne(a: Agent, topic: string, qos: byte, env: SubEnv)
    requires Subscribed(env)
    ensures var f := SubToTopic(a, topic, qos, env).agent.inFlight;
      && |f| == |a.inFlight| + 1
      && f[..|a.inFlight|] == a.inFlight
      && IsSubscription(f[|a.inFlight|], topic)
  {
  }

  /** The index arithmetic of one step of `SubscribeEachFilters`. */
  lemma {:induction false} Shifted(f0: seq<Command>, f1: seq<Command>, f: seq<Command>, subs: seq<(string, byte)>)
    requires subs != []
    requires |f1| == |f0| + 1 && IsSubscription(f1[|f0|], subs[0].0)
    requires |f| == |f1| + |subs| - 1 && f[..|f1|] == f1
    requires SubscriptionsAt(f, |f1|, subs[1..])
    ensures SubscriptionsAt(f, |f0|, subs)
  {
    forall i | 0 <= i < |subs|
      ensures IsSubscription(f[|f0| + i], subs[i].0)
    {
      if i == 0 {
        assert f[|f0|] == f[..|f1|][|f0|];
      } else {
        assert subs[i] == subs[1..][i - 1];
        assert f[|f0| + i] == f[|f1| + (i - 1)];
      }
    }
  }

  /** Entering Online with a router attached, when every allocation and
      enqueue succeeds: the online announcement first, then one subscription
      for each filter the router asks for, in order, with the ledger kept. */
  lemma {:induction false} OnlineEntryWithRouter(a: Agent, pub: PubEnv, subs: seq<(string, byte)>, envs: seq<SubEnv>)
    requires a.onlineTopic.Some? && a.hasRouter && |envs| == |subs|
    requires pub.contextOk && pub.topicOk && pub.payloadOk && pub.accepted
    requires forall i :: 0 <= i < |envs| ==> Subscribed(envs[i])
    ensures var r := SubscribeEach(EnterOnline(a, pub), subs, envs);
      && |r.inFlight| == |a.inFlight| + 1 + |subs|
      && r.inFlight[|a.inFlight|].PublishCmd?
      && r.inFlight[|a.inFlight|].topic == a.onlineTopic.value
      && SubscriptionsAt(r.inFlight, |a.inFlight| + 1, subs)
      && (LedgerOk(a) ==> LedgerOk(r))
  {
    var e := EnterOnline(a, pub);
    AnnouncementQueued(a, pub);
    SubscribeBehind(e, subs, envs, |a.inFlight|);
    if LedgerOk(a) {
      EnterOnlineKeepsLedger(a, pub);
      SubscribeEachQueues(e, subs, envs);
    }
  }

  /** After the router's subscriptions all succeed, what stood at index `n`
      before them still does, and the subscriptions follow from index `n + 1`. */
  lemma {:induction false} SubscribeBehind(e: Agent, subs: seq<(string, byte)>, envs: seq<SubEnv>, n: nat)
    requires |envs| == |subs| && |e.inFlight| == n + 1
    requires forall i :: 0 <= i < |envs| ==> Subscribed(envs[i])
    ensures var r := SubscribeEach(e, subs, envs).inFlight;
      && |r| == n + 1 + |subs|
      && r[n] == e.inFlight[n]
      && SubscriptionsAt(r, n + 1, subs)
  {
    SubscribeEachQueues(e, subs, envs);
    SubscribeEachFilters(e, subs, envs);
    var r := SubscribeEach(e, subs, envs).inFlight;
    assert r[n] == r[..n + 1][n];
  }

  /** A successful announcement is the one command entering Online adds. */
  lemma {:induction false} AnnouncementQueued(a: Agent, pub: PubEnv)
    requires a.onlineTopic.Some?
    requires pub.contextOk && pub.topicOk && pub.payloadOk && pub.accepted
    ensures var f := EnterOnline(a, pub).inFlight;
      && |f| == |a.inFlight| + 1
      && f[|a.inFlight|].PublishCmd? && f[|a.inFlight|].topic == a.onlineTopic.value
  {
    OnlineEntryPublishes(a, pub);
  }
}
