/** The data of the MQTT agent (its header): the connection states, the
    configuration it holds, the commands it hands to the MQTT agent library,
    and the record of what it did.

    The record has three parts that exist only in this model: `trace`, the
    calls the agent made on its observer, transport, router and command queue,
    in order; `live`, the heap blocks (by number) allocated for commands and
    not yet freed; and `inFlight`, the commands enqueued whose completion
    callback has not yet run. `nextBlock` numbers the next allocation. */
module MqttAgentDefs {
  import opened Base
  import Topics

  /** The connection state machine's states, in the header's declaration order. */
  datatype MqttState = Offline | TcpReq | TcpConned | MqttReq | MqttConned | MqttRecon | Online

  /** The C enumerator value of a state. */
  function Ordinal(s: MqttState): nat {
    match s
    case Offline => 0
    case TcpReq => 1
    case TcpConned => 2
    case MqttReq => 3
    case MqttConned => 4
    case MqttRecon => 5
    case Online => 6
  }

  /** The state an enumerator value denotes, if any. */
  function StateOf(n: nat): Option<MqttState> {
    if n == 0 then Some(Offline)
    else if n == 1 then Some(TcpReq)
    else if n == 2 then Some(TcpConned)
    else if n == 3 then Some(MqttReq)
    else if n == 4 then Some(MqttConned)
    else if n == 5 then Some(MqttRecon)
    else if n == 6 then Some(Online)
    else None
  }

  /** Exactly seven states exist: the enumerator values 0..6 and the states
      correspond one to one. */
  lemma SevenStates(s: MqttState, n: nat)
    ensures Ordinal(s) < 7 && StateOf(Ordinal(s)) == Some(s)
    ensures StateOf(n).Some? <==> n < 7
    ensures StateOf(n).Some? ==> Ordinal(StateOf(n).value) == n
  {
  }

  type uint16 = x: int | 0 <= x < 0x1_0000

  /** The broker port used until `mqttConnect` supplies one. */
  const DEFAULT_PORT: uint16 := 1883

  /** The last-will payload `{'online':0}`. */
  const WILL_PAYLOAD: seq<byte> := Ascii("{'online':0}")

  /** The payload `{'online':1}` announced on entering Online. */
  const ONLINE_PAYLOAD: seq<byte> := Ascii("{'online':1}")

  datatype QoS = QoS0 | QoS1 | QoS2

  /** The numeric value of a QoS level. */
  function QoSLevel(q: QoS): nat {
    match q
    case QoS0 => 0
    case QoS1 => 1
    case QoS2 => 2
  }

  /** User name, password and client id. The agent keeps the caller's strings
      without copying them; the model keeps their values. */
  datatype Credentials = Credentials(user: string, password: string, id: string)

  /** The last-will message registered with the broker at connect time. */
  datatype Will = Will(topic: string, payload: seq<byte>, qos: QoS, retain: bool)

  /** The keep-alive period in seconds: the agent header's default, which a
      build may override. */
  const MQTT_KEEP_ALIVE: nat := 10

  /** What the agent passes to the MQTT library's connect call. */
  datatype ConnectInfo = ConnectInfo(
    cleanSession: bool,
    clientId: string,
    user: string,
    password: string,
    keepAlive: nat,
    will: Will)

  /** A command handed to the MQTT agent library, with the numbers of the heap
      blocks it owns. A publish owns its context, its topic copy and its
      payload copy; a subscribe owns its subscription info, its argument block
      and its context. */
  datatype Command =
    | PublishCmd(context: nat, topicBlock: nat, payloadBlock: nat,
                 topic: string, payload: seq<byte>, qos: QoS, retain: bool)
    | SubscribeCmd(infoBlock: nat, argsBlock: nat, context: nat,
                   filter: string, qos: QoS, count: nat)

  /** The heap blocks a command owns. */
  function Blocks(c: Command): multiset<nat> {
    match c
    case PublishCmd(ctx, t, p, _, _, _, _) => multiset{ctx, t, p}
    case SubscribeCmd(i, args, ctx, _, _, _) => multiset{i, args, ctx}
  }

  /** One call the agent makes on a collaborator. */
  datatype Event =
    | ObserverOffline
    | ObserverOnline
    | ObserverSend
    | ObserverRecv
    | TransportConnect(host: Option<string>, port: uint16)
    | TransportClose
    | MqttConnect(info: ConnectInfo)
    | MqttDisconnect
    | RouterSubscribe
    | RouterRoute(topic: string, payload: seq<byte>)
    | Enqueue(cmd: Command)

  /** The agent: its configuration, its state, its two slots, and the model's record. */
  datatype Agent = Agent(
    state: MqttState,
    creds: Option<Credentials>,
    target: Option<string>,
    port: uint16,
    recon: bool,
    willTopic: Option<string>,
    onlineTopic: Option<string>,
    hasRouter: bool,
    hasObserver: bool,
    trace: seq<Event>,
    live: multiset<nat>,
    nextBlock: nat,
    inFlight: seq<Command>)

  /** A freshly constructed agent, with the header's initial field values. */
  function Init(): Agent {
    Agent(
      state := Offline,
      creds := None,
      target := None,
      port := DEFAULT_PORT,
      recon := false,
      willTopic := None,
      onlineTopic := None,
      hasRouter := false,
      hasObserver := false,
      trace := [],
      live := multiset{},
      nextBlock := 0,
      inFlight := [])
  }

  /** `r` has the configuration, slots and state of `a`; only the record may differ. */
  predicate SameSettings(a: Agent, r: Agent) {
    && r.state == a.state && r.creds == a.creds && r.target == a.target
    && r.port == a.port && r.recon == a.recon
    && r.willTopic == a.willTopic && r.onlineTopic == a.onlineTopic
    && r.hasRouter == a.hasRouter && r.hasObserver == a.hasObserver
  }

  /** The blocks owned by a sequence of in-flight commands. */
  function InFlightBlocks(cs: seq<Command>): multiset<nat> {
    if cs == [] then multiset{} else Blocks(cs[0]) + InFlightBlocks(cs[1..])
  }

  /** The allocation ledger balances: the live blocks are exactly those owned
      by commands in flight, and every block number is below `nextBlock`. */
  ghost predicate LedgerOk(a: Agent) {
    && a.live == InFlightBlocks(a.inFlight)
    && forall b :: b in a.live ==> b < a.nextBlock
  }

  /** How many times `e` occurs in `es`. */
  function Count(es: seq<Event>, e: Event): nat {
    if es == [] then 0 else (if es[0] == e then 1 else 0) + Count(es[1..], e)
  }

  lemma {:induction false} CountAppend(x: seq<Event>, y: seq<Event>, e: Event)
    ensures Count(x + y, e) == Count(x, e) + Count(y, e)
  {
    if x == [] {
      assert x + y == y;
    } else {
      assert (x + y)[1..] == x[1..] + y;
      CountAppend(x[1..], y, e);
    }
  }

  lemma {:induction false} CountAbsent(es: seq<Event>, e: Event)
    requires e !in es
    ensures Count(es, e) == 0
  {
    if es != [] {
      CountAbsent(es[1..], e);
    }
  }

  lemma {:induction false} InFlightBlocksAppend(x: seq<Command>, y: seq<Command>)
    ensures InFlightBlocks(x + y) == InFlightBlocks(x) + InFlightBlocks(y)
  {
    if x == [] {
      assert x + y == y;
    } else {
      assert (x + y)[1..] == x[1..] + y;
      InFlightBlocksAppend(x[1..], y);
    }
  }

  /** Removing one in-flight command removes exactly its blocks from the ledger. */
  lemma InFlightBlocksRemove(cs: seq<Command>, i: nat)
    requires i < |cs|
    ensures Blocks(cs[i]) <= InFlightBlocks(cs)
    ensures InFlightBlocks(cs[..i] + cs[i + 1..]) == InFlightBlocks(cs) - Blocks(cs[i])
  {
    var pre, mid, post := cs[..i], [cs[i]], cs[i + 1..];
    SplitAt(cs, i);
    InFlightBlocksAppend(pre + mid, post);
    InFlightBlocksAppend(pre, mid);
    InFlightBlocksAppend(pre, post);
    assert InFlightBlocks(mid) == Blocks(cs[i]) by {
      assert mid[1..] == [];
    }
    var p, b, q := InFlightBlocks(pre), Blocks(cs[i]), InFlightBlocks(post);
    assert InFlightBlocks(cs) == p + b + q;
    assert (p + b + q) - b == p + q;
  }
}
