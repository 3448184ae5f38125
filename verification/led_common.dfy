/** What the LED agents and LED routers share: the capacities and topic
    suffixes of the LED agent's header, the parsed form of an LED request, the
    publications an agent makes, and the message buffers that carry inbound
    JSON from the router's task to the agent's task.

    JSON parsing is not part of this model. A parser is a parameter of the
    operations that parse: it maps the text before the first NUL to nothing
    when the text is not valid JSON, and otherwise to the `source` property
    (when present as JSON text) and the `on` property (when present as a JSON
    boolean). */
module LedCommon {
  import opened Base
  import Topics

  /** Capacity of the LED action queue. */
  const LED_QUEUE_LEN: nat := 5
  /** Size in bytes of each inbound message buffer. */
  const LED_BUFFER_LEN: nat := 256
  /** Size in bytes of the JSON working buffer, and the most a receive takes. */
  const LED_JSON_LEN: nat := 20
  /** Number of JSON nodes the parser may use. */
  const LED_JSON_POOL: nat := 5

  /** Suffix of the device topic the LED state is published to. */
  const LED_STATE_SUFFIX := "LED/state"
  /** Suffix of the device topic LED requests arrive on. */
  const LED_REQ_SUFFIX := "LED/req"
  /** Group name and suffix of the shared LED group topic, `GRP/LED/TPC/req`. */
  const LED_GROUP := "LED"
  const LED_GROUP_REQ := "req"

  /** The group topic every LED agent shares. */
  function LedGroupTopic(): (t: string)
    ensures t == "GRP/LED/TPC/req"
  {
    Topics.GroupTopic(LED_GROUP, LED_GROUP_REQ)
  }

  /** A parsed LED request: the `source` text and the boolean `on`, each
      absent when missing or of another JSON type. */
  datatype LedRequest = LedRequest(source: Option<string>, on: Option<bool>)

  /** A JSON parser as the LED code uses one. */
  type Parser = seq<byte> -> Option<LedRequest>

  /** The body of a publication: literal bytes, the JSON object `{"on":…}`,
      or the JSON object `{"source":…,"on":…}`. */
  datatype Body = Text(bytes: seq<byte>) | StateJson(on: bool) | GroupJson(source: string, on: bool)

  /** One call of the interface's publish: the topic pointer (absent when its
      allocation failed), the body, the QoS and the retain flag. */
  datatype Publication = Publication(topic: Option<string>, body: Body, qos: nat, retain: bool)

  /** One subscription a router asks the interface for. */
  datatype Subscription = Subscription(topic: string, qos: nat)

  /** One hand-over from a router to the LED agent: into its device buffer
      (`addJSON`) or into its group buffer (`addGrpJSON`). */
  datatype Delivery = ToDevice(payload: seq<byte>) | ToGroup(payload: seq<byte>)

  /** A message buffer: whole messages, oldest first. */
  datatype MessageBuffer = MessageBuffer(messages: seq<seq<byte>>)

  /** The outcome of a zero-wait receive: the byte count returned, the bytes
      copied out, and the buffer afterwards. */
  datatype Read = Read(len: nat, data: seq<byte>, buffer: MessageBuffer)

  /** A zero-wait send of one message; `room` says whether the buffer has
      space for it. Returns the number of bytes written: all or nothing. */
  function Send(b: MessageBuffer, msg: seq<byte>, room: bool): (r: (MessageBuffer, nat))
    ensures room ==> r.0.messages == b.messages + [msg] && r.1 == |msg|
    ensures !room ==> r.0 == b && r.1 == 0
  {
    if room then (MessageBuffer(b.messages + [msg]), |msg|) else (b, 0)
  }

  /** A zero-wait receive into a destination of `cap` bytes. An empty buffer
      yields 0. A front message longer than `cap` yields 0 and stays where it
      is; otherwise it is removed and copied out whole. */
  function Receive(b: MessageBuffer, cap: nat): (r: Read)
    ensures r.len == |r.data| <= cap
    ensures b.messages == [] || |b.messages[0]| > cap ==> r.len == 0 && r.buffer == b
    ensures b.messages != [] && |b.messages[0]| <= cap ==>
      r.data == b.messages[0] && r.buffer.messages == b.messages[1..]
  {
    if b.messages == [] || |b.messages[0]| > cap then Read(0, [], b)
    else Read(|b.messages[0]|, b.messages[0], MessageBuffer(b.messages[1..]))
  }

  /** The buffer after `n` receives of at most `cap` bytes. */
  function ReceiveTimes(b: MessageBuffer, cap: nat, n: nat): MessageBuffer
    decreases n
  {
    if n == 0 then b else ReceiveTimes(Receive(b, cap).buffer, cap, n - 1)
  }

  /** An oversized message at the front is never consumed: every later receive
      returns nothing and the buffer never changes, so every message behind it
      is stuck too. */
  lemma {:induction false} OversizedMessageBlocks(b: MessageBuffer, cap: nat, n: nat)
    requires b.messages != [] && |b.messages[0]| > cap
    ensures ReceiveTimes(b, cap, n) == b
    ensures Receive(ReceiveTimes(b, cap, n), cap).len == 0
    decreases n
  {
    if n > 0 {
      OversizedMessageBlocks(Receive(b, cap).buffer, cap, n - 1);
    }
  }
}
