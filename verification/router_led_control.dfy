/** The router of the first LED project: it owns the LED itself. It lights
    the LED at start, subscribes to the device's `LED/req` topic, and for
    every inbound message copies the payload into a 20-byte buffer,
    terminates it, parses it and sets the LED from a boolean `on`. */
module RouterLedControl {
  import opened Base
  import opened LedCommon
  import Topics

  /** Size of the payload buffer. */
  const LED_BUFFER: nat := 20

  /** The LED (true is lit), the request topic, and the payload buffer. */
  datatype Control = Control(led: bool, topic: Option<string>, buffer: seq<byte>) {
    predicate Valid() {
      |buffer| == LED_BUFFER
    }
  }

  /** `init`: drives the LED on and builds the request topic from `id` unless
      one exists; `alloc` says whether its storage could be allocated. */
  function Init(c: Control, id: string, alloc: bool): (r: Control)
    ensures r.led && r.buffer == c.buffer
    ensures c.topic.Some? ==> r.topic == c.topic
    ensures c.topic.None? ==> r.topic == (if alloc then Some(Topics.ThingTopic(id, LED_REQ_SUFFIX)) else None)
  {
    var topic := if c.topic.None? && alloc then Some(Topics.ThingTopic(id, LED_REQ_SUFFIX)) else c.topic;
    c.(led := true, topic := topic)
  }

  /** Construction: `init` on a router with no topic; the buffer's initial
      contents never reach the parser (see `Route`). */
  function New(id: string, alloc: bool): (r: Control)
    ensures r.Valid() && r.led
    ensures r.topic == (if alloc then Some(Topics.ThingTopic(id, LED_REQ_SUFFIX)) else None)
  {
    Init(Control(false, None, seq(LED_BUFFER, _ => NUL)), id, alloc)
  }

  /** The topic is built at most once: a second `init` keeps the first topic. */
  lemma TopicBuiltOnce(c: Control, id: string, alloc: bool, laterId: string, laterAlloc: bool)
    requires Init(c, id, alloc).topic.Some?
    ensures Init(Init(c, id, alloc), laterId, laterAlloc).topic == Init(c, id, alloc).topic
  {
  }

  /** `subscribe`: one QoS 1 subscription to the request topic iff it exists. */
  function Subscribe(c: Control): (s: seq<Subscription>)
    ensures |s| == (if c.topic.Some? then 1 else 0)
    ensures forall x :: x in s ==> x == Subscription(c.topic.value, 1)
  {
    if c.topic.Some? then [Subscription(c.topic.value, 1)] else []
  }

  /** `route`: a payload of LED_BUFFER bytes or more is refused and nothing
      changes. A shorter one is copied to the start of the buffer and
      terminated at index `payloadLen`, inside the buffer; the parser sees the
      payload up to its first NUL. The LED takes a boolean `on` and is left
      alone for invalid JSON or a missing or non-boolean `on`. The topic is
      not looked at. */
  function Route(c: Control, topic: string, payload: seq<byte>, payloadLen: nat, parse: Parser): (r: Control)
    requires c.Valid() && payloadLen <= |payload|
    ensures r.Valid() && r.topic == c.topic
    ensures payloadLen >= LED_BUFFER ==> r == c
    ensures payloadLen < LED_BUFFER ==>
      && r.buffer[..payloadLen] == payload[..payloadLen]
      && r.buffer[payloadLen] == NUL
      && r.buffer[payloadLen + 1..] == c.buffer[payloadLen + 1..]
      && var req := parse(CStr(payload[..payloadLen] + [NUL]));
      && r.led == (if req.Some? && req.value.on.Some? then req.value.on.value else c.led)
  {
    if payloadLen >= LED_BUFFER then c
    else
      var copied := payload[..payloadLen] + [NUL] + c.buffer[payloadLen + 1..];
      TerminatedPrefix(payload[..payloadLen], c.buffer[payloadLen + 1..]);
      var req := parse(CStr(copied));
      var led := if req.Some? && req.value.on.Some? then req.value.on.value else c.led;
      c.(led := led, buffer := copied)
  }

  /** Routing does not look at the topic, and a NUL-free payload reaches the
      parser whole. */
  lemma RouteParsesWholePayload(c: Control, t1: string, t2: string, payload: seq<byte>, parse: Parser)
    requires c.Valid() && |payload| < LED_BUFFER && NUL !in payload
    requires parse(payload) == Some(LedRequest(None, Some(true))) || parse(payload) == Some(LedRequest(None, Some(false)))
    ensures Route(c, t1, payload, |payload|, parse) == Route(c, t2, payload, |payload|, parse)
    ensures Route(c, t1, payload, |payload|, parse).led == parse(payload).value.on.value
  {
    CStrOfTerminated(payload, []);
    assert payload + [NUL] + [] == payload + [NUL];
    assert payload[..|payload|] == payload;
  }
}
