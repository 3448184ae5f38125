/** The publishing LED agent: a queue of LED actions fed by `setOn`, `toggle`
    and the switch interrupt, and a task that takes one action at a time,
    drives the LED and publishes the new state as literal text to the
    device's `LED/state` topic. */
module PubLedAgent {
  import opened Base
  import opened LedCommon
  import Q = ActionQueue
  import Topics

  /** The actions this agent queues. */
  datatype PubAction = PubOff | PubOn | PubToggle

  /** The agent: its action queue, the LED (true is lit), the interface's
      client id (absent when constructed without an interface), the state
      topic, and every publication made so far. */
  datatype PubLed = PubLed(
    queue: Q.Queue<PubAction>,
    on: bool,
    id: Option<string>,
    stateTopic: Option<string>,
    published: seq<Publication>)
  {
    predicate Valid() {
      queue.Valid() && queue.capacity == LED_QUEUE_LEN
    }
  }

  /** Construction: an empty queue of five, the LED off, and the state topic
      built from the interface's id when there is an interface and its storage
      could be allocated (`topicAlloc`). */
  function New(id: Option<string>, topicAlloc: bool): (r: PubLed)
    ensures r.Valid() && r.queue.items == [] && !r.on && r.published == [] && r.id == id
    ensures r.stateTopic.Some? <==> id.Some? && topicAlloc
    ensures r.stateTopic.Some? ==> r.stateTopic.value == Topics.ThingTopic(id.value, LED_STATE_SUFFIX)
  {
    var topic := if id.Some? && topicAlloc then Some(Topics.ThingTopic(id.value, LED_STATE_SUFFIX)) else None;
    PubLed(Q.Empty(LED_QUEUE_LEN), false, id, topic, [])
  }

  /** Queues LEDOn or LEDOff at the back; dropped when the queue is full. */
  function SetOn(l: PubLed, on: bool): (r: PubLed)
    requires l.Valid()
    ensures r.Valid() && r.(queue := l.queue) == l
    ensures |l.queue.items| < LED_QUEUE_LEN ==> r.queue.items == l.queue.items + [if on then PubOn else PubOff]
    ensures |l.queue.items| == LED_QUEUE_LEN ==> r == l
  {
    l.(queue := Q.SendToBack(l.queue, if on then PubOn else PubOff).queue)
  }

  /** Queues a toggle at the back; dropped when the queue is full. */
  function Toggle(l: PubLed): (r: PubLed)
    requires l.Valid()
    ensures r.Valid() && r.(queue := l.queue) == l
    ensures |l.queue.items| < LED_QUEUE_LEN ==> r.queue.items == l.queue.items + [PubToggle]
    ensures |l.queue.items| == LED_QUEUE_LEN ==> r == l
  {
    l.(queue := Q.SendToBack(l.queue, PubToggle).queue)
  }

  /** The switch interrupt's toggle: queued at the front, so it is the next
      action taken; dropped when the queue is full. */
  function IntToggle(l: PubLed): (r: PubLed)
    requires l.Valid()
    ensures r.Valid() && r.(queue := l.queue) == l
    ensures |l.queue.items| < LED_QUEUE_LEN ==> r.queue.items == [PubToggle] + l.queue.items
    ensures |l.queue.items| == LED_QUEUE_LEN ==> r == l
  {
    l.(queue := Q.SendToFront(l.queue, PubToggle).queue)
  }

  /** The LED state after one action. */
  function Apply(on: bool, a: PubAction): (r: bool)
    ensures a == PubOn ==> r
    ensures a == PubOff ==> !r
    ensures a == PubToggle ==> r != on
  {
    match a
    case PubOff => false
    case PubOn => true
    case PubToggle => !on
  }

  /** The LED state after a sequence of actions, oldest first. */
  function Fold(on: bool, acts: seq<PubAction>): bool
    decreases |acts|
  {
    if acts == [] then on else Apply(Fold(on, acts[..|acts| - 1]), acts[|acts| - 1])
  }

  /** The literal payloads, `{"on": True}` and `{"on": False}`, written as
      their common start `{"on": ` and the rest. */
  const STATE_PREFIX: seq<byte> := Ascii("{\"on\": ")
  const ON_PAYLOAD: seq<byte> := STATE_PREFIX + Ascii("True}")
  const OFF_PAYLOAD: seq<byte> := STATE_PREFIX + Ascii("False}")

  /** Size of the payload buffer the text is formatted into. */
  const PAYLOAD_BUFFER_LEN: nat := 16

  /** The text published for a state. It and its terminator fit the 16-byte
      payload buffer, and it holds no NUL, so its C length is its whole length. */
  function StatePayload(on: bool): (r: seq<byte>)
    ensures |r| + 1 <= PAYLOAD_BUFFER_LEN
    ensures NUL !in r && CStr(r + [NUL]) == r
  {
    var r := if on then ON_PAYLOAD else OFF_PAYLOAD;
    CStrOfTerminated(r, []);
    assert r + [NUL] + [] == r + [NUL];
    r
  }

  /** A reader for the published text, written independently of it: after the
      seven-byte prefix `{"on": ` a `T` means lit and an `F` unlit. */
  function ReadStatePayload(p: seq<byte>): Option<bool> {
    if |p| >= 8 && p[..7] == Ascii("{\"on\": ") then
      if p[7] == 'T' as int then Some(true)
      else if p[7] == 'F' as int then Some(false)
      else None
    else None
  }

  /** The published text always reads back as the state it was made for;
      consequently the two payloads differ. */
  lemma StatePayloadReadsBack(on: bool)
    ensures ReadStatePayload(StatePayload(on)) == Some(on)
    ensures StatePayload(true) != StatePayload(false)
  {
    Suffix(STATE_PREFIX, Ascii("True}"));
    Suffix(STATE_PREFIX, Ascii("False}"));
    assert ON_PAYLOAD[7] == 'T' as int;
    assert OFF_PAYLOAD[7] == 'F' as int;
  }

  /** Sets the LED and, when there is an interface, publishes the state text
      to the state topic at QoS 1, not retained. */
  function Exec(l: PubLed, state: bool): (r: PubLed)
    ensures r.on == state
    ensures r.(on := l.on, published := l.published) == l
    ensures l.id.None? ==> r.published == l.published
    ensures l.id.Some? ==> r.published == l.published + [Publication(l.stateTopic, Text(StatePayload(state)), 1, false)]
  {
    var pub := if l.id.Some? then [Publication(l.stateTopic, Text(StatePayload(state)), 1, false)] else [];
    l.(on := state, published := l.published + pub)
  }

  /** One pass of the task loop: takes the oldest action, if any, and executes it. */
  function RunOnce(l: PubLed): (r: PubLed)
    requires l.Valid()
    ensures r.Valid()
    ensures l.queue.items == [] ==> r == l
    ensures l.queue.items != [] ==>
      && r.queue.items == l.queue.items[1..]
      && r.on == Apply(l.on, l.queue.items[0])
      && r.id == l.id && r.stateTopic == l.stateTopic
      && |r.published| == |l.published| + (if l.id.Some? then 1 else 0)
  {
    var got := Q.Receive(l.queue);
    match got.item
    case None => l
    case Some(a) => Exec(l.(queue := got.queue), Apply(l.on, a))
  }

  /** Runs the task loop until the queue is empty. */
  function RunAll(l: PubLed): PubLed
    requires l.Valid()
    decreases |l.queue.items|
  {
    if l.queue.items == [] then l else RunAll(RunOnce(l))
  }

  /** Taking the first action and then the rest is the same as folding them all. */
  lemma {:induction false} FoldFirst(on: bool, a: PubAction, acts: seq<PubAction>)
    ensures Fold(Apply(on, a), acts) == Fold(on, [a] + acts)
    decreases |acts|
  {
    if acts != [] {
      var init := acts[..|acts| - 1];
      FoldFirst(on, a, init);
      assert ([a] + acts)[..|acts|] == [a] + init;
    }
  }

  /** Draining the queue leaves the LED in the state the fold of the queued
      actions gives, publishes once per action when there is an interface,
      and the last publication is the text of the final state. */
  lemma {:induction false} RunAllFolds(l: PubLed)
    requires l.Valid()
    ensures var r := RunAll(l);
      && r.queue.items == []
      && r.on == Fold(l.on, l.queue.items)
      && |r.published| == |l.published| + (if l.id.Some? then |l.queue.items| else 0)
      && (l.id.Some? && l.queue.items != [] ==>
            r.published[|r.published| - 1] == Publication(l.stateTopic, Text(StatePayload(r.on)), 1, false))
    decreases |l.queue.items|
  {
    if l.queue.items != [] {
      var n := RunOnce(l);
      RunAllFolds(n);
      FoldFirst(l.on, l.queue.items[0], l.queue.items[1..]);
      assert [l.queue.items[0]] + l.queue.items[1..] == l.queue.items;
    }
  }

  /** The number of toggles at the end of `acts`. */
  function TrailingToggles(acts: seq<PubAction>): (n: nat)
    ensures n <= |acts|
    decreases |acts|
  {
    if acts != [] && acts[|acts| - 1] == PubToggle then 1 + TrailingToggles(acts[..|acts| - 1]) else 0
  }

  /** An independent account of the fold: the last explicit on/off (or the
      starting state when there is none) flipped once per toggle after it. */
  lemma {:induction false} FoldByLastSetting(on: bool, acts: seq<PubAction>)
    ensures var t := TrailingToggles(acts);
      var base := if t == |acts| then on else acts[|acts| - t - 1] == PubOn;
      Fold(on, acts) == (if t % 2 == 0 then base else !base)
    decreases |acts|
  {
    if acts != [] {
      var init := acts[..|acts| - 1];
      FoldByLastSetting(on, init);
      if acts[|acts| - 1] == PubToggle {
        var t := TrailingToggles(init);
        assert TrailingToggles(acts) == t + 1;
        if t < |init| {
          assert acts[|acts| - (t + 1) - 1] == init[|init| - t - 1];
        }
      }
    }
  }
}
