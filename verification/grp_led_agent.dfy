/** The group-aware LED agent. Requests arrive as JSON in two message buffers,
    one for the device's own topic and one for the shared group topic; each
    pass of its task reads one message from each, turns valid requests into
    queued actions, and executes at most one queued action. Executing an
    action drives the LED, publishes the state to the device's state topic
    and, for actions that did not come from the group, tells the group.

    Several calls read the interface's client id without checking that an
    interface exists; the model returns no agent (`None`) where the source
    would dereference the missing interface. */
module GrpLedAgent {
  import opened Base
  import opened LedCommon
  import Q = ActionQueue
  import Topics

  /** The actions this agent queues, in the source's order. */
  datatype GrpAction = LedOff | LedOn | LedGrpOn | LedGrpOff | LedToggle

  /** Whether an action came from the group topic. */
  predicate IsGroup(a: GrpAction) {
    a == LedGrpOn || a == LedGrpOff
  }

  /** The LED state an explicit (non-toggle) action asks for. */
  function Target(a: GrpAction): bool
    requires a != LedToggle
  {
    a == LedOn || a == LedGrpOn
  }

  /** The action `setOn(on, grp)` queues. */
  function ActionFor(on: bool, grp: bool): (r: GrpAction)
    ensures r != LedToggle && Target(r) == on && IsGroup(r) == grp
  {
    if grp then (if on then LedGrpOn else LedGrpOff)
    else if on then LedOn else LedOff
  }

  /** Every explicit action is queued by exactly one `setOn` call: the table
      is a bijection between (on, grp) pairs and the four explicit actions. */
  lemma ActionForIsBijective(a: GrpAction, on: bool, grp: bool)
    ensures a != LedToggle ==> ActionFor(Target(a), IsGroup(a)) == a
    ensures ActionFor(on, grp) == a <==> a != LedToggle && Target(a) == on && IsGroup(a) == grp
  {
  }

  /** The size of the JSON working buffer in the model: LED_JSON_LEN bytes
      plus room for the terminator. The source declares it with LED_JSON_LEN
      bytes, which `TerminatorOverrunsScratch` shows too small. */
  const SCRATCH_LEN: nat := LED_JSON_LEN + 1

  /** The agent: action queue, LED, the interface's client id (absent when
      constructed without an interface), its two topics, its two inbound
      message buffers, the JSON working buffer, and every publication made. */
  datatype GrpLed = GrpLed(
    queue: Q.Queue<GrpAction>,
    on: bool,
    id: Option<string>,
    stateTopic: Option<string>,
    grpTopic: Option<string>,
    device: MessageBuffer,
    group: MessageBuffer,
    scratch: seq<byte>,
    published: seq<Publication>)
  {
    predicate Valid() {
      queue.Valid() && queue.capacity == LED_QUEUE_LEN && |scratch| == SCRATCH_LEN
    }
  }

  /** The agent a construction yields from the given topics. */
  function Fresh(id: Option<string>, stateTopic: Option<string>, grpTopic: Option<string>): (r: GrpLed)
    ensures r.Valid() && r.queue.items == [] && !r.on && r.published == []
    ensures r.device.messages == [] && r.group.messages == []
  {
    GrpLed(Q.Empty(LED_QUEUE_LEN), false, id, stateTopic, grpTopic,
           MessageBuffer([]), MessageBuffer([]), seq(SCRATCH_LEN, _ => NUL), [])
  }

  /** Construction exactly as written: with an interface, both topics are
      allocated, but the group topic is written when the STATE topic's
      allocation succeeded. A failed group allocation next to a successful
      state allocation writes through a null pointer (`None`); a successful
      group allocation next to a failed state allocation is never written
      (modelled as holding `junk`). */
  function NewAsWritten(id: Option<string>, stateAlloc: bool, grpAlloc: bool, junk: string): (r: Option<GrpLed>)
    ensures r.None? <==> id.Some? && stateAlloc && !grpAlloc
  {
    if id.None? then Some(Fresh(id, None, None))
    else
      var st := if stateAlloc then Some(Topics.ThingTopic(id.value, LED_STATE_SUFFIX)) else None;
      if stateAlloc && !grpAlloc then None
      else
        var grp := if !grpAlloc then None else if stateAlloc then Some(LedGroupTopic()) else Some(junk);
        Some(Fresh(id, st, grp))
  }

  /** Two allocation outcomes that break the as-written construction: a failed
      group allocation is written through, and a successful one can be left
      holding whatever the heap held. */
  lemma NewAsWrittenMisbehaves(id: string, junk: string)
    requires junk != LedGroupTopic()
    ensures NewAsWritten(Some(id), true, false, junk).None?
    ensures var r := NewAsWritten(Some(id), false, true, junk);
      r.Some? && r.value.grpTopic == Some(junk) && r.value.grpTopic != Some(LedGroupTopic())
  {
  }

  /** Construction with the group topic checked against its own allocation:
      always defined, and each topic is present iff there is an interface and
      its own allocation succeeded, in which case it is the right topic. */
  function New(id: Option<string>, stateAlloc: bool, grpAlloc: bool): (r: GrpLed)
    ensures r.Valid() && r.queue.items == [] && !r.on && r.published == [] && r.id == id
    ensures r.device.messages == [] && r.group.messages == []
    ensures r.stateTopic.Some? <==> id.Some? && stateAlloc
    ensures r.stateTopic.Some? ==> r.stateTopic.value == Topics.ThingTopic(id.value, LED_STATE_SUFFIX)
    ensures r.grpTopic.Some? <==> id.Some? && grpAlloc
    ensures r.grpTopic.Some? ==> r.grpTopic.value == "GRP/LED/TPC/req"
  {
    var st := if id.Some? && stateAlloc then Some(Topics.ThingTopic(id.value, LED_STATE_SUFFIX)) else None;
    var grp := if id.Some? && grpAlloc then Some(LedGroupTopic()) else None;
    Fresh(id, st, grp)
  }

  /** Whenever the as-written construction is defined and both allocations
      succeed it agrees with the corrected one. */
  lemma NewAgreesWhenAllocated(id: Option<string>, junk: string)
    ensures NewAsWritten(id, true, true, junk) == Some(New(id, true, true))
  {
  }

  /** `setOn(on, grp)`: queues the matching action at the back; dropped when full. */
  function SetOn(l: GrpLed, on: bool, grp: bool): (r: GrpLed)
    requires l.Valid()
    ensures r.Valid() && r.(queue := l.queue) == l
    ensures |l.queue.items| < LED_QUEUE_LEN ==> r.queue.items == l.queue.items + [ActionFor(on, grp)]
    ensures |l.queue.items| == LED_QUEUE_LEN ==> r == l
  {
    l.(queue := Q.SendToBack(l.queue, ActionFor(on, grp)).queue)
  }

  /** `toggle`: queues a toggle at the back; dropped when full. */
  function Toggle(l: GrpLed): (r: GrpLed)
    requires l.Valid()
    ensures r.Valid() && r.(queue := l.queue) == l
    ensures |l.queue.items| < LED_QUEUE_LEN ==> r.queue.items == l.queue.items + [LedToggle]
    ensures |l.queue.items| == LED_QUEUE_LEN ==> r == l
  {
    l.(queue := Q.SendToBack(l.queue, LedToggle).queue)
  }

  /** The switch interrupt's toggle: queued at the front; dropped when full. */
  function IntToggle(l: GrpLed): (r: GrpLed)
    requires l.Valid()
    ensures r.Valid() && r.(queue := l.queue) == l
    ensures |l.queue.items| < LED_QUEUE_LEN ==> r.queue.items == [LedToggle] + l.queue.items
    ensures |l.queue.items| == LED_QUEUE_LEN ==> r == l
  {
    l.(queue := Q.SendToFront(l.queue, LedToggle).queue)
  }

  /** `addJSON`: the device router's delivery, appended to the device buffer
      when it has room. */
  function AddJson(l: GrpLed, payload: seq<byte>, room: bool): (r: GrpLed)
    ensures room ==> r.device.messages == l.device.messages + [payload]
    ensures !room ==> r == l
    ensures r.(device := l.device) == l
  {
    l.(device := Send(l.device, payload, room).0)
  }

  /** `addGrpJSON`: the group router's delivery, appended to the group buffer
      when it has room. */
  function AddGrpJson(l: GrpLed, payload: seq<byte>, room: bool): (r: GrpLed)
    ensures room ==> r.group.messages == l.group.messages + [payload]
    ensures !room ==> r == l
    ensures r.(group := l.group) == l
  {
    l.(group := Send(l.group, payload, room).0)
  }

  /** The outcome of reading one message into the working buffer: the text
      handed to the parser (absent when nothing was read), the working buffer
      and the message buffer afterwards. */
  datatype JsonRead = JsonRead(text: Option<seq<byte>>, scratch: seq<byte>, buffer: MessageBuffer)

  /** Receives at most LED_JSON_LEN bytes into the working buffer and, when
      something was read, writes the terminator just past it. The result is
      absent when that write falls outside the working buffer. Otherwise the
      parser sees exactly the message up to its first NUL, whatever the
      buffer held before. */
  function ReadJson(b: MessageBuffer, scratch: seq<byte>): (r: Option<JsonRead>)
    ensures var got := Receive(b, LED_JSON_LEN);
      r.None? <==> 0 < got.len && |scratch| <= got.len
    ensures r.Some? ==> |r.value.scratch| == |scratch|
    ensures r.Some? ==> r.value.buffer == Receive(b, LED_JSON_LEN).buffer
    ensures r.Some? ==>
      var got := Receive(b, LED_JSON_LEN);
      && (r.value.text.None? <==> got.len == 0)
      && (r.value.text.Some? ==> r.value.text.value == CStr(got.data + [NUL]))
  {
    var got := Receive(b, LED_JSON_LEN);
    if got.len == 0 then Some(JsonRead(None, scratch, got.buffer))
    else if got.len < |scratch| then
      var filled := got.data + [NUL] + scratch[got.len + 1..];
      TerminatedPrefix(got.data, scratch[got.len + 1..]);
      Some(JsonRead(Some(CStr(filled)), filled, got.buffer))
    else None
  }

  /** With the source's LED_JSON_LEN-byte working buffer, a message of exactly
      LED_JSON_LEN bytes is received whole and its terminator is written one
      byte past the end of the buffer. */
  lemma TerminatorOverrunsScratch(b: MessageBuffer, scratch: seq<byte>)
    requires |scratch| == LED_JSON_LEN
    requires b.messages != [] && |b.messages[0]| == LED_JSON_LEN
    ensures ReadJson(b, scratch).None?
  {
  }

  /** The source's LED_JSON_LEN-byte working buffer and the model's wider one
      differ only on a message of exactly LED_JSON_LEN bytes: the narrow read
      is defined iff less than that was received, and then both reads hand the
      parser the same text and leave the message buffer alike. */
  lemma ScratchWidthMattersOnlyAtLimit(b: MessageBuffer, narrow: seq<byte>, wide: seq<byte>)
    requires |narrow| == LED_JSON_LEN && |wide| == SCRATCH_LEN
    ensures ReadJson(b, narrow).Some? <==> Receive(b, LED_JSON_LEN).len < LED_JSON_LEN
    ensures ReadJson(b, narrow).Some? ==>
      && ReadJson(b, wide).Some?
      && ReadJson(b, narrow).value.text == ReadJson(b, wide).value.text
      && ReadJson(b, narrow).value.buffer == ReadJson(b, wide).value.buffer
  {
    WiderScratchHoldsTerminator(b, wide);
  }

  /** With one byte more in the working buffer every read is defined, and a
      message without NUL bytes reaches the parser whole. */
  lemma WiderScratchHoldsTerminator(b: MessageBuffer, scratch: seq<byte>)
    requires |scratch| == SCRATCH_LEN
    ensures ReadJson(b, scratch).Some?
    ensures var got := Receive(b, LED_JSON_LEN);
      got.len > 0 && NUL !in got.data ==> ReadJson(b, scratch).value.text == Some(got.data)
  {
    var got := Receive(b, LED_JSON_LEN);
    if got.len > 0 && NUL !in got.data {
      CStrOfTerminated(got.data, []);
      assert got.data + [NUL] + [] == got.data + [NUL];
    }
  }

  /** `parseJSON`: a device request with a boolean `on` queues the matching
      non-group action; invalid JSON or a missing or non-boolean `on` queues
      nothing. The `source` property is not consulted. */
  function ParseJson(l: GrpLed, req: Option<LedRequest>): (r: GrpLed)
    requires l.Valid()
    ensures r.Valid()
    ensures req.None? || req.value.on.None? ==> r == l
    ensures req.Some? && req.value.on.Some? ==> r == SetOn(l, req.value.on.value, false)
  {
    if req.None? || req.value.on.None? then l else SetOn(l, req.value.on.value, false)
  }

  /** `parseGrpJSON`: a group request whose `source` text is this device's
      own id is ignored; otherwise a boolean `on` queues the matching group
      action. Comparing the source needs the interface. */
  function ParseGrpJson(l: GrpLed, req: Option<LedRequest>): (r: Option<GrpLed>)
    requires l.Valid()
    ensures r.None? <==> req.Some? && req.value.source.Some? && l.id.None?
    ensures r.Some? ==> r.value.Valid()
    ensures r.Some? && req.Some? && req.value.source.Some? && req.value.source == l.id ==> r.value == l
    ensures r.Some? && (req.None? || req.value.on.None?) ==> r.value == l
    ensures r.Some? && req.Some? && (req.value.source.None? || req.value.source != l.id) && req.value.on.Some? ==>
      r.value == SetOn(l, req.value.on.value, true)
  {
    if req.None? then Some(l)
    else if req.value.source.Some? && l.id.None? then None
    else if req.value.source.Some? && req.value.source == l.id then Some(l)
    else if req.value.on.None? then Some(l)
    else Some(SetOn(l, req.value.on.value, true))
  }

  /** A group message that this device itself sent queues nothing. */
  lemma OwnGroupMessageIgnored(l: GrpLed, on: Option<bool>)
    requires l.Valid() && l.id.Some?
    ensures ParseGrpJson(l, Some(LedRequest(l.id, on))) == Some(l)
  {
  }

  /** `execLed(state, grp)`: sets the LED, publishes `{"on":state}` to the
      state topic when there is an interface and, for an action that did not
      come from the group, publishes `{"source":id,"on":state}` to the group
      topic. The group publish reads the id before checking the interface. */
  function Exec(l: GrpLed, state: bool, grp: bool): (r: Option<GrpLed>)
    ensures r.None? <==> !grp && l.id.None?
    ensures r.Some? ==> r.value.on == state && r.value.(on := l.on, published := l.published) == l
    ensures r.Some? ==>
      var toState := if l.id.Some? then [Publication(l.stateTopic, StateJson(state), 1, false)] else [];
      var toGroup := if !grp then [Publication(l.grpTopic, GroupJson(l.id.value, state), 1, false)] else [];
      r.value.published == l.published + toState + toGroup
  {
    var toState := if l.id.Some? then [Publication(l.stateTopic, StateJson(state), 1, false)] else [];
    var l1 := l.(on := state, published := l.published + toState);
    if grp then Some(l1)
    else if l.id.None? then None
    else Some(l1.(published := l1.published + [Publication(l.grpTopic, GroupJson(l.id.value, state), 1, false)]))
  }

  /** The opening of a group message's JSON text, up to the id. */
  const GROUP_OPEN: string := "{\"source\":\""

  /** The close of a group message's JSON text, after the id. */
  function GroupClose(on: bool): string {
    if on then "\",\"on\":true}" else "\",\"on\":false}"
  }

  /** The compact JSON text of a group message,
      `{"source":"<id>","on":true}` or with `false`. */
  function GroupText(id: string, on: bool): (t: string)
    ensures |t| == |id| + (if on then 23 else 24)
  {
    GROUP_OPEN + id + GroupClose(on)
  }

  /** The source writes the group message into a LED_JSON_LEN-byte payload
      buffer, which holds at most LED_JSON_LEN - 1 characters before its
      terminator. The message never fits, whatever the id (even an empty
      one), so nothing the buffer can hold is the whole message. */
  lemma GroupTextOverflowsPayload(id: string, on: bool, held: string)
    requires |held| < LED_JSON_LEN
    ensures |GroupText(id, on)| >= LED_JSON_LEN + 3
    ensures held != GroupText(id, on)
  {
  }

  /** A payload buffer sized for the id: room for the longer group text and
      its terminator. */
  function GroupPayloadSize(id: string): (n: nat)
    ensures |GroupText(id, true)| < n && |GroupText(id, false)| < n
  {
    |id| + 25
  }

  /** Reads a group message's JSON text back into its id and state. */
  function ReadGroupText(t: string): Option<(string, bool)> {
    var open := |GROUP_OPEN|;
    if |t| >= open + 12 && t[..open] == GROUP_OPEN && t[|t| - 12..] == GroupClose(true) then
      Some((t[open..|t| - 12], true))
    else if |t| >= open + 13 && t[..open] == GROUP_OPEN && t[|t| - 13..] == GroupClose(false) then
      Some((t[open..|t| - 13], false))
    else None
  }

  /** In a payload buffer sized for the id the whole group message fits, and
      it names the device and the state: reading it back gives both. */
  lemma GroupTextReadsBack(id: string, on: bool)
    ensures |GroupText(id, on)| < GroupPayloadSize(id)
    ensures ReadGroupText(GroupText(id, on)) == Some((id, on))
  {
    var t := GroupText(id, on);
    var open := |GROUP_OPEN|;
    var close := GroupClose(on);
    assert t[..open] == GROUP_OPEN;
    assert t[|t| - |close|..] == close;
    assert t[open..|t| - |close|] == id;
    if !on {
      assert t[|t| - 12..][0] == ',' != GroupClose(true)[0];
    }
  }

  /** The fan-out rule: with an interface, every action publishes its state to
      the device's state topic once; a group-originated action publishes
      nothing else, so group changes are never echoed back to the group; any
      other action also publishes exactly one group message naming this device. */
  lemma ExecFanOut(l: GrpLed, state: bool, grp: bool)
    requires l.id.Some?
    ensures var r := Exec(l, state, grp);
      && r.Some?
      && var added := r.value.published[|l.published|..];
      && |added| >= 1
      && added[0] == Publication(l.stateTopic, StateJson(state), 1, false)
      && (grp ==> |added| == 1)
      && (!grp ==> |added| == 2 && added[1] == Publication(l.grpTopic, GroupJson(l.id.value, state), 1, false))
  {
    var r := Exec(l, state, grp);
    var toGroup := if !grp then [Publication(l.grpTopic, GroupJson(l.id.value, state), 1, false)] else [];
    Suffix(l.published, [Publication(l.stateTopic, StateJson(state), 1, false)] + toGroup);
    assert r.value.published == l.published + ([Publication(l.stateTopic, StateJson(state), 1, false)] + toGroup);
  }

  /** The LED state an action leads to. */
  function Apply(on: bool, a: GrpAction): (r: bool)
    ensures a == LedToggle ==> r != on
    ensures a != LedToggle ==> r == Target(a)
  {
    match a
    case LedOff => false
    case LedOn => true
    case LedGrpOff => false
    case LedGrpOn => true
    case LedToggle => !on
  }

  /** Executes one dequeued action. */
  function Dispatch(l: GrpLed, a: GrpAction): (r: Option<GrpLed>)
    ensures r.None? <==> !IsGroup(a) && l.id.None?
    ensures r.Some? ==> r.value.on == Apply(l.on, a) && r.value.queue == l.queue
  {
    Exec(l, Apply(l.on, a), IsGroup(a))
  }

  /** Takes the oldest action, if any, and executes it. */
  function TakeAction(l: GrpLed): (r: Option<GrpLed>)
    requires l.Valid()
    ensures l.queue.items == [] ==> r == Some(l)
    ensures l.queue.items != [] ==>
      (r.None? <==> !IsGroup(l.queue.items[0]) && l.id.None?)
    ensures l.queue.items != [] && r.Some? ==>
      && r.value.Valid()
      && r.value.queue.items == l.queue.items[1..]
      && r.value.on == Apply(l.on, l.queue.items[0])
  {
    var got := Q.Receive(l.queue);
    match got.item
    case None => Some(l)
    case Some(a) => Dispatch(l.(queue := got.queue), a)
  }

  /** Reads and parses one device message. */
  function DeviceStage(l: GrpLed, parse: Parser): (r: Option<GrpLed>)
    requires l.Valid()
    ensures r.Some? ==> r.value.Valid() && r.value.group == l.group && r.value.on == l.on
    ensures r.Some? ==> r.value.device == Receive(l.device, LED_JSON_LEN).buffer
  {
    match ReadJson(l.device, l.scratch)
    case None => None
    case Some(d) =>
      var l1 := l.(scratch := d.scratch, device := d.buffer);
      if d.text.None? then Some(l1) else Some(ParseJson(l1, parse(d.text.value)))
  }

  /** Reads and parses one group message. */
  function GroupStage(l: GrpLed, parse: Parser): (r: Option<GrpLed>)
    requires l.Valid()
    ensures r.Some? ==> r.value.Valid() && r.value.device == l.device && r.value.on == l.on
    ensures r.Some? ==> r.value.group == Receive(l.group, LED_JSON_LEN).buffer
  {
    match ReadJson(l.group, l.scratch)
    case None => None
    case Some(g) =>
      var l1 := l.(scratch := g.scratch, group := g.buffer);
      if g.text.None? then Some(l1) else ParseGrpJson(l1, parse(g.text.value))
  }

  /** One pass of the task loop: the device buffer, then the group buffer,
      then at most one queued action. */
  function RunOnce(l: GrpLed, parse: Parser): (r: Option<GrpLed>)
    requires l.Valid()
    ensures r.Some? ==> r.value.Valid()
    ensures r.Some? ==> r.value.device == Receive(l.device, LED_JSON_LEN).buffer
    ensures r.Some? ==> r.value.group == Receive(l.group, LED_JSON_LEN).buffer
  {
    match DeviceStage(l, parse)
    case None => None
    case Some(l1) =>
      match GroupStage(l1, parse)
      case None => None
      case Some(l2) => TakeAction(l2)
  }

  /** The order within one pass: with an interface, an empty queue, and one
      valid request waiting in each buffer (the group one from another
      device), the device request is queued first and so is the one executed
      in this pass, while the group request waits in the queue. */
  lemma DeviceBeforeGroup(l: GrpLed, parse: Parser, dmsg: seq<byte>, gmsg: seq<byte>, don: bool, gon: bool, other: string)
    requires l.Valid() && l.id.Some? && l.queue.items == []
    requires l.device.messages == [dmsg] && l.group.messages == [gmsg]
    requires 0 < |dmsg| <= LED_JSON_LEN && 0 < |gmsg| <= LED_JSON_LEN
    requires NUL !in dmsg && NUL !in gmsg
    requires parse(dmsg) == Some(LedRequest(None, Some(don)))
    requires parse(gmsg) == Some(LedRequest(Some(other), Some(gon)))
    requires Some(other) != l.id
    ensures var r := RunOnce(l, parse);
      && r.Some?
      && r.value.on == don
      && r.value.queue.items == [ActionFor(gon, true)]
      && r.value.device.messages == [] && r.value.group.messages == []
  {
    DeviceRequestQueued(l, parse, dmsg, don);
    var l1 := DeviceStage(l, parse).value;
    GroupRequestQueued(l1, parse, gmsg, gon, other);
    var l2 := GroupStage(l1, parse).value;
    assert RunOnce(l, parse) == TakeAction(l2);
    assert l2.queue.items[0] == ActionFor(don, false) && !IsGroup(ActionFor(don, false));
    assert l2.queue.items[1..] == [ActionFor(gon, true)];
  }

  /** A valid device request alone in the device buffer, read with an empty
      queue, becomes the one queued action. */
  lemma DeviceRequestQueued(l: GrpLed, parse: Parser, dmsg: seq<byte>, don: bool)
    requires l.Valid() && l.queue.items == [] && l.device.messages == [dmsg]
    requires 0 < |dmsg| <= LED_JSON_LEN && NUL !in dmsg
    requires parse(dmsg) == Some(LedRequest(None, Some(don)))
    ensures var r := DeviceStage(l, parse);
      && r.Some? && r.value.Valid()
      && r.value.queue.items == [ActionFor(don, false)]
      && r.value.device.messages == [] && r.value.group == l.group
      && r.value.on == l.on && r.value.id == l.id
  {
    DeviceStageParses(l, parse);
    assert ParseJson(l, parse(dmsg)) == SetOn(l, don, false);
  }

  /** A valid group request from another device, alone in the group buffer,
      is queued behind what the queue already holds when there is room. */
  lemma GroupRequestQueued(l: GrpLed, parse: Parser, gmsg: seq<byte>, gon: bool, other: string)
    requires l.Valid() && l.id.Some? && |l.queue.items| < LED_QUEUE_LEN && l.group.messages == [gmsg]
    requires 0 < |gmsg| <= LED_JSON_LEN && NUL !in gmsg
    requires parse(gmsg) == Some(LedRequest(Some(other), Some(gon)))
    requires Some(other) != l.id
    ensures var r := GroupStage(l, parse);
      && r.Some? && r.value.Valid()
      && r.value.queue.items == l.queue.items + [ActionFor(gon, true)]
      && r.value.group.messages == [] && r.value.device == l.device
      && r.value.on == l.on
  {
    GroupStageParses(l, parse);
    assert ParseGrpJson(l, parse(gmsg)) == Some(SetOn(l, gon, true));
  }

  /** A NUL-free device message that fits the working buffer is taken off the
      device buffer and parsed whole; only the queue can change. */
  lemma DeviceStageParses(l: GrpLed, parse: Parser)
    requires l.Valid() && l.device.messages != []
    requires 0 < |l.device.messages[0]| <= LED_JSON_LEN && NUL !in l.device.messages[0]
    ensures var r := DeviceStage(l, parse);
      && r.Some?
      && r.value.queue == ParseJson(l, parse(l.device.messages[0])).queue
      && r.value.device.messages == l.device.messages[1..]
      && r.value.group == l.group && r.value.on == l.on && r.value.id == l.id
  {
    WiderScratchHoldsTerminator(l.device, l.scratch);
  }

  /** A NUL-free group message that fits the working buffer is taken off the
      group buffer and parsed whole; only the queue can change. */
  lemma GroupStageParses(l: GrpLed, parse: Parser)
    requires l.Valid() && l.id.Some? && l.group.messages != []
    requires 0 < |l.group.messages[0]| <= LED_JSON_LEN && NUL !in l.group.messages[0]
    ensures var r := GroupStage(l, parse);
      && r.Some?
      && r.value.queue == ParseGrpJson(l, parse(l.group.messages[0])).value.queue
      && r.value.group.messages == l.group.messages[1..]
      && r.value.device == l.device && r.value.on == l.on && r.value.id == l.id
  {
    WiderScratchHoldsTerminator(l.group, l.scratch);
  }
}
