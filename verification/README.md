# MQTT agent, LED agents, routers and transport dump of the Pico W IoT course

This project models, in Dafny, the sequential core of the MQTT client stack
that the course projects for the Raspberry Pi Pico W build up:

- **The MQTT agent** (`MqttAgentDefs`, `MqttAgent`). It has a seven-state
  connection machine driven by one iteration of its task loop, and a state
  setter whose Offline→MQTTRecon hop needs an attached observer. It has the
  configuration calls (`credentials`, `mqttConnect`, `setObserver`,
  `setRouter`, `route`, `close`, `stop`). It also builds the publish and
  subscribe commands it hands to the MQTT agent library, together with their
  completion callbacks.
  - The agent record carries three parts that exist only in the model:
    - a trace of every call the agent makes on its observer, transport,
      router and command queue;
    - the multiset of heap blocks still allocated to commands;
    - the commands still in flight.
  - Every answer from the outside world is an input of the operation that
    asks for it: Wi-Fi join, TCP connect, MQTT connect, command-loop status,
    heap allocations and queue acceptance.
- **The LED agents.**
  - `PubLedAgent` publishes the literal `{"on": True}` / `{"on": False}`
    text.
  - `GrpLedAgent` is group-aware. It reads JSON requests from a device
    buffer and a group buffer, filters out its own group messages, and fans
    its state out to the state topic and, for non-group actions, the group
    topic.
  - Both sit on the bounded zero-wait action queue `ActionQueue`: `setOn`
    and `toggle` send to the back, the switch interrupt's toggle sends to
    the front, and a send to a full queue is dropped.
  - `LedCommon` holds their shared constants, the parsed form of a request,
    and the message buffers.
- **The topic routers.**
  - `RouterLed` is the subscribing project's device router, with a lazily
    built request topic and a pass-through route.
  - `RouterGrpLed` is the group router. It always delegates to the device
    router, then delivers to the group buffer on an exact length-and-bytes
    match of the group topic.
  - `RouterLedControl` is the first project's router, which owns the LED.
    It copies the payload into a 20-byte buffer, terminates it, parses it,
    and sets the LED from a boolean `on`.
- **The transport's hex dump and trampolines** (`Transport`).
  - `debugPrintBuffer` is modelled as the text it prints, as a function
    (`Dump`) and as a method following the source's loops
    (`DebugPrintBuffer`). A reader (`ReadLines`) shows that every byte
    appears exactly once, in order.
  - `staticSend`/`staticRead` are modelled as functions that return exactly
    what the context's transport answers, and that keep the transport's
    documented result contract whenever the transport does.
- `Topics` gives the topic shapes `TNG/<id>/TPC/<suffix>`,
  `GRP/<group>/TPC/<suffix>` and `TNG/<id>/LC/<online|offline>`.
- JSON parsing is a parameter (`LedCommon.Parser`). It maps the text before
  the first NUL to the optional `source` and `on` properties.

Where a source call would dereference a NULL pointer, the model does one of
two things:

- It requires the pointer to be set. Examples are `MqttAgent.Ready`, the
  router slot in `MqttAgent.SetRouter`, and `RouterGrpLed.Ready`.
- It returns no result (`None`), as the group LED agent does when it reads
  a missing interface's id.

The model follows the code where it differs from the written design of the
system:

- A failed MQTT handshake does not close the transport; the state simply
  becomes Offline.
- The command-loop error branch of Online goes Offline without closing the
  transport.
- Reconnecting is not unconditional: the Offline→MQTTRecon hop happens only
  when an observer is attached and the reconnect flag is set.
- The lifecycle topics are `TNG/<id>/LC/...`, as the device's tools
  subscribe to them, not a separate `lifecycle` root.
- `stop` also deletes the task. That part is not modelled.

## Model

| member | source | states |
|---|---|---|
| Topics.ThingTopicInjectiveInId | 8-State/twinThingPicoWExample/py/ping1.py:34-36 | two device ids give the same device topic for a suffix iff they are the same id |
| Topics.ThingTopicInjectiveInSuffix | 8-State/twinThingPicoWExample/py/ping1.py:34-35 | one device's topics for two suffixes coincide iff the suffixes do |
| Topics.ThingTopicIsNotGroupTopic | 6-Subscribe/GrpPubSubLED/py/grpOn.py:37-38 | no device topic is ever equal to a group topic |
| Topics.LifeCycleTopicsDiffer | 6-Subscribe/AssPubSubLEDToggle/src/MQTTAgent.cpp:150-167 | a device's will (offline) topic and online topic are different topics |
| MqttAgentDefs.SevenStates | 6-Subscribe/PubSubLED/src/MQTTAgent.h:46 | the state enumeration has exactly seven values, and enumerator values 0..6 correspond one-to-one with the states |
| MqttAgent.SetConnState | 6-Subscribe/AssPubSubLEDToggle/src/MQTTAgent.cpp:464-485 | the resulting state is MQTTRecon when Offline is set with an observer and the reconnect flag, otherwise the requested state; the observer hears Offline/Online only when attached; nothing else changes |
| MqttAgent.SetOfflineNotifiesOnce | 6-Subscribe/AssPubSubLEDToggle/src/MQTTAgent.cpp:464-485 | going Offline fires exactly one offline notice with an observer and none without; with an observer it ends in MQTTRecon iff the reconnect flag is set; without an observer it stays Offline and the trace is unchanged, whatever the flag |
| MqttAgent.SetCredentials | 6-Subscribe/AssPubSubLEDToggle/src/MQTTAgent.cpp:140-170 | the client id defaults to the user name; each lifecycle topic is built from that id only when it does not exist yet and its storage was allocated |
| MqttAgent.MqttConnectRequest | 6-Subscribe/AssPubSubLEDToggle/src/MQTTAgent.cpp:179-186 | records target, port and reconnect flag and requests TCP; it opens nothing (the trace is unchanged) and always reports true |
| MqttAgent.SetObserver | 6-Subscribe/AssPubSubLEDToggle/src/MQTTAgent.cpp:439-441 | fills or clears the single observer slot and changes nothing else |
| MqttAgent.SetRouter | 6-Subscribe/AssPubSubLEDToggle/src/MQTTAgent.cpp:684-690 | fills the single router slot; the router is asked to subscribe exactly when the agent is already Online |
| MqttAgent.Route | 6-Subscribe/AssPubSubLEDToggle/src/MQTTAgent.cpp:702-709 | an inbound message reaches the router, unchanged and first, iff a router is attached; the observer hears of it exactly once iff attached; only the trace grows |
| MqttAgent.PubToTopicAsWritten | 6-Subscribe/AssPubSubLEDToggle/src/MQTTAgent.cpp:514-568 | the source's publish succeeds iff all three allocations and the enqueue succeed, and only then is a command in flight |
| MqttAgent.PubToTopicAsWrittenLeaks | 6-Subscribe/AssPubSubLEDToggle/src/MQTTAgent.cpp:537-559 | a refused enqueue leaves three blocks live with no command to free them, so the allocation ledger no longer balances |
| MqttAgent.PubToTopic | 6-Subscribe/AssPubSubLEDToggle/src/MQTTAgent.cpp:514-568 | success iff every allocation and the enqueue succeed; failure leaves the agent unchanged; on success one command is queued holding the topic and exactly the first payloadLen bytes, at QoS 1 whatever QoS was asked, owning three fresh blocks, and the send notice fires only then |
| MqttAgent.SubscriptionQoS | 6-Subscribe/AssPubSubLEDToggle/src/MQTTAgent.cpp:620-641 | QoS 0, 1 and 2 map to themselves; every other value maps to QoS 1 |
| MqttAgent.SubToTopicAsWritten | 6-Subscribe/AssPubSubLEDToggle/src/MQTTAgent.cpp:589-655 | the source's subscribe succeeds iff all allocations and the enqueue succeed, and only then is a command in flight |
| MqttAgent.SubToTopicAsWrittenLeaks | 6-Subscribe/AssPubSubLEDToggle/src/MQTTAgent.cpp:597-614 | a failed third allocation leaves two blocks live with nothing to free them, so the ledger no longer balances |
| MqttAgent.SubToTopic | 6-Subscribe/AssPubSubLEDToggle/src/MQTTAgent.cpp:589-655 | success iff every allocation and the enqueue succeed; failure leaves the agent unchanged; on success exactly one subscription for the topic at the normalised QoS is queued, owning three fresh blocks, with one send notice |
| MqttAgent.Complete | 6-Subscribe/AssPubSubLEDToggle/src/MQTTAgent.cpp:575-580 | a completion callback (publish here; the subscribe one at lines 662-669 frees its three blocks alike) retires its command and frees exactly its three blocks, all of which were live; a balanced ledger stays balanced |
| MqttAgent.PublishThenCompleteRestores | 6-Subscribe/AssPubSubLEDToggle/src/MQTTAgent.cpp:514-580 | a successful publish followed by its completion returns live blocks and in-flight commands to their starting values |
| MqttAgent.SubscribeThenCompleteRestores | 6-Subscribe/AssPubSubLEDToggle/src/MQTTAgent.cpp:589-669 | a successful subscribe followed by its completion returns live blocks and in-flight commands to their starting values |
| MqttAgent.PublishKeepsLedger | 6-Subscribe/AssPubSubLEDToggle/src/MQTTAgent.cpp:514-568 | a publish, whatever its outcome, keeps the allocation ledger balanced |
| MqttAgent.SubscribeKeepsLedger | 6-Subscribe/AssPubSubLEDToggle/src/MQTTAgent.cpp:589-655 | a subscribe, whatever its outcome, keeps the allocation ledger balanced |
| MqttAgent.TcpConnect | 6-Subscribe/AssPubSubLEDToggle/src/MQTTAgent.cpp:422-433 | a TCP connect leads to TCPConned on success and to Offline (or on to MQTTRecon) on failure, keeping configuration and ledger |
| MqttAgent.TcpConnectUsesTarget | 6-Subscribe/AssPubSubLEDToggle/src/MQTTAgent.cpp:422-433 | the first thing the connect does is open the transport to the target and port that mqttConnect recorded |
| MqttAgent.MqttConnectStep | 6-Subscribe/AssPubSubLEDToggle/src/MQTTAgent.cpp:240-250 | the MQTT handshake leads to MQTTReq on success and to Offline (or MQTTRecon) on failure, without closing the transport |
| MqttAgent.MqttConnectUsesCredentials | 6-Subscribe/AssPubSubLEDToggle/src/MQTTAgent.cpp:362-413 | the CONNECT asks for a clean session with the stored id, user and password, and asks for a keep-alive of 10 seconds, and registers `{'online':0}` on the will topic at QoS 1, not retained |
| MqttAgent.EnterOnline | 6-Subscribe/AssPubSubLEDToggle/src/MQTTAgent.cpp:256-262 | the MQTTConned step always ends Online and keeps configuration, extending the trace |
| MqttAgent.OnlineAnnouncement | 6-Subscribe/AssPubSubLEDToggle/src/MQTTAgent.cpp:257-258 | the announcement is made with the state already Online |
| MqttAgent.AnnouncementTrace | 6-Subscribe/AssPubSubLEDToggle/src/MQTTAgent.cpp:257-258 | the announcement's trace is the online notice followed by the publish's own events |
| MqttAgent.EnterOnlineTrace | 6-Subscribe/AssPubSubLEDToggle/src/MQTTAgent.cpp:256-262 | entering Online appends, in order, the online notice, the announcement's events, and the router's subscribe |
| MqttAgent.OnlineEntryNotifies | 6-Subscribe/AssPubSubLEDToggle/src/MQTTAgent.cpp:256-262 | entering Online fires the online notice exactly once (as the first new event) iff an observer is attached, and the router subscribe exactly once (as the last new event) iff a router is attached |
| MqttAgent.AnnouncementPublishes | 6-Subscribe/AssPubSubLEDToggle/src/MQTTAgent.cpp:257-258 | the announcement is queued iff every allocation and the enqueue succeed, and then it is `{'online':1}` on the online topic at QoS 1, not retained |
| MqttAgent.OnlineEntryPublishes | 6-Subscribe/AssPubSubLEDToggle/src/MQTTAgent.cpp:256-262 | entering Online queues exactly one command (the `{'online':1}` publish, QoS 1, not retained, recorded in the trace) iff it could be built, and otherwise nothing |
| MqttAgent.LeaveOnlineStep | 6-Subscribe/AssPubSubLEDToggle/src/MQTTAgent.cpp:264-298 | the Online step always ends Offline (or on to MQTTRecon) and keeps configuration and ledger |
| MqttAgent.Closing | 6-Subscribe/AssPubSubLEDToggle/src/MQTTAgent.cpp:270-296 | what leaving Online closes: the transport iff the command loop returned success, and the session as well iff it was still connected |
| MqttAgent.LeaveOnline | 6-Subscribe/AssPubSubLEDToggle/src/MQTTAgent.cpp:264-298 | leaving Online goes Offline (MQTTRecon only with recon and observer); the transport is closed iff the loop returned success, MQTT is disconnected iff success with the session still up, and the offline notice fires once iff an observer is attached |
| MqttAgent.ReconStep | 6-Subscribe/AssPubSubLEDToggle/src/MQTTAgent.cpp:300-306 | the MQTTRecon step always requests TCP again, keeping configuration and ledger |
| MqttAgent.Step | 6-Subscribe/AssPubSubLEDToggle/src/MQTTAgent.cpp:219-316 | every iteration follows the transition table `Edge`; MQTTRecon is reached from another state only via the hop that needs the flag and an observer; Online is entered only from MQTTConned; configuration is kept and the trace only grows |
| MqttAgent.StepDispatch | 6-Subscribe/AssPubSubLEDToggle/src/MQTTAgent.cpp:227-312 | which handler an iteration runs in each of the seven states; Offline does nothing, and TCPReq without Wi-Fi does nothing |
| MqttAgent.StepKeepsLedger | 6-Subscribe/AssPubSubLEDToggle/src/MQTTAgent.cpp:219-316 | every iteration of the loop with the announcement made through the repaired publish keeps the allocation ledger balanced (the source's own step does not, see `EnterOnlineAsWrittenLeaks`) |
| MqttAgent.EnterOnlineKeepsLedger | 6-Subscribe/AssPubSubLEDToggle/src/MQTTAgent.cpp:256-262 | entering Online, with the repaired publish, keeps a balanced ledger balanced |
| MqttAgent.EnterOnlineAsWritten | 6-Subscribe/AssPubSubLEDToggle/src/MQTTAgent.cpp:256-262 | the source's MQTTConned step, announcing through the leaking publish, ends Online and queues exactly what the repaired step queues |
| MqttAgent.EnterOnlineAsWrittenLeaks | 6-Subscribe/AssPubSubLEDToggle/src/MQTTAgent.cpp:256-262 | when the queue refuses the announcement, the source's step leaves the ledger unbalanced while the repaired step keeps it balanced |
| MqttAgent.SubscribeEach | 6-Subscribe/PubSubLED/src/MQTTRouterLED.cpp:28-44 | the subToTopic calls a router's subscribe makes back into the agent, one per requested filter, keep the agent's configuration and state |
| MqttAgent.SubscribeEachQueues | 6-Subscribe/AssPubSubLEDToggle/src/MQTTAgent.cpp:589-655 | the router's subscriptions add one in-flight command per successful subscribe, behind those already in flight, and keep a balanced ledger balanced |
| MqttAgent.SubscribeEachFilters | 6-Subscribe/AssPubSubLEDToggle/src/MQTTAgent.cpp:589-655 | when every subscribe succeeds, the new commands are subscriptions to the requested filters, in the requested order |
| MqttAgent.OnlineEntryWithRouter | 6-Subscribe/AssPubSubLEDToggle/src/MQTTAgent.cpp:256-262 | entering Online with a router attached and everything succeeding queues the online announcement and then one subscription per router filter, in order, 1 + n commands in all, keeping the ledger balanced |
| Wiring.DeviceRouterOnlineEntryQueuesTwo | 6-Subscribe/PubSubLED/src/MQTTRouterLED.cpp:28-44 | with the device LED router attached and its topic not yet built, entering Online queues two commands: the announcement and the `LED/req` subscription |
| Wiring.GroupRouterOnlineEntryQueuesThree | 6-Subscribe/GrpPubSubLED/src/MQTTRouterGrpLED.cpp:26-31 | with the group LED router attached and its device topic not yet built, entering Online queues three commands: the announcement, the `LED/req` subscription and the group subscription |
| MqttAgent.Close | 6-Subscribe/AssPubSubLEDToggle/src/MQTTAgent.cpp:340-344 | close closes the transport, clears the reconnect flag and ends Offline, so the reconnect hop cannot occur |
| MqttAgent.OfflineRests | 6-Subscribe/AssPubSubLEDToggle/src/MQTTAgent.cpp:228-229 | an Offline agent is unchanged by any number of iterations |
| MqttAgent.CloseRests | 6-Subscribe/AssPubSubLEDToggle/src/MQTTAgent.cpp:340-344 | after close the agent rests Offline under any further iterations |
| MqttAgent.Stop | 6-Subscribe/AssPubSubLEDToggle/src/MQTTAgent.cpp:449-458 | stop does nothing when already Offline; otherwise it closes the transport and goes Offline, leaving the reconnect flag (so it may hop to MQTTRecon) |
| MqttAgent.InitialAgent | 6-Subscribe/PubSubLED/src/MQTTAgent.h:242-272 | a new agent is Offline (enumerator 0), reconnect off, port 1883, no target, empty router and observer slots, a balanced ledger, and it does nothing under iterations |
| ActionQueue.SendToBack | 6-Subscribe/GrpPubSubLED/src/LEDAgent.cpp:116-147 | a zero-wait back send is accepted iff there is room, making the item the newest; a refused send changes nothing |
| ActionQueue.SendToFront | 6-Subscribe/GrpPubSubLED/src/LEDAgent.cpp:152-158 | a front send is accepted iff there is room, making the item the next to be received; a refused send changes nothing |
| ActionQueue.Receive | 6-Subscribe/GrpPubSubLED/src/LEDAgent.cpp:199-200 | a zero-wait receive yields nothing iff the queue is empty, and otherwise removes and yields the oldest item |
| ActionQueue.Drain | 6-Subscribe/GrpPubSubLED/src/LEDAgent.cpp:199-200 | receiving until empty yields exactly the queued items, oldest first |
| ActionQueue.BackIsLast | 6-Subscribe/GrpPubSubLED/src/LEDAgent.cpp:116-147 | an item sent to the back comes out after everything already queued |
| ActionQueue.FrontIsNext | 6-Subscribe/GrpPubSubLED/src/LEDAgent.cpp:152-158 | an item sent to the front is the very next received, with the others following in their old order |
| ActionQueue.FullQueueDropsAll | 6-Subscribe/GrpPubSubLED/src/LEDAgent.cpp:116-158 | a full queue refuses every send, back or front |
| ActionQueue.BackSendsKeepPrefix | 6-Subscribe/GrpPubSubLED/src/LEDAgent.cpp:116-147 | a burst of back sends keeps, in order, as many items as there is room for and drops the rest |
| LedCommon.LedGroupTopic | 6-Subscribe/GrpPubSubLED/py/grpOn.py:38 | the shared LED group topic is `GRP/LED/TPC/req` |
| LedCommon.Send | 6-Subscribe/GrpPubSubLED/src/LEDAgent.cpp:311-323 | a zero-wait message send appends the whole message and reports its length when there is room, and otherwise changes nothing and reports 0 |
| LedCommon.Receive | 6-Subscribe/GrpPubSubLED/src/LEDAgent.cpp:176-181 | a receive of at most cap bytes yields 0 from an empty buffer or an oversized front message (left in place), and otherwise removes and yields the front message whole |
| LedCommon.OversizedMessageBlocks | 6-Subscribe/GrpPubSubLED/src/LEDAgent.cpp:176-197 | an oversized front message is never consumed: every later receive yields nothing and the buffer never changes |
| PubLedAgent.New | 5-Publish/PubLED/src/LEDAgent.cpp:22-54 | a new agent has an empty queue of five, the LED off, no publications, and a state topic iff there is an interface whose topic storage was allocated, built from its id |
| PubLedAgent.SetOn | 5-Publish/PubLED/src/LEDAgent.cpp:94-105 | setOn queues LEDOn or LEDOff at the back when there is room, and otherwise changes nothing |
| PubLedAgent.Toggle | 5-Publish/PubLED/src/LEDAgent.cpp:111-117 | toggle queues a toggle at the back when there is room, and otherwise changes nothing |
| PubLedAgent.IntToggle | 5-Publish/PubLED/src/LEDAgent.cpp:122-128 | the interrupt toggle is queued at the front when there is room, and otherwise changes nothing |
| PubLedAgent.Apply | 5-Publish/PubLED/src/LEDAgent.cpp:143-162 | LEDOn lights the LED, LEDOff darkens it, a toggle inverts it |
| PubLedAgent.StatePayload | 5-Publish/PubLED/src/LEDAgent.cpp:174-179 | the state text and its terminator fit the 16-byte payload buffer, and the text holds no NUL, so its C length is its full length |
| PubLedAgent.StatePayloadReadsBack | 5-Publish/PubLED/src/LEDAgent.cpp:174-179 | the published text reads back as the state it was made for (`{"on": True}` / `{"on": False}`), so the two payloads differ |
| PubLedAgent.Exec | 5-Publish/PubLED/src/LEDAgent.cpp:170-189 | the LED takes the state; with an interface exactly one publication of the state text is made to the state topic at QoS 1, not retained; without one nothing is published |
| PubLedAgent.RunOnce | 5-Publish/PubLED/src/LEDAgent.cpp:134-163 | one pass takes the oldest action, if any, applies it to the LED, and publishes once iff there is an interface; an empty queue changes nothing |
| PubLedAgent.RunAllFolds | 5-Publish/PubLED/src/LEDAgent.cpp:134-163 | draining the queue leaves the LED at the fold of the queued actions, publishes once per action with an interface, and the last publication is the final state's text |
| PubLedAgent.FoldByLastSetting | 5-Publish/PubLED/src/LEDAgent.cpp:143-162 | the fold equals the last explicit on/off (or the start state) flipped once per toggle after it |
| GrpLedAgent.ActionFor | 6-Subscribe/GrpPubSubLED/src/LEDAgent.cpp:116-130 | setOn(on, grp) queues the explicit action whose target state is `on` and whose group flag is `grp` |
| GrpLedAgent.ActionForIsBijective | 6-Subscribe/GrpPubSubLED/src/LEDAgent.cpp:116-130 | the setOn table is a bijection between (on, grp) pairs and the four explicit actions |
| GrpLedAgent.Fresh | 6-Subscribe/PubSubLED/src/LEDAgent.h:108-114 | a constructed agent starts with an empty action queue of capacity five, the LED off, nothing published and both message buffers empty |
| GrpLedAgent.NewAsWritten | 6-Subscribe/GrpPubSubLED/src/LEDAgent.cpp:53-68 | the source's construction is undefined exactly when there is an interface, the state allocation succeeds and the group allocation fails |
| GrpLedAgent.NewAsWrittenMisbehaves | 6-Subscribe/GrpPubSubLED/src/LEDAgent.cpp:62-66 | a failed group allocation is written through, and a successful one next to a failed state allocation is left unwritten |
| GrpLedAgent.New | 6-Subscribe/GrpPubSubLED/src/LEDAgent.cpp:23-70 | a new agent has an empty queue of five, the LED off, empty buffers, and each topic iff there is an interface and that topic's own allocation succeeded, holding the right topic |
| GrpLedAgent.NewAgreesWhenAllocated | 6-Subscribe/GrpPubSubLED/src/LEDAgent.cpp:23-70 | when both allocations succeed the source's construction and the corrected one agree |
| GrpLedAgent.SetOn | 6-Subscribe/GrpPubSubLED/src/LEDAgent.cpp:116-135 | setOn queues the matching action at the back when there is room, and otherwise changes nothing |
| GrpLedAgent.Toggle | 6-Subscribe/GrpPubSubLED/src/LEDAgent.cpp:141-147 | toggle queues a toggle at the back when there is room, and otherwise changes nothing |
| GrpLedAgent.IntToggle | 6-Subscribe/GrpPubSubLED/src/LEDAgent.cpp:152-158 | the interrupt toggle is queued at the front when there is room, and otherwise changes nothing |
| GrpLedAgent.AddJson | 6-Subscribe/GrpPubSubLED/src/LEDAgent.cpp:311-323 | a device delivery is appended to the device buffer when it has room; nothing else changes |
| GrpLedAgent.AddGrpJson | 6-Subscribe/GrpPubSubLED/src/LEDAgent.cpp:330-342 | a group delivery is appended to the group buffer when it has room; nothing else changes |
| GrpLedAgent.ReadJson | 6-Subscribe/GrpPubSubLED/src/LEDAgent.cpp:176-185 | a read is undefined exactly when the terminator would land outside the working buffer; otherwise the parser sees the received message up to its first NUL, or nothing when nothing was read |
| GrpLedAgent.TerminatorOverrunsScratch | 6-Subscribe/GrpPubSubLED/src/LEDAgent.cpp:167-183 | with the source's 20-byte working buffer, a 20-byte message writes its terminator past the buffer's end |
| GrpLedAgent.ScratchWidthMattersOnlyAtLimit | 6-Subscribe/GrpPubSubLED/src/LEDAgent.cpp:167-197 | the source's 20-byte working buffer reads a message iff it is shorter than 20 bytes, and then hands the parser the same text as the model's 21-byte buffer |
| GrpLedAgent.WiderScratchHoldsTerminator | 6-Subscribe/GrpPubSubLED/src/LEDAgent.cpp:176-197 | with one byte more every read is defined, and a NUL-free message reaches the parser whole |
| GrpLedAgent.ParseJson | 6-Subscribe/GrpPubSubLED/src/LEDAgent.cpp:290-304 | a device request with a boolean `on` queues the matching non-group action; invalid JSON or a missing or non-boolean `on` queues nothing |
| GrpLedAgent.ParseGrpJson | 6-Subscribe/GrpPubSubLED/src/LEDAgent.cpp:349-376 | a group request from this device's own id queues nothing; otherwise a boolean `on` queues the matching group action; it is undefined exactly when a source must be compared and there is no interface |
| GrpLedAgent.OwnGroupMessageIgnored | 6-Subscribe/GrpPubSubLED/src/LEDAgent.cpp:357-365 | a group message this device sent queues nothing, whatever its `on` |
| GrpLedAgent.Exec | 6-Subscribe/GrpPubSubLED/src/LEDAgent.cpp:233-273 | the LED takes the state; the state is published to the state topic iff there is an interface, and a group message naming this device follows iff the action is not a group one; it is undefined exactly for a non-group action without an interface |
| GrpLedAgent.GroupText | 6-Subscribe/GrpPubSubLED/src/LEDAgent.cpp:256-262 | the group message's JSON text is 23 characters plus the id for `true`, 24 plus the id for `false` |
| GrpLedAgent.GroupTextOverflowsPayload | 6-Subscribe/GrpPubSubLED/src/LEDAgent.cpp:237-262 | the group message is at least 23 characters for every id, so the source's 20-byte payload buffer can never hold it |
| GrpLedAgent.GroupPayloadSize | 6-Subscribe/GrpPubSubLED/src/LEDAgent.cpp:237-262 | a payload buffer sized for the id has room for either group text and its terminator |
| GrpLedAgent.GroupTextReadsBack | 6-Subscribe/GrpPubSubLED/src/LEDAgent.cpp:256-262 | in a buffer sized for the id the group text fits, and reading it back gives the id and the state |
| GrpLedAgent.ExecFanOut | 6-Subscribe/GrpPubSubLED/src/LEDAgent.cpp:245-272 | with an interface every action publishes its state once to the state topic; a group action publishes nothing else, so group changes are never echoed; any other action publishes exactly one group message |
| GrpLedAgent.Apply | 6-Subscribe/GrpPubSubLED/src/LEDAgent.cpp:199-222 | Off/GrpOff darken, On/GrpOn light, and a toggle inverts the LED |
| GrpLedAgent.Dispatch | 6-Subscribe/GrpPubSubLED/src/LEDAgent.cpp:201-222 | a dequeued action sets the LED to its applied state, executed as a group action exactly for the group actions |
| GrpLedAgent.TakeAction | 6-Subscribe/GrpPubSubLED/src/LEDAgent.cpp:199-224 | at most one action is taken per pass: the oldest, applied to the LED; an empty queue changes nothing |
| GrpLedAgent.DeviceStage | 6-Subscribe/GrpPubSubLED/src/LEDAgent.cpp:176-185 | the device stage consumes at most one device message and leaves the group buffer and the LED alone |
| GrpLedAgent.GroupStage | 6-Subscribe/GrpPubSubLED/src/LEDAgent.cpp:188-197 | the group stage consumes at most one group message and leaves the device buffer and the LED alone |
| GrpLedAgent.RunOnce | 6-Subscribe/GrpPubSubLED/src/LEDAgent.cpp:164-226 | one pass consumes at most one message from each buffer |
| GrpLedAgent.DeviceBeforeGroup | 6-Subscribe/GrpPubSubLED/src/LEDAgent.cpp:174-224 | within one pass the device request is queued before the group request, so it is the one executed, while the group request waits in the queue |
| GrpLedAgent.DeviceRequestQueued | 6-Subscribe/GrpPubSubLED/src/LEDAgent.cpp:176-185 | a valid device request read with an empty queue becomes the single queued non-group action |
| GrpLedAgent.GroupRequestQueued | 6-Subscribe/GrpPubSubLED/src/LEDAgent.cpp:188-197 | a valid group request from another device is queued, as a group action, behind what is already queued |
| GrpLedAgent.DeviceStageParses | 6-Subscribe/GrpPubSubLED/src/LEDAgent.cpp:176-185 | with the model's LED_JSON_LEN + 1-byte working buffer, a NUL-free device message of at most 20 bytes is taken off the buffer and parsed whole |
| GrpLedAgent.GroupStageParses | 6-Subscribe/GrpPubSubLED/src/LEDAgent.cpp:188-197 | with the model's LED_JSON_LEN + 1-byte working buffer, a NUL-free group message of at most 20 bytes is taken off the buffer and parsed whole |
| RouterLed.New | 6-Subscribe/PubSubLED/src/MQTTRouterLED.cpp:14-16 | a new router holds its agent and no topic yet |
| RouterLed.Subscribe | 6-Subscribe/PubSubLED/src/MQTTRouterLED.cpp:28-44 | the request topic is built from the id only when absent and allocated; exactly one QoS 1 subscription to it is made iff it exists |
| RouterLed.TopicBuiltOnce | 6-Subscribe/PubSubLED/src/MQTTRouterLED.cpp:30-43 | once built, the topic is kept by later subscribes whatever id they see, each subscribing to it again |
| RouterLed.Route | 6-Subscribe/PubSubLED/src/MQTTRouterLED.cpp:54-63 | the payload goes unchanged to the device buffer once iff an agent is attached |
| RouterLed.RouteIgnoresTopic | 6-Subscribe/PubSubLED/src/MQTTRouterLED.cpp:54-63 | routing does not depend on the topic |
| RouterGrpLed.Subscribe | 6-Subscribe/GrpPubSubLED/src/MQTTRouterGrpLED.cpp:26-31 | the device router's subscriptions come first, then the group topic at QoS 1 |
| RouterGrpLed.SubscribeDeviceThenGroup | 6-Subscribe/GrpPubSubLED/src/MQTTRouterGrpLED.cpp:26-31 | a first subscribe asks for exactly the device request topic, then the group topic, both at QoS 1 |
| RouterGrpLed.MemEq | 6-Subscribe/GrpPubSubLED/src/MQTTRouterGrpLED.cpp:53-54 | the byte comparison of the first n characters holds iff they agree |
| RouterGrpLed.IsGroupTopic | 6-Subscribe/GrpPubSubLED/src/MQTTRouterGrpLED.cpp:53-54 | the length-and-bytes test holds iff the topic is the group topic |
| RouterGrpLed.Route | 6-Subscribe/GrpPubSubLED/src/MQTTRouterGrpLED.cpp:41-60 | every message first goes to the device router unchanged; exactly one group delivery of the same payload follows iff the topic is the group topic |
| RouterGrpLed.GroupMessageReachesBoth | 6-Subscribe/GrpPubSubLED/src/MQTTRouterGrpLED.cpp:41-60 | a group-topic message reaches the device buffer and then the group buffer; no device-topic message ever reaches the group buffer |
| RouterLedControl.Init | 2-PicoSetup/LEDControl/src/MQTTRouterLED.cpp:29-44 | init lights the LED and builds the request topic from the id only when absent and allocated |
| RouterLedControl.New | 2-PicoSetup/LEDControl/src/MQTTRouterLED.cpp:17-20 | construction lights the LED and holds the request topic iff its storage was allocated |
| RouterLedControl.TopicBuiltOnce | 2-PicoSetup/LEDControl/src/MQTTRouterLED.cpp:34-43 | a second init keeps the topic the first built |
| RouterLedControl.Subscribe | 2-PicoSetup/LEDControl/src/MQTTRouterLED.cpp:51-55 | one QoS 1 subscription to the request topic iff it exists |
| RouterLedControl.Route | 2-PicoSetup/LEDControl/src/MQTTRouterLED.cpp:65-93 | a payload of 20 bytes or more changes nothing; a shorter one is copied and terminated inside the buffer, and the LED takes a boolean `on` from its C string, staying unchanged for invalid JSON or a missing or non-boolean `on` |
| RouterLedControl.RouteParsesWholePayload | 2-PicoSetup/LEDControl/src/MQTTRouterLED.cpp:65-93 | routing ignores the topic, and a NUL-free accepted payload reaches the parser whole, so the LED takes its `on` |
| Transport.HexField | 7-Security/PubSubTLS/src/Transport.cpp:77-83 | each byte prints as two upper-case hex digits (zero-padded below 0x10) and a space, which read back as the byte |
| Transport.Shown | 7-Security/PubSubTLS/src/Transport.cpp:92-98 | bytes 0x20..0x7E print as themselves and all others as `.` |
| Transport.TextColumn | 7-Security/PubSubTLS/src/Transport.cpp:92-98 | the text column shows each byte of the line, in order, as `Shown` prints it |
| Transport.LineLayout | 7-Security/PubSubTLS/src/Transport.cpp:77-100 | the hex column is padded to 75 characters whatever the line length, followed by the text column and a newline |
| Transport.DebugPrintBuffer | 7-Security/PubSubTLS/src/Transport.cpp:63-105 | the source's loops print exactly the dump: the header, then the lines of at most 25 bytes |
| Transport.PrintLine | 7-Security/PubSubTLS/src/Transport.cpp:76-100 | the inner loops print exactly one dump line |
| Transport.EmptyDumpIsHeader | 7-Security/PubSubTLS/src/Transport.cpp:68-70 | zero bytes print only the header line |
| Transport.DecimalReadsBack | 7-Security/PubSubTLS/src/Transport.cpp:68 | the size printed in the header reads back as the size |
| Transport.LineCount | 7-Security/PubSubTLS/src/Transport.cpp:70-102 | n bytes print ceil(n/25) lines after the header |
| Transport.LineReadsBack | 7-Security/PubSubTLS/src/Transport.cpp:77-100 | every byte of a line is recovered from its hex column |
| Transport.LinesJoinLineList | 7-Security/PubSubTLS/src/Transport.cpp:70-102 | the lines the dump prints after its header are exactly the line list, joined |
| Transport.LineListReadsBack | 7-Security/PubSubTLS/src/Transport.cpp:70-102 | reading the line list back yields the bytes |
| Transport.DumpReadsBack | 7-Security/PubSubTLS/src/Transport.cpp:63-105 | the printed dump is the header followed by lines that read back as the bytes: each byte is shown exactly once, in order |
| Transport.StaticSend | 7-Security/PubSubTLS/src/Transport.cpp:33-43 | when the transport keeps its documented contract, the trampoline reports at most bytesToSend bytes sent, or a negative error |
| Transport.StaticRead | 7-Security/PubSubTLS/src/Transport.cpp:46-58 | when the transport keeps its documented contract, the trampoline reports at most bytesToRecv bytes read, possibly 0, with exactly that many bytes delivered, or a negative error with none |
| Transport.TrampolinesDelegate | 7-Security/PubSubTLS/src/Transport.cpp:40-58 | the trampolines add nothing of their own: same transport and same first bytes give the same results |

## Left out

- RTOS plumbing is not modelled: task creation, delays and yields, stack
  queries, and task deletion in `stop`. FreeRTOS queues and message buffers
  are modelled as sequential bounded sequences. Concurrency and interrupt
  preemption are not modelled.
- coreMQTT and the MQTT agent library (connect, command loop, publish,
  subscribe, disconnect) are foreign code. Their outcomes are step inputs.
- Wi-Fi, TCP and TLS transports, and the hardware clock, are not modelled.
  Their answers are inputs or function-valued fields of
  `Transport.TransportOps`.
- The JSON libraries are not modelled.
  - Parsing is the parameter `LedCommon.Parser`.
  - The group agent's JSON output is recorded as `StateJson` / `GroupJson`
    values. Only the group message is also rendered as text (`GroupText`),
    to show that it cannot fit the source's payload buffer.
- GPIO is not modelled: the LED is a boolean. Switch press handlers are
  left out except that they call `toggle` and the interrupt toggle.
- The topic helper is not part of this model.
  - The three topic shapes are taken from the device's tools.
  - The lifecycle suffix names `online` / `offline` are assumed.
  - The keep-alive period is the agent header's default of 10 seconds
    (`MQTT_KEEP_ALIVE`). A build can override it; that override is not
    modelled.
- Message-buffer capacity accounting is not computed. Whether a send has
  room is an input (`room`). The oversized-message rule (a too-long message
  stays at the front) is the FreeRTOS documented behaviour, taken as given.
- Object-creation failures of queues and message buffers, and destructors,
  are not modelled.
- The 5-Publish LED agent's own header is not part of this model, so its
  queue capacity and state suffix are taken from the subscribing project's
  LED header.
- The API defaults QoS 0 and retain false are a caller-side C++ feature.
  Every operation here takes both explicitly.
- MqttAgent.Run: halts where an iteration would read a string the source
  dereferences without a check (credentials, will topic, online topic). The
  source would crash there, so no later behaviour is modelled.
- MqttAgent.OnlineAnnouncement: its own contract says only that the state
  is Online and the configuration is kept. Its content is stated by
  `AnnouncementPublishes` and `AnnouncementTrace`.
- GrpLedAgent.RunOnce: its own contract states only buffer consumption and
  validity. Queue order and execution are stated by `DeviceBeforeGroup`,
  `TakeAction` and the stage lemmas.
- MqttAgent.Step: the MQTTConned step announces through the repaired
  publish (`PubToTopic`), so `StepKeepsLedger` is a property of the repaired
  loop. The source's step, `EnterOnlineAsWritten`, can unbalance the ledger,
  as `EnterOnlineAsWrittenLeaks` shows.
- MqttAgent.EnterOnline: the router's `subscribe` appears as one
  `RouterSubscribe` event. The `subToTopic` calls it makes back into the
  agent are modelled by `SubscribeEach` and composed with the step in
  `OnlineEntryWithRouter`, not included in `Step`, because the router's
  subscriptions are not part of the agent's state.
- MqttAgent.OnlineEntryPublishes: "exactly one command" counts the agent's
  own announcement only. With a router attached, the router's subscriptions
  add one command each (`OnlineEntryWithRouter`): two in all with the device
  LED router and three with the group LED router.
- MqttAgent.SetRouter: the subscriptions a router makes when attached while
  Online are likewise one `RouterSubscribe` event; `SubscribeEach` gives
  their effect.
- GrpLedAgent.Valid: every agent carries the repaired working buffer of
  LED_JSON_LEN + 1 bytes, one more than the source's. The source's width is
  modelled only by `ReadJson` with a narrower buffer. `TerminatorOverrunsScratch`
  and `ScratchWidthMattersOnlyAtLimit` relate the two widths.
- GrpLedAgent.DeviceStageParses: stated for the repaired working buffer. With the
  source's buffer the same holds for messages under 20 bytes
  (`ScratchWidthMattersOnlyAtLimit`), while a 20-byte message is written out
  of bounds.
- GrpLedAgent.GroupStageParses: stated for the repaired working buffer. With the
  source's buffer the same holds for messages under 20 bytes, while a
  20-byte message is written out of bounds.
- GrpLedAgent.Exec: records the whole group message `GroupJson(id, state)`,
  which needs a payload buffer sized for the id (`GroupPayloadSize`). The
  source's 20-byte payload buffer cannot hold it for any id
  (`GroupTextOverflowsPayload`). What the JSON writer then leaves in the
  buffer is not modelled.
- Transport.Line: its own contract gives only the length. The layout is
  stated by `LineLayout`, and the content by `LineReadsBack`.

## Findings

| source | as written | input that shows it | evidently intended | confidence | as-written member | corrected member |
|---|---|---|---|---|---|---|
| 6-Subscribe/AssPubSubLEDToggle/src/MQTTAgent.cpp:514-568 | each failure path returns false without freeing the blocks already allocated | all three allocations succeed and the command queue refuses the command | free what was allocated before returning false | not executed | MqttAgent.PubToTopicAsWrittenLeaks | MqttAgent.PubToTopic |
| 6-Subscribe/AssPubSubLEDToggle/src/MQTTAgent.cpp:589-655 | each failure path returns false without freeing the blocks already allocated | the first two allocations succeed and the context allocation fails | free what was allocated before returning false | not executed | MqttAgent.SubToTopicAsWrittenLeaks | MqttAgent.SubToTopic |
| 6-Subscribe/GrpPubSubLED/src/LEDAgent.cpp:167-196 | `jsonStr` has LED_JSON_LEN bytes and receives up to LED_JSON_LEN, then `jsonStr[readLen] = 0` | a 20-byte message in either buffer: the terminator is written at index 20, past the buffer | a working buffer of LED_JSON_LEN + 1 bytes (or receiving at most LED_JSON_LEN - 1) | not executed | GrpLedAgent.TerminatorOverrunsScratch | GrpLedAgent.WiderScratchHoldsTerminator |
| 6-Subscribe/GrpPubSubLED/src/LEDAgent.cpp:237-262 | the group message `{"source":"<id>","on":…}` is written into `char payload[LED_JSON_LEN]` | any id, even the empty one: `{"source":"","on":true}` is 23 characters against a 20-byte buffer | a payload buffer sized for the id | not executed | GrpLedAgent.GroupTextOverflowsPayload | GrpLedAgent.GroupTextReadsBack |
| 6-Subscribe/GrpPubSubLED/src/LEDAgent.cpp:62-66 | the group topic is written when the state topic's allocation succeeded | with an interface, state allocation succeeds and group allocation fails: the topic is written through NULL | test the group topic's own allocation | not executed | GrpLedAgent.NewAsWrittenMisbehaves | GrpLedAgent.New |
