# MQTT device controller: a verified model

This project models the logic of a small iOS controller for one MQTT device.
The device reports a temperature and the state of an LED with adjustable
brightness. The app talks to it through a public broker.

The model follows the app's four cooperating pieces:

- **Transport** (`mqtt_manager.dfy`, MqttManager.swift) is the broker session.
  - Commands issued while connected go straight to the transport, at QoS 1 for
    subscribe and publish.
  - Commands issued otherwise are deferred to a dispatch queue. `start`
    suspends that queue, and assigning `.connected` to `state` resumes it.
  - The transport is a log `sent` of the commands that reached it. Ghost
    fields `issued` and `lost` account for every command: each one is sent,
    pending, or lost (it ran while no client object existed).
  - The queue is concurrent, so the deferred commands run exactly once each
    but in no promised order. `Drain` picks any pending command at each step.
- **Liveness** (`model.dfy`, Model.swift) is the command layer.
  - It keeps the last message per topic.
  - It runs the ping timer. The repeating timer is a `pinging` flag plus the
    topic table its closure captured, and each firing is a `Tick`.
  - It subscribes along the router's tables.
- **Router** (`router_tables.dfy` and `router.dfy`, Presenter.swift) handles
  routing.
  - It fills five tables from three configuration dictionaries.
  - It classifies inbound messages by topic kind.
  - It runs the handshake when the device answers "pong": "ready" on the ping
    topic, then unsubscribe from pong, then subscribe to every telemetry topic
    and every status topic.
  - It answers subscribe acknowledgements of status topics with a "get" on
    the matching send topic.
  - `router_tables.dfy` holds the tables as values, with closed forms of each
    configuration pass for any dictionary iteration order. `router.dfy` holds
    the `Presenter` class whose loops are proved against them.
- **Controls** (`controls.dfy`, ViewController.swift) is the control logic of
  the screen.
  - The `ButtonState` machine.
  - The enable rules of button and slider.
  - The led and brightness status rules.
  - The tap handler.
  - The device's own configuration.
  - The two delegate chains: inbound message to screen, and subscribe
    acknowledgement to status poll.
- **Extensions** (`extensions.dfy`, Extensions.swift) holds `String.isNumber`.
- **LegacyRouter** (`legacy_router.dfy`, ModelPresenter.swift) is the older
  router, kept as a separate module. It has its own enumerations. It
  subscribes to everything on load, with no ping/pong gating, and it sends
  only led commands.
- `basics.dfy` holds `Option`, the `Overlay` map predicate, and `Enumerates`.
  `Enumerates` says that a sequence lists a set's elements once each. It
  stands for the unspecified iteration order of a Swift dictionary: every
  `forEach` is a loop over an arbitrary remaining key, and its effect is
  stated for the order it happened to take. That effect is `Pass`: the
  per-entry step folded along the order. Both routers build their tables
  with it.

Upward calls become return values of the method that would make them. These
are calls through weak `output` references and NotificationCenter posts. For
example, `Router.Presenter.Update` returns the `Routing` that the source
passes to its output, and `Transport.MqttManager.DidSubscribeTopics` returns
the notifications it posts. Downward calls are real method calls along `const`
fields: `ViewController.presenter`, then `Presenter.model`, then
`Model.manager`. Whether `connect()` accepts is a parameter `accepted`, and
the reason code and error of the delegate callbacks are parameters too.

Two behaviours follow the code as written:

- The deferral queue is concurrent (MqttManager.swift:21). Deferred commands
  therefore run once each in any order, not first-in first-out.
- A missing table entry that the source force-unwraps is a precondition
  (`sendMessage`, `startPing`, `stopPing`, `didSubscribedTo`, and the handshake's
  `connectionTopics[.ping]!`). It is not an error result, because the source traps there.

## Model

| member | source | states |
|---|---|---|
| Extensions.CharacterSetOf | MQTTClient/MQTTClient/Extensions.swift:15 | the character set holds exactly the characters occurring in the string |
| Extensions.IsNumber | MQTTClient/MQTTClient/Extensions.swift:12-16 | true exactly when every character is a decimal digit |
| Extensions.EmptyIsNumber | MQTTClient/MQTTClient/Extensions.swift:15 | the empty string is a number (the empty set is a subset of the digits) |
| Extensions.NonDigitIsNotNumber | MQTTClient/MQTTClient/Extensions.swift:15 | one non-digit anywhere ('-', '.', ' ') makes the string not a number |
| Extensions.ConcatenationIsNumber | MQTTClient/MQTTClient/Extensions.swift:15 | a concatenation is a number exactly when both parts are |
| Extensions.PermutationKeepsIsNumber | MQTTClient/MQTTClient/Extensions.swift:15 | strings with the same characters in any order agree on `isNumber` |
| Basics.PassSnoc | MQTTClient/MQTTClient/Presenter.swift:69-78 | a dictionary `forEach` is a fold of its per-entry step along the iteration order: one more key applies the step once more, to the entries so far |
| Basics.PassKeeps | MQTTClient/MQTTClient/Presenter.swift:69-78 | a property every per-entry step keeps (no entry removed, consistent tables) holds after the whole `forEach` pass, in any iteration order |
| Topics.ParseConnectionTopicType | MQTTClient/MQTTClient/Presenter.swift:17-20 | accepts exactly the raw values "ping" and "pong", returning the kind with that raw value |
| Topics.ParseRecieveFunction | MQTTClient/MQTTClient/Presenter.swift:22-24 | accepts exactly "temperature" |
| Topics.ParseSendFunction | MQTTClient/MQTTClient/Presenter.swift:26-29 | accepts exactly "led" and "brightness" |
| Topics.ConnectionRaw | MQTTClient/MQTTClient/Presenter.swift:17-20 | the raw value is "ping" exactly for `.ping` and "pong" exactly for `.pong` |
| Topics.RecieveRaw | MQTTClient/MQTTClient/Presenter.swift:22-24 | the only receive function has the raw value "temperature" |
| Topics.SendRaw | MQTTClient/MQTTClient/Presenter.swift:26-29 | the raw value is "led" exactly for `.led` and "brightness" exactly for `.brightness` |
| Topics.RawValuesRoundTrip | MQTTClient/MQTTClient/Presenter.swift:17-29 | parsing inverts every raw value, and no receive name parses as a send name or the reverse |
| Transport.IssueAllEffect | MQTTClient/MQTTClient/MqttManager.swift:56-90 | while connected, commands reach the transport at once and in order (dropped with no client); otherwise all are deferred; state, queue and client never change |
| Transport.IssueAllAppend | MQTTClient/MQTTClient/MqttManager.swift:56-90 | issuing two command sequences one after the other is issuing their concatenation |
| Transport.SubscribeEach | MQTTClient/MQTTClient/Model.swift:43-45 | one QoS-1 subscribe per topic, the i-th to the i-th topic |
| Transport.SubscribeEachOncePerKey | MQTTClient/MQTTClient/Model.swift:42-46 | along any iteration order of a key set: only QoS-1 subscribes to keys, exactly one per key |
| Transport.SubscribeEachPair | MQTTClient/MQTTClient/Presenter.swift:123-124 | subscribing along two key sets subscribes to each key once per set it is in, and to nothing else |
| Transport.SubscribeKeys | MQTTClient/MQTTClient/Model.swift:43-45 | the shared `forEach` loop issues exactly the subscribes of one iteration order of the keys |
| Transport.SubscribedNotice | MQTTClient/MQTTClient/MqttManager.swift:122 | the posted `userInfo` has the one key "topic", holding the topic as a String |
| Transport.Started | MQTTClient/MQTTClient/MqttManager.swift:39-54 | `start` suspends the queue once more and ends connecting exactly when `connect()` accepts (a client then exists), never connected; nothing is sent or deferred |
| Transport.Issue | MQTTClient/MQTTClient/MqttManager.swift:56-90 | one command: while connected it goes to the transport if a client exists and nothing is deferred; otherwise it is appended to the deferred commands and nothing is sent; state, queue and client stay |
| Transport.IssueAll | MQTTClient/MQTTClient/MqttManager.swift:56-90 | a run of commands keeps state, queue and client; while connected nothing is deferred, otherwise nothing is sent |
| Transport.MqttManager.constructor | MQTTClient/MQTTClient/MqttManager.swift:26-37 | disconnected, queue active, no client, nothing sent or pending |
| Transport.MqttManager.Start | MQTTClient/MQTTClient/MqttManager.swift:39-54 | one more suspension; connecting if `connect()` accepts (a client now exists), else back to disconnected; accounts kept |
| Transport.MqttManager.AssignState | MQTTClient/MQTTClient/MqttManager.swift:27-33 | every assignment to `state` runs `didSet`: `.connected` resumes the queue, other values change only the state |
| Transport.MqttManager.Resume | MQTTClient/MQTTClient/MqttManager.swift:30 | one suspension fewer; once the queue is active, every deferred command runs exactly once, in some order |
| Transport.MqttManager.RunQueue | MQTTClient/MQTTClient/MqttManager.swift:60-64 | an active queue eventually runs each deferred block once; a suspended one runs nothing |
| Transport.MqttManager.Drain | MQTTClient/MQTTClient/MqttManager.swift:21 | the queue empties, and the transport (or the lost log) grows by exactly the queued commands as a multiset |
| Transport.MqttManager.RanKeepsAccounts | MQTTClient/MQTTClient/MqttManager.swift:60-64 | after a queue run, every issued command is still exactly once sent, pending or lost |
| Transport.MqttManager.Transmit | MQTTClient/MQTTClient/MqttManager.swift:58 | `mqtt5?.` reaches the transport exactly when a client exists |
| Transport.MqttManager.Submit | MQTTClient/MQTTClient/MqttManager.swift:56-90 | immediate when connected, deferred otherwise; the command is recorded as issued and stays accounted for |
| Transport.MqttManager.Subscribe | MQTTClient/MQTTClient/MqttManager.swift:56-66 | issues a QoS-1 subscribe to the topic |
| Transport.MqttManager.Unsubscribe | MQTTClient/MQTTClient/MqttManager.swift:68-78 | issues an unsubscribe from the topic |
| Transport.MqttManager.Publish | MQTTClient/MQTTClient/MqttManager.swift:80-90 | issues a QoS-1 publish of the message, unchanged, to the topic |
| Transport.MqttManager.DidConnectAck | MQTTClient/MQTTClient/MqttManager.swift:96-99 | connected whatever the reason code, and the queue is resumed |
| Transport.MqttManager.DidDisconnect | MQTTClient/MQTTClient/MqttManager.swift:148-157 | disconnected and nothing else changes; in particular the queue is not suspended again |
| Transport.MqttManager.DidReceiveMessage | MQTTClient/MQTTClient/MqttManager.swift:113-116 | the topic and message are forwarded unchanged |
| Transport.MqttManager.DidSubscribeTopics | MQTTClient/MQTTClient/MqttManager.swift:118-127 | one "subscribed" notice per topic granted exactly 1, in some iteration order of those topics, and no other notice |
| Liveness.Model.constructor | MQTTClient/MQTTClient/Model.swift:17-28 | a fresh manager, no messages, no timer, no observer |
| Liveness.Model.Start | MQTTClient/MQTTClient/Model.swift:30-32 | the manager's `start`, nothing issued |
| Liveness.Model.Subscribe | MQTTClient/MQTTClient/Model.swift:34-36 | exactly one QoS-1 subscribe to the given topic |
| Liveness.Model.Send | MQTTClient/MQTTClient/Model.swift:38-40 | exactly one QoS-1 publish of the message to the topic, both unchanged |
| Liveness.Model.StartRecieving | MQTTClient/MQTTClient/Model.swift:42-46 | one subscribe per key topic, in an iteration order of the keys, and nothing else |
| Liveness.Model.GetStatus | MQTTClient/MQTTClient/Model.swift:48-57 | registers one more observer, subscribes once per status topic, ignores `sendTopics` and publishes nothing |
| Liveness.Model.DidSubscribed | MQTTClient/MQTTClient/Model.swift:59-66 | passes a topic on exactly when the notice carries a String under "topic" |
| Liveness.Model.PostedNoticesReachOutput | MQTTClient/MQTTClient/MqttManager.swift:122 | every notice the manager posts is passed on with its topic |
| Liveness.Model.StartPing | MQTTClient/MQTTClient/Model.swift:68-73 | subscribes to the pong topic, then the timer is live and holds the topic table |
| Liveness.Model.Tick | MQTTClient/MQTTClient/Model.swift:70-72 | a live timer publishes "ping" on the ping topic it captured; an invalidated one issues nothing |
| Liveness.Model.StopPing | MQTTClient/MQTTClient/Model.swift:75-79 | the timer is invalidated, then "ready" on the ping topic, then unsubscribe from the pong topic |
| Liveness.Model.Update | MQTTClient/MQTTClient/Model.swift:84-87 | `messages[topic] := message`, other entries unchanged, topic and message forwarded unchanged |
| RouterTables.FunctionsPassEffect | MQTTClient/MQTTClient/Presenter.swift:68-79 | a receive name makes its topic a `.recieve` topic of that function; a send name only records its send topic; status and connection tables untouched |
| RouterTables.StatusPassEffect | MQTTClient/MQTTClient/Presenter.swift:81-91 | a send name makes its topic a `.status` topic of a function named for it; nothing else changes |
| RouterTables.ConnectionPassEffect | MQTTClient/MQTTClient/Presenter.swift:93-104 | both kinds record their topic; only the pong topic becomes a `.connection` topic |
| RouterTables.FunctionEntry | MQTTClient/MQTTClient/Presenter.swift:70-77 | one `setTopics` entry only adds or overwrites and keeps the tables consistent; status and connection tables stay; an unknown or send name leaves every kind as it was, and no other topic changes kind |
| RouterTables.StatusEntry | MQTTClient/MQTTClient/Presenter.swift:83-88 | one `setStatusTopics` entry only adds or overwrites and keeps consistency; a name that is no send function changes nothing; receive, send and connection tables stay |
| RouterTables.ConnectionEntry | MQTTClient/MQTTClient/Presenter.swift:95-101 | one `setConnectionTopics` entry only adds or overwrites and keeps consistency; only a pong name changes a topic kind; receive, status and send tables stay |
| RouterTables.Configure | MQTTClient/MQTTClient/Presenter.swift:57-59 | the three passes in source order remove no entry and keep consistent tables consistent, so dispatch never unwraps nil |
| RouterTables.UnknownNamesAreSkipped | MQTTClient/MQTTClient/Presenter.swift:75-77 | names that parse as nothing leave every table unchanged, in each of the three passes |
| RouterTables.ConfigureEffect | MQTTClient/MQTTClient/Presenter.swift:57-59 | configuration only adds or overwrites entries; a shared topic's kind is decided by the later pass (pong over status over receive) |
| RouterTables.ConfiguredPong | MQTTClient/MQTTClient/Presenter.swift:57-61 | after configuration the pong topic that `startPing` unwraps exists: the configured one, else the one already stored |
| RouterTables.Route | MQTTClient/MQTTClient/Presenter.swift:114-129 | receive and status topics forward the message unchanged to their function; "pong" on the pong topic is the handshake; anything else is dropped |
| RouterTables.ConfiguredRouting | MQTTClient/MQTTClient/Presenter.swift:114-128 | after configuration: the pong topic answers only "pong", status topics report to a function named for them, receive topics report temperature, unknown topics are dropped |
| RouterTables.PingTopicIsDropped | MQTTClient/MQTTClient/Presenter.swift:96-98 | the ping topic is stored but, unless another entry names it, inbound messages on it are dropped |
| RouterTables.HandshakeCommands | MQTTClient/MQTTClient/Presenter.swift:120-125 | the handshake publishes only "ready" on the ping topic, unsubscribes only from the pong topic, then subscribes to each receive topic and each status topic along their orders, 2 + both counts commands in all |
| RouterTables.HandshakeSubscribesEachTopicOnce | MQTTClient/MQTTClient/Presenter.swift:120-125 | the handshake is "ready", then unsubscribe pong, then one QoS-1 subscribe per receive topic and per status topic |
| RouterTables.StatusPoll | MQTTClient/MQTTClient/Presenter.swift:131-141 | a "get" to the send topic of the status topic's function, and nothing for any other topic |
| RouterTables.ConfiguredStatusPoll | MQTTClient/MQTTClient/Presenter.swift:131-141 | after configuration, an acknowledged status topic is polled on the send topic configured under the same function name; others poll nothing |
| RouterTables.Repeat | MQTTClient/MQTTClient/Model.swift:49-52 | a notification is delivered once per registration: as many copies of its commands as registrations |
| RouterTables.RepeatMembers | MQTTClient/MQTTClient/Model.swift:49-52 | repeated delivery issues exactly the commands of one delivery, and nothing when no observer is registered |
| RouterTables.Polls | MQTTClient/MQTTClient/Model.swift:48-66 | the acknowledgements of a run of topics publish only "get" at QoS 1, at most one per topic and observer, and nothing with no observer registered |
| RouterTables.PollsAcknowledged | MQTTClient/MQTTClient/Model.swift:48-66 | acknowledgements lead only to "get" polls of acknowledged status topics, each one polled, if and only if an observer is registered; only those acknowledged status topics need a send topic, and only with an observer registered |
| Router.Presenter.constructor | MQTTClient/MQTTClient/Presenter.swift:36-52 | empty tables and a fresh model |
| Router.Presenter.SetTopics | MQTTClient/MQTTClient/Presenter.swift:68-79 | the tables become the function pass over one iteration order of the dictionary |
| Router.Presenter.SetStatusTopics | MQTTClient/MQTTClient/Presenter.swift:81-91 | the tables become the status pass over one iteration order |
| Router.Presenter.SetConnectionTopics | MQTTClient/MQTTClient/Presenter.swift:93-104 | the tables become the connection pass over one iteration order |
| Router.Presenter.DidLoadView | MQTTClient/MQTTClient/Presenter.swift:54-65 | starts the connection, configures in the order functions, status, connection, then subscribes to the pong topic and starts pinging with the configured topics; tables stay consistent; messages and observers unchanged |
| Router.Presenter.SendMessage | MQTTClient/MQTTClient/Presenter.swift:108-110 | one QoS-1 publish of the message, unchanged, to the sender's topic |
| Router.Presenter.Update | MQTTClient/MQTTClient/Presenter.swift:114-129 | routes by topic kind; on the handshake: timer off, "ready", unsubscribe pong, subscribe each receive and status topic, one more observer; otherwise nothing issued and timer and observers unchanged; messages and timer topics never change |
| Router.Presenter.DidSubscribedTo | MQTTClient/MQTTClient/Presenter.swift:131-141 | issues exactly the status poll of the topic |
| Controls.ParseButtonState | MQTTClient/MQTTClient/ViewController.swift:13-16 | accepts exactly "on", "off" and "disabled", returning the state with that raw value |
| Controls.ButtonRaw | MQTTClient/MQTTClient/ViewController.swift:13-16 | the raw value is "on", "off" or "disabled" exactly for the state of that name |
| Controls.ButtonRawRoundTrip | MQTTClient/MQTTClient/ViewController.swift:13-16 | parsing inverts the raw values |
| Controls.Toggled | MQTTClient/MQTTClient/ViewController.swift:18-24 | on and off swap and disabled stays |
| Controls.ToggledTwice | MQTTClient/MQTTClient/ViewController.swift:18-24 | switching twice is the identity |
| Controls.SliderInteractive | MQTTClient/MQTTClient/ViewController.swift:133-141 | the slider takes input exactly in the on state |
| Controls.ButtonSetUp | MQTTClient/MQTTClient/ViewController.swift:125-128 | only the disabled state touches the button's flag, and only to switch it off |
| Controls.SliderSetUp | MQTTClient/MQTTClient/ViewController.swift:133-141 | the slider's flag follows the state; nothing else changes |
| Controls.LedStatus | MQTTClient/MQTTClient/ViewController.swift:156-170 | unparsable: state disabled and no other change; parsable: the parsed state, controls set up again only if it differs, button interactive |
| Controls.LedStatusKeepsCoherent | MQTTClient/MQTTClient/ViewController.swift:161-166 | a parsable led status keeps the slider in line with the state |
| Controls.UnparsableLedStatusLeavesControlsLive | MQTTClient/MQTTClient/ViewController.swift:156-160 | for any coherent panel, an unparsable status disables the state but leaves both controls' flags as they were, so the slider is out of line with the state exactly when it was on |
| Controls.BrightnessStatusAsWritten | MQTTClient/MQTTClient/ViewController.swift:172-175 | with the ASCII digit set, the written guard traps exactly on the empty message (the source also traps on non-ASCII decimal digits, see Left out) |
| Controls.EmptyBrightnessStatusTraps | MQTTClient/MQTTClient/ViewController.swift:173-174 | "" passes `isNumber` and then traps |
| Controls.BrightnessStatus | MQTTClient/MQTTClient/ViewController.swift:172-175 | only a non-empty digit string moves the slider, to that value; nothing else changes |
| Controls.BrightnessStatusAgrees | MQTTClient/MQTTClient/ViewController.swift:172-175 | the corrected rule agrees with the written one wherever that one does not trap, and keeps the slider value a number |
| Controls.Tapped | MQTTClient/MQTTClient/ViewController.swift:106-109 | the state toggles, the button stays live unless disabled, the slider follows the new state |
| Controls.TappedTwice | MQTTClient/MQTTClient/ViewController.swift:106-109 | two taps on a live, coherent button restore the controls |
| Controls.TappedDisabled | MQTTClient/MQTTClient/ViewController.swift:106-109 | a tap while disabled keeps the state and switches both controls off |
| Controls.SetUp | MQTTClient/MQTTClient/ViewController.swift:61-84 | label and slider get their initial values, then the button and slider are set up for the state |
| Controls.DeviceConfiguration | MQTTClient/MQTTClient/ViewController.swift:38-52 | the device configuration yields the same five tables whatever the iteration order |
| Controls.DeviceRouting | MQTTClient/MQTTClient/ViewController.swift:38-52 | with the device tables: temperature, two status topics, the pong handshake, and the ping topic dropped |
| Controls.ViewController.constructor | MQTTClient/MQTTClient/ViewController.swift:28-36 | state disabled, a fresh presenter with empty tables |
| Controls.ViewController.SwitchState | MQTTClient/MQTTClient/ViewController.swift:18-24 | the state becomes its toggle and nothing else changes |
| Controls.ViewController.SetupButton | MQTTClient/MQTTClient/ViewController.swift:117-131 | the button's flag as `ButtonSetUp` says |
| Controls.ViewController.SetupSlider | MQTTClient/MQTTClient/ViewController.swift:133-142 | the slider's flag as `SliderSetUp` says |
| Controls.ViewController.ViewDidLoad | MQTTClient/MQTTClient/ViewController.swift:54-59 | controls set up, then the presenter loaded with the device configuration: started, configured, pong subscribed, pinging with the configured topics; messages and observers unchanged |
| Controls.ViewController.DidTapButton | MQTTClient/MQTTClient/ViewController.swift:106-111 | the controls as `Tapped`, then one publish of the new state's raw value on the led topic |
| Controls.ViewController.ShowTemperature | MQTTClient/MQTTClient/ViewController.swift:147-152 | the label shows the message followed by " °C" |
| Controls.ViewController.UpdateState | MQTTClient/MQTTClient/ViewController.swift:154-177 | led: `LedStatus`; brightness: the corrected `BrightnessStatus`, which ignores "" where the source traps |
| Controls.ViewController.Receive | MQTTClient/MQTTClient/MqttManager.swift:113-116 | an inbound message is recorded by the model, routed by the presenter and lands on the right control (brightness by the corrected guard); only the handshake issues commands, stops the timer and adds an observer; timer topics never change |
| Controls.ViewController.Acknowledge | MQTTClient/MQTTClient/MqttManager.swift:118-127 | a subscribe acknowledgement issues exactly the polls of the granted topics, once per registered observer; only granted status topics need a send topic, and only with an observer registered |
| Controls.ViewController.DeliverAll | MQTTClient/MQTTClient/MqttManager.swift:118-127 | the posted notices, delivered in posting order, issue the status polls of their topics in that order, once per observer each; only the delivered status topics need a send topic, and only with an observer |
| Controls.ViewController.Deliver | MQTTClient/MQTTClient/Model.swift:49-52 | one notice reaches every registration, and each delivery issues the status poll of its topic; that topic needs a send topic only if it is a status topic and an observer is registered |
| LegacyRouter.ParseRecieveFunction | MQTTClient/MQTTClient/ModelPresenter.swift:15-18 | accepts exactly "temperature" and "adjustment" |
| LegacyRouter.ParseSendFunction | MQTTClient/MQTTClient/ModelPresenter.swift:20-23 | accepts exactly "led" and "brightness" |
| LegacyRouter.RecieveRaw | MQTTClient/MQTTClient/ModelPresenter.swift:15-18 | the raw value is "temperature" exactly for `.temperature` and "adjustment" exactly for `.adjustment` |
| LegacyRouter.SendRaw | MQTTClient/MQTTClient/ModelPresenter.swift:20-23 | the raw value is "led" exactly for `.led` and "brightness" exactly for `.brightness` |
| LegacyRouter.FunctionEntry | MQTTClient/MQTTClient/ModelPresenter.swift:59-66 | one `setTopics` entry only adds or overwrites and keeps the tables consistent; status table untouched; a name that is no receive function changes no topic kind |
| LegacyRouter.StatusEntry | MQTTClient/MQTTClient/ModelPresenter.swift:72-77 | one `setStatus` entry only adds or overwrites and keeps consistency; a name that is no send function changes nothing |
| LegacyRouter.Configure | MQTTClient/MQTTClient/ModelPresenter.swift:50-51 | `setTopics` then `setStatus` remove no entry and keep consistent tables consistent, so dispatch never unwraps nil |
| LegacyRouter.FunctionsPassKinds | MQTTClient/MQTTClient/ModelPresenter.swift:57-68 | "temperature" and "adjustment" make their topics receive topics of a function named for them |
| LegacyRouter.FunctionsPassSends | MQTTClient/MQTTClient/ModelPresenter.swift:62-63 | "led" and "brightness" only record their send topics |
| LegacyRouter.StatusPassEffect | MQTTClient/MQTTClient/ModelPresenter.swift:70-80 | send names make their topics status topics; other names are skipped; nothing else changes |
| LegacyRouter.ConfigureEffect | MQTTClient/MQTTClient/ModelPresenter.swift:50-51 | the status pass runs second, so a topic named in both ends up a status topic |
| LegacyRouter.Route | MQTTClient/MQTTClient/ModelPresenter.swift:103-112 | a receive topic calls `update`, a status topic `updateState`, both with the message unchanged; other topics do nothing |
| LegacyRouter.ConfiguredRouting | MQTTClient/MQTTClient/ModelPresenter.swift:103-112 | after configuration: a status topic reports to a send function named for it, otherwise a receive topic to a receive function named for it, message unchanged; a topic no pass or earlier table named is dropped |
| LegacyRouter.SendCommands | MQTTClient/MQTTClient/ModelPresenter.swift:94-101 | led publishes the message unchanged to the led topic; brightness issues nothing |
| LegacyRouter.LoadSubscribesEachTopic | MQTTClient/MQTTClient/ModelPresenter.swift:82-92 | loading subscribes once per receive topic and once per status topic, and to nothing else |
| LegacyRouter.Presenter.constructor | MQTTClient/MQTTClient/ModelPresenter.swift:30-45 | empty tables and a fresh manager |
| LegacyRouter.Presenter.SetTopics | MQTTClient/MQTTClient/ModelPresenter.swift:57-68 | the tables become the function pass over one iteration order |
| LegacyRouter.Presenter.SetStatus | MQTTClient/MQTTClient/ModelPresenter.swift:70-80 | the tables become the status pass over one iteration order |
| LegacyRouter.Presenter.StartRecieving | MQTTClient/MQTTClient/ModelPresenter.swift:82-86 | one subscribe per receive topic |
| LegacyRouter.Presenter.CheckingStatus | MQTTClient/MQTTClient/ModelPresenter.swift:88-92 | one subscribe per status topic |
| LegacyRouter.Presenter.DidLoadView | MQTTClient/MQTTClient/ModelPresenter.swift:47-55 | start, configure, then subscribe to every receive and every status topic at once, with no liveness gating |
| LegacyRouter.Presenter.SendMessage | MQTTClient/MQTTClient/ModelPresenter.swift:94-101 | issues exactly `SendCommands` |
| LegacyRouter.Presenter.Update | MQTTClient/MQTTClient/ModelPresenter.swift:103-112 | dispatches as `Route` and changes nothing |

## Left out

- UIKit layout and styling are presentation only: `setup` except the label
  text, slider value and enable rules; `viewDidLayoutSubviews`; titles and
  colours in `setupButton`.
- `didSliderValueChanged` needs the `Float` slider value converted with
  `Int(...)`. Floats are out of scope, so the slider value is kept as the
  digit string it was set from, and the initial value is "50".
- Controls.BrightnessStatus: it does not model `Float(message)` itself. A
  digit string stands for the value it parses to. The slider's range is
  0 to 100 (ViewController.swift:75-76) and the slider clamps its value to
  it, so a status such as "500" shows 100. The model stores "500" unclamped.
- Extensions.IsNumber: the digit set is '0'..'9'. Swift's
  `CharacterSet.decimalDigits` also contains the other Unicode Nd digits.
- Controls.BrightnessStatusAsWritten: it traps only on the empty message
  because the digit set is ASCII. The source also traps on messages of
  non-ASCII decimal digits such as "٣" or "５": `isNumber` accepts them and
  `Float` of them is nil.
- Controls.ViewController.UpdateState: the brightness branch uses the
  corrected guard, so an empty message is ignored where the source traps.
- Topic and payload equality is on Unicode scalars. Swift compares `String`
  values, and hashes dictionary keys, up to canonical equivalence, so "é"
  written precomposed and written with a combining accent are one topic
  there and two here. This affects every table lookup, the "pong" test and
  the raw-value parsers.
- The CocoaMQTT transport is a log of commands, and `connect()` is a boolean
  parameter. Left out with it: the wire protocol, the client ID built from the
  process identifier, host and port, and the non-UTF-8 payloads that
  `message.string!` would trap on.
- Transport.MqttManager.Resume: GCD traps on an unbalanced `resume()`. The
  model floors the suspension count at zero. This happens, for example, on a
  second `didConnectAck` without a `start` in between.
- The hop to `DispatchQueue.main` is left out. Deferred blocks run at a point
  chosen by the caller (`RunQueue`), and concurrent interleavings with other
  calls are not modelled.
- Liveness.Model.StartPing: a second call in the source leaves the first timer
  running, unreferenced, and it can never be invalidated. The model has one
  timer flag, so the leaked timer's ticks cannot be told apart.
- Real time is left out: the 2-second period is only `Tick`.
- NotificationCenter is a count of registrations (`observers`), and each
  notice is delivered once per registration. Other observers or posters in
  the process are left out.
- Weak references are left out: outputs are assumed present.
- `print` logging and the empty delegate callbacks are left out. The empty
  callbacks are: published, publish ack and rec, unsubscribe ack,
  disconnect reason, ping, pong and auth.
- ModelPresenter.swift does not compile with the rest of the app. It
  redeclares `RecieveTopicType`, `RecieveFunction`, `SendFunction`,
  `PresenterOutput` and `Presenter`, and its initializer takes an undefined
  `ModelPresenterOutput` (ModelPresenter.swift:43). The model keeps it as its
  own module. Its output's parameter type is the model's own `Routing`.

## Findings

| source | as written | input that shows it | evidently intended | confidence | as-written member | corrected member |
|---|---|---|---|---|---|---|
| MQTTClient/MQTTClient/ViewController.swift:173-174 | the brightness guard is `isNumber`, which holds for the empty string, and the slider is then set from a force-unwrapped `Float` of the message, which is nil for "" | a brightness status message with an empty payload, or one of non-ASCII decimal digits such as "٣" | only a non-empty run of digits moves the slider; anything else is ignored | not executed; `isNumber("")` holds since the empty set is a subset of any set, and `Float("")` is nil | Controls.EmptyBrightnessStatusTraps | Controls.BrightnessStatus |
