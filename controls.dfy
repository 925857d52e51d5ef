/** The control logic of ViewController.swift: the `ButtonState` machine, the
    enable rules of `setupButton`/`setupSlider`, the status-update rules of
    `updateState(for:message:)` and the tap handler. The on-screen controls
    are the `Panel`: the button's state and interaction flag, the slider's
    interaction flag and value (kept as the digit string it was set from) and
    the temperature label's text. */
module Controls {
  import opened Basics
  import opened Topics
  import opened Extensions
  import opened Transport
  import opened Liveness
  import opened RouterTables
  import opened Router

  datatype ButtonState = On | Off | Disabled

  /** Raw values, one per case; `disabled` has the implicit raw value
      "disabled", its own name. */
  function ButtonRaw(b: ButtonState): (r: string)
    ensures r == "on" <==> b == On
    ensures r == "off" <==> b == Off
    ensures r == "disabled" <==> b == Disabled
  {
    match b
    case On => "on"
    case Off => "off"
    case Disabled => "disabled"
  }

  /** `ButtonState(rawValue:)` accepts exactly "on", "off" and "disabled". */
  function ParseButtonState(s: string): (r: Option<ButtonState>)
    ensures r.Some? <==> s == "on" || s == "off" || s == "disabled"
    ensures r.Some? ==> ButtonRaw(r.value) == s
  {
    if s == "on" then Some(On)
    else if s == "off" then Some(Off)
    else if s == "disabled" then Some(Disabled)
    else None
  }

  lemma ButtonRawRoundTrip(b: ButtonState)
    ensures ParseButtonState(ButtonRaw(b)) == Some(b)
  {
  }

  /** `switchState`: on and off swap, disabled stays. */
  function Toggled(b: ButtonState): (r: ButtonState)
    ensures r == Disabled <==> b == Disabled
    ensures b != Disabled ==> r != b
  {
    match b
    case On => Off
    case Off => On
    case Disabled => Disabled
  }

  lemma {:induction false} ToggledTwice(b: ButtonState)
    ensures Toggled(Toggled(b)) == b
  {
    if b == On {
      assert Toggled(b) == Off;
    } else if b == Off {
      assert Toggled(b) == On;
    }
  }

  /** `setupSlider`: the slider takes input exactly in the on state. */
  function SliderInteractive(b: ButtonState): (r: bool)
    ensures r <==> b == On
  {
    match b
    case On => true
    case Off => false
    case Disabled => false
  }

  datatype Panel = Panel(
    state: ButtonState,
    buttonInteractive: bool,
    sliderInteractive: bool,
    brightness: string,
    temperature: string)

  /** The slider shows what the button state says it should. */
  predicate Coherent(p: Panel) {
    p.sliderInteractive == SliderInteractive(p.state)
  }

  /** The interaction part of `setupButton`: only the disabled case touches
      the flag, and only to switch it off. */
  function ButtonSetUp(p: Panel): (r: Panel)
    ensures r.buttonInteractive <==> p.buttonInteractive && p.state != Disabled
    ensures r.(buttonInteractive := p.buttonInteractive) == p
  {
    if p.state == Disabled then p.(buttonInteractive := false) else p
  }

  function SliderSetUp(p: Panel): (r: Panel)
    ensures Coherent(r)
    ensures r.(sliderInteractive := p.sliderInteractive) == p
  {
    p.(sliderInteractive := SliderInteractive(p.state))
  }

  /** `updateState(for: .led, message:)`. An unparsable status disables the
      state and changes nothing else; the button and slider are not set up
      again. A parsable one becomes the state (setting the controls up again
      only when it differs) and leaves the button interactive, even for
      "disabled". */
  function LedStatus(p: Panel, message: string): (r: Panel)
    ensures ParseButtonState(message).None? ==> r == p.(state := Disabled)
    ensures ParseButtonState(message).Some? ==>
      && r.state == ParseButtonState(message).value
      && r.buttonInteractive
      && r.sliderInteractive == (if r.state == p.state then p.sliderInteractive else SliderInteractive(r.state))
      && r.brightness == p.brightness && r.temperature == p.temperature
  {
    match ParseButtonState(message)
    case None => p.(state := Disabled)
    case Some(s) =>
      var q := if p.state != s then SliderSetUp(ButtonSetUp(p.(state := s))) else p;
      q.(buttonInteractive := true)
  }

  /** A parsable led status keeps the slider's flag in line with the state. */
  lemma LedStatusKeepsCoherent(p: Panel, message: string)
    requires Coherent(p) && ParseButtonState(message).Some?
    ensures Coherent(LedStatus(p, message))
  {
  }

  /** An unparsable led status leaves the controls as they were: it
      disables the state, yet the button and the slider keep taking input if
      they did, so the slider is out of line with the state exactly when the
      state was on. */
  lemma UnparsableLedStatusLeavesControlsLive(p: Panel, message: string)
    requires Coherent(p) && ParseButtonState(message).None?
    ensures var r := LedStatus(p, message);
      && r.state == Disabled
      && r.buttonInteractive == p.buttonInteractive && r.sliderInteractive == p.sliderInteractive
      && (!Coherent(r) <==> p.state == On)
  {
  }

  /** `updateState(for: .brightness, message:)` as written: the slider is set
      to `Float(message)!` whenever `message.isNumber`. The empty message is
      a number but `Float("")` is nil, so the force-unwrap traps (`None`). */
  function BrightnessStatusAsWritten(p: Panel, message: string): (r: Option<Panel>)
    ensures r.None? <==> message == ""
  {
    if IsNumber(message) then
      if message == "" then None else Some(p.(brightness := message))
    else Some(p)
  }

  /** The empty brightness status, which passes the `isNumber` guard, traps. */
  lemma {:induction false} EmptyBrightnessStatusTraps(p: Panel)
    ensures IsNumber("")
    ensures BrightnessStatusAsWritten(p, "") == None
  {
    EmptyIsNumber();
  }

  /** A brightness status a slider value can be read from: a non-empty run of
      decimal digits. */
  predicate IsBrightness(s: string) {
    IsNumber(s) && s != ""
  }

  /** `updateState(for: .brightness, message:)` with the guard the unwrap
      needs: only a non-empty digit string moves the slider; everything else,
      "" included, is ignored. */
  function BrightnessStatus(p: Panel, message: string): (r: Panel)
    ensures r.(brightness := p.brightness) == p
    ensures r.brightness != p.brightness ==> r.brightness == message && IsBrightness(message)
    ensures IsBrightness(message) ==> r.brightness == message
  {
    if IsBrightness(message) then p.(brightness := message) else p
  }

  /** The corrected update never traps and agrees with the written one
      wherever that one does not trap; it keeps the slider value a number. */
  lemma {:induction false} BrightnessStatusAgrees(p: Panel, message: string)
    ensures BrightnessStatusAsWritten(p, message).Some? ==>
      BrightnessStatusAsWritten(p, message) == Some(BrightnessStatus(p, message))
    ensures IsBrightness(p.brightness) ==> IsBrightness(BrightnessStatus(p, message).brightness)
  {
    if message != "" && IsNumber(message) {
      assert IsBrightness(message);
    }
  }

  /** `didTapButton` on the controls: toggle, then set the button and the
      slider up again. */
  function Tapped(p: Panel): (r: Panel)
    ensures r.state == Toggled(p.state)
    ensures r.buttonInteractive <==> p.buttonInteractive && p.state != Disabled
    ensures Coherent(r)
    ensures r.brightness == p.brightness && r.temperature == p.temperature
  {
    SliderSetUp(ButtonSetUp(p.(state := Toggled(p.state))))
  }

  /** Two taps on a live button restore the controls. */
  lemma {:induction false} TappedTwice(p: Panel)
    requires Coherent(p) && p.state != Disabled
    ensures Tapped(Tapped(p)) == p
  {
    ToggledTwice(p.state);
  }

  /** Tapping while disabled changes no state and switches the button off. */
  lemma TappedDisabled(p: Panel)
    requires p.state == Disabled
    ensures Tapped(p) == p.(buttonInteractive := false, sliderInteractive := false)
  {
  }

  /** `setup`, as far as the controls go: label text, slider value 50, then
      `setupButton` and `setupSlider` for the current state. */
  function SetUp(p: Panel): (r: Panel)
    ensures Coherent(r)
    ensures r.state == p.state && r.brightness == "50" && r.temperature == "temperature"
    ensures r.buttonInteractive <==> p.buttonInteractive && p.state != Disabled
  {
    SliderSetUp(ButtonSetUp(p.(brightness := "50", temperature := "temperature")))
  }

  // The device configuration the view controller hands the presenter.

  const DeviceFunctions: map<string, string> := map[
    "temperature" := "device_97F4A9/temp",
    "led" := "device_97F4A9/led",
    "brightness" := "device_97F4A9/led/bright"]

  const DeviceStatusTopics: map<string, string> := map[
    "led" := "device_97F4A9/led/status",
    "brightness" := "device_97F4A9/led/bright/status"]

  const DeviceConnectionTopics: map<string, string> := map[
    "ping" := "device_97F4A9/ping",
    "pong" := "device_97F4A9/pong"]

  /** The tables the device configuration produces, in any iteration order. */
  const DeviceTables := RouteTables(
    map["device_97F4A9/temp" := Temperature],
    map["device_97F4A9/led/status" := Led, "device_97F4A9/led/bright/status" := Brightness],
    map[Led := "device_97F4A9/led", Brightness := "device_97F4A9/led/bright"],
    map[Ping := "device_97F4A9/ping", Pong := "device_97F4A9/pong"],
    map["device_97F4A9/temp" := Recieve, "device_97F4A9/led/status" := Status,
        "device_97F4A9/led/bright/status" := Status, "device_97F4A9/pong" := Connection])

  lemma DeviceTopicSets()
    ensures RecieveTopics(DeviceFunctions) == {"device_97F4A9/temp"}
    ensures StatusTopics(DeviceStatusTopics) == {"device_97F4A9/led/status", "device_97F4A9/led/bright/status"}
    ensures PongTopics(DeviceConnectionTopics) == {"device_97F4A9/pong"}
  {
    assert DeviceFunctions.Keys == {"temperature", "led", "brightness"};
    assert DeviceStatusTopics.Keys == {"led", "brightness"};
    assert ParseRecieveFunction("temperature").Some?;
    assert ParseRecieveFunction("led").None? && ParseRecieveFunction("brightness").None?;
    assert ParseSendFunction("led").Some? && ParseSendFunction("brightness").Some?;
  }

  lemma DeviceKinds(r: RouteTables)
    requires KindsConfigured(r, NoTables, DeviceFunctions, DeviceStatusTopics, DeviceConnectionTopics)
    ensures r.recieveFunctions == DeviceTables.recieveFunctions
    ensures r.recieveTopicType == DeviceTables.recieveTopicType
  {
    DeviceTopicSets();
    var temp, led, bright, pong :=
      "device_97F4A9/temp", "device_97F4A9/led/status", "device_97F4A9/led/bright/status", "device_97F4A9/pong";
    assert r.recieveFunctions.Keys == {temp};
    assert r.recieveTopicType.Keys == {temp, led, bright, pong};
    assert r.recieveTopicType[temp] == Recieve;
    assert r.recieveTopicType[led] == Status && r.recieveTopicType[bright] == Status;
    assert r.recieveTopicType[pong] == Connection;
  }

  lemma DeviceStatusFunctions(r: RouteTables)
    requires StatusConfigured(r, NoTables, DeviceStatusTopics)
    ensures r.statusFunctions == DeviceTables.statusFunctions
  {
    DeviceTopicSets();
    var x, y := "device_97F4A9/led/status", "device_97F4A9/led/bright/status";
    assert ParseSendFunction("led") == Some(Led) && ParseSendFunction("brightness") == Some(Brightness);
    assert DeviceStatusTopics.Keys == {"led", "brightness"};
    assert r.statusFunctions.Keys == {x, y};
    DeviceStatusFunctionOf(r, "led", x);
    DeviceStatusFunctionOf(r, "brightness", y);
  }

  /** The only status name whose topic is `DeviceStatusTopics[name]` is `name`. */
  lemma DeviceStatusFunctionOf(r: RouteTables, name: string, x: string)
    requires StatusConfigured(r, NoTables, DeviceStatusTopics)
    requires name in DeviceStatusTopics && DeviceStatusTopics[name] == x && ParseSendFunction(name).Some?
    ensures x in r.statusFunctions && Some(r.statusFunctions[x]) == ParseSendFunction(name)
  {
    DeviceTopicSets();
    assert DeviceStatusTopics.Keys == {"led", "brightness"};
    var n :| n in DeviceStatusTopics && DeviceStatusTopics[n] == x && ParseSendFunction(n) == Some(r.statusFunctions[x]);
    assert |DeviceStatusTopics["led"]| != |DeviceStatusTopics["brightness"]|;
    assert n == name;
  }

  lemma DeviceSendTopics(r: RouteTables)
    requires SendConfigured(r, NoTables, DeviceFunctions)
    ensures r.sendTopics == DeviceTables.sendTopics
  {
    assert SendRaw(Led) in DeviceFunctions && SendRaw(Brightness) in DeviceFunctions;
    assert r.sendTopics.Keys == {Led, Brightness};
  }

  lemma DeviceConnectionTable(r: RouteTables)
    requires ConnectionConfigured(r, NoTables, DeviceConnectionTopics)
    ensures r.connectionTopics == DeviceTables.connectionTopics
  {
    assert ConnectionRaw(Ping) in DeviceConnectionTopics && ConnectionRaw(Pong) in DeviceConnectionTopics;
    assert r.connectionTopics.Keys == {Ping, Pong};
  }

  /** The device configuration yields `DeviceTables` whatever order the
      three dictionaries are iterated in. */
  lemma DeviceConfiguration(o1: seq<string>, o2: seq<string>, o3: seq<string>)
    requires Enumerates(o1, DeviceFunctions.Keys) && Enumerates(o2, DeviceStatusTopics.Keys)
    requires Enumerates(o3, DeviceConnectionTopics.Keys)
    ensures Within(o1, DeviceFunctions) && Within(o2, DeviceStatusTopics) && Within(o3, DeviceConnectionTopics)
    ensures Configure(NoTables, DeviceFunctions, DeviceStatusTopics, DeviceConnectionTopics, o1, o2, o3)
            == DeviceTables
  {
    ConfigureEffect(NoTables, DeviceFunctions, DeviceStatusTopics, DeviceConnectionTopics, o1, o2, o3);
    var r := Configure(NoTables, DeviceFunctions, DeviceStatusTopics, DeviceConnectionTopics, o1, o2, o3);
    DeviceKinds(r);
    DeviceStatusFunctions(r);
    DeviceSendTopics(r);
    DeviceConnectionTable(r);
  }

  /** With the device tables the handshake can run, every status topic can be
      polled, the led can be sent, and the four inbound topics route as
      intended. */
  lemma DeviceRouting(message: string)
    ensures Consistent(DeviceTables)
    ensures Ping in DeviceTables.connectionTopics && Led in DeviceTables.sendTopics
    ensures forall x | x in DeviceTables.statusFunctions :: DeviceTables.statusFunctions[x] in DeviceTables.sendTopics
    ensures Route(DeviceTables, "device_97F4A9/temp", message) == Telemetry(Temperature, message)
    ensures Route(DeviceTables, "device_97F4A9/led/status", message) == StatusUpdate(Led, message)
    ensures Route(DeviceTables, "device_97F4A9/led/bright/status", message) == StatusUpdate(Brightness, message)
    ensures Route(DeviceTables, "device_97F4A9/pong", "pong") == Handshake
    ensures Route(DeviceTables, "device_97F4A9/ping", message) == Dropped
  {
  }

  class ViewController {
    const presenter: Presenter
    var buttonState: ButtonState
    var buttonInteractive: bool
    var sliderInteractive: bool
    var brightness: string
    var temperature: string

    function Shown(): Panel
      reads this
    {
      Panel(buttonState, buttonInteractive, sliderInteractive, brightness, temperature)
    }

    ghost predicate Valid()
      reads this, presenter, presenter.model, presenter.model.manager
    {
      presenter.Valid()
    }

    /** Before `viewDidLoad`: state disabled, controls taking input (the
        toolkit's default), slider at 0, empty label. */
    constructor ()
      ensures Valid() && fresh(presenter) && fresh(presenter.model) && fresh(presenter.model.manager)
      ensures Shown() == Panel(Disabled, true, true, "0", "")
      ensures presenter.Tables() == NoTables
      ensures presenter.model.manager.View() == Link(Disconnected, 0, false, [], [])
      ensures presenter.model.manager.issued == []
    {
      presenter := new Presenter();
      buttonState := Disabled;
      buttonInteractive := true;
      sliderInteractive := true;
      brightness := "0";
      temperature := "";
    }

    method SwitchState()
      modifies this
      ensures Shown() == old(Shown()).(state := Toggled(old(buttonState)))
    {
      if buttonState == On {
        buttonState := Off;
      } else if buttonState == Off {
        buttonState := On;
      }
    }

    method SetupButton()
      modifies this
      ensures Shown() == ButtonSetUp(old(Shown()))
    {
      if buttonState == Disabled {
        buttonInteractive := false;
      }
    }

    method SetupSlider()
      modifies this
      ensures Shown() == SliderSetUp(old(Shown()))
    {
      match buttonState {
        case On => sliderInteractive := true;
        case Off => sliderInteractive := false;
        case Disabled => sliderInteractive := false;
      }
    }

    /** `viewDidLoad`: set the controls up, then load the presenter with the
        device configuration. */
    method ViewDidLoad(accepted: bool)
      returns (ghost o1: seq<string>, ghost o2: seq<string>, ghost o3: seq<string>)
      requires Valid()
      modifies this, presenter, presenter.model, presenter.model.manager
      ensures Valid()
      ensures Shown() == SetUp(old(Shown()))
      ensures Enumerates(o1, DeviceFunctions.Keys) && Enumerates(o2, DeviceStatusTopics.Keys)
      ensures Enumerates(o3, DeviceConnectionTopics.Keys)
      ensures Within(o1, DeviceFunctions) && Within(o2, DeviceStatusTopics) && Within(o3, DeviceConnectionTopics)
      ensures presenter.Tables() ==
        Configure(old(presenter.Tables()), DeviceFunctions, DeviceStatusTopics, DeviceConnectionTopics, o1, o2, o3)
      ensures presenter.model.manager.Emitted(Started(old(presenter.model.manager.View()), accepted),
                                              old(presenter.model.manager.issued),
                                              [Command.Subscribe("device_97F4A9/pong", QoS1)])
      ensures presenter.model.pinging && presenter.model.timerTopics == presenter.connectionTopics
      ensures presenter.model.observers == old(presenter.model.observers)
      ensures presenter.model.messages == old(presenter.model.messages)
    {
      temperature := "temperature";
      brightness := "50";
      SetupButton();
      SetupSlider();
      o1, o2, o3 := presenter.DidLoadView(DeviceFunctions, DeviceStatusTopics, DeviceConnectionTopics, accepted);
    }

    /** `didTapButton`: toggle, set the controls up, send the new state's raw
        value as the led command. */
    method DidTapButton()
      requires Valid()
      requires Led in presenter.sendTopics
      modifies this, presenter.model.manager
      ensures Valid()
      ensures Shown() == Tapped(old(Shown()))
      ensures presenter.model.manager.Emitted(old(presenter.model.manager.View()), old(presenter.model.manager.issued),
                                              [Publish(presenter.sendTopics[Led], ButtonRaw(buttonState), QoS1)])
    {
      SwitchState();
      SetupButton();
      SetupSlider();
      presenter.SendMessage(Led, ButtonRaw(buttonState));
    }

    /** `update(for:message:)`: the temperature label shows the message in
        degrees Celsius. */
    method ShowTemperature(f: RecieveFunction, message: string)
      modifies this
      ensures Shown() == old(Shown()).(temperature := message + " °C")
    {
      match f {
        case Temperature => temperature := message + " °C";
      }
    }

    /** `updateState(for:message:)`, with the brightness guard corrected. */
    method UpdateState(f: SendFunction, message: string)
      modifies this
      ensures Shown() == match f
        case Led => LedStatus(old(Shown()), message)
        case Brightness => BrightnessStatus(old(Shown()), message)
    {
      match f {
        case Led =>
          match ParseButtonState(message) {
            case None =>
              buttonState := Disabled;
              return;
            case Some(state) =>
              if buttonState != state {
                buttonState := state;
                SetupButton();
                SetupSlider();
              }
              if !buttonInteractive {
                buttonInteractive := true;
              }
          }
        case Brightness =>
          if IsNumber(message) && message != "" {
            brightness := message;
          }
      }
    }

    /** An inbound message along the delegate chain: the manager forwards it,
        the model records it, the presenter routes it, and the routed call
        lands here. */
    method Receive(topic: string, message: string)
      returns (routing: Routing, ghost recieveOrder: seq<string>, ghost statusOrder: seq<string>)
      requires Valid()
      requires Route(presenter.Tables(), topic, message).Handshake? ==> Ping in presenter.connectionTopics
      modifies this, presenter.model, presenter.model.manager
      ensures Valid()
      ensures routing == Route(presenter.Tables(), topic, message)
      ensures presenter.model.messages == old(presenter.model.messages)[topic := message]
      ensures Shown() == match routing
        case Telemetry(_, m) => old(Shown()).(temperature := m + " °C")
        case StatusUpdate(Led, m) => LedStatus(old(Shown()), m)
        case StatusUpdate(Brightness, m) => BrightnessStatus(old(Shown()), m)
        case _ => old(Shown())
      ensures presenter.model.timerTopics == old(presenter.model.timerTopics)
      ensures routing.Handshake? ==>
        && presenter.model.manager.Emitted(old(presenter.model.manager.View()), old(presenter.model.manager.issued),
                                           HandshakeCommands(presenter.Tables(), recieveOrder, statusOrder))
        && !presenter.model.pinging && presenter.model.observers == old(presenter.model.observers) + 1
      ensures !routing.Handshake? ==>
        && presenter.model.manager.View() == old(presenter.model.manager.View())
        && presenter.model.manager.issued == old(presenter.model.manager.issued)
        && presenter.model.pinging == old(presenter.model.pinging)
        && presenter.model.observers == old(presenter.model.observers)
    {
      var t, m := presenter.model.manager.DidReceiveMessage(topic, message);
      t, m := presenter.model.Update(t, m);
      routing, recieveOrder, statusOrder := presenter.Update(t, m);
      match routing {
        case Telemetry(f, msg) => ShowTemperature(f, msg);
        case StatusUpdate(f, msg) => UpdateState(f, msg);
        case Handshake =>
        case Dropped =>
      }
    }

    /** A subscribe acknowledgement along the notification chain: the
        manager posts one notice per granted topic, each notice reaches every
        registered observer, the model passes its topic on and the presenter
        polls it if it is a status topic. */
    method Acknowledge(success: map<string, int>) returns (ghost order: seq<string>)
      requires Valid()
      requires presenter.model.observers > 0 ==>
        forall x | x in success && success[x] == 1 :: PollableTopic(presenter.Tables(), x)
      modifies presenter.model.manager
      ensures Valid()
      ensures Enumerates(order, set x | x in success && success[x] == 1)
      ensures presenter.model.manager.Emitted(old(presenter.model.manager.View()), old(presenter.model.manager.issued),
                                              Polls(presenter.Tables(), order, presenter.model.observers))
    {
      var posted;
      posted, order := presenter.model.manager.DidSubscribeTopics(success);
      forall i | 0 <= i < |order| ensures presenter.model.DidSubscribed(posted[i]) == Some(order[i]) {
        presenter.model.PostedNoticesReachOutput(order[i]);
      }
      DeliverAll(posted, order);
    }

    /** The posted notices, one for each topic of `order`, each reach every
        registered observer in turn. */
    method DeliverAll(posted: seq<UserInfo>, ghost order: seq<string>)
      requires Valid()
      requires PollableAlong(presenter.Tables(), order, presenter.model.observers)
      requires |posted| == |order|
      requires forall i | 0 <= i < |order| :: presenter.model.DidSubscribed(posted[i]) == Some(order[i])
      modifies presenter.model.manager
      ensures Valid()
      ensures presenter.model.manager.Emitted(old(presenter.model.manager.View()), old(presenter.model.manager.issued),
                                              Polls(presenter.Tables(), order, presenter.model.observers))
    {
      ghost var v0, i0 := presenter.model.manager.View(), presenter.model.manager.issued;
      ghost var t, n := presenter.Tables(), presenter.model.observers;
      var i := 0;
      while i < |posted|
        invariant 0 <= i <= |posted|
        invariant Valid() && presenter.Tables() == t && presenter.model.observers == n
        invariant PollableAlong(t, order[..i], n)
        invariant presenter.model.manager.Emitted(v0, i0, Polls(t, order[..i], n))
      {
        ghost var v1, i1 := presenter.model.manager.View(), presenter.model.manager.issued;
        Deliver(posted[i], order[i]);
        PollStep(t, order, i, n, v0, i0, v1, i1, presenter.model.manager.View(), presenter.model.manager.issued);
        i := i + 1;
      }
      assert order[..i] == order;
    }

    /** One posted notice reaches each registered observer (every
        `addObserver` of `getStatus` registers once more); each observer's
        `didSubscribed(_:)` reads the topic back out of the notice and hands
        it to the presenter's `didSubscribedTo`. */
    method Deliver(notice: UserInfo, ghost topic: string)
      requires Valid()
      requires presenter.model.observers > 0 ==> PollableTopic(presenter.Tables(), topic)
      requires presenter.model.DidSubscribed(notice) == Some(topic)
      modifies presenter.model.manager
      ensures Valid()
      ensures presenter.model.manager.Emitted(old(presenter.model.manager.View()), old(presenter.model.manager.issued),
                                              Deliveries(presenter.Tables(), topic, presenter.model.observers))
    {
      ghost var v1, i1 := presenter.model.manager.View(), presenter.model.manager.issued;
      var k := 0;
      while k < presenter.model.observers
        invariant 0 <= k <= presenter.model.observers
        invariant Valid()
        invariant presenter.model.manager.Emitted(v1, i1, Deliveries(presenter.Tables(), topic, k))
      {
        var received := presenter.model.DidSubscribed(notice);
        ghost var v2, i2 := presenter.model.manager.View(), presenter.model.manager.issued;
        presenter.DidSubscribedTo(received.value);
        ChainEmits(v1, i1, Deliveries(presenter.Tables(), topic, k), v2, i2,
                   StatusPoll(presenter.Tables(), topic),
                   presenter.model.manager.View(), presenter.model.manager.issued);
        assert Deliveries(presenter.Tables(), topic, k) + StatusPoll(presenter.Tables(), topic)
            == Deliveries(presenter.Tables(), topic, k + 1);
        k := k + 1;
      }
    }
  }
}
