/** The older router of ModelPresenter.swift, kept apart from the current
    one: it has its own enumerations (a second receive function
    "adjustment", no connection topics), talks to the manager directly,
    subscribes to everything as soon as it is loaded, and sends only led
    commands. */
module LegacyRouter {
  import opened Basics
  import opened Transport

  datatype RecieveTopicType = Recieve | Status

  datatype RecieveFunction = Temperature | Adjustment

  datatype SendFunction = Led | Brightness

  /** The declared raw values: "temperature" and "adjustment", one per case. */
  function RecieveRaw(f: RecieveFunction): (r: string)
    ensures r == "temperature" <==> f == Temperature
    ensures r == "adjustment" <==> f == Adjustment
  {
    match f
    case Temperature => "temperature"
    case Adjustment => "adjustment"
  }

  /** The declared raw values: "led" and "brightness", one per case. */
  function SendRaw(f: SendFunction): (r: string)
    ensures r == "led" <==> f == Led
    ensures r == "brightness" <==> f == Brightness
  {
    match f
    case Led => "led"
    case Brightness => "brightness"
  }

  /** `RecieveFunction(rawValue:)`. */
  function ParseRecieveFunction(s: string): (r: Option<RecieveFunction>)
    ensures r.Some? <==> s == "temperature" || s == "adjustment"
    ensures r.Some? ==> RecieveRaw(r.value) == s
  {
    if s == "temperature" then Some(Temperature)
    else if s == "adjustment" then Some(Adjustment)
    else None
  }

  /** `SendFunction(rawValue:)`. */
  function ParseSendFunction(s: string): (r: Option<SendFunction>)
    ensures r.Some? <==> s == "led" || s == "brightness"
    ensures r.Some? ==> SendRaw(r.value) == s
  {
    if s == "led" then Some(Led)
    else if s == "brightness" then Some(Brightness)
    else None
  }

  datatype Tables = Tables(
    recieveFunctions: map<string, RecieveFunction>,
    statusFunctions: map<string, SendFunction>,
    sendTopics: map<SendFunction, string>,
    recieveTopicType: map<string, RecieveTopicType>)

  /** Every classified topic has its entry in its kind's table. */
  ghost predicate Consistent(t: Tables) {
    forall x | x in t.recieveTopicType ::
      && (t.recieveTopicType[x] == Recieve ==> x in t.recieveFunctions)
      && (t.recieveTopicType[x] == Status ==> x in t.statusFunctions)
  }

  /** `r` holds every entry of `t`: configuration only adds or overwrites. */
  ghost predicate Extends(r: Tables, t: Tables) {
    && t.recieveFunctions.Keys <= r.recieveFunctions.Keys
    && t.statusFunctions.Keys <= r.statusFunctions.Keys
    && t.sendTopics.Keys <= r.sendTopics.Keys
    && t.recieveTopicType.Keys <= r.recieveTopicType.Keys
  }

  /** One entry of `setTopics(from:)`: a receive function registers its
      topic; a send function only records its outbound topic. */
  function FunctionEntry(t: Tables, name: string, topic: string): (r: Tables)
    ensures Extends(r, t) && (Consistent(t) ==> Consistent(r))
    ensures r.statusFunctions == t.statusFunctions
    ensures ParseRecieveFunction(name).None? ==> r.recieveTopicType == t.recieveTopicType
    ensures forall x | x in t.recieveTopicType && x != topic :: r.recieveTopicType[x] == t.recieveTopicType[x]
  {
    match ParseRecieveFunction(name)
    case Some(f) =>
      t.(recieveTopicType := t.recieveTopicType[topic := Recieve],
         recieveFunctions := t.recieveFunctions[topic := f])
    case None =>
      match ParseSendFunction(name)
      case Some(f) => t.(sendTopics := t.sendTopics[f := topic])
      case None => t
  }

  /** One entry of `setStatus(from:)`: a send function makes its topic a
      status topic; any other name is skipped. */
  function StatusEntry(t: Tables, name: string, topic: string): (r: Tables)
    ensures Extends(r, t) && (Consistent(t) ==> Consistent(r))
    ensures r.recieveFunctions == t.recieveFunctions && r.sendTopics == t.sendTopics
    ensures ParseSendFunction(name).None? ==> r == t
    ensures forall x | x in t.recieveTopicType && x != topic :: r.recieveTopicType[x] == t.recieveTopicType[x]
  {
    match ParseSendFunction(name)
    case Some(f) =>
      t.(recieveTopicType := t.recieveTopicType[topic := Status],
         statusFunctions := t.statusFunctions[topic := f])
    case None => t
  }

  ghost function RecieveTopicsAlong(cfg: map<string, string>, order: seq<string>): set<string>
    requires Within(order, cfg)
  {
    set n | n in order && ParseRecieveFunction(n).Some? :: cfg[n]
  }

  ghost function StatusTopicsAlong(cfg: map<string, string>, order: seq<string>): set<string>
    requires Within(order, cfg)
  {
    set n | n in order && ParseSendFunction(n).Some? :: cfg[n]
  }

  /** The topics registered along `order` are those along its prefix plus
      what its last entry registers. */
  lemma AlongSnoc(cfg: map<string, string>, order: seq<string>)
    requires Within(order, cfg) && order != []
    ensures Within(order[..|order| - 1], cfg)
    ensures var pre, last := order[..|order| - 1], order[|order| - 1];
      RecieveTopicsAlong(cfg, order) ==
        RecieveTopicsAlong(cfg, pre) + (if ParseRecieveFunction(last).Some? then {cfg[last]} else {})
    ensures var pre, last := order[..|order| - 1], order[|order| - 1];
      StatusTopicsAlong(cfg, order) ==
        StatusTopicsAlong(cfg, pre) + (if ParseSendFunction(last).Some? then {cfg[last]} else {})
  {
    PreWithin(order, cfg);
  }

  /** `setTopics`: "temperature" and "adjustment" make their topics receive
      topics of one of the functions named for them; the status table stays. */
  lemma FunctionsPassKinds(t: Tables, cfg: map<string, string>, order: seq<string>)
    requires Within(order, cfg)
    ensures var r := Pass(FunctionEntry, t, cfg, order); var rt := RecieveTopicsAlong(cfg, order);
      && r.statusFunctions == t.statusFunctions
      && Overlay(r.recieveTopicType, t.recieveTopicType, rt, Recieve)
      && r.recieveFunctions.Keys == t.recieveFunctions.Keys + rt
      && (forall x | x in r.recieveFunctions && x !in rt :: r.recieveFunctions[x] == t.recieveFunctions[x])
      && (forall x | x in rt ::
            exists n | n in order :: cfg[n] == x && ParseRecieveFunction(n) == Some(r.recieveFunctions[x]))
  {
    FunctionsPassTypes(t, cfg, order);
    FunctionsPassNames(t, cfg, order);
  }

  lemma {:induction false} FunctionsPassTypes(t: Tables, cfg: map<string, string>, order: seq<string>)
    requires Within(order, cfg)
    ensures var r := Pass(FunctionEntry, t, cfg, order); var rt := RecieveTopicsAlong(cfg, order);
      && r.statusFunctions == t.statusFunctions
      && Overlay(r.recieveTopicType, t.recieveTopicType, rt, Recieve)
      && Updates(r.recieveFunctions, t.recieveFunctions, rt)
  {
    if order != [] {
      var pre, last := order[..|order| - 1], order[|order| - 1];
      AlongSnoc(cfg, order);
      FunctionsPassTypes(t, cfg, pre);
      var r0 := Pass(FunctionEntry, t, cfg, pre);
      assert Pass(FunctionEntry, t, cfg, order) == FunctionEntry(r0, last, cfg[last]);
      if ParseRecieveFunction(last).Some? {
        var rt := RecieveTopicsAlong(cfg, pre);
        OverlayStep(r0.recieveTopicType, t.recieveTopicType, rt, Recieve, cfg[last]);
        UpdatesStep(r0.recieveFunctions, t.recieveFunctions, rt, cfg[last], ParseRecieveFunction(last).value);
      }
    }
  }

  lemma {:induction false} FunctionsPassNames(t: Tables, cfg: map<string, string>, order: seq<string>)
    requires Within(order, cfg)
    ensures var r := Pass(FunctionEntry, t, cfg, order);
      forall x | x in RecieveTopicsAlong(cfg, order) ::
        x in r.recieveFunctions &&
        exists n | n in order :: cfg[n] == x && ParseRecieveFunction(n) == Some(r.recieveFunctions[x])
  {
    if order != [] {
      var pre, last := order[..|order| - 1], order[|order| - 1];
      AlongSnoc(cfg, order);
      PreWithin(order, cfg);
      FunctionsPassNames(t, cfg, pre);
      var r0 := Pass(FunctionEntry, t, cfg, pre);
      var r := Pass(FunctionEntry, t, cfg, order);
      assert r == FunctionEntry(r0, last, cfg[last]);
      forall x | x in RecieveTopicsAlong(cfg, order)
        ensures x in r.recieveFunctions
        ensures exists n | n in order :: cfg[n] == x && ParseRecieveFunction(n) == Some(r.recieveFunctions[x])
      {
        if ParseRecieveFunction(last).Some? && x == cfg[last] {
          assert cfg[last] == x && ParseRecieveFunction(last) == Some(r.recieveFunctions[x]);
        } else {
          var n :| n in pre && cfg[n] == x && ParseRecieveFunction(n) == Some(r0.recieveFunctions[x]);
          assert n in order;
        }
      }
    }
  }

  /** `setTopics`: "led" and "brightness" only record their send topics. */
  lemma {:induction false} FunctionsPassSends(t: Tables, cfg: map<string, string>, order: seq<string>)
    requires Within(order, cfg)
    ensures var r := Pass(FunctionEntry, t, cfg, order);
      && (forall f :: f in r.sendTopics <==> f in t.sendTopics || SendRaw(f) in order)
      && (forall f | f in r.sendTopics ::
            r.sendTopics[f] == if SendRaw(f) in order then cfg[SendRaw(f)] else t.sendTopics[f])
  {
    if order != [] {
      var pre, last := order[..|order| - 1], order[|order| - 1];
      PreWithin(order, cfg);
      FunctionsPassSends(t, cfg, pre);
      var r0 := Pass(FunctionEntry, t, cfg, pre);
      var r := Pass(FunctionEntry, t, cfg, order);
      assert r == FunctionEntry(r0, last, cfg[last]);
      match ParseRecieveFunction(last)
      case Some(g) =>
        assert forall f :: SendRaw(f) != last;
        assert r.sendTopics == r0.sendTopics;
      case None =>
        match ParseSendFunction(last)
        case Some(g) =>
          assert forall f :: SendRaw(f) == last <==> f == g;
          assert r.sendTopics == r0.sendTopics[g := cfg[last]];
        case None =>
          assert forall f :: SendRaw(f) != last;
          assert r == r0;
    }
  }

  /** `setStatus`: status topics become `.status` topics of one of the send
      functions named for them; nothing else changes. */
  lemma StatusPassEffect(t: Tables, cfg: map<string, string>, order: seq<string>)
    requires Within(order, cfg)
    ensures var r := Pass(StatusEntry, t, cfg, order); var st := StatusTopicsAlong(cfg, order);
      && r.recieveFunctions == t.recieveFunctions
      && r.sendTopics == t.sendTopics
      && Overlay(r.recieveTopicType, t.recieveTopicType, st, Status)
      && r.statusFunctions.Keys == t.statusFunctions.Keys + st
      && (forall x | x in r.statusFunctions && x !in st :: r.statusFunctions[x] == t.statusFunctions[x])
      && (forall x | x in st ::
            exists n | n in order :: cfg[n] == x && ParseSendFunction(n) == Some(r.statusFunctions[x]))
  {
    StatusPassTypes(t, cfg, order);
    StatusPassNames(t, cfg, order);
  }

  lemma {:induction false} StatusPassTypes(t: Tables, cfg: map<string, string>, order: seq<string>)
    requires Within(order, cfg)
    ensures var r := Pass(StatusEntry, t, cfg, order); var st := StatusTopicsAlong(cfg, order);
      && r.recieveFunctions == t.recieveFunctions
      && r.sendTopics == t.sendTopics
      && Overlay(r.recieveTopicType, t.recieveTopicType, st, Status)
      && Updates(r.statusFunctions, t.statusFunctions, st)
  {
    if order != [] {
      var pre, last := order[..|order| - 1], order[|order| - 1];
      AlongSnoc(cfg, order);
      StatusPassTypes(t, cfg, pre);
      var r0 := Pass(StatusEntry, t, cfg, pre);
      assert Pass(StatusEntry, t, cfg, order) == StatusEntry(r0, last, cfg[last]);
      if ParseSendFunction(last).Some? {
        var st := StatusTopicsAlong(cfg, pre);
        OverlayStep(r0.recieveTopicType, t.recieveTopicType, st, Status, cfg[last]);
        UpdatesStep(r0.statusFunctions, t.statusFunctions, st, cfg[last], ParseSendFunction(last).value);
      }
    }
  }

  lemma {:induction false} StatusPassNames(t: Tables, cfg: map<string, string>, order: seq<string>)
    requires Within(order, cfg)
    ensures var r := Pass(StatusEntry, t, cfg, order);
      forall x | x in StatusTopicsAlong(cfg, order) ::
        x in r.statusFunctions &&
        exists n | n in order :: cfg[n] == x && ParseSendFunction(n) == Some(r.statusFunctions[x])
  {
    if order != [] {
      var pre, last := order[..|order| - 1], order[|order| - 1];
      AlongSnoc(cfg, order);
      PreWithin(order, cfg);
      StatusPassNames(t, cfg, pre);
      var r0 := Pass(StatusEntry, t, cfg, pre);
      var r := Pass(StatusEntry, t, cfg, order);
      assert r == StatusEntry(r0, last, cfg[last]);
      forall x | x in StatusTopicsAlong(cfg, order)
        ensures x in r.statusFunctions
        ensures exists n | n in order :: cfg[n] == x && ParseSendFunction(n) == Some(r.statusFunctions[x])
      {
        if ParseSendFunction(last).Some? && x == cfg[last] {
          assert cfg[last] == x && ParseSendFunction(last) == Some(r.statusFunctions[x]);
        } else {
          var n :| n in pre && cfg[n] == x && ParseSendFunction(n) == Some(r0.statusFunctions[x]);
          assert n in order;
        }
      }
    }
  }

  /** `setTopics` then `setStatus`: whatever the iteration orders, no entry
      is removed, and consistent tables stay consistent, so dispatch never
      unwraps nil. */
  function Configure(t: Tables, functions: map<string, string>, status: map<string, string>,
                     o1: seq<string>, o2: seq<string>): (r: Tables)
    requires Within(o1, functions) && Within(o2, status)
    ensures Extends(r, t)
    ensures Consistent(t) ==> Consistent(r)
  {
    var r1 := Pass(FunctionEntry, t, functions, o1);
    PassKeeps(FunctionEntry, t, functions, o1, u => Extends(u, t));
    PassKeeps(StatusEntry, r1, status, o2, u => Extends(u, t));
    PassKeeps(FunctionEntry, t, functions, o1, Consistent);
    PassKeeps(StatusEntry, r1, status, o2, Consistent);
    Pass(StatusEntry, r1, status, o2)
  }

  /** The status pass runs second, so a topic named in both dictionaries
      ends up a status topic; the other tables are only added to. */
  lemma ConfigureEffect(t: Tables, functions: map<string, string>, status: map<string, string>,
                        o1: seq<string>, o2: seq<string>)
    requires Enumerates(o1, functions.Keys) && Enumerates(o2, status.Keys)
    ensures Within(o1, functions) && Within(o2, status)
    ensures var r := Configure(t, functions, status, o1, o2);
      var rt, st := RecieveTopicsAlong(functions, o1), StatusTopicsAlong(status, o2);
      && r.recieveTopicType.Keys == t.recieveTopicType.Keys + rt + st
      && (forall x | x in r.recieveTopicType ::
            r.recieveTopicType[x] ==
              if x in st then Status else if x in rt then Recieve else t.recieveTopicType[x])
      && r.recieveFunctions.Keys == t.recieveFunctions.Keys + rt
      && r.statusFunctions.Keys == t.statusFunctions.Keys + st
      && (forall f :: f in r.sendTopics <==> f in t.sendTopics || SendRaw(f) in functions)
  {
    var r1 := Pass(FunctionEntry, t, functions, o1);
    FunctionsPassKinds(t, functions, o1);
    FunctionsPassSends(t, functions, o1);
    StatusPassEffect(r1, status, o2);
  }

  /** What `update(for:message:)` does with an inbound message. */
  datatype Routing =
    | Telemetry(source: RecieveFunction, message: string)
    | StatusUpdate(target: SendFunction, message: string)
    | Dropped

  /** Dispatch: a receive topic reports to its function, a status topic to
      its send function, each with the message unchanged; any other topic is
      ignored. */
  function Route(t: Tables, topic: string, message: string): (r: Routing)
    requires Consistent(t)
    ensures r.Telemetry? <==> topic in t.recieveTopicType && t.recieveTopicType[topic] == Recieve
    ensures r.StatusUpdate? <==> topic in t.recieveTopicType && t.recieveTopicType[topic] == Status
    ensures r.Telemetry? ==> r == Telemetry(t.recieveFunctions[topic], message)
    ensures r.StatusUpdate? ==> r == StatusUpdate(t.statusFunctions[topic], message)
  {
    if topic !in t.recieveTopicType then Dropped
    else
      match t.recieveTopicType[topic]
      case Recieve => Telemetry(t.recieveFunctions[topic], message)
      case Status => StatusUpdate(t.statusFunctions[topic], message)
  }

  ghost function RecieveTopics(cfg: map<string, string>): set<string> {
    set n | n in cfg && ParseRecieveFunction(n).Some? :: cfg[n]
  }

  ghost function StatusTopics(cfg: map<string, string>): set<string> {
    set n | n in cfg && ParseSendFunction(n).Some? :: cfg[n]
  }

  /** After configuration, dispatch follows the role the status pass or
      else the function pass gave the topic: a status topic reports to a
      send function configured for it, a receive topic to a receive function
      configured for it, each with the message unchanged, and a topic neither
      pass named (and no earlier table held) is dropped. */
  lemma ConfiguredRouting(t: Tables, functions: map<string, string>, status: map<string, string>,
                          o1: seq<string>, o2: seq<string>, topic: string, message: string)
    requires Consistent(t)
    requires Enumerates(o1, functions.Keys) && Enumerates(o2, status.Keys)
    ensures Within(o1, functions) && Within(o2, status)
    ensures var r := Route(Configure(t, functions, status, o1, o2), topic, message);
      && (topic in StatusTopics(status) ==>
            r.StatusUpdate? && r.message == message &&
            exists n | n in status :: status[n] == topic && ParseSendFunction(n) == Some(r.target))
      && (topic !in StatusTopics(status) && topic in RecieveTopics(functions) ==>
            r.Telemetry? && r.message == message &&
            exists n | n in functions :: functions[n] == topic && ParseRecieveFunction(n) == Some(r.source))
      && (topic !in StatusTopics(status) && topic !in RecieveTopics(functions) && topic !in t.recieveTopicType ==>
            r == Dropped)
  {
    assert RecieveTopicsAlong(functions, o1) == RecieveTopics(functions);
    assert StatusTopicsAlong(status, o2) == StatusTopics(status);
    var r1 := Pass(FunctionEntry, t, functions, o1);
    FunctionsPassKinds(t, functions, o1);
    StatusPassEffect(r1, status, o2);
    ConfigureEffect(t, functions, status, o1, o2);
  }

  /** `sendMessage(from:message:)`: only led commands are published. */
  function SendCommands(t: Tables, sender: SendFunction, message: string): (cs: seq<Command>)
    requires sender == Led ==> Led in t.sendTopics
    ensures sender == Brightness <==> cs == []
    ensures cs != [] ==> cs == [Publish(t.sendTopics[Led], message, QoS1)]
  {
    match sender
    case Led => [Publish(t.sendTopics[Led], message, QoS1)]
    case Brightness => []
  }

  /** Loading subscribes to each receive topic and each status topic, once
      per table it is in, at QoS 1, and to nothing else. */
  lemma {:induction false} LoadSubscribesEachTopic(t: Tables, recieveOrder: seq<string>, statusOrder: seq<string>)
    requires Enumerates(recieveOrder, t.recieveFunctions.Keys) && Enumerates(statusOrder, t.statusFunctions.Keys)
    ensures var cs := SubscribeEach(recieveOrder) + SubscribeEach(statusOrder);
      && |cs| == |t.recieveFunctions| + |t.statusFunctions|
      && (forall c | c in cs :: c.Subscribe? && c.qos == QoS1)
      && (forall x ::
            multiset(cs)[Subscribe(x, QoS1)] ==
              (if x in t.recieveFunctions then 1 else 0) + (if x in t.statusFunctions then 1 else 0))
  {
    SubscribeEachPair(recieveOrder, t.recieveFunctions.Keys, statusOrder, t.statusFunctions.Keys);
  }

  class Presenter {
    const manager: MqttManager
    var recieveFunctions: map<string, RecieveFunction>
    var statusFunctions: map<string, SendFunction>
    var sendTopics: map<SendFunction, string>
    var recieveTopicType: map<string, RecieveTopicType>

    function Current(): Tables
      reads this
    {
      Tables(recieveFunctions, statusFunctions, sendTopics, recieveTopicType)
    }

    ghost predicate Valid()
      reads this, manager
    {
      Consistent(Current()) && manager.Valid()
    }

    constructor ()
      ensures Valid() && fresh(manager)
      ensures Current() == Tables(map[], map[], map[], map[])
      ensures manager.View() == Link(Disconnected, 0, false, [], []) && manager.issued == []
    {
      manager := new MqttManager();
      recieveFunctions := map[];
      statusFunctions := map[];
      sendTopics := map[];
      recieveTopicType := map[];
    }

    method SetTopics(functions: map<string, string>) returns (ghost order: seq<string>)
      modifies this
      ensures Enumerates(order, functions.Keys) && Within(order, functions)
      ensures Current() == Pass(FunctionEntry, old(Current()), functions, order)
    {
      var remaining := functions.Keys;
      order := [];
      while remaining != {}
        invariant remaining <= functions.Keys
        invariant Enumerates(order, functions.Keys - remaining) && Within(order, functions)
        invariant Current() == Pass(FunctionEntry, old(Current()), functions, order)
        decreases remaining
      {
        var name :| name in remaining;
        var topic := functions[name];
        match ParseRecieveFunction(name) {
          case Some(f) =>
            recieveTopicType := recieveTopicType[topic := Recieve];
            recieveFunctions := recieveFunctions[topic := f];
          case None =>
            match ParseSendFunction(name) {
              case Some(f) => sendTopics := sendTopics[f := topic];
              case None =>
            }
        }
        EnumeratesStep(order, functions.Keys, remaining, name);
        PassSnoc(FunctionEntry, old(Current()), functions, order, name);
        order := order + [name];
        remaining := remaining - {name};
      }
    }

    method SetStatus(status: map<string, string>) returns (ghost order: seq<string>)
      modifies this
      ensures Enumerates(order, status.Keys) && Within(order, status)
      ensures Current() == Pass(StatusEntry, old(Current()), status, order)
    {
      var remaining := status.Keys;
      order := [];
      while remaining != {}
        invariant remaining <= status.Keys
        invariant Enumerates(order, status.Keys - remaining) && Within(order, status)
        invariant Current() == Pass(StatusEntry, old(Current()), status, order)
        decreases remaining
      {
        var name :| name in remaining;
        var checkTopic := status[name];
        match ParseSendFunction(name) {
          case Some(f) =>
            recieveTopicType := recieveTopicType[checkTopic := Status];
            statusFunctions := statusFunctions[checkTopic := f];
          case None =>
        }
        EnumeratesStep(order, status.Keys, remaining, name);
        PassSnoc(StatusEntry, old(Current()), status, order, name);
        order := order + [name];
        remaining := remaining - {name};
      }
    }

    /** `startRecieving()`: subscribe to every receive topic. */
    method StartRecieving() returns (ghost order: seq<string>)
      requires Valid()
      modifies manager
      ensures Valid()
      ensures Enumerates(order, recieveFunctions.Keys)
      ensures manager.Emitted(old(manager.View()), old(manager.issued), SubscribeEach(order))
    {
      order := SubscribeKeys(manager, recieveFunctions);
    }

    /** `checkingStatus()`: subscribe to every status topic. */
    method CheckingStatus() returns (ghost order: seq<string>)
      requires Valid()
      modifies manager
      ensures Valid()
      ensures Enumerates(order, statusFunctions.Keys)
      ensures manager.Emitted(old(manager.View()), old(manager.issued), SubscribeEach(order))
    {
      order := SubscribeKeys(manager, statusFunctions);
    }

    /** `didLoadView(with:status:)`: start the connection, fill the tables,
        then subscribe to every receive and every status topic at once, with
        no liveness check first. */
    method DidLoadView(functions: map<string, string>, status: map<string, string>, accepted: bool)
      returns (ghost o1: seq<string>, ghost o2: seq<string>, ghost recieveOrder: seq<string>,
               ghost statusOrder: seq<string>)
      requires Valid()
      modifies this, manager
      ensures Valid()
      ensures Enumerates(o1, functions.Keys) && Enumerates(o2, status.Keys)
      ensures Within(o1, functions) && Within(o2, status)
      ensures Current() == Configure(old(Current()), functions, status, o1, o2)
      ensures Enumerates(recieveOrder, recieveFunctions.Keys) && Enumerates(statusOrder, statusFunctions.Keys)
      ensures manager.Emitted(Started(old(manager.View()), accepted), old(manager.issued),
                              SubscribeEach(recieveOrder) + SubscribeEach(statusOrder))
    {
      manager.Start(accepted);
      ghost var t0 := Current();
      o1 := SetTopics(functions);
      o2 := SetStatus(status);
      assert Current() == Configure(t0, functions, status, o1, o2);
      ghost var v0, i0 := manager.View(), manager.issued;
      recieveOrder := StartRecieving();
      ghost var v1, i1 := manager.View(), manager.issued;
      statusOrder := CheckingStatus();
      ChainEmits(v0, i0, SubscribeEach(recieveOrder), v1, i1, SubscribeEach(statusOrder),
                 manager.View(), manager.issued);
    }

    /** `sendMessage(from:message:)`; the led's topic is force-unwrapped. */
    method SendMessage(sender: SendFunction, message: string)
      requires Valid()
      requires sender == Led ==> Led in sendTopics
      modifies manager
      ensures Valid()
      ensures manager.Emitted(old(manager.View()), old(manager.issued), SendCommands(Current(), sender, message))
    {
      match sender {
        case Led =>
          manager.Publish(message, sendTopics[sender]);
        case Brightness =>
          assert IssueAll(manager.View(), []) == manager.View();
          assert manager.issued + [] == manager.issued;
          return;
      }
    }

    /** `update(for:message:)`: classify and forward; the tables are only
        read. */
    method Update(topic: string, message: string) returns (routing: Routing)
      requires Valid()
      ensures routing == Route(Current(), topic, message)
    {
      routing := Route(Current(), topic, message);
    }
  }
}
