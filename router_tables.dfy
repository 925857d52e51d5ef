/** The routing tables of Presenter.swift as values: how each configuration
    entry changes them, how a whole configuration pass changes them in any
    dictionary order, and how an inbound message is classified. */
module RouterTables {
  import opened Basics
  import opened Topics
  import opened Transport

  /** The five dictionaries the presenter fills from its configuration. */
  datatype RouteTables = RouteTables(
    recieveFunctions: map<string, RecieveFunction>,
    statusFunctions: map<string, SendFunction>,
    sendTopics: map<SendFunction, string>,
    connectionTopics: map<ConnectionTopicType, string>,
    recieveTopicType: map<string, RecieveTopicType>)

  const NoTables := RouteTables(map[], map[], map[], map[], map[])

  /** Every topic's kind has its entry in that kind's table, so the lookups
      of dispatch (force-unwraps in the source) always succeed. */
  ghost predicate Consistent(t: RouteTables) {
    forall x | x in t.recieveTopicType ::
      && (t.recieveTopicType[x] == Recieve ==> x in t.recieveFunctions)
      && (t.recieveTopicType[x] == Status ==> x in t.statusFunctions)
      && (t.recieveTopicType[x] == Connection ==> Pong in t.connectionTopics)
  }

  /** `r` holds every entry of `t`: configuration only adds or overwrites. */
  ghost predicate Extends(r: RouteTables, t: RouteTables) {
    && t.recieveFunctions.Keys <= r.recieveFunctions.Keys
    && t.statusFunctions.Keys <= r.statusFunctions.Keys
    && t.sendTopics.Keys <= r.sendTopics.Keys
    && t.connectionTopics.Keys <= r.connectionTopics.Keys
    && t.recieveTopicType.Keys <= r.recieveTopicType.Keys
  }

  /** One entry of `setTopics(from:)`: a receive function registers its topic
      as `.recieve`; a send function only records its outbound topic and
      leaves every topic's kind as it was. */
  function FunctionEntry(t: RouteTables, name: string, topic: string): (r: RouteTables)
    ensures Extends(r, t) && (Consistent(t) ==> Consistent(r))
    ensures r.statusFunctions == t.statusFunctions && r.connectionTopics == t.connectionTopics
    ensures ParseRecieveFunction(name).None? ==> r.recieveTopicType == t.recieveTopicType
    ensures forall x | x in t.recieveTopicType && x != topic :: r.recieveTopicType[x] == t.recieveTopicType[x]
  {
    match ParseRecieveFunction(name)
    case Some(f) =>
      t.(recieveTopicType := t.recieveTopicType[topic := Recieve],
         recieveFunctions := t.recieveFunctions[topic := f])
    case None =>
      match ParseSendFunction(name)
      case Some(f) => t.(sendTopics := t.sendTopics[f := topic])
      case None => t
  }

  /** One entry of `setStatusTopics(from:)`: a send function makes its topic
      a `.status` topic; any other name changes nothing. */
  function StatusEntry(t: RouteTables, name: string, topic: string): (r: RouteTables)
    ensures Extends(r, t) && (Consistent(t) ==> Consistent(r))
    ensures r.recieveFunctions == t.recieveFunctions && r.sendTopics == t.sendTopics
    ensures r.connectionTopics == t.connectionTopics
    ensures ParseSendFunction(name).None? ==> r == t
    ensures forall x | x in t.recieveTopicType && x != topic :: r.recieveTopicType[x] == t.recieveTopicType[x]
  {
    match ParseSendFunction(name)
    case Some(f) =>
      t.(recieveTopicType := t.recieveTopicType[topic := Status],
         statusFunctions := t.statusFunctions[topic := f])
    case None => t
  }

  /** One entry of `setConnectionTopics(from:)`: both kinds are stored, only
      the pong topic becomes an inbound `.connection` topic. */
  function ConnectionEntry(t: RouteTables, name: string, topic: string): (r: RouteTables)
    ensures Extends(r, t) && (Consistent(t) ==> Consistent(r))
    ensures r.recieveFunctions == t.recieveFunctions && r.statusFunctions == t.statusFunctions
    ensures r.sendTopics == t.sendTopics
    ensures ParseConnectionTopicType(name) != Some(Pong) ==> r.recieveTopicType == t.recieveTopicType
    ensures forall x | x in t.recieveTopicType && x != topic :: r.recieveTopicType[x] == t.recieveTopicType[x]
  {
    match ParseConnectionTopicType(name)
    case Some(k) =>
      var t1 := t.(connectionTopics := t.connectionTopics[k := topic]);
      if k == Pong then t1.(recieveTopicType := t1.recieveTopicType[topic := Connection]) else t1
    case None => t
  }

  /** The three passes of `didLoadView`, in the source's order. Whatever the
      iteration orders, no entry of any table is removed, and consistent
      tables stay consistent. */
  function Configure(t: RouteTables, functions: map<string, string>, status: map<string, string>,
                     connection: map<string, string>,
                     o1: seq<string>, o2: seq<string>, o3: seq<string>): (r: RouteTables)
    requires Within(o1, functions) && Within(o2, status) && Within(o3, connection)
    ensures Extends(r, t)
    ensures Consistent(t) ==> Consistent(r)
  {
    var r1 := Pass(FunctionEntry, t, functions, o1);
    var r2 := Pass(StatusEntry, r1, status, o2);
    PassKeeps(FunctionEntry, t, functions, o1, u => Extends(u, t));
    PassKeeps(StatusEntry, r1, status, o2, u => Extends(u, t));
    PassKeeps(ConnectionEntry, r2, connection, o3, u => Extends(u, t));
    PassKeeps(FunctionEntry, t, functions, o1, Consistent);
    PassKeeps(StatusEntry, r1, status, o2, Consistent);
    PassKeeps(ConnectionEntry, r2, connection, o3, Consistent);
    Pass(ConnectionEntry, r2, connection, o3)
  }

  // Topics that the entries along `order` register, per pass.

  ghost function RecieveTopicsAlong(cfg: map<string, string>, order: seq<string>): set<string>
    requires Within(order, cfg)
  {
    set n | n in order && ParseRecieveFunction(n).Some? :: cfg[n]
  }

  ghost function StatusTopicsAlong(cfg: map<string, string>, order: seq<string>): set<string>
    requires Within(order, cfg)
  {
    set n | n in order && ParseSendFunction(n).Some? :: cfg[n]
  }

  ghost function PongTopicsAlong(cfg: map<string, string>, order: seq<string>): set<string>
    requires Within(order, cfg)
  {
    set n | n in order && n == "pong" :: cfg[n]
  }

  // The same, for a whole configuration dictionary.

  ghost function RecieveTopics(cfg: map<string, string>): set<string> {
    set n | n in cfg && ParseRecieveFunction(n).Some? :: cfg[n]
  }

  ghost function StatusTopics(cfg: map<string, string>): set<string> {
    set n | n in cfg && ParseSendFunction(n).Some? :: cfg[n]
  }

  ghost function PongTopics(cfg: map<string, string>): set<string> {
    if "pong" in cfg then {cfg["pong"]} else {}
  }

  /** The topics registered along `order` are those along its prefix plus
      what its last entry registers. */
  lemma AlongSnoc(cfg: map<string, string>, order: seq<string>)
    requires Within(order, cfg) && order != []
    ensures Within(order[..|order| - 1], cfg)
    ensures var pre, last := order[..|order| - 1], order[|order| - 1];
      RecieveTopicsAlong(cfg, order) ==
        RecieveTopicsAlong(cfg, pre) + (if ParseRecieveFunction(last).Some? then {cfg[last]} else {})
    ensures var pre, last := order[..|order| - 1], order[|order| - 1];
      StatusTopicsAlong(cfg, order) ==
        StatusTopicsAlong(cfg, pre) + (if ParseSendFunction(last).Some? then {cfg[last]} else {})
    ensures var pre, last := order[..|order| - 1], order[|order| - 1];
      PongTopicsAlong(cfg, order) == PongTopicsAlong(cfg, pre) + (if last == "pong" then {cfg[last]} else {})
  {
    PreWithin(order, cfg);
  }

  /** `setTopics`: receive topics become `.recieve` topics of the function,
      each send function named records its topic, nothing else changes. */
  lemma FunctionsPassEffect(t: RouteTables, cfg: map<string, string>, order: seq<string>)
    requires Within(order, cfg)
    ensures var r := Pass(FunctionEntry, t, cfg, order);
      && r.statusFunctions == t.statusFunctions
      && r.connectionTopics == t.connectionTopics
      && Overlay(r.recieveTopicType, t.recieveTopicType, RecieveTopicsAlong(cfg, order), Recieve)
      && Overlay(r.recieveFunctions, t.recieveFunctions, RecieveTopicsAlong(cfg, order), Temperature)
      && (forall f :: f in r.sendTopics <==> f in t.sendTopics || SendRaw(f) in order)
      && (forall f | f in r.sendTopics ::
            r.sendTopics[f] == if SendRaw(f) in order then cfg[SendRaw(f)] else t.sendTopics[f])
  {
    FunctionsPassKinds(t, cfg, order);
    FunctionsPassSends(t, cfg, order);
  }

  lemma {:induction false} FunctionsPassKinds(t: RouteTables, cfg: map<string, string>, order: seq<string>)
    requires Within(order, cfg)
    ensures var r := Pass(FunctionEntry, t, cfg, order);
      && r.statusFunctions == t.statusFunctions
      && r.connectionTopics == t.connectionTopics
      && Overlay(r.recieveTopicType, t.recieveTopicType, RecieveTopicsAlong(cfg, order), Recieve)
      && Overlay(r.recieveFunctions, t.recieveFunctions, RecieveTopicsAlong(cfg, order), Temperature)
  {
    if order != [] {
      var pre, last := order[..|order| - 1], order[|order| - 1];
      AlongSnoc(cfg, order);
      FunctionsPassKinds(t, cfg, pre);
      var r0 := Pass(FunctionEntry, t, cfg, pre);
      assert Pass(FunctionEntry, t, cfg, order) == FunctionEntry(r0, last, cfg[last]);
      if ParseRecieveFunction(last).Some? {
        var rt := RecieveTopicsAlong(cfg, pre);
        assert ParseRecieveFunction(last).value == Temperature;
        OverlayStep(r0.recieveTopicType, t.recieveTopicType, rt, Recieve, cfg[last]);
        OverlayStep(r0.recieveFunctions, t.recieveFunctions, rt, Temperature, cfg[last]);
      }
    }
  }

  lemma {:induction false} FunctionsPassSends(t: RouteTables, cfg: map<string, string>, order: seq<string>)
    requires Within(order, cfg)
    ensures var r := Pass(FunctionEntry, t, cfg, order);
      && (forall f :: f in r.sendTopics <==> f in t.sendTopics || SendRaw(f) in order)
      && (forall f | f in r.sendTopics ::
            r.sendTopics[f] == if SendRaw(f) in order then cfg[SendRaw(f)] else t.sendTopics[f])
  {
    if order != [] {
      var pre, last := order[..|order| - 1], order[|order| - 1];
      PreWithin(order, cfg);
      FunctionsPassSends(t, cfg, pre);
      var r0 := Pass(FunctionEntry, t, cfg, pre);
      var r := Pass(FunctionEntry, t, cfg, order);
      assert r == FunctionEntry(r0, last, cfg[last]);
      match ParseRecieveFunction(last)
      case Some(g) =>
        assert forall f :: SendRaw(f) != last;
        assert r.sendTopics == r0.sendTopics;
      case None =>
        match ParseSendFunction(last)
        case Some(g) =>
          assert forall f :: SendRaw(f) == last <==> f == g;
          assert r.sendTopics == r0.sendTopics[g := cfg[last]];
        case None =>
          assert forall f :: SendRaw(f) != last;
          assert r.sendTopics == r0.sendTopics;
    }
  }

  /** `setStatusTopics`: status topics become `.status` topics of one of the
      send functions configured for them; nothing else changes. */
  lemma StatusPassEffect(t: RouteTables, cfg: map<string, string>, order: seq<string>)
    requires Within(order, cfg)
    ensures var r := Pass(StatusEntry, t, cfg, order); var s := StatusTopicsAlong(cfg, order);
      && r.recieveFunctions == t.recieveFunctions
      && r.sendTopics == t.sendTopics
      && r.connectionTopics == t.connectionTopics
      && Overlay(r.recieveTopicType, t.recieveTopicType, s, Status)
      && r.statusFunctions.Keys == t.statusFunctions.Keys + s
      && (forall x | x in r.statusFunctions && x !in s :: r.statusFunctions[x] == t.statusFunctions[x])
      && (forall x | x in s ::
            exists n | n in order :: cfg[n] == x && ParseSendFunction(n) == Some(r.statusFunctions[x]))
  {
    StatusPassKinds(t, cfg, order);
    StatusPassFunctions(t, cfg, order);
    StatusPassNames(t, cfg, order);
  }

  lemma {:induction false} StatusPassKinds(t: RouteTables, cfg: map<string, string>, order: seq<string>)
    requires Within(order, cfg)
    ensures var r := Pass(StatusEntry, t, cfg, order);
      && r.recieveFunctions == t.recieveFunctions
      && r.sendTopics == t.sendTopics
      && r.connectionTopics == t.connectionTopics
      && Overlay(r.recieveTopicType, t.recieveTopicType, StatusTopicsAlong(cfg, order), Status)
  {
    if order != [] {
      var pre, last := order[..|order| - 1], order[|order| - 1];
      AlongSnoc(cfg, order);
      StatusPassKinds(t, cfg, pre);
      var r0 := Pass(StatusEntry, t, cfg, pre);
      assert Pass(StatusEntry, t, cfg, order) == StatusEntry(r0, last, cfg[last]);
      if ParseSendFunction(last).Some? {
        OverlayStep(r0.recieveTopicType, t.recieveTopicType, StatusTopicsAlong(cfg, pre), Status, cfg[last]);
      }
    }
  }

  lemma {:induction false} StatusPassFunctions(t: RouteTables, cfg: map<string, string>, order: seq<string>)
    requires Within(order, cfg)
    ensures Updates(Pass(StatusEntry, t, cfg, order).statusFunctions, t.statusFunctions, StatusTopicsAlong(cfg, order))
  {
    if order != [] {
      var pre, last := order[..|order| - 1], order[|order| - 1];
      AlongSnoc(cfg, order);
      StatusPassFunctions(t, cfg, pre);
      var r0 := Pass(StatusEntry, t, cfg, pre);
      assert Pass(StatusEntry, t, cfg, order) == StatusEntry(r0, last, cfg[last]);
      if ParseSendFunction(last).Some? {
        UpdatesStep(r0.statusFunctions, t.statusFunctions, StatusTopicsAlong(cfg, pre), cfg[last],
                    ParseSendFunction(last).value);
      }
    }
  }

  lemma {:induction false} StatusPassNames(t: RouteTables, cfg: map<string, string>, order: seq<string>)
    requires Within(order, cfg)
    ensures var r := Pass(StatusEntry, t, cfg, order);
      forall x | x in StatusTopicsAlong(cfg, order) ::
        x in r.statusFunctions && exists n | n in order :: cfg[n] == x && ParseSendFunction(n) == Some(r.statusFunctions[x])
  {
    if order != [] {
      var pre, last := order[..|order| - 1], order[|order| - 1];
      AlongSnoc(cfg, order);
      PreWithin(order, cfg);
      StatusPassNames(t, cfg, pre);
      var r0 := Pass(StatusEntry, t, cfg, pre);
      var r := Pass(StatusEntry, t, cfg, order);
      assert r == StatusEntry(r0, last, cfg[last]);
      forall x | x in StatusTopicsAlong(cfg, order)
        ensures x in r.statusFunctions
        ensures exists n | n in order :: cfg[n] == x && ParseSendFunction(n) == Some(r.statusFunctions[x])
      {
        if ParseSendFunction(last).Some? && x == cfg[last] {
          assert cfg[last] == x && ParseSendFunction(last) == Some(r.statusFunctions[x]);
        } else {
          var n :| n in pre && cfg[n] == x && ParseSendFunction(n) == Some(r0.statusFunctions[x]);
          assert n in order;
        }
      }
    }
  }

  /** `setConnectionTopics`: each known kind records its topic; only the pong
      topic becomes a `.connection` topic; nothing else changes. */
  lemma ConnectionPassEffect(t: RouteTables, cfg: map<string, string>, order: seq<string>)
    requires Within(order, cfg)
    ensures var r := Pass(ConnectionEntry, t, cfg, order);
      && r.recieveFunctions == t.recieveFunctions
      && r.statusFunctions == t.statusFunctions
      && r.sendTopics == t.sendTopics
      && Overlay(r.recieveTopicType, t.recieveTopicType, PongTopicsAlong(cfg, order), Connection)
      && (forall k :: k in r.connectionTopics <==> k in t.connectionTopics || ConnectionRaw(k) in order)
      && (forall k | k in r.connectionTopics ::
            r.connectionTopics[k] == if ConnectionRaw(k) in order then cfg[ConnectionRaw(k)] else t.connectionTopics[k])
  {
    ConnectionPassKinds(t, cfg, order);
    ConnectionPassTopics(t, cfg, order);
  }

  lemma {:induction false} ConnectionPassKinds(t: RouteTables, cfg: map<string, string>, order: seq<string>)
    requires Within(order, cfg)
    ensures var r := Pass(ConnectionEntry, t, cfg, order);
      && r.recieveFunctions == t.recieveFunctions
      && r.statusFunctions == t.statusFunctions
      && r.sendTopics == t.sendTopics
      && Overlay(r.recieveTopicType, t.recieveTopicType, PongTopicsAlong(cfg, order), Connection)
  {
    if order != [] {
      var pre, last := order[..|order| - 1], order[|order| - 1];
      AlongSnoc(cfg, order);
      ConnectionPassKinds(t, cfg, pre);
      var r0 := Pass(ConnectionEntry, t, cfg, pre);
      assert Pass(ConnectionEntry, t, cfg, order) == ConnectionEntry(r0, last, cfg[last]);
      if last == "pong" {
        assert ParseConnectionTopicType(last) == Some(Pong);
        OverlayStep(r0.recieveTopicType, t.recieveTopicType, PongTopicsAlong(cfg, pre), Connection, cfg[last]);
      }
    }
  }

  lemma {:induction false} ConnectionPassTopics(t: RouteTables, cfg: map<string, string>, order: seq<string>)
    requires Within(order, cfg)
    ensures var r := Pass(ConnectionEntry, t, cfg, order);
      && (forall k :: k in r.connectionTopics <==> k in t.connectionTopics || ConnectionRaw(k) in order)
      && (forall k | k in r.connectionTopics ::
            r.connectionTopics[k] == if ConnectionRaw(k) in order then cfg[ConnectionRaw(k)] else t.connectionTopics[k])
  {
    if order != [] {
      var pre, last := order[..|order| - 1], order[|order| - 1];
      PreWithin(order, cfg);
      ConnectionPassTopics(t, cfg, pre);
      var r0 := Pass(ConnectionEntry, t, cfg, pre);
      var r := Pass(ConnectionEntry, t, cfg, order);
      assert r == ConnectionEntry(r0, last, cfg[last]);
      match ParseConnectionTopicType(last)
      case Some(k) =>
        assert forall j :: ConnectionRaw(j) == last <==> j == k;
        assert r.connectionTopics == r0.connectionTopics[k := cfg[last]];
      case None =>
        assert forall j :: ConnectionRaw(j) != last;
        assert r.connectionTopics == r0.connectionTopics;
    }
  }

  /** Along an enumeration of the whole dictionary, the topics registered are
      those of the dictionary. */
  lemma EnumeratedTopics(cfg: map<string, string>, order: seq<string>)
    requires Enumerates(order, cfg.Keys)
    ensures Within(order, cfg)
    ensures RecieveTopicsAlong(cfg, order) == RecieveTopics(cfg)
    ensures StatusTopicsAlong(cfg, order) == StatusTopics(cfg)
    ensures PongTopicsAlong(cfg, order) == PongTopics(cfg)
    ensures forall n :: n in order <==> n in cfg
  {
  }

  /** The tables `r` that configuring `t` with the three dictionaries yields,
      in closed form. Configuration only adds or overwrites entries. The
      passes run functions, then status, then connection, so a topic's kind
      is decided by the last pass that names it: pong beats status beats
      receive. */
  ghost predicate ConfiguredFrom(r: RouteTables, t: RouteTables, functions: map<string, string>,
                                 status: map<string, string>, connection: map<string, string>) {
    && KindsConfigured(r, t, functions, status, connection)
    && StatusConfigured(r, t, status)
    && SendConfigured(r, t, functions)
    && ConnectionConfigured(r, t, connection)
  }

  /** Topic kinds and receive functions. */
  ghost predicate KindsConfigured(r: RouteTables, t: RouteTables, functions: map<string, string>,
                                  status: map<string, string>, connection: map<string, string>) {
    var rt, st, pt := RecieveTopics(functions), StatusTopics(status), PongTopics(connection);
    && r.recieveTopicType.Keys == t.recieveTopicType.Keys + rt + st + pt
    && (forall x | x in r.recieveTopicType ::
          r.recieveTopicType[x] ==
            if x in pt then Connection
            else if x in st then Status
            else if x in rt then Recieve
            else t.recieveTopicType[x])
    && Overlay(r.recieveFunctions, t.recieveFunctions, rt, Temperature)
  }

  /** Status topics map to a send function configured for them. */
  ghost predicate StatusConfigured(r: RouteTables, t: RouteTables, status: map<string, string>) {
    var st := StatusTopics(status);
    && r.statusFunctions.Keys == t.statusFunctions.Keys + st
    && (forall x | x in r.statusFunctions && x !in st :: r.statusFunctions[x] == t.statusFunctions[x])
    && (forall x | x in st ::
          exists n | n in status :: status[n] == x && ParseSendFunction(n) == Some(r.statusFunctions[x]))
  }

  /** Each send function named records its topic. */
  ghost predicate SendConfigured(r: RouteTables, t: RouteTables, functions: map<string, string>) {
    && (forall f :: f in r.sendTopics <==> f in t.sendTopics || SendRaw(f) in functions)
    && (forall f | f in r.sendTopics ::
          r.sendTopics[f] == if SendRaw(f) in functions then functions[SendRaw(f)] else t.sendTopics[f])
  }

  /** Each connection kind named records its topic. */
  ghost predicate ConnectionConfigured(r: RouteTables, t: RouteTables, connection: map<string, string>) {
    && (forall k :: k in r.connectionTopics <==> k in t.connectionTopics || ConnectionRaw(k) in connection)
    && (forall k | k in r.connectionTopics ::
          r.connectionTopics[k] ==
            if ConnectionRaw(k) in connection then connection[ConnectionRaw(k)] else t.connectionTopics[k])
  }

  /** Configuration in any iteration order yields the closed form. */
  lemma ConfigureEffect(t: RouteTables, functions: map<string, string>, status: map<string, string>,
                        connection: map<string, string>, o1: seq<string>, o2: seq<string>, o3: seq<string>)
    requires Enumerates(o1, functions.Keys) && Enumerates(o2, status.Keys) && Enumerates(o3, connection.Keys)
    ensures Within(o1, functions) && Within(o2, status) && Within(o3, connection)
    ensures ConfiguredFrom(Configure(t, functions, status, connection, o1, o2, o3), t, functions, status, connection)
  {
    EnumeratedTopics(functions, o1);
    EnumeratedTopics(status, o2);
    EnumeratedTopics(connection, o3);
    var r1 := Pass(FunctionEntry, t, functions, o1);
    var r2 := Pass(StatusEntry, r1, status, o2);
    FunctionsPassEffect(t, functions, o1);
    StatusPassEffect(r1, status, o2);
    ConnectionPassEffect(r2, connection, o3);
  }

  /** After configuration the pong topic is the one configured last: the
      connection dictionary's, else the one already stored. */
  lemma ConfiguredPong(t: RouteTables, functions: map<string, string>, status: map<string, string>,
                       connection: map<string, string>, o1: seq<string>, o2: seq<string>, o3: seq<string>)
    requires Enumerates(o1, functions.Keys) && Enumerates(o2, status.Keys) && Enumerates(o3, connection.Keys)
    requires "pong" in connection || Pong in t.connectionTopics
    ensures Within(o1, functions) && Within(o2, status) && Within(o3, connection)
    ensures var r := Configure(t, functions, status, connection, o1, o2, o3);
      && Pong in r.connectionTopics
      && r.connectionTopics[Pong] == if "pong" in connection then connection["pong"] else t.connectionTopics[Pong]
  {
    ConfigureEffect(t, functions, status, connection, o1, o2, o3);
    assert ConnectionRaw(Pong) == "pong";
  }

  /** A configuration that names no known function or kind changes no table. */
  lemma {:induction false} UnknownNamesAreSkipped(t: RouteTables, cfg: map<string, string>, order: seq<string>)
    requires Within(order, cfg)
    ensures (forall n | n in order :: ParseRecieveFunction(n).None? && ParseSendFunction(n).None?) ==>
              Pass(FunctionEntry, t, cfg, order) == t
    ensures (forall n | n in order :: ParseSendFunction(n).None?) ==> Pass(StatusEntry, t, cfg, order) == t
    ensures (forall n | n in order :: ParseConnectionTopicType(n).None?) ==> Pass(ConnectionEntry, t, cfg, order) == t
  {
    if order != [] {
      PreWithin(order, cfg);
      UnknownNamesAreSkipped(t, cfg, order[..|order| - 1]);
    }
  }

  /** What `update(for:message:)` does with an inbound message. */
  datatype Routing =
    | Telemetry(source: RecieveFunction, message: string)
    | StatusUpdate(target: SendFunction, message: string)
    | Handshake
    | Dropped

  /** Classification and dispatch of an inbound message: receive and status
      topics go to the output with the message unchanged, the literal "pong"
      on the pong topic starts the liveness-complete sequence, and everything
      else (unregistered topics, other payloads on the pong topic) is dropped. */
  function Route(t: RouteTables, topic: string, message: string): (r: Routing)
    requires Consistent(t)
    ensures r.Telemetry? <==> topic in t.recieveTopicType && t.recieveTopicType[topic] == Recieve
    ensures r.StatusUpdate? <==> topic in t.recieveTopicType && t.recieveTopicType[topic] == Status
    ensures r.Handshake? <==> topic in t.recieveTopicType && t.recieveTopicType[topic] == Connection && message == "pong"
    ensures r.Telemetry? ==> r == Telemetry(t.recieveFunctions[topic], message)
    ensures r.StatusUpdate? ==> r == StatusUpdate(t.statusFunctions[topic], message)
  {
    if topic !in t.recieveTopicType then Dropped
    else
      match t.recieveTopicType[topic]
      case Recieve => Telemetry(t.recieveFunctions[topic], message)
      case Status => StatusUpdate(t.statusFunctions[topic], message)
      case Connection => if message == "pong" then Handshake else Dropped
  }

  /** After configuration, dispatch follows the role the last pass gave the
      topic: the pong topic answers only the literal "pong", a status topic
      reports to one of the send functions configured for it, a receive topic
      reports temperature, and a topic no pass named (and no earlier table
      held) is dropped. The message is never altered. */
  lemma ConfiguredRouting(t: RouteTables, functions: map<string, string>, status: map<string, string>,
                          connection: map<string, string>, o1: seq<string>, o2: seq<string>, o3: seq<string>,
                          topic: string, message: string)
    requires Consistent(t)
    requires Enumerates(o1, functions.Keys) && Enumerates(o2, status.Keys) && Enumerates(o3, connection.Keys)
    ensures Within(o1, functions) && Within(o2, status) && Within(o3, connection)
    ensures Consistent(Configure(t, functions, status, connection, o1, o2, o3))
    ensures var r := Route(Configure(t, functions, status, connection, o1, o2, o3), topic, message);
      && (topic in PongTopics(connection) ==> r == if message == "pong" then Handshake else Dropped)
      && (topic !in PongTopics(connection) && topic in StatusTopics(status) ==>
            r.StatusUpdate? && r.message == message &&
            exists n | n in status :: status[n] == topic && ParseSendFunction(n) == Some(r.target))
      && (topic !in PongTopics(connection) && topic !in StatusTopics(status) && topic in RecieveTopics(functions) ==>
            r == Telemetry(Temperature, message))
      && ((topic !in PongTopics(connection) && topic !in StatusTopics(status) && topic !in RecieveTopics(functions)
           && topic !in t.recieveTopicType) ==> r == Dropped)
  {
    ConfigureEffect(t, functions, status, connection, o1, o2, o3);
  }

  /** Both ping and pong are stored, but only the pong topic is classified:
      inbound messages on a ping topic that no other entry names are dropped. */
  lemma PingTopicIsDropped(functions: map<string, string>, status: map<string, string>,
                           connection: map<string, string>, o1: seq<string>, o2: seq<string>, o3: seq<string>,
                           message: string)
    requires Enumerates(o1, functions.Keys) && Enumerates(o2, status.Keys) && Enumerates(o3, connection.Keys)
    requires "ping" in connection
    requires connection["ping"] !in PongTopics(connection) + StatusTopics(status) + RecieveTopics(functions)
    ensures Within(o1, functions) && Within(o2, status) && Within(o3, connection)
    ensures var r := Configure(NoTables, functions, status, connection, o1, o2, o3);
      && Consistent(r)
      && Ping in r.connectionTopics && r.connectionTopics[Ping] == connection["ping"]
      && Route(r, connection["ping"], message) == Dropped
  {
    ConfiguredRouting(NoTables, functions, status, connection, o1, o2, o3, connection["ping"], message);
    ConfigureEffect(NoTables, functions, status, connection, o1, o2, o3);
    assert ConnectionRaw(Ping) in connection;
  }

  /** The liveness-complete sequence on "pong": "ready" on the ping topic, then
      unsubscribe from the pong topic, then subscribe to every receive topic
      and every status topic. */
  function HandshakeCommands(t: RouteTables, recieveOrder: seq<string>, statusOrder: seq<string>): (cs: seq<Command>)
    requires Ping in t.connectionTopics && Pong in t.connectionTopics
    ensures |cs| == 2 + |recieveOrder| + |statusOrder|
    ensures forall c | c in cs && c.Publish? :: c == Publish(t.connectionTopics[Ping], "ready", QoS1)
    ensures forall c | c in cs && c.Unsubscribe? :: c.topic == t.connectionTopics[Pong]
    ensures forall i | 0 <= i < |recieveOrder| :: cs[2 + i] == Subscribe(recieveOrder[i], QoS1)
    ensures forall i | 0 <= i < |statusOrder| :: cs[2 + |recieveOrder| + i] == Subscribe(statusOrder[i], QoS1)
  {
    [Publish(t.connectionTopics[Ping], "ready", QoS1), Unsubscribe(t.connectionTopics[Pong])]
    + SubscribeEach(recieveOrder) + SubscribeEach(statusOrder)
  }

  /** The handshake publishes nothing but "ready", stops listening for pong
      first, and then subscribes once to each receive topic and once to each
      status topic (twice to a topic in both tables). */
  lemma HandshakeSubscribesEachTopicOnce(t: RouteTables, recieveOrder: seq<string>, statusOrder: seq<string>)
    requires Ping in t.connectionTopics && Pong in t.connectionTopics
    requires Enumerates(recieveOrder, t.recieveFunctions.Keys) && Enumerates(statusOrder, t.statusFunctions.Keys)
    ensures var cs := HandshakeCommands(t, recieveOrder, statusOrder);
      && |cs| == 2 + |t.recieveFunctions| + |t.statusFunctions|
      && cs[0] == Publish(t.connectionTopics[Ping], "ready", QoS1)
      && cs[1] == Unsubscribe(t.connectionTopics[Pong])
      && (forall c | c in cs[2..] :: c.Subscribe? && c.qos == QoS1)
      && (forall x :: multiset(cs[2..])[Subscribe(x, QoS1)] ==
            (if x in t.recieveFunctions then 1 else 0) + (if x in t.statusFunctions then 1 else 0))
  {
    var cs := HandshakeCommands(t, recieveOrder, statusOrder);
    assert cs[2..] == SubscribeEach(recieveOrder) + SubscribeEach(statusOrder);
    SubscribeEachPair(recieveOrder, t.recieveFunctions.Keys, statusOrder, t.statusFunctions.Keys);
  }

  /** `didSubscribedTo(topic:)`: a "get" to the send topic of the status
      topic's function, or nothing for any other topic. */
  function StatusPoll(t: RouteTables, topic: string): (cs: seq<Command>)
    requires topic in t.statusFunctions ==> t.statusFunctions[topic] in t.sendTopics
    ensures topic in t.statusFunctions ==> cs == [Publish(t.sendTopics[t.statusFunctions[topic]], "get", QoS1)]
    ensures topic !in t.statusFunctions ==> cs == []
  {
    if topic in t.statusFunctions then [Publish(t.sendTopics[t.statusFunctions[topic]], "get", QoS1)] else []
  }

  /** After configuration, an acknowledged subscription to a status topic
      polls with "get" on the send topic configured under the same function
      name; every other acknowledged subscription publishes nothing. */
  lemma ConfiguredStatusPoll(functions: map<string, string>, status: map<string, string>,
                             connection: map<string, string>, o1: seq<string>, o2: seq<string>, o3: seq<string>,
                             topic: string)
    requires Enumerates(o1, functions.Keys) && Enumerates(o2, status.Keys) && Enumerates(o3, connection.Keys)
    requires forall n | n in status && ParseSendFunction(n).Some? :: n in functions
    ensures Within(o1, functions) && Within(o2, status) && Within(o3, connection)
    ensures var r := Configure(NoTables, functions, status, connection, o1, o2, o3);
      && (topic in r.statusFunctions ==> r.statusFunctions[topic] in r.sendTopics)
      && (topic !in StatusTopics(status) ==> StatusPoll(r, topic) == [])
      && (topic in StatusTopics(status) ==>
            exists n | n in status && status[n] == topic && ParseSendFunction(n).Some? ::
              StatusPoll(r, topic) == [Publish(functions[n], "get", QoS1)])
  {
    ConfigureEffect(NoTables, functions, status, connection, o1, o2, o3);
    var r := Configure(NoTables, functions, status, connection, o1, o2, o3);
    if topic in StatusTopics(status) {
      var n :| n in status && status[n] == topic && ParseSendFunction(n) == Some(r.statusFunctions[topic]);
      assert SendRaw(r.statusFunctions[topic]) == n;
      assert StatusPoll(r, topic) == [Publish(functions[n], "get", QoS1)];
    }
  }

  /** Polling `topic` does not trap: a status topic's function has a send topic. */
  ghost predicate PollableTopic(t: RouteTables, topic: string) {
    topic in t.statusFunctions ==> t.statusFunctions[topic] in t.sendTopics
  }

  /** Polling along `topics` does not trap while `n` observers are registered
      (with none, nothing is polled at all). */
  ghost predicate PollableAlong(t: RouteTables, topics: seq<string>, n: nat) {
    n > 0 ==> forall x | x in topics :: PollableTopic(t, x)
  }

  /** `cs` once per registered observer. */
  function Repeat(cs: seq<Command>, n: nat): (r: seq<Command>)
    ensures |r| == n * |cs|
  {
    if n == 0 then [] else Repeat(cs, n - 1) + cs
  }

  /** Repeating issues the same commands as once, unless nobody listens. */
  lemma {:induction false} RepeatMembers(cs: seq<Command>, n: nat)
    ensures forall c :: c in Repeat(cs, n) <==> n > 0 && c in cs
  {
    if n > 0 {
      RepeatMembers(cs, n - 1);
    }
  }

  /** What one acknowledgement of `topic` triggers with `n` observers
      registered: each delivery runs `didSubscribedTo`. */
  function Deliveries(t: RouteTables, topic: string, n: nat): (cs: seq<Command>)
    requires n > 0 ==> PollableTopic(t, topic)
    ensures |cs| == if n > 0 && topic in t.statusFunctions then n else 0
    ensures forall c | c in cs :: n > 0 && topic in t.statusFunctions &&
                                c == Publish(t.sendTopics[t.statusFunctions[topic]], "get", QoS1)
  {
    if n == 0 then [] else RepeatMembers(StatusPoll(t, topic), n); Repeat(StatusPoll(t, topic), n)
  }

  /** The polls that acknowledgements of `topics`, in that order, trigger
      when `n` observers are registered: each notification reaches every
      observer. */
  function Polls(t: RouteTables, topics: seq<string>, n: nat): (cs: seq<Command>)
    requires PollableAlong(t, topics, n)
    ensures |cs| <= n * |topics|
    ensures forall c | c in cs :: n > 0 && c.Publish? && c.message == "get" && c.qos == QoS1
    decreases |topics|
  {
    if topics == [] then []
    else
      PollablePrefix(t, topics, n);
      var pre, last := topics[..|topics| - 1], topics[|topics| - 1];
      assert n * |pre| + n == n * |topics| by {
        assert |topics| == |pre| + 1;
      }
      Polls(t, pre, n) + Deliveries(t, last, n)
  }

  lemma PollablePrefix(t: RouteTables, topics: seq<string>, n: nat)
    requires PollableAlong(t, topics, n) && topics != []
    ensures PollableAlong(t, topics[..|topics| - 1], n)
    ensures n > 0 ==> PollableTopic(t, topics[|topics| - 1])
  {
    if n > 0 {
      forall x | x in topics[..|topics| - 1] ensures PollableTopic(t, x) {
        assert x in topics;
      }
    }
  }

  lemma PollableSnoc(t: RouteTables, topics: seq<string>, x: string, n: nat)
    requires PollableAlong(t, topics, n) && (n > 0 ==> PollableTopic(t, x))
    ensures PollableAlong(t, topics + [x], n)
  {
  }

  lemma PollsSnoc(t: RouteTables, topics: seq<string>, x: string, n: nat)
    requires PollableAlong(t, topics + [x], n)
    ensures PollableAlong(t, topics, n) && (n > 0 ==> PollableTopic(t, x))
    ensures Polls(t, topics + [x], n) == Polls(t, topics, n) + Deliveries(t, x, n)
  {
    assert (topics + [x])[..|topics|] == topics;
    PollablePrefix(t, topics + [x], n);
  }

  /** Delivering the notice of one more topic extends the polls issued so far. */
  lemma PollStep(t: RouteTables, order: seq<string>, i: nat, n: nat, v0: Link, i0: seq<Command>,
                 v1: Link, i1: seq<Command>, v2: Link, i2: seq<Command>)
    requires i < |order| && PollableAlong(t, order[..i], n) && (n > 0 ==> PollableTopic(t, order[i]))
    requires v1 == IssueAll(v0, Polls(t, order[..i], n)) && i1 == i0 + Polls(t, order[..i], n)
    requires v2 == IssueAll(v1, Deliveries(t, order[i], n)) && i2 == i1 + Deliveries(t, order[i], n)
    ensures PollableAlong(t, order[..i + 1], n)
    ensures v2 == IssueAll(v0, Polls(t, order[..i + 1], n)) && i2 == i0 + Polls(t, order[..i + 1], n)
  {
    assert order[..i + 1] == order[..i] + [order[i]];
    PollableSnoc(t, order[..i], order[i], n);
    PollsSnoc(t, order[..i], order[i], n);
    ChainEmits(v0, i0, Polls(t, order[..i], n), v1, i1, Deliveries(t, order[i], n), v2, i2);
  }

  /** Acknowledgements poll only with "get", only on the send topics of
      acknowledged status topics, and each such topic is polled, as long as
      some observer is registered; with none registered they poll nothing. */
  lemma {:induction false} PollsAcknowledged(t: RouteTables, topics: seq<string>, n: nat, c: Command)
    requires PollableAlong(t, topics, n)
    ensures c in Polls(t, topics, n) <==>
      n > 0 && exists x | x in topics && x in t.statusFunctions ::
        c == Publish(t.sendTopics[t.statusFunctions[x]], "get", QoS1)
  {
    if topics != [] {
      var pre, last := topics[..|topics| - 1], topics[|topics| - 1];
      assert topics == pre + [last];
      PollablePrefix(t, topics, n);
      PollsAcknowledged(t, pre, n, c);
      if n > 0 && exists x | x in topics && x in t.statusFunctions ::
                    c == Publish(t.sendTopics[t.statusFunctions[x]], "get", QoS1) {
        var x :| x in topics && x in t.statusFunctions && c == Publish(t.sendTopics[t.statusFunctions[x]], "get", QoS1);
        if x != last {
          assert x in pre;
        } else {
          RepeatMembers(StatusPoll(t, last), n);
          assert c in Deliveries(t, last, n);
        }
      }
    }
  }
}
