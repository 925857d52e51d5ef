/** Presenter from Presenter.swift: it fills the routing tables from the
    configuration dictionaries, starts the model, dispatches inbound messages
    by topic kind and runs the handshake when the device answers "pong". The
    calls it makes on its output (`update(for:message:)`,
    `updateState(for:message:)`) are the `Routing` that `Update` returns. */
module Router {
  import opened Basics
  import opened Topics
  import opened Transport
  import opened Liveness
  import opened RouterTables

  class Presenter {
    const model: Model
    var recieveFunctions: map<string, RecieveFunction>
    var statusFunctions: map<string, SendFunction>
    var sendTopics: map<SendFunction, string>
    var connectionTopics: map<ConnectionTopicType, string>
    var recieveTopicType: map<string, RecieveTopicType>

    /** The five tables as one value. */
    function Tables(): RouteTables
      reads this
    {
      RouteTables(recieveFunctions, statusFunctions, sendTopics, connectionTopics, recieveTopicType)
    }

    /** The dispatch lookups succeed and the command layer keeps its books. */
    ghost predicate Valid()
      reads this, model, model.manager
    {
      Consistent(Tables()) && model.Valid()
    }

    constructor ()
      ensures Valid() && fresh(model) && fresh(model.manager)
      ensures Tables() == NoTables
      ensures model.manager.View() == Link(Disconnected, 0, false, [], []) && model.manager.issued == []
      ensures !model.pinging && model.observers == 0
    {
      model := new Model();
      recieveFunctions := map[];
      statusFunctions := map[];
      sendTopics := map[];
      connectionTopics := map[];
      recieveTopicType := map[];
    }

    /** `setTopics(from:)`: one `FunctionEntry` per configuration entry, in
        the dictionary's iteration order. */
    method SetTopics(functions: map<string, string>) returns (ghost order: seq<string>)
      modifies this
      ensures Enumerates(order, functions.Keys) && Within(order, functions)
      ensures Tables() == Pass(FunctionEntry, old(Tables()), functions, order)
    {
      var remaining := functions.Keys;
      order := [];
      while remaining != {}
        invariant remaining <= functions.Keys
        invariant Enumerates(order, functions.Keys - remaining) && Within(order, functions)
        invariant Tables() == Pass(FunctionEntry, old(Tables()), functions, order)
        decreases remaining
      {
        var name :| name in remaining;
        var topic := functions[name];
        match ParseRecieveFunction(name) {
          case Some(f) =>
            recieveTopicType := recieveTopicType[topic := Recieve];
            recieveFunctions := recieveFunctions[topic := f];
          case None =>
            match ParseSendFunction(name) {
              case Some(f) => sendTopics := sendTopics[f := topic];
              case None =>
            }
        }
        EnumeratesStep(order, functions.Keys, remaining, name);
        PassSnoc(FunctionEntry, old(Tables()), functions, order, name);
        order := order + [name];
        remaining := remaining - {name};
      }
    }

    /** `setStatusTopics(from:)`: one `StatusEntry` per entry. */
    method SetStatusTopics(statusTopics: map<string, string>) returns (ghost order: seq<string>)
      modifies this
      ensures Enumerates(order, statusTopics.Keys) && Within(order, statusTopics)
      ensures Tables() == Pass(StatusEntry, old(Tables()), statusTopics, order)
    {
      var remaining := statusTopics.Keys;
      order := [];
      while remaining != {}
        invariant remaining <= statusTopics.Keys
        invariant Enumerates(order, statusTopics.Keys - remaining) && Within(order, statusTopics)
        invariant Tables() == Pass(StatusEntry, old(Tables()), statusTopics, order)
        decreases remaining
      {
        var name :| name in remaining;
        var statusTopic := statusTopics[name];
        match ParseSendFunction(name) {
          case Some(f) =>
            recieveTopicType := recieveTopicType[statusTopic := Status];
            statusFunctions := statusFunctions[statusTopic := f];
          case None =>
        }
        EnumeratesStep(order, statusTopics.Keys, remaining, name);
        PassSnoc(StatusEntry, old(Tables()), statusTopics, order, name);
        order := order + [name];
        remaining := remaining - {name};
      }
    }

    /** `setConnectionTopics(from:)`: one `ConnectionEntry` per entry. */
    method SetConnectionTopics(topics: map<string, string>) returns (ghost order: seq<string>)
      modifies this
      ensures Enumerates(order, topics.Keys) && Within(order, topics)
      ensures Tables() == Pass(ConnectionEntry, old(Tables()), topics, order)
    {
      var remaining := topics.Keys;
      order := [];
      while remaining != {}
        invariant remaining <= topics.Keys
        invariant Enumerates(order, topics.Keys - remaining) && Within(order, topics)
        invariant Tables() == Pass(ConnectionEntry, old(Tables()), topics, order)
        decreases remaining
      {
        var name :| name in remaining;
        var connectionTopic := topics[name];
        match ParseConnectionTopicType(name) {
          case Some(k) =>
            connectionTopics := connectionTopics[k := connectionTopic];
            if k == Pong {
              recieveTopicType := recieveTopicType[connectionTopic := Connection];
            }
          case None =>
        }
        EnumeratesStep(order, topics.Keys, remaining, name);
        PassSnoc(ConnectionEntry, old(Tables()), topics, order, name);
        order := order + [name];
        remaining := remaining - {name};
      }
    }

    /** `didLoadView(with:statusTopics:connectionTopics:)`: start the
        connection (`accepted` is what the transport's `connect()` answered),
        fill the tables in three passes, then subscribe to the pong topic and
        start pinging. The force-unwrap of the pong topic is the precondition. */
    method DidLoadView(functions: map<string, string>, statusTopics: map<string, string>,
                       topics: map<string, string>, accepted: bool)
      returns (ghost o1: seq<string>, ghost o2: seq<string>, ghost o3: seq<string>)
      requires Valid()
      requires "pong" in topics || Pong in connectionTopics
      modifies this, model, model.manager
      ensures Valid()
      ensures Enumerates(o1, functions.Keys) && Enumerates(o2, statusTopics.Keys) && Enumerates(o3, topics.Keys)
      ensures Within(o1, functions) && Within(o2, statusTopics) && Within(o3, topics)
      ensures Tables() == Configure(old(Tables()), functions, statusTopics, topics, o1, o2, o3)
      ensures Pong in connectionTopics
      ensures connectionTopics[Pong] == if "pong" in topics then topics["pong"] else old(connectionTopics[Pong])
      ensures model.manager.Emitted(Started(old(model.manager.View()), accepted), old(model.manager.issued),
                                    [Command.Subscribe(connectionTopics[Pong], QoS1)])
      ensures model.pinging && model.timerTopics == connectionTopics
      ensures model.observers == old(model.observers) && model.messages == old(model.messages)
    {
      model.Start(accepted);
      ghost var t0 := Tables();
      o1 := SetTopics(functions);
      o2 := SetStatusTopics(statusTopics);
      o3 := SetConnectionTopics(topics);
      ConfiguredPong(t0, functions, statusTopics, topics, o1, o2, o3);
      model.StartPing(connectionTopics);
    }

    /** `sendMessage(from:message:)`: publish on the function's send topic
        (unregistered functions trap in the source: the precondition). */
    method SendMessage(sender: SendFunction, message: string)
      requires Valid()
      requires sender in sendTopics
      modifies model.manager
      ensures Valid()
      ensures model.manager.Emitted(old(model.manager.View()), old(model.manager.issued),
                                    [Publish(sendTopics[sender], message, QoS1)])
    {
      model.Send(message, sendTopics[sender]);
    }

    /** `update(for:message:)`: classify by topic kind. Receive and status
        topics are forwarded to the output; "pong" on the pong topic stops the
        timer, says "ready", stops listening for pong and subscribes to every
        receive and status topic; anything else is ignored. The tables never
        change here. */
    method Update(topic: string, message: string)
      returns (routing: Routing, ghost recieveOrder: seq<string>, ghost statusOrder: seq<string>)
      requires Valid()
      requires Route(Tables(), topic, message).Handshake? ==> Ping in connectionTopics
      modifies model, model.manager
      ensures Valid()
      ensures routing == Route(Tables(), topic, message)
      ensures model.messages == old(model.messages) && model.timerTopics == old(model.timerTopics)
      ensures routing.Handshake? ==>
        && Enumerates(recieveOrder, recieveFunctions.Keys) && Enumerates(statusOrder, statusFunctions.Keys)
        && Pong in connectionTopics && Ping in connectionTopics
        && model.manager.Emitted(old(model.manager.View()), old(model.manager.issued),
                                 HandshakeCommands(Tables(), recieveOrder, statusOrder))
        && !model.pinging && model.observers == old(model.observers) + 1
      ensures !routing.Handshake? ==>
        && model.manager.View() == old(model.manager.View()) && model.manager.issued == old(model.manager.issued)
        && model.pinging == old(model.pinging) && model.observers == old(model.observers)
    {
      routing := Route(Tables(), topic, message);
      recieveOrder, statusOrder := [], [];
      if routing.Handshake? {
        ghost var v0, i0 := model.manager.View(), model.manager.issued;
        model.StopPing(connectionTopics);
        ghost var v1, i1 := model.manager.View(), model.manager.issued;
        recieveOrder := model.StartRecieving(recieveFunctions);
        ghost var v2, i2 := model.manager.View(), model.manager.issued;
        statusOrder := model.GetStatus(statusFunctions, sendTopics);
        ghost var a := [Publish(connectionTopics[Ping], "ready", QoS1), Command.Unsubscribe(connectionTopics[Pong])];
        ChainEmits(v0, i0, a, v1, i1, SubscribeEach(recieveOrder), v2, i2);
        ChainEmits(v0, i0, a + SubscribeEach(recieveOrder), v2, i2, SubscribeEach(statusOrder),
                   model.manager.View(), model.manager.issued);
      }
    }

    /** `didSubscribedTo(topic:)`: an acknowledged status topic is polled
        with "get" on its function's send topic; other topics are ignored. */
    method DidSubscribedTo(topic: string)
      requires Valid()
      requires topic in statusFunctions ==> statusFunctions[topic] in sendTopics
      modifies model.manager
      ensures Valid()
      ensures model.manager.Emitted(old(model.manager.View()), old(model.manager.issued),
                                    StatusPoll(Tables(), topic))
    {
      if topic in statusFunctions {
        model.Send("get", sendTopics[statusFunctions[topic]]);
      } else {
        assert IssueAll(model.manager.View(), []) == model.manager.View();
        assert model.manager.issued + [] == model.manager.issued;
      }
    }
  }
}
