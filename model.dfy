/** Model from Model.swift: the liveness and command layer between the
    router and the manager. It runs the ping timer (a repeating timer is a
    `pinging` flag and the topic table its closure captured; each firing is a
    `Tick`), subscribes to the topics the router hands it, and keeps the last
    message per topic. */
module Liveness {
  import opened Basics
  import opened Topics
  import opened Transport

  class Model {
    const manager: MqttManager
    /** Last message received per topic. */
    var messages: map<string, string>
    /** `pingTimer` holds a timer that has not been invalidated. */
    var pinging: bool
    /** The connection-topic table the timer's closure captured. */
    var timerTopics: map<ConnectionTopicType, string>
    /** How many times `getStatus` registered `didSubscribed` as an observer. */
    var observers: nat

    ghost predicate Valid()
      reads this, manager
    {
      manager.Valid()
    }

    constructor ()
      ensures Valid() && fresh(manager)
      ensures manager.View() == Link(Disconnected, 0, false, [], []) && manager.issued == []
      ensures messages == map[] && !pinging && timerTopics == map[] && observers == 0
    {
      manager := new MqttManager();
      messages := map[];
      pinging := false;
      timerTopics := map[];
      observers := 0;
    }

    method Start(accepted: bool)
      requires Valid()
      modifies manager
      ensures Valid()
      ensures manager.View() == Started(old(manager.View()), accepted)
      ensures manager.issued == old(manager.issued)
      ensures messages == old(messages) && pinging == old(pinging)
      ensures timerTopics == old(timerTopics) && observers == old(observers)
    {
      manager.Start(accepted);
    }

    /** `subscribe(to:)` hands the topic to the manager unchanged. */
    method Subscribe(topic: string)
      requires Valid()
      modifies manager
      ensures Valid()
      ensures manager.Emitted(old(manager.View()), old(manager.issued), [Command.Subscribe(topic, QoS1)])
    {
      manager.Subscribe(topic);
    }

    /** `send(message:to:)` publishes the message unchanged. */
    method Send(message: string, topic: string)
      requires Valid()
      modifies manager
      ensures Valid()
      ensures manager.Emitted(old(manager.View()), old(manager.issued), [Publish(topic, message, QoS1)])
    {
      manager.Publish(message, topic);
    }

    /** `startRecieving(from:)`: one subscribe per key topic, nothing else. */
    method StartRecieving(functions: map<string, RecieveFunction>) returns (ghost order: seq<string>)
      requires Valid()
      modifies manager
      ensures Valid()
      ensures Enumerates(order, functions.Keys)
      ensures manager.Emitted(old(manager.View()), old(manager.issued), SubscribeEach(order))
    {
      order := SubscribeKeys(manager, functions);
    }

    /** `getStatus(of:with:)`: register for "subscribed" notifications and
        subscribe to every status topic; `sendTopics` is not used and nothing
        is published here. */
    method GetStatus(functions: map<string, SendFunction>, sendTopics: map<SendFunction, string>)
      returns (ghost order: seq<string>)
      requires Valid()
      modifies this, manager
      ensures Valid()
      ensures observers == old(observers) + 1
      ensures messages == old(messages) && pinging == old(pinging) && timerTopics == old(timerTopics)
      ensures Enumerates(order, functions.Keys)
      ensures manager.Emitted(old(manager.View()), old(manager.issued), SubscribeEach(order))
    {
      observers := observers + 1;
      order := SubscribeKeys(manager, functions);
    }

    /** `didSubscribed(_:)`: the topic to pass on to `didSubscribedTo`, present
        only when the notification carries a String under "topic". */
    function DidSubscribed(info: UserInfo): (topic: Option<string>)
      ensures topic.Some? <==> "topic" in info && info["topic"].Text?
      ensures topic.Some? ==> info["topic"] == Text(topic.value)
    {
      if "topic" in info then
        match info["topic"]
        case Text(t) => Some(t)
        case NonText => None
      else None
    }

    /** Every notification the manager posts for a topic reaches the output with that topic. */
    lemma {:induction false} PostedNoticesReachOutput(topic: string)
      ensures DidSubscribed(SubscribedNotice(topic)) == Some(topic)
    {
      assert "topic" in SubscribedNotice(topic);
    }

    /** `startPing(at:)`: subscribe to the pong topic, then start the timer. */
    method StartPing(connectionTopics: map<ConnectionTopicType, string>)
      requires Valid()
      requires Pong in connectionTopics
      modifies this, manager
      ensures Valid()
      ensures pinging && timerTopics == connectionTopics
      ensures messages == old(messages) && observers == old(observers)
      ensures manager.Emitted(old(manager.View()), old(manager.issued),
                              [Command.Subscribe(connectionTopics[Pong], QoS1)])
    {
      manager.Subscribe(connectionTopics[Pong]);
      pinging := true;
      timerTopics := connectionTopics;
    }

    /** One firing of the timer: a live timer publishes "ping" on the ping
        topic it captured; an invalidated one does nothing. */
    method Tick()
      requires Valid()
      requires pinging ==> Ping in timerTopics
      modifies manager
      ensures Valid()
      ensures manager.Emitted(old(manager.View()), old(manager.issued),
                              if pinging then [Publish(timerTopics[Ping], "ping", QoS1)] else [])
    {
      if pinging {
        manager.Publish("ping", timerTopics[Ping]);
      } else {
        assert IssueAll(manager.View(), []) == manager.View();
        assert manager.issued + [] == manager.issued;
      }
    }

    /** `stopPing(at:)`: invalidate the timer (if any), then publish "ready" on
        the ping topic and unsubscribe from the pong topic. */
    method StopPing(connectionTopics: map<ConnectionTopicType, string>)
      requires Valid()
      requires Ping in connectionTopics && Pong in connectionTopics
      modifies this, manager
      ensures Valid()
      ensures !pinging && timerTopics == old(timerTopics)
      ensures messages == old(messages) && observers == old(observers)
      ensures manager.Emitted(old(manager.View()), old(manager.issued),
                              [Publish(connectionTopics[Ping], "ready", QoS1),
                               Command.Unsubscribe(connectionTopics[Pong])])
    {
      pinging := false;
      manager.Publish("ready", connectionTopics[Ping]);
      ghost var mid := manager.View();
      manager.Unsubscribe(connectionTopics[Pong]);
      IssueAllSnoc(old(manager.View()), [Publish(connectionTopics[Ping], "ready", QoS1)],
                   Command.Unsubscribe(connectionTopics[Pong]));
      assert IssueAll(old(manager.View()), [Publish(connectionTopics[Ping], "ready", QoS1)]) == mid by {
        IssueAllSnoc(old(manager.View()), [], Publish(connectionTopics[Ping], "ready", QoS1));
        assert [] + [Publish(connectionTopics[Ping], "ready", QoS1)] == [Publish(connectionTopics[Ping], "ready", QoS1)];
      }
    }

    /** `update(for:message:)`: record the message for its topic and forward
        both unchanged. */
    method Update(topic: string, message: string) returns (forwardTopic: string, forwardMessage: string)
      modifies this
      ensures messages == old(messages)[topic := message]
      ensures pinging == old(pinging) && timerTopics == old(timerTopics) && observers == old(observers)
      ensures forwardTopic == topic && forwardMessage == message
    {
      messages := messages[topic := message];
      forwardTopic, forwardMessage := topic, message;
    }
  }
}
