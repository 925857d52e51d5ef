/** MQttManager from MqttManager.swift: the broker session. Commands issued
    while connected go straight to the transport; otherwise they are handed to
    a dispatch queue that `start` suspends and that assigning `.connected` to
    `state` resumes. The transport itself (CocoaMQTT) is a log `sent` of the
    commands that reached it. */
module Transport {
  import opened Basics

  datatype QoS = QoS0 | QoS1 | QoS2

  /** A command for the transport. Subscribe and publish carry their QoS. */
  datatype Command =
    | Subscribe(topic: string, qos: QoS)
    | Unsubscribe(topic: string)
    | Publish(topic: string, message: string, qos: QoS)

  datatype ConnState = Disconnected | Connecting | Connected

  /** A value of a notification's `userInfo` dictionary: a String or anything else. */
  datatype InfoValue = Text(text: string) | NonText

  type UserInfo = map<string, InfoValue>

  /** The "subscribed" notification the manager posts for one topic: its
      `userInfo` carries the topic, as a String, under "topic" and nothing else. */
  function SubscribedNotice(topic: string): (u: UserInfo)
    ensures u.Keys == {"topic"} && u["topic"] == Text(topic)
  {
    map["topic" := Text(topic)]
  }

  /** What the manager's fields hold: connection state, the queue's suspension
      count, whether a client object exists (`mqtt5 != nil`), the deferred
      commands and the commands the transport has received. */
  datatype Link = Link(state: ConnState, suspensions: nat, hasClient: bool,
                       pending: seq<Command>, sent: seq<Command>)

  /** The effect of `start()`: one more suspension of the queue, connecting
      when `connect()` accepts and disconnected when it refuses; a refusal
      keeps whatever client existed before. */
  function Started(l: Link, accepted: bool): (r: Link)
    ensures r.state != Connected && (r.state == Connecting <==> accepted)
    ensures r.suspensions == l.suspensions + 1
    ensures r.hasClient <==> l.hasClient || accepted
    ensures r.pending == l.pending && r.sent == l.sent
  {
    l.(state := if accepted then Connecting else Disconnected,
       suspensions := l.suspensions + 1,
       hasClient := l.hasClient || accepted)
  }

  /** The effect of one `subscribe`/`unsubscribe`/`publish` on the manager:
      while connected the command reaches the transport at once (or nowhere
      without a client) and the queue is untouched; otherwise it is deferred
      and nothing reaches the transport. */
  function Issue(l: Link, c: Command): (r: Link)
    ensures r.state == l.state && r.suspensions == l.suspensions && r.hasClient == l.hasClient
    ensures l.state == Connected ==> r.pending == l.pending && r.sent == (if l.hasClient then l.sent + [c] else l.sent)
    ensures l.state != Connected ==> r.sent == l.sent && r.pending == l.pending + [c]
  {
    if l.state == Connected then
      if l.hasClient then l.(sent := l.sent + [c]) else l
    else
      l.(pending := l.pending + [c])
  }

  /** The effect of a sequence of commands issued one after another. It
      never changes the state, the queue's suspensions or the client; while
      connected nothing is deferred, otherwise nothing is sent. */
  function IssueAll(l: Link, cs: seq<Command>): (r: Link)
    ensures r.state == l.state && r.suspensions == l.suspensions && r.hasClient == l.hasClient
    ensures l.state == Connected ==> r.pending == l.pending
    ensures l.state != Connected ==> r.sent == l.sent
    decreases |cs|
  {
    if cs == [] then l else Issue(IssueAll(l, cs[..|cs| - 1]), cs[|cs| - 1])
  }

  /** Issuing never changes the connection state, the queue or the client:
      while connected every command reaches the transport at once and in
      order (or is dropped when no client exists), and otherwise every
      command is deferred and nothing reaches the transport. */
  lemma {:induction false} IssueAllEffect(l: Link, cs: seq<Command>)
    ensures IssueAll(l, cs) ==
      if l.state == Connected then
        if l.hasClient then l.(sent := l.sent + cs) else l
      else l.(pending := l.pending + cs)
  {
    if cs != [] {
      var pre := cs[..|cs| - 1];
      IssueAllEffect(l, pre);
      assert pre + [cs[|cs| - 1]] == cs;
      assert l.sent + pre + [cs[|cs| - 1]] == l.sent + cs;
      assert l.pending + pre + [cs[|cs| - 1]] == l.pending + cs;
    }
  }

  lemma IssueAllSnoc(l: Link, cs: seq<Command>, c: Command)
    ensures IssueAll(l, cs + [c]) == Issue(IssueAll(l, cs), c)
  {
    assert (cs + [c])[..|cs|] == cs;
  }

  /** Issuing `a` and then `b` is issuing `a + b`. */
  lemma {:induction false} IssueAllAppend(l: Link, a: seq<Command>, b: seq<Command>)
    ensures IssueAll(l, a + b) == IssueAll(IssueAll(l, a), b)
  {
    if b != [] {
      var pre := b[..|b| - 1];
      assert (a + b)[..|a + b| - 1] == a + pre;
      assert (a + b)[|a + b| - 1] == b[|b| - 1];
      IssueAllAppend(l, a, pre);
    } else {
      assert a + b == a;
    }
  }

  /** One subscribe at QoS 1 per topic, in the order given. */
  function SubscribeEach(topics: seq<string>): (r: seq<Command>)
    ensures |r| == |topics|
    ensures forall i | 0 <= i < |r| :: r[i] == Subscribe(topics[i], QoS1)
    decreases |topics|
  {
    if topics == [] then []
    else SubscribeEach(topics[..|topics| - 1]) + [Subscribe(topics[|topics| - 1], QoS1)]
  }

  lemma SubscribeEachSnoc(topics: seq<string>, t: string)
    ensures SubscribeEach(topics + [t]) == SubscribeEach(topics) + [Subscribe(t, QoS1)]
  {
    assert (topics + [t])[..|topics|] == topics;
  }

  /** Subscribing along an enumeration of `keys` issues exactly one subscribe
      per key and no other command. */
  lemma SubscribeEachOncePerKey(order: seq<string>, keys: set<string>)
    requires Enumerates(order, keys)
    ensures forall c | c in SubscribeEach(order) :: c.Subscribe? && c.topic in keys && c.qos == QoS1
    ensures forall t | t in keys :: multiset(SubscribeEach(order))[Subscribe(t, QoS1)] == 1
  {
    SubscribeEachOnlyListed(order);
    SubscribeEachCounts(order, keys);
  }

  /** Only QoS-1 subscribes to the listed topics. */
  lemma {:induction false} SubscribeEachOnlyListed(order: seq<string>)
    ensures forall c | c in SubscribeEach(order) :: c.Subscribe? && c.topic in order && c.qos == QoS1
  {
    if order != [] {
      var pre := order[..|order| - 1];
      SubscribeEachOnlyListed(pre);
      assert forall t | t in pre :: t in order;
    }
  }

  lemma {:induction false} SubscribeEachCounts(order: seq<string>, keys: set<string>)
    requires Enumerates(order, keys)
    ensures forall t | t in keys :: multiset(SubscribeEach(order))[Subscribe(t, QoS1)] == 1
  {
    if order != [] {
      var last := order[|order| - 1];
      var pre := order[..|order| - 1];
      EnumeratesPrefix(order, keys);
      SubscribeEachCounts(pre, keys - {last});
      SubscribeEachOnlyListed(pre);
      assert Subscribe(last, QoS1) !in SubscribeEach(pre);
    }
  }

  /** Subscribing along enumerations of two key sets, one after the other,
      subscribes to each key once per set it belongs to. */
  lemma SubscribeEachPair(a: seq<string>, keysA: set<string>, b: seq<string>, keysB: set<string>)
    requires Enumerates(a, keysA) && Enumerates(b, keysB)
    ensures |SubscribeEach(a) + SubscribeEach(b)| == |keysA| + |keysB|
    ensures forall c | c in SubscribeEach(a) + SubscribeEach(b) :: c.Subscribe? && c.qos == QoS1
    ensures forall x ::
      multiset(SubscribeEach(a) + SubscribeEach(b))[Subscribe(x, QoS1)] ==
        (if x in keysA then 1 else 0) + (if x in keysB then 1 else 0)
  {
    SubscribeEachOncePerKey(a, keysA);
    SubscribeEachOncePerKey(b, keysB);
    EnumerationLength(a, keysA);
    EnumerationLength(b, keysB);
    forall x ensures multiset(SubscribeEach(a) + SubscribeEach(b))[Subscribe(x, QoS1)] ==
        (if x in keysA then 1 else 0) + (if x in keysB then 1 else 0)
    {
      if x !in keysA {
        assert Subscribe(x, QoS1) !in SubscribeEach(a);
      }
      if x !in keysB {
        assert Subscribe(x, QoS1) !in SubscribeEach(b);
      }
    }
  }

  /** `after` extends `before` by exactly the commands of `batch`, each once,
      in some order. */
  ghost predicate RanOnce(before: seq<Command>, after: seq<Command>, batch: seq<Command>) {
    && |before| <= |after|
    && after[..|before|] == before
    && multiset(after[|before|..]) == multiset(batch)
  }

  /** Moving the element at `i` of the queue `p` to the end of `ran` keeps
      their joint multiset. */
  lemma PickOne(ran: seq<Command>, p: seq<Command>, i: nat)
    requires i < |p|
    ensures multiset(ran + [p[i]]) + multiset(p[..i] + p[i + 1..]) == multiset(ran) + multiset(p)
  {
    assert p == p[..i] + [p[i]] + p[i + 1..];
  }

  lemma AppendRanOnce(before: seq<Command>, ran: seq<Command>, batch: seq<Command>)
    requires multiset(ran) == multiset(batch)
    ensures RanOnce(before, before + ran, batch)
  {
    assert (before + ran)[..|before|] == before;
    assert (before + ran)[|before|..] == ran;
  }

  lemma RanOnceAccounts(before: seq<Command>, after: seq<Command>, batch: seq<Command>)
    requires RanOnce(before, after, batch)
    ensures multiset(after) == multiset(before) + multiset(batch)
  {
    assert after == after[..|before|] + after[|before|..];
  }

  /** Two stretches of issuing, one after the other, are one stretch. */
  lemma ChainEmits(v0: Link, i0: seq<Command>, a: seq<Command>, v1: Link, i1: seq<Command>,
                   b: seq<Command>, v2: Link, i2: seq<Command>)
    requires v1 == IssueAll(v0, a) && i1 == i0 + a
    requires v2 == IssueAll(v1, b) && i2 == i1 + b
    ensures v2 == IssueAll(v0, a + b) && i2 == i0 + (a + b)
  {
    IssueAllAppend(v0, a, b);
  }

  /** A new command that lands in any one of the three logs keeps the books. */
  lemma AccountOne(issued: seq<Command>, sent: seq<Command>, pending: seq<Command>, lost: seq<Command>, c: Command)
    requires multiset(issued) == multiset(sent) + multiset(pending) + multiset(lost)
    ensures multiset(issued + [c]) == multiset(sent + [c]) + multiset(pending) + multiset(lost)
    ensures multiset(issued + [c]) == multiset(sent) + multiset(pending + [c]) + multiset(lost)
    ensures multiset(issued + [c]) == multiset(sent) + multiset(pending) + multiset(lost + [c])
  {
  }

  /** One more command after a stretch of issuing extends the stretch. */
  lemma EmitOne(v0: Link, i0: seq<Command>, a: seq<Command>, v1: Link, i1: seq<Command>,
                c: Command, v2: Link, i2: seq<Command>)
    requires v1 == IssueAll(v0, a) && i1 == i0 + a
    requires v2 == Issue(v1, c) && i2 == i1 + [c]
    ensures v2 == IssueAll(v0, a + [c]) && i2 == i0 + (a + [c])
  {
    IssueAllSnoc(v0, a, c);
  }

  class MqttManager {
    var state: ConnState
    /** How many `suspend()` calls on the queue are not yet balanced by a `resume()`. */
    var suspensions: nat
    /** `mqtt5 != nil`: a client object whose `connect()` was accepted exists. */
    var hasClient: bool
    /** Blocks handed to the queue that have not run yet. */
    var pending: seq<Command>
    /** Commands that reached the transport, in arrival order. */
    var sent: seq<Command>
    /** Every command ever handed to the manager. */
    ghost var issued: seq<Command>
    /** Commands that ran while no client existed (`mqtt5?.` did nothing). */
    ghost var lost: seq<Command>

    function View(): Link
      reads this
    {
      Link(state, suspensions, hasClient, pending, sent)
    }

    /** Since the snapshot (`view0`, `issued0`) exactly the commands `cs` were
        issued, one after another, and nothing else happened. */
    ghost predicate Emitted(view0: Link, issued0: seq<Command>, cs: seq<Command>)
      reads this
    {
      View() == IssueAll(view0, cs) && issued == issued0 + cs
    }

    /** Every issued command is exactly once sent, pending or lost. */
    ghost predicate Accounted()
      reads this
    {
      multiset(issued) == multiset(sent) + multiset(pending) + multiset(lost)
    }

    /** Nothing waits in the queue once connected with the queue resumed. */
    ghost predicate Valid()
      reads this
    {
      Accounted() && (state == Connected && suspensions == 0 ==> pending == [])
    }

    /** Initially disconnected, with an active (not suspended) queue. */
    constructor ()
      ensures Valid()
      ensures View() == Link(Disconnected, 0, false, [], [])
      ensures issued == [] && lost == []
    {
      state := Disconnected;
      suspensions := 0;
      hasClient := false;
      pending := [];
      sent := [];
      issued := [];
      lost := [];
    }

    /** `start()`: suspend the queue, go to connecting, and try to connect;
        a rejected `connect()` returns to disconnected and leaves the queue
        suspended. */
    method Start(accepted: bool)
      requires Valid()
      modifies this
      ensures Valid()
      ensures View() == Started(old(View()), accepted)
      ensures issued == old(issued) && lost == old(lost)
    {
      suspensions := suspensions + 1;
      AssignState(Connecting);
      if accepted {
        hasClient := true;
      } else {
        AssignState(Disconnected);
      }
    }

    /** Every assignment to `state` runs its `didSet`: `.connected` resumes the queue. */
    method AssignState(s: ConnState)
      requires Accounted()
      modifies this
      ensures Accounted()
      ensures state == s && hasClient == old(hasClient) && issued == old(issued)
      ensures s != Connected ==> View() == old(View()).(state := s) && lost == old(lost)
      ensures s == Connected ==> Resumed(old(suspensions), old(pending), old(sent), old(lost))
    {
      state := s;
      if s == Connected {
        Resume();
      }
    }

    /** What `queue.resume()` leaves behind, given the fields before it. */
    ghost predicate Resumed(suspensions0: nat, pending0: seq<Command>, sent0: seq<Command>, lost0: seq<Command>)
      reads this
    {
      && suspensions == (if suspensions0 > 0 then suspensions0 - 1 else 0)
      && (suspensions > 0 ==> pending == pending0 && sent == sent0 && lost == lost0)
      && (suspensions == 0 ==> pending == [] && Ran(pending0, sent0, lost0))
    }

    /** The queued `batch` ran: each command once, in no particular order,
        reaching the transport exactly when a client exists. */
    ghost predicate Ran(batch: seq<Command>, sent0: seq<Command>, lost0: seq<Command>)
      reads this
    {
      if hasClient then RanOnce(sent0, sent, batch) && lost == lost0
      else RanOnce(lost0, lost, batch) && sent == sent0
    }

    /** `queue.resume()`: one suspension fewer; an active queue runs its blocks.
        (Resuming a queue that is not suspended traps in GCD; here it only runs
        the queue.) */
    method Resume()
      requires Accounted()
      modifies this
      ensures Accounted()
      ensures state == old(state) && hasClient == old(hasClient) && issued == old(issued)
      ensures Resumed(old(suspensions), old(pending), old(sent), old(lost))
    {
      if suspensions > 0 {
        suspensions := suspensions - 1;
      }
      if suspensions == 0 {
        ghost var issued0, pending0, sent0, lost0 := issued, pending, sent, lost;
        Drain();
        RanKeepsAccounts(issued0, pending0, sent0, lost0);
      }
    }

    /** An active queue runs its blocks at some later point; this is that point. */
    method RunQueue()
      requires Valid()
      modifies this
      ensures Valid()
      ensures state == old(state) && suspensions == old(suspensions) && hasClient == old(hasClient)
      ensures issued == old(issued)
      ensures suspensions > 0 ==> pending == old(pending) && sent == old(sent) && lost == old(lost)
      ensures suspensions == 0 ==> pending == [] && Ran(old(pending), old(sent), old(lost))
    {
      if suspensions == 0 {
        ghost var issued0, pending0, sent0, lost0 := issued, pending, sent, lost;
        Drain();
        RanKeepsAccounts(issued0, pending0, sent0, lost0);
      }
    }

    /** Run every queued block once. The queue is concurrent, so the blocks
        may run in any order: each step picks any one of them. */
    method Drain()
      modifies this
      ensures state == old(state) && suspensions == old(suspensions) && hasClient == old(hasClient)
      ensures issued == old(issued)
      ensures pending == [] && Ran(old(pending), old(sent), old(lost))
    {
      ghost var sent0, lost0, pending0 := sent, lost, pending;
      ghost var ran: seq<Command> := [];
      while pending != []
        invariant state == old(state) && suspensions == old(suspensions) && hasClient == old(hasClient)
        invariant issued == old(issued)
        invariant hasClient ==> sent == sent0 + ran && lost == lost0
        invariant !hasClient ==> sent == sent0 && lost == lost0 + ran
        invariant multiset(ran) + multiset(pending) == multiset(pending0)
        decreases |pending|
      {
        var i :| 0 <= i < |pending|;
        var c := pending[i];
        PickOne(ran, pending, i);
        pending := pending[..i] + pending[i + 1..];
        Transmit(c);
        ran := ran + [c];
      }
      if hasClient {
        AppendRanOnce(sent0, ran, pending0);
      } else {
        AppendRanOnce(lost0, ran, pending0);
      }
    }

    /** Running a batch keeps every issued command accounted for. */
    lemma RanKeepsAccounts(issued0: seq<Command>, pending0: seq<Command>, sent0: seq<Command>, lost0: seq<Command>)
      requires multiset(issued0) == multiset(sent0) + multiset(pending0) + multiset(lost0)
      requires Ran(pending0, sent0, lost0) && pending == [] && issued == issued0
      ensures Accounted()
    {
      if hasClient {
        RanOnceAccounts(sent0, sent, pending0);
      } else {
        RanOnceAccounts(lost0, lost, pending0);
      }
    }

    /** `mqtt5?.subscribe/unsubscribe/publish`: reaches the transport only when a client exists. */
    method Transmit(c: Command)
      modifies this
      ensures state == old(state) && suspensions == old(suspensions) && hasClient == old(hasClient)
      ensures pending == old(pending) && issued == old(issued)
      ensures hasClient ==> sent == old(sent) + [c] && lost == old(lost)
      ensures !hasClient ==> sent == old(sent) && lost == old(lost) + [c]
    {
      if hasClient {
        sent := sent + [c];
      } else {
        lost := lost + [c];
      }
    }

    /** The shared shape of `subscribe`, `unsubscribe` and `publish`. */
    method Submit(c: Command)
      requires Valid()
      modifies this
      ensures Valid()
      ensures View() == Issue(old(View()), c)
      ensures issued == old(issued) + [c]
    {
      AccountOne(issued, sent, pending, lost, c);
      if state == Connected {
        Transmit(c);
      } else {
        pending := pending + [c];
      }
      issued := issued + [c];
    }

    method Subscribe(topic: string)
      requires Valid()
      modifies this
      ensures Valid()
      ensures View() == Issue(old(View()), Command.Subscribe(topic, QoS1))
      ensures issued == old(issued) + [Command.Subscribe(topic, QoS1)]
    {
      Submit(Command.Subscribe(topic, QoS1));
    }

    method Unsubscribe(topic: string)
      requires Valid()
      modifies this
      ensures Valid()
      ensures View() == Issue(old(View()), Command.Unsubscribe(topic))
      ensures issued == old(issued) + [Command.Unsubscribe(topic)]
    {
      Submit(Command.Unsubscribe(topic));
    }

    method Publish(message: string, topic: string)
      requires Valid()
      modifies this
      ensures Valid()
      ensures View() == Issue(old(View()), Command.Publish(topic, message, QoS1))
      ensures issued == old(issued) + [Command.Publish(topic, message, QoS1)]
    {
      Submit(Command.Publish(topic, message, QoS1));
    }

    /** Connect acknowledgement: connected, whatever the reason code. */
    method DidConnectAck(reasonCode: nat)
      requires Valid()
      modifies this
      ensures Valid()
      ensures state == Connected && hasClient == old(hasClient) && issued == old(issued)
      ensures Resumed(old(suspensions), old(pending), old(sent), old(lost))
    {
      AssignState(Connected);
    }

    /** Disconnect: disconnected and nothing else; the queue is not suspended again. */
    method DidDisconnect(withError: bool)
      requires Valid()
      modifies this
      ensures Valid()
      ensures View() == old(View()).(state := Disconnected)
      ensures issued == old(issued) && lost == old(lost)
    {
      AssignState(Disconnected);
    }

    /** An inbound message is forwarded to the output unchanged. */
    method DidReceiveMessage(topic: string, message: string) returns (forwardTopic: string, forwardMessage: string)
      ensures forwardTopic == topic && forwardMessage == message
    {
      forwardTopic, forwardMessage := topic, message;
    }

    /** A subscribe acknowledgement posts one "subscribed" notification per
        topic whose granted value is 1, in the dictionary's iteration order. */
    method DidSubscribeTopics(success: map<string, int>) returns (posted: seq<UserInfo>, ghost order: seq<string>)
      ensures Enumerates(order, set t | t in success && success[t] == 1)
      ensures |posted| == |order|
      ensures forall i | 0 <= i < |order| :: posted[i] == SubscribedNotice(order[i])
      ensures |posted| == |set t | t in success && success[t] == 1|
      ensures forall t | t in success && success[t] == 1 :: SubscribedNotice(t) in posted
      ensures forall p | p in posted :: exists t | t in success && success[t] == 1 :: p == SubscribedNotice(t)
    {
      var remaining := success.Keys;
      posted, order := [], [];
      while remaining != {}
        invariant remaining <= success.Keys
        invariant Enumerates(order, set t | t in success && t !in remaining && success[t] == 1)
        invariant |posted| == |order|
        invariant forall i | 0 <= i < |order| :: posted[i] == SubscribedNotice(order[i])
        decreases remaining
      {
        var topic :| topic in remaining;
        ghost var done := set t | t in success && t !in remaining && success[t] == 1;
        assert topic !in done;
        if success[topic] == 1 {
          EnumeratesExtend(order, done, topic);
          assert (set t | t in success && t !in remaining - {topic} && success[t] == 1) == done + {topic};
          posted := posted + [SubscribedNotice(topic)];
          order := order + [topic];
        } else {
          assert (set t | t in success && t !in remaining - {topic} && success[t] == 1) == done;
        }
        remaining := remaining - {topic};
      }
      ghost var granted := set t | t in success && success[t] == 1;
      assert granted == set t | t in success && t !in remaining && success[t] == 1;
      EnumerationLength(order, granted);
      forall t | t in granted ensures SubscribedNotice(t) in posted {
        var i :| 0 <= i < |order| && order[i] == t;
        assert posted[i] == SubscribedNotice(t);
      }
      forall p | p in posted ensures exists t | t in granted :: p == SubscribedNotice(t) {
        var i :| 0 <= i < |posted| && posted[i] == p;
        assert order[i] in granted;
      }
    }
  }

  /** The `forEach { topic, _ in subscribe(to: topic) }` loop of Model.swift
      and ModelPresenter.swift: one subscribe per key topic of `functions`,
      in the dictionary's iteration order. */
  method SubscribeKeys<V>(manager: MqttManager, functions: map<string, V>) returns (ghost order: seq<string>)
    requires manager.Valid()
    modifies manager
    ensures manager.Valid()
    ensures Enumerates(order, functions.Keys)
    ensures manager.Emitted(old(manager.View()), old(manager.issued), SubscribeEach(order))
  {
    ghost var v0, i0 := manager.View(), manager.issued;
    var remaining := functions.Keys;
    order := [];
    while remaining != {}
      invariant remaining <= functions.Keys
      invariant Enumerates(order, functions.Keys - remaining)
      invariant manager.Valid()
      invariant manager.Emitted(v0, i0, SubscribeEach(order))
      decreases remaining
    {
      var topic :| topic in remaining;
      EnumeratesStep(order, functions.Keys, remaining, topic);
      SubscribeEachSnoc(order, topic);
      ghost var v1, i1 := manager.View(), manager.issued;
      manager.Subscribe(topic);
      EmitOne(v0, i0, SubscribeEach(order), v1, i1, Command.Subscribe(topic, QoS1), manager.View(), manager.issued);
      order := order + [topic];
      remaining := remaining - {topic};
    }
  }
}
