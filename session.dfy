/** The blocking MQTT session of the stand-alone client
    (mqtt-client/src/core.rs): configuration from the environment, a bounded
    reconnect loop, re-subscription, routing of received messages by topic,
    and a disconnect that only acts on a live connection. The broker is an
    oracle: the outcome of the k-th reconnect and of the k-th subscription. */
module Core {
  import opened Wrappers
  import opened Text
  import opened Env
  import opened Types
  import opened Topics
  import LegacyClient

  /** The configuration `MqttClient::new` reads with `get_env`: the
      connection options and the topic list, or `None` where a variable is
      missing and `get_env` panics. */
  function ReadConfig(vars: map<string, string>): (r: Option<(ConnectOptions, seq<string>)>)
    ensures r.Some? <==> LegacyClient.ConnectOptionsFromEnv(vars).Some? && "MQTT_TOPICS" in vars
    ensures r.Some? ==> r.value.1 == ParseTopics(vars["MQTT_TOPICS"])
    ensures r.Some? ==> r.value.0 == ConnectOptions(vars["MQTT_BROKER"], vars["MQTT_CLIENT"], vars["MQTT_USERNAME"],
                                                    vars["MQTT_PASSWORD"], vars["MQTT_LWT_TOPIC"], vars["MQTT_LWT_PAYLOAD"])
  {
    match (LegacyClient.ConnectOptionsFromEnv(vars), GetEnv(vars, "MQTT_TOPICS"))
    case (Some(options), Some(list)) => Some((options, ParseTopics(list)))
    case _ => None
  }

  /** `init_log` of core.rs: RUST_LOG defaults to "info". */
  method InitLog(env: ProcessEnv)
    modifies env
    ensures env.vars == Defaulted(old(env.vars), "RUST_LOG", "info")
  {
    if "RUST_LOG" !in env.vars {
      env.vars := env.vars["RUST_LOG" := "info"];
    }
  }

  /** How many reconnect attempts `try_reconnect` makes. */
  const RetryLimit: nat := 12

  /** Whether the broker accepts the call with index `k`; calls beyond the
      oracle's length fail. */
  predicate Answer(ok: seq<bool>, k: nat) {
    k < |ok| && ok[k]
  }

  /** The number of reconnect calls made with `left` attempts to go, the
      first of them being call number `from`: up to and including the first
      success. */
  function Attempts(ok: seq<bool>, from: nat, left: nat): (n: nat)
    ensures n <= left
    decreases left
  {
    if left == 0 then 0
    else if Answer(ok, from) then 1
    else 1 + Attempts(ok, from + 1, left - 1)
  }

  /** The broker refuses the `n` calls numbered `from` to `from + n - 1`. */
  predicate Refused(ok: seq<bool>, from: nat, n: nat) {
    forall k :: from <= k < from + n ==> !Answer(ok, k)
  }

  /** Some reconnect among the next `RetryLimit` succeeds. */
  predicate Reconnected(ok: seq<bool>, from: nat) {
    !Refused(ok, from, RetryLimit)
  }

  /** When the call at offset `i` is the first the broker accepts, exactly
      `i + 1` calls are made: none after the success. */
  lemma {:induction false} AttemptsAtFirstSuccess(ok: seq<bool>, from: nat, left: nat, i: nat)
    requires i < left && Refused(ok, from, i) && Answer(ok, from + i)
    ensures Attempts(ok, from, left) == i + 1
    decreases i
  {
    if i > 0 {
      assert !Answer(ok, from);
      AttemptsAtFirstSuccess(ok, from + 1, left - 1, i - 1);
    }
  }

  /** When the broker refuses every call in the window, all `left` calls
      are made. */
  lemma {:induction false} AttemptsWhenAllRefused(ok: seq<bool>, from: nat, left: nat)
    requires Refused(ok, from, left)
    ensures Attempts(ok, from, left) == left
    decreases left
  {
    if left > 0 {
      assert !Answer(ok, from);
      AttemptsWhenAllRefused(ok, from + 1, left - 1);
    }
  }

  /** Where `process_messages` sends a message. */
  datatype Handler = PackmlStatus | PackmlEvent | MasterStatus | Dropped | Warned

  /** The topic routing of `process_messages`. */
  function Route(topic: string): (h: Handler)
    ensures h == Warned <==> !StartsWith(topic, "packml") && !StartsWith(topic, "service")
    ensures h == PackmlStatus <==> StartsWith(topic, "packml") && Contains(topic, "status")
  {
    if StartsWith(topic, "packml") then
      if Contains(topic, "status") then PackmlStatus
      else if Contains(topic, "event") then PackmlEvent
      else Dropped
    else if StartsWith(topic, "service") then
      if Contains(topic, "status") then MasterStatus else Dropped
    else Warned
  }

  /** "status" is looked for before "event": a PackML topic containing both
      goes to the status handler, where the bridge's classifier, given the
      event fields, files the message as an event. A PackML topic with
      neither is dropped without a warning. */
  lemma StatusCheckedBeforeEvent(topic: string)
    requires StartsWith(topic, "packml")
    ensures Contains(topic, "status") ==> Route(topic) == PackmlStatus
    ensures !Contains(topic, "status") && Contains(topic, "event") ==> Route(topic) == PackmlEvent
    ensures !Contains(topic, "status") && !Contains(topic, "event") ==> Route(topic) == Dropped
  {
  }

  /** A service topic goes to the master-service handler exactly when it
      mentions "status"; otherwise it is dropped without a warning. */
  lemma ServiceTopicsRouted(topic: string)
    requires !StartsWith(topic, "packml") && StartsWith(topic, "service")
    ensures Route(topic) == MasterStatus <==> Contains(topic, "status")
    ensures Route(topic) != Warned
  {
  }

  /** What the channel yields: a message on a topic, or `None`, seen
      together with whether the client then reports a live connection. */
  datatype Delivery = Received(topic: string) | Nothing(clientConnected: bool)

  /** A call made on the broker client. */
  datatype Call = Reconnect | Subscribe(topics: seq<string>, qos: seq<int>) | Unsubscribe(topics: seq<string>) | Disconnect

  /** Why `process_messages` stopped: the channel ran dry, reconnecting
      failed (`break`), or re-subscribing failed (`process::exit(1)`). */
  datatype Exit = Drained | ReconnectFailed | SubscribeFailed

  /** The session's observable state. */
  datatype Snapshot = Snapshot(connected: bool, reconnects: nat, subscribes: nat, calls: seq<Call>, handled: seq<Handler>)

  function Repeat(c: Call, n: nat): (r: seq<Call>)
    ensures |r| == n && forall i :: 0 <= i < n ==> r[i] == c
  {
    seq(n, _ => c)
  }

  /** One delivery handled by `process_messages`, with its exit if it ends
      the loop: a message is routed, a `None` on a live connection is
      ignored, a `None` on a lost one makes the session recover. */
  function Step(s: Snapshot, d: Delivery, topics: seq<string>, qos: seq<int>, reconnectOk: seq<bool>, subscribeOk: seq<bool>): (r: (Snapshot, Option<Exit>))
    ensures r.1 != Some(Drained)
    ensures r.0.handled == s.handled + (if d.Received? then [Route(d.topic)] else [])
  {
    match d
    case Received(topic) => (s.(handled := s.handled + [Route(topic)]), None)
    case Nothing(up) =>
      if up then (s.(connected := true), None)
      else Recovery(s, topics, qos, reconnectOk, subscribeOk)
  }

  /** After a lost connection: `try_reconnect`, then `subscribe_topics`
      when the session is back. */
  function Recovery(s: Snapshot, topics: seq<string>, qos: seq<int>, reconnectOk: seq<bool>, subscribeOk: seq<bool>): (r: (Snapshot, Option<Exit>))
    ensures r.1 != Some(Drained)
    ensures r.0.handled == s.handled
  {
    var n := Attempts(reconnectOk, s.reconnects, RetryLimit);
    var back := Reconnected(reconnectOk, s.reconnects);
    var s1 := s.(connected := back, reconnects := s.reconnects + n, calls := s.calls + Repeat(Reconnect, n));
    if !back then (s1, Some(ReconnectFailed))
    else
      var s2 := s1.(subscribes := s1.subscribes + 1, calls := s1.calls + [Subscribe(topics, qos)]);
      if Answer(subscribeOk, s1.subscribes) then (s2, None) else (s2, Some(SubscribeFailed))
  }

  /** `process_messages` over the deliveries, in order. */
  function Process(s: Snapshot, ds: seq<Delivery>, topics: seq<string>, qos: seq<int>, reconnectOk: seq<bool>, subscribeOk: seq<bool>): (Snapshot, Exit)
    decreases |ds|
  {
    if ds == [] then (s, Drained)
    else
      var (s1, exit) := Step(s, ds[0], topics, qos, reconnectOk, subscribeOk);
      if exit.Some? then (s1, exit.value)
      else Process(s1, ds[1..], topics, qos, reconnectOk, subscribeOk)
  }

  /** The routes of the received messages, in arrival order. */
  function Routes(ds: seq<Delivery>): seq<Handler> {
    if ds == [] then []
    else (if ds[0].Received? then [Route(ds[0].topic)] else []) + Routes(ds[1..])
  }

  /** When the loop drains the channel, every received message has been
      routed, once, in arrival order. */
  lemma {:induction false} DrainedRoutesEveryMessage(s: Snapshot, ds: seq<Delivery>, topics: seq<string>, qos: seq<int>, reconnectOk: seq<bool>, subscribeOk: seq<bool>)
    requires Process(s, ds, topics, qos, reconnectOk, subscribeOk).1 == Drained
    ensures Process(s, ds, topics, qos, reconnectOk, subscribeOk).0.handled == s.handled + Routes(ds)
    decreases |ds|
  {
    if ds == [] {
      assert s.handled + [] == s.handled;
    } else {
      var next := ProcessFirst(s, ds, topics, qos, reconnectOk, subscribeOk);
      DrainedRoutesEveryMessage(next, ds[1..], topics, qos, reconnectOk, subscribeOk);
      var head := if ds[0].Received? then [Route(ds[0].topic)] else [];
      assert next.handled + Routes(ds[1..]) == s.handled + (head + Routes(ds[1..]));
    }
  }

  /** A drained run goes on after its first delivery from the state that
      delivery leaves. */
  lemma ProcessFirst(s: Snapshot, ds: seq<Delivery>, topics: seq<string>, qos: seq<int>, reconnectOk: seq<bool>, subscribeOk: seq<bool>) returns (next: Snapshot)
    requires ds != [] && Process(s, ds, topics, qos, reconnectOk, subscribeOk).1 == Drained
    ensures Process(next, ds[1..], topics, qos, reconnectOk, subscribeOk) == Process(s, ds, topics, qos, reconnectOk, subscribeOk)
    ensures next.handled == s.handled + (if ds[0].Received? then [Route(ds[0].topic)] else [])
  {
    next := Step(s, ds[0], topics, qos, reconnectOk, subscribeOk).0;
  }

  /** A lost connection is followed by at most `RetryLimit` reconnects; when
      all are refused the loop ends, otherwise the same topics are
      subscribed again with the same qualities of service. */
  lemma LostConnectionHandling(s: Snapshot, topics: seq<string>, qos: seq<int>, reconnectOk: seq<bool>, subscribeOk: seq<bool>)
    ensures var (r, exit) := Step(s, Nothing(false), topics, qos, reconnectOk, subscribeOk);
      && r.reconnects - s.reconnects <= RetryLimit
      && (exit == Some(ReconnectFailed) <==> Refused(reconnectOk, s.reconnects, RetryLimit))
      && (exit == Some(ReconnectFailed) ==> r.reconnects == s.reconnects + RetryLimit && !r.connected)
      && (exit != Some(ReconnectFailed) ==> r.connected && r.calls[|r.calls| - 1] == Subscribe(topics, qos))
      && (exit == None <==> !Refused(reconnectOk, s.reconnects, RetryLimit) && Answer(subscribeOk, s.subscribes))
      && r.handled == s.handled
  {
    if Refused(reconnectOk, s.reconnects, RetryLimit) {
      AttemptsWhenAllRefused(reconnectOk, s.reconnects, RetryLimit);
    }
  }

  /** A `None` while the client reports a live connection changes nothing
      but the observed status. */
  lemma LiveConnectionIgnored(s: Snapshot, topics: seq<string>, qos: seq<int>, reconnectOk: seq<bool>, subscribeOk: seq<bool>)
    ensures Step(s, Nothing(true), topics, qos, reconnectOk, subscribeOk) == (s.(connected := true), None)
  {
  }

  /** Three refused reconnects and then an accepted one: four calls, and the
      session is back. */
  lemma ReconnectOnFourthAttempt()
    ensures Attempts([false, false, false, true], 0, RetryLimit) == 4
    ensures Reconnected([false, false, false, true], 0)
  {
    var ok := [false, false, false, true];
    assert !Answer(ok, 0) && !Answer(ok, 1) && !Answer(ok, 2) && Answer(ok, 3);
    AttemptsAtFirstSuccess(ok, 0, RetryLimit, 3);
  }

  /** A broker that would accept the thirteenth reconnect is never asked:
      twelve calls are made and the session gives up. */
  lemma GivesUpAfterTwelve()
    ensures var ok := seq(RetryLimit, _ => false) + [true];
      Attempts(ok, 0, RetryLimit) == RetryLimit && !Reconnected(ok, 0)
  {
    var ok := seq(RetryLimit, _ => false) + [true];
    assert Refused(ok, 0, RetryLimit);
    AttemptsWhenAllRefused(ok, 0, RetryLimit);
  }

  /** `MqttClient` with its broker connection. */
  class Session {
    const topics: seq<string>
    const qos: seq<int>
    /** Whether the broker accepts the k-th reconnect and the k-th subscription. */
    const reconnectOk: seq<bool>
    const subscribeOk: seq<bool>
    var connected: bool
    var reconnects: nat
    var subscribes: nat
    var calls: seq<Call>
    var handled: seq<Handler>

    function State(): Snapshot
      reads this
    {
      Snapshot(connected, reconnects, subscribes, calls, handled)
    }

    /** `MqttClient::new` after a successful connect: the topics as
        configured and one quality of service 1 per topic. */
    constructor (topicList: seq<string>, reconnectOk: seq<bool>, subscribeOk: seq<bool>)
      ensures topics == topicList
      ensures |qos| == |topics| && forall i :: 0 <= i < |qos| ==> qos[i] == 1
      ensures this.reconnectOk == reconnectOk && this.subscribeOk == subscribeOk
      ensures State() == Snapshot(true, 0, 0, [], [])
    {
      var q := BuildQos(topicList);
      topics := topicList;
      qos := q;
      this.reconnectOk := reconnectOk;
      this.subscribeOk := subscribeOk;
      connected := true;
      reconnects := 0;
      subscribes := 0;
      calls := [];
      handled := [];
    }

    /** `try_reconnect`: up to twelve reconnects, returning at the first
        that succeeds. */
    method TryReconnect() returns (back: bool)
      modifies this
      ensures back == Reconnected(reconnectOk, old(reconnects))
      ensures reconnects == old(reconnects) + Attempts(reconnectOk, old(reconnects), RetryLimit)
      ensures calls == old(calls) + Repeat(Reconnect, reconnects - old(reconnects))
      ensures connected == back
      ensures subscribes == old(subscribes) && handled == old(handled)
    {
      connected := false;
      for i := 0 to RetryLimit
        invariant reconnects == old(reconnects) + i
        invariant Refused(reconnectOk, old(reconnects), i)
        invariant calls == old(calls) + Repeat(Reconnect, i)
        invariant !connected
        invariant subscribes == old(subscribes) && handled == old(handled)
      {
        var ok := Answer(reconnectOk, reconnects);
        reconnects := reconnects + 1;
        assert Repeat(Reconnect, i) + [Reconnect] == Repeat(Reconnect, i + 1);
        calls := calls + [Reconnect];
        if ok {
          connected := true;
          back := true;
          AttemptsAtFirstSuccess(reconnectOk, old(reconnects), RetryLimit, i);
          return;
        }
      }
      back := false;
      AttemptsWhenAllRefused(reconnectOk, old(reconnects), RetryLimit);
    }

    /** `subscribe_topics`: subscribes the session's topics with their
        qualities of service; `false` where the source exits the process. */
    method SubscribeTopics() returns (ok: bool)
      modifies this
      ensures ok == Answer(subscribeOk, old(subscribes))
      ensures subscribes == old(subscribes) + 1
      ensures calls == old(calls) + [Subscribe(topics, qos)]
      ensures connected == old(connected) && reconnects == old(reconnects) && handled == old(handled)
    {
      ok := Answer(subscribeOk, subscribes);
      subscribes := subscribes + 1;
      calls := calls + [Subscribe(topics, qos)];
    }

    /** `disconnect`: unsubscribes and disconnects only a live connection. */
    method Disconnect()
      modifies this
      ensures old(connected) ==> calls == old(calls) + [Unsubscribe(topics), Call.Disconnect] && !connected
      ensures !old(connected) ==> calls == old(calls) && !connected
      ensures reconnects == old(reconnects) && subscribes == old(subscribes) && handled == old(handled)
    {
      if connected {
        calls := calls + [Unsubscribe(topics), Call.Disconnect];
        connected := false;
      }
    }

    /** The body of `process_messages` for one delivery. */
    method Deliver(d: Delivery) returns (exit: Option<Exit>)
      modifies this
      ensures (State(), exit) == Step(old(State()), d, topics, qos, reconnectOk, subscribeOk)
    {
      exit := None;
      match d {
        case Received(topic) =>
          handled := handled + [Route(topic)];
        case Nothing(up) =>
          if up {
            connected := true;
          } else {
            exit := Recover();
          }
      }
    }

    /** A `None` on a lost connection: reconnect, then re-subscribe. */
    method Recover() returns (exit: Option<Exit>)
      modifies this
      ensures (State(), exit) == Recovery(old(State()), topics, qos, reconnectOk, subscribeOk)
    {
      ghost var s0 := State();
      ghost var n := Attempts(reconnectOk, s0.reconnects, RetryLimit);
      var back := TryReconnect();
      ghost var s1 := s0.(connected := back, reconnects := s0.reconnects + n, calls := s0.calls + Repeat(Reconnect, n));
      assert State() == s1;
      if !back {
        return Some(ReconnectFailed);
      }
      var ok := SubscribeTopics();
      assert State() == s1.(subscribes := s1.subscribes + 1, calls := s1.calls + [Subscribe(topics, qos)]);
      exit := if ok then None else Some(SubscribeFailed);
    }

    /** `process_messages`: every delivery in order until the channel is
        drained, a reconnect fails or a re-subscription fails. */
    method ProcessMessages(ds: seq<Delivery>) returns (exit: Exit)
      modifies this
      ensures (State(), exit) == Process(old(State()), ds, topics, qos, reconnectOk, subscribeOk)
    {
      var i := 0;
      while i < |ds|
        invariant 0 <= i <= |ds|
        invariant Process(State(), ds[i..], topics, qos, reconnectOk, subscribeOk) == Process(old(State()), ds, topics, qos, reconnectOk, subscribeOk)
      {
        assert ds[i..][1..] == ds[i + 1..];
        var stop := Deliver(ds[i]);
        if stop.Some? {
          return stop.value;
        }
        i := i + 1;
      }
      exit := Drained;
    }
  }
}
