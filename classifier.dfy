/** The bridge's message classifier and connection defaults
    (mqtt_adls_bridge/src/mqtt.rs): every MQTT message becomes a write job
    whose path is chosen from the topic and a few payload fields. */
module Classifier {
  import opened Wrappers
  import opened Text
  import opened Values
  import opened Types
  import opened Env
  import opened Topics
  import BridgeUtils

  /** The processing date read from the clock (`Utc::now()`), in UTC. */
  datatype Date = Date(year: int, month: int, day: int)

  /** serde_json could not parse the payload. */
  datatype ParseError = ParseError

  /** One MQTT message: its topic and its payload, parsed or not. */
  datatype Message = Message(topic: string, payload: Option<Document>)

  /** Path of a PackML event telegram, partitioned by processing date:
      packml/event/telegram_type=T/telegram_version=V/machine_idx=M/year=Y/month=M/day=D. */
  function EventPath(telegramType: string, telegramVersion: string, machineIdx: string, now: Date): string {
    Join(EventSegments(telegramType, telegramVersion, machineIdx, now), '/')
  }

  /** The '/'-separated segments of an event path. */
  function EventSegments(telegramType: string, telegramVersion: string, machineIdx: string, now: Date): seq<string> {
    ["packml", "event",
     "telegram_type=" + telegramType,
     "telegram_version=" + telegramVersion,
     "machine_idx=" + machineIdx,
     "year=" + IntToDecimal(now.year),
     "month=" + IntToDecimal(now.month),
     "day=" + IntToDecimal(now.day)]
  }

  /** Path of a PackML status telegram, packml/status/service_name=S: no
      date partition. */
  function StatusPath(serviceName: string): string {
    Join(["packml", "status", "service_name=" + serviceName], '/')
  }

  /** Path of a master-service status message, master/status/host=H. */
  function HostPath(host: string): string {
    Join(["master", "status", "host=" + host], '/')
  }

  /** `get_payload`: the write job for one message. A payload that does not
      parse is an error; otherwise the job carries the re-serialised payload,
      a path (empty when no rule applies) and the rule's batch size. */
  function GetPayload(topic: string, payload: Option<Document>, now: Date): (r: Result<WriteJob, ParseError>)
    ensures r.Err? <==> payload.None?
    ensures r.Ok? ==> r.value.payload == payload.value.text
    ensures r.Ok? ==> r.value.nPerFile == 1 || r.value.nPerFile == 10
  {
    match payload
    case None => Err(ParseError)
    case Some(doc) =>
      var route: (string, int) :=
        if StartsWith(topic, "packml") then
          var machineIdx := Field(doc, "machineIDx");
          var telegramType := Field(doc, "telegramTypeFriendly");
          var telegramVersion := Field(doc, "telegramTypeVersion");
          var serviceName := Field(doc, "ServiceName");
          if Contains(topic, "event") && telegramType.Some? && machineIdx.Some? && telegramVersion.Some? then
            (EventPath(ValueToString(telegramType.value), ValueToString(telegramVersion.value),
                       ValueToString(machineIdx.value), now), 10)
          else if Contains(topic, "status") && serviceName.Some? then
            (StatusPath(ValueToString(serviceName.value)), 1)
          else
            ("", 1)
        else if StartsWith(topic, "service") then
          var host := Field(doc, "Host");
          if Contains(topic, "status") && host.Some? then (HostPath(ValueToString(host.value)), 1)
          else ("", 1)
        else
          ("", 1);
      Ok(WriteJob(route.0, doc.text, route.1))
  }

  /** The event rule: a PackML topic mentioning "event" whose payload has a
      non-null telegram type, telegram version and machine id. */
  predicate EventRule(topic: string, doc: Document) {
    && StartsWith(topic, "packml")
    && Contains(topic, "event")
    && Field(doc, "telegramTypeFriendly").Some?
    && Field(doc, "telegramTypeVersion").Some?
    && Field(doc, "machineIDx").Some?
  }

  /** The PackML status rule, consulted only when the event rule does not
      apply: a topic mentioning "status" and a non-null service name. */
  predicate StatusRule(topic: string, doc: Document) {
    && StartsWith(topic, "packml")
    && !EventRule(topic, doc)
    && Contains(topic, "status")
    && Field(doc, "ServiceName").Some?
  }

  /** The master-service rule: a "service" topic mentioning "status" and a
      non-null host. */
  predicate HostRule(topic: string, doc: Document) {
    && !StartsWith(topic, "packml")
    && StartsWith(topic, "service")
    && Contains(topic, "status")
    && Field(doc, "Host").Some?
  }

  /** Under the event rule the path is the event template filled with the
      normalised fields and the processing date, and files hold 10 payloads. */
  lemma GetPayloadEvent(topic: string, doc: Document, now: Date)
    requires EventRule(topic, doc)
    ensures GetPayload(topic, Some(doc), now) == Ok(WriteJob(
      EventPath(ValueToString(Field(doc, "telegramTypeFriendly").value),
                ValueToString(Field(doc, "telegramTypeVersion").value),
                ValueToString(Field(doc, "machineIDx").value), now),
      doc.text, 10))
  {
  }

  /** Under the PackML status rule the path names the service, without a
      date, and files hold a single payload. */
  lemma GetPayloadStatus(topic: string, doc: Document, now: Date)
    requires StatusRule(topic, doc)
    ensures GetPayload(topic, Some(doc), now) ==
      Ok(WriteJob(StatusPath(ValueToString(Field(doc, "ServiceName").value)), doc.text, 1))
  {
  }

  /** Under the master-service rule the path names the host and files hold a
      single payload. */
  lemma GetPayloadHost(topic: string, doc: Document, now: Date)
    requires HostRule(topic, doc)
    ensures GetPayload(topic, Some(doc), now) ==
      Ok(WriteJob(HostPath(ValueToString(Field(doc, "Host").value)), doc.text, 1))
  {
  }

  /** When no rule applies (unknown prefix, missing or null field, payload
      that is not an object) the job is unroutable: empty path, batch size 1. */
  lemma GetPayloadUnroutable(topic: string, doc: Document, now: Date)
    requires !EventRule(topic, doc) && !StatusRule(topic, doc) && !HostRule(topic, doc)
    ensures GetPayload(topic, Some(doc), now) == Ok(WriteJob("", doc.text, 1))
  {
  }

  /** The first two '/'-separated segments of a path: the family of data
      it belongs to. */
  function Family(path: string): seq<string> {
    var segments := Split(path, '/');
    if |segments| >= 2 then segments[..2] else segments
  }

  /** A joined path belongs to the family of its first two segments. */
  lemma FamilyOfJoin(parts: seq<string>)
    requires |parts| >= 3 && '/' !in parts[0] && '/' !in parts[1]
    ensures Family(Join(parts, '/')) == parts[..2]
    ensures Join(parts, '/') != ""
  {
    SplitWithSeparator(parts[0], Join(parts[1..], '/'), '/');
    SplitWithSeparator(parts[1], Join(parts[2..], '/'), '/');
    assert parts[1..][1..] == parts[2..];
  }

  /** The rule that routed a job can be read off the first two segments of
      its path, and the path is empty exactly when no rule applied. */
  lemma PathNamesItsRule(topic: string, doc: Document, now: Date)
    ensures var path := GetPayload(topic, Some(doc), now).value.path;
      && (Family(path) == ["packml", "event"] <==> EventRule(topic, doc))
      && (Family(path) == ["packml", "status"] <==> StatusRule(topic, doc))
      && (Family(path) == ["master", "status"] <==> HostRule(topic, doc))
      && (path == "" <==> !EventRule(topic, doc) && !StatusRule(topic, doc) && !HostRule(topic, doc))
  {
    var path := GetPayload(topic, Some(doc), now).value.path;
    FamiliesDistinct();
    if EventRule(topic, doc) {
      EventFamily(topic, doc, now);
    } else if StatusRule(topic, doc) {
      StatusFamily(topic, doc, now);
    } else if HostRule(topic, doc) {
      HostFamily(topic, doc, now);
    } else {
      GetPayloadUnroutable(topic, doc, now);
      assert Family(path) == [""];
    }
  }

  lemma FamiliesDistinct()
    ensures ["packml", "event"] != ["packml", "status"]
    ensures ["packml", "event"] != ["master", "status"]
    ensures ["packml", "status"] != ["master", "status"]
    ensures [""] != ["packml", "event"] && [""] != ["packml", "status"] && [""] != ["master", "status"]
  {
    var event: seq<string> := ["packml", "event"];
    var status: seq<string> := ["packml", "status"];
    var master: seq<string> := ["master", "status"];
    assert |event[1]| != |status[1]|;
    assert master[0][0] != status[0][0];
  }

  lemma EventFamily(topic: string, doc: Document, now: Date)
    requires EventRule(topic, doc)
    ensures var path := GetPayload(topic, Some(doc), now).value.path;
      path != "" && Family(path) == ["packml", "event"]
  {
    GetPayloadEvent(topic, doc, now);
    EventPathFamily(ValueToString(Field(doc, "telegramTypeFriendly").value),
                    ValueToString(Field(doc, "telegramTypeVersion").value),
                    ValueToString(Field(doc, "machineIDx").value), now);
  }

  lemma EventPathFamily(t: string, v: string, m: string, now: Date)
    ensures EventPath(t, v, m, now) != "" && Family(EventPath(t, v, m, now)) == ["packml", "event"]
  {
    FamilyOfJoin(EventSegments(t, v, m, now));
  }

  lemma StatusFamily(topic: string, doc: Document, now: Date)
    requires StatusRule(topic, doc)
    ensures var path := GetPayload(topic, Some(doc), now).value.path;
      path != "" && Family(path) == ["packml", "status"]
  {
    GetPayloadStatus(topic, doc, now);
    StatusPathFamily(ValueToString(Field(doc, "ServiceName").value));
  }

  lemma StatusPathFamily(s: string)
    ensures StatusPath(s) != "" && Family(StatusPath(s)) == ["packml", "status"]
  {
    FamilyOfJoin(["packml", "status", "service_name=" + s]);
  }

  lemma HostFamily(topic: string, doc: Document, now: Date)
    requires HostRule(topic, doc)
    ensures var path := GetPayload(topic, Some(doc), now).value.path;
      path != "" && Family(path) == ["master", "status"]
  {
    GetPayloadHost(topic, doc, now);
    HostPathFamily(ValueToString(Field(doc, "Host").value));
  }

  lemma HostPathFamily(h: string)
    ensures HostPath(h) != "" && Family(HostPath(h)) == ["master", "status"]
  {
    FamilyOfJoin(["master", "status", "host=" + h]);
  }

  lemma LabelledSegmentFree(name: string, value: string, sep: char)
    requires sep !in name && sep !in value
    ensures sep !in name + value
  {
  }

  lemma EventSegmentsFree(t: string, v: string, m: string, now: Date)
    requires '/' !in t && '/' !in v && '/' !in m
    ensures forall i :: 0 <= i < |EventSegments(t, v, m, now)| ==> '/' !in EventSegments(t, v, m, now)[i]
  {
    LabelledSegmentFree("telegram_type=", t, '/');
    LabelledSegmentFree("telegram_version=", v, '/');
    LabelledSegmentFree("machine_idx=", m, '/');
    LabelledSegmentFree("year=", IntToDecimal(now.year), '/');
    LabelledSegmentFree("month=", IntToDecimal(now.month), '/');
    LabelledSegmentFree("day=", IntToDecimal(now.day), '/');
  }

  /** The segments of an event path determine its fields and date. */
  lemma EventSegmentsInjective(t1: string, v1: string, m1: string, d1: Date, t2: string, v2: string, m2: string, d2: Date)
    requires EventSegments(t1, v1, m1, d1) == EventSegments(t2, v2, m2, d2)
    ensures t1 == t2 && v1 == v2 && m1 == m2 && d1 == d2
  {
    var s1 := EventSegments(t1, v1, m1, d1);
    var s2 := EventSegments(t2, v2, m2, d2);
    assert t1 == s1[2][14..] && t2 == s2[2][14..];
    assert v1 == s1[3][17..] && v2 == s2[3][17..];
    assert m1 == s1[4][12..] && m2 == s2[4][12..];
    assert IntToDecimal(d1.year) == s1[5][5..] && IntToDecimal(d2.year) == s2[5][5..];
    assert IntToDecimal(d1.month) == s1[6][6..] && IntToDecimal(d2.month) == s2[6][6..];
    assert IntToDecimal(d1.day) == s1[7][4..] && IntToDecimal(d2.day) == s2[7][4..];
    IntToDecimalInjective(d1.year, d2.year);
    IntToDecimalInjective(d1.month, d2.month);
    IntToDecimalInjective(d1.day, d2.day);
  }

  /** Two event paths are the same exactly when they agree on telegram type,
      telegram version, machine id and processing date, provided the
      normalised field values contain no '/'. */
  lemma EventPathInjective(t1: string, v1: string, m1: string, d1: Date, t2: string, v2: string, m2: string, d2: Date)
    requires '/' !in t1 && '/' !in v1 && '/' !in m1
    requires '/' !in t2 && '/' !in v2 && '/' !in m2
    ensures EventPath(t1, v1, m1, d1) == EventPath(t2, v2, m2, d2) <==>
      t1 == t2 && v1 == v2 && m1 == m2 && d1 == d2
  {
    if EventPath(t1, v1, m1, d1) == EventPath(t2, v2, m2, d2) {
      EventSegmentsFree(t1, v1, m1, d1);
      EventSegmentsFree(t2, v2, m2, d2);
      SplitJoin(EventSegments(t1, v1, m1, d1), '/');
      SplitJoin(EventSegments(t2, v2, m2, d2), '/');
      EventSegmentsInjective(t1, v1, m1, d1, t2, v2, m2, d2);
    }
  }

  /** What the message callback does with one delivery. */
  datatype Callback = Ignored | Sent(job: WriteJob) | Panicked

  /** The message callback: a delivered message is classified and its job
      sent to the dispatch loop; a payload that does not parse makes the
      callback panic (`expect`) instead of sending anything. */
  function OnMessage(msg: Option<Message>, now: Date): (c: Callback)
    ensures msg.None? ==> c == Ignored
    ensures msg.Some? && msg.value.payload.None? ==> c == Panicked
    ensures msg.Some? && msg.value.payload.Some? ==>
      c.Sent? && c.job.payload == msg.value.payload.value.text
    ensures msg.Some? && msg.value.payload.Some? ==>
      c == Sent(GetPayload(msg.value.topic, msg.value.payload, now).value)
  {
    match msg
    case None => Ignored
    case Some(m) =>
      match GetPayload(m.topic, m.payload, now)
      case Err(_) => Panicked
      case Ok(job) => Sent(job)
  }

  /** `MqttConnectOptions::default()` of the bridge: the client id from
      MQTT_CLIENT_ID, the last-will payload defaulting to "Last will for "
      followed by the client id resolved just before. */
  method ConnectOptionsDefault(env: ProcessEnv) returns (o: ConnectOptions)
    modifies env
    ensures (o, env.vars) == ReadOptions(old(env.vars), "MQTT_CLIENT_ID", true)
  {
    var broker, _ := BridgeUtils.EnvDefault(env, "MQTT_BROKER", "tcp://localhost:1883");
    var clientId, _ := BridgeUtils.EnvDefault(env, "MQTT_CLIENT_ID", "rust_client");
    var username, _ := BridgeUtils.EnvDefault(env, "MQTT_USERNAME", "");
    var password, _ := BridgeUtils.EnvDefault(env, "MQTT_PASSWORD", "");
    var lwtTopic, _ := BridgeUtils.EnvDefault(env, "MQTT_LWT_TOPIC", "lwt");
    var lwtPayloadDefault := "Last will for " + clientId;
    var lwtPayload, _ := BridgeUtils.EnvDefault(env, "MQTT_LWT_PAYLOAD", lwtPayloadDefault);
    o := ConnectOptions(broker, clientId, username, password, lwtTopic, lwtPayload);
  }

  /** The bridge's last will names the client id it resolved (the value of
      MQTT_CLIENT_ID, or "rust_client") when MQTT_LWT_PAYLOAD is unset. */
  lemma BridgeLwtNamesClient(vars: map<string, string>)
    requires "MQTT_LWT_PAYLOAD" !in vars
    ensures ReadOptions(vars, "MQTT_CLIENT_ID", true).0.lwtPayload ==
      "Last will for " + Resolved(vars, "MQTT_CLIENT_ID", "rust_client")
  {
    OptionsReadOwnVariables(vars, "MQTT_CLIENT_ID", true);
  }

  /** The subscription made on a successful connection: the topics of
      `MQTT_TOPICS` (default "#"), each with quality of service 1. */
  method SubscriptionOnConnect(env: ProcessEnv) returns (topics: seq<string>, qos: seq<int>)
    modifies env
    ensures topics == ParseTopics(Resolved(old(env.vars), "MQTT_TOPICS", "#"))
    ensures |qos| == |topics| && forall i :: 0 <= i < |qos| ==> qos[i] == 1
    ensures env.vars == Defaulted(old(env.vars), "MQTT_TOPICS", "#")
  {
    var list, _ := BridgeUtils.EnvDefault(env, "MQTT_TOPICS", "#");
    topics := ParseTopics(list);
    qos := UniformQos(topics);
  }

  /** With `MQTT_TOPICS` unset the bridge subscribes to every topic. */
  lemma DefaultSubscription(vars: map<string, string>)
    requires "MQTT_TOPICS" !in vars
    ensures ParseTopics(Resolved(vars, "MQTT_TOPICS", "#")) == ["#"]
  {
    ParseTopicsOfJoin(["#"]);
  }
}
