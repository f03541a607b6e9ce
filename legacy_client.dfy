/** The earlier, stand-alone client (mqtt-client/src/main.rs): its message
    classifier, whose per-rule paths never reach the job, the corrected
    classifier, and its configuration read without defaults. */
module LegacyClient {
  import opened Wrappers
  import opened Text
  import opened Values
  import opened Types
  import opened Env
  import opened Topics
  import opened Classifier
  import opened Dispatch

  /** The path each rule's inner `let path = format!(...)` binding computes:
      the bridge's path for the same message. */
  function InnerPath(topic: string, doc: Document, now: Date): string {
    GetPayload(topic, Some(doc), now).value.path
  }

  /** `get_payload` as written: each rule binds a new `path` that shadows
      the outer, empty one and is dropped at the end of its block, so every
      job leaves with the outer path and a batch size of 2. */
  function GetPayloadAsWritten(topic: string, payload: Option<Document>, now: Date): (r: Result<WriteJob, ParseError>)
    ensures r.Err? <==> payload.None?
    ensures r.Ok? ==> r.value.payload == payload.value.text
  {
    match payload
    case None => Err(ParseError)
    case Some(doc) =>
      var path := "";
      var _ := InnerPath(topic, doc, now);
      Ok(WriteJob(path, doc.text, 2))
  }

  /** `get_payload` as evidently intended: each rule assigns the outer path,
      the batch size staying 2. */
  function GetPayloadCorrected(topic: string, payload: Option<Document>, now: Date): (r: Result<WriteJob, ParseError>)
    ensures r.Err? <==> payload.None?
    ensures r.Ok? ==> r.value.payload == payload.value.text && r.value.nPerFile == 2
  {
    match payload
    case None => Err(ParseError)
    case Some(doc) => Ok(WriteJob(InnerPath(topic, doc, now), doc.text, 2))
  }

  /** Whatever rule matched, the job as written has an empty path, even
      when the rule computed a non-empty one. */
  lemma ShadowingDropsThePath(topic: string, doc: Document, now: Date)
    requires EventRule(topic, doc) || StatusRule(topic, doc) || HostRule(topic, doc)
    ensures InnerPath(topic, doc, now) != ""
    ensures GetPayloadAsWritten(topic, Some(doc), now).value.path == ""
  {
    PathNamesItsRule(topic, doc, now);
  }

  /** A master-service status message with a host: the rule computes
      master/status/host=h1, the job as written carries no path. */
  lemma ShadowingExample(now: Date)
    ensures var doc := Document(map["Host" := Some("\"h1\"")], "{\"Host\":\"h1\"}");
      && InnerPath("service/status", doc, now) != ""
      && GetPayloadAsWritten("service/status", Some(doc), now).value.path == ""
  {
    var topic := "service/status";
    var doc := Document(map["Host" := Some("\"h1\"")], "{\"Host\":\"h1\"}");
    assert OccursAt(topic, "status", 8);
    ContainsAt(topic, "status");
    assert topic[..6] != "packml" by { assert topic[0] != "packml"[0]; }
    assert topic[..7] == "service";
    ShadowingDropsThePath(topic, doc, now);
  }

  /** The jobs the client's loop receives for a stream of parsed messages. */
  function LegacyJobs(topics: seq<string>, docs: seq<Document>, now: Date): (jobs: seq<WriteJob>)
    requires |topics| == |docs|
    ensures |jobs| == |docs|
    ensures forall i :: 0 <= i < |jobs| ==> jobs[i].path == "" && jobs[i].nPerFile == 2
  {
    seq(|docs|, i requires 0 <= i < |docs| => GetPayloadAsWritten(topics[i], Some(docs[i]), now).value)
  }

  /** Consequently the client's loop never buffers and never uploads
      anything, whatever it receives. */
  lemma {:induction false} NothingIsEverBuffered(o: Outcome, jobs: seq<WriteJob>, rejects: Option<nat>)
    requires forall i :: 0 <= i < |jobs| ==> jobs[i].path == ""
    ensures Run(o, jobs, rejects) == o
    decreases |jobs|
  {
    if jobs != [] && !o.failed {
      assert Apply(o, jobs[0], rejects) == o;
      NothingIsEverBuffered(o, jobs[1..], rejects);
    }
  }

  /** The corrected classifier gives a path exactly when a rule applies,
      and the loop then buffers the job under that path. */
  lemma CorrectedJobIsBuffered(topic: string, doc: Document, now: Date, entries: map<string, seq<string>>)
    ensures var job := GetPayloadCorrected(topic, Some(doc), now).value;
      && (job.path != "" <==> EventRule(topic, doc) || StatusRule(topic, doc) || HostRule(topic, doc))
      && (job.path != "" ==> job.path in Next(entries, job).entries)
  {
    PathNamesItsRule(topic, doc, now);
  }

  /** What the client's message callback does with one delivery. */
  function OnMessageAsWritten(msg: Option<Message>, now: Date): (c: Callback)
    ensures msg.None? ==> c == Ignored
    ensures msg.Some? && msg.value.payload.None? ==> c == Panicked
    ensures c.Sent? ==> c.job.path == "" && c.job.nPerFile == 2
    ensures msg.Some? && msg.value.payload.Some? ==>
      c.Sent? && c.job.payload == msg.value.payload.value.text
  {
    match msg
    case None => Ignored
    case Some(m) =>
      match GetPayloadAsWritten(m.topic, m.payload, now)
      case Err(_) => Panicked
      case Ok(job) => Sent(job)
  }

  /** The subscription of `on_connect_success`: `MQTT_TOPICS` must be set
      (`get_env` panics otherwise, here `None`). */
  function SubscriptionTopics(vars: map<string, string>): (r: Option<(seq<string>, seq<int>)>)
    ensures r.Some? <==> "MQTT_TOPICS" in vars
    ensures r.Some? ==> r.value.0 == ParseTopics(vars["MQTT_TOPICS"])
    ensures r.Some? ==> |r.value.1| == |r.value.0| && forall i :: 0 <= i < |r.value.1| ==> r.value.1[i] == 1
  {
    match GetEnv(vars, "MQTT_TOPICS")
    case None => None
    case Some(list) =>
      var topics := ParseTopics(list);
      Some((topics, UniformQos(topics)))
  }

  /** `MqttConnectOptions::default()` of this client: every option must be
      set, there are no defaults (`None` where `get_env` panics). */
  function ConnectOptionsFromEnv(vars: map<string, string>): (r: Option<ConnectOptions>)
    ensures r.Some? <==>
      && "MQTT_BROKER" in vars && "MQTT_CLIENT" in vars && "MQTT_USERNAME" in vars
      && "MQTT_PASSWORD" in vars && "MQTT_LWT_TOPIC" in vars && "MQTT_LWT_PAYLOAD" in vars
    ensures r.Some? ==> r.value == ConnectOptions(vars["MQTT_BROKER"], vars["MQTT_CLIENT"], vars["MQTT_USERNAME"],
                                                  vars["MQTT_PASSWORD"], vars["MQTT_LWT_TOPIC"], vars["MQTT_LWT_PAYLOAD"])
  {
    match (GetEnv(vars, "MQTT_BROKER"), GetEnv(vars, "MQTT_CLIENT"), GetEnv(vars, "MQTT_USERNAME"),
           GetEnv(vars, "MQTT_PASSWORD"), GetEnv(vars, "MQTT_LWT_TOPIC"), GetEnv(vars, "MQTT_LWT_PAYLOAD"))
    case (Some(broker), Some(clientId), Some(username), Some(password), Some(lwtTopic), Some(lwtPayload)) =>
      Some(ConnectOptions(broker, clientId, username, password, lwtTopic, lwtPayload))
    case _ => None
  }
}
