/** Records shared by the client and the bridge (mqtt-client/src/types.rs). */
module Types {
  import opened Env
  import ClientUtils

  /** One routed message on its way to the dispatch loop: the destination
      path (empty when the message could not be routed), the serialised
      payload, and the number of payloads that make one file. */
  datatype WriteJob = WriteJob(path: string, payload: string, nPerFile: int)

  /** `WriteJob::default()`. */
  function DefaultWriteJob(): (job: WriteJob)
    ensures job.path == "" && job.payload == "" && job.nPerFile == 1
  {
    WriteJob("", "", 1)
  }

  /** Connection options for the MQTT client. */
  datatype ConnectOptions = ConnectOptions(
    broker: string,
    clientId: string,
    username: string,
    password: string,
    lwtTopic: string,
    lwtPayload: string)

  /** The last-will payload used when `MQTT_LWT_PAYLOAD` is unset: the
      bridge names the resolved client id, the client always names
      'rust_client'. */
  function LwtDefault(namesClient: bool, clientId: string): string {
    if namesClient then "Last will for " + clientId else "Last will for 'rust_client'"
  }

  /** The six `env_default` calls of `MqttConnectOptions::default()`, in
      order, over the environment `vars`: the options they yield and the
      environment they leave. `clientKey` is the variable holding the client
      id. */
  function ReadOptions(vars: map<string, string>, clientKey: string, lwtNamesClient: bool): (ConnectOptions, map<string, string>) {
    var broker := Resolved(vars, "MQTT_BROKER", "tcp://localhost:1883");
    var v1 := Defaulted(vars, "MQTT_BROKER", "tcp://localhost:1883");
    var clientId := Resolved(v1, clientKey, "rust_client");
    var v2 := Defaulted(v1, clientKey, "rust_client");
    var username := Resolved(v2, "MQTT_USERNAME", "");
    var v3 := Defaulted(v2, "MQTT_USERNAME", "");
    var password := Resolved(v3, "MQTT_PASSWORD", "");
    var v4 := Defaulted(v3, "MQTT_PASSWORD", "");
    var lwtTopic := Resolved(v4, "MQTT_LWT_TOPIC", "lwt");
    var v5 := Defaulted(v4, "MQTT_LWT_TOPIC", "lwt");
    var lwtDefault := LwtDefault(lwtNamesClient, clientId);
    (ConnectOptions(broker, clientId, username, password, lwtTopic, Resolved(v5, "MQTT_LWT_PAYLOAD", lwtDefault)),
     Defaulted(v5, "MQTT_LWT_PAYLOAD", lwtDefault))
  }

  /** The client-id variable of the client or of the bridge. */
  predicate ClientKey(key: string) {
    key == "MQTT_CLIENT" || key == "MQTT_CLIENT_ID"
  }

  /** No two of the six option variables are the same. */
  lemma OptionKeysDistinct(clientKey: string)
    requires ClientKey(clientKey)
    ensures var keys := ["MQTT_BROKER", clientKey, "MQTT_USERNAME", "MQTT_PASSWORD", "MQTT_LWT_TOPIC", "MQTT_LWT_PAYLOAD"];
      forall i, j :: 0 <= i < j < |keys| ==> keys[i] != keys[j]
  {
    assert "MQTT_BROKER"[5] == 'B' && clientKey[5] == 'C' && "MQTT_USERNAME"[5] == 'U';
    assert "MQTT_PASSWORD"[5] == 'P' && "MQTT_LWT_TOPIC"[5] == 'L' && "MQTT_LWT_PAYLOAD"[5] == 'L';
    assert "MQTT_LWT_TOPIC"[9] != "MQTT_LWT_PAYLOAD"[9];
  }

  /** Each option is its own variable's value or its own default, as if it
      were read alone: the calls before it never write its variable. */
  lemma OptionsReadOwnVariables(vars: map<string, string>, clientKey: string, lwtNamesClient: bool)
    requires ClientKey(clientKey)
    ensures var o := ReadOptions(vars, clientKey, lwtNamesClient).0;
      && o.broker == Resolved(vars, "MQTT_BROKER", "tcp://localhost:1883")
      && o.clientId == Resolved(vars, clientKey, "rust_client")
      && o.username == Resolved(vars, "MQTT_USERNAME", "")
      && o.password == Resolved(vars, "MQTT_PASSWORD", "")
      && o.lwtTopic == Resolved(vars, "MQTT_LWT_TOPIC", "lwt")
      && o.lwtPayload == Resolved(vars, "MQTT_LWT_PAYLOAD", LwtDefault(lwtNamesClient, o.clientId))
  {
    OptionKeysDistinct(clientKey);
    var lwtDefault := LwtDefault(lwtNamesClient, Resolved(vars, clientKey, "rust_client"));
    var v1 := Defaulted(vars, "MQTT_BROKER", "tcp://localhost:1883");
    var v2 := Defaulted(v1, clientKey, "rust_client");
    var v3 := Defaulted(v2, "MQTT_USERNAME", "");
    var v4 := Defaulted(v3, "MQTT_PASSWORD", "");
    ResolvedElsewhere(vars, "MQTT_BROKER", "tcp://localhost:1883", clientKey, "rust_client");
    ResolvedElsewhere(v1, clientKey, "rust_client", "MQTT_USERNAME", "");
    ResolvedElsewhere(vars, "MQTT_BROKER", "tcp://localhost:1883", "MQTT_USERNAME", "");
    ResolvedElsewhere(v2, "MQTT_USERNAME", "", "MQTT_PASSWORD", "");
    ResolvedElsewhere(v1, clientKey, "rust_client", "MQTT_PASSWORD", "");
    ResolvedElsewhere(vars, "MQTT_BROKER", "tcp://localhost:1883", "MQTT_PASSWORD", "");
    ResolvedElsewhere(v3, "MQTT_PASSWORD", "", "MQTT_LWT_TOPIC", "lwt");
    ResolvedElsewhere(v2, "MQTT_USERNAME", "", "MQTT_LWT_TOPIC", "lwt");
    ResolvedElsewhere(v1, clientKey, "rust_client", "MQTT_LWT_TOPIC", "lwt");
    ResolvedElsewhere(vars, "MQTT_BROKER", "tcp://localhost:1883", "MQTT_LWT_TOPIC", "lwt");
    ResolvedElsewhere(v4, "MQTT_LWT_TOPIC", "lwt", "MQTT_LWT_PAYLOAD", lwtDefault);
    ResolvedElsewhere(v3, "MQTT_PASSWORD", "", "MQTT_LWT_PAYLOAD", lwtDefault);
    ResolvedElsewhere(v2, "MQTT_USERNAME", "", "MQTT_LWT_PAYLOAD", lwtDefault);
    ResolvedElsewhere(v1, clientKey, "rust_client", "MQTT_LWT_PAYLOAD", lwtDefault);
    ResolvedElsewhere(vars, "MQTT_BROKER", "tcp://localhost:1883", "MQTT_LWT_PAYLOAD", lwtDefault);
  }

  /** Reading the options keeps every variable already set and leaves all
      six option variables set. */
  lemma OptionsWrittenBack(vars: map<string, string>, clientKey: string, lwtNamesClient: bool)
    requires ClientKey(clientKey)
    ensures var after := ReadOptions(vars, clientKey, lwtNamesClient).1;
      && (forall k :: k in vars ==> k in after && after[k] == vars[k])
      && "MQTT_BROKER" in after && clientKey in after && "MQTT_USERNAME" in after
      && "MQTT_PASSWORD" in after && "MQTT_LWT_TOPIC" in after && "MQTT_LWT_PAYLOAD" in after
  {
  }

  /** With nothing set, the client connects to a local broker as
      rust_client, without credentials, and its last will names
      'rust_client'. */
  lemma ClientDefaults()
    ensures ReadOptions(map[], "MQTT_CLIENT", false).0 ==
      ConnectOptions("tcp://localhost:1883", "rust_client", "", "", "lwt", "Last will for 'rust_client'")
  {
    OptionsReadOwnVariables(map[], "MQTT_CLIENT", false);
  }

  /** The last will of the client names 'rust_client' whatever client id is
      configured. */
  lemma ClientLwtIgnoresClientId(vars: map<string, string>)
    requires "MQTT_LWT_PAYLOAD" !in vars
    ensures ReadOptions(vars, "MQTT_CLIENT", false).0.lwtPayload == "Last will for 'rust_client'"
  {
    OptionsReadOwnVariables(vars, "MQTT_CLIENT", false);
  }

  /** `MqttConnectOptions::default()` of the client (types.rs): the client
      id from MQTT_CLIENT, the fixed last-will default. */
  method ClientConnectOptions(env: ProcessEnv) returns (o: ConnectOptions)
    modifies env
    ensures (o, env.vars) == ReadOptions(old(env.vars), "MQTT_CLIENT", false)
  {
    var broker, _ := ClientUtils.EnvDefault(env, "MQTT_BROKER", "tcp://localhost:1883");
    var clientId, _ := ClientUtils.EnvDefault(env, "MQTT_CLIENT", "rust_client");
    var username, _ := ClientUtils.EnvDefault(env, "MQTT_USERNAME", "");
    var password, _ := ClientUtils.EnvDefault(env, "MQTT_PASSWORD", "");
    var lwtTopic, _ := ClientUtils.EnvDefault(env, "MQTT_LWT_TOPIC", "lwt");
    var lwtPayload, _ := ClientUtils.EnvDefault(env, "MQTT_LWT_PAYLOAD", "Last will for 'rust_client'");
    o := ConnectOptions(broker, clientId, username, password, lwtTopic, lwtPayload);
  }
}
