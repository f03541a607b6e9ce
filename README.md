# MQTT to Data Lake bridge, and the Fibonacci toy, in Dafny

This project models the core of `rust-learn` in Dafny and proves properties of
that model. The core is a bridge that subscribes to an MQTT broker, classifies
each message by topic and payload into a write job, buffers payloads per
destination path, and uploads full batches to an Azure Data Lake file system.
The repository holds it in three forms:

- the bridge library (`mqtt_adls_bridge`): its classifier, connection
  defaults and environment helpers;
- the stand-alone client (`mqtt-client`): an earlier classifier and client
  in `main.rs`, the dispatch loop in `bin/main.rs`, the blocking session in
  `core.rs`, and `upload_data` in `adls.rs`;
- a small Fibonacci program (`fibonnachi`) with a memoised recursive
  function and a line parser that falls back to -1.

Modules, one per file:

| file | module | models |
|---|---|---|
| `wrappers.dfy` | `Wrappers` | `Option`, `Result` |
| `text.dfy` | `Text` | `trim`, `replace`, `split`, `starts_with`, `contains`, ASCII `to_lowercase`, `{}` on integers |
| `values.dfy` | `Values` | a parsed JSON payload, field indexing, `value_to_string` |
| `env.dfy` | `Env` | the process environment, `get_env` |
| `bridge_utils.dfy` | `BridgeUtils` | `env_default` and `init_log` of the bridge (masking by substring) |
| `client_utils.dfy` | `ClientUtils` | `env_default` and `init_log` of the client (masking by exact name) |
| `types.dfy` | `Types` | `WriteJob`, `MqttConnectOptions::default()` |
| `topics.dfy` | `Topics` | the `MQTT_TOPICS` list and its qualities of service |
| `classifier.dfy` | `Classifier` | the bridge's `get_payload`, message callback, connection defaults, subscription |
| `dispatch.dfy` | `Dispatch` | the dispatch loop: per-path buffers, batch uploads, a failing upload |
| `legacy_client.dfy` | `LegacyClient` | the client's `get_payload` (as written and corrected), its configuration |
| `session.dfy` | `Core` | `MqttClient`: configuration, reconnect loop, subscription, routing, disconnect |
| `upload.dfy` | `Adls` | `upload_data`: create, append at running offsets, flush |
| `fibonacci.dfy` | `Fibonacci` | `fibonacci` with its cache, `i64` parsing, `main` |

Inputs that are not computed by the program are parameters of the model:
- the date (`Classifier.Date`);
- the parsed JSON payload (`Values.Document`: each field's serialised value, or
  null, and the serialisation of the whole payload);
- the environment (`Env.ProcessEnv`);
- the broker's answers to reconnects and subscriptions (`reconnectOk`,
  `subscribeOk`: the outcome of the k-th call);
- the data lake's answer (the index of the rejected upload or store call,
  `rejects` / `rejected`).

A panic, a `process::exit` or a `?` on an error becomes an explicit value:
- `None`;
- `Err`;
- `Callback.Panicked`;
- `Exit.SubscribeFailed` (`process::exit(1)` in `subscribe_topics`,
  `mqtt-client/src/core.rs:172-181`);
- `Outcome.failed`.

`Exit.ReconnectFailed` is not an error path: it is the plain `break` that
ends the receive loop when every reconnect attempt is refused
(`mqtt-client/src/core.rs:217-222`).

The bridge's message callback panics through `expect("Error getting path")`
on a payload that does not parse (`mqtt_adls_bridge/src/mqtt.rs:179`); it
never skips such a message. This is `Classifier.OnMessage`.

## Model

| member | source | states |
|---|---|---|
| Text.Trim | mqtt_adls_bridge/src/utils.rs:48 | `str::trim` yields an infix of its argument that neither starts nor ends with Unicode whitespace, and only whitespace surrounds it |
| Text.TrimStart | mqtt_adls_bridge/src/utils.rs:48 | the result is a suffix, starts with non-whitespace, and only whitespace was dropped |
| Text.TrimEnd | mqtt_adls_bridge/src/utils.rs:48 | the result is a prefix, ends with non-whitespace, and only whitespace was dropped |
| Text.TrimOfTrimmed | mqtt_adls_bridge/src/utils.rs:48 | trimming is the identity on a trimmed string |
| Text.RemoveAll | mqtt_adls_bridge/src/utils.rs:48 | `replace("\"", "")` leaves no quote and keeps every other character in order |
| Text.RemoveAllAppend | mqtt_adls_bridge/src/utils.rs:48 | quote removal distributes over concatenation |
| Text.ContainsAt | mqtt_adls_bridge/src/mqtt.rs:67 | `contains` holds exactly when the pattern occurs at some position |
| Text.Lower | mqtt_adls_bridge/src/utils.rs:11 | lower-casing keeps the length and maps each character |
| Text.Split | mqtt_adls_bridge/src/mqtt.rs:116-119 | `split` yields at least one piece and no piece holds the separator |
| Text.SplitCount | mqtt_adls_bridge/src/mqtt.rs:116-119 | `n` separators give `n + 1` pieces |
| Text.JoinSplit | mqtt_adls_bridge/src/mqtt.rs:116-119 | joining the pieces of a split gives back the string |
| Text.SplitJoin | mqtt_adls_bridge/src/mqtt.rs:116-119 | splitting a join of separator-free pieces gives back the pieces |
| Text.SplitPiece | mqtt_adls_bridge/src/mqtt.rs:116-119 | a separator-free string splits into itself |
| Text.SplitWithSeparator | mqtt_adls_bridge/src/mqtt.rs:72-80 | a separator-free first segment is split off whole |
| Text.NatToDecimal | mqtt_adls_bridge/src/mqtt.rs:77-79 | `{}` gives digits only, with no leading zero |
| Text.IntToDecimal | mqtt_adls_bridge/src/mqtt.rs:77-79 | a rendered integer holds neither '/' nor '=' |
| Text.DecimalRoundTrip | fibonnachi/src/main.rs:19-22 | reading back the rendered digits gives the number |
| Text.IntToDecimalInjective | mqtt_adls_bridge/src/mqtt.rs:77-79 | different integers render differently |
| Text.NatToDecimalInjective | mqtt_adls_bridge/src/mqtt.rs:77-79 | different naturals render differently |
| Text.NegativeDigits | fibonnachi/src/main.rs:26 | a negative number renders as '-' and the digits of its magnitude |
| Values.Field | mqtt_adls_bridge/src/mqtt.rs:62-65 | indexing gives a value exactly when the field exists and is not null |
| Values.ValueToString | mqtt_adls_bridge/src/utils.rs:46-49 | the result holds no double quote and is no longer than its input |
| Values.ValueToStringOfQuoted | mqtt_adls_bridge/src/utils.rs:46-49 | a quoted JSON string without inner quotes gives its bare text |
| Values.ValueToStringOfBare | mqtt-client/src/utils.rs:37-40 | an unquoted, trimmed serialisation comes out unchanged |
| Env.ProcessEnv.constructor | mqtt-client/src/core.rs:23-32 | the environment holds the given variables |
| Env.DefaultedSticky | mqtt_adls_bridge/src/utils.rs:22-28 | once defaulted, a variable keeps its value whatever later default is passed |
| Env.ResolvedElsewhere | mqtt_adls_bridge/src/utils.rs:22-28 | defaulting one variable never changes what another resolves to |
| Env.GetEnv | mqtt-client/src/core.rs:23-32 | `get_env` yields the value exactly when the variable is set, and fails (panics) otherwise |
| BridgeUtils.EnvDefault | mqtt_adls_bridge/src/utils.rs:6-29 | returns the value or the default; writes the default back when unset; logs the value, masked when the key contains password or cert |
| BridgeUtils.InitLog | mqtt_adls_bridge/src/utils.rs:34-41 | RUST_LOG defaults to "info" and is otherwise kept |
| BridgeUtils.PasswordVariableMasked | mqtt_adls_bridge/src/utils.rs:8-11 | MQTT_PASSWORD is masked: the match is on a substring of the lower-cased key |
| ClientUtils.EnvDefault | mqtt-client/src/utils.rs:6-23 | as the bridge's, but masking only a key that lower-cases to exactly password or cert |
| ClientUtils.InitLog | mqtt-client/src/utils.rs:28-32 | RUST_LOG defaults to "info" and is otherwise kept |
| ClientUtils.MaskingIsExact | mqtt-client/src/utils.rs:7-10 | "Password" and "CERT" are masked, MQTT_PASSWORD is logged in clear |
| Types.DefaultWriteJob | mqtt-client/src/types.rs:13-21 | empty path, empty payload, batch size 1 |
| Types.OptionKeysDistinct | mqtt-client/src/types.rs:38-43 | the six option variables are pairwise distinct |
| Types.OptionsReadOwnVariables | mqtt-client/src/types.rs:38-43 | each option is its own variable's value or its default, as if read alone |
| Types.OptionsWrittenBack | mqtt-client/src/types.rs:38-43 | reading the options keeps every set variable and leaves all six set |
| Types.ClientDefaults | mqtt-client/src/types.rs:38-43 | with nothing set: local broker, rust_client, no credentials, topic lwt, last will for 'rust_client' |
| Types.ClientLwtIgnoresClientId | mqtt-client/src/types.rs:43 | the client's default last will names 'rust_client' whatever client id is configured |
| Types.ClientConnectOptions | mqtt-client/src/types.rs:34-54 | the options and the environment left behind are those of the six `env_default` calls in order |
| Topics.ParseTopics | mqtt_adls_bridge/src/mqtt.rs:116-119 | one topic per comma plus one, each trimmed and comma-free |
| Topics.UniformQos | mqtt_adls_bridge/src/mqtt.rs:123 | one quality of service 1 per topic |
| Topics.BuildQos | mqtt-client/src/core.rs:70-74 | the loop pushes one 1 per topic |
| Topics.ParseTopicsOfJoin | mqtt_adls_bridge/src/mqtt.rs:116-119 | trimmed comma-free topics written as a list parse back to themselves |
| Topics.ParseTopicsTrimsPieces | mqtt_adls_bridge/src/mqtt.rs:116-119 | each piece becomes its trimmed self; nothing merged or skipped |
| Topics.BlankPieceKept | mqtt_adls_bridge/src/mqtt.rs:116-119 | a blank piece is kept as an empty topic |
| Topics.BlankTrimmed | mqtt_adls_bridge/src/mqtt.rs:118 | an all-whitespace string trims to nothing |
| Classifier.GetPayload | mqtt_adls_bridge/src/mqtt.rs:46-106 | an error exactly when the payload does not parse; otherwise the payload text with batch size 1 or 10 |
| Classifier.GetPayloadEvent | mqtt_adls_bridge/src/mqtt.rs:67-82 | the event rule gives the dated event path from the normalised fields, batch size 10 |
| Classifier.GetPayloadStatus | mqtt_adls_bridge/src/mqtt.rs:83-89 | the PackML status rule gives packml/status/service_name=S, batch size 1 |
| Classifier.GetPayloadHost | mqtt_adls_bridge/src/mqtt.rs:90-95 | the master-service rule gives master/status/host=H, batch size 1 |
| Classifier.GetPayloadUnroutable | mqtt_adls_bridge/src/mqtt.rs:56-58 | with no rule the path is empty and the batch size 1 |
| Classifier.FamilyOfJoin | mqtt_adls_bridge/src/mqtt.rs:72-93 | a joined path is non-empty and its first two segments are the first two parts |
| Classifier.PathNamesItsRule | mqtt_adls_bridge/src/mqtt.rs:60-96 | each rule applies exactly when the path's first two segments name it; the path is empty exactly when none applies |
| Classifier.EventFamily | mqtt_adls_bridge/src/mqtt.rs:67-82 | an event job's path starts packml/event |
| Classifier.EventPathFamily | mqtt_adls_bridge/src/mqtt.rs:72-80 | every event path starts packml/event |
| Classifier.StatusFamily | mqtt_adls_bridge/src/mqtt.rs:83-89 | a PackML status job's path starts packml/status |
| Classifier.StatusPathFamily | mqtt_adls_bridge/src/mqtt.rs:84-87 | every status path starts packml/status |
| Classifier.HostFamily | mqtt_adls_bridge/src/mqtt.rs:90-95 | a master-service job's path starts master/status |
| Classifier.HostPathFamily | mqtt_adls_bridge/src/mqtt.rs:93 | every host path starts master/status |
| Classifier.EventSegmentsFree | mqtt_adls_bridge/src/mqtt.rs:72-80 | slash-free fields give slash-free segments |
| Classifier.EventSegmentsInjective | mqtt_adls_bridge/src/mqtt.rs:72-80 | the segments determine type, version, machine and date |
| Classifier.EventPathInjective | mqtt_adls_bridge/src/mqtt.rs:72-80 | two event paths are equal exactly when type, version, machine and date agree (slash-free fields) |
| Classifier.OnMessage | mqtt_adls_bridge/src/mqtt.rs:176-184 | no message is ignored, an unparsable one panics, any other sends exactly the job `get_payload` builds for it |
| Classifier.ConnectOptionsDefault | mqtt_adls_bridge/src/mqtt.rs:19-40 | the six `env_default` calls in order, client id from MQTT_CLIENT_ID, last will naming that id |
| Classifier.BridgeLwtNamesClient | mqtt_adls_bridge/src/mqtt.rs:28-29 | in any environment without MQTT_LWT_PAYLOAD the last will is "Last will for " and the client id resolved just before (MQTT_CLIENT_ID or "rust_client") |
| Classifier.SubscriptionOnConnect | mqtt_adls_bridge/src/mqtt.rs:110-128 | subscribes the parsed MQTT_TOPICS (default "#") with quality of service 1 each, writing the default back |
| Classifier.DefaultSubscription | mqtt_adls_bridge/src/mqtt.rs:116 | with MQTT_TOPICS unset the bridge subscribes to "#" only |
| Dispatch.UploadFor | mqtt-client/src/bin/main.rs:63-70 | container raw, path rust-tests/ and the job path, the lines in order, extension json |
| Dispatch.Next | mqtt-client/src/bin/main.rs:37-78 | only the job's path changes; a routed path is kept; an upload carries the buffered lines and the new payload |
| Dispatch.Apply | mqtt-client/src/bin/main.rs:63-72 | the upload is recorded; the step fails exactly when its upload is the rejected one; otherwise the buffers are the loop step's, and a failed step keeps the appended buffer |
| Dispatch.Run | mqtt-client/src/bin/main.rs:37-78 | the uploads only grow, and a failed loop does nothing more |
| Dispatch.BatchBuffer.constructor | mqtt-client/src/bin/main.rs:34 | no buffer, nothing uploaded |
| Dispatch.BatchBuffer.Dispatch | mqtt-client/src/bin/main.rs:40-74 | the in-place update of one job is the step `Apply` |
| Dispatch.BatchBuffer.Drain | mqtt-client/src/bin/main.rs:37-78 | the loop over the jobs is `Run` |
| Dispatch.UnroutableSkipped | mqtt-client/src/bin/main.rs:40 | a job with an empty path changes nothing |
| Dispatch.VacantInserted | mqtt-client/src/bin/main.rs:44-47 | a new path starts its buffer with the payload, whatever the batch size |
| Dispatch.OccupiedAppended | mqtt-client/src/bin/main.rs:49-74 | a known path appends; reaching the batch size uploads the lines and empties the buffer |
| Dispatch.Chunks | mqtt-client/src/bin/main.rs:56 | every batch has exactly the batch size |
| Dispatch.Remainder | mqtt-client/src/bin/main.rs:56 | what is left is shorter than a batch |
| Dispatch.ChunksRoundTrip | mqtt-client/src/bin/main.rs:54-72 | the batches and the rest are the payloads, in order, none lost or duplicated |
| Dispatch.FlushEveryN | mqtt-client/src/bin/main.rs:37-78 | jobs of one path with batch size at least 2 upload every full batch in order and leave the rest buffered |
| Dispatch.FlushEveryNInterleaved | mqtt-client/src/bin/main.rs:37-78 | for any interleaving of paths, with one batch size of at least 2 per path and no faults, the uploads to a path's file are exactly the full batches of its payloads in order, and its buffer ends as the rest |
| Dispatch.OwnPathStep | mqtt-client/src/bin/main.rs:40-74 | one job of the path either completes the first batch, which is uploaded to its file, or only appends |
| Dispatch.OtherPathStep | mqtt-client/src/bin/main.rs:40-74 | a job for another path neither changes the path's buffer nor uploads to its file |
| Dispatch.UploadsToAppend | mqtt-client/src/bin/main.rs:63-68 | the uploads to one file grow by an upload exactly when it names that file |
| Dispatch.FlushCompletesBatch | mqtt-client/src/bin/main.rs:56-72 | the induction step of `FlushEveryN` when the first job completes a batch |
| Dispatch.CompletedBatch | mqtt-client/src/bin/main.rs:56-72 | the job that completes a batch uploads it and empties the buffer |
| Dispatch.FullBatchUploaded | mqtt-client/src/bin/main.rs:56-72 | a buffer one short of a batch plus one payload is the first batch |
| Dispatch.FlushGrowsBuffer | mqtt-client/src/bin/main.rs:54 | the induction step of `FlushEveryN` when the first job only appends |
| Dispatch.GrownBuffer | mqtt-client/src/bin/main.rs:54 | a job short of the batch size appends and uploads nothing |
| Dispatch.OneJobOfPath | mqtt-client/src/bin/main.rs:44-74 | one job of a path either grows its buffer or, at the batch size, uploads and empties it |
| Dispatch.OtherPathsUntouched | mqtt-client/src/bin/main.rs:42 | jobs for other paths never touch a path's buffer |
| Dispatch.BatchesOfAppend | mqtt-client/src/bin/main.rs:54-56 | adding one payload to a short buffer completes the first batch or changes no batch |
| Dispatch.ThresholdOneNeverFlushes | mqtt-client/src/bin/main.rs:44-56 | with batch size 1 nothing is ever uploaded and every payload stays buffered |
| Dispatch.RejectionStopsTheLoop | mqtt-client/src/bin/main.rs:63-72 | a rejected upload fails the loop exactly when the fault-free run reaches it, after the same uploads |
| Dispatch.NextCorrected | mqtt-client/src/bin/main.rs:44-56 | the intended step agrees with the loop except for a new path with batch size 1 |
| Dispatch.CorrectedFlushesAtThreshold | mqtt-client/src/bin/main.rs:54-72 | under the intended step a buffer stays below its batch size, uploading each batch exactly when it fills |
| Dispatch.CorrectedThresholdOneUploadsEach | mqtt-client/src/bin/main.rs:44-56 | under the intended step batch size 1 uploads each payload alone |
| Dispatch.ThresholdOneFirstPayloadKept | mqtt-client/src/bin/main.rs:44-47 | the loop keeps a new path's payload where the intended step uploads it |
| LegacyClient.InnerPath | mqtt-client/src/main.rs:53-73 | each rule's inner path is the bridge's path for the message |
| LegacyClient.GetPayloadAsWritten | mqtt-client/src/main.rs:29-86 | an error exactly when the payload does not parse; the job carries the payload text |
| LegacyClient.GetPayloadCorrected | mqtt-client/src/main.rs:29-86 | as written, but the job takes the rule's path; batch size 2 |
| LegacyClient.ShadowingDropsThePath | mqtt-client/src/main.rs:39-79 | whenever a rule computes a non-empty path, the job as written has an empty one |
| LegacyClient.ShadowingExample | mqtt-client/src/main.rs:70-79 | service/status with host h1: the rule computes a path, the job has none |
| LegacyClient.LegacyJobs | mqtt-client/src/main.rs:78-82 | every job the client sends has an empty path and batch size 2 |
| LegacyClient.NothingIsEverBuffered | mqtt-client/src/main.rs:242-279 | the client's loop therefore never buffers nor uploads |
| LegacyClient.CorrectedJobIsBuffered | mqtt-client/src/main.rs:245-252 | with the corrected classifier a job has a path exactly when a rule applies, and is then buffered |
| LegacyClient.OnMessageAsWritten | mqtt-client/src/main.rs:197-205 | no message is ignored, an unparsable one panics, every other is sent with its payload text and no path |
| LegacyClient.SubscriptionTopics | mqtt-client/src/main.rs:96-103 | MQTT_TOPICS must be set; its parsed topics with quality of service 1 each |
| LegacyClient.ConnectOptionsFromEnv | mqtt-client/src/main.rs:134-154 | options exactly when all six variables are set, each option its own variable |
| Core.ReadConfig | mqtt-client/src/core.rs:51-66 | a configuration exactly when the six option variables and MQTT_TOPICS are set; each option is its own variable's value and the topics are parsed |
| Core.InitLog | mqtt-client/src/core.rs:34-48 | RUST_LOG defaults to "info" and is otherwise kept |
| Core.Attempts | mqtt-client/src/core.rs:158-166 | never more than the limit of reconnects |
| Core.AttemptsAtFirstSuccess | mqtt-client/src/core.rs:159-165 | the loop stops at the first accepted reconnect |
| Core.AttemptsWhenAllRefused | mqtt-client/src/core.rs:158-168 | when every reconnect is refused all twelve are made |
| Core.Route | mqtt-client/src/core.rs:201-216 | a warning exactly for a topic that is neither packml nor service; the PackML status handler exactly for a packml topic mentioning status |
| Core.StatusCheckedBeforeEvent | mqtt-client/src/core.rs:201-208 | status wins over event on a packml topic; one with neither is dropped silently |
| Core.ServiceTopicsRouted | mqtt-client/src/core.rs:209-213 | a service topic goes to the master handler exactly when it mentions status |
| Core.Step | mqtt-client/src/core.rs:196-224 | one delivery never drains the loop, and routes exactly the received message |
| Core.Recovery | mqtt-client/src/core.rs:217-224 | reconnect and re-subscribe route nothing and never drain the loop |
| Core.Routes | mqtt-client/src/core.rs:195-216 | the routes of the received messages in arrival order |
| Core.DrainedRoutesEveryMessage | mqtt-client/src/core.rs:193-226 | a drained loop has routed every received message once, in order |
| Core.ProcessFirst | mqtt-client/src/core.rs:195 | a drained run continues from the state its first delivery leaves |
| Core.LostConnectionHandling | mqtt-client/src/core.rs:217-224 | at most twelve reconnects; giving up exactly when all are refused; otherwise the same topics and qualities re-subscribed last |
| Core.LiveConnectionIgnored | mqtt-client/src/core.rs:217 | a `None` on a live connection changes nothing |
| Core.ReconnectOnFourthAttempt | mqtt-client/src/core.rs:159-165 | three refusals then an acceptance: four reconnects, back online |
| Core.GivesUpAfterTwelve | mqtt-client/src/core.rs:158-168 | a thirteenth reconnect is never attempted |
| Core.Repeat | mqtt-client/src/core.rs:159-162 | `n` copies of one call |
| Core.Session.constructor | mqtt-client/src/core.rs:51-97 | the configured topics, one quality of service 1 each, connected, no calls yet |
| Core.Session.TryReconnect | mqtt-client/src/core.rs:155-169 | returns whether some reconnect of twelve succeeded, after exactly the attempts up to the first success |
| Core.Session.SubscribeTopics | mqtt-client/src/core.rs:172-182 | subscribes the session's topics and qualities; reports the broker's answer |
| Core.Session.Disconnect | mqtt-client/src/core.rs:184-191 | unsubscribes and disconnects only a live connection |
| Core.Session.Deliver | mqtt-client/src/core.rs:196-224 | the in-place update of one delivery is `Step` |
| Core.Session.Recover | mqtt-client/src/core.rs:217-224 | the in-place recovery is `Recovery` |
| Core.Session.ProcessMessages | mqtt-client/src/core.rs:193-226 | the loop over the deliveries is `Process` |
| Adls.Utf8Width | mqtt-client/src/adls.rs:29-30 | one to four bytes, one exactly for ASCII |
| Adls.Utf8Len | mqtt-client/src/adls.rs:29-30 | between one and four bytes per character |
| Adls.Utf8LenAppend | mqtt-client/src/adls.rs:29-30 | encoded lengths add over concatenation |
| Adls.TotalLenIsFileLength | mqtt-client/src/adls.rs:27-44 | `upload_data`'s final offset is the encoded length of its elements written back to back |
| Adls.Planned | mqtt-client/src/adls.rs:21-44 | one create, one append per element, one flush |
| Adls.Attempted | mqtt-client/src/adls.rs:21-44 | a rejected call is the last one made; with none rejected every planned call is made |
| Adls.UploadData | mqtt-client/src/adls.rs:8-48 | the calls made are the plan cut after the rejected call; success exactly when no call is rejected |
| Adls.CallOrder | mqtt-client/src/adls.rs:21-44 | create first and once, each element appended once in order, a closing flush last |
| Adls.AppendsAreContiguous | mqtt-client/src/adls.rs:25-40 | the first append is at 0 and each starts where the previous ended |
| Adls.FlushAtFileLength | mqtt-client/src/adls.rs:44 | the flush is at the length of the file the elements make up |
| Adls.EmptyUpload | mqtt-client/src/adls.rs:21-44 | no data: a create and a flush at 0 |
| Adls.UploadExample | mqtt-client/src/adls.rs:25-44 | "a" then "éb": appends at 0 and 1, flush at 4 |
| Fibonacci.FibGrows | fibonnachi/src/main.rs:4-10 | from 0 on the values are non-negative and never decrease |
| Fibonacci.FibMonotonic | fibonnachi/src/main.rs:4-10 | monotonic over non-negative arguments |
| Fibonacci.FibAroundLimit | fibonnachi/src/main.rs:4-10 | fibonacci(92) and fibonacci(93) are 7540113804746346429 and 12200160415121876738 |
| Fibonacci.FitsI64Exactly | fibonnachi/src/main.rs:5 | the value fits in an i64 exactly when the argument is at most 92 |
| Fibonacci.FibCache.constructor | fibonnachi/src/main.rs:4 | an empty cache |
| Fibonacci.FibCache.Fibonacci | fibonnachi/src/main.rs:4-10 | the cached recursion returns the function's value, keeps every cached entry, and caches its argument |
| Fibonacci.ParseI64 | fibonnachi/src/main.rs:19 | a parsed value is within the i64 range; the empty string does not parse |
| Fibonacci.ParsePrinted | fibonnachi/src/main.rs:19-26 | parsing reads back what `{}` prints for every i64 |
| Fibonacci.ParsePrintedNegative | fibonnachi/src/main.rs:19-26 | the same for negative values |
| Fibonacci.ParseSigned | fibonnachi/src/main.rs:19 | a minus sign negates the digits' value |
| Fibonacci.Input | fibonnachi/src/main.rs:19-22 | an i64: the parsed trimmed line, or -1 when it does not parse |
| Fibonacci.Answer | fibonnachi/src/main.rs:19-26 | the input and its value, present exactly when the input is at most 92, and then fitting in an i64 |
| Fibonacci.NoDigitPrintsMinusOne | fibonnachi/src/main.rs:19-26 | a line without a digit prints -1 and -1 |
| Fibonacci.NoDigitNoNumber | fibonnachi/src/main.rs:19 | a string without a digit does not parse |

## Left out

- Threads and the channel. The message callback and the dispatch loop are
  composed in sequence: the jobs arrive as a sequence.
- Sleeps, keep-alive and clean-session settings, and every log line except
  what `env_default` logs about a variable.
- The asynchronous client's connection-lost and connect-failure callbacks
  (`mqtt_adls_bridge/src/mqtt.rs:137-141`, `167-171`). They retry forever
  through the MQTT library's callbacks, which are not modelled.
- Client creation and the initial connect, including `process::exit(1)` when
  either fails (`mqtt_adls_bridge/src/mqtt.rs:153-162`,
  `mqtt-client/src/core.rs:105-152`). `Core.Session.constructor` starts
  connected.
- JSON parsing and serialisation. `Values.Document` is the parsed payload.
  Re-parsing the same text for `payload_str` (`expect("Hello")`) cannot fail
  once the first parse succeeded, so it has no separate error.
- The PackML and master-service handlers, and their panics on a payload of
  the wrong shape. `mqtt-client/src/packml/telegrams.rs` and
  `mqtt-client/src/packml/master_service.rs` are not part of this model;
  `Core.Route` records which handler is called.
- `upload_json_multiline`, which both dispatch loops call
  (`mqtt-client/src/bin/main.rs:63`, `mqtt-client/src/main.rs:264`). Its
  body is not part of this model: `bin/main.rs` imports it from the
  bridge's `adls` module, and `main.rs` calls it on its own `mod adls`,
  whose file shown here (`mqtt-client/src/adls.rs`) does not define it.
  Each call is recorded as a `Dispatch.Upload` value holding its lines, and
  the store's answer is the `rejects` parameter. How the lines are joined
  in the file is therefore not modelled; `Adls.UploadData` models only
  `upload_data`, which no dispatch loop calls.
- `utils::get_env`, which `mqtt-client/src/main.rs:96` and `138-143` call,
  is not defined in `mqtt-client/src/utils.rs`. `LegacyClient.SubscriptionTopics`
  and `LegacyClient.ConnectOptionsFromEnv` assume it behaves as `get_env` of
  `mqtt-client/src/core.rs:23-32`: the variable's value, or a panic when it
  is unset.
- The `expect("Error")` on a failed `read_line` (`fibonnachi/src/main.rs:17`).
  Reading standard input is not modelled; `Fibonacci.Input` and
  `Fibonacci.Answer` take the line read as a parameter.
- `create_data_lake_client`, which only reads two variables and builds a
  credential.
- `dotenv`, the `.env` file loader. The environment is taken as given.
- `far-to-cel-converter` and the bridge binary
  `mqtt_adls_bridge/src/bin/mqtt_adls_bridge.rs`. They are not part of this
  model.
- Text.Lower: models ASCII lower-casing only. `str::to_lowercase` also maps
  non-ASCII letters, which no environment variable name used here contains.
- Adls.UploadData: offsets are unbounded integers. The `as i64` cast of a
  length (`mqtt-client/src/adls.rs:30`) cannot overflow for any string that
  fits in memory.
- Fibonacci.Answer: an `i64` overflow of `fibonacci` (inputs above 92) is
  `None`. The program panics there in a debug build and wraps in a release
  build.
- Fibonacci.FibCache.Fibonacci: the `#[cached]` cache is a process-wide
  static. It is modelled as one object passed to the calls, and its
  capacity is unbounded, as the attribute's default is.
- Core.Session.Disconnect: an `unwrap` on a failed unsubscribe or disconnect
  is not modelled; both calls are taken to succeed.

## Findings

| source | as written | input that shows it | evidently intended | confidence | as-written member | corrected member |
|---|---|---|---|---|---|---|
| mqtt-client/src/main.rs:53-79 | each rule binds a new `let path` that shadows the outer empty one, so the job is built from the outer `""` | topic `service/status`, payload `{"Host":"h1"}`: the rule computes `master/status/host=h1`, the job has path `""` and the loop drops it (`LegacyClient.ShadowingExample`, `LegacyClient.NothingIsEverBuffered`) | each rule sets the job's path, as the bridge's `get_payload` does (`LegacyClient.CorrectedJobIsBuffered`) | not executed | LegacyClient.GetPayloadAsWritten | LegacyClient.GetPayloadCorrected |
| mqtt-client/src/bin/main.rs:44-56 | the vacant branch inserts the first payload without comparing the length with `n_per_file`, so a batch size of 1, which the bridge gives status and host jobs (`mqtt_adls_bridge/src/mqtt.rs:58`), is never reached | two jobs for a new path with batch size 1: the buffer holds both payloads and nothing is uploaded (`Dispatch.ThresholdOneNeverFlushes`, `Dispatch.ThresholdOneFirstPayloadKept`) | every insertion checks the batch size, so a buffer stays below it and batch size 1 uploads each payload alone (`Dispatch.CorrectedFlushesAtThreshold`, `Dispatch.CorrectedThresholdOneUploadsEach`) | not executed | Dispatch.Next | Dispatch.NextCorrected |
