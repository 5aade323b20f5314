# Venice ingestion control plane, modelled in Dafny

This project models four pieces of Venice's ingestion control logic and proves
properties of them.

- **The isolated-ingestion worker's request dispatcher** (`IngestionServiceTaskHandler`).
  - A POST path such as `/command` is parsed into an `IngestionAction`.
  - Each action runs its handler against the worker's `IngestionService`.
  - The outcome is answered with HTTP 200, 400, or 500 with the connection closed.
  - Command, metadata-update and shutdown handlers build an `IngestionTaskReport`. It starts positive and turns negative with a `<SimpleName>_<message>` text when a call throws.
  - The `ingestionListener` turns each consumption lifecycle callback into one report for the parent process.
  - The storage, consumption and metadata services are abstract: every call the handler makes is appended to a call log. What they answer during a request (which partitions consume, which calls throw) is a `Collaborators` value.
- **The Avro record `PushJobDetails`**: fifteen typed fields read and written by position through `get(int)` and `put(int, Object)`.
- **One pass of the leaked-resource cleaner**, as `LeakedResourceCleanerTest` pins it down. An on-disk storage engine is removed when:
  - its store lists versions;
  - this version is not one of them;
  - no consumption task runs for it.

  The test's scenario is proved as a lemma.
- **The current-version gating of the leader/follower partition state model**, as `VeniceLeaderFollowerStateModelTest` pins it down.
  - OFFLINE to STANDBY places a latch and waits only for the store's current version.
  - OFFLINE to DROPPED raises and lowers the blocked-thread gauge only for the current version.

Files:

| file | module | contents |
|---|---|---|
| `java.dfy` | `Java`, `VersionTopic` | Option/Result, exceptions and the report-message encoding, topic names |
| `ingestion_protocol.dfy` | `IngestionProtocol` | `String.split("/")`, `toUpperCase`, action parsing, the wire records |
| `ingestion_notifier.dfy` | `IngestionNotifier` | lifecycle callbacks and the report each one sends |
| `ingestion_handler.dfy` | `IngestionHandler` | pure specifications of every handler and of `channelRead0`; the `IngestionService` and `IngestionServiceTaskHandler` classes proved against them |
| `push_job_details.dfy` | `StatusProtocol` | the `PushJobDetails` class, its casts and its schema |
| `leaked_resource_cleaner.dfy` | `LeakedResourceCleaner` | the leak rule, the pass, the test's mock builder and scenario |
| `state_model.dfy` | `LeaderFollowerStateModel` | the partition state model with its effect log and the stats gauge |

How the handler is specified:
- `Run(plan, faults)` makes the calls of a plan in order and stops at the first call that throws.
- `CommandOutcome`, `MetadataOutcome` and `ShutdownOutcome` give each handler's report and call log as a function of the service state and the collaborators.
- `Serve` gives the new service state and the HTTP response for one request: it parses the action and hands it to `Dispatch`, the `switch` of `channelRead0`.
- Each imperative method of `IngestionServiceTaskHandler` is proved equal to its specification function.
- The source's promises are lemmas about those functions.

Behaviour of the code and the tests that the model keeps, and that a reader might not expect:
- In the cleaner test, versions 2 and 5 of the leaky store are removed. Version 1 is unlisted but has a running task, so it is kept. Version 5 is newer than every listed version, and it is removed.
- A store whose metadata lists no versions keeps its on-disk version.
- INIT has no guard against running twice.
- METRIC and HEARTBEAT do not require the service to be initiated.
- A path that does not parse (not a POST, too few pieces, unknown action) is a `VeniceException`. `channelRead0` catches only `UnsupportedOperationException`, so such a request is answered 500 by `exceptionCaught`.
- The handlers catch `Exception` only. A `java.lang.Error` thrown by a service call leaves the handler and `channelRead0` and is answered 500 by `exceptionCaught`, after the calls made before it.

## Model

Source paths are relative to the repository root.

| member | source | states |
|---|---|---|
| Java.Describe | da-vinci-client/src/main/java/com/linkedin/davinci/ingestion/handler/IngestionServiceTaskHandler.java:385 | a caught exception becomes its class's simple name, one `_`, then its message (`"null"` when it has none), in that layout |
| Java.DescribeReadsBack | da-vinci-client/src/main/java/com/linkedin/davinci/ingestion/handler/IngestionServiceTaskHandler.java:385 | when the class name has no `_`, the text before the first `_` is the class name and the rest is the message, so the encoding can be decoded |
| IngestionProtocol.SplitAll | da-vinci-client/src/main/java/com/linkedin/davinci/ingestion/handler/IngestionServiceTaskHandler.java:482 | the pieces between `/` separators contain no `/`, joined with `/` give back the input, and there is one piece exactly when the input has no `/` |
| IngestionProtocol.DropTrailingEmpty | da-vinci-client/src/main/java/com/linkedin/davinci/ingestion/handler/IngestionServiceTaskHandler.java:482 | the result is a prefix of the pieces, ends in a non-empty piece, and everything dropped is empty |
| IngestionProtocol.SplitOnSlash | da-vinci-client/src/main/java/com/linkedin/davinci/ingestion/handler/IngestionServiceTaskHandler.java:482 | Java `split("/")`: a string without `/` comes back whole, otherwise its pieces with trailing empty ones removed; no piece contains `/` |
| IngestionProtocol.ToUpper | da-vinci-client/src/main/java/com/linkedin/davinci/ingestion/handler/IngestionServiceTaskHandler.java:489 | same length, each character upper-cased on its own |
| IngestionProtocol.ActionByName | da-vinci-client/src/main/java/com/linkedin/davinci/ingestion/handler/IngestionServiceTaskHandler.java:489 | `valueOf` finds the action exactly when the name is spelled as that constant |
| IngestionProtocol.ParseAction | da-vinci-client/src/main/java/com/linkedin/davinci/ingestion/handler/IngestionServiceTaskHandler.java:479-493 | an action is returned iff the verb is POST, the path splits into at least two pieces and the second piece upper-cased names an action, which is then the one returned; every refusal is a `VeniceException` (not an `UnsupportedOperationException`), with the "Cannot parse request for: uri" text when the verb or the piece count is wrong |
| IngestionProtocol.SecondPieceOfPath | da-vinci-client/src/main/java/com/linkedin/davinci/ingestion/handler/IngestionServiceTaskHandler.java:482 | `/<segment><rest>` with `rest` empty or starting with `/` splits into at least two pieces, the second being `segment` |
| IngestionProtocol.ActionPathRoundTrip | da-vinci-client/src/main/java/com/linkedin/davinci/ingestion/handler/IngestionServiceTaskHandler.java:479-493 | every action is reached by a POST to `/<segment>` (optionally followed by more path) whose upper case is the action's name |
| IngestionNotifier.CallbackReport | da-vinci-client/src/main/java/com/linkedin/davinci/ingestion/handler/IngestionServiceTaskHandler.java:495-604 | each callback's report carries its report type, topic and partition, is never positive, carries the offset except for `error` and `started`, names the exception for `error`, and carries the push version as message for the incremental-push callbacks |
| IngestionNotifier.ReportRoundTrip | da-vinci-client/src/main/java/com/linkedin/davinci/ingestion/handler/IngestionServiceTaskHandler.java:495-604 | every callback but `error` can be recovered, with all its arguments, from the one report it sends |
| IngestionNotifier.ErrorReportNamesCause | da-vinci-client/src/main/java/com/linkedin/davinci/ingestion/handler/IngestionServiceTaskHandler.java:508-516 | an error report decodes to the exception's class name and message, and does not depend on the callback's message argument |
| IngestionHandler.Run | da-vinci-client/src/main/java/com/linkedin/davinci/ingestion/handler/IngestionServiceTaskHandler.java:306-386 | calls are made in plan order and form a prefix of the plan; with no exception the whole plan was made; otherwise the last call made threw and its exception is the one reported, and no earlier call threw |
| IngestionHandler.RunSucceedsIff | da-vinci-client/src/main/java/com/linkedin/davinci/ingestion/handler/IngestionServiceTaskHandler.java:306-386 | a plan runs through without an exception exactly when none of its calls throws |
| IngestionHandler.CommandOutcome | da-vinci-client/src/main/java/com/linkedin/davinci/ingestion/handler/IngestionServiceTaskHandler.java:296-388 | an unparsable store name throws before anything is called; otherwise only a `java.lang.Error` escapes; a report carries the command's topic and partition with no type and offset 0; nothing is called before INIT; a positive report has an empty message |
| IngestionHandler.MetadataOutcome | da-vinci-client/src/main/java/com/linkedin/davinci/ingestion/handler/IngestionServiceTaskHandler.java:410-450 | a report carries the update's topic and partition with no type and offset 0; only a `java.lang.Error` escapes, and only after INIT; before INIT nothing is called and the message is the bare "not initiated" text; at most one call is made |
| IngestionHandler.ShutdownOutcome | da-vinci-client/src/main/java/com/linkedin/davinci/ingestion/handler/IngestionServiceTaskHandler.java:452-477 | a report names topic `""` and partition 0; only a `java.lang.Error` escapes, and only after INIT; before INIT nothing is called and the message is `VeniceException_` followed by the "not initiated" text; at most one call is made |
| IngestionHandler.ExceptionCaught | da-vinci-client/src/main/java/com/linkedin/davinci/ingestion/handler/IngestionServiceTaskHandler.java:147-152 | 500 with the cause's message, and the channel is closed |
| IngestionHandler.Escaped | da-vinci-client/src/main/java/com/linkedin/davinci/ingestion/handler/IngestionServiceTaskHandler.java:136-152 | an exception leaving the `try` is answered 400 iff it is an `UnsupportedOperationException`, else 500; the channel is closed exactly in the 500 case |
| IngestionHandler.Dispatch | da-vinci-client/src/main/java/com/linkedin/davinci/ingestion/handler/IngestionServiceTaskHandler.java:101-139 | for a parsed action: every answer is 200, 400 or 500, and the channel is closed iff 500; `initiated` only changes from false to true, on a 200; only HEARTBEAT changes the heartbeat time; the call log only grows |
| IngestionHandler.Serve | da-vinci-client/src/main/java/com/linkedin/davinci/ingestion/handler/IngestionServiceTaskHandler.java:89-145 | every answer is 200, 400 or 500, and the channel is closed iff 500; an unparsable request changes nothing and is answered by `exceptionCaught`; `initiated` only ever changes from false to true, on a 200; only HEARTBEAT changes the heartbeat time; the call log only grows |
| IngestionHandler.IngestionServiceTaskHandler.ChannelRead0 | da-vinci-client/src/main/java/com/linkedin/davinci/ingestion/handler/IngestionServiceTaskHandler.java:89-145 | the new service state and the response are exactly what `Serve` gives for the old state |
| IngestionHandler.IngestionServiceTaskHandler.HandleIngestionInitialization | da-vinci-client/src/main/java/com/linkedin/davinci/ingestion/handler/IngestionServiceTaskHandler.java:154-294 | when building the config loader throws, the configs stay as they were and that exception is passed on; otherwise the configs are stored with the restore-data-partitions key forced to `"false"`, the later wiring's exception is passed on, and `initiated` becomes true only when nothing threw |
| IngestionHandler.IngestionServiceTaskHandler.HandleIngestionTaskCommand | da-vinci-client/src/main/java/com/linkedin/davinci/ingestion/handler/IngestionServiceTaskHandler.java:296-388 | the report (or the escaping exception) and the calls appended to the log are those of `CommandOutcome` |
| IngestionHandler.IngestionServiceTaskHandler.SwitchOnCommandType | da-vinci-client/src/main/java/com/linkedin/davinci/ingestion/handler/IngestionServiceTaskHandler.java:314-381 | START_CONSUMPTION outside isolated mode throws before any call; a fenced promote or demote calls nothing and sets the report negative; every other command makes its plan's calls up to the first throw, and IS_PARTITION_CONSUMING sets the report to the engine's answer |
| IngestionHandler.IngestionServiceTaskHandler.StartConsumptionCase | da-vinci-client/src/main/java/com/linkedin/davinci/ingestion/handler/IngestionServiceTaskHandler.java:320-329 | subscribe (subscription-based repository only), open, start: the calls appended and the exception are those of running that plan |
| IngestionHandler.IngestionServiceTaskHandler.OpenAndStart | da-vinci-client/src/main/java/com/linkedin/davinci/ingestion/handler/IngestionServiceTaskHandler.java:328-329 | open the partition, then start consuming, stopping at a throw |
| IngestionHandler.IngestionServiceTaskHandler.RemovePartitionCase | da-vinci-client/src/main/java/com/linkedin/davinci/ingestion/handler/IngestionServiceTaskHandler.java:347-354 | the calls appended and the exception are those of running the REMOVE_PARTITION plan |
| IngestionHandler.IngestionServiceTaskHandler.HandleIngestionStorageMetadataUpdate | da-vinci-client/src/main/java/com/linkedin/davinci/ingestion/handler/IngestionServiceTaskHandler.java:410-450 | the report (or the escaping `Error`) and the calls appended are those of `MetadataOutcome` |
| IngestionHandler.IngestionServiceTaskHandler.HandleProcessShutdownCommand | da-vinci-client/src/main/java/com/linkedin/davinci/ingestion/handler/IngestionServiceTaskHandler.java:452-477 | the report (or the escaping `Error`) and the calls appended are those of `ShutdownOutcome` |
| IngestionHandler.IngestionServiceTaskHandler.HandleMetricsRequest | da-vinci-client/src/main/java/com/linkedin/davinci/ingestion/handler/IngestionServiceTaskHandler.java:390-408 | a metric is in the report iff the repository exists, registers it, and it is non-null and readable, and then with the value read; with no repository the report is empty |
| IngestionHandler.IngestionServiceTaskHandler.Notify | da-vinci-client/src/main/java/com/linkedin/davinci/ingestion/handler/IngestionServiceTaskHandler.java:495-604 | each callback sends exactly one report, the one `CallbackReport` gives, after those already sent |
| IngestionHandler.RemovePartitionRun | da-vinci-client/src/main/java/com/linkedin/davinci/ingestion/handler/IngestionServiceTaskHandler.java:347-354 | the exact calls and exception of REMOVE_PARTITION for every combination of consuming and throwing calls |
| IngestionHandler.NotInitiatedCommand | da-vinci-client/src/main/java/com/linkedin/davinci/ingestion/handler/IngestionServiceTaskHandler.java:306-309 | before INIT a command calls nothing and reports negative with `VeniceException_IngestionService has not been initiated.` |
| IngestionHandler.NotInitiatedMessagesDiffer | da-vinci-client/src/main/java/com/linkedin/davinci/ingestion/handler/IngestionServiceTaskHandler.java:420-427 | before INIT the metadata path reports the bare message while the command and shutdown paths report it with the class prefix, so the texts differ |
| IngestionHandler.FencedLeadershipCommand | da-vinci-client/src/main/java/com/linkedin/davinci/ingestion/handler/IngestionServiceTaskHandler.java:362-378 | a promote or demote for a partition being unsubscribed calls nothing and reports negative with an empty message |
| IngestionHandler.UnfencedLeadershipCommand | da-vinci-client/src/main/java/com/linkedin/davinci/ingestion/handler/IngestionServiceTaskHandler.java:362-378 | otherwise exactly one promote or demote call is made with that partition's section-id checker; the report stays positive if it does not throw, and is otherwise caught as its exception (negative, naming it) or escapes as an `Error` |
| IngestionHandler.StartConsumptionNeedsIsolation | da-vinci-client/src/main/java/com/linkedin/davinci/ingestion/handler/IngestionServiceTaskHandler.java:315-319 | outside isolated mode START_CONSUMPTION calls nothing and reports `VeniceException_Ingestion isolation is not enabled.` |
| IngestionHandler.StartConsumptionOrder | da-vinci-client/src/main/java/com/linkedin/davinci/ingestion/handler/IngestionServiceTaskHandler.java:320-329 | in isolated mode the calls are a non-empty prefix of subscribe (subscription-based only), open, start; the report stays the positive initial one iff all were made and none threw; otherwise it is caught as the exception of the last call made |
| IngestionHandler.RemovePartitionWaitsOnlyWhenConsuming | da-vinci-client/src/main/java/com/linkedin/davinci/ingestion/handler/IngestionServiceTaskHandler.java:347-354 | a throwing consumption question stops the command there; a consuming partition is stopped and waited on (1 second, 30 retries), and a throwing or exhausted wait stops the command before the drop; otherwise the drop follows; the report stays positive iff no call throws, and is otherwise caught as the exception of the call that threw |
| IngestionHandler.CommandTypeNotMatched | da-vinci-client/src/main/java/com/linkedin/davinci/ingestion/handler/IngestionServiceTaskHandler.java:314-386 | after INIT a command type `valueOf` refuses calls nothing and is caught as that exception; a type without a branch calls nothing and keeps the positive, empty report |
| IngestionHandler.SingleCallCommands | da-vinci-client/src/main/java/com/linkedin/davinci/ingestion/handler/IngestionServiceTaskHandler.java:331-361 | STOP, KILL, RESET, REMOVE_STORAGE_ENGINE and OPEN_STORAGE_ENGINE (metadata partition only) each make their one call; the report stays positive unless it throws, and is then caught as that exception |
| IngestionHandler.CommandFaultEncoding | da-vinci-client/src/main/java/com/linkedin/davinci/ingestion/handler/IngestionServiceTaskHandler.java:306-386 | no call before the last one made threw; when the last call made threw, the report is caught as its exception (negative with `SimpleName_message`, or escaping as an `Error`); a positive report is the untouched initial one and none of its calls threw |
| IngestionHandler.CommandErrorIs500 | da-vinci-client/src/main/java/com/linkedin/davinci/ingestion/handler/IngestionServiceTaskHandler.java:140-152 | a `java.lang.Error` from a service call is not caught by the command handler: the request is answered 500 with the channel closed, and the calls made stay logged |
| IngestionHandler.MetadataRouting | da-vinci-client/src/main/java/com/linkedin/davinci/ingestion/handler/IngestionServiceTaskHandler.java:428-442 | each metadata update type makes its own call into the storage-metadata service, with the update's topic, partition and payload |
| IngestionHandler.MetadataFaultEncoding | da-vinci-client/src/main/java/com/linkedin/davinci/ingestion/handler/IngestionServiceTaskHandler.java:428-448 | after INIT a refused type is caught as its exception with no call; an unmatched type calls nothing and keeps the positive report; a listed type makes one call, and the report stays positive iff it does not throw, else is caught as its exception |
| IngestionHandler.ShutdownRouting | da-vinci-client/src/main/java/com/linkedin/davinci/ingestion/handler/IngestionServiceTaskHandler.java:461-469 | KAFKA_INGESTION_SERVICE stops the store-ingestion service and STORAGE_SERVICE stops the storage service |
| IngestionHandler.ShutdownFaultEncoding | da-vinci-client/src/main/java/com/linkedin/davinci/ingestion/handler/IngestionServiceTaskHandler.java:462-475 | the same encoding for the shutdown report: a refused type is caught with no call, an unmatched type keeps the positive report, a stop call that throws is caught as its exception |
| IngestionHandler.ReportUpperCased | da-vinci-client/src/main/java/com/linkedin/davinci/ingestion/handler/IngestionServiceTaskHandler.java:489 | `"report"` upper-cased is the name of the REPORT action |
| IngestionHandler.IsPartitionConsumingAnswer | da-vinci-client/src/main/java/com/linkedin/davinci/ingestion/handler/IngestionServiceTaskHandler.java:340-342 | IS_PARTITION_CONSUMING makes one call and reports exactly the engine's answer with an empty message |
| IngestionHandler.EmptyNegativeReports | da-vinci-client/src/main/java/com/linkedin/davinci/ingestion/handler/IngestionServiceTaskHandler.java:362-386 | a negative command report with an empty message comes only from a fenced leadership command or a "not consuming" answer |
| IngestionHandler.UnparsableRequestIs500 | da-vinci-client/src/main/java/com/linkedin/davinci/ingestion/handler/IngestionServiceTaskHandler.java:147-152 | a request that is not a POST, has fewer than two path pieces or names no action changes nothing and is answered 500 with the channel closed |
| IngestionHandler.ShortPaths | da-vinci-client/src/main/java/com/linkedin/davinci/ingestion/handler/IngestionServiceTaskHandler.java:482-486 | `""` and `"/"` split into fewer than two pieces, so they are refused |
| IngestionHandler.ReportActionIs400 | da-vinci-client/src/main/java/com/linkedin/davinci/ingestion/handler/IngestionServiceTaskHandler.java:136-144 | a request that parses to an action without a branch changes nothing and is answered 400 with "Unrecognized ingestion action: REPORT", the channel staying open |
| IngestionHandler.ReportPathParses | da-vinci-client/src/main/java/com/linkedin/davinci/ingestion/handler/IngestionServiceTaskHandler.java:479-493 | a POST to `/report` parses to REPORT |
| IngestionHandler.HeartbeatOnlyUpdatesTime | da-vinci-client/src/main/java/com/linkedin/davinci/ingestion/handler/IngestionServiceTaskHandler.java:116-121 | HEARTBEAT sets the heartbeat time, changes nothing else, and answers 200 with the dummy body, initiated or not |
| IngestionHandler.InitSetsInitiatedLast | da-vinci-client/src/main/java/com/linkedin/davinci/ingestion/handler/IngestionServiceTaskHandler.java:154-294 | when building the config loader throws, INIT changes nothing and escapes; otherwise the configs are stored with data-partition restore off even when the later wiring throws; `initiated` is set only when everything succeeds; a second INIT is accepted again |
| IngestionHandler.MetricRequest | da-vinci-client/src/main/java/com/linkedin/davinci/ingestion/handler/IngestionServiceTaskHandler.java:109-115 | METRIC changes nothing and answers 200 with the metrics report, initiated or not |
| IngestionHandler.MetadataRequest | da-vinci-client/src/main/java/com/linkedin/davinci/ingestion/handler/IngestionServiceTaskHandler.java:122-129 | a decoded UPDATE_METADATA request appends the update's calls and answers 200 with its report, or 500 with the channel closed when an `Error` escapes |
| IngestionHandler.ShutdownRequest | da-vinci-client/src/main/java/com/linkedin/davinci/ingestion/handler/IngestionServiceTaskHandler.java:130-135 | a decoded SHUTDOWN_COMPONENT request appends its stop call and answers 200 with its report, or 500 with the channel closed when an `Error` escapes |
| IngestionHandler.CommandRequest | da-vinci-client/src/main/java/com/linkedin/davinci/ingestion/handler/IngestionServiceTaskHandler.java:101-108 | a COMMAND request appends the command's calls and answers 200 with its report, unless the store name does not parse, which escapes the handler |
| StatusProtocol.Cast | venice-common/src/main/java/com/linkedin/venice/status/protocol/PushJobDetails.java:56-75 | the cast succeeds iff the value is of the field's type (null allowed for reference fields), never changes the value, and fails with `NullPointerException` on a null unboxed into a primitive and `ClassCastException` otherwise |
| StatusProtocol.Default | venice-common/src/main/java/com/linkedin/venice/status/protocol/PushJobDetails.java:11-31 | an unassigned field holds a value of its type, which is null exactly for the reference-typed fields |
| StatusProtocol.PushJobDetails.constructor | venice-common/src/main/java/com/linkedin/venice/status/protocol/PushJobDetails.java:9-31 | a new record reads back null, 0 or false in every position, not the schema's declared defaults |
| StatusProtocol.PushJobDetails.GetSchema | venice-common/src/main/java/com/linkedin/venice/status/protocol/PushJobDetails.java:10-32 | the one schema: fifteen fields with distinct names |
| StatusProtocol.PushJobDetails.Get | venice-common/src/main/java/com/linkedin/venice/status/protocol/PushJobDetails.java:34-53 | positions 0 to 14 return that field, of its declared type; any other position throws "Bad index" |
| StatusProtocol.PushJobDetails.Put | venice-common/src/main/java/com/linkedin/venice/status/protocol/PushJobDetails.java:56-75 | a bad position throws "Bad index"; a mistyped value throws the cast's exception; on any throw every position reads as before; on success `get` returns the value put at that position and the old value at every other |
| StatusProtocol.PushJobDetails.Assign | venice-common/src/main/java/com/linkedin/venice/status/protocol/PushJobDetails.java:57-74 | once cast, the value is read back at its position and no other position changes |
| StatusProtocol.PushJobDetails.AssignIdentity | venice-common/src/main/java/com/linkedin/venice/status/protocol/PushJobDetails.java:58-62 | the same, for clusterName, reportTimestamp and pushId |
| StatusProtocol.PushJobDetails.AssignStatus | venice-common/src/main/java/com/linkedin/venice/status/protocol/PushJobDetails.java:60-61 | the same, for overallStatus and coloStatus |
| StatusProtocol.PushJobDetails.AssignJobSettings | venice-common/src/main/java/com/linkedin/venice/status/protocol/PushJobDetails.java:63-65 | the same, for partitionCount, valueCompressionStrategy and chunkingEnabled |
| StatusProtocol.PushJobDetails.AssignJobTotals | venice-common/src/main/java/com/linkedin/venice/status/protocol/PushJobDetails.java:66-70 | the same, for the duration and the four totals |
| StatusProtocol.PushJobDetails.AssignConfigs | venice-common/src/main/java/com/linkedin/venice/status/protocol/PushJobDetails.java:71-72 | the same, for pushJobConfigs and producerConfigs |
| StatusProtocol.GetThenPutIsAccepted | venice-common/src/main/java/com/linkedin/venice/status/protocol/PushJobDetails.java:34-75 | whatever `get` returns at a position, `put` accepts back at that position |
| StatusProtocol.NullAcceptedByReferenceFieldsOnly | venice-common/src/main/java/com/linkedin/venice/status/protocol/PushJobDetails.java:56-75 | `put` accepts null exactly at positions 0, 2, 3, 4, 13 and 14 |
| LeakedResourceCleaner.LeakedEngines | venice-server/src/test/java/com/linkedin/venice/cleaner/LeakedResourceCleanerTest.java:98-107 | an engine is removed iff it is in the snapshot and the leak rule condemns it; there are never more removals than snapshot entries |
| LeakedResourceCleaner.CleanupLeakedResources | venice-server/src/test/java/com/linkedin/venice/cleaner/LeakedResourceCleanerTest.java:92-107 | the pass over the snapshot removes exactly `LeakedEngines`, in snapshot order; each removed engine is in the snapshot, has no running task and is not listed by its store |
| LeakedResourceCleaner.RemovedAtMostOnce | venice-server/src/test/java/com/linkedin/venice/cleaner/LeakedResourceCleanerTest.java:98-107 | a snapshot naming each engine once has each removed at most once |
| LeakedResourceCleaner.LeakedEnginesAppend | venice-server/src/test/java/com/linkedin/venice/cleaner/LeakedResourceCleanerTest.java:71-92 | the pass over two concatenated engine lists is the concatenation of the two passes |
| LeakedResourceCleaner.EnginesOf | venice-server/src/test/java/com/linkedin/venice/cleaner/LeakedResourceCleanerTest.java:43-55 | one engine per config, named by the store and the config's version, in order |
| LeakedResourceCleaner.VersionsInZK | venice-server/src/test/java/com/linkedin/venice/cleaner/LeakedResourceCleanerTest.java:42-56 | the store lists a version iff some config has it and exists in ZooKeeper |
| LeakedResourceCleaner.RunningTopics | venice-server/src/test/java/com/linkedin/venice/cleaner/LeakedResourceCleanerTest.java:53 | a topic has a running task iff some config with a task names it |
| LeakedResourceCleaner.ConstructStorageEngineForStore | venice-server/src/test/java/com/linkedin/venice/cleaner/LeakedResourceCleanerTest.java:35-59 | the helper's loop builds exactly the engines, version list and running-task answers above |
| LeakedResourceCleaner.NoVersionStoreKept | venice-server/src/test/java/com/linkedin/venice/cleaner/LeakedResourceCleanerTest.java:107 | the store that lists no versions keeps its one idle version |
| LeakedResourceCleaner.CleanStoreKept | venice-server/src/test/java/com/linkedin/venice/cleaner/LeakedResourceCleanerTest.java:104-105 | the store whose versions are all listed keeps both |
| LeakedResourceCleaner.LeakyStoreListed | venice-server/src/test/java/com/linkedin/venice/cleaner/LeakedResourceCleanerTest.java:86-91 | the leaky store lists versions 3 and 4 only |
| LeakedResourceCleaner.LeakyStoreRunning | venice-server/src/test/java/com/linkedin/venice/cleaner/LeakedResourceCleanerTest.java:86-91 | of its unlisted versions only version 1 has a running task |
| LeakedResourceCleaner.LeakyStoreKept | venice-server/src/test/java/com/linkedin/venice/cleaner/LeakedResourceCleanerTest.java:100-102 | versions 1 (running), 3 and 4 (listed) are not leaked |
| LeakedResourceCleaner.LeakyStoreLeaked | venice-server/src/test/java/com/linkedin/venice/cleaner/LeakedResourceCleanerTest.java:98-99 | versions 2 and 5 are leaked, 5 although it is newer than every listed version |
| LeakedResourceCleaner.LeakyStoreLosesIdleUnlisted | venice-server/src/test/java/com/linkedin/venice/cleaner/LeakedResourceCleanerTest.java:98-102 | the pass over the leaky store removes exactly versions 2 and 5, in that order |
| LeakedResourceCleaner.TestCleanupLeakedResources | venice-server/src/test/java/com/linkedin/venice/cleaner/LeakedResourceCleanerTest.java:61-110 | over all eight engines of the test, the pass removes exactly version 2 and version 5 of the leaky store |
| LeaderFollowerStateModel.StandbyFromOfflineEffects | clients/da-vinci-client/src/test/java/com/linkedin/davinci/helix/VeniceLeaderFollowerStateModelTest.java:34-53 | consumption always starts; the latch is placed and waited on once each for the current version (latch first, wait last) and never for another version |
| LeaderFollowerStateModel.StandbyTwiceLatchesOnce | clients/da-vinci-client/src/test/java/com/linkedin/davinci/helix/VeniceLeaderFollowerStateModelTest.java:36-52 | a non-current then a current transition place one latch and wait once, with the wait last |
| LeaderFollowerStateModel.ParticipantStateTransitionStats.IncrementThreadBlockedOnOfflineToDroppedTransitionCount | clients/da-vinci-client/src/test/java/com/linkedin/davinci/helix/VeniceLeaderFollowerStateModelTest.java:60 | the gauge goes up by one and the increment count with it |
| LeaderFollowerStateModel.ParticipantStateTransitionStats.DecrementThreadBlockedOnOfflineToDroppedTransitionCount | clients/da-vinci-client/src/test/java/com/linkedin/davinci/helix/VeniceLeaderFollowerStateModelTest.java:61 | the gauge goes down by one and the decrement count with it |
| LeaderFollowerStateModel.LeaderFollowerPartitionStateModel.constructor | clients/da-vinci-client/src/test/java/com/linkedin/davinci/helix/VeniceLeaderFollowerStateModelTest.java:17-27 | a model for one partition of one resource, with an empty effect log |
| LeaderFollowerStateModel.LeaderFollowerPartitionStateModel.OnBecomeStandbyFromOffline | clients/da-vinci-client/src/test/java/com/linkedin/davinci/helix/VeniceLeaderFollowerStateModelTest.java:34-53 | appends exactly `StandbyFromOfflineEffects` for whether the resource is current at this transition |
| LeaderFollowerStateModel.LeaderFollowerPartitionStateModel.OnBecomeDroppedFromOffline | clients/da-vinci-client/src/test/java/com/linkedin/davinci/helix/VeniceLeaderFollowerStateModelTest.java:55-68 | the partition is dropped and the drop's failure passed on; the gauge ends where it started, raised and lowered once each for the current version and untouched otherwise |
| LeaderFollowerStateModel.TestOnBecomeFollowerFromOffline | clients/da-vinci-client/src/test/java/com/linkedin/davinci/helix/VeniceLeaderFollowerStateModelTest.java:34-53 | with the store serving version 2 and then 1, a version-1 model places the latch once and waits once |
| LeaderFollowerStateModel.TestGracefulDropForCurrentVersionResource | clients/da-vinci-client/src/test/java/com/linkedin/davinci/helix/VeniceLeaderFollowerStateModelTest.java:55-68 | with the store serving version 2 and then 1, the gauge is raised once and lowered once and ends where it started |

## Left out

- Netty transport: reading the request, `buildHttpResponse`, `writeAndFlush`, `flush`, `close`. A request is its verb, URI, path and content, and a response is its status, body and whether the channel is closed. `URI.create(...).getPath()` is taken as already applied.
- Avro (de)serialisation of requests and responses: each decode is a parameter that yields a record or an exception. `OffsetRecord` and `StoreVersionState` payloads are carried undecoded. Decoding them happens before the put call in the code; a payload that fails to decode is modelled as that put call throwing, so the call log then records a put that the code never makes (the report is the same).
- `handleIngestionInitialization` wiring (D2 client, SSL, repositories, serializers, storage and ingestion services, report client). Building the properties and the config loader is one abstract step that may throw, and the rest of the wiring another. Only three facts are kept: the loader is stored only once built, the restore-data-partitions key is forced off, and `initiated` is set last.
- `RestoreDataPartitionsKey`: the literal `"server.restore.data.partitions.enabled"` is assumed. `ConfigKeys` is not part of this model.
- The reflective loading of ingestion-isolation stats classes. Logging and the redundant-exception filter.
- `IngestionAction`, `IngestionCommandType`, `IngestionMetadataUpdateType`, `IngestionComponentType` and `IngestionReportType` are not part of this model.
  - Their constants are taken from the handler's branches.
  - `REPORT` is assumed to be the action without a branch, as the parse error's text lists it.
  - The integer codes are not modelled. A `valueOf` lookup is a constant, a constant the switch ignores, or an exception.
- HandleIngestionTaskCommand: `getConfigLoader().getStoreConfig(topic)` and the service getters are assumed not to throw. `Version.parseStoreFromKafkaTopicName` is a parameter that may fail.
- Metric values are doubles and are only copied. The map iteration order is not modelled because the result does not depend on it.
- HandleMetricsRequest: a metric whose `value()` throws is taken to throw an `Exception`. A `java.lang.Error` from it would escape the handler, and which one escapes would depend on the map's iteration order, so that case is not modelled.
- ToUpper: only ASCII letters are upper-cased. Java's locale-dependent and non-ASCII mappings are not modelled. ParseAction inherits this.
- PushJobDetails: the list and map fields hold values. Java's `put` stores a reference, so a later change to the list or map through another reference would show in the record; that aliasing is not modelled.
- The `ClassCastException` and `NullPointerException` messages the JVM generates. They are modelled as absent.
- The Avro JSON schema string and its declared defaults. Only the field names and types are kept, and the Java fields do not start at those defaults.
- `LeakedResourceCleaner` and `LeaderFollowerPartitionStateModel` themselves are not part of this model. Their behaviour is taken from the two tests.
  - The cleaner's timer, its `start`/`stop` and the Mockito timeout are left out.
  - A store missing from the repository is not modelled.
  - Store names are abstract distinct strings, since the test makes them unique.
- StandbyFromOfflineEffects: the test fixes only which effects happen. The order latch, start consumption, wait is assumed, and a failing wait for consumption is not modelled.
- OnBecomeDroppedFromOffline: the test fixes only the counts. Raising the gauge before the drop and lowering it afterwards, even when the drop fails, is assumed.
- `Store.BOOTSTRAP_TO_ONLINE_TIMEOUT_IN_HOURS` is a constructor parameter, because `Store` is not part of this model.
- Concurrency and timing: latches, hour-long timeouts and the blocking of the transition thread are recorded as effects. Nothing waits.
- `IngestionBenchmark` (a JMH benchmark doing cluster setup, file deletion and timing) has nothing to state and is left out.
