/** The isolated-ingestion worker's request dispatcher (`IngestionServiceTaskHandler`).
    The storage, consumption and metadata services it drives are abstract: every
    call the handler makes to them is appended to a call log, and what they
    answer during one request (which partitions consume, which calls throw, ...)
    is given as a `Collaborators` value. */
module IngestionHandler {
  import opened Java
  import opened IngestionProtocol
  import opened IngestionNotifier

  /** The leader section-id checker the service hands out for a partition
      (`getLeaderSectionIdChecker`); how it fences stale commands is not modelled. */
  datatype SectionIdChecker = LeaderSectionIdChecker(topicName: string, partitionId: int)

  /** A call into the storage service, the store-ingestion service, the store
      repository or the storage-metadata service. */
  datatype Call =
    | SubscribeStore(storeName: string)
    | OpenStoreForNewPartition(topicName: string, partitionId: int)
    | StartConsumption(topicName: string, partitionId: int)
    | StopConsumption(topicName: string, partitionId: int)
    | KillConsumptionTask(topicName: string)
    | ResetConsumptionOffset(topicName: string, partitionId: int)
    | IsPartitionConsuming(topicName: string, partitionId: int)
    | RemoveStorageEngine(topicName: string)
    | StopConsumptionAndWait(topicName: string, partitionId: int, sleepSeconds: int, numRetries: int)
    | DropStorePartition(topicName: string, partitionId: int)
    | OpenStore(topicName: string, restoreDataPartitions: bool, restoreMetadataPartition: bool)
    | PromoteToLeader(topicName: string, partitionId: int, checker: SectionIdChecker)
    | DemoteToStandby(topicName: string, partitionId: int, checker: SectionIdChecker)
    | PutOffsetRecord(topicName: string, partitionId: int, record: seq<bv8>)
    | ClearOffset(topicName: string, partitionId: int)
    | PutStoreVersionState(topicName: string, state: seq<bv8>)
    | ClearStoreVersionState(topicName: string)
    | StopStoreIngestionService
    | StopStorageService

  /** A metric's value is a double the handler only copies. */
  datatype MetricValue = MetricValue(bits: bv64)

  /** What reading one registered metric gives: the metric object is null, its
      `value()` throws, or it yields a value. */
  datatype MetricReading = NullMetric | ReadFails | Reads(value: MetricValue)

  /** What the collaborators answer while one request is handled. */
  datatype Collaborators = Collaborators(
    isolated: bool,                         // the server's ingestion mode is ISOLATED
    subscriptionBasedRepository: bool,      // the store repository is subscription based
    parseStore: string -> Result<string, Throwable>,   // Version.parseStoreFromKafkaTopicName
    consuming: set<(string, int)>,          // isPartitionConsuming answers
    beingUnsubscribed: set<(string, int)>,  // isPartitionBeingUnsubscribed answers
    faults: map<Call, Throwable>,           // calls that throw, and what
    metrics: Option<map<string, MetricReading>>,       // the metrics repository (None: null)
    loaderFault: Option<Throwable>,         // what building INIT's properties and config loader throws
    wiringFault: Option<Throwable>,         // what the rest of INIT's dependency wiring throws
    decodeInit: seq<bv8> -> Result<map<string, string>, Throwable>,
    decodeCommand: seq<bv8> -> Result<TaskCommand, Throwable>,
    decodeMetadata: seq<bv8> -> Result<StorageMetadata, Throwable>,
    decodeShutdown: seq<bv8> -> Result<ShutdownCommand, Throwable>)

  const NotInitiatedMessage := "IngestionService has not been initiated."
  const IsolationDisabledMessage := "Ingestion isolation is not enabled."
  const RestoreDataPartitionsKey := "server.restore.data.partitions.enabled"

  // ---------------------------------------------------------------------------
  // Running a sequence of calls until one throws

  /** The calls actually made, and the exception that stopped them, if any. */
  datatype Attempt = Attempt(made: seq<Call>, fault: Option<Throwable>)

  /** Making the calls of `plan` in order, stopping at the first one that throws. */
  function Run(plan: seq<Call>, faults: map<Call, Throwable>): (r: Attempt)
    ensures |r.made| <= |plan| && r.made == plan[..|r.made|]
    ensures r.fault.None? ==> r.made == plan
    ensures r.fault.Some? ==>
      r.made != [] && r.made[|r.made| - 1] in faults && r.fault.value == faults[r.made[|r.made| - 1]]
    ensures forall i :: 0 <= i < |r.made| - 1 ==> r.made[i] !in faults
    ensures r.fault.None? ==> forall i :: 0 <= i < |plan| ==> plan[i] !in faults
  {
    if plan == [] then Attempt([], None)
    else if plan[0] in faults then Attempt([plan[0]], Some(faults[plan[0]]))
    else
      var rest := Run(plan[1..], faults);
      Attempt([plan[0]] + rest.made, rest.fault)
  }

  /** The calls of a plan all succeed exactly when none of them throws. */
  lemma RunSucceedsIff(plan: seq<Call>, faults: map<Call, Throwable>)
    ensures Run(plan, faults).fault.None? <==> forall c :: c in plan ==> c !in faults
  {
    var r := Run(plan, faults);
    if r.fault.Some? {
      assert r.made[|r.made| - 1] == plan[|r.made| - 1];
    }
  }

  /** What a handler produced, and the calls it made, in order. */
  datatype Handled<T> = Handled(result: T, calls: seq<Call>)

  /** The report after a caught exception. */
  function Failed(report: TaskReport, e: Throwable): TaskReport
  {
    report.(isPositive := false, message := Describe(e))
  }

  /** How a handler's `catch (Exception e)` ends: an exception turns the report
      negative and names itself in the message; a `java.lang.Error` is not
      caught and leaves the handler. */
  function Catch(report: TaskReport, e: Throwable): Result<TaskReport, Throwable>
  {
    if e.kind == JavaError then Err(e) else Ok(Failed(report, e))
  }

  // ---------------------------------------------------------------------------
  // handleIngestionTaskCommand

  /** The calls a command makes when none of them throws. */
  function CommandPlan(t: IngestionCommandType, topic: string, p: int, storeName: string, env: Collaborators): seq<Call>
  {
    match t
    case START_CONSUMPTION =>
      (if env.subscriptionBasedRepository then [SubscribeStore(storeName)] else [])
      + [OpenStoreForNewPartition(topic, p), StartConsumption(topic, p)]
    case STOP_CONSUMPTION => [StopConsumption(topic, p)]
    case KILL_CONSUMPTION => [KillConsumptionTask(topic)]
    case RESET_CONSUMPTION => [ResetConsumptionOffset(topic, p)]
    case IS_PARTITION_CONSUMING => [IsPartitionConsuming(topic, p)]
    case REMOVE_STORAGE_ENGINE => [RemoveStorageEngine(topic)]
    case REMOVE_PARTITION =>
      [IsPartitionConsuming(topic, p)]
      + (if (topic, p) in env.consuming then [StopConsumptionAndWait(topic, p, 1, 30)] else [])
      + [DropStorePartition(topic, p)]
    case OPEN_STORAGE_ENGINE => [OpenStore(topic, false, true)]
    case PROMOTE_TO_LEADER => [PromoteToLeader(topic, p, LeaderSectionIdChecker(topic, p))]
    case DEMOTE_TO_STANDBY => [DemoteToStandby(topic, p, LeaderSectionIdChecker(topic, p))]
  }

  /** A leadership command for a partition that is being unsubscribed. */
  predicate Fenced(env: Collaborators, t: IngestionCommandType, topic: string, p: int)
  {
    (t == PROMOTE_TO_LEADER || t == DEMOTE_TO_STANDBY) && (topic, p) in env.beingUnsubscribed
  }

  /** What `handleIngestionTaskCommand` answers and calls. A topic whose store
      name cannot be parsed throws before the report exists (`Err`); an exception
      thrown later is caught and turns the report negative, an `Error` escapes. */
  function CommandOutcome(initiated: bool, env: Collaborators, cmd: TaskCommand): (h: Handled<Result<TaskReport, Throwable>>)
    ensures env.parseStore(cmd.topicName).Err? ==>
      h.calls == [] && h.result == Err(env.parseStore(cmd.topicName).error)
    ensures h.result.Err? ==> env.parseStore(cmd.topicName).Err? || h.result.error.kind == JavaError
    ensures h.result.Ok? ==>
      h.result.value.topicName == cmd.topicName && h.result.value.partitionId == cmd.partitionId &&
      h.result.value.reportType.None? && h.result.value.offset == 0
    ensures !initiated ==> h.calls == []
    ensures h.result.Ok? && h.result.value.isPositive ==> h.result.value.message == ""
  {
    var topic, p := cmd.topicName, cmd.partitionId;
    match env.parseStore(topic)
    case Err(e) => Handled(Err(e), [])
    case Ok(storeName) =>
      var initial := TaskReport(None, true, "", topic, p, 0);
      if !initiated then Handled(Ok(Failed(initial, VeniceException(NotInitiatedMessage))), [])
      else
        match cmd.commandType
        case Invalid(e) => Handled(Catch(initial, e), [])
        case Unlisted => Handled(Ok(initial), [])
        case Constant(t) =>
          if t == START_CONSUMPTION && !env.isolated then
            Handled(Ok(Failed(initial, VeniceException(IsolationDisabledMessage))), [])
          else if Fenced(env, t, topic, p) then
            Handled(Ok(initial.(isPositive := false)), [])
          else
            var run := Run(CommandPlan(t, topic, p, storeName, env), env.faults);
            var result :=
              match run.fault
              case Some(e) => Catch(initial, e)
              case None =>
                Ok(if t == IS_PARTITION_CONSUMING then initial.(isPositive := (topic, p) in env.consuming) else initial);
            Handled(result, run.made)
  }

  // ---------------------------------------------------------------------------
  // handleIngestionStorageMetadataUpdate and handleProcessShutdownCommand

  function MetadataPlan(t: IngestionMetadataUpdateType, md: StorageMetadata): seq<Call>
  {
    match t
    case PUT_OFFSET_RECORD => [PutOffsetRecord(md.topicName, md.partitionId, md.payload)]
    case CLEAR_OFFSET_RECORD => [ClearOffset(md.topicName, md.partitionId)]
    case PUT_STORE_VERSION_STATE => [PutStoreVersionState(md.topicName, md.payload)]
    case CLEAR_STORE_VERSION_STATE => [ClearStoreVersionState(md.topicName)]
  }

  /** What `handleIngestionStorageMetadataUpdate` answers and calls. Before INIT it
      answers with the bare message, without an exception class prefix. */
  function MetadataOutcome(initiated: bool, env: Collaborators, md: StorageMetadata): (h: Handled<Result<TaskReport, Throwable>>)
    ensures h.result.Ok? ==> h.result.value.topicName == md.topicName && h.result.value.partitionId == md.partitionId
    ensures h.result.Ok? ==> h.result.value.reportType.None? && h.result.value.offset == 0
    ensures h.result.Err? ==> initiated && h.result.error.kind == JavaError
    ensures !initiated ==>
      h.calls == [] && h.result.Ok? && h.result.value.message == NotInitiatedMessage && !h.result.value.isPositive
    ensures |h.calls| <= 1
  {
    var initial := TaskReport(None, true, "", md.topicName, md.partitionId, 0);
    if !initiated then Handled(Ok(initial.(isPositive := false, message := NotInitiatedMessage)), [])
    else
      match md.metadataUpdateType
      case Invalid(e) => Handled(Catch(initial, e), [])
      case Unlisted => Handled(Ok(initial), [])
      case Constant(t) =>
        var run := Run(MetadataPlan(t, md), env.faults);
        Handled(if run.fault.Some? then Catch(initial, run.fault.value) else Ok(initial), run.made)
  }

  function ShutdownPlan(t: IngestionComponentType): seq<Call>
  {
    match t
    case KAFKA_INGESTION_SERVICE => [StopStoreIngestionService]
    case STORAGE_SERVICE => [StopStorageService]
  }

  /** What `handleProcessShutdownCommand` answers and calls. Its report names no
      topic and no partition. */
  function ShutdownOutcome(initiated: bool, env: Collaborators, cmd: ShutdownCommand): (h: Handled<Result<TaskReport, Throwable>>)
    ensures h.result.Ok? ==> h.result.value.topicName == "" && h.result.value.partitionId == 0
    ensures h.result.Err? ==> initiated && h.result.error.kind == JavaError
    ensures !initiated ==>
      h.calls == [] && h.result.Ok? && !h.result.value.isPositive &&
      h.result.value.message == Describe(VeniceException(NotInitiatedMessage))
    ensures |h.calls| <= 1
  {
    var initial := TaskReport(None, true, "", "", 0, 0);
    if !initiated then Handled(Ok(Failed(initial, VeniceException(NotInitiatedMessage))), [])
    else
      match cmd.componentType
      case Invalid(e) => Handled(Catch(initial, e), [])
      case Unlisted => Handled(Ok(initial), [])
      case Constant(t) =>
        var run := Run(ShutdownPlan(t), env.faults);
        Handled(if run.fault.Some? then Catch(initial, run.fault.value) else Ok(initial), run.made)
  }

  /** The metrics report: every registered metric that is non-null and readable. */
  function MetricsOf(repository: Option<map<string, MetricReading>>): map<string, MetricValue>
  {
    if repository.None? then map[]
    else map name | name in repository.value && repository.value[name].Reads? :: repository.value[name].value
  }

  // ---------------------------------------------------------------------------
  // channelRead0 / exceptionCaught

  datatype HttpRequest = HttpRequest(verb: HttpMethod, uri: string, path: string, content: seq<bv8>)

  datatype ResponseBody =
    | DummyContent                       // getDummyContent()
    | ReportBody(report: TaskReport)
    | MetricsBody(aggregatedMetrics: map<string, MetricValue>)
    | ErrorMessage(message: Option<string>)

  datatype HttpResponse = HttpResponse(status: int, body: ResponseBody, closesConnection: bool)

  const OK := 200
  const BAD_REQUEST := 400
  const INTERNAL_SERVER_ERROR := 500

  /** `exceptionCaught`: 500 with the cause's message, and the channel is closed. */
  function ExceptionCaught(cause: Throwable): (resp: HttpResponse)
    ensures resp.status == INTERNAL_SERVER_ERROR && resp.closesConnection
    ensures resp.body == ErrorMessage(cause.message)
  {
    HttpResponse(INTERNAL_SERVER_ERROR, ErrorMessage(cause.message), true)
  }

  /** An exception leaving the `try` of `channelRead0`: an
      `UnsupportedOperationException` is answered there with 400, anything else
      reaches `exceptionCaught`. */
  function Escaped(e: Throwable): (resp: HttpResponse)
    ensures resp.status == (if e.kind == UnsupportedOperation then BAD_REQUEST else INTERNAL_SERVER_ERROR)
    ensures resp.closesConnection <==> e.kind != UnsupportedOperation
  {
    if e.kind == UnsupportedOperation then HttpResponse(BAD_REQUEST, ErrorMessage(e.message), false)
    else ExceptionCaught(e)
  }

  /** The exception `channelRead0` throws for an action it has no branch for. */
  function UnrecognizedAction(a: IngestionAction): Throwable
  {
    Throwable("UnsupportedOperationException", Some("Unrecognized ingestion action: " + ActionName(a)), UnsupportedOperation)
  }

  /** The part of the service's state the handler changes. */
  datatype ServiceState = ServiceState(initiated: bool, configs: map<string, string>, heartbeatTime: int, calls: seq<Call>)

  /** Answering with a handler's outcome: its calls are logged, and its report
      is answered 200 unless an exception escaped the handler. */
  function Answer(st: ServiceState, h: Handled<Result<TaskReport, Throwable>>): (r: (ServiceState, HttpResponse))
    ensures r.0 == st.(calls := st.calls + h.calls)
    ensures h.result.Ok? ==> r.1 == HttpResponse(OK, ReportBody(h.result.value), false)
    ensures h.result.Err? ==> r.1 == Escaped(h.result.error)
  {
    var st' := st.(calls := st.calls + h.calls);
    match h.result
    case Err(e) => (st', Escaped(e))
    case Ok(report) => (st', HttpResponse(OK, ReportBody(report), false))
  }

  /** The `switch` of `channelRead0` for a parsed action: the service's new
      state and the response. */
  function Dispatch(st: ServiceState, action: IngestionAction, req: HttpRequest, env: Collaborators, now: int): (r: (ServiceState, HttpResponse))
    ensures r.1.status in {OK, BAD_REQUEST, INTERNAL_SERVER_ERROR}
    ensures r.1.closesConnection <==> r.1.status == INTERNAL_SERVER_ERROR
    ensures r.0.initiated != st.initiated ==> r.0.initiated && r.1.status == OK
    ensures r.0.heartbeatTime != st.heartbeatTime ==> action == HEARTBEAT
    ensures st.calls <= r.0.calls
  {
    match action
    case INIT =>
      (match env.decodeInit(req.content)
       case Err(e) => (st, Escaped(e))
       case Ok(configs) =>
         match env.loaderFault
         case Some(e) => (st, Escaped(e))
         case None =>
           var loaded := st.(configs := configs[RestoreDataPartitionsKey := "false"]);
           match env.wiringFault
           case Some(e) => (loaded, Escaped(e))
           case None => (loaded.(initiated := true), HttpResponse(OK, DummyContent, false)))
    case COMMAND =>
      (match env.decodeCommand(req.content)
       case Err(e) => (st, Escaped(e))
       case Ok(cmd) => Answer(st, CommandOutcome(st.initiated, env, cmd)))
    case REPORT => (st, Escaped(UnrecognizedAction(REPORT)))
    case METRIC => (st, HttpResponse(OK, MetricsBody(MetricsOf(env.metrics)), false))
    case HEARTBEAT => (st.(heartbeatTime := now), HttpResponse(OK, DummyContent, false))
    case UPDATE_METADATA =>
      (match env.decodeMetadata(req.content)
       case Err(e) => (st, Escaped(e))
       case Ok(md) => Answer(st, MetadataOutcome(st.initiated, env, md)))
    case SHUTDOWN_COMPONENT =>
      match env.decodeShutdown(req.content)
      case Err(e) => (st, Escaped(e))
      case Ok(cmd) => Answer(st, ShutdownOutcome(st.initiated, env, cmd))
  }

  /** One request: the service's new state and the response. */
  function Serve(st: ServiceState, req: HttpRequest, env: Collaborators, now: int): (r: (ServiceState, HttpResponse))
    ensures r.1.status in {OK, BAD_REQUEST, INTERNAL_SERVER_ERROR}
    ensures r.1.closesConnection <==> r.1.status == INTERNAL_SERVER_ERROR
    ensures ParseAction(req.verb, req.uri, req.path).Err? ==>
      r.0 == st && r.1 == ExceptionCaught(ParseAction(req.verb, req.uri, req.path).error)
    ensures r.0.initiated != st.initiated ==> r.0.initiated && r.1.status == OK
    ensures r.0.heartbeatTime != st.heartbeatTime ==> ParseAction(req.verb, req.uri, req.path) == Ok(HEARTBEAT)
    ensures st.calls <= r.0.calls
  {
    match ParseAction(req.verb, req.uri, req.path)
    case Err(e) => (st, ExceptionCaught(e))
    case Ok(action) => Dispatch(st, action, req, env, now)
  }

  // ---------------------------------------------------------------------------
  // The service and the handler

  /** The worker's `IngestionService`, as far as the handler uses it. */
  class IngestionService {
    var initiated: bool
    var configs: map<string, string>      // what the config loader was built from
    var heartbeatTime: int
    var calls: seq<Call>                  // calls into the services it holds, in order
    var statusReports: seq<TaskReport>    // reports sent with reportIngestionStatus

    constructor ()
      ensures !initiated && configs == map[] && heartbeatTime == 0 && calls == [] && statusReports == []
    {
      initiated := false;
      configs := map[];
      heartbeatTime := 0;
      calls := [];
      statusReports := [];
    }

    function State(): ServiceState
      reads this
    {
      ServiceState(initiated, configs, heartbeatTime, calls)
    }

    /** Makes one call into a held service; it throws what `env` says it throws. */
    method Invoke(c: Call, env: Collaborators) returns (thrown: Option<Throwable>)
      modifies this`calls
      ensures calls == old(calls) + [c]
      ensures thrown == (if c in env.faults then Some(env.faults[c]) else None)
    {
      calls := calls + [c];
      thrown := if c in env.faults then Some(env.faults[c]) else None;
    }

    /** `updateHeartbeatTime`, with the clock reading as a parameter. */
    method UpdateHeartbeatTime(now: int)
      modifies this`heartbeatTime
      ensures heartbeatTime == now
    {
      heartbeatTime := now;
    }

    /** `reportIngestionStatus`: the report is sent to the parent process. */
    method ReportIngestionStatus(report: TaskReport)
      modifies this`statusReports
      ensures statusReports == old(statusReports) + [report]
    {
      statusReports := statusReports + [report];
    }
  }

  class IngestionServiceTaskHandler {
    const ingestionService: IngestionService

    constructor (service: IngestionService)
      ensures ingestionService == service
    {
      ingestionService := service;
    }

    /** `channelRead0`: parse the action, run its handler, answer. */
    method ChannelRead0(req: HttpRequest, env: Collaborators, now: int) returns (resp: HttpResponse)
      modifies ingestionService`initiated, ingestionService`configs, ingestionService`heartbeatTime,
        ingestionService`calls
      ensures (ingestionService.State(), resp) == Serve(old(ingestionService.State()), req, env, now)
    {
      var parsed := ParseAction(req.verb, req.uri, req.path);
      if parsed.Err? {
        resp := ExceptionCaught(parsed.error);
        return;
      }
      var result := DummyContent;
      var thrown: Option<Throwable> := None;
      match parsed.value {
        case INIT =>
          var configs := env.decodeInit(req.content);
          if configs.Err? {
            thrown := Some(configs.error);
          } else {
            thrown := HandleIngestionInitialization(configs.value, env);
          }
        case COMMAND =>
          var cmd := env.decodeCommand(req.content);
          if cmd.Err? {
            thrown := Some(cmd.error);
          } else {
            var report := HandleIngestionTaskCommand(cmd.value, env);
            if report.Err? {
              thrown := Some(report.error);
            } else {
              result := ReportBody(report.value);
            }
          }
        case METRIC =>
          var metrics := HandleMetricsRequest(env);
          result := MetricsBody(metrics);
        case HEARTBEAT =>
          ingestionService.UpdateHeartbeatTime(now);
        case UPDATE_METADATA =>
          var md := env.decodeMetadata(req.content);
          if md.Err? {
            thrown := Some(md.error);
          } else {
            var report := HandleIngestionStorageMetadataUpdate(md.value, env);
            if report.Err? {
              thrown := Some(report.error);
            } else {
              result := ReportBody(report.value);
            }
          }
        case SHUTDOWN_COMPONENT =>
          var cmd := env.decodeShutdown(req.content);
          if cmd.Err? {
            thrown := Some(cmd.error);
          } else {
            var report := HandleProcessShutdownCommand(cmd.value, env);
            if report.Err? {
              thrown := Some(report.error);
            } else {
              result := ReportBody(report.value);
            }
          }
        case REPORT =>
          thrown := Some(UnrecognizedAction(REPORT));
      }
      if thrown.None? {
        resp := HttpResponse(OK, result, false);
      } else if thrown.value.kind == UnsupportedOperation {
        resp := HttpResponse(BAD_REQUEST, ErrorMessage(thrown.value.message), false);
      } else {
        resp := ExceptionCaught(thrown.value);
      }
    }

    /** `handleIngestionInitialization`, reduced to its observable steps: the
        config loader is built from the configs with restoring data partitions
        switched off and stored only when building it did not throw, and the
        service is marked initiated last, only when the rest of the wiring did
        not throw either. */
    method HandleIngestionInitialization(configs: map<string, string>, env: Collaborators)
      returns (thrown: Option<Throwable>)
      modifies ingestionService`configs, ingestionService`initiated
      ensures ingestionService.configs ==
        if env.loaderFault.Some? then old(ingestionService.configs) else configs[RestoreDataPartitionsKey := "false"]
      ensures thrown == if env.loaderFault.Some? then env.loaderFault else env.wiringFault
      ensures ingestionService.initiated == (old(ingestionService.initiated) || thrown.None?)
    {
      if env.loaderFault.Some? {
        return env.loaderFault;
      }
      ingestionService.configs := configs[RestoreDataPartitionsKey := "false"];
      thrown := env.wiringFault;
      if thrown.None? {
        ingestionService.initiated := true;
      }
    }

    /** `handleIngestionTaskCommand`. */
    method HandleIngestionTaskCommand(cmd: TaskCommand, env: Collaborators) returns (r: Result<TaskReport, Throwable>)
      modifies ingestionService`calls
      ensures var h := CommandOutcome(ingestionService.initiated, env, cmd);
        r == h.result && ingestionService.calls == old(ingestionService.calls) + h.calls
    {
      var topic := cmd.topicName;
      var p := cmd.partitionId;
      var storeName := env.parseStore(topic);
      if storeName.Err? {
        return Err(storeName.error);
      }
      var report := TaskReport(None, true, "", topic, p, 0);
      var thrown: Option<Throwable> := None;
      if !ingestionService.initiated {
        thrown := Some(VeniceException(NotInitiatedMessage));
      } else {
        match cmd.commandType {
          case Invalid(e) =>
            thrown := Some(e);
          case Unlisted =>
          case Constant(t) =>
            var positive: Option<bool>;
            thrown, positive := SwitchOnCommandType(t, topic, p, storeName.value, env);
            if positive.Some? {
              report := report.(isPositive := positive.value);
            }
        }
      }
      r := if thrown.Some? then Catch(report, thrown.value) else Ok(report);
    }

    /** The `switch` of `handleIngestionTaskCommand`: the calls one command type
        makes, the exception that stops them, and the value the branch assigns to
        the report's `isPositive`, if it assigns one. */
    method SwitchOnCommandType(t: IngestionCommandType, topic: string, p: int, storeName: string, env: Collaborators)
      returns (thrown: Option<Throwable>, positive: Option<bool>)
      modifies ingestionService`calls
      ensures var run := Run(CommandPlan(t, topic, p, storeName, env), env.faults);
        if t == START_CONSUMPTION && !env.isolated then
          thrown == Some(VeniceException(IsolationDisabledMessage)) && positive.None? &&
          ingestionService.calls == old(ingestionService.calls)
        else if Fenced(env, t, topic, p) then
          thrown.None? && positive == Some(false) && ingestionService.calls == old(ingestionService.calls)
        else
          thrown == run.fault && ingestionService.calls == old(ingestionService.calls) + run.made &&
          positive == (if t == IS_PARTITION_CONSUMING && run.fault.None? then Some((topic, p) in env.consuming) else None)
    {
      positive := None;
      match t {
        case START_CONSUMPTION =>
          if !env.isolated {
            thrown := Some(VeniceException(IsolationDisabledMessage));
          } else {
            thrown := StartConsumptionCase(topic, p, storeName, env);
          }
        case STOP_CONSUMPTION =>
          thrown := ingestionService.Invoke(StopConsumption(topic, p), env);
        case KILL_CONSUMPTION =>
          thrown := ingestionService.Invoke(KillConsumptionTask(topic), env);
        case RESET_CONSUMPTION =>
          thrown := ingestionService.Invoke(ResetConsumptionOffset(topic, p), env);
        case IS_PARTITION_CONSUMING =>
          thrown := ingestionService.Invoke(IsPartitionConsuming(topic, p), env);
          if thrown.None? {
            positive := Some((topic, p) in env.consuming);
          }
        case REMOVE_STORAGE_ENGINE =>
          thrown := ingestionService.Invoke(RemoveStorageEngine(topic), env);
        case REMOVE_PARTITION =>
          thrown := RemovePartitionCase(topic, p, env);
        case OPEN_STORAGE_ENGINE =>
          thrown := ingestionService.Invoke(OpenStore(topic, false, true), env);
        case PROMOTE_TO_LEADER =>
          if (topic, p) in env.beingUnsubscribed {
            thrown, positive := None, Some(false);
          } else {
            thrown := ingestionService.Invoke(PromoteToLeader(topic, p, LeaderSectionIdChecker(topic, p)), env);
          }
        case DEMOTE_TO_STANDBY =>
          if (topic, p) in env.beingUnsubscribed {
            thrown, positive := None, Some(false);
          } else {
            thrown := ingestionService.Invoke(DemoteToStandby(topic, p, LeaderSectionIdChecker(topic, p)), env);
          }
      }
    }

    /** START_CONSUMPTION in isolated mode: subscribe (for a subscription-based
        repository), open the partition, start consuming, stopping at a throw. */
    method StartConsumptionCase(topic: string, p: int, storeName: string, env: Collaborators)
      returns (thrown: Option<Throwable>)
      modifies ingestionService`calls
      ensures var run := Run(CommandPlan(START_CONSUMPTION, topic, p, storeName, env), env.faults);
        thrown == run.fault && ingestionService.calls == old(ingestionService.calls) + run.made
    {
      var open, start := OpenStoreForNewPartition(topic, p), StartConsumption(topic, p);
      if env.subscriptionBasedRepository {
        var subscribe := SubscribeStore(storeName);
        thrown := ingestionService.Invoke(subscribe, env);
        if thrown.None? {
          thrown := OpenAndStart(topic, p, env);
        }
        RunCons(subscribe, [open, start], env.faults);
        assert CommandPlan(START_CONSUMPTION, topic, p, storeName, env) == [subscribe] + [open, start];
      } else {
        thrown := OpenAndStart(topic, p, env);
        assert CommandPlan(START_CONSUMPTION, topic, p, storeName, env) == [open, start];
      }
    }

    /** Opening the partition's store and starting to consume it. */
    method OpenAndStart(topic: string, p: int, env: Collaborators) returns (thrown: Option<Throwable>)
      modifies ingestionService`calls
      ensures var run := Run([OpenStoreForNewPartition(topic, p), StartConsumption(topic, p)], env.faults);
        thrown == run.fault && ingestionService.calls == old(ingestionService.calls) + run.made
    {
      var open, start := OpenStoreForNewPartition(topic, p), StartConsumption(topic, p);
      thrown := ingestionService.Invoke(open, env);
      if thrown.None? {
        thrown := ingestionService.Invoke(start, env);
      }
      RunCons(open, [start], env.faults);
      RunCons(start, [], env.faults);
      assert [open] + [start] == [open, start];
    }

    /** REMOVE_PARTITION: stop and wait only when consuming, then drop the partition. */
    method RemovePartitionCase(topic: string, p: int, env: Collaborators) returns (thrown: Option<Throwable>)
      modifies ingestionService`calls
      ensures var run := Run(CommandPlan(REMOVE_PARTITION, topic, p, "", env), env.faults);
        thrown == run.fault && ingestionService.calls == old(ingestionService.calls) + run.made
    {
      thrown := ingestionService.Invoke(IsPartitionConsuming(topic, p), env);
      if thrown.None? && (topic, p) in env.consuming {
        thrown := ingestionService.Invoke(StopConsumptionAndWait(topic, p, 1, 30), env);
      }
      if thrown.None? {
        thrown := ingestionService.Invoke(DropStorePartition(topic, p), env);
      }
      RemovePartitionRun(CommandPlan(REMOVE_PARTITION, topic, p, "", env), topic, p, env);
    }

    /** `handleIngestionStorageMetadataUpdate`. */
    method HandleIngestionStorageMetadataUpdate(md: StorageMetadata, env: Collaborators) returns (r: Result<TaskReport, Throwable>)
      modifies ingestionService`calls
      ensures var h := MetadataOutcome(ingestionService.initiated, env, md);
        r == h.result && ingestionService.calls == old(ingestionService.calls) + h.calls
    {
      var report := TaskReport(None, true, "", md.topicName, md.partitionId, 0);
      if !ingestionService.initiated {
        return Ok(report.(isPositive := false, message := NotInitiatedMessage));
      }
      var thrown: Option<Throwable> := None;
      match md.metadataUpdateType {
        case Invalid(e) =>
          thrown := Some(e);
        case Unlisted =>
        case Constant(t) =>
          match t {
            case PUT_OFFSET_RECORD =>
              thrown := ingestionService.Invoke(PutOffsetRecord(md.topicName, md.partitionId, md.payload), env);
            case CLEAR_OFFSET_RECORD =>
              thrown := ingestionService.Invoke(ClearOffset(md.topicName, md.partitionId), env);
            case PUT_STORE_VERSION_STATE =>
              thrown := ingestionService.Invoke(PutStoreVersionState(md.topicName, md.payload), env);
            case CLEAR_STORE_VERSION_STATE =>
              thrown := ingestionService.Invoke(ClearStoreVersionState(md.topicName), env);
          }
      }
      r := if thrown.Some? then Catch(report, thrown.value) else Ok(report);
    }

    /** `handleProcessShutdownCommand`. */
    method HandleProcessShutdownCommand(cmd: ShutdownCommand, env: Collaborators) returns (r: Result<TaskReport, Throwable>)
      modifies ingestionService`calls
      ensures var h := ShutdownOutcome(ingestionService.initiated, env, cmd);
        r == h.result && ingestionService.calls == old(ingestionService.calls) + h.calls
    {
      var report := TaskReport(None, true, "", "", 0, 0);
      var thrown: Option<Throwable> := None;
      if !ingestionService.initiated {
        thrown := Some(VeniceException(NotInitiatedMessage));
      } else {
        match cmd.componentType {
          case Invalid(e) =>
            thrown := Some(e);
          case Unlisted =>
          case Constant(t) =>
            match t {
              case KAFKA_INGESTION_SERVICE =>
                thrown := ingestionService.Invoke(StopStoreIngestionService, env);
              case STORAGE_SERVICE =>
                thrown := ingestionService.Invoke(StopStorageService, env);
            }
        }
      }
      r := if thrown.Some? then Catch(report, thrown.value) else Ok(report);
    }

    /** `handleMetricsRequest`: copies every registered metric that is non-null
        and whose value can be read; the others are left out of the report. */
    method HandleMetricsRequest(env: Collaborators) returns (aggregated: map<string, MetricValue>)
      ensures forall name :: name in aggregated <==>
        env.metrics.Some? && name in env.metrics.value && env.metrics.value[name].Reads?
      ensures forall name :: name in aggregated ==> aggregated[name] == env.metrics.value[name].value
      ensures aggregated == MetricsOf(env.metrics)
    {
      aggregated := map[];
      if env.metrics.Some? {
        var metrics := env.metrics.value;
        var remaining := metrics.Keys;
        while remaining != {}
          invariant remaining <= metrics.Keys
          invariant forall name :: name in aggregated <==>
            name in metrics && name !in remaining && metrics[name].Reads?
          invariant forall name :: name in aggregated ==> aggregated[name] == metrics[name].value
          decreases remaining
        {
          var name :| name in remaining;
          match metrics[name] {
            case NullMetric =>
            case ReadFails =>
            case Reads(v) =>
              aggregated := aggregated[name := v];
          }
          remaining := remaining - {name};
        }
      }
    }

    /** The `ingestionListener`: each lifecycle callback sends exactly one report. */
    method Notify(ev: LifecycleEvent)
      modifies ingestionService`statusReports
      ensures ingestionService.statusReports == old(ingestionService.statusReports) + [CallbackReport(ev)]
    {
      var report := CallbackReport(ev);
      ingestionService.ReportIngestionStatus(report);
    }
  }

  // ---------------------------------------------------------------------------
  // Facts the method bodies use

  /** Making the first call of a plan: it either throws, or the rest follows. */
  lemma RunCons(c: Call, rest: seq<Call>, faults: map<Call, Throwable>)
    ensures Run([c] + rest, faults) ==
      if c in faults then Attempt([c], Some(faults[c]))
      else Attempt([c] + Run(rest, faults).made, Run(rest, faults).fault)
  {
    assert ([c] + rest)[0] == c;
    assert ([c] + rest)[1..] == rest;
  }

  lemma RemovePartitionRun(plan: seq<Call>, topic: string, p: int, env: Collaborators)
    requires plan == CommandPlan(REMOVE_PARTITION, topic, p, "", env)
    ensures var r := Run(plan, env.faults);
      var q, w, d := IsPartitionConsuming(topic, p), StopConsumptionAndWait(topic, p, 1, 30), DropStorePartition(topic, p);
      if q in env.faults then r == Attempt([q], Some(env.faults[q]))
      else if (topic, p) in env.consuming then
        if w in env.faults then r == Attempt([q, w], Some(env.faults[w]))
        else if d in env.faults then r == Attempt([q, w, d], Some(env.faults[d]))
        else r == Attempt([q, w, d], None)
      else
        if d in env.faults then r == Attempt([q, d], Some(env.faults[d]))
        else r == Attempt([q, d], None)
  {
    var q, w, d := IsPartitionConsuming(topic, p), StopConsumptionAndWait(topic, p, 1, 30), DropStorePartition(topic, p);
    assert Run([d], env.faults) == if d in env.faults then Attempt([d], Some(env.faults[d])) else Attempt([d], None);
    assert [w, d][1..] == [d];
    if (topic, p) in env.consuming {
      assert plan == [q, w, d];
      assert [q, w, d][1..] == [w, d];
    } else {
      assert plan == [q, d];
      assert [q, d][1..] == [d];
    }
  }

  // ---------------------------------------------------------------------------
  // Properties of the dispatcher

  /** Before INIT a command reaches no service and is answered with a negative
      report naming a `VeniceException`. */
  lemma NotInitiatedCommand(env: Collaborators, cmd: TaskCommand)
    requires env.parseStore(cmd.topicName).Ok?
    ensures CommandOutcome(false, env, cmd) == Handled(
      Ok(TaskReport(None, false, "VeniceException_" + NotInitiatedMessage, cmd.topicName, cmd.partitionId, 0)),
      [])
  {
    assert "VeniceException" + "_" + NotInitiatedMessage == "VeniceException_" + NotInitiatedMessage;
  }

  /** The "not initiated" answers differ: the metadata path reports the bare
      message, the command and shutdown paths prefix the exception class. */
  lemma NotInitiatedMessagesDiffer(env: Collaborators, cmd: TaskCommand, md: StorageMetadata, shutdown: ShutdownCommand)
    requires env.parseStore(cmd.topicName).Ok?
    ensures MetadataOutcome(false, env, md).result.value.message == NotInitiatedMessage
    ensures CommandOutcome(false, env, cmd).result.value.message == "VeniceException_" + NotInitiatedMessage
    ensures ShutdownOutcome(false, env, shutdown).result.value.message == CommandOutcome(false, env, cmd).result.value.message
    ensures MetadataOutcome(false, env, md).result.value.message != CommandOutcome(false, env, cmd).result.value.message
  {
  }

  /** A leadership command for a partition being unsubscribed is refused with a
      negative report whose message is empty, and no service is called. */
  lemma FencedLeadershipCommand(env: Collaborators, topic: string, p: int, t: IngestionCommandType)
    requires t == PROMOTE_TO_LEADER || t == DEMOTE_TO_STANDBY
    requires env.parseStore(topic).Ok? && (topic, p) in env.beingUnsubscribed
    ensures var h := CommandOutcome(true, env, TaskCommand(Constant(t), topic, p));
      h.calls == [] && h.result == Ok(TaskReport(None, false, "", topic, p, 0))
  {
  }

  /** Otherwise exactly one promote (or demote) call is made, with that
      partition's section-id checker; the report stays positive when that call
      does not throw and is caught as its exception otherwise. */
  lemma UnfencedLeadershipCommand(env: Collaborators, topic: string, p: int, t: IngestionCommandType)
    requires t == PROMOTE_TO_LEADER || t == DEMOTE_TO_STANDBY
    requires env.parseStore(topic).Ok? && (topic, p) !in env.beingUnsubscribed
    ensures var h := CommandOutcome(true, env, TaskCommand(Constant(t), topic, p));
      var c := if t == PROMOTE_TO_LEADER then PromoteToLeader(topic, p, LeaderSectionIdChecker(topic, p))
               else DemoteToStandby(topic, p, LeaderSectionIdChecker(topic, p));
      var initial := TaskReport(None, true, "", topic, p, 0);
      h.calls == [c] &&
      h.result == (if c in env.faults then Catch(initial, env.faults[c]) else Ok(initial))
  {
  }

  /** START_CONSUMPTION outside isolated mode fails before any call. */
  lemma StartConsumptionNeedsIsolation(env: Collaborators, topic: string, p: int)
    requires env.parseStore(topic).Ok? && !env.isolated
    ensures var h := CommandOutcome(true, env, TaskCommand(Constant(START_CONSUMPTION), topic, p));
      h.calls == [] && h.result.value == TaskReport(None, false, "VeniceException_" + IsolationDisabledMessage, topic, p, 0)
  {
    assert "VeniceException" + "_" + IsolationDisabledMessage == "VeniceException_" + IsolationDisabledMessage;
  }

  /** In isolated mode START_CONSUMPTION subscribes the store (subscription-based
      repository only), opens the partition and starts consuming, in that order,
      up to the first call that throws, whose exception the report then names. */
  lemma StartConsumptionOrder(env: Collaborators, topic: string, p: int)
    requires env.parseStore(topic).Ok? && env.isolated
    ensures var h := CommandOutcome(true, env, TaskCommand(Constant(START_CONSUMPTION), topic, p));
      var storeName := env.parseStore(topic).value;
      var plan := (if env.subscriptionBasedRepository then [SubscribeStore(storeName)] else [])
        + [OpenStoreForNewPartition(topic, p), StartConsumption(topic, p)];
      var initial := TaskReport(None, true, "", topic, p, 0);
      h.calls == plan[..|h.calls|] && h.calls != [] &&
      (h.result == Ok(initial) <==> h.calls == plan && forall c :: c in plan ==> c !in env.faults) &&
      (h.result != Ok(initial) ==> h.result == Catch(initial, env.faults[h.calls[|h.calls| - 1]]))
  {
    var storeName := env.parseStore(topic).value;
    var plan := CommandPlan(START_CONSUMPTION, topic, p, storeName, env);
    RunSucceedsIff(plan, env.faults);
    assert |plan| >= 2;
  }

  /** REMOVE_PARTITION asks whether the partition is consuming, stops it and waits
      (1 second between checks, 30 checks) only when it is, and then drops the
      partition. A throwing question, or a wait that runs out of checks, stops
      the command before the drop, and the report is caught as that exception. */
  lemma RemovePartitionWaitsOnlyWhenConsuming(env: Collaborators, topic: string, p: int)
    requires env.parseStore(topic).Ok?
    ensures var h := CommandOutcome(true, env, TaskCommand(Constant(REMOVE_PARTITION), topic, p));
      var q, w, d := IsPartitionConsuming(topic, p), StopConsumptionAndWait(topic, p, 1, 30), DropStorePartition(topic, p);
      var initial := TaskReport(None, true, "", topic, p, 0);
      if q in env.faults then
        h.calls == [q] && h.result == Catch(initial, env.faults[q])
      else if (topic, p) in env.consuming && w in env.faults then
        h.calls == [q, w] && h.result == Catch(initial, env.faults[w])
      else
        h.calls == [q] + (if (topic, p) in env.consuming then [w] else []) + [d] &&
        h.result == (if d in env.faults then Catch(initial, env.faults[d]) else Ok(initial))
  {
    var storeName := env.parseStore(topic).value;
    RemovePartitionRun(CommandPlan(REMOVE_PARTITION, topic, p, "", env), topic, p, env);
    assert CommandPlan(REMOVE_PARTITION, topic, p, storeName, env) == CommandPlan(REMOVE_PARTITION, topic, p, "", env);
  }

  /** A command type `valueOf` refuses is caught like anything else thrown in
      the `try`, before any call; a type the `switch` has no branch for leaves
      the positive, empty report untouched. */
  lemma CommandTypeNotMatched(env: Collaborators, cmd: TaskCommand)
    requires env.parseStore(cmd.topicName).Ok? && !cmd.commandType.Constant?
    ensures var h := CommandOutcome(true, env, cmd);
      var initial := TaskReport(None, true, "", cmd.topicName, cmd.partitionId, 0);
      h.calls == [] &&
      (cmd.commandType.Invalid? ==> h.result == Catch(initial, cmd.commandType.error)) &&
      (cmd.commandType.Unlisted? ==> h.result == Ok(initial))
  {
  }

  /** STOP, KILL and RESET consumption, REMOVE_STORAGE_ENGINE and
      OPEN_STORAGE_ENGINE each make their one call (opening the store with its
      metadata partition only); the report stays positive unless it throws. */
  lemma SingleCallCommands(env: Collaborators, topic: string, p: int, t: IngestionCommandType)
    requires env.parseStore(topic).Ok?
    requires t in {STOP_CONSUMPTION, KILL_CONSUMPTION, RESET_CONSUMPTION, REMOVE_STORAGE_ENGINE, OPEN_STORAGE_ENGINE}
    ensures var h := CommandOutcome(true, env, TaskCommand(Constant(t), topic, p));
      var initial := TaskReport(None, true, "", topic, p, 0);
      (t == STOP_CONSUMPTION ==> h.calls == [StopConsumption(topic, p)]) &&
      (t == KILL_CONSUMPTION ==> h.calls == [KillConsumptionTask(topic)]) &&
      (t == RESET_CONSUMPTION ==> h.calls == [ResetConsumptionOffset(topic, p)]) &&
      (t == REMOVE_STORAGE_ENGINE ==> h.calls == [RemoveStorageEngine(topic)]) &&
      (t == OPEN_STORAGE_ENGINE ==> h.calls == [OpenStore(topic, false, true)]) &&
      |h.calls| == 1 &&
      h.result == (if h.calls[0] in env.faults then Catch(initial, env.faults[h.calls[0]]) else Ok(initial))
  {
  }

  /** For every command: the calls stop at the first one that throws, and the
      report is then caught as that exception; a positive report is the
      untouched initial one, after calls of which none threw. */
  lemma CommandFaultEncoding(initiated: bool, env: Collaborators, cmd: TaskCommand)
    requires env.parseStore(cmd.topicName).Ok?
    ensures var h := CommandOutcome(initiated, env, cmd);
      var initial := TaskReport(None, true, "", cmd.topicName, cmd.partitionId, 0);
      (forall i :: 0 <= i < |h.calls| - 1 ==> h.calls[i] !in env.faults) &&
      (h.calls != [] && h.calls[|h.calls| - 1] in env.faults ==>
        h.result == Catch(initial, env.faults[h.calls[|h.calls| - 1]])) &&
      (h.result.Ok? && h.result.value.isPositive ==>
        h.result.value == initial && forall c :: c in h.calls ==> c !in env.faults)
  {
  }

  /** A `java.lang.Error` thrown by a service call escapes the command handler
      and `channelRead0`: the request is answered 500 by `exceptionCaught` and
      the channel is closed, while the calls already made stay logged. */
  lemma CommandErrorIs500(st: ServiceState, req: HttpRequest, env: Collaborators, now: int)
    requires ParseAction(req.verb, req.uri, req.path) == Ok(COMMAND)
    requires env.decodeCommand(req.content).Ok?
    requires var cmd := env.decodeCommand(req.content).value;
      var h := CommandOutcome(st.initiated, env, cmd);
      env.parseStore(cmd.topicName).Ok? &&
      h.calls != [] && h.calls[|h.calls| - 1] in env.faults && env.faults[h.calls[|h.calls| - 1]].kind == JavaError
    ensures var h := CommandOutcome(st.initiated, env, env.decodeCommand(req.content).value);
      var r := Serve(st, req, env, now);
      r.0 == st.(calls := st.calls + h.calls) &&
      r.1 == ExceptionCaught(env.faults[h.calls[|h.calls| - 1]])
  {
    CommandFaultEncoding(st.initiated, env, env.decodeCommand(req.content).value);
  }

  /** Each metadata update type makes its one call into the storage-metadata
      service, with the update's topic, partition and payload. */
  lemma MetadataRouting(env: Collaborators, md: StorageMetadata)
    requires md.metadataUpdateType.Constant?
    ensures var h := MetadataOutcome(true, env, md);
      var t := md.metadataUpdateType.value;
      (t == PUT_OFFSET_RECORD ==> h.calls == [PutOffsetRecord(md.topicName, md.partitionId, md.payload)]) &&
      (t == CLEAR_OFFSET_RECORD ==> h.calls == [ClearOffset(md.topicName, md.partitionId)]) &&
      (t == PUT_STORE_VERSION_STATE ==> h.calls == [PutStoreVersionState(md.topicName, md.payload)]) &&
      (t == CLEAR_STORE_VERSION_STATE ==> h.calls == [ClearStoreVersionState(md.topicName)])
  {
  }

  /** After INIT a metadata update's report is caught as the exception of the
      type lookup or of its one call; an unmatched type makes no call and keeps
      the positive, empty report. */
  lemma MetadataFaultEncoding(env: Collaborators, md: StorageMetadata)
    ensures var h := MetadataOutcome(true, env, md);
      var initial := TaskReport(None, true, "", md.topicName, md.partitionId, 0);
      (md.metadataUpdateType.Invalid? ==> h == Handled(Catch(initial, md.metadataUpdateType.error), [])) &&
      (md.metadataUpdateType.Unlisted? ==> h == Handled(Ok(initial), [])) &&
      (md.metadataUpdateType.Constant? ==>
        |h.calls| == 1 &&
        h.result == (if h.calls[0] in env.faults then Catch(initial, env.faults[h.calls[0]]) else Ok(initial)))
  {
  }

  /** Each component type stops its own service. */
  lemma ShutdownRouting(env: Collaborators, cmd: ShutdownCommand)
    requires cmd.componentType.Constant?
    ensures var h := ShutdownOutcome(true, env, cmd);
      (cmd.componentType.value == KAFKA_INGESTION_SERVICE ==> h.calls == [StopStoreIngestionService]) &&
      (cmd.componentType.value == STORAGE_SERVICE ==> h.calls == [StopStorageService])
  {
  }

  /** After INIT a shutdown report is caught as the exception of the type lookup
      or of the stop call; an unmatched type makes no call and keeps the
      positive, empty report. */
  lemma ShutdownFaultEncoding(env: Collaborators, cmd: ShutdownCommand)
    ensures var h := ShutdownOutcome(true, env, cmd);
      var initial := TaskReport(None, true, "", "", 0, 0);
      (cmd.componentType.Invalid? ==> h == Handled(Catch(initial, cmd.componentType.error), [])) &&
      (cmd.componentType.Unlisted? ==> h == Handled(Ok(initial), [])) &&
      (cmd.componentType.Constant? ==>
        |h.calls| == 1 &&
        h.result == (if h.calls[0] in env.faults then Catch(initial, env.faults[h.calls[0]]) else Ok(initial)))
  {
  }

  /** IS_PARTITION_CONSUMING reports exactly the engine's answer. */
  lemma IsPartitionConsumingAnswer(env: Collaborators, topic: string, p: int)
    requires env.parseStore(topic).Ok? && IsPartitionConsuming(topic, p) !in env.faults
    ensures var h := CommandOutcome(true, env, TaskCommand(Constant(IS_PARTITION_CONSUMING), topic, p));
      h.calls == [IsPartitionConsuming(topic, p)] &&
      h.result.value == TaskReport(None, (topic, p) in env.consuming, "", topic, p, 0)
  {
  }

  /** A negative command report with an empty message is either a fenced
      leadership command or a "not consuming" answer; every other negative report
      names an exception. */
  lemma EmptyNegativeReports(initiated: bool, env: Collaborators, cmd: TaskCommand)
    requires CommandOutcome(initiated, env, cmd).result.Ok?
    ensures var r := CommandOutcome(initiated, env, cmd).result.value;
      !r.isPositive && r.message == "" ==>
        initiated && cmd.commandType.Constant? &&
        (Fenced(env, cmd.commandType.value, cmd.topicName, cmd.partitionId) ||
         cmd.commandType.value == IS_PARTITION_CONSUMING)
  {
    var r := CommandOutcome(initiated, env, cmd).result.value;
    if !r.isPositive && r.message == "" {
      forall e: Throwable ensures Describe(e) != "" {
      }
    }
  }

  /** A request that does not parse to an action (not a POST, too few path
      pieces, or an unknown second piece) is answered 500 by `exceptionCaught`,
      the channel is closed, and nothing changes; an unknown action is not a 400. */
  lemma UnparsableRequestIs500(st: ServiceState, req: HttpRequest, env: Collaborators, now: int)
    requires req.verb != POST || |SplitOnSlash(req.path)| < 2 ||
      forall a :: ActionName(a) != ToUpper(SplitOnSlash(req.path)[1])
    ensures var r := Serve(st, req, env, now);
      r.0 == st && r.1.status == INTERNAL_SERVER_ERROR && r.1.closesConnection
  {
  }

  /** "/" and "" split into fewer than two pieces, so they never name an action. */
  lemma ShortPaths()
    ensures |SplitOnSlash("")| < 2 && |SplitOnSlash("/")| < 2
  {
    assert FirstIndexOf("/", '/') == Some(0);
    assert "/"[1..] == "";
    assert SplitAll("/") == ["", ""];
  }

  /** A request that parses to REPORT, an action the worker has no branch for,
      is answered 400; the channel stays open and nothing changes. */
  lemma ReportActionIs400(st: ServiceState, req: HttpRequest, env: Collaborators, now: int)
    requires ParseAction(req.verb, req.uri, req.path) == Ok(REPORT)
    ensures Serve(st, req, env, now) ==
      (st, HttpResponse(BAD_REQUEST, ErrorMessage(Some("Unrecognized ingestion action: " + "REPORT")), false))
  {
  }

  /** The parent's own action, posted to the worker as `/report`, parses. */
  lemma ReportPathParses(uri: string)
    ensures ParseAction(POST, uri, "/report") == Ok(REPORT)
  {
    ReportUpperCased();
    ActionPathRoundTrip(REPORT, uri, "report", "");
    assert "/" + "report" + "" == "/report";
  }

  lemma ReportUpperCased()
    ensures ToUpper("report") == ActionName(REPORT)
  {
    assert ToUpper("report") == "REPORT";
  }

  /** HEARTBEAT touches nothing but the heartbeat time, and needs no INIT. */
  lemma HeartbeatOnlyUpdatesTime(st: ServiceState, req: HttpRequest, env: Collaborators, now: int)
    requires ParseAction(req.verb, req.uri, req.path) == Ok(HEARTBEAT)
    ensures Serve(st, req, env, now) == (st.(heartbeatTime := now), HttpResponse(OK, DummyContent, false))
  {
  }

  /** INIT stores a config loader built from the configs, with data-partition
      restore switched off, before the rest of the wiring runs; when building
      the loader throws, nothing changes. The service is marked initiated only
      after the whole wiring succeeded; there is no guard against a second INIT. */
  lemma InitSetsInitiatedLast(st: ServiceState, req: HttpRequest, env: Collaborators, now: int)
    requires ParseAction(req.verb, req.uri, req.path) == Ok(INIT)
    requires env.decodeInit(req.content).Ok?
    ensures var r := Serve(st, req, env, now);
      var configs := env.decodeInit(req.content).value;
      (env.loaderFault.Some? ==> r.0 == st && r.1 == Escaped(env.loaderFault.value)) &&
      (env.loaderFault.None? ==>
        r.0.configs == configs[RestoreDataPartitionsKey := "false"] &&
        RestoreDataPartitionsKey in r.0.configs && r.0.configs[RestoreDataPartitionsKey] == "false") &&
      r.0.initiated == (st.initiated || (env.loaderFault.None? && env.wiringFault.None?)) &&
      (env.loaderFault.None? && env.wiringFault.None? ==> r.1.status == OK && Serve(r.0, req, env, now).1.status == OK)
  {
  }

  /** A request that parses is handled by the `switch` on its action. */
  lemma ServeDispatches(st: ServiceState, req: HttpRequest, env: Collaborators, now: int)
    requires ParseAction(req.verb, req.uri, req.path).Ok?
    ensures Serve(st, req, env, now) == Dispatch(st, ParseAction(req.verb, req.uri, req.path).value, req, env, now)
  {
  }

  /** METRIC answers 200 with every registered, non-null, readable metric and
      changes nothing, initiated or not. */
  lemma MetricRequest(st: ServiceState, req: HttpRequest, env: Collaborators, now: int)
    requires ParseAction(req.verb, req.uri, req.path) == Ok(METRIC)
    ensures Serve(st, req, env, now) == (st, HttpResponse(OK, MetricsBody(MetricsOf(env.metrics)), false))
  {
  }

  /** A metadata update appends its calls to the log and answers 200 with its
      report; an `Error` escaping the handler is answered by `exceptionCaught`. */
  lemma MetadataRequest(st: ServiceState, req: HttpRequest, env: Collaborators, now: int)
    requires ParseAction(req.verb, req.uri, req.path) == Ok(UPDATE_METADATA)
    requires env.decodeMetadata(req.content).Ok?
    ensures var h := MetadataOutcome(st.initiated, env, env.decodeMetadata(req.content).value);
      var r := Serve(st, req, env, now);
      r.0 == st.(calls := st.calls + h.calls) &&
      (h.result.Ok? ==> r.1 == HttpResponse(OK, ReportBody(h.result.value), false)) &&
      (h.result.Err? ==> r.1 == ExceptionCaught(h.result.error))
  {
    ServeDispatches(st, req, env, now);
    var h := MetadataOutcome(st.initiated, env, env.decodeMetadata(req.content).value);
    assert Dispatch(st, UPDATE_METADATA, req, env, now) == Answer(st, h);
  }

  /** A shutdown command appends its stop call to the log and answers 200 with
      its report; an `Error` escaping the handler is answered by `exceptionCaught`. */
  lemma ShutdownRequest(st: ServiceState, req: HttpRequest, env: Collaborators, now: int)
    requires ParseAction(req.verb, req.uri, req.path) == Ok(SHUTDOWN_COMPONENT)
    requires env.decodeShutdown(req.content).Ok?
    ensures var h := ShutdownOutcome(st.initiated, env, env.decodeShutdown(req.content).value);
      var r := Serve(st, req, env, now);
      r.0 == st.(calls := st.calls + h.calls) &&
      (h.result.Ok? ==> r.1 == HttpResponse(OK, ReportBody(h.result.value), false)) &&
      (h.result.Err? ==> r.1 == ExceptionCaught(h.result.error))
  {
    ServeDispatches(st, req, env, now);
    var h := ShutdownOutcome(st.initiated, env, env.decodeShutdown(req.content).value);
    assert Dispatch(st, SHUTDOWN_COMPONENT, req, env, now) == Answer(st, h);
  }

  /** A command answers 200 with its report unless the topic's store name cannot
      be parsed; the calls it makes are appended to the log in order. */
  lemma CommandRequest(st: ServiceState, req: HttpRequest, env: Collaborators, now: int)
    requires ParseAction(req.verb, req.uri, req.path) == Ok(COMMAND)
    requires env.decodeCommand(req.content).Ok?
    ensures var cmd := env.decodeCommand(req.content).value;
      var h := CommandOutcome(st.initiated, env, cmd);
      var r := Serve(st, req, env, now);
      r.0 == st.(calls := st.calls + h.calls) &&
      (h.result.Ok? ==> r.1 == HttpResponse(OK, ReportBody(h.result.value), false)) &&
      (h.result.Err? ==> r.1 == Escaped(h.result.error))
  {
  }
}
