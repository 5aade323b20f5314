/** The worker's `ingestionListener`: every lifecycle callback the consumption
    engine raises is turned into exactly one `IngestionTaskReport` for the parent
    process. Sending the report is done by `IngestionServiceTaskHandler.Notify`. */
module IngestionNotifier {
  import opened Java
  import opened IngestionProtocol

  /** One `VeniceNotifier` callback with its arguments. */
  datatype LifecycleEvent =
    | Completed(kafkaTopic: string, partitionId: int, offset: int, message: string)
    | Error(kafkaTopic: string, partitionId: int, message: string, e: Throwable)
    | Started(kafkaTopic: string, partitionId: int, message: string)
    | Restarted(kafkaTopic: string, partitionId: int, offset: int, message: string)
    | EndOfPushReceived(kafkaTopic: string, partitionId: int, offset: int, message: string)
    | StartOfBufferReplayReceived(kafkaTopic: string, partitionId: int, offset: int, message: string)
    | StartOfIncrementalPushReceived(kafkaTopic: string, partitionId: int, offset: int, incrementalPushVersion: string)
    | EndOfIncrementalPushReceived(kafkaTopic: string, partitionId: int, offset: int, incrementalPushVersion: string)
    | TopicSwitchReceived(kafkaTopic: string, partitionId: int, offset: int, message: string)
    | Progress(kafkaTopic: string, partitionId: int, offset: int, message: string)

  /** The report type each callback tags its report with. */
  function ReportTypeOf(ev: LifecycleEvent): IngestionReportType
  {
    match ev
    case Completed(_, _, _, _) => COMPLETED
    case Error(_, _, _, _) => ERROR
    case Started(_, _, _) => STARTED
    case Restarted(_, _, _, _) => RESTARTED
    case EndOfPushReceived(_, _, _, _) => END_OF_PUSH_RECEIVED
    case StartOfBufferReplayReceived(_, _, _, _) => START_OF_BUFFER_REPLAY_RECEIVED
    case StartOfIncrementalPushReceived(_, _, _, _) => START_OF_INCREMENTAL_PUSH_RECEIVED
    case EndOfIncrementalPushReceived(_, _, _, _) => END_OF_INCREMENTAL_PUSH_RECEIVED
    case TopicSwitchReceived(_, _, _, _) => TOPIC_SWITCH_RECEIVED
    case Progress(_, _, _, _) => PROGRESS
  }

  /** The report a callback builds. `isPositive` is never assigned, so it keeps
      its default; `error` and `started` carry no offset; `error` ignores its
      `message` argument and reports the exception instead; the incremental-push
      callbacks report the push version as the message. */
  function CallbackReport(ev: LifecycleEvent): (r: TaskReport)
    ensures r.reportType == Some(ReportTypeOf(ev))
    ensures r.topicName == ev.kafkaTopic && r.partitionId == ev.partitionId
    ensures !r.isPositive
    ensures r.offset == (if ev.Error? || ev.Started? then 0 else ev.offset)
    ensures ev.Error? ==> r.message == Describe(ev.e)
    ensures ev.StartOfIncrementalPushReceived? || ev.EndOfIncrementalPushReceived? ==>
      r.message == ev.incrementalPushVersion
  {
    match ev
    case Completed(t, p, o, m) => TaskReport(Some(COMPLETED), false, m, t, p, o)
    case Error(t, p, _, e) => TaskReport(Some(ERROR), false, Describe(e), t, p, 0)
    case Started(t, p, m) => TaskReport(Some(STARTED), false, m, t, p, 0)
    case Restarted(t, p, o, m) => TaskReport(Some(RESTARTED), false, m, t, p, o)
    case EndOfPushReceived(t, p, o, m) => TaskReport(Some(END_OF_PUSH_RECEIVED), false, m, t, p, o)
    case StartOfBufferReplayReceived(t, p, o, m) => TaskReport(Some(START_OF_BUFFER_REPLAY_RECEIVED), false, m, t, p, o)
    case StartOfIncrementalPushReceived(t, p, o, v) => TaskReport(Some(START_OF_INCREMENTAL_PUSH_RECEIVED), false, v, t, p, o)
    case EndOfIncrementalPushReceived(t, p, o, v) => TaskReport(Some(END_OF_INCREMENTAL_PUSH_RECEIVED), false, v, t, p, o)
    case TopicSwitchReceived(t, p, o, m) => TaskReport(Some(TOPIC_SWITCH_RECEIVED), false, m, t, p, o)
    case Progress(t, p, o, m) => TaskReport(Some(PROGRESS), false, m, t, p, o)
  }

  /** How the receiving side reads a report back into the callback that produced
      it. An error report yields only its message, not an exception. */
  function ToEvent(r: TaskReport): Option<LifecycleEvent>
  {
    match r.reportType
    case None => None
    case Some(COMPLETED) => Some(Completed(r.topicName, r.partitionId, r.offset, r.message))
    case Some(ERROR) => None
    case Some(STARTED) => Some(Started(r.topicName, r.partitionId, r.message))
    case Some(RESTARTED) => Some(Restarted(r.topicName, r.partitionId, r.offset, r.message))
    case Some(END_OF_PUSH_RECEIVED) => Some(EndOfPushReceived(r.topicName, r.partitionId, r.offset, r.message))
    case Some(START_OF_BUFFER_REPLAY_RECEIVED) =>
      Some(StartOfBufferReplayReceived(r.topicName, r.partitionId, r.offset, r.message))
    case Some(START_OF_INCREMENTAL_PUSH_RECEIVED) =>
      Some(StartOfIncrementalPushReceived(r.topicName, r.partitionId, r.offset, r.message))
    case Some(END_OF_INCREMENTAL_PUSH_RECEIVED) =>
      Some(EndOfIncrementalPushReceived(r.topicName, r.partitionId, r.offset, r.message))
    case Some(TOPIC_SWITCH_RECEIVED) => Some(TopicSwitchReceived(r.topicName, r.partitionId, r.offset, r.message))
    case Some(PROGRESS) => Some(Progress(r.topicName, r.partitionId, r.offset, r.message))
  }

  /** Nothing but the error callback loses information: every other callback,
      with all its arguments, can be recovered from the single report it sends. */
  lemma ReportRoundTrip(ev: LifecycleEvent)
    requires !ev.Error?
    ensures ToEvent(CallbackReport(ev)) == Some(ev)
  {
  }

  /** An error report names the exception's class and message in the
      `<causeKind>_<detail>` form, and ignores the callback's message argument. */
  lemma ErrorReportNamesCause(topic: string, partition: int, message: string, e: Throwable)
    requires '_' !in e.simpleName
    ensures var r := CallbackReport(Error(topic, partition, message, e));
      CauseKind(r.message) == e.simpleName && Detail(r.message) == MessageText(e) &&
      forall other: string :: CallbackReport(Error(topic, partition, other, e)) == r
  {
    DescribeReadsBack(e);
  }
}
