/** The wire-level vocabulary of the isolated-ingestion worker: how a request
    path names an `IngestionAction`, and the records exchanged with the parent
    process (task commands, metadata updates, shutdown commands and task
    reports). Payload (de)serialisation is not modelled; records are values. */
module IngestionProtocol {
  import opened Java

  // ---------------------------------------------------------------------------
  // Java's String.split("/") and String.toUpperCase(), on the characters the
  // action names use.

  /** Every piece of `s` between '/' separators, including empty ones. */
  function SplitAll(s: string): (parts: seq<string>)
    ensures |parts| >= 1
    ensures forall i :: 0 <= i < |parts| ==> '/' !in parts[i]
    ensures Join(parts) == s
    ensures ('/' !in s) <==> |parts| == 1
    decreases |s|
  {
    match FirstIndexOf(s, '/')
    case None => [s]
    case Some(i) =>
      var rest := SplitAll(s[i + 1..]);
      var parts := [s[..i]] + rest;
      assert s == s[..i] + "/" + s[i + 1..];
      assert parts[0] == s[..i] && parts[1..] == rest;
      assert Join(parts) == s;
      parts
  }

  /** The pieces glued back together with '/'. */
  function Join(parts: seq<string>): string
    requires |parts| >= 1
  {
    if |parts| == 1 then parts[0] else parts[0] + "/" + Join(parts[1..])
  }

  /** `parts` without its trailing empty strings (what split does with limit 0). */
  function DropTrailingEmpty(parts: seq<string>): (r: seq<string>)
    ensures |r| <= |parts| && r == parts[..|r|]
    ensures r != [] ==> r[|r| - 1] != ""
    ensures forall i :: |r| <= i < |parts| ==> parts[i] == ""
  {
    if parts == [] then []
    else if parts[|parts| - 1] == "" then DropTrailingEmpty(parts[..|parts| - 1])
    else parts
  }

  /** Java's `path.split("/")`: a string without '/' comes back whole (so ""
      gives [""]); otherwise the pieces, with trailing empty strings removed. */
  function SplitOnSlash(s: string): (parts: seq<string>)
    ensures forall i :: 0 <= i < |parts| ==> '/' !in parts[i]
    ensures '/' !in s ==> parts == [s]
    ensures '/' in s ==> parts == DropTrailingEmpty(SplitAll(s))
  {
    if '/' !in s then [s] else DropTrailingEmpty(SplitAll(s))
  }

  function UpperChar(c: char): (u: char)
  {
    if 'a' <= c <= 'z' then (c as int - 'a' as int + 'A' as int) as char else c
  }

  /** `String.toUpperCase()` on ASCII letters; every other character is kept. */
  function ToUpper(s: string): (u: string)
    ensures |u| == |s|
    ensures forall i :: 0 <= i < |s| ==> u[i] == UpperChar(s[i])
  {
    if s == [] then [] else [UpperChar(s[0])] + ToUpper(s[1..])
  }

  // ---------------------------------------------------------------------------
  // Actions

  /** The constants of `IngestionAction`. `REPORT` is the action the parent
      process serves; the worker's dispatcher has no branch for it. */
  datatype IngestionAction = INIT | COMMAND | REPORT | METRIC | HEARTBEAT | UPDATE_METADATA | SHUTDOWN_COMPONENT

  function ActionName(a: IngestionAction): string
  {
    match a
    case INIT => "INIT"
    case COMMAND => "COMMAND"
    case REPORT => "REPORT"
    case METRIC => "METRIC"
    case HEARTBEAT => "HEARTBEAT"
    case UPDATE_METADATA => "UPDATE_METADATA"
    case SHUTDOWN_COMPONENT => "SHUTDOWN_COMPONENT"
  }

  /** `IngestionAction.valueOf(name)`: the constant spelled exactly `name`, if any. */
  function ActionByName(name: string): (r: Option<IngestionAction>)
    ensures r.Some? ==> ActionName(r.value) == name
    ensures forall a :: ActionName(a) == name ==> r == Some(a)
  {
    match name
    case "INIT" => Some(INIT)
    case "COMMAND" => Some(COMMAND)
    case "REPORT" => Some(REPORT)
    case "METRIC" => Some(METRIC)
    case "HEARTBEAT" => Some(HEARTBEAT)
    case "UPDATE_METADATA" => Some(UPDATE_METADATA)
    case "SHUTDOWN_COMPONENT" => Some(SHUTDOWN_COMPONENT)
    case _ => None
  }

  datatype HttpMethod = HttpMethod(name: string)

  const POST := HttpMethod("POST")

  const ParsePrefix := "Only able to parse POST requests for actions: init, command, report.  "

  /** `getIngestionActionFromRequest`: only a POST whose path splits into at least
      two pieces is parsed; the action is the constant named by the second piece
      upper-cased. Every refusal is a `VeniceException`. */
  function ParseAction(verb: HttpMethod, uri: string, path: string): (r: Result<IngestionAction, Throwable>)
    ensures r.Ok? <==>
      verb == POST && |SplitOnSlash(path)| >= 2 &&
      exists a :: ActionName(a) == ToUpper(SplitOnSlash(path)[1])
    ensures r.Ok? ==> ActionName(r.value) == ToUpper(SplitOnSlash(path)[1])
    ensures r.Err? ==> r.error.simpleName == "VeniceException" && r.error.kind == OtherException
    ensures r.Err? && (verb != POST || |SplitOnSlash(path)| < 2) ==>
      r.error.message == Some(ParsePrefix + "Cannot parse request for: " + uri)
  {
    var parts := SplitOnSlash(path);
    if verb != POST || |parts| < 2 then
      Err(VeniceException(ParsePrefix + "Cannot parse request for: " + uri))
    else
      match ActionByName(ToUpper(parts[1]))
      case Some(a) => Ok(a)
      case None => Err(VeniceException(ParsePrefix + "Cannot support action: " + parts[1]))
  }

  /** A path `/<segment><rest>`, with `rest` empty or starting a further piece,
      splits with `segment` as its second piece. */
  lemma {:induction false} SecondPieceOfPath(segment: string, rest: string)
    requires segment != "" && '/' !in segment
    requires rest == [] || rest[0] == '/'
    ensures |SplitOnSlash("/" + segment + rest)| >= 2
    ensures SplitOnSlash("/" + segment + rest)[1] == segment
  {
    var path := "/" + segment + rest;
    assert path[0] == '/';
    assert FirstIndexOf(path, '/') == Some(0);
    assert path[1..] == segment + rest;
    var all := SplitAll(path);
    assert all == [""] + SplitAll(segment + rest);
    var tail := SplitAll(segment + rest);
    if rest == [] {
      assert segment + rest == segment;
    } else {
      var s := segment + rest;
      assert s[|segment|] == '/';
      var k := FirstIndexOf(s, '/');
      assert k == Some(|segment|);
      assert s[..|segment|] == segment;
    }
    assert tail[0] == segment;
    assert all[1] == segment;
    var parts := DropTrailingEmpty(all);
    assert |parts| >= 2;
  }

  lemma ActionNameIsOnePiece(a: IngestionAction)
    ensures ActionName(a) != "" && '/' !in ActionName(a)
  {
    match a
    case INIT =>
    case COMMAND =>
    case REPORT =>
    case METRIC =>
    case HEARTBEAT =>
    case UPDATE_METADATA =>
    case SHUTDOWN_COMPONENT =>
  }

  /** Upper-casing leaves '/' alone, so a string whose upper case has no '/'
      has none either. */
  lemma NoSlashUnlessUpper(s: string)
    requires '/' !in ToUpper(s)
    ensures '/' !in s
  {
    forall i | 0 <= i < |s|
      ensures s[i] != '/'
    {
      assert UpperChar(s[i]) == ToUpper(s)[i];
    }
  }

  /** Every action is reachable: a POST to `/<segment>`, optionally followed by
      more path, parses to the action whose name is the segment upper-cased. */
  lemma ActionPathRoundTrip(a: IngestionAction, uri: string, segment: string, rest: string)
    requires ToUpper(segment) == ActionName(a)
    requires rest == [] || rest[0] == '/'
    ensures ParseAction(POST, uri, "/" + segment + rest) == Ok(a)
  {
    ActionNameIsOnePiece(a);
    NoSlashUnlessUpper(segment);
    var path := "/" + segment + rest;
    SecondPieceOfPath(segment, rest);
    var parts := SplitOnSlash(path);
    assert parts[1] == segment;
    assert ActionByName(ToUpper(parts[1])) == Some(a);
  }

  // ---------------------------------------------------------------------------
  // Records

  /** The outcome of an `Xxx.valueOf(code)` enum lookup on a wire code: a constant
      the switch has a case for, a constant it has no case for (its `default:
      break`), or the exception an invalid code raises. The integer codes
      themselves are not part of this model. */
  datatype EnumLookup<T> = Constant(value: T) | Unlisted | Invalid(error: Throwable)

  datatype IngestionCommandType =
    | START_CONSUMPTION | STOP_CONSUMPTION | KILL_CONSUMPTION | RESET_CONSUMPTION
    | IS_PARTITION_CONSUMING | REMOVE_STORAGE_ENGINE | REMOVE_PARTITION
    | OPEN_STORAGE_ENGINE | PROMOTE_TO_LEADER | DEMOTE_TO_STANDBY

  datatype IngestionMetadataUpdateType =
    PUT_OFFSET_RECORD | CLEAR_OFFSET_RECORD | PUT_STORE_VERSION_STATE | CLEAR_STORE_VERSION_STATE

  datatype IngestionComponentType = KAFKA_INGESTION_SERVICE | STORAGE_SERVICE

  /** `IngestionTaskCommand`. */
  datatype TaskCommand = TaskCommand(commandType: EnumLookup<IngestionCommandType>, topicName: string, partitionId: int)

  /** `IngestionStorageMetadata`; the payload is an encoded `OffsetRecord` or
      `StoreVersionState`, carried undecoded. */
  datatype StorageMetadata = StorageMetadata(
    metadataUpdateType: EnumLookup<IngestionMetadataUpdateType>,
    topicName: string, partitionId: int, payload: seq<bv8>)

  /** `ProcessShutdownCommand`. */
  datatype ShutdownCommand = ShutdownCommand(componentType: EnumLookup<IngestionComponentType>)

  /** The constants of `IngestionReportType`; their integer values are not part
      of this model. */
  datatype IngestionReportType =
    | COMPLETED | ERROR | STARTED | RESTARTED | END_OF_PUSH_RECEIVED
    | START_OF_BUFFER_REPLAY_RECEIVED | START_OF_INCREMENTAL_PUSH_RECEIVED
    | END_OF_INCREMENTAL_PUSH_RECEIVED | TOPIC_SWITCH_RECEIVED | PROGRESS

  /** `IngestionTaskReport`. A field the code never assigns keeps its Java default:
      `reportType == None` is the unset int 0, `isPositive` false, `offset` 0. */
  datatype TaskReport = TaskReport(
    reportType: Option<IngestionReportType>,
    isPositive: bool,
    message: string,
    topicName: string,
    partitionId: int,
    offset: int)
}
