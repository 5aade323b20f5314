/** The few Java notions the ingestion core relies on: a nullable reference, a
    value-or-exception result, and the way a caught exception is flattened into
    a report message (`getSimpleName() + "_" + getMessage()`). */
module Java {

  datatype Option<+T> = None | Some(value: T)

  datatype Result<+T, +E> = Ok(value: T) | Err(error: E)

  /** Where a thrown object's class sits in Java's hierarchy, as far as the
      core's `catch` clauses tell classes apart: an `UnsupportedOperationException`
      (the only kind `channelRead0` catches), any other `Exception` (what the
      handlers' `catch (Exception e)` clauses catch), or a `java.lang.Error`,
      which no handler catches. */
  datatype ThrowableKind = UnsupportedOperation | OtherException | JavaError

  /** A thrown Java object, as far as the core looks at it: the simple name of
      its class, its message (null when `None`), and its kind. */
  datatype Throwable = Throwable(simpleName: string, message: Option<string>, kind: ThrowableKind)

  /** `new VeniceException(message)`. */
  function VeniceException(message: string): (e: Throwable)
    ensures e.message == Some(message) && e.kind == OtherException
  {
    Throwable("VeniceException", Some(message), OtherException)
  }

  /** Java string concatenation of `getMessage()`: a null message prints as "null". */
  function MessageText(e: Throwable): (s: string)
    ensures e.message.Some? ==> s == e.message.value
  {
    match e.message
    case None => "null"
    case Some(m) => m
  }

  /** `e.getClass().getSimpleName() + "_" + e.getMessage()`, the message a negative
      report carries. */
  function Describe(e: Throwable): (s: string)
    ensures |s| == |e.simpleName| + 1 + |MessageText(e)|
    ensures s[..|e.simpleName|] == e.simpleName && s[|e.simpleName|] == '_'
    ensures s[|e.simpleName| + 1..] == MessageText(e)
  {
    e.simpleName + "_" + MessageText(e)
  }

  /** Position of the first occurrence of `c` in `s`. */
  function FirstIndexOf(s: string, c: char): (r: Option<nat>)
    ensures r.Some? ==> r.value < |s| && s[r.value] == c && c !in s[..r.value]
    ensures r.None? ==> c !in s
  {
    if s == [] then None
    else if s[0] == c then Some(0)
    else
      match FirstIndexOf(s[1..], c)
      case None => None
      case Some(i) =>
        assert s[..i + 1] == [s[0]] + s[1..][..i];
        Some(i + 1)
  }

  /** The `<causeKind>` half of a `<causeKind>_<detail>` report message. */
  function CauseKind(s: string): string
  {
    match FirstIndexOf(s, '_')
    case None => s
    case Some(i) => s[..i]
  }

  /** The `<detail>` half of a `<causeKind>_<detail>` report message. */
  function Detail(s: string): string
  {
    match FirstIndexOf(s, '_')
    case None => ""
    case Some(i) => s[i + 1..]
  }

  /** A report message built by `Describe` can be read back: whenever the
      exception's class name has no underscore, the text before the first `_`
      is that class name and the text after it is the exception's message. */
  lemma DescribeReadsBack(e: Throwable)
    requires '_' !in e.simpleName
    ensures CauseKind(Describe(e)) == e.simpleName
    ensures Detail(Describe(e)) == MessageText(e)
  {
    var s := Describe(e);
    var n := |e.simpleName|;
    var r := FirstIndexOf(s, '_');
    assert s[n] == '_';
    assert r.Some?;
  }
}

/** Resource names: a store version's topic, `Version.composeKafkaTopic(store, version)`.
    The string encoding and its parsing are not part of this model; a topic is
    the pair it is composed from. */
module VersionTopic {

  datatype Topic = Topic(storeName: string, versionNumber: int)
}
