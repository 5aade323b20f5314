/** The Avro-generated record `PushJobDetails`: fifteen public fields reached by
    position through `get(int)` and `put(int, Object)`, the way Avro's datum
    reader and writer use it. */
module StatusProtocol {
  import opened Java

  newtype int32 = x: int | -0x8000_0000 <= x < 0x8000_0000
  newtype int64 = x: int | -0x8000_0000_0000_0000 <= x < 0x8000_0000_0000_0000

  /** A `java.lang.Object` as `get` returns it and `put` receives it. Generic type
      arguments are erased at run time, so a list or a map is just a list or a
      map, whatever its elements. */
  datatype Value =
    | Null
    | Chars(chars: string)                  // a CharSequence
    | Long(long: int64)                     // java.lang.Long
    | Integer(integer: int32)               // java.lang.Integer
    | Boolean(boolean: bool)                // java.lang.Boolean
    | List(items: seq<Value>)               // a java.util.List
    | Map(entries: seq<(Value, Value)>)     // a java.util.Map
    | Other(className: string)              // an object of any other class

  /** The declared Java type of a field: reference types accept null, the
      primitive types are assigned through unboxing. */
  datatype FieldKind = CharSequenceKind | LongKind | IntKind | BooleanKind | ListKind | MapKind

  datatype FieldSpec = FieldSpec(name: string, kind: FieldKind)

  /** The record's fields, in declaration order (the order of its Avro schema). */
  const Schema: seq<FieldSpec> := [
    FieldSpec("clusterName", CharSequenceKind),
    FieldSpec("reportTimestamp", LongKind),
    FieldSpec("overallStatus", ListKind),
    FieldSpec("coloStatus", MapKind),
    FieldSpec("pushId", CharSequenceKind),
    FieldSpec("partitionCount", IntKind),
    FieldSpec("valueCompressionStrategy", IntKind),
    FieldSpec("chunkingEnabled", BooleanKind),
    FieldSpec("jobDurationInMs", LongKind),
    FieldSpec("totalNumberOfRecords", LongKind),
    FieldSpec("totalKeyBytes", LongKind),
    FieldSpec("totalRawValueBytes", LongKind),
    FieldSpec("totalCompressedValueBytes", LongKind),
    FieldSpec("pushJobConfigs", MapKind),
    FieldSpec("producerConfigs", MapKind)
  ]

  /** Whether a value is one the field's cast (and unboxing) lets through. */
  predicate Admits(kind: FieldKind, v: Value)
  {
    match kind
    case CharSequenceKind => v.Null? || v.Chars?
    case LongKind => v.Long?
    case IntKind => v.Integer?
    case BooleanKind => v.Boolean?
    case ListKind => v.Null? || v.List?
    case MapKind => v.Null? || v.Map?
  }

  /** `new AvroRuntimeException("Bad index")`. */
  const BadIndex := Throwable("AvroRuntimeException", Some("Bad index"), OtherException)

  /** The exceptions a failed cast raises; their JVM-generated messages are not
      part of this model. */
  const ClassCast := Throwable("ClassCastException", None, OtherException)
  const NullPointer := Throwable("NullPointerException", None, OtherException)

  /** The cast `put` applies before assigning: it never changes the value; a
      null unboxed into a primitive field throws `NullPointerException`, and a
      value of another class throws `ClassCastException`. */
  function Cast(kind: FieldKind, v: Value): (r: Result<Value, Throwable>)
    ensures r.Ok? <==> Admits(kind, v)
    ensures r.Ok? ==> r.value == v
    ensures r.Err? ==> r.error == (if v.Null? then NullPointer else ClassCast)
  {
    match kind
    case CharSequenceKind => if v.Null? || v.Chars? then Ok(v) else Err(ClassCast)
    case ListKind => if v.Null? || v.List? then Ok(v) else Err(ClassCast)
    case MapKind => if v.Null? || v.Map? then Ok(v) else Err(ClassCast)
    case LongKind => if v.Long? then Ok(v) else if v.Null? then Err(NullPointer) else Err(ClassCast)
    case IntKind => if v.Integer? then Ok(v) else if v.Null? then Err(NullPointer) else Err(ClassCast)
    case BooleanKind => if v.Boolean? then Ok(v) else if v.Null? then Err(NullPointer) else Err(ClassCast)
  }

  /** The declared kind of the field at a position, as `put`'s cases cast it. */
  function KindAt(field: int): FieldKind
    requires 0 <= field < 15
  {
    match field
    case 0 => CharSequenceKind
    case 1 => LongKind
    case 2 => ListKind
    case 3 => MapKind
    case 4 => CharSequenceKind
    case 5 => IntKind
    case 6 => IntKind
    case 7 => BooleanKind
    case 13 => MapKind
    case 14 => MapKind
    case _ => LongKind
  }

  lemma KindAtIsSchemaKind(field: int)
    requires 0 <= field < |Schema|
    ensures KindAt(field) == Schema[field].kind
  {
  }

  /** What a field of that kind holds when nothing was assigned to it. */
  function Default(kind: FieldKind): (v: Value)
    ensures Admits(kind, v)
    ensures v.Null? <==> kind in {CharSequenceKind, ListKind, MapKind}
  {
    match kind
    case LongKind => Long(0)
    case IntKind => Integer(0)
    case BooleanKind => Boolean(false)
    case _ => Null
  }

  /** A nullable CharSequence field, boxed. */
  function CharsOrNull(s: Option<string>): Value
  {
    if s.None? then Null else Chars(s.value)
  }

  function ListOrNull(s: Option<seq<Value>>): Value
  {
    if s.None? then Null else List(s.value)
  }

  function MapOrNull(s: Option<seq<(Value, Value)>>): Value
  {
    if s.None? then Null else Map(s.value)
  }

  /** The unboxing a successful cast leads to, for each nullable field type. */
  function UnboxChars(v: Value): (s: Option<string>)
    requires Admits(CharSequenceKind, v)
    ensures CharsOrNull(s) == v
  {
    if v.Chars? then Some(v.chars) else None
  }

  function UnboxList(v: Value): (s: Option<seq<Value>>)
    requires Admits(ListKind, v)
    ensures ListOrNull(s) == v
  {
    if v.List? then Some(v.items) else None
  }

  function UnboxMap(v: Value): (s: Option<seq<(Value, Value)>>)
    requires Admits(MapKind, v)
    ensures MapOrNull(s) == v
  {
    if v.Map? then Some(v.entries) else None
  }

  class PushJobDetails {
    var clusterName: Option<string>
    var reportTimestamp: int64
    var overallStatus: Option<seq<Value>>
    var coloStatus: Option<seq<(Value, Value)>>
    var pushId: Option<string>
    var partitionCount: int32
    var valueCompressionStrategy: int32
    var chunkingEnabled: bool
    var jobDurationInMs: int64
    var totalNumberOfRecords: int64
    var totalKeyBytes: int64
    var totalRawValueBytes: int64
    var totalCompressedValueBytes: int64
    var pushJobConfigs: Option<seq<(Value, Value)>>
    var producerConfigs: Option<seq<(Value, Value)>>

    /** The implicit no-argument constructor: reference fields null, numbers 0,
        booleans false (not the schema's declared defaults). */
    constructor ()
      ensures forall i :: 0 <= i < |Schema| ==> Get(i) == Ok(Default(Schema[i].kind))
    {
      clusterName, reportTimestamp, overallStatus, coloStatus, pushId := None, 0, None, None, None;
      partitionCount, valueCompressionStrategy, chunkingEnabled := 0, 0, false;
      jobDurationInMs, totalNumberOfRecords, totalKeyBytes, totalRawValueBytes, totalCompressedValueBytes := 0, 0, 0, 0, 0;
      pushJobConfigs, producerConfigs := None, None;
    }

    /** `getSchema()`: the one schema shared by every record. */
    function GetSchema(): (s: seq<FieldSpec>)
      ensures |s| == 15
      ensures forall i, j :: 0 <= i < j < |s| ==> s[i].name != s[j].name
    {
      Schema
    }

    /** `get(field)`: the field at that position of the schema, boxed; any other
        position throws "Bad index". A field never holds a value its own cast
        would refuse. */
    function Get(field: int): (r: Result<Value, Throwable>)
      reads this
      ensures r.Ok? <==> 0 <= field < |Schema|
      ensures r.Ok? ==> Admits(Schema[field].kind, r.value)
      ensures r.Err? ==> r.error == BadIndex
    {
      match field
      case 0 => Ok(CharsOrNull(clusterName))
      case 1 => Ok(Long(reportTimestamp))
      case 2 => Ok(ListOrNull(overallStatus))
      case 3 => Ok(MapOrNull(coloStatus))
      case 4 => Ok(CharsOrNull(pushId))
      case 5 => Ok(Integer(partitionCount))
      case 6 => Ok(Integer(valueCompressionStrategy))
      case 7 => Ok(Boolean(chunkingEnabled))
      case 8 => Ok(Long(jobDurationInMs))
      case 9 => Ok(Long(totalNumberOfRecords))
      case 10 => Ok(Long(totalKeyBytes))
      case 11 => Ok(Long(totalRawValueBytes))
      case 12 => Ok(Long(totalCompressedValueBytes))
      case 13 => Ok(MapOrNull(pushJobConfigs))
      case 14 => Ok(MapOrNull(producerConfigs))
      case _ => Err(BadIndex)
    }

    /** `put(field, value)`: a bad position throws "Bad index"; otherwise the value
        is cast to the field's type, and a failing cast throws before anything is
        assigned. On success `get` returns the value put at that position and
        what it returned before at every other one. */
    method Put(field: int, value: Value) returns (thrown: Option<Throwable>)
      modifies this
      ensures !(0 <= field < |Schema|) ==> thrown == Some(BadIndex)
      ensures 0 <= field < |Schema| ==>
        (thrown.None? <==> Admits(Schema[field].kind, value)) &&
        (thrown.Some? ==> thrown == Some(Cast(Schema[field].kind, value).error))
      ensures thrown.Some? ==> forall i :: Get(i) == old(Get(i))
      ensures thrown.None? ==> Get(field) == Ok(value) && forall i :: i != field ==> Get(i) == old(Get(i))
    {
      if !(0 <= field < |Schema|) {
        return Some(BadIndex);
      }
      var cast := Cast(Schema[field].kind, value);
      if cast.Err? {
        return Some(cast.error);
      }
      KindAtIsSchemaKind(field);
      Assign(field, cast.value);
      return None;
    }

    /** The assignment of one `case` of `put`, once the cast has succeeded. */
    method Assign(field: int, v: Value)
      requires 0 <= field < |Schema| && Admits(KindAt(field), v)
      modifies this
      ensures Get(field) == Ok(v) && forall i :: i != field ==> Get(i) == old(Get(i))
    {
      if field in {0, 1, 4} {
        AssignIdentity(field, v);
      } else if field in {2, 3} {
        AssignStatus(field, v);
      } else if field in {5, 6, 7} {
        AssignJobSettings(field, v);
      } else if field in {8, 9, 10, 11, 12} {
        AssignJobTotals(field, v);
      } else {
        AssignConfigs(field, v);
      }
    }

    /** The cluster, the report time and the push id. */
    method AssignIdentity(field: int, v: Value)
      requires field in {0, 1, 4} && Admits(KindAt(field), v)
      modifies this
      ensures Get(field) == Ok(v) && forall i :: i != field ==> Get(i) == old(Get(i))
    {
      match field {
        case 0 => clusterName := UnboxChars(v);
        case 1 => reportTimestamp := v.long;
        case 4 => pushId := UnboxChars(v);
      }
    }

    /** The overall and per-colo status lists. */
    method AssignStatus(field: int, v: Value)
      requires field in {2, 3} && Admits(KindAt(field), v)
      modifies this
      ensures Get(field) == Ok(v) && forall i :: i != field ==> Get(i) == old(Get(i))
    {
      match field {
        case 2 => overallStatus := UnboxList(v);
        case 3 => coloStatus := UnboxMap(v);
      }
    }

    /** The partition count, the compression strategy and chunking. */
    method AssignJobSettings(field: int, v: Value)
      requires field in {5, 6, 7} && Admits(KindAt(field), v)
      modifies this
      ensures Get(field) == Ok(v) && forall i :: i != field ==> Get(i) == old(Get(i))
    {
      match field {
        case 5 => partitionCount := v.integer;
        case 6 => valueCompressionStrategy := v.integer;
        case 7 => chunkingEnabled := v.boolean;
      }
    }

    /** The job's duration and its record and byte totals. */
    method AssignJobTotals(field: int, v: Value)
      requires field in {8, 9, 10, 11, 12} && Admits(LongKind, v)
      modifies this
      ensures Get(field) == Ok(v) && forall i :: i != field ==> Get(i) == old(Get(i))
    {
      match field {
        case 8 => jobDurationInMs := v.long;
        case 9 => totalNumberOfRecords := v.long;
        case 10 => totalKeyBytes := v.long;
        case 11 => totalRawValueBytes := v.long;
        case 12 => totalCompressedValueBytes := v.long;
      }
    }

    /** The push job's and the producer's configs. */
    method AssignConfigs(field: int, v: Value)
      requires field in {13, 14} && Admits(MapKind, v)
      modifies this
      ensures Get(field) == Ok(v) && forall i :: i != field ==> Get(i) == old(Get(i))
    {
      match field {
        case 13 => pushJobConfigs := UnboxMap(v);
        case 14 => producerConfigs := UnboxMap(v);
      }
    }
  }

  /** Whatever `get` returns can always be put back at the same position: the
      record's fields never hold a value their own cast would refuse. */
  lemma GetThenPutIsAccepted(record: PushJobDetails, field: int)
    requires 0 <= field < |Schema|
    ensures record.Get(field).Ok? && Cast(Schema[field].kind, record.Get(field).value) == Ok(record.Get(field).value)
  {
  }

  /** A null is accepted exactly by the reference-typed fields. */
  lemma NullAcceptedByReferenceFieldsOnly(field: int)
    requires 0 <= field < |Schema|
    ensures Cast(Schema[field].kind, Null).Ok? <==>
      field in {0, 2, 3, 4, 13, 14}
  {
  }
}
