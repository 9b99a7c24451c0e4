/** Turning a log line into a Kinesis record: the partition key is taken
    from a JSON field, a static key, or a fresh uuid, in that order, and
    the record's size is the UTF-8 length of data plus key
    (lib/kinesis-stream.js, `convertToRecord`, `getPartitionKey`, `sizeOf`). */
module PartitionKeys {
  import opened Wrappers
  import Utf8

  /** A value JSON.parse can return. */
  datatype Json =
    | JNull
    | JBool(b: bool)
    | JNumber(n: real)
    | JString(s: string)
    | JArray(items: seq<Json>)
    | JObject(fields: map<string, Json>)

  /** JSON.parse and JSON.stringify, taken as given: `parse` is None exactly
      where JSON.parse throws a SyntaxError. */
  datatype JsonCodec = JsonCodec(parse: string -> Option<Json>, stringify: Json -> string)

  /** The exceptions that `getPartitionKey` lets escape. */
  datatype KeyError =
    | MalformedJson   // JSON.parse threw
    | PropertyOfNull  // the line parsed to `null`, and `null[name]` threw

  /** The partition-key options of one stream; None is `undefined`. */
  datatype KeyConfig = KeyConfig(partitionKey: Option<string>, partitionKeyProperty: Option<string>)

  /** A Kinesis PutRecords entry: `Data` is the line, `PartitionKey` the derived key. */
  datatype Record = Record(data: string, partitionKey: string)

  /** What `obj[name]` evaluates to on a parsed value. */
  datatype Lookup = Undefined | Found(value: Json) | Thrown

  /** JavaScript's truthiness of an optional string: defined and non-empty. */
  predicate Truthy(s: Option<string>) {
    s.Some? && s.value != ""
  }

  /** Property access on a parsed value: own fields of an object; any
      access on `null` throws; other values have no fields modelled. */
  function Property(obj: Json, name: string): (r: Lookup)
    ensures r.Thrown? <==> obj.JNull?
    ensures r.Found? ==> obj.JObject? && name in obj.fields && r.value == obj.fields[name]
  {
    match obj
    case JNull => Thrown
    case JObject(fields) => if name in fields then Found(fields[name]) else Undefined
    case _ => Undefined
  }

  /** The key derived from one line. `uuid` stands for the value uuidV4()
      would return, and is used only when neither key option is truthy. */
  function GetPartitionKey(cfg: KeyConfig, codec: JsonCodec, line: string, uuid: string): (r: Result<string, KeyError>)
    // only a configured field name can make key derivation fail, and then
    // exactly when the line is not JSON or is the JSON value null
    ensures r.Failure? ==> Truthy(cfg.partitionKeyProperty)
    ensures Truthy(cfg.partitionKeyProperty) ==>
      (r == Failure(MalformedJson) <==> codec.parse(line).None?) &&
      (r == Failure(PropertyOfNull) <==> codec.parse(line) == Some(JNull))
  {
    if Truthy(cfg.partitionKeyProperty) then
      match codec.parse(line)
      case None => Failure(MalformedJson)
      case Some(obj) =>
        match Property(obj, cfg.partitionKeyProperty.value)
        case Thrown => Failure(PropertyOfNull)
        case Undefined => Success("undefined")
        case Found(JString(s)) => Success(s)
        case Found(v) => Success(codec.stringify(v))
    else if Truthy(cfg.partitionKey) then
      Success(cfg.partitionKey.value)
    else
      Success(uuid)
  }

  /** The record for one line: the line itself as data, and its key. */
  function ConvertToRecord(cfg: KeyConfig, codec: JsonCodec, line: string, uuid: string): (r: Result<Record, KeyError>)
    ensures r.Success? <==> GetPartitionKey(cfg, codec, line, uuid).Success?
    ensures r.Success? ==> r.value.data == line && r.value.partitionKey == GetPartitionKey(cfg, codec, line, uuid).value
    ensures r.Failure? ==> r.error == GetPartitionKey(cfg, codec, line, uuid).error
  {
    match GetPartitionKey(cfg, codec, line, uuid)
    case Success(key) => Success(Record(line, key))
    case Failure(e) => Failure(e)
  }

  /** `Buffer.byteLength(record.Data + record.PartitionKey)`. */
  function SizeOf(rec: Record): (n: nat)
    ensures |rec.data| + |rec.partitionKey| <= n <= 4 * (|rec.data| + |rec.partitionKey|)
    ensures n == Utf8.ByteLength(rec.data) + Utf8.ByteLength(rec.partitionKey)
  {
    Utf8.ByteLengthBounds(rec.data + rec.partitionKey);
    Utf8.ByteLengthAppend(rec.data, rec.partitionKey);
    Utf8.ByteLength(rec.data + rec.partitionKey)
  }

  // ----- key priority -----

  /** A string field is used verbatim. */
  lemma KeyFromStringField(cfg: KeyConfig, codec: JsonCodec, line: string, uuid: string, fields: map<string, Json>)
    requires Truthy(cfg.partitionKeyProperty)
    requires codec.parse(line) == Some(JObject(fields))
    requires cfg.partitionKeyProperty.value in fields && fields[cfg.partitionKeyProperty.value].JString?
    ensures GetPartitionKey(cfg, codec, line, uuid) == Success(fields[cfg.partitionKeyProperty.value].s)
  {
  }

  /** A missing field yields the literal string "undefined". */
  lemma MissingFieldIsUndefined(cfg: KeyConfig, codec: JsonCodec, line: string, uuid: string, fields: map<string, Json>)
    requires Truthy(cfg.partitionKeyProperty)
    requires codec.parse(line) == Some(JObject(fields))
    requires cfg.partitionKeyProperty.value !in fields
    ensures GetPartitionKey(cfg, codec, line, uuid) == Success("undefined")
  {
  }

  /** A present field that is not a string (a number, say) is replaced by
      its JSON serialisation. */
  lemma NonStringFieldIsSerialised(cfg: KeyConfig, codec: JsonCodec, line: string, uuid: string, fields: map<string, Json>)
    requires Truthy(cfg.partitionKeyProperty)
    requires codec.parse(line) == Some(JObject(fields))
    requires cfg.partitionKeyProperty.value in fields && !fields[cfg.partitionKeyProperty.value].JString?
    ensures GetPartitionKey(cfg, codec, line, uuid) == Success(codec.stringify(fields[cfg.partitionKeyProperty.value]))
  {
  }

  /** With `partitionKeyProperty = "id"`, the line {"id": 42} gets the key
      "42" (given that JSON.stringify(42) is "42"). */
  lemma NumericIdExample(codec: JsonCodec, line: string, uuid: string)
    requires codec.parse(line) == Some(JObject(map["id" := JNumber(42.0)]))
    requires codec.stringify(JNumber(42.0)) == "42"
    ensures GetPartitionKey(KeyConfig(None, Some("id")), codec, line, uuid) == Success("42")
  {
  }

  /** A configured field name overrides the static key and the uuid. */
  lemma PropertyTakesPriority(cfg: KeyConfig, codec: JsonCodec, line: string, uuid: string, otherKey: Option<string>, otherUuid: string)
    requires Truthy(cfg.partitionKeyProperty)
    ensures GetPartitionKey(cfg, codec, line, uuid) == GetPartitionKey(cfg.(partitionKey := otherKey), codec, line, otherUuid)
  {
  }

  /** Without a field name, a non-empty static key is used for every line. */
  lemma StaticKeyUsed(cfg: KeyConfig, codec: JsonCodec, line: string, uuid: string)
    requires !Truthy(cfg.partitionKeyProperty) && Truthy(cfg.partitionKey)
    ensures GetPartitionKey(cfg, codec, line, uuid) == Success(cfg.partitionKey.value)
  {
  }

  /** Without a field name, an undefined or empty static key falls through
      to the uuid. */
  lemma FreshKeyOtherwise(cfg: KeyConfig, codec: JsonCodec, line: string, uuid: string)
    requires !Truthy(cfg.partitionKeyProperty) && !Truthy(cfg.partitionKey)
    ensures GetPartitionKey(cfg, codec, line, uuid) == Success(uuid)
  {
  }

  /** Every record `convertToRecord` builds has a positive size, given that
      a uuid is never empty and that JSON.parse rejects the empty string. */
  lemma RecordSizePositive(cfg: KeyConfig, codec: JsonCodec, line: string, uuid: string)
    requires uuid != ""
    requires codec.parse("") == None
    ensures ConvertToRecord(cfg, codec, line, uuid).Success? ==> SizeOf(ConvertToRecord(cfg, codec, line, uuid).value) > 0
  {
  }
}
