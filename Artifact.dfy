/**
  Artifact classification: the artifact type a build result is shown as, and
  the post-processing of its raw value for that type.
 */
module Artifact {
  import opened Results
  import opened Values

  datatype ArtifactType = TextType | DataType | ObjectType | ArrayType | StreamType | UnknownType | MessageType

  /** The enum member's `.value`. */
  function Name(t: ArtifactType): string {
    match t
    case TextType => "text"
    case DataType => "data"
    case ObjectType => "object"
    case ArrayType => "array"
    case StreamType => "stream"
    case UnknownType => "unknown"
    case MessageType => "message"
  }

  /** `ArtifactType(s)`: the member whose value is `s`; any other string raises. */
  function Parse(s: string): (r: Option<ArtifactType>)
    ensures r.Some? ==> Name(r.value) == s
  {
    if s == "text" then Some(TextType)
    else if s == "data" then Some(DataType)
    else if s == "object" then Some(ObjectType)
    else if s == "array" then Some(ArrayType)
    else if s == "stream" then Some(StreamType)
    else if s == "unknown" then Some(UnknownType)
    else if s == "message" then Some(MessageType)
    else None
  }

  /** Every member's value names it back, so the values are distinct. */
  lemma NameParse(t: ArtifactType)
    ensures Parse(Name(t)) == Some(t)
  {
  }

  /**
    The type the `match` statement of `get_artifact_type` picks. A `Message`
    is matched before `Data`; the recursion on `.text` and `.data` passes no
    build result.
   */
  function Matched(value: Value): ArtifactType
    decreases value, 0
  {
    match value
    case MessageValue(text) => if text.Str? then MessageType else Classify(text)
    case DataValue(data, _) => Classify(data)
    case Str(_) => TextType
    case Dict(_) => ObjectType
    case List(_) => ArrayType
    case Frame(_) => ArrayType
    case _ => UnknownType
  }

  /**
    `get_artifact_type(value)` with no build result, as the member whose
    `.value` it returns: a `Message` with generator text streams.
   */
  function Classify(value: Value): ArtifactType
    decreases value, 1
  {
    if value.MessageValue? && value.text.Generator? then StreamType else Matched(value)
  }

  /**
    `get_artifact_type(value, build_result)`: when the match leaves the type
    unknown, `build_result` is truth-tested before the generator test, so a
    DataFrame build result raises there.
   */
  function ClassifyWith(value: Value, buildResult: Value): Result<ArtifactType, string> {
    if Matched(value) == UnknownType then
      match Truthy(buildResult)
      case Err(e) => Err(e)
      case Ok(truthy) => if truthy && buildResult.Generator? then Ok(StreamType) else Ok(Classify(value))
    else Ok(Classify(value))
  }

  function GetArtifactType(value: Value, buildResult: Value): Result<string, string> {
    match ClassifyWith(value, buildResult)
    case Err(e) => Err(e)
    case Ok(t) => Ok(Name(t))
  }

  /** The classifier never answers "data". */
  lemma {:induction false} NeverData(value: Value, buildResult: Value)
    ensures Name(Classify(value)) != "data"
    ensures GetArtifactType(value, buildResult).Ok? ==> GetArtifactType(value, buildResult).value != "data"
    decreases value
  {
    match value
    case MessageValue(text) =>
      if !text.Str? {
        NeverData(text, NoneValue);
      }
    case DataValue(data, _) =>
      NeverData(data, NoneValue);
    case _ =>
  }

  /**
    The value a classification rests on: `Data` defers to its `.data`, a
    `Message` to its `.text` unless that is a str or a generator.
   */
  function Innermost(value: Value): Value
    decreases value
  {
    match value
    case DataValue(data, _) => Innermost(data)
    case MessageValue(text) => if text.Str? || text.Generator? then value else Innermost(text)
    case _ => value
  }

  /** The artifact type of a value that does not defer to another. */
  function ShapeOf(value: Value): ArtifactType {
    match value
    case Str(_) => TextType
    case Dict(_) => ObjectType
    case List(_) => ArrayType
    case Frame(_) => ArrayType
    case MessageValue(text) => if text.Str? then MessageType else StreamType
    case _ => UnknownType
  }

  /**
    Without a build result the type is that of the innermost value: str is
    "text", dict "object", list and DataFrame "array", a `Message` with str
    text "message", one with generator text "stream", anything else
    "unknown".
   */
  lemma {:induction false} ClassifyByInnermost(value: Value)
    ensures Classify(value) == ShapeOf(Innermost(value))
    decreases value
  {
    match value
    case DataValue(data, _) =>
      ClassifyByInnermost(data);
    case MessageValue(text) =>
      if !text.Str? && !text.Generator? {
        ClassifyByInnermost(text);
      }
    case _ =>
  }

  /**
    A build result matters only when the match leaves the type unknown, which
    is when the value classifies as "unknown" or is a `Message` with generator
    text. Then a DataFrame raises on its truth test, a generator makes the
    type "stream", and anything else leaves the type alone.
   */
  lemma BuildResultOnlyStreams(value: Value, buildResult: Value)
    ensures Matched(value) == UnknownType <==>
              Classify(value) == UnknownType || (value.MessageValue? && value.text.Generator?)
    ensures Matched(value) != UnknownType ==> ClassifyWith(value, buildResult) == Ok(Classify(value))
    ensures Matched(value) == UnknownType && buildResult.Frame? ==> ClassifyWith(value, buildResult) == Err(DataFrameTruthError)
    ensures Matched(value) == UnknownType && buildResult.Generator? ==> ClassifyWith(value, buildResult) == Ok(StreamType)
    ensures !buildResult.Frame? && !buildResult.Generator? ==> ClassifyWith(value, buildResult) == Ok(Classify(value))
  {
  }

  // ---------------------------------------------------------------------
  // post_process_raw

  const BuiltSuccessfully := "Built Successfully \U{2728}"

  /** The collaborators post-processing hands values to. */
  datatype Encoders = Encoders(
    /** `jsonable_encoder` with langflow's custom encoders; it may raise. */
    jsonable: Value -> Result<Value, string>,
    /** `recursive_serialize_or_str` */
    serialize: Value -> Value,
    /** `str()` */
    str: Value -> string,
    /** Iterating a generator, a model or another object; it may raise. */
    iterateObject: Value -> Result<seq<Value>, string>)

  /** `for item in raw`: lists, str, dicts and the non-iterable builtins concretely. */
  function Iterate(raw: Value, enc: Encoders): Result<seq<Value>, string> {
    match raw
    case List(items) => Ok(items)
    case Str(s) => Ok(seq(|s|, i requires 0 <= i < |s| => Str([s[i]])))
    case Dict(entries) => Ok(seq(|entries|, i requires 0 <= i < |entries| => Str(entries[i].0)))
    case Frame(t) => Ok(seq(|t.columns|, i requires 0 <= i < |t.columns| => Str(t.columns[i])))
    case NoneValue => Err("'NoneType' object is not iterable")
    case Bool(_) => Err("'bool' object is not iterable")
    case Int(_) => Err("'int' object is not iterable")
    case _ => enc.iterateObject(raw)
  }

  /** One item of `_to_list_of_dicts`: serialised when it can dump itself, its `str` otherwise. */
  function Serialized(item: Value, enc: Encoders): Value {
    if HasDictMethod(item) then enc.serialize(item) else Str(enc.str(item))
  }

  function ListOfDicts(items: seq<Value>, enc: Encoders): (r: seq<Value>)
    ensures |r| == |items|
    ensures forall i :: 0 <= i < |items| ==> r[i] == Serialized(items[i], enc)
  {
    seq(|items|, i requires 0 <= i < |items| => Serialized(items[i], enc))
  }

  /** `_to_list_of_dicts`: one entry per item, in order. */
  method ToListOfDicts(raw: Value, enc: Encoders) returns (r: Result<seq<Value>, string>)
    ensures Iterate(raw, enc).Err? ==> r == Err(Iterate(raw, enc).error)
    ensures Iterate(raw, enc).Ok? ==> r == Ok(ListOfDicts(Iterate(raw, enc).value, enc))
  {
    var items := Iterate(raw, enc);
    if items.Err? {
      return Err(items.error);
    }
    var out: seq<Value> := [];
    var i := 0;
    while i < |items.value|
      invariant 0 <= i <= |items.value|
      invariant out == ListOfDicts(items.value[..i], enc)
    {
      var item := items.value[i];
      if HasDictMethod(item) {
        out := out + [enc.serialize(item)];
      } else {
        out := out + [Str(enc.str(item))];
      }
      i := i + 1;
    }
    assert items.value[..i] == items.value;
    r := Ok(out);
  }

  /** `row.to_dict()` for each row: `DataFrame.to_dict(orient="records")`. */
  function Records(t: Table): (r: Value)
    ensures r.List? && |r.items| == |t.rows|
    ensures forall i :: 0 <= i < |t.rows| ==> r.items[i] == Dict(RowDict(t.columns, t.rows[i]))
  {
    List(seq(|t.rows|, i requires 0 <= i < |t.rows| => Dict(RowDict(t.columns, t.rows[i]))))
  }

  /**
    `post_process_raw(raw, artifact_type)`: the new raw value and type, or the
    exception iterating the raw value of an "array" raised.
   */
  function PostProcessRaw(raw: Value, artifactType: string, enc: Encoders): Result<(Value, string), string> {
    if artifactType == Name(StreamType) then Ok((Str(""), artifactType))
    else if artifactType == Name(ArrayType) then
      if raw.Frame? then Ok((Records(raw.table), artifactType))
      else
        match Iterate(raw, enc)
        case Err(e) => Err(e)
        case Ok(items) => Ok((List(ListOfDicts(items, enc)), artifactType))
    else if artifactType == Name(UnknownType) && !raw.NoneValue? then
      if IsBaseModel(raw) || raw.Dict? then
        match enc.jsonable(raw)
        case Ok(encoded) => Ok((encoded, Name(ObjectType)))
        case Err(_) => Ok((Str(BuiltSuccessfully), Name(ObjectType)))
      else Ok((Str(BuiltSuccessfully), artifactType))
    else Ok((raw, artifactType))
  }

  /** A stream's raw value is emptied and its type kept. */
  lemma PostProcessStream(raw: Value, enc: Encoders)
    ensures PostProcessRaw(raw, "stream", enc) == Ok((Str(""), "stream"))
  {
  }

  /** An array of items keeps its length; items that can dump themselves are serialised, the rest stringified. */
  lemma PostProcessArray(items: seq<Value>, enc: Encoders)
    ensures var r := PostProcessRaw(List(items), "array", enc);
            r.Ok? && r.value.1 == "array" && r.value.0.List? && |r.value.0.items| == |items| &&
            forall i :: 0 <= i < |items| ==>
              r.value.0.items[i] == (if HasDictMethod(items[i]) then enc.serialize(items[i]) else Str(enc.str(items[i])))
  {
  }

  /**
    An "unknown" value other than None: a model or dict becomes an "object",
    encoded if the encoder succeeds; anything else is reported as built,
    still "unknown".
   */
  lemma PostProcessUnknown(raw: Value, enc: Encoders)
    requires !raw.NoneValue?
    ensures var r := PostProcessRaw(raw, "unknown", enc);
            r.Ok? &&
            (r.value.1 == "object" <==> IsBaseModel(raw) || raw.Dict?) &&
            (r.value.1 == "unknown" <==> !(IsBaseModel(raw) || raw.Dict?)) &&
            (r.value.0 == Str(BuiltSuccessfully) <==>
               !(IsBaseModel(raw) || raw.Dict?) || enc.jsonable(raw).Err? || enc.jsonable(raw).value == Str(BuiltSuccessfully)) &&
            (enc.jsonable(raw).Ok? && (IsBaseModel(raw) || raw.Dict?) ==> r.value.0 == enc.jsonable(raw).value)
  {
  }

  /**
    Nothing changes for the other types, for "unknown" with a None raw value,
    and for strings that name no artifact type.
   */
  lemma PostProcessKeeps(raw: Value, artifactType: string, enc: Encoders)
    requires artifactType !in {"stream", "array", "unknown"} || (artifactType == "unknown" && raw.NoneValue?)
    ensures PostProcessRaw(raw, artifactType, enc) == Ok((raw, artifactType))
  {
  }

  /** The type only ever changes from "unknown" to "object"; it never fails except on iterating an "array". */
  lemma PostProcessTypeChanges(raw: Value, artifactType: string, enc: Encoders)
    ensures var r := PostProcessRaw(raw, artifactType, enc);
            (r.Err? ==> artifactType == "array" && !raw.Frame?) &&
            (r.Ok? && r.value.1 != artifactType ==> artifactType == "unknown" && r.value.1 == "object")
  {
  }

  /** The types the classifier produces stay artifact types through post-processing. */
  lemma PostProcessClassified(value: Value, buildResult: Value, enc: Encoders)
    requires GetArtifactType(value, buildResult).Ok?
    ensures var r := PostProcessRaw(value, GetArtifactType(value, buildResult).value, enc);
            r.Ok? ==> Parse(r.value.1).Some?
  {
  }
}
