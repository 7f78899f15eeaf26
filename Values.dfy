/**
  The shapes of Python values that the artifact classifier and the Parser
  component tell apart: builtins, pandas DataFrames, and langflow's `Data`
  and `Message` (a `Message` is a `Data`, and both are pydantic models).
 */
module Values {
  import opened Results

  /** A pandas DataFrame: column labels and rows of cells. */
  datatype Table = Table(columns: seq<string>, rows: seq<seq<Value>>)

  datatype Value =
    | NoneValue
    | Bool(b: bool)
    | Int(i: int)
    | Str(s: string)
      /** A dict, its entries in insertion order. */
    | Dict(entries: seq<(string, Value)>)
    | List(items: seq<Value>)
    | Frame(table: Table)
      /** A langflow `Data`: its `.data` and what its `get_text()` returns. */
    | DataValue(data: Value, text: Value)
      /** A langflow `Message`: its `.text`. */
    | MessageValue(text: Value)
    | Generator
      /** Any other pydantic model. */
    | Model(className: string)
      /** Any other object, and whether it has a `dict` attribute. */
    | Other(className: string, hasDictMethod: bool)

  /** `isinstance(v, Data)`: a `Message` is a `Data` too. */
  predicate IsData(v: Value) {
    v.DataValue? || v.MessageValue?
  }

  /** `isinstance(v, BaseModel)` */
  predicate IsBaseModel(v: Value) {
    IsData(v) || v.Model?
  }

  /** `hasattr(v, "dict") or hasattr(v, "model_dump")` */
  predicate HasDictMethod(v: Value) {
    IsBaseModel(v) || (v.Other? && v.hasDictMethod)
  }

  /** `type(v).__name__` */
  function TypeName(v: Value): string {
    match v
    case NoneValue => "NoneType"
    case Bool(_) => "bool"
    case Int(_) => "int"
    case Str(_) => "str"
    case Dict(_) => "dict"
    case List(_) => "list"
    case Frame(_) => "DataFrame"
    case DataValue(_, _) => "Data"
    case MessageValue(_) => "Message"
    case Generator => "generator"
    case Model(name) => name
    case Other(name, _) => name
  }

  /** `str(type(v))`: builtins print bare, langflow's classes with their module. */
  function ClassRepr(v: Value): string {
    var qualified :=
      match v
      case Frame(_) => "langflow.schema.dataframe.DataFrame"
      case DataValue(_, _) => "langflow.schema.data.Data"
      case MessageValue(_) => "langflow.schema.message.Message"
      case _ => TypeName(v);
    "<class '" + qualified + "'>"
  }

  /** The keys of a dict, in order. */
  function Keys(entries: seq<(string, Value)>): (r: seq<string>)
    ensures |r| == |entries|
    ensures forall i :: 0 <= i < |entries| ==> r[i] == entries[i].0
  {
    seq(|entries|, i requires 0 <= i < |entries| => entries[i].0)
  }

  /** `row.to_dict()`: each column label paired with its cell, as far as both go. */
  function RowDict(columns: seq<string>, row: seq<Value>): (r: seq<(string, Value)>)
    ensures |r| == if |columns| < |row| then |columns| else |row|
    ensures forall i :: 0 <= i < |r| ==> r[i] == (columns[i], row[i])
  {
    var n := if |columns| < |row| then |columns| else |row|;
    seq(n, i requires 0 <= i < n => (columns[i], row[i]))
  }

  /** `key in d` */
  predicate HasKey(entries: seq<(string, Value)>, key: string) {
    key in Keys(entries)
  }

  /** The ValueError pandas raises when a DataFrame is used as a condition. */
  const DataFrameTruthError := "The truth value of a DataFrame is ambiguous. Use a.empty, a.bool(), a.item(), a.any() or a.all()."

  /**
    Python truthiness; a DataFrame refuses to be used as a condition.
    Models and other objects define no length and are true.
   */
  function Truthy(v: Value): Result<bool, string> {
    match v
    case NoneValue => Ok(false)
    case Bool(b) => Ok(b)
    case Int(i) => Ok(i != 0)
    case Str(s) => Ok(s != "")
    case Dict(entries) => Ok(entries != [])
    case List(items) => Ok(items != [])
    case Frame(_) => Err(DataFrameTruthError)
    case _ => Ok(true)
  }
}
