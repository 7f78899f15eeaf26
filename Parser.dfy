/**
  The Parser component: it formats a DataFrame's rows or a Data object with a
  template, or, with `stringify` on, converts its input to a string.
  Template formatting and the pandas calls are parameters.
 */
module Parser {
  import opened Results
  import opened Values
  import opened Strings

  /** The collaborators the component hands its input to. */
  datatype Collaborators = Collaborators(
    /** `DataFrame.from_dict(d)`; it may raise. */
    fromDict: Value -> Result<Table, string>,
    /** `Data(**d)`; it may raise. */
    makeData: Value -> Result<Value, string>,
    /** `template.format(**fields)`; it may raise. */
    format: (string, seq<(string, Value)>) -> Result<string, string>,
    /** `to_markdown(index=False)`, after the cleaning steps when the flag is set; it may raise. */
    markdown: (Table, bool) -> Result<string, string>,
    /** `str(v)` */
    str: Value -> string)

  // ---------------------------------------------------------------------
  // update_build_config

  /** The component's build config: the settings of each input, by input name. */
  class BuildConfig {
    var fields: map<string, map<string, Value>>

    constructor(fields: map<string, map<string, Value>>)
      ensures this.fields == fields
    {
      this.fields := fields;
    }
  }

  /**
    The `stringify` toggle as the assignments happen: each right-hand side is
    evaluated before its target is looked up, so a missing `clean_data` entry
    raises after `template` was already changed.
   */
  function Toggled(fields: map<string, map<string, Value>>, value: Value): (Result<(), string>, map<string, map<string, Value>>) {
    match Truthy(value)
    case Err(e) => (Err(e), fields)
    case Ok(truthy) =>
      if "template" !in fields then (Err("'template'"), fields)
      else
        var shown := fields["template" := fields["template"]["show" := Bool(!truthy)]["required" := Bool(!truthy)]];
        if "clean_data" !in shown then (Err("'clean_data'"), shown)
        else (Ok(()), shown["clean_data" := shown["clean_data"]["show" := value]["required" := value]])
  }

  /**
    `update_build_config`: only the `stringify` field changes the config,
    which is updated in place.
   */
  method UpdateBuildConfig(config: BuildConfig, fieldValue: Value, fieldName: Option<string>) returns (r: Result<(), string>)
    modifies config
    ensures fieldName != Some("stringify") ==> r == Ok(()) && config.fields == old(config.fields)
    ensures fieldName == Some("stringify") ==> (r, config.fields) == Toggled(old(config.fields), fieldValue)
  {
    if fieldName == Some("stringify") {
      var truthy := Truthy(fieldValue);
      if truthy.Err? {
        return Err(truthy.error);
      }
      if "template" !in config.fields {
        return Err("'template'");
      }
      var hidden := Bool(!truthy.value);
      config.fields := config.fields["template" := config.fields["template"]["show" := hidden]["required" := hidden]];
      if "clean_data" !in config.fields {
        return Err("'clean_data'");
      }
      config.fields := config.fields["clean_data" := config.fields["clean_data"]["show" := fieldValue]["required" := fieldValue]];
    }
    r := Ok(());
  }

  /**
    With both entries present, `template` is shown and required exactly when
    the value is false and `clean_data` takes the value itself; nothing else
    changes, and toggling again with the same value changes nothing more.
   */
  lemma ToggleSetsVisibility(fields: map<string, map<string, Value>>, value: Value)
    requires "template" in fields && "clean_data" in fields && Truthy(value).Ok?
    ensures var (r, after) := Toggled(fields, value);
            r.Ok? &&
            after.Keys == fields.Keys &&
            after["template"]["show"] == after["template"]["required"] == Bool(!Truthy(value).value) &&
            after["clean_data"]["show"] == after["clean_data"]["required"] == value &&
            (forall k :: k in fields && k != "template" && k != "clean_data" ==> after[k] == fields[k]) &&
            (forall k :: k in fields["template"] && k != "show" && k != "required" ==> after["template"][k] == fields["template"][k]) &&
            (forall k :: k in fields["clean_data"] && k != "show" && k != "required" ==> after["clean_data"][k] == fields["clean_data"][k]) &&
            Toggled(after, value) == (Ok(()), after)
  {
    var truthy := Truthy(value).value;
    var shown := fields["template" := fields["template"]["show" := Bool(!truthy)]["required" := Bool(!truthy)]];
    var after := shown["clean_data" := shown["clean_data"]["show" := value]["required" := value]];
    assert Toggled(fields, value) == (Ok(()), after);
    assert after["template"] == shown["template"];
    assert after["template"]["show" := Bool(!truthy)]["required" := Bool(!truthy)] == after["template"];
    var shown2 := after["template" := after["template"]["show" := Bool(!truthy)]["required" := Bool(!truthy)]];
    assert shown2 == after;
    assert after["clean_data"]["show" := value]["required" := value] == after["clean_data"];
    var after2 := shown2["clean_data" := shown2["clean_data"]["show" := value]["required" := value]];
    assert after2 == after;
  }

  // ---------------------------------------------------------------------
  // _clean_args

  /** The `df` and `data` that `_clean_args` hands back; the other three are the component's own settings. */
  datatype Cleaned = Cleaned(df: Option<Table>, data: Option<Value>)

  const ListOfDataMessage := "List of Data objects is not supported."

  predicate AllData(items: seq<Value>) {
    forall i :: 0 <= i < |items| ==> IsData(items[i])
  }

  function UnsupportedMessage(input: Value): string {
    "Unsupported input type: " + ClassRepr(input) + ". Expected DataFrame or Data."
  }

  /** `_clean_args`: the type dispatch on the input. */
  function CleanArgs(input: Value, c: Collaborators): (r: Result<Cleaned, string>)
    ensures r.Ok? ==> input.Frame? || IsData(input) || (input.Dict? && HasKey(input.entries, "data"))
  {
    if input.List? && AllData(input.items) then Err(ListOfDataMessage)
    else if input.Frame? then Ok(Cleaned(Some(input.table), None))
    else if IsData(input) then Ok(Cleaned(None, Some(input)))
    else if input.Dict? && HasKey(input.entries, "data") then
      if HasKey(input.entries, "columns") then
        match c.fromDict(input)
        case Err(e) => Err("Invalid structured input provided: " + e)
        case Ok(t) => Ok(Cleaned(Some(t), None))
      else
        match c.makeData(input)
        case Err(e) => Err("Invalid structured input provided: " + e)
        case Ok(d) => Ok(Cleaned(None, Some(d)))
    else Err(UnsupportedMessage(input))
  }

  /**
    The dispatch: a list of Data, the empty list included, is refused; a
    DataFrame and a Data pass through; a dict with `data` goes to the
    DataFrame branch when it also has `columns` and to the Data branch
    otherwise; every other input is unsupported.
   */
  lemma CleanArgsDispatch(input: Value, c: Collaborators)
    ensures input == List([]) ==> CleanArgs(input, c) == Err(ListOfDataMessage)
    ensures input.List? && AllData(input.items) ==> CleanArgs(input, c) == Err(ListOfDataMessage)
    ensures input.Frame? ==> CleanArgs(input, c) == Ok(Cleaned(Some(input.table), None))
    ensures IsData(input) ==> CleanArgs(input, c) == Ok(Cleaned(None, Some(input)))
    ensures input.Dict? && HasKey(input.entries, "data") && HasKey(input.entries, "columns") && c.fromDict(input).Ok? ==>
              CleanArgs(input, c) == Ok(Cleaned(Some(c.fromDict(input).value), None))
    ensures input.Dict? && HasKey(input.entries, "data") && !HasKey(input.entries, "columns") && c.makeData(input).Ok? ==>
              CleanArgs(input, c) == Ok(Cleaned(None, Some(c.makeData(input).value)))
    ensures !input.Frame? && !IsData(input) && !(input.List? && AllData(input.items)) && !(input.Dict? && HasKey(input.entries, "data")) ==>
              CleanArgs(input, c) == Err(UnsupportedMessage(input))
  {
  }

  // ---------------------------------------------------------------------
  // convert_to_string

  /** `_validate_input` */
  function ValidateInput(input: Value): (r: Result<(), string>)
    ensures r.Ok? <==> IsData(input) || input.Frame? || input.Str? || input.List?
  {
    if input.NoneValue? then Err("Input data cannot be None")
    else if !(IsData(input) || input.Frame? || input.Str? || input.List?) then
      Err("Expected Data or DataFrame or Message or str, got " + TypeName(input))
    else Ok(())
  }

  const ConversionPrefix := "Error converting data: "

  /**
    `_safe_convert`: a str as it is, a Message's text, a Data's text unless it
    is None, a DataFrame as markdown, anything else through `str`.
   */
  function SafeConvert(data: Value, cleanData: bool, c: Collaborators): Result<Value, string> {
    match data
    case Str(_) => Ok(data)
    case MessageValue(text) => Ok(text)
    case DataValue(_, text) => if text.NoneValue? then Err(ConversionPrefix + "Empty Data object") else Ok(text)
    case Frame(t) =>
      (match c.markdown(t, cleanData)
       case Err(e) => Err(ConversionPrefix + e)
       case Ok(s) => Ok(Str(s)))
    case _ => Ok(Str(c.str(data)))
  }

  /** `[self._safe_convert(item) for item in items]`: the first item that raises ends it. */
  function ConvertAll(items: seq<Value>, cleanData: bool, c: Collaborators): Result<seq<Value>, string>
    decreases |items|
  {
    if items == [] then Ok([])
    else
      match SafeConvert(items[0], cleanData, c)
      case Err(e) => Err(e)
      case Ok(v) =>
        match ConvertAll(items[1..], cleanData, c)
        case Err(e) => Err(e)
        case Ok(rest) => Ok([v] + rest)
  }

  /** `sep.join(values)`: every item must be a str. */
  function JoinValues(values: seq<Value>, sep: string, index: nat): Result<string, string>
    decreases |values|
  {
    if values == [] then Ok("")
    else if !values[0].Str? then
      Err("sequence item " + IntToString(index) + ": expected str instance, " + TypeName(values[0]) + " found")
    else if |values| == 1 then Ok(values[0].s)
    else
      match JoinValues(values[1..], sep, index + 1)
      case Err(e) => Err(e)
      case Ok(rest) => Ok(values[0].s + sep + rest)
  }

  function Texts(values: seq<Value>): (r: seq<string>)
    requires forall i :: 0 <= i < |values| ==> values[i].Str?
    ensures |r| == |values|
    ensures forall i :: 0 <= i < |values| ==> r[i] == values[i].s
  {
    seq(|values|, i requires 0 <= i < |values| => values[i].s)
  }

  /** `sep.join` succeeds exactly when every item is a str. */
  lemma {:induction false} JoinValuesOk(values: seq<Value>, sep: string, index: nat)
    ensures JoinValues(values, sep, index).Ok? <==> forall i :: 0 <= i < |values| ==> values[i].Str?
    decreases |values|
  {
    if |values| > 1 {
      JoinValuesOk(values[1..], sep, index + 1);
      assert forall i :: 1 <= i < |values| ==> values[1..][i - 1] == values[i];
    }
  }

  /** A join of str values is the join of their texts. */
  lemma {:induction false} JoinValuesOfStrings(values: seq<Value>, sep: string, index: nat)
    requires forall i :: 0 <= i < |values| ==> values[i].Str?
    ensures JoinValues(values, sep, index) == Ok(Join(Texts(values), sep))
    decreases |values|
  {
    if |values| > 1 {
      JoinValuesOfStrings(values[1..], sep, index + 1);
      assert Texts(values) == [values[0].s] + Texts(values[1..]);
    }
  }

  /** The ValueError pydantic raises when a Message is given a text that is neither a str nor an iterator. */
  const MessageTextRefused := "1 validation error for Message: text is not a valid string"

  /**
    What `convert_to_string` does with a converted value after `_safe_convert`:
    `len(result)` for its log line, then `Message(text=result)`. A list, dict
    or DataFrame has a length but is no Message text; anything else that is
    not a str has no length.
   */
  function AsMessageText(v: Value): (r: Result<string, string>)
    ensures r.Ok? <==> v.Str?
  {
    match v
    case Str(s) => Ok(s)
    case List(_) => Err(MessageTextRefused)
    case Dict(_) => Err(MessageTextRefused)
    case Frame(_) => Err(MessageTextRefused)
    case _ => Err("object of type '" + TypeName(v) + "' has no len()")
  }

  /**
    `convert_to_string`: the text of the Message it returns. A list is
    converted item by item and joined with a newline whatever `sep` is.
   */
  function ConvertToString(input: Value, cleanData: bool, c: Collaborators): Result<string, string> {
    match ValidateInput(input)
    case Err(e) => Err(e)
    case Ok(_) =>
      if input.List? then
        match ConvertAll(input.items, cleanData, c)
        case Err(e) => Err(e)
        case Ok(values) => JoinValues(values, "\n", 0)
      else
        match SafeConvert(input, cleanData, c)
        case Err(e) => Err(e)
        case Ok(v) => AsMessageText(v)
  }

  /** Each converted item, in order, when none raises. */
  lemma {:induction false} ConvertAllItems(items: seq<Value>, cleanData: bool, c: Collaborators)
    ensures ConvertAll(items, cleanData, c).Ok? <==> forall i :: 0 <= i < |items| ==> SafeConvert(items[i], cleanData, c).Ok?
    ensures ConvertAll(items, cleanData, c).Ok? ==>
              var values := ConvertAll(items, cleanData, c).value;
              |values| == |items| && forall i :: 0 <= i < |items| ==> values[i] == SafeConvert(items[i], cleanData, c).value
    decreases |items|
  {
    if items != [] {
      ConvertAllItems(items[1..], cleanData, c);
      if SafeConvert(items[0], cleanData, c).Ok? && ConvertAll(items[1..], cleanData, c).Ok? {
        var values := ConvertAll(items, cleanData, c).value;
        forall i | 0 < i < |items|
          ensures values[i] == SafeConvert(items[i], cleanData, c).value
        {
          assert items[1..][i - 1] == items[i];
        }
      } else if SafeConvert(items[0], cleanData, c).Ok? {
        var i :| 0 <= i < |items[1..]| && !SafeConvert(items[1..][i], cleanData, c).Ok?;
        assert items[1..][i] == items[i + 1];
      }
    }
  }

  /**
    The conversion rules: None raises ValueError, an unsupported type
    TypeError, a str comes back unchanged, a Data with no text raises, and a
    list of str items is joined with newlines.
   */
  lemma ConvertToStringRules(input: Value, cleanData: bool, c: Collaborators)
    ensures input.NoneValue? ==> ConvertToString(input, cleanData, c) == Err("Input data cannot be None")
    ensures !input.NoneValue? && !(IsData(input) || input.Frame? || input.Str? || input.List?) ==>
              ConvertToString(input, cleanData, c) == Err("Expected Data or DataFrame or Message or str, got " + TypeName(input))
    ensures input.Str? ==> ConvertToString(input, cleanData, c) == Ok(input.s)
    ensures input.DataValue? && input.text.NoneValue? ==>
              ConvertToString(input, cleanData, c) == Err(ConversionPrefix + "Empty Data object")
    ensures input.List? && (forall i :: 0 <= i < |input.items| ==> input.items[i].Str?) ==>
              ConvertToString(input, cleanData, c) == Ok(Join(Texts(input.items), "\n"))
  {
    if input.List? && (forall i :: 0 <= i < |input.items| ==> input.items[i].Str?) {
      ConvertAllItems(input.items, cleanData, c);
      var values := ConvertAll(input.items, cleanData, c).value;
      assert values == input.items;
      JoinValuesOfStrings(values, "\n", 0);
    }
  }

  /**
    Data, Message and DataFrame inputs: the text of a Data or Message comes
    back when it is a str and raises otherwise (a Data with no text in
    `_safe_convert`, any other non-str text at the length of the log line);
    a DataFrame comes back as its markdown, or raises what rendering raised.
   */
  lemma ConvertToStringTexts(input: Value, cleanData: bool, c: Collaborators)
    ensures IsData(input) && input.text.Str? ==> ConvertToString(input, cleanData, c) == Ok(input.text.s)
    ensures IsData(input) && !input.text.Str? ==> ConvertToString(input, cleanData, c).Err?
    ensures IsData(input) && (input.text.Int? || input.text.Bool? || input.text.Generator?) ==>
              ConvertToString(input, cleanData, c) == Err("object of type '" + TypeName(input.text) + "' has no len()")
    ensures input.Frame? && c.markdown(input.table, cleanData).Ok? ==>
              ConvertToString(input, cleanData, c) == Ok(c.markdown(input.table, cleanData).value)
    ensures input.Frame? && c.markdown(input.table, cleanData).Err? ==>
              ConvertToString(input, cleanData, c) == Err(ConversionPrefix + c.markdown(input.table, cleanData).error)
  {
  }

  /**
    A list converts exactly when every item converts to a str; an item that
    raises, or converts to anything else, makes the whole conversion raise.
   */
  lemma ConvertToStringList(items: seq<Value>, cleanData: bool, c: Collaborators)
    ensures ConvertToString(List(items), cleanData, c).Ok? <==>
              forall i :: 0 <= i < |items| ==>
                SafeConvert(items[i], cleanData, c).Ok? && SafeConvert(items[i], cleanData, c).value.Str?
  {
    ConvertAllItems(items, cleanData, c);
    if ConvertAll(items, cleanData, c).Ok? {
      JoinValuesOk(ConvertAll(items, cleanData, c).value, "\n", 0);
    }
  }

  // ---------------------------------------------------------------------
  // parse_combined_text

  /** `get_text()` of a Data or Message. */
  function GetText(data: Value): Value {
    match data
    case DataValue(_, text) => text
    case MessageValue(text) => text
    case _ => NoneValue
  }

  /** The formatted line of each row, in order; a row that fails to format raises. */
  function FormatRows(template: string, t: Table, rows: seq<seq<Value>>, c: Collaborators): Result<seq<string>, string>
    decreases |rows|
  {
    if rows == [] then Ok([])
    else
      match c.format(template, RowDict(t.columns, rows[0]))
      case Err(e) => Err(e)
      case Ok(line) =>
        match FormatRows(template, t, rows[1..], c)
        case Err(e) => Err(e)
        case Ok(rest) => Ok([line] + rest)
  }

  /** The lines of the template branch: one per row, or the one line of a Data, or none. */
  function Lines(cleaned: Cleaned, template: string, c: Collaborators): Result<seq<string>, string> {
    if cleaned.df.Some? then FormatRows(template, cleaned.df.value, cleaned.df.value.rows, c)
    else if cleaned.data.Some? then
      match c.format(template, [("text", GetText(cleaned.data.value))])
      case Err(e) => Err(e)
      case Ok(line) => Ok([line])
    else Ok([])
  }

  /** `parse_combined_text`: the text of the Message it returns. */
  function ParseCombined(input: Value, template: string, sep: string, stringify: bool, cleanData: bool,
                         c: Collaborators): Result<string, string>
  {
    match CleanArgs(input, c)
    case Err(e) => Err(e)
    case Ok(cleaned) =>
      if stringify then ConvertToString(input, cleanData, c)
      else
        match Lines(cleaned, template, c)
        case Err(e) => Err(e)
        case Ok(lines) => Ok(Join(lines, sep))
  }

  /** Every row is formatted, in order, when none raises. */
  lemma {:induction false} FormatRowsEach(template: string, t: Table, rows: seq<seq<Value>>, c: Collaborators)
    ensures FormatRows(template, t, rows, c).Ok? <==>
              forall i :: 0 <= i < |rows| ==> c.format(template, RowDict(t.columns, rows[i])).Ok?
    ensures FormatRows(template, t, rows, c).Ok? ==>
              var lines := FormatRows(template, t, rows, c).value;
              |lines| == |rows| && forall i :: 0 <= i < |rows| ==> lines[i] == c.format(template, RowDict(t.columns, rows[i])).value
    decreases |rows|
  {
    if rows != [] {
      FormatRowsEach(template, t, rows[1..], c);
      if c.format(template, RowDict(t.columns, rows[0])).Ok? && FormatRows(template, t, rows[1..], c).Ok? {
        var lines := FormatRows(template, t, rows, c).value;
        forall i | 0 < i < |rows|
          ensures lines[i] == c.format(template, RowDict(t.columns, rows[i])).value
        {
          assert rows[1..][i - 1] == rows[i];
        }
      } else if c.format(template, RowDict(t.columns, rows[0])).Ok? {
        var i :| 0 <= i < |rows[1..]| && !c.format(template, RowDict(t.columns, rows[1..][i])).Ok?;
        assert rows[1..][i] == rows[i + 1];
      }
    }
  }

  /**
    Without `stringify`, a DataFrame gives one formatted line per row, in row
    order, joined by `sep`.
   */
  lemma ParseFrameRows(t: Table, template: string, sep: string, cleanData: bool, c: Collaborators)
    requires forall i :: 0 <= i < |t.rows| ==> c.format(template, RowDict(t.columns, t.rows[i])).Ok?
    ensures exists lines: seq<string> ::
              |lines| == |t.rows| &&
              (forall i :: 0 <= i < |t.rows| ==> lines[i] == c.format(template, RowDict(t.columns, t.rows[i])).value) &&
              ParseCombined(Frame(t), template, sep, false, cleanData, c) == Ok(Join(lines, sep))
  {
    FormatRowsEach(template, t, t.rows, c);
    var lines := FormatRows(template, t, t.rows, c).value;
    assert ParseCombined(Frame(t), template, sep, false, cleanData, c) == Ok(Join(lines, sep));
  }

  /**
    Without `stringify`, a Data or Message gives the one line the template
    makes of its text, whatever `sep` is, or raises what formatting raised.
   */
  lemma ParseDataLine(d: Value, template: string, sep: string, cleanData: bool, c: Collaborators)
    requires IsData(d)
    ensures c.format(template, [("text", GetText(d))]).Ok? ==>
              ParseCombined(d, template, sep, false, cleanData, c) == Ok(c.format(template, [("text", GetText(d))]).value)
    ensures c.format(template, [("text", GetText(d))]).Err? ==>
              ParseCombined(d, template, sep, false, cleanData, c) == Err(c.format(template, [("text", GetText(d))]).error)
  {
  }

  /** `_clean_args` runs before `stringify` is looked at, so a str input raises even with `stringify` on. */
  lemma StringifyStillCleans(s: string, template: string, sep: string, stringify: bool, cleanData: bool, c: Collaborators)
    ensures ParseCombined(Str(s), template, sep, stringify, cleanData, c) == Err(UnsupportedMessage(Str(s)))
  {
  }

  /**
    A dict accepted by `_clean_args` is then refused by `convert_to_string`,
    which validates the original input: with `stringify` on it raises TypeError.
   */
  lemma StringifyRefusesDict(input: Value, template: string, sep: string, cleanData: bool, c: Collaborators)
    requires input.Dict? && CleanArgs(input, c).Ok?
    ensures ParseCombined(input, template, sep, true, cleanData, c) == Err("Expected Data or DataFrame or Message or str, got " + TypeName(input))
    ensures TypeName(input) == "dict"
  {
  }

  /** The Parser component's inputs and its status. */
  class ParserComponent {
    var inputData: Value
    var template: string
    var sep: string
    var stringify: bool
    var cleanData: bool
    var status: Value

    constructor(inputData: Value, template: string, sep: string, stringify: bool, cleanData: bool)
      ensures this.inputData == inputData && this.template == template && this.sep == sep
      ensures this.stringify == stringify && this.cleanData == cleanData && status == NoneValue
    {
      this.inputData := inputData;
      this.template := template;
      this.sep := sep;
      this.stringify := stringify;
      this.cleanData := cleanData;
      status := NoneValue;
    }

    /**
      `parse_combined_text`: returns the text of its Message; on the template
      branch the status becomes that text.
     */
    method ParseCombinedText(c: Collaborators) returns (r: Result<string, string>)
      modifies this`status
      ensures r == ParseCombined(inputData, template, sep, stringify, cleanData, c)
      ensures if r.Ok? && !stringify then status == Str(r.value) else status == old(status)
    {
      var cleaned := CleanArgs(inputData, c);
      if cleaned.Err? {
        return Err(cleaned.error);
      }
      if stringify {
        return ConvertToString(inputData, cleanData, c);
      }
      var lines: seq<string> := [];
      if cleaned.value.df.Some? {
        var t := cleaned.value.df.value;
        var i := 0;
        assert t.rows[0..] == t.rows;
        assert FormatRows(template, t, t.rows, c).Ok? ==> [] + FormatRows(template, t, t.rows, c).value == FormatRows(template, t, t.rows, c).value;
        while i < |t.rows|
          invariant 0 <= i <= |t.rows|
          invariant status == old(status)
          invariant FormatRows(template, t, t.rows, c) ==
                    match FormatRows(template, t, t.rows[i..], c)
                    case Err(e) => Err(e)
                    case Ok(rest) => Ok(lines + rest)
        {
          assert t.rows[i..][1..] == t.rows[i + 1..];
          var line := c.format(template, RowDict(t.columns, t.rows[i]));
          if line.Err? {
            return Err(line.error);
          }
          Regroup(lines, line.value, t, t.rows[i + 1..], template, c);
          lines := lines + [line.value];
          i := i + 1;
        }
        assert t.rows[i..] == [];
        assert lines + [] == lines;
      } else if cleaned.value.data.Some? {
        var line := c.format(template, [("text", GetText(cleaned.value.data.value))]);
        if line.Err? {
          return Err(line.error);
        }
        lines := [line.value];
      }
      var combined := Join(lines, sep);
      status := Str(combined);
      r := Ok(combined);
    }
  }

  lemma Regroup(lines: seq<string>, line: string, t: Table, rows: seq<seq<Value>>, template: string, c: Collaborators)
    ensures match FormatRows(template, t, rows, c)
            case Err(e) => true
            case Ok(rest) => lines + ([line] + rest) == (lines + [line]) + rest
  {
  }
}
