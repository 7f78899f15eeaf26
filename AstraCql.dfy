/**
  The Astra DB CQL tool: the projection parser, and the REST request the
  tool builds (the key path, the URL with its page size and projection)
  together with how it turns the response into a result. The HTTP call
  itself is a parameter.
 */
module AstraCql {
  import opened Results
  import opened Strings
  import opened Json

  // ---------------------------------------------------------------------
  // projection_args

  /** The field an element names: a leading "!" is dropped. */
  function FieldOf(element: string): string {
    if StartsWith(element, "!") then element[1..] else element
  }

  /** Whether an element includes its field: it does unless it starts with "!". */
  predicate Included(element: string) {
    !StartsWith(element, "!")
  }

  /** The dict built from `elements` in order; a later element overwrites an earlier one for the same field. */
  function Projection(elements: seq<string>): map<string, bool>
    decreases |elements|
  {
    if elements == [] then map[]
    else
      var last := elements[|elements| - 1];
      Projection(elements[..|elements| - 1])[FieldOf(last) := Included(last)]
  }

  /** `projection_args(input_str)` */
  method ProjectionArgs(input: string) returns (result: map<string, bool>)
    ensures result == Projection(Split(input, ","))
  {
    var elements := Split(input, ",");
    result := map[];
    var i := 0;
    while i < |elements|
      invariant 0 <= i <= |elements|
      invariant result == Projection(elements[..i])
    {
      var element := elements[i];
      assert elements[..i + 1][..i] == elements[..i];
      if StartsWith(element, "!") {
        result := result[element[1..] := false];
      } else {
        result := result[element := true];
      }
      i := i + 1;
    }
    assert elements[..i] == elements;
  }

  /** The projection names exactly the fields of its elements. */
  lemma {:induction false} ProjectionFields(elements: seq<string>, field: string)
    ensures field in Projection(elements) <==> exists i :: 0 <= i < |elements| && FieldOf(elements[i]) == field
    decreases |elements|
  {
    if elements != [] {
      var init := elements[..|elements| - 1];
      ProjectionFields(init, field);
      if field in Projection(init) {
        var i :| 0 <= i < |init| && FieldOf(init[i]) == field;
        assert elements[i] == init[i];
      }
      if exists i :: 0 <= i < |elements| && FieldOf(elements[i]) == field {
        var i :| 0 <= i < |elements| && FieldOf(elements[i]) == field;
        if i < |init| {
          assert init[i] == elements[i];
        }
      }
    }
  }

  /**
    A field's flag comes from the last element naming it: true for a plain
    element, false for one starting with "!".
   */
  lemma {:induction false} ProjectionLastWins(elements: seq<string>, i: int)
    requires 0 <= i < |elements|
    requires forall j :: i < j < |elements| ==> FieldOf(elements[j]) != FieldOf(elements[i])
    ensures FieldOf(elements[i]) in Projection(elements)
    ensures Projection(elements)[FieldOf(elements[i])] == Included(elements[i])
    decreases |elements|
  {
    var init := elements[..|elements| - 1];
    if i < |elements| - 1 {
      forall j | i < j < |init|
        ensures FieldOf(init[j]) != FieldOf(init[i])
      {
        assert init[j] == elements[j];
      }
      ProjectionLastWins(init, i);
      assert init[i] == elements[i];
    }
  }

  /** Splitting always yields an element, so an empty input projects the empty field. */
  lemma ProjectionOfEmpty()
    ensures Projection(Split("", ",")) == map["" := true]
  {
    assert Split("", ",") == [""];
  }

  // ---------------------------------------------------------------------
  // astra_rest: the request

  /** The tool's inputs that shape the request. */
  datatype Settings = Settings(
    apiEndpoint: string,
    keyspace: string,
    tableName: string,
    token: string,
    projectionFields: string,
    /** `partition_keys`, in dict order. */
    partitionKeys: seq<(string, string)>,
    /** The keys of `clustering_keys`, in dict order. */
    clusteringKeys: seq<string>,
    /** `static_filters`; a value may be None. */
    staticFilters: map<string, Option<string>>,
    numberOfResults: int)

  /** The partition-key values, in dict order. */
  function PartitionValues(partitionKeys: seq<(string, string)>): (r: seq<string>)
    ensures |r| == |partitionKeys|
    ensures forall i :: 0 <= i < |r| ==> r[i] == partitionKeys[i].1
  {
    seq(|partitionKeys|, i requires 0 <= i < |partitionKeys| => partitionKeys[i].1)
  }

  /** `KeyError(k)` as `str()` shows it. */
  function KeyError(key: string): string {
    "'" + key + "'"
  }

  /**
    What one clustering key adds to the path: the argument if given, else the
    static filter unless that is None; indexing the static filters raises for a
    key that is in neither.
   */
  function ClusteringValue(key: string, args: map<string, string>, filters: map<string, Option<string>>): Result<Option<string>, string> {
    if key in args then Ok(Some(args[key]))
    else if key !in filters then Err(KeyError(key))
    else Ok(filters[key])
  }

  /** The key path after the first `|clustering|` clustering keys. */
  function KeyPath(partitionKeys: seq<(string, string)>, clustering: seq<string>,
                   args: map<string, string>, filters: map<string, Option<string>>): Result<seq<string>, string>
    decreases |clustering|
  {
    if clustering == [] then Ok(PartitionValues(partitionKeys))
    else
      match KeyPath(partitionKeys, clustering[..|clustering| - 1], args, filters)
      case Err(e) => Err(e)
      case Ok(path) =>
        match ClusteringValue(clustering[|clustering| - 1], args, filters)
        case Err(e) => Err(e)
        case Ok(None) => Ok(path)
        case Ok(Some(v)) => Ok(path + [v])
  }

  /** The key list `astra_rest` builds: partition values, then the clustering keys appended one by one. */
  method BuildKeyPath(s: Settings, args: map<string, string>) returns (r: Result<seq<string>, string>)
    ensures r == KeyPath(s.partitionKeys, s.clusteringKeys, args, s.staticFilters)
  {
    var key := PartitionValues(s.partitionKeys);
    var i := 0;
    while i < |s.clusteringKeys|
      invariant 0 <= i <= |s.clusteringKeys|
      invariant KeyPath(s.partitionKeys, s.clusteringKeys[..i], args, s.staticFilters) == Ok(key)
    {
      var k := s.clusteringKeys[i];
      assert s.clusteringKeys[..i + 1][..i] == s.clusteringKeys[..i];
      if k in args {
        key := key + [args[k]];
      } else if k !in s.staticFilters {
        KeyPathStopsAtError(s.partitionKeys, s.clusteringKeys, i + 1, args, s.staticFilters);
        return Err(KeyError(k));
      } else if s.staticFilters[k].Some? {
        key := key + [s.staticFilters[k].value];
      }
      i := i + 1;
    }
    assert s.clusteringKeys[..i] == s.clusteringKeys;
    r := Ok(key);
  }

  /** Once a prefix of the clustering keys fails, the whole list fails the same way. */
  lemma {:induction false} KeyPathStopsAtError(partitionKeys: seq<(string, string)>, clustering: seq<string>, n: nat,
                                               args: map<string, string>, filters: map<string, Option<string>>)
    requires n <= |clustering|
    requires KeyPath(partitionKeys, clustering[..n], args, filters).Err?
    ensures KeyPath(partitionKeys, clustering, args, filters) == KeyPath(partitionKeys, clustering[..n], args, filters)
    decreases |clustering| - n
  {
    if n < |clustering| {
      assert clustering[..n + 1][..n] == clustering[..n];
      KeyPathStopsAtError(partitionKeys, clustering, n + 1, args, filters);
    } else {
      assert clustering[..n] == clustering;
    }
  }

  /**
    The path starts with every partition value in dict order and adds at most
    one value per clustering key.
   */
  lemma {:induction false} KeyPathStartsWithPartition(partitionKeys: seq<(string, string)>, clustering: seq<string>,
                                                      args: map<string, string>, filters: map<string, Option<string>>)
    requires KeyPath(partitionKeys, clustering, args, filters).Ok?
    ensures var path := KeyPath(partitionKeys, clustering, args, filters).value;
            |partitionKeys| <= |path| <= |partitionKeys| + |clustering| &&
            path[..|partitionKeys|] == PartitionValues(partitionKeys)
    decreases |clustering|
  {
    if clustering != [] {
      KeyPathStartsWithPartition(partitionKeys, clustering[..|clustering| - 1], args, filters);
    }
  }

  /** The request can be built exactly when every clustering key is an argument or a static filter. */
  lemma {:induction false} KeyPathDefined(partitionKeys: seq<(string, string)>, clustering: seq<string>,
                                          args: map<string, string>, filters: map<string, Option<string>>)
    ensures KeyPath(partitionKeys, clustering, args, filters).Ok? <==>
            forall i :: 0 <= i < |clustering| ==> clustering[i] in args || clustering[i] in filters
    decreases |clustering|
  {
    if clustering != [] {
      var init := clustering[..|clustering| - 1];
      KeyPathDefined(partitionKeys, init, args, filters);
      assert forall i :: 0 <= i < |init| ==> init[i] == clustering[i];
    }
  }

  /** The clustering values taken from the arguments, for keys that are all given. */
  function ArgValues(clustering: seq<string>, args: map<string, string>): (r: seq<string>)
    requires forall i :: 0 <= i < |clustering| ==> clustering[i] in args
    ensures |r| == |clustering|
    ensures forall i :: 0 <= i < |r| ==> r[i] == args[clustering[i]]
  {
    seq(|clustering|, i requires 0 <= i < |clustering| => args[clustering[i]])
  }

  /** When the model supplies every clustering key, the static filters are never consulted. */
  lemma {:induction false} KeyPathFromArgs(partitionKeys: seq<(string, string)>, clustering: seq<string>,
                                           args: map<string, string>, filters: map<string, Option<string>>)
    requires forall i :: 0 <= i < |clustering| ==> clustering[i] in args
    ensures KeyPath(partitionKeys, clustering, args, filters) == Ok(PartitionValues(partitionKeys) + ArgValues(clustering, args))
    decreases |clustering|
  {
    if clustering != [] {
      var init := clustering[..|clustering| - 1];
      assert forall i :: 0 <= i < |init| ==> init[i] == clustering[i];
      KeyPathFromArgs(partitionKeys, init, args, filters);
      var v := args[clustering[|clustering| - 1]];
      assert ArgValues(clustering, args) == ArgValues(init, args) + [v];
      assert (PartitionValues(partitionKeys) + ArgValues(init, args)) + [v] == PartitionValues(partitionKeys) + (ArgValues(init, args) + [v]);
    } else {
      assert PartitionValues(partitionKeys) + ArgValues(clustering, args) == PartitionValues(partitionKeys);
    }
  }

  // ---------------------------------------------------------------------
  // URL construction

  /** Characters `urllib.parse.quote` keeps with its default `safe="/"`. */
  predicate Unreserved(c: char) {
    ('A' <= c <= 'Z') || ('a' <= c <= 'z') || ('0' <= c <= '9') || c == '_' || c == '.' || c == '-' || c == '~' || c == '/'
  }

  /** The UTF-8 encoding of a Unicode scalar value. */
  function Utf8(c: char): (r: seq<int>)
    ensures 1 <= |r| <= 4
    ensures forall i :: 0 <= i < |r| ==> 0 <= r[i] < 256
  {
    var n := c as int;
    if n < 0x80 then [n]
    else if n < 0x800 then [0xC0 + n / 64, 0x80 + n % 64]
    else if n < 0x10000 then [0xE0 + n / 4096, 0x80 + (n / 64) % 64, 0x80 + n % 64]
    else [0xF0 + n / 262144, 0x80 + (n / 4096) % 64, 0x80 + (n / 64) % 64, 0x80 + n % 64]
  }

  function HexDigit(d: int): (r: char)
    requires 0 <= d < 16
    ensures ('0' <= r <= '9') || ('A' <= r <= 'F')
  {
    "0123456789ABCDEF"[d]
  }

  /** `%XX` for each byte, upper-case hex. */
  function Escapes(bytes: seq<int>): (r: string)
    requires forall i :: 0 <= i < |bytes| ==> 0 <= bytes[i] < 256
    ensures |r| == 3 * |bytes|
    ensures forall i :: 0 <= i < |r| ==> r[i] == '%' || Unreserved(r[i])
  {
    if bytes == [] then []
    else ['%', HexDigit(bytes[0] / 16), HexDigit(bytes[0] % 16)] + Escapes(bytes[1..])
  }

  /** `urllib.parse.quote(s)`: safe characters kept, every other one percent-encoded as UTF-8. */
  function Quote(s: string): (r: string)
    ensures |r| >= |s|
    ensures forall i :: 0 <= i < |r| ==> r[i] == '%' || Unreserved(r[i])
    decreases |s|
  {
    if s == [] then []
    else (if Unreserved(s[0]) then [s[0]] else Escapes(Utf8(s[0]))) + Quote(s[1..])
  }

  /** Quoting leaves a string unchanged exactly when all its characters are safe. */
  lemma {:induction false} QuoteIdentity(s: string)
    ensures Quote(s) == s <==> forall i :: 0 <= i < |s| ==> Unreserved(s[i])
    decreases |s|
  {
    if s != [] {
      QuoteIdentity(s[1..]);
      if Unreserved(s[0]) {
        assert Quote(s) == [s[0]] + Quote(s[1..]);
        assert s == [s[0]] + s[1..];
        assert forall i :: 1 <= i < |s| ==> s[1..][i - 1] == s[i];
        if Quote(s) == s {
          assert Quote(s[1..]) == Quote(s)[1..];
          assert forall i :: 0 <= i < |s| ==> Unreserved(s[i]);
        }
        if forall i :: 0 <= i < |s| ==> Unreserved(s[i]) {
          assert forall i :: 0 <= i < |s[1..]| ==> Unreserved(s[1..][i]);
          assert Quote(s) == s;
        }
      } else {
        assert |Quote(s)| >= 3 + |Quote(s[1..])|;
        assert Quote(s) != s;
        assert !Unreserved(s[0]);
      }
    }
  }

  /** A string of safe characters holds no space. */
  lemma {:induction false} SafeHasNoSpace(s: string)
    requires forall i :: 0 <= i < |s| ==> Unreserved(s[i])
    ensures !Contains(s, " ")
    decreases |s|
  {
    if s != [] {
      assert forall i :: 0 <= i < |s| - 1 ==> s[1..][i] == s[i + 1];
      SafeHasNoSpace(s[1..]);
      assert s[..1][0] == s[0] != ' ';
    }
  }

  /** Removing spaces leaves none. */
  lemma {:induction false} NoSpaceLeft(s: string)
    ensures ' ' !in Replace(s, " ", "")
    decreases |s|
  {
    if s != [] {
      NoSpaceLeft(s[1..]);
    }
  }

  /** `astra_url` */
  function BaseUrl(s: Settings): string {
    s.apiEndpoint + "/api/rest/v2/keyspaces/" + s.keyspace + "/" + s.tableName + "/"
  }

  /** The `&fields=` parameter, empty for the projection "*". */
  function FieldsParameter(projection: string): string {
    if projection == "*" then "" else "&fields=" + Quote(Replace(projection, " ", ""))
  }

  /** The request URL for a key path. */
  function RequestUrl(s: Settings, key: seq<string>): string {
    BaseUrl(s) + Join(key, "/") + "?page-size=" + IntToString(s.numberOfResults) + FieldsParameter(s.projectionFields)
  }

  /**
    The fields parameter brings no query separator, no fragment and no space
    of its own: it holds only safe characters and percent escapes after its
    name, and it is absent exactly for the projection "*".
   */
  lemma FieldsParameterSafe(projection: string)
    ensures FieldsParameter(projection) == "" <==> projection == "*"
    ensures projection != "*" ==>
              StartsWith(FieldsParameter(projection), "&fields=") &&
              forall i :: 8 <= i < |FieldsParameter(projection)| ==>
                FieldsParameter(projection)[i] == '%' || Unreserved(FieldsParameter(projection)[i])
  {
    if projection != "*" {
      var p := FieldsParameter(projection);
      assert p[..8] == "&fields=";
      forall i | 8 <= i < |p|
        ensures p[i] == '%' || Unreserved(p[i])
      {
        assert p[i] == Quote(Replace(projection, " ", ""))[i - 8];
      }
    }
  }

  /** A projection of safe characters without spaces is sent as written. */
  lemma FieldsParameterVerbatim(projection: string)
    requires projection != "*"
    requires forall i :: 0 <= i < |projection| ==> Unreserved(projection[i])
    ensures FieldsParameter(projection) == "&fields=" + projection
  {
    SafeHasNoSpace(projection);
    ReplaceAbsent(projection, " ", "");
    QuoteIdentity(projection);
  }

  // ---------------------------------------------------------------------
  // astra_rest: the response

  /** The HTTP response: status, body text, and `res.json()` (a ValueError when the body is not JSON). */
  datatype Response = Response(status: int, text: string, json: Result<Json, string>)

  /** What `astra_rest` returns: the body text, the `"data"` member, or the status code. */
  datatype Reply = Text(text: string) | Rows(data: Json) | Status(code: int)

  const BadRequest := 400

  /** `res_data["data"]` on a decoded body, with the exception each other shape raises. */
  function Subscript(body: Json, key: string): (r: Result<Json, string>)
    ensures r.Ok? <==> body.JObj? && key in body.fields
  {
    match body
    case JObj(fields) => if key in fields then Ok(fields[key]) else Err(KeyError(key))
    case JArr(_) => Err("list indices must be integers or slices, not str")
    case JStr(_) => Err("string indices must be integers, not 'str'")
    case _ => Err("'" + TypeName(body) + "' object is not subscriptable")
  }

  /**
    The reply for a response: the body text for an error status, else the
    `"data"` member, else the status when the body is not JSON; a JSON body
    without `"data"` raises.
   */
  function ReplyOf(res: Response): Result<Reply, string> {
    if res.status >= BadRequest then Ok(Text(res.text))
    else if res.json.Err? then Ok(Status(res.status))
    else
      match Subscript(res.json.value, "data")
      case Ok(data) => Ok(Rows(data))
      case Err(e) => Err(e)
  }

  /** The status decides between the body text and the data. */
  lemma ReplyByStatus(res: Response)
    ensures ReplyOf(res).Ok? && ReplyOf(res).value.Text? <==> res.status >= BadRequest
    ensures ReplyOf(res).Ok? && ReplyOf(res).value.Text? ==> ReplyOf(res).value.text == res.text
    ensures ReplyOf(res).Ok? && ReplyOf(res).value.Status? <==> res.status < BadRequest && res.json.Err?
    ensures ReplyOf(res).Ok? && ReplyOf(res).value.Rows? <==>
            res.status < BadRequest && res.json.Ok? && res.json.value.JObj? && "data" in res.json.value.fields
  {
  }

  /**
    `astra_rest(args)`: the URL it requests (when it gets that far) and what
    it returns or raises. `fetch` is the HTTP GET.
   */
  method AstraRest(s: Settings, args: map<string, string>, fetch: string -> Response)
    returns (url: Option<string>, r: Result<Reply, string>)
    ensures KeyPath(s.partitionKeys, s.clusteringKeys, args, s.staticFilters).Err? ==>
              url == None && r == Err(KeyPath(s.partitionKeys, s.clusteringKeys, args, s.staticFilters).error)
    ensures KeyPath(s.partitionKeys, s.clusteringKeys, args, s.staticFilters).Ok? ==>
              url == Some(RequestUrl(s, KeyPath(s.partitionKeys, s.clusteringKeys, args, s.staticFilters).value)) &&
              r == ReplyOf(fetch(url.value))
  {
    var key := BuildKeyPath(s, args);
    if key.Err? {
      return None, Err(key.error);
    }
    var fields := "";
    if s.projectionFields != "*" {
      fields := "&fields=" + Quote(Replace(s.projectionFields, " ", ""));
    }
    var u := BaseUrl(s) + Join(key.value, "/") + "?page-size=" + IntToString(s.numberOfResults) + fields;
    url := Some(u);
    var res := fetch(u);
    if res.status >= BadRequest {
      return url, Ok(Text(res.text));
    }
    if res.json.Err? {
      return url, Ok(Status(res.status));
    }
    var data := Subscript(res.json.value, "data");
    if data.Err? {
      return url, Err(data.error);
    }
    r := Ok(Rows(data.value));
  }
}
