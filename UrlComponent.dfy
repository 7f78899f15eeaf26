/**
  The URL component: scheme normalisation of the URLs it is given, and the
  loading loop that cleans the URL list, hands each URL to the recursive
  loader and gathers the documents. The loader (HTTP and HTML parsing) is a
  parameter.
 */
module UrlComponent {
  import opened Results
  import opened Strings

  const Http := "http://"
  const Https := "https://"

  /** The case-sensitive scheme test `ensure_url` makes. */
  predicate HasScheme(url: string) {
    StartsWith(url, Http) || StartsWith(url, Https)
  }

  /** `ensure_url(url)`: a URL without an http(s) scheme gets "https://" in front. */
  function EnsureUrl(url: string): (r: string)
    ensures HasScheme(r)
    ensures EndsWith(r, url)
    ensures |r| <= |url| + |Https|
  {
    if HasScheme(url) then
      assert url[|url| - |url|..] == url;
      url
    else
      var r := Https + url;
      assert r[..|Https|] == Https;
      assert r[|r| - |url|..] == url;
      r
  }

  /** Normalising twice is normalising once. */
  lemma EnsureUrlIdempotent(url: string)
    ensures EnsureUrl(EnsureUrl(url)) == EnsureUrl(url)
  {
  }

  /** A URL is left alone exactly when it already has a scheme; otherwise it is kept whole after "https://". */
  lemma EnsureUrlKeeps(url: string)
    ensures EnsureUrl(url) == url <==> HasScheme(url)
    ensures !HasScheme(url) ==> EnsureUrl(url) == Https + url
  {
  }

  /** The scheme test is case-sensitive: an upper-case scheme gets a second one. */
  lemma EnsureUrlCaseSensitive()
    ensures EnsureUrl("HTTP://example.com") == Https + "HTTP://example.com"
  {
    var u := "HTTP://example.com";
    assert u[0] == 'H';
    assert !StartsWith(u, Http) by { assert u[..|Http|][0] != Http[0]; }
    assert !StartsWith(u, Https) by { assert u[..|Https|][0] != Https[0]; }
  }

  /**
    The URLs the component loads from, in order: each entry stripped, the
    entries that strip to nothing dropped, the rest normalised.
   */
  function Targets(urls: seq<string>): (r: seq<string>)
    ensures |r| <= |urls|
    decreases |urls|
  {
    if urls == [] then []
    else
      var rest := Targets(urls[..|urls| - 1]);
      var u := Strip(urls[|urls| - 1]);
      if u == "" then rest else rest + [EnsureUrl(u)]
  }

  /** Every URL loaded has a scheme and ends with a stripped, non-empty entry of the list. */
  lemma {:induction false} TargetsNormalised(urls: seq<string>)
    ensures forall k :: 0 <= k < |Targets(urls)| ==>
              HasScheme(Targets(urls)[k]) &&
              exists i :: 0 <= i < |urls| && Strip(urls[i]) != "" && Targets(urls)[k] == EnsureUrl(Strip(urls[i]))
    decreases |urls|
  {
    if urls != [] {
      var init := urls[..|urls| - 1];
      TargetsNormalised(init);
      forall k | 0 <= k < |Targets(init)|
        ensures exists i :: 0 <= i < |urls| && Strip(urls[i]) != "" && Targets(init)[k] == EnsureUrl(Strip(urls[i]))
      {
        var i :| 0 <= i < |init| && Strip(init[i]) != "" && Targets(init)[k] == EnsureUrl(Strip(init[i]));
        assert urls[i] == init[i];
      }
    }
  }

  /** Lists load in order: the targets of a concatenation are the concatenated targets. */
  lemma {:induction false} TargetsAppend(a: seq<string>, b: seq<string>)
    ensures Targets(a + b) == Targets(a) + Targets(b)
    decreases |b|
  {
    if b == [] {
      assert a + b == a;
    } else {
      var init := b[..|b| - 1];
      assert (a + b)[..|a + b| - 1] == a + init;
      TargetsAppend(a, init);
    }
  }

  /** Nothing is loaded exactly when every entry is blank. */
  lemma {:induction false} TargetsEmpty(urls: seq<string>)
    ensures Targets(urls) == [] <==> forall i :: 0 <= i < |urls| ==> Strip(urls[i]) == ""
    decreases |urls|
  {
    if urls != [] {
      var init := urls[..|urls| - 1];
      TargetsEmpty(init);
      assert forall i :: 0 <= i < |init| ==> init[i] == urls[i];
    }
  }

  /** A loaded page: its content and its metadata. */
  datatype Document = Document(pageContent: string, metadata: map<string, string>)

  /** `Data(text=doc.page_content, **doc.metadata)`: the text and the metadata as one record. */
  datatype Record = Record(text: string, metadata: map<string, string>)

  /** The loader's settings for one URL. */
  datatype LoadRequest = LoadRequest(url: string, maxDepth: int, preventOutside: bool, useAsync: bool, rawHtml: bool)

  const ErrorPrefix := "Error loading documents: "

  /**
    The TypeError Python raises when the metadata repeats the `text` keyword.
    The callable is named with its module, as `langflow.schema.data` defines `Data`.
   */
  const DuplicateText := "langflow.schema.data.Data() got multiple values for keyword argument 'text'"

  /** The records for the documents; metadata with a `text` key cannot be passed as keywords. */
  function Records(docs: seq<Document>): (r: Result<seq<Record>, string>)
    ensures r.Ok? <==> forall i :: 0 <= i < |docs| ==> "text" !in docs[i].metadata
    ensures r.Ok? ==> |r.value| == |docs|
    ensures r.Ok? ==> forall i :: 0 <= i < |docs| ==> r.value[i] == Record(docs[i].pageContent, docs[i].metadata)
  {
    if exists i :: 0 <= i < |docs| && "text" in docs[i].metadata then Err(DuplicateText)
    else Ok(seq(|docs|, i requires 0 <= i < |docs| => Record(docs[i].pageContent, docs[i].metadata)))
  }

  /** The URL component's inputs and its status. */
  class URLComponent {
    var urls: seq<string>
    var maxDepth: int
    var preventOutside: bool
    var useAsync: bool
    var format: string
    var status: seq<Record>

    constructor(urls: seq<string>, maxDepth: int, preventOutside: bool, useAsync: bool, format: string)
      ensures this.urls == urls && this.maxDepth == maxDepth && this.preventOutside == preventOutside
      ensures this.useAsync == useAsync && this.format == format && status == []
    {
      this.urls := urls;
      this.maxDepth := maxDepth;
      this.preventOutside := preventOutside;
      this.useAsync := useAsync;
      this.format := format;
      status := [];
    }

    /** The loader settings for one URL; "Raw HTML" keeps the page as fetched. */
    function Request(url: string): LoadRequest
      reads this
    {
      LoadRequest(url, maxDepth, preventOutside, useAsync, format == "Raw HTML")
    }

    /** The documents of `targets`, loaded in order; the first loader failure ends the loading. */
    function LoadAll(targets: seq<string>, load: LoadRequest -> Result<seq<Document>, string>): Result<seq<Document>, string>
      reads this
      decreases |targets|
    {
      if targets == [] then Ok([])
      else
        match LoadAll(targets[..|targets| - 1], load)
        case Err(e) => Err(e)
        case Ok(docs) =>
          match load(Request(targets[|targets| - 1]))
          case Err(e) => Err(e)
          case Ok(more) => Ok(docs + more)
    }

    /** What `fetch_content` returns or raises. */
    function Fetched(load: LoadRequest -> Result<seq<Document>, string>): Result<seq<Record>, string>
      reads this
    {
      match LoadAll(Targets(urls), load)
      case Err(e) => Err(ErrorPrefix + e)
      case Ok(docs) =>
        match Records(docs)
        case Err(e) => Err(ErrorPrefix + e)
        case Ok(records) => Ok(records)
    }

    /**
      `fetch_content`: loads every target in order and, on success, sets the
      status to the records it returns; any failure is re-raised as a
      ValueError and leaves the status alone.
     */
    method FetchContent(load: LoadRequest -> Result<seq<Document>, string>) returns (r: Result<seq<Record>, string>)
      modifies this`status
      ensures r == old(Fetched(load))
      ensures if r.Ok? then status == r.value else status == old(status)
    {
      var targets := Targets(urls);
      var allDocs: seq<Document> := [];
      var i := 0;
      while i < |targets|
        invariant 0 <= i <= |targets|
        invariant status == old(status)
        invariant LoadAll(targets[..i], load) == Ok(allDocs)
      {
        assert targets[..i + 1][..i] == targets[..i];
        var docs := load(Request(targets[i]));
        if docs.Err? {
          LoadAllStops(targets, i + 1, load);
          return Err(ErrorPrefix + docs.error);
        }
        allDocs := allDocs + docs.value;
        i := i + 1;
      }
      assert targets[..i] == targets;
      var data := Records(allDocs);
      if data.Err? {
        return Err(ErrorPrefix + data.error);
      }
      status := data.value;
      r := Ok(data.value);
    }

    /** Once a prefix of the targets fails to load, loading all of them fails the same way. */
    lemma {:induction false} LoadAllStops(targets: seq<string>, n: nat, load: LoadRequest -> Result<seq<Document>, string>)
      requires n <= |targets|
      requires LoadAll(targets[..n], load).Err?
      ensures LoadAll(targets, load) == LoadAll(targets[..n], load)
      decreases |targets| - n
    {
      if n < |targets| {
        assert targets[..n + 1][..n] == targets[..n];
        LoadAllStops(targets, n + 1, load);
      } else {
        assert targets[..n] == targets;
      }
    }

    /** Loading succeeds exactly when the loader accepts every target, and then yields all their documents in order. */
    lemma {:induction false} LoadAllEach(targets: seq<string>, load: LoadRequest -> Result<seq<Document>, string>)
      ensures LoadAll(targets, load).Ok? <==> forall k :: 0 <= k < |targets| ==> load(Request(targets[k])).Ok?
      ensures LoadAll(targets, load).Ok? ==> |LoadAll(targets, load).value| == TotalDocs(targets, load)
      decreases |targets|
    {
      if targets != [] {
        var init := targets[..|targets| - 1];
        LoadAllEach(init, load);
        assert forall k :: 0 <= k < |init| ==> init[k] == targets[k];
      }
    }

    /** The number of documents the loader returns for the targets it accepts. */
    function TotalDocs(targets: seq<string>, load: LoadRequest -> Result<seq<Document>, string>): nat
      reads this
      decreases |targets|
    {
      if targets == [] then 0
      else
        var here := load(Request(targets[|targets| - 1]));
        TotalDocs(targets[..|targets| - 1], load) + (if here.Ok? then |here.value| else 0)
    }

    /** Every failure surfaces with the "Error loading documents: " prefix; a success has one record per document. */
    lemma FetchedOutcome(load: LoadRequest -> Result<seq<Document>, string>)
      ensures Fetched(load).Err? ==> StartsWith(Fetched(load).error, ErrorPrefix)
      ensures Fetched(load).Ok? <==>
                (forall k :: 0 <= k < |Targets(urls)| ==> load(Request(Targets(urls)[k])).Ok?) &&
                LoadAll(Targets(urls), load).Ok? && Records(LoadAll(Targets(urls), load).value).Ok?
      ensures Fetched(load).Ok? ==> |Fetched(load).value| == TotalDocs(Targets(urls), load)
    {
      LoadAllEach(Targets(urls), load);
      if Fetched(load).Err? {
        assert (ErrorPrefix + Fetched(load).error[|ErrorPrefix|..])[..|ErrorPrefix|] == ErrorPrefix;
      }
    }
  }
}
