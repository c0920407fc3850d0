/** The search actions of forge/actions/web/web_search.py: `web_search`
    retries the DuckDuckGo provider while it returns nothing, `google` keeps the
    link of each Google result or classifies the API's error, and
    `safe_google_results` puts either outcome into a safe string. */
module WebSearch {
  import opened Wrappers
  import opened PyStr
  import opened PyValue

  /** `DUCKDUCKGO_MAX_ATTEMPTS`. */
  const MaxAttempts: nat := 3

  /** What `safe_google_results` is given: a string or a list of strings. */
  datatype Results = Text(s: string) | Links(links: seq<string>)

  /** `safe_google_results`: a list becomes the dump of its sanitised
      elements, a string is sanitised. */
  function SafeGoogleResults(lib: Lib, results: Results): string {
    match results
    case Text(s) => lib.sanitize(s)
    case Links(links) =>
      lib.dumps(Arr(seq(|links|, i requires 0 <= i < |links| => Str(lib.sanitize(links[i])))))
  }

  /** A list yields a JSON array with one sanitised string per input, in
      order; a string yields its sanitised self. */
  lemma SafeGoogleResultsShape(lib: Lib, results: Results)
    ensures results.Text? ==> SafeGoogleResults(lib, results) == lib.sanitize(results.s)
    ensures results.Links? ==>
      exists items: seq<Value> ::
        && SafeGoogleResults(lib, results) == lib.dumps(Arr(items))
        && |items| == |results.links|
        && (forall i :: 0 <= i < |items| ==> items[i] == Str(lib.sanitize(results.links[i])))
  {
    if results.Links? {
      var links := results.links;
      var items := seq(|links|, i requires 0 <= i < |links| => Str(lib.sanitize(links[i])));
      assert SafeGoogleResults(lib, results) == lib.dumps(Arr(items));
    }
  }

  // ============================================================ web_search

  /** The attempt (0-based) at which the provider first answers with results,
      looking from attempt `k` on; `MaxAttempts` when none does. */
  function FirstHit(provider: nat -> seq<Value>, k: nat): (h: nat)
    requires k <= MaxAttempts
    ensures k <= h <= MaxAttempts
    ensures forall j :: k <= j < h ==> provider(j) == []
    ensures h < MaxAttempts ==> provider(h) != []
    decreases MaxAttempts - k
  {
    if k == MaxAttempts then k
    else if provider(k) != [] then k
    else FirstHit(provider, k + 1)
  }

  /** What one `web_search` call returns, how many provider calls it makes
      and how many times it sleeps. */
  datatype SearchRun = SearchRun(output: string, calls: nat, sleeps: nat)

  /** `web_search` in closed form. `provider(k)` is the provider's response
      to the k-th call (0-based). */
  function Search(lib: Lib, query: string, provider: nat -> seq<Value>): SearchRun {
    if query == [] then SearchRun(lib.dumps(Arr([])), 0, 0)
    else
      var h := FirstHit(provider, 0);
      if h < MaxAttempts then
        SearchRun(SafeGoogleResults(lib, Text(lib.dumpsPretty(Arr(provider(h))))), h + 1, h)
      else
        SearchRun(SafeGoogleResults(lib, Text(lib.dumpsPretty(Arr([])))), MaxAttempts, MaxAttempts)
  }

  /** `web_search`: the retry loop, one provider call per round and one sleep
      after each empty response. */
  method WebSearch(lib: Lib, query: string, provider: nat -> seq<Value>)
    returns (output: string, calls: nat, sleeps: nat)
    ensures SearchRun(output, calls, sleeps) == Search(lib, query, provider)
  {
    var searchResults: seq<Value> := [];
    var attempts: nat := 0;
    calls, sleeps := 0, 0;
    while attempts < MaxAttempts
      invariant attempts <= MaxAttempts
      invariant calls == attempts && sleeps == attempts
      invariant searchResults == []
      invariant query != [] || attempts == 0
      invariant forall j :: 0 <= j < attempts ==> provider(j) == []
    {
      if query == [] {
        return lib.dumps(Arr(searchResults)), calls, sleeps;
      }
      searchResults := provider(calls);
      calls := calls + 1;
      if searchResults != [] {
        break;
      }
      sleeps := sleeps + 1;
      attempts := attempts + 1;
    }
    output := SafeGoogleResults(lib, Text(lib.dumpsPretty(Arr(searchResults))));
  }

  /** An empty query makes no provider call, never sleeps and gives `"[]"`. */
  lemma EmptyQueryMakesNoCalls(lib: Lib, provider: nat -> seq<Value>)
    requires lib.dumps(Arr([])) == "[]"
    ensures Search(lib, [], provider) == SearchRun("[]", 0, 0)
  {
  }

  /** A non-empty query makes between one and `MaxAttempts` provider calls. */
  lemma CallsBounded(lib: Lib, query: string, provider: nat -> seq<Value>)
    requires query != []
    ensures 1 <= Search(lib, query, provider).calls <= MaxAttempts
  {
  }

  /** The first non-empty response ends the loop and is what gets
      serialised and returned. */
  lemma FirstNonEmptyResponseWins(lib: Lib, query: string, provider: nat -> seq<Value>, k: nat)
    requires query != [] && k < MaxAttempts
    requires forall j :: 0 <= j < k ==> provider(j) == []
    requires provider(k) != []
    ensures Search(lib, query, provider) ==
      SearchRun(lib.sanitize(lib.dumpsPretty(Arr(provider(k)))), k + 1, k)
  {
  }

  /** When every response is empty, all `MaxAttempts` calls are made, each
      is followed by a sleep, and the result is `"[]"`. */
  lemma AllEmptyResponsesGiveEmptyList(lib: Lib, query: string, provider: nat -> seq<Value>)
    requires query != []
    requires lib.dumpsPretty(Arr([])) == "[]" && lib.sanitize("[]") == "[]"
    requires forall j :: 0 <= j < MaxAttempts ==> provider(j) == []
    ensures Search(lib, query, provider) == SearchRun("[]", MaxAttempts, MaxAttempts)
  {
  }

  /** The number of empty responses among the first `n` calls. */
  function EmptyCount(provider: nat -> seq<Value>, n: nat): nat {
    if n == 0 then 0
    else EmptyCount(provider, n - 1) + (if provider(n - 1) == [] then 1 else 0)
  }

  lemma {:induction false} EmptyCountAllEmpty(provider: nat -> seq<Value>, n: nat)
    requires forall j :: 0 <= j < n ==> provider(j) == []
    ensures EmptyCount(provider, n) == n
  {
    if n > 0 {
      EmptyCountAllEmpty(provider, n - 1);
    }
  }

  /** Exactly one sleep per empty response received. */
  lemma OneSleepPerEmptyResponse(lib: Lib, query: string, provider: nat -> seq<Value>)
    ensures var run := Search(lib, query, provider);
      run.sleeps == EmptyCount(provider, run.calls)
  {
    if query != [] {
      var h := FirstHit(provider, 0);
      EmptyCountAllEmpty(provider, h);
    }
  }

  // ================================================================ google

  /** The exceptions `google` raises. */
  datatype GoogleError =
    | AssertionError              // an API key or search-engine id is not configured
    | ConfigurationError          // the API reports the key as invalid
    | HttpError(content: string)  // the API's error, re-raised unchanged
    | KeyError(key: string)       // a result item without a "link"
    | JsonDecodeError             // the error body is not JSON
    | AttributeError              // `.get` on a part of the error body that is not a dict
    | TypeError                   // `in` on a "message" that is a number, boolean or null

  /** What the API call ended in: a response whose "items" entry may be
      missing (each item a dict of string fields), or an `HttpError` with its
      decoded body. */
  datatype GoogleReply =
    | Response(items: Option<seq<map<string, string>>>)
    | Failed(content: string)

  /** `[item["link"] for item in search_results]`. */
  function ExtractLinks(items: seq<map<string, string>>): (r: Result<seq<string>, GoogleError>)
    ensures r.Success? <==> forall i :: 0 <= i < |items| ==> "link" in items[i]
    ensures r.Success? ==>
      |r.value| == |items| && forall i :: 0 <= i < |items| ==> r.value[i] == items[i]["link"]
    ensures r.Failure? ==> r.error == KeyError("link")
  {
    if items == [] then Success([])
    else if "link" !in items[0] then Failure(KeyError("link"))
    else
      match ExtractLinks(items[1..])
      case Failure(e) => Failure(e)
      case Success(rest) => Success([items[0]["link"]] + rest)
  }

  const InvalidKeyText := "invalid API key"

  /** Python's `None`, the default of `.get("code")`. */
  const PyNone := Other("None")

  /** `needle in haystack` where `haystack` is the "message" entry: it
      raises `TypeError` exactly when the message is not a string or a
      container. */
  function MentionsInvalidKey(message: Value): (r: Result<bool, GoogleError>)
    ensures r.Failure? <==> message.Other?
    ensures r.Failure? ==> r.error == TypeError
  {
    match message
    case Str(m) => Success(Contains(m, InvalidKeyText))
    case Arr(xs) => Success(Str(InvalidKeyText) in xs)
    case Obj(f) => Success(InvalidKeyText in f)
    case Other(_) => Failure(TypeError)
  }

  /** The exception the `except HttpError` clause ends in. */
  function ClassifyHttpError(lib: Lib, content: string): GoogleError {
    match lib.loads(content)
    case None => JsonDecodeError
    case Some(details) =>
      if !details.Obj? then AttributeError
      else
        var err := Get(details.fields, "error", Obj(map[]));
        if !err.Obj? then AttributeError
        else if Get(err.fields, "code", PyNone) != Other("403") then HttpError(content)
        else
          match MentionsInvalidKey(Get(err.fields, "message", Str("")))
          case Failure(e) => e
          case Success(true) => ConfigurationError
          case Success(false) => HttpError(content)
  }

  /** `google`: check the configuration, then keep the links of the results
      or classify the API's error. */
  function Google(lib: Lib, hasApiKey: bool, hasEngineId: bool, reply: GoogleReply): Result<string, GoogleError> {
    if !hasApiKey || !hasEngineId then Failure(AssertionError)
    else
      match reply
      case Failed(content) => Failure(ClassifyHttpError(lib, content))
      case Response(items) =>
        match ExtractLinks(items.GetOr([]))
        case Failure(e) => Failure(e)
        case Success(links) => Success(SafeGoogleResults(lib, Links(links)))
  }

  /** A response without "items" gives the safe form of the empty link list. */
  lemma MissingItemsGiveNoLinks(lib: Lib)
    ensures Google(lib, true, true, Response(None)) == Success(SafeGoogleResults(lib, Links([])))
  {
  }

  /** The links are those of the items, in item order; an item without one
      raises `KeyError`. */
  lemma GoogleKeepsLinksInOrder(lib: Lib, items: seq<map<string, string>>)
    ensures (forall i :: 0 <= i < |items| ==> "link" in items[i]) ==>
      exists links: seq<string> ::
        && Google(lib, true, true, Response(Some(items))) == Success(SafeGoogleResults(lib, Links(links)))
        && |links| == |items|
        && forall i :: 0 <= i < |items| ==> links[i] == items[i]["link"]
    ensures (exists i :: 0 <= i < |items| && "link" !in items[i]) ==>
      Google(lib, true, true, Response(Some(items))) == Failure(KeyError("link"))
  {
    var r := ExtractLinks(items);
    if r.Success? {
      assert Google(lib, true, true, Response(Some(items))) == Success(SafeGoogleResults(lib, Links(r.value)));
    }
  }

  /** A 403 whose message passes the `in` test for "invalid API key" (a
      string containing it, a list holding it, a dict with it as a key)
      becomes a configuration error. */
    lemma InvalidKeyIsConfigurationError(lib: Lib, content: string, details: map<string, Value>,
                                       err: map<string, Value>)
    requires lib.loads(content) == Some(Obj(details))
    requires "error" in details && details["error"] == Obj(err)
    requires "code" in err && err["code"] == Other("403")
    requires MentionsInvalidKey(Get(err, "message", Str(""))) == Success(true)
    ensures Google(lib, true, true, Failed(content)) == Failure(ConfigurationError)
  {
  }

  /** A configuration error is only ever reported for a 403 whose message
      passes the `in` test for "invalid API key". */
  lemma ConfigurationErrorOnlyFor403(lib: Lib, content: string)
    requires ClassifyHttpError(lib, content) == ConfigurationError
    ensures lib.loads(content).Some? && lib.loads(content).value.Obj?
    ensures var err := Get(lib.loads(content).value.fields, "error", Obj(map[]));
      && err.Obj? && Get(err.fields, "code", PyNone) == Other("403")
      && MentionsInvalidKey(Get(err.fields, "message", Str(""))) == Success(true)
  {
  }

  /** An error body that is not JSON raises `JSONDecodeError`; one whose
      body, or whose "error" entry, is not a dict raises `AttributeError` at
      `.get`. */
  lemma MalformedErrorBodies(lib: Lib, content: string)
    ensures lib.loads(content).None? ==> ClassifyHttpError(lib, content) == JsonDecodeError
    ensures lib.loads(content).Some? && !lib.loads(content).value.Obj? ==>
      ClassifyHttpError(lib, content) == AttributeError
    ensures (lib.loads(content).Some? && lib.loads(content).value.Obj? &&
             !Get(lib.loads(content).value.fields, "error", Obj(map[])).Obj?) ==>
      ClassifyHttpError(lib, content) == AttributeError
  {
  }

  /** An error body that is well formed but reports another code, or a 403
      whose string, list or dict message does not mention the invalid key,
      is re-raised unchanged. */
  lemma OtherHttpErrorsReraised(lib: Lib, content: string, details: map<string, Value>, err: map<string, Value>)
    requires lib.loads(content) == Some(Obj(details))
    requires Get(details, "error", Obj(map[])) == Obj(err)
    requires Get(err, "code", PyNone) != Other("403") ||
             MentionsInvalidKey(Get(err, "message", Str(""))) == Success(false)
    ensures Google(lib, true, true, Failed(content)) == Failure(HttpError(content))
  {
  }

  /** A 403 whose message is a number, boolean or null makes the `in` test
      raise `TypeError`. */
  lemma NonIterableMessageIsTypeError(lib: Lib, content: string, details: map<string, Value>, err: map<string, Value>)
    requires lib.loads(content) == Some(Obj(details))
    requires Get(details, "error", Obj(map[])) == Obj(err)
    requires Get(err, "code", PyNone) == Other("403") && Get(err, "message", Str("")).Other?
    ensures Google(lib, true, true, Failed(content)) == Failure(TypeError)
  {
  }

  /** Without both configuration values nothing is requested. */
  lemma MissingConfigurationAsserts(lib: Lib, hasApiKey: bool, hasEngineId: bool, reply: GoogleReply)
    requires !hasApiKey || !hasEngineId
    ensures Google(lib, hasApiKey, hasEngineId, reply) == Failure(AssertionError)
  {
  }
}
