/**
 * The per-API news fetchers with retries
 * (scripts/apis/content_fetchers/news/news_apis_all.py): five builders turn
 * their keyword arguments into query parameters for one API each, `fetch_news`
 * tries a request up to `max_retries` times with exponential backoff, and
 * `run_apis`/`main` fetch every selected API. The network is a parameter: the
 * outcome of the request for a URL and parameters at each attempt. Sleeps are
 * recorded rather than performed.
 */
module NewsFetchers {
  import opened Wrappers
  import opened Json
  import Dict
  import NewsApis

  // ---------------------------------------------------------------------------
  // fetch_news: the retry loop
  // ---------------------------------------------------------------------------

  /** What one attempt of `requests.get(...)`, `raise_for_status()` and `.json()` comes to. */
  datatype Attempt =
    | Got(data: Json)    // the request succeeded and the body decoded
    | BadResponse        // a `RequestException` after `response` was bound (an error status or a bad body)
    | NoResponse         // `requests.get` itself raised, so this attempt binds no `response`

  /** The network: the outcome of the request for a URL and parameters at a given attempt. */
  type Network = (string, Dict.Dict<string, Json>, nat) -> Attempt

  /** How `fetch_news` ends. */
  datatype FetchResult =
    | Fetched(data: Json)   // returned the data
    | GaveUp                // returned `None`
    | Unbound               // logging `response.url` raised `UnboundLocalError`

  /** `2 ** n`. */
  function Pow2(n: nat): (p: nat)
    ensures p >= 1
  {
    if n == 0 then 1 else 2 * Pow2(n - 1)
  }

  /**
   * The attempts of `fetch_news` from `attempt` on, with `responded` telling
   * whether some earlier attempt bound `response`: how the call ends and the
   * sleeps it makes on the way.
   */
  function Retry(network: Network, url: string, params: Dict.Dict<string, Json>, maxRetries: int,
                 attempt: nat, responded: bool): (FetchResult, seq<nat>)
    decreases maxRetries - attempt
  {
    if attempt >= maxRetries then (GaveUp, [])
    else
      match network(url, params, attempt)
      case Got(data) => (Fetched(data), [])
      case failure =>
        if !(responded || failure.BadResponse?) then (Unbound, [])
        else if attempt == maxRetries - 1 then (GaveUp, [])
        else
          var rest := Retry(network, url, params, maxRetries, attempt + 1, true);
          (rest.0, [Pow2(attempt)] + rest.1)
  }

  /** `fetch_news(url, params, api_name, max_retries)`: the result and the sleeps, in order. */
  method FetchNews(url: string, params: Dict.Dict<string, Json>, apiName: string, maxRetries: int, network: Network)
    returns (result: FetchResult, sleeps: seq<nat>)
    ensures (result, sleeps) == Retry(network, url, params, maxRetries, 0, false)
  {
    sleeps := [];
    var responseBound := false;
    var attempt: nat := 0;
    assert sleeps + Retry(network, url, params, maxRetries, 0, false).1 == Retry(network, url, params, maxRetries, 0, false).1;
    while attempt < maxRetries
      invariant Retry(network, url, params, maxRetries, 0, false) ==
                (Retry(network, url, params, maxRetries, attempt, responseBound).0,
                 sleeps + Retry(network, url, params, maxRetries, attempt, responseBound).1)
      decreases maxRetries - attempt
    {
      var outcome := network(url, params, attempt);
      assert sleeps + [] == sleeps;
      if outcome.Got? {
        return Fetched(outcome.data), sleeps;
      }
      if outcome.BadResponse? {
        responseBound := true;
      }
      if !responseBound {
        return Unbound, sleeps;
      }
      if attempt == maxRetries - 1 {
        return GaveUp, sleeps;
      }
      var rest := Retry(network, url, params, maxRetries, attempt + 1, true);
      assert sleeps + ([Pow2(attempt)] + rest.1) == (sleeps + [Pow2(attempt)]) + rest.1;
      sleeps := sleeps + [Pow2(attempt)];
      attempt := attempt + 1;
    }
    assert sleeps + [] == sleeps;
    return GaveUp, sleeps;
  }

  /**
   * From attempt `a`: the sleeps are `2**a`, `2**(a+1)`, … one after each failed
   * attempt but the last; the attempts slept after all failed; a fetch returns the
   * data of the attempt after the last sleep; giving up happens only at the final
   * attempt, which failed; `UnboundLocalError` only when no attempt has bound
   * `response` and this one binds none.
   */
  lemma {:induction false} RetryFacts(network: Network, url: string, params: Dict.Dict<string, Json>, maxRetries: int,
                                      a: nat, responded: bool)
    requires a < maxRetries
    ensures var (r, s) := Retry(network, url, params, maxRetries, a, responded);
            (forall i :: 0 <= i < |s| ==> s[i] == Pow2(a + i))
            && a + |s| < maxRetries
            && (forall j :: a <= j < a + |s| ==> !network(url, params, j).Got?)
            && (r.Fetched? ==> network(url, params, a + |s|) == Got(r.data))
            && (r.GaveUp? ==> a + |s| == maxRetries - 1 && !network(url, params, maxRetries - 1).Got?)
            && (r.Unbound? ==> s == [] && !responded && network(url, params, a).NoResponse?)
    decreases maxRetries - a
  {
    var outcome := network(url, params, a);
    if !outcome.Got? && (responded || outcome.BadResponse?) && a != maxRetries - 1 {
      RetryFacts(network, url, params, maxRetries, a + 1, true);
    }
  }

  /** Once some attempt has bound `response`, the call never ends in `UnboundLocalError`. */
  lemma {:induction false} RespondedNeverUnbound(network: Network, url: string, params: Dict.Dict<string, Json>,
                                                 maxRetries: int, a: nat)
    ensures !Retry(network, url, params, maxRetries, a, true).0.Unbound?
    decreases maxRetries - a
  {
    if a < maxRetries && !network(url, params, a).Got? && a != maxRetries - 1 {
      RespondedNeverUnbound(network, url, params, maxRetries, a + 1);
    }
  }

  /**
   * `fetch_news` as a whole, for `max_retries >= 1`: it crashes exactly when the
   * first request raises; otherwise it returns the data of the first successful
   * attempt, or gives up after `max_retries` failures; it sleeps 1, 2, 4, …
   * seconds between attempts and never after the last one.
   */
  lemma FetchNewsOutcome(network: Network, url: string, params: Dict.Dict<string, Json>, maxRetries: int)
    requires maxRetries >= 1
    ensures var (r, s) := Retry(network, url, params, maxRetries, 0, false);
            (r.Unbound? <==> network(url, params, 0).NoResponse?)
            && (forall i :: 0 <= i < |s| ==> s[i] == Pow2(i))
            && |s| <= maxRetries - 1
            && (r.Fetched? ==> network(url, params, |s|) == Got(r.data)
                               && forall j :: 0 <= j < |s| ==> !network(url, params, j).Got?)
            && (r.GaveUp? <==> !network(url, params, 0).NoResponse?
                               && forall j :: 0 <= j < maxRetries ==> !network(url, params, j).Got?)
  {
    RetryFacts(network, url, params, maxRetries, 0, false);
    var first := network(url, params, 0);
    if first.BadResponse? && maxRetries > 1 {
      RespondedNeverUnbound(network, url, params, maxRetries, 1);
    }
  }

  /** With no attempts allowed, `fetch_news` returns `None` without sleeping. */
  lemma NoAttempts(network: Network, url: string, params: Dict.Dict<string, Json>, maxRetries: int)
    requires maxRetries <= 0
    ensures Retry(network, url, params, maxRetries, 0, false) == (GaveUp, [])
  {
  }

  // ---------------------------------------------------------------------------
  // The fetch_* builders
  // ---------------------------------------------------------------------------

  /**
   * A `fetch_*` function: its URL, the query key and environment variable of the
   * API key, and its parameters in order, each with the query key it fills
   * (`None` for a parameter that is accepted but never sent). The first
   * parameter is required.
   */
  datatype Builder = Builder(url: string, keyName: string, keyVariable: string, args: seq<(string, Option<string>)>)

  /** `fetch_newsdata`: `to_date` is accepted but never sent. */
  const Newsdata := Builder("https://newsdata.io/api/1/archive", "apikey", "NEWSDATA_API_KEY",
    [("q", Some("q")), ("country", Some("country")), ("language", Some("language")), ("category", Some("category")),
     ("from_date", Some("from_date")), ("to_date", None)])

  /** `fetch_newsapi`. */
  const Newsapi := Builder("https://newsapi.org/v2/everything", "apiKey", "NEWSAPI_KEY",
    [("q", Some("q")), ("sources", Some("sources")), ("language", Some("language")), ("sort_by", Some("sortBy")),
     ("page_size", Some("pageSize")), ("page", Some("page")), ("from_date", Some("from")), ("to_date", Some("to"))])

  /** `fetch_gnews`. */
  const Gnews := Builder("https://gnews.io/api/v4/search", "token", "GNEWS_API_KEY",
    [("q", Some("q")), ("lang", Some("lang")), ("country", Some("country")), ("max", Some("max")),
     ("from_date", Some("from")), ("to", Some("to"))])

  /** `fetch_mediastack`. */
  const Mediastack := Builder("http://api.mediastack.com/v1/news", "access_key", "MEDIASTACK_API_KEY",
    [("keywords", Some("keywords")), ("countries", Some("countries")), ("categories", Some("categories")),
     ("languages", Some("languages")), ("sort", Some("sort")), ("limit", Some("limit")), ("offset", Some("offset")),
     ("date", Some("date"))])

  /** `fetch_currents`. */
  const Currents := Builder("https://api.currentsapi.services/v1/search", "apiKey", "CURRENTS_API_KEY",
    [("keywords", Some("keywords")), ("language", Some("language")), ("country", Some("country")),
     ("start_date", Some("start_date")), ("end_date", Some("end_date"))])

  /** The API names of `run_apis`'s table and of `main`'s default, in order. */
  const ApiNames: seq<string> := ["newsdata", "newsapi", "gnews", "mediastack", "currents"]

  /** `api_functions` in `run_apis`. */
  const ApiFunctions: map<string, Builder> :=
    map["newsdata" := Newsdata, "newsapi" := Newsapi, "gnews" := Gnews, "mediastack" := Mediastack, "currents" := Currents]

  /** A parameter the builder accepts. */
  predicate Accepts(b: Builder, name: string) {
    exists i :: 0 <= i < |b.args| && b.args[i].0 == name
  }

  /** The value bound to a parameter: the keyword argument, or the default `None`. */
  function ArgValue(args: Dict.Dict<string, Json>, name: string): Json {
    Dict.Get(args, name).GetOr(Null)
  }

  /** The `params` dict literal, before `None` values are dropped: the key first, then each sent parameter. */
  function ParamsLiteral(b: Builder, env: map<string, string>, args: Dict.Dict<string, Json>): Dict.Dict<string, Json> {
    [(b.keyName, NewsApis.GetEnv(env, b.keyVariable))] + SentArgs(b.args, args)
  }

  /** The sent parameters in order, each under its query key. */
  function SentArgs(params: seq<(string, Option<string>)>, args: Dict.Dict<string, Json>): Dict.Dict<string, Json> {
    if params == [] then []
    else
      var rest := SentArgs(params[1..], args);
      match params[0].1
      case None => rest
      case Some(query) => [(query, ArgValue(args, params[0].0))] + rest
  }

  /** `{k: v for k, v in params.items() if v is not None}`. */
  function DropNone(params: Dict.Dict<string, Json>): (r: Dict.Dict<string, Json>)
    ensures forall e :: e in r <==> e in params && e.1 != Null
  {
    if params == [] then []
    else
      var rest := DropNone(params[1..]);
      assert params == [params[0]] + params[1..];
      if params[0].1 == Null then rest else [params[0]] + rest
  }

  /**
   * `fetch_x(**args)` up to the request: the query parameters, or `None` when
   * the call raises `TypeError` (an unexpected keyword, or the first, required
   * parameter missing).
   */
  function BuildParams(b: Builder, env: map<string, string>, args: Dict.Dict<string, Json>): Option<Dict.Dict<string, Json>> {
    if b.args == [] || !Dict.HasKey(args, b.args[0].0) then None
    else if exists i :: 0 <= i < |args| && !Accepts(b, args[i].0) then None
    else Some(DropNone(ParamsLiteral(b, env, args)))
  }

  /** Every entry of the sent parameters is some parameter's value under its query key. */
  lemma {:induction false} SentArgsEntries(params: seq<(string, Option<string>)>, args: Dict.Dict<string, Json>, e: (string, Json))
    ensures e in SentArgs(params, args) <==>
            exists i :: 0 <= i < |params| && params[i].1 == Some(e.0) && e.1 == ArgValue(args, params[i].0)
  {
    if params != [] {
      SentArgsEntries(params[1..], args, e);
      if exists i :: 0 <= i < |params[1..]| && params[1..][i].1 == Some(e.0) && e.1 == ArgValue(args, params[1..][i].0) {
        var i :| 0 <= i < |params[1..]| && params[1..][i].1 == Some(e.0) && e.1 == ArgValue(args, params[1..][i].0);
        assert params[i + 1] == params[1..][i];
      }
      if exists i :: 0 <= i < |params| && params[i].1 == Some(e.0) && e.1 == ArgValue(args, params[i].0) {
        var i :| 0 <= i < |params| && params[i].1 == Some(e.0) && e.1 == ArgValue(args, params[i].0);
        if i > 0 {
          assert params[1..][i - 1] == params[i];
        }
      }
    }
  }

  /**
   * What a builder sends: the API key under its key name when the variable is
   * set, and for every parameter given a value other than `None`, that value
   * under the parameter's query key; nothing else.
   */
  lemma BuildParamsEntries(b: Builder, env: map<string, string>, args: Dict.Dict<string, Json>, e: (string, Json))
    requires BuildParams(b, env, args).Some?
    ensures e in BuildParams(b, env, args).value <==>
            e.1 != Null &&
            ((e.0 == b.keyName && e.1 == NewsApis.GetEnv(env, b.keyVariable))
             || exists i :: 0 <= i < |b.args| && b.args[i].1 == Some(e.0) && e.1 == ArgValue(args, b.args[i].0))
  {
    SentArgsEntries(b.args, args, e);
  }

  /** `fetch_newsdata` never sends `to_date`, under any name, whatever the caller passes. */
  lemma NewsdataIgnoresToDate(env: map<string, string>, args: Dict.Dict<string, Json>, e: (string, Json))
    requires BuildParams(Newsdata, env, args).Some? && e in BuildParams(Newsdata, env, args).value
    ensures e.0 in ["apikey", "q", "country", "language", "category", "from_date"]
    ensures e.0 == "from_date" ==> e.1 == ArgValue(args, "from_date")
  {
    BuildParamsEntries(Newsdata, env, args, e);
    if !(e.0 == Newsdata.keyName && e.1 == NewsApis.GetEnv(env, Newsdata.keyVariable)) {
      var i :| 0 <= i < |Newsdata.args| && Newsdata.args[i].1 == Some(e.0) && e.1 == ArgValue(args, Newsdata.args[i].0);
      NewsdataSentArg(i);
    }
  }

  /** Every parameter `fetch_newsdata` sends goes under its own name, and `to_date` is not one of them. */
  lemma NewsdataSentArg(i: nat)
    requires i < |Newsdata.args| && Newsdata.args[i].1.Some?
    ensures Newsdata.args[i].1.value == Newsdata.args[i].0
    ensures Newsdata.args[i].0 in ["q", "country", "language", "category", "from_date"]
  {
    var names := ["q", "country", "language", "category", "from_date"];
    if i == 0 { assert Newsdata.args[i].0 == names[0]; }
    else if i == 1 { assert Newsdata.args[i].0 == names[1]; }
    else if i == 2 { assert Newsdata.args[i].0 == names[2]; }
    else if i == 3 { assert Newsdata.args[i].0 == names[3]; }
    else if i == 4 { assert Newsdata.args[i].0 == names[4]; }
  }

  /**
   * The API key (when set) and the required first parameter (when not `None`)
   * are always sent.
   */
  lemma KeyAndQuerySent(b: Builder, env: map<string, string>, args: Dict.Dict<string, Json>)
    requires BuildParams(b, env, args).Some? && b.args[0].1.Some?
    ensures b.keyVariable in env ==> (b.keyName, Str(env[b.keyVariable])) in BuildParams(b, env, args).value
    ensures ArgValue(args, b.args[0].0) != Null ==>
              (b.args[0].1.value, ArgValue(args, b.args[0].0)) in BuildParams(b, env, args).value
  {
    BuildParamsEntries(b, env, args, (b.keyName, NewsApis.GetEnv(env, b.keyVariable)));
    BuildParamsEntries(b, env, args, (b.args[0].1.value, ArgValue(args, b.args[0].0)));
  }

  /** An unexpected keyword argument, or a missing first parameter, raises `TypeError`. */
  lemma BadArgumentsRaise(b: Builder, env: map<string, string>, args: Dict.Dict<string, Json>)
    ensures BuildParams(b, env, args).None? <==>
            b.args == [] || !Dict.HasKey(args, b.args[0].0) || exists i :: 0 <= i < |args| && !Accepts(b, args[i].0)
  {
  }

  // ---------------------------------------------------------------------------
  // run_apis and main
  // ---------------------------------------------------------------------------

  /** How a `fetch_*` call ends: `TypeError` from the binding, `UnboundLocalError`, or a value. */
  datatype CallOutcome = BadCall | Crashed | Returned(data: Option<Json>)

  /** `api_functions[api](**api_params)`. */
  function CallBuilder(b: Builder, env: map<string, string>, apiParams: Json, maxRetries: int, network: Network): CallOutcome {
    if !apiParams.Obj? then BadCall
    else
      match NewsApis.StringKeyed(apiParams.fields)
      case None => BadCall
      case Some(args) =>
        match BuildParams(b, env, args)
        case None => BadCall
        case Some(params) =>
          match Retry(network, b.url, params, maxRetries, 0, false).0
          case Fetched(data) => Returned(Some(data))
          case GaveUp => Returned(None)
          case Unbound => Crashed
  }

  /**
   * The `news_data` dict `run_apis` builds over `names`, or `None` once a call
   * raises (which `main` catches and turns into `None`).
   */
  function RunApis(names: seq<string>, kwargs: Dict.Dict<string, Json>, env: map<string, string>, network: Network)
    : Option<Dict.Dict<string, Option<Json>>>
  {
    if names == [] then Some([])
    else
      match RunApis(names[..|names| - 1], kwargs, env, network)
      case None => None
      case Some(newsData) => CallInto(newsData, names[|names| - 1], kwargs, env, network)
  }

  /** One pass of `run_apis`'s loop: an unknown name is skipped, a known one is called and its data stored. */
  function CallInto(newsData: Dict.Dict<string, Option<Json>>, api: string, kwargs: Dict.Dict<string, Json>,
                    env: map<string, string>, network: Network): (r: Option<Dict.Dict<string, Option<Json>>>)
    ensures r.None? <==> api in ApiFunctions && !CallBuilder(ApiFunctions[api], env, NewsApis.ArgumentsOf(kwargs, api), 3, network).Returned?
  {
    if api !in ApiFunctions then Some(newsData)
    else
      match CallBuilder(ApiFunctions[api], env, NewsApis.ArgumentsOf(kwargs, api), 3, network)
      case Returned(data) => Some(Dict.Set(newsData, api, data))
      case _ => None
  }

  /** One more name of the loop. */
  lemma RunApisStep(names: seq<string>, kwargs: Dict.Dict<string, Json>, env: map<string, string>, network: Network, i: nat)
    requires i < |names|
    ensures RunApis(names[..i + 1], kwargs, env, network) ==
            (if RunApis(names[..i], kwargs, env, network).None? then None
             else CallInto(RunApis(names[..i], kwargs, env, network).value, names[i], kwargs, env, network))
  {
    assert names[..i + 1][..i] == names[..i];
  }

  /** A builder call as `run_apis` makes it: parameters from the keyword arguments, then `fetch_news` with 3 retries. */
  method CallApi(b: Builder, env: map<string, string>, apiParams: Json, network: Network) returns (outcome: CallOutcome)
    ensures outcome == CallBuilder(b, env, apiParams, 3, network)
  {
    if !apiParams.Obj? {
      return BadCall;
    }
    var args := NewsApis.StringKeyed(apiParams.fields);
    if args.None? {
      return BadCall;
    }
    var params := BuildParams(b, env, args.value);
    if params.None? {
      return BadCall;
    }
    var result, _ := FetchNews(b.url, params.value, "", 3, network);
    match result
    case Fetched(data) => outcome := Returned(Some(data));
    case GaveUp => outcome := Returned(None);
    case Unbound => outcome := Crashed;
  }

  /** `run_apis(apis_to_fetch, **kwargs)`. */
  method RunApisLoop(apis: seq<string>, kwargs: Dict.Dict<string, Json>, env: map<string, string>, network: Network)
    returns (newsData: Option<Dict.Dict<string, Option<Json>>>)
    ensures newsData == RunApis(apis, kwargs, env, network)
  {
    var result: Dict.Dict<string, Option<Json>> := [];
    for i := 0 to |apis|
      invariant RunApis(apis[..i], kwargs, env, network) == Some(result)
    {
      RunApisStep(apis, kwargs, env, network, i);
      var api := apis[i];
      if api in ApiFunctions {
        var apiParams := NewsApis.ArgumentsOf(kwargs, api);
        var outcome := CallApi(ApiFunctions[api], env, apiParams, network);
        if !outcome.Returned? {
          RunApisFailure(apis, kwargs, env, network, i + 1);
          return None;
        }
        result := Dict.Set(result, api, outcome.data);
      }
    }
    assert apis[..|apis|] == apis;
    newsData := Some(result);
  }

  /** Once a prefix of the names raises, so does `run_apis`. */
  lemma {:induction false} RunApisFailure(names: seq<string>, kwargs: Dict.Dict<string, Json>, env: map<string, string>,
                                          network: Network, n: nat)
    requires n <= |names| && RunApis(names[..n], kwargs, env, network).None?
    ensures RunApis(names, kwargs, env, network).None?
    decreases |names| - n
  {
    if n < |names| {
      RunApisStep(names, kwargs, env, network, n);
      RunApisFailure(names, kwargs, env, network, n + 1);
    } else {
      assert names[..n] == names;
    }
  }

  /** `main(apis_to_fetch, **kwargs)` without the save to disk: `None` when `run_apis` raised. */
  method FetchSelected(selection: NewsApis.ApiSelection, kwargs: Dict.Dict<string, Json>, env: map<string, string>, network: Network)
    returns (newsData: Option<Dict.Dict<string, Option<Json>>>)
    ensures newsData == RunApis(NewsApis.SelectedApis(selection, ApiNames), kwargs, env, network)
  {
    newsData := RunApisLoop(NewsApis.SelectedApis(selection, ApiNames), kwargs, env, network);
  }

  /**
   * The result of `run_apis`: its keys are the requested names found in the
   * table (unknown names are skipped), each holding what its builder returned.
   */
  lemma {:induction false} RunApisContents(names: seq<string>, kwargs: Dict.Dict<string, Json>, env: map<string, string>,
                                           network: Network, api: string)
    requires RunApis(names, kwargs, env, network).Some?
    ensures Dict.HasKey(RunApis(names, kwargs, env, network).value, api) <==> api in names && api in ApiFunctions
    ensures Dict.HasKey(RunApis(names, kwargs, env, network).value, api) ==>
              CallBuilder(ApiFunctions[api], env, NewsApis.ArgumentsOf(kwargs, api), 3, network).Returned? &&
              Dict.Get(RunApis(names, kwargs, env, network).value, api) ==
              Some(CallBuilder(ApiFunctions[api], env, NewsApis.ArgumentsOf(kwargs, api), 3, network).data)
  {
    if names != [] {
      var init := names[..|names| - 1];
      var last := names[|names| - 1];
      assert names == init + [last];
      RunApisContents(init, kwargs, env, network, api);
      var newsData := RunApis(init, kwargs, env, network).value;
      if last in ApiFunctions {
        var outcome := CallBuilder(ApiFunctions[last], env, NewsApis.ArgumentsOf(kwargs, last), 3, network);
        if outcome.Returned? {
          Dict.GetSet(newsData, last, outcome.data, api);
        }
      }
    }
  }

  /**
   * The `UnboundLocalError` reaches `main`: when a requested API's first request
   * raises, `main` returns `None`.
   */
  lemma FirstRequestFailureEndsRun(names: seq<string>, kwargs: Dict.Dict<string, Json>, env: map<string, string>,
                                    network: Network, i: nat, params: Dict.Dict<string, Json>)
    requires i < |names| && names[i] in ApiFunctions
    requires NewsApis.ArgumentsOf(kwargs, names[i]).Obj?
    requires NewsApis.StringKeyed(NewsApis.ArgumentsOf(kwargs, names[i]).fields).Some?
    requires BuildParams(ApiFunctions[names[i]], env,
                         NewsApis.StringKeyed(NewsApis.ArgumentsOf(kwargs, names[i]).fields).value) == Some(params)
    requires network(ApiFunctions[names[i]].url, params, 0).NoResponse?
    ensures RunApis(names, kwargs, env, network).None?
  {
    var b := ApiFunctions[names[i]];
    assert Retry(network, b.url, params, 3, 0, false).0 == Unbound;
    assert CallBuilder(b, env, NewsApis.ArgumentsOf(kwargs, names[i]), 3, network) == Crashed;
    RunApisStep(names, kwargs, env, network, i);
    RunApisFailure(names, kwargs, env, network, i + 1);
  }
}
