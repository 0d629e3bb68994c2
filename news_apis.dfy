/**
 * The configuration-driven news fetcher
 * (scripts/apis/content_fetchers/news_apis_all.py): each configured API has a
 * URL, an environment variable holding its key and a whitelist of query
 * parameters; `fetch_news` filters the caller's keyword arguments through the
 * whitelist and adds the key, and `main` fetches every selected API. The
 * network is a parameter: `respond` is the answer to a request for a URL with
 * given query parameters.
 */
module NewsApis {
  import opened Wrappers
  import opened Json
  import Dict

  /** One entry of `API_CONFIGS`: the URL, the variable `os.getenv` reads for the key, and the whitelist. */
  datatype ApiConfig = ApiConfig(url: string, keyVariable: string, params: seq<string>)

  /** The configured APIs, in the order of `API_CONFIGS`. */
  const ApiNames: seq<string> := ["newsdata", "newsapi", "gnews", "mediastack", "currents"]

  /** `API_CONFIGS`. */
  const ApiConfigs: map<string, ApiConfig> := map[
    "newsdata" := ApiConfig("https://newsdata.io/api/1/news", "NEWSDATA_API_KEY",
                            ["q", "country", "language", "category", "page", "from_date", "to_date"]),
    "newsapi" := ApiConfig("https://newsapi.org/v2/everything", "NEWSAPI_KEY",
                           ["q", "sources", "language", "sort_by", "page_size", "page", "from_date", "to_date"]),
    "gnews" := ApiConfig("https://gnews.io/api/v4/search", "GNEWS_API_KEY",
                         ["q", "lang", "country", "topic", "max_results", "from_date", "to_date"]),
    "mediastack" := ApiConfig("http://api.mediastack.com/v1/news", "MEDIASTACK_API_KEY",
                              ["keywords", "countries", "categories", "languages", "sort", "limit", "offset"]),
    "currents" := ApiConfig("https://api.currentsapi.services/v1/latest-news", "CURRENTS_API_KEY",
                            ["keywords", "language", "country", "category"])]

  /**
   * `config.get('key_param', 'apikey')`: no configuration defines `key_param`,
   * so the key always goes under `apikey`.
   */
  const KeyParam: string := "apikey"

  /** The names are exactly the configured APIs, and no whitelist lets a caller set the key parameter. */
  lemma ConfigTable()
    ensures forall name :: name in ApiConfigs <==> name in ApiNames
    ensures forall name :: name in ApiConfigs ==> KeyParam !in ApiConfigs[name].params
  {
  }

  /** `os.getenv(name)`: the variable's value, or `None`. */
  function GetEnv(env: map<string, string>, name: string): Json {
    if name in env then Str(env[name]) else Null
  }

  /** `{k: v for k, v in kwargs.items() if k in allowed and v is not None}`. */
  function AllowedParams(kwargs: Dict.Dict<string, Json>, allowed: seq<string>): (r: Dict.Dict<string, Json>)
    ensures forall e :: e in r <==> e in kwargs && e.0 in allowed && e.1 != Null
  {
    if kwargs == [] then []
    else
      var e := kwargs[|kwargs| - 1];
      var init := AllowedParams(kwargs[..|kwargs| - 1], allowed);
      assert kwargs == kwargs[..|kwargs| - 1] + [e];
      if e.0 in allowed && e.1 != Null then init + [e] else init
  }

  /** The query parameters `fetch_news` sends: the allowed arguments, then the key under `apikey`. */
  function RequestParams(config: ApiConfig, env: map<string, string>, kwargs: Dict.Dict<string, Json>): Dict.Dict<string, Json> {
    Dict.Set(AllowedParams(kwargs, config.params), KeyParam, GetEnv(env, config.keyVariable))
  }

  /** A filtered dict keeps its keys distinct. */
  lemma {:induction false} AllowedParamsDistinct(kwargs: Dict.Dict<string, Json>, allowed: seq<string>)
    requires Dict.DistinctKeys(kwargs)
    ensures Dict.DistinctKeys(AllowedParams(kwargs, allowed))
  {
    if kwargs != [] {
      var init := kwargs[..|kwargs| - 1];
      var e := kwargs[|kwargs| - 1];
      assert Dict.DistinctKeys(init);
      AllowedParamsDistinct(init, allowed);
      var r := AllowedParams(init, allowed);
      forall i | 0 <= i < |r| ensures r[i].0 != e.0 {
        assert r[i] in r;
        var j :| 0 <= j < |init| && init[j] == r[i];
        assert kwargs[j] == init[j] && kwargs[|kwargs| - 1] == e;
      }
    }
  }

  /** In a dict with distinct keys, the entry `(k, v)` is what `d.get(k)` finds. */
  lemma {:induction false} GetEntry(d: Dict.Dict<string, Json>, k: string, v: Json)
    requires Dict.DistinctKeys(d)
    ensures (k, v) in d <==> Dict.Get(d, k) == Some(v)
  {
    if d != [] {
      assert Dict.Keys(d) == [d[0].0] + Dict.Keys(d[1..]);
      if d[0].0 != k {
        GetEntry(d[1..], k, v);
      } else {
        forall i | 0 <= i < |d[1..]| ensures d[1..][i].0 != k {
          assert d[i + 1].0 != d[0].0;
        }
        assert (k, v) in d[1..] ==> false;
      }
    }
  }

  /**
   * The parameters sent: the key under `apikey` (even when the variable is unset),
   * and each whitelisted argument the caller gave with a value other than `None`;
   * nothing else.
   */
  lemma RequestParamsContents(name: string, env: map<string, string>, kwargs: Dict.Dict<string, Json>, k: string)
    requires name in ApiConfigs && Dict.DistinctKeys(kwargs)
    ensures k == KeyParam ==>
              Dict.Get(RequestParams(ApiConfigs[name], env, kwargs), k) == Some(GetEnv(env, ApiConfigs[name].keyVariable))
    ensures k != KeyParam ==>
              Dict.Get(RequestParams(ApiConfigs[name], env, kwargs), k) ==
              (if k in ApiConfigs[name].params && Dict.Get(kwargs, k).Some? && Dict.Get(kwargs, k).value != Null
               then Dict.Get(kwargs, k) else None)
  {
    var config := ApiConfigs[name];
    var allowed := AllowedParams(kwargs, config.params);
    Dict.GetSet(allowed, KeyParam, GetEnv(env, config.keyVariable), k);
    if k != KeyParam {
      AllowedParamsDistinct(kwargs, config.params);
      match Dict.Get(allowed, k)
      case Some(v) =>
        GetEntry(allowed, k, v);
        GetEntry(kwargs, k, v);
      case None =>
        if Dict.Get(kwargs, k).Some? {
          var v := Dict.Get(kwargs, k).value;
          GetEntry(kwargs, k, v);
          if k in config.params && v != Null {
            GetEntry(allowed, k, v);
          }
        }
    }
  }

  /** What the network does with a request: a decoded JSON body, or a `RequestException`. */
  datatype Answer = Data(data: Json) | RequestFailure

  /** The network: the answer to a request for a URL with the given query parameters. */
  type Network = (string, Dict.Dict<string, Json>) -> Answer

  /** `fetch_news(api_name, **kwargs)`: the data, or `None` for an unknown API or a failed request. */
  function FetchOutcome(apiName: string, kwargs: Dict.Dict<string, Json>, env: map<string, string>, respond: Network): Option<Json> {
    if apiName !in ApiConfigs then None
    else
      var config := ApiConfigs[apiName];
      match respond(config.url, RequestParams(config, env, kwargs))
      case Data(d) => Some(d)
      case RequestFailure => None
  }

  /** `fetch_news`: builds the parameters, adds the key in place, and asks the network. */
  method FetchNews(apiName: string, kwargs: Dict.Dict<string, Json>, env: map<string, string>, respond: Network)
    returns (data: Option<Json>)
    ensures data == FetchOutcome(apiName, kwargs, env, respond)
    ensures apiName !in ApiConfigs ==> data.None?
  {
    if apiName !in ApiConfigs {
      return None;
    }
    var config := ApiConfigs[apiName];
    var params := AllowedParams(kwargs, config.params);
    params := Dict.Set(params, KeyParam, GetEnv(env, config.keyVariable));
    var answer := respond(config.url, params);
    if answer.RequestFailure? {
      return None;
    }
    data := Some(answer.data);
  }

  /** The `apis_to_fetch` argument of `main`: `None`, one name, or a list of names. */
  datatype ApiSelection = AllApis | OneApi(name: string) | ApiList(names: seq<string>)

  /** The names `main` iterates over: every configured API for `None`, a one-element list for a string. */
  function SelectedApis(selection: ApiSelection, all: seq<string>): (names: seq<string>)
    ensures selection.AllApis? ==> names == all
    ensures selection.OneApi? ==> names == [selection.name]
    ensures selection.ApiList? ==> names == selection.names
  {
    match selection
    case AllApis => all
    case OneApi(name) => [name]
    case ApiList(names) => names
  }

  /** A dict's entries with string keys, or `None` when some key is not a string. */
  function StringKeyed(fields: seq<(Key, Json)>): (r: Option<Dict.Dict<string, Json>>)
    ensures r.Some? ==> |r.value| == |fields|
    ensures r.Some? ==> forall i :: 0 <= i < |fields| ==> fields[i] == (Name(r.value[i].0), r.value[i].1)
  {
    if fields == [] then Some([])
    else
      match fields[0].0
      case Index(_) => None
      case Name(k) =>
        match StringKeyed(fields[1..])
        case None => None
        case Some(rest) => Some([(k, fields[0].1)] + rest)
  }

  /**
   * `fetch_news(api, **value)`: the keyword arguments `value` unpacks to. A value
   * that is not a dict, a key that is not a string, or a key `api_name` (which
   * collides with the positional parameter) raises `TypeError`.
   */
  function FetchArguments(value: Json): (r: Option<Dict.Dict<string, Json>>)
    ensures r.Some? ==> value.Obj? && !Dict.HasKey(r.value, "api_name")
  {
    if !value.Obj? then None
    else
      match StringKeyed(value.fields)
      case None => None
      case Some(args) => if Dict.HasKey(args, "api_name") then None else Some(args)
  }

  /** `kwargs.get(api, {})`. */
  function ArgumentsOf(kwargs: Dict.Dict<string, Json>, api: string): Json {
    Dict.Get(kwargs, api).GetOr(Obj([]))
  }

  /** `fetch_news(api, **value)` raises `TypeError` for a configured API's keyword arguments. */
  predicate ArgumentsRaise(kwargs: Dict.Dict<string, Json>, api: string) {
    api in ApiConfigs && FetchArguments(ArgumentsOf(kwargs, api)).None?
  }

  /** One pass of `main`'s loop: an unknown name is skipped, a known one is fetched and stored. */
  function AddApi(newsData: Dict.Dict<string, Option<Json>>, api: string, kwargs: Dict.Dict<string, Json>,
                  env: map<string, string>, respond: Network): (r: Option<Dict.Dict<string, Option<Json>>>)
    ensures r.None? <==> ArgumentsRaise(kwargs, api)
  {
    if api !in ApiConfigs then Some(newsData)
    else
      match FetchArguments(ArgumentsOf(kwargs, api))
      case None => None
      case Some(args) => Some(Dict.Set(newsData, api, FetchOutcome(api, args, env, respond)))
  }

  /**
   * The `news_data` dict `main` builds over `names`, or `None` once an API's
   * keyword arguments raise `TypeError` (which `main` catches).
   */
  function NewsData(names: seq<string>, kwargs: Dict.Dict<string, Json>, env: map<string, string>, respond: Network)
    : Option<Dict.Dict<string, Option<Json>>>
  {
    if names == [] then Some([])
    else
      match NewsData(names[..|names| - 1], kwargs, env, respond)
      case None => None
      case Some(newsData) => AddApi(newsData, names[|names| - 1], kwargs, env, respond)
  }

  /** `main(apis_to_fetch, **kwargs)` without the final save to disk. */
  method FetchSelected(selection: ApiSelection, kwargs: Dict.Dict<string, Json>, env: map<string, string>, respond: Network)
    returns (newsData: Option<Dict.Dict<string, Option<Json>>>)
    ensures newsData == NewsData(SelectedApis(selection, ApiNames), kwargs, env, respond)
  {
    var apis := SelectedApis(selection, ApiNames);
    var result: Dict.Dict<string, Option<Json>> := [];
    for i := 0 to |apis|
      invariant NewsData(apis[..i], kwargs, env, respond) == Some(result)
    {
      NewsDataStep(apis, kwargs, env, respond, i);
      var next := FetchInto(result, apis[i], kwargs, env, respond);
      if next.None? {
        NewsDataFailure(apis, kwargs, env, respond, i + 1);
        return None;
      }
      result := next.value;
    }
    assert apis[..|apis|] == apis;
    newsData := Some(result);
  }

  /** The body of `main`'s loop for one name. */
  method FetchInto(newsData: Dict.Dict<string, Option<Json>>, api: string, kwargs: Dict.Dict<string, Json>,
                   env: map<string, string>, respond: Network) returns (r: Option<Dict.Dict<string, Option<Json>>>)
    ensures r == AddApi(newsData, api, kwargs, env, respond)
  {
    if api !in ApiConfigs {
      return Some(newsData);
    }
    var args := FetchArguments(ArgumentsOf(kwargs, api));
    if args.None? {
      return None;
    }
    var data := FetchNews(api, args.value, env, respond);
    return Some(Dict.Set(newsData, api, data));
  }

  /** One more name of the loop. */
  lemma NewsDataStep(names: seq<string>, kwargs: Dict.Dict<string, Json>, env: map<string, string>, respond: Network, i: nat)
    requires i < |names|
    ensures NewsData(names[..i + 1], kwargs, env, respond) ==
            (if NewsData(names[..i], kwargs, env, respond).None? then None
             else AddApi(NewsData(names[..i], kwargs, env, respond).value, names[i], kwargs, env, respond))
  {
    assert names[..i + 1][..i] == names[..i];
  }

  /** Once a prefix of the names raises, so does `main`. */
  lemma {:induction false} NewsDataFailure(names: seq<string>, kwargs: Dict.Dict<string, Json>, env: map<string, string>,
                                           respond: Network, n: nat)
    requires n <= |names| && NewsData(names[..n], kwargs, env, respond).None?
    ensures NewsData(names, kwargs, env, respond).None?
    decreases |names| - n
  {
    if n < |names| {
      NewsDataStep(names, kwargs, env, respond, n);
      NewsDataFailure(names, kwargs, env, respond, n + 1);
    } else {
      assert names[..n] == names;
    }
  }

  /**
   * `main` fails exactly when some requested, configured API is given keyword
   * arguments that cannot be unpacked.
   */
  lemma {:induction false} NewsDataFails(names: seq<string>, kwargs: Dict.Dict<string, Json>, env: map<string, string>, respond: Network)
    ensures NewsData(names, kwargs, env, respond).None? <==>
            exists i :: 0 <= i < |names| && ArgumentsRaise(kwargs, names[i])
  {
    if names != [] {
      var n := |names| - 1;
      var init := names[..n];
      NewsDataFails(init, kwargs, env, respond);
      NewsDataStep(names, kwargs, env, respond, n);
      assert names[..n + 1] == names;
      assert NewsData(names, kwargs, env, respond).None? <==>
             NewsData(init, kwargs, env, respond).None? || ArgumentsRaise(kwargs, names[n]);
      if exists i :: 0 <= i < |init| && ArgumentsRaise(kwargs, init[i]) {
        var i :| 0 <= i < |init| && ArgumentsRaise(kwargs, init[i]);
        assert names[i] == init[i];
      }
      if exists i :: 0 <= i < |names| && ArgumentsRaise(kwargs, names[i]) {
        var i :| 0 <= i < |names| && ArgumentsRaise(kwargs, names[i]);
        if i < |init| {
          assert init[i] == names[i];
        }
      }
    }
  }

  /**
   * The result of `main`: its keys are the requested names that are configured
   * (unknown names are skipped), and each holds what `fetch_news` gave for that
   * API with that API's own keyword arguments.
   */
  lemma {:induction false} NewsDataContents(names: seq<string>, kwargs: Dict.Dict<string, Json>, env: map<string, string>,
                                            respond: Network, api: string)
    requires NewsData(names, kwargs, env, respond).Some?
    ensures Dict.HasKey(NewsData(names, kwargs, env, respond).value, api) <==> api in names && api in ApiConfigs
    ensures Dict.HasKey(NewsData(names, kwargs, env, respond).value, api) ==>
              FetchArguments(ArgumentsOf(kwargs, api)).Some? &&
              Dict.Get(NewsData(names, kwargs, env, respond).value, api) ==
              Some(FetchOutcome(api, FetchArguments(ArgumentsOf(kwargs, api)).value, env, respond))
  {
    if names != [] {
      var init := names[..|names| - 1];
      var last := names[|names| - 1];
      assert names == init + [last];
      NewsDataContents(init, kwargs, env, respond, api);
      var newsData := NewsData(init, kwargs, env, respond).value;
      if last in ApiConfigs {
        var args := FetchArguments(ArgumentsOf(kwargs, last)).value;
        Dict.GetSet(newsData, last, FetchOutcome(last, args, env, respond), api);
      }
    }
  }
}
