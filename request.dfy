/**
 * The synchronous request helpers of request.py: the base-URL setting read from the
 * environment, the chat-completion request and its status check, and the model listing
 * with its "gpt" filter. The HTTP exchange itself is a parameter: the reply (status code,
 * text and decoded JSON body) the server gave to the request the function builds.
 */
module Request {
  import opened Wrappers
  import opened Json
  import opened Url

  const DefaultScheme: string := "https"
  const DefaultHost: string := "api.openai.com"
  const ChatCompletionsPath: string := "v1/chat/completions"
  const ModelsPath: string := "v1/models"

  datatype HttpRequest =
    | Post(url: string, headers: map<string, string>, payload: map<string, Json>)
    | Get(url: string, headers: map<string, string>)

  /**
   * What the server answered: `response.status_code`, `response.text`, and the text as
   * `response.json()` reads it, which fails when the text is not JSON.
   */
  datatype HttpReply = HttpReply(status: int, text: string, body: Reply)

  /**
   * The module-level `base_url` (request.py:9-15, 51): `OPENAI_BASE_URL` if set, else
   * `OPENAI_API_BASE_URL` if set, else the public endpoint; then normalised.
   */
  method ResolveBaseUrl(env: map<string, string>) returns (baseUrl: string)
    ensures "OPENAI_BASE_URL" in env ==> baseUrl == NormalizeUrl(env["OPENAI_BASE_URL"])
    ensures "OPENAI_BASE_URL" !in env && "OPENAI_API_BASE_URL" in env ==>
              baseUrl == NormalizeUrl(env["OPENAI_API_BASE_URL"])
    ensures "OPENAI_BASE_URL" !in env && "OPENAI_API_BASE_URL" !in env ==>
              baseUrl == DefaultScheme + "://" + DefaultHost
    ensures Parse(baseUrl).scheme != ""
  {
    if "OPENAI_BASE_URL" in env {
      baseUrl := env["OPENAI_BASE_URL"];
    } else if "OPENAI_API_BASE_URL" in env {
      baseUrl := env["OPENAI_API_BASE_URL"];
    } else {
      baseUrl := DefaultScheme + "://" + DefaultHost;
      DefaultBaseUrlIsNormal(DefaultScheme, DefaultHost);
    }
    NormalizedScheme(baseUrl);
    baseUrl := NormalizeUrl(baseUrl);
  }

  /** The default base URL "https://api.openai.com" is already normal, and valid. */
  lemma DefaultBaseUrlIsNormal(scheme: string, host: string)
    requires scheme == "https" && host == "api.openai.com"
    ensures NormalizeUrl(scheme + "://" + host) == scheme + "://" + host
    ensures IsValidUrl(scheme + "://" + host)
  {
    HttpIsSchemeName();
    assert '/' !in host && '?' !in host && '#' !in host;
    assert !HasTriple([]);
    NormalizeKeepsPlainUrl(scheme, host, "");
    assert scheme + "://" + host + "" == scheme + "://" + host;
  }

  /** `dict.update`: every key of `options` is set to its value there, other keys are kept. */
  function Update(payload: map<string, Json>, options: map<string, Json>): (r: map<string, Json>)
    ensures r.Keys == payload.Keys + options.Keys
    ensures forall k :: k in options ==> r[k] == options[k]
    ensures forall k :: k in payload && k !in options ==> r[k] == payload[k]
  {
    payload + options
  }

  /**
   * The request body of `chat_completion` (request.py:71-76): `model` and `messages`, then
   * every option, an option overriding `model` or `messages` when it has that key. Through
   * `chat_completion` that collision cannot arise: `model` and `messages` are named
   * parameters, so `**options` never holds those keys and Python raises `TypeError` at a
   * call that passes them twice. The contract covers the general `dict.update` case.
   */
  function ChatPayload(model: string, messages: seq<Json>, options: map<string, Json>): (p: map<string, Json>)
    ensures p.Keys == {"model", "messages"} + options.Keys
    ensures "model" !in options ==> p["model"] == JStr(model)
    ensures "messages" !in options ==> p["messages"] == JArray(messages)
    ensures forall k :: k in options ==> p[k] == options[k]
  {
    Update(map["model" := JStr(model), "messages" := JArray(messages)], options)
  }

  function Headers(apiKey: string): map<string, string> {
    map["Content-Type" := "application/json", "Authorization" := "Bearer " + apiKey]
  }

  /**
   * The URL `chat_completion` posts to (request.py:83-86): the given one or
   * `os.path.join(base_url, "v1/chat/completions")`, normalised; it always has a scheme.
   */
  function CompletionUrl(chatUrl: Option<string>, baseUrl: string): (url: string)
    ensures url == NormalizeUrl(if chatUrl.Some? then chatUrl.value else JoinPath(baseUrl, ChatCompletionsPath))
    ensures Parse(url).scheme != ""
  {
    var raw := if chatUrl.Some? then chatUrl.value else JoinPath(baseUrl, ChatCompletionsPath);
    NormalizedScheme(raw);
    NormalizeUrl(raw)
  }

  /**
   * `chat_completion` (request.py:53-91): the POST it sends, and its outcome for the reply;
   * a status other than 200 raises with the reply's text instead of returning a body, and
   * a 200 reply whose text is not JSON makes `response.json()` raise.
   */
  function ChatCompletion(
    apiKey: string, messages: seq<Json>, model: string, chatUrl: Option<string>,
    options: map<string, Json>, baseUrl: string, reply: HttpReply): (r: (HttpRequest, Result<Json, Error>))
    ensures r.0 == Post(CompletionUrl(chatUrl, baseUrl), Headers(apiKey), ChatPayload(model, messages, options))
    ensures r.1.Success? <==> reply.status == 200 && reply.body.Decoded?
    ensures r.1.Success? ==> r.1.value == reply.body.body
    ensures reply.status != 200 ==> r.1 == Failure(ApiCallFailed(reply.text))
    ensures reply.status == 200 && reply.body.NotJsonText? ==> r.1 == Failure(NotJson)
  {
    var request := Post(CompletionUrl(chatUrl, baseUrl), Headers(apiKey), ChatPayload(model, messages, options));
    if reply.status != 200 then (request, Failure(ApiCallFailed(reply.text)))
    else
      match reply.body
      case NotJsonText => (request, Failure(NotJson))
      case Decoded(body) => (request, Success(body))
  }

  /** Python's `"gpt" in model` for a model id of any JSON type. */
  function GptIn(id: Json): (r: Result<bool, Error>)
    ensures id.JStr? ==> r == Success(Contains(id.s, "gpt"))
    ensures (id.JNull? || id.JInt? || id.JBool?) ==> r == Failure(WrongType)
  {
    match id
    case JStr(s) => Success(Contains(s, "gpt"))
    case JArray(a) => Success(JStr("gpt") in a)
    case JObject(m) => Success("gpt" in m)
    case _ => Failure(WrongType)
  }

  /** `[model for model in ids if "gpt" in model]` (request.py:116). */
  function FilterGpt(ids: seq<Json>): (r: Result<seq<Json>, Error>)
    ensures r.Success? <==> forall i :: 0 <= i < |ids| ==> GptIn(ids[i]).Success?
    ensures r.Success? ==> |r.value| <= |ids|
  {
    if ids == [] then Success([])
    else
      match GptIn(ids[0])
      case Failure(e) => Failure(e)
      case Success(keep) =>
        match FilterGpt(ids[1..])
        case Failure(e) => Failure(e)
        case Success(rest) =>
          assert forall i :: 1 <= i < |ids| ==> ids[i] == ids[1..][i - 1];
          Success(if keep then [ids[0]] + rest else rest)
  }

  /** The filter keeps exactly the ids for which `"gpt" in id` holds. */
  lemma {:induction false} FilterGptMembers(ids: seq<Json>)
    requires FilterGpt(ids).Success?
    ensures forall x :: x in FilterGpt(ids).value <==> x in ids && GptIn(x) == Success(true)
    decreases |ids|
  {
    if ids != [] {
      FilterGptMembers(ids[1..]);
      assert forall x :: x in ids <==> x == ids[0] || x in ids[1..];
    }
  }

  /**
   * The filter keeps every occurrence of a kept id: each id occurs in the result as often as
   * in the input when it contains "gpt", and not at all otherwise.
   */
  lemma {:induction false} FilterGptCounts(ids: seq<Json>)
    requires FilterGpt(ids).Success?
    ensures forall x :: multiset(FilterGpt(ids).value)[x] == if GptIn(x) == Success(true) then multiset(ids)[x] else 0
    decreases |ids|
  {
    if ids == [] {
    } else {
      var x, xs := ids[0], ids[1..];
      assert ids == [x] + xs;
      FilterGptCounts(xs);
      if GptIn(x).value {
        FilterGptConsKeep(x, xs);
      } else {
        FilterGptConsDrop(x, xs);
      }
    }
  }

  /** `xs` is `ys` with some elements left out, in the same order. */
  predicate IsSubsequence(xs: seq<Json>, ys: seq<Json>)
    decreases |ys|
  {
    if xs == [] then true
    else if ys == [] then false
    else if xs[0] == ys[0] then IsSubsequence(xs[1..], ys[1..])
    else IsSubsequence(xs, ys[1..])
  }

  /** The filter keeps the original order of the ids. */
  lemma {:induction false} FilterGptKeepsOrder(ids: seq<Json>)
    requires FilterGpt(ids).Success?
    ensures IsSubsequence(FilterGpt(ids).value, ids)
    decreases |ids|
  {
    if ids != [] {
      FilterGptKeepsOrder(ids[1..]);
      var rest := FilterGpt(ids[1..]).value;
      if GptIn(ids[0]).value {
        assert FilterGpt(ids).value == [ids[0]] + rest;
        assert ([ids[0]] + rest)[1..] == rest;
      } else {
        SubsequenceOfTail(rest, ids);
      }
    }
  }

  lemma SubsequenceOfTail(xs: seq<Json>, ys: seq<Json>)
    requires ys != [] && IsSubsequence(xs, ys[1..])
    ensures IsSubsequence(xs, ys)
    decreases |ys|, 0
  {
    if xs != [] && xs[0] == ys[0] {
      SubsequenceDropHead(xs, ys[1..]);
    }
  }

  lemma SubsequenceDropHead(xs: seq<Json>, ys: seq<Json>)
    requires xs != [] && IsSubsequence(xs, ys)
    ensures IsSubsequence(xs[1..], ys)
    decreases |ys|, 1
  {
    if xs[0] != ys[0] {
      SubsequenceDropHead(xs, ys[1..]);
    }
    SubsequenceOfTail(xs[1..], ys);
  }

  /** One step of the filter: a head containing "gpt" is kept. */
  lemma FilterGptConsKeep(x: Json, ys: seq<Json>)
    requires GptIn(x) == Success(true) && FilterGpt(ys).Success?
    ensures FilterGpt([x] + ys) == Success([x] + FilterGpt(ys).value)
  {
    assert ([x] + ys)[0] == x && ([x] + ys)[1..] == ys;
  }

  /** One step of the filter: a head without "gpt" is dropped. */
  lemma FilterGptConsDrop(x: Json, ys: seq<Json>)
    requires GptIn(x) == Success(false) && FilterGpt(ys).Success?
    ensures FilterGpt([x] + ys) == FilterGpt(ys)
  {
    assert ([x] + ys)[0] == x && ([x] + ys)[1..] == ys;
  }

  /** Filtering a concatenation filters each part: the filter is decided id by id. */
  lemma {:induction false} FilterGptAppend(a: seq<Json>, b: seq<Json>)
    requires FilterGpt(a).Success? && FilterGpt(b).Success?
    ensures FilterGpt(a + b) == Success(FilterGpt(a).value + FilterGpt(b).value)
    decreases |a|
  {
    if a == [] {
      assert a + b == b;
      assert [] + FilterGpt(b).value == FilterGpt(b).value;
    } else {
      var x, xs := a[0], a[1..];
      assert a == [x] + xs;
      assert a + b == [x] + (xs + b);
      assert GptIn(x).Success? && FilterGpt(xs).Success?;
      FilterGptAppend(xs, b);
      var rest, tail := FilterGpt(xs).value, FilterGpt(b).value;
      if GptIn(x).value {
        FilterGptConsKeep(x, xs);
        FilterGptConsKeep(x, xs + b);
        assert ([x] + rest) + tail == [x] + (rest + tail);
      } else {
        FilterGptConsDrop(x, xs);
        FilterGptConsDrop(x, xs + b);
      }
    }
  }

  /** For string ids the result is exactly the ids containing "gpt", in their order. */
  lemma FilterGptOnStrings(ids: seq<Json>)
    requires forall i :: 0 <= i < |ids| ==> ids[i].JStr?
    ensures FilterGpt(ids).Success?
    ensures forall x :: x in FilterGpt(ids).value <==> x in ids && Contains(x.s, "gpt")
    ensures IsSubsequence(FilterGpt(ids).value, ids)
    ensures forall x :: multiset(FilterGpt(ids).value)[x] == if x.JStr? && Contains(x.s, "gpt") then multiset(ids)[x] else 0
  {
    FilterGptMembers(ids);
    FilterGptKeepsOrder(ids);
    FilterGptCounts(ids);
    forall x: Json | !x.JStr? && GptIn(x) == Success(true)
      ensures multiset(ids)[x] == 0
    {
      assert x !in ids;
    }
  }

  /** `[model.get("id") for model in models]` over the elements of `data["data"]`. */
  function IdsOf(models: seq<Json>): (r: Result<seq<Json>, Error>)
    ensures r.Success? <==> forall i :: 0 <= i < |models| ==> models[i].JObject?
    ensures r.Success? ==> |r.value| == |models|
    ensures r.Success? ==> forall i :: 0 <= i < |models| ==>
              r.value[i] == (if "id" in models[i].fields then models[i].fields["id"] else JNull)
  {
    if models == [] then Success([])
    else
      match models[0]
      case JObject(m) =>
        (match IdsOf(models[1..])
         case Failure(e) => Failure(e)
         case Success(rest) =>
           Success([if "id" in m then m["id"] else JNull] + rest))
      case _ => Failure(MissingAttribute)
  }

  /**
   * `[model.get("id") for model in data.get("data")]` (request.py:115): `data` must be an
   * object; a missing "data" is `None`, which cannot be iterated; iterating a non-empty
   * string or object yields strings, which have no `.get`.
   */
  function ModelIds(data: Json): (r: Result<seq<Json>, Error>)
    ensures !data.JObject? ==> r == Failure(MissingAttribute)
    ensures data.JObject? && "data" !in data.fields ==> r == Failure(WrongType)
    ensures data.JObject? && "data" in data.fields ==>
      var listing := data.fields["data"];
      && (listing.JArray? ==> r == IdsOf(listing.elems))
      && ((listing.JNull? || listing.JBool? || listing.JInt?) ==> r == Failure(WrongType))
      && (listing.JStr? ==> r == if listing.s == "" then Success([]) else Failure(MissingAttribute))
      && (listing.JObject? ==> r == if listing.fields == map[] then Success([]) else Failure(MissingAttribute))
  {
    match data
    case JObject(m) =>
      var listing := if "data" in m then m["data"] else JNull;
      (match listing
       case JArray(models) => IdsOf(models)
       case JStr(s) => if s == "" then Success([]) else Failure(MissingAttribute)
       case JObject(keys) => if |keys| == 0 then Success([]) else Failure(MissingAttribute)
       case _ => Failure(WrongType))
    case _ => Failure(MissingAttribute)
  }

  /** The URL `valid_models` queries (request.py:109-110): `<url or base_url>/v1/models`, normalised. */
  function ModelsUrl(url: Option<string>, baseUrl: string): (r: string)
    ensures Parse(r).scheme != ""
  {
    var raw := JoinPath(if url.Some? then url.value else baseUrl, ModelsPath);
    NormalizedScheme(raw);
    NormalizeUrl(raw)
  }

  /** The default host is a plain authority: no "/", "?" or "#". */
  lemma DefaultHostIsPlain(host: string)
    requires host == DefaultHost
    ensures host != [] && '/' !in host && '?' !in host && '#' !in host
  {
  }

  /** Joining a relative path to the default base URL inserts one "/". */
  lemma JoinDefaultBase(scheme: string, host: string, rel: string)
    requires scheme == DefaultScheme && host == DefaultHost && rel != [] && rel[0] != '/'
    ensures JoinPath(scheme + "://" + host, rel) == scheme + "://" + host + ("/" + rel)
  {
    var base := scheme + "://" + host;
    assert base[|base| - 1] == host[|host| - 1];
  }

  /** "/v1/chat/completions" is a rooted path without "?", "#", ";" or "///". */
  lemma ChatPathIsPlain(path: string)
    requires path == "/" + ChatCompletionsPath
    ensures path[0] == '/' && '?' !in path && '#' !in path && ';' !in path && !HasTriple(path)
  {
    assert forall i :: 0 <= i < |path| - 1 ==> path[i] != '/' || path[i + 1] != '/';
    NoDoubleSlashHasNoTriple(path);
  }

  /** "/v1/models" is a rooted path without "?", "#", ";" or "///". */
  lemma ModelsPathIsPlain(path: string)
    requires path == "/" + ModelsPath
    ensures path[0] == '/' && '?' !in path && '#' !in path && ';' !in path && !HasTriple(path)
  {
    assert forall i :: 0 <= i < |path| - 1 ==> path[i] != '/' || path[i + 1] != '/';
    NoDoubleSlashHasNoTriple(path);
  }

  /**
   * With the default base URL "https://api.openai.com", `chat_completion` posts to the
   * joined URL "https://api.openai.com/v1/chat/completions", which normalising leaves
   * alone (request.py:15, 83-86).
   */
  lemma DefaultCompletionUrl(scheme: string, host: string, path: string)
    requires scheme == DefaultScheme && host == DefaultHost && path == "/" + ChatCompletionsPath
    ensures CompletionUrl(None, scheme + "://" + host) == scheme + "://" + host + path
  {
    JoinDefaultBase(scheme, host, ChatCompletionsPath);
    DefaultHostIsPlain(host);
    ChatPathIsPlain(path);
    HttpIsSchemeName();
    NormalizeKeepsPlainUrl(scheme, host, path);
  }

  /**
   * With the default base URL, `valid_models` queries "https://api.openai.com/v1/models",
   * the request URL its docstring names (request.py:95, 109-110).
   */
  lemma DefaultModelsUrl(scheme: string, host: string, path: string)
    requires scheme == DefaultScheme && host == DefaultHost && path == "/" + ModelsPath
    ensures ModelsUrl(None, scheme + "://" + host) == scheme + "://" + host + path
  {
    JoinDefaultBase(scheme, host, ModelsPath);
    DefaultHostIsPlain(host);
    ModelsPathIsPlain(path);
    HttpIsSchemeName();
    NormalizeKeepsPlainUrl(scheme, host, path);
  }

  /**
   * `valid_models` (request.py:93-118): a non-200 status raises with the reply's text;
   * otherwise the ids of the listing, only those containing "gpt" when `gptOnly`.
   */
  function ValidModels(apiKey: string, gptOnly: bool, url: Option<string>, baseUrl: string, reply: HttpReply)
    : (r: (HttpRequest, Result<seq<Json>, Error>))
    ensures r.0 == Get(ModelsUrl(url, baseUrl), Headers(apiKey))
    ensures reply.status != 200 ==> r.1 == Failure(ApiCallFailed(reply.text))
    ensures reply.status == 200 && reply.body.NotJsonText? ==> r.1 == Failure(NotJson)
    ensures reply.status == 200 && reply.body.Decoded? && !gptOnly ==> r.1 == ModelIds(reply.body.body)
    ensures reply.status == 200 && reply.body.Decoded? && gptOnly && ModelIds(reply.body.body).Success? ==>
              r.1 == FilterGpt(ModelIds(reply.body.body).value)
    ensures reply.status == 200 && reply.body.Decoded? && ModelIds(reply.body.body).Failure? ==>
              r.1 == ModelIds(reply.body.body)
  {
    var request := Get(ModelsUrl(url, baseUrl), Headers(apiKey));
    if reply.status == 200 then
      match reply.body
      case NotJsonText => (request, Failure(NotJson))
      case Decoded(data) =>
        (match ModelIds(data)
         case Failure(e) => (request, Failure(e))
         case Success(ids) => (request, if gptOnly then FilterGpt(ids) else Success(ids)))
    else (request, Failure(ApiCallFailed(reply.text)))
  }
}
