/**
 * The response envelope of response.py. A `Resp` holds the decoded body of one API reply
 * and, optionally, the messages that were sent; both are set at construction and never
 * changed, so `Resp` is a value. Every accessor is a fixed subscript path into the body;
 * an accessor is only defined when its path exists (otherwise Python raises), and its
 * contract says which nested field it returns.
 */
module Response {
  import opened Wrappers
  import opened Json

  datatype Resp = Resp(response: Json, requestMsg: Option<seq<Json>>)

  const ContentPath: seq<Step> := [Key("choices"), Index(0), Key("message"), Key("content")]

  function UsagePath(field: string): seq<Step> {
    [Key("usage"), Key(field)]
  }

  function ErrorPath(field: string): seq<Step> {
    [Key("error"), Key(field)]
  }

  /** `j[a][b]` exists, `j` and `j[a]` being objects. */
  predicate HasField2(j: Json, a: string, b: string) {
    j.JObject? && a in j.fields && j.fields[a].JObject? && b in j.fields[a].fields
  }

  /** `r.response[a][b]`, the shape shared by the usage and the error accessors; Python raises when it is absent. */
  function Field2(r: Resp, a: string, b: string): (v: Result<Json, Error>)
    ensures v.Success? <==> HasField2(r.response, a, b)
    ensures v.Success? ==> v.value == r.response.fields[a].fields[b]
  {
    var path := [Key(a), Key(b)];
    assert path[1..] == [Key(b)] && path[1..][1..] == [];
    var outer := Get(r.response, Key(a));
    if outer.Success? then
      assert Lookup(r.response, path) == Lookup(outer.value, [Key(b)]);
      assert Lookup(outer.value, [Key(b)]) == Get(outer.value, Key(b));
      Lookup(r.response, path)
    else
      Lookup(r.response, path)
  }

  /** `total_tokens` (response.py:24-27) */
  function TotalTokens(r: Resp): (v: Result<Json, Error>)
    ensures v.Success? <==> HasField2(r.response, "usage", "total_tokens")
    ensures v.Success? ==> v.value == r.response.fields["usage"].fields["total_tokens"]
  {
    Field2(r, "usage", "total_tokens")
  }

  /** `prompt_tokens` (response.py:29-32) */
  function PromptTokens(r: Resp): (v: Result<Json, Error>)
    ensures v.Success? <==> HasField2(r.response, "usage", "prompt_tokens")
    ensures v.Success? ==> v.value == r.response.fields["usage"].fields["prompt_tokens"]
  {
    Field2(r, "usage", "prompt_tokens")
  }

  /** `completion_tokens` (response.py:34-37) */
  function CompletionTokens(r: Resp): (v: Result<Json, Error>)
    ensures v.Success? <==> HasField2(r.response, "usage", "completion_tokens")
    ensures v.Success? ==> v.value == r.response.fields["usage"].fields["completion_tokens"]
  {
    Field2(r, "usage", "completion_tokens")
  }

  /** `response["choices"]` is a non-empty list whose first entry has `["message"]["content"]`. */
  predicate HasContent(j: Json) {
    && j.JObject? && "choices" in j.fields
    && j.fields["choices"].JArray? && |j.fields["choices"].elems| > 0
    && HasField2(j.fields["choices"].elems[0], "message", "content")
  }

  /** `content` (response.py:39-42): `response["choices"][0]["message"]["content"]`. */
  function Content(r: Resp): (c: Result<Json, Error>)
    ensures c.Success? <==> HasContent(r.response)
    ensures c.Success? ==> c.value == r.response.fields["choices"].elems[0].fields["message"].fields["content"]
  {
    var choices := Get(r.response, Key("choices"));
    if choices.Failure? then Lookup(r.response, ContentPath)
    else
      var first := Get(choices.value, Index(0));
      assert Lookup(r.response, ContentPath) == Lookup(choices.value, ContentPath[1..]);
      if first.Failure? then Lookup(r.response, ContentPath)
      else
        assert ContentPath[1..][1..] == [Key("message"), Key("content")];
        assert Lookup(choices.value, ContentPath[1..]) == Lookup(first.value, [Key("message"), Key("content")]);
        assert first.value.JObject? ==> choices.value.JArray?;
        Field2(Resp(first.value, None), "message", "content")
  }

  /** `id`, `model` and `created` (response.py:44-54): one top-level field. */
  function TopField(r: Resp, key: string): (v: Result<Json, Error>)
    ensures v.Success? <==> r.response.JObject? && key in r.response.fields
    ensures v.Success? ==> v.value == r.response.fields[key]
  {
    var path := [Key(key)];
    assert path[1..] == [];
    assert Lookup(r.response, path) == Get(r.response, Key(key));
    Lookup(r.response, path)
  }

  /**
   * `is_valid()` (response.py:56-58): `'error' not in self.response`. For a decoded object
   * this asks for a top-level "error" key; on a list or a string Python's `in` tests
   * membership, and on a number, a boolean or `None` it raises.
   */
  function IsValid(r: Resp): (v: Result<bool, Error>)
    ensures r.response.JObject? ==> v == Success("error" !in r.response.fields)
    ensures (r.response.JNull? || r.response.JInt? || r.response.JBool?) ==> v == Failure(WrongType)
  {
    match r.response
    case JObject(m) => Success("error" !in m)
    case JArray(a) => Success(JStr("error") !in a)
    case JStr(s) => Success(!Contains(s, "error"))
    case _ => Failure(WrongType)
  }

  /** `error_message` (response.py:60-63) */
  function ErrorMessage(r: Resp): (v: Result<Json, Error>)
    ensures v.Success? <==> HasField2(r.response, "error", "message")
    ensures v.Success? ==> v.value == r.response.fields["error"].fields["message"]
  {
    Field2(r, "error", "message")
  }

  /** `error_type` (response.py:65-68) */
  function ErrorType(r: Resp): (v: Result<Json, Error>)
    ensures v.Success? <==> HasField2(r.response, "error", "type")
    ensures v.Success? ==> v.value == r.response.fields["error"].fields["type"]
  {
    Field2(r, "error", "type")
  }

  /** `error_param` (response.py:70-73) */
  function ErrorParam(r: Resp): (v: Result<Json, Error>)
    ensures v.Success? <==> HasField2(r.response, "error", "param")
    ensures v.Success? ==> v.value == r.response.fields["error"].fields["param"]
  {
    Field2(r, "error", "param")
  }

  /** `error_code` (response.py:75-78) */
  function ErrorCode(r: Resp): (v: Result<Json, Error>)
    ensures v.Success? <==> HasField2(r.response, "error", "code")
    ensures v.Success? ==> v.value == r.response.fields["error"].fields["code"]
  {
    Field2(r, "error", "code")
  }

  /**
   * A valid envelope has none of the error fields, and an envelope with any error field
   * is not valid: the success and the error accessors never both apply.
   */
  lemma ValidityExcludesErrorFields(r: Resp, field: string)
    ensures IsValid(r) == Success(true) ==> Field2(r, "error", field).Failure?
    ensures Field2(r, "error", field).Success? ==> IsValid(r) == Success(false)
  {
  }

  /** The assistant entry `chat_history` appends; its role key is literally "role:". */
  function AssistantEntry(content: Json): Json {
    JObject(map["role:" := JStr("assistant"), "content" := content])
  }

  /**
   * `chat_history()` (response.py:13-17): fails its assertion without `request_msg`;
   * otherwise the request messages, unchanged, followed by one assistant entry carrying
   * `content` (whose lookup may raise).
   */
  function ChatHistory(r: Resp): (h: Result<seq<Json>, Error>)
    ensures r.requestMsg.None? ==> h == Failure(AssertionFailed("Request message is not set!"))
    ensures r.requestMsg.Some? ==> (h.Success? <==> Content(r).Success?)
    ensures h.Success? ==> r.requestMsg.Some? && |h.value| == |r.requestMsg.value| + 1
    ensures h.Success? ==> h.value[..|r.requestMsg.value|] == r.requestMsg.value
    ensures h.Success? ==> h.value[|r.requestMsg.value|] == AssistantEntry(Content(r).value)
  {
    if r.requestMsg.None? then Failure(AssertionFailed("Request message is not set!"))
    else
      var content :- Content(r);
      Success(r.requestMsg.value + [AssistantEntry(content)])
  }

  /**
   * `finetune_prompt(msg)` (response.py:19-22): the chat history followed by one user
   * message with content `msg`, two entries longer than the request; it fails when the
   * history does.
   */
  function FinetunePrompt(r: Resp, msg: Json): (p: Result<seq<Json>, Error>)
    ensures p.Success? <==> ChatHistory(r).Success?
    ensures ChatHistory(r).Failure? ==> p == Failure(ChatHistory(r).error)
    ensures p.Success? ==> |p.value| == |r.requestMsg.value| + 2
    ensures p.Success? ==> p.value[..|r.requestMsg.value| + 1] == ChatHistory(r).value
    ensures p.Success? ==> p.value[|r.requestMsg.value| + 1] == JObject(map["role" := JStr("user"), "content" := msg])
  {
    var history :- ChatHistory(r);
    Success(history + [JObject(map["role" := JStr("user"), "content" := msg])])
  }

  /** The chat reply fixture of tests/test_chat.py:116-136, `content` being its message text. */
  function ChatReply(content: string): Json {
    JObject(map[
      "id" := JStr("chatcmpl-6wXDUIbYzNkmqSF9UnjPuKLP1hHls"),
      "object" := JStr("chat.completion"),
      "created" := JInt(1679408728),
      "model" := JStr("gpt-3.5-turbo-0301"),
      "usage" := JObject(map["prompt_tokens" := JInt(8), "completion_tokens" := JInt(10), "total_tokens" := JInt(18)]),
      "choices" := JArray([JObject(map[
        "message" := JObject(map["role" := JStr("assistant"), "content" := JStr(content)]),
        "finish_reason" := JStr("stop"),
        "index" := JInt(0)])])])
  }

  /** On the fixture the usage counts are 8 + 10 = 18. */
  lemma ChatReplyUsage(content: string)
    ensures var r := Resp(ChatReply(content), Some([Message("user", "hello!")]));
      && TotalTokens(r) == Success(JInt(18))
      && PromptTokens(r) == Success(JInt(8))
      && CompletionTokens(r) == Success(JInt(10))
  {
    var r := Resp(ChatReply(content), Some([Message("user", "hello!")]));
    assert HasField2(r.response, "usage", "total_tokens");
  }

  /**
   * On the fixture every success accessor applies: the envelope is valid, its content is
   * the assistant text and its usage counts are 8 + 10 = 18; the test appends exactly that
   * content as the assistant turn of a chat started with "hello!".
   */
  lemma ChatReplyAccessors(content: string)
    ensures var r := Resp(ChatReply(content), Some([Message("user", "hello!")]));
      && IsValid(r) == Success(true)
      && Content(r) == Success(JStr(content))
      && TotalTokens(r) == Success(JInt(18))
      && PromptTokens(r) == Success(JInt(8))
      && CompletionTokens(r) == Success(JInt(10))
      && TopField(r, "model") == Success(JStr("gpt-3.5-turbo-0301"))
      && ErrorMessage(r).Failure?
      && ChatHistory(r) == Success([Message("user", "hello!"), AssistantEntry(JStr(content))])
  {
    var r := Resp(ChatReply(content), Some([Message("user", "hello!")]));
    ChatReplyUsage(content);
    assert HasContent(r.response);
    var history := ChatHistory(r).value;
    assert history == [Message("user", "hello!"), AssistantEntry(JStr(content))];
  }
}
