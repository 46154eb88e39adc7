# A verified model of the openai_api_call batch client

This project models the core of `openai_api_call`, a small Python client that drives a
chat-completion HTTP API over many conversations at once and can resume a batch after a
restart. It covers three parts of that client:

- `asynctool.py`, the **batch dispatcher**:
  - `async_post` retries one POST within a request budget;
  - `chat_complete` turns a reply into one more assistant turn plus one checkpoint record;
  - `async_process_msgs` starts a task for every conversation the checkpoint has not completed;
  - `async_chat_completion` checks its arguments before a run.
- `request.py`, the **request helpers**: `normalize_url` and `is_valid_url` over a model of
  `urllib.parse`, the `base_url` environment precedence, the `chat_completion` payload with
  its status check, and the `valid_models` id filter.
- `response.py`, the **response envelope** `Resp`: `is_valid`, the success and error
  accessors, `chat_history` and `finetune_prompt`.

The code of `load_chats` is not part of this model. The checkpoint file it reads is modelled
as a sequence of records, each holding a conversation log and an optional conversation id.
The view that `load_chats` rebuilds is modelled as a pure function of those records, with the
behaviour that tests/test_checkpoint.py asserts:

- an untagged record fills the slot of its own line number;
- a tagged record overwrites slot `chatid`;
- a slot that nobody wrote is absent (`None`).

The network is an oracle. For one conversation it is a sequence of attempts, and each attempt
either raised or answered with a reply text. `async_post` does not look at the HTTP status, so
a reply with any status counts as an answer.

Modules, one per file:

| module | file | models |
|---|---|---|
| `Wrappers` | wrappers.dfy | `Option` and `Result` |
| `Json` | json.dfy | decoded JSON values, and Python subscripting of them (`x["k"]`, `x[i]`, with negative indices) |
| `Url` | url.dfy | `urlparse` / `urlunparse`, `normalize_url`, `is_valid_url`, `os.path.join` |
| `Request` | request.dfy | `request.py` |
| `Response` | response.dfy | `response.py` |
| `Checkpoint` | checkpoint.dfy | the checkpoint records and the view `load_chats` rebuilds from them |
| `Dispatcher` | dispatcher.dfy | `asynctool.py` |

Python `None` is `JNull`, except where the source uses `None` for "absent"; there the model
uses `Option`. Each exception the source can raise is a `Failure` of `Json.Error`:

- `KeyError` is `MissingKey`;
- `IndexError` is `IndexOutOfRange`;
- `TypeError` is `WrongType`;
- `AttributeError` is `MissingAttribute`;
- a failed `assert` is `AssertionFailed`;
- `raise Exception(text)` is `ApiCallFailed`;
- a reply that `json.loads` cannot decode is `NotJson`.

Where the code and its written description disagree, the model follows the code:

- `async_post` sleeps after every failed attempt, including the last one. Three failing
  attempts therefore give three backoff delays, not two. In the model the number of delays is
  `ntries`.
- The last-message view shows `""` for an empty log, as tests/test_checkpoint.py:18-19
  asserts. It does not show `None`.

## Model

| member | source | states |
|---|---|---|
| Json.Get | openai_api_call/response.py:27 | one Python subscript: a key succeeds exactly when the value is a dict holding it, and gives the value stored there; an index inside a list gives that element, and one past its end gives `IndexError` |
| Json.Lookup | openai_api_call/response.py:42 | a chain of subscripts such as `response['choices'][0]['message']['content']`, in which the first failing subscript decides the error; it has no contract of its own, and the accessor rows under `Response` state what it gives on each path |
| Url.Parse | openai_api_call/request.py:45 | `urlparse(url)`, defined here with no contract of its own; `ParsedSchemeIsName`, `SplitSchemePrefix`, `ParsePlainUrl` and `ReparseScheme` state its properties |
| Url.Unparse | openai_api_call/request.py:48 | `urlunparse(parsed)`, defined here with no contract of its own; `UnparsePlainUrl` and `UnparseBareHost` state its properties |
| Url.ReplaceTriple | openai_api_call/request.py:49 | `s.replace("///", "//")`, non-overlapping and left to right, with no contract of its own; `ReplaceTripleWithoutTriple`, `ReplaceTripleKeepsSlashFreePrefix`, `ReplaceTripleAfterAuthority`, `ReplaceTripleKeepsPlainUrl` and `ReplaceTripleFixesBareHost` state its properties |
| Url.NormalizeUrl | openai_api_call/request.py:38-49 | `normalize_url`: parse, give an empty scheme "https", unparse, then replace "///" by "//". It has no contract of its own; `NormalizedScheme`, `NormalizeKeepsPlainUrl`, `NormalizeKeepsSchemeAndHost`, `NormalizeAddsHttps` and the two docstring examples state its properties |
| Url.IsValidUrl | openai_api_call/request.py:26-27 | `is_valid_url`: true exactly when the parsed scheme and netloc are both non-empty. It has no contract of its own; `HttpsHostIsValid`, `NormalizeKeepsPlainUrl` and `NormalizeAddsHttps` state when it holds |
| Url.JoinPath | openai_api_call/request.py:84 | `os.path.join(a, b)`: an absolute `b` replaces `a`; otherwise the result starts with `a` and ends with `b`, with at most one "/" inserted between them, exactly when `a` is non-empty and does not end in "/", so a non-empty `a` and `b` are always separated by a "/" |
| Url.ReplaceTripleWithoutTriple | openai_api_call/request.py:49 | the `replace("///", "//")` step leaves a string without "///" unchanged |
| Url.ReplaceTripleKeepsSlashFreePrefix | openai_api_call/request.py:49 | the replace step passes any slash-free prefix through untouched |
| Url.ReplaceTripleAfterAuthority | openai_api_call/request.py:49 | after "//" and a slash-free host, the replace step acts only on what follows the host |
| Url.ParsedSchemeIsName | openai_api_call/request.py:45 | the scheme `urlparse` reports is empty, or a lower-case scheme name starting with a letter |
| Url.SplitSchemePrefix | openai_api_call/request.py:45 | a scheme name followed by ":" is split off as the scheme, and the rest is kept as it is |
| Url.ReparseScheme | openai_api_call/request.py:45-49 | re-parsing the unparsed and slash-fixed URL gives back its scheme |
| Url.NormalizedScheme | openai_api_call/request.py:45-49 | the output of `normalize_url` always has a non-empty scheme: the input's own scheme, or "https" when it had none |
| Url.ParsePlainUrl | openai_api_call/request.py:45 | `urlparse` of `scheme://host/path` (a host without "/", "?" or "#", a path without "?", "#" or ";") gives exactly that scheme, host and path, with empty params, query and fragment |
| Url.UnparsePlainUrl | openai_api_call/request.py:48 | `urlunparse` writes such a parsed URL back as `scheme://host/path` |
| Url.ReplaceTripleKeepsPlainUrl | openai_api_call/request.py:49 | the replace step leaves `scheme://host/path` alone when the host has no "/" and the path has no "///" |
| Url.ReplaceTripleFixesBareHost | openai_api_call/request.py:49 | the replace step turns "https:///host" into "https://host" |
| Url.AuthorityIsNonEmpty | openai_api_call/request.py:27 | after "//", a host that does not start with "/", "?" or "#" gives a non-empty netloc |
| Url.NormalizeKeepsPlainUrl | openai_api_call/request.py:38-49 | a URL `scheme://host/path` with no query, fragment, params or "///" is returned unchanged, and it is valid |
| Url.NormalizeKeepsSchemeAndHost | openai_api_call/request.py:38-49 | `scheme://host` is returned unchanged |
| Url.NormalizeKeepsSchemeExample | openai_api_call/request.py:39-40 | the docstring example: "http://api.example.com" is returned unchanged |
| Url.UnparseBareHost | openai_api_call/request.py:48-49 | `urlunparse` of the scheme "https" and the bare path "host" gives "https:///host", which is the quirk the replace step corrects |
| Url.NormalizeAddsHttps | openai_api_call/request.py:26-49 | a bare host gets the scheme: `normalize_url(host) == "https://" + host`. A bare host is not a valid URL, and its normalised form is |
| Url.NormalizeAddsSchemeExample | openai_api_call/request.py:42-43 | the docstring example: "api.example.com" becomes "https://api.example.com" |
| Url.HttpsHostIsValid | openai_api_call/request.py:26-27 | "https://" followed by a host is valid: the parsed scheme and netloc are both non-empty |
| Request.ResolveBaseUrl | openai_api_call/request.py:9-15 | `OPENAI_BASE_URL` wins whenever it is set; otherwise `OPENAI_API_BASE_URL`; otherwise "https://api.openai.com". The choice is then normalised (line 51) and always has a scheme |
| Request.DefaultBaseUrlIsNormal | openai_api_call/request.py:15 | the default "https://api.openai.com" is already normal, and is a valid URL |
| Request.Update | openai_api_call/request.py:76 | `dict.update`: the keys are the union; an option's value wins; every other key keeps its value |
| Request.ChatPayload | openai_api_call/request.py:71-76 | the payload has exactly `model`, `messages` and every option key; an option overrides `model` or `messages` when the keys collide. That collision cannot arise through `chat_completion`: `model` and `messages` are named parameters, so `**options` never holds those keys, and Python raises `TypeError` at a call that passes them twice |
| Request.DefaultCompletionUrl | openai_api_call/request.py:83-86 | with the default base URL, the chat request goes to "https://api.openai.com/v1/chat/completions": the join inserts one "/" and normalising leaves the result alone |
| Request.DefaultModelsUrl | openai_api_call/request.py:95-110 | with the default base URL, the model listing is fetched from "https://api.openai.com/v1/models", the URL the docstring names |
| Request.Headers | openai_api_call/request.py:78-81 | the request headers: `Content-Type: application/json` and `Authorization: Bearer <api key>`. It has no contract of its own; `ChatCompletion` and `ValidModels` state that every request they send carries them |
| Request.CompletionUrl | openai_api_call/request.py:83-86 | the given chat URL, or the base URL joined with "v1/chat/completions", normalised; the result always has a scheme |
| Request.ChatCompletion | openai_api_call/request.py:53-91 | a POST to that URL with the bearer header and the payload. The call succeeds exactly when the status is 200 and the reply text is JSON, and then yields the decoded body. Any other status raises with the reply text, and a 200 reply that is not JSON makes `response.json()` raise |
| Request.GptIn | openai_api_call/request.py:116 | `"gpt" in id`: a substring test on a string; on a number, a boolean or `None` it raises `TypeError` |
| Request.FilterGpt | openai_api_call/request.py:116 | the comprehension succeeds exactly when "gpt" can be tested on every id, and it keeps at most as many ids as it is given |
| Request.FilterGptMembers | openai_api_call/request.py:116 | an id is kept exactly when it is in the list and contains "gpt" |
| Request.FilterGptKeepsOrder | openai_api_call/request.py:116 | the kept ids are a subsequence of the ids: their original order is kept |
| Request.FilterGptCounts | openai_api_call/request.py:116 | every occurrence of a kept id is kept: an id occurs in the result as often as in the input when it contains "gpt", and not at all otherwise |
| Request.FilterGptAppend | openai_api_call/request.py:116 | filtering a concatenation gives the concatenation of the filtered parts |
| Request.FilterGptOnStrings | openai_api_call/request.py:115-116 | on string ids the filter cannot fail. It returns exactly the ids containing "gpt", each as often as it occurs in the input, in their original order |
| Request.IdsOf | openai_api_call/request.py:115 | `[model.get("id") for model in ...]`: one id per model, `None` when a model has no "id"; it fails with `AttributeError` when an entry is not a dict |
| Request.ModelIds | openai_api_call/request.py:113-115 | `data.get("data")`: a body that is not a dict has no `.get` and raises `AttributeError`. A missing "data" key gives `None`, and iterating `None`, a number or a boolean raises `TypeError`. A list gives one id per model. An empty string or dict gives no ids; a non-empty one yields strings, which have no `.get` |
| Request.ModelsUrl | openai_api_call/request.py:109-110 | the URL of the model listing always has a scheme |
| Request.ValidModels | openai_api_call/request.py:93-118 | GET from the models URL. A non-200 status raises with the reply text, and a 200 reply that is not JSON raises. With `gpt_only` false every id is returned unchanged; with it true, exactly the filtered ids are returned |
| Response.TotalTokens | openai_api_call/response.py:24-27 | defined exactly when `response["usage"]["total_tokens"]` exists, and then it is that field |
| Response.PromptTokens | openai_api_call/response.py:29-32 | defined exactly when `response["usage"]["prompt_tokens"]` exists, and then it is that field |
| Response.CompletionTokens | openai_api_call/response.py:34-37 | defined exactly when `response["usage"]["completion_tokens"]` exists, and then it is that field |
| Response.Content | openai_api_call/response.py:39-42 | defined exactly when `choices` is a non-empty list whose first entry has `message.content`, and then it is that content |
| Response.TopField | openai_api_call/response.py:44-54 | `id`, `model` and `created`: defined exactly when the top-level key exists, and then it is that field |
| Response.IsValid | openai_api_call/response.py:56-58 | on an object, valid exactly when there is no top-level "error" key; on `None`, a number or a boolean the test raises |
| Response.ErrorMessage | openai_api_call/response.py:60-63 | defined exactly when `response["error"]["message"]` exists, and then it is that field |
| Response.ErrorType | openai_api_call/response.py:65-68 | defined exactly when `response["error"]["type"]` exists, and then it is that field |
| Response.ErrorParam | openai_api_call/response.py:70-73 | defined exactly when `response["error"]["param"]` exists, and then it is that field |
| Response.ErrorCode | openai_api_call/response.py:75-78 | defined exactly when `response["error"]["code"]` exists, and then it is that field |
| Response.ValidityExcludesErrorFields | openai_api_call/response.py:56-78 | a valid envelope has no error field, and an envelope with an error field is not valid |
| Response.AssistantEntry | openai_api_call/response.py:16 | the entry `chat_history` appends: role "assistant" under the key "role:", exactly as the source spells it, and the reply's content. It has no contract of its own; `ChatHistory` states that it is the last entry of the history |
| Response.ChatHistory | openai_api_call/response.py:13-17 | without `request_msg` the assertion fails. Otherwise the request messages come unchanged, followed by exactly one `{"role:": "assistant", "content": content}`, so the length grows by one |
| Response.FinetunePrompt | openai_api_call/response.py:19-22 | the chat history followed by one `{"role": "user", "content": msg}`, so the request grows by two; it fails when the history fails |
| Response.ChatReplyUsage | tests/test_chat.py:116-145 | on the test's reply the usage counts are prompt 8, completion 10 and total 18 |
| Response.ChatReplyAccessors | tests/test_chat.py:116-145 | on the test's reply: valid, with content the assistant text, tokens 8 + 10 = 18, and model "gpt-3.5-turbo-0301"; there is no error message, and the history is the user turn followed by the assistant turn |
| Checkpoint.Load | openai_api_call/asynctool.py:69 | the view `load_chats(chkpoint, withid=True)` rebuilds from the records, read in file order. It has no contract of its own; `LoadSlot`, `LoadLength`, `AppendTagged` and `TaggedWritesCommute` state its properties against the test file's expectations |
| Checkpoint.Place | tests/test_checkpoint.py:23-35 | writing slot `id` pads the view with absent slots up to `id`, sets that slot, and changes no other slot |
| Checkpoint.LoadSlot | tests/test_checkpoint.py:4-39 | a slot is absent exactly when no record was written for it. Otherwise it holds the log of the last record written for it, whatever order the ids came in |
| Checkpoint.LoadLength | tests/test_checkpoint.py:23-35 | the view is exactly one longer than the largest conversation index written |
| Checkpoint.AppendTagged | openai_api_call/asynctool.py:98 | appending a record tagged `ind` sets slot `ind` to its log and leaves every other slot as it was |
| Checkpoint.TaggedWritesCommute | openai_api_call/asynctool.py:97-98 | two tagged writes for different conversations give the same view in either order, so the order in which tasks complete does not matter |
| Checkpoint.LastContent | tests/test_checkpoint.py:18-19 | "" for an empty log; otherwise the last message's "content", which must exist |
| Checkpoint.LastMessages | tests/test_checkpoint.py:36-37 | one entry per slot: `None` for an absent slot, the last content for a present one; it fails exactly when some present log has no last content |
| Checkpoint.UntaggedSavesArePositional | tests/test_checkpoint.py:4-19 | untagged saves of `[]`, `[user]` and `[user, assistant]` give that view in that order, and the last messages `""`, the user text and the assistant text |
| Checkpoint.TaggedSavesOverwriteSlots | tests/test_checkpoint.py:23-37 | saves tagged 0, 3 and 2 give `[[], None, log2, log3]` and the last messages `""`, `None`, the assistant text and the user text |
| Dispatcher.FirstAnswerFrom | openai_api_call/asynctool.py:31-42 | the retry loop from attempt `k` with `budget` requests left: the first answered attempt wins, and an exhausted budget gives `None`. It has no contract of its own; `FirstAnswerFromSpec` and `MoreRequestsKeepAnswer` state its properties |
| Dispatcher.FirstAnswer | openai_api_call/asynctool.py:31-42 | what `async_post` returns with `max_requests = budget`: the retry loop from the first attempt. It has no contract of its own; `AsyncPost` states its result through `FirstAnswerFromSpec` |
| Dispatcher.FirstAnswerFromSpec | openai_api_call/asynctool.py:31-42 | there is an answer exactly when one of the attempts the budget allows answered. The answer is the earliest such attempt's, and every attempt before it failed |
| Dispatcher.MoreRequestsKeepAnswer | openai_api_call/asynctool.py:31-36 | a larger request budget keeps any answer a smaller budget got, and does not change it |
| Dispatcher.AsyncPost | openai_api_call/asynctool.py:29-42 | see the list under this table |
| Dispatcher.ScheduleTasks | openai_api_call/asynctool.py:102-112 | index `i` gets a task exactly when `i < len(chatlogs)` and its slot is absent (`i >= len(chats)` or `chats[i] is None`); tasks come in strictly increasing index order |
| Dispatcher.Decide | openai_api_call/asynctool.py:89-99 | see the list under this table |
| Dispatcher.DecideAsWritten | openai_api_call/asynctool.py:89-99 | as written, no reply is ever accepted: every valid envelope raises `AttributeError` at `resp.message`, whatever its body holds. A missing or non-JSON reply and an envelope that is not valid are handled as the corrected rule handles them |
| Dispatcher.EmptyValidReplyRaises | openai_api_call/asynctool.py:91-95 | the valid envelope `{}` raises `AttributeError` as written, where the corrected rule raises `KeyError` on `choices` |
| Dispatcher.ValidReplyIsAppended | tests/test_chat.py:116-136 | on the test's reply, the code as written raises `AttributeError`, while the corrected rule appends the assistant message of `choices[0]` |
| Dispatcher.TaskPayload | openai_api_call/asynctool.py:79-80 | the posted body has `messages`, `model` and every option key; `messages` is the conversation unless an option overrides it |
| Dispatcher.Batch.constructor | openai_api_call/asynctool.py:101-102 | a batch starts from the given conversations and checkpoint records |
| Dispatcher.Batch.ChatComplete | openai_api_call/asynctool.py:78-99 | see the list under this table |
| Dispatcher.CompletedStep | openai_api_call/asynctool.py:102-112 | task `t` is the only conversation that the first `t + 1` tasks add to the first `t`, since tasks do not repeat |
| Dispatcher.AcceptStep | openai_api_call/asynctool.py:95-99 | a completing task keeps the conversation logs and the checkpoint view in step with the tasks run so far |
| Dispatcher.SkipStep | openai_api_call/asynctool.py:89-93 | a task that returns False changes neither the logs nor the view |
| Dispatcher.Resumption | openai_api_call/asynctool.py:103-105 | a completed slot is never redone or changed. After a run a slot is absent exactly when its conversation was dispatched and did not complete, so the next run dispatches exactly those |
| Dispatcher.Batch.Run | openai_api_call/asynctool.py:101-117 | see the list under this table |
| Dispatcher.Batch.RunTask | openai_api_call/asynctool.py:106-112 | one task of a run: a task that raises passes the exception on and changes nothing; one that returns moves the logs and the view from the first `t` tasks to the first `t + 1`, and returns True exactly when its reply was accepted |
| Dispatcher.ProcessMsgs | openai_api_call/asynctool.py:44-117 | see the list under this table |
| Dispatcher.CheckArguments | openai_api_call/asynctool.py:150-157 | see the list under this table |
| Dispatcher.StartRecords | openai_api_call/asynctool.py:69 | the records a run loads: none when `clearfile` removed the file or it does not exist, otherwise the file's records. It has no contract of its own; `AsyncChatCompletion` states the run it starts |
| Dispatcher.RecordsIn | openai_api_call/asynctool.py:148-149 | the records a checkpoint file holds; an absent file, such as one `clearfile` removed, holds none. It has no contract of its own; `AsyncChatCompletion` states through it which slots the file holds after the run |
| Dispatcher.AsyncChatCompletion | openai_api_call/asynctool.py:119-173 | see the list under this table |

The longer contracts:

- **Dispatcher.AsyncPost**
  - It returns the first answer within `max_requests` attempts, and nothing is tried after it.
  - Every failure before the answer spent one request and one backoff delay, so `ntries` counts exactly those failures.
  - When every allowed attempt fails it returns `None` after exactly `max_requests` failures.
  - When `max_requests <= 0` it makes no attempt at all.
- **Dispatcher.Decide**, the corrected rule:
  - no response returns False;
  - a reply that is not JSON raises;
  - an invalid envelope returns False when `error.message` exists, and otherwise that lookup raises;
  - a valid envelope is accepted with the message `choices[0].message` when that exists, and otherwise raises.
- **Dispatcher.Batch.ChatComplete**
  - When the reply is accepted, it appends the message to conversation `ind`, appends one record tagged `ind` holding the extended conversation, and returns True.
  - When it raises, it passes the exception on and changes nothing.
  - Otherwise it returns False and changes nothing.
- **Dispatcher.Batch.Run**, the tasks run one after another:
  - It returns one result per task that returned, True exactly when that task's reply was accepted.
  - A raised exception stops the run; it is the exception of the first task that raised.
  - Afterwards the logs and the view stand as `LogsAfter` and `SlotsAfter` describe, and records are only appended.
- **Dispatcher.ProcessMsgs**
  - Exactly the pending conversations get a task, in input order, and one result is returned per task that returned.
  - Each result is True exactly when that conversation's reply was accepted.
  - A raised exception stops the run and is the one the next task raised.
  - The logs and the view then stand as `LogsAfter` and `SlotsAfter` describe, and the file only grows.
  - Completed slots are never changed, and a slot is absent afterwards exactly when it was dispatched and did not complete.
- **Dispatcher.CheckArguments**
  - The key falls back to the module default, and without either the check fails with "API key is not provided!".
  - The URL is the completion URL, normalised, so it always has a scheme.
  - A non-positive `ncoroutines` fails next, with "ncoroutines must be greater than 0!".
  - It succeeds exactly when neither check fails.
- **Dispatcher.AsyncChatCompletion**
  - When a check fails, the failure is returned, no task runs and the logs are unchanged.
  - `clearfile` removes the checkpoint before the checks, so the file is gone even when a check then fails.
  - A run that passes the checks dispatches exactly the conversations the remaining checkpoint has not completed, in increasing order.
  - `done` tasks returned. The run succeeds exactly when all did, with one result per task, True exactly when that conversation's reply was accepted.
  - A failure is the exception of the task after the `done` that returned.
  - The logs and the file end as `LogsAfter` and `SlotsAfter` describe. Every slot the checkpoint had completed is kept, and a slot is absent afterwards exactly when it was dispatched and did not complete.

## Left out

- HTTP sessions, headers sent on the wire, timeouts and `requests`/`aiohttp` are replaced by
  an oracle. For `chat_completion` and `valid_models` the oracle is the reply to the request
  the model builds. For `async_post` it is one sequence of attempt outcomes per conversation.
- asyncio concurrency is not modelled: the `Semaphore` (sized `ncoroutines + 1`), the `Lock`
  around checkpoint writes, `create_task` and `gather`. `ProcessMsgs` runs the tasks one
  after another in input order, with a separate attempt sequence for each.
  - Interleavings of tasks are not verified. `Checkpoint.TaggedWritesCommute` shows that the
    resulting view does not depend on the order in which tasks complete.
  - When a task raises, the model stops at that task. In the source, `gather` passes the first
    exception on while tasks that are already scheduled may keep running.
- `time.sleep(random.random() * timeinterval)`, `print`, `warnings.warn`, `tqdm` and the
  `platform == "macos"` branch are left out: randomness, wall-clock time and presentation.
  Only the number of backoff delays is modelled.
- The file system is abstract. `os.path.exists`/`os.remove` become an optional record
  sequence, and a run that writes nothing to an absent file leaves it absent. JSON
  (de)serialisation of the records and of the payload (`json.dumps`) is not modelled.
- The `notrun` branch, which returns an unstarted coroutine, is not modelled. It is a choice
  about the event loop and carries no state.
- The code of `Chat`, `load_chats` and `savewithid` is not part of this model. A saved record
  is taken to hold exactly the conversation that was passed in. Mixing tagged and untagged
  lines in one checkpoint follows the line-number rule above; the tests do not pin that down.
  `default_prompt` is module state and is left out.
- The model of `urllib.parse` leaves out a few inputs:
  - the removal of tab, CR and LF and of leading control characters and spaces;
  - the validation of bracketed IPv6 hosts and the NFKC netloc check;
  - the `ValueError` cases those raise;
  - character-level details of scheme detection beyond ASCII letters, digits, "+", "-" and ".".
    It follows the CPython form in which `urlunsplit` writes "//" whenever the scheme uses a
    netloc, because that is what produces the "https:///host" the replace step fixes.
- Url.NormalizeKeepsPlainUrl is stated only for plain URLs with a lower-case scheme and no
  query or fragment. The `urlparse`/`urlunparse` round trip does not return every URL that
  has a scheme unchanged: `urlparse` lower-cases the scheme, the round trip drops an empty
  trailing "?" or "#", and the global
  `replace("///", "//")` also rewrites "///" inside paths and queries.
- Python's `assert` disappears under `python -O`. The model always checks the assertions of
  `async_chat_completion` and `chat_history`.
- Aliasing of chat-log lists is not modelled. `chat_complete` appends to the caller's own list,
  so the caller sees the appended message; the model returns the updated logs instead
  (`finalLogs` of `ProcessMsgs`, `logsAfter` of `AsyncChatCompletion`).
- Dispatcher.TaskPayload stands alone: it states the body `chat_complete` posts, but the
  network oracle does not depend on the request, so `ChatComplete` does not build it.
- A `Resp` is a value: `__init__` stores `response` and `request_msg` as given, and nothing
  updates them (response.py:7-11). So there is no class and no mutation contract for it.

## Findings

| source | as written | input that shows it | evidently intended | confidence | as-written member | corrected member |
|---|---|---|---|---|---|---|
| openai_api_call/asynctool.py:95 | `chatlog.append(resp.message)`, but `Resp` defines no `message` (response.py:5-78), so every valid reply raises `AttributeError` before the append and the checkpoint write | the valid reply of tests/test_chat.py:116-136 | append the assistant message `response["choices"][0]["message"]` and save the extended conversation | not executed | Dispatcher.DecideAsWritten | Dispatcher.Decide |
