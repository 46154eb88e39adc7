/**
 * The batch dispatcher of asynctool.py: `async_post` retries one POST within a request
 * budget, `chat_complete` turns the reply into one more assistant turn and one checkpoint
 * record, `async_process_msgs` dispatches every conversation the checkpoint does not
 * already hold, and `async_chat_completion` checks its arguments before a run.
 *
 * The network is an oracle. Conversation `i` has a sequence of attempts; attempt `k` either
 * raised (timeout, connection error) or answered with a reply text, whatever its HTTP status.
 * Tasks run one after another in input order; see README for what that leaves out.
 */
module Dispatcher {
  import opened Wrappers
  import opened Json
  import opened Url
  import opened Request
  import opened Response
  import opened Checkpoint

  /** One POST attempt: the reply text arrived, or the request raised. */
  datatype Attempt<T> = Answered(body: T) | Failed

  /** Attempt `k`; attempts the oracle does not list fail. */
  function AttemptAt<T>(attempts: seq<Attempt<T>>, k: int): Attempt<T> {
    if 0 <= k < |attempts| then attempts[k] else Failed
  }

  /** The first answer among attempts `k`, `k + 1`, ... while `budget` requests remain. */
  function FirstAnswerFrom<T>(attempts: seq<Attempt<T>>, k: nat, budget: int): Option<T>
    decreases if budget > 0 then budget else 0
  {
    if budget <= 0 then None
    else
      match AttemptAt(attempts, k)
      case Answered(b) => Some(b)
      case Failed => FirstAnswerFrom(attempts, k + 1, budget - 1)
  }

  /** What `async_post` returns with `max_requests = budget`. */
  function FirstAnswer<T>(attempts: seq<Attempt<T>>, budget: int): Option<T> {
    FirstAnswerFrom(attempts, 0, budget)
  }

  /**
   * The retry rule: there is an answer exactly when one of the attempts the budget allows
   * answered, and it is the earliest such attempt's.
   */
  lemma {:induction false} FirstAnswerFromSpec<T>(attempts: seq<Attempt<T>>, k: nat, budget: int)
    ensures FirstAnswerFrom(attempts, k, budget).None? <==>
      forall j :: k <= j < k + budget ==> AttemptAt(attempts, j).Failed?
    ensures FirstAnswerFrom(attempts, k, budget).Some? ==>
      exists j :: k <= j < k + budget && AttemptAt(attempts, j) == Answered(FirstAnswerFrom(attempts, k, budget).value)
        && forall m :: k <= m < j ==> AttemptAt(attempts, m).Failed?
    decreases if budget > 0 then budget else 0
  {
    if budget > 0 && AttemptAt(attempts, k).Failed? {
      FirstAnswerFromSpec(attempts, k + 1, budget - 1);
      if FirstAnswerFrom(attempts, k, budget).Some? {
        var j :| k + 1 <= j < k + budget && AttemptAt(attempts, j) == Answered(FirstAnswerFrom(attempts, k, budget).value)
          && forall m :: k + 1 <= m < j ==> AttemptAt(attempts, m).Failed?;
        assert forall m :: k <= m < j ==> AttemptAt(attempts, m).Failed?;
      }
    } else if budget > 0 {
      assert AttemptAt(attempts, k) == Answered(FirstAnswerFrom(attempts, k, budget).value);
    }
  }

  /** A larger request budget never loses an answer a smaller one got, nor changes it. */
  lemma {:induction false} MoreRequestsKeepAnswer<T>(attempts: seq<Attempt<T>>, k: nat, small: int, large: int)
    requires small <= large
    requires FirstAnswerFrom(attempts, k, small).Some?
    ensures FirstAnswerFrom(attempts, k, large) == FirstAnswerFrom(attempts, k, small)
    decreases if small > 0 then small else 0
  {
    if AttemptAt(attempts, k).Failed? {
      MoreRequestsKeepAnswer(attempts, k + 1, small - 1, large - 1);
    }
  }

  /**
   * `async_post` (asynctool.py:29-42): tries the POST while requests remain, returning the
   * first reply text; each failure spends one request and one backoff delay, and an
   * exhausted (or non-positive) budget gives `None`. `ntries` counts the failures.
   */
  method AsyncPost<T>(maxRequests: int, attempts: seq<Attempt<T>>) returns (response: Option<T>, ntries: nat)
    ensures response == FirstAnswer(attempts, maxRequests)
    ensures forall k :: 0 <= k < ntries ==> AttemptAt(attempts, k).Failed?
    ensures response.Some? ==> ntries < maxRequests && AttemptAt(attempts, ntries) == Answered(response.value)
    ensures response.None? ==> ntries == if maxRequests > 0 then maxRequests else 0
  {
    var budget := maxRequests;
    ntries := 0;
    while budget > 0
      invariant ntries + budget == maxRequests
      invariant maxRequests > 0 ==> budget >= 0
      invariant maxRequests <= 0 ==> ntries == 0
      invariant forall k :: 0 <= k < ntries ==> AttemptAt(attempts, k).Failed?
      invariant FirstAnswerFrom(attempts, ntries, budget) == FirstAnswer(attempts, maxRequests)
      decreases budget
    {
      match AttemptAt(attempts, ntries) {
        case Answered(b) =>
          response := Some(b);
          return;
        case Failed =>
          budget := budget - 1;
          ntries := ntries + 1;
      }
    }
    response := None;
  }

  /** Strictly increasing, hence without repetition. */
  predicate Increasing(s: seq<nat>) {
    forall a, b :: 0 <= a < b < |s| ==> s[a] < s[b]
  }

  /**
   * The task-selection loop (asynctool.py:102-112): every conversation index below `n`
   * whose checkpoint slot is absent gets a task, in input order; completed ones are skipped.
   */
  method ScheduleTasks(n: nat, chats: View) returns (tasks: seq<nat>)
    ensures forall i: nat :: i in tasks <==> i < n && SlotAt(chats, i).None?
    ensures Increasing(tasks)
  {
    tasks := [];
    for ind := 0 to n
      invariant forall i: nat :: i in tasks <==> i < ind && SlotAt(chats, i).None?
      invariant Increasing(tasks)
      invariant forall k :: 0 <= k < |tasks| ==> tasks[k] < ind
    {
      if ind < |chats| && chats[ind].Some? {
        continue;
      }
      tasks := tasks + [ind];
    }
  }

  /** What `chat_complete` makes of one reply. */
  datatype Decision =
    | NoResponse              // `async_post` gave up: return False
    | Rejected                // an error envelope: warn with its message, return False
    | Accept(message: Json)   // append the assistant message, save, return True
    | Raise(error: Error)     // an exception escapes the task

  const MessagePath: seq<Step> := [Key("choices"), Index(0), Key("message")]

  /**
   * The outcome rules of `chat_complete` (asynctool.py:89-99), with the appended message
   * read from `choices[0].message` of the reply (see Findings in README). Evaluating the
   * warning's `resp.error_message` raises when the envelope has no such field.
   */
  function Decide(reply: Option<Reply>): (d: Decision)
    ensures d.NoResponse? <==> reply.None?
    ensures reply == Some(NotJsonText) ==> d == Raise(NotJson)
    ensures d.Rejected? <==>
      && reply.Some? && reply.value.Decoded?
      && IsValid(Resp(reply.value.body, None)) == Success(false)
      && ErrorMessage(Resp(reply.value.body, None)).Success?
    ensures d.Accept? <==>
      && reply.Some? && reply.value.Decoded?
      && IsValid(Resp(reply.value.body, None)) == Success(true)
      && Lookup(reply.value.body, MessagePath).Success?
    ensures d.Accept? ==> d.message == Lookup(reply.value.body, MessagePath).value
  {
    match reply
    case None => NoResponse
    case Some(NotJsonText) => Raise(NotJson)
    case Some(Decoded(body)) =>
      match IsValid(Resp(body, None))
      case Failure(e) => Raise(e)
      case Success(valid) =>
        if !valid then
          (match ErrorMessage(Resp(body, None))
           case Success(_) => Rejected
           case Failure(e) => Raise(e))
        else
          (match Lookup(body, MessagePath)
           case Success(m) => Accept(m)
           case Failure(e) => Raise(e))
  }

  /**
   * `chat_complete` as written: every valid reply reaches `resp.message`, which the envelope
   * does not define, so the task raises instead of appending, whatever the body holds.
   */
  function DecideAsWritten(reply: Option<Reply>): (d: Decision)
    ensures !d.Accept?
    ensures reply.Some? && reply.value.Decoded? && IsValid(Resp(reply.value.body, None)) == Success(true) ==>
      d == Raise(MissingAttribute)
    ensures !(reply.Some? && reply.value.Decoded? && IsValid(Resp(reply.value.body, None)) == Success(true)) ==>
      d == Decide(reply)
    ensures Decide(reply).Accept? ==> d == Raise(MissingAttribute)
  {
    match reply
    case None => NoResponse
    case Some(NotJsonText) => Raise(NotJson)
    case Some(Decoded(body)) =>
      match IsValid(Resp(body, None))
      case Failure(e) => Raise(e)
      case Success(valid) =>
        if !valid then
          (match ErrorMessage(Resp(body, None))
           case Success(_) => Rejected
           case Failure(e) => Raise(e))
        else Raise(MissingAttribute)
  }

  /** A valid envelope without any choices, `{}`, also raises AttributeError as written. */
  lemma EmptyValidReplyRaises()
    ensures DecideAsWritten(Some(Decoded(JObject(map[])))) == Raise(MissingAttribute)
    ensures Decide(Some(Decoded(JObject(map[])))) == Raise(MissingKey)
  {
    var body := JObject(map[]);
    assert IsValid(Resp(body, None)) == Success(true);
    assert MessagePath[0] == Key("choices");
  }

  /**
   * On the reply of tests/test_chat.py the code as written raises AttributeError, while the
   * corrected rule appends the assistant message of `choices[0]`.
   */
  lemma ValidReplyIsAppended(content: string)
    ensures DecideAsWritten(Some(Decoded(ChatReply(content)))) == Raise(MissingAttribute)
    ensures Decide(Some(Decoded(ChatReply(content)))) == Accept(Message("assistant", content))
  {
    var body := ChatReply(content);
    ChatReplyAccessors(content);
    var choice := body.fields["choices"].elems[0];
    assert Lookup(choice, [Key("message")]) == Success(Message("assistant", content));
    assert Lookup(body.fields["choices"], MessagePath[1..]) == Success(Message("assistant", content));
    assert Lookup(body, MessagePath) == Success(Message("assistant", content));
  }

  /**
   * The body `chat_complete` posts (asynctool.py:79-81): the conversation under "messages",
   * updated with the options, which carry `model` (asynctool.py:158-169).
   */
  function TaskPayload(chatlog: ChatLog, model: string, options: map<string, Json>): (p: map<string, Json>)
    ensures p.Keys == {"messages", "model"} + options.Keys
    ensures "messages" !in options ==> p["messages"] == JArray(chatlog)
    ensures "model" !in options ==> p["model"] == JStr(model)
    ensures forall k :: k in options ==> p[k] == options[k]
  {
    Update(map["messages" := JArray(chatlog)], map["model" := JStr(model)] + options)
  }

  /** What a task hands back to `gather`. */
  datatype TaskOutcome = Returned(ok: bool) | Raised(error: Error)

  /** The conversations of one run and the checkpoint file they are saved to. */
  class Batch {
    var chatlogs: seq<ChatLog>
    var records: seq<Record>

    constructor (chatlogs: seq<ChatLog>, records: seq<Record>)
      ensures this.chatlogs == chatlogs && this.records == records
    {
      this.chatlogs := chatlogs;
      this.records := records;
    }

    /**
     * `chat_complete(ind, ...)` (asynctool.py:78-99): posts conversation `ind`; on an
     * accepted reply appends its message to that conversation and one record tagged `ind`
     * holding the extended conversation to the checkpoint; otherwise changes nothing.
     */
    method ChatComplete(ind: nat, maxRequests: int, attempts: seq<Attempt<Reply>>) returns (outcome: TaskOutcome)
      requires ind < |chatlogs|
      modifies this
      ensures match Decide(FirstAnswer(attempts, maxRequests))
        case Accept(m) =>
          && outcome == Returned(true)
          && chatlogs == old(chatlogs)[ind := old(chatlogs)[ind] + [m]]
          && records == old(records) + [Record(Some(ind), old(chatlogs)[ind] + [m])]
        case Raise(e) => outcome == Raised(e) && chatlogs == old(chatlogs) && records == old(records)
        case _ => outcome == Returned(false) && chatlogs == old(chatlogs) && records == old(records)
    {
      var response, _ := AsyncPost(maxRequests, attempts);
      match Decide(response) {
        case NoResponse => outcome := Returned(false);
        case Rejected => outcome := Returned(false);
        case Raise(e) => outcome := Raised(e);
        case Accept(m) =>
          var log := chatlogs[ind] + [m];
          chatlogs := chatlogs[ind := log];
          records := records + [Record(Some(ind), log)];
          outcome := Returned(true);
      }
    }

    /**
     * The tasks of one run, one after another (asynctool.py:101-117): each conversation of
     * `tasks` in turn, until one raises. Afterwards the logs and the view stand as
     * `LogsAfter` and `SlotsAfter` say for the tasks that returned, and the file only grew.
     */
    method Run(tasks: seq<nat>, maxRequests: int, replies: seq<seq<Attempt<Reply>>>)
      returns (results: seq<bool>, error: Option<Error>)
      requires Increasing(tasks)
      requires forall k :: 0 <= k < |tasks| ==> tasks[k] < |chatlogs|
      modifies this
      ensures |results| <= |tasks|
      ensures error.None? <==> |results| == |tasks|
      ensures error.Some? ==> DecisionFor(replies, maxRequests, tasks[|results|]) == Raise(error.value)
      ensures forall t :: 0 <= t < |results| ==>
        && !DecisionFor(replies, maxRequests, tasks[t]).Raise?
        && (results[t] <==> DecisionFor(replies, maxRequests, tasks[t]).Accept?)
      ensures LogsAfter(old(chatlogs), chatlogs, tasks, |results|, replies, maxRequests)
      ensures SlotsAfter(old(records), records, old(chatlogs), chatlogs, tasks, |results|, replies, maxRequests)
      ensures |old(records)| <= |records| && records[..|old(records)|] == old(records)
    {
      ghost var startLogs := chatlogs;
      ghost var startRecords := records;
      results := [];
      error := None;
      var t := 0;
      while t < |tasks|
        invariant 0 <= t <= |tasks| && |results| == t
        invariant |startRecords| <= |records| && records[..|startRecords|] == startRecords
        invariant forall k :: 0 <= k < |tasks| ==> tasks[k] < |startLogs|
        invariant forall s :: 0 <= s < t ==>
          && !DecisionFor(replies, maxRequests, tasks[s]).Raise?
          && (results[s] <==> DecisionFor(replies, maxRequests, tasks[s]).Accept?)
        invariant LogsAfter(startLogs, chatlogs, tasks, t, replies, maxRequests)
        invariant SlotsAfter(startRecords, records, startLogs, chatlogs, tasks, t, replies, maxRequests)
        decreases |tasks| - t
      {
        var outcome := RunTask(startRecords, startLogs, tasks, t, maxRequests, replies);
        if outcome.Raised? {
          error := Some(outcome.error);
          break;
        }
        results := results + [outcome.ok];
        t := t + 1;
      }
    }

    /**
     * Task `t` of a run (asynctool.py:106-112, one `chat_complete` task): on return the logs and the
     * view have moved on from the first `t` tasks to the first `t + 1`; a raise is passed on.
     */
    method RunTask(ghost startRecords: seq<Record>, ghost startLogs: seq<ChatLog>, tasks: seq<nat>, t: int,
                   maxRequests: int, replies: seq<seq<Attempt<Reply>>>) returns (outcome: TaskOutcome)
      requires 0 <= t < |tasks| && Increasing(tasks) && tasks[t] < |startLogs|
      requires |startRecords| <= |records| && records[..|startRecords|] == startRecords
      requires LogsAfter(startLogs, chatlogs, tasks, t, replies, maxRequests)
      requires SlotsAfter(startRecords, records, startLogs, chatlogs, tasks, t, replies, maxRequests)
      modifies this
      ensures outcome.Raised? ==>
        && DecisionFor(replies, maxRequests, tasks[t]) == Raise(outcome.error)
        && chatlogs == old(chatlogs) && records == old(records)
      ensures outcome.Returned? ==>
        && !DecisionFor(replies, maxRequests, tasks[t]).Raise?
        && (outcome.ok <==> DecisionFor(replies, maxRequests, tasks[t]).Accept?)
        && LogsAfter(startLogs, chatlogs, tasks, t + 1, replies, maxRequests)
        && SlotsAfter(startRecords, records, startLogs, chatlogs, tasks, t + 1, replies, maxRequests)
      ensures |startRecords| <= |records| && records[..|startRecords|] == startRecords
    {
      var ind := tasks[t];
      ghost var logs := chatlogs;
      ghost var recs := records;
      outcome := ChatComplete(ind, maxRequests, AttemptsFor(replies, ind));
      if outcome == Returned(true) {
        AcceptStep(startRecords, recs, startLogs, logs, tasks, t, replies, maxRequests,
                   DecisionFor(replies, maxRequests, ind).message);
        assert records[..|startRecords|] == recs[..|startRecords|];
      } else if outcome == Returned(false) {
        SkipStep(startRecords, recs, startLogs, logs, tasks, t, replies, maxRequests);
      }
    }
  }

  /** The attempts the oracle lists for conversation `i`. */
  function AttemptsFor(replies: seq<seq<Attempt<Reply>>>, i: nat): seq<Attempt<Reply>> {
    if i < |replies| then replies[i] else []
  }

  /** The decision `chat_complete` reaches for conversation `i`. */
  function DecisionFor(replies: seq<seq<Attempt<Reply>>>, maxRequests: int, i: nat): Decision {
    Decide(FirstAnswer(AttemptsFor(replies, i), maxRequests))
  }

  /** Conversation `i` was dispatched among the first `t` tasks and completed. */
  predicate CompletedBy(tasks: seq<nat>, t: int, replies: seq<seq<Attempt<Reply>>>, maxRequests: int, i: nat)
    requires 0 <= t <= |tasks|
  {
    i in tasks[..t] && DecisionFor(replies, maxRequests, i).Accept?
  }

  /** The conversation logs after the first `t` tasks: each completed one gained its message. */
  predicate LogsAfter(chatlogs: seq<ChatLog>, logs: seq<ChatLog>, tasks: seq<nat>, t: int,
                      replies: seq<seq<Attempt<Reply>>>, maxRequests: int)
    requires 0 <= t <= |tasks|
  {
    && |logs| == |chatlogs|
    && forall i :: 0 <= i < |chatlogs| ==>
         logs[i] == if CompletedBy(tasks, t, replies, maxRequests, i)
                    then chatlogs[i] + [DecisionFor(replies, maxRequests, i).message]
                    else chatlogs[i]
  }

  /**
   * The checkpoint view after the first `t` tasks: each completed conversation's slot holds
   * its extended log, every other slot is as in the view the run started from.
   */
  ghost predicate SlotsAfter(records: seq<Record>, recs: seq<Record>, chatlogs: seq<ChatLog>, logs: seq<ChatLog>,
                       tasks: seq<nat>, t: int, replies: seq<seq<Attempt<Reply>>>, maxRequests: int)
    requires 0 <= t <= |tasks|
    requires |logs| == |chatlogs|
  {
    forall i: nat :: SlotAt(Load(recs), i) ==
      if i < |chatlogs| && CompletedBy(tasks, t, replies, maxRequests, i)
      then Some(logs[i]) else SlotAt(Load(records), i)
  }

  /** Task `t` is the only conversation that `tasks[..t + 1]` adds to `tasks[..t]`. */
  lemma CompletedStep(tasks: seq<nat>, t: int, replies: seq<seq<Attempt<Reply>>>, maxRequests: int)
    requires 0 <= t < |tasks| && Increasing(tasks)
    ensures forall i: nat :: CompletedBy(tasks, t + 1, replies, maxRequests, i) <==>
      CompletedBy(tasks, t, replies, maxRequests, i)
      || (i == tasks[t] && DecisionFor(replies, maxRequests, i).Accept?)
    ensures !CompletedBy(tasks, t, replies, maxRequests, tasks[t])
  {
    assert tasks[..t + 1] == tasks[..t] + [tasks[t]];
    assert tasks[t] !in tasks[..t];
  }

  /** A task that completes conversation `tasks[t]` keeps both the logs and the view in step. */
  lemma AcceptStep(records: seq<Record>, recs: seq<Record>, chatlogs: seq<ChatLog>, logs: seq<ChatLog>,
                   tasks: seq<nat>, t: int, replies: seq<seq<Attempt<Reply>>>, maxRequests: int, m: Json)
    requires 0 <= t < |tasks| && Increasing(tasks) && tasks[t] < |chatlogs|
    requires DecisionFor(replies, maxRequests, tasks[t]) == Accept(m)
    requires LogsAfter(chatlogs, logs, tasks, t, replies, maxRequests)
    requires SlotsAfter(records, recs, chatlogs, logs, tasks, t, replies, maxRequests)
    ensures var ind := tasks[t];
      var logs' := logs[ind := logs[ind] + [m]];
      && LogsAfter(chatlogs, logs', tasks, t + 1, replies, maxRequests)
      && SlotsAfter(records, recs + [Record(Some(ind), logs[ind] + [m])], chatlogs, logs', tasks, t + 1, replies, maxRequests)
  {
    var ind := tasks[t];
    CompletedStep(tasks, t, replies, maxRequests);
    var logs' := logs[ind := logs[ind] + [m]];
    var recs' := recs + [Record(Some(ind), logs[ind] + [m])];
    forall i: nat
      ensures SlotAt(Load(recs'), i) ==
        if i < |chatlogs| && CompletedBy(tasks, t + 1, replies, maxRequests, i)
        then Some(logs'[i]) else SlotAt(Load(records), i)
    {
      AppendTagged(recs, ind, logs[ind] + [m], i);
    }
  }

  /** A task that returns False changes nothing, and conversation `tasks[t]` stays pending. */
  lemma SkipStep(records: seq<Record>, recs: seq<Record>, chatlogs: seq<ChatLog>, logs: seq<ChatLog>,
                 tasks: seq<nat>, t: int, replies: seq<seq<Attempt<Reply>>>, maxRequests: int)
    requires 0 <= t < |tasks| && Increasing(tasks)
    requires !DecisionFor(replies, maxRequests, tasks[t]).Accept?
    requires LogsAfter(chatlogs, logs, tasks, t, replies, maxRequests)
    requires SlotsAfter(records, recs, chatlogs, logs, tasks, t, replies, maxRequests)
    ensures LogsAfter(chatlogs, logs, tasks, t + 1, replies, maxRequests)
    ensures SlotsAfter(records, recs, chatlogs, logs, tasks, t + 1, replies, maxRequests)
  {
    CompletedStep(tasks, t, replies, maxRequests);
  }

  /**
   * What the next run on the checkpoint a run left behind dispatches: a completed slot is
   * never redone or changed, and a slot is still absent exactly when its conversation was
   * dispatched and not completed.
   */
  lemma Resumption(records: seq<Record>, recs: seq<Record>, chatlogs: seq<ChatLog>, logs: seq<ChatLog>,
                   tasks: seq<nat>, t: int, replies: seq<seq<Attempt<Reply>>>, maxRequests: int)
    requires 0 <= t <= |tasks|
    requires forall i: nat :: i in tasks <==> i < |chatlogs| && SlotAt(Load(records), i).None?
    requires LogsAfter(chatlogs, logs, tasks, t, replies, maxRequests)
    requires SlotsAfter(records, recs, chatlogs, logs, tasks, t, replies, maxRequests)
    ensures forall i: nat :: SlotAt(Load(records), i).Some? ==> SlotAt(Load(recs), i) == SlotAt(Load(records), i)
    ensures forall i: nat :: i < |chatlogs| ==>
      (SlotAt(Load(recs), i).None? <==> i in tasks && !CompletedBy(tasks, t, replies, maxRequests, i))
  {
    forall i: nat | SlotAt(Load(records), i).Some?
      ensures SlotAt(Load(recs), i) == SlotAt(Load(records), i)
    {
      assert i !in tasks;
    }
  }

  /**
   * `async_process_msgs` (asynctool.py:44-117) over the checkpoint `records`: runs one task
   * per pending conversation, in input order, until one raises. The logs and the view then
   * stand as `LogsAfter` and `SlotsAfter` say for the tasks that returned, the file has only
   * grown, and the next run on it dispatches exactly the conversations this run neither
   * skipped nor completed.
   */
  method ProcessMsgs(chatlogs: seq<ChatLog>, records: seq<Record>, maxRequests: int, replies: seq<seq<Attempt<Reply>>>)
    returns (tasks: seq<nat>, results: seq<bool>, error: Option<Error>, finalLogs: seq<ChatLog>, finalRecords: seq<Record>)
    ensures forall i: nat :: i in tasks <==> i < |chatlogs| && SlotAt(Load(records), i).None?
    ensures Increasing(tasks)
    ensures |results| <= |tasks|
    ensures error.None? <==> |results| == |tasks|
    ensures error.Some? ==> DecisionFor(replies, maxRequests, tasks[|results|]) == Raise(error.value)
    ensures forall t :: 0 <= t < |results| ==>
      && !DecisionFor(replies, maxRequests, tasks[t]).Raise?
      && (results[t] <==> DecisionFor(replies, maxRequests, tasks[t]).Accept?)
    ensures LogsAfter(chatlogs, finalLogs, tasks, |results|, replies, maxRequests)
    ensures SlotsAfter(records, finalRecords, chatlogs, finalLogs, tasks, |results|, replies, maxRequests)
    ensures |records| <= |finalRecords| && finalRecords[..|records|] == records
    ensures forall i: nat :: SlotAt(Load(records), i).Some? ==> SlotAt(Load(finalRecords), i) == SlotAt(Load(records), i)
    ensures forall i: nat :: i < |chatlogs| ==>
      (SlotAt(Load(finalRecords), i).None? <==> i in tasks && !CompletedBy(tasks, |results|, replies, maxRequests, i))
  {
    tasks := ScheduleTasks(|chatlogs|, Load(records));
    var batch := new Batch(chatlogs, records);
    assert forall k :: 0 <= k < |tasks| ==> tasks[k] in tasks;
    results, error := batch.Run(tasks, maxRequests, replies);
    finalLogs := batch.chatlogs;
    finalRecords := batch.records;
    Resumption(records, finalRecords, chatlogs, finalLogs, tasks, |results|, replies, maxRequests);
  }

  /**
   * The checks and defaults of `async_chat_completion` (asynctool.py:150-157), in order: the
   * API key falls back to the module's default and must then be present; the URL defaults to
   * the base URL joined with the completions path and is normalised; `ncoroutines` must be
   * positive. A success yields the key and the URL.
   */
  function CheckArguments(apiKey: Option<string>, defaultKey: Option<string>, chatUrl: Option<string>,
                          baseUrl: string, ncoroutines: int): (r: Result<(string, string), Error>)
    ensures r.Success? <==> (apiKey.Some? || defaultKey.Some?) && ncoroutines > 0
    ensures apiKey.None? && defaultKey.None? ==> r == Failure(AssertionFailed("API key is not provided!"))
    ensures (apiKey.Some? || defaultKey.Some?) && ncoroutines <= 0 ==>
      r == Failure(AssertionFailed("ncoroutines must be greater than 0!"))
    ensures r.Success? ==> r.value.0 == if apiKey.Some? then apiKey.value else defaultKey.value
    ensures r.Success? ==> r.value.1 == CompletionUrl(chatUrl, baseUrl) && Parse(r.value.1).scheme != ""
  {
    var key := if apiKey.Some? then apiKey else defaultKey;
    if key.None? then Failure(AssertionFailed("API key is not provided!"))
    else
      var url := CompletionUrl(chatUrl, baseUrl);
      if ncoroutines <= 0 then Failure(AssertionFailed("ncoroutines must be greater than 0!"))
      else Success((key.value, url))
  }

  /** The checkpoint a run starts from: none when `clearfile` removed it or it never existed. */
  function StartRecords(file: Option<seq<Record>>, clearfile: bool): seq<Record> {
    if clearfile || file.None? then [] else file.value
  }

  /** The records a checkpoint file holds; an absent file holds none. */
  function RecordsIn(file: Option<seq<Record>>): seq<Record> {
    if file.Some? then file.value else []
  }

  /**
   * `async_chat_completion` (asynctool.py:119-173) on a checkpoint file that may be absent:
   * `clearfile` removes it before any check, so a run that fails its checks has still lost
   * it. A run that passes them dispatches every conversation the remaining file has not
   * completed, in order, until a task raises: `done` tasks returned, each result says
   * whether that conversation's reply was accepted, a raise is the next task's exception,
   * and the logs (which the source extends in place) and the file end as `LogsAfter` and
   * `SlotsAfter` describe, with every completed slot kept.
   */
  method AsyncChatCompletion(chatlogs: seq<ChatLog>, file: Option<seq<Record>>, clearfile: bool,
                             apiKey: Option<string>, defaultKey: Option<string>, chatUrl: Option<string>,
                             baseUrl: string, maxRequests: int, ncoroutines: int,
                             replies: seq<seq<Attempt<Reply>>>)
    returns (result: Result<seq<bool>, Error>, tasks: seq<nat>, done: nat,
             logsAfter: seq<ChatLog>, fileAfter: Option<seq<Record>>)
    ensures CheckArguments(apiKey, defaultKey, chatUrl, baseUrl, ncoroutines).Failure? ==>
      && result == Failure(CheckArguments(apiKey, defaultKey, chatUrl, baseUrl, ncoroutines).error)
      && tasks == [] && done == 0 && logsAfter == chatlogs
      && fileAfter == if clearfile then None else file
    ensures CheckArguments(apiKey, defaultKey, chatUrl, baseUrl, ncoroutines).Success? ==>
      var start := StartRecords(file, clearfile);
      && (forall i: nat :: i in tasks <==> i < |chatlogs| && SlotAt(Load(start), i).None?)
      && Increasing(tasks)
      && done <= |tasks|
      && (result.Success? <==> done == |tasks|)
      && (result.Success? ==> |result.value| == |tasks|)
      && (forall t :: 0 <= t < done ==>
            && !DecisionFor(replies, maxRequests, tasks[t]).Raise?
            && (result.Success? ==> (result.value[t] <==> DecisionFor(replies, maxRequests, tasks[t]).Accept?)))
      && (result.Failure? ==> DecisionFor(replies, maxRequests, tasks[done]) == Raise(result.error))
      && LogsAfter(chatlogs, logsAfter, tasks, done, replies, maxRequests)
      && SlotsAfter(start, RecordsIn(fileAfter), chatlogs, logsAfter, tasks, done, replies, maxRequests)
      && (forall i: nat :: SlotAt(Load(start), i).Some? ==> SlotAt(Load(RecordsIn(fileAfter)), i) == SlotAt(Load(start), i))
      && (forall i: nat :: i < |chatlogs| ==>
            (SlotAt(Load(RecordsIn(fileAfter)), i).None? <==> i in tasks && !CompletedBy(tasks, done, replies, maxRequests, i)))
  {
    var checked := CheckArguments(apiKey, defaultKey, chatUrl, baseUrl, ncoroutines);
    if checked.Failure? {
      result := Failure(checked.error);
      tasks, done, logsAfter := [], 0, chatlogs;
      fileAfter := if clearfile then None else file;
      return;
    }
    var records := StartRecords(file, clearfile);
    var results, error, finalRecords;
    tasks, results, error, logsAfter, finalRecords := ProcessMsgs(chatlogs, records, maxRequests, replies);
    done := |results|;
    result := if error.Some? then Failure(error.value) else Success(results);
    fileAfter := if (clearfile || file.None?) && finalRecords == [] then None else Some(finalRecords);
    assert RecordsIn(fileAfter) == finalRecords;
  }
}
