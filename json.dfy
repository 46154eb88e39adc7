/**
 * The JSON-like values the client exchanges with the chat API: decoded response bodies,
 * chat messages and request payloads. Python's `None` and JSON `null` are the same value,
 * `JNull`. Lookups follow Python's subscript semantics and report the exception Python
 * would raise as an `Error`.
 */
module Json {
  import opened Wrappers

  datatype Json =
    | JNull
    | JBool(b: bool)
    | JInt(i: int)
    | JStr(s: string)
    | JArray(elems: seq<Json>)
    | JObject(fields: map<string, Json>)

  /** The exceptions the modelled code can raise. */
  datatype Error =
    | MissingKey           // KeyError
    | IndexOutOfRange      // IndexError
    | WrongType            // TypeError
    | MissingAttribute     // AttributeError
    | AssertionFailed(msg: string)
    | ApiCallFailed(text: string)   // `raise Exception(response.text)`
    | NotJson              // json.JSONDecodeError

  /** A reply text as `json.loads` (or `response.json()`) reads it. */
  datatype Reply = Decoded(body: Json) | NotJsonText

  /** One subscript: `x["key"]` or `x[index]`. */
  datatype Step = Key(k: string) | Index(n: int)

  /** `s` occurs in `t` as a contiguous substring (Python's `s in t` on strings). */
  predicate Contains(t: string, s: string) {
    exists i :: 0 <= i <= |t| - |s| && OccursAt(t, s, i)
  }

  predicate OccursAt(t: string, s: string, i: int)
    requires 0 <= i <= |t| - |s|
  {
    t[i..i + |s|] == s
  }

  /** A chat message `{"role": role, "content": content}`. */
  function Message(role: string, content: string): Json {
    JObject(map["role" := JStr(role), "content" := JStr(content)])
  }

  /** Python's `j[step]`. */
  function Get(j: Json, step: Step): (r: Result<Json, Error>)
    ensures step.Key? ==> (r.Success? <==> j.JObject? && step.k in j.fields)
    ensures step.Key? && r.Success? ==> r.value == j.fields[step.k]
    ensures step.Index? && j.JArray? && 0 <= step.n < |j.elems| ==> r == Success(j.elems[step.n])
    ensures step.Index? && j.JArray? && |j.elems| <= step.n ==> r == Failure(IndexOutOfRange)
  {
    match step
    case Key(k) =>
      (match j
       case JObject(m) => if k in m then Success(m[k]) else Failure(MissingKey)
       case _ => Failure(WrongType))
    case Index(n) =>
      (match j
       case JArray(a) =>
         if 0 <= n < |a| then Success(a[n])
         else if -|a| <= n < 0 then Success(a[|a| + n])
         else Failure(IndexOutOfRange)
       case JStr(s) =>
         if 0 <= n < |s| then Success(JStr([s[n]]))
         else if -|s| <= n < 0 then Success(JStr([s[|s| + n]]))
         else Failure(IndexOutOfRange)
       // JSON object keys are strings, so an integer key is never present
       case JObject(_) => Failure(MissingKey)
       case _ => Failure(WrongType))
  }

  /** Python's `j[p0][p1]...`: the first failing subscript decides the error. */
  function Lookup(j: Json, path: seq<Step>): Result<Json, Error>
    decreases |path|
  {
    if path == [] then Success(j)
    else
      match Get(j, path[0])
      case Failure(e) => Failure(e)
      case Success(v) => Lookup(v, path[1..])
  }
}
