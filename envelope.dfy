/**
 * The JSON values an HTTP request body carries, the action envelope that the
 * task executor and the LLM endpoint both put on the robot's action queue,
 * and the two pieces of Python semantics the endpoints rely on: truthiness
 * and the substring test of `in` on strings.
 */
module Envelope {

  /** A JSON value as FastAPI decodes it (numbers are modelled as integers). */
  datatype Json =
    | JNull
    | JBool(b: bool)
    | JNum(n: int)
    | JStr(s: string)
    | JList(items: seq<Json>)
    | JObject(fields: map<string, Json>)

  /** A request body: the endpoints receive a JSON object as a Python dict. */
  type Body = map<string, Json>

  /** Python's `d.get(key, default)`. */
  function DictGet(body: Body, key: string, default: Json): Json
  {
    if key in body then body[key] else default
  }

  /** Python's truth value of a JSON value (`if v:`). */
  predicate Truthy(v: Json)
    ensures !Truthy(v) <==> v in {JNull, JBool(false), JNum(0), JStr(""), JList([]), JObject(map[])}
  {
    match v
    case JNull => false
    case JBool(b) => b
    case JNum(n) => n != 0
    case JStr(s) => s != ""
    case JList(items) => items != []
    case JObject(fields) => fields != map[]
  }

  /** Python's `sub in s` for two strings: `sub` occurs in `s` at some offset. */
  predicate HasSubstring(s: string, sub: string)
    decreases |s|
  {
    (|sub| <= |s| && s[..|sub|] == sub) || (s != [] && HasSubstring(s[1..], sub))
  }

  /** Any string placed between two others is found by the substring test. */
  lemma {:induction false} SubstringOfSandwich(pre: string, mid: string, post: string)
    ensures HasSubstring(pre + mid + post, mid)
  {
    if pre == [] {
      assert (pre + mid + post)[..|mid|] == mid;
    } else {
      assert (pre + mid + post)[1..] == pre[1..] + mid + post;
      SubstringOfSandwich(pre[1..], mid, post);
    }
  }

  /** The envelope `{"action": {"type": "run_code", "payload": {"code": code}}}`. */
  function RunCodeBody(code: string): Body
  {
    map["action" := JObject(map["type" := JStr("run_code"),
                                "payload" := JObject(map["code" := JStr(code)])])]
  }
}
