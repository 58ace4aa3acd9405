/**
 * The JSON values exchanged on a comm channel, and the two ways the code reads
 * them: JavaScript in the lab extension and Python in the kernel.
 */
module Json {
  import opened Common

  datatype Json = JNull | JBool(b: bool) | JStr(s: string) | JObj(fields: map<string, Json>)

  /** A message on the channel: a JSON object at top level. */
  type Envelope = map<string, Json>

  /** `data.key` on an object; `None` is `undefined` (the key is absent). */
  function Get(m: Envelope, key: string): Option<Json>
  {
    if key in m then Some(m[key]) else None
  }

  /** JavaScript truthiness of a value that may be `undefined`. */
  predicate JsTruthy(v: Option<Json>)
  {
    match v
    case None => false
    case Some(JNull) => false
    case Some(JBool(b)) => b
    case Some(JStr(s)) => s != ""
    case Some(JObj(_)) => true
  }

  /** Python truthiness: `None`, `False`, `""` and `{}` are false. */
  predicate PyTruthy(v: Json)
  {
    match v
    case JNull => false
    case JBool(b) => b
    case JStr(s) => s != ""
    case JObj(m) => m != map[]
  }

  /**
   * JavaScript's property read `v.key`: `None` when it throws a TypeError
   * (reading a property of `undefined` or `null`), otherwise the value read,
   * which is `undefined` for a missing key or a non-object.
   */
  function Prop(v: Option<Json>, key: string): Option<Option<Json>>
  {
    match v
    case None => None
    case Some(JNull) => None
    case Some(JObj(m)) => Some(Get(m, key))
    case Some(_) => Some(None)
  }

  /** The action tag of a message: its `action` field when that is a string. */
  function Tag(env: Envelope): Option<string>
  {
    if "action" in env && env["action"].JStr? then Some(env["action"].s) else None
  }

  /** A field of a request's nested `data` object, as the kernel reads `data["data"][key]`. */
  function Payload(env: Envelope, key: string): Option<Json>
  {
    if "data" in env && env["data"].JObj? then Get(env["data"].fields, key) else None
  }
}
