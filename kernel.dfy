/**
 * What the kernel-side actions share: Python exceptions and how `str(err)`
 * prints them, Python's reading of JSON-like values (`d[k]`, `k in v`,
 * `Path(v)`), the MATLAB eval oracle, and the record of one `execute` run.
 */
module Kernel {
  import opened Common
  import opened Json

  /** The Python exceptions the actions raise or catch. */
  datatype PyError =
    | KeyError(key: string)
    | TypeError(msg: string)
    | AttributeError(msg: string)
    | Exception(msg: string)
    | TimeoutError(msg: string)
    | FileNotFoundError(msg: string)

  /** `str(err)`: a KeyError prints its key in quotes, every other exception its message. */
  function Str(e: PyError): (s: string)
    ensures e.KeyError? ==> s == "'" + e.key + "'" && |s| == |e.key| + 2
    ensures !e.KeyError? ==> s == e.msg
  {
    match e
    case KeyError(k) => "'" + k + "'"
    case TypeError(m) => m
    case AttributeError(m) => m
    case Exception(m) => m
    case TimeoutError(m) => m
    case FileNotFoundError(m) => m
  }

  /** Python's name for the type of a value. */
  function TypeName(v: Json): string
  {
    match v
    case JNull => "NoneType"
    case JBool(_) => "bool"
    case JStr(_) => "str"
    case JObj(_) => "dict"
  }

  /** `v[key]` with a string key: a dict's entry, a KeyError for a missing key, a TypeError on anything else. */
  function Index(v: Json, key: string): (r: Result<Json, PyError>)
    ensures r.Ok? <==> v.JObj? && key in v.fields
    ensures r.Ok? ==> r.value == v.fields[key]
    ensures v.JObj? && key !in v.fields ==> r == Err(KeyError(key))
    ensures !v.JObj? ==> r.Err? && r.error.TypeError?
  {
    match v
    case JObj(m) => if key in m then Ok(m[key]) else Err(KeyError(key))
    case JStr(_) => Err(TypeError("string indices must be integers"))
    case _ => Err(TypeError("'" + TypeName(v) + "' object is not subscriptable"))
  }

  /** `key in v`: membership for a dict, substring for a str, a TypeError otherwise. */
  function In(key: string, v: Json): (r: Result<bool, PyError>)
    ensures v.JObj? ==> r == Ok(key in v.fields)
    ensures v.JStr? ==> r == Ok(Contains(v.s, key))
    ensures r.Err? <==> v.JNull? || v.JBool?
  {
    match v
    case JObj(m) => Ok(key in m)
    case JStr(s) => Ok(Contains(s, key))
    case _ => Err(TypeError("argument of type '" + TypeName(v) + "' is not iterable"))
  }

  /** `dict.get(key, default)`; an AttributeError on anything but a dict. */
  function GetOr(v: Json, key: string, default: Json): (r: Result<Json, PyError>)
    ensures r.Ok? <==> v.JObj?
    ensures v.JObj? ==> r.value == if key in v.fields then v.fields[key] else default
  {
    match v
    case JObj(m) => Ok(if key in m then m[key] else default)
    case _ => Err(AttributeError("'" + TypeName(v) + "' object has no attribute 'get'"))
  }

  /**
   * `str(Path(v).expanduser())`: only a str makes a path; `expand` is what
   * home-directory expansion and path normalisation make of the text.
   */
  function PathText(v: Json, expand: string -> string): (r: Result<string, PyError>)
    ensures r.Ok? <==> v.JStr?
    ensures r.Ok? ==> r.value == expand(v.s)
  {
    match v
    case JStr(s) => Ok(expand(s))
    case _ => Err(TypeError("expected str, bytes or os.PathLike object, not " + TypeName(v)))
  }

  /**
   * A value formatted into an f-string. A non-empty dict is abbreviated as
   * "{...}": Python prints its items in insertion order, which a map does not keep.
   */
  function PyStr(v: Json): string
  {
    match v
    case JNull => "None"
    case JBool(b) => if b then "True" else "False"
    case JStr(s) => s
    case JObj(m) => if m == map[] then "{}" else "{...}"
  }

  /** What `send_eval_request_to_matlab(code)` does: raise, or return a reply. */
  datatype EvalReply = EvalRaised(error: PyError) | EvalReturned(response: Json)

  /**
   * One `execute` run: the MATLAB code it sent for evaluation, the messages it
   * sent on the comm, and the exception it let escape, if any.
   */
  datatype Run = Run(evals: seq<string>, sent: seq<Envelope>, raised: Option<PyError>)

  /** `{"action": tag, "error": error}` and the fields `rest` adds. */
  function Reply(tag: string, rest: Envelope, error: Json): (env: Envelope)
    requires "action" !in rest && "error" !in rest
    ensures Tag(env) == Some(tag) && "error" in env && env["error"] == error
    ensures forall k :: k in rest ==> k in env && env[k] == rest[k]
    ensures env.Keys == rest.Keys + {"action", "error"}
  {
    rest["action" := JStr(tag)]["error" := error]
  }

  /** The `error` of a reply for an exception: `str(err)`. */
  function ErrorText(e: PyError): Json
  {
    JStr(Str(e))
  }
}
