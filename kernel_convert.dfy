/**
 * `ConvertAction` on the kernel side (actions/convert_action.py): evaluate
 * `ipynb2mlx` in MATLAB and answer the lab extension with one "convert" reply.
 */
module KernelConvert {
  import opened Common
  import opened Json
  import opened ActionTypes
  import opened Kernel

  /** `get_code(ipynb, mlx)`: the MATLAB command that converts `ipynb` into `mlx`. */
  function GetCode(ipynb: string, mlx: string): (code: string)
    ensures StartsWith(code, "ipynb2mlx ")
    ensures code[|"ipynb2mlx "|..] == ipynb + " " + mlx
  {
    "ipynb2mlx " + ipynb + " " + mlx
  }

  /** The two paths `execute` reads before its `try`: `data["data"][key]`, made into paths. */
  function RequestPaths(data: Json, expand: string -> string): (r: Result<(string, string), PyError>)
    ensures r.Ok? <==>
      Index(data, "data").Ok?
      && Index(Index(data, "data").value, "ipynbFilePath").Ok?
      && Index(Index(data, "data").value, "mlxFilePath").Ok?
      && PathText(Index(Index(data, "data").value, "ipynbFilePath").value, expand).Ok?
      && PathText(Index(Index(data, "data").value, "mlxFilePath").value, expand).Ok?
    ensures r.Ok? ==>
      r.value.0 == expand(data.fields["data"].fields["ipynbFilePath"].s)
      && r.value.1 == expand(data.fields["data"].fields["mlxFilePath"].s)
  {
    var payload :- Index(data, "data");
    var ipynbValue :- Index(payload, "ipynbFilePath");
    var ipynb :- PathText(ipynbValue, expand);
    var mlxValue :- Index(payload, "mlxFilePath");
    var mlx :- PathText(mlxValue, expand);
    Ok((ipynb, mlx))
  }

  /** A "convert" reply: `mlxFilePath` and `error`. */
  function ConvertReply(mlxFilePath: Json, error: Json): Envelope
  {
    Reply(KernelValue(Convert), map["mlxFilePath" := mlxFilePath], error)
  }

  /**
   * The `try` block given the eval's outcome, logging the reply's text under
   * `logKey` on an error. `Ok` is the reply it sends; `Err` is the exception
   * the `except` branch catches.
   */
  function TryBlock(logKey: string, mlx: string, eval: EvalReply): (r: Result<Envelope, PyError>)
  {
    match eval
    case EvalRaised(e) => Err(e)
    case EvalReturned(response) =>
      var isError :- Index(response, "isError");
      if PyTruthy(isError) then
        var logged :- Index(response, logKey);
        var text :- Index(response, "responseStr");
        Ok(ConvertReply(JNull, text))
      else
        Ok(ConvertReply(JStr(mlx), JNull))
  }

  /**
   * `execute(comm, data)` with the log line reading `logKey`: a request
   * without both paths raises before anything is evaluated or sent; otherwise
   * exactly one code is evaluated and exactly one reply sent, an exception in
   * between becoming the reply's `error`.
   */
  function ExecuteWith(logKey: string, data: Json, expand: string -> string, eval: EvalReply): (run: Run)
    ensures RequestPaths(data, expand).Err? ==> run == Run([], [], Some(RequestPaths(data, expand).error))
    ensures RequestPaths(data, expand).Ok? ==>
      var (ipynb, mlx) := RequestPaths(data, expand).value;
      run.raised.None? && run.evals == [GetCode(ipynb, mlx)] && |run.sent| == 1
      && Tag(run.sent[0]) == Some("convert") && run.sent[0].Keys == {"action", "mlxFilePath", "error"}
  {
    match RequestPaths(data, expand)
    case Err(e) => Run([], [], Some(e))
    case Ok((ipynb, mlx)) =>
      var reply := match TryBlock(logKey, mlx, eval)
        case Ok(env) => env
        case Err(e) => ConvertReply(JNull, ErrorText(e));
      Run([GetCode(ipynb, mlx)], [reply], None)
  }

  /**
   * `execute` as written: the log line reads the key 'response_str', so a
   * MATLAB error reply without that key is answered with the KeyError's text.
   */
  function Execute(data: Json, expand: string -> string, eval: EvalReply): (run: Run)
    ensures RequestPaths(data, expand).Ok? ==> run.raised.None? && |run.sent| == 1
    ensures RequestPaths(data, expand).Ok? && eval.EvalReturned?
            && Index(eval.response, "isError").Ok? && PyTruthy(Index(eval.response, "isError").value)
            && "response_str" !in eval.response.fields ==>
      run.sent == [ConvertReply(JNull, JStr("'response_str'"))]
  {
    assert Str(KeyError("response_str")) == "'response_str'";
    ExecuteWith("response_str", data, expand, eval)
  }

  /**
   * `execute` corrected: the log line reads 'responseStr', the key the reply
   * uses, so a MATLAB error reply is answered with MATLAB's own text.
   */
  function ExecuteCorrected(data: Json, expand: string -> string, eval: EvalReply): (run: Run)
    ensures RequestPaths(data, expand).Ok? ==> run.raised.None? && |run.sent| == 1
    ensures RequestPaths(data, expand).Ok? && eval.EvalReturned?
            && Index(eval.response, "isError").Ok? && PyTruthy(Index(eval.response, "isError").value)
            && Index(eval.response, "responseStr").Ok? ==>
      run.sent == [ConvertReply(JNull, Index(eval.response, "responseStr").value)]
  {
    ExecuteWith("responseStr", data, expand, eval)
  }

  /** A convert request as the lab extension sends it. */
  function Request(ipynb: string, mlx: string): Json
  {
    JObj(map["action" := JStr("convert"), "data" := JObj(map["ipynbFilePath" := JStr(ipynb), "mlxFilePath" := JStr(mlx)])])
  }

  /**
   * The reply of a run that got past reading the paths, whichever key the log
   * line reads: success carries the expanded MLX path and no error; every
   * failure carries no path.
   */
  lemma {:induction false} ConvertReplyShapes(logKey: string, data: Json, expand: string -> string, eval: EvalReply)
    requires RequestPaths(data, expand).Ok?
    ensures var run := ExecuteWith(logKey, data, expand, eval);
      var mlx := RequestPaths(data, expand).value.1;
      var reply := run.sent[0];
      var succeeded := eval.EvalReturned? && Index(eval.response, "isError").Ok? && !PyTruthy(Index(eval.response, "isError").value);
      ((reply["error"] == JNull && reply["mlxFilePath"] == JStr(mlx)) <==> succeeded)
      && (reply["mlxFilePath"] == JNull <==> !succeeded)
  {
    var mlx := RequestPaths(data, expand).value.1;
    var reply := ExecuteWith(logKey, data, expand, eval).sent[0];
    match TryBlock(logKey, mlx, eval)
    case Ok(env) =>
      assert reply == env;
    case Err(e) =>
      assert reply == ConvertReply(JNull, ErrorText(e));
  }

  /**
   * As written, a MATLAB error reply that carries `responseStr` but no
   * `response_str` is answered with the text of the KeyError, "'response_str'",
   * instead of MATLAB's message.
   */
  lemma LogKeyMasksMatlabError(data: Json, expand: string -> string, response: Json)
    requires RequestPaths(data, expand).Ok?
    requires Index(response, "isError").Ok? && PyTruthy(Index(response, "isError").value)
    requires "responseStr" in response.fields && "response_str" !in response.fields
    ensures Execute(data, expand, EvalReturned(response)).sent == [ConvertReply(JNull, JStr("'response_str'"))]
  {
    assert Str(KeyError("response_str")) == "'response_str'";
  }

  /** The input that shows it: MATLAB's message "boom" never reaches the lab extension. */
  lemma LogKeyMasksMatlabErrorExample()
    ensures var response := JObj(map["isError" := JBool(true), "responseStr" := JStr("boom")]);
      Execute(Request("a.ipynb", "a.mlx"), s => s, EvalReturned(response)).sent
        == [ConvertReply(JNull, JStr("'response_str'"))]
  {
    var response := JObj(map["isError" := JBool(true), "responseStr" := JStr("boom")]);
    LogKeyMasksMatlabError(Request("a.ipynb", "a.mlx"), s => s, response);
  }

  /** Corrected, every MATLAB error reply is answered with MATLAB's own text. */
  lemma CorrectedReportsMatlabError(data: Json, expand: string -> string, response: Json)
    requires RequestPaths(data, expand).Ok?
    requires Index(response, "isError").Ok? && PyTruthy(Index(response, "isError").value)
    requires "responseStr" in response.fields
    ensures ExecuteCorrected(data, expand, EvalReturned(response)).sent
      == [ConvertReply(JNull, response.fields["responseStr"])]
  {
  }
}
