/**
 * The protocol end to end: what the lab extension puts on the channel is what
 * the kernel actions read, and what the kernel answers is what the lab
 * extension's `onMsg` and status checks make of it.
 */
module Protocol {
  import opened Common
  import opened Json
  import opened Slots
  import opened Comms
  import opened ActionTypes
  import opened MatlabUtils
  import opened Kernel
  import FrontConvert
  import FrontCheckFileExists
  import FrontEdit
  import FrontStartMatlabProxy
  import KernelConvert
  import KernelCheckFileExists
  import KernelEdit
  import KernelMatlabStatus
  import KernelStartMatlabProxy

  /** A convert request sent on a live channel reaches the kernel with both paths readable. */
  lemma ConvertRequestIsRead(ipynb: string, mlx: string, comm: Option<Channel>, expand: string -> string)
    requires Live(comm) && ipynb != ""
    ensures FrontConvert.ConvertRequest(JStr(ipynb), JStr(mlx), comm).Some?
    ensures KernelConvert.RequestPaths(JObj(FrontConvert.ConvertRequest(JStr(ipynb), JStr(mlx), comm).value), expand)
      == Ok((expand(ipynb), expand(mlx)))
  {
  }

  /**
   * Every convert reply names `mlxFilePath`, whichever key the kernel's log
   * line reads, so the lab extension resolves exactly when the reply's error
   * is falsy: a successful conversion always resolves, and a failure resolves
   * too when its error text is empty.
   */
  lemma {:induction false} ConvertReplyVerdict(logKey: string, data: Json, expand: string -> string, eval: EvalReply)
    requires KernelConvert.RequestPaths(data, expand).Ok?
    ensures var reply := KernelConvert.ExecuteWith(logKey, data, expand, eval).sent[0];
      (FrontConvert.Verdict(reply) == Resolved <==> !JsTruthy(Some(reply["error"])))
      && (reply["mlxFilePath"] != JNull ==> FrontConvert.Verdict(reply) == Resolved)
      && (JsTruthy(Some(reply["error"])) ==> FrontConvert.Verdict(reply) == Rejected(ErrorObj(reply["error"])))
  {
    KernelConvert.ConvertReplyShapes(logKey, data, expand, eval);
  }

  /**
   * As written, every MATLAB error reply that carries `responseStr` (and no
   * `response_str`) is rejected at the lab extension with the text of the
   * KeyError the log line raises, whatever MATLAB said, even when it said
   * nothing.
   */
  lemma MatlabErrorRejectedAsWritten(data: Json, expand: string -> string, response: Json)
    requires KernelConvert.RequestPaths(data, expand).Ok?
    requires Index(response, "isError").Ok? && PyTruthy(Index(response, "isError").value)
    requires "responseStr" in response.fields && "response_str" !in response.fields
    ensures var reply := KernelConvert.Execute(data, expand, EvalReturned(response)).sent[0];
      reply["mlxFilePath"] == JNull && FrontConvert.Verdict(reply) == Rejected(ErrorObj(JStr("'response_str'")))
  {
    KernelConvert.LogKeyMasksMatlabError(data, expand, response);
  }

  /**
   * Corrected, a MATLAB error whose `responseStr` is empty reaches the lab
   * extension as a successful conversion, because an empty error is falsy.
   */
  lemma EmptyMatlabErrorResolvesCorrected()
    ensures var response := JObj(map["isError" := JBool(true), "responseStr" := JStr("")]);
      var reply := KernelConvert.ExecuteCorrected(KernelConvert.Request("a.ipynb", "a.mlx"), s => s, EvalReturned(response)).sent[0];
      reply["mlxFilePath"] == JNull && FrontConvert.Verdict(reply) == Resolved
  {
    var response := JObj(map["isError" := JBool(true), "responseStr" := JStr("")]);
    KernelConvert.CorrectedReportsMatlabError(KernelConvert.Request("a.ipynb", "a.mlx"), s => s, response);
  }

  /** A check request for a non-empty path is answered without error and with the file system's verdict. */
  lemma CheckRequestIsAnswered(p: string, comm: Option<Channel>, expand: string -> string, fileExists: string -> bool)
    requires Live(comm) && p != ""
    ensures FrontCheckFileExists.CheckRequest(JStr(p), comm).Some?
    ensures var reply := KernelCheckFileExists.Execute(JObj(FrontCheckFileExists.CheckRequest(JStr(p), comm).value), expand, fileExists).sent;
      |reply| == 1 && !HasError(reply[0]) && Get(reply[0], "exists") == Some(JBool(fileExists(expand(p))))
  {
    var request := JObj(FrontCheckFileExists.CheckRequest(JStr(p), comm).value);
    assert Index(request, "data") == Ok(JObj(map["mlxFilePath" := JStr(p)]));
  }

  /**
   * The whole check on a fresh action: the lab extension sends the request,
   * the kernel answers it, and `onMsg` hands the answer back; the blocking
   * caller resumes and the cached answer is the file system's verdict.
   */
  method CheckFileExistsRoundTrip(p: string, comm: Option<Channel>, expand: string -> string, fileExists: string -> bool)
    returns (caller: Caller, cached: Option<Json>)
    requires Live(comm) && p != ""
    ensures caller == Returned && cached == Some(JBool(fileExists(expand(p))))
  {
    var action := new FrontCheckFileExists.CheckFileExistsAction();
    var waiting := action.Execute(map["mlxFilePath" := JStr(p)], comm, true);
    CheckRequestIsAnswered(p, comm, expand, fileExists);
    var request := action.sent[0];
    var run := KernelCheckFileExists.Execute(JObj(request), expand, fileExists);
    action.OnMsg(run.sent[0]);
    caller := Resume(waiting, action.promises);
    cached := action.GetFileExistsStatus();
  }

  /** An edit request sent on a live channel names the file the kernel opens. */
  lemma EditRequestIsRead(p: string, comm: Option<Channel>, expand: string -> string)
    requires Live(comm) && p != ""
    ensures FrontEdit.EditRequest(JStr(p), comm).Some?
    ensures KernelEdit.ReadTarget(JObj(FrontEdit.EditRequest(JStr(p), comm).value), expand) == KernelEdit.Opens(expand(p))
  {
    var request := JObj(FrontEdit.EditRequest(JStr(p), comm).value);
    assert Index(request, "data") == Ok(JObj(map["mlxFilePath" := JStr(p)]));
  }

  /**
   * The start reply rejects the lab extension's promise exactly when the
   * start was attempted and failed with a non-empty message.
   */
  method StartReplyVerdict(matlabAssigned: bool, start: Option<PyError>) returns (verdict: SlotState)
    ensures verdict == Resolved <==> matlabAssigned || start.None? || Str(start.value) == ""
    ensures !verdict.Resolved? ==> verdict == Rejected(ReasonObj(JStr(Str(start.value))))
  {
    var kernel := new KernelStartMatlabProxy.MatlabKernel(matlabAssigned);
    var run := KernelStartMatlabProxy.Execute(kernel, start);
    verdict := ReasonVerdict(run.sent[0]);
  }

  /**
   * A failed status fetch caches `{}`, on which neither wait condition holds
   * nor throws: the lab extension keeps polling. A fetched status of "up"
   * ends the wait for MATLAB to be up.
   */
  lemma {:induction false} StatusReplyDrivesPolling(fetch: KernelMatlabStatus.Fetch, cond: Condition)
    ensures var cached := Get(KernelMatlabStatus.Execute(fetch).sent[0], "matlabStatus");
      (fetch.FetchRaised? ==> CheckStatus(cached, cond) == Continue)
      && (fetch.Fetched? && fetch.status == JStr("up") ==> CheckStatus(cached, UntilUp) == Stop)
      && (fetch.Fetched? && JsTruthy(Some(fetch.isLicensed)) ==> CheckStatus(cached, UntilLicensed) == Stop)
  {
    var cached := Get(KernelMatlabStatus.Execute(fetch).sent[0], "matlabStatus");
    if fetch.FetchRaised? {
      assert cached == Some(JObj(map[]));
      assert Prop(cached, Key(cond)) == Some(None);
    } else {
      assert cached.value.fields["status"] == fetch.status && cached.value.fields["isLicensed"] == fetch.isLicensed;
    }
  }
}
