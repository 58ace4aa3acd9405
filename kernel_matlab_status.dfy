/**
 * `MatlabStatusAction` on the kernel side (actions/matlab_status_action.py):
 * fetch matlab-proxy's status and answer with one "matlab_status" reply.
 */
module KernelMatlabStatus {
  import opened Common
  import opened Json
  import opened ActionTypes
  import opened Kernel

  /** What `fetch_matlab_proxy_status()` does: raise, or return the licensing flag and the status. */
  datatype Fetch = Fetched(isLicensed: Json, status: Json) | FetchRaised(e: PyError)

  /** A "matlab_status" reply. */
  function StatusReply(matlabStatus: Json, error: Json): Envelope
  {
    Reply(KernelValue(MatlabStatus), map["matlabStatus" := matlabStatus], error)
  }

  /**
   * `execute(comm, data)`: one reply, whatever happens. On success it carries
   * the fetched flag and status and no error; on failure an empty status
   * object and `str(err)`. The request's payload is not read.
   */
  function Execute(fetch: Fetch): (run: Run)
    ensures run.evals == [] && run.raised.None? && |run.sent| == 1
    ensures Tag(run.sent[0]) == Some("matlab_status") && run.sent[0].Keys == {"action", "matlabStatus", "error"}
    ensures run.sent[0]["matlabStatus"].JObj?
    ensures fetch.Fetched? <==> "status" in run.sent[0]["matlabStatus"].fields
    ensures fetch.Fetched? ==>
      run.sent[0]["matlabStatus"].fields == map["isLicensed" := fetch.isLicensed, "status" := fetch.status]
      && run.sent[0]["error"] == JNull
    ensures fetch.FetchRaised? ==> run.sent[0]["matlabStatus"] == JObj(map[]) && run.sent[0]["error"] == JStr(Str(fetch.e))
  {
    match fetch
    case Fetched(isLicensed, status) =>
      Run([], [StatusReply(JObj(map["isLicensed" := isLicensed, "status" := status]), JNull)], None)
    case FetchRaised(e) =>
      Run([], [StatusReply(JObj(map[]), ErrorText(e))], None)
  }
}
