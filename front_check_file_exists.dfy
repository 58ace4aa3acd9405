/**
 * `CheckFileExistsAction` (plugins/actions/checkFileExistsAction.ts): asks the
 * kernel whether a file exists and caches the answer.
 */
module FrontCheckFileExists {
  import opened Common
  import opened Json
  import opened Slots
  import opened Comms
  import opened ActionTypes

  /** `sendCheckFileExistsRequest`: the message put on the channel, if any. */
  function CheckRequest(path: Json, comm: Option<Channel>): (r: Option<Envelope>)
    ensures r.Some? <==> Live(comm) && JsTruthy(Some(path))
    ensures r.Some? ==> r.value.Keys == {"action", "data"} && Tag(r.value) == Some(LabValue(CheckFileExists))
    ensures r.Some? ==> Payload(r.value, "mlxFilePath") == Some(path)
  {
    if !Live(comm) || !JsTruthy(Some(path)) then None
    else Some(map["action" := JStr(LabValue(CheckFileExists)), "data" := JObj(map["mlxFilePath" := path])])
  }

  class CheckFileExistsAction {
    var promises: seq<SlotState>
    var current: Option<nat>
    /** `CheckFileExistsAction.fileExists`; `None` once a reply without `exists` has been stored. */
    var fileExists: Option<Json>
    var sent: seq<Envelope>

    ghost predicate Valid()
      reads this
    {
      WellFormed(promises, current)
    }

    constructor()
      ensures Valid() && promises == [] && current.None? && sent == []
      ensures fileExists == Some(JBool(false))
    {
      promises := [];
      current := None;
      fileExists := Some(JBool(false));
      sent := [];
    }

    /** `getFileExistsStatus`: the last cached answer. */
    function GetFileExistsStatus(): Option<Json>
      reads this
    {
      fileExists
    }

    /**
     * `execute(data)`: without an `mlxFilePath` key, nothing happens; otherwise
     * take or allocate the promise, send the request if the channel allows it,
     * and, when blocking, wait on the promise even if nothing was sent.
     */
    method Execute(data: Envelope, comm: Option<Channel>, blocking: bool) returns (caller: Caller)
      requires Valid()
      modifies this
      ensures Valid() && fileExists == old(fileExists)
      ensures "mlxFilePath" !in data ==>
        caller == Returned && promises == old(promises) && current == old(current) && sent == old(sent)
      ensures "mlxFilePath" in data ==>
        var a := Allocate(old(promises), old(current));
        promises == a.0 && current == Some(a.1)
        && sent == old(sent) + ToSeq(CheckRequest(data["mlxFilePath"], comm))
        && caller == Await(blocking, promises, a.1)
      ensures "mlxFilePath" in data && blocking && old(current).None? ==> caller.Suspended?
    {
      if "mlxFilePath" !in data {
        return Returned;
      }
      var a := Allocate(promises, current);
      promises, current := a.0, Some(a.1);
      sent := sent + ToSeq(CheckRequest(data["mlxFilePath"], comm));
      caller := Await(blocking, promises, a.1);
    }

    /**
     * `onMsg(data)`: an error rejects with `{ reason }` and leaves the cache;
     * otherwise the cache takes `data.exists` and the promise resolves. Either
     * way the slot is cleared.
     */
    method OnMsg(data: Envelope)
      requires Valid()
      modifies this
      ensures Valid() && current.None? && sent == old(sent)
      ensures fileExists == if HasError(data) then old(fileExists) else Get(data, "exists")
      ensures old(current).None? ==> promises == old(promises)
      ensures old(current).Some? ==>
        var g := old(current).value;
        promises == old(promises)[g := Settle(old(promises)[g], ReasonVerdict(data))]
    {
      if HasError(data) {
        if current.Some? {
          var g := current.value;
          promises := promises[g := Settle(promises[g], ReasonVerdict(data))];
          current := None;
        }
        return;
      }
      fileExists := Get(data, "exists");
      if current.Some? {
        var g := current.value;
        promises := promises[g := Settle(promises[g], ReasonVerdict(data))];
        current := None;
      }
    }
  }

  /**
   * Request `{ mlxFilePath: "/a/b.mlx" }`, answered `{ exists: e }`: the blocking
   * caller resumes and the cached answer is `e`. A later error reply leaves it.
   */
  method RoundTrip(e: bool) returns (caller: Caller, cached: Option<Json>, afterError: Option<Json>)
    ensures caller == Returned
    ensures cached == Some(JBool(e)) && afterError == cached
  {
    var live := Some(Channel("c", "matlab_comm_nb", false));
    var a := new CheckFileExistsAction();
    var c := a.Execute(map["mlxFilePath" := JStr("/a/b.mlx")], live, true);
    a.OnMsg(map["action" := JStr("check_file_exists"), "exists" := JBool(e), "error" := JNull]);
    caller := Resume(c, a.promises);
    cached := a.GetFileExistsStatus();
    a.OnMsg(map["action" := JStr("check_file_exists"), "exists" := JBool(false), "error" := JStr("boom")]);
    afterError := a.GetFileExistsStatus();
  }

  /** With a disposed channel nothing is sent, and a blocking caller waits for a reply that is never asked for. */
  method DisposedChannelLeavesCallerWaiting() returns (caller: Caller, sentCount: nat)
    ensures caller == Suspended(0) && sentCount == 0
  {
    var a := new CheckFileExistsAction();
    caller := a.Execute(map["mlxFilePath" := JStr("/a/b.mlx")], Some(Channel("c", "matlab_comm_nb", true)), true);
    sentCount := |a.sent|;
  }
}
