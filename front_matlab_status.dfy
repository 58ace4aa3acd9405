/**
 * `MatlabStatusAction` (plugins/actions/matlabStatusAction.ts): asks the kernel
 * for matlab-proxy's status and caches the reply. It never rejects.
 */
module FrontMatlabStatus {
  import opened Common
  import opened Json
  import opened Slots
  import opened Comms

  /** `fetchMatlabStatus`: the message put on the channel, if any. */
  function StatusRequest(comm: Option<Channel>): (r: Option<Envelope>)
    ensures r.Some? <==> Live(comm)
    ensures r.Some? ==> r.value.Keys == {"action", "data"} && Tag(r.value) == Some("matlab_status")
    ensures r.Some? ==> r.value["data"] == JObj(map[])
  {
    if !Live(comm) then None
    else Some(map["action" := JStr("matlab_status"), "data" := JObj(map[])])
  }

  class MatlabStatusAction {
    var promises: seq<SlotState>
    var current: Option<nat>
    /** `MatlabStatusAction.status`; `None` is `undefined`. */
    var status: Option<Json>
    var sent: seq<Envelope>

    ghost predicate Valid()
      reads this
    {
      WellFormed(promises, current)
    }

    constructor()
      ensures Valid() && promises == [] && current.None? && sent == [] && status.None?
    {
      promises := [];
      current := None;
      status := None;
      sent := [];
    }

    /** `getStatus`: the last cached status. */
    function GetStatus(): Option<Json>
      reads this
    {
      status
    }

    /** `execute(data)`: take or allocate the promise, send if the channel is live, and, when blocking, wait. */
    method Execute(comm: Option<Channel>, blocking: bool) returns (caller: Caller)
      requires Valid()
      modifies this
      ensures Valid() && status == old(status)
      ensures var a := Allocate(old(promises), old(current));
        promises == a.0 && current == Some(a.1)
        && sent == old(sent) + ToSeq(StatusRequest(comm))
        && caller == Await(blocking, promises, a.1)
    {
      var a := Allocate(promises, current);
      promises, current := a.0, Some(a.1);
      sent := sent + ToSeq(StatusRequest(comm));
      caller := Await(blocking, promises, a.1);
    }

    /**
     * `onMsg(data)`: cache `data.matlabStatus` whatever the reply says, even when
     * it carries an error, then resolve and clear the slot.
     */
    method OnMsg(data: Envelope)
      requires Valid()
      modifies this
      ensures Valid() && current.None? && sent == old(sent)
      ensures status == Get(data, "matlabStatus")
      ensures old(current).None? ==> promises == old(promises)
      ensures old(current).Some? ==>
        var g := old(current).value;
        promises == old(promises)[g := Settle(old(promises)[g], Resolved)]
    {
      status := Get(data, "matlabStatus");
      if current.Some? {
        var g := current.value;
        promises := promises[g := Settle(promises[g], Resolved)];
        current := None;
      }
    }
  }

  /**
   * The kernel's failure reply `{ matlabStatus: {}, error }` still resolves the
   * blocking caller, and overwrites a cached "up" status with `{}`.
   */
  method ErrorReplyOverwritesStatus() returns (caller: Caller, cached: Option<Json>)
    ensures caller == Returned
    ensures cached == Some(JObj(map[]))
  {
    var live := Some(Channel("c", "matlab_comm_nb", false));
    var a := new MatlabStatusAction();
    var c0 := a.Execute(live, false);
    a.OnMsg(map["matlabStatus" := JObj(map["status" := JStr("up"), "isLicensed" := JBool(true)]), "error" := JNull]);
    var c := a.Execute(live, true);
    a.OnMsg(map["matlabStatus" := JObj(map[]), "error" := JStr("proxy down")]);
    caller := Resume(c, a.promises);
    cached := a.GetStatus();
  }

  /**
   * Two notebooks query the status at once: both wait on the same promise, and
   * the first reply, whichever notebook it answers, releases both of them.
   */
  method SharedSlotHazard(reply: Envelope) returns (one: Caller, two: Caller, cached: Option<Json>)
    ensures one == Returned && two == Returned
    ensures cached == Get(reply, "matlabStatus")
  {
    var nb1 := Some(Channel("c1", "matlab_comm_nb1", false));
    var nb2 := Some(Channel("c2", "matlab_comm_nb2", false));
    var a := new MatlabStatusAction();
    var c1 := a.Execute(nb1, true);
    var c2 := a.Execute(nb2, true);
    assert c1 == c2 == Suspended(0);
    a.OnMsg(reply);
    one := Resume(c1, a.promises);
    two := Resume(c2, a.promises);
    cached := a.GetStatus();
  }
}
