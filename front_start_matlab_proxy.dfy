/**
 * `StartMatlabProxyAction` (plugins/actions/startMatlabProxyAction.ts): asks
 * the kernel to start matlab-proxy. It validates nothing.
 */
module FrontStartMatlabProxy {
  import opened Common
  import opened Json
  import opened Slots
  import opened Comms
  import opened ActionTypes

  /** `sendStartMatlabRequest`: the message put on the channel, if any. */
  function StartRequest(comm: Option<Channel>): (r: Option<Envelope>)
    ensures r.Some? <==> Live(comm)
    ensures r.Some? ==> r.value.Keys == {"action", "data"} && Tag(r.value) == Some(LabValue(StartMatlabProxy))
    ensures r.Some? ==> r.value["data"] == JObj(map[])
  {
    if !Live(comm) then None
    else Some(map["action" := JStr(LabValue(StartMatlabProxy)), "data" := JObj(map[])])
  }

  class StartMatlabProxyAction {
    var promises: seq<SlotState>
    var current: Option<nat>
    var sent: seq<Envelope>

    ghost predicate Valid()
      reads this
    {
      WellFormed(promises, current)
    }

    constructor()
      ensures Valid() && promises == [] && current.None? && sent == []
    {
      promises := [];
      current := None;
      sent := [];
    }

    /**
     * `execute(data, comm)`: take or allocate the promise, send if the channel
     * is live, and, when blocking, wait on the promise. `data` is only logged.
     */
    method Execute(comm: Option<Channel>, blocking: bool) returns (caller: Caller)
      requires Valid()
      modifies this
      ensures Valid()
      ensures var a := Allocate(old(promises), old(current));
        promises == a.0 && current == Some(a.1)
        && sent == old(sent) + ToSeq(StartRequest(comm))
        && caller == Await(blocking, promises, a.1)
    {
      var a := Allocate(promises, current);
      promises, current := a.0, Some(a.1);
      sent := sent + ToSeq(StartRequest(comm));
      caller := Await(blocking, promises, a.1);
    }

    /** `onMsg(data)`: reject with `{ reason }` or resolve the current promise, then clear the slot. */
    method OnMsg(data: Envelope)
      requires Valid()
      modifies this
      ensures Valid() && current.None? && sent == old(sent)
      ensures old(current).None? ==> promises == old(promises)
      ensures old(current).Some? ==>
        var g := old(current).value;
        promises == old(promises)[g := Settle(old(promises)[g], ReasonVerdict(data))]
    {
      if current.Some? {
        var g := current.value;
        promises := promises[g := Settle(promises[g], ReasonVerdict(data))];
        current := None;
      }
    }
  }

  /**
   * An error reply rejects the blocking caller and clears the slot, so the
   * next call gets a fresh promise and waits again.
   */
  method ErrorClearsSlot() returns (first: Caller, next: Caller)
    ensures first == Raised(ReasonObj(JStr("no license")))
    ensures next == Suspended(1)
  {
    var live := Some(Channel("c", "matlab_comm_nb", false));
    var a := new StartMatlabProxyAction();
    var c := a.Execute(live, true);
    a.OnMsg(map["action" := JStr("start_matlab_proxy"), "error" := JStr("no license")]);
    first := Resume(c, a.promises);
    next := a.Execute(live, true);
  }
}
