/**
 * `EditAction` (plugins/actions/editAction.ts): asks the kernel to open an
 * MLX file in MATLAB. Unlike the other classes it never clears its slot.
 */
module FrontEdit {
  import opened Common
  import opened Json
  import opened Slots
  import opened Comms
  import opened ActionTypes

  /** `sendEditRequest`: the message put on the channel, if any. */
  function EditRequest(path: Json, comm: Option<Channel>): (r: Option<Envelope>)
    ensures r.Some? <==> Live(comm) && JsTruthy(Some(path))
    ensures r.Some? ==> r.value.Keys == {"action", "data"} && Tag(r.value) == Some(LabValue(Edit))
    ensures r.Some? ==> Payload(r.value, "mlxFilePath") == Some(path)
  {
    if !Live(comm) || !JsTruthy(Some(path)) then None
    else Some(map["action" := JStr(LabValue(Edit)), "data" := JObj(map["mlxFilePath" := path])])
  }

  class EditAction {
    var promises: seq<SlotState>
    var current: Option<nat>
    var sent: seq<Envelope>

    ghost predicate Valid()
      reads this
    {
      WellFormed(promises, current)
    }

    constructor()
      ensures Valid() && promises == [] && current.None? && sent == []
    {
      promises := [];
      current := None;
      sent := [];
    }

    /**
     * `execute(data, comm)`: without an `mlxFilePath` key, nothing happens;
     * otherwise send first, then take or allocate the promise and, when
     * blocking, wait on it.
     */
    method Execute(data: Envelope, comm: Option<Channel>, blocking: bool) returns (caller: Caller)
      requires Valid()
      modifies this
      ensures Valid()
      ensures "mlxFilePath" !in data ==>
        caller == Returned && promises == old(promises) && current == old(current) && sent == old(sent)
      ensures "mlxFilePath" in data ==>
        var a := Allocate(old(promises), old(current));
        promises == a.0 && current == Some(a.1)
        && sent == old(sent) + ToSeq(EditRequest(data["mlxFilePath"], comm))
        && caller == Await(blocking, promises, a.1)
    {
      if "mlxFilePath" !in data {
        return Returned;
      }
      sent := sent + ToSeq(EditRequest(data["mlxFilePath"], comm));
      var a := Allocate(promises, current);
      promises, current := a.0, Some(a.1);
      caller := Await(blocking, promises, a.1);
    }

    /** `onMsg(data)`: settle the current promise by `{ reason }` or resolve it, and keep the slot. */
    method OnMsg(data: Envelope)
      requires Valid()
      modifies this
      ensures Valid() && current == old(current) && sent == old(sent)
      ensures old(current).None? ==> promises == old(promises)
      ensures old(current).Some? ==>
        var g := old(current).value;
        promises == old(promises)[g := Settle(old(promises)[g], ReasonVerdict(data))]
    {
      if current.Some? {
        var g := current.value;
        promises := promises[g := Settle(promises[g], ReasonVerdict(data))];
      }
    }
  }

  /**
   * The first reply decides every later blocking edit: after an error reply,
   * each new blocking `execute` throws that error at once, and a later success
   * reply changes nothing. Only one promise is ever allocated.
   */
  method FirstReplySticks() returns (second: Caller, third: Caller, promiseCount: nat)
    ensures second == Raised(ReasonObj(JStr("boom")))
    ensures third == second && promiseCount == 1
  {
    var live := Some(Channel("c", "matlab_comm_nb", false));
    var a := new EditAction();
    var first := a.Execute(map["mlxFilePath" := JStr("a.mlx")], live, true);
    a.OnMsg(map["action" := JStr("edit"), "error" := JStr("boom")]);
    second := a.Execute(map["mlxFilePath" := JStr("b.mlx")], live, true);
    a.OnMsg(map["action" := JStr("edit"), "error" := JNull]);
    third := a.Execute(map["mlxFilePath" := JStr("c.mlx")], live, true);
    promiseCount := |a.promises|;
  }
}
