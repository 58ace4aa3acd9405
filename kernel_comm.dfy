/**
 * `LabExtensionCommunication` (communication.py): the kernel's one comm slot
 * for the lab extension, filled by `comm_open`, read by `comm_msg` and
 * emptied by a matching `comm_close`.
 */
module KernelComm {
  import opened Common
  import opened Json
  import opened Kernel

  /** The `Comm` the kernel keeps: its id and target name. */
  datatype Channel = Channel(commId: Json, targetName: Json)

  const NoChannelMessage := "No Communcation channel available"

  /**
   * The comm `comm_open` builds from `msg`. `Comm` keeps a truthy `comm_id`
   * and otherwise makes up an id of its own, `freshId`.
   */
  function OpenedChannel(msg: Json, freshId: string): (r: Result<Channel, PyError>)
    ensures r.Ok? <==>
      Index(msg, "content").Ok?
      && Index(msg.fields["content"], "comm_id").Ok?
      && Index(msg.fields["content"], "target_name").Ok?
    ensures r.Ok? ==>
      var commId := msg.fields["content"].fields["comm_id"];
      r.value.targetName == msg.fields["content"].fields["target_name"]
      && r.value.commId == (if PyTruthy(commId) then commId else JStr(freshId))
  {
    var content :- Index(msg, "content");
    var commId :- Index(content, "comm_id");
    var targetName :- Index(content, "target_name");
    Ok(Channel(if PyTruthy(commId) then commId else JStr(freshId), targetName))
  }

  /** The id a `comm_close` message names. */
  function ClosedId(msg: Json): (r: Result<Json, PyError>)
    ensures r.Ok? <==> Index(msg, "content").Ok? && Index(msg.fields["content"], "comm_id").Ok?
    ensures r.Ok? ==> r.value == msg.fields["content"].fields["comm_id"]
  {
    var content :- Index(msg, "content");
    Index(content, "comm_id")
  }

  class LabExtensionCommunication {
    var comm: Option<Channel>

    constructor()
      ensures comm.None?
    {
      comm := None;
    }

    /**
     * `comm_open`: replace the slot with the comm the message describes; a
     * message missing a field raises and leaves the slot as it was.
     */
    method CommOpen(msg: Json, freshId: string) returns (raised: Option<PyError>)
      modifies this
      ensures raised.None? <==> OpenedChannel(msg, freshId).Ok?
      ensures raised.None? ==> comm == Some(OpenedChannel(msg, freshId).value)
      ensures raised.Some? ==> comm == old(comm) && raised.value == OpenedChannel(msg, freshId).error
    {
      match OpenedChannel(msg, freshId)
      case Ok(channel) =>
        comm := Some(channel);
        raised := None;
      case Err(e) =>
        raised := Some(e);
    }

    /**
     * `comm_msg`: with no comm it raises "No Communcation channel available";
     * otherwise it reads the request's action tag and payload, which it only
     * logs. It changes nothing.
     */
    function CommMsg(msg: Json): (r: Result<(Json, Json), PyError>)
      reads this
      ensures comm.None? ==> r == Err(Exception(NoChannelMessage))
      ensures r.Ok? <==>
        comm.Some? && Index(msg, "content").Ok? && Index(msg.fields["content"], "data").Ok?
        && Index(msg.fields["content"].fields["data"], "action").Ok?
        && Index(msg.fields["content"].fields["data"], "data").Ok?
      ensures r.Ok? ==>
        r.value == (msg.fields["content"].fields["data"].fields["action"],
                    msg.fields["content"].fields["data"].fields["data"])
    {
      if comm.None? then Err(Exception(NoChannelMessage))
      else
        var content :- Index(msg, "content");
        var request :- Index(content, "data");
        var actionType :- Index(request, "action");
        var data :- Index(request, "data");
        Ok((actionType, data))
    }

    /**
     * `comm_close`: empty the slot when it holds the comm the message names;
     * an unknown id leaves it as it was.
     */
    method CommClose(msg: Json) returns (raised: Option<PyError>)
      modifies this
      ensures ClosedId(msg).Err? ==> raised == Some(ClosedId(msg).error) && comm == old(comm)
      ensures ClosedId(msg).Ok? ==> raised.None?
      ensures ClosedId(msg).Ok? ==>
        comm == (if old(comm).Some? && old(comm).value.commId == ClosedId(msg).value then None else old(comm))
    {
      match ClosedId(msg)
      case Err(e) =>
        raised := Some(e);
      case Ok(commId) =>
        raised := None;
        if comm.Some? && comm.value.commId == commId {
          comm := None;
        }
    }
  }

  /** A `comm_open` or `comm_close` message for the comm `id` and the target `target`. */
  function CommMessage(id: string, target: string): Json
  {
    JObj(map["content" := JObj(map["comm_id" := JStr(id), "target_name" := JStr(target)])])
  }

  /** A `comm_msg` message carrying `action` and `data`. */
  function RequestMessage(action: string, data: Json): Json
  {
    JObj(map["content" := JObj(map["data" := JObj(map["action" := JStr(action), "data" := data])])])
  }

  /**
   * One session: a request before `comm_open` raises; after it the request is
   * read; a close naming another comm keeps the slot; the matching close
   * empties it, and requests raise again.
   */
  method Session(id: string, other: string) returns (before: Result<(Json, Json), PyError>,
      during: Result<(Json, Json), PyError>, afterOther: bool, after: Result<(Json, Json), PyError>)
    requires id != "" && other != id
    ensures before == Err(Exception(NoChannelMessage)) && after == Err(Exception(NoChannelMessage))
    ensures during == Ok((JStr("edit"), JObj(map[])))
    ensures afterOther
  {
    var k := new LabExtensionCommunication();
    var request := RequestMessage("edit", JObj(map[]));
    before := k.CommMsg(request);
    var openError := k.CommOpen(CommMessage(id, "matlab_comm"), "fresh");
    during := k.CommMsg(request);
    var closed := k.CommClose(CommMessage(other, "matlab_comm"));
    afterOther := k.comm.Some?;
    closed := k.CommClose(CommMessage(id, "matlab_comm"));
    after := k.CommMsg(request);
  }
}
