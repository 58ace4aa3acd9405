/**
 * `MatlabCommunicationExtension`: the lab extension's registry of comm
 * channels, one per MATLAB notebook panel, keyed by the panel's id. The
 * repository ships it twice, in matlabCommunication.ts and in
 * plugins/matlabCommunicationPlugin.ts; the two differ only in the set-up
 * step, so one class with a `variant` models both.
 */
module Comms {
  import opened Common
  import opened Notebooks

  /** The parts of an `ICommunicationChannel` the model reads. */
  datatype Channel = Channel(commId: string, targetName: string, isDisposed: bool)

  /** `comm && !comm.isDisposed`: there is a channel and it can still send. */
  predicate Live(comm: Option<Channel>)
  {
    comm.Some? && !comm.value.isDisposed
  }

  /**
   * Which copy of the class: matlabCommunication.ts waits for `open()` to
   * complete and names the channel after the panel; the plugin's copy opens in
   * the background and names the channel with a random suffix.
   */
  datatype Variant = AwaitsOpen | OpensInBackground

  const ChannelPrefix: string := "matlab_comm_"
  const NotFoundMessage: string := "No communication channel found for notebook ID: "

  /** The target name a new channel is created with. */
  function ChannelName(variant: Variant, panelId: string, randomSuffix: string): (name: string)
    ensures StartsWith(name, ChannelPrefix)
    ensures variant == AwaitsOpen ==> name[|ChannelPrefix|..] == panelId
    ensures variant == OpensInBackground ==> name[|ChannelPrefix|..] == randomSuffix
  {
    match variant
    case AwaitsOpen => ChannelPrefix + panelId
    case OpensInBackground => ChannelPrefix + randomSuffix
  }

  class MatlabCommunicationExtension {
    const variant: Variant
    /** `_comms`: notebook id to channel. */
    var comms: map<string, Channel>
    /** The comm ids of the channels closed through a panel's disposable, in order. */
    var closed: seq<string>

    constructor(v: Variant)
      ensures variant == v && comms == map[] && closed == []
    {
      variant := v;
      comms := map[];
      closed := [];
    }

    /**
     * The body `createNew` runs once the panel's session is ready. `kernel` says
     * whether the session has a kernel, `commId` is the id `createComm` gives
     * the new channel, `randomSuffix` stands for `Math.random().toString(36)`,
     * and `openSucceeds` for the outcome of `comm.open()`. Returns the channel
     * registered for the panel, if any.
     */
    method SetUp(panel: Panel, kernel: bool, commId: string, randomSuffix: string, openSucceeds: bool)
      returns (created: Option<Channel>)
      modifies this
      ensures closed == old(closed)
      ensures !kernel || panel.language != Some("matlab") ==> created.None? && comms == old(comms)
      ensures kernel && panel.language == Some("matlab") ==>
        var ch := Channel(commId, ChannelName(variant, panel.id, randomSuffix), false);
        if variant == OpensInBackground || openSucceeds
        then created == Some(ch) && comms == old(comms)[panel.id := ch]
        else created.None? && comms == old(comms)
    {
      created := None;
      if !kernel {
        return;
      }
      var info := new NotebookInfo();
      info.Update(Some(panel));
      if !info.IsMatlabNotebook() {
        return;
      }
      var ch := Channel(commId, ChannelName(variant, panel.id, randomSuffix), false);
      if variant == AwaitsOpen && !openSucceeds {
        return;
      }
      comms := comms[panel.id := ch];
      created := Some(ch);
    }

    /** The panel's `disposed` signal: forget that panel's channel, keep all others. */
    method PanelDisposed(panelId: string)
      modifies this
      ensures comms == old(comms) - {panelId}
      ensures closed == old(closed)
    {
      comms := comms - {panelId};
    }

    /** The `DisposableDelegate` `createNew` returns: close the panel's channel if any, then forget it. */
    method Dispose(panelId: string)
      modifies this
      ensures comms == old(comms) - {panelId}
      ensures closed == old(closed) + (if panelId in old(comms) then [old(comms)[panelId].commId] else [])
    {
      if panelId in comms {
        closed := closed + [comms[panelId].commId];
      }
      comms := comms - {panelId};
    }

    /** The channel registered for a notebook; throws when there is none. */
    function GetComm(notebookId: string): (r: Result<Channel, string>)
      reads this
      ensures r.Ok? <==> notebookId in comms
      ensures r.Ok? ==> r.value == comms[notebookId]
      ensures r.Err? ==> r.error == NotFoundMessage + notebookId
    {
      if notebookId in comms then Ok(comms[notebookId]) else Err(NotFoundMessage + notebookId)
    }

    /** `deleteComms`: forget every channel, without closing any. */
    method DeleteComms()
      modifies this
      ensures comms == map[] && closed == old(closed)
    {
      comms := map[];
    }
  }

  /** After a successful set-up, `getComm(panel.id)` is exactly the channel created for the panel. */
  method GetAfterSetUp(v: Variant, panel: Panel, commId: string, randomSuffix: string) returns (r: Result<Channel, string>)
    requires panel.language == Some("matlab")
    ensures r == Ok(Channel(commId, ChannelName(v, panel.id, randomSuffix), false))
    ensures r.value.targetName == ChannelPrefix + (if v == AwaitsOpen then panel.id else randomSuffix)
  {
    var ext := new MatlabCommunicationExtension(v);
    var created := ext.SetUp(panel, true, commId, randomSuffix, true);
    r := ext.GetComm(panel.id);
  }

  /**
   * A failed `open()` leaves the panel without a channel in the awaiting copy,
   * but the background copy registers it all the same.
   */
  method FailedOpen(panel: Panel, commId: string, randomSuffix: string)
    returns (awaiting: Result<Channel, string>, background: Result<Channel, string>)
    requires panel.language == Some("matlab")
    ensures awaiting == Err(NotFoundMessage + panel.id)
    ensures background.Ok? && background.value.commId == commId
  {
    var a := new MatlabCommunicationExtension(AwaitsOpen);
    var c1 := a.SetUp(panel, true, commId, randomSuffix, false);
    awaiting := a.GetComm(panel.id);
    var b := new MatlabCommunicationExtension(OpensInBackground);
    var c2 := b.SetUp(panel, true, commId, randomSuffix, false);
    background := b.GetComm(panel.id);
  }

  /** A notebook whose language is not "matlab" never gets a channel, in either copy. */
  method NonMatlabNotebookGetsNoComm(v: Variant, panel: Panel, commId: string, randomSuffix: string, openSucceeds: bool)
    returns (created: Option<Channel>, r: Result<Channel, string>)
    requires panel.language != Some("matlab")
    ensures created.None? && r == Err(NotFoundMessage + panel.id)
  {
    var ext := new MatlabCommunicationExtension(v);
    created := ext.SetUp(panel, true, commId, randomSuffix, openSucceeds);
    r := ext.GetComm(panel.id);
  }

  /**
   * Register two panels, then dispose of the first through its disposable:
   * its channel is closed and forgotten, the other one is untouched, and after
   * `deleteComms` neither id has a channel.
   */
  method DisposeOneThenDeleteAll(v: Variant, p: Panel, q: Panel, idP: string, idQ: string)
    returns (closedIds: seq<string>, afterDispose: Result<Channel, string>, other: Result<Channel, string>,
             afterDelete: Result<Channel, string>)
    requires p.language == Some("matlab") && q.language == Some("matlab") && p.id != q.id
    ensures closedIds == [idP]
    ensures afterDispose == Err(NotFoundMessage + p.id)
    ensures other.Ok? && other.value.commId == idQ
    ensures afterDelete == Err(NotFoundMessage + q.id)
  {
    var ext := new MatlabCommunicationExtension(v);
    var cp := ext.SetUp(p, true, idP, "r1", true);
    var cq := ext.SetUp(q, true, idQ, "r2", true);
    ext.Dispose(p.id);
    closedIds := ext.closed;
    afterDispose := ext.GetComm(p.id);
    other := ext.GetComm(q.id);
    ext.DeleteComms();
    afterDelete := ext.GetComm(q.id);
  }
}
