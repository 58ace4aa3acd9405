/**
 * `ConvertAction` (plugins/actions/convertAction.ts): asks the kernel to
 * convert a notebook to an MLX file, with a 50 s timer that rejects the
 * pending promise.
 */
module FrontConvert {
  import opened Common
  import opened Json
  import opened Slots
  import opened Comms

  const TimeoutMs: nat := 50000
  const TimedOut: Reason := ReasonObj(JStr("Conversion process timed out"))
  const MissingMlxPath: Reason := ErrorObj(JStr("Did not receive mlxFilePath in data from kernel"))

  /** `execute`'s guard: the data is tagged 'convert' and names both paths. */
  predicate IsConvertRequest(data: Envelope)
  {
    Get(data, "action") == Some(JStr("convert")) && "ipynbFilePath" in data && "mlxFilePath" in data
  }

  /** `sendConvertRequest`: the message put on the channel, if any. */
  function ConvertRequest(ipynb: Json, mlx: Json, comm: Option<Channel>): (r: Option<Envelope>)
    ensures r.Some? <==> Live(comm) && JsTruthy(Some(ipynb))
    ensures r.Some? ==> r.value.Keys == {"action", "data"} && Tag(r.value) == Some("convert")
    ensures r.Some? ==> Payload(r.value, "ipynbFilePath") == Some(ipynb) && Payload(r.value, "mlxFilePath") == Some(mlx)
  {
    if !Live(comm) || !JsTruthy(Some(ipynb)) then None
    else Some(map["action" := JStr("convert"), "data" := JObj(map["ipynbFilePath" := ipynb, "mlxFilePath" := mlx])])
  }

  /**
   * How `onMsg` settles the pending promise: a truthy error rejects with that
   * error, a reply naming `mlxFilePath` resolves, anything else rejects.
   */
  function Verdict(data: Envelope): (v: SlotState)
    ensures !v.Pending?
    ensures v == Resolved <==> !HasError(data) && "mlxFilePath" in data
    ensures HasError(data) ==> v == Rejected(ErrorObj(data["error"]))
    ensures !HasError(data) && "mlxFilePath" !in data ==> v == Rejected(MissingMlxPath)
  {
    if HasError(data) then Rejected(ErrorObj(data["error"]))
    else if "mlxFilePath" in data then Resolved
    else Rejected(MissingMlxPath)
  }

  /** A 50 s timer armed by `execute`, with the promise that was pending when it was armed. */
  datatype Timer = Timer(promise: nat, fired: bool)

  class ConvertAction {
    /** Every `PromiseDelegate` allocated so far, in order. */
    var promises: seq<SlotState>
    /** `ConvertAction.blockingPromise`: the number of the promise it refers to. */
    var current: Option<nat>
    var timers: seq<Timer>
    var sent: seq<Envelope>

    ghost predicate Valid()
      reads this
    {
      WellFormed(promises, current)
      && forall k :: 0 <= k < |timers| ==> timers[k].promise < |promises|
    }

    constructor()
      ensures Valid() && promises == [] && current.None? && timers == [] && sent == []
    {
      promises := [];
      current := None;
      timers := [];
      sent := [];
    }

    /**
     * `execute(data, comm)`: ignore malformed data; otherwise take the current
     * promise or allocate one, send the request, arm a timer for that promise,
     * and, when blocking, wait on it.
     */
    method Execute(data: Envelope, comm: Option<Channel>, blocking: bool) returns (caller: Caller)
      requires Valid()
      modifies this
      ensures Valid()
      ensures !IsConvertRequest(data) ==>
        caller == Returned && promises == old(promises) && current == old(current)
        && timers == old(timers) && sent == old(sent)
      ensures IsConvertRequest(data) ==>
        var a := Allocate(old(promises), old(current));
        promises == a.0 && current == Some(a.1)
        && sent == old(sent) + ToSeq(ConvertRequest(data["ipynbFilePath"], data["mlxFilePath"], comm))
        && timers == old(timers) + [Timer(a.1, false)]
        && caller == Await(blocking, promises, a.1)
    {
      if !IsConvertRequest(data) {
        return Returned;
      }
      var a := Allocate(promises, current);
      promises, current := a.0, Some(a.1);
      sent := sent + ToSeq(ConvertRequest(data["ipynbFilePath"], data["mlxFilePath"], comm));
      timers := timers + [Timer(a.1, false)];
      caller := Await(blocking, promises, a.1);
    }

    /** `onMsg(data)`: settle the current promise, if any, by `Verdict`, and clear the slot. */
    method OnMsg(data: Envelope)
      requires Valid()
      modifies this
      ensures Valid()
      ensures current.None? && timers == old(timers) && sent == old(sent)
      ensures old(current).None? ==> promises == old(promises)
      ensures old(current).Some? ==>
        var g := old(current).value;
        promises == old(promises)[g := Settle(old(promises)[g], Verdict(data))]
    {
      if current.Some? {
        var g := current.value;
        promises := promises[g := Settle(promises[g], Verdict(data))];
        current := None;
      }
    }

    /**
     * Timer `k` fires, as written: it rejects whatever promise the static field
     * refers to at that moment, and leaves the field set.
     */
    method Timeout(k: nat)
      requires Valid() && k < |timers| && !timers[k].fired
      modifies this
      ensures Valid()
      ensures timers == old(timers)[k := Timer(old(timers)[k].promise, true)]
      ensures current == old(current) && sent == old(sent)
      ensures old(current).None? ==> promises == old(promises)
      ensures old(current).Some? ==>
        var g := old(current).value;
        promises == old(promises)[g := Settle(old(promises)[g], Rejected(TimedOut))]
    {
      timers := timers[k := Timer(timers[k].promise, true)];
      if current.Some? {
        var g := current.value;
        promises := promises[g := Settle(promises[g], Rejected(TimedOut))];
      }
    }

    /**
     * Timer `k` fires, corrected: it rejects only the promise it was armed for
     * (a no-op once that promise is settled), and clears the slot only if that
     * promise is still the current one.
     */
    method TimeoutOwn(k: nat)
      requires Valid() && k < |timers| && !timers[k].fired
      modifies this
      ensures Valid()
      ensures timers == old(timers)[k := Timer(old(timers)[k].promise, true)]
      ensures sent == old(sent)
      ensures var p := old(timers)[k].promise;
        promises == old(promises)[p := Settle(old(promises)[p], Rejected(TimedOut))]
        && current == (if old(current) == Some(p) then None else old(current))
    {
      var p := timers[k].promise;
      timers := timers[k := Timer(p, true)];
      promises := promises[p := Settle(promises[p], Rejected(TimedOut))];
      if current == Some(p) {
        current := None;
      }
    }
  }

  /** The request the Nudge workflow sends, on a live channel. */
  function SampleRequest(): Envelope
  {
    map["action" := JStr("convert"), "ipynbFilePath" := JStr("a.ipynb"), "mlxFilePath" := JStr("a.mlx")]
  }

  /** The kernel's success reply. */
  function SuccessReply(): Envelope
  {
    map["action" := JStr("convert"), "mlxFilePath" := JStr("a.mlx"), "error" := JNull]
  }

  /**
   * A non-blocking conversion times out; the slot keeps the rejected promise,
   * so the next blocking conversion reuses it and throws at once, before any
   * reply can arrive.
   */
  method TimedOutSlotIsReused() returns (caller: Caller, promiseCount: nat)
    ensures caller == Raised(TimedOut) && promiseCount == 1
  {
    var live := Some(Channel("c", "matlab_comm_nb", false));
    var a := new ConvertAction();
    var first := a.Execute(SampleRequest(), live, false);
    a.Timeout(0);
    caller := a.Execute(SampleRequest(), live, true);
    promiseCount := |a.promises|;
  }

  /**
   * As written: a first conversion succeeds, a second one starts, and the
   * first conversion's timer then fires and rejects the second one.
   */
  method StaleTimerRejectsNewerRequest() returns (first: Caller, second: Caller)
    ensures first == Returned
    ensures second == Raised(TimedOut)
  {
    var live := Some(Channel("c", "matlab_comm_nb", false));
    var a := new ConvertAction();
    var c1 := a.Execute(SampleRequest(), live, true);
    a.OnMsg(SuccessReply());
    var c2 := a.Execute(SampleRequest(), live, true);
    a.Timeout(0);
    first := Resume(c1, a.promises);
    second := Resume(c2, a.promises);
  }

  /**
   * Corrected: the same events leave the second conversion waiting; only its
   * own timer rejects it.
   */
  method OwnTimerSparesNewerRequest() returns (first: Caller, second: Caller, later: Caller)
    ensures first == Returned
    ensures second == Suspended(1)
    ensures later == Raised(TimedOut)
  {
    var live := Some(Channel("c", "matlab_comm_nb", false));
    var a := new ConvertAction();
    var c1 := a.Execute(SampleRequest(), live, true);
    a.OnMsg(SuccessReply());
    var c2 := a.Execute(SampleRequest(), live, true);
    a.TimeoutOwn(0);
    first := Resume(c1, a.promises);
    second := Resume(c2, a.promises);
    a.TimeoutOwn(1);
    later := Resume(c2, a.promises);
  }

  /** A reply that arrives before the timer fires resolves the caller; the timer then finds no slot. */
  method ReplyBeforeTimeout() returns (caller: Caller, slotAfterTimer: Option<nat>)
    ensures caller == Returned && slotAfterTimer.None?
  {
    var live := Some(Channel("c", "matlab_comm_nb", false));
    var a := new ConvertAction();
    var c := a.Execute(SampleRequest(), live, true);
    a.OnMsg(SuccessReply());
    a.Timeout(0);
    caller := Resume(c, a.promises);
    slotAfterTimer := a.current;
  }
}
