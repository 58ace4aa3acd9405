/**
 * The pending-request slot every front-end action class keeps: a static
 * `blockingPromise` holding a `PromiseDelegate`, settled by a reply from the
 * kernel. Promises are numbered in the order they are allocated; a class's
 * state is the list of all its promises plus the number of the one its static
 * field currently refers to.
 */
module Slots {
  import opened Common
  import opened Json

  /** What a promise is rejected with: `new Error(message)` or a plain `{ reason }` object. */
  datatype Reason = ErrorObj(message: Json) | ReasonObj(reason: Json)

  /** The state of one `PromiseDelegate`'s promise. */
  datatype SlotState = Pending | Resolved | Rejected(why: Reason)

  /**
   * `resolve`/`reject` on a delegate: only the first settlement takes effect,
   * later ones are ignored.
   */
  function Settle(s: SlotState, verdict: SlotState): (r: SlotState)
    requires !verdict.Pending?
    ensures !r.Pending?
    ensures s.Pending? || r == s
  {
    if s.Pending? then verdict else s
  }

  /** The first verdict sticks: settling twice is settling once. */
  lemma SettleFirstWins(s: SlotState, v1: SlotState, v2: SlotState)
    requires !v1.Pending? && !v2.Pending?
    ensures Settle(Settle(s, v1), v2) == Settle(s, v1)
  {
  }

  /**
   * Where a call to `execute` stands once it has done its synchronous work:
   * it has returned, it waits on promise number `on`, or its `await` threw.
   */
  datatype Caller = Returned | Suspended(on: nat) | Raised(why: Reason)

  /**
   * `if (this.blocking) await blockingPromise.promise`: a non-blocking call
   * returns straight away; a blocking one waits on promise `g`, returns once it
   * is resolved and throws its reason once it is rejected.
   */
  function Await(blocking: bool, promises: seq<SlotState>, g: nat): (c: Caller)
    requires g < |promises|
    ensures !blocking ==> c == Returned
    ensures blocking ==> (c.Suspended? <==> promises[g].Pending?)
    ensures blocking && c.Suspended? ==> c.on == g
    ensures blocking && promises[g].Rejected? ==> c == Raised(promises[g].why)
  {
    if !blocking then Returned
    else match promises[g]
      case Pending => Suspended(g)
      case Resolved => Returned
      case Rejected(why) => Raised(why)
  }

  /** A caller that waited on promise `g` resumes once that promise is settled. */
  function Resume(c: Caller, promises: seq<SlotState>): (r: Caller)
    requires c.Suspended? ==> c.on < |promises|
    ensures !c.Suspended? ==> r == c
    ensures c.Suspended? && promises[c.on].Pending? ==> r == c
  {
    if c.Suspended? then Await(true, promises, c.on) else c
  }

  /** `'error' in data && data.error`: the reply carries a truthy error. */
  predicate HasError(data: Envelope)
  {
    JsTruthy(Get(data, "error"))
  }

  /** The verdict of the classes that reject with `{ reason: data.error }` and otherwise resolve. */
  function ReasonVerdict(data: Envelope): (v: SlotState)
    ensures !v.Pending?
    ensures v.Rejected? <==> HasError(data)
    ensures v.Rejected? ==> v.why == ReasonObj(data["error"])
  {
    if HasError(data) then Rejected(ReasonObj(data["error"])) else Resolved
  }

  /** The slot table's shape: the static field refers to the newest promise, if to any. */
  predicate WellFormed(promises: seq<SlotState>, current: Option<nat>)
  {
    current.Some? ==> current.value == |promises| - 1
  }

  /**
   * `if (!blockingPromise) blockingPromise = new PromiseDelegate()`: the promise a
   * call waits on is the current one, or a fresh pending one when there is none.
   */
  function Allocate(promises: seq<SlotState>, current: Option<nat>): (r: (seq<SlotState>, nat))
    requires WellFormed(promises, current)
    ensures r.1 < |r.0| && WellFormed(r.0, Some(r.1))
    ensures current.Some? ==> r.0 == promises && r.1 == current.value
    ensures current.None? ==> r.0 == promises + [Pending] && r.0[r.1].Pending?
  {
    if current.Some? then (promises, current.value) else (promises + [Pending], |promises|)
  }
}
