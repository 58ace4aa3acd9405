/**
 * utils/matlab.ts: the MATLAB URL, the two status-polling loops and the
 * licensing step that wraps one of them in a sign-in popup.
 *
 * A loop reads the cached status after each blocking status query; the model
 * takes the sequence of those cached values as input. Once the sequence is
 * used up, the next query is never answered.
 */
module MatlabUtils {
  import opened Common
  import opened Json
  import opened ActionTypes

  /** `getMatlabUrl`: the MATLAB page under the lab's base URL. */
  function GetMatlabUrl(baseUrl: string): (url: string)
    ensures StartsWith(url, baseUrl) && url[|baseUrl|..] == "matlab/default/index.html"
  {
    baseUrl + "matlab/default/index.html"
  }

  /** What a loop waits for: `status.status === 'up'` or a truthy `status.isLicensed`. */
  datatype Condition = UntilUp | UntilLicensed

  /** An exception thrown on the front end: by the action factory, or by reading a property of `undefined`/`null`. */
  datatype Thrown = FactoryError(message: string) | PropertyOfNothing(key: string)

  datatype Check = Continue | Stop | Throw(e: Thrown)

  /** The status property a condition reads. */
  function Key(cond: Condition): string
  {
    match cond
    case UntilUp => "status"
    case UntilLicensed => "isLicensed"
  }

  /** The test one loop iteration applies to the cached status. */
  function CheckStatus(status: Option<Json>, cond: Condition): (c: Check)
    ensures c.Throw? <==> Prop(status, Key(cond)).None?
    ensures c.Throw? ==> c.e == PropertyOfNothing(Key(cond))
    ensures cond == UntilUp && !c.Throw? ==> (c == Stop <==> Prop(status, "status").value == Some(JStr("up")))
    ensures cond == UntilLicensed && !c.Throw? ==> (c == Stop <==> JsTruthy(Prop(status, "isLicensed").value))
  {
    match Prop(status, Key(cond))
    case None => Throw(PropertyOfNothing(Key(cond)))
    case Some(v) =>
      var stop := match cond
        case UntilUp => v == Some(JStr("up"))
        case UntilLicensed => JsTruthy(v);
      if stop then Stop else Continue
  }

  /** The index of the first cached status on which a loop stops or throws. */
  function FirstDecisive(statuses: seq<Option<Json>>, cond: Condition): (r: Option<nat>)
    ensures r.Some? ==> r.value < |statuses| && CheckStatus(statuses[r.value], cond) != Continue
    ensures r.Some? ==> forall k :: 0 <= k < r.value ==> CheckStatus(statuses[k], cond) == Continue
    ensures r.None? ==> forall k :: 0 <= k < |statuses| ==> CheckStatus(statuses[k], cond) == Continue
  {
    if |statuses| == 0 then None
    else if CheckStatus(statuses[0], cond) != Continue then Some(0)
    else match FirstDecisive(statuses[1..], cond)
      case None => None
      case Some(k) => Some(k + 1)
  }

  /** How a polling loop ends: the condition holds, something threw, or it is still waiting. */
  datatype Poll = Reached | Threw(e: Thrown) | StillWaiting

  /**
   * `waitForMatlabToStart` / `waitForMatlabToFinishLicensing`. `factory` is what
   * `createAction(MATLAB_STATUS, true)` returned. The loop queries, checks the
   * cached status, and sleeps before the next query; it has no bound on the
   * number of queries. `resolutions` counts how often its notification
   * promise is resolved.
   */
  method PollStatus(statuses: seq<Option<Json>>, cond: Condition, factory: Result<ActionType, string>)
    returns (outcome: Poll, queries: nat, sleeps: nat, resolutions: nat)
    ensures factory.Err? ==> outcome == Threw(FactoryError(factory.error)) && queries == 0 && sleeps == 0
    ensures factory.Ok? && FirstDecisive(statuses, cond).None? ==>
      outcome == StillWaiting && queries == |statuses| + 1 && sleeps == |statuses|
    ensures factory.Ok? && FirstDecisive(statuses, cond).Some? ==>
      var k := FirstDecisive(statuses, cond).value;
      queries == k + 1 && sleeps == k
      && outcome == (if CheckStatus(statuses[k], cond) == Stop then Reached else Threw(CheckStatus(statuses[k], cond).e))
    ensures resolutions == (if outcome == Reached then 1 else 0)
  {
    if factory.Err? {
      return Threw(FactoryError(factory.error)), 0, 0, 0;
    }
    var i := 0;
    sleeps := 0;
    while i < |statuses|
      invariant 0 <= i <= |statuses| && sleeps == i
      invariant forall k :: 0 <= k < i ==> CheckStatus(statuses[k], cond) == Continue
    {
      var c := CheckStatus(statuses[i], cond);
      if c == Stop {
        return Reached, i + 1, sleeps, 1;
      } else if c.Throw? {
        return Threw(c.e), i + 1, sleeps, 0;
      }
      sleeps := sleeps + 1;
      i := i + 1;
    }
    return StillWaiting, |statuses| + 1, sleeps, 0;
  }

  /** The popup calls of `PopupWindowManager`. */
  datatype UiEvent = OpenPopup(url: string, title: string, width: nat, height: nat) | ClosePopup

  /**
   * `handleMatlabLicensing(url)`: open the sign-in popup, wait for licensing,
   * and close the popup only once the wait has returned.
   */
  method HandleMatlabLicensing(url: string, statuses: seq<Option<Json>>, factory: Result<ActionType, string>)
    returns (events: seq<UiEvent>, outcome: Poll, queries: nat)
    ensures events == [OpenPopup(url, "MATLAB Sign In", 700, 600)] + (if outcome == Reached then [ClosePopup] else [])
    ensures factory.Err? ==> outcome == Threw(FactoryError(factory.error)) && queries == 0
    ensures factory.Ok? ==>
      (outcome == Reached <==> exists k :: FirstDecisive(statuses, UntilLicensed) == Some(k) && CheckStatus(statuses[k], UntilLicensed) == Stop)
    ensures outcome == Reached ==> 1 <= queries <= |statuses| && CheckStatus(statuses[queries - 1], UntilLicensed) == Stop
  {
    events := [OpenPopup(url, "MATLAB Sign In", 700, 600)];
    var sleeps, resolutions;
    outcome, queries, sleeps, resolutions := PollStatus(statuses, UntilLicensed, factory);
    if outcome == Reached {
      events := events + [ClosePopup];
    }
  }

  /** A first status of "starting" and a second of "up": two queries, one sleep in between. */
  method StartingThenUp() returns (outcome: Poll, queries: nat, sleeps: nat)
    ensures outcome == Reached && queries == 2 && sleeps == 1
  {
    var starting := Some(JObj(map["status" := JStr("starting"), "isLicensed" := JBool(true)]));
    var up := Some(JObj(map["status" := JStr("up"), "isLicensed" := JBool(true)]));
    assert JStr("starting") != JStr("up") by {
      assert "starting"[0] != "up"[0];
    }
    assert CheckStatus(starting, UntilUp) == Continue;
    assert FirstDecisive([starting, up], UntilUp) == Some(1) by {
      assert [starting, up][1..] == [up];
    }
    var resolutions;
    outcome, queries, sleeps, resolutions := PollStatus([starting, up], UntilUp, Ok(MatlabStatus));
  }
}
