/**
 * `ActionFactory.createAction` (plugins/actions/actionFactory.ts): a `switch`
 * on the tag whose only labelled case is `ActionTypes.DUMMY`.
 */
module FrontFactory {
  import opened Common
  import opened ActionTypes

  /**
   * The `switch`, given the value its `case ActionTypes.DUMMY` label evaluates
   * to (`None` is `undefined`, which no string equals). Both arms throw; the
   * `blocking` flag is never read.
   */
  function CreateActionWith(actionType: string, blocking: bool, dummyLabel: Option<string>): (r: Result<ActionType, string>)
    ensures r.Err?
    ensures dummyLabel == Some(actionType) ==> r.error == "Dummy action should not be called"
    ensures dummyLabel != Some(actionType) ==> r.error == "Unknown action type: " + actionType
  {
    if dummyLabel == Some(actionType) then Err("Dummy action should not be called")
    else Err("Unknown action type: " + actionType)
  }

  /** The label `ActionTypes.DUMMY` evaluates to. */
  function DummyLabel(): Option<string>
  {
    match MemberNamed("DUMMY")
    case None => None
    case Some(t) => Some(LabValue(t))
  }

  /**
   * `createAction(actionType, blocking)` as shipped: every tag, the enum's own
   * six included, throws "Unknown action type: <tag>", whatever `blocking` is.
   */
  function CreateAction(actionType: string, blocking: bool): (r: Result<ActionType, string>)
    ensures r == Err("Unknown action type: " + actionType)
  {
    NoDummyNoNudge();
    CreateActionWith(actionType, blocking, DummyLabel())
  }
}
