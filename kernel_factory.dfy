/**
 * `ActionFactory.create_action` on the kernel side
 * (actions/action_factory.py) and the only action it returns,
 * `UnknownAction` (actions/unknown_action.py).
 */
module KernelFactory {
  import opened Common
  import opened Json
  import opened ActionTypes
  import opened Kernel

  /** The actions the factory can return: only `UnknownAction`. */
  datatype KernelAction = UnknownAction

  /** The error of reading `ActionTypes.DUMMY`, which the enum does not define. */
  const NoDummyMessage := "type object 'ActionTypes' has no attribute 'DUMMY'"
  const DummyCallMessage := "Not supposed to call dummy action"
  const UnknownMessage := "Unknown action"

  /**
   * `create_action(action_type, kernel)` for an enum whose DUMMY member has
   * the value `dummy` (`None`: no such member). The DUMMY tag raises; every
   * other tag gets `UnknownAction`.
   */
  function CreateActionWith(actionType: string, dummy: Option<string>): (r: Result<KernelAction, PyError>)
    ensures dummy.None? ==> r == Err(AttributeError(NoDummyMessage))
    ensures dummy.Some? ==> (r.Err? <==> actionType == dummy.value)
    ensures dummy.Some? && r.Err? ==> r.error == TypeError(DummyCallMessage)
    ensures r.Ok? ==> r.value == UnknownAction
  {
    match dummy
    case None => Err(AttributeError(NoDummyMessage))
    case Some(v) => if v == actionType then Err(TypeError(DummyCallMessage)) else Ok(UnknownAction)
  }

  /** `ActionTypes.DUMMY.value` in the enum as shipped. */
  function DummyValue(): Option<string>
  {
    match MemberNamed("DUMMY")
    case None => None
    case Some(t) => Some(KernelValue(t))
  }

  /** `create_action` as shipped: every tag, the six real ones included, raises AttributeError. */
  function CreateAction(actionType: string): (r: Result<KernelAction, PyError>)
    ensures r == Err(AttributeError(NoDummyMessage))
  {
    NoDummyNoNudge();
    CreateActionWith(actionType, DummyValue())
  }

  /** `execute(comm, data)` of a created action: nothing is evaluated or sent, and "Unknown action" is raised. */
  function ExecuteAction(a: KernelAction, data: Json): (run: Run)
    ensures run.evals == [] && run.sent == [] && run.raised == Some(Exception(UnknownMessage))
  {
    match a
    case UnknownAction => Run([], [], Some(Exception(UnknownMessage)))
  }

  /**
   * Were DUMMY defined with a value other than the six tags, every real tag,
   * "convert" and "edit" among them, would still reach no handler: the
   * request raises "Unknown action" and no reply is sent.
   */
  lemma NoTagIsHandled(t: ActionType, dummy: string, data: Json)
    requires dummy != KernelValue(t)
    ensures CreateActionWith(KernelValue(t), Some(dummy)) == Ok(UnknownAction)
    ensures ExecuteAction(CreateActionWith(KernelValue(t), Some(dummy)).value, data).sent == []
  {
  }
}
