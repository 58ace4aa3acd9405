/**
 * The action tags: the lab extension's `ActionTypes` enum and the kernel's
 * `ActionTypes` enum, which name the same six kinds with the same strings.
 */
module ActionTypes {
  import opened Common

  datatype ActionType = Convert | Edit | MatlabStatus | StartMatlabProxy | CheckFileExists | Unknown

  /** Every member, in declaration order. */
  const All: seq<ActionType> := [Convert, Edit, MatlabStatus, StartMatlabProxy, CheckFileExists, Unknown]

  /** The lab extension's string for each member. */
  function LabValue(t: ActionType): string
  {
    match t
    case Convert => "convert"
    case Edit => "edit"
    case MatlabStatus => "matlab_status"
    case StartMatlabProxy => "start_matlab_proxy"
    case CheckFileExists => "check_file_exists"
    case Unknown => "unknown"
  }

  /** The kernel's `.value` for each member. */
  function KernelValue(t: ActionType): string
  {
    match t
    case Convert => "convert"
    case Edit => "edit"
    case MatlabStatus => "matlab_status"
    case StartMatlabProxy => "start_matlab_proxy"
    case CheckFileExists => "check_file_exists"
    case Unknown => "unknown"
  }

  /** The member's identifier, shared by both enums. */
  function Name(t: ActionType): string
  {
    match t
    case Convert => "CONVERT"
    case Edit => "EDIT"
    case MatlabStatus => "MATLAB_STATUS"
    case StartMatlabProxy => "START_MATLAB_PROXY"
    case CheckFileExists => "CHECK_FILE_EXISTS"
    case Unknown => "UNKNOWN"
  }

  /** `ActionTypes.<name>`: the member of that name, `None` when the enum has none. */
  function MemberNamed(name: string): (r: Option<ActionType>)
    ensures r.Some? ==> Name(r.value) == name
    ensures r.None? ==> forall t :: Name(t) != name
  {
    if name == "CONVERT" then Some(Convert)
    else if name == "EDIT" then Some(Edit)
    else if name == "MATLAB_STATUS" then Some(MatlabStatus)
    else if name == "START_MATLAB_PROXY" then Some(StartMatlabProxy)
    else if name == "CHECK_FILE_EXISTS" then Some(CheckFileExists)
    else if name == "UNKNOWN" then Some(Unknown)
    else None
  }

  /** There are exactly six members, and `All` lists each of them once. */
  lemma ExactlySix()
    ensures |All| == 6
    ensures forall t :: t in All
    ensures forall i, j :: 0 <= i < j < |All| ==> All[i] != All[j]
  {
    forall t ensures t in All {
      match t
      case Convert => assert All[0] == t;
      case Edit => assert All[1] == t;
      case MatlabStatus => assert All[2] == t;
      case StartMatlabProxy => assert All[3] == t;
      case CheckFileExists => assert All[4] == t;
      case Unknown => assert All[5] == t;
    }
  }

  /** The two enums carry the same string for every member. */
  lemma ValuesAgree(t: ActionType)
    ensures LabValue(t) == KernelValue(t)
  {
  }

  /** The tag strings are pairwise distinct, so a tag determines its kind. */
  lemma ValueInjective(a: ActionType, b: ActionType)
    requires LabValue(a) == LabValue(b)
    ensures a == b
  {
  }

  /** Neither enum has a DUMMY or a NUDGE member, although both names are used. */
  lemma NoDummyNoNudge()
    ensures MemberNamed("DUMMY").None? && MemberNamed("NUDGE").None?
    ensures MemberNamed("UNKNOWN") == Some(Unknown)
  {
  }
}
