/**
 * `NotebookInfo` (utils/notebook.ts): a holder for what the lab extension
 * knows about one notebook panel, refreshed by `update`.
 */
module Notebooks {
  import opened Common
  import opened Paths

  /**
   * What the model reads from a `NotebookPanel`: its widget id, its
   * `context.path`, its kernelspec language (absent when the metadata has
   * none) and its kernel's status (absent when there is no kernel).
   */
  datatype Panel = Panel(id: string, path: string, language: Option<string>, kernelStatus: Option<string>)

  /** `if (name)` on an optional string: present and non-empty. */
  predicate Truthy(s: Option<string>)
  {
    s.Some? && s.value != ""
  }

  /** `path.join(serverRoot, name)` when a non-empty name is stored, `undefined` otherwise. */
  function FilePathUnder(serverRoot: string, name: Option<string>): (r: Option<string>)
    ensures r.Some? <==> Truthy(name)
    ensures r.Some? ==> r.value == Join(serverRoot, name.value)
  {
    if Truthy(name) then Some(Join(serverRoot, name.value)) else None
  }

  class NotebookInfo {
    var notebookName: Option<string>
    var isMatlab: bool
    var busy: bool
    var panel: Option<Panel>

    /** Every field is what `update` derived from the stored panel, or its reset value. */
    ghost predicate Valid()
      reads this
    {
      match panel
      case None => notebookName.None? && !isMatlab && !busy
      case Some(p) =>
        notebookName == Some(p.path)
        && isMatlab == (p.language == Some("matlab"))
        && busy == (p.kernelStatus == Some("busy"))
    }

    constructor()
      ensures Valid() && panel.None?
    {
      notebookName := None;
      isMatlab := false;
      busy := false;
      panel := None;
    }

    function IsMatlabNotebook(): bool
      reads this
    {
      isMatlab
    }

    /** Busy is only ever reported for a MATLAB notebook. */
    function IsBusy(): (b: bool)
      reads this
      requires Valid()
      ensures !IsMatlabNotebook() ==> !b
      ensures b <==> IsMatlabNotebook() && panel.value.kernelStatus == Some("busy")
    {
      if isMatlab then busy else false
    }

    /** The notebook's path under the server root, `undefined` when no name is stored. */
    function GetCurrentFilePath(serverRoot: string): (r: Option<string>)
      reads this
      requires Valid()
      ensures r.None? <==> panel.None? || panel.value.path == ""
      ensures r.Some? ==> r.value == Join(serverRoot, panel.value.path)
    {
      FilePathUnder(serverRoot, notebookName)
    }

    /** `waitForIdleStatus` throws when no panel is stored; the wait itself is not modelled. */
    function WaitForIdleStatus(): (r: Result<(), string>)
      reads this
      requires Valid()
      ensures r.Err? <==> panel.None?
      ensures r.Err? ==> r.error == "No notebook panel provided"
    {
      if panel.None? then Err("No notebook panel provided") else Ok(())
    }

    /**
     * `update(panel)`: stores the panel and derives the flags from it, the MATLAB
     * flag by a case-sensitive comparison with "matlab"; `update(null)` resets
     * everything.
     */
    method Update(p: Option<Panel>)
      modifies this
      ensures Valid() && panel == p
      ensures p.Some? ==> (IsMatlabNotebook() <==> p.value.language == Some("matlab"))
      ensures p.None? ==> notebookName.None? && !isMatlab && !busy
    {
      panel := p;
      if p.Some? {
        isMatlab := p.value.language == Some("matlab");
        busy := p.value.kernelStatus == Some("busy");
        notebookName := Some(p.value.path);
      } else {
        notebookName := None;
        isMatlab := false;
        busy := false;
      }
    }
  }

  /**
   * A notebook whose kernelspec says "MATLAB" is not a MATLAB notebook for
   * `NotebookInfo`, and a busy non-MATLAB kernel is not reported busy.
   */
  method UpperCaseLanguageIsNotMatlab() returns (matlab: bool, busy: bool)
    ensures !matlab && !busy
  {
    var info := new NotebookInfo();
    info.Update(Some(Panel("nb-1", "work/a.ipynb", Some("MATLAB"), Some("busy"))));
    matlab := info.IsMatlabNotebook();
    busy := info.IsBusy();
  }

  /** After `update(null)` there is no path and waiting for idle throws. */
  method ResetForgetsPath(p: Panel, serverRoot: string) returns (path: Option<string>, wait: Result<(), string>)
    ensures path.None?
    ensures wait == Err("No notebook panel provided")
  {
    var info := new NotebookInfo();
    info.Update(Some(p));
    info.Update(None);
    path := info.GetCurrentFilePath(serverRoot);
    wait := info.WaitForIdleStatus();
  }
}
