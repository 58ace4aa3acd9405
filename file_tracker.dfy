/**
 * plugins/matlabFileTrackerPlugin.ts: the module-level state that tracks the
 * notebook currently in focus, as a class whose fields are those `let`s.
 */
module FileTracker {
  import opened Common
  import opened Paths
  import opened Notebooks

  /** ASCII `toLowerCase` on one character. */
  function LowerChar(c: char): (d: char)
    ensures 'A' <= c <= 'Z' ==> d as int == c as int + 32
    ensures !('A' <= c <= 'Z') ==> d == c
  {
    if 'A' <= c <= 'Z' then (c as int + 32) as char else c
  }

  /** ASCII `toLowerCase`. */
  function Lower(s: string): (r: string)
    ensures |r| == |s|
    ensures forall i :: 0 <= i < |s| ==> r[i] == LowerChar(s[i])
  {
    if s == [] then [] else [LowerChar(s[0])] + Lower(s[1..])
  }

  class Tracker {
    var currentFileName: Option<string>
    var notebookLanguage: Option<string>
    /** The panel recorded at activation; the change listener's parameter shadows it, so it is never updated afterwards. */
    var currentNotebook: Option<Panel>
    var isNotebookOpen: bool

    constructor()
      ensures currentFileName.None? && notebookLanguage.None? && currentNotebook.None? && !isNotebookOpen
    {
      currentFileName := None;
      notebookLanguage := None;
      currentNotebook := None;
      isNotebookOpen := false;
    }

    /**
     * `updateNotebookInfo(panel)`: store the path, the lower-cased language when
     * the kernelspec names a non-empty one (the previous language otherwise),
     * and whether the path is a notebook's.
     */
    method UpdateNotebookInfo(p: Panel)
      modifies this
      ensures currentFileName == Some(p.path)
      ensures notebookLanguage == if p.language.Some? && p.language.value != "" then Some(Lower(p.language.value)) else old(notebookLanguage)
      ensures isNotebookOpen == EndsWith(p.path, ".ipynb")
      ensures currentNotebook == old(currentNotebook)
    {
      currentFileName := Some(p.path);
      if p.language.Some? && p.language.value != "" {
        notebookLanguage := Some(Lower(p.language.value));
      }
      isNotebookOpen := EndsWith(p.path, ".ipynb");
    }

    /** The `currentChanged` listener: update from the new panel, or reset when there is none. */
    method CurrentChanged(p: Option<Panel>)
      modifies this
      ensures currentNotebook == old(currentNotebook)
      ensures p.None? ==> currentFileName.None? && notebookLanguage.None? && !isNotebookOpen
      ensures p.Some? ==> currentFileName == Some(p.value.path) && isNotebookOpen == EndsWith(p.value.path, ".ipynb")
      ensures p.Some? ==> (notebookLanguage ==
        if p.value.language.Some? && p.value.language.value != "" then Some(Lower(p.value.language.value)) else old(notebookLanguage))
    {
      if p.Some? {
        UpdateNotebookInfo(p.value);
      } else {
        currentFileName := None;
        notebookLanguage := None;
        isNotebookOpen := false;
      }
    }

    /** `activate`: record the tracker's current panel, then behave as the listener would. */
    method Activate(p: Option<Panel>)
      modifies this
      ensures currentNotebook == p
      ensures p.None? ==> currentFileName.None? && notebookLanguage.None? && !isNotebookOpen
      ensures p.Some? ==> currentFileName == Some(p.value.path) && isNotebookOpen == EndsWith(p.value.path, ".ipynb")
      ensures p.Some? ==> (notebookLanguage ==
        if p.value.language.Some? && p.value.language.value != "" then Some(Lower(p.value.language.value)) else old(notebookLanguage))
    {
      currentNotebook := p;
      CurrentChanged(p);
    }

    /** `isMatlabNotebook()`: a notebook is open and its stored language is "matlab". */
    function IsMatlabNotebook(): bool
      reads this
    {
      isNotebookOpen && notebookLanguage == Some("matlab")
    }

    /** `getCurrentFilePath()`: the stored name under the server root, or `undefined`. */
    function GetCurrentFilePath(serverRoot: string): (r: Option<string>)
      reads this
      ensures r.Some? <==> Truthy(currentFileName)
      ensures r.Some? ==> r.value == Join(serverRoot, currentFileName.value)
    {
      FilePathUnder(serverRoot, currentFileName)
    }
  }

  /**
   * The tracker lower-cases the language, `NotebookInfo` compares it as it
   * is: a kernelspec language of "MATLAB" is a MATLAB notebook for one and not
   * for the other.
   */
  method TrackerAndInfoDisagreeOnCase() returns (tracked: bool, info: bool)
    ensures tracked && !info
  {
    var p := Panel("nb-1", "work/a.ipynb", Some("MATLAB"), Some("idle"));
    var t := new Tracker();
    t.Activate(Some(p));
    assert Lower("MATLAB") == "matlab";
    assert EndsWith("work/a.ipynb", ".ipynb");
    tracked := t.IsMatlabNotebook();
    var n := new NotebookInfo();
    n.Update(Some(p));
    info := n.IsMatlabNotebook();
  }

  /**
   * A panel without a kernelspec language keeps the previous notebook's
   * language, so a plain text file opened after a MATLAB notebook is not a
   * MATLAB notebook only because its path does not end in ".ipynb".
   */
  method LanguageIsSticky() returns (language: Option<string>, matlab: bool)
    ensures language == Some("matlab") && !matlab
  {
    var t := new Tracker();
    t.Activate(Some(Panel("nb-1", "a.ipynb", Some("matlab"), None)));
    assert Lower("matlab") == "matlab";
    t.CurrentChanged(Some(Panel("nb-2", "notes.txt", None, None)));
    assert !EndsWith("notes.txt", ".ipynb");
    language := t.notebookLanguage;
    matlab := t.IsMatlabNotebook();
  }
}
