/**
 * `NudgeAction` (plugins/actions/nudgeAction.ts): the notification a nudge
 * from the kernel raises, and the "Open" callback that converts the notebook
 * to an MLX file and opens it in MATLAB.
 *
 * The callback awaits one blocking action after another. The model takes how
 * each awaited call ends, the cached answers it then reads, and the user's
 * dialog answers as input, and returns the steps taken and how the callback
 * ended.
 */
module Nudge {
  import opened Common
  import opened Json
  import opened Slots
  import opened Paths
  import opened ActionTypes
  import opened FrontFactory
  import opened FileDialog
  import opened MatlabUtils

  /** How an awaited blocking `execute` ends: it returns, its promise is rejected, or it never returns. */
  datatype Settlement = Fulfilled | Refused(why: Reason) | Unsettled

  /** The awaited calls of the "Open" callback. */
  datatype Step =
    | CheckExists(target: string)
    | AskName(current: string)
    | StartProxy
    | QueryStatus
    | Licensing
    | Requery
    | WaitStart
    | Convert(ipynb: string, mlx: string)
    | EditFile(mlx: string)

  /** The position of each step in the callback's text. */
  function Rank(s: Step): nat
  {
    match s
    case CheckExists(_) => 0
    case AskName(_) => 1
    case StartProxy => 2
    case QueryStatus => 3
    case Licensing => 4
    case Requery => 5
    case WaitStart => 6
    case Convert(_, _) => 7
    case EditFile(_) => 8
  }

  /** Steps happen in the order the callback's text gives them, each at most once. */
  predicate Ordered(steps: seq<Step>)
  {
    forall i :: 0 < i < |steps| ==> Rank(steps[i - 1]) < Rank(steps[i])
  }

  /** How the callback ends. */
  datatype End = Completed | Abandoned | Rejected(why: Reason) | Threw(e: Thrown) | Hung

  /**
   * What the callback's collaborators answer: whether the action factory
   * returns working actions (as shipped it never does), how each awaited
   * action ends, the cached `fileExists`, the user's answers to the name
   * dialog, and the cached status after each status query, in order.
   */
  datatype World = World(
    factoryWorks: bool,
    checkExists: Settlement,
    fileExists: Option<Json>,
    rounds: seq<Round>,
    startProxy: Settlement,
    statuses: seq<Option<Json>>,
    convert: Settlement,
    edit: Settlement)

  /** `ActionFactory.createAction(kind, true, notebook)`. */
  function Create(w: World, kind: ActionType): (r: Result<ActionType, string>)
    ensures !w.factoryWorks ==> r == Err("Unknown action type: " + LabValue(kind))
    ensures w.factoryWorks ==> r == Ok(kind)
  {
    if w.factoryWorks then Ok(kind) else CreateAction(LabValue(kind), true)
  }

  /** Where the callback goes after awaiting a call that ended this way: on, or to an end. */
  function AfterAwait(s: Settlement): (r: Option<End>)
    ensures r.None? <==> s.Fulfilled?
    ensures s.Refused? ==> r == Some(End.Rejected(s.why))
    ensures s.Unsettled? ==> r == Some(Hung)
  {
    match s
    case Fulfilled => None
    case Refused(why) => Some(End.Rejected(why))
    case Unsettled => Some(Hung)
  }

  /** `PathExt.join(currentDir, newFileName)`: the target once the dialog has named a file. */
  function TargetAfterDialog(nb: string, newFileName: string): (target: string)
    ensures '/' !in newFileName ==> Dirname(target) == Dirname(nb) && Basename(target) == newFileName
  {
    if '/' in newFileName then Join(Dirname(nb), newFileName)
    else JoinSplits(Dirname(nb), newFileName); Join(Dirname(nb), newFileName)
  }

  /**
   * As written, the dialog is given the notebook's own path, so "Overwrite"
   * makes the conversion target the notebook path joined onto its own
   * directory: an .ipynb file, and for a notebook at the top level the
   * notebook itself.
   */
  method OverwriteTargetAsWritten(nb: string) returns (target: string)
    requires EndsWith(nb, ".ipynb")
    ensures target == TargetAfterDialog(nb, nb)
    ensures EndsWith(target, ".ipynb") && !EndsWith(target, ".mlx")
    ensures Dirname(nb) == "" ==> target == nb
  {
    var rounds := [Round("Overwrite", false, "")];
    assert "Overwrite" != "New Name" && !Reprompts(nb, rounds[0]);
    var answer, used := GetNewFileName(nb, rounds);
    target := TargetAfterDialog(nb, answer.name.value);
    if Dirname(nb) != "" {
      EndsWithPrefixed(Dirname(nb) + "/", nb, ".ipynb");
      assert target == (Dirname(nb) + "/") + nb;
    }
    assert target[|target| - 4..] == target[|target| - 6..][2..];
    assert ".ipynb"[2..] != ".mlx";
  }

  /** The input that shows it: the top-level notebook "a.ipynb" would be converted onto itself. */
  method OverwriteAsWrittenExample() returns (target: string)
    ensures target == "a.ipynb"
  {
    assert LastIndexOf("a.ipynb", '/') == None;
    target := OverwriteTargetAsWritten("a.ipynb");
  }

  /**
   * Corrected: the dialog is given the MLX file's name, so "Overwrite" keeps
   * the default target, the MLX file next to the notebook.
   */
  method OverwriteTargetCorrected(nb: string) returns (target: string)
    ensures target == DefaultMlxPath(nb)
    ensures EndsWith(target, ".mlx") && Dirname(target) == Dirname(nb)
  {
    var rounds := [Round("Overwrite", false, "")];
    assert "Overwrite" != "New Name" && !Reprompts(MlxFileName(nb), rounds[0]);
    var answer, used := GetNewFileName(MlxFileName(nb), rounds);
    target := TargetAfterDialog(nb, answer.name.value);
    DefaultMlxPathSameDirectory(nb);
  }

  /** A file name the dialog can return for the MLX name `current` keeps the target an MLX file. */
  lemma DialogNameKeepsMlx(nb: string, n: string)
    requires n == MlxFileName(nb) || EndsWith(n, ".mlx")
    ensures EndsWith(TargetAfterDialog(nb, n), ".mlx")
  {
    if Dirname(nb) != "" {
      EndsWithPrefixed(Dirname(nb) + "/", n, ".mlx");
      assert TargetAfterDialog(nb, n) == (Dirname(nb) + "/") + n;
    }
  }

  /** A cached status that is up and licensed: the ready case of the "ensure backend ready" steps. */
  predicate UpAndLicensed(status: Option<Json>)
  {
    CheckStatus(status, UntilLicensed) == Stop && CheckStatus(status, UntilUp) == Stop
  }

  /** An up and licensed status skips both the licensing step and the wait for start-up. */
  lemma UpAndLicensedSkipsWaits(status: Option<Json>)
    requires UpAndLicensed(status)
    ensures CheckStatus(status, UntilLicensed) == Stop
    ensures Prop(status, "status").Some? && Prop(status, "status").value != Some(JStr("starting"))
  {
    assert "starting"[0] != "up"[0];
  }

  /**
   * The steps of lines 69-89 that can happen: a prefix of start, query,
   * licensing and re-query, then the wait, where licensing and the wait are
   * each optional.
   */
  predicate ReadyShape(steps: seq<Step>)
  {
    || steps == [StartProxy]
    || steps == [StartProxy, QueryStatus]
    || steps == [StartProxy, QueryStatus, Licensing]
    || steps == [StartProxy, QueryStatus, Licensing, Requery]
    || steps == [StartProxy, QueryStatus, Licensing, Requery, WaitStart]
    || steps == [StartProxy, QueryStatus, WaitStart]
  }

  lemma ReadyShapeOrdered(steps: seq<Step>)
    requires ReadyShape(steps)
    ensures Ordered(steps) && |steps| > 0 && steps[0] == StartProxy && Rank(steps[|steps| - 1]) <= 6
  {
  }

  /** Two ordered runs of steps, the first ending below where the second starts, make one ordered run. */
  lemma {:induction false} OrderedConcat(a: seq<Step>, b: seq<Step>)
    requires Ordered(a) && Ordered(b)
    requires a != [] && b != [] && Rank(a[|a| - 1]) < Rank(b[0])
    ensures Ordered(a + b)
  {
    forall i | 0 < i < |a + b|
      ensures Rank((a + b)[i - 1]) < Rank((a + b)[i])
    {
      if i < |a| {
        assert (a + b)[i - 1] == a[i - 1] && (a + b)[i] == a[i];
      } else if i == |a| {
        assert (a + b)[i - 1] == a[|a| - 1] && (a + b)[i] == b[0];
      } else {
        assert (a + b)[i - 1] == b[i - 1 - |a|] && (a + b)[i] == b[i - |a|];
      }
    }
  }

  /** The steps `PickTarget` can take are in order. */
  lemma TargetStepsOrdered(steps: seq<Step>, a: string, b: string)
    requires steps == [] || steps == [CheckExists(a)] || steps == [CheckExists(a), AskName(b)]
    ensures Ordered(steps) && Licensing !in steps && (steps != [] ==> Rank(steps[|steps| - 1]) <= 1)
  {
  }

  /**
   * The target-picking steps followed by the rest of the callback form one
   * ordered run of steps, which ends with the rest's convert and edit steps
   * when the rest completed.
   */
  lemma TargetThenRest(first: seq<Step>, rest: seq<Step>, nb: string, target: string, completed: bool)
    requires Ordered(first) && |first| > 0 && Rank(first[|first| - 1]) <= 1 && Licensing !in first
    requires Ordered(rest) && |rest| > 0 && rest[0] == StartProxy
    requires completed ==> |rest| >= 2 && rest[|rest| - 2..] == [Step.Convert(nb, target), EditFile(target)]
    ensures Ordered(first + rest) && (first + rest)[0] == first[0]
    ensures Licensing in first + rest <==> Licensing in rest
    ensures completed ==>
      var s := first + rest;
      |s| >= 2 && s[|s| - 1] == EditFile(target) && s[|s| - 2] == Step.Convert(nb, target)
  {
    OrderedConcat(first, rest);
    if completed {
      var s := first + rest;
      assert s[|s| - 1] == rest[|rest| - 1] == rest[|rest| - 2..][1];
      assert s[|s| - 2] == rest[|rest| - 2] == rest[|rest| - 2..][0];
    }
  }

  /**
   * Lines 48-67: the default target is the MLX file next to the notebook; when
   * CheckFileExists reports that it exists, the name dialog decides. `offered`
   * is the name the dialog is given: the notebook path as written (line 60),
   * the MLX name when corrected. `stop` is how the callback ends here, if it
   * does.
   */
  method PickTarget(nb: string, w: World, offered: string) returns (steps: seq<Step>, stop: Option<End>, target: string)
    ensures !w.factoryWorks ==> steps == [] && stop == Some(End.Threw(FactoryError("Unknown action type: " + "check_file_exists")))
    ensures steps == [] || steps == [CheckExists(DefaultMlxPath(nb))]
         || steps == [CheckExists(DefaultMlxPath(nb)), AskName(offered)]
    ensures stop == Some(Abandoned) ==> steps == [CheckExists(DefaultMlxPath(nb)), AskName(offered)]
    ensures stop.None? ==> |steps| > 0 && (|steps| == 2 <==> JsTruthy(w.fileExists)) && w.checkExists.Fulfilled?
    ensures stop.None? ==> EndsWith(target, ".mlx") || (JsTruthy(w.fileExists) && offered != "" && target == TargetAfterDialog(nb, offered))
    ensures stop.None? && !JsTruthy(w.fileExists) ==> target == DefaultMlxPath(nb)
    ensures stop.None? && JsTruthy(w.fileExists) && |w.rounds| > 0 && w.rounds[0].button == "Overwrite" ==>
      target == TargetAfterDialog(nb, offered)
    ensures w.factoryWorks && w.checkExists.Fulfilled? && !JsTruthy(w.fileExists) ==>
      stop.None? && steps == [CheckExists(DefaultMlxPath(nb))]
    ensures stop != Some(Completed)
  {
    steps := [];
    target := Join(Dirname(nb), MlxFileName(nb));
    var made := Create(w, CheckFileExists);
    if made.Err? {
      assert LabValue(CheckFileExists) == "check_file_exists";
      return steps, Some(End.Threw(FactoryError(made.error))), target;
    }
    steps := [CheckExists(target)];
    stop := AfterAwait(w.checkExists);
    if stop.Some? {
      return;
    }
    if JsTruthy(w.fileExists) {
      steps := [CheckExists(target), AskName(offered)];
      stop, target := AskForName(nb, w.rounds, offered);
    } else {
      DefaultMlxPathSameDirectory(nb);
    }
  }

  /**
   * Lines 59-66: the dialog given `offered` decides the target, or the
   * callback is abandoned (the user cancelled, or the dialog returned the
   * empty, falsy name) or hangs (the dialog is still asking).
   */
  method AskForName(nb: string, rounds: seq<Round>, offered: string) returns (stop: Option<End>, target: string)
    ensures stop == None || stop == Some(Abandoned) || stop == Some(Hung)
    ensures stop.None? ==> EndsWith(target, ".mlx") || (offered != "" && target == TargetAfterDialog(nb, offered))
    ensures stop.None? && |rounds| > 0 && rounds[0].button == "Overwrite" ==> target == TargetAfterDialog(nb, offered)
    ensures |rounds| > 0 && rounds[0].button == "Overwrite" ==> (stop.None? <==> offered != "")
  {
    var answer, used := GetNewFileName(offered, rounds);
    if |rounds| > 0 && rounds[0].button == "Overwrite" {
      assert !Reprompts(offered, rounds[0]) by {
        assert "Overwrite"[0] != "New Name"[0];
      }
    }
    if answer.StillPrompting? {
      return Some(Hung), "";
    }
    if answer.name.None? || answer.name.value == "" {
      return Some(Abandoned), "";
    }
    if answer.name.value != offered {
      DialogNameKeepsMlx(nb, answer.name.value);
    }
    stop := None;
    target := TargetAfterDialog(nb, answer.name.value);
  }

  /**
   * Lines 79-85, from status number `k` on: sign in and wait for licensing,
   * then query the status again. `queries` counts the status queries sent;
   * when the callback goes on, `requeried` is the number of the status the
   * re-query cached.
   */
  method SignIn(url: string, w: World, k: nat) returns (stop: Option<End>, queries: nat, requeried: nat)
    requires w.factoryWorks && k <= |w.statuses|
    ensures stop.None? ==> k < requeried < |w.statuses| && queries == requeried - k + 1
    ensures stop.None? ==> CheckStatus(w.statuses[requeried - 1], UntilLicensed) == Stop
    ensures stop != Some(Completed) && stop != Some(Abandoned)
  {
    var events, outcome, polled := HandleMatlabLicensing(url, w.statuses[k..], Create(w, MatlabStatus));
    queries := polled;
    requeried := k + polled;
    if outcome.Threw? {
      return Some(End.Threw(outcome.e)), queries, requeried;
    } else if outcome.StillWaiting? {
      return Some(Hung), queries, requeried;
    }
    queries := queries + 1;
    if requeried >= |w.statuses| {
      return Some(Hung), queries, requeried;
    }
    stop := None;
  }

  /** Lines 87-89, from status number `k` on: wait for MATLAB to come up. */
  method AwaitStart(w: World, k: nat) returns (stop: Option<End>, queries: nat)
    requires w.factoryWorks && k <= |w.statuses|
    ensures stop.None? <==> exists j :: FirstDecisive(w.statuses[k..], UntilUp) == Some(j) && CheckStatus(w.statuses[k + j], UntilUp) == Stop
    ensures stop != Some(Completed) && stop != Some(Abandoned)
  {
    var outcome, polled, sleeps, resolutions := PollStatus(w.statuses[k..], UntilUp, Create(w, MatlabStatus));
    queries := polled;
    stop := None;
    if outcome.Threw? {
      stop := Some(End.Threw(outcome.e));
    } else if outcome.StillWaiting? {
      stop := Some(Hung);
    }
  }

  /**
   * Lines 79-89, once the first status query has cached `w.statuses[0]`: the
   * licensing step and re-query when that status is not licensed, then the
   * wait for "up" when the status in use is "starting". `extra` are the steps
   * taken, `queries` the further status queries sent, and `inUse` the number
   * of the cached status line 87 reads: the first one, or the re-queried one.
   */
  method LicenseAndWait(url: string, w: World) returns (extra: seq<Step>, stop: Option<End>, queries: nat, inUse: nat)
    requires w.factoryWorks && |w.statuses| > 0
    ensures extra == [] || extra == [Licensing] || extra == [Licensing, Requery]
         || extra == [Licensing, Requery, WaitStart] || extra == [WaitStart]
    ensures inUse < |w.statuses|
    ensures Licensing in extra <==> CheckStatus(w.statuses[0], UntilLicensed) == Continue
    ensures Licensing !in extra ==> inUse == 0
    ensures Requery in extra ==> 0 < inUse && CheckStatus(w.statuses[inUse - 1], UntilLicensed) == Stop
    ensures WaitStart in extra <==>
      (Licensing !in extra || Requery in extra) && Prop(w.statuses[inUse], "status") == Some(Some(JStr("starting")))
    ensures UpAndLicensed(w.statuses[0]) ==> extra == [] && stop.None? && queries == 0
    ensures stop != Some(Completed) && stop != Some(Abandoned)
  {
    if UpAndLicensed(w.statuses[0]) {
      UpAndLicensedSkipsWaits(w.statuses[0]);
    }
    extra := [];
    queries := 0;
    inUse := 0;
    var k := 1;
    var licensed := CheckStatus(w.statuses[0], UntilLicensed);
    if licensed.Throw? {
      return extra, Some(End.Threw(licensed.e)), queries, inUse;
    }
    if licensed == Continue {
      extra := [Licensing];
      var requeried;
      stop, queries, requeried := SignIn(url, w, k);
      if stop.Some? {
        return;
      }
      extra := [Licensing, Requery];
      inUse := requeried;
      k := requeried + 1;
    }
    var starting := Prop(w.statuses[inUse], "status");
    if starting.None? {
      return extra, Some(End.Threw(PropertyOfNothing("status"))), queries, inUse;
    }
    stop := None;
    if starting.value == Some(JStr("starting")) {
      extra := extra + [WaitStart];
      var polled;
      stop, polled := AwaitStart(w, k);
      queries := queries + polled;
    }
  }

  /**
   * Lines 69-89: start matlab-proxy, query the status, and carry on as
   * `LicenseAndWait` says. `statusQueries` counts the status queries sent;
   * `inUse` is the number of the cached status line 87 reads.
   */
  method MakeMatlabReady(url: string, w: World) returns (steps: seq<Step>, stop: Option<End>, statusQueries: nat, inUse: nat)
    requires w.factoryWorks
    ensures Ordered(steps) && |steps| > 0 && steps[0] == StartProxy && Rank(steps[|steps| - 1]) <= 6
    ensures Licensing in steps ==> |w.statuses| > 0 && CheckStatus(w.statuses[0], UntilLicensed) == Continue
    ensures w.startProxy.Fulfilled? && |w.statuses| > 0 && CheckStatus(w.statuses[0], UntilLicensed) == Continue ==>
      |steps| > 2 && steps[2] == Licensing
    ensures WaitStart in steps <==>
      w.startProxy.Fulfilled? && inUse < |w.statuses| && (Licensing !in steps || Requery in steps)
      && Prop(w.statuses[inUse], "status") == Some(Some(JStr("starting")))
    ensures |w.statuses| > 0 && UpAndLicensed(w.statuses[0]) ==>
      statusQueries <= 1 && (w.startProxy.Fulfilled? ==> stop.None? && statusQueries == 1 && steps == [StartProxy, QueryStatus])
    ensures stop.None? ==> w.startProxy.Fulfilled?
    ensures stop != Some(Completed) && stop != Some(Abandoned)
  {
    steps := [StartProxy];
    statusQueries := 0;
    inUse := 0;
    stop := AfterAwait(w.startProxy);
    if stop.None? {
      steps := [StartProxy, QueryStatus];
      statusQueries := 1;
      if |w.statuses| == 0 {
        stop := Some(Hung);
      } else {
        var extra, queries;
        extra, stop, queries, inUse := LicenseAndWait(url, w);
        steps := steps + extra;
        statusQueries := statusQueries + queries;
      }
    }
    ReadyShapeOrdered(steps);
  }

  /** Lines 91-105: convert the notebook to `target`, then open `target` in MATLAB. */
  method ConvertAndEdit(nb: string, target: string, w: World) returns (steps: seq<Step>, stop: Option<End>)
    requires w.factoryWorks
    ensures steps == [Step.Convert(nb, target)] || steps == [Step.Convert(nb, target), EditFile(target)]
    ensures stop.None? <==> w.convert.Fulfilled? && w.edit.Fulfilled?
    ensures stop.None? ==> steps == [Step.Convert(nb, target), EditFile(target)]
    ensures Ordered(steps) && Rank(steps[0]) == 7
    ensures stop != Some(Completed) && stop != Some(Abandoned)
  {
    steps := [Step.Convert(nb, target)];
    stop := AfterAwait(w.convert);
    if stop.Some? {
      return;
    }
    steps := steps + [EditFile(target)];
    stop := AfterAwait(w.edit);
  }

  /** The ready-making steps followed by convert (and edit) form one ordered run of steps. */
  lemma ReadyThenConverted(ready: seq<Step>, last: seq<Step>, nb: string, target: string)
    requires Ordered(ready) && |ready| > 0 && ready[0] == StartProxy && Rank(ready[|ready| - 1]) <= 6
    requires last == [Step.Convert(nb, target)] || last == [Step.Convert(nb, target), EditFile(target)]
    ensures Ordered(ready + last) && (ready + last)[0] == StartProxy
    ensures Licensing in ready + last <==> Licensing in ready
    ensures |last| == 2 ==> |ready + last| >= 2 && (ready + last)[|ready + last| - 2..] == last
  {
    OrderedConcat(ready, last);
    assert Licensing !in last;
    if |last| == 2 {
      assert (ready + last)[|ready|..] == last;
    }
  }

  /**
   * Lines 69-105, once the target is known: make MATLAB ready, then convert
   * and edit. `statusQueries` counts the status queries sent.
   */
  method ReadyConvertEdit(nb: string, target: string, url: string, w: World)
    returns (steps: seq<Step>, end: End, statusQueries: nat)
    requires w.factoryWorks
    ensures Ordered(steps) && |steps| > 0 && steps[0] == StartProxy
    ensures Licensing in steps ==> |w.statuses| > 0 && CheckStatus(w.statuses[0], UntilLicensed) == Continue
    ensures w.startProxy.Fulfilled? && |w.statuses| > 0 && CheckStatus(w.statuses[0], UntilLicensed) == Continue ==>
      |steps| > 2 && steps[2] == Licensing
    ensures end == Completed ==> |steps| >= 2 && steps[|steps| - 2..] == [Step.Convert(nb, target), EditFile(target)]
    ensures end == Completed ==> w.startProxy.Fulfilled? && w.convert.Fulfilled? && w.edit.Fulfilled?
    ensures end != Abandoned
    ensures (w.startProxy.Fulfilled? && |w.statuses| > 0 && UpAndLicensed(w.statuses[0])
             && w.convert.Fulfilled? && w.edit.Fulfilled?) ==>
      end == Completed && statusQueries == 1
      && steps == [StartProxy, QueryStatus, Step.Convert(nb, target), EditFile(target)]
  {
    var stop, inUse;
    steps, stop, statusQueries, inUse := MakeMatlabReady(url, w);
    if stop.Some? {
      return steps, stop.value, statusQueries;
    }
    var last;
    last, stop := ConvertAndEdit(nb, target, w);
    ReadyThenConverted(steps, last, nb, target);
    if stop.None? && w.startProxy.Fulfilled? && |w.statuses| > 0 && UpAndLicensed(w.statuses[0]) {
      assert steps + last == [StartProxy, QueryStatus, Step.Convert(nb, target), EditFile(target)];
    }
    steps := steps + last;
    end := if stop.Some? then stop.value else Completed;
  }

  /**
   * The notification's "Open" callback for a notebook at path `nb`, with the
   * name dialog given `offered`: pick the target, make MATLAB ready, convert
   * and open the target, stopping at the first awaited call that throws, is
   * rejected or is never answered. `statusQueries` counts the status queries
   * sent.
   */
  method OpenCallback(nb: string, baseUrl: string, w: World, offered: string)
    returns (steps: seq<Step>, end: End, statusQueries: nat)
    ensures !w.factoryWorks ==>
      steps == [] && end == End.Threw(FactoryError("Unknown action type: " + "check_file_exists"))
    ensures Ordered(steps)
    ensures |steps| > 0 ==> steps[0] == CheckExists(DefaultMlxPath(nb))
    ensures |steps| > 1 && steps[1].AskName? ==> steps[1] == AskName(offered)
    ensures end == Abandoned ==> steps == [CheckExists(DefaultMlxPath(nb)), AskName(offered)]
    ensures Licensing in steps ==> |w.statuses| > 0 && CheckStatus(w.statuses[0], UntilLicensed) == Continue
    ensures end == Completed ==>
      |steps| >= 2 && steps[|steps| - 1].EditFile? && steps[|steps| - 2] == Step.Convert(nb, steps[|steps| - 1].mlx)
      && (EndsWith(steps[|steps| - 1].mlx, ".mlx")
          || (JsTruthy(w.fileExists) && offered != "" && steps[|steps| - 1].mlx == TargetAfterDialog(nb, offered)))
    ensures end == Completed && !JsTruthy(w.fileExists) ==> steps[|steps| - 1] == EditFile(DefaultMlxPath(nb))
    ensures end == Completed && JsTruthy(w.fileExists) && |w.rounds| > 0 && w.rounds[0].button == "Overwrite" ==>
      steps[|steps| - 1] == EditFile(TargetAfterDialog(nb, offered))
    ensures end == Completed ==>
      w.factoryWorks && w.checkExists.Fulfilled? && w.startProxy.Fulfilled? && w.convert.Fulfilled? && w.edit.Fulfilled?
    ensures (w.factoryWorks && w.checkExists.Fulfilled? && !JsTruthy(w.fileExists)
             && w.startProxy.Fulfilled? && |w.statuses| > 0 && UpAndLicensed(w.statuses[0])
             && w.convert.Fulfilled? && w.edit.Fulfilled?) ==>
      end == Completed && statusQueries == 1
      && steps == [CheckExists(DefaultMlxPath(nb)), StartProxy, QueryStatus,
                   Step.Convert(nb, DefaultMlxPath(nb)), EditFile(DefaultMlxPath(nb))]
  {
    var url := GetMatlabUrl(baseUrl);
    var stop, target;
    steps, stop, target := PickTarget(nb, w, offered);
    TargetStepsOrdered(steps, DefaultMlxPath(nb), offered);
    if stop.Some? {
      return steps, stop.value, 0;
    }
    var rest;
    rest, end, statusQueries := ReadyConvertEdit(nb, target, url, w);
    TargetThenRest(steps, rest, nb, target, end == Completed);
    steps := steps + rest;
  }

  /**
   * Lines 46-106 as written: the dialog is given the notebook path, so the
   * target ends in ".mlx" except after "Overwrite", which makes it the
   * notebook path joined onto the notebook's directory.
   */
  method OpenClicked(nb: string, baseUrl: string, w: World)
    returns (steps: seq<Step>, end: End, statusQueries: nat)
    ensures !w.factoryWorks ==>
      steps == [] && end == End.Threw(FactoryError("Unknown action type: " + "check_file_exists"))
    ensures Ordered(steps)
    ensures |steps| > 0 ==> steps[0] == CheckExists(DefaultMlxPath(nb))
    ensures |steps| > 1 && steps[1].AskName? ==> steps[1] == AskName(nb)
    ensures end == Abandoned ==> steps == [CheckExists(DefaultMlxPath(nb)), AskName(nb)]
    ensures Licensing in steps ==> |w.statuses| > 0 && CheckStatus(w.statuses[0], UntilLicensed) == Continue
    ensures end == Completed ==>
      |steps| >= 2 && steps[|steps| - 1].EditFile? && steps[|steps| - 2] == Step.Convert(nb, steps[|steps| - 1].mlx)
      && (EndsWith(steps[|steps| - 1].mlx, ".mlx")
          || (JsTruthy(w.fileExists) && nb != "" && steps[|steps| - 1].mlx == TargetAfterDialog(nb, nb)))
    ensures end == Completed && !JsTruthy(w.fileExists) ==> steps[|steps| - 1] == EditFile(DefaultMlxPath(nb))
    ensures end == Completed && JsTruthy(w.fileExists) && |w.rounds| > 0 && w.rounds[0].button == "Overwrite" ==>
      steps[|steps| - 1] == EditFile(TargetAfterDialog(nb, nb))
    ensures end == Completed ==>
      w.factoryWorks && w.checkExists.Fulfilled? && w.startProxy.Fulfilled? && w.convert.Fulfilled? && w.edit.Fulfilled?
    ensures (w.factoryWorks && w.checkExists.Fulfilled? && !JsTruthy(w.fileExists)
             && w.startProxy.Fulfilled? && |w.statuses| > 0 && UpAndLicensed(w.statuses[0])
             && w.convert.Fulfilled? && w.edit.Fulfilled?) ==>
      end == Completed && statusQueries == 1
      && steps == [CheckExists(DefaultMlxPath(nb)), StartProxy, QueryStatus,
                   Step.Convert(nb, DefaultMlxPath(nb)), EditFile(DefaultMlxPath(nb))]
  {
    steps, end, statusQueries := OpenCallback(nb, baseUrl, w, nb);
  }

  /**
   * Lines 46-106 corrected: the dialog is given the MLX name, so a completed
   * callback always converts to and opens an MLX file, the default one unless
   * the user typed a new name.
   */
  method OpenClickedCorrected(nb: string, baseUrl: string, w: World)
    returns (steps: seq<Step>, end: End, statusQueries: nat)
    ensures Ordered(steps)
    ensures |steps| > 0 ==> steps[0] == CheckExists(DefaultMlxPath(nb))
    ensures end == Abandoned ==> steps == [CheckExists(DefaultMlxPath(nb)), AskName(MlxFileName(nb))]
    ensures end == Completed ==>
      |steps| >= 2 && steps[|steps| - 1].EditFile? && steps[|steps| - 2] == Step.Convert(nb, steps[|steps| - 1].mlx)
      && EndsWith(steps[|steps| - 1].mlx, ".mlx")
    ensures end == Completed && (!JsTruthy(w.fileExists) || (|w.rounds| > 0 && w.rounds[0].button == "Overwrite")) ==>
      steps[|steps| - 1] == EditFile(DefaultMlxPath(nb))
  {
    steps, end, statusQueries := OpenCallback(nb, baseUrl, w, MlxFileName(nb));
    DefaultMlxPathSameDirectory(nb);
  }

  /**
   * The ready case: matlab-proxy starts, the first status is up and licensed,
   * the target does not exist yet; the callback queries the status once and
   * converts and opens `d/s.mlx`.
   */
  method ReadyBackend(d: string, s: string, baseUrl: string, status: Option<Json>)
    returns (steps: seq<Step>, end: End, statusQueries: nat)
    requires s != "" && '/' !in s
    requires UpAndLicensed(status)
    ensures end == Completed && statusQueries == 1
    ensures steps == [CheckExists(Join(d, s + ".mlx")), StartProxy, QueryStatus,
                      Step.Convert(Join(d, s + ".ipynb"), Join(d, s + ".mlx")), EditFile(Join(d, s + ".mlx"))]
  {
    var w := World(true, Fulfilled, Some(JBool(false)), [], Fulfilled, [status], Fulfilled, Fulfilled);
    DefaultMlxPathOfIpynb(d, s);
    var nb := Join(d, s + ".ipynb");
    assert CheckStatus(status, UntilUp) == Stop;
    assert Prop(status, "status") == Some(Some(JStr("up")));
    assert Some(JStr("up")) != Some(JStr("starting")) by {
      assert "starting"[0] != "up"[0];
    }
    steps, end, statusQueries := OpenClicked(nb, baseUrl, w);
  }
}
