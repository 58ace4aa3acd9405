# MATLAB lab extension and kernel comm protocol, in Dafny

This project models the request/response protocol between the JupyterLab
MATLAB extension (TypeScript) and the MATLAB kernel (Python), and proves
properties of the model. The two sides talk over one comm channel per
notebook. The lab extension sends `{action, data}` requests. The kernel
answers each with a reply carrying the same `action` tag and an `error` field.

The model covers these parts:

- **Front-end action classes** (convert, check-file-exists, edit,
  start-matlab-proxy, matlab-status). Each is a class. Its static
  `blockingPromise` is modelled as the list of every promise allocated so
  far (`promises`) plus the number of the promise the static field refers
  to (`current`). The first settlement of a promise wins (`Slots.Settle`).
- **Blocking callers.** A blocking caller waits on one promise, given by
  `Slots.Await` and `Slots.Resume`.
- **The comm registry** (`MatlabCommunicationExtension`), the notebook
  trackers (`NotebookInfo`, the file tracker plugin) and the action
  factories.
- **The helpers in `utils/`:** the name dialog loop and the status polling
  loops.
- **The Nudge "Open" workflow.** It checks the target, asks for a name,
  starts matlab-proxy, queries the status, handles licensing, waits for
  start-up, converts and edits.
- **The kernel side:** the comm slot class, the action factory, and each
  action's `execute` as a function or method. A kernel action returns a
  `Run` record: the MATLAB code it evaluated, the replies it sent and the
  exception it let escape.
- **Round trips across the channel** (module `Protocol`).

Anything outside the code is a parameter:

- MATLAB's eval replies, including the replies to successive client-type polls;
- the file system's existence check;
- home-directory expansion of paths;
- the status fetch and the proxy start outcome;
- the user's dialog answers;
- how each awaited front-end call settles;
- the ids and random suffixes of new channels.

Where the code does something its names or comments do not suggest, the model follows the code:

- Edit's `onMsg` never clears its slot.
- MatlabStatus's `onMsg` never rejects; it overwrites the cached status with
  whatever the reply carries.
- The convert timer is not cancelled by a reply (see the last finding).
- Both action factories, as shipped, throw or raise for every tag.
- Both `comm.onMsg` handlers only log, so nothing routes replies to actions.
  The model drives `OnMsg` directly.

## Model

| member | source | states |
|---|---|---|
| ActionTypes.MemberNamed | src/jupyter_matlab_labextension/src/plugins/actions/actionTypes.ts:3-10 | `ActionTypes.<name>` is the member declared under that name, and there is none for any other name |
| ActionTypes.ExactlySix | src/jupyter_matlab_kernel/kernels/labextension_comm/actions/types.py:5-11 | the enum has exactly six members, each listed once |
| ActionTypes.ValuesAgree | src/jupyter_matlab_labextension/src/plugins/actions/actionTypes.ts:4-9 | the lab extension's string for every member equals the kernel's value |
| ActionTypes.ValueInjective | src/jupyter_matlab_kernel/kernels/labextension_comm/actions/types.py:6-11 | the tag strings are pairwise distinct, so a tag names one kind |
| ActionTypes.NoDummyNoNudge | src/jupyter_matlab_kernel/kernels/labextension_comm/actions/types.py:5-11 | neither enum has a DUMMY or a NUDGE member; UNKNOWN is a member |
| Paths.MlxFileName | src/jupyter_matlab_labextension/src/plugins/actions/nudgeAction.ts:51-52 | the MLX name derived from a notebook path ends in ".mlx" and has no directory part |
| Paths.JoinSplits | src/jupyter_matlab_labextension/src/plugins/actions/nudgeAction.ts:50-53 | joining a directory with a '/'-free name splits back into that directory and that name |
| Paths.DefaultMlxPathSameDirectory | src/jupyter_matlab_labextension/src/plugins/actions/nudgeAction.ts:50-53 | the default target lies in the notebook's directory, is named after the notebook's stem, and ends in ".mlx" |
| Paths.DefaultMlxPathOfIpynb | src/jupyter_matlab_labextension/src/plugins/actions/nudgeAction.ts:48-53 | for `d/s.ipynb` the default target is `d/s.mlx` |
| Slots.SettleFirstWins | src/jupyter_matlab_labextension/src/plugins/actions/editAction.ts:49-59 | settling a promise a second time leaves the first verdict |
| Slots.Await | src/jupyter_matlab_labextension/src/plugins/actions/convertAction.ts:63-66 | a non-blocking call returns; a blocking one waits while the promise is pending, returns once it is resolved, and throws the reason once it is rejected |
| Slots.ReasonVerdict | src/jupyter_matlab_labextension/src/plugins/actions/startMatlabProxyAction.ts:40-50 | a reply rejects with `{reason: error}` exactly when its error is truthy, and resolves otherwise |
| Slots.Allocate | src/jupyter_matlab_labextension/src/plugins/actions/convertAction.ts:29-31 | an existing promise is reused; otherwise a new pending one is allocated and becomes current |
| Notebooks.FilePathUnder | src/jupyter_matlab_labextension/src/utils/notebook.ts:21-27 | the path under the server root when a non-empty name is stored, `undefined` otherwise |
| Notebooks.NotebookInfo.constructor | src/jupyter_matlab_labextension/src/utils/notebook.ts:8-11 | no name, not MATLAB, not busy, no panel |
| Notebooks.NotebookInfo.IsBusy | src/jupyter_matlab_labextension/src/utils/notebook.ts:17-19 | busy is reported only for a MATLAB notebook whose kernel status is "busy" |
| Notebooks.NotebookInfo.GetCurrentFilePath | src/jupyter_matlab_labextension/src/utils/notebook.ts:21-27 | `undefined` exactly when no panel or an empty path is stored, otherwise the stored path joined under the server root |
| Notebooks.NotebookInfo.WaitForIdleStatus | src/jupyter_matlab_labextension/src/utils/notebook.ts:29-31 | throws "No notebook panel provided" exactly when no panel is stored |
| Notebooks.NotebookInfo.Update | src/jupyter_matlab_labextension/src/utils/notebook.ts:52-71 | stores the panel and derives every field from it (MATLAB by case-sensitive comparison of the language); `null` resets every field |
| Notebooks.UpperCaseLanguageIsNotMatlab | src/jupyter_matlab_labextension/src/utils/notebook.ts:54-56 | a kernelspec language of "MATLAB" is not a MATLAB notebook, and its busy kernel is not reported busy |
| Notebooks.ResetForgetsPath | src/jupyter_matlab_labextension/src/utils/notebook.ts:65-70 | after `update(null)` there is no path, and waiting for idle throws |
| Comms.ChannelName | src/jupyter_matlab_labextension/src/matlabCommunication.ts:80-81 | the target name is "matlab_comm_" followed by the panel id (the plugin's copy: by a random suffix) |
| Comms.MatlabCommunicationExtension.constructor | src/jupyter_matlab_labextension/src/matlabCommunication.ts:56 | the registry starts empty |
| Comms.MatlabCommunicationExtension.SetUp | src/jupyter_matlab_labextension/src/matlabCommunication.ts:61-128 | without a kernel, or for a non-MATLAB notebook, nothing is registered; otherwise the new channel is registered under the panel id, unless `open()` fails in the awaiting copy |
| Comms.MatlabCommunicationExtension.PanelDisposed | src/jupyter_matlab_labextension/src/matlabCommunication.ts:126-128 | the panel's entry is removed and every other entry is kept |
| Comms.MatlabCommunicationExtension.Dispose | src/jupyter_matlab_labextension/src/matlabCommunication.ts:134-137 | the panel's channel, if any, is closed and forgotten |
| Comms.MatlabCommunicationExtension.GetComm | src/jupyter_matlab_labextension/src/matlabCommunication.ts:140-148 | the registered channel, or the error "No communication channel found for notebook ID: <id>" exactly when none is registered |
| Comms.MatlabCommunicationExtension.DeleteComms | src/jupyter_matlab_labextension/src/matlabCommunication.ts:150-152 | every entry is forgotten and none is closed |
| Comms.GetAfterSetUp | src/jupyter_matlab_labextension/src/matlabCommunication.ts:80-122 | after a successful set-up, `getComm(panel.id)` is the channel just created, with the expected target name |
| Comms.FailedOpen | src/jupyter_matlab_labextension/src/plugins/matlabCommunicationPlugin.ts:89-111 | a failed `open()` leaves no entry in the awaiting copy, but the background copy registers the channel anyway |
| Comms.NonMatlabNotebookGetsNoComm | src/jupyter_matlab_labextension/src/matlabCommunication.ts:70-76 | a non-MATLAB notebook gets no channel in either copy |
| Comms.DisposeOneThenDeleteAll | src/jupyter_matlab_labextension/src/matlabCommunication.ts:134-152 | disposing one panel closes only its channel; `deleteComms` then forgets the other |
| FrontFactory.CreateActionWith | src/jupyter_matlab_labextension/src/plugins/actions/actionFactory.ts:7-15 | both arms throw: "Dummy action should not be called" for the DUMMY label, "Unknown action type: <tag>" for every other tag |
| FrontFactory.CreateAction | src/jupyter_matlab_labextension/src/plugins/actions/actionFactory.ts:7-15 | as shipped, every tag, including the six real ones, throws "Unknown action type: <tag>" |
| FrontConvert.ConvertRequest | src/jupyter_matlab_labextension/src/plugins/actions/convertAction.ts:102-121 | a request is sent exactly when the channel is live and the notebook path is truthy; it carries both paths under `data` |
| FrontConvert.Verdict | src/jupyter_matlab_labextension/src/plugins/actions/convertAction.ts:70-100 | a truthy error rejects with it; otherwise a reply naming `mlxFilePath` resolves, and any other reply rejects with "Did not receive mlxFilePath in data from kernel" |
| FrontConvert.ConvertAction.constructor | src/jupyter_matlab_labextension/src/plugins/actions/convertAction.ts:11 | no promise, no timer, nothing sent |
| FrontConvert.ConvertAction.Execute | src/jupyter_matlab_labextension/src/plugins/actions/convertAction.ts:22-68 | malformed data changes nothing; otherwise it reuses or allocates the promise, sends the request if possible, arms a timer for that promise, and waits when blocking |
| FrontConvert.ConvertAction.OnMsg | src/jupyter_matlab_labextension/src/plugins/actions/convertAction.ts:70-100 | settles the current promise by `Verdict` and clears the slot; with no promise pending, nothing changes |
| FrontConvert.ConvertAction.Timeout | src/jupyter_matlab_labextension/src/plugins/actions/convertAction.ts:42-47 | as written, a firing timer rejects whatever promise is current at that moment and leaves the slot set |
| FrontConvert.ConvertAction.TimeoutOwn | src/jupyter_matlab_labextension/src/plugins/actions/convertAction.ts:42-47 | corrected: a timer rejects only its own promise, and clears the slot only while that promise is still current |
| FrontConvert.TimedOutSlotIsReused | src/jupyter_matlab_labextension/src/plugins/actions/convertAction.ts:29-31 | after a timeout the rejected promise stays in the slot, so the next blocking conversion throws at once |
| FrontConvert.StaleTimerRejectsNewerRequest | src/jupyter_matlab_labextension/src/plugins/actions/convertAction.ts:42-47 | the first conversion's timer rejects a second, still-pending conversion |
| FrontConvert.OwnTimerSparesNewerRequest | src/jupyter_matlab_labextension/src/plugins/actions/convertAction.ts:42-47 | with the corrected timer, the second conversion keeps waiting until its own timer fires |
| FrontConvert.ReplyBeforeTimeout | src/jupyter_matlab_labextension/src/plugins/actions/convertAction.ts:81-89 | a reply before the deadline resolves the caller and empties the slot |
| FrontCheckFileExists.CheckRequest | src/jupyter_matlab_labextension/src/plugins/actions/checkFileExistsAction.ts:70-89 | a request is sent exactly when the channel is live and the path is truthy |
| FrontCheckFileExists.CheckFileExistsAction.constructor | src/jupyter_matlab_labextension/src/plugins/actions/checkFileExistsAction.ts:11-12 | the cached answer starts as `false` and no promise is pending |
| FrontCheckFileExists.CheckFileExistsAction.Execute | src/jupyter_matlab_labextension/src/plugins/actions/checkFileExistsAction.ts:27-49 | without `mlxFilePath` nothing happens; otherwise it takes a promise, sends if possible, and waits when blocking; the cached answer is unchanged |
| FrontCheckFileExists.CheckFileExistsAction.OnMsg | src/jupyter_matlab_labextension/src/plugins/actions/checkFileExistsAction.ts:51-68 | an error reply rejects and keeps the cached answer; any other reply caches `exists` and resolves; the slot is cleared |
| FrontCheckFileExists.RoundTrip | src/jupyter_matlab_labextension/src/plugins/actions/checkFileExistsAction.ts:51-65 | a reply `{exists: e}` resolves the caller and caches `e`; a later error reply keeps it |
| FrontCheckFileExists.DisposedChannelLeavesCallerWaiting | src/jupyter_matlab_labextension/src/plugins/actions/checkFileExistsAction.ts:37-46 | on a disposed channel nothing is sent and a blocking caller waits forever |
| FrontEdit.EditRequest | src/jupyter_matlab_labextension/src/plugins/actions/editAction.ts:64-85 | a request is sent exactly when the channel is live and the path is truthy |
| FrontEdit.EditAction.constructor | src/jupyter_matlab_labextension/src/plugins/actions/editAction.ts:11 | no promise is pending |
| FrontEdit.EditAction.Execute | src/jupyter_matlab_labextension/src/plugins/actions/editAction.ts:22-46 | without `mlxFilePath` nothing happens; otherwise it sends if possible, then takes a promise and waits when blocking |
| FrontEdit.EditAction.OnMsg | src/jupyter_matlab_labextension/src/plugins/actions/editAction.ts:48-62 | settles the current promise (rejected on a truthy error) and never clears the slot |
| FrontEdit.FirstReplySticks | src/jupyter_matlab_labextension/src/plugins/actions/editAction.ts:48-59 | once rejected, the uncleared promise makes every later blocking edit throw the same reason |
| FrontStartMatlabProxy.StartRequest | src/jupyter_matlab_labextension/src/plugins/actions/startMatlabProxyAction.ts:56-66 | a request with empty data is sent exactly when the channel is live |
| FrontStartMatlabProxy.StartMatlabProxyAction.constructor | src/jupyter_matlab_labextension/src/plugins/actions/startMatlabProxyAction.ts:11 | no promise is pending |
| FrontStartMatlabProxy.StartMatlabProxyAction.Execute | src/jupyter_matlab_labextension/src/plugins/actions/startMatlabProxyAction.ts:22-37 | takes a promise, sends if possible, and waits when blocking |
| FrontStartMatlabProxy.StartMatlabProxyAction.OnMsg | src/jupyter_matlab_labextension/src/plugins/actions/startMatlabProxyAction.ts:39-54 | settles the current promise by `ReasonVerdict` and clears the slot |
| FrontStartMatlabProxy.ErrorClearsSlot | src/jupyter_matlab_labextension/src/plugins/actions/startMatlabProxyAction.ts:40-46 | an error reply rejects the caller, and the next call gets a fresh promise |
| FrontMatlabStatus.StatusRequest | src/jupyter_matlab_labextension/src/plugins/actions/matlabStatusAction.ts:54-65 | a request with empty data is sent exactly when the channel is live |
| FrontMatlabStatus.MatlabStatusAction.constructor | src/jupyter_matlab_labextension/src/plugins/actions/matlabStatusAction.ts:9-11 | no status is cached and no promise is pending |
| FrontMatlabStatus.MatlabStatusAction.Execute | src/jupyter_matlab_labextension/src/plugins/actions/matlabStatusAction.ts:26-39 | takes a promise, sends if possible, waits when blocking, and keeps the cached status |
| FrontMatlabStatus.MatlabStatusAction.OnMsg | src/jupyter_matlab_labextension/src/plugins/actions/matlabStatusAction.ts:41-52 | caches `matlabStatus` from any reply, error or not, then resolves and clears the slot |
| FrontMatlabStatus.ErrorReplyOverwritesStatus | src/jupyter_matlab_labextension/src/plugins/actions/matlabStatusAction.ts:41-49 | the kernel's failure reply resolves the caller and caches `{}` |
| FrontMatlabStatus.SharedSlotHazard | src/jupyter_matlab_labextension/src/plugins/actions/matlabStatusAction.ts:26-49 | two callers share one promise: one reply resolves both, and both read the same cached status |
| FileDialog.GetNewFileName | src/jupyter_matlab_labextension/src/utils/file.ts:5-47 | the loop asks again only on a re-typed current name; it returns the current name on "Overwrite", `<name>.mlx` for a new, different name, and `null` on a cancel |
| FileDialog.OverwriteKeepsName | src/jupyter_matlab_labextension/src/utils/file.ts:41-42 | "Overwrite" on the first dialog returns the current name |
| FileDialog.SameNameAsksAgain | src/jupyter_matlab_labextension/src/utils/file.ts:24-36 | the current name typed again is refused once, and a different name then wins |
| MatlabUtils.GetMatlabUrl | src/jupyter_matlab_labextension/src/utils/matlab.ts:12-16 | the base URL followed by "matlab/default/index.html" |
| MatlabUtils.CheckStatus | src/jupyter_matlab_labextension/src/utils/matlab.ts:53-57 | the loop stops exactly on status "up" (or a truthy `isLicensed`), and throws reading a property of an undefined status |
| MatlabUtils.FirstDecisive | src/jupyter_matlab_labextension/src/utils/matlab.ts:51-59 | the first cached status on which the loop stops or throws, every earlier one letting it continue |
| MatlabUtils.PollStatus | src/jupyter_matlab_labextension/src/utils/matlab.ts:33-60 | the factory's error is thrown before any query; otherwise one query per status up to the first decisive one, one sleep between queries, and one resolution only when the condition is reached |
| MatlabUtils.HandleMatlabLicensing | src/jupyter_matlab_labextension/src/utils/matlab.ts:18-31 | the 700x600 "MATLAB Sign In" popup opens first, and closes only once the licensing wait has been reached |
| MatlabUtils.StartingThenUp | src/jupyter_matlab_labextension/src/utils/matlab.ts:51-59 | statuses "starting" then "up" give two queries with one sleep between |
| FileTracker.Lower | src/jupyter_matlab_labextension/src/plugins/matlabFileTrackerPlugin.ts:91 | lower-casing keeps the length and maps each character |
| FileTracker.Tracker.constructor | src/jupyter_matlab_labextension/src/plugins/matlabFileTrackerPlugin.ts:14-17 | no file name, no language, no notebook, nothing open |
| FileTracker.Tracker.UpdateNotebookInfo | src/jupyter_matlab_labextension/src/plugins/matlabFileTrackerPlugin.ts:84-96 | stores the path and, only when the kernelspec names a language, that language lower-cased; "open" means the path ends in ".ipynb" |
| FileTracker.Tracker.CurrentChanged | src/jupyter_matlab_labextension/src/plugins/matlabFileTrackerPlugin.ts:47-56 | a new panel updates the fields; no panel resets them; the stored notebook is never changed (the parameter shadows it) |
| FileTracker.Tracker.Activate | src/jupyter_matlab_labextension/src/plugins/matlabFileTrackerPlugin.ts:35-43 | records the tracker's current panel, then updates or resets as the listener does |
| FileTracker.Tracker.GetCurrentFilePath | src/jupyter_matlab_labextension/src/plugins/matlabFileTrackerPlugin.ts:72-78 | the stored name under the server root exactly when one is stored and non-empty |
| FileTracker.TrackerAndInfoDisagreeOnCase | src/jupyter_matlab_labextension/src/plugins/matlabFileTrackerPlugin.ts:64-66 | a "MATLAB" kernelspec counts as MATLAB for the tracker and not for `NotebookInfo` |
| FileTracker.LanguageIsSticky | src/jupyter_matlab_labextension/src/plugins/matlabFileTrackerPlugin.ts:88-95 | a panel without a language keeps the previous notebook's language |
| Nudge.Create | src/jupyter_matlab_labextension/src/plugins/actions/nudgeAction.ts:55 | with the shipped factory every creation throws "Unknown action type: <tag>" |
| Nudge.AfterAwait | src/jupyter_matlab_labextension/src/plugins/actions/nudgeAction.ts:56 | the callback goes on only after a fulfilled await; a rejection ends it with the reason, and a call that never settles leaves it hanging |
| Nudge.TargetAfterDialog | src/jupyter_matlab_labextension/src/plugins/actions/nudgeAction.ts:62 | the target for a name without '/' lies in the notebook's directory and has that name as its last part |
| Nudge.OverwriteTargetAsWritten | src/jupyter_matlab_labextension/src/plugins/actions/nudgeAction.ts:59-63 | as written, "Overwrite" makes the target the notebook path joined onto its own directory: an .ipynb file, the notebook itself at top level |
| Nudge.OverwriteAsWrittenExample | src/jupyter_matlab_labextension/src/plugins/actions/nudgeAction.ts:60-63 | for "a.ipynb" the conversion target is "a.ipynb" |
| Nudge.OverwriteTargetCorrected | src/jupyter_matlab_labextension/src/plugins/actions/nudgeAction.ts:60-63 | given the MLX name, "Overwrite" keeps the default MLX target in the notebook's directory |
| Nudge.DialogNameKeepsMlx | src/jupyter_matlab_labextension/src/plugins/actions/nudgeAction.ts:60-63 | any name the corrected dialog returns keeps the target an MLX file |
| Nudge.ReadyShapeOrdered | src/jupyter_matlab_labextension/src/plugins/actions/nudgeAction.ts:69-89 | the ready-making steps occur in text order and begin with the proxy start |
| Nudge.PickTarget | src/jupyter_matlab_labextension/src/plugins/actions/nudgeAction.ts:48-67 | the existence check comes first, on the default MLX path, and the dialog, given `offered`, second; the callback is abandoned only after the dialog, and goes on only after a fulfilled check; a target that goes on ends in ".mlx" unless the file existed and the dialog returned a non-empty `offered` itself, which "Overwrite" does; a missing file keeps the default MLX path |
| Nudge.AskForName | src/jupyter_matlab_labextension/src/plugins/actions/nudgeAction.ts:59-66 | the dialog ends the callback only by a cancel, by returning the empty (falsy) name, or by still asking; a name it returns gives a target ending in ".mlx" or, for a non-empty `offered`, the target for `offered`; a first "Overwrite" goes on, with the target for `offered`, exactly when `offered` is non-empty |
| Nudge.SignIn | src/jupyter_matlab_labextension/src/plugins/actions/nudgeAction.ts:79-85 | the callback goes on only when licensing was reached and a status is left for the re-query; the status before the re-query is a licensed one, and each cached status read costs one query |
| Nudge.LicenseAndWait | src/jupyter_matlab_labextension/src/plugins/actions/nudgeAction.ts:79-89 | after the first status: licensing happens exactly when that status is unlicensed; the status in use is the first one without licensing and the re-queried, licensed one after it; the wait for start-up happens exactly when the status in use is reached and reads "starting"; an up and licensed status takes no step and no query |
| Nudge.AwaitStart | src/jupyter_matlab_labextension/src/plugins/actions/nudgeAction.ts:87-89 | the callback goes on exactly when the first decisive cached status is "up" |
| Nudge.MakeMatlabReady | src/jupyter_matlab_labextension/src/plugins/actions/nudgeAction.ts:69-89 | the steps are in text order and start with the proxy start; licensing runs only on an unlicensed first status, and is the step after the query whenever the proxy started and that status is unlicensed; the wait for start-up runs exactly when the proxy started and the status in use reads "starting"; an up and licensed first status gives at most one status query, and exactly one with the steps start-proxy, query when the proxy start succeeds |
| Nudge.ConvertAndEdit | src/jupyter_matlab_labextension/src/plugins/actions/nudgeAction.ts:91-105 | convert comes first, edit runs only after a successful convert, and the two go on exactly when both are fulfilled |
| Nudge.ReadyConvertEdit | src/jupyter_matlab_labextension/src/plugins/actions/nudgeAction.ts:69-105 | steps in order; licensing only on, and right after the query for, an unlicensed first status once the proxy started; on completion the last two are convert then edit of the target; the ready case takes exactly start-proxy, query, convert, edit |
| Nudge.OpenCallback | src/jupyter_matlab_labextension/src/plugins/actions/nudgeAction.ts:46-106 | for a dialog given `offered`: steps in text order from the default existence check; the dialog shows `offered`; completion converts and edits one target, an MLX file unless the dialog returned `offered`; a missing MLX file and the ready backend give exactly check, start, query, convert, edit of the default path; completion means the factory worked and the check, the proxy start, the convert and the edit were all fulfilled |
| Nudge.OpenClicked | src/jupyter_matlab_labextension/src/plugins/actions/nudgeAction.ts:46-106 | as written (dialog given the notebook path): steps in strictly increasing text order, starting with the existence check of the default MLX path; the dialog and an abandonment show the notebook path; completion converts the notebook and then edits the same target, which ends in ".mlx" unless the MLX file existed and the dialog returned the notebook path; after a first "Overwrite" that target is the notebook path joined onto its own directory; a broken factory throws before any step; completion means every awaited call was fulfilled |
| Nudge.OpenClickedCorrected | src/jupyter_matlab_labextension/src/plugins/actions/nudgeAction.ts:46-106 | corrected (dialog given the MLX name): a completed callback always converts to and edits an MLX file, the default one when the file was missing or the user chose "Overwrite" |
| Nudge.ReadyBackend | src/jupyter_matlab_labextension/src/plugins/actions/nudgeAction.ts:46-106 | for `d/s.ipynb` with MATLAB up and licensed, the callback completes with one status query: check `d/s.mlx`, start, query, convert, edit |
| Kernel.Str | src/jupyter_matlab_kernel/kernels/labextension_comm/actions/convert_action.py:77 | `str(err)` quotes a KeyError's key and is the message of every other exception |
| Kernel.Index | src/jupyter_matlab_kernel/kernels/labextension_comm/actions/convert_action.py:37-38 | `v[key]` succeeds exactly on a dict holding the key; a missing key is a KeyError and a non-dict a TypeError |
| Kernel.In | src/jupyter_matlab_kernel/kernels/labextension_comm/actions/edit_action.py:102 | `key in v` is dict membership, substring search on a str, and a TypeError otherwise |
| Kernel.GetOr | src/jupyter_matlab_kernel/kernels/labextension_comm/actions/check_file_exists_action.py:20 | `.get(key, default)` works exactly on a dict and falls back to the default |
| Kernel.PathText | src/jupyter_matlab_kernel/kernels/labextension_comm/actions/convert_action.py:37-38 | only a str makes a path, and the path is the expanded text |
| Kernel.Reply | src/jupyter_matlab_kernel/kernels/labextension_comm/actions/edit_action.py:82 | a reply carries its tag, its error and every other field given, and nothing else |
| KernelConvert.GetCode | src/jupyter_matlab_kernel/kernels/labextension_comm/actions/convert_action.py:12-22 | "ipynb2mlx " followed by both paths separated by a space |
| KernelConvert.RequestPaths | src/jupyter_matlab_kernel/kernels/labextension_comm/actions/convert_action.py:37-38 | both paths are read exactly when `data["data"]` holds both as strings, and each is the expanded text |
| KernelConvert.ExecuteWith | src/jupyter_matlab_kernel/kernels/labextension_comm/actions/convert_action.py:24-79 | unreadable paths raise with nothing evaluated or sent; otherwise exactly one code is evaluated and exactly one "convert" reply is sent, with fields action, mlxFilePath, error |
| KernelConvert.Execute | src/jupyter_matlab_kernel/kernels/labextension_comm/actions/convert_action.py:24-79 | as written: past the path reads, one reply and no exception; a MATLAB error reply without `response_str` is answered with no path and the error "'response_str'" |
| KernelConvert.ExecuteCorrected | src/jupyter_matlab_kernel/kernels/labextension_comm/actions/convert_action.py:24-79 | corrected: past the path reads, one reply and no exception; a MATLAB error reply carrying `responseStr` is answered with no path and MATLAB's own text |
| KernelConvert.ConvertReplyShapes | src/jupyter_matlab_kernel/kernels/labextension_comm/actions/convert_action.py:49-79 | the reply has no error and the expanded MLX path exactly when MATLAB reports no error; every failure carries no path |
| KernelConvert.LogKeyMasksMatlabError | src/jupyter_matlab_kernel/kernels/labextension_comm/actions/convert_action.py:49-79 | as written, a MATLAB error reply without `response_str` is answered with the KeyError text "'response_str'" |
| KernelConvert.LogKeyMasksMatlabErrorExample | src/jupyter_matlab_kernel/kernels/labextension_comm/actions/convert_action.py:51 | MATLAB's message "boom" never reaches the lab extension |
| KernelConvert.CorrectedReportsMatlabError | src/jupyter_matlab_kernel/kernels/labextension_comm/actions/convert_action.py:49-59 | corrected, a MATLAB error reply is answered with MATLAB's own `responseStr` |
| KernelEdit.GetCode | src/jupyter_matlab_kernel/kernels/labextension_comm/actions/edit_action.py:14-23 | "edit " followed by the path |
| KernelEdit.Classify | src/jupyter_matlab_kernel/kernels/labextension_comm/actions/edit_action.py:35-53 | a poll succeeds exactly on a non-error reply whose `responseStr` contains "jsd_rmt_tmw"; an error reply means "not yet"; an exception fails the wait |
| KernelEdit.WaitFrom | src/jupyter_matlab_kernel/kernels/labextension_comm/actions/edit_action.py:25-63 | as written, the wait takes at least one more poll and never more than 31 |
| KernelEdit.WaitFromCorrected | src/jupyter_matlab_kernel/kernels/labextension_comm/actions/edit_action.py:25-63 | corrected, the same bound of 31 polls |
| KernelEdit.WaitForClientType | src/jupyter_matlab_kernel/kernels/labextension_comm/actions/edit_action.py:25-63 | the loop ends as `WaitFrom` says and evaluates the client-type query once per poll |
| KernelEdit.WaitForClientTypeCorrected | src/jupyter_matlab_kernel/kernels/labextension_comm/actions/edit_action.py:25-63 | the corrected loop ends as `WaitFromCorrected` says, with one query per poll |
| KernelEdit.WaitFromEnds | src/jupyter_matlab_kernel/kernels/labextension_comm/actions/edit_action.py:30-63 | as written the wait ends on a ready or failed poll within the first 30, every earlier poll "not yet", or on poll 31 with TimeoutError whatever that poll found |
| KernelEdit.WaitFromCorrectedEnds | src/jupyter_matlab_kernel/kernels/labextension_comm/actions/edit_action.py:30-63 | corrected, the wait ends on the first ready or failed poll, or with TimeoutError only after 31 "not yet" polls |
| KernelEdit.LastPollSuccessTimesOut | src/jupyter_matlab_kernel/kernels/labextension_comm/actions/edit_action.py:47-63 | as written, a client type reported on the 31st poll still ends in TimeoutError |
| KernelEdit.LastPollSuccessTimesOutExample | src/jupyter_matlab_kernel/kernels/labextension_comm/actions/edit_action.py:56-63 | thirty "not yet" replies followed by the marker reply time out |
| KernelEdit.CorrectedHonoursEveryPoll | src/jupyter_matlab_kernel/kernels/labextension_comm/actions/edit_action.py:42-63 | corrected, the wait succeeds exactly when the first decisive poll among 31 reports the client type, and fails with that poll's exception otherwise |
| KernelEdit.AsWrittenHonoursEarlierPolls | src/jupyter_matlab_kernel/kernels/labextension_comm/actions/edit_action.py:42-63 | as written, the same holds for the first 30 polls |
| KernelEdit.SendEditRequest | src/jupyter_matlab_kernel/kernels/labextension_comm/actions/edit_action.py:65-83 | the success reply `{action: "edit", error: None}` is sent exactly on a non-error eval reply; an error reply raises with MATLAB's text |
| KernelEdit.ReadTarget | src/jupyter_matlab_kernel/kernels/labextension_comm/actions/edit_action.py:100-108 | a payload without `mlxFilePath` is "missing"; a readable one names the expanded path |
| KernelEdit.EditOutcome | src/jupyter_matlab_kernel/kernels/labextension_comm/actions/edit_action.py:111-116 | an "edit" reply whose error is `None` exactly when the edit request succeeded |
| KernelEdit.EditAfterWait | src/jupyter_matlab_kernel/kernels/labextension_comm/actions/edit_action.py:111-116 | once the wait has ended: exactly one "edit" reply, the wait's exception or the edit outcome, with no error exactly when the client type was set and the edit request succeeded |
| KernelEdit.OpenInEditor | src/jupyter_matlab_kernel/kernels/labextension_comm/actions/edit_action.py:111-116 | as written: exactly one "edit" reply; no error exactly when the as-written wait set the client type and MATLAB opened the file, so a client type first seen on the last poll is still reported as a timeout |
| KernelEdit.OpenInEditorCorrected | src/jupyter_matlab_kernel/kernels/labextension_comm/actions/edit_action.py:111-116 | the same with the corrected wait: no error exactly when the corrected wait set the client type and MATLAB opened the file |
| KernelEdit.Execute | src/jupyter_matlab_kernel/kernels/labextension_comm/actions/edit_action.py:85-116 | as written: a missing file gets the single reply "Need mlx file to open..." with nothing evaluated; an unreadable payload raises with nothing sent; otherwise the file is opened after the as-written wait, as `OpenInEditor` says |
| KernelEdit.ExecuteCorrected | src/jupyter_matlab_kernel/kernels/labextension_comm/actions/edit_action.py:85-116 | the same replies, with the file opened after the corrected wait, as `OpenInEditorCorrected` says |
| KernelCheckFileExists.Execute | src/jupyter_matlab_kernel/kernels/labextension_comm/actions/check_file_exists_action.py:15-40 | a readable request gets exactly one "check_file_exists" reply; an empty path gives `exists` False with "No file path provided for checking if it exists"; otherwise `exists` is the file system's answer for the expanded path and there is no error; an error reply always has `exists` False |
| KernelCheckFileExists.RequestIsAnswered | src/jupyter_matlab_kernel/kernels/labextension_comm/actions/check_file_exists_action.py:33-40 | a request for a non-empty path is answered with the oracle's verdict and no error |
| KernelCheckFileExists.EmptyPathIsRefused | src/jupyter_matlab_kernel/kernels/labextension_comm/actions/check_file_exists_action.py:20-31 | an empty path is answered "does not exist" with the error, whatever the file system holds |
| KernelMatlabStatus.Execute | src/jupyter_matlab_kernel/kernels/labextension_comm/actions/matlab_status_action.py:14-42 | exactly one "matlab_status" reply carrying `matlabStatus`; the fetched flag and status with no error on success, `{}` and `str(err)` on failure |
| KernelStartMatlabProxy.MatlabKernel.constructor | src/jupyter_matlab_kernel/kernels/labextension_comm/actions/start_matlab_proxy_action.py:20 | the assignment flag as given, no start yet |
| KernelStartMatlabProxy.Execute | src/jupyter_matlab_kernel/kernels/labextension_comm/actions/start_matlab_proxy_action.py:13-30 | the proxy is started only when MATLAB is not assigned; exactly one reply, whose error is `str(err)` only when an attempted start failed |
| KernelStartMatlabProxy.AssignedKernelIsNotRestarted | src/jupyter_matlab_kernel/kernels/labextension_comm/actions/start_matlab_proxy_action.py:19-24 | with MATLAB assigned nothing starts, and the reply is a success |
| KernelStartMatlabProxy.UnassignedKernelReportsFailure | src/jupyter_matlab_kernel/kernels/labextension_comm/actions/start_matlab_proxy_action.py:19-30 | without MATLAB one start is attempted and its failure is reported |
| KernelFactory.CreateActionWith | src/jupyter_matlab_kernel/kernels/labextension_comm/actions/action_factory.py:16-32 | the DUMMY tag raises "Not supposed to call dummy action"; every other tag gets `UnknownAction`; without a DUMMY member the lookup itself raises AttributeError |
| KernelFactory.CreateAction | src/jupyter_matlab_kernel/kernels/labextension_comm/actions/action_factory.py:28 | as shipped, every tag raises AttributeError |
| KernelFactory.ExecuteAction | src/jupyter_matlab_kernel/kernels/labextension_comm/actions/unknown_action.py:13-14 | the created action evaluates and sends nothing and raises "Unknown action" |
| KernelFactory.NoTagIsHandled | src/jupyter_matlab_kernel/kernels/labextension_comm/actions/action_factory.py:28-32 | even with a DUMMY member, every real tag, "convert" and "edit" included, reaches no handler and gets no reply |
| KernelComm.OpenedChannel | src/jupyter_matlab_kernel/kernels/labextension_comm/communication.py:14-20 | the comm is built exactly when `content`, `comm_id` and `target_name` can be read; a falsy id is replaced by a fresh one |
| KernelComm.ClosedId | src/jupyter_matlab_kernel/kernels/labextension_comm/communication.py:42-43 | the id a close message names, when it can be read |
| KernelComm.LabExtensionCommunication.constructor | src/jupyter_matlab_kernel/kernels/labextension_comm/communication.py:7-8 | the slot starts empty |
| KernelComm.LabExtensionCommunication.CommOpen | src/jupyter_matlab_kernel/kernels/labextension_comm/communication.py:12-21 | the slot is replaced by the described comm; a message missing a field raises and leaves the slot as it was |
| KernelComm.LabExtensionCommunication.CommMsg | src/jupyter_matlab_kernel/kernels/labextension_comm/communication.py:23-38 | with an empty slot it raises "No Communcation channel available"; otherwise it reads the action tag and payload exactly when both are present |
| KernelComm.LabExtensionCommunication.CommClose | src/jupyter_matlab_kernel/kernels/labextension_comm/communication.py:40-50 | the slot is emptied only when it holds the named comm; an unknown id leaves it as it was |
| KernelComm.Session | src/jupyter_matlab_kernel/kernels/labextension_comm/communication.py:12-50 | a request before opening raises; after opening it is read; a close naming another comm keeps the slot; the matching close empties it |
| Protocol.ConvertRequestIsRead | src/jupyter_matlab_kernel/kernels/labextension_comm/actions/convert_action.py:37-38 | the convert request the lab extension sends on a live channel is read back by the kernel as both expanded paths |
| Protocol.ConvertReplyVerdict | src/jupyter_matlab_labextension/src/plugins/actions/convertAction.ts:71-97 | whichever key the kernel's log line reads, every kernel convert reply names `mlxFilePath`, so the lab extension resolves exactly when the reply's error is falsy, and rejects with the error otherwise |
| Protocol.MatlabErrorRejectedAsWritten | src/jupyter_matlab_kernel/kernels/labextension_comm/actions/convert_action.py:49-79 | as written, every MATLAB error reply, an empty one included, is rejected at the lab extension with "'response_str'" instead of MATLAB's text |
| Protocol.EmptyMatlabErrorResolvesCorrected | src/jupyter_matlab_labextension/src/plugins/actions/convertAction.ts:71-89 | with the corrected log line, a MATLAB error with an empty `responseStr` reaches the lab extension as a successful conversion |
| Protocol.CheckRequestIsAnswered | src/jupyter_matlab_kernel/kernels/labextension_comm/actions/check_file_exists_action.py:33-40 | a check request for a non-empty path is answered with no error and the file system's verdict |
| Protocol.CheckFileExistsRoundTrip | src/jupyter_matlab_labextension/src/plugins/actions/checkFileExistsAction.ts:27-68 | a fresh action sends the check, the kernel answers, `onMsg` takes the answer: the blocking caller resumes and the cached answer is the file system's verdict |
| Protocol.EditRequestIsRead | src/jupyter_matlab_kernel/kernels/labextension_comm/actions/edit_action.py:100-108 | the edit request sent on a live channel names the file the kernel opens |
| Protocol.StartReplyVerdict | src/jupyter_matlab_labextension/src/plugins/actions/startMatlabProxyAction.ts:39-51 | the start reply rejects exactly when a start was attempted and failed with a non-empty message |
| Protocol.StatusReplyDrivesPolling | src/jupyter_matlab_kernel/kernels/labextension_comm/actions/matlab_status_action.py:34-42 | a failed fetch caches `{}`, on which the polling loops neither stop nor throw; a fetched "up" or truthy licence stops them |

## Left out

- User interface: notifications, `CellPopup`, the sign-in popup window (only its open and close calls are recorded), `window.open`, toolbar and menu registration. matlabExportPlugin.ts is commented out entirely and is not part of this model.
- Real asynchrony: promises are slot states, awaits are `Caller` values, timers fire as explicit `Timeout` events and sleeps are counted. Concurrency between notebooks is modelled only as interleavings of `Execute` and `OnMsg` calls.
- Message routing: both `comm.onMsg` handlers only log, so replies never reach an action in the code. The model calls `OnMsg` directly, and the kernel's `comm_msg` only reads the request.
- Channel wiring: the files disagree on how an action gets its channel (an argument, or a service that is not exported), so every action takes the channel as a parameter. Channel send failures are not modelled.
- Oracles: the kernel's MATLAB evals, `fetch_matlab_proxy_status`, `start_matlab_proxy_and_comm_helper`, `Path.exists` and `asyncio.sleep` become parameters. Path expansion and resolution become the `expand` function. Which paths exist is the `fileExists` function.
- KernelStartMatlabProxy.Execute: the start helper's own effect on `is_matlab_assigned` is outside this model, so the flag is left unchanged.
- `NotebookInfo.waitForIdleStatus`: only the throw without a panel is modelled, not the wait for the idle signal. `interrupt` and `getCurrentFilename` are plain reads with no logic.
- nudge_action.py is a single send that reads the absent `ActionTypes.NUDGE`, so it raises AttributeError; it is not modelled separately. The Nudge notification's "Ignore" callback only logs.
- JSON numbers and arrays do not occur in the protocol and are not modelled.
- Kernel.PyStr: a non-empty dict formatted into a message is abbreviated as "{...}", because Python prints items in insertion order and a map has none.
- Exception texts: the TypeError and AttributeError messages of the Python runtime are approximations. KernelFactory.CreateAction uses the Python 3.12 wording of the missing-DUMMY error.
- FileTracker.Lower: lower-cases ASCII letters only, not the full Unicode mapping of `toLowerCase`.
- KernelComm.OpenedChannel: the comm id is not checked for type, as the `Comm` class's traitlets would do.
- Paths.Join: Node's `path.join` and PathExt's `join` normalise their result (collapsing repeated '/', resolving '.' and '..', and for PathExt dropping a leading '/'); the model's join only puts one '/' between two non-empty parts.
- Notebooks.FilePathUnder: the joined path is not normalised, so a server root ending in '/' or a stored name with '.' or '..' gives a different string than `path.join`.
- Notebooks.NotebookInfo.GetCurrentFilePath: the same unnormalised join as `FilePathUnder`.
- FileTracker.Tracker.GetCurrentFilePath: the same unnormalised join under the server root.
- Nudge.TargetAfterDialog: the directory and the dialog's name are joined without normalisation, so a typed name with '/' or '..' is kept as typed.
- The status polling loops have no bound in the code; the model runs them over a finite sequence of cached statuses and reports "still waiting" when that runs out.

## Findings

| source | as written | input that shows it | evidently intended | confidence | as-written member | corrected member |
|---|---|---|---|---|---|---|
| src/jupyter_matlab_labextension/src/plugins/actions/nudgeAction.ts:60-63 | the name dialog is given the notebook's path, so "Overwrite" returns that path and the target becomes the notebook joined onto its own directory | notebook "a.ipynb" whose "a.mlx" exists, user picks "Overwrite": the target is "a.ipynb" | the dialog is given the MLX file name, so "Overwrite" keeps the MLX target | high, not executed | Nudge.OverwriteAsWrittenExample | Nudge.OpenClickedCorrected |
| src/jupyter_matlab_kernel/kernels/labextension_comm/actions/convert_action.py:51 | the error log reads key `response_str`, but MATLAB's reply uses `responseStr`, so the log line raises KeyError and the reply's error becomes "'response_str'" | eval reply `{isError: true, responseStr: "boom"}`: the reply's error is "'response_str'" | the log reads `responseStr`, and the reply carries MATLAB's message | high, not executed | KernelConvert.LogKeyMasksMatlabErrorExample | KernelConvert.CorrectedReportsMatlabError |
| src/jupyter_matlab_kernel/kernels/labextension_comm/actions/edit_action.py:56-63 | the timeout check in `finally` runs after the `break`, so a client type reported on the 31st poll still raises TimeoutError | thirty "not yet" replies, then a reply containing "jsd_rmt_tmw": TimeoutError | a successful poll ends the wait whenever it happens within the allowed polls | medium, not executed | KernelEdit.LastPollSuccessTimesOutExample | KernelEdit.CorrectedHonoursEveryPoll |
| src/jupyter_matlab_labextension/src/plugins/actions/convertAction.ts:42-47 | the 50 s timer is never cancelled and rejects whatever promise the static field holds when it fires | convert A, reply to A, convert B, then A's timer fires: B is rejected with "Conversion process timed out" | a timer rejects only the conversion it was armed for | high, not executed | FrontConvert.StaleTimerRejectsNewerRequest | FrontConvert.OwnTimerSparesNewerRequest |
