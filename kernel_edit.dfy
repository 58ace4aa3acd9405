/**
 * `EditAction` on the kernel side (actions/edit_action.py): wait until MATLAB
 * reports the browser client type, then evaluate `edit <file>` and answer the
 * lab extension with one "edit" reply.
 *
 * `poll(i)` is what the eval of the client-type query returns on the i-th
 * poll (from 0); each poll is preceded by a one-second sleep.
 */
module KernelEdit {
  import opened Common
  import opened Json
  import opened ActionTypes
  import opened Kernel

  /** `get_code(p)`: the MATLAB command that opens `p` in the editor. */
  function GetCode(mlx: string): (code: string)
    ensures StartsWith(code, "edit ") && code[|"edit "|..] == mlx
  {
    "edit " + mlx
  }

  const ClientTypeCode := "connector.internal.getClientType"
  /** `time_out`: the counter's bound. */
  const TimeOut: nat := 30
  const TimeoutMessage := "Failed to set client type within 30 seconds."
  const NeedMlxMessage := "Need mlx file to open..."
  const ClientMarker := "jsd_rmt_tmw"

  /** What one poll's `try` block makes of the eval: the client type is set, not yet, or an exception. */
  datatype PollResult = Ready | NotYet | Failed(e: PyError)

  /**
   * One poll: an error reply is logged (reading its `responseStr`) and polling
   * goes on; otherwise the client type is set when `responseStr` contains the
   * browser marker.
   */
  function Classify(reply: EvalReply): (p: PollResult)
    ensures reply.EvalRaised? ==> p == Failed(reply.error)
    ensures p == Ready <==>
      reply.EvalReturned? && Index(reply.response, "isError").Ok? && !PyTruthy(Index(reply.response, "isError").value)
      && Index(reply.response, "responseStr").Ok? && In(ClientMarker, Index(reply.response, "responseStr").value) == Ok(true)
    ensures (reply.EvalReturned? && Index(reply.response, "isError").Ok? && PyTruthy(Index(reply.response, "isError").value)
             && Index(reply.response, "responseStr").Ok?) ==> p == NotYet
  {
    match reply
    case EvalRaised(e) => Failed(e)
    case EvalReturned(response) =>
      match Index(response, "isError")
      case Err(e) => Failed(e)
      case Ok(isError) =>
        match Index(response, "responseStr")
        case Err(e) => Failed(e)
        case Ok(text) =>
          if PyTruthy(isError) then NotYet
          else match In(ClientMarker, text)
            case Err(e) => Failed(e)
            case Ok(found) => if found then Ready else NotYet
  }

  /** How the wait ends, and how many polls it took. */
  datatype WaitEnd = ClientTypeSet(polls: nat) | WaitRaised(e: PyError, polls: nat)

  /**
   * The loop as written, once `done` polls have come back "not yet": the
   * `finally` clause counts every poll and raises TimeoutError once the count
   * passes `TimeOut`, overriding whatever that poll found.
   */
  function WaitFrom(poll: nat -> EvalReply, done: nat): (r: WaitEnd)
    requires done <= TimeOut
    ensures done < r.polls <= TimeOut + 1
    decreases TimeOut - done
  {
    if done + 1 > TimeOut then WaitRaised(TimeoutError(TimeoutMessage), done + 1)
    else match Classify(poll(done))
      case Ready => ClientTypeSet(done + 1)
      case Failed(e) => WaitRaised(e, done + 1)
      case NotYet => WaitFrom(poll, done + 1)
  }

  /**
   * The loop corrected: the count is checked only after a poll that decided
   * nothing, so the last poll's answer is honoured like every other.
   */
  function WaitFromCorrected(poll: nat -> EvalReply, done: nat): (r: WaitEnd)
    requires done <= TimeOut
    ensures done < r.polls <= TimeOut + 1
    decreases TimeOut - done
  {
    match Classify(poll(done))
    case Ready => ClientTypeSet(done + 1)
    case Failed(e) => WaitRaised(e, done + 1)
    case NotYet =>
      if done + 1 > TimeOut then WaitRaised(TimeoutError(TimeoutMessage), done + 1)
      else WaitFromCorrected(poll, done + 1)
  }

  /** `n` copies of the client-type query. */
  function Queries(n: nat): (s: seq<string>)
    ensures |s| == n && forall i :: 0 <= i < n ==> s[i] == ClientTypeCode
  {
    seq(n, _ => ClientTypeCode)
  }

  /** `__wait_for_client_type_to_be_set` as written. `evals` is the code it sent for evaluation. */
  method WaitForClientType(poll: nat -> EvalReply) returns (r: WaitEnd, evals: seq<string>)
    ensures r == WaitFrom(poll, 0)
    ensures evals == Queries(r.polls)
  {
    var timeTaken := 0;
    evals := [];
    while true
      invariant timeTaken <= TimeOut
      invariant WaitFrom(poll, timeTaken) == WaitFrom(poll, 0)
      invariant evals == Queries(timeTaken)
      decreases TimeOut - timeTaken
    {
      var outcome := Classify(poll(timeTaken));
      evals := evals + [ClientTypeCode];
      timeTaken := timeTaken + 1;
      if timeTaken > TimeOut {
        return WaitRaised(TimeoutError(TimeoutMessage), timeTaken), evals;
      }
      if outcome == Ready {
        return ClientTypeSet(timeTaken), evals;
      } else if outcome.Failed? {
        return WaitRaised(outcome.e, timeTaken), evals;
      }
    }
  }

  /** The wait corrected. */
  method WaitForClientTypeCorrected(poll: nat -> EvalReply) returns (r: WaitEnd, evals: seq<string>)
    ensures r == WaitFromCorrected(poll, 0)
    ensures evals == Queries(r.polls)
  {
    var timeTaken := 0;
    evals := [];
    while true
      invariant timeTaken <= TimeOut
      invariant WaitFromCorrected(poll, timeTaken) == WaitFromCorrected(poll, 0)
      invariant evals == Queries(timeTaken)
      decreases TimeOut - timeTaken
    {
      var outcome := Classify(poll(timeTaken));
      evals := evals + [ClientTypeCode];
      timeTaken := timeTaken + 1;
      if outcome == Ready {
        return ClientTypeSet(timeTaken), evals;
      } else if outcome.Failed? {
        return WaitRaised(outcome.e, timeTaken), evals;
      }
      if timeTaken > TimeOut {
        return WaitRaised(TimeoutError(TimeoutMessage), timeTaken), evals;
      }
    }
  }

  /**
   * How the wait as written ends: on a poll that reported the client type or
   * failed, every earlier poll having come back "not yet", or with TimeoutError
   * on poll `TimeOut + 1` whatever that poll found.
   */
  lemma {:induction false} WaitFromEnds(poll: nat -> EvalReply, done: nat)
    requires done <= TimeOut
    ensures var r := WaitFrom(poll, done);
      (r.ClientTypeSet? ==> r.polls <= TimeOut && Classify(poll(r.polls - 1)) == Ready)
      && (r.WaitRaised? && r.polls <= TimeOut ==> Classify(poll(r.polls - 1)) == Failed(r.e))
      && (r.polls == TimeOut + 1 ==> r == WaitRaised(TimeoutError(TimeoutMessage), TimeOut + 1))
      && (forall j :: done <= j < r.polls - 1 ==> Classify(poll(j)) == NotYet)
    decreases TimeOut - done
  {
    if done + 1 <= TimeOut && Classify(poll(done)) == NotYet {
      WaitFromEnds(poll, done + 1);
    }
  }

  /**
   * How the corrected wait ends: on a poll that reported the client type or
   * failed, every earlier poll having come back "not yet", or with TimeoutError
   * once poll `TimeOut + 1` too came back "not yet".
   */
  lemma {:induction false} WaitFromCorrectedEnds(poll: nat -> EvalReply, done: nat)
    requires done <= TimeOut
    ensures var r := WaitFromCorrected(poll, done);
      (r.ClientTypeSet? ==> Classify(poll(r.polls - 1)) == Ready)
      && (r.WaitRaised? ==>
            Classify(poll(r.polls - 1)) == Failed(r.e)
            || (r.polls == TimeOut + 1 && r.e == TimeoutError(TimeoutMessage) && Classify(poll(TimeOut)) == NotYet))
      && (forall j :: done <= j < r.polls - 1 ==> Classify(poll(j)) == NotYet)
    decreases TimeOut - done
  {
    if done + 1 <= TimeOut && Classify(poll(done)) == NotYet {
      WaitFromCorrectedEnds(poll, done + 1);
    }
  }

  /** Polls that all come back "not yet" leave the as-written wait where it would be after the last of them. */
  lemma {:induction false} NotYetSkipsAhead(poll: nat -> EvalReply, done: nat, upTo: nat)
    requires done <= upTo <= TimeOut
    requires forall j :: done <= j < upTo ==> Classify(poll(j)) == NotYet
    ensures WaitFrom(poll, done) == WaitFrom(poll, upTo)
    decreases upTo - done
  {
    if done < upTo {
      NotYetSkipsAhead(poll, done + 1, upTo);
    }
  }

  /** The same for the corrected wait. */
  lemma {:induction false} NotYetSkipsAheadCorrected(poll: nat -> EvalReply, done: nat, upTo: nat)
    requires done <= upTo <= TimeOut
    requires forall j :: done <= j < upTo ==> Classify(poll(j)) == NotYet
    ensures WaitFromCorrected(poll, done) == WaitFromCorrected(poll, upTo)
    decreases upTo - done
  {
    if done < upTo {
      NotYetSkipsAheadCorrected(poll, done + 1, upTo);
    }
  }

  /**
   * As written, a client type reported on the last allowed poll still ends in
   * TimeoutError: the `finally` clause raises over the `break`.
   */
  lemma LastPollSuccessTimesOut(poll: nat -> EvalReply)
    requires forall j :: 0 <= j < TimeOut ==> Classify(poll(j)) == NotYet
    requires Classify(poll(TimeOut)) == Ready
    ensures WaitFrom(poll, 0) == WaitRaised(TimeoutError(TimeoutMessage), TimeOut + 1)
  {
    NotYetSkipsAhead(poll, 0, TimeOut);
  }

  /** The input that shows it: MATLAB answers "not yet" thirty times, then reports the browser client. */
  lemma LastPollSuccessTimesOutExample()
    ensures var ready := EvalReturned(JObj(map["isError" := JBool(false), "responseStr" := JStr(ClientMarker)]));
      var notYet := EvalReturned(JObj(map["isError" := JBool(false), "responseStr" := JStr("")]));
      var poll := (i: nat) => if i < TimeOut then notYet else ready;
      WaitFrom(poll, 0) == WaitRaised(TimeoutError(TimeoutMessage), TimeOut + 1)
  {
    var ready := EvalReturned(JObj(map["isError" := JBool(false), "responseStr" := JStr(ClientMarker)]));
    var notYet := EvalReturned(JObj(map["isError" := JBool(false), "responseStr" := JStr("")]));
    var poll := (i: nat) => if i < TimeOut then notYet else ready;
    assert Contains(ClientMarker, ClientMarker) by {
      assert ClientMarker[..|ClientMarker|] == ClientMarker;
    }
    assert Classify(ready) == Ready;
    assert Classify(notYet) == NotYet;
    LastPollSuccessTimesOut(poll);
  }

  /**
   * Corrected, the wait succeeds exactly when the first poll that decides
   * anything, among the first `TimeOut + 1`, reports the client type.
   */
  lemma CorrectedHonoursEveryPoll(poll: nat -> EvalReply, k: nat)
    requires k <= TimeOut
    requires forall j :: 0 <= j < k ==> Classify(poll(j)) == NotYet
    requires Classify(poll(k)) != NotYet
    ensures Classify(poll(k)) == Ready <==> WaitFromCorrected(poll, 0) == ClientTypeSet(k + 1)
    ensures Classify(poll(k)).Failed? ==> WaitFromCorrected(poll, 0) == WaitRaised(Classify(poll(k)).e, k + 1)
  {
    NotYetSkipsAheadCorrected(poll, 0, k);
  }

  /** As written, the same holds for every poll but the last. */
  lemma AsWrittenHonoursEarlierPolls(poll: nat -> EvalReply, k: nat)
    requires k < TimeOut
    requires forall j :: 0 <= j < k ==> Classify(poll(j)) == NotYet
    requires Classify(poll(k)) != NotYet
    ensures Classify(poll(k)) == Ready <==> WaitFrom(poll, 0) == ClientTypeSet(k + 1)
    ensures Classify(poll(k)).Failed? ==> WaitFrom(poll, 0) == WaitRaised(Classify(poll(k)).e, k + 1)
  {
    NotYetSkipsAhead(poll, 0, k);
  }

  /** An "edit" reply. */
  function EditReply(error: Json): Envelope
  {
    Reply(KernelValue(Edit), map[], error)
  }

  /**
   * `__send_edit_request`: `Ok` is the success reply it sends, `Err` the
   * exception it raises, either the eval's own or one naming MATLAB's error.
   */
  function SendEditRequest(reply: EvalReply): (r: Result<Envelope, PyError>)
    ensures r.Ok? <==>
      reply.EvalReturned? && Index(reply.response, "isError").Ok? && !PyTruthy(Index(reply.response, "isError").value)
    ensures r.Ok? ==> r.value == EditReply(JNull)
    ensures reply.EvalReturned? && Index(reply.response, "isError").Ok? && PyTruthy(Index(reply.response, "isError").value)
            && Index(reply.response, "responseStr").Ok? ==>
      r == Err(Exception("Failed to send edit request with error: " + PyStr(Index(reply.response, "responseStr").value)))
  {
    match reply
    case EvalRaised(e) => Err(e)
    case EvalReturned(response) =>
      var isError :- Index(response, "isError");
      if PyTruthy(isError) then
        var text :- Index(response, "responseStr");
        Err(Exception("Failed to send edit request with error: " + PyStr(text)))
      else
        Ok(EditReply(JNull))
  }

  /** The file `execute` will open: `data["data"]["mlxFilePath"]` made into a path, or why not. */
  datatype Target = Opens(mlx: string) | Missing | Unreadable(e: PyError)

  function ReadTarget(data: Json, expand: string -> string): (t: Target)
    ensures t == Missing <==> Index(data, "data").Ok? && In("mlxFilePath", Index(data, "data").value) == Ok(false)
    ensures t.Opens? ==>
      data.JObj? && "data" in data.fields && data.fields["data"].JObj? && "mlxFilePath" in data.fields["data"].fields
      && data.fields["data"].fields["mlxFilePath"].JStr?
      && t.mlx == expand(data.fields["data"].fields["mlxFilePath"].s)
  {
    match Index(data, "data")
    case Err(e) => Unreadable(e)
    case Ok(payload) =>
      match In("mlxFilePath", payload)
      case Err(e) => Unreadable(e)
      case Ok(present) =>
        if !present then Missing
        else match Index(payload, "mlxFilePath")
          case Err(e) => Unreadable(e)
          case Ok(v) =>
            match PathText(v, expand)
            case Err(e) => Unreadable(e)
            case Ok(mlx) => Opens(mlx)
  }

  /** The reply `execute` sends for the outcome of the edit request: its success reply, or `str(err)`. */
  function EditOutcome(sent: Result<Envelope, PyError>): (env: Envelope)
    requires sent.Ok? ==> sent.value == EditReply(JNull)
    ensures Tag(env) == Some("edit") && "error" in env
    ensures env["error"] == JNull <==> sent.Ok?
  {
    match sent
    case Ok(reply) => reply
    case Err(e) => EditReply(ErrorText(e))
  }

  /**
   * What the `try` block of `execute` does for file `mlx` once the wait for
   * the client type has ended as `w`: one reply in all, the wait's exception
   * or the outcome of the edit request.
   */
  predicate EditedAs(run: Run, mlx: string, w: WaitEnd, editReply: EvalReply)
  {
    run.raised.None?
    && (w.WaitRaised? ==> run == Run(Queries(w.polls), [EditReply(ErrorText(w.e))], None))
    && (w.ClientTypeSet? ==>
          run == Run(Queries(w.polls) + [GetCode(mlx)], [EditOutcome(SendEditRequest(editReply))], None))
  }

  /** Lines 113-116 once the wait has ended as `w` after evaluating `evals`. */
  method EditAfterWait(mlx: string, w: WaitEnd, evals: seq<string>, editReply: EvalReply) returns (run: Run)
    requires evals == Queries(w.polls)
    ensures EditedAs(run, mlx, w, editReply)
    ensures |run.sent| == 1 && Tag(run.sent[0]) == Some("edit")
    ensures run.sent[0]["error"] == JNull <==> w.ClientTypeSet? && SendEditRequest(editReply).Ok?
  {
    if w.WaitRaised? {
      return Run(evals, [EditReply(ErrorText(w.e))], None);
    }
    run := Run(evals + [GetCode(mlx)], [EditOutcome(SendEditRequest(editReply))], None);
  }

  /**
   * Lines 111-116 as written: wait for the client type, send the edit
   * request, and report either's exception; a client type reported on the
   * last allowed poll is still reported as a timeout.
   */
  method OpenInEditor(mlx: string, poll: nat -> EvalReply, editReply: EvalReply) returns (run: Run)
    ensures EditedAs(run, mlx, WaitFrom(poll, 0), editReply)
    ensures |run.sent| == 1 && Tag(run.sent[0]) == Some("edit")
    ensures run.sent[0]["error"] == JNull <==> WaitFrom(poll, 0).ClientTypeSet? && SendEditRequest(editReply).Ok?
  {
    var w, evals := WaitForClientType(poll);
    run := EditAfterWait(mlx, w, evals, editReply);
  }

  /** Lines 111-116 with the corrected wait, which honours a client type reported on any allowed poll. */
  method OpenInEditorCorrected(mlx: string, poll: nat -> EvalReply, editReply: EvalReply) returns (run: Run)
    ensures EditedAs(run, mlx, WaitFromCorrected(poll, 0), editReply)
    ensures |run.sent| == 1 && Tag(run.sent[0]) == Some("edit")
    ensures run.sent[0]["error"] == JNull <==> WaitFromCorrected(poll, 0).ClientTypeSet? && SendEditRequest(editReply).Ok?
  {
    var w, evals := WaitForClientTypeCorrected(poll);
    run := EditAfterWait(mlx, w, evals, editReply);
  }

  /**
   * `execute(comm, data)` as written: a request without a file gets one error
   * reply and nothing is evaluated; one whose file cannot be read raises
   * before anything is sent; otherwise the file is opened as `OpenInEditor`
   * does.
   */
  method Execute(data: Json, expand: string -> string, poll: nat -> EvalReply, editReply: EvalReply)
    returns (run: Run)
    ensures ReadTarget(data, expand).Unreadable? ==> run == Run([], [], Some(ReadTarget(data, expand).e))
    ensures ReadTarget(data, expand).Missing? ==>
      run == Run([], [EditReply(ErrorText(FileNotFoundError(NeedMlxMessage)))], None)
    ensures ReadTarget(data, expand).Opens? ==> EditedAs(run, ReadTarget(data, expand).mlx, WaitFrom(poll, 0), editReply)
  {
    var target := ReadTarget(data, expand);
    match target
    case Unreadable(e) =>
      return Run([], [], Some(e));
    case Missing =>
      return Run([], [EditReply(ErrorText(FileNotFoundError(NeedMlxMessage)))], None);
    case Opens(mlx) =>
      run := OpenInEditor(mlx, poll, editReply);
  }

  /** `execute(comm, data)` with the corrected wait: the same, opening the file as `OpenInEditorCorrected` does. */
  method ExecuteCorrected(data: Json, expand: string -> string, poll: nat -> EvalReply, editReply: EvalReply)
    returns (run: Run)
    ensures ReadTarget(data, expand).Unreadable? ==> run == Run([], [], Some(ReadTarget(data, expand).e))
    ensures ReadTarget(data, expand).Missing? ==>
      run == Run([], [EditReply(ErrorText(FileNotFoundError(NeedMlxMessage)))], None)
    ensures ReadTarget(data, expand).Opens? ==>
      EditedAs(run, ReadTarget(data, expand).mlx, WaitFromCorrected(poll, 0), editReply)
  {
    var target := ReadTarget(data, expand);
    match target
    case Unreadable(e) =>
      return Run([], [], Some(e));
    case Missing =>
      return Run([], [EditReply(ErrorText(FileNotFoundError(NeedMlxMessage)))], None);
    case Opens(mlx) =>
      run := OpenInEditorCorrected(mlx, poll, editReply);
  }
}
