/**
 * `CheckFileExistsAction` on the kernel side
 * (actions/check_file_exists_action.py): answer whether the requested MLX
 * file exists, in one "check_file_exists" reply.
 */
module KernelCheckFileExists {
  import opened Common
  import opened Json
  import opened ActionTypes
  import opened Kernel

  const NoPathMessage := "No file path provided for checking if it exists"

  /** A "check_file_exists" reply. */
  function ExistsReply(found: bool, error: Json): Envelope
  {
    Reply(KernelValue(CheckFileExists), map["exists" := JBool(found)], error)
  }

  /**
   * `execute(comm, data)`. `fileExists` says whether a path, as `expand` leaves
   * it, names an existing file once resolved. An empty or missing
   * `mlxFilePath` gets an error reply saying the file does not exist; a
   * request whose payload or path cannot be read raises without a reply.
   */
  function Execute(data: Json, expand: string -> string, fileExists: string -> bool): (run: Run)
    ensures run.evals == []
    ensures |run.sent| <= 1 && (run.raised.None? <==> |run.sent| == 1)
    ensures |run.sent| == 1 ==>
      Tag(run.sent[0]) == Some("check_file_exists") && run.sent[0].Keys == {"action", "exists", "error"}
      && (run.sent[0]["error"] != JNull ==> run.sent[0]["exists"] == JBool(false))
    ensures Index(data, "data").Ok? && GetOr(data.fields["data"], "mlxFilePath", JStr("")).Ok? ==>
      var file := GetOr(data.fields["data"], "mlxFilePath", JStr("")).value;
      (!PyTruthy(file) ==> run.sent == [ExistsReply(false, JStr(NoPathMessage))])
      && (PyTruthy(file) && file.JStr? ==> run.sent == [ExistsReply(fileExists(expand(file.s)), JNull)])
      && (PyTruthy(file) && !file.JStr? ==> run.sent == [] && run.raised.Some?)
    ensures Index(data, "data").Err? ==> run == Run([], [], Some(Index(data, "data").error))
  {
    match Index(data, "data")
    case Err(e) => Run([], [], Some(e))
    case Ok(payload) =>
      match GetOr(payload, "mlxFilePath", JStr(""))
      case Err(e) => Run([], [], Some(e))
      case Ok(file) =>
        if !PyTruthy(file) then
          Run([], [ExistsReply(false, ErrorText(Exception(NoPathMessage)))], None)
        else
          match PathText(file, expand)
          case Err(e) => Run([], [], Some(e))
          case Ok(path) => Run([], [ExistsReply(fileExists(path), JNull)], None)
  }

  /** A request as the lab extension sends it, for the path `mlx`. */
  function Request(mlx: string): Json
  {
    JObj(map["action" := JStr("check_file_exists"), "data" := JObj(map["mlxFilePath" := JStr(mlx)])])
  }

  /** A request with a non-empty path is answered with the oracle's verdict and no error. */
  lemma RequestIsAnswered(mlx: string, expand: string -> string, fileExists: string -> bool)
    requires mlx != ""
    ensures Execute(Request(mlx), expand, fileExists).sent == [ExistsReply(fileExists(expand(mlx)), JNull)]
  {
    assert Index(Request(mlx), "data") == Ok(JObj(map["mlxFilePath" := JStr(mlx)]));
  }

  /** An empty path is answered "does not exist", with the error, whatever the file system holds. */
  lemma EmptyPathIsRefused(expand: string -> string, fileExists: string -> bool)
    ensures Execute(Request(""), expand, fileExists).sent == [ExistsReply(false, JStr(NoPathMessage))]
  {
    assert Index(Request(""), "data") == Ok(JObj(map["mlxFilePath" := JStr("")]));
  }
}
