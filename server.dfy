/**
 * server.js: the `POST /upload` route. multer stages the uploaded file, the
 * handler spawns `python3 run_model.py <file>`, accumulates the child's
 * stdout and stderr, and on `close` unlinks the staged file and sends one
 * response chosen by a fixed order: stderr first, then the parse of stdout.
 *
 * `JSON.parse` is a parameter (a partial function), and the file system and
 * the child process are reduced to a set of staged paths and a trace of the
 * effects the handler issues.
 */
module Server {
  import opened Wrappers
  import opened JsonValue

  const MaxFileSize: nat := 100 * 1024 * 1024
  const ExcerptLimit: nat := 500
  const FileField := "file"
  const NoFileMessage := "No file uploaded."
  const ScriptErrorMessage := "Python script error"
  const ParseErrorPrefix := "Error parsing model output. Raw output: "
  const Ellipsis := "..."
  const StatusOk: nat := 200
  const StatusBadRequest: nat := 400
  const StatusServerError: nat := 500

  /** The file part of the multipart body, as multer receives it. */
  datatype FilePart = FilePart(field: string, size: nat)

  datatype Body =
    | Payload(value: Json)                               // res.json(result)
    | ErrorBody(error: string)                           // res.json({ error })
    | ErrorWithDetails(error: string, details: string)   // res.json({ error, details })
    | DefaultErrorPage                                   // Express's default error handler

  datatype Response = Response(status: nat, body: Body)

  /** What the handler does to the outside world, in the order it does it. */
  datatype Effect =
    | Spawn(command: string, args: seq<string>)
    | Unlink(path: string)
    | Send(response: Response)

  datatype Phase = Received | Running | Responded

  function UploadPath(dir: string, storedName: string): string
  {
    dir + "/uploads/" + storedName
  }

  function ScriptPath(dir: string): string
  {
    dir + "/run_model.py"
  }

  function SpawnEffect(dir: string, path: string): Effect
  {
    Spawn("python3", [ScriptPath(dir), path])
  }

  /** The responses among the effects, in order. */
  function Responses(effects: seq<Effect>): seq<Response>
  {
    if effects == [] then []
    else
      Responses(effects[..|effects| - 1]) +
      (if effects[|effects| - 1].Send? then [effects[|effects| - 1].response] else [])
  }

  /** Successive `data` chunks appended to a buffer. */
  function Concat(chunks: seq<string>): string
  {
    if chunks == [] then "" else Concat(chunks[..|chunks| - 1]) + chunks[|chunks| - 1]
  }

  /** `outputData.substring(0, Math.min(outputData.length, 500))`. */
  function Excerpt(s: string): (e: string)
    ensures |e| == Min(|s|, ExcerptLimit)
    ensures e <= s
  {
    s[..Min(|s|, ExcerptLimit)]
  }

  /** The response the upload stage sends before any child process exists,
      or None when the handler goes on to spawn one. */
  function UploadResponse(part: Option<FilePart>): (r: Option<Response>)
    ensures part.None? ==> r == Some(Response(StatusBadRequest, ErrorBody(NoFileMessage)))
    ensures r.None? <==> part.Some? && part.value.field == FileField && part.value.size <= MaxFileSize
    ensures r.Some? ==> r.value.status in {StatusBadRequest, StatusServerError}
    ensures part.Some? && r.Some? ==> r.value == Response(StatusServerError, DefaultErrorPage)
  {
    match part
    case None => Some(Response(StatusBadRequest, ErrorBody(NoFileMessage)))
    case Some(f) =>
      if f.field != FileField || f.size > MaxFileSize then Some(Response(StatusServerError, DefaultErrorPage))
      else None
  }

  /** The response the `close` handler sends for the buffered streams. */
  function CloseResponse(stdout: string, stderr: string, parse: string -> Option<Json>): (r: Response)
    ensures r.status == StatusOk <==> stderr == "" && parse(stdout).Some?
    ensures r.status != StatusOk ==> r.status == StatusServerError
    ensures r.status == StatusOk ==> r.body == Payload(parse(stdout).value)
    ensures stderr != "" ==> r.body == ErrorWithDetails(ScriptErrorMessage, stderr)
    ensures stderr == "" && parse(stdout).None? ==>
      && r.body.ErrorBody?
      && r.body.error == ParseErrorPrefix + Excerpt(stdout) + Ellipsis
      && |r.body.error| <= |ParseErrorPrefix| + ExcerptLimit + |Ellipsis|
  {
    if stderr != "" then Response(StatusServerError, ErrorWithDetails(ScriptErrorMessage, stderr))
    else match parse(stdout)
      case Some(result) => Response(StatusOk, Payload(result))
      case None => Response(StatusServerError, ErrorBody(ParseErrorPrefix + Excerpt(stdout) + Ellipsis))
  }

  /** The one response a request gets, given everything the child wrote. */
  function RequestOutcome(part: Option<FilePart>, stdout: string, stderr: string,
                          parse: string -> Option<Json>): Response
  {
    match UploadResponse(part)
    case Some(r) => r
    case None => CloseResponse(stdout, stderr, parse)
  }

  /** The state of one `/upload` request. */
  class UploadRequest {
    const dir: string
    var phase: Phase
    var filePath: string
    var outputData: string
    var errorData: string
    ghost var stdoutChunks: seq<string>
    ghost var stderrChunks: seq<string>
    var staged: set<string>
    var effects: seq<Effect>

    /** The buffers are the concatenation of what each stream delivered, and
        the effects follow the request's phase: nothing yet, the spawn, or a
        complete trace with exactly one response at its end. */
    ghost predicate Valid()
      reads this
    {
      && outputData == Concat(stdoutChunks)
      && errorData == Concat(stderrChunks)
      && (phase == Received ==> effects == [] && stdoutChunks == [] && stderrChunks == [])
      && (phase == Running ==> effects == [SpawnEffect(dir, filePath)])
      && (phase == Responded ==>
            || (|effects| == 1 && effects[0].Send?)
            || (|effects| == 3 && effects[0] == SpawnEffect(dir, filePath)
                && effects[1] == Unlink(filePath) && effects[2].Send?))
    }

    constructor(dir: string, staged: set<string>)
      ensures Valid() && phase == Received
      ensures this.dir == dir && this.staged == staged
      ensures outputData == "" && errorData == "" && effects == []
    {
      this.dir := dir;
      this.staged := staged;
      phase := Received;
      filePath := "";
      outputData, errorData := "", "";
      stdoutChunks, stderrChunks := [], [];
      effects := [];
    }

    /** multer and the start of the route handler: reject a missing, misnamed
        or oversized file; otherwise stage it under the name multer chose and
        spawn the script on it. */
    method Receive(part: Option<FilePart>, storedName: string) returns (early: Option<Response>)
      requires Valid() && phase == Received
      modifies this
      ensures Valid()
      ensures early == UploadResponse(part)
      ensures early.Some? ==> phase == Responded && effects == [Send(early.value)] && staged == old(staged)
      ensures early.None? ==>
        && phase == Running
        && filePath == UploadPath(dir, storedName)
        && staged == old(staged) + {filePath}
        && effects == [SpawnEffect(dir, filePath)]
      ensures outputData == "" && errorData == ""
    {
      early := UploadResponse(part);
      if early.Some? {
        phase := Responded;
        effects := [Send(early.value)];
        return;
      }
      filePath := UploadPath(dir, storedName);
      staged := staged + {filePath};
      effects := [SpawnEffect(dir, filePath)];
      phase := Running;
    }

    /** `python.stdout.on("data", ...)`. */
    method OnStdout(data: string)
      requires Valid() && phase == Running
      modifies this
      ensures Valid() && phase == Running
      ensures outputData == old(outputData) + data && stdoutChunks == old(stdoutChunks) + [data]
      ensures errorData == old(errorData) && stderrChunks == old(stderrChunks)
      ensures filePath == old(filePath) && staged == old(staged) && effects == old(effects)
    {
      outputData := outputData + data;
      stdoutChunks := stdoutChunks + [data];
      assert stdoutChunks[..|stdoutChunks| - 1] == old(stdoutChunks);
    }

    /** `python.stderr.on("data", ...)`. */
    method OnStderr(data: string)
      requires Valid() && phase == Running
      modifies this
      ensures Valid() && phase == Running
      ensures errorData == old(errorData) + data && stderrChunks == old(stderrChunks) + [data]
      ensures outputData == old(outputData) && stdoutChunks == old(stdoutChunks)
      ensures filePath == old(filePath) && staged == old(staged) && effects == old(effects)
    {
      errorData := errorData + data;
      stderrChunks := stderrChunks + [data];
      assert stderrChunks[..|stderrChunks| - 1] == old(stderrChunks);
    }

    /** `python.on("close", ...)`: the unlink is issued first, whatever follows;
        its failure is only logged. The exit code is not read. */
    method OnClose(code: int, unlinkSucceeds: bool, parse: string -> Option<Json>) returns (r: Response)
      requires Valid() && phase == Running
      modifies this
      ensures Valid() && phase == Responded
      ensures r == CloseResponse(old(outputData), old(errorData), parse)
      ensures effects == old(effects) + [Unlink(filePath), Send(r)]
      ensures staged == if unlinkSucceeds then old(staged) - {filePath} else old(staged)
      ensures filePath == old(filePath) && outputData == old(outputData) && errorData == old(errorData)
    {
      effects := effects + [Unlink(filePath)];
      if unlinkSucceeds {
        staged := staged - {filePath};
      }
      if errorData != "" {
        r := Response(StatusServerError, ErrorWithDetails(ScriptErrorMessage, errorData));
      } else {
        match parse(outputData) {
          case Some(result) =>
            r := Response(StatusOk, Payload(result));
          case None =>
            r := Response(StatusServerError,
                          ErrorBody(ParseErrorPrefix + Excerpt(outputData) + Ellipsis));
        }
      }
      effects := effects + [Send(r)];
      phase := Responded;
    }
  }

  /** A `data` event on one of the child's two output streams. */
  datatype StreamEvent = StdoutData(data: string) | StderrData(data: string)

  function StdoutOf(events: seq<StreamEvent>): string
  {
    if events == [] then ""
    else
      var e := events[|events| - 1];
      StdoutOf(events[..|events| - 1]) + (if e.StdoutData? then e.data else "")
  }

  function StderrOf(events: seq<StreamEvent>): string
  {
    if events == [] then ""
    else
      var e := events[|events| - 1];
      StderrOf(events[..|events| - 1]) + (if e.StderrData? then e.data else "")
  }

  /** One request from arrival to response: the upload stage, then the child's
      `data` events in the order the event loop delivers them, then `close`.
      The response depends only on what each stream delivered in total, never
      on the exit code or on whether the unlink succeeded; the trace holds
      exactly one response, and a spawned request unlinks its file once,
      before responding. */
  method Serve(dir: string, staged: set<string>, part: Option<FilePart>, storedName: string,
               events: seq<StreamEvent>, code: int, unlinkSucceeds: bool, parse: string -> Option<Json>)
    returns (r: Response, effects: seq<Effect>, finalStaged: set<string>)
    ensures r == RequestOutcome(part, StdoutOf(events), StderrOf(events), parse)
    ensures Responses(effects) == [r]
    ensures UploadResponse(part).Some? ==> effects == [Send(r)] && finalStaged == staged
    ensures UploadResponse(part).None? ==>
      var path := UploadPath(dir, storedName);
      && effects == [SpawnEffect(dir, path), Unlink(path), Send(r)]
      && finalStaged == if unlinkSucceeds then staged - {path} else staged + {path}
  {
    var request := new UploadRequest(dir, staged);
    var early := request.Receive(part, storedName);
    if early.Some? {
      r, effects, finalStaged := early.value, request.effects, request.staged;
      assert effects[..0] == [];
      return;
    }
    for i := 0 to |events|
      invariant request.Valid() && request.phase == Running
      invariant request.outputData == StdoutOf(events[..i])
      invariant request.errorData == StderrOf(events[..i])
      invariant request.filePath == UploadPath(dir, storedName)
      invariant request.staged == staged + {request.filePath}
      invariant request.effects == [SpawnEffect(dir, request.filePath)]
    {
      assert events[..i + 1][..i] == events[..i];
      match events[i] {
        case StdoutData(data) => request.OnStdout(data);
        case StderrData(data) => request.OnStderr(data);
      }
    }
    assert events[..|events|] == events;
    r := request.OnClose(code, unlinkSucceeds, parse);
    effects, finalStaged := request.effects, request.staged;
    assert effects[..2][..1] == effects[..1] && effects[..1][..0] == [];
    assert Responses(effects[..1]) == [];
    assert Responses(effects[..2]) == [];
  }
}
