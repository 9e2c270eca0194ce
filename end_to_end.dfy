/**
 * The two processes together: what the `/upload` handler answers when the
 * child it spawns is run_model.py. The script logs through Python's
 * `logging`, whose records go to stderr, and the handler fails the request
 * as soon as stderr is non-empty; so every warning the script logs, even
 * one it recovered from, turns the request into a 500.
 */
module EndToEnd {
  import opened Wrappers
  import opened JsonValue
  import opened Text
  import opened Chunking
  import opened RunModel
  import opened Server

  /** The child's output for the request's staged file: the handler passes
      the script path and the file path, so the script's `sys.argv` has two
      entries. */
  function ChildOutput(dir: string, storedName: string, loadFailure: Option<string>, pdf: PdfSource,
                       p: Pipelines, dumps: Json -> string): ProcessOutput
  {
    RunModelSpec(SpawnEffect(dir, UploadPath(dir, storedName)).args, loadFailure, pdf, p, dumps)
  }

  function Outcome(part: Option<FilePart>, dir: string, storedName: string, loadFailure: Option<string>,
                   pdf: PdfSource, p: Pipelines, dumps: Json -> string, parse: string -> Option<Json>): Response
  {
    var out := ChildOutput(dir, storedName, loadFailure, pdf, p, dumps);
    RequestOutcome(part, out.stdout, out.stderr, parse)
  }

  /** Whatever run_model.py logs reaches the client only as the `details` of
      a 500: the document on stdout is then never parsed. */
  lemma LoggedRecordFailsRequest(part: Option<FilePart>, dir: string, storedName: string, pdf: PdfSource,
                                 p: Pipelines, dumps: Json -> string, parse: string -> Option<Json>)
    requires UploadResponse(part).None?
    requires ProcessPdfSpec(pdf, p).log != []
    ensures var out := ChildOutput(dir, storedName, None, pdf, p, dumps);
      && out.stderr != ""
      && Outcome(part, dir, storedName, None, pdf, p, dumps, parse) ==
         Response(StatusServerError, ErrorWithDetails(ScriptErrorMessage, out.stderr))
  {
    var run := ProcessPdfSpec(pdf, p);
    assert run.log != [];
    if run.outcome.Failure? {
      assert run.log + [LogRecord(Error, UnhandledPrefix + run.outcome.error)] != [];
    }
  }

  /** A single pipeline call that raises, in any chunk, fails the whole
      request although the script recovers from it. */
  lemma PipelineFailureFailsRequest(part: Option<FilePart>, dir: string, storedName: string, pdf: PdfSource,
                                    p: Pipelines, dumps: Json -> string, parse: string -> Option<Json>, chunk: string)
    requires UploadResponse(part).None?
    requires ExtractedText(pdf) != ""
    requires chunk in TextChunks(ExtractedText(pdf))
    requires !ChunkCallsSucceed(chunk, p)
    ensures Outcome(part, dir, storedName, None, pdf, p, dumps, parse).status == StatusServerError
    ensures Outcome(part, dir, storedName, None, pdf, p, dumps, parse).body.ErrorWithDetails?
  {
    ChunkLogsEmpty(TextChunks(ExtractedText(pdf)), p);
    LoggedRecordFailsRequest(part, dir, storedName, pdf, p, dumps, parse);
  }

  /** A PDF without extractable text never yields the script's
      `{"error": ...}` document: the error it logs first makes the handler
      answer 500 with the stderr text, which ends with that record's line
      `ERROR:root:Unhandled exception: Error: PDF contains no extractable text.`. */
  lemma NoTextFailsRequest(part: Option<FilePart>, dir: string, storedName: string, pdf: PdfSource,
                           p: Pipelines, dumps: Json -> string, parse: string -> Option<Json>)
    requires UploadResponse(part).None?
    requires ExtractedText(pdf) == ""
    ensures var out := ChildOutput(dir, storedName, None, pdf, p, dumps);
      var line := FormatRecord(LogRecord(Error, UnhandledPrefix + NoTextMessage));
      && Outcome(part, dir, storedName, None, pdf, p, dumps, parse) ==
         Response(StatusServerError, ErrorWithDetails(ScriptErrorMessage, out.stderr))
      && |line| <= |out.stderr| && out.stderr[|out.stderr| - |line|..] == line
  {
    var run := ProcessPdfSpec(pdf, p);
    assert run == Run(Failure(NoTextMessage), ExtractLog(pdf));
    var last := LogRecord(Error, UnhandledPrefix + NoTextMessage);
    var log := run.log + [last];
    var args := SpawnEffect(dir, UploadPath(dir, storedName)).args;
    assert |args| == 2;
    var out := RunModelSpec(args, None, pdf, p, dumps);
    assert out.stderr == StderrText(log);
    assert log[|log| - 1] == last;
    assert out.stderr != "";
    assert ChildOutput(dir, storedName, None, pdf, p, dumps) == out;
    assert Outcome(part, dir, storedName, None, pdf, p, dumps, parse) == CloseResponse(out.stdout, out.stderr, parse);
  }

  /** When the pickle does not load, the traceback on stderr is what the
      client gets. */
  lemma LoadFailureFailsRequest(part: Option<FilePart>, dir: string, storedName: string, failure: string,
                                pdf: PdfSource, p: Pipelines, dumps: Json -> string, parse: string -> Option<Json>)
    requires UploadResponse(part).None?
    ensures Outcome(part, dir, storedName, Some(failure), pdf, p, dumps, parse) ==
      Response(StatusServerError, ErrorWithDetails(ScriptErrorMessage, TracebackHeader + failure))
  {
  }

  /** A 200 happens only for a run in which nothing at all was logged: the
      pickle loaded, text was found and every pipeline call of every chunk
      returned. */
  lemma SuccessMeansCleanRun(part: Option<FilePart>, dir: string, storedName: string, loadFailure: Option<string>,
                             pdf: PdfSource, p: Pipelines, dumps: Json -> string, parse: string -> Option<Json>)
    requires Outcome(part, dir, storedName, loadFailure, pdf, p, dumps, parse).status == StatusOk
    ensures UploadResponse(part).None?
    ensures loadFailure.None?
    ensures pdf.Success? && ExtractedText(pdf) != ""
    ensures forall c :: c in TextChunks(ExtractedText(pdf)) ==> ChunkCallsSucceed(c, p)
  {
    var out := ChildOutput(dir, storedName, loadFailure, pdf, p, dumps);
    assert UploadResponse(part).None?;
    assert out.stderr == "";
    var run := ProcessPdfSpec(pdf, p);
    if run.log != [] {
      LoggedRecordFailsRequest(part, dir, storedName, pdf, p, dumps, parse);
    }
    if ExtractedText(pdf) == "" {
      NoTextFailsRequest(part, dir, storedName, pdf, p, dumps, parse);
    }
    ChunkLogsEmpty(TextChunks(ExtractedText(pdf)), p);
  }

  /** The script's run when every pipeline call returns. */
  lemma CleanRunLog(pdf: PdfSource, p: Pipelines)
    requires pdf.Success? && ExtractedText(pdf) != ""
    requires forall c :: c in TextChunks(ExtractedText(pdf)) ==> ChunkCallsSucceed(c, p)
    ensures ProcessPdfSpec(pdf, p).outcome.Success?
    ensures ProcessPdfSpec(pdf, p).log == []
  {
    ChunkLogsNone(TextChunks(ExtractedText(pdf)), p);
    ProcessPdfClean(pdf, p);
  }

  /** Once the pickle has loaded, the child's output is that of the run. */
  lemma ChildOutputRun(dir: string, storedName: string, pdf: PdfSource, p: Pipelines, dumps: Json -> string)
    ensures ChildOutput(dir, storedName, None, pdf, p, dumps) == RunOutput(ProcessPdfSpec(pdf, p), dumps)
  {
    var args := SpawnEffect(dir, UploadPath(dir, storedName)).args;
    assert |args| == 2;
  }

  /** What the child writes for a run that logged nothing. */
  lemma CleanRunOutput(run: Run, dumps: Json -> string)
    requires run.outcome.Success? && run.log == []
    ensures RunOutput(run, dumps) == ProcessOutput(dumps(DocumentJson(run.outcome.value)) + "\n", "", 0)
  {
    assert StderrText(run.log) == "";
  }

  /** Conversely, a clean run is delivered verbatim, provided `JSON.parse`
      reads back what `json.dumps` printed. */
  lemma CleanRunDelivered(part: Option<FilePart>, dir: string, storedName: string, pdf: PdfSource,
                          p: Pipelines, dumps: Json -> string, parse: string -> Option<Json>)
    requires UploadResponse(part).None?
    requires pdf.Success? && ExtractedText(pdf) != ""
    requires forall c :: c in TextChunks(ExtractedText(pdf)) ==> ChunkCallsSucceed(c, p)
    requires forall v :: parse(dumps(v) + "\n") == Some(v)
    ensures ProcessPdfSpec(pdf, p).outcome.Success?
    ensures Outcome(part, dir, storedName, None, pdf, p, dumps, parse) ==
      Response(StatusOk, Payload(DocumentJson(ProcessPdfSpec(pdf, p).outcome.value)))
  {
    CleanRunLog(pdf, p);
    ChildOutputRun(dir, storedName, pdf, p, dumps);
    CleanRunOutput(ProcessPdfSpec(pdf, p), dumps);
    var out := ChildOutput(dir, storedName, None, pdf, p, dumps);
    assert parse(out.stdout) == Some(DocumentJson(ProcessPdfSpec(pdf, p).outcome.value));
  }
}
