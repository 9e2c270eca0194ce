# Read_AI backend: PDF summarising upload service

This project models the backend of a PDF summarising service and proves
properties of that model in Dafny. The backend has two programs.

- `backend/server.js` is an Express server. Its `POST /upload` route stages
  the uploaded PDF with multer. It then spawns `python3 run_model.py <file>`
  and buffers the child's stdout and stderr. When the child closes, the route
  deletes the staged file and answers with one JSON response.
- `backend/run_model.py` is the child process. It loads three model
  pipelines from a pickle: a summariser, a question generator and a question
  answerer. It reads the PDF's text with pdfplumber, replaces non-ASCII runs
  by spaces and strips the result. It cuts the words into windows of 512
  words that overlap by 50. For each window it produces a summary, up to
  three distinct questions and an answer per question. It prints the
  assembled document as JSON. Every failure it recovers from, and a
  `process_pdf` that raises, is logged through Python's `logging`, which
  writes to stderr. A pickle that fails to load, or lacks a pipeline, is not
  caught: Python prints a traceback to stderr and exits with status 1. A
  missing path argument prints a usage document to stdout and exits with
  status 1, and it logs nothing.

The files are:

- `wrappers.dfy`: `Option`, `Result` and `Min`.
- `json.dfy`: the JSON values exchanged between the processes.
- `text.dfy`: the Python string operations the script relies on. These are
  `str.split()`, `" ".join`, `str.strip()` and the non-ASCII substitution.
  Each comes with a reference definition or an inverse.
- `chunking.dfy`: `chunk_text`. A method with a loop is proved equal to a
  window function, and lemmas cover window count, coverage, overlap and
  chunk size.
- `run_model.dfy`: `extract_text_from_pdf`, `process_pdf` and the entry
  point. The pipelines, pdfplumber and `json.dumps` are parameters. A
  pipeline call returns `Failure(str(e))` when it raises. The log records
  become the stderr text.
- `server.dfy`: the upload route as a class, `UploadRequest`. Its fields are
  the route's state: the two buffers, the staged files and a trace of the
  effects it issues (spawn, unlink, response). `Serve` drives one request
  from arrival to response.
- `end_to_end.dfy`: the two programs composed. The server treats any stderr
  output as failure, and the script logs every recovered failure to stderr.
  So a single failed pipeline call, or a PDF without text, turns the
  request into a 500 "Python script error". The script's own
  `{"error": ...}` document never reaches the client. A 200 happens only
  for a run in which nothing was logged. Such a run is delivered whenever
  `JSON.parse` reads back what `json.dumps` printed.

Three behaviours of the handler a reader might not expect:

- The `close` handler receives the child's exit code and never reads it
  (backend/server.js:66). A run that exits non-zero with clean streams is
  judged by its stdout alone.
- Any stderr text at all fails the request with a 500
  (backend/server.js:75-79), including the warnings of a run the script
  recovered from.
- An oversized or misnamed file part makes multer raise before the route's
  handler runs (backend/server.js:37-40, :43). Express's default error
  handler answers that with a 500 error page.

## Model

| member | source | states |
|---|---|---|
| Text.Strip | backend/run_model.py:33 | `strip()` yields the slice of the input left after removing a whitespace prefix and a whitespace suffix (the prefix being the one `lstrip()` removes); it is empty exactly when the input is all whitespace, and otherwise neither starts nor ends with whitespace; ASCII input stays ASCII |
| Text.Words | backend/run_model.py:40 | every element of `split()` is a non-empty, whitespace-free word |
| Text.SplitAnySeparators | backend/run_model.py:40 | for any words and any whitespace runs between them (non-empty between two words, possibly empty at the ends), `split()` of `sep0 + w0 + sep1 + ... + wn-1 + sepn` gives back exactly the words |
| Text.SeparatorsOfSplit | backend/run_model.py:40 | every string is its `split()` words interleaved with whitespace runs of that shape; together with the row above, `split()` yields exactly the maximal whitespace-free runs, in order |
| Text.JoinWith | backend/run_model.py:43 | `sep.join(parts)` is empty for no parts and otherwise starts with the first part |
| Text.JoinWithLast | backend/run_model.py:99 | `sep.join(parts)` of a non-empty list ends with the last part |
| Text.WordsEmpty | backend/run_model.py:40 | `split()` is empty exactly when the text is all whitespace |
| Text.SplitJoin | backend/run_model.py:40-43 | splitting words that were joined with single spaces gives back the same words, so `split` inverts `" ".join` on words |
| Text.CleanNonAscii | backend/run_model.py:32 | the substituted text is pure ASCII, and ASCII text is left unchanged |
| Text.CleanNonAsciiByPosition | backend/run_model.py:32 | the substitution equals a position-by-position reference: ASCII characters are kept, the first character of each non-ASCII run becomes one space, and the rest of the run is dropped |
| Chunking.Window | backend/run_model.py:43 | a window holds at most 512 words, and it is non-empty whenever its start lies inside the word list |
| Chunking.TextChunks | backend/run_model.py:39-44 | `chunk_text` returns ceil(n/462) chunks for n words, and none exactly when the text is all whitespace |
| Chunking.ChunkCountMeaning | backend/run_model.py:42 | window k exists exactly when k*462 < number of words, so there are ceil(n/462) windows and none for an empty text |
| Chunking.WindowAt | backend/run_model.py:43 | an existing window is the slice starting at word k*462, clamped at the end, with 1 to 512 words |
| Chunking.ChunkCoverage | backend/run_model.py:39-44 | every word lies in window j/462, at its offset from that window's start |
| Chunking.ChunkOverlap | backend/run_model.py:39-44 | the words of window k past its first 462 open window k+1; when window k+1 is full they are exactly 50 words |
| Chunking.ChunkWords | backend/run_model.py:39-44 | splitting chunk k again yields exactly window k, so every chunk has 1 to 512 words |
| Chunking.ChunkText | backend/run_model.py:39-44 | the stepped `range` loop returns exactly the window chunks, ceil(n/462) of them |
| RunModel.ExtractedText | backend/run_model.py:24-36 | the extracted text is ASCII, has no leading or trailing whitespace, and is empty when pdfplumber raised |
| RunModel.NoExtractableText | backend/run_model.py:24-50 | no text is extracted exactly when reading raised or the cleaned page texts are all whitespace |
| RunModel.ExtractText | backend/run_model.py:24-36 | the page loop and cleanup return the extracted text, and they log one error exactly when pdfplumber raised |
| RunModel.MaxLength | backend/run_model.py:61 | `min(150, int(n * 0.7))` never exceeds n, 150 or 0.7n; below 215 words it is within one of 0.7n, except at n = 90, 170 and 180, where the double-precision product truncates to exactly 0.7n - 1; from 215 on it is 150 |
| RunModel.SummaryLengths | backend/run_model.py:60-66 | 0 <= min_len <= max_len <= 150, and max_len never exceeds the word count; max_len is int(0.7n) in double precision, so it is 7n/10 or one less below 215 words and 150 from 215 on; min_len is at least 5 unless max_len is below 5, and then it equals max_len; it is exactly 5 for max_len from 5 to 24, and max_len/5 from 25 on |
| RunModel.ChunkSummary | backend/run_model.py:59-71 | the chunk's summary is the summariser's text when the call returns, and "Summary not available." when it raises |
| RunModel.SummarizeChunk | backend/run_model.py:59-71 | the summary `try` block yields the chunk's summary, and it logs one warning exactly when the summariser raised |
| RunModel.GeneratedTexts | backend/run_model.py:78 | the texts are exactly the `generated_text` values of the outputs that have that key |
| RunModel.Dedup | backend/run_model.py:79 | `list(set(...))` has no repetitions and the same elements |
| RunModel.ChunkQuestions | backend/run_model.py:74-82 | a chunk gets at most three pairwise distinct questions, each a generated text; there are min(3, number of distinct texts) of them, and none when generation raised |
| RunModel.GenerateQuestions | backend/run_model.py:74-82 | the question `try` block yields the chunk's questions, and it logs one warning exactly when question generation raised |
| RunModel.AnswerQuestions | backend/run_model.py:84-94 | the answers are keyed by exactly the questions; each maps to the QA `answer` or to "No answer found" when the key is missing or the call raised; one warning is logged per raising call |
| RunModel.AnswerLogsEmpty | backend/run_model.py:86-93 | the answer loop logs nothing exactly when every QA call returns |
| RunModel.ChunkLogEmpty | backend/run_model.py:58-94 | a chunk logs nothing exactly when its summariser, question-generator and QA calls all return |
| RunModel.ChunkLogsEmpty | backend/run_model.py:55-96 | the chunk loop logs nothing exactly when every call for every chunk returns |
| RunModel.ProcessChunk | backend/run_model.py:56-96 | one pass of the loop body builds the chunk's dictionary and logs the chunk's warnings in the order the calls are made |
| RunModel.ChunkResultsAt | backend/run_model.py:55-96 | there is one result per chunk, in chunk order |
| RunModel.ProcessChunks | backend/run_model.py:53-96 | the loop over the chunks yields the per-chunk results and the concatenated logs |
| RunModel.ProcessPdfShape | backend/run_model.py:47-101 | `process_pdf` raises the no-text error exactly when the text is empty; otherwise the document has ceil(n/462) >= 1 chunk results, each that of the matching text chunk, and a summary that joins the chunk summaries with a blank line |
| RunModel.ProcessPdf | backend/run_model.py:47-101 | extraction, chunking and the chunk loop return what the specification function says |
| RunModel.RecordOfFormat | backend/run_model.py:9 | a line in the default `LEVEL:root:message` format ends with a newline, and the record's level and message can be read back from it |
| RunModel.StderrText | backend/run_model.py:9 | stderr is empty exactly when nothing was logged, and it ends with the last record formatted as `LEVEL:root:message` |
| RunModel.RunModel | backend/run_model.py:103-116 | the script's output equals the specification function; once the pickle is loaded and a path is given, it exits 0; an empty stderr means the load worked and either the usage message was printed or `process_pdf` returned |
| Server.Excerpt | backend/server.js:89 | the excerpt is the first min(length, 500) characters of the raw output |
| Server.UploadResponse | backend/server.js:37-46 | a request without a file part gets 400 "No file uploaded."; a misnamed or oversized part gets a 500 error page; exactly a `file` part of at most 100 MiB goes on to spawn |
| Server.CloseResponse | backend/server.js:75-90 | 200 exactly when stderr is empty and stdout parses, with the parsed value; any stderr gives 500 with the stderr text as details; unparsable stdout gives 500 with the prefixed 500-character excerpt and "..." |
| Server.UploadRequest.constructor | backend/server.js:60-61 | a new request starts with empty buffers and no effects |
| Server.UploadRequest.Receive | backend/server.js:43-58 | the upload stage either answers early with nothing staged or spawned, or stages the file under `uploads/` and spawns `python3 run_model.py <file>` |
| Server.UploadRequest.OnStdout | backend/server.js:63 | a stdout `data` event appends to the stdout buffer and changes nothing else |
| Server.UploadRequest.OnStderr | backend/server.js:64 | a stderr `data` event appends to the stderr buffer and changes nothing else |
| Server.UploadRequest.OnClose | backend/server.js:66-91 | `close` unlinks the staged file first and then sends the response chosen from the buffers; the exit code plays no part; the file leaves the staged set only when the unlink succeeds |
| Server.Serve | backend/server.js:43-92 | a whole request sends exactly one response, which depends only on what each stream delivered in total; a spawned request issues spawn, unlink and send, in that order |
| EndToEnd.LoggedRecordFailsRequest | backend/server.js:75-79 | whenever the script logs a record, stderr is non-empty and the client gets 500 "Python script error" with that text, whatever stdout holds |
| EndToEnd.PipelineFailureFailsRequest | backend/run_model.py:58-94 | a single raising pipeline call in any chunk fails the whole request with a 500, although the script recovers from it |
| EndToEnd.NoTextFailsRequest | backend/run_model.py:111-116 | a PDF without text yields a 500 whose details end with the logged `Unhandled exception` line; the script's `{"error": ...}` output is never delivered |
| EndToEnd.LoadFailureFailsRequest | backend/run_model.py:12-21 | a pickle that fails to load, or lacks a pipeline, yields a 500 whose details are the traceback |
| EndToEnd.SuccessMeansCleanRun | backend/server.js:75-86 | a 200 implies an accepted upload, a loaded pickle, non-empty text and every pipeline call returning |
| EndToEnd.CleanRunDelivered | backend/server.js:81-86 | a clean run is delivered as a 200 carrying the script's document, provided `JSON.parse` reads back what `json.dumps` printed |

## Left out

- The pipelines, pdfplumber, `pickle` and `json.dumps`/`JSON.parse` are
  parameters. Their internals are not part of this model; only whether
  each call raises and what it returns is.
- RunModel.Dedup: Python's `list(set(...))` order depends on string
  hashing, which is randomised per process. The model keeps first
  occurrences in order. So the model fixes which three questions survive
  when there are more than three. The contract of `ChunkQuestions` states
  only the order-free facts.
- Text.IsSpace: only ASCII whitespace is covered. The text is ASCII by the
  time it is split or stripped, so this matters only for the raw page text
  before cleanup.
- Server.Excerpt: it counts characters. JavaScript's `substring` counts
  UTF-16 code units, so the cut can differ when stdout holds characters
  outside the Basic Multilingual Plane.
- Each `data` chunk is decoded with `toString()`. A UTF-8 sequence split
  across two chunks therefore decodes differently. The model takes the
  decoded text as given.
- The unlink is asynchronous in the source. It completes, or fails, after
  the response has been sent. The model records that it was issued before
  the response. It applies the unlink's result to the staged set at once.
- Multer stages the file relative to the working directory, and the handler
  resolves it relative to the script directory. The model takes both to be
  the same directory.
- The handler creates `uploads/` when it is missing. The model leaves this
  out because multer has already written the file there by then.
- Several file parts in one request are left out; only one part is modelled.
- Third-party libraries may also write to stderr, for example INFO records
  under the configured level or deprecation warnings. Any such text fails
  the request in the same way, but the model counts only the script's own
  records.
- Server.Serve, Server.UploadRequest.OnClose: a spawn that fails (for
  example, no `python3` on the path) is not modelled. The child then emits
  an `error` event and may never emit `close`. The handler registers no
  `error` listener, so Node throws, no response is sent and the staged file
  is not unlinked. The model assumes the spawn succeeds and `close` follows.
- Console logging in the server is left out. It has no effect on the
  response.
- Also left out: the `GET /` route, `app.listen`, CORS, `express.json()`
  and the commented-out MongoDB and feedback code. They are not part of the
  upload path.
- `json.dumps` is taken to succeed on the document. In the source, a
  summary or answer that is not serialisable would make it raise, and the
  entry point would log that failure like any other.
- JSON objects are maps, so key order in the printed document is not
  modelled.
- A `generated_text` value that is not hashable would make `set()` raise.
  The model's texts are strings, so this failure does not arise.
