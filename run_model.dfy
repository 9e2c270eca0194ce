/**
 * run_model.py: the child process the server spawns. It reads the PDF's
 * page texts, cleans them, cuts them into chunks, asks three model
 * pipelines for a summary, questions and answers per chunk, prints the
 * assembled document as JSON on stdout and logs every failure on stderr.
 *
 * The pipelines, the PDF reader and `json.dumps` are parameters: their
 * internals are not part of this model, only the fact that each call may
 * raise (a `Failure` carrying `str(e)`).
 */
module RunModel {
  import opened Wrappers
  import opened JsonValue
  import opened Text
  import opened Chunking

  // ------------------------------------------------------------------ types

  /** The three model pipelines loaded from the pickle. */
  datatype Pipelines = Pipelines(
    summarize: (string, int, int) -> Result<string, string>,     // (chunk, max_length, min_length) -> [0]["summary_text"]
    generate: string -> Result<seq<map<string, string>>, string>,  // qg_pipeline(qg_input)
    answer: (string, string) -> Result<map<string, string>, string>) // qa_pipeline(question=, context=)

  /** What pdfplumber yields for the path: the text of each page (None when
      `extract_text()` found none), or the message of an exception raised
      while opening or reading the file. */
  type PdfSource = Result<seq<Option<string>>, string>

  datatype ChunkResult = ChunkResult(summary: string, questions: seq<string>, answers: map<string, string>)
  datatype SummaryDocument = SummaryDocument(summary: string, chunks: seq<ChunkResult>)

  /** A record of Python's `logging`; `basicConfig` sends records to stderr. */
  datatype Level = Warning | Error
  datatype LogRecord = LogRecord(level: Level, message: string)

  /** The value `process_pdf` returns or the message of what it raised,
      with the records it logged on the way. */
  datatype Run = Run(outcome: Result<SummaryDocument, string>, log: seq<LogRecord>)

  datatype ProcessOutput = ProcessOutput(stdout: string, stderr: string, exitCode: int)

  const NoTextMessage := "Error: PDF contains no extractable text."
  const UsageMessage := "Usage: python run_model.py <pdf_path>"
  const SummaryFallback := "Summary not available."
  const NoAnswer := "No answer found"
  const QgPrefix := "generate questions: "
  const SummarySeparator := "\n\n"
  const MaxQuestions: nat := 3
  const MaxSummaryLength: nat := 150
  const MinSummaryLength: nat := 5
  const TracebackHeader := "Traceback (most recent call last):\n"

  // The prefixes of the messages the script logs.
  const ExtractFailurePrefix := "Failed to extract text from PDF using pdfplumber: "
  const SummaryFailurePrefix := "Summary generation failed: "
  const QuestionFailurePrefix := "Question generation failed: "
  const UnhandledPrefix := "Unhandled exception: "

  /** The warning logged when the QA call for question `q` raised `e`. */
  function AnswerFailureMessage(q: string, e: string): string
  {
    "Answer generation failed for question '" + q + "': " + e
  }

  // ------------------------------------------------------- text extraction

  /** What one page adds to `text`: its text and a newline, if it has any. */
  function PageText(page: Option<string>): string
  {
    if page.Some? && page.value != "" then page.value + "\n" else ""
  }

  /** `text` after the loop over the first `|pages|` pages. */
  function RawText(pages: seq<Option<string>>): string
  {
    if pages == [] then "" else RawText(pages[..|pages| - 1]) + PageText(pages[|pages| - 1])
  }

  /** The value `extract_text_from_pdf` returns. */
  function ExtractedText(pdf: PdfSource): (text: string)
    ensures AllAscii(text)
    ensures text != [] ==> !IsSpace(text[0]) && !IsSpace(text[|text| - 1])
    ensures pdf.Failure? ==> text == ""
  {
    match pdf
    case Failure(_) => ""
    case Success(pages) =>
      var clean := CleanNonAscii(RawText(pages));
      assert AllAscii(clean);
      Strip(clean)
  }

  /** The records `extract_text_from_pdf` logs: one error when pdfplumber raised. */
  function ExtractLog(pdf: PdfSource): seq<LogRecord>
  {
    match pdf
    case Failure(e) => [LogRecord(Error, ExtractFailurePrefix + e)]
    case Success(_) => []
  }

  /** No text is extracted exactly when reading failed or the cleaned pages
      are all whitespace. */
  lemma NoExtractableText(pdf: PdfSource)
    ensures ExtractedText(pdf) == "" <==>
      pdf.Failure? || AllSpace(CleanNonAscii(RawText(pdf.value)))
  {
  }

  /** `extract_text_from_pdf(pdf_path)`: the loop over pages, then the
      cleanup and `strip()`. */
  method ExtractText(pdf: PdfSource) returns (text: string, log: seq<LogRecord>)
    ensures text == ExtractedText(pdf)
    ensures log == ExtractLog(pdf)
  {
    match pdf
    case Failure(e) =>
      text := "";
      log := [LogRecord(Error, ExtractFailurePrefix + e)];
    case Success(pages) =>
      text := "";
      for k := 0 to |pages|
        invariant text == RawText(pages[..k])
      {
        assert pages[..k + 1][..k] == pages[..k];
        var page := pages[k];
        if page.Some? && page.value != "" {
          text := text + page.value + "\n";
        }
      }
      assert pages[..|pages|] == pages;
      text := Strip(CleanNonAscii(text));
      log := [];
  }

  // ------------------------------------------------------ summary lengths

  datatype LengthBounds = LengthBounds(maxLen: int, minLen: int)

  /** `min(150, int(n * 0.7))` in double precision. The product rounds to
      just below the integer 7n/10 for n = 90, 170 and 180 (62.99999999999999
      for 90), so truncation loses one there; every other n below 215
      truncates to 7n/10, and from 215 on the cap applies. */
  function MaxLength(n: nat): (m: nat)
    ensures m <= n && m <= MaxSummaryLength
    ensures 10 * m <= 7 * n
    ensures n >= 215 ==> m == MaxSummaryLength
    ensures n < 215 && n !in {90, 170, 180} ==> 10 * m + 10 > 7 * n
    ensures n in {90, 170, 180} ==> 10 * m + 10 == 7 * n
  {
    Min(MaxSummaryLength, if n in {90, 170, 180} then 7 * n / 10 - 1 else 7 * n / 10)
  }

  /** The `max_length` and `min_length` passed to the summarizer for a chunk
      of `inputLength` words; `int(max_len * 0.2)` is exactly `max_len / 5`
      for every `max_len` up to 150. */
  function SummaryLengths(inputLength: nat): (b: LengthBounds)
    ensures 0 <= b.minLen <= b.maxLen <= MaxSummaryLength
    ensures b.maxLen <= inputLength
    ensures inputLength < 215 ==> 7 * inputLength / 10 - 1 <= b.maxLen <= 7 * inputLength / 10
    ensures inputLength >= 215 ==> b.maxLen == MaxSummaryLength
    ensures b.maxLen >= MinSummaryLength ==> b.minLen >= MinSummaryLength
    ensures b.maxLen < MinSummaryLength ==> b.minLen == b.maxLen
    ensures b.maxLen >= 25 ==> b.minLen == b.maxLen / 5
    ensures MinSummaryLength <= b.maxLen < 25 ==> b.minLen == MinSummaryLength
  {
    var maxLen := MaxLength(inputLength);
    var minLen := maxLen / 5;
    var minLen := if minLen < MinSummaryLength then MinSummaryLength else minLen;
    var minLen := if minLen > maxLen then maxLen else minLen;
    LengthBounds(maxLen, minLen)
  }

  // ----------------------------------------------------------- per chunk

  /** `chunk_result["summary"]`. */
  function ChunkSummary(chunk: string, p: Pipelines): (summary: string)
    ensures var b := SummaryLengths(|Words(chunk)|);
      var r := p.summarize(chunk, b.maxLen, b.minLen);
      && (r.Success? ==> summary == r.value)
      && (r.Failure? ==> summary == SummaryFallback)
  {
    var b := SummaryLengths(|Words(chunk)|);
    match p.summarize(chunk, b.maxLen, b.minLen)
    case Success(s) => s
    case Failure(_) => SummaryFallback
  }

  function SummaryLog(chunk: string, p: Pipelines): seq<LogRecord>
  {
    var b := SummaryLengths(|Words(chunk)|);
    match p.summarize(chunk, b.maxLen, b.minLen)
    case Success(_) => []
    case Failure(e) => [LogRecord(Warning, SummaryFailurePrefix + e)]
  }

  /** `[q["generated_text"] for q in questions_output if "generated_text" in q]`. */
  function GeneratedTexts(outputs: seq<map<string, string>>): (texts: seq<string>)
    ensures |texts| <= |outputs|
    ensures forall t :: t in texts ==> exists o :: o in outputs && "generated_text" in o && o["generated_text"] == t
    ensures forall o :: o in outputs && "generated_text" in o ==> o["generated_text"] in texts
  {
    if outputs == [] then []
    else
      var rest := GeneratedTexts(outputs[1..]);
      var o := outputs[0];
      assert forall o' :: o' in outputs[1..] ==> o' in outputs;
      if "generated_text" in o then [o["generated_text"]] + rest else rest
  }

  predicate Distinct(s: seq<string>)
  {
    forall i, j :: 0 <= i < j < |s| ==> s[i] != s[j]
  }

  /** `list(set(s))`. Python leaves the order of the list unspecified; this
      model keeps first occurrences in order. */
  function Dedup(s: seq<string>): (r: seq<string>)
    ensures Distinct(r)
    ensures forall x :: x in r <==> x in s
    ensures |r| <= |s|
  {
    if s == [] then []
    else
      var rest := Dedup(s[..|s| - 1]);
      var x := s[|s| - 1];
      assert forall y :: y in s <==> y in s[..|s| - 1] || y == x;
      if x in rest then rest else rest + [x]
  }

  /** A sequence without repetitions has as many elements as its set. */
  lemma {:induction false} DistinctCard(s: seq<string>)
    requires Distinct(s)
    ensures |set x | x in s| == |s|
  {
    if s != [] {
      var init := s[..|s| - 1];
      DistinctCard(init);
      assert (set x | x in s) == (set x | x in init) + {s[|s| - 1]};
      assert s[|s| - 1] !in init;
    }
  }

  /** `chunk_result["questions"]`: at most three pairwise distinct
      questions, each the `generated_text` of some output; as many as there
      are distinct texts, up to three; none when question generation
      raised. */
  function ChunkQuestions(chunk: string, p: Pipelines): (qs: seq<string>)
    ensures |qs| <= MaxQuestions
    ensures Distinct(qs)
    ensures p.generate(QgPrefix + chunk).Failure? ==> qs == []
    ensures p.generate(QgPrefix + chunk).Success? ==>
      var texts := GeneratedTexts(p.generate(QgPrefix + chunk).value);
      && (forall q :: q in qs ==> q in texts)
      && |qs| == Min(MaxQuestions, |set t | t in texts|)
  {
    match p.generate(QgPrefix + chunk)
    case Failure(_) => []
    case Success(outputs) =>
      var texts := GeneratedTexts(outputs);
      var d := Dedup(texts);
      DistinctCard(d);
      assert (set t | t in d) == (set t | t in texts);
      var qs := d[..Min(MaxQuestions, |d|)];
      assert forall q :: q in qs ==> q in d;
      qs
  }

  function QuestionLog(chunk: string, p: Pipelines): seq<LogRecord>
  {
    match p.generate(QgPrefix + chunk)
    case Failure(e) => [LogRecord(Warning, QuestionFailurePrefix + e)]
    case Success(_) => []
  }

  /** `answer_output.get("answer", "No answer found")`, or the default when
      the QA call raised. */
  function AnswerText(r: Result<map<string, string>, string>): string
  {
    match r
    case Success(m) => if "answer" in m then m["answer"] else NoAnswer
    case Failure(_) => NoAnswer
  }

  /** `chunk_result["answers"]`. */
  function AnswerMap(questions: seq<string>, chunk: string, p: Pipelines): map<string, string>
  {
    map q | q in questions :: AnswerText(p.answer(q, chunk))
  }

  function AnswerLog(q: string, chunk: string, p: Pipelines): seq<LogRecord>
  {
    match p.answer(q, chunk)
    case Failure(e) => [LogRecord(Warning, AnswerFailureMessage(q, e))]
    case Success(_) => []
  }

  function AnswerLogs(questions: seq<string>, chunk: string, p: Pipelines): seq<LogRecord>
  {
    if questions == [] then []
    else AnswerLogs(questions[..|questions| - 1], chunk, p) + AnswerLog(questions[|questions| - 1], chunk, p)
  }

  /** One more turn of the answer loop adds the question's answer and its
      log record, if any. */
  lemma AnswerStep(questions: seq<string>, chunk: string, p: Pipelines, i: nat)
    requires i < |questions|
    ensures var q := questions[i];
      AnswerMap(questions[..i + 1], chunk, p) == AnswerMap(questions[..i], chunk, p)[q := AnswerText(p.answer(q, chunk))]
    ensures AnswerLogs(questions[..i + 1], chunk, p) == AnswerLogs(questions[..i], chunk, p) + AnswerLog(questions[i], chunk, p)
  {
    var prefix := questions[..i + 1];
    assert prefix[..i] == questions[..i] && prefix[i] == questions[i];
    assert forall x :: x in prefix <==> x in questions[..i] || x == questions[i];
  }

  /** The loop over the questions that fills `answers`: its keys are exactly
      the questions, each mapped to the QA answer or to the default. */
  method AnswerQuestions(questions: seq<string>, chunk: string, p: Pipelines)
    returns (answers: map<string, string>, log: seq<LogRecord>)
    ensures answers.Keys == set q | q in questions
    ensures forall q :: q in questions ==>
      answers[q] == (if p.answer(q, chunk).Success? && "answer" in p.answer(q, chunk).value
                     then p.answer(q, chunk).value["answer"] else NoAnswer)
    ensures answers == AnswerMap(questions, chunk, p)
    ensures log == AnswerLogs(questions, chunk, p)
  {
    answers := map[];
    log := [];
    for i := 0 to |questions|
      invariant answers == AnswerMap(questions[..i], chunk, p)
      invariant log == AnswerLogs(questions[..i], chunk, p)
    {
      var q := questions[i];
      AnswerStep(questions, chunk, p, i);
      var bestAnswer := NoAnswer;
      match p.answer(q, chunk) {
        case Success(output) =>
          bestAnswer := if "answer" in output then output["answer"] else NoAnswer;
        case Failure(e) =>
          log := log + [LogRecord(Warning, AnswerFailureMessage(q, e))];
      }
      answers := answers[q := bestAnswer];
    }
    assert questions[..|questions|] == questions;
  }

  /** The dictionary built for one chunk. */
  function ChunkResultOf(chunk: string, p: Pipelines): ChunkResult
  {
    var questions := ChunkQuestions(chunk, p);
    ChunkResult(ChunkSummary(chunk, p), questions, AnswerMap(questions, chunk, p))
  }

  /** The records logged while processing one chunk, in the order logged. */
  function ChunkLog(chunk: string, p: Pipelines): seq<LogRecord>
  {
    SummaryLog(chunk, p) + QuestionLog(chunk, p) + AnswerLogs(ChunkQuestions(chunk, p), chunk, p)
  }

  function ChunkLogs(chunks: seq<string>, p: Pipelines): seq<LogRecord>
  {
    if chunks == [] then []
    else ChunkLogs(chunks[..|chunks| - 1], p) + ChunkLog(chunks[|chunks| - 1], p)
  }

  /** Every pipeline call made for the chunk returned without raising. */
  predicate ChunkCallsSucceed(chunk: string, p: Pipelines)
  {
    var b := SummaryLengths(|Words(chunk)|);
    && p.summarize(chunk, b.maxLen, b.minLen).Success?
    && p.generate(QgPrefix + chunk).Success?
    && forall q :: q in ChunkQuestions(chunk, p) ==> p.answer(q, chunk).Success?
  }

  lemma {:induction false} AnswerLogsEmpty(questions: seq<string>, chunk: string, p: Pipelines)
    ensures AnswerLogs(questions, chunk, p) == [] <==> forall q :: q in questions ==> p.answer(q, chunk).Success?
  {
    if questions != [] {
      var init := questions[..|questions| - 1];
      AnswerLogsEmpty(init, chunk, p);
      assert forall q :: q in questions <==> q in init || q == questions[|questions| - 1];
    }
  }

  /** A chunk logs nothing exactly when all its pipeline calls succeed. */
  lemma ChunkLogEmpty(chunk: string, p: Pipelines)
    ensures ChunkLog(chunk, p) == [] <==> ChunkCallsSucceed(chunk, p)
  {
    AnswerLogsEmpty(ChunkQuestions(chunk, p), chunk, p);
  }

  lemma {:induction false} ChunkLogsEmpty(chunks: seq<string>, p: Pipelines)
    ensures ChunkLogs(chunks, p) == [] <==> forall c :: c in chunks ==> ChunkCallsSucceed(c, p)
  {
    if chunks != [] {
      var init := chunks[..|chunks| - 1];
      ChunkLogsEmpty(init, p);
      ChunkLogEmpty(chunks[|chunks| - 1], p);
      assert forall c :: c in chunks <==> c in init || c == chunks[|chunks| - 1];
    }
  }

  lemma ChunkLogsNone(chunks: seq<string>, p: Pipelines)
    requires forall c :: c in chunks ==> ChunkCallsSucceed(c, p)
    ensures ChunkLogs(chunks, p) == []
  {
    ChunkLogsEmpty(chunks, p);
  }

  /** The summary `try` block of `process_pdf`'s loop. */
  method SummarizeChunk(chunk: string, p: Pipelines) returns (summary: string, log: seq<LogRecord>)
    ensures summary == ChunkSummary(chunk, p)
    ensures log == SummaryLog(chunk, p)
  {
    log := [];
    var lengths := SummaryLengths(|Words(chunk)|);
    match p.summarize(chunk, lengths.maxLen, lengths.minLen) {
      case Success(s) =>
        summary := s;
      case Failure(e) =>
        log := log + [LogRecord(Warning, SummaryFailurePrefix + e)];
        summary := SummaryFallback;
    }
  }

  /** The question `try` block of `process_pdf`'s loop. */
  method GenerateQuestions(chunk: string, p: Pipelines) returns (questions: seq<string>, log: seq<LogRecord>)
    ensures questions == ChunkQuestions(chunk, p)
    ensures log == QuestionLog(chunk, p)
  {
    questions := [];
    log := [];
    match p.generate(QgPrefix + chunk) {
      case Success(outputs) =>
        questions := GeneratedTexts(outputs);
        questions := Dedup(questions);
        questions := questions[..Min(MaxQuestions, |questions|)];
      case Failure(e) =>
        log := log + [LogRecord(Warning, QuestionFailurePrefix + e)];
    }
  }

  /** The body of `process_pdf`'s loop for one chunk: the summary with its
      length bounds, the questions, the answers, each call guarded by its own
      `try`. */
  method ProcessChunk(chunk: string, p: Pipelines) returns (result: ChunkResult, log: seq<LogRecord>)
    ensures result == ChunkResultOf(chunk, p)
    ensures log == ChunkLog(chunk, p)
  {
    var summary, summaryLog := SummarizeChunk(chunk, p);
    var questions, questionLog := GenerateQuestions(chunk, p);
    var answers, answerLog := AnswerQuestions(questions, chunk, p);
    log := summaryLog + questionLog + answerLog;
    result := ChunkResult(summary, questions, answers);
  }

  // ---------------------------------------------------------- process_pdf

  /** `results` after the loop over `chunks`. */
  function ChunkResults(chunks: seq<string>, p: Pipelines): seq<ChunkResult>
  {
    if chunks == [] then []
    else ChunkResults(chunks[..|chunks| - 1], p) + [ChunkResultOf(chunks[|chunks| - 1], p)]
  }

  lemma {:induction false} ChunkResultsLength(chunks: seq<string>, p: Pipelines)
    ensures |ChunkResults(chunks, p)| == |chunks|
  {
    if chunks != [] {
      ChunkResultsLength(chunks[..|chunks| - 1], p);
    }
  }

  lemma {:induction false} ChunkResultAt(chunks: seq<string>, p: Pipelines, k: nat)
    requires k < |chunks|
    ensures k < |ChunkResults(chunks, p)| && ChunkResults(chunks, p)[k] == ChunkResultOf(chunks[k], p)
  {
    var init := chunks[..|chunks| - 1];
    ChunkResultsLength(init, p);
    if k < |init| {
      ChunkResultAt(init, p, k);
      assert chunks[k] == init[k];
    }
  }

  /** One result per chunk, in the chunks' order. */
  lemma ChunkResultsAt(chunks: seq<string>, p: Pipelines)
    ensures |ChunkResults(chunks, p)| == |chunks|
    ensures forall k :: 0 <= k < |chunks| ==> ChunkResults(chunks, p)[k] == ChunkResultOf(chunks[k], p)
  {
    ChunkResultsLength(chunks, p);
    forall k | 0 <= k < |chunks| ensures ChunkResults(chunks, p)[k] == ChunkResultOf(chunks[k], p) {
      ChunkResultAt(chunks, p, k);
    }
  }

  /** `[chunk["summary"] for chunk in results]`. */
  function Summaries(results: seq<ChunkResult>): seq<string>
  {
    seq(|results|, k requires 0 <= k < |results| => results[k].summary)
  }

  /** The dictionary `process_pdf` returns for the given per-chunk results. */
  function Document(results: seq<ChunkResult>): SummaryDocument
  {
    SummaryDocument(JoinWith(SummarySeparator, Summaries(results)), results)
  }

  /** What `process_pdf(pdf_path)` returns or raises, and what it logs. */
  function ProcessPdfSpec(pdf: PdfSource, p: Pipelines): Run
  {
    var text := ExtractedText(pdf);
    if text == "" then Run(Failure(NoTextMessage), ExtractLog(pdf))
    else
      var chunks := TextChunks(text);
      Run(Success(Document(ChunkResults(chunks, p))), ExtractLog(pdf) + ChunkLogs(chunks, p))
  }

  /** A run over non-empty text whose chunk loop logged nothing returns the
      document and logs nothing. */
  lemma ProcessPdfClean(pdf: PdfSource, p: Pipelines)
    requires pdf.Success? && ExtractedText(pdf) != ""
    requires ChunkLogs(TextChunks(ExtractedText(pdf)), p) == []
    ensures ProcessPdfSpec(pdf, p).outcome.Success?
    ensures ProcessPdfSpec(pdf, p).log == []
  {
    var chunks := TextChunks(ExtractedText(pdf));
    assert ProcessPdfSpec(pdf, p).log == ExtractLog(pdf) + ChunkLogs(chunks, p);
  }

  /** The document has one result per chunk of the text, in order, at least
      one of them; the overall summary joins the chunk summaries with a blank
      line. An empty text raises instead. */
  lemma ProcessPdfShape(pdf: PdfSource, p: Pipelines)
    ensures var run := ProcessPdfSpec(pdf, p);
      var text := ExtractedText(pdf);
      && (text == "" <==> run.outcome == Failure(NoTextMessage))
      && (text != "" ==>
            var doc := run.outcome.value;
            && |doc.chunks| == ChunkCount(|Words(text)|) >= 1
            && (forall k :: 0 <= k < |doc.chunks| ==> doc.chunks[k] == ChunkResultOf(TextChunks(text)[k], p))
            && doc.summary == JoinWith(SummarySeparator, Summaries(doc.chunks)))
  {
    var text := ExtractedText(pdf);
    if text != "" {
      var chunks := TextChunks(text);
      ChunkResultsAt(chunks, p);
      WordsEmpty(text);
      assert !IsSpace(text[0]);
      ChunkCountMeaning(|Words(text)|, 0);
    }
  }

  /** One more turn of the loop over the chunks appends the chunk's result
      and its log records. */
  lemma ChunkStep(chunks: seq<string>, p: Pipelines, k: nat)
    requires k < |chunks|
    ensures ChunkResults(chunks[..k + 1], p) == ChunkResults(chunks[..k], p) + [ChunkResultOf(chunks[k], p)]
    ensures ChunkLogs(chunks[..k + 1], p) == ChunkLogs(chunks[..k], p) + ChunkLog(chunks[k], p)
  {
    var prefix := chunks[..k + 1];
    assert prefix[..k] == chunks[..k] && prefix[k] == chunks[k];
  }

  /** `process_pdf(pdf_path)`: extraction, chunking, and the loop that builds
      one result per chunk. */
  method ProcessPdf(pdf: PdfSource, p: Pipelines) returns (run: Run)
    ensures run == ProcessPdfSpec(pdf, p)
  {
    var text, log := ExtractText(pdf);
    if text == "" {
      return Run(Failure(NoTextMessage), log);
    }
    var textChunks := ChunkText(text);
    var results, chunkLog := ProcessChunks(textChunks, p);
    run := Run(Success(Document(results)), log + chunkLog);
  }

  /** The loop of `process_pdf` over the text chunks. */
  method ProcessChunks(textChunks: seq<string>, p: Pipelines) returns (results: seq<ChunkResult>, log: seq<LogRecord>)
    ensures results == ChunkResults(textChunks, p)
    ensures log == ChunkLogs(textChunks, p)
  {
    results := [];
    log := [];
    for k := 0 to |textChunks|
      invariant results == ChunkResults(textChunks[..k], p)
      invariant log == ChunkLogs(textChunks[..k], p)
    {
      ChunkStep(textChunks, p, k);
      var result, chunkLog := ProcessChunk(textChunks[k], p);
      results := results + [result];
      log := log + chunkLog;
    }
    assert textChunks[..|textChunks|] == textChunks;
  }

  // ----------------------------------------------------------- entry point

  function LevelName(level: Level): string
  {
    match level
    case Warning => "WARNING"
    case Error => "ERROR"
  }

  /** The line the default logging format `%(levelname)s:%(name)s:%(message)s`
      writes for a record of the root logger: it ends with a newline, and the
      level and the message can be read back from it. */
  function FormatRecord(r: LogRecord): string
  {
    LevelName(r.level) + ":root:" + r.message + "\n"
  }

  /** Reads a formatted line back: the level name, the logger name `root`,
      the message, and the final newline. */
  function RecordOf(line: string): Option<LogRecord>
  {
    var w := "WARNING:root:";
    var e := "ERROR:root:";
    if line == [] || line[|line| - 1] != '\n' then None
    else if |w| < |line| && line[..|w|] == w then Some(LogRecord(Warning, line[|w|..|line| - 1]))
    else if |e| < |line| && line[..|e|] == e then Some(LogRecord(Error, line[|e|..|line| - 1]))
    else None
  }

  /** A formatted line ends with a newline, and the record can be read back
      from it. */
  lemma RecordOfFormat(r: LogRecord)
    ensures var line := FormatRecord(r);
      line != [] && line[|line| - 1] == '\n' && RecordOf(line) == Some(r)
  {
    var line := FormatRecord(r);
    var head := LevelName(r.level) + ":root:";
    assert line == head + r.message + "\n";
    assert line[..|head|] == head;
    assert line[|head|..|line| - 1] == r.message;
    if r.level == Error {
      assert line[0] == 'E';
    }
  }

  /** The text the log records leave on stderr: empty exactly when nothing
      was logged, and ending with the last record's line. */
  function StderrText(log: seq<LogRecord>): (text: string)
    ensures text == [] <==> log == []
    ensures log != [] ==> var line := FormatRecord(log[|log| - 1]);
      |line| <= |text| && text[|text| - |line|..] == line
  {
    if log == [] then ""
    else StderrText(log[..|log| - 1]) + FormatRecord(log[|log| - 1])
  }

  function ErrorJson(message: string): Json
  {
    JObject(map["error" := JString(message)])
  }

  function ChunkJson(c: ChunkResult): Json
  {
    JObject(map[
      "summary" := JString(c.summary),
      "questions" := JArray(seq(|c.questions|, i requires 0 <= i < |c.questions| => JString(c.questions[i]))),
      "answers" := JObject(map q | q in c.answers :: JString(c.answers[q]))])
  }

  /** The JSON value `json.dumps(output)` is given for the document. */
  function DocumentJson(doc: SummaryDocument): Json
  {
    JObject(map[
      "summary" := JString(doc.summary),
      "chunks" := JArray(seq(|doc.chunks|, i requires 0 <= i < |doc.chunks| => ChunkJson(doc.chunks[i])))])
  }

  /** What the process writes and returns when started with `argv`. A failure
      while loading the pickle (or a missing pipeline) is an uncaught
      exception: Python prints a traceback and exits with status 1. */
  function RunModelSpec(argv: seq<string>, loadFailure: Option<string>, pdf: PdfSource, p: Pipelines,
                        dumps: Json -> string): ProcessOutput
  {
    if loadFailure.Some? then ProcessOutput("", TracebackHeader + loadFailure.value, 1)
    else if |argv| < 2 then ProcessOutput(dumps(ErrorJson(UsageMessage)) + "\n", "", 1)
    else RunOutput(ProcessPdfSpec(pdf, p), dumps)
  }

  /** What the `try` block of the entry point prints and logs for the outcome
      of `process_pdf`. */
  function RunOutput(run: Run, dumps: Json -> string): ProcessOutput
  {
    match run.outcome
    case Success(doc) => ProcessOutput(dumps(DocumentJson(doc)) + "\n", StderrText(run.log), 0)
    case Failure(e) =>
      ProcessOutput(dumps(ErrorJson(e)) + "\n",
                    StderrText(run.log + [LogRecord(Error, UnhandledPrefix + e)]), 0)
  }

  /** The script's module body and `__main__` block. */
  method RunModel(argv: seq<string>, loadFailure: Option<string>, pdf: PdfSource, p: Pipelines,
                  dumps: Json -> string) returns (out: ProcessOutput)
    ensures out == RunModelSpec(argv, loadFailure, pdf, p, dumps)
    ensures loadFailure.None? && |argv| >= 2 ==> out.exitCode == 0
    ensures out.stderr == "" ==> loadFailure.None? && (|argv| < 2 || ProcessPdfSpec(pdf, p).outcome.Success?)
  {
    if loadFailure.Some? {
      return ProcessOutput("", TracebackHeader + loadFailure.value, 1);
    }
    if |argv| < 2 {
      return ProcessOutput(dumps(ErrorJson(UsageMessage)) + "\n", "", 1);
    }
    var run := ProcessPdf(pdf, p);
    match run.outcome
    case Success(output) =>
      out := ProcessOutput(dumps(DocumentJson(output)) + "\n", StderrText(run.log), 0);
    case Failure(e) =>
      var log := run.log + [LogRecord(Error, UnhandledPrefix + e)];
      out := ProcessOutput(dumps(ErrorJson(e)) + "\n", StderrText(log), 0);
  }
}
