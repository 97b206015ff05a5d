// The document agent (`DocumentAgent`): finds PDF files, and answers a
// question about a document. A question the language model calls simple is
// answered by the model alone; otherwise the text of the first PDF is read
// (by the PDF reader, else by OCR), condensed chunk by chunk when it is
// long, searched for a passage, and the web is consulted only when the
// document is empty or the passage says nothing was found.
module Document {
  import opened Wrappers
  import opened Seqs
  import opened Text
  import opened Values
  import opened Services
  import Linkup

  // ---------------------------------------------------------------------
  // scan_directory_for_pdfs
  // ---------------------------------------------------------------------

  /** One directory `os.walk` visits: its path and the names of its files. */
  datatype WalkEntry = WalkEntry(root: string, files: seq<string>)

  /** `os.path.join(root, name)`. */
  function PathJoin(root: string, name: string): string
  {
    if StartsWith(name, "/") || root == "" then name
    else if EndsWith(root, "/") then root + name
    else root + "/" + name
  }

  /** A file the scan keeps: its lower-cased name ends in ".pdf" and, when a
      year is given, the name contains the year's text. */
  predicate KeepPdf(name: string, year: Value)
  {
    EndsWith(Lower(name), ".pdf") && (!Truthy(year) || Contains(name, Show(year)))
  }

  /** The paths of the files of one directory that `keep` accepts, in
      listing order. */
  function KeptIn(root: string, files: seq<string>, keep: string -> bool): seq<string>
  {
    if files == [] then []
    else
      var n := |files| - 1;
      KeptIn(root, files[..n], keep) + (if keep(files[n]) then [PathJoin(root, files[n])] else [])
  }

  /** The paths a walk yields, directory by directory. */
  function Scanned(walk: seq<WalkEntry>, keep: string -> bool): seq<string>
  {
    if walk == [] then []
    else
      var n := |walk| - 1;
      Scanned(walk[..n], keep) + KeptIn(walk[n].root, walk[n].files, keep)
  }

  /** The test the scan applies to each file name. */
  function PdfFilter(year: Value): string -> bool
  {
    name => KeepPdf(name, year)
  }

  /** `scan_directory_for_pdfs(directory, year)`, given the directories the
      walk visits. */
  method ScanDirectoryForPdfs(walk: seq<WalkEntry>, year: Value) returns (pdfs: seq<string>)
    ensures pdfs == Scanned(walk, PdfFilter(year))
  {
    var keep := PdfFilter(year);
    pdfs := [];
    for i := 0 to |walk|
      invariant pdfs == Scanned(walk[..i], keep)
    {
      var root := walk[i].root;
      var files := walk[i].files;
      ghost var before := pdfs;
      for j := 0 to |files|
        invariant pdfs == before + KeptIn(root, files[..j], keep)
      {
        assert files[..j + 1][..j] == files[..j];
        if keep(files[j]) {
          pdfs := pdfs + [PathJoin(root, files[j])];
        }
      }
      assert files[..|files|] == files;
      assert walk[..i + 1][..i] == walk[..i];
    }
    assert walk[..|walk|] == walk;
  }

  /** A directory contributes exactly the paths of its kept files, and at
      most one path per file. */
  lemma {:induction false} KeptInMembers(root: string, files: seq<string>, keep: string -> bool, path: string)
    ensures |KeptIn(root, files, keep)| <= |files|
    ensures path in KeptIn(root, files, keep) <==>
      exists j :: 0 <= j < |files| && keep(files[j]) && path == PathJoin(root, files[j])
  {
    if files != [] {
      var n := |files| - 1;
      KeptInMembers(root, files[..n], keep, path);
      if path in KeptIn(root, files[..n], keep) {
        var j :| 0 <= j < n && keep(files[..n][j]) && path == PathJoin(root, files[..n][j]);
        assert files[j] == files[..n][j];
      }
      if exists j :: 0 <= j < |files| && keep(files[j]) && path == PathJoin(root, files[j]) {
        var j :| 0 <= j < |files| && keep(files[j]) && path == PathJoin(root, files[j]);
        if j < n {
          assert files[..n][j] == files[j];
        }
      }
    }
  }

  /** The scan returns a path exactly when some directory keeps it. */
  lemma {:induction false} ScannedMembers(walk: seq<WalkEntry>, keep: string -> bool, path: string)
    ensures path in Scanned(walk, keep) <==>
      exists i :: 0 <= i < |walk| && path in KeptIn(walk[i].root, walk[i].files, keep)
  {
    if walk != [] {
      var n := |walk| - 1;
      ScannedMembers(walk[..n], keep, path);
      var last := KeptIn(walk[n].root, walk[n].files, keep);
      assert Scanned(walk, keep) == Scanned(walk[..n], keep) + last;
      assert path in Scanned(walk, keep) <==> path in Scanned(walk[..n], keep) || path in last;
      if path in Scanned(walk[..n], keep) {
        var i :| 0 <= i < n && path in KeptIn(walk[..n][i].root, walk[..n][i].files, keep);
        assert walk[i] == walk[..n][i];
      }
      if exists i :: 0 <= i < |walk| && path in KeptIn(walk[i].root, walk[i].files, keep) {
        var i :| 0 <= i < |walk| && path in KeptIn(walk[i].root, walk[i].files, keep);
        if i < n {
          assert walk[..n][i] == walk[i];
        }
      }
    }
  }

  /** The scan returns exactly the joined paths of the files whose names
      end in ".pdf" (in any case) and, when a year is given, contain it. */
  lemma ScanFindsPdfs(walk: seq<WalkEntry>, year: Value, path: string)
    ensures path in Scanned(walk, PdfFilter(year)) <==>
      exists i, j :: 0 <= i < |walk| && 0 <= j < |walk[i].files| && KeepPdf(walk[i].files[j], year) &&
        path == PathJoin(walk[i].root, walk[i].files[j])
  {
    var keep := PdfFilter(year);
    ScannedMembers(walk, keep, path);
    forall i | 0 <= i < |walk|
      ensures path in KeptIn(walk[i].root, walk[i].files, keep) <==>
        exists j :: 0 <= j < |walk[i].files| && KeepPdf(walk[i].files[j], year) &&
          path == PathJoin(walk[i].root, walk[i].files[j])
    {
      KeptInMembers(walk[i].root, walk[i].files, keep, path);
    }
  }

  // ---------------------------------------------------------------------
  // Chunking
  // ---------------------------------------------------------------------

  /** Longest text sent to the model in one piece. */
  const MaxChunkSize: nat := 8000

  /** `[text[i:i+8000] for i in range(0, len(text), 8000)]`. */
  function Chunks(text: string): seq<string>
    decreases |text|
  {
    if text == [] then []
    else if |text| <= MaxChunkSize then [text]
    else [text[..MaxChunkSize]] + Chunks(text[MaxChunkSize..])
  }

  /** The chunks are consecutive slices of the text: together they are the
      text, none is empty or longer than the limit, and all but the last
      have exactly the limit's length. */
  lemma {:induction false} ChunksPartition(text: string)
    ensures Concat(Chunks(text)) == text
    ensures forall i :: 0 <= i < |Chunks(text)| ==> 0 < |Chunks(text)[i]| <= MaxChunkSize
    ensures forall i :: 0 <= i < |Chunks(text)| - 1 ==> |Chunks(text)[i]| == MaxChunkSize
    ensures |Chunks(text)| == (|text| + MaxChunkSize - 1) / MaxChunkSize
    decreases |text|
  {
    if |text| > MaxChunkSize {
      var rest := text[MaxChunkSize..];
      ChunksPartition(rest);
      ConcatCons(text[..MaxChunkSize], Chunks(rest));
      assert text == text[..MaxChunkSize] + rest;
      var cs := Chunks(text);
      assert cs == [text[..MaxChunkSize]] + Chunks(rest);
      assert forall i :: 1 <= i < |cs| ==> cs[i] == Chunks(rest)[i - 1];
    } else if text != [] {
      assert Chunks(text) == [text];
      assert Concat([text]) == Concat([]) + text;
    }
  }

  // ---------------------------------------------------------------------
  // process
  // ---------------------------------------------------------------------

  /** The questions the agent puts to the language model; the wording of
      each prompt is not part of this model, only what it is built from. */
  datatype Prompt =
    | Classification(question: Value)
    | DirectAnswer(question: Value)
    | ChunkSummary(chunk: string)
    | ContextSummary(text: string)
    | PassageSearch(contextSummary: Value, text: string, question: Value)
    | WebAnswer(question: Value, standards: string)

  /** What the PDF reader produced for a path: the text of all its pages,
      or an exception after the text of the pages read so far. */
  datatype PdfRead = PdfText(text: string) | PdfFailed(partial: string, message: string)

  /** What OCR produced for a path: its text, or an exception. */
  datatype OcrRead = OcrText(text: string) | OcrFailed(message: string)

  /** The text extracted for the question with the steps it logged, or the
      step describing why both readers failed. */
  datatype Extraction = Extracted(text: string, steps: seq<string>) | ExtractionFailed(step: string)

  /** The dictionary `process` returns. */
  datatype Answer = Answer(steps: seq<string>, sources: seq<Linkup.Source>, result: Value)

  const PdfStep: string := "Extracted text from PDF 1 (all pages)."
  const OcrStep: string := "Extracted text from PDF 1 using OCR (all pages)."
  const NoPdfTextMessage: string := "No text extracted with PyPDF2."
  const NoOcrTextMessage: string := "No text extracted with OCR."
  const ExtractionErrorResult: string := "Error during PDF extraction (PyPDF2 and OCR failed)."
  const LlmOnlyStep: string := "Answered using LLM only."
  const PassageStep: string := "Identified relevant passage/section using LLM."
  const WebSearchStep: string := "Searched for 2025 information or standards using Linkup."
  const WebAnswerStep: string := "Answered using web information only."
  const PdfOnlyStep: string := "Answered using PDF only. No web or directory search needed."
  const WebQueryPrefix: string := "2025 information or standards for: "
  /** `LinkupWrapper.search`'s default number of results. */
  const WebResults: nat := 5

  /** The passages that mean the document holds no answer. */
  const NotFoundPhrases: seq<string> :=
    ["not found in document", "not found", "no relevant content found", "document unrelated", "document is empty"]

  function ClassifiedStep(classification: Value): string
  {
    "Classified question as: " + Show(classification)
  }

  function FailureStep(pdfError: string, ocrError: string): string
  {
    "Failed to extract text: " + pdfError + "; OCR error: " + ocrError
  }

  /** A question the model's classification calls simple. */
  predicate IsSimple(classification: Value)
  {
    Contains(Lower(Show(classification)), "simple")
  }

  /** The paths `process` reads: only the first of a list, the value itself
      otherwise. */
  function FilePaths(paths: Value): seq<Value>
  {
    if paths.VList? then (if paths.items == [] then [] else [paths.items[0]]) else [paths]
  }

  /** OCR after the PDF reader failed with `pdfError`, having read `text`. */
  function WithOcr(text: string, pdfError: string, ocr: OcrRead): Extraction
  {
    match ocr
    case OcrText(t) =>
      if Strip(t) != "" then Extracted(text + t, [OcrStep])
      else ExtractionFailed(FailureStep(pdfError, NoOcrTextMessage))
    case OcrFailed(m) => ExtractionFailed(FailureStep(pdfError, m))
  }

  /** Reading one path: the PDF reader's text when it is not blank, else
      OCR's. */
  function ExtractFrom(path: Value, pdf: Value -> PdfRead, ocr: Value -> OcrRead): Extraction
  {
    match pdf(path)
    case PdfText(t) => if Strip(t) != "" then Extracted(t, [PdfStep]) else WithOcr(t, NoPdfTextMessage, ocr(path))
    case PdfFailed(partial, m) => WithOcr(partial, m, ocr(path))
  }

  /** The extraction loop of `process` over the paths it reads; an empty or
      `None` path is skipped. */
  function Extract(paths: Value, pdf: Value -> PdfRead, ocr: Value -> OcrRead): Extraction
  {
    var files := FilePaths(paths);
    if files == [] || !Truthy(files[0]) then Extracted("", [])
    else ExtractFrom(files[0], pdf, ocr)
  }

  /** The text after the chunking step: a text over the limit is replaced
      by its chunks' summaries joined with newlines (a summary that is not a
      string makes the join raise TypeError). */
  function Condensed(text: string, ask: Prompt -> Value): Result<string>
  {
    if |text| > MaxChunkSize then
      match JoinValue("\n", VList(Map(Chunks(text), c => ask(ChunkSummary(c)))))
      case None => Raised(TypeErrorMessage)
      case Some(joined) => Ok(joined)
    else Ok(text)
  }

  /** The web fallback runs when the document text is blank or the passage,
      stripped and lower-cased, is one of the not-found phrases. */
  predicate NeedsWeb(text: string, passage: Value)
  {
    Strip(text) == "" || (passage.VStr? && Lower(Strip(passage.s)) in NotFoundPhrases)
  }

  /** The snippets of the web sources, one per line. */
  function Standards(sources: seq<Linkup.Source>): string
  {
    Join("\n", Map(sources, (s: Linkup.Source) => s.snippet))
  }

  /** `process` from the passage search on, with the text condensed and the
      steps logged so far; `web` is the search client's answer to a query. */
  function Answered(question: Value, text: string, steps: seq<string>, ask: Prompt -> Value,
                    web: string -> ProviderResponse): Result<Answer>
  {
    var passage := ask(PassageSearch(ask(ContextSummary(text)), text, question));
    if NeedsWeb(text, passage) then WebAnswered(question, steps + [PassageStep], ask, web)
    else Ok(Answer(steps + [PassageStep, PdfOnlyStep], [], passage))
  }

  /** The web fallback: search for the question's current standards and
      let the model answer from the sources found. */
  function WebAnswered(question: Value, steps: seq<string>, ask: Prompt -> Value,
                       web: string -> ProviderResponse): Result<Answer>
  {
    if !question.VStr? then Raised(AttributeErrorMessage)
    else
      var sources := Linkup.SearchSources(web(WebQueryPrefix + Strip(question.s)), WebResults);
      Ok(Answer(steps + [WebSearchStep, WebAnswerStep], sources,
                ask(WebAnswer(question, Standards(sources)))))
  }

  /** `process(file_path_or_paths, question)` given the model `ask`, the
      PDF reader, OCR and the search client. */
  function Processed(paths: Value, question: Value, ask: Prompt -> Value, pdf: Value -> PdfRead,
                     ocr: Value -> OcrRead, web: string -> ProviderResponse): Result<Answer>
  {
    var classification := ask(Classification(question));
    var steps := [ClassifiedStep(classification)];
    if IsSimple(classification) then Ok(Answer(steps + [LlmOnlyStep], [], ask(DirectAnswer(question))))
    else match Extract(paths, pdf, ocr)
      case ExtractionFailed(step) => Ok(Answer(steps + [step], [], VStr(ExtractionErrorResult)))
      case Extracted(text, extracted) =>
        match Condensed(text, ask)
        case Raised(m) => Raised(m)
        case Ok(condensed) => Answered(question, condensed, steps + extracted, ask, web)
  }

  /** The summary loop: one model call per chunk, in chunk order. */
  method SummarizeChunks(chunks: seq<string>, ask: Prompt -> Value) returns (summaries: seq<Value>)
    ensures |summaries| == |chunks|
    ensures forall i :: 0 <= i < |chunks| ==> summaries[i] == ask(ChunkSummary(chunks[i]))
  {
    summaries := [];
    for i := 0 to |chunks|
      invariant |summaries| == i
      invariant forall j :: 0 <= j < i ==> summaries[j] == ask(ChunkSummary(chunks[j]))
    {
      var summary := ask(ChunkSummary(chunks[i]));
      summaries := summaries + [summary];
    }
  }

  /** The chunking step of `process`. */
  method Condense(text: string, ask: Prompt -> Value) returns (r: Result<string>)
    ensures r == Condensed(text, ask)
  {
    if |text| <= MaxChunkSize {
      return Ok(text);
    }
    var chunks := Chunks(text);
    var summaries := SummarizeChunks(chunks, ask);
    assert summaries == Map(chunks, c => ask(ChunkSummary(c)));
    var joined := JoinValue("\n", VList(summaries));
    if joined.None? {
      return Raised(TypeErrorMessage);
    }
    r := Ok(joined.value);
  }

  /** `process`, logging its steps as it goes. */
  method Process(paths: Value, question: Value, ask: Prompt -> Value, pdf: Value -> PdfRead,
                 ocr: Value -> OcrRead, web: string -> ProviderResponse) returns (r: Result<Answer>)
    ensures r == Processed(paths, question, ask, pdf, ocr, web)
  {
    var steps: seq<string> := [];
    var classification := ask(Classification(question));
    steps := steps + [ClassifiedStep(classification)];
    assert steps == [ClassifiedStep(classification)];
    if IsSimple(classification) {
      var answer := ask(DirectAnswer(question));
      steps := steps + [LlmOnlyStep];
      return Ok(Answer(steps, [], answer));
    }
    var extraction := Extract(paths, pdf, ocr);
    if extraction.ExtractionFailed? {
      return Ok(Answer(steps + [extraction.step], [], VStr(ExtractionErrorResult)));
    }
    steps := steps + extraction.steps;
    var condensed := Condense(extraction.text, ask);
    if condensed.Raised? {
      return Raised(condensed.message);
    }
    r := AnswerFromText(question, condensed.value, steps, ask, web);
  }

  /** `process` from the passage search on. */
  method AnswerFromText(question: Value, text: string, steps: seq<string>, ask: Prompt -> Value,
                web: string -> ProviderResponse) returns (r: Result<Answer>)
    ensures r == Answered(question, text, steps, ask, web)
  {
    var contextSummary := ask(ContextSummary(text));
    var passage := ask(PassageSearch(contextSummary, text, question));
    var log := steps + [PassageStep];
    if NeedsWeb(text, passage) {
      r := AskWeb(question, log, ask, web);
    } else {
      log := log + [PdfOnlyStep];
      assert log == steps + [PassageStep, PdfOnlyStep];
      r := Ok(Answer(log, [], passage));
    }
  }

  /** The web branch of `process`. */
  method AskWeb(question: Value, steps: seq<string>, ask: Prompt -> Value,
                web: string -> ProviderResponse) returns (r: Result<Answer>)
    ensures r == WebAnswered(question, steps, ask, web)
  {
    if !question.VStr? {
      return Raised(AttributeErrorMessage);
    }
    var query := WebQueryPrefix + Strip(question.s);
    var found := Linkup.Search(query, WebResults, web(query));
    var sources := Linkup.SourcesOf(found);
    var log := steps + [WebSearchStep];
    var answer := ask(WebAnswer(question, Standards(sources)));
    log := log + [WebAnswerStep];
    assert log == steps + [WebSearchStep, WebAnswerStep];
    r := Ok(Answer(log, sources, answer));
  }

  // ---------------------------------------------------------------------
  // Properties of process
  // ---------------------------------------------------------------------

  /** A question the model calls simple is answered by the model alone: two
      steps, no web sources, and neither the document nor the web is read. */
  lemma SimpleIsModelOnly(paths: Value, question: Value, ask: Prompt -> Value, pdf: Value -> PdfRead,
                          ocr: Value -> OcrRead, web: string -> ProviderResponse,
                          paths2: Value, pdf2: Value -> PdfRead, ocr2: Value -> OcrRead, web2: string -> ProviderResponse)
    requires IsSimple(ask(Classification(question)))
    ensures var r := Processed(paths, question, ask, pdf, ocr, web);
      r == Ok(Answer([ClassifiedStep(ask(Classification(question))), LlmOnlyStep], [], ask(DirectAnswer(question)))) &&
      r == Processed(paths2, question, ask, pdf2, ocr2, web2)
  {
    assert [ClassifiedStep(ask(Classification(question)))] + [LlmOnlyStep] ==
           [ClassifiedStep(ask(Classification(question))), LlmOnlyStep];
  }

  /** Only the first path of a list is read; an empty list, an empty path or
      `None` reads nothing. */
  lemma FirstPathOnly(first: Value, rest: seq<Value>, pdf: Value -> PdfRead, ocr: Value -> OcrRead)
    ensures Extract(VList([first] + rest), pdf, ocr) == Extract(VList([first]), pdf, ocr)
    ensures !first.VList? ==> Extract(VList([first]), pdf, ocr) == Extract(first, pdf, ocr)
    ensures !Truthy(first) ==> Extract(VList([first] + rest), pdf, ocr) == Extracted("", [])
    ensures Extract(VList([]), pdf, ocr) == Extracted("", [])
  {
    assert ([first] + rest)[0] == first;
  }

  /** With nothing to read (no path), a question that is not simple is
      always answered from the web, whatever the passage search says. */
  lemma NoPathAsksWeb(question: Value, ask: Prompt -> Value, pdf: Value -> PdfRead,
                      ocr: Value -> OcrRead, web: string -> ProviderResponse)
    requires !IsSimple(ask(Classification(question))) && question.VStr?
    ensures var r := Processed(VNone, question, ask, pdf, ocr, web);
      r.Ok? &&
      r.value.sources == Linkup.SearchSources(web(WebQueryPrefix + Strip(question.s)), WebResults) &&
      r.value.result == ask(WebAnswer(question, Standards(r.value.sources)))
  {
    assert Extract(VNone, pdf, ocr) == Extracted("", []);
    assert Condensed("", ask) == Ok("");
    assert Strip("") == "";
  }

  /** Web sources appear only on the fallback path, and when the passage is
      a real answer it is the result, with no sources. */
  lemma WebOnlyOnFallback(question: Value, text: string, steps: seq<string>, ask: Prompt -> Value,
                          web: string -> ProviderResponse)
    ensures var r := Answered(question, text, steps, ask, web);
      var passage := ask(PassageSearch(ask(ContextSummary(text)), text, question));
      (r.Ok? && r.value.sources != [] ==> NeedsWeb(text, passage)) &&
      (!NeedsWeb(text, passage) ==> r == Ok(Answer(steps + [PassageStep, PdfOnlyStep], [], passage))) &&
      (r.Raised? <==> NeedsWeb(text, passage) && !question.VStr?)
  {
  }

  /** Every answer keeps the steps logged before the passage search, ends
      with the step naming where the answer came from, and cites at most as
      many web sources as one search returns. */
  lemma AnsweredSteps(question: Value, text: string, steps: seq<string>, ask: Prompt -> Value,
                      web: string -> ProviderResponse)
    requires Answered(question, text, steps, ask, web).Ok?
    ensures var a := Answered(question, text, steps, ask, web).value;
      |a.steps| >= |steps| + 2 && a.steps[..|steps|] == steps && a.steps[|steps|] == PassageStep &&
      (a.steps[|a.steps| - 1] == WebAnswerStep || a.steps[|a.steps| - 1] == PdfOnlyStep) &&
      |a.sources| <= WebResults
  {
    var passage := ask(PassageSearch(ask(ContextSummary(text)), text, question));
    if NeedsWeb(text, passage) {
      var w := WebAnswered(question, steps + [PassageStep], ask, web);
      assert Answered(question, text, steps, ask, web) == w;
      assert w.value.steps == steps + [PassageStep, WebSearchStep, WebAnswerStep];
    } else {
      var a := Answered(question, text, steps, ask, web).value;
      assert a.steps == steps + [PassageStep, PdfOnlyStep];
    }
  }

  /** A long text is replaced by exactly one summary per chunk, joined with
      newlines in chunk order. */
  lemma CondensedPerChunk(text: string, ask: Prompt -> Value)
    requires |text| > MaxChunkSize
    requires forall i :: 0 <= i < |Chunks(text)| ==> ask(ChunkSummary(Chunks(text)[i])).VStr?
    ensures var cs := Chunks(text);
      Condensed(text, ask) ==
        Ok(Join("\n", seq(|cs|, i requires 0 <= i < |cs| && ask(ChunkSummary(cs[i])).VStr? => ask(ChunkSummary(cs[i])).s)))
  {
    var cs := Chunks(text);
    var summaries := Map(cs, c => ask(ChunkSummary(c)));
    assert forall x :: x in summaries ==> x.VStr?;
    var mine := seq(|cs|, i requires 0 <= i < |cs| && ask(ChunkSummary(cs[i])).VStr? => ask(ChunkSummary(cs[i])).s);
    var theirs := seq(|summaries|, i requires 0 <= i < |summaries| => summaries[i].s);
    assert forall i :: 0 <= i < |mine| ==> mine[i] == theirs[i];
    assert mine == theirs;
    assert JoinValue("\n", VList(summaries)) == Some(Join("\n", theirs));
  }
}
