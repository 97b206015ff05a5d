// The reply generator (`ReplyGenerator`): the research findings turned
// into prompt context, one reply drafted by the language model, a batch of
// replies, and the console text of a reply.
module Reply {
  import opened Wrappers
  import opened Seqs
  import opened Text
  import opened Values
  import opened Services
  import opened EmailProcessor
  import Research

  /** What `generate_reply` returns: the drafted reply with the email it
      answers, or the error with the email's id and sender (no subject). */
  datatype ReplyResult =
    | Replied(reply: string, originalEmailId: Option<string>, originalFrom: string,
              originalSubject: string, generatedAt: string, usedResearch: bool)
    | ReplyFailed(error: string, originalEmailId: Option<string>, originalFrom: string)

  const TopicPrefix: string := "\n📌 Topic: "
  const ContextSources := 3
  const ResearchNote: string := "\n[✓ This reply was informed by research data]"

  // ---------------------------------------------------------------------
  // The research context
  // ---------------------------------------------------------------------

  /** The line of the `n`-th source of a topic; AttributeError when the
      item is not a dictionary (`item.get`). */
  function SourceLine(n: nat, item: Value): Result<string>
  {
    if item.VDict? then
      Ok("   " + NatToString(n) + ". " + Show(GetOr(item, "title", NotAvailable)) +
         " (" + Show(GetOr(item, "url", NotAvailable)) + ")")
    else Raised(AttributeErrorMessage)
  }

  /** The lines of `items`, numbered from 1. */
  function SourceLines(items: seq<Value>): (r: Result<seq<string>>)
    ensures r.Ok? <==> forall i :: 0 <= i < |items| ==> items[i].VDict?
    ensures r.Ok? ==> |r.value| == |items|
    ensures r.Raised? ==> r.message == AttributeErrorMessage
  {
    if items == [] then Ok([])
    else
      var n := |items| - 1;
      DictsSnoc(items, items[..n]);
      match SourceLines(items[..n])
      case Raised(message) => Raised(message)
      case Ok(lines) =>
        match SourceLine(|items|, items[n])
        case Raised(message) => Raised(message)
        case Ok(line) => Ok(lines + [line])
  }

  lemma DictsSnoc(items: seq<Value>, front: seq<Value>)
    requires items != [] && front == items[..|items| - 1]
    ensures (forall i :: 0 <= i < |items| ==> items[i].VDict?) <==>
      (forall i :: 0 <= i < |front| ==> front[i].VDict?) && items[|front|].VDict?
  {
    assert forall i :: 0 <= i < |front| ==> front[i] == items[i];
  }

  /** The elements of `v[:3]`; `None` when `v` cannot be sliced. */
  function FirstSources(v: Value): (r: Option<seq<Value>>)
    ensures r.Some? ==> |r.value| <= ContextSources
  {
    match v
    case VList(xs) => Some(Prefix(xs, ContextSources))
    case VTuple(xs) => Some(Prefix(xs, ContextSources))
    case VStr(s) =>
      var cut := Prefix(s, ContextSources);
      Some(seq(|cut|, i requires 0 <= i < |cut| => VStr([cut[i]])))
    case _ => None
  }

  /** Whether a research entry records a failed search (`"error" in
      result`); `None` when the test itself raises. */
  function Errored(result: Value): Option<bool>
  {
    In(VStr("error"), result)
  }

  /** The lines of one research entry: none for a failed search, otherwise
      the topic and at most three sources. */
  function TopicLines(entry: (Value, Value)): (r: Result<seq<string>>)
    ensures Errored(entry.1) == Some(true) ==> r == Ok([])
    ensures r.Ok? && Errored(entry.1) == Some(false) ==>
      1 <= |r.value| <= 1 + ContextSources && r.value[0] == TopicPrefix + Show(entry.0)
  {
    match Errored(entry.1)
    case None => Raised(TypeErrorMessage)
    case Some(failed) => if failed then Ok([]) else SearchLines(entry.0, entry.1)
  }

  /** The lines of a successful search: its query and first sources;
      AttributeError when the entry is not a dictionary (`result.get`). */
  function SearchLines(query: Value, result: Value): (r: Result<seq<string>>)
    ensures r.Ok? ==> 1 <= |r.value| <= 1 + ContextSources && r.value[0] == TopicPrefix + Show(query)
  {
    if !result.VDict? then Raised(AttributeErrorMessage)
    else
      match FirstSources(GetOr(result, "results", VList([])))
      case None => Raised(TypeErrorMessage)
      case Some(items) => Then(Ok([TopicPrefix + Show(query)]), SourceLines(items))
  }

  /** The lines of all research entries, in dictionary order. */
  function ContextLines(entries: seq<(Value, Value)>): Result<seq<string>>
  {
    if entries == [] then Ok([])
    else Then(ContextLines(entries[..|entries| - 1]), TopicLines(entries[|entries| - 1]))
  }

  /** `_format_research_context(research)`. */
  function ResearchContext(research: Value): Result<string>
  {
    match In(VStr("results"), research)
    case None => Raised(TypeErrorMessage)
    case Some(present) =>
      if !present then Ok("")
      else if !research.VDict? then Raised(TypeErrorMessage)
      else
        var results := Get(research, "results").value;
        if !results.VDict? then Raised(AttributeErrorMessage)
        else
          match ContextLines(results.entries)
          case Raised(message) => Raised(message)
          case Ok(lines) => Ok(Join("\n", lines))
  }

  /** Research without a `results` key gives an empty context. */
  lemma NoResultsNoContext(research: Value)
    requires research.VDict? && !Has(research, "results")
    ensures ResearchContext(research) == Ok("")
  {
    assert In(VStr("results"), research) == Some(false);
  }

  predicate Kept(entry: (Value, Value))
  {
    Errored(entry.1) != Some(true)
  }

  /** Failed searches contribute nothing: the context is the one of the
      other entries alone. */
  lemma {:induction false} ContextSkipsFailures(entries: seq<(Value, Value)>)
    ensures ContextLines(entries) == ContextLines(Filter(entries, Kept))
  {
    if entries != [] {
      var n := |entries| - 1;
      var last := entries[n];
      ContextSkipsFailures(entries[..n]);
      var kept := Filter(entries[..n], Kept);
      assert Filter(entries, Kept) == kept + Filter([last], Kept) by {
        assert entries == entries[..n] + [last];
        FilterAppend(entries[..n], [last], Kept);
      }
      if Kept(last) {
        assert Filter([last], Kept) == [last];
        ContextLinesSnoc(kept, last);
      } else {
        assert Filter([last], Kept) == [];
        assert kept + [] == kept;
        assert TopicLines(last) == Ok([]);
        var earlier := ContextLines(kept);
        if earlier.Ok? {
          assert earlier.value + [] == earlier.value;
        }
      }
    }
  }

  lemma ContextLinesSnoc(entries: seq<(Value, Value)>, last: (Value, Value))
    ensures ContextLines(entries + [last]) == Then(ContextLines(entries), TopicLines(last))
  {
    assert (entries + [last])[..|entries|] == entries;
  }

  /** Each kept entry gives its topic line and at most three source lines. */
  lemma {:induction false} ContextBound(entries: seq<(Value, Value)>)
    ensures ContextLines(entries).Ok? ==> |ContextLines(entries).value| <= (1 + ContextSources) * |entries|
  {
    if entries != [] {
      ContextBound(entries[..|entries| - 1]);
    }
  }

  // ---------------------------------------------------------------------
  // The context of a research report
  // ---------------------------------------------------------------------

  /** The source lines of a search's first items, on the research agent's
      own records. */
  function ReportSourceLines(items: seq<Research.ResultItem>): (r: seq<string>)
    ensures |r| == |items|
  {
    if items == [] then []
    else
      var item := items[|items| - 1];
      ReportSourceLines(items[..|items| - 1]) +
      ["   " + NatToString(|items|) + ". " + Research.ShowOptional(item.title) +
       " (" + Research.ShowOptional(item.url) + ")"]
  }

  /** The lines of one entry of a report: nothing for a failed search,
      otherwise the query and its first three sources. */
  function ReportTopicLines(entry: (string, Research.SearchOutcome)): seq<string>
  {
    if entry.1.SearchFailed? then []
    else [TopicPrefix + entry.0] + ReportSourceLines(Prefix(entry.1.results, ContextSources))
  }

  function ReportContextLines(entries: seq<(string, Research.SearchOutcome)>): seq<string>
  {
    if entries == [] then []
    else ReportContextLines(entries[..|entries| - 1]) + ReportTopicLines(entries[|entries| - 1])
  }

  lemma ShowOptionalStr(o: Option<string>)
    ensures Show(OptionalStr(o)) == Research.ShowOptional(o)
  {
  }

  lemma {:induction false} ReportSources(items: seq<Research.ResultItem>)
    ensures SourceLines(Map(items, Research.ItemValue)) == Ok(ReportSourceLines(items))
  {
    if items != [] {
      var n := |items| - 1;
      assert Map(items, Research.ItemValue)[..n] == Map(items[..n], Research.ItemValue);
      ReportSources(items[..n]);
      Research.ItemFields(items[n]);
      ShowOptionalStr(items[n].title);
      ShowOptionalStr(items[n].url);
    }
  }

  lemma ReportTopic(entry: (string, Research.SearchOutcome))
    ensures TopicLines(Research.EntryValue(entry)) == Ok(ReportTopicLines(entry))
  {
    Research.OutcomeFields(entry.1);
    var v := Research.OutcomeValue(entry.1);
    if entry.1.Searched? {
      var values := Map(entry.1.results, Research.ItemValue);
      SearchedTopic(entry.0, v, entry.1.results);
    } else {
      assert Errored(v) == Some(true);
    }
  }

  /** The first three items of a search's result list, as dictionaries. */
  lemma FirstOfList(results: seq<Research.ResultItem>)
    ensures FirstSources(VList(Map(results, Research.ItemValue))) ==
            Some(Map(Prefix(results, ContextSources), Research.ItemValue))
  {
    assert Prefix(Map(results, Research.ItemValue), ContextSources) ==
           Map(Prefix(results, ContextSources), Research.ItemValue);
  }

  lemma SearchedTopic(query: string, v: Value, results: seq<Research.ResultItem>)
    requires v.VDict? && Errored(v) == Some(false)
    requires Get(v, "results") == Some(VList(Map(results, Research.ItemValue)))
    ensures TopicLines((VStr(query), v)) ==
      Ok([TopicPrefix + query] + ReportSourceLines(Prefix(results, ContextSources)))
  {
    assert TopicLines((VStr(query), v)) == SearchLines(VStr(query), v);
    SearchedLines(query, v, results);
  }

  lemma SearchedLines(query: string, v: Value, results: seq<Research.ResultItem>)
    requires v.VDict? && Get(v, "results") == Some(VList(Map(results, Research.ItemValue)))
    ensures SearchLines(VStr(query), v) ==
      Ok([TopicPrefix + query] + ReportSourceLines(Prefix(results, ContextSources)))
  {
    FirstOfList(results);
    ReportSources(Prefix(results, ContextSources));
    SearchLinesOf(query, v, VList(Map(results, Research.ItemValue)),
      Map(Prefix(results, ContextSources), Research.ItemValue),
      ReportSourceLines(Prefix(results, ContextSources)));
  }

  /** The lines of a successful search, from its first sources' lines. */
  lemma SearchLinesOf(query: string, v: Value, list: Value, items: seq<Value>, lines: seq<string>)
    requires v.VDict? && Get(v, "results") == Some(list)
    requires FirstSources(list) == Some(items) && SourceLines(items) == Ok(lines)
    ensures SearchLines(VStr(query), v) == Ok([TopicPrefix + query] + lines)
  {
    assert GetOr(v, "results", VList([])) == list;
    assert Show(VStr(query)) == query;
  }

  lemma {:induction false} ReportEntries(entries: seq<(string, Research.SearchOutcome)>)
    ensures ContextLines(Map(entries, Research.EntryValue)) == Ok(ReportContextLines(entries))
  {
    if entries != [] {
      var n := |entries| - 1;
      assert Map(entries, Research.EntryValue)[..n] == Map(entries[..n], Research.EntryValue);
      ReportEntries(entries[..n]);
      ReportTopic(entries[n]);
    }
  }

  /** A report from the research agent always gives a context: one topic
      line per successful query, in order, with at most three sources
      each, and nothing for a failed search. */
  lemma ReportContext(report: Research.Report)
    ensures PromptContext(Research.ReportValue(report)) == Ok(Join("\n", ReportContextLines(report.results)))
  {
    Research.ReportFields(report);
    ReportEntries(report.results);
  }

  // ---------------------------------------------------------------------
  // One reply
  // ---------------------------------------------------------------------

  /** `', '.join(extracted.get(key, []))`: TypeError unless the value is
      iterable and holds only strings. */
  function Listed(extracted: Value, key: string): Result<string>
    requires extracted.VDict?
  {
    match JoinValue(", ", GetOr(extracted, key, VList([])))
    case None => Raised(TypeErrorMessage)
    case Some(text) => Ok(text)
  }

  /** The research context of the prompt: only for truthy research. */
  function PromptContext(research: Value): Result<string>
  {
    if Truthy(research) then ResearchContext(research) else Ok("")
  }

  /** The exception building the prompt raises, if any: first the
      research context, then the three lists of the extracted data. These
      are outside the `try`, so they propagate. */
  function PromptFailure(extracted: Value, research: Value): (r: Option<string>)
  {
    var context := PromptContext(research);
    if context.Raised? then Some(context.message)
    else if !extracted.VDict? then Some(AttributeErrorMessage)
    else if Listed(extracted, "key_topics").Raised? then Some(TypeErrorMessage)
    else if Listed(extracted, "action_items").Raised? then Some(TypeErrorMessage)
    else if Listed(extracted, "decision_needed").Raised? then Some(TypeErrorMessage)
    else None
  }

  /** `generate_reply(email, extracted, research)` given the model's
      completion and the time read after it; `research` is `VNone` when
      none is given. The prompt wording is not modelled: the completion is
      given. */
  function Generated(email: IncomingEmail, extracted: Value, research: Value, completion: Completion, now: string)
    : (r: Result<ReplyResult>)
    ensures r.Raised? <==> PromptFailure(extracted, research).Some?
    ensures r.Ok? ==> r.value.originalEmailId == email.id && r.value.originalFrom == email.sender
    ensures r.Ok? ==> (r.value.ReplyFailed? <==> !(completion.ChatReply? && completion.content.Some?))
    ensures r.Ok? && completion.ChatFailed? ==> r.value.error == completion.message
    ensures r.Ok? && r.value.Replied? ==>
      r.value.reply == Strip(completion.content.value) && r.value.originalSubject == email.subject &&
      r.value.generatedAt == now && (r.value.usedResearch <==> research != VNone)
  {
    match PromptFailure(extracted, research)
    case Some(message) => Raised(message)
    case None =>
      match completion
      case ChatFailed(message) => Ok(ReplyFailed(message, email.id, email.sender))
      case ChatReply(content) =>
        if content.None? then Ok(ReplyFailed(NoneStripMessage, email.id, email.sender))
        else Ok(Replied(Strip(content.value), email.id, email.sender, email.subject, now, research != VNone))
  }

  /** Research that is given is reported as used even when it adds no
      context, as an empty dictionary does. */
  lemma EmptyResearchCountsAsUsed(email: IncomingEmail, extracted: Value, reply: string, now: string)
    requires PromptFailure(extracted, VDict([])).None?
    ensures PromptContext(VDict([])) == Ok("")
    ensures Generated(email, extracted, VDict([]), ChatReply(Some(reply)), now).value.usedResearch
  {
  }

  // ---------------------------------------------------------------------
  // Batches
  // ---------------------------------------------------------------------

  /** The research of the i-th email: none without a research list,
      otherwise the i-th entry (IndexError when the list is short). */
  function ResearchFor(researchList: seq<Value>, i: nat): Result<Value>
  {
    if researchList == [] then Ok(VNone)
    else if i < |researchList| then Ok(researchList[i])
    else Raised(IndexErrorMessage)
  }

  /** The reply to the i-th email of a batch: its research is looked up
      first, then its extracted data. */
  function ReplyAt(email: IncomingEmail, i: nat, extractedList: seq<Value>, researchList: seq<Value>,
                   completion: Completion, now: string): (r: Result<ReplyResult>)
    ensures r.Ok? ==> i < |extractedList| && (researchList == [] || i < |researchList|)
    ensures r.Ok? ==>
      var research := if researchList == [] then VNone else researchList[i];
      Generated(email, extractedList[i], research, completion, now) == r
  {
    match ResearchFor(researchList, i)
    case Raised(message) => Raised(message)
    case Ok(research) =>
      if i < |extractedList| then Generated(email, extractedList[i], research, completion, now)
      else Raised(IndexErrorMessage)
  }

  /** One step of `generate_batch_replies`. */
  function ReplyStep(extractedList: seq<Value>, researchList: seq<Value>, completions: nat -> Completion,
                     times: nat -> string): (IncomingEmail, nat) -> Result<ReplyResult>
  {
    (email: IncomingEmail, i: nat) => ReplyAt(email, i, extractedList, researchList, completions(i), times(i))
  }

  /** `generate_batch_replies(emails, extracted_list, research_list)`; an
      empty `researchList` stands for a missing or empty list. */
  function Replies(emails: seq<IncomingEmail>, extractedList: seq<Value>, researchList: seq<Value>,
                   completions: nat -> Completion, times: nat -> string): Result<seq<ReplyResult>>
  {
    Collect(emails, ReplyStep(extractedList, researchList, completions, times))
  }

  /** A completed batch has one reply per email, in order, each drafted
      with that email's extracted data and research (none without a
      list); lists shorter than the emails make it raise. */
  lemma RepliesOnePerEmail(emails: seq<IncomingEmail>, extractedList: seq<Value>, researchList: seq<Value>,
                           completions: nat -> Completion, times: nat -> string)
    ensures var r := Replies(emails, extractedList, researchList, completions, times);
      r.Ok? ==> |r.value| == |emails| && |extractedList| >= |emails| && (researchList == [] || |researchList| >= |emails|)
    ensures var r := Replies(emails, extractedList, researchList, completions, times);
      r.Ok? ==> forall i :: 0 <= i < |emails| ==>
        var research := if researchList == [] then VNone else researchList[i];
        Generated(emails[i], extractedList[i], research, completions(i), times(i)) == Ok(r.value[i])
  {
    var step := ReplyStep(extractedList, researchList, completions, times);
    CollectOk(emails, step);
    if emails != [] && Replies(emails, extractedList, researchList, completions, times).Ok? {
      var last := |emails| - 1;
      assert ReplyAt(emails[last], last, extractedList, researchList, completions(last), times(last)).Ok?;
    }
  }

  // ---------------------------------------------------------------------
  // The display
  // ---------------------------------------------------------------------

  /** `format_for_display(reply_result)`, as lines. An error result has
      no subject, so its header reads `RE: None`; the `.get` default for a
      missing reply never applies, because a drafted reply always has one. */
  function DisplayLines(result: ReplyResult): (r: seq<string>)
    ensures |r| == (if result.Replied? && result.usedResearch then 7 else 6)
    ensures r[4] == (if result.ReplyFailed? then "❌ ERROR: " + result.error else result.reply)
    ensures result.Replied? && result.usedResearch ==> r[5] == ResearchNote
    ensures r[2] == "RE: " + (if result.Replied? then result.originalSubject else "None")
  {
    var header := ["\n" + Rule, "📬 REPLY TO: " + result.originalFrom,
                   "RE: " + (if result.Replied? then result.originalSubject else "None"), Rule + "\n"];
    var body :=
      if result.ReplyFailed? then ["❌ ERROR: " + result.error]
      else [result.reply] + (if result.usedResearch then [ResearchNote] else []);
    header + body + ["\n" + Rule]
  }

  // ---------------------------------------------------------------------
  // The generator
  // ---------------------------------------------------------------------

  /** `_format_research_context(research)`, entry by entry. */
  method FormatResearchContext(research: Value) returns (r: Result<string>)
    ensures r == ResearchContext(research)
  {
    var present := In(VStr("results"), research);
    if present.None? {
      return Raised(TypeErrorMessage);
    }
    if !present.value {
      return Ok("");
    }
    if !research.VDict? {
      return Raised(TypeErrorMessage);
    }
    var results := Get(research, "results").value;
    if !results.VDict? {
      return Raised(AttributeErrorMessage);
    }
    var entries := results.entries;
    var context: seq<string> := [];
    for i := 0 to |entries|
      invariant ContextLines(entries[..i]) == Ok(context)
    {
      assert entries[..i + 1][..i] == entries[..i];
      var lines := EntryLines(entries[i]);
      if lines.Raised? {
        ContextStopsAt(entries, i + 1);
        return Raised(lines.message);
      }
      context := context + lines.value;
    }
    assert entries[..|entries|] == entries;
    r := Ok(Join("\n", context));
  }

  /** Once the lines of a prefix of the entries raised, all of them do. */
  lemma {:induction false} ContextStopsAt(entries: seq<(Value, Value)>, k: nat)
    requires k <= |entries| && ContextLines(entries[..k]).Raised?
    ensures ContextLines(entries) == ContextLines(entries[..k])
  {
    if k < |entries| {
      var n := |entries| - 1;
      PrefixOfPrefix(entries, n, k);
      ContextStopsAt(entries[..n], k);
      var front := ContextLines(entries[..n]);
      assert front.Raised?;
      assert ContextLines(entries) == Then(front, TopicLines(entries[n]));
    } else {
      assert entries[..k] == entries;
    }
  }

  /** The lines of one research entry, source by source. */
  method EntryLines(entry: (Value, Value)) returns (r: Result<seq<string>>)
    ensures r == TopicLines(entry)
  {
    var (query, result) := entry;
    var failed := Errored(result);
    if failed.None? {
      return Raised(TypeErrorMessage);
    }
    if failed.value {
      return Ok([]);
    }
    if !result.VDict? {
      return Raised(AttributeErrorMessage);
    }
    var sources := FirstSources(GetOr(result, "results", VList([])));
    if sources.None? {
      return Raised(TypeErrorMessage);
    }
    var lines := NumberedSources(sources.value);
    if lines.Raised? {
      return lines;
    }
    r := Ok([TopicPrefix + Show(query)] + lines.value);
  }

  /** The numbered source lines of one entry, source by source. */
  method NumberedSources(items: seq<Value>) returns (r: Result<seq<string>>)
    ensures r == SourceLines(items)
  {
    var lines: seq<string> := [];
    for i := 0 to |items|
      invariant SourceLines(items[..i]) == Ok(lines)
    {
      PrefixOfPrefix(items, i + 1, i);
      if !items[i].VDict? {
        return Raised(AttributeErrorMessage);
      }
      var line := SourceLine(i + 1, items[i]);
      lines := lines + [line.value];
    }
    assert items[..|items|] == items;
    r := Ok(lines);
  }

  /** `generate_reply(email, extracted, research)`. */
  method GenerateReply(email: IncomingEmail, extracted: Value, research: Value, completion: Completion, now: string)
    returns (r: Result<ReplyResult>)
    ensures r == Generated(email, extracted, research, completion, now)
  {
    var context: Result<string> := Ok("");
    if Truthy(research) {
      context := FormatResearchContext(research);
    }
    if context.Raised? {
      return Raised(context.message);
    }
    if !extracted.VDict? {
      return Raised(AttributeErrorMessage);
    }
    var topics := Listed(extracted, "key_topics");
    if topics.Raised? {
      return Raised(TypeErrorMessage);
    }
    var actions := Listed(extracted, "action_items");
    if actions.Raised? {
      return Raised(TypeErrorMessage);
    }
    var decisions := Listed(extracted, "decision_needed");
    if decisions.Raised? {
      return Raised(TypeErrorMessage);
    }
    if completion.ChatFailed? {
      return Ok(ReplyFailed(completion.message, email.id, email.sender));
    }
    if completion.content.None? {
      return Ok(ReplyFailed(NoneStripMessage, email.id, email.sender));
    }
    r := Ok(Replied(Strip(completion.content.value), email.id, email.sender, email.subject, now, research != VNone));
  }

  /** `generate_batch_replies(emails, extracted_list, research_list)`. */
  method GenerateBatchReplies(emails: seq<IncomingEmail>, extractedList: seq<Value>, researchList: seq<Value>,
                              completions: nat -> Completion, times: nat -> string)
    returns (r: Result<seq<ReplyResult>>)
    ensures r == Replies(emails, extractedList, researchList, completions, times)
  {
    ghost var step := ReplyStep(extractedList, researchList, completions, times);
    var replies: seq<ReplyResult> := [];
    for i := 0 to |emails|
      invariant Collect(emails[..i], step) == Ok(replies)
    {
      assert emails[..i + 1][..i] == emails[..i];
      assert step(emails[i], i) == ReplyAt(emails[i], i, extractedList, researchList, completions(i), times(i));
      var research := VNone;
      if researchList != [] {
        if i >= |researchList| {
          CollectStopsAt(emails, i + 1, step);
          return Raised(IndexErrorMessage);
        }
        research := researchList[i];
      }
      if i >= |extractedList| {
        CollectStopsAt(emails, i + 1, step);
        return Raised(IndexErrorMessage);
      }
      var reply := GenerateReply(emails[i], extractedList[i], research, completions(i), times(i));
      if reply.Raised? {
        CollectStopsAt(emails, i + 1, step);
        return Raised(reply.message);
      }
      replies := replies + [reply.value];
    }
    assert emails[..|emails|] == emails;
    r := Ok(replies);
  }

  /** `format_for_display(reply_result)`. */
  method FormatForDisplay(result: ReplyResult) returns (text: string)
    ensures text == Join("\n", DisplayLines(result))
  {
    var output := ["\n" + Rule, "📬 REPLY TO: " + result.originalFrom];
    output := output + ["RE: " + (if result.Replied? then result.originalSubject else "None")];
    output := output + [Rule + "\n"];
    if result.ReplyFailed? {
      output := output + ["❌ ERROR: " + result.error];
    } else {
      output := output + [result.reply];
      if result.usedResearch {
        output := output + [ResearchNote];
      }
    }
    output := output + ["\n" + Rule];
    assert output == DisplayLines(result);
    text := Join("\n", output);
  }
}
