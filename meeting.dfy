// The meeting-preparation agent (`MeetingAgent`): recalls past interactions
// with a company from local memory, runs two web searches, asks the language
// model for a structured briefing (with a parser that never raises and a
// fixed fallback), and scores the result: a confidence in hundredths and a
// source-attribution breakdown in whole percent.
module Meeting {
  import opened Wrappers
  import opened Seqs
  import opened Text
  import opened Values
  import opened Services
  import opened Linkup
  import opened Memory

  /** Sources each of the two searches asks for. */
  const SearchLimit: int := 4

  function NewsQuery(company: string): string
  {
    company + " recent news announcements 2025 2026"
  }

  function IndustryQuery(company: string): string
  {
    company + " products funding strategy leadership"
  }

  // ---------------------------------------------------------------------
  // Parsing the model's reply
  // ---------------------------------------------------------------------

  /** `cleaned[start:end + 1]` from the first '{' to the last '}', when the
      text holds both; empty when the last '}' comes before the first '{'. */
  function BraceSpan(cleaned: string): (r: Option<string>)
    ensures r.Some? <==> Contains(cleaned, "{") && '}' in cleaned
    ensures r.Some? && r.value != [] ==> r.value[0] == '{' && r.value[|r.value| - 1] == '}'
  {
    var start := IndexOf(cleaned, "{");
    var end := RFind(cleaned, '}');
    if start != -1 && end != -1 then
      assert cleaned[start..start + 1] == "{";
      Some(Slice(cleaned, start, end + 1))
    else None
  }

  const UnparsedOverview: string := "Unable to parse briefing."
  const ReviewRawPoint: string := "Review the raw response above"

  /** The fixed briefing used when nothing in the reply parses. */
  function ParseFallback(content: string): Value
  {
    Dict([
      ("company_overview", VStr(UnparsedOverview)),
      ("past_context", VStr(Prefix(content, 200))),
      ("recent_news", VStr("")),
      ("talking_points", Strs([ReviewRawPoint])),
      ("risks_and_notes", VStr(""))])
  }

  /** `_parse_briefing_json`: the decoded cleaned reply, else the decoded
      brace span, else the fixed fallback; it never raises. */
  function ParseBriefingJson(content: string, parse: string -> ParseOutcome): (r: Value)
    ensures parse(Cleaned(content)).Parsed? ==> r == parse(Cleaned(content)).value
    ensures parse(Cleaned(content)).DecodeError? ==>
      match BraceSpan(Cleaned(content))
      case Some(span) => if parse(span).Parsed? then r == parse(span).value else r == ParseFallback(content)
      case None => r == ParseFallback(content)
  {
    var cleaned := Cleaned(content);
    match parse(cleaned)
    case Parsed(v) => v
    case DecodeError(_) =>
      match BraceSpan(cleaned)
      case Some(span) => if parse(span).Parsed? then parse(span).value else ParseFallback(content)
      case None => ParseFallback(content)
  }

  /** The parse fallback is a briefing dictionary with one talking point and
      the first 200 characters of the raw reply as its past context. */
  lemma ParseFallbackShape(content: string)
    ensures ParseFallback(content).VDict?
    ensures Get(ParseFallback(content), "company_overview") == Some(VStr(UnparsedOverview))
    ensures Get(ParseFallback(content), "past_context") == Some(VStr(Prefix(content, 200)))
    ensures Get(ParseFallback(content), "talking_points") == Some(Strs([ReviewRawPoint]))
    ensures |Prefix(content, 200)| <= 200 && content[..|Prefix(content, 200)|] == Prefix(content, 200)
  {
    var pairs := [
      ("company_overview", VStr(UnparsedOverview)),
      ("past_context", VStr(Prefix(content, 200))),
      ("recent_news", VStr("")),
      ("talking_points", Strs([ReviewRawPoint])),
      ("risks_and_notes", VStr(""))];
    DictGet(pairs, 0);
    DictGet(pairs, 1);
    DictGet(pairs, 3);
  }

  // ---------------------------------------------------------------------
  // Rendering a briefing
  // ---------------------------------------------------------------------

  /** The rule above and below the briefing's title block. */
  const BriefingRule: string := "═══════════════════════════════════════════"

  /** `f"  {i+1}. {p}"`. */
  function TalkingLine(i: nat, p: Value): string
  {
    "  " + NatToString(i + 1) + ". " + Show(p)
  }

  /** The numbered talking points, one per line. */
  function TalkingPoints(points: seq<Value>): string
  {
    Join("\n", seq(|points|, i requires 0 <= i < |points| => TalkingLine(i, points[i])))
  }

  /** No talking-point text exactly when there are no talking points, which
      is when the "No talking points generated." line stands in. */
  lemma TalkingPointsEmpty(points: seq<Value>)
    ensures TalkingPoints(points) == "" <==> points == []
  {
    if points != [] {
      var lines := seq(|points|, i requires 0 <= i < |points| => TalkingLine(i, points[i]));
      assert |lines[0]| > 0;
      JoinHeadNonEmpty(lines);
    }
  }

  lemma JoinHeadNonEmpty(lines: seq<string>)
    requires |lines| > 0 && |lines[0]| > 0
    ensures Join("\n", lines) != ""
  {
    if |lines| > 1 {
      assert Join("\n", lines) == lines[0] + "\n" + Join("\n", lines[1..]);
    }
  }

  // The headings and defaults of the briefing template.
  const OverviewHeading: string := "\U{1F4CB} COMPANY OVERVIEW"
  const PastHeading: string := "\U{1F504} PAST INTERACTIONS"
  const NewsHeading: string := "\U{1F4F0} RECENT NEWS & DEVELOPMENTS"
  const PointsHeading: string := "\U{1F4AC} RECOMMENDED TALKING POINTS"
  const RisksHeading: string := "\U{26A0}\U{FE0F} RISKS & NOTES"
  const NoPastDefault: string := "No past interactions found."
  const NoNewsDefault: string := "No recent news available."
  const NoPointsLine: string := "  No talking points generated."
  const NoRisksDefault: string := "None identified."

  /** The lines of the briefing template, before the final `strip()`. */
  function BriefingLines(company: string, preparedAt: string, data: Value, points: seq<Value>): seq<string>
    requires data.VDict?
  {
    var talking := TalkingPoints(points);
    [ "",
      BriefingRule,
      "  MEETING BRIEFING: " + Upper(company),
      "  Prepared: " + preparedAt,
      BriefingRule,
      "",
      OverviewHeading,
      Show(GetOr(data, "company_overview", VStr("N/A"))),
      "",
      PastHeading,
      Show(GetOr(data, "past_context", VStr(NoPastDefault))),
      "",
      NewsHeading,
      Show(GetOr(data, "recent_news", VStr(NoNewsDefault))),
      "",
      PointsHeading,
      if talking == "" then NoPointsLine else talking,
      "",
      RisksHeading,
      Show(GetOr(data, "risks_and_notes", VStr(NoRisksDefault))),
      "",
      BriefingRule,
      "" ]
  }

  /** `_format_briefing_text`; `None` where it raises: the data is not a
      dictionary, or its talking points cannot be iterated. */
  function FormatBriefingText(company: string, data: Value, preparedAt: string): (r: Option<string>)
    ensures r.Some? <==> data.VDict? && Iterate(GetOr(data, "talking_points", VList([]))).Some?
  {
    if !data.VDict? then None
    else
      match Iterate(GetOr(data, "talking_points", VList([])))
      case None => None
      case Some(points) => Some(Strip(Join("\n", BriefingLines(company, preparedAt, data, points))))
  }

  // ---------------------------------------------------------------------
  // Synthesis
  // ---------------------------------------------------------------------

  /** The text and the structured data of a briefing. */
  datatype BriefingResult = BriefingResult(briefingText: string, briefingData: Value)

  const FallbackPoints: seq<string> := [
    "Review past interaction history",
    "Ask about their current priorities",
    "Explore mutual opportunities",
    "Discuss timeline and next steps"]

  const FallbackNews: string := "Unable to fetch \U{2014} check Linkup API key."
  const FallbackRisks: string := "Briefing generated with limited data. Verify details manually."
  function FallbackData(company: string, summary: string): Value
  {
    Dict([
      ("company_overview", VStr("Meeting scheduled with " + company + ".")),
      ("past_context", VStr(summary)),
      ("recent_news", VStr(FallbackNews)),
      ("talking_points", Strs(FallbackPoints)),
      ("risks_and_notes", VStr(FallbackRisks))])
  }

  /** The fallback data is a dictionary whose past context is the memory
      summary and which has exactly the four fixed talking points. */
  lemma FallbackDataShape(company: string, summary: string)
    ensures FallbackData(company, summary).VDict?
    ensures Get(FallbackData(company, summary), "past_context") == Some(VStr(summary))
    ensures Get(FallbackData(company, summary), "talking_points") == Some(Strs(FallbackPoints))
    ensures |Strs(FallbackPoints).items| == 4
  {
    var pairs := [
      ("company_overview", VStr("Meeting scheduled with " + company + ".")),
      ("past_context", VStr(summary)),
      ("recent_news", VStr(FallbackNews)),
      ("talking_points", Strs(FallbackPoints)),
      ("risks_and_notes", VStr(FallbackRisks))];
    DictGet(pairs, 1);
    DictGet(pairs, 3);
  }

  /** `_fallback_briefing`: the fixed data and its rendering. */
  function FallbackBriefing(company: string, summary: string, preparedAt: string): (r: BriefingResult)
    ensures r.briefingData == FallbackData(company, summary)
    ensures FormatBriefingText(company, r.briefingData, preparedAt) == Some(r.briefingText)
  {
    var data := FallbackData(company, summary);
    FallbackDataShape(company, summary);
    BriefingResult(FormatBriefingText(company, data, preparedAt).value, data)
  }

  /** The formatting step of `_synthesize_briefing`: the data and its
      rendering, or the fallback when rendering raises. */
  function RenderOrFallback(company: string, summary: string, data: Value, preparedAt: string): (r: BriefingResult)
    ensures r.briefingData.VDict?
    ensures FormatBriefingText(company, r.briefingData, preparedAt) == Some(r.briefingText)
    ensures r.briefingData == data || r == FallbackBriefing(company, summary, preparedAt)
  {
    match FormatBriefingText(company, data, preparedAt)
    case None => FallbackBriefing(company, summary, preparedAt)
    case Some(text) => BriefingResult(text, data)
  }

  /** `_synthesize_briefing` after the model has answered with `reply`: an
      empty or failed reply, or data the formatter cannot render, gives the
      fallback; otherwise the parsed data and its rendering. The briefing
      data is always a dictionary. */
  function SynthesizeBriefing(company: string, summary: string, reply: LlmReply,
                              parse: string -> ParseOutcome, preparedAt: string): (r: BriefingResult)
    ensures r.briefingData.VDict?
  {
    if reply.content.None? || reply.content.value == "" then FallbackBriefing(company, summary, preparedAt)
    else RenderOrFallback(company, summary, ParseBriefingJson(reply.content.value, parse), preparedAt)
  }

  /** The briefing text is always the rendering of the briefing data. */
  lemma SynthesizedTextRendersData(company: string, summary: string, reply: LlmReply,
                                   parse: string -> ParseOutcome, preparedAt: string)
    ensures var r := SynthesizeBriefing(company, summary, reply, parse, preparedAt);
      FormatBriefingText(company, r.briefingData, preparedAt) == Some(r.briefingText)
  {
  }

  /** An empty reply, or one whose call failed (no content), gives the
      fallback briefing, whose past context is the memory summary and which
      has the four fixed talking points. */
  lemma EmptyReplyFallsBack(company: string, summary: string, reply: LlmReply,
                            parse: string -> ParseOutcome, preparedAt: string)
    requires reply.content.None? || reply.content.value == ""
    ensures var r := SynthesizeBriefing(company, summary, reply, parse, preparedAt);
      r == FallbackBriefing(company, summary, preparedAt) &&
      Get(r.briefingData, "past_context") == Some(VStr(summary)) &&
      Get(r.briefingData, "talking_points") == Some(Strs(FallbackPoints))
  {
    FallbackDataShape(company, summary);
  }

  /** Otherwise the data is what the parser made of the reply, unless the
      formatter could not render it, in which case it is the fallback. */
  lemma RepliedBriefing(company: string, summary: string, reply: LlmReply,
                        parse: string -> ParseOutcome, preparedAt: string)
    requires reply.content.Some? && reply.content.value != ""
    ensures var r := SynthesizeBriefing(company, summary, reply, parse, preparedAt);
      var data := ParseBriefingJson(reply.content.value, parse);
      if FormatBriefingText(company, data, preparedAt).Some? then r.briefingData == data
      else r == FallbackBriefing(company, summary, preparedAt)
  {
  }

  // ---------------------------------------------------------------------
  // Confidence
  // ---------------------------------------------------------------------

  /** `context.get('last_contact')` is truthy. */
  predicate Recent(lastContact: Option<Value>)
  {
    lastContact.Some? && Truthy(lastContact.value)
  }

  /** The confidence in hundredths: 30 for any past interaction, 30 for at
      least three web sources or 15 for one or two, 30 for talking points,
      10 for a known last contact. */
  function Confidence(total: nat, sourceCount: nat, talkingPoints: Value, lastContact: Option<Value>): (r: nat)
    ensures r <= 100
    ensures r == 100 <==> total > 0 && sourceCount >= 3 && Truthy(talkingPoints) && Recent(lastContact)
    ensures r == 0 <==> total == 0 && sourceCount == 0 && !Truthy(talkingPoints) && !Recent(lastContact)
  {
    (if total > 0 then 30 else 0)
    + (if sourceCount >= 3 then 30 else if sourceCount >= 1 then 15 else 0)
    + (if Truthy(talkingPoints) then 30 else 0)
    + (if Recent(lastContact) then 10 else 0)
  }

  /** `_calculate_confidence`. */
  method CalculateConfidence(ctx: CompanyContext, sourceCount: nat, briefingData: Value) returns (score: nat)
    requires briefingData.VDict?
    ensures score == Confidence(ctx.totalInteractions, sourceCount,
                                GetOr(briefingData, "talking_points", VNone), ctx.lastContact)
  {
    var s := 0;
    if ctx.totalInteractions > 0 {
      s := s + 30;
    }
    if sourceCount >= 3 {
      s := s + 30;
    } else if sourceCount >= 1 {
      s := s + 15;
    }
    if Truthy(GetOr(briefingData, "talking_points", VNone)) {
      s := s + 30;
    }
    if Recent(ctx.lastContact) {
      s := s + 10;
    }
    score := if s < 100 then s else 100;
  }

  // ---------------------------------------------------------------------
  // Source attribution
  // ---------------------------------------------------------------------

  datatype SectionSource = SectionSource(section: string, primarySource: string, sourcesUsed: seq<string>)

  /** The breakdown `_calculate_source_attribution` returns. */
  datatype Attribution = Attribution(
    memoryPct: int,
    linkupPct: int,
    llmPct: int,
    memoryInteractions: nat,
    linkupSourcesCount: nat,
    dataFreshness: string,
    sections: seq<SectionSource>,
    verificationStatus: string)

  /** The starting (memory, web, model) weights for each availability case. */
  function BaseWeights(hasMemory: bool, hasLinkup: bool): (w: (int, int, int))
    ensures w.0 + w.1 + w.2 == 100
    ensures !hasMemory ==> w.0 == 0
    ensures !hasLinkup ==> w.1 == 0
    ensures w.2 >= 30
  {
    if hasMemory && hasLinkup then (30, 40, 30)
    else if hasMemory then (50, 0, 50)
    else if hasLinkup then (0, 55, 45)
    else (0, 0, 100)
  }

  function InteractionBonus(total: nat): (b: nat)
    ensures b <= 10 && b <= 3 * total
  {
    if 3 * total < 10 then 3 * total else 10
  }

  function SourceBonus(sourceCount: nat): (b: nat)
    ensures b <= 10 && b <= 2 * sourceCount
  {
    if 2 * sourceCount < 10 then 2 * sourceCount else 10
  }

  /** The memory share in percent: the base weight plus the interaction bonus. */
  function MemoryShare(total: nat, sourceCount: nat): (r: int)
    ensures 0 <= r <= 60
    ensures r == 0 <==> total == 0
  {
    if total > 0 then BaseWeights(true, sourceCount > 0).0 + InteractionBonus(total) else 0
  }

  /** The web share in percent: the base weight plus the source bonus. */
  function LinkupShare(total: nat, sourceCount: nat): (r: int)
    ensures 0 <= r <= 65
    ensures r == 0 <==> sourceCount == 0
  {
    if sourceCount > 0 then BaseWeights(total > 0, true).1 + SourceBonus(sourceCount) else 0
  }

  function Sections(hasMemory: bool, hasLinkup: bool): (r: seq<SectionSource>)
    ensures |r| == 5
    ensures forall i :: 0 <= i < 5 ==> |r[i].sourcesUsed| > 0 && r[i].sourcesUsed[|r[i].sourcesUsed| - 1] == "LLM"
  {
    var web := if hasLinkup then ["Linkup"] else [];
    var mem := if hasMemory then ["Local Memory"] else [];
    [ SectionSource("company_overview", if hasLinkup then "Web Research (Linkup)" else "LLM Knowledge", web + ["LLM"]),
      SectionSource("past_context", if hasMemory then "Local Memory" else "LLM Knowledge", mem + ["LLM"]),
      SectionSource("recent_news", if hasLinkup then "Web Research (Linkup)" else "LLM Knowledge", web + ["LLM"]),
      SectionSource("talking_points", "LLM Synthesis", mem + web + ["LLM"]),
      SectionSource("risks_and_notes", "LLM Analysis", mem + web + ["LLM"]) ]
  }

  /** Cross-verified with both memory and the web, partially verified with
      exactly one of them, otherwise unverified. */
  function VerificationStatus(hasMemory: bool, hasLinkup: bool): (r: string)
    ensures r == "Cross-verified" <==> hasMemory && hasLinkup
    ensures r == "Partially verified" <==> hasMemory != hasLinkup
    ensures r == "Unverified" <==> !hasMemory && !hasLinkup
  {
    if hasMemory && hasLinkup then "Cross-verified"
    else if hasMemory || hasLinkup then "Partially verified"
    else "Unverified"
  }

  /** A weight out of a total of 100 rounds to itself as a percentage. */
  lemma RoundWholePercent(w: int)
    ensures RoundHalfEven(w * 100, 100) == w
  {
    assert (w * 100) / 100 == w && (w * 100) % 100 == 0;
  }

  /** The attribution reported for `total` past interactions, `sourceCount`
      web sources and the briefing data: the memory and web shares, the
      model's share as the rest of 100, the counts, the freshness, the
      verification status, and the per-section sources when there is data. */
  predicate AttributedAs(a: Attribution, total: nat, sourceCount: nat, briefingData: Value)
  {
    a.memoryPct == MemoryShare(total, sourceCount) &&
    a.linkupPct == LinkupShare(total, sourceCount) &&
    a.llmPct == 100 - a.memoryPct - a.linkupPct &&
    a.memoryInteractions == total && a.linkupSourcesCount == sourceCount &&
    a.dataFreshness == (if sourceCount > 0 then "Real-time" else "Cached only") &&
    a.verificationStatus == VerificationStatus(total > 0, sourceCount > 0) &&
    a.sections == if Truthy(briefingData) then Sections(total > 0, sourceCount > 0) else []
  }

  /** `_calculate_source_attribution`. */
  method CalculateSourceAttribution(ctx: CompanyContext, sourceCount: nat, briefingData: Value)
    returns (a: Attribution)
    ensures AttributedAs(a, ctx.totalInteractions, sourceCount, briefingData)
    ensures a.memoryPct + a.linkupPct + a.llmPct == 100
    ensures a.llmPct >= 10
    ensures ctx.totalInteractions == 0 && sourceCount == 0 ==> a.memoryPct == 0 && a.linkupPct == 0 && a.llmPct == 100
  {
    var hasMemory := ctx.totalInteractions > 0;
    var hasLinkup := sourceCount > 0;
    var memoryWeight, linkupWeight, llmWeight;
    if hasMemory && hasLinkup {
      memoryWeight, linkupWeight, llmWeight := 30, 40, 30;
    } else if hasMemory && !hasLinkup {
      memoryWeight, linkupWeight, llmWeight := 50, 0, 50;
    } else if !hasMemory && hasLinkup {
      memoryWeight, linkupWeight, llmWeight := 0, 55, 45;
    } else {
      memoryWeight, linkupWeight, llmWeight := 0, 0, 100;
    }
    if hasMemory {
      var bonus := InteractionBonus(ctx.totalInteractions);
      memoryWeight := memoryWeight + bonus;
      llmWeight := llmWeight - bonus;
    }
    if hasLinkup {
      var bonus := SourceBonus(sourceCount);
      linkupWeight := linkupWeight + bonus;
      llmWeight := llmWeight - bonus;
    }
    assert llmWeight >= 10;
    llmWeight := if llmWeight < 5 then 5 else llmWeight;
    var total := memoryWeight + linkupWeight + llmWeight;
    assert total == 100;
    RoundWholePercent(memoryWeight);
    RoundWholePercent(linkupWeight);
    var memoryPct := RoundHalfEven(memoryWeight * 100, total);
    var linkupPct := RoundHalfEven(linkupWeight * 100, total);
    var llmPct := 100 - memoryPct - linkupPct;
    var sections := if Truthy(briefingData) then Sections(hasMemory, hasLinkup) else [];
    var status := VerificationStatus(hasMemory, hasLinkup);
    a := Attribution(memoryPct, linkupPct, llmPct, ctx.totalInteractions, sourceCount,
                     if hasLinkup then "Real-time" else "Cached only", sections, status);
  }

  // ---------------------------------------------------------------------
  // The agent
  // ---------------------------------------------------------------------

  /** One entry of the reasoning trace shown while a briefing is prepared. */
  datatype ReasoningStep = ReasoningStep(step: nat, action: string, detail: string, status: string)

  /** The dictionary `prepare_briefing` returns. */
  datatype Briefing = Briefing(
    reasoningSteps: seq<ReasoningStep>,
    pastInteractions: CompanyContext,
    linkupSources: seq<Source>,
    result: string,
    briefingData: Value,
    confidence: nat,
    sourceAttribution: Attribution)

  // The texts of the reasoning trace: each step's action, its detail while
  // it runs, and its detail once complete.

  const RecallAction: string := "Searching local memory"
  const NewsAction: string := "Researching recent news"
  const IndustryAction: string := "Researching products & funding"
  const SynthesisAction: string := "Generating briefing"
  const CompletionAction: string := "Briefing complete"
  const SynthesisPending: string := "Synthesizing all data into a comprehensive meeting brief..."
  const SynthesisDone: string := "Briefing generated successfully."

  function RecallPending(company: string): string
  {
    "Looking for past emails and meetings with " + company + "..."
  }

  /** `f"Last contact: {last or 'Never'}"`. */
  function LastContactText(lastContact: Option<Value>): string
  {
    if Recent(lastContact) then Show(lastContact.value) else "Never"
  }

  function RecallDone(total: nat, lastContact: Option<Value>): string
  {
    "Found " + NatToString(total) + " past interaction(s). Last contact: " + LastContactText(lastContact) + "."
  }

  function NewsPending(company: string): string
  {
    "Searching Linkup for latest " + company + " news..."
  }

  function NewsDone(count: nat, company: string): string
  {
    "Found " + NatToString(count) + " news source(s) about " + company + "."
  }

  function IndustryPending(company: string): string
  {
    "Searching Linkup for " + company + " products, funding, strategy..."
  }

  function IndustryDone(count: nat): string
  {
    "Found " + NatToString(count) + " additional source(s)."
  }

  function CompletionDetail(total: nat, sourceCount: nat): string
  {
    "Compiled data from " + NatToString(total) + " past interaction(s) and " + NatToString(sourceCount) + " web source(s)."
  }

  /** Every step of the trace is complete and numbered by its position from 1. */
  predicate Completed(steps: seq<ReasoningStep>)
  {
    forall i :: 0 <= i < |steps| ==> steps[i].step == i + 1 && steps[i].status == "complete"
  }

  /** Appending a complete step numbered next keeps a trace complete. */
  lemma CompletedSnoc(steps: seq<ReasoningStep>, next: ReasoningStep)
    requires Completed(steps) && next.step == |steps| + 1 && next.status == "complete"
    ensures Completed(steps + [next])
  {
  }

  /** `reasoning_steps[-1]['status'] = 'complete'` together with the new detail. */
  function CompleteLast(steps: seq<ReasoningStep>, detail: string): (r: seq<ReasoningStep>)
    requires |steps| > 0
    ensures r == steps[..|steps| - 1] + [steps[|steps| - 1].(status := "complete", detail := detail)]
  {
    steps[|steps| - 1 := steps[|steps| - 1].(status := "complete", detail := detail)]
  }

  class MeetingAgent {
    const memory: MemoryStore

    constructor(memory: MemoryStore)
      ensures this.memory == memory
    {
      this.memory := memory;
    }

    /** `_search_news`: the recent-news search. The wrapper never raises,
        so the error branch around the call is never taken. */
    method SearchNews(company: string, response: ProviderResponse) returns (r: SearchResult)
      ensures SourcesOf(r) == SearchSources(response, SearchLimit)
      ensures |SourcesOf(r)| <= SearchLimit
    {
      r := Search(NewsQuery(company), SearchLimit, response);
    }

    /** `_search_industry`: the products, funding and strategy search. */
    method SearchIndustry(company: string, response: ProviderResponse) returns (r: SearchResult)
      ensures SourcesOf(r) == SearchSources(response, SearchLimit)
      ensures |SourcesOf(r)| <= SearchLimit
    {
      r := Search(IndustryQuery(company), SearchLimit, response);
    }

    /** Step 1 of `prepare_briefing`: recall the company from local memory;
        an exception of the memory store ends the briefing. */
    method RecallStep(company: string, steps: seq<ReasoningStep>)
      returns (context: Result<CompanyContext>, steps': seq<ReasoningStep>)
      requires |steps| == 0 && Completed(steps)
      ensures context == ContextOf(memory.emails, memory.conversations, company)
      ensures context.Ok? ==> |steps'| == 1 && Completed(steps')
      ensures context.Ok? ==>
        steps' == steps + [ReasoningStep(1, RecallAction, RecallDone(context.value.totalInteractions,
                                                                     context.value.lastContact), "complete")]
    {
      steps' := steps + [ReasoningStep(1, RecallAction, RecallPending(company), "running")];
      context := memory.GetCompanyContext(company);
      if context.Ok? {
        steps' := CompleteLast(steps', RecallDone(context.value.totalInteractions, context.value.lastContact));
        CompletedSnoc(steps, steps'[0]);
      }
    }

    /** Step 2 of `prepare_briefing`: the news search. */
    method NewsStep(company: string, response: ProviderResponse, steps: seq<ReasoningStep>)
      returns (sources: seq<Source>, steps': seq<ReasoningStep>)
      requires |steps| == 1 && Completed(steps)
      ensures |steps'| == 2 && Completed(steps')
      ensures sources == SearchSources(response, SearchLimit)
      ensures steps' == steps + [ReasoningStep(2, NewsAction, NewsDone(|sources|, company), "complete")]
    {
      steps' := steps + [ReasoningStep(2, NewsAction, NewsPending(company), "running")];
      var news := SearchNews(company, response);
      sources := SourcesOf(news);
      steps' := CompleteLast(steps', NewsDone(|sources|, company));
      CompletedSnoc(steps, steps'[1]);
    }

    /** Step 3 of `prepare_briefing`: the products-and-funding search. */
    method IndustryStep(company: string, response: ProviderResponse, steps: seq<ReasoningStep>)
      returns (sources: seq<Source>, steps': seq<ReasoningStep>)
      requires |steps| == 2 && Completed(steps)
      ensures |steps'| == 3 && Completed(steps')
      ensures sources == SearchSources(response, SearchLimit)
      ensures steps' == steps + [ReasoningStep(3, IndustryAction, IndustryDone(|sources|), "complete")]
    {
      steps' := steps + [ReasoningStep(3, IndustryAction, IndustryPending(company), "running")];
      var industry := SearchIndustry(company, response);
      sources := SourcesOf(industry);
      steps' := CompleteLast(steps', IndustryDone(|sources|));
      CompletedSnoc(steps, steps'[2]);
    }

    /** Step 4 of `prepare_briefing`: the briefing from the model's reply. */
    method SynthesisStep(company: string, summary: string, reply: LlmReply, parse: string -> ParseOutcome,
                         preparedAt: string, steps: seq<ReasoningStep>)
      returns (briefing: BriefingResult, steps': seq<ReasoningStep>)
      requires |steps| == 3 && Completed(steps)
      ensures |steps'| == 4 && Completed(steps')
      ensures briefing == SynthesizeBriefing(company, summary, reply, parse, preparedAt)
      ensures steps' == steps + [ReasoningStep(4, SynthesisAction, SynthesisDone, "complete")]
    {
      steps' := steps + [ReasoningStep(4, SynthesisAction, SynthesisPending, "running")];
      briefing := SynthesizeBriefing(company, summary, reply, parse, preparedAt);
      steps' := CompleteLast(steps', SynthesisDone);
      CompletedSnoc(steps, steps'[3]);
    }

    /** `prepare_briefing`. The answers of the two searches, of the model and
        of the JSON parser, and the preparation time, are parameters; an
        exception of the memory store propagates. */
    method PrepareBriefing(company: string, newsResponse: ProviderResponse, industryResponse: ProviderResponse,
                           reply: LlmReply, parse: string -> ParseOutcome, preparedAt: string)
      returns (r: Result<Briefing>)
      ensures r.Raised? <==> ContextOf(memory.emails, memory.conversations, company).Raised?
      ensures r.Raised? ==> r.message == ContextOf(memory.emails, memory.conversations, company).message
      ensures r.Ok? ==> Briefed(r.value, ContextOf(memory.emails, memory.conversations, company).value,
                                company, newsResponse, industryResponse, reply, parse, preparedAt)
    {
      var steps: seq<ReasoningStep> := [];
      var context;
      context, steps := RecallStep(company, steps);
      if context.Raised? {
        return Raised(context.message);
      }
      var b := BriefFrom(company, context.value, newsResponse, industryResponse, reply, parse, preparedAt, steps);
      r := Ok(b);
    }

    /** Steps 2 to 5 of `prepare_briefing`, after the memory was recalled. */
    method BriefFrom(company: string, context: CompanyContext, newsResponse: ProviderResponse,
                     industryResponse: ProviderResponse, reply: LlmReply, parse: string -> ParseOutcome,
                     preparedAt: string, steps: seq<ReasoningStep>)
      returns (b: Briefing)
      requires steps == [ReasoningStep(1, RecallAction, RecallDone(context.totalInteractions, context.lastContact), "complete")]
      ensures Briefed(b, context, company, newsResponse, industryResponse, reply, parse, preparedAt)
    {
      var allSources: seq<Source> := [];
      var first := steps[0];
      var steps := steps;

      var news;
      news, steps := NewsStep(company, newsResponse, steps);
      allSources := allSources + news;
      assert allSources == news;
      assert steps[0] == first;

      var industry;
      industry, steps := IndustryStep(company, industryResponse, steps);
      allSources := allSources + industry;
      assert steps[0] == first;

      var briefing;
      briefing, steps := SynthesisStep(company, context.summary, reply, parse, preparedAt, steps);
      assert steps[0] == first;

      b := CompleteBriefing(steps, context, allSources, briefing);
      assert b.reasoningSteps[0] == first;
    }
  }

  /** The briefing `prepare_briefing` returns for a recalled memory context:
      five completed steps, the first reporting the recall and the last the
      counts; the context as the past interactions; the news sources followed
      by the industry sources; the synthesised text and data; the confidence
      and the attribution computed from these. */
  predicate Briefed(b: Briefing, context: CompanyContext, company: string, newsResponse: ProviderResponse,
                    industryResponse: ProviderResponse, reply: LlmReply, parse: string -> ParseOutcome,
                    preparedAt: string)
  {
    var synthesized := SynthesizeBriefing(company, context.summary, reply, parse, preparedAt);
    |b.reasoningSteps| == 5 && Completed(b.reasoningSteps) &&
    b.reasoningSteps[0].detail == RecallDone(context.totalInteractions, context.lastContact) &&
    b.reasoningSteps[4].detail == CompletionDetail(context.totalInteractions, |b.linkupSources|) &&
    b.pastInteractions == context &&
    b.linkupSources == SearchSources(newsResponse, SearchLimit) + SearchSources(industryResponse, SearchLimit) &&
    b.result == synthesized.briefingText && b.briefingData == synthesized.briefingData &&
    b.confidence == Confidence(context.totalInteractions, |b.linkupSources|,
                               GetOr(b.briefingData, "talking_points", VNone), context.lastContact) &&
    AttributedAs(b.sourceAttribution, context.totalInteractions, |b.linkupSources|, b.briefingData) &&
    b.sourceAttribution.memoryPct + b.sourceAttribution.linkupPct + b.sourceAttribution.llmPct == 100 &&
    b.sourceAttribution.llmPct >= 10
  }

  /** The last step of `prepare_briefing`: the completion step, the
      confidence and the source attribution. */
  method CompleteBriefing(steps: seq<ReasoningStep>, context: CompanyContext, allSources: seq<Source>,
                          briefing: BriefingResult) returns (b: Briefing)
    requires |steps| == 4 && Completed(steps) && briefing.briefingData.VDict?
    ensures b.reasoningSteps == steps + [ReasoningStep(5, CompletionAction,
                                          CompletionDetail(context.totalInteractions, |allSources|), "complete")]
    ensures |b.reasoningSteps| == 5 && Completed(b.reasoningSteps)
    ensures b.pastInteractions == context && b.linkupSources == allSources
    ensures b.result == briefing.briefingText && b.briefingData == briefing.briefingData
    ensures b.confidence == Confidence(context.totalInteractions, |allSources|,
                                       GetOr(briefing.briefingData, "talking_points", VNone), context.lastContact)
    ensures AttributedAs(b.sourceAttribution, context.totalInteractions, |allSources|, briefing.briefingData)
    ensures b.sourceAttribution.memoryPct + b.sourceAttribution.linkupPct + b.sourceAttribution.llmPct == 100
    ensures b.sourceAttribution.llmPct >= 10
  {
    var last := ReasoningStep(5, CompletionAction, CompletionDetail(context.totalInteractions, |allSources|), "complete");
    CompletedSnoc(steps, last);
    var confidence := CalculateConfidence(context, |allSources|, briefing.briefingData);
    var attribution := CalculateSourceAttribution(context, |allSources|, briefing.briefingData);
    b := Briefing(steps + [last], context, allSources, briefing.briefingText, briefing.briefingData,
                  confidence, attribution);
  }
}
