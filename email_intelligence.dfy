// The email intelligence agent (`EmailIntelligenceAgent`): extracts the
// entities an email mentions, decides per entity whether the LLM already
// knows enough or the web must be searched (failing towards searching),
// keeps counters of those decisions, and assembles the research for the
// reply draft. Every LLM reply and search answer is a parameter; the
// agent's reasoning log and counters are the fields of the class.
module EmailIntelligence {
  import opened Wrappers
  import opened Seqs
  import opened Text
  import opened Values
  import opened Services
  import opened Linkup
  import Dicts

  /** The `stats` dictionary. */
  datatype Stats = Stats(totalEntities: nat, entitiesSearched: nat, entitiesKnown: nat, linkupSources: nat)

  const NoStats := Stats(0, 0, 0, 0)

  /** A reasoning step: its text and level. */
  datatype Note = Note(step: string, level: string)

  /** One `{"timestamp", "step", "level"}` entry of `reasoning_steps`. */
  datatype ReasoningEntry = ReasoningEntry(timestamp: string, step: string, level: string)

  /** The entry `add_reasoning` appends for `note` when the clock reads `now`. */
  function At(note: Note, now: string): ReasoningEntry
  {
    ReasoningEntry(now, note.step, note.level)
  }

  const Info := "info"
  const Success := "success"
  const Warning := "warning"
  const Error := "error"

  // ---------------------------------------------------------------------
  // Entities

  /** An entity as the agent accepts it: a dictionary whose `name`, when
      present, is text. */
  predicate NamedEntity(e: Value)
  {
    e.VDict? && (Get(e, "name").None? || Get(e, "name").value.VStr?)
  }

  /** `entity.get("name", "")`. */
  function EntityName(e: Value): string
    requires NamedEntity(e)
  {
    if Get(e, "name").Some? then Get(e, "name").value.s else ""
  }

  /** `entity.get("type", "unknown")`. */
  function EntityType(e: Value): Value
    requires e.VDict?
  {
    GetOr(e, "type", VStr("unknown"))
  }

  /** `entity.get("context", "")`. */
  function EntityContext(e: Value): Value
    requires e.VDict?
  {
    GetOr(e, "context", VStr(""))
  }

  /** `e.get("name", "Unknown")`, as the extraction step lists it. */
  function DisplayName(e: Value): string
    requires NamedEntity(e)
  {
    if Get(e, "name").Some? then Get(e, "name").value.s else "Unknown"
  }

  // ---------------------------------------------------------------------
  // Reading a JSON reply

  const Fence := "```"


  /** A text that opens a code fence splits into at least two pieces. */
  lemma FencedSplits(c: string)
    requires StartsWith(c, Fence)
    ensures |Split(c, Fence)| >= 2
  {
    assert IndexOf(c, Fence) == 0;
  }

  /** `content.split("```")[1]`: the piece between the first two fences. */
  function FencePiece(c: string): string
    requires StartsWith(c, Fence)
  {
    FencedSplits(c);
    Split(c, Fence)[1]
  }

  /** A piece without its leading `json` tag. */
  function WithoutJsonTag(piece: string): string
  {
    if StartsWith(piece, "json") then piece[4..] else piece
  }

  /** The text handed to `json.loads`: the stripped reply or, when it opens
      a code fence, the piece after the fence without a `json` tag; either
      way stripped. */
  function Unfenced(content: string): (r: string)
    ensures r == [] || (!IsSpace(r[0]) && !IsSpace(r[|r| - 1]))
  {
    var c := Strip(content);
    Strip(if StartsWith(c, Fence) then WithoutJsonTag(FencePiece(c)) else c)
  }

  /** A reply without a fence is parsed as it came, once stripped. */
  lemma UnfencedPlain(content: string)
    requires !StartsWith(Strip(content), Fence)
    ensures Unfenced(content) == Strip(content)
  {
    StripIdempotent(content);
  }

  // ---------------------------------------------------------------------
  // Knowledge assessment

  const AssessFailedStep := "\U{26A0}\U{FE0F} Knowledge assessment failed: "
  const AssessParseStep := "\U{26A0}\U{FE0F} Failed to parse assessment: "
  const AssessErrorStep := "\U{274C} Assessment error: "
  const AssessFailedReason := "Assessment failed, defaulting to search"
  const AssessParseReason := "Parsing error, defaulting to search"
  const AssessErrorReason := "Error occurred, defaulting to search"

  /** What became of the assessment request: the parsed reply, or the
      failure with the reason the default assessment gives and the
      reasoning step it logs. */
  datatype Assessed = Assessment(value: Value) | AssessFailure(reason: string, note: Note)

  /** The three ways an assessment fails: an error reply, a reply without
      text (whose `strip()` raises), and text `json.loads` rejects. */
  predicate AssessFails(reply: LlmReply, parse: string -> ParseOutcome)
  {
    ReplyFailed(reply) || reply.content.None? || parse(Unfenced(reply.content.value)).DecodeError?
  }

  /** `assess_knowledge`'s handling of the LLM's reply: a failure, or the
      parsed value taken as it is. */
  function Assess(reply: LlmReply, parse: string -> ParseOutcome): (r: Assessed)
    ensures r.AssessFailure? <==> AssessFails(reply, parse)
    ensures r.Assessment? ==> r.value == parse(Unfenced(reply.content.value)).value
  {
    if ReplyFailed(reply) then
      AssessFailure(AssessFailedReason, Note(AssessFailedStep + reply.error.value, Warning))
    else if reply.content.None? then
      AssessFailure(AssessErrorReason, Note(AssessErrorStep + NoneStripMessage, Error))
    else
      match parse(Unfenced(reply.content.value))
      case Parsed(v) => Assessment(v)
      case DecodeError(m) => AssessFailure(AssessParseReason, Note(AssessParseStep + m, Warning))
  }

  /** The assessment that stands in for a failed one: search, with
      confidence 0.5, for the entity's name. */
  function DefaultAssessment(name: string, reason: string): Value
  {
    Dict([("needs_search", VBool(true)), ("reasoning", VStr(reason)), ("confidence", VFloat(0.5)),
          ("known_info", VStr("")), ("search_query", VStr(name))])
  }

  /** The dictionary `assess_knowledge` returns. */
  function AssessmentOf(name: string, a: Assessed): Value
  {
    if a.Assessment? then a.value else DefaultAssessment(name, a.reason)
  }

  /** The reasoning steps `assess_knowledge` logs: one on failure, none
      otherwise. */
  function AssessEntries(a: Assessed, now: string): seq<ReasoningEntry>
  {
    if a.AssessFailure? then [At(a.note, now)] else []
  }

  /** The default assessment asks for a search of the given name with
      confidence 0.5. */
  lemma DefaultAssessmentSearches(name: string, reason: string)
    ensures DefaultAssessment(name, reason).VDict?
    ensures Get(DefaultAssessment(name, reason), "needs_search") == Some(VBool(true))
    ensures Get(DefaultAssessment(name, reason), "confidence") == Some(VFloat(0.5))
    ensures Get(DefaultAssessment(name, reason), "search_query") == Some(VStr(name))
  {
    var pairs := [("needs_search", VBool(true)), ("reasoning", VStr(reason)), ("confidence", VFloat(0.5)),
                  ("known_info", VStr("")), ("search_query", VStr(name))];
    assert DefaultAssessment(name, reason) == Dict(pairs);
    assert pairs[0].0[0] == 'n' && pairs[1].0[0] == 'r' && pairs[2].0[0] == 'c' && pairs[3].0[0] == 'k' &&
           pairs[4].0[0] == 's';
    DictGets(pairs);
    assert pairs[2] == ("confidence", VFloat(0.5)) && pairs[4] == ("search_query", VStr(name));
  }

  /** Whatever goes wrong, the assessment asks for a search of the entity's
      name with confidence 0.5. */
  lemma FailedAssessmentSearches(name: string, reply: LlmReply, parse: string -> ParseOutcome)
    requires AssessFails(reply, parse)
    ensures AssessmentOf(name, Assess(reply, parse)).VDict?
    ensures Get(AssessmentOf(name, Assess(reply, parse)), "needs_search") == Some(VBool(true))
    ensures Get(AssessmentOf(name, Assess(reply, parse)), "confidence") == Some(VFloat(0.5))
    ensures Get(AssessmentOf(name, Assess(reply, parse)), "search_query") == Some(VStr(name))
  {
    DefaultAssessmentSearches(name, Assess(reply, parse).reason);
  }

  // ---------------------------------------------------------------------
  // Researching one entity

  /** `research_entity`'s result: what the LLM already knows, the sources a
      search found, or the search's error. */
  datatype Research =
    | Known(entity: string, entityType: Value, context: Value, knownInfo: Value, reasoning: Value)
    | Searched(entity: string, entityType: Value, context: Value, sources: seq<Source>, queryUsed: Value)
    | SearchFailed(entity: string, error: string)

  /** `research.get("sources", [])`. */
  function ResearchSources(r: Research): seq<Source>
  {
    if r.Searched? then r.sources else []
  }

  /** Number of results `research_entity` asks the search for. */
  const EntityResults := 5

  /** The message of the AttributeError `.get` raises on an assessment that
      is not a dictionary. */
  const NoGetMessage := "object has no attribute 'get'"

  const UsingKnowledgeStep := "\U{2713} Using existing knowledge: "
  const SufficientKnowledge := "Sufficient knowledge available"
  const ResearchNeededStep := "\U{1F50D} External research needed: "
  const UnknownEntity := "Unknown entity"
  const RecentNews := " recent news"

  function AssessingNote(name: string, entityType: Value): Note
  {
    Note("Step 2: Assessing knowledge about '" + name + "' (" + Show(entityType) + ")...", Info)
  }

  function SearchingNote(name: string): Note
  {
    Note("Searching Linkup for '" + name + "'...", Info)
  }

  function SearchFailedNote(name: string, error: string): Note
  {
    Note("\U{26A0}\U{FE0F} Search failed for " + name + ": " + error, Warning)
  }

  function FoundSourcesNote(count: nat, name: string): Note
  {
    Note("\U{2713} Found " + NatToString(count) + " sources for " + name, Success)
  }

  /** `not assessment.get("needs_search", True)` is false: a missing key
      means "search". */
  predicate NeedsSearch(a: Value)
    requires a.VDict?
  {
    Truthy(GetOr(a, "needs_search", VBool(true)))
  }

  /** `assessment.get("search_query", f"{name} recent news")`. */
  function QueryOf(name: string, a: Value): Value
    requires a.VDict?
  {
    GetOr(a, "search_query", VStr(name + RecentNews))
  }

  /** The search wrapper's answer carries a (truthy) error. */
  predicate ErrorAnswer(response: ProviderResponse)
  {
    response.Failure? && response.message != ""
  }

  /** What `research_entity` makes of the assessment `a`: `.get` on an
      assessment that is not a dictionary raises; a falsy `needs_search`
      answers from the LLM's knowledge; otherwise the web is searched for
      the suggested query and the answer becomes sources or an error. */
  function Decide(entity: Value, a: Value, response: ProviderResponse): (r: Result<Research>)
    requires NamedEntity(entity)
    ensures r.Raised? <==> !a.VDict?
    ensures r.Ok? ==> r.value.entity == EntityName(entity)
    ensures r.Ok? ==> (r.value.Known? <==> !NeedsSearch(a))
    ensures r.Ok? ==> (r.value.SearchFailed? <==> NeedsSearch(a) && ErrorAnswer(response))
    ensures r.Ok? && r.value.Searched? ==>
      r.value.sources == SearchSources(response, EntityResults) && r.value.queryUsed == QueryOf(EntityName(entity), a)
  {
    var name := EntityName(entity);
    if !a.VDict? then Raised(NoGetMessage)
    else if !NeedsSearch(a) then
      Ok(Known(name, EntityType(entity), EntityContext(entity), GetOr(a, "known_info", VStr("")),
               GetOr(a, "reasoning", VStr(""))))
    else if ErrorAnswer(response) then Ok(SearchFailed(name, response.message))
    else Ok(Searched(name, EntityType(entity), EntityContext(entity), SearchSources(response, EntityResults),
                     QueryOf(name, a)))
  }

  function KnowledgeNote(a: Value): Note
    requires a.VDict?
  {
    Note(UsingKnowledgeStep + Show(GetOr(a, "reasoning", VStr(SufficientKnowledge))), Success)
  }

  /** The reasoning steps logged while acting on the assessment. */
  function DecideEntries(name: string, a: Value, response: ProviderResponse, now: string): seq<ReasoningEntry>
  {
    if !a.VDict? then []
    else if !NeedsSearch(a) then [At(KnowledgeNote(a), now)]
    else
      [At(Note(ResearchNeededStep + Show(GetOr(a, "reasoning", VStr(UnknownEntity))), Info), now),
       At(SearchingNote(name), now)] + SearchEntries(name, response, now)
  }

  /** The reasoning step that reports the search's answer. */
  function SearchEntries(name: string, response: ProviderResponse, now: string): seq<ReasoningEntry>
  {
    if ErrorAnswer(response) then [At(SearchFailedNote(name, response.message), now)]
    else [At(FoundSourcesNote(|SearchSources(response, EntityResults)|, name), now)]
  }

  /** `research_entity`'s result given the assessment reply and the search
      answer. */
  function ResearchOutcome(entity: Value, reply: LlmReply, parse: string -> ParseOutcome,
                           response: ProviderResponse): Result<Research>
    requires NamedEntity(entity)
  {
    Decide(entity, AssessmentOf(EntityName(entity), Assess(reply, parse)), response)
  }

  /** The reasoning steps `research_entity` logs. */
  function ResearchEntries(entity: Value, reply: LlmReply, parse: string -> ParseOutcome,
                           response: ProviderResponse, now: string): seq<ReasoningEntry>
    requires NamedEntity(entity)
  {
    var name := EntityName(entity);
    var assessed := Assess(reply, parse);
    [At(AssessingNote(name, EntityType(entity)), now)] + AssessEntries(assessed, now) +
    DecideEntries(name, AssessmentOf(name, assessed), response, now)
  }

  /** The counters after one research result: a known entity bumps only
      `entities_known`; a search that found sources (possibly none) bumps
      `entities_searched` and adds their number to `linkup_sources`; a
      failed search or an exception changes nothing. */
  function Counted(s: Stats, outcome: Result<Research>): (r: Stats)
    ensures r.totalEntities == s.totalEntities
    ensures r.entitiesKnown + r.entitiesSearched <= s.entitiesKnown + s.entitiesSearched + 1
    ensures r.entitiesKnown >= s.entitiesKnown && r.entitiesSearched >= s.entitiesSearched
    ensures r.linkupSources == s.linkupSources + |if outcome.Ok? then ResearchSources(outcome.value) else []|
  {
    match outcome
    case Ok(Known(_, _, _, _, _)) => s.(entitiesKnown := s.entitiesKnown + 1)
    case Ok(Searched(_, _, _, sources, _)) =>
      s.(entitiesSearched := s.entitiesSearched + 1, linkupSources := s.linkupSources + |sources|)
    case _ => s
  }

  /** A failed assessment never lets the entity be answered from memory:
      it is searched under its own name, and the search's answer decides
      between sources and an error. */
  lemma FailedAssessmentIsSearched(entity: Value, reply: LlmReply, parse: string -> ParseOutcome,
                                   response: ProviderResponse)
    requires NamedEntity(entity)
    requires AssessFails(reply, parse)
    ensures ResearchOutcome(entity, reply, parse, response).Ok?
    ensures ErrorAnswer(response) ==> ResearchOutcome(entity, reply, parse, response).value.SearchFailed?
    ensures !ErrorAnswer(response) ==>
      ResearchOutcome(entity, reply, parse, response).value.Searched? &&
      ResearchOutcome(entity, reply, parse, response).value.queryUsed == VStr(EntityName(entity))
  {
    FailedAssessmentSearches(EntityName(entity), reply, parse);
  }

  /** The entity is answered from memory exactly when the assessment is a
      dictionary that holds a falsy `needs_search`; a missing key means
      "search". */
  lemma KnownExactly(entity: Value, reply: LlmReply, parse: string -> ParseOutcome, response: ProviderResponse)
    requires NamedEntity(entity)
    ensures (ResearchOutcome(entity, reply, parse, response).Ok? &&
             ResearchOutcome(entity, reply, parse, response).value.Known?) <==>
      (Assess(reply, parse).Assessment? && Assess(reply, parse).value.VDict? &&
       Has(Assess(reply, parse).value, "needs_search") &&
       !Truthy(Get(Assess(reply, parse).value, "needs_search").value))
  {
    if AssessFails(reply, parse) {
      FailedAssessmentIsSearched(entity, reply, parse, response);
    }
  }

  /** A searched entity keeps at most five sources, numbered from 1. */
  lemma SearchedSources(entity: Value, reply: LlmReply, parse: string -> ParseOutcome, response: ProviderResponse)
    requires NamedEntity(entity)
    requires ResearchOutcome(entity, reply, parse, response).Ok?
    requires ResearchOutcome(entity, reply, parse, response).value.Searched?
    ensures |ResearchOutcome(entity, reply, parse, response).value.sources| <= EntityResults
    ensures forall i :: 0 <= i < |ResearchOutcome(entity, reply, parse, response).value.sources| ==>
      ResearchOutcome(entity, reply, parse, response).value.sources[i].relevance == i + 1
  {
    if response.Items? {
      assert SliceBound(|response.items|, EntityResults) <= EntityResults;
    }
  }

  // ---------------------------------------------------------------------
  // Researching every entity

  /** The state of `research_all_entities` after some entities: the results
      by name, the counters, the reasoning steps logged, and the exception
      that stopped the loop, if any. */
  datatype Run = Run(results: seq<(string, Research)>, stats: Stats, entries: seq<ReasoningEntry>,
                     raised: Option<string>)

  /** One more entity: counted in `total_entities` first, researched, and
      its result stored under its name (replacing an earlier one of the
      same name), or the exception recorded. */
  function StepRun(prev: Run, name: string, outcome: Result<Research>, entries: seq<ReasoningEntry>): (r: Run)
    ensures r.stats == Counted(prev.stats.(totalEntities := prev.stats.totalEntities + 1), outcome)
    ensures r.entries == prev.entries + entries
    ensures r.raised.Some? <==> outcome.Raised?
    ensures outcome.Raised? ==> r.results == prev.results && r.raised == Some(outcome.message)
    ensures outcome.Ok? ==> r.results == Dicts.Put<string, Research>(prev.results, name, outcome.value)
  {
    var stats := Counted(prev.stats.(totalEntities := prev.stats.totalEntities + 1), outcome);
    match outcome
    case Raised(m) => Run(prev.results, stats, prev.entries + entries, Some(m))
    case Ok(research) => Run(Dicts.Put<string, Research>(prev.results, name, research), stats,
                             prev.entries + entries, None)
  }

  /** The research loop over entities named `names`, from counters `stats0`,
      where entity `i` yields `outcomes[i]` and logs `logs[i]`; the first
      exception ends the loop. */
  function RunSteps(stats0: Stats, names: seq<string>, outcomes: seq<Result<Research>>,
                    logs: seq<seq<ReasoningEntry>>): Run
    requires |names| == |outcomes| == |logs|
    decreases |names|
  {
    if names == [] then Run([], stats0, [], None)
    else
      var i := |names| - 1;
      var prev := RunSteps(stats0, names[..i], outcomes[..i], logs[..i]);
      if prev.raised.Some? then prev else StepRun(prev, names[i], outcomes[i], logs[i])
  }

  /** The entities' names. */
  function Names(entities: seq<Value>): (r: seq<string>)
    requires forall e :: e in entities ==> NamedEntity(e)
    ensures |r| == |entities|
  {
    seq(|entities|, i requires 0 <= i < |entities| => EntityName(entities[i]))
  }

  /** What researching each entity yields: entity `i` is assessed by
      `replies(i)` and searched with answer `responses(i)`. */
  function Outcomes(entities: seq<Value>, replies: nat -> LlmReply, responses: nat -> ProviderResponse,
                    parse: string -> ParseOutcome): (r: seq<Result<Research>>)
    requires forall e :: e in entities ==> NamedEntity(e)
    ensures |r| == |entities|
  {
    seq(|entities|, i requires 0 <= i < |entities| => ResearchOutcome(entities[i], replies(i), parse, responses(i)))
  }

  /** The reasoning steps researching each entity logs. */
  function Logs(entities: seq<Value>, replies: nat -> LlmReply, responses: nat -> ProviderResponse,
                parse: string -> ParseOutcome, now: string): (r: seq<seq<ReasoningEntry>>)
    requires forall e :: e in entities ==> NamedEntity(e)
    ensures |r| == |entities|
  {
    seq(|entities|, i requires 0 <= i < |entities| => ResearchEntries(entities[i], replies(i), parse, responses(i), now))
  }

  /** `research_all_entities` over `entities`, from counters `stats0`. */
  function RunAll(stats0: Stats, entities: seq<Value>, replies: nat -> LlmReply,
                  responses: nat -> ProviderResponse, parse: string -> ParseOutcome, now: string): Run
    requires forall e :: e in entities ==> NamedEntity(e)
  {
    RunSteps(stats0, Names(entities), Outcomes(entities, replies, responses, parse),
             Logs(entities, replies, responses, parse, now))
  }

  /** Without an exception so far, one more entity is one more step. */
  lemma RunOneMore(stats0: Stats, names: seq<string>, outcomes: seq<Result<Research>>,
                   logs: seq<seq<ReasoningEntry>>, i: nat)
    requires |names| == |outcomes| == |logs| && i < |names|
    requires RunSteps(stats0, names[..i], outcomes[..i], logs[..i]).raised.None?
    ensures RunSteps(stats0, names[..i + 1], outcomes[..i + 1], logs[..i + 1]) ==
      StepRun(RunSteps(stats0, names[..i], outcomes[..i], logs[..i]), names[i], outcomes[i], logs[i])
  {
    assert names[..i + 1][..i] == names[..i];
    assert outcomes[..i + 1][..i] == outcomes[..i];
    assert logs[..i + 1][..i] == logs[..i];
  }

  /** The loop stops at the first exception: what it was then is what it
      ends with. */
  lemma {:induction false} RunStops(stats0: Stats, names: seq<string>, outcomes: seq<Result<Research>>,
                                    logs: seq<seq<ReasoningEntry>>, k: nat)
    requires |names| == |outcomes| == |logs| && k <= |names|
    requires RunSteps(stats0, names[..k], outcomes[..k], logs[..k]).raised.Some?
    ensures RunSteps(stats0, names, outcomes, logs) == RunSteps(stats0, names[..k], outcomes[..k], logs[..k])
    decreases |names| - k
  {
    if k < |names| {
      var j := k + 1;
      assert names[..j][..k] == names[..k];
      assert outcomes[..j][..k] == outcomes[..k];
      assert logs[..j][..k] == logs[..k];
      assert RunSteps(stats0, names[..j], outcomes[..j], logs[..j]) == RunSteps(stats0, names[..k], outcomes[..k], logs[..k]);
      RunStops(stats0, names, outcomes, logs, j);
    } else {
      assert names[..k] == names && outcomes[..k] == outcomes && logs[..k] == logs;
    }
  }

  /** Counting: every entity reached adds one to `total_entities` (all of
      them when nothing raised), and at most one of `entities_known` and
      `entities_searched` grows per entity, so together they never
      overtake the total. */
  lemma {:induction false} RunCounts(stats0: Stats, names: seq<string>, outcomes: seq<Result<Research>>,
                                     logs: seq<seq<ReasoningEntry>>)
    requires |names| == |outcomes| == |logs|
    ensures var s := RunSteps(stats0, names, outcomes, logs).stats;
      stats0.totalEntities <= s.totalEntities <= stats0.totalEntities + |names| &&
      s.entitiesKnown + s.entitiesSearched + stats0.totalEntities <=
        s.totalEntities + stats0.entitiesKnown + stats0.entitiesSearched
    ensures RunSteps(stats0, names, outcomes, logs).raised.None? ==>
      RunSteps(stats0, names, outcomes, logs).stats.totalEntities == stats0.totalEntities + |names|
    decreases |names|
  {
    if names != [] {
      var i := |names| - 1;
      RunCounts(stats0, names[..i], outcomes[..i], logs[..i]);
    }
  }

  /** The results are keyed by name, each name once, so there are at most
      as many results as entities; every key is an entity's name, and when
      nothing raised every entity's name has a result. */
  lemma {:induction false} RunKeys(stats0: Stats, names: seq<string>, outcomes: seq<Result<Research>>,
                                   logs: seq<seq<ReasoningEntry>>)
    requires |names| == |outcomes| == |logs|
    ensures Dicts.DistinctKeys(RunSteps(stats0, names, outcomes, logs).results)
    ensures |RunSteps(stats0, names, outcomes, logs).results| <= |names|
    ensures forall k :: k in Dicts.Keys(RunSteps(stats0, names, outcomes, logs).results) ==> k in names
    ensures RunSteps(stats0, names, outcomes, logs).raised.None? ==>
      forall j :: 0 <= j < |names| ==> names[j] in Dicts.Keys(RunSteps(stats0, names, outcomes, logs).results)
    decreases |names|
  {
    if names != [] {
      var i := |names| - 1;
      var init := names[..i];
      RunKeys(stats0, init, outcomes[..i], logs[..i]);
      var prev := RunSteps(stats0, init, outcomes[..i], logs[..i]);
      assert names == init + [names[i]];
      if prev.raised.None? && outcomes[i].Ok? {
        var next := Dicts.Put<string, Research>(prev.results, names[i], outcomes[i].value);
        Dicts.PutKeys<string, Research>(prev.results, names[i], outcomes[i].value);
        Dicts.PutDistinct<string, Research>(prev.results, names[i], outcomes[i].value);
        assert |Dicts.Keys(next)| == |next| && |Dicts.Keys(prev.results)| == |prev.results|;
        forall j | 0 <= j < |names|
          ensures names[j] in Dicts.Keys(RunSteps(stats0, names, outcomes, logs).results)
        {
          if j < i {
            assert names[j] == init[j];
          }
        }
      }
    }
  }

  // ---------------------------------------------------------------------
  // Gathering the sources

  /** `for r in research_data.values(): all_sources.extend(r.get("sources", []))`. */
  function AllSources(rd: seq<(string, Research)>): seq<Source>
  {
    if rd == [] then [] else ResearchSources(rd[0].1) + AllSources(rd[1..])
  }

  lemma {:induction false} AllSourcesSnoc(rd: seq<(string, Research)>, x: (string, Research))
    ensures AllSources(rd + [x]) == AllSources(rd) + ResearchSources(x.1)
  {
    if rd == [] {
      assert AllSources([x]) == ResearchSources(x.1) + AllSources([]);
    } else {
      assert (rd + [x])[1..] == rd[1..] + [x];
      AllSourcesSnoc(rd[1..], x);
    }
  }

  /** Storing a result under a name adds at most that result's sources to the
      collected ones (it may replace an earlier result). */
  lemma {:induction false} PutSourceCount(rd: seq<(string, Research)>, k: string, v: Research)
    ensures |AllSources(Dicts.Put<string, Research>(rd, k, v))| <= |AllSources(rd)| + |ResearchSources(v)|
  {
    if rd != [] && rd[0].0 != k {
      PutSourceCount(rd[1..], k, v);
      assert Dicts.Put<string, Research>(rd, k, v)[1..] == Dicts.Put<string, Research>(rd[1..], k, v);
    } else if rd != [] {
      assert Dicts.Put<string, Research>(rd, k, v)[1..] == rd[1..];
    }
  }

  /** The sources the results hold never outnumber what `linkup_sources`
      counted: a result replaced by a later one of the same name stays
      counted. */
  lemma {:induction false} RunSourceCount(stats0: Stats, names: seq<string>, outcomes: seq<Result<Research>>,
                                          logs: seq<seq<ReasoningEntry>>)
    requires |names| == |outcomes| == |logs|
    ensures |AllSources(RunSteps(stats0, names, outcomes, logs).results)| + stats0.linkupSources <=
      RunSteps(stats0, names, outcomes, logs).stats.linkupSources
    decreases |names|
  {
    if names != [] {
      var i := |names| - 1;
      RunSourceCount(stats0, names[..i], outcomes[..i], logs[..i]);
      var prev := RunSteps(stats0, names[..i], outcomes[..i], logs[..i]);
      if prev.raised.None? && outcomes[i].Ok? {
        PutSourceCount(prev.results, names[i], outcomes[i].value);
      }
    }
  }
  // ---------------------------------------------------------------------
  // The research section of the reply prompt

  const ContextHeader := "\n\nRESEARCH FINDINGS & KNOWLEDGE:\n"
  const KnowledgeTag := "[From Existing Knowledge] "
  const ReasoningTag := "  Reasoning: "
  const ErrorTag := "[Search Error] "
  /** How many sources per entity the prompt quotes. */
  const QuotedSources := 3

  /** The two lines quoting source number `n`. */
  function SourceLines(n: nat, s: Source): string
  {
    NatToString(n) + ". " + s.title + "\n" + "   " + s.snippet + "\n"
  }

  /** The quoted sources: the first three, numbered from 1. */
  function QuotedLines(sources: seq<Source>): string
  {
    var top := Prefix(sources, QuotedSources);
    Concat(seq(|top|, i requires 0 <= i < |top| => SourceLines(i + 1, top[i])))
  }

  /** What one entity adds to the research section. */
  function EntityBlock(name: string, r: Research): string
  {
    "\n" + name + ":\n" +
    match r
    case Known(_, _, _, info, reasoning) =>
      KnowledgeTag + Show(info) + "\n" + (if Truthy(reasoning) then ReasoningTag + Show(reasoning) + "\n" else "")
    case Searched(_, _, _, sources, _) => QuotedLines(sources)
    case SearchFailed(_, error) => if error != "" then ErrorTag + error + "\n" else ""
  }

  /** The research section of the reply prompt: empty when there is no
      research, else the heading and one block per entity in result order. */
  function ResearchContext(rd: seq<(string, Research)>): (r: string)
    ensures r == "" <==> rd == []
  {
    if rd == [] then ""
    else ContextHeader + Concat(seq(|rd|, i requires 0 <= i < |rd| => EntityBlock(rd[i].0, rd[i].1)))
  }

  /** Each entity's sources cut to the three the prompt quotes. */
  function TopSources(rd: seq<(string, Research)>): (r: seq<(string, Research)>)
    ensures |r| == |rd|
  {
    seq(|rd|, i requires 0 <= i < |rd| =>
      (rd[i].0, if rd[i].1.Searched? then rd[i].1.(sources := Prefix(rd[i].1.sources, QuotedSources)) else rd[i].1))
  }

  /** Only the first three sources of an entity reach the prompt: cutting
      them beforehand leaves the research section as it was. */
  lemma ContextQuotesTopThree(rd: seq<(string, Research)>)
    ensures ResearchContext(TopSources(rd)) == ResearchContext(rd)
  {
    var t := TopSources(rd);
    forall i | 0 <= i < |rd| ensures EntityBlock(t[i].0, t[i].1) == EntityBlock(rd[i].0, rd[i].1) {
      if rd[i].1.Searched? {
        var s := rd[i].1.sources;
        assert Prefix(Prefix(s, QuotedSources), QuotedSources) == Prefix(s, QuotedSources);
      }
    }
    assert seq(|t|, i requires 0 <= i < |t| => EntityBlock(t[i].0, t[i].1)) ==
           seq(|rd|, i requires 0 <= i < |rd| => EntityBlock(rd[i].0, rd[i].1));
  }

  // ---------------------------------------------------------------------
  // Entity extraction

  const ExtractStartStep := "Step 1: Analyzing email for unknown entities..."
  const ExtractFailedStep := "\U{26A0}\U{FE0F} Entity extraction failed: "
  const ExtractParseStep := "\U{26A0}\U{FE0F} Failed to parse entities: "
  const ExtractErrorStep := "\U{274C} Entity extraction error: "
  const NoEntitiesStep := "\U{2713} No entities requiring research"
  /** Stands for the message of the exception raised while listing the
      names of a parsed value that is not a list of named entities. */
  const NotEntitiesMessage := "the parsed entities are not a list of dictionaries with text names"

  /** A parsed value the agent can research: iterable, and every item a
      named entity. */
  predicate EntityList(v: Value)
  {
    Iterate(v).Some? && forall e :: e in Iterate(v).value ==> NamedEntity(e)
  }

  function EntitiesFoundNote(es: seq<Value>): Note
    requires forall e :: e in es ==> NamedEntity(e)
  {
    Note("\U{2713} Found " + NatToString(|es|) + " entities: " +
         Join(", ", seq(|es|, i requires 0 <= i < |es| => DisplayName(es[i]))), Success)
  }

  /** `extract_entities`' answer and the reasoning step that closes it. */
  datatype Extraction = Extraction(entities: Value, last: Note)

  /** What `extract_entities` makes of a parsed value: a falsy value is
      returned as it is, a list of named entities is listed by name, and
      anything else (whose names cannot be listed) falls back to `[]`. */
  function ParsedExtraction(v: Value): (r: Extraction)
    ensures Truthy(r.entities) ==> EntityList(r.entities)
    ensures !Truthy(v) || EntityList(v) ==> r.entities == v
    ensures Truthy(v) && !EntityList(v) ==> r.entities == VList([])
  {
    if !Truthy(v) then Extraction(v, Note(NoEntitiesStep, Info))
    else if EntityList(v) then Extraction(v, EntitiesFoundNote(Iterate(v).value))
    else Extraction(VList([]), Note(ExtractErrorStep + NotEntitiesMessage, Error))
  }

  /** `extract_entities`, given the LLM's reply: the parsed value when it is
      falsy or a list of named entities, and `[]` on every failure (an
      error reply, no text, text `json.loads` rejects, or a truthy value
      whose names cannot be listed). */
  function ExtractionOf(reply: LlmReply, parse: string -> ParseOutcome): (r: Extraction)
    ensures Truthy(r.entities) ==> EntityList(r.entities)
    ensures AssessFails(reply, parse) ==> r.entities == VList([])
    ensures !AssessFails(reply, parse) ==> r == ParsedExtraction(parse(Unfenced(reply.content.value)).value)
  {
    if ReplyFailed(reply) then Extraction(VList([]), Note(ExtractFailedStep + reply.error.value, Warning))
    else if reply.content.None? then Extraction(VList([]), Note(ExtractErrorStep + NoneStripMessage, Error))
    else
      match parse(Unfenced(reply.content.value))
      case DecodeError(m) => Extraction(VList([]), Note(ExtractParseStep + m, Warning))
      case Parsed(v) => ParsedExtraction(v)
  }

  // ---------------------------------------------------------------------
  // Drafting and the whole analysis

  const DraftStartStep := "Step 3: Synthesizing research and drafting reply..."
  const DraftFailedStep := "\U{274C} Reply drafting failed: "
  const DraftDoneStep := "\U{2713} Draft reply completed"
  const DraftFailedText := "Error: Could not generate reply"
  const AnalysisStartStep := "\U{1F680} Starting email intelligence analysis..."

  /** `draft_reply`'s answer: the fixed error text when the LLM failed, else
      its content (Python `None` when it sent no text). */
  function DraftOf(reply: LlmReply): Option<string>
  {
    if ReplyFailed(reply) then Some(DraftFailedText) else reply.content
  }

  /** The closing reasoning step of `draft_reply`. */
  function DraftNote(reply: LlmReply): Note
  {
    if ReplyFailed(reply) then Note(DraftFailedStep + reply.error.value, Error) else Note(DraftDoneStep, Success)
  }

  /** `efficiency_pct` in tenths of a percent: the share of entities
      answered from memory, rounded to one decimal; 0 when there were none. */
  function EfficiencyTenths(s: Stats): nat
  {
    if s.totalEntities == 0 then 0 else RoundHalfEven(s.entitiesKnown * 1000, s.totalEntities)
  }

  /** A quotient below `c` when the dividend is below `c` times the divisor. */
  lemma QuotientBelow(num: int, den: int, c: int)
    requires den > 0 && 0 <= num < c * den
    ensures num / den < c
  {
    var q := num / den;
    assert q * den <= num;
    assert (c - q) * den > 0;
  }

  /** A non-zero multiple of a positive number is at least that number in
      size. */
  lemma ProductSign(x: int, den: int)
    requires den > 0
    ensures x >= 1 ==> x * den >= den
    ensures x <= -1 ==> x * den <= -den
  {
    if x >= 1 {
      assert (x - 1) * den >= 0;
    }
    if x <= -1 {
      assert (-x - 1) * den >= 0;
    }
  }

  /** A multiple of the divisor divides exactly. */
  lemma MultipleDivides(c: int, den: int)
    requires den > 0
    ensures (c * den) / den == c && (c * den) % den == 0
  {
    var q := (c * den) / den;
    var m := (c * den) % den;
    assert (c - q) * den == m;
    ProductSign(c - q, den);
  }

  /** The efficiency is a percentage: between 0 and 100, 0 when nothing
      was known, 100 when everything was. */
  lemma EfficiencyBounds(s: Stats)
    requires s.entitiesKnown <= s.totalEntities
    ensures EfficiencyTenths(s) <= 1000
    ensures s.entitiesKnown == 0 ==> EfficiencyTenths(s) == 0
    ensures 0 < s.totalEntities == s.entitiesKnown ==> EfficiencyTenths(s) == 1000
  {
    var t := s.totalEntities;
    var k := s.entitiesKnown;
    if t > 0 {
      var num := k * 1000;
      if k == t {
        assert num == 1000 * t;
        MultipleDivides(1000, t);
      } else {
        assert num < 1000 * t;
        QuotientBelow(num, t, 1000);
      }
    }
  }

  /** The efficiency as `str(efficiency_pct)` prints it: the integer 0 when
      no entity was seen, else a float with one decimal. */
  function EfficiencyText(s: Stats): string
  {
    if s.totalEntities == 0 then "0"
    else NatToString(EfficiencyTenths(s) / 10) + "." + [DigitChar(EfficiencyTenths(s) % 10)]
  }

  function CompletedNote(executionTime: real): Note
  {
    Note("\U{2705} Analysis complete in " + ShowReal(executionTime) + "s", Success)
  }

  function EfficiencyNote(s: Stats): Note
  {
    Note("\U{1F4CA} Linkup Efficiency: " + NatToString(s.entitiesKnown) + "/" + NatToString(s.totalEntities) +
         " entities (" + EfficiencyText(s) + "%) used existing knowledge, avoided " + EfficiencyText(s) +
         "% of API calls", Info)
  }

  /** The dictionary `analyze_email` returns. */
  datatype Analysis = Analysis(
    entities: Value,
    research: seq<(string, Research)>,
    draftReply: Option<string>,
    reasoningSteps: seq<ReasoningEntry>,
    sources: seq<Source>,
    executionTime: real,
    metadata: Value,
    timestamp: string,
    stats: Stats,
    efficiencyTenths: nat)

  /** How many sources the analysis shows. */
  const ShownSources := 10

  /** The entities the research loop visits: the extracted list when it is
      truthy, none otherwise. */
  function Visited(extracted: Value): (r: seq<Value>)
    requires Truthy(extracted) ==> EntityList(extracted)
    ensures forall e :: e in r ==> NamedEntity(e)
  {
    if Truthy(extracted) then Iterate(extracted).value else []
  }

  /** The research loop of `analyze_email`, from fresh counters, over the
      extracted entities. */
  function AnalysisRun(extractReply: LlmReply, replies: nat -> LlmReply, responses: nat -> ProviderResponse,
                       parse: string -> ParseOutcome, now: string): Run
  {
    RunAll(NoStats, Visited(ExtractionOf(extractReply, parse).entities), replies, responses, parse, now)
  }

  /** `email_metadata or {}`. */
  function MetadataOr(metadata: Value): Value
  {
    if Truthy(metadata) then metadata else VDict([])
  }

  /** What `analyze_email` returns once the research is done: the draft
      asked with the email and the research section (`ask` answers it), the
      first ten sources, the counters and the efficiency, and the whole
      reasoning log of the call. */
  function Concluded(emailContent: string, metadata: Value, ex: Extraction, run: Run,
                     ask: (string, string) -> LlmReply, now: string, executionTime: real, timestamp: string): Analysis
  {
    var reply := ask(emailContent, ResearchContext(run.results));
    Analysis(ex.entities, run.results, DraftOf(reply),
             [At(Note(AnalysisStartStep, Info), now), At(Note(ExtractStartStep, Info), now), At(ex.last, now)] +
             run.entries +
             [At(Note(DraftStartStep, Info), now), At(DraftNote(reply), now),
              At(CompletedNote(executionTime), now), At(EfficiencyNote(run.stats), now)],
             Prefix(AllSources(run.results), ShownSources), executionTime, MetadataOr(metadata), timestamp,
             run.stats, EfficiencyTenths(run.stats))
  }

  /** `analyze_email`: extraction (answered by `extractReply`), research of
      each entity `i` (assessed by `replies(i)`, searched with answer
      `responses(i)`), and the draft (`ask` answers its prompt); an
      exception in the research ends the call. The clock reads `now` while
      the log is written, and `executionTime` and `timestamp` are what the
      clock gives at the end. */
  function AnalysisOf(emailContent: string, metadata: Value, extractReply: LlmReply, replies: nat -> LlmReply,
                      responses: nat -> ProviderResponse, ask: (string, string) -> LlmReply,
                      parse: string -> ParseOutcome, now: string, executionTime: real, timestamp: string)
    : Result<Analysis>
  {
    var run := AnalysisRun(extractReply, replies, responses, parse, now);
    if run.raised.Some? then Raised(run.raised.value)
    else Ok(Concluded(emailContent, metadata, ExtractionOf(extractReply, parse), run, ask, now, executionTime,
                      timestamp))
  }

  /** What an analysis reports holds together: every entity visited is
      counted once, known and searched entities never outnumber it, the
      efficiency is a percentage, results are keyed by distinct names, the
      sources shown are the first ten collected and never more than the
      searches returned, and the log opens with the start step. */
  lemma AnalysisConsistent(emailContent: string, metadata: Value, extractReply: LlmReply,
                           replies: nat -> LlmReply, responses: nat -> ProviderResponse,
                           ask: (string, string) -> LlmReply, parse: string -> ParseOutcome, now: string,
                           executionTime: real, timestamp: string)
    requires AnalysisOf(emailContent, metadata, extractReply, replies, responses, ask, parse, now,
                        executionTime, timestamp).Ok?
    ensures var a := AnalysisOf(emailContent, metadata, extractReply, replies, responses, ask, parse, now,
                                executionTime, timestamp).value;
      a.stats.totalEntities == |Visited(a.entities)| &&
      a.stats.entitiesKnown + a.stats.entitiesSearched <= a.stats.totalEntities &&
      a.efficiencyTenths <= 1000 &&
      Dicts.DistinctKeys(a.research) && |a.research| <= a.stats.totalEntities &&
      a.sources == Prefix(AllSources(a.research), ShownSources) && |a.sources| <= ShownSources &&
      |AllSources(a.research)| <= a.stats.linkupSources &&
      a.reasoningSteps[0] == At(Note(AnalysisStartStep, Info), now)
  {
    var ex := ExtractionOf(extractReply, parse);
    var visited := Visited(ex.entities);
    var names := Names(visited);
    var outcomes := Outcomes(visited, replies, responses, parse);
    var logs := Logs(visited, replies, responses, parse, now);
    var run := RunSteps(NoStats, names, outcomes, logs);
    assert run == AnalysisRun(extractReply, replies, responses, parse, now);
    RunCounts(NoStats, names, outcomes, logs);
    RunKeys(NoStats, names, outcomes, logs);
    RunSourceCount(NoStats, names, outcomes, logs);
    EfficiencyBounds(run.stats);
  }

  class EmailIntelligenceAgent {
    /** `reasoning_steps`, the log the UI shows. */
    var reasoningSteps: seq<ReasoningEntry>
    /** The `stats` counters. */
    var stats: Stats

    constructor ()
      ensures reasoningSteps == [] && stats == NoStats
    {
      reasoningSteps := [];
      stats := NoStats;
    }

    /** `add_reasoning`: appends one stamped step. */
    method AddReasoning(note: Note, now: string)
      modifies this
      ensures reasoningSteps == old(reasoningSteps) + [At(note, now)]
      ensures stats == old(stats)
    {
      reasoningSteps := reasoningSteps + [At(note, now)];
    }

    /** `assess_knowledge`: asks the LLM whether the entity needs a search
      (its answer is `reply`) and falls back to searching on any failure. */
    method AssessKnowledge(entity: Value, reply: LlmReply, parse: string -> ParseOutcome, now: string)
      returns (assessment: Value)
      requires NamedEntity(entity)
      modifies this
      ensures assessment == AssessmentOf(EntityName(entity), Assess(reply, parse))
      ensures reasoningSteps == old(reasoningSteps) + AssessEntries(Assess(reply, parse), now)
      ensures stats == old(stats)
    {
      var name := EntityName(entity);
      if ReplyFailed(reply) {
        assert Assess(reply, parse) == AssessFailure(AssessFailedReason, Note(AssessFailedStep + reply.error.value, Warning));
        AddReasoning(Note(AssessFailedStep + reply.error.value, Warning), now);
        return DefaultAssessment(name, AssessFailedReason);
      }
      if reply.content.None? {
        assert Assess(reply, parse) == AssessFailure(AssessErrorReason, Note(AssessErrorStep + NoneStripMessage, Error));
        AddReasoning(Note(AssessErrorStep + NoneStripMessage, Error), now);
        return DefaultAssessment(name, AssessErrorReason);
      }
      var content := Unfenced(reply.content.value);
      match parse(content)
      case Parsed(v) =>
        assert Assess(reply, parse) == Assessment(v);
        assessment := v;
      case DecodeError(m) =>
        assert Assess(reply, parse) == AssessFailure(AssessParseReason, Note(AssessParseStep + m, Warning));
        AddReasoning(Note(AssessParseStep + m, Warning), now);
        assessment := DefaultAssessment(name, AssessParseReason);
    }

    /** The part of `research_entity` after the assessment: answer from
      knowledge or search (answer `response`), counting which. */
    method ActOnAssessment(entity: Value, a: Value, response: ProviderResponse, now: string)
      returns (r: Result<Research>)
      requires NamedEntity(entity)
      modifies this
      ensures r == Decide(entity, a, response)
      ensures reasoningSteps == old(reasoningSteps) + DecideEntries(EntityName(entity), a, response, now)
      ensures stats == Counted(old(stats), r)
    {
      var name := EntityName(entity);
      if !a.VDict? {
        assert Decide(entity, a, response) == Raised(NoGetMessage);
        assert DecideEntries(name, a, response, now) == [];
        assert reasoningSteps + [] == reasoningSteps;
        return Raised(NoGetMessage);
      }
      if !Truthy(GetOr(a, "needs_search", VBool(true))) {
        r := UseKnowledge(entity, a, now);
        assert r == Decide(entity, a, response);
        assert DecideEntries(name, a, response, now) == [At(KnowledgeNote(a), now)];
        return;
      }
      ghost var steps0 := reasoningSteps;
      ghost var first := [At(Note(ResearchNeededStep + Show(GetOr(a, "reasoning", VStr(UnknownEntity))), Info), now),
                          At(SearchingNote(name), now)];
      assert DecideEntries(name, a, response, now) == first + SearchEntries(name, response, now);
      AddReasoning(Note(ResearchNeededStep + Show(GetOr(a, "reasoning", VStr(UnknownEntity))), Info), now);
      AddReasoning(SearchingNote(name), now);
      var query := GetOr(a, "search_query", VStr(name + RecentNews));
      assert query == QueryOf(name, a);
      r := SearchEntity(entity, query, response, now);
      AppendTwo(steps0, first, SearchEntries(name, response, now));
    }

    /** The answer of `research_entity` from the LLM's own knowledge. */
    method UseKnowledge(entity: Value, a: Value, now: string) returns (r: Result<Research>)
      requires NamedEntity(entity) && a.VDict?
      modifies this
      ensures r == Ok(Known(EntityName(entity), EntityType(entity), EntityContext(entity),
                            GetOr(a, "known_info", VStr("")), GetOr(a, "reasoning", VStr(""))))
      ensures reasoningSteps == old(reasoningSteps) + [At(KnowledgeNote(a), now)]
      ensures stats == old(stats).(entitiesKnown := old(stats).entitiesKnown + 1)
    {
      AddReasoning(KnowledgeNote(a), now);
      stats := stats.(entitiesKnown := stats.entitiesKnown + 1);
      r := Ok(Known(EntityName(entity), EntityType(entity), EntityContext(entity),
                    GetOr(a, "known_info", VStr("")), GetOr(a, "reasoning", VStr(""))));
    }

    /** The search step of `research_entity`: searches for `query` (answer
      `response`) and reports the sources or the error. */
    method SearchEntity(entity: Value, query: Value, response: ProviderResponse, now: string)
      returns (r: Result<Research>)
      requires NamedEntity(entity)
      modifies this
      ensures ErrorAnswer(response) ==> r == Ok(SearchFailed(EntityName(entity), response.message))
      ensures !ErrorAnswer(response) ==>
        r == Ok(Searched(EntityName(entity), EntityType(entity), EntityContext(entity),
                         SearchSources(response, EntityResults), query))
      ensures reasoningSteps == old(reasoningSteps) + SearchEntries(EntityName(entity), response, now)
      ensures stats == Counted(old(stats), r)
    {
      var name := EntityName(entity);
      var found := Search(Show(query), EntityResults, response);
      if HasError(found) {
        AddReasoning(SearchFailedNote(name, found.error), now);
        return Ok(SearchFailed(name, found.error));
      }
      var sources := SourcesOf(found);
      AddReasoning(FoundSourcesNote(|sources|, name), now);
      stats := stats.(entitiesSearched := stats.entitiesSearched + 1, linkupSources := stats.linkupSources + |sources|);
      r := Ok(Searched(name, EntityType(entity), EntityContext(entity), sources, query));
    }

    /** `research_entity`: assesses the entity (the LLM answers `reply`),
      then acts on the assessment. */
    method ResearchEntity(entity: Value, reply: LlmReply, response: ProviderResponse,
                          parse: string -> ParseOutcome, now: string)
      returns (r: Result<Research>)
      requires NamedEntity(entity)
      modifies this
      ensures r == ResearchOutcome(entity, reply, parse, response)
      ensures reasoningSteps == old(reasoningSteps) + ResearchEntries(entity, reply, parse, response, now)
      ensures stats == Counted(old(stats), r)
    {
      ghost var steps0 := reasoningSteps;
      ghost var first := [At(AssessingNote(EntityName(entity), EntityType(entity)), now)];
      ghost var assessed := Assess(reply, parse);
      AddReasoning(AssessingNote(EntityName(entity), EntityType(entity)), now);
      var a := AssessKnowledge(entity, reply, parse, now);
      ghost var middle := AssessEntries(assessed, now);
      r := ActOnAssessment(entity, a, response, now);
      ghost var last := DecideEntries(EntityName(entity), a, response, now);
      assert reasoningSteps == steps0 + first + middle + last;
      AppendThree(steps0, first, middle, last);
    }

    /** One turn of the loop of `research_all_entities`: counts entity `i`
      in `total_entities`, then researches it. */
    method CountAndResearch(entities: seq<Value>, i: nat, replies: nat -> LlmReply,
                            responses: nat -> ProviderResponse, parse: string -> ParseOutcome, now: string)
      returns (one: Result<Research>)
      requires forall e :: e in entities ==> NamedEntity(e)
      requires i < |entities|
      modifies this
      ensures one == Outcomes(entities, replies, responses, parse)[i]
      ensures stats == Counted(old(stats).(totalEntities := old(stats).totalEntities + 1), one)
      ensures reasoningSteps == old(reasoningSteps) + Logs(entities, replies, responses, parse, now)[i]
    {
      stats := stats.(totalEntities := stats.totalEntities + 1);
      one := ResearchEntity(entities[i], replies(i), responses(i), parse, now);
    }

    /** `research_all_entities`: researches every entity in order, counting
      each in `total_entities` first, and keys the results by name. Entity
      number `i` is assessed by `replies(i)` and searched with answer
      `responses(i)`. */
    method ResearchAllEntities(entities: seq<Value>, replies: nat -> LlmReply,
                               responses: nat -> ProviderResponse, parse: string -> ParseOutcome, now: string)
      returns (r: Result<seq<(string, Research)>>)
      requires forall e :: e in entities ==> NamedEntity(e)
      modifies this
      ensures r.Ok? <==> RunAll(old(stats), entities, replies, responses, parse, now).raised.None?
      ensures r.Raised? ==> RunAll(old(stats), entities, replies, responses, parse, now).raised == Some(r.message)
      ensures r.Ok? ==> r.value == RunAll(old(stats), entities, replies, responses, parse, now).results
      ensures stats == RunAll(old(stats), entities, replies, responses, parse, now).stats
      ensures reasoningSteps == old(reasoningSteps) + RunAll(old(stats), entities, replies, responses, parse, now).entries
    {
      ghost var stats0 := stats;
      ghost var steps0 := reasoningSteps;
      ghost var names := Names(entities);
      ghost var outcomes := Outcomes(entities, replies, responses, parse);
      ghost var logs := Logs(entities, replies, responses, parse, now);
      ghost var run := Run([], stats0, [], None);
      var results: seq<(string, Research)> := [];
      var i := 0;
      while i < |entities|
        invariant 0 <= i <= |entities|
        invariant run == RunSteps(stats0, names[..i], outcomes[..i], logs[..i])
        invariant run.raised.None?
        invariant results == run.results && stats == run.stats && reasoningSteps == steps0 + run.entries
      {
        ghost var next := StepRun(run, names[i], outcomes[i], logs[i]);
        RunOneMore(stats0, names, outcomes, logs, i);
        AppendTwo(steps0, run.entries, logs[i]);
        var name := EntityName(entities[i]);
        assert name == names[i];
        var one := CountAndResearch(entities, i, replies, responses, parse, now);
        run := next;
        if one.Raised? {
          RunStops(stats0, names, outcomes, logs, i + 1);
          return Raised(one.message);
        }
        results := Dicts.Put<string, Research>(results, name, one.value);
        i := i + 1;
      }
      assert names[..i] == names && outcomes[..i] == outcomes && logs[..i] == logs;
      r := Ok(results);
    }

    /** `extract_entities`, given the LLM's reply. */
    method ExtractEntities(reply: LlmReply, parse: string -> ParseOutcome, now: string) returns (entities: Value)
      modifies this
      ensures entities == ExtractionOf(reply, parse).entities
      ensures reasoningSteps == old(reasoningSteps) +
        [At(Note(ExtractStartStep, Info), now), At(ExtractionOf(reply, parse).last, now)]
      ensures stats == old(stats)
    {
      AddReasoning(Note(ExtractStartStep, Info), now);
      var last: Note;
      if ReplyFailed(reply) {
        last := Note(ExtractFailedStep + reply.error.value, Warning);
        entities := VList([]);
      } else if reply.content.None? {
        last := Note(ExtractErrorStep + NoneStripMessage, Error);
        entities := VList([]);
      } else {
        match parse(Unfenced(reply.content.value))
        case DecodeError(m) =>
          last := Note(ExtractParseStep + m, Warning);
          entities := VList([]);
        case Parsed(v) =>
          if !Truthy(v) {
            last := Note(NoEntitiesStep, Info);
            entities := v;
          } else if EntityList(v) {
            last := EntitiesFoundNote(Iterate(v).value);
            entities := v;
          } else {
            last := Note(ExtractErrorStep + NotEntitiesMessage, Error);
            entities := VList([]);
          }
          assert Extraction(entities, last) == ParsedExtraction(v);
      }
      assert Extraction(entities, last) == ExtractionOf(reply, parse);
      AddReasoning(last, now);
    }

    /** The `+=` loop of `draft_reply` that builds the research section. */
    static method BuildResearchContext(rd: seq<(string, Research)>) returns (text: string)
      ensures text == ResearchContext(rd)
    {
      text := "";
      if rd != [] {
        var blocks := seq(|rd|, i requires 0 <= i < |rd| => EntityBlock(rd[i].0, rd[i].1));
        text := ContextHeader;
        for i := 0 to |rd|
          invariant text == ContextHeader + Concat(blocks[..i])
        {
          assert blocks[..i + 1][..i] == blocks[..i];
          text := text + EntityBlock(rd[i].0, rd[i].1);
        }
        assert blocks[..|rd|] == blocks;
      }
    }

    /** `draft_reply`: the LLM's draft, asked with the email and the research
      section (`ask` gives its reply to that prompt). */
    method DraftReply(emailContent: string, rd: seq<(string, Research)>,
                      ask: (string, string) -> LlmReply, now: string)
      returns (draft: Option<string>)
      modifies this
      ensures draft == DraftOf(ask(emailContent, ResearchContext(rd)))
      ensures reasoningSteps == old(reasoningSteps) +
        [At(Note(DraftStartStep, Info), now), At(DraftNote(ask(emailContent, ResearchContext(rd))), now)]
      ensures stats == old(stats)
    {
      AddReasoning(Note(DraftStartStep, Info), now);
      var context := BuildResearchContext(rd);
      var reply := ask(emailContent, context);
      if ReplyFailed(reply) {
        AddReasoning(Note(DraftFailedStep + reply.error.value, Error), now);
        return Some(DraftFailedText);
      }
      AddReasoning(Note(DraftDoneStep, Success), now);
      draft := reply.content;
    }

    /** The loop that gathers the sources of every result, in result order. */
    static method CollectSources(rd: seq<(string, Research)>) returns (all: seq<Source>)
      ensures all == AllSources(rd)
    {
      all := [];
      for i := 0 to |rd|
        invariant all == AllSources(rd[..i])
      {
        assert rd[..i + 1] == rd[..i] + [rd[i]];
        AllSourcesSnoc(rd[..i], rd[i]);
        all := all + ResearchSources(rd[i].1);
      }
      assert rd[..|rd|] == rd;
    }

    /** The end of `analyze_email`, once the research is done: drafts the
      reply, collects the sources, and logs the duration and the
      efficiency. */
    method Conclude(emailContent: string, metadata: Value, entities: Value, ghost ex: Extraction, ghost run: Run,
                    researchData: seq<(string, Research)>, ask: (string, string) -> LlmReply, now: string,
                    executionTime: real, timestamp: string)
      returns (analysis: Analysis)
      requires entities == ex.entities && researchData == run.results && stats == run.stats
      requires reasoningSteps ==
        [At(Note(AnalysisStartStep, Info), now), At(Note(ExtractStartStep, Info), now), At(ex.last, now)] + run.entries
      modifies this
      ensures analysis == Concluded(emailContent, metadata, ex, run, ask, now, executionTime, timestamp)
      ensures reasoningSteps == analysis.reasoningSteps && stats == analysis.stats
    {
      ghost var steps0 := reasoningSteps;
      ghost var reply := ask(emailContent, ResearchContext(run.results));
      var draftReply := DraftReply(emailContent, researchData, ask, now);
      var allSources := CollectSources(researchData);
      ghost var drafted := [At(Note(DraftStartStep, Info), now), At(DraftNote(reply), now)];
      assert reasoningSteps == steps0 + drafted;
      var efficiency := Report(executionTime, now);
      ghost var reported := [At(CompletedNote(executionTime), now), At(EfficiencyNote(run.stats), now)];
      ghost var tail := [At(Note(DraftStartStep, Info), now), At(DraftNote(reply), now),
                         At(CompletedNote(executionTime), now), At(EfficiencyNote(run.stats), now)];
      AppendTwo(steps0, drafted, reported);
      assert drafted + reported == tail;
      AppendTwo([At(Note(AnalysisStartStep, Info), now), At(Note(ExtractStartStep, Info), now), At(ex.last, now)],
                run.entries, tail);
      analysis := Analysis(entities, researchData, draftReply, reasoningSteps, Prefix(allSources, ShownSources),
                           executionTime, MetadataOr(metadata), timestamp, stats, efficiency);
    }

    /** The closing steps of `analyze_email`: logs the duration, then the
      efficiency it computes from the counters. */
    method Report(executionTime: real, now: string) returns (efficiency: nat)
      modifies this
      ensures efficiency == EfficiencyTenths(stats)
      ensures reasoningSteps == old(reasoningSteps) + [At(CompletedNote(executionTime), now), At(EfficiencyNote(stats), now)]
      ensures stats == old(stats)
    {
      AddReasoning(CompletedNote(executionTime), now);
      efficiency := 0;
      if stats.totalEntities > 0 {
        efficiency := RoundHalfEven(stats.entitiesKnown * 1000, stats.totalEntities);
      }
      AddReasoning(EfficiencyNote(stats), now);
    }

    /** `research_data = {}`, then `research_all_entities` when the
      extracted entities are truthy. */
    method ResearchExtracted(entities: Value, replies: nat -> LlmReply, responses: nat -> ProviderResponse,
                             parse: string -> ParseOutcome, now: string)
      returns (r: Result<seq<(string, Research)>>)
      requires Truthy(entities) ==> EntityList(entities)
      modifies this
      ensures var run := RunAll(old(stats), Visited(entities), replies, responses, parse, now);
        (r.Ok? <==> run.raised.None?) && (r.Raised? ==> run.raised == Some(r.message)) &&
        (r.Ok? ==> r.value == run.results) && stats == run.stats &&
        reasoningSteps == old(reasoningSteps) + run.entries
    {
      if Truthy(entities) {
        r := ResearchAllEntities(Iterate(entities).value, replies, responses, parse, now);
      } else {
        assert Names([]) == [] && Outcomes([], replies, responses, parse) == [] &&
               Logs([], replies, responses, parse, now) == [];
        assert reasoningSteps + [] == reasoningSteps;
        r := Ok([]);
      }
    }

    /** `analyze_email`: resets the log and the counters, then extracts,
      researches, drafts and reports; the result depends on nothing the
      agent held before the call. */
    method AnalyzeEmail(emailContent: string, metadata: Value, extractReply: LlmReply, replies: nat -> LlmReply,
                        responses: nat -> ProviderResponse, ask: (string, string) -> LlmReply,
                        parse: string -> ParseOutcome, now: string, executionTime: real, timestamp: string)
      returns (r: Result<Analysis>)
      modifies this
      ensures r == AnalysisOf(emailContent, metadata, extractReply, replies, responses, ask, parse, now,
                              executionTime, timestamp)
      ensures r.Ok? ==> reasoningSteps == r.value.reasoningSteps && stats == r.value.stats
      ensures r.Raised? ==> stats == AnalysisRun(extractReply, replies, responses, parse, now).stats
    {
      reasoningSteps := [];
      stats := NoStats;
      AddReasoning(Note(AnalysisStartStep, Info), now);
      assert reasoningSteps == [At(Note(AnalysisStartStep, Info), now)];
      var entities := ExtractEntities(extractReply, parse, now);
      ghost var ex := ExtractionOf(extractReply, parse);
      ghost var opening := [At(Note(AnalysisStartStep, Info), now), At(Note(ExtractStartStep, Info), now), At(ex.last, now)];
      assert reasoningSteps == opening;
      var researched := ResearchExtracted(entities, replies, responses, parse, now);
      ghost var run := AnalysisRun(extractReply, replies, responses, parse, now);
      assert reasoningSteps == opening + run.entries;
      if researched.Raised? {
        return Raised(researched.message);
      }
      var analysis := Conclude(emailContent, metadata, entities, ex, run, researched.value, ask, now, executionTime,
                               timestamp);
      r := Ok(analysis);
    }
  }
}
