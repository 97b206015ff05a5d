# agi-desktop-agent core, modelled in Dafny

This project models the agent core of **agi-desktop-agent**, a desktop assistant. The assistant
reads a user's e-mail and calendar. It researches the companies and topics it finds with the
Linkup web-search service. It drafts replies and meeting briefings with a Groq-hosted language
model, and it keeps its own memory and chat sessions. The modelled core covers:

- **Linkup wrapper** (`Linkup`): turning provider results into numbered, trimmed sources.
- **Memory store** (`Memory`): keyword search over stored e-mails and conversations, the company
  context (last contact, summary, totals), and saving meeting interactions.
- **Session store** (`Sessions`): chat sessions with interactions, auto-titling, listing by
  recency, deletion, and the JSON sanitiser.
- **Reasoning tracker** (`Tracker`): the step log, session start/end, the per-step details, the
  saved file name and the session summary.
- **Meeting agent** (`Meeting`): the five-step briefing pipeline, briefing JSON parsing, fallback,
  confidence score and source attribution.
- **E-mail intelligence agent** (`EmailIntelligence`): entity extraction, the
  know-or-search decision per entity, research statistics, the efficiency figure, the drafted
  reply and the analysis result.
- **Router** (`Router`): scenario classification, the repair of a model answer, and the keyword
  fallback.
- **Orchestrator** (`Orchestrator`): routing to scenarios, the per-scenario result, the error
  result, and saving the routed result into a session.
- **Document agent** (`Document`): PDF discovery, chunking, per-chunk summaries, and the choice
  between document and web answers.
- **Calendar and Gmail clients** (`Calendar`, `Gmail`): standardising provider events and
  messages, company extraction, filtering and ordering.
- **Research agent, reply generator, e-mail processor** (`Research`, `Reply`, `EmailProcessor`):
  searching several topics, building the research context for a reply, batch processing, and the
  text displays.

Every external service is a parameter of the operation that uses it. The model covers the
language model, the Linkup client, `json.loads`, Google API listings, clocks, `uuid`, `base64`
decoding and PDF extraction this way. A Python value that comes from JSON or from a model
reply is a `Values.Value` (None, bool, int, float, str, list, tuple, dict, object). A Python
exception that the source does not catch becomes `Result.Raised`. Its message is the
interpreter's text only for `None.strip()` (`Values.NoneStripMessage`). Every other raise carries
a placeholder that names the exception class (`TypeError`, `KeyError`, `AttributeError`,
`IndexError`).
Percentages and confidences are whole numbers: hundredths where the source keeps two decimals,
tenths for the efficiency figure. Python's `round` is round-half-even on the exact quotient.
Objects whose fields the source updates in place are Dafny classes with `seq`/`map` fields.
Their methods are proved against specification functions of the same module.

Shared modules: `Wrappers` (Option, Result, a stop-at-first-exception loop), `Text` (Python string
operations), `Seqs` (slices, filters, string order, a stable descending sort), `Dicts`
(association lists), `Values` (the Python value model) and `Services` (reply and provider shapes).

## Model

| member | source | states |
|---|---|---|
| Linkup.TitleOf | agi-desktop-agent/src/agents/linkup_wrapper.py:46 | the title is the item's non-empty name, otherwise its title, otherwise "" |
| Linkup.SourceOf | agi-desktop-agent/src/agents/linkup_wrapper.py:45-52 | a source carries the given rank as relevance, the item's url, and a snippet of at most 200 characters, cut from the snippet attribute or else from the content |
| Linkup.SearchSources | agi-desktop-agent/src/agents/linkup_wrapper.py:40-53 | at most max_results sources, exactly min(max_results, item count); none for a missing results attribute or a failure; relevance numbers 1, 2, 3, … in order |
| Linkup.Search | agi-desktop-agent/src/agents/linkup_wrapper.py:22-63 | the result is an error exactly when the provider call fails, and then has the query, no sources and the error text; otherwise total_found equals the number of sources returned |
| Linkup.FormatSourcesForAgent | agi-desktop-agent/src/agents/linkup_wrapper.py:65-74 | the text is one numbered block per source (numbering from 1), newline-joined; an empty source list gives "" |
| Linkup.TestConnection | agi-desktop-agent/src/agents/linkup_wrapper.py:76-79 | the connection test succeeds exactly when the one-result test search does not fail |
| Memory.Matches | agi-desktop-agent/src/memory/store.py:55-64 | a record matches exactly when some string field contains the lower-cased keyword, ignoring the field's case |
| Memory.MatchesIgnoresKeywordCase | agi-desktop-agent/src/memory/store.py:60 | matching with a keyword gives the same answer as matching with its lower-case form |
| Memory.SearchRecords | agi-desktop-agent/src/memory/store.py:78-85 | the search raises exactly when a stored record is not a dict (AttributeError) or the matching records' sort keys (`date`, else `timestamp`, else "0") are not all numbers or all strings (TypeError); otherwise the result is a permutation of the matching records, ordered newest first by that key in Python's order (numbers by value, strings by code points), and holds a stored record exactly when it matches |
| Memory.ContactDatesMembers | agi-desktop-agent/src/memory/store.py:124-128 | the collected dates are exactly the truthy `date`/`timestamp` values of the records |
| Memory.LatestDate | agi-desktop-agent/src/memory/store.py:129-130 | sorting the dates raises TypeError exactly when they are not all numbers or all strings; otherwise None exactly for no dates, else one of the dates that no other date exceeds |
| Memory.LatestOfRecords | agi-desktop-agent/src/memory/store.py:123-130 | last_contact is None exactly when no record has a truthy date, otherwise the date of one record and no smaller than any record's date |
| Memory.Preview | agi-desktop-agent/src/memory/store.py:140 | `[:150]` on a body or notes value succeeds exactly on a string, list or tuple, and raises TypeError on anything else; a string keeps its first 150 characters |
| Memory.EmailLine | agi-desktop-agent/src/memory/store.py:137-144 | an e-mail's summary line exists exactly when its body preview can be sliced |
| Memory.ConversationLine | agi-desktop-agent/src/memory/store.py:151-157 | a conversation's summary line exists exactly when its notes preview can be sliced |
| Memory.EmailLinesRaise | agi-desktop-agent/src/memory/store.py:134-146 | the e-mail part of the summary raises exactly when one of the first five found e-mails has an unsliceable body |
| Memory.ConversationLinesRaise | agi-desktop-agent/src/memory/store.py:148-159 | the conversation part of the summary raises exactly when one of the first five found conversations has unsliceable notes |
| Memory.SummaryLinesRaise | agi-desktop-agent/src/memory/store.py:133-159 | the summary raises exactly when one of the first five e-mails or the first five conversations cannot be previewed; later records are never previewed |
| Memory.SummaryLinesCount | agi-desktop-agent/src/memory/store.py:133-159 | a summary that does not raise has one heading line per kind plus one line for each of the first five records of that kind, so never more than 12 lines |
| Memory.ContextRaises | agi-desktop-agent/src/memory/store.py:105-168 | the context raises exactly when one of the two searches, the date sort or the summary raises |
| Memory.ContextFields | agi-desktop-agent/src/memory/store.py:161-168 | a context that does not raise holds the company, the two searches, their combined length as total, and the newline-joined summary lines |
| Memory.ContextLastContact | agi-desktop-agent/src/memory/store.py:123-130 | a context's last_contact is None exactly when no found record is dated, otherwise a found record's date no smaller than any other found record's date |
| Memory.MemoryStore.constructor | agi-desktop-agent/src/memory/store.py:16-45 | the store starts with the given e-mail and conversation histories, the list contents of its two JSON files |
| Memory.MemoryStore.SearchEmails | agi-desktop-agent/src/memory/store.py:68-85 | searching the stored e-mails raises exactly as the record search does; otherwise it returns a permutation of the matching e-mails, newest first |
| Memory.MemoryStore.SearchConversations | agi-desktop-agent/src/memory/store.py:87-103 | searching the stored conversations raises exactly as the record search does; otherwise it returns a permutation of the matching conversations, newest first |
| Memory.MemoryStore.GetCompanyContext | agi-desktop-agent/src/memory/store.py:105-168 | the method computes the context of the stored histories: it stops with the first exception of the searches, the date sort or the summary, and otherwise returns the context described above |
| Memory.MemoryStore.LatestContact | agi-desktop-agent/src/memory/store.py:123-130 | the sort raises exactly when the truthy dates are not all numbers or all strings; otherwise None exactly when no record has a truthy date, else the greatest date |
| Memory.MemoryStore.CollectDates | agi-desktop-agent/src/memory/store.py:124-128 | the loop collects the truthy dates of the records in order |
| Memory.MemoryStore.Summarize | agi-desktop-agent/src/memory/store.py:132-167 | the summary is the newline-joined e-mail and conversation lines, raising where a preview raises |
| Memory.MemoryStore.DescribeEmails | agi-desktop-agent/src/memory/store.py:134-146 | the loop produces the e-mail heading and one line per e-mail among the first five, or the "no past emails" line, and raises at the first unsliceable body |
| Memory.MemoryStore.DescribeConversations | agi-desktop-agent/src/memory/store.py:148-159 | the loop produces the conversation heading and one line per conversation among the first five, or the "no past meetings" line, and raises at the first unsliceable notes |
| Memory.MemoryStore.SaveMeetingInteraction | agi-desktop-agent/src/memory/store.py:170-185 | e-mails are unchanged; exactly one dict record is appended to the conversations, numbered "meeting_" plus the zero-padded new count, keeping the first 500 characters of the briefing |
| Memory.MatchingSnoc | agi-desktop-agent/src/memory/store.py:79 | appending a record to a history appends it to the matching records exactly when it matches |
| Memory.SavedMeetingMatches | agi-desktop-agent/src/memory/store.py:170-179 | a saved meeting record matches a search for its own company |
| Memory.MeetingRecordDate | agi-desktop-agent/src/memory/store.py:182 | a saved meeting record is sorted by its `date` text |
| Memory.SavedMeetingIsFound | agi-desktop-agent/src/memory/store.py:170-185 | a search over the history with a saved meeting appended, when it does not raise, finds that meeting |
| Memory.SavedMeetingKeepsSearch | agi-desktop-agent/src/memory/store.py:170-185 | when a search succeeds and every matching record is dated by a string, it still succeeds after a meeting is saved |
| Sessions.Sanitize | agi-desktop-agent/src/memory/session_store.py:156-168 | a dict keeps its keys in order with each value sanitised; a list or tuple becomes a list of the same length; an object becomes its string form |
| Sessions.SanitizeIsJsonReady | agi-desktop-agent/src/memory/session_store.py:156-168 | whatever it is given, the sanitiser returns a value made only of dicts, lists, strings, numbers, booleans and None |
| Sessions.SanitizeKeepsJsonReady | agi-desktop-agent/src/memory/session_store.py:156-168 | a value that is already JSON-ready comes back unchanged |
| Sessions.SanitizeIdempotent | agi-desktop-agent/src/memory/session_store.py:156-168 | sanitising twice gives the same value as sanitising once |
| Sessions.WithInteractionProperties | agi-desktop-agent/src/memory/session_store.py:68-83 | appending keeps the old interactions as a prefix, adds exactly one whose route and results are JSON-ready, keeps 1-based numbering, keeps id and creation time, and retitles only on the first append of a default "Session " title, to the first 80 characters of the query |
| Sessions.SessionStore.constructor | agi-desktop-agent/src/memory/session_store.py:27-32 | a new store holds no sessions |
| Sessions.SessionStore.CreateSession | agi-desktop-agent/src/memory/session_store.py:36-47 | the id is the first 12 hex digits of the fresh uuid; exactly one session is added under it, with no interactions, both timestamps equal to now, and the given title or "Session " plus the first six id characters |
| Sessions.SessionStore.Append | agi-desktop-agent/src/memory/session_store.py:49-86 | an unknown session raises "Session <id> not found" and changes nothing; otherwise the result is the new 1-based interaction number and only that session changes, by the append above |
| Sessions.SessionStore.GetSession | agi-desktop-agent/src/memory/session_store.py:90-92 | a session is returned exactly when its id is stored, and it is the stored one |
| Sessions.SessionStore.GetInteraction | agi-desktop-agent/src/memory/session_store.py:94-102 | None for an unknown session or when no interaction has the id; otherwise the first interaction with that id, which for 1 <= k <= count is the k-th |
| Sessions.SessionStore.ListSessions | agi-desktop-agent/src/memory/session_store.py:104-128 | min(limit, session count) summaries, newest updated_at first, each the summary of a stored session and, in a store keyed by session id, each listed once; every session left out is no newer than every one kept, so the kept ones are the newest; every session is listed when the limit covers them all |
| Sessions.SessionStore.CollectSummaries | agi-desktop-agent/src/memory/session_store.py:109-125 | the loop yields exactly one summary per stored session, each once in a store keyed by session id |
| Sessions.SessionStore.DeleteSession | agi-desktop-agent/src/memory/session_store.py:130-136 | the result is true exactly when the session existed, and afterwards exactly that session is gone |
| Tracker.StepNames | agi-desktop-agent/src/agents/reasoning_tracker.py:160-161 | one step name per logged step, in log order |
| Tracker.CountIsMultiplicity | agi-desktop-agent/src/agents/reasoning_tracker.py:159-164 | the count of a name is its multiplicity among the step names |
| Tracker.TallyCount | agi-desktop-agent/src/agents/reasoning_tracker.py:159-164 | in steps_by_type, a name's count is the number of steps carrying it, and a name that never occurs is absent |
| Tracker.TallyTotal | agi-desktop-agent/src/agents/reasoning_tracker.py:159-164 | the counts in steps_by_type add up to the number of steps |
| Tracker.ReasoningTracker.constructor | agi-desktop-agent/src/agents/reasoning_tracker.py:12-21 | a new tracker has an empty log and no current session |
| Tracker.ReasoningTracker.LogStep | agi-desktop-agent/src/agents/reasoning_tracker.py:39-48 | exactly one step is appended, carrying the name, the current session id, the time and the details; the session id is unchanged |
| Tracker.ReasoningTracker.StartSession | agi-desktop-agent/src/agents/reasoning_tracker.py:23-37 | the session id is "email_" + email id + "_" + clock stamp, becomes the current id, and the SESSION_START step appended under it carries email id, sender, subject and time |
| Tracker.ReasoningTracker.LogExtraction | agi-desktop-agent/src/agents/reasoning_tracker.py:51-62 | the step is logged exactly when key_topics, action_items and research_queries all have a length; it records those lengths (0 for a missing key), the sentiment and the urgency; otherwise Python raises and the log is unchanged |
| Tracker.ReasoningTracker.LogResearch | agi-desktop-agent/src/agents/reasoning_tracker.py:64-82 | the step is logged exactly when the report's shape lets the counts be taken, with the number of searches and the total results; otherwise the log is unchanged |
| Tracker.ReasoningTracker.LogReplyGeneration | agi-desktop-agent/src/agents/reasoning_tracker.py:84-96 | raises, leaving the log unchanged, exactly when the status is "success" and the reply has no length; otherwise logs status, used_research (default false) and reply_length, which is 0 unless the status is "success" |
| Tracker.ReasoningTracker.LogDecision | agi-desktop-agent/src/agents/reasoning_tracker.py:98-110 | exactly one DECISION step with the decision, reasoning, options and choice is appended |
| Tracker.ReasoningTracker.EndSession | agi-desktop-agent/src/agents/reasoning_tracker.py:112-121 | one SESSION_END step is appended whose total_steps is the log length before it |
| Tracker.ReasoningTracker.SaveSession | agi-desktop-agent/src/agents/reasoning_tracker.py:123-143 | returns None exactly when the log is empty; raises exactly when some step's details cannot be written as JSON; otherwise the path is `str(Path(log_dir) / name)` for the name "reasoning_log_[<email id>_]<stamp>.json", with the id part present only for a truthy id |
| Tracker.PathRoot | agi-desktop-agent/src/agents/reasoning_tracker.py:17 | a path keeps a root exactly when it starts with a slash |
| Tracker.NameIsOnePart | agi-desktop-agent/src/agents/reasoning_tracker.py:131-135 | a non-empty file name other than "." and without a slash is a single path component |
| Tracker.JoinPathName | agi-desktop-agent/src/agents/reasoning_tracker.py:136 | joining a one-component file name onto a directory gives the directory's root, its components joined by single slashes and the name after one more slash (or directly after the root when the directory has no components) |
| Tracker.DefaultLogDirPath | agi-desktop-agent/src/agents/reasoning_tracker.py:15 | with the default log directory "data/" the path is "data/" followed by the name, without a doubled slash; with "." or "" it is the name alone |
| Tracker.LogDirParts | agi-desktop-agent/src/agents/reasoning_tracker.py:15 | "data/" has the one component "data", and "." and "" have none; none of them is rooted |
| Tracker.ReasoningTracker.GetSessionSummary | agi-desktop-agent/src/agents/reasoning_tracker.py:145-166 | total_steps is the log length; the start and end timestamps are the first and last steps' (None for an empty log); steps_by_type counts each step name's occurrences and sums to the log length |
| Tracker.ReasoningTracker.FormatLogDisplay | agi-desktop-agent/src/agents/reasoning_tracker.py:168-192 | the text is the banner, one block per step numbered from 1 with its details, and the per-type counts of the summary, newline-joined |
| Tracker.ReasoningTracker.RenderSteps | agi-desktop-agent/src/agents/reasoning_tracker.py:175-181 | the loop renders every step's block in order |
| Tracker.ReasoningTracker.RenderStep | agi-desktop-agent/src/agents/reasoning_tracker.py:176-181 | the block of a step is its numbered name, its time, and one line per detail |
| Tracker.ReasoningTracker.RenderCounts | agi-desktop-agent/src/agents/reasoning_tracker.py:188-189 | one line per step type and count |
| Tracker.EntryFound | agi-desktop-agent/src/agents/reasoning_tracker.py:72-73 | a search entry without a "results" key adds 0; one with it adds that value's length; otherwise Python raises |
| Tracker.FoundTotalStops | agi-desktop-agent/src/agents/reasoning_tracker.py:71-73 | once one entry raises, the whole loop raises |
| Tracker.ResultsFoundSkipsUnkeyed | agi-desktop-agent/src/agents/reasoning_tracker.py:71-73 | entries without a "results" key add nothing to the total |
| Tracker.ResearchCounts | agi-desktop-agent/src/agents/reasoning_tracker.py:66-73 | a report without "results" gives (0, 0); otherwise the counts are the number of searches and the sum of their results' lengths |
| Tracker.SumFound | agi-desktop-agent/src/agents/reasoning_tracker.py:71-73 | the loop computes that sum, or raises as Python does |
| Meeting.BraceSpan | agi-desktop-agent/src/agents/meeting_agent.py:268-270 | a span exists exactly when the cleaned text has a "{" and a "}"; a non-empty span starts with "{" and ends with "}" |
| Meeting.ParseBriefingJson | agi-desktop-agent/src/agents/meeting_agent.py:254-281 | the fence-stripped reply is parsed when it is valid JSON; otherwise the brace span is tried; when both fail the result is the "Unable to parse" fallback |
| Meeting.ParseFallbackShape | agi-desktop-agent/src/agents/meeting_agent.py:275-281 | the unparsed fallback is a dict whose past_context is the first 200 characters of the raw reply and whose single talking point asks to review the raw response |
| Meeting.TalkingPointsEmpty | agi-desktop-agent/src/agents/meeting_agent.py:285-286 | the talking-points text is empty exactly when there are no points |
| Meeting.FormatBriefingText | agi-desktop-agent/src/agents/meeting_agent.py:283-310 | a text is produced exactly when the data is a dict whose talking_points (default []) can be iterated; otherwise Python raises |
| Meeting.FallbackDataShape | agi-desktop-agent/src/agents/meeting_agent.py:312-325 | the fallback data is a dict whose past_context is the memory summary and which has the four fixed talking points |
| Meeting.FallbackBriefing | agi-desktop-agent/src/agents/meeting_agent.py:312-329 | the fallback briefing's text is the rendering of its own data |
| Meeting.RenderOrFallback | agi-desktop-agent/src/agents/meeting_agent.py:240-252 | either the parsed data is kept and rendered, or, when rendering raises, the result is the fallback briefing; the text is always the rendering of the data kept |
| Meeting.SynthesizeBriefing | agi-desktop-agent/src/agents/meeting_agent.py:178-252 | the briefing data is always a dict |
| Meeting.SynthesizedTextRendersData | agi-desktop-agent/src/agents/meeting_agent.py:240-252 | whatever the reply, the briefing text is the rendering of the briefing data |
| Meeting.EmptyReplyFallsBack | agi-desktop-agent/src/agents/meeting_agent.py:235-237 | an empty or missing reply gives the fallback briefing, built on the memory summary with the four fixed talking points |
| Meeting.RepliedBriefing | agi-desktop-agent/src/agents/meeting_agent.py:239-252 | a non-empty reply keeps the parsed data when it renders, and otherwise gives the fallback briefing |
| Meeting.Confidence | agi-desktop-agent/src/agents/meeting_agent.py:333-353 | the score, in hundredths, never exceeds 100; it is 100 exactly when there are past interactions, at least three sources, truthy talking points and a last contact; it is 0 exactly when none of these four holds |
| Meeting.CalculateConfidence | agi-desktop-agent/src/agents/meeting_agent.py:333-353 | the method computes that score from the context, the source count and the briefing data |
| Meeting.BaseWeights | agi-desktop-agent/src/agents/meeting_agent.py:364-384 | the base weights sum to 100, give 0 to an absent source, and leave the model at least 30 |
| Meeting.InteractionBonus | agi-desktop-agent/src/agents/meeting_agent.py:386-390 | the memory bonus is at most 10 and at most 3 per interaction |
| Meeting.SourceBonus | agi-desktop-agent/src/agents/meeting_agent.py:392-396 | the Linkup bonus is at most 10 and at most 2 per source |
| Meeting.MemoryShare | agi-desktop-agent/src/agents/meeting_agent.py:398-401 | the memory percentage lies in 0..60 and is 0 exactly when memory found nothing |
| Meeting.LinkupShare | agi-desktop-agent/src/agents/meeting_agent.py:398-402 | the Linkup percentage lies in 0..65 and is 0 exactly when no source was found |
| Meeting.Sections | agi-desktop-agent/src/agents/meeting_agent.py:405-428 | there are five sections, and each one's sources end with "LLM" |
| Meeting.VerificationStatus | agi-desktop-agent/src/agents/meeting_agent.py:438 | "Cross-verified" exactly when both sources contributed, "Partially verified" exactly when one did, "Unverified" exactly when neither did |
| Meeting.RoundWholePercent | agi-desktop-agent/src/agents/meeting_agent.py:401-402 | rounding a whole percentage gives it back |
| Meeting.CalculateSourceAttribution | agi-desktop-agent/src/agents/meeting_agent.py:355-439 | the memory and Linkup percentages are the shares computed from the interaction and source counts, the model takes the rest, at least 10; the three sum to 100, and are 0/0/100 with nothing found; the counts, freshness, verification status and sections (none for empty briefing data) follow what was found |
| Meeting.CompletedSnoc | agi-desktop-agent/src/agents/meeting_agent.py:53-129 | appending a completed step to completed steps keeps them all completed |
| Meeting.CompleteLast | agi-desktop-agent/src/agents/meeting_agent.py:65-67 | marking the running step complete changes only the last step's status and detail |
| Meeting.MeetingAgent.constructor | agi-desktop-agent/src/agents/meeting_agent.py:20-23 | the agent keeps the given memory store |
| Meeting.MeetingAgent.SearchNews | agi-desktop-agent/src/agents/meeting_agent.py:154-163 | the news search returns the provider's sources, at most four |
| Meeting.MeetingAgent.SearchIndustry | agi-desktop-agent/src/agents/meeting_agent.py:165-174 | the industry search returns the provider's sources, at most four |
| Meeting.MeetingAgent.RecallStep | agi-desktop-agent/src/agents/meeting_agent.py:52-69 | step 1 computes the stored company context, raising as it does; when it does not raise, step 1 is completed and records the total and last contact |
| Meeting.MeetingAgent.NewsStep | agi-desktop-agent/src/agents/meeting_agent.py:71-86 | step 2 keeps the news sources and records their count |
| Meeting.MeetingAgent.IndustryStep | agi-desktop-agent/src/agents/meeting_agent.py:88-102 | step 3 keeps the industry sources and records their count |
| Meeting.MeetingAgent.SynthesisStep | agi-desktop-agent/src/agents/meeting_agent.py:104-120 | step 4 is the synthesised briefing |
| Meeting.MeetingAgent.PrepareBriefing | agi-desktop-agent/src/agents/meeting_agent.py:25-150 | raises exactly when the company context raises, with its message; otherwise five completed steps; the past interactions are that context (its searches, total, last contact and summary); the sources are the news sources followed by the industry sources; text and data are the synthesised briefing; confidence is computed from these; the attribution has the memory and Linkup shares of those counts, the model at least 10, the counts, the verification status and the sections |
| Meeting.MeetingAgent.BriefFrom | agi-desktop-agent/src/agents/meeting_agent.py:71-150 | after the recall step, steps 2 to 5 give the briefing described above for the given context |
| Meeting.CompleteBriefing | agi-desktop-agent/src/agents/meeting_agent.py:122-150 | the fifth, completed step is appended after the four completed ones, naming the interaction and source counts; the result carries the memory context, the sources and the briefing text and data unchanged, the confidence computed from them, and the attribution of those counts (shares, model at least 10, status, sections) summing to 100 |
| EmailIntelligence.Unfenced | agi-desktop-agent/src/agents/email_intelligence_agent.py:119-126 | the text handed to json.loads is the stripped reply, or the stripped piece after an opening fence without its "json" tag; it never starts or ends with white space |
| EmailIntelligence.UnfencedPlain | agi-desktop-agent/src/agents/email_intelligence_agent.py:119-126 | a reply that does not open a fence is parsed as it came, once stripped |
| EmailIntelligence.Assess | agi-desktop-agent/src/agents/email_intelligence_agent.py:101-148 | the assessment fails exactly when the model reports an error, sends no text, or sends text that json.loads rejects; otherwise it is the parsed value |
| EmailIntelligence.DefaultAssessmentSearches | agi-desktop-agent/src/agents/email_intelligence_agent.py:110-117 | the default assessment asks for a search, with confidence 0.5 and the entity name as query |
| EmailIntelligence.FailedAssessmentSearches | agi-desktop-agent/src/agents/email_intelligence_agent.py:106-148 | every failed assessment becomes that default: needs_search true, confidence 0.5, query = entity name |
| EmailIntelligence.Decide | agi-desktop-agent/src/agents/email_intelligence_agent.py:248-310 | Python raises exactly when the assessment is not a dict; the entity is known exactly when needs_search (default true) is falsy; the search failed exactly when a search was needed and the provider answered with an error; a searched entity keeps the provider's first five sources and the assessment's query, else "<name> recent news" |
| EmailIntelligence.Counted | agi-desktop-agent/src/agents/email_intelligence_agent.py:255-295 | total_entities is unchanged, known and searched only grow and by at most one together, and linkup_sources grows by the number of sources found |
| EmailIntelligence.FailedAssessmentIsSearched | agi-desktop-agent/src/agents/email_intelligence_agent.py:106-117 | after a failed assessment the entity is always searched, with its name as query, or its search fails |
| EmailIntelligence.KnownExactly | agi-desktop-agent/src/agents/email_intelligence_agent.py:249-264 | an entity is answered from memory exactly when the assessment is a dict that holds a falsy needs_search; a missing key means a search |
| EmailIntelligence.SearchedSources | agi-desktop-agent/src/agents/email_intelligence_agent.py:277-290 | a searched entity keeps at most five sources, numbered from 1 |
| EmailIntelligence.StepRun | agi-desktop-agent/src/agents/email_intelligence_agent.py:331-334 | one loop turn counts the entity first, then stores its result under its name, replacing an earlier one of the same name, or stops with the exception |
| EmailIntelligence.RunStops | agi-desktop-agent/src/agents/email_intelligence_agent.py:331-334 | once an entity raises, the loop ends with what it had then |
| EmailIntelligence.RunCounts | agi-desktop-agent/src/agents/email_intelligence_agent.py:331-334 | the loop adds at most one to total_entities per entity, exactly one each when nothing raises, and known plus searched never exceed the entities counted |
| EmailIntelligence.RunKeys | agi-desktop-agent/src/agents/email_intelligence_agent.py:329-334 | the research result has distinct keys, all entity names, at most one per entity, and every entity's name when nothing raises |
| EmailIntelligence.RunSourceCount | agi-desktop-agent/src/agents/email_intelligence_agent.py:294-295 | the sources kept in the research result never exceed linkup_sources |
| EmailIntelligence.ResearchContext | agi-desktop-agent/src/agents/email_intelligence_agent.py:354-380 | the research section is empty exactly when there is no research |
| EmailIntelligence.ContextQuotesTopThree | agi-desktop-agent/src/agents/email_intelligence_agent.py:370-372 | only the first three sources of an entity reach the prompt: cutting them beforehand leaves the section as it was |
| EmailIntelligence.ParsedExtraction | agi-desktop-agent/src/agents/email_intelligence_agent.py:205-215 | the parsed value is kept when it is falsy or a list of entities; a truthy value whose names cannot be listed makes Python raise and gives [] |
| EmailIntelligence.ExtractionOf | agi-desktop-agent/src/agents/email_intelligence_agent.py:184-222 | every failure (error reply, no text, a decode error, a truthy non-list) gives []; otherwise the parsed extraction; a truthy result is always a list of entities |
| EmailIntelligence.EfficiencyBounds | agi-desktop-agent/src/agents/email_intelligence_agent.py:463-468 | efficiency, in tenths of a percent, is at most 1000; it is 0 when no entity was known and 1000 when every entity was known |
| EmailIntelligence.AnalysisConsistent | agi-desktop-agent/src/agents/email_intelligence_agent.py:420-492 | in the analysis, total_entities is the number of extracted entities, known plus searched never exceed it, efficiency is at most 100%, research keys are distinct, the sources shown are the first ten collected, linkup_sources covers every source collected, and the log opens with the start note |
| EmailIntelligence.EmailIntelligenceAgent.constructor | agi-desktop-agent/src/agents/email_intelligence_agent.py:16-35 | a new agent has no reasoning steps and zero counters |
| EmailIntelligence.EmailIntelligenceAgent.AddReasoning | agi-desktop-agent/src/agents/email_intelligence_agent.py:37-49 | exactly one timestamped step is appended and the counters are unchanged |
| EmailIntelligence.EmailIntelligenceAgent.AssessKnowledge | agi-desktop-agent/src/agents/email_intelligence_agent.py:51-148 | returns the parsed assessment or the default one; logs one warning exactly on failure; counters unchanged |
| EmailIntelligence.EmailIntelligenceAgent.ActOnAssessment | agi-desktop-agent/src/agents/email_intelligence_agent.py:248-310 | the outcome is the decision above, with its log lines, and the counters updated accordingly |
| EmailIntelligence.EmailIntelligenceAgent.UseKnowledge | agi-desktop-agent/src/agents/email_intelligence_agent.py:249-264 | a known entity is returned with its known_info and reasoning, and only entities_known grows, by one |
| EmailIntelligence.EmailIntelligenceAgent.SearchEntity | agi-desktop-agent/src/agents/email_intelligence_agent.py:266-304 | a provider error gives the failed-search result; otherwise the searched result with its sources; counters and log follow |
| EmailIntelligence.EmailIntelligenceAgent.ResearchEntity | agi-desktop-agent/src/agents/email_intelligence_agent.py:224-310 | the method's outcome, log and counters are those of the research specification for that entity |
| EmailIntelligence.EmailIntelligenceAgent.CountAndResearch | agi-desktop-agent/src/agents/email_intelligence_agent.py:331-334 | one loop turn counts the entity, then researches it |
| EmailIntelligence.EmailIntelligenceAgent.ResearchAllEntities | agi-desktop-agent/src/agents/email_intelligence_agent.py:312-339 | the result is the research map exactly when no entity raised, otherwise the first exception; counters and log are those of the specified loop |
| EmailIntelligence.EmailIntelligenceAgent.ExtractEntities | agi-desktop-agent/src/agents/email_intelligence_agent.py:150-222 | the entities are those of the extraction specification, and exactly two steps are logged |
| EmailIntelligence.EmailIntelligenceAgent.BuildResearchContext | agi-desktop-agent/src/agents/email_intelligence_agent.py:354-380 | the loop builds the research section |
| EmailIntelligence.EmailIntelligenceAgent.DraftReply | agi-desktop-agent/src/agents/email_intelligence_agent.py:341-418 | the draft is the model's answer to the email with the research section, or the fixed error text when the model fails |
| EmailIntelligence.EmailIntelligenceAgent.CollectSources | agi-desktop-agent/src/agents/email_intelligence_agent.py:456-458 | the loop collects every entity's sources in research order |
| EmailIntelligence.EmailIntelligenceAgent.Conclude | agi-desktop-agent/src/agents/email_intelligence_agent.py:452-492 | the analysis is the concluded result, and the agent's log and counters are the analysis' |
| EmailIntelligence.EmailIntelligenceAgent.Report | agi-desktop-agent/src/agents/email_intelligence_agent.py:460-474 | the efficiency is the specified figure, and the completion and efficiency notes are appended |
| EmailIntelligence.EmailIntelligenceAgent.ResearchExtracted | agi-desktop-agent/src/agents/email_intelligence_agent.py:447-450 | no entities means no research; otherwise the result is that of researching all entities |
| EmailIntelligence.EmailIntelligenceAgent.AnalyzeEmail | agi-desktop-agent/src/agents/email_intelligence_agent.py:420-492 | the result is the specified analysis, independent of the agent's earlier state; on success the agent's log and counters are the analysis'; on an exception the counters are those of the interrupted loop |
| Router.Score | agi-desktop-agent/src/agents/router_agent.py:121-125 | a scenario's score never exceeds its number of keywords |
| Router.ScorePositive | agi-desktop-agent/src/agents/router_agent.py:121-125 | a score is positive exactly when one of the scenario's keywords occurs in the lower-cased prompt |
| Router.Choose | agi-desktop-agent/src/agents/router_agent.py:127 | the first highest score wins in the order meeting, email, document: meeting on any tie with it, email over document on a tie, document only when strictly highest |
| Router.FallbackScenario | agi-desktop-agent/src/agents/router_agent.py:110-128 | the fallback always names one of the three agents, and names "meeting" when no keyword occurs |
| Router.FallbackParamsShape | agi-desktop-agent/src/agents/router_agent.py:130-138 | the fallback parameters hold only the scenario's key, with the prompt as meeting context, email content or question and an empty meeting company name; an unknown scenario gets {} |
| Router.Repaired | agi-desktop-agent/src/agents/router_agent.py:86-97 | the repaired classification is a dict; anything but a dict raises |
| Router.WithScenarios | agi-desktop-agent/src/agents/router_agent.py:87-89 | afterwards the scenario entry is present and truthy; a truthy entry is left as it was |
| Router.WithPrimary | agi-desktop-agent/src/agents/router_agent.py:91-92 | afterwards a primary scenario is present; one already there is kept; nothing else changes |
| Router.WithParams | agi-desktop-agent/src/agents/router_agent.py:94-95 | afterwards parameters are present; ones already there are kept; nothing else changes |
| Router.RepairedWellFormed | agi-desktop-agent/src/agents/router_agent.py:86-97 | a repair that does not raise has a truthy scenario entry, a primary scenario and parameters |
| Router.FallbackRouteShape | agi-desktop-agent/src/agents/router_agent.py:99-108 | the fallback route has the single fallback scenario as list and as primary, the fallback parameters, the prompt as summary, and the error text |
| Router.FallbackRouteForShape | agi-desktop-agent/src/agents/router_agent.py:102-108 | the route built from a scenario and parameters holds exactly those entries |
| Router.ClassifiedWellFormed | agi-desktop-agent/src/agents/router_agent.py:54-108 | every classification has a truthy scenario entry, a primary scenario and parameters |
| Router.ClassifiedFallsBack | agi-desktop-agent/src/agents/router_agent.py:84-108 | a reply without text, one json.loads rejects, or one that is not an object takes the keyword fallback with the prompt as summary and a router_error |
| Router.RepairedKeepsComplete | agi-desktop-agent/src/agents/router_agent.py:86-97 | a decoded object that already has all three entries comes back unchanged |
| Router.RepairedPrimaryIsFirst | agi-desktop-agent/src/agents/router_agent.py:91-92 | a non-empty scenario list without a primary scenario makes its first entry the primary one |
| Router.RepairedStringScenarios | agi-desktop-agent/src/agents/router_agent.py:91-92 | a truthy scenario string without a primary scenario makes its first character the primary one |
| Router.ClassifiedRepaired | agi-desktop-agent/src/agents/router_agent.py:75-97 | a decoded reply that survives the repairs is what classify returns |
| Router.Classify | agi-desktop-agent/src/agents/router_agent.py:54-108 | the method returns the specified classification, which is always well formed |
| Orchestrator.ErrorAttributionShape | agi-desktop-agent/src/agents/orchestrator.py:207-212 | the error attribution is 0% memory, 0% web, 100% model, marked "Unverified" |
| Orchestrator.ErrorResultShape | agi-desktop-agent/src/agents/orchestrator.py:198-213 | the error result has zero confidence, no sources, that attribution, and the text "Error: " followed by the message |
| Orchestrator.WithTimeKeeps | agi-desktop-agent/src/agents/orchestrator.py:161-165 | writing the execution time changes no other key |
| Orchestrator.ErrorShapedWithTime | agi-desktop-agent/src/agents/orchestrator.py:164-165 | an error-shaped result stays error-shaped once the time is written in |
| Orchestrator.TimedError | agi-desktop-agent/src/agents/orchestrator.py:164-166 | the timed error result is error-shaped, carries the message after "Error: ", and holds the elapsed time |
| Orchestrator.WithDraft | agi-desktop-agent/src/agents/orchestrator.py:176-177 | a dict answer always comes back with draft_reply: kept when present, otherwise copied from result (default ""); a non-dict answer raises |
| Orchestrator.Processed | agi-desktop-agent/src/agents/orchestrator.py:149-166 | process always returns a dict holding the elapsed time |
| Orchestrator.ProcessedShape | agi-desktop-agent/src/agents/orchestrator.py:149-166 | a dict from the agent is returned with the time written in; an exception or a non-dict gives the error result; an unknown scenario always gives "Error: Unknown scenario: …" |
| Orchestrator.MeetingNeedsCompany | agi-desktop-agent/src/agents/orchestrator.py:187-192 | a meeting request without a company name gives the error result and never consults the meeting agent |
| Orchestrator.EmailHasDraft | agi-desktop-agent/src/agents/orchestrator.py:170-179 | an e-mail answer always carries draft_reply, copied from result when the agent left it out |
| Orchestrator.RouteLoopStopsAt | agi-desktop-agent/src/agents/orchestrator.py:114-120 | once the loop raises, later scenarios change nothing |
| Orchestrator.RouteLoopRaises | agi-desktop-agent/src/agents/orchestrator.py:114-118 | the loop raises exactly when there are scenarios and either the parameters are not a dict or some scenario cannot be a dict key; process itself never raises |
| Orchestrator.RouteLoopResults | agi-desktop-agent/src/agents/orchestrator.py:114-120 | after the loop each scenario is a key exactly once, no other key appears, and each holds the answer to its last occurrence |
| Orchestrator.RouteLoopKeys | agi-desktop-agent/src/agents/orchestrator.py:114-120 | after the loop the result keys are distinct and are exactly the scenarios |
| Orchestrator.RouteLoopLookups | agi-desktop-agent/src/agents/orchestrator.py:114-120 | every scenario looks up the answer computed for its last occurrence, with that occurrence's time |
| Orchestrator.EnvelopeShape | agi-desktop-agent/src/agents/orchestrator.py:122-127 | the envelope holds the classification, the results, the primary scenario and the time |
| Orchestrator.RoutedEnvelope | agi-desktop-agent/src/agents/orchestrator.py:103-129 | with a well-formed classification the envelope holds it, its primary scenario, and the loop's results |
| Orchestrator.SingleScenarioRoute | agi-desktop-agent/src/agents/orchestrator.py:114-120 | a single scenario gives exactly its own answer |
| Orchestrator.SingleScenarioRouted | agi-desktop-agent/src/agents/orchestrator.py:103-129 | a classification naming one scenario, as list and as primary, routes to exactly that scenario |
| Orchestrator.FallbackRouted | agi-desktop-agent/src/agents/orchestrator.py:103-129 | when the router falls back on keywords, route runs exactly the chosen scenario with the fallback parameters and keeps it as primary |
| Orchestrator.FallbackMeetingIsError | agi-desktop-agent/src/agents/orchestrator.py:187-192 | the keyword fallback's meeting route has no company name, so its single answer is the error result |
| Orchestrator.AgentOrchestrator.constructor | agi-desktop-agent/src/agents/orchestrator.py:27-47 | a new orchestrator has a fresh, empty session store |
| Orchestrator.AgentOrchestrator.Process | agi-desktop-agent/src/agents/orchestrator.py:149-166 | the answer is the specified dispatch result and holds the execution time |
| Orchestrator.AgentOrchestrator.Route | agi-desktop-agent/src/agents/orchestrator.py:103-129 | the envelope is the specified routing result |
| Orchestrator.AgentOrchestrator.RunScenarios | agi-desktop-agent/src/agents/orchestrator.py:114-120 | the loop computes the specified per-scenario results |
| Orchestrator.AgentOrchestrator.RouteAndSave | agi-desktop-agent/src/agents/orchestrator.py:131-147 | opens a default-titled session when none is given; a routing exception propagates; an unknown given id raises; otherwise exactly one interaction with route, results and time is appended and the envelope names the session |
| Document.ScanDirectoryForPdfs | agi-desktop-agent/src/agents/document_agent.py:11-20 | the scan returns, in walk order, the joined paths of the files the PDF filter keeps |
| Document.KeptInMembers | agi-desktop-agent/src/agents/document_agent.py:15-19 | within one directory, a path is kept exactly when it joins the root with a kept file name; no more paths than files |
| Document.ScannedMembers | agi-desktop-agent/src/agents/document_agent.py:14-19 | a path is found exactly when some visited directory keeps it |
| Document.ScanFindsPdfs | agi-desktop-agent/src/agents/document_agent.py:11-20 | the scan finds exactly the files whose lower-cased names end in ".pdf" and, when a year is given, contain it |
| Document.ChunksPartition | agi-desktop-agent/src/agents/document_agent.py:144-146 | the chunks concatenate back to the text, each is non-empty and at most 8000 characters, all but the last are exactly 8000, and there are ceil(length / 8000) of them |
| Document.SummarizeChunks | agi-desktop-agent/src/agents/document_agent.py:147-153 | one summary per chunk, each the model's answer for that chunk, in order |
| Document.Condense | agi-desktop-agent/src/agents/document_agent.py:143-154 | the method computes the text after the chunking step |
| Document.Process | agi-desktop-agent/src/agents/document_agent.py:57-212 | the method computes the specified answer for the paths, question and service answers |
| Document.AnswerFromText | agi-desktop-agent/src/agents/document_agent.py:156-212 | the method computes the specified passage-or-web answer for the extracted text |
| Document.AskWeb | agi-desktop-agent/src/agents/document_agent.py:178-203 | the method computes the specified web answer |
| Document.SimpleIsModelOnly | agi-desktop-agent/src/agents/document_agent.py:61-88 | a question the model calls simple is answered by the model alone, with two steps and no sources, whatever the paths, PDF, OCR or web would give |
| Document.FirstPathOnly | agi-desktop-agent/src/agents/document_agent.py:95-101 | only the first path of a list is read; an empty list, a falsy path or None reads nothing |
| Document.NoPathAsksWeb | agi-desktop-agent/src/agents/document_agent.py:92-203 | with no path, a question that is not simple is always answered from the web: the sources are the search's and the result is the model's answer to them |
| Document.WebOnlyOnFallback | agi-desktop-agent/src/agents/document_agent.py:178-212 | web sources appear only when the text is blank or the passage is a not-found phrase; otherwise the passage is the result with no sources; Python raises exactly when the web is needed and the question is not a string |
| Document.AnsweredSteps | agi-desktop-agent/src/agents/document_agent.py:176-212 | every answer keeps the earlier steps, then the passage step, ends with the step naming the answer's origin, and cites at most five sources |
| Document.CondensedPerChunk | agi-desktop-agent/src/agents/document_agent.py:145-154 | a long text is replaced by exactly one summary per chunk, joined with newlines in chunk order |
| Calendar.FirstKeyword | agi-desktop-agent/src/integrations/calendar_client.py:86-88 | None exactly when no keyword occurs in the text; otherwise the company of a keyword that occurs |
| Calendar.FirstKeywordWins | agi-desktop-agent/src/integrations/calendar_client.py:75-88 | earlier keywords take precedence: the company found is that of the first keyword that occurs |
| Calendar.AttendeeCompany | agi-desktop-agent/src/integrations/calendar_client.py:90-96 | None exactly when no attendee's lower-cased email holds a keyword; otherwise one of the known companies |
| Calendar.CompanyOf | agi-desktop-agent/src/integrations/calendar_client.py:61-98 | the company is one of the keyword companies or "Unknown" |
| Calendar.TitleBeforeAttendees | agi-desktop-agent/src/integrations/calendar_client.py:85-96 | a keyword in the title or description decides whoever attends; only without one do attendee emails count |
| Calendar.UnknownWithoutKeywords | agi-desktop-agent/src/integrations/calendar_client.py:61-98 | the company is "Unknown" exactly when no keyword occurs in the title, the description or any attendee email |
| Calendar.AttendeeNames | agi-desktop-agent/src/integrations/calendar_client.py:110-115 | no more names than attendees |
| Calendar.AttendeeNamesMembers | agi-desktop-agent/src/integrations/calendar_client.py:110-115 | the names are exactly the non-empty display names (or else emails) of the attendees |
| Calendar.ExtractAttendees | agi-desktop-agent/src/integrations/calendar_client.py:100-115 | the loop yields those names in attendee order |
| Calendar.StandardizedFields | agi-desktop-agent/src/integrations/calendar_client.py:117-148 | the id is "meeting_cal_" plus at most the first 20 characters of the event id; the topic is the summary or "Untitled Meeting"; the notes are at most the first 500 characters of a non-empty description, else the topic; company, attendees, outcome "Scheduled - awaiting completion" and source "google_calendar" follow |
| Calendar.Fetched | agi-desktop-agent/src/integrations/calendar_client.py:150-200 | one standardised meeting per listed event, in listing order; nothing without a service or on an API error |
| Calendar.EventsForCompany | agi-desktop-agent/src/integrations/calendar_client.py:202-230 | every event returned was fetched (twice max_results requested) and mentions the company in topic, notes or an attendee; they are the first min(max_results, matches) matches in listing order |
| Calendar.CompanyEventsKept | agi-desktop-agent/src/integrations/calendar_client.py:219-230 | no mentioning event is dropped while the matches fit under the cap |
| Calendar.PastEvents | agi-desktop-agent/src/integrations/calendar_client.py:232-275 | the past events are a permutation of the listed events, standardised and marked "Completed", newest date first; nothing without a service or on an API error |
| Calendar.CalendarClient.constructor | agi-desktop-agent/src/integrations/calendar_client.py:21-30 | the client keeps the given clock and date parser |
| Calendar.CalendarClient.FetchEvents | agi-desktop-agent/src/integrations/calendar_client.py:150-200 | the loop computes the fetched meetings |
| Calendar.CalendarClient.FetchEventsForCompany | agi-desktop-agent/src/integrations/calendar_client.py:202-230 | the method computes the company's upcoming events |
| Calendar.CalendarClient.FetchPastEvents | agi-desktop-agent/src/integrations/calendar_client.py:232-275 | the loop and sort compute the past events |
| Gmail.HeaderValueFirst | agi-desktop-agent/src/integrations/gmail_client.py:89-94 | a header missing from the list gives ""; otherwise the value of the first header with that name |
| Gmail.FirstOfType | agi-desktop-agent/src/integrations/gmail_client.py:73-82 | None exactly when no part has the MIME type; otherwise a part of that type |
| Gmail.BodyOf | agi-desktop-agent/src/integrations/gmail_client.py:61-87 | the body is at most 1000 characters, a prefix of the stripped raw body, never starts with white space, and is the whole stripped body when that fits |
| Gmail.PlainBeforeHtml | agi-desktop-agent/src/integrations/gmail_client.py:72-82 | a plain-text part that decodes to something wins; only an empty or missing one lets the HTML part in; with neither type the body is "" |
| Gmail.DomainLabel | agi-desktop-agent/src/integrations/gmail_client.py:115-119 | the label is absent exactly when the address has no "@" |
| Gmail.LabelSpan | agi-desktop-agent/src/integrations/gmail_client.py:116 | the label taken from the text after the "@" runs up to the next "." or "@", or to the end |
| Gmail.DomainLabelSpan | agi-desktop-agent/src/integrations/gmail_client.py:116 | the domain label is what follows the first "@", up to the next "." or "@" or the end of the address |
| Gmail.CompanyOf | agi-desktop-agent/src/integrations/gmail_client.py:104-119 | no "@" gives "Unknown"; otherwise the capitalised domain label, of the label's length |
| Gmail.StandardizedFields | agi-desktop-agent/src/integrations/gmail_client.py:121-148 | the id is "email_gmail_" plus at most the first 20 characters of the message id; the sender is the From header and the company is derived from it; the body is at most 1000 characters; the source is "gmail"; a missing internalDate gives timestamp "0" |
| Gmail.Gathered | agi-desktop-agent/src/integrations/gmail_client.py:186-200 | no more emails than listed messages |
| Gmail.GatheredFromListing | agi-desktop-agent/src/integrations/gmail_client.py:186-200 | every email gathered comes from a listed message whose fetch succeeded |
| Gmail.GatheredAll | agi-desktop-agent/src/integrations/gmail_client.py:186-200 | when every fetch succeeds, one email per listed message, in listing order |
| Gmail.Recent | agi-desktop-agent/src/integrations/gmail_client.py:235-247 | the recent emails are a permutation of the inbox fetch, newest timestamp first (compared as text) |
| Gmail.CompanyQuery | agi-desktop-agent/src/integrations/gmail_client.py:219-220 | the query contains the lower-cased company name |
| Gmail.GmailClient.constructor | agi-desktop-agent/src/integrations/gmail_client.py:22-31 | the client keeps the given API |
| Gmail.GmailClient.GetHeader | agi-desktop-agent/src/integrations/gmail_client.py:89-94 | the loop finds the header value |
| Gmail.GmailClient.FindPart | agi-desktop-agent/src/integrations/gmail_client.py:73-82 | the loop finds the decoded text of the first part of the type |
| Gmail.GmailClient.ExtractBody | agi-desktop-agent/src/integrations/gmail_client.py:61-87 | the method computes the body specified above |
| Gmail.GmailClient.StandardizeMessage | agi-desktop-agent/src/integrations/gmail_client.py:121-148 | the method computes the standardised email |
| Gmail.GmailClient.FetchEmails | agi-desktop-agent/src/integrations/gmail_client.py:150-206 | the loop computes the fetched emails: nothing without a service, on a list error or for an empty listing; otherwise the fetched messages in order |
| Gmail.GmailClient.SearchByCompany | agi-desktop-agent/src/integrations/gmail_client.py:208-221 | the result is the fetch for the company query |
| Gmail.GmailClient.FetchUnread | agi-desktop-agent/src/integrations/gmail_client.py:223-233 | the result is the fetch for the unread-inbox query |
| Gmail.GmailClient.FetchRecent | agi-desktop-agent/src/integrations/gmail_client.py:235-247 | the result is the recent emails specified above |
| Research.ItemOf | agi-desktop-agent/src/agents/research_agent.py:51-62 | an item keeps the type name, url and title; its text is the content when the item has one, else the snippet, else nothing |
| Research.SearchOutcomeOf | agi-desktop-agent/src/agents/research_agent.py:29-77 | the outcome carries the query and the time; it is an error exactly when the provider call fails, with its message; otherwise it has the depth and one item per provider item, in order (none without a results attribute) |
| Research.ResearchEntriesKeyed | agi-desktop-agent/src/agents/research_agent.py:88-90 | the results map has distinct keys, exactly the queries, and each query holds the outcome of its last search |
| Research.ItemFields | agi-desktop-agent/src/agents/research_agent.py:52-56 | an item's dict holds its url and title, None when absent |
| Research.OutcomeFields | agi-desktop-agent/src/agents/research_agent.py:43-77 | an outcome's dict has an "error" key exactly when the search failed; a successful one holds its items under "results" |
| Research.SearchedFields | agi-desktop-agent/src/agents/research_agent.py:43-48 | a successful outcome's dict has no "error" key and holds its items |
| Research.ReportFields | agi-desktop-agent/src/agents/research_agent.py:82-92 | a report's dict is truthy and holds one results entry per query outcome |
| Research.SnippetLine | agi-desktop-agent/src/agents/research_agent.py:111-113 | at most one snippet line, present exactly when the item has a non-empty snippet, showing its first 100 characters followed by "..." |
| Research.ResultBlocks | agi-desktop-agent/src/agents/research_agent.py:108-114 | each displayed item takes three or four lines |
| Research.DisplayShowsFive | agi-desktop-agent/src/agents/research_agent.py:94-117 | a failed search shows the header and the error only; at most five results are shown; results after the fifth do not change the display |
| Research.TitleLines | agi-desktop-agent/src/agents/research_agent.py:132-133 | one title line per summarised item |
| Research.SummaryBlock | agi-desktop-agent/src/agents/research_agent.py:125-133 | a failed search adds nothing to the summary; a successful one adds the query, its count and at most three titles |
| Research.SummarySkipsFailures | agi-desktop-agent/src/agents/research_agent.py:125-126 | the summary is the same as that of the successful searches alone |
| Research.SummaryBodyBound | agi-desktop-agent/src/agents/research_agent.py:125-133 | at most five summary lines per search |
| Research.ResearchAgent.constructor | agi-desktop-agent/src/agents/research_agent.py:23-27 | the agent keeps the configured depth and output type |
| Research.ResearchAgent.Search | agi-desktop-agent/src/agents/research_agent.py:29-77 | the outcome is the specified one, at the requested depth or else the agent's |
| Research.ResearchAgent.ResearchTopics | agi-desktop-agent/src/agents/research_agent.py:79-92 | the report holds the queries, the start time, and the keyed entries |
| Research.ResearchAgent.FormatForDisplay | agi-desktop-agent/src/agents/research_agent.py:94-117 | the text is the specified display lines, newline-joined |
| Research.ResearchAgent.SummarizeResearch | agi-desktop-agent/src/agents/research_agent.py:119-136 | the text is the specified summary lines, newline-joined |
| Research.ResearchAgent.SummaryBlockLines | agi-desktop-agent/src/agents/research_agent.py:125-133 | the loop over one entry's titles gives that entry's summary block: nothing for a failed search, otherwise the query, the count and at most three titles |
| Reply.SourceLines | agi-desktop-agent/src/agents/reply_generator.py:119-122 | the numbered source lines exist exactly when every item is a dictionary, one line per item |
| Reply.NumberedSources | agi-desktop-agent/src/agents/reply_generator.py:119-122 | the loop over the first sources gives the specified numbered lines, or the error the first non-dictionary item raises |
| Reply.FirstSources | agi-desktop-agent/src/agents/reply_generator.py:119 | slicing the results keeps at most three sources |
| Reply.TopicLines | agi-desktop-agent/src/agents/reply_generator.py:116-122 | a failed search gives no lines; a successful one gives the topic line first and at most three source lines |
| Reply.SearchLines | agi-desktop-agent/src/agents/reply_generator.py:118-122 | a successful search's lines start with its topic and hold at most three sources |
| Reply.NoResultsNoContext | agi-desktop-agent/src/agents/reply_generator.py:115-124 | research without a "results" key gives an empty context |
| Reply.ContextSkipsFailures | agi-desktop-agent/src/agents/reply_generator.py:116-117 | the context equals the context of the non-failed entries alone |
| Reply.ContextBound | agi-desktop-agent/src/agents/reply_generator.py:115-122 | at most four context lines per research entry |
| Reply.ReportSourceLines | agi-desktop-agent/src/agents/reply_generator.py:119-122 | one source line per item of a research report |
| Reply.ReportSources | agi-desktop-agent/src/agents/reply_generator.py:119-122 | the source lines of a report's items are always produced and match the report's titles and urls |
| Reply.ReportTopic | agi-desktop-agent/src/agents/reply_generator.py:116-122 | a report entry's lines are its query and first three sources, or nothing when it failed |
| Reply.ReportEntries | agi-desktop-agent/src/agents/reply_generator.py:115-122 | the context lines of a report's entries never raise and follow the entries in order |
| Reply.ReportContext | agi-desktop-agent/src/agents/reply_generator.py:36-124 | a research report from the research agent always yields a prompt context, the join of its entries' lines |
| Reply.Generated | agi-desktop-agent/src/agents/reply_generator.py:30-95 | building the prompt raises exactly when the research context or an extracted list raises; otherwise the result keeps the email's id and sender, is an error exactly when no completion text arrives (with the client's message), and a reply is the stripped text with the subject, the time, and research marked used exactly when research was given |
| Reply.EmptyResearchCountsAsUsed | agi-desktop-agent/src/agents/reply_generator.py:37-85 | an empty research dictionary adds no context and is still reported as used |
| Reply.ReplyAt | agi-desktop-agent/src/agents/reply_generator.py:105-106 | a batch entry succeeds only when its extracted data and research exist, and then is the single reply for them |
| Reply.RepliesOnePerEmail | agi-desktop-agent/src/agents/reply_generator.py:97-109 | a completed batch has one reply per email, each drafted from that email's extracted data and research; short lists make it raise |
| Reply.DisplayLines | agi-desktop-agent/src/agents/reply_generator.py:126-142 | six lines, seven when research was used; an error shows the error, a reply shows its text; an error result has subject None |
| Reply.FormatResearchContext | agi-desktop-agent/src/agents/reply_generator.py:111-124 | the loop's context is the specified one |
| Reply.ContextStopsAt | agi-desktop-agent/src/agents/reply_generator.py:116-122 | once an entry raises, later entries do not matter |
| Reply.EntryLines | agi-desktop-agent/src/agents/reply_generator.py:117-122 | the loop over one entry's sources gives that entry's lines |
| Reply.GenerateReply | agi-desktop-agent/src/agents/reply_generator.py:30-95 | the result is the specified reply |
| Reply.GenerateBatchReplies | agi-desktop-agent/src/agents/reply_generator.py:97-109 | the loop's replies are the specified batch |
| Reply.FormatForDisplay | agi-desktop-agent/src/agents/reply_generator.py:126-142 | the text is the display lines, newline-joined |
| EmailProcessor.WithoutFences | agi-desktop-agent/src/agents/email_processor.py:70-75 | removing the fences never lengthens the reply |
| EmailProcessor.JsonBlockUnwrapped | agi-desktop-agent/src/agents/email_processor.py:70-75 | a reply fenced as a JSON block gives back exactly its body, unless the body itself begins or ends with a fence |
| EmailProcessor.PlainBlockUnwrapped | agi-desktop-agent/src/agents/email_processor.py:72-75 | a plain fenced block gives back its body, unless the body begins with "json" or ends with a fence |
| EmailProcessor.UnfencedUnchanged | agi-desktop-agent/src/agents/email_processor.py:70-75 | a reply with no fence at either end is passed to the parser unchanged |
| EmailProcessor.Extracted | agi-desktop-agent/src/agents/email_processor.py:30-103 | extraction always returns a dictionary; every exception inside the try becomes a record |
| EmailProcessor.ExtractedRecord | agi-desktop-agent/src/agents/email_processor.py:58-103 | every record names the email id and sender; a parsed object keeps all its own other keys and gains subject and processing time; a failed call, a missing reply, a decode error (with the raw reply kept) and a non-object parse each give an error record with that error |
| EmailProcessor.FailureKeys | agi-desktop-agent/src/agents/email_processor.py:99-103 | the generic failure record holds the id, sender and error |
| EmailProcessor.DecodeFailureKeys | agi-desktop-agent/src/agents/email_processor.py:90-96 | the decode failure record holds the id, sender, error and raw reply |
| EmailProcessor.MetadataKeys | agi-desktop-agent/src/agents/email_processor.py:80-83 | the four metadata keys are set and every other key of the parsed object is unchanged |
| EmailProcessor.ExtractEntities | agi-desktop-agent/src/agents/email_processor.py:30-103 | the step-by-step extraction returns the specified record |
| EmailProcessor.Unfence | agi-desktop-agent/src/agents/email_processor.py:70-75 | the three fence checks in sequence give the specified unfenced text |
| EmailProcessor.ParseContent | agi-desktop-agent/src/agents/email_processor.py:77-96 | parsing the unfenced text gives the specified record |
| EmailProcessor.BatchOnePerEmail | agi-desktop-agent/src/agents/email_processor.py:105-115 | the batch succeeds exactly when every record's action items have a length, and then holds one record per email, in order |
| EmailProcessor.ProcessBatch | agi-desktop-agent/src/agents/email_processor.py:105-115 | the loop's records are the specified batch |
| EmailProcessor.Bullets | agi-desktop-agent/src/agents/email_processor.py:134-158 | a bullet list exists exactly when the value is iterable, with one bullet line per element, in order |
| EmailProcessor.DisplayOutcome | agi-desktop-agent/src/agents/email_processor.py:117-164 | the display succeeds exactly when the record is a dictionary that has an error or is displayable; it starts with the five header lines; an error record shows only the header and its error |
| EmailProcessor.FailuresDisplay | agi-desktop-agent/src/agents/email_processor.py:90-128 | every failure record from the extraction displays without raising and shows its error |
| EmailProcessor.AppendBullets | agi-desktop-agent/src/agents/email_processor.py:134-143 | the loop appends the bullet lines of the value |
| EmailProcessor.FormatForDisplay | agi-desktop-agent/src/agents/email_processor.py:117-164 | the text is the display lines newline-joined, or the same exception |
| EmailProcessor.SectionLines | agi-desktop-agent/src/agents/email_processor.py:130-143 | the summary, topics, actions and queries sections are the specified ones |
| EmailProcessor.EntityAndLevelLines | agi-desktop-agent/src/agents/email_processor.py:145-164 | the entity sections appear only for truthy lists, then urgency and sentiment upper-cased and the closing rule |
| EmailProcessor.AppendEntities | agi-desktop-agent/src/agents/email_processor.py:145-158 | one entity section is appended as specified |

## Left out

- The user interfaces (Streamlit pages, the chatbot component, the basic web front end), the Flask upload API and the command-line file selector: rendering and I/O only.
- Google OAuth (`google_auth.py`): an interactive flow with a token cache and the network; the calendar and Gmail listings are parameters instead.
- The Groq and Linkup SDKs: every model call is an oracle reply (content or None, or an error message) and every search an oracle response; the prompt wording sent to the model is not modelled.
- `json.loads`, base64 decoding, `dateutil`/`datetime` parsing and formatting, `uuid`, `time.time`, `time.sleep` and `datetime.now`: parameters of the operations that use them.
- File I/O (`MemoryStore._load_json`/`_save_json`, the session files of `SessionStore`, `ReasoningTracker.save_session` writing its file, directory creation): replaced by in-memory class fields; the saved file name is modelled, the write is not.
- PDF, OCR, table and image extraction in `document_agent.py` (`extract_tables`, `extract_images`, the PyPDF2/pytesseract calls): the page texts and OCR text are parameters.
- Floating point: confidences and percentages are integer hundredths, the efficiency figure is integer tenths; string renderings of floats are not modelled.
- Orchestrator construction and `_init_google_apis` (environment and configuration loading); the construction at orchestrator.py:37-40 passes keyword arguments that `MemoryStore.__init__` does not accept, so the model takes the agents as a parameter.
- `email_agent.py` (`SmartEmailAgent`): its constructor passes an argument `EmailIntelligenceAgent.__init__` does not accept; the orchestrator's e-mail agent is part of the agents parameter.
- `GroqClient` has no `ask` method although `DocumentAgent` calls one; the document agent's `ask` is an oracle indexed by the kind of prompt.
- Meeting.MeetingAgent.PrepareBriefing: `meeting_context` only feeds the prompt wording, so it is not a parameter.
- Meeting: the `except` branches of `_search_news` and `_search_industry` are unreachable, because the Linkup wrapper's `search` catches every exception itself.
- Values: the messages of TypeError, KeyError, AttributeError and IndexError are the class names (`Values.TypeErrorMessage` and its siblings), so where the source prints `f"Error: {e}"` the model has "Error: TypeError" in place of the interpreter's message.
- Text: `lower`, `upper` and `capitalize` map ASCII letters only; Unicode case mapping is not modelled.
- Memory.SearchRecords: two list or tuple sort keys are taken to raise TypeError, while Python compares them element by element; the order among records with equal sort keys (also 1 and 1.0, or True and 1) is not stated, only that the result is a permutation of the matches.
- Memory.LatestDate: among dates that compare equal but differ in type (1 and 1.0), the model does not say which one is returned; list or tuple dates are taken to raise TypeError, as above.
- Memory.Preview: slicing a dict body is modelled as TypeError, the error up to Python 3.11 (KeyError from Python 3.12 on).
- Tracker.ReasoningTracker.SaveSession: the directory comes from `MEMORY_DIR` (default "data/") in the source and is a parameter here; `..` components are kept as `pathlib` keeps them, and an absolute file name, which the generated name never is, is not modelled.
- Sessions.SessionStore.ListSessions: Python's sort is stable and files are read in directory order; the model states the descending order by `updated_at` and the bound, not the order among equal timestamps.
- Calendar: the per-item `except` inside `fetch_events` (calendar_client.py:193-194) has no counterpart, because standardising an item cannot raise in the model.
- Gmail: the docstring example at gmail_client.py:107 says "TechCorp", but `capitalize()` gives "Techcorp"; the model follows the code.
- Calendar and Gmail: `_timestamp_to_date` and `_parse_datetime` are oracle parameters (date parsing and formatting).
- Logging and `print` calls, including the progress lines of the batch operations: output only.
- The test scripts, sample-e-mail fixtures and environment checks: they call live services or check hand-built data.
- Tiered entity triage, recency-weighted relevance, thread de-duplication, trailing-comma JSON repair, a model self-correction round, length bands and cliché stripping: none of these is implemented in the modelled files.
