// The research agent (`ResearchAgent`): web searches through the search
// client, turned into result dictionaries; several searches keyed by query;
// and the two console texts built from them (one search's results, and a
// summary of a whole research run).
module Research {
  import opened Wrappers
  import opened Seqs
  import opened Text
  import opened Values
  import opened Services
  import Dicts

  /** The text a result item carries: the item's `content` if it has that
      attribute, else its `snippet`, else none. */
  datatype ItemText = ContentText(content: string) | SnippetText(snippet: string) | NoText

  /** One result dictionary: the item's class name, `url` and `title`
      (`None` when the item lacks them) and its text. */
  datatype ResultItem = ResultItem(typeName: string, url: Option<string>, title: Option<string>, text: ItemText)

  /** What `search` returns: the query, depth, time and result items, or,
      when the client raised, the query, the error message and the time
      (and no `results` key). */
  datatype SearchOutcome =
    | Searched(query: string, depth: string, timestamp: string, results: seq<ResultItem>)
    | SearchFailed(query: string, error: string, timestamp: string)

  /** What `research_topics` returns: the queries, the start time, and the
      outcomes keyed by query in first-assignment order. */
  datatype Report = Report(queries: seq<string>, timestamp: string, results: seq<(string, SearchOutcome)>)

  const DisplayedResults := 5
  const DisplayedSnippet := 100
  const SummarizedTitles := 3

  // ---------------------------------------------------------------------
  // Searching
  // ---------------------------------------------------------------------

  /** The result dictionary of one provider item; `content` is preferred
      over `snippet`. */
  function ItemOf(p: ProviderItem): (r: ResultItem)
    ensures r.typeName == p.typeName && r.url == p.url && r.title == p.title
    ensures p.content.Some? ==> r.text == ContentText(p.content.value)
    ensures p.content.None? && p.snippet.Some? ==> r.text == SnippetText(p.snippet.value)
    ensures p.content.None? && p.snippet.None? ==> r.text == NoText
  {
    var text := if p.content.Some? then ContentText(p.content.value)
                else if p.snippet.Some? then SnippetText(p.snippet.value)
                else NoText;
    ResultItem(p.typeName, p.url, p.title, text)
  }

  /** `search(query, depth)` given the client's answer and the time: one
      result item per provider item, in provider order; an error outcome
      exactly when the client raised. */
  function SearchOutcomeOf(query: string, depth: string, response: ProviderResponse, now: string): (r: SearchOutcome)
    ensures r.query == query && r.timestamp == now
    ensures r.SearchFailed? <==> response.Failure?
    ensures response.Failure? ==> r.error == response.message
    ensures response.Items? ==> r.depth == depth && |r.results| == |response.items|
    ensures response.Items? ==> forall i :: 0 <= i < |r.results| ==> r.results[i] == ItemOf(response.items[i])
    ensures response.NoResultsAttribute? ==> r.depth == depth && r.results == []
  {
    match response
    case Failure(message) => SearchFailed(query, message, now)
    case NoResultsAttribute => Searched(query, depth, now, [])
    case Items(items) => Searched(query, depth, now, Map(items, ItemOf))
  }

  /** The result entries of `research_topics`: the i-th query searched with
      the i-th answer and time, each stored under its query. */
  function ResearchEntries(queries: seq<string>, depth: string, responses: nat -> ProviderResponse,
                           times: nat -> string): (r: seq<(string, SearchOutcome)>)
  {
    if queries == [] then []
    else
      var n := |queries| - 1;
      Dicts.Put(ResearchEntries(queries[..n], depth, responses, times), queries[n],
                SearchOutcomeOf(queries[n], depth, responses(n), times(n)))
  }

  /** Results are keyed by query: one entry per distinct query, and a query
      asked twice keeps the outcome of its last search. */
  lemma {:induction false} ResearchEntriesKeyed(queries: seq<string>, depth: string,
                                                responses: nat -> ProviderResponse, times: nat -> string)
    ensures var r := ResearchEntries(queries, depth, responses, times);
      Dicts.DistinctKeys(r) && |r| <= |queries| &&
      (forall q :: q in Dicts.Keys(r) <==> q in queries) &&
      forall q :: q in queries ==>
        var last := LastIndex(queries, q);
        Dicts.Lookup(r, q) == Some(SearchOutcomeOf(q, depth, responses(last), times(last)))
  {
    if queries != [] {
      var n := |queries| - 1;
      var init := queries[..n];
      var q := queries[n];
      ResearchEntriesKeyed(init, depth, responses, times);
      assert queries == init + [q];
      var earlier := ResearchEntries(init, depth, responses, times);
      var out := SearchOutcomeOf(q, depth, responses(n), times(n));
      var r := Dicts.Put(earlier, q, out);
      Dicts.PutKeys(earlier, q, out);
      Dicts.PutDistinct(earlier, q, out);
      forall y | y in queries
        ensures var last := LastIndex(queries, y);
          Dicts.Lookup(r, y) == Some(SearchOutcomeOf(y, depth, responses(last), times(last)))
      {
        if y == q {
          assert LastIndex(queries, y) == n;
        } else {
          Dicts.PutOther(earlier, q, out, y);
          assert y in init;
          assert LastIndex(queries, y) == LastIndex(init, y);
        }
      }
      assert |r| <= |earlier| + 1;
    }
  }

  // ---------------------------------------------------------------------
  // The dictionaries the agent returns
  // ---------------------------------------------------------------------

  /** The dictionary `search` builds for one result item. */
  function ItemValue(item: ResultItem): Value
  {
    Dict([("type", VStr(item.typeName)), ("url", OptionalStr(item.url)), ("title", OptionalStr(item.title))] +
         TextPairs(item.text))
  }

  function TextPairs(text: ItemText): seq<(string, Value)>
  {
    match text
    case ContentText(content) => [("content", VStr(content))]
    case SnippetText(snippet) => [("snippet", VStr(snippet))]
    case NoText => []
  }

  /** The dictionary `search` returns. */
  function OutcomeValue(outcome: SearchOutcome): Value
  {
    match outcome
    case Searched(query, depth, timestamp, results) =>
      Dict([("query", VStr(query)), ("depth", VStr(depth)), ("timestamp", VStr(timestamp)),
            ("results", VList(Map(results, ItemValue)))])
    case SearchFailed(query, error, timestamp) =>
      Dict([("query", VStr(query)), ("error", VStr(error)), ("timestamp", VStr(timestamp))])
  }

  function EntryValue(entry: (string, SearchOutcome)): (Value, Value)
  {
    (VStr(entry.0), OutcomeValue(entry.1))
  }

  /** The dictionary `research_topics` returns. */
  function ReportValue(report: Report): Value
  {
    Dict([("queries", Strs(report.queries)), ("timestamp", VStr(report.timestamp)),
          ("results", VDict(Map(report.results, EntryValue)))])
  }

  /** A result dictionary has its `title` and `url` keys whether or not
      the item had those attributes. */
  lemma ItemFields(item: ResultItem)
    ensures Get(ItemValue(item), "url") == Some(OptionalStr(item.url))
    ensures Get(ItemValue(item), "title") == Some(OptionalStr(item.title))
  {
    var pairs := [("type", VStr(item.typeName)), ("url", OptionalStr(item.url)), ("title", OptionalStr(item.title))] +
                 TextPairs(item.text);
    DictGet(pairs, 1);
    DictGet(pairs, 2);
  }

  /** A search dictionary has an `error` key exactly when the search
      failed, and otherwise its `results` list. */
  lemma OutcomeFields(outcome: SearchOutcome)
    ensures In(VStr("error"), OutcomeValue(outcome)) == Some(outcome.SearchFailed?)
    ensures outcome.Searched? ==> Get(OutcomeValue(outcome), "results") == Some(VList(Map(outcome.results, ItemValue)))
  {
    if outcome.Searched? {
      SearchedFields(outcome.query, outcome.depth, outcome.timestamp, outcome.results);
    } else {
      assert Dicts.Keys(OutcomeValue(outcome).entries)[1] == VStr("error");
    }
  }

  lemma SearchedFields(query: string, depth: string, timestamp: string, results: seq<ResultItem>)
    ensures var v := OutcomeValue(Searched(query, depth, timestamp, results));
      VStr("error") !in Dicts.Keys(v.entries) && Get(v, "results") == Some(VList(Map(results, ItemValue)))
  {
    var pairs := [("query", VStr(query)), ("depth", VStr(depth)), ("timestamp", VStr(timestamp)),
                  ("results", VList(Map(results, ItemValue)))];
    var keys := Dicts.Keys(Dict(pairs).entries);
    assert keys == [VStr("query"), VStr("depth"), VStr("timestamp"), VStr("results")];
    DictGet(pairs, 3);
  }

  /** A report dictionary has its `results` dictionary, one entry per
      query outcome. */
  lemma ReportFields(report: Report)
    ensures In(VStr("results"), ReportValue(report)) == Some(true)
    ensures Get(ReportValue(report), "results") == Some(VDict(Map(report.results, EntryValue)))
    ensures Truthy(ReportValue(report))
  {
    var pairs := [("queries", Strs(report.queries)), ("timestamp", VStr(report.timestamp)),
                  ("results", VDict(Map(report.results, EntryValue)))];
    DictGet(pairs, 2);
    DictHas(pairs, 2);
  }

  // ---------------------------------------------------------------------
  // The search display
  // ---------------------------------------------------------------------

  /** An optional attribute in an f-string: `None` prints as `None`. */
  function ShowOptional(o: Option<string>): string
  {
    if o.Some? then o.value else "None"
  }

  /** The snippet line of a displayed result: only for a non-empty
      `snippet` key, cut to 100 characters. */
  function SnippetLine(item: ResultItem): (r: seq<string>)
    ensures |r| <= 1
    ensures r != [] <==> item.text.SnippetText? && item.text.snippet != ""
    ensures r != [] ==> r[0] == "   📝 " + Prefix(item.text.snippet, DisplayedSnippet) + "..."
  {
    if item.text.SnippetText? && item.text.snippet != "" then
      ["   📝 " + Prefix(item.text.snippet, DisplayedSnippet) + "..."]
    else []
  }

  /** The lines of the result numbered `n`. The `title` and `url` keys are
      always present, so a missing attribute shows as `None`, never as the
      `.get` default. */
  function ResultBlock(n: nat, item: ResultItem): seq<string>
  {
    [NatToString(n) + ". " + ShowOptional(item.title), "   URL: " + ShowOptional(item.url)] +
    SnippetLine(item) + [""]
  }

  /** The blocks of `items`, numbered from 1. */
  function ResultBlocks(items: seq<ResultItem>): (r: seq<string>)
    ensures 3 * |items| <= |r| <= 4 * |items|
  {
    if items == [] then []
    else ResultBlocks(items[..|items| - 1]) + ResultBlock(|items|, items[|items| - 1])
  }

  function SearchHeader(query: string): seq<string>
  {
    ["\n" + Rule, "🔍 SEARCH RESULTS FOR: '" + query + "'", Rule]
  }

  /** `format_for_display(search_result)`, as lines. */
  function DisplayLines(outcome: SearchOutcome): seq<string>
  {
    match outcome
    case SearchFailed(query, error, _) => SearchHeader(query) + ["❌ ERROR: " + error]
    case Searched(query, _, _, results) =>
      SearchHeader(query) + ["Found " + NatToString(|results|) + " results:\n"] +
      ResultBlocks(Prefix(results, DisplayedResults)) + [Rule]
  }

  /** An error outcome stops right after the header: no result count, no
      results. A search shows at most five results: the items after the
      fifth never change the display, only the count line does. */
  lemma DisplayShowsFive(outcome: SearchOutcome, others: seq<ResultItem>)
    ensures outcome.SearchFailed? ==>
      DisplayLines(outcome) == SearchHeader(outcome.query) + ["❌ ERROR: " + outcome.error]
    ensures outcome.Searched? ==>
      var shown := |Prefix(outcome.results, DisplayedResults)|;
      shown == if |outcome.results| < DisplayedResults then |outcome.results| else DisplayedResults
    ensures outcome.Searched? && |outcome.results| >= DisplayedResults && |others| == |outcome.results| - DisplayedResults ==>
      DisplayLines(outcome) ==
      DisplayLines(outcome.(results := outcome.results[..DisplayedResults] + others))
  {
    if outcome.Searched? && |outcome.results| >= DisplayedResults && |others| == |outcome.results| - DisplayedResults {
      var changed := outcome.results[..DisplayedResults] + others;
      assert changed[..DisplayedResults] == outcome.results[..DisplayedResults];
    }
  }

  // ---------------------------------------------------------------------
  // The research summary
  // ---------------------------------------------------------------------

  /** The title lines of `items`, numbered from 1. */
  function TitleLines(items: seq<ResultItem>): (r: seq<string>)
    ensures |r| == |items|
  {
    if items == [] then []
    else TitleLines(items[..|items| - 1]) + ["   " + NatToString(|items|) + ". " + ShowOptional(items[|items| - 1].title)]
  }

  /** The summary lines of one query: nothing for a failed search,
      otherwise the query, the number of sources and at most three titles. */
  function SummaryBlock(entry: (string, SearchOutcome)): (r: seq<string>)
    ensures entry.1.SearchFailed? ==> r == []
    ensures entry.1.Searched? ==> 2 <= |r| <= 2 + SummarizedTitles
  {
    match entry.1
    case SearchFailed(_, _, _) => []
    case Searched(_, _, _, results) =>
      ["\n🔹 " + entry.0, "   Found " + NatToString(|results|) + " sources"] +
      TitleLines(Prefix(results, SummarizedTitles))
  }

  function SummaryBody(entries: seq<(string, SearchOutcome)>): seq<string>
  {
    if entries == [] then []
    else SummaryBody(entries[..|entries| - 1]) + SummaryBlock(entries[|entries| - 1])
  }

  /** `summarize_research(research_results)`, as lines. */
  function SummaryLines(report: Report): seq<string>
  {
    ["\n📚 RESEARCH SUMMARY", Rule] + SummaryBody(report.results) + ["\n" + Rule]
  }

  predicate Succeeded(entry: (string, SearchOutcome))
  {
    entry.1.Searched?
  }

  /** Failed searches are skipped: the summary is the one of the successful
      searches alone. */
  lemma {:induction false} SummarySkipsFailures(entries: seq<(string, SearchOutcome)>)
    ensures SummaryBody(entries) == SummaryBody(Filter(entries, Succeeded))
  {
    if entries != [] {
      var n := |entries| - 1;
      var last := entries[n];
      SummarySkipsFailures(entries[..n]);
      var kept := Filter(entries[..n], Succeeded);
      assert Filter(entries, Succeeded) == kept + Filter([last], Succeeded) by {
        assert entries == entries[..n] + [last];
        FilterAppend(entries[..n], [last], Succeeded);
      }
      if Succeeded(last) {
        assert Filter([last], Succeeded) == [last];
        SummaryBodySnoc(kept, last);
      } else {
        assert Filter([last], Succeeded) == [];
        assert kept + [] == kept;
        assert SummaryBody(kept) + SummaryBlock(last) == SummaryBody(kept);
      }
    }
  }

  lemma SummaryBodySnoc(entries: seq<(string, SearchOutcome)>, last: (string, SearchOutcome))
    ensures SummaryBody(entries + [last]) == SummaryBody(entries) + SummaryBlock(last)
  {
    assert (entries + [last])[..|entries|] == entries;
  }

  /** The summary has at most five lines per query. */
  lemma {:induction false} SummaryBodyBound(entries: seq<(string, SearchOutcome)>)
    ensures |SummaryBody(entries)| <= (2 + SummarizedTitles) * |entries|
  {
    if entries != [] {
      SummaryBodyBound(entries[..|entries| - 1]);
    }
  }

  // ---------------------------------------------------------------------
  // The agent
  // ---------------------------------------------------------------------

  /** The research agent with its configured search depth and output
      type. */
  class ResearchAgent {
    const depth: string
    const outputType: string

    constructor (depth: string, outputType: string)
      ensures this.depth == depth && this.outputType == outputType
    {
      this.depth := depth;
      this.outputType := outputType;
    }

    /** `search(query, depth)`: `response` is the client's answer to the
        request and `now` the time read after it. */
    method Search(query: string, requestedDepth: Option<string>, response: ProviderResponse, now: string)
      returns (r: SearchOutcome)
      ensures r == SearchOutcomeOf(query, requestedDepth.GetOr(depth), response, now)
    {
      var chosen := if requestedDepth.Some? then requestedDepth.value else depth;
      if response.Failure? {
        return SearchFailed(query, response.message, now);
      }
      var results: seq<ResultItem> := [];
      if response.Items? && response.items != [] {
        for i := 0 to |response.items|
          invariant results == Map(response.items[..i], ItemOf)
        {
          var item := response.items[i];
          var text := if item.content.Some? then ContentText(item.content.value)
                      else if item.snippet.Some? then SnippetText(item.snippet.value)
                      else NoText;
          MapPrefix(response.items, i, ItemOf);
          results := results + [ResultItem(item.typeName, item.url, item.title, text)];
        }
        assert response.items[..|response.items|] == response.items;
      }
      r := Searched(query, chosen, now, results);
    }

    /** `research_topics(queries)`: `started` is the time read first, and
        the i-th search gets the i-th answer and time. */
    method ResearchTopics(queries: seq<string>, started: string, responses: nat -> ProviderResponse,
                          times: nat -> string) returns (r: Report)
      ensures r == Report(queries, started, ResearchEntries(queries, depth, responses, times))
    {
      var results: seq<(string, SearchOutcome)> := [];
      for i := 0 to |queries|
        invariant results == ResearchEntries(queries[..i], depth, responses, times)
      {
        var result := Search(queries[i], None, responses(i), times(i));
        assert queries[..i + 1][..i] == queries[..i];
        results := Dicts.Put(results, queries[i], result);
      }
      assert queries[..|queries|] == queries;
      r := Report(queries, started, results);
    }

    /** `format_for_display(search_result)`. */
    method FormatForDisplay(outcome: SearchOutcome) returns (text: string)
      ensures text == Join("\n", DisplayLines(outcome))
    {
      var output := SearchHeader(outcome.query);
      if outcome.SearchFailed? {
        output := output + ["❌ ERROR: " + outcome.error];
        return Join("\n", output);
      }
      output := output + ["Found " + NatToString(|outcome.results|) + " results:\n"];
      var shown := Prefix(outcome.results, DisplayedResults);
      var blocks: seq<string> := [];
      for i := 0 to |shown|
        invariant blocks == ResultBlocks(shown[..i])
      {
        assert shown[..i + 1][..i] == shown[..i];
        blocks := blocks + ResultBlock(i + 1, shown[i]);
      }
      assert shown[..|shown|] == shown;
      output := output + blocks + [Rule];
      text := Join("\n", output);
    }

    /** `summarize_research(research_results)`. */
    method SummarizeResearch(report: Report) returns (text: string)
      ensures text == Join("\n", SummaryLines(report))
    {
      var entries := report.results;
      var body: seq<string> := [];
      for i := 0 to |entries|
        invariant body == SummaryBody(entries[..i])
      {
        assert entries[..i + 1][..i] == entries[..i];
        var block := SummaryBlockLines(entries[i]);
        body := body + block;
      }
      assert entries[..|entries|] == entries;
      text := Join("\n", ["\n📚 RESEARCH SUMMARY", Rule] + body + ["\n" + Rule]);
    }

    /** The summary lines of one query, title by title. */
    method SummaryBlockLines(entry: (string, SearchOutcome)) returns (block: seq<string>)
      ensures block == SummaryBlock(entry)
    {
      var (query, result) := entry;
      if result.SearchFailed? {
        return [];
      }
      var top := Prefix(result.results, SummarizedTitles);
      var titles: seq<string> := [];
      for j := 0 to |top|
        invariant titles == TitleLines(top[..j])
      {
        assert top[..j + 1][..j] == top[..j];
        titles := titles + ["   " + NatToString(j + 1) + ". " + ShowOptional(top[j].title)];
      }
      assert top[..|top|] == top;
      block := ["\n🔹 " + query, "   Found " + NatToString(|result.results|) + " sources"] + titles;
    }
  }
}
