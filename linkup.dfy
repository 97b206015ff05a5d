// The web-search wrapper (`LinkupWrapper`): runs one search through the
// search client and normalises its answer into numbered sources, never
// raising; failures become an error result.
module Linkup {
  import opened Wrappers
  import opened Seqs
  import opened Text
  import opened Services

  /** Longest snippet a source keeps. */
  const SnippetLimit: nat := 200

  datatype Source = Source(title: string, url: string, snippet: string, relevance: nat)

  /** The dictionary `search` returns: sources with their count, or the
      error message with no sources. */
  datatype SearchResult =
    | Found(query: string, sources: seq<Source>, totalFound: nat)
    | SearchError(query: string, error: string)

  /** `result.get("sources", [])`. */
  function SourcesOf(r: SearchResult): seq<Source>
  {
    if r.Found? then r.sources else []
  }

  /** `result.get("error")` is truthy. */
  predicate HasError(r: SearchResult)
  {
    r.SearchError? && r.error != ""
  }

  /** The title of a provider item: its `name` when non-empty, else its
      `title`, else the empty string. */
  function TitleOf(item: ProviderItem): (t: string)
    ensures item.name.Some? && item.name.value != "" ==> t == item.name.value
    ensures (item.name.None? || item.name.value == "") ==> t == item.title.GetOr("")
  {
    if item.name.Some? && item.name.value != "" then item.name.value else item.title.GetOr("")
  }

  /** The normalised source for the item ranked `rank`: its snippet is the
      item's `snippet` attribute if it has one, else its `content`, cut to
      `SnippetLimit` characters. */
  function SourceOf(item: ProviderItem, rank: nat): (s: Source)
    ensures s.relevance == rank && s.title == TitleOf(item) && s.url == item.url.GetOr("")
    ensures |s.snippet| <= SnippetLimit
    ensures s.snippet == Prefix(if item.snippet.Some? then item.snippet.value else item.content.GetOr(""), SnippetLimit)
  {
    var text := if item.snippet.Some? then item.snippet.value else item.content.GetOr("");
    Source(TitleOf(item), item.url.GetOr(""), Prefix(text, SnippetLimit), rank)
  }

  /** The sources a search keeps from the client's answer: the first
      `maxResults` items (Python slice rules), ranked from 1; none when the
      answer has no results or the client raised. */
  function SearchSources(response: ProviderResponse, maxResults: int): (r: seq<Source>)
    ensures response.Items? ==> |r| == SliceBound(|response.items|, maxResults)
    ensures !response.Items? ==> r == []
    ensures forall i :: 0 <= i < |r| ==> r[i].relevance == i + 1
  {
    if response.Items? then
      seq(SliceBound(|response.items|, maxResults), i requires 0 <= i < SliceBound(|response.items|, maxResults) =>
        SourceOf(response.items[i], i + 1))
    else []
  }

  /** `LinkupWrapper.search(query, max_results)`, given the client's answer
      `response`. Keeps the first `maxResults` items (Python slice rules)
      and numbers them from 1; a client exception becomes an error result. */
  method Search(query: string, maxResults: int, response: ProviderResponse) returns (r: SearchResult)
    ensures response.Failure? <==> r.SearchError?
    ensures response.Failure? ==> r == SearchError(query, response.message)
    ensures r.Found? ==> r.query == query && r.totalFound == |r.sources|
    ensures response.NoResultsAttribute? ==> r.sources == []
    ensures response.Items? ==>
      |r.sources| == SliceBound(|response.items|, maxResults) &&
      forall i :: 0 <= i < |r.sources| ==> r.sources[i] == SourceOf(response.items[i], i + 1)
    ensures SourcesOf(r) == SearchSources(response, maxResults)
  {
    match response
    case Failure(message) =>
      return SearchError(query, message);
    case NoResultsAttribute =>
      return Found(query, [], 0);
    case Items(items) =>
      var kept := Prefix(items, maxResults);
      var sources: seq<Source> := [];
      var i := 0;
      while i < |kept|
        invariant 0 <= i <= |kept|
        invariant |sources| == i
        invariant forall j :: 0 <= j < i ==> sources[j] == SourceOf(items[j], j + 1)
      {
        sources := sources + [SourceOf(kept[i], i + 1)];
        i := i + 1;
      }
      return Found(query, sources, |sources|);
  }

  /** The text block that presents source number `n`. */
  function SourceBlock(n: nat, s: Source): string
  {
    "Source " + NatToString(n) + ": " + s.title + "\nURL: " + s.url + "\nContent: " + s.snippet + "\n"
  }

  /** `format_sources_for_agent`: one block per source, numbered from 1 in
      the given order, the blocks separated by newlines. */
  method FormatSourcesForAgent(sources: seq<Source>) returns (text: string)
    ensures text == Join("\n", seq(|sources|, i requires 0 <= i < |sources| => SourceBlock(i + 1, sources[i])))
    ensures sources == [] ==> text == ""
  {
    var blocks: seq<string> := [];
    for i := 0 to |sources|
      invariant blocks == seq(i, j requires 0 <= j < i => SourceBlock(j + 1, sources[j]))
    {
      blocks := blocks + [SourceBlock(i + 1, sources[i])];
    }
    text := Join("\n", blocks);
  }

  /** `test_connection`: a one-result search for "test query" succeeds
      exactly when the client did not raise. */
  method TestConnection(response: ProviderResponse) returns (ok: bool)
    ensures ok <==> !response.Failure?
  {
    var r := Search("test query", 1, response);
    ok := |SourcesOf(r)| > 0 || !r.SearchError?;
  }
}
