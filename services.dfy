// The outside services the program calls, reduced to what their answers look
// like. The model never calls them: each answer is a parameter of the
// operation that would have asked for it.
module Services {
  import opened Wrappers
  import opened Values

  /** The dictionary `GroqClient.chat` returns: `content` is the model's text
      (`None` when the call failed or the model sent no text) and `error` is
      present only when the call raised, holding the exception's message. */
  datatype LlmReply = LlmReply(content: Option<string>, error: Option<string>)

  /** `response.get("error")` is truthy. */
  predicate ReplyFailed(r: LlmReply)
  {
    r.error.Some? && r.error.value != ""
  }

  /** A chat completion made directly through the model SDK: the text of
      the first choice (`None` when the model sent none), or the exception
      the call raised, by its message. */
  datatype Completion = ChatReply(content: Option<string>) | ChatFailed(message: string)

  /** `json.loads(text)`: the decoded value, or the JSONDecodeError message. */
  datatype ParseOutcome = Parsed(value: Value) | DecodeError(message: string)

  /** One object in the search client's `results`; a `None` field is an
      attribute the object lacks. */
  datatype ProviderItem = ProviderItem(
    typeName: string,
    name: Option<string>,
    title: Option<string>,
    url: Option<string>,
    snippet: Option<string>,
    content: Option<string>)

  /** What the search client's `search` call produced: a response whose
      `results` attribute holds items, a response without that attribute,
      or an exception with its message. */
  datatype ProviderResponse =
    | Items(items: seq<ProviderItem>)
    | NoResultsAttribute
    | Failure(message: string)
}
