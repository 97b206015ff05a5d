// The email processor (`EmailProcessor`): one language-model call that
// extracts topics, action items, research queries and entities from an
// email as JSON; the record it returns in every outcome; a batch over
// several emails; and the console text of one record.
module EmailProcessor {
  import opened Wrappers
  import opened Seqs
  import opened Text
  import opened Values
  import opened Services

  /** An email as the processor and the reply generator read it. The
      `id` key may be missing (`email.get("id")`); the others are indexed
      directly and are present. */
  datatype IncomingEmail = IncomingEmail(
    id: Option<string>, sender: string, subject: string,
    date: string, priority: string, body: string)

  const JsonFence: string := "```json"
  const Fence: string := "```"

  // ---------------------------------------------------------------------
  // Fence stripping
  // ---------------------------------------------------------------------

  /** The markdown fences removed from the stripped reply before parsing:
      a leading "```json", then a leading "```", then a trailing "```". */
  function WithoutFences(content: string): (r: string)
    ensures |r| <= |content|
  {
    var afterJson := if StartsWith(content, JsonFence) then content[|JsonFence|..] else content;
    var afterFence := if StartsWith(afterJson, Fence) then afterJson[|Fence|..] else afterJson;
    if EndsWith(afterFence, Fence) then afterFence[..|afterFence| - |Fence|] else afterFence
  }

  /** A reply fenced as a JSON block gives back the text between the
      fences, unless that text itself begins or ends with a fence. */
  lemma JsonBlockUnwrapped(body: string)
    requires !StartsWith(body, Fence) && !EndsWith(body, Fence)
    ensures WithoutFences(JsonFence + body + Fence) == body
  {
    var content := JsonFence + body + Fence;
    assert content[..|JsonFence|] == JsonFence;
    var afterJson := content[|JsonFence|..];
    assert afterJson == body + Fence;
    if StartsWith(afterJson, Fence) {
      // only a body of fewer than three backticks gets here
      assert |body| < 3;
      forall i | 0 <= i < |body| ensures body[i] == '`' {
        assert afterJson[i] == body[i];
        assert Fence[i] == '`';
      }
      assert afterJson[|Fence|..] == body;
    }
  }

  /** The same for a plain fenced block, unless the text begins with
      "json" (then the first rule takes it) or ends with a fence. */
  lemma PlainBlockUnwrapped(body: string)
    requires !StartsWith(body, "json") && !EndsWith(body, Fence)
    ensures WithoutFences(Fence + body + Fence) == body
  {
    var content := Fence + body + Fence;
    assert !StartsWith(content, JsonFence) by {
      if |body| >= 4 {
        assert content[3..7] == body[..4];
      } else {
        assert content[3 + |body|] == '`';
      }
    }
    assert content[..|Fence|] == Fence;
    var afterFence := content[|Fence|..];
    assert afterFence == body + Fence;
    assert afterFence[..|afterFence| - |Fence|] == body;
  }

  /** A reply without fences at either end is passed on as it is. */
  lemma UnfencedUnchanged(content: string)
    requires !StartsWith(content, Fence) && !EndsWith(content, Fence)
    ensures WithoutFences(content) == content
  {
  }

  // ---------------------------------------------------------------------
  // Extraction
  // ---------------------------------------------------------------------

  /** The record returned when the call or the result handling raised. */
  function FailureRecord(email: IncomingEmail, error: string): (r: Value)
  {
    Dict([("email_id", OptionalStr(email.id)), ("sender", VStr(email.sender)), ("error", VStr(error))])
  }

  /** The record returned when the reply is not valid JSON: it keeps the
      reply text after fence stripping. */
  function DecodeFailureRecord(email: IncomingEmail, error: string, raw: string): (r: Value)
  {
    Dict([("email_id", OptionalStr(email.id)), ("sender", VStr(email.sender)), ("subject", VStr(email.subject)),
          ("error", VStr(error)), ("raw_response", VStr(raw))])
  }

  /** The parsed dictionary with the four metadata keys written into it. */
  function WithMetadata(parsed: Value, email: IncomingEmail, now: string): (r: Value)
    requires parsed.VDict?
    ensures r.VDict?
  {
    Set(Set(Set(Set(parsed, "email_id", OptionalStr(email.id)), "sender", VStr(email.sender)),
            "subject", VStr(email.subject)), "processed_at", VStr(now))
  }

  /** `extract_entities(email)`, given the language model's completion,
      the JSON parser and the time read after parsing. Parsed JSON that is
      not an object makes the first key assignment raise TypeError, which
      the handler turns into a failure record. */
  function Extracted(email: IncomingEmail, completion: Completion, parse: string -> ParseOutcome, now: string): (r: Value)
    ensures r.VDict?
  {
    match completion
    case ChatFailed(message) => FailureRecord(email, message)
    case ChatReply(content) =>
      if content.None? then FailureRecord(email, NoneStripMessage)
      else FromContent(email, WithoutFences(Strip(content.value)), parse, now)
  }

  /** The record made from the fence-stripped reply text. */
  function FromContent(email: IncomingEmail, stripped: string, parse: string -> ParseOutcome, now: string): (r: Value)
    ensures r.VDict?
  {
    match parse(Strip(stripped))
    case DecodeError(message) => DecodeFailureRecord(email, message, stripped)
    case Parsed(v) => if v.VDict? then WithMetadata(v, email, now) else FailureRecord(email, TypeErrorMessage)
  }

  /** Whether the reply was parsed into a JSON object. */
  predicate Succeeds(completion: Completion, parse: string -> ParseOutcome)
  {
    completion.ChatReply? && completion.content.Some? &&
    var p := parse(Strip(WithoutFences(Strip(completion.content.value))));
    p.Parsed? && p.value.VDict?
  }

  /** Every record names the email and its sender. A parsed object keeps
      its own keys and gains the subject and the processing time; every
      other outcome is a record with an `error` and never an exception; a
      parse failure also keeps the fence-stripped reply. */
  lemma ExtractedRecord(email: IncomingEmail, completion: Completion, parse: string -> ParseOutcome, now: string)
    ensures var r := Extracted(email, completion, parse, now);
      Get(r, "email_id") == Some(OptionalStr(email.id)) && Get(r, "sender") == Some(VStr(email.sender))
    ensures Succeeds(completion, parse) ==>
      var r := Extracted(email, completion, parse, now);
      var parsed := parse(Strip(WithoutFences(Strip(completion.content.value)))).value;
      Get(r, "subject") == Some(VStr(email.subject)) && Get(r, "processed_at") == Some(VStr(now)) &&
      forall k :: k !in ["email_id", "sender", "subject", "processed_at"] ==> Get(r, k) == Get(parsed, k)
    ensures completion.ChatFailed? ==>
      Get(Extracted(email, completion, parse, now), "error") == Some(VStr(completion.message))
    ensures completion.ChatReply? && completion.content.None? ==>
      Get(Extracted(email, completion, parse, now), "error") == Some(VStr(NoneStripMessage))
    ensures completion.ChatReply? && completion.content.Some? ==>
      var stripped := WithoutFences(Strip(completion.content.value));
      var p := parse(Strip(stripped));
      var r := Extracted(email, completion, parse, now);
      (p.DecodeError? ==> Get(r, "error") == Some(VStr(p.message)) && Get(r, "raw_response") == Some(VStr(stripped))) &&
      (p.Parsed? && !p.value.VDict? ==> Get(r, "error") == Some(VStr(TypeErrorMessage)))
  {
    var r := Extracted(email, completion, parse, now);
    FailureKeys(email, if completion.ChatFailed? then completion.message else NoneStripMessage);
    FailureKeys(email, TypeErrorMessage);
    if completion.ChatReply? && completion.content.Some? {
      var stripped := WithoutFences(Strip(completion.content.value));
      var p := parse(Strip(stripped));
      if p.DecodeError? {
        DecodeFailureKeys(email, p.message, stripped);
      } else if p.value.VDict? {
        MetadataKeys(p.value, email, now);
      }
    }
  }

  lemma FailureKeys(email: IncomingEmail, error: string)
    ensures var r := FailureRecord(email, error);
      Get(r, "email_id") == Some(OptionalStr(email.id)) && Get(r, "sender") == Some(VStr(email.sender)) &&
      Get(r, "error") == Some(VStr(error))
  {
    var pairs := [("email_id", OptionalStr(email.id)), ("sender", VStr(email.sender)), ("error", VStr(error))];
    DictGets(pairs);
    assert pairs[2] == ("error", VStr(error));
  }

  lemma DecodeFailureKeys(email: IncomingEmail, error: string, raw: string)
    ensures var r := DecodeFailureRecord(email, error, raw);
      Get(r, "email_id") == Some(OptionalStr(email.id)) && Get(r, "sender") == Some(VStr(email.sender)) &&
      Get(r, "error") == Some(VStr(error)) && Get(r, "raw_response") == Some(VStr(raw))
  {
    var pairs := [("email_id", OptionalStr(email.id)), ("sender", VStr(email.sender)), ("subject", VStr(email.subject)),
                  ("error", VStr(error)), ("raw_response", VStr(raw))];
    assert pairs[0].0[1] == 'm' && pairs[1].0[1] == 'e' && pairs[2].0[1] == 'u' && pairs[3].0[1] == 'r' &&
           pairs[4].0[1] == 'a';
    DictGets(pairs);
    assert pairs[3] == ("error", VStr(error)) && pairs[4] == ("raw_response", VStr(raw));
  }

  lemma MetadataKeys(parsed: Value, email: IncomingEmail, now: string)
    requires parsed.VDict?
    ensures var r := WithMetadata(parsed, email, now);
      Get(r, "email_id") == Some(OptionalStr(email.id)) && Get(r, "sender") == Some(VStr(email.sender)) &&
      Get(r, "subject") == Some(VStr(email.subject)) && Get(r, "processed_at") == Some(VStr(now)) &&
      forall k :: k !in ["email_id", "sender", "subject", "processed_at"] ==> Get(r, k) == Get(parsed, k)
  {
    var d1 := Set(parsed, "email_id", OptionalStr(email.id));
    var d2 := Set(d1, "sender", VStr(email.sender));
    var d3 := Set(d2, "subject", VStr(email.subject));
    var d4 := Set(d3, "processed_at", VStr(now));
    SetOther(d1, "sender", VStr(email.sender), "email_id");
    SetOther(d2, "subject", VStr(email.subject), "email_id");
    SetOther(d2, "subject", VStr(email.subject), "sender");
    SetOther(d3, "processed_at", VStr(now), "email_id");
    SetOther(d3, "processed_at", VStr(now), "sender");
    SetOther(d3, "processed_at", VStr(now), "subject");
    forall k | k !in ["email_id", "sender", "subject", "processed_at"] ensures Get(d4, k) == Get(parsed, k) {
      SetOther(parsed, "email_id", OptionalStr(email.id), k);
      SetOther(d1, "sender", VStr(email.sender), k);
      SetOther(d2, "subject", VStr(email.subject), k);
      SetOther(d3, "processed_at", VStr(now), k);
    }
  }

  /** `extract_entities(email)`, step by step as the source does it. */
  method ExtractEntities(email: IncomingEmail, completion: Completion, parse: string -> ParseOutcome, now: string)
    returns (r: Value)
    ensures r == Extracted(email, completion, parse, now)
  {
    if completion.ChatFailed? {
      return FailureRecord(email, completion.message);
    }
    if completion.content.None? {
      return FailureRecord(email, NoneStripMessage);
    }
    var content := Unfence(Strip(completion.content.value));
    r := ParseContent(email, content, parse, now);
  }

  /** The fence stripping of `extract_entities`, one reassignment at a
      time. */
  method Unfence(reply: string) returns (content: string)
    ensures content == WithoutFences(reply)
  {
    content := reply;
    if StartsWith(content, JsonFence) {
      content := content[|JsonFence|..];
    }
    if StartsWith(content, Fence) {
      content := content[|Fence|..];
    }
    if EndsWith(content, Fence) {
      content := content[..|content| - |Fence|];
    }
  }

  /** Parsing the stripped reply and writing the metadata keys. */
  method ParseContent(email: IncomingEmail, content: string, parse: string -> ParseOutcome, now: string)
    returns (r: Value)
    ensures r == FromContent(email, content, parse, now)
  {
    var parsed := parse(Strip(content));
    if parsed.DecodeError? {
      return DecodeFailureRecord(email, parsed.message, content);
    }
    var extracted := parsed.value;
    if !extracted.VDict? {
      return FailureRecord(email, TypeErrorMessage);
    }
    extracted := Set(extracted, "email_id", OptionalStr(email.id));
    extracted := Set(extracted, "sender", VStr(email.sender));
    extracted := Set(extracted, "subject", VStr(email.subject));
    extracted := Set(extracted, "processed_at", VStr(now));
    r := extracted;
  }

  // ---------------------------------------------------------------------
  // Batches
  // ---------------------------------------------------------------------

  /** Whether the progress line after a record can be printed: it takes
      `len` of the record's `action_items` (an empty list when missing). */
  predicate ActionItemsSized(record: Value)
  {
    record.VDict? && Len(GetOr(record, "action_items", VList([]))).Some?
  }

  /** One step of `process_batch`: the i-th email processed with the i-th
      completion and time, then the progress line. A record whose
      `action_items` has no length (a number or null in the model's JSON)
      makes that line raise TypeError, which ends the batch. */
  function BatchStep(completions: nat -> Completion, parse: string -> ParseOutcome, times: nat -> string)
    : (IncomingEmail, nat) -> Result<Value>
  {
    (email: IncomingEmail, i: nat) =>
      var record := Extracted(email, completions(i), parse, times(i));
      if ActionItemsSized(record) then Ok(record) else Raised(TypeErrorMessage)
  }

  /** `process_batch(emails)`. */
  function Batch(emails: seq<IncomingEmail>, completions: nat -> Completion, parse: string -> ParseOutcome,
                 times: nat -> string): Result<seq<Value>>
  {
    Collect(emails, BatchStep(completions, parse, times))
  }

  /** The batch succeeds exactly when every record's `action_items` has a
      length, and then holds one record per email, in input order. */
  lemma BatchOnePerEmail(emails: seq<IncomingEmail>, completions: nat -> Completion,
                         parse: string -> ParseOutcome, times: nat -> string)
    ensures var r := Batch(emails, completions, parse, times);
      r.Ok? <==> forall i :: 0 <= i < |emails| ==> ActionItemsSized(Extracted(emails[i], completions(i), parse, times(i)))
    ensures var r := Batch(emails, completions, parse, times);
      r.Ok? ==> |r.value| == |emails|
    ensures var r := Batch(emails, completions, parse, times);
      r.Ok? ==> forall i :: 0 <= i < |emails| ==> r.value[i] == Extracted(emails[i], completions(i), parse, times(i))
  {
    CollectOk(emails, BatchStep(completions, parse, times));
  }

  method ProcessBatch(emails: seq<IncomingEmail>, completions: nat -> Completion, parse: string -> ParseOutcome,
                      times: nat -> string) returns (r: Result<seq<Value>>)
    ensures r == Batch(emails, completions, parse, times)
  {
    ghost var step := BatchStep(completions, parse, times);
    var results: seq<Value> := [];
    for i := 0 to |emails|
      invariant Collect(emails[..i], step) == Ok(results)
    {
      assert emails[..i + 1][..i] == emails[..i];
      var extracted := ExtractEntities(emails[i], completions(i), parse, times(i));
      results := results + [extracted];
      if Len(GetOr(extracted, "action_items", VList([]))).None? {
        assert step(emails[i], i) == Raised(TypeErrorMessage);
        CollectStopsAt(emails, i + 1, step);
        return Raised(TypeErrorMessage);
      }
      assert step(emails[i], i) == Ok(extracted);
    }
    assert emails[..|emails|] == emails;
    r := Ok(results);
  }

  // ---------------------------------------------------------------------
  // The display
  // ---------------------------------------------------------------------

  const SummaryTitle: string := "\n📌 SUMMARY:"
  const TopicsTitle: string := "\n🎯 KEY TOPICS:"
  const ActionsTitle: string := "\n✅ ACTION ITEMS:"
  const QueriesTitle: string := "\n🔍 RESEARCH QUERIES:"
  const CompaniesTitle: string := "\n🏢 COMPANIES MENTIONED:"
  const TechnologiesTitle: string := "\n💻 TECHNOLOGIES MENTIONED:"
  const MetricsTitle: string := "\n📊 KEY METRICS:"
  const Dot: string := "   • "
  const Box: string := "   □ "
  const NotAvailable: Value := VStr("N/A")

  /** A title line followed by `lines`. */
  function Titled(title: string, lines: Result<seq<string>>): (r: Result<seq<string>>)
  {
    Then(Ok([title]), lines)
  }

  /** Appending a title and then lines is appending the titled lines. */
  lemma AppendTitled(output: seq<string>, title: string, lines: Result<seq<string>>)
    ensures Then(Ok(output + [title]), lines) == Then(Ok(output), Titled(title, lines))
  {
    if lines.Ok? {
      assert (output + [title]) + lines.value == output + ([title] + lines.value);
    }
  }

  /** One line per element of `v` (`for x in v`); TypeError when `v` is
      not iterable. */
  function Bullets(bullet: string, v: Value): (r: Result<seq<string>>)
    ensures r.Ok? <==> Iterate(v).Some?
    ensures r.Ok? ==> |r.value| == |Iterate(v).value|
    ensures r.Ok? ==> forall i :: 0 <= i < |r.value| ==> r.value[i] == bullet + Show(Iterate(v).value[i])
  {
    match Iterate(v)
    case None => Raised(TypeErrorMessage)
    case Some(xs) => Ok(Map(xs, x => bullet + Show(x)))
  }

  function Header(record: Value): seq<string>
    requires record.VDict?
  {
    ["\n" + Rule,
     "📧 EMAIL ID: " + Show(GetOr(record, "email_id", VNone)),
     "FROM: " + Show(GetOr(record, "sender", VNone)),
     "SUBJECT: " + Show(GetOr(record, "subject", VNone)),
     Rule]
  }

  /** An entity section: a title and one line per element, when the
      entity list is truthy. */
  function EntitySection(title: string, entities: Value, key: string): Result<seq<string>>
    requires entities.VDict?
  {
    var v := GetOr(entities, key, VNone);
    if Truthy(v) then Titled(title, Bullets(Dot, v)) else Ok([])
  }

  /** `.upper()` on a value: AttributeError unless it is a string. */
  function Shouted(prefix: string, v: Value): Result<seq<string>>
  {
    if v.VStr? then Ok([prefix + Upper(v.s)]) else Raised(AttributeErrorMessage)
  }

  /** The lines after the header of a record without `error`, group by
      group in the order they are appended. */
  function Sections(record: Value): Result<seq<string>>
    requires record.VDict?
  {
    var entities := GetOr(record, "entities", VDict([]));
    var summary := Ok([SummaryTitle, "   " + Show(GetOr(record, "summary", NotAvailable))]);
    var topics := Then(summary, Titled(TopicsTitle, Bullets(Dot, GetOr(record, "key_topics", VList([])))));
    var actions := Then(topics, Titled(ActionsTitle, Bullets(Box, GetOr(record, "action_items", VList([])))));
    var queries := Then(actions, Titled(QueriesTitle, Bullets(Dot, GetOr(record, "research_queries", VList([])))));
    var named :=
      if !entities.VDict? then Then(queries, Raised(AttributeErrorMessage))
      else
        Then(Then(Then(queries, EntitySection(CompaniesTitle, entities, "companies")),
                  EntitySection(TechnologiesTitle, entities, "technologies")),
             EntitySection(MetricsTitle, entities, "metrics"));
    var urgency := Then(named, Shouted("\n📍 URGENCY: ", GetOr(record, "urgency_level", NotAvailable)));
    var sentiment := Then(urgency, Shouted("😊 SENTIMENT: ", GetOr(record, "sentiment", NotAvailable)));
    Then(sentiment, Ok(["\n" + Rule]))
  }

  /** `format_for_display(extracted)`, as lines: AttributeError unless
      the record is a dictionary; a record with `error` shows the header
      and the error and nothing else. */
  function DisplayLines(record: Value): Result<seq<string>>
  {
    if !record.VDict? then Raised(AttributeErrorMessage)
    else if Has(record, "error") then Ok(Header(record) + ["❌ ERROR: " + Show(Get(record, "error").value)])
    else Then(Ok(Header(record)), Sections(record))
  }

  /** What a record must hold for its display not to raise: iterable
      lists, an entities dictionary whose truthy lists are iterable, and
      urgency and sentiment as strings (each may be missing). */
  predicate Displayable(record: Value)
    requires record.VDict?
  {
    var entities := GetOr(record, "entities", VDict([]));
    Iterate(GetOr(record, "key_topics", VList([]))).Some? &&
    Iterate(GetOr(record, "action_items", VList([]))).Some? &&
    Iterate(GetOr(record, "research_queries", VList([]))).Some? &&
    entities.VDict? &&
    (Truthy(GetOr(entities, "companies", VNone)) ==> Iterate(GetOr(entities, "companies", VNone)).Some?) &&
    (Truthy(GetOr(entities, "technologies", VNone)) ==> Iterate(GetOr(entities, "technologies", VNone)).Some?) &&
    (Truthy(GetOr(entities, "metrics", VNone)) ==> Iterate(GetOr(entities, "metrics", VNone)).Some?) &&
    GetOr(record, "urgency_level", NotAvailable).VStr? &&
    GetOr(record, "sentiment", NotAvailable).VStr?
  }

  /** The display raises exactly when the record is not a dictionary, or
      has no `error` and is not displayable; it always starts with the
      header, and an error record stops right after the error line. */
  lemma DisplayOutcome(record: Value)
    ensures DisplayLines(record).Ok? <==> record.VDict? && (Has(record, "error") || Displayable(record))
    ensures DisplayLines(record).Ok? ==> DisplayLines(record).value[..5] == Header(record)
    ensures record.VDict? && Has(record, "error") ==>
      DisplayLines(record) == Ok(Header(record) + ["❌ ERROR: " + Show(Get(record, "error").value)])
  {
  }

  /** Every failure record of the extraction displays without raising,
      and shows its error. */
  lemma FailuresDisplay(email: IncomingEmail, completion: Completion, parse: string -> ParseOutcome, now: string)
    requires !Succeeds(completion, parse)
    ensures var r := Extracted(email, completion, parse, now);
      var error := Get(r, "error");
      error.Some? && DisplayLines(r) == Ok(Header(r) + ["❌ ERROR: " + Show(error.value)])
  {
    ExtractedRecord(email, completion, parse, now);
  }

  /** Appends one line per element of `v` to `output`. */
  method AppendBullets(output: seq<string>, bullet: string, v: Value) returns (r: Result<seq<string>>)
    ensures r == Then(Ok(output), Bullets(bullet, v))
  {
    var items := Iterate(v);
    if items.None? {
      return Raised(TypeErrorMessage);
    }
    var xs := items.value;
    var lines := output;
    for i := 0 to |xs|
      invariant lines == output + Map(xs[..i], x => bullet + Show(x))
    {
      lines := lines + [bullet + Show(xs[i])];
    }
    assert xs[..|xs|] == xs;
    r := Ok(lines);
  }

  /** `format_for_display(extracted)`. */
  method FormatForDisplay(record: Value) returns (r: Result<string>)
    ensures DisplayLines(record).Raised? ==> r == Raised(DisplayLines(record).message)
    ensures DisplayLines(record).Ok? ==> r == Ok(Join("\n", DisplayLines(record).value))
  {
    if !record.VDict? {
      return Raised(AttributeErrorMessage);
    }
    var output := Header(record);
    if Has(record, "error") {
      output := output + ["❌ ERROR: " + Show(Get(record, "error").value)];
      return Ok(Join("\n", output));
    }
    var lines := SectionLines(record);
    if lines.Raised? {
      return Raised(lines.message);
    }
    output := output + lines.value;
    r := Ok(Join("\n", output));
  }

  /** The sections of a record without `error`, appended one by one. */
  method SectionLines(record: Value) returns (r: Result<seq<string>>)
    requires record.VDict?
    ensures r == Sections(record)
  {
    var output := [SummaryTitle, "   " + Show(GetOr(record, "summary", NotAvailable))];
    var step := AppendBullets(output + [TopicsTitle], Dot, GetOr(record, "key_topics", VList([])));
    AppendTitled(output, TopicsTitle, Bullets(Dot, GetOr(record, "key_topics", VList([]))));
    if step.Raised? { return step; }
    output := step.value;
    step := AppendBullets(output + [ActionsTitle], Box, GetOr(record, "action_items", VList([])));
    AppendTitled(output, ActionsTitle, Bullets(Box, GetOr(record, "action_items", VList([]))));
    if step.Raised? { return step; }
    output := step.value;
    step := AppendBullets(output + [QueriesTitle], Dot, GetOr(record, "research_queries", VList([])));
    AppendTitled(output, QueriesTitle, Bullets(Dot, GetOr(record, "research_queries", VList([]))));
    if step.Raised? { return step; }
    r := EntityAndLevelLines(record, step.value);
  }

  /** The entity sections, urgency, sentiment and closing rule appended to
      `output`. */
  method EntityAndLevelLines(record: Value, output: seq<string>) returns (r: Result<seq<string>>)
    requires record.VDict?
    ensures var entities := GetOr(record, "entities", VDict([]));
      var named :=
        if !entities.VDict? then Then(Ok(output), Raised(AttributeErrorMessage))
        else
          Then(Then(Then(Ok(output), EntitySection(CompaniesTitle, entities, "companies")),
                    EntitySection(TechnologiesTitle, entities, "technologies")),
               EntitySection(MetricsTitle, entities, "metrics"));
      var urgency := Then(named, Shouted("\n📍 URGENCY: ", GetOr(record, "urgency_level", NotAvailable)));
      var sentiment := Then(urgency, Shouted("😊 SENTIMENT: ", GetOr(record, "sentiment", NotAvailable)));
      r == Then(sentiment, Ok(["\n" + Rule]))
  {
    var entities := GetOr(record, "entities", VDict([]));
    if !entities.VDict? {
      return Raised(AttributeErrorMessage);
    }
    var step := AppendEntities(output, CompaniesTitle, entities, "companies");
    if step.Raised? { return step; }
    step := AppendEntities(step.value, TechnologiesTitle, entities, "technologies");
    if step.Raised? { return step; }
    step := AppendEntities(step.value, MetricsTitle, entities, "metrics");
    if step.Raised? { return step; }
    var lines := step.value;
    var urgency := GetOr(record, "urgency_level", NotAvailable);
    if !urgency.VStr? {
      return Raised(AttributeErrorMessage);
    }
    lines := lines + ["\n📍 URGENCY: " + Upper(urgency.s)];
    var sentiment := GetOr(record, "sentiment", NotAvailable);
    if !sentiment.VStr? {
      return Raised(AttributeErrorMessage);
    }
    lines := lines + ["😊 SENTIMENT: " + Upper(sentiment.s)];
    r := Ok(lines + ["\n" + Rule]);
  }

  method AppendEntities(output: seq<string>, title: string, entities: Value, key: string) returns (r: Result<seq<string>>)
    requires entities.VDict?
    ensures r == Then(Ok(output), EntitySection(title, entities, key))
  {
    var v := GetOr(entities, key, VNone);
    if !Truthy(v) {
      assert output + [] == output;
      return Ok(output);
    }
    r := AppendBullets(output + [title], Dot, v);
    AppendTitled(output, title, Bullets(Dot, v));
  }
}
