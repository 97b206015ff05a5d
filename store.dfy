// The JSON memory of past interactions (`MemoryStore`): cached emails and
// meeting/conversation history, searched by a case-insensitive keyword over
// every text field, newest first. The two JSON files are the store's fields.
module Memory {
  import opened Wrappers
  import opened Seqs
  import opened Text
  import opened Values
  import Dicts

  /** One stored email or conversation: a JSON object's entries. */
  type Record = seq<(Value, Value)>

  /** `record.get(key)`. */
  function Field(r: Record, key: string): Option<Value>
  {
    Dicts.Lookup(r, VStr(key))
  }

  /** `record.get(key, default)`. */
  function FieldOr(r: Record, key: string, default: Value): Value
  {
    Field(r, key).GetOr(default)
  }

  /** A field value that mentions the (lower-cased) keyword. */
  predicate Mentions(v: Value, keywordLower: string)
  {
    v.VStr? && Contains(Lower(v.s), keywordLower)
  }

  /** `_matches`: some text field of the record contains the keyword,
      ignoring case; fields that are not text never match. */
  predicate Matches(record: Record, keyword: string)
    ensures Matches(record, keyword) <==>
      exists i :: 0 <= i < |record| && Mentions(record[i].1, Lower(keyword))
  {
    |record| > 0 &&
    (Mentions(record[0].1, Lower(keyword)) || Matches(record[1..], keyword))
  }

  /** Matching ignores the case of the keyword. */
  lemma MatchesIgnoresKeywordCase(record: Record, keyword: string)
    ensures Matches(record, keyword) == Matches(record, Lower(keyword))
  {
    LowerIdempotent(keyword);
  }

  /** The value `search_emails` sorts by: `date`, else `timestamp`, else "0". */
  function DateValue(r: Record): Value
  {
    FieldOr(r, "date", FieldOr(r, "timestamp", VStr("0")))
  }

  /** The newest-first sort key, ordered as Python orders the values. */
  function DateKey(r: Record): Key
  {
    SortKey(DateValue(r))
  }

  /** A history file's records are JSON objects; anything else has no
      `values()`, and `_matches` raises AttributeError on it. */
  predicate AllObjects(records: seq<Value>)
  {
    forall v :: v in records ==> v.VDict?
  }

  function EntriesOf(v: Value): Record
  {
    if v.VDict? then v.entries else []
  }

  /** The list comprehension of `search_emails`: the matching records, in
      file order. */
  function Matching(records: seq<Value>, company: string): seq<Record>
  {
    Filter(Map(records, EntriesOf), MatchesCompany(company))
  }

  /** The comprehension's condition as a predicate value. */
  function MatchesCompany(company: string): Record -> bool
  {
    x => Matches(x, company)
  }

  /** `search_emails` / `search_conversations` over one file's records: a
      record that is not an object raises AttributeError; otherwise the
      matching records newest first, where a sort that has to compare dates
      Python cannot order raises TypeError. */
  function SearchRecords(records: seq<Value>, company: string): (r: Result<seq<Record>>)
    ensures r.Ok? <==> AllObjects(records) && Orderable(Map(Matching(records, company), DateValue))
    ensures r.Raised? ==> r.message == if AllObjects(records) then TypeErrorMessage else AttributeErrorMessage
    ensures r.Ok? ==> multiset(r.value) == multiset(Matching(records, company))
    ensures r.Ok? ==> SortedDesc(r.value, DateKey)
    ensures r.Ok? ==> forall v :: v in records ==> (v.entries in r.value <==> Matches(v.entries, company))
  {
    if !AllObjects(records) then Raised(AttributeErrorMessage)
    else
      var matching := Matching(records, company);
      if !Orderable(Map(matching, DateValue)) then Raised(TypeErrorMessage)
      else
        SortDescMembers(matching, DateKey);
        MapMembers(records, EntriesOf);
        Ok(SortDesc(matching, DateKey))
  }

  /** `record.get('date', record.get('timestamp'))`. */
  function DateOf(r: Record): Option<Value>
  {
    if Field(r, "date").Some? then Field(r, "date") else Field(r, "timestamp")
  }

  predicate Dated(r: Record)
  {
    DateOf(r).Some? && Truthy(DateOf(r).value)
  }

  /** The truthy dates of the records, in record order. */
  function ContactDates(rs: seq<Record>): seq<Value>
  {
    if rs == [] then []
    else ContactDates(rs[..|rs| - 1]) + (if Dated(rs[|rs| - 1]) then [DateOf(rs[|rs| - 1]).value] else [])
  }

  lemma {:induction false} ContactDatesMembers(rs: seq<Record>)
    ensures forall d :: d in ContactDates(rs) <==> exists r :: r in rs && Dated(r) && DateOf(r).value == d
  {
    if rs != [] {
      var init := rs[..|rs| - 1];
      ContactDatesMembers(init);
      assert rs == init + [rs[|rs| - 1]];
      forall d | (exists r :: r in rs && Dated(r) && DateOf(r).value == d)
        ensures d in ContactDates(rs)
      {
        var r :| r in rs && Dated(r) && DateOf(r).value == d;
        if r != rs[|rs| - 1] {
          assert r in init;
        }
      }
    }
  }

  /** `all_dates.sort(reverse=True)` and its first element: the greatest
      date, `None` without dates, TypeError when the dates cannot be
      ordered. */
  function LatestDate(dates: seq<Value>): (r: Result<Option<Value>>)
    ensures r.Ok? <==> Orderable(dates)
    ensures r.Raised? ==> r.message == TypeErrorMessage
    ensures r.Ok? ==> (r.value.None? <==> dates == [])
    ensures r.Ok? && r.value.Some? ==>
      r.value.value in dates && forall d :: d in dates ==> KeyLe(SortKey(d), SortKey(r.value.value))
  {
    if !Orderable(dates) then Raised(TypeErrorMessage)
    else if dates == [] then Ok(None)
    else
      SortDescMembers(dates, SortKey);
      SortDescHeadIsMax(dates, SortKey);
      Ok(Some(SortDesc(dates, SortKey)[0]))
  }

  /** The context `get_company_context` returns. */
  datatype CompanyContext = CompanyContext(
    company: string,
    emails: seq<Record>,
    conversations: seq<Record>,
    totalInteractions: nat,
    lastContact: Option<Value>,
    summary: string)

  const PreviewLength: nat := 150

  /** `v[:150]` written into an f-string: a string keeps its first 150
      characters, a list or tuple its first 150 items; any other value is
      not subscriptable and raises TypeError. */
  function Preview(v: Value): (r: Result<string>)
    ensures r.Ok? <==> v.VStr? || v.VList? || v.VTuple?
    ensures r.Raised? ==> r.message == TypeErrorMessage
    ensures v.VStr? ==> r == Ok(Prefix(v.s, PreviewLength)) && |r.value| <= PreviewLength
  {
    match v
    case VStr(s) => Ok(Prefix(s, PreviewLength))
    case VList(xs) => Ok(Show(VList(Prefix(xs, PreviewLength))))
    case VTuple(xs) => Ok(Show(VTuple(Prefix(xs, PreviewLength))))
    case _ => Raised(TypeErrorMessage)
  }

  /** The previewed text of an email: `body`, else `content`, else "". */
  function Body(em: Record): Value
  {
    FieldOr(em, "body", FieldOr(em, "content", VStr("")))
  }

  /** The previewed text of a conversation: `notes`, else `summary`, else "". */
  function Notes(conv: Record): Value
  {
    FieldOr(conv, "notes", FieldOr(conv, "summary", VStr("")))
  }

  /** The summary line for one email. */
  function EmailLine(em: Record, i: nat): (r: Result<string>)
    ensures r.Ok? <==> Preview(Body(em)).Ok?
  {
    var subj := FieldOr(em, "subject", FieldOr(em, "title", VStr("No subject")));
    var date := FieldOr(em, "date", VStr("unknown date"));
    var sender := FieldOr(em, "from", FieldOr(em, "sender", VStr("unknown")));
    match Preview(Body(em))
    case Raised(message) => Raised(message)
    case Ok(preview) =>
      Ok("  - [" + Show(date) + "] From: " + Show(sender) + " | Subject: " + Show(subj) + "\n    Preview: " + preview)
  }

  /** The summary line for one conversation. */
  function ConversationLine(conv: Record, i: nat): (r: Result<string>)
    ensures r.Ok? <==> Preview(Notes(conv)).Ok?
  {
    var topic := FieldOr(conv, "topic", FieldOr(conv, "subject", VStr("No topic")));
    var date := FieldOr(conv, "date", VStr("unknown date"));
    match Preview(Notes(conv))
    case Raised(message) => Raised(message)
    case Ok(notes) => Ok("  - [" + Show(date) + "] Topic: " + Show(topic) + "\n    Notes: " + notes)
  }

  const NoEmailsLine: string := "No past emails found for this company."
  const NoConversationsLine: string := "\nNo past meetings/conversations found for this company."

  function EmailsHeader(n: nat): string
  {
    "Found " + NatToString(n) + " past email(s):"
  }

  function ConversationsHeader(n: nat): string
  {
    "\nFound " + NatToString(n) + " past meeting(s)/conversation(s):"
  }

  /** The summary's lines: a header and up to five lines per kind of record,
      or one "nothing found" line for a kind without records. */
  function SummaryLines(emails: seq<Record>, conversations: seq<Record>): Result<seq<string>>
  {
    Then(EmailLines(emails), ConversationLines(conversations))
  }

  function EmailLines(emails: seq<Record>): Result<seq<string>>
  {
    if emails == [] then Ok([NoEmailsLine])
    else Then(Ok([EmailsHeader(|emails|)]), Collect(Prefix(emails, 5), EmailLine))
  }

  function ConversationLines(conversations: seq<Record>): Result<seq<string>>
  {
    if conversations == [] then Ok([NoConversationsLine])
    else Then(Ok([ConversationsHeader(|conversations|)]), Collect(Prefix(conversations, 5), ConversationLine))
  }

  /** `'\n'.join(summary_parts)`. */
  function Summary(emails: seq<Record>, conversations: seq<Record>): Result<string>
  {
    match SummaryLines(emails, conversations)
    case Raised(message) => Raised(message)
    case Ok(lines) => Ok(Join("\n", lines))
  }

  /** The summary raises exactly when one of the five most recent emails or
      conversations has a text that cannot be sliced; records after the
      fifth are never previewed. */
  lemma SummaryLinesRaise(emails: seq<Record>, conversations: seq<Record>)
    ensures SummaryLines(emails, conversations).Ok? <==>
      (forall em :: em in Prefix(emails, 5) ==> Preview(Body(em)).Ok?) &&
      (forall conv :: conv in Prefix(conversations, 5) ==> Preview(Notes(conv)).Ok?)
  {
    EmailLinesRaise(emails);
    ConversationLinesRaise(conversations);
  }

  lemma EmailLinesRaise(emails: seq<Record>)
    ensures EmailLines(emails).Ok? <==> forall em :: em in Prefix(emails, 5) ==> Preview(Body(em)).Ok?
  {
    var recent := Prefix(emails, 5);
    CollectOk(recent, EmailLine);
    assert (forall i :: 0 <= i < |recent| ==> EmailLine(recent[i], i).Ok?) <==>
           (forall em :: em in recent ==> Preview(Body(em)).Ok?);
  }

  lemma ConversationLinesRaise(conversations: seq<Record>)
    ensures ConversationLines(conversations).Ok? <==>
      forall conv :: conv in Prefix(conversations, 5) ==> Preview(Notes(conv)).Ok?
  {
    var recent := Prefix(conversations, 5);
    CollectOk(recent, ConversationLine);
    assert (forall i :: 0 <= i < |recent| ==> ConversationLine(recent[i], i).Ok?) <==>
           (forall conv :: conv in recent ==> Preview(Notes(conv)).Ok?);
  }

  /** The summary never lists more than five records of each kind. */
  lemma SummaryLinesCount(emails: seq<Record>, conversations: seq<Record>)
    requires SummaryLines(emails, conversations).Ok?
    ensures |SummaryLines(emails, conversations).value| ==
      (if emails == [] then 1 else 1 + (if |emails| < 5 then |emails| else 5)) +
      (if conversations == [] then 1 else 1 + (if |conversations| < 5 then |conversations| else 5))
    ensures |SummaryLines(emails, conversations).value| <= 12
  {
    CollectOk(Prefix(emails, 5), EmailLine);
    CollectOk(Prefix(conversations, 5), ConversationLine);
  }

  /** `get_company_context`: both searches, the latest contact date and the
      summary, in that order; the first of them to raise ends it. */
  function ContextOf(emailRecords: seq<Value>, conversationRecords: seq<Value>, company: string): Result<CompanyContext>
  {
    match SearchRecords(emailRecords, company)
    case Raised(message) => Raised(message)
    case Ok(emails) =>
      match SearchRecords(conversationRecords, company)
      case Raised(message) => Raised(message)
      case Ok(conversations) =>
        match LatestDate(ContactDates(emails + conversations))
        case Raised(message) => Raised(message)
        case Ok(lastContact) =>
          match Summary(emails, conversations)
          case Raised(message) => Raised(message)
          case Ok(summary) =>
            Ok(CompanyContext(company, emails, conversations, |emails| + |conversations|, lastContact, summary))
  }

  /** The latest contact of some records: `None` exactly when no record has
      a truthy date, otherwise the date of a record, no earlier than any
      record's date. */
  lemma LatestOfRecords(all: seq<Record>)
    requires LatestDate(ContactDates(all)).Ok?
    ensures var last := LatestDate(ContactDates(all)).value;
      (last.None? <==> forall x :: x in all ==> !Dated(x)) &&
      (last.Some? ==>
        (exists x :: x in all && Dated(x) && DateOf(x).value == last.value) &&
        forall x :: x in all && Dated(x) ==> KeyLe(SortKey(DateOf(x).value), SortKey(last.value)))
  {
    ContactDatesMembers(all);
  }

  /** A context raises exactly when a search, the date sort or the summary
      raises. */
  lemma ContextRaises(emailRecords: seq<Value>, conversationRecords: seq<Value>, company: string)
    ensures ContextOf(emailRecords, conversationRecords, company).Ok? <==>
      var emails := SearchRecords(emailRecords, company);
      var conversations := SearchRecords(conversationRecords, company);
      emails.Ok? && conversations.Ok? &&
      Orderable(ContactDates(emails.value + conversations.value)) &&
      SummaryLines(emails.value, conversations.value).Ok?
  {
  }

  /** What a context holds: the two searches, their combined length and
      the summary. */
  lemma ContextFields(emailRecords: seq<Value>, conversationRecords: seq<Value>, company: string)
    requires ContextOf(emailRecords, conversationRecords, company).Ok?
    ensures var ctx := ContextOf(emailRecords, conversationRecords, company).value;
      ctx.company == company &&
      ctx.emails == SearchRecords(emailRecords, company).value &&
      ctx.conversations == SearchRecords(conversationRecords, company).value &&
      ctx.totalInteractions == |ctx.emails| + |ctx.conversations| &&
      ctx.summary == Join("\n", SummaryLines(ctx.emails, ctx.conversations).value)
  {
  }

  /** A context's last contact: the greatest truthy date of a found record,
      `None` when no found record is dated. */
  lemma ContextLastContact(emailRecords: seq<Value>, conversationRecords: seq<Value>, company: string)
    requires ContextOf(emailRecords, conversationRecords, company).Ok?
    ensures var ctx := ContextOf(emailRecords, conversationRecords, company).value;
      (ctx.lastContact.None? <==> forall x :: x in ctx.emails + ctx.conversations ==> !Dated(x)) &&
      (ctx.lastContact.Some? ==>
        (exists x :: x in ctx.emails + ctx.conversations && Dated(x) && DateOf(x).value == ctx.lastContact.value) &&
        forall x :: x in ctx.emails + ctx.conversations && Dated(x) ==>
          KeyLe(SortKey(DateOf(x).value), SortKey(ctx.lastContact.value)))
  {
    var ctx := ContextOf(emailRecords, conversationRecords, company).value;
    ContextFields(emailRecords, conversationRecords, company);
    LatestOfRecords(ctx.emails + ctx.conversations);
  }

  class MemoryStore {
    /** The records of the email cache file. */
    var emails: seq<Value>
    /** The records of the conversation history file. */
    var conversations: seq<Value>

    constructor (emails: seq<Value>, conversations: seq<Value>)
      ensures this.emails == emails && this.conversations == conversations
    {
      this.emails := emails;
      this.conversations := conversations;
    }

    /** `search_emails`. */
    function SearchEmails(company: string): (r: Result<seq<Record>>)
      reads this
      ensures r.Ok? <==> AllObjects(emails) && Orderable(Map(Matching(emails, company), DateValue))
      ensures r.Raised? ==> r.message == if AllObjects(emails) then TypeErrorMessage else AttributeErrorMessage
      ensures r.Ok? ==> multiset(r.value) == multiset(Matching(emails, company))
      ensures r.Ok? ==> SortedDesc(r.value, DateKey)
    {
      SearchRecords(emails, company)
    }

    /** `search_conversations`. */
    function SearchConversations(company: string): (r: Result<seq<Record>>)
      reads this
      ensures r.Ok? <==> AllObjects(conversations) && Orderable(Map(Matching(conversations, company), DateValue))
      ensures r.Raised? ==> r.message == if AllObjects(conversations) then TypeErrorMessage else AttributeErrorMessage
      ensures r.Ok? ==> multiset(r.value) == multiset(Matching(conversations, company))
      ensures r.Ok? ==> SortedDesc(r.value, DateKey)
    {
      SearchRecords(conversations, company)
    }

    /** `get_company_context`. */
    method GetCompanyContext(company: string) returns (r: Result<CompanyContext>)
      ensures r == ContextOf(emails, conversations, company)
    {
      var found := SearchEmails(company);
      if found.Raised? {
        return Raised(found.message);
      }
      var foundConversations := SearchConversations(company);
      if foundConversations.Raised? {
        return Raised(foundConversations.message);
      }
      var lastContact := LatestContact(found.value + foundConversations.value);
      if lastContact.Raised? {
        return Raised(lastContact.message);
      }
      var summary := Summarize(found.value, foundConversations.value);
      if summary.Raised? {
        return Raised(summary.message);
      }
      r := Ok(CompanyContext(company, found.value, foundConversations.value,
                             |found.value| + |foundConversations.value|, lastContact.value, summary.value));
    }

    /** The first of the records' truthy dates once sorted newest first. */
    static method LatestContact(all: seq<Record>) returns (r: Result<Option<Value>>)
      ensures r == LatestDate(ContactDates(all))
      ensures r.Ok? <==> Orderable(ContactDates(all))
      ensures r.Ok? ==> (r.value.None? <==> forall x :: x in all ==> !Dated(x))
    {
      var dates := CollectDates(all);
      ContactDatesMembers(all);
      if !Orderable(dates) {
        return Raised(TypeErrorMessage);
      }
      var sorted := SortDesc(dates, SortKey);
      if |sorted| > 0 {
        r := Ok(Some(sorted[0]));
      } else {
        r := Ok(None);
        assert forall x :: x in all && Dated(x) ==> DateOf(x).value in dates;
      }
    }

    /** The loop gathering every truthy date, in record order. */
    static method CollectDates(all: seq<Record>) returns (dates: seq<Value>)
      ensures dates == ContactDates(all)
    {
      dates := [];
      for i := 0 to |all|
        invariant dates == ContactDates(all[..i])
      {
        assert all[..i + 1][..i] == all[..i];
        if Dated(all[i]) {
          dates := dates + [DateOf(all[i]).value];
        }
      }
      assert all[..|all|] == all;
    }

    /** The summary text: the summary lines joined by newlines. */
    static method Summarize(emails: seq<Record>, conversations: seq<Record>) returns (summary: Result<string>)
      ensures summary == Summary(emails, conversations)
    {
      var emailPart := DescribeEmails(emails);
      if emailPart.Raised? {
        return Raised(emailPart.message);
      }
      var conversationPart := DescribeConversations(conversations);
      if conversationPart.Raised? {
        return Raised(conversationPart.message);
      }
      summary := Ok(Join("\n", emailPart.value + conversationPart.value));
    }

    /** The e-mail half of the summary, previewing at most five e-mails. */
    static method DescribeEmails(emails: seq<Record>) returns (parts: Result<seq<string>>)
      ensures parts == EmailLines(emails)
    {
      if |emails| == 0 {
        return Ok([NoEmailsLine]);
      }
      var recent := Prefix(emails, 5);
      var lines: seq<string> := [];
      for i := 0 to |recent|
        invariant Collect(recent[..i], EmailLine) == Ok(lines)
      {
        assert recent[..i + 1][..i] == recent[..i];
        var line := EmailLine(recent[i], i);
        if line.Raised? {
          CollectStopsAt(recent, i + 1, EmailLine);
          return Raised(line.message);
        }
        lines := lines + [line.value];
      }
      assert recent[..|recent|] == recent;
      parts := Ok([EmailsHeader(|emails|)] + lines);
    }

    /** The conversation half of the summary, previewing at most five. */
    static method DescribeConversations(conversations: seq<Record>) returns (parts: Result<seq<string>>)
      ensures parts == ConversationLines(conversations)
    {
      if |conversations| == 0 {
        return Ok([NoConversationsLine]);
      }
      var recent := Prefix(conversations, 5);
      var lines: seq<string> := [];
      for i := 0 to |recent|
        invariant Collect(recent[..i], ConversationLine) == Ok(lines)
      {
        assert recent[..i + 1][..i] == recent[..i];
        var line := ConversationLine(recent[i], i);
        if line.Raised? {
          CollectStopsAt(recent, i + 1, ConversationLine);
          return Raised(line.message);
        }
        lines := lines + [line.value];
      }
      assert recent[..|recent|] == recent;
      parts := Ok([ConversationsHeader(|conversations|)] + lines);
    }

    /** The record `save_meeting_interaction` appends. */
    static function MeetingRecord(n: nat, company: string, topic: string, notes: string,
                                  briefing: string, today: string, now: string): Record
    {
      [(VStr("id"), VStr("meeting_" + PadLeft(NatToString(n), 3, '0'))),
       (VStr("company"), VStr(company)),
       (VStr("topic"), VStr(topic)),
       (VStr("notes"), VStr(notes)),
       (VStr("briefing_generated"), VStr(Prefix(briefing, 500))),
       (VStr("date"), VStr(today)),
       (VStr("timestamp"), VStr(now))]
    }

    /** `save_meeting_interaction`: appends one meeting record, numbered after
      the records already in the history file; `today` and `now` are the
      two clock readings. */
    method SaveMeetingInteraction(company: string, topic: string, notes: string, briefing: string,
                                  today: string, now: string)
      modifies this
      ensures emails == old(emails)
      ensures conversations == old(conversations)
        + [VDict(MeetingRecord(|old(conversations)| + 1, company, topic, notes, briefing, today, now))]
    {
      conversations := conversations
        + [VDict(MeetingRecord(|conversations| + 1, company, topic, notes, briefing, today, now))];
    }
  }

  /** Appending a record to a history file appends it to the matches when
      it matches. */
  lemma MatchingSnoc(history: seq<Value>, rec: Record, company: string)
    ensures Matching(history + [VDict(rec)], company) ==
      Matching(history, company) + (if Matches(rec, company) then [rec] else [])
  {
    MapSnoc(history, VDict(rec), EntriesOf);
    FilterAppend(Map(history, EntriesOf), [rec], MatchesCompany(company));
  }

  /** A saved meeting matches a search for its company. */
  lemma SavedMeetingMatches(n: nat, company: string, topic: string, notes: string,
                            briefing: string, today: string, now: string)
    ensures Matches(MemoryStore.MeetingRecord(n, company, topic, notes, briefing, today, now), company)
  {
    var rec := MemoryStore.MeetingRecord(n, company, topic, notes, briefing, today, now);
    assert rec[1].1 == VStr(company);
    assert StartsWith(Lower(company), Lower(company));
    assert Mentions(rec[1].1, Lower(company));
  }

  /** A saved meeting is dated by its `date` text. */
  lemma MeetingRecordDate(n: nat, company: string, topic: string, notes: string,
                          briefing: string, today: string, now: string)
    ensures DateValue(MemoryStore.MeetingRecord(n, company, topic, notes, briefing, today, now)) == VStr(today)
  {
    var rec := MemoryStore.MeetingRecord(n, company, topic, notes, briefing, today, now);
    assert forall j :: 0 <= j < 5 ==> |rec[j].0.s| != 4;
    Dicts.LookupAt(rec, 5, VStr("date"), VStr(today));
  }

  /** A saved meeting is found again by a search for its company. */
  lemma SavedMeetingIsFound(n: nat, company: string, topic: string, notes: string,
                            briefing: string, today: string, now: string, history: seq<Value>)
    ensures var rec := MemoryStore.MeetingRecord(n, company, topic, notes, briefing, today, now);
      var found := SearchRecords(history + [VDict(rec)], company);
      found.Ok? ==> rec in found.value
  {
    var rec := MemoryStore.MeetingRecord(n, company, topic, notes, briefing, today, now);
    SavedMeetingMatches(n, company, topic, notes, briefing, today, now);
    MatchingSnoc(history, rec, company);
    var found := SearchRecords(history + [VDict(rec)], company);
    if found.Ok? {
      assert rec in multiset(Matching(history + [VDict(rec)], company));
    }
  }

  /** Saving a meeting does not make a search that succeeded over records
      dated by text start to raise. */
  lemma SavedMeetingKeepsSearch(n: nat, company: string, topic: string, notes: string,
                                briefing: string, today: string, now: string, history: seq<Value>)
    requires SearchRecords(history, company).Ok?
    requires forall x :: x in Matching(history, company) ==> DateValue(x).VStr?
    ensures SearchRecords(history + [VDict(MemoryStore.MeetingRecord(n, company, topic, notes, briefing, today, now))],
                          company).Ok?
  {
    var rec := MemoryStore.MeetingRecord(n, company, topic, notes, briefing, today, now);
    SavedMeetingMatches(n, company, topic, notes, briefing, today, now);
    MeetingRecordDate(n, company, topic, notes, briefing, today, now);
    MatchingSnoc(history, rec, company);
    var matching := Matching(history + [VDict(rec)], company);
    assert forall x :: x in matching ==> DateValue(x).VStr?;
    var dates := Map(matching, DateValue);
    assert forall v :: v in dates ==> v.VStr?;
    assert AllObjects(history + [VDict(rec)]);
  }
}
