// The Gmail client (`GmailClient`): messages as the Gmail API returns them,
// turned into the email records of the local cache (headers, readable body,
// the sender's company), and the inbox queries built on the API listing.
module Gmail {
  import opened Wrappers
  import opened Seqs
  import opened Text

  /** One message header. */
  datatype Header = Header(name: string, value: string)

  /** One part of a multipart message; `data` is its encoded content, when
      the part has a `data` key. */
  datatype Part = Part(mimeType: string, data: Option<string>)

  /** A message payload: its headers, its parts when it is a multipart
      message (`'parts' in payload`), and its own `data` otherwise. */
  datatype Payload = Payload(headers: seq<Header>, parts: Option<seq<Part>>, data: Option<string>)

  /** A full message (`format='full'`). */
  datatype Message = Message(payload: Payload, internalDate: Option<string>)

  /** What `messages().list(...)` yields: no service (the client failed to
      start), an `HttpError`, or the ids of the listed messages. */
  datatype Listing = NoService | HttpFailure | Listed(ids: seq<string>)

  /** The API and the library calls the client depends on:
      - `list(query, maxResults)` is the message listing;
      - `get(id)` is the full message, `None` on an `HttpError`;
      - `decode(data)` is the URL-safe base64 decoding as UTF-8 text, `None`
        when decoding fails;
      - `dateOf(internalDate)` is the date (YYYY-MM-DD) of a millisecond
        timestamp, `None` when it does not convert, and `today` the current
        date. */
  datatype GmailApi = GmailApi(
    list: (string, int) -> Listing,
    get: string -> Option<Message>,
    decode: string -> Option<string>,
    dateOf: string -> Option<string>,
    today: string)

  /** The email record a message becomes (the cache schema). */
  datatype Email = Email(
    id: string,
    sender: string,
    recipient: string,
    subject: string,
    date: string,
    timestamp: string,
    body: string,
    company: string,
    source: string)

  const PlainText: string := "text/plain"
  const HtmlText: string := "text/html"
  const BodyLength := 1000
  const EmailIdPrefix: string := "email_gmail_"
  const IdLength := 20
  const GmailSource: string := "gmail"
  const UnknownCompany: string := "Unknown"
  const NoTimestamp: string := "0"
  const InboxQuery: string := "is:inbox"
  const UnreadQuery: string := "is:unread is:inbox"

  // ---------------------------------------------------------------------
  // Headers
  // ---------------------------------------------------------------------

  /** The value of the first header called `name`, or empty. */
  function HeaderValue(headers: seq<Header>, name: string): string
  {
    if headers == [] then ""
    else if headers[0].name == name then headers[0].value
    else HeaderValue(headers[1..], name)
  }

  /** The first header with the name decides; without one the value is
      empty. */
  lemma {:induction false} HeaderValueFirst(headers: seq<Header>, name: string)
    ensures (forall i :: 0 <= i < |headers| ==> headers[i].name != name) ==> HeaderValue(headers, name) == ""
    ensures forall i :: 0 <= i < |headers| && headers[i].name == name ==>
      (forall j :: 0 <= j < i ==> headers[j].name != name) ==> HeaderValue(headers, name) == headers[i].value
  {
    if headers != [] {
      HeaderValueFirst(headers[1..], name);
      assert forall i :: 1 <= i < |headers| ==> headers[1..][i - 1] == headers[i];
    }
  }

  // ---------------------------------------------------------------------
  // The body
  // ---------------------------------------------------------------------

  /** `_decode_message_part`: the decoded `data`, or empty when there is
      none or it does not decode. */
  function Decoded(data: Option<string>, decode: string -> Option<string>): string
  {
    if data.Some? then decode(data.value).GetOr("") else ""
  }

  /** The first part of the given type. */
  function FirstOfType(parts: seq<Part>, mimeType: string): (r: Option<Part>)
    ensures r.None? <==> forall i :: 0 <= i < |parts| ==> parts[i].mimeType != mimeType
    ensures r.Some? ==> r.value in parts && r.value.mimeType == mimeType
  {
    if parts == [] then None
    else if parts[0].mimeType == mimeType then Some(parts[0])
    else
      var r := FirstOfType(parts[1..], mimeType);
      assert forall i :: 1 <= i < |parts| ==> parts[1..][i - 1] == parts[i];
      r
  }

  /** The decoded text of the first part of the given type, or empty. */
  function PartText(parts: seq<Part>, mimeType: string, decode: string -> Option<string>): string
  {
    match FirstOfType(parts, mimeType)
    case Some(p) => Decoded(p.data, decode)
    case None => ""
  }

  /** The body before stripping: the first plain-text part, or when that
      gives nothing the first HTML part; a message without parts is decoded
      whole. */
  function RawBody(m: Message, decode: string -> Option<string>): string
  {
    match m.payload.parts
    case Some(parts) =>
      var plain := PartText(parts, PlainText, decode);
      if plain != "" then plain else PartText(parts, HtmlText, decode)
    case None => Decoded(m.payload.data, decode)
  }

  /** `_extract_body`: the raw body stripped, then cut to 1000 characters.
      The cut may leave whitespace at the end; the start is never blank. */
  function BodyOf(m: Message, decode: string -> Option<string>): (r: string)
    ensures |r| <= BodyLength
    ensures StartsWith(Strip(RawBody(m, decode)), r)
    ensures r == [] || !IsSpace(r[0])
    ensures |Strip(RawBody(m, decode))| <= BodyLength ==> r == Strip(RawBody(m, decode))
  {
    Prefix(Strip(RawBody(m, decode)), BodyLength)
  }

  /** A plain-text part that decodes to something wins over any HTML part;
      only an empty or missing plain-text part lets the HTML part in. */
  lemma PlainBeforeHtml(m: Message, decode: string -> Option<string>, others: seq<Part>)
    requires m.payload.parts.Some?
    ensures PartText(m.payload.parts.value, PlainText, decode) != "" ==>
      RawBody(m, decode) == PartText(m.payload.parts.value, PlainText, decode)
    ensures PartText(m.payload.parts.value, PlainText, decode) == "" ==>
      RawBody(m, decode) == PartText(m.payload.parts.value, HtmlText, decode)
    ensures (forall i :: 0 <= i < |m.payload.parts.value| ==>
               m.payload.parts.value[i].mimeType != PlainText && m.payload.parts.value[i].mimeType != HtmlText) ==>
      RawBody(m, decode) == ""
  {
  }

  // ---------------------------------------------------------------------
  // The sender's company
  // ---------------------------------------------------------------------

  /** The first piece of `s.split(c)`: everything before the first `c`. */
  lemma {:induction false} SplitHead(s: string, c: char)
    ensures var h := Split(s, [c])[0];
      c !in h && StartsWith(s, h) && (|h| < |s| ==> s[|h|] == c) && (c !in s ==> h == s)
    ensures c in s ==> |Split(s, [c])| >= 2 && Split(s, [c])[1] == Split(s[|Split(s, [c])[0]| + 1..], [c])[0]
    decreases |s|
  {
    var k := IndexOf(s, [c]);
    if k < 0 {
      if c in s {
        var i :| 0 <= i < |s| && s[i] == c;
        ContainsAt(s, [c], i);
      }
    } else {
      IndexOfChar(s, c);
    }
  }

  /** `p` occurs in `s` at position `i`. */
  lemma {:induction false} ContainsAt(s: string, p: string, i: nat)
    requires i + |p| <= |s| && s[i..i + |p|] == p
    ensures Contains(s, p)
    decreases i
  {
    if i > 0 {
      assert s[1..][i - 1..i - 1 + |p|] == p;
      ContainsAt(s[1..], p, i - 1);
    }
  }

  /** `s.find(c)` for one character is its first occurrence. */
  lemma {:induction false} IndexOfChar(s: string, c: char)
    requires IndexOf(s, [c]) >= 0
    ensures s[IndexOf(s, [c])] == c && forall i :: 0 <= i < IndexOf(s, [c]) ==> s[i] != c
    decreases |s|
  {
    var k := IndexOf(s, [c]);
    assert s[k..k + 1] == [c];
    if !StartsWith(s, [c]) {
      IndexOfChar(s[1..], c);
      assert forall i :: 1 <= i < k ==> s[i] == s[1..][i - 1];
    }
  }

  /** The domain label of an address: `email.split('@')[1].split('.')[0]`,
      `None` where Python raises `IndexError` (no `@`). */
  function DomainLabel(email: string): (r: Option<string>)
    ensures r.None? <==> '@' !in email
  {
    if '@' !in email then None
    else
      SplitHead(email, '@');
      Some(Split(Split(email, "@")[1], ".")[0])
  }

  /** The label taken from the text after the `@`: up to the next `.` or
      `@`, or the whole text. */
  lemma LabelSpan(after: string)
    ensures var domain := Split(Split(after, "@")[0], ".")[0];
      '.' !in domain && '@' !in domain && StartsWith(after, domain) &&
      (|domain| < |after| ==> after[|domain|] in {'.', '@'})
  {
    var piece := Split(after, "@")[0];
    SplitHead(after, '@');
    SplitHead(piece, '.');
    var domain := Split(piece, ".")[0];
    assert domain == piece[..|domain|];
    assert piece == after[..|piece|];
    assert domain == after[..|domain|];
    assert '@' !in domain by {
      forall t | 0 <= t < |domain| ensures domain[t] != '@' {
        assert domain[t] == piece[t];
        assert piece[t] in piece;
      }
    }
    if |domain| < |after| {
      if |domain| < |piece| {
        assert piece[|domain|] == '.';
      } else {
        assert after[|piece|] == '@';
      }
    }
  }

  /** The domain label is what follows the first `@`, up to the next `.` or `@`
      or the end of the address. */
  lemma DomainLabelSpan(email: string)
    requires '@' in email
    ensures var domain := DomainLabel(email).value;
      var k := |Split(email, "@")[0]|;
      k < |email| && email[k] == '@' && '@' !in email[..k] &&
      '.' !in domain && '@' !in domain && StartsWith(email[k + 1..], domain) &&
      (k + 1 + |domain| < |email| ==> email[k + 1 + |domain|] in {'.', '@'})
  {
    SplitHead(email, '@');
    var k := |Split(email, "@")[0]|;
    assert email[..k] == Split(email, "@")[0];
    var after := email[k + 1..];
    LabelSpan(after);
    var domain := DomainLabel(email).value;
    assert domain == Split(Split(after, "@")[0], ".")[0];
    if k + 1 + |domain| < |email| {
      assert after[|domain|] == email[k + 1 + |domain|];
    }
  }

  /** `_extract_company_from_email`: the domain label capitalised (first
      letter upper case, the rest lower case), or `'Unknown'` for an address
      without `@`. */
  function CompanyOf(email: string): (r: string)
    ensures '@' !in email ==> r == UnknownCompany
    ensures '@' in email ==> r == Capitalize(DomainLabel(email).value) && |r| == |DomainLabel(email).value|
  {
    match DomainLabel(email)
    case Some(domain) => Capitalize(domain)
    case None => UnknownCompany
  }

  // ---------------------------------------------------------------------
  // Standardisation
  // ---------------------------------------------------------------------

  /** `_standardize_message(message, message_id)`. */
  function Standardized(m: Message, messageId: string, api: GmailApi): Email
  {
    var headers := m.payload.headers;
    var sender := HeaderValue(headers, "From");
    var timestamp := m.internalDate.GetOr(NoTimestamp);
    Email(
      EmailIdPrefix + Prefix(messageId, IdLength),
      sender,
      HeaderValue(headers, "To"),
      HeaderValue(headers, "Subject"),
      api.dateOf(timestamp).GetOr(api.today),
      timestamp,
      BodyOf(m, api.decode),
      CompanyOf(sender),
      GmailSource)
  }

  /** A standardised email: an id made of the fixed prefix and at most 20
      characters of the message id, the sender's company derived from the
      From header, a body of at most 1000 characters, and Gmail as source. */
  lemma StandardizedFields(m: Message, messageId: string, api: GmailApi)
    ensures var e := Standardized(m, messageId, api);
      StartsWith(e.id, EmailIdPrefix) && |e.id| <= |EmailIdPrefix| + IdLength &&
      StartsWith(messageId, e.id[|EmailIdPrefix|..]) &&
      e.sender == HeaderValue(m.payload.headers, "From") && e.company == CompanyOf(e.sender) &&
      |e.body| <= BodyLength && e.source == GmailSource &&
      (m.internalDate.None? ==> e.timestamp == NoTimestamp)
  {
    var e := Standardized(m, messageId, api);
    assert e.id[..|EmailIdPrefix|] == EmailIdPrefix;
    assert e.id[|EmailIdPrefix|..] == Prefix(messageId, IdLength);
  }

  /** One listed message fetched and standardised; `None` when its fetch
      fails. */
  function FetchOne(api: GmailApi): string -> Option<Email>
  {
    id => match api.get(id)
      case Some(m) => Some(Standardized(m, id, api))
      case None => None
  }

  /** The messages of a listing that could be fetched, in listing order; a
      message whose fetch fails is skipped. */
  function Gathered(ids: seq<string>, fetch: string -> Option<Email>): (r: seq<Email>)
    ensures |r| <= |ids|
  {
    if ids == [] then []
    else
      var earlier := Gathered(ids[..|ids| - 1], fetch);
      match fetch(ids[|ids| - 1])
      case Some(e) => earlier + [e]
      case None => earlier
  }

  /** Every email gathered comes from a listed message whose fetch
      succeeded. */
  lemma {:induction false} GatheredFromListing(ids: seq<string>, fetch: string -> Option<Email>)
    ensures forall e :: e in Gathered(ids, fetch) ==> exists i :: 0 <= i < |ids| && fetch(ids[i]) == Some(e)
  {
    if ids != [] {
      var n := |ids| - 1;
      GatheredFromListing(ids[..n], fetch);
      assert forall i :: 0 <= i < n ==> ids[..n][i] == ids[i];
    }
  }

  /** When every fetch succeeds there is one email per listed message, in
      listing order. */
  lemma {:induction false} GatheredAll(ids: seq<string>, fetch: string -> Option<Email>)
    requires forall i :: 0 <= i < |ids| ==> fetch(ids[i]).Some?
    ensures |Gathered(ids, fetch)| == |ids|
    ensures forall i :: 0 <= i < |ids| ==> Some(Gathered(ids, fetch)[i]) == fetch(ids[i])
  {
    if ids != [] {
      var n := |ids| - 1;
      assert forall i :: 0 <= i < n ==> ids[..n][i] == ids[i];
      GatheredAll(ids[..n], fetch);
    }
  }

  /** `fetch_emails(query, max_results)`. */
  function Fetched(api: GmailApi, query: string, maxResults: int): seq<Email>
  {
    match api.list(query, maxResults)
    case Listed(ids) => Gathered(ids, FetchOne(api))
    case _ => []
  }

  /** The sort key of `fetch_recent_emails`: the timestamp, as text. */
  function TimestampOf(e: Email): Key
  {
    TextKey(e.timestamp)
  }

  /** `fetch_recent_emails`: the inbox, newest timestamp first. The
      timestamps are compared as text, as the source compares them. */
  function Recent(api: GmailApi, maxResults: int): (r: seq<Email>)
    ensures multiset(r) == multiset(Fetched(api, InboxQuery, maxResults))
    ensures SortedDesc(r, TimestampOf)
  {
    SortDesc(Fetched(api, InboxQuery, maxResults), TimestampOf)
  }

  /** The query of `search_emails_by_company`: the lower-cased name as
      sender, recipient or subject. */
  function CompanyQuery(company: string): (r: string)
    ensures Contains(r, Lower(company))
  {
    var c := Lower(company);
    ContainsAt("from:" + c + " OR to:" + c + " OR subject:" + c, c, 5);
    "from:" + c + " OR to:" + c + " OR subject:" + c
  }

  /** The Gmail client over its API. */
  class GmailClient {
    const api: GmailApi

    constructor (api: GmailApi)
      ensures this.api == api
    {
      this.api := api;
    }

    /** `_get_header`. */
    method GetHeader(headers: seq<Header>, name: string) returns (value: string)
      ensures value == HeaderValue(headers, name)
    {
      for i := 0 to |headers|
        invariant HeaderValue(headers, name) == HeaderValue(headers[i..], name)
      {
        assert headers[i..][1..] == headers[i + 1..];
        if headers[i].name == name {
          return headers[i].value;
        }
      }
      return "";
    }

    /** The search loop of `_extract_body` for one type: the decoded text
      of the first part of that type (empty without one). */
    method FindPart(parts: seq<Part>, mimeType: string) returns (body: string)
      ensures body == PartText(parts, mimeType, api.decode)
    {
      body := "";
      for i := 0 to |parts|
        invariant FirstOfType(parts, mimeType) == FirstOfType(parts[i..], mimeType)
      {
        assert parts[i..][1..] == parts[i + 1..];
        if parts[i].mimeType == mimeType {
          body := Decoded(parts[i].data, api.decode);
          break;
        }
      }
    }

    /** `_extract_body`. */
    method ExtractBody(m: Message) returns (body: string)
      ensures body == BodyOf(m, api.decode)
    {
      if m.payload.parts.Some? {
        body := FindPart(m.payload.parts.value, PlainText);
        if body == "" {
          body := FindPart(m.payload.parts.value, HtmlText);
        }
      } else {
        body := Decoded(m.payload.data, api.decode);
      }
      body := Prefix(Strip(body), BodyLength);
    }

    /** `_standardize_message`. */
    method StandardizeMessage(m: Message, messageId: string) returns (e: Email)
      ensures e == Standardized(m, messageId, api)
    {
      var headers := m.payload.headers;
      var sender := GetHeader(headers, "From");
      var recipient := GetHeader(headers, "To");
      var subject := GetHeader(headers, "Subject");
      var timestamp := m.internalDate.GetOr(NoTimestamp);
      var body := ExtractBody(m);
      e := Email(EmailIdPrefix + Prefix(messageId, IdLength), sender, recipient, subject,
                 api.dateOf(timestamp).GetOr(api.today), timestamp, body, CompanyOf(sender), GmailSource);
    }

    /** `fetch_emails(query, max_results)`. */
    method FetchEmails(query: string, maxResults: int) returns (emails: seq<Email>)
      ensures emails == Fetched(api, query, maxResults)
    {
      var listing := api.list(query, maxResults);
      if !listing.Listed? || listing.ids == [] {
        return [];
      }
      var ids := listing.ids;
      emails := [];
      for i := 0 to |ids|
        invariant emails == Gathered(ids[..i], FetchOne(api))
      {
        assert ids[..i + 1][..i] == ids[..i];
        var message := api.get(ids[i]);
        if message.Some? {
          var standardized := StandardizeMessage(message.value, ids[i]);
          emails := emails + [standardized];
        }
      }
      assert ids[..|ids|] == ids;
    }

    /** `search_emails_by_company`. */
    method SearchByCompany(company: string, maxResults: int) returns (emails: seq<Email>)
      ensures emails == Fetched(api, CompanyQuery(company), maxResults)
    {
      emails := FetchEmails(CompanyQuery(company), maxResults);
    }

    /** `fetch_unread_emails`. */
    method FetchUnread(maxResults: int) returns (emails: seq<Email>)
      ensures emails == Fetched(api, UnreadQuery, maxResults)
    {
      emails := FetchEmails(UnreadQuery, maxResults);
    }

    /** `fetch_recent_emails`. */
    method FetchRecent(maxResults: int) returns (emails: seq<Email>)
      ensures emails == Recent(api, maxResults)
    {
      emails := FetchEmails(InboxQuery, maxResults);
      emails := SortDesc(emails, TimestampOf);
    }
  }
}
