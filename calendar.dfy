// The Google Calendar client (`CalendarClient`): calendar events as the API
// returns them, turned into the meeting records of the local history, the
// company a meeting is with, and the two event queries built on the API
// listing (upcoming events for one company, past events newest first).
module Calendar {
  import opened Wrappers
  import opened Seqs
  import opened Text

  /** One attendee of an event: its optional `email` and `displayName`. */
  datatype Attendee = Attendee(email: Option<string>, displayName: Option<string>)

  /** An event as the Calendar API returns it; a field the event lacks is
      `None`, and a missing `attendees` list is empty. */
  datatype Event = Event(
    id: Option<string>,
    summary: Option<string>,
    description: Option<string>,
    attendees: seq<Attendee>,
    startDateTime: Option<string>,
    startDate: Option<string>,
    created: Option<string>)

  /** The meeting record a calendar event becomes (the history schema). */
  datatype Meeting = Meeting(
    id: string,
    company: string,
    topic: string,
    date: string,
    timestamp: string,
    attendees: seq<string>,
    notes: string,
    outcome: string,
    nextSteps: string,
    source: string)

  /** The clock and the date parser: `isoDate` is `isoparse(...)` formatted
      as YYYY-MM-DD, `None` when the text does not parse; `today` and `now`
      are `datetime.now()` as a date and in ISO form. */
  datatype Clock = Clock(isoDate: string -> Option<string>, today: string, now: string)

  /** What one `events().list(...)` request yields: no service (the client
      failed to start), an `HttpError`, or the listed events. */
  datatype Listing = NoService | HttpFailure | Listed(items: seq<Event>)

  const MeetingIdPrefix: string := "meeting_cal_"
  const IdLength := 20
  const NotesLength := 500
  const UntitledMeeting: string := "Untitled Meeting"
  const UnknownCompany: string := "Unknown"
  const ScheduledOutcome: string := "Scheduled - awaiting completion"
  const CompletedOutcome: string := "Completed"
  const CalendarSource: string := "google_calendar"
  const NextStepsPrefix: string := "Prepare for meeting: "
  const UnknownEventId: string := "unknown"

  /** The company keywords, in the order they are tried, each with the
      company name it stands for. */
  const Keywords: seq<(string, string)> := [
    ("techcorp", "TechCorp"),
    ("innovatech", "InnovaTech"),
    ("globalfinance", "GlobalFinance"),
    ("google", "Google"),
    ("microsoft", "Microsoft"),
    ("amazon", "Amazon"),
    ("intel", "Intel")
  ]

  /** The names `_extract_company_from_event` can return. */
  predicate KnownCompany(name: string)
  {
    exists i :: 0 <= i < |Keywords| && Keywords[i].1 == name
  }

  // ---------------------------------------------------------------------
  // The company of an event
  // ---------------------------------------------------------------------

  /** The company of the first keyword (in `keywords`' order) that occurs
      in `text`. */
  function FirstKeyword(text: string, keywords: seq<(string, string)>): (r: Option<string>)
    ensures r.None? <==> forall i :: 0 <= i < |keywords| ==> !Contains(text, keywords[i].0)
    ensures r.Some? ==>
      exists i :: 0 <= i < |keywords| && keywords[i].1 == r.value && Contains(text, keywords[i].0)
  {
    if keywords == [] then None
    else if Contains(text, keywords[0].0) then Some(keywords[0].1)
    else
      var r := FirstKeyword(text, keywords[1..]);
      assert forall i :: 1 <= i < |keywords| ==> keywords[i] == keywords[1..][i - 1];
      r
  }

  /** Earlier keywords take precedence: the company found is the one of the
      first keyword that occurs. */
  lemma {:induction false} FirstKeywordWins(text: string, keywords: seq<(string, string)>, i: nat)
    requires i < |keywords| && Contains(text, keywords[i].0)
    requires forall j :: 0 <= j < i ==> !Contains(text, keywords[j].0)
    ensures FirstKeyword(text, keywords) == Some(keywords[i].1)
  {
    if i > 0 {
      assert forall j :: 0 <= j < i - 1 ==> keywords[1..][j] == keywords[j + 1];
      FirstKeywordWins(text, keywords[1..], i - 1);
    }
  }

  /** The attendee loop: the first attendee whose (lower-cased) email holds
      a keyword decides. */
  function AttendeeCompany(attendees: seq<Attendee>): (r: Option<string>)
    ensures r.None? <==> forall k :: 0 <= k < |attendees| ==>
      FirstKeyword(Lower(attendees[k].email.GetOr("")), Keywords).None?
    ensures r.Some? ==> KnownCompany(r.value)
  {
    if attendees == [] then None
    else
      var own := FirstKeyword(Lower(attendees[0].email.GetOr("")), Keywords);
      if own.Some? then own
      else
        var r := AttendeeCompany(attendees[1..]);
        assert forall k :: 1 <= k < |attendees| ==> attendees[k] == attendees[1..][k - 1];
        r
  }

  /** The text searched first: the lower-cased title, a space, and the
      lower-cased description. */
  function EventText(e: Event): string
  {
    Lower(e.summary.GetOr("")) + " " + Lower(e.description.GetOr(""))
  }

  /** `_extract_company_from_event`. */
  function CompanyOf(e: Event): (r: string)
    ensures KnownCompany(r) || r == UnknownCompany
  {
    match FirstKeyword(EventText(e), Keywords)
    case Some(c) => c
    case None => AttendeeCompany(e.attendees).GetOr(UnknownCompany)
  }

  /** The title and description are searched before the attendees: a
      keyword there decides, whoever attends; only when neither mentions a
      keyword do the attendee emails count. */
  lemma TitleBeforeAttendees(e: Event, others: seq<Attendee>)
    ensures FirstKeyword(EventText(e), Keywords).Some? ==>
      CompanyOf(e) == CompanyOf(e.(attendees := others))
    ensures FirstKeyword(EventText(e), Keywords).None? ==>
      CompanyOf(e) == AttendeeCompany(e.attendees).GetOr(UnknownCompany)
  {
    assert EventText(e) == EventText(e.(attendees := others));
  }

  /** The company is unknown exactly when no keyword occurs in the title,
      the description or any attendee email. */
  lemma UnknownWithoutKeywords(e: Event)
    ensures CompanyOf(e) == UnknownCompany <==>
      (forall i :: 0 <= i < |Keywords| ==> !Contains(EventText(e), Keywords[i].0)) &&
      (forall k :: 0 <= k < |e.attendees| ==>
        FirstKeyword(Lower(e.attendees[k].email.GetOr("")), Keywords).None?)
  {
    if CompanyOf(e) == UnknownCompany {
      assert !KnownCompany(UnknownCompany) by {
        forall i | 0 <= i < |Keywords| ensures Keywords[i].1 != UnknownCompany {
          assert Keywords[i].1[0] != 'U';
        }
      }
    }
  }

  // ---------------------------------------------------------------------
  // Attendees and standardisation
  // ---------------------------------------------------------------------

  /** `attendee.get('displayName') or attendee.get('email', '')`. */
  function NameOf(a: Attendee): string
  {
    if a.displayName.Some? && a.displayName.value != "" then a.displayName.value
    else a.email.GetOr("")
  }

  predicate NonEmpty(s: string)
  {
    s != ""
  }

  /** The attendee names: each attendee's name in attendee order, empty
      names dropped. */
  function AttendeeNames(attendees: seq<Attendee>): (r: seq<string>)
    ensures |r| <= |attendees|
  {
    if attendees == [] then []
    else
      var names := AttendeeNames(attendees[..|attendees| - 1]);
      var name := NameOf(attendees[|attendees| - 1]);
      if name != "" then names + [name] else names
  }

  /** The names are exactly the non-empty names of the attendees. */
  lemma {:induction false} AttendeeNamesMembers(attendees: seq<Attendee>)
    ensures forall x :: x in AttendeeNames(attendees) <==>
      x != "" && exists k :: 0 <= k < |attendees| && NameOf(attendees[k]) == x
  {
    if attendees != [] {
      var n := |attendees| - 1;
      AttendeeNamesMembers(attendees[..n]);
      assert forall k :: 0 <= k < n ==> attendees[..n][k] == attendees[k];
    }
  }

  /** `_extract_attendees`. */
  method ExtractAttendees(e: Event) returns (names: seq<string>)
    ensures names == AttendeeNames(e.attendees)
  {
    names := [];
    for i := 0 to |e.attendees|
      invariant names == AttendeeNames(e.attendees[..i])
    {
      var name := NameOf(e.attendees[i]);
      assert e.attendees[..i + 1][..i] == e.attendees[..i];
      if name != "" {
        names := names + [name];
      }
    }
    assert e.attendees[..|e.attendees|] == e.attendees;
  }

  /** The start of an event: `dateTime`, or else `date`, or else empty. */
  function StartText(e: Event): string
  {
    if e.startDateTime.Some? && e.startDateTime.value != "" then e.startDateTime.value
    else e.startDate.GetOr("")
  }

  /** `_parse_datetime`: the parsed date, or today's date when the text
      does not parse. */
  function DateOf(text: string, clock: Clock): string
  {
    clock.isoDate(text).GetOr(clock.today)
  }

  /** `_standardize_event(event, event_id)`. */
  function Standardized(e: Event, eventId: string, clock: Clock): Meeting
  {
    var summary := e.summary.GetOr(UntitledMeeting);
    var description := e.description.GetOr("");
    Meeting(
      MeetingIdPrefix + Prefix(eventId, IdLength),
      CompanyOf(e),
      summary,
      DateOf(StartText(e), clock),
      e.created.GetOr(clock.now),
      AttendeeNames(e.attendees),
      if description != "" then Prefix(description, NotesLength) else summary,
      ScheduledOutcome,
      NextStepsPrefix + summary,
      CalendarSource)
  }

  /** What a standardised meeting holds: an id made of the fixed prefix and
      at most 20 characters of the event id, the event's title (or a fixed
      one), notes that are the first 500 characters of the description or,
      without one, the title, the attendee names, and the calendar as
      source. */
  lemma StandardizedFields(e: Event, eventId: string, clock: Clock)
    ensures var m := Standardized(e, eventId, clock);
      StartsWith(m.id, MeetingIdPrefix) && |m.id| <= |MeetingIdPrefix| + IdLength &&
      StartsWith(eventId, m.id[|MeetingIdPrefix|..]) &&
      (|eventId| >= IdLength ==> |m.id| == |MeetingIdPrefix| + IdLength) &&
      m.topic == (if e.summary.Some? then e.summary.value else UntitledMeeting) &&
      (e.description.Some? && e.description.value != "" ==>
         |m.notes| <= NotesLength && StartsWith(e.description.value, m.notes) &&
         (|e.description.value| <= NotesLength ==> m.notes == e.description.value)) &&
      (e.description.None? || e.description.value == "" ==> m.notes == m.topic) &&
      (KnownCompany(m.company) || m.company == UnknownCompany) &&
      |m.attendees| <= |e.attendees| &&
      m.outcome == ScheduledOutcome && m.source == CalendarSource
  {
    var m := Standardized(e, eventId, clock);
    assert m.id[..|MeetingIdPrefix|] == MeetingIdPrefix;
    assert m.id[|MeetingIdPrefix|..] == Prefix(eventId, IdLength);
  }

  // ---------------------------------------------------------------------
  // The event queries
  // ---------------------------------------------------------------------

  /** One listed event standardised, keyed by its id (`'unknown'` without one). */
  function StandardizedItem(item: Event, clock: Clock): Meeting
  {
    Standardized(item, item.id.GetOr(UnknownEventId), clock)
  }

  /** `fetch_events`: every listed event, standardised, in listing order;
      nothing without a service or on an API error. */
  function Fetched(listing: Listing, clock: Clock): (r: seq<Meeting>)
    ensures listing.Listed? ==> |r| == |listing.items|
    ensures listing.Listed? ==> forall i :: 0 <= i < |r| ==> r[i] == StandardizedItem(listing.items[i], clock)
    ensures !listing.Listed? ==> r == []
  {
    if listing.Listed? then Map(listing.items, item => StandardizedItem(item, clock)) else []
  }

  /** Some name in `names` holds `companyLower` once lower-cased. */
  predicate AnyMentions(names: seq<string>, companyLower: string)
  {
    names != [] && (Contains(Lower(names[0]), companyLower) || AnyMentions(names[1..], companyLower))
  }

  /** The company filter of `fetch_events_for_company`: the lower-cased
      company name occurs in the topic, the notes or an attendee name, all
      lower-cased. */
  predicate MentionsCompany(m: Meeting, companyLower: string)
  {
    Contains(Lower(m.topic), companyLower) || Contains(Lower(m.notes), companyLower) ||
    AnyMentions(m.attendees, companyLower)
  }

  function CompanyFilter(companyLower: string): Meeting -> bool
  {
    m => MentionsCompany(m, companyLower)
  }

  /** `fetch_events_for_company(company, days_ahead, max_results)`: it lists
      twice `max_results` events (`list` gives the listing for a requested
      count), keeps those that mention the company and returns at most
      `max_results` of them, in listing order. */
  function EventsForCompany(company: string, list: int -> Listing, maxResults: int, clock: Clock): (r: seq<Meeting>)
    ensures var all := Fetched(list(maxResults * 2), clock);
      var matching := Filter(all, CompanyFilter(Lower(company)));
      (forall m :: m in r ==> m in all && MentionsCompany(m, Lower(company))) &&
      |r| == SliceBound(|matching|, maxResults) && r == matching[..|r|]
  {
    var all := Fetched(list(maxResults * 2), clock);
    Prefix(Filter(all, CompanyFilter(Lower(company))), maxResults)
  }

  /** No mentioning event is dropped while the matches fit under the cap. */
  lemma CompanyEventsKept(company: string, list: int -> Listing, maxResults: int, clock: Clock, m: Meeting)
    requires var all := Fetched(list(maxResults * 2), clock);
      m in all && MentionsCompany(m, Lower(company)) &&
      |Filter(all, CompanyFilter(Lower(company)))| <= maxResults
    ensures m in EventsForCompany(company, list, maxResults, clock)
  {
  }

  /** A past event: standardised, with its outcome marked completed. */
  function Completed(item: Event, clock: Clock): Meeting
  {
    StandardizedItem(item, clock).(outcome := CompletedOutcome)
  }

  /** The sort key of `fetch_past_events`: the date, as text. */
  function MeetingDate(m: Meeting): Key
  {
    TextKey(m.date)
  }

  /** `fetch_past_events`: every listed event, completed, newest date first. */
  function PastEvents(listing: Listing, clock: Clock): (r: seq<Meeting>)
    ensures !listing.Listed? ==> r == []
    ensures listing.Listed? ==>
      multiset(r) == multiset(Map(listing.items, item => Completed(item, clock)))
    ensures SortedDesc(r, MeetingDate)
    ensures forall m :: m in r ==> m.outcome == CompletedOutcome
  {
    if listing.Listed? then
      var events := Map(listing.items, item => Completed(item, clock));
      var r := SortDesc(events, MeetingDate);
      SortDescMembers(events, MeetingDate);
      r
    else []
  }

  /** The Calendar client: `listing` stands for the API behind `service`. */
  class CalendarClient {
    const clock: Clock

    constructor (clock: Clock)
      ensures this.clock == clock
    {
      this.clock := clock;
    }

    /** `fetch_events` over the listing of the coming window. */
    method FetchEvents(listing: Listing) returns (r: seq<Meeting>)
      ensures r == Fetched(listing, clock)
    {
      if !listing.Listed? {
        return [];
      }
      var events: seq<Meeting> := [];
      for i := 0 to |listing.items|
        invariant events == Map(listing.items[..i], item => StandardizedItem(item, clock))
      {
        MapPrefix(listing.items, i, item => StandardizedItem(item, clock));
        events := events + [StandardizedItem(listing.items[i], clock)];
      }
      assert listing.items[..|listing.items|] == listing.items;
      r := events;
    }

    /** `fetch_events_for_company`: `list` gives the listing for a requested
        count. */
    method FetchEventsForCompany(company: string, list: int -> Listing, maxResults: int) returns (r: seq<Meeting>)
      ensures r == EventsForCompany(company, list, maxResults, clock)
    {
      var all := FetchEvents(list(maxResults * 2));
      r := Prefix(Filter(all, CompanyFilter(Lower(company))), maxResults);
    }

    /** `fetch_past_events` over the listing of the past window. */
    method FetchPastEvents(listing: Listing) returns (r: seq<Meeting>)
      ensures r == PastEvents(listing, clock)
    {
      if !listing.Listed? {
        return [];
      }
      var events: seq<Meeting> := [];
      for i := 0 to |listing.items|
        invariant events == Map(listing.items[..i], item => Completed(item, clock))
      {
        var standardized := StandardizedItem(listing.items[i], clock);
        standardized := standardized.(outcome := CompletedOutcome);
        MapPrefix(listing.items, i, item => Completed(item, clock));
        events := events + [standardized];
      }
      assert listing.items[..|listing.items|] == listing.items;
      r := SortDesc(events, MeetingDate);
    }
  }
}
