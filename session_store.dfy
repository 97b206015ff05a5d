// Persistent chat sessions (`SessionStore`): one record per session holding
// every interaction (query, route, results) in order. The session directory
// is the store's map from session id to session; the clock and the random
// id generator are parameters.
module Sessions {
  import opened Wrappers
  import opened Seqs
  import opened Text
  import opened Values

  datatype Interaction = Interaction(
    id: nat,
    timestamp: string,
    userQuery: string,
    route: Value,
    results: Value,
    executionTime: Value)

  datatype Session = Session(
    sessionId: string,
    createdAt: string,
    updatedAt: string,
    title: string,
    interactions: seq<Interaction>)

  /** One entry of `list_sessions`. */
  datatype SessionSummary = SessionSummary(
    sessionId: string,
    title: string,
    createdAt: string,
    updatedAt: string,
    interactionCount: nat)

  /** A value JSON can hold as it is: containers are lists and
      dictionaries, everything else a string, number, bool or None. */
  predicate JsonReady(v: Value)
  {
    match v
    case VTuple(_) => false
    case VObject(_) => false
    case VList(xs) => forall i :: 0 <= i < |xs| ==> JsonReady(xs[i])
    case VDict(es) => forall i :: 0 <= i < |es| ==> JsonReady(es[i].1)
    case _ => true
  }

  /** `_sanitize`: tuples become lists and any other object its `str()`,
      recursively through dictionary values and list items. Keys stay. */
  function Sanitize(v: Value): (r: Value)
    ensures v.VDict? ==>
              r.VDict? && |r.entries| == |v.entries| &&
              forall i :: 0 <= i < |v.entries| ==> r.entries[i].0 == v.entries[i].0
    ensures v.VList? ==> r.VList? && |r.items| == |v.items|
    ensures v.VTuple? ==> r.VList? && |r.items| == |v.items|
    ensures v.VObject? ==> r.VStr?
  {
    match v
    case VDict(es) => VDict(seq(|es|, i requires 0 <= i < |es| => (es[i].0, Sanitize(es[i].1))))
    case VList(xs) => VList(seq(|xs|, i requires 0 <= i < |xs| => Sanitize(xs[i])))
    case VTuple(xs) => VList(seq(|xs|, i requires 0 <= i < |xs| => Sanitize(xs[i])))
    case VObject(r) => VStr(Show(v))
    case _ => v
  }

  /** Whatever it is given, `_sanitize` returns a value JSON can hold. */
  lemma {:induction false} SanitizeIsJsonReady(v: Value)
    ensures JsonReady(Sanitize(v))
  {
    match v
    case VDict(es) =>
      forall i | 0 <= i < |es| ensures JsonReady(Sanitize(es[i].1)) {
        SanitizeIsJsonReady(es[i].1);
      }
    case VList(xs) =>
      forall i | 0 <= i < |xs| ensures JsonReady(Sanitize(xs[i])) {
        SanitizeIsJsonReady(xs[i]);
      }
    case VTuple(xs) =>
      forall i | 0 <= i < |xs| ensures JsonReady(Sanitize(xs[i])) {
        SanitizeIsJsonReady(xs[i]);
      }
    case _ =>
  }

  /** A value JSON can already hold passes through `_sanitize` unchanged. */
  lemma {:induction false} SanitizeKeepsJsonReady(v: Value)
    requires JsonReady(v)
    ensures Sanitize(v) == v
  {
    match v
    case VDict(es) =>
      forall i | 0 <= i < |es| ensures Sanitize(es[i].1) == es[i].1 {
        SanitizeKeepsJsonReady(es[i].1);
      }
      assert Sanitize(v).entries == es;
    case VList(xs) =>
      forall i | 0 <= i < |xs| ensures Sanitize(xs[i]) == xs[i] {
        SanitizeKeepsJsonReady(xs[i]);
      }
      assert Sanitize(v).items == xs;
    case _ =>
  }

  /** Sanitizing twice is the same as sanitizing once. */
  lemma SanitizeIdempotent(v: Value)
    ensures Sanitize(Sanitize(v)) == Sanitize(v)
  {
    SanitizeIsJsonReady(v);
    SanitizeKeepsJsonReady(Sanitize(v));
  }

  /** Interactions numbered 1, 2, ... in the order they were appended. */
  predicate Numbered(ixs: seq<Interaction>)
  {
    forall i :: 0 <= i < |ixs| ==> ixs[i].id == i + 1
  }

  /** The session `append` writes back: the interaction numbered after the
      existing ones is added, `updated_at` is the clock reading, and a title
      that still starts with "Session " becomes the first query's first 80
      characters. */
  function WithInteraction(s: Session, userQuery: string, route: Value, results: Value,
                           executionTime: Value, now: string): Session
  {
    var n := |s.interactions| + 1;
    var ix := Interaction(n, now, userQuery, Sanitize(route), Sanitize(results), executionTime);
    var title := if n == 1 && StartsWith(s.title, "Session ") then Prefix(userQuery, 80) else s.title;
    Session(s.sessionId, s.createdAt, now, title, s.interactions + [ix])
  }

  /** Appending keeps the numbering, adds exactly one interaction at the end,
      stores the route and results sanitized, and only ever retitles a
      session on its first interaction. */
  lemma WithInteractionProperties(s: Session, userQuery: string, route: Value, results: Value,
                                  executionTime: Value, now: string)
    ensures var t := WithInteraction(s, userQuery, route, results, executionTime, now);
      (Numbered(s.interactions) ==> Numbered(t.interactions))
      && |t.interactions| == |s.interactions| + 1
      && t.interactions[..|s.interactions|] == s.interactions
      && JsonReady(t.interactions[|s.interactions|].route)
      && JsonReady(t.interactions[|s.interactions|].results)
      && (s.interactions != [] ==> t.title == s.title)
      && (s.interactions == [] ==>
            t.title == if StartsWith(s.title, "Session ") then Prefix(userQuery, 80) else s.title)
      && |t.title| <= (if s.interactions == [] && StartsWith(s.title, "Session ") then 80 else |s.title|)
      && t.sessionId == s.sessionId && t.createdAt == s.createdAt
  {
    SanitizeIsJsonReady(route);
    SanitizeIsJsonReady(results);
  }

  function SummaryOf(s: Session): SessionSummary
  {
    SessionSummary(s.sessionId, s.title, s.createdAt, s.updatedAt, |s.interactions|)
  }

  /** The sort key of `list_sessions`: `updated_at`, as text. */
  function UpdatedAt(s: SessionSummary): Key
  {
    TextKey(s.updatedAt)
  }

  class SessionStore {
    /** The session files, by session id. */
    var sessions: map<string, Session>

    /** Every session is filed under its own id and numbers its interactions
        from 1. */
    ghost predicate Valid()
      reads this
    {
      forall k :: k in sessions ==> sessions[k].sessionId == k && Numbered(sessions[k].interactions)
    }

    constructor ()
      ensures sessions == map[] && Valid()
    {
      sessions := map[];
    }

    /** `create_session`: the id is the first 12 hex digits of a fresh
        UUID `uuidHex`; an empty title becomes "Session " and the id's first
        six characters. The source reads the clock once for `created_at`
        and once for `updated_at`; one reading `now` stands for both. */
    method CreateSession(title: string, uuidHex: string, now: string) returns (id: string)
      modifies this
      ensures id == Prefix(uuidHex, 12)
      ensures sessions == old(sessions)[id := Session(id, now, now,
        if title != "" then title else "Session " + Prefix(id, 6), [])]
      ensures old(Valid()) ==> Valid()
    {
      id := Prefix(uuidHex, 12);
      var session := Session(id, now, now, if title != "" then title else "Session " + Prefix(id, 6), []);
      sessions := sessions[id := session];
    }

    /** `append`: records one interaction in an existing session and returns
        its 1-based number; an unknown session raises ValueError and
        changes nothing. The interaction's timestamp and the session's
        `updated_at` are separate clock reads in the source; one reading
        `now` stands for both. */
    method Append(sessionId: string, userQuery: string, route: Value, results: Value,
                  executionTime: Value, now: string) returns (r: Result<nat>)
      modifies this
      ensures sessionId !in old(sessions) ==>
        r == Raised("Session " + sessionId + " not found") && sessions == old(sessions)
      ensures sessionId in old(sessions) ==>
        r == Ok(|old(sessions)[sessionId].interactions| + 1) &&
        sessions == old(sessions)[sessionId :=
          WithInteraction(old(sessions)[sessionId], userQuery, route, results, executionTime, now)]
      ensures old(Valid()) ==> Valid()
    {
      if sessionId !in sessions {
        return Raised("Session " + sessionId + " not found");
      }
      var before := sessions[sessionId];
      var session := before;
      var n := |session.interactions| + 1;
      var interaction := Interaction(n, now, userQuery, Sanitize(route), Sanitize(results), executionTime);
      session := session.(interactions := session.interactions + [interaction]);
      session := session.(updatedAt := now);
      if n == 1 && StartsWith(session.title, "Session ") {
        session := session.(title := Prefix(userQuery, 80));
      }
      assert session == WithInteraction(before, userQuery, route, results, executionTime, now);
      WithInteractionProperties(before, userQuery, route, results, executionTime, now);
      sessions := sessions[sessionId := session];
      r := Ok(n);
    }

    /** `get_session`. */
    function GetSession(sessionId: string): (r: Option<Session>)
      reads this
      ensures r.Some? <==> sessionId in sessions
      ensures r.Some? ==> r.value == sessions[sessionId]
    {
      if sessionId in sessions then Some(sessions[sessionId]) else None
    }

    /** `get_interaction`: the first interaction of the session carrying the
        id, `None` for an unknown session or id. In a valid store the
        interaction numbered k is the k-th one. */
    method GetInteraction(sessionId: string, interactionId: int) returns (r: Option<Interaction>)
      ensures sessionId !in sessions ==> r.None?
      ensures sessionId in sessions ==>
        var ixs := sessions[sessionId].interactions;
        (r.None? <==> forall i :: 0 <= i < |ixs| ==> ixs[i].id != interactionId) &&
        (r.Some? ==> exists i :: 0 <= i < |ixs| && ixs[i] == r.value && r.value.id == interactionId
                                 && forall j :: 0 <= j < i ==> ixs[j].id != interactionId)
      ensures Valid() && sessionId in sessions && 1 <= interactionId <= |sessions[sessionId].interactions| ==>
        r == Some(sessions[sessionId].interactions[interactionId - 1])
    {
      if sessionId !in sessions {
        return None;
      }
      var ixs := sessions[sessionId].interactions;
      var i := 0;
      while i < |ixs|
        invariant 0 <= i <= |ixs|
        invariant forall j :: 0 <= j < i ==> ixs[j].id != interactionId
      {
        if ixs[i].id == interactionId {
          return Some(ixs[i]);
        }
        i := i + 1;
      }
      return None;
    }

    /** `list_sessions`: one summary per session file, newest update first,
        at most `limit` of them (Python slice rules): the sort comes before
        the slice, so the summaries left out are none newer than those
        listed. The directory listing order is not specified, so files are
        visited in any order. */
    method ListSessions(limit: int) returns (r: seq<SessionSummary>)
      ensures |r| == SliceBound(|sessions|, limit)
      ensures SortedDesc(r, UpdatedAt)
      ensures forall i :: 0 <= i < |r| ==> exists k :: k in sessions && r[i] == SummaryOf(sessions[k])
      ensures forall k :: k in sessions && SummaryOf(sessions[k]) !in r ==>
        forall i :: 0 <= i < |r| ==> KeyLe(UpdatedAt(SummaryOf(sessions[k])), UpdatedAt(r[i]))
      ensures limit >= |sessions| ==> forall k :: k in sessions ==> SummaryOf(sessions[k]) in r
      ensures Valid() ==> Distinct(r)
    {
      var summaries := CollectSummaries();
      var sorted := SortDesc(summaries, UpdatedAt);
      SortDescMembers(summaries, UpdatedAt);
      r := Prefix(sorted, limit);
      SortedPrefixGreatest(sorted, UpdatedAt, |r|);
      forall i | 0 <= i < |r| ensures exists k :: k in sessions && r[i] == SummaryOf(sessions[k]) {
        assert r[i] in summaries;
      }
      if Valid() {
        PermutationDistinct(summaries, sorted);
      }
    }

    /** The summaries of all sessions, in directory-listing order; each
        stored session is visited once. */
    method CollectSummaries() returns (summaries: seq<SessionSummary>)
      ensures |summaries| == |sessions|
      ensures forall i :: 0 <= i < |summaries| ==>
        exists k :: k in sessions && summaries[i] == SummaryOf(sessions[k])
      ensures forall k :: k in sessions ==> SummaryOf(sessions[k]) in summaries
      ensures Valid() ==> Distinct(summaries)
    {
      summaries := [];
      var remaining := sessions.Keys;
      while remaining != {}
        invariant remaining <= sessions.Keys
        invariant |summaries| + |remaining| == |sessions|
        invariant forall i :: 0 <= i < |summaries| ==>
          exists k :: k in sessions && summaries[i] == SummaryOf(sessions[k])
        invariant forall k :: k in sessions && k !in remaining ==> SummaryOf(sessions[k]) in summaries
        invariant Valid() ==> forall i :: 0 <= i < |summaries| ==> summaries[i].sessionId !in remaining
        invariant Valid() ==> Distinct(summaries)
        decreases |remaining|
      {
        var k :| k in remaining;
        summaries := summaries + [SummaryOf(sessions[k])];
        remaining := remaining - {k};
      }
    }

    /** `delete_session`: removes the session and reports whether it existed. */
    method DeleteSession(sessionId: string) returns (deleted: bool)
      modifies this
      ensures deleted <==> sessionId in old(sessions)
      ensures sessions == old(sessions) - {sessionId}
      ensures old(Valid()) ==> Valid()
    {
      deleted := sessionId in sessions;
      sessions := sessions - {sessionId};
    }
  }
}
