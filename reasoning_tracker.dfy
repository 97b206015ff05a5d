// The decision log of one email-processing session (`ReasoningTracker`):
// an append-only list of named steps, each with its details dictionary,
// summarised by counting steps per name. Clock readings are parameters.
module Tracker {
  import opened Wrappers
  import opened Seqs
  import opened Text
  import opened Values
  import Dicts

  datatype Step = Step(stepName: string, sessionId: Option<string>, timestamp: string, details: Value)

  /** What `get_session_summary` returns; `stepsByType` keeps the order in
      which step names first appeared. */
  datatype TrackerSummary = TrackerSummary(
    sessionId: Option<string>,
    totalSteps: nat,
    timestampStart: Option<string>,
    timestampEnd: Option<string>,
    stepsByType: seq<(string, nat)>)

  /** The anchor `pathlib.PurePosixPath` keeps at the front of a path:
      exactly two leading slashes stay as they are, one or three and more
      become a single slash, and a relative path has none. */
  function PathRoot(p: string): (r: string)
    ensures r == "" <==> !StartsWith(p, "/")
  {
    if StartsWith(p, "//") && !StartsWith(p, "///") then "//"
    else if StartsWith(p, "/") then "/"
    else ""
  }

  /** The pieces of a path worth keeping: all but the empty ones (from
      repeated or trailing slashes) and ".". */
  function Components(pieces: seq<string>): (r: seq<string>)
    ensures |r| <= |pieces|
    ensures forall i :: 0 <= i < |r| ==> r[i] != "" && r[i] != "."
  {
    if pieces == [] then []
    else if pieces[0] == "" || pieces[0] == "." then Components(pieces[1..])
    else [pieces[0]] + Components(pieces[1..])
  }

  /** The components of a path: its pieces between slashes. */
  function PathParts(p: string): seq<string>
  {
    Components(Split(p, "/"))
  }

  /** `str(Path(dir) / name)` for a relative `name`: the root of `dir`
      followed by the components of both, one slash between each; "." when
      nothing is left. */
  function JoinPath(dir: string, name: string): (r: string)
    ensures StartsWith(dir, "/") ==> StartsWith(r, "/")
  {
    var root := PathRoot(dir);
    var parts := PathParts(dir) + PathParts(name);
    if root == "" && parts == [] then "." else root + Join("/", parts)
  }

  /** A file name without a slash is one component. */
  lemma NameIsOnePart(name: string)
    requires name != "" && name != "." && !Contains(name, "/")
    ensures PathParts(name) == [name]
  {
    assert Split(name, "/") == [name];
  }

  /** Joining a one-component name: the directory's root and components,
      then the name. */
  lemma JoinPathOnePart(dir: string, name: string)
    requires PathParts(name) == [name]
    ensures JoinPath(dir, name) == PathRoot(dir) + Join("/", PathParts(dir) + [name])
  {
  }

  /** A file name of one component lands directly under the directory: after its root
      when the directory has no components, after its normalised text and
      one slash otherwise. */
  lemma JoinPathName(dir: string, name: string)
    requires PathParts(name) == [name]
    ensures PathParts(dir) == [] ==> JoinPath(dir, name) == PathRoot(dir) + name
    ensures PathParts(dir) != [] ==>
      JoinPath(dir, name) == PathRoot(dir) + Join("/", PathParts(dir)) + "/" + name
  {
    JoinPathOnePart(dir, name);
    var parts := PathParts(dir);
    if parts == [] {
      assert parts + [name] == [name];
    } else {
      JoinSnoc("/", parts, name);
    }
  }

  /** "data/" splits at its one slash, before an empty last piece. */
  lemma DataDirSplit()
    ensures Split("data/", "/") == ["data", ""]
  {
    assert IndexOf("data/", "/") == 4 by {
      assert "data/"[..1][0] == 'd' && "data/"[1..] == "ata/";
      assert "ata/"[..1][0] == 'a' && "ata/"[1..] == "ta/";
      assert "ta/"[..1][0] == 't' && "ta/"[1..] == "a/";
      assert "a/"[..1][0] == 'a' && "a/"[1..] == "/";
      assert StartsWith("/", "/");
    }
    assert "data/"[..4] == "data" && "data/"[5..] == "";
    assert Split("", "/") == [""];
  }

  /** The components of the directories the program is run with. */
  lemma LogDirParts()
    ensures PathRoot("data/") == "" && PathRoot(".") == "" && PathRoot("") == ""
    ensures PathParts("data/") == ["data"]
    ensures PathParts(".") == []
    ensures PathParts("") == []
  {
    assert "data/"[..1][0] == 'd' && "."[..1][0] == '.';
    DataDirSplit();
    assert ["data", ""][1..] == [""];
    assert Split("", "/") == [""];
    assert IndexOf(".", "/") == -1 by {
      assert "."[..1][0] == '.' && "."[1..] == "";
    }
    assert Split(".", "/") == ["."];
  }

  /** A relative directory of one component `d` puts a plain file name
      after `d` and one slash. */
  lemma UnderOneDir(dir: string, d: string, name: string)
    requires name != "" && name != "." && !Contains(name, "/")
    requires PathRoot(dir) == "" && PathParts(dir) == [d]
    ensures JoinPath(dir, name) == d + "/" + name
  {
    NameIsOnePart(name);
    JoinPathName(dir, name);
  }

  /** A relative directory without components leaves a plain file name
      alone. */
  lemma UnderNoDir(dir: string, name: string)
    requires name != "" && name != "." && !Contains(name, "/")
    requires PathRoot(dir) == "" && PathParts(dir) == []
    ensures JoinPath(dir, name) == name
  {
    NameIsOnePart(name);
    JoinPathName(dir, name);
  }

  /** Under the default log directory "data/" the trailing slash is not
      doubled; under "." or "" the file name stands alone. */
  lemma DefaultLogDirPath(name: string)
    requires name != "" && name != "." && !Contains(name, "/")
    ensures JoinPath("data/", name) == "data/" + name
    ensures JoinPath(".", name) == name
    ensures JoinPath("", name) == name
  {
    LogDirParts();
    UnderOneDir("data/", "data", name);
    UnderNoDir(".", name);
    UnderNoDir("", name);
  }

  function StepNames(log: seq<Step>): (r: seq<string>)
    ensures |r| == |log|
    ensures forall i :: 0 <= i < |log| ==> r[i] == log[i].stepName
  {
    seq(|log|, i requires 0 <= i < |log| => log[i].stepName)
  }

  /** One more step named `n`: its count goes up by one, a new name is
      added last with count 1. */
  function Bump(counts: seq<(string, nat)>, n: string): seq<(string, nat)>
  {
    Dicts.Put<string, nat>(counts, n, Dicts.Lookup<string, nat>(counts, n).GetOr(0) + 1)
  }

  /** The per-name counts the summary loop builds: `acc` with one more step
      for each of `names`, in order. */
  function TallyFrom(acc: seq<(string, nat)>, names: seq<string>): seq<(string, nat)>
    decreases |names|
  {
    if names == [] then acc else TallyFrom(Bump(acc, names[0]), names[1..])
  }

  function Tally(names: seq<string>): seq<(string, nat)>
  {
    TallyFrom([], names)
  }

  function Total(counts: seq<(string, nat)>): nat
  {
    if counts == [] then 0 else counts[0].1 + Total(counts[1..])
  }

  lemma {:induction false} TotalPut(es: seq<(string, nat)>, k: string, v: nat)
    ensures Total(Dicts.Put<string, nat>(es, k, v)) + Dicts.Lookup<string, nat>(es, k).GetOr(0) == Total(es) + v
  {
    if es != [] && es[0].0 != k {
      TotalPut(es[1..], k, v);
    }
  }

  /** How many of `names` are `n`. */
  function Count(names: seq<string>, n: string): nat
  {
    if names == [] then 0 else (if names[0] == n then 1 else 0) + Count(names[1..], n)
  }

  /** `Count` is the multiplicity of `n` in `names`. */
  lemma {:induction false} CountIsMultiplicity(names: seq<string>, n: string)
    ensures Count(names, n) == multiset(names)[n]
  {
    if names != [] {
      CountIsMultiplicity(names[1..], n);
      assert names == [names[0]] + names[1..];
    }
  }

  /** How many times `n` occurs, `None` when it never does. */
  function Occurrences(names: seq<string>, n: string): Option<nat>
  {
    if Count(names, n) == 0 then None else Some(Count(names, n))
  }

  lemma BumpLookup(counts: seq<(string, nat)>, k: string, n: string)
    ensures Dicts.Lookup<string, nat>(Bump(counts, k), n) ==
      if n == k then Some(Dicts.Lookup<string, nat>(counts, k).GetOr(0) + 1) else Dicts.Lookup<string, nat>(counts, n)
  {
    if n != k {
      Dicts.PutOther<string, nat>(counts, k, Dicts.Lookup<string, nat>(counts, k).GetOr(0) + 1, n);
    }
  }

  /** Tallying adds each name's occurrences to the count it started with. */
  lemma {:induction false} TallyFromValue(acc: seq<(string, nat)>, names: seq<string>, n: string)
    ensures Dicts.Lookup<string, nat>(TallyFrom(acc, names), n).GetOr(0) ==
      Dicts.Lookup<string, nat>(acc, n).GetOr(0) + Count(names, n)
    decreases |names|
  {
    if names != [] {
      TallyFromValue(Bump(acc, names[0]), names[1..], n);
      BumpLookup(acc, names[0], n);
    }
  }

  /** A name is absent after tallying only if it was absent before and does
      not occur. */
  lemma {:induction false} TallyFromAbsent(acc: seq<(string, nat)>, names: seq<string>, n: string)
    ensures Dicts.Lookup<string, nat>(TallyFrom(acc, names), n).None? <==>
      Dicts.Lookup<string, nat>(acc, n).None? && Count(names, n) == 0
    decreases |names|
  {
    if names != [] {
      TallyFromAbsent(Bump(acc, names[0]), names[1..], n);
      BumpLookup(acc, names[0], n);
    }
  }

  /** A name's count is the number of steps carrying it; a name that never
      occurs is absent. */
  lemma TallyCount(names: seq<string>, n: string)
    ensures Dicts.Lookup<string, nat>(Tally(names), n) == Occurrences(names, n)
  {
    TallyFromValue([], names, n);
    TallyFromAbsent([], names, n);
  }

  /** Tallying adds one to the total per name. */
  lemma {:induction false} TallyFromTotal(acc: seq<(string, nat)>, names: seq<string>)
    ensures Total(TallyFrom(acc, names)) == Total(acc) + |names|
    decreases |names|
  {
    if names != [] {
      TotalPut(acc, names[0], Dicts.Lookup<string, nat>(acc, names[0]).GetOr(0) + 1);
      TallyFromTotal(Bump(acc, names[0]), names[1..]);
    }
  }

  /** The counts add up to the number of steps. */
  lemma TallyTotal(names: seq<string>)
    ensures Total(Tally(names)) == |names|
  {
    TallyFromTotal([], names);
  }

  /** The (key, value) lines of one step's details. */
  function DetailLines(details: Value): seq<string>
    requires details.VDict?
  {
    seq(|details.entries|, i requires 0 <= i < |details.entries| =>
      "    • " + Show(details.entries[i].0) + ": " + Show(details.entries[i].1))
  }

  function StepLines(n: nat, step: Step): seq<string>
    requires step.details.VDict?
  {
    ["\n[" + NatToString(n) + "] " + step.stepName, "    Time: " + step.timestamp] + DetailLines(step.details)
  }

  /** Every logged step's details are a dictionary. */
  predicate DetailsAreDicts(log: seq<Step>)
  {
    forall i :: 0 <= i < |log| ==> log[i].details.VDict?
  }

  /** The display lines of the steps, numbered from 1. */
  function StepsLines(log: seq<Step>): seq<string>
    requires DetailsAreDicts(log)
  {
    if log == [] then [] else StepsLines(log[..|log| - 1]) + StepLines(|log|, log[|log| - 1])
  }

  lemma StepsLinesAppend(log: seq<Step>)
    requires log != [] && DetailsAreDicts(log)
    ensures StepsLines(log) == StepsLines(log[..|log| - 1]) + StepLines(|log|, log[|log| - 1])
  {
  }

  /** One "name: count" line per step name. */
  function CountLines(counts: seq<(string, nat)>): seq<string>
  {
    if counts == [] then []
    else CountLines(counts[..|counts| - 1]) + ["  " + counts[|counts| - 1].0 + ": " + NatToString(counts[|counts| - 1].1)]
  }

  /** The lines of `format_log_display`: a banner, each step numbered from
      1 with its time and details, then the step total and per-name counts. */
  function DisplayLines(log: seq<Step>, counts: seq<(string, nat)>): seq<string>
    requires DetailsAreDicts(log)
  {
    ["\n" + Rule, "🧠 AGENT REASONING LOG", Rule] + StepsLines(log)
    + ["\n" + Rule, "SUMMARY:", "  Total Steps: " + NatToString(|log|)]
    + CountLines(counts) + [Rule]
  }

  class ReasoningTracker {
    var log: seq<Step>
    var currentSessionId: Option<string>

    /** Every logged step's details are a dictionary. */
    predicate Valid()
      reads this
    {
      DetailsAreDicts(log)
    }

    constructor ()
      ensures log == [] && currentSessionId == None && Valid()
    {
      log := [];
      currentSessionId := None;
    }

    /** `log_step`: appends one step stamped with the current session id. */
    method LogStep(stepName: string, details: Value, now: string)
      requires details.VDict?
      modifies this
      ensures log == old(log) + [Step(stepName, old(currentSessionId), now, details)]
      ensures currentSessionId == old(currentSessionId)
      ensures old(Valid()) ==> Valid()
    {
      log := log + [Step(stepName, currentSessionId, now, details)];
    }

    /** `start_session`: names the session after the email and the clock's
        `stamp`, then logs SESSION_START. The step's time and the
        `timestamp` detail are separate clock reads in the source; one
        reading `now` stands for both. */
    method StartSession(emailId: int, sender: string, subject: string, stamp: string, now: string)
      returns (id: string)
      modifies this
      ensures id == "email_" + IntToString(emailId) + "_" + stamp
      ensures currentSessionId == Some(id)
      ensures log == old(log) + [Step("SESSION_START", Some(id), now,
        Dict([("email_id", VInt(emailId)), ("sender", VStr(sender)), ("subject", VStr(subject)),
              ("timestamp", VStr(now))]))]
      ensures old(Valid()) ==> Valid()
    {
      id := "email_" + IntToString(emailId) + "_" + stamp;
      currentSessionId := Some(id);
      LogStep("SESSION_START",
              Dict([("email_id", VInt(emailId)), ("sender", VStr(sender)), ("subject", VStr(subject)),
                    ("timestamp", VStr(now))]), now);
    }

    /** `log_extraction`: logs how many topics, action items and research
        queries were extracted. `len` of a value without a length raises
        TypeError and nothing is logged. */
    method LogExtraction(extracted: Value, now: string) returns (r: Result<()>)
      requires extracted.VDict?
      modifies this
      ensures r.Ok? <==>
        Len(GetOr(extracted, "key_topics", VList([]))).Some? &&
        Len(GetOr(extracted, "action_items", VList([]))).Some? &&
        Len(GetOr(extracted, "research_queries", VList([]))).Some?
      ensures r.Raised? ==> log == old(log)
      ensures r.Ok? ==>
        |log| == |old(log)| + 1 && log[..|old(log)|] == old(log) &&
        log[|old(log)|].stepName == "ENTITY_EXTRACTION" &&
        log[|old(log)|].details == Dict([
          ("key_topics", VInt(Len(GetOr(extracted, "key_topics", VList([]))).value)),
          ("action_items", VInt(Len(GetOr(extracted, "action_items", VList([]))).value)),
          ("research_queries", VInt(Len(GetOr(extracted, "research_queries", VList([]))).value)),
          ("sentiment", GetOr(extracted, "sentiment", VNone)),
          ("urgency", GetOr(extracted, "urgency_level", VNone))])
      ensures old(Valid()) ==> Valid()
    {
      var topics := Len(GetOr(extracted, "key_topics", VList([])));
      var actions := Len(GetOr(extracted, "action_items", VList([])));
      var queries := Len(GetOr(extracted, "research_queries", VList([])));
      if topics.None? || actions.None? || queries.None? {
        return Raised(TypeErrorMessage);
      }
      LogStep("ENTITY_EXTRACTION", Dict([
        ("key_topics", VInt(topics.value)),
        ("action_items", VInt(actions.value)),
        ("research_queries", VInt(queries.value)),
        ("sentiment", GetOr(extracted, "sentiment", VNone)),
        ("urgency", GetOr(extracted, "urgency_level", VNone))]), now);
      r := Ok(());
    }

    /** `log_research`: logs how many searches ran and how many results
        they found; when the report's shape makes Python raise, nothing is
        logged. */
    method LogResearch(research: Value, now: string) returns (r: Result<()>)
      requires research.VDict?
      modifies this
      ensures r.Ok? <==> ResearchCounts(research).Some?
      ensures r.Raised? ==> log == old(log)
      ensures r.Ok? ==> log == old(log) + [Step("WEB_RESEARCH", old(currentSessionId), now,
        ResearchDetails(research, ResearchCounts(research).value))]
      ensures old(Valid()) ==> Valid()
    {
      var queries := 0;
      var total := 0;
      if Has(research, "results") {
        var inner := Get(research, "results").value;
        var n := Len(inner);
        if n.None? || !inner.VDict? {
          return Raised(TypeErrorMessage);
        }
        queries := n.value;
        var found := SumFound(Dicts.Values(inner.entries));
        if found.None? {
          return Raised(TypeErrorMessage);
        }
        total := found.value;
      }
      LogStep("WEB_RESEARCH", ResearchDetails(research, (queries, total)), now);
      r := Ok(());
    }

    /** `log_reply_generation`: logs the status, whether research was used
        and, for a successful reply, its length. */
    method LogReplyGeneration(reply: Value, now: string) returns (r: Result<()>)
      requires reply.VDict?
      modifies this
      ensures var status := GetOr(reply, "status", VStr("unknown"));
        (r.Raised? <==> status == VStr("success") && Len(GetOr(reply, "reply", VStr(""))).None?) &&
        (r.Raised? ==> log == old(log)) &&
        (r.Ok? ==> log == old(log) + [Step("REPLY_GENERATION", old(currentSessionId), now, Dict([
          ("status", status),
          ("used_research", GetOr(reply, "used_research", VBool(false))),
          ("reply_length", VInt(if status == VStr("success") then Len(GetOr(reply, "reply", VStr(""))).value else 0))]))])
      ensures old(Valid()) ==> Valid()
    {
      var status := GetOr(reply, "status", VStr("unknown"));
      var length := 0;
      if status == VStr("success") {
        var n := Len(GetOr(reply, "reply", VStr("")));
        if n.None? {
          return Raised(TypeErrorMessage);
        }
        length := n.value;
      }
      LogStep("REPLY_GENERATION", Dict([
        ("status", status),
        ("used_research", GetOr(reply, "used_research", VBool(false))),
        ("reply_length", VInt(length))]), now);
      r := Ok(());
    }

    /** `log_decision`. */
    method LogDecision(decision: string, reasoning: string, options: Value, choice: string, now: string)
      modifies this
      ensures log == old(log) + [Step("DECISION", old(currentSessionId), now, Dict([
        ("decision", VStr(decision)), ("reasoning", VStr(reasoning)), ("options", options),
        ("chosen", VStr(choice))]))]
      ensures old(Valid()) ==> Valid()
    {
      LogStep("DECISION", Dict([
        ("decision", VStr(decision)), ("reasoning", VStr(reasoning)), ("options", options),
        ("chosen", VStr(choice))]), now);
    }

    /** `end_session`: logs SESSION_END with the number of steps logged
        before it. */
    method EndSession(summary: Option<string>, now: string)
      modifies this
      ensures log == old(log) + [Step("SESSION_END", old(currentSessionId), now, Dict([
        ("timestamp", VStr(now)), ("total_steps", VInt(|old(log)|)),
        ("summary", OptionalStr(summary))]))]
      ensures old(Valid()) ==> Valid()
    {
      LogStep("SESSION_END", Dict([
        ("timestamp", VStr(now)), ("total_steps", VInt(|log|)),
        ("summary", OptionalStr(summary))]), now);
    }

    /** `save_session`: the path of the written log file, named after a
        truthy email id and the clock's `stamp`; `None` when nothing was
        logged. Writing raises TypeError when a detail cannot be written as
        JSON. */
    method SaveSession(emailId: Value, stamp: string, logDir: string) returns (r: Result<Option<string>>)
      ensures log == [] <==> r == Ok(None)
      ensures r.Raised? <==> log != [] && exists i :: 0 <= i < |log| && !Serializable(log[i].details)
      ensures r.Ok? && r.value.Some? ==>
        r.value.value == JoinPath(logDir,
          if Truthy(emailId) then "reasoning_log_" + Show(emailId) + "_" + stamp + ".json"
          else "reasoning_log_" + stamp + ".json")
    {
      if log == [] {
        return Ok(None);
      }
      var filename := if Truthy(emailId) then "reasoning_log_" + Show(emailId) + "_" + stamp + ".json"
                      else "reasoning_log_" + stamp + ".json";
      var i := 0;
      while i < |log|
        invariant 0 <= i <= |log|
        invariant forall j :: 0 <= j < i ==> Serializable(log[j].details)
      {
        if !Serializable(log[i].details) {
          return Raised(TypeErrorMessage);
        }
        i := i + 1;
      }
      r := Ok(Some(JoinPath(logDir, filename)));
    }

    /** `get_session_summary`: the step total, the first and last step
        times, and how many steps carry each name. */
    method GetSessionSummary() returns (s: TrackerSummary)
      ensures s.sessionId == currentSessionId && s.totalSteps == |log|
      ensures log == [] ==> s.timestampStart.None? && s.timestampEnd.None? && s.stepsByType == []
      ensures log != [] ==> s.timestampStart == Some(log[0].timestamp) && s.timestampEnd == Some(log[|log| - 1].timestamp)
      ensures s.stepsByType == Tally(StepNames(log))
      ensures Total(s.stepsByType) == |log|
      ensures forall n :: Dicts.Lookup<string, nat>(s.stepsByType, n) == Occurrences(StepNames(log), n)
    {
      var counts: seq<(string, nat)> := [];
      var start: Option<string> := None;
      var end: Option<string> := None;
      if log != [] {
        start := Some(log[0].timestamp);
        end := Some(log[|log| - 1].timestamp);
        var names := StepNames(log);
        for i := 0 to |log|
          invariant TallyFrom(counts, names[i..]) == Tally(names)
        {
          assert names[i..][1..] == names[i + 1..];
          counts := Bump(counts, log[i].stepName);
        }
        assert names[|log|..] == [];
      }
      TallyTotal(StepNames(log));
      forall n ensures Dicts.Lookup<string, nat>(counts, n) == Occurrences(StepNames(log), n) {
        TallyCount(StepNames(log), n);
      }
      s := TrackerSummary(currentSessionId, |log|, start, end, counts);
    }

    /** `format_log_display`: the display lines joined by newlines. */
    method FormatLogDisplay() returns (text: string)
      requires Valid()
      ensures text == Join("\n", DisplayLines(log, Tally(StepNames(log))))
    {
      var stepLines := RenderSteps(log);
      var summary := GetSessionSummary();
      var countLines := RenderCounts(summary.stepsByType);
      var output := ["\n" + Rule, "🧠 AGENT REASONING LOG", Rule] + stepLines
        + ["\n" + Rule, "SUMMARY:", "  Total Steps: " + NatToString(summary.totalSteps)]
        + countLines + [Rule];
      text := Join("\n", output);
    }

    /** The display lines of every step, in log order. */
    static method RenderSteps(steps: seq<Step>) returns (lines: seq<string>)
      requires DetailsAreDicts(steps)
      ensures lines == StepsLines(steps)
    {
      lines := [];
      for i := 0 to |steps|
        invariant lines == StepsLines(steps[..i])
      {
        var block := RenderStep(i + 1, steps[i]);
        assert steps[..i + 1][..i] == steps[..i];
        lines := lines + block;
      }
      assert steps[..|steps|] == steps;
    }

    /** The header, time and detail lines of step number `n`. */
    static method RenderStep(n: nat, step: Step) returns (lines: seq<string>)
      requires step.details.VDict?
      ensures lines == StepLines(n, step)
    {
      lines := ["\n[" + NatToString(n) + "] " + step.stepName, "    Time: " + step.timestamp];
      var es := step.details.entries;
      for k := 0 to |es|
        invariant lines == ["\n[" + NatToString(n) + "] " + step.stepName, "    Time: " + step.timestamp]
          + DetailLines(step.details)[..k]
      {
        lines := lines + ["    • " + Show(es[k].0) + ": " + Show(es[k].1)];
      }
    }

    /** One line per step name with its count. */
    static method RenderCounts(counts: seq<(string, nat)>) returns (lines: seq<string>)
      ensures lines == CountLines(counts)
    {
      lines := [];
      for k := 0 to |counts|
        invariant lines == CountLines(counts[..k])
      {
        assert counts[..k + 1][..k] == counts[..k];
        lines := lines + ["  " + counts[k].0 + ": " + NatToString(counts[k].1)];
      }
      assert counts[..|counts|] == counts;
    }
  }

  /** What one search entry adds to `total_results` in `log_research`:
      the length of its "results" when it has that key, nothing otherwise;
      `None` when Python raises on it. */
  function EntryFound(e: Value): (r: Option<nat>)
    ensures In(VStr("results"), e) == Some(false) ==> r == Some(0)
    ensures e.VDict? && Has(e, "results") ==> r == Len(Get(e, "results").value)
  {
    match In(VStr("results"), e)
    case None => None
    case Some(false) => Some(0)
    case Some(true) => if e.VDict? then Len(GetOr(e, "results", VList([]))) else None
  }

  /** The sum of `found` over `entries`, taken left to right; `None` once
      one of them is `None`. */
  function FoundTotal(entries: seq<Value>, found: Value -> Option<nat>): Option<nat>
  {
    if entries == [] then Some(0)
    else match FoundTotal(entries[..|entries| - 1], found)
      case None => None
      case Some(t) =>
        match found(entries[|entries| - 1])
        case None => None
        case Some(a) => Some(t + a)
  }

  /** `EntryFound` as a value, so that the loop below need not look inside it. */
  function Counted(): Value -> Option<nat>
  {
    e => EntryFound(e)
  }

  /** The total over the search entries; `None` once one raises. */
  function ResultsFound(entries: seq<Value>): Option<nat>
  {
    FoundTotal(entries, Counted())
  }

  /** One more step of the loop. */
  lemma FoundTotalNext(entries: seq<Value>, i: nat, found: Value -> Option<nat>)
    requires i < |entries|
    ensures var t, a := FoundTotal(entries[..i], found), found(entries[i]);
      FoundTotal(entries[..i + 1], found) == if t.None? || a.None? then None else Some(t.value + a.value)
  {
    assert entries[..i + 1][..i] == entries[..i];
  }

  /** Once a prefix raises, the whole loop does. */
  lemma {:induction false} FoundTotalStops(entries: seq<Value>, k: nat, found: Value -> Option<nat>)
    requires k <= |entries| && FoundTotal(entries[..k], found).None?
    ensures FoundTotal(entries, found).None?
    decreases |entries|
  {
    if k == |entries| {
      assert entries[..k] == entries;
    } else {
      var init := entries[..|entries| - 1];
      assert init[..k] == entries[..k];
      FoundTotalStops(init, k, found);
    }
  }

  /** Entries without a "results" key add nothing to the total. */
  lemma {:induction false} ResultsFoundSkipsUnkeyed(entries: seq<Value>)
    requires forall i :: 0 <= i < |entries| ==> In(VStr("results"), entries[i]) == Some(false)
    ensures ResultsFound(entries) == Some(0)
  {
    if entries != [] {
      assert Counted()(entries[|entries| - 1]) == Some(0);
      ResultsFoundSkipsUnkeyed(entries[..|entries| - 1]);
    }
  }

  /** `log_research`'s counts: how many searches the report holds and the
      total over their entries; `None` when Python raises on the report's
      shape. */
  function ResearchCounts(research: Value): (r: Option<(nat, nat)>)
    requires research.VDict?
    ensures !Has(research, "results") ==> r == Some((0, 0))
    ensures Has(research, "results") && r.Some? ==>
      Get(research, "results").value.VDict? &&
      r.value.0 == |Get(research, "results").value.entries| &&
      Some(r.value.1) == ResultsFound(Dicts.Values(Get(research, "results").value.entries))
  {
    if !Has(research, "results") then Some((0, 0))
    else
      var inner := Get(research, "results").value;
      match Len(inner)
      case None => None
      case Some(n) =>
        if !inner.VDict? then None
        else match ResultsFound(Dicts.Values(inner.entries))
          case None => None
          case Some(total) => Some((n, total))
  }

  /** The loop of `log_research` over the search entries. */
  method SumFound(entries: seq<Value>) returns (r: Option<nat>)
    ensures r == ResultsFound(entries)
  {
    var count := Counted();
    var total := 0;
    for i := 0 to |entries|
      invariant FoundTotal(entries[..i], count) == Some(total)
    {
      var found := count(entries[i]);
      FoundTotalNext(entries, i, count);
      if found.None? {
        FoundTotalStops(entries, i + 1, count);
        return None;
      }
      total := total + found.value;
    }
    assert entries[..|entries|] == entries;
    r := Some(total);
  }

  /** The WEB_RESEARCH details `log_research` logs. */
  function ResearchDetails(research: Value, counts: (nat, nat)): Value
    requires research.VDict?
  {
    Dict([
      ("queries_searched", VInt(counts.0)),
      ("total_results_found", VInt(counts.1)),
      ("depth", GetOr(research, "depth", VStr("standard")))])
  }
}
