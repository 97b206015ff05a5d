// The orchestrator (`AgentOrchestrator`): the entry point that dispatches a
// request to one scenario agent (`process`), or lets the router classify a
// free-form prompt and runs every scenario it names (`route`), optionally
// recording the exchange in a session (`route_and_save`). The scenario
// agents themselves are outside this model: each is an oracle giving the
// dictionary it would return or the message of the exception it would raise.
module Orchestrator {
  import opened Wrappers
  import opened Seqs
  import opened Text
  import opened Values
  import opened Services
  import opened Router
  import Dicts
  import Sessions

  /** The three scenario agents, answering the dispatch numbered `call`. */
  datatype Agents = Agents(
    /** `SmartEmailAgent.process(email_content)`. */
    email: (nat, Value) -> Result<Value>,
    /** `DocumentAgent.process(file_path, question)`. */
    document: (nat, Value, Value) -> Result<Value>,
    /** `MeetingAgent.prepare_briefing(company_name, meeting_context)`. */
    meeting: (nat, Value, Value) -> Result<Value>)

  const NoCompanyMessage: string := "No company name provided."
  const ErrorPrefix: string := "Error: "

  // ---------------------------------------------------------------------
  // The error envelope
  // ---------------------------------------------------------------------

  /** The attribution every error result carries: everything from the
      language model, nothing verified. */
  function ErrorAttribution(): Value
  {
    Dict([
      ("memory_pct", VInt(0)),
      ("linkup_pct", VInt(0)),
      ("llm_pct", VInt(100)),
      ("memory_interactions", VInt(0)),
      ("linkup_sources_count", VInt(0)),
      ("data_freshness", VStr("N/A")),
      ("sections", VDict([])),
      ("verification_status", VStr("Unverified"))])
  }

  /** `_error_result(message)`. */
  function ErrorResult(message: string): Value
  {
    Dict([
      ("reasoning_steps", VList([Dict([("step", VInt(1)), ("action", VStr("Error")),
                                       ("detail", VStr(message)), ("status", VStr("error"))])])),
      ("linkup_sources", VList([])),
      ("result", VStr(ErrorPrefix + message)),
      ("briefing_data", VDict([])),
      ("confidence", VFloat(0.0)),
      ("execution_time", VInt(0)),
      ("source_attribution", ErrorAttribution())])
  }

  /** The fixed shape of an error result: zero confidence, no sources, a
      result text starting "Error: ", and an attribution of 0% memory, 0%
      web and 100% model marked unverified. */
  predicate ErrorShaped(v: Value)
  {
    v.VDict? &&
    Get(v, "confidence") == Some(VFloat(0.0)) &&
    Get(v, "linkup_sources") == Some(VList([])) &&
    Get(v, "result").Some? && Get(v, "result").value.VStr? && StartsWith(Get(v, "result").value.s, ErrorPrefix) &&
    Get(v, "source_attribution") == Some(ErrorAttribution())
  }

  lemma ErrorAttributionShape()
    ensures var a := ErrorAttribution();
      a.VDict? &&
      Get(a, "memory_pct") == Some(VInt(0)) && Get(a, "linkup_pct") == Some(VInt(0)) &&
      Get(a, "llm_pct") == Some(VInt(100)) && Get(a, "verification_status") == Some(VStr("Unverified"))
  {
    var pairs := [
      ("memory_pct", VInt(0)),
      ("linkup_pct", VInt(0)),
      ("llm_pct", VInt(100)),
      ("memory_interactions", VInt(0)),
      ("linkup_sources_count", VInt(0)),
      ("data_freshness", VStr("N/A")),
      ("sections", VDict([])),
      ("verification_status", VStr("Unverified"))];
    assert |pairs[0].0| == 10 && |pairs[1].0| == 10 && |pairs[2].0| == 7 && |pairs[3].0| == 19 &&
           |pairs[4].0| == 20 && |pairs[5].0| == 14 && |pairs[6].0| == 8 && |pairs[7].0| == 19;
    assert pairs[0].0[0] == 'm' && pairs[1].0[0] == 'l' && pairs[3].0[0] == 'm' && pairs[7].0[0] == 'v';
    DictGets(pairs);
    assert pairs[0].0 == "memory_pct" && pairs[1].0 == "linkup_pct" && pairs[2].0 == "llm_pct" &&
           pairs[7].0 == "verification_status";
  }

  /** Every error result has the fixed shape, and its text is the message
      after "Error: ". */
  lemma ErrorResultShape(message: string)
    ensures ErrorShaped(ErrorResult(message))
    ensures Get(ErrorResult(message), "result") == Some(VStr(ErrorPrefix + message))
  {
    var pairs := [
      ("reasoning_steps", VList([Dict([("step", VInt(1)), ("action", VStr("Error")),
                                       ("detail", VStr(message)), ("status", VStr("error"))])])),
      ("linkup_sources", VList([])),
      ("result", VStr(ErrorPrefix + message)),
      ("briefing_data", VDict([])),
      ("confidence", VFloat(0.0)),
      ("execution_time", VInt(0)),
      ("source_attribution", ErrorAttribution())];
    assert |pairs[0].0| == 15 && |pairs[1].0| == 14 && |pairs[2].0| == 6 && |pairs[3].0| == 13 &&
           |pairs[4].0| == 10 && |pairs[5].0| == 14 && |pairs[6].0| == 18;
    assert pairs[1].0[0] == 'l' && pairs[5].0[0] == 'e';
    DictGets(pairs);
    assert pairs[1].0 == "linkup_sources" && pairs[2].0 == "result" && pairs[4].0 == "confidence" &&
           pairs[6].0 == "source_attribution";
    assert (ErrorPrefix + message)[..|ErrorPrefix|] == ErrorPrefix;
  }

  /** Writing the execution time into a result keeps every other key. */
  lemma WithTimeKeeps(v: Value, elapsed: real, k: string)
    requires v.VDict? && k != "execution_time"
    ensures Get(Set(v, "execution_time", VFloat(elapsed)), k) == Get(v, k)
  {
    SetOther(v, "execution_time", VFloat(elapsed), k);
  }

  /** An error result keeps its shape once its execution time is written. */
  lemma ErrorShapedWithTime(v: Value, elapsed: real)
    requires ErrorShaped(v)
    ensures ErrorShaped(Set(v, "execution_time", VFloat(elapsed)))
  {
    WithTimeKeeps(v, elapsed, "confidence");
    WithTimeKeeps(v, elapsed, "linkup_sources");
    WithTimeKeeps(v, elapsed, "result");
    WithTimeKeeps(v, elapsed, "source_attribution");
  }

  /** What `process` returns from its `except` branch: the error result for
      the message, with the execution time written in. */
  function TimedError(message: string, elapsed: real): (r: Value)
    ensures ErrorShaped(r)
    ensures Get(r, "result") == Some(VStr(ErrorPrefix + message))
    ensures Get(r, "execution_time") == Some(VFloat(elapsed))
  {
    ErrorResultShape(message);
    ErrorShapedWithTime(ErrorResult(message), elapsed);
    WithTimeKeeps(ErrorResult(message), elapsed, "result");
    Set(ErrorResult(message), "execution_time", VFloat(elapsed))
  }

  // ---------------------------------------------------------------------
  // Direct dispatch
  // ---------------------------------------------------------------------

  /** `_process_email`'s repair of the agent's answer: a dictionary without
      `draft_reply` gets one copied from `result` (or ""). A non-dictionary
      answer raises, here or when `process` writes its execution time. */
  function WithDraft(result: Value): (r: Result<Value>)
    ensures r.Ok? <==> result.VDict?
    ensures r.Ok? ==> r.value.VDict? && Has(r.value, "draft_reply")
    ensures r.Ok? && Has(result, "draft_reply") ==> r.value == result
    ensures r.Ok? && !Has(result, "draft_reply") ==>
      Get(r.value, "draft_reply") == Some(GetOr(result, "result", VStr("")))
  {
    if result.VDict? then
      if Has(result, "draft_reply") then Ok(result)
      else Ok(Set(result, "draft_reply", GetOr(result, "result", VStr(""))))
    else match In(VStr("draft_reply"), result)
      case Some(false) => Raised(AttributeErrorMessage)
      case _ => Raised(TypeErrorMessage)
  }

  /** The message of the ValueError `process` raises for a scenario it does
      not know. */
  function UnknownScenario(scenario: Value): string
  {
    "Unknown scenario: " + Show(scenario)
  }

  /** What the `try` block of `process` produces before the execution time
      is written: the agent's answer, or the message of what was raised.
      `call` numbers the agent call, `input` is the scenario's parameters. */
  function Dispatched(scenario: Value, input: Value, agents: Agents, call: nat): Result<Value>
  {
    if scenario == VStr(EmailScenario) then
      if !input.VDict? then Raised(AttributeErrorMessage)
      else match agents.email(call, GetOr(input, "email_content", VStr("")))
        case Raised(m) => Raised(m)
        case Ok(result) => WithDraft(result)
    else if scenario == VStr(DocumentScenario) then
      if !input.VDict? then Raised(AttributeErrorMessage)
      else agents.document(call, GetOr(input, "file_path", VStr("")), GetOr(input, "question", VStr("")))
    else if scenario == VStr(MeetingScenario) then
      if !input.VDict? then Raised(AttributeErrorMessage)
      else
        var company := GetOr(input, "company_name", VStr(""));
        if !Truthy(company) then Ok(ErrorResult(NoCompanyMessage))
        else agents.meeting(call, company, GetOr(input, "meeting_context", VStr("")))
    else Raised(UnknownScenario(scenario))
  }

  /** `process(scenario, input_data)` with `elapsed` the rounded time the
      clock measured: the answer with its execution time, or the error
      result with its execution time. */
  function Processed(scenario: Value, input: Value, agents: Agents, call: nat, elapsed: real): (r: Value)
    ensures r.VDict? && Get(r, "execution_time") == Some(VFloat(elapsed))
  {
    match Dispatched(scenario, input, agents, call)
    case Ok(result) =>
      if result.VDict? then Set(result, "execution_time", VFloat(elapsed))
      else TimedError(TypeErrorMessage, elapsed)
    case Raised(m) => TimedError(m, elapsed)
  }

  /** `process` never raises: its answer is either the agent's dictionary
      (with the execution time written in) or an error-shaped result; an
      unknown scenario always gives the error result. */
  lemma ProcessedShape(scenario: Value, input: Value, agents: Agents, call: nat, elapsed: real)
    ensures var d := Dispatched(scenario, input, agents, call);
      var r := Processed(scenario, input, agents, call, elapsed);
      (d.Ok? && d.value.VDict? ==> r == Set(d.value, "execution_time", VFloat(elapsed))) &&
      (d.Raised? || !d.value.VDict? ==> ErrorShaped(r))
    ensures scenario !in {VStr(EmailScenario), VStr(DocumentScenario), VStr(MeetingScenario)} ==>
      ErrorShaped(Processed(scenario, input, agents, call, elapsed)) &&
      Get(Processed(scenario, input, agents, call, elapsed), "result") ==
        Some(VStr(ErrorPrefix + UnknownScenario(scenario)))
  {
    if scenario !in {VStr(EmailScenario), VStr(DocumentScenario), VStr(MeetingScenario)} {
      assert Dispatched(scenario, input, agents, call) == Raised(UnknownScenario(scenario));
    }
  }

  /** A meeting request without a company name gives the error result and
      never reaches the meeting agent: the answer does not depend on it. */
  lemma MeetingNeedsCompany(input: Value, agents: Agents, other: Agents, call: nat, elapsed: real)
    requires input.VDict? && !Truthy(GetOr(input, "company_name", VStr("")))
    ensures Processed(VStr(MeetingScenario), input, agents, call, elapsed) == TimedError(NoCompanyMessage, elapsed)
    ensures Processed(VStr(MeetingScenario), input, agents, call, elapsed) ==
            Processed(VStr(MeetingScenario), input, other, call, elapsed)
    ensures ErrorShaped(Processed(VStr(MeetingScenario), input, agents, call, elapsed))
  {
    assert Dispatched(VStr(MeetingScenario), input, agents, call) == Ok(ErrorResult(NoCompanyMessage));
    assert Dispatched(VStr(MeetingScenario), input, other, call) == Ok(ErrorResult(NoCompanyMessage));
    ErrorResultShape(NoCompanyMessage);
  }

  /** An email answer always carries `draft_reply`, copied from `result`
      when the agent left it out. */
  lemma EmailHasDraft(input: Value, agents: Agents, call: nat, elapsed: real)
    requires input.VDict?
    requires var a := agents.email(call, GetOr(input, "email_content", VStr(""))); a.Ok? && a.value.VDict?
    ensures var a := agents.email(call, GetOr(input, "email_content", VStr(""))).value;
      var r := Processed(VStr(EmailScenario), input, agents, call, elapsed);
      Has(r, "draft_reply") &&
      (!Has(a, "draft_reply") ==> Get(r, "draft_reply") == Some(GetOr(a, "result", VStr(""))))
  {
    var a := agents.email(call, GetOr(input, "email_content", VStr(""))).value;
    var w := WithDraft(a).value;
    assert Dispatched(VStr(EmailScenario), input, agents, call) == Ok(w);
    WithTimeKeeps(w, elapsed, "draft_reply");
  }

  // ---------------------------------------------------------------------
  // Routing
  // ---------------------------------------------------------------------

  /** The loop of `route` over the classified scenarios: each one's answer
      stored under it (a repeated scenario overwrites its earlier answer),
      or the message of what the loop raised. */
  function RouteLoop(scenarios: seq<Value>, params: Value, agents: Agents, times: nat -> real): Result<seq<(Value, Value)>>
  {
    if scenarios == [] then Ok([])
    else
      var n := |scenarios| - 1;
      match RouteLoop(scenarios[..n], params, agents, times)
      case Raised(m) => Raised(m)
      case Ok(results) => RouteStep(results, scenarios[n], params, agents, n, times(n))
  }

  /** One pass of the loop: `params.get(scenario, {})` raises on parameters
      that are not a dictionary and on an unhashable scenario. */
  function RouteStep(results: seq<(Value, Value)>, scenario: Value, params: Value, agents: Agents,
                     call: nat, elapsed: real): Result<seq<(Value, Value)>>
  {
    if !params.VDict? then Raised(AttributeErrorMessage)
    else if !Hashable(scenario) then Raised(TypeErrorMessage)
    else
      Ok(Dicts.Put(results, scenario, Processed(scenario, InputFor(params, scenario), agents, call, elapsed)))
  }

  /** Once the loop has raised, the scenarios after that point are never
      looked at. */
  lemma {:induction false} RouteLoopStopsAt(scenarios: seq<Value>, i: nat, params: Value, agents: Agents, times: nat -> real)
    requires i <= |scenarios| && RouteLoop(scenarios[..i], params, agents, times).Raised?
    ensures RouteLoop(scenarios, params, agents, times) == RouteLoop(scenarios[..i], params, agents, times)
  {
    if i == |scenarios| {
      assert scenarios[..i] == scenarios;
    } else {
      var n := |scenarios| - 1;
      assert scenarios[..n][..i] == scenarios[..i];
      RouteLoopStopsAt(scenarios[..n], i, params, agents, times);
    }
  }

  /** The parameters `route` hands to the scenario at `call`. */
  function InputFor(params: Value, scenario: Value): Value
    requires params.VDict?
  {
    Dicts.Lookup(params.entries, scenario).GetOr(VDict([]))
  }

  /** Every element may be a dictionary key. */
  predicate AllHashable(s: seq<Value>)
  {
    forall x :: x in s ==> Hashable(x)
  }

  /** The loop raises only on parameters that are not a dictionary or on
      an unhashable scenario: `process` itself never raises, so no entry
      comes from the loop's own `except`. */
  lemma {:induction false} RouteLoopRaises(scenarios: seq<Value>, params: Value, agents: Agents, times: nat -> real)
    ensures RouteLoop(scenarios, params, agents, times).Raised? <==>
      scenarios != [] && (!params.VDict? || !AllHashable(scenarios))
  {
    if scenarios != [] {
      var n := |scenarios| - 1;
      var init := scenarios[..n];
      RouteLoopRaises(init, params, agents, times);
      InFrontOrLast(scenarios);
      assert AllHashable(scenarios) <==> AllHashable(init) && Hashable(scenarios[n]);
    }
  }

  /** When the loop finishes, every scenario is a key exactly once, no
      other key appears, and each key holds the answer `process` gave to
      its last occurrence. */
  lemma RouteLoopResults(scenarios: seq<Value>, params: Value, agents: Agents, times: nat -> real)
    requires RouteLoop(scenarios, params, agents, times).Ok?
    ensures var r := RouteLoop(scenarios, params, agents, times).value;
      Dicts.DistinctKeys(r) &&
      (forall x :: x in Dicts.Keys(r) <==> x in scenarios) &&
      (forall x :: x in scenarios ==>
        var last := LastIndex(scenarios, x);
        Dicts.Lookup(r, x) == Some(Processed(x, InputFor(params, x), agents, last, times(last))))
  {
    RouteLoopKeys(scenarios, params, agents, times);
    RouteLoopLookups(scenarios, params, agents, times);
  }

  lemma {:induction false} RouteLoopKeys(scenarios: seq<Value>, params: Value, agents: Agents, times: nat -> real)
    requires RouteLoop(scenarios, params, agents, times).Ok?
    ensures var r := RouteLoop(scenarios, params, agents, times).value;
      Dicts.DistinctKeys(r) && (forall x :: x in Dicts.Keys(r) <==> x in scenarios)
  {
    if scenarios != [] {
      var n := |scenarios| - 1;
      var init := scenarios[..n];
      var x := scenarios[n];
      RouteLoopKeys(init, params, agents, times);
      var results := RouteLoop(init, params, agents, times).value;
      var out := Processed(x, InputFor(params, x), agents, n, times(n));
      assert RouteLoop(scenarios, params, agents, times) == Ok(Dicts.Put(results, x, out));
      Dicts.PutDistinct(results, x, out);
      Dicts.PutKeysIn(results, x, out);
      InFrontOrLast(scenarios);
    }
  }

  lemma {:induction false} RouteLoopLookups(scenarios: seq<Value>, params: Value, agents: Agents, times: nat -> real)
    requires RouteLoop(scenarios, params, agents, times).Ok?
    ensures var r := RouteLoop(scenarios, params, agents, times).value;
      forall x :: x in scenarios ==>
        var last := LastIndex(scenarios, x);
        Dicts.Lookup(r, x) == Some(Processed(x, InputFor(params, x), agents, last, times(last)))
  {
    if scenarios != [] {
      var n := |scenarios| - 1;
      var init := scenarios[..n];
      var x := scenarios[n];
      RouteLoopLookups(init, params, agents, times);
      var results := RouteLoop(init, params, agents, times).value;
      var out := Processed(x, InputFor(params, x), agents, n, times(n));
      var next := Dicts.Put(results, x, out);
      assert RouteLoop(scenarios, params, agents, times) == Ok(next);
      forall y | y in scenarios
        ensures var last := LastIndex(scenarios, y);
          Dicts.Lookup(next, y) == Some(Processed(y, InputFor(params, y), agents, last, times(last)))
      {
        if y == x {
          assert LastIndex(scenarios, y) == n;
        } else {
          Dicts.PutOther(results, x, out, y);
          LastIndexInFront(scenarios, y);
        }
      }
    }
  }

  /** `classification.get('primary_scenario', scenarios[0] if scenarios else
      'meeting')`: the default is computed, and may raise, even when the
      key is present. */
  function Primary(classification: Value, scenarios: Value): Result<Value>
    requires classification.VDict?
  {
    var default := if Truthy(scenarios) then First(scenarios) else Some(VStr(MeetingScenario));
    if default.None? then Raised(FirstErrorMessage(scenarios))
    else Ok(GetOr(classification, "primary_scenario", default.value))
  }

  /** The envelope `route` returns, built from its parts. */
  function Envelope(classification: Value, results: seq<(Value, Value)>, primary: Value, elapsed: real): Value
  {
    Dict([
      ("route", classification),
      ("results", VDict(results)),
      ("primary_scenario", primary),
      ("execution_time", VFloat(elapsed))])
  }

  lemma EnvelopeShape(classification: Value, results: seq<(Value, Value)>, primary: Value, elapsed: real)
    ensures var e := Envelope(classification, results, primary, elapsed);
      e.VDict? &&
      Get(e, "route") == Some(classification) && Get(e, "results") == Some(VDict(results)) &&
      Get(e, "primary_scenario") == Some(primary) && Get(e, "execution_time") == Some(VFloat(elapsed))
  {
    var pairs := [
      ("route", classification),
      ("results", VDict(results)),
      ("primary_scenario", primary),
      ("execution_time", VFloat(elapsed))];
    assert |pairs[0].0| == 5 && |pairs[1].0| == 7 && |pairs[2].0| == 16 && |pairs[3].0| == 14;
    DictGets(pairs);
    assert pairs[0].0 == "route" && pairs[1].0 == "results" && pairs[2].0 == "primary_scenario" &&
           pairs[3].0 == "execution_time";
  }

  /** `route` on a classification: the scenarios' answers, the primary
      scenario and the envelope, or the message of what was raised.
      `times(i)` is the time `process` measured for the `i`-th scenario,
      `elapsed` the time of the whole route. */
  function RoutedFrom(classification: Value, agents: Agents, times: nat -> real, elapsed: real): Result<Value>
    requires classification.VDict?
  {
    var scenarios := GetOr(classification, "scenarios", VList([]));
    var params := GetOr(classification, "params", VDict([]));
    match Iterate(scenarios)
    case None => Raised(TypeErrorMessage)
    case Some(items) =>
      match RouteLoop(items, params, agents, times)
      case Raised(m) => Raised(m)
      case Ok(results) =>
        match Primary(classification, scenarios)
        case Raised(m) => Raised(m)
        case Ok(primary) => Ok(Envelope(classification, results, primary, elapsed))
  }

  /** `route(prompt)` given the router's reply and decoder. */
  function Routed(prompt: string, reply: LlmReply, parse: string -> ParseOutcome, agents: Agents,
                  times: nat -> real, elapsed: real): Result<Value>
  {
    ClassifiedWellFormed(reply, parse, prompt);
    RoutedFrom(Classified(reply, parse, prompt), agents, times, elapsed)
  }

  /** With a scenario list the router returns, the envelope holds that
      classification, one answer per distinct scenario, and the
      classifier's primary scenario. */
  lemma RoutedEnvelope(classification: Value, agents: Agents, times: nat -> real, elapsed: real)
    requires WellFormed(classification)
    requires Get(classification, "scenarios").value.VList?
    requires Get(classification, "params").value.VDict?
    requires AllHashable(Get(classification, "scenarios").value.items)
    ensures var r := RoutedFrom(classification, agents, times, elapsed);
      var items := Get(classification, "scenarios").value.items;
      r.Ok? &&
      Get(r.value, "route") == Some(classification) &&
      Get(r.value, "primary_scenario") == Get(classification, "primary_scenario") &&
      Get(r.value, "results") == Some(VDict(RouteLoop(items, Get(classification, "params").value, agents, times).value))
  {
    var scenarios := Get(classification, "scenarios").value;
    var params := Get(classification, "params").value;
    RouteLoopRaises(scenarios.items, params, agents, times);
    var results := RouteLoop(scenarios.items, params, agents, times).value;
    assert Truthy(scenarios) && First(scenarios).Some?;
    var primary := Primary(classification, scenarios).value;
    assert primary == Get(classification, "primary_scenario").value;
    assert RoutedFrom(classification, agents, times, elapsed) == Ok(Envelope(classification, results, primary, elapsed));
    EnvelopeShape(classification, results, primary, elapsed);
  }

  /** A route naming a single scenario holds exactly that scenario's answer. */
  lemma SingleScenarioRoute(scenario: Value, params: Value, agents: Agents, times: nat -> real)
    requires params.VDict? && Hashable(scenario)
    ensures RouteLoop([scenario], params, agents, times) ==
            Ok([(scenario, Processed(scenario, InputFor(params, scenario), agents, 0, times(0)))])
  {
    assert [scenario][..0] == [];
  }

  /** A classification naming one scenario, as its list and as its primary
      scenario, routes to exactly that scenario. */
  lemma SingleScenarioRouted(classification: Value, scenario: Value, params: Value, agents: Agents,
                             times: nat -> real, elapsed: real)
    requires classification.VDict? && params.VDict? && Hashable(scenario)
    requires Get(classification, "scenarios") == Some(VList([scenario]))
    requires Get(classification, "primary_scenario") == Some(scenario)
    requires Get(classification, "params") == Some(params)
    ensures var r := RoutedFrom(classification, agents, times, elapsed);
      r.Ok? &&
      Get(r.value, "primary_scenario") == Some(scenario) &&
      Get(r.value, "results") == Some(VDict([(scenario, Processed(scenario, InputFor(params, scenario), agents, 0, times(0)))]))
  {
    SingleScenarioRoute(scenario, params, agents, times);
    var results := [(scenario, Processed(scenario, InputFor(params, scenario), agents, 0, times(0)))];
    assert Primary(classification, VList([scenario])) == Ok(scenario);
    assert RoutedFrom(classification, agents, times, elapsed) == Ok(Envelope(classification, results, scenario, elapsed));
    EnvelopeShape(classification, results, scenario, elapsed);
  }

  /** When the router falls back on keywords, `route` runs exactly the one
      scenario the keywords chose, with the fallback parameters, and keeps
      that scenario as the primary one. */
  lemma FallbackRouted(prompt: string, message: string, agents: Agents, times: nat -> real, elapsed: real)
    ensures var scenario := VStr(FallbackClassify(prompt));
      var params := FallbackParams(FallbackClassify(prompt), prompt);
      var r := RoutedFrom(FallbackRoute(prompt, message), agents, times, elapsed);
      r.Ok? &&
      Get(r.value, "primary_scenario") == Some(scenario) &&
      Get(r.value, "results") == Some(VDict([(scenario, Processed(scenario, InputFor(params, scenario), agents, 0, times(0)))]))
  {
    var name := FallbackClassify(prompt);
    FallbackRouteShape(prompt, message);
    FallbackParamsShape(name, prompt);
    SingleScenarioRouted(FallbackRoute(prompt, message), VStr(name), FallbackParams(name, prompt), agents, times, elapsed);
  }

  /** The keyword fallback's meeting route has an empty company name, so its
      single answer is the error result, without asking the meeting agent. */
  lemma FallbackMeetingIsError(prompt: string, message: string, agents: Agents, times: nat -> real, elapsed: real)
    requires FallbackClassify(prompt) == MeetingScenario
    ensures var r := RoutedFrom(FallbackRoute(prompt, message), agents, times, elapsed);
      r.Ok? && Get(r.value, "results") == Some(VDict([(VStr(MeetingScenario), TimedError(NoCompanyMessage, times(0)))]))
  {
    FallbackParamsShape(MeetingScenario, prompt);
    var params := FallbackParams(MeetingScenario, prompt);
    var input := Get(params, MeetingScenario).value;
    assert InputFor(params, VStr(MeetingScenario)) == input;
    assert GetOr(input, "company_name", VStr("")) == VStr("");
    MeetingNeedsCompany(input, agents, agents, 0, times(0));
    FallbackRouted(prompt, message, agents, times, elapsed);
  }

  class AgentOrchestrator {
    /** The session files `route_and_save` writes to. */
    const sessions: Sessions.SessionStore

    constructor ()
      ensures fresh(sessions) && sessions.sessions == map[]
    {
      sessions := new Sessions.SessionStore();
    }

    /** `process`: dispatches to one agent and writes the execution time
        into whatever comes back; never raises. */
    method Process(scenario: Value, input: Value, agents: Agents, call: nat, elapsed: real) returns (r: Value)
      ensures r == Processed(scenario, input, agents, call, elapsed)
      ensures Get(r, "execution_time") == Some(VFloat(elapsed))
    {
      var d := Dispatched(scenario, input, agents, call);
      if d.Ok? && d.value.VDict? {
        var result := d.value;
        result := Set(result, "execution_time", VFloat(elapsed));
        return result;
      }
      r := TimedError(if d.Raised? then d.message else TypeErrorMessage, elapsed);
    }

    /** `route`: classifies the prompt, then fills the results dictionary
        one scenario at a time. */
    method Route(prompt: string, reply: LlmReply, parse: string -> ParseOutcome, agents: Agents,
                 times: nat -> real, elapsed: real) returns (r: Result<Value>)
      ensures r == Routed(prompt, reply, parse, agents, times, elapsed)
    {
      var classification := Classify(reply, parse, prompt);
      var scenarios := GetOr(classification, "scenarios", VList([]));
      var params := GetOr(classification, "params", VDict([]));
      var items := Iterate(scenarios);
      if items.None? {
        return Raised(TypeErrorMessage);
      }
      var results := RunScenarios(items.value, params, agents, times);
      if results.Raised? {
        return Raised(results.message);
      }
      var primary := Primary(classification, scenarios);
      if primary.Raised? {
        return Raised(primary.message);
      }
      r := Ok(Envelope(classification, results.value, primary.value, elapsed));
    }

    /** The loop of `route`: each scenario's answer from `process`, stored
        under the scenario. */
    method RunScenarios(scenarios: seq<Value>, params: Value, agents: Agents, times: nat -> real)
      returns (r: Result<seq<(Value, Value)>>)
      ensures r == RouteLoop(scenarios, params, agents, times)
    {
      var results: seq<(Value, Value)> := [];
      for i := 0 to |scenarios|
        invariant RouteLoop(scenarios[..i], params, agents, times) == Ok(results)
      {
        var scenario := scenarios[i];
        assert scenarios[..i + 1][..i] == scenarios[..i];
        if !params.VDict? || !Hashable(scenario) {
          r := Raised(if !params.VDict? then AttributeErrorMessage else TypeErrorMessage);
          assert RouteLoop(scenarios[..i + 1], params, agents, times) == r;
          RouteLoopStopsAt(scenarios, i + 1, params, agents, times);
          return;
        }
        var input := InputFor(params, scenario);
        var out := Process(scenario, input, agents, i, times(i));
        results := Dicts.Put(results, scenario, out);
      }
      assert scenarios[..|scenarios|] == scenarios;
      r := Ok(results);
    }

    /** `route_and_save`: opens a session when none is given, routes, and
        appends exactly one interaction holding the route, the results and
        the execution time; the envelope then names the session. Every clock
        read the source makes while saving (the new session's times, the
        interaction's timestamp, `updated_at`) is the one reading `now`. */
    method RouteAndSave(prompt: string, sessionId: Option<string>, uuidHex: string, now: string,
                        reply: LlmReply, parse: string -> ParseOutcome, agents: Agents,
                        times: nat -> real, elapsed: real) returns (r: Result<Value>)
      modifies sessions
      ensures var id := if sessionId.Some? then sessionId.value else Prefix(uuidHex, 12);
        var routed := Routed(prompt, reply, parse, agents, times, elapsed);
        var before := if sessionId.Some? then old(sessions.sessions)
                      else old(sessions.sessions)[id := Sessions.Session(id, now, now, "Session " + Prefix(id, 6), [])];
        (routed.Raised? ==> r == routed && sessions.sessions == before) &&
        (routed.Ok? && id !in before ==> r.Raised? && sessions.sessions == before) &&
        (routed.Ok? && id in before ==>
          r == Ok(Set(routed.value, "session_id", VStr(id))) &&
          sessions.sessions == before[id := Sessions.WithInteraction(before[id], prompt,
            GetOr(routed.value, "route", VDict([])), GetOr(routed.value, "results", VDict([])),
            GetOr(routed.value, "execution_time", VInt(0)), now)])
      ensures old(sessions.Valid()) ==> sessions.Valid()
    {
      var id: string;
      if sessionId.None? {
        id := sessions.CreateSession("", uuidHex, now);
      } else {
        id := sessionId.value;
      }
      var envelope := Route(prompt, reply, parse, agents, times, elapsed);
      if envelope.Raised? {
        return envelope;
      }
      var appended := sessions.Append(id, prompt, GetOr(envelope.value, "route", VDict([])),
                                      GetOr(envelope.value, "results", VDict([])),
                                      GetOr(envelope.value, "execution_time", VInt(0)), now);
      if appended.Raised? {
        return Raised(appended.message);
      }
      r := Ok(Set(envelope.value, "session_id", VStr(id)));
    }
  }
}
