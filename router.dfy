// The router (`RouterAgent`): asks the language model which scenario agents
// a free-form request needs ("meeting", "email", "document"), repairs a
// reply that lacks required keys, and falls back to keyword scoring when the
// reply cannot be used at all.
module Router {
  import opened Wrappers
  import opened Seqs
  import opened Text
  import opened Values
  import opened Services
  import Dicts

  const MeetingScenario: string := "meeting"
  const EmailScenario: string := "email"
  const DocumentScenario: string := "document"

  const MeetingKeywords: seq<string> := ["meeting", "briefing", "prepare me", "talking points",
                                         "meet with", "meeting with", "call with", "presentation"]
  const EmailKeywords: seq<string> := ["email", "reply", "draft", "respond", "inbox",
                                       "mail", "message from", "write back"]
  const DocumentKeywords: seq<string> := ["document", "contract", "pdf", "clause", "analyze file",
                                          "upload", "extract", "review document"]

  // ---------------------------------------------------------------------
  // Keyword fallback
  // ---------------------------------------------------------------------

  /** How many of `keywords` occur in `lowered`; a keyword inside another
      one that also occurs counts on its own. */
  function Score(lowered: string, keywords: seq<string>): (r: nat)
    ensures r <= |keywords|
  {
    if keywords == [] then 0
    else Score(lowered, keywords[..|keywords| - 1]) + if Contains(lowered, keywords[|keywords| - 1]) then 1 else 0
  }

  /** A score is positive exactly when one of the keywords occurs. */
  lemma {:induction false} ScorePositive(lowered: string, keywords: seq<string>)
    ensures Score(lowered, keywords) > 0 <==> exists i :: 0 <= i < |keywords| && Contains(lowered, keywords[i])
  {
    if keywords != [] {
      var init := keywords[..|keywords| - 1];
      ScorePositive(lowered, init);
      if exists i :: 0 <= i < |init| && Contains(lowered, init[i]) {
        var i :| 0 <= i < |init| && Contains(lowered, init[i]);
        assert keywords[i] == init[i];
      }
      if exists i :: 0 <= i < |keywords| && Contains(lowered, keywords[i]) {
        var i :| 0 <= i < |keywords| && Contains(lowered, keywords[i]);
        if i < |init| {
          assert init[i] == keywords[i];
        }
      }
    }
  }

  /** `max(scores, key=scores.get)` over the dictionary meeting, email,
      document (the first of equal maxima wins), then 'meeting' unless that
      best score is positive. */
  function Choose(meeting: nat, email: nat, document: nat): (r: string)
    ensures r == MeetingScenario <==> meeting >= email && meeting >= document
    ensures r == EmailScenario <==> email > meeting && email >= document
    ensures r == DocumentScenario <==> document > meeting && document > email
  {
    var best := if meeting >= email && meeting >= document then MeetingScenario
                else if email >= document then EmailScenario
                else DocumentScenario;
    var bestScore := if best == MeetingScenario then meeting else if best == EmailScenario then email else document;
    if bestScore > 0 then best else MeetingScenario
  }

  /** `_fallback_classify`. */
  function FallbackClassify(prompt: string): string
  {
    var lowered := Lower(prompt);
    Choose(Score(lowered, MeetingKeywords), Score(lowered, EmailKeywords), Score(lowered, DocumentKeywords))
  }

  /** The fallback always names one of the three agents, and names 'meeting'
      when no keyword occurs at all. */
  lemma FallbackScenario(prompt: string)
    ensures var r := FallbackClassify(prompt);
      r == MeetingScenario || r == EmailScenario || r == DocumentScenario
    ensures (forall i :: 0 <= i < |MeetingKeywords| ==> !Contains(Lower(prompt), MeetingKeywords[i])) &&
            (forall i :: 0 <= i < |EmailKeywords| ==> !Contains(Lower(prompt), EmailKeywords[i])) &&
            (forall i :: 0 <= i < |DocumentKeywords| ==> !Contains(Lower(prompt), DocumentKeywords[i]))
            ==> FallbackClassify(prompt) == MeetingScenario
  {
    var lowered := Lower(prompt);
    ScorePositive(lowered, MeetingKeywords);
    ScorePositive(lowered, EmailKeywords);
    ScorePositive(lowered, DocumentKeywords);
  }

  /** `_fallback_params`: the prompt under the one scenario's key. */
  function FallbackParams(scenario: string, prompt: string): Value
  {
    if scenario == MeetingScenario then
      Dict([(MeetingScenario, Dict([("company_name", VStr("")), ("meeting_context", VStr(prompt))]))])
    else if scenario == EmailScenario then
      Dict([(EmailScenario, Dict([("email_content", VStr(prompt)), ("company_name", VStr(""))]))])
    else if scenario == DocumentScenario then
      Dict([(DocumentScenario, Dict([("question", VStr(prompt)), ("file_hint", VStr(""))]))])
    else Dict([])
  }

  /** The fallback parameters hold only the scenario's key; the prompt
      becomes the meeting context, the email content or the question, and a
      meeting gets an empty company name. */
  lemma FallbackParamsShape(scenario: string, prompt: string)
    ensures var r := FallbackParams(scenario, prompt);
      r.VDict? &&
      (scenario in {MeetingScenario, EmailScenario, DocumentScenario} ==> Dicts.Keys(r.entries) == [VStr(scenario)]) &&
      (scenario !in {MeetingScenario, EmailScenario, DocumentScenario} ==> r.entries == [])
    ensures scenario == MeetingScenario ==>
      var p := Get(FallbackParams(scenario, prompt), scenario).value;
      p.VDict? && Get(p, "company_name") == Some(VStr("")) && Get(p, "meeting_context") == Some(VStr(prompt))
    ensures scenario == EmailScenario ==>
      var p := Get(FallbackParams(scenario, prompt), scenario).value;
      p.VDict? && Get(p, "email_content") == Some(VStr(prompt))
    ensures scenario == DocumentScenario ==>
      var p := Get(FallbackParams(scenario, prompt), scenario).value;
      p.VDict? && Get(p, "question") == Some(VStr(prompt))
  {
    var r := FallbackParams(scenario, prompt);
    if scenario in {MeetingScenario, EmailScenario, DocumentScenario} {
      assert Dicts.Keys(r.entries) == [r.entries[0].0];
      DictGet([(scenario, Get(r, scenario).value)], 0);
    }
    if scenario == MeetingScenario {
      var pairs := [("company_name", VStr("")), ("meeting_context", VStr(prompt))];
      assert Get(r, scenario) == Some(Dict(pairs)) by {
        DictGet([(MeetingScenario, Dict(pairs))], 0);
      }
      DictGet(pairs, 0);
      assert pairs[0].0[0] == 'c';
      DictGet(pairs, 1);
    } else if scenario == EmailScenario {
      var pairs := [("email_content", VStr(prompt)), ("company_name", VStr(""))];
      assert Get(r, scenario) == Some(Dict(pairs)) by {
        DictGet([(EmailScenario, Dict(pairs))], 0);
      }
      DictGet(pairs, 0);
    } else if scenario == DocumentScenario {
      var pairs := [("question", VStr(prompt)), ("file_hint", VStr(""))];
      assert Get(r, scenario) == Some(Dict(pairs)) by {
        DictGet([(DocumentScenario, Dict(pairs))], 0);
      }
      DictGet(pairs, 0);
    }
  }

  // ---------------------------------------------------------------------
  // Classification
  // ---------------------------------------------------------------------

  /** `v[0]` raised: the message of that exception. */
  function FirstErrorMessage(v: Value): string
  {
    if v.VDict? then KeyErrorMessage else TypeErrorMessage
  }

  /** The checks `classify` runs on the decoded reply: a missing or empty
      scenario list becomes the keyword fallback (and then names the primary
      scenario too), a missing primary scenario becomes the first scenario,
      missing parameters become `{}`. Anything but a dictionary raises. */
  function Repaired(result: Value, prompt: string): (r: Result<Value>)
    ensures r.Ok? ==> r.value.VDict?
  {
    if !result.VDict? then Raised(TypeErrorMessage)
    else
      var withScenarios := WithScenarios(result, prompt);
      var scenarios := GetOr(withScenarios, "scenarios", VNone);
      if !Has(withScenarios, "primary_scenario") && First(scenarios).None? then Raised(FirstErrorMessage(scenarios))
      else Ok(WithParams(WithPrimary(withScenarios)))
  }

  /** The first repair: a missing or falsy scenario entry becomes the
      keyword fallback, which then also names the primary scenario. */
  function WithScenarios(result: Value, prompt: string): (r: Value)
    requires result.VDict?
    ensures r.VDict? && Has(r, "scenarios") && Truthy(Get(r, "scenarios").value)
    ensures Has(result, "scenarios") && Truthy(Get(result, "scenarios").value) ==> r == result
  {
    if !Has(result, "scenarios") || !Truthy(Get(result, "scenarios").value) then
      var scenario := FallbackClassify(prompt);
      var fallback := Set(result, "scenarios", VList([VStr(scenario)]));
      SetOther(fallback, "primary_scenario", VStr(scenario), "scenarios");
      Set(fallback, "primary_scenario", VStr(scenario))
    else result
  }

  /** The second repair: a missing primary scenario becomes the first
      scenario; the other keys stay as they were. */
  function WithPrimary(result: Value): (r: Value)
    requires result.VDict?
    requires Has(result, "primary_scenario") || First(GetOr(result, "scenarios", VNone)).Some?
    ensures r.VDict? && Has(r, "primary_scenario")
    ensures Has(result, "primary_scenario") ==> r == result
    ensures !Has(result, "primary_scenario") ==>
      Get(r, "primary_scenario") == First(GetOr(result, "scenarios", VNone))
    ensures forall k :: k != "primary_scenario" ==> Get(r, k) == Get(result, k)
  {
    if Has(result, "primary_scenario") then result
    else
      var first := First(GetOr(result, "scenarios", VNone)).value;
      forall k | k != "primary_scenario" ensures Get(Set(result, "primary_scenario", first), k) == Get(result, k) {
        SetOther(result, "primary_scenario", first, k);
      }
      Set(result, "primary_scenario", first)
  }

  /** The last repair: missing parameters become `{}`. */
  function WithParams(result: Value): (r: Value)
    requires result.VDict?
    ensures r.VDict? && Has(r, "params")
    ensures Has(result, "params") ==> r == result
    ensures forall k :: k != "params" ==> Get(r, k) == Get(result, k)
  {
    if Has(result, "params") then result
    else
      forall k | k != "params" ensures Get(Set(result, "params", VDict([])), k) == Get(result, k) {
        SetOther(result, "params", VDict([]), k);
      }
      Set(result, "params", VDict([]))
  }

  /** The dictionary `classify` returns from its `except` branch. */
  function FallbackRoute(prompt: string, message: string): Value
  {
    var scenario := FallbackClassify(prompt);
    FallbackRouteFor(scenario, FallbackParams(scenario, prompt), prompt, message)
  }

  function FallbackRouteFor(scenario: string, params: Value, prompt: string, message: string): Value
  {
    Dict([
      ("scenarios", VList([VStr(scenario)])),
      ("primary_scenario", VStr(scenario)),
      ("params", params),
      ("summary", VStr(prompt)),
      ("router_error", VStr(message))])
  }

  /** What the `try` block of `classify` ends with, before the `except`. */
  function Attempt(reply: LlmReply, parse: string -> ParseOutcome, prompt: string): Result<Value>
  {
    if reply.content.None? then Raised(NoneStripMessage)
    else match parse(Cleaned(reply.content.value))
      case DecodeError(m) => Raised(m)
      case Parsed(v) => Repaired(v, prompt)
  }

  /** `classify(prompt)` given the model's reply and the JSON decoder. */
  function Classified(reply: LlmReply, parse: string -> ParseOutcome, prompt: string): Value
  {
    match Attempt(reply, parse, prompt)
    case Ok(v) => v
    case Raised(m) => FallbackRoute(prompt, m)
  }

  /** Every classification has a truthy scenario entry, a primary scenario
      and parameters. */
  predicate WellFormed(c: Value)
  {
    c.VDict? && Has(c, "scenarios") && Truthy(Get(c, "scenarios").value) &&
    Has(c, "primary_scenario") && Has(c, "params")
  }

  lemma RepairedWellFormed(result: Value, prompt: string)
    requires Repaired(result, prompt).Ok?
    ensures WellFormed(Repaired(result, prompt).value)
  {
    var w := WithScenarios(result, prompt);
    var p := WithPrimary(w);
    assert Repaired(result, prompt) == Ok(WithParams(p));
    assert Has(p, "scenarios") && Get(p, "scenarios") == Get(w, "scenarios");
  }

  lemma FallbackRouteShape(prompt: string, message: string)
    ensures var c := FallbackRoute(prompt, message);
      var scenario := FallbackClassify(prompt);
      WellFormed(c) &&
      Get(c, "scenarios") == Some(VList([VStr(scenario)])) &&
      Get(c, "primary_scenario") == Some(VStr(scenario)) &&
      Get(c, "params") == Some(FallbackParams(scenario, prompt)) &&
      Get(c, "summary") == Some(VStr(prompt)) &&
      Get(c, "router_error") == Some(VStr(message))
  {
    var scenario := FallbackClassify(prompt);
    var c := FallbackRouteFor(scenario, FallbackParams(scenario, prompt), prompt, message);
    FallbackRouteForShape(scenario, FallbackParams(scenario, prompt), prompt, message);
    assert FallbackRoute(prompt, message) == c;
    assert Has(c, "scenarios") && Has(c, "primary_scenario") && Has(c, "params");
    assert Truthy(Get(c, "scenarios").value);
  }

  lemma FallbackRouteForShape(scenario: string, params: Value, prompt: string, message: string)
    ensures var c := FallbackRouteFor(scenario, params, prompt, message);
      c.VDict? &&
      Get(c, "scenarios") == Some(VList([VStr(scenario)])) &&
      Get(c, "primary_scenario") == Some(VStr(scenario)) &&
      Get(c, "params") == Some(params) &&
      Get(c, "summary") == Some(VStr(prompt)) &&
      Get(c, "router_error") == Some(VStr(message))
  {
    var pairs := [
      ("scenarios", VList([VStr(scenario)])),
      ("primary_scenario", VStr(scenario)),
      ("params", params),
      ("summary", VStr(prompt)),
      ("router_error", VStr(message))];
    DictGets(pairs);
    assert pairs[0].0 == "scenarios" && pairs[1].0 == "primary_scenario" && pairs[2].0 == "params" &&
           pairs[3].0 == "summary" && pairs[4].0 == "router_error";
  }

  /** `classify` never fails to name a scenario: whatever the model says, the
      result has a truthy scenario entry, a primary scenario and parameters. */
  lemma ClassifiedWellFormed(reply: LlmReply, parse: string -> ParseOutcome, prompt: string)
    ensures WellFormed(Classified(reply, parse, prompt))
  {
    match Attempt(reply, parse, prompt)
    case Ok(v) =>
      RepairedWellFormed(parse(Cleaned(reply.content.value)).value, prompt);
    case Raised(m) =>
      FallbackRouteShape(prompt, m);
  }

  /** A reply the model did not deliver, or one the decoder rejects, or one
      that is not a JSON object, takes the keyword fallback: a single
      scenario that is also the primary one, the prompt as summary, and the
      exception's message as `router_error`. */
  lemma ClassifiedFallsBack(reply: LlmReply, parse: string -> ParseOutcome, prompt: string)
    requires reply.content.None? || parse(Cleaned(reply.content.value)).DecodeError? ||
             !parse(Cleaned(reply.content.value)).value.VDict?
    ensures var c := Classified(reply, parse, prompt);
      var scenario := FallbackClassify(prompt);
      Get(c, "scenarios") == Some(VList([VStr(scenario)])) &&
      Get(c, "primary_scenario") == Some(VStr(scenario)) &&
      Get(c, "summary") == Some(VStr(prompt)) &&
      Has(c, "router_error")
  {
    FallbackRouteShape(prompt, Attempt(reply, parse, prompt).message);
  }

  /** A decoded object that already has a truthy scenario entry, a primary
      scenario and parameters is returned unchanged. */
  lemma RepairedKeepsComplete(v: Value, prompt: string)
    requires WellFormed(v)
    ensures Repaired(v, prompt) == Ok(v)
  {
    assert WithScenarios(v, prompt) == v;
  }

  /** A non-empty scenario list without a primary scenario makes its first
      entry the primary one and stays as it was. */
  lemma RepairedPrimaryIsFirst(v: Value, prompt: string)
    requires v.VDict? && Get(v, "scenarios").Some? && Get(v, "scenarios").value.VList?
    requires Get(v, "scenarios").value.items != [] && !Has(v, "primary_scenario")
    ensures Repaired(v, prompt).Ok?
    ensures Get(Repaired(v, prompt).value, "scenarios") == Get(v, "scenarios")
    ensures Get(Repaired(v, prompt).value, "primary_scenario") == Some(Get(v, "scenarios").value.items[0])
  {
    var scenarios := Get(v, "scenarios").value;
    assert Truthy(scenarios);
    assert WithScenarios(v, prompt) == v;
    assert GetOr(v, "scenarios", VNone) == scenarios;
    var p := WithPrimary(v);
    assert Get(p, "scenarios") == Some(scenarios) && Get(p, "primary_scenario") == First(scenarios);
    assert Repaired(v, prompt) == Ok(WithParams(p));
  }

  /** A truthy scenario entry that is a string (not a list) is kept, and the
      primary scenario becomes its first character. */
  lemma RepairedStringScenarios(v: Value, prompt: string)
    requires v.VDict? && Get(v, "scenarios").Some? && Get(v, "scenarios").value.VStr?
    requires Get(v, "scenarios").value.s != [] && !Has(v, "primary_scenario")
    ensures Repaired(v, prompt).Ok?
    ensures Get(Repaired(v, prompt).value, "scenarios") == Get(v, "scenarios")
    ensures Get(Repaired(v, prompt).value, "primary_scenario") == Some(VStr([Get(v, "scenarios").value.s[0]]))
  {
    var scenarios := Get(v, "scenarios").value;
    assert Truthy(scenarios);
    assert WithScenarios(v, prompt) == v;
    assert GetOr(v, "scenarios", VNone) == scenarios;
    var p := WithPrimary(v);
    assert Get(p, "scenarios") == Some(scenarios) && Get(p, "primary_scenario") == First(scenarios);
    assert Repaired(v, prompt) == Ok(WithParams(p));
  }

  /** A decoded reply that survives the repairs is what `classify` returns. */
  lemma ClassifiedRepaired(reply: LlmReply, parse: string -> ParseOutcome, prompt: string)
    requires reply.content.Some? && parse(Cleaned(reply.content.value)).Parsed?
    requires Repaired(parse(Cleaned(reply.content.value)).value, prompt).Ok?
    ensures Classified(reply, parse, prompt) == Repaired(parse(Cleaned(reply.content.value)).value, prompt).value
  {
  }

  /** `classify`: fills in the keys the decoded reply lacks, step by step,
      or takes the keyword fallback when that raises. */
  method Classify(reply: LlmReply, parse: string -> ParseOutcome, prompt: string) returns (r: Value)
    ensures r == Classified(reply, parse, prompt)
    ensures WellFormed(r)
  {
    ClassifiedWellFormed(reply, parse, prompt);
    if reply.content.None? {
      return FallbackRoute(prompt, NoneStripMessage);
    }
    var cleaned := Cleaned(reply.content.value);
    var decoded := parse(cleaned);
    if decoded.DecodeError? {
      return FallbackRoute(prompt, decoded.message);
    }
    var result := decoded.value;
    if !result.VDict? {
      return FallbackRoute(prompt, TypeErrorMessage);
    }
    if !Has(result, "scenarios") || !Truthy(Get(result, "scenarios").value) {
      result := Set(result, "scenarios", VList([VStr(FallbackClassify(prompt))]));
      result := Set(result, "primary_scenario", VStr(FallbackClassify(prompt)));
    }
    assert result == WithScenarios(decoded.value, prompt);
    ghost var withScenarios := result;
    if !Has(result, "primary_scenario") {
      var first := First(GetOr(result, "scenarios", VNone));
      if first.None? {
        return FallbackRoute(prompt, FirstErrorMessage(GetOr(result, "scenarios", VNone)));
      }
      result := Set(result, "primary_scenario", first.value);
    }
    assert result == WithPrimary(withScenarios);
    if !Has(result, "params") {
      result := Set(result, "params", VDict([]));
    }
    r := result;
  }
}
