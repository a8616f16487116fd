/** `BaseDynamicAgent`: the envelope every agent wraps around its language-model call. It merges the
    scenario's adaptations, builds the gateway request, turns the gateway's answer and the agent's own
    post-processing into a success or failure record, and logs exactly one audit entry per call. */
module BaseAgent {
  import opened Wrappers
  import opened Dicts
  import opened Shared
  import opened Text
  import opened Config
  import opened Audit

  // ---------------------------------------------------------------------------------------------
  // Adaptations and the gateway request

  /** `_get_scenario_adaptations`: the agent's base adaptations, overridden key by key by the scenario's. */
  function ScenarioAdaptations(base: Adaptations, k: AgentKey, scenario: string): (a: Adaptations)
    requires base.Valid()
    ensures a.Valid()
  {
    Merge(base, Overrides(scenario, k))
  }

  /** A key the scenario overrides takes the scenario's value, every other key keeps its base value; the
      base keys keep their order and the scenario's new keys follow. */
  lemma ScenarioAdaptationsSpec(base: Adaptations, k: AgentKey, scenario: string, p: string)
    requires base.Valid()
    ensures ScenarioAdaptations(base, k, scenario).Get(p)
            == if p in Overrides(scenario, k).values then Overrides(scenario, k).Get(p) else base.Get(p)
    ensures ScenarioAdaptations(base, k, scenario).keys == base.keys + Fresh(Overrides(scenario, k).keys, base.values)
  {
    MergeSpec(base, Overrides(scenario, k));
  }

  /** A scenario outside the catalogue leaves the base adaptations as they are. */
  lemma UnknownScenarioKeepsBase(base: Adaptations, k: AgentKey, scenario: string)
    requires base.Valid() && ScenarioName(scenario).None?
    ensures ScenarioAdaptations(base, k, scenario) == base
  {
    MergeSpec(base, Empty());
  }

  /** `adaptations.get("temperature", 0.7)`. */
  function Temperature(a: Adaptations): Value {
    a.Get("temperature").GetOr(Num(0.7))
  }

  /** `adaptations.get("max_tokens", 2000)`. */
  function MaxTokens(a: Adaptations): Value {
    a.Get("max_tokens").GetOr(Num(2000.0))
  }

  /** What `template.format(**template_vars)` did: the text, or the name of the first slot it had no value
      for. */
  datatype FormatOutcome = Formatted(text: string) | MissingKey(key: string)

  /** `_generate_dynamic_system_prompt`: on a missing slot `k`, the raw template with every `{k}` replaced.
      The slot has no value by construction, so the replacement is always "N/A". */
  function SystemPrompt(template: string, outcome: FormatOutcome): (p: string)
    ensures outcome.Formatted? ==> p == outcome.text
  {
    match outcome
    case Formatted(text) => text
    case MissingKey(k) => ReplaceAll(template, "{" + k + "}", "N/A")
  }

  /** On a missing slot `k`: a template without `{k}` is used as it is, and when `k` holds none of the
      characters of "N/A" no `{k}` is left in the prompt. */
  lemma SystemPromptFallback(template: string, k: string)
    ensures !Contains(template, "{" + k + "}") ==> SystemPrompt(template, MissingKey(k)) == template
    ensures 'N' !in k && '/' !in k && 'A' !in k ==> !Contains(SystemPrompt(template, MissingKey(k)), "{" + k + "}")
  {
    var slot := "{" + k + "}";
    if !Contains(template, slot) {
      ReplaceAbsent(template, slot, "N/A");
    }
    if 'N' !in k && '/' !in k && 'A' !in k {
      forall c | c in "N/A" ensures c !in slot {
        assert slot == ['{'] + k + ['}'];
      }
      ReplaceRemoves(template, slot, "N/A");
    }
  }

  /** On a missing slot `k`, the text before the first `{k}` is kept, that `{k}` becomes "N/A", and the rest
      of the template is rewritten the same way. */
  lemma SystemPromptSplit(before: string, k: string, after: string)
    requires forall i: nat :: i < |before| ==> !OccursAt(before + ("{" + k + "}") + after, "{" + k + "}", i)
    ensures SystemPrompt(before + ("{" + k + "}") + after, MissingKey(k))
            == before + "N/A" + SystemPrompt(after, MissingKey(k))
  {
    var slot := "{" + k + "}";
    var whole := before + slot + after;
    assert whole == before + (slot + after);
    forall i: nat | i < |before| ensures !OccursAt(before + (slot + after), slot, i) {
      assert !OccursAt(whole, slot, i);
    }
    ReplaceKeepsPrefix(before, slot + after, slot, "N/A");
    assert (slot + after)[..|slot|] == slot && (slot + after)[|slot|..] == after;
    assert ReplaceAll(slot + after, slot, "N/A") == "N/A" + ReplaceAll(after, slot, "N/A");
  }

  /** The prompts an agent built: its system template and how formatting it went, and the user prompt. */
  datatype Prompts = Prompts(template: string, system: FormatOutcome, user: string)

  /** The arguments of `generate_completion`. */
  datatype GatewayRequest = GatewayRequest(
    systemPrompt: string, userPrompt: string, temperature: Value, maxTokens: Value, responseFormat: string)

  /** What the gateway answers. */
  datatype GatewayResponse = GatewayResponse(success: bool, content: string, totalTokens: nat, error: string, modelUsed: string)

  /** The request an agent sends: the adaptations' `temperature` and `max_tokens`, 0.7 and 2000 where they
      set none, and always a JSON response. */
  function Request(a: Adaptations, p: Prompts): (req: GatewayRequest)
    ensures req.responseFormat == "json"
    ensures req.systemPrompt == SystemPrompt(p.template, p.system) && req.userPrompt == p.user
    ensures "temperature" in a.values ==> req.temperature == a.values["temperature"]
    ensures "temperature" !in a.values ==> req.temperature == Num(0.7)
    ensures "max_tokens" in a.values ==> req.maxTokens == a.values["max_tokens"]
    ensures "max_tokens" !in a.values ==> req.maxTokens == Num(2000.0)
  {
    GatewayRequest(SystemPrompt(p.template, p.system), p.user, Temperature(a), MaxTokens(a), "json")
  }

  // ---------------------------------------------------------------------------------------------
  // The envelope

  /** The result of `process_dynamic`. A failure carries `tokens_used` 0 and no model. */
  datatype Envelope<D> =
    | Succeeded(
        agentName: string, scenario: string, data: D, adaptationsUsed: Adaptations,
        processingTime: real, tokensUsed: nat, modelUsed: string, timestamp: string, agentKey: string)
    | FailedEnvelope(agentName: string, scenario: string, error: string, processingTime: real)
  {
    /** The `performance` block. */
    function Performance(): Metrics {
      match this
      case Succeeded(_, _, _, _, time, tokens, model, _, _) => Metrics(Some(time), Some(tokens), Some(model))
      case FailedEnvelope(_, _, _, time) => Metrics(Some(time), Some(0), None)
    }
  }

  const LlmFailedPrefix := "LLM call failed: "

  /** `process_dynamic` as a value, for an agent whose scenario adaptations are `adaptations`: `prompts` is
      the prompt building (a failure is the text of what it raised), `gateway` the model call, `process`
      the agent's `_process_llm_response` (a failure is the text of what it raised), and `elapsed` and
      `startedAt` the clock readings. */
  function Run<D>(
    k: AgentKey, adaptations: Adaptations, scenario: string, prompts: Result<Prompts, string>,
    gateway: GatewayRequest -> GatewayResponse, process: string -> Result<D, string>,
    elapsed: real, startedAt: string): (r: Envelope<D>)
    ensures r.agentName == AgentName(k) && r.scenario == scenario && r.processingTime == elapsed
    ensures r.Succeeded? <==>
              && prompts.Success?
              && gateway(Request(adaptations, prompts.value)).success
              && process(gateway(Request(adaptations, prompts.value)).content).Success?
    ensures prompts.Success? && !gateway(Request(adaptations, prompts.value)).success ==>
              && r.FailedEnvelope?
              && r.error == LlmFailedPrefix + gateway(Request(adaptations, prompts.value)).error
              && r.Performance().tokensUsed == Some(0)
    ensures r.Succeeded? ==>
              var resp := gateway(Request(adaptations, prompts.value));
              && r.data == process(resp.content).value
              && r.adaptationsUsed == adaptations
              && r.tokensUsed == resp.totalTokens
              && r.modelUsed == resp.modelUsed
              && r.agentKey == KeyName(k)
              && r.timestamp == startedAt
  {
    match prompts
    case Failure(e) => FailedEnvelope(AgentName(k), scenario, e, elapsed)
    case Success(p) =>
      var resp := gateway(Request(adaptations, p));
      if !resp.success then FailedEnvelope(AgentName(k), scenario, LlmFailedPrefix + resp.error, elapsed)
      else
        match process(resp.content)
        case Failure(e) => FailedEnvelope(AgentName(k), scenario, e, elapsed)
        case Success(data) =>
          Succeeded(AgentName(k), scenario, data, adaptations,
                    elapsed, resp.totalTokens, resp.modelUsed, startedAt, KeyName(k))
  }

  /** The audit entry a call leaves: a success logs its adaptations and performance, a failure neither. */
  function EntryFor<I, D>(
    k: AgentKey, adaptations: Adaptations, scenario: string, input: I, r: Envelope<D>, logId: string, loggedAt: string)
    : (e: LogEntry<I, Envelope<D>>)
    ensures e.success == r.Succeeded? && e.output == r && e.input == input
    ensures e.agentName == AgentName(k) && e.scenario == scenario && e.action == "dynamic_processing"
    ensures r.Succeeded? ==> e.adaptations == adaptations && e.performance == r.Performance()
    ensures r.FailedEnvelope? ==> e.adaptations == Empty() && e.performance == NoMetrics
  {
    var succeeded := r.Succeeded?;
    LogEntry(logId, loggedAt, AgentName(k), scenario, "dynamic_processing", input, r,
             if succeeded then adaptations else Empty(),
             if succeeded then r.Performance() else NoMetrics, succeeded)
  }

  /** One agent, bound to its configuration and the shared audit logger. */
  class Agent<I, D> {
    const key: AgentKey
    /** `config.dynamic_adaptations`. */
    const base: Adaptations
    const logger: AuditLog<I, Envelope<D>>

    constructor(key: AgentKey, logger: AuditLog<I, Envelope<D>>)
      ensures this.key == key && this.base == BaseAdaptations(key) && this.logger == logger
    {
      this.key := key;
      this.base := BaseAdaptations(key);
      this.logger := logger;
    }

    /** `process_dynamic`: one gateway call, one envelope, one audit entry. */
    method ProcessDynamic(
      input: I, scenario: string, prompts: Result<Prompts, string>,
      gateway: GatewayRequest -> GatewayResponse, process: string -> Result<D, string>,
      elapsed: real, startedAt: string, logId: string, loggedAt: string)
      returns (r: Envelope<D>)
      requires base.Valid()
      modifies logger
      ensures r == Run(key, ScenarioAdaptations(base, key, scenario), scenario, prompts, gateway, process, elapsed, startedAt)
      ensures logger.logs
              == old(logger.logs) + [EntryFor(key, ScenarioAdaptations(base, key, scenario), scenario, input, r, logId, loggedAt)]
    {
      var adaptations := ScenarioAdaptations(base, key, scenario);
      if prompts.Failure? {
        r := FailedEnvelope(AgentName(key), scenario, prompts.error, elapsed);
      } else {
        var response := gateway(Request(adaptations, prompts.value));
        if !response.success {
          r := FailedEnvelope(AgentName(key), scenario, LlmFailedPrefix + response.error, elapsed);
        } else {
          var processed := process(response.content);
          if processed.Failure? {
            r := FailedEnvelope(AgentName(key), scenario, processed.error, elapsed);
          } else {
            r := Succeeded(AgentName(key), scenario, processed.value, adaptations,
                           elapsed, response.totalTokens, response.modelUsed, startedAt, KeyName(key));
          }
        }
      }
      var logged := if r.Succeeded? then Some(adaptations) else None;
      var metrics := if r.Succeeded? then Some(r.Performance()) else None;
      var _ := logger.LogExecution(logId, loggedAt, AgentName(key), scenario, "dynamic_processing",
                                   input, r, logged, metrics, r.Succeeded?);
    }
  }
}
