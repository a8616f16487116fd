/** `SimpleWorkflowEngine.execute_dynamic_workflow`: runs the agents named in a sequence one after another,
    hands each the results of the agents that returned before it, records a failure for a name nobody is
    registered under or for an agent that raised, stops at the first critical failure, and closes with a
    summary entry. */
module Workflow {
  import opened Wrappers
  import opened Dicts

  const DefaultSequence: seq<string> := ["copywriter", "compliance", "feedback", "decision"]
  const SummaryKey := "workflow_summary"

  /** `agent_sequence or [...]`: a missing or empty sequence means the four agents in pipeline order. */
  function SequenceUsed(agentSequence: Option<seq<string>>): (s: seq<string>)
    ensures s != []
    ensures agentSequence.Some? && agentSequence.value != [] ==> s == agentSequence.value
    ensures agentSequence.None? || agentSequence.value == [] ==> s == DefaultSequence
  {
    if agentSequence.Some? && agentSequence.value != [] then agentSequence.value else DefaultSequence
  }

  /** What an agent returned: its `success` and `critical` flags (both false when absent) and the rest. */
  datatype Reply<D> = Reply(success: bool, critical: bool, body: D)

  /** An agent call either returns a reply or raises. */
  datatype Outcome<D> = Returned(reply: Reply<D>) | Raised(error: string)

  /** What an agent is called with: the caller's input, the workflow context and `previous_results`. */
  datatype AgentInput<I, D> = AgentInput(input: I, scenario: string, startedAt: string, previousResults: Dict<string, Reply<D>>)

  /** One entry of the result dictionary. */
  datatype Entry<D> =
    | Ran(reply: Reply<D>)
    | Unavailable(error: string)
    | Crashed(error: string, agentName: string)
    | Summary(scenario: string, totalAgents: nat, successfulAgents: nat, totalProcessingTime: real, sequenceUsed: seq<string>)
  {
    /** `r.get("success", False)`. */
    predicate Successful() {
      Ran? && reply.success
    }
  }

  function UnavailableError(name: string): string {
    "Agent " + name + " not available"
  }

  /** The failure that ends the run. */
  predicate CriticalFailure<D>(r: Reply<D>) {
    !r.success && r.critical
  }

  /** One run's fixed parameters: the registry, the agents behind it, and what every agent is handed. */
  datatype Job<!I, !D> = Job(
    registry: set<string>, invoke: (string, AgentInput<I, D>) -> Outcome<D>,
    input: I, scenario: string, startedAt: string)

  /** The loop's state: `results`, `workflow_context["agent_results"]`, and whether it broke out. */
  datatype State<D> = State(results: Dict<string, Entry<D>>, agentResults: Dict<string, Reply<D>>, stopped: bool)

  /** One pass of the loop body for `name`. */
  function Step<I, D>(job: Job<I, D>, st: State<D>, name: string): State<D> {
    if st.stopped then st
    else if name !in job.registry then st.(results := st.results.Put(name, Unavailable(UnavailableError(name))))
    else
      match job.invoke(name, AgentInput(job.input, job.scenario, job.startedAt, st.agentResults))
      case Raised(e) => st.(results := st.results.Put(name, Crashed(e, name)))
      case Returned(reply) =>
        State(st.results.Put(name, Ran(reply)), st.agentResults.Put(name, reply), CriticalFailure(reply))
  }

  /** The loop over `names`. */
  function Run<I, D>(job: Job<I, D>, names: seq<string>): State<D>
    decreases |names|
  {
    if names == [] then State(Empty(), Empty(), false)
    else Step(job, Run(job, names[..|names| - 1]), names[|names| - 1])
  }

  /** `sum(1 for r in results.values() if r.get("success", False))`. */
  function CountSuccessful<D>(ks: seq<string>, m: map<string, Entry<D>>): (n: nat)
    ensures n <= |ks|
  {
    if ks == [] then 0
    else (if ks[0] in m && m[ks[0]].Successful() then 1 else 0) + CountSuccessful(ks[1..], m)
  }

  /** The returned dictionary: the loop's results, then the summary. */
  function Results<I, D>(job: Job<I, D>, names: seq<string>, elapsed: real): Dict<string, Entry<D>> {
    var results := Run(job, names).results;
    results.Put(SummaryKey, Summary(job.scenario, |names|, CountSuccessful(results.keys, results.values), elapsed, names))
  }

  // ---------------------------------------------------------------------------------------------
  // The engine

  class Engine<I, D> {
    /** The names in `self.agents`. */
    const registry: set<string>
    /** `await self.agents[name].process_dynamic(agent_input, scenario)`. */
    const invoke: (string, AgentInput<I, D>) -> Outcome<D>

    constructor(registry: set<string>, invoke: (string, AgentInput<I, D>) -> Outcome<D>)
      ensures this.registry == registry && this.invoke == invoke
    {
      this.registry := registry;
      this.invoke := invoke;
    }

    /** `execute_dynamic_workflow`, with the clock readings as parameters. */
    method ExecuteDynamicWorkflow(
      scenario: string, input: I, agentSequence: Option<seq<string>>, startedAt: string, elapsed: real)
      returns (results: Dict<string, Entry<D>>)
      ensures results == Results(Job(registry, invoke, input, scenario, startedAt), SequenceUsed(agentSequence), elapsed)
    {
      ghost var job := Job(registry, invoke, input, scenario, startedAt);
      var sequence := SequenceUsed(agentSequence);
      results := Empty();
      var agentResults: Dict<string, Reply<D>> := Empty();
      var i := 0;
      while i < |sequence|
        invariant i <= |sequence|
        invariant Run(job, sequence[..i]) == State(results, agentResults, false)
      {
        var name := sequence[i];
        RunPrefix(job, sequence, i);
        if name !in registry {
          results := results.Put(name, Unavailable(UnavailableError(name)));
          i := i + 1;
          continue;
        }
        var outcome := invoke(name, AgentInput(input, scenario, startedAt, agentResults));
        match outcome {
          case Raised(e) =>
            results := results.Put(name, Crashed(e, name));
          case Returned(reply) =>
            results := results.Put(name, Ran(reply));
            agentResults := agentResults.Put(name, reply);
            if !reply.success && reply.critical {
              StoppedAt(job, sequence, i);
              break;
            }
        }
        i := i + 1;
      }
      assert sequence[..|sequence|] == sequence;
      results := results.Put(SummaryKey, Summary(scenario, |sequence|, CountSuccessful(results.keys, results.values), elapsed, sequence));
    }
  }

  // ---------------------------------------------------------------------------------------------
  // Properties of a run

  /** Once the loop has broken out, later names change nothing. */
  lemma {:induction false} StoppedStays<I, D>(job: Job<I, D>, names: seq<string>, rest: seq<string>)
    requires Run(job, names).stopped
    ensures Run(job, names + rest) == Run(job, names)
    decreases |rest|
  {
    if rest != [] {
      var init := rest[..|rest| - 1];
      assert (names + rest)[..|names + rest| - 1] == names + init;
      StoppedStays(job, names, init);
      assert Run(job, names + rest) == Step(job, Run(job, names + init), rest[|rest| - 1]);
    } else {
      assert names + rest == names;
    }
  }

  /** The loop after one more name. */
  lemma RunPrefix<I, D>(job: Job<I, D>, names: seq<string>, i: nat)
    requires i < |names|
    ensures Run(job, names[..i + 1]) == Step(job, Run(job, names[..i]), names[i])
  {
    assert names[..i + 1][..i] == names[..i];
  }

  /** A loop that broke out at name `i` ends there. */
  lemma StoppedAt<I, D>(job: Job<I, D>, names: seq<string>, i: nat)
    requires i < |names| && Run(job, names[..i + 1]).stopped
    ensures Run(job, names) == Run(job, names[..i + 1])
  {
    StoppedStays(job, names[..i + 1], names[i + 1..]);
    assert names[..i + 1] + names[i + 1..] == names;
  }

  /** Both dictionaries are well formed, every result key is a name of the sequence, and there are at most
      as many keys as names. */
  lemma {:induction false} RunKeys<I, D>(job: Job<I, D>, names: seq<string>)
    ensures Run(job, names).results.Valid() && Run(job, names).agentResults.Valid()
    ensures forall n :: n in Run(job, names).results.values ==> n in names
    ensures |Run(job, names).results.keys| <= |names|
    decreases |names|
  {
    if names != [] {
      RunKeys(job, names[..|names| - 1]);
    }
  }

  /** A loop that did not break out has an entry for every name. */
  lemma {:induction false} RunComplete<I, D>(job: Job<I, D>, names: seq<string>)
    requires !Run(job, names).stopped
    ensures forall n :: n in names ==> n in Run(job, names).results.values
    decreases |names|
  {
    if names != [] {
      var init := names[..|names| - 1];
      assert !Run(job, init).stopped;
      RunComplete(job, init);
      assert names == init + [names[|names| - 1]];
    }
  }

  /** Every name the loop reached before breaking out has an entry, whether or not it broke out later. */
  lemma {:induction false} ReachedHasEntry<I, D>(job: Job<I, D>, names: seq<string>, j: nat)
    requires j < |names| && !Run(job, names[..j]).stopped
    ensures names[j] in Run(job, names).results.values
    decreases |names|
  {
    var init := names[..|names| - 1];
    if j == |names| - 1 {
      assert names[..j] == init;
    } else {
      assert init[..j] == names[..j];
      ReachedHasEntry(job, init, j);
    }
  }

  /** The loop breaks out exactly when a stored reply is a critical failure: a failure that is not
      critical, an unavailable name and a raised exception never stop it. */
  lemma {:induction false} StopsOnCriticalFailure<I, D>(job: Job<I, D>, names: seq<string>)
    ensures Run(job, names).stopped <==>
              exists n :: n in Run(job, names).results.values && Run(job, names).results.values[n].Ran?
                            && CriticalFailure(Run(job, names).results.values[n].reply)
    decreases |names|
  {
    if names != [] {
      var init, name := names[..|names| - 1], names[|names| - 1];
      StopsOnCriticalFailure(job, init);
      var before, after := Run(job, init), Run(job, names);
      if !before.stopped {
        forall n | n in after.results.values && after.results.values[n].Ran?
          ensures CriticalFailure(after.results.values[n].reply) ==> after.stopped
        {
          if n != name {
            assert before.results.values[n] == after.results.values[n];
          }
        }
        if after.stopped {
          assert after.results.values[name].Ran?;
        }
      }
    }
  }

  /** `previous_results` holds exactly the replies of registered agents that returned: a name with a stored
      reply has it there, and a name there is registered and was run or raised on its latest call. */
  lemma {:induction false} AgentResultsSpec<I, D>(job: Job<I, D>, names: seq<string>)
    ensures forall n :: n in Run(job, names).results.values && Run(job, names).results.values[n].Ran? ==>
              Run(job, names).agentResults.Get(n) == Some(Run(job, names).results.values[n].reply)
    ensures forall n :: n in Run(job, names).agentResults.values ==>
              && n in job.registry
              && n in Run(job, names).results.values
              && (Run(job, names).results.values[n].Ran? || Run(job, names).results.values[n].Crashed?)
    decreases |names|
  {
    if names != [] {
      AgentResultsSpec(job, names[..|names| - 1]);
    }
  }

  /** A name outside the registry is recorded as unavailable; a registered one as its reply or as the
      exception it raised, tagged with its name. */
  lemma {:induction false} EntryKinds<I, D>(job: Job<I, D>, names: seq<string>, n: string)
    requires n in Run(job, names).results.values
    ensures n !in job.registry ==> Run(job, names).results.values[n] == Unavailable(UnavailableError(n))
    ensures n in job.registry ==>
              || Run(job, names).results.values[n].Ran?
              || (Run(job, names).results.values[n].Crashed? && Run(job, names).results.values[n].agentName == n)
    decreases |names|
  {
    var init := names[..|names| - 1];
    if n in Run(job, init).results.values {
      EntryKinds(job, init, n);
    }
  }

  /** The returned dictionary: the loop's keys, then `workflow_summary` unless a name already took it; the
      summary counts every name and at most that many successes; other entries are the loop's. */
  lemma ResultsSpec<I, D>(job: Job<I, D>, names: seq<string>, elapsed: real, n: string)
    ensures Results(job, names, elapsed).keys
            == Run(job, names).results.keys + (if SummaryKey in Run(job, names).results.values then [] else [SummaryKey])
    ensures Results(job, names, elapsed).values[SummaryKey].totalAgents == |names|
    ensures Results(job, names, elapsed).values[SummaryKey].sequenceUsed == names
    ensures Results(job, names, elapsed).values[SummaryKey].successfulAgents <= |names|
    ensures n != SummaryKey ==> Results(job, names, elapsed).Get(n) == Run(job, names).results.Get(n)
  {
    RunKeys(job, names);
  }
}
