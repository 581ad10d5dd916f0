/**
 * The AI provider manager: a registry of initialised providers, the
 * fallback `generate` loop over it, health checks, provider choice and the
 * completion-token bound of the cost estimate.
 */
module AiManager {
  import opened Wrappers
  import opened Seqs
  import opened Fallback
  import BaseAiProvider

  /** What initializeProviders reads: `config.providers.openai` and OPENAI_API_KEY. */
  datatype Setup = Setup(defaultProvider: Option<string>, openaiConfigured: bool,
                         apiKey: Option<string>, openaiConstructs: bool)

  /** `Math.min(provider.maxTokens || 4000, promptTokens * 2)`. */
  function CompletionTokens(maxTokens: Option<int>, promptTokens: int): (n: int)
    ensures n <= 2 * promptTokens
    ensures maxTokens.Some? && maxTokens.value != 0 ==> n <= maxTokens.value
    ensures (maxTokens.None? || maxTokens.value == 0) ==> n <= 4000
    ensures n == 2 * promptTokens || n == (if maxTokens.Some? && maxTokens.value != 0 then maxTokens.value else 4000)
  {
    var cap := if maxTokens.Some? && maxTokens.value != 0 then maxTokens.value else 4000;
    if cap < 2 * promptTokens then cap else 2 * promptTokens
  }

  /** The token pair the cost estimate passes on for a prompt. */
  function CostTokens(maxTokens: Option<int>, prompt: string): (p: (nat, int))
    ensures 3 * p.0 >= |prompt| && p.1 <= 2 * p.0
    ensures p.0 == BaseAiProvider.EstimateTokens(prompt) && p.1 == CompletionTokens(maxTokens, p.0)
  {
    var promptTokens := BaseAiProvider.EstimateTokens(prompt);
    (promptTokens, CompletionTokens(maxTokens, promptTokens))
  }

  class Manager {
    /** Registered provider names in insertion order (the keys of the `providers` Map). */
    var providers: seq<string>
    const defaultProvider: string

    /** `config.default_provider || 'openai'`; openai is registered when configured, keyed and constructible. */
    constructor(setup: Setup)
      ensures defaultProvider == Preferred(setup.defaultProvider, "openai")
      ensures providers == if setup.openaiConfigured && setup.apiKey.Some? && setup.apiKey.value != ""
                              && setup.openaiConstructs then ["openai"] else []
    {
      defaultProvider := Preferred(setup.defaultProvider, "openai");
      if setup.openaiConfigured && setup.apiKey.Some? && setup.apiKey.value != "" && setup.openaiConstructs {
        providers := ["openai"];
      } else {
        providers := [];
      }
    }

    /** `getAvailableProviders()`. */
    function AvailableProviders(): (r: seq<string>)
      reads this
      ensures r == providers
    {
      providers
    }

    /** `getProvider(name)`: the registered name asked for (or the default), else the not-found error. */
    function GetProvider(name: Option<string>): (r: Result<string, string>)
      reads this
      ensures r.Ok? <==> Preferred(name, defaultProvider) in providers
      ensures r.Ok? ==> r.value == Preferred(name, defaultProvider)
      ensures r.Err? ==> r.error == NotFound(TextGeneration, Preferred(name, defaultProvider))
    {
      var n := Preferred(name, defaultProvider);
      if n in providers then Ok(n) else Err(NotFound(TextGeneration, n))
    }

    /**
     * `generate(prompt, options)`: candidates start with the preferred
     * provider and the first successful result is returned.
     */
    method Generate(provider: Option<string>, maxRetries: Option<int>, outcome: string -> Attempt)
      returns (r: Outcome, tried: seq<string>)
      ensures var cands := Candidates(Preferred(provider, defaultProvider), providers, maxRetries);
        r == Run(TextGeneration, cands, providers, outcome, None)
        && tried <= cands
        && (r.Found? ==> |tried| > 0 && tried[|tried| - 1] == r.provider
                         && forall j :: 0 <= j < |tried| - 1 ==> !Usable(TextGeneration, AttemptOf(TextGeneration, providers, outcome, tried[j])))
        && (r.AllProvidersFailed? ==> tried == cands)
    {
      var cands := Candidates(Preferred(provider, defaultProvider), providers, maxRetries);
      var visited;
      r, visited := TryInOrder(TextGeneration, cands, providers, outcome);
      tried := if r.Found? then cands[..visited + 1] else cands;
    }

    /** `checkProvidersHealth()`. */
    method CheckHealth(probe: string -> Probe, elapsed: string -> int) returns (checks: seq<Health>)
      ensures |checks| == |providers|
      ensures forall i :: 0 <= i < |providers| ==> checks[i] == HealthOf(providers[i], probe(providers[i]), elapsed(providers[i]))
    {
      checks := CheckProvidersHealth(providers, probe, elapsed);
    }

    /**
     * `getBestProvider(prompt, requirements)`: a cheap or high-quality request
     * prefers openai, any other the default; else the first registered name.
     */
    function GetBestProvider(cost: Option<string>, quality: Option<string>): (r: Result<string, string>)
      reads this
      ensures r.Err? <==> |providers| == 0
      ensures r.Ok? ==> r.value in providers
      ensures r.Ok? && (cost == Some("low") || quality == Some("high")) ==>
                r.value == (if "openai" in providers then "openai" else providers[0])
      ensures r.Ok? && cost != Some("low") && quality != Some("high") ==>
                r.value == (if defaultProvider in providers then defaultProvider else providers[0])
    {
      if |providers| == 0 then Err("No AI providers available")
      else if cost == Some("low") || quality == Some("high") then
        Ok(if "openai" in providers then "openai" else providers[0])
      else
        Ok(if defaultProvider in providers then defaultProvider else providers[0])
    }
  }

  /**
   * With a registry of distinct names, the candidates are the preferred
   * provider followed by the other names in order, cut to maxRetries + 1.
   */
  lemma CandidatesOfFreshPreferred(preferred: string, registry: seq<string>, maxRetries: Option<int>)
    requires Distinct(registry) && preferred !in registry
    ensures Candidates(preferred, registry, maxRetries) == SliceTo([preferred] + registry, MaxRetries(maxRetries) + 1)
  {
    assert Distinct([preferred] + registry) by {
      var s := [preferred] + registry;
      forall i, j | 0 <= i < j < |s| ensures s[i] != s[j] {
        if i == 0 { assert s[j] == registry[j - 1]; }
        else { assert s[i] == registry[i - 1] && s[j] == registry[j - 1]; }
      }
    }
    DedupeDistinct([preferred] + registry);
  }
}
