/**
 * The provider-fallback policy shared by the AI manager and the image
 * manager: a de-duplicated, truncated candidate list tried strictly in order,
 * and the per-provider health probe.  A provider's behaviour on one call is an
 * abstract outcome supplied by the caller.
 */
module Fallback {
  import opened Wrappers
  import opened Seqs
  import opened Js

  /** Which manager is asking; it decides what counts as a usable result. */
  datatype Kind = TextGeneration | ImageSearch

  /** What one candidate does when consulted. */
  datatype Attempt =
    | Unavailable                         // isAvailable() resolved to false
    | Throws(message: string)             // isAvailable() or the call threw
    | Returned(success: bool, images: seq<Fields>, metadata: Fields) // the call returned a result
                                        // (`images` and `metadata` are read only for image searches)

  /** The value `lastError` holds: a caught exception or an unusable result. */
  datatype Failure = Thrown(message: string) | Unusable(result: Attempt)

  datatype Outcome =
    | Found(provider: string, result: Attempt)
    | AllProvidersFailed(lastError: Option<Failure>)

  /** `options.maxRetries || 2`: an absent or zero value means 2. */
  function MaxRetries(o: Option<int>): (r: int)
    ensures o.Some? && o.value != 0 ==> r == o.value
    ensures (o.None? || o.value == 0) ==> r == 2
  {
    if o.Some? && o.value != 0 then o.value else 2
  }

  /** `options.provider || this.defaultProvider`. */
  function Preferred(o: Option<string>, default: string): (r: string)
    ensures o.Some? && o.value != "" ==> r == o.value
    ensures (o.None? || o.value == "") ==> r == default
  {
    if o.Some? && o.value != "" then o.value else default
  }

  /** `[preferred, ...registered].filter(first occurrence).slice(0, maxRetries + 1)`. */
  function Candidates(preferred: string, registry: seq<string>, maxRetries: Option<int>): (r: seq<string>)
    ensures Distinct(r)
    ensures forall x :: x in r ==> x == preferred || x in registry
    ensures |r| <= |Dedupe([preferred] + registry)| && r == Dedupe([preferred] + registry)[..|r|]
    ensures MaxRetries(maxRetries) + 1 >= 0 ==> |r| <= MaxRetries(maxRetries) + 1
    ensures var n := |Dedupe([preferred] + registry)|; var m := MaxRetries(maxRetries) + 1;
            |r| == if m < 0 then (if n + m > 0 then n + m else 0) else if m < n then m else n
    ensures MaxRetries(maxRetries) >= 0 ==> |r| > 0 && r[0] == preferred
  {
    var all := Dedupe([preferred] + registry);
    DedupeHead([preferred] + registry);
    var r := SliceTo(all, MaxRetries(maxRetries) + 1);
    assert forall x :: x in r ==> x in all;
    r
  }

  /**
   * A registered preferred provider (the default configuration's case) is
   * moved to the front: the others follow in registration order.
   */
  lemma CandidatesOfRegisteredPreferred(preferred: string, registry: seq<string>, k: nat, maxRetries: Option<int>)
    requires Distinct(registry) && k < |registry| && registry[k] == preferred
    ensures Candidates(preferred, registry, maxRetries)
         == SliceTo([preferred] + registry[..k] + registry[k + 1..], MaxRetries(maxRetries) + 1)
  {
    DedupeRepeatedHead(preferred, registry, k);
  }

  /** The message getProvider throws for a name that is not registered. */
  function NotFound(kind: Kind, name: string): string
  {
    (if kind == TextGeneration then "AI provider '" else "Image provider '")
      + name + "' not found or not initialized"
  }

  /** What consulting `name` yields: getProvider throws for an unregistered name. */
  function AttemptOf(kind: Kind, registry: seq<string>, outcome: string -> Attempt, name: string): (a: Attempt)
    ensures name !in registry ==> a == Throws(NotFound(kind, name))
    ensures name in registry ==> a == outcome(name)
  {
    if name in registry then outcome(name) else Throws(NotFound(kind, name))
  }

  /** A text result is usable when `success`; an image result also needs an image. */
  predicate Usable(kind: Kind, a: Attempt)
  {
    a.Returned? && a.success && (kind == ImageSearch ==> |a.images| > 0)
  }

  /** The loop of `generate` / `searchImages`, with `last` the current lastError. */
  function Run(kind: Kind, cands: seq<string>, registry: seq<string>, outcome: string -> Attempt,
               last: Option<Failure>): Outcome
    decreases |cands|
  {
    if |cands| == 0 then AllProvidersFailed(last)
    else
      var a := AttemptOf(kind, registry, outcome, cands[0]);
      if Usable(kind, a) then Found(cands[0], a)
      else
        var next := match a
          case Unavailable => last
          case Throws(m) => Some(Thrown(m))
          case Returned(_, _, _) => Some(Unusable(a));
        Run(kind, cands[1..], registry, outcome, next)
  }

  // ---------------------------------------------------------------------------
  // Reference definitions: first usable candidate, and last failure seen.
  // ---------------------------------------------------------------------------

  /** Index of the first candidate whose attempt is usable, if any. */
  function FirstUsable(kind: Kind, cands: seq<string>, registry: seq<string>, outcome: string -> Attempt): (r: Option<nat>)
    ensures r.Some? ==> r.value < |cands| && Usable(kind, AttemptOf(kind, registry, outcome, cands[r.value]))
    ensures r.Some? ==> forall j :: 0 <= j < r.value ==> !Usable(kind, AttemptOf(kind, registry, outcome, cands[j]))
    ensures r.None? ==> forall j :: 0 <= j < |cands| ==> !Usable(kind, AttemptOf(kind, registry, outcome, cands[j]))
    decreases |cands|
  {
    if |cands| == 0 then None
    else if Usable(kind, AttemptOf(kind, registry, outcome, cands[0])) then Some(0)
    else
      var r := FirstUsable(kind, cands[1..], registry, outcome);
      if r.Some? then Some(r.value + 1) else None
  }

  function FailureOf(a: Attempt): Option<Failure>
  {
    match a
    case Unavailable => None
    case Throws(m) => Some(Thrown(m))
    case Returned(_, _, _) => Some(Unusable(a))
  }

  /** The failure of the last candidate that was not skipped as unavailable. */
  function LastFailure(kind: Kind, cands: seq<string>, registry: seq<string>, outcome: string -> Attempt): (r: Option<Failure>)
    ensures r.None? <==> forall j :: 0 <= j < |cands| ==> AttemptOf(kind, registry, outcome, cands[j]) == Unavailable
    decreases |cands|
  {
    if |cands| == 0 then None
    else
      var a := AttemptOf(kind, registry, outcome, cands[|cands| - 1]);
      var prev := LastFailure(kind, cands[..|cands| - 1], registry, outcome);
      assert forall j :: 0 <= j < |cands| - 1 ==> cands[..|cands| - 1][j] == cands[j];
      if a == Unavailable then prev else FailureOf(a)
  }

  /** Failure of the candidates after those before `cands`, with `last` carried in. */
  function Carry(last: Option<Failure>, later: Option<Failure>): Option<Failure>
  {
    if later.Some? then later else last
  }

  lemma {:induction false} LastFailureCons(kind: Kind, cands: seq<string>, registry: seq<string>, outcome: string -> Attempt)
    requires |cands| > 0
    ensures LastFailure(kind, cands, registry, outcome)
         == Carry(FailureOf(AttemptOf(kind, registry, outcome, cands[0])), LastFailure(kind, cands[1..], registry, outcome))
    decreases |cands|
  {
    if |cands| > 1 {
      var p := cands[..|cands| - 1];
      LastFailureCons(kind, p, registry, outcome);
      assert p[0] == cands[0];
      assert p[1..] == cands[1..][..|cands[1..]| - 1];
      assert cands[1..][|cands[1..]| - 1] == cands[|cands| - 1];
    }
  }

  /**
   * The fallback loop returns the first usable candidate, and otherwise
   * ALL_PROVIDERS_FAILED carrying the last failure it saw.
   */
  lemma {:induction false} RunCharacterised(kind: Kind, cands: seq<string>, registry: seq<string>,
                                            outcome: string -> Attempt, last: Option<Failure>)
    ensures var k := FirstUsable(kind, cands, registry, outcome);
      Run(kind, cands, registry, outcome, last)
        == if k.Some? then Found(cands[k.value], AttemptOf(kind, registry, outcome, cands[k.value]))
           else AllProvidersFailed(Carry(last, LastFailure(kind, cands, registry, outcome)))
    decreases |cands|
  {
    if |cands| > 0 {
      var a := AttemptOf(kind, registry, outcome, cands[0]);
      if !Usable(kind, a) {
        var next := match a
          case Unavailable => last
          case Throws(m) => Some(Thrown(m))
          case Returned(_, _, _) => Some(Unusable(a));
        assert next == Carry(last, FailureOf(a));
        RunCharacterised(kind, cands[1..], registry, outcome, next);
        LastFailureCons(kind, cands, registry, outcome);
        var k := FirstUsable(kind, cands[1..], registry, outcome);
        if k.Some? {
          assert cands[1..][k.value] == cands[k.value + 1];
        }
      }
    }
  }

  /** With no usable candidate, the result is ALL_PROVIDERS_FAILED; otherwise a found one. */
  lemma AllFailedIffNoneUsable(kind: Kind, cands: seq<string>, registry: seq<string>, outcome: string -> Attempt)
    ensures Run(kind, cands, registry, outcome, None).AllProvidersFailed?
        <==> forall j :: 0 <= j < |cands| ==> !Usable(kind, AttemptOf(kind, registry, outcome, cands[j]))
    ensures Run(kind, cands, registry, outcome, None).AllProvidersFailed?
        ==> (Run(kind, cands, registry, outcome, None).lastError.None?
             <==> forall j :: 0 <= j < |cands| ==> AttemptOf(kind, registry, outcome, cands[j]) == Unavailable)
  {
    RunCharacterised(kind, cands, registry, outcome, None);
  }

  /** An unavailable candidate changes neither the result nor lastError. */
  lemma {:induction false} UnavailableSkipped(kind: Kind, pre: seq<string>, name: string, post: seq<string>,
                                              registry: seq<string>, outcome: string -> Attempt, last: Option<Failure>)
    requires AttemptOf(kind, registry, outcome, name) == Unavailable
    ensures Run(kind, pre + [name] + post, registry, outcome, last) == Run(kind, pre + post, registry, outcome, last)
    decreases |pre|
  {
    if |pre| == 0 {
      assert (pre + [name] + post)[1..] == post;
      assert pre + post == post;
    } else {
      var a := AttemptOf(kind, registry, outcome, pre[0]);
      assert (pre + [name] + post)[0] == pre[0] && (pre + post)[0] == pre[0];
      assert (pre + [name] + post)[1..] == pre[1..] + [name] + post;
      assert (pre + post)[1..] == pre[1..] + post;
      if !Usable(kind, a) {
        var next := match a
          case Unavailable => last
          case Throws(m) => Some(Thrown(m))
          case Returned(_, _, _) => Some(Unusable(a));
        UnavailableSkipped(kind, pre[1..], name, post, registry, outcome, next);
      }
    }
  }

  /**
   * The loop as the managers run it: `visited` is the index of the candidate
   * the loop returned at, or |cands| when every candidate was consulted, so no
   * candidate after a usable one is ever consulted.
   */
  method TryInOrder(kind: Kind, cands: seq<string>, registry: seq<string>, outcome: string -> Attempt)
    returns (r: Outcome, visited: nat)
    ensures r == Run(kind, cands, registry, outcome, None)
    ensures r.Found? ==> (visited < |cands| && r.provider == cands[visited]
                          && Usable(kind, r.result) && r.result == AttemptOf(kind, registry, outcome, cands[visited])
                          && forall j :: 0 <= j < visited ==> !Usable(kind, AttemptOf(kind, registry, outcome, cands[j])))
    ensures r.AllProvidersFailed? ==> visited == |cands|
  {
    var lastError: Option<Failure> := None;
    var i := 0;
    while i < |cands|
      invariant 0 <= i <= |cands|
      invariant Run(kind, cands, registry, outcome, None) == Run(kind, cands[i..], registry, outcome, lastError)
      invariant forall j :: 0 <= j < i ==> !Usable(kind, AttemptOf(kind, registry, outcome, cands[j]))
    {
      var name := cands[i];
      var a: Attempt;
      if name !in registry {
        a := Throws(NotFound(kind, name));
      } else {
        a := outcome(name);
      }
      assert cands[i..][0] == name && cands[i..][1..] == cands[i + 1..];
      match a {
        case Unavailable =>
        case Throws(m) =>
          lastError := Some(Thrown(m));
        case Returned(success, images, _) =>
          if success && (kind == ImageSearch ==> |images| > 0) {
            return Found(name, a), i;
          }
          lastError := Some(Unusable(a));
      }
      i := i + 1;
    }
    return AllProvidersFailed(lastError), i;
  }

  // ---------------------------------------------------------------------------
  // checkProvidersHealth
  // ---------------------------------------------------------------------------

  /** What `await provider.isAvailable()` did during the probe. */
  datatype Probe = Answered(available: bool) | Failed(message: string)

  datatype Health = Health(name: string, available: bool, responseTime: int, status: string, error: Option<string>)

  function HealthOf(name: string, p: Probe, elapsed: int): (h: Health)
    ensures h.name == name && h.responseTime == elapsed
    ensures h.status == "healthy" <==> p == Answered(true)
    ensures h.status == "unavailable" <==> p == Answered(false)
    ensures h.status == "error" <==> p.Failed?
    ensures h.available <==> p == Answered(true)
    ensures h.error.Some? <==> p.Failed?
  {
    match p
    case Answered(ok) => Health(name, ok, elapsed, if ok then "healthy" else "unavailable", None)
    case Failed(m) => Health(name, false, elapsed, "error", Some(m))
  }

  /** One entry per registered provider, in registration order. */
  method CheckProvidersHealth(registry: seq<string>, probe: string -> Probe, elapsed: string -> int)
    returns (checks: seq<Health>)
    ensures |checks| == |registry|
    ensures forall i :: 0 <= i < |registry| ==> checks[i] == HealthOf(registry[i], probe(registry[i]), elapsed(registry[i]))
  {
    checks := [];
    for i := 0 to |registry|
      invariant |checks| == i
      invariant forall j :: 0 <= j < i ==> checks[j] == HealthOf(registry[j], probe(registry[j]), elapsed(registry[j]))
    {
      var name := registry[i];
      var h: Health;
      match probe(name) {
        case Answered(ok) =>
          h := Health(name, ok, elapsed(name), if ok then "healthy" else "unavailable", None);
        case Failed(m) =>
          h := Health(name, false, elapsed(name), "error", Some(m));
      }
      checks := checks + [h];
    }
  }
}
