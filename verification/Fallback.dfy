/** Choosing providers and falling back from Tinfoil to NEAR within one chat call. */
module Fallback {
  import opened Common
  import opened Text
  import opened Breaker

  datatype Provider = OpenRouter | Tinfoil | Near

  /** The lower-cased debug text of an API error. */
  datatype ApiError = ApiError(text: string)

  const NO_PROVIDERS := ApiError("no configured ai providers available")

  predicate Contains(s: string, part: string) {
    Find(s, part).Some?
  }

  datatype Category =
    | Timeout | RateLimited | ServerError | ProviderErrorBody | StreamFailure
    | MalformedResponse | TransportError | ProviderError

  function FailureCategory(e: ApiError): Category {
    var t := e.text;
    if Contains(t, "timeout") || Contains(t, "timed out") then Timeout
    else if Contains(t, "429") then RateLimited
    else if Contains(t, "500") || Contains(t, "502") || Contains(t, "503") || Contains(t, "504") then ServerError
    else if Contains(t, "provider error") then ProviderErrorBody
    else if Contains(t, "sse assembly") || Contains(t, "streaming error") || Contains(t, "no data")
            || Contains(t, "failed to read streaming") then StreamFailure
    else if Contains(t, "failed to parse") || Contains(t, "deserialize") then MalformedResponse
    else if Contains(t, "connect") || Contains(t, "dns") || Contains(t, "reqwest") then TransportError
    else ProviderError
  }

  /** fallback_eligible: the categories that allow a fallback. */
  predicate FallbackEligible(e: ApiError) {
    FailureCategory(e) in {Timeout, RateLimited, ServerError, ProviderErrorBody, StreamFailure,
                           MalformedResponse, TransportError, ProviderError}
  }

  /** Every category is listed, so no error is ever ineligible. */
  lemma EveryErrorEligible(e: ApiError)
    ensures FallbackEligible(e)
  {
  }

  datatype Reply<T> = Reply(response: T, cost: real)

  datatype ChatResult<T> = ChatResult(response: T, provider: Provider, fallbackFrom: Option<Provider>, cost: real)

  /** What each provider would answer in this call. */
  type Answers<!T> = Provider -> Result<Reply<T>, ApiError>

  datatype ChatOptions = ChatOptions(preferred: Provider, sticky: Option<Provider>, allowFallback: bool)

  /** The gateway: which providers have a key, and the shared breaker. */
  class Gateway {
    const configured: set<Provider>
    const breaker: CircuitBreaker

    ghost predicate Valid()
      reads breaker
    {
      breaker.Valid()
    }

    constructor (configured: set<Provider>, config: Config)
      ensures Valid() && fresh(breaker) && this.configured == configured && breaker.config == config
    {
      this.configured := configured;
      this.breaker := new CircuitBreaker(config);
    }

    /** provider_attempts; only the fallback mode looks at the breaker. */
    method ProviderAttempts(options: ChatOptions, now: nat) returns (providers: seq<Provider>)
      requires Valid()
      modifies breaker
      ensures Valid()
      ensures providers == Attempts(configured, options, IsOpen(After(breaker.config, old(breaker.history)), now))
      ensures breaker.history == old(breaker.history) +
                (if ConsultsBreaker(configured, options) then [Queried(now)] else [])
    {
      if options.sticky.Some? {
        return if options.sticky.value in configured then [options.sticky.value] else [];
      }
      if options.preferred != Tinfoil || !options.allowFallback {
        return if options.preferred in configured then [options.preferred] else [];
      }
      var nearConfigured := Near in configured;
      if nearConfigured {
        var open := breaker.IsTinfoilCircuitOpen(now);
        if open {
          return [Near];
        }
      }
      providers := [Tinfoil];
      if nearConfigured {
        providers := providers + [Near];
      }
    }

    /**
     * chat_completion_with_fallback. `tried` lists the providers that were actually called;
     * `now` is the clock when the breaker is consulted, `failedAt` when a failure is recorded.
     */
    method Chat<T>(options: ChatOptions, answers: Answers<T>, now: nat, failedAt: nat)
        returns (r: Result<ChatResult<T>, ApiError>, tried: seq<Provider>)
      requires Valid()
      modifies breaker
      ensures Valid()
      ensures var attempts := Attempts(configured, options, IsOpen(After(breaker.config, old(breaker.history)), now));
              && tried <= attempts
              && (r.Ok? ==> AnsweredBy(answers, tried, r.value))
              && (r.Err? ==> tried == attempts && AllFailed(answers, tried)
                             && r.error == (if tried == [] then NO_PROVIDERS else answers(tried[|tried| - 1]).error))
      ensures breaker.history == old(breaker.history)
                + (if ConsultsBreaker(configured, options) then [Queried(now)] else [])
                + Recorded(answers, tried, failedAt)
    {
      hide Recorded, FallbackEligible, IsOpen, After;
      RecordedNothing(answers, failedAt);
      var providers := ProviderAttempts(options, now);
      tried := [];
      if providers == [] {
        return Err(NO_PROVIDERS), tried;
      }
      var fallbackFrom: Option<Provider>, lastError: Option<ApiError> := None, None;
      ghost var before := breaker.history;
      var idx := 0;
      while idx < |providers|
        invariant 0 <= idx <= |providers|
        invariant Valid()
        invariant tried == providers[..idx] && AllFailed(answers, tried)
        invariant breaker.history == before + Recorded(answers, tried, failedAt)
        invariant fallbackFrom == if idx == 0 then None else Some(Tinfoil)
        invariant idx > 0 ==> providers == [Tinfoil, Near] && lastError == Some(answers(tried[idx - 1]).error)
        invariant idx < 2
        decreases |providers| - idx
      {
        var provider := providers[idx];
        ghost var soFar := tried;
        tried := tried + [provider];
        RecordedAppend(answers, soFar, provider, failedAt);
        assert providers[..idx + 1] == tried;
        match answers(provider) {
          case Ok(reply) =>
            if provider == Tinfoil {
              breaker.RecordSuccess();
            }
            return Ok(ChatResult(reply.response, provider, fallbackFrom, reply.cost)), tried;
          case Err(e) =>
            EveryErrorEligible(e);
            if FallbackEligible(e) && provider == Tinfoil {
              breaker.RecordFailure(failedAt);
            }
            if idx + 1 < |providers| && provider == Tinfoil && FallbackEligible(e) {
              fallbackFrom, lastError := Some(provider), Some(e);
              idx := idx + 1;
              continue;
            }
            assert tried == providers;
            return Err(e), tried;
        }
      }
      assert false;
    }
  }

  predicate ConsultsBreaker(configured: set<Provider>, options: ChatOptions) {
    options.sticky.None? && options.preferred == Tinfoil && options.allowFallback && Near in configured
  }

  /** The providers to try, in order. */
  function Attempts(configured: set<Provider>, options: ChatOptions, open: bool): seq<Provider> {
    match options.sticky
    case Some(p) => if p in configured then [p] else []
    case None =>
      if options.preferred != Tinfoil || !options.allowFallback then
        if options.preferred in configured then [options.preferred] else []
      else if Near !in configured then [Tinfoil]
      else if open then [Near]
      else [Tinfoil, Near]
  }

  /** Every provider tried so far failed. */
  predicate AllFailed<T>(answers: Answers<T>, tried: seq<Provider>) {
    forall p | p in tried :: answers(p).Err?
  }

  /** The last provider tried answered after all the others failed, and the result says so. */
  predicate AnsweredBy<T(==)>(answers: Answers<T>, tried: seq<Provider>, r: ChatResult<T>) {
    && tried != [] && r.provider == tried[|tried| - 1]
    && AllFailed(answers, tried[..|tried| - 1])
    && answers(r.provider) == Ok(Reply(r.response, r.cost))
    && (r.fallbackFrom.Some? <==> r.provider == Near && Tinfoil in tried)
    && (r.fallbackFrom.Some? ==> r.fallbackFrom == Some(Tinfoil))
  }

  /** The breaker events that the tried providers leave behind. */
  function Recorded<T>(answers: Answers<T>, tried: seq<Provider>, failedAt: nat): seq<Breaker.Event> {
    if tried == [] then []
    else
      Recorded(answers, tried[..|tried| - 1], failedAt) +
      var p := tried[|tried| - 1];
      if p != Tinfoil then []
      else if answers(p).Ok? then [Succeeded] else [FailedAt(failedAt)]
  }

  lemma RecordedNothing<T>(answers: Answers<T>, failedAt: nat)
    ensures Recorded(answers, [], failedAt) == []
  {
  }

  lemma RecordedAppend<T>(answers: Answers<T>, tried: seq<Provider>, p: Provider, failedAt: nat)
    ensures Recorded(answers, tried + [p], failedAt) == Recorded(answers, tried, failedAt) +
              (if p != Tinfoil then [] else if answers(p).Ok? then [Succeeded] else [FailedAt(failedAt)])
  {
  }

  const DEFAULT_OPTIONS := ChatOptions(Tinfoil, None, true)

  /**
   * With the default options Tinfoil is left out exactly when NEAR can stand in and the last
   * failure of a threshold-long run lies less than one cooldown back.
   */
  lemma TinfoilSkippedOnlyAfterRun(configured: set<Provider>, cfg: Config, history: seq<Breaker.Event>, now: nat)
    ensures Tinfoil !in Attempts(configured, DEFAULT_OPTIONS, IsOpen(After(cfg, history), now)) <==>
              Near in configured && RecentRun(cfg, history, now)
  {
    OpenMeansRecentRun(cfg, history, now);
  }
}
