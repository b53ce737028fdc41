/** Submission options: the client's normal form, its reading by the database, and idempotent submission. */
module Submission {
  import opened Basics
  import opened Policies
  import opened Plans

  datatype Span = Span(secs: int, nanos: int)

  /** A non-negative length of time: seconds in a `u64` and a fraction in nanoseconds. */
  type Duration = d: Span | 0 <= d.secs <= U64_MAX && 0 <= d.nanos < NANOS witness Span(0, 0)

  function Seconds(d: Duration): real {
    d.secs as real + d.nanos as real / NANOS as real
  }

  /** The client's conversion of a duration to a double number of seconds. */
  type Rounding = Duration -> real

  /** What that conversion keeps: order, whole seconds up to 2^53, and that a positive duration stays positive. */
  ghost predicate IsRounding(f: Rounding) {
    && (forall a, b :: Seconds(a) <= Seconds(b) ==> f(a) <= f(b))
    && (forall n: nat :: n <= 0x20_0000_0000_0000 ==> f(Span(n, 0)) == n as real)
    && (forall d :: Seconds(d) > 0.0 ==> f(d) > UNDERFLOW)
  }

  /** Exact seconds are such a conversion. */
  lemma ExactIsRounding()
    ensures IsRounding(Seconds)
  {
    assert UNDERFLOW < 1.0 / NANOS as real;
    forall d: Duration | Seconds(d) > 0.0 ensures Seconds(d) > UNDERFLOW {
      if d.secs == 0 {
        assert d.nanos as real / NANOS as real >= 1.0 / NANOS as real;
      } else {
        assert Seconds(d) >= 1.0;
      }
    }
  }

  /** Whole seconds, rounded up, when they fit. */
  function WholeSeconds(d: Duration, max: int): (r: Result<int>)
    requires max <= U64_MAX
    ensures r.Ok? ==> 0 <= r.value <= max && r.value as real - 1.0 < Seconds(d) <= r.value as real
    ensures r.Err? <==> Seconds(d) > max as real
  {
    var seconds := d.secs + (if d.nanos > 0 then 1 else 0);
    if seconds > max then Err(InvalidArgument) else Ok(seconds)
  }

  datatype Factor = Finite(value: real) | NotFinite

  datatype RetryChoice =
    | NoRetries
    | FixedDelay(delay: Duration)
    | Backoff(initialDelay: Duration, factor: Factor, maxDelay: Option<Duration>)

  datatype Limits = Limits(maxDuration: Option<Duration>, maxDelay: Option<Duration>)

  datatype SpawnConfig = SpawnConfig(
    headers: Option<map<Text, Json>>,
    maxAttempts: Option<nat>,
    retry: Option<RetryChoice>,
    cancellation: Option<Limits>,
    idempotencyKey: Option<Text>)

  // ---- What the client accepts, and the options it means ----

  predicate AcceptableDelay(f: Rounding, d: Duration) {
    f(d) <= MAX_DELAY
  }

  predicate AcceptableRetry(f: Rounding, s: RetryChoice) {
    match s
    case NoRetries => true
    case FixedDelay(delay) => AcceptableDelay(f, delay)
    case Backoff(initial, factor, max) =>
      && AcceptableDelay(f, initial) && factor.Finite? && factor.value > 0.0
      && (max.Some? ==> AcceptableDelay(f, max.value))
  }

  predicate AcceptableLimit(d: Option<Duration>) {
    d.Some? ==> Seconds(d.value) <= BIGINT_MAX as real
  }

  predicate Acceptable(f: Rounding, config: SpawnConfig) {
    && (config.maxAttempts.Some? ==> 1 <= config.maxAttempts.value <= INT_MAX)
    && (config.retry.Some? ==> AcceptableRetry(f, config.retry.value))
    && (config.cancellation.Some? ==>
          AcceptableLimit(config.cancellation.value.maxDuration) && AcceptableLimit(config.cancellation.value.maxDelay))
    && (config.idempotencyKey.Some? ==> ClientName(config.idempotencyKey.value))
  }

  function CanonicalRetry(f: Rounding, s: RetryChoice): Strategy
    requires AcceptableRetry(f, s)
  {
    match s
    case NoRetries => NoRetry
    case FixedDelay(delay) => Fixed(f(delay))
    case Backoff(initial, factor, max) =>
      Exponential(f(initial), factor.value, if max.Some? then Some(f(max.value)) else None)
  }

  function RoundedUp(d: Option<Duration>): Option<int>
    requires AcceptableLimit(d)
  {
    if d.Some? then Some(WholeSeconds(d.value, BIGINT_MAX).value) else None
  }

  /** The policy part of the canonical options. */
  function CanonicalPolicy(limits: Option<Limits>): Option<Policy>
    requires limits.Some? ==> AcceptableLimit(limits.value.maxDuration) && AcceptableLimit(limits.value.maxDelay)
  {
    if limits.None? || limits.value == Limits(None, None) then None
    else Some(Policy(RoundedUp(limits.value.maxDelay), RoundedUp(limits.value.maxDuration)))
  }

  /** The options a configuration stands for: no empty headers, no empty policy, whole seconds. */
  function Canonical(f: Rounding, config: SpawnConfig): SpawnOptions
    requires Acceptable(f, config)
  {
    SpawnOptions(
      if config.headers == Some(map[]) then None else config.headers,
      config.maxAttempts,
      if config.retry.Some? then Some(CanonicalRetry(f, config.retry.value)) else None,
      CanonicalPolicy(config.cancellation),
      config.idempotencyKey)
  }

  // ---- The JSON object that crosses the boundary ----

  function ReadNumber(fields: map<Text, Json>, key: Text): Result<real> {
    if key in fields && fields[key].JNumber? then Ok(fields[key].number) else Err(InvalidArgument)
  }

  predicate OnlyKeys(fields: map<Text, Json>, allowed: set<Text>) {
    fields.Keys <= allowed
  }

  /** The database's reading of a stored strategy: known keys and numbers only. */
  function ReadStrategy(j: Json): Result<Strategy> {
    if !j.JObject? || "kind" !in j.fields || !j.fields["kind"].JString? then Err(InvalidArgument)
    else
      var kind := j.fields["kind"].text;
      if kind == "none" then
        if OnlyKeys(j.fields, {"kind"}) then Ok(NoRetry) else Err(InvalidArgument)
      else if kind == "fixed" then
        var base := ReadNumber(j.fields, "baseSeconds");
        if OnlyKeys(j.fields, {"kind", "baseSeconds"}) && base.Ok? then Ok(Fixed(base.value)) else Err(InvalidArgument)
      else if kind == "exponential" then
        var base, factor := ReadNumber(j.fields, "baseSeconds"), ReadNumber(j.fields, "factor");
        var known := OnlyKeys(j.fields, {"kind", "baseSeconds", "factor", "maxSeconds"});
        if !known || base.Err? || factor.Err? then Err(InvalidArgument)
        else if "maxSeconds" !in j.fields then Ok(Exponential(base.value, factor.value, None))
        else
          var cap := ReadNumber(j.fields, "maxSeconds");
          if cap.Ok? then Ok(Exponential(base.value, factor.value, Some(cap.value))) else Err(InvalidArgument)
      else Err(InvalidArgument)
  }

  /** A whole number within the bounds. */
  function ReadWhole(fields: map<Text, Json>, key: Text, min: int, max: int): Result<Option<int>> {
    if key !in fields then Ok(None)
    else if !fields[key].JNumber? then Err(InvalidArgument)
    else
      var whole := fields[key].number.Floor;
      if whole as real == fields[key].number && min <= whole <= max then Ok(Some(whole)) else Err(InvalidArgument)
  }

  function ReadPolicy(fields: map<Text, Json>): Result<Option<Policy>> {
    if "cancellation" !in fields || fields["cancellation"] == JNull then Ok(None)
    else
      var j := fields["cancellation"];
      if !j.JObject? || j.fields == map[] || !OnlyKeys(j.fields, {"maxDelay", "maxDuration"}) then Err(InvalidArgument)
      else
        var delay := ReadWhole(j.fields, "maxDelay", 0, BIGINT_MAX);
        var duration := ReadWhole(j.fields, "maxDuration", 0, BIGINT_MAX);
        if delay.Err? || duration.Err? then Err(InvalidArgument) else Ok(Some(Policy(delay.value, duration.value)))
  }

  function ReadHeaders(fields: map<Text, Json>): Result<Option<map<Text, Json>>> {
    if "headers" !in fields || fields["headers"] == JNull || fields["headers"] == JObject(map[]) then Ok(None)
    else if fields["headers"].JObject? then Ok(Some(fields["headers"].fields)) else Err(InvalidArgument)
  }

  function ReadRetry(fields: map<Text, Json>): Result<Option<Strategy>> {
    if "retryStrategy" !in fields then Ok(None)
    else
      var s := ReadStrategy(fields["retryStrategy"]);
      if s.Ok? then Ok(Some(s.value)) else Err(InvalidArgument)
  }

  function ReadKey(fields: map<Text, Json>): Result<Option<Text>> {
    if "idempotencyKey" !in fields then Ok(None)
    else if fields["idempotencyKey"].JString? then Ok(Some(fields["idempotencyKey"].text)) else Err(InvalidArgument)
  }

  const OPTION_KEYS := {"headers", "maxAttempts", "retryStrategy", "cancellation", "idempotencyKey"}

  /** The database's reading of the options object. */
  function ReadOptions(fields: map<Text, Json>): Result<SpawnOptions> {
    var headers, attempts := ReadHeaders(fields), ReadWhole(fields, "maxAttempts", 1, INT_MAX);
    var retry, policy, key := ReadRetry(fields), ReadPolicy(fields), ReadKey(fields);
    if !OnlyKeys(fields, OPTION_KEYS) then Err(InvalidArgument)
    else if headers.Err? || attempts.Err? || retry.Err? || policy.Err? || key.Err? then Err(InvalidArgument)
    else Ok(SpawnOptions(headers.value, attempts.value, retry.value, policy.value, key.value))
  }

  // ---- The client builds the object key by key ----

  method RetryStrategyJson(f: Rounding, s: RetryChoice) returns (res: Result<Json>)
    ensures res.Ok? <==> AcceptableRetry(f, s)
    ensures res.Ok? ==> ReadStrategy(res.value) == Ok(CanonicalRetry(f, s))
  {
    if !AcceptableRetry(f, s) {
      return Err(InvalidArgument);
    }
    match s
    case NoRetries =>
      return Ok(JObject(map["kind" := JString("none")]));
    case FixedDelay(delay) =>
      return Ok(JObject(map["kind" := JString("fixed"), "baseSeconds" := JNumber(f(delay))]));
    case Backoff(initial, factor, max) =>
      var value := map["kind" := JString("exponential"), "baseSeconds" := JNumber(f(initial)),
                       "factor" := JNumber(factor.value)];
      if max.Some? {
        value := value["maxSeconds" := JNumber(f(max.value))];
      }
      return Ok(JObject(value));
  }

  method PolicyJson(limits: Limits) returns (res: Result<map<Text, Json>>)
    ensures res.Ok? <==> AcceptableLimit(limits.maxDuration) && AcceptableLimit(limits.maxDelay)
    ensures res.Ok? ==> OnlyKeys(res.value, {"maxDelay", "maxDuration"})
    ensures res.Ok? ==> ReadWhole(res.value, "maxDelay", 0, BIGINT_MAX) == Ok(RoundedUp(limits.maxDelay))
    ensures res.Ok? ==> ReadWhole(res.value, "maxDuration", 0, BIGINT_MAX) == Ok(RoundedUp(limits.maxDuration))
    ensures res.Ok? ==> (res.value == map[] <==> limits == Limits(None, None))
  {
    var value := map[];
    if limits.maxDuration.Some? {
      var seconds := WholeSeconds(limits.maxDuration.value, BIGINT_MAX);
      if seconds.Err? {
        return Err(InvalidArgument);
      }
      value := value["maxDuration" := JNumber(seconds.value as real)];
    }
    if limits.maxDelay.Some? {
      var seconds := WholeSeconds(limits.maxDelay.value, BIGINT_MAX);
      if seconds.Err? {
        return Err(InvalidArgument);
      }
      value := value["maxDelay" := JNumber(seconds.value as real)];
    }
    return Ok(value);
  }

  lemma KeysDiffer()
    ensures "headers" != "maxAttempts" && "headers" != "retryStrategy"
    ensures "headers" != "cancellation" && "headers" != "idempotencyKey"
    ensures "maxAttempts" != "retryStrategy" && "maxAttempts" != "cancellation" && "maxAttempts" != "idempotencyKey"
    ensures "retryStrategy" != "cancellation" && "retryStrategy" != "idempotencyKey"
    ensures "cancellation" != "idempotencyKey"
  {
    assert |"headers"| == 7 && |"maxAttempts"| == 11 && |"retryStrategy"| == 13 && |"cancellation"| == 12
      && |"idempotencyKey"| == 14;
  }

  /** Each reader looks at its own key. */
  lemma ReadersLocal(fields: map<Text, Json>, key: Text, value: Json)
    requires key in OPTION_KEYS && OnlyKeys(fields, OPTION_KEYS)
    ensures OnlyKeys(fields[key := value], OPTION_KEYS)
    ensures key != "headers" ==> ReadHeaders(fields[key := value]) == ReadHeaders(fields)
    ensures key != "maxAttempts" ==>
      ReadWhole(fields[key := value], "maxAttempts", 1, INT_MAX) == ReadWhole(fields, "maxAttempts", 1, INT_MAX)
    ensures key != "retryStrategy" ==> ReadRetry(fields[key := value]) == ReadRetry(fields)
    ensures key != "cancellation" ==> ReadPolicy(fields[key := value]) == ReadPolicy(fields)
    ensures key != "idempotencyKey" ==> ReadKey(fields[key := value]) == ReadKey(fields)
  {
    hide ReadStrategy;
  }

  lemma ReadNothing()
    ensures OnlyKeys(map[], OPTION_KEYS) && ReadHeaders(map[]) == Ok(None)
    ensures ReadWhole(map[], "maxAttempts", 1, INT_MAX) == Ok(None)
    ensures ReadRetry(map[]) == Ok(None) && ReadPolicy(map[]) == Ok(None) && ReadKey(map[]) == Ok(None)
  {
  }

  /** A value put under its key is what the reader of that key finds. */
  lemma ReadBack(fields: map<Text, Json>, headers: map<Text, Json>, attempts: nat, strategy: Json, key: Text)
    ensures headers != map[] ==> ReadHeaders(fields["headers" := JObject(headers)]) == Ok(Some(headers))
    ensures 1 <= attempts <= INT_MAX ==>
      ReadWhole(fields["maxAttempts" := JNumber(attempts as real)], "maxAttempts", 1, INT_MAX) == Ok(Some(attempts))
    ensures ReadStrategy(strategy).Ok? ==>
      ReadRetry(fields["retryStrategy" := strategy]) == Ok(Some(ReadStrategy(strategy).value))
    ensures ReadKey(fields["idempotencyKey" := JString(key)]) == Ok(Some(key))
  {
    hide ReadStrategy;
  }

  lemma PolicyReadBack(fields: map<Text, Json>, policy: map<Text, Json>, delay: Option<int>, duration: Option<int>)
    requires policy != map[] && OnlyKeys(policy, {"maxDelay", "maxDuration"})
    requires ReadWhole(policy, "maxDelay", 0, BIGINT_MAX) == Ok(delay)
    requires ReadWhole(policy, "maxDuration", 0, BIGINT_MAX) == Ok(duration)
    ensures ReadPolicy(fields["cancellation" := JObject(policy)]) == Ok(Some(Policy(delay, duration)))
  {
    hide ReadWhole;
  }

  /** What the client sends is read back as the canonical options, and it refuses only what it must. */
  method NormalizeSpawnOptions(f: Rounding, config: SpawnConfig) returns (res: Result<map<Text, Json>>)
    ensures res.Ok? <==> Acceptable(f, config)
    ensures res.Ok? ==> ReadOptions(res.value) == Ok(Canonical(f, config))
  {
    hide ReadStrategy, AcceptableRetry, CanonicalRetry, AcceptableLimit, RoundedUp, ClientName, ReadHeaders, ReadWhole,
         ReadRetry, ReadPolicy, ReadKey, OnlyKeys;
    if config.maxAttempts == Some(0) || (config.retry.Some? && !AcceptableRetry(f, config.retry.value))
      || (config.idempotencyKey.Some? && !ClientName(config.idempotencyKey.value))
    {
      return Err(InvalidArgument);
    }
    KeysDiffer();
    ReadNothing();
    var payload := map[];
    if config.headers.Some? && config.headers.value != map[] {
      ReadersLocal(payload, "headers", JObject(config.headers.value));
      ReadBack(payload, config.headers.value, 0, JNull, "");
      payload := payload["headers" := JObject(config.headers.value)];
    }
    if config.maxAttempts.Some? {
      if config.maxAttempts.value > INT_MAX {
        return Err(InvalidArgument);
      }
      ReadersLocal(payload, "maxAttempts", JNumber(config.maxAttempts.value as real));
      ReadBack(payload, map[], config.maxAttempts.value, JNull, "");
      payload := payload["maxAttempts" := JNumber(config.maxAttempts.value as real)];
    }
    if config.retry.Some? {
      var strategy := RetryStrategyJson(f, config.retry.value);
      if strategy.Err? {
        return Err(InvalidArgument);
      }
      ReadersLocal(payload, "retryStrategy", strategy.value);
      ReadBack(payload, map[], 0, strategy.value, "");
      payload := payload["retryStrategy" := strategy.value];
    }
    if config.cancellation.Some? {
      var policy := PolicyJson(config.cancellation.value);
      if policy.Err? {
        return Err(InvalidArgument);
      }
      if policy.value != map[] {
        var limits := config.cancellation.value;
        ReadersLocal(payload, "cancellation", JObject(policy.value));
        PolicyReadBack(payload, policy.value, RoundedUp(limits.maxDelay), RoundedUp(limits.maxDuration));
        payload := payload["cancellation" := JObject(policy.value)];
      }
    }
    if config.idempotencyKey.Some? {
      ReadersLocal(payload, "idempotencyKey", JString(config.idempotencyKey.value));
      ReadBack(payload, map[], 0, JNull, config.idempotencyKey.value);
      payload := payload["idempotencyKey" := JString(config.idempotencyKey.value)];
    }
    return Ok(payload);
  }
}
