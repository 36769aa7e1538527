/** The fetcher of app/services/weather.py: the city table, the capped
    exponential backoff and the bounded retry loop of `fetch_current_weather`.
    The network is replaced by a sequence of per-attempt outcomes, and the
    random jitter by a value drawn with each attempt; durations are integer
    milliseconds. */
module Weather {
  import opened Wrappers
  import opened Json

  /** The cities `CITY_COORDS` knows, with latitude and longitude in
      millionths of a degree. */
  const CityCoords: map<string, (int, int)> := map[
    "Yekaterinburg" := (56838900, 60605700),
    "Moscow" := (55755800, 37617300),
    "Saint Petersburg" := (59938600, 30314100)
  ]

  const BaseMs: nat := 600
  const JitterMaxMs: nat := 350
  const CapMs: nat := 4000

  function Pow2(n: nat): (p: nat)
    ensures p >= 1
  {
    if n == 0 then 1 else 2 * Pow2(n - 1)
  }

  function Min(a: int, b: int): int {
    if a <= b then a else b
  }

  /** `_backoff_seconds(attempt)` in milliseconds, with the jitter that
      `random.uniform(0.0, 0.35)` drew given as `jitter`. */
  function BackoffMs(attempt: nat, jitter: int): (ms: int)
    requires 1 <= attempt && 0 <= jitter <= JitterMaxMs
    ensures ms <= CapMs
    ensures Min(BaseMs * Pow2(attempt - 1), CapMs) <= ms <= BaseMs * Pow2(attempt - 1) + JitterMaxMs
  {
    Min(BaseMs * Pow2(attempt - 1) + jitter, CapMs)
  }

  lemma {:induction false} Pow2Monotone(m: nat, n: nat)
    requires m <= n
    ensures Pow2(m) <= Pow2(n)
  {
    if m < n {
      Pow2Monotone(m, n - 1);
    }
  }

  /** A later attempt never waits less than an earlier one with the same jitter. */
  lemma BackoffMonotone(m: nat, n: nat, jitter: int)
    requires 1 <= m <= n && 0 <= jitter <= JitterMaxMs
    ensures BackoffMs(m, jitter) <= BackoffMs(n, jitter)
  {
    Pow2Monotone(m - 1, n - 1);
  }

  /** From the fourth attempt on the base alone (4800 ms) passes the cap, so
      the delay is exactly the cap whatever the jitter. */
  lemma BackoffSaturates(attempt: nat, jitter: int)
    requires 4 <= attempt && 0 <= jitter <= JitterMaxMs
    ensures BackoffMs(attempt, jitter) == CapMs
  {
    Pow2Monotone(3, attempt - 1);
  }

  /** The transport exceptions caught as retryable besides `HTTPStatusError`. */
  datatype TransportFailure = ConnectTimeout | ReadTimeout | ConnectError | RemoteProtocolError

  /** What one `client.get` produced: one of the retryable transport
      exceptions, some other exception, or a response with its status code
      and its body decoded as JSON (`None` when `r.json()` raises). */
  datatype Outcome =
    | Transport(failure: TransportFailure)
    | OtherFailure
    | Response(status: int, body: Option<Json>)

  /** One attempt as the environment plays it: its outcome and the jitter
      that the backoff after it would draw. */
  datatype Attempt = Attempt(outcome: Outcome, jitter: int)

  /** The exception an attempt ended with. */
  datatype AttemptError =
    | TransportError(failure: TransportFailure)
    | HttpStatus(status: int)
    | RequestFailed
    | InvalidJson
    | Malformed(fault: Fault)

  /** The normalised reading `fetch_current_weather` returns; `None` marks a
      field missing from the upstream response. */
  datatype Reading = Reading(city: string, temperature: Option<real>, windSpeed: Option<real>, raw: Json)

  /** How one attempt ends the loop body: returns a reading, takes the
      retryable clause, or propagates. */
  datatype Step = Done(reading: Reading) | Retry(error: AttemptError) | Fatal(error: AttemptError)

  /** The exceptions `fetch_current_weather` raises: `ValueError` for an
      unknown city, `RuntimeError` after the attempts are used up (with the
      last retryable error, if any attempt was made), or an exception of an
      attempt propagated as is. */
  datatype FetchError =
    | UnknownCity(city: string)
    | Connectivity(city: string, retries: int, last: Option<AttemptError>)
    | Propagated(error: AttemptError)

  datatype FetchRun = FetchRun(result: Result<Reading, FetchError>, attempts: nat, sleeps: seq<int>)

  /** The body of a successful response turned into a reading:
      `data.get("current") or {}` and the two optional numeric fields. */
  function Normalize(city: string, data: Json): (r: Result<Reading, AttemptError>)
    ensures !data.JObj? ==> r == Failure(Malformed(NotAnObject))
    ensures r.Success? ==> r.value.city == city && r.value.raw == data
    ensures r.Failure? ==> r.error.Malformed?
  {
    match data
    case JObj(fields) =>
      var current := Or(Get(fields, "current"), EmptyObject);
      (match current
       case JObj(cur) =>
         var temperature := OptionalFloat(Get(cur, "temperature_2m"));
         var windSpeed := OptionalFloat(Get(cur, "wind_speed_10m"));
         if temperature.Failure? || windSpeed.Failure? then Failure(Malformed(NotANumber))
         else Success(Reading(city, temperature.value, windSpeed.value, data))
       case _ => Failure(Malformed(NotAnObject)))
    case _ => Failure(Malformed(NotAnObject))
  }

  /** The reading keeps the requested city and the raw body; a field absent
      from `current`, or a `current` that is absent or empty, gives `None`
      and never 0. */
  lemma NormalizeFields(city: string, fields: map<string, Json>)
    ensures !Truthy(Get(fields, "current")) ==>
      Normalize(city, JObj(fields)) == Success(Reading(city, None, None, JObj(fields)))
    ensures Truthy(Get(fields, "current")) && !Get(fields, "current").JObj? ==>
      Normalize(city, JObj(fields)) == Failure(Malformed(NotAnObject))
    ensures Truthy(Get(fields, "current")) && Get(fields, "current").JObj? ==>
      var cur := fields["current"].fields;
      var t := OptionalFloat(Get(cur, "temperature_2m"));
      var w := OptionalFloat(Get(cur, "wind_speed_10m"));
      && (Normalize(city, JObj(fields)).Success? <==> t.Success? && w.Success?)
      && (t.Success? && w.Success? ==> Normalize(city, JObj(fields)) == Success(Reading(city, t.value, w.value, JObj(fields))))
  {
  }

  /** A `current` object whose two fields are each absent, null or a number
      always yields a reading, with `None` exactly for the absent or null
      ones and the numbers carried over. */
  lemma NumericCurrentReads(city: string, fields: map<string, Json>)
    requires "current" in fields && fields["current"].JObj?
    requires var cur := fields["current"].fields;
      && (Get(cur, "temperature_2m") == JNull || Get(cur, "temperature_2m").JNum?)
      && (Get(cur, "wind_speed_10m") == JNull || Get(cur, "wind_speed_10m").JNum?)
    ensures var cur := fields["current"].fields;
      var t := Get(cur, "temperature_2m");
      var w := Get(cur, "wind_speed_10m");
      Normalize(city, JObj(fields)) ==
        Success(Reading(city, if t == JNull then None else Some(t.n), if w == JNull then None else Some(w.n), JObj(fields)))
  {
    NormalizeFields(city, fields);
  }

  /** The status code of a 2xx response (`raise_for_status` passes it). */
  predicate IsSuccessStatus(status: int) {
    200 <= status <= 299
  }

  /** One pass of the loop body over an attempt's outcome. */
  function Classify(city: string, outcome: Outcome): (s: Step)
    ensures s.Retry? <==> outcome.Transport? || (outcome.Response? && !IsSuccessStatus(outcome.status))
    ensures outcome.OtherFailure? ==> s == Fatal(RequestFailed)
    ensures s.Done? ==> s.reading.city == city
  {
    match outcome
    case Transport(f) => Retry(TransportError(f))
    case OtherFailure => Fatal(RequestFailed)
    case Response(status, body) =>
      if 500 <= status <= 599 then Retry(HttpStatus(status))
      else if !IsSuccessStatus(status) then Retry(HttpStatus(status))
      else if body.None? then Fatal(InvalidJson)
      else match Normalize(city, body.value)
        case Success(reading) => Done(reading)
        case Failure(e) => Fatal(e)
  }

  /** Every status outside 2xx takes the retryable clause (through the
      explicit 5xx check or through `raise_for_status`), and a 2xx response
      never does. */
  lemma StatusRetryable(city: string, status: int, body: Option<Json>)
    ensures Classify(city, Response(status, body)).Retry? <==> !IsSuccessStatus(status)
  {
  }

  /** A 2xx response whose body decodes returns the normalised reading, or
      propagates the normaliser's error; one whose body does not decode
      propagates `InvalidJson`. */
  lemma SuccessStatusNormalizes(city: string, status: int, body: Option<Json>)
    requires IsSuccessStatus(status)
    ensures body.None? ==> Classify(city, Response(status, body)) == Fatal(InvalidJson)
    ensures body.Some? && Normalize(city, body.value).Success? ==>
      Classify(city, Response(status, body)) == Done(Normalize(city, body.value).value)
    ensures body.Some? && Normalize(city, body.value).Failure? ==>
      Classify(city, Response(status, body)) == Fatal(Normalize(city, body.value).error)
  {
  }

  /** `range(1, retries + 1)` has this many elements. */
  function Budget(retries: int): nat {
    if retries > 0 then retries else 0
  }

  predicate JittersInRange(env: seq<Attempt>) {
    forall i :: 0 <= i < |env| ==> 0 <= env[i].jitter <= JitterMaxMs
  }

  /** The environment supplies an outcome for every attempt the loop may make
      and draws every jitter from `[0, 0.35]` seconds. */
  predicate Playable(retries: int, env: seq<Attempt>) {
    Budget(retries) <= |env| && JittersInRange(env)
  }

  /** The index of the first of the first `n` attempts that does not take the
      retryable clause, or `n` when all of them do. */
  function FirstDecisive(city: string, env: seq<Attempt>, n: nat): (k: nat)
    requires n <= |env|
    ensures k <= n
    ensures forall i :: 0 <= i < k ==> Classify(city, env[i].outcome).Retry?
    ensures k < n ==> !Classify(city, env[k].outcome).Retry?
  {
    if n == 0 then 0
    else
      var k := FirstDecisive(city, env, n - 1);
      if k < n - 1 then k
      else if Classify(city, env[n - 1].outcome).Retry? then n
      else n - 1
  }

  /** The index is determined by its two defining properties. */
  lemma FirstDecisiveIs(city: string, env: seq<Attempt>, n: nat, k: nat)
    requires k <= n <= |env|
    requires forall i :: 0 <= i < k ==> Classify(city, env[i].outcome).Retry?
    requires k < n ==> !Classify(city, env[k].outcome).Retry?
    ensures FirstDecisive(city, env, n) == k
  {
  }

  /** The delays slept after the first `k` attempts, in order. */
  function Sleeps(env: seq<Attempt>, k: nat): (s: seq<int>)
    requires k <= |env| && JittersInRange(env)
    ensures |s| == k
  {
    if k == 0 then [] else Sleeps(env, k - 1) + [BackoffMs(k, env[k - 1].jitter)]
  }

  lemma {:induction false} SleepsAt(env: seq<Attempt>, k: nat, i: nat)
    requires k <= |env| && JittersInRange(env) && i < k
    ensures Sleeps(env, k)[i] == BackoffMs(i + 1, env[i].jitter)
  {
    if i < k - 1 {
      SleepsAt(env, k - 1, i);
    }
  }

  /** What `fetch_current_weather(city, retries=retries)` does against the
      environment `env`, stated without the loop: the attempts stop at the
      first one that does not take the retryable clause, or when the budget is
      spent, and a backoff is slept after every attempt but the last. */
  function Fetch(city: string, retries: int, env: seq<Attempt>): (run: FetchRun)
    requires Playable(retries, env)
    ensures run.attempts <= Budget(retries)
    ensures run.result.Success? ==> run.result.value.city == city
  {
    if city !in CityCoords then FetchRun(Failure(UnknownCity(city)), 0, [])
    else
      var n := Budget(retries);
      var k := FirstDecisive(city, env, n);
      if k < n then
        var step := Classify(city, env[k].outcome);
        FetchRun(if step.Done? then Success(step.reading) else Failure(Propagated(step.error)), k + 1, Sleeps(env, k))
      else
        var last := if n == 0 then None else Some(Classify(city, env[n - 1].outcome).error);
        FetchRun(Failure(Connectivity(city, retries, last)), n, Sleeps(env, if n == 0 then 0 else n - 1))
  }

  /** `fetch_current_weather`: the `for attempt in range(1, retries + 1)`
      loop with its early return, re-raise and `break`. */
  method FetchCurrentWeather(city: string, retries: int, env: seq<Attempt>)
    returns (result: Result<Reading, FetchError>, attempts: nat, sleeps: seq<int>)
    requires Playable(retries, env)
    ensures FetchRun(result, attempts, sleeps) == Fetch(city, retries, env)
  {
    if city !in CityCoords {
      return Failure(UnknownCity(city)), 0, [];
    }
    var lastError: Option<AttemptError> := None;
    attempts, sleeps := 0, [];
    var attempt := 1;
    while attempt <= retries
      invariant 1 <= attempt <= Budget(retries) + 1
      invariant retries > 0 ==> attempt <= retries
      invariant attempts == attempt - 1
      invariant forall i :: 0 <= i < attempt - 1 ==> Classify(city, env[i].outcome).Retry?
      invariant sleeps == Sleeps(env, attempt - 1)
      invariant lastError == if attempt == 1 then None else Some(Classify(city, env[attempt - 2].outcome).error)
    {
      attempts := attempt;
      var step := Classify(city, env[attempt - 1].outcome);
      match step {
        case Done(reading) =>
          FirstDecisiveIs(city, env, Budget(retries), attempt - 1);
          return Success(reading), attempts, sleeps;
        case Fatal(e) =>
          FirstDecisiveIs(city, env, Budget(retries), attempt - 1);
          return Failure(Propagated(e)), attempts, sleeps;
        case Retry(e) =>
          lastError := Some(e);
          if attempt == retries {
            FirstDecisiveIs(city, env, Budget(retries), attempt);
            break;
          }
          sleeps := sleeps + [BackoffMs(attempt, env[attempt - 1].jitter)];
      }
      attempt := attempt + 1;
    }
    if retries <= 0 {
      FirstDecisiveIs(city, env, 0, 0);
    }
    result := Failure(Connectivity(city, retries, lastError));
  }

  // Properties of the fetcher, stated on the reference function.

  /** An unknown city raises `ValueError` before any attempt, and only an
      unknown city does. */
  lemma UnknownCityRejected(city: string, retries: int, env: seq<Attempt>)
    requires Playable(retries, env)
    ensures Fetch(city, retries, env).result == Failure(UnknownCity(city)) <==> city !in CityCoords
    ensures city !in CityCoords ==> Fetch(city, retries, env).attempts == 0 && Fetch(city, retries, env).sleeps == []
  {
  }

  /** Every attempt before the last one took the retryable clause. */
  lemma EarlierAttemptsRetried(city: string, retries: int, env: seq<Attempt>)
    requires Playable(retries, env)
    ensures var run := Fetch(city, retries, env);
      forall i :: 0 <= i < run.attempts - 1 ==> Classify(city, env[i].outcome).Retry?
  {
  }

  /** A backoff is slept after each retryable failure but the last attempt:
      one fewer sleep than attempts, never a sleep after a success, a
      propagated error or the final attempt; the i-th sleep is the backoff of
      attempt i + 1 with that attempt's jitter and never exceeds the cap. */
  lemma SleepsFollowRetryableFailures(city: string, retries: int, env: seq<Attempt>)
    requires Playable(retries, env)
    ensures var run := Fetch(city, retries, env);
      && |run.sleeps| == (if run.attempts == 0 then 0 else run.attempts - 1)
      && forall i :: 0 <= i < |run.sleeps| ==>
           && Classify(city, env[i].outcome).Retry?
           && run.sleeps[i] == BackoffMs(i + 1, env[i].jitter)
           && run.sleeps[i] <= CapMs
  {
    var run := Fetch(city, retries, env);
    if city in CityCoords {
      var k := |run.sleeps|;
      forall i | 0 <= i < k
        ensures run.sleeps[i] == BackoffMs(i + 1, env[i].jitter)
      {
        SleepsAt(env, k, i);
      }
    }
  }

  /** `RuntimeError` is raised exactly when the city is known and all
      `retries` attempts failed retryably; it comes after exactly `retries`
      attempts (zero when `retries <= 0`) and carries the last error. */
  lemma ExhaustionRaisesConnectivity(city: string, retries: int, env: seq<Attempt>)
    requires Playable(retries, env)
    ensures var run := Fetch(city, retries, env);
      run.result.Failure? && run.result.error.Connectivity? <==>
        city in CityCoords && forall i :: 0 <= i < Budget(retries) ==> Classify(city, env[i].outcome).Retry?
    ensures var run := Fetch(city, retries, env);
      run.result.Failure? && run.result.error.Connectivity? ==>
        && run.attempts == Budget(retries)
        && run.result.error.last == (if retries <= 0 then None else Some(Classify(city, env[retries - 1].outcome).error))
  {
    var n := Budget(retries);
    if city in CityCoords {
      var k := FirstDecisive(city, env, n);
      if k < n {
        assert !Classify(city, env[k].outcome).Retry?;
      }
    }
  }

  /** An exception outside the retryable clause propagates from the attempt
      that raised it, with no further attempt and no sleep after it. */
  lemma NonRetryablePropagates(city: string, retries: int, env: seq<Attempt>, e: AttemptError)
    requires Playable(retries, env)
    ensures var run := Fetch(city, retries, env);
      run.result == Failure(Propagated(e)) <==>
        && city in CityCoords
        && 1 <= run.attempts <= Budget(retries)
        && Classify(city, env[run.attempts - 1].outcome) == Fatal(e)
        && |run.sleeps| == run.attempts - 1
  {
  }

  /** A success is the reading of the first attempt that did not fail
      retryably, for the requested city, after a sleep for each earlier attempt. */
  lemma SuccessAfterRetries(city: string, retries: int, env: seq<Attempt>, k: nat)
    requires Playable(retries, env)
    requires city in CityCoords && k < retries
    requires forall i :: 0 <= i < k ==> Classify(city, env[i].outcome).Retry?
    requires Classify(city, env[k].outcome).Done?
    ensures var run := Fetch(city, retries, env);
      && run.result == Success(Classify(city, env[k].outcome).reading)
      && run.result.value.city == city
      && run.attempts == k + 1
      && |run.sleeps| == k
  {
    FirstDecisiveIs(city, env, Budget(retries), k);
  }
}
