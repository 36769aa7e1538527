# Weather relay core, modelled in Dafny

This project models the core of a small weather service. The service has three parts:

- **The fetcher** (`app/services/weather.py`). It asks Open-Meteo for the current weather of one of three known cities. Connection errors and non-2xx statuses are retried with a capped, jittered exponential backoff. Each run makes at most `retries` attempts. The reply is normalised to `{city, temperature, wind_speed, raw}`, and fields missing upstream become `None`.
- **The background runner** (`app/tasks/runner.py`). One cycle (`run_once`) fetches, saves a row in the `items` table and publishes a `created_external` / `created_external_manual` event on NATS. When the bus is not connected it broadcasts the event to the local WebSocket subscribers instead. A periodic loop runs cycles until the stop flag is set and swallows a cycle's errors. `start` and `stop` manage the loop task.
- **The NATS relay** (`app/nats/client.py`). It connects and subscribes. `publish_event` publishes only over an established connection. The inbound handler stores `external_weather` readings that carry a city and a temperature, then broadcasts `created_from_nats`. It re-broadcasts as `nats_received` every decoded JSON object that it handles without raising.

Modules:

- `Wrappers`: `Option` and `Result`.
- `Json`: decoded JSON values and the Python operations the code applies to them.
- `Weather`: the fetcher.
- `Effects`: the stored row, the event payloads, and the class `World`.
- `Nats`: the class `Client`.
- `Runner`: the class `BackgroundRunner`.

`World` keeps the store, the local broadcaster and the bus as one ordered log of effects: `Stored`, `Published` and `Broadcast`. This makes the order of a cycle's effects part of each contract. It also assigns the next row id.

The network is replaced by an environment: a sequence of `Attempt(outcome, jitter)` values, one per attempt. The outcome is a transport exception, another exception, or a response with a status and a decoded body. The jitter is the value `random.uniform(0, 0.35)` would draw. Durations are integer milliseconds.

The fetcher is specified twice, and the two are proved equal:

- `Weather.Fetch` is a loop-free reference function: the first attempt that does not fail retryably decides the result, and a sleep follows every earlier attempt.
- `Weather.FetchCurrentWeather` is the `for` loop of the source, with its early return, re-raise and `break`.

The runner's and the client's methods are likewise proved against the functions `Runner.Cycle`, `Runner.LoopRun` and `Nats.Receive`. The lemmas are stated about those functions.

A 4xx status is retried like a 5xx. The explicit check at app/services/weather.py:49-54 raises `HTTPStatusError` for 5xx. `raise_for_status` at :56 raises it for every other status outside 2xx. The retryable clause at :70 catches both. `Weather.StatusRetryable` states this.

## Model

| member | source | states |
|---|---|---|
| Weather.BackoffMs | app/services/weather.py:15-18 | the delay after attempt n never exceeds the 4 s cap, is at least min(0.6·2^(n-1) s, cap), and at most 0.6·2^(n-1) s plus the 0.35 s jitter bound |
| Weather.BackoffMonotone | app/services/weather.py:15-18 | with the same jitter, a later attempt never waits less than an earlier one |
| Weather.BackoffSaturates | app/services/weather.py:15-18 | from the fourth attempt on, the delay is exactly the 4 s cap whatever the jitter |
| Weather.Normalize | app/services/weather.py:57-68 | a body that is not a dict fails at `.get`; a reading keeps the requested city and the raw body; every failure is a malformed-body error |
| Weather.NormalizeFields | app/services/weather.py:59-68 | an absent or falsy `current` gives a reading with both fields `None`; a truthy non-dict `current` fails; for a dict `current`, normalisation succeeds if and only if both fields pass `float(x) if x is not None else None`, and the reading then holds exactly those values |
| Weather.NumericCurrentReads | app/services/weather.py:59-68 | a `current` whose two fields are each absent, null or numeric always yields a reading, `None` for the absent or null ones and the numbers otherwise |
| Weather.Classify | app/services/weather.py:45-80 | an attempt takes the retryable clause if and only if it raised a transport error or got a status outside 2xx; any other exception propagates; a returned reading is for the requested city |
| Weather.StatusRetryable | app/services/weather.py:49-56 | a response takes the retryable clause if and only if its status is outside 2xx |
| Weather.SuccessStatusNormalizes | app/services/weather.py:56-68 | a 2xx response whose body decodes returns the normalised reading or propagates the normaliser's error; an undecodable body propagates the JSON error |
| Weather.FirstDecisive | app/services/weather.py:44-80 | the index of the first attempt that does not take the retryable clause: every attempt before it does, and the attempt at it (if within the budget) does not |
| Weather.Fetch | app/services/weather.py:21-82 | the loop-free reference: at most `retries` attempts are made, and a successful result is a reading of the requested city |
| Weather.FetchCurrentWeather | app/services/weather.py:21-82 | the loop returns the same result, number of attempts and sequence of sleeps as the loop-free reference `Fetch` |
| Weather.UnknownCityRejected | app/services/weather.py:28-29 | `ValueError` is raised exactly for a city missing from `CITY_COORDS`, before any attempt or sleep |
| Weather.EarlierAttemptsRetried | app/services/weather.py:44-77 | every attempt before the last one made took the retryable clause |
| Weather.SleepsFollowRetryableFailures | app/services/weather.py:70-77 | one sleep fewer than attempts; each sleep follows a retryable failure, the i-th is the backoff of attempt i+1 with its jitter, and none exceeds the cap |
| Weather.ExhaustionRaisesConnectivity | app/services/weather.py:72-73 | `RuntimeError` is raised if and only if the city is known and every attempt in the budget failed retryably; it comes after exactly `retries` attempts and carries the last error |
| Weather.NonRetryablePropagates | app/services/weather.py:79-80 | an exception outside the retryable clause propagates if and only if some attempt within the budget raised it, with no later attempt and no sleep after it |
| Weather.SuccessAfterRetries | app/services/weather.py:63-68 | after k retryable failures, a successful attempt k+1 returns its reading for the requested city after exactly k sleeps |
| Effects.World.CreateItem | app/models/item.py:17-22 | a stored row gets the store's next id and the current time, and is appended to the store; the next id advances by one |
| Effects.World.BroadcastLocally | app/tasks/runner.py:65 | a local broadcast appends exactly one `Broadcast` effect and leaves the store's next id alone |
| Effects.World.PublishOnBus | app/nats/client.py:47 | a publish appends exactly one `Published` effect and leaves the store's next id alone |
| Json.Truthy | app/services/weather.py:59 | `None`, `{}`, `""` and `0` are falsy, and a non-empty dict is truthy, as Python's `x or {}` sees them |
| Json.Or | app/nats/client.py:64 | `x or fallback` is `x` when `x` is truthy and the fallback otherwise |
| Json.ToFloat | app/services/weather.py:65-66 | `float(x)` succeeds exactly on numbers and booleans, and keeps a number's value |
| Json.PyStr | app/nats/client.py:83 | `str(x)` of a string is that string |
| Json.OptionalFloat | app/nats/client.py:85 | `float(x) if x is not None else None`: `None` for null, the number for a number, and a failure exactly when a non-null value does not convert |
| Nats.DraftFromNats | app/nats/client.py:72-86 | an item that is not a dict raises; a missing or null `city` or `temperature` is an early return; with both present it fails exactly when `float(temperature)` or `float(wind_speed)` raises, and the row then has `str(city)`, `float(temperature)` and `float(wind_speed)` (or `None` when absent or null) |
| Nats.Receive | app/nats/client.py:50-70 | the reference handler: a message that is dropped or raises has no effect and leaves the next id alone; the next id advances by at most one, exactly when the first effect stores a row |
| Nats.Client.Connect | app/nats/client.py:22-28 | with a reachable server the client is connected and subscribed; on `ErrNoServers` nothing changes and nothing is raised |
| Nats.Client.Close | app/nats/client.py:30-37 | afterwards the client is not connected, never raises, and the subscription id is kept |
| Nats.Client.PublishEvent | app/nats/client.py:39-48 | returns `True` exactly when connected, and then the payload is published once; otherwise nothing is published |
| Nats.Client.SaveItemFromNats | app/nats/client.py:72-100 | fails exactly when the draft fails; on a complete item it stores one row and then broadcasts `created_from_nats` with the stored fields; otherwise it has no effect |
| Nats.Client.OnMessage | app/nats/client.py:50-70 | once subscribed, the handling and effects of a message are those of the reference `Receive` |
| Nats.UndecodableDropped | app/nats/client.py:54-59 | a message that fails UTF-8 or JSON decoding is dropped with no effect |
| Nats.ReceivedBroadcastOnce | app/nats/client.py:61-70 | a decoded object that is handled yields exactly one `nats_received` broadcast, carrying the payload, as its last effect; the handler raises if and only if the message is `external_weather` and its item cannot be read, and then has no effect |
| Nats.OnlyExternalWeatherStores | app/nats/client.py:63-65 | a message whose `event` is not `external_weather` stores nothing and is only re-broadcast |
| Nats.MissingFieldsNotStored | app/nats/client.py:77-79 | an `external_weather` item without `city` or `temperature` stores nothing and yields only the `nats_received` broadcast |
| Nats.CompleteReadingStored | app/nats/client.py:81-100 | an `external_weather` item with a city and a numeric temperature stores one row, then broadcasts `created_from_nats` with the stored fields, then `nats_received` |
| Runner.EventKind | app/tasks/runner.py:52 | the event is `created_external_manual` exactly for the source `manual`, and `created_external` for any other source |
| Runner.Payload | app/tasks/runner.py:51-61 | the payload carries the stored row and `meta.source`, and its event is manual exactly for the source `manual` |
| Runner.Cycle | app/tasks/runner.py:44-67 | the reference cycle: a failing cycle has no effect and leaves the next id alone; a successful one has two effects and advances the id by one |
| Runner.CycleOutcome | app/tasks/runner.py:44-67 | a cycle has effects exactly when it succeeds; a fetch failure is raised as is; a reading without temperature fails to save; a success stores a row of the requested city with the fetched values, the next id and the current time, then delivers its payload |
| Runner.ExactlyOneChannel | app/tasks/runner.py:63-65 | a successful cycle saves first and then delivers on exactly one channel: the bus when connected, the local broadcast otherwise |
| Runner.FetchFailureHasNoEffects | app/tasks/runner.py:46 | when the fetch raises, nothing is saved, published or broadcast, and its exception is raised |
| Runner.UnknownCityCycle | app/tasks/runner.py:46 | a cycle for an unknown city raises the fetcher's `ValueError` and has no effect |
| Runner.AfterStart | app/tasks/runner.py:20-24 | after `start` a task runs; a running task is left alone; otherwise the flag is cleared and a new task is created |
| Runner.AfterStop | app/tasks/runner.py:26-33 | after `stop` the flag is set and no task runs; an existing task is done, and without a task only the flag changes |
| Runner.StartIdempotent | app/tasks/runner.py:21-22 | calling `start` twice is the same as calling it once |
| Runner.StopThenStartRearms | app/tasks/runner.py:20-33 | `start` after `stop` runs a new task with the flag cleared |
| Runner.BackgroundRunner.Start | app/tasks/runner.py:20-24 | the runner's task, flag and task count after `start` are `AfterStart` of those before |
| Runner.BackgroundRunner.Stop | app/tasks/runner.py:26-33 | the lifecycle after `stop` is `AfterStop` of the one before; it raises exactly when a task existed and ended by cancellation, because `except Exception` does not catch `CancelledError` |
| Runner.BackgroundRunner.SaveItem | app/tasks/runner.py:69-78 | succeeds exactly when the reading has a temperature (the column is NOT NULL), storing one row with the reading's fields; otherwise the store is unchanged |
| Runner.BackgroundRunner.RunOnce | app/tasks/runner.py:44-67 | the result and effects of `run_once` are those of the reference `Cycle` |
| Runner.BackgroundRunner.Loop | app/tasks/runner.py:35-42 | the loop runs cycles until the stop flag is set or the cycles run out, none if the flag was already set; it swallows failing cycles, leaves the task untouched, and its effects are those of `LoopRun` over the cycles it ran |
| Runner.LoopRun | app/tasks/runner.py:35-42 | the reference loop: each cycle stores at most one row, and the run has exactly two effects per stored row |
| Runner.BackgroundRunner.GuardedCycle | app/tasks/runner.py:38-41 | one pass of the loop body extends the effects of the first k cycles to those of the first k+1, whether the cycle succeeds or raises |
| Runner.LoopSavesThenDelivers | app/tasks/runner.py:37-42 | over any run of the loop, the rows get consecutive ids and the default city, and each is followed at once by exactly one delivery of its `background` payload |

## Left out

- Network and timeouts: the HTTP client, the request parameters and the 15 s / 6 s timeouts are not modelled. Each attempt's outcome is given by the environment, which must supply one outcome per attempt in the budget.
- Coordinates are kept in millionths of a degree. They are never used beyond the URL parameters.
- Weather.BackoffMs: the delay is in integer milliseconds and the jitter is an integer in [0, 350]. The source uses a real-valued `random.uniform` in seconds.
- Json.ToFloat: `float()` of a numeric string (for example `"12.5"`) is treated as a failure. It is not parsed.
- Json.PyStr: `str()` of a number, list or dict is the placeholder `""`, not Python's text. This shows in the city of the row stored from such a message (app/nats/client.py:83) and in its `created_from_nats` broadcast.
- Concurrency is not modelled: the `asyncio.Lock` around `run_once`, interleavings with other tasks, and cancellation at an arbitrary await point. `Runner.BackgroundRunner.Loop` models the stop flag as set after a given number of cycles. `Stop` takes how the awaited task ended as a parameter.
- The sleeps of `_loop` (1 s at the start and the configured period between cycles) are not recorded. The fetcher's backoff sleeps are recorded.
- Logging through `print` is not modelled.
- Nats.Client.Close: errors raised by `drain`/`close` are caught in the source and are not modelled. The model only drops the connection.
- Nats.Client.Connect: exceptions other than `ErrNoServers` propagate in the source and are not modelled. Loss of connection after connect is not modelled either.
- Exceptions from the NATS library's `publish` and from `manager.broadcast` are not modelled. The WebSocket manager (app/ws) is not part of this model and is represented only by the `Broadcast` effect.
- The JSON text produced by `json.dumps(..., default=str)` is not modelled. A published event is kept as its structured payload.
- The database session is reduced to appending a row with the next id and the current time. The store's failure modes are not modelled, except the NOT NULL `temperature` column.
- The HTTP API (app/api), the application start-up (app/main.py), the configuration and the database set-up are outside this core.
