/** The scheduler of app/tasks/runner.py: one fetch-save-publish cycle
    (`run_once`), the periodic loop that swallows a cycle's errors, and the
    start/stop state machine over the loop task and the stop flag. */
module Runner {
  import opened Wrappers
  import opened Effects
  import Weather
  import Nats

  /** `fetch_current_weather` is called with its default `retries=3`. */
  const Retries: int := 3
  const DefaultCity: string := "Yekaterinburg"
  const Manual: string := "manual"
  const Background: string := "background"

  /** Why `run_once` raised: the fetcher's exception, or the store refusing
      a reading without a temperature (the `temperature` column is NOT NULL). */
  datatype RunError = FetchFailed(error: Weather.FetchError) | SaveFailed

  /** The event name of a cycle's payload. */
  function EventKind(source: string): (kind: string)
    ensures kind == CreatedExternalManual <==> source == Manual
    ensures kind == CreatedExternal <==> source != Manual
  {
    if source != Manual then CreatedExternal else CreatedExternalManual
  }

  /** The payload `run_once` builds from the stored row. */
  function Payload(item: Item, source: string): (event: Event)
    ensures event.ItemEvent? && event.item == item && event.source == Some(source)
    ensures event.Kind() == CreatedExternalManual <==> source == Manual
  {
    ItemEvent(EventKind(source), item, Some(source))
  }

  /** The one channel a payload goes out on: the bus when `publish_event`
      returned `True`, the local broadcaster otherwise. */
  function Delivery(published: bool, event: Event): Effect {
    if published then Published(event) else Broadcast(event)
  }

  /** The result of one cycle, its effects in order, and the store's next id afterwards. */
  datatype CycleRun = CycleRun(result: Result<Item, RunError>, effects: seq<Effect>, nextId: int)

  /** What `run_once(city, source)` does when the fetcher meets `env`, the bus
      connection flag reads `connected`, the store's next id is `nextId` and
      the clock reads `now`. */
  function Cycle(city: string, source: string, env: seq<Weather.Attempt>, connected: bool, nextId: int, now: int): (c: CycleRun)
    requires Weather.Playable(Retries, env)
    ensures c.result.Failure? ==> c.effects == [] && c.nextId == nextId
    ensures c.result.Success? ==> |c.effects| == 2 && c.nextId == nextId + 1
  {
    var fetched := Weather.Fetch(city, Retries, env).result;
    if fetched.Failure? then CycleRun(Failure(FetchFailed(fetched.error)), [], nextId)
    else if fetched.value.temperature.None? then CycleRun(Failure(SaveFailed), [], nextId)
    else
      var reading := fetched.value;
      var item := Item(nextId, reading.city, reading.temperature.value, reading.windSpeed, now);
      CycleRun(Success(item), [Stored(item), Delivery(connected, Payload(item, source))], nextId + 1)
  }

  /** A cycle has effects exactly when it succeeds. It raises the fetcher's
      exception when the fetch raises; otherwise it saves a row of the
      requested city with the fetched temperature and wind speed, under the
      store's next id and the current time, and then delivers that row's
      payload on one channel. */
  lemma CycleOutcome(city: string, source: string, env: seq<Weather.Attempt>, connected: bool, nextId: int, now: int)
    requires Weather.Playable(Retries, env)
    ensures var c := Cycle(city, source, env, connected, nextId, now);
      && (c.result.Failure? <==> c.effects == [])
      && (c.result.Failure? ==> c.nextId == nextId)
    ensures var c := Cycle(city, source, env, connected, nextId, now);
      var fetched := Weather.Fetch(city, Retries, env).result;
      && (c.result.Failure? && c.result.error.FetchFailed? <==> fetched.Failure?)
      && (fetched.Failure? ==> c.result == Failure(FetchFailed(fetched.error)))
      && (fetched.Success? && fetched.value.temperature.None? ==> c.result == Failure(SaveFailed))
    ensures var c := Cycle(city, source, env, connected, nextId, now);
      var fetched := Weather.Fetch(city, Retries, env).result;
      c.result.Success? ==>
        var item := c.result.value;
        && fetched.Success?
        && item.id == nextId && item.createdAt == now
        && item.city == city
        && fetched.value.temperature == Some(item.temperature)
        && item.windSpeed == fetched.value.windSpeed
        && c.effects == [Stored(item), Delivery(connected, Payload(item, source))]
        && c.nextId == nextId + 1
  {
  }

  /** A successful cycle saves first and then uses exactly one channel: the
      bus when connected, the local broadcast exactly when publishing was
      refused. */
  lemma ExactlyOneChannel(city: string, source: string, env: seq<Weather.Attempt>, connected: bool, nextId: int, now: int)
    requires Weather.Playable(Retries, env)
    ensures var c := Cycle(city, source, env, connected, nextId, now);
      c.result.Success? ==>
        && |c.effects| == 2 && c.effects[0] == Stored(c.result.value)
        && (c.effects[1].Published? <==> connected)
        && (c.effects[1].Broadcast? <==> !connected)
        && c.effects[1].event == Payload(c.result.value, source)
  {
  }

  /** When the fetch raises, nothing is saved, published or broadcast, and
      the fetcher's exception is what `run_once` raises. */
  lemma FetchFailureHasNoEffects(city: string, source: string, env: seq<Weather.Attempt>, connected: bool, nextId: int, now: int)
    requires Weather.Playable(Retries, env)
    requires Weather.Fetch(city, Retries, env).result.Failure?
    ensures Cycle(city, source, env, connected, nextId, now) ==
      CycleRun(Failure(FetchFailed(Weather.Fetch(city, Retries, env).result.error)), [], nextId)
  {
  }

  /** A cycle for an unknown city raises the fetcher's `ValueError` and has no effect. */
  lemma UnknownCityCycle(city: string, source: string, env: seq<Weather.Attempt>, connected: bool, nextId: int, now: int)
    requires Weather.Playable(Retries, env) && city !in Weather.CityCoords
    ensures Cycle(city, source, env, connected, nextId, now) == CycleRun(Failure(FetchFailed(Weather.UnknownCity(city))), [], nextId)
  {
  }

  /** The loop task as `asyncio` shows it: which task it is, and whether it is done. */
  datatype Task = Task(serial: nat, done: bool)

  /** How the awaited loop task ended, as `stop` observes it. */
  datatype TaskEnding = Returned | Cancelled | Failed

  /** The runner's lifecycle fields: `_task`, the stop flag, and how many
      tasks `start` has created. */
  datatype Lifecycle = Lifecycle(task: Option<Task>, stopSet: bool, created: nat)

  /** `self._task and not self._task.done()`. */
  predicate Running(l: Lifecycle) {
    l.task.Some? && !l.task.value.done
  }

  /** `start`: a no-op while a task runs; otherwise it clears the flag and
      creates a new task. Afterwards a task always runs. */
  function AfterStart(l: Lifecycle): (l': Lifecycle)
    ensures Running(l')
    ensures Running(l) ==> l' == l
    ensures !Running(l) ==> !l'.stopSet && l'.created == l.created + 1 && l'.task.value.serial == l.created
  {
    if Running(l) then l else Lifecycle(Some(Task(l.created, false)), false, l.created + 1)
  }

  /** `stop`: sets the flag; a task that exists is cancelled and awaited, so
      it is done afterwards. */
  function AfterStop(l: Lifecycle): (l': Lifecycle)
    ensures l'.stopSet && !Running(l') && l'.created == l.created
    ensures l.task.None? ==> l' == l.(stopSet := true)
    ensures l.task.Some? ==> l'.task == Some(l.task.value.(done := true))
  {
    if l.task.None? then l.(stopSet := true)
    else Lifecycle(Some(l.task.value.(done := true)), true, l.created)
  }

  /** `stop` lets an exception out exactly when it awaited a task that ended
      by cancellation: `except Exception` does not catch `CancelledError`. */
  predicate StopRaises(l: Lifecycle, ending: TaskEnding) {
    l.task.Some? && ending == Cancelled
  }

  /** `start` twice in a row is `start` once. */
  lemma StartIdempotent(l: Lifecycle)
    ensures AfterStart(AfterStart(l)) == AfterStart(l)
  {
  }

  /** After `stop`, `start` re-arms: a new task runs and the flag is clear. */
  lemma StopThenStartRearms(l: Lifecycle)
    ensures var l' := AfterStart(AfterStop(l));
      Running(l') && !l'.stopSet && l'.task.value.serial == l.created && l'.created == l.created + 1
  {
  }

  /** One cycle of the periodic loop: the fetcher's environment and the clock. */
  datatype CycleInput = CycleInput(env: seq<Weather.Attempt>, now: int)

  predicate AllPlayable(cycles: seq<CycleInput>) {
    forall i :: 0 <= i < |cycles| ==> Weather.Playable(Retries, cycles[i].env)
  }

  datatype LoopTrace = LoopTrace(effects: seq<Effect>, nextId: int)

  /** The effects of the loop's cycles `run_once("Yekaterinburg", "background")`
      over `cycles`, in order; a cycle that raises contributes nothing and
      the loop goes on. */
  function LoopRun(cycles: seq<CycleInput>, connected: bool, nextId: int): (t: LoopTrace)
    requires AllPlayable(cycles)
    ensures nextId <= t.nextId <= nextId + |cycles|
    ensures |t.effects| == 2 * (t.nextId - nextId)
  {
    if cycles == [] then LoopTrace([], nextId)
    else
      var before := LoopRun(cycles[..|cycles| - 1], connected, nextId);
      var last := cycles[|cycles| - 1];
      var c := Cycle(DefaultCity, Background, last.env, connected, before.nextId, last.now);
      LoopTrace(before.effects + c.effects, c.nextId)
  }

  /** The effects a sequence of stored rows leaves when each is followed by
      its background payload on the channel `connected` selects. */
  function SaveAndDeliver(items: seq<Item>, connected: bool): (effects: seq<Effect>)
    ensures |effects| == 2 * |items|
  {
    if items == [] then []
    else
      var last := items[|items| - 1];
      SaveAndDeliver(items[..|items| - 1], connected) + [Stored(last), Delivery(connected, Payload(last, Background))]
  }

  lemma {:induction false} StoredItemsAppend(a: seq<Effect>, b: seq<Effect>)
    ensures StoredItems(a + b) == StoredItems(a) + StoredItems(b)
  {
    if b == [] {
      assert a + b == a;
    } else {
      assert (a + b)[..|a + b| - 1] == a + b[..|b| - 1];
      StoredItemsAppend(a, b[..|b| - 1]);
    }
  }

  /** The prefix of a loop run one cycle longer is that run followed by the next cycle. */
  lemma LoopRunStep(cycles: seq<CycleInput>, k: nat, connected: bool, nextId: int)
    requires AllPlayable(cycles) && k < |cycles|
    ensures var before := LoopRun(cycles[..k], connected, nextId);
      var c := Cycle(DefaultCity, Background, cycles[k].env, connected, before.nextId, cycles[k].now);
      LoopRun(cycles[..k + 1], connected, nextId) == LoopTrace(before.effects + c.effects, c.nextId)
  {
    assert cycles[..k + 1][..k] == cycles[..k];
  }

  lemma SaveAndDeliverAppend(items: seq<Item>, more: seq<Item>, connected: bool)
    requires |more| <= 1
    ensures SaveAndDeliver(items + more, connected) == SaveAndDeliver(items, connected) + SaveAndDeliver(more, connected)
  {
    if more == [] {
      assert items + more == items;
    } else {
      assert (items + more)[..|items|] == items;
      assert more[..0] == [];
    }
  }

  /** A log holding the loop's first `k` cycles, extended by cycle `k` run
      from the id those cycles left, holds the first `k + 1` cycles. */
  lemma LoopLogStep(cycles: seq<CycleInput>, k: nat, connected: bool, startId: int, startLog: seq<Effect>,
                    log: seq<Effect>, id: int, log': seq<Effect>, id': int)
    requires AllPlayable(cycles) && k < |cycles|
    requires var t := LoopRun(cycles[..k], connected, startId);
      log == startLog + t.effects && id == t.nextId
    requires var c := Cycle(DefaultCity, Background, cycles[k].env, connected, id, cycles[k].now);
      log' == log + c.effects && id' == c.nextId
    ensures var t := LoopRun(cycles[..k + 1], connected, startId);
      log' == startLog + t.effects && id' == t.nextId
  {
    LoopRunStep(cycles, k, connected, startId);
    var c := Cycle(DefaultCity, Background, cycles[k].env, connected, id, cycles[k].now);
    TraceAppend(startLog, LoopRun(cycles[..k], connected, startId), c, LoopRun(cycles[..k + 1], connected, startId), log, log');
  }

  /** Appending a cycle's effects to a log that ends with a trace. */
  lemma TraceAppend(startLog: seq<Effect>, before: LoopTrace, c: CycleRun, after: LoopTrace, log: seq<Effect>, log': seq<Effect>)
    requires after == LoopTrace(before.effects + c.effects, c.nextId)
    requires log == startLog + before.effects && log' == log + c.effects
    ensures log' == startLog + after.effects && c.nextId == after.nextId
  {
  }

  /** Over any run of the loop, the store receives rows with consecutive ids,
      and each row is followed at once by exactly one delivery of its
      `created_external` payload with source `background`. */
  lemma {:induction false} LoopSavesThenDelivers(cycles: seq<CycleInput>, connected: bool, nextId: int)
    requires AllPlayable(cycles)
    ensures var t := LoopRun(cycles, connected, nextId);
      var items := StoredItems(t.effects);
      && t.effects == SaveAndDeliver(items, connected)
      && t.nextId == nextId + |items|
      && forall j :: 0 <= j < |items| ==> items[j].id == nextId + j && items[j].city == DefaultCity
  {
    if cycles != [] {
      var init := cycles[..|cycles| - 1];
      var before := LoopRun(init, connected, nextId);
      LoopSavesThenDelivers(init, connected, nextId);
      var last := cycles[|cycles| - 1];
      var c := Cycle(DefaultCity, Background, last.env, connected, before.nextId, last.now);
      assert LoopRun(cycles, connected, nextId) == LoopTrace(before.effects + c.effects, c.nextId);
      CycleOutcome(DefaultCity, Background, last.env, connected, before.nextId, last.now);
      SavedRowsExtend(before.effects, before.nextId, c, connected, nextId);
    }
  }

  /** The step of `LoopSavesThenDelivers`: a background cycle run from the id
      the earlier rows left either adds nothing or adds the next row and its
      delivery. */
  lemma SavedRowsExtend(effects: seq<Effect>, id: int, c: CycleRun, connected: bool, startId: int)
    requires var items := StoredItems(effects);
      && effects == SaveAndDeliver(items, connected)
      && id == startId + |items|
      && forall j :: 0 <= j < |items| ==> items[j].id == startId + j && items[j].city == DefaultCity
    requires c.result.Failure? ==> c.effects == [] && c.nextId == id
    requires c.result.Success? ==>
      && c.effects == [Stored(c.result.value), Delivery(connected, Payload(c.result.value, Background))]
      && c.result.value.id == id && c.result.value.city == DefaultCity && c.nextId == id + 1
    ensures var items := StoredItems(effects + c.effects);
      && effects + c.effects == SaveAndDeliver(items, connected)
      && c.nextId == startId + |items|
      && forall j :: 0 <= j < |items| ==> items[j].id == startId + j && items[j].city == DefaultCity
  {
    StoredItemsAppend(effects, c.effects);
    if c.result.Success? {
      var item := c.result.value;
      assert c.effects[..1] == [Stored(item)];
      assert c.effects[..1][..0] == [];
      assert StoredItems(c.effects) == [item];
      assert [item][..0] == [];
      SaveAndDeliverAppend(StoredItems(effects), [item], connected);
    } else {
      assert effects + c.effects == effects;
    }
  }

  /** `BackgroundRunner`. The `asyncio.Lock` around `run_once` is not part
      of this model. */
  class BackgroundRunner {
    var task: Option<Task>
    var stopSet: bool
    var created: nat
    const client: Nats.Client

    function Life(): Lifecycle
      reads this
    {
      Lifecycle(task, stopSet, created)
    }

    constructor (client: Nats.Client)
      ensures Life() == Lifecycle(None, false, 0) && this.client == client
    {
      this.client := client;
      task, stopSet, created := None, false, 0;
    }

    /** `start`. */
    method Start()
      modifies this
      ensures Life() == AfterStart(old(Life()))
    {
      if task.Some? && !task.value.done {
        return;
      }
      stopSet := false;
      task := Some(Task(created, false));
      created := created + 1;
    }

    /** `stop`, with `ending` saying how the awaited task ended. Without a
        task it only sets the flag. */
    method Stop(ending: TaskEnding) returns (raised: bool)
      modifies this
      ensures Life() == AfterStop(old(Life()))
      ensures raised == StopRaises(old(Life()), ending)
    {
      stopSet := true;
      raised := false;
      if task.Some? {
        task := Some(task.value.(done := true));
        raised := ending == Cancelled;
      }
    }

    /** `_save_item`: the row for a fetched reading. */
    method SaveItem(reading: Weather.Reading, now: int) returns (r: Result<Item, RunError>)
      modifies client.world
      ensures r.Success? <==> reading.temperature.Some?
      ensures r.Success? ==>
        && r.value == Item(old(client.world.nextId), reading.city, reading.temperature.value, reading.windSpeed, now)
        && client.world.log == old(client.world.log) + [Stored(r.value)]
        && client.world.nextId == old(client.world.nextId) + 1
      ensures r.Failure? ==>
        r.error == SaveFailed && client.world.log == old(client.world.log) && client.world.nextId == old(client.world.nextId)
    {
      if reading.temperature.None? {
        return Failure(SaveFailed);
      }
      var item := client.world.CreateItem(reading.city, reading.temperature.value, reading.windSpeed, now);
      return Success(item);
    }

    /** `run_once(city, source)`. */
    method RunOnce(city: string, source: string, env: seq<Weather.Attempt>, now: int) returns (r: Result<Item, RunError>)
      requires Weather.Playable(Retries, env)
      modifies client.world
      ensures var c := Cycle(city, source, env, client.connected, old(client.world.nextId), now);
        && r == c.result
        && client.world.log == old(client.world.log) + c.effects
        && client.world.nextId == c.nextId
    {
      var fetched, _, _ := Weather.FetchCurrentWeather(city, Retries, env);
      if fetched.Failure? {
        return Failure(FetchFailed(fetched.error));
      }
      var saved := SaveItem(fetched.value, now);
      if saved.Failure? {
        return saved;
      }
      var item := saved.value;
      var payload := Payload(item, source);
      var published := client.PublishEvent(payload);
      if !published {
        client.world.BroadcastLocally(payload);
      }
      return Success(item);
    }

    /** One pass of the body of `_loop`: `run_once("Yekaterinburg",
        "background")` with any exception it raises logged and swallowed.
        The effects of the first `k` cycles since `startLog` are extended by
        those of cycle `k`. */
    method GuardedCycle(cycles: seq<CycleInput>, k: nat, ghost startLog: seq<Effect>, ghost startId: int)
      requires AllPlayable(cycles) && k < |cycles|
      requires var t := LoopRun(cycles[..k], client.connected, startId);
        client.world.log == startLog + t.effects && client.world.nextId == t.nextId
      modifies client.world
      ensures var t := LoopRun(cycles[..k + 1], client.connected, startId);
        client.world.log == startLog + t.effects && client.world.nextId == t.nextId
    {
      ghost var logBefore := client.world.log;
      ghost var idBefore := client.world.nextId;
      var _ := RunOnce(DefaultCity, Background, cycles[k].env, cycles[k].now);
      LoopLogStep(cycles, k, client.connected, startId, startLog, logBefore, idBefore, client.world.log, client.world.nextId);
    }

    /** `_loop`, over the environments of its cycles. Another task's `stop`
        sets the flag after `stopAfter` cycles (during the initial sleep
        when it is 0); the loop checks the flag before each cycle, and a
        cycle that raises is logged and the loop goes on. `ran` is the
        number of cycles started. */
    method Loop(cycles: seq<CycleInput>, stopAfter: nat) returns (ran: nat)
      requires AllPlayable(cycles)
      modifies this, client.world
      ensures ran == if old(stopSet) then 0 else Weather.Min(stopAfter, |cycles|)
      ensures stopSet == (old(stopSet) || stopAfter <= |cycles|)
      ensures task == old(task) && created == old(created)
      ensures var t := LoopRun(cycles[..ran], client.connected, old(client.world.nextId));
        client.world.log == old(client.world.log) + t.effects && client.world.nextId == t.nextId
    {
      if stopAfter == 0 {
        stopSet := true;
      }
      ran := 0;
      while !stopSet && ran < |cycles|
        invariant ran <= |cycles|
        invariant old(stopSet) ==> ran == 0 && stopSet
        invariant !old(stopSet) ==> ran <= stopAfter && (stopSet <==> ran == stopAfter)
        invariant task == old(task) && created == old(created)
        invariant var t := LoopRun(cycles[..ran], client.connected, old(client.world.nextId));
          client.world.log == old(client.world.log) + t.effects && client.world.nextId == t.nextId
      {
        GuardedCycle(cycles, ran, old(client.world.log), old(client.world.nextId));
        ran := ran + 1;
        if ran == stopAfter {
          stopSet := true;
        }
      }
    }
  }
}
