/** The relay of app/nats/client.py: the connection flag, guarded publishing,
    and the inbound handler that stores `external_weather` readings and
    re-broadcasts every message locally. Decoding a message (UTF-8, then
    JSON) is given as its result: `None` when either step raised. */
module Nats {
  import opened Wrappers
  import opened Json
  import opened Effects

  /** The columns of an `ItemDB` row before the store assigns `id` and `created_at`. */
  datatype Draft = Draft(city: string, temperature: real, windSpeed: Option<real>)

  /** The first part of `_save_item_from_nats`: reading `city`,
      `temperature` and `wind_speed` and converting them for the row.
      `Success(None)` is the early return for a missing field; a failure is
      the exception raised by `.get` on a non-dict or by `float(...)`. */
  function DraftFromNats(item: Json): (r: Result<Option<Draft>, Fault>)
    ensures !item.JObj? ==> r == Failure(NotAnObject)
    ensures item.JObj? ==>
      (r == Success(None) <==> Get(item.fields, "city") == JNull || Get(item.fields, "temperature") == JNull)
    ensures r.Success? && r.value.Some? ==>
      var m := item.fields;
      && r.value.value.city == PyStr(m["city"])
      && ToFloat(m["temperature"]) == Some(r.value.value.temperature)
      && (r.value.value.windSpeed.None? <==> Get(m, "wind_speed") == JNull)
      && OptionalFloat(Get(m, "wind_speed")) == Success(r.value.value.windSpeed)
    ensures item.JObj? && Get(item.fields, "city") != JNull && Get(item.fields, "temperature") != JNull ==>
      (r.Failure? <==> ToFloat(Get(item.fields, "temperature")).None? || OptionalFloat(Get(item.fields, "wind_speed")).Failure?)
  {
    match item
    case JObj(m) =>
      var city := Get(m, "city");
      var temperature := Get(m, "temperature");
      var windSpeed := Get(m, "wind_speed");
      if city == JNull || temperature == JNull then Success(None)
      else
        (match (ToFloat(temperature), OptionalFloat(windSpeed))
         case (Some(t), Success(w)) => Success(Some(Draft(PyStr(city), t, w)))
         case _ => Failure(NotANumber))
    case _ => Failure(NotAnObject)
  }

  /** How `_on_message` ended: the message was dropped after a decode
      failure, handled, or an exception escaped the handler. */
  datatype Handling = Dropped | Handled | Raised(fault: Fault)

  /** The handling of one message, the effects it performed in order, and
      the id the store gives next afterwards. */
  datatype Reception = Reception(handling: Handling, effects: seq<Effect>, nextId: int)

  /** What `_on_message` does with a message whose decoding gave `decoded`,
      when the store's next id is `nextId` and the clock reads `now`. */
  function Receive(decoded: Option<Json>, nextId: int, now: int): (r: Reception)
    ensures r.handling != Handled ==> r.effects == [] && r.nextId == nextId
    ensures r.nextId == nextId || r.nextId == nextId + 1
    ensures r.nextId == nextId + 1 <==> r.effects != [] && r.effects[0].Stored?
  {
    match decoded
    case None => Reception(Dropped, [], nextId)
    case Some(JObj(payload)) =>
      var received := Broadcast(Received(payload));
      if Get(payload, "event") != JStr(ExternalWeather) then Reception(Handled, [received], nextId)
      else
        (match DraftFromNats(Or(Get(payload, "item"), EmptyObject))
         case Failure(f) => Reception(Raised(f), [], nextId)
         case Success(None) => Reception(Handled, [received], nextId)
         case Success(Some(d)) =>
           var item := Item(nextId, d.city, d.temperature, d.windSpeed, now);
           Reception(Handled, [Stored(item), Broadcast(ItemEvent(CreatedFromNats, item, None)), received], nextId + 1))
    case Some(_) => Reception(Raised(NotAnObject), [], nextId)
  }

  /** `NATSClient`: `connected` is `nc.is_connected` and `subscribed` is
      `_sub_sid is not None`. */
  class Client {
    var connected: bool
    var subscribed: bool
    const world: World

    constructor (world: World)
      ensures this.world == world && !connected && !subscribed
    {
      this.world := world;
      connected, subscribed := false, false;
    }

    /** `connect`: with a reachable server it connects and subscribes; on
        `ErrNoServers` it logs and returns without raising and without a
        subscription. */
    method Connect(serversFound: bool)
      modifies this
      ensures serversFound ==> connected && subscribed
      ensures !serversFound ==> connected == old(connected) && subscribed == old(subscribed)
    {
      if serversFound {
        connected := true;
        subscribed := true;
      }
    }

    /** `close`: drains and closes only an established connection, and never
        raises. `_sub_sid` keeps its value. */
    method Close()
      modifies this
      ensures !connected && subscribed == old(subscribed)
    {
      if connected {
        connected := false;
      }
    }

    /** `publish_event`: `False` and nothing published when not connected;
        otherwise the payload is published once and the answer is `True`. */
    method PublishEvent(event: Event) returns (sent: bool)
      modifies world
      ensures sent == connected
      ensures world.log == old(world.log) + (if sent then [Published(event)] else [])
      ensures world.nextId == old(world.nextId)
    {
      if !connected {
        return false;
      }
      world.PublishOnBus(event);
      return true;
    }

    /** `_save_item_from_nats`: a row and a `created_from_nats` broadcast of
        its stored fields, or nothing when `city` or `temperature` is missing. */
    method SaveItemFromNats(item: Json, now: int) returns (r: Result<Option<Item>, Fault>)
      modifies world
      ensures var d := DraftFromNats(item);
        && (r.Failure? <==> d.Failure?)
        && (r.Failure? ==> r.error == d.error)
        && (d.Success? && d.value.None? ==> r == Success(None))
        && (d.Success? && d.value.Some? ==>
              r == Success(Some(Item(old(world.nextId), d.value.value.city, d.value.value.temperature,
                                     d.value.value.windSpeed, now))))
      ensures r.Success? && r.value.Some? ==>
        && world.log == old(world.log) + [Stored(r.value.value), Broadcast(ItemEvent(CreatedFromNats, r.value.value, None))]
        && world.nextId == old(world.nextId) + 1
      ensures !(r.Success? && r.value.Some?) ==> world.log == old(world.log) && world.nextId == old(world.nextId)
    {
      var draft := DraftFromNats(item);
      if draft.Failure? {
        return Failure(draft.error);
      }
      if draft.value.None? {
        return Success(None);
      }
      var d := draft.value.value;
      var row := world.CreateItem(d.city, d.temperature, d.windSpeed, now);
      world.BroadcastLocally(ItemEvent(CreatedFromNats, row, None));
      return Success(Some(row));
    }

    /** `_on_message`, which the subscription made by `connect` invokes. */
    method OnMessage(decoded: Option<Json>, now: int) returns (handling: Handling)
      requires subscribed
      modifies world
      ensures var r := Receive(decoded, old(world.nextId), now);
        handling == r.handling && world.log == old(world.log) + r.effects && world.nextId == r.nextId
    {
      if decoded.None? {
        return Dropped;
      }
      var payload := decoded.value;
      if !payload.JObj? {
        return Raised(NotAnObject);
      }
      if Get(payload.fields, "event") == JStr(ExternalWeather) {
        var saved := SaveItemFromNats(Or(Get(payload.fields, "item"), EmptyObject), now);
        if saved.Failure? {
          return Raised(saved.error);
        }
      }
      world.BroadcastLocally(Received(payload.fields));
      return Handled;
    }
  }

  /** How many `nats_received` broadcasts the effects hold. */
  function ReceivedCount(effects: seq<Effect>): (n: nat)
    ensures n <= |effects|
  {
    if effects == [] then 0
    else (if effects[0].Broadcast? && effects[0].event.Received? then 1 else 0) + ReceivedCount(effects[1..])
  }

  /** A message that fails to decode is dropped: no store write and no broadcast. */
  lemma UndecodableDropped(nextId: int, now: int)
    ensures Receive(None, nextId, now) == Reception(Dropped, [], nextId)
  {
  }

  /** Every decoded JSON object that the handler gets through produces exactly
      one `nats_received` broadcast carrying the payload, as its last effect,
      whatever its `event`; the handler raises exactly on an `external_weather`
      message whose item cannot be read, and then performs nothing. */
  lemma ReceivedBroadcastOnce(payload: map<string, Json>, nextId: int, now: int)
    ensures var r := Receive(Some(JObj(payload)), nextId, now);
      && (r.handling == Handled || r.handling.Raised?)
      && (r.handling == Handled ==>
            ReceivedCount(r.effects) == 1 && r.effects[|r.effects| - 1] == Broadcast(Received(payload)))
      && (r.handling.Raised? ==> r.effects == [])
      && (r.handling.Raised? <==>
            Get(payload, "event") == JStr(ExternalWeather) && DraftFromNats(Or(Get(payload, "item"), EmptyObject)).Failure?)
  {
    var r := Receive(Some(JObj(payload)), nextId, now);
    if r.handling == Handled {
      var e := r.effects;
      if |e| == 1 {
        assert e[1..] == [];
      } else {
        assert |e| == 3 && e[0].Stored? && e[1].event.ItemEvent? && e[2] == Broadcast(Received(payload));
        assert e[1..][1..] == [e[2]] && e[1..][1..][1..] == [];
        assert ReceivedCount(e[1..][1..]) == 1;
        assert ReceivedCount(e[1..]) == 1;
      }
    }
  }

  /** Only `event == "external_weather"` can store a record; any other
      message is only re-broadcast. */
  lemma OnlyExternalWeatherStores(payload: map<string, Json>, nextId: int, now: int)
    requires Get(payload, "event") != JStr(ExternalWeather)
    ensures Receive(Some(JObj(payload)), nextId, now) == Reception(Handled, [Broadcast(Received(payload))], nextId)
  {
  }

  /** An `external_weather` message whose item lacks `city` or `temperature`
      (absent or null; a missing or empty `item` counts as `{}`) creates no
      record and no `created_from_nats` broadcast. */
  lemma MissingFieldsNotStored(payload: map<string, Json>, nextId: int, now: int)
    requires Get(payload, "event") == JStr(ExternalWeather)
    requires var item := Or(Get(payload, "item"), EmptyObject);
      item.JObj? && (Get(item.fields, "city") == JNull || Get(item.fields, "temperature") == JNull)
    ensures Receive(Some(JObj(payload)), nextId, now) == Reception(Handled, [Broadcast(Received(payload))], nextId)
  {
  }

  /** An `external_weather` message with `city` and a numeric `temperature`
      creates exactly one record (`wind_speed` `None` when absent), then
      broadcasts `created_from_nats` with the stored fields, then
      `nats_received`. */
  lemma CompleteReadingStored(payload: map<string, Json>, city: string, temperature: real, nextId: int, now: int)
    requires Get(payload, "event") == JStr(ExternalWeather) && "item" in payload && payload["item"].JObj?
    requires var m := payload["item"].fields;
      Get(m, "city") == JStr(city) && Get(m, "temperature") == JNum(temperature)
      && (Get(m, "wind_speed") == JNull || Get(m, "wind_speed").JNum?)
    ensures var m := payload["item"].fields;
      var w := if Get(m, "wind_speed") == JNull then None else Some(m["wind_speed"].n);
      var item := Item(nextId, city, temperature, w, now);
      Receive(Some(JObj(payload)), nextId, now) ==
        Reception(Handled, [Stored(item), Broadcast(ItemEvent(CreatedFromNats, item, None)), Broadcast(Received(payload))], nextId + 1)
  {
    assert Truthy(payload["item"]);
  }
}
