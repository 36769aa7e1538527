/** The stored record, the event payloads, and the outside world the core
    writes to: the `items` table, the local WebSocket broadcaster and the
    NATS subject. The three are kept as one ordered log of effects so that
    the order in which the core performs them is visible. */
module Effects {
  import opened Wrappers
  import opened Json

  /** A row of the `items` table (app/models/item.py): `id` and `created_at`
      are assigned by the store at insert time; `created_at` is an opaque
      timestamp here. */
  datatype Item = Item(id: int, city: string, temperature: real, windSpeed: Option<real>, createdAt: int)

  const CreatedExternal: string := "created_external"
  const CreatedExternalManual: string := "created_external_manual"
  const CreatedFromNats: string := "created_from_nats"
  const NatsReceived: string := "nats_received"
  const ExternalWeather: string := "external_weather"

  /** An event payload. `ItemEvent(kind, item, source)` is
      `{"event": kind, "item": {...}}` with `"meta": {"source": source}` when
      `source` is present; `Received(p)` is
      `{"event": "nats_received", "payload": p}`. */
  datatype Event =
    | ItemEvent(kind: string, item: Item, source: Option<string>)
    | Received(payload: map<string, Json>)
  {
    function Kind(): string {
      if ItemEvent? then kind else NatsReceived
    }
  }

  /** One effect on the outside world. */
  datatype Effect = Stored(item: Item) | Published(event: Event) | Broadcast(event: Event)

  /** The items the store holds after the effects in `log`, in insertion order. */
  function StoredItems(log: seq<Effect>): (items: seq<Item>)
    ensures |items| <= |log|
  {
    if log == [] then []
    else StoredItems(log[..|log| - 1]) + (if log[|log| - 1].Stored? then [log[|log| - 1].item] else [])
  }

  class World {
    /** Everything written to the outside world, oldest first. */
    var log: seq<Effect>
    /** The id the store gives the next row. */
    var nextId: int

    constructor (firstId: int)
      ensures log == [] && nextId == firstId
    {
      log := [];
      nextId := firstId;
    }

    /** `session.add(row); commit; refresh`: the store assigns the id and the
        creation time and the row becomes visible. */
    method CreateItem(city: string, temperature: real, windSpeed: Option<real>, now: int) returns (item: Item)
      modifies this
      ensures item == Item(old(nextId), city, temperature, windSpeed, now)
      ensures log == old(log) + [Stored(item)] && nextId == old(nextId) + 1
    {
      item := Item(nextId, city, temperature, windSpeed, now);
      log := log + [Stored(item)];
      nextId := nextId + 1;
    }

    /** `manager.broadcast(payload)`: fire-and-forget fan-out to local subscribers. */
    method BroadcastLocally(event: Event)
      modifies this
      ensures log == old(log) + [Broadcast(event)] && nextId == old(nextId)
    {
      log := log + [Broadcast(event)];
    }

    /** `nc.publish(subject, data)` on an established connection. */
    method PublishOnBus(event: Event)
      modifies this
      ensures log == old(log) + [Published(event)] && nextId == old(nextId)
    {
      log := log + [Published(event)];
    }
  }
}
