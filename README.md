# Heartbeat liveness store

A Dafny model of Polyaxon's `RedisHeartBeat` (`polyaxon/db/redis/heartbeat.py`).
The store tracks whether an experiment, a job or a build is alive. A running
entity calls `ping`, which writes the value `1` under its heartbeat key with the
time-to-live `TTL_HEARTBEAT`. `is_alive` looks that key up and reports the entity
alive while a truthy value is there. `clear` deletes the key. The key is
`heartbeat.experiment:<id>`, `heartbeat.job:<id>` or `heartbeat.build:<id>`.

Layout:

- `wrappers.dfy`: `Option` and `Result`.
- `decimal.dfy` (module `Decimal`): how `str.format` writes an `int` id. It also
  has a parser that reads the text back, used to prove that different ids give
  different texts.
- `keys.dfy` (module `HeartbeatKeys`): the `Entity` datatype
  (`Experiment(id) | Job(id) | Build(id)`), the three key templates and
  `HeartbeatKey`. No two entities share a key.
- `store.dfy` (module `KeyValueStore`): the Redis store reduced to SETEX, GET and
  DELETE, as a class `Store` with a `map<string, Entry>` and an abstract clock
  `now`. An entry is visible while `now < expiry`. Pure functions (`Lookup`,
  `AfterSetEx`, `AfterDelete`) specify the class methods.
- `heartbeat.dfy` (module `Heartbeat`): the class `RedisHeartBeat` with the
  source's fields (`isExperiment`, `isJob`, `isBuild`, `key`), its shared store
  `red` and its time-to-live `ttl`. It also holds the pure specification
  `EntityOf` of the constructor's argument check, the liveness predicate
  `Alive`, the store effects `AfterPing`/`AfterClear`, and the lemmas that
  relate them.
- `scenarios.dfy`: a client method that uses the contracts on these
  scenarios: experiment 42 pings and is then alive. Experiment 43
  and job 42 are not alive. The id `0` and `None` are rejected. Expiry and
  `clear` make 42 dead again.

Modelling choices:

- Ids are `Option<int>`. Python truthiness is `IsSet`: `None` and `0` both
  count as unset.
- The Python constructor becomes two members. `RedisHeartBeat.Create` performs
  the `ValueError` check and returns a `Result`. The constructor `Init` sets
  the fields once the check has passed.
- The object invariant `Valid()` says exactly one kind flag is set, and
  construction establishes it. `IsAlive`, `Ping` and `Clear` require it. Under
  it, the `KeyError` branch and the empty-key guards in `is_alive` and `clear`
  cannot be reached. `RedisKey` itself has no precondition. It returns
  `Failure(KeyError)` exactly when no flag is set, as the source raises.
- `TTL_HEARTBEAT` becomes a parameter of type `Duration` (a positive natural
  number). The class methods `*_ping`/`*_is_alive` take it, together with
  the store, as explicit arguments.
- `setex(value=1)` stores the bytes `"1"`. `is_alive`'s `if not value` is
  modelled as "absent, expired, or empty bytes".

## Model

| member | source | states |
|---|---|---|
| `Decimal.NatToDecimal` | polyaxon/db/redis/heartbeat.py:58-63 | the text that formatting writes for a natural id is non-empty, all digits, and starts with `0` only for zero |
| `Decimal.IntToDecimal` | polyaxon/db/redis/heartbeat.py:58-63 | the text written for an int id is non-empty and starts with `-` exactly for negative ids |
| `Decimal.ParseNatOfDecimal` | polyaxon/db/redis/heartbeat.py:58-63 | reading back the decimal text of a natural number gives that number |
| `Decimal.ParseIntOfDecimal` | polyaxon/db/redis/heartbeat.py:58-63 | the text written for any int id is well-formed and reads back as that id |
| `Decimal.IntToDecimalInjective` | polyaxon/db/redis/heartbeat.py:58-63 | two ids with the same formatted text are equal |
| `HeartbeatKeys.HeartbeatKey` | polyaxon/db/redis/heartbeat.py:11-13 | every key is non-empty and lies in the `heartbeat.` namespace; after the kind's prefix comes the id's decimal text |
| `HeartbeatKeys.KindCharacter` | polyaxon/db/redis/heartbeat.py:11-13 | the character right after `heartbeat.` is `e`, `j` or `b` for experiment, job or build keys |
| `HeartbeatKeys.HeartbeatKeyInjective` | polyaxon/db/redis/heartbeat.py:11-13 | key derivation is injective over (kind, id): equal keys mean the same kind and the same id |
| `KeyValueStore.AfterSetEx` | polyaxon/db/redis/heartbeat.py:54 | SETEX adds the key, leaves every other key's entry unchanged, and the written value is visible at once |
| `KeyValueStore.AfterDelete` | polyaxon/db/redis/heartbeat.py:70 | DELETE removes only the key; every other entry is unchanged, and deleting an absent key changes nothing |
| `KeyValueStore.LookupAfterSetEx` | polyaxon/db/redis/heartbeat.py:54 | a SETEX value is visible exactly while less than the time-to-live has elapsed since the write |
| `KeyValueStore.Store.SetEx` | polyaxon/db/redis/heartbeat.py:54 | the store's new entries are the old ones with the key set to the value and expiry now + time |
| `KeyValueStore.Store.Get` | polyaxon/db/redis/heartbeat.py:47 | GET returns the value exactly when the key is present and unexpired, and changes nothing |
| `KeyValueStore.Store.Delete` | polyaxon/db/redis/heartbeat.py:70 | the store's new entries are the old ones without the key |
| `Heartbeat.EntityOf` | polyaxon/db/redis/heartbeat.py:19-21 | construction succeeds iff exactly one of experiment/job/build is truthy, and otherwise fails with ValueError; the resulting entity has the kind of the set argument and its nonzero id |
| `Heartbeat.ZeroIdIsUnset` | polyaxon/db/redis/heartbeat.py:20 | an id of `0` in any position is treated exactly like `None` |
| `Heartbeat.RedisHeartBeat.Init` | polyaxon/db/redis/heartbeat.py:23-32 | after the field assignments exactly one kind flag is set and `key` is the supplied id, i.e. the object tracks the entity the arguments denote |
| `Heartbeat.RedisHeartBeat.Create` | polyaxon/db/redis/heartbeat.py:19-32 | construction fails with ValueError exactly when the arguments do not name one entity; otherwise a fresh valid object tracks that entity |
| `Heartbeat.RedisHeartBeat.RedisKey` | polyaxon/db/redis/heartbeat.py:56-64 | the key is KeyError only when no kind flag is set; for a valid object it is the entity's heartbeat key, which is never empty |
| `Heartbeat.RedisHeartBeat.IsAlive` | polyaxon/db/redis/heartbeat.py:43-51 | returns true iff the store holds a present, unexpired, truthy value at this entity's key; modifies nothing |
| `Heartbeat.RedisHeartBeat.Ping` | polyaxon/db/redis/heartbeat.py:53-54 | the store's entries become the old ones with this entity's key set to `1` expiring at now + TTL; no other key and not the clock changes |
| `Heartbeat.RedisHeartBeat.Clear` | polyaxon/db/redis/heartbeat.py:66-70 | the store's entries become the old ones without this entity's key; nothing else changes |
| `Heartbeat.RedisHeartBeat.ExperimentPing` | polyaxon/db/redis/heartbeat.py:72-75 | ValueError iff the id is unset (store unchanged); otherwise the same store effect as pinging `Experiment(id)` |
| `Heartbeat.RedisHeartBeat.JobPing` | polyaxon/db/redis/heartbeat.py:77-80 | ValueError iff the id is unset (store unchanged); otherwise the same store effect as pinging `Job(id)` |
| `Heartbeat.RedisHeartBeat.BuildPing` | polyaxon/db/redis/heartbeat.py:82-85 | ValueError iff the id is unset (store unchanged); otherwise the same store effect as pinging `Build(id)` |
| `Heartbeat.RedisHeartBeat.ExperimentIsAlive` | polyaxon/db/redis/heartbeat.py:87-90 | ValueError iff the id is unset; otherwise whether `Experiment(id)` is alive in the current store |
| `Heartbeat.RedisHeartBeat.JobIsAlive` | polyaxon/db/redis/heartbeat.py:92-95 | ValueError iff the id is unset; otherwise whether `Job(id)` is alive in the current store |
| `Heartbeat.RedisHeartBeat.BuildIsAlive` | polyaxon/db/redis/heartbeat.py:97-100 | ValueError iff the id is unset; otherwise whether `Build(id)` is alive in the current store |
| `Heartbeat.PingThenAlive` | polyaxon/db/redis/heartbeat.py:43-54 | after a ping the entity is alive at every instant before the TTL has elapsed |
| `Heartbeat.PingExpires` | polyaxon/db/redis/heartbeat.py:43-54 | without a further ping the entity is dead once the TTL has elapsed |
| `Heartbeat.PingLeavesOthers` | polyaxon/db/redis/heartbeat.py:53-54 | pinging one entity does not change whether any other entity is alive |
| `Heartbeat.ClearThenDead` | polyaxon/db/redis/heartbeat.py:66-70 | immediately after a clear the entity is dead, whatever TTL it had left |
| `Heartbeat.ClearLeavesOthers` | polyaxon/db/redis/heartbeat.py:66-70 | clearing one entity does not change whether any other entity is alive |
| `Heartbeat.NeverPingedIsDead` | polyaxon/db/redis/heartbeat.py:43-51 | an entity with no entry in the store is reported dead, the same answer as for an expired one |
| `Heartbeat.ClearAbsentIsNoop` | polyaxon/db/redis/heartbeat.py:66-70 | clearing an entity without a heartbeat leaves the store unchanged |
| `Heartbeat.ClearExpiredChangesNoLookup` | polyaxon/db/redis/heartbeat.py:66-70 | clearing an entity whose heartbeat has expired changes no later lookup of any key, so an expired entry behaves as an absent one |

## Left out

- `polyaxon/streams/resources/jobs.py` (the log-streaming websocket handler): it is asynchronous I/O glue. Its collaborators (authorization, job validation, auditing, the log relay) are not part of this model.
- Redis connection and pool plumbing (`_get_redis`, `REDIS_POOL`, `BaseRedisDb`): replaced by the in-memory `Store`.
- `__getattr__`: it delegates to `get_value` of a base class that is not part of this model, and its exception handler cannot trigger.
- The wall clock and the concrete `settings.TTL_HEARTBEAT`: time is an abstract natural-number clock, moved by `Store.Advance`, and the TTL is a positive parameter.
- Failures of the store itself (network errors): they are not handled by the source and are not modelled.
- Ids that are not integers (e.g. strings): the model takes ids as Python ints or `None`.
- Redis's removal of expired keys: an expired entry stays in the model's map but GET never returns it. `Heartbeat.ClearExpiredChangesNoLookup` shows this makes no difference to any later lookup.
- The expiry boundary: an entry written with expiry `now + ttl` is dead from the tick `now + ttl` itself on, whereas Redis still returns a key at its exact expiry instant and drops it only once the clock is past it. On the model's abstract tick clock this shifts the end of life by one tick.
- Objects with several kind flags set: the source can only make these by writing `__dict__` directly. The model's methods require the invariant that construction establishes. `RedisKey` only states that such an object does not raise KeyError.
