/**
  The heartbeat liveness store: an experiment, job or build is alive while
  the store holds a truthy value under its heartbeat key. `Ping` writes that
  value with the heartbeat time-to-live, `Clear` deletes it, and `IsAlive`
  only looks it up.
 */
module Heartbeat {
  import opened Wrappers
  import opened Decimal
  import opened HeartbeatKeys
  import opened KeyValueStore

  datatype HeartbeatError =
    | ValueError  // not exactly one of experiment, job, build was given
    | KeyError    // no kind flag is set when the key is derived

  /** The value `Ping` writes: Redis stores the integer 1 as the bytes "1". */
  const PingValue: string := "1"

  /** Python truthiness of an id argument: `None` and `0` are both unset. */
  predicate IsSet(id: Option<int>) {
    id.Some? && id.value != 0
  }

  /** Python's `a or b`. */
  function Or(a: Option<int>, b: Option<int>): Option<int> {
    if IsSet(a) then a else b
  }

  /** The number of truthy arguments. */
  function CountSet(experiment: Option<int>, job: Option<int>, build: Option<int>): nat {
    (if IsSet(experiment) then 1 else 0) + (if IsSet(job) then 1 else 0) + (if IsSet(build) then 1 else 0)
  }

  /** The entity the constructor arguments denote. Construction succeeds
      exactly when one argument is set, and the entity then has that
      argument's kind and id; zero or several set arguments are rejected. */
  function EntityOf(experiment: Option<int>, job: Option<int>, build: Option<int>): (r: Result<Entity, HeartbeatError>)
    ensures r.Success? <==>
      || (IsSet(experiment) && !IsSet(job) && !IsSet(build))
      || (!IsSet(experiment) && IsSet(job) && !IsSet(build))
      || (!IsSet(experiment) && !IsSet(job) && IsSet(build))
    ensures r.Failure? ==> r.error == ValueError
    ensures r.Success? ==>
      && (r.value.Experiment? <==> IsSet(experiment))
      && (r.value.Job? <==> IsSet(job))
      && (r.value.Build? <==> IsSet(build))
    ensures r.Success? && r.value.Experiment? ==> experiment == Some(r.value.id)
    ensures r.Success? && r.value.Job? ==> job == Some(r.value.id)
    ensures r.Success? && r.value.Build? ==> build == Some(r.value.id)
    ensures r.Success? ==> r.value.id != 0
  {
    if CountSet(experiment, job, build) != 1 then Failure(ValueError)
    else if IsSet(experiment) then Success(Experiment(experiment.value))
    else if IsSet(job) then Success(Job(job.value))
    else Success(Build(build.value))
  }

  /** An id of `0` is treated exactly like a missing id. */
  lemma ZeroIdIsUnset(a: Option<int>, b: Option<int>)
    ensures EntityOf(Some(0), a, b) == EntityOf(None, a, b)
    ensures EntityOf(a, Some(0), b) == EntityOf(a, None, b)
    ensures EntityOf(a, b, Some(0)) == EntityOf(a, b, None)
  {
  }

  /** What `is_alive` answers for `e` given the store's entries at `now`:
      the key holds a value that is present, unexpired and truthy (non-empty). */
  predicate Alive(m: Entries, now: nat, e: Entity) {
    var v := Lookup(m, now, HeartbeatKey(e));
    v.Some? && v.value != ""
  }

  /** The entries after `ping` of `e` at `now`. */
  function AfterPing(m: Entries, now: nat, ttl: Duration, e: Entity): Entries {
    AfterSetEx(m, HeartbeatKey(e), PingValue, now, ttl)
  }

  /** The entries after `clear` of `e`. */
  function AfterClear(m: Entries, e: Entity): Entries {
    AfterDelete(m, HeartbeatKey(e))
  }

  class RedisHeartBeat {
    var isExperiment: bool
    var isJob: bool
    var isBuild: bool
    var key: int
    /** The store every heartbeat shares. */
    const red: Store
    /** TTL_HEARTBEAT, the configured heartbeat time-to-live. */
    const ttl: Duration

    /** Exactly one kind flag is set, and the id is a set one. */
    ghost predicate Valid()
      reads this
    {
      && (|| (isExperiment && !isJob && !isBuild)
          || (!isExperiment && isJob && !isBuild)
          || (!isExperiment && !isJob && isBuild))
      && key != 0
    }

    /** The entity this heartbeat tracks. */
    ghost function Entity(): Entity
      reads this
      requires Valid()
    {
      if isExperiment then Experiment(key) else if isJob then Job(key) else Build(key)
    }

    /** Sets the kind flags and the id once the arguments are known to name
        exactly one entity. */
    constructor Init(experiment: Option<int>, job: Option<int>, build: Option<int>, red: Store, ttl: Duration)
      requires EntityOf(experiment, job, build).Success?
      ensures Valid() && Entity() == EntityOf(experiment, job, build).value
      ensures this.red == red && this.ttl == ttl
    {
      isExperiment := false;
      isJob := false;
      isBuild := false;
      if IsSet(experiment) {
        isExperiment := true;
      }
      if IsSet(job) {
        isJob := true;
      }
      if IsSet(build) {
        isBuild := true;
      }
      key := Or(Or(experiment, job), build).value;
      this.red := red;
      this.ttl := ttl;
    }

    /** `RedisHeartBeat(experiment=..., job=..., build=...)`: fails with
        ValueError unless exactly one id is set; otherwise the new object
        tracks the entity the arguments denote. */
    static method Create(experiment: Option<int>, job: Option<int>, build: Option<int>, red: Store, ttl: Duration)
      returns (r: Result<RedisHeartBeat, HeartbeatError>)
      ensures r.Failure? <==> EntityOf(experiment, job, build).Failure?
      ensures r.Failure? ==> r.error == ValueError
      ensures r.Success? ==> fresh(r.value) && r.value.Valid()
      ensures r.Success? ==> r.value.Entity() == EntityOf(experiment, job, build).value
      ensures r.Success? ==> r.value.red == red && r.value.ttl == ttl
    {
      if CountSet(experiment, job, build) != 1 {
        return Failure(ValueError);
      }
      var hb := new RedisHeartBeat.Init(experiment, job, build, red, ttl);
      return Success(hb);
    }

    /** The key under which this heartbeat is stored. It is the entity's
        heartbeat key whenever the object is valid; KeyError only when no
        kind flag is set. */
    function RedisKey(): (r: Result<string, HeartbeatError>)
      reads this
      ensures r.Failure? <==> !isExperiment && !isJob && !isBuild
      ensures r.Failure? ==> r.error == KeyError
      ensures r.Success? ==> |r.value| > 0
      ensures Valid() ==> r == Success(HeartbeatKey(Entity()))
    {
      if isExperiment then Success(HeartbeatKey(Experiment(key)))
      else if isJob then Success(HeartbeatKey(Job(key)))
      else if isBuild then Success(HeartbeatKey(Build(key)))
      else Failure(KeyError)
    }

    /** Looks the heartbeat up without changing the store. */
    method IsAlive() returns (alive: bool)
      requires Valid()
      ensures alive == Alive(red.entries, red.now, Entity())
    {
      var k := RedisKey().value;
      if k == "" {
        return false;
      }
      var value := red.Get(k);
      if value.None? || value.value == "" {
        return false;
      }
      return true;
    }

    /** Writes the heartbeat value with the heartbeat time-to-live, leaving
        every other key and the clock alone. */
    method Ping()
      requires Valid()
      modifies red
      ensures red.entries == AfterPing(old(red.entries), old(red.now), ttl, Entity())
      ensures red.now == old(red.now)
    {
      red.SetEx(RedisKey().value, PingValue, ttl);
    }

    /** Deletes the heartbeat, leaving every other key and the clock alone. */
    method Clear()
      requires Valid()
      modifies red
      ensures red.entries == AfterClear(old(red.entries), Entity())
      ensures red.now == old(red.now)
    {
      var k := RedisKey().value;
      if k == "" {
        return;
      }
      red.Delete(k);
    }

    static method ExperimentPing(red: Store, ttl: Duration, experimentId: Option<int>) returns (r: Result<(), HeartbeatError>)
      modifies red
      ensures r.Failure? <==> !IsSet(experimentId)
      ensures r.Failure? ==> r.error == ValueError && red.entries == old(red.entries)
      ensures r.Success? ==> red.entries == AfterPing(old(red.entries), old(red.now), ttl, Experiment(experimentId.value))
      ensures red.now == old(red.now)
    {
      var hb := Create(experimentId, None, None, red, ttl);
      if hb.Failure? {
        return Failure(hb.error);
      }
      hb.value.Ping();
      return Success(());
    }

    static method JobPing(red: Store, ttl: Duration, jobId: Option<int>) returns (r: Result<(), HeartbeatError>)
      modifies red
      ensures r.Failure? <==> !IsSet(jobId)
      ensures r.Failure? ==> r.error == ValueError && red.entries == old(red.entries)
      ensures r.Success? ==> red.entries == AfterPing(old(red.entries), old(red.now), ttl, Job(jobId.value))
      ensures red.now == old(red.now)
    {
      var hb := Create(None, jobId, None, red, ttl);
      if hb.Failure? {
        return Failure(hb.error);
      }
      hb.value.Ping();
      return Success(());
    }

    static method BuildPing(red: Store, ttl: Duration, buildId: Option<int>) returns (r: Result<(), HeartbeatError>)
      modifies red
      ensures r.Failure? <==> !IsSet(buildId)
      ensures r.Failure? ==> r.error == ValueError && red.entries == old(red.entries)
      ensures r.Success? ==> red.entries == AfterPing(old(red.entries), old(red.now), ttl, Build(buildId.value))
      ensures red.now == old(red.now)
    {
      var hb := Create(None, None, buildId, red, ttl);
      if hb.Failure? {
        return Failure(hb.error);
      }
      hb.value.Ping();
      return Success(());
    }

    static method ExperimentIsAlive(red: Store, ttl: Duration, experimentId: Option<int>) returns (r: Result<bool, HeartbeatError>)
      ensures r == if IsSet(experimentId) then Success(Alive(red.entries, red.now, Experiment(experimentId.value)))
                   else Failure(ValueError)
    {
      var hb := Create(experimentId, None, None, red, ttl);
      if hb.Failure? {
        return Failure(hb.error);
      }
      var alive := hb.value.IsAlive();
      return Success(alive);
    }

    static method JobIsAlive(red: Store, ttl: Duration, jobId: Option<int>) returns (r: Result<bool, HeartbeatError>)
      ensures r == if IsSet(jobId) then Success(Alive(red.entries, red.now, Job(jobId.value)))
                   else Failure(ValueError)
    {
      var hb := Create(None, jobId, None, red, ttl);
      if hb.Failure? {
        return Failure(hb.error);
      }
      var alive := hb.value.IsAlive();
      return Success(alive);
    }

    static method BuildIsAlive(red: Store, ttl: Duration, buildId: Option<int>) returns (r: Result<bool, HeartbeatError>)
      ensures r == if IsSet(buildId) then Success(Alive(red.entries, red.now, Build(buildId.value)))
                   else Failure(ValueError)
    {
      var hb := Create(None, None, buildId, red, ttl);
      if hb.Failure? {
        return Failure(hb.error);
      }
      var alive := hb.value.IsAlive();
      return Success(alive);
    }
  }

  /** A ping makes the entity alive until its time-to-live has elapsed. */
  lemma PingThenAlive(m: Entries, now: nat, ttl: Duration, e: Entity, t: nat)
    requires now <= t < now + ttl
    ensures Alive(AfterPing(m, now, ttl, e), t, e)
  {
  }

  /** Without a further ping the entity is dead once the time-to-live has
      elapsed. */
  lemma PingExpires(m: Entries, now: nat, ttl: Duration, e: Entity, t: nat)
    requires now + ttl <= t
    ensures !Alive(AfterPing(m, now, ttl, e), t, e)
  {
  }

  /** Pinging one entity does not change whether any other entity is alive. */
  lemma {:induction false} PingLeavesOthers(m: Entries, now: nat, ttl: Duration, e: Entity, other: Entity, t: nat)
    requires other != e
    ensures Alive(AfterPing(m, now, ttl, e), t, other) == Alive(m, t, other)
  {
    if HeartbeatKey(other) == HeartbeatKey(e) {
      HeartbeatKeyInjective(other, e);
    }
  }

  /** After a clear the entity is dead, whatever time-to-live it had left. */
  lemma ClearThenDead(m: Entries, e: Entity, t: nat)
    ensures !Alive(AfterClear(m, e), t, e)
  {
  }

  /** Clearing one entity does not change whether any other entity is alive. */
  lemma {:induction false} ClearLeavesOthers(m: Entries, e: Entity, other: Entity, t: nat)
    requires other != e
    ensures Alive(AfterClear(m, e), t, other) == Alive(m, t, other)
  {
    if HeartbeatKey(other) == HeartbeatKey(e) {
      HeartbeatKeyInjective(other, e);
    }
  }

  /** An entity that was never pinged is dead, just as an expired one is. */
  lemma NeverPingedIsDead(m: Entries, e: Entity, t: nat)
    requires HeartbeatKey(e) !in m
    ensures !Alive(m, t, e)
  {
  }

  /** Clearing an entity that has no heartbeat leaves the store unchanged. */
  lemma ClearAbsentIsNoop(m: Entries, e: Entity)
    requires HeartbeatKey(e) !in m
    ensures AfterClear(m, e) == m
  {
  }

  /** Clearing an entity whose heartbeat has already expired changes no
      lookup of any key from then on: an expired entry left in the map is as
      good as an absent one. */
  lemma ClearExpiredChangesNoLookup(m: Entries, now: nat, e: Entity, t: nat, k: string)
    requires Lookup(m, now, HeartbeatKey(e)).None?
    requires now <= t
    ensures Lookup(AfterClear(m, e), t, k) == Lookup(m, t, k)
  {
  }
}
