/** A client of the heartbeat store: what callers can conclude from the
    contracts alone. */
module HeartbeatScenarios {
  import opened Wrappers
  import opened HeartbeatKeys
  import opened KeyValueStore
  import opened Heartbeat

  /** Experiment 42 pings; it is alive and experiment 43 is not; a clear or
      an elapsed time-to-live makes 42 dead again; bad arguments are refused. */
  method PingClearAndExpire(ttl: Duration) {
    var red := new Store();
    var before := RedisHeartBeat.ExperimentIsAlive(red, ttl, Some(42));
    assert before == Success(false);

    var pinged := RedisHeartBeat.ExperimentPing(red, ttl, Some(42));
    assert pinged.Success?;
    PingThenAlive(map[], 0, ttl, Experiment(42), 0);
    var alive := RedisHeartBeat.ExperimentIsAlive(red, ttl, Some(42));
    assert alive == Success(true);

    PingLeavesOthers(map[], 0, ttl, Experiment(42), Experiment(43), 0);
    PingLeavesOthers(map[], 0, ttl, Experiment(42), Job(42), 0);
    var other := RedisHeartBeat.ExperimentIsAlive(red, ttl, Some(43));
    assert other == Success(false);
    var job := RedisHeartBeat.JobIsAlive(red, ttl, Some(42));
    assert job == Success(false);

    var refused := RedisHeartBeat.JobPing(red, ttl, Some(0));
    assert refused == Failure(ValueError);
    var none := RedisHeartBeat.BuildIsAlive(red, ttl, None);
    assert none == Failure(ValueError);

    red.Advance(ttl);
    PingExpires(map[], 0, ttl, Experiment(42), ttl);
    var expired := RedisHeartBeat.ExperimentIsAlive(red, ttl, Some(42));
    assert expired == Success(false);

    var again := RedisHeartBeat.ExperimentPing(red, ttl, Some(42));
    var hb := RedisHeartBeat.Create(Some(42), None, None, red, ttl);
    assert hb.Success?;
    hb.value.Clear();
    var cleared := hb.value.IsAlive();
    assert !cleared;
  }
}
