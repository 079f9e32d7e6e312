/**
 * The `cloudcix_metrics.metrics` module as an object: its globals are the
 * fields (the `INFLUX_CLIENT` slot, the one-worker pool's queue, the two
 * shared `{}` default dictionaries), its functions are the methods. Every
 * method is proved to change the state as the pure model in Connection and
 * Emission says.
 */
module Metrics {
  import opened Wrappers
  import opened Config
  import opened Packet
  import opened Connection
  import opened Emission

  /** The dictionary a `tags` argument names: the one passed, or the shared default. */
  function Target(tags: Option<TagDict>, default: TagDict): TagDict
  {
    if tags.Some? then tags.value else default
  }

  class MetricsModule {
    const settings: Settings
    /** The dictionary behind `_generate_data_packet`'s `tags={}` default. */
    const packetDefault: TagDict
    /** The dictionary behind `_post_metrics`'s `tags={}` default. */
    const postDefault: TagDict
    /** `INFLUX_CLIENT`. */
    var influxClient: Option<Client>
    /**
     * How many clients have been constructed successfully. No Python global
     * matches it: the model keeps it to give each client its serial.
     */
    var built: nat
    /** The calls made to the backend library and the logger, in order. */
    ghost var events: seq<Event>
    /** Tasks submitted to the pool and not yet run, oldest first. */
    var pending: seq<Task>
    /** False once `stop_pool` has closed the pool. */
    var running: bool

    ghost function State(): World
      reads this
    {
      World(influxClient, built, events)
    }

    ghost predicate Valid()
      reads this
    {
      Inv(settings, State())
    }

    /** Module import: no client, an open empty pool, empty defaults. */
    constructor (settings: Settings)
      ensures Valid() && State() == Initial() && this.settings == settings
      ensures pending == [] && running
      ensures fresh(packetDefault) && fresh(postDefault) && packetDefault != postDefault
      ensures packetDefault.entries == map[] && postDefault.entries == map[]
    {
      this.settings := settings;
      packetDefault := new TagDict(map[]);
      postDefault := new TagDict(map[]);
      influxClient := None;
      built := 0;
      events := [];
      pending := [];
      running := true;
    }

    /** `_get_influx_client`: check the slot, then try to fill it. */
    method GetInfluxClient(env: Env) returns (client: Option<Client>)
      requires Valid()
      modifies this
      ensures Valid()
      ensures State() == GetClient(settings, old(State()), env).world
      ensures client == GetClient(settings, old(State()), env).client
      ensures pending == old(pending) && running == old(running)
    {
      GetClientKeepsInv(settings, State(), env);
      // the test and the assignment below are one step here; see RacingCallersBuildTwice
      if influxClient.None? && settings.database.Some? {
        var db := settings.database.value;
        events := events + [Connect(settings.url, settings.port, db, settings.port == 443)];
        if env.constructs {
          // the slot is assigned before the database is ensured
          influxClient := Some(Client(built, settings.url, settings.port, db, settings.port == 443));
          built := built + 1;
          events := events + [CreateDatabase(influxClient.value, db)];
          if !env.createsDatabase {
            events := events + [ErrorLogged];
          }
        } else {
          events := events + [ErrorLogged];
        }
      }
      client := influxClient;
    }

    /**
     * `_generate_data_packet`: updates the named dictionary in place with the
     * extra tags (the shared default when `tags` is omitted) and returns the
     * one-point packet.
     */
    method GenerateDataPacket(measurement: string, fields: map<string, Value>, tags: Option<TagDict>, now: Instant)
      returns (data: seq<Point>)
      modifies Target(tags, packetDefault)
      ensures var b := BuildPacket(settings, measurement, fields, old(Target(tags, packetDefault).entries), now);
              Target(tags, packetDefault).entries == b.tags && data == b.packet
    {
      var d := Target(tags, packetDefault);
      d.entries := Merge(d.entries, ExtraTags(settings));
      data := [Point(measurement, d.entries, fields, now)];
    }

    /** `_post_metrics`: the tags dictionary named is the one updated in place. */
    method PostMetrics(measurement: string, value: Value, tags: Option<TagDict>, env: Env) returns (outcome: Outcome)
      requires Valid()
      modifies this, Target(tags, postDefault)
      ensures Valid()
      ensures var r := Emission.PostMetrics(settings, old(State()), measurement, value,
                                           old(Target(tags, postDefault).entries), env);
              State() == r.world && Target(tags, postDefault).entries == r.tags && outcome == r.outcome
      ensures pending == old(pending) && running == old(running)
    {
      var d := Target(tags, postDefault);
      var client := GetInfluxClient(env);
      if client.None? {
        return Completed;
      }
      var data := GenerateDataPacket(measurement, map["value" := value], Some(d), env.now);
      AppendKeepsInv(settings, State(), WritePoints(client.value, data));
      events := events + [WritePoints(client.value, data)];
      outcome := if env.accepts then Completed else Raised(WriteFailed);
    }

    /** `_post`: the producer's tags dictionary is a fresh one. */
    method Post(task: Task, env: Env) returns (outcome: Outcome)
      requires Valid()
      modifies this
      ensures Valid()
      ensures var r := Emission.Post(settings, old(State()), task, env);
              State() == r.world && outcome == r.outcome
      ensures pending == old(pending) && running == old(running)
    {
      var metric := task.produce(task.kwargs);
      match metric
      case NoMetric =>
        outcome := Completed;
      case Fails =>
        outcome := Raised(ProducerFailed);
      case Emits(m) =>
        var tags := new TagDict(m.tags);
        outcome := PostMetrics(m.table, m.value, Some(tags), env);
    }

    /**
     * `current_commit`: posts synchronously, on the caller's thread, into the
     * shared default tags of `_post_metrics`.
     */
    method CurrentCommit(commit: Option<string>, describe: Option<string>, env: Env) returns (outcome: Outcome)
      requires Valid()
      modifies this, postDefault
      ensures Valid()
      ensures var r := Emission.CurrentCommit(settings, old(State()), commit, describe, old(postDefault.entries), env);
              State() == r.world && postDefault.entries == r.tags && outcome == r.outcome
      ensures pending == old(pending) && running == old(running)
    {
      var sha: string;
      if Truthy(commit) {
        sha := commit.value;
      } else if describe.Some? {
        sha := describe.value;
      } else {
        return Raised(GitFailed);
      }
      outcome := PostMetrics("commit", Str(sha), None, env);
    }

    /** `prepare_metrics`: queue the task; a closed pool refuses it. */
    method PrepareMetrics(task: Task) returns (outcome: Outcome)
      modifies this`pending
      ensures old(running) ==> pending == old(pending) + [task] && outcome == Completed
      ensures !old(running) ==> pending == old(pending) && outcome == Raised(PoolClosed)
    {
      if running {
        pending := pending + [task];
        outcome := Completed;
      } else {
        outcome := Raised(PoolClosed);
      }
    }

    /** The pool's worker taking the oldest task; its outcome stays in the pool. */
    method WorkerStep(env: Env) returns (ran: bool)
      requires Valid()
      modifies this
      ensures Valid()
      ensures ran == (|old(pending)| > 0) && running == old(running)
      ensures ran ==> State() == Emission.Post(settings, old(State()), old(pending)[0], env).world
                      && pending == old(pending)[1..]
      ensures !ran ==> State() == old(State()) && pending == old(pending)
    {
      if |pending| == 0 {
        return false;
      }
      var _ := Post(pending[0], env);
      pending := pending[1..];
      ran := true;
    }

    /**
     * `stop_pool`: close the pool to new tasks, then run every queued task
     * in submission order; the i-th sees the backend as `env(i)`.
     */
    method StopPool(env: nat -> Env)
      requires Valid()
      modifies this
      ensures Valid() && !running && pending == []
      ensures State() == Drain(settings, old(State()), old(pending), env, 0)
    {
      running := false;
      var i := 0;
      while |pending| > 0
        invariant Valid() && !running
        invariant Drain(settings, State(), pending, env, i) == Drain(settings, old(State()), old(pending), env, 0)
        decreases |pending|
      {
        var _ := Post(pending[0], env(i));
        pending := pending[1..];
        i := i + 1;
      }
    }
  }
}
