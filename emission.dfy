/**
 * The write path: `_post_metrics`, `_post`, `current_commit`, and the
 * single-worker queue drained in submission order.
 */
module Emission {
  import opened Wrappers
  import opened Config
  import opened Packet
  import opened Connection

  /** Why a call raised instead of returning. */
  datatype Cause = WriteFailed | GitFailed | ProducerFailed | PoolClosed

  datatype Outcome = Completed | Raised(cause: Cause)

  /** The `Metric` named tuple a producer returns. */
  datatype Metric = Metric(table: string, value: Value, tags: Tags)

  /** What running a producer gives: `None`, a metric, or an exception. */
  datatype Yield = NoMetric | Emits(metric: Metric) | Fails

  type Kwargs = map<string, Value>

  /** A queued unit of work: the producer and the keyword arguments it is called with. */
  datatype Task = Task(produce: Kwargs -> Yield, kwargs: Kwargs)

  /** The world afterwards, the new contents of the tags dictionary used, and how the call ended. */
  datatype Posted = Posted(world: World, tags: Tags, outcome: Outcome)

  datatype Ran = Ran(world: World, outcome: Outcome)

  /** The backend writes in a call log, in order. */
  function Writes(es: seq<Event>): (r: seq<Event>)
    ensures |r| <= |es|
    ensures forall i :: 0 <= i < |r| ==> r[i].WritePoints? && r[i] in es
  {
    if |es| == 0 then []
    else (if es[0].WritePoints? then [es[0]] else []) + Writes(es[1..])
  }

  lemma {:induction false} WritesAppend(a: seq<Event>, b: seq<Event>)
    ensures Writes(a + b) == Writes(a) + Writes(b)
  {
    if |a| == 0 {
      assert a + b == b;
    } else {
      assert (a + b)[1..] == a[1..] + b;
      WritesAppend(a[1..], b);
    }
  }

  /** A log holding no write contributes no write. */
  lemma {:induction false} WritesNone(es: seq<Event>)
    requires forall i :: 0 <= i < |es| ==> !es[i].WritePoints?
    ensures Writes(es) == []
  {
    if |es| > 0 {
      WritesNone(es[1..]);
    }
  }

  /** Connecting never writes. */
  lemma GetClientWritesNothing(cfg: Settings, w: World, env: Env)
    ensures Writes(GetClient(cfg, w, env).world.events) == Writes(w.events)
  {
    var r := GetClient(cfg, w, env);
    var added := r.world.events[|w.events|..];
    assert r.world.events == w.events + added;
    WritesAppend(w.events, added);
    WritesNone(added);
  }

  /** The packet `_post_metrics` writes: fields are exactly `{'value': value}`. */
  function PacketFor(cfg: Settings, measurement: string, value: Value, tags: Tags, now: Instant): seq<Point>
  {
    BuildPacket(cfg, measurement, map["value" := value], tags, now).packet
  }

  /**
   * `_post_metrics(measurement, value, tags)`: obtain the client; without one
   * return quietly, leaving the tags untouched; with one, build the packet
   * (merging into the tags dictionary) and call `write_points` once, whose
   * failure propagates.
   */
  function PostMetrics(cfg: Settings, w: World, measurement: string, value: Value, tags: Tags, env: Env): (r: Posted)
    ensures w.events <= r.world.events
  {
    var got := GetClient(cfg, w, env);
    match got.client
    case None => Posted(got.world, tags, Completed)
    case Some(c) =>
      var b := BuildPacket(cfg, measurement, map["value" := value], tags, env.now);
      Posted(got.world.(events := got.world.events + [WritePoints(c, b.packet)]), b.tags,
             if env.accepts then Completed else Raised(WriteFailed))
  }

  /** Without a client: no write, tags untouched, nothing raised. */
  lemma PostMetricsWithoutClient(cfg: Settings, w: World, measurement: string, value: Value, tags: Tags, env: Env)
    requires GetClient(cfg, w, env).client.None?
    ensures var r := PostMetrics(cfg, w, measurement, value, tags, env);
            Writes(r.world.events) == Writes(w.events) && r.tags == tags && r.outcome == Completed
  {
    GetClientWritesNothing(cfg, w, env);
  }

  /**
   * With a client: exactly one write, of the single point carrying the
   * measurement, the merged tags, `{'value': value}` and the build instant;
   * the tags dictionary then holds the merged tags; a refused write raises.
   */
  lemma PostMetricsWithClient(cfg: Settings, w: World, measurement: string, value: Value, tags: Tags, env: Env)
    requires GetClient(cfg, w, env).client.Some?
    ensures var c := GetClient(cfg, w, env).client.value;
            var r := PostMetrics(cfg, w, measurement, value, tags, env);
            && Writes(r.world.events) == Writes(w.events) +
                 [WritePoints(c, [Point(measurement, Merge(tags, ExtraTags(cfg)), map["value" := value], env.now)])]
            && r.world.slot == Some(c)
            && r.tags == Merge(tags, ExtraTags(cfg))
            && r.outcome == (if env.accepts then Completed else Raised(WriteFailed))
  {
    var got := GetClient(cfg, w, env);
    var c := got.client.value;
    var p := BuildPacket(cfg, measurement, map["value" := value], tags, env.now).packet;
    GetClientWritesNothing(cfg, w, env);
    WritesAppend(got.world.events, [WritePoints(c, p)]);
    assert Writes([WritePoints(c, p)]) == [WritePoints(c, p)] by {
      assert [WritePoints(c, p)][1..] == [];
    }
    assert p == [Point(measurement, Merge(tags, ExtraTags(cfg)), map["value" := value], env.now)];
  }

  /** With no database configured `_post_metrics` changes nothing at all. */
  lemma PostMetricsDisabled(cfg: Settings, w: World, measurement: string, value: Value, tags: Tags, env: Env)
    requires Inv(cfg, w) && cfg.database.None?
    ensures PostMetrics(cfg, w, measurement, value, tags, env) == Posted(w, tags, Completed)
  {
  }

  /**
   * `_post(preprocess, **kwargs)`: run the producer; on `None` stop, otherwise
   * post the metric's table, value and tags. An exception from the producer
   * propagates and nothing is posted.
   */
  function Post(cfg: Settings, w: World, task: Task, env: Env): (r: Ran)
    ensures w.events <= r.world.events
  {
    match task.produce(task.kwargs)
    case NoMetric => Ran(w, Completed)
    case Fails => Ran(w, Raised(ProducerFailed))
    case Emits(m) =>
      var p := PostMetrics(cfg, w, m.table, m.value, m.tags, env);
      Ran(p.world, p.outcome)
  }

  /** The writes one task adds, for a given client: none, or the one point of its metric. */
  function TaskWrites(cfg: Settings, c: Client, task: Task, now: Instant): seq<Event>
  {
    match task.produce(task.kwargs)
    case Emits(m) => [WritePoints(c, PacketFor(cfg, m.table, m.value, m.tags, now))]
    case _ => []
  }

  /**
   * A task adds no write when its producer yields nothing or raises, and at
   * most one write otherwise: exactly the metric's point when a client is
   * available.
   */
  lemma PostWrites(cfg: Settings, w: World, task: Task, env: Env)
    ensures var r := Post(cfg, w, task, env);
            var got := GetClient(cfg, w, env);
            && (!task.produce(task.kwargs).Emits? ==> r.world == w)
            && (task.produce(task.kwargs).NoMetric? ==> r.outcome == Completed)
            && (task.produce(task.kwargs).Fails? ==> r.outcome == Raised(ProducerFailed))
            && (task.produce(task.kwargs).Emits? && got.client.None? ==> Writes(r.world.events) == Writes(w.events))
            && (task.produce(task.kwargs).Emits? && got.client.Some? ==>
                  Writes(r.world.events) == Writes(w.events) + TaskWrites(cfg, got.client.value, task, env.now))
  {
    match task.produce(task.kwargs)
    case NoMetric =>
    case Fails =>
    case Emits(m) =>
      if GetClient(cfg, w, env).client.None? {
        PostMetricsWithoutClient(cfg, w, m.table, m.value, m.tags, env);
      } else {
        PostMetricsWithClient(cfg, w, m.table, m.value, m.tags, env);
      }
  }

  /** Python truthiness of the optional commit string. */
  predicate Truthy(commit: Option<string>)
  {
    commit.Some? && commit.value != ""
  }

  /**
   * `current_commit(commit)`: the supplied commit when truthy, otherwise the
   * `git describe --always` output (`describe` is `None` when the shell-out
   * raises, which propagates); then `_post_metrics('commit', value)` with the
   * shared default tags dictionary, whose contents are `defaultTags`.
   */
  function CurrentCommit(cfg: Settings, w: World, commit: Option<string>, describe: Option<string>,
                         defaultTags: Tags, env: Env): (r: Posted)
    ensures w.events <= r.world.events
  {
    if Truthy(commit) then PostMetrics(cfg, w, "commit", Str(commit.value), defaultTags, env)
    else if describe.Some? then PostMetrics(cfg, w, "commit", Str(describe.value), defaultTags, env)
    else Posted(w, defaultTags, Raised(GitFailed))
  }

  /**
   * The commit posted is the supplied one when truthy and the shell-out's
   * otherwise; it is posted under measurement `commit` into the shared
   * default tags, which then hold the extra tags merged in.
   */
  lemma CurrentCommitWrites(cfg: Settings, w: World, commit: Option<string>, describe: Option<string>,
                            defaultTags: Tags, env: Env)
    requires Truthy(commit) || describe.Some?
    requires GetClient(cfg, w, env).client.Some?
    ensures var r := CurrentCommit(cfg, w, commit, describe, defaultTags, env);
            var sha := if Truthy(commit) then commit.value else describe.value;
            && Writes(r.world.events) == Writes(w.events) +
                 [WritePoints(GetClient(cfg, w, env).client.value,
                              [Point("commit", Merge(defaultTags, ExtraTags(cfg)), map["value" := Str(sha)], env.now)])]
            && r.tags == Merge(defaultTags, ExtraTags(cfg))
            && r.outcome == (if env.accepts then Completed else Raised(WriteFailed))
  {
    var sha := if Truthy(commit) then commit.value else describe.value;
    PostMetricsWithClient(cfg, w, "commit", Str(sha), defaultTags, env);
  }

  /**
   * Without a client, `current_commit` writes nothing and leaves the shared
   * default tags as they were, whichever commit value it settles on.
   */
  lemma CurrentCommitNoClient(cfg: Settings, w: World, commit: Option<string>, describe: Option<string>,
                              defaultTags: Tags, env: Env)
    requires GetClient(cfg, w, env).client.None?
    ensures var r := CurrentCommit(cfg, w, commit, describe, defaultTags, env);
            && Writes(r.world.events) == Writes(w.events) && r.tags == defaultTags
            && ((Truthy(commit) || describe.Some?) ==> r.outcome == Completed)
  {
    if Truthy(commit) {
      PostMetricsWithoutClient(cfg, w, "commit", Str(commit.value), defaultTags, env);
    } else if describe.Some? {
      PostMetricsWithoutClient(cfg, w, "commit", Str(describe.value), defaultTags, env);
    }
  }

  /** A falsy commit with a failing shell-out raises before anything is attempted. */
  lemma CurrentCommitGitFails(cfg: Settings, w: World, commit: Option<string>, defaultTags: Tags, env: Env)
    requires !Truthy(commit)
    ensures CurrentCommit(cfg, w, commit, None, defaultTags, env) == Posted(w, defaultTags, Raised(GitFailed))
  {
  }

  /**
   * The queue's worker running the tasks `ts` in order, the backend answering
   * the i-th of them (counted from `k`) as `env(i)` says. Task outcomes are
   * kept by the pool and never reach the submitter.
   */
  function Drain(cfg: Settings, w: World, ts: seq<Task>, env: nat -> Env, k: nat): (r: World)
    ensures w.events <= r.events
    decreases |ts|
  {
    if |ts| == 0 then w
    else Drain(cfg, Post(cfg, w, ts[0], env(k)).world, ts[1..], env, k + 1)
  }

  /** Running `a + b` is running `a`, then `b`. */
  lemma {:induction false} DrainConcat(cfg: Settings, w: World, a: seq<Task>, b: seq<Task>, env: nat -> Env, k: nat)
    ensures Drain(cfg, w, a + b, env, k) == Drain(cfg, Drain(cfg, w, a, env, k), b, env, k + |a|)
    decreases |a|
  {
    if |a| == 0 {
      assert a + b == b;
    } else {
      assert (a + b)[0] == a[0];
      assert (a + b)[1..] == a[1..] + b;
      DrainConcat(cfg, Post(cfg, w, a[0], env(k)).world, a[1..], b, env, k + 1);
    }
  }

  /** `_post_metrics` keeps the slot invariant. */
  lemma PostMetricsKeepsInv(cfg: Settings, w: World, measurement: string, value: Value, tags: Tags, env: Env)
    requires Inv(cfg, w)
    ensures Inv(cfg, PostMetrics(cfg, w, measurement, value, tags, env).world)
  {
    var got := GetClient(cfg, w, env);
    GetClientKeepsInv(cfg, w, env);
    if got.client.Some? {
      var b := BuildPacket(cfg, measurement, map["value" := value], tags, env.now);
      AppendKeepsInv(cfg, got.world, WritePoints(got.client.value, b.packet));
    }
  }

  /** `_post` keeps the slot invariant. */
  lemma PostKeepsInv(cfg: Settings, w: World, task: Task, env: Env)
    requires Inv(cfg, w)
    ensures Inv(cfg, Post(cfg, w, task, env).world)
  {
    if task.produce(task.kwargs).Emits? {
      var m := task.produce(task.kwargs).metric;
      PostMetricsKeepsInv(cfg, w, m.table, m.value, m.tags, env);
    }
  }

  /**
   * Every drained task keeps the slot invariant, so a queue run by one worker
   * builds at most one client and calls `create_database` at most once.
   */
  lemma {:induction false} DrainKeepsInv(cfg: Settings, w: World, ts: seq<Task>, env: nat -> Env, k: nat)
    requires Inv(cfg, w)
    ensures Inv(cfg, Drain(cfg, w, ts, env, k)) && Drain(cfg, w, ts, env, k).built <= 1
    ensures DatabaseCalls(Drain(cfg, w, ts, env, k).events) <= 1
    decreases |ts|
  {
    if |ts| > 0 {
      PostKeepsInv(cfg, w, ts[0], env(k));
      DrainKeepsInv(cfg, Post(cfg, w, ts[0], env(k)).world, ts[1..], env, k + 1);
    }
  }

  /** With no database configured, any number of tasks change nothing: no call, no write. */
  lemma {:induction false} DrainDisabled(cfg: Settings, w: World, ts: seq<Task>, env: nat -> Env, k: nat)
    requires Inv(cfg, w) && cfg.database.None?
    ensures Drain(cfg, w, ts, env, k) == w
    decreases |ts|
  {
    if |ts| > 0 {
      assert Post(cfg, w, ts[0], env(k)).world == w;
      DrainDisabled(cfg, w, ts[1..], env, k + 1);
    }
  }

  /** The writes expected from tasks `ts` against client `c`, in submission order. */
  function Scheduled(cfg: Settings, c: Client, ts: seq<Task>, env: nat -> Env, k: nat): seq<Event>
    decreases |ts|
  {
    if |ts| == 0 then []
    else TaskWrites(cfg, c, ts[0], env(k).now) + Scheduled(cfg, c, ts[1..], env, k + 1)
  }

  /**
   * FIFO: once a client is available, draining the queue appends exactly one
   * write per task that yields a metric, in submission order, and nothing
   * else; the slot keeps the same client throughout.
   */
  lemma {:induction false} DrainFifo(cfg: Settings, w: World, c: Client, ts: seq<Task>, env: nat -> Env, k: nat)
    requires w.slot == Some(c)
    ensures Drain(cfg, w, ts, env, k) == w.(events := w.events + Scheduled(cfg, c, ts, env, k))
    decreases |ts|
  {
    if |ts| == 0 {
      assert w.events + [] == w.events;
    } else {
      var next := Post(cfg, w, ts[0], env(k)).world;
      assert next == w.(events := w.events + TaskWrites(cfg, c, ts[0], env(k).now));
      DrainFifo(cfg, next, c, ts[1..], env, k + 1);
      assert w.events + TaskWrites(cfg, c, ts[0], env(k).now) + Scheduled(cfg, c, ts[1..], env, k + 1)
          == w.events + Scheduled(cfg, c, ts, env, k);
    }
  }

  /** Draining `ts` adds at most one backend write per task. */
  lemma {:induction false} DrainWriteBound(cfg: Settings, w: World, ts: seq<Task>, env: nat -> Env, k: nat)
    ensures |Writes(Drain(cfg, w, ts, env, k).events)| <= |Writes(w.events)| + |ts|
    decreases |ts|
  {
    if |ts| > 0 {
      var next := Post(cfg, w, ts[0], env(k)).world;
      PostWrites(cfg, w, ts[0], env(k));
      assert |Writes(next.events)| <= |Writes(w.events)| + 1;
      DrainWriteBound(cfg, next, ts[1..], env, k + 1);
    }
  }

  /**
   * A reachable backend with database `metrics_test` and one producer
   * returning `requests`, value 1, tags `{endpoint: /health}`: exactly one
   * point is written, carrying `{value: 1}` and the endpoint tag plus the
   * extra tags.
   */
  lemma ScenarioOneRequest(url: string, port: int, extra: Option<Tags>, env: nat -> Env)
    requires env(0).constructs && env(0).createsDatabase
    ensures var cfg := Settings(url, port, Some("metrics_test"), extra);
            var task := Task((_: Kwargs) => Emits(Metric("requests", Int(1), map["endpoint" := "/health"])), map[]);
            Writes(Drain(cfg, Initial(), [task], env, 0).events) ==
              [WritePoints(ConfiguredClient(cfg, 0),
                           [Point("requests", Merge(map["endpoint" := "/health"], ExtraTags(cfg)),
                                  map["value" := Int(1)], env(0).now)])]
  {
    var cfg := Settings(url, port, Some("metrics_test"), extra);
    var task := Task((_: Kwargs) => Emits(Metric("requests", Int(1), map["endpoint" := "/health"])), map[]);
    assert [task][1..] == [];
    PostWrites(cfg, Initial(), task, env(0));
    assert Writes(Initial().events) == [];
  }

  /** No database configured: `current_commit('abc123')` raises nothing and attempts nothing. */
  lemma ScenarioDisabledCommit(url: string, port: int, extra: Option<Tags>, defaultTags: Tags, env: Env)
    ensures var cfg := Settings(url, port, None, extra);
            CurrentCommit(cfg, Initial(), Some("abc123"), None, defaultTags, env) == Posted(Initial(), defaultTags, Completed)
  {
  }

  /**
   * A constructor that always throws and two queued metrics: two attempts,
   * two logged errors, no write.
   */
  lemma ScenarioBackendDown(url: string, port: int, db: string, extra: Option<Tags>, t1: Task, t2: Task, env: nat -> Env)
    requires t1.produce(t1.kwargs).Emits? && t2.produce(t2.kwargs).Emits?
    requires !env(0).constructs && !env(1).constructs
    ensures var cfg := Settings(url, port, Some(db), extra);
            var attempt := Connect(url, port, db, port == 443);
            Drain(cfg, Initial(), [t1, t2], env, 0) == World(None, 0, [attempt, ErrorLogged, attempt, ErrorLogged])
  {
    var cfg := Settings(url, port, Some(db), extra);
    var attempt := Connect(url, port, db, port == 443);
    var w1 := Post(cfg, Initial(), t1, env(0)).world;
    assert w1 == World(None, 0, [attempt, ErrorLogged]);
    var w2 := Post(cfg, w1, t2, env(1)).world;
    assert w2 == World(None, 0, [attempt, ErrorLogged, attempt, ErrorLogged]);
    assert [t1, t2][1..] == [t2];
    assert [t2][1..] == [];
    assert Drain(cfg, w1, [t2], env, 1) == Drain(cfg, w2, [], env, 2);
  }
}
