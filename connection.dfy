/**
 * The connection manager: the process-wide client slot that is filled
 * lazily, reused once filled, and left empty when construction fails.
 */
module Connection {
  import opened Wrappers
  import opened Config
  import opened Packet

  /**
   * A backend client. `serial` counts the clients successfully constructed
   * before this one, so two constructions never yield equal clients.
   */
  datatype Client = Client(serial: nat, host: string, port: int, database: string, ssl: bool)

  /** The calls the library makes to the backend library and to the logger. */
  datatype Event =
    | Connect(host: string, port: int, database: string, ssl: bool)
    | CreateDatabase(client: Client, database: string)
    | ErrorLogged
    | WritePoints(client: Client, points: seq<Point>)

  /**
   * How the outside world answers during one emission: whether the client
   * constructor returns, whether `create_database` returns, whether
   * `write_points` returns, and the UTC instant read by the packet builder.
   */
  datatype Env = Env(constructs: bool, createsDatabase: bool, accepts: bool, now: Instant)

  /**
   * The state the write path changes: the `INFLUX_CLIENT` slot, the number of
   * clients built so far, and the log of calls made.
   */
  datatype World = World(slot: Option<Client>, built: nat, events: seq<Event>)

  /** The state at import time: no client, nothing built, nothing called. */
  function Initial(): World
  {
    World(None, 0, [])
  }

  /** The client the settings describe, with secure transport exactly on port 443. */
  function ConfiguredClient(cfg: Settings, serial: nat): (c: Client)
    requires cfg.database.Some?
    ensures c.host == cfg.url && c.port == cfg.port && c.database == cfg.database.value
    ensures c.ssl <==> cfg.port == 443
  {
    Client(serial, cfg.url, cfg.port, cfg.database.value, cfg.port == 443)
  }

  /** The number of `create_database` calls in a call log. */
  function DatabaseCalls(es: seq<Event>): nat
  {
    if |es| == 0 then 0 else (if es[0].CreateDatabase? then 1 else 0) + DatabaseCalls(es[1..])
  }

  lemma {:induction false} DatabaseCallsAppend(a: seq<Event>, b: seq<Event>)
    ensures DatabaseCalls(a + b) == DatabaseCalls(a) + DatabaseCalls(b)
  {
    if |a| == 0 {
      assert a + b == b;
    } else {
      assert (a + b)[1..] == a[1..] + b;
      DatabaseCallsAppend(a[1..], b);
    }
  }

  /** Appending one call adds one to the count exactly when it is a `create_database` call. */
  lemma DatabaseCallsSnoc(a: seq<Event>, e: Event)
    ensures DatabaseCalls(a + [e]) == DatabaseCalls(a) + (if e.CreateDatabase? then 1 else 0)
  {
    DatabaseCallsAppend(a, [e]);
    assert [e][1..] == [];
  }

  /**
   * The slot invariant: the slot is empty exactly while nothing has been
   * built, a filled slot holds the first and only client ever built, which
   * exists only when a database is configured, and the call log holds one
   * `create_database` call per client built.
   */
  ghost predicate Inv(cfg: Settings, w: World)
  {
    && (w.slot.None? ==> w.built == 0)
    && (w.slot.Some? ==> cfg.database.Some? && w.built == 1 && w.slot.value == ConfiguredClient(cfg, 0))
    && DatabaseCalls(w.events) == w.built
  }

  /** A call that is not `create_database` keeps the invariant. */
  lemma AppendKeepsInv(cfg: Settings, w: World, e: Event)
    requires Inv(cfg, w) && !e.CreateDatabase?
    ensures Inv(cfg, w.(events := w.events + [e]))
  {
    DatabaseCallsSnoc(w.events, e);
  }

  datatype Reply = Reply(world: World, client: Option<Client>)

  /** The test at the head of `_get_influx_client`: whether this caller goes on to construct. */
  predicate SlotCheckPasses(cfg: Settings, w: World)
  {
    w.slot.None? && cfg.database.Some?
  }

  /**
   * The `try` block of `_get_influx_client`, run by a caller whose slot check
   * passed: construct, assign the slot, ensure the database; log any failure.
   * It does not look at the slot again, so a throwing constructor leaves
   * whatever the slot holds by then, possibly another caller's client.
   */
  function FillSlot(cfg: Settings, w: World, env: Env): (r: World)
    requires cfg.database.Some?
    ensures w.events <= r.events
    ensures env.constructs ==> r.slot.Some?
    ensures env.constructs ==> r.built == w.built + 1 && DatabaseCalls(r.events) == DatabaseCalls(w.events) + 1
    ensures !env.constructs ==> r.slot == w.slot && r.built == w.built && DatabaseCalls(r.events) == DatabaseCalls(w.events)
  {
    var db := cfg.database.value;
    var attempted := w.events + [Connect(cfg.url, cfg.port, db, cfg.port == 443)];
    DatabaseCallsSnoc(w.events, Connect(cfg.url, cfg.port, db, cfg.port == 443));
    if !env.constructs then
      DatabaseCallsSnoc(attempted, ErrorLogged);
      World(w.slot, w.built, attempted + [ErrorLogged])
    else
      var c := ConfiguredClient(cfg, w.built);
      var created := attempted + [CreateDatabase(c, db)];
      DatabaseCallsSnoc(attempted, CreateDatabase(c, db));
      DatabaseCallsSnoc(created, ErrorLogged);
      var logged := if env.createsDatabase then created else created + [ErrorLogged];
      World(Some(c), w.built + 1, logged)
  }

  /**
   * `_get_influx_client`. The returned client is always what the slot holds
   * afterwards; the call log only grows; a filled slot or a missing database
   * makes the call touch nothing.
   */
  function GetClient(cfg: Settings, w: World, env: Env): (r: Reply)
    ensures r.client == r.world.slot
    ensures w.events <= r.world.events
    ensures w.slot.Some? ==> r.world == w
    ensures cfg.database.None? ==> r.world == w
  {
    if SlotCheckPasses(cfg, w) then
      var filled := FillSlot(cfg, w, env);
      Reply(filled, filled.slot)
    else
      Reply(w, w.slot)
  }

  /** Every call keeps the slot invariant. */
  lemma GetClientKeepsInv(cfg: Settings, w: World, env: Env)
    requires Inv(cfg, w)
    ensures Inv(cfg, GetClient(cfg, w, env).world)
  {
    if SlotCheckPasses(cfg, w) {
      var filled := FillSlot(cfg, w, env);
      assert env.constructs ==> filled.slot == Some(ConfiguredClient(cfg, 0));
    }
  }

  /** With no database configured nothing is attempted and None is returned. */
  lemma GetClientDisabled(cfg: Settings, w: World, env: Env)
    requires Inv(cfg, w) && cfg.database.None?
    ensures GetClient(cfg, w, env) == Reply(w, None)
  {
  }

  /**
   * Once the slot holds a client, every later call returns that same client
   * and calls neither the constructor nor `create_database`.
   */
  lemma GetClientReuses(cfg: Settings, w: World, env1: Env, env2: Env)
    requires GetClient(cfg, w, env1).client.Some?
    ensures var w1 := GetClient(cfg, w, env1).world;
            GetClient(cfg, w1, env2) == Reply(w1, GetClient(cfg, w, env1).client)
  {
  }

  /**
   * An empty slot with a database configured means one construction attempt,
   * with the configured host, port and database, and ssl exactly on port 443.
   */
  lemma GetClientAttempts(cfg: Settings, w: World, env: Env)
    requires w.slot.None? && cfg.database.Some?
    ensures var r := GetClient(cfg, w, env);
            |r.world.events| > |w.events| &&
            r.world.events[|w.events|] == Connect(cfg.url, cfg.port, cfg.database.value, cfg.port == 443)
  {
  }

  /**
   * A throwing constructor is contained: one error is logged, None is
   * returned, the slot stays empty, and the next call attempts again.
   */
  lemma ConstructorFailureRetried(cfg: Settings, w: World, env1: Env, env2: Env)
    requires w.slot.None? && cfg.database.Some? && !env1.constructs
    ensures var r := GetClient(cfg, w, env1);
            && r.client == None
            && r == Reply(w.(events := w.events + [Connect(cfg.url, cfg.port, cfg.database.value, cfg.port == 443), ErrorLogged]), None)
            && GetClient(cfg, r.world, env2).world.events[|r.world.events|] == Connect(cfg.url, cfg.port, cfg.database.value, cfg.port == 443)
  {
    var r := GetClient(cfg, w, env1);
    GetClientAttempts(cfg, r.world, env2);
  }

  /**
   * A throwing `create_database` is contained differently: the slot was
   * assigned before the call, so it stays filled and the new client is
   * returned, with one error logged after the database call.
   */
  lemma CreateDatabaseFailureKeepsClient(cfg: Settings, w: World, env: Env)
    requires w.slot.None? && cfg.database.Some? && env.constructs && !env.createsDatabase
    ensures var c := ConfiguredClient(cfg, w.built);
            GetClient(cfg, w, env) ==
              Reply(World(Some(c), w.built + 1,
                          w.events + [Connect(cfg.url, cfg.port, cfg.database.value, cfg.port == 443),
                                      CreateDatabase(c, cfg.database.value), ErrorLogged]),
                    Some(c))
  {
  }

  /** On success the database is ensured once and no error is logged. */
  lemma ConnectSucceeds(cfg: Settings, w: World, env: Env)
    requires w.slot.None? && cfg.database.Some? && env.constructs && env.createsDatabase
    ensures var c := ConfiguredClient(cfg, w.built);
            GetClient(cfg, w, env) ==
              Reply(World(Some(c), w.built + 1,
                          w.events + [Connect(cfg.url, cfg.port, cfg.database.value, cfg.port == 443),
                                      CreateDatabase(c, cfg.database.value)]),
                    Some(c))
  {
  }

  /**
   * The check-then-set is not atomic. Two callers, the worker in `_post` and
   * the caller's thread in `current_commit`, can both pass the slot check
   * before either assigns it, and then each constructs a client: two clients
   * are built, `create_database` is called twice, and the invariant fails.
   */
  lemma RacingCallersBuildTwice(cfg: Settings, w: World, env1: Env, env2: Env)
    requires Inv(cfg, w) && SlotCheckPasses(cfg, w) && env1.constructs && env2.constructs
    ensures var raced := FillSlot(cfg, FillSlot(cfg, w, env1), env2);
            raced.built == 2 && DatabaseCalls(raced.events) == 2 && !Inv(cfg, raced)
  {
  }

  /**
   * On the racing input where the late caller's constructor throws, the
   * assignment never runs: the slot keeps the client the first caller put
   * there, and that is what the late caller returns.
   */
  lemma RacingFailureKeepsClient(cfg: Settings, w: World, env1: Env, env2: Env)
    requires Inv(cfg, w) && SlotCheckPasses(cfg, w) && env1.constructs && !env2.constructs
    ensures var first := FillSlot(cfg, w, env1);
            var late := FillSlot(cfg, first, env2);
            late.slot == first.slot == Some(ConfiguredClient(cfg, 0)) && late.built == 1
  {
  }

  /**
   * With the check-then-set done as one step, as a lock around it would make
   * it, two callers build at most one client and call `create_database` at
   * most once, however the backend answers each of them.
   */
  lemma SerializedCallersBuildOnce(cfg: Settings, w: World, env1: Env, env2: Env)
    requires Inv(cfg, w)
    ensures var done := GetClient(cfg, GetClient(cfg, w, env1).world, env2).world;
            Inv(cfg, done) && done.built <= 1 && DatabaseCalls(done.events) <= 1
  {
    GetClientKeepsInv(cfg, w, env1);
    GetClientKeepsInv(cfg, GetClient(cfg, w, env1).world, env2);
  }
}
