# cloudcix_metrics write path, modelled in Dafny

This project models the metric write path of the `cloudcix_metrics` library
(`cloudcix_metrics/metrics.py`). Application code hands the library a deferred
producer of a metric. A one-worker thread pool runs the producers in
submission order. Each produced metric is stamped, tagged and written to
InfluxDB through a client that is created lazily, once, the first time a
database is configured and the client constructor returns.

The model has two layers:

- Pure functions on values:
  - `Config.Settings`: the read-only settings (URL, port, optional database, optional extra tags).
  - `Packet.BuildPacket`: builds the one-point packet.
  - `Connection.GetClient`: the lazy client slot.
  - `Emission.PostMetrics`, `Emission.Post`, `Emission.CurrentCommit`: the write path.
  - `Emission.Drain`: the queue's worker running tasks in order.
- One class, `Metrics.MetricsModule`. Its fields are the Python module's
  globals: the `INFLUX_CLIENT` slot, the pool's queue, and the two shared `{}`
  default dictionaries of `_generate_data_packet` and `_post_metrics`. One
  field has no Python counterpart: `built`, a count of the clients
  constructed, which the model adds to give each client its serial number. Its
  methods are the module's functions. Each method is proved to change the
  state exactly as the pure layer says. Tag dictionaries are heap objects
  (`Packet.TagDict`), so the in-place `tags.update(...)` on the caller's
  dictionary, or on the shared default, shows up in the contracts.

The backend and the rest of the environment are oracle inputs. An
`Connection.Env` says whether the client constructor returns, whether
`create_database` returns, whether `write_points` returns, and the UTC instant
the packet builder reads. The output of `git describe --always` is an
optional string, where `None` means the shell-out raised. A ghost log of
`Connection.Event`s records every constructor call, `create_database` call,
logged error and `write_points` call.

Two behaviours of the code are easy to miss, and the model keeps both:

- The packet builder mutates the caller's tags dictionary, and the shared
  default, in place. It does not work on a copy.
- A `create_database` failure leaves the new client in the slot and returns
  it. Only a constructor failure returns `None`.

## Model

| member | source | states |
|---|---|---|
| `Config.ExtraTags` | cloudcix_metrics/metrics.py:45 | the extra tags are the CLOUDCIX_INFLUX_TAGS setting, or `{}` when the settings have no such attribute |
| `Packet.TagDict.constructor` | cloudcix_metrics/metrics.py:36-46 | a tag dictionary is a heap object holding the given entries, so an in-place update is seen by every holder of it |
| `Metrics.Target` | cloudcix_metrics/metrics.py:113 | the dictionary a `tags` argument names is the one passed, or the function's own shared `{}` default when it is omitted |
| `Packet.Merge` | cloudcix_metrics/metrics.py:45-46 | the updated tags hold every key of the caller's tags and of the extra tags; the extra-tag value wins on a shared key, and keys only in the caller's map keep their value |
| `Packet.BuildPacket` | cloudcix_metrics/metrics.py:36-53 | the tags dictionary afterwards is the merged map; the packet is one point whose measurement and fields are exactly the arguments, whose tags are the merged map and whose time is the build instant |
| `Packet.MergeIdempotent` | cloudcix_metrics/metrics.py:46 | merging the same extra tags twice gives the same map as merging once |
| `Packet.SharedDefaultSettles` | cloudcix_metrics/metrics.py:36-46 | a dictionary reused across builds, like the shared `{}` default, holds exactly the extra tags after the first build and after every later one |
| `Connection.ConfiguredClient` | cloudcix_metrics/metrics.py:76-81 | the client is built with the configured host, port and database, and with ssl exactly when the port is 443 |
| `Connection.SlotCheckPasses` | cloudcix_metrics/metrics.py:74 | a caller goes on to construct exactly when the slot is unset and a database is configured |
| `Connection.FillSlot` | cloudcix_metrics/metrics.py:75-88 | after a passed check: a returning constructor fills the slot, which adds one built client and one `create_database` call; a throwing constructor leaves the slot as it was and the counts unchanged |
| `Connection.GetClient` | cloudcix_metrics/metrics.py:68-89 | returns what the slot holds afterwards; the call log only grows; a filled slot or a missing database leaves the whole state unchanged |
| `Connection.GetClientKeepsInv` | cloudcix_metrics/metrics.py:73-89 | every call preserves the slot invariant: the slot is empty exactly while no client was built, a filled slot holds the only client ever built, and the call log holds one `create_database` call per client built |
| `Connection.GetClientDisabled` | cloudcix_metrics/metrics.py:74-89 | with no database configured, nothing is attempted, the slot stays unset and None is returned |
| `Connection.GetClientReuses` | cloudcix_metrics/metrics.py:74-89 | once a call returned a client, the next call returns the same client and calls neither the constructor nor `create_database` |
| `Connection.GetClientAttempts` | cloudcix_metrics/metrics.py:76-81 | an empty slot with a database configured makes a construction attempt with the configured host, port and database, and ssl exactly when the port is 443 |
| `Connection.ConstructorFailureRetried` | cloudcix_metrics/metrics.py:75-89 | a throwing constructor logs one error, returns None and leaves the slot unset; the next call attempts construction again |
| `Connection.CreateDatabaseFailureKeepsClient` | cloudcix_metrics/metrics.py:76-89 | a throwing `create_database` logs one error, but the slot stays set to the new client and that client is returned |
| `Connection.ConnectSucceeds` | cloudcix_metrics/metrics.py:76-83 | a successful construction fills the slot, ensures the database once and logs nothing |
| `Connection.RacingCallersBuildTwice` | cloudcix_metrics/metrics.py:74-83 | two callers that both pass the check before either assigns the slot build two clients and call `create_database` twice, breaking the invariant |
| `Connection.RacingFailureKeepsClient` | cloudcix_metrics/metrics.py:74-89 | a caller whose check passed before another caller filled the slot, and whose constructor then throws, leaves that other client in the slot and returns it |
| `Connection.SerializedCallersBuildOnce` | cloudcix_metrics/metrics.py:74-83 | with the check-then-set done as one step, two callers build at most one client and call `create_database` at most once |
| `Emission.GetClientWritesNothing` | cloudcix_metrics/metrics.py:68-89 | obtaining a client never writes to the backend |
| `Emission.PostMetrics` | cloudcix_metrics/metrics.py:113-130 | the call log only grows; what it writes is stated by `Emission.PostMetricsWithoutClient` and `Emission.PostMetricsWithClient` |
| `Emission.PostMetricsWithoutClient` | cloudcix_metrics/metrics.py:121-123 | with no client available: no write, tags left untouched, nothing raised |
| `Emission.PostMetricsWithClient` | cloudcix_metrics/metrics.py:124-130 | with a client: exactly one write of the packet with `fields = {'value': value}` and the merged tags, stamped `now`; the tags dictionary holds the merged tags; a refused write raises |
| `Emission.PostMetricsDisabled` | cloudcix_metrics/metrics.py:121-123 | with no database configured, `_post_metrics` changes nothing and raises nothing |
| `Emission.PostMetricsKeepsInv` | cloudcix_metrics/metrics.py:121-130 | `_post_metrics` preserves the slot invariant; its write is not a `create_database` call |
| `Emission.Post` | cloudcix_metrics/metrics.py:106-110 | the call log only grows; what it writes is stated by `Emission.PostWrites` |
| `Emission.PostWrites` | cloudcix_metrics/metrics.py:106-110 | a producer that yields None or raises changes nothing, completing in the first case and raising the producer's failure in the second; a produced metric adds no write without a client, and with one adds exactly the write of its table, value and tags |
| `Emission.CurrentCommit` | cloudcix_metrics/metrics.py:92-94 | the call log only grows; what it writes is stated by `Emission.CurrentCommitWrites`, `Emission.CurrentCommitNoClient` and `Emission.CurrentCommitGitFails` |
| `Emission.PostKeepsInv` | cloudcix_metrics/metrics.py:106-110 | `_post` preserves the slot invariant for every producer outcome |
| `Emission.CurrentCommitWrites` | cloudcix_metrics/metrics.py:92-94 | posts measurement `commit` with the supplied commit when it is truthy and the shell-out's sha otherwise, into the shared default tags, which then hold the extra tags; a refused write raises on the caller's thread, otherwise the call completes |
| `Emission.CurrentCommitNoClient` | cloudcix_metrics/metrics.py:92-94 | without a client, `current_commit` writes nothing and leaves the shared default tags unchanged, whichever commit value it settles on; once a commit value is settled it raises nothing |
| `Emission.Truthy` | cloudcix_metrics/metrics.py:93 | the supplied commit is used exactly when it is present and not the empty string |
| `Emission.CurrentCommitGitFails` | cloudcix_metrics/metrics.py:93 | a falsy commit with a failing shell-out raises before anything is attempted |
| `Emission.Drain` | cloudcix_metrics/metrics.py:21-23 | the call log only grows while the queue drains; order and write counts are stated by `Emission.DrainFifo` and `Emission.DrainWriteBound` |
| `Emission.DrainConcat` | cloudcix_metrics/metrics.py:18 | running tasks `a + b` on the single worker is running `a`, then `b` |
| `Emission.DrainKeepsInv` | cloudcix_metrics/metrics.py:73-89 | in the sequential model, where each check-then-set is one step, any run of tasks by the single worker keeps the slot invariant, so at most one client is built and `create_database` is called at most once |
| `Emission.DrainDisabled` | cloudcix_metrics/metrics.py:74 | with no database configured, any number of tasks cause no call, no write and no state change |
| `Emission.DrainFifo` | cloudcix_metrics/metrics.py:18-23 | with a client available, draining appends exactly one write per task that yields a metric, in submission order, and nothing else; the slot keeps the same client |
| `Emission.DrainWriteBound` | cloudcix_metrics/metrics.py:106-130 | draining adds at most one backend write per task |
| `Emission.ScenarioOneRequest` | cloudcix_metrics/metrics.py:97-130 | database `metrics_test`, a reachable backend and one producer returning `requests`, value 1, tags `{endpoint: /health}`: exactly one point is written, with `{value: 1}` and the endpoint tag plus the extra tags |
| `Emission.ScenarioDisabledCommit` | cloudcix_metrics/metrics.py:92-94 | without a database, `current_commit('abc123')` raises nothing and attempts nothing |
| `Emission.ScenarioBackendDown` | cloudcix_metrics/metrics.py:75-89 | a constructor that always throws and two queued metrics: two attempts, two logged errors, no write |
| `Metrics.MetricsModule.constructor` | cloudcix_metrics/metrics.py:18-28 | at import the slot is unset, the pool is open and empty, and the two default dictionaries are distinct and empty |
| `Metrics.MetricsModule.GetInfluxClient` | cloudcix_metrics/metrics.py:68-89 | the check-then-set on `INFLUX_CLIENT` changes the slot and the log as `GetClient` says, and returns its client |
| `Metrics.MetricsModule.GenerateDataPacket` | cloudcix_metrics/metrics.py:36-53 | updates the dictionary passed, or the shared default when the argument is omitted, in place to the merged tags, and returns the packet of `BuildPacket` |
| `Metrics.MetricsModule.PostMetrics` | cloudcix_metrics/metrics.py:113-130 | changes the slot, the log and the named tags dictionary as `Emission.PostMetrics` says; the pool is untouched |
| `Metrics.MetricsModule.Post` | cloudcix_metrics/metrics.py:106-110 | changes the state as `Emission.Post` says and returns its outcome |
| `Metrics.MetricsModule.CurrentCommit` | cloudcix_metrics/metrics.py:92-94 | posts synchronously through the shared default tags of `_post_metrics`, as `Emission.CurrentCommit` says |
| `Metrics.MetricsModule.PrepareMetrics` | cloudcix_metrics/metrics.py:97-103 | an open pool appends the task at the back of the queue; a closed pool refuses it and raises |
| `Metrics.MetricsModule.WorkerStep` | cloudcix_metrics/metrics.py:103 | the worker runs the oldest queued task and removes it; with an empty queue nothing changes |
| `Metrics.MetricsModule.StopPool` | cloudcix_metrics/metrics.py:21-23 | closes the pool, then runs every queued task in submission order, so the queue ends empty and the state is `Drain` of the queue |

## Left out

- Threads: the `multiprocessing.dummy` pool's scheduling, `apply_async` result objects and the `atexit` registration of `stop_pool` are not modelled. The queue is a sequential FIFO, and `WorkerStep` and `StopPool` stand for the single worker. Calls of `CurrentCommit` can be placed between worker steps, but each call runs to completion before the next starts.
- Metrics.MetricsModule.GetInfluxClient: treats the check-then-set on `INFLUX_CLIENT` as one atomic step. The race between the caller's thread (`current_commit`) and the worker (`_post`) is not part of the class or of `Emission.Drain`. `Emission.DrainKeepsInv` and `Connection.SerializedCallersBuildOnce` hold only under that atomicity. The race itself is exhibited by `Connection.RacingCallersBuildTwice` (see Findings).
- The InfluxDB client library: what the constructor, `create_database` and `write_points` do on the network is not modelled. Each is a success or failure oracle plus an entry in the call log.
- `_get_current_git_sha`: the `git describe --always` shell-out, with its `strip` and `decode`, is an optional string input.
- `datetime.utcnow()`: the instant is an input (`Env.now`).
- Logging: only the fact that an error is logged is kept (`ErrorLogged`). Logger names, messages and tracebacks are not. `urllib3.disable_warnings` is not modelled.
- Settings: missing attributes are not modelled. A missing URL or port would raise inside the `try`. A missing database attribute would raise outside it. Only a missing CLOUDCIX_INFLUX_TAGS, which defaults to `{}`, is modelled.
- Packet aliasing: in Python the point's `tags` entry is the caller's dictionary object itself. The model stores the merged map by value, so changes made to that dictionary after the write are not reflected.
- Producers: a producer is a pure function of its keyword arguments, and the tags dictionary it returns is taken to be fresh. Side effects of producers, and a returned dictionary shared with other code, are not modelled.
- Values: field values are strings, integers or booleans. Floats and other Python objects are not represented, because the library passes them through untouched.
- `CurrentCommit`: only `None` and the empty string count as falsy commits. Other Python falsy values are not modelled.
- `setup.py`: packaging metadata with no behaviour.

## Findings

| source | as written | input that shows it | evidently intended | confidence | as-written member | corrected member |
|---|---|---|---|---|---|---|
| cloudcix_metrics/metrics.py:74-83 | the slot test and the slot assignment are separate steps, and `current_commit` runs `_get_influx_client` on the caller's thread while the pool's worker runs it from `_post` | slot unset, database configured, both threads pass the test before either assigns, both constructors return | one client per process, with the check-then-set done under a lock | not executed; depends on a thread switch between the test and the assignment | `Connection.RacingCallersBuildTwice` | `Connection.SerializedCallersBuildOnce` |
