# DEA container proxy and task, in Dafny

This project models the client-side bookkeeping of the DEA (the Cloud Foundry
droplet execution agent) around its container runtime, Warden:

- `Dea::Container` (`container.dfy`, module `DeaContainer`) is the proxy for one
  runtime container. It keeps a cache of named connections, the container's
  handle, its path and its host IP. It normalises bind mounts for a create
  request, turns a non-zero script exit status into a failure, and retries a
  call for as long as the channel breaks.
- `Dea::Task` (`task.dfy`, module `DeaTask`) is the base unit of work. It
  creates its container lazily and runs one promise at a time behind a busy
  flag. Its limit and stop requests pass the current handle and the
  configured byte limits straight through. Its teardown swallows the runtime
  client's errors and then forgets the handle. Any other error would escape
  with the handle kept, and the model proves that no call of the runtime can
  give one.

`outcomes.dfy` holds Ruby's nil as `Option`, the exceptions as `Error`, and a
resolved promise as `Result`. `warden.dfy` holds the protocol requests and
replies as plain datatypes. It also holds the runtime itself as a `Runtime`
object that answers from scripts fixed in advance:

- a handshake script, in which each connect is accepted or refused with a fault;
- an answer script, in which each request gets a reply or a raised fault.

The runtime records every request it receives and every connection the client
closes. Once the handshake script is used up, every connect is accepted. Once
the answer script is used up, nobody answers, which the client sees as a
broken channel.

Both core classes are imperative, and the model keeps that form:

- `Container` and `Task` are classes whose methods update their fields.
- The connection cache is a `map<string, Connection>` field.
- `handle`, `path` and `hostIp` are `Option` fields.

Each method is proved against a pure function of a snapshot. The snapshot
(`Wire`) holds the runtime's scripts, the requests it has received and the
connection cache:

- `CallOn` specifies `call`.
- `RetryOn` specifies `call_with_retry`.
- `JobOn` specifies each promise of the task.

The properties the source promises are lemmas about these functions.

A connection is abstracted to its name and whether it is still connected. A
call whose answer is a connection error leaves its channel disconnected, so
the next call on that name connects afresh.

## Model

| member | source | states |
|---|---|---|
| `DeaContainer.ModeName` | lib/dea/container/container.rb:10-13 | the mode table maps "ro" to RO and "rw" to RW: each mode's name finds that mode |
| `DeaContainer.ModeOfOnlyItsName` | lib/dea/container/container.rb:10-13 | the table finds a mode only under that mode's own name |
| `DeaContainer.BindMounts` | lib/dea/container/container.rb:148-158 | the mounts keep the input's length and order; each keeps its source; the destination is the given one, else the source; the mode is the table's entry for the given name, else RO |
| `DeaContainer.BindMountsRoundTrip` | lib/dea/container/container.rb:148-158 | any list of mounts spelled out in full (destination and mode given) normalises back to itself |
| `DeaContainer.SourceOnlyIsReadOnlyInPlace` | lib/dea/container/container.rb:152-156 | a mount that gives only its source is mounted read-only at the same path |
| `DeaContainer.ExitStatusOutcome` | lib/dea/container/container.rb:117-128 | a run reply fails with the warden error for its status exactly when the exit status is positive, and is otherwise delivered unchanged |
| `DeaContainer.ScriptOutcome` | lib/dea/container/container.rb:116-128 | a failed run call propagates its error; a reply is judged by its exit status |
| `DeaContainer.PathAndIpOutcome` | lib/dea/container/container.rb:35-41 | the info step succeeds exactly when the call replied with a container path, and then delivers that reply; a reply without a path fails with "container path is not available"; a failed call propagates |
| `DeaContainer.CallOn` | lib/dea/container/container.rb:65-82 | a call sends at most one request, and only its own request on its own channel; a call that sends nothing leaves the cache as it was and fails |
| `DeaContainer.CallReusesLiveChannel` | lib/dea/container/container.rb:65-71 | a call on a live channel performs no connect, sends its request and returns the runtime's answer |
| `DeaContainer.RefusedConnectSendsNothing` | lib/dea/container/container.rb:72-74 | a refused connect raises its fault and changes nothing else: nothing is cached, sent or answered |
| `DeaContainer.CallLeavesChannelLive` | lib/dea/container/container.rb:79-82 | after a call the channel is live exactly when the request went out and was not met by a connection error |
| `DeaContainer.CallKeepsOtherChannels` | lib/dea/container/container.rb:65-77 | a call changes the cache only under its own name, never drops an entry, and keeps each connection under its own name |
| `DeaContainer.FirstCallConnectsThenSends` | lib/dea/container/container.rb:72-81 | on a channel that is not live, an accepted connect is followed by exactly one request; the runtime's answer is returned and the new connection is cached under the name, live unless the answer was a connection error |
| `DeaContainer.SecondCallReusesConnection` | lib/dea/container/container.rb:65-77 | after a call that connected and got a reply, a second call on the same name performs no connect |
| `DeaContainer.CallConsumesScript` | lib/dea/container/container.rb:94-100 | every call uses up a connect or an answer, and a call that breaks the channel leaves the runtime still due to answer |
| `DeaContainer.RetryOn` | lib/dea/container/container.rb:90-107 | `call_with_retry` never gives back a connection error |
| `DeaContainer.RetryTurn` | lib/dea/container/container.rb:94-101 | a connection error costs one retry and the run goes on from where the call left off; any other outcome ends the run with that outcome and no further retries |
| `DeaContainer.RetrySendsOnlyItsRequest` | lib/dea/container/container.rb:94-100 | a retry run only appends to what the runtime received, every request it sends is its own request on its own channel, and it uses one answer per request |
| `DeaContainer.RetryKeepsOtherChannels` | lib/dea/container/container.rb:90-107 | a retry run changes the cache only under its own name, never drops an entry, and keeps each connection under its own name |
| `DeaContainer.RetryDeliversFirstOtherAnswer` | lib/dea/container/container.rb:90-107 | with every connect accepted, k connection errors followed by another answer give that answer after exactly k + 1 requests, with retry count k |
| `DeaContainer.RetryStopsAtRefusedConnect` | lib/dea/container/container.rb:94-101 | a refused connect with a client error propagates at once, with no retry and nothing sent |
| `DeaContainer.Container.constructor` | lib/dea/container/container.rb:18-22 | a new proxy has an empty cache and no handle, path or host IP |
| `DeaContainer.Container.FindConnection` | lib/dea/container/container.rb:45-47 | gives the connection cached under the name, or nil when there is none |
| `DeaContainer.Container.CacheConnection` | lib/dea/container/container.rb:49-51 | stores the connection under the name and changes no other entry |
| `DeaContainer.Container.CloseConnection` | lib/dea/container/container.rb:59-63 | removes only that name and closes the connection cached under it, which carries that name, once; with the name absent, it changes and closes nothing |
| `DeaContainer.Container.CloseAllConnections` | lib/dea/container/container.rb:53-57 | the cache ends empty and each connection that was cached is closed exactly once |
| `DeaContainer.Container.GetConnection` | lib/dea/container/container.rb:65-77 | a live cached connection is returned with the cache untouched; otherwise a connect happens, a refused connect raises with the cache unchanged, and an accepted one is cached under the name with every other entry unchanged |
| `DeaContainer.Container.Call` | lib/dea/container/container.rb:79-82 | the result and the new cache and runtime state are those `CallOn` gives for the old state |
| `DeaContainer.Container.CallWithRetry` | lib/dea/container/container.rb:90-107 | the result, the retry count and the new cache and runtime state are those `RetryOn` gives for the old state |
| `DeaContainer.Container.GetNewWardenNetIn` | lib/dea/container/container.rb:84-88 | sends a net-in request for the current handle on channel "app" and gives the call's result |
| `DeaContainer.Container.PromiseUpdatePathAndIp` | lib/dea/container/container.rb:30-43 | without a handle it fails with "container handle must not be nil", sends nothing and changes nothing; otherwise it asks for info on the handle and fails as `PathAndIpOutcome` says; path and host IP are taken from the reply exactly when it succeeds, and are otherwise unchanged |
| `DeaContainer.Container.PromiseRunScript` | lib/dea/container/container.rb:109-130 | sends a run request with the handle, script and privilege flag (false unless given) on the given channel, and resolves as `ScriptOutcome` says |
| `DeaContainer.Container.PromiseSpawn` | lib/dea/container/container.rb:132-143 | sends a spawn request with the handle, the script and the nproc and nofile limits on channel "app", and delivers the raw reply |
| `DeaContainer.Container.PromiseCreateContainer` | lib/dea/container/container.rb:145-164 | sends a create request with the normalised bind mounts on channel "app"; on success the handle becomes the reply's handle, and on failure the handle is unchanged; path and host IP never change |
| `DeaTask.Delivered` | lib/dea/task.rb:49-50 | a one-call promise delivers exactly when its call returned, and otherwise fails with the call's error |
| `DeaTask.ErrorOf` | lib/dea/task.rb:112-123 | the block receives nil exactly when the promise delivered, and otherwise the promise's error |
| `DeaTask.JobOn` | lib/dea/task.rb:44-88 | the limit and stop promises keep the handle; teardown clears it when it delivers, and keeps it when an error other than a client error escapes |
| `DeaTask.RequestsPassThrough` | lib/dea/task.rb:44-72 | when the connect is not refused, the disk-limit promise sends exactly `LimitDiskRequest(handle, disk limit)` on "app", the memory-limit promise exactly `LimitMemoryRequest(handle, memory limit)` on "app", and stop exactly `StopRequest(handle)` on "stop"; none of them changes the handle |
| `DeaTask.RequestsFailOnlyWithTheirCall` | lib/dea/task.rb:44-72 | the limit and stop promises fail exactly when their call raises |
| `DeaTask.DestroyAlwaysDeliversAndClears` | lib/dea/task.rb:74-88 | since every failure the runtime gives is a client error, which the rescue swallows, teardown always delivers and clears the handle; every request it sends destroys the handle it started with |
| `DeaTask.RetryFailsOnlyWithClientErrors` | lib/dea/task.rb:79-83 | in this model every error `call_with_retry` raises is a runtime client error, the class the rescue catches |
| `DeaTask.Task.constructor` | lib/dea/task.rb:23-26 | a new task has no container and is not busy |
| `DeaTask.Task.GetContainer` | lib/dea/task.rb:32-34 | the first access creates a proxy on the configured socket, with an empty cache and no handle; every later access returns the same object |
| `DeaTask.Task.ContainerHandle` | lib/dea/task.rb:36-38 | gives the container's handle, creating the container first if need be |
| `DeaTask.Task.PromiseLimitDisk` | lib/dea/task.rb:44-52 | sends a disk-limit request with the handle and the configured byte limit on channel "app", then delivers or fails as `JobOn` says |
| `DeaTask.Task.PromiseLimitMemory` | lib/dea/task.rb:54-62 | sends a memory-limit request with the handle and the configured byte limit on channel "app", then delivers or fails as `JobOn` says |
| `DeaTask.Task.PromiseStop` | lib/dea/task.rb:64-72 | sends a stop request with the handle on channel "stop", then delivers or fails as `JobOn` says |
| `DeaTask.Task.PromiseDestroy` | lib/dea/task.rb:74-88 | sends the destroy request with retries, using the handle from before the call; after a reply or a client error it clears the handle and delivers; any other error escapes with the handle kept |
| `DeaTask.Task.RunJob` | lib/dea/task.rb:110-112 | the promise runs while the task is busy, and leaves it busy |
| `DeaTask.Task.Resolve` | lib/dea/task.rb:104-129 | when busy it does nothing and stays busy, without running the promise or the block; otherwise it runs the promise once, hands its error (or nil) to the block once, and ends idle even when the block raises |
| `DeaTask.Task.DestroyInstance` | lib/dea/task.rb:90-102 | teardown runs through the busy guard; when it runs, the callback, if there is one, receives nil and the handle ends cleared; with no callback nothing is called |
| `DeaTask.Task.CopyOutRequest` | lib/dea/task.rb:131-145 | sends a copy-out request with the handle, both paths and the process owner, with retries; it gives the reply, or nothing after a client error; any other error escapes |

## Left out

- Promises and fibers (`dea/promise`, `Promise.resolve`, the elapsed time). Each promise body is one sequential step that delivers (`Ok`) or fails (`Err`). `Resolve` runs the promise named by a `Job`.
- A promise's body runs when the promise is resolved, not when it is built. So `destroy` on a busy task sends nothing and keeps the handle. `Dea::Promise` is not part of this model.
- The promise's result value handed to the block in `resolve`. The block gets only the error. For the promises of this core the delivered value is always nil.
- The block and the callback are modelled as data (`Handler`): they return or raise a given error, and nothing else.
- Logging. This covers the messages of `call_with_retry`, `promise_run_script`, `resolve`, `promise_destroy` and `copy_out_request`, and the `"%.3f"` formatting of the elapsed time.
- The Warden client and its wire format. `info`, `client`, the protobuf classes and the socket are not modelled. Requests are plain datatypes, and the runtime is a scripted oracle.
- Every failure of a connect or a request is modelled as an `EM::Warden::Client::Error` (`Client(_)`). `dea/container/connection` is outside this model, so which exceptions it raises is not known. The path on which another exception escapes `promise_destroy` or `copy_out_request` is modelled, but the model never takes it.
- `dea/container/connection` is not part of this model. A connection is its name and a connected flag. A connect is one handshake from the script and a close is one entry in the runtime's log. When a request is met by a connection error, the model marks its channel disconnected.
- `FileUtils.mkdir_p` in `copy_out_request` is not modelled. `Process.uid.to_s` is the task's `owner`, given at construction.
- `DeaContainer.RetryOn`: requires that some answer in the script is not a connection error. The source loops for ever when no answer other than a connection error comes and no connect is refused with a client error. The model proves termination only when such an answer is scripted. The requires therefore also excludes the runs that a connect refused with a client error would end early, with an answer script that holds only connection errors.
- `DeaContainer.Container.CallWithRetry`: carries the same extra requires.
- `DeaTask.Task.PromiseDestroy`: carries the same extra requires, through `call_with_retry`.
- `DeaTask.Task.DestroyInstance`: carries the same extra requires, through `call_with_retry`, but only when the task is idle. A busy task accepts any runtime.
- `DeaTask.Task.CopyOutRequest`: carries the same extra requires, through `call_with_retry`.
- `DeaTask.Task.RunJob`: carries the same extra requires for the destroy job only (`CanRun`).
- `DeaTask.Task.Resolve`: carries the same extra requires for the destroy job only (`CanRun`), and only when the task is idle. A busy task accepts any runtime.
- `Dea::Task#start` only raises `NotImplemented`, so it is not modelled.
- `paths_to_bind`, `consuming_memory?` and `consuming_disk?` return constants, so they are not modelled.
- task.rb:15-18 duplicates the bind-mount mode table and never uses it.
- `disk_limit_in_bytes` and `memory_limit_in_bytes` are defined by concrete tasks. They are fields of `Config`.
- `Container.new` arity. lib/dea/task.rb:33 passes two arguments (socket and base directory), but lib/dea/container/container.rb:18 accepts only the socket path. The model builds the container from the socket path alone.
- A refused connect raises at lib/dea/container/container.rb:73, before the cache step at line 74, so the cache is left as it was.
- A bind mount's `src_path` is modelled as always present. The source would copy a nil source into the request.
- In the defaults `bm["dst_path"] || bm["src_path"]` and `bm["mode"] || "ro"`, only a missing value counts as absent. The values are strings, so Ruby's `false` never occurs.
- `exit_status` is a protocol `uint32` and is modelled as a `nat`. Nothing in the core does arithmetic on it.
