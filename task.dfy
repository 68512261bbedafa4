/** `Dea::Task`: the base unit of work.  It owns a lazily created container
    proxy, runs at most one promise at a time, and builds the limit, stop,
    destroy and copy-out requests from the container's current handle. */
module DeaTask {
  import opened Outcomes
  import opened Warden
  import opened DeaContainer

  /** The configuration the core reads.  The two byte limits are what a
      concrete task's `disk_limit_in_bytes` and `memory_limit_in_bytes` give. */
  datatype Config = Config(
    wardenSocket: string,
    baseDir: string,
    diskLimitInBytes: nat,
    memoryLimitInBytes: nat)

  /** A block handed to `resolve`, or a callback handed to `destroy`: it
      either returns or raises `raises`. */
  datatype Handler = Handler(raises: Option<Error>)

  /** The promises a task runs through `resolve`. */
  datatype Job = LimitDisk | LimitMemory | Stop | Destroy

  /** What a task's requests read and change: the container's call snapshot
      and its handle. */
  datatype TaskState = TaskState(wire: Wire, handle: Option<string>)

  /** A resolved promise and where it leaves the task. */
  datatype Outcome = Outcome(result: Result<()>, state: TaskState)

  /** A promise that delivers nothing once its call has returned, and fails
      when the call raised. */
  function Delivered(result: Result<Response>): (r: Result<()>)
    ensures r.Ok? <==> result.Ok?
    ensures r.Err? ==> r.error == result.error
  {
    match result
    case Ok(_) => Ok(())
    case Err(e) => Err(e)
  }

  /** The error a resolved promise hands to its block: nil when delivered. */
  function ErrorOf(result: Result<()>): (e: Option<Error>)
    ensures e.None? <==> result.Ok?
    ensures e.Some? ==> e.value == result.error
  {
    match result
    case Ok(_) => None
    case Err(error) => Some(error)
  }

  /** Teardown is modelled only when some scripted answer is not a
      connection error, which guarantees that its retry loop ends. */
  predicate CanRun(job: Job, s: TaskState) {
    job == Destroy ==> EventuallyAnswers(s.wire.answers)
  }

  /** The request a job sends, built from the handle `handle`. */
  function RequestOf(job: Job, config: Config, handle: Option<string>): Request {
    match job
    case LimitDisk => LimitDiskRequest(handle, config.diskLimitInBytes)
    case LimitMemory => LimitMemoryRequest(handle, config.memoryLimitInBytes)
    case Stop => StopRequest(handle)
    case Destroy => DestroyRequest(handle)
  }

  /** The channel a job sends its request on. */
  function ChannelOf(job: Job): string {
    if job == Stop then "stop" else "app"
  }

  /** `promise_limit_disk`, `promise_limit_memory` and `promise_stop` make
      one call and deliver; `promise_destroy` retries its call, swallows the
      runtime client's errors, clears the handle and delivers.  Any other
      error escapes the rescue before the handle is cleared. */
  function JobOn(job: Job, config: Config, s: TaskState): (r: Outcome)
    requires CanRun(job, s)
    ensures job != Destroy ==> r.state.handle == s.handle
    ensures job == Destroy && r.result.Ok? ==> r.state.handle == None
    ensures job == Destroy && r.result.Err? ==> r.state.handle == s.handle && !r.result.error.Client?
  {
    var request := RequestOf(job, config, s.handle);
    if job == Destroy then
      var run := RetryOn(s.wire, ChannelOf(job), request);
      if run.result.Err? && !run.result.error.Client? then
        Outcome(Err(run.result.error), TaskState(run.wire, s.handle))
      else
        Outcome(Ok(()), TaskState(run.wire, None))
    else
      var c := CallOn(s.wire, ChannelOf(job), request);
      Outcome(Delivered(c.result), TaskState(c.wire, s.handle))
  }

  /** The limit and stop promises send exactly one request, built from the
      current handle and the configured limit, when their channel is live or
      its connect is accepted; they never change the handle. */
  lemma RequestsPassThrough(job: Job, config: Config, s: TaskState)
    requires job != Destroy
    requires LiveIn(s.wire.cache, ChannelOf(job)) || NextHandshake(s.wire.handshakes).None?
    ensures var sent := JobOn(job, config, s).state.wire.received;
      && (job == LimitDisk ==>
            sent == s.wire.received + [Sent("app", LimitDiskRequest(s.handle, config.diskLimitInBytes))])
      && (job == LimitMemory ==>
            sent == s.wire.received + [Sent("app", LimitMemoryRequest(s.handle, config.memoryLimitInBytes))])
      && (job == Stop ==>
            sent == s.wire.received + [Sent("stop", StopRequest(s.handle))])
    ensures JobOn(job, config, s).state.handle == s.handle
  {
  }

  /** The limit and stop promises fail exactly when their call raises, with
      the call's error. */
  lemma RequestsFailOnlyWithTheirCall(job: Job, config: Config, s: TaskState)
    requires job != Destroy
    ensures var c := CallOn(s.wire, ChannelOf(job), RequestOf(job, config, s.handle));
      && (JobOn(job, config, s).result.Err? <==> c.result.Err?)
      && (c.result.Err? ==> JobOn(job, config, s).result.error == c.result.error)
  {
  }

  /** Since every failure of the runtime is a client error, `promise_destroy`
      always delivers and always clears the handle, and every request it
      sends is a destroy of the handle it started with. */
  lemma {:induction false} DestroyAlwaysDeliversAndClears(config: Config, s: TaskState)
    requires EventuallyAnswers(s.wire.answers)
    ensures JobOn(Destroy, config, s).result == Ok(())
    ensures JobOn(Destroy, config, s).state.handle == None
    ensures var after := JobOn(Destroy, config, s).state.wire.received;
      && |s.wire.received| <= |after|
      && after[..|s.wire.received|] == s.wire.received
      && forall i :: |s.wire.received| <= i < |after| ==> after[i] == Sent("app", DestroyRequest(s.handle))
  {
    RetryFailsOnlyWithClientErrors(s.wire, "app", DestroyRequest(s.handle));
    RetrySendsOnlyItsRequest(s.wire, "app", DestroyRequest(s.handle));
  }

  /** Whatever `call_with_retry` raises is a runtime client error: the
      runtime's faults are the only failures a call can give. */
  lemma {:induction false} RetryFailsOnlyWithClientErrors(w: Wire, name: string, request: Request)
    requires EventuallyAnswers(w.answers)
    ensures RetryOn(w, name, request).result.Err? ==> RetryOn(w, name, request).result.error.Client?
    decreases |w.answers| + |w.handshakes|
  {
    RetryTurn(w, name, request);
    var c := CallOn(w, name, request);
    if c.result == Err(Client(ConnectionError)) {
      RetryFailsOnlyWithClientErrors(c.wire, name, request);
    }
  }

  class Task {
    const config: Config
    /** The runtime listening on `config.wardenSocket`. */
    const runtime: Runtime
    /** `Process.uid.to_s`: the owner of copied-out files. */
    const owner: string
    var container: Container?
    var busy: bool

    /** A container, once created, talks to this task's runtime. */
    ghost predicate Valid()
      reads this, container
    {
      container != null ==>
        && container.runtime == runtime
        && container.socketPath == config.wardenSocket
        && container.Valid()
    }

    /** The container once it has been created. */
    function Owned(): set<Container>
      reads this
    {
      if container == null then {} else {container}
    }

    /** The handle of the container; a container not yet created has none. */
    function Handle(): Option<string>
      reads this, container
    {
      if container == null then None else container.handle
    }

    /** What the task's requests read and change; a container not yet
        created has no connections. */
    function State(): TaskState
      reads this, runtime, container
    {
      TaskState(
        Wire(runtime.handshakes, runtime.answers, runtime.received,
             if container == null then map[] else container.connections),
        Handle())
    }

    constructor (config: Config, runtime: Runtime, owner: string)
      ensures Valid()
      ensures this.config == config && this.runtime == runtime && this.owner == owner
      ensures container == null && !busy
    {
      this.config := config;
      this.runtime := runtime;
      this.owner := owner;
      container := null;
      busy := false;
    }

    /** `container`: created on first use, the same object afterwards. */
    method GetContainer() returns (c: Container)
      requires Valid()
      modifies this`container
      ensures Valid() && container == c
      ensures old(container) != null ==> c == old(container)
      ensures old(container) == null ==>
        && fresh(c) && c.socketPath == config.wardenSocket
        && c.connections == map[] && c.handle == None && c.path == None && c.hostIp == None
      ensures State() == old(State())
    {
      if container == null {
        container := new Container(config.wardenSocket, runtime);
      }
      c := container;
    }

    /** `container_handle`. */
    method ContainerHandle() returns (h: Option<string>)
      requires Valid()
      modifies this`container
      ensures Valid() && container != null
      ensures old(container) != null ==> container == old(container)
      ensures h == Handle() && State() == old(State())
    {
      var c := GetContainer();
      h := c.handle;
    }

    /** One call of `job`'s request on its channel, for the three promises
        that make exactly one call. */
    method PromiseCall(job: Job) returns (r: Result<()>)
      requires Valid() && job != Destroy
      modifies this`container, Owned()`connections
      modifies runtime`handshakes, runtime`answers, runtime`received
      ensures Valid() && container != null
      ensures old(container) != null ==> container == old(container)
      ensures Outcome(r, State()) == JobOn(job, config, old(State()))
    {
      var c := GetContainer();
      var result := c.Call(ChannelOf(job), RequestOf(job, config, c.handle));
      r := Delivered(result);
    }

    /** `promise_limit_disk`. */
    method PromiseLimitDisk() returns (r: Result<()>)
      requires Valid()
      modifies this`container, Owned()`connections
      modifies runtime`handshakes, runtime`answers, runtime`received
      ensures Valid() && container != null
      ensures old(container) != null ==> container == old(container)
      ensures Outcome(r, State()) == JobOn(LimitDisk, config, old(State()))
    {
      r := PromiseCall(LimitDisk);
    }

    /** `promise_limit_memory`. */
    method PromiseLimitMemory() returns (r: Result<()>)
      requires Valid()
      modifies this`container, Owned()`connections
      modifies runtime`handshakes, runtime`answers, runtime`received
      ensures Valid() && container != null
      ensures old(container) != null ==> container == old(container)
      ensures Outcome(r, State()) == JobOn(LimitMemory, config, old(State()))
    {
      r := PromiseCall(LimitMemory);
    }

    /** `promise_stop`. */
    method PromiseStop() returns (r: Result<()>)
      requires Valid()
      modifies this`container, Owned()`connections
      modifies runtime`handshakes, runtime`answers, runtime`received
      ensures Valid() && container != null
      ensures old(container) != null ==> container == old(container)
      ensures Outcome(r, State()) == JobOn(Stop, config, old(State()))
    {
      r := PromiseCall(Stop);
    }

    /** `promise_destroy`: destroy the container with retries, swallow the
        runtime client's errors, and forget the handle; any other error
        escapes with the handle kept. */
    method PromiseDestroy() returns (r: Result<()>)
      requires Valid() && EventuallyAnswers(runtime.answers)
      modifies this`container, Owned()`connections, Owned()`handle
      modifies runtime`handshakes, runtime`answers, runtime`received
      ensures Valid() && container != null
      ensures old(container) != null ==> container == old(container)
      ensures Outcome(r, State()) == JobOn(Destroy, config, old(State()))
    {
      var c := GetContainer();
      var result, _ := c.CallWithRetry("app", DestroyRequest(c.handle));
      if result.Err? && !result.error.Client? {
        return Err(result.error);
      }
      c.handle := None;
      r := Ok(());
    }

    /** Runs `job`'s promise; only `resolve` does so, while the task is busy. */
    method RunJob(job: Job) returns (r: Result<()>)
      requires Valid() && busy && CanRun(job, State())
      modifies this`container, Owned()`connections, Owned()`handle
      modifies runtime`handshakes, runtime`answers, runtime`received
      ensures Valid() && busy && container != null
      ensures old(container) != null ==> container == old(container)
      ensures Outcome(r, State()) == JobOn(job, config, old(State()))
    {
      match job
      case LimitDisk => r := PromiseLimitDisk();
      case LimitMemory => r := PromiseLimitMemory();
      case Stop => r := PromiseStop();
      case Destroy => r := PromiseDestroy();
    }

    /** `resolve(p, name) { |error, result| block }`: while another promise
        is being resolved nothing happens; otherwise the task is busy while
        `job` runs, the block receives the promise's error (nil when it
        delivered), and the task is idle again afterwards, whether or not
        the block raises.  `handed` is what the block received, `raised`
        what escapes from it. */
    method Resolve(job: Job, block: Handler) returns (handed: Option<Option<Error>>, raised: Option<Error>)
      requires Valid() && (!busy ==> CanRun(job, State()))
      modifies this`busy, this`container, Owned()`connections, Owned()`handle
      modifies runtime`handshakes, runtime`answers, runtime`received
      ensures Valid()
      ensures old(busy) ==>
        && busy && handed == None && raised == None
        && container == old(container) && State() == old(State())
      ensures !old(busy) ==>
        var outcome := JobOn(job, config, old(State()));
        && !busy && container != null
        && (old(container) != null ==> container == old(container))
        && State() == outcome.state
        && handed == Some(ErrorOf(outcome.result))
        && raised == block.raises
    {
      if busy {
        return None, None;
      }
      busy := true;
      var r := RunJob(job);
      handed := Some(ErrorOf(r));
      raised := block.raises;
      busy := false;
    }

    /** `destroy(&callback)`: destroys the container through `resolve` and
        hands the outcome to the callback, when there is one. */
    method DestroyInstance(callback: Option<Handler>) returns (called: Option<Option<Error>>, raised: Option<Error>)
      requires Valid() && (!busy ==> EventuallyAnswers(runtime.answers))
      modifies this`busy, this`container, Owned()`connections, Owned()`handle
      modifies runtime`handshakes, runtime`answers, runtime`received
      ensures Valid()
      ensures old(busy) ==>
        && busy && called == None && raised == None
        && container == old(container) && State() == old(State())
      ensures !old(busy) ==>
        && !busy && container != null && Handle() == None
        && State() == JobOn(Destroy, config, old(State())).state
        && (callback.None? ==> called == None && raised == None)
        && (callback.Some? ==> called == Some(None) && raised == callback.value.raises)
    {
      var block := Handler(if callback.Some? then callback.value.raises else None);
      var handed;
      handed, raised := Resolve(Destroy, block);
      called := if callback.Some? then handed else None;
      if !old(busy) {
        DestroyAlwaysDeliversAndClears(config, old(State()));
      }
    }

    /** `copy_out_request(src, dst)`: copies `src` out of the container to
        `dst`, owned by this process, with retries.  A runtime client error
        is swallowed, so it gives the reply or nothing; any other error
        escapes (`RetryFailsOnlyWithClientErrors`: no retry run gives one). */
    method CopyOutRequest(sourcePath: string, destinationPath: string) returns (r: Result<Option<Response>>)
      requires Valid() && EventuallyAnswers(runtime.answers)
      modifies this`container, Owned()`connections
      modifies runtime`handshakes, runtime`answers, runtime`received
      ensures Valid() && container != null
      ensures old(container) != null ==> container == old(container)
      ensures var run := RetryOn(old(State()).wire, "app",
                                 Warden.CopyOutRequest(old(Handle()), sourcePath, destinationPath, owner));
        && State() == TaskState(run.wire, old(Handle()))
        && (run.result.Ok? ==> r == Ok(Some(run.result.value)))
        && (run.result.Err? && run.result.error.Client? ==> r == Ok(None))
        && (run.result.Err? && !run.result.error.Client? ==> r == Err(run.result.error))
    {
      var c := GetContainer();
      var result, _ := c.CallWithRetry("app", Warden.CopyOutRequest(c.handle, sourcePath, destinationPath, owner));
      if result.Err? && !result.error.Client? {
        return Err(result.error);
      }
      r := Ok(if result.Ok? then Some(result.value) else None);
    }
  }
}
