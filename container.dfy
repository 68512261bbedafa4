/** `Dea::Container`: the client-side proxy for one runtime container, with
    its cache of named connections and its identity (handle, path, host IP). */
module DeaContainer {
  import opened Outcomes
  import opened Warden

  // ---------------------------------------------------------------------
  // Bind mounts
  // ---------------------------------------------------------------------

  /** A bind mount as the caller gives it: destination and mode may be absent. */
  datatype BindMountSpec = BindMountSpec(srcPath: string, dstPath: Option<string>, mode: Option<string>)

  /** `BIND_MOUNT_MODE_MAP`: the mode names the runtime understands. */
  function ModeOf(name: string): Option<Mode> {
    if name == "ro" then Some(RO)
    else if name == "rw" then Some(RW)
    else None
  }

  /** The name under which the mode table lists a mode. */
  function ModeName(m: Mode): (name: string)
    ensures ModeOf(name) == Some(m)
  {
    match m
    case RO => "ro"
    case RW => "rw"
  }

  /** The table finds a mode only under that mode's own name. */
  lemma ModeOfOnlyItsName(name: string, m: Mode)
    requires ModeOf(name) == Some(m)
    ensures name == ModeName(m)
  {
  }

  /** One element of the `bind_mounts.map` in `promise_create_container`. */
  function BindMountOf(spec: BindMountSpec): BindMount {
    BindMount(spec.srcPath, spec.dstPath.GetOr(spec.srcPath), ModeOf(spec.mode.GetOr("ro")))
  }

  /** The bind mounts of a create request, element by element in the given
      order: the destination defaults to the source, the mode to "ro". */
  function BindMounts(specs: seq<BindMountSpec>): (mounts: seq<BindMount>)
    ensures |mounts| == |specs|
    ensures forall i :: 0 <= i < |specs| ==>
      && mounts[i].srcPath == specs[i].srcPath
      && (specs[i].dstPath.None? ==> mounts[i].dstPath == specs[i].srcPath)
      && (specs[i].dstPath.Some? ==> mounts[i].dstPath == specs[i].dstPath.value)
      && (specs[i].mode.None? ==> mounts[i].mode == Some(RO))
      && (specs[i].mode.Some? ==> mounts[i].mode == ModeOf(specs[i].mode.value))
  {
    if specs == [] then [] else [BindMountOf(specs[0])] + BindMounts(specs[1..])
  }

  /** The fully specified bind mount that asks for exactly `bm`. */
  function SpecOf(bm: BindMount): BindMountSpec
    requires bm.mode.Some?
  {
    BindMountSpec(bm.srcPath, Some(bm.dstPath), Some(ModeName(bm.mode.value)))
  }

  /** Normalisation gives back any list of mounts that was spelled out in full. */
  lemma {:induction false} BindMountsRoundTrip(mounts: seq<BindMount>)
    requires forall i :: 0 <= i < |mounts| ==> mounts[i].mode.Some?
    ensures BindMounts(seq(|mounts|, i requires 0 <= i < |mounts| => SpecOf(mounts[i]))) == mounts
  {
    var specs := seq(|mounts|, i requires 0 <= i < |mounts| => SpecOf(mounts[i]));
    var r := BindMounts(specs);
    forall i | 0 <= i < |mounts|
      ensures r[i] == mounts[i]
    {
      var m := mounts[i].mode.value;
      assert ModeOf(ModeName(m)) == Some(m);
    }
  }

  /** A spec that gives only the source mounts it read-only at the same place. */
  lemma SourceOnlyIsReadOnlyInPlace(src: string)
    ensures BindMounts([BindMountSpec(src, None, None)]) == [BindMount(src, src, Some(RO))]
  {
  }

  // ---------------------------------------------------------------------
  // Exit status of a script
  // ---------------------------------------------------------------------

  /** `promise_run_script`'s verdict on a run reply: a non-zero exit status
      fails the promise, anything else delivers the reply unchanged. */
  function ExitStatusOutcome(response: Response): (r: Result<Response>)
    ensures r.Err? <==> response.exitStatus > 0
    ensures r.Ok? ==> r.value == response
    ensures r.Err? ==> r.error == WardenError(response.exitStatus)
  {
    if response.exitStatus > 0 then Err(WardenError(response.exitStatus)) else Ok(response)
  }

  /** `promise_run_script`'s outcome for what its call gave: a failed call
      propagates, a reply is judged by its exit status. */
  function ScriptOutcome(result: Result<Response>): (r: Result<Response>)
    ensures result.Err? ==> r == result
    ensures result.Ok? ==> r == ExitStatusOutcome(result.value)
  {
    match result
    case Ok(response) => ExitStatusOutcome(response)
    case Err(e) => Err(e)
  }

  /** `promise_update_path_and_ip`'s outcome for what its info call gave: a
      reply without a container path fails, any other reply is delivered. */
  function PathAndIpOutcome(result: Result<Response>): (r: Result<Response>)
    ensures r.Ok? <==> result.Ok? && result.value.containerPath.Some?
    ensures r.Ok? ==> r == result
    ensures result.Err? ==> r == result
    ensures result.Ok? && result.value.containerPath.None? ==>
      r == Err(RuntimeError("container path is not available"))
  {
    match result
    case Ok(response) =>
      if response.containerPath.None? then Err(RuntimeError("container path is not available"))
      else Ok(response)
    case Err(e) => Err(e)
  }


  // ---------------------------------------------------------------------
  // Calls against the runtime, as functions of a snapshot
  // ---------------------------------------------------------------------

  /** A cached logical channel to the runtime. */
  datatype Connection = Connection(name: string, connected: bool)

  /** What a call reads and changes: the runtime's remaining scripts, the
      requests it has received, and the client's connection cache. */
  datatype Wire = Wire(
    handshakes: seq<Option<Fault>>,
    answers: seq<Answer>,
    received: seq<Sent>,
    cache: map<string, Connection>)

  /** The channel `name` has a cached connection that is still connected. */
  predicate LiveIn(cache: map<string, Connection>, name: string) {
    name in cache && cache[name].connected
  }

  /** Every connection is cached under its own name. */
  ghost predicate Named(cache: map<string, Connection>) {
    forall name :: name in cache ==> cache[name].name == name
  }

  /** The outcome of one call and where it leaves the snapshot. */
  datatype Called = Called(result: Result<Response>, wire: Wire)

  /** `call(name, request)`: reuse the channel when it is live, else connect
      and cache the new connection once the connect is accepted (a refused
      connect raises before anything is cached or sent); then send the
      request.  A connection error leaves the channel disconnected. */
  function CallOn(w: Wire, name: string, request: Request): (c: Called)
    ensures c.wire.received == w.received || c.wire.received == w.received + [Sent(name, request)]
    ensures c.wire.received == w.received ==> c.wire.cache == w.cache && c.result.Err?
  {
    var live := LiveIn(w.cache, name);
    var refused := NextHandshake(w.handshakes);
    if !live && refused.Some? then
      Called(Err(Client(refused.value)), w.(handshakes := Rest(w.handshakes)))
    else
      var cache := if live then w.cache else w.cache[name := Connection(name, true)];
      var a := NextAnswer(w.answers);
      Called(AsResult(a), Wire(
        if live then w.handshakes else Rest(w.handshakes),
        Rest(w.answers),
        w.received + [Sent(name, request)],
        if a == Raise(ConnectionError) then cache[name := Connection(name, false)] else cache))
  }

  /** A live channel is reused: no connect happens and the request goes out. */
  lemma CallReusesLiveChannel(w: Wire, name: string, request: Request)
    requires LiveIn(w.cache, name)
    ensures CallOn(w, name, request).wire.handshakes == w.handshakes
    ensures CallOn(w, name, request).wire.received == w.received + [Sent(name, request)]
    ensures CallOn(w, name, request).result == AsResult(NextAnswer(w.answers))
  {
  }

  /** A refused connect raises its fault and changes nothing but the
      handshake script: nothing is cached, sent or answered. */
  lemma RefusedConnectSendsNothing(w: Wire, name: string, request: Request)
    requires !LiveIn(w.cache, name) && NextHandshake(w.handshakes).Some?
    ensures CallOn(w, name, request).result == Err(Client(NextHandshake(w.handshakes).value))
    ensures CallOn(w, name, request).wire == w.(handshakes := Rest(w.handshakes))
  {
  }

  /** After a call the channel is live exactly when the request went out
      and was not met by a connection error. */
  lemma CallLeavesChannelLive(w: Wire, name: string, request: Request)
    ensures var c := CallOn(w, name, request);
      LiveIn(c.wire.cache, name) <==>
        |c.wire.received| == |w.received| + 1 && c.result != Err(Client(ConnectionError))
  {
  }

  /** A call changes the cache only under its own channel's name, never
      drops an entry, and keeps every connection under its own name. */
  lemma CallKeepsOtherChannels(w: Wire, name: string, request: Request)
    ensures var c := CallOn(w, name, request);
      && c.wire.cache - {name} == w.cache - {name}
      && w.cache.Keys <= c.wire.cache.Keys
      && (Named(w.cache) ==> Named(c.wire.cache))
  {
    var c := CallOn(w, name, request);
    assert c.wire.cache - {name} == w.cache - {name};
  }

  /** On a channel that is not live, an accepted connect is followed by the
      request: one handshake, one request sent, the runtime's answer
      returned, and the new connection cached under the name, live unless
      the answer was a connection error. */
  lemma FirstCallConnectsThenSends(w: Wire, name: string, request: Request)
    requires !LiveIn(w.cache, name) && NextHandshake(w.handshakes).None?
    ensures var c := CallOn(w, name, request);
      && c.wire.handshakes == Rest(w.handshakes)
      && c.wire.answers == Rest(w.answers)
      && c.wire.received == w.received + [Sent(name, request)]
      && c.result == AsResult(NextAnswer(w.answers))
      && c.wire.cache == w.cache[name := Connection(name, NextAnswer(w.answers) != Raise(ConnectionError))]
  {
  }

  /** After a call that connected and got a reply, a second call on the same
      channel reuses the cached connection: it performs no handshake. */
  lemma SecondCallReusesConnection(w: Wire, name: string, request: Request, next: Request)
    requires NextHandshake(w.handshakes).None? && NextAnswer(w.answers).Reply?
    ensures var c := CallOn(w, name, request);
      CallOn(c.wire, name, next).wire.handshakes == c.wire.handshakes
  {
    CallLeavesChannelLive(w, name, request);
  }

  /** The runtime will, at some point, answer something other than a
      connection error: the condition under which retrying ends. */
  predicate EventuallyAnswers(answers: seq<Answer>) {
    exists i :: 0 <= i < |answers| && answers[i] != Raise(ConnectionError)
  }

  /** No connect in the script is refused. */
  predicate AllAccepted(handshakes: seq<Option<Fault>>) {
    forall i :: 0 <= i < |handshakes| ==> handshakes[i].None?
  }

  lemma EventuallyAnswersAfterConnectionError(answers: seq<Answer>)
    requires EventuallyAnswers(answers) && NextAnswer(answers) == Raise(ConnectionError)
    ensures EventuallyAnswers(Rest(answers))
  {
    var i :| 0 <= i < |answers| && answers[i] != Raise(ConnectionError);
    assert Rest(answers)[i - 1] == answers[i];
  }

  /** A call that ends in a connection error keeps the runtime's promise to
      answer, and uses up one entry of one of the two scripts. */
  lemma CallConsumesScript(w: Wire, name: string, request: Request)
    requires EventuallyAnswers(w.answers)
    ensures var c := CallOn(w, name, request);
      && |c.wire.answers| + |c.wire.handshakes| < |w.answers| + |w.handshakes|
      && (c.result == Err(Client(ConnectionError)) ==> EventuallyAnswers(c.wire.answers))
  {
    var c := CallOn(w, name, request);
    if c.result == Err(Client(ConnectionError)) && c.wire.answers != w.answers {
      EventuallyAnswersAfterConnectionError(w.answers);
    }
  }

  /** A whole `call_with_retry`: its result, the retry counter, and where it
      leaves the snapshot. */
  datatype Retried = Retried(result: Result<Response>, retries: nat, wire: Wire)

  /** `run` with `n` more retries in front of it. */
  function Later(run: Retried, n: nat): Retried {
    run.(retries := run.retries + n)
  }

  /** `call_with_retry`: repeat `call` while it raises a connection error,
      counting the retries; whatever else the call gives is the outcome. */
  function RetryOn(w: Wire, name: string, request: Request): (run: Retried)
    requires EventuallyAnswers(w.answers)
    ensures run.result != Err(Client(ConnectionError))
    decreases |w.answers| + |w.handshakes|
  {
    CallConsumesScript(w, name, request);
    var c := CallOn(w, name, request);
    if c.result == Err(Client(ConnectionError)) then
      Later(RetryOn(c.wire, name, request), 1)
    else
      Retried(c.result, 0, c.wire)
  }

  /** One turn of the retry loop: a connection error leaves one more retry
      to run from where the call left off; anything else ends the run. */
  lemma RetryTurn(w: Wire, name: string, request: Request)
    requires EventuallyAnswers(w.answers)
    ensures var c := CallOn(w, name, request);
      && |c.wire.answers| + |c.wire.handshakes| < |w.answers| + |w.handshakes|
      && if c.result == Err(Client(ConnectionError)) then
           EventuallyAnswers(c.wire.answers)
           && RetryOn(w, name, request) == Later(RetryOn(c.wire, name, request), 1)
         else
           RetryOn(w, name, request) == Retried(c.result, 0, c.wire)
  {
    CallConsumesScript(w, name, request);
  }

  /** `after` is `before` followed only by copies of `x`. */
  ghost predicate Extends<T>(before: seq<T>, after: seq<T>, x: T) {
    && |before| <= |after|
    && after[..|before|] == before
    && forall i :: |before| <= i < |after| ==> after[i] == x
  }

  lemma ExtendsTransitive<T>(a: seq<T>, b: seq<T>, c: seq<T>, x: T)
    requires Extends(a, b, x) && Extends(b, c, x)
    ensures Extends(a, c, x)
  {
    assert c[..|a|] == c[..|b|][..|a|];
  }

  /** One call sends only its own request, using one answer for it. */
  lemma CallSendsOnlyItsRequest(w: Wire, name: string, request: Request)
    requires EventuallyAnswers(w.answers)
    ensures var c := CallOn(w, name, request);
      && Extends(w.received, c.wire.received, Sent(name, request))
      && |c.wire.answers| + |c.wire.received| == |w.answers| + |w.received|
  {
    var c := CallOn(w, name, request);
    assert c.wire.received[..|w.received|] == w.received;
  }

  /** Every request a retry run sends is `request` on channel `name`, and it
      uses one answer per request sent. */
  lemma {:induction false} RetrySendsOnlyItsRequest(w: Wire, name: string, request: Request)
    requires EventuallyAnswers(w.answers)
    ensures var run := RetryOn(w, name, request);
      && |w.received| <= |run.wire.received|
      && run.wire.received[..|w.received|] == w.received
      && (forall i :: |w.received| <= i < |run.wire.received| ==> run.wire.received[i] == Sent(name, request))
      && |run.wire.answers| + |run.wire.received| == |w.answers| + |w.received|
    decreases |w.answers| + |w.handshakes|
  {
    RetryTurn(w, name, request);
    CallSendsOnlyItsRequest(w, name, request);
    var c := CallOn(w, name, request);
    if c.result == Err(Client(ConnectionError)) {
      RetrySendsOnlyItsRequest(c.wire, name, request);
      var run := RetryOn(c.wire, name, request);
      assert Extends(c.wire.received, run.wire.received, Sent(name, request));
      ExtendsTransitive(w.received, c.wire.received, run.wire.received, Sent(name, request));
    }
  }

  /** A retry run changes the cache only under its own channel's name,
      never drops an entry, and keeps every connection under its own name. */
  lemma {:induction false} RetryKeepsOtherChannels(w: Wire, name: string, request: Request)
    requires EventuallyAnswers(w.answers)
    ensures var run := RetryOn(w, name, request);
      && run.wire.cache - {name} == w.cache - {name}
      && w.cache.Keys <= run.wire.cache.Keys
      && (Named(w.cache) ==> Named(run.wire.cache))
    decreases |w.answers| + |w.handshakes|
  {
    RetryTurn(w, name, request);
    CallKeepsOtherChannels(w, name, request);
    var c := CallOn(w, name, request);
    if c.result == Err(Client(ConnectionError)) {
      RetryKeepsOtherChannels(c.wire, name, request);
    }
  }

  /** When every connect is accepted, `k` connection errors followed by any
      other answer make `call_with_retry` return that answer after exactly
      `k + 1` requests, with retry count `k` (for `k == 0`: a client error
      propagates at once, without a retry).  A connect refused with a
      connection error would also cost a retry, but without sending a
      request; `RetryTurn` covers that case. */
  lemma {:induction false} RetryDeliversFirstOtherAnswer(w: Wire, name: string, request: Request, k: nat)
    requires AllAccepted(w.handshakes)
    requires k < |w.answers| && w.answers[k] != Raise(ConnectionError)
    requires forall j :: 0 <= j < k ==> w.answers[j] == Raise(ConnectionError)
    ensures EventuallyAnswers(w.answers)
    ensures var run := RetryOn(w, name, request);
      && run.result == AsResult(w.answers[k])
      && run.retries == k
      && run.wire.answers == w.answers[k + 1..]
      && run.wire.received == w.received + seq(k + 1, _ => Sent(name, request))
    decreases k
  {
    assert w.answers[k] != Raise(ConnectionError);
    var c := CallOn(w, name, request);
    if k > 0 {
      assert AllAccepted(c.wire.handshakes);
      assert c.wire.answers == w.answers[1..];
      RetryDeliversFirstOtherAnswer(c.wire, name, request, k - 1);
      assert w.answers[1..][k - 1 + 1..] == w.answers[k + 1..];
      assert w.received + [Sent(name, request)] + seq(k, _ => Sent(name, request))
          == w.received + seq(k + 1, _ => Sent(name, request));
    }
  }

  /** A refused connect whose fault is not a connection error propagates at
      once: nothing is sent and nothing is retried. */
  lemma RetryStopsAtRefusedConnect(w: Wire, name: string, request: Request, message: string)
    requires EventuallyAnswers(w.answers)
    requires !LiveIn(w.cache, name) && NextHandshake(w.handshakes) == Some(ClientError(message))
    ensures RetryOn(w, name, request) == Retried(Err(Client(ClientError(message))), 0, w.(handshakes := Rest(w.handshakes)))
  {
  }

  // ---------------------------------------------------------------------
  // The container proxy
  // ---------------------------------------------------------------------

  class Container {
    const socketPath: string
    /** The runtime listening on `socketPath`. */
    const runtime: Runtime
    var connections: map<string, Connection>
    var handle: Option<string>
    var path: Option<string>
    var hostIp: Option<string>

    ghost predicate Valid()
      reads this
    {
      Named(connections)
    }

    /** The part of the container and its runtime that calls read and change. */
    function Snap(): Wire
      reads this, runtime
    {
      Wire(runtime.handshakes, runtime.answers, runtime.received, connections)
    }

    constructor (socketPath: string, runtime: Runtime)
      ensures Valid()
      ensures this.socketPath == socketPath && this.runtime == runtime
      ensures connections == map[] && handle == None && path == None && hostIp == None
    {
      this.socketPath := socketPath;
      this.runtime := runtime;
      connections := map[];
      handle := None;
      path := None;
      hostIp := None;
    }

    method FindConnection(name: string) returns (c: Option<Connection>)
      ensures c.Some? <==> name in connections
      ensures c.Some? ==> c.value == connections[name]
    {
      c := if name in connections then Some(connections[name]) else None;
    }

    method CacheConnection(name: string, connection: Connection)
      modifies this`connections
      ensures connections == old(connections)[name := connection]
    {
      connections := connections[name := connection];
    }

    /** Removes `name` from the cache and closes it; nothing happens when
        `name` is not cached. */
    method CloseConnection(name: string)
      requires Valid()
      modifies this`connections, runtime`closed
      ensures Valid()
      ensures connections == old(connections) - {name}
      ensures name in old(connections) ==> runtime.closed == old(runtime.closed) + [old(connections)[name].name]
      ensures name in old(connections) ==> old(connections)[name].name == name
      ensures name !in old(connections) ==> runtime.closed == old(runtime.closed)
    {
      if name in connections {
        var connection := connections[name];
        connections := connections - {name};
        runtime.Close(connection.name);
      }
    }

    /** Closes every cached connection, each exactly once, and empties the cache. */
    method CloseAllConnections()
      requires Valid()
      modifies this`connections, runtime`closed
      ensures Valid() && connections == map[]
      ensures |runtime.closed| == |old(runtime.closed)| + |old(connections)|
      ensures runtime.closed[..|old(runtime.closed)|] == old(runtime.closed)
      ensures forall name :: name in runtime.closed[|old(runtime.closed)|..] <==> name in old(connections)
    {
      var names := connections.Keys;
      while names != {}
        invariant Valid()
        invariant connections.Keys == names
        invariant names <= old(connections).Keys
        invariant |runtime.closed| + |names| == |old(runtime.closed)| + |old(connections).Keys|
        invariant runtime.closed[..|old(runtime.closed)|] == old(runtime.closed)
        invariant forall name :: name in runtime.closed[|old(runtime.closed)|..] <==>
                                 name in old(connections) && name !in names
        decreases |names|
      {
        var name :| name in names;
        ghost var before := runtime.closed;
        CloseConnection(name);
        assert runtime.closed[|old(runtime.closed)|..] == before[|old(runtime.closed)|..] + [name];
        names := names - {name};
      }
      assert connections.Keys == {};
    }

    /** The cached connection when it is still connected; otherwise a new one
        that is cached only once its connect succeeds. */
    method GetConnection(name: string) returns (r: Result<Connection>)
      requires Valid()
      modifies this`connections, runtime`handshakes
      ensures Valid()
      ensures old(LiveIn(connections, name)) ==>
        r == Ok(old(connections)[name]) && connections == old(connections)
        && runtime.handshakes == old(runtime.handshakes)
      ensures !old(LiveIn(connections, name)) ==> runtime.handshakes == Rest(old(runtime.handshakes))
      ensures !old(LiveIn(connections, name)) && NextHandshake(old(runtime.handshakes)).Some? ==>
        r == Err(Client(NextHandshake(old(runtime.handshakes)).value)) && connections == old(connections)
      ensures !old(LiveIn(connections, name)) && NextHandshake(old(runtime.handshakes)).None? ==>
        r == Ok(Connection(name, true)) && connections == old(connections)[name := Connection(name, true)]
    {
      var cached := FindConnection(name);
      if cached.Some? && cached.value.connected {
        return Ok(cached.value);
      }
      var refused := runtime.Handshake();
      if refused.Some? {
        return Err(Client(refused.value));
      }
      var connection := Connection(name, true);
      CacheConnection(name, connection);
      r := Ok(connection);
    }

    /** `call(name, request)`, as `CallOn` describes it. */
    method Call(name: string, request: Request) returns (r: Result<Response>)
      requires Valid()
      modifies this`connections, runtime`handshakes, runtime`answers, runtime`received
      ensures Valid()
      ensures Called(r, Snap()) == CallOn(old(Snap()), name, request)
    {
      var connection :- GetConnection(name);
      var answer := runtime.Exchange(name, request);
      if answer == Raise(ConnectionError) {
        connections := connections[name := Connection(name, false)];
      }
      r := AsResult(answer);
    }

    /** `call_with_retry(name, request)`, as `RetryOn` describes it. */
    method CallWithRetry(name: string, request: Request) returns (r: Result<Response>, count: nat)
      requires Valid() && EventuallyAnswers(runtime.answers)
      modifies this`connections, runtime`handshakes, runtime`answers, runtime`received
      ensures Valid()
      ensures Retried(r, count, Snap()) == RetryOn(old(Snap()), name, request)
    {
      count := 0;
      ghost var w0 := Snap();
      while true
        invariant Valid()
        invariant EventuallyAnswers(runtime.answers)
        invariant RetryOn(w0, name, request) == Later(RetryOn(Snap(), name, request), count)
        decreases |runtime.answers| + |runtime.handshakes|
      {
        RetryTurn(Snap(), name, request);
        r := Call(name, request);
        if r != Err(Client(ConnectionError)) {
          return;
        }
        count := count + 1;
      }
    }

    /** `get_new_warden_net_in`: a net-in request for the current handle on
        channel "app". */
    method GetNewWardenNetIn() returns (r: Result<Response>)
      requires Valid()
      modifies this`connections, runtime`handshakes, runtime`answers, runtime`received
      ensures Valid()
      ensures Called(r, Snap()) == CallOn(old(Snap()), "app", NetInRequest(handle))
    {
      r := Call("app", NetInRequest(handle));
    }

    /** `promise_update_path_and_ip`: without a handle it fails before any
        request; otherwise it asks for the container's info and caches path
        and host IP only when the reply carries a path. */
    method PromiseUpdatePathAndIp() returns (r: Result<Response>)
      requires Valid()
      modifies this`connections, this`path, this`hostIp, runtime`handshakes, runtime`answers, runtime`received
      ensures Valid()
      ensures old(handle).None? ==>
        && r == Err(ArgumentError("container handle must not be nil"))
        && Snap() == old(Snap()) && path == old(path) && hostIp == old(hostIp)
      ensures old(handle).Some? ==>
        var c := CallOn(old(Snap()), "info", InfoRequest(old(handle)));
        && Snap() == c.wire
        && r == PathAndIpOutcome(c.result)
      ensures r.Ok? ==> path == r.value.containerPath && hostIp == r.value.hostIp
      ensures r.Err? ==> path == old(path) && hostIp == old(hostIp)
    {
      if handle.None? {
        return Err(ArgumentError("container handle must not be nil"));
      }
      var response :- Call("info", InfoRequest(handle));
      if response.containerPath.None? {
        return Err(RuntimeError("container path is not available"));
      }
      path := response.containerPath;
      hostIp := response.hostIp;
      r := Ok(response);
    }

    /** `promise_run_script(name, script, privileged)`: runs the script in
        the container on channel `name` and fails when it exits non-zero. */
    method PromiseRunScript(name: string, script: string, privileged: bool := false) returns (r: Result<Response>)
      requires Valid()
      modifies this`connections, runtime`handshakes, runtime`answers, runtime`received
      ensures Valid()
      ensures var c := CallOn(old(Snap()), name, RunRequest(handle, script, privileged));
        Snap() == c.wire && r == ScriptOutcome(c.result)
    {
      var response :- Call(name, RunRequest(handle, script, privileged));
      r := ExitStatusOutcome(response);
    }

    /** `promise_spawn(script, nproc, nofile)`: spawns the script with those
        resource limits on channel "app" and delivers the raw reply. */
    method PromiseSpawn(script: string, nprocLimit: nat, fileDescriptorLimit: nat) returns (r: Result<Response>)
      requires Valid()
      modifies this`connections, runtime`handshakes, runtime`answers, runtime`received
      ensures Valid()
      ensures Called(r, Snap()) ==
        CallOn(old(Snap()), "app", SpawnRequest(handle, script, ResourceLimits(nprocLimit, fileDescriptorLimit)))
    {
      r := Call("app", SpawnRequest(handle, script, ResourceLimits(nprocLimit, fileDescriptorLimit)));
    }

    /** `promise_create_container(bind_mounts)`: asks for a container with
        the normalised bind mounts on channel "app" and takes the handle
        from the reply; a failed call leaves the handle as it was. */
    method PromiseCreateContainer(bindMounts: seq<BindMountSpec>) returns (r: Result<()>)
      requires Valid()
      modifies this`connections, this`handle, runtime`handshakes, runtime`answers, runtime`received
      ensures Valid()
      ensures var c := CallOn(old(Snap()), "app", CreateRequest(BindMounts(bindMounts)));
        && Snap() == c.wire
        && (r.Ok? <==> c.result.Ok?)
        && (c.result.Ok? ==> handle == c.result.value.handle)
        && (c.result.Err? ==> r == Err(c.result.error) && handle == old(handle))
    {
      var response :- Call("app", CreateRequest(BindMounts(bindMounts)));
      handle := response.handle;
      r := Ok(());
    }
  }
}
