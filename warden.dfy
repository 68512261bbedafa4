/** The client-side view of the Warden container runtime: the requests the
    core builds, the reply fields it reads, and the runtime itself as an
    oracle whose answers are scripted in advance. */
module Warden {
  import opened Outcomes

  /** `CreateRequest::BindMount::Mode`. */
  datatype Mode = RO | RW

  /** `CreateRequest::BindMount`; `mode` is absent when the mode name is not
      in the mode table. */
  datatype BindMount = BindMount(srcPath: string, dstPath: string, mode: Option<Mode>)

  /** `ResourceLimits` of a spawn request. */
  datatype ResourceLimits = ResourceLimits(nproc: nat, nofile: nat)

  /** One request per RPC; `handle` is whatever the container held (nil included). */
  datatype Request =
    | CreateRequest(bindMounts: seq<BindMount>)
    | InfoRequest(handle: Option<string>)
    | NetInRequest(handle: Option<string>)
    | RunRequest(handle: Option<string>, script: string, privileged: bool)
    | SpawnRequest(handle: Option<string>, script: string, rlimits: ResourceLimits)
    | LimitDiskRequest(handle: Option<string>, byte: nat)
    | LimitMemoryRequest(handle: Option<string>, limitInBytes: nat)
    | StopRequest(handle: Option<string>)
    | DestroyRequest(handle: Option<string>)
    | CopyOutRequest(handle: Option<string>, srcPath: string, dstPath: string, owner: string)

  /** The reply fields the core reads; a field the runtime left unset is None. */
  datatype Response = Response(
    handle: Option<string>,         // CreateResponse
    containerPath: Option<string>,  // InfoResponse
    hostIp: Option<string>,         // InfoResponse
    exitStatus: nat,                // RunResponse (uint32)
    stdout: string,                 // RunResponse
    stderr: string)                 // RunResponse

  /** What the runtime does with one request: reply, or raise a client fault. */
  datatype Answer = Reply(response: Response) | Raise(fault: Fault)

  /** A request as the runtime received it, with the channel it came on. */
  datatype Sent = Sent(channel: string, request: Request)

  /** The outcome of the next connect: None accepts it; once the script is
      exhausted every connect is accepted. */
  function NextHandshake(handshakes: seq<Option<Fault>>): Option<Fault> {
    if handshakes == [] then None else handshakes[0]
  }

  /** The answer to the next request: once the script is exhausted nobody
      answers, which the client sees as a broken channel. */
  function NextAnswer(answers: seq<Answer>): Answer {
    if answers == [] then Raise(ConnectionError) else answers[0]
  }

  /** The script after one entry has been used. */
  function Rest<T>(s: seq<T>): (r: seq<T>)
    ensures |r| == if s == [] then 0 else |s| - 1
  {
    if s == [] then [] else s[1..]
  }

  /** The value a call resolves to, given the runtime's answer. */
  function AsResult(a: Answer): Result<Response> {
    match a
    case Reply(r) => Ok(r)
    case Raise(f) => Err(Client(f))
  }

  /** The runtime behind one control socket, as an oracle: it answers from
      its scripts and records what the client sent and closed. */
  class Runtime {
    var handshakes: seq<Option<Fault>>
    var answers: seq<Answer>
    var received: seq<Sent>
    var closed: seq<string>

    constructor (handshakes: seq<Option<Fault>>, answers: seq<Answer>)
      ensures this.handshakes == handshakes && this.answers == answers
      ensures received == [] && closed == []
    {
      this.handshakes := handshakes;
      this.answers := answers;
      received := [];
      closed := [];
    }

    /** A connection handshake: accepted (None) or refused with a fault. */
    method Handshake() returns (refused: Option<Fault>)
      modifies this`handshakes
      ensures refused == NextHandshake(old(handshakes))
      ensures handshakes == Rest(old(handshakes))
    {
      refused := NextHandshake(handshakes);
      handshakes := Rest(handshakes);
    }

    /** One request/response round trip on channel `channel`. */
    method Exchange(channel: string, request: Request) returns (answer: Answer)
      modifies this`answers, this`received
      ensures answer == NextAnswer(old(answers))
      ensures answers == Rest(old(answers))
      ensures received == old(received) + [Sent(channel, request)]
    {
      answer := NextAnswer(answers);
      answers := Rest(answers);
      received := received + [Sent(channel, request)];
    }

    /** The client closes its connection on channel `channel`. */
    method Close(channel: string)
      modifies this`closed
      ensures closed == old(closed) + [channel]
    {
      closed := closed + [channel];
    }
  }
}
