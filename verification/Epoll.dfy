/** The epoll loop and its splice echo handlers, together with the small part of the kernel they
    depend on: open descriptors, the interest set, and the contents of pipes.

    What the kernel may choose (an accepted descriptor, the result of a splice) is an argument of the
    step, constrained by `Permits`. */
module Epoll {
  import BufferEvents

  type Fd = nat
  type Byte = BufferEvents.Byte

  /** The most a single read asks for, and the most events one wait returns. */
  const DATA_LEN := 4 * 1024 * 1024
  const MAX_EVENTS := 10

  /** The directions a descriptor is registered for; hang-up and error are always reported. */
  datatype Armed = Armed(read: bool, write: bool)

  /** A splice echo handler: its byte counter, the two ends of its pipe, and a record of what it has
      read from and echoed to its socket and of the splices that returned -1. */
  datatype Echo = Echo(
    received: int,
    pipeOut: Fd,
    pipeIn: Fd,
    taken: seq<Byte>,
    echoed: seq<Byte>,
    failedReads: nat,
    failedWrites: nat)

  datatype Handler = ServerHandler | SpliceEchoHandler(echo: Echo)

  /** Why a handler was removed, and what was in its pipe at that time. */
  datatype Cause = HangUp | SocketError | ReadBranch
  datatype Removal = Removal(echo: Echo, cause: Cause, lost: seq<Byte>)

  /** `fault` is set when the loop follows a handler pointer that is not there. */
  datatype World = World(
    handlers: map<Fd, Handler>,
    interest: map<Fd, Armed>,
    open: set<Fd>,
    pipes: map<Fd, seq<Byte>>,
    removals: seq<Removal>,
    fault: bool)
  {
    predicate IsClient(fd: Fd) {
      fd in handlers && handlers[fd].SpliceEchoHandler?
    }

    function Pipe(h: Echo): seq<Byte> {
      if h.pipeOut in pipes then pipes[h.pipeOut] else []
    }
  }

  datatype Event = Event(fd: Fd, readable: bool, writable: bool, hangUp: bool, error: bool)

  /** What a read splice brings. */
  datatype Got = Fail | Data(data: seq<Byte>)

  /** What the kernel answers while an event is handled. */
  datatype Answer =
    | Refuse                                                       // accept fails
    | Connect(client: Fd, pipeOut: Fd, pipeIn: Fd, added: bool)    // accept, pipe, epoll_ctl
    | Splices(written: int, got: Got)                              // the two splices of an echo handler

  predicate Permits(w: World, e: Event, a: Answer) {
    e.fd in w.handlers ==>
      match w.handlers[e.fd]
      case ServerHandler =>
        a.Refuse? || (a.Connect? && a.client != a.pipeOut && a.client != a.pipeIn && a.pipeOut != a.pipeIn
                      && a.client !in w.open && a.pipeOut !in w.open && a.pipeIn !in w.open)
      case SpliceEchoHandler(h) =>
        && a.Splices?
        && (a.written == -1 || (0 <= a.written <= h.received && a.written <= |w.Pipe(h)|))
        && (a.got.Data? ==> |a.got.data| <= DATA_LEN)
  }

  // IOLoop.

  /** Registering a descriptor that is already registered leaves the kernel as it is. */
  function AddHandler(w: World, fd: Fd, h: Handler, armed: Armed, added: bool): World {
    w.(handlers := w.handlers[fd := h],
       interest := if fd in w.interest || !added then w.interest else w.interest[fd := armed])
  }

  function ModifyHandler(w: World, fd: Fd, armed: Armed): World {
    if fd in w.interest then w.(interest := w.interest[fd := armed]) else w
  }

  /** The handler is deleted, which closes its pipe, and then the descriptor is closed. */
  function RemoveHandler(w: World, fd: Fd, h: Echo, cause: Cause): World {
    w.(handlers := w.handlers - {fd},
       interest := w.interest - {fd},
       open := w.open - {h.pipeOut, h.pipeIn, fd},
       pipes := w.pipes - {h.pipeOut},
       removals := w.removals + [Removal(h, cause, w.Pipe(h))])
  }

  // The handlers.

  /** A new connection with its handler, whose pipe is empty. */
  function Connected(w: World, a: Answer): World
    requires a.Connect?
  {
    AddHandler(w.(open := w.open + {a.client, a.pipeOut, a.pipeIn}, pipes := w.pipes[a.pipeOut := []]),
               a.client, SpliceEchoHandler(Echo(0, a.pipeOut, a.pipeIn, [], [], 0, 0)), Armed(true, true), a.added)
  }

  function Accept(w: World, fd: Fd, a: Answer): World {
    var again := AddHandler(w, fd, ServerHandler, Armed(true, false), true);
    if a.Connect? then Connected(again, a) else again
  }

  function AfterWrite(h: Echo, pipe: seq<Byte>, written: int): Echo {
    if 0 <= written <= |pipe| then h.(received := h.received - written, echoed := h.echoed + pipe[..written])
    else h.(received := h.received - written, failedWrites := h.failedWrites + 1)
  }

  function WriteBranch(w: World, fd: Fd, h: Echo, written: int): World {
    var pipe := w.Pipe(h);
    var left := if 0 <= written <= |pipe| then pipe[written..] else pipe;
    ModifyHandler(w.(handlers := w.handlers[fd := SpliceEchoHandler(AfterWrite(h, pipe, written))],
                     pipes := w.pipes[h.pipeOut := left]),
                  fd, Armed(true, false))
  }

  function Bytes(got: Got): seq<Byte> {
    if got.Data? then got.data else []
  }

  function AfterRead(h: Echo, got: Got): Echo {
    match got
    case Fail => h.(received := h.received - 1, failedReads := h.failedReads + 1)
    case Data(data) => h.(received := h.received + |data|, taken := h.taken + data)
  }

  /** After a read the counter decides: the handler goes, or it waits for room to write. */
  function Settled(w: World, fd: Fd, h: Echo): World {
    if h.received <= 0 then RemoveHandler(w, fd, h, ReadBranch) else ModifyHandler(w, fd, Armed(false, true))
  }

  function ReadBranchOf(w: World, fd: Fd, h: Echo, got: Got): World {
    var h' := AfterRead(h, got);
    var w' := w.(handlers := w.handlers[fd := SpliceEchoHandler(h')],
                 pipes := w.pipes[h.pipeOut := w.Pipe(h) + Bytes(got)]);
    Settled(w', fd, h')
  }

  function Serve(w: World, e: Event, h: Echo, a: Answer): World
    requires a.Splices?
  {
    // the second close of the descriptor finds it closed already
    if e.hangUp then RemoveHandler(w, e.fd, h, HangUp)
    else if e.error then RemoveHandler(w, e.fd, h, SocketError)
    else
      var w1 := if e.writable then WriteBranch(w, e.fd, h, a.written) else w;
      var h1 := if e.writable then AfterWrite(h, w.Pipe(h), a.written) else h;
      if e.readable then ReadBranchOf(w1, e.fd, h1, a.got) else w1
  }

  /** One turn of the inner loop of `IOLoop::start`. */
  function Dispatch(w: World, e: Event, a: Answer): World
    requires Permits(w, e, a)
  {
    if e.fd !in w.handlers then w.(fault := true)
    else
      match w.handlers[e.fd]
      case ServerHandler => Accept(w, e.fd, a)
      case SpliceEchoHandler(h) => Serve(w, e, h, a)
  }

  // Batches and runs.

  predicate IsBatch(w: World, es: seq<Event>, answers: seq<Answer>)
    decreases |es|
  {
    && |es| == |answers|
    && (es != [] ==> Permits(w, es[0], answers[0]) && IsBatch(Dispatch(w, es[0], answers[0]), es[1..], answers[1..]))
  }

  function DispatchAll(w: World, es: seq<Event>, answers: seq<Answer>): World
    requires IsBatch(w, es, answers)
    decreases |es|
  {
    if es == [] then w else DispatchAll(Dispatch(w, es[0], answers[0]), es[1..], answers[1..])
  }

  /** The world in which event `k` of a batch is handled. */
  function Before(w: World, es: seq<Event>, answers: seq<Answer>, k: nat): World
    requires IsBatch(w, es, answers) && k <= |es|
    decreases k
  {
    if k == 0 then w else Before(Dispatch(w, es[0], answers[0]), es[1..], answers[1..], k - 1)
  }

  predicate Reported(w: World, e: Event) {
    && e.fd in w.interest
    && (e.readable ==> w.interest[e.fd].read) && (e.writable ==> w.interest[e.fd].write)
  }

  /** What `epoll_wait` may return: at most one event for a descriptor, only for registered ones, and
      reading or writing only where it is armed. */
  predicate IsWait(w: World, es: seq<Event>) {
    && |es| <= MAX_EVENTS
    && (forall i :: 0 <= i < |es| ==> Reported(w, es[i]))
    && (forall i, j :: 0 <= i < j < |es| ==> es[i].fd != es[j].fd)
  }

  datatype Round = Round(events: seq<Event>, answers: seq<Answer>)

  predicate IsRun(w: World, rounds: seq<Round>)
    decreases |rounds|
  {
    rounds != [] ==>
      && IsWait(w, rounds[0].events) && IsBatch(w, rounds[0].events, rounds[0].answers)
      && IsRun(DispatchAll(w, rounds[0].events, rounds[0].answers), rounds[1..])
  }

  function Exec(w: World, rounds: seq<Round>): World
    requires IsRun(w, rounds)
    decreases |rounds|
  {
    if rounds == [] then w else Exec(DispatchAll(w, rounds[0].events, rounds[0].answers), rounds[1..])
  }

  /** The loop once the server socket has been registered; `base` are the descriptors the process
      holds besides its clients, the server socket among them. */
  function Started(server: Fd, base: set<Fd>): World {
    AddHandler(World(map[], map[], base, map[], [], false), server, ServerHandler, Armed(true, false), true)
  }
}
