/** The buffered sockets of libevent, as far as the two relays use them.

    A linked pair is a value: two ends and a flag that records whether any library call has touched
    a freed end.  Every library call is total, so "no use after free" is a theorem about runs and
    not an assumption about callers. */
module BufferEvents {

  type Byte = x: int | 0 <= x < 256

  datatype Option<+T> = None | Some(value: T)

  /** The two ends of a relayed connection: the accepted socket and the one towards the target. */
  datatype Side = Inbound | Outbound {
    function Other(): Side {
      if Inbound? then Outbound else Inbound
    }
  }

  /** The callbacks a relay can register; NULL is the first constructor of each type. */
  datatype ReadCallback = NoReadcb | Readcb
  datatype WriteCallback = NoWritecb | DrainedWritecb | CloseOnFinishedWritecb
  datatype EventCallback = NoEventcb | Eventcb

  /** The `what` argument of an event callback: a bitwise OR of everything that has happened since
      the callback last ran.  `other` stands for the flags the relays ignore. */
  datatype What = What(eof: bool, error: bool, other: bool) {
    predicate Fatal() {
      eof || error
    }

    predicate Any() {
      eof || error || other
    }

    function Or(w: What): What {
      What(eof || w.eof, error || w.error, other || w.other)
    }
  }

  const NOTHING := What(false, false, false)

  /** One buffered socket.  `received` and `sent` are everything ever read from and written to the
      network; the `Due` fields are the deferred callbacks waiting for the event loop. */
  datatype End = End(
    live: bool,
    frees: nat,
    input: seq<Byte>,
    output: seq<Byte>,
    reading: bool,
    low: nat,
    high: nat,
    readCb: ReadCallback,
    writeCb: WriteCallback,
    eventCb: EventCallback,
    ctx: Option<Side>,
    readDue: bool,
    writeDue: bool,
    eventDue: What,
    received: seq<Byte>,
    sent: seq<Byte>)
  {
    /** New data from the network; the read low watermark is 0 throughout. */
    predicate CanReceive(data: seq<Byte>) {
      live && reading && data != []
    }

    function Receive(data: seq<Byte>): End {
      this.(input := input + data, received := received + data, readDue := readDue || readCb != NoReadcb)
    }

    /** The network takes `n` bytes; at or below the low watermark the write callback is scheduled. */
    predicate CanTransmit(n: nat) {
      live && 1 <= n <= |output|
    }

    function Transmit(n: nat): End
      requires n <= |output|
    {
      this.(output := output[n..],
            sent := sent + output[..n],
            writeDue := writeDue || (writeCb != NoWritecb && |output| - n <= low))
    }

    /** The library notices an event; after EOF or an error it may stop reading by itself. */
    predicate CanRaise(what: What, stops: bool) {
      live && eventCb != NoEventcb && what.Any() && (stops ==> what.Fatal())
    }

    function Raise(what: What, stops: bool): End {
      this.(eventDue := eventDue.Or(what), reading := reading && !stops)
    }

    /** `bufferevent_free`: pending data is dropped and no callback is left. */
    function Freed(): End {
      this.(live := false, frees := frees + 1, input := [], output := [], reading := false,
            readCb := NoReadcb, writeCb := NoWritecb, eventCb := NoEventcb, ctx := None)
    }
  }

  /** A socket as `bufferevent_socket_new` returns it. */
  const FRESH := End(true, 0, [], [], false, 0, 0, NoReadcb, NoWritecb, NoEventcb, None, false, false, NOTHING, [], [])

  datatype Link = Link(inbound: End, outbound: End, fault: bool) {
    function At(s: Side): End {
      if s.Inbound? then inbound else outbound
    }

    function With(s: Side, e: End): Link {
      if s.Inbound? then this.(inbound := e) else this.(outbound := e)
    }

    /** A library call that turns end `s` into `e`; on a freed end it is a fault. */
    function Call(s: Side, e: End): Link {
      if At(s).live then With(s, e) else this.(fault := true)
    }

    function SetCb(s: Side, r: ReadCallback, w: WriteCallback, e: EventCallback, ctx: Option<Side>): Link {
      Call(s, At(s).(readCb := r, writeCb := w, eventCb := e, ctx := ctx))
    }

    function SetWriteWatermark(s: Side, low: nat, high: nat): Link {
      Call(s, At(s).(low := low, high := high))
    }

    function EnableRead(s: Side): Link {
      Call(s, At(s).(reading := true))
    }

    function DisableRead(s: Side): Link {
      Call(s, At(s).(reading := false))
    }

    function DrainInput(s: Side): Link {
      Call(s, At(s).(input := []))
    }

    /** `evbuffer_add_buffer`: all of the input of `src` moves behind the output of `dst`. */
    function MoveInput(src: Side, dst: Side): Link {
      var taken := Call(src, At(src).(input := []));
      taken.Call(dst, taken.At(dst).(output := taken.At(dst).output + At(src).input))
    }

    function Free(s: Side): Link {
      Call(s, At(s).Freed())
    }

    predicate BothLive() {
      inbound.live && outbound.live
    }
  }

  /** What can happen to a pair: three things the network does, and the event loop running one of
      the deferred callbacks. */
  datatype Step =
    | Read(side: Side, data: seq<Byte>)
    | Write(side: Side, n: nat)
    | Raise(side: Side, what: What, stops: bool)
    | RunRead(side: Side)
    | RunWrite(side: Side)
    | RunEvent(side: Side)

  predicate Enabled(l: Link, step: Step) {
    var e := l.At(step.side);
    match step
    case Read(_, data) => e.CanReceive(data)
    case Write(_, n) => e.CanTransmit(n)
    case Raise(_, what, stops) => e.CanRaise(what, stops)
    case RunRead(_) => e.live && e.readDue && e.readCb != NoReadcb
    case RunWrite(_) => e.live && e.writeDue && e.writeCb != NoWritecb
    case RunEvent(_) => e.live && e.eventDue.Any() && e.eventCb != NoEventcb
  }
}
