/** The object-based relay: each buffered socket belongs to a proxy object, and callbacks receive a
    proxy object as their context.

    The link is the one of the plain relay, except that the context of an end now names a proxy.
    Deleting a proxy frees its socket; following a pointer to a deleted proxy, or deleting one a
    second time, is a fault. */
module TransparentProxy {
  import opened BufferEvents
  import LeProxy
  import opened LeProxyInvariant

  const MAX_OUTPUT := 4 * 1024 * 1024

  datatype Proxy = Proxy(alive: bool, deletes: nat, partner: Option<Side>, buffer: Option<Side>)

  datatype Duo = Duo(inbound: Proxy, outbound: Proxy, link: Link) {
    function At(s: Side): Proxy {
      if s.Inbound? then inbound else outbound
    }

    function With(s: Side, p: Proxy): Duo {
      if s.Inbound? then this.(inbound := p) else this.(outbound := p)
    }

    /** A pointer to proxy `s` is followed. */
    function Touch(s: Side): Duo {
      if At(s).alive then this else this.(link := link.(fault := true))
    }

    /** `delete` on proxy `s`; the destructor frees the socket.  Deleting NULL does nothing. */
    function Delete(s: Option<Side>): Duo {
      if s.None? then this
      else if !At(s.value).alive then this.(link := link.(fault := true))
      else
        var p := At(s.value);
        var freed := if p.buffer.Some? then link.Free(p.buffer.value) else link;
        With(s.value, p.(alive := false, deletes := p.deletes + 1)).(link := freed)
    }
  }

  /** The output of `buf` is full: it waits for room, and `bev` stops reading. */
  function Choked(l: Link, bev: Side, buf: Side, back: Option<Side>): Link {
    l.SetCb(buf, Readcb, DrainedWritecb, Eventcb, back)
     .SetWriteWatermark(buf, MAX_OUTPUT / 2, MAX_OUTPUT)
     .DisableRead(bev)
  }

  /** `_readcb` for a partner with a socket `buf`, whose own partner is `back`. */
  function Forwarded(l: Link, bev: Side, buf: Side, back: Option<Side>): Link {
    var moved := l.MoveInput(bev, buf);
    if |moved.At(buf).output| >= MAX_OUTPUT then Choked(moved, bev, buf, back) else moved
  }

  function OnRead(d: Duo, bev: Side, ctx: Side): Duo {
    var t := d.Touch(ctx);
    var partner := t.At(ctx);
    if partner.buffer.None? then
      t.(link := t.link.DrainInput(bev)).Delete(partner.partner).Delete(Some(ctx))
    else
      t.(link := Forwarded(t.link, bev, partner.buffer.value, partner.partner))
  }

  /** The first two calls of `_drained_writecb`. */
  function Unchoked(l: Link, bev: Side, ctx: Side): Link {
    l.SetCb(bev, Readcb, NoWritecb, Eventcb, Some(ctx)).SetWriteWatermark(bev, 0, 0)
  }

  function OnDrained(d: Duo, bev: Side, ctx: Side): Duo {
    var t := d.(link := Unchoked(d.link, bev, ctx)).Touch(ctx);
    if t.At(ctx).buffer.Some? then t.(link := t.link.EnableRead(t.At(ctx).buffer.value)) else t
  }

  function OnFinished(d: Duo, bev: Side, ctx: Option<Side>): Duo {
    if d.link.At(bev).output == [] then d.Delete(ctx) else d
  }

  /** The pointer to the second object is read before anything else happens. */
  function OnEvent(d: Duo, bev: Side, what: What, ctx: Side): Duo {
    var t := d.Touch(ctx);
    var p2 := t.At(ctx).partner;
    if !what.Fatal() then
      t
    else
      var flushed := OnRead(t, bev, ctx);
      var buf := flushed.At(ctx).buffer;
      var parted :=
        if buf.Some? && flushed.link.At(buf.value).output != [] then
          flushed.(link := flushed.link.SetCb(buf.value, NoReadcb, CloseOnFinishedWritecb, Eventcb, Some(ctx))
                                       .DisableRead(buf.value))
        else
          flushed.Delete(Some(ctx));
      parted.Delete(p2)
  }

  /** `start` for a proxy with socket `s` and partner `ctx`. */
  function Start(l: Link, s: Side, ctx: Option<Side>): Link {
    l.SetCb(s, Readcb, NoWritecb, Eventcb, ctx).EnableRead(s)
  }

  /** A pair after `init_transparent_partner` and both calls of `start`. */
  function Started(): Duo {
    Duo(Proxy(true, 0, Some(Outbound), Some(Inbound)), Proxy(true, 0, Some(Inbound), Some(Outbound)),
        Start(Start(Link(FRESH, FRESH, false), Inbound, Some(Outbound)), Outbound, Some(Inbound)))
  }

  /** Callbacks follow their context unchecked, so a NULL context would be a fault. */
  function Apply(d: Duo, step: Step): Duo
    requires Enabled(d.link, step)
  {
    var s := step.side;
    var e := d.link.At(s);
    match step
    case Read(_, data) => d.(link := d.link.With(s, e.Receive(data)))
    case Write(_, n) => d.(link := d.link.With(s, e.Transmit(n)))
    case Raise(_, what, stops) => d.(link := d.link.With(s, e.Raise(what, stops)))
    case RunRead(_) =>
      var t := d.(link := d.link.With(s, e.(readDue := false)));
      if e.ctx.None? then t.(link := t.link.(fault := true)) else OnRead(t, s, e.ctx.value)
    case RunWrite(_) =>
      var t := d.(link := d.link.With(s, e.(writeDue := false)));
      if e.writeCb.CloseOnFinishedWritecb? then OnFinished(t, s, e.ctx)
      else if e.ctx.None? then t.(link := t.link.(fault := true))
      else OnDrained(t, s, e.ctx.value)
    case RunEvent(_) =>
      var t := d.(link := d.link.With(s, e.(eventDue := NOTHING)));
      if e.ctx.None? then t.(link := t.link.(fault := true)) else OnEvent(t, s, e.eventDue, e.ctx.value)
  }

  predicate IsRun(d: Duo, steps: seq<Step>)
    decreases |steps|
  {
    steps != [] ==> Enabled(d.link, steps[0]) && IsRun(Apply(d, steps[0]), steps[1..])
  }

  function Exec(d: Duo, steps: seq<Step>): Duo
    requires IsRun(d, steps)
    decreases |steps|
  {
    if steps == [] then d else Exec(Apply(d, steps[0]), steps[1..])
  }

  // Simulation by the plain relay.

  /** The draining end of this relay has its own proxy as context where the plain relay has NULL. */
  function PlainEnd(e: End, s: Side): End {
    if e.ctx == Some(s) then e.(ctx := None) else e
  }

  function Plain(l: Link): Link {
    Link(PlainEnd(l.inbound, Inbound), PlainEnd(l.outbound, Outbound), l.fault)
  }

  predicate ProxyOk(d: Duo, s: Side) {
    var p, e := d.At(s), d.link.At(s);
    && p.partner == Some(s.Other()) && p.buffer == Some(s)
    && p.alive == e.live && p.deletes == e.frees
    && (e.live ==> e.ctx.Some?) && (!e.live ==> e.ctx.None?)
  }

  /** Partner links are mutual, each proxy owns its socket, and the link is a state of the plain relay. */
  predicate Inv(d: Duo) {
    ProxyOk(d, Inbound) && ProxyOk(d, Outbound) && LeProxyInvariant.Inv(Plain(d.link), MAX_OUTPUT)
  }

  /** EOF or an error is handled on the end that is left draining. */
  predicate SecondEvent(d: Duo, step: Step) {
    && step.RunEvent? && d.link.At(step.side).ctx == Some(step.side)
    && (d.link.At(step.side).eventDue.eof || d.link.At(step.side).eventDue.error)
  }

  lemma StartedOk()
    ensures Inv(Started()) && Plain(Started().link) == LeProxy.Linked()
  {
    InitiallyOpen(MAX_OUTPUT);
  }

  /** In an open pair nothing needs translating. */
  predicate BothOpen(d: Duo) {
    && ProxyOk(d, Inbound) && ProxyOk(d, Outbound) && d.link.BothLive()
    && d.link.inbound.ctx == Some(Outbound) && d.link.outbound.ctx == Some(Inbound)
  }

  lemma OpenCallbacks(d: Duo, s: Side)
    requires BothOpen(d)
    ensures OnRead(d, s, s.Other()) == d.(link := LeProxy.OnRead(d.link, s, Some(s.Other()), MAX_OUTPUT))
    ensures OnDrained(d, s, s.Other()) == d.(link := LeProxy.OnDrained(d.link, s, Some(s.Other())))
  {
  }

  /** The end of the event callback on an open pair. */
  function PartProxy(d: Duo, s: Side): Duo {
    var o := s.Other();
    var parted :=
      if d.link.At(o).output != [] then
        d.(link := d.link.SetCb(o, NoReadcb, CloseOnFinishedWritecb, Eventcb, Some(o)).DisableRead(o))
      else
        d.Delete(Some(o));
    parted.Delete(Some(s))
  }

  lemma PartingAgrees(d: Duo, s: Side)
    requires BothOpen(d) && LeProxyInvariant.Inv(LeProxy.Part(d.link, s, s.Other()), MAX_OUTPUT)
    ensures Inv(PartProxy(d, s)) && Plain(PartProxy(d, s).link) == LeProxy.Part(d.link, s, s.Other())
  {
  }

  lemma FirstEvent(d: Duo, s: Side, what: What)
    requires BothOpen(d) && what.Fatal()
    ensures var l1 := LeProxy.OnRead(d.link, s, Some(s.Other()), MAX_OUTPUT);
            && l1 == Forwarded(d.link, s, s.Other(), Some(s))
            && BothOpen(d.(link := l1))
            && OnEvent(d, s, what, s.Other()) == PartProxy(d.(link := l1), s)
            && LeProxy.OnEvent(d.link, s, what, Some(s.Other()), MAX_OUTPUT) == LeProxy.Part(l1, s, s.Other())
  {
    OpenCallbacks(d, s);
    OnReadEnds(d.link, s, MAX_OUTPUT);
  }

  lemma OpenIsPlain(d: Duo)
    requires Inv(d) && d.link.BothLive()
    ensures BothOpen(d) && Plain(d.link) == d.link && Open(d.link, MAX_OUTPUT)
  {
  }

  lemma OpenStepIsPlain(d: Duo, step: Step)
    requires BothOpen(d) && Open(d.link, MAX_OUTPUT) && Enabled(d.link, step)
    requires !(step.RunEvent? && d.link.At(step.side).eventDue.Fatal())
    ensures Apply(d, step) == d.(link := LeProxy.Apply(d.link, step, MAX_OUTPUT))
  {
    var s := step.side;
    var e := d.link.At(s);
    match step
    case RunRead(_) => OpenCallbacks(d.(link := d.link.With(s, e.(readDue := false))), s);
    case RunWrite(_) =>
      OpenFromEitherSide(d.link, s, MAX_OUTPUT);
      OpenCallbacks(d.(link := d.link.With(s, e.(writeDue := false))), s);
    case _ =>
  }

  lemma OpenIsOk(d: Duo, l: Link)
    requires BothOpen(d) && Open(l, MAX_OUTPUT) && !l.fault && Open(d.link, MAX_OUTPUT)
    ensures Inv(d.(link := l)) && Plain(l) == l
  {
  }

  /** One step of an open pair is the same step of the plain relay. */
  lemma OpenStepSimulates(d: Duo, step: Step)
    requires Inv(d) && d.link.BothLive() && Enabled(d.link, step)
    ensures Inv(Apply(d, step))
    ensures Plain(Apply(d, step).link) == LeProxy.Apply(d.link, step, MAX_OUTPUT)
  {
    OpenIsPlain(d);
    if step.RunEvent? && d.link.At(step.side).eventDue.Fatal() {
      var s := step.side;
      var t := d.(link := d.link.With(s, d.link.At(s).(eventDue := NOTHING)));
      StepKeepsInv(d.link, step, MAX_OUTPUT);
      FirstEvent(t, s, d.link.At(s).eventDue);
      PartingAgrees(t.(link := LeProxy.OnRead(t.link, s, Some(s.Other()), MAX_OUTPUT)), s);
    } else {
      OpenStepIsPlain(d, step);
      OpenStepStaysOpen(d.link, step, MAX_OUTPUT);
      OpenIsOk(d, LeProxy.Apply(d.link, step, MAX_OUTPUT));
    }
  }

  // The draining phase.

  lemma OneLeft(d: Duo, step: Step)
    requires Inv(d) && !d.link.BothLive() && Enabled(d.link, step)
    ensures d.link.At(step.side).live && d.link.At(step.side).ctx == Some(step.side)
    ensures Draining(Plain(d.link), step.side) && !step.Read? && !step.RunRead?
    ensures d.At(step.side).alive && !d.At(step.side.Other()).alive
  {
    StepOfDraining(Plain(d.link), step.side, step, MAX_OUTPUT);
  }

  lemma PlainEnabled(l: Link, step: Step)
    ensures Enabled(Plain(l), step) <==> Enabled(l, step)
  {
  }

  lemma FinishSimulates(d: Duo, s: Side)
    requires d.At(s).alive && d.At(s).buffer == Some(s) && d.link.At(s).live && d.link.At(s).ctx == Some(s)
    ensures Plain(OnFinished(d, s, Some(s)).link) == LeProxy.OnFinished(Plain(d.link), s)
    ensures OnFinished(d, s, Some(s)).link.At(s).live == OnFinished(d, s, Some(s)).At(s).alive
    ensures ProxyOk(d, Inbound) && ProxyOk(d, Outbound) ==>
              ProxyOk(OnFinished(d, s, Some(s)), Inbound) && ProxyOk(OnFinished(d, s, Some(s)), Outbound)
  {
  }

  /** Any other step of a draining pair is the same step of the plain relay. */
  lemma DrainingStepSimulates(d: Duo, step: Step)
    requires Inv(d) && !d.link.BothLive() && Enabled(d.link, step) && !SecondEvent(d, step)
    ensures Enabled(Plain(d.link), step)
    ensures Inv(Apply(d, step))
    ensures Plain(Apply(d, step).link) == LeProxy.Apply(Plain(d.link), step, MAX_OUTPUT)
  {
    var s := step.side;
    OneLeft(d, step);
    PlainEnabled(d.link, step);
    StepKeepsInv(Plain(d.link), step, MAX_OUTPUT);
    if step.RunWrite? {
      FinishSimulates(d.(link := d.link.With(s, d.link.At(s).(writeDue := false))), s);
    }
  }

  /** EOF or an error on the draining end deletes its partner a second time, whatever is in the
      buffers. */
  lemma SecondEventFaults(d: Duo, step: Step)
    requires Inv(d) && !d.link.BothLive() && Enabled(d.link, step) && SecondEvent(d, step)
    ensures Apply(d, step).link.fault
  {
    OneLeft(d, step);
  }

  // Sockets that are not there.

  /** The read callback of a proxy whose partner has no socket drops the input and deletes both proxies,
      which frees the socket; the drained callback then makes nobody read. */
  lemma PartnerWithoutSocket(d: Duo, s: Side)
    requires d.At(s).alive && d.At(s.Other()).alive && d.link.At(s).live && d.At(s).buffer == Some(s)
    requires d.At(s.Other()).partner == Some(s) && d.At(s.Other()).buffer == None
    ensures var d' := OnRead(d, s, s.Other());
            && !d'.link.At(s).live && !d'.At(s).alive && !d'.At(s.Other()).alive && d'.link.fault == d.link.fault
            && d'.At(s).deletes == d.At(s).deletes + 1 && d'.At(s.Other()).deletes == d.At(s.Other()).deletes + 1
            && d'.link.At(s.Other()) == d.link.At(s.Other())
    ensures var d' := OnDrained(d, s, s.Other());
            && d'.link.At(s).writeCb == NoWritecb && d'.link.At(s).low == 0
            && d'.link.At(s.Other()) == d.link.At(s.Other()) && d'.link.fault == d.link.fault
  {
  }

  // Nothing is mended: a freed socket stays freed, and a fault stays.

  predicate Onward(l: Link, l': Link) {
    && (l'.inbound.live ==> l.inbound.live) && (l'.outbound.live ==> l.outbound.live)
    && (l.fault ==> l'.fault)
  }

  lemma DeleteGoesOn(d: Duo, s: Option<Side>)
    ensures Onward(d.link, d.Delete(s).link)
  {
  }

  lemma ForwardGoesOn(l: Link, s: Side, buf: Side, back: Option<Side>)
    ensures Onward(l, Forwarded(l, s, buf, back))
  {
  }

  lemma OnReadGoesOn(d: Duo, s: Side, ctx: Side)
    ensures Onward(d.link, OnRead(d, s, ctx).link)
  {
    var t := d.Touch(ctx);
    if t.At(ctx).buffer.None? {
      var drained := t.(link := t.link.DrainInput(s));
      DeleteGoesOn(drained, t.At(ctx).partner);
      DeleteGoesOn(drained.Delete(t.At(ctx).partner), Some(ctx));
    } else {
      ForwardGoesOn(t.link, s, t.At(ctx).buffer.value, t.At(ctx).partner);
    }
  }

  lemma OnWriteGoesOn(d: Duo, s: Side, ctx: Side)
    ensures Onward(d.link, OnDrained(d, s, ctx).link) && Onward(d.link, OnFinished(d, s, Some(ctx)).link)
  {
    DeleteGoesOn(d, Some(ctx));
  }

  lemma OnEventGoesOn(d: Duo, s: Side, what: What, ctx: Side)
    ensures Onward(d.link, OnEvent(d, s, what, ctx).link)
  {
    var t := d.Touch(ctx);
    OnReadGoesOn(t, s, ctx);
    var flushed := OnRead(t, s, ctx);
    var buf := flushed.At(ctx).buffer;
    if buf.Some? && flushed.link.At(buf.value).output != [] {
      DeleteGoesOn(
        flushed.(link := flushed.link.SetCb(buf.value, NoReadcb, CloseOnFinishedWritecb, Eventcb, Some(ctx))
                                     .DisableRead(buf.value)), t.At(ctx).partner);
    } else {
      DeleteGoesOn(flushed, Some(ctx));
      DeleteGoesOn(flushed.Delete(Some(ctx)), t.At(ctx).partner);
    }
  }

  lemma StepGoesOn(d: Duo, step: Step)
    requires Enabled(d.link, step)
    ensures Onward(d.link, Apply(d, step).link)
  {
    var s, e := step.side, d.link.At(step.side);
    if e.ctx.Some? {
      match step
      case RunRead(_) => OnReadGoesOn(d.(link := d.link.With(s, e.(readDue := false))), s, e.ctx.value);
      case RunWrite(_) => OnWriteGoesOn(d.(link := d.link.With(s, e.(writeDue := false))), s, e.ctx.value);
      case RunEvent(_) =>
        OnEventGoesOn(d.(link := d.link.With(s, e.(eventDue := NOTHING))), s, e.eventDue, e.ctx.value);
      case _ =>
    }
  }

  lemma {:induction false} RunGoesOn(d: Duo, steps: seq<Step>)
    requires IsRun(d, steps)
    ensures Onward(d.link, Exec(d, steps).link)
    decreases |steps|
  {
    if steps == [] {
    } else {
      StepGoesOn(d, steps[0]);
      RunGoesOn(Apply(d, steps[0]), steps[1..]);
    }
  }

  // Runs.

  predicate HasSecondEvent(d: Duo, steps: seq<Step>)
    requires IsRun(d, steps)
    decreases |steps|
  {
    steps != [] && (SecondEvent(d, steps[0]) || HasSecondEvent(Apply(d, steps[0]), steps[1..]))
  }

  lemma StepSimulates(d: Duo, step: Step)
    requires Inv(d) && Enabled(d.link, step) && !SecondEvent(d, step)
    ensures Inv(Apply(d, step)) && Enabled(Plain(d.link), step)
    ensures Plain(Apply(d, step).link) == LeProxy.Apply(Plain(d.link), step, MAX_OUTPUT)
  {
    if d.link.BothLive() {
      OpenIsPlain(d);
      OpenStepSimulates(d, step);
    } else {
      DrainingStepSimulates(d, step);
    }
  }

  /** What a callback other than a second EOF or error finds: a context whose proxy and socket are
      there, and for a first EOF or error an open pair. */
  lemma CallbackFinds(d: Duo, step: Step)
    requires Inv(d) && Enabled(d.link, step) && !SecondEvent(d, step)
    ensures var c := d.link.At(step.side).ctx;
            && c.Some? && d.At(c.value).alive && d.At(c.value).buffer == c && d.link.At(c.value).live
            && (step.RunRead? ==> c == Some(step.side.Other()))
            && (step.RunEvent? && (d.link.At(step.side).eventDue.eof || d.link.At(step.side).eventDue.error) ==>
                  BothOpen(d) && c == Some(step.side.Other()))
  {
    if d.link.BothLive() {
      OpenIsPlain(d);
    } else {
      OneLeft(d, step);
    }
  }

  lemma {:induction false} RunSimulates(d: Duo, steps: seq<Step>)
    requires Inv(d) && IsRun(d, steps)
    ensures Exec(d, steps).link.fault <==> HasSecondEvent(d, steps)
    ensures HasSecondEvent(d, steps) ==> !Exec(d, steps).link.BothLive()
    ensures !HasSecondEvent(d, steps) ==>
              && Inv(Exec(d, steps))
              && LeProxy.IsRun(Plain(d.link), steps, MAX_OUTPUT)
              && Plain(Exec(d, steps).link) == LeProxy.Exec(Plain(d.link), steps, MAX_OUTPUT)
    decreases |steps|
  {
    if steps == [] {
    } else {
      if SecondEvent(d, steps[0]) {
        if d.link.BothLive() {
          OpenIsPlain(d);
          assert false;
        }
        SecondEventFaults(d, steps[0]);
        StepGoesOn(d, steps[0]);
        RunGoesOn(Apply(d, steps[0]), steps[1..]);
      } else {
        StepSimulates(d, steps[0]);
        RunSimulates(Apply(d, steps[0]), steps[1..]);
      }
    }
  }
}
