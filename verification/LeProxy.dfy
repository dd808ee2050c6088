/** The plain relay: its four callbacks, its wiring, and the runs they give rise to. */
module LeProxy {
  import opened BufferEvents

  const MAX_OUTPUT := 512 * 1024

  function OnRead(l: Link, bev: Side, ctx: Option<Side>, max: nat): Link {
    if ctx.None? then
      l.DrainInput(bev)
    else
      var partner := ctx.value;
      var moved := l.MoveInput(bev, partner);
      if |moved.At(partner).output| >= max then
        moved.SetCb(partner, Readcb, DrainedWritecb, Eventcb, Some(bev))
             .SetWriteWatermark(partner, max / 2, max)
             .DisableRead(bev)
      else
        moved
  }

  function OnDrained(l: Link, bev: Side, ctx: Option<Side>): Link {
    var open := l.SetCb(bev, Readcb, NoWritecb, Eventcb, ctx).SetWriteWatermark(bev, 0, 0);
    if ctx.Some? then open.EnableRead(ctx.value) else open
  }

  function OnFinished(l: Link, bev: Side): Link {
    if l.At(bev).output == [] then l.Free(bev) else l
  }

  /** The end of `eventcb`: the partner drains or is freed, and `bev` is freed. */
  function Part(l: Link, bev: Side, partner: Side): Link {
    var parted :=
      if l.At(partner).output != [] then
        l.SetCb(partner, NoReadcb, CloseOnFinishedWritecb, Eventcb, None).DisableRead(partner)
      else
        l.Free(partner);
    parted.Free(bev)
  }

  function OnEvent(l: Link, bev: Side, what: What, ctx: Option<Side>, max: nat): Link {
    if !what.Fatal() then l
    else if ctx.None? then l.Free(bev)
    else Part(OnRead(l, bev, ctx, max), bev, ctx.value)
  }

  /** The pair as the end of `accept_cb` leaves it. */
  function Linked(): Link {
    Link(FRESH, FRESH, false)
      .SetCb(Inbound, Readcb, NoWritecb, Eventcb, Some(Outbound))
      .SetCb(Outbound, Readcb, NoWritecb, Eventcb, Some(Inbound))
      .EnableRead(Inbound)
      .EnableRead(Outbound)
  }

  function Apply(l: Link, step: Step, max: nat): Link
    requires Enabled(l, step)
  {
    var s := step.side;
    var e := l.At(s);
    match step
    case Read(_, data) => l.With(s, e.Receive(data))
    case Write(_, n) => l.With(s, e.Transmit(n))
    case Raise(_, what, stops) => l.With(s, e.Raise(what, stops))
    case RunRead(_) => OnRead(l.With(s, e.(readDue := false)), s, e.ctx, max)
    case RunWrite(_) =>
      var taken := l.With(s, e.(writeDue := false));
      if e.writeCb.DrainedWritecb? then OnDrained(taken, s, e.ctx) else OnFinished(taken, s)
    case RunEvent(_) => OnEvent(l.With(s, e.(eventDue := NOTHING)), s, e.eventDue, e.ctx, max)
  }

  predicate IsRun(l: Link, steps: seq<Step>, max: nat)
    decreases |steps|
  {
    steps != [] ==> Enabled(l, steps[0]) && IsRun(Apply(l, steps[0], max), steps[1..], max)
  }

  function Exec(l: Link, steps: seq<Step>, max: nat): Link
    requires IsRun(l, steps, max)
    decreases |steps|
  {
    if steps == [] then l else Exec(Apply(l, steps[0], max), steps[1..], max)
  }

  /** Without a partner `readcb` throws the input away, and `drained_writecb` makes nobody read. */
  lemma NoPartner(l: Link, s: Side, max: nat)
    requires l.At(s).live
    ensures OnRead(l, s, None, max).At(s).input == [] && OnRead(l, s, None, max).At(s).output == l.At(s).output
    ensures OnRead(l, s, None, max).At(s.Other()) == l.At(s.Other()) && OnRead(l, s, None, max).fault == l.fault
    ensures OnDrained(l, s, None).At(s).writeCb == NoWritecb && OnDrained(l, s, None).At(s).low == 0
    ensures OnDrained(l, s, None).At(s.Other()) == l.At(s.Other()) && OnDrained(l, s, None).fault == l.fault
  {
  }

  lemma {:induction false} ExecAppend(l: Link, first: seq<Step>, second: seq<Step>, max: nat)
    requires IsRun(l, first, max)
    ensures IsRun(l, first + second, max) <==> IsRun(Exec(l, first, max), second, max)
    ensures IsRun(l, first + second, max) ==>
              Exec(l, first + second, max) == Exec(Exec(l, first, max), second, max)
    decreases |first|
  {
    if first == [] {
      assert first + second == second;
    } else {
      assert (first + second)[1..] == first[1..] + second;
      ExecAppend(Apply(l, first[0], max), first[1..], second, max);
    }
  }
}
