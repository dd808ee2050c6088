/** The plain relay in the form the program has: two objects updated in place by callbacks that are
    handed a buffered socket and an untyped context pointer. */
module LeProxyObjects {
  import opened BufferEvents
  import opened BufferEventObjects
  import LeProxy
  import opened LeProxyInvariant

  class Relay {
    const max: nat
    const io: Sockets

    /** Contexts point to the sockets themselves. */
    ghost predicate Wired()
      reads io.inbound, io.outbound
    {
      io.Wired() && io.first == io.inbound && io.second == io.outbound
    }

    ghost function View(): Link
      reads io.inbound, io.outbound
    {
      io.View()
    }

    ghost predicate Valid()
      reads io.inbound, io.outbound
    {
      max >= 1 && Wired() && Inv(View(), max)
    }

    /** The end of `accept_cb`. */
    constructor (max: nat)
      requires max >= 1
      ensures Valid() && this.max == max && fresh(io.inbound) && fresh(io.outbound)
      ensures View() == LeProxy.Linked()
    {
      var bin := new BufferEvent();
      var bout := new BufferEvent();
      this.max := max;
      io := new Sockets(bin, bout, bin, bout);
      new;
      io.SetCb(io.inbound, Readcb, NoWritecb, Eventcb, io.outbound);
      io.SetCb(io.outbound, Readcb, NoWritecb, Eventcb, io.inbound);
      io.EnableRead(io.inbound);
      io.EnableRead(io.outbound);
      InitiallyOpen(max);
    }

    method HandleRead(bev: BufferEvent, ctx: object?)
      requires Wired() && io.Live(bev) && (ctx != null ==> io.Live(ctx))
      modifies io.inbound, io.outbound
      ensures Wired() && View() == LeProxy.OnRead(old(View()), io.SideOf(bev), io.Name(ctx), max)
      ensures io.Live(io.inbound) == old(io.Live(io.inbound)) && io.Live(io.outbound) == old(io.Live(io.outbound))
    {
      if ctx == null {
        io.DrainInput(bev);
        return;
      }
      var partner := ctx as BufferEvent;
      io.MoveInput(bev, partner);
      if |partner.state.output| >= max {
        io.SetCb(partner, Readcb, DrainedWritecb, Eventcb, bev);
        io.SetWriteWatermark(partner, max / 2, max);
        io.DisableRead(bev);
      }
    }

    method HandleDrained(bev: BufferEvent, ctx: object?)
      requires Wired() && io.Live(bev) && (ctx != null ==> io.Live(ctx))
      modifies io.inbound, io.outbound
      ensures Wired() && View() == LeProxy.OnDrained(old(View()), io.SideOf(bev), io.Name(ctx))
    {
      io.SetCb(bev, Readcb, NoWritecb, Eventcb, ctx);
      io.SetWriteWatermark(bev, 0, 0);
      if ctx != null {
        io.EnableRead(ctx as BufferEvent);
      }
    }

    method HandleFinished(bev: BufferEvent)
      requires Wired() && io.Live(bev)
      modifies io.inbound, io.outbound
      ensures Wired() && View() == LeProxy.OnFinished(old(View()), io.SideOf(bev))
    {
      if |bev.state.output| == 0 {
        io.Free(bev);
      }
    }

    method HandleEvent(bev: BufferEvent, what: What, ctx: object?)
      requires Wired() && io.Live(bev) && (ctx != null ==> io.Live(ctx) && ctx != bev)
      modifies io.inbound, io.outbound
      ensures Wired() && View() == LeProxy.OnEvent(old(View()), io.SideOf(bev), what, io.Name(ctx), max)
      ensures io.Live(bev) <==> !what.eof && !what.error
      ensures !what.eof && !what.error ==> View() == old(View())
    {
      if what.eof || what.error {
        if ctx != null {
          var partner := ctx as BufferEvent;
          HandleRead(bev, ctx);
          if |partner.state.output| != 0 {
            io.SetCb(partner, NoReadcb, CloseOnFinishedWritecb, Eventcb, null);
            io.DisableRead(partner);
          } else {
            io.Free(partner);
          }
        }
        io.Free(bev);
      }
    }

    // The event loop.

    method Receive(bev: BufferEvent, data: seq<Byte>)
      requires Valid() && bev in {io.inbound, io.outbound} && Enabled(View(), Read(io.SideOf(bev), data))
      modifies bev`state
      ensures Valid() && View() == LeProxy.Apply(old(View()), Read(io.SideOf(bev), data), max)
    {
      StepKeepsInv(View(), Read(io.SideOf(bev), data), max);
      bev.state := bev.state.Receive(data);
    }

    method Transmit(bev: BufferEvent, n: nat)
      requires Valid() && bev in {io.inbound, io.outbound} && Enabled(View(), Write(io.SideOf(bev), n))
      modifies bev`state
      ensures Valid() && View() == LeProxy.Apply(old(View()), Write(io.SideOf(bev), n), max)
    {
      StepKeepsInv(View(), Write(io.SideOf(bev), n), max);
      bev.state := bev.state.Transmit(n);
    }

    method RaiseEvent(bev: BufferEvent, what: What, stops: bool)
      requires Valid() && bev in {io.inbound, io.outbound} && Enabled(View(), Raise(io.SideOf(bev), what, stops))
      modifies bev`state
      ensures Valid() && View() == LeProxy.Apply(old(View()), Raise(io.SideOf(bev), what, stops), max)
    {
      StepKeepsInv(View(), Raise(io.SideOf(bev), what, stops), max);
      bev.state := bev.state.Raise(what, stops);
    }

    method RunRead(bev: BufferEvent)
      requires Valid() && bev in {io.inbound, io.outbound} && Enabled(View(), Step.RunRead(io.SideOf(bev)))
      modifies io.inbound, io.outbound
      ensures Valid() && View() == LeProxy.Apply(old(View()), Step.RunRead(io.SideOf(bev)), max)
    {
      StepKeepsInv(View(), Step.RunRead(io.SideOf(bev)), max);
      io.TakeRead(bev);
      HandleRead(bev, bev.ctx);
    }

    method RunWrite(bev: BufferEvent)
      requires Valid() && bev in {io.inbound, io.outbound} && Enabled(View(), Step.RunWrite(io.SideOf(bev)))
      modifies io.inbound, io.outbound
      ensures Valid() && View() == LeProxy.Apply(old(View()), Step.RunWrite(io.SideOf(bev)), max)
    {
      StepKeepsInv(View(), Step.RunWrite(io.SideOf(bev)), max);
      io.TakeWrite(bev);
      if bev.state.writeCb == DrainedWritecb {
        HandleDrained(bev, bev.ctx);
      } else {
        HandleFinished(bev);
      }
    }

    method RunEvent(bev: BufferEvent)
      requires Valid() && bev in {io.inbound, io.outbound} && Enabled(View(), Step.RunEvent(io.SideOf(bev)))
      modifies io.inbound, io.outbound
      ensures Valid() && View() == LeProxy.Apply(old(View()), Step.RunEvent(io.SideOf(bev)), max)
    {
      StepKeepsInv(View(), Step.RunEvent(io.SideOf(bev)), max);
      var what := io.TakeEvent(bev);
      HandleEvent(bev, what, bev.ctx);
    }
  }
}
