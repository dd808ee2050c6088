/** The object-based relay in the form the program has: proxy objects that point to each other and to
    their sockets, and callbacks that follow and delete them. */
module TransparentObjects {
  import opened BufferEvents
  import opened BufferEventObjects
  import opened TransparentProxy

  class TransparentTcpProxy {
    var alive: bool
    var partner: TransparentTcpProxy?
    var buffer: BufferEvent?
    ghost var deletes: nat

    constructor ()
      ensures alive && partner == null && buffer == null && deletes == 0
    {
      alive, partner, buffer, deletes := true, null, null, 0;
    }
  }

  class ProxyPair {
    const io: Sockets
    const near: TransparentTcpProxy
    const far: TransparentTcpProxy

    ghost function NameOf(buffer: BufferEvent?): Option<Side> {
      if buffer == null then None else Some(io.SideOf(buffer))
    }

    ghost function SideOf(p: TransparentTcpProxy): Side {
      if p == near then Inbound else Outbound
    }

    ghost function Value(p: TransparentTcpProxy): Proxy
      reads p
    {
      Proxy(p.alive, p.deletes, io.Name(p.partner), NameOf(p.buffer))
    }

    ghost function View(): Duo
      reads near, far, io.inbound, io.outbound
    {
      Duo(Value(near), Value(far), io.View())
    }

    /** Contexts and partners point to the proxies, buffers to the sockets. */
    ghost predicate Wired()
      reads near, far, io.inbound, io.outbound
    {
      && io.Wired() && near != far && io.first == near && io.second == far
      && io.Known(near.partner) && io.Known(far.partner)
      && near.buffer in {null, io.inbound, io.outbound} && far.buffer in {null, io.inbound, io.outbound}
    }

    ghost predicate Valid()
      reads near, far, io.inbound, io.outbound
    {
      Wired() && Inv(View())
    }

    /** The set-up of a pair: `init_transparent_partner` and both calls of `start`. */
    constructor ()
      ensures Valid() && View() == Started()
      ensures fresh(near) && fresh(far) && fresh(io.inbound) && fresh(io.outbound)
    {
      var p := new TransparentTcpProxy();
      var q := new TransparentTcpProxy();
      var bin := new BufferEvent();
      var bout := new BufferEvent();
      p.partner, q.partner, p.buffer, q.buffer := q, p, bin, bout;
      near, far := p, q;
      io := new Sockets(bin, bout, p, q);
      new;
      StartBoth();
    }

    /** `TransparentTcpProxy::start`. */
    method Start(p: TransparentTcpProxy)
      requires Wired() && p in {near, far} && p.buffer != null && io.Live(p.buffer)
      modifies p.buffer
      ensures Wired() && Value(near) == old(Value(near)) && Value(far) == old(Value(far))
      ensures io.View() == TransparentProxy.Start(old(io.View()), io.SideOf(p.buffer), io.Name(p.partner))
      ensures io.Live(io.inbound) == old(io.Live(io.inbound)) && io.Live(io.outbound) == old(io.Live(io.outbound))
    {
      io.SetCb(p.buffer, Readcb, NoWritecb, Eventcb, p.partner);
      io.EnableRead(p.buffer);
    }

    method StartBoth()
      requires Wired() && io.View() == Link(FRESH, FRESH, false)
      requires near.alive && far.alive && near.deletes == 0 && far.deletes == 0
      requires near.partner == far && far.partner == near && near.buffer == io.inbound && far.buffer == io.outbound
      modifies io.inbound, io.outbound
      ensures Valid() && View() == Started()
    {
      Start(near);
      Start(far);
      StartedOk();
    }

    /** `delete`, which runs the destructor. */
    method Delete(p: TransparentTcpProxy)
      requires Wired() && p in {near, far} && p.alive && (p.buffer != null ==> io.Live(p.buffer))
      modifies p`alive, p`deletes, io.inbound, io.outbound
      ensures Wired() && View() == old(View()).Delete(Some(SideOf(p)))
    {
      if p.buffer != null {
        io.Free(p.buffer);
      }
      p.alive, p.deletes := false, p.deletes + 1;
    }

    /** The branch of `_readcb` for a full output. */
    method Choke(bev: BufferEvent, partner: TransparentTcpProxy)
      requires Wired() && io.Live(bev) && partner in {near, far} && partner.buffer != null && io.Live(partner.buffer)
      modifies io.inbound, io.outbound
      ensures Wired()
      ensures io.View() == Choked(old(io.View()), io.SideOf(bev), io.SideOf(partner.buffer), io.Name(partner.partner))
      ensures io.Live(io.inbound) == old(io.Live(io.inbound)) && io.Live(io.outbound) == old(io.Live(io.outbound))
    {
      io.SetCb(partner.buffer, Readcb, DrainedWritecb, Eventcb, partner.partner);
      io.SetWriteWatermark(partner.buffer, MAX_OUTPUT / 2, MAX_OUTPUT);
      io.DisableRead(bev);
    }

    /** The body of `_readcb` for a partner with a socket. */
    method Forward(bev: BufferEvent, partner: TransparentTcpProxy)
      requires Wired() && io.Live(bev) && partner in {near, far} && partner.buffer != null && io.Live(partner.buffer)
      modifies io.inbound, io.outbound
      ensures Wired()
      ensures io.View() == Forwarded(old(io.View()), io.SideOf(bev), io.SideOf(partner.buffer), io.Name(partner.partner))
      ensures io.Live(io.inbound) == old(io.Live(io.inbound)) && io.Live(io.outbound) == old(io.Live(io.outbound))
    {
      io.MoveInput(bev, partner.buffer);
      if |partner.buffer.state.output| >= MAX_OUTPUT {
        Choke(bev, partner);
      }
    }

    /** NULL, or another live proxy with a live socket or none. */
    ghost predicate Deletable(p: TransparentTcpProxy?, other: object?)
      reads p, io.inbound, io.outbound
    {
      p != null ==> p != other && p.alive && (p.buffer != null ==> io.Live(p.buffer))
    }

    method HandleRead(bev: BufferEvent, ctx: object?)
      requires Wired() && io.Live(bev) && ctx in {near, far} && (ctx as TransparentTcpProxy).alive
      requires (ctx as TransparentTcpProxy).buffer != null ==> io.Live((ctx as TransparentTcpProxy).buffer)
      requires (ctx as TransparentTcpProxy).buffer == null ==> Deletable((ctx as TransparentTcpProxy).partner, ctx)
      modifies near, far, io.inbound, io.outbound
      ensures Wired() && View() == OnRead(old(View()), io.SideOf(bev), SideOf(ctx as TransparentTcpProxy))
    {
      var partner := ctx as TransparentTcpProxy;
      if partner.buffer == null {
        io.DrainInput(bev);
        if partner.partner != null {
          Delete(partner.partner);
        }
        Delete(partner);
      } else {
        Forward(bev, partner);
      }
    }

    /** The first two calls of `_drained_writecb`. */
    method Unchoke(bev: BufferEvent, partner: TransparentTcpProxy)
      requires Wired() && io.Live(bev) && partner in {near, far}
      modifies io.inbound, io.outbound
      ensures Wired() && io.View() == Unchoked(old(io.View()), io.SideOf(bev), SideOf(partner))
      ensures io.Live(io.inbound) == old(io.Live(io.inbound)) && io.Live(io.outbound) == old(io.Live(io.outbound))
    {
      io.SetCb(bev, Readcb, NoWritecb, Eventcb, partner);
      io.SetWriteWatermark(bev, 0, 0);
    }

    method HandleDrained(bev: BufferEvent, ctx: object?)
      requires Wired() && io.Live(bev) && ctx in {near, far}
      requires var p := ctx as TransparentTcpProxy; p.alive && (p.buffer != null ==> io.Live(p.buffer))
      modifies io.inbound, io.outbound
      ensures Wired() && View() == OnDrained(old(View()), io.SideOf(bev), SideOf(ctx as TransparentTcpProxy))
    {
      var partner := ctx as TransparentTcpProxy;
      Unchoke(bev, partner);
      if partner.buffer != null {
        io.EnableRead(partner.buffer);
      }
    }

    method HandleFinished(bev: BufferEvent, ctx: object?)
      requires Wired() && io.Live(bev) && ctx in {near, far}
      requires var p := ctx as TransparentTcpProxy; p.alive && (p.buffer != null ==> io.Live(p.buffer))
      modifies near, far, io.inbound, io.outbound
      ensures Wired()
      ensures View() == OnFinished(old(View()), io.SideOf(bev), Some(SideOf(ctx as TransparentTcpProxy)))
    {
      if |bev.state.output| == 0 {
        Delete(ctx as TransparentTcpProxy);
      }
    }

    /** The second half of `_eventcb` after EOF or an error. */
    method Part(partner: TransparentTcpProxy, p2: TransparentTcpProxy)
      requires Wired() && BothOpen(View()) && partner in {near, far} && p2 in {near, far} && partner != p2
      modifies near, far, io.inbound, io.outbound
      ensures Wired() && View() == PartProxy(old(View()), SideOf(p2))
    {
      if |partner.buffer.state.output| != 0 {
        io.SetCb(partner.buffer, NoReadcb, CloseOnFinishedWritecb, Eventcb, partner);
        io.DisableRead(partner.buffer);
      } else {
        Delete(partner);
      }
      Delete(p2);
    }

    /** `_eventcb`; EOF and errors only while both proxies are there. */
    method HandleEvent(bev: BufferEvent, what: What, ctx: object?)
      requires Wired() && io.Live(bev) && ctx in {near, far} && (ctx as TransparentTcpProxy).alive
      requires what.eof || what.error ==> BothOpen(View()) && ctx == (if bev == io.inbound then far else near)
      modifies near, far, io.inbound, io.outbound
      ensures Wired() && View() == OnEvent(old(View()), io.SideOf(bev), what, SideOf(ctx as TransparentTcpProxy))
      ensures io.Live(bev) <==> !what.eof && !what.error
      ensures !what.eof && !what.error ==> View() == old(View())
    {
      var partner := ctx as TransparentTcpProxy;
      var p2 := partner.partner;
      if what.eof || what.error {
        FirstEvent(View(), io.SideOf(bev), what);
        Forward(bev, partner);
        Part(partner, p2);
      }
    }

    // The event loop runs a deferred callback of socket `bev`.

    method RunRead(bev: BufferEvent)
      requires Valid() && bev in {io.inbound, io.outbound}
      requires Enabled(View().link, Step.RunRead(io.SideOf(bev)))
      modifies near, far, io.inbound, io.outbound
      ensures Valid() && View() == Apply(old(View()), Step.RunRead(io.SideOf(bev)))
    {
      StepSimulates(View(), Step.RunRead(io.SideOf(bev)));
      CallbackFinds(View(), Step.RunRead(io.SideOf(bev)));
      io.TakeRead(bev);
      HandleRead(bev, bev.ctx);
    }

    method RunWrite(bev: BufferEvent)
      requires Valid() && bev in {io.inbound, io.outbound}
      requires Enabled(View().link, Step.RunWrite(io.SideOf(bev)))
      modifies near, far, io.inbound, io.outbound
      ensures Valid() && View() == Apply(old(View()), Step.RunWrite(io.SideOf(bev)))
    {
      StepSimulates(View(), Step.RunWrite(io.SideOf(bev)));
      CallbackFinds(View(), Step.RunWrite(io.SideOf(bev)));
      io.TakeWrite(bev);
      if bev.state.writeCb == CloseOnFinishedWritecb {
        HandleFinished(bev, bev.ctx);
      } else {
        HandleDrained(bev, bev.ctx);
      }
    }

    method RunEvent(bev: BufferEvent)
      requires Valid() && bev in {io.inbound, io.outbound}
      requires Enabled(View().link, Step.RunEvent(io.SideOf(bev)))
      requires !SecondEvent(View(), Step.RunEvent(io.SideOf(bev)))
      modifies near, far, io.inbound, io.outbound
      ensures Valid() && View() == Apply(old(View()), Step.RunEvent(io.SideOf(bev)))
    {
      StepSimulates(View(), Step.RunEvent(io.SideOf(bev)));
      CallbackFinds(View(), Step.RunEvent(io.SideOf(bev)));
      var what := io.TakeEvent(bev);
      HandleEvent(bev, what, bev.ctx);
    }
  }
}
