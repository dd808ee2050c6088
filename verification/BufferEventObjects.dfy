/** Buffered sockets as objects.  Library calls demand a live socket, so verifying a callback includes
    showing that it never touches a freed one. */
module BufferEventObjects {
  import opened BufferEvents

  /** A socket of the library: its contents as one record, and the pointer it hands to callbacks. */
  class BufferEvent {
    var state: End
    var ctx: object?

    constructor ()
      ensures state == FRESH && ctx == null
    {
      state, ctx := FRESH, null;
    }
  }

  /** The two sockets of a relayed connection and the two objects their contexts may point to. */
  class Sockets {
    const inbound: BufferEvent
    const outbound: BufferEvent
    ghost const first: object
    ghost const second: object

    constructor (inbound: BufferEvent, outbound: BufferEvent, ghost first: object, ghost second: object)
      ensures this.inbound == inbound && this.outbound == outbound
      ensures this.first == first && this.second == second
    {
      this.inbound, this.outbound, this.first, this.second := inbound, outbound, first, second;
    }

    /** The side a context pointer stands for. */
    ghost function Name(ctx: object?): Option<Side> {
      if ctx == null then None else if ctx == first then Some(Inbound) else Some(Outbound)
    }

    ghost predicate Known(ctx: object?) {
      ctx == null || ctx == first || ctx == second
    }

    ghost function SideOf(bev: BufferEvent): Side {
      if bev == inbound then Inbound else Outbound
    }

    ghost function View(): Link
      reads inbound, outbound
    {
      Link(inbound.state.(ctx := Name(inbound.ctx)), outbound.state.(ctx := Name(outbound.ctx)), false)
    }

    ghost predicate Wired()
      reads inbound, outbound
    {
      inbound != outbound && first != second && Known(inbound.ctx) && Known(outbound.ctx)
    }

    /** One of the two ends, and not freed. */
    ghost predicate Live(bev: object)
      reads inbound, outbound
    {
      (bev == inbound && inbound.state.live) || (bev == outbound && outbound.state.live)
    }

    // The library calls.

    method SetCb(bev: BufferEvent, r: ReadCallback, w: WriteCallback, e: EventCallback, ctx: object?)
      requires Wired() && Live(bev) && Known(ctx)
      modifies bev
      ensures Wired() && View() == old(View()).SetCb(SideOf(bev), r, w, e, Name(ctx))
      ensures Live(inbound) == old(Live(inbound)) && Live(outbound) == old(Live(outbound))
    {
      bev.state, bev.ctx := bev.state.(readCb := r, writeCb := w, eventCb := e), ctx;
    }

    method SetWriteWatermark(bev: BufferEvent, low: nat, high: nat)
      requires Wired() && Live(bev)
      modifies bev`state
      ensures Wired() && View() == old(View()).SetWriteWatermark(SideOf(bev), low, high)
      ensures Live(inbound) == old(Live(inbound)) && Live(outbound) == old(Live(outbound))
    {
      bev.state := bev.state.(low := low, high := high);
    }

    method EnableRead(bev: BufferEvent)
      requires Wired() && Live(bev)
      modifies bev`state
      ensures Wired() && View() == old(View()).EnableRead(SideOf(bev))
      ensures Live(inbound) == old(Live(inbound)) && Live(outbound) == old(Live(outbound))
    {
      bev.state := bev.state.(reading := true);
    }

    method DisableRead(bev: BufferEvent)
      requires Wired() && Live(bev)
      modifies bev`state
      ensures Wired() && View() == old(View()).DisableRead(SideOf(bev))
      ensures Live(inbound) == old(Live(inbound)) && Live(outbound) == old(Live(outbound))
    {
      bev.state := bev.state.(reading := false);
    }

    method DrainInput(bev: BufferEvent)
      requires Wired() && Live(bev)
      modifies bev`state
      ensures Wired() && View() == old(View()).DrainInput(SideOf(bev))
      ensures Live(inbound) == old(Live(inbound)) && Live(outbound) == old(Live(outbound))
    {
      bev.state := bev.state.(input := []);
    }

    method MoveInput(src: BufferEvent, dst: BufferEvent)
      requires Wired() && Live(src) && Live(dst)
      modifies src`state, dst`state
      ensures Wired() && View() == old(View()).MoveInput(SideOf(src), SideOf(dst))
      ensures Live(inbound) == old(Live(inbound)) && Live(outbound) == old(Live(outbound))
    {
      var data := src.state.input;
      src.state := src.state.(input := []);
      dst.state := dst.state.(output := dst.state.output + data);
    }

    method Free(bev: BufferEvent)
      requires Wired() && Live(bev)
      modifies bev
      ensures Wired() && View() == old(View()).Free(SideOf(bev))
      ensures Live(inbound) == (bev != inbound && old(Live(inbound)))
      ensures Live(outbound) == (bev != outbound && old(Live(outbound)))
    {
      bev.state, bev.ctx := bev.state.Freed(), null;
    }

    // The event loop takes a deferred callback off its queue.

    method TakeRead(bev: BufferEvent)
      requires Wired() && Live(bev)
      modifies bev`state
      ensures Wired() && View() == old(View()).With(SideOf(bev), old(View()).At(SideOf(bev)).(readDue := false))
      ensures Live(inbound) == old(Live(inbound)) && Live(outbound) == old(Live(outbound))
    {
      bev.state := bev.state.(readDue := false);
    }

    method TakeWrite(bev: BufferEvent)
      requires Wired() && Live(bev)
      modifies bev`state
      ensures Wired() && View() == old(View()).With(SideOf(bev), old(View()).At(SideOf(bev)).(writeDue := false))
      ensures Live(inbound) == old(Live(inbound)) && Live(outbound) == old(Live(outbound))
    {
      bev.state := bev.state.(writeDue := false);
    }

    method TakeEvent(bev: BufferEvent) returns (what: What)
      requires Wired() && Live(bev)
      modifies bev`state
      ensures Wired() && View() == old(View()).With(SideOf(bev), old(View()).At(SideOf(bev)).(eventDue := NOTHING))
      ensures what == old(View()).At(SideOf(bev)).eventDue
      ensures Live(inbound) == old(Live(inbound)) && Live(outbound) == old(Live(outbound))
    {
      what := bev.state.eventDue;
      bev.state := bev.state.(eventDue := NOTHING);
    }
  }
}
