/** The epoll loop in the form the program has: a table of pointers to handler objects, and methods
    that update the table, the handlers and the kernel in place. */
module EpollObjects {
  import opened Epoll
  import opened EpollInvariant

  /** Events from `i` on are still to be handled, and handling them leads to `end`. */
  ghost predicate Pending(w: World, es: seq<Event>, answers: seq<Answer>, i: nat, end: World) {
    && i <= |es| == |answers|
    && IsWait(w, es[i..]) && IsBatch(w, es[i..], answers[i..]) && DispatchAll(w, es[i..], answers[i..]) == end
  }

  lemma NextEvent(w: World, es: seq<Event>, answers: seq<Answer>, i: nat, end: World, server: Fd, base: set<Fd>)
    requires Inv(w, server, base) && Pending(w, es, answers, i, end) && i < |es|
    ensures Reported(w, es[i]) && Permits(w, es[i], answers[i])
    ensures Pending(Dispatch(w, es[i], answers[i]), es, answers, i + 1, end)
  {
    assert es[i..][0] == es[i] && answers[i..][0] == answers[i];
    assert es[i..][1..] == es[i + 1..] && answers[i..][1..] == answers[i + 1..];
    RestOfBatch(w, es[i..], answers[i], server, base);
  }

  lemma AllPending(w: World, es: seq<Event>, answers: seq<Answer>)
    requires IsWait(w, es) && IsBatch(w, es, answers)
    ensures Pending(w, es, answers, 0, DispatchAll(w, es, answers))
  {
    assert es[0..] == es && answers[0..] == answers;
  }

  /** What an event finds: a handler, and for a client an existing pipe and splices within it. */
  lemma EventFinds(w: World, e: Event, a: Answer, server: Fd, base: set<Fd>)
    requires Inv(w, server, base) && e.fd in w.interest && Permits(w, e, a)
    ensures e.fd in w.handlers
    ensures w.IsClient(e.fd) ==>
              var h := w.handlers[e.fd].echo;
              h.pipeOut in w.pipes && a.Splices? && (a.written == -1 || 0 <= a.written <= |w.Pipe(h)|)
  {
  }

  /** A handler behind a pointer; its fields may be used only until it is deleted. */
  class HandlerObject {
    var state: Handler
    var alive: bool

    constructor (state: Handler)
      ensures this.state == state && alive
    {
      this.state, alive := state, true;
    }

    method Load() returns (h: Handler)
      requires alive
      ensures h == state
    {
      h := state;
    }

    method Store(h: Handler)
      requires alive
      modifies this`state
      ensures state == h
    {
      state := h;
    }

    method Destroy()
      requires alive
      modifies this`alive
      ensures !alive
    {
      alive := false;
    }
  }

  class IOLoop {
    var handlers: map<Fd, HandlerObject>
    var interest: map<Fd, Armed>
    var open: set<Fd>
    var pipes: map<Fd, seq<Byte>>
    ghost var removals: seq<Removal>
    ghost var objects: set<HandlerObject>    // all handlers ever created
    ghost const server: Fd
    ghost const base: set<Fd>

    ghost function View(): World
      reads this, handlers.Values
    {
      World(map fd | fd in handlers :: handlers[fd].state, interest, open, pipes, removals, false)
    }

    /** No two descriptors share a handler. */
    ghost predicate Distinct()
      reads this
    {
      forall fd, gd :: fd in handlers && gd in handlers && fd != gd ==> handlers[fd] != handlers[gd]
    }

    /** The table holds no pointer to a deleted handler. */
    ghost predicate Listed()
      reads this, handlers.Values
    {
      forall fd :: fd in handlers ==> handlers[fd] in objects && handlers[fd].alive
    }

    ghost predicate Valid()
      reads this, handlers.Values
    {
      Distinct() && Listed() && Inv(View(), server, base)
    }

    constructor (server: Fd, base: set<Fd>)
      requires server in base
      ensures Valid() && View() == Started(server, base) && this.server == server && this.base == base
      ensures fresh(objects)
    {
      var h := new HandlerObject(ServerHandler);
      this.server, this.base := server, base;
      handlers, interest, open, pipes, removals := map[server := h], map[server := Armed(true, false)], base, map[], [];
      objects := {h};
      new;
      StartedOk(server, base);
      assert View().handlers == Started(server, base).handlers;
    }

    method AddHandler(fd: Fd, h: HandlerObject, armed: Armed, added: bool)
      requires Distinct() && forall gd :: gd in handlers && handlers[gd] == h ==> gd == fd
      modifies this`handlers, this`interest
      ensures Distinct() && View() == Epoll.AddHandler(old(View()), fd, h.state, armed, added)
      ensures handlers == old(handlers)[fd := h]
    {
      handlers := handlers[fd := h];
      if fd !in interest && added {
        interest := interest[fd := armed];
      }
      assert View().handlers == old(View()).handlers[fd := h.state];
    }

    method ModifyHandler(fd: Fd, armed: Armed)
      modifies this`interest
      ensures View() == Epoll.ModifyHandler(old(View()), fd, armed)
    {
      if fd in interest {
        interest := interest[fd := armed];
      }
    }

    method RemoveHandler(fd: Fd, ghost cause: Cause)
      requires Distinct() && Listed() && fd in handlers && handlers[fd].state.SpliceEchoHandler?
      modifies this, handlers[fd]
      ensures Distinct() && Listed() && objects == old(objects)
      ensures View() == Epoll.RemoveHandler(old(View()), fd, old(handlers[fd].state.echo), cause)
    {
      var handler := handlers[fd];
      var state := handler.Load();
      var h := state.echo;
      removals := removals + [Removal(h, cause, View().Pipe(h))];
      handlers := handlers - {fd};
      handler.Destroy();
      pipes := pipes - {h.pipeOut};
      open := open - {h.pipeOut, h.pipeIn};
      interest := interest - {fd};
      open := open - {fd};
      assert open == old(open) - {h.pipeOut, h.pipeIn, fd};
      assert View().handlers == old(View()).handlers - {fd};
    }

    /** A handler changes its own fields and its pipe. */
    method SetEcho(fd: Fd, h: Echo, pipe: seq<Byte>)
      requires Distinct() && Listed() && fd in handlers
      modifies this`pipes, handlers[fd]
      ensures Distinct() && Listed() && View() == EpollInvariant.SetEcho(old(View()), fd, h, pipe)
      ensures handlers[fd].state == SpliceEchoHandler(h)
    {
      handlers[fd].Store(SpliceEchoHandler(h));
      pipes := pipes[h.pipeOut := pipe];
      assert View().handlers == old(View()).handlers[fd := SpliceEchoHandler(h)];
    }

    /** The accepted socket and the `SpliceEchoHandler` constructor with its pipe. */
    method NewHandler(a: Answer) returns (h: HandlerObject)
      requires Distinct() && Listed() && a.Connect?
      modifies this`open, this`pipes, this`objects
      ensures fresh(h) && h.alive && h.state == SpliceEchoHandler(Echo(0, a.pipeOut, a.pipeIn, [], [], 0, 0))
      ensures Listed() && objects == old(objects) + {h}
      ensures View() == old(View()).(open := old(open) + {a.client, a.pipeOut, a.pipeIn},
                                     pipes := old(pipes)[a.pipeOut := []])
    {
      h := new HandlerObject(SpliceEchoHandler(Echo(0, a.pipeOut, a.pipeIn, [], [], 0, 0)));
      objects := objects + {h};
      open := open + {a.client, a.pipeOut, a.pipeIn};
      pipes := pipes[a.pipeOut := []];
    }

    method NewClient(a: Answer)
      requires Distinct() && Listed() && a.Connect?
      modifies this
      ensures Distinct() && Listed() && View() == Connected(old(View()), a)
      ensures forall o :: o in objects ==> o in old(objects) || fresh(o)
    {
      var h := NewHandler(a);
      AddHandler(a.client, h, Armed(true, true), a.added);
    }

    /** `ServerHandler::handle`. */
    method HandleServer(e: Event, a: Answer)
      requires Distinct() && Listed() && e.fd in handlers && handlers[e.fd].state == ServerHandler && e.fd in interest
      modifies this
      ensures Distinct() && Listed() && View() == Accept(old(View()), e.fd, a)
      ensures forall o :: o in objects ==> o in old(objects) || fresh(o)
    {
      AddHandler(e.fd, handlers[e.fd], Armed(true, false), true);
      if a.Connect? {
        NewClient(a);
      }
    }

    method WriteOut(fd: Fd, written: int)
      requires Distinct() && Listed() && fd in handlers && handlers[fd].state.SpliceEchoHandler?
      requires handlers[fd].state.echo.pipeOut in pipes
      requires written == -1 || 0 <= written <= |pipes[handlers[fd].state.echo.pipeOut]|
      modifies this`pipes, this`interest, handlers[fd]
      ensures Distinct() && Listed() && View() == WriteBranch(old(View()), fd, old(handlers[fd].state.echo), written)
      ensures handlers[fd].state.SpliceEchoHandler? && handlers[fd].state.echo.pipeOut in pipes
      ensures handlers[fd].state.echo ==
                AfterWrite(old(handlers[fd].state.echo), old(pipes[handlers[fd].state.echo.pipeOut]), written)
    {
      var state := handlers[fd].Load();
      var h := state.echo;
      var pipe := pipes[h.pipeOut];
      if written == -1 {
        SetEcho(fd, h.(received := h.received - written, failedWrites := h.failedWrites + 1), pipe);
      } else {
        SetEcho(fd, h.(received := h.received - written, echoed := h.echoed + pipe[..written]), pipe[written..]);
      }
      ModifyHandler(fd, Armed(true, false));
    }

    /** After a read the counter decides: the handler goes, or it waits for room to write. */
    method Settle(fd: Fd)
      requires Distinct() && Listed() && fd in handlers && handlers[fd].state.SpliceEchoHandler?
      modifies this, handlers[fd]
      ensures Distinct() && Listed() && objects == old(objects)
      ensures View() == Settled(old(View()), fd, old(handlers[fd].state.echo))
    {
      var state := handlers[fd].Load();
      if state.echo.received < 0 {
        RemoveHandler(fd, ReadBranch);
      } else if state.echo.received == 0 {
        RemoveHandler(fd, ReadBranch);
      } else {
        ModifyHandler(fd, Armed(false, true));
      }
    }

    /** The splice from the socket into the pipe. */
    method Gather(fd: Fd, got: Got)
      requires Distinct() && Listed() && fd in handlers && handlers[fd].state.SpliceEchoHandler?
      requires handlers[fd].state.echo.pipeOut in pipes
      modifies this`pipes, handlers[fd]
      ensures Distinct() && Listed()
      ensures handlers[fd].state == SpliceEchoHandler(AfterRead(old(handlers[fd].state.echo), got))
      ensures View() == EpollInvariant.SetEcho(old(View()), fd, AfterRead(old(handlers[fd].state.echo), got),
                                               old(pipes[handlers[fd].state.echo.pipeOut]) + Bytes(got))
    {
      var state := handlers[fd].Load();
      var h := state.echo;
      var pipe := pipes[h.pipeOut];
      match got {
        case Fail =>
          assert pipe + [] == pipe;
          h := h.(received := h.received - 1, failedReads := h.failedReads + 1);
        case Data(data) =>
          h := h.(received := h.received + |data|, taken := h.taken + data);
          pipe := pipe + data;
      }
      SetEcho(fd, h, pipe);
    }

    method ReadIn(fd: Fd, got: Got)
      requires Distinct() && Listed() && fd in handlers && handlers[fd].state.SpliceEchoHandler?
      requires handlers[fd].state.echo.pipeOut in pipes
      modifies this, handlers[fd]
      ensures Distinct() && View() == ReadBranchOf(old(View()), fd, old(handlers[fd].state.echo), got)
      ensures Listed() && objects == old(objects)
      ensures got.Data? && fd in handlers ==>
                var out := old(handlers[fd].state.echo.pipeOut);
                out in pipes && pipes[out] == old(pipes[handlers[fd].state.echo.pipeOut]) + got.data
    {
      Gather(fd, got);
      Settle(fd);
    }

    /** `SpliceEchoHandler::handle`. */
    method HandleEcho(e: Event, a: Answer)
      requires Distinct() && Listed() && e.fd in handlers && handlers[e.fd].state.SpliceEchoHandler? && a.Splices?
      requires a.written == -1 || 0 <= a.written <= |View().Pipe(handlers[e.fd].state.echo)|
      requires handlers[e.fd].state.echo.pipeOut in pipes
      modifies this, handlers[e.fd]
      ensures Distinct() && View() == Serve(old(View()), e, old(handlers[e.fd].state.echo), a)
      ensures e.hangUp || e.error ==> e.fd !in handlers && e.fd !in interest && e.fd !in open
      ensures Listed() && objects == old(objects)
    {
      var fd := e.fd;
      if e.hangUp {
        RemoveHandler(fd, HangUp);
        return;
      }
      if e.error {
        RemoveHandler(fd, SocketError);
        return;
      }
      if e.writable {
        WriteOut(fd, a.written);
      }
      if e.readable {
        ReadIn(fd, a.got);
      }
    }

    /** The handler is looked up and called. */
    method Call(e: Event, a: Answer)
      requires Distinct() && Listed() && e.fd in handlers && e.fd in interest && Permits(View(), e, a)
      requires handlers[e.fd].state.SpliceEchoHandler? ==>
                 && handlers[e.fd].state.echo.pipeOut in pipes && a.Splices?
                 && (a.written == -1 || 0 <= a.written <= |View().Pipe(handlers[e.fd].state.echo)|)
      modifies this, handlers[e.fd]
      ensures Distinct() && Listed() && View() == Dispatch(old(View()), e, a)
      ensures forall o :: o in objects ==> o in old(objects) || fresh(o)
    {
      assert View().handlers[e.fd] == handlers[e.fd].state;
      var state := handlers[e.fd].Load();
      match state
      case ServerHandler => HandleServer(e, a);
      case SpliceEchoHandler(_) => HandleEcho(e, a);
    }

    method HandleEvent(e: Event, a: Answer)
      requires Valid() && e.fd in interest && Permits(View(), e, a)
      modifies this, objects
      ensures Valid() && View() == Dispatch(old(View()), e, a)
      ensures forall o :: o in objects ==> o in old(objects) || fresh(o)
    {
      EventFinds(View(), e, a, server, base);
      DispatchKeepsInv(View(), e, a, server, base);
      Call(e, a);
    }

    /** The inner loop of `IOLoop::start`. */
    method ProcessBatch(es: seq<Event>, answers: seq<Answer>)
      requires Valid() && IsWait(View(), es) && IsBatch(View(), es, answers)
      modifies this, objects
      ensures Valid() && View() == DispatchAll(old(View()), es, answers)
    {
      ghost var end := DispatchAll(View(), es, answers);
      AllPending(View(), es, answers);
      var i := 0;
      while i < |es|
        invariant 0 <= i <= |es| && Valid() && Pending(View(), es, answers, i, end)
        invariant forall o :: o in objects ==> o in old(objects) || fresh(o)
      {
        NextEvent(View(), es, answers, i, end, server, base);
        HandleEvent(es[i], answers[i]);
        i := i + 1;
      }
    }
  }
}
