/** What every handled event keeps. */
module EpollInvariant {
  import opened Epoll

  /** Client `fd` owns descriptor `x`: its socket or an end of its pipe. */
  predicate Holds(w: World, fd: Fd, x: Fd) {
    w.IsClient(fd) && (x == fd || x == w.handlers[fd].echo.pipeOut || x == w.handlers[fd].echo.pipeIn)
  }

  /** The counter against the pipe: each failed splice shifts it by one. */
  predicate Counts(h: Echo, pipe: seq<Byte>) {
    && h.received == |pipe| + h.failedWrites - h.failedReads
    && h.taken == h.echoed + pipe
  }

  /** A client descriptor has both directions armed only until its first event; after that it has
      one, and writing only while the counter is positive. */
  predicate ArmedWell(w: World, fd: Fd, h: Echo) {
    fd in w.interest ==>
      && (w.interest[fd].read && w.interest[fd].write ==> h.received == 0 && h.taken == [])
      && (w.interest[fd].read || w.interest[fd].write)
      && (w.interest[fd].write && !w.interest[fd].read ==> h.received > 0)
  }

  predicate ClientOk(w: World, fd: Fd, h: Echo) {
    && h.received >= 0 && h.pipeOut in w.pipes && Counts(h, w.Pipe(h)) && ArmedWell(w, fd, h)
  }

  /** A client handler owns three different open descriptors that belong to nobody else. */
  ghost predicate Owns(w: World, base: set<Fd>) {
    && base <= w.open
    && (forall fd :: w.IsClient(fd) ==>
          var h := w.handlers[fd].echo; fd != h.pipeOut && fd != h.pipeIn && h.pipeOut != h.pipeIn)
    && (forall fd, x :: Holds(w, fd, x) ==> x in w.open && x !in base)
    && (forall fd, gd, x :: Holds(w, fd, x) && Holds(w, gd, x) ==> fd == gd)
  }

  function Clients(w: World): set<Fd> {
    set fd | fd in w.handlers && w.handlers[fd].SpliceEchoHandler?
  }

  predicate TableOk(w: World, server: Fd, base: set<Fd>) {
    && server in base && server in w.handlers && w.handlers[server] == ServerHandler
    && (forall fd :: fd in w.handlers && w.handlers[fd] == ServerHandler ==> fd == server)
    && server in w.interest
    && w.interest.Keys <= w.handlers.Keys
  }

  /** What is known about a removed handler. */
  predicate RemovalOk(r: Removal) {
    && Counts(r.echo, r.lost)
    && (r.cause == ReadBranch ==> r.echo.received == 0 || r.echo.received == -1)
  }

  /** Everything but the counters and the arming of single clients. */
  ghost predicate Frame(w: World, server: Fd, base: set<Fd>) {
    && !w.fault
    && TableOk(w, server, base)
    && Owns(w, base)
    && |w.open| == |base| + 3 * |Clients(w)|
    && (forall r :: r in w.removals ==> RemovalOk(r))
  }

  ghost predicate ClientsOkBut(w: World, x: Fd) {
    forall fd :: w.IsClient(fd) && fd != x ==> ClientOk(w, fd, w.handlers[fd].echo)
  }

  ghost predicate Inv(w: World, server: Fd, base: set<Fd>) {
    && Frame(w, server, base)
    && (forall fd :: w.IsClient(fd) ==> ClientOk(w, fd, w.handlers[fd].echo))
  }

  lemma StartedOk(server: Fd, base: set<Fd>)
    requires server in base
    ensures Inv(Started(server, base), server, base)
  {
    assert Clients(Started(server, base)) == {};
  }

  // The parts of an event.

  /** A handler updates its counter and its pipe. */
  function SetEcho(w: World, fd: Fd, h: Echo, pipe: seq<Byte>): World {
    w.(handlers := w.handlers[fd := SpliceEchoHandler(h)], pipes := w.pipes[h.pipeOut := pipe])
  }

  lemma SetEchoKeepsFrame(w: World, fd: Fd, h: Echo, pipe: seq<Byte>, server: Fd, base: set<Fd>)
    requires Frame(w, server, base) && w.IsClient(fd)
    requires h.pipeOut == w.handlers[fd].echo.pipeOut && h.pipeIn == w.handlers[fd].echo.pipeIn
    ensures Frame(SetEcho(w, fd, h, pipe), server, base)
  {
    var w' := SetEcho(w, fd, h, pipe);
    assert Clients(w') == Clients(w);
    assert forall gd, x :: Holds(w', gd, x) ==> Holds(w, gd, x);
  }

  lemma SetEchoKeepsOthers(w: World, fd: Fd, h: Echo, pipe: seq<Byte>, base: set<Fd>)
    requires Owns(w, base) && w.IsClient(fd) && ClientsOkBut(w, fd)
    requires h.pipeOut == w.handlers[fd].echo.pipeOut && h.pipeIn == w.handlers[fd].echo.pipeIn
    ensures ClientsOkBut(SetEcho(w, fd, h, pipe), fd)
  {
    forall gd | w.IsClient(gd) && gd != fd
      ensures ClientOk(SetEcho(w, fd, h, pipe), gd, w.handlers[gd].echo)
    {
      assert Holds(w, fd, h.pipeOut) && Holds(w, gd, w.handlers[gd].echo.pipeOut);
    }
  }

  lemma ModifyKeeps(w: World, fd: Fd, armed: Armed, server: Fd, base: set<Fd>)
    requires Frame(w, server, base) && ClientsOkBut(w, fd) && w.IsClient(fd)
    ensures Frame(ModifyHandler(w, fd, armed), server, base) && ClientsOkBut(ModifyHandler(w, fd, armed), fd)
  {
    var w' := ModifyHandler(w, fd, armed);
    assert Clients(w') == Clients(w);
    assert forall gd, x :: Holds(w', gd, x) ==> Holds(w, gd, x);
  }

  lemma RemoveClosesThree(w: World, fd: Fd, h: Echo, cause: Cause, base: set<Fd>)
    requires Owns(w, base) && w.IsClient(fd) && h == w.handlers[fd].echo
    ensures |RemoveHandler(w, fd, h, cause).open| == |w.open| - 3
    ensures Clients(RemoveHandler(w, fd, h, cause)) == Clients(w) - {fd}
  {
    assert Holds(w, fd, fd) && Holds(w, fd, h.pipeOut) && Holds(w, fd, h.pipeIn);
    assert {h.pipeOut, h.pipeIn, fd} <= w.open && |{h.pipeOut, h.pipeIn, fd}| == 3;
  }

  lemma RemoveKeepsOwns(w: World, fd: Fd, h: Echo, cause: Cause, base: set<Fd>)
    requires Owns(w, base) && w.IsClient(fd) && h == w.handlers[fd].echo
    ensures Owns(RemoveHandler(w, fd, h, cause), base)
  {
    var w' := RemoveHandler(w, fd, h, cause);
    assert Holds(w, fd, fd) && Holds(w, fd, h.pipeOut) && Holds(w, fd, h.pipeIn);
    assert forall gd, x :: Holds(w', gd, x) ==> Holds(w, gd, x) && gd != fd;
  }

  lemma RemoveKeepsOthers(w: World, fd: Fd, h: Echo, cause: Cause, base: set<Fd>)
    requires Owns(w, base) && w.IsClient(fd) && h == w.handlers[fd].echo && ClientsOkBut(w, fd)
    ensures forall gd :: RemoveHandler(w, fd, h, cause).IsClient(gd) ==>
              ClientOk(RemoveHandler(w, fd, h, cause), gd, RemoveHandler(w, fd, h, cause).handlers[gd].echo)
  {
    forall gd | w.IsClient(gd) && gd != fd
      ensures ClientOk(RemoveHandler(w, fd, h, cause), gd, w.handlers[gd].echo)
    {
      assert Holds(w, fd, h.pipeOut) && Holds(w, gd, w.handlers[gd].echo.pipeOut);
    }
  }

  lemma RemoveKeepsInv(w: World, fd: Fd, h: Echo, cause: Cause, server: Fd, base: set<Fd>)
    requires Frame(w, server, base) && ClientsOkBut(w, fd)
    requires w.IsClient(fd) && h == w.handlers[fd].echo && RemovalOk(Removal(h, cause, w.Pipe(h)))
    ensures Inv(RemoveHandler(w, fd, h, cause), server, base)
  {
    RemoveClosesThree(w, fd, h, cause, base);
    RemoveKeepsOwns(w, fd, h, cause, base);
    RemoveKeepsOthers(w, fd, h, cause, base);
  }

  // Events of an echo handler.

  lemma WriteCounts(h: Echo, pipe: seq<Byte>, written: int)
    requires Counts(h, pipe) && (written == -1 || 0 <= written <= |pipe|)
    ensures Counts(AfterWrite(h, pipe, written), if 0 <= written then pipe[written..] else pipe)
  {
    if 0 <= written {
      assert pipe == pipe[..written] + pipe[written..];
    }
  }

  lemma WriteBranchKeepsInv(w: World, fd: Fd, h: Echo, written: int, server: Fd, base: set<Fd>)
    requires Inv(w, server, base) && w.IsClient(fd) && h == w.handlers[fd].echo
    requires written == -1 || (0 <= written <= h.received && written <= |w.Pipe(h)|)
    ensures Inv(WriteBranch(w, fd, h, written), server, base)
  {
    var pipe := w.Pipe(h);
    var left := if 0 <= written then pipe[written..] else pipe;
    var h' := AfterWrite(h, pipe, written);
    WriteCounts(h, pipe, written);
    SetEchoKeepsFrame(w, fd, h', left, server, base);
    SetEchoKeepsOthers(w, fd, h', left, base);
    ModifyKeeps(SetEcho(w, fd, h', left), fd, Armed(true, false), server, base);
  }

  lemma ReadCounts(h: Echo, pipe: seq<Byte>, got: Got)
    requires Counts(h, pipe) && h.received >= 0
    ensures Counts(AfterRead(h, got), pipe + Bytes(got))
    ensures AfterRead(h, got).received >= -1
  {
    assert pipe + [] == pipe;
  }

  lemma ReadBranchKeepsInv(w: World, fd: Fd, h: Echo, got: Got, server: Fd, base: set<Fd>)
    requires Inv(w, server, base) && w.IsClient(fd) && h == w.handlers[fd].echo
    ensures Inv(ReadBranchOf(w, fd, h, got), server, base)
  {
    var pipe := w.Pipe(h) + Bytes(got);
    var h' := AfterRead(h, got);
    ReadCounts(h, w.Pipe(h), got);
    SetEchoKeepsFrame(w, fd, h', pipe, server, base);
    SetEchoKeepsOthers(w, fd, h', pipe, base);
    var w' := SetEcho(w, fd, h', pipe);
    if h'.received <= 0 {
      RemoveKeepsInv(w', fd, h', ReadBranch, server, base);
    } else {
      ModifyKeeps(w', fd, Armed(false, true), server, base);
    }
  }

  lemma ServeKeepsInv(w: World, e: Event, a: Answer, server: Fd, base: set<Fd>)
    requires Inv(w, server, base) && w.IsClient(e.fd) && Permits(w, e, a)
    ensures Inv(Serve(w, e, w.handlers[e.fd].echo, a), server, base)
  {
    var h := w.handlers[e.fd].echo;
    if e.hangUp {
      RemoveKeepsInv(w, e.fd, h, HangUp, server, base);
    } else if e.error {
      RemoveKeepsInv(w, e.fd, h, SocketError, server, base);
    } else {
      var w1 := if e.writable then WriteBranch(w, e.fd, h, a.written) else w;
      if e.writable {
        WriteBranchKeepsInv(w, e.fd, h, a.written, server, base);
      }
      if e.readable {
        ReadBranchKeepsInv(w1, e.fd, w1.handlers[e.fd].echo, a.got, server, base);
      }
    }
  }

  // Events of the server handler.

  lemma ConnectKeepsOwns(w: World, w': World, a: Answer, base: set<Fd>)
    requires Owns(w, base) && a.Connect? && w.handlers.Keys <= w.open
    requires a.client != a.pipeOut && a.client != a.pipeIn && a.pipeOut != a.pipeIn
    requires a.client !in w.open && a.pipeOut !in w.open && a.pipeIn !in w.open
    requires w'.open == w.open + {a.client, a.pipeOut, a.pipeIn}
    requires w'.handlers == w.handlers[a.client := SpliceEchoHandler(Echo(0, a.pipeOut, a.pipeIn, [], [], 0, 0))]
    ensures Owns(w', base)
  {
    assert forall fd, x :: Holds(w', fd, x) && fd != a.client ==> Holds(w, fd, x);
    assert forall x :: Holds(w', a.client, x) ==> x in {a.client, a.pipeOut, a.pipeIn};
  }

  lemma ConnectKeepsOthers(w: World, w': World, a: Answer, base: set<Fd>)
    requires Owns(w, base) && a.Connect? && a.client !in w.handlers && a.client !in w.interest && a.pipeOut !in w.open
    requires w'.handlers == w.handlers[a.client := SpliceEchoHandler(Echo(0, a.pipeOut, a.pipeIn, [], [], 0, 0))]
    requires w'.pipes == w.pipes[a.pipeOut := []]
    requires w'.interest == w.interest || w'.interest == w.interest[a.client := Armed(true, true)]
    requires forall fd :: w.IsClient(fd) ==> ClientOk(w, fd, w.handlers[fd].echo)
    ensures forall fd :: w'.IsClient(fd) ==> ClientOk(w', fd, w'.handlers[fd].echo)
  {
    forall fd | w.IsClient(fd)
      ensures fd != a.client && ClientOk(w', fd, w.handlers[fd].echo)
    {
      assert Holds(w, fd, w.handlers[fd].echo.pipeOut);
    }
  }

  lemma KeysAreOpen(w: World, server: Fd, base: set<Fd>)
    requires TableOk(w, server, base) && Owns(w, base)
    ensures w.handlers.Keys <= w.open
  {
    forall fd | fd in w.handlers
      ensures fd in w.open
    {
      assert w.IsClient(fd) ==> Holds(w, fd, fd);
    }
  }

  lemma ThreeMore(open: set<Fd>, x: Fd, y: Fd, z: Fd)
    requires x !in open && y !in open && z !in open && x != y && x != z && y != z
    ensures |open + {x, y, z}| == |open| + 3
  {
    assert open + {x, y, z} == open + {x} + {y} + {z};
  }

  lemma OneMoreClient(w: World, w': World, fd: Fd, h: Echo)
    requires fd !in w.handlers && w'.handlers == w.handlers[fd := SpliceEchoHandler(h)]
    ensures |Clients(w')| == |Clients(w)| + 1
  {
    assert Clients(w') == Clients(w) + {fd};
  }

  lemma AcceptKeepsInv(w: World, a: Answer, server: Fd, base: set<Fd>)
    requires Inv(w, server, base) && Permits(w, Event(server, true, false, false, false), a)
    ensures Inv(Accept(w, server, a), server, base)
  {
    assert w.handlers[server := ServerHandler] == w.handlers;
    if a.Connect? {
      var w' := Accept(w, server, a);
      KeysAreOpen(w, server, base);
      ConnectKeepsOwns(w, w', a, base);
      ConnectKeepsOthers(w, w', a, base);
      ThreeMore(w.open, a.client, a.pipeOut, a.pipeIn);
      OneMoreClient(w, w', a.client, w'.handlers[a.client].echo);
    } else {
      assert Accept(w, server, a) == w;
    }
  }

  // Whole events, batches and runs.

  lemma DispatchKeepsInv(w: World, e: Event, a: Answer, server: Fd, base: set<Fd>)
    requires Inv(w, server, base) && e.fd in w.handlers && Permits(w, e, a)
    ensures Inv(Dispatch(w, e, a), server, base)
  {
    match w.handlers[e.fd]
    case ServerHandler => AcceptKeepsInv(w, a, server, base);
    case SpliceEchoHandler(_) => ServeKeepsInv(w, e, a, server, base);
  }

  /** The handler and the registration of `fd` are the same in both worlds. */
  predicate Same(w: World, w': World, fd: Fd) {
    && fd in w.handlers && fd in w'.handlers && w'.handlers[fd] == w.handlers[fd]
    && (fd in w'.interest <==> fd in w.interest)
    && (fd in w.interest ==> w'.interest[fd] == w.interest[fd])
  }

  lemma ServeKeepsOthers(w: World, e: Event, h: Echo, a: Answer, fd: Fd)
    requires a.Splices? && fd in w.handlers && fd != e.fd
    ensures Same(w, Serve(w, e, h, a), fd)
  {
    if !e.hangUp && !e.error && e.writable {
      assert Same(w, WriteBranch(w, e.fd, h, a.written), fd);
    }
  }

  /** Handling an event leaves the handler and the registration of every other descriptor alone. */
  lemma DispatchKeepsOthers(w: World, e: Event, a: Answer, server: Fd, base: set<Fd>, fd: Fd)
    requires Inv(w, server, base) && e.fd in w.handlers && Permits(w, e, a)
    requires fd in w.handlers && fd != e.fd
    ensures Same(w, Dispatch(w, e, a), fd)
  {
    match w.handlers[e.fd]
    case ServerHandler => KeysAreOpen(w, server, base);
    case SpliceEchoHandler(h) => ServeKeepsOthers(w, e, h, a, fd);
  }

  /** After the first event of a batch, the rest is a wait of its own with the same handlers. */
  lemma RestOfBatch(w: World, es: seq<Event>, a: Answer, server: Fd, base: set<Fd>)
    requires Inv(w, server, base) && es != [] && IsWait(w, es) && Permits(w, es[0], a)
    ensures var w' := Dispatch(w, es[0], a);
            && IsWait(w', es[1..])
            && forall i :: 1 <= i < |es| ==> Same(w, w', es[i].fd)
  {
    var w' := Dispatch(w, es[0], a);
    forall i | 1 <= i < |es|
      ensures Same(w, w', es[i].fd) && Reported(w', es[i])
    {
      assert Reported(w, es[i]) && es[i].fd != es[0].fd;
      DispatchKeepsOthers(w, es[0], a, server, base, es[i].fd);
    }
  }

  lemma {:induction false} BatchKeepsInv(w: World, es: seq<Event>, answers: seq<Answer>, server: Fd, base: set<Fd>)
    requires Inv(w, server, base) && IsWait(w, es) && IsBatch(w, es, answers)
    ensures Inv(DispatchAll(w, es, answers), server, base)
    decreases |es|
  {
    if es == [] {
    } else {
      var w' := Dispatch(w, es[0], answers[0]);
      DispatchKeepsInv(w, es[0], answers[0], server, base);
      RestOfBatch(w, es, answers[0], server, base);
      BatchKeepsInv(w', es[1..], answers[1..], server, base);
    }
  }

  lemma {:induction false} RunKeepsInv(w: World, rounds: seq<Round>, server: Fd, base: set<Fd>)
    requires Inv(w, server, base) && IsRun(w, rounds)
    ensures Inv(Exec(w, rounds), server, base)
    decreases |rounds|
  {
    if rounds == [] {
    } else {
      BatchKeepsInv(w, rounds[0].events, rounds[0].answers, server, base);
      RunKeepsInv(DispatchAll(w, rounds[0].events, rounds[0].answers), rounds[1..], server, base);
    }
  }
}
