/** What the epoll loop guarantees over whole runs, whatever the kernel answers. */
module EpollTheorems {
  import opened Epoll
  import opened EpollInvariant

  lemma Reachable(server: Fd, base: set<Fd>, rounds: seq<Round>)
    requires server in base && IsRun(Started(server, base), rounds)
    ensures Inv(Exec(Started(server, base), rounds), server, base)
  {
    StartedOk(server, base);
    RunKeepsInv(Started(server, base), rounds, server, base);
  }

  // Dispatch.

  /** The first `k` events of a batch are a batch of their own. */
  lemma {:induction false} FirstEvents(w: World, es: seq<Event>, answers: seq<Answer>, k: nat)
    requires IsBatch(w, es, answers) && k <= |es|
    ensures IsBatch(w, es[..k], answers[..k])
    ensures DispatchAll(w, es[..k], answers[..k]) == Before(w, es, answers, k)
    decreases k
  {
    if k == 0 {
    } else {
      FirstEvents(Dispatch(w, es[0], answers[0]), es[1..], answers[1..], k - 1);
      assert es[..k][1..] == es[1..][..k - 1] && answers[..k][1..] == answers[1..][..k - 1];
    }
  }

  lemma BeforeKeepsInv(w: World, es: seq<Event>, answers: seq<Answer>, k: nat, server: Fd, base: set<Fd>)
    requires Inv(w, server, base) && IsWait(w, es) && IsBatch(w, es, answers) && k <= |es|
    ensures Inv(Before(w, es, answers, k), server, base)
  {
    FirstEvents(w, es, answers, k);
    BatchKeepsInv(w, es[..k], answers[..k], server, base);
  }

  lemma SameIsTransitive(w: World, w': World, w'': World, fd: Fd)
    requires Same(w, w', fd) && Same(w', w'', fd)
    ensures Same(w, w'', fd)
  {
  }

  lemma {:induction false} LaterEventsIntact(w: World, es: seq<Event>, answers: seq<Answer>, k: nat,
                                             server: Fd, base: set<Fd>)
    requires Inv(w, server, base) && IsWait(w, es) && IsBatch(w, es, answers) && k < |es|
    ensures Same(w, Before(w, es, answers, k), es[k].fd)
    decreases k
  {
    assert Reported(w, es[k]);
    if k == 0 {
    } else {
      var w' := Dispatch(w, es[0], answers[0]);
      assert Reported(w, es[0]);
      DispatchKeepsInv(w, es[0], answers[0], server, base);
      RestOfBatch(w, es, answers[0], server, base);
      LaterEventsIntact(w', es[1..], answers[1..], k - 1, server, base);
      assert es[1..][k - 1] == es[k];
      SameIsTransitive(w, w', Before(w, es, answers, k), es[k].fd);
    }
  }

  /** A state the loop can be in between two events: after some rounds and `k` events of another. */
  ghost predicate Within(w: World, server: Fd, base: set<Fd>, rounds: seq<Round>,
                         es: seq<Event>, answers: seq<Answer>, k: nat)
  {
    && server in base && IsRun(Started(server, base), rounds)
    && var w0 := Exec(Started(server, base), rounds);
       IsWait(w0, es) && IsBatch(w0, es, answers) && k <= |es| && w == Before(w0, es, answers, k)
  }

  lemma ReachableWithin(w: World, server: Fd, base: set<Fd>, rounds: seq<Round>,
                        es: seq<Event>, answers: seq<Answer>, k: nat)
    requires Within(w, server, base, rounds, es, answers, k)
    ensures Inv(w, server, base)
  {
    Reachable(server, base, rounds);
    BeforeKeepsInv(Exec(Started(server, base), rounds), es, answers, k, server, base);
  }

  /** In every reachable state the interest set lies within the handler table.  While a batch is
      handled, every event finds the very handler that was registered when the wait returned, although
      earlier events of the batch may have deleted their handlers and reused descriptor numbers. */
  lemma DispatchSafety(server: Fd, base: set<Fd>, rounds: seq<Round>, es: seq<Event>, answers: seq<Answer>, k: nat)
    requires server in base && IsRun(Started(server, base), rounds)
    requires var w := Exec(Started(server, base), rounds); IsWait(w, es) && IsBatch(w, es, answers) && k < |es|
    ensures var w := Exec(Started(server, base), rounds);
            var w' := Before(w, es, answers, k);
            && w.interest.Keys <= w.handlers.Keys
            && !w'.fault && w'.interest.Keys <= w'.handlers.Keys
            && es[k].fd in w.handlers && es[k].fd in w'.handlers
            && w'.handlers[es[k].fd] == w.handlers[es[k].fd]
  {
    Reachable(server, base, rounds);
    BeforeKeepsInv(Exec(Started(server, base), rounds), es, answers, k, server, base);
    LaterEventsIntact(Exec(Started(server, base), rounds), es, answers, k, server, base);
  }

  // Descriptors.

  /** Between any two events the process holds its base descriptors and three for every client
      handler; the three are different, open, and shared with nobody. */
  lemma DescriptorConservation(w: World, server: Fd, base: set<Fd>, rounds: seq<Round>,
                               es: seq<Event>, answers: seq<Answer>, k: nat)
    requires Within(w, server, base, rounds, es, answers, k)
    ensures |w.open| == |base| + 3 * |Clients(w)|
    ensures forall fd :: w.IsClient(fd) ==>
              var h := w.handlers[fd].echo;
              && |{fd, h.pipeOut, h.pipeIn}| == 3
              && {fd, h.pipeOut, h.pipeIn} <= w.open && {fd, h.pipeOut, h.pipeIn} !! base
    ensures forall fd, gd, x :: Holds(w, fd, x) && Holds(w, gd, x) ==> fd == gd
  {
    ReachableWithin(w, server, base, rounds, es, answers, k);
    forall fd | w.IsClient(fd)
      ensures var h := w.handlers[fd].echo;
              && |{fd, h.pipeOut, h.pipeIn}| == 3
              && {fd, h.pipeOut, h.pipeIn} <= w.open && {fd, h.pipeOut, h.pipeIn} !! base
    {
      var h := w.handlers[fd].echo;
      assert Holds(w, fd, fd) && Holds(w, fd, h.pipeOut) && Holds(w, fd, h.pipeIn);
    }
  }

  // The counter.

  /** For every live echo handler, between any two events, the counter is what is in its pipe, plus one
      for every failed write splice and minus one for every failed read splice, and never negative; and
      a registered handler waits for something, for room to write only with a positive counter. */
  lemma CounterAgainstPipe(w: World, server: Fd, base: set<Fd>, rounds: seq<Round>,
                           es: seq<Event>, answers: seq<Answer>, k: nat, fd: Fd)
    requires Within(w, server, base, rounds, es, answers, k) && w.IsClient(fd)
    ensures var h := w.handlers[fd].echo;
            && h.received == |w.Pipe(h)| + h.failedWrites - h.failedReads
            && h.received >= 0
            && h.taken == h.echoed + w.Pipe(h)
            && ArmedWell(w, fd, h)
  {
    ReachableWithin(w, server, base, rounds, es, answers, k);
  }

  /** An event that reads or writes leaves a surviving handler with exactly one direction armed. */
  lemma OneDirectionArmed(w: World, e: Event, a: Answer, server: Fd, base: set<Fd>)
    requires Inv(w, server, base) && Reported(w, e) && w.IsClient(e.fd) && Permits(w, e, a)
    requires e.readable || e.writable
    ensures var w' := Dispatch(w, e, a);
            w'.IsClient(e.fd) ==>
              && e.fd in w'.interest
              && w'.interest[e.fd] == (if e.readable then Armed(false, true) else Armed(true, false))
              && (e.readable ==> w'.handlers[e.fd].echo.received > 0)
  {
  }

  // The echo.

  /** Splitting a stream: nothing is left exactly when the first part is the whole. */
  lemma NothingLeft(taken: seq<Byte>, echoed: seq<Byte>, lost: seq<Byte>)
    requires taken == echoed + lost
    ensures echoed == taken <==> lost == []
  {
    assert |taken| == |echoed| + |lost|;
    assert lost == [] ==> echoed + lost == echoed;
  }

  /** A handler removed by the read branch has lost exactly as many bytes as its failed reads exceed
      its failed writes, less one if the counter went negative; so it has echoed all that it read if
      and only if the failures balance, and in particular if no splice failed. */
  lemma CompleteEcho(server: Fd, base: set<Fd>, rounds: seq<Round>, r: Removal)
    requires server in base && IsRun(Started(server, base), rounds)
    requires r in Exec(Started(server, base), rounds).removals && r.cause == ReadBranch
    ensures r.echo.taken == r.echo.echoed + r.lost
    ensures r.echo.received == 0 || r.echo.received == -1
    ensures |r.lost| == r.echo.failedReads - r.echo.failedWrites + r.echo.received
    ensures r.echo.echoed == r.echo.taken <==> r.echo.failedReads - r.echo.failedWrites == -r.echo.received
    ensures r.echo.failedReads == 0 && r.echo.failedWrites == 0 ==> r.echo.echoed == r.echo.taken
  {
    Reachable(server, base, rounds);
    assert RemovalOk(r);
    NothingLeft(r.echo.taken, r.echo.echoed, r.lost);
  }

  /** The handler as the read branch of an event finds it. */
  function AtRead(w: World, e: Event, a: Answer): Echo
    requires w.IsClient(e.fd) && a.Splices?
  {
    var h := w.handlers[e.fd].echo;
    if e.writable then AfterWrite(h, w.Pipe(h), a.written) else h
  }

  /** A read that will lose bytes, told from the counters before it: nothing is counted, nothing
      comes, and reads have failed more often than writes; or one byte is counted, the read fails, and
      reads have failed at least as often as writes. */
  predicate ReadLoses(h: Echo, got: Got) {
    || (h.received == 0 && (got == Fail || got.data == []) && h.failedReads > h.failedWrites)
    || (h.received == 1 && got == Fail && h.failedReads >= h.failedWrites)
  }

  predicate Loses(w: World, e: Event, a: Answer) {
    w.IsClient(e.fd) && a.Splices? && e.readable && !e.hangUp && !e.error && ReadLoses(AtRead(w, e, a), a.got)
  }

  predicate BatchLoses(w: World, es: seq<Event>, answers: seq<Answer>)
    requires IsBatch(w, es, answers)
    decreases |es|
  {
    es != [] && (Loses(w, es[0], answers[0]) || BatchLoses(Dispatch(w, es[0], answers[0]), es[1..], answers[1..]))
  }

  predicate RunLoses(w: World, rounds: seq<Round>)
    requires IsRun(w, rounds)
    decreases |rounds|
  {
    rounds != [] &&
      (BatchLoses(w, rounds[0].events, rounds[0].answers)
       || RunLoses(DispatchAll(w, rounds[0].events, rounds[0].answers), rounds[1..]))
  }

  /** Every handler the read branch removed has echoed all that it read. */
  predicate AllEchoed(w: World) {
    forall r :: r in w.removals && r.cause == ReadBranch ==> r.echo.echoed == r.echo.taken
  }

  lemma ReadLosesIff(w: World, fd: Fd, h: Echo, got: Got)
    requires w.IsClient(fd) && h == w.handlers[fd].echo && ClientOk(w, fd, h)
    ensures AllEchoed(ReadBranchOf(w, fd, h, got)) <==> AllEchoed(w) && !ReadLoses(h, got)
  {
    var pipe := w.Pipe(h) + Bytes(got);
    var h' := AfterRead(h, got);
    var w' := ReadBranchOf(w, fd, h, got);
    ReadCounts(h, w.Pipe(h), got);
    if h'.received <= 0 {
      NothingLeft(h'.taken, h'.echoed, pipe);
      var r := Removal(h', ReadBranch, pipe);
      assert w'.removals == w.removals + [r];
      assert r in w'.removals && forall q :: q in w'.removals <==> q in w.removals || q == r;
    } else {
      assert w'.removals == w.removals;
    }
  }

  lemma EventLosesIff(w: World, e: Event, a: Answer, server: Fd, base: set<Fd>)
    requires Inv(w, server, base) && e.fd in w.handlers && Permits(w, e, a)
    ensures AllEchoed(Dispatch(w, e, a)) <==> AllEchoed(w) && !Loses(w, e, a)
  {
    if w.IsClient(e.fd) && !e.hangUp && !e.error {
      var h := w.handlers[e.fd].echo;
      var w1 := if e.writable then WriteBranch(w, e.fd, h, a.written) else w;
      if e.writable {
        WriteBranchKeepsInv(w, e.fd, h, a.written, server, base);
      }
      assert w1.removals == w.removals;
      if e.readable {
        ReadLosesIff(w1, e.fd, AtRead(w, e, a), a.got);
      }
    }
  }

  lemma {:induction false} BatchLosesIff(w: World, es: seq<Event>, answers: seq<Answer>, server: Fd, base: set<Fd>)
    requires Inv(w, server, base) && IsWait(w, es) && IsBatch(w, es, answers)
    ensures AllEchoed(DispatchAll(w, es, answers)) <==> AllEchoed(w) && !BatchLoses(w, es, answers)
    decreases |es|
  {
    if es == [] {
    } else {
      assert Reported(w, es[0]);
      EventLosesIff(w, es[0], answers[0], server, base);
      DispatchKeepsInv(w, es[0], answers[0], server, base);
      RestOfBatch(w, es, answers[0], server, base);
      BatchLosesIff(Dispatch(w, es[0], answers[0]), es[1..], answers[1..], server, base);
    }
  }

  lemma {:induction false} RunLosesIff(w: World, rounds: seq<Round>, server: Fd, base: set<Fd>)
    requires Inv(w, server, base) && IsRun(w, rounds)
    ensures AllEchoed(Exec(w, rounds)) <==> AllEchoed(w) && !RunLoses(w, rounds)
    decreases |rounds|
  {
    if rounds == [] {
    } else {
      BatchLosesIff(w, rounds[0].events, rounds[0].answers, server, base);
      BatchKeepsInv(w, rounds[0].events, rounds[0].answers, server, base);
      RunLosesIff(DispatchAll(w, rounds[0].events, rounds[0].answers), rounds[1..], server, base);
    }
  }

  /** A run echoes completely, for every handler its read branch removes, if and only if no read of it
      is made in a state that loses bytes. */
  lemma CompleteIffNoLossyRead(server: Fd, base: set<Fd>, rounds: seq<Round>)
    requires server in base && IsRun(Started(server, base), rounds)
    ensures AllEchoed(Exec(Started(server, base), rounds)) <==> !RunLoses(Started(server, base), rounds)
  {
    StartedOk(server, base);
    RunLosesIff(Started(server, base), rounds, server, base);
  }

  /** The read branch removes a handler exactly when the failed reads so far outweigh the failed writes
      and the bytes in the pipe.  In particular the end of input with bytes still in the pipe, and no
      failed splice, arms writing instead; and a handler with more failed writes than reads is never
      removed by it, even when its pipe is empty and its input has ended.  A surviving handler has all
      that was read in its pipe. */
  lemma ReadBranchRemovesIff(w: World, e: Event, a: Answer, server: Fd, base: set<Fd>)
    requires Inv(w, server, base) && Reported(w, e) && w.IsClient(e.fd) && Permits(w, e, a)
    requires e.readable && !e.writable && !e.hangUp && !e.error
    ensures var h := w.handlers[e.fd].echo;
            var data := if a.got == Fail then [] else a.got.data;
            var failed := h.failedReads + (if a.got == Fail then 1 else 0);
            var w' := Dispatch(w, e, a);
            && (e.fd !in w'.handlers <==> |w.Pipe(h)| + |data| + h.failedWrites <= failed)
            && (e.fd in w'.handlers ==>
                  && w'.IsClient(e.fd)
                  && var h' := w'.handlers[e.fd].echo;
                  && w'.Pipe(h') == w.Pipe(h) + data && h'.taken == h.taken + data && h'.echoed == h.echoed
                  && h'.received == (if a.got == Fail then h.received - 1 else h.received + |data|)
                  && h'.failedReads == failed && h'.failedWrites == h.failedWrites
                  && w'.interest[e.fd] == Armed(false, true))
            && (h.failedWrites > failed ==> e.fd in w'.handlers)
  {
    ReadCounts(w.handlers[e.fd].echo, w.Pipe(w.handlers[e.fd].echo), a.got);
  }

  /** An event removes a client handler exactly when it reports a hang-up or an error, whatever else it
      reports, or is a read after which nothing is counted any more. */
  lemma RemovedIff(w: World, e: Event, a: Answer, server: Fd, base: set<Fd>)
    requires Inv(w, server, base) && w.IsClient(e.fd) && Permits(w, e, a)
    ensures var counted := w.handlers[e.fd].echo.received
                           - (if e.writable then a.written else 0)
                           + (if a.got == Fail then -1 else |a.got.data|);
            e.fd !in Dispatch(w, e, a).handlers <==> e.hangUp || e.error || (e.readable && counted <= 0)
  {
  }

  /** A hang-up or an error takes a client out of the loop and closes its socket and its pipe, with what
      is left in it; nothing is read or written, and everything else stays as it was. */
  lemma HangUpRemoves(w: World, e: Event, a: Answer, server: Fd, base: set<Fd>)
    requires Inv(w, server, base) && w.IsClient(e.fd) && Permits(w, e, a) && (e.hangUp || e.error)
    ensures var h, w' := w.handlers[e.fd].echo, Dispatch(w, e, a);
            && w'.handlers == w.handlers - {e.fd} && w'.interest == w.interest - {e.fd}
            && w'.open == w.open - {e.fd, h.pipeOut, h.pipeIn} && w'.pipes == w.pipes - {h.pipeOut}
            && w'.removals == w.removals + [Removal(h, if e.hangUp then HangUp else SocketError, w.Pipe(h))]
            && !w'.fault
  {
    assert w.open - {e.fd, w.handlers[e.fd].echo.pipeOut, w.handlers[e.fd].echo.pipeIn}
        == w.open - {w.handlers[e.fd].echo.pipeOut, w.handlers[e.fd].echo.pipeIn, e.fd};
  }

  /** An event of the server socket adds one client, armed for both directions and with an empty pipe, or
      changes nothing. */
  lemma AcceptAddsClient(w: World, e: Event, a: Answer, server: Fd, base: set<Fd>)
    requires Inv(w, server, base) && e.fd == server && Permits(w, e, a)
    ensures var w' := Dispatch(w, e, a);
            && (a.Refuse? ==> w' == w)
            && (a.Connect? ==>
                  && w'.handlers.Keys == w.handlers.Keys + {a.client} && w'.IsClient(a.client)
                  && (forall fd :: fd in w.handlers ==> w'.handlers[fd] == w.handlers[fd])
                  && var h := w'.handlers[a.client].echo;
                  && h.received == 0 && h.pipeOut == a.pipeOut && h.pipeIn == a.pipeIn && w'.Pipe(h) == []
                  && w'.open == w.open + {a.client, a.pipeOut, a.pipeIn}
                  && w'.interest == (if a.added then w.interest[a.client := Armed(true, true)] else w.interest)
                  && w'.removals == w.removals)
  {
    KeysAreOpen(w, server, base);
    assert w.handlers[server := ServerHandler] == w.handlers;
  }

  lemma OneEvent(w: World, e: Event, a: Answer, rest: seq<Round>)
    requires Reported(w, e) && Permits(w, e, a) && IsRun(Dispatch(w, e, a), rest)
    ensures IsRun(w, [Round([e], [a])] + rest)
    ensures Exec(w, [Round([e], [a])] + rest) == Exec(Dispatch(w, e, a), rest)
  {
    var w' := Dispatch(w, e, a);
    assert [e][1..] == [] && [a][1..] == [];
    assert IsBatch(w', [], []) && DispatchAll(w', [], []) == w';
    assert ([Round([e], [a])] + rest)[1..] == rest;
  }

  const CONNECT := Event(0, true, false, false, false)
  const READABLE := Event(1, true, false, false, false)
  const WRITABLE := Event(1, false, true, false, false)

  /** A client on descriptor 1 with nothing lost so far. */
  predicate Client(w: World, h: Echo, armed: Armed, pipe: seq<Byte>) {
    && 1 in w.handlers && w.handlers[1] == SpliceEchoHandler(h)
    && 1 in w.interest && w.interest[1] == armed
    && h.pipeOut in w.pipes && w.pipes[h.pipeOut] == pipe && w.removals == []
  }

  lemma TwoBytesRead(rest: seq<Round>) returns (rounds: seq<Round>, w: World)
    ensures Client(w, Echo(2, 2, 3, [1, 2], [], 0, 0), Armed(false, true), [1, 2])
    ensures IsRun(w, rest) ==> IsRun(Started(0, {0}), rounds) && Exec(Started(0, {0}), rounds) == Exec(w, rest)
  {
    var a1, a2 := Connect(1, 2, 3, true), Splices(0, Data([1, 2]));
    var w1 := Dispatch(Started(0, {0}), CONNECT, a1);
    assert Client(w1, Echo(0, 2, 3, [], [], 0, 0), Armed(true, true), []);
    w := Dispatch(w1, READABLE, a2);
    var most := [Round([READABLE], [a2])] + rest;
    rounds := [Round([CONNECT], [a1])] + most;
    if IsRun(w, rest) {
      OneEvent(w1, READABLE, a2, rest);
      OneEvent(Started(0, {0}), CONNECT, a1, most);
    }
  }

  lemma PartialWrite(rest: seq<Round>) returns (rounds: seq<Round>, w: World)
    ensures Client(w, Echo(1, 2, 3, [1, 2], [1], 0, 0), Armed(true, false), [2])
    ensures IsRun(w, rest) ==> IsRun(Started(0, {0}), rounds) && Exec(Started(0, {0}), rounds) == Exec(w, rest)
  {
    var a := Splices(1, Fail);
    var w2;
    rounds, w2 := TwoBytesRead([Round([WRITABLE], [a])] + rest);
    w := Dispatch(w2, WRITABLE, a);
    if IsRun(w, rest) {
      OneEvent(w2, WRITABLE, a, rest);
    }
  }

  /** Echo is not complete in general: a write that takes one of two bytes arms reading, and if the
      read that follows fails, the handler goes away with the other byte still in its pipe. */
  lemma FailedReadLosesByte() returns (rounds: seq<Round>, r: Removal)
    ensures IsRun(Started(0, {0}), rounds) && r in Exec(Started(0, {0}), rounds).removals
    ensures r.cause == ReadBranch && r.echo.taken == [1, 2] && r.echo.echoed == [1] && r.lost == [2]
  {
    var a := Splices(0, Fail);
    var w;
    rounds, w := PartialWrite([Round([READABLE], [a])] + []);
    r := Removal(Echo(0, 2, 3, [1, 2], [1], 1, 0), ReadBranch, [2]);
    assert [2] + [] == [2];
    assert Dispatch(w, READABLE, a).removals == [r];
    OneEvent(w, READABLE, a, []);
  }
}
