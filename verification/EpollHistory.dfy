/** What a splice echo handler holds, told from the kernel's answers alone. */
module EpollHistory {
  import opened Epoll
  import opened EpollInvariant
  import opened EpollTheorems

  datatype Handled = Handled(event: Event, answer: Answer)

  /** What the kernel has answered to one client since it was connected: the bytes its reads brought, how
      many its writes took, and how many splices returned -1. */
  datatype Account = Account(taken: seq<Byte>, written: nat, failedReads: nat, failedWrites: nat)

  const NEW := Account([], 0, 0, 0)

  function BookWrite(acc: Account, written: int): Account {
    if written < 0 then acc.(failedWrites := acc.failedWrites + 1) else acc.(written := acc.written + written)
  }

  function BookRead(acc: Account, got: Got): Account {
    if got.Fail? then acc.(failedReads := acc.failedReads + 1) else acc.(taken := acc.taken + got.data)
  }

  /** The account of descriptor `fd` after one more event; a connection opens a new one. */
  function Book(acc: Account, x: Handled, fd: Fd): Account {
    var e, a := x.event, x.answer;
    if a.Connect? && a.client == fd then NEW
    else if e.fd != fd || !a.Splices? || e.hangUp || e.error then acc
    else
      var out := if e.writable then BookWrite(acc, a.written) else acc;
      if e.readable then BookRead(out, a.got) else out
  }

  function AccountOf(history: seq<Handled>, fd: Fd): Account {
    if history == [] then NEW
    else Book(AccountOf(history[..|history| - 1], fd), history[|history| - 1], fd)
  }

  function Zip(es: seq<Event>, answers: seq<Answer>): seq<Handled> {
    if es == [] || answers == [] then [] else [Handled(es[0], answers[0])] + Zip(es[1..], answers[1..])
  }

  function HistoryOf(rounds: seq<Round>): seq<Handled> {
    if rounds == [] then [] else Zip(rounds[0].events, rounds[0].answers) + HistoryOf(rounds[1..])
  }

  predicate Matches(h: Echo, acc: Account) {
    && h.taken == acc.taken && |h.echoed| == acc.written
    && h.failedReads == acc.failedReads && h.failedWrites == acc.failedWrites
  }

  /** The removed handler had the account of the descriptor whose event came last in some part of the
      history. */
  ghost predicate RemovedWith(r: Removal, history: seq<Handled>) {
    exists k :: 0 < k <= |history| && Matches(r.echo, AccountOf(history[..k], history[k - 1].event.fd))
  }

  ghost predicate Booked(w: World, history: seq<Handled>) {
    && (forall fd :: w.IsClient(fd) ==> Matches(w.handlers[fd].echo, AccountOf(history, fd)))
    && (forall r :: r in w.removals ==> RemovedWith(r, history))
  }

  // One event.

  lemma AccountOfMore(history: seq<Handled>, x: Handled, fd: Fd)
    ensures AccountOf(history + [x], fd) == Book(AccountOf(history, fd), x, fd)
  {
    assert (history + [x])[..|history|] == history;
  }

  lemma ServeBooks(w: World, e: Event, a: Answer, acc: Account)
    requires w.IsClient(e.fd) && Permits(w, e, a)
    requires ClientOk(w, e.fd, w.handlers[e.fd].echo) && Matches(w.handlers[e.fd].echo, acc)
    ensures var w', acc' := Dispatch(w, e, a), Book(acc, Handled(e, a), e.fd);
            if e.fd in w'.handlers then
              w'.removals == w.removals && w'.IsClient(e.fd) && Matches(w'.handlers[e.fd].echo, acc')
            else
              exists r :: w'.removals == w.removals + [r] && Matches(r.echo, acc')
  {
    var h, w' := w.handlers[e.fd].echo, Dispatch(w, e, a);
    if e.hangUp {
      assert w'.removals == w.removals + [Removal(h, HangUp, w.Pipe(h))];
    } else if e.error {
      assert w'.removals == w.removals + [Removal(h, SocketError, w.Pipe(h))];
    } else {
      var h1 := AtRead(w, e, a);
      var w1 := if e.writable then WriteBranch(w, e.fd, h, a.written) else w;
      assert Matches(h1, if e.writable then BookWrite(acc, a.written) else acc);
      assert w1.removals == w.removals && w1.IsClient(e.fd) && w1.handlers[e.fd].echo == h1;
      if e.readable {
        var h2 := AfterRead(h1, a.got);
        assert Matches(h2, Book(acc, Handled(e, a), e.fd));
        if h2.received <= 0 {
          assert w'.removals == w.removals + [w'.removals[|w.removals|]];
          assert w'.removals[|w.removals|].echo == h2;
        }
      }
    }
  }

  lemma AcceptBooks(w: World, e: Event, a: Answer, history: seq<Handled>, server: Fd, base: set<Fd>, fd: Fd)
    requires Inv(w, server, base) && e.fd == server && Permits(w, e, a) && Booked(w, history)
    requires Dispatch(w, e, a).IsClient(fd)
    ensures Matches(Dispatch(w, e, a).handlers[fd].echo, AccountOf(history + [Handled(e, a)], fd))
  {
    AccountOfMore(history, Handled(e, a), fd);
    KeysAreOpen(w, server, base);
  }

  lemma ServeAddsNobody(w: World, e: Event, a: Answer, fd: Fd)
    requires w.IsClient(e.fd) && Permits(w, e, a) && fd != e.fd && fd in Dispatch(w, e, a).handlers
    ensures fd in w.handlers
  {
  }

  lemma OtherBooks(w: World, e: Event, a: Answer, history: seq<Handled>, server: Fd, base: set<Fd>, fd: Fd)
    requires Inv(w, server, base) && w.IsClient(e.fd) && Permits(w, e, a) && Booked(w, history)
    requires fd != e.fd && Dispatch(w, e, a).IsClient(fd)
    ensures Matches(Dispatch(w, e, a).handlers[fd].echo, AccountOf(history + [Handled(e, a)], fd))
  {
    AccountOfMore(history, Handled(e, a), fd);
    ServeAddsNobody(w, e, a, fd);
    DispatchKeepsOthers(w, e, a, server, base, fd);
  }

  /** A removal stays accounted for as the history grows. */
  lemma RemovedWithMore(r: Removal, history: seq<Handled>, x: Handled)
    requires RemovedWith(r, history)
    ensures RemovedWith(r, history + [x])
  {
    var k :| 0 < k <= |history| && Matches(r.echo, AccountOf(history[..k], history[k - 1].event.fd));
    assert (history + [x])[..k] == history[..k] && (history + [x])[k - 1] == history[k - 1];
  }

  lemma RemovedNow(r: Removal, history: seq<Handled>, x: Handled)
    requires Matches(r.echo, AccountOf(history + [x], x.event.fd))
    ensures RemovedWith(r, history + [x])
  {
    var more := history + [x];
    assert more[..|more|] == more && more[|more| - 1] == x;
  }

  lemma RemovalsBook(w: World, e: Event, a: Answer, history: seq<Handled>, server: Fd, base: set<Fd>, r: Removal)
    requires Inv(w, server, base) && e.fd in w.handlers && Permits(w, e, a) && Booked(w, history)
    requires r in Dispatch(w, e, a).removals
    ensures RemovedWith(r, history + [Handled(e, a)])
  {
    if r in w.removals {
      RemovedWithMore(r, history, Handled(e, a));
    } else {
      ServeBooks(w, e, a, AccountOf(history, e.fd));
      AccountOfMore(history, Handled(e, a), e.fd);
      RemovedNow(r, history, Handled(e, a));
    }
  }

  lemma DispatchBooks(w: World, e: Event, a: Answer, history: seq<Handled>, server: Fd, base: set<Fd>)
    requires Inv(w, server, base) && e.fd in w.handlers && Permits(w, e, a) && Booked(w, history)
    ensures Booked(Dispatch(w, e, a), history + [Handled(e, a)])
  {
    var w', more := Dispatch(w, e, a), history + [Handled(e, a)];
    forall fd | w'.IsClient(fd)
      ensures Matches(w'.handlers[fd].echo, AccountOf(more, fd))
    {
      if !w.IsClient(e.fd) {
        AcceptBooks(w, e, a, history, server, base, fd);
      } else if fd == e.fd {
        ServeBooks(w, e, a, AccountOf(history, fd));
        AccountOfMore(history, Handled(e, a), fd);
      } else {
        OtherBooks(w, e, a, history, server, base, fd);
      }
    }
    forall r | r in w'.removals
      ensures RemovedWith(r, more)
    {
      RemovalsBook(w, e, a, history, server, base, r);
    }
  }

  // Batches and runs.

  lemma FirstBooks(w: World, es: seq<Event>, answers: seq<Answer>, history: seq<Handled>, server: Fd, base: set<Fd>)
    requires Inv(w, server, base) && IsWait(w, es) && IsBatch(w, es, answers) && es != [] && Booked(w, history)
    ensures var w' := Dispatch(w, es[0], answers[0]);
            && Inv(w', server, base) && IsWait(w', es[1..]) && IsBatch(w', es[1..], answers[1..])
            && Booked(w', history + [Handled(es[0], answers[0])])
  {
    assert Reported(w, es[0]);
    DispatchBooks(w, es[0], answers[0], history, server, base);
    DispatchKeepsInv(w, es[0], answers[0], server, base);
    RestOfBatch(w, es, answers[0], server, base);
  }

  lemma {:induction false} BatchBooks(w: World, es: seq<Event>, answers: seq<Answer>, history: seq<Handled>,
                                      server: Fd, base: set<Fd>)
    requires Inv(w, server, base) && IsWait(w, es) && IsBatch(w, es, answers) && Booked(w, history)
    ensures Booked(DispatchAll(w, es, answers), history + Zip(es, answers))
    decreases |es|
  {
    if es == [] {
      assert history + Zip(es, answers) == history;
    } else {
      var x := [Handled(es[0], answers[0])];
      FirstBooks(w, es, answers, history, server, base);
      assert (history + x) + Zip(es[1..], answers[1..]) == history + Zip(es, answers);
      BatchBooks(Dispatch(w, es[0], answers[0]), es[1..], answers[1..], history + x, server, base);
    }
  }

  lemma {:induction false} RunBooks(w: World, rounds: seq<Round>, history: seq<Handled>, server: Fd, base: set<Fd>)
    requires Inv(w, server, base) && IsRun(w, rounds) && Booked(w, history)
    ensures Booked(Exec(w, rounds), history + HistoryOf(rounds))
    decreases |rounds|
  {
    if rounds == [] {
      assert history + HistoryOf(rounds) == history;
    } else {
      var es, answers := rounds[0].events, rounds[0].answers;
      BatchBooks(w, es, answers, history, server, base);
      BatchKeepsInv(w, es, answers, server, base);
      RunBooks(DispatchAll(w, es, answers), rounds[1..], history + Zip(es, answers), server, base);
      assert (history + Zip(es, answers)) + HistoryOf(rounds[1..]) == history + HistoryOf(rounds);
    }
  }

  /** Everything handled so far, when `k` events of a batch have followed some rounds. */
  function HistoryWithin(rounds: seq<Round>, es: seq<Event>, answers: seq<Answer>, k: nat): seq<Handled>
    requires k <= |es| == |answers|
  {
    HistoryOf(rounds) + Zip(es[..k], answers[..k])
  }

  lemma BookedAfter(server: Fd, base: set<Fd>, rounds: seq<Round>)
    requires server in base && IsRun(Started(server, base), rounds)
    ensures Booked(Exec(Started(server, base), rounds), HistoryOf(rounds))
  {
    StartedOk(server, base);
    RunBooks(Started(server, base), rounds, [], server, base);
    assert [] + HistoryOf(rounds) == HistoryOf(rounds);
  }

  lemma BookedWithin(w: World, server: Fd, base: set<Fd>, rounds: seq<Round>,
                     es: seq<Event>, answers: seq<Answer>, k: nat)
    requires Within(w, server, base, rounds, es, answers, k)
    ensures Booked(w, HistoryWithin(rounds, es, answers, k))
  {
    var w0 := Exec(Started(server, base), rounds);
    BookedAfter(server, base, rounds);
    Reachable(server, base, rounds);
    FirstEvents(w0, es, answers, k);
    BatchBooks(w0, es[..k], answers[..k], HistoryOf(rounds), server, base);
  }

  lemma SplitAt(all: seq<Byte>, first: seq<Byte>, second: seq<Byte>)
    requires all == first + second
    ensures first == all[..|first|] && second == all[|first|..]
  {
  }

  /** Between any two events of any run, a live handler has taken exactly the bytes its read splices
      brought since the connection was accepted, has echoed as many of them as its write splices took,
      has the others in its pipe, and its counter is that difference shifted by the failed splices. */
  lemma HandlerHoldsItsAccount(w: World, server: Fd, base: set<Fd>, rounds: seq<Round>,
                               es: seq<Event>, answers: seq<Answer>, k: nat, fd: Fd)
    requires Within(w, server, base, rounds, es, answers, k) && w.IsClient(fd)
    ensures var h, acc := w.handlers[fd].echo, AccountOf(HistoryWithin(rounds, es, answers, k), fd);
            && h.taken == acc.taken && acc.written <= |acc.taken|
            && h.echoed == acc.taken[..acc.written] && w.Pipe(h) == acc.taken[acc.written..]
            && h.received == |acc.taken| - acc.written + acc.failedWrites - acc.failedReads
            && h.failedReads == acc.failedReads && h.failedWrites == acc.failedWrites
  {
    ReachableWithin(w, server, base, rounds, es, answers, k);
    BookedWithin(w, server, base, rounds, es, answers, k);
    var h := w.handlers[fd].echo;
    SplitAt(h.taken, h.echoed, w.Pipe(h));
  }

  /** Every removed handler had taken and echoed what its account says at the event that removed it, and
      lost the rest. */
  lemma RemovedWithItsAccount(w: World, server: Fd, base: set<Fd>, rounds: seq<Round>,
                              es: seq<Event>, answers: seq<Answer>, k: nat, r: Removal) returns (n: nat)
    requires Within(w, server, base, rounds, es, answers, k) && r in w.removals
    ensures var history := HistoryWithin(rounds, es, answers, k);
            && 0 < n <= |history|
            && var acc := AccountOf(history[..n], history[n - 1].event.fd);
            && r.echo.taken == acc.taken && acc.written <= |acc.taken|
            && r.echo.echoed == acc.taken[..acc.written] && r.lost == acc.taken[acc.written..]
            && r.echo.received == |acc.taken| - acc.written + acc.failedWrites - acc.failedReads
  {
    ReachableWithin(w, server, base, rounds, es, answers, k);
    BookedWithin(w, server, base, rounds, es, answers, k);
    var history := HistoryWithin(rounds, es, answers, k);
    assert RemovalOk(r) && RemovedWith(r, history);
    n :| 0 < n <= |history| && Matches(r.echo, AccountOf(history[..n], history[n - 1].event.fd));
    SplitAt(r.echo.taken, r.echo.echoed, r.lost);
  }
}
