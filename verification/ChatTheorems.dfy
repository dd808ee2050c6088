/** What the chat server guarantees over whole runs, for every interleaving of sessions. */
module ChatTheorems {
  import opened Chat
  import opened MessageLog
  import opened ChatInvariant

  lemma Reachable(steps: seq<Step>)
    requires IsRun(EMPTY, steps)
    ensures Inv(Exec(EMPTY, steps))
  {
    RunKeepsInv(EMPTY, steps);
  }

  // Total order.

  /** What the others have said while session `i` was registered, in the order of the lock. */
  function OthersSaid(c: Server, i: nat): seq<Message>
    requires i < |c.sessions| && c.sessions[i].from <= EndOf(c.sessions[i], c.log) <= |c.log|
  {
    Keep(c.log[c.sessions[i].from..EndOf(c.sessions[i], c.log)], NotBy(i))
  }

  /** There is one log, in the order of the lock, such that what was ever put into the channel of a
      session is the log since its registration (up to its end, if it has ended) without its own
      messages, if and only if it never missed one; and the number of missing ones is exact. */
  lemma TotalOrder(steps: seq<Step>, i: nat)
    requires IsRun(EMPTY, steps)
    requires var c := Exec(EMPTY, steps); i < |c.sessions| && !c.sessions[i].phase.Unregistered()
    ensures var c := Exec(EMPTY, steps);
            var s := c.sessions[i];
            && s.from <= EndOf(s, c.log) <= |c.log|
            && |s.enqueued| + CountMisses(EMPTY, steps, i) == |OthersSaid(c, i)|
            && (s.enqueued == OthersSaid(c, i) <==> CountMisses(EMPTY, steps, i) == 0)
  {
    RunHears(EMPTY, steps, i, 0);
  }

  /** A session misses nothing if no two sessions are ever active together under its address. */
  lemma OwnAddressMissesNothing(steps: seq<Step>, i: nat)
    requires IsRun(EMPTY, steps) && i < |Exec(EMPTY, steps).sessions|
    requires !HasClash(EMPTY, steps, Exec(EMPTY, steps).sessions[i].addr)
    ensures CountMisses(EMPTY, steps, i) == 0
  {
    NoClashNoMiss(EMPTY, steps, i);
  }

  /** A run in which session `i` has been registered and has missed nothing. */
  predicate Undisturbed(steps: seq<Step>, i: nat) {
    && IsRun(EMPTY, steps)
    && var c := Exec(EMPTY, steps);
       i < |c.sessions| && !c.sessions[i].phase.Unregistered() && CountMisses(EMPTY, steps, i) == 0
  }

  lemma KeepThree(a: seq<Message>, b: seq<Message>, c: seq<Message>, which: Choice)
    ensures Keep(a + b + c, which) == Keep(a, which) + Keep(b, which) + Keep(c, which)
  {
    KeepAppend(a + b, c, which);
    KeepAppend(a, b, which);
  }

  lemma SplitWindow(log: seq<Message>, from: nat, lo: nat, hi: nat, end: nat, which: Choice)
    requires from <= lo <= hi <= end <= |log|
    ensures Keep(log[from..end], which)
            == Keep(log[from..lo], which) + Keep(log[lo..hi], which) + Keep(log[hi..end], which)
  {
    assert log[from..end] == log[from..lo] + log[lo..hi] + log[hi..end];
    KeepThree(log[from..lo], log[lo..hi], log[hi..end], which);
  }

  /** While two sessions are registered together, each is sent the messages of all third parties
      as one uninterrupted stretch, and the two stretches agree once their own messages are left
      out: the same messages in the same order, without gaps or duplicates. */
  lemma SameOrder(steps: seq<Step>, i: nat, j: nat, lo: nat, hi: nat)
      returns (beforeI: seq<Message>, afterI: seq<Message>, beforeJ: seq<Message>, afterJ: seq<Message>)
    requires Undisturbed(steps, i) && Undisturbed(steps, j) && i != j
    requires var c := Exec(EMPTY, steps);
             && c.sessions[i].from <= lo && c.sessions[j].from <= lo <= hi
             && hi <= EndOf(c.sessions[i], c.log) && hi <= EndOf(c.sessions[j], c.log)
    ensures var c := Exec(EMPTY, steps);
            && hi <= |c.log|
            && var together := c.log[lo..hi];
            && c.sessions[i].enqueued == beforeI + Keep(together, NotBy(i)) + afterI
            && c.sessions[j].enqueued == beforeJ + Keep(together, NotBy(j)) + afterJ
            && Keep(Keep(together, NotBy(i)), NotBy(j)) == Keep(Keep(together, NotBy(j)), NotBy(i))
  {
    TotalOrder(steps, i);
    TotalOrder(steps, j);
    var c := Exec(EMPTY, steps);
    var s, t := c.sessions[i], c.sessions[j];
    SplitWindow(c.log, s.from, lo, hi, EndOf(s, c.log), NotBy(i));
    SplitWindow(c.log, t.from, lo, hi, EndOf(t, c.log), NotBy(j));
    KeepCommutes(c.log[lo..hi], NotBy(i), NotBy(j));
    beforeI, afterI := Keep(c.log[s.from..lo], NotBy(i)), Keep(c.log[hi..EndOf(s, c.log)], NotBy(i));
    beforeJ, afterJ := Keep(c.log[t.from..lo], NotBy(j)), Keep(c.log[hi..EndOf(t, c.log)], NotBy(j));
  }

  // Session shape.

  lemma {:induction false} LinesAreNotPartings(i: nat, addr: Addr, name: string, lines: seq<string>, m: Message)
    requires m in LineMessages(i, addr, name, lines)
    ensures m.text.Line?
  {
    if m in LineMessages(i, addr, name, lines[..|lines| - 1]) {
      LinesAreNotPartings(i, addr, name, lines[..|lines| - 1], m);
    }
  }

  lemma SpeechEndsWithParting(s: Session, i: nat)
    requires !s.phase.Unregistered()
    ensures (exists m :: m in Speech(s, i) && m.text.Parted?) <==> s.phase.Left?
  {
    if s.phase.Left? {
      assert Speech(s, i)[|Speech(s, i)| - 1] == Message(i, s.addr, Parted(s.name));
    } else if exists m :: m in Speech(s, i) && m.text.Parted? {
      var m :| m in Speech(s, i) && m.text.Parted?;
      LinesAreNotPartings(i, s.addr, s.name, Published(s), m);
    }
  }

  lemma NothingBefore(log: seq<Message>, from: nat, first: nat, i: nat)
    requires from <= first <= |log| && Keep(log[..first], By(i)) == []
    ensures Keep(log[..from], By(i)) == []
  {
    assert log[..first] == log[..from] + log[from..first];
    KeepAppend(log[..from], log[from..first], By(i));
  }

  lemma AllWithinWindow(log: seq<Message>, from: nat, end: nat, i: nat)
    requires from <= end <= |log| && Keep(log[..from], By(i)) == []
    requires forall k :: end <= k < |log| ==> log[k].sid != i
    ensures Keep(log[from..end], By(i)) == Keep(log, By(i))
  {
    var mid := Keep(log[from..end], By(i));
    assert log[0..|log|] == log && log[0..from] == log[..from];
    assert Keep(log[end..|log|], By(i)) == [] by {
      KeepNothing(log[end..|log|], By(i));
    }
    assert Keep(log, By(i)) == [] + mid + [] by {
      SplitWindow(log, 0, from, end, |log|, By(i));
    }
  }

  /** What `j` has been sent by `i`, if `j` was registered no later than `i` and stopped listening
      after the last message of `i`: the join notice, then the lines in the order in which they came
      from the socket, then the leave notice exactly when `i` ended by exhausting its stream. */
  lemma SessionShape(steps: seq<Step>, i: nat, j: nat)
    requires Undisturbed(steps, j) && i != j
    requires var c := Exec(EMPTY, steps);
             && i < |c.sessions| && !c.sessions[i].phase.Unregistered()
             && c.sessions[j].from <= c.sessions[i].from
             && forall k :: EndOf(c.sessions[j], c.log) <= k < |c.log| ==> c.log[k].sid != i
    ensures var c := Exec(EMPTY, steps);
            && Keep(c.sessions[j].enqueued, By(i)) == Speech(c.sessions[i], i)
            && ((exists m :: m in Keep(c.sessions[j].enqueued, By(i)) && m.text.Parted?) <==>
                  c.sessions[i].phase.Left?)
  {
    Reachable(steps);
    TotalOrder(steps, j);
    var c := Exec(EMPTY, steps);
    var s, t, log := c.sessions[i], c.sessions[j], c.log;
    assert SessionOk(s, i, log);
    NothingBefore(log, t.from, s.from, i);
    AllWithinWindow(log, t.from, EndOf(t, log), i);
    KeepOthersKeeps(log[t.from..EndOf(t, log)], i, j);
    SpeechEndsWithParting(s, i);
  }

  /** On the wire a line is the name, a colon and a blank, and the line itself unchanged; so two lines of
      one session read differently exactly when they are different.  The notices are the name followed by
      what it did. */
  lemma LinesSurviveRendering(name: string, line: string, other: string)
    ensures Render(Line(name, line))[..|name|] == name && Render(Line(name, line))[|name| + 2..] == line
    ensures Render(Line(name, line))[|name|..|name| + 2] == ": "
    ensures Render(Joined(name))[..|name|] == name && Render(Joined(name))[|name|..] == " has joined the chat"
    ensures Render(Parted(name))[..|name|] == name && Render(Parted(name))[|name|..] == " has left the chat"
    ensures Render(Line(name, line)) == Render(Line(name, other)) <==> line == other
  {
    assert Render(Line(name, line))[|name| + 2..] == line;
    assert Render(Line(name, other))[|name| + 2..] == other;
  }

  // Delivery.

  /** What the client has been sent after the prompt, plus a message in hand, plus what waits in the
      channel, is all that was put into the channel; once the session has ended the client has had a
      prefix of it. */
  lemma Delivery(steps: seq<Step>, i: nat)
    requires IsRun(EMPTY, steps) && i < |Exec(EMPTY, steps).sessions|
    ensures var s := Exec(EMPTY, steps).sessions[i];
            && (s.phase.Live() ==> s.delivered + InHand(s) + s.queue == s.enqueued)
            && (!s.phase.Live() ==> s.delivered <= s.enqueued)
  {
    Reachable(steps);
    var c := Exec(EMPTY, steps);
    assert SessionOk(c.sessions[i], i, c.log);
  }

  /** What a client has been sent is the beginning of what the others have said since it was
      registered, in the order of the lock. */
  lemma ClientSeesLogPrefix(steps: seq<Step>, i: nat)
    requires Undisturbed(steps, i)
    ensures var c := Exec(EMPTY, steps);
            var s := c.sessions[i];
            && s.from <= EndOf(s, c.log) <= |c.log|
            && s.delivered <= OthersSaid(c, i)
  {
    TotalOrder(steps, i);
    Delivery(steps, i);
  }

  // Membership.

  /** An entry of the table is under its session's address, and its session is between registration and
      removal or has ended by a failed send.  Conversely a session between registration and removal is
      in the table with its own channel, if no two sessions were ever active together under its
      address. */
  lemma Membership(steps: seq<Step>, i: nat)
    requires IsRun(EMPTY, steps) && i < |Exec(EMPTY, steps).sessions|
    ensures var c := Exec(EMPTY, steps);
            var s := c.sessions[i];
            && (forall a :: a in c.peers && c.peers[a] == i ==> a == s.addr && (s.phase.Active() || s.phase.Failed?))
            && (!HasClash(EMPTY, steps, s.addr) && s.phase.Active() ==> s.addr in c.peers && c.peers[s.addr] == i)
  {
    Reachable(steps);
    var a := Exec(EMPTY, steps).sessions[i].addr;
    if !HasClash(EMPTY, steps, a) {
      RunKeepsListed(EMPTY, steps, a);
    }
  }

  /** In every state of a run the active sessions with address `a` are in the table. */
  predicate AlwaysListed(c: Server, steps: seq<Step>, a: Addr)
    requires IsRun(c, steps)
    decreases |steps|
  {
    Listed(c, a) && (steps != [] ==> AlwaysListed(Apply(c, steps[0]), steps[1..], a))
  }

  lemma {:induction false} ListedIff(c: Server, steps: seq<Step>, a: Addr)
    requires IsRun(c, steps) && Listed(c, a)
    ensures AlwaysListed(c, steps, a) <==> !HasClash(c, steps, a)
    decreases |steps|
  {
    if steps == [] {
    } else if Clash(c, steps[0], a) {
      ClashUnlists(c, steps[0], a);
    } else {
      StepKeepsListed(c, steps[0], a);
      ListedIff(Apply(c, steps[0]), steps[1..], a);
    }
  }

  /** The condition is exact: under address `a` every active session is in the table throughout a run
      if and only if none registers while another one is still active. */
  lemma MembershipIff(steps: seq<Step>, a: Addr)
    requires IsRun(EMPTY, steps)
    ensures AlwaysListed(EMPTY, steps, a) <==> !HasClash(EMPTY, steps, a)
  {
    ListedIff(EMPTY, steps, a);
  }

  // Address reuse.

  /** No connection is accepted under the address of a session that has not returned yet. */
  predicate FreshAddresses(c: Server, steps: seq<Step>)
    requires IsRun(c, steps)
    decreases |steps|
  {
    steps != [] ==>
      && (steps[0].Accept? ==> forall s :: s in c.sessions && s.phase.Live() ==> s.addr != steps[0].addr)
      && FreshAddresses(Apply(c, steps[0]), steps[1..])
  }

  predicate AddressesDiffer(c: Server) {
    forall i, j :: 0 <= i < j < |c.sessions| && c.sessions[i].phase.Live() && c.sessions[j].phase.Live() ==>
      c.sessions[i].addr != c.sessions[j].addr
  }

  lemma StepKeepsAddressesDiffer(c: Server, step: Step)
    requires AddressesDiffer(c) && Enabled(c, step)
    requires step.Accept? ==> forall s :: s in c.sessions && s.phase.Live() ==> s.addr != step.addr
    ensures AddressesDiffer(Apply(c, step))
  {
    StepShape(c, step);
    forall j | 0 <= j < |c.sessions| {
      StepKeepsIdentity(c, step, j);
    }
  }

  lemma {:induction false} FreshNeverClash(c: Server, steps: seq<Step>, a: Addr)
    requires AddressesDiffer(c) && IsRun(c, steps) && FreshAddresses(c, steps)
    ensures !HasClash(c, steps, a)
    decreases |steps|
  {
    if steps == [] {
    } else {
      StepKeepsAddressesDiffer(c, steps[0]);
      FreshNeverClash(Apply(c, steps[0]), steps[1..], a);
    }
  }

  /** It is enough that clients do not reconnect under an address whose session has not returned. */
  lemma FreshAddressesSuffice(steps: seq<Step>, a: Addr)
    requires IsRun(EMPTY, steps) && FreshAddresses(EMPTY, steps)
    ensures !HasClash(EMPTY, steps, a)
  {
    FreshNeverClash(EMPTY, steps, a);
  }

  lemma OneStep(c: Server, step: Step, rest: seq<Step>)
    requires Enabled(c, step) && IsRun(Apply(c, step), rest)
    ensures IsRun(c, [step] + rest) && Exec(c, [step] + rest) == Exec(Apply(c, step), rest)
  {
    assert ([step] + rest)[1..] == rest;
  }

  /** A client with address `a` connects, gives an empty name and is registered. */
  lemma Enter(c: Server, a: Addr, rest: seq<Step>) returns (steps: seq<Step>, c': Server)
    ensures c'.peers == c.peers[a := |c.sessions|] && c'.log == c.log
    ensures c'.sessions == c.sessions + [Session(a, Registered, "", [], [], [], [], |c.log|, 0)]
    ensures IsRun(c', rest) ==> IsRun(c, steps) && Exec(c, steps) == Exec(c', rest)
  {
    var n := |c.sessions|;
    var c1 := Apply(c, Accept(a));
    var c2 := Apply(c1, PromptSent(n));
    var c3 := Apply(c2, GotName(n, ""));
    c' := Apply(c3, Register(n));
    var r3 := [Register(n)] + rest;
    var r2 := [GotName(n, "")] + r3;
    var r1 := [PromptSent(n)] + r2;
    steps := [Accept(a)] + r1;
    if IsRun(c', rest) {
      OneStep(c3, Register(n), rest);
      OneStep(c2, GotName(n, ""), r3);
      OneStep(c1, PromptSent(n), r2);
      OneStep(c, Accept(a), r1);
    }
  }

  /** The only client, whose stream has ended, leaves after its address has been taken again: its
      removal deletes the entry of its successor. */
  lemma LeaveEvicts(c: Server) returns (steps: seq<Step>)
    requires |c.sessions| == 1 && c.sessions[0].phase.Leaving?
    ensures IsRun(c, steps)
    ensures var end := Exec(c, steps);
            |end.sessions| == 2 && end.sessions[1].phase.Registered? && end.peers == c.peers - {c.sessions[0].addr}
  {
    var a, c1 := c.sessions[0].addr, c;
    steps, c1 := Enter(c, a, [Leave(0)] + []);
    assert c1.sessions[0] == c.sessions[0];
    StepShape(c1, Leave(0));
    StepPeers(c1, Leave(0));
    StepKeepsIdentity(c1, Leave(0), 1);
    OneStep(c1, Leave(0), []);
  }

  /** The condition is needed: a client whose stream has ended is still about to leave when its address
      connects and registers again; when it leaves, it takes the new session out of the table. */
  lemma ReuseEvictsSuccessor() returns (steps: seq<Step>)
    ensures IsRun(EMPTY, steps)
    ensures var c := Exec(EMPTY, steps);
            |c.sessions| == 2 && c.sessions[1].phase.Registered? && c.peers == map[]
  {
    var c1 := Server(map[0 := 0], [Session(0, Registered, "", [], [], [], [], 0, 0)], []);
    var c2 := Apply(c1, Join(0));
    var c3 := Apply(c2, EndOfStream(0));
    var more := LeaveEvicts(c3);
    var c;
    steps, c := Enter(EMPTY, 0, [Join(0)] + ([EndOfStream(0)] + more));
    assert c == c1;
    OneStep(c2, EndOfStream(0), more);
    OneStep(c1, Join(0), [EndOfStream(0)] + more);
  }

  // Endings.

  lemma EndedStays(c: Server, step: Step, i: nat)
    requires Enabled(c, step) && i < |c.sessions| && !c.sessions[i].phase.Live()
    ensures i < |Apply(c, step).sessions| && Apply(c, step).sessions[i] == c.sessions[i]
  {
    StepShape(c, step);
  }

  lemma {:induction false} EndedIsFinal(c: Server, steps: seq<Step>, i: nat)
    requires IsRun(c, steps) && i < |c.sessions| && !c.sessions[i].phase.Live()
    ensures i < |Exec(c, steps).sessions| && Exec(c, steps).sessions[i] == c.sessions[i]
    decreases |steps|
  {
    if steps == [] {
    } else {
      EndedStays(c, steps[0], i);
      EndedIsFinal(Apply(c, steps[0]), steps[1..], i);
    }
  }

  /** A session that leaves normally is sent nothing more, not even its own leave notice, and its
      address is free in the table. */
  lemma NothingAfterLeaving(pre: seq<Step>, i: nat, post: seq<Step>)
    requires IsRun(EMPTY, pre) && Enabled(Exec(EMPTY, pre), Leave(i))
    requires IsRun(Apply(Exec(EMPTY, pre), Leave(i)), post)
    ensures var c := Exec(EMPTY, pre);
            var c1 := Apply(c, Leave(i));
            var c2 := Exec(c1, post);
            && c.sessions[i].addr !in c1.peers
            && c1.log == c.log + [Message(i, c.sessions[i].addr, Parted(c.sessions[i].name))]
            && i < |c2.sessions| && c2.sessions[i].enqueued == c.sessions[i].enqueued
  {
    StepShape(Exec(EMPTY, pre), Leave(i));
    EndedIsFinal(Apply(Exec(EMPTY, pre), Leave(i)), post, i);
  }

  /** Some session with address `a` registers during `steps`, which end in `c`. */
  ghost predicate Reregistered(c: Server, steps: seq<Step>, a: Addr) {
    exists j: nat :: Register(j) in steps && j < |c.sessions| && c.sessions[j].addr == a
  }

  /** Session `i` has failed and the table still names it, and no session is active under its address. */
  predicate Stale(c: Server, i: nat) {
    && i < |c.sessions| && c.sessions[i].phase.Failed?
    && c.sessions[i].addr in c.peers && c.peers[c.sessions[i].addr] == i
    && !Occupied(c, c.sessions[i].addr)
  }

  lemma StaleStays(c: Server, step: Step, i: nat)
    requires Enabled(c, step) && Stale(c, i)
    ensures Stale(Apply(c, step), i) || (step.Register? && c.sessions[step.i].addr == c.sessions[i].addr)
  {
    var a, c' := c.sessions[i].addr, Apply(c, step);
    EndedStays(c, step, i);
    StepPeers(c, step);
    StepShape(c, step);
    if !(step.Register? && c.sessions[step.i].addr == a) {
      forall j | 0 <= j < |c'.sessions| && c'.sessions[j].addr == a
        ensures !c'.sessions[j].phase.Active()
      {
        if j < |c.sessions| {
          StepKeepsIdentity(c, step, j);
        }
      }
    }
  }

  lemma {:induction false} EntryStays(c: Server, steps: seq<Step>, i: nat)
    requires IsRun(c, steps) && Stale(c, i)
    ensures Stale(Exec(c, steps), i) || Reregistered(Exec(c, steps), steps, c.sessions[i].addr)
    decreases |steps|
  {
    if steps == [] {
    } else {
      var a, step, c1, end := c.sessions[i].addr, steps[0], Apply(c, steps[0]), Exec(c, steps);
      StaleStays(c, step, i);
      if Stale(c1, i) {
        EndedStays(c, step, i);
        EntryStays(c1, steps[1..], i);
        if Reregistered(end, steps[1..], a) {
          var j: nat :| Register(j) in steps[1..] && j < |end.sessions| && end.sessions[j].addr == a;
          assert Register(j) in steps;
        }
      } else {
        AddressStays(c, steps, step.i);
        assert Register(step.i) in steps;
      }
    }
  }

  /** A failed send leaves the entry of the session stale. */
  lemma FailureIsStale(c: Server, i: nat)
    requires Enabled(c, DeliverFails(i)) && Listed(c, c.sessions[i].addr)
    ensures Stale(Apply(c, DeliverFails(i)), i) && Apply(c, DeliverFails(i)).peers == c.peers
  {
    StepShape(c, DeliverFails(i));
    StepPeers(c, DeliverFails(i));
    assert Listening(c.peers, c.sessions[i], i);
  }

  /** A failed send to the client ends the session without a leave notice and with its entry still in
      the table; nothing more is put into its channel, and only a registration under the same address
      ever replaces the entry. */
  lemma FailedSendKeepsEntry(pre: seq<Step>, i: nat, post: seq<Step>)
    requires IsRun(EMPTY, pre) && Enabled(Exec(EMPTY, pre), DeliverFails(i))
    requires !HasClash(EMPTY, pre, Exec(EMPTY, pre).sessions[i].addr)
    requires IsRun(Apply(Exec(EMPTY, pre), DeliverFails(i)), post)
    ensures var c := Exec(EMPTY, pre);
            var c1 := Apply(c, DeliverFails(i));
            var c2 := Exec(c1, post);
            var a := c.sessions[i].addr;
            && c1.peers == c.peers && a in c1.peers && c1.peers[a] == i && c1.log == c.log
            && i < |c2.sessions| && c2.sessions[i].enqueued == c.sessions[i].enqueued
            && Keep(c2.log, By(i)) == Keep(c.log, By(i))
            && ((a in c2.peers && c2.peers[a] == i) || Reregistered(c2, post, a))
  {
    Reachable(pre);
    var c := Exec(EMPTY, pre);
    var c1 := Apply(c, DeliverFails(i));
    RunKeepsListed(EMPTY, pre, c.sessions[i].addr);
    FailureIsStale(c, i);
    assert c.log + [] == c.log;
    StepKeepsInv(c, DeliverFails(i));
    StepShape(c, DeliverFails(i));
    EndedIsFinal(c1, post, i);
    RunKeepsInv(c1, post);
    assert SessionOk(c1.sessions[i], i, c1.log);
    assert SessionOk(Exec(c1, post).sessions[i], i, Exec(c1, post).log);
    EntryStays(c1, post, i);
  }
}
