/** What every step of the chat server keeps. */
module ChatInvariant {
  import opened Chat
  import opened MessageLog

  // The shape of a step.

  /** What a step adds to the log. */
  function Said(c: Server, step: Step): seq<Message>
    requires Enabled(c, step)
  {
    if step.Accept? then [] else
      var i, s := step.i, c.sessions[step.i];
      match step
      case Join(_) => [Message(i, s.addr, Joined(s.name))]
      case Publish(_) => [Message(i, s.addr, Line(s.name, s.phase.line))]
      case Leave(_) => [Message(i, s.addr, Parted(s.name))]
      case _ => []
  }

  lemma StepShape(c: Server, step: Step)
    requires Enabled(c, step)
    ensures Apply(c, step).log == c.log + Said(c, step)
    ensures |Apply(c, step).sessions| == |c.sessions| + (if step.Accept? then 1 else 0)
    ensures !step.Accept? ==> Apply(c, step).sessions[step.i] == Own(c, step)
    ensures !step.Accept? ==> forall j :: 0 <= j < |c.sessions| && j != step.i ==>
              Apply(c, step).sessions[j] ==
                if Said(c, step) != [] && Listening(Apply(c, step).peers, c.sessions[j], j)
                   && c.sessions[j].addr != c.sessions[step.i].addr
                then c.sessions[j].Push(Said(c, step)[0]) else c.sessions[j]
  {
    assert c.log + [] == c.log;
  }

  // What a session says.

  function LineMessages(i: nat, addr: Addr, name: string, lines: seq<string>): seq<Message> {
    if lines == [] then []
    else LineMessages(i, addr, name, lines[..|lines| - 1]) + [Message(i, addr, Line(name, lines[|lines| - 1]))]
  }

  /** The lines already broadcast: all that were read, except one still in hand. */
  function Published(s: Session): seq<string> {
    if s.phase.Publishing? && s.lines != [] then s.lines[..|s.lines| - 1] else s.lines
  }

  /** All that session `i` has said so far: the join notice, its lines in order, and the leave
      notice once it has left the table. */
  function Speech(s: Session, i: nat): seq<Message> {
    if s.phase.Unregistered() || s.phase.Registered? then []
    else
      [Message(i, s.addr, Joined(s.name))]
      + LineMessages(i, s.addr, s.name, Published(s))
      + (if s.phase.Left? then [Message(i, s.addr, Parted(s.name))] else [])
  }

  predicate Speaks(s: Session, i: nat, log: seq<Message>) {
    && Keep(log, By(i)) == Speech(s, i)
    && (s.phase.Publishing? ==> s.lines != [] && s.lines[|s.lines| - 1] == s.phase.line)
    && (s.phase.Unregistered() || s.phase.Registered? ==> s.lines == [])
  }

  lemma SilentStepSpeaks(c: Server, step: Step)
    requires !step.Accept? && Enabled(c, step) && Speaks(c.sessions[step.i], step.i, c.log)
    requires !step.Join? && !step.Publish? && !step.Leave?
    ensures Speaks(Own(c, step), step.i, c.log)
  {
    var s, s' := c.sessions[step.i], Own(c, step);
    if step.GotLine? {
      assert s'.lines[..|s'.lines| - 1] == s.lines;
    }
  }

  lemma JoinSpeaks(s: Session, i: nat, log: seq<Message>, m: Message)
    requires s.phase.Registered? && Speaks(s, i, log) && m == Message(i, s.addr, Joined(s.name))
    ensures Speaks(s.(phase := Chatting), i, log + [m])
  {
    KeepLast(log, m, By(i));
    var none := LineMessages(i, s.addr, s.name, []);
    assert none == [] && [m] + none + [] == [m] && [] + [m] == [m];
  }

  lemma PublishSpeaks(s: Session, i: nat, log: seq<Message>, m: Message)
    requires s.phase.Publishing? && Speaks(s, i, log) && m == Message(i, s.addr, Line(s.name, s.phase.line))
    ensures Speaks(s.(phase := Chatting), i, log + [m])
  {
    KeepLast(log, m, By(i));
    var said, all := LineMessages(i, s.addr, s.name, Published(s)), LineMessages(i, s.addr, s.name, s.lines);
    assert all == said + [m];
    var join := [Message(i, s.addr, Joined(s.name))];
    assert (join + said + []) + [m] == join + all + [];
  }

  lemma LeaveSpeaks(s: Session, i: nat, log: seq<Message>, m: Message, until: nat)
    requires s.phase.Leaving? && Speaks(s, i, log) && m == Message(i, s.addr, Parted(s.name))
    ensures Speaks(s.(phase := Left, until := until), i, log + [m])
  {
    KeepLast(log, m, By(i));
    var said := [Message(i, s.addr, Joined(s.name))] + LineMessages(i, s.addr, s.name, s.lines);
    assert (said + []) + [m] == said + [m];
  }

  lemma OwnStepSpeaks(c: Server, step: Step)
    requires !step.Accept? && Enabled(c, step) && Speaks(c.sessions[step.i], step.i, c.log)
    ensures Speaks(Own(c, step), step.i, c.log + Said(c, step))
  {
    var i, s, log := step.i, c.sessions[step.i], c.log;
    if step.Join? {
      JoinSpeaks(s, i, log, Said(c, step)[0]);
    } else if step.Publish? {
      PublishSpeaks(s, i, log, Said(c, step)[0]);
    } else if step.Leave? {
      LeaveSpeaks(s, i, log, Said(c, step)[0], |log|);
    } else {
      SilentStepSpeaks(c, step);
      assert c.log + [] == c.log;
    }
  }

  lemma OtherStepSpeaks(s: Session, j: nat, log: seq<Message>, m: Message)
    requires Speaks(s, j, log) && m.sid != j
    ensures Speaks(s, j, log + [m]) && Speaks(s.Push(m), j, log + [m])
  {
    KeepLast(log, m, By(j));
  }

  /** A session says nothing before its registration. */
  predicate QuietBefore(s: Session, i: nat, log: seq<Message>) {
    s.phase.Unregistered() || (s.from <= |log| && Keep(log[..s.from], By(i)) == [])
  }

  lemma RegisterQuiet(s: Session, i: nat, log: seq<Message>)
    requires Speaks(s, i, log) && s.phase.Named?
    ensures QuietBefore(s.(phase := Registered, from := |log|), i, log)
  {
    assert log[..|log|] == log;
  }

  lemma StaysQuiet(s: Session, i: nat, log: seq<Message>, said: seq<Message>)
    requires QuietBefore(s, i, log)
    ensures QuietBefore(s, i, log + said)
  {
    if !s.phase.Unregistered() {
      assert (log + said)[..s.from] == log[..s.from];
    }
  }

  lemma OwnStepQuiet(c: Server, step: Step)
    requires !step.Accept? && Enabled(c, step)
    requires Speaks(c.sessions[step.i], step.i, c.log) && QuietBefore(c.sessions[step.i], step.i, c.log)
    ensures QuietBefore(Own(c, step), step.i, c.log + Said(c, step))
  {
    if step.Register? {
      RegisterQuiet(c.sessions[step.i], step.i, c.log);
    }
    StaysQuiet(Own(c, step), step.i, c.log, Said(c, step));
  }

  // What a session passes on.

  function InHand(s: Session): seq<Message> {
    if s.phase.Holding? then [s.phase.message] else []
  }

  predicate PassesOn(s: Session) {
    if s.phase.Left? || s.phase.Failed? then s.delivered <= s.enqueued
    else s.delivered + InHand(s) + s.queue == s.enqueued
  }

  lemma OwnStepPassesOn(c: Server, step: Step)
    requires !step.Accept? && Enabled(c, step) && PassesOn(c.sessions[step.i])
    ensures PassesOn(Own(c, step))
  {
    var s := c.sessions[step.i];
    if step.TakeOwn? {
      assert s.delivered + [] + s.queue == s.delivered + [s.queue[0]] + s.queue[1..];
    }
  }

  lemma PushPassesOn(s: Session, m: Message)
    requires PassesOn(s) && s.phase.Live()
    ensures PassesOn(s.Push(m))
  {
    assert s.delivered + InHand(s) + (s.queue + [m]) == (s.delivered + InHand(s) + s.queue) + [m];
  }

  // What holds of every run.

  /** Every entry of the table names a session with that address, which is active or has failed. */
  predicate EntriesOk(c: Server) {
    forall a :: a in c.peers ==>
      && c.peers[a] < |c.sessions|
      && c.sessions[c.peers[a]].addr == a
      && (c.sessions[c.peers[a]].phase.Active() || c.sessions[c.peers[a]].phase.Failed?)
  }

  predicate SendersKnown(c: Server) {
    forall k :: 0 <= k < |c.log| ==> c.log[k].sid < |c.sessions|
  }

  predicate SessionOk(s: Session, i: nat, log: seq<Message>) {
    Speaks(s, i, log) && QuietBefore(s, i, log) && PassesOn(s)
  }

  predicate Inv(c: Server) {
    EntriesOk(c) && SendersKnown(c) && forall i :: 0 <= i < |c.sessions| ==> SessionOk(c.sessions[i], i, c.log)
  }

  /** A session keeps its address and, unless it takes the step itself, its phase. */
  lemma StepKeepsIdentity(c: Server, step: Step, j: nat)
    requires Enabled(c, step) && j < |c.sessions|
    ensures j < |Apply(c, step).sessions|
    ensures Apply(c, step).sessions[j].addr == c.sessions[j].addr
    ensures step.Accept? || j != step.i ==> Apply(c, step).sessions[j].phase == c.sessions[j].phase
    ensures !step.Accept? && j == step.i ==> Apply(c, step).sessions[j].phase == Own(c, step).phase
    ensures Apply(c, step).sessions[j].phase.Live() ==> c.sessions[j].phase.Live()
    ensures Apply(c, step).sessions[j].phase.Active() && !c.sessions[j].phase.Active() ==> step == Register(j)
    ensures !Apply(c, step).sessions[j].phase.Active() && c.sessions[j].phase.Active() ==>
              step == Leave(j) || Apply(c, step).sessions[j].phase.Failed?
  {
    StepShape(c, step);
  }

  lemma StepPeers(c: Server, step: Step)
    requires Enabled(c, step)
    ensures Apply(c, step).peers ==
              (if step.Register? then c.peers[c.sessions[step.i].addr := step.i]
               else if step.Leave? then c.peers - {c.sessions[step.i].addr} else c.peers)
  {
  }

  lemma StepKeepsEntries(c: Server, step: Step)
    requires EntriesOk(c) && Enabled(c, step)
    ensures EntriesOk(Apply(c, step))
  {
    StepPeers(c, step);
    var c' := Apply(c, step);
    forall a | a in c'.peers
      ensures c'.peers[a] < |c'.sessions| && c'.sessions[c'.peers[a]].addr == a
      ensures c'.sessions[c'.peers[a]].phase.Active() || c'.sessions[c'.peers[a]].phase.Failed?
    {
      StepKeepsIdentity(c, step, c'.peers[a]);
    }
  }

  lemma OwnStepKeepsSession(c: Server, step: Step)
    requires !step.Accept? && Enabled(c, step) && SessionOk(c.sessions[step.i], step.i, c.log)
    ensures SessionOk(Own(c, step), step.i, c.log + Said(c, step))
  {
    OwnStepSpeaks(c, step);
    OwnStepQuiet(c, step);
    OwnStepPassesOn(c, step);
  }

  lemma OtherStepKeepsSession(s: Session, j: nat, log: seq<Message>, m: Message)
    requires SessionOk(s, j, log) && m.sid != j
    ensures SessionOk(s, j, log + [m])
    ensures s.phase.Live() ==> SessionOk(s.Push(m), j, log + [m])
  {
    OtherStepSpeaks(s, j, log, m);
    StaysQuiet(s, j, log, [m]);
    if s.phase.Live() {
      StaysQuiet(s.Push(m), j, log, [m]);
      PushPassesOn(s, m);
    }
  }

  lemma NewSessionOk(s: Session, j: nat, log: seq<Message>)
    requires s.phase.Prompting? && s.lines == [] && s.delivered == s.enqueued == s.queue == []
    requires forall k :: 0 <= k < |log| ==> log[k].sid < j
    ensures SessionOk(s, j, log)
  {
    KeepNothing(log, By(j));
  }

  lemma StepKeepsSession(c: Server, step: Step, j: nat)
    requires Inv(c) && Enabled(c, step) && j < |Apply(c, step).sessions|
    ensures SessionOk(Apply(c, step).sessions[j], j, Apply(c, step).log)
  {
    StepShape(c, step);
    var said := Said(c, step);
    if j == |c.sessions| {
      NewSessionOk(Apply(c, step).sessions[j], j, c.log);
    } else if !step.Accept? && j == step.i {
      OwnStepKeepsSession(c, step);
    } else if said == [] {
      assert SessionOk(c.sessions[j], j, c.log);
    } else {
      assert said == [said[0]];
      OtherStepKeepsSession(c.sessions[j], j, c.log, said[0]);
    }
    assert c.log + [] == c.log;
  }

  lemma StepKeepsInv(c: Server, step: Step)
    requires Inv(c) && Enabled(c, step)
    ensures Inv(Apply(c, step))
  {
    StepKeepsEntries(c, step);
    StepShape(c, step);
    forall j | 0 <= j < |Apply(c, step).sessions|
      ensures SessionOk(Apply(c, step).sessions[j], j, Apply(c, step).log)
    {
      StepKeepsSession(c, step, j);
    }
  }

  lemma {:induction false} RunKeepsInv(c: Server, steps: seq<Step>)
    requires Inv(c) && IsRun(c, steps)
    ensures Inv(Exec(c, steps))
    decreases |steps|
  {
    if steps == [] {
    } else {
      StepKeepsInv(c, steps[0]);
      RunKeepsInv(Apply(c, steps[0]), steps[1..]);
    }
  }

  // The table entries of one address.

  /** The active sessions with address `a` are in the table; so there is at most one. */
  predicate Listed(c: Server, a: Addr) {
    forall i :: 0 <= i < |c.sessions| && c.sessions[i].addr == a && c.sessions[i].phase.Active() ==>
      Listening(c.peers, c.sessions[i], i)
  }

  predicate Occupied(c: Server, a: Addr) {
    exists j :: 0 <= j < |c.sessions| && c.sessions[j].addr == a && c.sessions[j].phase.Active()
  }

  /** A session registers under the address of one that is still active. */
  predicate Clash(c: Server, step: Step, a: Addr) {
    step.Register? && step.i < |c.sessions| && c.sessions[step.i].addr == a && Occupied(c, a)
  }

  predicate HasClash(c: Server, steps: seq<Step>, a: Addr)
    requires IsRun(c, steps)
    decreases |steps|
  {
    steps != [] && (Clash(c, steps[0], a) || HasClash(Apply(c, steps[0]), steps[1..], a))
  }

  lemma StepKeepsListed(c: Server, step: Step, a: Addr)
    requires Listed(c, a) && Enabled(c, step) && !Clash(c, step, a)
    ensures Listed(Apply(c, step), a)
  {
    StepPeers(c, step);
    StepShape(c, step);
    var c' := Apply(c, step);
    forall i | 0 <= i < |c'.sessions| && c'.sessions[i].addr == a && c'.sessions[i].phase.Active()
      ensures Listening(c'.peers, c'.sessions[i], i)
    {
      if i < |c.sessions| {
        StepKeepsIdentity(c, step, i);
      }
    }
  }

  /** After a clash one of the two sessions is not in the table. */
  lemma ClashUnlists(c: Server, step: Step, a: Addr)
    requires Enabled(c, step) && Clash(c, step, a)
    ensures !Listed(Apply(c, step), a)
  {
    var j :| 0 <= j < |c.sessions| && c.sessions[j].addr == a && c.sessions[j].phase.Active();
    StepPeers(c, step);
    StepKeepsIdentity(c, step, j);
    assert !Listening(Apply(c, step).peers, Apply(c, step).sessions[j], j);
  }

  lemma {:induction false} RunKeepsListed(c: Server, steps: seq<Step>, a: Addr)
    requires Listed(c, a) && IsRun(c, steps) && !HasClash(c, steps, a)
    ensures Listed(Exec(c, steps), a)
    decreases |steps|
  {
    if steps == [] {
    } else {
      StepKeepsListed(c, steps[0], a);
      RunKeepsListed(Apply(c, steps[0]), steps[1..], a);
    }
  }

  // What a session hears.

  /** The part of the log that concerns a registered session ends with the log while the session is
      active, and where it stopped otherwise. */
  function EndOf(s: Session, log: seq<Message>): nat {
    if s.phase.Active() then |log| else s.until
  }

  /** A registered session has been sent the part of the log that concerns it, without its own messages,
      except for `n` of them. */
  predicate HearsBut(s: Session, i: nat, log: seq<Message>, n: nat) {
    if s.phase.Unregistered() then
      s.enqueued == [] && n == 0
    else
      && s.from <= EndOf(s, log) <= |log|
      && var all := Keep(log[s.from..EndOf(s, log)], NotBy(i));
         |s.enqueued| + n == |all| && (n == 0 ==> s.enqueued == all)
  }

  /** Another session speaks while `i` is active, and `i` is not sent it: the speaker has the same
      address, or `i` is not in the table. */
  predicate Misses(c: Server, step: Step, i: nat) {
    && (step.Join? || step.Publish? || step.Leave?) && step.i < |c.sessions| && step.i != i
    && i < |c.sessions| && c.sessions[i].phase.Active()
    && (c.sessions[step.i].addr == c.sessions[i].addr || !Listening(c.peers, c.sessions[i], i))
  }

  function CountMisses(c: Server, steps: seq<Step>, i: nat): nat
    requires IsRun(c, steps)
    decreases |steps|
  {
    if steps == [] then 0
    else (if Misses(c, steps[0], i) then 1 else 0) + CountMisses(Apply(c, steps[0]), steps[1..], i)
  }

  lemma SilentStepHears(c: Server, step: Step, n: nat)
    requires !step.Accept? && Enabled(c, step) && HearsBut(c.sessions[step.i], step.i, c.log, n)
    requires !step.Join? && !step.Publish? && !step.Leave?
    ensures HearsBut(Own(c, step), step.i, c.log, n)
  {
    assert c.log[|c.log|..|c.log|] == [];
  }

  /** A session does not hear its own message. */
  lemma HearsNotItself(s: Session, s': Session, i: nat, log: seq<Message>, m: Message, n: nat)
    requires HearsBut(s, i, log, n) && s.phase.Active() && m.sid == i
    requires s'.from == s.from && s'.enqueued == s.enqueued
    requires s'.phase.Active() || (s'.phase.Left? && s'.until == |log|)
    ensures HearsBut(s', i, log + [m], n)
  {
    SliceStays(log, m, s.from, |log|);
    if s'.phase.Active() {
      SliceGrows(log, m, s.from);
      KeepLast(log[s.from..|log|], m, NotBy(i));
    }
  }

  lemma OwnStepHears(c: Server, step: Step, n: nat)
    requires !step.Accept? && Enabled(c, step) && HearsBut(c.sessions[step.i], step.i, c.log, n)
    ensures HearsBut(Own(c, step), step.i, c.log + Said(c, step), n)
  {
    if step.Join? || step.Publish? || step.Leave? {
      HearsNotItself(c.sessions[step.i], Own(c, step), step.i, c.log, Said(c, step)[0], n);
    } else {
      assert c.log + Said(c, step) == c.log;
      SilentStepHears(c, step, n);
    }
  }

  /** A message of another session is heard or missed. */
  lemma OtherStepHears(s: Session, j: nat, log: seq<Message>, m: Message, pushed: bool, n: nat)
    requires HearsBut(s, j, log, n) && m.sid != j && (pushed ==> s.phase.Active())
    ensures HearsBut(if pushed then s.Push(m) else s, j, log + [m], if s.phase.Active() && !pushed then n + 1 else n)
  {
    if !s.phase.Unregistered() {
      if s.phase.Active() {
        SliceGrows(log, m, s.from);
        KeepLast(log[s.from..|log|], m, NotBy(j));
      } else {
        SliceStays(log, m, s.from, s.until);
      }
    }
  }

  /** Session `j` is sent what a step of another session says. */
  predicate Reaches(c: Server, step: Step, j: nat)
    requires Enabled(c, step) && !step.Accept? && j < |c.sessions|
  {
    Listening(Apply(c, step).peers, c.sessions[j], j) && c.sessions[j].addr != c.sessions[step.i].addr
  }

  lemma ReachesOrMisses(c: Server, step: Step, j: nat)
    requires EntriesOk(c) && Enabled(c, step) && !step.Accept? && j < |c.sessions| && j != step.i
    requires Said(c, step) != []
    ensures Reaches(c, step, j) ==> c.sessions[j].phase.Active()
    ensures Misses(c, step, j) <==> c.sessions[j].phase.Active() && !Reaches(c, step, j)
  {
    StepPeers(c, step);
  }

  lemma OtherSessionHears(c: Server, step: Step, j: nat, n: nat)
    requires EntriesOk(c) && Enabled(c, step) && !step.Accept? && j < |c.sessions| && j != step.i
    requires HearsBut(c.sessions[j], j, c.log, n)
    ensures HearsBut(Apply(c, step).sessions[j], j, Apply(c, step).log, if Misses(c, step, j) then n + 1 else n)
  {
    StepShape(c, step);
    if Said(c, step) == [] {
      assert c.log + [] == c.log;
    } else {
      ReachesOrMisses(c, step, j);
      OtherStepHears(c.sessions[j], j, c.log, Said(c, step)[0], Reaches(c, step, j), n);
    }
  }

  /** Session `i`, if there is one yet, has missed `n` messages. */
  predicate HasMissed(c: Server, i: nat, n: nat) {
    if i < |c.sessions| then HearsBut(c.sessions[i], i, c.log, n) else n == 0
  }

  lemma StepHears(c: Server, step: Step, i: nat, n: nat)
    requires EntriesOk(c) && Enabled(c, step) && HasMissed(c, i, n)
    ensures HasMissed(Apply(c, step), i, if Misses(c, step, i) then n + 1 else n)
  {
    StepShape(c, step);
    if step.Accept? {
      assert c.log + [] == c.log;
    } else if i == step.i {
      OwnStepHears(c, step, n);
    } else if i < |c.sessions| {
      OtherSessionHears(c, step, i, n);
    }
  }

  lemma {:induction false} RunHears(c: Server, steps: seq<Step>, i: nat, n: nat)
    requires EntriesOk(c) && IsRun(c, steps) && HasMissed(c, i, n)
    ensures HasMissed(Exec(c, steps), i, n + CountMisses(c, steps, i))
    decreases |steps|
  {
    if steps == [] {
    } else {
      StepHears(c, steps[0], i, n);
      StepKeepsEntries(c, steps[0]);
      RunHears(Apply(c, steps[0]), steps[1..], i, if Misses(c, steps[0], i) then n + 1 else n);
    }
  }

  lemma {:induction false} AddressStays(c: Server, steps: seq<Step>, j: nat)
    requires IsRun(c, steps) && j < |c.sessions|
    ensures j < |Exec(c, steps).sessions| && Exec(c, steps).sessions[j].addr == c.sessions[j].addr
    decreases |steps|
  {
    if steps == [] {
    } else {
      StepKeepsIdentity(c, steps[0], j);
      AddressStays(Apply(c, steps[0]), steps[1..], j);
    }
  }

  /** A session whose address is its own misses nothing. */
  lemma {:induction false} NoClashNoMiss(c: Server, steps: seq<Step>, i: nat)
    requires IsRun(c, steps) && i < |Exec(c, steps).sessions|
    requires Listed(c, Exec(c, steps).sessions[i].addr) && !HasClash(c, steps, Exec(c, steps).sessions[i].addr)
    ensures CountMisses(c, steps, i) == 0
    decreases |steps|
  {
    if steps == [] {
    } else {
      if i < |c.sessions| {
        AddressStays(c, steps, i);
      }
      StepKeepsListed(c, steps[0], Exec(c, steps).sessions[i].addr);
      NoClashNoMiss(Apply(c, steps[0]), steps[1..], i);
    }
  }
}
