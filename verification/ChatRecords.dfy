/** What a chat session has become, told from the steps of the run alone. */
module ChatRecords {
  import opened Chat
  import opened MessageLog
  import opened ChatInvariant
  import opened ChatTheorems

  // What the steps of a run say.

  /** The addresses of the accepted connections, in order. */
  function Accepted(steps: seq<Step>): seq<Addr> {
    if steps == [] then []
    else
      var last := steps[|steps| - 1];
      Accepted(steps[..|steps| - 1]) + (if last.Accept? then [last.addr] else [])
  }

  /** The steps of one session: the names and the lines it has read from its client, and how often it has
      given up, registered, joined, published, delivered, failed, reached the end of its stream and left. */
  datatype Story = Story(
    names: seq<string>,
    lines: seq<string>,
    gaveUp: nat,
    registered: nat,
    joined: nat,
    published: nat,
    delivered: nat,
    failed: nat,
    ended: nat,
    left: nat)

  const BLANK := Story([], [], 0, 0, 0, 0, 0, 0, 0, 0)

  function Tell(st: Story, step: Step): Story {
    match step
    case GotName(_, name) => st.(names := st.names + [name])
    case GotLine(_, line) => st.(lines := st.lines + [line])
    case GiveUp(_) => st.(gaveUp := st.gaveUp + 1)
    case Register(_) => st.(registered := st.registered + 1)
    case Join(_) => st.(joined := st.joined + 1)
    case Publish(_) => st.(published := st.published + 1)
    case Deliver(_) => st.(delivered := st.delivered + 1)
    case DeliverFails(_) => st.(failed := st.failed + 1)
    case EndOfStream(_) => st.(ended := st.ended + 1)
    case Leave(_) => st.(left := st.left + 1)
    case _ => st
  }

  function StoryOf(steps: seq<Step>, i: nat): Story {
    if steps == [] then BLANK
    else
      var st, last := StoryOf(steps[..|steps| - 1], i), steps[|steps| - 1];
      if !last.Accept? && last.i == i then Tell(st, last) else st
  }

  lemma OneMore(steps: seq<Step>, step: Step, i: nat)
    ensures Accepted(steps + [step]) == Accepted(steps) + (if step.Accept? then [step.addr] else [])
    ensures StoryOf(steps + [step], i)
            == if !step.Accept? && step.i == i then Tell(StoryOf(steps, i), step) else StoryOf(steps, i)
  {
    assert (steps + [step])[..|steps|] == steps;
  }

  /** What a story tells has happened, and nothing else. */
  lemma {:induction false} StoryTellsEntry(steps: seq<Step>, i: nat)
    ensures StoryOf(steps, i).gaveUp > 0 <==> GiveUp(i) in steps
    ensures StoryOf(steps, i).registered > 0 <==> Register(i) in steps
  {
    if steps == [] {
    } else {
      StoryTellsEntry(steps[..|steps| - 1], i);
      assert steps == steps[..|steps| - 1] + [steps[|steps| - 1]];
    }
  }

  lemma {:induction false} StoryTellsEnd(steps: seq<Step>, i: nat)
    ensures StoryOf(steps, i).failed > 0 <==> DeliverFails(i) in steps
    ensures StoryOf(steps, i).ended > 0 <==> EndOfStream(i) in steps
    ensures StoryOf(steps, i).left > 0 <==> Leave(i) in steps
  {
    if steps == [] {
    } else {
      StoryTellsEnd(steps[..|steps| - 1], i);
      assert steps == steps[..|steps| - 1] + [steps[|steps| - 1]];
    }
  }

  // The records of a session agree with its story.

  predicate Agrees(s: Session, st: Story) {
    && st.gaveUp == (if s.phase.Refused? then 1 else 0)
    && st.registered == (if s.phase.Unregistered() then 0 else 1)
    && st.joined == (if s.phase.Unregistered() || s.phase.Registered? then 0 else 1)
    && st.published == |Published(s)|
    && st.delivered == |s.delivered|
    && st.failed == (if s.phase.Failed? then 1 else 0)
    && st.ended == (if s.phase.Leaving? || s.phase.Left? then 1 else 0)
    && st.left == (if s.phase.Left? then 1 else 0)
    && st.lines == s.lines && (s.phase.Publishing? ==> s.lines != [])
    && (s.phase.Refused? || st.names == (if s.phase.Prompting? || s.phase.AwaitingName? then [] else [s.name]))
  }

  predicate Recorded(c: Server, i: nat, steps: seq<Step>) {
    && |c.sessions| == |Accepted(steps)|
    && if i < |c.sessions| then
         c.sessions[i].addr == Accepted(steps)[i] && Agrees(c.sessions[i], StoryOf(steps, i))
       else
         StoryOf(steps, i) == BLANK
  }

  lemma OwnStepAgrees(c: Server, step: Step, st: Story)
    requires !step.Accept? && Enabled(c, step) && Agrees(c.sessions[step.i], st)
    ensures Agrees(Own(c, step), Tell(st, step))
  {
  }

  lemma PushAgrees(s: Session, m: Message, st: Story)
    requires Agrees(s, st)
    ensures Agrees(s.Push(m), st)
  {
  }

  lemma SessionAgrees(c: Server, step: Step, i: nat, st: Story)
    requires Enabled(c, step) && i < |c.sessions| && Agrees(c.sessions[i], st)
    ensures i < |Apply(c, step).sessions|
    ensures Agrees(Apply(c, step).sessions[i], if !step.Accept? && step.i == i then Tell(st, step) else st)
  {
    StepShape(c, step);
    if !step.Accept? {
      if step.i == i {
        OwnStepAgrees(c, step, st);
      } else if Said(c, step) != [] {
        PushAgrees(c.sessions[i], Said(c, step)[0], st);
      }
    }
  }

  lemma StepRecords(c: Server, steps: seq<Step>, step: Step, i: nat)
    requires Enabled(c, step) && Recorded(c, i, steps)
    ensures Recorded(Apply(c, step), i, steps + [step])
  {
    OneMore(steps, step, i);
    StepShape(c, step);
    if i < |c.sessions| {
      StepKeepsIdentity(c, step, i);
      SessionAgrees(c, step, i, StoryOf(steps, i));
    }
  }

  lemma {:induction false} RunRecords(c: Server, past: seq<Step>, steps: seq<Step>, i: nat)
    requires IsRun(c, steps) && Recorded(c, i, past)
    ensures Recorded(Exec(c, steps), i, past + steps)
    decreases |steps|
  {
    if steps == [] {
      assert past + steps == past;
    } else {
      StepRecords(c, past, steps[0], i);
      RunRecords(Apply(c, steps[0]), past + [steps[0]], steps[1..], i);
      assert (past + [steps[0]]) + steps[1..] == past + steps;
    }
  }

  lemma Records(steps: seq<Step>, i: nat)
    requires IsRun(EMPTY, steps)
    ensures Recorded(Exec(EMPTY, steps), i, steps)
  {
    RunRecords(EMPTY, [], steps, i);
    assert [] + steps == steps;
  }

  // What follows for whole runs.

  /** There is one session for every accepted connection, under its address.  A session that has a name
      has the one its client sent, and read it once; its lines are those its client sent, in order.  It
      has given up, failed or left exactly if it has taken that step, and leaves exactly if its stream has
      come to its end. */
  lemma SessionIsItsSteps(steps: seq<Step>, i: nat)
    requires IsRun(EMPTY, steps) && i < |Exec(EMPTY, steps).sessions|
    ensures var s, st := Exec(EMPTY, steps).sessions[i], StoryOf(steps, i);
            && |Exec(EMPTY, steps).sessions| == |Accepted(steps)| && s.addr == Accepted(steps)[i]
            && (!s.phase.Prompting? && !s.phase.AwaitingName? && !s.phase.Refused? ==> st.names == [s.name])
            && s.lines == st.lines && |s.delivered| == st.delivered
            && (s.phase.Refused? <==> GiveUp(i) in steps)
            && (s.phase.Failed? <==> DeliverFails(i) in steps)
            && (s.phase.Left? <==> Leave(i) in steps)
            && (s.phase.Leaving? || s.phase.Left? <==> EndOfStream(i) in steps)
            && (s.phase.Unregistered() <==> Register(i) !in steps)
  {
    Records(steps, i);
    StoryTellsEntry(steps, i);
    StoryTellsEnd(steps, i);
  }

  lemma RefusedIsNowhere(c: Server, i: nat, n: nat)
    requires Inv(c) && HasMissed(c, i, n) && i < |c.sessions| && c.sessions[i].phase.Refused?
    ensures forall a :: a in c.peers ==> c.peers[a] != i
    ensures Keep(c.log, By(i)) == [] && c.sessions[i].enqueued == []
  {
    assert SessionOk(c.sessions[i], i, c.log);
  }

  /** A client that goes away before it has given a name is never registered, announced or sent
      anything. */
  lemma TurnedAway(steps: seq<Step>, i: nat)
    requires IsRun(EMPTY, steps) && GiveUp(i) in steps
    ensures var c := Exec(EMPTY, steps);
            && i < |c.sessions| && Register(i) !in steps
            && (forall a :: a in c.peers ==> c.peers[a] != i)
            && Keep(c.log, By(i)) == [] && c.sessions[i].enqueued == []
  {
    Records(steps, i);
    StoryTellsEntry(steps, i);
    Reachable(steps);
    RunHears(EMPTY, steps, i, 0);
    RefusedIsNowhere(Exec(EMPTY, steps), i, CountMisses(EMPTY, steps, i));
  }

  // On the wire.

  function Wire(messages: seq<Message>): seq<string> {
    if messages == [] then []
    else Wire(messages[..|messages| - 1]) + [Render(messages[|messages| - 1].text)]
  }

  /** The lines of a user as the others read them. */
  function Quoted(name: string, lines: seq<string>): seq<string> {
    if lines == [] then []
    else Quoted(name, lines[..|lines| - 1]) + [name + ": " + lines[|lines| - 1]]
  }

  lemma WireLast(messages: seq<Message>, m: Message)
    ensures Wire(messages + [m]) == Wire(messages) + [Render(m.text)]
  {
    assert (messages + [m])[..|messages|] == messages;
  }

  lemma {:induction false} WireOfLines(i: nat, addr: Addr, name: string, lines: seq<string>, join: Message)
    ensures Wire([join] + LineMessages(i, addr, name, lines)) == [Render(join.text)] + Quoted(name, lines)
  {
    if lines == [] {
      WireLast([], join);
      assert [join] + LineMessages(i, addr, name, lines) == [] + [join];
    } else {
      var front, m := LineMessages(i, addr, name, lines[..|lines| - 1]), Message(i, addr, Line(name, lines[|lines| - 1]));
      WireOfLines(i, addr, name, lines[..|lines| - 1], join);
      WireLast([join] + front, m);
      assert [join] + LineMessages(i, addr, name, lines) == ([join] + front) + [m];
    }
  }

  lemma {:induction false} WireOfPrefix(messages: seq<Message>, n: nat)
    requires n <= |messages|
    ensures Wire(messages[..n]) <= Wire(messages)
    decreases |messages|
  {
    if n == |messages| {
      assert messages[..n] == messages;
    } else {
      assert messages[..|messages| - 1][..n] == messages[..n];
      WireOfPrefix(messages[..|messages| - 1], n);
    }
  }

  /** The lines a client has been sent are the texts of what the others have said, in the order of the
      lock, up to some point. */
  lemma ClientReads(steps: seq<Step>, i: nat)
    requires Undisturbed(steps, i)
    ensures var c := Exec(EMPTY, steps);
            var s := c.sessions[i];
            && s.from <= EndOf(s, c.log) <= |c.log|
            && Wire(s.delivered) <= Wire(OthersSaid(c, i))
  {
    ClientSeesLogPrefix(steps, i);
    var c := Exec(EMPTY, steps);
    var s := c.sessions[i];
    assert OthersSaid(c, i)[..|s.delivered|] == s.delivered;
    WireOfPrefix(OthersSaid(c, i), |s.delivered|);
  }

  /** The text of what a session says: told from its steps and its client's words. */
  function Spoken(st: Story, name: string): seq<string> {
    if st.joined == 0 then []
    else
      [name + " has joined the chat"]
      + Quoted(name, if st.published <= |st.lines| then st.lines[..st.published] else st.lines)
      + (if st.left > 0 then [name + " has left the chat"] else [])
  }

  lemma WireOfSpeech(st: Story, i: nat, s: Session)
    requires Agrees(s, st)
    ensures Wire(Speech(s, i)) == Spoken(st, s.name)
  {
    if !s.phase.Unregistered() && !s.phase.Registered? {
      var join := Message(i, s.addr, Joined(s.name));
      var said := [join] + LineMessages(i, s.addr, s.name, Published(s));
      assert Published(s) == st.lines[..st.published];
      WireOfLines(i, s.addr, s.name, Published(s), join);
      if s.phase.Left? {
        WireLast(said, Message(i, s.addr, Parted(s.name)));
      } else {
        assert said + [] == said;
      }
    }
  }

  /** What a peer that listens throughout is sent by session `i`, as text: the join notice with the name
      the client gave, as many of its lines as were published, in the order in which they were read, and
      the leave notice if and only if it has left. */
  lemma WhatPeersRead(steps: seq<Step>, i: nat, j: nat, name: string)
    requires Undisturbed(steps, j) && i != j && StoryOf(steps, i).names == [name]
    requires var c := Exec(EMPTY, steps);
             && i < |c.sessions| && !c.sessions[i].phase.Unregistered()
             && c.sessions[j].from <= c.sessions[i].from
             && forall k :: EndOf(c.sessions[j], c.log) <= k < |c.log| ==> c.log[k].sid != i
    ensures StoryOf(steps, i).published <= |StoryOf(steps, i).lines|
    ensures Wire(Keep(Exec(EMPTY, steps).sessions[j].enqueued, By(i))) == Spoken(StoryOf(steps, i), name)
  {
    SessionShape(steps, i, j);
    Records(steps, i);
    WireOfSpeech(StoryOf(steps, i), i, Exec(EMPTY, steps).sessions[i]);
  }
}
