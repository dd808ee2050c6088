/** The chat server in the form the program has: a shared table and the sessions' channels, updated
    in place by the stretches of `process` between suspension points. */
module ChatObjects {
  import opened Chat
  import opened ChatInvariant

  /** What the framed socket yields. */
  datatype Item = SocketLine(line: string) | SocketError | SocketEnd

  /** Every entry of the table names a session with that address. */
  ghost predicate Matching(peers: map<Addr, nat>, sessions: seq<Session>) {
    forall a :: a in peers ==> peers[a] < |sessions| && sessions[peers[a]].addr == a
  }

  lemma StillMatching(c: Server, i: nat, s: Session, peers: map<Addr, nat>)
    requires EntriesOk(c) && i < |c.sessions| && s.addr == c.sessions[i].addr
    requires peers == c.peers || peers == c.peers - {s.addr}
    ensures Matching(peers, c.sessions[i := s])
  {
  }

  class ChatServer {
    var peers: map<Addr, nat>
    var sessions: seq<Session>
    var log: seq<Message>

    ghost function View(): Server
      reads this
    {
      Server(peers, sessions, log)
    }

    ghost predicate Valid()
      reads this
    {
      Inv(View())
    }

    constructor ()
      ensures Valid() && View() == EMPTY
    {
      peers, sessions, log := map[], [], [];
    }

    /** `Shared::broadcast`: a walk over the table in whatever order the hash map yields its entries.
        Whatever the order, every listener except the sender gets the message once. */
    method SendToAll(sender: Addr, m: Message)
      requires Matching(peers, sessions)
      modifies this`sessions
      ensures sessions == Broadcast(peers, old(sessions), sender, m)
    {
      var todo := peers.Keys;
      while todo != {}
        invariant todo <= peers.Keys && |sessions| == |old(sessions)|
        invariant forall i :: 0 <= i < |sessions| ==>
          var s := old(sessions)[i];
          sessions[i] == if Listening(peers, s, i) && s.addr != sender && s.addr !in todo then s.Push(m) else s
        decreases |todo|
      {
        var a :| a in todo;
        var i := peers[a];
        if a != sender && sessions[i].phase.Live() {
          sessions := sessions[i := sessions[i].Push(m)];
        }
        todo := todo - {a};
      }
    }

    /** A session changes on its own, outside the lock. */
    method Update(i: nat, s: Session, ghost step: Step)
      requires Valid() && Enabled(View(), step) && !step.Accept? && step.i == i && s == Own(View(), step)
      requires !step.Register? && !step.Join? && !step.Publish? && !step.Leave?
      modifies this`sessions
      ensures Valid() && View() == Apply(old(View()), step)
    {
      StepKeepsInv(View(), step);
      sessions := sessions[i := s];
    }

    method AcceptConnection(addr: Addr) returns (i: nat)
      requires Valid()
      modifies this`sessions
      ensures Valid() && View() == Apply(old(View()), Accept(addr)) && i == |old(sessions)|
    {
      StepKeepsInv(View(), Accept(addr));
      i := |sessions|;
      sessions := sessions + [Session(addr, Prompting, "", [], [], [], [], 0, 0)];
    }

    /** Sending the prompt. */
    method Prompt(i: nat, sent: bool)
      requires Valid() && i < |sessions| && sessions[i].phase.Prompting?
      modifies this`sessions
      ensures Valid() && View() == Apply(old(View()), if sent then PromptSent(i) else GiveUp(i))
      ensures sessions[i].phase == (if sent then AwaitingName else Refused)
    {
      if sent {
        Update(i, sessions[i].(phase := AwaitingName), PromptSent(i));
      } else {
        Update(i, sessions[i].(phase := Refused), GiveUp(i));
      }
    }

    /** Reading the user name; anything but a line ends the session. */
    method ReadName(i: nat, item: Item)
      requires Valid() && i < |sessions| && sessions[i].phase.AwaitingName?
      modifies this`sessions
      ensures Valid() && View() == Apply(old(View()), if item.SocketLine? then GotName(i, item.line) else GiveUp(i))
      ensures item.SocketLine? ==> sessions[i].phase == Named && sessions[i].name == item.line
      ensures !item.SocketLine? ==> sessions[i].phase == Refused
    {
      match item
      case SocketLine(line) => Update(i, sessions[i].(phase := Named, name := line), GotName(i, line));
      case _ => Update(i, sessions[i].(phase := Refused), GiveUp(i));
    }

    /** `Peer::new`. */
    method RegisterPeer(i: nat)
      requires Valid() && Enabled(View(), Register(i))
      modifies this
      ensures Valid() && View() == Apply(old(View()), Register(i))
      ensures sessions[i].phase == Registered && peers == old(peers)[old(sessions)[i].addr := i]
    {
      StepKeepsInv(View(), Register(i));
      peers := peers[sessions[i].addr := i];
      sessions := sessions[i := sessions[i].(phase := Registered, from := |log|)];
    }

    /** A broadcast under the lock: the message goes to the channels and to the log. */
    method Say(i: nat, text: Text)
      requires i < |sessions|
      requires Matching(peers, sessions)
      modifies this`sessions, this`log
      ensures View() == Announce(old(View()), i, text)
    {
      var m := Message(i, sessions[i].addr, text);
      SendToAll(m.addr, m);
      log := log + [m];
    }

    method AnnounceJoin(i: nat)
      requires Valid() && Enabled(View(), Join(i))
      modifies this
      ensures Valid() && View() == Apply(old(View()), Join(i))
    {
      StepKeepsInv(View(), Join(i));
      StillMatching(View(), i, sessions[i].(phase := Chatting), peers);
      var name := sessions[i].name;
      sessions := sessions[i := sessions[i].(phase := Chatting)];
      Say(i, Joined(name));
    }

    method PublishLine(i: nat)
      requires Valid() && Enabled(View(), Publish(i))
      modifies this
      ensures Valid() && View() == Apply(old(View()), Publish(i))
    {
      StepKeepsInv(View(), Publish(i));
      StillMatching(View(), i, sessions[i].(phase := Chatting), peers);
      var name, line := sessions[i].name, sessions[i].phase.line;
      sessions := sessions[i := sessions[i].(phase := Chatting)];
      Say(i, Line(name, line));
    }

    method LeaveChat(i: nat)
      requires Valid() && Enabled(View(), Leave(i))
      modifies this
      ensures Valid() && View() == Apply(old(View()), Leave(i))
      ensures peers == old(peers) - {old(sessions)[i].addr}
    {
      StepKeepsInv(View(), Leave(i));
      StillMatching(View(), i, sessions[i].(phase := Left, until := |log|), peers - {sessions[i].addr});
      var name := sessions[i].name;
      peers := peers - {sessions[i].addr};
      sessions := sessions[i := sessions[i].(phase := Left, until := |log|)];
      Say(i, Parted(name));
    }

    /** `Peer::poll_next` on a socket that has `item` ready: the channel is asked first, so a line, an
        error or the end of the stream is seen only when the channel is empty. */
    method PollNext(i: nat, item: Item) returns (ghost step: Step)
      requires Valid() && i < |sessions| && sessions[i].phase.Chatting?
      modifies this`sessions
      ensures Enabled(old(View()), step) && Valid() && View() == Apply(old(View()), step)
      ensures old(sessions)[i].queue != [] ==> sessions[i].phase == Holding(old(sessions)[i].queue[0])
      ensures old(sessions)[i].queue == [] ==>
                sessions[i].phase == match item
                                     case SocketLine(line) => Publishing(line)
                                     case SocketError => Chatting
                                     case SocketEnd => Leaving
    {
      var s := sessions[i];
      if s.queue != [] {
        step := TakeOwn(i);
        Update(i, s.(phase := Holding(s.queue[0]), queue := s.queue[1..]), step);
      } else {
        match item
        case SocketLine(line) =>
          step := GotLine(i, line);
          Update(i, s.(phase := Publishing(line), lines := s.lines + [line]), step);
        case SocketError =>
          step := LineError(i);
          Update(i, s, step);
        case SocketEnd =>
          step := EndOfStream(i);
          Update(i, s.(phase := Leaving), step);
      }
    }

    /** Passing a received message on to the client; a failed send ends the session on the spot. */
    method PassOn(i: nat, sent: bool)
      requires Valid() && i < |sessions| && sessions[i].phase.Holding?
      modifies this`sessions
      ensures Valid() && View() == Apply(old(View()), if sent then Deliver(i) else DeliverFails(i))
      ensures sessions[i].phase == (if sent then Chatting else Failed)
      ensures sessions[i].delivered == old(sessions)[i].delivered + (if sent then [old(sessions)[i].phase.message] else [])
    {
      var s := sessions[i];
      if sent {
        Update(i, s.(phase := Chatting, delivered := s.delivered + [s.phase.message]), Deliver(i));
      } else {
        Update(i, s.(phase := Failed, until := |log|), DeliverFails(i));
      }
    }
  }
}
