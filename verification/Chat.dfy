/** The chat server: sessions that share a locked table of message channels.

    Each step is one stretch of a session between two suspension points of the runtime, so every
    interleaving of sessions is a sequence of steps.  A message carries the session and address
    that sent it; what travels on the wire is its text. */
module Chat {

  type Addr = nat

  /** The three things a session says.  `Render` gives the text on the wire. */
  datatype Text = Joined(name: string) | Line(name: string, line: string) | Parted(name: string)

  function Render(t: Text): string {
    match t
    case Joined(name) => name + " has joined the chat"
    case Line(name, line) => name + ": " + line
    case Parted(name) => name + " has left the chat"
  }

  datatype Message = Message(sid: nat, addr: Addr, text: Text)

  datatype Phase =
    | Prompting                        // sending the prompt
    | AwaitingName                     // reading the first line
    | Named                            // about to register
    | Registered                       // in the table, join notice still to come
    | Chatting                         // waiting for the channel or the socket
    | Holding(message: Message)        // about to send a received message to the client
    | Publishing(line: string)         // about to broadcast a line of the client
    | Leaving                          // stream exhausted, about to leave the table
    | Left                             // returned normally after leaving the table
    | Failed                           // returned early from a failed send to the client
    | Refused                          // returned before registering
  {
    /** The session holds its connection. */
    predicate Live() {
      !Left? && !Failed? && !Refused?
    }

    /** From registration to removal. */
    predicate Active() {
      Registered? || Chatting? || Holding? || Publishing? || Leaving?
    }

    predicate Unregistered() {
      Prompting? || AwaitingName? || Named? || Refused?
    }
  }

  /** `queue` is the channel; `enqueued`, `delivered` and `lines` record everything ever put into
      it, sent on to the client, and read from the client after its name.  `from` and `until`
      delimit the part of the log that concerns the session. */
  datatype Session = Session(
    addr: Addr,
    phase: Phase,
    name: string,
    queue: seq<Message>,
    enqueued: seq<Message>,
    delivered: seq<Message>,
    lines: seq<string>,
    from: nat,
    until: nat)
  {
    function Push(m: Message): Session {
      this.(queue := queue + [m], enqueued := enqueued + [m])
    }
  }

  /** `log` holds every broadcast, in the order in which the lock was taken. */
  datatype Server = Server(peers: map<Addr, nat>, sessions: seq<Session>, log: seq<Message>)

  const EMPTY := Server(map[], [], [])

  /** Session `i` is in the table under its own address and its receiver still exists. */
  predicate Listening(peers: map<Addr, nat>, s: Session, i: nat) {
    s.addr in peers && peers[s.addr] == i && s.phase.Live()
  }

  /** The effect of `Shared::broadcast` on the sessions. */
  function Broadcast(peers: map<Addr, nat>, sessions: seq<Session>, sender: Addr, m: Message): (r: seq<Session>)
    ensures |r| == |sessions|
  {
    seq(|sessions|, i requires 0 <= i < |sessions| =>
      var s := sessions[i];
      if Listening(peers, s, i) && s.addr != sender then s.Push(m) else s)
  }

  /** Session `i` broadcasts `text` while it holds the lock. */
  function Announce(c: Server, i: nat, text: Text): Server
    requires i < |c.sessions|
  {
    var m := Message(i, c.sessions[i].addr, text);
    c.(sessions := Broadcast(c.peers, c.sessions, m.addr, m), log := c.log + [m])
  }

  datatype Step =
    | Accept(addr: Addr)
    | PromptSent(i: nat)
    | GotName(i: nat, name: string)
    | GiveUp(i: nat)                   // prompt not sent, no name, or no peer address
    | Register(i: nat)
    | Join(i: nat)
    | TakeOwn(i: nat)                  // the channel is polled first
    | Deliver(i: nat)
    | DeliverFails(i: nat)
    | GotLine(i: nat, line: string)
    | LineError(i: nat)
    | Publish(i: nat)
    | EndOfStream(i: nat)
    | Leave(i: nat)

  predicate Enabled(c: Server, step: Step) {
    // an address may be that of a session that has not returned yet
    step.Accept? ||
      (&& step.i < |c.sessions|
       && var s := c.sessions[step.i];
          match step
          case PromptSent(_) => s.phase.Prompting?
          case GotName(_, _) => s.phase.AwaitingName?
          case GiveUp(_) => s.phase.Prompting? || s.phase.AwaitingName? || s.phase.Named?
          case Register(_) => s.phase.Named?
          case Join(_) => s.phase.Registered?
          case TakeOwn(_) => s.phase.Chatting? && s.queue != []
          case Deliver(_) => s.phase.Holding?
          case DeliverFails(_) => s.phase.Holding?
          case GotLine(_, _) => s.phase.Chatting? && s.queue == []
          case LineError(_) => s.phase.Chatting? && s.queue == []
          case Publish(_) => s.phase.Publishing?
          case EndOfStream(_) => s.phase.Chatting? && s.queue == []
          case Leave(_) => s.phase.Leaving?)
  }

  /** What a step makes of the session that takes it. */
  function Own(c: Server, step: Step): Session
    requires !step.Accept? && Enabled(c, step)
  {
    var s := c.sessions[step.i];
    match step
    case PromptSent(_) => s.(phase := AwaitingName)
    case GotName(_, name) => s.(phase := Named, name := name)
    case GiveUp(_) => s.(phase := Refused)
    case Register(_) => s.(phase := Registered, from := |c.log|)
    case Join(_) => s.(phase := Chatting)
    case TakeOwn(_) => s.(phase := Holding(s.queue[0]), queue := s.queue[1..])
    case Deliver(_) => s.(phase := Chatting, delivered := s.delivered + [s.phase.message])
    case DeliverFails(_) => s.(phase := Failed, until := |c.log|)
    case GotLine(_, line) => s.(phase := Publishing(line), lines := s.lines + [line])
    case LineError(_) => s
    case Publish(_) => s.(phase := Chatting)
    case EndOfStream(_) => s.(phase := Leaving)
    case Leave(_) => s.(phase := Left, until := |c.log|)
  }

  function Apply(c: Server, step: Step): Server
    requires Enabled(c, step)
  {
    if step.Accept? then
      c.(sessions := c.sessions + [Session(step.addr, Prompting, "", [], [], [], [], 0, 0)])
    else
      var i, s := step.i, c.sessions[step.i];
      var c' := c.(sessions := c.sessions[i := Own(c, step)]);
      match step
      case Register(_) => c'.(peers := c.peers[s.addr := i])
      case Join(_) => Announce(c', i, Joined(s.name))
      case Publish(_) => Announce(c', i, Line(s.name, s.phase.line))
      case Leave(_) => Announce(c'.(peers := c.peers - {s.addr}), i, Parted(s.name))
      case _ => c'
  }

  predicate IsRun(c: Server, steps: seq<Step>)
    decreases |steps|
  {
    steps != [] ==> Enabled(c, steps[0]) && IsRun(Apply(c, steps[0]), steps[1..])
  }

  function Exec(c: Server, steps: seq<Step>): Server
    requires IsRun(c, steps)
    decreases |steps|
  {
    if steps == [] then c else Exec(Apply(c, steps[0]), steps[1..])
  }
}
