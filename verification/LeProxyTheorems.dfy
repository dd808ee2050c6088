/** What the plain relay guarantees over whole runs, for every interleaving of network activity and
    deferred callbacks and for every output limit of at least one byte. */
module LeProxyTheorems {
  import opened BufferEvents
  import opened LeProxy
  import opened LeProxyInvariant
  import opened FifoPipe

  // Lifetimes.

  /** In every reachable state no freed end has been touched, no end has been freed twice, the
      context of a live end is its live partner or NULL, and it is NULL exactly when the end is
      waiting to close. */
  lemma EveryRunIsSafe(steps: seq<Step>, s: Side, max: nat)
    requires max >= 1 && IsRun(Linked(), steps, max)
    ensures var l := Exec(Linked(), steps, max);
            var e, o := l.At(s), l.At(s.Other());
            && !l.fault
            && e.frees == (if e.live then 0 else 1)
            && (e.live ==>
                  && (e.ctx == Some(s.Other()) || e.ctx == None)
                  && (e.ctx == Some(s.Other()) <==> o.live)
                  && (e.ctx == Some(s.Other()) ==> o.ctx == Some(s))
                  && (e.ctx == None <==> e.writeCb == CloseOnFinishedWritecb))
  {
    InitiallyOpen(max);
    RunKeepsInv(Linked(), steps, max);
  }

  // Stream preservation.

  /** The pipe that the direction from `e` to `o` implements. */
  function PipeOf(e: End, o: End): Pipe {
    Pipe(e.received, o.output + e.input, o.sent)
  }

  function Direction(l: Link, s: Side): Pipe {
    PipeOf(l.At(s), l.At(s.Other()))
  }

  /** What a step of the relay does to that pipe. */
  function ActionOf(step: Step, s: Side): Action {
    match step
    case Read(x, data) => if x == s then Put(data) else Skip
    case Write(x, n) => if x == s then Skip else Get(n)
    case _ => Skip
  }

  function ActionsOf(steps: seq<Step>, s: Side): (r: seq<Action>)
    ensures |r| == |steps| && forall i :: 0 <= i < |r| ==> r[i] == ActionOf(steps[i], s)
  {
    seq(|steps|, i requires 0 <= i < |steps| => ActionOf(steps[i], s))
  }

  lemma ReceiveRefines(e: End, o: End, data: seq<Byte>)
    ensures PipeOf(e.Receive(data), o) == PipeOf(e, o).Do(Put(data))
    ensures PipeOf(o, e.Receive(data)) == PipeOf(o, e)
  {
    assert o.output + (e.input + data) == (o.output + e.input) + data;
  }

  lemma TransmitRefines(e: End, o: End, n: nat)
    requires n <= |e.output|
    ensures PipeOf(o, e).Can(Get(n)) && PipeOf(o, e.Transmit(n)) == PipeOf(o, e).Do(Get(n))
    ensures PipeOf(e.Transmit(n), o) == PipeOf(e, o)
  {
    assert e.output[n..] + o.input == (e.output + o.input)[n..];
    assert e.output[..n] == (e.output + o.input)[..n];
  }

  lemma ReadcbRefines(e: End, o: End, s: Side, max: nat)
    ensures PipeOf(Emptied(e, o, max), Filled(e, o, s, max)) == PipeOf(e, o)
    ensures PipeOf(Filled(e, o, s, max), Emptied(e, o, max)) == PipeOf(o, e)
  {
    assert (o.output + e.input) + [] == o.output + e.input;
  }

  lemma NetworkStepRefines(l: Link, step: Step, s: Side, max: nat)
    requires Enabled(l, step) && (step.Read? || step.Write? || step.Raise?)
    ensures Direction(l, s).Can(ActionOf(step, s))
    ensures Direction(Apply(l, step, max), s) == Direction(l, s).Do(ActionOf(step, s))
  {
    var e, o := l.At(step.side), l.At(step.side.Other());
    match step
    case Read(_, data) => ReceiveRefines(e, o, data);
    case Write(_, n) => TransmitRefines(e, o, n);
    case Raise(_, _, _) =>
  }

  lemma ReadStepRefines(l: Link, x: Side, s: Side, max: nat)
    requires l.BothLive()
    ensures Direction(OnRead(l, x, Some(x.Other()), max), s) == Direction(l, s)
  {
    OnReadEnds(l, x, max);
    ReadcbRefines(l.At(x), l.At(x.Other()), x, max);
  }

  lemma DrainedStepRefines(l: Link, x: Side, s: Side)
    requires l.BothLive()
    ensures Direction(OnDrained(l, x, Some(x.Other())), s) == Direction(l, s)
  {
  }

  lemma StepRefines(l: Link, step: Step, s: Side, max: nat)
    requires Open(l, max) && Enabled(l, step) && !(step.RunEvent? && l.At(step.side).eventDue.Fatal())
    ensures Direction(l, s).Can(ActionOf(step, s))
    ensures Direction(Apply(l, step, max), s) == Direction(l, s).Do(ActionOf(step, s))
  {
    OpenFromEitherSide(l, step.side, max);
    match step
    case RunRead(x) => ReadStepRefines(l.With(x, l.At(x).(readDue := false)), x, s, max);
    case RunWrite(x) => DrainedStepRefines(l.With(x, l.At(x).(writeDue := false)), x, s);
    case RunEvent(_) =>
    case _ => NetworkStepRefines(l, step, s, max);
  }

  lemma StepOfDrainingOrNone(l: Link, step: Step, d: Side, max: nat)
    requires max >= 1 && Inv(l, max) && Enabled(l, step) && !l.At(d.Other()).live
    ensures Draining(l, d) && !Apply(l, step, max).At(d.Other()).live
    ensures Draining(Apply(l, step, max), d) || Closed(Apply(l, step, max))
  {
    StepOfDraining(l, d, step, max);
  }

  lemma {:induction false} FreedStaysFreed(l: Link, steps: seq<Step>, s: Side, max: nat)
    requires max >= 1 && Inv(l, max) && IsRun(l, steps, max) && !l.At(s).live
    ensures !Exec(l, steps, max).At(s).live
    decreases |steps|
  {
    if steps == [] {
    } else {
      StepKeepsInv(l, steps[0], max);
      StepOfDrainingOrNone(l, steps[0], s.Other(), max);
      FreedStaysFreed(Apply(l, steps[0], max), steps[1..], s, max);
    }
  }

  lemma FirstEventFrees(l: Link, s: Side, max: nat)
    requires max >= 1 && Open(l, max) && !l.fault && Enabled(l, RunEvent(s)) && l.At(s).eventDue.Fatal()
    ensures Inv(Apply(l, RunEvent(s), max), max) && !Apply(l, RunEvent(s), max).At(s).live
  {
    StepKeepsInv(l, RunEvent(s), max);
    OpenFromEitherSide(l, s, max);
    OnEventEnds(l.With(s, l.At(s).(eventDue := NOTHING)), s, l.At(s).eventDue, max);
  }

  /** A pair that is still open has behaved as two independent pipes, one for each direction. */
  lemma {:induction false} RunRefinesPipes(l: Link, steps: seq<Step>, s: Side, max: nat)
    requires max >= 1 && Open(l, max) && !l.fault && IsRun(l, steps, max)
    requires Exec(l, steps, max).BothLive()
    ensures Accepts(Direction(l, s), ActionsOf(steps, s))
    ensures Direction(Exec(l, steps, max), s) == DoAll(Direction(l, s), ActionsOf(steps, s))
    decreases |steps|
  {
    if steps == [] {
    } else {
      var x, l' := steps[0].side, Apply(l, steps[0], max);
      if steps[0].RunEvent? && l.At(x).eventDue.Fatal() {
        FirstEventFrees(l, x, max);
        FreedStaysFreed(l', steps[1..], x, max);
        assert false;
      }
      OpenStepStaysOpen(l, steps[0], max);
      StepRefines(l, steps[0], s, max);
      RunRefinesPipes(l', steps[1..], s, max);
      assert ActionsOf(steps, s)[1..] == ActionsOf(steps[1..], s);
    }
  }

  /** While both ends are open, what one end has read is what the other has written, followed by
      what it still has to write, followed by what waits to be moved. */
  lemma RelayIsLossless(steps: seq<Step>, s: Side, max: nat)
    requires max >= 1 && IsRun(Linked(), steps, max)
    requires Exec(Linked(), steps, max).BothLive()
    ensures var l := Exec(Linked(), steps, max);
            l.At(s).received == l.At(s.Other()).sent + l.At(s.Other()).output + l.At(s).input
    ensures Direction(Linked(), s) == Pipe([], [], [])
    ensures Accepts(Pipe([], [], []), ActionsOf(steps, s))
    ensures Direction(Exec(Linked(), steps, max), s) == DoAll(Pipe([], [], []), ActionsOf(steps, s))
  {
    InitiallyOpen(max);
    RunRefinesPipes(Linked(), steps, s, max);
    PipeIsLossless(Pipe([], [], []), ActionsOf(steps, s));
    var l := Exec(Linked(), steps, max);
    var e, o := l.At(s), l.At(s.Other());
    assert o.sent + (o.output + e.input) == o.sent + o.output + e.input;
  }

  // Backpressure.

  /** Steps after which end `o` no longer chokes its partner. */
  function Unchoke(l: Link, o: Side, max: nat): seq<Step> {
    var e := l.At(o);
    if !e.writeCb.DrainedWritecb? then []
    else if |e.output| > max / 2 then [Write(o, |e.output| - max / 2), RunWrite(o)]
    else [RunWrite(o)]
  }

  lemma UnchokeWorks(l: Link, o: Side, max: nat)
    requires max >= 1 && Inv(l, max) && l.BothLive()
    ensures IsRun(l, Unchoke(l, o, max), max)
    ensures var l' := Exec(l, Unchoke(l, o, max), max);
            && Inv(l', max) && l'.BothLive()
            && l'.At(o).writeCb == NoWritecb
            && l'.At(o.Other()).writeCb == l.At(o.Other()).writeCb
            && l'.At(o).reading == l.At(o).reading
            && (l'.At(o.Other()).reading || l'.At(o.Other()).eventDue.Fatal())
  {
    OpenFromEitherSide(l, o, max);
    var e := l.At(o);
    if e.writeCb.DrainedWritecb? {
      var w := if |e.output| > max / 2 then [Write(o, |e.output| - max / 2)] else [];
      var drained := if w == [] then l else Apply(l, w[0], max);
      if w != [] {
        StepKeepsInv(l, w[0], max);
        assert Unchoke(l, o, max)[1..] == [RunWrite(o)];
      }
      StepKeepsInv(drained, RunWrite(o), max);
      assert Exec(drained, [RunWrite(o)], max) == Apply(drained, RunWrite(o), max);
    }
  }

  /** In every reachable open state an end is choked exactly by a partner whose drained callback is
      set (an end that has seen EOF or an error may also have stopped by itself), that callback is
      scheduled or still has bytes to wait for, and however many directions are choked, writing and
      running the callbacks that become due makes both ends read again. */
  lemma NoLostWakeUp(steps: seq<Step>, s: Side, max: nat) returns (wake: seq<Step>)
    requires max >= 1 && IsRun(Linked(), steps, max)
    requires Exec(Linked(), steps, max).BothLive()
    ensures var l := Exec(Linked(), steps, max);
            var e, o := l.At(s), l.At(s.Other());
            && (o.writeCb == DrainedWritecb ==> !e.reading && (|o.output| > max / 2 || o.writeDue))
            && (!e.reading && !e.eventDue.eof && !e.eventDue.error ==> o.writeCb == DrainedWritecb)
    ensures IsRun(Linked(), steps + wake, max)
    ensures var l' := Exec(Linked(), steps + wake, max);
            && l'.BothLive()
            && (l'.inbound.reading || l'.inbound.eventDue.eof || l'.inbound.eventDue.error)
            && (l'.outbound.reading || l'.outbound.eventDue.eof || l'.outbound.eventDue.error)
  {
    InitiallyOpen(max);
    RunKeepsInv(Linked(), steps, max);
    var l := Exec(Linked(), steps, max);
    OpenFromEitherSide(l, s, max);
    var first := Unchoke(l, Inbound, max);
    UnchokeWorks(l, Inbound, max);
    var half := Exec(l, first, max);
    var second := Unchoke(half, Outbound, max);
    UnchokeWorks(half, Outbound, max);
    wake := first + second;
    ExecAppend(l, first, second, max);
    ExecAppend(Linked(), steps, wake, max);
    OpenFromEitherSide(Exec(half, second, max), Outbound, max);
  }

  /** The direction out of `s` has delivered everything. */
  predicate Delivered(l: Link, s: Side) {
    l.At(s.Other()).sent == l.At(s).received
  }

  lemma MoveOn(l: Link, s: Side, max: nat) returns (steps: seq<Step>)
    requires max >= 1 && Open(l, max) && !l.fault
    ensures IsRun(l, steps, max)
    ensures var l' := Exec(l, steps, max);
            && Open(l', max) && !l'.fault && l'.At(s).input == []
            && Direction(l', s) == Direction(l, s) && Direction(l', s.Other()) == Direction(l, s.Other())
  {
    steps := [];
    if l.At(s).input != [] {
      steps := [RunRead(s)];
      OpenFromEitherSide(l, s, max);
      OpenStepStaysOpen(l, RunRead(s), max);
      StepRefines(l, RunRead(s), s, max);
      StepRefines(l, RunRead(s), s.Other(), max);
      OnReadEnds(l.With(s, l.At(s).(readDue := false)), s, max);
      assert IsRun(Apply(l, RunRead(s), max), [], max);
      assert Exec(l, steps, max) == Apply(l, RunRead(s), max);
    }
  }

  lemma WriteOut(l: Link, s: Side, max: nat) returns (steps: seq<Step>)
    requires max >= 1 && Open(l, max) && !l.fault && l.At(s).input == []
    ensures IsRun(l, steps, max)
    ensures var l' := Exec(l, steps, max);
            && Open(l', max) && !l'.fault && Delivered(l', s)
            && l'.At(s).received == l.At(s).received && Direction(l', s.Other()) == Direction(l, s.Other())
  {
    var o := s.Other();
    OpenFromEitherSide(l, s, max);
    steps := [];
    if l.At(o).output == [] {
      assert l.At(o).sent + [] + [] == l.At(o).sent;
    } else {
      var step := Write(o, |l.At(o).output|);
      steps := [step];
      OpenStepStaysOpen(l, step, max);
      StepRefines(l, step, o, max);
      var l' := Apply(l, step, max);
      OpenFromEitherSide(l', s, max);
      assert IsRun(l', [], max) && Exec(l, steps, max) == l';
      assert l'.At(o).output == [] && l'.At(s).input == [];
      assert l'.At(o).sent + [] + [] == l'.At(o).sent;
    }
  }

  lemma Flush(l: Link, s: Side, max: nat) returns (steps: seq<Step>)
    requires max >= 1 && Open(l, max) && !l.fault
    ensures IsRun(l, steps, max)
    ensures var l' := Exec(l, steps, max);
            && Open(l', max) && !l'.fault && Delivered(l', s)
            && l'.At(s).received == l.At(s).received && Direction(l', s.Other()) == Direction(l, s.Other())
  {
    var move := MoveOn(l, s, max);
    var write := WriteOut(Exec(l, move, max), s, max);
    ExecAppend(l, move, write, max);
    steps := move + write;
  }

  /** From every reachable open state, in whatever way its directions are choked, there is a way on in
      which every byte ever read is written to the other side. */
  lemma EveryByteCanArrive(steps: seq<Step>, max: nat) returns (more: seq<Step>)
    requires max >= 1 && IsRun(Linked(), steps, max) && Exec(Linked(), steps, max).BothLive()
    ensures IsRun(Linked(), steps + more, max)
    ensures var l, l' := Exec(Linked(), steps, max), Exec(Linked(), steps + more, max);
            && l'.outbound.sent == l.inbound.received && l'.inbound.sent == l.outbound.received
  {
    InitiallyOpen(max);
    RunKeepsInv(Linked(), steps, max);
    var l := Exec(Linked(), steps, max);
    var first := Flush(l, Inbound, max);
    var half := Exec(l, first, max);
    var second := Flush(half, Outbound, max);
    more := first + second;
    ExecAppend(l, first, second, max);
    ExecAppend(Linked(), steps, more, max);
  }

  /** At most `r` bytes gather in an input between two runs of its read callback. */
  predicate Gathers(l: Link, steps: seq<Step>, max: nat, r: nat)
    requires IsRun(l, steps, max)
    decreases |steps|
  {
    && |l.inbound.input| <= r && |l.outbound.input| <= r
    && (steps != [] ==> Gathers(Apply(l, steps[0], max), steps[1..], max, r))
  }

  predicate OutputsWithin(l: Link, bound: int) {
    |l.inbound.output| <= bound && |l.outbound.output| <= bound
  }

  lemma ReadWithinBound(l: Link, s: Side, max: nat, r: nat)
    requires l.BothLive() && |l.At(s).input| <= r && OutputsWithin(l, max - 1 + r)
    requires l.At(s).input == [] || |l.At(s.Other()).output| < max
    ensures OutputsWithin(OnRead(l, s, Some(s.Other()), max), max - 1 + r)
  {
    OnReadEnds(l, s, max);
  }

  lemma EventWithinBound(l: Link, s: Side, what: What, max: nat, r: nat)
    requires l.BothLive() && |l.At(s).input| <= r && OutputsWithin(l, max - 1 + r)
    requires l.At(s).input == [] || |l.At(s.Other()).output| < max
    ensures OutputsWithin(OnEvent(l, s, what, Some(s.Other()), max), max - 1 + r)
  {
    if what.Fatal() {
      OnEventEnds(l, s, what, max);
    }
  }

  lemma OpenStepWithinBound(l: Link, step: Step, max: nat, r: nat)
    requires Open(l, max) && Enabled(l, step)
    requires |l.At(step.side).input| <= r && OutputsWithin(l, max - 1 + r)
    ensures OutputsWithin(Apply(l, step, max), max - 1 + r)
  {
    OpenFromEitherSide(l, step.side, max);
    var e := l.At(step.side);
    match step
    case RunRead(s) => ReadWithinBound(l.With(s, e.(readDue := false)), s, max, r);
    case RunEvent(s) => EventWithinBound(l.With(s, e.(eventDue := NOTHING)), s, e.eventDue, max, r);
    case _ =>
  }

  lemma StepWithinBound(l: Link, step: Step, max: nat, r: nat)
    requires max >= 1 && Inv(l, max) && Enabled(l, step)
    requires |l.At(step.side).input| <= r && OutputsWithin(l, max - 1 + r)
    ensures OutputsWithin(Apply(l, step, max), max - 1 + r)
  {
    if Open(l, max) {
      OpenStepWithinBound(l, step, max, r);
    } else {
      StepOfDraining(l, step.side, step, max);
    }
  }

  lemma {:induction false} RunWithinBound(l: Link, steps: seq<Step>, max: nat, r: nat)
    requires max >= 1 && Inv(l, max) && IsRun(l, steps, max) && Gathers(l, steps, max, r)
    requires OutputsWithin(l, max - 1 + r)
    ensures OutputsWithin(Exec(l, steps, max), max - 1 + r)
    decreases |steps|
  {
    if steps == [] {
    } else {
      StepKeepsInv(l, steps[0], max);
      StepWithinBound(l, steps[0], max, r);
      RunWithinBound(Apply(l, steps[0], max), steps[1..], max, r);
    }
  }

  /** No run lets an output grow beyond the limit by more than one input. */
  lemma BackpressureBound(steps: seq<Step>, max: nat, r: nat)
    requires max >= 1 && IsRun(Linked(), steps, max) && Gathers(Linked(), steps, max, r)
    ensures OutputsWithin(Exec(Linked(), steps, max), max - 1 + r)
  {
    InitiallyOpen(max);
    RunWithinBound(Linked(), steps, max, r);
  }

  /** At the limit the program is built with, an output stays below 512 KiB plus one gathering. */
  lemma BackpressureAtMaxOutput(steps: seq<Step>, r: nat)
    requires IsRun(Linked(), steps, MAX_OUTPUT) && Gathers(Linked(), steps, MAX_OUTPUT, r)
    ensures OutputsWithin(Exec(Linked(), steps, MAX_OUTPUT), 524287 + r)
  {
    BackpressureBound(steps, MAX_OUTPUT, r);
  }

  lemma {:induction false} GathersAppend(l: Link, first: seq<Step>, second: seq<Step>, max: nat, r: nat)
    requires IsRun(l, first, max) && Gathers(l, first, max, r)
    requires IsRun(Exec(l, first, max), second, max) && Gathers(Exec(l, first, max), second, max, r)
    ensures IsRun(l, first + second, max) && Gathers(l, first + second, max, r)
    decreases |first|
  {
    if first == [] {
      assert first + second == second;
    } else {
      var l' := Apply(l, first[0], max);
      assert (first + second)[0] == first[0] && (first + second)[1..] == first[1..] + second;
      assert Exec(l, first, max) == Exec(l', first[1..], max);
      GathersAppend(l', first[1..], second, max, r);
    }
  }

  /** Both inputs are empty and the accepted end is not choked. */
  predicate Quiet(l: Link, max: nat) {
    && Open(l, max) && !l.fault
    && l.inbound.reading && l.inbound.input == [] && l.outbound.input == []
  }

  function Pour(data: seq<Byte>): seq<Step> {
    [Read(Inbound, data), RunRead(Inbound)]
  }

  lemma PourFills(l: Link, data: seq<Byte>, max: nat)
    requires max >= 1 && Quiet(l, max) && data != []
    ensures IsRun(l, Pour(data), max) && Gathers(l, Pour(data), max, |data|)
    ensures var l' := Exec(l, Pour(data), max);
            && |l'.outbound.output| == |l.outbound.output| + |data|
            && (|l'.outbound.output| < max ==> Quiet(l', max))
  {
    var got := Apply(l, Read(Inbound, data), max);
    NetworkKeepsOpen(l, Read(Inbound, data), max);
    StepKeepsInv(got, RunRead(Inbound), max);
    OnReadEnds(got.With(Inbound, got.inbound.(readDue := false)), Inbound, max);
    var poured := Apply(got, RunRead(Inbound), max);
    assert Pour(data)[1..] == [RunRead(Inbound)] && [RunRead(Inbound)][1..] == [];
    assert IsRun(poured, [], max) && Exec(poured, [], max) == poured;
    assert IsRun(got, [RunRead(Inbound)], max) && Exec(got, [RunRead(Inbound)], max) == poured;
    assert Gathers(poured, [], max, |data|);
    assert Gathers(got, [RunRead(Inbound)], max, |data|);
  }

  lemma {:induction false} GathersMore(l: Link, steps: seq<Step>, max: nat, q: nat, r: nat)
    requires IsRun(l, steps, max) && Gathers(l, steps, max, q) && q <= r
    ensures Gathers(l, steps, max, r)
    decreases |steps|
  {
    if steps == [] {
    } else {
      GathersMore(Apply(l, steps[0], max), steps[1..], max, q, r);
    }
  }

  lemma {:induction false} FillByteByByte(k: nat, max: nat, r: nat) returns (steps: seq<Step>)
    requires k < max && 1 <= r
    ensures IsRun(Linked(), steps, max) && Gathers(Linked(), steps, max, r)
    ensures var l := Exec(Linked(), steps, max); Quiet(l, max) && |l.outbound.output| == k
  {
    if k == 0 {
      InitiallyOpen(max);
      steps := [];
    } else {
      var before := FillByteByByte(k - 1, max, r);
      var l := Exec(Linked(), before, max);
      PourFills(l, [0], max);
      GathersMore(l, Pour([0]), max, 1, r);
      GathersAppend(Linked(), before, Pour([0]), max, r);
      ExecAppend(Linked(), before, Pour([0]), max);
      steps := before + Pour([0]);
    }
  }

  /** The bound is exact: for every limit and every gathering there is a run that reaches it. */
  lemma BackpressureBoundIsReached(max: nat, r: nat) returns (steps: seq<Step>)
    requires max >= 1 && r >= 1
    ensures IsRun(Linked(), steps, max) && Gathers(Linked(), steps, max, r)
    ensures |Exec(Linked(), steps, max).outbound.output| == max - 1 + r
  {
    var before := FillByteByByte(max - 1, max, r);
    var data: seq<Byte> := seq(r, _ => 0);
    PourFills(Exec(Linked(), before, max), data, max);
    GathersAppend(Linked(), before, Pour(data), max, r);
    ExecAppend(Linked(), before, Pour(data), max);
    steps := before + Pour(data);
  }

  // Shutdown.

  /** The partner of an end that goes drains what it is left with, or goes too. */
  lemma PartedIs(e: End, o: End, s: Side, max: nat)
    requires o.live
    ensures var o', rest := Parted(Filled(e, o, s, max)), o.output + e.input;
            && (o'.live <==> rest != []) && o'.sent == o.sent
            && (o'.live ==> o'.output == rest && o'.writeCb == CloseOnFinishedWritecb && !o'.reading)
  {
  }

  lemma EventEnds(l: Link, s: Side, max: nat)
    requires OpenPair(l.At(s), l.At(s.Other()), s, max)
    requires Enabled(l, RunEvent(s)) && (l.At(s).eventDue.eof || l.At(s).eventDue.error)
    ensures var l' := Apply(l, RunEvent(s), max);
            var o, rest := l'.At(s.Other()), l.At(s.Other()).output + l.At(s).input;
            && !l'.At(s).live && l'.At(s).frees == 1
            && (o.live <==> rest != [])
            && (o.live ==> o.output == rest && o.writeCb == CloseOnFinishedWritecb && !o.reading)
            && o.sent == l.At(s.Other()).sent
  {
    var e, o := l.At(s).(eventDue := NOTHING), l.At(s.Other());
    OnEventEnds(l.With(s, e), s, l.At(s).eventDue, max);
    PartedIs(e, o, s, max);
  }

  /** What the event callback does to an open pair.  EOF or an error frees the end; its partner gets
      what the end had read and drains it, or is freed too if there is nothing to write.  Without
      either flag nothing happens but that the flags are taken. */
  lemma EventDecides(l: Link, s: Side, max: nat)
    requires max >= 1 && Open(l, max) && !l.fault && Enabled(l, RunEvent(s))
    ensures var l' := Apply(l, RunEvent(s), max);
            var what, o, rest := l.At(s).eventDue, l'.At(s.Other()), l.At(s.Other()).output + l.At(s).input;
            && (what.eof || what.error ==>
                  && !l'.At(s).live && l'.At(s).frees == 1
                  && (o.live <==> rest != [])
                  && (o.live ==> o.output == rest && o.writeCb == CloseOnFinishedWritecb && !o.reading)
                  && o.sent == l.At(s.Other()).sent)
            && (!what.eof && !what.error ==> l' == l.With(s, l.At(s).(eventDue := NOTHING)))
  {
    OpenFromEitherSide(l, s, max);
    if l.At(s).eventDue.eof || l.At(s).eventDue.error {
      EventEnds(l, s, max);
    }
  }

  /** Told from the steps alone: the event callback of an end runs after EOF or an error has been
      raised on it.  `raised` are the ends on which that has happened so far. */
  predicate Falls(steps: seq<Step>, raised: set<Side>) {
    steps != [] &&
      match steps[0]
      case Raise(s, what, _) => Falls(steps[1..], if what.eof || what.error then raised + {s} else raised)
      case RunEvent(s) => s in raised || Falls(steps[1..], raised)
      case _ => Falls(steps[1..], raised)
  }

  /** The ends with EOF or an error still to be handled. */
  predicate Pending(l: Link, raised: set<Side>) {
    forall s :: s in raised <==> l.At(s).eventDue.eof || l.At(s).eventDue.error
  }

  /** No callback but the event callback touches the pending events. */
  lemma CallbacksKeepEvents(l: Link, step: Step, s: Side, max: nat)
    requires Open(l, max) && Enabled(l, step) && (step.RunRead? || step.RunWrite?)
    ensures Apply(l, step, max).At(s).eventDue == l.At(s).eventDue
  {
    var x := step.side;
    OpenFromEitherSide(l, x, max);
    if step.RunRead? {
      OnReadEnds(l.With(x, l.At(x).(readDue := false)), x, max);
    }
  }

  /** What a step that closes nothing leaves pending on end `s`. */
  lemma EventsAfter(l: Link, step: Step, s: Side, max: nat)
    requires Open(l, max) && Enabled(l, step)
    requires !(step.RunEvent? && (l.At(step.side).eventDue.eof || l.At(step.side).eventDue.error))
    ensures Apply(l, step, max).At(s).eventDue ==
              if step.Raise? && step.side == s then l.At(s).eventDue.Or(step.what)
              else if step.RunEvent? && step.side == s then NOTHING
              else l.At(s).eventDue
  {
    if step.RunRead? || step.RunWrite? {
      CallbacksKeepEvents(l, step, s, max);
    }
  }

  lemma StepKeepsPending(l: Link, step: Step, raised: set<Side>, max: nat)
    requires Open(l, max) && Enabled(l, step) && Pending(l, raised)
    requires !(step.RunEvent? && step.side in raised)
    ensures Pending(Apply(l, step, max),
                    if step.Raise? && (step.what.eof || step.what.error) then raised + {step.side} else raised)
  {
    EventsAfter(l, step, Inbound, max);
    EventsAfter(l, step, Outbound, max);
  }

  lemma {:induction false} FallsIff(l: Link, steps: seq<Step>, raised: set<Side>, max: nat)
    requires max >= 1 && Open(l, max) && !l.fault && IsRun(l, steps, max) && Pending(l, raised)
    ensures Exec(l, steps, max).BothLive() <==> !Falls(steps, raised)
    decreases |steps|
  {
    if steps == [] {
    } else if steps[0].RunEvent? && steps[0].side in raised {
      FirstEventFrees(l, steps[0].side, max);
      FreedStaysFreed(Apply(l, steps[0], max), steps[1..], steps[0].side, max);
    } else {
      var step := steps[0];
      StepKeepsPending(l, step, raised, max);
      OpenStepStaysOpen(l, step, max);
      FallsIff(Apply(l, step, max), steps[1..],
               if step.Raise? && (step.what.eof || step.what.error) then raised + {step.side} else raised, max);
    }
  }

  /** A pair stays open as long as, and only as long as, no end has had its event callback run after EOF
      or an error was raised on it, whatever else happens in between. */
  lemma OpenIffNoEventHandled(steps: seq<Step>, max: nat)
    requires max >= 1 && IsRun(Linked(), steps, max)
    ensures Exec(Linked(), steps, max).BothLive() <==> !Falls(steps, {})
  {
    InitiallyOpen(max);
    FallsIff(Linked(), steps, {}, max);
  }

  /** The draining end `d` raises EOF or an error of its own while it still has bytes to write. */
  predicate CutShort(l: Link, steps: seq<Step>, d: Side, max: nat)
    requires IsRun(l, steps, max)
    decreases |steps|
  {
    && steps != []
    && (|| (steps[0] == RunEvent(d) && (l.At(d).eventDue.eof || l.At(d).eventDue.error) && l.At(d).output != [])
        || CutShort(Apply(l, steps[0], max), steps[1..], d, max))
  }

  lemma NothingAfterClosed(l: Link, steps: seq<Step>, max: nat)
    requires Closed(l) && IsRun(l, steps, max)
    ensures steps == []
  {
  }

  lemma DrainingStepKeepsStream(l: Link, d: Side, step: Step, max: nat)
    requires Draining(l, d) && !l.fault && Enabled(l, step)
    ensures var l' := Apply(l, step, max);
            && l'.At(d.Other()).received == l.At(d.Other()).received
            && l'.At(d.Other()).sent == l.At(d.Other()).sent && l'.At(d).received == l.At(d).received
            && (!l'.At(d).live ==>
                  (l'.At(d).sent == l'.At(d.Other()).received <==>
                     !(step == RunEvent(d) && l.At(d).output != [])))
            && (l'.At(d).live && step == RunEvent(d) ==> !l.At(d).eventDue.eof && !l.At(d).eventDue.error)
  {
    StepOfDraining(l, d, step, max);
  }

  lemma {:induction false} DrainDelivers(l: Link, d: Side, steps: seq<Step>, max: nat)
    requires max >= 1 && Draining(l, d) && !l.fault && IsRun(l, steps, max)
    ensures var l' := Exec(l, steps, max);
            var e, all := l'.At(d), l.At(d.Other()).received;
            && l'.At(d.Other()).received == all
            && l'.At(d.Other()).sent == l.At(d.Other()).sent && e.received == l.At(d).received
            && e.sent <= all
            && (e.live ==> all == e.sent + e.output)
            && (!e.live ==> (e.sent == all <==> !CutShort(l, steps, d, max)))
    decreases |steps|
  {
    if steps == [] {
    } else {
      var l' := Apply(l, steps[0], max);
      StepOfDraining(l, d, steps[0], max);
      DrainingStepKeepsStream(l, d, steps[0], max);
      if Draining(l', d) {
        DrainDelivers(l', d, steps[1..], max);
      } else {
        NothingAfterClosed(l', steps[1..], max);
      }
    }
  }

  /** A run split at the callback that handles the first EOF or error of the pair, on end `s`. */
  predicate ShutsDown(pre: seq<Step>, s: Side, post: seq<Step>, max: nat) {
    && IsRun(Linked(), pre, max)
    && var l := Exec(Linked(), pre, max);
    && l.BothLive()
    && (l.At(s).eventDue.eof || l.At(s).eventDue.error)
    && Enabled(l, RunEvent(s))
    && IsRun(Apply(l, RunEvent(s), max), post, max)
  }

  lemma FirstEvent(pre: seq<Step>, s: Side, post: seq<Step>, max: nat)
    requires max >= 1 && ShutsDown(pre, s, post, max)
    ensures var l := Exec(Linked(), pre, max);
            var l1 := Apply(l, RunEvent(s), max);
            && !l1.fault
            && l1.At(s).received == l.At(s).received
            && l1.At(s).sent == l.At(s).sent && l1.At(s.Other()).received == l.At(s.Other()).received
            && l.At(s.Other()).received == l.At(s).sent + (l.At(s).output + l.At(s.Other()).input)
            && (Draining(l1, s.Other()) ||
                (Closed(l1) && post == [] && l1.At(s.Other()).sent == l1.At(s).received))
  {
    InitiallyOpen(max);
    RunKeepsInv(Linked(), pre, max);
    var l := Exec(Linked(), pre, max);
    OpenFromEitherSide(l, s, max);
    OnEventEndsOpen(l, s, l.At(s).eventDue, max);
    var l1 := Apply(l, RunEvent(s), max);
    if Closed(l1) {
      NothingAfterClosed(l1, post, max);
    }
  }

  /** When `s` is the first end to see EOF or an error, its partner has written all that `s` ever
      read by the time it goes away, unless the partner raises EOF or an error of its own while it
      still has bytes to write; what it has written is a prefix in any case, and while it is alive
      the rest is in its output.  The other direction ends there: nothing more is read or written, so
      exactly what `s` had in its output and its partner in its input is lost. */
  lemma ShutdownDelivery(pre: seq<Step>, s: Side, post: seq<Step>, max: nat)
    requires max >= 1 && ShutsDown(pre, s, post, max)
    ensures var l := Exec(Linked(), pre, max);
            var l1 := Apply(l, RunEvent(s), max);
            var end := Exec(l1, post, max);
            var e, all := end.At(s.Other()), l.At(s).received;
            && end.At(s).received == all
            && e.sent <= all
            && (e.live ==> all == e.sent + e.output)
            && (!e.live ==> (e.sent == all <==> !CutShort(l1, post, s.Other(), max)))
            && e.received == end.At(s).sent + (l.At(s).output + l.At(s.Other()).input)
            && end.At(s).sent == l.At(s).sent && e.received == l.At(s.Other()).received
  {
    FirstEvent(pre, s, post, max);
    var l1 := Apply(Exec(Linked(), pre, max), RunEvent(s), max);
    if Draining(l1, s.Other()) {
      DrainDelivers(l1, s.Other(), post, max);
    }
  }

  /** Steps that move a shutdown forward: writes, write callbacks, and the handling of EOF or errors. */
  predicate Advances(l: Link, step: Step) {
    || step.Write? || step.RunWrite?
    || (step.RunEvent? && (l.At(step.side).eventDue.eof || l.At(step.side).eventDue.error))
  }

  function CountAdvances(l: Link, steps: seq<Step>, max: nat): nat
    requires IsRun(l, steps, max)
    decreases |steps|
  {
    if steps == [] then 0
    else (if Advances(l, steps[0]) then 1 else 0) + CountAdvances(Apply(l, steps[0], max), steps[1..], max)
  }

  /** What is left to do: two steps for every byte, one for a scheduled callback, one for closing. */
  function Remaining(e: End): nat {
    if e.live then 1 + 2 * |e.output| + (if e.writeDue then 1 else 0) else 0
  }

  lemma DrainingStepDecreases(l: Link, d: Side, step: Step, max: nat)
    requires Draining(l, d) && !l.fault && Enabled(l, step)
    ensures Remaining(Apply(l, step, max).At(d)) + (if Advances(l, step) then 1 else 0) <= Remaining(l.At(d))
  {
    StepOfDraining(l, d, step, max);
  }

  lemma {:induction false} DrainTerminates(l: Link, d: Side, steps: seq<Step>, max: nat)
    requires max >= 1 && Draining(l, d) && !l.fault && IsRun(l, steps, max)
    ensures CountAdvances(l, steps, max) + Remaining(Exec(l, steps, max).At(d)) <= Remaining(l.At(d))
    ensures Draining(Exec(l, steps, max), d) || Closed(Exec(l, steps, max))
    decreases |steps|
  {
    if steps == [] {
    } else {
      var l' := Apply(l, steps[0], max);
      StepOfDraining(l, d, steps[0], max);
      DrainingStepDecreases(l, d, steps[0], max);
      if Draining(l', d) {
        DrainTerminates(l', d, steps[1..], max);
      } else {
        NothingAfterClosed(l', steps[1..], max);
      }
    }
  }

  /** After the first EOF or error, every continuation has a bounded number of writes, write
      callbacks and handled events, and as long as an end is alive one more of them can be taken:
      the pair cannot hang half-closed. */
  lemma ShutdownTerminates(pre: seq<Step>, s: Side, post: seq<Step>, max: nat)
    requires max >= 1 && ShutsDown(pre, s, post, max)
    ensures var l1 := Apply(Exec(Linked(), pre, max), RunEvent(s), max);
            var end := Exec(l1, post, max);
            && CountAdvances(l1, post, max) + Remaining(end.At(s.Other())) <= Remaining(l1.At(s.Other()))
            && !end.At(s).live
            && (end.At(s.Other()).live ==>
                  Enabled(end, Write(s.Other(), 1)) || Enabled(end, RunWrite(s.Other())))
  {
    FirstEvent(pre, s, post, max);
    var l1 := Apply(Exec(Linked(), pre, max), RunEvent(s), max);
    if Draining(l1, s.Other()) {
      DrainTerminates(l1, s.Other(), post, max);
    }
  }
}
