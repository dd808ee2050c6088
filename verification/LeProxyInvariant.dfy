/** The joint invariant of the two ends of the plain relay. */
module LeProxyInvariant {
  import opened BufferEvents
  import opened LeProxy

  /** One direction of an open pair: what `src` reads is what `dst` writes, and the two agree on
      whether `dst` is choking `src`. */
  predicate Flow(src: End, dst: End, max: nat) {
    && src.received == dst.sent + dst.output + src.input
    && (src.input != [] ==> src.readDue)
    && match dst.writeCb
       case NoWritecb =>
         && |dst.output| < max && dst.low == 0 && !dst.writeDue
         && (src.reading || src.eventDue.Fatal())
       case DrainedWritecb =>
         && !src.reading && src.input == [] && dst.low == max / 2
         && (dst.writeDue <==> |dst.output| <= max / 2)
       case CloseOnFinishedWritecb => false
  }

  predicate OpenEnd(e: End, partner: Side) {
    && e.live && e.frees == 0
    && e.readCb == Readcb && e.eventCb == Eventcb && e.ctx == Some(partner)
  }

  /** An open pair, seen from end `s`. */
  predicate OpenPair(e: End, o: End, s: Side, max: nat) {
    && OpenEnd(e, s.Other()) && OpenEnd(o, s)
    && Flow(e, o, max) && Flow(o, e, max)
  }

  predicate Open(l: Link, max: nat) {
    OpenPair(l.inbound, l.outbound, Inbound, max)
  }

  predicate FreedEnd(e: End) {
    !e.live && e.frees == 1
  }

  /** Only end `e` is left, and it closes once its output is gone.  An empty output always has the
      closing callback scheduled, whichever low watermark the flush has left behind. */
  predicate DrainingPair(e: End, gone: End) {
    && FreedEnd(gone)
    && e.live && e.frees == 0 && !e.reading
    && e.readCb == NoReadcb && e.writeCb == CloseOnFinishedWritecb && e.eventCb == Eventcb && e.ctx == None
    && (e.output == [] ==> e.writeDue)
    && gone.received == e.sent + e.output
    && gone.sent <= e.received
  }

  predicate Draining(l: Link, d: Side) {
    DrainingPair(l.At(d), l.At(d.Other()))
  }

  predicate ClosedPair(e: End, o: End) {
    FreedEnd(e) && FreedEnd(o) && o.sent <= e.received && e.sent <= o.received
  }

  predicate Closed(l: Link) {
    ClosedPair(l.inbound, l.outbound)
  }

  predicate Inv(l: Link, max: nat) {
    !l.fault && (Open(l, max) || Draining(l, Inbound) || Draining(l, Outbound) || Closed(l))
  }

  lemma InitiallyOpen(max: nat)
    requires max >= 1
    ensures Inv(Linked(), max) && Open(Linked(), max)
  {
  }

  lemma OpenFromEitherSide(l: Link, s: Side, max: nat)
    ensures Open(l, max) <==> OpenPair(l.At(s), l.At(s.Other()), s, max)
  {
  }

  // Network steps.

  lemma ReceiveKeepsOpen(e: End, o: End, s: Side, data: seq<Byte>, max: nat)
    requires OpenPair(e, o, s, max) && e.CanReceive(data)
    ensures OpenPair(e.Receive(data), o, s, max)
  {
  }

  lemma TransmitKeepsOpen(e: End, o: End, s: Side, n: nat, max: nat)
    requires OpenPair(e, o, s, max) && e.CanTransmit(n)
    ensures OpenPair(e.Transmit(n), o, s, max)
  {
    assert e.sent + e.output == e.sent + e.output[..n] + e.output[n..];
  }

  lemma RaiseKeepsOpen(e: End, o: End, s: Side, what: What, stops: bool, max: nat)
    requires OpenPair(e, o, s, max) && e.CanRaise(what, stops)
    ensures OpenPair(e.Raise(what, stops), o, s, max)
  {
  }

  lemma NetworkKeepsOpen(l: Link, step: Step, max: nat)
    requires Open(l, max) && Enabled(l, step)
    requires step.Read? || step.Write? || step.Raise?
    ensures Open(Apply(l, step, max), max)
  {
    var s := step.side;
    var e, o := l.At(s), l.At(s.Other());
    OpenFromEitherSide(l, s, max);
    match step
    case Read(_, data) =>
      ReceiveKeepsOpen(e, o, s, data, max);
      OpenFromEitherSide(l.With(s, e.Receive(data)), s, max);
    case Write(_, n) =>
      TransmitKeepsOpen(e, o, s, n, max);
      OpenFromEitherSide(l.With(s, e.Transmit(n)), s, max);
    case Raise(_, what, stops) =>
      RaiseKeepsOpen(e, o, s, what, stops, max);
      OpenFromEitherSide(l.With(s, e.Raise(what, stops)), s, max);
  }

  // Callbacks of an open pair.

  /** The two ends after `readcb` has run on `e` with partner `o`, which belongs to side `s`. */
  function Emptied(e: End, o: End, max: nat): End {
    e.(input := [], reading := e.reading && |o.output + e.input| < max)
  }

  function Filled(e: End, o: End, s: Side, max: nat): End {
    var got := o.(output := o.output + e.input);
    if |got.output| < max then got
    else got.(readCb := Readcb, writeCb := DrainedWritecb, eventCb := Eventcb, ctx := Some(s), low := max / 2, high := max)
  }

  lemma OnReadEnds(l: Link, s: Side, max: nat)
    requires l.BothLive()
    ensures var l' := OnRead(l, s, Some(s.Other()), max);
            && l'.fault == l.fault
            && l'.At(s) == Emptied(l.At(s), l.At(s.Other()), max)
            && l'.At(s.Other()) == Filled(l.At(s), l.At(s.Other()), s, max)
  {
  }

  lemma ReadKeepsPair(e: End, o: End, s: Side, max: nat)
    requires max >= 1 && OpenPair(e, o, s, max)
    ensures OpenPair(Emptied(e, o, max).(readDue := false), Filled(e, o, s, max), s, max)
  {
    assert o.sent + o.output + e.input == o.sent + (o.output + e.input) + [];
  }

  lemma OnReadKeepsOpen(l: Link, s: Side, max: nat)
    requires max >= 1 && Open(l, max) && !l.fault
    ensures var l' := OnRead(l.With(s, l.At(s).(readDue := false)), s, Some(s.Other()), max);
            Open(l', max) && !l'.fault
  {
    var taken := l.With(s, l.At(s).(readDue := false));
    var l' := OnRead(taken, s, Some(s.Other()), max);
    OpenFromEitherSide(l, s, max);
    OnReadEnds(taken, s, max);
    assert l'.At(s) == Emptied(l.At(s), l.At(s.Other()), max).(readDue := false);
    assert l'.At(s.Other()) == Filled(l.At(s), l.At(s.Other()), s, max);
    ReadKeepsPair(l.At(s), l.At(s.Other()), s, max);
    OpenFromEitherSide(l', s, max);
  }

  lemma OnDrainedKeepsOpen(l: Link, s: Side, max: nat)
    requires max >= 1 && Open(l, max) && !l.fault
    requires l.At(s).writeCb == DrainedWritecb && l.At(s).writeDue
    ensures var l' := OnDrained(l.With(s, l.At(s).(writeDue := false)), s, Some(s.Other()));
            Open(l', max) && !l'.fault
  {
    OpenFromEitherSide(l, s, max);
    OpenFromEitherSide(OnDrained(l.With(s, l.At(s).(writeDue := false)), s, Some(s.Other())), s, max);
  }

  /** The partner of an end whose EOF or error has been handled. */
  function Parted(o: End): End {
    if o.output == [] then o.Freed()
    else o.(readCb := NoReadcb, writeCb := CloseOnFinishedWritecb, eventCb := Eventcb, ctx := None, reading := false)
  }

  lemma PartEnds(l: Link, s: Side)
    requires l.BothLive()
    ensures var l' := Part(l, s, s.Other());
            && l'.fault == l.fault
            && l'.At(s) == l.At(s).Freed()
            && l'.At(s.Other()) == Parted(l.At(s.Other()))
  {
  }

  lemma OnEventEnds(l: Link, s: Side, what: What, max: nat)
    requires l.BothLive() && what.Fatal()
    ensures var l' := OnEvent(l, s, what, Some(s.Other()), max);
            && l'.fault == l.fault
            && l'.At(s) == Emptied(l.At(s), l.At(s.Other()), max).Freed()
            && l'.At(s.Other()) == Parted(Filled(l.At(s), l.At(s.Other()), s, max))
  {
    OnReadEnds(l, s, max);
    PartEnds(OnRead(l, s, Some(s.Other()), max), s);
  }

  lemma ClosedFromEitherSide(l: Link, s: Side)
    ensures Closed(l) <==> ClosedPair(l.At(s), l.At(s.Other()))
  {
  }

  lemma EventEndsPair(e: End, o: End, s: Side, max: nat)
    requires OpenPair(e, o, s, max)
    ensures var t := e.(eventDue := NOTHING);
            var e', o' := Emptied(t, o, max).Freed(), Parted(Filled(t, o, s, max));
            && e'.received == e.received && e'.sent == e.sent && o'.received == o.received
            && o.received == e.sent + (e.output + o.input)
            && (DrainingPair(o', e') || (ClosedPair(e', o') && o'.sent == e'.received))
  {
    assert e.received == o.sent + (o.output + e.input);
    assert o.received == e.sent + (e.output + o.input);
  }

  /** The first EOF or error flushes what `s` has read and leaves its partner draining or closes it;
      what the partner has read and `s` has not written is dropped. */
  lemma OnEventEndsOpen(l: Link, s: Side, what: What, max: nat)
    requires OpenPair(l.At(s), l.At(s.Other()), s, max) && !l.fault && (what.eof || what.error)
    ensures var l' := OnEvent(l.With(s, l.At(s).(eventDue := NOTHING)), s, what, Some(s.Other()), max);
            && !l'.fault
            && l'.At(s).received == l.At(s).received
            && l'.At(s).sent == l.At(s).sent && l'.At(s.Other()).received == l.At(s.Other()).received
            && l.At(s.Other()).received == l.At(s).sent + (l.At(s).output + l.At(s.Other()).input)
            && (Draining(l', s.Other()) || (Closed(l') && l'.At(s.Other()).sent == l'.At(s).received))
  {
    var taken := l.With(s, l.At(s).(eventDue := NOTHING));
    OnEventEnds(taken, s, what, max);
    EventEndsPair(l.At(s), l.At(s.Other()), s, max);
    ClosedFromEitherSide(OnEvent(taken, s, what, Some(s.Other()), max), s);
  }

  // Steps of a draining pair.

  lemma StepOfDraining(l: Link, d: Side, step: Step, max: nat)
    requires Draining(l, d) && !l.fault && Enabled(l, step)
    ensures step.side == d && !step.Read? && !step.RunRead?
    ensures var l' := Apply(l, step, max);
            && !l'.fault
            && (Draining(l', d) || Closed(l'))
  {
    var e := l.At(d);
    if step.Write? {
      assert e.sent + e.output == e.sent + e.output[..step.n] + e.output[step.n..];
    }
  }

  // Whole steps and whole runs.

  /** An open pair stays open until EOF or an error is handled. */
  lemma OpenStepStaysOpen(l: Link, step: Step, max: nat)
    requires max >= 1 && Open(l, max) && !l.fault && Enabled(l, step)
    requires !(step.RunEvent? && l.At(step.side).eventDue.Fatal())
    ensures Open(Apply(l, step, max), max) && !Apply(l, step, max).fault
  {
    OpenFromEitherSide(l, step.side, max);
    match step
    case RunRead(s) => OnReadKeepsOpen(l, s, max);
    case RunWrite(s) => OnDrainedKeepsOpen(l, s, max);
    case RunEvent(s) => OpenFromEitherSide(Apply(l, step, max), s, max);
    case _ => NetworkKeepsOpen(l, step, max);
  }

  lemma StepKeepsInv(l: Link, step: Step, max: nat)
    requires max >= 1 && Inv(l, max) && Enabled(l, step)
    ensures Inv(Apply(l, step, max), max)
  {
    if Open(l, max) {
      if step.RunEvent? && l.At(step.side).eventDue.Fatal() {
        OpenFromEitherSide(l, step.side, max);
        OnEventEndsOpen(l, step.side, l.At(step.side).eventDue, max);
      } else {
        OpenStepStaysOpen(l, step, max);
      }
    } else if Draining(l, Inbound) {
      StepOfDraining(l, Inbound, step, max);
    } else if Draining(l, Outbound) {
      StepOfDraining(l, Outbound, step, max);
    }
  }

  lemma {:induction false} RunKeepsInv(l: Link, steps: seq<Step>, max: nat)
    requires max >= 1 && Inv(l, max) && IsRun(l, steps, max)
    ensures Inv(Exec(l, steps, max), max)
    decreases |steps|
  {
    if steps == [] {
    } else {
      StepKeepsInv(l, steps[0], max);
      RunKeepsInv(Apply(l, steps[0], max), steps[1..], max);
    }
  }
}
