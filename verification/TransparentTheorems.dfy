/** What the object-based relay guarantees over whole runs, and where it stops doing so. */
module TransparentTheorems {
  import opened BufferEvents
  import LeProxy
  import LeProxyInvariant
  import LeProxyTheorems
  import opened TransparentProxy

  /** The proxy of side `s` in a run without such an event. */
  lemma ProxyLifetime(steps: seq<Step>, s: Side)
    requires IsRun(Started(), steps) && !HasSecondEvent(Started(), steps)
    ensures var d := Exec(Started(), steps);
            && d.At(s).partner == Some(s.Other()) && d.At(s).buffer == Some(s)
            && d.At(s).alive == d.link.At(s).live
            && d.At(s).deletes == (if d.At(s).alive then 0 else 1)
  {
    StartedOk();
    RunSimulates(Started(), steps);
    LeProxyTheorems.EveryRunIsSafe(steps, s, MAX_OUTPUT);
    assert ProxyOk(Exec(Started(), steps), s);
  }

  /** A run of the object-based relay is free of double deletes and dangling pointers if and only if
      no EOF or error is handled on an end that is already draining.  Such a run is, step for step, a
      run of the plain relay with the 4 MiB limit; partner links stay mutual, and each proxy is
      deleted exactly when its socket is freed, at most once. */
  lemma SafeIffNoSecondEvent(steps: seq<Step>, s: Side)
    requires IsRun(Started(), steps)
    ensures Exec(Started(), steps).link.fault <==> HasSecondEvent(Started(), steps)
    ensures !HasSecondEvent(Started(), steps) ==>
              var d := Exec(Started(), steps);
              && LeProxy.IsRun(LeProxy.Linked(), steps, 4194304)
              && Plain(d.link) == LeProxy.Exec(LeProxy.Linked(), steps, 4194304)
              && d.At(s).partner == Some(s.Other()) && d.At(s).buffer == Some(s)
              && d.At(s).alive == d.link.At(s).live
              && d.At(s).deletes == (if d.At(s).alive then 0 else 1)
  {
    StartedOk();
    RunSimulates(Started(), steps);
    if !HasSecondEvent(Started(), steps) {
      ProxyLifetime(steps, s);
    }
  }

  /** While both proxies are alive the context of each socket is the partner of its owner, and the
      relay is as lossless as the plain one. */
  lemma OpenPhase(steps: seq<Step>, s: Side)
    requires IsRun(Started(), steps) && Exec(Started(), steps).link.BothLive()
    ensures var d := Exec(Started(), steps);
            && !d.link.fault && d.link.At(s).ctx == d.At(s).partner
            && d.link.At(s).received
               == d.link.At(s.Other()).sent + d.link.At(s.Other()).output + d.link.At(s).input
  {
    StartedOk();
    RunSimulates(Started(), steps);
    OpenIsPlain(Exec(Started(), steps));
    LeProxyTheorems.RelayIsLossless(steps, s, MAX_OUTPUT);
  }

  lemma {:induction false} FallsIff(d: Duo, steps: seq<Step>, raised: set<Side>)
    requires Inv(d) && d.link.BothLive() && IsRun(d, steps) && LeProxyTheorems.Pending(d.link, raised)
    ensures Exec(d, steps).link.BothLive() <==> !LeProxyTheorems.Falls(steps, raised)
    decreases |steps|
  {
    if steps == [] {
    } else {
      var step := steps[0];
      OpenIsPlain(d);
      StepSimulates(d, step);
      if step.RunEvent? && step.side in raised {
        LeProxyTheorems.FirstEventFrees(d.link, step.side, MAX_OUTPUT);
        RunGoesOn(Apply(d, step), steps[1..]);
      } else {
        LeProxyTheorems.StepKeepsPending(d.link, step, raised, MAX_OUTPUT);
        LeProxyInvariant.OpenStepStaysOpen(d.link, step, MAX_OUTPUT);
        OpenIsPlain(Apply(d, step));
        FallsIff(Apply(d, step), steps[1..],
                 if step.Raise? && (step.what.eof || step.what.error) then raised + {step.side} else raised);
      }
    }
  }

  /** As in the plain relay, both proxies live exactly until an end has its event callback run after EOF
      or an error was raised on it. */
  lemma OpenIffNoEventHandled(steps: seq<Step>)
    requires IsRun(Started(), steps)
    ensures Exec(Started(), steps).link.BothLive() <==> !LeProxyTheorems.Falls(steps, {})
  {
    StartedOk();
    FallsIff(Started(), steps, {});
  }

  // The condition is needed.

  const EOF := What(true, false, false)
  const RESET := What(false, true, false)

  lemma OneStep(d: Duo, step: Step, rest: seq<Step>)
    requires Enabled(d.link, step) && IsRun(Apply(d, step), rest)
    ensures IsRun(d, [step] + rest) && Exec(d, [step] + rest) == Exec(Apply(d, step), rest)
  {
    assert ([step] + rest)[1..] == rest;
  }

  /** The client sends a byte, and the byte is moved to the target's output. */
  lemma OneByteMoved(rest: seq<Step>) returns (steps: seq<Step>, d: Duo)
    ensures Inv(d) && d.link.BothLive() && d.link.outbound.output == [0] && d.link.inbound.input == []
    ensures IsRun(d, rest) ==> IsRun(Started(), steps) && Exec(Started(), steps) == Exec(d, rest)
  {
    var s1, s2 := Read(Inbound, [0]), RunRead(Inbound);
    StartedOk();
    var d1 := Apply(Started(), s1);
    StepSimulates(Started(), s1);
    d := Apply(d1, s2);
    StepSimulates(d1, s2);
    steps := [s1] + ([s2] + rest);
    if IsRun(d, rest) {
      OneStep(d1, s2, rest);
      OneStep(Started(), s1, [s2] + rest);
    }
  }

  /** The client closes before the byte is out. */
  lemma ClosedWithOneByteLeft(rest: seq<Step>) returns (steps: seq<Step>, d: Duo)
    ensures Inv(d) && !d.link.inbound.live && d.link.outbound.live && d.link.outbound.ctx == Some(Outbound)
    ensures d.link.outbound.eventCb == Eventcb
    ensures IsRun(d, rest) ==> IsRun(Started(), steps) && Exec(Started(), steps) == Exec(d, rest)
  {
    var s3, s4 := Raise(Inbound, EOF, true), RunEvent(Inbound);
    var d2;
    steps, d2 := OneByteMoved([s3] + ([s4] + rest));
    OpenIsPlain(d2);
    var d3 := Apply(d2, s3);
    StepSimulates(d2, s3);
    d := Apply(d3, s4);
    StepSimulates(d3, s4);
    assert d3.link.outbound.output + d3.link.inbound.input == [0];
    if IsRun(d, rest) {
      OneStep(d3, s4, rest);
      OneStep(d2, s3, [s4] + rest);
    }
  }

  /** If the target then resets the connection, a proxy is deleted twice. */
  lemma ResetWhileDraining() returns (steps: seq<Step>)
    ensures IsRun(Started(), steps) && Exec(Started(), steps).link.fault
  {
    var s5, s6 := Raise(Outbound, RESET, true), RunEvent(Outbound);
    var d;
    steps, d := ClosedWithOneByteLeft([s5] + ([s6] + []));
    var d5 := Apply(d, s5);
    StepSimulates(d, s5);
    SecondEventFaults(d5, s6);
    OneStep(d5, s6, []);
    OneStep(d, s5, [s6] + []);
  }
}
