/**
 Concrete inputs on which the code does not do what one would expect of it. The exact conditions are stated where
 the general results are: `LedgerTheorem` for the interface, `PipeTheorem` for pipe references, `ReportSizeTheorem` for
 report sizes, and `GuideMeaningExact` and `EndToEndTheorem` for the guide button.
 */
module Counterexamples {
  import opened Bits
  import opened Wrappers
  import opened UsbPipes
  import opened HidReports
  import opened Driver
  import opened DriverRuns
  import opened DriverLedger
  import P = XboxPackets
  import X = XboxDescriptor
  import M = XboxMeaning

  const NO_BUFFER := SetupEnv(false, 0, 0, 0, false, false, [0, 0, 0, 0])

  /** The interface cannot be opened. */
  const NOT_OPENED :=
    StartEnv(true, false, false, false, false, false, [], [], false, 0, 0, NO_BUFFER, NO_BUFFER, false, false)

  /** A start, then the last reference goes. */
  function StartedAndFreed(e: StartEnv): (events: seq<Event>) {
    [StartCall(e), ReleaseByOther, FreeCall]
  }

  lemma {:induction false} RunCons(s: System, e: Event, rest: seq<Event>)
    requires Possible(s, e) && Legal(Step(s, e), rest)
    ensures Legal(s, [e] + rest) && DriverRuns.Run(s, [e] + rest) == DriverRuns.Run(Step(s, e), rest)
  {
    assert ([e] + rest)[1..] == rest;
  }

  lemma ReleasedAndFreed(e: StartEnv)
    requires StartPossible(e)
    ensures Legal(START, StartedAndFreed(e)) && DriverRuns.Run(START, StartedAndFreed(e)).d.w.phase == Freed
  {
    var s1 := Step(START, StartCall(e));
    assert s1.d.w == INITIAL.w.(phase := Attempted, pending := s1.d.w.pending, trace := s1.d.w.trace) by {
      StartForm(INITIAL, e);
    }
    RunCons(Step(s1, ReleaseByOther), FreeCall, []);
    RunCons(s1, ReleaseByOther, [FreeCall]);
    RunCons(START, StartCall(e), [ReleaseByOther, FreeCall]);
    assert [StartCall(e)] + [ReleaseByOther, FreeCall] == StartedAndFreed(e);
    assert [ReleaseByOther] + [FreeCall] == [ReleaseByOther, FreeCall] && [FreeCall] + [] == [FreeCall];
  }

  lemma StartIsRecorded(e: StartEnv)
    ensures StartOf(None, StartedAndFreed(e)) == Some(e)
  {
    assert StartedAndFreed(e)[1..] == [ReleaseByOther, FreeCall] && [ReleaseByOther, FreeCall][1..] == [FreeCall];
  }

  /** The interface was not retained, but `free` releases it. */
  lemma InterfaceOverReleased()
    ensures Legal(START, StartedAndFreed(NOT_OPENED))
    ensures Lost(StartedAndFreed(NOT_OPENED), Interface) == -1
  {
    ReleasedAndFreed(NOT_OPENED);
    StartIsRecorded(NOT_OPENED);
    LedgerTheorem(StartedAndFreed(NOT_OPENED), Interface);
  }

  const IN := Endpoint(Interrupt, In, 0x81)
  const OUT := Endpoint(Interrupt, Out, 0x01)

  /** Two input endpoints come before the output endpoint; later on the properties cannot be copied. */
  const TWO_INPUTS :=
    StartEnv(true, true, true, true, true, true, [IN, IN, OUT], [Some(1), Some(2), Some(3)],
             false, 0, 0, NO_BUFFER, NO_BUFFER, false, false)

  lemma TwoInputsVisited()
    ensures Visited(TWO_INPUTS.endpoints, TWO_INPUTS.pipes, 3) && CountOf(TWO_INPUTS.endpoints, In, 3) == 2
  {
    var eps := TWO_INPUTS.endpoints;
    assert Last(eps, Out, 1) == None && CountOf(eps, In, 1) == 1;
    assert Last(eps, Out, 2) == None && CountOf(eps, In, 2) == 2;
    assert Last(eps, In, 2) == Some(1) && Last(eps, Out, 3) == Some(2);
  }

  lemma {:induction false} OneInputLost(e: StartEnv, n: nat)
    requires StartPossible(e) && Scans(e) && Visited(e.endpoints, e.pipes, n) && CountOf(e.endpoints, In, n) == 2
    ensures Legal(START, StartedAndFreed(e)) && Lost(StartedAndFreed(e), InPipe) == 1
  {
    ReleasedAndFreed(e);
    StartIsRecorded(e);
    PipeTheorem(StartedAndFreed(e), e, n);
  }

  /** The reference on the first input pipe is overwritten, and never released. */
  lemma PipeReferenceLost()
    ensures Legal(START, StartedAndFreed(TWO_INPUTS)) && Lost(StartedAndFreed(TWO_INPUTS), InPipe) == 1
  {
    TwoInputsVisited();
    OneInputLost(TWO_INPUTS, 3);
  }

  const BUFFER := SetupEnv(true, 1, 4, 64, true, true, [0, 0, 0, 0])

  /** All answers are favourable; reports to the host have 18 bytes at most, those to the device 9. */
  const TWO_SIZES :=
    StartEnv(true, true, true, true, true, true, [IN, OUT], [Some(1), Some(2)], true, 18, 9, BUFFER, BUFFER, true, true)

  lemma TwoSizesSucceeds()
    ensures StartPossible(TWO_SIZES) && StartSucceeds(TWO_SIZES)
  {
    var eps, pipes := TWO_SIZES.endpoints, TWO_SIZES.pipes;
    assert Last(eps, In, 1) == Some(0) && Last(eps, Out, 1) == None;
    assert Last(eps, In, 2) == Some(0) && Last(eps, Out, 2) == Some(1);
    assert Shortest(eps, 2) && AllCopied(eps, pipes, 2);
  }

  /** The in-pipe gets the size of the reports to the device, and the out-pipe none. */
  lemma ReportSizesMixedUp()
    ensures Possible(START, StartCall(TWO_SIZES))
    ensures var d := Step(START, StartCall(TWO_SIZES)).d; d.inPipe.reportSize == 9 && d.outPipe.reportSize == 0
  {
    TwoSizesSucceeds();
    StartForm(INITIAL, TWO_SIZES);
  }

  const GUIDE_VALUE_TWO: seq<byte> := [0x07, 0x20, 0x00, 0x02, 0x02, 0x00]

  /** A guide byte of 2 is read as 0: the descriptor makes only its lowest bit a button. */
  lemma GuideValueCutOff()
    ensures P.ReadGuideReport(GUIDE_VALUE_TWO).guide == 2
    ensures HostReads(X.REPORT_DESCRIPTOR, GUIDE_VALUE_TWO) == Ok([Control(Some(X.Button(16)), 0)])
  {
    M.GuideMeaning(GUIDE_VALUE_TWO);
  }
}
