/**
 The instance variables over whole runs: what a start with given answers leaves in each of them, where it fails or not,
 stays there until `free`; all transfers are made on the pipes found at the start; and the out-buffer holds what was sent
 last.
 */
module DriverFields {
  import opened Wrappers
  import opened UsbPipes
  import opened Driver
  import opened DriverRuns
  import opened DriverSafety
  import opened DriverRefinement

  // ---------------------------------------------------------------- the variables

  /** Between the start `o` and `free`. */
  predicate Kept(d: Driver, o: Option<StartEnv>) {
    && (d.w.phase == Fresh ==> o.None?)
    && (d.w.phase == Attempted ==> o.Some? && StartPossible(o.value) && Fields(d, o.value))
  }

  lemma SameFields(d: Driver, r: Driver, e: StartEnv)
    requires StartPossible(e) && Fields(d, e)
    requires r == d.(inPipe := r.inPipe, outPipe := r.outPipe, enabled := r.enabled, outCounter := r.outCounter, w := r.w)
    requires r.inPipe == d.inPipe.(memory := d.inPipe.memory.(mapped := r.inPipe.memory.mapped))
    requires r.outPipe == d.outPipe.(memory := d.outPipe.memory.(mapped := r.outPipe.memory.mapped))
    requires r.inPipe.memory.mapped.Some? == d.inPipe.memory.mapped.Some?
    requires r.outPipe.memory.mapped.Some? == d.outPipe.memory.mapped.Some?
    ensures Fields(r, e)
  {
  }

  lemma CompleteKeeps(d: Driver, c: Completion, e: StartEnv)
    requires Safe(d) && d.w.phase == Attempted && d.w.pending > 0 && |c.bytes| == d.inPipe.memory.length
    requires StartPossible(e) && Fields(d, e)
    ensures Fields(GotData(Delivered(d, c.bytes), c), e)
  {
    CompleteSafe(d, c);
    GotDataForm(Delivered(d, c.bytes), c);
    SameFields(d, GotData(Delivered(d, c.bytes), c), e);
  }

  lemma StepKept(s: System, e: Event, o: Option<StartEnv>)
    requires Safe(s.d) && Possible(s, e) && Kept(s.d, o)
    ensures Kept(Step(s, e).d, if e.StartCall? then Some(e.e) else o)
  {
    if e.StartCall? {
      StartForm(s.d, e.e);
    } else if e.Complete? {
      CompleteSafe(s.d, e.c);
      CompleteKeeps(s.d, e.c, o.value);
      GotDataForm(Delivered(s.d, e.c.bytes), e.c);
    } else {
      var es := OtherStepForm(s, e);
      if Step(s, e).d.w.phase == Attempted {
        SameFields(s.d, Step(s, e).d, o.value);
      }
    }
  }

  lemma {:induction false} RunKept(s: System, events: seq<Event>, o: Option<StartEnv>)
    requires Safe(s.d) && Legal(s, events) && Kept(s.d, o)
    ensures Kept(Run(s, events).d, StartOf(o, events))
    decreases |events|
  {
    if events == [] {
    } else {
      StepSafe(s, events[0]);
      StepKept(s, events[0], o);
      RunKept(Step(s, events[0]), events[1..], if events[0].StartCall? then Some(events[0].e) else o);
    }
  }

  /**
   In every run, from a start until `free`, every instance variable that the start wrote has the value that its answers
   gave it, wherever it failed; before there was no start.
   */
  lemma {:induction false} FieldsTheorem(events: seq<Event>)
    requires Legal(START, events)
    ensures var d, o := Run(START, events).d, StartOf(None, events);
            && (d.w.phase == Fresh ==> o.None?)
            && (d.w.phase == Attempted ==> o.Some? && StartPossible(o.value) && Fields(d, o.value))
  {
    assert Safe(START.d);
    RunKept(START, events, None);
  }

  /** A pipe record holds the pipe and the descriptor of endpoint `k`, and what was found out about it. */
  predicate RecordOf(p: PipeData, e: StartEnv, k: nat, s: SetupEnv)
    requires k < |e.endpoints| == |e.pipes|
  {
    && p.pipe == e.pipes[k] && p.pipe.Some? && p.descriptor == Some(e.endpoints[k])
    && p.speed == s.speed && p.interval == s.interval && p.maxPacketSize == s.maxPacketSize
    && p.memory.buffer && p.memory.length == |s.mapped|
  }

  /**
   In every run, from a start that got through until `free`: with `n` the shortest prefix of the endpoints that has both
   interrupt directions, the in-pipe is the pipe of the last interrupt-in endpoint there, the out-pipe that of the last
   interrupt-out endpoint, each with its own descriptor, speed, interval, packet size and buffer.
   */
  lemma {:induction false} PipeRecordTheorem(events: seq<Event>, e: StartEnv, n: nat)
    requires Legal(START, events) && StartOf(None, events) == Some(e) && Run(START, events).d.w.phase == Attempted
    requires StartPossible(e) && StartSucceeds(e) && n <= |e.endpoints| && Shortest(e.endpoints, n)
    ensures RecordOf(Run(START, events).d.inPipe, e, Last(e.endpoints, In, n).value, e.inSetup)
    ensures RecordOf(Run(START, events).d.outPipe, e, Last(e.endpoints, Out, n).value, e.outSetup)
  {
    FieldsTheorem(events);
    FoundRecords(Run(START, events).d, e, n);
  }

  lemma {:induction false} FoundRecords(d: Driver, e: StartEnv, n: nat)
    requires StartPossible(e) && StartSucceeds(e) && n <= |e.endpoints| && Shortest(e.endpoints, n) && Fields(d, e)
    ensures RecordOf(d.inPipe, e, Last(e.endpoints, In, n).value, e.inSetup)
    ensures RecordOf(d.outPipe, e, Last(e.endpoints, Out, n).value, e.outSetup)
  {
    ShortestStops(e, n);
  }

  /** The scan of a start that gets through stops after the shortest prefix. */
  lemma ShortestStops(e: StartEnv, n: nat)
    requires StartPossible(e) && PipesFound(e) && n <= |e.endpoints| && Shortest(e.endpoints, n)
    ensures StopPlace(e) == n && AllCopied(e.endpoints, e.pipes, n)
  {
    var m :| 0 <= m <= |e.endpoints| && Shortest(e.endpoints, m) && AllCopied(e.endpoints, e.pipes, m);
    if m < n {
      BothMonotone(e.endpoints, m, n - 1);
    } else if n < m {
      BothMonotone(e.endpoints, n, m - 1);
    }
    StopFromVisited(e.endpoints, e.pipes, 0);
    VisitedUnique(e.endpoints, e.pipes, n, StopPlace(e));
  }

  // ---------------------------------------------------------------- report sizes

  /**
   In every run, from a start that got through until `free`, the in-pipe has the size meant for the out-pipe and the
   out-pipe has none. So both have the size of their own direction exactly if both sizes are zero.
   */
  lemma {:induction false} ReportSizeTheorem(events: seq<Event>)
    requires Legal(START, events) && Run(START, events).d.w.phase == Attempted && Succeeded(StartOf(None, events))
    ensures var d, e := Run(START, events).d, StartOf(None, events).value;
            && d.inPipe.reportSize == e.outReportSize && d.outPipe.reportSize == 0
            && (d.inPipe.reportSize == e.inReportSize && d.outPipe.reportSize == e.outReportSize
                <==> e.inReportSize == 0 && e.outReportSize == 0)
  {
    FieldsTheorem(events);
  }

  // ---------------------------------------------------------------- transfers

  /** A read is requested on the in-pipe, for the whole in-buffer; a packet is sent on the out-pipe. */
  predicate OnPipes(x: Effect, e: StartEnv)
    requires |e.endpoints| == |e.pipes|
  {
    && (x.Arm? ==> x.pipe == PipeOf(e, In) && x.length == |e.inSetup.mapped|)
    && (x.Send? ==> x.pipe == PipeOf(e, Out))
  }

  predicate AllOnPipes(t: seq<Effect>, e: StartEnv)
    requires |e.endpoints| == |e.pipes|
  {
    forall x <- t :: OnPipes(x, e)
  }

  /** No transfer without a start that got through, and all on its pipes. */
  predicate Directed(t: seq<Effect>, o: Option<StartEnv>) {
    if Succeeded(o) then AllOnPipes(t, o.value) else forall x <- t :: !x.Arm? && !x.Send?
  }

  lemma StartDirected(t: seq<Effect>, e: StartEnv)
    requires StartPossible(e) && Directed(t, None)
    ensures Directed(t + StartEffects(e), Some(e))
  {
    PreparesAside(e);
    if StartSucceeds(e) {
      ListenOnPipes(e);
      StartOnPipes(t, PrepareEffects(e), ListenEffects(e), e);
    } else {
      assert PrepareEffects(e) + [] == PrepareEffects(e);
      NoTransfers(t, PrepareEffects(e));
    }
  }

  lemma StartOnPipes(t: seq<Effect>, prepared: seq<Effect>, listen: seq<Effect>, e: StartEnv)
    requires StartPossible(e) && Aside(prepared) && (forall x <- t :: !x.Arm? && !x.Send?) && AllOnPipes(listen, e)
    ensures AllOnPipes(t + (prepared + listen), e)
  {
    AsideOnPipes(t, prepared, e);
    Associative(t, prepared, listen);
  }

  lemma NoTransfers(t: seq<Effect>, es: seq<Effect>)
    requires Aside(es) && forall x <- t :: !x.Arm? && !x.Send?
    ensures forall x <- t + es :: !x.Arm? && !x.Send?
  {
  }

  lemma AsideOnPipes(t: seq<Effect>, es: seq<Effect>, e: StartEnv)
    requires StartPossible(e) && Aside(es) && forall x <- t :: !x.Arm? && !x.Send?
    ensures AllOnPipes(t + es, e)
  {
  }

  lemma ListenOnPipes(e: StartEnv)
    requires StartPossible(e)
    ensures AllOnPipes(ListenEffects(e), e)
  {
  }

  lemma CompleteDirected(d: Driver, c: Completion, o: Option<StartEnv>)
    requires Safe(d) && Kept(d, o) && d.w.phase != Freed && d.w.pending > 0 && |c.bytes| == d.inPipe.memory.length
    requires Directed(d.w.trace, o)
    ensures Directed(GotData(Delivered(d, c.bytes), c).w.trace, o)
  {
    var held := Delivered(d, c.bytes);
    assert Succeeded(o) && d.inPipe.pipe == PipeOf(o.value, In) && d.outPipe.pipe == PipeOf(o.value, Out)
        && d.inPipe.memory.length == |o.value.inSetup.mapped| by { FoundPipes(d, o.value); }
    assert GotData(held, c).w.trace == held.w.trace + (HandlingEffects(held, c) + [Request(held, c.armOk)]) by {
      CompleteSafe(d, c);
      GotDataForm(held, c);
    }
    HandlingDirected(held, c, o.value);
  }

  lemma HandlingDirected(d: Driver, c: Completion, e: StartEnv)
    requires StartPossible(e) && d.inPipe.pipe == PipeOf(e, In) && d.outPipe.pipe == PipeOf(e, Out)
    requires d.inPipe.memory.length == |e.inSetup.mapped|
    ensures AllOnPipes(HandlingEffects(d, c) + [Request(d, c.armOk)], e)
  {
  }

  lemma StepDirected(s: System, e: Event, o: Option<StartEnv>)
    requires Safe(s.d) && Possible(s, e) && Kept(s.d, o) && Directed(s.d.w.trace, o)
    ensures Directed(Step(s, e).d.w.trace, if e.StartCall? then Some(e.e) else o)
  {
    if e.StartCall? {
      StartForm(s.d, e.e);
      StartDirected(s.d.w.trace, e.e);
    } else if e.Complete? {
      CompleteDirected(s.d, e.c, o);
    } else {
      var es := OtherStepForm(s, e);
    }
  }

  lemma {:induction false} RunDirected(s: System, events: seq<Event>, o: Option<StartEnv>)
    requires Safe(s.d) && Legal(s, events) && Kept(s.d, o) && Directed(s.d.w.trace, o)
    ensures Directed(Run(s, events).d.w.trace, StartOf(o, events))
    decreases |events|
  {
    if events == [] {
    } else {
      StepSafe(s, events[0]);
      StepKept(s, events[0], o);
      StepDirected(s, events[0], o);
      RunDirected(Step(s, events[0]), events[1..], if events[0].StartCall? then Some(events[0].e) else o);
    }
  }

  /**
   In every run with a start that got through, every read is requested on the pipe of the last interrupt-in endpoint of
   the shortest prefix `n` and for the whole in-buffer, and every packet is sent on that of the last interrupt-out
   endpoint; without such a start there is no transfer at all.
   */
  lemma {:induction false} TransferTheorem(events: seq<Event>, x: Effect)
    requires Legal(START, events) && x in Run(START, events).d.w.trace && (x.Arm? || x.Send?)
    ensures var o := StartOf(None, events);
            && Succeeded(o)
            && forall n | 0 <= n <= |o.value.endpoints| && Shortest(o.value.endpoints, n) ::
                 && (x.Arm? ==> x.pipe == o.value.pipes[Last(o.value.endpoints, In, n).value])
                 && (x.Arm? ==> x.length == |o.value.inSetup.mapped|)
                 && (x.Send? ==> x.pipe == o.value.pipes[Last(o.value.endpoints, Out, n).value])
  {
    assert Safe(START.d);
    RunDirected(START, events, None);
    var e := StartOf(None, events).value;
    forall n | 0 <= n <= |e.endpoints| && Shortest(e.endpoints, n)
      ensures x.Arm? ==> x.pipe == e.pipes[Last(e.endpoints, In, n).value]
      ensures x.Send? ==> x.pipe == e.pipes[Last(e.endpoints, Out, n).value]
    {
      ShortestStops(e, n);
    }
  }

  // ---------------------------------------------------------------- the out-buffer

  /** The out-buffer starts with the packet that was sent last. */
  predicate HoldsLast(d: Driver) {
    var ps := Packets(d.w.trace);
    ps != [] ==> d.outPipe.memory.mapped.Some? && ps[|ps| - 1] <= d.outPipe.memory.mapped.value
  }

  lemma {:induction false} NoPackets(t: seq<Effect>)
    requires forall x <- t :: !x.Send?
    ensures Packets(t) == []
  {
    if t == [] {
    } else {
      NoPackets(t[1..]);
    }
  }

  lemma HandlingPackets(d: Driver, c: Completion)
    ensures Packets(HandlingEffects(d, c)) ==
            if c.ok && d.enabled && Replies(d, c) then [ResponseSent(d.outCounter)] else []
  {
    NoPackets(ControllerEffects(c));
    if c.ok && d.enabled {
      GuidePackets(d, c);
      PacketsConcat(ControllerEffects(c), GuideEffects(d, c));
    }
  }

  lemma GuidePackets(d: Driver, c: Completion)
    ensures Packets(GuideEffects(d, c)) == if Replies(d, c) then [ResponseSent(d.outCounter)] else []
  {
    if Replies(d, c) {
      var es := [Look, Report(c.bytes, c.count, c.timestamp), Look];
      var response := Send(d.outPipe.pipe, ResponseSent(d.outCounter));
      NoPackets(es);
      OneEffect(response);
      PacketsConcat(es, [response]);
    } else {
      NoPackets(GuideEffects(d, c));
    }
  }

  lemma CompleteHoldsLast(d: Driver, c: Completion)
    requires Safe(d) && HoldsLast(d)
    requires d.w.phase != Freed && d.w.pending > 0 && |c.bytes| == d.inPipe.memory.length
    ensures HoldsLast(GotData(Delivered(d, c.bytes), c))
  {
    var held := Delivered(d, c.bytes);
    var es, arm := HandlingEffects(held, c), Request(held, c.armOk);
    CompleteSafe(d, c);
    GotDataForm(held, c);
    HandlingPackets(held, c);
    CompletionPackets(d.w.trace, es, arm);
  }

  lemma {:induction false} CompletionPackets(t: seq<Effect>, es: seq<Effect>, arm: Effect)
    requires arm.Arm?
    ensures Packets(t + [Deliver] + (es + [arm])) == Packets(t) + Packets(es)
  {
    OneEffect(Deliver);
    OneEffect(arm);
    PacketsConcat(t, [Deliver]);
    PacketsConcat(es, [arm]);
    PacketsConcat(t + [Deliver], es + [arm]);
  }

  lemma {:induction false} StartPackets(t: seq<Effect>, e: StartEnv)
    requires StartPossible(e) && Packets(t) == []
    ensures Packets(t + StartEffects(e)) ==
            if StartSucceeds(e) && |e.outSetup.mapped| >= 5 then [InitSent(0), SwapSent(1)] else []
  {
    PreparesAside(e);
    NoPackets(PrepareEffects(e));
    PacketsConcat(t, StartEffects(e));
    if StartSucceeds(e) {
      var wake, rest := WakeUp(PipeOf(e, Out), |e.outSetup.mapped|, 0),
                        [Arm(PipeOf(e, In), |e.inSetup.mapped|, e.armOk), Acquire(Interface)];
      WakeUpPackets(PipeOf(e, Out), |e.outSetup.mapped|, 0);
      NoPackets(rest);
      PacketsConcat(wake, rest);
      PacketsConcat(PrepareEffects(e), ListenEffects(e));
    } else {
      assert PrepareEffects(e) + [] == PrepareEffects(e);
    }
  }

  lemma StartHoldsLast(d: Driver, e: StartEnv)
    requires Safe(d) && d.w.phase == Fresh && StartPossible(e) && Packets(d.w.trace) == []
    ensures HoldsLast(Start(d, e))
  {
    StartForm(d, e);
    StartPackets(d.w.trace, e);
  }

  /** Before the start nothing was sent; from then until `free` the out-buffer holds the last packet. */
  predicate BufferKept(d: Driver) {
    && (d.w.phase == Fresh ==> Packets(d.w.trace) == [])
    && (d.w.phase == Attempted ==> HoldsLast(d))
  }

  lemma StepBufferKept(s: System, e: Event)
    requires Safe(s.d) && Possible(s, e) && BufferKept(s.d)
    ensures BufferKept(Step(s, e).d)
  {
    if e.StartCall? {
      assert Start(s.d, e.e).w.phase == Attempted by { StartForm(s.d, e.e); }
      StartHoldsLast(s.d, e.e);
    } else if e.Complete? {
      CompleteHoldsLast(s.d, e.c);
      assert Step(s, e).d.w.phase == Attempted by {
        CompleteSafe(s.d, e.c);
        GotDataForm(Delivered(s.d, e.c.bytes), e.c);
      }
    } else {
      var es := OtherStepForm(s, e);
      NoPackets(es);
      PacketsConcat(s.d.w.trace, es);
    }
  }

  lemma {:induction false} RunBufferKept(s: System, events: seq<Event>)
    requires Safe(s.d) && Legal(s, events) && BufferKept(s.d)
    ensures BufferKept(Run(s, events).d)
    decreases |events|
  {
    if events == [] {
    } else {
      StepSafe(s, events[0]);
      StepBufferKept(s, events[0]);
      RunBufferKept(Step(s, events[0]), events[1..]);
    }
  }

  /** In every run, until `free`, the out-buffer starts with the packet that was sent last. */
  lemma {:induction false} OutBufferTheorem(events: seq<Event>)
    requires Legal(START, events) && Run(START, events).d.w.phase == Attempted
    ensures HoldsLast(Run(START, events).d)
  {
    assert Safe(START.d);
    RunBufferKept(START, events);
  }
}
