/**
 The resource ledger over whole runs: what a start acquires, wherever it fails, is told from its answers alone, and so is
 what `free` gives back.
 */
module DriverLedger {
  import opened Wrappers
  import opened UsbPipes
  import opened Driver
  import opened DriverRuns
  import opened DriverSafety
  import opened DriverFields

  // ---------------------------------------------------------------- counting

  /** How often `x` occurs. */
  function Count(t: seq<Effect>, x: Effect): (n: nat) {
    if t == [] then 0 else Count(t[..|t| - 1], x) + if t[|t| - 1] == x then 1 else 0
  }

  /** References acquired minus references released. */
  function Balance(t: seq<Effect>, r: Resource): (n: int) {
    Count(t, Acquire(r)) as int - Count(t, Release(r))
  }

  function Bit(b: bool): (n: int) {
    if b then 1 else 0
  }

  lemma {:induction false} CountOne(t: seq<Effect>, y: Effect, x: Effect)
    ensures Count(t + [y], x) == Count(t, x) + Bit(x == y)
  {
    assert (t + [y])[..|t|] == t;
  }

  lemma {:induction false} CountConcat(a: seq<Effect>, b: seq<Effect>, x: Effect)
    ensures Count(a + b, x) == Count(a, x) + Count(b, x)
  {
    if b == [] {
      assert a + b == a;
    } else {
      var n := |b| - 1;
      assert a + b == (a + b[..n]) + [b[n]];
      CountOne(a + b[..n], b[n], x);
      CountConcat(a, b[..n], x);
    }
  }

  lemma {:induction false} CountAbsent(t: seq<Effect>, x: Effect)
    requires x !in t
    ensures Count(t, x) == 0
  {
    if t == [] {
    } else {
      CountAbsent(t[..|t| - 1], x);
    }
  }

  lemma {:induction false} CountedOut(t: seq<Effect>, x: Effect)
    requires Count(t, x) == 0
    ensures x !in t
  {
    if t == [] {
    } else {
      CountedOut(t[..|t| - 1], x);
      assert t == t[..|t| - 1] + [t[|t| - 1]];
    }
  }

  lemma {:induction false} TwoCounts(t: seq<Effect>, y: Effect, z: Effect, x: Effect)
    ensures Count(t + [y, z], x) == Count(t, x) + Bit(x == y) + Bit(x == z)
  {
    assert t + [y, z] == t + [y] + [z];
    CountOne(t, y, x);
    CountOne(t + [y], z, x);
  }

  /** The driver's own resources; the extra retains of Stop calls have books of their own. */
  predicate Own(r: Resource) {
    !r.Self? && !r.Provider?
  }

  predicate IsPipe(r: Resource) {
    r == InPipe || r == OutPipe
  }

  function DirectionOf(r: Resource): (d: Direction)
    requires IsPipe(r)
  {
    if r == InPipe then In else Out
  }

  // ---------------------------------------------------------------- what a start acquires

  /** How many references of kind `r` a start with the answers `e` acquires. */
  function Acquired(e: StartEnv, r: Resource): (n: nat)
    requires |e.endpoints| == |e.pipes|
  {
    match r
    case Config => Bit(Tried(e) && e.superHandleStart && e.config)
    case InPipe => if Scans(e) then CountOf(e.endpoints, In, StopPlace(e)) else 0
    case OutPipe => if Scans(e) then CountOf(e.endpoints, Out, StopPlace(e)) else 0
    case InBuffer => Bit(SetsUp(e) && Creates(e.inSetup))
    case OutBuffer => Bit(SetsUp(e) && SetupSucceeds(e.inSetup) && Creates(e.outSetup))
    case Action => Bit(StartSucceeds(e))
    case Interface => Bit(StartSucceeds(e))
    case Properties => Bit(SetsUp(e))
    case Self(_) => 0
    case Provider(_) => 0
  }

  lemma {:induction false} GainedCount(q: Resource, yes: bool, x: Effect)
    ensures Count(Gained(q, yes), x) == Bit(yes && x == Acquire(q))
  {
    if yes {
      CountOne([], Acquire(q), x);
      assert [] + [Acquire(q)] == [Acquire(q)];
    }
  }

  lemma {:induction false} OneCount(y: Effect, x: Effect)
    ensures Count([y], x) == Bit(x == y)
  {
    CountOne([], y, x);
    assert [] + [y] == [y];
  }

  lemma {:induction false} CopyCount(d: Direction, x: Effect)
    ensures Count(CopyEffect(d), x) == Bit(d == In && x == Acquire(InPipe)) + Bit(d == Out && x == Acquire(OutPipe))
  {
    OneCount(Acquire(InPipe), x);
    OneCount(Acquire(OutPipe), x);
  }

  lemma {:induction false} CopyEffectsAppend(copies: seq<Direction>, c: Direction)
    ensures CopyEffects(copies + [c]) == CopyEffects(copies) + CopyEffect(c)
  {
    assert (copies + [c])[..|copies|] == copies;
  }

  /** The references gained on a pipe are the copies of its direction. */
  lemma {:induction false} PipeCounts(copies: seq<Direction>, r: Resource)
    requires IsPipe(r)
    ensures Count(CopyEffects(copies), Acquire(r)) == Copies(copies, DirectionOf(r))
  {
    if copies == [] {
    } else {
      var before, last := copies[..|copies| - 1], copies[|copies| - 1];
      PipeCounts(before, r);
      PipeCountNext(before, last, r);
      assert before + [last] == copies;
    }
  }

  lemma {:induction false} PipeCountNext(before: seq<Direction>, last: Direction, r: Resource)
    requires IsPipe(r) && Count(CopyEffects(before), Acquire(r)) == Copies(before, DirectionOf(r))
    ensures Count(CopyEffects(before + [last]), Acquire(r)) == Copies(before + [last], DirectionOf(r))
  {
    CopyEffectsAppend(before, last);
    CopyCount(last, Acquire(r));
    CountConcat(CopyEffects(before), CopyEffect(last), Acquire(r));
    CopiesAppend(before, last, DirectionOf(r));
  }

  lemma {:induction false} OtherCounts(copies: seq<Direction>, x: Effect)
    requires x != Acquire(InPipe) && x != Acquire(OutPipe)
    ensures Count(CopyEffects(copies), x) == 0
  {
    if copies == [] {
    } else {
      var before, last := copies[..|copies| - 1], copies[|copies| - 1];
      OtherCounts(before, x);
      OtherCountNext(before, last, x);
      assert before + [last] == copies;
    }
  }

  lemma {:induction false} OtherCountNext(before: seq<Direction>, last: Direction, x: Effect)
    requires x != Acquire(InPipe) && x != Acquire(OutPipe) && Count(CopyEffects(before), x) == 0
    ensures Count(CopyEffects(before + [last]), x) == 0
  {
    CopyEffectsAppend(before, last);
    CopyCount(last, x);
    CountConcat(CopyEffects(before), CopyEffect(last), x);
  }

  /** What is gained by copying the pipes of the interrupt endpoints up to where the scan stops. */
  lemma {:induction false} InterruptCounts(e: StartEnv, x: Effect)
    requires StartPossible(e)
    ensures Count(CopyEffects(Interrupts(e.endpoints, StopPlace(e))), x) ==
            if x == Acquire(InPipe) then CountOf(e.endpoints, In, StopPlace(e))
            else if x == Acquire(OutPipe) then CountOf(e.endpoints, Out, StopPlace(e)) else 0
  {
    var ds := Interrupts(e.endpoints, StopPlace(e));
    if x == Acquire(InPipe) || x == Acquire(OutPipe) {
      PipeCounts(ds, x.r);
      InterruptsCount(e.endpoints, StopPlace(e), DirectionOf(x.r));
    } else {
      OtherCounts(ds, x);
    }
  }

  lemma {:induction false} SetupCount(e: StartEnv, x: Effect)
    ensures Count(SetupEffects(e), x) ==
            Bit(x == Acquire(Properties)) + Bit(x == Release(Properties))
            + Bit(x == Acquire(InBuffer) && Creates(e.inSetup))
            + Bit(x == Acquire(OutBuffer) && SetupSucceeds(e.inSetup) && Creates(e.outSetup))
  {
    var i, o := Gained(InBuffer, Creates(e.inSetup)), Gained(OutBuffer, SetupSucceeds(e.inSetup) && Creates(e.outSetup));
    GainedCount(InBuffer, Creates(e.inSetup), x);
    GainedCount(OutBuffer, SetupSucceeds(e.inSetup) && Creates(e.outSetup), x);
    OneCount(Acquire(Properties), x);
    OneCount(Release(Properties), x);
    CountConcat(i, o, x);
    CountConcat([Acquire(Properties)], i + o, x);
    CountConcat([Acquire(Properties)] + (i + o), [Release(Properties)], x);
  }

  lemma {:induction false} EquipCount(e: StartEnv, x: Effect)
    requires StartPossible(e)
    ensures Count(EquipEffects(e), x) ==
            if SetsUp(e) then Count(SetupEffects(e), x) + Bit(x == Acquire(Action) && StartSucceeds(e)) else 0
  {
    GainedCount(Action, StartSucceeds(e), x);
    CountConcat(SetupEffects(e), Gained(Action, StartSucceeds(e)), x);
  }

  lemma {:induction false} ScanCount(e: StartEnv, x: Effect)
    requires StartPossible(e)
    ensures Count(ScanEffects(e), x) ==
            if !Scans(e) then 0
            else
              Count(EquipEffects(e), x)
              + (if x == Acquire(InPipe) then CountOf(e.endpoints, In, StopPlace(e))
                 else if x == Acquire(OutPipe) then CountOf(e.endpoints, Out, StopPlace(e)) else 0)
  {
    InterruptCounts(e, x);
    CountConcat(CopyEffects(Interrupts(e.endpoints, StopPlace(e))), EquipEffects(e), x);
  }

  lemma {:induction false} PrepareCount(e: StartEnv, x: Effect)
    requires StartPossible(e)
    ensures Count(PrepareEffects(e), x) ==
            if Tried(e) && e.superHandleStart then Bit(x == Acquire(Config) && e.config) + Count(ScanEffects(e), x) else 0
  {
    GainedCount(Config, e.config, x);
    CountConcat(Gained(Config, e.config), ScanEffects(e), x);
  }

  lemma {:induction false} ListenCount(e: StartEnv, x: Effect)
    requires StartPossible(e) && !x.Arm? && !x.Send?
    ensures Count(ListenEffects(e), x) == Bit(x == Acquire(Interface))
  {
    var wake, arm := WakeUp(PipeOf(e, Out), |e.outSetup.mapped|, 0), Arm(PipeOf(e, In), |e.inSetup.mapped|, e.armOk);
    CountAbsent(wake, x);
    TwoCounts(wake, arm, Acquire(Interface), x);
  }

  /** The acquisitions and releases of a start, from the answers: the dictionary is the only thing it gives back. */
  lemma {:induction false} StartCounts(e: StartEnv, r: Resource)
    requires StartPossible(e)
    ensures Count(StartEffects(e), Acquire(r)) == Acquired(e, r)
    ensures Count(StartEffects(e), Release(r)) == if r == Properties then Acquired(e, r) else 0
  {
    StartAcquires(e, r);
    StartReleases(e, r);
  }

  lemma {:induction false} StartAcquires(e: StartEnv, r: Resource)
    requires StartPossible(e)
    ensures Count(StartEffects(e), Acquire(r)) == Acquired(e, r)
  {
    var n := Count(PrepareEffects(e), Acquire(r));
    assert Count(StartEffects(e), Acquire(r)) == n + Bit(r == Interface && StartSucceeds(e)) by {
      StartCount(e, Acquire(r));
    }
    PrepareAcquires(e, r);
  }

  lemma {:induction false} PrepareAcquires(e: StartEnv, r: Resource)
    requires StartPossible(e)
    ensures Count(PrepareEffects(e), Acquire(r)) == if r == Interface then 0 else Acquired(e, r)
  {
    ChainCount(e, Acquire(r));
  }

  lemma {:induction false} StartReleases(e: StartEnv, r: Resource)
    requires StartPossible(e)
    ensures Count(StartEffects(e), Release(r)) == if r == Properties then Acquired(e, r) else 0
  {
    PrepareReleases(e, r);
    assert Count(StartEffects(e), Release(r)) == Count(PrepareEffects(e), Release(r)) by { StartCount(e, Release(r)); }
  }

  lemma {:induction false} PrepareReleases(e: StartEnv, r: Resource)
    requires StartPossible(e)
    ensures Count(PrepareEffects(e), Release(r)) == if r == Properties then Acquired(e, r) else 0
  {
    ChainCount(e, Release(r));
  }

  lemma {:induction false} StartCount(e: StartEnv, x: Effect)
    requires StartPossible(e) && !x.Arm? && !x.Send?
    ensures Count(StartEffects(e), x) == Count(PrepareEffects(e), x) + Bit(x == Acquire(Interface) && StartSucceeds(e))
  {
    if StartSucceeds(e) {
      ListenCount(e, x);
      CountConcat(PrepareEffects(e), ListenEffects(e), x);
    } else {
      assert PrepareEffects(e) + [] == PrepareEffects(e);
    }
  }

  lemma {:induction false} ChainCount(e: StartEnv, x: Effect)
    requires StartPossible(e)
    ensures Count(PrepareEffects(e), x) ==
            Bit(Tried(e) && e.superHandleStart && e.config && x == Acquire(Config))
            + (if !Scans(e) then 0 else if x == Acquire(InPipe) then CountOf(e.endpoints, In, StopPlace(e))
               else if x == Acquire(OutPipe) then CountOf(e.endpoints, Out, StopPlace(e)) else 0)
            + (if SetsUp(e) then Count(SetupEffects(e), x) + Bit(x == Acquire(Action) && StartSucceeds(e)) else 0)
    ensures Count(SetupEffects(e), x) ==
            Bit(x == Acquire(Properties)) + Bit(x == Release(Properties))
            + Bit(x == Acquire(InBuffer) && Creates(e.inSetup))
            + Bit(x == Acquire(OutBuffer) && SetupSucceeds(e.inSetup) && Creates(e.outSetup))
  {
    SetupCount(e, x);
    EquipCount(e, x);
    ScanCount(e, x);
    PrepareCount(e, x);
  }

  /** A start makes no stop and no cancel, and touches no extra retain. */
  lemma {:induction false} StartStopsNothing(e: StartEnv, x: Effect)
    requires StartPossible(e) && (x.SuperStop? || x.Cancel? || ((x.Acquire? || x.Release?) && !Own(x.r)))
    ensures Count(StartEffects(e), x) == 0
  {
    if x.SuperStop? || x.Cancel? {
      StartNoStop(e, x);
    } else {
      StartNoExtra(e, x.r);
    }
  }

  lemma {:induction false} StartNoExtra(e: StartEnv, r: Resource)
    requires StartPossible(e) && !Own(r)
    ensures Count(StartEffects(e), Acquire(r)) == 0 && Count(StartEffects(e), Release(r)) == 0
  {
    assert Acquired(e, r) == 0;
    StartCounts(e, r);
  }

  lemma {:induction false} StartNoStop(e: StartEnv, x: Effect)
    requires StartPossible(e) && (x.SuperStop? || x.Cancel?)
    ensures Count(StartEffects(e), x) == 0
  {
    StartCount(e, x);
    ChainCount(e, x);
  }

  // ---------------------------------------------------------------- what free releases

  /** Whether the driver holds a reference on `r`, for `free` to release. */
  predicate Holds(d: Driver, r: Resource) {
    match r
    case Config => d.config
    case InPipe => d.inPipe.pipe.Some?
    case OutPipe => d.outPipe.pipe.Some?
    case InBuffer => d.inPipe.memory.buffer
    case OutBuffer => d.outPipe.memory.buffer
    case Action => d.action
    case Interface => d.interface
    case Properties => false
    case Self(_) => false
    case Provider(_) => false
  }

  /** How many references of kind `r` `free` releases after a start with the answers `e`. */
  function FreedBy(e: StartEnv, r: Resource): (n: nat)
    requires |e.endpoints| == |e.pipes|
  {
    if r == Interface then Bit(e.isUsbInterface)
    else if r == Properties then 0
    else Bit(Acquired(e, r) > 0)
  }

  lemma FieldsHeld(d: Driver, e: StartEnv, r: Resource)
    requires StartPossible(e) && Fields(d, e)
    ensures Bit(Holds(d, r)) == FreedBy(e, r)
  {
    StopFromVisited(e.endpoints, e.pipes, 0);
    CountZero(e.endpoints, In, StopPlace(e));
    CountZero(e.endpoints, Out, StopPlace(e));
  }

  /** `free` releases one reference for every pointer that is set. */
  lemma {:induction false} FreeCounts(d: Driver, r: Resource)
    ensures var q := Free(d);
            && Count(q.w.trace, Acquire(r)) == Count(d.w.trace, Acquire(r))
            && Count(q.w.trace, Release(r)) == Count(d.w.trace, Release(r)) + Bit(Holds(d, r))
  {
    FreeCount(d, Acquire(r));
    FreeCount(d, Release(r));
  }

  /** How many of the first `n` holdings are released by effect `x`. */
  function Hits(hs: seq<(Resource, bool)>, n: nat, x: Effect): (k: int)
    requires n <= |hs|
    decreases n
  {
    if n == 0 then 0 else Hits(hs, n - 1, x) + Bit(hs[n - 1].1 && x == Release(hs[n - 1].0))
  }

  lemma {:induction false} ReleaseFirstCount(t: seq<Effect>, hs: seq<(Resource, bool)>, n: nat, x: Effect)
    requires n <= |hs|
    ensures Count(ReleaseFirst(t, hs, n), x) == Count(t, x) + Hits(hs, n, x)
    decreases n
  {
    if n == 0 {
    } else {
      ReleaseFirstCount(t, hs, n - 1, x);
      CountOne(ReleaseFirst(t, hs, n - 1), Release(hs[n - 1].0), x);
    }
  }

  lemma {:induction false} HoldingsHit(d: Driver, x: Effect)
    ensures |Holdings(d)| == 7
    ensures Hits(Holdings(d), 7, x) == Bit(x.Release? && Holds(d, x.r))
  {
  }

  lemma {:induction false} FreeCount(d: Driver, x: Effect)
    ensures Count(Free(d).w.trace, x) == Count(d.w.trace, x) + Bit(x.Release? && Holds(d, x.r))
  {
    HoldingsHit(d, x);
    ReleaseFirstCount(d.w.trace, Holdings(d), 7, x);
  }

  // ---------------------------------------------------------------- the other steps

  /** Effects that a completion does not have. */
  predicate Countable(x: Effect) {
    x.Acquire? || x.Release? || x.SuperStop? || x.Cancel?
  }

  lemma {:induction false} HandlingAbsent(d: Driver, c: Completion, x: Effect)
    requires Countable(x)
    ensures Count(HandlingEffects(d, c) + [Request(d, c.armOk)], x) == 0
  {
    assert forall y <- HandlingEffects(d, c) :: !Countable(y);
    CountNone(HandlingEffects(d, c), x);
    CountOne(HandlingEffects(d, c), Request(d, c.armOk), x);
  }

  lemma {:induction false} CountNone(t: seq<Effect>, x: Effect)
    requires Countable(x) && forall y <- t :: !Countable(y)
    ensures Count(t, x) == 0
  {
    if t == [] {
    } else {
      CountNone(t[..|t| - 1], x);
    }
  }

  /** A completion acquires, releases and stops nothing, and leaves the rest of the world alone. */
  lemma {:induction false} CompleteCounts(d: Driver, c: Completion, x: Effect)
    requires Safe(d) && d.w.phase != Freed && d.w.pending > 0 && |c.bytes| == d.inPipe.memory.length && Countable(x)
    ensures var w := GotData(Delivered(d, c.bytes), c).w;
            Count(w.trace, x) == Count(d.w.trace, x) && w == d.w.(pending := w.pending, trace := w.trace)
  {
    var held := Delivered(d, c.bytes);
    var es := HandlingEffects(held, c) + [Request(held, c.armOk)];
    var w := GotData(held, c).w;
    assert w.trace == held.w.trace + es && w == d.w.(pending := w.pending, trace := w.trace) by {
      CompleteSafe(d, c);
      GotDataForm(held, c);
    }
    CountOne(d.w.trace, Deliver, x);
    CountConcat(held.w.trace, es, x);
    HandlingAbsent(held, c, x);
  }

  lemma {:induction false} ThreeCounts(t: seq<Effect>, a: Effect, b: Effect, c: Effect, x: Effect)
    ensures Count(t + [a, b, c], x) == Count(t, x) + Bit(x == a) + Bit(x == b) + Bit(x == c)
  {
    assert t + [a, b, c] == t + [a, b] + [c];
    TwoCounts(t, a, b, x);
    CountOne(t + [a, b], c, x);
  }

  lemma {:induction false} StopCount(d: Driver, x: Effect)
    ensures var k := d.w.stops;
            Count(Stop(d).w.trace, x) ==
            Count(d.w.trace, x)
            + if d.action then Bit(x == Acquire(Self(k))) + Bit(x == Acquire(Provider(k))) + Bit(x == Cancel(k))
              else Bit(x == SuperStop(k))
  {
    var k := d.w.stops;
    ThreeCounts(d.w.trace, Acquire(Self(k)), Acquire(Provider(k)), Cancel(k), x);
    CountOne(d.w.trace, SuperStop(k), x);
  }

  lemma {:induction false} CancelCount(d: Driver, call: nat, x: Effect)
    ensures Count(CancelDone(d, call).w.trace, x) ==
            Count(d.w.trace, x)
            + Bit(x == SuperStop(call)) + Bit(x == Release(Self(call))) + Bit(x == Release(Provider(call)))
  {
    ThreeCounts(d.w.trace, SuperStop(call), Release(Self(call)), Release(Provider(call)), x);
  }

  // ---------------------------------------------------------------- the books over a run

  function AcquiredBy(o: Option<StartEnv>, r: Resource): (n: nat) {
    if o.Some? && StartPossible(o.value) then Acquired(o.value, r) else 0
  }

  function ReleasedBy(o: Option<StartEnv>, freed: bool, r: Resource): (n: nat) {
    if r == Properties then AcquiredBy(o, r)
    else if freed && o.Some? && StartPossible(o.value) then FreedBy(o.value, r)
    else 0
  }

  /** The entry of one resource. */
  predicate Booked(d: Driver, o: Option<StartEnv>, r: Resource) {
    && Count(d.w.trace, Acquire(r)) == AcquiredBy(o, r)
    && Count(d.w.trace, Release(r)) == ReleasedBy(o, d.w.phase == Freed, r)
  }

  lemma StartBooked(d: Driver, e: StartEnv, r: Resource)
    requires Safe(d) && d.w.phase == Fresh && StartPossible(e) && Booked(d, None, r)
    ensures Booked(Start(d, e), Some(e), r)
  {
    assert Start(d, e).w.trace == d.w.trace + StartEffects(e) && Start(d, e).w.phase == Attempted by { StartForm(d, e); }
    StartCounts(e, r);
    CountConcat(d.w.trace, StartEffects(e), Acquire(r));
    CountConcat(d.w.trace, StartEffects(e), Release(r));
  }

  lemma FreeBooked(d: Driver, o: Option<StartEnv>, r: Resource)
    requires Safe(d) && Kept(d, o) && d.w.phase != Freed && Booked(d, o, r)
    ensures Booked(Free(d), o, r)
  {
    FreeCounts(d, r);
    if d.w.phase == Attempted {
      FieldsHeld(d, o.value, r);
    }
  }

  lemma {:induction false} IdleCounts(s: System, e: Event, x: Effect)
    requires Safe(s.d) && Possible(s, e) && !e.StartCall? && !e.FreeCall? && (x.Acquire? || x.Release?) && Own(x.r)
    ensures Count(Step(s, e).d.w.trace, x) == Count(s.d.w.trace, x)
    ensures Step(s, e).d.w.phase == s.d.w.phase
  {
    match e
    case Complete(c) => CompleteCounts(s.d, c, x);
    case StopCall => StopCount(s.d, x);
    case CancelFinished(call) => CancelCount(s.d, call, x);
    case _ =>
  }

  lemma StepBooked(s: System, e: Event, o: Option<StartEnv>, r: Resource)
    requires Safe(s.d) && Kept(s.d, o) && Possible(s, e) && Own(r) && Booked(s.d, o, r)
    ensures Booked(Step(s, e).d, if e.StartCall? then Some(e.e) else o, r)
  {
    if e.StartCall? {
      StartBooked(s.d, e.e, r);
    } else if e.FreeCall? {
      FreeBooked(s.d, o, r);
    } else {
      IdleCounts(s, e, Acquire(r));
      IdleCounts(s, e, Release(r));
    }
  }

  lemma {:induction false} RunBooked(s: System, events: seq<Event>, o: Option<StartEnv>, r: Resource)
    requires Safe(s.d) && Kept(s.d, o) && Legal(s, events) && Own(r) && Booked(s.d, o, r)
    ensures Booked(Run(s, events).d, StartOf(o, events), r)
    decreases |events|
  {
    if events == [] {
    } else {
      StepSafe(s, events[0]);
      StepKept(s, events[0], o);
      StepBooked(s, events[0], o, r);
      RunBooked(Step(s, events[0]), events[1..], if events[0].StartCall? then Some(events[0].e) else o, r);
    }
  }

  lemma {:induction false} StartWasPossible(s: System, events: seq<Event>, o: Option<StartEnv>)
    requires Legal(s, events) && (o.Some? ==> StartPossible(o.value))
    ensures StartOf(o, events).Some? ==> StartPossible(StartOf(o, events).value)
    decreases |events|
  {
    if events == [] {
    } else {
      StartWasPossible(Step(s, events[0]), events[1..], if events[0].StartCall? then Some(events[0].e) else o);
    }
  }

  /** The references that are out at the end of a run: acquired and not released. */
  function Lost(events: seq<Event>, r: Resource): (n: int)
    requires Legal(START, events)
  {
    Balance(Run(START, events).d.w.trace, r)
  }

  /**
   The resource ledger of every run, in every state. A start acquires exactly what its answers say, wherever it fails;
   it gives back only the property dictionary, and nothing else is acquired. `free` releases every buffer, the action and
   the configuration descriptor exactly as often as they were acquired, one reference per pipe slot that was filled, and
   the interface if it was taken; so on a freed driver those are balanced, all but one of the references copied into a
   slot are lost, and the interface is released once too often exactly if it was taken and the start did not get as far
   as retaining it.
   */
  lemma {:induction false} LedgerTheorem(events: seq<Event>, r: Resource)
    requires Legal(START, events) && Own(r)
    ensures var t, freed, o := Run(START, events).d.w.trace, Run(START, events).d.w.phase == Freed, StartOf(None, events);
            && (o.Some? ==> StartPossible(o.value))
            && Count(t, Acquire(r)) == AcquiredBy(o, r)
            && Count(t, Release(r)) == ReleasedBy(o, freed, r)
            && (freed ==>
                  Lost(events, r) ==
                  if r == Interface then if o.Some? && o.value.isUsbInterface && !Succeeded(o) then -1 else 0
                  else if IsPipe(r) && AcquiredBy(o, r) > 0 then AcquiredBy(o, r) - 1
                  else 0)
  {
    assert Safe(START.d);
    RunBooked(START, events, None, r);
    StartWasPossible(START, events, None);
    FreedBalance(Run(START, events).d, StartOf(None, events), r);
  }

  lemma FreedBalance(d: Driver, o: Option<StartEnv>, r: Resource)
    requires Booked(d, o, r) && Own(r) && (o.Some? ==> StartPossible(o.value))
    ensures d.w.phase == Freed ==>
              Balance(d.w.trace, r) ==
              if r == Interface then if o.Some? && o.value.isUsbInterface && !Succeeded(o) then -1 else 0
              else if IsPipe(r) && AcquiredBy(o, r) > 0 then AcquiredBy(o, r) - 1
              else 0
  {
  }

  /**
   The pipe references of every run that ends with `free` and had a start with the answers `e`, whether that got through
   or failed anywhere. Where the endpoint scan stops is `n`. None is lost exactly if the scan was not reached or met
   at most one interrupt endpoint of the direction; otherwise all but one are; and at most one of the two slots loses any.
   */
  lemma {:induction false} PipeTheorem(events: seq<Event>, e: StartEnv, n: nat)
    requires Legal(START, events) && Run(START, events).d.w.phase == Freed && StartOf(None, events) == Some(e)
    requires Visited(e.endpoints, e.pipes, n)
    ensures forall r | IsPipe(r) ::
              var met := CountOf(e.endpoints, DirectionOf(r), n);
              && (Lost(events, r) == 0 <==> !Scans(e) || met <= 1)
              && (Lost(events, r) != 0 ==> Lost(events, r) == met - 1)
    ensures Lost(events, InPipe) == 0 || Lost(events, OutPipe) == 0
  {
    StopFromVisited(e.endpoints, e.pipes, 0);
    VisitedUnique(e.endpoints, e.pipes, n, StopPlace(e));
    OneDirectionOnce(e.endpoints, e.pipes, n);
    LedgerTheorem(events, InPipe);
    LedgerTheorem(events, OutPipe);
  }
}
