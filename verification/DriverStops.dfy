/**
 The stop protocol, told from the events of a run. A Stop call after a start that got through retains the driver and its
 provider and cancels the action; it stops the superclass, and gives the references back, when that cancel is finished.
 Any other Stop call stops the superclass at once.
 */
module DriverStops {
  import opened Wrappers
  import opened UsbPipes
  import opened Driver
  import opened DriverRuns
  import opened DriverSafety
  import opened DriverFields
  import opened DriverLedger

  // ---------------------------------------------------------------- what the events say

  /** The number of Stop calls; they are numbered from 0. */
  function Stops(events: seq<Event>): (n: nat) {
    if events == [] then 0
    else Stops(events[..|events| - 1]) + if events[|events| - 1].StopCall? then 1 else 0
  }

  predicate GetsThrough(e: Event) {
    e.StartCall? && StartPossible(e.e) && StartSucceeds(e.e)
  }

  /** A start got through. */
  predicate Through(events: seq<Event>) {
    exists i | 0 <= i < |events| :: GetsThrough(events[i])
  }

  /** Event `i` is Stop call number `call`, made after a start that got through. */
  predicate CancelsAt(events: seq<Event>, i: nat, call: nat) {
    i < |events| && events[i].StopCall? && Stops(events[..i]) == call && Through(events[..i])
  }

  predicate Cancels(events: seq<Event>, call: nat) {
    exists i | 0 <= i < |events| :: CancelsAt(events, i, call)
  }

  /** No finished cancel of `call` after event `i`. */
  predicate Unfinished(events: seq<Event>, i: nat, call: nat) {
    forall j | i < j < |events| :: events[j] != CancelFinished(call)
  }

  predicate InFlight(events: seq<Event>, call: nat) {
    exists i | 0 <= i < |events| :: CancelsAt(events, i, call) && Unfinished(events, i, call)
  }

  /** References held by others: one at first, one more for every retain, one less for every release. */
  function Others(events: seq<Event>): (n: int) {
    if events == [] then 1
    else
      var e := events[|events| - 1];
      Others(events[..|events| - 1]) + if e.RetainByOther? then 1 else if e.ReleaseByOther? then -1 else 0
  }

  // ---------------------------------------------------------------- one event more

  lemma Taken<T>(before: seq<T>, e: T, i: nat)
    requires i <= |before|
    ensures (before + [e])[..i] == before[..i] && before[..|before|] == before
  {
  }

  lemma {:induction false} StopsNext(before: seq<Event>, e: Event)
    ensures Stops(before + [e]) == Stops(before) + if e.StopCall? then 1 else 0
    ensures Others(before + [e]) == Others(before) + if e.RetainByOther? then 1 else if e.ReleaseByOther? then -1 else 0
  {
    Taken(before, e, |before|);
  }

  lemma {:induction false} StopsGrow(events: seq<Event>, i: nat)
    requires i <= |events|
    ensures Stops(events[..i]) <= Stops(events)
  {
    if i == |events| {
      assert events[..i] == events;
    } else {
      StopsGrow(events[..|events| - 1], i);
      assert events[..|events| - 1][..i] == events[..i];
    }
  }

  lemma ThroughNext(before: seq<Event>, e: Event)
    ensures Through(before + [e]) <==> Through(before) || GetsThrough(e)
  {
    if Through(before) {
      var i :| 0 <= i < |before| && GetsThrough(before[i]);
      assert (before + [e])[i] == before[i];
    }
    if GetsThrough(e) {
      assert (before + [e])[|before|] == e;
    }
  }

  lemma {:induction false} CancelsAtNext(before: seq<Event>, e: Event, i: nat, call: nat)
    ensures CancelsAt(before + [e], i, call) <==>
            if i == |before| then e.StopCall? && Stops(before) == call && Through(before) else CancelsAt(before, i, call)
  {
    if i <= |before| {
      Taken(before, e, i);
    }
  }

  /** A call that cancels has a number below the number of calls. */
  lemma {:induction false} CancelsNumber(events: seq<Event>, i: nat, call: nat)
    requires CancelsAt(events, i, call)
    ensures call < Stops(events)
  {
    StopsGrow(events, i + 1);
    StopsNext(events[..i], events[i]);
    assert events[..i] + [events[i]] == events[..i + 1];
  }

  lemma {:induction false} CancelsNext(before: seq<Event>, e: Event, call: nat)
    ensures Cancels(before + [e], call) <==>
            Cancels(before, call) || (e.StopCall? && Stops(before) == call && Through(before))
  {
    CancelsAtNext(before, e, |before|, call);
    if Cancels(before, call) {
      var i: nat :| i < |before| && CancelsAt(before, i, call);
      CancelsAtNext(before, e, i, call);
    }
    if Cancels(before + [e], call) {
      var i: nat :| i < |before + [e]| && CancelsAt(before + [e], i, call);
      CancelsAtNext(before, e, i, call);
    }
  }

  lemma UnfinishedNext(before: seq<Event>, e: Event, i: nat, call: nat)
    requires i < |before|
    ensures Unfinished(before + [e], i, call) <==> Unfinished(before, i, call) && e != CancelFinished(call)
  {
    if Unfinished(before + [e], i, call) {
      assert (before + [e])[|before|] == e;
      forall j | i < j < |before|
        ensures before[j] != CancelFinished(call)
      {
        assert (before + [e])[j] == before[j];
      }
    }
  }

  lemma {:induction false} InFlightNext(before: seq<Event>, e: Event, call: nat)
    ensures InFlight(before + [e], call) <==>
            || (InFlight(before, call) && e != CancelFinished(call))
            || (e.StopCall? && Stops(before) == call && Through(before))
  {
    CancelsAtNext(before, e, |before|, call);
    if InFlight(before, call) && e != CancelFinished(call) {
      var i: nat :| i < |before| && CancelsAt(before, i, call) && Unfinished(before, i, call);
      CancelsAtNext(before, e, i, call);
      UnfinishedNext(before, e, i, call);
    }
    if e.StopCall? && Stops(before) == call && Through(before) {
      assert CancelsAt(before + [e], |before|, call) && Unfinished(before + [e], |before|, call);
    }
    if InFlight(before + [e], call) {
      var i: nat :| i < |before + [e]| && CancelsAt(before + [e], i, call) && Unfinished(before + [e], i, call);
      CancelsAtNext(before, e, i, call);
      if i < |before| {
        UnfinishedNext(before, e, i, call);
      }
    }
  }

  // ---------------------------------------------------------------- what the driver does

  /** The life of the driver follows the events. */
  predicate Follows(d: Driver, events: seq<Event>) {
    && d.w.stops == Stops(events) && d.w.external == Others(events)
    && (d.w.phase == Fresh ==> !Through(events))
    && (d.w.phase == Attempted ==> d.action == Through(events))
  }

  /** The number of references that Stop call `call` has taken, and given back. */
  predicate Retained(t: seq<Effect>, r: Resource, taken: bool, back: bool) {
    Count(t, Acquire(r)) == Bit(taken) && Count(t, Release(r)) == Bit(back)
  }

  /** The state of Stop call number `call`. */
  predicate CallFollows(d: Driver, events: seq<Event>, call: nat) {
    var t, cancels, flying := d.w.trace, Cancels(events, call), InFlight(events, call);
    && (call in d.w.inFlight <==> flying)
    && Count(t, SuperStop(call)) == Bit(call < Stops(events) && !flying)
    && Count(t, Cancel(call)) == Bit(cancels)
    && Retained(t, Self(call), cancels, cancels && !flying)
    && Retained(t, Provider(call), cancels, cancels && !flying)
  }

  lemma {:induction false} FlightIsCancel(events: seq<Event>, call: nat)
    ensures InFlight(events, call) ==> Cancels(events, call)
    ensures Cancels(events, call) ==> call < Stops(events)
  {
    if Cancels(events, call) {
      var i: nat :| i < |events| && CancelsAt(events, i, call);
      CancelsNumber(events, i, call);
    }
  }

  lemma StepFollows(s: System, e: Event, before: seq<Event>)
    requires Safe(s.d) && Possible(s, e) && Follows(s.d, before)
    ensures Follows(Step(s, e).d, before + [e])
  {
    StopsNext(before, e);
    ThroughNext(before, e);
    if e.StartCall? {
      StartForm(s.d, e.e);
    } else if e.Complete? {
      CompleteSafe(s.d, e.c);
      GotDataForm(Delivered(s.d, e.c.bytes), e.c);
    }
  }

  /** How often each effect of Stop call `call` occurs after an event that is no stop and no finished cancel. */
  lemma {:induction false} StartQuiet(d: Driver, e: StartEnv, x: Effect)
    requires Blank(d) && StartPossible(e)
    requires x.SuperStop? || x.Cancel? || ((x.Acquire? || x.Release?) && !Own(x.r))
    ensures Count(Start(d, e).w.trace, x) == Count(d.w.trace, x)
    ensures Start(d, e).w.inFlight == d.w.inFlight
  {
    var w := Start(d, e).w;
    assert w.trace == d.w.trace + StartEffects(e) && w.inFlight == d.w.inFlight by { StartForm(d, e); }
    StartStopsNothing(e, x);
    CountConcat(d.w.trace, StartEffects(e), x);
  }

  lemma {:induction false} QuietCounts(s: System, e: Event, x: Effect)
    requires Safe(s.d) && Possible(s, e) && !e.StopCall? && !e.CancelFinished?
    requires x.SuperStop? || x.Cancel? || ((x.Acquire? || x.Release?) && !Own(x.r))
    ensures Count(Step(s, e).d.w.trace, x) == Count(s.d.w.trace, x)
    ensures Step(s, e).d.w.inFlight == s.d.w.inFlight
  {
    if e.StartCall? {
      StartQuiet(s.d, e.e, x);
    } else if e.Complete? {
      CompleteCounts(s.d, e.c, x);
    } else if e.FreeCall? {
      FreeCount(s.d, x);
    }
  }

  lemma QuietCallFollows(s: System, e: Event, before: seq<Event>, call: nat)
    requires Safe(s.d) && Possible(s, e) && !e.StopCall? && !e.CancelFinished? && CallFollows(s.d, before, call)
    ensures CallFollows(Step(s, e).d, before + [e], call)
  {
    StopsNext(before, e);
    CancelsNext(before, e, call);
    InFlightNext(before, e, call);
    QuietCounts(s, e, SuperStop(call));
    QuietCounts(s, e, Cancel(call));
    QuietCounts(s, e, Acquire(Self(call)));
    QuietCounts(s, e, Release(Self(call)));
    QuietCounts(s, e, Acquire(Provider(call)));
    QuietCounts(s, e, Release(Provider(call)));
  }

  lemma StopCallFollows(s: System, before: seq<Event>, call: nat)
    requires Safe(s.d) && Possible(s, StopCall) && Follows(s.d, before) && CallFollows(s.d, before, call)
    ensures CallFollows(Step(s, StopCall).d, before + [StopCall], call)
  {
    StopsNext(before, StopCall);
    CancelsNext(before, StopCall, call);
    InFlightNext(before, StopCall, call);
    FlightIsCancel(before, call);
    StopDoes(s.d, call);
  }

  /** What a Stop call does to the books of Stop call `call`, its own or another. */
  lemma StopDoes(d: Driver, call: nat)
    ensures var t, u, own := d.w.trace, Stop(d).w.trace, call == d.w.stops;
            && (call in Stop(d).w.inFlight <==> call in d.w.inFlight || (own && d.action))
            && Count(u, SuperStop(call)) == Count(t, SuperStop(call)) + Bit(own && !d.action)
            && Count(u, Cancel(call)) == Count(t, Cancel(call)) + Bit(own && d.action)
            && Count(u, Acquire(Self(call))) == Count(t, Acquire(Self(call))) + Bit(own && d.action)
            && Count(u, Acquire(Provider(call))) == Count(t, Acquire(Provider(call))) + Bit(own && d.action)
            && Count(u, Release(Self(call))) == Count(t, Release(Self(call)))
            && Count(u, Release(Provider(call))) == Count(t, Release(Provider(call)))
  {
    StopCount(d, SuperStop(call));
    StopCount(d, Cancel(call));
    StopCount(d, Acquire(Self(call)));
    StopCount(d, Release(Self(call)));
    StopCount(d, Acquire(Provider(call)));
    StopCount(d, Release(Provider(call)));
  }

  lemma CancelCallFollows(s: System, other: nat, before: seq<Event>, call: nat)
    requires Safe(s.d) && Possible(s, CancelFinished(other)) && CallFollows(s.d, before, call)
    ensures CallFollows(Step(s, CancelFinished(other)).d, before + [CancelFinished(other)], call)
  {
    var e := CancelFinished(other);
    StopsNext(before, e);
    CancelsNext(before, e, call);
    InFlightNext(before, e, call);
    FlightIsCancel(before, call);
    CancelDoes(s.d, other, call);
  }

  /** What a finished cancel does to the books of Stop call `call`. */
  lemma CancelDoes(d: Driver, other: nat, call: nat)
    ensures var t, u, own := d.w.trace, CancelDone(d, other).w.trace, call == other;
            && (call in CancelDone(d, other).w.inFlight <==> call in d.w.inFlight && !own)
            && Count(u, SuperStop(call)) == Count(t, SuperStop(call)) + Bit(own)
            && Count(u, Cancel(call)) == Count(t, Cancel(call))
            && Count(u, Acquire(Self(call))) == Count(t, Acquire(Self(call)))
            && Count(u, Acquire(Provider(call))) == Count(t, Acquire(Provider(call)))
            && Count(u, Release(Self(call))) == Count(t, Release(Self(call))) + Bit(own)
            && Count(u, Release(Provider(call))) == Count(t, Release(Provider(call))) + Bit(own)
  {
    CancelCount(d, other, SuperStop(call));
    CancelCount(d, other, Cancel(call));
    CancelCount(d, other, Acquire(Self(call)));
    CancelCount(d, other, Release(Self(call)));
    CancelCount(d, other, Acquire(Provider(call)));
    CancelCount(d, other, Release(Provider(call)));
  }

  lemma StepCallFollows(s: System, e: Event, before: seq<Event>, call: nat)
    requires Safe(s.d) && Possible(s, e) && Follows(s.d, before) && CallFollows(s.d, before, call)
    ensures CallFollows(Step(s, e).d, before + [e], call)
  {
    if e.StopCall? {
      StopCallFollows(s, before, call);
    } else if e.CancelFinished? {
      CancelCallFollows(s, e.call, before, call);
    } else {
      QuietCallFollows(s, e, before, call);
    }
  }

  /** A run is the run of all events but the last, and then the last. */
  lemma {:induction false} RunLast(s: System, events: seq<Event>)
    requires events != [] && Legal(s, events)
    ensures var before, e := events[..|events| - 1], events[|events| - 1];
            Legal(s, before) && Possible(Run(s, before), e) && Run(s, events) == Step(Run(s, before), e)
    decreases |events|
  {
    var before := events[..|events| - 1];
    if before == [] {
      assert events[1..] == [];
    } else {
      assert events[1..][..|events| - 2] == before[1..];
      RunLast(Step(s, events[0]), events[1..]);
    }
  }

  lemma NextFollows(s: System, e: Event, before: seq<Event>, events: seq<Event>, call: nat)
    requires Safe(s.d) && Possible(s, e) && Follows(s.d, before) && CallFollows(s.d, before, call)
    requires events != [] && before == events[..|events| - 1] && e == events[|events| - 1]
    ensures Follows(Step(s, e).d, events) && CallFollows(Step(s, e).d, events, call)
  {
    StepFollows(s, e, before);
    StepCallFollows(s, e, before, call);
    assert before + [e] == events;
  }

  lemma {:induction false} RunFollows(events: seq<Event>, call: nat)
    requires Legal(START, events)
    ensures Follows(Run(START, events).d, events) && CallFollows(Run(START, events).d, events, call)
    decreases |events|
  {
    if events == [] {
    } else {
      var before, e := events[..|events| - 1], events[|events| - 1];
      RunLast(START, events);
      RunFollows(before, call);
      RunSafe(START, before);
      NextFollows(Run(START, before), e, before, events, call);
    }
  }

  // ---------------------------------------------------------------- who keeps the driver alive

  /** References are those of others and of the Stop calls in flight; a freed driver has none. */
  predicate Alive(d: Driver) {
    && d.w.refs == d.w.external + |d.w.inFlight|
    && (d.w.phase == Freed ==> d.w.refs == 0)
    && forall k <- d.w.inFlight :: k < d.w.stops
  }

  lemma StepAlive(s: System, e: Event)
    requires Safe(s.d) && Alive(s.d) && Possible(s, e)
    ensures Alive(Step(s, e).d)
  {
    var w := s.d.w;
    if e.StartCall? {
      StartForm(s.d, e.e);
    } else if e.Complete? {
      CompleteCounts(s.d, e.c, SuperStop(0));
    } else if e.CancelFinished? {
      assert |w.inFlight - {e.call}| == |w.inFlight| - 1;
    }
  }

  lemma {:induction false} RunAlive(s: System, events: seq<Event>)
    requires Safe(s.d) && Alive(s.d) && Legal(s, events)
    ensures Alive(Run(s, events).d)
    decreases |events|
  {
    if events == [] {
    } else {
      StepSafe(s, events[0]);
      StepAlive(s, events[0]);
      RunAlive(Step(s, events[0]), events[1..]);
    }
  }

  // ---------------------------------------------------------------- the theorem

  /** What a run with these events has done for Stop call `call`. */
  predicate StopSettled(d: Driver, events: seq<Event>, call: nat) {
    var t, cancels, flying := d.w.trace, Cancels(events, call), InFlight(events, call);
    && (call in d.w.inFlight <==> flying)
    // The superclass is stopped once: at once without a start that got through, else when the cancel is finished.
    && Count(t, SuperStop(call)) == Bit(call < Stops(events) && !flying)
    // One cancel and one extra reference each, exactly after such a start; they are out while the cancel is in flight.
    && Count(t, Cancel(call)) == Count(t, Acquire(Self(call))) == Count(t, Acquire(Provider(call))) == Bit(cancels)
    && Balance(t, Self(call)) == Balance(t, Provider(call)) == Bit(flying)
    && (flying ==> d.w.refs > 0 && d.w.phase != Freed)
  }

  /**
   The stop protocol of every run, from its events alone: how many Stop calls there were, which of them are waiting for
   their cancel, what each has retained, cancelled, stopped and released, and how many references the driver has.
   */
  lemma {:induction false} StopTheorem(events: seq<Event>, call: nat)
    requires Legal(START, events)
    ensures var d := Run(START, events).d;
            && d.w.stops == Stops(events)
            && d.w.refs == Others(events) + |d.w.inFlight|
            && StopSettled(d, events, call)
  {
    assert Safe(START.d) && Alive(START.d);
    RunFollows(events, call);
    RunAlive(START, events);
    FlightIsCancel(events, call);
  }

  // ---------------------------------------------------------------- order

  /** Wherever `x` occurs, `y` has occurred before. */
  predicate After(t: seq<Effect>, x: Effect, y: Effect) {
    forall i | 0 <= i < |t| && t[i] == x :: y in t[..i]
  }

  lemma {:induction false} NoneAdded(t: seq<Effect>, u: seq<Effect>, x: Effect, y: Effect)
    requires After(t, x, y) && t <= u && Count(u, x) == Count(t, x)
    ensures After(u, x, y)
  {
    var added := u[|t|..];
    assert u == t + added;
    CountConcat(t, added, x);
    CountedOut(added, x);
    forall i | 0 <= i < |u| && u[i] == x
      ensures y in u[..i]
    {
      assert i < |t|;
      assert u[..i] == t[..i];
    }
  }

  lemma TraceGrows(s: System, e: Event)
    requires Safe(s.d) && Possible(s, e)
    ensures s.d.w.trace <= Step(s, e).d.w.trace
  {
    if e.StartCall? {
      StartForm(s.d, e.e);
    } else if e.Complete? {
      CompleteSafe(s.d, e.c);
      GotDataForm(Delivered(s.d, e.c.bytes), e.c);
    } else {
      var es := OtherStepForm(s, e);
    }
  }

  /** Three effects at once, of which the first comes before the others. */
  lemma ThreeInOrder(t: seq<Effect>, a: Effect, b: Effect, c: Effect, x: Effect, y: Effect)
    requires After(t, x, y) && (x == b ==> y == a) && (x == c ==> y == a || y == b) && x != a
    ensures After(t + [a, b, c], x, y)
  {
    var u := t + [a, b, c];
    forall i | 0 <= i < |u| && u[i] == x
      ensures y in u[..i]
    {
      if i < |t| {
        assert u[..i] == t[..i];
      } else if y == a {
        assert u[..i][|t|] == a;
      } else {
        assert u[..i][|t| + 1] == b;
      }
    }
  }

  /** What comes after what, for Stop call `call`. */
  predicate InOrder(t: seq<Effect>, call: nat) {
    && After(t, Cancel(call), Acquire(Self(call))) && After(t, Cancel(call), Acquire(Provider(call)))
    && After(t, Release(Self(call)), SuperStop(call)) && After(t, Release(Provider(call)), SuperStop(call))
  }

  lemma StopInOrder(t: seq<Effect>, own: nat, call: nat)
    requires InOrder(t, call)
    ensures InOrder(t + StopEffects(own), call)
  {
    var a, b, c := Acquire(Self(own)), Acquire(Provider(own)), Cancel(own);
    ThreeInOrder(t, a, b, c, Cancel(call), Acquire(Self(call)));
    ThreeInOrder(t, a, b, c, Cancel(call), Acquire(Provider(call)));
    ThreeInOrder(t, a, b, c, Release(Self(call)), SuperStop(call));
    ThreeInOrder(t, a, b, c, Release(Provider(call)), SuperStop(call));
  }

  lemma FinalizerInOrder(t: seq<Effect>, own: nat, call: nat)
    requires InOrder(t, call)
    ensures InOrder(t + [SuperStop(own), Release(Self(own)), Release(Provider(own))], call)
  {
    var a, b, c := SuperStop(own), Release(Self(own)), Release(Provider(own));
    ThreeInOrder(t, a, b, c, Cancel(call), Acquire(Self(call)));
    ThreeInOrder(t, a, b, c, Cancel(call), Acquire(Provider(call)));
    ThreeInOrder(t, a, b, c, Release(Self(call)), SuperStop(call));
    ThreeInOrder(t, a, b, c, Release(Provider(call)), SuperStop(call));
  }

  lemma {:induction false} NoneInOrder(t: seq<Effect>, u: seq<Effect>, call: nat)
    requires InOrder(t, call) && t <= u && Count(u, Cancel(call)) == Count(t, Cancel(call))
    requires Count(u, Release(Self(call))) == Count(t, Release(Self(call)))
    requires Count(u, Release(Provider(call))) == Count(t, Release(Provider(call)))
    ensures InOrder(u, call)
  {
    NoneAdded(t, u, Cancel(call), Acquire(Self(call)));
    NoneAdded(t, u, Cancel(call), Acquire(Provider(call)));
    NoneAdded(t, u, Release(Self(call)), SuperStop(call));
    NoneAdded(t, u, Release(Provider(call)), SuperStop(call));
  }

  lemma StepInOrder(s: System, e: Event, call: nat)
    requires Safe(s.d) && Possible(s, e) && InOrder(s.d.w.trace, call)
    ensures InOrder(Step(s, e).d.w.trace, call)
  {
    var t, u := s.d.w.trace, Step(s, e).d.w.trace;
    if e.StopCall? && s.d.action {
      StopInOrder(t, s.d.w.stops, call);
    } else if e.CancelFinished? {
      FinalizerInOrder(t, e.call, call);
    } else {
      TraceGrows(s, e);
      NoStopCounts(s, e, Cancel(call));
      NoStopCounts(s, e, Release(Self(call)));
      NoStopCounts(s, e, Release(Provider(call)));
      NoneInOrder(t, u, call);
    }
  }

  lemma {:induction false} NoStopCounts(s: System, e: Event, x: Effect)
    requires Safe(s.d) && Possible(s, e) && !(e.StopCall? && s.d.action) && !e.CancelFinished?
    requires x.Cancel? || (x.Release? && !Own(x.r))
    ensures Count(Step(s, e).d.w.trace, x) == Count(s.d.w.trace, x)
  {
    if e.StopCall? {
      StopCount(s.d, x);
    } else {
      QuietCounts(s, e, x);
    }
  }

  lemma {:induction false} RunInOrder(s: System, events: seq<Event>, call: nat)
    requires Safe(s.d) && Legal(s, events) && InOrder(s.d.w.trace, call)
    ensures InOrder(Run(s, events).d.w.trace, call)
    decreases |events|
  {
    if events == [] {
    } else {
      StepSafe(s, events[0]);
      StepInOrder(s, events[0], call);
      RunInOrder(Step(s, events[0]), events[1..], call);
    }
  }

  /**
   In every run a Stop call cancels only after it has taken its two references, and gives them back only after it has
   stopped the superclass.
   */
  lemma {:induction false} StopOrderTheorem(events: seq<Event>, call: nat)
    requires Legal(START, events)
    ensures InOrder(Run(START, events).d.w.trace, call)
  {
    assert Safe(START.d);
    RunInOrder(START, events, call);
  }

  // ---------------------------------------------------------------- never released before it was acquired

  /** At no time has `r` been released more often than it was acquired. */
  predicate Solvent(t: seq<Effect>, r: Resource) {
    forall i | 0 <= i <= |t| :: Balance(t[..i], r) >= 0
  }

  /** What is added releases no more than what is held. */
  lemma {:induction false} SolventAfter(t: seq<Effect>, u: seq<Effect>, r: Resource)
    requires Solvent(t, r) && t <= u && Count(u, Release(r)) - Count(t, Release(r)) <= Balance(t, r)
    ensures Solvent(u, r)
  {
    forall i | 0 <= i <= |u|
      ensures Balance(u[..i], r) >= 0
    {
      if i <= |t| {
        assert u[..i] == t[..i];
      } else {
        assert u[..i] == t + u[|t|..i] && u == u[..i] + u[i..];
        CountConcat(t, u[|t|..i], Acquire(r));
        CountConcat(u[..i], u[i..], Release(r));
      }
    }
  }

  lemma SolventConcat(a: seq<Effect>, b: seq<Effect>, r: Resource)
    requires Solvent(a, r) && Solvent(b, r)
    ensures Solvent(a + b, r)
  {
    forall i | 0 <= i <= |a + b|
      ensures Balance((a + b)[..i], r) >= 0
    {
      if i <= |a| {
        assert (a + b)[..i] == a[..i];
      } else {
        assert (a + b)[..i] == a + b[..i - |a|] && a[..|a|] == a;
        CountConcat(a, b[..i - |a|], Acquire(r));
        CountConcat(a, b[..i - |a|], Release(r));
        assert Balance(a, r) >= 0 && Balance(b[..i - |a|], r) >= 0;
      }
    }
  }

  predicate NoRelease(es: seq<Effect>) {
    forall x <- es :: !x.Release?
  }

  lemma NoReleaseSolvent(es: seq<Effect>, r: Resource)
    requires NoRelease(es)
    ensures Solvent(es, r)
  {
    forall i | 0 <= i <= |es|
      ensures Balance(es[..i], r) >= 0
    {
      assert forall x <- es[..i] :: x in es;
      CountAbsent(es[..i], Release(r));
    }
  }

  lemma {:induction false} CopiesNoRelease(copies: seq<Direction>)
    ensures NoRelease(CopyEffects(copies))
  {
    if copies == [] {
    } else {
      CopiesNoRelease(copies[..|copies| - 1]);
    }
  }

  /** Something is acquired, other things may be, and then it is released. */
  lemma BracketSolvent(q: Resource, made: seq<Effect>, r: Resource)
    requires NoRelease(made)
    ensures Solvent([Acquire(q)] + made + [Release(q)], r)
  {
    var t, u := [Acquire(q)] + made, [Acquire(q)] + made + [Release(q)];
    NoReleaseSolvent(t, r);
    CountAbsent(t, Release(r));
    OneCount(Acquire(q), Acquire(r));
    CountConcat([Acquire(q)], made, Acquire(r));
    CountOne(t, Release(q), Release(r));
    SolventAfter(t, u, r);
  }

  lemma EquipSolvent(e: StartEnv, r: Resource)
    requires StartPossible(e)
    ensures Solvent(EquipEffects(e), r)
  {
    var made := Gained(InBuffer, Creates(e.inSetup)) + Gained(OutBuffer, SetupSucceeds(e.inSetup) && Creates(e.outSetup));
    BracketSolvent(Properties, made, r);
    NoReleaseSolvent(Gained(Action, StartSucceeds(e)), r);
    SolventConcat(SetupEffects(e), Gained(Action, StartSucceeds(e)), r);
  }

  lemma PrepareSolvent(e: StartEnv, r: Resource)
    requires StartPossible(e)
    ensures Solvent(PrepareEffects(e), r)
  {
    var copies := CopyEffects(Interrupts(e.endpoints, StopPlace(e)));
    CopiesNoRelease(Interrupts(e.endpoints, StopPlace(e)));
    NoReleaseSolvent(copies, r);
    EquipSolvent(e, r);
    SolventConcat(copies, EquipEffects(e), r);
    NoReleaseSolvent(Gained(Config, e.config), r);
    SolventConcat(Gained(Config, e.config), ScanEffects(e), r);
  }

  /** A start never releases what it has not acquired. */
  lemma StartEffectsSolvent(e: StartEnv, r: Resource)
    requires StartPossible(e)
    ensures Solvent(StartEffects(e), r)
  {
    PrepareSolvent(e, r);
    ListenSolvent(e, r);
    SolventEither(PrepareEffects(e), ListenEffects(e), StartSucceeds(e), r);
  }

  lemma ListenSolvent(e: StartEnv, r: Resource)
    requires StartPossible(e)
    ensures Solvent(ListenEffects(e), r)
  {
    NoReleaseSolvent(ListenEffects(e), r);
  }

  lemma SolventEither(a: seq<Effect>, b: seq<Effect>, both: bool, r: Resource)
    requires Solvent(a, r) && Solvent(b, r)
    ensures Solvent(a + if both then b else [], r)
  {
    SolventConcat(a, b, r);
    assert a + [] == a;
  }

  lemma {:induction false} FreeCovered(d: Driver, o: Option<StartEnv>, r: Resource)
    requires Safe(d) && Kept(d, o) && d.w.phase != Freed && r != Interface && (Own(r) ==> Booked(d, o, r))
    requires Balance(d.w.trace, r) >= 0
    ensures Count(Free(d).w.trace, Release(r)) - Count(d.w.trace, Release(r)) <= Balance(d.w.trace, r)
  {
    FreeCount(d, Release(r));
    if Own(r) && d.w.phase == Attempted {
      FieldsHeld(d, o.value, r);
    }
  }

  lemma {:induction false} CancelCovered(d: Driver, other: nat, r: Resource, before: seq<Event>, call: nat)
    requires other in d.w.inFlight && Balance(d.w.trace, r) >= 0
    requires Own(r) || (r.call == call && CallFollows(d, before, call))
    ensures Count(CancelDone(d, other).w.trace, Release(r)) - Count(d.w.trace, Release(r)) <= Balance(d.w.trace, r)
  {
    CancelCount(d, other, Release(r));
    FlightIsCancel(before, call);
  }

  /** Steps other than a start release only what is held. */
  lemma {:induction false} Covered(s: System, e: Event, o: Option<StartEnv>, r: Resource, before: seq<Event>, call: nat)
    requires Safe(s.d) && Kept(s.d, o) && Possible(s, e) && !e.StartCall? && r != Interface
    requires if Own(r) then Booked(s.d, o, r) else r.call == call && CallFollows(s.d, before, call)
    requires Balance(s.d.w.trace, r) >= 0
    ensures Count(Step(s, e).d.w.trace, Release(r)) - Count(s.d.w.trace, Release(r)) <= Balance(s.d.w.trace, r)
  {
    if e.FreeCall? {
      FreeCovered(s.d, o, r);
    } else if e.CancelFinished? {
      CancelCovered(s.d, e.call, r, before, call);
    } else if e.StopCall? {
      StopCount(s.d, Release(r));
    } else if e.Complete? {
      CompleteCounts(s.d, e.c, Release(r));
    }
  }

  lemma StartSolvent(d: Driver, e: StartEnv, r: Resource)
    requires Safe(d) && d.w.phase == Fresh && StartPossible(e) && Solvent(d.w.trace, r)
    ensures Solvent(Start(d, e).w.trace, r)
  {
    assert Start(d, e).w.trace == d.w.trace + StartEffects(e) by { StartForm(d, e); }
    StartEffectsSolvent(e, r);
    SolventConcat(d.w.trace, StartEffects(e), r);
  }

  lemma NotShort(t: seq<Effect>, r: Resource)
    requires Solvent(t, r)
    ensures Balance(t, r) >= 0
  {
    assert t[..|t|] == t;
  }

  lemma StepSolvent(s: System, e: Event, o: Option<StartEnv>, r: Resource, before: seq<Event>, call: nat)
    requires Safe(s.d) && Kept(s.d, o) && Possible(s, e) && r != Interface && Solvent(s.d.w.trace, r)
    requires if Own(r) then Booked(s.d, o, r) else r.call == call && CallFollows(s.d, before, call)
    ensures Solvent(Step(s, e).d.w.trace, r)
  {
    if e.StartCall? {
      StartSolvent(s.d, e.e, r);
    } else {
      NotShort(s.d.w.trace, r);
      Covered(s, e, o, r, before, call);
      TraceGrows(s, e);
      SolventAfter(s.d.w.trace, Step(s, e).d.w.trace, r);
    }
  }

  /** In every run, at every moment, nothing but the interface has been released more often than it was acquired. */
  lemma {:induction false} SolventTheorem(events: seq<Event>, r: Resource)
    requires Legal(START, events) && r != Interface
    ensures Solvent(Run(START, events).d.w.trace, r)
    decreases |events|
  {
    if events == [] {
    } else {
      var before, e := events[..|events| - 1], events[|events| - 1];
      var call := if Own(r) then 0 else r.call;
      RunLast(START, events);
      SolventTheorem(before, r);
      RunSafe(START, before);
      RunKept(START, before, None);
      if Own(r) {
        RunBooked(START, before, None, r);
      }
      RunFollows(before, call);
      StepSolvent(Run(START, before), e, StartOf(None, before), r, before, call);
    }
  }
}
