/**
 Safety over whole runs: no routine ever uses a null pointer or memory outside a buffer, at most one read is
 outstanding, and the driver touches the in-buffer only while the USB stack does not own it.
 */
module DriverSafety {
  import opened Bits
  import opened Wrappers
  import opened UsbPipes
  import opened Driver
  import opened DriverRuns

  // ---------------------------------------------------------------- the set-up invariant

  /** No fault; nothing is set before the start; whenever a completion can come, everything it needs is there. */
  predicate Safe(d: Driver) {
    && !d.w.fault
    && d.w.pending <= 1
    && (d.w.phase == Fresh ==> Blank(d))
    && (d.w.phase == Attempted && d.action ==> Ready(d))
    && (d.w.phase == Attempted && d.w.pending > 0 ==> d.action)
  }

  lemma StartSafe(d: Driver, e: StartEnv)
    requires Safe(d) && d.w.phase == Fresh && StartPossible(e)
    ensures Safe(Start(d, e))
  {
    StartForm(d, e);
  }

  lemma CompleteSafe(d: Driver, c: Completion)
    requires Safe(d) && d.w.phase != Freed && d.w.pending > 0 && |c.bytes| == d.inPipe.memory.length
    ensures Safe(GotData(Delivered(d, c.bytes), c))
    ensures d.w.phase == Attempted && Holding(Delivered(d, c.bytes), c)
  {
    GotDataForm(Delivered(d, c.bytes), c);
  }

  lemma StepSafe(s: System, e: Event)
    requires Safe(s.d) && Possible(s, e)
    ensures Safe(Step(s, e).d)
  {
    match e
    case StartCall(env) => StartSafe(s.d, env);
    case Complete(c) => CompleteSafe(s.d, c);
    case _ =>
  }

  lemma {:induction false} RunSafe(s: System, events: seq<Event>)
    requires Safe(s.d) && Legal(s, events)
    ensures Safe(Run(s, events).d)
    decreases |events|
  {
    if events == [] {
    } else {
      StepSafe(s, events[0]);
      RunSafe(Step(s, events[0]), events[1..]);
    }
  }

  /** In every reachable state there has been no fault, and a driver that can get a completion is set up for it. */
  lemma {:induction false} SafetyTheorem(events: seq<Event>)
    requires Legal(START, events)
    ensures var d := Run(START, events).d;
            !d.w.fault && (d.w.phase != Freed && d.w.pending > 0 ==> Ready(d))
  {
    RunSafe(START, events);
  }

  // Nothing goes unnoticed: each routine raises `fault` exactly on the null pointers and short buffers it would use.

  lemma RequestFaults(d: Driver, ok: bool)
    requires !d.w.fault
    ensures RequestAsync(d, ok).w.fault <==> d.inPipe.pipe == None || !d.inPipe.memory.buffer || !d.action
  {
  }

  lemma SendFaults(d: Driver, data: seq<byte>)
    requires !d.w.fault
    ensures SendInterruptData(d, data).w.fault <==>
            && |data| <= d.outPipe.memory.length
            && (d.outPipe.pipe == None || d.outPipe.memory.mapped == None
                || |d.outPipe.memory.mapped.value| < |data| || |d.outPipe.memory.mapped.value| < 3)
  {
  }

  lemma ReportFaults(d: Driver, c: Completion, packetType: byte, size: byte, accepted: bool)
    requires !d.w.fault
    ensures HandleReportGeneric(d, c, packetType, size, accepted).d.w.fault <==>
            d.inPipe.memory.mapped == None || |d.inPipe.memory.mapped.value| < 4
  {
  }

  lemma SetupFaults(d: Driver, e: StartEnv)
    requires !d.w.fault
    ensures SetupInPipe(d, e).d.w.fault <==> d.inPipe.pipe == None
    ensures SetupOutPipe(d, e).d.w.fault <==> d.outPipe.pipe == None
  {
  }

  // ---------------------------------------------------------------- ownership of the in-buffer

  /**
   Who may use the in-buffer. `Nobody`: no read was requested yet. `Stack`: a read is outstanding.
   `Mine`: a read has completed and the next request is due. `Ended`: a request was refused.
   */
  datatype Owner = Nobody | Stack | Mine | Ended | Broken

  /** The protocol: only the owner touches the buffer, and each completion is answered by one request. */
  function Next(o: Owner, x: Effect): (r: Owner) {
    match x
    case Arm(_, _, ok) => if o == Nobody || o == Mine then (if ok then Stack else Ended) else Broken
    case Deliver => if o == Stack then Mine else Broken
    case Look => if o == Mine then Mine else Broken
    case Report(_, _, _) => if o == Mine then Mine else Broken
    case _ => o
  }

  function OwnerFrom(o: Owner, t: seq<Effect>): (r: Owner)
    decreases |t|
  {
    if t == [] then o else OwnerFrom(Next(o, t[0]), t[1..])
  }

  function OwnerAfter(t: seq<Effect>): (r: Owner) {
    OwnerFrom(Nobody, t)
  }

  lemma {:induction false} OwnerConcat(o: Owner, a: seq<Effect>, b: seq<Effect>)
    ensures OwnerFrom(o, a + b) == OwnerFrom(OwnerFrom(o, a), b)
    decreases |a|
  {
    if a == [] {
      assert a + b == b;
    } else {
      OwnerConcat(Next(o, a[0]), a[1..], b);
      assert (a + b)[1..] == a[1..] + b;
    }
  }

  lemma OwnerAppend(t: seq<Effect>, x: Effect)
    ensures OwnerAfter(t + [x]) == Next(OwnerAfter(t), x)
  {
    OwnerConcat(Nobody, t, [x]);
    assert [x][1..] == [];
  }

  /** Effects that leave the owner alone: anything while the buffer is ours, otherwise nothing that concerns it. */
  predicate Keeps(o: Owner, es: seq<Effect>) {
    forall x <- es :: Next(o, x) == o
  }

  lemma {:induction false} OwnerKept(o: Owner, es: seq<Effect>)
    requires Keeps(o, es)
    ensures OwnerFrom(o, es) == o
  {
    if es == [] {
    } else {
      OwnerKept(o, es[1..]);
    }
  }

  predicate Owns(d: Driver) {
    var o := OwnerAfter(d.w.trace);
    && o != Broken && o != Mine
    && (o == Stack <==> d.w.pending == 1)
    && (d.w.phase == Fresh ==> o == Nobody)
  }

  lemma OwnerListens(t: seq<Effect>, e: StartEnv)
    requires StartPossible(e) && OwnerAfter(t) == Nobody
    ensures OwnerAfter(t + ListenEffects(e)) == if e.armOk then Stack else Ended
  {
    var wake := WakeUp(PipeOf(e, Out), |e.outSetup.mapped|, 0);
    var arm, woken := Arm(PipeOf(e, In), |e.inSetup.mapped|, e.armOk), t + wake;
    OwnerConcat(Nobody, t, wake);
    OwnerKept(Nobody, wake);
    OwnerAppend(woken, arm);
    OwnerAppend(woken + [arm], Acquire(Interface));
    assert t + ListenEffects(e) == woken + [arm] + [Acquire(Interface)];
  }

  lemma StartOwns(d: Driver, e: StartEnv)
    requires Safe(d) && Owns(d) && d.w.phase == Fresh && StartPossible(e)
    ensures Owns(Start(d, e))
  {
    StartForm(d, e);
    OwnerStarts(d.w.trace, e);
  }

  lemma OwnerPrepares(t: seq<Effect>, es: seq<Effect>)
    requires OwnerAfter(t) == Nobody && Aside(es)
    ensures OwnerAfter(t + es) == Nobody
  {
    OwnerConcat(Nobody, t, es);
    OwnerKept(Nobody, es);
  }

  lemma OwnerStarts(t: seq<Effect>, e: StartEnv)
    requires StartPossible(e) && OwnerAfter(t) == Nobody
    ensures OwnerAfter(t + StartEffects(e)) == if !StartSucceeds(e) then Nobody else if e.armOk then Stack else Ended
  {
    PreparesAside(e);
    OwnerPrepares(t, PrepareEffects(e));
    if StartSucceeds(e) {
      OwnerListens(t + PrepareEffects(e), e);
      Associative(t, PrepareEffects(e), ListenEffects(e));
    } else {
      assert PrepareEffects(e) + [] == PrepareEffects(e);
    }
  }

  lemma Associative(x: seq<Effect>, y: seq<Effect>, z: seq<Effect>)
    ensures x + y + z == x + (y + z)
  {
  }

  lemma HandlingKeeps(d: Driver, c: Completion)
    ensures Keeps(Mine, HandlingEffects(d, c))
  {
  }

  lemma OwnerCompletes(t: seq<Effect>, es: seq<Effect>, arm: Effect)
    requires OwnerAfter(t) == Stack && Keeps(Mine, es) && arm.Arm?
    ensures OwnerAfter(t + [Deliver] + (es + [arm])) == if arm.ok then Stack else Ended
  {
    var held := t + [Deliver];
    OwnerAppend(t, Deliver);
    OwnerConcat(Nobody, held, es);
    OwnerKept(Mine, es);
    OwnerAppend(held + es, arm);
    assert held + es + [arm] == held + (es + [arm]);
  }

  lemma CompleteOwns(d: Driver, c: Completion)
    requires Safe(d) && Owns(d) && d.w.phase != Freed && d.w.pending > 0 && |c.bytes| == d.inPipe.memory.length
    ensures Owns(GotData(Delivered(d, c.bytes), c))
  {
    var held := Delivered(d, c.bytes);
    CompleteSafe(d, c);
    GotDataForm(held, c);
    HandlingKeeps(held, c);
    OwnerCompletes(d.w.trace, HandlingEffects(held, c), Request(held, c.armOk));
  }

  lemma OwnsKept(d: Driver, r: Driver, es: seq<Effect>)
    requires Owns(d) && r.w.trace == d.w.trace + es && Keeps(OwnerAfter(d.w.trace), es)
    requires r.w.pending == d.w.pending && (r.w.phase == Fresh ==> d.w.phase == Fresh)
    ensures Owns(r)
  {
    OwnerConcat(Nobody, d.w.trace, es);
    OwnerKept(OwnerAfter(d.w.trace), es);
  }

  lemma StepOwns(s: System, e: Event)
    requires Safe(s.d) && Owns(s.d) && Possible(s, e)
    ensures Owns(Step(s, e).d)
  {
    if e.StartCall? {
      StartOwns(s.d, e.e);
    } else if e.Complete? {
      CompleteOwns(s.d, e.c);
    } else {
      var es := OtherStepForm(s, e);
      OwnsKept(s.d, Step(s, e).d, es);
    }
  }

  lemma {:induction false} RunOwns(s: System, events: seq<Event>)
    requires Safe(s.d) && Owns(s.d) && Legal(s, events)
    ensures Owns(Run(s, events).d)
    decreases |events|
  {
    if events == [] {
    } else {
      StepSafe(s, events[0]);
      StepOwns(s, events[0]);
      RunOwns(Step(s, events[0]), events[1..]);
    }
  }

  // ---------------------------------------------------------------- what the protocol means

  /** Reads granted minus reads completed. */
  function Owed(t: seq<Effect>): (n: int) {
    if t == [] then 0
    else Owed(t[..|t| - 1]) + (if Granted(t[|t| - 1]) then 1 else 0) - (if t[|t| - 1].Deliver? then 1 else 0)
  }

  predicate Granted(x: Effect) {
    x.Arm? && x.ok
  }

  predicate Refused(x: Effect) {
    x.Arm? && !x.ok
  }

  predicate Touches(x: Effect) {
    x.Look? || x.Report?
  }

  predicate AnyRefused(t: seq<Effect>) {
    exists i | 0 <= i < |t| :: Refused(t[i])
  }

  lemma AnyRefusedAppend(t: seq<Effect>, x: Effect)
    ensures AnyRefused(t + [x]) <==> AnyRefused(t) || Refused(x)
  {
    if AnyRefused(t) {
      var i :| 0 <= i < |t| && Refused(t[i]);
      assert (t + [x])[i] == t[i];
    }
    if Refused(x) {
      assert (t + [x])[|t|] == x;
    }
  }

  /** After a refused request there is no further request. */
  predicate RefusalIsFinal(t: seq<Effect>) {
    forall i, j | 0 <= i < j < |t| :: Refused(t[i]) ==> !t[j].Arm?
  }

  lemma {:induction false} OwedAppend(t: seq<Effect>, x: Effect)
    ensures Owed(t + [x]) == Owed(t) + (if Granted(x) then 1 else 0) - (if x.Deliver? then 1 else 0)
  {
    assert (t + [x])[..|t|] == t;
  }

  lemma RefusalAppend(t: seq<Effect>, x: Effect)
    requires RefusalIsFinal(t) && (x.Arm? ==> !AnyRefused(t))
    ensures RefusalIsFinal(t + [x])
  {
  }

  /** Every access is made while no read is out. */
  predicate AccessesOwned(t: seq<Effect>) {
    forall i | 0 <= i < |t| && Touches(t[i]) :: Owed(t[..i]) == 0
  }

  lemma {:induction false} AccessAppend(t: seq<Effect>, x: Effect)
    requires AccessesOwned(t) && (Touches(x) ==> Owed(t) == 0)
    ensures AccessesOwned(t + [x])
  {
    forall i | 0 <= i < |t + [x]| && Touches((t + [x])[i])
      ensures Owed((t + [x])[..i]) == 0
    {
      assert (t + [x])[..i] == if i < |t| then t[..i] else t;
    }
  }

  /** At most one read is out, there is no access while one is, and a refusal is final. */
  predicate OneAtATime(t: seq<Effect>) {
    && Owed(t) == (if OwnerAfter(t) == Stack then 1 else 0)
    && AccessesOwned(t)
    && RefusalIsFinal(t)
    && (OwnerAfter(t) == Ended <==> AnyRefused(t))
  }

  lemma OneMore(t: seq<Effect>, x: Effect)
    requires OneAtATime(t) && OwnerAfter(t + [x]) != Broken
    ensures OneAtATime(t + [x])
  {
    OwnerAppend(t, x);
    OwedAppend(t, x);
    RefusalAppend(t, x);
    AccessAppend(t, x);
    AnyRefusedAppend(t, x);
  }

  /** What keeping the protocol means. */
  lemma {:induction false} ProtocolMeaning(t: seq<Effect>)
    requires OwnerAfter(t) != Broken
    ensures OneAtATime(t)
  {
    if t == [] {
    } else {
      var u, x := t[..|t| - 1], t[|t| - 1];
      assert t == u + [x];
      OwnerAppend(u, x);
      ProtocolMeaning(u);
      OneMore(u, x);
    }
  }

  /**
   Buffer ownership over whole runs: successful requests minus completions is the number of outstanding reads and
   is 0 or 1, every access to the in-buffer happens while none is outstanding, every completion is followed by
   a request before the next event, and after a refused request there is never another.
   */
  lemma {:induction false} OwnershipTheorem(events: seq<Event>)
    requires Legal(START, events)
    ensures var t, pending := Run(START, events).d.w.trace, Run(START, events).d.w.pending;
            && OwnerAfter(t) !in {Broken, Mine}
            && Owed(t) == pending <= 1
            && AccessesOwned(t)
            && RefusalIsFinal(t)
  {
    RunOwns(START, events);
    RunSafe(START, events);
    ProtocolMeaning(Run(START, events).d.w.trace);
  }
}
