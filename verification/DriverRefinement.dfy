/**
 The driver refines a small reference machine that has no records, no buffers and no life cycle: it knows only whether
 it is enabled, which clients are attached, on which two pipes it works, how long a packet may be each way and how many
 packets it has sent. For every run, the reads requested, the reports passed to the host and the packets sent to the
 controller are exactly those of the reference, in order.
 */
module DriverRefinement {
  import opened Bits
  import opened Wrappers
  import opened UsbPipes
  import opened Driver
  import opened Licensing
  import opened DriverRuns
  import opened DriverSafety

  datatype Reference = Reference(
    enabled: bool, clients: map<nat, bool>, input: Option<Handle>, inRoom: nat,
    output: Option<Handle>, room: nat, sent: nat)

  const REFERENCE := Reference(true, map[], None, 0, None, 0, 0)

  // ---------------------------------------------------------------- the reference machine

  /** A packet that is passed on: the read succeeded, the driver is enabled and the header is a known one. */
  predicate Forwards(r: Reference, c: Completion) {
    c.ok && r.enabled && (ButtonHeader(c.bytes) || GuideHeader(c.bytes))
  }

  /** A guide packet that is answered: it was accepted by the host, asks for an answer, and the answer fits. */
  predicate Responds(r: Reference, c: Completion) {
    c.ok && r.enabled && GuideHeader(c.bytes) && c.guideHandled && c.bytes[1] == 0x30 && r.room >= 9
  }

  /** The start gets through. */
  predicate Opens(e: Event) {
    e.StartCall? && StartPossible(e.e) && StartSucceeds(e.e)
  }

  /** The reference after a start that gets through, before it has sent anything. */
  function Opened(r: Reference, e: StartEnv): (q: Reference)
    requires StartPossible(e)
  {
    r.(input := PipeOf(e, In), inRoom := |e.inSetup.mapped|, output := PipeOf(e, Out), room := |e.outSetup.mapped|)
  }

  function Reports(r: Reference, c: Completion): (es: seq<Effect>) {
    if Forwards(r, c) then [Report(c.bytes, c.count, c.timestamp)] else []
  }

  function Response(r: Reference, c: Completion): (es: seq<Effect>) {
    if Responds(r, c) then [Send(r.output, ResponseSent(r.sent))] else []
  }

  /** What the outside sees of one event. */
  function Output(r: Reference, e: Event): (es: seq<Effect>) {
    if Opens(e) then
      var q := Opened(r, e.e);
      WakeUp(q.output, q.room, r.sent) + [Arm(q.input, q.inRoom, e.e.armOk)]
    else if e.Complete? then Reports(r, e.c) + Response(r, e.c) + [Arm(r.input, r.inRoom, e.c.armOk)]
    else []
  }

  /** A client call that changes the flag. */
  predicate Effective(clients: map<nat, bool>, e: Event) {
    e.ClientCall? && Licenses(e.selector, e.a) && e.id in clients && clients[e.id]
  }

  function Advance(r: Reference, e: Event): (q: Reference) {
    match e
    case StartCall(env) =>
      if Opens(e) then Opened(r, env).(sent := if |env.outSetup.mapped| < 5 then r.sent else r.sent + 2) else r
    case Complete(c) => if Responds(r, c) then r.(sent := r.sent + 1) else r
    case NewClient(id, created, isClient) => if created && isClient then r.(clients := r.clients[id := true]) else r
    case SetInputInterface(id, isInput) => r.(clients := r.clients[id := isInput])
    case ClientCall(id, selector, a) => if Effective(r.clients, e) then r.(enabled := a.scalarInput[0] != 0) else r
    case _ => r
  }

  /** All outputs of a run of the reference. */
  function Outputs(r: Reference, events: seq<Event>): (es: seq<Effect>)
    decreases |events|
  {
    if events == [] then [] else Output(r, events[0]) + Outputs(Advance(r, events[0]), events[1..])
  }

  // ---------------------------------------------------------------- observing a driver trace

  predicate Observable(x: Effect) {
    x.Report? || x.Send? || x.Arm?
  }

  function Observe(t: seq<Effect>): (es: seq<Effect>) {
    if t == [] then [] else (if Observable(t[0]) then [t[0]] else []) + Observe(t[1..])
  }

  lemma {:induction false} ObserveCons(x: Effect, t: seq<Effect>)
    ensures Observe([x] + t) == (if Observable(x) then [x] else []) + Observe(t)
  {
    assert ([x] + t)[1..] == t;
  }

  lemma {:induction false} ObserveConcat(a: seq<Effect>, b: seq<Effect>)
    ensures Observe(a + b) == Observe(a) + Observe(b)
  {
    if a == [] {
      assert a + b == b;
    } else {
      var x, rest := a[0], a[1..];
      assert a == [x] + rest && a + b == [x] + (rest + b);
      ObserveCons(x, rest);
      ObserveCons(x, rest + b);
      ObserveConcat(rest, b);
    }
  }

  lemma {:induction false} ObserveAside(es: seq<Effect>)
    requires forall x <- es :: !Observable(x)
    ensures Observe(es) == []
  {
    if es == [] {
    } else {
      ObserveAside(es[1..]);
    }
  }

  lemma {:induction false} ObserveAll(es: seq<Effect>)
    requires forall x <- es :: Observable(x)
    ensures Observe(es) == es
  {
    if es == [] {
    } else {
      ObserveAll(es[1..]);
    }
  }

  lemma {:induction false} ObserveMixed(a: seq<Effect>, b: seq<Effect>)
    requires (forall x <- a :: Observable(x)) && (forall x <- b :: !Observable(x))
    ensures Observe(a + b) == a
  {
    ObserveConcat(a, b);
    ObserveAll(a);
    ObserveAside(b);
  }

  lemma {:induction false} ObserveIgnores(t: seq<Effect>, x: Effect)
    requires !Observable(x)
    ensures Observe(t + [x]) == Observe(t)
  {
    ObserveConcat(t, [x]);
    ObserveAside([x]);
  }

  lemma {:induction false} ObserveCompletion(t: seq<Effect>, es: seq<Effect>, arm: Effect)
    requires arm.Arm?
    ensures Observe(t + [Deliver] + (es + [arm])) == Observe(t) + (Observe(es) + [arm])
  {
    ObserveIgnores(t, Deliver);
    ObserveAll([arm]);
    ObserveConcat(es, [arm]);
    ObserveConcat(t + [Deliver], es + [arm]);
  }

  /** A look, then an observable effect. */
  lemma ObserveLooked(x: Effect)
    requires Observable(x)
    ensures Observe([Look]) == [] && Observe([Look, x]) == [x] && Observe([Look, x, Look]) == [x]
  {
    ObserveAside([Look]);
    ObserveAll([x]);
    ObserveConcat([Look], [x]);
    ObserveConcat([Look] + [x], [Look]);
    assert [Look, x] == [Look] + [x] && [Look, x, Look] == [Look] + [x] + [Look];
  }

  // ---------------------------------------------------------------- simulation

  predicate Simulates(s: System, r: Reference) {
    && s.d.enabled == r.enabled && s.clients == r.clients
    && (s.d.w.phase == Fresh ==> r.sent == 0)
    && (s.d.w.phase == Attempted && s.d.action ==>
          Working(s.d, r) && s.d.outCounter == r.sent % 256)
  }

  /** The driver works on the pipes that the reference names, with room for as many bytes. */
  predicate Working(d: Driver, r: Reference) {
    && d.inPipe.pipe == r.input && d.inPipe.memory.length == r.inRoom
    && d.outPipe.pipe == r.output && d.outPipe.memory.length == r.room
  }

  /** One event adds exactly the reference's output to what is seen, and the two stay in step. */
  predicate InStep(s: System, e: Event, r: Reference)
    requires Possible(s, e)
  {
    && Simulates(Step(s, e), Advance(r, e))
    && Observe(Step(s, e).d.w.trace) == Observe(s.d.w.trace) + Output(r, e)
  }

  lemma ListenObserved(e: StartEnv, r: Reference)
    requires StartPossible(e) && StartSucceeds(e) && r.sent == 0
    ensures Observe(ListenEffects(e)) == Output(r, StartCall(e))
  {
    var wake, arm := WakeUp(PipeOf(e, Out), |e.outSetup.mapped|, 0), Arm(PipeOf(e, In), |e.inSetup.mapped|, e.armOk);
    assert ListenEffects(e) == (wake + [arm]) + [Acquire(Interface)];
    ObserveMixed(wake + [arm], [Acquire(Interface)]);
  }

  lemma StartObserved(e: StartEnv, r: Reference)
    requires StartPossible(e) && r.sent == 0
    ensures Observe(StartEffects(e)) == Output(r, StartCall(e))
  {
    PreparesAside(e);
    ObserveAside(PrepareEffects(e));
    if StartSucceeds(e) {
      ListenObserved(e, r);
      ObserveConcat(PrepareEffects(e), ListenEffects(e));
    } else {
      assert PrepareEffects(e) + [] == PrepareEffects(e);
    }
  }

  lemma StartSimulates(s: System, env: StartEnv, r: Reference)
    requires Safe(s.d) && Simulates(s, r) && Possible(s, StartCall(env))
    ensures Simulates(Step(s, StartCall(env)), Advance(r, StartCall(env)))
  {
    StartForm(s.d, env);
    if StartSucceeds(env) {
      FoundPipes(Start(s.d, env), env);
    }
  }

  lemma StartInStep(s: System, env: StartEnv, r: Reference)
    requires Safe(s.d) && Simulates(s, r) && Possible(s, StartCall(env))
    ensures InStep(s, StartCall(env), r)
  {
    assert Start(s.d, env).w.trace == s.d.w.trace + StartEffects(env) by { StartForm(s.d, env); }
    StartObserved(env, r);
    ObserveConcat(s.d.w.trace, StartEffects(env));
    StartSimulates(s, env, r);
  }

  lemma HandlingObserved(d: Driver, c: Completion, r: Reference)
    requires Holding(d, c) && d.enabled == r.enabled && Working(d, r) && d.outCounter == r.sent % 256
    ensures Observe(HandlingEffects(d, c)) == Reports(r, c) + Response(r, c)
  {
    ObserveLooked(Report(c.bytes, c.count, c.timestamp));
    if c.ok && d.enabled {
      GuideObserved(d, c);
      ObserveConcat(ControllerEffects(c), GuideEffects(d, c));
      SameResponse(r.sent);
    }
  }

  lemma GuideObserved(d: Driver, c: Completion)
    ensures Observe(GuideEffects(d, c)) ==
            (if GuideHeader(c.bytes) then [Report(c.bytes, c.count, c.timestamp)] else [])
            + if Replies(d, c) then [Send(d.outPipe.pipe, ResponseSent(d.outCounter))] else []
  {
    var report, response := Report(c.bytes, c.count, c.timestamp), Send(d.outPipe.pipe, ResponseSent(d.outCounter));
    ObserveLooked(report);
    if Replies(d, c) {
      ObserveConcat([Look, report, Look], [response]);
      ObserveAll([response]);
    } else {
      assert [Look, report, Look] + [] == [Look, report, Look];
    }
  }

  lemma SameResponse(n: nat)
    ensures ResponseSent(n % 256) == ResponseSent(n)
  {
  }

  lemma CounterModulo(sent: nat)
    ensures (sent % 256 + 1) % 256 == (sent + 1) % 256
  {
  }

  lemma CompletedCounter(held: Driver, c: Completion, r: Reference)
    requires Holding(held, c) && held.enabled == r.enabled && Working(held, r) && held.outCounter == r.sent % 256
    ensures var q := GotData(held, c);
            && q.enabled == held.enabled && q.w.phase == held.w.phase && q.action == held.action
            && Working(q, r) && q.outCounter == Advance(r, Complete(c)).sent % 256
  {
    GotDataForm(held, c);
    CounterModulo(r.sent);
  }

  lemma CompleteSimulates(s: System, c: Completion, r: Reference)
    requires Safe(s.d) && Simulates(s, r) && Possible(s, Complete(c))
    ensures Simulates(Step(s, Complete(c)), Advance(r, Complete(c)))
  {
    var held := Delivered(s.d, c.bytes);
    assert Holding(held, c) && held.w.phase == Attempted by { CompleteSafe(s.d, c); }
    CompletedCounter(held, c, r);
  }

  lemma CompleteInStep(s: System, c: Completion, r: Reference)
    requires Safe(s.d) && Simulates(s, r) && Possible(s, Complete(c))
    ensures InStep(s, Complete(c), r)
  {
    var held := Delivered(s.d, c.bytes);
    assert Holding(held, c) && held.w.phase == Attempted by { CompleteSafe(s.d, c); }
    assert GotData(held, c).w.trace == held.w.trace + (HandlingEffects(held, c) + [Request(held, c.armOk)]) by {
      GotDataForm(held, c);
    }
    HandlingObserved(held, c, r);
    ObserveCompletion(s.d.w.trace, HandlingEffects(held, c), Request(held, c.armOk));
    CompleteSimulates(s, c, r);
  }

  lemma OtherSimulates(s: System, e: Event, r: Reference)
    requires Simulates(s, r) && Possible(s, e) && !e.StartCall? && !e.Complete?
    ensures Simulates(Step(s, e), Advance(r, e))
  {
  }

  lemma OtherInStep(s: System, e: Event, r: Reference)
    requires Simulates(s, r) && Possible(s, e) && !e.StartCall? && !e.Complete?
    ensures InStep(s, e, r)
  {
    var t, u := s.d.w.trace, Step(s, e).d.w.trace;
    var es := OtherStepForm(s, e);
    assert Observe(u) == Observe(t) by {
      ObserveConcat(t, es);
      ObserveAside(es);
    }
    assert Observe(t) + [] == Observe(t);
    OtherSimulates(s, e, r);
  }

  lemma StepInStep(s: System, e: Event, r: Reference)
    requires Safe(s.d) && Simulates(s, r) && Possible(s, e)
    ensures InStep(s, e, r)
  {
    match e
    case StartCall(env) => StartInStep(s, env, r);
    case Complete(c) => CompleteInStep(s, c, r);
    case _ => OtherInStep(s, e, r);
  }

  lemma {:induction false} RunRefines(s: System, events: seq<Event>, r: Reference)
    requires Safe(s.d) && Simulates(s, r) && Legal(s, events)
    ensures Observe(Run(s, events).d.w.trace) == Observe(s.d.w.trace) + Outputs(r, events)
    decreases |events|
  {
    if events == [] {
    } else {
      var t, q := Step(s, events[0]), Advance(r, events[0]);
      StepSafe(s, events[0]);
      StepInStep(s, events[0], r);
      RunRefines(t, events[1..], q);
      Associative(Observe(s.d.w.trace), Output(r, events[0]), Outputs(q, events[1..]));
    }
  }

  /** Trace refinement: for every run, what the driver requests, reports and sends is what the reference outputs. */
  lemma {:induction false} RefinementTheorem(events: seq<Event>)
    requires Legal(START, events)
    ensures Observe(Run(START, events).d.w.trace) == Outputs(REFERENCE, events)
  {
    RunRefines(START, events, REFERENCE);
    assert Observe([]) + Outputs(REFERENCE, events) == Outputs(REFERENCE, events);
  }

  // ---------------------------------------------------------------- the outgoing counter

  /** The packets put on the wire, in order. */
  function Packets(t: seq<Effect>): (ps: seq<seq<byte>>) {
    if t == [] then [] else (if t[0].Send? then [t[0].bytes] else []) + Packets(t[1..])
  }

  lemma {:induction false} PacketsCons(x: Effect, t: seq<Effect>)
    ensures Packets([x] + t) == (if x.Send? then [x.bytes] else []) + Packets(t)
  {
    assert ([x] + t)[1..] == t;
  }

  lemma {:induction false} PacketsConcat(a: seq<Effect>, b: seq<Effect>)
    ensures Packets(a + b) == Packets(a) + Packets(b)
  {
    if a == [] {
      assert a + b == b;
    } else {
      var x, rest := a[0], a[1..];
      assert a == [x] + rest && a + b == [x] + (rest + b);
      PacketsCons(x, rest);
      PacketsCons(x, rest + b);
      PacketsConcat(rest, b);
    }
  }

  lemma {:induction false} PacketsObserved(t: seq<Effect>)
    ensures Packets(Observe(t)) == Packets(t)
  {
    if t == [] {
    } else {
      PacketsObserved(t[1..]);
      if Observable(t[0]) {
        assert Observe(t)[1..] == Observe(t[1..]);
      } else {
        assert Observe(t) == Observe(t[1..]);
      }
    }
  }

  /** Packets numbered from `n` in their third byte. */
  predicate Numbered(ps: seq<seq<byte>>, n: nat) {
    forall k | 0 <= k < |ps| :: |ps[k]| >= 5 && ps[k][2] == (n + k) % 256
  }

  lemma NumberedConcat(a: seq<seq<byte>>, b: seq<seq<byte>>, n: nat)
    requires Numbered(a, n) && Numbered(b, n + |a|)
    ensures Numbered(a + b, n)
  {
    forall k | 0 <= k < |a + b|
      ensures |(a + b)[k]| >= 5 && (a + b)[k][2] == (n + k) % 256
    {
      if k >= |a| {
        assert (a + b)[k] == b[k - |a|];
      }
    }
  }

  /** The packets of one event. */
  function Sends(r: Reference, e: Event): (ps: seq<seq<byte>>) {
    if Opens(e) then if |e.e.outSetup.mapped| < 5 then [] else [InitSent(r.sent), SwapSent(r.sent + 1)]
    else if e.Complete? && Responds(r, e.c) then [ResponseSent(r.sent)]
    else []
  }

  lemma OneEffect(x: Effect)
    ensures Packets([x]) == if x.Send? then [x.bytes] else []
  {
    assert [x][1..] == [];
  }

  lemma WakeUpPackets(pipe: Option<Handle>, room: nat, n: nat)
    ensures Packets(WakeUp(pipe, room, n)) == if room < 5 then [] else [InitSent(n), SwapSent(n + 1)]
  {
    if room >= 5 {
      var a, b := Send(pipe, InitSent(n)), Send(pipe, SwapSent(n + 1));
      OneEffect(b);
      PacketsCons(a, [b]);
      assert [a, b] == [a] + [b];
    }
  }

  lemma OutputPackets(r: Reference, e: Event)
    ensures Packets(Output(r, e)) == Sends(r, e)
    ensures Advance(r, e).sent == r.sent + |Sends(r, e)|
  {
    if Opens(e) {
      var q := Opened(r, e.e);
      var wake, arm := WakeUp(q.output, q.room, r.sent), Arm(q.input, q.inRoom, e.e.armOk);
      WakeUpPackets(q.output, q.room, r.sent);
      OneEffect(arm);
      PacketsConcat(wake, [arm]);
    } else if e.Complete? {
      var arm := Arm(r.input, r.inRoom, e.c.armOk);
      OneEffect(Report(e.c.bytes, e.c.count, e.c.timestamp));
      OneEffect(Send(r.output, ResponseSent(r.sent)));
      OneEffect(arm);
      PacketsConcat(Reports(r, e.c), Response(r, e.c));
      PacketsConcat(Reports(r, e.c) + Response(r, e.c), [arm]);
    }
  }

  lemma OutputNumbered(r: Reference, e: Event)
    ensures Numbered(Packets(Output(r, e)), r.sent)
    ensures Advance(r, e).sent == r.sent + |Packets(Output(r, e))|
  {
    OutputPackets(r, e);
  }

  lemma {:induction false} NumberedNext(a: seq<Effect>, b: seq<Effect>, n: nat)
    requires Numbered(Packets(a), n) && Numbered(Packets(b), n + |Packets(a)|)
    ensures Numbered(Packets(a + b), n)
  {
    PacketsConcat(a, b);
    NumberedConcat(Packets(a), Packets(b), n);
  }

  lemma {:induction false} OutputsNumbered(r: Reference, events: seq<Event>)
    ensures Numbered(Packets(Outputs(r, events)), r.sent)
    decreases |events|
  {
    if events == [] {
    } else {
      var e, q := events[0], Advance(r, events[0]);
      var a, b := Output(r, e), Outputs(q, events[1..]);
      assert Numbered(Packets(a), r.sent) && q.sent == r.sent + |Packets(a)| by { OutputNumbered(r, e); }
      assert Numbered(Packets(b), q.sent) by { OutputsNumbered(q, events[1..]); }
      NumberedNext(a, b, r.sent);
    }
  }

  /**
   The outgoing counter over whole runs: the k-th packet put on the wire, from 0, carries k modulo 256 in its
   third byte, so two packets carry the same number exactly when 256 divides their distance.
   */
  lemma {:induction false} CounterTheorem(events: seq<Event>, i: nat, j: nat)
    requires Legal(START, events)
    requires i <= j < |Packets(Run(START, events).d.w.trace)|
    ensures var ps := Packets(Run(START, events).d.w.trace);
            && |ps[i]| >= 5 && |ps[j]| >= 5 && ps[i][2] == i % 256
            && (ps[i][2] == ps[j][2] <==> (j - i) % 256 == 0)
  {
    var t := Run(START, events).d.w.trace;
    RefinementTheorem(events);
    PacketsObserved(t);
    OutputsNumbered(REFERENCE, events);
    assert Numbered(Packets(t), 0);
    SameRemainder(i, j);
  }

  lemma SameRemainder(i: nat, j: nat)
    requires i <= j
    ensures i % 256 == j % 256 <==> (j - i) % 256 == 0
  {
  }

  // ---------------------------------------------------------------- licensing

  /** The reference after a run; its flag and clients are the driver's. */
  function Reaches(r: Reference, events: seq<Event>): (q: Reference)
    decreases |events|
  {
    if events == [] then r else Reaches(Advance(r, events[0]), events[1..])
  }

  lemma {:induction false} RunSimulates(s: System, events: seq<Event>, r: Reference)
    requires Safe(s.d) && Simulates(s, r) && Legal(s, events)
    ensures Simulates(Run(s, events), Reaches(r, events))
    decreases |events|
  {
    if events == [] {
    } else {
      StepSafe(s, events[0]);
      StepInStep(s, events[0], r);
      RunSimulates(Step(s, events[0]), events[1..], Advance(r, events[0]));
    }
  }

  /** No call from `events` on, made from state `r`, changes the flag. */
  predicate NoneEffective(r: Reference, events: seq<Event>)
    decreases |events|
  {
    events != [] ==> !Effective(r.clients, events[0]) && NoneEffective(Advance(r, events[0]), events[1..])
  }

  lemma {:induction false} FlagKept(r: Reference, events: seq<Event>)
    requires NoneEffective(r, events)
    ensures Reaches(r, events).enabled == r.enabled
    decreases |events|
  {
    if events == [] {
    } else {
      FlagKept(Advance(r, events[0]), events[1..]);
    }
  }

  lemma {:induction false} ReachesConcat(r: Reference, a: seq<Event>, b: seq<Event>)
    ensures Reaches(r, a + b) == Reaches(Reaches(r, a), b)
    decreases |a|
  {
    if a == [] {
      assert a + b == b;
    } else {
      ReachesConcat(Advance(r, a[0]), a[1..], b);
      assert (a + b)[1..] == a[1..] + b;
    }
  }

  /** With any number of clients, the driver is enabled as the last effective licensing call said. */
  lemma {:induction false} LicensingTheorem(before: seq<Event>, call: Event, after: seq<Event>)
    requires Legal(START, before + [call] + after)
    requires var r := Reaches(REFERENCE, before);
             Effective(r.clients, call) && NoneEffective(Advance(r, call), after)
    ensures Run(START, before + [call] + after).d.enabled == (call.a.scalarInput[0] != 0)
  {
    var r := Reaches(REFERENCE, before);
    RunSimulates(START, before + [call] + after, REFERENCE);
    ReachesConcat(REFERENCE, before + [call], after);
    ReachesConcat(REFERENCE, before, [call]);
    assert [call][1..] == [];
    FlagKept(Advance(r, call), after);
  }

  /** Without such a call the driver stays enabled. */
  lemma {:induction false} EnabledByDefault(events: seq<Event>)
    requires Legal(START, events) && NoneEffective(REFERENCE, events)
    ensures Run(START, events).d.enabled
  {
    RunSimulates(START, events, REFERENCE);
    FlagKept(REFERENCE, events);
  }
}
