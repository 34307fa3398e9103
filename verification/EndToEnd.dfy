/**
 Where the two halves meet: for every run of the driver, what the host reads, through the descriptor the driver gave
 it, from the buffers the driver passed on unchanged, is what the packet structs say about the controller's packets.
 */
module EndToEnd {
  import opened Bits
  import opened Wrappers
  import opened HidReports
  import opened Driver
  import opened DriverRuns
  import opened DriverRefinement
  import P = XboxPackets
  import X = XboxDescriptor
  import M = XboxMeaning

  /** What the host makes of one handleReport call: it gets the first `count` bytes of the buffer. */
  function HostReadsReport(bytes: seq<byte>, count: nat): (r: Result<seq<Control>, HostError>) {
    HostReads(X.REPORT_DESCRIPTOR, if count < |bytes| then bytes[..count] else bytes)
  }

  /** The host's readings over a trace. */
  function HostSees(t: seq<Effect>): (rs: seq<Result<seq<Control>, HostError>>) {
    if t == [] then []
    else (if t[0].Report? then [HostReadsReport(t[0].bytes, t[0].count)] else []) + HostSees(t[1..])
  }

  /** Enough of a guide packet has arrived. */
  predicate WholeGuide(bytes: seq<byte>, count: nat) {
    GuideHeader(bytes) && |bytes| >= 6 && count >= 6
  }

  /** What the structs say about a packet with a known header, of which `count` bytes arrived. */
  function Meaning(bytes: seq<byte>, count: nat): (r: Result<seq<Control>, HostError>) {
    if WholeGuide(bytes, count) then Ok([Control(Some(X.Button(16)), P.ReadGuideReport(bytes).guide)])
    else if ButtonHeader(bytes) && |bytes| >= 18 && count >= 18 then
      Ok(M.ButtonReportControls(P.ReadButtonReport(bytes)))
    else Err(ShortReport)
  }

  /** What a host can read of it: the descriptor makes only the lowest bit of the guide byte a button. */
  function Reading(bytes: seq<byte>, count: nat): (r: Result<seq<Control>, HostError>) {
    if WholeGuide(bytes, count) then Ok([Control(Some(X.Button(16)), P.ReadGuideReport(bytes).guide % 2)])
    else Meaning(bytes, count)
  }

  /** The meanings of the packets that the reference machine forwards. */
  function Meanings(r: Reference, events: seq<Event>): (rs: seq<Result<seq<Control>, HostError>>)
    decreases |events|
  {
    if events == [] then []
    else
      (if Passes(r, events[0]) then [Meaning(events[0].c.bytes, events[0].c.count)] else [])
      + Meanings(Advance(r, events[0]), events[1..])
  }

  function Readings(r: Reference, events: seq<Event>): (rs: seq<Result<seq<Control>, HostError>>)
    decreases |events|
  {
    if events == [] then []
    else
      (if Passes(r, events[0]) then [Reading(events[0].c.bytes, events[0].c.count)] else [])
      + Readings(Advance(r, events[0]), events[1..])
  }

  /** The event is a completion whose packet is passed on. */
  predicate Passes(r: Reference, e: Event) {
    e.Complete? && Forwards(r, e.c)
  }

  /** Every guide packet that is passed on whole has a guide byte of 0 or 1. */
  predicate GuidesAreFlags(r: Reference, events: seq<Event>)
    decreases |events|
  {
    events != [] ==>
      && (Passes(r, events[0]) && WholeGuide(events[0].c.bytes, events[0].c.count) ==> events[0].c.bytes[4] <= 1)
      && GuidesAreFlags(Advance(r, events[0]), events[1..])
  }

  lemma {:induction false} HostSeesCons(x: Effect, t: seq<Effect>)
    ensures HostSees([x] + t) == (if x.Report? then [HostReadsReport(x.bytes, x.count)] else []) + HostSees(t)
  {
    assert ([x] + t)[1..] == t;
  }

  lemma {:induction false} HostSeesConcat(a: seq<Effect>, b: seq<Effect>)
    ensures HostSees(a + b) == HostSees(a) + HostSees(b)
  {
    if a == [] {
      assert a + b == b;
    } else {
      var x, rest := a[0], a[1..];
      assert a == [x] + rest && a + b == [x] + (rest + b);
      HostSeesCons(x, rest);
      HostSeesCons(x, rest + b);
      HostSeesConcat(rest, b);
    }
  }

  lemma {:induction false} HostSeesObserved(t: seq<Effect>)
    ensures HostSees(Observe(t)) == HostSees(t)
  {
    if t == [] {
    } else {
      HostSeesObserved(t[1..]);
      if Observable(t[0]) {
        assert Observe(t)[1..] == Observe(t[1..]);
      } else {
        assert Observe(t) == Observe(t[1..]);
      }
    }
  }

  lemma ReportReading(bytes: seq<byte>, count: nat)
    requires ButtonHeader(bytes) || GuideHeader(bytes)
    ensures HostReadsReport(bytes, count) == Reading(bytes, count)
  {
    var p := if count < |bytes| then bytes[..count] else bytes;
    if p == [] {
      EmptyPacket();
    } else if ButtonHeader(bytes) {
      M.ButtonMeaning(p);
    } else {
      M.GuideMeaning(p);
    }
  }

  lemma EmptyPacket()
    ensures HostReads(X.REPORT_DESCRIPTOR, []) == Err(ShortReport)
  {
    X.DescriptorParses();
    var t := X.DescriptorFields();
  }

  lemma OutputReading(r: Reference, e: Event)
    ensures HostSees(Output(r, e)) == if Passes(r, e) then [Reading(e.c.bytes, e.c.count)] else []
  {
    if Passes(r, e) {
      var c := e.c;
      var reported, others := Reports(r, c), Response(r, c) + [Arm(r.input, r.inRoom, c.armOk)];
      assert Output(r, e) == reported + others && reported[1..] == [];
      NoReports(others);
      HostSeesConcat(reported, others);
      ReportReading(c.bytes, c.count);
    } else {
      NoReports(Output(r, e));
    }
  }

  lemma {:induction false} NoReports(es: seq<Effect>)
    requires forall x <- es :: !x.Report?
    ensures HostSees(es) == []
  {
    if es == [] {
    } else {
      NoReports(es[1..]);
    }
  }

  lemma {:induction false} OutputsRead(r: Reference, events: seq<Event>)
    ensures HostSees(Outputs(r, events)) == Readings(r, events)
    decreases |events|
  {
    if events == [] {
    } else {
      OutputReading(r, events[0]);
      OutputsRead(Advance(r, events[0]), events[1..]);
      HostSeesConcat(Output(r, events[0]), Outputs(Advance(r, events[0]), events[1..]));
    }
  }

  /**
   Over every run the host reads, each once and in order, the packets that arrived without error while the driver was
   enabled and whose header is a known one; packets that arrived short are refused by the host.
   */
  lemma {:induction false} ReadingTheorem(events: seq<Event>)
    requires Legal(START, events)
    ensures HostSees(Run(START, events).d.w.trace) == Readings(REFERENCE, events)
  {
    RefinementTheorem(events);
    HostSeesObserved(Run(START, events).d.w.trace);
    OutputsRead(REFERENCE, events);
  }

  // ---------------------------------------------------------------- when the readings are the meanings

  lemma ReadingIsMeaning(bytes: seq<byte>, count: nat)
    ensures Reading(bytes, count) == Meaning(bytes, count) <==> (WholeGuide(bytes, count) ==> bytes[4] <= 1)
  {
    if WholeGuide(bytes, count) {
      assert [Control(Some(X.Button(16)), bytes[4] % 2)][0].value == bytes[4] % 2;
      assert [Control(Some(X.Button(16)), bytes[4])][0].value == bytes[4];
    }
  }

  lemma SameHeads<T>(a: T, s: seq<T>, b: T, t: seq<T>)
    ensures [a] + s == [b] + t <==> a == b && s == t
  {
    assert ([a] + s)[0] == a && ([a] + s)[1..] == s && ([b] + t)[0] == b && ([b] + t)[1..] == t;
  }

  lemma {:induction false} ReadingsAreMeanings(r: Reference, events: seq<Event>)
    ensures Readings(r, events) == Meanings(r, events) <==> GuidesAreFlags(r, events)
    decreases |events|
  {
    if events == [] {
    } else {
      var q := Advance(r, events[0]);
      ReadingsAreMeanings(q, events[1..]);
      if Passes(r, events[0]) {
        var bytes, count := events[0].c.bytes, events[0].c.count;
        ReadingIsMeaning(bytes, count);
        SameHeads(Reading(bytes, count), Readings(q, events[1..]), Meaning(bytes, count), Meanings(q, events[1..]));
      } else {
        assert Readings(r, events) == Readings(q, events[1..]) && Meanings(r, events) == Meanings(q, events[1..]);
      }
    }
  }

  /**
   End to end: over every run, what the host reads is exactly what the structs say about the packets passed on, each
   once and in order, if and only if no guide packet that is passed on whole has a guide byte above 1.
   */
  lemma {:induction false} EndToEndTheorem(events: seq<Event>)
    requires Legal(START, events)
    ensures HostSees(Run(START, events).d.w.trace) == Meanings(REFERENCE, events) <==> GuidesAreFlags(REFERENCE, events)
  {
    ReadingTheorem(events);
    ReadingsAreMeanings(REFERENCE, events);
  }
}
