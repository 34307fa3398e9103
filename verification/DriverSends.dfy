/**
 Everything a driver ever sends: the two wake-up packets of its start, then one response for each guide packet that
 asks for one, all numbered in order.
 */
module DriverSends {
  import opened Bits
  import opened Driver
  import opened DriverRuns
  import opened DriverSafety
  import opened DriverRefinement

  predicate NoStart(events: seq<Event>) {
    forall e <- events :: !e.StartCall?
  }

  /** How many guide packets are answered over a run. */
  function Answered(r: Reference, events: seq<Event>): (n: nat)
    decreases |events|
  {
    if events == [] then 0
    else (if Answers(r, events[0]) then 1 else 0) + Answered(Advance(r, events[0]), events[1..])
  }

  /** The event is a guide packet that is answered. */
  predicate Answers(r: Reference, e: Event) {
    e.Complete? && Responds(r, e.c)
  }

  /** `k` guide responses, numbered from `n`. */
  function Responses(k: nat, n: nat): (ps: seq<seq<byte>>) {
    if k == 0 then [] else [[0x01, 0x20, n % 256, 0x09, 0x00, 0x07, 0x20, 0x02, 0x00]] + Responses(k - 1, n + 1)
  }

  /** One response, if there is one, then the others. */
  lemma NextPackets(first: seq<Effect>, others: seq<Effect>, answered: bool, k: nat, n: nat)
    requires Packets(first) == if answered then [ResponseSent(n)] else []
    requires Packets(others) == Responses(k, if answered then n + 1 else n)
    ensures Packets(first + others) == Responses(if answered then k + 1 else k, n)
  {
    PacketsConcat(first, others);
    assert [] + Responses(k, n) == Responses(k, n);
  }

  /** Between starts only responses are sent. */
  lemma {:induction false} OnlyResponses(r: Reference, events: seq<Event>)
    requires NoStart(events)
    ensures Packets(Outputs(r, events)) == Responses(Answered(r, events), r.sent)
    decreases |events|
  {
    if events == [] {
    } else {
      var e, rest := events[0], events[1..];
      OnlyResponses(Advance(r, e), rest);
      OutputPackets(r, e);
      NextPackets(Output(r, e), Outputs(Advance(r, e), rest), Answers(r, e), Answered(Advance(r, e), rest), r.sent);
    }
  }

  /** Without room for a response none is sent, and the room does not change. */
  lemma {:induction false} NoRoom(r: Reference, events: seq<Event>)
    requires NoStart(events) && r.room < 9
    ensures Answered(r, events) == 0
    ensures Reaches(r, events).room == r.room && Reaches(r, events).sent == r.sent
    decreases |events|
  {
    if events == [] {
    } else {
      NoRoom(Advance(r, events[0]), events[1..]);
    }
  }

  lemma {:induction false} OutputsCons(r: Reference, e: Event, rest: seq<Event>)
    ensures Outputs(r, [e] + rest) == Output(r, e) + Outputs(Advance(r, e), rest)
    ensures Reaches(r, [e] + rest) == Reaches(Advance(r, e), rest)
  {
    assert ([e] + rest)[1..] == rest;
  }

  lemma {:induction false} OutputsConcat(r: Reference, a: seq<Event>, b: seq<Event>)
    ensures Outputs(r, a + b) == Outputs(r, a) + Outputs(Reaches(r, a), b)
    decreases |a|
  {
    if a == [] {
      assert a + b == b;
    } else {
      var e, rest := a[0], a[1..];
      assert a == [e] + rest && a + b == [e] + (rest + b);
      OutputsCons(r, e, rest);
      OutputsCons(r, e, rest + b);
      OutputsConcat(Advance(r, e), rest, b);
      Associative(Output(r, e), Outputs(Advance(r, e), rest), Outputs(Reaches(r, a), b));
    }
  }

  // ---------------------------------------------------------------- one start per run

  lemma StepLeavesFresh(s: System, e: Event)
    requires Safe(s.d) && Possible(s, e) && (s.d.w.phase != Fresh || e.StartCall?)
    ensures Step(s, e).d.w.phase != Fresh
  {
    match e
    case StartCall(env) => StartForm(s.d, env);
    case Complete(c) =>
      CompleteSafe(s.d, c);
      GotDataForm(Delivered(s.d, c.bytes), c);
    case _ =>
  }

  lemma {:induction false} NoSecondStart(s: System, events: seq<Event>)
    requires Safe(s.d) && s.d.w.phase != Fresh && Legal(s, events)
    ensures NoStart(events)
    decreases |events|
  {
    if events == [] {
    } else {
      StepSafe(s, events[0]);
      StepLeavesFresh(s, events[0]);
      NoSecondStart(Step(s, events[0]), events[1..]);
    }
  }

  lemma {:induction false} OneStart(s: System, before: seq<Event>, env: StartEnv, after: seq<Event>)
    requires Safe(s.d) && Legal(s, before + ([StartCall(env)] + after))
    ensures NoStart(before) && NoStart(after)
    decreases |before|
  {
    var rest := [StartCall(env)] + after;
    var events := before + rest;
    StepSafe(s, events[0]);
    if before == [] {
      assert events[1..] == after;
      StepLeavesFresh(s, events[0]);
      NoSecondStart(Step(s, events[0]), after);
    } else {
      assert events[1..] == before[1..] + rest;
      assert events[1..][|before| - 1].StartCall?;
      if before[0].StartCall? {
        StepLeavesFresh(s, events[0]);
        NoSecondStart(Step(s, events[0]), events[1..]);
        assert false;
      }
      OneStart(Step(s, events[0]), before[1..], env, after);
    }
  }

  // ---------------------------------------------------------------- the send trace

  lemma {:induction false} ReferenceSends(before: seq<Event>, env: StartEnv, after: seq<Event>)
    requires NoStart(before) && NoStart(after) && StartPossible(env) && StartSucceeds(env)
    ensures var r := Advance(Reaches(REFERENCE, before), StartCall(env));
            Packets(Outputs(REFERENCE, before + ([StartCall(env)] + after)))
            == Sends(Reaches(REFERENCE, before), StartCall(env)) + Responses(Answered(r, after), r.sent)
  {
    var start, q := StartCall(env), Reaches(REFERENCE, before);
    var r := Advance(q, start);
    OutputsConcat(REFERENCE, before, [start] + after);
    PacketsConcat(Outputs(REFERENCE, before), Outputs(q, [start] + after));
    OnlyResponses(REFERENCE, before);
    NoRoom(REFERENCE, before);
    assert ([start] + after)[1..] == after;
    PacketsConcat(Output(q, start), Outputs(r, after));
    OutputPackets(q, start);
    OnlyResponses(r, after);
  }

  /**
   The send trace, in bytes, of every run with a start that got through: the two wake-up packets, numbered 0 and 1, then
   one response of nine bytes, numbered on from 2, for each guide packet of version 0x30 that was handled while enabled,
   provided the out-buffer holds nine bytes. If it is too short for a wake-up packet nothing is sent at all.
   */
  lemma {:induction false} SendTheorem(before: seq<Event>, env: StartEnv, after: seq<Event>)
    requires Legal(START, before + ([StartCall(env)] + after)) && StartPossible(env) && StartSucceeds(env)
    ensures var r, room := Advance(Reaches(REFERENCE, before), StartCall(env)), |env.outSetup.mapped|;
            && r.room == room
            && (room < 9 ==> Answered(r, after) == 0)
            && Packets(Run(START, before + ([StartCall(env)] + after)).d.w.trace) ==
               if room < 5 then []
               else [[0x05, 0x20, 0x00, 0x01, 0x00], [0x05, 0x20, 0x01, 0x0f, 0x06]] + Responses(Answered(r, after), 2)
  {
    var events, r := before + ([StartCall(env)] + after), Advance(Reaches(REFERENCE, before), StartCall(env));
    OneStart(START, before, env, after);
    RefinementTheorem(events);
    PacketsObserved(Run(START, events).d.w.trace);
    ReferenceSends(before, env, after);
    NoRoom(REFERENCE, before);
    if |env.outSetup.mapped| < 9 {
      NoRoom(r, after);
    }
  }

  /** Without a start that gets through nothing is sent. */
  lemma {:induction false} NoStartNoSends(events: seq<Event>)
    requires Legal(START, events)
    requires forall e <- events :: e.StartCall? ==> StartPossible(e.e) && !StartSucceeds(e.e)
    ensures Packets(Run(START, events).d.w.trace) == []
  {
    RefinementTheorem(events);
    PacketsObserved(Run(START, events).d.w.trace);
    Unheard(REFERENCE, events);
  }

  lemma {:induction false} Unheard(r: Reference, events: seq<Event>)
    requires r.room == 0 && forall e <- events :: e.StartCall? ==> StartPossible(e.e) && !StartSucceeds(e.e)
    ensures Packets(Outputs(r, events)) == []
    decreases |events|
  {
    if events == [] {
    } else {
      var q := Advance(r, events[0]);
      OutputPackets(r, events[0]);
      Unheard(q, events[1..]);
      PacketsConcat(Output(r, events[0]), Outputs(q, events[1..]));
    }
  }
}
