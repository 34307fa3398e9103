/**
 The pipe records of USBPipeData.h as values, and the two start-up routines that fill them:
 the endpoint scan of InitPipes and the buffer set-up of SetupPipe.

 A pointer that may be null is an `Option`, or a `bool` where only its being non-null matters. A pipe object
 is known by its handle. What USBDriverKit answers is an argument.
 */
module UsbPipes {
  import opened Bits
  import opened Wrappers

  datatype EndpointType = ControlType | Isochronous | Bulk | Interrupt
  datatype Direction = Out | In | UnknownDirection
  datatype Endpoint = Endpoint(kind: EndpointType, direction: Direction, address: nat)

  type Handle = nat

  /** `buffer_memory_descriptor`: `mapped` is the memory at `address`, if any. */
  datatype Memory = Memory(buffer: bool, mapped: Option<seq<byte>>, length: nat)

  /** `usb_pipe_data`. */
  datatype PipeData = PipeData(
    pipe: Option<Handle>, speed: nat, interval: nat, reportSize: nat, maxPacketSize: nat,
    descriptor: Option<Endpoint>, memory: Memory)

  const EMPTY_PIPE := PipeData(None, 0, 0, 0, 0, None, Memory(false, None, 0))

  /** A pipe on which transfers can be made: copied, and with a buffer that is mapped in full. */
  predicate PipeReady(p: PipeData) {
    && p.pipe.Some? && p.descriptor.Some?
    && p.interval != 0 && p.maxPacketSize != 0
    && p.memory.buffer && p.memory.mapped.Some? && |p.memory.mapped.value| == p.memory.length
  }

  // ---------------------------------------------------------------- InitPipes

  datatype Slots = Slots(inPipe: PipeData, outPipe: PipeData)

  /** Result of the scan: success, the slots, how many endpoints were looked at, which pipes were copied. */
  datatype Scan = Scan(ok: bool, slots: Slots, consumed: nat, copies: seq<Direction>)

  predicate Wanted(e: Endpoint) {
    e.kind == Interrupt && e.direction != UnknownDirection
  }

  function SlotOf(s: Slots, d: Direction): (p: PipeData) {
    if d == In then s.inPipe else s.outPipe
  }

  function SetSlot(s: Slots, d: Direction, p: PipeData): (t: Slots) {
    if d == In then s.(inPipe := p) else s.(outPipe := p)
  }

  predicate BothPipes(s: Slots) {
    s.inPipe.pipe.Some? && s.outPipe.pipe.Some?
  }

  /** The slot of the endpoint's direction gets its descriptor, then its pipe. */
  function Describe(s: Slots, e: Endpoint): (t: Slots) {
    SetSlot(s, e.direction, SlotOf(s, e.direction).(descriptor := Some(e)))
  }

  function Fill(s: Slots, e: Endpoint, pipe: Option<Handle>): (t: Slots) {
    SetSlot(Describe(s, e), e.direction, SlotOf(Describe(s, e), e.direction).(pipe := pipe))
  }

  /** The scan from endpoint `i` on; `pipes[j]` is what copying the pipe of endpoint `j` yields, if it succeeds. */
  function ScanFrom(eps: seq<Endpoint>, pipes: seq<Option<Handle>>, i: nat, s: Slots, copies: seq<Direction>): (r: Scan)
    requires i <= |eps| == |pipes|
    ensures i <= r.consumed <= |eps|
    decreases |eps| - i
  {
    if i == |eps| then Scan(false, s, i, copies)
    else if !Wanted(eps[i]) then ScanFrom(eps, pipes, i + 1, s, copies)
    else
      if pipes[i].None? then Scan(false, Describe(s, eps[i]), i + 1, copies)
      else
        var t, d := Fill(s, eps[i], pipes[i]), eps[i].direction;
        if BothPipes(t) then Scan(true, t, i + 1, copies + [d])
        else ScanFrom(eps, pipes, i + 1, t, copies + [d])
  }

  const EMPTY_SLOTS := Slots(EMPTY_PIPE, EMPTY_PIPE)

  /** The scan from null pipes. */
  function ScanAll(eps: seq<Endpoint>, pipes: seq<Option<Handle>>): (r: Scan)
    requires |eps| == |pipes|
  {
    ScanFrom(eps, pipes, 0, EMPTY_SLOTS, [])
  }

  /** The last interrupt endpoint of direction `d` among the first `n`. */
  function Last(eps: seq<Endpoint>, d: Direction, n: nat): (r: Option<nat>)
    requires n <= |eps|
    ensures r.Some? ==> r.value < n && Wanted(eps[r.value]) && eps[r.value].direction == d
  {
    if n == 0 then None
    else if Wanted(eps[n - 1]) && eps[n - 1].direction == d then Some(n - 1)
    else Last(eps, d, n - 1)
  }

  function CountOf(eps: seq<Endpoint>, d: Direction, n: nat): (r: nat)
    requires n <= |eps|
  {
    if n == 0 then 0
    else CountOf(eps, d, n - 1) + if Wanted(eps[n - 1]) && eps[n - 1].direction == d then 1 else 0
  }

  /** The first `n` endpoints hold both interrupt directions. */
  predicate BothDirections(eps: seq<Endpoint>, n: nat)
    requires n <= |eps|
  {
    Last(eps, In, n).Some? && Last(eps, Out, n).Some?
  }

  /** `n` is the length of the shortest prefix with both interrupt directions. */
  predicate Shortest(eps: seq<Endpoint>, n: nat)
    requires n <= |eps|
  {
    n > 0 && BothDirections(eps, n) && !BothDirections(eps, n - 1)
  }

  predicate AllCopied(eps: seq<Endpoint>, pipes: seq<Option<Handle>>, n: nat)
    requires n <= |eps| == |pipes|
  {
    forall i | 0 <= i < n && Wanted(eps[i]) :: pipes[i].Some?
  }

  /** The slot of direction `d` after the first `n` endpoints were copied: pipe and descriptor of the last of them. */
  function SlotAfter(eps: seq<Endpoint>, pipes: seq<Option<Handle>>, d: Direction, n: nat): (p: PipeData)
    requires n <= |eps| == |pipes|
  {
    match Last(eps, d, n)
    case None => EMPTY_PIPE
    case Some(k) => EMPTY_PIPE.(pipe := pipes[k], descriptor := Some(eps[k]))
  }

  function SlotsAfter(eps: seq<Endpoint>, pipes: seq<Option<Handle>>, n: nat): (s: Slots)
    requires n <= |eps| == |pipes|
  {
    Slots(SlotAfter(eps, pipes, In, n), SlotAfter(eps, pipes, Out, n))
  }

  /** The directions of the interrupt endpoints among the first `n`, in order. */
  function Interrupts(eps: seq<Endpoint>, n: nat): (ds: seq<Direction>)
    requires n <= |eps|
  {
    if n == 0 then []
    else Interrupts(eps, n - 1) + if Wanted(eps[n - 1]) then [eps[n - 1].direction] else []
  }

  lemma {:induction false} InterruptsCount(eps: seq<Endpoint>, n: nat, d: Direction)
    requires n <= |eps|
    ensures Copies(Interrupts(eps, n), d) == CountOf(eps, d, n)
  {
    if n == 0 {
    } else {
      InterruptsCount(eps, n - 1, d);
      if Wanted(eps[n - 1]) {
        CopiesAppend(Interrupts(eps, n - 1), eps[n - 1].direction, d);
      } else {
        assert Interrupts(eps, n - 1) + [] == Interrupts(eps, n - 1);
      }
    }
  }

  lemma {:induction false} CopiesAppend(copies: seq<Direction>, c: Direction, d: Direction)
    ensures Copies(copies + [c], d) == Copies(copies, d) + if c == d then 1 else 0
  {
    assert (copies + [c])[..|copies|] == copies;
  }

  /** Number of copies made of direction `d`. */
  function Copies(copies: seq<Direction>, d: Direction): (n: nat) {
    if copies == [] then 0
    else Copies(copies[..|copies| - 1], d) + if copies[|copies| - 1] == d then 1 else 0
  }

  /**
   The scan goes through the first `n` endpoints and no further, told from the endpoints and the answers alone: all their
   interrupt pipes can be copied, both directions are not there earlier, and either the list ends, both directions are
   there, or the next pipe cannot be copied.
   */
  predicate Visited(eps: seq<Endpoint>, pipes: seq<Option<Handle>>, n: nat) {
    && n <= |eps| == |pipes|
    && AllCopied(eps, pipes, n)
    && (n > 0 ==> !BothDirections(eps, n - 1))
    && (n == |eps| || BothDirections(eps, n) || (Wanted(eps[n]) && pipes[n].None?))
  }

  /** The scan that stops after `n` endpoints ends with an endpoint whose pipe could not be copied. */
  predicate FailsAt(eps: seq<Endpoint>, pipes: seq<Option<Handle>>, n: nat)
    requires n <= |eps| == |pipes|
  {
    n < |eps| && !BothDirections(eps, n) && Wanted(eps[n]) && pipes[n].None?
  }

  /**
   The slot of direction `d` when the scan stops after `n` endpoints: the pipe of the last endpoint of its direction among
   them, and its descriptor, except that an endpoint whose pipe could not be copied leaves its descriptor all the same.
   */
  predicate SlotHolds(p: PipeData, eps: seq<Endpoint>, pipes: seq<Option<Handle>>, d: Direction, n: nat)
    requires n <= |eps| == |pipes|
  {
    var described := Last(eps, d, if FailsAt(eps, pipes, n) then n + 1 else n);
    && p == EMPTY_PIPE.(pipe := p.pipe, descriptor := p.descriptor)
    && p.pipe == (match Last(eps, d, n) case None => None case Some(k) => pipes[k])
    && p.descriptor == (match described case None => None case Some(k) => Some(eps[k]))
  }

  lemma FillNext(eps: seq<Endpoint>, pipes: seq<Option<Handle>>, i: nat)
    requires i < |eps| == |pipes| && Wanted(eps[i]) && pipes[i].Some? && AllCopied(eps, pipes, i)
    ensures Fill(SlotsAfter(eps, pipes, i), eps[i], pipes[i]) == SlotsAfter(eps, pipes, i + 1)
    ensures AllCopied(eps, pipes, i + 1)
    ensures BothPipes(SlotsAfter(eps, pipes, i + 1)) <==> BothDirections(eps, i + 1)
  {
  }

  /** The loop of InitPipes from endpoint `i` on: it goes through `n` endpoints. */
  lemma {:induction false} ScanFromVisits(eps: seq<Endpoint>, pipes: seq<Option<Handle>>, i: nat) returns (n: nat)
    requires i <= |eps| == |pipes|
    requires !BothDirections(eps, i) && AllCopied(eps, pipes, i)
    ensures Visited(eps, pipes, n)
    ensures ScanEnds(ScanFrom(eps, pipes, i, SlotsAfter(eps, pipes, i), Interrupts(eps, i)), eps, pipes, n)
    decreases |eps| - i
  {
    if i == |eps| || (Wanted(eps[i]) && pipes[i].None?) {
      n := i;
      if i > 0 && BothDirections(eps, i - 1) {
        BothMonotone(eps, i - 1, i);
      }
    } else {
      if !Wanted(eps[i]) {
        assert Interrupts(eps, i) + [] == Interrupts(eps, i);
        n := ScanFromVisits(eps, pipes, i + 1);
      } else {
        FillNext(eps, pipes, i);
        if BothDirections(eps, i + 1) {
          n := i + 1;
        } else {
          n := ScanFromVisits(eps, pipes, i + 1);
        }
      }
    }
  }

  /** The result of a scan that stops after `n` endpoints. */
  predicate ScanEnds(r: Scan, eps: seq<Endpoint>, pipes: seq<Option<Handle>>, n: nat)
    requires n <= |eps| == |pipes|
  {
    && (r.ok <==> BothDirections(eps, n))
    && r.copies == Interrupts(eps, n)
    && r.consumed == (if FailsAt(eps, pipes, n) then n + 1 else n)
    && SlotHolds(r.slots.inPipe, eps, pipes, In, n) && SlotHolds(r.slots.outPipe, eps, pipes, Out, n)
  }

  /** Every scan, also one that fails: where it stops, what it copies, and what it leaves in the slots. */
  lemma ScanVisits(eps: seq<Endpoint>, pipes: seq<Option<Handle>>) returns (n: nat)
    requires |eps| == |pipes|
    ensures Visited(eps, pipes, n)
    ensures ScanEnds(ScanAll(eps, pipes), eps, pipes, n)
  {
    n := ScanFromVisits(eps, pipes, 0);
  }

  /** The same, with the stopping place computed. */
  lemma {:induction false} ScanStops(eps: seq<Endpoint>, pipes: seq<Option<Handle>>)
    requires |eps| == |pipes|
    ensures ScanEnds(ScanAll(eps, pipes), eps, pipes, StopFrom(eps, pipes, 0))
    ensures Visited(eps, pipes, StopFrom(eps, pipes, 0))
  {
    var n := ScanVisits(eps, pipes);
    StopFromVisited(eps, pipes, 0);
    VisitedUnique(eps, pipes, n, StopFrom(eps, pipes, 0));
  }

  /** There is only one place to stop. */
  lemma VisitedUnique(eps: seq<Endpoint>, pipes: seq<Option<Handle>>, m: nat, n: nat)
    requires Visited(eps, pipes, m) && Visited(eps, pipes, n)
    ensures m == n
  {
    VisitedNotBefore(eps, pipes, m, n);
    VisitedNotBefore(eps, pipes, n, m);
  }

  lemma VisitedNotBefore(eps: seq<Endpoint>, pipes: seq<Option<Handle>>, m: nat, n: nat)
    requires Visited(eps, pipes, m) && Visited(eps, pipes, n)
    ensures m >= n
  {
    if m < n && BothDirections(eps, m) {
      BothMonotone(eps, m, n - 1);
    }
  }

  /** That place, found by looking at the endpoints and the answers from `i` on. */
  function StopFrom(eps: seq<Endpoint>, pipes: seq<Option<Handle>>, i: nat): (n: nat)
    requires i <= |eps| == |pipes|
    ensures i <= n <= |eps|
    decreases |eps| - i
  {
    if i == |eps| || BothDirections(eps, i) || (Wanted(eps[i]) && pipes[i].None?) then i
    else StopFrom(eps, pipes, i + 1)
  }

  lemma {:induction false} StopFromVisited(eps: seq<Endpoint>, pipes: seq<Option<Handle>>, i: nat)
    requires i <= |eps| == |pipes| && AllCopied(eps, pipes, i) && (i > 0 ==> !BothDirections(eps, i - 1))
    ensures Visited(eps, pipes, StopFrom(eps, pipes, i))
    decreases |eps| - i
  {
    if i < |eps| && !BothDirections(eps, i) && !(Wanted(eps[i]) && pipes[i].None?) {
      StopFromVisited(eps, pipes, i + 1);
    }
  }

  lemma {:induction false} CountZero(eps: seq<Endpoint>, d: Direction, n: nat)
    requires n <= |eps|
    ensures CountOf(eps, d, n) == 0 <==> Last(eps, d, n).None?
  {
    if n == 0 {
    } else {
      CountZero(eps, d, n - 1);
    }
  }

  /** `Last` is what its name says: nothing of direction `d` comes after it. */
  lemma {:induction false} LastIsLast(eps: seq<Endpoint>, d: Direction, n: nat, i: nat)
    requires i < n <= |eps| && Wanted(eps[i]) && eps[i].direction == d
    ensures Last(eps, d, n).Some? && i <= Last(eps, d, n).value
  {
    if i < n - 1 {
      LastIsLast(eps, d, n - 1, i);
    }
  }

  lemma BothMonotone(eps: seq<Endpoint>, m: nat, n: nat)
    requires m <= n <= |eps| && BothDirections(eps, m)
    ensures BothDirections(eps, n)
  {
    LastIsLast(eps, In, n, Last(eps, In, m).value);
    LastIsLast(eps, Out, n, Last(eps, Out, m).value);
  }

  /** Wherever the scan stops, it has met at most one interrupt endpoint of one of the two directions. */
  lemma {:induction false} OneDirectionOnce(eps: seq<Endpoint>, pipes: seq<Option<Handle>>, n: nat)
    requires Visited(eps, pipes, n)
    ensures CountOf(eps, In, n) <= 1 || CountOf(eps, Out, n) <= 1
  {
    if n > 0 {
      CountZero(eps, In, n - 1);
      CountZero(eps, Out, n - 1);
    }
  }

  /**
   InitPipes succeeds exactly when some shortest prefix of the endpoint list holds both interrupt directions and
   all interrupt pipes of that prefix can be copied. It then stops at the end of that prefix, each slot has the
   pipe and the descriptor of the last endpoint of its direction there, and the endpoint it stopped at is the
   only one of its direction: pipe references are overwritten in the other slot only.
   */
  lemma {:induction false} InitPipesSelects(eps: seq<Endpoint>, pipes: seq<Option<Handle>>)
    requires |eps| == |pipes|
    ensures var r := ScanAll(eps, pipes);
            && (r.ok <==> exists n | 0 <= n <= |eps| :: Shortest(eps, n) && AllCopied(eps, pipes, n))
            && (r.ok ==>
                  && Shortest(eps, r.consumed) && AllCopied(eps, pipes, r.consumed)
                  && r.slots == SlotsAfter(eps, pipes, r.consumed)
                  && r.copies == Interrupts(eps, r.consumed)
                  && CountOf(eps, eps[r.consumed - 1].direction, r.consumed) == 1)
  {
    var r := ScanAll(eps, pipes);
    var n := ScanVisits(eps, pipes);
    if r.ok {
      CountZero(eps, eps[n - 1].direction, n - 1);
    } else {
      forall m | 0 <= m <= |eps| && Shortest(eps, m)
        ensures !AllCopied(eps, pipes, m)
      {
        if m <= n {
          BothMonotone(eps, m, n);
        }
      }
    }
  }

  /** When every pipe can be copied, InitPipes succeeds exactly if both interrupt directions are present at all. */
  lemma InitPipesComplete(eps: seq<Endpoint>, pipes: seq<Option<Handle>>)
    requires |eps| == |pipes| && AllCopied(eps, pipes, |eps|)
    ensures ScanAll(eps, pipes).ok <==> BothDirections(eps, |eps|)
  {
    var n := ScanVisits(eps, pipes);
    if BothDirections(eps, n) {
      BothMonotone(eps, n, |eps|);
    }
  }

  // ---------------------------------------------------------------- SetupPipe

  /** The answers that SetupPipe gets; `mapped` is the mapped memory, its size the mapped length. */
  datatype SetupEnv = SetupEnv(
    speedKnown: bool, speed: nat, interval: nat, maxPacketSize: nat, created: bool, mapOk: bool, mapped: seq<byte>)

  datatype Setup = Setup(ok: bool, pipe: PipeData)

  function SetupPipe(p: PipeData, e: SetupEnv): (r: Setup) {
    if !e.speedKnown then Setup(false, p)
    else
      var p1 := p.(speed := e.speed, interval := e.interval);
      if e.interval == 0 then Setup(false, p1)
      else
        var p2 := p1.(maxPacketSize := e.maxPacketSize);
        if e.maxPacketSize == 0 || !e.created then Setup(false, p2)
        else
          var p3 := p2.(memory := p2.memory.(buffer := true));
          if !e.mapOk then Setup(false, p3)
          else Setup(true, p3.(memory := Memory(true, Some(e.mapped), |e.mapped|)))
  }

  predicate SetupSucceeds(e: SetupEnv) {
    e.speedKnown && e.interval != 0 && e.maxPacketSize != 0 && e.created && e.mapOk
  }

  /** The answers with which a buffer is created, whether or not it can be mapped. */
  predicate Creates(e: SetupEnv) {
    e.speedKnown && e.interval != 0 && e.maxPacketSize != 0 && e.created
  }

  /** What SetupPipe leaves in a record that was not set up before, field by field; nothing of it if it is not reached. */
  predicate SetUpAs(p: PipeData, reached: bool, e: SetupEnv) {
    && p.speed == (if reached && e.speedKnown then e.speed else 0)
    && p.interval == (if reached && e.speedKnown then e.interval else 0)
    && p.maxPacketSize == (if reached && e.speedKnown && e.interval != 0 then e.maxPacketSize else 0)
    && p.memory.buffer == (reached && Creates(e))
    && p.memory.mapped.Some? == (reached && SetupSucceeds(e))
    && p.memory.length == (if reached && SetupSucceeds(e) then |e.mapped| else 0)
  }

  /**
   SetupPipe succeeds exactly on these answers, and success leaves the pipe ready with the mapped memory. Whether it
   succeeds or not, each field has the value that the answers give it, a created buffer is kept even if it cannot be
   mapped, and pipe, descriptor and report size are left alone.
   */
  lemma SetupPipeReady(p: PipeData, e: SetupEnv)
    requires p.pipe.Some? && p.descriptor.Some?
    ensures var r := SetupPipe(p, e);
            && (r.ok <==> SetupSucceeds(e))
            && (r.ok ==> PipeReady(r.pipe) && r.pipe.memory.mapped == Some(e.mapped))
            && r.pipe.pipe == p.pipe && r.pipe.descriptor == p.descriptor && r.pipe.reportSize == p.reportSize
            && (p == EMPTY_PIPE.(pipe := p.pipe, descriptor := p.descriptor) ==> SetUpAs(r.pipe, true, e))
  {
  }
}
