/**
 Runs of the driver and of any number of user clients: every order of starts, completions, licensing calls, stops,
 finished cancels, and retains and releases by others, with every combination of answers from the libraries.

 What is assumed of the surroundings is `Possible`: one start per instance, a completion only for a read that was
 accepted, a buffer of at least a packet header for the in-pipe, and no use of a freed driver.
 */
module DriverRuns {
  import opened Bits
  import opened Wrappers
  import opened UsbPipes
  import opened Driver
  import opened Licensing
  import P = XboxPackets

  datatype Event =
    | StartCall(e: StartEnv)
    | Complete(c: Completion)
    | StopCall
    | CancelFinished(call: nat)
    | RetainByOther
    | ReleaseByOther
    | FreeCall
    | NewClient(id: nat, created: bool, isClient: bool)
    | SetInputInterface(id: nat, isInputInterface: bool)
    | ClientCall(id: nat, selector: uint64, a: Arguments)

  /** The driver, and its clients with whether each has an input interface. */
  datatype System = System(d: Driver, clients: map<nat, bool>)

  const START := System(INITIAL, map[])

  predicate StartPossible(e: StartEnv) {
    |e.endpoints| == |e.pipes| && |e.inSetup.mapped| >= P.REPORT_HEADER_SIZE
  }

  predicate Possible(s: System, e: Event) {
    var w := s.d.w;
    match e
    case StartCall(env) => w.phase == Fresh && StartPossible(env)
    case Complete(c) => w.phase != Freed && w.pending > 0 && |c.bytes| == s.d.inPipe.memory.length
    case StopCall => w.phase != Freed && w.external > 0
    case CancelFinished(call) => call in w.inFlight
    case RetainByOther => w.phase != Freed && w.external > 0
    case ReleaseByOther => w.external > 0
    case FreeCall => w.phase != Freed && w.refs == 0
    case NewClient(_, _, _) => w.phase != Freed
    case SetInputInterface(id, _) => w.phase != Freed && id in s.clients
    case ClientCall(id, _, _) => w.phase != Freed && id in s.clients
  }

  function Step(s: System, e: Event): (t: System)
    requires Possible(s, e)
  {
    var d, w := s.d, s.d.w;
    match e
    case StartCall(env) => s.(d := Start(d, env))
    case Complete(c) => s.(d := GotData(Delivered(d, c.bytes), c))
    case StopCall => s.(d := Stop(d))
    case CancelFinished(call) => s.(d := CancelDone(d, call))
    case RetainByOther => s.(d := d.(w := w.(external := w.external + 1, refs := w.refs + 1)))
    case ReleaseByOther => s.(d := d.(w := w.(external := w.external - 1, refs := w.refs - 1)))
    case FreeCall => s.(d := Free(d))
    case NewClient(id, created, isClient) => if created && isClient then s.(clients := s.clients[id := true]) else s
    case SetInputInterface(id, isInput) => s.(clients := s.clients[id := isInput])
    case ClientCall(id, selector, a) =>
      if Licenses(selector, a) && s.clients[id] then s.(d := SetEnable(d, a.scalarInput[0] != 0)) else s
  }

  predicate Legal(s: System, events: seq<Event>)
    decreases |events|
  {
    events != [] ==> Possible(s, events[0]) && Legal(Step(s, events[0]), events[1..])
  }

  function Run(s: System, events: seq<Event>): (t: System)
    requires Legal(s, events)
    decreases |events|
  {
    if events == [] then s else Run(Step(s, events[0]), events[1..])
  }

  /** The start that happened, if any; `o` is one that happened before. */
  function StartOf(o: Option<StartEnv>, events: seq<Event>): (r: Option<StartEnv>)
    decreases |events|
  {
    if events == [] then o
    else StartOf(if events[0].StartCall? then Some(events[0].e) else o, events[1..])
  }

  // ---------------------------------------------------------------- data to the device

  /** Both pipes and their buffers are there, the in-buffer holds a header, and the action exists. */
  predicate Ready(d: Driver) {
    && PipeReady(d.inPipe) && PipeReady(d.outPipe)
    && d.inPipe.memory.length >= P.REPORT_HEADER_SIZE
    && d.action
  }

  // The three packets as they go out, numbered `n`.

  function InitSent(n: nat): (p: seq<byte>) {
    [0x05, 0x20, n % 256, 0x01, 0x00]
  }

  function SwapSent(n: nat): (p: seq<byte>) {
    [0x05, 0x20, n % 256, 0x0f, 0x06]
  }

  function ResponseSent(n: nat): (p: seq<byte>) {
    [0x01, 0x20, n % 256, 0x09, 0x00, 0x07, 0x20, 0x02, 0x00]
  }

  /** A pipe record whose buffer starts with the packet and is otherwise as it was. */
  function Overlaid(p: PipeData, packet: seq<byte>): (q: PipeData)
    requires p.memory.mapped.Some? && |packet| <= |p.memory.mapped.value|
  {
    p.(memory := p.memory.(mapped := Some(packet + p.memory.mapped.value[|packet|..])))
  }

  /**
   SendInterruptData on a ready pipe. A packet that does not fit changes nothing. Of any other the third byte is replaced
   by the counter; it then stands at the start of the out-buffer, bytes past its end are kept, exactly it is sent, on the
   out-pipe, and the counter goes on modulo 256.
   */
  lemma SendForm(d: Driver, data: seq<byte>, packet: seq<byte>)
    requires PipeReady(d.outPipe) && |data| >= 3 && packet == data[2 := d.outCounter]
    ensures |data| > d.outPipe.memory.length ==> SendInterruptData(d, data) == d
    ensures |data| <= d.outPipe.memory.length ==>
              var r := SendInterruptData(d, data);
              && r.outPipe == Overlaid(d.outPipe, packet) && PipeReady(r.outPipe)
              && r.outCounter == (d.outCounter + 1) % 256
              && r.w == d.w.(trace := d.w.trace + [Send(d.outPipe.pipe, packet)])
              && r == d.(outPipe := r.outPipe, outCounter := r.outCounter, w := r.w)
  {
    if |data| <= d.outPipe.memory.length {
      Stamping(data, d.outPipe.memory.mapped.value, packet, d.outCounter);
    }
  }

  /** Writing the counter into the copied packet is the same as copying the packet with the counter in it. */
  lemma Stamping(data: seq<byte>, m: seq<byte>, packet: seq<byte>, n: byte)
    requires 3 <= |data| <= |m| && packet == data[2 := n]
    ensures (data + m[|data|..])[2 := n] == packet + m[|data|..]
    ensures (data + m[|data|..])[2 := n][..|data|] == packet
  {
    var buffer := (data + m[|data|..])[2 := n];
    assert buffer[..|data|] == packet;
    assert buffer == packet + m[|data|..];
  }

  // ---------------------------------------------------------------- data from the device

  predicate ButtonHeader(bytes: seq<byte>) {
    |bytes| >= 4 && bytes[0] == 0x20 && bytes[3] == 14
  }

  predicate GuideHeader(bytes: seq<byte>) {
    |bytes| >= 4 && bytes[0] == 0x07 && bytes[3] == 2
  }

  /** A guide packet that is answered: the host accepted it, it asks for an answer, and the answer fits. */
  predicate Replies(d: Driver, c: Completion) {
    GuideHeader(c.bytes) && c.guideHandled && c.bytes[1] == 0x30 && d.outPipe.memory.length >= 9
  }

  /** The calls made by HandleControllerReport and by HandleGuideReport. */
  function ControllerEffects(c: Completion): (es: seq<Effect>) {
    if ButtonHeader(c.bytes) then [Look, Report(c.bytes, c.count, c.timestamp)] else [Look]
  }

  function GuideEffects(d: Driver, c: Completion): (es: seq<Effect>) {
    if !GuideHeader(c.bytes) then [Look]
    else if !c.guideHandled then [Look, Report(c.bytes, c.count, c.timestamp)]
    else
      [Look, Report(c.bytes, c.count, c.timestamp), Look]
      + if Replies(d, c) then [Send(d.outPipe.pipe, ResponseSent(d.outCounter))] else []
  }

  /** The calls made while handling one completion, before the next read is asked for. */
  function HandlingEffects(d: Driver, c: Completion): (es: seq<Effect>) {
    if !c.ok || !d.enabled then []
    else if ButtonHeader(c.bytes) && c.controllerHandled then ControllerEffects(c)
    else ControllerEffects(c) + GuideEffects(d, c)
  }

  function Request(d: Driver, ok: bool): (x: Effect) {
    Arm(d.inPipe.pipe, d.inPipe.memory.length, ok)
  }

  /** Two drivers that differ at most in the content of the out-buffer, in the counter and the world. */
  predicate SameButOut(d: Driver, r: Driver) {
    && r == d.(outPipe := r.outPipe, outCounter := r.outCounter, w := r.w)
    && r.outPipe == d.outPipe.(memory := d.outPipe.memory.(mapped := r.outPipe.memory.mapped))
    && PipeReady(r.outPipe)
  }

  /** From `d` to `r` there were the effects `es`, one response among them if `answered`, left in the out-buffer. */
  predicate Answers(d: Driver, r: Driver, es: seq<Effect>, answered: bool)
    requires PipeReady(d.outPipe) && (answered ==> d.outPipe.memory.length >= 9)
  {
    && SameButOut(d, r) && r.w == Emit(d, es).w
    && r.outPipe == (if answered then Overlaid(d.outPipe, ResponseSent(d.outCounter)) else d.outPipe)
    && r.outCounter == (if answered then (d.outCounter + 1) % 256 else d.outCounter)
  }

  predicate Holding(d: Driver, c: Completion) {
    Ready(d) && d.inPipe.memory.mapped == Some(c.bytes)
  }

  lemma EmitTwice(d: Driver, a: seq<Effect>, b: seq<Effect>)
    ensures Emit(Emit(d, a), b) == Emit(d, a + b)
  {
    assert d.w.trace + a + b == d.w.trace + (a + b);
  }

  lemma GenericForm(d: Driver, c: Completion, packetType: byte, size: byte, accepted: bool)
    requires Holding(d, c)
    ensures var matches, report := c.bytes[0] == packetType && c.bytes[3] == size, Report(c.bytes, c.count, c.timestamp);
            HandleReportGeneric(d, c, packetType, size, accepted) ==
            Handled(Emit(d, if matches then [Look, report] else [Look]), matches && accepted)
  {
    EmitTwice(d, [Look], [Report(c.bytes, c.count, c.timestamp)]);
  }

  lemma ControllerForm(d: Driver, c: Completion)
    requires Holding(d, c)
    ensures HandleControllerReport(d, c) ==
            Handled(Emit(d, ControllerEffects(c)), ButtonHeader(c.bytes) && c.controllerHandled)
  {
    GenericForm(d, c, P.IN_BUTTON, P.BUTTON_REPORT_SIZE, c.controllerHandled);
  }

  lemma GuideForm(d: Driver, c: Completion)
    requires Holding(d, c)
    ensures HandleGuideReport(d, c).ok == (GuideHeader(c.bytes) && c.guideHandled)
    ensures Answers(d, HandleGuideReport(d, c).d, GuideEffects(d, c), Replies(d, c))
  {
    var report := Report(c.bytes, c.count, c.timestamp);
    GenericForm(d, c, P.IN_GUIDE, P.GUIDE_REPORT_SIZE, c.guideHandled);
    if GuideHeader(c.bytes) && c.guideHandled {
      EmitTwice(d, [Look, report], [Look]);
      AnswerForm(d, Emit(d, [Look, report, Look]), c);
    }
  }

  lemma ResponseBytes(n: byte)
    ensures P.GUIDE_RESPONSE_SENT[2 := n] == ResponseSent(n)
    ensures P.INIT_PACKET[2 := n] == InitSent(n) && P.SWAP_TO_WIRED_PACKET[2 := n] == SwapSent(n)
  {
  }

  /** The answer to a guide packet, after the effects that took `d` to `looked`. */
  lemma AnswerForm(d: Driver, looked: Driver, c: Completion)
    requires Holding(d, c) && looked == Emit(d, [Look, Report(c.bytes, c.count, c.timestamp), Look])
    requires GuideHeader(c.bytes) && c.guideHandled
    ensures var r := if c.bytes[1] == 0x30 then SendInterruptData(looked, P.GUIDE_RESPONSE_SENT) else looked;
            Answers(d, r, GuideEffects(d, c), Replies(d, c))
  {
    var es := [Look, Report(c.bytes, c.count, c.timestamp), Look];
    ResponseBytes(d.outCounter);
    SendForm(looked, P.GUIDE_RESPONSE_SENT, ResponseSent(d.outCounter));
    EmitTwice(d, es, [Send(d.outPipe.pipe, ResponseSent(d.outCounter))]);
    assert es + [] == es;
  }

  /** A packet that HandleControllerReport did not handle goes to HandleGuideReport. */
  lemma PassedOnForm(d: Driver, c: Completion)
    requires Holding(d, c)
    ensures Answers(d, HandleGuideReport(Emit(d, ControllerEffects(c)), c).d, ControllerEffects(c) + GuideEffects(d, c),
                    Replies(d, c))
  {
    GuideForm(Emit(d, ControllerEffects(c)), c);
    EmitTwice(d, ControllerEffects(c), GuideEffects(d, c));
  }

  lemma HandlingForm(d: Driver, c: Completion)
    requires Holding(d, c)
    ensures Answers(d, HandlePacket(d, c), HandlingEffects(d, c), c.ok && d.enabled && Replies(d, c))
  {
    assert d.w.trace + [] == d.w.trace;
    if c.ok && d.enabled {
      ControllerForm(d, c);
      if !(ButtonHeader(c.bytes) && c.controllerHandled) {
        PassedOnForm(d, c);
      }
    }
  }

  /**
   GotData on a ready driver that holds the bytes: exactly those calls, then one request on the in-pipe, and no fault;
   the out-buffer and the counter change exactly if a response was sent.
   */
  lemma GotDataForm(d: Driver, c: Completion)
    requires Holding(d, c)
    ensures var r := GotData(d, c);
            && r.w.pending == d.w.pending + (if c.armOk then 1 else 0)
            && Answers(d, r.(w := r.w.(pending := d.w.pending)), HandlingEffects(d, c) + [Request(d, c.armOk)],
                       c.ok && d.enabled && Replies(d, c))
  {
    HandlingForm(d, c);
    EmitTwice(d, HandlingEffects(d, c), [Request(d, c.armOk)]);
  }

  // ---------------------------------------------------------------- what a start does, from the answers alone

  /** A driver that has not been started: no pointer is set and nothing was sent. */
  predicate Blank(d: Driver) {
    && !d.interface && !d.config && !d.interfaceDescriptor && !d.action
    && d.inPipe == EMPTY_PIPE && d.outPipe == EMPTY_PIPE && d.outCounter == 0 && d.w.pending == 0
  }

  predicate PipesFound(e: StartEnv)
    requires |e.endpoints| == |e.pipes|
  {
    exists n | 0 <= n <= |e.endpoints| :: Shortest(e.endpoints, n) && AllCopied(e.endpoints, e.pipes, n)
  }

  /** handleStart is reached. */
  predicate Tried(e: StartEnv) {
    e.isUsbInterface && e.openOk && e.superStart
  }

  /** InitPipes is reached. */
  predicate Scans(e: StartEnv) {
    Tried(e) && e.superHandleStart && e.config && e.interfaceDescriptor
  }

  /** SetupPipe is reached for the in-pipe; for the out-pipe it is if that succeeded. */
  predicate SetsUp(e: StartEnv)
    requires |e.endpoints| == |e.pipes|
  {
    Scans(e) && PipesFound(e) && e.properties
  }

  predicate SetsUpOut(e: StartEnv)
    requires |e.endpoints| == |e.pipes|
  {
    SetsUp(e) && SetupSucceeds(e.inSetup)
  }

  /** Exactly the answers with which handleStart is reached and returns true. */
  predicate StartSucceeds(e: StartEnv)
    requires |e.endpoints| == |e.pipes|
  {
    SetsUpOut(e) && SetupSucceeds(e.outSetup) && e.action
  }

  /** Where the endpoint scan stops. */
  function StopPlace(e: StartEnv): (n: nat)
    requires |e.endpoints| == |e.pipes|
    ensures n <= |e.endpoints|
  {
    StopFrom(e.endpoints, e.pipes, 0)
  }

  /** The pipe of the last interrupt endpoint of direction `d` up to there. */
  function PipeOf(e: StartEnv, d: Direction): (p: Option<Handle>)
    requires |e.endpoints| == |e.pipes|
  {
    match Last(e.endpoints, d, StopPlace(e)) case None => None case Some(k) => e.pipes[k]
  }

  /** The pipe record of direction `d`, as far as InitPipes writes it. */
  predicate SlotAs(p: PipeData, e: StartEnv, d: Direction)
    requires |e.endpoints| == |e.pipes|
  {
    if Scans(e)
    then SlotHolds(EMPTY_PIPE.(pipe := p.pipe, descriptor := p.descriptor), e.endpoints, e.pipes, d, StopPlace(e))
    else p.pipe == None && p.descriptor == None
  }

  /** Every instance variable that a start writes, from the answers it got. */
  predicate Fields(d: Driver, e: StartEnv)
    requires |e.endpoints| == |e.pipes|
  {
    && d.interface == e.isUsbInterface
    && d.config == (Tried(e) && e.superHandleStart && e.config)
    && d.interfaceDescriptor == Scans(e)
    && d.action == StartSucceeds(e)
    && SlotAs(d.inPipe, e, In) && SetUpAs(d.inPipe, SetsUp(e), e.inSetup)
    && SlotAs(d.outPipe, e, Out) && SetUpAs(d.outPipe, SetsUpOut(e), e.outSetup)
    && d.inPipe.reportSize ==
       (if !SetsUpOut(e) then 0 else if SetupSucceeds(e.outSetup) then e.outReportSize else e.inReportSize)
    && d.outPipe.reportSize == 0
  }

  function SetupEffects(e: StartEnv): (es: seq<Effect>) {
    [Acquire(Properties)]
    + (Gained(InBuffer, Creates(e.inSetup)) + Gained(OutBuffer, SetupSucceeds(e.inSetup) && Creates(e.outSetup)))
    + [Release(Properties)]
  }

  function EquipEffects(e: StartEnv): (es: seq<Effect>)
    requires |e.endpoints| == |e.pipes|
  {
    if SetsUp(e) then SetupEffects(e) + Gained(Action, StartSucceeds(e)) else []
  }

  function ScanEffects(e: StartEnv): (es: seq<Effect>)
    requires |e.endpoints| == |e.pipes|
  {
    if Scans(e) then CopyEffects(Interrupts(e.endpoints, StopPlace(e))) + EquipEffects(e) else []
  }

  /** The acquisitions and releases of a start, in order, up to where it fails or starts listening. */
  function PrepareEffects(e: StartEnv): (es: seq<Effect>)
    requires |e.endpoints| == |e.pipes|
  {
    if Tried(e) && e.superHandleStart then Gained(Config, e.config) + ScanEffects(e) else []
  }

  predicate Succeeded(o: Option<StartEnv>) {
    o.Some? && StartPossible(o.value) && StartSucceeds(o.value)
  }

  /** The two wake-up packets, if they fit, numbered from `n`. */
  function WakeUp(pipe: Option<Handle>, room: nat, n: nat): (es: seq<Effect>) {
    if room < 5 then [] else [Send(pipe, InitSent(n)), Send(pipe, SwapSent(n + 1))]
  }

  /** The wake-up packets, the first request for a read, and the retain of the interface. */
  function ListenEffects(e: StartEnv): (es: seq<Effect>)
    requires |e.endpoints| == |e.pipes|
  {
    WakeUp(PipeOf(e, Out), |e.outSetup.mapped|, 0)
    + [Arm(PipeOf(e, In), |e.inSetup.mapped|, e.armOk), Acquire(Interface)]
  }

  function StartEffects(e: StartEnv): (es: seq<Effect>)
    requires |e.endpoints| == |e.pipes|
  {
    PrepareEffects(e) + if StartSucceeds(e) then ListenEffects(e) else []
  }

  // ---------------------------------------------------------------- the start does it

  predicate Copied(p: PipeData) {
    p.pipe.Some? && p.descriptor.Some?
  }

  /** A record that InitPipes has filled and SetupPipe has not. */
  predicate Pristine(p: PipeData) {
    p == EMPTY_PIPE.(pipe := p.pipe, descriptor := p.descriptor)
  }

  lemma DescriptorsForm(d: Driver, e: StartEnv)
    requires !d.interfaceDescriptor
    ensures InitDescriptors(d, e) ==
            Handled(Emit(d, Gained(Config, e.config))
                      .(config := e.config, interfaceDescriptor := e.config && e.interfaceDescriptor),
                    e.config && e.interfaceDescriptor)
  {
  }

  lemma PipesForm(d: Driver, e: StartEnv)
    requires |e.endpoints| == |e.pipes| && d.inPipe == EMPTY_PIPE && d.outPipe == EMPTY_PIPE
    ensures var r, n := InitPipes(d, e), StopPlace(e);
            && (r.ok <==> PipesFound(e))
            && r.d == Emit(d, CopyEffects(Interrupts(e.endpoints, n))).(inPipe := r.d.inPipe, outPipe := r.d.outPipe)
            && SlotHolds(r.d.inPipe, e.endpoints, e.pipes, In, n) && SlotHolds(r.d.outPipe, e.endpoints, e.pipes, Out, n)
            && (r.ok ==> Copied(r.d.inPipe) && Copied(r.d.outPipe))
  {
    ScanStops(e.endpoints, e.pipes);
    InitPipesSelects(e.endpoints, e.pipes);
  }

  lemma InBufferForm(d: Driver, e: StartEnv)
    requires Copied(d.inPipe) && Pristine(d.inPipe)
    ensures var r := SetupInPipe(d, e);
            && (r.ok <==> SetupSucceeds(e.inSetup))
            && r.d == Emit(d, Gained(InBuffer, Creates(e.inSetup))).(inPipe := r.d.inPipe)
            && r.d.inPipe.pipe == d.inPipe.pipe && r.d.inPipe.descriptor == d.inPipe.descriptor
            && SetUpAs(r.d.inPipe, true, e.inSetup)
            && r.d.inPipe.reportSize == (if r.ok then e.inReportSize else 0)
            && (r.ok ==> PipeReady(r.d.inPipe) && r.d.inPipe.memory.mapped == Some(e.inSetup.mapped))
  {
    SetupPipeReady(d.inPipe, e.inSetup);
  }

  lemma OutBufferForm(d: Driver, e: StartEnv)
    requires Copied(d.outPipe) && Pristine(d.outPipe)
    ensures var r := SetupOutPipe(d, e);
            && (r.ok <==> SetupSucceeds(e.outSetup))
            && r.d == Emit(d, Gained(OutBuffer, Creates(e.outSetup))).(inPipe := r.d.inPipe, outPipe := r.d.outPipe)
            && r.d.inPipe == (if r.ok then d.inPipe.(reportSize := e.outReportSize) else d.inPipe)
            && r.d.outPipe.pipe == d.outPipe.pipe && r.d.outPipe.descriptor == d.outPipe.descriptor
            && SetUpAs(r.d.outPipe, true, e.outSetup) && r.d.outPipe.reportSize == 0
            && (r.ok ==> PipeReady(r.d.outPipe) && r.d.outPipe.memory.mapped == Some(e.outSetup.mapped))
  {
    SetupPipeReady(d.outPipe, e.outSetup);
  }

  /** What the two SetupPipe calls leave in the records, whether they succeed or not. */
  predicate SetUp(d: Driver, r: Driver, e: StartEnv) {
    && r.inPipe.pipe == d.inPipe.pipe && r.inPipe.descriptor == d.inPipe.descriptor
    && r.outPipe.pipe == d.outPipe.pipe && r.outPipe.descriptor == d.outPipe.descriptor
    && SetUpAs(r.inPipe, true, e.inSetup) && SetUpAs(r.outPipe, SetupSucceeds(e.inSetup), e.outSetup)
    && r.inPipe.reportSize ==
       (if !SetupSucceeds(e.inSetup) then 0 else if SetupSucceeds(e.outSetup) then e.outReportSize else e.inReportSize)
    && r.outPipe.reportSize == 0
    && (SetupSucceeds(e.inSetup) ==> PipeReady(r.inPipe) && r.inPipe.memory.mapped == Some(e.inSetup.mapped))
    && (SetupSucceeds(e.inSetup) && SetupSucceeds(e.outSetup) ==>
          PipeReady(r.outPipe) && r.outPipe.memory.mapped == Some(e.outSetup.mapped))
  }

  lemma BothForm(d: Driver, e: StartEnv)
    requires Copied(d.inPipe) && Copied(d.outPipe) && Pristine(d.inPipe) && Pristine(d.outPipe)
    ensures var r := SetupBoth(d, e);
            && (r.ok <==> SetupSucceeds(e.inSetup) && SetupSucceeds(e.outSetup)) && SetUp(d, r.d, e)
            && r.d == Emit(d, Gained(InBuffer, Creates(e.inSetup))
                              + Gained(OutBuffer, SetupSucceeds(e.inSetup) && Creates(e.outSetup)))
                        .(inPipe := r.d.inPipe, outPipe := r.d.outPipe)
  {
    var i := SetupInPipe(d, e);
    var a, b := Gained(InBuffer, Creates(e.inSetup)), Gained(OutBuffer, Creates(e.outSetup));
    InBufferForm(d, e);
    if i.ok {
      OutBufferForm(i.d, e);
      EmitTwice(d, a, b);
    } else {
      assert a + [] == a;
    }
  }

  lemma BuffersForm(d: Driver, e: StartEnv)
    requires Copied(d.inPipe) && Copied(d.outPipe) && Pristine(d.inPipe) && Pristine(d.outPipe)
    ensures var r := SetupPipes(d, e);
            && (r.ok <==> e.properties && SetupSucceeds(e.inSetup) && SetupSucceeds(e.outSetup))
            && (if e.properties
                then SetUp(d, r.d, e) && r.d == Emit(d, SetupEffects(e)).(inPipe := r.d.inPipe, outPipe := r.d.outPipe)
                else r.d == d)
  {
    if e.properties {
      var mid := Gained(InBuffer, Creates(e.inSetup)) + Gained(OutBuffer, SetupSucceeds(e.inSetup) && Creates(e.outSetup));
      BothForm(Emit(d, [Acquire(Properties)]), e);
      EmitTwice(d, [Acquire(Properties)], mid);
      EmitTwice(d, [Acquire(Properties)] + mid, [Release(Properties)]);
    }
  }

  lemma EquipForm(d: Driver, e: StartEnv)
    requires StartPossible(e) && Scans(e) && PipesFound(e) && !d.action
    requires Copied(d.inPipe) && Copied(d.outPipe) && Pristine(d.inPipe) && Pristine(d.outPipe)
    ensures var r := Equip(d, e);
            && (r.ok <==> StartSucceeds(e))
            && (if e.properties then SetUp(d, r.d, e) else r.d == d)
            && r.d == Emit(d, EquipEffects(e)).(inPipe := r.d.inPipe, outPipe := r.d.outPipe, action := r.ok)
  {
    BuffersForm(d, e);
    EmitTwice(d, SetupEffects(e), Gained(Action, e.action));
    assert SetupEffects(e) + [] == SetupEffects(e);
    assert d.w.trace + [] == d.w.trace;
  }

  /** All of a start up to where it fails or starts listening. */
  lemma PrepareForm(d: Driver, e: StartEnv)
    requires StartPossible(e) && Tried(e) && Blank(d.(interface := false)) && d.interface
    ensures var r := Prepare(d, e);
            && (r.ok <==> StartSucceeds(e))
            && Fields(r.d, e)
            && r.d == d.(config := r.d.config, interfaceDescriptor := r.d.interfaceDescriptor, inPipe := r.d.inPipe,
                         outPipe := r.d.outPipe, action := r.d.action, w := Emit(d, PrepareEffects(e)).w)
            && (r.ok ==> r.d.outPipe.memory.mapped == Some(e.outSetup.mapped) && Ready(r.d))
  {
    assert d.w.trace + [] == d.w.trace;
    if e.superHandleStart {
      var d1 := InitDescriptors(d, e);
      DescriptorsForm(d, e);
      if d1.ok {
        ScanForm(d1.d, e);
        EmitTwice(d, Gained(Config, e.config), ScanEffects(e));
      } else {
        assert Gained(Config, e.config) + [] == Gained(Config, e.config);
      }
    }
  }

  /** InitPipes and what follows it. */
  lemma ScanForm(d: Driver, e: StartEnv)
    requires StartPossible(e) && Scans(e) && d.inPipe == EMPTY_PIPE && d.outPipe == EMPTY_PIPE && !d.action
    requires d.interface && d.config && d.interfaceDescriptor
    ensures var pipes := InitPipes(d, e);
            var r := if pipes.ok then Equip(pipes.d, e) else pipes;
            && (r.ok <==> StartSucceeds(e))
            && Fields(r.d, e)
            && r.d == Emit(d, ScanEffects(e)).(inPipe := r.d.inPipe, outPipe := r.d.outPipe, action := r.ok)
            && (r.ok ==> r.d.outPipe.memory.mapped == Some(e.outSetup.mapped) && Ready(r.d))
  {
    var pipes, copies := InitPipes(d, e), CopyEffects(Interrupts(e.endpoints, StopPlace(e)));
    PipesForm(d, e);
    if pipes.ok {
      EquipForm(pipes.d, e);
      EmitTwice(d, copies, EquipEffects(e));
    } else {
      assert copies + [] == copies;
    }
  }

  /** The wake-up packets, and what they leave in the out-buffer. */
  lemma WakeUpForm(d: Driver)
    requires Ready(d) && d.outCounter == 0
    ensures var r := SendInterruptData(SendInterruptData(d, P.INIT_PACKET), P.SWAP_TO_WIRED_PACKET);
            var room := d.outPipe.memory.length;
            && SameButOut(d, r)
            && r.outPipe == (if room < 5 then d.outPipe else Overlaid(Overlaid(d.outPipe, InitSent(0)), SwapSent(1)))
            && r.w == Emit(d, WakeUp(d.outPipe.pipe, room, 0)).w
            && r.outCounter == |WakeUp(d.outPipe.pipe, room, 0)|
  {
    var d1 := SendInterruptData(d, P.INIT_PACKET);
    ResponseBytes(0);
    ResponseBytes(1);
    SendForm(d, P.INIT_PACKET, InitSent(0));
    if d.outPipe.memory.length >= 5 {
      SendForm(d1, P.SWAP_TO_WIRED_PACKET, SwapSent(1));
      var a, b := Send(d.outPipe.pipe, InitSent(0)), Send(d.outPipe.pipe, SwapSent(1));
      EmitTwice(d, [a], [b]);
      assert [a] + [b] == [a, b];
    } else {
      SendForm(d, P.SWAP_TO_WIRED_PACKET, SwapSent(0));
      assert d.w.trace + [] == d.w.trace;
    }
  }

  lemma ListenForm(d: Driver, e: StartEnv)
    requires Ready(d) && d.outCounter == 0
    ensures var r, room := Listen(d, e), d.outPipe.memory.length;
            && SameButOut(d, r)
            && r.outPipe == (if room < 5 then d.outPipe else Overlaid(Overlaid(d.outPipe, InitSent(0)), SwapSent(1)))
            && r.w == Emit(d, WakeUp(d.outPipe.pipe, room, 0) + [Request(d, e.armOk), Acquire(Interface)]).w
                        .(pending := d.w.pending + if e.armOk then 1 else 0)
            && r.outCounter == |WakeUp(d.outPipe.pipe, room, 0)|
  {
    var wake := WakeUp(d.outPipe.pipe, d.outPipe.memory.length, 0);
    WakeUpForm(d);
    EmitTwice(d, wake, [Request(d, e.armOk)]);
    EmitTwice(d, wake + [Request(d, e.armOk)], [Acquire(Interface)]);
    assert wake + [Request(d, e.armOk)] + [Acquire(Interface)] == wake + [Request(d, e.armOk), Acquire(Interface)];
  }

  /** The pipes that a successful start ends with. */
  lemma FoundPipes(d: Driver, e: StartEnv)
    requires StartPossible(e) && StartSucceeds(e) && Fields(d, e)
    ensures d.inPipe.pipe == PipeOf(e, In) && d.outPipe.pipe == PipeOf(e, Out)
    ensures d.inPipe.memory.length == |e.inSetup.mapped| && d.outPipe.memory.length == |e.outSetup.mapped|
  {
  }

  /**
   A start from scratch: every instance variable and every effect, from the answers. It gets through exactly when
   `StartSucceeds`. Then the driver is ready, and after the acquisitions the wake-up packets were sent, one read was
   requested and the interface retained, in this order; otherwise nothing was sent, requested or read.
   */
  lemma StartForm(d: Driver, e: StartEnv)
    requires Blank(d) && StartPossible(e)
    ensures var r, through := Start(d, e), StartSucceeds(e);
            && Fields(r, e) && r.enabled == d.enabled
            && r.w == d.w.(phase := Attempted, trace := d.w.trace + StartEffects(e),
                           pending := if through && e.armOk then 1 else 0)
            && r.outCounter == (if through then |WakeUp(PipeOf(e, Out), |e.outSetup.mapped|, 0)| else 0)
            && (through ==> Ready(r))
            && (through && |e.outSetup.mapped| >= 5 ==>
                  r.outPipe.memory.mapped == Some(SwapSent(1) + e.outSetup.mapped[5..]))
  {
    var d1 := d.(interface := e.isUsbInterface, w := d.w.(phase := Attempted));
    assert d.w.trace + [] == d.w.trace;
    if Tried(e) {
      var p := Prepare(d1, e);
      PrepareForm(d1, e);
      if p.ok {
        FoundPipes(p.d, e);
        ListenForm(p.d, e);
        EmitTwice(d1, PrepareEffects(e), ListenEffects(e));
        ListenedFields(p.d, Start(d, e), e);
        if |e.outSetup.mapped| >= 5 {
          OverlaidTwice(p.d.outPipe, e.outSetup.mapped, InitSent(0), SwapSent(1));
        }
      } else {
        assert PrepareEffects(e) + [] == PrepareEffects(e);
      }
    }
  }

  lemma OverlaidTwice(p: PipeData, bytes: seq<byte>, a: seq<byte>, b: seq<byte>)
    requires p.memory.mapped == Some(bytes) && |a| == |b| <= |bytes|
    ensures Overlaid(Overlaid(p, a), b).memory.mapped == Some(b + bytes[|a|..])
  {
    assert (a + bytes[|a|..])[|a|..] == bytes[|a|..];
  }

  lemma ListenedFields(p: Driver, r: Driver, e: StartEnv)
    requires StartPossible(e) && Fields(p, e) && StartSucceeds(e) && Ready(p) && SameButOut(p, r)
    ensures Fields(r, e) && Ready(r)
  {
  }

  // ---------------------------------------------------------------- the other steps

  /** Effects that concern neither pipe. */
  predicate Aside(es: seq<Effect>) {
    forall x <- es :: x.Acquire? || x.Release? || x.SuperStop? || x.Cancel?
  }

  lemma {:induction false} CopyEffectsAside(copies: seq<Direction>)
    ensures Aside(CopyEffects(copies))
  {
    if copies == [] {
    } else {
      CopyEffectsAside(copies[..|copies| - 1]);
    }
  }

  lemma PreparesAside(e: StartEnv)
    requires StartPossible(e)
    ensures Aside(PrepareEffects(e))
  {
    CopyEffectsAside(Interrupts(e.endpoints, StopPlace(e)));
    assert Aside(EquipEffects(e));
    assert Aside(ScanEffects(e));
  }

  lemma {:induction false} ReleaseFirstAside(t: seq<Effect>, hs: seq<(Resource, bool)>, n: nat)
    requires n <= |hs|
    ensures var u := ReleaseFirst(t, hs, n); t <= u && Aside(u[|t|..])
    decreases n
  {
    if n == 0 {
    } else {
      ReleaseFirstAside(t, hs, n - 1);
    }
  }

  /** From `d` to `r` there were the effects `es`, all aside; unless the driver was freed only flag and world changed. */
  predicate LeftAlone(d: Driver, r: Driver, es: seq<Effect>) {
    && r.w.trace == d.w.trace + es && Aside(es)
    && r.w.pending == d.w.pending && r.w.fault == d.w.fault
    && (r.w.phase == d.w.phase || r.w.phase == Freed)
    && (r.w.phase == d.w.phase ==> r == d.(enabled := r.enabled, w := r.w))
  }

  function StopEffects(call: nat): (es: seq<Effect>) {
    [Acquire(Self(call)), Acquire(Provider(call)), Cancel(call)]
  }

  lemma StopForm(d: Driver) returns (es: seq<Effect>)
    ensures LeftAlone(d, Stop(d), es)
  {
    es := if d.action then StopEffects(d.w.stops) else [SuperStop(d.w.stops)];
  }

  lemma CancelForm(d: Driver, call: nat) returns (es: seq<Effect>)
    ensures LeftAlone(d, CancelDone(d, call), es)
  {
    es := [SuperStop(call), Release(Self(call)), Release(Provider(call))];
  }

  lemma FreeForm(d: Driver) returns (es: seq<Effect>)
    requires d.w.phase != Freed
    ensures LeftAlone(d, Free(d), es)
  {
    var t := Free(d).w.trace;
    ReleaseFirstAside(d.w.trace, Holdings(d), |Holdings(d)|);
    es := t[|d.w.trace|..];
    assert t == d.w.trace + es;
  }

  lemma IdleForm(s: System, e: Event)
    requires Possible(s, e) && !e.StartCall? && !e.Complete? && !e.StopCall? && !e.CancelFinished? && !e.FreeCall?
    ensures LeftAlone(s.d, Step(s, e).d, [])
  {
    assert s.d.w.trace + [] == s.d.w.trace;
  }

  /** Steps other than a start and a completion leave both pipes and all transfers alone. */
  lemma OtherStepForm(s: System, e: Event) returns (es: seq<Effect>)
    requires Possible(s, e) && !e.StartCall? && !e.Complete?
    ensures LeftAlone(s.d, Step(s, e).d, es)
  {
    if e.StopCall? {
      es := StopForm(s.d);
    } else if e.CancelFinished? {
      es := CancelForm(s.d, e.call);
    } else if e.FreeCall? {
      es := FreeForm(s.d);
    } else {
      es := [];
      IdleForm(s, e);
    }
  }
}
