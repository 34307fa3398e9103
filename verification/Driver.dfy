/**
 The input-interface driver as a machine on values: its instance variables, the part of the system around it that
 its calls change, and one function per routine of XboxOneInputInterface.cpp. The class in InputInterface.dfy is
 proved equal to these functions; the theorems about whole runs are about them.

 Every routine is defined in every state. Using a null pointer, or memory outside a mapped buffer, does not go
 unnoticed: it raises `fault`.
 */
module Driver {
  import opened Bits
  import opened Wrappers
  import opened UsbPipes
  import P = XboxPackets

  /** What is acquired and released. `Self` and `Provider` are the extra retains of one call of Stop. */
  datatype Resource =
    | Config | InPipe | OutPipe | InBuffer | OutBuffer | Action | Interface | Properties
    | Self(call: nat) | Provider(call: nat)

  /** The calls a driver makes, and the completions it gets, in order of time. */
  datatype Effect =
    | Acquire(r: Resource)
    | Release(r: Resource)
    | Arm(pipe: Option<Handle>, length: nat, ok: bool)          // AsyncIO on a pipe, into the in-buffer
    | Deliver                                                   // the completion of a read
    | Look                                                      // the driver reads the in-buffer
    | Report(bytes: seq<byte>, count: nat, timestamp: nat)      // handleReport on the in-buffer
    | Send(pipe: Option<Handle>, bytes: seq<byte>)              // IO on a pipe, from the out-buffer
    | Cancel(call: nat)                                         // Cancel of the action, by one call of Stop
    | SuperStop(call: nat)

  datatype Phase = Fresh | Attempted | Freed

  /**
   The surroundings: `pending` reads owned by the USB stack, references on the driver (`external` of them held by
   others), the number of Stop calls so far and those whose cancellation is not finished.
   */
  datatype World = World(
    phase: Phase, pending: nat, external: nat, refs: int, stops: nat, inFlight: set<nat>, trace: seq<Effect>, fault: bool)

  /** The instance variables, and the world. */
  datatype Driver = Driver(
    interface: bool, config: bool, interfaceDescriptor: bool, inPipe: PipeData, outPipe: PipeData, action: bool,
    outCounter: byte, enabled: bool, w: World)

  /** After `init`, held by one reference. */
  const INITIAL :=
    Driver(false, false, false, EMPTY_PIPE, EMPTY_PIPE, false, 0, true, World(Fresh, 0, 1, 1, 0, {}, [], false))

  function Emit(d: Driver, es: seq<Effect>): (r: Driver) {
    d.(w := d.w.(trace := d.w.trace + es))
  }

  function Crash(d: Driver): (r: Driver) {
    d.(w := d.w.(fault := true))
  }

  // ---------------------------------------------------------------- data to the device

  function SetOutBuffer(d: Driver, bytes: seq<byte>): (r: Driver) {
    d.(outPipe := d.outPipe.(memory := d.outPipe.memory.(mapped := Some(bytes))))
  }

  /** SendInterruptData: the packet, with its third byte replaced by the running counter, goes out of the out-buffer. */
  function SendInterruptData(d: Driver, data: seq<byte>): (r: Driver) {
    var m := d.outPipe.memory;
    if |data| > m.length then d
    else if m.mapped.None? || |data| > |m.mapped.value| || |m.mapped.value| < 3 || d.outPipe.pipe.None? then Crash(d)
    else
      var buffer := (data + m.mapped.value[|data|..])[2 := d.outCounter];
      Emit(SetOutBuffer(d, buffer).(outCounter := (d.outCounter + 1) % 256),
           [Send(d.outPipe.pipe, buffer[..|data|])])
  }

  // ---------------------------------------------------------------- data from the device

  /** RequestAsyncInterruptData; `ok` is the answer of AsyncIO. */
  function RequestAsync(d: Driver, ok: bool): (r: Driver) {
    if d.inPipe.pipe.None? || !d.inPipe.memory.buffer || !d.action then Crash(d)
    else
      Emit(d.(w := d.w.(pending := d.w.pending + if ok then 1 else 0)),
           [Arm(d.inPipe.pipe, d.inPipe.memory.length, ok)])
  }

  /** A completed read: its status, the content of the in-buffer, and the answers met while handling it. */
  datatype Completion = Completion(
    ok: bool, bytes: seq<byte>, count: nat, timestamp: nat, controllerHandled: bool, guideHandled: bool, armOk: bool)

  datatype Handled = Handled(d: Driver, ok: bool)

  predicate HeaderMapped(d: Driver) {
    d.inPipe.memory.mapped.Some? && |d.inPipe.memory.mapped.value| >= P.REPORT_HEADER_SIZE
  }

  /** HandleReportGeneric; `accepted` is the answer of handleReport. */
  function HandleReportGeneric(d: Driver, c: Completion, packetType: byte, size: byte, accepted: bool): (r: Handled) {
    if !HeaderMapped(d) then Handled(Crash(d), false)
    else
      var bytes := d.inPipe.memory.mapped.value;
      var looked, header := Emit(d, [Look]), P.ReadHeader(bytes);
      if header.packetType != packetType || header.size != size then Handled(looked, false)
      else Handled(Emit(looked, [Report(bytes, c.count, c.timestamp)]), accepted)
  }

  function HandleControllerReport(d: Driver, c: Completion): (r: Handled) {
    HandleReportGeneric(d, c, P.IN_BUTTON, P.BUTTON_REPORT_SIZE, c.controllerHandled)
  }

  function HandleGuideReport(d: Driver, c: Completion): (r: Handled) {
    var h := HandleReportGeneric(d, c, P.IN_GUIDE, P.GUIDE_REPORT_SIZE, c.guideHandled);
    if !h.ok then h
    else if !HeaderMapped(h.d) then Handled(Crash(h.d), true)
    else
      var looked := Emit(h.d, [Look]);
      Handled(
        if P.ReadHeader(h.d.inPipe.memory.mapped.value).version == 0x30
        then SendInterruptData(looked, P.GUIDE_RESPONSE_SENT) else looked,
        true)
  }

  /** What GotData does with the packet: nothing if the read failed or the driver is disabled. */
  function HandlePacket(d: Driver, c: Completion): (r: Driver) {
    if !c.ok || !d.enabled then d
    else
      var h := HandleControllerReport(d, c);
      if h.ok then h.d else HandleGuideReport(h.d, c).d
  }

  /** GotData: handle the packet, and in any case ask for the next read. */
  function GotData(d: Driver, c: Completion): (r: Driver) {
    RequestAsync(HandlePacket(d, c), c.armOk)
  }

  /** The USB stack gives the in-buffer back, filled. */
  function Delivered(d: Driver, bytes: seq<byte>): (r: Driver)
    requires d.w.pending > 0
  {
    var filled := d.inPipe.(memory := d.inPipe.memory.(mapped := Some(bytes)));
    Emit(d.(inPipe := filled, w := d.w.(pending := d.w.pending - 1)), [Deliver])
  }

  // ---------------------------------------------------------------- start

  /** The answers met during a start. */
  datatype StartEnv = StartEnv(
    isUsbInterface: bool, openOk: bool, superStart: bool, superHandleStart: bool, config: bool, interfaceDescriptor: bool,
    endpoints: seq<Endpoint>, pipes: seq<Option<Handle>>, properties: bool, inReportSize: nat, outReportSize: nat,
    inSetup: SetupEnv, outSetup: SetupEnv, action: bool, armOk: bool)

  function Gained(r: Resource, yes: bool): (es: seq<Effect>) {
    if yes then [Acquire(r)] else []
  }

  function InitDescriptors(d: Driver, e: StartEnv): (r: Handled) {
    var d1 := Emit(d.(config := e.config), Gained(Config, e.config));
    if !e.config then Handled(d1, false)
    else Handled(d1.(interfaceDescriptor := e.interfaceDescriptor), e.interfaceDescriptor)
  }

  /** The references gained by copying pipes of these directions. */
  function CopyEffects(copies: seq<Direction>): (es: seq<Effect>) {
    if copies == [] then []
    else CopyEffects(copies[..|copies| - 1]) + CopyEffect(copies[|copies| - 1])
  }

  function CopyEffect(d: Direction): (es: seq<Effect>) {
    match d
    case In => [Acquire(InPipe)]
    case Out => [Acquire(OutPipe)]
    case UnknownDirection => []
  }

  function InitPipes(d: Driver, e: StartEnv): (r: Handled)
    requires |e.endpoints| == |e.pipes|
  {
    var scan := ScanFrom(e.endpoints, e.pipes, 0, Slots(d.inPipe, d.outPipe), []);
    Handled(Emit(d.(inPipe := scan.slots.inPipe, outPipe := scan.slots.outPipe), CopyEffects(scan.copies)), scan.ok)
  }

  /** SetupPipe on the in-pipe, then its report size. */
  function SetupInPipe(d: Driver, e: StartEnv): (r: Handled) {
    if d.inPipe.pipe.None? then Handled(Crash(d), false)
    else
      var s := SetupPipe(d.inPipe, e.inSetup);
      var p := if s.ok then s.pipe.(reportSize := e.inReportSize) else s.pipe;
      Handled(Emit(d.(inPipe := p), Gained(InBuffer, p.memory.buffer)), s.ok)
  }

  /** SetupPipe on the out-pipe; its report size is written to the in-pipe, as in the source. */
  function SetupOutPipe(d: Driver, e: StartEnv): (r: Handled) {
    if d.outPipe.pipe.None? then Handled(Crash(d), false)
    else
      var s := SetupPipe(d.outPipe, e.outSetup);
      var i := if s.ok then d.inPipe.(reportSize := e.outReportSize) else d.inPipe;
      Handled(Emit(d.(inPipe := i, outPipe := s.pipe), Gained(OutBuffer, s.pipe.memory.buffer)), s.ok)
  }

  /** The two SetupPipe calls between getting and releasing the properties. */
  function SetupBoth(d: Driver, e: StartEnv): (r: Handled) {
    var i := SetupInPipe(d, e);
    if i.ok then SetupOutPipe(i.d, e) else i
  }

  function SetupPipes(d: Driver, e: StartEnv): (r: Handled) {
    if !e.properties then Handled(d, false)
    else
      var both := SetupBoth(Emit(d, [Acquire(Properties)]), e);
      Handled(Emit(both.d, [Release(Properties)]), both.ok)
  }

  function CreateAction(d: Driver, e: StartEnv): (r: Handled) {
    Handled(Emit(d.(action := e.action), Gained(Action, e.action)), e.action)
  }

  /** The last two preparations: buffers, then the action. */
  function Equip(d: Driver, e: StartEnv): (r: Handled) {
    var buffers := SetupPipes(d, e);
    if !buffers.ok then buffers else CreateAction(buffers.d, e)
  }

  /** Everything handleStart does before it starts listening; `ok` tells whether it gets there. */
  function Prepare(d: Driver, e: StartEnv): (r: Handled)
    requires |e.endpoints| == |e.pipes|
  {
    if !e.superHandleStart then Handled(d, false) else
    var descriptors := InitDescriptors(d, e);
    if !descriptors.ok then descriptors else
    var pipes := InitPipes(descriptors.d, e);
    if !pipes.ok then pipes else Equip(pipes.d, e)
  }

  /** The last part of handleStart: wake the controller up, start listening, keep the interface. */
  function Listen(d: Driver, e: StartEnv): (r: Driver) {
    var woken := SendInterruptData(SendInterruptData(d, P.INIT_PACKET), P.SWAP_TO_WIRED_PACKET);
    Emit(RequestAsync(woken, e.armOk), [Acquire(Interface)])
  }

  function HandleStart(d: Driver, e: StartEnv): (r: Handled)
    requires |e.endpoints| == |e.pipes|
  {
    var prepared := Prepare(d, e);
    if !prepared.ok then prepared else Handled(Listen(prepared.d, e), true)
  }

  /** Start: the provider must be a USB interface that opens; super::Start then calls handleStart. */
  function Start(d: Driver, e: StartEnv): (r: Driver)
    requires |e.endpoints| == |e.pipes|
  {
    var d1 := d.(interface := e.isUsbInterface, w := d.w.(phase := Attempted));
    if e.isUsbInterface && e.openOk && e.superStart then HandleStart(d1, e).d else d1
  }

  // ---------------------------------------------------------------- stop and free

  /** Stop: without an action it stops at once, otherwise it retains and leaves the rest to the end of the cancel. */
  function Stop(d: Driver): (r: Driver) {
    var call := d.w.stops;
    var d1 := d.(w := d.w.(stops := call + 1));
    if !d.action then Emit(d1, [SuperStop(call)])
    else
      Emit(d1.(w := d1.w.(refs := d1.w.refs + 1, inFlight := d1.w.inFlight + {call})),
           [Acquire(Self(call)), Acquire(Provider(call)), Cancel(call)])
  }

  /** The finalizer of Stop number `call`, run when the cancel is done. */
  function CancelDone(d: Driver, call: nat): (r: Driver) {
    Emit(d.(w := d.w.(refs := d.w.refs - 1, inFlight := d.w.inFlight - {call})),
         [SuperStop(call), Release(Self(call)), Release(Provider(call))])
  }

  /** The pointers that `free` looks at, in its order, and whether they are set. */
  function Holdings(d: Driver): (hs: seq<(Resource, bool)>) {
    [(Config, d.config), (InPipe, d.inPipe.pipe.Some?), (InBuffer, d.inPipe.memory.buffer),
     (OutPipe, d.outPipe.pipe.Some?), (OutBuffer, d.outPipe.memory.buffer), (Action, d.action), (Interface, d.interface)]
  }

  /** Releases the first `n` of the holdings that are set. */
  function ReleaseFirst(t: seq<Effect>, hs: seq<(Resource, bool)>, n: nat): (u: seq<Effect>)
    requires n <= |hs|
    decreases n
  {
    if n == 0 then t
    else
      var u := ReleaseFirst(t, hs, n - 1);
      if hs[n - 1].1 then u + [Release(hs[n - 1].0)] else u
  }

  /** `free`: release whatever is there. */
  function Free(d: Driver): (r: Driver) {
    Driver(false, false, false, EMPTY_PIPE, EMPTY_PIPE, false, 0, d.enabled,
           d.w.(phase := Freed, trace := ReleaseFirst(d.w.trace, Holdings(d), |Holdings(d)|)))
  }

  function SetEnable(d: Driver, enabled: bool): (r: Driver) {
    d.(enabled := enabled)
  }
}
