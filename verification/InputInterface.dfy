/**
 The input-interface driver in the form of its source: an object whose methods update its fields, the pipe records
 they fill, and the mapped buffers they write. Each method is proved to take the driver's view from one value to the
 next as the function of the same name in module Driver says; the answers of the system's libraries are arguments.
 */
module InputInterface {
  import opened Bits
  import opened Wrappers
  import opened UsbPipes
  import opened DriverRuns
  import D = Driver
  import P = XboxPackets

  /** `usb_pipe_data`, with its `buffer_memory_descriptor`. */
  class UsbPipeData {
    var pipe: Option<Handle>
    var speed: nat
    var interval: nat
    var reportSize: nat
    var maxPacketSize: nat
    var descriptor: Option<Endpoint>
    var buffer: bool
    var address: array?<byte>
    var length: nat

    constructor ()
      ensures View() == EMPTY_PIPE && address == null
    {
      pipe, speed, interval, reportSize, maxPacketSize := None, 0, 0, 0, 0;
      descriptor, buffer, address, length := None, false, null, 0;
    }

    method Clear()
      modifies this
      ensures View() == EMPTY_PIPE && address == null
    {
      pipe, speed, interval, reportSize, maxPacketSize := None, 0, 0, 0, 0;
      descriptor, buffer, address, length := None, false, null, 0;
    }

    ghost function View(): (p: PipeData)
      reads this, address
    {
      PipeData(pipe, speed, interval, reportSize, maxPacketSize, descriptor,
               Memory(buffer, if address == null then None else Some(address[..]), length))
    }
  }

  datatype Status = Success | BadArgument | Failed

  class InputInterface {
    var interface: bool
    var configurationDescriptor: bool
    var interfaceDescriptor: bool
    const inPipe: UsbPipeData
    const outPipe: UsbPipeData
    var gotDataAction: bool
    var outCounter: byte
    var enabled: bool
    ghost var world: D.World

    constructor ()
      ensures Valid() && View() == D.INITIAL
      ensures fresh(inPipe) && fresh(outPipe) && inPipe.address == outPipe.address == null
    {
      interface, configurationDescriptor, interfaceDescriptor, gotDataAction := false, false, false, false;
      inPipe := new UsbPipeData();
      outPipe := new UsbPipeData();
      outCounter, enabled := 0, true;
      world := D.INITIAL.w;
    }

    /** The two pipe records and the two mapped buffers are different objects. */
    ghost predicate Valid()
      reads this, inPipe, outPipe
    {
      inPipe != outPipe && (inPipe.address == null || inPipe.address != outPipe.address)
    }

    ghost function View(): (d: D.Driver)
      reads this, inPipe, outPipe, inPipe.address, outPipe.address
    {
      D.Driver(interface, configurationDescriptor, interfaceDescriptor, inPipe.View(), outPipe.View(), gotDataAction,
               outCounter, enabled, world)
    }

    // -------------------------------------------------------------- data to the device

    /** The packet is copied into the out-buffer in place and its third byte is overwritten with the counter. */
    method SendInterruptData(data: seq<byte>, ioOk: bool) returns (status: Status)
      requires Valid() && |data| < 256
      requires |data| <= outPipe.length ==>
                 && outPipe.pipe.Some? && outPipe.address != null
                 && outPipe.address.Length >= |data| && outPipe.address.Length >= 3
      modifies this`outCounter, this`world, outPipe.address
      ensures Valid() && View() == D.SendInterruptData(old(View()), data)
      ensures status == if |data| > old(outPipe.length) then BadArgument else if ioOk then Success else Failed
    {
      if |data| > outPipe.length {
        return BadArgument;
      }
      ghost var before := outPipe.address[..];
      var address := outPipe.address;
      for i := 0 to |data|
        modifies address
        invariant address[..i] == data[..i]
        invariant address[|data|..] == before[|data|..]
      {
        address[i] := data[i];
      }
      assert address[..] == data + before[|data|..];
      address[2] := outCounter;
      ghost var after := address[..];
      assert after == (data + before[|data|..])[2 := outCounter];
      outCounter := (outCounter + 1) % 256;
      world := world.(trace := world.trace + [D.Send(outPipe.pipe, after[..|data|])]);
      status := if ioOk then Success else Failed;
      assert outPipe.address[..] == after;
    }

    // -------------------------------------------------------------- data from the device

    method RequestAsyncInterruptData(armOk: bool) returns (status: Status)
      requires Valid() && inPipe.pipe.Some? && inPipe.buffer && gotDataAction
      modifies this`world
      ensures Valid() && View() == D.RequestAsync(old(View()), armOk)
      ensures status == if armOk then Success else Failed
    {
      world := world.(pending := world.pending + if armOk then 1 else 0,
                      trace := world.trace + [D.Arm(inPipe.pipe, inPipe.length, armOk)]);
      status := if armOk then Success else Failed;
    }

    method HandleReportGeneric(c: D.Completion, packetType: byte, size: byte, accepted: bool) returns (handled: bool)
      requires Valid() && D.HeaderMapped(View())
      modifies this`world
      ensures Valid() && D.Handled(View(), handled) == D.HandleReportGeneric(old(View()), c, packetType, size, accepted)
    {
      var header := P.ReadHeader(inPipe.address[..]);
      world := world.(trace := world.trace + [D.Look]);
      if header.packetType != packetType {
        return false;
      }
      if header.size != size {
        return false;
      }
      world := world.(trace := world.trace + [D.Report(inPipe.address[..], c.count, c.timestamp)]);
      handled := accepted;
    }

    method HandleControllerReport(c: D.Completion) returns (handled: bool)
      requires Valid() && D.HeaderMapped(View())
      modifies this`world
      ensures Valid() && D.Handled(View(), handled) == D.HandleControllerReport(old(View()), c)
    {
      handled := HandleReportGeneric(c, P.IN_BUTTON, P.BUTTON_REPORT_SIZE, c.controllerHandled);
    }

    method HandleGuideReport(c: D.Completion, ioOk: bool) returns (handled: bool)
      requires Valid() && D.HeaderMapped(View()) && PipeReady(outPipe.View())
      modifies this`world, this`outCounter, outPipe.address
      ensures Valid() && D.Handled(View(), handled) == D.HandleGuideReport(old(View()), c)
    {
      handled := HandleReportGeneric(c, P.IN_GUIDE, P.GUIDE_REPORT_SIZE, c.guideHandled);
      if handled {
        world := world.(trace := world.trace + [D.Look]);
        if P.ReadHeader(inPipe.address[..]).version == 0x30 {
          var _ := SendInterruptData(P.GUIDE_RESPONSE_SENT, ioOk);
        }
      }
    }

    /** The USB stack gives the in-buffer back, filled. */
    method Deliver(bytes: seq<byte>)
      requires Valid() && world.pending > 0 && inPipe.address != null && |bytes| == inPipe.address.Length
      modifies this`world, inPipe.address
      ensures Valid() && View() == D.Delivered(old(View()), bytes)
    {
      var address := inPipe.address;
      for i := 0 to |bytes|
        modifies address
        invariant address[..i] == bytes[..i]
      {
        address[i] := bytes[i];
      }
      world := world.(pending := world.pending - 1, trace := world.trace + [D.Deliver]);
      assert address[..] == bytes;
    }

    /** The completion handler; the in-buffer holds what the USB stack wrote. */
    method GotData(c: D.Completion, ioOk: bool)
      requires Valid() && Ready(View())
      modifies this`world, this`outCounter, outPipe.address
      ensures Valid() && View() == D.GotData(old(View()), c)
    {
      if c.ok && enabled {
        var handled := HandleControllerReport(c);
        if !handled {
          handled := HandleGuideReport(c, ioOk);
        }
      }
      var _ := RequestAsyncInterruptData(c.armOk);
    }

    /** A read completes: the USB stack fills the in-buffer, and the handler is called. */
    method Completed(c: D.Completion, ioOk: bool)
      requires Valid() && world.pending > 0 && Ready(D.Delivered(View(), c.bytes)) && |c.bytes| == inPipe.length
      requires inPipe.address != null && inPipe.address.Length == inPipe.length
      modifies this`world, this`outCounter, inPipe.address, outPipe.address
      ensures Valid() && View() == D.GotData(D.Delivered(old(View()), c.bytes), c)
    {
      Deliver(c.bytes);
      GotData(c, ioOk);
    }

    // -------------------------------------------------------------- start

    method InitDescriptors(e: D.StartEnv) returns (ok: bool)
      requires Valid()
      modifies this`configurationDescriptor, this`interfaceDescriptor, this`world
      ensures Valid() && D.Handled(View(), ok) == D.InitDescriptors(old(View()), e)
    {
      configurationDescriptor := e.config;
      world := world.(trace := world.trace + D.Gained(D.Config, e.config));
      if !configurationDescriptor {
        return false;
      }
      interfaceDescriptor := e.interfaceDescriptor;
      ok := interfaceDescriptor;
    }

    ghost function PipeSlots(): (s: Slots)
      reads this, inPipe, outPipe, inPipe.address, outPipe.address
    {
      Slots(inPipe.View(), outPipe.View())
    }

    /** One interrupt endpoint: its descriptor goes into the slot of its direction, as does the pipe if it is copied. */
    method CopyPipe(endpoint: Endpoint, copied: Option<Handle>) returns (ok: bool)
      requires Valid() && Wanted(endpoint)
      modifies inPipe`pipe, inPipe`descriptor, outPipe`pipe, outPipe`descriptor
      ensures Valid() && ok == copied.Some?
      ensures PipeSlots() == if ok then Fill(old(PipeSlots()), endpoint, copied) else Describe(old(PipeSlots()), endpoint)
    {
      var slot := if endpoint.direction == In then inPipe else outPipe;
      slot.descriptor := Some(endpoint);
      if copied.Some? {
        slot.pipe := copied;
      }
      ok := copied.Some?;
    }

    /** The endpoint loop: slots are overwritten as endpoints of their direction are met, until both have a pipe. */
    method ScanEndpoints(endpoints: seq<Endpoint>, pipes: seq<Option<Handle>>)
      returns (ok: bool, ghost copies: seq<Direction>)
      requires Valid() && |endpoints| == |pipes|
      modifies inPipe`pipe, inPipe`descriptor, outPipe`pipe, outPipe`descriptor
      ensures Valid()
      ensures var scan := ScanFrom(endpoints, pipes, 0, old(PipeSlots()), []);
              ok == scan.ok && PipeSlots() == scan.slots && copies == scan.copies
    {
      var i := 0;
      copies := [];
      ghost var scan := ScanFrom(endpoints, pipes, 0, PipeSlots(), []);
      while i < |endpoints|
        invariant Valid() && i <= |endpoints|
        invariant scan == ScanFrom(endpoints, pipes, i, PipeSlots(), copies)
      {
        var endpoint := endpoints[i];
        if endpoint.kind == Interrupt && endpoint.direction != UnknownDirection {
          var copied := CopyPipe(endpoint, pipes[i]);
          if !copied {
            return false, copies;
          }
          copies := copies + [endpoint.direction];
          if inPipe.pipe.Some? && outPipe.pipe.Some? {
            return true, copies;
          }
        }
        i := i + 1;
      }
      ok := false;
    }

    method InitPipes(e: D.StartEnv) returns (ok: bool)
      requires Valid() && |e.endpoints| == |e.pipes|
      modifies this`world, inPipe`pipe, inPipe`descriptor, outPipe`pipe, outPipe`descriptor
      ensures Valid() && D.Handled(View(), ok) == D.InitPipes(old(View()), e)
    {
      ghost var copies;
      ok, copies := ScanEndpoints(e.endpoints, e.pipes);
      world := world.(trace := world.trace + D.CopyEffects(copies));
    }

    /** GetSpeed, interval, packet size, buffer, mapping: the record is filled field by field until a step fails. */
    method SetupPipe(pipeData: UsbPipeData, e: SetupEnv, mapping: array<byte>) returns (ok: bool)
      requires pipeData.pipe.Some? && mapping[..] == e.mapped
      modifies pipeData
      ensures Setup(ok, pipeData.View()) == UsbPipes.SetupPipe(old(pipeData.View()), e)
      ensures pipeData.address == if ok then mapping else old(pipeData.address)
    {
      if !e.speedKnown {
        return false;
      }
      pipeData.speed := e.speed;
      pipeData.interval := e.interval;
      if pipeData.interval == 0 {
        return false;
      }
      pipeData.maxPacketSize := e.maxPacketSize;
      if pipeData.maxPacketSize == 0 {
        return false;
      }
      if !e.created {
        return false;
      }
      pipeData.buffer := true;
      if !e.mapOk {
        return false;
      }
      pipeData.address := mapping;
      pipeData.length := mapping.Length;
      ok := true;
    }

    /** The buffers are not mapped, or mapped where the system mapped them. */
    ghost predicate MappedAt(inMapping: array<byte>, outMapping: array<byte>)
      reads inPipe, outPipe
    {
      && (inPipe.address == null || inPipe.address == inMapping)
      && (outPipe.address == null || outPipe.address == outMapping)
    }

    method SetupInPipe(e: D.StartEnv, mapping: array<byte>) returns (ok: bool)
      requires Valid() && inPipe.pipe.Some? && outPipe.address != mapping && mapping[..] == e.inSetup.mapped
      modifies this`world, inPipe
      ensures Valid() && D.Handled(View(), ok) == D.SetupInPipe(old(View()), e)
      ensures inPipe.address == old(inPipe.address) || inPipe.address == mapping
    {
      ok := SetupPipe(inPipe, e.inSetup, mapping);
      world := world.(trace := world.trace + D.Gained(D.InBuffer, inPipe.buffer));
      if ok {
        inPipe.reportSize := e.inReportSize;
      }
    }

    method SetupOutPipe(e: D.StartEnv, mapping: array<byte>) returns (ok: bool)
      requires Valid() && outPipe.pipe.Some? && inPipe.address != mapping && mapping[..] == e.outSetup.mapped
      modifies this`world, inPipe, outPipe
      ensures Valid() && D.Handled(View(), ok) == D.SetupOutPipe(old(View()), e)
      ensures inPipe.address == old(inPipe.address)
      ensures outPipe.address == old(outPipe.address) || outPipe.address == mapping
    {
      ok := SetupPipe(outPipe, e.outSetup, mapping);
      world := world.(trace := world.trace + D.Gained(D.OutBuffer, outPipe.buffer));
      if ok {
        inPipe.reportSize := e.outReportSize;
      }
    }

    /** SetupPipe on both pipes, each with its report size. */
    method SetupBoth(e: D.StartEnv, inMapping: array<byte>, outMapping: array<byte>) returns (ok: bool)
      requires Valid() && inPipe.pipe.Some? && outPipe.pipe.Some? && inPipe.address == outPipe.address == null
      requires inMapping != outMapping && inMapping[..] == e.inSetup.mapped && outMapping[..] == e.outSetup.mapped
      modifies this`world, inPipe, outPipe
      ensures Valid() && D.Handled(View(), ok) == D.SetupBoth(old(View()), e)
      ensures MappedAt(inMapping, outMapping)
    {
      ok := SetupInPipe(e, inMapping);
      if ok {
        ok := SetupOutPipe(e, outMapping);
      }
    }

    method SetupPipes(e: D.StartEnv, inMapping: array<byte>, outMapping: array<byte>) returns (ok: bool)
      requires Valid() && inPipe.pipe.Some? && outPipe.pipe.Some? && inPipe.address == outPipe.address == null
      requires inMapping != outMapping && inMapping[..] == e.inSetup.mapped && outMapping[..] == e.outSetup.mapped
      modifies this`world, inPipe, outPipe
      ensures Valid() && D.Handled(View(), ok) == D.SetupPipes(old(View()), e)
      ensures MappedAt(inMapping, outMapping)
    {
      if !e.properties {
        return false;
      }
      world := world.(trace := world.trace + [D.Acquire(D.Properties)]);
      ok := SetupBoth(e, inMapping, outMapping);
      world := world.(trace := world.trace + [D.Release(D.Properties)]);
    }

    /** The last two preparations of handleStart: buffers, then the action. */
    method Equip(e: D.StartEnv, inMapping: array<byte>, outMapping: array<byte>) returns (ok: bool)
      requires Valid() && StartPossible(e) && inPipe.address == outPipe.address == null && !gotDataAction
      requires Copied(View().inPipe) && Copied(View().outPipe) && Pristine(View().inPipe) && Pristine(View().outPipe)
      requires inMapping != outMapping && inMapping[..] == e.inSetup.mapped && outMapping[..] == e.outSetup.mapped
      modifies this`world, this`gotDataAction, inPipe, outPipe
      ensures Valid() && D.Handled(View(), ok) == D.Equip(old(View()), e)
      ensures MappedAt(inMapping, outMapping)
      ensures ok ==> Ready(View()) && outPipe.address == outMapping
    {
      ghost var found := View();
      ok := SetupPipes(e, inMapping, outMapping);
      if !ok {
        return false;
      }
      gotDataAction := e.action;
      world := world.(trace := world.trace + D.Gained(D.Action, e.action));
      ok := gotDataAction;
      assert ok ==> Ready(View()) by { BuffersForm(found, e); }
    }

    /** One of the wake-up packets, on a driver that is ready. */
    method SendWhenReady(data: seq<byte>, ioOk: bool)
      requires Valid() && Ready(View()) && 3 <= |data| < 256
      modifies this`world, this`outCounter, outPipe.address
      ensures Valid() && View() == D.SendInterruptData(old(View()), data) && Ready(View())
    {
      assert Ready(D.SendInterruptData(View(), data)) by { SendForm(View(), data, data[2 := outCounter]); }
      var _ := SendInterruptData(data, ioOk);
    }

    /** The end of handleStart: wake the controller up, start listening, keep the interface. */
    method Listen(e: D.StartEnv, ioOk: bool)
      requires Valid() && Ready(View())
      modifies this`world, this`outCounter, outPipe.address
      ensures Valid() && View() == D.Listen(old(View()), e)
    {
      SendWhenReady(P.INIT_PACKET, ioOk);
      SendWhenReady(P.SWAP_TO_WIRED_PACKET, ioOk);
      var _ := RequestAsyncInterruptData(e.armOk);
      world := world.(trace := world.trace + [D.Acquire(D.Interface)]);
    }

    method HandleStart(e: D.StartEnv, inMapping: array<byte>, outMapping: array<byte>, ioOk: bool) returns (ok: bool)
      requires Valid() && StartPossible(e) && inPipe.View() == outPipe.View() == EMPTY_PIPE && !gotDataAction
      requires inMapping != outMapping && inMapping[..] == e.inSetup.mapped && outMapping[..] == e.outSetup.mapped
      modifies this, inPipe, outPipe, outMapping
      ensures Valid() && D.Handled(View(), ok) == D.HandleStart(old(View()), e)
      ensures MappedAt(inMapping, outMapping)
    {
      if !e.superHandleStart {
        return false;
      }
      ok := InitDescriptors(e);
      if !ok {
        return false;
      }
      ghost var described := View();
      ok := InitPipes(e);
      if !ok {
        return false;
      }
      assert Copied(View().inPipe) && Copied(View().outPipe) && Pristine(View().inPipe) && Pristine(View().outPipe) by {
        PipesForm(described, e);
      }
      assert inPipe.address == outPipe.address == null;
      ok := Equip(e, inMapping, outMapping);
      if !ok {
        return false;
      }
      Listen(e, ioOk);
    }

    /**
     Start. `superOk` is the answer of super::Start after a handleStart that returned true; one that returned false makes
     it fail. A provider of the wrong type is reported as success.
     */
    method Start(e: D.StartEnv, inMapping: array<byte>, outMapping: array<byte>, ioOk: bool, superOk: bool)
      returns (status: Status)
      requires Valid() && StartPossible(e) && Blank(View())
      requires inMapping != outMapping && inMapping[..] == e.inSetup.mapped && outMapping[..] == e.outSetup.mapped
      modifies this, inPipe, outPipe, outMapping
      ensures Valid() && View() == D.Start(old(View()), e)
      ensures MappedAt(inMapping, outMapping)
      ensures status == Success <==> !e.isUsbInterface || (StartSucceeds(e) && superOk)
    {
      interface := e.isUsbInterface;
      world := world.(phase := D.Attempted);
      if !interface {
        return Success;
      }
      if !e.openOk {
        return Failed;
      }
      if !e.superStart {
        return Failed;
      }
      PrepareForm(View(), e);
      var ok := HandleStart(e, inMapping, outMapping, ioOk);
      status := if ok && superOk then Success else Failed;
    }

    // -------------------------------------------------------------- stop and free

    /** Stop; `superOk` is the answer of super::Stop if it is called at once, and only then is it passed on. */
    method Stop(superOk: bool) returns (status: Status)
      requires Valid()
      modifies this`world
      ensures Valid() && View() == D.Stop(old(View()))
      ensures status == if gotDataAction || superOk then Success else Failed
    {
      ghost var call := world.stops;
      world := world.(stops := call + 1);
      if !gotDataAction {
        world := world.(trace := world.trace + [D.SuperStop(call)]);
        return if superOk then Success else Failed;
      }
      world := world.(refs := world.refs + 1, inFlight := world.inFlight + {call},
                      trace := world.trace + [D.Acquire(D.Self(call)), D.Acquire(D.Provider(call)), D.Cancel(call)]);
      status := Success;
    }

    /** The block that Stop number `call` passes to Cancel. */
    method Finalize(ghost call: nat)
      requires Valid() && call in world.inFlight
      modifies this`world
      ensures Valid() && View() == D.CancelDone(old(View()), call)
    {
      world := world.(refs := world.refs - 1, inFlight := world.inFlight - {call},
                      trace := world.trace + [D.SuperStop(call), D.Release(D.Self(call)), D.Release(D.Provider(call))]);
    }

    /** `OSSafeReleaseNULL` on the pointer that is number `n` of the holdings `hs`. */
    ghost method SafeRelease(t: seq<D.Effect>, hs: seq<(D.Resource, bool)>, n: nat, r: D.Resource, held: bool)
      requires n < |hs| && hs[n] == (r, held) && world.trace == D.ReleaseFirst(t, hs, n)
      modifies this`world
      ensures world == old(world).(trace := D.ReleaseFirst(t, hs, n + 1))
    {
      if held {
        world := world.(trace := world.trace + [D.Release(r)]);
      }
    }

    ghost method ReleasePointers()
      requires Valid()
      modifies this`world
      ensures world == old(world).(trace := D.ReleaseFirst(old(world.trace), D.Holdings(old(View())), 7))
    {
      var t, hs := world.trace, D.Holdings(View());
      SafeRelease(t, hs, 0, D.Config, configurationDescriptor);
      SafeRelease(t, hs, 1, D.InPipe, inPipe.pipe.Some?);
      SafeRelease(t, hs, 2, D.InBuffer, inPipe.buffer);
      SafeRelease(t, hs, 3, D.OutPipe, outPipe.pipe.Some?);
      SafeRelease(t, hs, 4, D.OutBuffer, outPipe.buffer);
      SafeRelease(t, hs, 5, D.Action, gotDataAction);
      SafeRelease(t, hs, 6, D.Interface, interface);
    }

    /** `free`: every pointer that is set is released, and all are cleared. */
    method Free()
      requires Valid()
      modifies this, inPipe, outPipe
      ensures Valid() && View() == D.Free(old(View()))
    {
      ReleasePointers();
      interface, configurationDescriptor, interfaceDescriptor, gotDataAction, outCounter := false, false, false, false, 0;
      inPipe.Clear();
      outPipe.Clear();
      world := world.(phase := D.Freed);
    }

    method SetEnable(enable: bool)
      requires Valid()
      modifies this`enabled
      ensures Valid() && View() == D.SetEnable(old(View()), enable)
    {
      enabled := enable;
    }
  }
}
