/**
 The driver object, its user-client objects and the surroundings that call them. Every event of a run is carried out by
 the objects' own methods: whenever `Possible` allows an event, what the methods ask for holds, and they end in the
 state that `DriverRuns.Step` gives. So every theorem about runs is a theorem about the objects.
 */
module DriverSystem {
  import opened Bits
  import opened Wrappers
  import opened Licensing
  import opened InputInterface
  import opened DriverRuns
  import opened DriverSafety
  import D = Driver
  import U = UserClient

  class DriverSystem {
    const driver: InputInterface
    var clients: map<nat, U.UserClient>

    constructor ()
      ensures Valid() && View() == START && fresh(Footprint())
    {
      driver := new InputInterface();
      clients := map[];
    }

    ghost function Footprint(): (objects: set<object>)
      reads this, driver.inPipe, driver.outPipe
    {
      {this, driver, driver.inPipe, driver.outPipe} + Buffers() + (set id | id in clients :: clients[id])
    }

    ghost function Buffers(): (arrays: set<object>)
      reads driver.inPipe, driver.outPipe
    {
      (if driver.inPipe.address == null then {} else {driver.inPipe.address})
      + if driver.outPipe.address == null then {} else {driver.outPipe.address}
    }

    /** Each client is attached to this driver or to none, and no two of them are the same object. */
    ghost predicate Valid()
      reads this, driver, driver.inPipe, driver.outPipe, clients.Values
    {
      && driver.Valid()
      && (forall id <- clients :: clients[id].inputInterface == null || clients[id].inputInterface == driver)
      && (forall i, j | i in clients && j in clients && i != j :: clients[i] != clients[j])
    }

    ghost function Attached(): (m: map<nat, bool>)
      reads this, clients.Values
    {
      map id | id in clients :: clients[id].inputInterface == driver
    }

    ghost function View(): (s: System)
      reads this, driver, driver.inPipe, driver.outPipe, driver.inPipe.address, driver.outPipe.address, clients.Values
    {
      System(driver.View(), Attached())
    }

    // -------------------------------------------------------------- the driver's events

    /** Memory that the system maps. */
    static method Memory(bytes: seq<byte>) returns (a: array<byte>)
      ensures fresh(a) && a[..] == bytes
    {
      a := new byte[|bytes|](i requires 0 <= i < |bytes| => bytes[i]);
    }

    method Start(e: D.StartEnv, ioOk: bool, superOk: bool)
      requires Valid() && Safe(View().d) && Possible(View(), StartCall(e))
      modifies driver, driver.inPipe, driver.outPipe
      ensures Valid() && View() == Step(old(View()), StartCall(e)) && fresh(Buffers() - old(Buffers()))
    {
      var inMapping := Memory(e.inSetup.mapped);
      var outMapping := Memory(e.outSetup.mapped);
      var _ := driver.Start(e, inMapping, outMapping, ioOk, superOk);
    }

    method Complete(c: D.Completion, ioOk: bool)
      requires Valid() && Safe(View().d) && Possible(View(), DriverRuns.Complete(c))
      modifies driver, driver.inPipe.address, driver.outPipe.address
      ensures Valid() && View() == Step(old(View()), DriverRuns.Complete(c))
    {
      ghost var attached := Attached();
      CompleteSafe(driver.View(), c);
      driver.Completed(c, ioOk);
      assert Attached() == attached;
    }

    method Free()
      requires Valid() && Possible(View(), FreeCall)
      modifies driver, driver.inPipe, driver.outPipe
      ensures Valid() && View() == Step(old(View()), FreeCall) && Buffers() == {}
    {
      driver.Free();
    }

    /** Stops, finished cancels, and references held by others. */
    method Other(event: Event, superOk: bool)
      requires Valid() && Possible(View(), event)
      requires event.StopCall? || event.CancelFinished? || event.RetainByOther? || event.ReleaseByOther?
      modifies driver`world
      ensures Valid() && View() == Step(old(View()), event)
    {
      ghost var w := driver.world;
      if event.StopCall? {
        var _ := driver.Stop(superOk);
      } else if event.CancelFinished? {
        driver.Finalize(event.call);
      } else if event.RetainByOther? {
        driver.world := w.(external := w.external + 1, refs := w.refs + 1);
      } else {
        driver.world := w.(external := w.external - 1, refs := w.refs - 1);
      }
    }

    // -------------------------------------------------------------- the clients' events

    /** NewUserClient: a client that was created, and is of the right class, is attached to the driver. */
    method NewUserClient(id: nat, created: bool, isClient: bool)
      requires Valid() && Possible(View(), NewClient(id, created, isClient))
      modifies this`clients
      ensures Valid() && View() == Step(old(View()), NewClient(id, created, isClient))
      ensures fresh(Footprint() - old(Footprint()))
    {
      if created && isClient {
        Attach(id);
      }
    }

    method Attach(id: nat)
      requires Valid()
      modifies this`clients
      ensures Valid() && Attached() == old(Attached())[id := true]
      ensures id in clients && fresh(clients[id]) && clients == old(clients)[id := clients[id]]
    {
      var client := new U.UserClient();
      client.SetInputInterface(driver);
      clients := clients[id := client];
    }

    method Reattach(id: nat, isInputInterface: bool)
      requires Valid() && Possible(View(), SetInputInterface(id, isInputInterface))
      modifies clients[id]
      ensures Valid() && View() == Step(old(View()), SetInputInterface(id, isInputInterface))
    {
      clients[id].SetInputInterface(if isInputInterface then driver else null);
    }

    /** A call from user space, without a dispatch or a target of its own. */
    method Forward(client: U.UserClient, selector: uint64, a: Arguments)
      requires driver.Valid() && (client.inputInterface == null || client.inputInterface == driver)
      modifies driver
      ensures driver.Valid()
      ensures driver.View() ==
              if Licenses(selector, a) && client.inputInterface == driver
              then D.SetEnable(old(driver.View()), a.scalarInput[0] != 0)
              else old(driver.View())
    {
      var scalarOutput := new uint64[a.scalarOutputCount];
      var _ := client.ExternalMethod(selector, a, scalarOutput, None, null);
    }

    method Call(id: nat, selector: uint64, a: Arguments)
      requires Valid() && Possible(View(), ClientCall(id, selector, a))
      modifies driver
      ensures Valid() && View() == Step(old(View()), ClientCall(id, selector, a))
    {
      ghost var attached := Attached();
      Forward(clients[id], selector, a);
      assert Attached() == attached;
    }

    // -------------------------------------------------------------- runs

    method Perform(event: Event, ioOk: bool, superOk: bool)
      requires Valid() && Safe(View().d) && Possible(View(), event)
      modifies Footprint()
      ensures Valid() && View() == Step(old(View()), event) && Safe(View().d)
      ensures fresh(Footprint() - old(Footprint()))
    {
      StepSafe(View(), event);
      if ByClient(event) {
        PerformClient(event);
      } else {
        PerformDriver(event, ioOk, superOk);
      }
    }

    static predicate ByClient(event: Event) {
      event.NewClient? || event.SetInputInterface? || event.ClientCall?
    }

    method PerformClient(event: Event)
      requires Valid() && Possible(View(), event) && ByClient(event)
      modifies Footprint()
      ensures Valid() && View() == Step(old(View()), event)
      ensures fresh(Footprint() - old(Footprint()))
    {
      match event
      case NewClient(id, created, isClient) => NewUserClient(id, created, isClient);
      case SetInputInterface(id, isInputInterface) => Reattach(id, isInputInterface);
      case ClientCall(id, selector, a) => Call(id, selector, a);
    }

    method PerformDriver(event: Event, ioOk: bool, superOk: bool)
      requires Valid() && Safe(View().d) && Possible(View(), event) && !ByClient(event)
      modifies Footprint()
      ensures Valid() && View() == Step(old(View()), event)
      ensures fresh(Footprint() - old(Footprint()))
    {
      if event.StartCall? {
        Start(event.e, ioOk, superOk);
      } else if event.Complete? {
        Complete(event.c, ioOk);
      } else if event.FreeCall? {
        Free();
      } else {
        Other(event, superOk);
      }
    }

    /** Any run, from any state in which the driver is safe, with the answers the driver only passes on. */
    method PerformAll(events: seq<Event>, answers: seq<(bool, bool)>)
      requires Valid() && Safe(View().d) && Legal(View(), events) && |answers| == |events|
      modifies Footprint()
      ensures Valid() && View() == Run(old(View()), events)
      ensures fresh(Footprint() - old(Footprint()))
      decreases |events|
    {
      if events != [] {
        Perform(events[0], answers[0].0, answers[0].1);
        PerformAll(events[1..], answers[1..]);
      }
    }
  }
}
