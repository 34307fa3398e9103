/**
 The user client of XboxOneUserClient.cpp: selector dispatch and the licensing call that switches the driver on and off.
 */
module UserClient {
  import opened Wrappers
  import opened Licensing
  import opened InputInterface
  import D = Driver

  class UserClient {
    var inputInterface: InputInterface?

    constructor ()
      ensures inputInterface == null
    {
      inputInterface := null;
    }

    /** `OSDynamicCast` yields null for anything that is not an input interface. */
    method SetInputInterface(candidate: InputInterface?)
      modifies this
      ensures inputInterface == candidate
    {
      inputInterface := candidate;
    }

    method HandleLicensing(a: Arguments, scalarOutput: array<uint64>) returns (ret: Return)
      requires |a.scalarInput| > 0 && scalarOutput.Length > 0
      requires inputInterface != null ==> inputInterface.Valid()
      modifies scalarOutput, if inputInterface == null then {} else {inputInterface}
      ensures ret == Return.Success
      ensures inputInterface != null ==>
                && inputInterface.Valid()
                && inputInterface.View() == D.SetEnable(old(inputInterface.View()), a.scalarInput[0] != 0)
      ensures scalarOutput[0] == if inputInterface != null && a.scalarInput[0] != 0 then 1 else 0
    {
      var enable := a.scalarInput[0] != 0;
      if inputInterface != null {
        inputInterface.SetEnable(enable);
        scalarOutput[0] := if enable then 1 else 0;
      } else {
        scalarOutput[0] := 0;
      }
      ret := Return.Success;
    }

    static method StaticHandleLicensing(target: UserClient?, a: Arguments, scalarOutput: array<uint64>)
      returns (ret: Return)
      requires |a.scalarInput| > 0 && scalarOutput.Length > 0
      requires target != null && target.inputInterface != null ==> target.inputInterface.Valid()
      modifies scalarOutput, if target == null || target.inputInterface == null then {} else {target.inputInterface}
      ensures target == null ==> ret == GeneralError && scalarOutput[..] == old(scalarOutput[..])
      ensures target != null ==> ret == Return.Success
      ensures target != null && target.inputInterface != null ==>
                && target.inputInterface.Valid()
                && target.inputInterface.View() == D.SetEnable(old(target.inputInterface.View()), a.scalarInput[0] != 0)
      ensures target != null ==>
                scalarOutput[0] == if target.inputInterface != null && a.scalarInput[0] != 0 then 1 else 0
    {
      if target == null {
        return GeneralError;
      }
      ret := target.HandleLicensing(a, scalarOutput);
    }

    /** Whether IOUserClient gets as far as calling the licensing handler. */
    static predicate Runs(a: Arguments, dispatch: Option<Dispatch>, target: UserClient?) {
      dispatch.Some? && Matches(a, dispatch.value) && dispatch.value.handler.LicensingHandler? && target != null
    }

    /** What IOUserClient does with a table entry: the shape of the arguments is checked before the handler runs. */
    static method SuperExternalMethod(
        a: Arguments, scalarOutput: array<uint64>, dispatch: Option<Dispatch>, target: UserClient?) returns (ret: Return)
      requires scalarOutput.Length == a.scalarOutputCount
      requires dispatch.Some? ==> HasRoom(dispatch.value)
      requires target != null && target.inputInterface != null ==> target.inputInterface.Valid()
      modifies scalarOutput, if target == null || target.inputInterface == null then {} else {target.inputInterface}
      ensures ret == Return.Success <==> Runs(a, dispatch, target)
      ensures target != null && target.inputInterface != null ==>
                && target.inputInterface.Valid()
                && target.inputInterface.View() ==
                   if Runs(a, dispatch, target) then D.SetEnable(old(target.inputInterface.View()), a.scalarInput[0] != 0)
                   else old(target.inputInterface.View())
      ensures if Runs(a, dispatch, target)
              then scalarOutput[0] == if target.inputInterface != null && a.scalarInput[0] != 0 then 1 else 0
              else scalarOutput[..] == old(scalarOutput[..])
    {
      match dispatch
      case None => return Unsupported;
      case Some(m) =>
        if !Matches(a, m) {
          return Return.BadArgument;
        }
        if m.handler.NoHandler? {
          return Unsupported;
        }
        ret := StaticHandleLicensing(target, a, scalarOutput);
    }

    /** The client whose driver a call is about: the caller's target, or this client for a selector of the table. */
    function Addressee(selector: uint64, target: UserClient?): (who: UserClient?) {
      if EXTERNAL_METHOD_UNKNOWN < selector < NUMBER_OF_EXTERNAL_METHODS && target == null then this else target
    }

    /** Whether a call reaches the licensing handler of its addressee. */
    predicate Reaches(selector: uint64, a: Arguments, dispatch: Option<Dispatch>, target: UserClient?) {
      if EXTERNAL_METHOD_UNKNOWN < selector < NUMBER_OF_EXTERNAL_METHODS then Licenses(selector, a)
      else selector != EXTERNAL_METHOD_UNKNOWN && Runs(a, dispatch, target)
    }

    /**
     A call from user space. The table is read only within its bounds for every 64-bit selector; the call succeeds
     exactly if it reaches a licensing handler, and then the addressee's driver is switched and the reply is the
     flag just set; otherwise nothing changes. Without a dispatch of the caller's that means exactly `Licenses`.
     */
    method ExternalMethod(
        selector: uint64, a: Arguments, scalarOutput: array<uint64>, dispatch: Option<Dispatch>, target: UserClient?)
      returns (ret: Return)
      requires scalarOutput.Length == a.scalarOutputCount
      requires dispatch.Some? ==> HasRoom(dispatch.value)
      requires var who := Addressee(selector, target);
               who != null && who.inputInterface != null ==> who.inputInterface.Valid()
      modifies scalarOutput
      modifies var who := Addressee(selector, target);
               if who == null || who.inputInterface == null then {} else {who.inputInterface}
      ensures selector == EXTERNAL_METHOD_UNKNOWN ==> ret == NotFound
      ensures ret == Return.Success <==> Reaches(selector, a, dispatch, target)
      ensures dispatch.None? ==> (Reaches(selector, a, dispatch, target) <==> Licenses(selector, a))
      ensures var who := Addressee(selector, target);
              who != null && who.inputInterface != null ==>
                && who.inputInterface.Valid()
                && who.inputInterface.View() ==
                   if Reaches(selector, a, dispatch, target)
                   then D.SetEnable(old(who.inputInterface.View()), a.scalarInput[0] != 0)
                   else old(who.inputInterface.View())
      ensures var who := Addressee(selector, target);
              if Reaches(selector, a, dispatch, target)
              then who != null && scalarOutput[0] == if who.inputInterface != null && a.scalarInput[0] != 0 then 1 else 0
              else scalarOutput[..] == old(scalarOutput[..])
    {
      ret := NotFound;
      if selector > EXTERNAL_METHOD_UNKNOWN {
        var entry, receiver := dispatch, target;
        if selector < NUMBER_OF_EXTERNAL_METHODS {
          entry := Some(EXTERNAL_METHOD_CHECKS[selector]);
          if receiver == null {
            receiver := this;
          }
        }
        ret := SuperExternalMethod(a, scalarOutput, entry, receiver);
      }
    }
  }
}
