/**
 The control surface of XboxOneUserClient.cpp as values: the table of external methods, the checks that
 IOUserClient makes against an entry of it, and which calls reach the licensing handler.
 */
module Licensing {

  const EXTERNAL_METHOD_UNKNOWN := 0
  const EXTERNAL_METHOD_LICENSING := 1
  const NUMBER_OF_EXTERNAL_METHODS := 2

  type uint64 = x: int | 0 <= x < 0x1_0000_0000_0000_0000

  datatype Handler = NoHandler | LicensingHandler

  /** One `IOUserClientMethodDispatch`. */
  datatype Dispatch = Dispatch(
    handler: Handler, completionExists: bool, scalarInputCount: nat, structureInputSize: nat,
    scalarOutputCount: nat, structureOutputSize: nat)

  /** Entry 0 is not populated. */
  const EXTERNAL_METHOD_CHECKS: seq<Dispatch> :=
    [Dispatch(NoHandler, false, 0, 0, 0, 0), Dispatch(LicensingHandler, false, 1, 0, 1, 0)]

  /** The shape of a caller's arguments, and its scalar inputs. */
  datatype Arguments = Arguments(
    completion: bool, scalarInput: seq<uint64>, structureInputSize: nat, scalarOutputCount: nat, structureOutputSize: nat)

  datatype Return = Success | NotFound | Unsupported | BadArgument | GeneralError

  predicate Matches(a: Arguments, m: Dispatch) {
    && a.completion == m.completionExists
    && |a.scalarInput| == m.scalarInputCount
    && a.structureInputSize == m.structureInputSize
    && a.scalarOutputCount == m.scalarOutputCount
    && a.structureOutputSize == m.structureOutputSize
  }

  /** The licensing handler reads one scalar and writes one: a table entry that names it must ask for both. */
  predicate HasRoom(m: Dispatch) {
    m.handler.LicensingHandler? ==> m.scalarInputCount > 0 && m.scalarOutputCount > 0
  }

  /** Calls that reach the licensing handler: selector 1 with one scalar in, one scalar out and nothing else. */
  predicate Licenses(selector: uint64, a: Arguments) {
    selector == 1 && !a.completion && |a.scalarInput| == 1 && a.structureInputSize == 0
    && a.scalarOutputCount == 1 && a.structureOutputSize == 0
  }
}
