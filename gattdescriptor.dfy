/**
  GATT descriptor operations. Descriptors carry no state of their own
  beyond the base object; the registry holds them as DescriptorObject.
 */
module GattDescriptors {
  import opened Wrappers
  import opened BaseTypes
  import Consts
  import opened Entities
  import opened Bluez
  import GattCharacteristics

  /**
    ReadValue: sends the offset argument and returns an empty value with
    the call's outcome. The buffer handed to the transport is a nil slice
    passed by value, so nothing the call answers reaches the caller.
   */
  method ReadValue(d: BaseObject, conn: BluezConn, offset: u16) returns (val: seq<bv8>, err: Outcome)
    modifies conn.ops
    ensures val == []
    ensures conn.ops.log == old(conn.ops.log)
              + [FunctionCalledWithArgs(Consts.BluezDest, d.path, Consts.DescriptorReadValue,
                                        GattCharacteristics.OffsetArgs(offset), err)]
  {
    var answer;
    err, answer := conn.ops.CallFunctionWithArgs(Consts.BluezDest, d.path, Consts.DescriptorReadValue,
                                                 GattCharacteristics.OffsetArgs(offset), 0);
    val := [];
  }
}
