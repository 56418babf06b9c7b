/**
  GATT characteristic operations: reading a value at an offset, and the
  notify state machine, whose mark is the recorded watcher queue.
 */
module GattCharacteristics {
  import opened Wrappers
  import opened BaseTypes
  import Consts
  import opened Variants
  import opened Bluez

  /** The argument of ReadValue: one dictionary holding only the offset. */
  function OffsetArgs(offset: u16): (args: seq<CallArg>)
    ensures |args| == 1 && args[0].DictArg? && args[0].dict.Keys == {"offset"}
  {
    [DictArg(map["offset" := Uint16Variant(offset)])]
  }

  /** The offset carried by such an argument list, if it has that shape. */
  function OffsetOf(args: seq<CallArg>): Option<u16>
  {
    if |args| == 1 && args[0].DictArg? && args[0].dict.Keys == {"offset"}
       && args[0].dict["offset"].Uint16Variant?
    then Some(args[0].dict["offset"].u)
    else None
  }

  /** The offset is recovered from the arguments ReadValue sends. */
  lemma OffsetArgsRoundTrip(offset: u16)
    ensures OffsetOf(OffsetArgs(offset)) == Some(offset)
  {
  }

  /** Two reads send the same arguments only for the same offset. */
  lemma OffsetArgsInjective(x: u16, y: u16)
    ensures OffsetArgs(x) == OffsetArgs(y) <==> x == y
  {
    if OffsetArgs(x) == OffsetArgs(y) {
      OffsetArgsRoundTrip(x);
      OffsetArgsRoundTrip(y);
    }
  }

  /** A characteristic watches its own property changes. */
  const NotifyPairs: seq<InterfaceSignalPair> :=
    [InterfaceSignalPair(Consts.Properties, Consts.PropertiesChanged)]

  /** The refusal message, the same text the adapter uses. */
  const NotifyAlreadyStarted := "Discovery already started"

  /** ReadValue: the offset argument is sent and the answer lands in a 4-byte buffer. */
  method ReadValue(c: GattCharacteristic, conn: BluezConn, offset: u16) returns (val: seq<bv8>, err: Outcome)
    modifies conn.ops
    ensures |val| == 4
    ensures conn.ops.log == old(conn.ops.log)
              + [FunctionCalledWithArgs(Consts.BluezDest, c.base.path, Consts.CharacteristicReadValue, OffsetArgs(offset), err)]
  {
    err, val := conn.ops.CallFunctionWithArgs(Consts.BluezDest, c.base.path, Consts.CharacteristicReadValue, OffsetArgs(offset), 4);
  }

  /**
    StartNotify: refused while a queue is recorded. Otherwise the watch is
    added; its failure is returned with no queue recorded. After a
    successful watch the queue is recorded before the remote StartNotify
    call, whose outcome is returned: a failing call still leaves notify
    marked active.
   */
  method StartNotify(c: GattCharacteristic, conn: BluezConn) returns (err: Outcome, ghost watched: seq<Call>)
    requires conn.Valid()
    modifies c, conn, conn.ops
    ensures conn.Valid() && conn.objectRegistry == old(conn.objectRegistry)
    ensures old(c.notifyCh) != null ==>
              && err == Fail(NotifyAlreadyStarted) && watched == []
              && c.notifyCh == old(c.notifyCh)
              && conn.signalWatchers == old(conn.signalWatchers)
              && conn.ops.log == old(conn.ops.log)
    ensures old(c.notifyCh) == null ==>
              && MatchRun(watched, true, NotifyPairs)
              && (RunOutcome(watched).Fail? ==>
                    && err == RunOutcome(watched) && c.notifyCh == null
                    && conn.signalWatchers == old(conn.signalWatchers)
                    && conn.ops.log == old(conn.ops.log) + watched)
              && (RunOutcome(watched).Pass? ==>
                    && c.notifyCh != null && fresh(c.notifyCh)
                    && !c.notifyCh.closed && c.notifyCh.buffered == []
                    && conn.signalWatchers == old(conn.signalWatchers)[c.base.path := c.notifyCh]
                    && conn.ops.log == old(conn.ops.log) + watched
                         + [FunctionCalled(Consts.BluezDest, c.base.path, Consts.CharacteristicStartNotify, err)])
  {
    watched := [];
    if c.notifyCh != null {
      return Fail(NotifyAlreadyStarted), watched;
    }
    var ch, e;
    ch, e, watched := conn.AddWatch(c.base.path, NotifyPairs);
    if e.Fail? {
      return e, watched;
    }
    c.notifyCh := ch;
    err := conn.ops.CallFunction(Consts.BluezDest, c.base.path, Consts.CharacteristicStartNotify);
  }

  /** StopNotify: only the remote StopNotify call; the recorded queue stays. */
  method StopNotify(c: GattCharacteristic, conn: BluezConn) returns (err: Outcome)
    modifies conn.ops
    ensures c.notifyCh == old(c.notifyCh)
    ensures conn.ops.log == old(conn.ops.log)
              + [FunctionCalled(Consts.BluezDest, c.base.path, Consts.CharacteristicStopNotify, err)]
  {
    err := conn.ops.CallFunction(Consts.BluezDest, c.base.path, Consts.CharacteristicStopNotify);
  }

  /**
    Start, stop, start again: once the first start's watch succeeded, the
    second start is refused, because stopping leaves the queue recorded.
   */
  method NotifyAfterStop(c: GattCharacteristic, conn: BluezConn)
    returns (err: Outcome, ghost firstWatch: seq<Call>)
    requires c.notifyCh == null
    requires conn.Valid()
    modifies c, conn, conn.ops
    ensures MatchRun(firstWatch, true, NotifyPairs)
    ensures RunOutcome(firstWatch) == Pass ==> err == Fail(NotifyAlreadyStarted)
  {
    var e;
    e, firstWatch := StartNotify(c, conn);
    var stopErr := StopNotify(c, conn);
    ghost var w;
    err, w := StartNotify(c, conn);
  }
}
