/**
  Device operations. Connect and Disconnect make the remote call first and,
  when it succeeds, both install a PropertiesChanged watch at the device's
  path and record the queue; the profile calls pass the UUID through.
 */
module Devices {
  import opened Wrappers
  import opened BaseTypes
  import Consts
  import opened Entities
  import opened Variants
  import opened Bluez

  /** A device watches its own property changes. */
  const PropertiesPairs: seq<InterfaceSignalPair> :=
    [InterfaceSignalPair(Consts.Properties, Consts.PropertiesChanged)]

  /**
    The shared shape of Connect and Disconnect: a failed remote call is
    returned with nothing else done. After a successful one the watch is
    added and its queue stored on the device, which is null when the watch
    failed.
   */
  method CallThenWatch(d: Device, conn: BluezConn, funcName: string)
    returns (err: Outcome, ghost called: Outcome, ghost watched: seq<Call>)
    requires conn.Valid()
    modifies d, conn, conn.ops
    ensures conn.Valid() && conn.objectRegistry == old(conn.objectRegistry)
    ensures called.Fail? ==>
              && err == called && watched == []
              && d.discoveryCh == old(d.discoveryCh)
              && conn.signalWatchers == old(conn.signalWatchers)
    ensures called.Pass? ==>
              && MatchRun(watched, true, PropertiesPairs)
              && err == RunOutcome(watched)
              && (err.Fail? ==> d.discoveryCh == null && conn.signalWatchers == old(conn.signalWatchers))
              && (err.Pass? ==>
                    && d.discoveryCh != null && fresh(d.discoveryCh)
                    && !d.discoveryCh.closed && d.discoveryCh.buffered == []
                    && conn.signalWatchers == old(conn.signalWatchers)[d.base.path := d.discoveryCh])
    ensures conn.ops.log == old(conn.ops.log)
              + [FunctionCalled(Consts.BluezDest, d.base.path, funcName, called)] + watched
  {
    var e := conn.ops.CallFunction(Consts.BluezDest, d.base.path, funcName);
    called, watched := e, [];
    if e.Fail? {
      return e, called, watched;
    }
    d.discoveryCh, err, watched := conn.AddWatch(d.base.path, PropertiesPairs);
  }

  /** Connect: the remote Connect call, then the PropertiesChanged watch. */
  method Connect(d: Device, conn: BluezConn) returns (err: Outcome, ghost called: Outcome, ghost watched: seq<Call>)
    requires conn.Valid()
    modifies d, conn, conn.ops
    ensures conn.Valid() && conn.objectRegistry == old(conn.objectRegistry)
    ensures called.Fail? ==>
              && err == called && watched == []
              && d.discoveryCh == old(d.discoveryCh)
              && conn.signalWatchers == old(conn.signalWatchers)
    ensures called.Pass? ==>
              && MatchRun(watched, true, PropertiesPairs)
              && err == RunOutcome(watched)
              && (err.Fail? ==> d.discoveryCh == null && conn.signalWatchers == old(conn.signalWatchers))
              && (err.Pass? ==>
                    && d.discoveryCh != null && fresh(d.discoveryCh)
                    && !d.discoveryCh.closed && d.discoveryCh.buffered == []
                    && conn.signalWatchers == old(conn.signalWatchers)[d.base.path := d.discoveryCh])
    ensures conn.ops.log == old(conn.ops.log)
              + [FunctionCalled(Consts.BluezDest, d.base.path, Consts.DeviceConnect, called)] + watched
  {
    err, called, watched := CallThenWatch(d, conn, Consts.DeviceConnect);
  }

  /**
    Disconnect: the remote Disconnect call, then the same watch is added
    (not removed) at the device's path.
   */
  method Disconnect(d: Device, conn: BluezConn) returns (err: Outcome, ghost called: Outcome, ghost watched: seq<Call>)
    requires conn.Valid()
    modifies d, conn, conn.ops
    ensures conn.Valid() && conn.objectRegistry == old(conn.objectRegistry)
    ensures called.Fail? ==>
              && err == called && watched == []
              && d.discoveryCh == old(d.discoveryCh)
              && conn.signalWatchers == old(conn.signalWatchers)
    ensures called.Pass? ==>
              && MatchRun(watched, true, PropertiesPairs)
              && err == RunOutcome(watched)
              && (err.Fail? ==> d.discoveryCh == null && conn.signalWatchers == old(conn.signalWatchers))
              && (err.Pass? ==>
                    && d.discoveryCh != null && fresh(d.discoveryCh)
                    && !d.discoveryCh.closed && d.discoveryCh.buffered == []
                    && conn.signalWatchers == old(conn.signalWatchers)[d.base.path := d.discoveryCh])
    ensures conn.ops.log == old(conn.ops.log)
              + [FunctionCalled(Consts.BluezDest, d.base.path, Consts.DeviceDisconnect, called)] + watched
  {
    err, called, watched := CallThenWatch(d, conn, Consts.DeviceDisconnect);
  }

  /**
    Connecting and then disconnecting, both successfully, leaves a watcher
    installed at the device's path: a fresh queue replaces the one Connect
    stored, and that earlier queue is never closed.
   */
  method ConnectThenDisconnect(d: Device, conn: BluezConn)
    returns (connectErr: Outcome, disconnectErr: Outcome, ghost first: ObjectChangedChan?)
    requires conn.Valid()
    modifies d, conn, conn.ops
    ensures conn.Valid()
    ensures connectErr == Pass && disconnectErr == Pass ==>
              && d.base.path in conn.signalWatchers
              && conn.signalWatchers[d.base.path] == d.discoveryCh
              && first != null && first != d.discoveryCh && !first.closed
  {
    ghost var c1, w1, c2, w2;
    connectErr, c1, w1 := Connect(d, conn);
    first := d.discoveryCh;
    disconnectErr, c2, w2 := Disconnect(d, conn);
  }

  /** ConnectProfile: the UUID is the only argument of the remote call. */
  method ConnectProfile(d: Device, conn: BluezConn, uuid: string) returns (err: Outcome)
    modifies conn.ops
    ensures conn.ops.log == old(conn.ops.log)
              + [FunctionCalledWithArgs(Consts.BluezDest, d.base.path, Consts.DeviceConnectProfile, [StringArg(uuid)], err)]
  {
    var ret;
    err, ret := conn.ops.CallFunctionWithArgs(Consts.BluezDest, d.base.path, Consts.DeviceConnectProfile, [StringArg(uuid)], 0);
  }

  /** DisconnectProfile: the UUID is the only argument of the remote call. */
  method DisconnectProfile(d: Device, conn: BluezConn, uuid: string) returns (err: Outcome)
    modifies conn.ops
    ensures conn.ops.log == old(conn.ops.log)
              + [FunctionCalledWithArgs(Consts.BluezDest, d.base.path, Consts.DeviceDisconnectProfile, [StringArg(uuid)], err)]
  {
    var ret;
    err, ret := conn.ops.CallFunctionWithArgs(Consts.BluezDest, d.base.path, Consts.DeviceDisconnectProfile, [StringArg(uuid)], 0);
  }

  /** GetProperty: the cached value, or "No property X" when it is absent. */
  function GetProperty(d: Device, prop: string): (r: Result<Variant>)
    reads d.base
    ensures r.Success? <==> prop in d.base.properties
    ensures r.Success? ==> r.value == d.base.properties[prop]
    ensures r.Failure? ==> r.error == "No property " + prop
  {
    if prop in d.base.properties then Success(d.base.properties[prop])
    else Failure("No property " + prop)
  }

  /** GetProperty agrees with the object's Property lookup, turning its nil into an error. */
  lemma GetPropertyMatchesProperty(d: Device, prop: string)
    ensures GetProperty(d, prop).Success? <==> d.base.Property(prop).Some?
    ensures d.base.Property(prop).Some? ==> GetProperty(d, prop).value == d.base.Property(prop).value
  {
  }
}
