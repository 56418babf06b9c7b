/**
  The adapter's discovery state machine. Discovery is "started" from the
  moment StartDiscovery gets past its guard; the watcher queue it installs
  at the adapter's own path is recorded on the adapter. The connection is
  passed in, since the model has no back-pointer from objects to it.
 */
module Adapters {
  import opened Wrappers
  import opened BaseTypes
  import Consts
  import opened Variants
  import opened Bluez

  /** The adapter watches interfaces appearing and disappearing. */
  const DiscoveryPairs: seq<InterfaceSignalPair> :=
    [InterfaceSignalPair(Consts.ObjectManager, Consts.InterfacesAdded),
     InterfaceSignalPair(Consts.ObjectManager, Consts.InterfacesRemoved)]

  const AlreadyStarted := "Discovery already started"

  /**
    StartDiscovery: refused when already started. Otherwise the started
    mark is set first and then the watch is added; a failed watch is
    returned with the mark still set. A successful one is recorded and
    returned together with the outcome of the remote StartDiscovery call.
   */
  method StartDiscovery(a: Adapter, conn: BluezConn)
    returns (ch: ObjectChangedChan?, err: Outcome, ghost watched: seq<Call>)
    requires conn.Valid()
    modifies a, conn, conn.ops
    ensures conn.Valid() && conn.objectRegistry == old(conn.objectRegistry)
    ensures old(a.discoveryStarted) ==>
              && err == Fail(AlreadyStarted) && ch == null && watched == []
              && a.discoveryStarted && a.discoveryCh == old(a.discoveryCh)
              && conn.signalWatchers == old(conn.signalWatchers)
              && conn.ops.log == old(conn.ops.log)
    ensures !old(a.discoveryStarted) ==>
              && a.discoveryStarted
              && MatchRun(watched, true, DiscoveryPairs)
              && (RunOutcome(watched).Fail? ==>
                    && ch == null && err == RunOutcome(watched)
                    && a.discoveryCh == old(a.discoveryCh)
                    && conn.signalWatchers == old(conn.signalWatchers)
                    && conn.ops.log == old(conn.ops.log) + watched)
              && (RunOutcome(watched).Pass? ==>
                    && ch != null && fresh(ch) && !ch.closed && ch.buffered == []
                    && a.discoveryCh == ch
                    && conn.signalWatchers == old(conn.signalWatchers)[a.base.path := ch]
                    && conn.ops.log == old(conn.ops.log) + watched
                         + [FunctionCalled(Consts.BluezDest, a.base.path, Consts.AdapterStartDiscovery, err)])
  {
    watched := [];
    if a.discoveryStarted {
      return null, Fail(AlreadyStarted), watched;
    }
    a.discoveryStarted := true;
    var e;
    ch, e, watched := conn.AddWatch(a.base.path, DiscoveryPairs);
    if e.Fail? {
      return null, e, watched;
    }
    a.discoveryCh := ch;
    err := conn.ops.CallFunction(Consts.BluezDest, a.base.path, Consts.AdapterStartDiscovery);
  }

  /**
    StopDiscovery: cancelling requires a prior start. The watch at the
    adapter's path is removed, with its error dropped, and the outcome of
    the remote StopDiscovery call is returned. The started mark is left as
    it was.
   */
  method StopDiscovery(a: Adapter, conn: BluezConn) returns (err: Outcome, ghost removed: seq<Call>)
    requires a.discoveryStarted
    requires conn.Valid()
    modifies conn, conn.ops
    modifies if a.base.path in conn.signalWatchers then {conn.signalWatchers[a.base.path]} else {}
    ensures conn.Valid() && conn.objectRegistry == old(conn.objectRegistry)
    ensures a.discoveryStarted
    ensures a.base.path !in old(conn.signalWatchers) ==>
              conn.signalWatchers == old(conn.signalWatchers) && removed == []
    ensures a.base.path in old(conn.signalWatchers) ==>
              && conn.signalWatchers == old(conn.signalWatchers) - {a.base.path}
              && old(conn.signalWatchers)[a.base.path].closed
              && MatchRun(removed, false, DiscoveryPairs)
    ensures conn.ops.log == old(conn.ops.log) + removed
              + [FunctionCalled(Consts.BluezDest, a.base.path, Consts.AdapterStopDiscovery, err)]
  {
    var ignored;
    ignored, removed := conn.RemoveWatch(a.base.path, a.discoveryCh, DiscoveryPairs);
    err := conn.ops.CallFunction(Consts.BluezDest, a.base.path, Consts.AdapterStopDiscovery);
  }

  /**
    StopDiscovery as evidently intended: the same requests, and the
    started mark is cleared so that discovery can be started again.
   */
  method StopDiscoveryClearing(a: Adapter, conn: BluezConn) returns (err: Outcome, ghost removed: seq<Call>)
    requires a.discoveryStarted
    requires conn.Valid()
    modifies a, conn, conn.ops
    modifies if a.base.path in conn.signalWatchers then {conn.signalWatchers[a.base.path]} else {}
    ensures conn.Valid() && conn.objectRegistry == old(conn.objectRegistry)
    ensures !a.discoveryStarted && a.discoveryCh == old(a.discoveryCh)
    ensures a.base.path !in old(conn.signalWatchers) ==>
              conn.signalWatchers == old(conn.signalWatchers) && removed == []
    ensures a.base.path in old(conn.signalWatchers) ==>
              && conn.signalWatchers == old(conn.signalWatchers) - {a.base.path}
              && old(conn.signalWatchers)[a.base.path].closed
              && MatchRun(removed, false, DiscoveryPairs)
    ensures conn.ops.log == old(conn.ops.log) + removed
              + [FunctionCalled(Consts.BluezDest, a.base.path, Consts.AdapterStopDiscovery, err)]
  {
    err, removed := StopDiscovery(a, conn);
    a.discoveryStarted := false;
  }

  /**
    Start, stop, start again, as a client restarting discovery does: with
    StopDiscovery as written the second start is always refused and issues
    no request.
   */
  method RestartAfterStop(a: Adapter, conn: BluezConn) returns (err: Outcome)
    requires !a.discoveryStarted
    requires conn.Valid()
    modifies a, conn, conn.ops, conn.signalWatchers.Values
    ensures err == Fail(AlreadyStarted)
  {
    var ch, e, w := StartDiscovery(a, conn);
    var stopErr, r := StopDiscovery(a, conn);
    var ch2; ghost var w2;
    ch2, err, w2 := StartDiscovery(a, conn);
  }

  /**
    The same sequence with the corrected stop: the second start gets past
    its guard and requests its first match rule.
   */
  method RestartAfterStopClearing(a: Adapter, conn: BluezConn) returns (err: Outcome, ghost restarted: seq<Call>)
    requires !a.discoveryStarted
    requires conn.Valid()
    modifies a, conn, conn.ops, conn.signalWatchers.Values
    ensures a.discoveryStarted
    ensures |restarted| >= 1
    ensures restarted[0].Watched? && restarted[0].path == Consts.RootPath
              && restarted[0].iface == Consts.ObjectManager && restarted[0].member == Consts.InterfacesAdded
  {
    var ch, e, w := StartDiscovery(a, conn);
    var stopErr, r := StopDiscoveryClearing(a, conn);
    var ch2;
    ch2, err, restarted := StartDiscovery(a, conn);
  }

  /**
    Bootstrap, find the adapters and start discovery on the first one, as
    a client does: every bootstrapped adapter has discovery stopped, so the
    start always gets past its guard and requests the InterfacesAdded match
    at "/". Only a failed bootstrap or a registry without adapters stops
    the flow earlier.
   */
  method BootstrapThenStartDiscovery(ops: Operations)
    returns (conn: BluezConn?, started: bool, ghost watched: seq<Call>)
    modifies ops
    ensures started ==> conn != null
    ensures started ==>
              && MatchRun(watched, true, DiscoveryPairs) && |watched| >= 1
              && watched[0] == Watched(Consts.RootPath, Consts.ObjectManager, Consts.InterfacesAdded, watched[0].err)
    ensures conn != null && !started ==>
              forall p :: p in conn.objectRegistry && conn.objectRegistry[p].Some? ==> !conn.objectRegistry[p].value.AdapterObject?
  {
    var initErr; ghost var answered;
    conn, initErr, answered := InitializeBluez(ops);
    started, watched := false, [];
    if conn == null {
      return;
    }
    var adapters; ghost var paths;
    adapters, paths := conn.FindAdapters();
    if |adapters| == 0 {
      return;
    }
    assert paths[0] in conn.objectRegistry;
    var a := adapters[0];
    var ch, err;
    ch, err, watched := StartDiscovery(a, conn);
    started := true;
  }

  /** Connect: the address is passed as the only argument of the remote Connect call. */
  method Connect(a: Adapter, conn: BluezConn, address: string) returns (err: Outcome)
    modifies conn.ops
    ensures conn.ops.log == old(conn.ops.log)
              + [FunctionCalledWithArgs(Consts.BluezDest, a.base.path, Consts.AdapterConnect, [StringArg(address)], err)]
  {
    var ret;
    err, ret := conn.ops.CallFunctionWithArgs(Consts.BluezDest, a.base.path, Consts.AdapterConnect, [StringArg(address)], 0);
  }
}
