/**
  The connection to BlueZ: the object registry, the watcher table, the
  registry queries, bootstrap from the bulk snapshot and one step of the
  signal dispatcher.
 */
module Bluez {
  import opened Wrappers
  import opened BaseTypes
  import opened Entities
  import opened Variants
  import Consts
  import GoStrings
  import GoPath

  /** One match rule: an interface and a signal (or member) name on it. */
  datatype InterfaceSignalPair = InterfaceSignalPair(iface: string, signalName: string)

  // ---------------------------------------------------------------------
  // Signals and their bodies

  /**
    One element of a signal body. Object paths and interface maps are the
    two shapes the decoder accepts; any other value is kept with its type
    name and its rendering.
   */
  datatype BodyElement =
    | PathElement(path: Path)
    | InterfaceMapElement(data: ObjectMap)
    | OtherElement(typeName: string, text: string)

  datatype Signal = Signal(sender: string, path: Path, name: string, body: seq<BodyElement>)

  datatype DecodedBody = DecodedBody(path: Path, data: ObjectMap)

  /** The index of the first element that is neither a path nor an interface map. */
  function FirstUnexpected(body: seq<BodyElement>): (k: nat)
    ensures k <= |body|
    ensures k < |body| ==> body[k].OtherElement?
    ensures forall j :: 0 <= j < k ==> !body[j].OtherElement?
  {
    if body == [] then 0
    else if body[0].OtherElement? then 0
    else 1 + FirstUnexpected(body[1..])
  }

  /** The path of the last path element, or "" when there is none. */
  function LastPath(body: seq<BodyElement>): Path
  {
    if body == [] then ""
    else if body[|body| - 1].PathElement? then body[|body| - 1].path
    else LastPath(body[..|body| - 1])
  }

  /** The last interface map, or the empty map when there is none. */
  function LastData(body: seq<BodyElement>): ObjectMap
  {
    if body == [] then map[]
    else if body[|body| - 1].InterfaceMapElement? then body[|body| - 1].data
    else LastData(body[..|body| - 1])
  }

  /** LastPath is "" without a path element, and otherwise the path of one that no later path element follows. */
  lemma {:induction false} LastPathIsLast(body: seq<BodyElement>)
    ensures (forall i :: 0 <= i < |body| ==> !body[i].PathElement?) ==> LastPath(body) == ""
    ensures (exists i :: 0 <= i < |body| && body[i].PathElement?) ==>
      exists i :: 0 <= i < |body| && body[i] == PathElement(LastPath(body))
        && forall j :: i < j < |body| ==> !body[j].PathElement?
  {
    if body != [] && !body[|body| - 1].PathElement? {
      var front := body[..|body| - 1];
      LastPathIsLast(front);
      assert forall i :: 0 <= i < |front| ==> front[i] == body[i];
    }
  }

  /** LastData is empty without an interface map, and otherwise a map that no later map follows. */
  lemma {:induction false} LastDataIsLast(body: seq<BodyElement>)
    ensures (forall i :: 0 <= i < |body| ==> !body[i].InterfaceMapElement?) ==> LastData(body) == map[]
    ensures (exists i :: 0 <= i < |body| && body[i].InterfaceMapElement?) ==>
      exists i :: 0 <= i < |body| && body[i] == InterfaceMapElement(LastData(body))
        && forall j :: i < j < |body| ==> !body[j].InterfaceMapElement?
  {
    if body != [] && !body[|body| - 1].InterfaceMapElement? {
      var front := body[..|body| - 1];
      LastDataIsLast(front);
      assert forall i :: 0 <= i < |front| ==> front[i] == body[i];
    }
  }

  function UnexpectedMessage(e: BodyElement): string
    requires e.OtherElement?
  {
    "signal.Body contained unexpected type: " + e.typeName + " [" + e.text + "]"
  }

  /**
    What parseSignalBody computes: the first unexpected element is an
    error; otherwise the last path and the last interface map win.
   */
  function DecodeSignalBody(body: seq<BodyElement>): Result<DecodedBody>
  {
    var k := FirstUnexpected(body);
    if k < |body| then Failure(UnexpectedMessage(body[k]))
    else Success(DecodedBody(LastPath(body), LastData(body)))
  }

  /** parseSignalBody: the source's loop over the body. */
  method ParseSignalBody(signalBody: seq<BodyElement>) returns (r: Result<DecodedBody>)
    ensures r == DecodeSignalBody(signalBody)
  {
    var path: Path := "";
    var props: ObjectMap := map[];
    var i := 0;
    while i < |signalBody|
      invariant 0 <= i <= |signalBody|
      invariant forall j :: 0 <= j < i ==> !signalBody[j].OtherElement?
      invariant path == LastPath(signalBody[..i])
      invariant props == LastData(signalBody[..i])
    {
      assert signalBody[..i + 1][..i] == signalBody[..i];
      match signalBody[i] {
        case PathElement(p) =>
          path := p;
        case InterfaceMapElement(m) =>
          props := m;
        case OtherElement(_, _) =>
          return Failure(UnexpectedMessage(signalBody[i]));
      }
      i := i + 1;
    }
    assert signalBody[..i] == signalBody;
    r := Success(DecodedBody(path, props));
  }

  /** The body decodes exactly when no element is of an unexpected type. */
  lemma DecodeSucceedsIff(body: seq<BodyElement>)
    ensures DecodeSignalBody(body).Success? <==> forall i :: 0 <= i < |body| ==> !body[i].OtherElement?
  {
  }

  /** An empty body decodes to the empty path and no data. */
  lemma DecodeEmptyBody()
    ensures DecodeSignalBody([]) == Success(DecodedBody("", map[]))
  {
  }

  /** The body of InterfacesAdded (object path, interface map) decodes to exactly those. */
  lemma DecodeInterfacesAdded(p: Path, m: ObjectMap)
    ensures DecodeSignalBody([PathElement(p), InterfaceMapElement(m)]) == Success(DecodedBody(p, m))
  {
    var body := [PathElement(p), InterfaceMapElement(m)];
    assert body[..1] == [PathElement(p)];
    assert LastPath(body) == LastPath(body[..1]);
  }

  /**
    The body of InterfacesRemoved (object path, list of interface names)
    never decodes: the list is an unexpected element.
   */
  lemma InterfacesRemovedBodyIsDropped(p: Path, removed: string)
    ensures DecodeSignalBody([PathElement(p), OtherElement("[]string", removed)])
      == Failure("signal.Body contained unexpected type: []string [" + removed + "]")
  {
  }

  /** A later path element overrides an earlier one, and leaves the data alone. */
  lemma {:induction false} DecodeLastPathWins(body: seq<BodyElement>, p: Path)
    requires DecodeSignalBody(body).Success?
    ensures DecodeSignalBody(body + [PathElement(p)])
      == Success(DecodedBody(p, DecodeSignalBody(body).value.data))
  {
    var b := body + [PathElement(p)];
    assert b[..|b| - 1] == body;
    assert forall i :: 0 <= i < |body| ==> b[i] == body[i];
    assert FirstUnexpected(b) == |b|;
  }

  // ---------------------------------------------------------------------
  // The delivery rule

  /** The signal name, without the object manager's prefix, is InterfacesAdded or InterfacesRemoved. */
  predicate IsAddedOrRemoved(name: string)
  {
    var trimmed := GoStrings.TrimPrefix(name, Consts.ObjectManager + ".");
    trimmed == Consts.InterfacesAdded || trimmed == Consts.InterfacesRemoved
  }

  /** Exactly four names pass the rule: the two signal names, bare or qualified. */
  lemma AddedOrRemovedNames(name: string)
    ensures IsAddedOrRemoved(name) <==>
      name in {"InterfacesAdded", "InterfacesRemoved",
               "org.freedesktop.DBus.ObjectManager.InterfacesAdded",
               "org.freedesktop.DBus.ObjectManager.InterfacesRemoved"}
  {
    var prefix := Consts.ObjectManager + ".";
    var added := prefix + Consts.InterfacesAdded;
    var removed := prefix + Consts.InterfacesRemoved;
    assert added == "org.freedesktop.DBus.ObjectManager.InterfacesAdded";
    assert removed == "org.freedesktop.DBus.ObjectManager.InterfacesRemoved";
    // The bare names are shorter than the prefix.
    assert !GoStrings.HasPrefix(Consts.InterfacesAdded, prefix);
    assert !GoStrings.HasPrefix(Consts.InterfacesRemoved, prefix);
    assert added[..|prefix|] == prefix && added[|prefix|..] == Consts.InterfacesAdded;
    assert removed[..|prefix|] == prefix && removed[|prefix|..] == Consts.InterfacesRemoved;
    if GoStrings.HasPrefix(name, prefix) {
      assert name == prefix + GoStrings.TrimPrefix(name, prefix);
    }
  }

  /** The watcher key splits into four '/'-separated parts, as "/org/bluez/hci0" does. */
  predicate IsAdapterShaped(p: Path)
  {
    |GoStrings.Split(p, '/')| == 4
  }

  /** A clean rooted path with n > 0 elements splits into n + 1 parts. */
  lemma RootedParts(elems: seq<string>)
    requires |elems| > 0
    requires forall i :: 0 <= i < |elems| ==> GoPath.IsPlainElement(elems[i])
    ensures GoStrings.Split(GoPath.Rooted(elems), '/') == [""] + elems
  {
    var parts := [""] + elems;
    assert parts[1..] == elems;
    assert GoStrings.Join(parts, '/') == GoPath.Rooted(elems);
    GoStrings.SplitJoin(parts, '/');
  }

  /** Among clean rooted paths, exactly those three levels deep are adapter-shaped. */
  lemma AdapterShapedDepth(elems: seq<string>)
    requires |elems| > 0
    requires forall i :: 0 <= i < |elems| ==> GoPath.IsPlainElement(elems[i])
    ensures IsAdapterShaped(GoPath.Rooted(elems)) <==> |elems| == 3
  {
    RootedParts(elems);
  }

  /** Whether a signal named `name` is written to the watcher registered at `watcher`. */
  predicate Delivers(name: string, watcher: Path)
  {
    IsAddedOrRemoved(name) && IsAdapterShaped(watcher)
  }

  /**
    The device path derived from an adapter's properties is one level
    below the adapter, so a watcher on it never receives the object
    manager's signals.
   */
  lemma DeviceWatcherNeverDelivered(adapterElems: seq<string>, address: string, name: string)
    requires |adapterElems| == 3
    requires forall i :: 0 <= i < |adapterElems| ==> GoPath.IsPlainElement(adapterElems[i])
    requires GoPath.IsPlainElement(address)
    ensures IsAdapterShaped(GoPath.Rooted(adapterElems))
    ensures !Delivers(name, AddressToPath(GoPath.Rooted(adapterElems), address))
  {
    AdapterShapedDepth(adapterElems);
    DevicePathBelowAdapter(adapterElems, address);
    ReplaceKeepsPlain(address);
    var elems := adapterElems + [GoStrings.ReplaceAll(address, ':', '_')];
    assert forall i :: 0 <= i < |elems| ==> GoPath.IsPlainElement(elems[i]);
    AdapterShapedDepth(elems);
  }

  // ---------------------------------------------------------------------
  // Match rule requests

  /**
    `calls` is the transport's record of registering (watch) or
    unregistering the pairs in order, stopping at the first failure.
   */
  ghost predicate MatchRun(calls: seq<Call>, watch: bool, pairs: seq<InterfaceSignalPair>)
  {
    && |calls| <= |pairs|
    && (forall i :: 0 <= i < |calls| ==>
          if watch then calls[i].Watched? && calls[i] == Watched(Consts.RootPath, pairs[i].iface, pairs[i].signalName, calls[i].err)
          else calls[i].UnWatched? && calls[i] == UnWatched(Consts.RootPath, pairs[i].iface, pairs[i].signalName, calls[i].err))
    && (forall i :: 0 <= i < |calls| - 1 ==> calls[i].err == Pass)
    && (|calls| < |pairs| ==> |calls| > 0 && calls[|calls| - 1].err.Fail?)
  }

  /** A match request that did not fail. */
  ghost predicate Succeeded(c: Call)
  {
    (c.Watched? || c.UnWatched?) ==> c.err == Pass
  }

  /** The result of such a run: the last request's outcome. */
  ghost function RunOutcome(calls: seq<Call>): Outcome
    requires forall i :: 0 <= i < |calls| ==> calls[i].Watched? || calls[i].UnWatched?
  {
    if calls == [] then Pass else calls[|calls| - 1].err
  }

  /** A run succeeds exactly when every pair was requested and every request succeeded. */
  lemma RunOutcomePass(calls: seq<Call>, watch: bool, pairs: seq<InterfaceSignalPair>)
    requires MatchRun(calls, watch, pairs)
    ensures RunOutcome(calls) == Pass <==>
      |calls| == |pairs| && forall i :: 0 <= i < |calls| ==> calls[i].err == Pass
  {
  }

  // ---------------------------------------------------------------------
  // Building objects

  /**
    createObject: the constructor of some payload interface that has one
    (which one, when several do, depends on map order), or None when no
    payload interface has a constructor.
   */
  method CreateObject(path: Path, data: ObjectMap) returns (o: Option<BluezObject>)
    ensures o.None? <==> !HasRegisteredInterface(data)
    ensures o.Some? ==>
              && fresh(o.value.Repr())
              && InterfaceOf(o.value.Kind()) in data
              && CreatedFrom(o.value, path, data) && Idle(o.value)
  {
    TypeRegistryInverse();
    o := None;
    var todo := data.Keys;
    while todo != {}
      invariant todo <= data.Keys
      invariant forall k :: k in data && k !in todo ==> k !in TypeRegistry
      decreases |todo|
    {
      var iface :| iface in todo;
      todo := todo - {iface};
      if iface in TypeRegistry {
        var t := TypeRegistry[iface];
        var obj := Construct(t, path, data);
        return Some(obj);
      }
    }
  }

  // ---------------------------------------------------------------------
  // The connection

  class BluezConn {
    const ops: Operations
    const root: Node
    var objectRegistry: map<Path, Option<BluezObject>>
    var signalWatchers: map<Path, ObjectChangedChan>

    constructor (ops: Operations, root: Node)
      ensures this.ops == ops && this.root == root
      ensures objectRegistry == map[] && signalWatchers == map[]
    {
      this.ops := ops;
      this.root := root;
      objectRegistry := map[];
      signalWatchers := map[];
    }

    /**
      Every stored object sits at its own path and is as its constructor
      built it; every watcher queue is open and belongs to one path only.
     */
    ghost predicate Valid()
      reads this, signalWatchers.Values
    {
      && (forall p :: p in objectRegistry && objectRegistry[p].Some? ==>
            objectRegistry[p].value.Path() == p && objectRegistry[p].value.WellFormed())
      && (forall p :: p in signalWatchers ==> !signalWatchers[p].closed)
      && (forall p, q :: p in signalWatchers && q in signalWatchers && p != q ==>
            signalWatchers[p] != signalWatchers[q])
    }

    /** No entry is nil; a query that asks each entry for its interfaces would panic on one. */
    ghost predicate NoNilEntries()
      reads this
    {
      forall p :: p in objectRegistry ==> objectRegistry[p].Some?
    }

    ghost function RegistryRepr(): set<BaseObject>
      reads this
    {
      set p | p in objectRegistry && objectRegistry[p].Some? :: objectRegistry[p].value.Base()
    }

    /**
      The registry holds exactly the snapshot paths that have a payload
      interface with a constructor, each built from its own payload.
     */
    ghost predicate Bootstrapped(objMap: map<Path, ObjectMap>)
      reads this, RegistryRepr()
    {
      && (forall p :: p in objectRegistry <==> p in objMap && HasRegisteredInterface(objMap[p]))
      && (forall p :: p in objectRegistry ==>
            && objectRegistry[p].Some?
            && InterfaceOf(objectRegistry[p].value.Kind()) in objMap[p]
            && CreatedFrom(objectRegistry[p].value, p, objMap[p]))
    }

    /**
      AddWatch: registers a match rule at the bus root for each pair, in
      order; the first failure is returned and the watcher table is left
      alone, while the rules already registered stay registered. On
      success a fresh queue of capacity 2 replaces whatever was stored at
      the path.
     */
    method AddWatch(path: Path, signalMap: seq<InterfaceSignalPair>)
      returns (ch: ObjectChangedChan?, err: Outcome, ghost calls: seq<Call>)
      requires Valid()
      modifies this, ops
      ensures Valid()
      ensures objectRegistry == old(objectRegistry)
      ensures MatchRun(calls, true, signalMap) && ops.log == old(ops.log) + calls
      ensures err == RunOutcome(calls)
      ensures err.Fail? ==> ch == null && signalWatchers == old(signalWatchers)
      ensures err.Pass? ==>
                && ch != null && fresh(ch)
                && ch.capacity == 2 && ch.buffered == [] && !ch.closed
                && signalWatchers == old(signalWatchers)[path := ch]
    {
      calls := [];
      var i := 0;
      while i < |signalMap|
        invariant 0 <= i <= |signalMap| && |calls| == i
        invariant ops.log == old(ops.log) + calls
        invariant forall j :: 0 <= j < i ==>
          calls[j] == Watched(Consts.RootPath, signalMap[j].iface, signalMap[j].signalName, Pass)
        modifies ops
      {
        var e := ops.Watch(Consts.RootPath, signalMap[i].iface, signalMap[i].signalName);
        calls := calls + [Watched(Consts.RootPath, signalMap[i].iface, signalMap[i].signalName, e)];
        if e.Fail? {
          return null, e, calls;
        }
        i := i + 1;
      }
      ch := new ObjectChangedChan(2);
      signalWatchers := signalWatchers[path := ch];
      err := Pass;
    }

    /**
      RemoveWatch: an unknown path is an error and nothing changes.
      Otherwise the entry is removed and the queue that was stored there
      (not the argument) is closed; then the match rule of each pair is
      unregistered, stopping at the first failure.
     */
    method RemoveWatch(path: Path, ch: ObjectChangedChan?, signalMap: seq<InterfaceSignalPair>)
      returns (err: Outcome, ghost calls: seq<Call>)
      requires Valid()
      modifies this, ops, if path in signalWatchers then {signalWatchers[path]} else {}
      ensures Valid()
      ensures objectRegistry == old(objectRegistry)
      ensures path !in old(signalWatchers) ==>
                && err == Fail("No channel found for " + path)
                && signalWatchers == old(signalWatchers)
                && calls == [] && ops.log == old(ops.log)
      ensures path in old(signalWatchers) ==>
                && signalWatchers == old(signalWatchers) - {path}
                && old(signalWatchers)[path].closed
                && old(signalWatchers)[path].buffered == old(signalWatchers[path].buffered)
                && MatchRun(calls, false, signalMap) && ops.log == old(ops.log) + calls
                && err == RunOutcome(calls)
    {
      calls := [];
      if path !in signalWatchers {
        return Fail("No channel found for " + path), calls;
      }
      var stored := signalWatchers[path];
      signalWatchers := signalWatchers - {path};
      stored.Close();
      var i := 0;
      while i < |signalMap|
        invariant 0 <= i <= |signalMap| && |calls| == i
        invariant ops.log == old(ops.log) + calls
        invariant forall j :: 0 <= j < i ==>
          calls[j] == UnWatched(Consts.RootPath, signalMap[j].iface, signalMap[j].signalName, Pass)
        modifies ops
      {
        var e := ops.UnWatch(Consts.RootPath, signalMap[i].iface, signalMap[i].signalName);
        calls := calls + [UnWatched(Consts.RootPath, signalMap[i].iface, signalMap[i].signalName, e)];
        if e.Fail? {
          return e, calls;
        }
        i := i + 1;
      }
      err := Pass;
    }

    /** GetObjectsByType: every stored object built as `oType`, each once, in map order. */
    method GetObjectsByType(oType: string) returns (objects: seq<BluezObject>, ghost paths: seq<Path>)
      requires NoNilEntries()
      ensures |objects| == |paths| && NoDuplicates(paths)
      ensures forall i :: 0 <= i < |paths| ==>
        paths[i] in objectRegistry && objectRegistry[paths[i]] == Some(objects[i])
      ensures forall p :: p in paths <==> p in objectRegistry && objectRegistry[p].value.Primary() == oType
    {
      objects, paths := [], [];
      var todo := objectRegistry.Keys;
      while todo != {}
        invariant todo <= objectRegistry.Keys
        invariant |objects| == |paths| && NoDuplicates(paths)
        invariant forall i :: 0 <= i < |paths| ==>
          paths[i] in objectRegistry && objectRegistry[paths[i]] == Some(objects[i])
        invariant forall p :: p in paths <==>
          p in objectRegistry && p !in todo && objectRegistry[p].value.Primary() == oType
        decreases |todo|
      {
        var p :| p in todo;
        todo := todo - {p};
        var v := objectRegistry[p].value;
        if v.Primary() == oType {
          objects := objects + [v];
          paths := paths + [p];
        }
      }
    }

    /** GetObjectsByInterface: every stored object whose declared interfaces contain the name, each once. */
    method GetObjectsByInterface(interfaceName: string) returns (results: seq<BluezObject>, ghost paths: seq<Path>)
      requires NoNilEntries()
      ensures |results| == |paths| && NoDuplicates(paths)
      ensures forall i :: 0 <= i < |paths| ==>
        paths[i] in objectRegistry && objectRegistry[paths[i]] == Some(results[i])
      ensures forall p :: p in paths <==>
        p in objectRegistry && interfaceName in objectRegistry[p].value.Interfaces()
    {
      results, paths := [], [];
      var todo := objectRegistry.Keys;
      while todo != {}
        invariant todo <= objectRegistry.Keys
        invariant |results| == |paths| && NoDuplicates(paths)
        invariant forall i :: 0 <= i < |paths| ==>
          paths[i] in objectRegistry && objectRegistry[paths[i]] == Some(results[i])
        invariant forall p :: p in paths <==>
          p in objectRegistry && p !in todo && interfaceName in objectRegistry[p].value.Interfaces()
        decreases |todo|
      {
        var p :| p in todo;
        todo := todo - {p};
        var obj := objectRegistry[p].value;
        var found := Declares(obj.Interfaces(), interfaceName);
        if found {
          results := results + [obj];
          paths := paths + [p];
        }
      }
    }

    /**
      FindObjects: nothing for an empty pattern; with a trailing '*',
      every entry whose path starts with the rest of the pattern; else the
      entry at exactly the pattern, if any. `firstOnly` is not consulted.
     */
    method FindObjects(pattern: string, firstOnly: bool)
      returns (results: seq<Option<BluezObject>>, ghost paths: seq<Path>)
      ensures |results| == |paths| && NoDuplicates(paths)
      ensures forall i :: 0 <= i < |paths| ==>
        paths[i] in objectRegistry && results[i] == objectRegistry[paths[i]]
      ensures pattern == "" ==> paths == []
      ensures pattern != "" && pattern[|pattern| - 1] == '*' ==>
        forall p :: p in paths <==>
          p in objectRegistry && GoStrings.HasPrefix(p, pattern[..|pattern| - 1])
      ensures pattern != "" && pattern[|pattern| - 1] != '*' ==>
        paths == if pattern in objectRegistry then [pattern] else []
    {
      if |pattern| == 0 {
        return [], [];
      }
      var end := pattern[|pattern| - 1];
      var withoutEnd := pattern[..|pattern| - 1];
      results, paths := [], [];
      var todo := objectRegistry.Keys;
      while todo != {}
        invariant todo <= objectRegistry.Keys
        invariant |results| == |paths| && NoDuplicates(paths)
        invariant forall i :: 0 <= i < |paths| ==>
          paths[i] in objectRegistry && paths[i] !in todo && results[i] == objectRegistry[paths[i]]
        invariant end == '*' ==> forall p :: p in paths <==>
          p in objectRegistry && p !in todo && GoStrings.HasPrefix(p, withoutEnd)
        invariant end != '*' ==> paths == [] && (pattern in objectRegistry ==> pattern in todo)
        decreases |todo|
      {
        var p :| p in todo;
        todo := todo - {p};
        var obj := objectRegistry[p];
        if end == '*' && GoStrings.HasPrefix(p, withoutEnd) {
          results := results + [obj];
          paths := paths + [p];
        } else if p == pattern {
          results := results + [obj];
          paths := paths + [p];
          break;
        }
      }
    }

    /**
      FindAdapters: one slot per object built as an adapter; the slot of
      an object that is not an Adapter would stay nil, which a valid
      registry never holds.
     */
    method FindAdapters() returns (adapters: seq<Adapter?>, ghost paths: seq<Path>)
      requires NoNilEntries() && Valid()
      ensures |adapters| == |paths| && NoDuplicates(paths)
      ensures forall i :: 0 <= i < |paths| ==>
        adapters[i] != null && paths[i] in objectRegistry
        && objectRegistry[paths[i]] == Some(AdapterObject(adapters[i]))
      ensures forall p :: p in paths <==> p in objectRegistry && objectRegistry[p].value.AdapterObject?
      ensures forall i :: 0 <= i < |adapters| ==>
        adapters[i] != null && Some(AdapterObject(adapters[i])) in objectRegistry.Values
    {
      var objects;
      objects, paths := GetObjectsByType(Consts.Adapter1);
      adapters := seq(|objects|, _ => null);
      var i := 0;
      while i < |objects|
        invariant 0 <= i <= |objects| && |adapters| == |objects|
        invariant forall j :: 0 <= j < i ==>
          adapters[j] == if objects[j].AdapterObject? then objects[j].adapter else null
        invariant forall j :: i <= j < |objects| ==> adapters[j] == null
      {
        if objects[i].AdapterObject? {
          adapters := adapters[i := objects[i].adapter];
        }
        i := i + 1;
      }
      forall p | p in objectRegistry
        ensures objectRegistry[p].value.AdapterObject? <==> objectRegistry[p].value.Primary() == Consts.Adapter1
      {
        KindOfPrimary(objectRegistry[p].value);
      }
    }

    method IntrospectPath(path: string) returns (r: Result<Node>)
      modifies ops
      ensures ops.log == old(ops.log) + [Introspected(Consts.BluezDest, path, r)]
    {
      r := ops.IntrospectObject(Consts.BluezDest, path);
    }

    method GetManagedObjects(path: string) returns (r: Result<map<Path, ObjectMap>>)
      modifies ops
      ensures ops.log == old(ops.log) + [ManagedObjectsFetched(Consts.BluezDest, path, r)]
    {
      r := ops.GetManagedObjects(Consts.BluezDest, path);
    }

    /** Dispatch never calls Update on a nil entry: the decoded path is absent or holds an object. */
    ghost predicate DispatchSafe(sig: Signal)
      reads this
    {
      match DecodeSignalBody(sig.body)
      case Success(d) => d.path in objectRegistry ==> objectRegistry[d.path].Some?
      case Failure(_) => true
    }

    /** The object whose cache a dispatch of `sig` updates, if any. */
    ghost function UpdateTarget(sig: Signal): set<object>
      reads this
    {
      match DecodeSignalBody(sig.body)
      case Success(d) =>
        if d.path in objectRegistry && objectRegistry[d.path].Some?
        then {objectRegistry[d.path].value.Base()} else {}
      case Failure(_) => {}
    }

    /**
      One step of handleSignals. A body that does not decode is dropped.
      Otherwise the stored object (if any) is updated, the entry is
      overwritten with a freshly built object, or None, and the
      notification goes to every watcher the rule selects.
     */
    method HandleSignal(sig: Signal)
      requires Valid() && DispatchSafe(sig)
      modifies this, signalWatchers.Values, UpdateTarget(sig)
      ensures Valid()
      ensures signalWatchers == old(signalWatchers)
      ensures DecodeSignalBody(sig.body).Failure? ==>
                && objectRegistry == old(objectRegistry)
                && forall p :: p in signalWatchers ==> signalWatchers[p].buffered == old(signalWatchers[p].buffered)
      ensures DecodeSignalBody(sig.body).Success? ==>
                var d := DecodeSignalBody(sig.body).value;
                && d.path in objectRegistry
                && objectRegistry == old(objectRegistry)[d.path := objectRegistry[d.path]]
                && (objectRegistry[d.path].None? <==> !HasRegisteredInterface(d.data))
                && (objectRegistry[d.path].Some? ==>
                      && fresh(objectRegistry[d.path].value.Repr())
                      && InterfaceOf(objectRegistry[d.path].value.Kind()) in d.data
                      && CreatedFrom(objectRegistry[d.path].value, d.path, d.data)
                      && Idle(objectRegistry[d.path].value))
                && (forall p :: p in signalWatchers ==>
                      signalWatchers[p].buffered == old(signalWatchers[p].buffered)
                        + if Delivers(sig.name, p) then [ObjectChangedData(d.path, objectRegistry[d.path], sig.name)] else [])
      ensures DecodeSignalBody(sig.body).Success? ==>
                var d := DecodeSignalBody(sig.body).value;
                d.path in old(objectRegistry) ==>
                  var prev := old(objectRegistry)[d.path].value;
                  prev.Base().properties ==
                    if !prev.AdapterObject? && Consts.Adapter1 in d.data then d.data[Consts.Adapter1]
                    else old(prev.Base().properties)
    {
      var r := ParseSignalBody(sig.body);
      if r.Failure? {
        return;
      }
      var obj := Replace(r.value.path, r.value.data);
      Deliver(r.value.path, obj, sig.name);
    }

    /**
      The registry half of a dispatch step: update the stored object, then
      overwrite the entry with a freshly built object, or None.
     */
    method Replace(path: Path, data: ObjectMap) returns (obj: Option<BluezObject>)
      requires Valid()
      requires path in objectRegistry ==> objectRegistry[path].Some?
      modifies this, if path in objectRegistry then {objectRegistry[path].value.Base()} else {}
      ensures Valid()
      ensures signalWatchers == old(signalWatchers)
      ensures objectRegistry == old(objectRegistry)[path := obj]
      ensures obj.None? <==> !HasRegisteredInterface(data)
      ensures obj.Some? ==>
                && fresh(obj.value.Repr()) && InterfaceOf(obj.value.Kind()) in data
                && CreatedFrom(obj.value, path, data) && Idle(obj.value)
      ensures path in old(objectRegistry) ==>
                var prev := old(objectRegistry)[path].value;
                prev.Base().properties ==
                  if !prev.AdapterObject? && Consts.Adapter1 in data then data[Consts.Adapter1]
                  else old(prev.Base().properties)
    {
      if path in objectRegistry {
        var _ := UpdateObject(objectRegistry[path].value, data);
      }
      obj := CreateObject(path, data);
      objectRegistry := objectRegistry[path := obj];
    }

    /** The fan-out loop of handleSignals. */
    method Deliver(path: Path, obj: Option<BluezObject>, name: string)
      requires Valid()
      modifies signalWatchers.Values
      ensures Valid()
      ensures forall p :: p in signalWatchers ==>
        signalWatchers[p].buffered == old(signalWatchers[p].buffered)
          + if Delivers(name, p) then [ObjectChangedData(path, obj, name)] else []
    {
      var todo := signalWatchers.Keys;
      while todo != {}
        invariant todo <= signalWatchers.Keys
        invariant forall p :: p in signalWatchers ==> !signalWatchers[p].closed
        invariant forall p :: p in signalWatchers && p in todo ==>
          signalWatchers[p].buffered == old(signalWatchers[p].buffered)
        invariant forall p :: p in signalWatchers && p !in todo ==>
          signalWatchers[p].buffered == old(signalWatchers[p].buffered)
            + if Delivers(name, p) then [ObjectChangedData(path, obj, name)] else []
        decreases |todo|
      {
        var p :| p in todo;
        todo := todo - {p};
        var listener := signalWatchers[p];
        var trimmed := GoStrings.TrimPrefix(name, Consts.ObjectManager + ".");
        if trimmed == Consts.InterfacesAdded || trimmed == Consts.InterfacesRemoved {
          if |GoStrings.Split(p, '/')| == 4 {
            listener.Send(ObjectChangedData(path, obj, name));
          }
        }
      }
    }
  }

  /**
    The registry-filling loop of InitializeBluez: the snapshot paths that
    have a payload interface with a constructor, each built from its own
    payload.
   */
  method BuildRegistry(objMap: map<Path, ObjectMap>) returns (registry: map<Path, Option<BluezObject>>)
    ensures forall p :: p in registry <==> p in objMap && HasRegisteredInterface(objMap[p])
    ensures forall p :: p in registry ==>
              && registry[p].Some?
              && fresh(registry[p].value.Repr())
              && InterfaceOf(registry[p].value.Kind()) in objMap[p]
              && CreatedFrom(registry[p].value, p, objMap[p])
              && Idle(registry[p].value)
  {
    registry := map[];
    var todo := objMap.Keys;
    while todo != {}
      invariant todo <= objMap.Keys
      invariant forall p :: p in registry <==> p in objMap && p !in todo && HasRegisteredInterface(objMap[p])
      invariant forall p :: p in registry ==> registry[p].Some? && fresh(registry[p].value.Repr())
      invariant forall p :: p in registry ==> allocated(registry[p].value.Repr())
      invariant forall p :: p in registry ==> Idle(registry[p].value)
      invariant forall p :: p in registry ==> ShapedFrom(registry[p].value, p, objMap[p])
      invariant forall p :: p in registry ==> InterfaceOf(registry[p].value.Kind()) in objMap[p]
      invariant forall p :: p in registry ==> CachedFrom(registry[p].value, objMap[p])
      decreases |todo|
    {
      var path :| path in todo;
      todo := todo - {path};
      var newObj := CreateObject(path, objMap[path]);
      if newObj.Some? {
        registry := registry[path := newObj];
      }
    }
  }

  /** Whether a declared-interface list contains the name: the inner loop of GetObjectsByInterface. */
  method Declares(ifaces: seq<string>, interfaceName: string) returns (found: bool)
    ensures found <==> interfaceName in ifaces
  {
    for i := 0 to |ifaces|
      invariant interfaceName !in ifaces[..i]
    {
      if ifaces[i] == interfaceName {
        return true;
      }
    }
    return false;
  }

  /** Under WellFormed, an object is an adapter exactly when it was built as Adapter1. */
  lemma KindOfPrimary(o: BluezObject)
    requires o.WellFormed()
    ensures o.AdapterObject? <==> o.Primary() == Consts.Adapter1
  {
  }

  /**
    InitializeBluez: introspect the BlueZ root, fetch the snapshot of
    managed objects from the bus root, build the registry from it and
    register the signal channel. Either request's error ends the
    bootstrap with no connection.
   */
  method InitializeBluez(ops: Operations) returns (conn: BluezConn?, err: Outcome, ghost answered: seq<Call>)
    modifies ops
    ensures conn != null <==> err == Pass
    ensures ops.log == old(ops.log) + answered
    ensures |answered| >= 1 && answered[0].Introspected?
    ensures answered[0].dest == Consts.BluezDest && answered[0].path == Consts.BluezRootPath
    ensures answered[0].node.Failure? ==> answered == [answered[0]] && err == Fail(answered[0].node.error)
    ensures answered[0].node.Success? ==>
              && |answered| >= 2 && answered[1].ManagedObjectsFetched?
              && answered[1].dest == Consts.BluezDest && answered[1].path == Consts.RootPath
              && (answered[1].objects.Failure? ==>
                    answered == answered[..2] && err == Fail(answered[1].objects.error))
              && (answered[1].objects.Success? ==>
                    && answered == answered[..2] + [SignalChannelRegistered]
                    && conn != null && fresh(conn)
                    && conn.ops == ops && conn.root == answered[0].node.value
                    && conn.signalWatchers == map[]
                    && conn.Valid() && conn.NoNilEntries()
                    && conn.Bootstrapped(answered[1].objects.value)
                    && (forall p :: p in conn.objectRegistry ==>
                          fresh(conn.objectRegistry[p].value.Repr()) && Idle(conn.objectRegistry[p].value)))
  {
    var node := ops.IntrospectObject(Consts.BluezDest, Consts.BluezRootPath);
    answered := [Introspected(Consts.BluezDest, Consts.BluezRootPath, node)];
    if node.Failure? {
      return null, Fail(node.error), answered;
    }
    var objMap := ops.GetManagedObjects(Consts.BluezDest, Consts.RootPath);
    answered := answered + [ManagedObjectsFetched(Consts.BluezDest, Consts.RootPath, objMap)];
    if objMap.Failure? {
      return null, Fail(objMap.error), answered;
    }
    // Building the registry issues no request, so the registration of
    // the signal channel can be logged first without changing the log.
    ops.RegisterSignalChannel();
    answered := answered + [SignalChannelRegistered];
    conn := new BluezConn(ops, node.value);
    var registry := BuildRegistry(objMap.value);
    conn.objectRegistry := registry;
    err := Pass;
  }

  /**
    Adding a watch and removing it again at the same path, as a client
    does: when every match request succeeds both calls succeed, the queue
    handed out is closed, and the table is as before minus that path. When
    both succeed, the log holds one match registration per pair followed
    by one unregistration per pair, so no match rule is left behind.
   */
  method WatchRoundTrip(conn: BluezConn, path: Path, pairs: seq<InterfaceSignalPair>)
    returns (ch: ObjectChangedChan?, addErr: Outcome, removeErr: Outcome)
    requires conn.Valid()
    modifies conn, conn.ops
    ensures conn.Valid()
    ensures addErr.Fail? ==> conn.signalWatchers == old(conn.signalWatchers) && removeErr == addErr
    ensures addErr.Pass? ==>
              && ch != null && fresh(ch) && ch.closed && ch.buffered == []
              && conn.signalWatchers == old(conn.signalWatchers) - {path}
    ensures (forall i :: |old(conn.ops.log)| <= i < |conn.ops.log| ==> Succeeded(conn.ops.log[i])) ==>
              addErr == Pass && removeErr == Pass
    ensures addErr == Pass && removeErr == Pass ==>
              && |conn.ops.log| == |old(conn.ops.log)| + 2 * |pairs|
              && forall i :: 0 <= i < |pairs| ==>
                   && conn.ops.log[|old(conn.ops.log)| + i]
                        == Watched(Consts.RootPath, pairs[i].iface, pairs[i].signalName, Pass)
                   && conn.ops.log[|old(conn.ops.log)| + |pairs| + i]
                        == UnWatched(Consts.RootPath, pairs[i].iface, pairs[i].signalName, Pass)
  {
    ghost var added, removed;
    ch, addErr, added := conn.AddWatch(path, pairs);
    if addErr.Fail? {
      assert conn.ops.log[|old(conn.ops.log)| + |added| - 1] == added[|added| - 1];
      removeErr := addErr;
      return;
    }
    removeErr, removed := conn.RemoveWatch(path, ch, pairs);
    assert conn.ops.log == old(conn.ops.log) + added + removed;
    if removeErr.Fail? {
      assert conn.ops.log[|old(conn.ops.log)| + |added| + |removed| - 1] == removed[|removed| - 1];
    } else {
      RunOutcomePass(added, true, pairs);
      RunOutcomePass(removed, false, pairs);
    }
  }

  /**
    Looking objects up by the Adapter1 interface never finds an adapter,
    because newAdapter declares no interfaces.
   */
  method AdaptersNotFoundByInterface(conn: BluezConn) returns (results: seq<BluezObject>)
    requires conn.Valid() && conn.NoNilEntries()
    ensures forall i :: 0 <= i < |results| ==> !results[i].AdapterObject?
  {
    ghost var paths;
    results, paths := conn.GetObjectsByInterface(Consts.Adapter1);
  }

  /**
    Dispatching an InterfacesAdded signal whose payload holds only Device1
    stores a fresh device at the announced path, with that payload's
    properties and no watch running.
   */
  method DispatchDeviceAdded(conn: BluezConn, sender: string, p: Path, props: PropertyMap)
    returns (sig: Signal)
    requires conn.Valid()
    requires p in conn.objectRegistry ==> conn.objectRegistry[p].Some?
    modifies conn, conn.signalWatchers.Values,
      if p in conn.objectRegistry then {conn.objectRegistry[p].value.Base()} else {}
    ensures sig.body == [PathElement(p), InterfaceMapElement(map[Consts.Device1 := props])]
    ensures p in conn.objectRegistry && conn.objectRegistry[p].Some?
    ensures conn.objectRegistry[p].value.DeviceObject?
    ensures conn.objectRegistry[p].value.device.base.properties == props
    ensures conn.objectRegistry[p].value.device.discoveryCh == null
  {
    sig := Signal(sender, p, Consts.ObjectManager + "." + Consts.InterfacesAdded,
                  [PathElement(p), InterfaceMapElement(map[Consts.Device1 := props])]);
    DecodeInterfacesAdded(p, map[Consts.Device1 := props]);
    TypeRegistryInverse();
    assert Consts.Device1 in TypeRegistry;
    assert HasRegisteredInterface(map[Consts.Device1 := props]);
    conn.HandleSignal(sig);
  }

  /** A snapshot path whose payload holds only Device1 is bootstrapped as a device. */
  lemma BootstrappedDevice(conn: BluezConn, objMap: map<Path, ObjectMap>, p: Path)
    requires conn.Bootstrapped(objMap)
    requires p in objMap && objMap[p].Keys == {Consts.Device1}
    ensures p in conn.objectRegistry && conn.objectRegistry[p].Some?
    ensures conn.objectRegistry[p].value.DeviceObject?
    ensures conn.objectRegistry[p].value.device.base.properties == objMap[p][Consts.Device1]
  {
    TypeRegistryInverse();
    assert Consts.Device1 in objMap[p] && Consts.Device1 in TypeRegistry;
  }
}
