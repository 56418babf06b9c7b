# bluezog object registry and signal dispatch, in Dafny

This project models the core of bluezog's `protocol` package, a Go client for the BlueZ Bluetooth daemon over D-Bus.

- **Registry.** The connection (`bluezConn`) keeps a registry from object path to typed object. It fills the registry at bootstrap from the daemon's managed-object snapshot.
- **Construction.** Each object is built by the constructor registered for one of its payload interfaces.
- **Watchers.** The connection keeps a table of watchers: queues, keyed by path, that receive object-changed notifications. Adding or removing a watcher registers or unregisters one D-Bus match rule per (interface, signal) pair.
- **Dispatch.** One dispatch step decodes a signal body and overwrites the registry entry at the decoded path. It then fans the notification out under the rule the source implements.
- **Entities.**
  - The base object caches properties, qualifies property names and derives device paths.
  - The adapter, device and GATT characteristic objects add small started/notify state machines.
- **Serialisers.** The introspection stringifiers of `pkg/base/types.go` are modelled too.
- **Transport.** The D-Bus transport (`base.Operations`) is a class whose methods answer nondeterministically. Each call appends itself, with its answer, to a ghost call log. Contracts about remote calls are statements about that log.

Modules, one concept each:

- `Wrappers`: `Option`, `Result` and `Outcome` (a Go `error`), plus `NoDuplicates`.
- `Consts`: the literal names from `consts.go` and `pkg/bus/types.go`.
- `GoStrings`, `GoPath`: the parts of Go's `strings` and `path` packages that the core uses.
- `BaseTypes`: `types.go` (variants, interface maps, introspection nodes and their `String` methods) and the transport class.
- `Entities`: `base.go`.
- `Variants`: queues, the per-kind classes, the constructor table and the constructors of all seven variant files.
- `Bluez`: `bluez.go`.
- `Adapters`, `Devices`, `GattCharacteristics`, `GattDescriptors`: the operations that go through the connection.

Go map iteration order is a nondeterministic choice (`:|`) in every loop over a map, and no contract depends on it. Panics in the source become preconditions:
- a nil registry entry reached by a query or by `Update`;
- sending on or closing a closed queue;
- calling the nil cancel function when discovery was never started;
- dereferencing newBaseObject's nil result in the wrapped constructors (device.go:27-35), so `Variants.NewWrapped` requires the kind's interface in the payload;
- GetDevicePath's unchecked type assertions on the Adapter and Address properties (base.go:128-139), which become its precondition.

## Model

| member | source | states |
|---|---|---|
| BaseTypes.ConcatSnoc | pkg/base/types.go:72-79 | appending one piece to a list appends its text to the concatenation; this is what the accumulating loops rely on |
| BaseTypes.ArgStringFields | pkg/base/types.go:64-70 | when no field holds a comma, splitting an argument dump at ',' yields exactly "Arg: "+name, " Type: "+type, " Direction: "+direction+"\n" |
| BaseTypes.ArgFieldsJoin | pkg/base/types.go:64-70 | joining the three labelled fields with ',' is the argument dump |
| BaseTypes.ArgFieldsCommaFree | pkg/base/types.go:64-70 | the labels add no comma, so comma-free fields give comma-free pieces |
| BaseTypes.MethodToString | pkg/base/types.go:72-79 | the loop produces "Node: "+name, each argument's dump in order, then "\n" (MethodString) |
| BaseTypes.ChildStrings | pkg/base/types.go:92-94 | one dump per sub-node, in order |
| BaseTypes.NodeToString | pkg/base/types.go:90-100 | the two loops and the recursion produce NodeString: header, every sub-node's dump, every interface's dump, "\n" |
| BaseTypes.LeafNodeString | pkg/base/types.go:90-100 | a node without sub-nodes and interfaces dumps to "Node: "+name+"\n\n" |
| BaseTypes.InterfaceStringIgnoresMethods | pkg/base/types.go:81-88 | an interface's dump is "\nInterface: "+name+"\n" whatever its methods |
| BaseTypes.NodeStringContainsChildren | pkg/base/types.go:91-94 | every sub-node's dump occurs inside its parent's dump |
| BaseTypes.InfixOfConcat | pkg/base/types.go:92-94 | each piece of a concatenation sits between a prefix and a suffix of it |
| BaseTypes.ConcatSplit | pkg/base/types.go:92-94 | a concatenation is the pieces before k, piece k, and the pieces after k |
| BaseTypes.Operations.CallFunctionWithArgs | pkg/base/types.go:50-55 | the call is logged with its arguments and outcome; the receive buffer keeps the length it was given |
| GoStrings.TrimPrefix | pkg/protocol/bluez.go:385 | with the prefix present the result is what follows it; otherwise the input is unchanged |
| GoStrings.ReplaceAll | pkg/protocol/bluez.go:127 | same length, and each occurrence of the character is replaced while every other character is kept |
| GoStrings.Split | pkg/protocol/bluez.go:388 | there is one piece more than separators, and no piece contains the separator |
| GoStrings.JoinSplit | pkg/protocol/bluez.go:388 | joining the pieces of a split gives back the string |
| GoStrings.SplitJoin | pkg/protocol/bluez.go:388 | splitting a join of separator-free pieces gives back the pieces |
| GoPath.JoinBelow | pkg/protocol/bluez.go:127 | joining a clean rooted path with a plain element gives the rooted path one level deeper |
| GoPath.CleanRooted | pkg/protocol/bluez.go:127 | a rooted path of plain elements is already clean |
| Entities.BaseObject.Update | pkg/protocol/base.go:79-87 | with Adapter1 in the payload the cache becomes exactly that interface's map, whatever the object's kind; without it the error "Data did not contain properties" and the cache unchanged |
| Entities.BaseObject.Property | pkg/protocol/base.go:96-103 | Some exactly when the name is cached, with the cached value; nothing is requested |
| Entities.BaseObject.FetchProperty | pkg/protocol/base.go:111-114 | one GetObjectProperty request to "org.bluez" at the object's own path for primary+"."+name, whose answer is returned |
| Entities.QualifiedName | pkg/protocol/base.go:112 | the interface, a '.', then the member, with the lengths adding up |
| Entities.QualifiedNameInjective | pkg/protocol/base.go:112 | for dot-free members the qualified name determines interface and member |
| Entities.CollectInterfaces | pkg/protocol/base.go:65-68 | every payload interface, exactly once |
| Entities.NewBaseObject | pkg/protocol/base.go:55-76 | null exactly when the main interface is absent; otherwise path = name, primary = main interface, cache = its map, declared interfaces = the payload keys without repetition |
| Entities.GetDevicePath | pkg/protocol/base.go:128-139 | "No property Adapter" is reported first, then "No property Address"; success exactly when both are present |
| Entities.ReplaceKeepsPlain | pkg/protocol/bluez.go:127 | replacing ':' by '_' keeps an address a plain path element free of ':' |
| Entities.DevicePathBelowAdapter | pkg/protocol/bluez.go:126-128 | AddressToPath puts the address, with '_' for ':', one level below a clean adapter path |
| Entities.GetDevicePathBelowAdapter | pkg/protocol/base.go:128-139 | with both properties well formed the device path is the adapter path plus the converted address |
| Variants.ObjectChangedChan.Send | pkg/protocol/bluez.go:389 | the notification is queued at the end; the queue must be open |
| Variants.ObjectChangedChan.Close | pkg/protocol/bluez.go:223 | the queue becomes closed, and what it holds stays |
| Variants.TypeRegistryInverse | pkg/protocol/adapter.go:23-29 | every constructor is registered under its own interface, and nothing else is registered |
| Variants.NewAdapter | pkg/protocol/adapter.go:32-41 | path = name, primary Adapter1, cache = payload[Adapter1] or empty, no declared interfaces; discovery not started |
| Variants.NewWrapped | pkg/protocol/device.go:27-35 | the wrapper around newBaseObject: requires the kind's interface in the payload, which it dereferences, and gives the base object that construction describes |
| Variants.NewDevice | pkg/protocol/device.go:20-35 | registered under Device1; built from payload[Device1] with the payload keys declared; no watch queue |
| Variants.NewGattCharacteristic | pkg/protocol/gattcharacteristic.go:22-34 | registered under GattCharacteristic1; built from that interface; no notify queue |
| Variants.NewGattDescriptor | pkg/protocol/gattdescriptor.go:17-29 | registered under GattDescriptor1; primary GattDescriptor1, cache = its map, declared = payload keys |
| Variants.NewGattService | pkg/protocol/gattservice.go:16-28 | registered under GattService1; needs that key; path kept, primary GattService1, cache = its map, declared = payload keys |
| Variants.NewMediaTransport | pkg/protocol/mediatransport.go:15-27 | registered under MediaTransport1; needs that key; path kept, primary MediaTransport1, cache = its map, declared = payload keys |
| Variants.NewAgentManager | pkg/protocol/agentmanager.go:15-27 | registered under AgentManager1; needs that key; path kept, primary AgentManager1, cache = its map, declared = payload keys |
| Variants.Construct | pkg/protocol/bluez.go:186 | the registered constructor runs; the object has that kind and is built from the payload, fresh and idle |
| Variants.UpdateObject | pkg/protocol/adapter.go:44-45 | an adapter's Update changes nothing and reports no error; every other kind behaves as BaseObject.Update |
| Bluez.FirstUnexpected | pkg/protocol/bluez.go:326-339 | the index of the first element that is neither a path nor an interface map, or the length |
| Bluez.LastPathIsLast | pkg/protocol/bluez.go:327-331 | the path is "" without path elements, and otherwise that of a path element with no later one |
| Bluez.LastDataIsLast | pkg/protocol/bluez.go:332-336 | the data is empty without maps, and otherwise a map element with no later one |
| Bluez.ParseSignalBody | pkg/protocol/bluez.go:323-342 | the loop computes DecodeSignalBody: the first unexpected element is an error with the source's message; otherwise the last path and last map win |
| Bluez.DecodeSucceedsIff | pkg/protocol/bluez.go:323-342 | decoding succeeds exactly when no element is of an unexpected type |
| Bluez.DecodeEmptyBody | pkg/protocol/bluez.go:324-341 | an empty body gives the empty path and no data, without error |
| Bluez.DecodeInterfacesAdded | pkg/protocol/bluez.go:323-342 | an (object path, interface map) body decodes to exactly those |
| Bluez.InterfacesRemovedBodyIsDropped | pkg/protocol/bluez.go:338 | an InterfacesRemoved body (path, list of names) is an error, so dispatch drops it |
| Bluez.DecodeLastPathWins | pkg/protocol/bluez.go:327-331 | a later path element overrides the path and leaves the data alone |
| Bluez.AddedOrRemovedNames | pkg/protocol/bluez.go:385-387 | exactly four names pass the name test: InterfacesAdded and InterfacesRemoved, bare or with the ObjectManager prefix |
| Bluez.RootedParts | pkg/protocol/bluez.go:388 | a rooted path of n plain elements splits at '/' into n+1 parts |
| Bluez.AdapterShapedDepth | pkg/protocol/bluez.go:388 | a watcher key of plain elements has four parts exactly when it is three levels deep, as "/org/bluez/hci0" |
| Bluez.DeviceWatcherNeverDelivered | pkg/protocol/bluez.go:383-394 | a watcher one level below an adapter receives nothing, whatever the signal |
| Bluez.RunOutcomePass | pkg/protocol/bluez.go:197-202 | a run of match requests succeeds exactly when every pair was requested and every request succeeded |
| Bluez.CreateObject | pkg/protocol/bluez.go:177-191 | None exactly when no payload interface has a constructor; otherwise the fresh, idle object of some registered payload interface, built from the payload |
| Bluez.BluezConn.AddWatch | pkg/protocol/bluez.go:193-211 | Watch at "/" for each pair in order, and the first failure is returned with the table unchanged (earlier matches stay); on success a fresh open capacity-2 queue replaces any entry at the path |
| Bluez.BluezConn.RemoveWatch | pkg/protocol/bluez.go:213-237 | an unknown path gives "No channel found for "+path and changes nothing; otherwise the entry is deleted, the stored queue (not the argument) closed, then UnWatch per pair up to the first failure |
| Bluez.WatchRoundTrip | pkg/protocol/bluez_test.go:40-44 | add then remove at one path: when every match request succeeds both succeed, the queue handed out ends closed and the table is as before minus the path; when both succeed the log gained one Watch at "/" per pair followed by one UnWatch at "/" per pair, so no match rule is left registered |
| Bluez.BluezConn.GetObjectsByType | pkg/protocol/bluez.go:262-273 | exactly the stored objects whose primary interface is the argument, each once |
| Bluez.Declares | pkg/protocol/bluez.go:281-286 | true exactly when the list contains the name |
| Bluez.BluezConn.GetObjectsByInterface | pkg/protocol/bluez.go:275-290 | exactly the stored objects whose declared interfaces contain the name, each once |
| Bluez.KindOfPrimary | pkg/protocol/adapter.go:32-41 | an object is an adapter exactly when its primary interface is Adapter1 |
| Bluez.BluezConn.FindAdapters | pkg/protocol/bluez.go:239-252 | one non-nil adapter per stored object built as an adapter, and no other |
| Bluez.DispatchDeviceAdded | pkg/protocol/bluez.go:177-191 | an InterfacesAdded signal whose payload holds only Device1 stores a device at the announced path, with that payload's properties and no watch queue |
| Bluez.BootstrappedDevice | pkg/protocol/bluez.go:160-169 | a snapshot path whose payload holds only Device1 is bootstrapped as a device with that payload's properties |
| Bluez.AdaptersNotFoundByInterface | pkg/protocol/adapter.go:32-41 | looking objects up by the Adapter1 interface never returns an adapter, since adapters declare no interfaces |
| Bluez.BluezConn.FindObjects | pkg/protocol/bluez.go:292-315 | nothing for an empty pattern; with a trailing '*' every entry whose path has the rest as prefix; otherwise the entry at exactly the pattern, if any; firstOnly ignored |
| Bluez.BluezConn.IntrospectPath | pkg/protocol/bluez.go:254-256 | one IntrospectObject request to "org.bluez" at the path, whose answer is returned |
| Bluez.BluezConn.GetManagedObjects | pkg/protocol/bluez.go:258-260 | one GetManagedObjects request to "org.bluez" at the path, whose answer is returned |
| Bluez.BluezConn.Replace | pkg/protocol/bluez.go:362-374 | the stored object is updated first, then the entry is overwritten with the newly built object or None; a new object is fresh, idle, of the kind of one of the payload's interfaces, and built from that payload |
| Bluez.BluezConn.Deliver | pkg/protocol/bluez.go:376-395 | each queue receives the notification exactly when the name test passes and its key has four parts; nothing else is queued |
| Bluez.BluezConn.HandleSignal | pkg/protocol/bluez.go:357-395 | a body that does not decode changes nothing; otherwise only the decoded path's entry changes (to None, or to a fresh idle object whose kind is one of the payload's interfaces), the old object's cache is updated, and the fan-out rule is applied |
| Bluez.BuildRegistry | pkg/protocol/bluez.go:160-169 | the registry holds exactly the snapshot paths with a registered interface, each a fresh idle object (an adapter with discovery not started, a device or characteristic with no queue), of the kind of one of its payload's interfaces, built from its own payload at that path |
| Bluez.InitializeBluez | pkg/protocol/bluez.go:139-175 | an Introspect or GetManagedObjects error is returned with no connection and no further request; otherwise the connection holds the root, an empty watcher table and the registry built from the snapshot (each entry fresh, idle and of the kind of one of its payload's interfaces), and the signal channel is registered |
| Adapters.StartDiscovery | pkg/protocol/adapter.go:48-66 | refused with "Discovery already started" and no effect while started; otherwise marked started before watching InterfacesAdded/InterfacesRemoved; a failed watch is returned with discoveryCh unchanged and the mark set; a successful one is recorded and returned with the StartDiscovery call's outcome |
| Adapters.StopDiscovery | pkg/protocol/adapter.go:70-78 | requires a prior start; removes the watch at the adapter's path whatever its error, returns the StopDiscovery call's outcome, and the mark stays set |
| Adapters.RestartAfterStop | pkg/protocol/adapter.go:48-78 | start, stop, start: the second start is always refused |
| Adapters.StopDiscoveryClearing | pkg/protocol/adapter.go:70-78 | the stop as intended: the same requests, and the started mark cleared |
| Adapters.RestartAfterStopClearing | pkg/protocol/adapter_test.go:78-80 | with the corrected stop, the restart gets past its guard and requests the InterfacesAdded match at "/" |
| Adapters.BootstrapThenStartDiscovery | pkg/protocol/adapter_test.go:17-51 | bootstrap, FindAdapters, then StartDiscovery on the first adapter: the start always gets past its guard and requests the InterfacesAdded match at "/"; the flow stops early only without a connection or without any adapter in the registry |
| Adapters.Connect | pkg/protocol/adapter.go:81-84 | one Connect call at the adapter's path with the address as its only argument |
| Devices.CallThenWatch | pkg/protocol/device.go:38-50 | a failed remote call is returned and nothing else happens; after a successful one the PropertiesChanged watch is added and its queue (null on failure) stored on the device |
| Devices.Connect | pkg/protocol/device.go:38-50 | the Connect call, then the watch, as CallThenWatch states |
| Devices.Disconnect | pkg/protocol/device.go:53-65 | the Disconnect call, then the same watch is added, not removed |
| Devices.ConnectThenDisconnect | pkg/protocol/device.go:38-65 | the connection stays valid; after both succeed a watcher is still installed at the device's path, and the queue Connect stored is replaced but never closed |
| Devices.ConnectProfile | pkg/protocol/device.go:68-79 | one ConnectProfile call with the UUID as its only argument |
| Devices.DisconnectProfile | pkg/protocol/device.go:82-84 | one DisconnectProfile call with the UUID as its only argument |
| Devices.GetProperty | pkg/protocol/device.go:87-94 | the cached value exactly when present, otherwise the error "No property "+name |
| Devices.GetPropertyMatchesProperty | pkg/protocol/device.go:87-94 | GetProperty succeeds exactly when Property finds a value, and with the same value |
| GattCharacteristics.OffsetArgs | pkg/protocol/gattcharacteristic.go:46-48 | a single dictionary argument whose only key is "offset" |
| GattCharacteristics.OffsetArgsRoundTrip | pkg/protocol/gattcharacteristic.go:46-48 | the offset is recovered from the arguments sent |
| GattCharacteristics.OffsetArgsInjective | pkg/protocol/gattcharacteristic.go:46-48 | two reads send the same arguments exactly when their offsets are equal |
| GattCharacteristics.ReadValue | pkg/protocol/gattcharacteristic.go:38-56 | the offset argument is sent in one ReadValue call and the answer is a 4-byte buffer |
| GattCharacteristics.StartNotify | pkg/protocol/gattcharacteristic.go:59-79 | refused with no effect while a queue is recorded; a failed watch is returned with none recorded; otherwise the queue is recorded before the StartNotify call, whose outcome is returned even when it failed |
| GattCharacteristics.StopNotify | pkg/protocol/gattcharacteristic.go:82-85 | only the StopNotify call; the recorded queue stays |
| GattCharacteristics.NotifyAfterStop | pkg/protocol/gattcharacteristic.go:59-85 | once a start's watch succeeded, a start after a stop is refused |
| GattDescriptors.ReadValue | pkg/protocol/gattdescriptor.go:33-41 | the offset argument is sent in one ReadValue call, and the value returned is always empty whatever the call answers |

## Left out

- Locks and goroutines. The registry and watcher mutexes, the discovery and notify mutexes, and the `handleSignals` goroutine with its `select` on the context are not modelled. One dispatch step is modelled sequentially. The lock misuse (`defer RLock` in the queries, the lock held on RemoveWatch's error return) is a concurrency defect outside the model.
- Channels. Blocking and buffer capacity are not modelled: sending appends to the queue's sequence, and the capacity is only recorded.
- The D-Bus transport (`pkg/bus/operations.go`) and every remote call. They are the abstract `Operations` class, whose answers are arbitrary. Each call is logged with its answer.
- `pkg/zog/core.go`, `pkg/logger/log.go`, `test/marshal.go` and `test/bus_mock.go` are not part of this model: they hold the shell, output and test scaffolding. `DumpData` and all printing and logging are also left out.
- `dbus.Variant` values are the datatype `Variant`. It has object-path, string and uint16 cases and keeps every other value with its signature. `GetDevicePath`'s unchecked type assertions become its precondition. `GetProperty` and `Property` return the variant itself, not its unwrapped value.
- A nil `ObjectMap` is modelled as the empty map. The two behave the same in every use in the core.
- The back-pointer from objects to the connection is replaced by passing the connection to each operation.
- InitializeBluez: the signal channel's registration is logged before the registry is built. Nothing in between touches the transport, so the call log is the same as in the source. The channel's buffer of 10 signals is not modelled.
- Deliver: the source skips nil listeners. No nil queue can be stored, so that branch is not modelled.
- Adapter.Update is declared with a `[]interface{}` parameter and ignores it. It is modelled as the `Update` the dispatcher reaches for adapters: no change and no error.
- The stale API calls in `adapter.go`, `gattcharacteristic.go` and `gattdescriptor.go` are modelled as the current `Operations` methods with the same destination, path, method name and arguments. Those calls are `a.conn`, `bus.CallFunction`, context-taking `CallFunction` and the three-argument `AddWatch`. The adapter's (interface, signal list) watch becomes the matching pairs.
- StartDiscovery: `context.WithCancel` is modelled only as the started mark it sets. Cancelling has no other effect in the source.
- Calls that leave a nil registry entry behind (a dispatch whose payload has no constructor) make later queries or updates of that entry panic in the source. The queries require NoNilEntries and dispatch requires DispatchSafe instead of modelling the panic.
- The accessors GetPath, GetBluezInterface, GetInterfaces and AllProperties return fields. What they return is stated by the constructors' contracts, so the accessors have no rows of their own.
- Variants.Construct: which registered payload interface wins when a payload has several is left open, because it depends on map order.

## Findings

| source | as written | input that shows it | evidently intended | confidence | as-written member | corrected member |
|---|---|---|---|---|---|---|
| pkg/protocol/adapter.go:70-78 | StopDiscovery calls the cancel function but never clears it, so the started mark stays set | StartDiscovery, StopDiscovery, StartDiscovery on one adapter: the second start returns "Discovery already started" (adapter_test.go:78-80 expects it to succeed) | stopping clears the mark so that discovery can be restarted | not executed | Adapters.RestartAfterStop | Adapters.RestartAfterStopClearing |
