/**
  The concrete BlueZ object kinds, the table that maps an interface name
  to the constructor registered for it, and the delivery queue the
  registry writes change notifications to.
 */
module Variants {
  import opened Wrappers
  import opened BaseTypes
  import opened Entities
  import Consts

  /** ObjectChangedData: one notification written to a watcher. */
  datatype ObjectChangedData = ObjectChangedData(path: Path, object: Option<BluezObject>, signal: string)

  /**
    ObjectChangedChan. The queue is the sequence of notifications sent
    and not yet received; receiving happens outside the model.
   */
  class ObjectChangedChan {
    const capacity: nat
    var buffered: seq<ObjectChangedData>
    var closed: bool

    constructor (capacity: nat)
      ensures this.capacity == capacity && buffered == [] && !closed
    {
      this.capacity := capacity;
      buffered := [];
      closed := false;
    }

    /** Sending on a closed channel panics. */
    method Send(d: ObjectChangedData)
      requires !closed
      modifies this
      ensures buffered == old(buffered) + [d] && !closed
    {
      buffered := buffered + [d];
    }

    /** Closing a closed channel panics; what is queued stays queued. */
    method Close()
      requires !closed
      modifies this
      ensures closed && buffered == old(buffered)
    {
      closed := true;
    }
  }

  /** Adapter. `discoveryStarted` stands for a non-nil `cancelDisc`. */
  class Adapter {
    const base: BaseObject
    var discoveryStarted: bool
    var discoveryCh: ObjectChangedChan?

    constructor (base: BaseObject)
      ensures this.base == base && !discoveryStarted && discoveryCh == null
    {
      this.base := base;
      discoveryStarted := false;
      discoveryCh := null;
    }
  }

  class Device {
    const base: BaseObject
    var discoveryCh: ObjectChangedChan?

    constructor (base: BaseObject)
      ensures this.base == base && discoveryCh == null
    {
      this.base := base;
      discoveryCh := null;
    }
  }

  class GattCharacteristic {
    const base: BaseObject
    var notifyCh: ObjectChangedChan?

    constructor (base: BaseObject)
      ensures this.base == base && notifyCh == null
    {
      this.base := base;
      notifyCh := null;
    }
  }

  /** The registered constructors. */
  datatype TypeConstructor =
    | AdapterType
    | DeviceType
    | GattCharacteristicType
    | GattDescriptorType
    | GattServiceType
    | MediaTransportType
    | AgentManagerType

  /** The interface each constructor is registered under. */
  function InterfaceOf(t: TypeConstructor): string
  {
    match t
    case AdapterType => Consts.Adapter1
    case DeviceType => Consts.Device1
    case GattCharacteristicType => Consts.GattCharacteristic1
    case GattDescriptorType => Consts.GattDescriptor1
    case GattServiceType => Consts.GattService1
    case MediaTransportType => Consts.MediaTransport1
    case AgentManagerType => Consts.AgentManager1
  }

  /** typeRegistry, as filled by the variants' init functions. */
  const TypeRegistry: map<string, TypeConstructor> := map[
    Consts.Adapter1 := AdapterType,
    Consts.Device1 := DeviceType,
    Consts.GattCharacteristic1 := GattCharacteristicType,
    Consts.GattDescriptor1 := GattDescriptorType,
    Consts.GattService1 := GattServiceType,
    Consts.MediaTransport1 := MediaTransportType,
    Consts.AgentManager1 := AgentManagerType
  ]

  /**
    Every constructor is registered, under its own interface, and nothing
    else is registered: the table and InterfaceOf are inverse.
   */
  lemma TypeRegistryInverse()
    ensures forall t :: InterfaceOf(t) in TypeRegistry && TypeRegistry[InterfaceOf(t)] == t
    ensures forall k :: k in TypeRegistry ==> InterfaceOf(TypeRegistry[k]) == k
  {
    forall k | k in TypeRegistry
      ensures InterfaceOf(TypeRegistry[k]) == k
    {
    }
  }

  /** Whether a payload names at least one interface with a constructor. */
  predicate HasRegisteredInterface(data: ObjectMap)
  {
    exists k :: k in data && k in TypeRegistry
  }

  /** The values the registry stores: one object of any kind. */
  datatype BluezObject =
    | AdapterObject(adapter: Adapter)
    | DeviceObject(device: Device)
    | CharacteristicObject(characteristic: GattCharacteristic)
    | DescriptorObject(descriptor: BaseObject)
    | ServiceObject(service: BaseObject)
    | MediaTransportObject(transport: BaseObject)
    | AgentManagerObject(manager: BaseObject)
  {
    function Base(): BaseObject
    {
      match this
      case AdapterObject(a) => a.base
      case DeviceObject(d) => d.base
      case CharacteristicObject(c) => c.base
      case DescriptorObject(b) => b
      case ServiceObject(b) => b
      case MediaTransportObject(b) => b
      case AgentManagerObject(b) => b
    }

    function Kind(): TypeConstructor
    {
      match this
      case AdapterObject(_) => AdapterType
      case DeviceObject(_) => DeviceType
      case CharacteristicObject(_) => GattCharacteristicType
      case DescriptorObject(_) => GattDescriptorType
      case ServiceObject(_) => GattServiceType
      case MediaTransportObject(_) => MediaTransportType
      case AgentManagerObject(_) => AgentManagerType
    }

    function Path(): Path
    {
      Base().path
    }

    /** GetBluezInterface */
    function Primary(): string
    {
      Base().childType
    }

    /** GetInterfaces */
    function Interfaces(): seq<string>
    {
      Base().interfaces
    }

    /** The mutable state this object owns. */
    ghost function Repr(): set<object>
    {
      match this
      case AdapterObject(a) => {a, a.base}
      case DeviceObject(d) => {d, d.base}
      case CharacteristicObject(c) => {c, c.base}
      case _ => {Base()}
    }

    /**
      What every constructor establishes: the object is built as the
      interface of its kind; an adapter declares no interfaces, any other
      object declares its own interface among distinct others.
     */
    predicate WellFormed()
    {
      && Primary() == InterfaceOf(Kind())
      && (Kind() == AdapterType ==> Interfaces() == [])
      && (Kind() != AdapterType ==> NoDuplicates(Interfaces()) && Primary() in Interfaces())
    }
  }

  /**
    The object a constructor builds for payload `data` at `path`: it sits
    at the path, is well formed, declares every payload interface once
    (an adapter declares none) and caches its own interface's properties
    (none when the payload lacks it).
   */
  ghost predicate CreatedFrom(o: BluezObject, path: Path, data: ObjectMap)
    reads o.Base()
  {
    ShapedFrom(o, path, data) && CachedFrom(o, data)
  }

  /** The part of CreatedFrom fixed at construction. */
  ghost predicate ShapedFrom(o: BluezObject, path: Path, data: ObjectMap)
  {
    && o.WellFormed()
    && o.Path() == path
    && (o.Kind() != AdapterType ==> forall k :: k in o.Interfaces() <==> k in data)
  }

  /** The part of CreatedFrom that an Update may change. */
  ghost predicate CachedFrom(o: BluezObject, data: ObjectMap)
    reads o.Base()
  {
    o.Base().properties == PropertiesOf(data, o.Primary())
  }

  /** The properties a payload gives an interface: none when the payload lacks it. */
  function PropertiesOf(data: ObjectMap, iface: string): PropertyMap
  {
    if iface in data then data[iface] else map[]
  }

  /** A new object has no watch or discovery running. */
  ghost predicate Idle(o: BluezObject)
    reads o.Repr()
  {
    && (o.AdapterObject? ==> !o.adapter.discoveryStarted && o.adapter.discoveryCh == null)
    && (o.DeviceObject? ==> o.device.discoveryCh == null)
    && (o.CharacteristicObject? ==> o.characteristic.notifyCh == null)
  }

  /**
    newAdapter: builds the base object directly, so a payload without
    Adapter1 gives empty properties and no interfaces are declared.
   */
  method NewAdapter(name: Path, data: ObjectMap) returns (a: Adapter)
    ensures fresh(a) && fresh(a.base)
    ensures CreatedFrom(AdapterObject(a), name, data) && Idle(AdapterObject(a))
  {
    var props := if Consts.Adapter1 in data then data[Consts.Adapter1] else map[];
    var b := new BaseObject(name, Consts.Adapter1, [], props);
    a := new Adapter(b);
  }

  /** A constructor that wraps newBaseObject, whose nil result it dereferences. */
  method NewWrapped(name: Path, iface: string, data: ObjectMap) returns (b: BaseObject)
    requires iface in data
    ensures fresh(b) && b.path == name && b.childType == iface && b.properties == data[iface]
    ensures NoDuplicates(b.interfaces) && forall k :: k in b.interfaces <==> k in data
  {
    var r := NewBaseObject(name, iface, data);
    b := r;
  }

  method NewDevice(name: Path, data: ObjectMap) returns (d: Device)
    requires Consts.Device1 in data
    ensures fresh(d) && fresh(d.base)
    ensures CreatedFrom(DeviceObject(d), name, data) && Idle(DeviceObject(d))
  {
    var b := NewWrapped(name, Consts.Device1, data);
    d := new Device(b);
  }

  method NewGattCharacteristic(name: Path, data: ObjectMap) returns (c: GattCharacteristic)
    requires Consts.GattCharacteristic1 in data
    ensures fresh(c) && fresh(c.base)
    ensures CreatedFrom(CharacteristicObject(c), name, data) && Idle(CharacteristicObject(c))
  {
    var b := NewWrapped(name, Consts.GattCharacteristic1, data);
    c := new GattCharacteristic(b);
  }

  method NewGattDescriptor(name: Path, data: ObjectMap) returns (o: BluezObject)
    requires Consts.GattDescriptor1 in data
    ensures o.DescriptorObject? && fresh(o.Repr())
    ensures CreatedFrom(o, name, data)
  {
    var b := NewWrapped(name, Consts.GattDescriptor1, data);
    o := DescriptorObject(b);
  }

  method NewGattService(name: Path, data: ObjectMap) returns (o: BluezObject)
    requires Consts.GattService1 in data
    ensures o.ServiceObject? && fresh(o.Repr())
    ensures CreatedFrom(o, name, data)
  {
    var b := NewWrapped(name, Consts.GattService1, data);
    o := ServiceObject(b);
  }

  method NewMediaTransport(name: Path, data: ObjectMap) returns (o: BluezObject)
    requires Consts.MediaTransport1 in data
    ensures o.MediaTransportObject? && fresh(o.Repr())
    ensures CreatedFrom(o, name, data)
  {
    var b := NewWrapped(name, Consts.MediaTransport1, data);
    o := MediaTransportObject(b);
  }

  method NewAgentManager(name: Path, data: ObjectMap) returns (o: BluezObject)
    requires Consts.AgentManager1 in data
    ensures o.AgentManagerObject? && fresh(o.Repr())
    ensures CreatedFrom(o, name, data)
  {
    var b := NewWrapped(name, Consts.AgentManager1, data);
    o := AgentManagerObject(b);
  }

  /** Runs the constructor registered as `t`. */
  method Construct(t: TypeConstructor, name: Path, data: ObjectMap) returns (o: BluezObject)
    requires t == AdapterType || InterfaceOf(t) in data
    ensures o.Kind() == t && fresh(o.Repr())
    ensures CreatedFrom(o, name, data) && Idle(o)
  {
    match t {
      case AdapterType =>
        var a := NewAdapter(name, data);
        o := AdapterObject(a);
      case DeviceType =>
        var d := NewDevice(name, data);
        o := DeviceObject(d);
      case GattCharacteristicType =>
        var c := NewGattCharacteristic(name, data);
        o := CharacteristicObject(c);
      case GattDescriptorType =>
        o := NewGattDescriptor(name, data);
      case GattServiceType =>
        o := NewGattService(name, data);
      case MediaTransportType =>
        o := NewMediaTransport(name, data);
      case AgentManagerType =>
        o := NewAgentManager(name, data);
    }
  }

  /**
    The Update the dispatcher calls: an adapter's Update ignores its data;
    every other kind uses BaseObject.Update.
   */
  method UpdateObject(o: BluezObject, data: ObjectMap) returns (err: Outcome)
    modifies o.Base()
    ensures o.AdapterObject? ==> err == Pass && o.Base().properties == old(o.Base().properties)
    ensures !o.AdapterObject? && Consts.Adapter1 in data ==>
      err == Pass && o.Base().properties == data[Consts.Adapter1]
    ensures !o.AdapterObject? && Consts.Adapter1 !in data ==>
      err == Fail("Data did not contain properties") && o.Base().properties == old(o.Base().properties)
  {
    if o.AdapterObject? {
      return Pass;
    }
    err := o.Base().Update(data);
  }
}
