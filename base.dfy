/**
  The state shared by every BlueZ object: its path, the interface it was
  built as, the interfaces its payload declared, and its cached
  properties. Also the derivation of a device's object path from its
  properties.
 */
module Entities {
  import opened Wrappers
  import opened BaseTypes
  import Consts
  import GoStrings
  import GoPath

  /** BaseObject. Only the cached properties change after construction. */
  class BaseObject {
    const path: Path
    const childType: string
    const interfaces: seq<string>
    var properties: PropertyMap

    constructor (path: Path, childType: string, interfaces: seq<string>, properties: PropertyMap)
      ensures this.path == path && this.childType == childType
      ensures this.interfaces == interfaces && this.properties == properties
    {
      this.path := path;
      this.childType := childType;
      this.interfaces := interfaces;
      this.properties := properties;
    }

    /**
      Update always looks under the Adapter1 interface, whatever this
      object's own interface, and replaces the cache wholesale.
     */
    method Update(data: ObjectMap) returns (err: Outcome)
      modifies this
      ensures Consts.Adapter1 in data ==> err == Pass && properties == data[Consts.Adapter1]
      ensures Consts.Adapter1 !in data ==>
        err == Fail("Data did not contain properties") && properties == old(properties)
    {
      if Consts.Adapter1 !in data {
        return Fail("Data did not contain properties");
      }
      properties := data[Consts.Adapter1];
      return Pass;
    }

    function GetPath(): Path
    {
      path
    }

    function GetBluezInterface(): string
    {
      childType
    }

    function GetInterfaces(): seq<string>
    {
      interfaces
    }

    /** The cached value of a property, or None when it is not cached. */
    function Property(propName: string): (r: Option<Variant>)
      reads this
      ensures r.Some? <==> propName in AllProperties()
      ensures r.Some? ==> r.value == AllProperties()[propName]
    {
      if propName in properties then Some(properties[propName]) else None
    }

    function AllProperties(): PropertyMap
      reads this
    {
      properties
    }

    /** Asks the bus for a property, qualified by this object's interface. */
    method FetchProperty(ops: Operations, propName: string) returns (r: Result<Variant>)
      modifies ops
      ensures ops.log == old(ops.log)
        + [PropertyFetched(Consts.BluezDest, path, QualifiedName(childType, propName), r)]
    {
      r := ops.GetObjectProperty(Consts.BluezDest, path, QualifiedName(childType, propName));
    }
  }

  /** The "%s.%s" member name of an interface. */
  function QualifiedName(iface: string, member: string): (q: string)
    ensures |q| == |iface| + 1 + |member|
    ensures q[..|iface|] == iface && q[|iface|] == '.' && q[|iface| + 1..] == member
  {
    iface + "." + member
  }

  /**
    For member names without a dot, the qualified name determines both
    the interface and the member.
   */
  lemma QualifiedNameInjective(i1: string, m1: string, i2: string, m2: string)
    requires '.' !in m1 && '.' !in m2
    requires QualifiedName(i1, m1) == QualifiedName(i2, m2)
    ensures i1 == i2 && m1 == m2
  {
    var q := QualifiedName(i1, m1);
    assert i1 == q[..|i1|];
  }

  /**
    The interfaces of a payload, in the order a traversal of its keys
    visits them: each key exactly once.
   */
  method CollectInterfaces(data: ObjectMap) returns (ifaces: seq<string>)
    ensures NoDuplicates(ifaces)
    ensures forall k :: k in ifaces <==> k in data
  {
    ifaces := [];
    var todo := data.Keys;
    while todo != {}
      invariant todo <= data.Keys
      invariant NoDuplicates(ifaces)
      invariant forall k :: k in ifaces <==> k in data && k !in todo
      decreases |todo|
    {
      var k :| k in todo;
      ifaces := ifaces + [k];
      todo := todo - {k};
    }
  }

  /**
    newBaseObject: null when the main interface is not in the payload;
    otherwise an object at `name` built as `mainInterface`, caching that
    interface's properties and declaring every interface of the payload.
   */
  method NewBaseObject(name: Path, mainInterface: string, data: ObjectMap) returns (b: BaseObject?)
    ensures b == null <==> mainInterface !in data
    ensures b != null ==>
              && fresh(b)
              && b.path == name && b.childType == mainInterface && b.properties == data[mainInterface]
              && NoDuplicates(b.interfaces) && (forall k :: k in b.interfaces <==> k in data)
  {
    if mainInterface !in data {
      return null;
    }
    var props := data[mainInterface];
    var ifaces := CollectInterfaces(data);
    b := new BaseObject(name, mainInterface, ifaces, props);
  }

  /** AddressToPath: the parent path joined with the address, every ':' made '_'. */
  function AddressToPath(parent: string, address: string): Path
  {
    GoPath.Join(parent, GoStrings.ReplaceAll(address, ':', '_'))
  }

  /**
    The object path of a device, from its Adapter and Address properties.
    The values are assumed to hold an object path and a string
    respectively, as the source's unchecked type assertions do.
   */
  function GetDevicePath(propDict: PropertyMap): (r: Result<Path>)
    requires Consts.AdapterProp in propDict && Consts.AddressProp in propDict ==>
      propDict[Consts.AdapterProp].ObjectPathVariant? && propDict[Consts.AddressProp].StringVariant?
    ensures Consts.AdapterProp !in propDict ==> r == Failure("No property Adapter")
    ensures Consts.AdapterProp in propDict && Consts.AddressProp !in propDict ==>
      r == Failure("No property Address")
    ensures r.Success? <==> Consts.AdapterProp in propDict && Consts.AddressProp in propDict
  {
    assert "No property " + Consts.AdapterProp == "No property Adapter";
    assert "No property " + Consts.AddressProp == "No property Address";
    if Consts.AdapterProp !in propDict then Failure("No property " + Consts.AdapterProp)
    else if Consts.AddressProp !in propDict then Failure("No property " + Consts.AddressProp)
    else Success(AddressToPath(propDict[Consts.AdapterProp].path, propDict[Consts.AddressProp].str))
  }

  /** Replacing ':' keeps an address a single plain path element. */
  lemma ReplaceKeepsPlain(address: string)
    requires GoPath.IsPlainElement(address)
    ensures GoPath.IsPlainElement(GoStrings.ReplaceAll(address, ':', '_'))
    ensures ':' !in GoStrings.ReplaceAll(address, ':', '_')
  {
    var r := GoStrings.ReplaceAll(address, ':', '_');
    assert forall i :: 0 <= i < |r| ==> r[i] != ':';
  }

  /**
    A clean adapter path and a plain address give the path one level
    below the adapter, whose last element is the address with '_' for ':'.
   */
  lemma DevicePathBelowAdapter(adapterElems: seq<string>, address: string)
    requires forall i :: 0 <= i < |adapterElems| ==> GoPath.IsPlainElement(adapterElems[i])
    requires GoPath.IsPlainElement(address)
    ensures AddressToPath(GoPath.Rooted(adapterElems), address)
      == GoPath.Rooted(adapterElems + [GoStrings.ReplaceAll(address, ':', '_')])
  {
    ReplaceKeepsPlain(address);
    GoPath.JoinBelow(adapterElems, GoStrings.ReplaceAll(address, ':', '_'));
  }

  /** GetDevicePath on well-formed properties yields the path below the adapter. */
  lemma GetDevicePathBelowAdapter(propDict: PropertyMap, adapterElems: seq<string>, address: string)
    requires forall i :: 0 <= i < |adapterElems| ==> GoPath.IsPlainElement(adapterElems[i])
    requires GoPath.IsPlainElement(address)
    requires Consts.AdapterProp in propDict
      && propDict[Consts.AdapterProp] == ObjectPathVariant(GoPath.Rooted(adapterElems))
    requires Consts.AddressProp in propDict && propDict[Consts.AddressProp] == StringVariant(address)
    ensures GetDevicePath(propDict)
      == Success(GoPath.Rooted(adapterElems + [GoStrings.ReplaceAll(address, ':', '_')]))
  {
    DevicePathBelowAdapter(adapterElems, address);
  }
}
