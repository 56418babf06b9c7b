/**
  The shared bus types: property values, the per-object interface map, the
  introspection tree with its string dumps, and the bus operations the
  core calls (the transport).
 */
module BaseTypes {
  import opened Wrappers
  import GoStrings

  /** A D-Bus object path (dbus.ObjectPath). */
  type Path = string

  newtype u16 = x: int | 0 <= x < 0x1_0000

  /**
    A property value (dbus.Variant). The core inspects only object paths,
    strings and the uint16 read offset; any other value is carried along
    under its type signature.
   */
  datatype Variant =
    | ObjectPathVariant(path: Path)
    | StringVariant(str: string)
    | Uint16Variant(u: u16)
    | OtherVariant(signature: string, rendered: string)

  /** Properties of one interface: property name to value. */
  type PropertyMap = map<string, Variant>

  /** ObjectMap: interface name to that interface's properties. */
  type ObjectMap = map<string, PropertyMap>

  // ---------------------------------------------------------------------
  // Introspection tree and its String methods

  datatype Arg = Arg(name: string, typ: string, direction: string)
  datatype Method = Method(name: string, args: seq<Arg>)
  datatype Interface = Interface(name: string, methods: seq<Method>)
  datatype Node = Node(name: string, interfaces: seq<Interface>, nodes: seq<Node>)

  /** Concatenation of a sequence of strings, left to right. */
  function Concat(ss: seq<string>): string
  {
    if ss == [] then "" else ss[0] + Concat(ss[1..])
  }

  lemma {:induction false} ConcatSnoc(ss: seq<string>, x: string)
    ensures Concat(ss + [x]) == Concat(ss) + x
  {
    if ss == [] {
      assert [] + [x] == [x];
    } else {
      assert (ss + [x])[1..] == ss[1..] + [x];
      ConcatSnoc(ss[1..], x);
    }
  }

  /** Arg.String */
  function ArgString(a: Arg): string
  {
    "Arg: " + a.name + ", Type: " + a.typ + ", Direction: " + a.direction + "\n"
  }

  function ArgStrings(args: seq<Arg>): seq<string>
  {
    seq(|args|, i requires 0 <= i < |args| => ArgString(args[i]))
  }

  /** Method.String: a "Node: " header, then every argument's line in order. */
  function MethodString(m: Method): string
  {
    "Node: " + m.name + Concat(ArgStrings(m.args)) + "\n"
  }

  /** Interface.String: the methods are not rendered. */
  function InterfaceString(i: Interface): string
  {
    "\nInterface: " + i.name + "\n"
  }

  function InterfaceStrings(ifaces: seq<Interface>): seq<string>
  {
    seq(|ifaces|, i requires 0 <= i < |ifaces| => InterfaceString(ifaces[i]))
  }

  /** Node.String: header, the sub-nodes' dumps, the interfaces' dumps, a newline. */
  function NodeString(n: Node): string
    decreases n, 1
  {
    "Node: " + n.name + "\n" + Concat(ChildStrings(n)) + Concat(InterfaceStrings(n.interfaces)) + "\n"
  }

  function ChildStrings(n: Node): (cs: seq<string>)
    ensures |cs| == |n.nodes|
    decreases n, 0
  {
    seq(|n.nodes|, i requires 0 <= i < |n.nodes| => NodeString(n.nodes[i]))
  }

  /**
    When no field contains a comma, the three fields of an argument dump
    are recovered by splitting it at its commas.
   */
  lemma ArgStringFields(a: Arg)
    ensures ',' !in a.name + a.typ + a.direction ==>
      GoStrings.Split(ArgString(a), ',') == ArgFields(a)
  {
    if ',' !in a.name + a.typ + a.direction {
      ArgFieldsJoin(a);
      ArgFieldsCommaFree(a);
      GoStrings.SplitJoin(ArgFields(a), ',');
    }
  }

  /** The three comma-free fields of an argument's line. */
  function ArgFields(a: Arg): seq<string>
  {
    ["Arg: " + a.name, " Type: " + a.typ, " Direction: " + a.direction + "\n"]
  }

  lemma ArgFieldsJoin(a: Arg)
    ensures GoStrings.Join(ArgFields(a), ',') == ArgString(a)
  {
    var parts := ArgFields(a);
    assert parts[1..][1..] == [" Direction: " + a.direction + "\n"];
    assert GoStrings.Join(parts[1..], ',') == " Type: " + a.typ + [','] + " Direction: " + a.direction + "\n";
    assert ", Type: " == [','] + " Type: ";
    assert ", Direction: " == [','] + " Direction: ";
  }

  lemma ArgFieldsCommaFree(a: Arg)
    requires ',' !in a.name + a.typ + a.direction
    ensures forall k :: 0 <= k < |ArgFields(a)| ==> ',' !in ArgFields(a)[k]
  {
    assert forall c :: c in a.name ==> c in a.name + a.typ + a.direction;
    assert forall c :: c in a.typ ==> c in a.name + a.typ + a.direction;
    assert forall c :: c in a.direction ==> c in a.name + a.typ + a.direction;
    assert ',' !in "Arg: " + a.name;
    assert ',' !in " Type: " + a.typ;
    assert ',' !in " Direction: " + a.direction + "\n";
  }

  /** Method.String with the source's loop over the arguments. */
  method MethodToString(m: Method) returns (s: string)
    ensures s == MethodString(m)
  {
    s := "Node: " + m.name;
    var i := 0;
    while i < |m.args|
      invariant 0 <= i <= |m.args|
      invariant s == "Node: " + m.name + Concat(ArgStrings(m.args)[..i])
    {
      var line := ArgString(m.args[i]);
      ConcatSnoc(ArgStrings(m.args)[..i], line);
      assert ArgStrings(m.args)[..i + 1] == ArgStrings(m.args)[..i] + [line];
      s := s + line;
      i := i + 1;
    }
    assert ArgStrings(m.args)[..i] == ArgStrings(m.args);
    s := s + "\n";
  }

  /** Node.String with the source's two loops and its recursion into sub-nodes. */
  method NodeToString(n: Node) returns (s: string)
    ensures s == NodeString(n)
    decreases n
  {
    var children := ChildStrings(n);
    var ifaces := InterfaceStrings(n.interfaces);
    s := "Node: " + n.name + "\n";
    var i := 0;
    while i < |n.nodes|
      invariant 0 <= i <= |n.nodes|
      invariant s == "Node: " + n.name + "\n" + Concat(children[..i])
    {
      var sub := NodeToString(n.nodes[i]);
      ConcatSnoc(children[..i], sub);
      assert children[..i + 1] == children[..i] + [sub];
      s := s + sub;
      i := i + 1;
    }
    assert children[..i] == children;
    var j := 0;
    while j < |n.interfaces|
      invariant 0 <= j <= |n.interfaces|
      invariant s == "Node: " + n.name + "\n" + Concat(children) + Concat(ifaces[..j])
    {
      var line := InterfaceString(n.interfaces[j]);
      ConcatSnoc(ifaces[..j], line);
      assert ifaces[..j + 1] == ifaces[..j] + [line];
      s := s + line;
      j := j + 1;
    }
    assert ifaces[..j] == ifaces;
    s := s + "\n";
  }

  /** A node with no sub-nodes and no interfaces dumps as its header and a blank line. */
  lemma LeafNodeString(n: Node)
    requires n.nodes == [] && n.interfaces == []
    ensures NodeString(n) == "Node: " + n.name + "\n\n"
  {
    assert Concat(InterfaceStrings(n.interfaces)) == "";
  }

  /** Two interfaces with the same name dump identically, whatever their methods. */
  lemma InterfaceStringIgnoresMethods(i: Interface, j: Interface)
    requires i.name == j.name
    ensures InterfaceString(i) == InterfaceString(j)
  {
  }

  /** The dump of a node contains the dump of each of its sub-nodes, in order. */
  lemma {:induction false} NodeStringContainsChildren(n: Node, k: nat)
    requires k < |n.nodes|
    ensures exists pre, post :: NodeString(n) == pre + NodeString(n.nodes[k]) + post
  {
    var children := ChildStrings(n);
    var head := "Node: " + n.name + "\n";
    var tail := Concat(InterfaceStrings(n.interfaces)) + "\n";
    assert NodeString(n) == head + Concat(children) + tail;
    var pre, post := InfixOfConcat(children, k, head, tail);
    assert children[k] == NodeString(n.nodes[k]);
  }

  /** Each piece of a concatenation, framed by anything, sits between a prefix and a suffix. */
  lemma InfixOfConcat(ss: seq<string>, k: nat, head: string, tail: string) returns (pre: string, post: string)
    requires k < |ss|
    ensures head + Concat(ss) + tail == pre + ss[k] + post
  {
    ConcatSplit(ss, k);
    var a, x, b := Concat(ss[..k]), ss[k], Concat(ss[k + 1..]);
    pre, post := head + a, b + tail;
    assert head + (a + x + b) + tail == pre + x + post;
  }

  lemma {:induction false} ConcatSplit(ss: seq<string>, k: nat)
    requires k < |ss|
    ensures Concat(ss) == Concat(ss[..k]) + ss[k] + Concat(ss[k + 1..])
  {
    if k > 0 {
      ConcatSplit(ss[1..], k - 1);
      assert ss[1..][..k - 1] == ss[1..k];
      assert ss[1..][k - 1] == ss[k];
      assert ss[1..][k..] == ss[k + 1..];
      assert ss[..k] == [ss[0]] + ss[1..k];
      assert Concat(ss[..k]) == ss[0] + Concat(ss[1..k]) by {
        assert ss[..k][1..] == ss[1..k];
      }
    } else {
      assert ss[..0] == [];
      assert ss[1..] == ss[k + 1..];
    }
  }

  // ---------------------------------------------------------------------
  // Operations: the bus transport

  /** One argument passed to a remote method. */
  datatype CallArg = StringArg(str: string) | DictArg(dict: map<string, Variant>)

  /** One request made of the transport, with what it answered. */
  datatype Call =
    | Introspected(dest: string, path: Path, node: Result<Node>)
    | PropertyFetched(dest: string, path: Path, propName: string, value: Result<Variant>)
    | ManagedObjectsFetched(dest: string, path: Path, objects: Result<map<Path, ObjectMap>>)
    | FunctionCalled(dest: string, path: Path, funcName: string, err: Outcome)
    | FunctionCalledWithArgs(dest: string, path: Path, funcName: string, args: seq<CallArg>, err: Outcome)
    | SignalChannelRegistered
    | Watched(path: Path, iface: string, member: string, err: Outcome)
    | UnWatched(path: Path, iface: string, member: string, err: Outcome)

  /**
    The Operations interface. Each remote request answers arbitrarily
    (success or any error) and is appended, with its answer, to `log`.
   */
  class Operations {
    ghost var log: seq<Call>

    constructor ()
      ensures log == []
    {
      log := [];
    }

    method IntrospectObject(dest: string, objPath: Path) returns (r: Result<Node>)
      modifies this
      ensures log == old(log) + [Introspected(dest, objPath, r)]
    {
      r :| true;
      log := log + [Introspected(dest, objPath, r)];
    }

    method GetObjectProperty(dest: string, objPath: Path, propName: string) returns (r: Result<Variant>)
      modifies this
      ensures log == old(log) + [PropertyFetched(dest, objPath, propName, r)]
    {
      r :| true;
      log := log + [PropertyFetched(dest, objPath, propName, r)];
    }

    method GetManagedObjects(dest: string, objPath: Path) returns (r: Result<map<Path, ObjectMap>>)
      modifies this
      ensures log == old(log) + [ManagedObjectsFetched(dest, objPath, r)]
    {
      r :| true;
      log := log + [ManagedObjectsFetched(dest, objPath, r)];
    }

    method CallFunction(dest: string, objPath: Path, funcName: string) returns (err: Outcome)
      modifies this
      ensures log == old(log) + [FunctionCalled(dest, objPath, funcName, err)]
    {
      err :| true;
      log := log + [FunctionCalled(dest, objPath, funcName, err)];
    }

    /**
      The reply can only be stored into storage the caller already owns:
      `retLen` is the length of the caller's byte buffer, and `ret` is what
      the buffer holds afterwards.
     */
    method CallFunctionWithArgs(dest: string, objPath: Path, funcName: string, args: seq<CallArg>, retLen: nat)
      returns (err: Outcome, ret: seq<bv8>)
      modifies this
      ensures |ret| == retLen
      ensures log == old(log) + [FunctionCalledWithArgs(dest, objPath, funcName, args, err)]
    {
      err :| true;
      var zeros: seq<bv8> := seq(retLen, _ => 0);
      assert |zeros| == retLen;
      ret :| |ret| == retLen;
      log := log + [FunctionCalledWithArgs(dest, objPath, funcName, args, err)];
    }

    method RegisterSignalChannel()
      modifies this
      ensures log == old(log) + [SignalChannelRegistered]
    {
      log := log + [SignalChannelRegistered];
    }

    method Watch(objPath: Path, iface: string, member: string) returns (err: Outcome)
      modifies this
      ensures log == old(log) + [Watched(objPath, iface, member, err)]
    {
      err :| true;
      log := log + [Watched(objPath, iface, member, err)];
    }

    method UnWatch(objPath: Path, iface: string, member: string) returns (err: Outcome)
      modifies this
      ensures log == old(log) + [UnWatched(objPath, iface, member, err)]
    {
      err :| true;
      log := log + [UnWatched(objPath, iface, member, err)];
    }
  }
}
