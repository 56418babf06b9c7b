/**
  Go's `path.Clean` and two-argument `path.Join`, stated on the
  slash-separated elements of a path: empty and "." elements vanish, ".."
  removes the element before it (or, at the root, nothing), and the result
  is "/"-rooted again when the input was.
 */
module GoPath {
  import GoStrings

  /** An element that Clean keeps unchanged and never removes. */
  predicate IsPlainElement(e: string)
  {
    e != "" && e != "." && e != ".." && '/' !in e
  }

  /** The effect of one element on the elements kept so far. */
  function Step(kept: seq<string>, e: string, rooted: bool): seq<string>
  {
    if e == "" || e == "." then kept
    else if e == ".." then
      if |kept| > 0 && kept[|kept| - 1] != ".." then kept[..|kept| - 1]
      else if rooted then kept
      else kept + [".."]
    else kept + [e]
  }

  function Resolve(kept: seq<string>, elems: seq<string>, rooted: bool): seq<string>
    decreases elems
  {
    if elems == [] then kept else Resolve(Step(kept, elems[0], rooted), elems[1..], rooted)
  }

  /** path.Clean: the shortest path name lexically equivalent to `p`. */
  function Clean(p: string): string
  {
    if p == "" then "."
    else
      var rooted := p[0] == '/';
      var kept := Resolve([], GoStrings.Split(p, '/'), rooted);
      if rooted then "/" + GoStrings.Join(kept, '/')
      else if kept == [] then "."
      else GoStrings.Join(kept, '/')
  }

  /** path.Join(a, b): empty arguments are skipped and the result is cleaned. */
  function Join(a: string, b: string): string
  {
    if a == "" && b == "" then ""
    else if a == "" then Clean(b)
    else Clean(a + "/" + b)
  }

  /** The rooted path whose elements are `elems`. */
  function Rooted(elems: seq<string>): string
  {
    "/" + GoStrings.Join(elems, '/')
  }

  /** Plain elements are all kept, in order. */
  lemma {:induction false} ResolvePlain(kept: seq<string>, elems: seq<string>, rooted: bool)
    requires forall i :: 0 <= i < |elems| ==> IsPlainElement(elems[i])
    ensures Resolve(kept, elems, rooted) == kept + elems
    decreases elems
  {
    if elems != [] {
      ResolvePlain(kept + [elems[0]], elems[1..], rooted);
      assert kept + [elems[0]] + elems[1..] == kept + elems;
    }
  }

  /** A rooted path of plain elements is already clean. */
  lemma CleanRooted(elems: seq<string>)
    requires forall i :: 0 <= i < |elems| ==> IsPlainElement(elems[i])
    ensures Clean(Rooted(elems)) == Rooted(elems)
  {
    var p := Rooted(elems);
    if elems == [] {
      assert p == "/";
      assert GoStrings.Split(p, '/') == ["", ""] by {
        assert p[1..] == "";
      }
      assert Resolve([], ["", ""], true) == Resolve([], [""], true) == [];
      assert Clean(p) == "/" + GoStrings.Join([], '/');
    } else {
      var parts := [""] + elems;
      assert GoStrings.Join(parts, '/') == p by {
        assert parts[1..] == elems;
      }
      GoStrings.SplitJoin(parts, '/');
      assert p[0] == '/';
      assert parts[0] == "" && parts[1..] == elems;
      assert Resolve([], parts, true) == Resolve([], elems, true);
      ResolvePlain([], elems, true);
      assert [] + elems == elems;
      assert GoStrings.Split(p, '/') == parts;
      assert Clean(p) == "/" + GoStrings.Join(Resolve([], parts, true), '/');
    }
  }

  /**
    Joining a rooted path of plain elements with one more plain element
    appends that element below it.
   */
  lemma JoinBelow(elems: seq<string>, e: string)
    requires forall i :: 0 <= i < |elems| ==> IsPlainElement(elems[i])
    requires IsPlainElement(e)
    ensures Join(Rooted(elems), e) == Rooted(elems + [e])
  {
    var p := Rooted(elems);
    if elems == [] {
      var q := p + "/" + e;
      assert q == "//" + e;
      GoStrings.SplitWhole(e, '/');
      assert GoStrings.Split(q, '/') == ["", "", e] by {
        assert q[1..] == "/" + e;
        assert q[1..][1..] == e;
      }
      var parts := ["", "", e];
      assert Resolve([], parts, true) == Resolve([], ["", e], true) == Resolve([], [e], true);
      assert Resolve([], [e], true) == [e];
      assert q[0] == '/';
      assert Clean(q) == "/" + GoStrings.Join([e], '/');
      assert elems + [e] == [e];
    } else {
      GoStrings.JoinSnoc(elems, e, '/');
      assert p + "/" + e == Rooted(elems + [e]);
      CleanRooted(elems + [e]);
    }
  }
}
