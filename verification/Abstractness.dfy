/** The check that a class leaves no abstract method open, along a parent chain that may go
    through several modules. */
module Abstractness {
  type Name = string

  /** A class of the chain: for each of its methods, whether it is abstract. */
  datatype Layer = Layer(name: Name, methods: map<Name, bool>)

  /** Nearest class first. */
  type Chain = seq<Layer>

  predicate AbstractAt(l: Layer, m: Name) { m in l.methods && l.methods[m] }

  predicate ConcreteAt(l: Layer, m: Name) { m in l.methods && !l.methods[m] }

  predicate Abstract(c: Chain, m: Name) { exists i :: 0 <= i < |c| && AbstractAt(c[i], m) }

  predicate Concrete(c: Chain, m: Name) { exists i :: 0 <= i < |c| && ConcreteAt(c[i], m) }

  /** The nearest class that declares m abstract. */
  function Owner(c: Chain, m: Name): (o: Name)
    requires Abstract(c, m)
    decreases |c|
  {
    if AbstractAt(c[0], m) then c[0].name else assert Abstract(c[1..], m) by { Later(c, m); } Owner(c[1..], m)
  }

  lemma Later(c: Chain, m: Name)
    requires Abstract(c, m) && !AbstractAt(c[0], m)
    ensures |c| > 0 && Abstract(c[1..], m)
  {
    var i :| 0 <= i < |c| && AbstractAt(c[i], m);
    assert c[1..][i - 1] == c[i];
  }

  /** The declarative form: m is open if it is abstract somewhere and concrete nowhere. */
  predicate Open(c: Chain, m: Name) { Abstract(c, m) && !Concrete(c, m) }

  /** A report names every open method with its nearest declarer, and nothing else. */
  ghost predicate Reports(r: map<Name, Name>, c: Chain) {
    && (forall m :: m in r <==> Open(c, m))
    && (forall m :: m in r ==> r[m] == Owner(c, m))
  }

  // ----- one module

  ghost predicate Covers(overridden: set<Name>, c: Chain) { forall m :: m in overridden <==> Concrete(c, m) }

  /** One class's methods, in whatever order the map gives them. */
  method WalkLayer(l: Layer, overridden0: set<Name>, decl0: map<Name, Name>)
    returns (overridden: set<Name>, decl: map<Name, Name>)
    ensures forall m :: m in overridden <==> m in overridden0 || ConcreteAt(l, m)
    ensures forall m :: m in decl <==> !ConcreteAt(l, m) && (m in decl0 || (AbstractAt(l, m) && m !in overridden0))
    ensures forall m :: m in decl ==> decl[m] == if m in decl0 then decl0[m] else l.name
  {
    overridden, decl := overridden0, decl0;
    var left := l.methods.Keys;
    while left != {}
      invariant left <= l.methods.Keys
      invariant forall m :: m in overridden <==> m in overridden0 || (m !in left && ConcreteAt(l, m))
      invariant forall m :: m in decl <==>
                  !(m !in left && ConcreteAt(l, m))
                      && (m in decl0 || (m !in left && AbstractAt(l, m) && m !in overridden0))
      invariant forall m :: m in decl ==> decl[m] == if m in decl0 then decl0[m] else l.name
      decreases |left|
    {
      var m :| m in left;
      left := left - {m};
      if l.methods[m] {
        if m !in overridden && m !in decl { decl := decl[m := l.name]; }
      } else {
        overridden := overridden + {m};
        decl := decl - {m};
      }
    }
  }

  /** A chain within one module: the walk reports exactly the open methods. */
  method WalkChain(c: Chain) returns (overridden: set<Name>, decl: map<Name, Name>)
    ensures Covers(overridden, c) && Reports(decl, c)
  {
    overridden, decl := {}, map[];
    var i := 0;
    while i < |c|
      invariant 0 <= i <= |c|
      invariant Covers(overridden, c[..i]) && Reports(decl, c[..i])
    {
      ghost var before := c[..i];
      ghost var overridden0, decl0 := overridden, decl;
      overridden, decl := WalkLayer(c[i], overridden, decl);
      assert c[..i + 1] == before + [c[i]];
      Extend(before, c[i], overridden0, decl0, overridden, decl);
      i := i + 1;
    }
    assert c[..i] == c;
  }

  lemma Snoc(c: Chain, l: Layer, m: Name)
    ensures Abstract(c + [l], m) <==> Abstract(c, m) || AbstractAt(l, m)
    ensures Concrete(c + [l], m) <==> Concrete(c, m) || ConcreteAt(l, m)
  {
    var d := c + [l];
    assert d[|c|] == l;
    if i :| 0 <= i < |c| && AbstractAt(c[i], m) { assert d[i] == c[i]; }
    if i :| 0 <= i < |c| && ConcreteAt(c[i], m) { assert d[i] == c[i]; }
  }

  lemma {:induction false} OwnerSnoc(c: Chain, l: Layer, m: Name)
    requires Abstract(c + [l], m)
    ensures Owner(c + [l], m) == if Abstract(c, m) then Owner(c, m) else l.name
    decreases |c|
  {
    var d := c + [l];
    if c == [] {
      assert d[0] == l;
    } else if AbstractAt(c[0], m) {
      assert d[0] == c[0];
    } else {
      Later(d, m);
      assert d[1..] == c[1..] + [l];
      OwnerSnoc(c[1..], l, m);
      if Abstract(c, m) { Later(c, m); }
      if Abstract(c[1..], m) { var i :| 0 <= i < |c| - 1 && AbstractAt(c[1..][i], m); assert AbstractAt(c[i + 1], m); }
    }
  }

  lemma Extend(c: Chain, l: Layer, overridden0: set<Name>, decl0: map<Name, Name>, overridden: set<Name>,
          decl: map<Name, Name>)
    requires Covers(overridden0, c) && Reports(decl0, c)
    requires forall m :: m in overridden <==> m in overridden0 || ConcreteAt(l, m)
    requires forall m :: m in decl <==> !ConcreteAt(l, m) && (m in decl0 || (AbstractAt(l, m) && m !in overridden0))
    requires forall m :: m in decl ==> decl[m] == if m in decl0 then decl0[m] else l.name
    ensures Covers(overridden, c + [l]) && Reports(decl, c + [l])
  {
    forall m ensures m in overridden <==> Concrete(c + [l], m) { Snoc(c, l, m); }
    forall m ensures m in decl <==> Open(c + [l], m) { Snoc(c, l, m); }
    forall m | m in decl ensures decl[m] == Owner(c + [l], m) {
      Snoc(c, l, m);
      OwnerSnoc(c, l, m);
    }
  }

  // ----- across modules

  /** The chain cut where it goes from one module into another. */
  function Flat(parts: seq<Chain>): Chain {
    if parts == [] then [] else parts[0] + Flat(parts[1..])
  }

  /** What is reported: the walk of the first module's part, and what the other modules report
      unless it is concrete there. */
  method Unimplemented(parts: seq<Chain>) returns (decl: map<Name, Name>)
    ensures forall m :: m in decl <==> Shown(parts, m)
    ensures forall m :: m in decl ==> Abstract(Flat(parts), m) && decl[m] == Owner(Flat(parts), m)
    decreases |parts|
  {
    if |parts| == 0 { return map[]; }
    var overridden;
    overridden, decl := WalkChain(parts[0]);
    var rest := Unimplemented(parts[1..]);
    ghost var mine := decl;
    var left := rest.Keys;
    while left != {}
      invariant left <= rest.Keys
      invariant forall m :: m in decl <==> m in mine || (m in rest && m !in left && m !in overridden)
      invariant forall m :: m in decl ==> decl[m] == if m in mine then mine[m] else rest[m]
      decreases |left|
    {
      var m :| m in left;
      left := left - {m};
      if m !in overridden && m !in decl { decl := decl[m := rest[m]]; }
    }
    forall m ensures m in decl <==> Shown(parts, m) { ShownFirst(parts, m); }
    forall m | m in decl ensures Abstract(Flat(parts), m) && decl[m] == Owner(Flat(parts), m) {
      Append(parts[0], Flat(parts[1..]), m);
      if m !in mine { assert !Abstract(parts[0], m); }
      OwnerAppend(parts[0], Flat(parts[1..]), m);
    }
  }

  /** m is abstract in part k, and concrete neither there nor nearer. */
  predicate OpenIn(parts: seq<Chain>, m: Name, k: int) {
    0 <= k < |parts| && Abstract(parts[k], m) && forall j :: 0 <= j <= k ==> !Concrete(parts[j], m)
  }

  predicate Shown(parts: seq<Chain>, m: Name) { exists k :: 0 <= k < |parts| && OpenIn(parts, m, k) }

  lemma ShownFirst(parts: seq<Chain>, m: Name)
    requires |parts| > 0
    ensures Shown(parts, m) <==> !Concrete(parts[0], m) && (Abstract(parts[0], m) || Shown(parts[1..], m))
  {
    var rest := parts[1..];
    if Shown(parts, m) {
      var k :| 0 <= k < |parts| && OpenIn(parts, m, k);
      if k > 0 {
        assert forall j :: 0 <= j < |rest| ==> rest[j] == parts[j + 1];
        assert OpenIn(rest, m, k - 1);
      }
    }
    if !Concrete(parts[0], m) && Abstract(parts[0], m) { assert OpenIn(parts, m, 0); }
    if !Concrete(parts[0], m) && Shown(rest, m) {
      var k :| 0 <= k < |rest| && OpenIn(rest, m, k);
      forall j | 0 <= j <= k + 1 ensures !Concrete(parts[j], m) { if j > 0 { assert parts[j] == rest[j - 1]; } }
      assert OpenIn(parts, m, k + 1);
    }
  }

  lemma Append(c: Chain, d: Chain, m: Name)
    ensures Abstract(c + d, m) <==> Abstract(c, m) || Abstract(d, m)
    ensures Concrete(c + d, m) <==> Concrete(c, m) || Concrete(d, m)
  {
    var e := c + d;
    assert forall i :: 0 <= i < |c| ==> e[i] == c[i];
    assert forall i :: 0 <= i < |d| ==> e[|c| + i] == d[i];
    if i :| 0 <= i < |d| && AbstractAt(d[i], m) { assert AbstractAt(e[|c| + i], m); }
    if i :| 0 <= i < |d| && ConcreteAt(d[i], m) { assert ConcreteAt(e[|c| + i], m); }
    if i :| 0 <= i < |e| && AbstractAt(e[i], m) && i >= |c| { assert e[i] == d[i - |c|]; }
    if i :| 0 <= i < |e| && ConcreteAt(e[i], m) && i >= |c| { assert e[i] == d[i - |c|]; }
  }

  lemma {:induction false} OwnerAppend(c: Chain, d: Chain, m: Name)
    requires Abstract(c + d, m)
    ensures Abstract(c, m) || Abstract(d, m)
    ensures Owner(c + d, m) == if Abstract(c, m) then Owner(c, m) else Owner(d, m)
    decreases |c|
  {
    Append(c, d, m);
    var e := c + d;
    if c == [] {
      assert e == d;
    } else if AbstractAt(c[0], m) {
      assert e[0] == c[0];
    } else {
      Later(e, m);
      assert e[1..] == c[1..] + d;
      OwnerAppend(c[1..], d, m);
      if Abstract(c, m) { Later(c, m); }
      if Abstract(c[1..], m) { var i :| 0 <= i < |c| - 1 && AbstractAt(c[1..][i], m); assert AbstractAt(c[i + 1], m); }
    }
  }

  lemma {:induction false} FlatHas(parts: seq<Chain>, m: Name)
    ensures Abstract(Flat(parts), m) <==> exists k :: 0 <= k < |parts| && Abstract(parts[k], m)
    ensures Concrete(Flat(parts), m) <==> exists k :: 0 <= k < |parts| && Concrete(parts[k], m)
    decreases |parts|
  {
    if parts != [] {
      var rest := parts[1..];
      Append(parts[0], Flat(rest), m);
      FlatHas(rest, m);
      assert forall k :: 0 <= k < |rest| ==> rest[k] == parts[k + 1];
      if k :| 0 <= k < |rest| && Abstract(rest[k], m) { assert Abstract(parts[k + 1], m); }
      if k :| 0 <= k < |rest| && Concrete(rest[k], m) { assert Concrete(parts[k + 1], m); }
      if k :| 0 < k < |parts| && Abstract(parts[k], m) { assert Abstract(rest[k - 1], m); }
      if k :| 0 < k < |parts| && Concrete(parts[k], m) { assert Concrete(rest[k - 1], m); }
    }
  }

  /** A module abstracts m again, nothing nearer implements it, and a module farther up does. */
  predicate Reabstracted(parts: seq<Chain>, m: Name) {
    exists k, j :: 0 <= k < j < |parts| && OpenIn(parts, m, k) && Concrete(parts[j], m)
  }

  lemma ShownOrOpen(parts: seq<Chain>, m: Name)
    ensures Shown(parts, m) <==> Open(Flat(parts), m) || Reabstracted(parts, m)
    ensures Reabstracted(parts, m) ==> !Open(Flat(parts), m)
  {
    FlatHas(parts, m);
    if Shown(parts, m) {
      var k :| 0 <= k < |parts| && OpenIn(parts, m, k);
      if Concrete(Flat(parts), m) { var j :| 0 <= j < |parts| && Concrete(parts[j], m); assert Reabstracted(parts, m); }
    }
    if Open(Flat(parts), m) {
      var k :| 0 <= k < |parts| && Abstract(parts[k], m);
      assert OpenIn(parts, m, k);
    }
  }

  /** The main result on abstract methods: where the module boundaries are makes no difference,
      the report being that of the uncut chain, if and only if no method is abstracted again
      over an implementation in a module farther up. */
  lemma BoundaryFree(parts: seq<Chain>, decl: map<Name, Name>)
    requires forall m :: m in decl <==> Shown(parts, m)
    requires forall m :: m in decl ==> Abstract(Flat(parts), m) && decl[m] == Owner(Flat(parts), m)
    ensures Reports(decl, Flat(parts)) <==> forall m :: !Reabstracted(parts, m)
  {
    forall m ensures Reabstracted(parts, m) <==> Shown(parts, m) && !Open(Flat(parts), m) { ShownOrOpen(parts, m); }
    forall m ensures Open(Flat(parts), m) ==> Shown(parts, m) { ShownOrOpen(parts, m); }
    if Reports(decl, Flat(parts)) {
      forall m ensures !Reabstracted(parts, m) { assert m in decl <==> Open(Flat(parts), m); }
    }
  }

  /** The failing input: b abstracts m again over a's implementation. In one module the class
      may be instantiated; with a in another module it may not. */
  lemma CutMatters()
    ensures
      var b, a := Layer("b", map["m" := true]), Layer("a", map["m" := false]);
      Shown([[b], [a]], "m") && !Shown([[b, a]], "m") && Flat([[b], [a]]) == Flat([[b, a]])
  {
    var b, a := Layer("b", map["m" := true]), Layer("a", map["m" := false]);
    assert AbstractAt(b, "m") && ConcreteAt(a, "m");
    assert Abstract([b], "m") by { assert [b][0] == b; }
    assert Concrete([b, a], "m") by { assert [b, a][1] == a; }
    assert OpenIn([[b], [a]], "m", 0);
    assert Flat([[b], [a]]) == [b, a] by {
      assert [[b], [a]][1..] == [[a]] && [[a]][1..] == [];
      assert Flat([[a]]) == [a];
    }
    assert Flat([[b, a]]) == [b, a] by { assert [[b, a]][1..] == []; }
  }
}
