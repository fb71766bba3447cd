/** Devirtualised method calls: when the compiler may replace the lookup of a method by the
    method it finds in the class table. */
module Dispatch {
  import Syntax

  type Option<+T> = Syntax.Option<T>

  type Module = string

  /** A class's parent: none, a class of the same chunk, or an exported class of another one. */
  datatype Parent = Nobody | Local(index: nat) | Foreign(owner: Module, name: string)

  /** Names are in lower case. A method name maps to its overloads. `plain`: no decorators and
      no type parameters; `decorated`: methods with decorators. */
  datatype Class = Class(
    name: string, parent: Parent, methods: map<string, seq<nat>>, exported: bool, plain: bool, decorated: set<string>)

  type Table = seq<Class>

  /** A function of the chunk, as far as a bound call asks; `slots` counts its receiver too. */
  datatype Function = Function(async: bool, generator: bool, variadic: bool, decorated: bool, slots: nat)

  // ----- lookup at run time

  datatype ClassId = ClassId(home: Module, index: nat)

  type World = map<Module, Table>

  predicate Known(w: World, r: ClassId) { r.home in w && r.index < |w[r.home]| }

  function At(w: World, r: ClassId): Class
    requires Known(w, r)
  {
    w[r.home][r.index]
  }

  /** The first class of that name. */
  function Named(t: Table, name: string, from: nat): (r: Option<nat>)
    requires from <= |t|
    ensures r.Some? ==> r.value < |t| && t[r.value].name == name
    ensures r.None? ==> forall i :: from <= i < |t| ==> t[i].name != name
    decreases |t| - from
  {
    if from == |t| then Option.None else if t[from].name == name then Option.Some(from) else Named(t, name, from + 1)
  }

  /** The class a class extends; of another module only an exported one. */
  function ParentOf(w: World, r: ClassId): (p: Option<ClassId>)
    requires Known(w, r)
    ensures p.Some? ==> Known(w, p.value)
  {
    match At(w, r).parent
    case Nobody => Option.None
    case Local(i) => if i < |w[r.home]| then Option.Some(ClassId(r.home, i)) else Option.None
    case Foreign(m, name) =>
      if m !in w then Option.None else
        match Named(w[m], name, 0)
        case None => Option.None
        case Some(i) => if w[m][i].exported then Option.Some(ClassId(m, i)) else Option.None
  }

  /** Inheritance is well-founded: parents have lower ranks. */
  ghost predicate Ranked(w: World, rank: ClassId -> nat) {
    forall r :: Known(w, r) ==> Falls(w, rank, r)
  }

  ghost predicate Falls(w: World, rank: ClassId -> nat, r: ClassId)
    requires Known(w, r)
  {
    var p := ParentOf(w, r);
    p.Some? ==> rank(p.value) < rank(r)
  }

  /** Dynamic dispatch: the overloads in the nearest class of the parent chain. */
  ghost function Lookup(w: World, rank: ClassId -> nat, r: ClassId, m: string): Option<(Module, seq<nat>)>
    requires Ranked(w, rank) && Known(w, r)
    decreases rank(r)
  {
    assert Falls(w, rank, r);
    if m in At(w, r).methods then Option.Some((r.home, At(w, r).methods[m]))
    else if ParentOf(w, r).None? then Option.None
    else Lookup(w, rank, ParentOf(w, r).value, m)
  }

  ghost predicate Inherits(w: World, rank: ClassId -> nat, r: ClassId, c: ClassId)
    requires Ranked(w, rank) && Known(w, r)
    decreases rank(r)
  {
    assert Falls(w, rank, r);
    r == c || (ParentOf(w, r).Some? && Inherits(w, rank, ParentOf(w, r).value, c))
  }

  // ----- what the compiler looks at

  /** Class i has class c above it, at most n levels up, by parent indices alone. */
  predicate Under(t: Table, i: nat, c: nat, n: nat)
    requires i < |t|
    decreases n
  {
    n > 0 && t[i].parent.Local? && t[i].parent.index < |t|
        && (t[i].parent.index == c || Under(t, t[i].parent.index, c, n - 1))
  }

  ghost predicate Below(t: Table, i: nat, c: nat)
    requires i < |t|
  {
    exists n: nat :: Under(t, i, c, n)
  }

  /** Parent indices do not go round. */
  ghost predicate Layered(t: Table, level: nat -> nat) {
    forall i :: 0 <= i < |t| ==> Lower(t, level, i)
  }

  ghost predicate Lower(t: Table, level: nat -> nat, i: nat)
    requires i < |t|
  {
    t[i].parent.Local? && t[i].parent.index < |t| ==> level(t[i].parent.index) < level(i)
  }

  /** A class while its bodies are compiled: its parent is known, its methods are those compiled
      before. */
  ghost predicate Begun(seen: Class, c: Class) {
    && seen.name == c.name && seen.parent == c.parent && seen.exported == c.exported && seen.plain == c.plain
    && (forall m :: m in seen.methods ==> m in c.methods && seen.methods[m] <= c.methods[m])
    && seen.decorated <= c.decorated
  }

  /** The table as it is while the class at index `now` is compiled: that class is begun, and later
      ones are stubs. */
  function SoFar(t: Table, now: nat, seen: Class): (s: Table)
    ensures |s| == |t|
  {
    seq(|t|, i requires 0 <= i < |t| =>
      if i < now then t[i] else if i == now then seen else Class(t[i].name, Nobody, map[], t[i].exported, true, {}))
  }

  /** Some class under c has a method m, or may get subclasses elsewhere. */
  ghost predicate Overridden(t: Table, c: nat, m: string) {
    exists i :: 0 <= i < |t| && i != c && Below(t, i, c) && (m in t[i].methods || t[i].exported)
  }

  method ClassHasSubclassOverriding(t: Table, c: nat, m: string, ghost level: nat -> nat) returns (r: bool)
    requires Layered(t, level)
    ensures r <==> Overridden(t, c, m)
  {
    var i := 0;
    while i < |t|
      invariant 0 <= i <= |t|
      invariant forall j :: 0 <= j < i && j != c && Below(t, j, c) ==> m !in t[j].methods && !t[j].exported
    {
      if i != c {
        var under := HasAncestor(t, i, c, level);
        if under && (m in t[i].methods || t[i].exported) { return true; }
      }
      i := i + 1;
    }
    r := false;
  }

  /** From i it is `steps` levels to a, without meeting c. */
  ghost predicate Climbed(t: Table, i: nat, a: nat, c: nat, steps: nat) {
    i < |t| && a < |t| && forall n: nat :: Under(t, i, c, steps + n) == Under(t, a, c, n)
  }

  /** The loop up the parent chain. */
  method HasAncestor(t: Table, i: nat, c: nat, ghost level: nat -> nat) returns (r: bool)
    requires i < |t| && Layered(t, level)
    ensures r <==> Below(t, i, c)
  {
    hide Under, Climbed, Below;
    var ancestor: nat := i;
    ghost var steps: nat := 0;
    Start(t, i, c);
    while t[ancestor].parent.Local? && t[ancestor].parent.index < |t|
      invariant 0 <= ancestor < |t| && Climbed(t, i, ancestor, c, steps)
      decreases level(ancestor)
    {
      var up := t[ancestor].parent.index;
      if up == c {
        Met(t, i, ancestor, c, steps);
        return true;
      }
      assert Lower(t, level, ancestor);
      Climb(t, i, ancestor, c, steps);
      ancestor, steps := up, steps + 1;
    }
    Topmost(t, i, ancestor, c, steps);
    r := false;
  }

  lemma Start(t: Table, i: nat, c: nat)
    requires i < |t|
    ensures Climbed(t, i, i, c, 0)
  {}

  lemma Climb(t: Table, i: nat, a: nat, c: nat, steps: nat)
    requires Climbed(t, i, a, c, steps) && t[a].parent.Local? && t[a].parent.index < |t| && t[a].parent.index != c
    ensures Climbed(t, i, t[a].parent.index, c, steps + 1)
  {
    var up := t[a].parent.index;
    forall n: nat ensures Under(t, i, c, steps + 1 + n) == Under(t, up, c, n) {
      assert Under(t, i, c, steps + (1 + n)) == Under(t, a, c, 1 + n);
    }
  }

  lemma Met(t: Table, i: nat, a: nat, c: nat, steps: nat)
    requires Climbed(t, i, a, c, steps) && t[a].parent == Local(c) && c < |t|
    ensures Below(t, i, c)
  {
    assert Under(t, i, c, steps + 1) == Under(t, a, c, 1);
  }

  lemma Topmost(t: Table, i: nat, a: nat, c: nat, steps: nat)
    requires Climbed(t, i, a, c, steps) && !(t[a].parent.Local? && t[a].parent.index < |t|)
    ensures !Below(t, i, c)
  {
    assert Under(t, i, c, steps + 0) == Under(t, a, c, 0);
    forall n: nat ensures !Under(t, i, c, n) {
      if n >= steps {
        assert Under(t, i, c, steps + (n - steps)) == Under(t, a, c, n - steps);
      } else if Under(t, i, c, n) {
        UnderMore(t, i, c, n, steps);
      }
    }
  }

  lemma {:induction false} UnderMore(t: Table, i: nat, c: nat, n: nat, k: nat)
    requires i < |t| && n <= k && Under(t, i, c, n)
    ensures Under(t, i, c, k)
    decreases n
  {
    if t[i].parent.index != c { UnderMore(t, t[i].parent.index, c, n - 1, k - 1); }
  }

  /** What the class table must say for a call of method m on class c to be bound. */
  ghost predicate Guard(t: Table, c: nat, m: string) {
    && c < |t| && !t[c].exported && t[c].plain
    && m in t[c].methods && |t[c].methods[m]| == 1 && m !in t[c].decorated
    && !Overridden(t, c, m)
  }

  /** A call is bound to a function of the chunk that runs at once and takes just the receiver and
      that many arguments. */
  method StaticallyResolve(t: Table, fs: seq<Function>, c: nat, m: string, args: nat, ghost level: nat -> nat)
    returns (f: Option<nat>)
    requires c < |t| && Layered(t, level)
    ensures
      f.Some? <==>
      && !t[c].exported && t[c].plain && m !in t[c].decorated && !Overridden(t, c, m)
      && m in t[c].methods && |t[c].methods[m]| == 1
      && t[c].methods[m][0] < |fs|
      && var g := fs[t[c].methods[m][0]];
      !g.async && !g.generator && !g.variadic && !g.decorated && g.slots - args == 1
    ensures f.Some? ==> t[c].methods[m] == [f.value]
  {
    f := Option.None;
    if t[c].exported || !t[c].plain { return; }
    if m !in t[c].methods || |t[c].methods[m]| != 1 { return; }
    var overriding := ClassHasSubclassOverriding(t, c, m, level);
    if overriding { return; }
    var index := t[c].methods[m][0];
    if index >= |fs| { return; }
    if fs[index].async || fs[index].generator || fs[index].decorated || fs[index].variadic { return; }
    if args + 1 != fs[index].slots { return; }
    if m in t[c].decorated { return; }
    f := Option.Some(index);
  }

  // ----- when it is right

  /** A program that contains the chunk. */
  ghost predicate Program(w: World, rank: ClassId -> nat, home: Module, t: Table) {
    home in w && w[home] == t && Ranked(w, rank)
  }

  /** In every program with the chunk, whatever other modules define, a call of m on any
      receiver that is a c runs function f of the chunk and nothing else. */
  ghost predicate Bound(t: Table, home: Module, c: nat, m: string, f: nat) {
    forall w: World, rank: ClassId -> nat, r: ClassId ::
      Program(w, rank, home, t) && Known(w, r) && Inherits(w, rank, r, ClassId(home, c)) ==>
        Lookup(w, rank, r, m) == Option.Some((home, [f]))
  }

  /** No two classes share a function, and no two a name. */
  ghost predicate Separate(t: Table) {
    && (forall i, j, m :: 0 <= i < |t| && 0 <= j < |t| && i != j && m in t[i].methods && m in t[j].methods ==>
          t[i].methods[m] != t[j].methods[m])
    && (forall i, j :: 0 <= i < j < |t| ==> t[i].name != t[j].name)
  }

  /** A receiver that is a c, when nothing exported is one, belongs to the chunk. */
  lemma {:induction false} StaysHome(w: World, rank: ClassId -> nat, home: Module, t: Table, r: ClassId, c: nat,
          m: string)
    requires Program(w, rank, home, t) && Known(w, r) && Inherits(w, rank, r, ClassId(home, c))
    requires c < |t| && !t[c].exported && !Overridden(t, c, m)
    ensures r.home == home && (r.index == c || Below(t, r.index, c))
    decreases rank(r)
  {
    assert Falls(w, rank, r);
    if r != ClassId(home, c) {
      var p := ParentOf(w, r).value;
      StaysHome(w, rank, home, t, p, c, m);
      assert !t[p.index].exported;
      if p.index == c {
        assert Under(t, r.index, c, 1);
      } else {
        var n: nat :| Under(t, p.index, c, n);
        assert Under(t, r.index, c, n + 1);
      }
    }
  }

  /** Its lookup goes up to c. */
  lemma {:induction false} Reaches(w: World, rank: ClassId -> nat, home: Module, t: Table, r: ClassId, c: nat,
          m: string)
    requires Program(w, rank, home, t) && Known(w, r) && Inherits(w, rank, r, ClassId(home, c))
    requires c < |t| && !t[c].exported && !Overridden(t, c, m) && m in t[c].methods
    ensures Lookup(w, rank, r, m) == Option.Some((home, t[c].methods[m]))
    decreases rank(r)
  {
    assert Falls(w, rank, r);
    StaysHome(w, rank, home, t, r, c, m);
    if r != ClassId(home, c) {
      assert r.index != c && m !in t[r.index].methods;
      Reaches(w, rank, home, t, ParentOf(w, r).value, c, m);
    }
  }

  // ----- the guard is not only enough

  /** A module that is not `home`. */
  function Elsewhere(home: Module): Module { home + "'" }

  /** The chunk, and another module with one class that extends the chunk's class d and has a
      method m of its own. */
  function Extended(home: Module, t: Table, d: nat, m: string): World
    requires d < |t|
  {
    map[home := t, Elsewhere(home) := [Class("sub", Foreign(home, t[d].name), map[m := [0]], false, true, {})]]
  }

  function Rank(home: Module, level: nat -> nat, d: nat, r: ClassId): nat {
    if r.home == home then level(r.index) else level(d) + 1
  }

  function Ranks(home: Module, level: nat -> nat, d: nat): ClassId -> nat { r => Rank(home, level, d, r) }

  /** Parents in other modules do not come back to the chunk itself. */
  ghost predicate Imports(home: Module, t: Table) {
    forall i :: 0 <= i < |t| && t[i].parent.Foreign? ==> t[i].parent.owner != home
  }

  ghost predicate Chunk(home: Module, t: Table, level: nat -> nat) {
    Layered(t, level) && Separate(t) && Imports(home, t)
  }

  lemma {:induction false} NamedIs(t: Table, d: nat, from: nat)
    requires Separate(t) && from <= d < |t|
    ensures Named(t, t[d].name, from) == Option.Some(d)
    decreases d - from
  {
    if from < d { NamedIs(t, d, from + 1); }
  }

  lemma ExtendedProgram(home: Module, t: Table, level: nat -> nat, d: nat, m: string)
    requires Chunk(home, t, level) && d < |t|
    ensures
      var w, rank := Extended(home, t, d, m), Ranks(home, level, d);
      && Program(w, rank, home, t)
      && (forall i :: 0 <= i < |t| && t[i].parent.Local? && t[i].parent.index < |t| ==>
            ParentOf(w, ClassId(home, i)) == Option.Some(ClassId(home, t[i].parent.index)))
      && (t[d].exported ==> ParentOf(w, ClassId(Elsewhere(home), 0)) == Option.Some(ClassId(home, d)))
  {
    var w, rank := Extended(home, t, d, m), Ranks(home, level, d);
    assert Elsewhere(home) != home by { assert |Elsewhere(home)| == |home| + 1; }
    NamedIs(t, d, 0);
    forall r | Known(w, r) ensures Falls(w, rank, r) {
      if r.home == home {
        assert Lower(t, level, r.index);
      }
    }
  }

  lemma {:induction false} UnderInherits(w: World, rank: ClassId -> nat, home: Module, t: Table, i: nat, c: nat, n: nat)
    requires Program(w, rank, home, t) && i < |t| && Under(t, i, c, n)
    ensures c < |t| && Inherits(w, rank, ClassId(home, i), ClassId(home, c))
    decreases n
  {
    var r := ClassId(home, i);
    assert Falls(w, rank, r);
    assert ParentOf(w, r) == Option.Some(ClassId(home, t[i].parent.index));
    if t[i].parent.index != c { UnderInherits(w, rank, home, t, t[i].parent.index, c, n - 1); }
  }

  /** An exported class that is a c: another module overrides the method. */
  lemma Escapes(home: Module, t: Table, level: nat -> nat, c: nat, d: nat, m: string, f: nat)
    requires Chunk(home, t, level) && c < |t| && d < |t| && (d == c || Below(t, d, c)) && t[d].exported
    ensures !Bound(t, home, c, m, f)
  {
    var w, rank := Extended(home, t, d, m), Ranks(home, level, d);
    ExtendedProgram(home, t, level, d, m);
    if d != c {
      var n: nat :| Under(t, d, c, n);
      UnderInherits(w, rank, home, t, d, c, n);
    }
    var r := ClassId(Elsewhere(home), 0);
    assert Elsewhere(home) != home by { assert |Elsewhere(home)| == |home| + 1; }
    assert Falls(w, rank, r) && Known(w, r) && Inherits(w, rank, r, ClassId(home, c));
    assert Lookup(w, rank, r, m) == Option.Some((Elsewhere(home), [0]));
  }

  /** A class of the chunk that is a c and has the method. */
  lemma Overrides(home: Module, t: Table, level: nat -> nat, c: nat, d: nat, m: string, f: nat)
    requires Chunk(home, t, level) && c < |t| && d < |t| && d != c && Below(t, d, c) && m in t[d].methods
    requires m in t[c].methods && t[c].methods[m] == [f]
    ensures !Bound(t, home, c, m, f)
  {
    var w, rank := Extended(home, t, d, m), Ranks(home, level, d);
    ExtendedProgram(home, t, level, d, m);
    var n: nat :| Under(t, d, c, n);
    UnderInherits(w, rank, home, t, d, c, n);
    var r := ClassId(home, d);
    assert Known(w, r) && Lookup(w, rank, r, m) == Option.Some((home, t[d].methods[m]));
  }

  /** The main result on devirtualised calls: where c's only overload of m is f, every call of m
      on a c runs f, in every program with the chunk, if and only if c is not exported and no
      class under it has an m or is exported. */
  lemma Exact(home: Module, t: Table, level: nat -> nat, c: nat, m: string, f: nat)
    requires Chunk(home, t, level) && c < |t| && m in t[c].methods && t[c].methods[m] == [f]
    ensures Bound(t, home, c, m, f) <==> !t[c].exported && !Overridden(t, c, m)
  {
    if t[c].exported {
      Escapes(home, t, level, c, c, m, f);
    } else if Overridden(t, c, m) {
      var d :| 0 <= d < |t| && d != c && Below(t, d, c) && (m in t[d].methods || t[d].exported);
      if t[d].exported { Escapes(home, t, level, c, d, m, f); } else { Overrides(home, t, level, c, d, m, f); }
    } else {
      forall w: World, rank: ClassId -> nat, r: ClassId
        | Program(w, rank, home, t) && Known(w, r) && Inherits(w, rank, r, ClassId(home, c))
        ensures Lookup(w, rank, r, m) == Option.Some((home, [f]))
      {
        Reaches(w, rank, home, t, r, c, m);
      }
    }
  }

  // ----- the table is not complete when it is asked

  /** A class under c that the table does not show as one yet, or not with all its methods. */
  ghost predicate Unseen(t: Table, now: nat, seen: Class, d: nat, c: nat) {
    d < |t| && Below(t, d, c) && (d == now || !Below(SoFar(t, now, seen), d, c))
  }

  lemma {:induction false} SeenIsUnder(t: Table, now: nat, seen: Class, i: nat, c: nat, n: nat)
    requires now < |t| && Begun(seen, t[now]) && i < |t| && Under(SoFar(t, now, seen), i, c, n)
    ensures Under(t, i, c, n) && i <= now
    decreases n
  {
    if t[i].parent.index != c { SeenIsUnder(t, now, seen, t[i].parent.index, c, n - 1); }
  }

  lemma SeenIsFine(t: Table, now: nat, seen: Class, c: nat, m: string)
    requires now < |t| && Begun(seen, t[now]) && !Overridden(SoFar(t, now, seen), c, m)
    ensures forall d: nat :: d < |t| && d != c && d != now && Below(SoFar(t, now, seen), d, c) ==>
        Below(t, d, c) && m !in t[d].methods && !t[d].exported
  {
    var s := SoFar(t, now, seen);
    forall d: nat | d < |t| && d != c && d != now && Below(s, d, c)
      ensures Below(t, d, c) && m !in t[d].methods && !t[d].exported
    {
      var n: nat :| Under(s, d, c, n);
      SeenIsUnder(t, now, seen, d, c, n);
      assert s[d] == t[d];
    }
  }

  /** An overload that is compiled later is never run by a bound call. */
  lemma Overloaded(home: Module, t: Table, level: nat -> nat, c: nat, m: string, f: nat)
    requires Chunk(home, t, level) && c < |t| && m in t[c].methods && t[c].methods[m] != [f]
    ensures !Bound(t, home, c, m, f)
  {
    var w, rank := Extended(home, t, c, m), Ranks(home, level, c);
    ExtendedProgram(home, t, level, c, m);
    var r := ClassId(home, c);
    assert Known(w, r) && Inherits(w, rank, r, r);
    assert Lookup(w, rank, r, m) == Option.Some((home, t[c].methods[m]));
  }

  /** A call that is bound while its class is begun and later ones are stubs runs the right
      function, in every program, if and only if the class gets no other overload and no class
      under it that was not seen, or not with all its methods, has an m or is exported. */
  lemma Early(home: Module, t: Table, level: nat -> nat, now: nat, seen: Class, c: nat, m: string)
    requires Chunk(home, t, level) && c <= now < |t| && Begun(seen, t[now]) && Guard(SoFar(t, now, seen), c, m)
    ensures m in t[c].methods
    ensures
      var f := SoFar(t, now, seen)[c].methods[m][0];
      Bound(t, home, c, m, f)
      <==> t[c].methods[m] == [f]
           && forall d: nat :: Unseen(t, now, seen, d, c) && d != c ==> m !in t[d].methods && !t[d].exported
  {
    var s := SoFar(t, now, seen);
    var f := s[c].methods[m][0];
    assert m in t[c].methods && !t[c].exported;
    if t[c].methods[m] != [f] {
      Overloaded(home, t, level, c, m, f);
    } else {
      Exact(home, t, level, c, m, f);
      SeenIsFine(t, now, seen, c, m);
    }
  }

  /** The failing input: a call in a class c between a class a and a later subclass of a that
      overrides. */
  lemma BoundTooEarly()
    ensures
      var a, c := Class("a", Nobody, map["m" := [0]], false, true, {}),
          Class("c", Nobody, map["g" := [1]], false, true, {});
      var t := [a, c, Class("b", Local(0), map["m" := [2]], false, true, {})];
      var begun := c.(methods := map[]);
      Begun(begun, c) && Guard(SoFar(t, 1, begun), 0, "m") && !Guard(t, 0, "m") && !Bound(t, "main", 0, "m", 0)
  {
    var a, c := Class("a", Nobody, map["m" := [0]], false, true, {}),
        Class("c", Nobody, map["g" := [1]], false, true, {});
    var t := [a, c, Class("b", Local(0), map["m" := [2]], false, true, {})];
    var begun, level := c.(methods := map[]), (i: nat) => i;
    assert Layered(t, level) by { assert Lower(t, level, 0) && Lower(t, level, 1) && Lower(t, level, 2); }
    assert Under(t, 2, 0, 1);
    assert Overridden(t, 0, "m") by { assert Below(t, 2, 0); }
    Exact("main", t, level, 0, "m", 0);
    var s := SoFar(t, 1, begun);
    assert s[0] == a && s[1] == begun && s[2].parent == Nobody;
    assert forall i, n: nat :: 0 <= i < 3 ==> !Under(s, i, 0, n);
  }

  /** And a call in a method of the class itself, before an overload of m. */
  lemma OverloadTooLate()
    ensures
      var a := Class("a", Nobody, map["m" := [0, 2], "g" := [1]], false, true, {});
      var begun := a.(methods := map["m" := [0]]);
      Begun(begun, a) && Guard(SoFar([a], 0, begun), 0, "m") && !Bound([a], "main", 0, "m", 0)
  {
    var a := Class("a", Nobody, map["m" := [0, 2], "g" := [1]], false, true, {});
    var begun := a.(methods := map["m" := [0]]);
    var t, level := [a], (i: nat) => i;
    assert Layered(t, level) by { assert Lower(t, level, 0); }
    var s := SoFar(t, 0, begun);
    assert s == [begun];
    assert forall i, n: nat :: 0 <= i < 1 ==> !Under(s, i, 0, n);
    Overloaded("main", t, level, 0, "m", 0);
  }
}
