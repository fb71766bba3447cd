/** The import walk of the bundler: which modules a program needs, found by following import
    statements from its entry file through a graph that may have cycles. */
module Imports {
  type Name = string
  type Path = string

  /** Readable files with the names they import, in order; the file each name resolves to; and
      the built-in modules. */
  datatype World = World(files: map<Path, seq<Name>>, resolve: map<Name, Path>, natives: set<Name>)

  /** The entry module's own name stands for its own file and is never resolved. */
  datatype Entry = Entry(name: Name, path: Path)

  function Resolved(w: World, e: Entry, n: Name): Path
    requires n == e.name || n in w.resolve
  {
    if n == e.name then e.path else w.resolve[n]
  }

  // ----- what is to be found

  /** File p imports a name that leads to file q. */
  predicate Link(w: World, e: Entry, p: Path, q: Path) {
    p in w.files && exists n :: n in w.files[p] && Leads(w, e, n, q)
  }

  predicate Leads(w: World, e: Entry, n: Name, q: Path) {
    n != e.name && n in w.resolve && w.resolve[n] == q
  }

  /** A chain of imports from the entry file. */
  predicate Chain(w: World, e: Entry, chain: seq<Path>) {
    |chain| > 0 && chain[0] == e.path && forall i :: 0 <= i < |chain| - 1 ==> Link(w, e, chain[i], chain[i + 1])
  }

  ghost predicate Ends(w: World, e: Entry, chain: seq<Path>, p: Path) {
    Chain(w, e, chain) && chain[|chain| - 1] == p
  }

  ghost predicate Reachable(w: World, e: Entry, p: Path) { exists chain :: Ends(w, e, chain, p) }

  /** Some file that can be reached has an import of this name. */
  ghost predicate Wanted(w: World, e: Entry, n: Name) {
    exists p :: Reachable(w, e, p) && p in w.files && n in w.files[p]
  }

  /** Every file that can be reached is readable, and every import of it is of the entry, of a
      module with a source, or of a built-in one. */
  ghost predicate Sound(w: World, e: Entry) {
    && (forall p :: Reachable(w, e, p) ==> p in w.files)
    && (forall n :: Wanted(w, e, n) ==> n == e.name || n in w.resolve || n in w.natives)
  }

  /** The closure: the entry, and every name with a source that is wanted, each with its file. */
  ghost predicate Closure(w: World, e: Entry, result: map<Name, Path>) {
    && (forall n :: n in result <==> n == e.name || (n in w.resolve && Wanted(w, e, n)))
    && (forall n :: n in result ==> result[n] == Resolved(w, e, n))
  }

  lemma EntryReachable(w: World, e: Entry)
    ensures Reachable(w, e, e.path)
  {
    assert Ends(w, e, [e.path], e.path);
  }

  lemma Onward(w: World, e: Entry, p: Path, n: Name)
    requires Reachable(w, e, p) && p in w.files && n in w.files[p] && n != e.name && n in w.resolve
    ensures Reachable(w, e, w.resolve[n])
  {
    var chain :| Ends(w, e, chain, p);
    var q := w.resolve[n];
    assert Leads(w, e, n, q) && Link(w, e, p, q);
    var longer := chain + [q];
    assert Ends(w, e, longer, q) by {
      forall i | 0 <= i < |longer| - 1 ensures Link(w, e, longer[i], longer[i + 1]) {
        if i < |chain| - 1 { assert longer[i] == chain[i] && longer[i + 1] == chain[i + 1]; }
      }
    }
  }

  /** A set of files that holds the entry and is closed under imports holds every file that
      can be reached. */
  lemma {:induction false} ClosedHolds(w: World, e: Entry, files: set<Path>, chain: seq<Path>)
    requires e.path in files && (forall p, q :: p in files && Link(w, e, p, q) ==> q in files) && Chain(w, e, chain)
    ensures chain[|chain| - 1] in files
    decreases |chain|
  {
    if |chain| > 1 {
      var n := |chain| - 1;
      var shorter := chain[..n];
      assert Chain(w, e, shorter) by {
        forall i | 0 <= i < |shorter| - 1 ensures Link(w, e, shorter[i], shorter[i + 1]) {
          assert Link(w, e, chain[i], chain[i + 1]);
        }
      }
      ClosedHolds(w, e, files, shorter);
      assert Link(w, e, chain[n - 1], chain[n]);
    }
  }

  // ----- the walk

  /** An import that has been dealt with. */
  predicate Handled(w: World, result: map<Name, Path>, n: Name) {
    n in result || (n !in w.resolve && n in w.natives)
  }

  predicate Finished(w: World, result: map<Name, Path>, p: Path) {
    p in w.files && forall n :: n in w.files[p] ==> Handled(w, result, n)
  }

  class Walker {
    const world: World
    const entry: Entry
    var result: map<Name, Path>
    var visited: set<Path>

    constructor (w: World, e: Entry)
      ensures world == w && entry == e && result == map[e.name := e.path] && visited == {}
    {
      world, entry, result, visited := w, e, map[e.name := e.path], {};
    }

    /** Everything found so far belongs. */
    ghost predicate Valid()
      reads this
    {
      && (forall p :: p in visited ==> Reachable(world, entry, p))
      && entry.name in result
      && (forall n :: n in result ==> n == entry.name || (n in world.resolve && Wanted(world, entry, n)))
      && (forall n :: n in result ==> result[n] == Resolved(world, entry, n))
    }

    /** The paths the walk can still come to. */
    ghost function Ahead(): set<Path>
      reads this
    {
      (set n | n in world.resolve :: world.resolve[n]) + {entry.path} - visited
    }

    /** What a part of the walk that succeeds has done: it has finished the files and visited
        the targets of the names that it added, and taken nothing back. */
    twostate predicate Advanced()
      reads this
    {
      && old(visited) <= visited
      && (forall n :: n in old(result) ==> n in result)
      && (forall p :: p in visited && p !in old(visited) ==> Finished(world, result, p))
      && (forall n :: n in result && n !in old(result) ==> result[n] in visited)
    }

    method Walk(path: Path) returns (ok: bool)
      requires Valid() && Reachable(world, entry, path)
      requires path == entry.path || path in set n | n in world.resolve :: world.resolve[n]
      modifies this
      ensures Valid() && old(visited) <= visited
      ensures ok ==> path in visited && Advanced()
      ensures !ok ==> !Sound(world, entry)
      decreases Ahead(), 0
    {
      if path in visited { return true; }
      assert path in Ahead();
      visited := visited + {path};
      if path !in world.files { return false; }
      var imports := world.files[path];
      var i := 0;
      while i < |imports|
        invariant 0 <= i <= |imports| && Valid() && old(visited) + {path} <= visited
        invariant forall n :: n in old(result) ==> n in result
        invariant forall p :: p in visited && p !in old(visited) && p != path ==> Finished(world, result, p)
        invariant forall n :: n in result && n !in old(result) ==> result[n] in visited
        invariant forall j :: 0 <= j < i ==> Handled(world, result, imports[j])
      {
        var canonical := imports[i];
        assert Wanted(world, entry, canonical);
        if canonical !in result {
          if canonical !in world.resolve {
            if canonical !in world.natives { return false; }
          } else {
            Onward(world, entry, path, canonical);
            ok := Visit(canonical);
            if !ok { return false; }
          }
        }
        i := i + 1;
      }
      ok := true;
    }

    /** Enter a module that is new into the result, and walk its file. */
    method Visit(canonical: Name) returns (ok: bool)
      requires Valid() && canonical !in result && canonical in world.resolve && Wanted(world, entry, canonical)
      requires Reachable(world, entry, world.resolve[canonical])
      modifies this
      ensures Valid() && old(visited) <= visited
      ensures ok ==> canonical in result && Advanced()
      ensures !ok ==> !Sound(world, entry)
      decreases Ahead(), 1
    {
      var path := world.resolve[canonical];
      result := result[canonical := path];
      ok := Walk(path);
    }
  }

  /** The main result on imports: the walk ends on every import graph, it succeeds if and only
      if everything that can be reached is there, and then it has found exactly the closure. */
  method WalkImports(w: World, e: Entry) returns (ok: bool, result: map<Name, Path>)
    ensures ok <==> Sound(w, e)
    ensures ok ==> Closure(w, e, result)
  {
    EntryReachable(w, e);
    var walker := new Walker(w, e);
    ok := walker.Walk(e.path);
    result := walker.result;
    if ok { Complete(w, e, walker.visited, result); }
  }

  /** When all that was visited is finished and all targets are visited, nothing is missing. */
  lemma Complete(w: World, e: Entry, visited: set<Path>, result: map<Name, Path>)
    requires e.path in visited && e.name in result
    requires forall p :: p in visited ==> Finished(w, result, p)
    requires forall n :: n in result ==> (n == e.name || (n in w.resolve && Wanted(w, e, n)))
    requires forall n :: n in result ==> result[n] == Resolved(w, e, n)
    requires forall n :: n in result ==> result[n] in visited
    ensures Sound(w, e) && Closure(w, e, result)
  {
    forall p, q | p in visited && Link(w, e, p, q) ensures q in visited {
      var n :| n in w.files[p] && Leads(w, e, n, q);
      assert Handled(w, result, n);
    }
    forall p | Reachable(w, e, p) ensures p in visited {
      var chain :| Ends(w, e, chain, p);
      ClosedHolds(w, e, visited, chain);
    }
    forall n | Wanted(w, e, n) ensures n == e.name || Handled(w, result, n) {
      var p :| Reachable(w, e, p) && p in w.files && n in w.files[p];
      assert Finished(w, result, p);
    }
  }

  /** The entry's name is taken at its word: a reachable import of that name is not resolved,
      even where it would resolve to another file, so that the result holds every wanted name
      with the file it resolves to if and only if no such import is met. */
  lemma EntryShadows(w: World, e: Entry, result: map<Name, Path>)
    requires Sound(w, e) && Closure(w, e, result)
    ensures (forall n :: n in w.resolve && Wanted(w, e, n) ==> n in result && result[n] == w.resolve[n])
            <==> (e.name in w.resolve && Wanted(w, e, e.name) ==> w.resolve[e.name] == e.path)
  {}
}
