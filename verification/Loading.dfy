/** Recursive module loading with cycle detection. */
module Loading {
  type Name = string
  type Path = string

  /** What a name stands for once loaded: native code, or a source file that has been run. */
  datatype Module = Native(name: Name) | Source(name: Name, path: Path)

  /** An import statement in a module's body; a guarded one sits in a try statement. */
  datatype Import = Import(name: Name, guarded: bool)

  /** A readable source file. `compiles` covers parsing, embedding and compiling; `runs` is
      false when the body throws after its imports, `exports` when its exports cannot be built. */
  datatype File = File(compiles: bool, imports: seq<Import>, runs: bool, exports: bool)

  /** The file system and the native modules, which a load does not change. A name resolves
      to the same file whatever the search path. */
  datatype World = World(files: map<Path, File>, resolve: map<Name, Path>, natives: set<Name>)

  datatype Failure = Unresolved | Circular | Unreadable | Uncompilable | ImportFailed | Threw | NoExports

  datatype Outcome = Loaded(m: Module) | Failed(why: Failure)

  type Records = map<Name, Module>

  /** What loading a name comes to, and the records it leaves. */
  function Load(w: World, records: Records, loading: set<Path>, name: Name): (r: (Outcome, Records))
    ensures r.0.Loaded? ==> name in r.1 && r.1[name] == r.0.m
    ensures records.Keys <= r.1.Keys && forall n :: n in records ==> r.1[n] == records[n]
    decreases w.files.Keys - loading, 1
  {
    if name in records then (Loaded(records[name]), records)
    else if name !in w.resolve || w.resolve[name] in loading then
      if name in w.natives then (Loaded(Native(name)), records[name := Native(name)])
      else (Failed(if name !in w.resolve then Unresolved else Circular), records)
    else
      var path := w.resolve[name];
      if path !in w.files then (Failed(Unreadable), records)
      else if !w.files[path].compiles then (Failed(Uncompilable), records)
      else
        var file := w.files[path];
        assert w.files.Keys - (loading + {path}) < w.files.Keys - loading by { assert path in w.files.Keys - loading; }
        var body := LoadAll(w, records, loading + {path}, file.imports);
        if !body.0 then (Failed(ImportFailed), body.1)
        else if !file.runs then (Failed(Threw), body.1)
        else if !file.exports then (Failed(NoExports), body.1)
        else (Loaded(Source(name, path)), body.1[name := Source(name, path)])
  }

  /** A body's imports, in order, until one that is not guarded fails. */
  function LoadAll(w: World, records: Records, loading: set<Path>, imports: seq<Import>): (r: (bool, Records))
    ensures records.Keys <= r.1.Keys && forall n :: n in records ==> r.1[n] == records[n]
    ensures r.0 ==> forall i :: i in imports && !i.guarded ==> i.name in r.1
    decreases w.files.Keys - loading, 2, |imports|
  {
    if imports == [] then (true, records) else
      var first := Load(w, records, loading, imports[0].name);
      if first.0.Failed? && !imports[0].guarded then (false, first.1)
      else LoadAll(w, first.1, loading, imports[1..])
  }

  // ----- which module is there

  /** A file that can be read, compiled, run and exported. */
  predicate Usable(w: World, path: Path) {
    path in w.files && w.files[path].compiles && w.files[path].runs && w.files[path].exports
  }

  /** A recorded name stands for the file it resolves to, which is usable, or for the built-in
      module of that name. */
  predicate RightKind(w: World, records: Records) {
    forall n :: n in records ==>
      match records[n]
      case Source(m, p) => m == n && n in w.resolve && p == w.resolve[n] && Usable(w, p)
      case Native(m) => m == n && n in w.natives
  }

  /** Does loading the name run a file? It does unless the file is being run already. */
  predicate RunsFile(w: World, loading: set<Path>, name: Name) { name in w.resolve && w.resolve[name] !in loading }

  /** What a load may answer, said of the world and the records before and after it. */
  ghost predicate Answers(w: World, before: Records, loading: set<Path>, name: Name, out: Outcome, after: Records) {
    // What was on record stays, and a name on record is answered from there.
    && (forall n :: n in before ==> n in after && after[n] == before[n])
    && (name in before ==> out == Loaded(before[name]) && after == before)
    // A new module is the file's when one is run and the built-in one when none is.
    && (name !in before && out.Loaded? ==>
          && out.m == (if RunsFile(w, loading, name) then Source(name, w.resolve[name]) else Native(name))
          && name in after && after[name] == out.m)
    && (name !in before && !RunsFile(w, loading, name) ==>
        after.Keys == before.Keys + (if name in w.natives then {name} else {}))
    && (name !in before && RunsFile(w, loading, name) && out.Loaded? ==>
          Usable(w, w.resolve[name]) && forall i ::
              i in w.files[w.resolve[name]].imports && !i.guarded ==> i.name in after)
    // A failure says what is wrong.
    && (out.Failed? ==> name !in before && Explains(w, loading, name, out.why))
    && (name !in before && !RunsFile(w, loading, name) ==> (out.Loaded? <==> name in w.natives))
    && (name !in before && RunsFile(w, loading, name) && out.Failed? && Usable(w, w.resolve[name]) ==>
          out.why == ImportFailed && exists i :: i in w.files[w.resolve[name]].imports && !i.guarded)
    && (RightKind(w, before) ==> RightKind(w, after))
  }

  predicate Explains(w: World, loading: set<Path>, name: Name, why: Failure) {
    match why
    case Unresolved => name !in w.resolve && name !in w.natives
    case Circular => name in w.resolve && w.resolve[name] in loading && name !in w.natives
    case Unreadable => RunsFile(w, loading, name) && w.resolve[name] !in w.files
    case _ =>
      RunsFile(w, loading, name) && w.resolve[name] in w.files &&
      var file := w.files[w.resolve[name]];
      match why
      case Uncompilable => !file.compiles
      case ImportFailed => file.compiles
      case Threw => file.compiles && !file.runs
      case _ => file.compiles && file.runs && !file.exports
  }

  lemma {:induction false} LoadAnswers(w: World, before: Records, loading: set<Path>, name: Name)
    ensures Answers(w, before, loading, name, Load(w, before, loading, name).0, Load(w, before, loading, name).1)
    decreases w.files.Keys - loading, 1
  {
    if name !in before && RunsFile(w, loading, name) && w.resolve[name] in w.files
        && w.files[w.resolve[name]].compiles {
      var path := w.resolve[name];
      assert path in w.files.Keys - loading;
      assert w.files.Keys - (loading + {path}) < w.files.Keys - loading;
      AllRight(w, before, loading + {path}, w.files[path].imports);
    }
  }

  lemma {:induction false} AllRight(w: World, before: Records, loading: set<Path>, imports: seq<Import>)
    ensures RightKind(w, before) ==> RightKind(w, LoadAll(w, before, loading, imports).1)
    ensures !LoadAll(w, before, loading, imports).0 ==> exists i :: i in imports && !i.guarded
    decreases w.files.Keys - loading, 2, |imports|
  {
    hide RightKind;
    if imports != [] {
      LoadAnswers(w, before, loading, imports[0].name);
      assert imports[0] in imports && forall i :: i in imports[1..] ==> i in imports;
      AllRight(w, Load(w, before, loading, imports[0].name).1, loading, imports[1..]);
    }
  }

  class Loader {
    const world: World
    var records: Records
    var loading: set<Path>
    var modulePaths: seq<Path>
    /** How often this goroutine holds the load lock. */
    var lockDepth: nat

    constructor (w: World, paths: seq<Path>)
      ensures world == w && records == map[] && loading == {} && modulePaths == paths && lockDepth == 0
    {
      world, records, loading, modulePaths, lockDepth := w, map[], {}, paths, 0;
    }

    /** What every load, successful or not, leaves as it was. */
    twostate predicate Restored()
      reads this
    {
      loading == old(loading) && modulePaths == old(modulePaths) && lockDepth == old(lockDepth)
    }

    method LoadModule(canonical: Name) returns (out: Outcome)
      modifies this
      ensures Restored() && (out, records) == Load(world, old(records), loading, canonical)
      ensures Answers(world, old(records), loading, canonical, out, records)
      decreases world.files.Keys - loading, 1
    {
      LoadAnswers(world, records, loading, canonical);
      if canonical in records { return Loaded(records[canonical]); }
      lockDepth := lockDepth + 1;
      out := LoadLocked(canonical);
      lockDepth := lockDepth - 1;
    }

    /** The part of LoadModule that runs under the lock. */
    method LoadLocked(canonical: Name) returns (out: Outcome)
      modifies this
      ensures Restored() && (out, records) == Load(world, old(records), loading, canonical)
      decreases world.files.Keys - loading, 0
    {
      if canonical in records { return Loaded(records[canonical]); }
      if canonical !in world.resolve {
        if canonical in world.natives {
          records := records[canonical := Native(canonical)];
          return Loaded(Native(canonical));
        }
        return Failed(Unresolved);
      }
      var path := world.resolve[canonical];
      if path in loading {
        if canonical in world.natives {
          records := records[canonical := Native(canonical)];
          return Loaded(Native(canonical));
        }
        return Failed(Circular);
      }
      ghost var entry := loading;
      loading := loading + {path};
      if path !in world.files {
        loading := loading - {path};
        assert loading == entry;
        return Failed(Unreadable);
      }
      var file := world.files[path];
      if !file.compiles {
        loading := loading - {path};
        assert loading == entry;
        return Failed(Uncompilable);
      }
      var previousPaths := modulePaths;
      modulePaths := [Directory(path)] + modulePaths;
      assert path in world.files.Keys - entry;
      var ran := RunBody(file.imports);
      modulePaths := previousPaths;
      if !ran || !file.runs || !file.exports {
        loading := loading - {path};
        assert loading == entry;
        return Failed(if !ran then ImportFailed else if !file.runs then Threw else NoExports);
      }
      records := records[canonical := Source(canonical, path)];
      loading := loading - {path};
      assert loading == entry;
      return Loaded(Source(canonical, path));
    }

    /** Running a module's body loads what it imports. */
    method RunBody(imports: seq<Import>) returns (ok: bool)
      modifies this
      ensures Restored() && (ok, records) == LoadAll(world, old(records), loading, imports)
      decreases world.files.Keys - loading, 2, |imports|
    {
      if imports == [] { return true; }
      var out := LoadModule(imports[0].name);
      if out.Failed? && !imports[0].guarded { return false; }
      ok := RunBody(imports[1..]);
    }
  }

  /** What stands before the last slash. */
  function Directory(path: Path): Path {
    if path == "" then "."
    else if path[|path| - 1] == '/' then (if |path| == 1 then "/" else path[..|path| - 1])
    else Directory(path[..|path| - 1])
  }

  /** A file's directory is what its path has before the slash in front of its own name. */
  lemma {:induction false} DirectoryIs(dir: Path, base: Path)
    requires '/' !in base
    ensures Directory(base) == "." && Directory("/" + base) == "/"
    ensures dir != "" ==> Directory(dir + "/" + base) == dir
  {
    if base != "" {
      var most := base[..|base| - 1];
      DirectoryIs(dir, most);
      assert ("/" + base)[..|base|] == "/" + most;
      assert (dir + "/" + base)[..|dir| + |base|] == dir + "/" + most;
    } else {
      assert dir + "/" + base == dir + "/";
      assert (dir + "/")[..|dir|] == dir;
      assert "/" + base == "/";
    }
  }

  // ----- what a load means, without records

  /** Can the name be loaded while the files in `loading` are being loaded? No record is
      kept or consulted: every import is loaded afresh. */
  predicate Loadable(w: World, loading: set<Path>, name: Name)
    decreases w.files.Keys - loading, 1
  {
    if name !in w.resolve || w.resolve[name] in loading then name in w.natives
    else FileLoadable(w, loading, w.resolve[name])
  }

  predicate FileLoadable(w: World, loading: set<Path>, path: Path)
    requires path !in loading
    decreases w.files.Keys - loading, 0
  {
    path in w.files &&
    var file := w.files[path];
    assert w.files.Keys - (loading + {path}) < w.files.Keys - loading by { assert path in w.files.Keys - loading; }
    file.compiles && file.runs && file.exports &&
    forall i :: i in file.imports && !i.guarded ==> Loadable(w, loading + {path}, i.name)
  }

  predicate Sound(w: World, records: Records) {
    forall n :: n in records ==> Loadable(w, {}, n)
  }

  /** A load from outside succeeds exactly when the name is loadable by itself, and leaves
      only such names on record. */
  ghost predicate Holds(w: World, records: Records, name: Name) {
    && (Load(w, records, {}, name).0.Loaded? <==> Loadable(w, {}, name))
    && Sound(w, Load(w, records, {}, name).1)
  }

  /** Loading does not depend on what was loaded before. */
  ghost predicate Steady(w: World) {
    forall records: Records, name: Name :: Sound(w, records) ==> Holds(w, records, name)
  }

  predicate Needs(w: World, name: Name, i: Import) {
    name in w.resolve && w.resolve[name] in w.files && i in w.files[w.resolve[name]].imports && !i.guarded
  }

  /** What a loadable name imports, without a guard, is loadable by itself. */
  ghost predicate Grounded(w: World) {
    forall name: Name, i: Import :: Loadable(w, {}, name) && Needs(w, name, i) ==> Loadable(w, {}, i.name)
  }

  /** No load leaves a built-in name on record that is not loadable by itself. */
  ghost predicate Clean(w: World) {
    forall records: Records, name: Name :: Sound(w, records) ==> Tidy(w, records, {}, name)
  }

  ghost predicate Tidy(w: World, records: Records, loading: set<Path>, name: Name) {
    forall n :: n in w.natives && n in Load(w, records, loading, name).1 ==> Loadable(w, {}, n)
  }

  ghost predicate TidyAll(w: World, records: Records, loading: set<Path>, imports: seq<Import>) {
    forall n :: n in w.natives && n in LoadAll(w, records, loading, imports).1 ==> Loadable(w, {}, n)
  }

  lemma {:induction false} LoadComplete(w: World, records: Records, loading: set<Path>, name: Name)
    requires Loadable(w, loading, name)
    ensures Load(w, records, loading, name).0.Loaded?
    decreases w.files.Keys - loading, 1
  {
    if name !in records && name in w.resolve && w.resolve[name] !in loading {
      var path := w.resolve[name];
      assert path in w.files.Keys - loading;
      assert w.files.Keys - (loading + {path}) < w.files.Keys - loading;
      AllComplete(w, records, loading + {path}, w.files[path].imports);
    }
  }

  lemma {:induction false} AllComplete(w: World, records: Records, loading: set<Path>, imports: seq<Import>)
    requires forall i :: i in imports && !i.guarded ==> Loadable(w, loading, i.name)
    ensures LoadAll(w, records, loading, imports).0
    decreases w.files.Keys - loading, 2, |imports|
  {
    if imports != [] {
      assert imports[0] in imports;
      if !imports[0].guarded { LoadComplete(w, records, loading, imports[0].name); }
      assert forall i :: i in imports[1..] ==> i in imports;
      AllComplete(w, Load(w, records, loading, imports[0].name).1, loading, imports[1..]);
    }
  }

  // ----- the import graph

  predicate Imported(w: World, path: Path, name: Name) {
    path in w.files && exists i :: i in w.files[path].imports && i.name == name
  }

  /** The file imports names[0], whose file imports names[1], and so on, with guards or
      without. */
  predicate Trail(w: World, path: Path, names: seq<Name>)
    decreases |names|
  {
    |names| > 0 && Imported(w, path, names[0]) &&
    (|names| > 1 ==> names[0] in w.resolve && Trail(w, w.resolve[names[0]], names[1..]))
  }

  ghost predicate TrailTo(w: World, path: Path, names: seq<Name>, name: Name) {
    Trail(w, path, names) && names[|names| - 1] == name
  }

  /** The file imports the name, directly or through other files. */
  ghost predicate Leads(w: World, path: Path, name: Name) { exists names :: TrailTo(w, path, names, name) }

  lemma Leading(w: World, path: Path, i: Import, name: Name)
    requires path in w.files && i in w.files[path].imports
    requires i.name == name || (i.name in w.resolve && Leads(w, w.resolve[i.name], name))
    ensures Leads(w, path, name)
  {
    if i.name == name {
      assert TrailTo(w, path, [name], name);
    } else {
      var names :| TrailTo(w, w.resolve[i.name], names, name);
      var longer := [i.name] + names;
      assert longer[1..] == names;
      assert TrailTo(w, path, longer, name);
    }
  }

  lemma {:induction false} LeadsOn(w: World, path: Path, names: seq<Name>, i: Import)
    requires Trail(w, path, names)
    requires names[|names| - 1] in w.resolve && w.resolve[names[|names| - 1]] in w.files
    requires i in w.files[w.resolve[names[|names| - 1]]].imports
    ensures Trail(w, path, names + [i.name])
    decreases |names|
  {
    var more := names + [i.name];
    if |names| == 1 {
      assert more[1..] == [i.name];
      assert Imported(w, w.resolve[names[0]], i.name);
    } else {
      assert names[1..][|names| - 2] == names[|names| - 1];
      LeadsOn(w, w.resolve[names[0]], names[1..], i);
      assert more[1..] == names[1..] + [i.name];
    }
  }

  /** Every file in flight leads to the name that is being loaded. */
  ghost predicate Led(w: World, loading: set<Path>, name: Name) { forall q :: q in loading ==> Leads(w, q, name) }

  lemma LedOn(w: World, loading: set<Path>, name: Name, i: Import)
    requires Led(w, loading, name) && name in w.resolve && w.resolve[name] in w.files
    requires i in w.files[w.resolve[name]].imports
    ensures Led(w, loading + {w.resolve[name]}, i.name)
  {
    forall q | q in loading + {w.resolve[name]} ensures Leads(w, q, i.name) {
      if q in loading {
        var names :| TrailTo(w, q, names, name);
        LeadsOn(w, q, names, i);
        assert TrailTo(w, q, names + [i.name], i.name);
      } else {
        Leading(w, q, i, i.name);
      }
    }
  }

  ghost predicate Goes(w: World, name: Name, z: Name) {
    name == z || (name in w.resolve && Leads(w, w.resolve[name], z))
  }

  /** A load puts nothing on record but the name itself and what its file imports, directly or
      through other files. */
  lemma {:induction false} OnlyLed(w: World, records: Records, loading: set<Path>, name: Name, n: Name)
    requires n !in records && n in Load(w, records, loading, name).1
    ensures Goes(w, name, n)
    decreases w.files.Keys - loading, 1
  {
    hide Leads;
    if n != name {
      var path := w.resolve[name];
      assert path in w.files.Keys - loading;
      assert w.files.Keys - (loading + {path}) < w.files.Keys - loading;
      var i := AllLed(w, records, loading + {path}, w.files[path].imports, n);
      Leading(w, path, i, n);
    }
  }

  lemma {:induction false} AllLed(w: World, records: Records, loading: set<Path>, imports: seq<Import>, n: Name)
    returns (i: Import)
    requires n !in records && n in LoadAll(w, records, loading, imports).1
    ensures i in imports && Goes(w, i.name, n)
    decreases w.files.Keys - loading, 2, |imports|
  {
    hide Goes;
    var first := Load(w, records, loading, imports[0].name);
    if n in first.1 {
      OnlyLed(w, records, loading, imports[0].name, n);
      i := imports[0];
    } else {
      i := AllLed(w, first.1, loading, imports[1..], n);
    }
  }

  /** No built-in name is imported, directly or through other files, by the file it resolves
      to. */
  ghost predicate SelfFree(w: World) {
    forall n :: n in w.natives && n in w.resolve ==> !Leads(w, w.resolve[n], n)
  }

  /** Or where it is, it is loadable. */
  ghost predicate OwnLoadable(w: World) {
    forall n :: n in w.natives && n in w.resolve && Leads(w, w.resolve[n], n) ==> Loadable(w, {}, n)
  }

  // ----- enough

  /** Nothing that is not loadable comes on record as a built-in: because no load at all leaves
      it, or because of what the files import. */
  ghost predicate Careful(w: World, records: Records, loading: set<Path>, name: Name) {
    Tidy(w, records, loading, name) || (OwnLoadable(w) && Led(w, loading, name))
  }

  ghost predicate CarefulAll(w: World, records: Records, loading: set<Path>, imports: seq<Import>) {
    || TidyAll(w, records, loading, imports)
    || (OwnLoadable(w) && forall i :: i in imports ==> Led(w, loading, i.name))
  }

  lemma {:induction false} LoadSound(w: World, records: Records, loading: set<Path>, name: Name)
    requires Grounded(w) && Sound(w, records) && Careful(w, records, loading, name)
    ensures Sound(w, Load(w, records, loading, name).1)
    decreases w.files.Keys - loading, 1
  {
    hide Leads;
    if name !in records && name in w.resolve && w.resolve[name] !in loading && w.resolve[name] in w.files {
      var path := w.resolve[name];
      var file := w.files[path];
      assert path in w.files.Keys - loading;
      assert w.files.Keys - (loading + {path}) < w.files.Keys - loading;
      if file.compiles {
        if !Tidy(w, records, loading, name) {
          forall i | i in file.imports ensures Led(w, loading + {path}, i.name) { LedOn(w, loading, name, i); }
        }
        AllSound(w, records, loading + {path}, file.imports);
        var body := LoadAll(w, records, loading + {path}, file.imports);
        if body.0 && file.runs && file.exports { SourceSound(w, name, body.1); }
      }
    }
  }

  lemma {:induction false} AllSound(w: World, records: Records, loading: set<Path>, imports: seq<Import>)
    requires Grounded(w) && Sound(w, records) && CarefulAll(w, records, loading, imports)
    ensures Sound(w, LoadAll(w, records, loading, imports).1)
    decreases w.files.Keys - loading, 2, |imports|
  {
    hide Leads, Loadable;
    if imports != [] {
      assert imports[0] in imports && forall i :: i in imports[1..] ==> i in imports;
      LoadSound(w, records, loading, imports[0].name);
      var first := Load(w, records, loading, imports[0].name);
      if first.0.Loaded? || imports[0].guarded { AllSound(w, first.1, loading, imports[1..]); }
    }
  }

  /** A file that has been run, with what it imports on record, is loadable by itself. */
  lemma SourceSound(w: World, name: Name, records: Records)
    requires Grounded(w) && Sound(w, records) && name in w.resolve && w.resolve[name] in w.files
    requires
      var file := w.files[w.resolve[name]];
      file.compiles && file.runs && file.exports && forall i :: i in file.imports && !i.guarded ==> i.name in records
    ensures Loadable(w, {}, name)
  {
    var path := w.resolve[name];
    if !FileLoadable(w, {}, path) {
      assert exists i :: i in w.files[path].imports && !i.guarded && !Loadable(w, {} + {path}, i.name);
      var i :| i in w.files[path].imports && !i.guarded && !Loadable(w, {} + {path}, i.name);
      Barred(w, {}, path, i.name);
    }
  }

  /** A name that is loadable, but not once `path` is barred, needs that very file, and all
      it needs is loadable by itself. */
  lemma {:induction false} Barred(w: World, loading: set<Path>, path: Path, name: Name)
    requires Grounded(w) && Loadable(w, {}, name)
    requires Loadable(w, loading, name) && !Loadable(w, loading + {path}, name)
    ensures FileLoadable(w, {}, path)
    decreases w.files.Keys - loading
  {
    var mine := w.resolve[name];
    if mine != path {
      assert mine in w.files.Keys - loading;
      assert w.files.Keys - (loading + {mine}) < w.files.Keys - loading;
      assert loading + {mine} + {path} == loading + {path} + {mine};
      var i :| i in w.files[mine].imports && !i.guarded && !Loadable(w, loading + {path} + {mine}, i.name);
      assert Needs(w, name, i);
      Barred(w, loading + {mine}, path, i.name);
    }
  }

  // ----- both directions

  /** The main result on loading: a load from outside succeeds exactly when the name is loadable
      by itself, whatever was loaded before, and leaves it at that, if and only if every import
      of a loadable name is loadable by itself and no load leaves a built-in name on record
      that is not. */
  lemma Exact(w: World)
    ensures Steady(w) <==> Grounded(w) && Clean(w)
  {
    if Steady(w) {
      forall name: Name, i: Import | Loadable(w, {}, name) && Needs(w, name, i) ensures Loadable(w, {}, i.name) {
        assert Holds(w, map[], name);
        assert Load(w, map[], {}, name).0.Loaded?;
        assert i.name in Load(w, map[], {}, name).1;
      }
      forall records: Records, name: Name | Sound(w, records) ensures Tidy(w, records, {}, name) {
        assert Holds(w, records, name);
      }
    }
    if Grounded(w) && Clean(w) {
      forall records: Records, name: Name | Sound(w, records) ensures Holds(w, records, name) {
        assert Tidy(w, records, {}, name);
        LoadSound(w, records, {}, name);
        if Loadable(w, {}, name) { LoadComplete(w, records, {}, name); }
      }
    }
  }

  /** What the files import is enough to know. */
  lemma History(w: World)
    requires Grounded(w) && OwnLoadable(w)
    ensures Steady(w)
  {
    forall records: Records, name: Name | Sound(w, records) ensures Holds(w, records, name) {
      LoadSound(w, records, {}, name);
      if Loadable(w, {}, name) { LoadComplete(w, records, {}, name); }
    }
  }

  /** In particular when no built-in name is imported, directly or through other files, by the
      file it resolves to. */
  lemma SelfFreeSteady(w: World)
    requires SelfFree(w)
    ensures Steady(w)
  {
    hide Leads;
    forall name: Name, i: Import | Loadable(w, {}, name) && Needs(w, name, i) ensures Loadable(w, {}, i.name) {
      var path := w.resolve[name];
      assert FileLoadable(w, {}, path);
      forall z | z in w.natives && z in w.resolve && w.resolve[z] == path ensures !Goes(w, i.name, z) {
        if Goes(w, i.name, z) { Leading(w, path, i, z); }
      }
      Unbarred(w, {}, path, i.name);
    }
    History(w);
  }

  /** A file in flight helps only where it is imported by a built-in name of its own. */
  lemma {:induction false} Unbarred(w: World, loading: set<Path>, path: Path, name: Name)
    requires Loadable(w, loading + {path}, name)
    requires forall z :: z in w.natives && z in w.resolve && w.resolve[z] == path ==> !Goes(w, name, z)
    ensures Loadable(w, loading, name)
    decreases w.files.Keys - loading
  {
    hide Leads;
    if name in w.resolve && w.resolve[name] !in loading {
      var mine := w.resolve[name];
      assert mine != path;
      assert mine in w.files.Keys - loading;
      assert w.files.Keys - (loading + {mine}) < w.files.Keys - loading;
      assert loading + {path} + {mine} == loading + {mine} + {path};
      forall i | i in w.files[mine].imports && !i.guarded ensures Loadable(w, loading + {mine}, i.name) {
        forall z | z in w.natives && z in w.resolve && w.resolve[z] == path ensures !Goes(w, i.name, z) {
          if Goes(w, i.name, z) { Leading(w, mine, i, z); }
        }
        Unbarred(w, loading + {mine}, path, i.name);
      }
    }
  }

  // ----- the converse, on what the files import

  /** Names each of which needs the next, with distinct files that are not in flight. */
  ghost predicate Chain(w: World, loading: set<Path>, names: seq<Name>)
    decreases |names|
  {
    |names| > 0 && names[0] in w.resolve && w.resolve[names[0]] !in loading &&
    (|names| > 1 ==>
       (exists i :: Needs(w, names[0], i) && i.name == names[1]) &&
       Chain(w, loading + {w.resolve[names[0]]}, names[1..]))
  }

  lemma {:induction false} Along(w: World, loading: set<Path>, names: seq<Name>, x: Name)
    requires Chain(w, loading, names) && Loadable(w, loading, names[0])
    requires x in w.resolve && x !in w.natives && w.resolve[x] in loading + {w.resolve[names[0]]}
    requires exists i :: Needs(w, names[|names| - 1], i) && i.name == x
    ensures false
    decreases |names|
  {
    var path := w.resolve[names[0]];
    assert FileLoadable(w, loading, path);
    if |names| > 1 {
      var i :| Needs(w, names[0], i) && i.name == names[1];
      assert Loadable(w, loading + {path}, names[1]);
      assert names[1..][|names| - 2] == names[|names| - 1];
      Along(w, loading + {path}, names[1..], x);
    }
  }

  /** When a loadable name needs one that is not built in and that needs it in turn, through any
      number of files, the second one cannot be loaded first, but is on record after the
      first. */
  lemma EntryMatters(w: World, n: Name, i: Import, names: seq<Name>)
    requires Loadable(w, {}, n) && Needs(w, n, i) && i.name !in w.natives
    requires Chain(w, {}, names) && names[0] == i.name && names[|names| - 1] == n
    ensures !Loadable(w, {}, i.name) && Load(w, Load(w, map[], {}, n).1, {}, i.name).0.Loaded? && !Steady(w)
  {
    LoadComplete(w, map[], {}, n);
    assert i.name in Load(w, map[], {}, n).1;
    if Loadable(w, {}, i.name) { Along(w, {}, names, i.name); }
    assert !Grounded(w);
    Exact(w);
  }

  /** While `loading` is in flight and everything loadable is on record, loading x comes to ask
      for the built-in n whose file is in flight. */
  predicate Asks(w: World, loading: set<Path>, x: Name, n: Name)
    decreases w.files.Keys - loading, 1
  {
    x in w.resolve &&
    if w.resolve[x] in loading then x == n && n in w.natives
    else
      var path := w.resolve[x];
      path in w.files && w.files[path].compiles &&
      (assert w.files.Keys - (loading + {path}) < w.files.Keys - loading by { assert path in w.files.Keys - loading; }
       AsksAll(w, loading + {path}, w.files[path].imports, n))
  }

  predicate AsksAll(w: World, loading: set<Path>, imports: seq<Import>, n: Name)
    decreases w.files.Keys - loading, 2, |imports|
  {
    imports != [] &&
    if Loadable(w, {}, imports[0].name) then AsksAll(w, loading, imports[1..], n)
    else Asks(w, loading, imports[0].name, n) || (imports[0].guarded && AsksAll(w, loading, imports[1..], n))
  }

  /** Everything that is loadable by itself. */
  function Everything(w: World): (r: Records)
    ensures Sound(w, r) && forall n :: Loadable(w, {}, n) ==> n in r
  {
    map n | n in w.resolve.Keys + w.natives && Loadable(w, {}, n) :: Native(n)
  }

  lemma {:induction false} AskedStays(w: World, loading: set<Path>, x: Name, n: Name)
    requires !Loadable(w, {}, x) && Asks(w, loading, x, n) && Sound(w, Load(w, Everything(w), loading, x).1)
    ensures n in Load(w, Everything(w), loading, x).1
    decreases w.files.Keys - loading, 1
  {
    hide Loadable, Everything;
    if w.resolve[x] !in loading {
      var path := w.resolve[x];
      assert path in w.files.Keys - loading;
      assert w.files.Keys - (loading + {path}) < w.files.Keys - loading;
      AllAskedStays(w, loading + {path}, w.files[path].imports, n);
    }
  }

  lemma {:induction false} AllAskedStays(w: World, loading: set<Path>, imports: seq<Import>, n: Name)
    requires AsksAll(w, loading, imports, n) && Sound(w, LoadAll(w, Everything(w), loading, imports).1)
    ensures n in LoadAll(w, Everything(w), loading, imports).1
    decreases w.files.Keys - loading, 2, |imports|
  {
    hide Loadable, Everything, Asks;
    var all, x := Everything(w), imports[0].name;
    var first := Load(w, all, loading, x);
    if Loadable(w, {}, x) {
      assert first == (Loaded(all[x]), all);
      AllAskedStays(w, loading, imports[1..], n);
    } else {
      assert first.1.Keys <= LoadAll(w, all, loading, imports).1.Keys;
      assert first.1 == all;
      if Asks(w, loading, x, n) {
        AskedStays(w, loading, x, n);
      } else {
        AllAskedStays(w, loading, imports[1..], n);
      }
    }
  }

  /** Loading does depend on what was loaded before where a built-in name that is not loadable
      is asked for while its file is in flight. */
  lemma Leftover(w: World, x: Name, n: Name)
    requires !Loadable(w, {}, x) && !Loadable(w, {}, n) && Asks(w, {}, x, n)
    ensures !Steady(w)
  {
    if Steady(w) {
      assert Holds(w, Everything(w), x);
      AskedStays(w, {}, x, n);
    }
  }

  /** No name that is not loadable asks for a built-in name that is not. */
  ghost predicate Unasking(w: World) {
    forall x: Name, n: Name :: !Loadable(w, {}, x) && !Loadable(w, {}, n) ==> !Asks(w, {}, x, n)
  }

  predicate Guards(w: World, name: Name, i: Import) {
    name in w.resolve && w.resolve[name] in w.files && i in w.files[w.resolve[name]].imports && i.guarded
  }

  /** Every import of a loadable name, guarded or not, is loadable: so it is in a grounded world
      without guards. */
  ghost predicate Covered(w: World) {
    forall name: Name, i: Import ::
      Loadable(w, {}, name) && Guards(w, name, i) ==> Loadable(w, {}, i.name)
  }

  ghost predicate Quiet(w: World, loading: set<Path>, x: Name) {
    forall n :: !Loadable(w, {}, n) ==> !Asks(w, loading, x, n)
  }

  ghost predicate QuietAll(w: World, loading: set<Path>, imports: seq<Import>) {
    forall n :: !Loadable(w, {}, n) ==> !AsksAll(w, loading, imports, n)
  }

  lemma Silent(w: World, loading: set<Path>, x: Name)
    requires Grounded(w) && Covered(w) && Loadable(w, {}, x)
    ensures Quiet(w, loading, x)
  {
    if x in w.resolve && w.resolve[x] !in loading && w.resolve[x] in w.files {
      var imports := w.files[w.resolve[x]].imports;
      forall i | i in imports ensures Loadable(w, {}, i.name) { assert Needs(w, x, i) || Guards(w, x, i); }
      AllSilent(w, loading + {w.resolve[x]}, imports);
    }
  }

  lemma {:induction false} AllSilent(w: World, loading: set<Path>, imports: seq<Import>)
    requires forall i :: i in imports ==> Loadable(w, {}, i.name)
    ensures QuietAll(w, loading, imports)
    decreases |imports|
  {
    hide Loadable, Asks;
    if imports != [] {
      assert imports[0] in imports && forall i :: i in imports[1..] ==> i in imports;
      AllSilent(w, loading, imports[1..]);
    }
  }

  lemma {:induction false} Unasked(w: World, records: Records, loading: set<Path>, name: Name)
    requires Grounded(w) && Covered(w) && Sound(w, records) && Quiet(w, loading, name)
    ensures Sound(w, Load(w, records, loading, name).1)
    decreases w.files.Keys - loading, 1
  {
    if name !in records && name in w.resolve && w.resolve[name] in w.files {
      var path := w.resolve[name];
      var file := w.files[path];
      if path in loading {
        assert Asks(w, loading, name, name) <==> name in w.natives;
      } else if file.compiles {
        assert path in w.files.Keys - loading;
        assert w.files.Keys - (loading + {path}) < w.files.Keys - loading;
        AllUnasked(w, records, loading + {path}, file.imports);
        var body := LoadAll(w, records, loading + {path}, file.imports);
        if body.0 && file.runs && file.exports { SourceSound(w, name, body.1); }
      }
    }
  }

  lemma {:induction false} AllUnasked(w: World, records: Records, loading: set<Path>, imports: seq<Import>)
    requires Grounded(w) && Covered(w) && Sound(w, records) && QuietAll(w, loading, imports)
    ensures Sound(w, LoadAll(w, records, loading, imports).1)
    decreases w.files.Keys - loading, 2, |imports|
  {
    hide Loadable, Asks;
    if imports != [] {
      var i := imports[0];
      if Loadable(w, {}, i.name) { Silent(w, loading, i.name); }
      assert Quiet(w, loading, i.name);
      Unasked(w, records, loading, i.name);
      var first := Load(w, records, loading, i.name);
      if first.0.Loaded? || i.guarded {
        if first.0.Loaded? { assert Loadable(w, {}, i.name); }
        AllUnasked(w, first.1, loading, imports[1..]);
      }
    }
  }

  /** Where a loadable name imports only what is loadable, behind a guard too, that is all:
      loading is independent of its history if and only if the names' imports are grounded and
      no built-in name is asked for that way. */
  lemma ExactByAsking(w: World)
    requires Covered(w)
    ensures Steady(w) <==> Grounded(w) && Unasking(w)
  {
    hide Asks, Loadable;
    Exact(w);
    if Steady(w) {
      forall x: Name, n: Name | !Loadable(w, {}, x) && !Loadable(w, {}, n) ensures !Asks(w, {}, x, n) {
        if Asks(w, {}, x, n) { Leftover(w, x, n); }
      }
    }
    if Grounded(w) && Unasking(w) {
      forall records: Records, name: Name | Sound(w, records) ensures Tidy(w, records, {}, name) {
        if Loadable(w, {}, name) { Silent(w, {}, name); }
        Unasked(w, records, {}, name);
      }
    }
  }

  // ----- inputs

  /** A load that fails can leave the built-in module behind, and the next load of that name
      succeeds. */
  lemma FailureRemembered()
    ensures
      var w := World(map["m.gb" := File(true, [Import("m", false)], false, true)], map["m" := "m.gb"], {"m"});
      var first := Load(w, map[], {}, "m");
      first.0 == Failed(Threw) && Load(w, first.1, {}, "m").0 == Loaded(Native("m")) && !Loadable(w, {}, "m")
          && !Steady(w)
  {
    var w := World(map["m.gb" := File(true, [Import("m", false)], false, true)], map["m" := "m.gb"], {"m"});
    var imports := [Import("m", false)];
    assert Load(w, map[], {"m.gb"}, "m") == (Loaded(Native("m")), map["m" := Native("m")]);
    assert {} + {"m.gb"} == {"m.gb"};
    assert LoadAll(w, map["m" := Native("m")], {"m.gb"}, imports[1..]) == (true, map["m" := Native("m")]);
    assert LoadAll(w, map[], {"m.gb"}, imports) == (true, map["m" := Native("m")]);
    assert Asks(w, {"m.gb"}, "m", "m");
    assert AsksAll(w, {"m.gb"}, imports, "m");
    Leftover(w, "m", "m");
  }

  /** So can loads that all succeed: m imports k and k imports m, which is built in as well.
      Loading k fails; after m it succeeds. */
  lemma OrderMatters()
    ensures
      var w := World(map["m.gb" := File(true, [Import("k", false)], true, true),
                         "k.gb" := File(true, [Import("m", false)], true, true)],
                     map["m" := "m.gb", "k" := "k.gb"], {"m"});
      && Loadable(w, {}, "m") && !Loadable(w, {}, "k") && !Steady(w)
      && Load(w, map[], {}, "k").0.Failed? && Load(w, map[], {}, "m").0.Loaded?
      && Load(w, Load(w, map[], {}, "m").1, {}, "k").0.Loaded?
  {
    var w := World(map["m.gb" := File(true, [Import("k", false)], true, true),
                       "k.gb" := File(true, [Import("m", false)], true, true)],
                   map["m" := "m.gb", "k" := "k.gb"], {"m"});
    var m, k := Import("m", false), Import("k", false);
    assert Loadable(w, {"m.gb", "k.gb"}, "m");
    assert {"m.gb"} + {"k.gb"} == {"m.gb", "k.gb"} && {} + {"m.gb"} == {"m.gb"};
    assert Loadable(w, {"m.gb"}, "k");
    assert Loadable(w, {}, "m");
    assert Needs(w, "m", k) && Needs(w, "k", m);
    var names := ["k", "m"];
    assert names[1..] == ["m"];
    assert Chain(w, {} + {"k.gb"}, ["m"]);
    assert Chain(w, {}, names);
    EntryMatters(w, "m", k, names);
    LoadComplete(w, map[], {}, "m");
    KFails(w);
  }

  lemma KFails(w: World)
    requires w == World(map["m.gb" := File(true, [Import("k", false)], true, true),
                            "k.gb" := File(true, [Import("m", false)], true, true)],
                        map["m" := "m.gb", "k" := "k.gb"], {"m"})
    ensures Load(w, map[], {}, "k").0.Failed?
  {
    assert {} + {"k.gb"} == {"k.gb"} && {"k.gb"} + {"m.gb"} == {"k.gb", "m.gb"};
    assert Load(w, map[], {"k.gb", "m.gb"}, "k") == (Failed(Circular), map[]);
    assert LoadAll(w, map[], {"k.gb", "m.gb"}, [Import("k", false)]) == (false, map[]);
    assert Load(w, map[], {"k.gb"}, "m") == (Failed(ImportFailed), map[]);
    assert LoadAll(w, map[], {"k.gb"}, [Import("m", false)]) == (false, map[]);
  }
}
