/** Worker virtual machines: a call into another module runs on a worker that copies the
    module's globals and writes back the slots it reassigned. This module says what calls
    come to, and compares that with one live environment per module. */
module Workers {
  type Module = string
  type Value = int

  /** What a function does next. Its code decides that from everything it has seen so far. */
  datatype Action =
    | Read(slot: nat)
    | Write(slot: nat, value: Value)
    | Escape // hand out a closure that captures the worker
    | Invoke(target: Module, callee: nat, arg: Value)
    | Return(result: Value)
    | Throw(error: Value)

  /** Fault: the call named a module that is not loaded, or a slot that does not exist. */
  datatype Outcome = Returned(v: Value) | Thrown(v: Value) | Fault | Unfinished

  datatype Seen = Argument(v: Value) | Global(v: Value) | Done | Answer(out: Outcome)

  /** Every module's functions. */
  datatype Code = Code(step: (Module, nat, seq<Seen>) -> Action) {
    function Next(m: Module, f: nat, seen: seq<Seen>): Action { step(m, f, seen) }
  }

  type Globals = map<Module, seq<Value>>

  /** How many hosts a call looks at for a worker to borrow. */
  const MAX_HOSTS := 4097

  // ----- the reference

  /** One live environment for each module, which every function reads and writes directly. */
  function Plain(code: Code, fuel: nat, env: Globals, m: Module, f: nat, seen: seq<Seen>): (r: (Outcome, Globals))
    requires m in env
    ensures SameSlots(r.1, env)
    decreases fuel
  {
    if fuel == 0 then (Unfinished, env) else
      match code.Next(m, f, seen)
      case Read(i) => Plain(code, fuel - 1, env, m, f, seen + [Look(env[m], i)])
      case Write(i, v) =>
        if i < |env[m]| then Plain(code, fuel - 1, env[m := env[m][i := v]], m, f, seen + [Done])
        else Plain(code, fuel - 1, env, m, f, seen + [Answer(Fault)])
      case Escape => Plain(code, fuel - 1, env, m, f, seen + [Done])
      case Invoke(t, g, a) =>
        if t !in env then Plain(code, fuel - 1, env, m, f, seen + [Answer(Fault)]) else
          var r := Plain(code, fuel - 1, env, t, g, [Argument(a)]);
          if r.0.Unfinished? then r else Plain(code, fuel - 1, r.1, m, f, seen + [Answer(r.0)])
      case Return(v) => (Returned(v), env)
      case Throw(v) => (Thrown(v), env)
  }

  predicate SameSlots(a: Globals, b: Globals) {
    a.Keys == b.Keys && forall m :: m in a ==> |a[m]| == |b[m]|
  }

  function Look(globals: seq<Value>, i: nat): Seen {
    if i < |globals| then Global(globals[i]) else Answer(Fault)
  }

  // ----- workers

  /** A worker at work: its copy of the globals, the slots it has reassigned, and the
      position of its host among the workers at work (-1 for none). */
  datatype Frame = Frame(name: Module, globals: seq<Value>, dirty: seq<nat>, host: int, escaped: nat)

  /** The modules' records, and the workers at work, oldest first. */
  datatype State = State(records: Globals, frames: seq<Frame>)

  function Set(w: Frame, i: nat, v: Value): Frame
    requires i < |w.globals|
  {
    w.(globals := w.globals[i := v], dirty := if i in w.dirty then w.dirty else w.dirty + [i])
  }

  function Leak(w: Frame): Frame { w.(escaped := w.escaped + 1) }

  function Put(s: State, at: nat, w: Frame): (t: State)
    requires at < |s.frames|
    ensures t.records == s.records && |t.frames| == |s.frames| && t.frames[at] == w
  {
    s.(frames := s.frames[at := w])
  }

  /** A record's globals after a write-back. */
  function Merged(record: seq<Value>, globals: seq<Value>, dirty: seq<nat>): (r: seq<Value>)
    ensures |r| == |record|
  {
    seq(|record|, i requires 0 <= i < |record| => if i in dirty && i < |globals| then globals[i] else record[i])
  }

  /** The worker of module t that a call from worker `at` borrows: the nearest among the
      first n of the caller and its hosts; -1 when there is none. */
  function Lender(frames: seq<Frame>, at: int, t: Module, n: nat): (k: int)
    ensures k < |frames|
    ensures k >= 0 ==> frames[k].name == t
    decreases n
  {
    if n == 0 || !(0 <= at < |frames|) then -1
    else if frames[at].name == t then at
    else Lender(frames, frames[at].host, t, n - 1)
  }

  predicate Alike(a: seq<Frame>, b: seq<Frame>) {
    |a| == |b| && forall i ::
        0 <= i < |a| ==> a[i].name == b[i].name && a[i].host == b[i].host && |a[i].globals| == |b[i].globals|
  }

  /** What a call leaves alone: which modules are loaded, which workers are at work. */
  predicate Kept(s: State, t: State) {
    SameSlots(t.records, s.records) && Alike(t.frames, s.frames)
  }

  /** Worker `at` runs function f. */
  function Run(code: Code, fuel: nat, s: State, at: nat, f: nat, seen: seq<Seen>): (r: (Outcome, State))
    requires at < |s.frames|
    ensures Kept(s, r.1)
    decreases fuel, 0
  {
    if fuel == 0 then (Unfinished, s) else
      var w := s.frames[at];
      match code.Next(w.name, f, seen)
      case Read(i) => Run(code, fuel - 1, s, at, f, seen + [Look(w.globals, i)])
      case Write(i, v) =>
        if i < |w.globals| then Run(code, fuel - 1, Put(s, at, Set(w, i, v)), at, f, seen + [Done])
        else Run(code, fuel - 1, s, at, f, seen + [Answer(Fault)])
      case Escape => Run(code, fuel - 1, Put(s, at, Leak(w)), at, f, seen + [Done])
      case Invoke(t, g, a) =>
        if t !in s.records then Run(code, fuel - 1, s, at, f, seen + [Answer(Fault)]) else
          var r := Call(code, fuel - 1, s, at, t, g, a);
          if r.0.Unfinished? then r else Run(code, fuel - 1, r.1, at, f, seen + [Answer(r.0)])
      case Return(v) => (Returned(v), s)
      case Throw(v) => (Thrown(v), s)
  }

  /** A call into module t, from worker `at` or, at -1, from outside: on a borrowed worker,
      or on a new one, which writes back at the end, whether or not the call threw. */
  function Call(code: Code, fuel: nat, s: State, at: int, t: Module, g: nat, a: Value): (r: (Outcome, State))
    requires at < |s.frames| && t in s.records
    ensures Kept(s, r.1)
    decreases fuel, 1
  {
    var k := Lender(s.frames, at, t, MAX_HOSTS);
    if k >= 0 then Run(code, fuel, s, k, g, [Argument(a)]) else
      var r := Run(code, fuel, Start(s, at, t), |s.frames|, g, [Argument(a)]);
      (r.0, Finish(r.1))
  }

  function Start(s: State, at: int, t: Module): State
    requires t in s.records
  {
    s.(frames := s.frames + [Frame(t, s.records[t], [], at, 0)])
  }

  function Finish(s: State): State
    requires |s.frames| > 0
  {
    var last := s.frames[|s.frames| - 1];
    State(if last.name in s.records
        then s.records[last.name := Merged(s.records[last.name], last.globals, last.dirty)] else s.records,
          s.frames[..|s.frames| - 1])
  }

  // ----- the proviso

  /** Where t first occurs among the first n entries of path; -1 when it does not. */
  function Find(path: seq<Module>, t: Module, n: nat): (k: int)
    ensures k >= 0 ==> k < |path| && k < n && path[k] == t
    ensures forall j :: 0 <= j < |path| && j < n && (k < 0 || j < k) ==> path[j] != t
  {
    if n == 0 || path == [] then -1
    else if path[0] == t then 0
    else var k := Find(path[1..], t, n - 1); if k < 0 then -1 else k + 1
  }

  /** Whenever a module with an active worker is called, that worker is among the hosts the
      calling worker looks at. `path` holds the modules of the running worker and of its
      hosts, `busy` the modules with a worker at work. */
  predicate Proper(code: Code, fuel: nat, env: Globals, path: seq<Module>, busy: set<Module>, f: nat, seen: seq<Seen>)
    requires |path| > 0 && path[0] in env
    decreases fuel, 0
  {
    fuel == 0 ||
    var m := path[0];
    match code.Next(m, f, seen)
    case Read(i) => Proper(code, fuel - 1, env, path, busy, f, seen + [Look(env[m], i)])
    case Write(i, v) =>
      if i < |env[m]| then Proper(code, fuel - 1, env[m := env[m][i := v]], path, busy, f, seen + [Done])
      else Proper(code, fuel - 1, env, path, busy, f, seen + [Answer(Fault)])
    case Escape => Proper(code, fuel - 1, env, path, busy, f, seen + [Done])
    case Invoke(t, g, a) =>
      if t !in env then Proper(code, fuel - 1, env, path, busy, f, seen + [Answer(Fault)]) else
        var r := Plain(code, fuel - 1, env, t, g, [Argument(a)]);
        && ProperCall(code, fuel - 1, env, path, busy, t, g, a)
        && (r.0.Unfinished? || Proper(code, fuel - 1, r.1, path, busy, f, seen + [Answer(r.0)]))
    case Return(_) => true
    case Throw(_) => true
  }

  predicate ProperCall(code: Code, fuel: nat, env: Globals, path: seq<Module>, busy: set<Module>, t: Module, g: nat,
          a: Value)
    requires t in env
    decreases fuel, 1
  {
    var k := Find(path, t, MAX_HOSTS);
    if k >= 0 then Proper(code, fuel, env, path[k..], busy, g, [Argument(a)])
    else t !in busy && Proper(code, fuel, env, [t] + path, busy + {t}, g, [Argument(a)])
  }

  // ----- the workers show one live environment

  ghost predicate Hosted(frames: seq<Frame>) {
    forall i :: 0 <= i < |frames| ==> frames[i].host < i
  }

  /** The modules of a worker and of its hosts, nearest first. */
  ghost function Path(frames: seq<Frame>, at: int): (p: seq<Module>)
    requires Hosted(frames) && at < |frames|
    ensures at >= 0 ==> |p| > 0 && p[0] == frames[at].name
    decreases at + 1
  {
    if at < 0 then [] else [frames[at].name] + Path(frames, frames[at].host)
  }

  ghost function Busy(frames: seq<Frame>): set<Module> {
    set i | 0 <= i < |frames| :: frames[i].name
  }

  /** A worker differs from its module's record only in the slots it has reassigned. */
  ghost predicate Clean(w: Frame, record: seq<Value>) {
    |w.globals| == |record| && forall i :: 0 <= i < |record| && i !in w.dirty ==> w.globals[i] == record[i]
  }

  ghost predicate Distinct(frames: seq<Frame>) {
    forall i, j :: 0 <= i < j < |frames| ==> frames[i].name != frames[j].name
  }

  ghost predicate Current(s: State, env: Globals, i: int) {
    0 <= i < |s.frames| &&
    var w := s.frames[i];
    w.name in env && w.name in s.records && w.globals == env[w.name] && Clean(w, s.records[w.name])
  }

  /** The state shows `env`: through its worker where a module has one at work, and it has
      at most one, and through its record otherwise. */
  ghost predicate Shows(s: State, env: Globals) {
    && Hosted(s.frames) && s.records.Keys == env.Keys && Distinct(s.frames)
    && (forall i :: 0 <= i < |s.frames| ==> Current(s, env, i))
    && (forall m :: m in env && m !in Busy(s.frames) ==> s.records[m] == env[m])
  }

  lemma Resumed(s: State, t: State, env: Globals, at: nat)
    requires Hosted(s.frames) && Kept(s, t) && Shows(t, env) && at < |s.frames|
    ensures |t.frames| == |s.frames| && Hosted(t.frames) && Current(t, env, at)
        && t.frames[at].name == s.frames[at].name
    ensures Path(t.frames, at) == Path(s.frames, at) && Busy(t.frames) == Busy(s.frames)
  {
    SamePaths(s.frames, t.frames, at);
  }

  lemma Running(s: State, env: Globals, at: nat)
    requires Shows(s, env) && Current(s, env, at)
    ensures Hosted(s.frames) && s.records.Keys == env.Keys && s.frames[at].name in env
        && s.frames[at].globals == env[s.frames[at].name]
  {}

  lemma StillCurrent(s: State, env: Globals, at: nat)
    requires at < |s.frames| && Shows(s, env)
    ensures Current(s, env, at)
  {}

  /** The main result on module globals: a call from outside, with any nesting, re-entry and
      throwing, reads and leaves what direct use of one live environment per module would,
      if every active worker of a called module is among the hosts of the caller. */
  lemma OneLiveEnvironment(code: Code, fuel: nat, records: Globals, t: Module, g: nat, a: Value)
    requires t in records && ProperCall(code, fuel, records, [], {}, t, g, a)
    ensures
      var (out, env) := Plain(code, fuel, records, t, g, [Argument(a)]);
      Call(code, fuel, State(records, []), -1, t, g, a) == (out, State(env, []))
  {
    var s := State(records, []);
    assert Busy(s.frames) == {} && Path(s.frames, -1) == [] && Shows(s, records);
    CallRefines(code, fuel, s, -1, records, t, g, a);
    var r := Call(code, fuel, s, -1, t, g, a);
    assert Busy(r.1.frames) == {};
    assert r.1.records == Plain(code, fuel, records, t, g, [Argument(a)]).1;
  }

  lemma {:induction false} RunRefines(code: Code, fuel: nat, s: State, at: nat, env: Globals, f: nat, seen: seq<Seen>)
    requires at < |s.frames| && Shows(s, env) && Current(s, env, at)
        && Proper(code, fuel, env, Path(s.frames, at), Busy(s.frames), f, seen)
    ensures
      var r, p := Run(code, fuel, s, at, f, seen), Plain(code, fuel, env, s.frames[at].name, f, seen);
      r.0 == p.0 && Shows(r.1, p.1)
    decreases fuel, 0
  {
    hide *;
    Running(s, env, at);
    RunsOut(code, fuel, s, at, env, f, seen);
    if fuel > 0 {
      var w := s.frames[at];
      match code.Next(w.name, f, seen)
      case Read(i) =>
        OnRead(code, fuel, s, at, env, f, seen, i);
        RunRefines(code, fuel - 1, s, at, env, f, seen + [Look(w.globals, i)]);
      case Write(i, v) =>
        if i < |w.globals| {
          WriteShows(s, at, env, i, v);
          OnWrite(code, fuel, s, at, env, f, seen, i, v);
          RunRefines(code, fuel - 1, Put(s, at, Set(w, i, v)), at, env[w.name := env[w.name][i := v]], f, seen
              + [Done]);
        } else {
          OnBadWrite(code, fuel, s, at, env, f, seen, i, v);
          RunRefines(code, fuel - 1, s, at, env, f, seen + [Answer(Fault)]);
        }
      case Escape =>
        EscapeShows(s, at, env);
        OnEscape(code, fuel, s, at, env, f, seen);
        RunRefines(code, fuel - 1, Put(s, at, Leak(w)), at, env, f, seen + [Done]);
      case Invoke(t, g, a) =>
        InvokeRefines(code, fuel, s, at, env, f, seen, t, g, a);
      case Return(_) =>
      case Throw(_) =>
    }
  }

  lemma {:induction false} InvokeRefines(code: Code, fuel: nat, s: State, at: nat, env: Globals, f: nat,
          seen: seq<Seen>, t: Module, g: nat, a: Value)
    requires at < |s.frames| && Shows(s, env) && Current(s, env, at)
        && Proper(code, fuel, env, Path(s.frames, at), Busy(s.frames), f, seen)
    requires fuel > 0 && code.Next(s.frames[at].name, f, seen) == Invoke(t, g, a)
    ensures
      var r, p := Run(code, fuel, s, at, f, seen), Plain(code, fuel, env, s.frames[at].name, f, seen);
      r.0 == p.0 && Shows(r.1, p.1)
    decreases fuel, -1
  {
    hide *;
    Running(s, env, at);
    if t !in env {
      OnBadInvoke(code, fuel, s, at, env, f, seen, t, g, a);
      RunRefines(code, fuel - 1, s, at, env, f, seen + [Answer(Fault)]);
    } else {
      OnInvoke(code, fuel, s, at, env, f, seen, t, g, a);
        CallRefines(code, fuel - 1, s, at, env, t, g, a);
      var r, p := Call(code, fuel - 1, s, at, t, g, a), Plain(code, fuel - 1, env, t, g, [Argument(a)]);
      if !r.0.Unfinished? {
        Resumed(s, r.1, p.1, at);
        var next := seen + [Answer(r.0)];
        assert Proper(code, fuel - 1, p.1, Path(r.1.frames, at), Busy(r.1.frames), f, next);
        RunRefines(code, fuel - 1, r.1, at, p.1, f, next);
      }
    }
  }

  lemma RunsOut(code: Code, fuel: nat, s: State, at: nat, env: Globals, f: nat, seen: seq<Seen>)
    requires at < |s.frames| && s.frames[at].name in env
    ensures
      var r, p, a := Run(code, fuel, s, at, f, seen), Plain(code, fuel, env, s.frames[at].name, f, seen),
          code.Next(s.frames[at].name, f, seen);
      fuel == 0 || a.Return? || a.Throw? ==> r.0 == p.0 && r.1 == s && p.1 == env
  {}

  // One action of a function, on its worker, in the one environment and in the proviso.

  lemma OnRead(code: Code, fuel: nat, s: State, at: nat, env: Globals, f: nat, seen: seq<Seen>, i: nat)
    requires at < |s.frames| && Shows(s, env) && Current(s, env, at)
        && Proper(code, fuel, env, Path(s.frames, at), Busy(s.frames), f, seen)
    requires fuel > 0 && code.Next(s.frames[at].name, f, seen) == Read(i)
    ensures
      var w, next := s.frames[at], seen + [Look(s.frames[at].globals, i)];
      && Run(code, fuel, s, at, f, seen) == Run(code, fuel - 1, s, at, f, next)
      && Plain(code, fuel, env, w.name, f, seen) == Plain(code, fuel - 1, env, w.name, f, next)
      && Proper(code, fuel - 1, env, Path(s.frames, at), Busy(s.frames), f, next)
  {
    assert Hosted(s.frames) && s.records.Keys == env.Keys && s.frames[at].globals == env[s.frames[at].name];
    hide Shows, Current, Path, Hosted, Busy, Alike;
  }

  lemma OnWrite(code: Code, fuel: nat, s: State, at: nat, env: Globals, f: nat, seen: seq<Seen>, i: nat, v: Value)
    requires at < |s.frames| && Shows(s, env) && Current(s, env, at)
        && Proper(code, fuel, env, Path(s.frames, at), Busy(s.frames), f, seen)
    requires fuel > 0 && code.Next(s.frames[at].name, f, seen) == Write(i, v) && i < |s.frames[at].globals|
    ensures
      var w, next := s.frames[at], seen + [Done];
      var env' := env[w.name := env[w.name][i := v]];
      && Run(code, fuel, s, at, f, seen) == Run(code, fuel - 1, Put(s, at, Set(w, i, v)), at, f, next)
      && Plain(code, fuel, env, w.name, f, seen) == Plain(code, fuel - 1, env', w.name, f, next)
      && Proper(code, fuel - 1, env', Path(s.frames, at), Busy(s.frames), f, next)
  {
    assert Hosted(s.frames) && s.records.Keys == env.Keys && s.frames[at].globals == env[s.frames[at].name];
    hide Shows, Current, Path, Hosted, Busy, Alike;
  }

  lemma OnBadWrite(code: Code, fuel: nat, s: State, at: nat, env: Globals, f: nat, seen: seq<Seen>, i: nat, v: Value)
    requires at < |s.frames| && Shows(s, env) && Current(s, env, at)
        && Proper(code, fuel, env, Path(s.frames, at), Busy(s.frames), f, seen)
    requires fuel > 0 && code.Next(s.frames[at].name, f, seen) == Write(i, v) && i >= |s.frames[at].globals|
    ensures
      var w, next := s.frames[at], seen + [Answer(Fault)];
      && Run(code, fuel, s, at, f, seen) == Run(code, fuel - 1, s, at, f, next)
      && Plain(code, fuel, env, w.name, f, seen) == Plain(code, fuel - 1, env, w.name, f, next)
      && Proper(code, fuel - 1, env, Path(s.frames, at), Busy(s.frames), f, next)
  {
    assert Hosted(s.frames) && s.records.Keys == env.Keys && s.frames[at].globals == env[s.frames[at].name];
    hide Shows, Current, Path, Hosted, Busy, Alike;
  }

  lemma OnEscape(code: Code, fuel: nat, s: State, at: nat, env: Globals, f: nat, seen: seq<Seen>)
    requires at < |s.frames| && Shows(s, env) && Current(s, env, at)
        && Proper(code, fuel, env, Path(s.frames, at), Busy(s.frames), f, seen)
    requires fuel > 0 && code.Next(s.frames[at].name, f, seen) == Escape
    ensures
      var w, next := s.frames[at], seen + [Done];
      && Run(code, fuel, s, at, f, seen) == Run(code, fuel - 1, Put(s, at, Leak(w)), at, f, next)
      && Plain(code, fuel, env, w.name, f, seen) == Plain(code, fuel - 1, env, w.name, f, next)
      && Proper(code, fuel - 1, env, Path(s.frames, at), Busy(s.frames), f, next)
  {
    assert Hosted(s.frames) && s.records.Keys == env.Keys && s.frames[at].globals == env[s.frames[at].name];
    hide Shows, Current, Path, Hosted, Busy, Alike;
  }

  lemma OnBadInvoke(code: Code, fuel: nat, s: State, at: nat, env: Globals, f: nat, seen: seq<Seen>, t: Module,
          g: nat, a: Value)
    requires at < |s.frames| && Shows(s, env) && Current(s, env, at)
        && Proper(code, fuel, env, Path(s.frames, at), Busy(s.frames), f, seen)
    requires fuel > 0 && code.Next(s.frames[at].name, f, seen) == Invoke(t, g, a) && t !in env
    ensures
      var w, next := s.frames[at], seen + [Answer(Fault)];
      && Run(code, fuel, s, at, f, seen) == Run(code, fuel - 1, s, at, f, next)
      && Plain(code, fuel, env, w.name, f, seen) == Plain(code, fuel - 1, env, w.name, f, next)
      && Proper(code, fuel - 1, env, Path(s.frames, at), Busy(s.frames), f, next)
  {
    assert Hosted(s.frames) && s.records.Keys == env.Keys && s.frames[at].globals == env[s.frames[at].name];
    hide Shows, Current, Path, Hosted, Busy, Alike;
  }

  lemma OnInvoke(code: Code, fuel: nat, s: State, at: nat, env: Globals, f: nat, seen: seq<Seen>, t: Module, g: nat,
          a: Value)
    requires at < |s.frames| && Shows(s, env) && Current(s, env, at)
        && Proper(code, fuel, env, Path(s.frames, at), Busy(s.frames), f, seen)
    requires fuel > 0 && code.Next(s.frames[at].name, f, seen) == Invoke(t, g, a) && t in env && t in s.records
    ensures
      var w := s.frames[at];
      var r, p := Call(code, fuel - 1, s, at, t, g, a), Plain(code, fuel - 1, env, t, g, [Argument(a)]);
      && ProperCall(code, fuel - 1, env, Path(s.frames, at), Busy(s.frames), t, g, a)
      && Run(code, fuel, s, at, f, seen) ==
          (if r.0.Unfinished? then r else Run(code, fuel - 1, r.1, at, f, seen + [Answer(r.0)]))
      && Plain(code, fuel, env, w.name, f, seen) ==
          (if p.0.Unfinished? then p else Plain(code, fuel - 1, p.1, w.name, f, seen + [Answer(p.0)]))
      && (p.0.Unfinished? || Proper(code, fuel - 1, p.1, Path(s.frames, at), Busy(s.frames), f, seen + [Answer(p.0)]))
  {
    assert Hosted(s.frames) && s.records.Keys == env.Keys && s.frames[at].globals == env[s.frames[at].name];
    hide Shows, Current, Path, Hosted, Busy, Alike;
  }

  lemma {:induction false} CallRefines(code: Code, fuel: nat, s: State, at: int, env: Globals, t: Module, g: nat,
          a: Value)
    requires -1 <= at < |s.frames| && t in env && Shows(s, env)
        && ProperCall(code, fuel, env, Path(s.frames, at), Busy(s.frames), t, g, a)
    ensures
      var r, p := Call(code, fuel, s, at, t, g, a), Plain(code, fuel, env, t, g, [Argument(a)]);
      r.0 == p.0 && Shows(r.1, p.1)
    decreases fuel, 1
  {
    LenderFinds(s.frames, at, t, MAX_HOSTS);
    var k := Lender(s.frames, at, t, MAX_HOSTS);
    if k >= 0 {
      StillCurrent(s, env, k);
      RunRefines(code, fuel, s, k, env, g, [Argument(a)]);
    } else {
      var s1 := Start(s, at, t);
      StartShows(s, at, env, t);
      StillCurrent(s1, env, |s.frames|);
      RunRefines(code, fuel, s1, |s.frames|, env, g, [Argument(a)]);
      FinishShows(Run(code, fuel, s1, |s.frames|, g, [Argument(a)]).1, Plain(code, fuel, env, t, g, [Argument(a)]).1);
    }
  }

  lemma {:induction false} SamePaths(a: seq<Frame>, b: seq<Frame>, at: int)
    requires Alike(a, b) && Hosted(a) && at < |a|
    ensures Hosted(b) && Path(a, at) == Path(b, at) && Busy(a) == Busy(b)
    decreases at + 1
  {
    forall i | 0 <= i < |b| ensures b[i].host < i { assert a[i].host == b[i].host; }
    if at >= 0 { SamePaths(a, b, a[at].host); }
    forall m | m in Busy(a) ensures m in Busy(b) { var i :| 0 <= i < |a| && a[i].name == m; assert b[i].name == m; }
    forall m | m in Busy(b) ensures m in Busy(a) { var i :| 0 <= i < |b| && b[i].name == m; assert a[i].name == m; }
  }

  lemma {:induction false} LenderFinds(frames: seq<Frame>, at: int, t: Module, n: nat)
    requires Hosted(frames) && at < |frames|
    ensures
      var i, k := Lender(frames, at, t, n), Find(Path(frames, at), t, n);
      if i < 0 then k < 0 else k >= 0 && Path(frames, i) == Path(frames, at)[k..]
    decreases n
  {
    hide Lender, Find, Path;
    LenderIs(frames, at, t, n);
    PathIs(frames, at);
    FindIs(Path(frames, at), t, n);
    if n > 0 && at >= 0 && frames[at].name != t {
      LenderFinds(frames, frames[at].host, t, n - 1);
      Beyond(Path(frames, at), Find(Path(frames, frames[at].host), t, n - 1));
    }
  }

  lemma LenderIs(frames: seq<Frame>, at: int, t: Module, n: nat)
    ensures
      Lender(frames, at, t, n) ==
      if n == 0 || !(0 <= at < |frames|) then -1 else if frames[at].name == t then at
          else Lender(frames, frames[at].host, t, n - 1)
  {}

  lemma PathIs(frames: seq<Frame>, at: int)
    requires Hosted(frames) && at < |frames|
    ensures at < 0 ==> Path(frames, at) == []
    ensures at >= 0 ==> frames[at].host < at && Path(frames, at) == [frames[at].name] + Path(frames, frames[at].host)
    ensures at >= 0 ==> Path(frames, at)[0] == frames[at].name && Path(frames, at)[1..] == Path(frames, frames[at].host)
  {}

  lemma FindIs(path: seq<Module>, t: Module, n: nat)
    ensures
      Find(path, t, n) ==
      if n == 0 || path == [] then -1 else if path[0] == t then 0 else var k := Find(path[1..], t, n - 1);
          if k < 0 then -1 else k + 1
  {}

  lemma Beyond(path: seq<Module>, k: int)
    requires |path| > 0 && k < |path|
    ensures k >= 0 ==> path[1..][k..] == path[k + 1..]
  {}

  lemma WriteShows(s: State, at: nat, env: Globals, i: nat, v: Value)
    requires at < |s.frames| && Shows(s, env) && Current(s, env, at) && i < |s.frames[at].globals|
    ensures
      var w := s.frames[at];
      var s' := Put(s, at, Set(w, i, v));
      && Shows(s', env[w.name := env[w.name][i := v]])
      && Path(s'.frames, at) == Path(s.frames, at) && Busy(s'.frames) == Busy(s.frames)
      && Current(s', env[w.name := env[w.name][i := v]], at) && s'.frames[at].name == w.name
  {
    hide Path, Busy;
    var w := s.frames[at];
    var s' := Put(s, at, Set(w, i, v));
    var env' := env[w.name := env[w.name][i := v]];
    SamePaths(s.frames, s'.frames, at);
    BusyAt(s.frames, at);
    assert Distinct(s'.frames);
    forall j | 0 <= j < |s'.frames| ensures Current(s', env', j) {
      assert Current(s, env, j);
    }
  }

  lemma EscapeShows(s: State, at: nat, env: Globals)
    requires at < |s.frames| && Shows(s, env)
    ensures
      var w := s.frames[at];
      var s' := Put(s, at, Leak(w));
      Shows(s', env) && Path(s'.frames, at) == Path(s.frames, at) && Busy(s'.frames) == Busy(s.frames)
          && Current(s', env, at) && s'.frames[at].name == w.name
  {
    hide Path, Busy;
    var w := s.frames[at];
    var s' := Put(s, at, Leak(w));
    SamePaths(s.frames, s'.frames, at);
    assert Distinct(s'.frames);
    forall j | 0 <= j < |s'.frames| ensures Current(s', env, j) {
      assert Current(s, env, j);
    }
  }

  lemma BusyAt(frames: seq<Frame>, i: nat)
    requires i < |frames|
    ensures frames[i].name in Busy(frames)
  {}

  lemma StartShows(s: State, at: int, env: Globals, t: Module)
    requires -1 <= at < |s.frames| && t in env && Shows(s, env) && t !in Busy(s.frames)
    ensures
      var s' := Start(s, at, t);
      Shows(s', env) && Path(s'.frames, |s.frames|) == [t] + Path(s.frames, at)
          && Busy(s'.frames) == Busy(s.frames) + {t}
  {
    var s' := Start(s, at, t);
    var n := |s.frames|;
    assert Hosted(s'.frames);
    MorePaths(s.frames, s'.frames, at);
    BusyMore(s.frames, s'.frames[n]);
    hide Path, Busy;
    forall i | 0 <= i < n ensures s'.frames[i].name != t { BusyAt(s.frames, i); }
    assert Distinct(s'.frames);
    forall i | 0 <= i <= n ensures Current(s', env, i) {
      if i < n { assert Current(s, env, i); }
    }
  }

  lemma BusyMore(frames: seq<Frame>, w: Frame)
    ensures Busy(frames + [w]) == Busy(frames) + {w.name}
  {
    var more := frames + [w];
    forall m | m in Busy(frames) + {w.name} ensures m in Busy(more) {
      if m == w.name {
        assert more[|frames|].name == m;
      } else {
        var i :| 0 <= i < |frames| && frames[i].name == m;
        assert more[i].name == m;
      }
    }
  }

  lemma {:induction false} MorePaths(a: seq<Frame>, b: seq<Frame>, at: int)
    requires Hosted(a) && Hosted(b) && at < |a| && a <= b
    ensures Path(a, at) == Path(b, at)
    decreases at + 1
  {
    if at >= 0 { MorePaths(a, b, a[at].host); }
  }

  lemma FinishShows(s: State, env: Globals)
    requires |s.frames| > 0 && Shows(s, env)
    ensures Shows(Finish(s), env)
  {
    var n := |s.frames| - 1;
    var last := s.frames[n];
    var s' := Finish(s);
    assert Current(s, env, n);
    assert s'.frames + [last] == s.frames;
    BusyMore(s'.frames, last);
    hide Busy;
    assert Merged(s.records[last.name], last.globals, last.dirty) == last.globals;
    assert Hosted(s'.frames) && Distinct(s'.frames);
    forall i | 0 <= i < n ensures Current(s', env, i) {
      assert Current(s, env, i);
    }
  }

  // ----- which worker is borrowed

  /** The positions of a worker and of its hosts, nearest first. */
  ghost function Ups(frames: seq<Frame>, at: int): (ups: seq<nat>)
    ensures forall i :: 0 <= i < |ups| ==> ups[i] < |frames|
    decreases if at < 0 then 0 else at + 1
  {
    if 0 <= at < |frames| then [at] + (if frames[at].host < at then Ups(frames, frames[at].host) else []) else []
  }

  /** The i-th of them is the nearest worker of module t. */
  ghost predicate Nearest(frames: seq<Frame>, at: int, t: Module, i: nat) {
    var ups := Ups(frames, at);
    i < |ups| && frames[ups[i]].name == t && forall j :: 0 <= j < i ==> frames[ups[j]].name != t
  }

  /** None of the first n of them is a worker of module t. */
  ghost predicate NoneNear(frames: seq<Frame>, at: int, t: Module, n: nat) {
    var ups := Ups(frames, at);
    forall i :: 0 <= i < n && i < |ups| ==> frames[ups[i]].name != t
  }

  lemma {:induction false} Lends(frames: seq<Frame>, at: int, t: Module, n: nat) returns (i: nat)
    requires Hosted(frames) && at < |frames|
    ensures
      var k := Lender(frames, at, t, n);
      if k < 0 then NoneNear(frames, at, t, n) else i < n && Nearest(frames, at, t, i) && Ups(frames, at)[i] == k
    decreases n
  {
    hide Nearest, NoneNear, Ups;
    i := 0;
    if n == 0 || at < 0 {
      NothingNear(frames, at, t, n);
    } else if frames[at].name == t {
      Here(frames, at, t);
    } else {
      i := Lends(frames, frames[at].host, t, n - 1);
      OneOn(frames, at, t, n - 1, i);
      i := i + 1;
    }
  }

  lemma NothingNear(frames: seq<Frame>, at: int, t: Module, n: nat)
    requires n == 0 || at < 0
    ensures NoneNear(frames, at, t, n)
  {}

  lemma Here(frames: seq<Frame>, at: int, t: Module)
    requires 0 <= at < |frames| && frames[at].name == t
    ensures Nearest(frames, at, t, 0) && Ups(frames, at)[0] == at
  {}

  lemma OneOn(frames: seq<Frame>, at: int, t: Module, n: nat, i: nat)
    requires 0 <= at < |frames| && frames[at].name != t && frames[at].host < at
    ensures NoneNear(frames, frames[at].host, t, n) ==> NoneNear(frames, at, t, n + 1)
    ensures Nearest(frames, frames[at].host, t, i) ==>
              Nearest(frames, at, t, i + 1) && Ups(frames, at)[i + 1] == Ups(frames, frames[at].host)[i]
  {
    assert Ups(frames, at) == [at] + Ups(frames, frames[at].host);
  }

  lemma OneNearest(frames: seq<Frame>, at: int, t: Module, i: nat, j: nat)
    requires Nearest(frames, at, t, i) && Nearest(frames, at, t, j)
    ensures i == j
  {}

  /** A call runs on the nearest worker of its module among the first 4097 of the caller and
      its hosts; it starts a new one when the nearest is farther away, or there is none. */
  lemma NearestHost(code: Code, fuel: nat, s: State, at: int, t: Module, g: nat, a: Value, i: nat)
    requires Hosted(s.frames) && at < |s.frames| && t in s.records
    ensures Nearest(s.frames, at, t, i) && i < 4097 ==>
              Call(code, fuel, s, at, t, g, a) == Run(code, fuel, s, Ups(s.frames, at)[i], g, [Argument(a)])
    ensures (Nearest(s.frames, at, t, i) && i >= 4097) || NoneNear(s.frames, at, t, |s.frames|) ==>
              var r := Run(code, fuel, Start(s, at, t), |s.frames|, g, [Argument(a)]);
              Call(code, fuel, s, at, t, g, a) == (r.0, Finish(r.1))
  {
    hide Run, Ups, Start, Finish;
    var j := Lends(s.frames, at, t, MAX_HOSTS);
    UpsFit(s.frames, at);
    if Nearest(s.frames, at, t, i) && Nearest(s.frames, at, t, j) { OneNearest(s.frames, at, t, i, j); }
  }

  lemma {:induction false} UpsFit(frames: seq<Frame>, at: int)
    requires Hosted(frames) && at < |frames|
    ensures |Ups(frames, at)| <= if at < 0 then 0 else at + 1
    decreases at + 1
  {
    if at >= 0 { UpsFit(frames, frames[at].host); }
  }

  /** So with at most 4097 workers at work every module among the caller and its hosts gets the
      nearest of them. */
  lemma ShallowBorrows(code: Code, fuel: nat, s: State, at: int, t: Module, g: nat, a: Value, i: nat)
    requires Hosted(s.frames) && at < |s.frames| <= 4097 && t in s.records && Nearest(s.frames, at, t, i)
    ensures Call(code, fuel, s, at, t, g, a) == Run(code, fuel, s, Ups(s.frames, at)[i], g, [Argument(a)])
  {
    hide Run, Call, Ups;
    UpsFit(s.frames, at);
    NearestHost(code, fuel, s, at, t, g, a, i);
  }

  // ----- what a function sees

  /** A slot that has been written reads as what was written, any other as what it was; what is
      beyond the module's slots is a fault. */
  lemma WrittenRead(code: Code, env: Globals, m: Module, f: nat, seen: seq<Seen>, i: nat, v: Value, j: nat)
    requires m in env && i < |env[m]|
    requires code.Next(m, f, seen) == Write(i, v) && code.Next(m, f, seen + [Done]) == Read(j)
    requires forall x :: code.Next(m, f, seen + [Done] + [Global(x)]) == Return(x)
    requires forall x :: code.Next(m, f, seen + [Done] + [Answer(x)]) == Throw(-1)
    ensures
      var r := Plain(code, 3, env, m, f, seen);
      && r.0 == (if j == i then Returned(v) else if j < |env[m]| then Returned(env[m][j]) else Thrown(-1))
      && r.1 == env[m := env[m][i := v]]
  {
    var env1 := env[m := env[m][i := v]];
    assert Plain(code, 3, env, m, f, seen) == Plain(code, 2, env1, m, f, seen + [Done]);
    assert Plain(code, 2, env1, m, f, seen + [Done]) ==
           Plain(code, 1, env1, m, f, seen + [Done] + [Look(env1[m], j)]);
  }

  /** A closure that is handed out is counted on the worker that it captures. */
  lemma EscapeCounted(code: Code, s: State, at: nat, f: nat, seen: seq<Seen>, v: Value)
    requires at < |s.frames| && code.Next(s.frames[at].name, f, seen) == Escape
    requires code.Next(s.frames[at].name, f, seen + [Done]) == Return(v)
    ensures
      var r := Run(code, 2, s, at, f, seen);
      && r.0 == Returned(v) && r.1.records == s.records && |r.1.frames| == |s.frames|
      && r.1.frames[at].escaped == s.frames[at].escaped + 1 && r.1.frames[at].globals == s.frames[at].globals
  {
    assert Run(code, 2, s, at, f, seen) == Run(code, 1, Put(s, at, Leak(s.frames[at])), at, f, seen + [Done]);
  }

  /** a.0 calls b.0, b.0 calls c.0, c.0 calls a.1, which writes 7; then a.0 reads. */
  function Ring(m: Module, f: nat, seen: seq<Seen>): Action {
    if m == "a" && f == 0 then
      if |seen| == 1 then Invoke("b", 0, 0) else if |seen| == 2 then Read(0)
          else if |seen| == 3 && seen[2].Global? then Return(seen[2].v) else Return(-1)
    else if |seen| > 1 then Return(0)
    else if m == "a" then Write(0, 7)
    else Invoke(if m == "b" then "c" else "a", if m == "b" then 0 else 1, 0)
  }

  /** An input that comes back to its module three modules deep: the worker is lent, and the
      outer function reads what the inner one has written. */
  lemma RingLent()
    ensures
      var code, records := Code(Ring), map["a" := [0], "b" := [], "c" := []];
      && Call(code, 6, State(records, []), -1, "a", 0, 0) == (Returned(7), State(records["a" := [7]], []))
      && Plain(code, 6, records, "a", 0, [Argument(0)]) == (Returned(7), records["a" := [7]])
  {
    var code, records := Code(Ring), map["a" := [0], "b" := [], "c" := []];
    RingPlain(code, records);
    RingProper(code, records);
    OneLiveEnvironment(code, 6, records, "a", 0, 0);
  }

  lemma RingPlain(code: Code, records: Globals)
    requires code == Code(Ring) && records == map["a" := [0], "b" := [], "c" := []]
    ensures
      var env := records["a" := [7]];
      && Plain(code, 3, records, "a", 1, [Argument(0)]) == (Returned(0), env)
      && Plain(code, 4, records, "c", 0, [Argument(0)]) == (Returned(0), env)
      && Plain(code, 5, records, "b", 0, [Argument(0)]) == (Returned(0), env)
      && Plain(code, 6, records, "a", 0, [Argument(0)]) == (Returned(7), env)
  {
    var env := records["a" := [7]];
    assert [0][0 := 7] == [7] && records["a" := records["a"][0 := 7]] == env;
    assert Plain(code, 2, env, "a", 1, [Argument(0)] + [Done]) == (Returned(0), env);
    assert Plain(code, 3, records, "a", 1, [Argument(0)]) == (Returned(0), env);
    assert Plain(code, 3, env, "c", 0, [Argument(0)] + [Answer(Returned(0))]) == (Returned(0), env);
    assert Plain(code, 4, records, "c", 0, [Argument(0)]) == (Returned(0), env);
    assert Plain(code, 4, env, "b", 0, [Argument(0)] + [Answer(Returned(0))]) == (Returned(0), env);
    assert Plain(code, 5, records, "b", 0, [Argument(0)]) == (Returned(0), env);
    var seen := [Argument(0)] + [Answer(Returned(0))];
    assert Plain(code, 4, env, "a", 0, seen + [Global(7)]) == (Returned(7), env);
    assert Plain(code, 5, env, "a", 0, seen) == (Returned(7), env);
  }

  lemma RingProper(code: Code, records: Globals)
    requires code == Code(Ring) && records == map["a" := [0], "b" := [], "c" := []]
    ensures ProperCall(code, 6, records, [], {}, "a", 0, 0)
  {
    hide Plain, Proper, ProperCall;
    RingInner(code, records);
    RingOuter(code, records);
    assert ["a"] + [] == ["a"] && {} + {"a"} == {"a"};
    ProperIs(code, 6, records, [], {}, "a", 0, 0);
  }

  /** A call of a module that is not at work. */
  lemma ProperIs(code: Code, fuel: nat, env: Globals, path: seq<Module>, busy: set<Module>, t: Module, g: nat, a: Value)
    requires t in env && t !in busy && (forall i :: 0 <= i < |path| ==> path[i] != t)
    requires Proper(code, fuel, env, [t] + path, busy + {t}, g, [Argument(a)])
    ensures ProperCall(code, fuel, env, path, busy, t, g, a)
  {
    hide Proper;
    assert Find(path, t, MAX_HOSTS) < 0;
  }

  lemma RingInner(code: Code, records: Globals)
    requires code == Code(Ring) && records == map["a" := [0], "b" := [], "c" := []]
    ensures Proper(code, 4, records, ["c", "b", "a"], {"a", "b", "c"}, 0, [Argument(0)])
  {
    hide Plain;
    RingPlain(code, records);
    var env, pa, pc, all := records["a" := [7]], ["a"], ["c", "b", "a"], {"a", "b", "c"};
    assert records["a" := records["a"][0 := 7]] == env by { assert [0][0 := 7] == [7]; }
    assert pc[2..] == pa && Find(pc, "a", MAX_HOSTS) == 2 by { RingFound(); }
    assert Proper(code, 2, env, pa, all, 1, [Argument(0)] + [Done]);
    assert Proper(code, 3, records, pa, all, 1, [Argument(0)]);
    assert ProperCall(code, 3, records, pc, all, "a", 1, 0);
    assert Proper(code, 3, env, pc, all, 0, [Argument(0)] + [Answer(Returned(0))]);
  }

  lemma RingFound()
    ensures Find(["c", "b", "a"], "a", MAX_HOSTS) == 2 && ["c", "b", "a"][2..] == ["a"]
  {
    assert ["c", "b", "a"][1..] == ["b", "a"] && ["b", "a"][1..] == ["a"];
    assert Find(["a"], "a", MAX_HOSTS - 2) == 0 && Find(["b", "a"], "a", MAX_HOSTS - 1) == 1;
  }

  lemma RingOuter(code: Code, records: Globals)
    requires code == Code(Ring) && records == map["a" := [0], "b" := [], "c" := []]
    requires Proper(code, 4, records, ["c", "b", "a"], {"a", "b", "c"}, 0, [Argument(0)])
    ensures Proper(code, 6, records, ["a"], {"a"}, 0, [Argument(0)])
  {
    hide Plain, ProperCall;
    RingPlain(code, records);
    var env, pa, pb, pc := records["a" := [7]], ["a"], ["b", "a"], ["c", "b", "a"];
    var on := [Argument(0)] + [Answer(Returned(0))];
    assert ["c"] + pb == pc && {"a", "b"} + {"c"} == {"a", "b", "c"};
    ProperIs(code, 4, records, pb, {"a", "b"}, "c", 0, 0);
    assert Proper(code, 4, env, pb, {"a", "b"}, 0, on);
    assert Proper(code, 5, records, pb, {"a", "b"}, 0, [Argument(0)]);
    assert ["b"] + pa == pb && {"a"} + {"b"} == {"a", "b"};
    ProperIs(code, 5, records, pa, {"a"}, "b", 0, 0);
    assert Proper(code, 4, env, pa, {"a"}, 0, on + [Global(7)]);
    assert Proper(code, 5, env, pa, {"a"}, 0, on);
  }

  // ----- without the proviso

  /** m.0 calls n.0, n.0 calls m.1, m.1 calls n.1, which writes 7; then n.0 reads. */
  function Detour(m: Module, f: nat, seen: seq<Seen>): Action {
    if m == "m" && f == 0 then
      if |seen| == 1 then Invoke("n", 0, 0) else if |seen| == 2 && seen[1].Answer? && seen[1].out.Returned?
          then Return(seen[1].out.v) else Return(-1)
    else if m == "n" && f == 0 then
      if |seen| == 1 then Invoke("m", 1, 0) else if |seen| == 2 then Read(0)
          else if |seen| == 3 && seen[2].Global? then Return(seen[2].v) else Return(-1)
    else if m == "m" && f == 1 then
      if |seen| == 1 then Invoke("n", 1, 0) else Return(0)
    else
      if |seen| == 1 then Write(0, 7) else Return(0)
  }

  /** The proviso is needed. A worker lent for a re-entry keeps the hosts it was started
      with, so a module that calls back through it is not among them, and gets a second
      worker, whose writes the first one does not see. */
  lemma SecondWorker()
    ensures
      var code, records := Code(Detour), map["m" := [], "n" := [0]];
      && !ProperCall(code, 6, records, [], {}, "m", 0, 0)
      && Plain(code, 6, records, "m", 0, [Argument(0)]).0 == Returned(7)
      && Call(code, 6, State(records, []), -1, "m", 0, 0) == (Returned(0), State(records["n" := [7]], []))
  {
    hide Plain, Call, ProperCall, Detour;
    var code, records := Code(Detour), map["m" := [], "n" := [0]];
    DetourPlain(code, records);
    DetourCall(code, records);
    DetourImproper(code, records);
  }

  lemma DetourPlain(code: Code, records: Globals)
    requires code == Code(Detour) && records == map["m" := [], "n" := [0]]
    ensures Plain(code, 6, records, "m", 0, [Argument(0)]).0 == Returned(7)
  {
    var env := records["n" := [7]];
    assert [0][0 := 7] == [7] && records["n" := records["n"][0 := 7]] == env;
    assert Plain(code, 3, records, "n", 1, [Argument(0)]) == (Returned(0), env) by {
      assert Plain(code, 2, env, "n", 1, [Argument(0), Done]) == (Returned(0), env);
      assert [Argument(0)] + [Done] == [Argument(0), Done];
    }
    assert Plain(code, 4, records, "m", 1, [Argument(0)]) == (Returned(0), env) by {
      assert [Argument(0)] + [Answer(Returned(0))] == [Argument(0), Answer(Returned(0))];
      assert Plain(code, 3, env, "m", 1, [Argument(0), Answer(Returned(0))]) == (Returned(0), env);
    }
    assert Plain(code, 5, records, "n", 0, [Argument(0)]) == (Returned(7), env) by {
      var seen := [Argument(0), Answer(Returned(0))];
      assert [Argument(0)] + [Answer(Returned(0))] == seen;
      assert seen + [Global(7)] == [Argument(0), Answer(Returned(0)), Global(7)];
      assert Plain(code, 3, env, "n", 0, seen + [Global(7)]) == (Returned(7), env);
      assert Plain(code, 4, env, "n", 0, seen) == (Returned(7), env);
    }
    assert Plain(code, 5, env, "m", 0, [Argument(0)] + [Answer(Returned(7))]) == (Returned(7), env);
  }

  /** One step of a run or a call, as an equation. */
  lemma InvokeStep(code: Code, fuel: nat, s: State, at: nat, f: nat, seen: seq<Seen>, t: Module, g: nat, a: Value,
          r: (Outcome, State))
    requires fuel > 0 && at < |s.frames| && t in s.records && code.Next(s.frames[at].name, f, seen) == Invoke(t, g, a)
    requires Call(code, fuel - 1, s, at, t, g, a) == r && !r.0.Unfinished?
    ensures |r.1.frames| == |s.frames|
        && Run(code, fuel, s, at, f, seen) == Run(code, fuel - 1, r.1, at, f, seen + [Answer(r.0)])
  {}

  lemma ReadStep(code: Code, fuel: nat, s: State, at: nat, f: nat, seen: seq<Seen>, i: nat)
    requires fuel > 0 && at < |s.frames| && code.Next(s.frames[at].name, f, seen) == Read(i)
    ensures Run(code, fuel, s, at, f, seen) == Run(code, fuel - 1, s, at, f, seen + [Look(s.frames[at].globals, i)])
  {}

  lemma WriteStep(code: Code, fuel: nat, s: State, at: nat, f: nat, seen: seq<Seen>, i: nat, v: Value)
    requires fuel > 0 && at < |s.frames| && code.Next(s.frames[at].name, f, seen) == Write(i, v)
        && i < |s.frames[at].globals|
    ensures Run(code, fuel, s, at, f, seen) ==
        Run(code, fuel - 1, Put(s, at, Set(s.frames[at], i, v)), at, f, seen + [Done])
  {}

  lemma ReturnStep(code: Code, fuel: nat, s: State, at: nat, f: nat, seen: seq<Seen>, v: Value)
    requires fuel > 0 && at < |s.frames| && code.Next(s.frames[at].name, f, seen) == Return(v)
    ensures Run(code, fuel, s, at, f, seen) == (Returned(v), s)
  {}

  lemma LentStep(code: Code, fuel: nat, s: State, at: int, t: Module, g: nat, a: Value)
    requires at < |s.frames| && t in s.records && Lender(s.frames, at, t, MAX_HOSTS) >= 0
    ensures Call(code, fuel, s, at, t, g, a) == Run(code, fuel, s, Lender(s.frames, at, t, MAX_HOSTS), g, [Argument(a)])
  {}

  lemma StartStep(code: Code, fuel: nat, s: State, at: int, t: Module, g: nat, a: Value)
    requires at < |s.frames| && t in s.records && Lender(s.frames, at, t, MAX_HOSTS) < 0
    ensures
      var r := Run(code, fuel, Start(s, at, t), |s.frames|, g, [Argument(a)]);
      Call(code, fuel, s, at, t, g, a) == (r.0, Finish(r.1))
  {}

  lemma DetourCall(code: Code, records: Globals)
    requires code == Code(Detour) && records == map["m" := [], "n" := [0]]
    ensures Call(code, 6, State(records, []), -1, "m", 0, 0) == (Returned(0), State(records["n" := [7]], []))
  {
    hide Run, Call, Lender, Finish;
    DetourBack(records["n" := [7]]);
    var s0, s1, s2 := State(records, []), State(records, [M()]), State(records, [M(), N()]);
    DetourLenders();
    assert Start(s0, -1, "m") == s1 && Start(s1, 0, "n") == s2;
    DetourMiddle(code, records);
    var r := Run(code, 5, s2, 1, 0, [Argument(0)]);
    var back := State(records["n" := [7]], [M()]);
    StartStep(code, 5, s1, 0, "n", 0, 0);
    StartStep(code, 6, s0, -1, "m", 0, 0);
    InvokeStep(code, 6, s1, 0, 0, [Argument(0)], "n", 0, 0, (r.0, back));
    ReturnStep(code, 5, back, 0, 0, [Argument(0)] + [Answer(Returned(0))], 0);
  }

  lemma DetourBack(records: Globals)
    requires records == map["m" := [], "n" := [7]]
    ensures Finish(State(records, [M(), N()])) == State(records, [M()])
    ensures Finish(State(records, [M()])) == State(records, [])
  {
    assert Merged([7], [0], []) == [7] && [M(), N()][..1] == [M()];
    assert Merged([], [], []) == [] && [M()][..0] == [];
    assert records["m" := []] == records && records["n" := [7]] == records;
  }

  function M(): Frame { Frame("m", [], [], -1, 0) }

  function N(): Frame { Frame("n", [0], [], 0, 0) }

  /** From n.0 the worker of m is lent; from there no worker of n is seen. */
  lemma DetourLenders()
    ensures Lender([], -1, "m", MAX_HOSTS) == -1
    ensures Lender([M()], 0, "n", MAX_HOSTS) == -1
    ensures Lender([M(), N()], 1, "m", MAX_HOSTS) == 0
    ensures Lender([M(), N()], 0, "n", MAX_HOSTS) == -1
  {
    assert Lender([M(), N()], 0, "m", MAX_HOSTS - 1) == 0;
  }

  /** m.1 runs on the lent worker, and n.0 goes on with its own copy. */
  lemma DetourMiddle(code: Code, records: Globals)
    requires code == Code(Detour) && records == map["m" := [], "n" := [0]]
    ensures Run(code, 5, State(records, [M(), N()]), 1, 0, [Argument(0)]) ==
        (Returned(0), State(records["n" := [7]], [M(), N()]))
  {
    hide Run, Call, Lender;
    var s2, s5 := State(records, [M(), N()]), State(records["n" := [7]], [M(), N()]);
    var seen := [Argument(0)] + [Answer(Returned(0))];
    DetourLenders();
    DetourInnermost(code, records);
    InvokeStep(code, 4, s2, 0, 1, [Argument(0)], "n", 1, 0, (Returned(0), s5));
    ReturnStep(code, 3, s5, 0, 1, seen, 0);
    LentStep(code, 4, s2, 1, "m", 1, 0);
    InvokeStep(code, 5, s2, 1, 0, [Argument(0)], "m", 1, 0, (Returned(0), s5));
    ReadStep(code, 4, s5, 1, 0, seen, 0);
    ReturnStep(code, 3, s5, 1, 0, seen + [Global(0)], 0);
  }

  /** n.1 runs on the second worker, and writes back. */
  lemma DetourInnermost(code: Code, records: Globals)
    requires code == Code(Detour) && records == map["m" := [], "n" := [0]]
    ensures Call(code, 3, State(records, [M(), N()]), 0, "n", 1, 0) ==
        (Returned(0), State(records["n" := [7]], [M(), N()]))
  {
    hide Run, Call, Lender;
    var s2, s3 := State(records, [M(), N()]), State(records, [M(), N(), N()]);
    var s4 := State(records, [M(), N(), Frame("n", [7], [0], 0, 0)]);
    DetourLenders();
    assert Start(s2, 0, "n") == s3;
    StartStep(code, 3, s2, 0, "n", 1, 0);
    assert [0][0 := 7] == [7] && [] + [0] == [0] && Set(N(), 0, 7) == Frame("n", [7], [0], 0, 0);
    assert Put(s3, 2, Set(N(), 0, 7)).frames == s4.frames;
    WriteStep(code, 3, s3, 2, 1, [Argument(0)], 0, 7);
    ReturnStep(code, 2, s4, 2, 1, [Argument(0)] + [Done], 0);
    assert Merged([0], [7], [0]) == [7];
    assert s4.frames[..2] == s2.frames;
  }

  lemma DetourImproper(code: Code, records: Globals)
    requires code == Code(Detour) && records == map["m" := [], "n" := [0]]
    ensures !ProperCall(code, 6, records, [], {}, "m", 0, 0)
  {
    assert ["m"] + [] == ["m"] && {} + {"m"} == {"m"} && ["n"] + ["m"] == ["n", "m"] && {"m"} + {"n"} == {"m", "n"};
    assert Find(["n", "m"], "m", MAX_HOSTS) == 1 by { assert ["n", "m"][1..] == ["m"]; }
    assert ["n", "m"][1..] == ["m"];
    assert Find(["m"], "n", MAX_HOSTS) == -1;
    assert !ProperCall(code, 3, records, ["m"], {"m", "n"}, "n", 1, 0);
    assert !Proper(code, 4, records, ["m"], {"m", "n"}, 1, [Argument(0)]);
    assert !ProperCall(code, 4, records, ["n", "m"], {"m", "n"}, "m", 1, 0);
    assert !Proper(code, 5, records, ["n", "m"], {"m", "n"}, 0, [Argument(0)]);
    assert !ProperCall(code, 5, records, ["m"], {"m"}, "n", 0, 0);
    assert !Proper(code, 6, records, ["m"], {"m"}, 0, [Argument(0)]);
  }
}
