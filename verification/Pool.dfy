/** The loader's worker virtual machines as objects: borrowed from a host, taken from a
    module's pool or made, written back, and pooled again. */
module Pool {
  import opened Workers

  const MAX_POOLED := 256

  class Worker {
    const name: Module
    var globals: seq<Value>
    var dirty: seq<nat>
    var host: Worker?
    var active: bool
    var depth: int
    var escaped: nat
    /** Its position, and its host's, among the workers at work. */
    ghost var at: int
    ghost var hostAt: int

    constructor (m: Module)
      ensures name == m && Resting() && depth == 0
    {
      name, globals, dirty, host, active, depth, escaped := m, [], [], null, false, 0, 0;
    }

    /** Nothing of its last call is left. */
    ghost predicate Resting()
      reads this
    {
      !active && host == null && dirty == [] && escaped == 0
    }

    ghost function Shown(): Frame
      reads this
    {
      Frame(name, globals, dirty, hostAt, escaped)
    }

    method SetGlobal(slot: nat, value: Value)
      requires slot < |globals|
      modifies this`globals, this`dirty
      ensures Shown() == Set(old(Shown()), slot, value)
    {
      globals := globals[slot := value];
      if slot !in dirty { dirty := dirty + [slot]; }
    }

    method ResetForReuse()
      modifies this
      ensures Resting() && depth == 0
    {
      globals := seq(|globals|, _ => 0);
      dirty, host, active, depth, escaped := [], null, false, 0, 0;
    }
  }

  class Loader {
    /** The globals of each loaded module's record. */
    var records: Globals
    var pools: map<Module, seq<Worker>>
    ghost var all: set<Worker>
    /** The workers at work, oldest first, and what they and the records show. */
    ghost var stack: seq<Worker>
    ghost var state: State

    constructor (loaded: Globals)
      ensures Valid() && state == State(loaded, []) && fresh(all)
    {
      records, pools, all, stack, state := loaded, map[], {}, [], State(loaded, []);
    }

    /** An idle worker is in its module's pool at most once. */
    ghost predicate Idle(m: Module)
      requires m in pools
      reads this, all
    {
      && |pools[m]| <= MAX_POOLED
      && (forall w :: w in pools[m] ==> w in all && w.name == m && w.Resting())
      && (forall i, j :: 0 <= i < j < |pools[m]| ==> pools[m][i] != pools[m][j])
    }

    ghost predicate AtWork(i: nat)
      reads this, all
    {
      i < |stack| && i < |state.frames| && stack[i] in all &&
      var w := stack[i];
      && w.active && w.at == i && w.Shown() == state.frames[i] && w.name in records
      && -1 <= w.hostAt < i && w.host == if w.hostAt < 0 then null else stack[w.hostAt]
    }

    ghost predicate Valid()
      reads this, all
    {
      && |stack| == |state.frames| && state.records == records
      && (forall i: nat :: i < |stack| ==> AtWork(i))
      && (forall w :: w in all ==> if w.active then 0 <= w.at < |stack| && stack[w.at] == w else w.host == null)
      && (forall m :: m in pools ==> Idle(m))
    }

    /** What a call does, and what it leaves as it was. */
    twostate predicate Did(out: Outcome, r: (Outcome, State))
      reads this, all
    {
      && Valid() && stack == old(stack) && (out, state) == r
      && old(all) <= all && forall w :: w in all && w !in old(all) ==> fresh(w)
    }

    method Get(m: Module) returns (vm: Worker?)
      requires Valid()
      modifies this`pools
      ensures Valid()
      ensures m !in old(pools) || old(pools[m]) == [] ==> vm == null && pools == old(pools)
      ensures m in old(pools) && old(pools[m]) != [] ==>
                var pool := old(pools[m]);
                vm == pool[|pool| - 1] && vm != null && pools == old(pools)[m := pool[..|pool| - 1]]
      ensures vm != null ==> vm in all && vm.name == m && vm.Resting() && forall n :: n in pools ==> vm !in pools[n]
    {
      if m !in pools || |pools[m]| == 0 { return null; }
      var n := |pools[m]|;
      assert Idle(m);
      vm := pools[m][n - 1];
      pools := pools[m := pools[m][..n - 1]];
      forall k | k in pools ensures Idle(k) && vm !in pools[k] { assert k != m ==> old(Idle(k)); }
      forall i: nat | i < |stack| ensures AtWork(i) { assert old(AtWork(i)); }
    }

    method Put(m: Module, vm: Worker)
      requires Valid() && vm in all && vm.name == m && vm.Resting()
      requires forall n :: n in pools ==> vm !in pools[n]
      modifies this`pools
      ensures Valid()
      ensures
        var pool := if m in old(pools) then old(pools[m]) else [];
        pools == old(pools)[m := if |pool| < MAX_POOLED then pool + [vm] else pool]
    {
      var pool := if m in pools then pools[m] else [];
      assert m in pools ==> Idle(m);
      pools := pools[m := if |pool| < MAX_POOLED then pool + [vm] else pool];
      forall k | k in pools ensures Idle(k) { assert k != m ==> old(Idle(k)); }
      forall i: nat | i < |stack| ensures AtWork(i) { assert old(AtWork(i)); }
    }

    /** The nearest active worker of module m among the caller and its hosts. */
    method HostFor(m: Module, caller: Worker?) returns (h: Worker?)
      requires Valid() && (caller != null ==> caller in all && caller.active)
      ensures
        var k := Lender(state.frames, if caller == null then -1 else caller.at, m, MAX_HOSTS);
        if k < 0 then h == null else h != null && h in all && h.active && h.at == k
      ensures
        var at := if caller == null then -1 else caller.at;
        if h == null then NoneNear(state.frames, at, m, 4097)
        else exists i: nat :: i < 4097 && Nearest(state.frames, at, m, i) && Ups(state.frames, at)[i] == h.at
    {
      hide Nearest, NoneNear, Ups;
      ghost var at := if caller == null then -1 else caller.at;
      assert Hosted(state.frames) && at < |state.frames| by {
        forall i | 0 <= i < |state.frames| ensures state.frames[i].host < i { assert AtWork(i); }
        if caller != null { assert AtWork(caller.at); }
      }
      ghost var i := Lends(state.frames, at, m, MAX_HOSTS);
      var steps := 0;
      h := caller;
      while h != null
        invariant 0 <= steps < MAX_HOSTS
        invariant h != null ==> h in all && h.active
        invariant Lender(state.frames, if caller == null then -1 else caller.at, m, MAX_HOSTS)
               == Lender(state.frames, if h == null then -1 else h.at, m, MAX_HOSTS - steps)
        decreases MAX_HOSTS - steps
      {
        assert AtWork(h.at);
        if h.active && h.name == m { return h; }
        steps := steps + 1;
        if steps > MAX_HOSTS - 1 { return null; }
        if h.host != null { assert AtWork(h.hostAt); }
        h := h.host;
      }
    }

    /** An idle worker of module m, or a new one. */
    method Fetch(m: Module) returns (vm: Worker)
      requires Valid()
      modifies this`pools, this`all
      ensures Valid() && vm.name == m && vm.Resting() && all == old(all) + {vm} && (vm in old(all) || fresh(vm))
      ensures forall n :: n in pools ==> vm !in pools[n]
    {
      var idle := Get(m);
      if idle != null { return idle; }
      vm := new Worker(m);
      label Made:
      all := all + {vm};
      forall i: nat | i < |stack| ensures AtWork(i) { assert old@Made(AtWork(i)); }
      forall n | n in pools ensures Idle(n) { assert old@Made(Idle(n)); }
    }

    /** An idle or new worker for module m, with a copy of the record's globals. */
    method Begin(m: Module, caller: Worker?) returns (vm: Worker)
      requires Valid() && m in records && (caller != null ==> caller in all && caller.active)
      modifies this, all
      ensures Valid() && state == Start(old(state), if caller == null then -1 else old(caller.at), m)
          && stack == old(stack) + [vm] && vm in all && vm.active && vm.at == |old(stack)|
      ensures old(all) <= all && forall w :: w in all && w !in old(all) ==> fresh(w)
    {
      vm := Fetch(m);
      SetUp(vm, caller);
    }

    method SetUp(vm: Worker, caller: Worker?)
      requires Valid() && vm.name in records && vm in all && vm.Resting()
          && (forall n :: n in pools ==> vm !in pools[n])
      requires caller != null ==> caller in all && caller.active
      modifies this`stack, this`state, vm
      ensures Valid() && state == Start(old(state), if caller == null then -1 else old(caller.at), vm.name)
      ensures stack == old(stack) + [vm] && vm.active && vm.at == |old(stack)|
    {
      assert caller != null ==> AtWork(caller.at);
      Seat(vm, caller);
      stack := stack + [vm];
      state := Start(state, vm.hostAt, vm.name);
      forall i: nat | i < |stack| ensures AtWork(i) { if i < |stack| - 1 { assert old(AtWork(i)); } }
      forall n | n in pools ensures Idle(n) { assert old(Idle(n)); }
    }

    /** The worker itself: the record's globals, its host, and where it stands. */
    method Seat(vm: Worker, caller: Worker?)
      requires vm.name in records
      modifies vm
      ensures vm.dirty == old(vm.dirty) && vm.escaped == old(vm.escaped)
      ensures vm.globals == records[vm.name] && vm.at == |stack| && vm.active
      ensures vm.host == (if caller == vm then null else caller)
      ensures vm.hostAt == if caller == null then -1 else old(caller.at)
    {
      vm.globals := records[vm.name];
      vm.host := if caller == vm then null else caller;
      vm.hostAt := if caller == null then -1 else caller.at;
      vm.at := |stack|;
      vm.active := true;
    }

    /** Write the slots a worker has reassigned back to its module's record. */
    method PersistDirtyGlobals(vm: Worker)
      requires vm.name in records
      modifies this`records
      ensures records == old(records)[vm.name := Merged(old(records[vm.name]), vm.globals, vm.dirty)]
    {
      var was := records[vm.name];
      var k := 0;
      while k < |vm.dirty|
        invariant 0 <= k <= |vm.dirty| && vm.name in records
        invariant records == old(records)[vm.name := records[vm.name]]
        invariant records[vm.name] == Merged(was, vm.globals, vm.dirty[..k])
      {
        var slot := vm.dirty[k];
        assert vm.dirty[..k + 1] == vm.dirty[..k] + [slot];
        if slot < |records[vm.name]| && slot < |vm.globals| {
          records := records[vm.name := records[vm.name][slot := vm.globals[slot]]];
        }
        k := k + 1;
      }
      assert vm.dirty[..k] == vm.dirty;
    }

    /** The end of a call on a worker that was started for it: it writes back, and is pooled
        unless the call threw or a closure that captures it is about. */
    method Release(vm: Worker, failed: bool)
      requires Valid() && |stack| > 0 && vm == stack[|stack| - 1] && vm in all
      modifies this`records, this`pools, this`stack, this`state, vm
      ensures Valid() && state == Finish(old(state)) && stack == old(stack)[..|old(stack)| - 1]
      ensures (!failed && old(vm.escaped) == 0 && |if vm.name in old(pools) then old(pools[vm.name])
          else []| < 256) <==>
                (vm.name in pools && vm in pools[vm.name])
    {
      Retire(vm);
      if !failed && vm.escaped == 0 { Recycle(vm); }
    }

    method Retire(vm: Worker)
      requires Valid() && |stack| > 0 && vm == stack[|stack| - 1] && vm in all
      modifies this`records, this`stack, this`state, vm`active, vm`host
      ensures Valid() && state == Finish(old(state)) && stack == old(stack)[..|old(stack)| - 1]
      ensures !vm.active && vm.host == null && forall n :: n in pools ==> vm !in pools[n]
    {
      assert AtWork(|stack| - 1);
      forall n | n in pools ensures vm !in pools[n] { assert Idle(n); }
      PersistDirtyGlobals(vm);
      vm.active := false;
      vm.host := null;
      stack := stack[..|stack| - 1];
      state := Finish(state);
      forall i: nat | i < |stack| ensures AtWork(i) { assert old(AtWork(i)); }
      forall n | n in pools ensures Idle(n) { assert old(Idle(n)); }
    }

    method Recycle(vm: Worker)
      requires Valid() && vm in all && !vm.active && forall n :: n in pools ==> vm !in pools[n]
      modifies this`pools, vm
      ensures Valid() && vm.name in pools
          && (vm in pools[vm.name] <==> |if vm.name in old(pools) then old(pools[vm.name]) else []| < MAX_POOLED)
    {
      vm.ResetForReuse();
      forall i: nat | i < |stack| ensures AtWork(i) { assert old(AtWork(i)); }
      forall n | n in pools ensures Idle(n) { assert old(Idle(n)); }
      Put(vm.name, vm);
    }

    /** A running worker writes a global, or hands out a closure that captures it. */
    method Poke(vm: Worker, i: nat, v: Value)
      requires Valid() && vm in all && vm.active && i < |vm.globals|
      modifies vm, this`state
      ensures Valid() && vm.at == old(vm.at) && vm.active
          && state == Workers.Put(old(state), old(vm.at), Set(old(vm.Shown()), i, v))
    {
      assert AtWork(vm.at);
      vm.SetGlobal(i, v);
      state := Workers.Put(state, vm.at, vm.Shown());
      forall j: nat | j < |stack| ensures AtWork(j) { assert old(AtWork(j)); }
      forall n | n in pools ensures Idle(n) { assert old(Idle(n)); }
    }

    method LetEscape(vm: Worker)
      requires Valid() && vm in all && vm.active
      modifies vm, this`state
      ensures vm.escaped == old(vm.escaped) + 1
      ensures Valid() && vm.at == old(vm.at) && vm.active
          && state == Workers.Put(old(state), old(vm.at), Leak(old(vm.Shown())))
    {
      assert AtWork(vm.at);
      vm.escaped := vm.escaped + 1;
      state := Workers.Put(state, vm.at, vm.Shown());
      forall j: nat | j < |stack| ensures AtWork(j) { assert old(AtWork(j)); }
      forall n | n in pools ensures Idle(n) { assert old(Idle(n)); }
    }

    /** A lent worker counts how often it has been re-entered. */
    method Count(vm: Worker, change: int)
      requires Valid() && vm in all
      modifies vm`depth
      ensures Valid() && vm.depth == old(vm.depth) + change
    {
      vm.depth := vm.depth + change;
      forall j: nat | j < |stack| ensures AtWork(j) { assert old(AtWork(j)); }
      forall n | n in pools ensures Idle(n) { assert old(Idle(n)); }
    }

    /** A call into another module comes to what the pure account of it says. */
    method CallModuleFunction(code: Code, fuel: nat, t: Module, g: nat, a: Value, caller: Worker?)
      returns (out: Outcome)
      requires Valid() && t in records && (caller != null ==> caller in all && caller.active)
      modifies this, all
      ensures Did(out, Call(code, fuel, old(state), if caller == null then -1 else old(caller.at), t, g, a))
      decreases fuel, 1
    {
      hide Run, Call;
      var h := HostFor(t, caller);
      CallIs(code, fuel, state, if caller == null then -1 else caller.at, t, g, a);
      if h != null {
        Count(h, 1);
        out := Execute(code, fuel, h, g, [Argument(a)]);
        Count(h, -1);
        return;
      }
      var vm := Begin(t, caller);
      out := Execute(code, fuel, vm, g, [Argument(a)]);
      Release(vm, !out.Returned?);
    }

    /** The main result on workers: a call from outside, with any nesting, re-entry and
        throwing below it, reads and leaves what direct use of one live environment per module
        would, if it is proper; and it leaves no worker at work. */
    method CallFromOutside(code: Code, fuel: nat, t: Module, g: nat, a: Value) returns (out: Outcome)
      requires Valid() && stack == [] && t in records
      modifies this, all
      ensures Valid() && stack == []
      ensures ProperCall(code, fuel, old(records), [], {}, t, g, a) ==>
                (out, records) == Plain(code, fuel, old(records), t, g, [Argument(a)])
    {
      hide Call, Plain, ProperCall;
      ghost var was := records;
      assert state == State(was, []);
      out := CallModuleFunction(code, fuel, t, g, a, null);
      if ProperCall(code, fuel, was, [], {}, t, g, a) { OneLiveEnvironment(code, fuel, was, t, g, a); }
    }

    method Execute(code: Code, fuel: nat, vm: Worker, f: nat, seen: seq<Seen>) returns (out: Outcome)
      requires Valid() && vm in all && vm.active
      modifies this, all
      ensures Did(out, Run(code, fuel, old(state), old(vm.at), f, seen))
      decreases fuel, 0
    {
      hide Run, Call, Workers.Put, Set, Leak;
      ghost var at := vm.at;
      Standing(vm);
      RunIs(code, fuel, state, at, f, seen);
      if fuel == 0 { return Unfinished; }
      match code.Next(vm.name, f, seen)
      case Read(i) =>
        out := Execute(code, fuel - 1, vm, f, seen + [Look(vm.globals, i)]);
      case Write(i, v) =>
        if i < |vm.globals| {
          Poke(vm, i, v);
          out := Execute(code, fuel - 1, vm, f, seen + [Done]);
        } else {
          out := Execute(code, fuel - 1, vm, f, seen + [Answer(Fault)]);
        }
      case Escape =>
        LetEscape(vm);
        out := Execute(code, fuel - 1, vm, f, seen + [Done]);
      case Invoke(t, g, a) =>
        if t !in records {
          out := Execute(code, fuel - 1, vm, f, seen + [Answer(Fault)]);
        } else {
          out := CallModuleFunction(code, fuel - 1, t, g, a, vm);
          if !out.Unfinished? {
            StillAt(vm, at);
            out := Execute(code, fuel - 1, vm, f, seen + [Answer(out)]);
          }
        }
      case Return(v) => out := Returned(v);
      case Throw(v) => out := Thrown(v);
    }

    lemma Standing(vm: Worker)
      requires Valid() && vm in all && vm.active
      ensures 0 <= vm.at < |stack| && stack[vm.at] == vm && vm.at < |state.frames|
          && state.frames[vm.at] == vm.Shown() && state.records == records
    {
      assert AtWork(vm.at);
    }

    lemma StillAt(vm: Worker, at: nat)
      requires Valid() && at < |stack| && stack[at] == vm
      ensures vm in all && vm.active && vm.at == at
    {
      assert AtWork(at);
    }
  }

  lemma RunIs(code: Code, fuel: nat, s: State, at: nat, f: nat, seen: seq<Seen>)
    requires at < |s.frames|
    ensures fuel == 0 ==> Run(code, fuel, s, at, f, seen) == (Unfinished, s)
    ensures fuel > 0 ==>
              var w, r := s.frames[at], Run(code, fuel, s, at, f, seen);
              match code.Next(w.name, f, seen)
              case Read(i) => r == Run(code, fuel - 1, s, at, f, seen + [Look(w.globals, i)])
              case Write(i, v) =>
                r == (if i < |w.globals| then Run(code, fuel - 1, Workers.Put(s, at, Set(w, i, v)), at, f, seen
                    + [Done])
                      else Run(code, fuel - 1, s, at, f, seen + [Answer(Fault)]))
              case Escape => r == Run(code, fuel - 1, Workers.Put(s, at, Leak(w)), at, f, seen + [Done])
              case Invoke(t, g, a) =>
                if t !in s.records then r == Run(code, fuel - 1, s, at, f, seen + [Answer(Fault)])
                else
                  var c := Call(code, fuel - 1, s, at, t, g, a);
                  if c.0.Unfinished? then r == c else r == Run(code, fuel - 1, c.1, at, f, seen + [Answer(c.0)])
              case Return(v) => r == (Returned(v), s)
              case Throw(v) => r == (Thrown(v), s)
  {}

  lemma CallIs(code: Code, fuel: nat, s: State, at: int, t: Module, g: nat, a: Value)
    requires at < |s.frames| && t in s.records
    ensures
      var k, r := Lender(s.frames, at, t, MAX_HOSTS), Call(code, fuel, s, at, t, g, a);
      if k >= 0 then r == Run(code, fuel, s, k, g, [Argument(a)])
      else var started := Run(code, fuel, Start(s, at, t), |s.frames|, g, [Argument(a)]);
          r == (started.0, Finish(started.1))
  {}
}
