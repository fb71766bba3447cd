/** Which modules may call which: the relations under which worker virtual machines always
    show one live environment per module. */
module Callbacks {
  import opened Workers

  /** Every call the code can make is allowed. */
  ghost predicate Respects(code: Code, calls: (Module, Module) -> bool) {
    forall m, f, seen :: Allowed(code.Next(m, f, seen), m, calls)
  }

  ghost predicate Allowed(a: Action, m: Module, calls: (Module, Module) -> bool) { a.Invoke? ==> calls(m, a.target) }

  /** Every call from outside, with any fuel, records and argument, comes to the same with
      workers as with one live environment per module. */
  ghost predicate Live(code: Code) {
    forall fuel: nat, records: Globals, t: Module, g: nat, a: Value :: t in records ==>
      SameCall(code, fuel, records, t, g, a)
  }

  ghost predicate SameCall(code: Code, fuel: nat, records: Globals, t: Module, g: nat, a: Value)
    requires t in records
  {
    var (out, env) := Plain(code, fuel, records, t, g, [Argument(a)]);
    Call(code, fuel, State(records, []), -1, t, g, a) == (out, State(env, []))
  }

  predicate Onward(calls: (Module, Module) -> bool, a: Module, b: Module) { a != b && calls(a, b) }

  predicate Walk(calls: (Module, Module) -> bool, path: seq<Module>) {
    |path| >= 2 && forall i :: 0 <= i < |path| - 1 ==> Onward(calls, path[i], path[i + 1])
  }

  ghost predicate Joins(calls: (Module, Module) -> bool, path: seq<Module>, a: Module, b: Module) {
    Walk(calls, path) && path[0] == a && path[|path| - 1] == b
  }

  ghost predicate Reach(calls: (Module, Module) -> bool, a: Module, b: Module) {
    exists path :: Joins(calls, path, a, b)
  }

  /** Apart from calls within a module the relation does not go round. */
  ghost predicate Acyclic(calls: (Module, Module) -> bool) { forall a :: !Reach(calls, a, a) }

  lemma ReachStep(calls: (Module, Module) -> bool, a: Module, b: Module)
    requires Onward(calls, a, b)
    ensures Reach(calls, a, b)
  {
    assert Joins(calls, [a, b], a, b);
  }

  lemma ReachMore(calls: (Module, Module) -> bool, a: Module, b: Module, c: Module)
    requires Reach(calls, a, b) && Onward(calls, b, c)
    ensures Reach(calls, a, c)
  {
    var path :| Joins(calls, path, a, b);
    var more := path + [c];
    forall i | 0 <= i < |more| - 1 ensures Onward(calls, more[i], more[i + 1]) {
      if i < |path| - 1 { assert Onward(calls, path[i], path[i + 1]); }
    }
    assert Joins(calls, more, a, c);
  }

  // ----- no cycle

  /** Every module at work is the running one or has led to it. */
  ghost predicate Above(busy: set<Module>, calls: (Module, Module) -> bool, m: Module) {
    forall b :: b in busy ==> b == m || Reach(calls, b, m)
  }

  lemma {:induction false} AcyclicProper(code: Code, calls: (Module, Module) -> bool, fuel: nat, env: Globals,
                                         path: seq<Module>, busy: set<Module>, f: nat, seen: seq<Seen>)
    requires |path| > 0 && path[0] in env && Respects(code, calls) && Acyclic(calls)
    requires Above(busy, calls, path[0]) && forall m :: m in path ==> m in busy
    ensures Proper(code, fuel, env, path, busy, f, seen)
    decreases fuel
  {
    hide Reach, Plain, Acyclic;
    if fuel > 0 {
      var m := path[0];
      match code.Next(m, f, seen)
      case Read(i) => AcyclicProper(code, calls, fuel - 1, env, path, busy, f, seen + [Look(env[m], i)]);
      case Write(i, v) =>
        if i < |env[m]| {
          AcyclicProper(code, calls, fuel - 1, env[m := env[m][i := v]], path, busy, f, seen + [Done]);
        } else {
          AcyclicProper(code, calls, fuel - 1, env, path, busy, f, seen + [Answer(Fault)]);
        }
      case Escape => AcyclicProper(code, calls, fuel - 1, env, path, busy, f, seen + [Done]);
      case Invoke(t, g, a) =>
        assert Allowed(code.Next(m, f, seen), m, calls);
        if t !in env {
          AcyclicProper(code, calls, fuel - 1, env, path, busy, f, seen + [Answer(Fault)]);
        } else {
          var r := Plain(code, fuel - 1, env, t, g, [Argument(a)]);
          if t == m {
            assert path[0..] == path;
            AcyclicProper(code, calls, fuel - 1, env, path, busy, g, [Argument(a)]);
          } else {
            NewModule(calls, busy, m, t);
            AcyclicProper(code, calls, fuel - 1, env, [t] + path, busy + {t}, g, [Argument(a)]);
          }
          if !r.0.Unfinished? { AcyclicProper(code, calls, fuel - 1, r.1, path, busy, f, seen + [Answer(r.0)]); }
        }
      case Return(_) =>
      case Throw(_) =>
    }
  }

  lemma NewModule(calls: (Module, Module) -> bool, busy: set<Module>, m: Module, t: Module)
    requires Acyclic(calls) && Above(busy, calls, m) && m in busy && Onward(calls, m, t)
    ensures t !in busy && Above(busy + {t}, calls, t)
  {
    hide Reach;
    ReachStep(calls, m, t);
    forall b | b in busy ensures Reach(calls, b, t) { if b != m { ReachMore(calls, b, m, t); } }
  }

  lemma AcyclicLive(code: Code, calls: (Module, Module) -> bool)
    requires Respects(code, calls) && Acyclic(calls)
    ensures Live(code)
  {
    hide Plain, Call, Reach, Acyclic, Respects;
    forall fuel: nat, records: Globals, t: Module, g: nat, a: Value | t in records
        ensures SameCall(code, fuel, records, t, g, a) {
      assert [t] + [] == [t] && {} + {t} == {t};
      AcyclicProper(code, calls, fuel, records, [t], {t}, g, [Argument(a)]);
      OneLiveEnvironment(code, fuel, records, t, g, a);
    }
  }

  /** A relation that goes down in some order does not go round. */
  lemma Descending(calls: (Module, Module) -> bool, rank: Module -> nat)
    requires forall a, b :: Onward(calls, a, b) ==> rank(b) < rank(a)
    ensures Acyclic(calls)
  {
    forall a, path | Joins(calls, path, a, a) ensures false { Falls(calls, rank, path, |path| - 1); }
  }

  lemma {:induction false} Falls(calls: (Module, Module) -> bool, rank: Module -> nat, path: seq<Module>, k: nat)
    requires Walk(calls, path) && 1 <= k < |path| && forall a, b :: Onward(calls, a, b) ==> rank(b) < rank(a)
    ensures rank(path[k]) < rank(path[0])
    decreases k
  {
    assert Onward(calls, path[k - 1], path[k]);
    if k > 1 { Falls(calls, rank, path, k - 1); }
  }

  /** Every call stays in its module or goes down in some order of the modules, as when
      modules call only what they import. */
  ghost predicate Layered(code: Code, rank: Module -> nat) {
    forall m, f, seen :: Down(code.Next(m, f, seen), m, rank)
  }

  ghost predicate Down(a: Action, m: Module, rank: Module -> nat) {
    a.Invoke? && a.target != m ==> rank(a.target) < rank(m)
  }

  lemma LayeredModules(code: Code, rank: Module -> nat)
    requires Layered(code, rank)
    ensures Live(code)
  {
    hide Live, Acyclic;
    var calls := (a: Module, b: Module) => a == b || rank(b) < rank(a);
    forall m, f, seen ensures Allowed(code.Next(m, f, seen), m, calls) {
      assert Down(code.Next(m, f, seen), m, rank);
    }
    Descending(calls, rank);
    AcyclicLive(code, calls);
  }

  // ----- a cycle

  /** Distinct modules, each calling the next and the last the first. */
  ghost predicate Cycle(calls: (Module, Module) -> bool, c: seq<Module>) {
    && |c| >= 2 && (forall i, j :: 0 <= i < j < |c| ==> c[i] != c[j])
    && (forall i :: 0 <= i < |c| ==> Onward(calls, c[i], c[if i + 1 < |c| then i + 1 else 0]))
  }

  /** A walk that comes back holds a cycle. */
  lemma {:induction false} FindCycle(calls: (Module, Module) -> bool, path: seq<Module>, a: Module)
    returns (c: seq<Module>)
    requires Joins(calls, path, a, a)
    ensures Cycle(calls, c)
    decreases |path|
  {
    var n := |path| - 1;
    assert Onward(calls, path[0], path[1]);
    if i, j :| 0 <= i < j < n && path[i] == path[j] {
      var inner := path[i..j + 1];
      assert Onward(calls, path[i], path[i + 1]);
      forall k | 0 <= k < |inner| - 1 ensures Onward(calls, inner[k], inner[k + 1]) {
        assert Onward(calls, path[i + k], path[i + k + 1]);
      }
      c := FindCycle(calls, inner, path[i]);
    } else {
      c := path[..n];
      forall i | 0 <= i < |c| ensures Onward(calls, c[i], c[if i + 1 < |c| then i + 1 else 0]) {
        assert Onward(calls, path[i], path[i + 1]);
      }
    }
  }

  function Index(c: seq<Module>, m: Module): (i: int)
    ensures -1 <= i < |c| && (i >= 0 ==> c[i] == m)
    ensures i < 0 ==> m !in c
  {
    if c == [] then -1 else if c[0] == m then 0 else var i := Index(c[1..], m); if i < 0 then -1 else i + 1
  }

  /** Each module of the cycle calls the next, and the last calls back into the first. With
      `far` that call writes a global of the first; else it goes on into the second, and that
      call writes. When all have returned, the module that was written reads its global, and
      what it reads is passed up. */
  function Lap(c: seq<Module>, far: bool, m: Module, f: nat, seen: seq<Seen>): Action {
    var i := Index(c, m);
    var writer := if far then 0 else 1;
    if i < 0 || |seen| == 0 then Return(0)
    else if f == 0 then
      if |seen| == 1 then
        if i + 1 < |c| then Invoke(c[i + 1], 0, 0) else Invoke(c[0], 1, 0)
      else if i == writer && |seen| == 2 then Workers.Read(0)
      else Echo(seen[|seen| - 1])
    else if i == writer then
      if |seen| == 1 then Workers.Write(0, 7) else Return(0)
    else if i == 0 && |c| > 1 && |seen| == 1 then Invoke(c[1], 1, 0)
    else Return(0)
  }

  function Echo(s: Seen): Action {
    match s
    case Global(v) => Return(v)
    case Answer(Returned(v)) => Return(v)
    case _ => Return(-1)
  }

  function LapCode(c: seq<Module>, far: bool): Code {
    Code((m: Module, f: nat, seen: seq<Seen>) => Lap(c, far, m, f, seen))
  }

  lemma LapRespects(calls: (Module, Module) -> bool, c: seq<Module>, far: bool)
    requires Cycle(calls, c)
    ensures Respects(LapCode(c, far), calls)
  {
    var code := LapCode(c, far);
    forall m, f, seen ensures Allowed(code.Next(m, f, seen), m, calls) {
      var i := Index(c, m);
      if i >= 0 { assert Onward(calls, c[i], c[if i + 1 < |c| then i + 1 else 0]); }
    }
  }

  lemma {:induction false} IndexIs(c: seq<Module>, i: nat)
    requires i < |c| && forall i, j :: 0 <= i < j < |c| ==> c[i] != c[j]
    ensures Index(c, c[i]) == i
    decreases |c|
  {
    if i > 0 {
      var d := c[1..];
      assert forall i, j :: 0 <= i < j < |d| ==> d[i] != d[j];
      IndexIs(d, i - 1);
    }
  }

  // ----- the lap, with one live environment each

  function Zeros(c: seq<Module>): Globals { map m | m in c :: [0] }

  function Writer(c: seq<Module>, far: bool): Module
    requires |c| >= 2
  {
    if far then c[0] else c[1]
  }

  function Written(c: seq<Module>, far: bool): Globals
    requires |c| >= 2
  {
    Zeros(c)[Writer(c, far) := [7]]
  }

  ghost predicate Distinct(c: seq<Module>) {
    |c| >= 2 && forall i, j :: 0 <= i < j < |c| ==> c[i] != c[j]
  }

  const START: seq<Seen> := [Argument(0)]

  /** What each function of the lap does, step by step. */
  lemma LapSteps(c: seq<Module>, far: bool, i: nat, s: Seen, t: Seen)
    requires Distinct(c) && i < |c|
    ensures
      var code, w := LapCode(c, far), if far then 0 else 1;
      && code.Next(c[i], 0, START) == (if i + 1 < |c| then Invoke(c[i + 1], 0, 0) else Invoke(c[0], 1, 0))
      && code.Next(c[i], 0, START + [s]) == (if i == w then Workers.Read(0) else Echo(s))
      && code.Next(c[w], 0, START + [s] + [t]) == Echo(t)
      && code.Next(c[w], 1, START) == Workers.Write(0, 7)
      && code.Next(c[0], 1, START) == (if far then Workers.Write(0, 7) else Invoke(c[1], 1, 0))
      && code.Next(c[w], 1, START + [s]) == Return(0) && code.Next(c[0], 1, START + [s]) == Return(0)
  {
    IndexIs(c, i);
    IndexIs(c, 0);
    IndexIs(c, 1);
  }

  lemma PlainSteps(code: Code, fuel: nat, env: Globals, m: Module, f: nat, seen: seq<Seen>)
    requires m in env && fuel > 0
    ensures
      var r := Plain(code, fuel, env, m, f, seen);
      match code.Next(m, f, seen)
      case Read(i) => r == Plain(code, fuel - 1, env, m, f, seen + [Look(env[m], i)])
      case Write(i, v) =>
        i < |env[m]| ==> r == Plain(code, fuel - 1, env[m := env[m][i := v]], m, f, seen + [Done])
      case Invoke(t, g, a) =>
        t in env ==>
          var p := Plain(code, fuel - 1, env, t, g, [Argument(a)]);
          !p.0.Unfinished? ==> r == Plain(code, fuel - 1, p.1, m, f, seen + [Answer(p.0)])
      case Return(v) => r == (Returned(v), env)
      case _ => true
  {}

  /** The innermost call writes. */
  lemma PlainBack(c: seq<Module>, far: bool, fuel: nat)
    requires Distinct(c) && fuel >= 5
    ensures Plain(LapCode(c, far), fuel, Zeros(c), c[0], 1, START) == (Returned(0), Written(c, far))
  {
    hide Plain, LapCode, Lap, Echo;
    var code, env, w := LapCode(c, far), Zeros(c), Writer(c, far);
    LapSteps(c, far, 0, Done, Done);
    LapSteps(c, far, 0, Answer(Returned(0)), Done);
    var f1 := if far then fuel else fuel - 1;
    assert env[w][0 := 7] == [7];
    PlainSteps(code, f1, env, w, 1, START);
    PlainSteps(code, f1 - 1, Written(c, far), w, 1, START + [Done]);
    if !far {
      PlainSteps(code, fuel, env, c[0], 1, START);
      PlainSteps(code, fuel - 1, Written(c, far), c[0], 1, START + [Answer(Returned(0))]);
    }
  }

  lemma {:induction false} PlainLap(c: seq<Module>, far: bool, i: nat)
    requires Distinct(c) && i < |c|
    ensures
      Plain(LapCode(c, far), |c| - i + 6, Zeros(c), c[i], 0, START) ==
        (Returned(if i <= (if far then 0 else 1) then 7 else 0), Written(c, far))
    decreases |c| - i
  {
    hide Plain, LapCode, Lap;
    var code, env, fuel, w := LapCode(c, far), Zeros(c), |c| - i + 6, if far then 0 else 1;
    var env1 := Written(c, far);
    var r := if i + 1 <= w then 7 else 0;
    if i + 1 < |c| { PlainLap(c, far, i + 1); } else { PlainBack(c, far, fuel - 1); }
    var s := Answer(Returned(r));
    LapSteps(c, far, i, s, Global(7));
    PlainSteps(code, fuel, env, c[i], 0, START);
    PlainSteps(code, fuel - 1, env1, c[i], 0, START + [s]);
    if i == w {
      assert env1[c[i]] == [7] && Look([7], 0) == Global(7);
      PlainSteps(code, fuel - 2, env1, c[i], 0, START + [s] + [Global(7)]);
    }
  }

  // ----- the lap, with workers

  /** The workers of the first n modules, each called by the one before. */
  function Chain(c: seq<Module>, n: nat): seq<Frame>
    requires n <= |c|
  {
    seq(n, i requires 0 <= i < n => Frame(c[i], [0], [], i - 1, 0))
  }

  /** No worker further up the chain is of a later module. */
  lemma {:induction false} NoLender(c: seq<Module>, n: nat, at: int, t: Module, k: nat)
    requires n <= |c| && -1 <= at < n && forall i :: 0 <= i <= at ==> c[i] != t
    ensures Lender(Chain(c, n), at, t, k) == -1
    decreases at + 1
  {
    if at >= 0 && k > 0 { NoLender(c, n, at - 1, t, k - 1); }
  }

  /** The first worker is found from a position that is near enough. */
  lemma {:induction false} FirstLent(c: seq<Module>, n: nat, at: nat, k: nat)
    requires n <= |c| && at < n && Distinct(c)
    ensures Lender(Chain(c, n), at, c[0], k) == if at < k then 0 else -1
    decreases at
  {
    if at > 0 && k > 0 { FirstLent(c, n, at - 1, k - 1); }
  }

  lemma StartChain(c: seq<Module>, n: nat, records: Globals)
    requires n < |c| && c[n] in records && records[c[n]] == [0]
    ensures Start(State(records, Chain(c, n)), n - 1, c[n]) == State(records, Chain(c, n + 1))
  {
    assert Chain(c, n + 1) == Chain(c, n) + [Frame(c[n], [0], [], n - 1, 0)];
  }

  lemma FinishChain(c: seq<Module>, n: nat, records: Globals)
    requires n < |c| && c[n] in records
    ensures Finish(State(records, Chain(c, n + 1))) == State(records, Chain(c, n))
  {
    var r := records[c[n]];
    assert Merged(r, [0], []) == r;
    assert records[c[n] := r] == records;
    assert Chain(c, n + 1)[..n] == Chain(c, n);
  }

  /** The call that writes runs on a second worker, which writes back. */
  lemma SecondWorker(c: seq<Module>, far: bool, at: nat, fuel: nat)
    requires Distinct(c) && at < |c| && fuel >= 3
    requires Lender(Chain(c, |c|), at, Writer(c, far), MAX_HOSTS) < 0
    ensures Call(LapCode(c, far), fuel, State(Zeros(c), Chain(c, |c|)), at, Writer(c, far), 1, 0) ==
              (Returned(0), State(Written(c, far), Chain(c, |c|)))
  {
    hide Run, Call, Lender, LapCode, Lap;
    var code, w, k := LapCode(c, far), Writer(c, far), |c|;
    var s := State(Zeros(c), Chain(c, k));
    var clean, dirty := Frame(w, [0], [], at, 0), Frame(w, [7], [0], at, 0);
    var s1, s2 := State(Zeros(c), Chain(c, k) + [clean]), State(Zeros(c), Chain(c, k) + [dirty]);
    LapSteps(c, far, 0, Done, Done);
    assert Start(s, at, w) == s1;
    StartStep(code, fuel, s, at, w, 1, 0);
    assert [0][0 := 7] == [7] && [] + [0] == [0] && Set(clean, 0, 7) == dirty;
    assert Put(s1, k, Set(clean, 0, 7)).frames == s2.frames;
    WriteStep(code, fuel, s1, k, 1, START, 0, 7);
    ReturnStep(code, fuel - 1, s2, k, 1, START + [Done], 0);
    assert Merged([0], [7], [0]) == [7];
    assert s2.frames[..k] == Chain(c, k);
  }

  /** The call back into the first module, from the last. */
  lemma WorkBack(c: seq<Module>, far: bool, fuel: nat)
    requires Distinct(c) && fuel >= 5 && far == (|c| > MAX_HOSTS)
    ensures Call(LapCode(c, far), fuel, State(Zeros(c), Chain(c, |c|)), |c| - 1, c[0], 1, 0) ==
              (Returned(0), State(Written(c, far), Chain(c, |c|)))
  {
    hide Run, Call, Lender, LapCode, Lap;
    var code, k := LapCode(c, far), |c|;
    FirstLent(c, k, k - 1, MAX_HOSTS);
    if far {
      SecondWorker(c, far, k - 1, fuel);
    } else {
      var s, s1 := State(Zeros(c), Chain(c, k)), State(Written(c, far), Chain(c, k));
      var ans := Answer(Returned(0));
      LapSteps(c, far, 0, ans, Done);
      NoLender(c, k, 0, c[1], MAX_HOSTS);
      LentStep(code, fuel, s, k - 1, c[0], 1, 0);
      SecondWorker(c, far, 0, fuel - 1);
      InvokeStep(code, fuel, s, 0, 1, START, c[1], 1, 0, (Returned(0), s1));
      ReturnStep(code, fuel - 1, s1, 0, 1, START + [ans], 0);
    }
  }

  /** A call to the next module, given what its function does. */
  lemma WorkNext(c: seq<Module>, far: bool, i: nat, fuel: nat)
    requires Distinct(c) && i + 1 < |c|
    requires Run(LapCode(c, far), fuel, State(Zeros(c), Chain(c, i + 2)), i + 1, 0, START) ==
               (Returned(0), State(Written(c, far), Chain(c, i + 2)))
    ensures Call(LapCode(c, far), fuel, State(Zeros(c), Chain(c, i + 1)), i, c[i + 1], 0, 0) ==
              (Returned(0), State(Written(c, far), Chain(c, i + 1)))
  {
    hide Run, Call, Lender, LapCode, Lap;
    NoLender(c, i + 1, i, c[i + 1], MAX_HOSTS);
    StartChain(c, i + 1, Zeros(c));
    FinishChain(c, i + 1, Written(c, far));
    StartStep(LapCode(c, far), fuel, State(Zeros(c), Chain(c, i + 1)), i, c[i + 1], 0, 0);
  }

  /** What is left of a function of the lap once its call has returned. */
  lemma WorkEnd(c: seq<Module>, far: bool, i: nat, fuel: nat)
    requires Distinct(c) && i < |c| && fuel >= 2
    ensures Run(LapCode(c, far), fuel, State(Written(c, far), Chain(c, i + 1)), i, 0, START + [Answer(Returned(0))]) ==
              (Returned(0), State(Written(c, far), Chain(c, i + 1)))
  {
    hide Run, Call, Lender, LapCode, Lap;
    var code, s, ans := LapCode(c, far), State(Written(c, far), Chain(c, i + 1)), Answer(Returned(0));
    LapSteps(c, far, i, ans, Global(0));
    if i == (if far then 0 else 1) {
      ReadStep(code, fuel, s, i, 0, START + [ans], 0);
      ReturnStep(code, fuel - 1, s, i, 0, START + [ans] + [Global(0)], 0);
    } else {
      ReturnStep(code, fuel, s, i, 0, START + [ans], 0);
    }
  }

  lemma {:induction false} WorkLap(c: seq<Module>, far: bool, i: nat)
    requires Distinct(c) && i < |c| && far == (|c| > MAX_HOSTS)
    ensures Run(LapCode(c, far), |c| - i + 6, State(Zeros(c), Chain(c, i + 1)), i, 0, START) ==
              (Returned(0), State(Written(c, far), Chain(c, i + 1)))
    decreases |c| - i
  {
    hide Run, Call, Lender, LapCode, Lap, Chain;
    ChainLength(c, i + 1);
    var code, fuel := LapCode(c, far), |c| - i + 6;
    var s, s1 := State(Zeros(c), Chain(c, i + 1)), State(Written(c, far), Chain(c, i + 1));
    LapSteps(c, far, i, Done, Done);
    WorkEnd(c, far, i, fuel - 1);
    if i + 1 < |c| {
      WorkLap(c, far, i + 1);
      WorkNext(c, far, i, fuel - 1);
      InvokeStep(code, fuel, s, i, 0, START, c[i + 1], 0, 0, (Returned(0), s1));
    } else {
      WorkBack(c, far, fuel - 1);
      InvokeStep(code, fuel, s, i, 0, START, c[0], 1, 0, (Returned(0), s1));
    }
  }

  lemma ChainLength(c: seq<Module>, n: nat)
    requires n <= |c|
    ensures |Chain(c, n)| == n && forall i :: 0 <= i < n ==> Chain(c, n)[i] == Frame(c[i], [0], [], i - 1, 0)
  {}

  /** On a cycle a write is not seen. */
  lemma CycleFails(calls: (Module, Module) -> bool, c: seq<Module>) returns (code: Code)
    requires Cycle(calls, c)
    ensures Respects(code, calls) && !Live(code)
  {
    hide Plain, Run, Call, Lender, LapCode, Lap, Chain, Respects;
    var far := |c| > MAX_HOSTS;
    code := LapCode(c, far);
    LapRespects(calls, c, far);
    var s, fuel := State(Zeros(c), []), |c| + 6;
    PlainLap(c, far, 0);
    NoneLent(c[0]);
    ChainLength(c, 0);
    assert Chain(c, 0) == [];
    StartChain(c, 0, Zeros(c));
    WorkLap(c, far, 0);
    StartStep(code, fuel, s, -1, c[0], 0, 0);
    assert !SameCall(code, fuel, Zeros(c), c[0], 0, 0);
  }

  lemma NoneLent(t: Module)
    ensures Lender([], -1, t, MAX_HOSTS) == -1
  {}

  /** The main result on module globals, both directions: whatever functions are written that
      keep to a relation of which module may call which, worker virtual machines show one live
      environment per module, if and only if the relation has no cycle through two modules or
      more. */
  lemma Exact(calls: (Module, Module) -> bool)
    ensures (forall code: Code :: Respects(code, calls) ==> Live(code)) <==> Acyclic(calls)
  {
    hide Live, Respects, Joins;
    if Acyclic(calls) {
      forall code: Code | Respects(code, calls) ensures Live(code) { AcyclicLive(code, calls); }
    } else {
      var a :| Reach(calls, a, a);
      var path :| Joins(calls, path, a, a);
      var c := FindCycle(calls, path, a);
      var code := CycleFails(calls, c);
    }
  }
}
