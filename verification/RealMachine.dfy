/** What compiled code does on the machine with its two representations of ints: what it does
    without them, as long as no fused branch on a remainder finds its local boxed, and not
    a step longer. */
module RealMachine {
  import opened Syntax
  import opened Machine
  import opened ExprGen
  import opened StmtGen
  import opened Semantics
  import opened Relation
  import opened ExprCorrect
  import opened Shapes
  import opened Levels
  import opened Boxes
  import opened Correct

  // ----- the fused branch

  /** The fused branch on a local int does what the unfused remainder and comparison would
      if and only if the local is not boxed; if it is boxed the branch faults. */
  lemma ModExact(code: seq<Instr>, c: Expr, no: int, sc: Scopes, next: nat, env: Env, st: State, m: Marks)
    returns (n: nat, t: State)
    requires OkE(c, sc) && Laid(sc, next) && Rel(env, sc, st.mem) && FuseMod(c, sc).Some?
    requires At(code, st.pc, CodeCond(c, sc, st.pc, no)) && EvalCond(Compiled, c, env).Yields?
    ensures Tests(code, st, n, t, st.pc + LenCond(c, sc), no, EvalCond(Compiled, c, env), sc, next)
    ensures
      var r, boxed := RunBoxed(code, Going(st, m), 1), Local(FuseMod(c, sc).value.0) in m.mem;
      && n == 1 && (Erase(r) == Run(code, Running(st), 1) <==> !boxed)
      && (boxed ==> Erase(r) == RaiseErr(st, FAULT))
  {
    hide Run, Rel, Laid, CodeE, CodeCond, LenE, LenCond, EvalE, EvalCond, OkE, Exec, MarksAfter, Tests;
    n, t := ModSim(code, c, no, sc, next, env, st);
    ModEq(c, no, sc, st.pc, env);
    var (slot, d, onZero) := FuseMod(c, sc).value;
    Read(env, sc, st.mem, (if IsZero(c.r) then c.l else c.r).l.x);
    assert code[st.pc] == code[st.pc..st.pc + 1][0] == JumpMod(onZero, no, slot, d);
    RunNone(code, st);
    RunLast(code, Running(st), 1);
    var b := Going(st, m);
    assert RunBoxed(code, b, 0) == b && RunBoxed(code, b, 1) == StepBoxed(code, b);
    if Local(slot) in m.mem { StepStrays(code, b); } else { StepErased(code, b); }
  }

  // ----- whole functions

  ghost predicate Ends(code: seq<Instr>, st: State, m: Marks) { exists n: nat :: RunBoxed(code, Going(st, m), n).Over? }

  /** Without a trip the results about runs hold for the machine with its boxes. */
  lemma Forward(code: seq<Instr>, b: Stmts, sc: Scopes, next: nat, w: World, st: State, m: Marks, fuel: nat)
    returns (n: nat)
    requires Correct.Entered(code, b, sc, next, w, st)
    ensures
      (forall k: nat :: k < n ==> !Trips(code, st, m, k)) ==>
        var o := ExecBlock(Compiled, b, w, fuel);
        var r := RunBoxed(code, Going(st, m), n);
        if o.Timeout? then n >= fuel && r.Going? else Agrees(Erase(r), o, sc, st)
  {
    hide Run, RunBoxed, Trips, Correct.Entered, ExecBlock, Correct.Agrees;
    n := Correct.Forward(code, b, sc, next, w, st, fuel);
    if forall k: nat :: k < n ==> !Trips(code, st, m, k) {
      Erased(code, st, m, n);
      EndsTogether(code, st, m, n);
    }
  }

  lemma EndsTogether(code: seq<Instr>, st: State, m: Marks, n: nat)
    ensures RunBoxed(code, Going(st, m), n).Going? <==> Erase(RunBoxed(code, Going(st, m), n)).Running?
  {}

  /** Compiled code on the machine: with no handler around the body, a run that does not trip
      ends exactly when the statements do, and then with the same result; and a run that does
      trip leaves the course at the first trip. */
  lemma Adequate(code: seq<Instr>, b: Stmts, sc: Scopes, next: nat, w: World, st: State, m: Marks)
    requires Correct.Entered(code, b, sc, next, w, st) && st.handlers == []
    ensures SameCourse(code, st, m) <==> Smooth(code, st, m)
    ensures Smooth(code, st, m) ==> (Ends(code, st, m) <==> Terminates(Compiled, b, w))
    ensures Smooth(code, st, m) ==>
              forall n: nat, fuel: nat ::
                RunBoxed(code, Going(st, m), n).Over? && !ExecBlock(Compiled, b, w, fuel).Timeout? ==>
                  Agrees(Erase(RunBoxed(code, Going(st, m), n)), ExecBlock(Compiled, b, w, fuel), sc, st)
  {
    hide Run, RunBoxed, Trips, Correct.Entered, ExecBlock, Correct.Agrees, Terminates;
    BoxesShow(code, st, m);
    Correct.Adequate(code, b, sc, next, w, st);
    if Smooth(code, st, m) {
      forall n: nat ensures RunBoxed(code, Going(st, m), n).Over? <==> !Run(code, Running(st), n).Running? {
        EndsTogether(code, st, m, n);
      }
    }
  }

  /** Nor does it ever go wrong, until it trips or the body is over. */
  lemma NeverStuck(code: seq<Instr>, b: Stmts, sc: Scopes, next: nat, w: World, st: State, m: Marks, n: nat)
    requires Correct.Entered(code, b, sc, next, w, st)
    requires forall k: nat :: k < n ==> !Trips(code, st, m, k)
    ensures !Erase(RunBoxed(code, Going(st, m), n)).Stuck? || exists k: nat, fuel: nat ::
        k < n && Agrees(Erase(RunBoxed(code, Going(st, m), k)), ExecBlock(Compiled, b, w, fuel), sc, st)
    ensures st.handlers == [] ==> !Erase(RunBoxed(code, Going(st, m), n)).Stuck?
  {
    hide Run, RunBoxed, Trips, Correct.Entered, ExecBlock, Correct.Agrees;
    Erased(code, st, m, n);
    Correct.NeverStuck(code, b, sc, next, w, st, n);
    if Run(code, Running(st), n).Stuck? {
      var k: nat, fuel: nat :| k < n && Agrees(Run(code, Running(st), k), ExecBlock(Compiled, b, w, fuel), sc, st);
      Erased(code, st, m, k);
      assert Agrees(Erase(RunBoxed(code, Going(st, m), k)), ExecBlock(Compiled, b, w, fuel), sc, st);
    }
  }

  /** Tripping or not: after every number of steps both stacks are as deep as the current point
      says, and a function that has ended leaves both as they were, but for an error nobody
      handled. */
  lemma {:induction false} DepthOfPoint(code: seq<Instr>, f: seq<Instr>, a: seq<Level>, pc: int, st: State, m: Marks,
          n: nat)
    requires Levelled(code, f, a, pc) && st.pc == pc && st.handlers == []
    ensures Levels.Kept(Erase(RunBoxed(code, Going(st, m), n)), a, pc, |st.stack|)
    decreases n
  {
    hide Levelled, OnLevel, Step1, Fits, StepBoxed, TripsNext;
    if n == 0 {
      Starts(code, f, a, pc, st);
    } else {
      DepthOfPoint(code, f, a, pc, st, m, n - 1);
      var b := RunBoxed(code, Going(st, m), n - 1);
      if b.Over? {
        StepOver(code, b);
      } else if TripsNext(code, b) {
        StepStrays(code, b);
        FaultOnLevel(b.st, a, pc, |st.stack|);
      } else {
        StepErased(code, b);
        StepOnLevel(code, f, a, pc, |st.stack|, b.st);
      }
    }
  }

  lemma FaultOnLevel(st: State, a: seq<Level>, pc: int, base: nat)
    requires OnLevel(st, a, pc, base)
    ensures Levels.Kept(RaiseErr(st, FAULT), a, pc, base)
  {
    Raised(st.(pend := Some(FAULT)), a, pc, base);
  }

  // ----- the failing inputs

  /** `int x = e; if (x % d == 0) {} ...` */
  function Guarded(x: string, e: Expr, d: nat, rest: Stmts): Stmts {
    Cons(Let(x, IntType, Some(e)), Cons(If(Bin(Eq, Bin(Mod, Var(x), IntLit(d)), IntLit(0)), Nil, NoElif, None), rest))
  }

  /** A function about to run on a machine on which nothing is boxed. */
  ghost predicate Fresh(st: State, m: Marks) {
    st.pc == 0 && st.stack == [] && st.handlers == [] && m == Marks([], {})
  }

  lemma GuardedCode(x: string, e: Expr, d: nat, rest: Stmts, sc: Scopes, next: nat) returns (no: int)
    requires |sc| > 0 && 0 < d <= MAX_INT64
    ensures
      var code, n := CodeFunction(Guarded(x, e, d, rest), sc, next, 0), LenE(e, sc + [map[]]);
      |CodeE(e, sc + [map[]], 0)| == n && |code| > n + 1 && code[..n] == CodeE(e, sc + [map[]], 0)
      && code[n] == Define(Local(next)) && code[n + 1] == JumpMod(false, no, next, d)
  {
    hide CodeE, LenE, CodeCond, LenCond, CodeElifs, LayElifs, CodeList, LayList, CodeS, LayS;
    var cx := Ctx(sc + [map[]], next, Bottom, []);
    var s1 := Let(x, IntType, Some(e));
    var c := Bin(Eq, Bin(Mod, Var(x), IntLit(d)), IntLit(0));
    var s2 := If(c, Nil, NoElif, None);
    LetCode(x, e, cx);
    var l1 := LayS(s1, cx);
    var cx1 := At0(cx, l1);
    ListStep(s1, Cons(s2, rest), cx, 0);
    ListStep(s2, rest, cx1, l1.len);
    var body;
    no, body := TestCode(x, d, cx1, next, l1.len);
    Front(CodeE(e, cx.sc, 0), Define(Local(next)), JumpMod(false, no, next, d), body,
        CodeList(rest, At0(cx1, LayS(s2, cx1)), [], l1.len + LayS(s2, cx1).len), [Const(Null), Machine.Return]);
  }

  lemma LetCode(x: string, e: Expr, cx: Ctx)
    ensures
      var s := Let(x, IntType, Some(e));
      && CodeS(s, cx, [], 0) == CodeE(e, cx.sc, 0) + [Define(Local(cx.next))] && |CodeE(e, cx.sc, 0)| == LenE(e, cx.sc)
      && LayS(s, cx) == Lay(LenE(e, cx.sc) + 1, Bind(cx.sc, x, Binding(Local(cx.next), true)), cx.next
          + 1, OkE(e, cx.sc))
  {
    hide CodeE, LenE, OkE, Bind;
  }

  lemma TestCode(x: string, d: nat, cx: Ctx, slot: nat, pc: int) returns (no: int, body: seq<Instr>)
    requires |cx.sc| > 0 && cx.sc[|cx.sc| - 1] == map[x := Binding(Local(slot), true)] && 0 < d <= MAX_INT64
    ensures
      var c := Bin(Eq, Bin(Mod, Var(x), IntLit(d)), IntLit(0));
      CodeS(If(c, Nil, NoElif, None), cx, [], pc) == [JumpMod(false, no, slot, d)] + body
  {
    hide CodeE, LenE, CodeElifs, LayElifs, CodeBlock, LayBlock, CodeS, LayS;
    var c := Bin(Eq, Bin(Mod, Var(x), IntLit(d)), IntLit(0));
    assert Find(cx.sc, x) == |cx.sc| - 1 && FuseMod(c, cx.sc) == Some((slot, d, false));
    IfIs(c, Nil, NoElif, None, cx, [], pc);
    var tpc := pc + 1;
    var epc := tpc + LayBlock(Nil, cx).len + 1;
    var cx2 := cx.(next := LayBlock(Nil, cx).next);
    var end := epc + LayElifs(NoElif, None, cx2).len;
    no, body := epc, CodeBlock(Nil, cx, [], tpc) + [Jump(end)] + CodeElifs(NoElif, None, cx2, [], epc, end);
    assert CodeCond(c, cx.sc, pc, epc) == [JumpMod(false, epc, slot, d)] && LenCond(c, cx.sc) == 1;
    Regroup([JumpMod(false, epc, slot, d)], CodeBlock(Nil, cx, [], tpc), [Jump(end)],
        CodeElifs(NoElif, None, cx2, [], epc, end));
  }

  lemma Regroup(a: seq<Instr>, b: seq<Instr>, c: seq<Instr>, d: seq<Instr>)
    ensures a + b + c + d == a + (b + c + d)
  {}

  lemma Front(a: seq<Instr>, i: Instr, j: Instr, b: seq<Instr>, r: seq<Instr>, t: seq<Instr>)
    ensures
      var code := ((a + [i]) + (([j] + b) + r)) + t;
      |code| > |a| + 1 && code[..|a|] == a && code[|a|] == i && code[|a| + 1] == j
  {
    var code := ((a + [i]) + (([j] + b) + r)) + t;
    assert code[|a| + 1] == (([j] + b) + r)[0];
  }

  lemma ListStep(s: Stmt, rest: Stmts, cx: Ctx, pc: int)
    ensures CodeList(Cons(s, rest), cx, [], pc) ==
        CodeS(s, cx, [], pc) + CodeList(rest, At0(cx, LayS(s, cx)), [], pc + LayS(s, cx).len)
  {
    hide CodeS, LayS;
  }

  /** Where e is one instruction that pushes a boxed int, the test faults. */
  lemma Tripping(x: string, e: Expr, d: nat, rest: Stmts, sc: Scopes, next: nat, st: State, m: Marks, i: Instr,
          k: int, t: State)
    requires |sc| > 0 && 0 < d <= MAX_INT64 && Fresh(st, m)
    requires CodeE(e, sc + [map[]], 0) == [i] && LenE(e, sc + [map[]]) == 1 && !i.JumpMod?
    requires Exec(i, st) == Running(t) && t.pc == 1 && t.stack == [Int(k)] && t.handlers == []
    requires MarksAfter(i, st, m, t).stack == [true]
    ensures
      var code := CodeFunction(Guarded(x, e, d, rest), sc, next, 0);
      Trips(code, st, m, 2) && Erase(RunBoxed(code, Going(st, m), 3)).Uncaught?
      && Erase(RunBoxed(code, Going(st, m), 3)).st.pend == Some(FAULT)
  {
    hide Exec, MarksAfter, CodeE, LenE, CodeFunction;
    var code := CodeFunction(Guarded(x, e, d, rest), sc, next, 0);
    var no := GuardedCode(x, e, d, rest, sc, next);
    assert code[0] == code[..1][0] == i;
    var m1 := MarksAfter(i, st, m, t);
    var b0, b1 := Going(st, m), Going(t, m1);
    assert RunBoxed(code, b0, 1) == StepBoxed(code, RunBoxed(code, b0, 0)) == b1;
    var st2 := t.(pc := 2, stack := [], mem := t.mem[Local(next) := Int(k)]);
    var m2 := Marks([], m1.mem + {Local(next)});
    DefineStep(t, m1, next, k);
    assert RunBoxed(code, b0, 2) == StepBoxed(code, b1) == Going(st2, m2);
    StepStrays(code, Going(st2, m2));
    assert RunBoxed(code, b0, 3) == StepBoxed(code, Going(st2, m2));
    Uncatched(st2);
  }

  lemma DefineStep(t: State, m: Marks, slot: nat, k: int)
    requires t.pc == 1 && t.stack == [Int(k)] && t.handlers == [] && m.stack == [true]
    ensures ExecBoxed(Define(Local(slot)), t, m) ==
              Going(t.(pc := 2, stack := [], mem := t.mem[Local(slot) := Int(k)]), Marks([], m.mem + {Local(slot)}))
  {
    assert t.stack[..0] == [] && m.stack[..0] == [];
  }

  lemma Uncatched(st: State)
    requires st.handlers == []
    ensures RaiseErr(st, FAULT) == Uncaught(st.(pend := Some(FAULT)))
  {}

  /** ... and the evaluator goes on. */
  lemma EvaluatorGoesOn(x: string, e: Expr, d: nat, w: World, fuel: nat)
    requires d > 0 && EvalE(Evaluator, e, w.env + [map[]]).Yields? && EvalE(Evaluator, e, w.env + [map[]]).v.Int?
    ensures ExecBlock(Evaluator, Guarded(x, e, d, Nil), w, fuel).Normal?
  {
    hide EvalE;
    var w0 := Open(w, map[]);
    var s1 := Let(x, IntType, Some(e));
    var c := Bin(Eq, Bin(Mod, Var(x), IntLit(d)), IntLit(0));
    var s2 := If(c, Nil, NoElif, None);
    var r := EvalE(Evaluator, e, w0.env);
    var w1 := w0.(env := Bind(r.env, x, r.v));
    assert ExecS(Evaluator, s1, w0, fuel) == Normal(w1);
    Remainder(x, d, r.v.n, w1.env);
    var w2 := w1.(env := EvalCond(Evaluator, c, w1.env).env);
    assert ExecBlock(Evaluator, Nil, w2, fuel).Normal? && ExecElifs(Evaluator, NoElif, None, w2, fuel) == Normal(w2);
    assert ExecS(Evaluator, s2, w1, fuel).Normal?;
    TwoNormal(s1, s2, w0, fuel);
  }

  lemma Remainder(x: string, d: nat, k: int, env: Env)
    requires d > 0 && |env| > 0 && x in env[|env| - 1] && env[|env| - 1][x] == Int(k)
    ensures EvalCond(Evaluator, Bin(Eq, Bin(Mod, Var(x), IntLit(d)), IntLit(0)), env).Yields?
  {
    assert Find(env, x) == |env| - 1;
    var m := Bin(Mod, Var(x), IntLit(d));
    assert EvalE(Evaluator, Var(x), env) == Yields(Int(k), env)
        && EvalE(Evaluator, IntLit(d), env) == Yields(Int(d), env);
    assert EvalE(Evaluator, m, env) == Yields(Int(FloorMod(k, d)), env)
        && EvalE(Evaluator, IntLit(0), env) == Yields(Int(0), env);
    assert EvalE(Evaluator, Bin(Eq, m, IntLit(0)), env) == Yields(Bool(FloorMod(k, d) == 0), env);
  }

  lemma TwoNormal(s: Stmt, t: Stmt, w: World, fuel: nat)
    requires ExecS(Evaluator, s, w, fuel).Normal? && ExecS(Evaluator, t, ExecS(Evaluator, s, w, fuel).w, fuel).Normal?
    ensures ExecList(Evaluator, Cons(s, Cons(t, Nil)), w, fuel).Normal?
  {
    hide ExecS;
    var w1 := ExecS(Evaluator, s, w, fuel).w;
    var w2 := ExecS(Evaluator, t, w1, fuel).w;
    assert ExecList(Evaluator, Nil, w2, fuel) == Normal(w2);
    assert ExecList(Evaluator, Cons(t, Nil), w1, fuel) == Normal(w2);
  }

  /** The first failing input, an everyday one: `int x = a op b; if (x % d == 0) {...}` with two
      literals. The compiler folds the operator, and what it leaves is boxed. */
  lemma FoldedTrips(x: string, op: BinOp, a: nat, b: nat, d: nat, rest: Stmts, sc: Scopes, next: nat, st: State,
          m: Marks)
    requires |sc| > 0 && 0 < d <= MAX_INT64 && Fresh(st, m)
    requires Fold(op, IntLit(a), IntLit(b)).Some? && Fold(op, IntLit(a), IntLit(b)).value.Int?
    ensures
      var code := CodeFunction(Guarded(x, Bin(op, IntLit(a), IntLit(b)), d, rest), sc, next, 0);
      !Smooth(code, st, m) && Erase(RunBoxed(code, Going(st, m), 3)).Uncaught?
    ensures forall w: World, fuel: nat ::
              ExecBlock(Evaluator, Guarded(x, Bin(op, IntLit(a), IntLit(b)), d, Nil), w, fuel).Normal?
  {
    hide CodeFunction, ExecBlock, Fold;
    var e := Bin(op, IntLit(a), IntLit(b));
    var v := Fold(op, IntLit(a), IntLit(b)).value;
    FoldIs(op, IntLit(a), IntLit(b), sc + [map[]], 0);
    var t := st.(pc := 1, stack := [v]);
    assert st.stack[..|st.stack| - 0] + [v] == [v];
    Tripping(x, e, d, rest, sc, next, st, m, Folded(v), v.n, t);
    forall w: World, fuel: nat ensures ExecBlock(Evaluator, Guarded(x, e, d, Nil), w, fuel).Normal? {
      FoldEq(op, IntLit(a), IntLit(b), sc, 0, w.env + [map[]]);
      EvaluatorGoesOn(x, e, d, w, fuel);
    }
  }

  /** The second: `int x = y = y + 1; if (x % d == 0) {...}` when y is the largest 64-bit int. The
      fused addition overflows into a box. */
  lemma OverflowTrips(x: string, y: string, d: nat, rest: Stmts, sc: Scopes, next: nat, st: State, m: Marks)
    requires |sc| > 0 && 0 < d <= MAX_INT64 && Fresh(st, m) && IsIntVar(sc, y)
    requires RefOf(sc, y) in st.mem && st.mem[RefOf(sc, y)] == Int(MAX_INT64)
    ensures
      var e := Assign(y, Bin(Add, Var(y), IntLit(1)));
      var code := CodeFunction(Guarded(x, e, d, rest), sc, next, 0);
      !Smooth(code, st, m) && Erase(RunBoxed(code, Going(st, m), 3)).Uncaught?
    ensures forall w: World, fuel: nat :: Find(w.env, y) >= 0 && w.env[Find(w.env, y)][y] == Int(MAX_INT64) ==>
              ExecBlock(Evaluator, Guarded(x, Assign(y, Bin(Add, Var(y), IntLit(1))), d, Nil), w, fuel).Normal?
  {
    hide CodeFunction, ExecBlock, CodeE, LenE, EvalE, Exec, MarksAfter, Smooth, Trips;
    var e := Assign(y, Bin(Add, Var(y), IntLit(1)));
    var ref, k := RefOf(sc, y), MAX_INT64 + 1;
    AddIs(y, sc);
    var t := st.(pc := 1, stack := [Int(k)], mem := st.mem[ref := Int(k)]);
    AddStep(ref, st, m);
    Tripping(x, e, d, rest, sc, next, st, m, SelfArith(false, ref, Imm(1)), k, t);
    assert Trips(CodeFunction(Guarded(x, e, d, rest), sc, next, 0), st, m, 2);
    NotSmooth(CodeFunction(Guarded(x, e, d, rest), sc, next, 0), st, m, 2);
    forall w: World, fuel: nat | Find(w.env, y) >= 0 && w.env[Find(w.env, y)][y] == Int(MAX_INT64)
      ensures ExecBlock(Evaluator, Guarded(x, e, d, Nil), w, fuel).Normal?
    {
      AddYields(y, w.env);
      EvaluatorGoesOn(x, e, d, w, fuel);
    }
  }

  lemma NotSmooth(code: seq<Instr>, st: State, m: Marks, k: nat)
    requires Trips(code, st, m, k)
    ensures !Smooth(code, st, m)
  {
    hide Trips;
  }

  lemma AddIs(y: string, sc: Scopes)
    requires IsIntVar(sc, y)
    ensures
      var e, inner := Assign(y, Bin(Add, Var(y), IntLit(1))), sc + [map[]];
      CodeE(e, inner, 0) == [SelfArith(false, RefOf(sc, y), Imm(1))] && LenE(e, inner) == 1
  {
    var inner := sc + [map[]];
    assert inner[..|sc|] == sc && Find(inner, y) == Find(sc, y);
  }

  lemma AddStep(ref: Ref, st: State, m: Marks)
    requires Fresh(st, m) && ref in st.mem && st.mem[ref] == Int(MAX_INT64)
    ensures
      var i, k := SelfArith(false, ref, Imm(1)), MAX_INT64 + 1;
      var t := st.(pc := 1, stack := [Int(k)], mem := st.mem[ref := Int(k)]);
      Exec(i, st) == Running(t) && MarksAfter(i, st, m, t).stack == [true]
  {
    var k := MAX_INT64 + 1;
    assert st.stack[..|st.stack| - 0] + [Int(k)] == [Int(k)];
  }

  lemma AddYields(y: string, env: Env)
    requires Find(env, y) >= 0 && env[Find(env, y)][y] == Int(MAX_INT64)
    ensures
      var r := EvalE(Evaluator, Assign(y, Bin(Add, Var(y), IntLit(1))), env + [map[]]);
      r.Yields? && r.v.Int?
  {
    var env1: Env := env + [map[]];
    assert env1[..|env|] == env && Find(env1, y) == Find(env, y);
    assert EvalE(Evaluator, Var(y), env1) == Yields(Int(MAX_INT64), env1)
        && EvalE(Evaluator, IntLit(1), env1) == Yields(Int(1), env1);
  }
}
