/** Running a statement never unbinds a name. */
module Widening {
  import opened Syntax
  import opened Semantics
  import opened Hidden

  ghost predicate Wider(a: Env, b: Env) { |a| == |b| && forall i :: 0 <= i < |a| ==> a[i].Keys <= b[i].Keys }

  ghost predicate Widens(a: Env, o: Outcome) { o.Timeout? || Wider(a, o.w.env) }

  lemma Then(a: Env, b: Env, c: Env)
    requires Wider(a, b) && Wider(b, c)
    ensures Wider(a, c)
  {}

  lemma BindWider(env: Env, x: string, v: Value)
    ensures Wider(env, Bind(env, x, v))
  {}

  /** What is opened and shut again is no narrower outside. */
  lemma Inside(w: World, frame: map<string, Value>, env: Env)
    requires Wider(Open(w, frame).env, env)
    ensures Wider(w.env, Take(env, |env| - 1))
  {}

  lemma {:induction false} EvalWider(e: Expr, env: Env)
    ensures Wider(env, EvalE(Evaluator, e, env).env)
    decreases ExprSize(e), 0
  {
    hide Wider, Find, Assigned, EvalBin, EvalUn;
    Same(env);
    match e
    case Assign(x, f) =>
      EvalWider(f, env);
      var r := EvalE(Evaluator, f, env);
      if r.Yields? { AssignedWider(r.env, x, r.v); Then(env, r.env, Assigned(r.env, x, r.v)); }
    case Post(x, inc) =>
      var i := Find(env, x);
      if i >= 0 && env[i][x].Int? { AssignedWider(env, x, Int(env[i][x].n + (if inc then 1 else -1))); }
    case Un(_, f) => EvalWider(f, env);
    case Bin(_, l, r) => TwoWider(l, r, env);
    case And(l, r) => TwoWider(l, r, env);
    case Or(l, r) => TwoWider(l, r, env);
    case Coalesce(l, r) => TwoWider(l, r, env);
    case Ternary(c, t, f) => TwoWider(c, t, env); TwoWider(c, f, env);
    case _ =>
  }

  lemma {:induction false} TwoWider(l: Expr, r: Expr, env: Env)
    ensures
      var a := EvalE(Evaluator, l, env).env;
      Wider(env, a) && Wider(env, EvalE(Evaluator, r, a).env)
    decreases ExprSize(l) + ExprSize(r), 1
  {
    hide Wider, EvalE;
    EvalWider(l, env);
    EvalWider(r, EvalE(Evaluator, l, env).env);
    Then(env, EvalE(Evaluator, l, env).env, EvalE(Evaluator, r, EvalE(Evaluator, l, env).env).env);
  }

  lemma Same(env: Env)
    ensures Wider(env, env)
  {}

  lemma AssignedWider(env: Env, x: string, v: Value)
    ensures Wider(env, Assigned(env, x, v))
  {}

  lemma CondWider(e: Expr, env: Env)
    ensures Wider(env, EvalCond(Evaluator, e, env).env)
  {
    hide Wider, EvalE;
    EvalWider(e, env);
  }

  lemma OptWider(e: Option<Expr>, env: Env)
    ensures Wider(env, OptEval(Evaluator, e, env).env)
  {
    hide Wider, EvalE;
    Same(env);
    if e.Some? { EvalWider(e.value, env); }
  }

  lemma IterableWider(it: Iterable, env: Env)
    ensures Wider(env, EvalIterable(Evaluator, it, env).env)
  {
    hide Wider, EvalE, EvalBound, RangeIter, EachIter;
    match it
    case Each(e) => EvalWider(e, env);
    case Range(start, end, step, ex) =>
      var s := if start.None? then IntLit(0) else start.value;
      BoundWider(s, env);
      var a := EvalBound(Evaluator, s, env);
      var m := if end.None? then Lit(Null) else end.value;
      BoundWider(m, a.env);
      var b := EvalBound(Evaluator, m, a.env);
      Then(env, a.env, b.env);
      var t := if step.None? then IntLit(1) else step.value;
      BoundWider(t, b.env);
      Then(env, b.env, EvalBound(Evaluator, t, b.env).env);
  }

  lemma BoundWider(e: Expr, env: Env)
    ensures Wider(env, EvalBound(Evaluator, e, env).env)
  {
    hide Wider, EvalE;
    EvalWider(e, env);
  }

  lemma {:induction false} StmtWider(s: Stmt, w: World, fuel: nat)
    ensures Widens(w.env, ExecS(Evaluator, s, w, fuel))
    decreases fuel, Size(s), 1
  {
    hide Wider, EvalE, EvalCond, OptEval, Bind, ExecBlock, ExecElifs, EvalIterable;
    match s
    case Let(x, _, init) =>
      OptWider(init, w.env);
      var r := OptEval(Evaluator, init, w.env);
      if r.Yields? { BindWider(r.env, x, r.v); Then(w.env, r.env, Bind(r.env, x, r.v)); }
    case Eval(e) => EvalWider(e, w.env);
    case Print(e) => EvalWider(e, w.env);
    case If(c, t, es, a) =>
      CondWider(c, w.env);
      var r := EvalCond(Evaluator, c, w.env);
      if r.Yields? {
        BlockWider(t, w.(env := r.env), fuel);
        ChainWider(es, a, w.(env := r.env), fuel);
        Onward(w.env, r.env, ExecBlock(Evaluator, t, w.(env := r.env), fuel));
        Onward(w.env, r.env, ExecElifs(Evaluator, es, a, w.(env := r.env), fuel));
      }
    case While(c, b) =>
      CondWider(c, w.env);
      var r := EvalCond(Evaluator, c, w.env);
      if fuel > 0 && r.Yields? {
        BlockWider(b, w.(env := r.env), fuel);
        var o := ExecBlock(Evaluator, b, w.(env := r.env), fuel);
        Onward(w.env, r.env, o);
        if o.Normal? || o.Cnt? {
          StmtWider(s, o.w, fuel - 1);
          Onward(w.env, o.w.env, ExecS(Evaluator, s, o.w, fuel - 1));
        }
      }
    case For(_, _, _, _) => ScopedWider(s, w, fuel);
    case ForIn(_, _, _) => ScopedWider(s, w, fuel);
    case Try(_, _, _) => GuardedWider(s, w, fuel);
    case With(_, _, _) => GuardedWider(s, w, fuel);
    case Throw(e) => EvalWider(e, w.env);
    case Break => Same(w.env);
    case Continue => Same(w.env);
    case Return(e) => OptWider(e, w.env);
  }

  lemma Onward(a: Env, b: Env, o: Outcome)
    requires Wider(a, b) && Widens(b, o)
    ensures Widens(a, o)
  {}

  /** Leaving the scope that was opened. */
  lemma Shutting(w: World, frame: map<string, Value>, o: Outcome)
    requires Widens(Open(w, frame).env, o)
    ensures Widens(w.env, ShutAll(o))
  {}

  lemma {:induction false} ScopedWider(s: Stmt, w: World, fuel: nat)
    requires s.For? || s.ForIn?
    ensures Widens(w.env, ExecS(Evaluator, s, w, fuel))
    decreases fuel, Size(s), 0
  {
    hide Wider, EvalE, EvalIterable, OptEval, Bind, Close, IterRest, ExecFor, ExecEach, ExecS, Open, ShutAll, Widens;
    var w0 := Open(w, map[]);
    Same(w0.env);
    if s.For? {
      LoopIs(s, w, fuel);
      var o := if s.first.None? then Normal(w0) else ExecS(Evaluator, AsStmt(s.first.value), w0, fuel);
      if s.first.Some? { StmtWider(AsStmt(s.first.value), w0, fuel); } else { Stands(w0); }
      if o.Normal? {
        LoopWider(s.cond, s.update, s.body, o.w, fuel);
        Steps(w0.env, o, ExecFor(Evaluator, s.cond, s.update, s.body, o.w, fuel));
      }
      Shutting(w, map[], if o.Normal? then ExecFor(Evaluator, s.cond, s.update, s.body, o.w, fuel) else o);
    } else {
      IterableWider(s.iterable, w0.env);
      EachWhole(s, w, fuel);
    }
  }

  lemma Stands(w: World)
    ensures Widens(w.env, Normal(w))
  {}

  lemma Steps(a: Env, o: Outcome, p: Outcome)
    requires Widens(a, o) && !o.Timeout? && Widens(o.w.env, p)
    ensures Widens(a, p)
  {}

  lemma LoopIs(s: Stmt, w: World, fuel: nat)
    requires s.For?
    ensures
      var w0 := Open(w, map[]);
      var o := if s.first.None? then Normal(w0) else ExecS(Evaluator, AsStmt(s.first.value), w0, fuel);
      ExecS(Evaluator, s, w, fuel) ==
      ShutAll(if o.Normal? then ExecFor(Evaluator, s.cond, s.update, s.body, o.w, fuel) else o)
  {
    hide ExecFor, ShutAll, Open;
  }

  lemma {:induction false} EachWhole(s: Stmt, w: World, fuel: nat)
    requires s.ForIn? && Wider(Open(w, map[]).env, EvalIterable(Evaluator, s.iterable, Open(w, map[]).env).env)
    ensures Widens(w.env, ExecS(Evaluator, s, w, fuel))
    decreases fuel, BlockSize(s.body), 3
  {
    hide Wider, EvalIterable, Bind, Close, IterRest, ExecEach, Open, ShutAll;
    var w0 := Open(w, map[]);
    var r := EvalIterable(Evaluator, s.iterable, w0.env);
    if r.Yields? {
      var w1 := Begun(w0, s.x, r.env, r.v);
      BindWider(r.env, s.x, Null);
      Then(w0.env, r.env, w1.env);
      EachWider(s.x, s.body, w1, IterRest(r.v), fuel);
      var o := ExecEach(Evaluator, s.x, s.body, w1, IterRest(r.v), fuel);
      Onward(w0.env, w1.env, o);
      Shutting(w, map[], LeaveEach(Evaluator, o, Close(r.v)));
    } else {
      Shutting(w, map[], Throwing(w0, r.env, r.err));
    }
  }

  lemma {:induction false} GuardedWider(s: Stmt, w: World, fuel: nat)
    requires s.Try? || s.With?
    ensures Widens(w.env, ExecS(Evaluator, s, w, fuel))
    decreases fuel, Size(s), 0
  {
    hide Wider, EvalE, Bind, Select, EnterEvents, ExitEvents, ExecBlock, ExecHandler, Finally, Open, ShutAll;
    if s.Try? {
      TryEqual(Evaluator, s.body, s.catches, s.fin, w, fuel);
      BlockWider(s.body, w, fuel);
      var o := ExecBlock(Evaluator, s.body, w, fuel);
      if o.Thr? {
        var cs := Select(s.catches, PendOf(o.w));
        HandlerWider(cs, s.fin, o.w, fuel);
        Onward(w.env, o.w.env, ExecHandler(Evaluator, cs, s.fin, o.w, fuel));
      } else {
        LastWider(w.env, s.fin, o, fuel);
      }
    } else {
      WithEqual(Evaluator, s.name, s.e, s.body, w, fuel);
      var w0 := Open(w, map[]);
      EvalWider(s.e, w0.env);
      var r := EvalE(Evaluator, s.e, w0.env);
      if r.Yields? {
        var w1 := HeldWorld(s.name, w0, r.v, r.env);
        HeldWider(s.name, w0, r.v, r.env);
        Then(w0.env, r.env, w1.env);
        BlockWider(s.body, w1, fuel);
        var o := ExecBlock(Evaluator, s.body, w1, fuel);
        Onward(w0.env, w1.env, o);
        Shutting(w, map[], LogAll(o, ExitEvents(r.v)));
      } else {
        Shutting(w, map[], Throwing(w0, r.env, r.err));
      }
    }
  }

  lemma HeldWider(name: Option<string>, w: World, v: Value, env: Env)
    ensures Wider(env, HeldWorld(name, w, v, env).env)
  {}

  lemma {:induction false} BlockWider(b: Stmts, w: World, fuel: nat)
    ensures Widens(w.env, ExecBlock(Evaluator, b, w, fuel))
    decreases fuel, BlockSize(b), 1
  {
    hide ExecList, Wider, Open, ShutAll;
    ListWider(b, Open(w, map[]), fuel);
    Shutting(w, map[], ExecList(Evaluator, b, Open(w, map[]), fuel));
  }

  lemma {:induction false} ListWider(b: Stmts, w: World, fuel: nat)
    ensures Widens(w.env, ExecList(Evaluator, b, w, fuel))
    decreases fuel, BlockSize(b), 0
  {
    hide ExecS, Wider;
    Same(w.env);
    if b.Cons? {
      StmtWider(b.head, w, fuel);
      var o := ExecS(Evaluator, b.head, w, fuel);
      if o.Normal? {
        ListWider(b.tail, o.w, fuel);
        Onward(w.env, o.w.env, ExecList(Evaluator, b.tail, o.w, fuel));
      }
    }
  }

  lemma {:induction false} ChainWider(es: Elifs, a: Option<Stmts>, w: World, fuel: nat)
    ensures Widens(w.env, ExecElifs(Evaluator, es, a, w, fuel))
    decreases fuel, ElifsSize(es) + (if a.Some? then BlockSize(a.value) else 0), 2
  {
    hide EvalCond, ExecBlock, Wider;
    Same(w.env);
    match es
    case NoElif => if a.Some? { BlockWider(a.value, w, fuel); }
    case Elif(c, b, rest) =>
      CondWider(c, w.env);
      var r := EvalCond(Evaluator, c, w.env);
      if r.Yields? {
        var w1 := w.(env := r.env);
        BlockWider(b, w1, fuel);
        ChainWider(rest, a, w1, fuel);
        Onward(w.env, r.env, ExecBlock(Evaluator, b, w1, fuel));
        Onward(w.env, r.env, ExecElifs(Evaluator, rest, a, w1, fuel));
      }
  }

  lemma {:induction false} LoopWider(c: Option<Expr>, u: Option<Expr>, b: Stmts, w: World, fuel: nat)
    ensures Widens(w.env, ExecFor(Evaluator, c, u, b, w, fuel))
    decreases fuel, BlockSize(b), 2
  {
    hide EvalCond, OptEval, ExecBlock, Wider;
    Same(w.env);
    var r := if c.None? then Yields(Bool(true), w.env) else EvalCond(Evaluator, c.value, w.env);
    if c.Some? { CondWider(c.value, w.env); }
    if fuel > 0 && r.Yields? {
      BlockWider(b, w.(env := r.env), fuel);
      var o := ExecBlock(Evaluator, b, w.(env := r.env), fuel);
      Onward(w.env, r.env, o);
      if o.Normal? || o.Cnt? {
        OptWider(u, o.w.env);
        var r1 := OptEval(Evaluator, u, o.w.env);
        Then(w.env, o.w.env, r1.env);
        if r1.Yields? {
          LoopWider(c, u, b, o.w.(env := r1.env), fuel - 1);
          Onward(w.env, r1.env, ExecFor(Evaluator, c, u, b, o.w.(env := r1.env), fuel - 1));
        }
      }
    }
  }

  lemma {:induction false} EachWider(x: string, b: Stmts, w: World, items: seq<Value>, fuel: nat)
    ensures Widens(w.env, ExecEach(Evaluator, x, b, w, items, fuel))
    decreases fuel, BlockSize(b), 2, |items|
  {
    hide Bind, ExecBlock, Wider;
    Same(w.env);
    if items != [] {
      var w1 := w.(env := Bind(w.env, x, items[0]));
      BindWider(w.env, x, items[0]);
      BlockWider(b, w1, fuel);
      var o := ExecBlock(Evaluator, b, w1, fuel);
      Onward(w.env, w1.env, o);
      if o.Normal? || o.Cnt? {
        EachWider(x, b, o.w, items[1..], fuel);
        Onward(w.env, o.w.env, ExecEach(Evaluator, x, b, o.w, items[1..], fuel));
      }
    }
  }

  lemma {:induction false} LastWider(a: Env, f: Option<Stmts>, o: Outcome, fuel: nat)
    requires Widens(a, o)
    ensures Widens(a, Finally(Evaluator, f, o, fuel))
    decreases fuel, if f.Some? then BlockSize(f.value) else 0, 2
  {
    hide ExecBlock, Wider;
    if f.Some? && !o.Timeout? {
      BlockWider(f.value, o.w, fuel);
      Onward(a, o.w.env, ExecBlock(Evaluator, f.value, o.w, fuel));
    }
  }

  lemma {:induction false} HandlerWider(cs: Catches, f: Option<Stmts>, w: World, fuel: nat)
    ensures Widens(w.env, ExecHandler(Evaluator, cs, f, w, fuel))
    decreases fuel, CatchesSize(cs) + (if f.Some? then BlockSize(f.value) else 0), 3
  {
    hide ExecBlock, ExecList, Finally, Wider, ShutAll;
    match cs
    case Catch(kind, name, b, rest) =>
      var frame := if name.Some? then map[name.value := PendOf(w)] else map[];
      var w1 := Open(w, frame).(pend := None);
      ListWider(b, w1, fuel);
      CatchEqual(Evaluator, kind, name, b, rest, f, w, fuel);
      var o := ExecList(Evaluator, b, w1, fuel);
      Shutting(w, frame, o);
      LastWider(w.env, f, ShutAll(o), fuel);
    case NoCatch =>
      Same(w.env);
      LastWider(w.env, f, Thr(w), fuel);
  }
}
