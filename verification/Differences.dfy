/** The places at which compiled code and the evaluator part, each on a program of two or
    three lines. */
module Differences {
  import opened Syntax
  import opened Semantics
  import opened Agreement

  const ONE: Value := Err("ValueError")
  const TWO: Value := Err("IOError")

  function Do(s: Stmt): Stmts { Cons(s, Nil) }

  lemma Single(d: Dialect, s: Stmt, w: World)
    ensures ExecBlock(d, Do(s), w, 0) == ShutAll(ExecS(d, s, Open(w, map[]), 0))
    ensures ExecList(d, Do(s), w, 0) == ExecS(d, s, w, 0)
  {
    hide ExecS;
    forall w0 ensures ExecList(d, Do(s), w0, 0) == ExecS(d, s, w0, 0) {
      var o := ExecS(d, s, w0, 0);
      assert ExecList(d, Do(s), w0, 0) == match o case Normal(w1) => ExecList(d, Nil, w1, 0) case o => o;
    }
  }

  lemma ShutOpen(w: World, frame: map<string, Value>)
    ensures Shut(Open(w, frame)) == w
  {
    assert (w.env + [frame])[..|w.env|] == w.env;
  }

  lemma Throws(d: Dialect, v: Value, w: World)
    requires v.Err?
    ensures ExecBlock(d, Do(Throw(Lit(v))), w, 0) == Thr(w.(pend := Some(v)))
    ensures ExecList(d, Do(Throw(Lit(v))), w, 0) == Thr(w.(pend := Some(v)))
  {
    hide ExecBlock, ExecList;
    Single(d, Throw(Lit(v)), w);
    assert ExecS(d, Throw(Lit(v)), w, 0) == Thr(w.(pend := Some(v)));
    assert ExecS(d, Throw(Lit(v)), Open(w, map[]), 0) == Thr(Open(w, map[]).(pend := Some(v)));
    ShutOpen(w.(pend := Some(v)), map[]);
    assert Open(w, map[]).(pend := Some(v)) == Open(w.(pend := Some(v)), map[]);
  }

  lemma Prints(d: Dialect, e: Expr, v: Value, w: World)
    requires EvalE(d, e, w.env + [map[]]) == Yields(v, w.env + [map[]])
    ensures ExecBlock(d, Do(Print(e)), w, 0) == Normal(Log(w, [Printed(v)]))
  {
    hide ExecBlock, ExecList, EvalE;
    Single(d, Print(e), w);
    assert ExecS(d, Print(e), Open(w, map[]), 0) == Normal(Log(Open(w, map[]), [Printed(v)]));
    ShutOpen(Log(w, [Printed(v)]), map[]);
    assert Log(Open(w, map[]), [Printed(v)]) == Open(Log(w, [Printed(v)]), map[]);
  }

  lemma TryThrows(d: Dialect, v: Value, cs: Catches, f: Option<Stmts>, w: World)
    requires v.Err?
    ensures ExecS(d, Try(Do(Throw(Lit(v))), cs, f), w, 0) == ExecHandler(d, Select(cs, v), f, w.(pend := Some(v)), 0)
  {
    hide ExecBlock, ExecHandler, Select, Finally;
    Throws(d, v, w);
  }

  /** An error raised inside a catch body skips the finally block in compiled code. */
  lemma ThrowInCatch(w: World)
    ensures
      var s := Try(Do(Throw(Lit(ONE))), Catch(None, None, Do(Throw(Lit(TWO))), NoCatch), Some(Do(Print(IntLit(1)))));
      && ExecS(Evaluator, s, w, 0) == Thr(Log(w.(pend := Some(TWO)), [Printed(Int(1))]))
      && ExecS(Compiled, s, w, 0) == Thr(w.(pend := Some(TWO)))
  {
    hide ExecBlock, ExecList, ExecS, Finally, Shut, Open;
    var fin := Do(Print(IntLit(1)));
    var cs := Catch(None, None, Do(Throw(Lit(TWO))), NoCatch);
    var w1 := w.(pend := Some(ONE));
    assert Select(cs, ONE) == cs;
    var inner := Open(w1, map[]).(pend := None);
    assert inner.(pend := Some(TWO)) == Open(w.(pend := Some(TWO)), map[]) by { OpenPend(w1, None, Some(TWO)); }
    ShutOpen(w.(pend := Some(TWO)), map[]);
    forall d: Dialect
      ensures ExecS(d, Try(Do(Throw(Lit(ONE))), cs, Some(fin)), w, 0) == ExecHandler(d, cs, Some(fin), w1, 0)
      ensures ShutAll(ExecList(d, Do(Throw(Lit(TWO))), inner, 0)) == Thr(w.(pend := Some(TWO)))
    {
      TryThrows(d, ONE, cs, Some(fin), w);
      Throws(d, TWO, inner);
    }
    Prints(Evaluator, IntLit(1), Int(1), w.(pend := Some(TWO)));
    FinallyRuns(fin, Thr(w.(pend := Some(TWO))), Log(w.(pend := Some(TWO)), [Printed(Int(1))]));
  }

  lemma OpenPend(w: World, p: Option<Value>, q: Option<Value>)
    ensures Open(w, map[]).(pend := p).(pend := q) == Open(w.(pend := q), map[])
  {}

  lemma FinallyRuns(f: Stmts, o: Outcome, w: World)
    requires o.Thr? && ExecBlock(Evaluator, f, o.w, 0) == Normal(w)
    ensures Finally(Evaluator, Some(f), o, 0) == Thr(w.(pend := Some(PendOf(o.w))))
  {
    hide ExecBlock;
  }

  /** A catch clause whose body ends normally. */
  lemma Caught(d: Dialect, name: Option<string>, b: Stmts, err: Value, w: World, w1: World)
    requires ExecList(d, b, Open(w, if name.Some? then map[name.value := err] else map[]).(pend := None), 0) ==
        Normal(w1)
    ensures ExecHandler(d, Catch(None, name, b, NoCatch), None, w.(pend := Some(err)), 0) == Normal(Shut(w1))
  {
    hide ExecList, ExecBlock, Shut;
    assert Open(w.(pend := Some(err)), map[]).(pend := None) == Open(w, map[]).(pend := None);
    if name.Some? {
      assert Open(w.(pend := Some(err)), map[name.value := err]).(pend := None) ==
          Open(w, map[name.value := err]).(pend := None);
    }
  }

  /** `try { throw } catch { print 1 }`, as a block: it prints and leaves nothing pending. */
  lemma Handled(d: Dialect, w: World)
    ensures
      var g := Try(Do(Throw(Lit(TWO))), Catch(None, None, Do(Print(IntLit(1))), NoCatch), None);
      ExecBlock(d, Do(g), w, 0) == Normal(Log(w.(pend := None), [Printed(Int(1))]))
  {
    hide ExecBlock, ExecList, ExecHandler, ExecS;
    var cs := Catch(None, None, Do(Print(IntLit(1))), NoCatch);
    var g := Try(Do(Throw(Lit(TWO))), cs, None);
    var w1 := Open(w, map[]);
    Single(d, g, w);
    TryThrows(d, TWO, cs, None, w1);
    assert Select(cs, TWO) == cs;
    var inner := Open(w1, map[]).(pend := None);
    Single(d, Print(IntLit(1)), inner);
    PrintsHere(d, inner);
    Caught(d, None, Do(Print(IntLit(1))), TWO, w1, Log(inner, [Printed(Int(1))]));
    var w2 := Log(w.(pend := None), [Printed(Int(1))]);
    assert Log(inner, [Printed(Int(1))]) == Open(Open(w2, map[]), map[]);
    ShutOpen(Open(w2, map[]), map[]);
    ShutOpen(w2, map[]);
  }

  lemma PrintsHere(d: Dialect, w: World)
    ensures ExecS(d, Print(IntLit(1)), w, 0) == Normal(Log(w, [Printed(Int(1))]))
  {}

  /** A finally block that handles an error of its own makes compiled code forget the error
      it was entered with: the block runs a second time and the error is lost. */
  lemma TryInFinally(w: World)
    ensures
      var g := Try(Do(Throw(Lit(TWO))), Catch(None, None, Do(Print(IntLit(1))), NoCatch), None);
      var s := Try(Do(Throw(Lit(ONE))), NoCatch, Some(Do(g)));
      && ExecS(Evaluator, s, w, 0) == Thr(Log(w.(pend := Some(ONE)), [Printed(Int(1))]))
      && ExecS(Compiled, s, w, 0) == Normal(Log(w.(pend := None), [Printed(Int(1)), Printed(Int(1))]))
  {
    hide ExecBlock, ExecList, ExecS, Shut, Open;
    var g := Try(Do(Throw(Lit(TWO))), Catch(None, None, Do(Print(IntLit(1))), NoCatch), None);
    var w1 := w.(pend := Some(ONE));
    var w2 := Log(w.(pend := None), [Printed(Int(1))]);
    Handled(Evaluator, w1);
    Handled(Compiled, w1);
    Handled(Compiled, w2);
    TryThrows(Evaluator, ONE, NoCatch, Some(Do(g)), w);
    TryThrows(Compiled, ONE, NoCatch, Some(Do(g)), w);
    assert w.trace + [Printed(Int(1))] + [Printed(Int(1))] == w.trace + [Printed(Int(1)), Printed(Int(1))];
  }

  /** A catch clause whose body returns at once. */
  lemma ReturnsFrom(d: Dialect, x: string, err: Value, f: Stmts, w: World)
    ensures
      var inner := Open(w, map[x := err]).(pend := None);
      ExecHandler(d, Catch(None, Some(x), Do(Return(None)), NoCatch), Some(f), w.(pend := Some(err)), 0) ==
        if d.Evaluator? then Finally(d, Some(f), Ret(Null, w.(pend := None)), 0)
        else ShutAll(Finally(d, Some(f), Ret(Null, inner), 0))
  {
    hide ExecBlock, ExecList, ExecS, Shut, Finally;
    var inner := Open(w, map[x := err]).(pend := None);
    assert Open(w.(pend := Some(err)), map[x := err]).(pend := None) == inner;
    ReturnsNull(d, inner);
    Single(d, Return(None), inner);
    ShutOpen(w.(pend := None), map[x := err]);
    assert inner == Open(w.(pend := None), map[x := err]);
  }

  lemma ThenReturns(d: Dialect, f: Stmts, v: Value, w: World, w1: World)
    requires ExecBlock(d, f, w, 0) == Normal(w1)
    ensures Finally(d, Some(f), Ret(v, w), 0) == Ret(v, w1)
  {
    hide ExecBlock;
  }

  /** Left through `return`, a catch body's finally block reads the error where the program
      text means the variable outside. */
  lemma FinallySeesCatch(w: World)
    requires |w.env| > 0 && w.env[|w.env| - 1] == map["x" := Int(7)]
    ensures
      var s := Try(Do(Throw(Lit(ONE))), Catch(None, Some("x"), Do(Return(None)), NoCatch), Some(Do(Print(Var("x")))));
      && ExecS(Evaluator, s, w, 0) == Ret(Null, Log(w.(pend := None), [Printed(Int(7))]))
      && ExecS(Compiled, s, w, 0) == Ret(Null, Log(w.(pend := None), [Printed(ONE)]))
  {
    hide ExecBlock, ExecList, ExecS, ExecHandler, Finally, Shut, EvalE, Open, Log;
    var fin := Do(Print(Var("x")));
    var cs := Catch(None, Some("x"), Do(Return(None)), NoCatch);
    var w0 := w.(pend := None);
    TryReturns(Evaluator, cs, fin, w);
    TryReturns(Compiled, cs, fin, w);
    SeesOuter(w0, fin);
    SeesError(w, fin);
  }

  lemma TryReturns(d: Dialect, cs: Catches, f: Stmts, w: World)
    requires cs == Catch(None, Some("x"), Do(Return(None)), NoCatch)
    ensures
      ExecS(d, Try(Do(Throw(Lit(ONE))), cs, Some(f)), w, 0) ==
        if d.Evaluator? then Finally(d, Some(f), Ret(Null, w.(pend := None)), 0)
        else ShutAll(Finally(d, Some(f), Ret(Null, Open(w, map["x" := ONE]).(pend := None)), 0))
  {
    hide ExecBlock, ExecList, ExecS, ExecHandler, Finally, Shut, Open;
    assert Select(cs, ONE) == cs;
    TryThrows(d, ONE, cs, Some(f), w);
    ReturnsFrom(d, "x", ONE, f, w);
  }

  lemma SeesOuter(w: World, fin: Stmts)
    requires |w.env| > 0 && w.env[|w.env| - 1] == map["x" := Int(7)] && fin == Do(Print(Var("x")))
    ensures Finally(Evaluator, Some(fin), Ret(Null, w), 0) == Ret(Null, Log(w, [Printed(Int(7))]))
  {
    hide ExecBlock, Finally, EvalE;
    ReadsX(Evaluator, w.env, Int(7));
    Prints(Evaluator, Var("x"), Int(7), w);
    ThenReturns(Evaluator, fin, Null, w, Log(w, [Printed(Int(7))]));
  }

  lemma SeesError(w: World, fin: Stmts)
    requires fin == Do(Print(Var("x")))
    ensures ShutAll(Finally(Compiled, Some(fin), Ret(Null, Open(w, map["x" := ONE]).(pend := None)), 0)) ==
              Ret(Null, Log(w.(pend := None), [Printed(ONE)]))
  {
    hide ExecBlock, Finally, Shut, EvalE;
    var inner := Open(w, map["x" := ONE]).(pend := None);
    var w1 := Log(w.(pend := None), [Printed(ONE)]);
    ReadsX(Compiled, w.env + [map["x" := ONE]], ONE);
    Prints(Compiled, Var("x"), ONE, inner);
    ThenReturns(Compiled, fin, Null, inner, Log(inner, [Printed(ONE)]));
    assert Log(inner, [Printed(ONE)]) == Open(w1, map["x" := ONE]);
    ShutOpen(w1, map["x" := ONE]);
  }

  lemma ReturnsNull(d: Dialect, w: World)
    ensures ExecS(d, Return(None), w, 0) == Ret(Null, w)
  {}

  lemma ReadsX(d: Dialect, env: Env, v: Value)
    requires |env| > 0 && env[|env| - 1] == map["x" := v]
    ensures EvalE(d, Var("x"), env + [map[]]) == Yields(v, env + [map[]])
  {
    var env1: Env := env + [map[]];
    assert env1[..|env|] == env;
    assert Find(env1, "x") == Find(env, "x") == |env| - 1;
  }

  lemma EachThrows(d: Dialect, x: string, v: Value, w: World)
    requires v.Err?
    ensures var w1 := Open(w, map[x := Null]);
            ExecEach(d, x, Do(Throw(Lit(v))), w1, [Null], 0) == Thr(w1.(pend := Some(v)))
  {
    hide ExecBlock, Bind;
    BindAgain(w, x, Null);
    Throws(d, v, Open(w, map[x := Null]));
  }

  lemma ForInIs(d: Dialect, x: string, v: Value, b: Stmts, w: World, it: Value)
    requires EachIter(v) == Some(it) && it.Iter?
    ensures ExecS(d, ForIn(x, Iterable.Each(Lit(v)), b), w, 0) ==
              ShutAll(LeaveEach(d, ExecEach(d, x, b, Open(Log(w, Opens(it)), map[x := Null]), it.rest, 0), Close(it)))
  {
    hide ExecEach, LeaveEach, Close, Bind, Opens;
    BindNew(w, x, Null);
    assert Log(Open(w, map[x := Null]), Opens(it)) == Open(Log(w, Opens(it)), map[x := Null]);
  }

  /** An error that leaves a for-in loop closes the generator in the evaluator only. */
  lemma ThrowInLoop(w: World, id: nat)
    ensures
      var s := ForIn("x", Iterable.Each(Lit(Gen(id, [Null]))), Do(Throw(Lit(ONE))));
      && ExecS(Evaluator, s, w, 0) == Thr(Log(w.(pend := Some(ONE)), [Opened(id), Closed(id)]))
      && ExecS(Compiled, s, w, 0) == Thr(Log(w.(pend := Some(ONE)), [Opened(id)]))
  {
    hide ExecS, ExecEach, Shut;
    var b := Do(Throw(Lit(ONE)));
    ForInIs(Evaluator, "x", Gen(id, [Null]), b, w, Iter(Some(id), [Null]));
    ForInIs(Compiled, "x", Gen(id, [Null]), b, w, Iter(Some(id), [Null]));
    var w1 := Log(w, [Opened(id)]);
    EachThrows(Evaluator, "x", ONE, w1);
    EachThrows(Compiled, "x", ONE, w1);
    var w2 := w1.(pend := Some(ONE));
    assert Open(w1, map["x" := Null]).(pend := Some(ONE)) == Open(w2, map["x" := Null]);
    ShutOpen(w2, map["x" := Null]);
    assert Log(Open(w2, map["x" := Null]), [Closed(id)]) == Open(Log(w2, [Closed(id)]), map["x" := Null]);
    ShutOpen(Log(w2, [Closed(id)]), map["x" := Null]);
    assert w.trace + [Opened(id)] + [Closed(id)] == w.trace + [Opened(id), Closed(id)];
  }

  /** `print x++` prints the number after in the evaluator, and the one before in compiled code. */
  lemma StepValue(w: World, n: int)
    requires |w.env| > 0 && "x" in w.env[|w.env| - 1] && w.env[|w.env| - 1]["x"] == Int(n)
    ensures
      var s, after := Print(Post("x", true)), w.(env := Bind(w.env, "x", Int(n + 1)));
      && ExecS(Evaluator, s, w, 0) == Normal(Log(after, [Printed(Int(n + 1))]))
      && ExecS(Compiled, s, w, 0) == Normal(Log(after, [Printed(Int(n))]))
  {
    hide Find;
    FindHere(w.env, "x");
    var before, after := Yields(Int(n), Bind(w.env, "x", Int(n + 1))), Yields(Int(n + 1), Bind(w.env, "x", Int(n + 1)));
    assert EvalE(Compiled, Post("x", true), w.env) == before;
    assert EvalE(Evaluator, Post("x", true), w.env) == after;
  }

  lemma FindHere(env: Env, x: string)
    requires |env| > 0 && x in env[|env| - 1]
    ensures Find(env, x) == |env| - 1
  {}

  /** `for (i in null..(x = 1)) {}` fails in both, but only compiled code has set x. */
  lemma RangeFault(w: World, n: int)
    requires |w.env| > 0 && "x" in w.env[|w.env| - 1] && w.env[|w.env| - 1]["x"] == Int(n)
    ensures
      var s := ForIn("i", Range(Some(Lit(Null)), Some(Assign("x", IntLit(1))), None, false), Nil);
      && ExecS(Evaluator, s, w, 0) == Thr(w.(pend := Some(FAULT)))
      && ExecS(Compiled, s, w, 0) == Thr(w.(env := Bind(w.env, "x", Int(1)), pend := Some(FAULT)))
  {
    hide EvalIterable, Bind, ExecS, ExecEach, LeaveEach, Begun, Close, Shut;
    var w0, env1 := Open(w, map[]), Bind(w.env, "x", Int(1));
    var it := Range(Some(Lit(Null)), Some(Assign("x", IntLit(1))), None, false);
    BoundsFail(w.env, n, it);
    var w1 := w.(env := env1);
    ShutOpen(w.(pend := Some(FAULT)), map[]);
    ShutOpen(w1.(pend := Some(FAULT)), map[]);
    ForInEqual(Evaluator, "i", it, Nil, w, 0);
    ForInEqual(Compiled, "i", it, Nil, w, 0);
    assert Throwing(w0, w0.env, FAULT) == Thr(Open(w.(pend := Some(FAULT)), map[]));
    assert Throwing(w0, env1 + [map[]], FAULT) == Thr(Open(w1.(pend := Some(FAULT)), map[]));
  }

  lemma BoundsFail(env: Env, n: int, it: Iterable)
    requires |env| > 0 && "x" in env[|env| - 1] && env[|env| - 1]["x"] == Int(n)
    requires it == Range(Some(Lit(Null)), Some(Assign("x", IntLit(1))), None, false)
    ensures EvalIterable(Evaluator, it, env + [map[]]) == Fails(FAULT, env + [map[]])
    ensures EvalIterable(Compiled, it, env + [map[]]) == Fails(FAULT, Bind(env, "x", Int(1)) + [map[]])
  {
    hide Find;
    var env0, env1 := env + [map[]], Bind(env, "x", Int(1)) + [map[]];
    FindInner(env, "x");
    assert Assigned(env0, "x", Int(1)) == env1;
    assert EvalE(Evaluator, Lit(Null), env0) == Yields(Null, env0);
    assert EvalE(Compiled, Lit(Null), env0) == Yields(Null, env0);
    assert EvalE(Compiled, IntLit(1), env0) == Yields(Int(1), env0);
    assert EvalE(Compiled, Assign("x", IntLit(1)), env0) == Yields(Int(1), env1);
    assert EvalE(Compiled, IntLit(1), env1) == Yields(Int(1), env1);
  }

  lemma FindInner(env: Env, x: string)
    requires |env| > 0 && x in env[|env| - 1]
    ensures Find(env + [map[]], x) == |env| - 1
  {
    assert (env + [map[]])[..|env|] == env;
  }

  lemma BindNew(w: World, x: string, v: Value)
    ensures Open(w, map[]).(env := Bind(Open(w, map[]).env, x, v)) == Open(w, map[x := v])
  {
    assert map[][x := v] == map[x := v];
  }

  lemma BindAgain(w: World, x: string, v: Value)
    ensures Bind(Open(w, map[x := v]).env, x, v) == Open(w, map[x := v]).env
  {
    assert map[x := v][x := v] == map[x := v];
  }

  lemma Breaks(d: Dialect, w: World)
    ensures ExecBlock(d, Do(Break), w, 0) == Brk(w)
  {
    hide ExecBlock, ExecList;
    Single(d, Break, w);
    ShutOpen(w, map[]);
    assert ExecS(d, Break, Open(w, map[]), 0) == Brk(Open(w, map[]));
  }

  /** `try { throw } finally { break }` drops its error, but leaves it pending. */
  lemma DropsError(d: Dialect, w: World)
    ensures ExecBlock(d, Do(Try(Do(Throw(Lit(TWO))), NoCatch, Some(Do(Break)))), w, 0) == Brk(w.(pend := Some(TWO)))
  {
    hide ExecBlock, ExecList, ExecS, Shut;
    var t := Try(Do(Throw(Lit(TWO))), NoCatch, Some(Do(Break)));
    var w1 := Open(w, map[]);
    var w2 := w.(pend := Some(TWO));
    Single(d, t, w);
    TryThrows(d, TWO, NoCatch, Some(Do(Break)), w1);
    Breaks(d, w1.(pend := Some(TWO)));
    assert w1.(pend := Some(TWO)) == Open(w2, map[]);
    ShutOpen(w2, map[]);
  }

  /** A loop inside the finally block that drops an error of its own: compiled code goes on
      with that error in place of the one the block was entered with. */
  lemma WrongError(w: World)
    ensures
      var loop := ForIn("i", Iterable.Each(Lit(List([Null]))), Do(Try(Do(Throw(Lit(TWO))), NoCatch, Some(Do(Break)))));
      var s := Try(Do(Throw(Lit(ONE))), NoCatch, Some(Do(loop)));
      && ExecS(Evaluator, s, w, 0) == Thr(w.(pend := Some(ONE)))
      && ExecS(Compiled, s, w, 0) == Thr(w.(pend := Some(TWO)))
  {
    hide ExecBlock, ExecList, ExecS, Shut, Open;
    var b := Do(Try(Do(Throw(Lit(TWO))), NoCatch, Some(Do(Break))));
    var loop := ForIn("i", Iterable.Each(Lit(List([Null]))), b);
    var w1 := w.(pend := Some(ONE));
    LoopDrops(Evaluator, b, w1);
    LoopDrops(Compiled, b, w1);
    TryThrows(Evaluator, ONE, NoCatch, Some(Do(loop)), w);
    TryThrows(Compiled, ONE, NoCatch, Some(Do(loop)), w);
  }

  lemma LoopDrops(d: Dialect, b: Stmts, w: World)
    requires b == Do(Try(Do(Throw(Lit(TWO))), NoCatch, Some(Do(Break))))
    ensures ExecBlock(d, Do(ForIn("i", Iterable.Each(Lit(List([Null]))), b)), w, 0) == Normal(w.(pend := Some(TWO)))
  {
    hide ExecBlock, ExecList, ExecS, Shut, Bind;
    var loop := ForIn("i", Iterable.Each(Lit(List([Null]))), b);
    var w0 := Open(w, map[]);
    var w1 := Open(w0, map["i" := Null]);
    var w2 := w.(pend := Some(TWO));
    Single(d, loop, w);
    ForInIs(d, "i", List([Null]), b, w0, Iter(None, [Null]));
    assert Log(w0, []) == w0;
    BindAgain(w0, "i", Null);
    DropsError(d, w1);
    assert ExecEach(d, "i", b, w1, [Null], 0) == Brk(w1.(pend := Some(TWO)));
    assert w1.(pend := Some(TWO)) == Open(Open(w2, map[]), map["i" := Null]);
    ShutOpen(Open(w2, map[]), map["i" := Null]);
    ShutOpen(w2, map[]);
    assert Log(w1.(pend := Some(TWO)), []) == w1.(pend := Some(TWO));
  }

  // ----- the catch scope, one name at a time

  function Look(env: Env, x: string): Option<Value> {
    var i := Find(env, x);
    if i < 0 then None else Some(env[i][x])
  }

  /** A finally block that prints x, inlined where a catch body is left, gives a different
      result there if and only if x means something else in the catch scope than outside. */
  lemma CapturedName(x: string, o: Outcome, fuel: nat)
    requires Leaves(o) && |o.w.env| > 0
    ensures ScopeParts(Do(Print(Var(x))), o, fuel) <==> Look(o.w.env, x) != Look(Shut(o.w).env, x)
  {
    hide ExecBlock, Look;
    PrintBlock(x, o.w, fuel);
    PrintBlock(x, Shut(o.w), fuel);
    var a, b := Look(o.w.env, x), Look(Shut(o.w).env, x);
    if a.Some? && b.Some? && a != b {
      assert (Shut(o.w).trace + [Printed(a.value)])[|o.w.trace|] != (o.w.trace + [Printed(b.value)])[|o.w.trace|];
    }
  }

  lemma PrintBlock(x: string, w: World, fuel: nat)
    ensures
      ExecBlock(Evaluator, Do(Print(Var(x))), w, fuel) ==
        match Look(w.env, x) case Some(v) => Normal(Log(w, [Printed(v)])) case None => Thr(w.(pend := Some(FAULT)))
  {
    var env: Env := w.env + [map[]];
    assert env[..|w.env|] == w.env;
    assert Find(env, x) == Find(w.env, x);
    ShutOpen(Log(w, [Printed(FAULT)]), map[]);
    ShutOpen(w.(pend := Some(FAULT)), map[]);
    hide Find;
    var w1 := Open(w, map[]);
    var o := ExecS(Evaluator, Print(Var(x)), w1, fuel);
    assert ExecList(Evaluator, Do(Print(Var(x))), w1, fuel) == o;
  }
}
