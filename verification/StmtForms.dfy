/** The code and the meaning of each statement form, spelled out, and its code taken apart. */
module StmtForms {
  import opened Syntax
  import opened Machine
  import opened ExprGen
  import opened StmtGen
  import opened Shapes
  import opened Semantics
  import opened ExprCorrect
  import opened Landing

  // ----- where a fragment stands

  /** Six pieces in a row. */
  lemma AtPieces(code: seq<Instr>, pc: int, a: seq<Instr>, b: seq<Instr>, c: seq<Instr>, d: seq<Instr>, e: seq<Instr>,
          f: seq<Instr>)
    requires At(code, pc, a + b + c + d + e + f)
    ensures At(code, pc, a) && At(code, pc + |a|, b) && At(code, pc + |a| + |b|, c) && At(code, pc + |a| + |b| + |c|, d)
    ensures At(code, pc + |a| + |b| + |c| + |d|, e) && At(code, pc + |a| + |b| + |c| + |d| + |e|, f)
  {
    hide At;
    AtSplit(code, pc, a + b + c + d + e, f);
    AtSplit(code, pc, a + b + c + d, e);
    AtSplit(code, pc, a + b + c, d);
    AtSplit(code, pc, a + b, c);
    AtSplit(code, pc, a, b);
  }

  lemma AtThree(code: seq<Instr>, pc: int, ops: seq<Instr>)
    requires |ops| == 3 && At(code, pc, ops)
    ensures At(code, pc, [ops[0]]) && At(code, pc + 1, [ops[1]]) && At(code, pc + 2, [ops[2]])
  {
    assert ops == [ops[0]] + ([ops[1]] + [ops[2]]);
    AtSplit(code, pc, [ops[0]], [ops[1]] + [ops[2]]);
    AtSplit(code, pc + 1, [ops[1]], [ops[2]]);
  }

  lemma AtTwo(code: seq<Instr>, pc: int, ops: seq<Instr>)
    requires |ops| == 2 && At(code, pc, ops)
    ensures At(code, pc, [ops[0]]) && At(code, pc + 1, [ops[1]])
  {
    assert ops == [ops[0]] + [ops[1]];
    AtSplit(code, pc, [ops[0]], [ops[1]]);
  }

  // ----- lengths

  lemma LenOfCode(e: Expr, sc: Scopes, pc: int)
    ensures |CodeE(e, sc, pc)| == LenE(e, sc)
  {}

  lemma OptLenOf(e: Option<Expr>, sc: Scopes, pc: int)
    ensures |OptCode(e, sc, pc)| == OptLen(e, sc)
  {}

  lemma StmtLen(s: Stmt, cx: Ctx, tg: seq<Target>, pc: int)
    ensures |CodeS(s, cx, tg, pc)| == LayS(s, cx).len
  {}

  lemma BlockNext(b: Stmts, cx: Ctx)
    ensures LayBlock(b, cx).next >= cx.next && LayBlock(b, cx).sc == cx.sc
  {}

  lemma OwnLen(f: Fin, iters: bool)
    ensures |OwnCode(f, iters)| == (if f.iter.Some? && iters then 1 else 0) + (if f.popHandler then 1 else 0)
        + (if f.withSlot.Some? then 2 else 0)
  {}

  lemma FinallyLen(f: Option<Stmts>, cx: Ctx, tg: seq<Target>, pc: int)
    ensures |CodeFinally(f, cx, tg, pc)| == LayFinally(f, cx).len && LayFinally(f, cx).next >= cx.next
        && LayFinally(f, cx).sc == cx.sc
  {}

  // ----- what the definitions say, one form at a time

  lemma ConsumeEq(s: Stmt, cx: Ctx, tg: seq<Target>, pc: int, w: World, fuel: nat)
    requires s.Eval? || s.Print? || s.Throw?
    ensures
      var op := if s.Eval? then Instr.Pop else if s.Print? then Println else Raise;
      && LayS(s, cx) == Lay(LenE(s.e, cx.sc) + 1, cx.sc, cx.next, OkE(s.e, cx.sc))
      && |CodeE(s.e, cx.sc, pc)| == LenE(s.e, cx.sc) && CodeS(s, cx, tg, pc) == CodeE(s.e, cx.sc, pc) + [op]
      && ExecS(Compiled, s, w, fuel) ==
           (match EvalE(Compiled, s.e, w.env)
            case Fails(err, env) => Throwing(w, env, err)
            case Yields(v, env) =>
              if s.Eval? then Normal(w.(env := env))
              else if s.Print? then Normal(Log(w.(env := env), [Printed(v)]))
              else Throwing(w, env, Thrown(v)))
  {
    hide CodeFor, CodeForIn, CodeWith, CodeTry, CodeElifs, LayElifs, CodeCatches, LayCatches, CodeFinally, LayFinally,
        CodeBlock, LayBlock, CodeUnwind, LayUnwind, LayLeave, CodeE;
    hide LenE, OkE, CodeCond, LenCond, OptLen, OptCode, OptOk, EvalE, EvalCond, OptEval, LenIterable, OkIterable,
        CodeIterable, EvalIterable, UpdateLen, UpdateCode;
    hide LayOpt, CodeOpt, ExecElifs, ExecFor, ExecEach, ExecBlock, ExecHandler, Finally, Select, Bind, Exec, EachCtx,
        WithCtx, TryCtx;
  }

  lemma IfEq(c: Expr, b: Stmts, es: Elifs, a: Option<Stmts>, cx: Ctx, tg: seq<Target>, pc: int, w: World, fuel: nat)
    ensures
      var s := If(c, b, es, a);
      var tpc := pc + LenCond(c, cx.sc);
      var l1 := LayBlock(b, cx);
      var epc := tpc + l1.len + 1;
      var cx2 := cx.(next := l1.next);
      var l2 := LayElifs(es, a, cx2);
      var end := epc + l2.len;
      && LayS(s, cx) == Lay(end - pc, cx.sc, l2.next, OkE(c, cx.sc) && l1.ok && l2.ok)
      && |CodeCond(c, cx.sc, pc, epc)| == LenCond(c, cx.sc)
      && |CodeBlock(b, cx, tg, tpc)| == l1.len && |CodeElifs(es, a, cx2, tg, epc, end)| == l2.len
      && CodeS(s, cx, tg, pc) ==
           CodeCond(c, cx.sc, pc, epc) + CodeBlock(b, cx, tg, tpc) + [Jump(end)] + CodeElifs(es, a, cx2, tg, epc, end)
      && ExecS(Compiled, s, w, fuel) ==
           (match EvalCond(Compiled, c, w.env)
            case Fails(err, env) => Throwing(w, env, err)
            case Yields(v, env) =>
              if v == Bool(true) then ExecBlock(Compiled, b, w.(env := env), fuel)
              else ExecElifs(Compiled, es, a, w.(env := env), fuel))
  {
    hide CodeFor, CodeForIn, CodeWith, CodeTry, CodeElifs, LayElifs, CodeCatches, LayCatches, CodeFinally, LayFinally,
        CodeBlock, LayBlock, CodeUnwind, LayUnwind, LayLeave, CodeE;
    hide LenE, OkE, CodeCond, LenCond, OptLen, OptCode, OptOk, EvalE, EvalCond, OptEval, LenIterable, OkIterable,
        CodeIterable, EvalIterable, UpdateLen, UpdateCode;
    hide LayOpt, CodeOpt, ExecElifs, ExecFor, ExecEach, ExecBlock, ExecHandler, Finally, Select, Bind, Exec, EachCtx,
        WithCtx, TryCtx;
  }

  lemma ElifEq(c: Expr, b: Stmts, rest: Elifs, a: Option<Stmts>, cx: Ctx, tg: seq<Target>, pc: int, end: int,
          w: World, fuel: nat)
    ensures
      var es := Elif(c, b, rest);
      var tpc := pc + LenCond(c, cx.sc);
      var l1 := LayBlock(b, cx);
      var epc := tpc + l1.len + 1;
      var cx2 := cx.(next := l1.next);
      var l2 := LayElifs(rest, a, cx2);
      && LayElifs(es, a, cx) == Lay(epc + l2.len - pc, cx.sc, l2.next, OkE(c, cx.sc) && l1.ok && l2.ok)
      && |CodeCond(c, cx.sc, pc, epc)| == LenCond(c, cx.sc)
      && |CodeBlock(b, cx, tg, tpc)| == l1.len && |CodeElifs(rest, a, cx2, tg, epc, end)| == l2.len
      && CodeElifs(es, a, cx, tg, pc, end) ==
           CodeCond(c, cx.sc, pc, epc) + CodeBlock(b, cx, tg, tpc) + [Jump(end)] + CodeElifs(rest, a, cx2, tg, epc, end)
      && ExecElifs(Compiled, es, a, w, fuel) ==
           (match EvalCond(Compiled, c, w.env)
            case Fails(err, env) => Throwing(w, env, err)
            case Yields(v, env) =>
              if v == Bool(true) then ExecBlock(Compiled, b, w.(env := env), fuel)
              else ExecElifs(Compiled, rest, a, w.(env := env), fuel))
  {
    hide CodeCond, CodeBlock, LayBlock, EvalCond, ExecBlock, OkE, LenCond;
  }

  lemma WhileEq(c: Expr, b: Stmts, cx: Ctx, tg: seq<Target>, pc: int, w: World, fuel: nat)
    ensures
      var s := While(c, b);
      var cx1 := cx.(loops := cx.loops + [Depth(cx.fins)]);
      var bpc := pc + LenCond(c, cx.sc);
      var l := LayBlock(b, cx1);
      var end := bpc + l.len + 1;
      && LayS(s, cx) == Lay(end - pc, cx.sc, l.next, OkE(c, cx.sc) && l.ok)
      && |CodeCond(c, cx.sc, pc, end)| == LenCond(c, cx.sc) && |CodeBlock(b, cx1, tg + [Target(end, pc)], bpc)| == l.len
      && CodeS(s, cx, tg, pc) == CodeCond(c, cx.sc, pc, end) + CodeBlock(b, cx1, tg + [Target(end, pc)], bpc)
          + [Jump(pc)]
      && ExecS(Compiled, s, w, fuel) ==
           (if fuel == 0 then Timeout
            else
              match EvalCond(Compiled, c, w.env)
              case Fails(err, env) => Throwing(w, env, err)
              case Yields(v, env) =>
                if v == Bool(false) then Normal(w.(env := env))
                else
                  match ExecBlock(Compiled, b, w.(env := env), fuel)
                  case Brk(w1) => Normal(w1)
                  case Normal(w1) => ExecS(Compiled, s, w1, fuel - 1)
                  case Cnt(w1) => ExecS(Compiled, s, w1, fuel - 1)
                  case o => o)
  {
    hide CodeFor, CodeForIn, CodeWith, CodeTry, CodeElifs, LayElifs, CodeCatches, LayCatches, CodeFinally, LayFinally,
        CodeBlock, LayBlock, CodeUnwind, LayUnwind, LayLeave, CodeE;
    hide LenE, OkE, CodeCond, LenCond, OptLen, OptCode, OptOk, EvalE, EvalCond, OptEval, LenIterable, OkIterable,
        CodeIterable, EvalIterable, UpdateLen, UpdateCode;
    hide LayOpt, CodeOpt, ExecElifs, ExecFor, ExecEach, ExecBlock, ExecHandler, Finally, Select, Bind, Exec, EachCtx,
        WithCtx, TryCtx;
  }

  lemma ForEq(first: Option<Simple>, c: Option<Expr>, u: Option<Expr>, b: Stmts, cx: Ctx, tg: seq<Target>, pc: int,
          w: World, fuel: nat)
    ensures
      var s := For(first, c, u, b);
      var cx0 := cx.(sc := cx.sc + [map[]]);
      var l0 := LayOpt(first, cx0);
      var cx1 := At0(cx0, l0);
      var cx2 := cx1.(loops := cx.loops + [Depth(cx.fins)]);
      var top := pc + l0.len;
      var clen := if c.None? then 0 else LenCond(c.value, l0.sc);
      var bpc := top + clen;
      var l1 := LayBlock(b, cx2);
      var upc := bpc + l1.len;
      var end := upc + UpdateLen(u, l0.sc) + 1;
      && LayS(s, cx) == Lay(end - pc, cx.sc, l1.next, l0.ok && (c.None? || OkE(c.value, l0.sc)) && l1.ok
          && OptOk(u, l0.sc))
      && |CodeOpt(first, cx0, tg, pc)| == l0.len && |CodeBlock(b, cx2, tg + [Target(end, upc)], bpc)| == l1.len
      && |UpdateCode(u, l0.sc, upc)| == UpdateLen(u, l0.sc)
      && |if c.None? then [] else CodeCond(c.value, l0.sc, top, end)| == clen
      && CodeS(s, cx, tg, pc) ==
           CodeOpt(first, cx0, tg, pc) + (if c.None? then [] else CodeCond(c.value, l0.sc, top, end)) +
           CodeBlock(b, cx2, tg + [Target(end, upc)], bpc) + UpdateCode(u, l0.sc, upc) + [Jump(top)]
      && ExecS(Compiled, s, w, fuel) ==
           (var w0 := Open(w, map[]);
            var o0 := if first.None? then Normal(w0) else ExecS(Compiled, AsStmt(first.value), w0, fuel);
            ShutAll(if o0.Normal? then ExecFor(Compiled, c, u, b, o0.w, fuel) else o0))
  {
    hide LayS, CodeS, ExecFor;
    ForLays(first, c, u, b, cx, pc);
    ForEmits(first, c, u, b, cx, tg, pc);
  }

  lemma UpdateEq(c: Option<Expr>, u: Option<Expr>, b: Stmts, sc: Scopes, pc: int, w: World, fuel: nat)
    requires fuel > 0
    ensures ForUpdate(Compiled, c, u, b, w, fuel) ==
      (var r := OptEval(Compiled, u, w.env);
       if r.Fails? then Throwing(w, r.env, r.err) else ExecFor(Compiled, c, u, b, w.(env := r.env), fuel - 1))
    ensures u.Some? ==> UpdateCode(u, sc, pc) == CodeE(u.value, sc, pc) + [Pop]
    ensures u.Some? ==> UpdateLen(u, sc) == LenE(u.value, sc) + 1
    ensures u.Some? ==> OptEval(Compiled, u, w.env) == EvalE(Compiled, u.value, w.env)
    ensures u.None? ==> UpdateCode(u, sc, pc) == [] && UpdateLen(u, sc) == 0
    ensures u.None? ==> OptEval(Compiled, u, w.env) == Yields(Null, w.env)
  {
    hide CodeE, LenE, EvalE, ExecFor;
  }

  lemma FinLen(f: Fin, rest: Fins, iters: bool, sc: Scopes, next: nat, loops: seq<nat>, tg: seq<Target>, pc: int)
    ensures
      var l := LayFin(f, rest, iters, sc, next, loops);
      l.sc == sc && |CodeFin(f, rest, iters, sc, next, loops, tg, pc)| == l.len
  {
    hide CodeFinally, LayFinally;
  }

  lemma DepthOn(fins: Fins, f: Fin)
    ensures Depth(On(fins, f)) == Depth(fins) + 1
  {}

  lemma UnwindStep(fins: Fins, depth: nat, iters: bool, sc: Scopes, next: nat, loops: seq<nat>, tg: seq<Target>,
          pc: int)
    requires Depth(fins) > depth
    ensures
      var l1 := LayFin(fins.top, fins.rest, iters, sc, next, loops);
      var l2 := LayUnwind(fins.rest, depth, iters, sc, l1.next, loops);
      && LayUnwind(fins, depth, iters, sc, next, loops) == Lay(l1.len + l2.len, sc, l2.next, l1.ok && l2.ok)
      && CodeUnwind(fins, depth, iters, sc, next, loops, tg, pc) ==
           CodeFin(fins.top, fins.rest, iters, sc, next, loops, tg, pc) +
           CodeUnwind(fins.rest, depth, iters, sc, l1.next, loops, tg, pc + l1.len)
      && l1.sc == sc && |CodeFin(fins.top, fins.rest, iters, sc, next, loops, tg, pc)| == l1.len
      && Depth(fins.rest) == Depth(fins) - 1
      && FinSize(fins) == FinSize(fins.rest) + 1 + (if fins.top.body.Some? then BlockSize(fins.top.body.value) else 0)
  {
    hide CodeFin, LayFin;
    FinLen(fins.top, fins.rest, iters, sc, next, loops, tg, pc);
  }

  lemma FinEq(f: Fin, fins: Fins, iters: bool, sc: Scopes, next: nat, loops: seq<nat>, tg: seq<Target>, pc: int)
    ensures
      var own := OwnCode(f, iters);
      var cx := FinCtx(f, fins, sc, next, loops);
      var l := LayFinally(f.body, cx);
      && CodeFin(f, fins, iters, sc, next, loops, tg, pc) ==
          own + CodeFinally(f.body, cx, Take(tg, f.loops), pc + |own|)
      && LayFin(f, fins, iters, sc, next, loops) == Lay(|own| + l.len, sc, l.next, l.ok)
  {
    hide CodeFinally, LayFinally, FinCtx;
    OwnLen(f, iters);
  }

  lemma UnwindEq(f: Fin, fins: Fins, depth: nat, iters: bool, sc: Scopes, next: nat, loops: seq<nat>, tg: seq<Target>,
          pc: int)
    requires depth <= Depth(fins)
    ensures
      var own := OwnCode(f, iters);
      var cx := FinCtx(f, fins, sc, next, loops);
      var l := LayFinally(f.body, cx);
      && CodeUnwind(On(fins, f), depth, iters, sc, next, loops, tg, pc) ==
           own + CodeFinally(f.body, cx, Take(tg, f.loops), pc + |own|) +
           CodeUnwind(fins, depth, iters, sc, l.next, loops, tg, pc + |own| + l.len)
      && LayUnwind(On(fins, f), depth, iters, sc, next, loops).ok ==
           (l.ok && LayUnwind(fins, depth, iters, sc, l.next, loops).ok)
  {
    hide CodeFinally, LayFinally, FinCtx, CodeUnwind, LayUnwind, CodeFin, LayFin;
    FinEq(f, fins, iters, sc, next, loops, tg, pc);
    UnwindStep(On(fins, f), depth, iters, sc, next, loops, tg, pc);
    DepthOn(fins, f);
  }

  lemma WithEq(name: Option<string>, e: Expr, b: Stmts, cx: Ctx, tg: seq<Target>, pc: int, w: World, fuel: nat)
    ensures
      var s := Stmt.With(name, e, b);
      var sc0 := cx.sc + [map[]];
      var hpc := pc + LenE(e, sc0) + 4;
      var cx1 := WithCtx(cx, name);
      var l := LayBlock(b, cx1);
      var catch := hpc + 1 + l.len + 4;
      var a := [Define(Local(cx.next)), Get(Local(cx.next)), WithEnter, if name.None? then Instr.Pop
          else Define(Local(cx.next + 1))];
      && LayS(s, cx) == Lay(catch + 3 - pc, cx.sc, l.next, OkE(e, sc0) && l.ok)
      && |CodeE(e, sc0, pc)| == LenE(e, sc0) && |CodeBlock(b, cx1, tg, hpc + 1)| == l.len
      && CodeS(s, cx, tg, pc) ==
           CodeE(e, sc0, pc) + a + [PushHandler(catch)] + CodeBlock(b, cx1, tg, hpc + 1) +
           [PopHandler, Get(Local(cx.next)), WithExit, Jump(catch + 3)] + [Get(Local(cx.next)), WithExit, Rethrow]
      && ExecS(Compiled, s, w, fuel) ==
           (var w0 := Open(w, map[]);
            match EvalE(Compiled, e, w0.env)
            case Fails(err, env) => ShutAll(Throwing(w0, env, err))
            case Yields(v, env) =>
              var w1 := Log(w0.(env := if name.None? then env else Bind(env, name.value, v)), EnterEvents(v));
              ShutAll(LogAll(ExecBlock(Compiled, b, w1, fuel), ExitEvents(v))))
  {
    hide LayS, CodeS, EvalE, ExecBlock, Bind, EnterEvents, ExitEvents;
    WithEmits(name, e, b, cx, tg, pc);
  }

  lemma ForInEq(x: string, it: Iterable, b: Stmts, cx: Ctx, tg: seq<Target>, pc: int, w: World, fuel: nat)
    ensures
      var s := ForIn(x, it, b);
      var h := cx.next;
      var sc0 := cx.sc + [map[]];
      var cx1 := EachCtx(cx, x);
      var top := pc + 2 + LenIterable(it, sc0) + 3;
      var l := LayBlock(b, cx1);
      var end := top + 4 + l.len + 1;
      && LayS(s, cx) == Lay(end + 1 - pc, cx.sc, l.next, OkIterable(it, sc0) && l.ok)
      && |CodeIterable(it, sc0, pc + 2)| == LenIterable(it, sc0)
          && |CodeBlock(b, cx1, tg + [Target(end + 1, top)], top + 4)| == l.len
      && CodeS(s, cx, tg, pc) ==
           [Const(Null), Define(Local(h))] + CodeIterable(it, sc0, pc + 2) +
           [Define(Local(h + 1)), Const(Null), Define(Local(h + 2))] +
           [IterNext(end, h + 1, h), Get(Local(h)), Set(Local(h + 2)), Pop] +
           CodeBlock(b, cx1, tg + [Target(end + 1, top)], top + 4) + [Jump(top), IterClose(h + 1)]
      && ExecS(Compiled, s, w, fuel) ==
           (var w0 := Open(w, map[]);
            match EvalIterable(Compiled, it, w0.env)
            case Fails(err, env) => ShutAll(Throwing(w0, env, err))
            case Yields(iter, env) =>
              var o := ExecEach(Compiled, x, b, Begun(w0, x, env, iter), IterRest(iter), fuel);
              ShutAll(LeaveEach(Compiled, o, Close(iter))))
  {
    hide LayS, CodeS, EvalIterable, ExecEach, Begun, Close, LeaveEach;
    ForInEmits(x, it, b, cx, tg, pc);
  }

  lemma LitEq(n: nat, sc: Scopes, pc: int, env: Env)
    ensures CodeE(IntLit(n), sc, pc) == [Const(Int(n))] && LenE(IntLit(n), sc) == 1 && OkE(IntLit(n), sc)
    ensures EvalE(Compiled, IntLit(n), env) == Yields(Int(n), env)
  {}

  lemma NullEq(sc: Scopes, pc: int, env: Env)
    ensures CodeE(Lit(Null), sc, pc) == [Const(Null)] && LenE(Lit(Null), sc) == 1 && OkE(Lit(Null), sc)
    ensures EvalE(Compiled, Lit(Null), env) == Yields(Null, env)
  {}

  lemma RangeEq(a: Option<Expr>, b: Option<Expr>, c: Option<Expr>, ex: bool, sc: Scopes, pc: int, env: Env)
    ensures
      var ae, be, ce := RangePart(a, IntLit(0)), RangePart(b, Lit(Null)), RangePart(c, IntLit(1));
      var it := Range(a, b, c, ex);
      var bpc := pc + LenE(ae, sc);
      var cpc := bpc + LenE(be, sc);
      && CodeIterable(it, sc, pc) == CodeE(ae, sc, pc) + CodeE(be, sc, bpc) + CodeE(ce, sc, cpc) + [ForRangeIter(ex)]
      && LenIterable(it, sc) == LenE(ae, sc) + LenE(be, sc) + LenE(ce, sc) + 1
      && |CodeE(ae, sc, pc)| == LenE(ae, sc) && |CodeE(be, sc, bpc)| == LenE(be, sc)
          && |CodeE(ce, sc, cpc)| == LenE(ce, sc)
      && (OkIterable(it, sc) ==> OkE(ae, sc) && OkE(be, sc) && OkE(ce, sc))
      && EvalIterable(Compiled, it, env) ==
           match EvalE(Compiled, ae, env)
           case Fails(err, env1) => Fails(err, env1)
           case Yields(va, env1) =>
             match EvalE(Compiled, be, env1)
             case Fails(err, env2) => Fails(err, env2)
             case Yields(vb, env2) =>
               match EvalE(Compiled, ce, env2)
               case Fails(err, env3) => Fails(err, env3)
               case Yields(vc, env3) => Yield(RangeIter(va, vb, vc, ex), env3)
  {
    hide RangeIter, CodeE, LenE, EvalE, OkE;
    LitEq(0, sc, pc, env);
    LitEq(1, sc, pc + LenE(RangePart(a, IntLit(0)), sc) + LenE(RangePart(b, Lit(Null)), sc), env);
    NullEq(sc, pc + LenE(RangePart(a, IntLit(0)), sc), env);
    forall env1 ensures EvalE(Compiled, IntLit(0), env1) == Yields(Int(0), env1) { LitEq(0, sc, pc, env1); }
    forall env1 ensures EvalE(Compiled, IntLit(1), env1) == Yields(Int(1), env1) { LitEq(1, sc, pc, env1); }
    forall env1 ensures EvalE(Compiled, Lit(Null), env1) == Yields(Null, env1) { NullEq(sc, pc, env1); }
  }


  lemma TryEq(b: Stmts, cs: Catches, f: Option<Stmts>, cx: Ctx, tg: seq<Target>, pc: int, w: World, fuel: nat)
    ensures
      var s := Try(b, cs, f);
      var l1 := LayBlock(b, TryCtx(cx, f));
      var cpc := pc + 1 + l1.len + 2;
      var cx2 := cx.(next := l1.next);
      var l2 := LayCatches(cs, f, cx2);
      var fpc := cpc + l2.len;
      var cx3 := cx.(next := l2.next);
      var l3 := LayFinally(f, cx3);
      var end := fpc + l3.len + 1;
      var cx4 := cx.(next := l3.next);
      var l4 := LayFinally(f, cx4);
      && LayS(s, cx) == Lay(end + l4.len - pc, cx.sc, l4.next, l1.ok && l2.ok && l3.ok && l4.ok)
      && |CodeBlock(b, TryCtx(cx, f), tg, pc + 1)| == l1.len && |CodeCatches(cs, f, cx2, tg, cpc, end)| == l2.len
      && |CodeFinally(f, cx3, tg, fpc)| == l3.len
      && CodeS(s, cx, tg, pc) ==
           [PushHandler(cpc)] + CodeBlock(b, TryCtx(cx, f), tg, pc + 1) + [PopHandler, Jump(end)] +
           CodeCatches(cs, f, cx2, tg, cpc, end) + CodeFinally(f, cx3, tg, fpc) + [Rethrow]
               + CodeFinally(f, cx4, tg, end)
      && ExecS(Compiled, s, w, fuel) ==
           (match ExecBlock(Compiled, b, w, fuel)
            case Thr(w1) => ExecHandler(Compiled, Select(cs, PendOf(w1)), f, w1, fuel)
            case o => Finally(Compiled, f, o, fuel))
      && cx.next <= l1.next <= l2.next <= l3.next
  {
    hide LayS, CodeS, ExecBlock, ExecHandler, Finally, Select;
    TryLays(b, cs, f, cx, pc);
    TryEmits(b, cs, f, cx, tg, pc);
  }

  lemma SelectEq(cs: Catches, err: Value)
    ensures Select(cs, err) ==
      match cs
      case NoCatch => NoCatch
      case Catch(kind, _, _, rest) => if Matches(kind, err) then cs else Select(rest, err)
  {
    hide Matches;
  }

  lemma HandlerEq(kind: Option<string>, name: Option<string>, b: Stmts, rest: Catches, f: Option<Stmts>, w: World,
          fuel: nat)
    ensures
      var frame := if name.Some? then map[name.value := PendOf(w)] else map[];
      var o := ExecList(Compiled, b, Open(w, frame).(pend := None), fuel);
      ExecHandler(Compiled, Catch(kind, name, b, rest), f, w, fuel) ==
        if o.Thr? then ShutAll(o)
        else if o.Normal? then Finally(Compiled, f, ShutAll(o), fuel)
        else ShutAll(Finally(Compiled, f, o, fuel))
  {
    hide ExecList, Finally;
  }

  /** A finally block compiled where its own try statement stands sees all scopes and loops. */
  lemma FinScope(f: Fin, x: Exit, cx: Ctx, tg: seq<Target>)
    requires f.scopes == |x.sc| && f.loops == |cx.loops| == |tg|
    ensures FinCtx(f, cx.fins, x.sc, x.next, cx.loops) == Ctx(x.sc, x.next, cx.fins, cx.loops)
        && Take(tg, f.loops) == tg
    ensures f.iter.None? && f.withSlot.None? ==> forall iters ::
        OwnCode(f, iters) == if f.popHandler then [PopHandler] else []
  {}

  lemma FinallyTimeout(f: Option<Stmts>, fuel: nat)
    ensures Finally(Compiled, f, Timeout, fuel) == Timeout
  {}

  // ----- the code of a statement, taken apart

  /** Loop code that has been laid out: condition at top, body, update, jump back. */
  ghost predicate ForCode(code: seq<Instr>, c: Option<Expr>, u: Option<Expr>, b: Stmts, cx: Ctx, tg: seq<Target>,
                          top: int, bpc: int, upc: int, end: int)
  {
    var cx2 := cx.(loops := cx.loops + [Depth(cx.fins)]);
    && (if c.None? then bpc == top
        else OkE(c.value, cx.sc) && At(code, top, CodeCond(c.value, cx.sc, top, end)) &&
             bpc == top + LenCond(c.value, cx.sc))
    && LayBlock(b, cx2).ok && At(code, bpc, CodeBlock(b, cx2, tg + [Target(end, upc)], bpc))
        && upc == bpc + LayBlock(b, cx2).len
    && OptOk(u, cx.sc) && At(code, upc, UpdateCode(u, cx.sc, upc)) && end == upc + UpdateLen(u, cx.sc) + 1
    && At(code, end - 1, [Jump(top)])
  }

  lemma ForSplit(code: seq<Instr>, first: Option<Simple>, c: Option<Expr>, u: Option<Expr>, b: Stmts, cx0: Ctx,
          tg: seq<Target>,
                 pc: int, end: int)
    requires
      var l0 := LayOpt(first, cx0);
      var cx1 := At0(cx0, l0);
      var cx2 := cx1.(loops := cx0.loops + [Depth(cx0.fins)]);
      var top := pc + l0.len;
      var bpc := top + (if c.None? then 0 else LenCond(c.value, l0.sc));
      var l1 := LayBlock(b, cx2);
      var upc := bpc + l1.len;
      && end == upc + UpdateLen(u, l0.sc) + 1
      && l0.ok && (c.None? || OkE(c.value, l0.sc)) && l1.ok && OptOk(u, l0.sc)
      && At(code, pc, CodeOpt(first, cx0, tg, pc) + (if c.None? then [] else CodeCond(c.value, l0.sc, top, end)) +
                      CodeBlock(b, cx2, tg + [Target(end, upc)], bpc) + UpdateCode(u, l0.sc, upc) + [Jump(top)])
    ensures At(code, pc, CodeOpt(first, cx0, tg, pc))
    ensures
      var l0 := LayOpt(first, cx0);
      var cx1 := At0(cx0, l0);
      var top := pc + l0.len;
      var bpc := top + (if c.None? then 0 else LenCond(c.value, l0.sc));
      var l1 := LayBlock(b, cx1.(loops := cx0.loops + [Depth(cx0.fins)]));
      ForCode(code, c, u, b, cx1, tg, top, bpc, bpc + l1.len, end)
  {
    hide At, CodeCond, CodeBlock, CodeOpt, LayBlock, LayOpt, LenCond, OkE, OptOk, UpdateCode, UpdateLen;
    var l0 := LayOpt(first, cx0);
    var cx1 := At0(cx0, l0);
    var cx2 := cx1.(loops := cx0.loops + [Depth(cx0.fins)]);
    var top := pc + l0.len;
    var cc := if c.None? then [] else CodeCond(c.value, l0.sc, top, end);
    var bpc := top + |cc|;
    var l1 := LayBlock(b, cx2);
    var upc := bpc + l1.len;
    var fc, bc, uc := CodeOpt(first, cx0, tg, pc), CodeBlock(b, cx2, tg + [Target(end, upc)], bpc),
        UpdateCode(u, l0.sc, upc);
    AtSplit(code, pc, fc + cc + bc + uc, [Jump(top)]);
    AtSplit(code, pc, fc + cc + bc, uc);
    AtSplit(code, pc, fc + cc, bc);
    AtSplit(code, pc, fc, cc);
  }

  /** Peel the innermost finalizer off the code that leaves. */
  lemma Peel(code: seq<Instr>, f: Fin, fins: Fins, loops: seq<nat>, tg: seq<Target>, o: Outcome, x: Exit, pc: int)
    requires Leaves(o) && AtLeave(code, On(fins, f), loops, tg, o, x, pc) && FromDepth(o, loops) <= Depth(fins)
    ensures
      var own := OwnCode(f, !o.Cnt?);
      var pc1 := pc + |own|;
      var cx := FinCtx(f, fins, x.sc, x.next, loops);
      var l := LayFinally(f.body, cx);
      && At(code, pc, own)
      && At(code, pc1, CodeFinally(f.body, cx, Take(tg, f.loops), pc1)) && l.ok
      && AtLeave(code, fins, loops, tg, o, x.(next := l.next), pc1 + l.len)
  {
    hide At, CodeFinally, LayFinally, OwnCode, FinCtx, CodeUnwind, LayUnwind, CodeFin, LayFin;
    UnwindEq(f, fins, FromDepth(o, loops), !o.Cnt?, x.sc, x.next, loops, tg, pc);
    var d, iters := FromDepth(o, loops), !o.Cnt?;
    var own := OwnCode(f, iters);
    OwnLen(f, iters);
    var cx := FinCtx(f, fins, x.sc, x.next, loops);
    var l := LayFinally(f.body, cx);
    var fc := CodeFinally(f.body, cx, Take(tg, f.loops), pc + |own|);
    FinallyLen(f.body, cx, Take(tg, f.loops), pc + |own|);
    var rest := CodeUnwind(fins, d, iters, x.sc, l.next, loops, tg, pc + |own| + l.len);
    var tail := Tail(o, tg, x);
    assert own + fc + rest + tail == own + (fc + (rest + tail));
    AtSplit(code, pc, own, fc + (rest + tail));
    AtSplit(code, pc + |own|, fc, rest + tail);
  }

  ghost predicate WithCode(code: seq<Instr>, name: Option<string>, e: Expr, b: Stmts, cx: Ctx, tg: seq<Target>,
          pc: int, catch: int) {
    var sc0 := cx.sc + [map[]];
    var hpc := pc + LenE(e, sc0) + 4;
    var body := CodeBlock(b, WithCtx(cx, name), tg, hpc + 1);
    && At(code, pc, CodeE(e, sc0, pc))
    && At(code, hpc - 4, [Define(Local(cx.next))]) && At(code, hpc - 3, [Get(Local(cx.next))])
        && At(code, hpc - 2, [WithEnter])
    && At(code, hpc - 1, [if name.None? then Instr.Pop else Define(Local(cx.next + 1))])
    && At(code, hpc, [PushHandler(catch)]) && At(code, hpc + 1, body)
    && catch == hpc + 1 + |body| + 4
    && At(code, catch - 4, [PopHandler]) && At(code, catch - 3, [Get(Local(cx.next))])
        && At(code, catch - 2, [WithExit])
    && At(code, catch - 1, [Jump(catch + 3)])
    && At(code, catch, [Get(Local(cx.next))]) && At(code, catch + 1, [WithExit]) && At(code, catch + 2, [Rethrow])
  }

  lemma WithSplit(code: seq<Instr>, name: Option<string>, e: Expr, b: Stmts, cx: Ctx, tg: seq<Target>, pc: int,
          catch: int)
    requires
      var sc0 := cx.sc + [map[]];
      var hpc := pc + LenE(e, sc0) + 4;
      var body := CodeBlock(b, WithCtx(cx, name), tg, hpc + 1);
      && catch == hpc + 1 + |body| + 4 && |CodeE(e, sc0, pc)| == LenE(e, sc0)
      && At(code, pc, CodeE(e, sc0, pc) +
             [Define(Local(cx.next)), Get(Local(cx.next)), WithEnter, if name.None? then Instr.Pop
                 else Define(Local(cx.next + 1))] +
             [PushHandler(catch)] + body + [PopHandler, Get(Local(cx.next)), WithExit, Jump(catch + 3)] +
             [Get(Local(cx.next)), WithExit, Rethrow])
    ensures WithCode(code, name, e, b, cx, tg, pc, catch)
  {
    hide At, CodeE, LenE, CodeBlock, LayBlock, WithCtx;
    var sc0 := cx.sc + [map[]];
    var hpc := pc + LenE(e, sc0) + 4;
    var ec, body := CodeE(e, sc0, pc), CodeBlock(b, WithCtx(cx, name), tg, hpc + 1);
    var a := [Define(Local(cx.next)), Get(Local(cx.next)), WithEnter, if name.None? then Instr.Pop
        else Define(Local(cx.next + 1))];
    var z := [PopHandler, Get(Local(cx.next)), WithExit, Jump(catch + 3)];
    var y := [Get(Local(cx.next)), WithExit, Rethrow];
    AtPieces(code, pc, ec, a, [PushHandler(catch)], body, z, y);
    AtFour(code, hpc - 4, a);
    AtFour(code, catch - 4, z);
    AtThree(code, catch, y);
  }

  /** The code that sets a for-in loop up, and its loop. */
  ghost predicate EachCode(code: seq<Instr>, x: string, b: Stmts, cx: Ctx, tg: seq<Target>, top: int, end: int) {
    var h := cx.next;
    var cx1 := EachCtx(cx, x);
    && LayBlock(b, cx1).ok && end == top + 4 + LayBlock(b, cx1).len + 1
    && At(code, top, [IterNext(end, h + 1, h)]) && At(code, top + 1, [Get(Local(h))])
    && At(code, top + 2, [Set(Local(h + 2))]) && At(code, top + 3, [Instr.Pop])
    && At(code, top + 4, CodeBlock(b, cx1, tg + [Target(end + 1, top)], top + 4))
    && At(code, end - 1, [Jump(top)]) && At(code, end, [IterClose(h + 1)])
  }

  ghost predicate EachSetup(code: seq<Instr>, it: Iterable, cx: Ctx, pc: int) {
    var h := cx.next;
    var sc0 := cx.sc + [map[]];
    var top := pc + 2 + LenIterable(it, sc0) + 3;
    && At(code, pc, [Const(Null)]) && At(code, pc + 1, [Define(Local(h))])
    && At(code, pc + 2, CodeIterable(it, sc0, pc + 2))
    && At(code, top - 3, [Define(Local(h + 1))]) && At(code, top - 2, [Const(Null)])
        && At(code, top - 1, [Define(Local(h + 2))])
  }

  lemma EachSplit(code: seq<Instr>, x: string, it: Iterable, b: Stmts, cx: Ctx, tg: seq<Target>, pc: int, end: int)
    requires
      var h := cx.next;
      var sc0 := cx.sc + [map[]];
      var cx1 := EachCtx(cx, x);
      var top := pc + 2 + LenIterable(it, sc0) + 3;
      && LayBlock(b, cx1).ok && end == top + 4 + LayBlock(b, cx1).len + 1
      && |CodeIterable(it, sc0, pc + 2)| == LenIterable(it, sc0)
      && |CodeBlock(b, cx1, tg + [Target(end + 1, top)], top + 4)| == LayBlock(b, cx1).len
      && At(code, pc, [Const(Null), Define(Local(h))] + CodeIterable(it, sc0, pc + 2) +
           [Define(Local(h + 1)), Const(Null), Define(Local(h + 2))] +
           [IterNext(end, h + 1, h), Get(Local(h)), Set(Local(h + 2)), Pop] +
           CodeBlock(b, cx1, tg + [Target(end + 1, top)], top + 4) + [Jump(top), IterClose(h + 1)])
    ensures EachSetup(code, it, cx, pc)
        && EachCode(code, x, b, cx, tg, pc + 2 + LenIterable(it, cx.sc + [map[]]) + 3, end)
  {
    hide At, CodeIterable, LenIterable, CodeBlock, LayBlock, EachCtx, Exec, Bind;
    var h := cx.next;
    var sc0 := cx.sc + [map[]];
    var top := pc + 2 + LenIterable(it, sc0) + 3;
    var p1, p3 := [Const(Null), Define(Local(h))], [Define(Local(h + 1)), Const(Null), Define(Local(h + 2))];
    var p4, p6 := [IterNext(end, h + 1, h), Get(Local(h)), Set(Local(h + 2)), Pop], [Jump(top), IterClose(h + 1)];
    AtPieces(code, pc, p1, CodeIterable(it, sc0, pc + 2), p3, p4,
        CodeBlock(b, EachCtx(cx, x), tg + [Target(end + 1, top)], top + 4), p6);
    AtTwo(code, pc, p1);
    AtThree(code, top - 3, p3);
    AtFour(code, top, p4);
    AtTwo(code, end - 1, p6);
  }

  /** The catch clauses from some clause on, and the code behind them. */
  ghost predicate HandlerCode(code: seq<Instr>, cs: Catches, f: Option<Stmts>, cx: Ctx, tg: seq<Target>, pc: int,
          end: int, last: int) {
    var l2 := LayCatches(cs, f, cx);
    var fpc := pc + l2.len;
    var cx3 := cx.(next := l2.next);
    var l3 := LayFinally(f, cx3);
    var cx4 := cx.(next := l3.next);
    && l2.ok && At(code, pc, CodeCatches(cs, f, cx, tg, pc, end)) && cx.next <= l2.next <= l3.next
    && l3.ok && At(code, fpc, CodeFinally(f, cx3, tg, fpc)) && At(code, end - 1, [Rethrow]) && end == fpc + l3.len + 1
    && LayFinally(f, cx4).ok && At(code, end, CodeFinally(f, cx4, tg, end)) && last == end + LayFinally(f, cx4).len
  }

  lemma TrySplit(code: seq<Instr>, b: Stmts, cs: Catches, f: Option<Stmts>, cx: Ctx, tg: seq<Target>, pc: int,
          end: int, last: int)
    requires LayS(Try(b, cs, f), cx).ok && At(code, pc, CodeS(Try(b, cs, f), cx, tg, pc))
    requires
      var l1 := LayBlock(b, TryCtx(cx, f));
      var l2 := LayCatches(cs, f, cx.(next := l1.next));
      && end == pc + 1 + l1.len + 2 + l2.len + LayFinally(f, cx.(next := l2.next)).len + 1
      && last == pc + LayS(Try(b, cs, f), cx).len
    ensures TryCode(code, b, cs, f, cx, tg, pc, end, last)
  {
    hide At, CodeCatches, LayCatches, CodeFinally, LayFinally, CodeBlock, LayBlock, TryCtx, CodeS, LayS, HandlerCode;
    TryLays(b, cs, f, cx, pc);
    TryEmits(b, cs, f, cx, tg, pc);
    var l1 := LayBlock(b, TryCtx(cx, f));
    var cpc := pc + 1 + l1.len + 2;
    var cx2 := cx.(next := l1.next);
    var l2 := LayCatches(cs, f, cx2);
    var fpc := cpc + l2.len;
    var cx3 := cx.(next := l2.next);
    var l3 := LayFinally(f, cx3);
    var cx4 := cx.(next := l3.next);
    var mid := [PopHandler, Jump(end)];
    var a := [PushHandler(cpc)] + CodeBlock(b, TryCtx(cx, f), tg, pc + 1);
    AtPieces(code, pc, a, mid, CodeCatches(cs, f, cx2, tg, cpc, end), CodeFinally(f, cx3, tg, fpc), [Rethrow],
        CodeFinally(f, cx4, tg, end));
    AtSplit(code, pc, [PushHandler(cpc)], CodeBlock(b, TryCtx(cx, f), tg, pc + 1));
    AtTwo(code, cpc - 2, mid);
    HandlerParts(code, cs, f, cx, l1.next, tg, cpc, end, last);
  }

  lemma HandlerParts(code: seq<Instr>, cs: Catches, f: Option<Stmts>, cx: Ctx, next: nat, tg: seq<Target>, pc: int,
          end: int, last: int)
    requires
      var cx2 := cx.(next := next);
      var l2 := LayCatches(cs, f, cx2);
      var fpc := pc + l2.len;
      var cx3 := cx.(next := l2.next);
      var l3 := LayFinally(f, cx3);
      var cx4 := cx.(next := l3.next);
      && l2.ok && At(code, pc, CodeCatches(cs, f, cx2, tg, pc, end)) && next <= l2.next <= l3.next
      && l3.ok && At(code, fpc, CodeFinally(f, cx3, tg, fpc)) && At(code, end - 1, [Rethrow]) && end == fpc + l3.len + 1
      && LayFinally(f, cx4).ok && At(code, end, CodeFinally(f, cx4, tg, end)) && last == end + LayFinally(f, cx4).len
    ensures HandlerCode(code, cs, f, cx.(next := next), tg, pc, end, last)
  {
    hide At, CodeCatches, LayCatches, CodeFinally, LayFinally;
  }

  lemma CatchSplit(code: seq<Instr>, kind: Option<string>, name: Option<string>, b: Stmts, rest: Catches,
          f: Option<Stmts>, cx: Ctx,
                   tg: seq<Target>, pc: int, end: int, last: int)
    requires HandlerCode(code, Catch(kind, name, b, rest), f, cx, tg, pc, end, last)
    ensures
      var cx1 := CatchCtx(cx, name, f);
      var l1 := LayList(b, cx1);
      var npc := pc + 1 + l1.len + 1;
      && At(code, pc, [CatchClause(npc, kind, if name.None? then None else Some(cx.next))])
      && l1.ok && At(code, pc + 1, CodeList(b, cx1, tg, pc + 1)) && At(code, npc - 1, [Jump(end)])
      && HandlerCode(code, rest, f, cx.(next := l1.next), tg, npc, end, last) && cx.next <= l1.next
  {
    hide At, CodeCatches, LayCatches, CodeFinally, LayFinally, CodeList, LayList, CatchCtx;
    CatchIs(kind, name, b, rest, f, cx, tg, pc, end);
    var cx1 := CatchCtx(cx, name, f);
    var l1 := LayList(b, cx1);
    var npc := pc + 1 + l1.len + 1;
    var op := [CatchClause(npc, kind, if name.None? then None else Some(cx.next))];
    var bc, rc := CodeList(b, cx1, tg, pc + 1), CodeCatches(rest, f, cx.(next := l1.next), tg, npc, end);
    AtSplit(code, pc, op + bc + [Jump(end)], rc);
    AtSplit(code, pc, op + bc, [Jump(end)]);
    AtSplit(code, pc, op, bc);
  }

  /** The part of HandlerCode that all its clauses share. */
  lemma LastPart(code: seq<Instr>, cs: Catches, f: Option<Stmts>, cx: Ctx, next: nat, tg: seq<Target>, pc: int,
          end: int, last: int)
    requires HandlerCode(code, cs, f, cx.(next := next), tg, pc, end, last) && cx.next <= next
    ensures
      var next4 := LayFinally(f, cx.(next := LayCatches(cs, f, cx.(next := next)).next)).next;
      var cx4 := cx.(next := next4);
      cx.next <= next4 && LayFinally(f, cx4).ok && At(code, end, CodeFinally(f, cx4, tg, end))
          && last == end + LayFinally(f, cx4).len
  {
    hide At, CodeFinally, LayFinally, CodeCatches, LayCatches;
  }

  /** The code of a try statement, taken apart. */
  ghost predicate TryCode(code: seq<Instr>, b: Stmts, cs: Catches, f: Option<Stmts>, cx: Ctx, tg: seq<Target>,
          pc: int, end: int, last: int) {
    var l1 := LayBlock(b, TryCtx(cx, f));
    var cpc := pc + 1 + l1.len + 2;
    && l1.ok && cx.next <= l1.next
    && At(code, pc, [PushHandler(cpc)]) && At(code, pc + 1, CodeBlock(b, TryCtx(cx, f), tg, pc + 1))
    && At(code, cpc - 2, [PopHandler]) && At(code, cpc - 1, [Jump(end)])
    && HandlerCode(code, cs, f, cx.(next := l1.next), tg, cpc, end, last)
  }
}
