/** Compiled statements do what the structural semantics says: one lemma per statement form,
    each by induction over the fuel and the syntax. */
module StmtSim {
  import opened Syntax
  import opened Machine
  import opened ExprGen
  import opened StmtGen
  import opened Semantics
  import opened Relation
  import opened ExprCorrect
  import opened Landing
  import opened StmtForms
  import opened StmtSteps

  lemma {:induction false} SimList(code: seq<Instr>, b: Stmts, cx: Ctx, tg: seq<Target>, w: World, st: State, fuel: nat)
    returns (n: nat, t: State, x: Exit)
    requires Sane(cx, tg) && Ready(cx, st, w) && LayList(b, cx).ok
    requires At(code, st.pc, CodeList(b, cx, tg, st.pc))
    ensures Lands(code, cx, tg, st.pc + LayList(b, cx).len, LayList(b, cx).sc, st, ExecList(Compiled, b, w, fuel),
        fuel, n, t, x)
    decreases fuel, BlockSize(b), 0
  {
    hide Run, Rel, Keeps, Laid, At, AtLeave, FinsOk, Within, InScope, CodeS, LayS, ExecS, Holds, Exec;
    match b
    case Nil =>
      KeepsSame(st.mem, cx.sc, cx.next);
      RunZero(code, st);
      n, t := 0, st;
      x := NormalLands(code, cx, tg, st.pc, w, st, fuel, n, t);
    case Cons(s, rest) =>
      var l := LayS(s, cx);
      AtSplit(code, st.pc, CodeS(s, cx, tg, st.pc), CodeList(rest, At0(cx, l), tg, st.pc + l.len));
      StmtLen(s, cx, tg, st.pc);
      n, t, x := SimS(code, s, cx, tg, w, st, fuel);
      var o := ExecS(Compiled, s, w, fuel);
      if o.Normal? {
        var m, s1 := n, t;
        NextCtx(s, cx, tg);
        n, t, x := SimList(code, rest, At0(cx, l), tg, o.w, s1, fuel);
        NarrowLands(code, At0(cx, l), cx, tg, st.pc + LayList(b, cx).len, LayList(b, cx).sc, s1,
                    ExecList(Compiled, rest, o.w, fuel), fuel, n, t, x);
        Before(code, cx, tg, st.pc + LayList(b, cx).len, LayList(b, cx).sc, st, m, s1,
               ExecList(Compiled, rest, o.w, fuel), fuel, fuel, n, t, x);
        n := m + n;
      }
  }

  lemma {:induction false} SimBlock(code: seq<Instr>, b: Stmts, cx: Ctx, tg: seq<Target>, w: World, st: State,
          fuel: nat)
    returns (n: nat, t: State, x: Exit)
    requires Sane(cx, tg) && Ready(cx, st, w) && LayBlock(b, cx).ok
    requires At(code, st.pc, CodeBlock(b, cx, tg, st.pc))
    ensures var o := ExecBlock(Compiled, b, w, fuel);
            Lands(code, cx, tg, st.pc + LayBlock(b, cx).len, cx.sc, st, o, fuel, n, t, x)
                && (!o.Timeout? ==> x.sc == cx.sc)
    decreases fuel, BlockSize(b), 1
  {
    hide Run, Rel, Keeps, Laid, At, AtLeave, FinsOk, Within, InScope, CodeList, LayList, ExecList, Holds, Exec;
    var cx1 := cx.(sc := cx.sc + [map[]]);
    Pushed(w.env, cx.sc, st.mem, cx.next);
    FinsGrow(cx.fins, |cx.sc|, cx.loops, |cx1.sc|, cx.loops);
    n, t, x := SimList(code, b, cx1, tg, Open(w, map[]), st, fuel);
    x := CloseFrame(code, cx1, cx, tg, st.pc + LayBlock(b, cx).len, LayList(b, cx1).sc, st,
                    ExecList(Compiled, b, Open(w, map[]), fuel), fuel, n, t, x);
  }

  lemma {:induction false} SimFinally(code: seq<Instr>, f: Option<Stmts>, cx: Ctx, tg: seq<Target>, o: Outcome,
          st: State, fuel: nat)
    returns (n: nat, t: State, x: Exit)
    requires o.Normal? && Sane(cx, tg) && Ready(cx, st, o.w) && LayFinally(f, cx).ok
    requires At(code, st.pc, CodeFinally(f, cx, tg, st.pc))
    ensures var o1 := Finally(Compiled, f, o, fuel);
            Lands(code, cx, tg, st.pc + LayFinally(f, cx).len, cx.sc, st, o1, fuel, n, t, x)
                && (!o1.Timeout? ==> x.sc == cx.sc)
    decreases fuel, if f.Some? then BlockSize(f.value) else 0, 2
  {
    hide Run, Rel, Keeps, Laid, At, AtLeave, FinsOk, Within, InScope, CodeBlock, LayBlock, ExecBlock, Holds, Exec;
    if f.None? {
      KeepsSame(st.mem, cx.sc, cx.next);
      RunZero(code, st);
      n, t := 0, st;
      x := NormalLands(code, cx, tg, st.pc, o.w, st, fuel, n, t);
    } else {
      n, t, x := SimBlock(code, f.value, cx, tg, o.w, st, fuel);
    }
  }

  lemma {:induction false} SimIf(code: seq<Instr>, s: Stmt, cx: Ctx, tg: seq<Target>, w: World, st: State, fuel: nat)
    returns (n: nat, t: State, x: Exit)
    requires s.If? && Sane(cx, tg) && Ready(cx, st, w) && LayS(s, cx).ok
    requires At(code, st.pc, CodeS(s, cx, tg, st.pc))
    ensures Lands(code, cx, tg, st.pc + LayS(s, cx).len, LayS(s, cx).sc, st, ExecS(Compiled, s, w, fuel), fuel, n, t, x)
    decreases fuel, Size(s), 0
  {
    hide Run, Rel, Keeps, Laid, At, Leaving, ExitOk, FinsOk, Within, CodeS, LayS, ExecS, CodeCond, LenCond, EvalCond,
        OkE, Exec;
    hide CodeBlock, LayBlock, ExecBlock, CodeElifs, LayElifs, ExecElifs;
    var If(c, b, es, a) := s;
    IfEq(c, b, es, a, cx, tg, st.pc, w, fuel);
    n, t, x := SimBranch(code, c, b, es, a, cx, tg, w, st, fuel, st.pc + LayS(s, cx).len, ExecS(Compiled, s, w, fuel));
  }

  /** `if c { b }` followed by the rest of the chain; every arm ends at `end`. */
  lemma {:induction false} SimBranch(code: seq<Instr>, c: Expr, b: Stmts, es: Elifs, a: Option<Stmts>, cx: Ctx,
          tg: seq<Target>,
                                     w: World, st: State, fuel: nat, end: int, o: Outcome)
    returns (n: nat, t: State, x: Exit)
    requires Sane(cx, tg) && Ready(cx, st, w)
    requires OkE(c, cx.sc) && LayBlock(b, cx).ok && LayElifs(es, a, cx.(next := LayBlock(b, cx).next)).ok
    requires
      var tpc := st.pc + LenCond(c, cx.sc);
      var l1 := LayBlock(b, cx);
      var epc := tpc + l1.len + 1;
      var cx2 := cx.(next := l1.next);
      At(code, st.pc, CodeCond(c, cx.sc, st.pc, epc) + CodeBlock(b, cx, tg, tpc) + [Jump(end)]
          + CodeElifs(es, a, cx2, tg, epc, end))
      && |CodeCond(c, cx.sc, st.pc, epc)| == LenCond(c, cx.sc) && |CodeBlock(b, cx, tg, tpc)| == l1.len
      && end == epc + LayElifs(es, a, cx2).len
    requires o ==
      match EvalCond(Compiled, c, w.env)
      case Fails(err, env) => Throwing(w, env, err)
      case Yields(v, env) =>
        if v == Bool(true) then ExecBlock(Compiled, b, w.(env := env), fuel)
        else ExecElifs(Compiled, es, a, w.(env := env), fuel)
    ensures Lands(code, cx, tg, end, cx.sc, st, o, fuel, n, t, x)
    decreases fuel, BlockSize(b) + ElifsSize(es) + (if a.Some? then BlockSize(a.value) else 0), 3
  {
    hide Run, Rel, Keeps, Laid, At, Leaving, ExitOk, FinsOk, Within, CodeCond, LenCond, EvalCond, OkE, Exec;
    hide CodeBlock, LayBlock, ExecBlock, CodeElifs, LayElifs, ExecElifs;
    var tpc := st.pc + LenCond(c, cx.sc);
    var l1 := LayBlock(b, cx);
    var epc := tpc + l1.len + 1;
    var cx2 := cx.(next := l1.next);
    var cc, bc, ec := CodeCond(c, cx.sc, st.pc, epc), CodeBlock(b, cx, tg, tpc), CodeElifs(es, a, cx2, tg, epc, end);
    AtSplit(code, st.pc, cc + bc + [Jump(end)], ec);
    AtSplit(code, st.pc, cc + bc, [Jump(end)]);
    AtSplit(code, st.pc, cc, bc);
    n, t, x := CondLands(code, c, epc, cx, tg, end, cx.sc, w, st, fuel);
    var r := EvalCond(Compiled, c, w.env);
    if r.Yields? {
      var m, s1 := n, t;
      var w1 := w.(env := r.env);
      if r.v == Bool(true) {
        n, t, x := SimBlock(code, b, cx, tg, w1, s1, fuel);
        n, t := ThenJump(code, cx, tg, epc - 1, end, s1, o, fuel, n, t, x);
      } else {
        BlockNext(b, cx);
        LaidMore(cx.sc, cx.next, l1.next);
        n, t, x := SimElifs(code, es, a, cx2, tg, w1, s1, fuel, end);
        Widen(code, cx2, cx, tg, end, cx.sc, s1, o, fuel, n, t, x);
      }
      Before(code, cx, tg, end, cx.sc, st, m, s1, o, fuel, fuel, n, t, x);
      n := m + n;
    }
  }

  lemma {:induction false} SimElifs(code: seq<Instr>, es: Elifs, a: Option<Stmts>, cx: Ctx, tg: seq<Target>, w: World,
          st: State,
                                    fuel: nat, end: int)
    returns (n: nat, t: State, x: Exit)
    requires Sane(cx, tg) && Ready(cx, st, w) && LayElifs(es, a, cx).ok
    requires At(code, st.pc, CodeElifs(es, a, cx, tg, st.pc, end)) && end == st.pc + LayElifs(es, a, cx).len
    ensures Lands(code, cx, tg, end, cx.sc, st, ExecElifs(Compiled, es, a, w, fuel), fuel, n, t, x)
    decreases fuel, ElifsSize(es) + (if a.Some? then BlockSize(a.value) else 0), 2
  {
    match es
    case NoElif =>
      hide Run, Rel, Keeps, Laid, At, Leaving, ExitOk, FinsOk, Within, CodeBlock, LayBlock, ExecBlock;
      if a.None? {
        KeepsSame(st.mem, cx.sc, cx.next);
        RunZero(code, st);
        n, t := 0, st;
        x := NormalLands(code, cx, tg, st.pc, w, st, fuel, n, t);
      } else {
        n, t, x := SimBlock(code, a.value, cx, tg, w, st, fuel);
      }
    case Elif(c, b, rest) =>
      hide Run, Rel, Keeps, Laid, At, Leaving, ExitOk, FinsOk, Within, CodeCond, LenCond, EvalCond, OkE;
      hide CodeBlock, LayBlock, ExecBlock, CodeElifs, LayElifs, ExecElifs;
      ElifEq(c, b, rest, a, cx, tg, st.pc, end, w, fuel);
      n, t, x := SimBranch(code, c, b, rest, a, cx, tg, w, st, fuel, end, ExecElifs(Compiled, es, a, w, fuel));
  }

  lemma {:induction false} SimWhile(code: seq<Instr>, s: Stmt, cx: Ctx, tg: seq<Target>, w: World, st: State, fuel: nat)
    returns (n: nat, t: State, x: Exit)
    requires s.While? && Sane(cx, tg) && Ready(cx, st, w) && LayS(s, cx).ok
    requires At(code, st.pc, CodeS(s, cx, tg, st.pc))
    ensures Lands(code, cx, tg, st.pc + LayS(s, cx).len, LayS(s, cx).sc, st, ExecS(Compiled, s, w, fuel), fuel, n, t, x)
    decreases fuel, Size(s), 0
  {
    hide Run, Rel, Keeps, Laid, At, Leaving, ExitOk, FinsOk, Within, CodeS, LayS, ExecS, CodeCond, LenCond, EvalCond,
        OkE, Exec;
    hide CodeBlock, LayBlock, ExecBlock;
    var While(c, b) := s;
    WhileEq(c, b, cx, tg, st.pc, w, fuel);
    var top := st.pc;
    var cx1 := cx.(loops := cx.loops + [Depth(cx.fins)]);
    var bpc := top + LenCond(c, cx.sc);
    var end := bpc + LayBlock(b, cx1).len + 1;
    var target := Target(end, top);
    var cc, bc := CodeCond(c, cx.sc, top, end), CodeBlock(b, cx1, tg + [target], bpc);
    AtSplit(code, top, cc + bc, [Jump(top)]);
    AtSplit(code, top, cc, bc);
    if fuel == 0 {
      RunZero(code, st);
      n, t, x := 0, st, Exit([], 0, 0, false);
      return;
    }
    n, t, x := CondLands(code, c, end, cx, tg, end, cx.sc, w, st, fuel);
    var r := EvalCond(Compiled, c, w.env);
    if r.Yields? {
      var w1 := w.(env := r.env);
      if r.v == Bool(false) {
        x := NormalLands(code, cx, tg, end, w1, st, fuel, n, t);
      } else {
        var m, s1 := n, t;
        LoopSane(cx, tg, target);
        n, t, x := SimBlock(code, b, cx1, tg + [target], w1, s1, fuel);
        var o := ExecBlock(Compiled, b, w1, fuel);
        if o.Timeout? || o.Ret? || o.Thr? {
          LeaveLoop(code, cx, tg, target, bpc + LayBlock(b, cx1).len, end, s1, o, fuel, n, t, x);
          Before(code, cx, tg, end, cx.sc, st, m, s1, o, fuel, fuel, n, t, x);
          n := m + n;
        } else {
          if !o.Normal? { AtLoopEdge(code, cx, tg, target, o, x, t, s1.stack); }
          StepJump(code, s1, n, t, if o.Brk? then end else top);
          var s2 := t.(pc := if o.Brk? then end else top);
          Then(code, st, m, s1, n + 1, Running(s2));
          KeepsTrans(st.mem, s1.mem, s2.mem, cx.sc, cx.next);
          m := m + (n + 1);
          if o.Brk? {
            n, t := m, s2;
            x := NormalLands(code, cx, tg, end, o.w, st, fuel, n, t);
          } else {
            n, t, x := SimWhile(code, s, cx, tg, o.w, s2, fuel - 1);
            Before(code, cx, tg, end, cx.sc, st, m, s2, ExecS(Compiled, s, o.w, fuel - 1), fuel - 1, fuel, n, t, x);
            n := m + n;
          }
        }
      }
    }
  }

  lemma {:induction false} SimS(code: seq<Instr>, s: Stmt, cx: Ctx, tg: seq<Target>, w: World, st: State, fuel: nat)
    returns (n: nat, t: State, x: Exit)
    requires Sane(cx, tg) && Ready(cx, st, w) && LayS(s, cx).ok
    requires At(code, st.pc, CodeS(s, cx, tg, st.pc))
    ensures Lands(code, cx, tg, st.pc + LayS(s, cx).len, LayS(s, cx).sc, st, ExecS(Compiled, s, w, fuel), fuel, n, t, x)
    decreases fuel, Size(s), 1
  {
    hide Run, Sane, Ready, Lands, At, CodeS, LayS, ExecS, Exec;
    match s
    case Let(_, _, _) => n, t, x := SimLet(code, s, cx, tg, w, st, fuel);
    case Eval(_) => n, t, x := SimConsume(code, s, cx, tg, w, st, fuel);
    case Print(_) => n, t, x := SimConsume(code, s, cx, tg, w, st, fuel);
    case Throw(_) => n, t, x := SimConsume(code, s, cx, tg, w, st, fuel);
    case If(_, _, _, _) => n, t, x := SimIf(code, s, cx, tg, w, st, fuel);
    case While(_, _) => n, t, x := SimWhile(code, s, cx, tg, w, st, fuel);
    case For(_, _, _, _) => n, t, x := SimFor(code, s, cx, tg, w, st, fuel);
    case ForIn(_, _, _) => n, t, x := SimForIn(code, s, cx, tg, w, st, fuel);
    case Try(_, _, _) => n, t, x := SimTry(code, s, cx, tg, w, st, fuel);
    case With(_, _, _) => n, t, x := SimWith(code, s, cx, tg, w, st, fuel);
    case Break => n, t, x := SimLeave(code, s, cx, tg, w, st, fuel);
    case Continue => n, t, x := SimLeave(code, s, cx, tg, w, st, fuel);
    case Return(_) => n, t, x := SimReturn(code, s, cx, tg, w, st, fuel);
  }

  lemma {:induction false} SimOpt(code: seq<Instr>, s: Option<Simple>, cx: Ctx, tg: seq<Target>, w: World, st: State,
          fuel: nat)
    returns (n: nat, t: State, x: Exit)
    requires Sane(cx, tg) && Ready(cx, st, w) && LayOpt(s, cx).ok
    requires At(code, st.pc, CodeOpt(s, cx, tg, st.pc))
    ensures
      var o := if s.None? then Normal(w) else ExecS(Compiled, AsStmt(s.value), w, fuel);
      Lands(code, cx, tg, st.pc + LayOpt(s, cx).len, LayOpt(s, cx).sc, st, o, fuel, n, t, x)
    decreases fuel, 1, 2
  {
    hide Run, Sane, Ready, Lands, At, CodeS, LayS, ExecS;
    if s.None? {
      n, t := 0, st;
      x := NothingLands(code, cx, tg, w, st, fuel);
    } else {
      n, t, x := SimS(code, AsStmt(s.value), cx, tg, w, st, fuel);
    }
  }

  lemma {:induction false} SimFor(code: seq<Instr>, s: Stmt, cx: Ctx, tg: seq<Target>, w: World, st: State, fuel: nat)
    returns (n: nat, t: State, x: Exit)
    requires s.For? && Sane(cx, tg) && Ready(cx, st, w) && LayS(s, cx).ok
    requires At(code, st.pc, CodeS(s, cx, tg, st.pc))
    ensures Lands(code, cx, tg, st.pc + LayS(s, cx).len, LayS(s, cx).sc, st, ExecS(Compiled, s, w, fuel), fuel, n, t, x)
    decreases fuel, Size(s), 0
  {
    hide Run, Rel, Keeps, Laid, At, Leaving, ExitOk, FinsOk, Within, CodeS, LayS, ExecS, CodeCond, LenCond, OkE, Exec;
    hide CodeBlock, LayBlock, CodeOpt, LayOpt, ExecFor, ForCode;
    var For(first, c, u, b) := s;
    var pc := st.pc;
    ForEq(first, c, u, b, cx, tg, pc, w, fuel);
    var cx0 := cx.(sc := cx.sc + [map[]]);
    var l0 := LayOpt(first, cx0);
    var cx1 := At0(cx0, l0);
    var cx2 := cx1.(loops := cx.loops + [Depth(cx.fins)]);
    var top := pc + l0.len;
    var bpc := top + (if c.None? then 0 else LenCond(c.value, l0.sc));
    var l1 := LayBlock(b, cx2);
    var upc := bpc + l1.len;
    var end := upc + UpdateLen(u, l0.sc) + 1;
    ForSplit(code, first, c, u, b, cx0, tg, pc, end);
    Pushed(w.env, cx.sc, st.mem, cx.next);
    FinsGrow(cx.fins, |cx.sc|, cx.loops, |cx0.sc|, cx.loops);
    n, t, x := SimOpt(code, first, cx0, tg, Open(w, map[]), st, fuel);
    var o := if first.None? then Normal(Open(w, map[])) else ExecS(Compiled, AsStmt(first.value), Open(w, map[]), fuel);
    if o.Normal? {
      var m, s1 := n, t;
      OptCtx(first, cx0, tg);
      n, t, x := SimForLoop(code, c, u, b, cx1, tg, o.w, s1, fuel, bpc, upc, end);
      o := ExecFor(Compiled, c, u, b, o.w, fuel);
      NarrowLands(code, cx1, cx0, tg, end, cx1.sc, s1, o, fuel, n, t, x);
      Before(code, cx0, tg, end, cx1.sc, st, m, s1, o, fuel, fuel, n, t, x);
      n := m + n;
    }
    ShutFor(code, cx0, cx, tg, top, end, l0.sc, st, o, fuel, n, t, x);
    x := CloseFrame(code, cx0, cx, tg, end, l0.sc, st, o, fuel, n, t, x);
  }

  lemma {:induction false} SimForLoop(code: seq<Instr>, c: Option<Expr>, u: Option<Expr>, b: Stmts, cx: Ctx,
          tg: seq<Target>,
                                      w: World, st: State, fuel: nat, bpc: int, upc: int, end: int)
    returns (n: nat, t: State, x: Exit)
    requires Sane(cx, tg) && Ready(cx, st, w) && ForCode(code, c, u, b, cx, tg, st.pc, bpc, upc, end)
    ensures Lands(code, cx, tg, end, cx.sc, st, ExecFor(Compiled, c, u, b, w, fuel), fuel, n, t, x)
    decreases fuel, BlockSize(b), 2
  {
    hide Run, Rel, Keeps, Laid, At, Leaving, ExitOk, FinsOk, Within, CodeCond, LenCond, EvalCond, OkE, Exec;
    hide CodeBlock, LayBlock, ExecBlock, UpdateCode, UpdateLen, ForUpdate;
    var top := st.pc;
    var cx2 := cx.(loops := cx.loops + [Depth(cx.fins)]);
    var target := Target(end, upc);
    RunZero(code, st);
    n, t, x := 0, st, Exit([], 0, 0, false);
    if fuel > 0 {
      KeepsSame(st.mem, cx.sc, cx.next);
      if c.Some? { n, t, x := CondLands(code, c.value, end, cx, tg, end, cx.sc, w, st, fuel); }
      var r := if c.None? then Yields(Bool(true), w.env) else EvalCond(Compiled, c.value, w.env);
      if r.Yields? {
        var w1 := w.(env := r.env);
        if r.v == Bool(false) {
          x := NormalLands(code, cx, tg, end, w1, st, fuel, n, t);
        } else {
          var m, s1 := n, t;
          LoopSane(cx, tg, target);
          n, t, x := SimBlock(code, b, cx2, tg + [target], w1, s1, fuel);
          var o := ExecBlock(Compiled, b, w1, fuel);
          if o.Timeout? || o.Ret? || o.Thr? {
            LeaveLoop(code, cx, tg, target, upc, end, s1, o, fuel, n, t, x);
            Before(code, cx, tg, end, cx.sc, st, m, s1, o, fuel, fuel, n, t, x);
            n := m + n;
          } else {
            var s2 := t;
            if !o.Normal? {
              AtLoopEdge(code, cx, tg, target, o, x, t, s1.stack);
              StepJump(code, s1, n, t, if o.Brk? then end else upc);
              n, s2 := n + 1, t.(pc := if o.Brk? then end else upc);
            }
            Then(code, st, m, s1, n, Running(s2));
            KeepsTrans(st.mem, s1.mem, s2.mem, cx.sc, cx.next);
            m := m + n;
            if o.Brk? {
              n, t := m, s2;
              x := NormalLands(code, cx, tg, end, o.w, st, fuel, n, t);
            } else {
              n, t, x := SimForUpdate(code, c, u, b, cx, tg, o.w, s2, fuel, top, bpc, upc, end);
              Before(code, cx, tg, end, cx.sc, st, m, s2, ForUpdate(Compiled, c, u, b, o.w, fuel), fuel, fuel, n, t, x);
              n := m + n;
            }
          }
        }
      }
    }
  }

  lemma {:induction false} SimForUpdate(code: seq<Instr>, c: Option<Expr>, u: Option<Expr>, b: Stmts, cx: Ctx,
          tg: seq<Target>,
                                        w: World, st: State, fuel: nat, top: int, bpc: int, upc: int, end: int)
    returns (n: nat, t: State, x: Exit)
    requires Sane(cx, tg) && Ready(cx, st, w) && fuel > 0
    requires st.pc == upc && ForCode(code, c, u, b, cx, tg, top, bpc, upc, end)
    ensures Lands(code, cx, tg, end, cx.sc, st, ForUpdate(Compiled, c, u, b, w, fuel), fuel, n, t, x)
    decreases fuel, BlockSize(b), 1
  {
    hide Run, Rel, Keeps, Laid, At, Leaving, FinsOk, Within, CodeCond, LenCond, EvalCond, OkE, Exec;
    hide CodeBlock, LayBlock, ExecBlock, UpdateCode, UpdateLen, OptEval, ExecFor, CodeE, LenE, EvalE, ExitOk;
    UpdateEq(c, u, b, cx.sc, upc, w, fuel);
    RunZero(code, st);
    KeepsSame(st.mem, cx.sc, cx.next);
    var r := OptEval(Compiled, u, w.env);
    var end1 := upc + UpdateLen(u, cx.sc);
    n, t, x := 0, st, Exit([], 0, 0, false);
    if u.Some? {
      AtSplit(code, upc, CodeE(u.value, cx.sc, upc), [Pop]);
      LenOfCode(u.value, cx.sc, upc);
      n, t := EvalSim(code, u.value, cx.sc, cx.next, w.env, st);
      if r.Fails? {
        x := FailLands(code, cx, tg, end, cx.sc, w, st, r, fuel, n, t);
        return;
      }
      StepPop(code, st, n, t, st.stack, r.v);
      n, t := n + 1, t.(pc := end1, stack := st.stack);
    }
    StepJump(code, st, n, t, top);
    var m, s1 := n + 1, t.(pc := top);
    n, t, x := SimForLoop(code, c, u, b, cx, tg, w.(env := r.env), s1, fuel - 1, bpc, upc, end);
    Before(code, cx, tg, end, cx.sc, st, m, s1, ExecFor(Compiled, c, u, b, w.(env := r.env), fuel - 1), fuel - 1,
        fuel, n, t, x);
    n := m + n;
  }

  /** A break, continue or return that runs a finally block on its way; the block runs in
      the scopes of the place where the machine stands. */
  lemma {:induction false} SimThrough(code: seq<Instr>, f: Option<Stmts>, cx: Ctx, tg: seq<Target>, end: int,
          o: Outcome, x: Exit,
                                      st: State, fuel: nat)
    returns (n: nat, t: State, x': Exit)
    requires Leaves(o) && Sane(cx, tg) && Ready(cx, st, o.w) && cx.sc == x.sc && cx.next == x.next && ExitOk(cx, x)
    requires LayFinally(f, cx).ok && At(code, st.pc, CodeFinally(f, cx, tg, st.pc))
    requires AtLeave(code, cx.fins, cx.loops, tg, o, x.(next := LayFinally(f, cx).next), st.pc + LayFinally(f, cx).len)
    requires o.Ret? ==> Holds(x, st.mem, o.v) && !x.now
    ensures var o1 := Finally(Compiled, f, o, fuel);
            Lands(code, cx, tg, end, cx.sc, st, o1, fuel, n, t, x') && (!o1.Timeout? ==> x'.sc == x.sc)
    decreases fuel, if f.Some? then BlockSize(f.value) else 0, 3
  {
    hide Run, Rel, Keeps, Laid, At, FinsOk, Within, InScope, CodeFinally, LayFinally, ExecBlock, AtLeave, Exec;
    var l := LayFinally(f, cx);
    FinallyLen(f, cx, tg, st.pc);
    n, t, x' := SimFinally(code, f, cx, tg, Normal(o.w), st, fuel);
    var o1 := Finally(Compiled, f, Normal(o.w), fuel);
    if o1.Normal? {
      x' := x.(next := l.next);
      LaidMore(x.sc, x.next, l.next);
      if o.Ret? { Kept(st.mem, t.mem, x.sc, x.next, x.slot); }
      SameLeave(code, cx.fins, cx.loops, tg, o, o.(w := o1.w), x', t.pc);
    }
  }

  lemma {:induction false} SimWith(code: seq<Instr>, s: Stmt, cx: Ctx, tg: seq<Target>, w: World, st: State, fuel: nat)
    returns (n: nat, t: State, x: Exit)
    requires s.With? && Sane(cx, tg) && Ready(cx, st, w) && LayS(s, cx).ok
    requires At(code, st.pc, CodeS(s, cx, tg, st.pc))
    ensures Lands(code, cx, tg, st.pc + LayS(s, cx).len, LayS(s, cx).sc, st, ExecS(Compiled, s, w, fuel), fuel, n, t, x)
    decreases fuel, Size(s), 0
  {
    hide Run, Rel, Keeps, Laid, At, Leaving, ExitOk, FinsOk, Within, CodeS, LayS, ExecS, CodeE, LenE, EvalE, OkE, Exec;
    hide CodeBlock, LayBlock, ExecBlock, WithCode, WithCtx;
    var With(name, e, b) := s;
    WithEq(name, e, b, cx, tg, st.pc, w, fuel);
    var hpc := st.pc + LenE(e, cx.sc + [map[]]) + 4;
    var catch := hpc + 1 + LayBlock(b, WithCtx(cx, name)).len + 4;
    WithSplit(code, name, e, b, cx, tg, st.pc, catch);
    var cx0 := cx.(sc := cx.sc + [map[]]);
    Pushed(w.env, cx.sc, st.mem, cx.next);
    FinsGrow(cx.fins, |cx.sc|, cx.loops, |cx0.sc|, cx.loops);
    var w0 := Open(w, map[]);
    var r := EvalE(Compiled, e, w0.env);
    var v: Value;
    n, t := SimEnter(code, name, e, b, cx, tg, w, st, catch);
    if r.Fails? {
      x := FailLands(code, cx0, tg, catch + 3, cx0.sc, w0, st, r, fuel, n, t);
      x := CloseFrame(code, cx0, cx, tg, catch + 3, cx0.sc, st, Throwing(w0, r.env, r.err), fuel, n, t, x);
    } else {
      var m, s1 := n, t;
      var w1 := Log(w0.(env := if name.None? then r.env else Bind(r.env, name.value, r.v)), EnterEvents(r.v));
      WithSane(cx, tg, name);
      n, t, x := SimWithBody(code, name, e, b, cx, tg, r.v, w1, st, m, s1, fuel, catch);
    }
  }

  lemma {:induction false} SimWithBody(code: seq<Instr>, name: Option<string>, e: Expr, b: Stmts, cx: Ctx,
          tg: seq<Target>, v: Value,
                                       w1: World, st: State, m: nat, s1: State, fuel: nat, catch: int)
    returns (n: nat, t: State, x: Exit)
    requires Sane(cx, tg) && Sane(WithCtx(cx, name), tg) && LayBlock(b, WithCtx(cx, name)).ok
    requires Within(WithCtx(cx, name).sc, cx.sc, cx.next) && !InScope(Local(cx.next), WithCtx(cx, name).sc)
    requires WithCode(code, name, e, b, cx, tg, st.pc, catch) && s1.pc == catch - 4 - LayBlock(b, WithCtx(cx, name)).len
    requires Ready(WithCtx(cx, name), s1, w1) && Run(code, Running(st), m) == Running(s1) && s1.stack == st.stack
    requires s1.handlers == st.handlers + [Handler(catch, |st.stack|)] && Keeps(st.mem, s1.mem, cx.sc, cx.next)
    requires Local(cx.next) in s1.mem && s1.mem[Local(cx.next)] == v
    ensures Lands(code, cx, tg, catch + 3, cx.sc, st,
        ShutAll(LogAll(ExecBlock(Compiled, b, w1, fuel), ExitEvents(v))), fuel, n, t, x)
    decreases fuel, BlockSize(b), 2
  {
    hide Leaving, AtLeave, ExitOk, Run, Rel, Keeps, Laid, At, FinsOk, Within, InScope, CodeE, LenE, CodeBlock,
        LayBlock, ExecBlock, CodeUnwind, LayUnwind, Holds, Exec;
    var cx1 := WithCtx(cx, name);
    var cxo := cx.(sc := cx1.sc);
    var h := cx.next;
    n, t, x := SimBlock(code, b, cx1, tg, w1, s1, fuel);
    var o := ExecBlock(Compiled, b, w1, fuel);
    var o1 := LogAll(o, ExitEvents(v));
    if o.Timeout? {
      RunTrans(code, Running(st), m, n);
      n := m + n;
      return;
    }
    Then(code, st, m, s1, n, Run(code, Running(s1), n));
    Kept(s1.mem, t.mem, cx1.sc, cx1.next, h);
    KeepsNarrow(s1.mem, t.mem, cx1.sc, cx1.next, cx.sc, cx.next);
    KeepsTrans(st.mem, s1.mem, t.mem, cx.sc, cx.next);
    if o.Thr? {
      n, t := WithThrown(code, st, m + n, t, h, v, catch);
    } else {
      if !o.Normal? {
        LeavingStack(code, cx1, tg, o, x, t, s1.stack);
        WithEdge(code, h, cx.fins, cx.loops, tg, o, x, t.pc);
      }
      n, t := WithLeft(code, st, m + n, t, h, v, st.handlers, catch);
      if o.Normal? {
        StepJump(code, st, n, t, catch + 3);
        n, t := n + 1, t.(pc := catch + 3);
      } else {
        SameLeave(code, cx.fins, cx.loops, tg, o, o1, x, t.pc);
        StillLeaving(code, cxo, tg, o1, x, t, st.stack);
      }
    }
    OuterLands(code, cx, cx1, tg, catch + 3, st, o1, fuel, n, t, x);
    x := CloseFrame(code, cxo, cx, tg, catch + 3, cxo.sc, st, o1, fuel, n, t, x);
  }

  lemma {:induction false} SimEach(code: seq<Instr>, name: string, b: Stmts, cx: Ctx, tg: seq<Target>,
          gen: Option<nat>, items: seq<Value>,
                                   w: World, st: State, fuel: nat, end: int)
    returns (n: nat, t: State, x: Exit)
    requires Sane(cx, tg) && EachCode(code, name, b, cx, tg, st.pc, end)
    requires Ready(EachCtx(cx, name), st, w)
    requires Local(cx.next + 1) in st.mem && st.mem[Local(cx.next + 1)] == Iter(gen, items)
    ensures
      var o := LeaveEach(Compiled, ExecEach(Compiled, name, b, w, items, fuel), Close(Iter(gen, items)));
      Lands(code, cx.(sc := EachCtx(cx, name).sc), tg, end + 1, EachCtx(cx, name).sc, st, o, fuel, n, t, x)
    decreases fuel, BlockSize(b), 2, |items|
  {
    hide Run, Rel, Keeps, Laid, At, FinsOk, Within, InScope, CodeBlock, LayBlock, ExecBlock, CodeUnwind, LayUnwind,
        Holds, Bind, Exec, Leaving, ExitOk;
    var h := cx.next;
    var cx1 := EachCtx(cx, name);
    var cxo := cx.(sc := cx1.sc);
    var target := Target(end + 1, st.pc);
    EachSane(cx, tg, name, target);
    if items == [] {
      n, t := EachDone(code, h, st, end, Iter(gen, items));
      KeepsSame(st.mem, cx.sc, cx.next);
      ExitHere(cx1, 0);
      x := Exit(cx1.sc, cx1.next, 0, false);
      OuterLands(code, cx, cx1, tg, end + 1, st, Normal(Log(w, Close(Iter(gen, items)))), fuel, n, t, x);
    } else {
      PushedLaid(cx.sc, cx.next);
      var s1 := FetchSteps(code, name, cx.sc + [map[]], h, st.pc, end, w.env, gen, items, st);
      KeepsAbove(st.mem, s1.mem, cx.sc, cx.next);
      var w1 := w.(env := Bind(w.env, name, items[0]));
      n, t, x := SimBlock(code, b, cx1, tg + [target], w1, s1, fuel);
      var o := ExecBlock(Compiled, b, w1, fuel);
      Then(code, st, 4, s1, n, Run(code, Running(s1), n));
      n := 4 + n;
      if o.Timeout? { return; }
      Kept(s1.mem, t.mem, cx1.sc, cx1.next, h + 1);
      KeepsNarrow(s1.mem, t.mem, cx1.sc, cx1.next, cx.sc, cx.next);
      KeepsTrans(st.mem, s1.mem, t.mem, cx.sc, cx.next);
      if o.Normal? || o.Cnt? {
        if o.Cnt? {
          EachEdge(code, cx, name, tg, target, o, x, t, s1.stack);
          LeavingStack(code, cx1, tg + [target], o, x, t, s1.stack);
        }
        StepJump(code, st, n, t, st.pc);
        var m, s2 := n + 1, t.(pc := st.pc);
        KeepsMore(st.mem, s2.mem, cx.sc, cx1.sc, cx.next);
        n, t, x := SimEach(code, name, b, cx, tg, gen, items[1..], o.w, s2, fuel, end);
        Before(code, cxo, tg, end + 1, cx1.sc, st, m, s2,
               LeaveEach(Compiled, ExecEach(Compiled, name, b, o.w, items[1..], fuel), Close(Iter(gen, items))), fuel,
                   fuel, n, t, x);
        n := m + n;
      } else {
        n, t := EachOut(code, name, cx, tg, Iter(gen, items[1..]), st, n, t, x, o, fuel, end, target);
      }
    }
  }

  lemma {:induction false} SimForIn(code: seq<Instr>, s: Stmt, cx: Ctx, tg: seq<Target>, w: World, st: State, fuel: nat)
    returns (n: nat, t: State, x: Exit)
    requires s.ForIn? && Sane(cx, tg) && Ready(cx, st, w) && LayS(s, cx).ok
    requires At(code, st.pc, CodeS(s, cx, tg, st.pc))
    ensures Lands(code, cx, tg, st.pc + LayS(s, cx).len, LayS(s, cx).sc, st, ExecS(Compiled, s, w, fuel), fuel, n, t, x)
    decreases fuel, Size(s), 0
  {
    hide Run, Rel, Keeps, Laid, At, Leaving, ExitOk, FinsOk, Within, CodeS, LayS, ExecS, CodeIterable, LenIterable,
        EvalIterable, OkIterable;
    hide CodeBlock, LayBlock, ExecEach, Bind, EachCode, EachSetup, InScope, Exec;
    var ForIn(name, it, b) := s;
    var pc := st.pc;
    ForInEq(name, it, b, cx, tg, pc, w, fuel);
    var cx1 := EachCtx(cx, name);
    var cx0 := cx.(sc := cx.sc + [map[]]);
    var cxo := cx.(sc := cx1.sc);
    var top := pc + 2 + LenIterable(it, cx0.sc) + 3;
    var end := top + 4 + LayBlock(b, cx1).len + 1;
    EachSplit(code, name, it, b, cx, tg, pc, end);
    EachSane(cx, tg, name, NO_TARGET);
    Pushed(w.env, cx.sc, st.mem, cx.next);
    FinsGrow(cx.fins, |cx.sc|, cx.loops, |cx0.sc|, cx.loops);
    var w0 := Open(w, map[]);
    n, t := SetupSteps(code, name, it, cx, w0.env, st);
    var r := EvalIterable(Compiled, it, w0.env);
    if r.Fails? {
      x := FailLands(code, cx0, tg, end + 1, cx0.sc, w0, st, r, fuel, n, t);
      x := CloseFrame(code, cx0, cx, tg, end + 1, cx0.sc, st, Throwing(w0, r.env, r.err), fuel, n, t, x);
    } else {
      var m, s1 := n, t;
      var w1 := Begun(w0, name, r.env, r.v);
      n, t, x := SimEach(code, name, b, cx, tg, r.v.gen, r.v.rest, w1, s1, fuel, end);
      var o := LeaveEach(Compiled, ExecEach(Compiled, name, b, w1, r.v.rest, fuel), Close(r.v));
      KeepsMore(st.mem, s1.mem, cx.sc, cx1.sc, cx.next);
      Before(code, cxo, tg, end + 1, cx1.sc, st, m, s1, o, fuel, fuel, n, t, x);
      n := m + n;
      x := CloseFrame(code, cxo, cx, tg, end + 1, cx1.sc, st, o, fuel, n, t, x);
    }
  }

  /** The finally block at the end of the try statement, reached with nothing pending. */
  lemma {:induction false} SimLast(code: seq<Instr>, f: Option<Stmts>, cx: Ctx, next: nat, tg: seq<Target>,
          o: Outcome, st: State,
                                   fuel: nat, end: int)
    returns (n: nat, t: State, x: Exit)
    requires o.Normal? && Sane(cx, tg) && Ready(cx, st, o.w) && cx.next <= next
    requires LayFinally(f, cx.(next := next)).ok && At(code, st.pc, CodeFinally(f, cx.(next := next), tg, st.pc))
    requires end == st.pc + LayFinally(f, cx.(next := next)).len
    ensures Lands(code, cx, tg, end, cx.sc, st, Finally(Compiled, f, o, fuel), fuel, n, t, x)
    decreases fuel, if f.Some? then BlockSize(f.value) else 0, 3
  {
    hide Run, Rel, Keeps, Laid, At, Leaving, FinsOk, Within, CodeFinally, LayFinally, Finally, ExitOk, Exec;
    LaidMore(cx.sc, cx.next, next);
    n, t, x := SimFinally(code, f, cx.(next := next), tg, o, st, fuel);
    Widen(code, cx.(next := next), cx, tg, end, cx.sc, st, Finally(Compiled, f, o, fuel), fuel, n, t, x);
  }

  /** No clause takes the error: the finally block runs, then the error goes on. */
  lemma {:induction false} SimUncaught(code: seq<Instr>, f: Option<Stmts>, cx: Ctx, tg: seq<Target>, w: World,
          st: State, fuel: nat,
                                       end: int, last: int)
    returns (n: nat, t: State, x: Exit)
    requires Sane(cx, tg) && Ready(cx, st, w) && w.pend.Some? && HandlerCode(code, NoCatch, f, cx, tg, st.pc, end, last)
    ensures Lands(code, cx, tg, last, cx.sc, st, ExecHandler(Compiled, NoCatch, f, w, fuel), fuel, n, t, x)
    decreases fuel, if f.Some? then BlockSize(f.value) else 0, 4
  {
    hide Run, Rel, Keeps, Laid, At, Leaving, FinsOk, Within, CodeFinally, LayFinally, ExitOk, ExecBlock, Exec;
    n, t, x := SimFinally(code, f, cx, tg, Normal(w), st, fuel);
    var o := Finally(Compiled, f, Normal(w), fuel);
    if o.Normal? {
      StepRethrow(code, st, n, t);
      n := n + 1;
      if o.w.pend.None? {
        var m, s1 := n, t.(pc := end);
        n, t, x := SimLast(code, f, cx, LayFinally(f, cx).next, tg, o, s1, fuel, last);
        Before(code, cx, tg, last, cx.sc, st, m, s1, Finally(Compiled, f, o, fuel), fuel, fuel, n, t, x);
        n := m + n;
      }
    }
  }

  lemma {:induction false} SimHandler(code: seq<Instr>, cs: Catches, f: Option<Stmts>, cx: Ctx, tg: seq<Target>,
          w: World, st: State,
                                      fuel: nat, end: int, last: int)
    returns (n: nat, t: State, x: Exit)
    requires Sane(cx, tg) && Ready(cx, st, w) && w.pend.Some? && HandlerCode(code, cs, f, cx, tg, st.pc, end, last)
    ensures Lands(code, cx, tg, last, cx.sc, st, ExecHandler(Compiled, Select(cs, PendOf(w)), f, w, fuel), fuel, n, t,
        x)
    decreases fuel, CatchesSize(cs) + (if f.Some? then BlockSize(f.value) else 0), 5
  {
    hide Run, Rel, Keeps, Laid, At, Leaving, FinsOk, Within, ExitOk, ExecHandler, HandlerCode, CatchCtx, LayList,
        Matches, Exec;
    hide Select, ExecBlock, ExecList, Finally, LayCatches, CodeCatches, LayFinally, CodeFinally, CodeList;
    SelectEq(cs, PendOf(w));
    match cs
    case NoCatch => n, t, x := SimUncaught(code, f, cx, tg, w, st, fuel, end, last);
    case Catch(kind, name, b, rest) =>
      CatchSplit(code, kind, name, b, rest, f, cx, tg, st.pc, end, last);
      if Matches(kind, PendOf(w)) {
        n, t, x := SimCatch(code, kind, name, b, rest, f, cx, tg, w, st, fuel, end, last);
      } else {
        var l1 := LayList(b, CatchCtx(cx, name, f));
        var npc := st.pc + 1 + l1.len + 1;
        CatchSkips(code, st, npc, kind, if name.None? then None else Some(cx.next));
        var s1, cx2 := st.(pc := npc), cx.(next := l1.next);
        LaidMore(cx.sc, cx.next, l1.next);
        KeepsSame(st.mem, cx.sc, cx.next);
        n, t, x := SimHandler(code, rest, f, cx2, tg, w, s1, fuel, end, last);
        var o := ExecHandler(Compiled, Select(rest, PendOf(w)), f, w, fuel);
        Widen(code, cx2, cx, tg, last, cx.sc, s1, o, fuel, n, t, x);
        Before(code, cx, tg, last, cx.sc, st, 1, s1, o, fuel, fuel, n, t, x);
        n := 1 + n;
      }
  }

  lemma {:induction false} SimCatch(code: seq<Instr>, kind: Option<string>, name: Option<string>, b: Stmts,
          rest: Catches, f: Option<Stmts>,
                                    cx: Ctx, tg: seq<Target>, w: World, st: State, fuel: nat, end: int, last: int)
    returns (n: nat, t: State, x: Exit)
    requires Sane(cx, tg) && Ready(cx, st, w) && w.pend.Some? && Matches(kind, PendOf(w))
    requires HandlerCode(code, Catch(kind, name, b, rest), f, cx, tg, st.pc, end, last)
    ensures Lands(code, cx, tg, last, cx.sc, st, ExecHandler(Compiled, Catch(kind, name, b, rest), f, w, fuel), fuel,
        n, t, x)
    decreases fuel, BlockSize(b) + (if f.Some? then BlockSize(f.value) else 0), 4
  {
    hide Run, Rel, Keeps, Laid, At, Leaving, FinsOk, Within, ExitOk, ExecHandler, HandlerCode, CatchCtx, LayList,
        CodeList, ExecList;
    hide Matches, Exec, Finally, CodeFinally, LayFinally, CodeCatches, LayCatches;
    CatchSplit(code, kind, name, b, rest, f, cx, tg, st.pc, end, last);
    HandlerEq(kind, name, b, rest, f, w, fuel);
    var cx1 := CatchCtx(cx, name, f);
    var npc := st.pc + 1 + LayList(b, cx1).len + 1;
    CatchSane(cx, tg, name, f);
    var s1 := CatchTakes(code, st, npc, kind, name, f, cx, w);
    var frame := if name.Some? then map[name.value := PendOf(w)] else map[];
    var w1 := Open(w, frame).(pend := None);
    var o := ExecList(Compiled, b, w1, fuel);
    n, t, x := SimList(code, b, cx1, tg, w1, s1, fuel);
    var o1 := if o.Normal? then Finally(Compiled, f, ShutAll(o), fuel)
        else if Leaves(o) then ShutAll(Finally(Compiled, f, o, fuel)) else ShutAll(o);
    if Leaves(o) {
      n, t, x := SimCatchLeft(code, name, f, cx, tg, o, x, s1, n, t, fuel, last);
    } else {
      OtherFins(code, cx1, cx.fins, tg, npc - 1, LayList(b, cx1).sc, s1, o, fuel, n, t, x);
      CatchShape(cx, name, f);
      x := CloseFrame(code, cx1.(fins := cx.fins), cx, tg, npc - 1, LayList(b, cx1).sc, s1, o, fuel, n, t, x);
      if o.Normal? {
        var m, s2 := n, t;
        StepJump(code, s1, m, s2, end);
        s2, m := s2.(pc := end), m + 1;
        LastPart(code, rest, f, cx, LayList(b, cx1).next, tg, npc, end, last);
        var next4 := LayFinally(f, cx.(next := LayCatches(rest, f, cx.(next := LayList(b, cx1).next)).next)).next;
        n, t, x := SimLast(code, f, cx, next4, tg, ShutAll(o), s2, fuel, last);
        Before(code, cx, tg, last, cx.sc, s1, m, s2, o1, fuel, fuel, n, t, x);
        n := m + n;
      } else {
        ShutFor(code, cx, cx, tg, npc - 1, last, cx.sc, s1, o1, fuel, n, t, x);
      }
    }
    FinallyTimeout(f, fuel);
    Before(code, cx, tg, last, cx.sc, st, 1, s1, o1, fuel, fuel, n, t, x);
    n := 1 + n;
  }

  /** A break, continue or return out of a catch body: the finally block runs in the scopes
      of the catch body, whose frame is dropped afterwards. */
  lemma {:induction false} SimCatchLeft(code: seq<Instr>, name: Option<string>, f: Option<Stmts>, cx: Ctx,
          tg: seq<Target>, o: Outcome,
                                        x1: Exit, st: State, m: nat, s1: State, fuel: nat, last: int)
    returns (n: nat, t: State, x: Exit)
    requires Sane(cx, tg) && Leaves(o)
    requires Lands(code, CatchCtx(cx, name, f), tg, last, [], st, o, fuel, m, s1, x1)
    ensures Lands(code, cx, tg, last, cx.sc, st, ShutAll(Finally(Compiled, f, o, fuel)), fuel, n, t, x)
    decreases fuel, if f.Some? then BlockSize(f.value) else 0, 4
  {
    hide Run, Rel, Keeps, Laid, At, Leaving, FinsOk, Within, CatchCtx, Exec, Finally, CodeFinally, LayFinally,
        CodeUnwind, LayUnwind;
    hide AtLeave, Holds;
    var cx1 := CatchCtx(cx, name, f);
    CatchSane(cx, tg, name, f);
    CatchShape(cx, name, f);
    LeavingStack(code, cx1, tg, o, x1, s1, st.stack);
    var fin := Fin(f, false, None, None, |cx.sc| + 1, |cx.loops|);
    var cxx := Ctx(x1.sc, x1.next, cx.fins, cx.loops);
    FinScope(fin, x1, cx, tg);
    Peel(code, fin, cx.fins, cx.loops, tg, o, x1, s1.pc);
    FinsGrow(cx.fins, |cx.sc|, cx.loops, |x1.sc|, cx.loops);
    ExitHere(cxx, 0);
    n, t, x := SimThrough(code, f, cxx, tg, last, o, x1, s1, fuel);
    var o1 := Finally(Compiled, f, o, fuel);
    WithinTrans(x1.sc, cx1.sc, cx1.next, cx.sc, cx.next);
    assert x1.sc[..|cx.sc|] == cx.sc;
    x := CloseFrame(code, cxx, cx, tg, last, x1.sc, s1, o1, fuel, n, t, x);
    KeepsNarrow(st.mem, s1.mem, cx1.sc, cx1.next, cx.sc, cx.next);
    Before(code, cx, tg, last, cx.sc, st, m, s1, ShutAll(o1), fuel, fuel, n, t, x);
    n := m + n;
  }

  /** A break, continue or return out of the body of a try statement. */
  lemma {:induction false} SimTryLeft(code: seq<Instr>, f: Option<Stmts>, cx: Ctx, tg: seq<Target>, h: Handler,
          o: Outcome,
                                      x1: Exit, st: State, m: nat, s1: State, fuel: nat, last: int)
    returns (n: nat, t: State, x: Exit)
    requires Sane(cx, tg) && Leaves(o) && x1.sc == cx.sc && ExitOk(cx, x1)
    requires Run(code, Running(st), m) == Running(s1) && Keeps(st.mem, s1.mem, cx.sc, cx.next)
    requires s1.handlers == st.handlers + [h] && s1.trace == o.w.trace && s1.pend == o.w.pend
    requires Rel(o.w.env, cx.sc, s1.mem) && Leaving(code, TryCtx(cx, f), tg, o, x1, s1, st.stack)
    ensures Lands(code, cx, tg, last, cx.sc, st, Finally(Compiled, f, o, fuel), fuel, n, t, x)
    decreases fuel, if f.Some? then BlockSize(f.value) else 0, 4
  {
    hide Run, Rel, Keeps, Laid, At, Leaving, FinsOk, Within, Exec, Finally, CodeFinally, LayFinally, CodeUnwind,
        LayUnwind;
    hide AtLeave, Holds;
    LeavingStack(code, TryCtx(cx, f), tg, o, x1, s1, st.stack);
    var fin := Fin(f, true, None, None, |cx.sc|, |cx.loops|);
    var cxx := Ctx(x1.sc, x1.next, cx.fins, cx.loops);
    FinScope(fin, x1, cx, tg);
    Peel(code, fin, cx.fins, cx.loops, tg, o, x1, s1.pc);
    StepPopHandler(code, st, m, s1, st.handlers, h);
    var s2 := s1.(pc := s1.pc + 1, handlers := st.handlers);
    ExitHere(cxx, 0);
    n, t, x := SimThrough(code, f, cxx, tg, last, o, x1, s2, fuel);
    var o1 := Finally(Compiled, f, o, fuel);
    Widen(code, cxx, cx, tg, last, cx.sc, s2, o1, fuel, n, t, x);
    Before(code, cx, tg, last, cx.sc, st, m + 1, s2, o1, fuel, fuel, n, t, x);
    n := m + 1 + n;
  }

  lemma {:induction false} SimTry(code: seq<Instr>, s: Stmt, cx: Ctx, tg: seq<Target>, w: World, st: State, fuel: nat)
    returns (n: nat, t: State, x: Exit)
    requires s.Try? && Sane(cx, tg) && Ready(cx, st, w) && LayS(s, cx).ok
    requires At(code, st.pc, CodeS(s, cx, tg, st.pc))
    ensures Lands(code, cx, tg, st.pc + LayS(s, cx).len, LayS(s, cx).sc, st, ExecS(Compiled, s, w, fuel), fuel, n, t, x)
    decreases fuel, Size(s), 0
  {
    hide Run, Rel, Keeps, Laid, At, Leaving, ExitOk, FinsOk, Within, CodeS, LayS, ExecS, CodeBlock, LayBlock,
        ExecBlock, ExecHandler;
    hide HandlerCode, CodeFinally, LayFinally, CodeCatches, LayCatches, Finally, Select, Exec, TryCode;
    var Try(b, cs, f) := s;
    var pc := st.pc;
    TryEq(b, cs, f, cx, tg, pc, w, fuel);
    var l1 := LayBlock(b, TryCtx(cx, f));
    var l2 := LayCatches(cs, f, cx.(next := l1.next));
    var end := pc + 1 + l1.len + 2 + l2.len + LayFinally(f, cx.(next := l2.next)).len + 1;
    var last := pc + LayS(s, cx).len;
    TrySplit(code, b, cs, f, cx, tg, pc, end, last);
    n, t, x := SimTryBody(code, b, cs, f, cx, tg, w, st, fuel, end, last);
  }

  lemma {:induction false} SimTryBody(code: seq<Instr>, b: Stmts, cs: Catches, f: Option<Stmts>, cx: Ctx,
          tg: seq<Target>,
                                      w: World, st: State, fuel: nat, end: int, last: int)
    returns (n: nat, t: State, x: Exit)
    requires Sane(cx, tg) && Ready(cx, st, w) && TryCode(code, b, cs, f, cx, tg, st.pc, end, last)
    ensures
      var o := match ExecBlock(Compiled, b, w, fuel)
               case Thr(w1) => ExecHandler(Compiled, Select(cs, PendOf(w1)), f, w1, fuel)
               case o => Finally(Compiled, f, o, fuel);
      Lands(code, cx, tg, last, cx.sc, st, o, fuel, n, t, x)
    decreases fuel, BlockSize(b) + CatchesSize(cs) + (if f.Some? then BlockSize(f.value) else 0), 6
  {
    hide Run, Rel, Keeps, Laid, At, Leaving, FinsOk, Within, CodeBlock, LayBlock, ExecBlock, ExecHandler;
    hide HandlerCode, CodeFinally, LayFinally, CodeCatches, LayCatches, Finally, Select, Exec, ExitOk;
    var l1 := LayBlock(b, TryCtx(cx, f));
    var cpc := st.pc + 1 + l1.len + 2;
    var h := Handler(cpc, |st.stack|);
    RunZero(code, st);
    StepPush(code, st, 0, st, cpc);
    var s0 := st.(pc := st.pc + 1, handlers := st.handlers + [h]);
    TrySane(cx, tg, f);
    n, t, x := SimBlock(code, b, TryCtx(cx, f), tg, w, s0, fuel);
    var o := ExecBlock(Compiled, b, w, fuel);
    Then(code, st, 1, s0, n, Run(code, Running(s0), n));
    n := 1 + n;
    if Leaves(o) {
      TryExit(cx, f, x);
      n, t, x := SimTryLeft(code, f, cx, tg, h, o, x, st, n, t, fuel, last);
    } else if o.Thr? {
      UnwindTo(st, t, cpc);
      var m, s1, cx2 := n, t.(pc := cpc, handlers := st.handlers, stack := st.stack), cx.(next := l1.next);
      LaidMore(cx.sc, cx.next, l1.next);
      n, t, x := SimHandler(code, cs, f, cx2, tg, o.w, s1, fuel, end, last);
      var o1 := ExecHandler(Compiled, Select(cs, PendOf(o.w)), f, o.w, fuel);
      Widen(code, cx2, cx, tg, last, cx.sc, s1, o1, fuel, n, t, x);
      Before(code, cx, tg, last, cx.sc, st, m, s1, o1, fuel, fuel, n, t, x);
      n := m + n;
    } else if o.Normal? {
      StepPopHandler(code, st, n, t, st.handlers, h);
      StepJump(code, st, n + 1, t.(pc := cpc - 1, handlers := st.handlers), end);
      var m, s1 := n + 2, t.(pc := end, handlers := st.handlers);
      LastPart(code, cs, f, cx, l1.next, tg, cpc, end, last);
      n, t, x := SimLast(code, f, cx, LayFinally(f, cx.(next := LayCatches(cs, f, cx.(next := l1.next)).next)).next,
          tg, o, s1, fuel, last);
      Before(code, cx, tg, last, cx.sc, st, m, s1, Finally(Compiled, f, o, fuel), fuel, fuel, n, t, x);
      n := m + n;
    } else {
      FinallyTimeout(f, fuel);
    }
  }
}
