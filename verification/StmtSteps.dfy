/** The straight-line pieces of the simulation: single instructions, the set-up and exit
    code of the statement forms, and how a landing of a part becomes one of the whole. */
module StmtSteps {
  import opened Syntax
  import opened Machine
  import opened ExprGen
  import opened StmtGen
  import opened Shapes
  import opened Semantics
  import opened Relation
  import opened ExprCorrect
  import opened Landing
  import opened StmtForms

  // ----- single instructions

  lemma RunZero(code: seq<Instr>, st: State)
    ensures Run(code, Running(st), 0) == Running(st)
  {}

  lemma StepEnter(code: seq<Instr>, st: State, m: nat, s1: State, stack: seq<Value>, v: Value)
    requires Run(code, Running(st), m) == Running(s1) && At(code, s1.pc, [WithEnter]) && s1.stack == stack + [v]
    ensures Run(code, Running(st), m + 1) == Running(s1.(pc := s1.pc + 1, trace := s1.trace + EnterEvents(v)))
  {
    hide Run, At;
    After(code, st, m, s1, WithEnter);
  }

  lemma StepPush(code: seq<Instr>, st: State, m: nat, s1: State, target: int)
    requires Run(code, Running(st), m) == Running(s1) && At(code, s1.pc, [PushHandler(target)])
    ensures Run(code, Running(st), m + 1) ==
        Running(s1.(pc := s1.pc + 1, handlers := s1.handlers + [Handler(target, |s1.stack|)]))
  {
    hide Run, At;
    After(code, st, m, s1, PushHandler(target));
  }

  lemma UnwindTo(st: State, s1: State, target: int)
    requires s1.handlers == st.handlers + [Handler(target, |st.stack|)] && st.stack <= s1.stack
    ensures Unwind(s1) == Running(s1.(pc := target, handlers := st.handlers, stack := st.stack))
  {
    assert (st.handlers + [Handler(target, |st.stack|)])[..|st.handlers|] == st.handlers;
    assert Take(s1.stack, |st.stack|) == st.stack;
  }

  lemma StepPopHandler(code: seq<Instr>, st: State, m: nat, s1: State, handlers: seq<Handler>, h: Handler)
    requires Run(code, Running(st), m) == Running(s1) && At(code, s1.pc, [PopHandler]) && s1.handlers == handlers + [h]
    ensures Run(code, Running(st), m + 1) == Running(s1.(pc := s1.pc + 1, handlers := handlers))
  {
    hide Run, At;
    After(code, st, m, s1, PopHandler);
    assert s1.handlers[..|s1.handlers| - 1] == handlers;
  }

  lemma StepRethrow(code: seq<Instr>, st: State, m: nat, s1: State)
    requires Run(code, Running(st), m) == Running(s1) && At(code, s1.pc, [Rethrow])
    ensures Run(code, Running(st), m + 1) == if s1.pend.None? then Running(s1.(pc := s1.pc + 1)) else Unwind(s1)
  {
    hide Run, At, Unwind;
    After(code, st, m, s1, Rethrow);
  }

  /** The opcodes that end an expression statement, a print and a throw. */
  lemma StepConsume(code: seq<Instr>, st: State, m: nat, s1: State, op: Instr, stack: seq<Value>, v: Value)
    requires Run(code, Running(st), m) == Running(s1) && At(code, s1.pc, [op]) && s1.stack == stack + [v]
    requires op.Pop? || op.Println? || op.Raise?
    ensures Run(code, Running(st), m + 1) ==
      if op.Raise? then Unwind(s1.(stack := stack, pend := Some(Thrown(v))))
      else Running(s1.(pc := s1.pc + 1, stack := stack, trace := if op.Println? then s1.trace + [Printed(v)]
          else s1.trace))
  {
    hide Run, At, Unwind;
    After(code, st, m, s1, op);
    assert s1.stack[..|s1.stack| - 1] == stack;
  }

  // ----- the compiler's invariant

  /** Where a statement leaves the compiler is a good place to start the next one. */
  lemma NextCtx(s: Stmt, cx: Ctx, tg: seq<Target>)
    requires Sane(cx, tg)
    ensures var l := LayS(s, cx);
            Sane(At0(cx, l), tg) && cx.next <= l.next && |l.sc| == |cx.sc| && Within(l.sc, cx.sc, cx.next) &&
            l.sc[..|cx.sc| - 1] == cx.sc[..|cx.sc| - 1]
    ensures !s.Let? ==> LayS(s, cx).sc == cx.sc
  {
    hide Within, FinsOk;
    var l := LayS(s, cx);
    WithinSame(cx.sc, cx.next);
    if s.Let? {
      BindWithin(cx.sc, cx.next, s.x, cx.next, LetIsInt(s.decl, s.init, cx.sc));
      BindLaid(cx.sc, cx.next, s.x, cx.next, LetIsInt(s.decl, s.init, cx.sc));
    } else {
      LaidMore(cx.sc, cx.next, l.next);
    }
  }

  /** Into a loop body: one more loop, no more finalizers. */
  lemma LoopSane(cx: Ctx, tg: seq<Target>, target: Target)
    requires Sane(cx, tg)
    ensures Sane(cx.(loops := cx.loops + [Depth(cx.fins)]), tg + [target])
  {
    hide Laid;
    FinsGrow(cx.fins, |cx.sc|, cx.loops, |cx.sc|, cx.loops + [Depth(cx.fins)]);
  }

  lemma OptCtx(s: Option<Simple>, cx: Ctx, tg: seq<Target>)
    requires Sane(cx, tg)
    ensures var l := LayOpt(s, cx);
            Sane(At0(cx, l), tg) && cx.next <= l.next && |l.sc| == |cx.sc| && Within(l.sc, cx.sc, cx.next) &&
            l.sc[..|cx.sc| - 1] == cx.sc[..|cx.sc| - 1]
  {
    hide LayS, Laid, FinsOk, Within;
    if s.None? { WithinSame(cx.sc, cx.next); } else { NextCtx(AsStmt(s.value), cx, tg); }
  }

  lemma FinsPlain(fins: Fins, f: Fin, k: nat, loops: seq<nat>)
    requires f.body.None? && FinsOk(fins, k, loops)
    ensures FinsOk(On(fins, f), k, loops) && Depth(On(fins, f)) == Depth(fins) + 1
  {}

  lemma WithSane(cx: Ctx, tg: seq<Target>, name: Option<string>)
    requires Sane(cx, tg)
    ensures Sane(WithCtx(cx, name), tg)
    ensures Within(WithCtx(cx, name).sc, cx.sc, cx.next) && !InScope(Local(cx.next), WithCtx(cx, name).sc)
  {
    hide Laid, Within, InScope, FinsOk;
    var sc0: Scopes := cx.sc + [map[]];
    PushedLaid(cx.sc, cx.next);
    var sc1 := WithCtx(cx, name).sc;
    FinsGrow(cx.fins, |cx.sc|, cx.loops, |sc1|, cx.loops);
    FinsPlain(cx.fins, WithCtx(cx, name).fins.top, |sc1|, cx.loops);
    if name.Some? {
      BindLaid(sc0, cx.next, name.value, cx.next + 1, false);
      BindWithin(sc0, cx.next, name.value, cx.next + 1, false);
      WithinTrans(sc1, sc0, cx.next, cx.sc, cx.next);
      BindAvoids(sc0, cx.next, name.value, cx.next + 1, false);
    } else {
      LaidMore(sc0, cx.next, cx.next + 1);
      ScopeBelow(cx.next, sc0, cx.next);
    }
  }

  lemma PushedLaid(sc: Scopes, next: nat)
    requires Laid(sc, next)
    ensures Laid(sc + [map[]], next) && Within(sc + [map[]], sc, next)
  {
    WithinSame(sc, next);
    var sc1: Scopes := sc + [map[]];
    forall i, x | 0 <= i < |sc1| && x in sc1[i]
      ensures i < |sc| && sc1[i] == sc[i]
    {}
  }

  /** The slot below a new binding stays a temporary. */
  lemma BindAvoids(sc: Scopes, next: nat, x: string, s: nat, isInt: bool)
    requires Laid(sc, next) && next < s && |sc| > 0
    ensures forall k: nat :: next <= k < s ==> !InScope(Local(k), Bind(sc, x, Binding(Local(s), isInt)))
  {
    var sc1: Scopes := Bind(sc, x, Binding(Local(s), isInt));
    forall k: nat | next <= k < s
      ensures !InScope(Local(k), sc1)
    {
      forall i, y | 0 <= i < |sc1| && y in sc1[i]
        ensures sc1[i][y].ref != Local(k)
      {
        if i < |sc| - 1 || y != x { assert sc1[i][y] == sc[i][y]; }
      }
    }
  }

  lemma EachSane(cx: Ctx, tg: seq<Target>, x: string, target: Target)
    requires Sane(cx, tg)
    ensures Sane(EachCtx(cx, x), tg + [target])
    ensures Within(EachCtx(cx, x).sc, cx.sc, cx.next)
    ensures !InScope(Local(cx.next), EachCtx(cx, x).sc) && !InScope(Local(cx.next + 1), EachCtx(cx, x).sc)
    ensures |EachCtx(cx, x).sc| == |cx.sc| + 1 && EachCtx(cx, x).sc[..|cx.sc|] == cx.sc
  {
    hide Laid, Within, InScope, FinsOk;
    var sc0: Scopes := cx.sc + [map[]];
    PushedLaid(cx.sc, cx.next);
    var cx1 := EachCtx(cx, x);
    FinsGrow(cx.fins, |cx.sc|, cx.loops, |cx1.sc|, cx1.loops);
    FinsPlain(cx.fins, cx1.fins.top, |cx1.sc|, cx1.loops);
    BindLaid(sc0, cx.next, x, cx.next + 2, false);
    BindWithin(sc0, cx.next, x, cx.next + 2, false);
    WithinTrans(cx1.sc, sc0, cx.next, cx.sc, cx.next);
    BindAvoids(sc0, cx.next, x, cx.next + 2, false);
  }

  lemma TrySane(cx: Ctx, tg: seq<Target>, f: Option<Stmts>)
    requires Sane(cx, tg)
    ensures Sane(TryCtx(cx, f), tg)
  {
    hide Laid;
    assert cx.loops[..|cx.loops|] == cx.loops;
  }

  lemma CatchSane(cx: Ctx, tg: seq<Target>, name: Option<string>, f: Option<Stmts>)
    requires Sane(cx, tg)
    ensures Sane(CatchCtx(cx, name, f), tg) && Within(CatchCtx(cx, name, f).sc, cx.sc, cx.next)
    ensures CatchCtx(cx, name, f).sc[..|cx.sc|] == cx.sc
  {
    hide Laid, Within;
    assert cx.loops[..|cx.loops|] == cx.loops;
    var sc0: Scopes := cx.sc + [map[]];
    var sc1 := CatchCtx(cx, name, f).sc;
    PushedLaid(cx.sc, cx.next);
    FinsGrow(cx.fins, |cx.sc|, cx.loops, |cx.sc| + 1, cx.loops);
    if name.Some? {
      BindLaid(sc0, cx.next, name.value, cx.next, false);
      BindWithin(sc0, cx.next, name.value, cx.next, false);
      assert map[][name.value := Binding(Local(cx.next), false)] == map[name.value := Binding(Local(cx.next), false)];
      assert sc1 == Bind(sc0, name.value, Binding(Local(cx.next), false));
      WithinTrans(sc1, sc0, cx.next, cx.sc, cx.next);
    }
  }

  lemma CatchShape(cx: Ctx, name: Option<string>, f: Option<Stmts>)
    ensures var cx1 := CatchCtx(cx, name, f);
            cx1.loops == cx.loops && |cx1.sc| == |cx.sc| + 1 && cx.next <= cx1.next &&
            cx1.fins == On(cx.fins, Fin(f, false, None, None, |cx.sc| + 1, |cx.loops|))
  {}

  // ----- landings

  /** A failing expression makes its statement throw. */
  lemma FailLands(code: seq<Instr>, cx: Ctx, tg: seq<Target>, end: int, sc': Scopes, w: World, st: State, r: ExprResult,
                  fuel: nat, n: nat, t: State) returns (x: Exit)
    requires Sane(cx, tg) && Ready(cx, st, w) && r.Fails?
    requires SameRest(st, t) && Rel(r.env, cx.sc, t.mem) && Keeps(st.mem, t.mem, cx.sc, cx.next)
    requires Run(code, Running(st), n) == Unwind(t) && st.stack <= t.stack && t.pend == Some(r.err)
    ensures Lands(code, cx, tg, end, sc', st, Throwing(w, r.env, r.err), fuel, n, t, x)
  {
    hide Run, Rel, Keeps, Laid, Leaving, FinsOk, Within;
    WithinSame(cx.sc, cx.next);
    x := Exit(cx.sc, cx.next, 0, false);
  }

  /** A statement that ended normally in the scopes it started in. */
  lemma NormalLands(code: seq<Instr>, cx: Ctx, tg: seq<Target>, end: int, w: World, st: State, fuel: nat, n: nat,
          t: State)
    returns (x: Exit)
    requires Sane(cx, tg) && Run(code, Running(st), n) == Running(t) && t.pc == end
    requires t.handlers == st.handlers && t.trace == w.trace && t.pend == w.pend && t.stack == st.stack
    requires Rel(w.env, cx.sc, t.mem) && Keeps(st.mem, t.mem, cx.sc, cx.next)
    ensures Lands(code, cx, tg, end, cx.sc, st, Normal(w), fuel, n, t, x)
  {
    hide Run, Rel, Keeps, Laid, Leaving, FinsOk, Within;
    WithinSame(cx.sc, cx.next);
    x := Exit(cx.sc, cx.next, 0, false);
  }

  /** Nothing to do: the statement is over where it starts. */
  lemma NothingLands(code: seq<Instr>, cx: Ctx, tg: seq<Target>, w: World, st: State, fuel: nat) returns (x: Exit)
    requires Sane(cx, tg) && Ready(cx, st, w)
    ensures Lands(code, cx, tg, st.pc, cx.sc, st, Normal(w), fuel, 0, st, x)
  {
    hide Run, Rel, Keeps, Laid, At, Leaving, ExitOk, FinsOk, Within, Exec, Lands;
    KeepsSame(st.mem, cx.sc, cx.next);
    RunZero(code, st);
    x := NormalLands(code, cx, tg, st.pc, w, st, fuel, 0, st);
  }

  lemma OptSim(code: seq<Instr>, e: Option<Expr>, sc: Scopes, next: nat, env: Env, st: State) returns (n: nat, t: State)
    requires OptOk(e, sc) && Laid(sc, next) && Rel(env, sc, st.mem)
    requires At(code, st.pc, OptCode(e, sc, st.pc))
    ensures Does(code, st, n, t, st.pc + OptLen(e, sc), OptEval(Compiled, e, env), sc, next)
  {
    hide Run, Rel, Keeps, Laid, At, CodeE, LenE, EvalE, OkE;
    if e.None? {
      n, t := ConstSim(code, Null, sc, next, env, st);
    } else {
      n, t := EvalSim(code, e.value, sc, next, env, st);
    }
  }

  lemma SimLet(code: seq<Instr>, s: Stmt, cx: Ctx, tg: seq<Target>, w: World, st: State, fuel: nat)
    returns (n: nat, t: State, x: Exit)
    requires s.Let? && Sane(cx, tg) && Ready(cx, st, w) && LayS(s, cx).ok
    requires At(code, st.pc, CodeS(s, cx, tg, st.pc))
    ensures Lands(code, cx, tg, st.pc + LayS(s, cx).len, LayS(s, cx).sc, st, ExecS(Compiled, s, w, fuel), fuel, n, t, x)
  {
    hide Run, Rel, Keeps, Laid, At, Leaving, FinsOk, Within, OptCode, OptLen, OptEval, OptOk;
    AtSplit(code, st.pc, OptCode(s.init, cx.sc, st.pc), [Define(Local(cx.next))]);
    n, t := OptSim(code, s.init, cx.sc, cx.next, w.env, st);
    var r := OptEval(Compiled, s.init, w.env);
    if r.Fails? {
      x := FailLands(code, cx, tg, st.pc + LayS(s, cx).len, LayS(s, cx).sc, w, st, r, fuel, n, t);
    } else {
      var isInt := LetIsInt(s.decl, s.init, cx.sc);
      After(code, st, n, t, Define(Local(cx.next)));
      assert t.stack[..|t.stack| - 1] == st.stack;
      Declare(r.env, cx.sc, t.mem, cx.next, s.x, cx.next, r.v, isInt);
      KeepsTrans(st.mem, t.mem, t.mem[Local(cx.next) := r.v], cx.sc, cx.next);
      BindLaid(cx.sc, cx.next, s.x, cx.next, isInt);
      BindWithin(cx.sc, cx.next, s.x, cx.next, isInt);
      n, t := n + 1, Store(t, Local(cx.next), r.v).(pc := t.pc + 1, stack := st.stack);
      x := Exit(LayS(s, cx).sc, cx.next + 1, 0, false);
    }
  }

  /** Eval, Print and Throw: an expression and one opcode that consumes its value. */
  lemma SimConsume(code: seq<Instr>, s: Stmt, cx: Ctx, tg: seq<Target>, w: World, st: State, fuel: nat)
    returns (n: nat, t: State, x: Exit)
    requires (s.Eval? || s.Print? || s.Throw?) && Sane(cx, tg) && Ready(cx, st, w) && LayS(s, cx).ok
    requires At(code, st.pc, CodeS(s, cx, tg, st.pc))
    ensures Lands(code, cx, tg, st.pc + LayS(s, cx).len, LayS(s, cx).sc, st, ExecS(Compiled, s, w, fuel), fuel, n, t, x)
  {
    hide Run, Rel, Keeps, Laid, At, Leaving, FinsOk, Within, CodeE, LenE, EvalE, OkE, Exec, ExitOk, Lands, Throwing,
        CodeS, LayS, ExecS;
    var op := if s.Eval? then Instr.Pop else if s.Print? then Println else Raise;
    ConsumeEq(s, cx, tg, st.pc, w, fuel);
    AtSplit(code, st.pc, CodeE(s.e, cx.sc, st.pc), [op]);
    n, t := EvalSim(code, s.e, cx.sc, cx.next, w.env, st);
    var r := EvalE(Compiled, s.e, w.env);
    if r.Fails? {
      x := FailLands(code, cx, tg, st.pc + LayS(s, cx).len, LayS(s, cx).sc, w, st, r, fuel, n, t);
    } else {
      StepConsume(code, st, n, t, op, st.stack, r.v);
      n := n + 1;
      if s.Throw? {
        t := t.(stack := st.stack, pend := Some(Thrown(r.v)));
        x := FailLands(code, cx, tg, st.pc + LayS(s, cx).len, LayS(s, cx).sc, w, st, Fails(Thrown(r.v), r.env), fuel,
            n, t);
      } else {
        t := t.(pc := t.pc + 1, stack := st.stack, trace := if s.Print? then t.trace + [Printed(r.v)] else t.trace);
        var w1 := w.(env := r.env, trace := t.trace);
        x := NormalLands(code, cx, tg, st.pc + LayS(s, cx).len, w1, st, fuel, n, t);
      }
    }
  }

  /** break and continue: the machine already stands at the code that leaves. */
  lemma SimLeave(code: seq<Instr>, s: Stmt, cx: Ctx, tg: seq<Target>, w: World, st: State, fuel: nat)
    returns (n: nat, t: State, x: Exit)
    requires (s.Break? || s.Continue?) && Sane(cx, tg) && Ready(cx, st, w) && LayS(s, cx).ok
    requires At(code, st.pc, CodeS(s, cx, tg, st.pc))
    ensures Lands(code, cx, tg, st.pc + LayS(s, cx).len, LayS(s, cx).sc, st, ExecS(Compiled, s, w, fuel), fuel, n, t, x)
  {
    hide Rel, Keeps, Laid, At, FinsOk, Within, CodeUnwind, LayUnwind;
    n, t, x := 0, st, Exit(cx.sc, cx.next, 0, false);
    WithinSame(cx.sc, cx.next);
    KeepsSame(st.mem, cx.sc, cx.next);
    assert Run(code, Running(st), 0) == Running(st);
  }

  lemma SimReturn(code: seq<Instr>, s: Stmt, cx: Ctx, tg: seq<Target>, w: World, st: State, fuel: nat)
    returns (n: nat, t: State, x: Exit)
    requires s.Return? && Sane(cx, tg) && Ready(cx, st, w) && LayS(s, cx).ok
    requires At(code, st.pc, CodeS(s, cx, tg, st.pc))
    ensures Lands(code, cx, tg, st.pc + LayS(s, cx).len, LayS(s, cx).sc, st, ExecS(Compiled, s, w, fuel), fuel, n, t, x)
  {
    hide Run, Rel, Keeps, Laid, At, FinsOk, Within, InScope, OptCode, OptLen, OptEval, OptOk, CodeUnwind, LayUnwind;
    ReturnSplit(code, s, cx, tg, st.pc);
    n, t := OptSim(code, s.value, cx.sc, cx.next, w.env, st);
    var r := OptEval(Compiled, s.value, w.env);
    if r.Fails? {
      x := FailLands(code, cx, tg, st.pc + LayS(s, cx).len, LayS(s, cx).sc, w, st, r, fuel, n, t);
    } else {
      WithinSame(cx.sc, cx.next);
      if cx.fins.Bottom? {
        x := Exit(cx.sc, cx.next, 0, true);
      } else {
        After(code, st, n, t, Define(Local(cx.next)));
        assert t.stack[..|t.stack| - 1] == st.stack;
        Scratch(r.env, cx.sc, t.mem, cx.next, cx.next, r.v);
        KeepsTrans(st.mem, t.mem, t.mem[Local(cx.next) := r.v], cx.sc, cx.next);
        ScopeBelow(cx.next, cx.sc, cx.next);
        LaidMore(cx.sc, cx.next, cx.next + 1);
        n, t := n + 1, Store(t, Local(cx.next), r.v).(pc := t.pc + 1, stack := st.stack);
        x := Exit(cx.sc, cx.next + 1, cx.next, false);
      }
    }
  }

  lemma ReturnSplit(code: seq<Instr>, s: Stmt, cx: Ctx, tg: seq<Target>, pc: int)
    requires s.Return? && At(code, pc, CodeS(s, cx, tg, pc))
    ensures
      var oc := OptCode(s.value, cx.sc, pc);
      && |oc| == OptLen(s.value, cx.sc) && At(code, pc, oc)
      && if cx.fins.Bottom? then At(code, pc + |oc|, [Machine.Return])
         else
           && At(code, pc + |oc|, [Define(Local(cx.next))])
           && At(code, pc + |oc| + 1, CodeUnwind(cx.fins, 0, true, cx.sc, cx.next + 1, cx.loops, tg, pc + |oc| + 1) +
                                        [Get(Local(cx.next)), Machine.Return])
  {
    hide At, OptCode, OptLen, CodeUnwind, LayUnwind;
    var oc := OptCode(s.value, cx.sc, pc);
    OptLenOf(s.value, cx.sc, pc);
    var unwind := CodeUnwind(cx.fins, 0, true, cx.sc, cx.next + 1, cx.loops, tg, pc + |oc| + 1);
    var last := [Get(Local(cx.next)), Machine.Return];
    if cx.fins.Bottom? {
      AtSplit(code, pc, oc, [Machine.Return]);
    } else {
      assert oc + [Define(Local(cx.next))] + unwind + last == oc + [Define(Local(cx.next))] + (unwind + last);
      AtSplit(code, pc, oc + [Define(Local(cx.next))], unwind + last);
      AtSplit(code, pc, oc, [Define(Local(cx.next))]);
    }
  }

  /** A landing seen from the scopes before the preceding declarations. */
  lemma NarrowLands(code: seq<Instr>, cx1: Ctx, cx: Ctx, tg: seq<Target>, end: int, sc': Scopes, st: State, o: Outcome,
                    fuel: nat, n: nat, t: State, x: Exit)
    requires cx1.fins == cx.fins && cx1.loops == cx.loops && cx.next <= cx1.next
    requires |cx1.sc| == |cx.sc| && |cx.sc| > 0 && cx1.sc[..|cx.sc| - 1] == cx.sc[..|cx.sc| - 1]
        && Within(cx1.sc, cx.sc, cx.next)
    requires Lands(code, cx1, tg, end, sc', st, o, fuel, n, t, x)
    ensures Lands(code, cx, tg, end, sc', st, o, fuel, n, t, x)
  {
    hide Run, Rel, Keeps, Laid, At, AtLeave, Within, InScope, Holds;
    if !o.Timeout? {
      KeepsNarrow(st.mem, t.mem, cx1.sc, cx1.next, cx.sc, cx.next);
      WithinTrans(x.sc, cx1.sc, cx1.next, cx.sc, cx.next);
    }
  }

  /** Append one jump to a landing that fell through. */
  lemma ThenJump(code: seq<Instr>, cx: Ctx, tg: seq<Target>, mid: int, end: int, st: State, o: Outcome,
                 fuel: nat, n: nat, t: State, x: Exit) returns (n': nat, t': State)
    requires Lands(code, cx, tg, mid, cx.sc, st, o, fuel, n, t, x)
    requires At(code, mid, [Jump(end)])
    ensures Lands(code, cx, tg, end, cx.sc, st, o, fuel, n', t', x)
  {
    hide Run, Rel, Keeps, At, ExitOk, Leaving;
    n', t' := n, t;
    if o.Normal? {
      After(code, st, n, t, Jump(end));
      n', t' := n + 1, t.(pc := end);
    }
  }

  /** A condition that has been tested, with the state it leaves. */
  lemma CondLands(code: seq<Instr>, c: Expr, no: int, cx: Ctx, tg: seq<Target>, end: int, sc': Scopes, w: World,
          st: State, fuel: nat)
    returns (n: nat, t: State, x: Exit)
    requires Sane(cx, tg) && Ready(cx, st, w) && OkE(c, cx.sc)
    requires At(code, st.pc, CodeCond(c, cx.sc, st.pc, no))
    ensures n >= 1
    ensures
      var r := EvalCond(Compiled, c, w.env);
      if r.Fails? then Lands(code, cx, tg, end, sc', st, Throwing(w, r.env, r.err), fuel, n, t, x)
      else
        && Run(code, Running(st), n) == Running(t)
            && t.pc == (if r.v == Bool(true) then st.pc + LenCond(c, cx.sc) else no)
        && t.stack == st.stack && t.handlers == st.handlers && Keeps(st.mem, t.mem, cx.sc, cx.next)
        && Ready(cx, t, w.(env := r.env))
  {
    hide Run, Rel, Keeps, Laid, At, FinsOk, Within, CodeCond, LenCond, EvalCond, OkE, Leaving, ExitOk;
    n, t := CondSim(code, c, no, cx.sc, cx.next, w.env, st);
    var r := EvalCond(Compiled, c, w.env);
    if r.Fails? {
      x := FailLands(code, cx, tg, end, sc', w, st, r, fuel, n, t);
    } else {
      x := Exit([], 0, 0, false);
    }
  }

  /** What leaving a loop body through its own break or continue comes to: a jump. */
  lemma AtLoopEdge(code: seq<Instr>, cx: Ctx, tg: seq<Target>, target: Target, o: Outcome, x: Exit, t: State,
          stack: seq<Value>)
    requires (o.Brk? || o.Cnt?) && x.sc == cx.sc
    requires Leaving(code, cx.(loops := cx.loops + [Depth(cx.fins)]), tg + [target], o, x, t, stack)
    ensures At(code, t.pc, [Jump(if o.Brk? then target.brk else target.cnt)]) && t.stack == stack
  {
    hide At, CodeFin, LayFin;
    var cu := CodeUnwind(cx.fins, Depth(cx.fins), !o.Cnt?, x.sc, x.next, cx.loops + [Depth(cx.fins)], tg
        + [target], t.pc);
    assert cu == [];
    assert cu + Tail(o, tg + [target], x) == Tail(o, tg + [target], x);
  }

  /** A return or throw that passes through a loop: the enclosing loops are as before. */
  lemma LeaveLoop(code: seq<Instr>, cx: Ctx, tg: seq<Target>, target: Target, end1: int, end: int, st: State,
          o: Outcome,
                  fuel: nat, n: nat, t: State, x: Exit)
    requires Sane(cx, tg) && (o.Ret? || o.Thr? || o.Timeout?) && (o.Ret? ==> x.sc == cx.sc)
    requires Lands(code, cx.(loops := cx.loops + [Depth(cx.fins)]), tg + [target], end1, cx.sc, st, o, fuel, n, t, x)
    ensures Lands(code, cx, tg, end, cx.sc, st, o, fuel, n, t, x)
  {
    hide Run, Rel, Keeps, Laid, At, Within, InScope, CodeUnwind, LayUnwind, FinsOk, Holds;
    if o.Ret? && !x.now {
      UnwindSame(cx.fins, 0, true, x.sc, x.sc, x.next, cx.loops + [Depth(cx.fins)], cx.loops, tg + [target], tg, t.pc,
                 |cx.sc|, cx.loops);
    }
  }

  /** A landing that did not fall through does not care where `end` is. */
  lemma ShutFor(code: seq<Instr>, cx0: Ctx, cx: Ctx, tg: seq<Target>, end0: int, end: int, sc': Scopes, st: State,
          o: Outcome,
                fuel: nat, n: nat, t: State, x: Exit)
    requires Lands(code, cx0, tg, end0, sc', st, o, fuel, n, t, x)
        || Lands(code, cx0, tg, end, sc', st, o, fuel, n, t, x)
    requires o.Normal? ==> Lands(code, cx0, tg, end, sc', st, o, fuel, n, t, x)
    ensures Lands(code, cx0, tg, end, sc', st, o, fuel, n, t, x)
  {
    hide Run, Rel, Keeps, Leaving, ExitOk;
  }

  /** A temporary below the slot counter survives. */
  lemma Kept(mem: map<Ref, Value>, mem': map<Ref, Value>, sc: Scopes, next: nat, s: nat)
    requires Keeps(mem, mem', sc, next) && s < next && !InScope(Local(s), sc) && Local(s) in mem
    ensures Local(s) in mem' && mem'[Local(s)] == mem[Local(s)]
  {}

  lemma SameLeave(code: seq<Instr>, fins: Fins, loops: seq<nat>, tg: seq<Target>, o: Outcome, o': Outcome, x: Exit,
          pc: int)
    requires Leaves(o) && o'.Brk? == o.Brk? && o'.Cnt? == o.Cnt? && o'.Ret? == o.Ret?
    requires AtLeave(code, fins, loops, tg, o, x, pc)
    ensures AtLeave(code, fins, loops, tg, o', x, pc)
  {
    hide At, CodeUnwind, LayUnwind;
    assert Tail(o, tg, x) == Tail(o', tg, x);
  }

  /** Evaluate and store the resource, enter it, bind the name, install the handler. */
  lemma SimEnter(code: seq<Instr>, name: Option<string>, e: Expr, b: Stmts, cx: Ctx, tg: seq<Target>, w: World,
          st: State, catch: int)
    returns (n: nat, t: State)
    requires Sane(cx, tg) && Ready(cx, st, w) && OkE(e, cx.sc + [map[]])
        && WithCode(code, name, e, b, cx, tg, st.pc, catch)
    ensures
      var sc0 := cx.sc + [map[]];
      var hpc := st.pc + LenE(e, sc0) + 4;
      var r := EvalE(Compiled, e, w.env + [map[]]);
      if r.Fails? then Does(code, st, n, t, hpc - 4, r, sc0, cx.next)
      else
        && Run(code, Running(st), n) == Running(t) && t.pc == hpc + 1 && t.stack == st.stack
        && t.handlers == st.handlers + [Handler(catch, |st.stack|)] && t.trace == w.trace + EnterEvents(r.v)
            && t.pend == w.pend
        && Keeps(st.mem, t.mem, cx.sc, cx.next)
        && Local(cx.next) in t.mem && t.mem[Local(cx.next)] == r.v
        && Rel(if name.None? then r.env else Bind(r.env, name.value, r.v), WithCtx(cx, name).sc, t.mem)
  {
    hide Run, Rel, Keeps, Laid, At, FinsOk, Within, CodeE, LenE, EvalE, OkE, CodeBlock, InScope, Exec, Bind, LayBlock,
        TopLoop;
    var sc0 := cx.sc + [map[]];
    Pushed(w.env, cx.sc, st.mem, cx.next);
    n, t := EvalSim(code, e, sc0, cx.next, w.env + [map[]], st);
    var r := EvalE(Compiled, e, w.env + [map[]]);
    if r.Yields? {
      var m, s1 := n, t;
      n, t := EnterSteps(code, name, sc0, cx.next, catch, r.env, r.v, s1, st.stack);
      Then(code, st, m, s1, n, Running(t));
      n := m + n;
      KeepsTrans(st.mem, s1.mem, t.mem, sc0, cx.next);
      KeepsNarrow(st.mem, t.mem, sc0, cx.next, cx.sc, cx.next);
    }
  }

  lemma EnterSteps(code: seq<Instr>, name: Option<string>, sc0: Scopes, h: nat, catch: int, env: Env, v: Value,
          st: State, stack: seq<Value>)
    returns (n: nat, t: State)
    requires |sc0| > 0 && Laid(sc0, h) && Rel(env, sc0, st.mem) && st.stack == stack + [v]
    requires At(code, st.pc, [Define(Local(h))]) && At(code, st.pc + 1, [Get(Local(h))])
        && At(code, st.pc + 2, [WithEnter])
    requires At(code, st.pc + 3, [if name.None? then Instr.Pop else Define(Local(h + 1))])
    requires At(code, st.pc + 4, [PushHandler(catch)])
    ensures Run(code, Running(st), n) == Running(t)
    ensures t == st.(pc := st.pc + 5, stack := stack, mem := t.mem, trace := st.trace + EnterEvents(v),
                     handlers := st.handlers + [Handler(catch, |stack|)])
    ensures Keeps(st.mem, t.mem, sc0, h) && Local(h) in t.mem && t.mem[Local(h)] == v
    ensures if name.None? then Rel(env, sc0, t.mem)
            else Rel(Bind(env, name.value, v), Bind(sc0, name.value, Binding(Local(h + 1), false)), t.mem)
  {
    hide Run, Rel, Keeps, Laid, At, Bind;
    RunZero(code, st);
    StepDefine(code, st, 0, st, Local(h), stack, v);
    Scratch(env, sc0, st.mem, h, h, v);
    var s1 := st.(pc := st.pc + 1, stack := stack, mem := st.mem[Local(h) := v]);
    StepGet(code, st, 1, s1, Local(h));
    var s2 := s1.(pc := s1.pc + 1, stack := stack + [v]);
    StepEnter(code, st, 2, s2, stack, v);
    var s3 := s2.(pc := s2.pc + 1, trace := s2.trace + EnterEvents(v));
    var s4 := s3.(pc := s3.pc + 1, stack := stack);
    if name.None? {
      StepPop(code, st, 3, s3, stack, v);
    } else {
      StepDefine(code, st, 3, s3, Local(h + 1), stack, v);
      s4 := s4.(mem := s3.mem[Local(h + 1) := v]);
      Declare(env, sc0, s3.mem, h, name.value, h + 1, v, false);
      KeepsTrans(st.mem, s3.mem, s4.mem, sc0, h);
    }
    t := s4.(pc := s4.pc + 1, handlers := s4.handlers + [Handler(catch, |stack|)]);
    StepPush(code, st, 4, s4, catch);
    n := 5;
  }

  /** The two opcodes that exit the resource. */
  lemma SimExit(code: seq<Instr>, st: State, m: nat, s1: State, h: nat, v: Value) returns (t: State)
    requires Run(code, Running(st), m) == Running(s1)
    requires At(code, s1.pc, [Get(Local(h))]) && At(code, s1.pc + 1, [WithExit]) && Local(h) in s1.mem
        && s1.mem[Local(h)] == v
    ensures t == s1.(pc := s1.pc + 2, trace := s1.trace + ExitEvents(v))
    ensures Run(code, Running(st), m + 2) == Running(t)
  {
    hide Run, At;
    After(code, st, m, s1, Get(Local(h)));
    var s2 := s1.(pc := s1.pc + 1, stack := s1.stack + [v]);
    After(code, st, m + 1, s2, WithExit);
    assert s2.stack[..|s2.stack| - 1] == s1.stack;
    t := s1.(pc := s1.pc + 2, trace := s1.trace + ExitEvents(v));
  }

  /** The body has thrown: the handler exits the resource and rethrows. */
  lemma WithThrown(code: seq<Instr>, st: State, m: nat, s1: State, h: nat, v: Value, catch: int)
    returns (n: nat, t: State)
    requires Run(code, Running(st), m) == Unwind(s1) && st.stack <= s1.stack && s1.pend.Some?
    requires s1.handlers == st.handlers + [Handler(catch, |st.stack|)]
    requires At(code, catch, [Get(Local(h))]) && At(code, catch + 1, [WithExit]) && At(code, catch + 2, [Rethrow])
    requires Local(h) in s1.mem && s1.mem[Local(h)] == v
    ensures Run(code, Running(st), n) == Unwind(t)
    ensures t == s1.(pc := catch + 2, stack := st.stack, handlers := st.handlers, trace := s1.trace + ExitEvents(v))
  {
    hide Run, At;
    assert (st.handlers + [Handler(catch, |st.stack|)])[..|st.handlers|] == st.handlers;
    assert Take(s1.stack, |st.stack|) == st.stack;
    var s2 := s1.(pc := catch, handlers := st.handlers, stack := st.stack);
    t := SimExit(code, st, m, s2, h, v);
    After(code, st, m + 2, t, Rethrow);
    n := m + 3;
  }

  /** The body is over: drop the handler and exit the resource. */
  lemma WithLeft(code: seq<Instr>, st: State, m: nat, s1: State, h: nat, v: Value, handlers: seq<Handler>, catch: int)
    returns (n: nat, t: State)
    requires Run(code, Running(st), m) == Running(s1) && s1.handlers == handlers + [Handler(catch, |st.stack|)]
    requires At(code, s1.pc, [PopHandler]) && At(code, s1.pc + 1, [Get(Local(h))]) && At(code, s1.pc + 2, [WithExit])
    requires Local(h) in s1.mem && s1.mem[Local(h)] == v
    ensures Run(code, Running(st), n) == Running(t)
    ensures t == s1.(pc := s1.pc + 3, handlers := handlers, trace := s1.trace + ExitEvents(v))
  {
    hide Run, At;
    After(code, st, m, s1, PopHandler);
    assert s1.handlers[..|s1.handlers| - 1] == handlers;
    var s2 := s1.(pc := s1.pc + 1, handlers := handlers);
    t := SimExit(code, st, m + 1, s2, h, v);
    n := m + 3;
  }

  /** Assemble the landing of an inner construct, whose scopes extend the outer ones by one
      frame and whose temporaries the outer construct has written. */
  lemma OuterLands(code: seq<Instr>, cx: Ctx, cx1: Ctx, tg: seq<Target>, end: int, st: State, o: Outcome,
                   fuel: nat, n: nat, t: State, x: Exit)
    requires !o.Timeout? && ExitOk(cx1, x) && cx.next <= cx1.next
    requires |cx1.sc| == |cx.sc| + 1 && cx1.sc[..|cx.sc|] == cx.sc
    requires t.handlers == st.handlers && t.trace == o.w.trace && t.pend == o.w.pend
    requires Keeps(st.mem, t.mem, cx.sc, cx.next) && Rel(o.w.env, x.sc, t.mem)
    requires if o.Thr? then Run(code, Running(st), n) == Unwind(t) && st.stack <= t.stack && t.pend.Some?
             else Run(code, Running(st), n) == Running(t) &&
                  if o.Normal? then t.pc == end && t.stack == st.stack && x.sc == cx1.sc
                  else Leaving(code, cx.(sc := cx1.sc), tg, o, x, t, st.stack)
    ensures Lands(code, cx.(sc := cx1.sc), tg, end, cx1.sc, st, o, fuel, n, t, x)
  {
    hide Run, Rel, Keeps, Laid, Leaving, Within;
    KeepsMore(st.mem, t.mem, cx.sc, cx1.sc, cx.next);
    WithinSame(cx1.sc, cx.next);
    WithinTrans(x.sc, cx1.sc, cx1.next, cx1.sc, cx.next);
  }

  lemma KeepsMore(mem: map<Ref, Value>, mem': map<Ref, Value>, sc: Scopes, sc1: Scopes, next: nat)
    requires Keeps(mem, mem', sc, next) && |sc| <= |sc1| && sc1[..|sc|] == sc
    ensures Keeps(mem, mem', sc1, next)
  {
    forall s: nat | !InScope(Local(s), sc1)
      ensures !InScope(Local(s), sc)
    {
      NotInPrefix(s, sc1, |sc|);
    }
  }

  lemma {:induction false} RangeSim(code: seq<Instr>, a: Option<Expr>, b: Option<Expr>, c: Option<Expr>, ex: bool,
          sc: Scopes,
                                    next: nat, env: Env, st: State)
    returns (n: nat, t: State)
    requires OkIterable(Range(a, b, c, ex), sc) && Laid(sc, next) && Rel(env, sc, st.mem)
    requires At(code, st.pc, CodeIterable(Range(a, b, c, ex), sc, st.pc))
    ensures var r := EvalIterable(Compiled, Range(a, b, c, ex), env);
            Does(code, st, n, t, st.pc + LenIterable(Range(a, b, c, ex), sc), r, sc, next)
                && (r.Yields? ==> r.v.Iter? && Opens(r.v) == [])
  {
    hide Run, Rel, Keeps, Laid, At, CodeE, LenE, EvalE, OkE, RangeIter, EvalIterable, CodeIterable, LenIterable,
        OkIterable, RangePart;
    RangeEq(a, b, c, ex, sc, st.pc, env);
    var ae, be, ce := RangePart(a, IntLit(0)), RangePart(b, Lit(Null)), RangePart(c, IntLit(1));
    var bpc := st.pc + LenE(ae, sc);
    var cpc := bpc + LenE(be, sc);
    var ac, bc, cc := CodeE(ae, sc, st.pc), CodeE(be, sc, bpc), CodeE(ce, sc, cpc);
    AtSplit(code, st.pc, ac + bc + cc, [ForRangeIter(ex)]);
    AtSplit(code, st.pc, ac + bc, cc);
    AtSplit(code, st.pc, ac, bc);
    n, t := OperandsSim(code, ae, be, sc, next, env, st);
    var ra := EvalE(Compiled, ae, env);
    if ra.Yields? {
      var rb := EvalE(Compiled, be, ra.env);
      if rb.Yields? {
        var m, s1 := n, t;
        n, t := EvalSim(code, ce, sc, next, rb.env, s1);
        Then(code, st, m, s1, n, Run(code, Running(s1), n));
        KeepsTrans(st.mem, s1.mem, t.mem, sc, next);
        n := m + n;
        var rc := EvalE(Compiled, ce, rb.env);
        if rc.Yields? {
          assert t.stack == st.stack + [ra.v, rb.v, rc.v];
          n, t := IterStep(code, st, n, t, ForRangeIter(ex), [ra.v, rb.v, rc.v], RangeIter(ra.v, rb.v, rc.v, ex),
              st.stack);
          IsIter(ra.v, rb.v, rc.v, ex);
        }
      }
    }
  }

  /** As Does, for an iterable: the value is an iterator, and a generator has been taken. */
  ghost predicate Iterates(code: seq<Instr>, st: State, n: nat, t: State, end: int, r: ExprResult, sc: Scopes,
          next: nat) {
    && t.handlers == st.handlers && t.trace == st.trace + (if r.Yields? then Opens(r.v) else [])
    && Rel(r.env, sc, t.mem) && Keeps(st.mem, t.mem, sc, next)
    && (match r
        case Yields(v, _) =>
          v.Iter? && Run(code, Running(st), n) == Running(t) && t.pc == end && t.stack == st.stack + [v]
              && t.pend == st.pend
        case Fails(err, _) =>
          Run(code, Running(st), n) == Unwind(t) && st.stack <= t.stack && t.pend == Some(err))
  }

  /** An iterable leaves an iterator on the stack. */
  lemma {:induction false} IterableSim(code: seq<Instr>, it: Iterable, sc: Scopes, next: nat, env: Env, st: State)
    returns (n: nat, t: State)
    requires OkIterable(it, sc) && Laid(sc, next) && Rel(env, sc, st.mem)
    requires At(code, st.pc, CodeIterable(it, sc, st.pc))
    ensures Iterates(code, st, n, t, st.pc + LenIterable(it, sc), EvalIterable(Compiled, it, env), sc, next)
  {
    hide Run, Rel, Keeps, Laid, At, CodeE, LenE, EvalE, OkE, EachIter, RangeIter;
    match it
    case Each(e) =>
      LenOfCode(e, sc, st.pc);
      AtSplit(code, st.pc, CodeE(e, sc, st.pc), [IterInit]);
      n, t := EvalSim(code, e, sc, next, env, st);
      var r := EvalE(Compiled, e, env);
      if r.Yields? {
        n, t := IterStep(code, st, n, t, IterInit, [r.v], EachIter(r.v), st.stack);
        IsIter(r.v, Null, Null, false);
      }
    case Range(a, b, c, ex) =>
      n, t := RangeSim(code, a, b, c, ex, sc, next, env, st);
  }

  lemma IsIter(a: Value, b: Value, c: Value, ex: bool)
    ensures EachIter(a).Some? ==> EachIter(a).value.Iter?
    ensures RangeIter(a, b, c, ex).Some? ==>
        RangeIter(a, b, c, ex).value.Iter? && Opens(RangeIter(a, b, c, ex).value) == []
  {}

  /** An opcode that turns the operands on top of the stack into an iterator or raises. */
  lemma IterStep(code: seq<Instr>, st: State, m: nat, s1: State, op: Instr, args: seq<Value>, r: Option<Value>,
          stack: seq<Value>)
    returns (n: nat, t: State)
    requires Run(code, Running(st), m) == Running(s1) && At(code, s1.pc, [op]) && s1.stack == stack + args
    requires if op.IterInit? then |args| == 1 && r == EachIter(args[0])
             else op.ForRangeIter? && |args| == 3 && r == RangeIter(args[0], args[1], args[2], op.exclusive)
    ensures n >= 1
    ensures match r
            case Some(v) =>
              && t == s1.(pc := s1.pc + 1, stack := stack + [v], trace :=
                  s1.trace + (if op.IterInit? then Opens(v) else []))
              && Run(code, Running(st), n) == Running(t)
            case None => t == s1.(pend := Some(FAULT)) && Run(code, Running(st), n) == Unwind(t)
  {
    hide Run, At, EachIter, RangeIter;
    After(code, st, m, s1, op);
    assert s1.stack[..|s1.stack| - |args|] == stack;
    assert s1.trace + [] == s1.trace;
    n := m + 1;
    t := match r
         case Some(v) => s1.(pc := s1.pc + 1, stack := stack + [v], trace :=
             s1.trace + (if op.IterInit? then Opens(v) else []))
         case None => s1.(pend := Some(FAULT));
  }

  /** Fetch the next value into the loop variable. */
  lemma FetchSteps(code: seq<Instr>, x: string, sc0: Scopes, h: nat, top: int, end: int, env: Env, gen: Option<nat>,
          items: seq<Value>, st: State)
    returns (t: State)
    requires |sc0| > 0 && Laid(sc0, h) && |items| > 0 && st.pc == top
    requires Rel(env, Bind(sc0, x, Binding(Local(h + 2), false)), st.mem)
    requires Local(h + 1) in st.mem && st.mem[Local(h + 1)] == Iter(gen, items)
    requires At(code, top, [IterNext(end, h + 1, h)]) && At(code, top + 1, [Get(Local(h))])
    requires At(code, top + 2, [Set(Local(h + 2))]) && At(code, top + 3, [Instr.Pop])
    ensures Run(code, Running(st), 4) == Running(t) && t == st.(pc := top + 4, mem := t.mem)
    ensures t.mem == st.mem[Local(h + 1) := Iter(gen, items[1..])][Local(h) := items[0]][Local(h + 2) := items[0]]
    ensures Rel(Bind(env, x, items[0]), Bind(sc0, x, Binding(Local(h + 2), false)), t.mem)
  {
    hide Run, Rel, Keeps, Laid, At, Bind, InScope;
    RunZero(code, st);
    After(code, st, 0, st, IterNext(end, h + 1, h));
    var s1 := st.(pc := top + 1, mem := st.mem[Local(h + 1) := Iter(gen, items[1..])][Local(h) := items[0]]);
    StepGet(code, st, 1, s1, Local(h));
    var s2 := s1.(pc := top + 2, stack := st.stack + [items[0]]);
    After(code, st, 2, s2, Set(Local(h + 2)));
    var s3 := s2.(pc := top + 3, mem := s2.mem[Local(h + 2) := items[0]]);
    StepPop(code, st, 3, s3, st.stack, items[0]);
    t := s3.(pc := top + 4, stack := st.stack);
    FetchRel(x, sc0, h, env, st.mem, Iter(gen, items[1..]), items[0]);
  }

  lemma FetchRel(x: string, sc0: Scopes, h: nat, env: Env, mem: map<Ref, Value>, it: Value, v: Value)
    requires |sc0| > 0 && Laid(sc0, h) && Rel(env, Bind(sc0, x, Binding(Local(h + 2), false)), mem)
    ensures Rel(Bind(env, x, v), Bind(sc0, x, Binding(Local(h + 2), false)),
        mem[Local(h + 1) := it][Local(h) := v][Local(h + 2) := v])
  {
    var sc1: Scopes := Bind(sc0, x, Binding(Local(h + 2), false));
    var env1 := Bind(env, x, v);
    var mem1 := mem[Local(h + 1) := it][Local(h) := v][Local(h + 2) := v];
    forall i, y | 0 <= i < |sc1| && y in sc1[i]
      ensures sc1[i][y].ref in mem1 && mem1[sc1[i][y].ref] == env1[i][y]
    {
      if i < |sc0| - 1 || y != x {
        assert sc1[i][y] == sc0[i][y];
        assert sc0[i][y].ref.Local? ==> sc0[i][y].ref.slot < h;
      }
    }
  }

  /** Writing slots from `next` on disturbs no temporary below it. */
  lemma KeepsAbove(mem: map<Ref, Value>, mem': map<Ref, Value>, sc: Scopes, next: nat)
    requires mem.Keys <= mem'.Keys
    requires forall s: nat :: s < next && Local(s) in mem ==> mem'[Local(s)] == mem[Local(s)]
    ensures Keeps(mem, mem', sc, next)
  {}

  /** What leaves the body of a for-in loop through its own loop, or past it. */
  lemma EachEdge(code: seq<Instr>, cx: Ctx, name: string, tg: seq<Target>, target: Target, o: Outcome, x: Exit,
          t: State, stack: seq<Value>)
    requires Leaves(o) && Sane(cx, tg) && x.sc == EachCtx(cx, name).sc && (o.Ret? ==> !x.now)
    requires Leaving(code, EachCtx(cx, name), tg + [target], o, x, t, stack)
    ensures o.Cnt? ==> At(code, t.pc, [Jump(target.cnt)])
    ensures !o.Cnt? ==> At(code, t.pc, [IterClose(cx.next + 1)])
    ensures o.Brk? ==> At(code, t.pc + 1, [Jump(target.brk)])
    ensures o.Ret? ==> AtLeave(code, cx.fins, cx.loops, tg, o, x, t.pc + 1)
  {
    hide At, FinsOk, CodeUnwind, LayUnwind, Laid, Holds, Bind;
    var f := Fin(None, false, Some(cx.next + 1), None, 0, 0);
    var cx1 := EachCtx(cx, name);
    EachSane(cx, tg, name, target);
    Peel(code, f, cx.fins, cx1.loops, tg + [target], o, x, t.pc);
    var own := OwnCode(f, !o.Cnt?);
    assert own == if o.Cnt? then [] else [IterClose(cx.next + 1)];
    var pc1 := t.pc + |own|;
    if o.Ret? {
      FinsGrow(cx.fins, |cx.sc|, cx.loops, |x.sc|, cx.loops);
      UnwindSame(cx.fins, 0, true, x.sc, x.sc, x.next, cx1.loops, cx.loops, tg + [target], tg, pc1, |x.sc|, cx.loops);
    } else {
      var cxe := Ctx(x.sc, x.next, cx.fins, cx.loops);
      AtLoopEdge(code, cxe, tg, target, o, x, t.(pc := pc1), t.stack);
    }
  }

  /** The machine after the last iteration. */
  lemma EachDone(code: seq<Instr>, h: nat, st: State, end: int, it: Value) returns (n: nat, t: State)
    requires At(code, st.pc, [IterNext(end, h + 1, h)]) && At(code, end, [IterClose(h + 1)])
    requires Local(h + 1) in st.mem && st.mem[Local(h + 1)] == it && it.Iter? && it.rest == []
    ensures Run(code, Running(st), n) == Running(t) && t == st.(pc := end + 1, trace := st.trace + Close(it))
  {
    hide Run, At;
    RunZero(code, st);
    After(code, st, 0, st, IterNext(end, h + 1, h));
    assert st.stack[..|st.stack| - 0] == st.stack;
    After(code, st, 1, st.(pc := end), IterClose(h + 1));
    n, t := 2, st.(pc := end + 1, trace := st.trace + Close(it));
  }

  lemma ExitHere(cx: Ctx, slot: nat)
    requires |cx.sc| > 0 && Laid(cx.sc, cx.next)
    ensures ExitOk(cx, Exit(cx.sc, cx.next, slot, false))
  {
    hide Laid, Within;
    WithinSame(cx.sc, cx.next);
  }

  /** Below a finalizer nothing returns at once. */
  lemma LeavingStack(code: seq<Instr>, cx: Ctx, tg: seq<Target>, o: Outcome, x: Exit, t: State, stack: seq<Value>)
    requires cx.fins.On? && Leaving(code, cx, tg, o, x, t, stack)
    ensures t.stack == stack && (o.Ret? ==> !x.now && Holds(x, t.mem, o.v))
    ensures AtLeave(code, cx.fins, cx.loops, tg, o, x, t.pc)
  {
    hide AtLeave, Holds;
  }

  lemma StillLeaving(code: seq<Instr>, cx: Ctx, tg: seq<Target>, o: Outcome, x: Exit, t: State, stack: seq<Value>)
    requires t.stack == stack && AtLeave(code, cx.fins, cx.loops, tg, o, x, t.pc)
    requires o.Ret? ==> !x.now && Holds(x, t.mem, o.v)
    ensures Leaving(code, cx, tg, o, x, t, stack)
  {
    hide AtLeave, Holds;
  }

  /** What leaves the body of a with statement starts by exiting the resource. */
  lemma WithEdge(code: seq<Instr>, h: nat, fins: Fins, loops: seq<nat>, tg: seq<Target>, o: Outcome, x: Exit, pc: int)
    requires Leaves(o) && FromDepth(o, loops) <= Depth(fins)
    requires AtLeave(code, On(fins, Fin(None, true, None, Some(h), 0, 0)), loops, tg, o, x, pc)
    ensures At(code, pc, [PopHandler]) && At(code, pc + 1, [Get(Local(h))]) && At(code, pc + 2, [WithExit])
    ensures AtLeave(code, fins, loops, tg, o, x, pc + 3)
  {
    hide At, AtLeave;
    var f := Fin(None, true, None, Some(h), 0, 0);
    var own := [PopHandler, Get(Local(h)), WithExit];
    assert OwnCode(f, !o.Cnt?) == own;
    Peel(code, f, fins, loops, tg, o, x, pc);
    AtThree(code, pc, own);
  }

  /** A break, a return or an error that ends the loop. */
  lemma EachOut(code: seq<Instr>, name: string, cx: Ctx, tg: seq<Target>, it: Value, st: State, m: nat, s1: State,
          x: Exit, o: Outcome,
                fuel: nat, end: int, target: Target)
    returns (n: nat, t: State)
    requires Sane(cx, tg) && (o.Brk? || o.Ret? || o.Thr?) && target.brk == end + 1
    requires Run(code, Running(st), m) == (if o.Thr? then Unwind(s1) else Running(s1))
    requires s1.handlers == st.handlers && s1.trace == o.w.trace && s1.pend == o.w.pend
    requires Keeps(st.mem, s1.mem, cx.sc, cx.next) && Rel(o.w.env, x.sc, s1.mem)
    requires ExitOk(EachCtx(cx, name), x) && x.sc == EachCtx(cx, name).sc
    requires if o.Thr? then st.stack <= s1.stack && s1.pend.Some?
        else Leaving(code, EachCtx(cx, name), tg + [target], o, x, s1, st.stack)
    requires it.Iter? && Local(cx.next + 1) in s1.mem && s1.mem[Local(cx.next + 1)] == it
    ensures Lands(code, cx.(sc := EachCtx(cx, name).sc), tg, end + 1,
        EachCtx(cx, name).sc, st, LeaveEach(Compiled, o, Close(it)), fuel, n, t, x)
  {
    hide Run, Rel, Keeps, Laid, At, FinsOk, Within, InScope, CodeUnwind, LayUnwind, Holds, Bind, AtLeave, ExitOk;
    var cx1 := EachCtx(cx, name);
    EachSane(cx, tg, name, target);
    n, t := m, s1;
    if !o.Thr? {
      LeavingStack(code, cx1, tg + [target], o, x, s1, st.stack);
      EachEdge(code, cx, name, tg, target, o, x, s1, st.stack);
      After(code, st, n, t, IterClose(cx.next + 1));
      n, t := n + 1, t.(pc := t.pc + 1, trace := t.trace + Close(it));
      if o.Brk? {
        After(code, st, n, t, Jump(end + 1));
        n, t := n + 1, t.(pc := end + 1);
      } else {
        SameLeave(code, cx.fins, cx.loops, tg, o, LogAll(o, Close(it)), x, t.pc);
      }
    }
    OuterLands(code, cx, cx1, tg, end + 1, st, LeaveEach(Compiled, o, Close(it)), fuel, n, t, x);
  }

  /** Up to the first test for another value. */
  lemma SetupSteps(code: seq<Instr>, name: string, it: Iterable, cx: Ctx, env: Env, st: State)
    returns (n: nat, t: State)
    requires EachSetup(code, it, cx, st.pc) && OkIterable(it, cx.sc + [map[]])
    requires Rel(env, cx.sc + [map[]], st.mem) && Laid(cx.sc + [map[]], cx.next)
        && Within(cx.sc + [map[]], cx.sc, cx.next)
    ensures
      var sc0 := cx.sc + [map[]];
      var r := EvalIterable(Compiled, it, env);
      var top := st.pc + 2 + LenIterable(it, sc0) + 3;
      && t.handlers == st.handlers && t.trace == st.trace + (if r.Yields? then Opens(r.v) else [])
      && (if r.Fails? then
            Rel(r.env, sc0, t.mem) && Keeps(st.mem, t.mem, sc0, cx.next) &&
            Run(code, Running(st), n) == Unwind(t) && st.stack <= t.stack && t.pend == Some(r.err)
          else
            && Run(code, Running(st), n) == Running(t) && t.pc == top && t.stack == st.stack && t.pend == st.pend
            && r.v.Iter? && Local(cx.next + 1) in t.mem && t.mem[Local(cx.next + 1)] == r.v
            && Keeps(st.mem, t.mem, cx.sc, cx.next) && Rel(Bind(r.env, name, Null), EachCtx(cx, name).sc, t.mem))
  {
    hide Run, Rel, Keeps, Laid, At, Within, CodeIterable, LenIterable, EvalIterable, OkIterable, Bind, InScope, Exec;
    var sc0 := cx.sc + [map[]];
    var h := cx.next;
    RunZero(code, st);
    StepConst(code, st, 0, st, Null);
    var s1 := st.(pc := st.pc + 1, stack := st.stack + [Null]);
    StepDefine(code, st, 1, s1, Local(h), st.stack, Null);
    Scratch(env, sc0, st.mem, h, h, Null);
    var s2 := st.(pc := st.pc + 2, mem := st.mem[Local(h) := Null]);
    n, t := IterableSim(code, it, sc0, h, env, s2);
    Then(code, st, 2, s2, n, Run(code, Running(s2), n));
    KeepsTrans(st.mem, s2.mem, t.mem, sc0, h);
    n := 2 + n;
    var r := EvalIterable(Compiled, it, env);
    if r.Yields? {
      StepDefine(code, st, n, t, Local(h + 1), st.stack, r.v);
      var s3 := t.(pc := t.pc + 1, stack := st.stack, mem := t.mem[Local(h + 1) := r.v]);
      Scratch(r.env, sc0, t.mem, h, h + 1, r.v);
      KeepsTrans(st.mem, t.mem, s3.mem, sc0, h);
      StepConst(code, st, n + 1, s3, Null);
      var s4 := s3.(pc := s3.pc + 1, stack := st.stack + [Null]);
      StepDefine(code, st, n + 2, s4, Local(h + 2), st.stack, Null);
      n, t := n + 3, s4.(pc := s4.pc + 1, stack := st.stack, mem := s4.mem[Local(h + 2) := Null]);
      Declare(r.env, sc0, s4.mem, h, name, h + 2, Null, false);
      KeepsTrans(st.mem, s3.mem, t.mem, sc0, h);
      KeepsNarrow(st.mem, t.mem, sc0, h, cx.sc, h);
    }
  }

  /** The clause takes the error: its body starts with the error in its slot. */
  lemma CatchTakes(code: seq<Instr>, st: State, target: int, kind: Option<string>, name: Option<string>,
          f: Option<Stmts>, cx: Ctx, w: World)
    returns (t: State)
    requires |cx.sc| > 0 && Laid(cx.sc, cx.next) && Ready(cx, st, w) && w.pend.Some? && Matches(kind, PendOf(w))
    requires At(code, st.pc, [CatchClause(target, kind, if name.None? then None else Some(cx.next))])
    ensures Run(code, Running(st), 1) == Running(t) && Keeps(st.mem, t.mem, cx.sc, cx.next)
    ensures t == st.(pc := st.pc + 1, pend := None, mem := t.mem)
    ensures
      var frame := if name.Some? then map[name.value := PendOf(w)] else map[];
      Ready(CatchCtx(cx, name, f), t, Open(w, frame).(pend := None))
  {
    hide Run, Laid, At, Matches, Rel, Keeps;
    One(code, st, CatchClause(target, kind, if name.None? then None else Some(cx.next)));
    var sc0: Scopes := cx.sc + [map[]];
    t := st.(pc := st.pc + 1, pend := None, mem := if name.None? then st.mem else st.mem[Local(cx.next) := PendOf(w)]);
    Pushed(w.env, cx.sc, st.mem, cx.next);
    KeepsSame(st.mem, cx.sc, cx.next);
    if name.Some? {
      Declare(w.env + [map[]], sc0, st.mem, cx.next, name.value, cx.next, PendOf(w), false);
      assert map[][name.value := Binding(Local(cx.next), false)] == map[name.value := Binding(Local(cx.next), false)];
      assert map[][name.value := PendOf(w)] == map[name.value := PendOf(w)];
      assert CatchCtx(cx, name, f).sc == Bind(sc0, name.value, Binding(Local(cx.next), false));
      assert w.env + [map[name.value := PendOf(w)]] == Bind(w.env + [map[]], name.value, PendOf(w));
      Scratch(w.env, cx.sc, st.mem, cx.next, cx.next, PendOf(w));
    }
  }

  lemma CatchSkips(code: seq<Instr>, st: State, target: int, kind: Option<string>, slot: Option<nat>)
    requires st.pend.Some? && !Matches(kind, st.pend.value) && At(code, st.pc, [CatchClause(target, kind, slot)])
    ensures Run(code, Running(st), 1) == Running(st.(pc := target))
  {
    hide Run, At, Matches;
    One(code, st, CatchClause(target, kind, slot));
    assert st.stack[..|st.stack| - 0] == st.stack;
  }

  /** A landing that does not leave does not look at the finalizers. */
  lemma OtherFins(code: seq<Instr>, cx: Ctx, fins: Fins, tg: seq<Target>, end: int, sc': Scopes, st: State, o: Outcome,
                  fuel: nat, n: nat, t: State, x: Exit)
    requires !Leaves(o) && Lands(code, cx, tg, end, sc', st, o, fuel, n, t, x)
    ensures Lands(code, cx.(fins := fins), tg, end, sc', st, o, fuel, n, t, x)
  {
    hide Run, Rel, Keeps, Laid, At, Within, Leaving;
  }

  lemma TryExit(cx: Ctx, f: Option<Stmts>, x: Exit)
    requires ExitOk(TryCtx(cx, f), x)
    ensures ExitOk(cx, x)
  {
    hide Laid, Within;
  }
}
