/** The compiler-correctness theorem: what a compiled function body does on the machine is
    what its statements mean, for every body, every start and every number of steps. */
module Correct {
  import opened Syntax
  import opened Machine
  import opened ExprGen
  import opened StmtGen
  import opened Semantics
  import opened Relation
  import opened ExprCorrect
  import opened Landing
  import opened StmtForms
  import opened StmtSim

  /** A function's code in place, about to run on the environment of w, perhaps under
      handlers of its callers. */
  ghost predicate Entered(code: seq<Instr>, b: Stmts, sc: Scopes, next: nat, w: World, st: State) {
    && |sc| > 0 && Laid(sc, next) && LayBlock(b, Ctx(sc, next, Bottom, [])).ok
    && At(code, st.pc, CodeFunction(b, sc, next, st.pc))
    && Rel(w.env, sc, st.mem) && st.trace == w.trace && st.pend == w.pend
  }

  /** The body is over as o says: it returned the same value, or raised the same error, with
      the same output and variables, the handler stack as it was and the operand stack as it
      was or, for an error, no shorter. */
  ghost predicate Agrees(c: Config, o: Outcome, sc: Scopes, st: State) {
    !o.Timeout? &&
    if o.Thr? then exists t: State ::
        c == Unwind(t) && t.pend == o.w.pend && t.pend.Some? && st.stack <= t.stack && Left(t, o, sc, st)
    else
      && c.Returned? && ((o.Normal? && c.v == Null) || (o.Ret? && c.v == o.v))
      && c.st.stack == st.stack && Left(c.st, o, sc, st)
  }

  ghost predicate Left(t: State, o: Outcome, sc: Scopes, st: State)
    requires !o.Timeout?
  {
    t.trace == o.w.trace && Rel(o.w.env, sc, t.mem) && t.handlers == st.handlers
  }

  ghost predicate Halts(code: seq<Instr>, st: State) { exists n: nat :: !Run(code, Running(st), n).Running? }

  ghost predicate Terminates(d: Dialect, b: Stmts, w: World) { exists fuel: nat :: !ExecBlock(d, b, w, fuel).Timeout? }

  lemma FunctionSplit(code: seq<Instr>, b: Stmts, sc: Scopes, next: nat, pc: int)
    requires At(code, pc, CodeFunction(b, sc, next, pc))
    ensures
      var cx := Ctx(sc, next, Bottom, []);
      var end := pc + LayBlock(b, cx).len;
      At(code, pc, CodeBlock(b, cx, [], pc)) && At(code, end, [Const(Null)]) && At(code, end + 1, [Machine.Return])
  {
    hide At, CodeBlock, LayBlock;
    var cx := Ctx(sc, next, Bottom, []);
    AtSplit(code, pc, CodeBlock(b, cx, [], pc), [Const(Null), Machine.Return]);
    AtTwo(code, pc + LayBlock(b, cx).len, [Const(Null), Machine.Return]);
  }

  /** Running a body to its end, or as far as the fuel goes. */
  lemma Forward(code: seq<Instr>, b: Stmts, sc: Scopes, next: nat, w: World, st: State, fuel: nat) returns (n: nat)
    requires Entered(code, b, sc, next, w, st)
    ensures
      var o := ExecBlock(Compiled, b, w, fuel);
      if o.Timeout? then n >= fuel && Run(code, Running(st), n).Running?
          else Agrees(Run(code, Running(st), n), o, sc, st)
  {
    hide Run, Rel, Keeps, Laid, At, Within, CodeBlock, LayBlock, ExecBlock, Exec, CodeFunction, ExitOk, InScope;
    var cx := Ctx(sc, next, Bottom, []);
    var end := st.pc + LayBlock(b, cx).len;
    FunctionSplit(code, b, sc, next, st.pc);
    var t, x;
    n, t, x := SimBlock(code, b, cx, [], w, st, fuel);
    n := Finish(code, cx, end, st, ExecBlock(Compiled, b, w, fuel), fuel, n, t, x);
  }

  /** From where the block has landed to the end of the function. */
  lemma Finish(code: seq<Instr>, cx: Ctx, end: int, st: State, o: Outcome, fuel: nat, m: nat, t: State, x: Exit)
    returns (n: nat)
    requires cx == Ctx(cx.sc, cx.next, Bottom, []) && Lands(code, cx, [], end, cx.sc, st, o, fuel, m, t, x)
    requires !o.Timeout? ==> x.sc == cx.sc
    requires At(code, end, [Const(Null)]) && At(code, end + 1, [Machine.Return])
    ensures if o.Timeout? then n >= fuel && Run(code, Running(st), n).Running?
        else Agrees(Run(code, Running(st), n), o, cx.sc, st)
  {
    hide Run, Rel, Keeps, Laid, At, Within, Exec, ExitOk, InScope, Leaving;
    n := m;
    if o.Normal? {
      StepConst(code, st, m, t, Null);
      n := ReturnStep(code, st, m + 1, t.(pc := end + 1, stack := t.stack + [Null]), st.stack, Null);
    } else if o.Thr? {
      assert Run(code, Running(st), n) == Unwind(t);
    } else if Leaves(o) {
      n := FinishLeaving(code, cx, st, o, m, t, x);
    }
  }

  lemma FinishLeaving(code: seq<Instr>, cx: Ctx, st: State, o: Outcome, m: nat, t: State, x: Exit) returns (n: nat)
    requires cx == Ctx(cx.sc, cx.next, Bottom, []) && Leaves(o) && Run(code, Running(st), m) == Running(t)
    requires Leaving(code, cx, [], o, x, t, st.stack) && Left(t, o, cx.sc, st)
    ensures Agrees(Run(code, Running(st), n), o, cx.sc, st)
  {
    hide Run, Rel, Laid, At, Within, Exec, InScope, AtLeave;
    if o.Ret? && x.now {
      n := ReturnStep(code, st, m, t, st.stack, o.v);
    } else {
      BottomLeave(code, o, x, t.pc);
      StepGet(code, st, m, t, Local(x.slot));
      n := ReturnStep(code, st, m + 1, t.(pc := t.pc + 1, stack := t.stack + [o.v]), st.stack, o.v);
    }
  }

  /** With nothing to unwind, only a return leaves. */
  lemma BottomLeave(code: seq<Instr>, o: Outcome, x: Exit, pc: int)
    requires Leaves(o) && AtLeave(code, Bottom, [], [], o, x, pc)
    ensures o.Ret? && At(code, pc, [Get(Local(x.slot))]) && At(code, pc + 1, [Machine.Return])
  {
    hide At;
    var tail := Tail(o, [], x);
    assert CodeUnwind(Bottom, FromDepth(o, []), !o.Cnt?, x.sc, x.next, [], [], pc) + tail == tail;
    AtTwo(code, pc, tail);
  }

  lemma ReturnStep(code: seq<Instr>, st: State, m: nat, s1: State, stack: seq<Value>, v: Value) returns (n: nat)
    requires Run(code, Running(st), m) == Running(s1) && At(code, s1.pc, [Machine.Return]) && s1.stack == stack + [v]
    ensures Run(code, Running(st), n) == Returned(v, s1.(stack := stack))
  {
    hide Run, At;
    After(code, st, m, s1, Machine.Return);
    assert s1.stack[..|s1.stack| - 1] == stack;
    n := m + 1;
  }

  /** The code of a body never goes wrong: no operand is missing, no slot is undefined, no
      handler is popped that is not there, no jump leaves the code, until the body is over. */
  lemma NeverStuck(code: seq<Instr>, b: Stmts, sc: Scopes, next: nat, w: World, st: State, m: nat)
    requires Entered(code, b, sc, next, w, st)
    ensures !Run(code, Running(st), m).Stuck? || exists n: nat, fuel: nat ::
        n < m && Agrees(Run(code, Running(st), n), ExecBlock(Compiled, b, w, fuel), sc, st)
    ensures st.handlers == [] ==> !Run(code, Running(st), m).Stuck?
  {
    hide Run, Entered, ExecBlock, Left;
    var fuel := m + 1;
    var n := Forward(code, b, sc, next, w, st, fuel);
    if Run(code, Running(st), m).Stuck? {
      if m <= n { Halted(code, Running(st), m, n); }
      if n < m && st.handlers == [] {
        Stops(Run(code, Running(st), n), ExecBlock(Compiled, b, w, fuel), sc, st);
        Halted(code, Running(st), n, m);
      }
    }
  }

  /** With no handler around the body, the machine stops. */
  lemma Stops(c: Config, o: Outcome, sc: Scopes, st: State)
    requires Agrees(c, o, sc, st) && st.handlers == []
    ensures c.Returned? || c.Uncaught?
  {}

  /** Once the machine has stopped, it stopped as the semantics says. */
  lemma Backward(code: seq<Instr>, b: Stmts, sc: Scopes, next: nat, w: World, st: State, n: nat)
    requires Entered(code, b, sc, next, w, st) && st.handlers == [] && !Run(code, Running(st), n).Running?
    ensures Agrees(Run(code, Running(st), n), ExecBlock(Compiled, b, w, n + 1), sc, st)
  {
    hide Run, Entered, ExecBlock, Agrees;
    var m := Forward(code, b, sc, next, w, st, n + 1);
    var o := ExecBlock(Compiled, b, w, n + 1);
    if !o.Timeout? { Stops(Run(code, Running(st), m), o, sc, st); }
    if m <= n {
      if !Run(code, Running(st), m).Running? { Halted(code, Running(st), m, n); }
    } else {
      Halted(code, Running(st), n, m);
    }
  }

  /** The machine stops exactly when the statements come to an end, and then both agree. */
  lemma Adequate(code: seq<Instr>, b: Stmts, sc: Scopes, next: nat, w: World, st: State)
    requires Entered(code, b, sc, next, w, st) && st.handlers == []
    ensures Halts(code, st) <==> Terminates(Compiled, b, w)
    ensures forall n: nat, fuel: nat ::
              !Run(code, Running(st), n).Running? && !ExecBlock(Compiled, b, w, fuel).Timeout? ==>
                Agrees(Run(code, Running(st), n), ExecBlock(Compiled, b, w, fuel), sc, st)
  {
    hide Run, Entered, ExecBlock, Agrees;
    if n: nat :| !Run(code, Running(st), n).Running? {
      Backward(code, b, sc, next, w, st, n);
      var fuel: nat := n + 1;
      Ends(Run(code, Running(st), n), ExecBlock(Compiled, b, w, fuel), sc, st);
    }
    if fuel: nat :| !ExecBlock(Compiled, b, w, fuel).Timeout? {
      var m := Forward(code, b, sc, next, w, st, fuel);
      Stops(Run(code, Running(st), m), ExecBlock(Compiled, b, w, fuel), sc, st);
    }
    forall n: nat, fuel: nat | !Run(code, Running(st), n).Running? && !ExecBlock(Compiled, b, w, fuel).Timeout?
      ensures Agrees(Run(code, Running(st), n), ExecBlock(Compiled, b, w, fuel), sc, st)
    {
      var m := Forward(code, b, sc, next, w, st, fuel);
      Stops(Run(code, Running(st), m), ExecBlock(Compiled, b, w, fuel), sc, st);
      if m <= n { Halted(code, Running(st), m, n); } else { Halted(code, Running(st), n, m); }
    }
  }

  lemma Ends(c: Config, o: Outcome, sc: Scopes, st: State)
    requires Agrees(c, o, sc, st)
    ensures !o.Timeout?
  {}
}
