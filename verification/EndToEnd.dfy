/** From source text to machine, against the reference semantics: what the instructions in
    the compiler's buffer do is what the tree-walking evaluator does. */
module EndToEnd {
  import opened Syntax
  import opened Machine
  import opened ExprGen
  import opened StmtGen
  import opened Semantics
  import opened Relation
  import opened Agreement
  import opened Tame
  import opened Boxes
  import opened Correct
  import opened Nesting
  import opened Levels
  import opened Placement
  import Compiler
  import RealMachine

  /** A run of the reference semantics that meets none of the places where the back ends part
      is what the machine does, step by step or for ever, unless it trips over a box. */
  lemma Reference(code: seq<Instr>, b: Stmts, sc: Scopes, next: nat, w: World, st: State, m: Marks, fuel: nat)
    returns (n: nat)
    requires Correct.Entered(code, b, sc, next, w, st) && !BlockParts(b, w, fuel)
    ensures
      (forall k: nat :: k < n ==> !Trips(code, st, m, k)) ==>
        var o := ExecBlock(Evaluator, b, w, fuel);
        var r := RunBoxed(code, Going(st, m), n);
        if o.Timeout? then n >= fuel && r.Going? else Agrees(Erase(r), o, sc, st)
  {
    hide RunBoxed, Trips, Correct.Entered, ExecBlock, BlockParts, Correct.Agrees;
    Agreement.Block(b, w, fuel);
    n := RealMachine.Forward(code, b, sc, next, w, st, m, fuel);
  }

  /** The code does what the evaluator does with b: from every start from which it does not
      trip over a box the machine stops if and only if the evaluator comes to an end, and then
      with the same result. */
  ghost predicate Faithful(code: seq<Instr>, pc: int, b: Stmts, sc: Scopes) {
    forall w: World, st: State, m: Marks ::
      Begins(w, st, pc, sc) && Smooth(code, st, m) ==> Matches(code, b, sc, w, st, m)
  }

  /** The machine stands at pc, with no handler of its callers, and holds what w says. */
  ghost predicate Begins(w: World, st: State, pc: int, sc: Scopes) {
    st.pc == pc && Rel(w.env, sc, st.mem) && st.trace == w.trace && st.pend == w.pend && st.handlers == []
  }

  ghost predicate Matches(code: seq<Instr>, b: Stmts, sc: Scopes, w: World, st: State, m: Marks) {
    && (RealMachine.Ends(code, st, m) <==> Terminates(Evaluator, b, w))
    && (forall n: nat, fuel: nat ::
          RunBoxed(code, Going(st, m), n).Over? && !ExecBlock(Evaluator, b, w, fuel).Timeout? ==>
            Agrees(Erase(RunBoxed(code, Going(st, m), n)), ExecBlock(Evaluator, b, w, fuel), sc, st))
  }

  lemma ScopeBound(env: Env, sc: Scopes, mem: map<Ref, Value>)
    requires Rel(env, sc, mem)
    ensures Bound(ScopeNames(sc), env)
  {
    forall x | x in ScopeNames(sc) ensures Find(env, x) >= 0 {
      var i :| 0 <= i < |sc| && x in sc[i];
      assert x in env[i];
    }
  }

  lemma TameFaithful(code: seq<Instr>, pc: int, b: Stmts, sc: Scopes, next: nat)
    requires |sc| > 0 && Laid(sc, next) && LayBlock(b, Ctx(sc, next, Bottom, [])).ok
    requires At(code, pc, CodeFunction(b, sc, next, pc))
    requires TameBlock(b, ScopeNames(sc))
    ensures Faithful(code, pc, b, sc)
  {
    hide RunBoxed, Smooth, ExecBlock, Correct.Agrees, Rel, At, Laid, LayBlock, CodeFunction, TameBlock;
    forall w: World, st: State, m: Marks | Begins(w, st, pc, sc) && Smooth(code, st, m)
      ensures Matches(code, b, sc, w, st, m)
    {
      MatchesOne(code, b, sc, next, w, st, m);
    }
  }

  lemma MatchesOne(code: seq<Instr>, b: Stmts, sc: Scopes, next: nat, w: World, st: State, m: Marks)
    requires Correct.Entered(code, b, sc, next, w, st) && st.handlers == [] && TameBlock(b, ScopeNames(sc))
        && Smooth(code, st, m)
    ensures Matches(code, b, sc, w, st, m)
  {
    hide RunBoxed, Smooth, ExecBlock, Correct.Agrees, TameBlock, Terminates, RealMachine.Ends, Bound, ScopeNames, Rel;
    RealMachine.Adequate(code, b, sc, next, w, st, m);
    ScopeBound(w.env, sc, st.mem);
    SameEnds(b, ScopeNames(sc), w);
    forall n: nat, fuel: nat | RunBoxed(code, Going(st, m), n).Over? && !ExecBlock(Evaluator, b, w, fuel).Timeout?
      ensures Agrees(Erase(RunBoxed(code, Going(st, m), n)), ExecBlock(Evaluator, b, w, fuel), sc, st)
    {
      Tame.Agree(b, ScopeNames(sc), w, fuel);
    }
  }

  lemma SameEnds(b: Stmts, names: set<string>, w: World)
    requires TameBlock(b, names) && Bound(names, w.env)
    ensures Terminates(Evaluator, b, w) <==> Terminates(Compiled, b, w)
  {
    hide ExecBlock, TameBlock, Bound;
    if fuel: nat :| !ExecBlock(Compiled, b, w, fuel).Timeout? {
      Tame.Agree(b, names, w, fuel);
      assert !ExecBlock(Evaluator, b, w, fuel).Timeout?;
    }
    if fuel: nat :| !ExecBlock(Evaluator, b, w, fuel).Timeout? {
      Tame.Agree(b, names, w, fuel);
      assert !ExecBlock(Compiled, b, w, fuel).Timeout?;
    }
  }

  /** Nothing the code does can trip over a box. */
  ghost predicate NeverTrips(code: seq<Instr>) { forall st: State, m: Marks :: Smooth(code, st, m) }

  /** The main result: a function body that the compiler accepts and that is tame compiles to
      code that does what the evaluator does with it, unless it trips over a box, which code
      without a fused branch on a remainder never does; and tame or not, the code is
      balanced. */
  method CompileBody(body: Stmts, sc: Scopes, slots: nat) returns (ok: bool, code: seq<Instr>)
    requires |sc| > 0 && Laid(sc, slots)
    ensures ok == Placed(body, ScopeNames(sc), false)
    ensures ok == LayBlock(body, Ctx(sc, slots, Bottom, [])).ok
    ensures ok ==> Balanced(code)
    ensures ok && (TameBlock(body, ScopeNames(sc)) || Unmixed(body)) ==> Faithful(code, 0, body, sc)
    ensures ok && NoModJump(code) ==> NeverTrips(code)
  {
    hide Faithful, LayBlock, CodeFunction, TameBlock, Laid, Balanced, Smooth, NoModJump, Placed, ScopeNames, Unmixed;
    var c := new Compiler.Compiler(sc, slots);
    ok := c.CompileFunction(body, []);
    code := c.instructions;
    if ok {
      assert code == CodeFunction(body, sc, slots, 0);
      Whole(code);
      FunctionBalanced(code, body, sc, slots);
      if Unmixed(body) { UnmixedIsTame(body, ScopeNames(sc)); }
      if TameBlock(body, ScopeNames(sc)) { TameFaithful(code, 0, body, sc, slots); }
      if NoModJump(code) {
        forall st: State, m: Marks ensures Smooth(code, st, m) { NoModSmooth(code, st, m); }
      }
    }
  }

  lemma Whole(code: seq<Instr>)
    ensures At(code, 0, code)
  {}

  /** On the machine, a function that has stopped without tripping has exited every
      with-resource it entered, innermost first and once each, also when it stops on an error;
      a tame one has closed every iterator it opened as well. */
  lemma GivesBack(code: seq<Instr>, b: Stmts, sc: Scopes, next: nat, w: World, st: State, m: Marks, n: nat)
    requires Correct.Entered(code, b, sc, next, w, st) && st.handlers == []
    requires RunBoxed(code, Going(st, m), n).Over? && forall k: nat :: k < n ==> !Trips(code, st, m, k)
    ensures
      var c := Erase(RunBoxed(code, Going(st, m), n));
      && (c.Returned? || c.Uncaught?) && Replay(c.st.trace, false) == Replay(st.trace, false)
      && (TameBlock(b, ScopeNames(sc)) ==> Replay(c.st.trace, true) == Replay(st.trace, true))
  {
    hide Run, RunBoxed, Trips, ExecBlock, TameBlock, Replay, Bound, ScopeNames, Rel, Laid, LayBlock, At;
    Erased(code, st, m, n);
    RealMachine.EndsTogether(code, st, m, n);
    Backward(code, b, sc, next, w, st, n);
    var o := ExecBlock(Compiled, b, w, n + 1);
    Stops(Run(code, Running(st), n), o, sc, st);
    EndsWith(Run(code, Running(st), n), b, w, n + 1, sc, next, code, st);
    Nesting.Block(Compiled, false, b, w, n + 1);
    if TameBlock(b, ScopeNames(sc)) {
      ScopeBound(w.env, sc, st.mem);
      Tame.Agree(b, ScopeNames(sc), w, n + 1);
      Nesting.Block(Evaluator, true, b, w, n + 1);
    }
  }

  lemma EndsWith(c: Config, b: Stmts, w: World, fuel: nat, sc: Scopes, next: nat, code: seq<Instr>, st: State)
    requires Correct.Entered(code, b, sc, next, w, st) && st.handlers == []
    requires Agrees(c, ExecBlock(Compiled, b, w, fuel), sc, st)
    ensures (c.Returned? || c.Uncaught?) && c.st.trace == ExecBlock(Compiled, b, w, fuel).w.trace && st.trace == w.trace
  {
    hide ExecBlock;
  }

  // ----- balance, for the code in the compiler's buffer

  /** The points of the code have levels, and every run keeps to them, tripping or not. */
  ghost predicate Balanced(code: seq<Instr>) {
    exists a: seq<Level> :: |a| == |code| && forall st: State, m: Marks, n: nat ::
        st.pc == 0 && st.handlers == [] ==> Levels.Kept(Erase(RunBoxed(code, Going(st, m), n)), a, 0, |st.stack|)
  }

  lemma FunctionBalanced(code: seq<Instr>, b: Stmts, sc: Scopes, next: nat)
    requires LayBlock(b, Ctx(sc, next, Bottom, [])).ok && code == CodeFunction(b, sc, next, 0)
    ensures Balanced(code)
  {
    hide RunBoxed, LayBlock, CodeFunction, Levels.Kept, Fits;
    Whole(code);
    var a := FunctionLevelled(code, b, sc, next, 0);
    forall st: State, m: Marks, n: nat | st.pc == 0 && st.handlers == []
      ensures Levels.Kept(Erase(RunBoxed(code, Going(st, m), n)), a, 0, |st.stack|)
    {
      RealMachine.DepthOfPoint(code, code, a, 0, st, m, n);
    }
    SameLength(code, a);
  }

  lemma SameLength(code: seq<Instr>, a: seq<Level>)
    requires Levelled(code, code, a, 0)
    ensures |a| == |code|
  {}
}
