/** The code of an expression computes its value: operand stack, slots, handlers and
    output end as direct evaluation says, and a fault is raised exactly where it says. */
module ExprCorrect {
  import opened Syntax
  import opened Machine
  import opened Folding
  import opened ExprGen
  import opened Shapes
  import opened Semantics
  import opened Relation

  /** The two states differ at most in position, operands, slots and the pending error. */
  ghost predicate SameRest(st: State, t: State) { t.handlers == st.handlers && t.trace == st.trace }

  /** The machine t, reached from st, has done what r says; a value is pushed. */
  ghost predicate Does(code: seq<Instr>, st: State, n: nat, t: State, end: int, r: ExprResult, sc: Scopes, next: nat) {
    && SameRest(st, t)
    && n >= 1
    && Rel(r.env, sc, t.mem)
    && Keeps(st.mem, t.mem, sc, next)
    && (match r
        case Yields(v, _) =>
          Run(code, Running(st), n) == Running(t) && t.pc == end && t.stack == st.stack + [v] && t.pend == st.pend
        case Fails(err, _) =>
          Run(code, Running(st), n) == Unwind(t) && st.stack <= t.stack && t.pend == Some(err))
  }

  /** As Does, for a condition: nothing is pushed, and a false one ends at `no`. */
  ghost predicate Tests(code: seq<Instr>, st: State, n: nat, t: State, end: int, no: int, r: ExprResult, sc: Scopes,
          next: nat) {
    && SameRest(st, t)
    && n >= 1
    && Rel(r.env, sc, t.mem)
    && Keeps(st.mem, t.mem, sc, next)
    && (match r
        case Yields(v, _) =>
          Run(code, Running(st), n) == Running(t) && t.pc == (if v == Bool(true) then end else no) &&
          t.stack == st.stack && t.pend == st.pend
        case Fails(err, _) =>
          Run(code, Running(st), n) == Unwind(t) && st.stack <= t.stack && t.pend == Some(err))
  }

  /** Does for an expression that is the start of a longer one: glue the rest on. */
  lemma Then(code: seq<Instr>, st: State, m: nat, s1: State, n: nat, c: Config)
    requires Run(code, Running(st), m) == Running(s1) && Run(code, Running(s1), n) == c
    ensures Run(code, Running(st), m + n) == c
  {
    RunTrans(code, Running(st), m, n);
  }

  /** Run the single instruction i, which stands at s1, after the m steps that led there. */
  lemma After(code: seq<Instr>, st: State, m: nat, s1: State, i: Instr)
    requires Run(code, Running(st), m) == Running(s1) && At(code, s1.pc, [i])
    ensures Run(code, Running(st), m + 1) == Exec(i, s1)
  {
    hide Run, Rel, Keeps, Laid, At;
    One(code, s1, i);
    RunTrans(code, Running(st), m, 1);
  }

  lemma StepConst(code: seq<Instr>, st: State, m: nat, s1: State, v: Value)
    requires Run(code, Running(st), m) == Running(s1) && At(code, s1.pc, [Const(v)])
    ensures Run(code, Running(st), m + 1) == Running(s1.(pc := s1.pc + 1, stack := s1.stack + [v]))
  {
    hide Run, At;
    After(code, st, m, s1, Const(v));
    assert s1.stack[..|s1.stack| - 0] == s1.stack;
  }

  lemma StepJump(code: seq<Instr>, st: State, m: nat, s1: State, target: int)
    requires Run(code, Running(st), m) == Running(s1) && At(code, s1.pc, [Jump(target)])
    ensures Run(code, Running(st), m + 1) == Running(s1.(pc := target))
  {
    hide Run, At;
    After(code, st, m, s1, Jump(target));
  }

  lemma StepGet(code: seq<Instr>, st: State, m: nat, s1: State, ref: Ref)
    requires Run(code, Running(st), m) == Running(s1) && At(code, s1.pc, [Get(ref)]) && ref in s1.mem
    ensures Run(code, Running(st), m + 1) == Running(s1.(pc := s1.pc + 1, stack := s1.stack + [s1.mem[ref]]))
  {
    hide Run, At;
    After(code, st, m, s1, Get(ref));
    assert s1.stack[..|s1.stack| - 0] == s1.stack;
  }

  lemma StepDefine(code: seq<Instr>, st: State, m: nat, s1: State, ref: Ref, stack: seq<Value>, v: Value)
    requires Run(code, Running(st), m) == Running(s1) && At(code, s1.pc, [Define(ref)]) && s1.stack == stack + [v]
    ensures Run(code, Running(st), m + 1) == Running(s1.(pc := s1.pc + 1, stack := stack, mem := s1.mem[ref := v]))
  {
    hide Run, At;
    After(code, st, m, s1, Define(ref));
    assert s1.stack[..|s1.stack| - 1] == stack;
  }

  lemma StepPop(code: seq<Instr>, st: State, m: nat, s1: State, stack: seq<Value>, v: Value)
    requires Run(code, Running(st), m) == Running(s1) && At(code, s1.pc, [Instr.Pop]) && s1.stack == stack + [v]
    ensures Run(code, Running(st), m + 1) == Running(s1.(pc := s1.pc + 1, stack := stack))
  {
    hide Run, At;
    After(code, st, m, s1, Instr.Pop);
    assert s1.stack[..|s1.stack| - 1] == stack;
  }

  lemma StepDup(code: seq<Instr>, st: State, m: nat, s1: State, stack: seq<Value>, v: Value)
    requires Run(code, Running(st), m) == Running(s1) && At(code, s1.pc, [Dup]) && s1.stack == stack + [v]
    ensures Run(code, Running(st), m + 1) == Running(s1.(pc := s1.pc + 1, stack := stack + [v, v]))
  {
    hide Run, At;
    After(code, st, m, s1, Dup);
    assert s1.stack[..|s1.stack| - 0] == s1.stack;
  }

  lemma StepSet(code: seq<Instr>, st: State, m: nat, s1: State, ref: Ref, stack: seq<Value>, v: Value)
    requires Run(code, Running(st), m) == Running(s1) && At(code, s1.pc, [Set(ref)]) && s1.stack == stack + [v]
    ensures Run(code, Running(st), m + 1) == Running(s1.(pc := s1.pc + 1, mem := s1.mem[ref := v]))
  {
    hide Run, At;
    After(code, st, m, s1, Set(ref));
  }

  lemma {:induction false} EvalSim(code: seq<Instr>, e: Expr, sc: Scopes, next: nat, env: Env, st: State)
    returns (n: nat, t: State)
    requires OkE(e, sc) && Laid(sc, next) && Rel(env, sc, st.mem)
    requires At(code, st.pc, CodeE(e, sc, st.pc))
    ensures Does(code, st, n, t, st.pc + LenE(e, sc), EvalE(Compiled, e, env), sc, next)
    decreases ExprSize(e), 1
  {
    hide Run, Rel, Keeps, Laid, At, CodeE, CodeCond, LenE, LenCond, EvalE, EvalCond;
    match e
    case IntLit(k) => LeafEq(e, sc, st.pc, env); n, t := ConstSim(code, Int(k), sc, next, env, st);
    case Lit(v) => LeafEq(e, sc, st.pc, env); n, t := ConstSim(code, v, sc, next, env, st);
    case Var(x) => n, t := VarSim(code, x, sc, next, env, st);
    case Assign(x, f) =>
      if IsIntVar(sc, x) && SelfForm(x, f, sc).Some? {
        n, t := SelfSim(code, x, f, sc, next, env, st);
      } else {
        n, t := AssignSim(code, x, f, sc, next, env, st);
      }
    case Post(x, inc) => n, t := PostSim(code, x, inc, sc, next, env, st);
    case Un(op, f) => n, t := UnSim(code, op, f, sc, next, env, st);
    case Bin(op, l, r) =>
      if Fold(op, l, r).Some? {
        FoldEq(op, l, r, sc, st.pc, env);
        n, t := FoldedSim(code, Fold(op, l, r).value, sc, next, env, st);
      } else {
        n, t := BinSim(code, op, l, r, sc, next, env, st);
      }
    case And(l, r) => n, t := AndSim(code, l, r, sc, next, env, st);
    case Or(l, r) => n, t := OrSim(code, l, r, sc, next, env, st);
    case Coalesce(l, r) => n, t := CoalesceSim(code, l, r, sc, next, env, st);
    case Ternary(c, a, b) => n, t := TernarySim(code, c, a, b, sc, next, env, st);
  }

  // ----- what the definitions say, one form at a time

  lemma LeafEq(e: Expr, sc: Scopes, pc: int, env: Env)
    requires e.IntLit? || e.Lit?
    ensures var v := if e.IntLit? then Int(e.n) else e.v;
            CodeE(e, sc, pc) == [Const(v)] && LenE(e, sc) == 1 && EvalE(Compiled, e, env) == Yields(v, env)
  {}

  /** A folded operator computes what the operator would have computed. */
  lemma FoldEq(op: BinOp, l: Expr, r: Expr, sc: Scopes, pc: int, env: Env)
    requires Fold(op, l, r).Some?
    ensures var v := Fold(op, l, r).value;
            CodeE(Bin(op, l, r), sc, pc) == [Folded(v)] && LenE(Bin(op, l, r), sc) == 1 &&
            EvalE(Compiled, Bin(op, l, r), env) == Yields(v, env)
  {
    hide FoldIntInt;
    if l.IntLit? && !op.Xor? { FoldExact(op, l.n, r.n); }
    if op.Xor? { XorUnfolded(); }
    assert EvalE(Compiled, l, env) == Yields(if l.IntLit? then Int(l.n) else l.v, env);
    assert EvalE(Compiled, r, env) == Yields(if r.IntLit? then Int(r.n) else r.v, env);
  }

  lemma XorUnfolded()
    ensures forall a, b :: FoldIntInt(Xor, a, b) == None
  {}

  lemma SelfEq(x: string, f: Expr, sc: Scopes, pc: int, env: Env)
    requires IsIntVar(sc, x) && SelfForm(x, f, sc).Some? && OkE(Assign(x, f), sc)
    ensures CodeE(Assign(x, f), sc, pc) == [SelfArith(f.op.Sub?, RefOf(sc, x), SelfForm(x, f, sc).value)]
    ensures LenE(Assign(x, f), sc) == 1
    ensures Resolve(sc, x).Some? && (f.r.Var? ==> Resolve(sc, f.r.x).Some?)
    ensures
      var i := Find(env, x);
      var j := if f.r.Var? then Find(env, f.r.x) else 0;
      i >= 0 && j >= 0 ==>
        var b := if f.r.Var? then env[j][f.r.x] else Int(f.r.n);
        EvalE(Compiled, Assign(x, f), env) ==
          (match EvalBin(f.op, env[i][x], b)
           case None => Fails(FAULT, env)
           case Some(v) => Yields(v, Assigned(env, x, v)))
  {
    assert OkE(f, sc) && OkE(f.r, sc);
    var i := Find(env, x);
    if i >= 0 { assert EvalE(Compiled, f.l, env) == Yields(env[i][x], env); }
    if f.r.Var? && Find(env, f.r.x) >= 0 {
      assert EvalE(Compiled, f.r, env) == Yields(env[Find(env, f.r.x)][f.r.x], env);
    }
    if f.r.IntLit? { assert EvalE(Compiled, f.r, env) == Yields(Int(f.r.n), env); }
  }

  lemma AssignEq(x: string, f: Expr, sc: Scopes, pc: int, env: Env)
    requires !(IsIntVar(sc, x) && SelfForm(x, f, sc).Some?) && OkE(Assign(x, f), sc)
    ensures CodeE(Assign(x, f), sc, pc) == CodeE(f, sc, pc) + [Set(RefOf(sc, x))]
    ensures LenE(Assign(x, f), sc) == LenE(f, sc) + 1 == |CodeE(f, sc, pc)| + 1 && OkE(f, sc) && Resolve(sc, x).Some?
    ensures EvalE(Compiled, Assign(x, f), env) ==
      (match EvalE(Compiled, f, env) case Fails(err, env1) => Fails(err, env1) case Yields(v, env1) =>
          Yields(v, Assigned(env1, x, v)))
  {}

  lemma UnEq(op: UnOp, f: Expr, sc: Scopes, pc: int, env: Env)
    ensures CodeE(Un(op, f), sc, pc) == CodeE(f, sc, pc) + [Unary(op)]
    ensures LenE(Un(op, f), sc) == LenE(f, sc) + 1 == |CodeE(f, sc, pc)| + 1
    ensures EvalE(Compiled, Un(op, f), env) ==
      (match EvalE(Compiled, f, env) case Fails(err, env1) => Fails(err, env1) case Yields(v, env1) =>
          Yield(EvalUn(op, v), env1))
  {}

  lemma BinEq(op: BinOp, l: Expr, r: Expr, sc: Scopes, pc: int, env: Env)
    requires Fold(op, l, r).None?
    ensures
      var oc := OpCode(op, StaticInt(l, sc) && StaticInt(r, sc));
      CodeE(Bin(op, l, r), sc, pc) == CodeE(l, sc, pc) + CodeE(r, sc, pc + LenE(l, sc)) + oc &&
      LenE(Bin(op, l, r), sc) == LenE(l, sc) + LenE(r, sc) + |oc|
    ensures |CodeE(l, sc, pc)| == LenE(l, sc) && |CodeE(r, sc, pc + LenE(l, sc))| == LenE(r, sc)
    ensures EvalE(Compiled, Bin(op, l, r), env) ==
      (match EvalE(Compiled, l, env)
       case Fails(err, env1) => Fails(err, env1)
       case Yields(a, env1) =>
         (match EvalE(Compiled, r, env1)
          case Fails(err, env2) => Fails(err, env2)
          case Yields(b, env2) => Yield(EvalBin(op, a, b), env2)))
  {
    hide CodeE, LenE, CodeCond, LenCond, CodeLogic;
    BinIs(op, l, r, sc, pc);
  }

  lemma CondEq(c: Expr, env: Env)
    ensures EvalCond(Compiled, c, env) ==
      (match EvalE(Compiled, c, env)
       case Fails(err, env1) => Fails(err, env1)
       case Yields(v, env1) => if v.Bool? then Yields(v, env1) else Fails(FAULT, env1))
  {}

  lemma PlainEq(c: Expr, no: int, sc: Scopes, pc: int)
    ensures FuseMod(c, sc).None? && !FusesCompare(c, sc) ==>
              CodeCond(c, sc, pc, no) == CodeE(c, sc, pc) + [JumpIfFalse(no)] && LenCond(c, sc) == LenE(c, sc) + 1
    ensures |CodeE(c, sc, pc)| == LenE(c, sc)
  {}

  lemma CompareEq(c: Expr, no: int, sc: Scopes, pc: int, env: Env)
    requires FuseMod(c, sc).None? && FusesCompare(c, sc) && OkE(c, sc)
    ensures CodeCond(c, sc, pc, no) == CodeE(c.l, sc, pc) + CodeE(c.r, sc, pc + LenE(c.l, sc)) + [JumpUnless(c.op, no)]
    ensures LenCond(c, sc) == LenE(c.l, sc) + LenE(c.r, sc) + 1 && OkE(c.l, sc) && OkE(c.r, sc)
    ensures |CodeE(c.l, sc, pc)| == LenE(c.l, sc) && |CodeE(c.r, sc, pc + LenE(c.l, sc))| == LenE(c.r, sc)
    ensures ExprSize(c) == ExprSize(c.l) + ExprSize(c.r) + 1
    ensures EvalCond(Compiled, c, env) ==
      (match EvalE(Compiled, c.l, env)
       case Fails(err, env1) => Fails(err, env1)
       case Yields(a, env1) =>
         (match EvalE(Compiled, c.r, env1)
          case Fails(err, env2) => Fails(err, env2)
          case Yields(b, env2) => Yield(EvalBin(c.op, a, b), env2)))
  {
    assert c == Bin(c.op, c.l, c.r);
  }

  lemma AndEq(l: Expr, r: Expr, sc: Scopes, pc: int, env: Env)
    ensures
      var rpc := pc + LenE(l, sc) + 1;
      var no := rpc + LenE(r, sc) + 3;
      CodeE(And(l, r), sc, pc) == CodeE(l, sc, pc) + [JumpIfFalse(no)] + CodeE(r, sc, rpc) +
        [JumpIfFalse(no), Const(Bool(true)), Jump(no + 1), Const(Bool(false))]
      && |CodeE(l, sc, pc)| == LenE(l, sc) && |CodeE(r, sc, rpc)| == LenE(r, sc)
      && LenE(And(l, r), sc) == no + 1 - pc
    ensures EvalE(Compiled, And(l, r), env) ==
      (match EvalCond(Compiled, l, env)
       case Fails(err, env1) => Fails(err, env1)
       case Yields(a, env1) => if a == Bool(true) then EvalCond(Compiled, r, env1) else Yields(a, env1))
  {
    hide CodeE, LenE, CodeCond, LenCond, CodeLogic;
    AndIs(l, r, sc, pc);
  }

  lemma OrEq(l: Expr, r: Expr, sc: Scopes, pc: int, env: Env)
    ensures
      var rpc := pc + LenE(l, sc) + 3;
      var no := rpc + LenE(r, sc) + 3;
      CodeE(Or(l, r), sc, pc) == CodeE(l, sc, pc) + [JumpIfFalse(rpc), Const(Bool(true)), Jump(no + 1)]
          + CodeE(r, sc, rpc) +
        [JumpIfFalse(no), Const(Bool(true)), Jump(no + 1), Const(Bool(false))]
      && |CodeE(l, sc, pc)| == LenE(l, sc) && |CodeE(r, sc, rpc)| == LenE(r, sc)
      && LenE(Or(l, r), sc) == no + 1 - pc
    ensures EvalE(Compiled, Or(l, r), env) ==
      (match EvalCond(Compiled, l, env)
       case Fails(err, env1) => Fails(err, env1)
       case Yields(a, env1) => if a == Bool(true) then Yields(a, env1) else EvalCond(Compiled, r, env1))
  {
    hide CodeE, LenE, CodeCond, LenCond, CodeLogic;
    OrIs(l, r, sc, pc);
  }

  lemma CoalesceEq(l: Expr, r: Expr, sc: Scopes, pc: int, env: Env)
    ensures
      var rpc := pc + LenE(l, sc) + 1;
      CodeE(Coalesce(l, r), sc, pc) == CodeE(l, sc, pc) + [NullCoalesce(rpc + LenE(r, sc))] + CodeE(r, sc, rpc)
      && |CodeE(l, sc, pc)| == LenE(l, sc) && |CodeE(r, sc, rpc)| == LenE(r, sc)
      && LenE(Coalesce(l, r), sc) == LenE(l, sc) + 1 + LenE(r, sc)
    ensures EvalE(Compiled, Coalesce(l, r), env) ==
      (match EvalE(Compiled, l, env)
       case Fails(err, env1) => Fails(err, env1)
       case Yields(a, env1) => if a == Null then EvalE(Compiled, r, env1) else Yields(a, env1))
  {
    hide CodeE, LenE, CodeCond, LenCond, CodeLogic;
    CoalesceIs(l, r, sc, pc);
  }

  lemma TernaryEq(c: Expr, a: Expr, b: Expr, sc: Scopes, pc: int, env: Env)
    ensures
      var tpc := pc + LenCond(c, sc);
      var fpc := tpc + LenE(a, sc) + 1;
      CodeE(Ternary(c, a, b), sc, pc) ==
        CodeCond(c, sc, pc, fpc) + CodeE(a, sc, tpc) + [Jump(fpc + LenE(b, sc))] + CodeE(b, sc, fpc)
      && |CodeCond(c, sc, pc, fpc)| == LenCond(c, sc) && |CodeE(a, sc, tpc)| == LenE(a, sc)
          && |CodeE(b, sc, fpc)| == LenE(b, sc)
      && LenE(Ternary(c, a, b), sc) == LenCond(c, sc) + LenE(a, sc) + 1 + LenE(b, sc)
    ensures EvalE(Compiled, Ternary(c, a, b), env) ==
      (match EvalCond(Compiled, c, env)
       case Fails(err, env1) => Fails(err, env1)
       case Yields(v, env1) => EvalE(Compiled, if v == Bool(true) then a else b, env1))
  {
    hide CodeE, LenE, CodeCond, LenCond, CodeLogic;
    TernaryIs(c, a, b, sc, pc);
  }

  // ----- one form at a time

  lemma ConstSim(code: seq<Instr>, v: Value, sc: Scopes, next: nat, env: Env, st: State)
    returns (n: nat, t: State)
    requires Rel(env, sc, st.mem) && At(code, st.pc, [Const(v)])
    ensures Does(code, st, n, t, st.pc + 1, Yields(v, env), sc, next)
  {
    hide Run, Rel, Keeps, Laid, At;
    One(code, st, Const(v));
    KeepsSame(st.mem, sc, next);
    n, t := 1, st.(pc := st.pc + 1, stack := st.stack + [v]);
  }

  lemma FoldedSim(code: seq<Instr>, v: Value, sc: Scopes, next: nat, env: Env, st: State)
    returns (n: nat, t: State)
    requires Rel(env, sc, st.mem) && At(code, st.pc, [Folded(v)])
    ensures Does(code, st, n, t, st.pc + 1, Yields(v, env), sc, next)
  {
    hide Run, Rel, Keeps, Laid, At;
    One(code, st, Folded(v));
    KeepsSame(st.mem, sc, next);
    n, t := 1, st.(pc := st.pc + 1, stack := st.stack + [v]);
  }

  lemma VarSim(code: seq<Instr>, x: string, sc: Scopes, next: nat, env: Env, st: State)
    returns (n: nat, t: State)
    requires OkE(Var(x), sc) && Rel(env, sc, st.mem) && At(code, st.pc, CodeE(Var(x), sc, st.pc))
    ensures Does(code, st, n, t, st.pc + LenE(Var(x), sc), EvalE(Compiled, Var(x), env), sc, next)
  {
    hide Run, Rel, Keeps, Laid, At;
    Read(env, sc, st.mem, x);
    One(code, st, Get(RefOf(sc, x)));
    KeepsSame(st.mem, sc, next);
    n, t := 1, st.(pc := st.pc + 1, stack := st.stack + [st.mem[RefOf(sc, x)]]);
  }

  lemma SelfSim(code: seq<Instr>, x: string, f: Expr, sc: Scopes, next: nat, env: Env, st: State)
    returns (n: nat, t: State)
    requires OkE(Assign(x, f), sc) && Laid(sc, next) && Rel(env, sc, st.mem)
    requires IsIntVar(sc, x) && SelfForm(x, f, sc).Some?
    requires At(code, st.pc, CodeE(Assign(x, f), sc, st.pc))
    ensures Does(code, st, n, t, st.pc + LenE(Assign(x, f), sc), EvalE(Compiled, Assign(x, f), env), sc, next)
  {
    hide Run, Rel, Keeps, Laid, At, CodeE, CodeCond, LenE, LenCond, EvalE, EvalCond, OkE, Exec, EvalBin, Unwind,
        SelfForm;
    SelfEq(x, f, sc, st.pc, env);
    var rhs := SelfForm(x, f, sc).value;
    SelfParts(x, f, sc);
    var ref := RefOf(sc, x);
    Read(env, sc, st.mem, x);
    if f.r.Var? { Read(env, sc, st.mem, f.r.x); }
    var b := if rhs.Slot? then st.mem[rhs.ref] else Int(rhs.n);
    SelfStep(code, f.op, ref, rhs, st, st.mem[ref], b);
    var r := EvalBin(f.op, st.mem[ref], b);
    KeepsSame(st.mem, sc, next);
    n := 1;
    if r.None? {
      t := st.(pend := Some(FAULT));
    } else {
      Write(env, sc, st.mem, next, x, r.value);
      t := Store(st, ref, r.value).(pc := st.pc + 1, stack := st.stack + [r.value]);
    }
  }

  lemma SelfParts(x: string, f: Expr, sc: Scopes)
    requires SelfForm(x, f, sc).Some?
    ensures f.Bin? && (f.op.Add? || f.op.Sub?) && f.l == Var(x)
    ensures if f.r.Var? then SelfForm(x, f, sc) == Some(Slot(RefOf(sc, f.r.x)))
        else f.r.IntLit? && SelfForm(x, f, sc) == Some(Imm(f.r.n))
  {}

  /** A fused self-update computes and stores what the operator computes. */
  lemma SelfStep(code: seq<Instr>, op: BinOp, ref: Ref, rhs: Rhs, st: State, a: Value, b: Value)
    requires (op.Add? || op.Sub?) && At(code, st.pc, [SelfArith(op.Sub?, ref, rhs)])
    requires ref in st.mem && st.mem[ref] == a
    requires if rhs.Slot? then rhs.ref in st.mem && st.mem[rhs.ref] == b else b == Int(rhs.n)
    ensures
      var r := EvalBin(op, a, b);
      Run(code, Running(st), 1) ==
        if r.None? then Unwind(st.(pend := Some(FAULT)))
        else Running(Store(st, ref, r.value).(pc := st.pc + 1, stack := st.stack + [r.value]))
  {
    hide Run, At, Unwind;
    One(code, st, SelfArith(op.Sub?, ref, rhs));
    assert SelfResult(op.Sub?, a, b) == EvalBin(op, a, b);
    assert st.stack[..|st.stack| - 0] == st.stack;
  }

  lemma {:induction false} AssignSim(code: seq<Instr>, x: string, f: Expr, sc: Scopes, next: nat, env: Env, st: State)
    returns (n: nat, t: State)
    requires OkE(Assign(x, f), sc) && Laid(sc, next) && Rel(env, sc, st.mem)
    requires !(IsIntVar(sc, x) && SelfForm(x, f, sc).Some?)
    requires At(code, st.pc, CodeE(Assign(x, f), sc, st.pc))
    ensures Does(code, st, n, t, st.pc + LenE(Assign(x, f), sc), EvalE(Compiled, Assign(x, f), env), sc, next)
    decreases ExprSize(f) + 1, 0
  {
    hide Run, Rel, Keeps, Laid, At, CodeE, CodeCond, LenE, LenCond, EvalE, EvalCond, OkE;
    AssignEq(x, f, sc, st.pc, env);
    AtSplit(code, st.pc, CodeE(f, sc, st.pc), [Set(RefOf(sc, x))]);
    n, t := EvalSim(code, f, sc, next, env, st);
    var r := EvalE(Compiled, f, env);
    if r.Yields? {
      After(code, st, n, t, Set(RefOf(sc, x)));
      Write(r.env, sc, t.mem, next, x, r.v);
      KeepsTrans(st.mem, t.mem, t.mem[RefOf(sc, x) := r.v], sc, next);
      n, t := n + 1, Store(t, RefOf(sc, x), r.v).(pc := t.pc + 1);
    }
  }

  lemma PostEq(x: string, inc: bool, sc: Scopes, pc: int, env: Env)
    requires OkE(Post(x, inc), sc)
    ensures Resolve(sc, x).Some?
    ensures CodeE(Post(x, inc), sc, pc) ==
      if IsIntVar(sc, x) then [Step(if inc then 1 else -1, RefOf(sc, x))]
      else [Get(RefOf(sc, x)), Dup, Const(Int(1)), Generic(if inc then Add else Sub), Set(RefOf(sc, x)), Pop]
    ensures LenE(Post(x, inc), sc) == if IsIntVar(sc, x) then 1 else 6
    ensures
      var i := Find(env, x);
      EvalE(Compiled, Post(x, inc), env) ==
        if i < 0 || !env[i][x].Int? then Fails(FAULT, env)
        else Yields(env[i][x], Assigned(env, x, Int(env[i][x].n + (if inc then 1 else -1))))
  {}

  lemma PostExec(delta: int, ref: Ref, st: State)
    requires ref in st.mem
    ensures
      var was := st.mem[ref];
      Exec(Step(delta, ref), st) ==
        if was.Int? then Running(Store(st, ref, Int(was.n + delta)).(pc := st.pc + 1, stack := st.stack + [was]))
        else Unwind(st.(pend := Some(FAULT)))
  {
    hide EvalBin, EvalIntBin, EvalUn, RangeIter, EachIter, Matches, Unwind;
    assert st.stack[..|st.stack| - 0] == st.stack;
  }

  lemma PostStep(code: seq<Instr>, delta: int, ref: Ref, st: State)
    requires At(code, st.pc, [Step(delta, ref)]) && ref in st.mem
    ensures
      var was := st.mem[ref];
      Run(code, Running(st), 1) ==
        if was.Int? then Running(Store(st, ref, Int(was.n + delta)).(pc := st.pc + 1, stack := st.stack + [was]))
        else Unwind(st.(pend := Some(FAULT)))
  {
    hide Run, At, Unwind, Exec;
    One(code, st, Step(delta, ref));
    PostExec(delta, ref, st);
  }

  lemma PostSim(code: seq<Instr>, x: string, inc: bool, sc: Scopes, next: nat, env: Env, st: State)
    returns (n: nat, t: State)
    requires OkE(Post(x, inc), sc) && Laid(sc, next) && Rel(env, sc, st.mem)
    requires At(code, st.pc, CodeE(Post(x, inc), sc, st.pc))
    ensures Does(code, st, n, t, st.pc + LenE(Post(x, inc), sc), EvalE(Compiled, Post(x, inc), env), sc, next)
  {
    hide Run, Rel, Keeps, Laid, At, Exec, Unwind, CodeE, LenE, EvalE, OkE;
    PostEq(x, inc, sc, st.pc, env);
    Read(env, sc, st.mem, x);
    var ref := RefOf(sc, x);
    var was := st.mem[ref];
    KeepsSame(st.mem, sc, next);
    var delta := if inc then 1 else -1;
    if was.Int? { Write(env, sc, st.mem, next, x, Int(was.n + delta)); }
    if IsIntVar(sc, x) {
      PostStep(code, delta, ref, st);
      n := 1;
      if was.Int? {
        t := Store(st, ref, Int(was.n + delta)).(pc := st.pc + 1, stack := st.stack + [was]);
      } else {
        t := st.(pend := Some(FAULT));
      }
    } else {
      n, t := LongPostSim(code, ref, inc, st);
    }
  }

  /** x++ on a variable that is not declared int: six opcodes. */
  lemma LongPostSim(code: seq<Instr>, ref: Ref, inc: bool, st: State) returns (n: nat, t: State)
    requires ref in st.mem
    requires At(code, st.pc, [Get(ref), Dup, Const(Int(1)), Generic(if inc then Add else Sub), Set(ref), Pop])
    ensures n >= 1
    ensures var was := st.mem[ref];
      if was.Int? then
        Run(code, Running(st), n) == Running(t) &&
        t == Store(st, ref, Int(was.n + (if inc then 1 else -1))).(pc := st.pc + 6, stack := st.stack + [was])
      else Run(code, Running(st), n) == Unwind(t) && t == st.(pc := t.pc, stack := t.stack, pend :=
          Some(FAULT)) && st.stack <= t.stack
  {
    hide Run, Rel, Keeps, Laid, At, Exec, Unwind;
    var op := if inc then Add else Sub;
    var ops := [Get(ref), Dup, Const(Int(1)), Generic(op), Set(ref), Pop];
    AtSix(code, st.pc, ops);
    var was := st.mem[ref];
    ZeroSteps(code, st);
    StepGet(code, st, 0, st, ref);
    StepDup(code, st, 1, st.(pc := st.pc + 1, stack := st.stack + [was]), st.stack, was);
    var s2 := st.(pc := st.pc + 2, stack := st.stack + [was, was]);
    StepConst(code, st, 2, s2, Int(1));
    var stack := st.stack + [was];
    var s3 := s2.(pc := st.pc + 3, stack := stack + [was, Int(1)]);
    assert s2.stack + [Int(1)] == s3.stack;
    OperatorStep(code, op, ops[3], s3, stack, was, Int(1));
    Then(code, st, 3, s3, 1, Run(code, Running(s3), 1));
    if !was.Int? {
      n, t := 4, s3.(pend := Some(FAULT));
    } else {
      var v := Int(was.n + (if inc then 1 else -1));
      var s4 := s3.(pc := st.pc + 4, stack := stack + [v]);
      StepSet(code, st, 4, s4, ref, stack, v);
      var s5 := s4.(pc := st.pc + 5, mem := s4.mem[ref := v]);
      StepPop(code, st, 5, s5, stack, v);
      n, t := 6, s5.(pc := st.pc + 6, stack := stack);
    }
  }

  lemma ZeroSteps(code: seq<Instr>, st: State)
    ensures Run(code, Running(st), 0) == Running(st)
  {}

  lemma {:induction false} UnSim(code: seq<Instr>, op: UnOp, f: Expr, sc: Scopes, next: nat, env: Env, st: State)
    returns (n: nat, t: State)
    requires OkE(f, sc) && Laid(sc, next) && Rel(env, sc, st.mem)
    requires At(code, st.pc, CodeE(Un(op, f), sc, st.pc))
    ensures Does(code, st, n, t, st.pc + LenE(Un(op, f), sc), EvalE(Compiled, Un(op, f), env), sc, next)
    decreases ExprSize(f) + 1, 0
  {
    hide Run, Rel, Keeps, Laid, At, CodeE, CodeCond, LenE, LenCond, EvalE, EvalCond, OkE;
    UnEq(op, f, sc, st.pc, env);
    AtSplit(code, st.pc, CodeE(f, sc, st.pc), [Unary(op)]);
    n, t := EvalSim(code, f, sc, next, env, st);
    var r := EvalE(Compiled, f, env);
    if r.Yields? {
      After(code, st, n, t, Unary(op));
      var v := EvalUn(op, r.v);
      assert t.stack[..|t.stack| - 1] == st.stack;
      n := n + 1;
      t := if v.None? then t.(pend := Some(FAULT)) else t.(pc := t.pc + 1, stack := st.stack + [v.value]);
    }
  }

  /** Both operands, one after the other. */
  lemma {:induction false} OperandsSim(code: seq<Instr>, l: Expr, r: Expr, sc: Scopes, next: nat, env: Env, st: State)
    returns (n: nat, t: State)
    requires OkE(l, sc) && OkE(r, sc) && Laid(sc, next) && Rel(env, sc, st.mem)
    requires At(code, st.pc, CodeE(l, sc, st.pc)) && At(code, st.pc + LenE(l, sc), CodeE(r, sc, st.pc + LenE(l, sc)))
    ensures n >= 1 && SameRest(st, t) && Keeps(st.mem, t.mem, sc, next)
    ensures
      var a := EvalE(Compiled, l, env);
      if a.Fails? then Does(code, st, n, t, 0, a, sc, next)
      else
        var b := EvalE(Compiled, r, a.env);
        if b.Fails? then Does(code, st, n, t, 0, b, sc, next)
        else
          Run(code, Running(st), n) == Running(t) && t.pc == st.pc + LenE(l, sc) + LenE(r, sc) &&
          t.stack == st.stack + [a.v, b.v] && t.pend == st.pend && Rel(b.env, sc, t.mem)
    decreases ExprSize(l) + ExprSize(r), 2
  {
    hide Run, Rel, Keeps, Laid, At, CodeE, CodeCond, LenE, LenCond, EvalE, EvalCond, OkE;
    n, t := EvalSim(code, l, sc, next, env, st);
    var a := EvalE(Compiled, l, env);
    if a.Yields? {
      var m, s1 := n, t;
      n, t := EvalSim(code, r, sc, next, a.env, s1);
      Then(code, st, m, s1, n, Run(code, Running(s1), n));
      n := m + n;
      KeepsTrans(st.mem, s1.mem, t.mem, sc, next);
    }
  }

  lemma BinPieces(code: seq<Instr>, pc: int, lc: seq<Instr>, rc: seq<Instr>, oc: seq<Instr>)
    requires At(code, pc, lc + rc + oc)
    ensures At(code, pc, lc) && At(code, pc + |lc|, rc) && At(code, pc + |lc| + |rc|, oc)
  {
    hide At;
    AtSplit(code, pc, lc + rc, oc);
    AtSplit(code, pc, lc, rc);
  }

  lemma {:induction false} BinSim(code: seq<Instr>, op: BinOp, l: Expr, r: Expr, sc: Scopes, next: nat, env: Env,
          st: State)
    returns (n: nat, t: State)
    requires OkE(l, sc) && OkE(r, sc) && Laid(sc, next) && Rel(env, sc, st.mem)
    requires Fold(op, l, r).None?
    requires At(code, st.pc, CodeE(Bin(op, l, r), sc, st.pc))
    ensures Does(code, st, n, t, st.pc + LenE(Bin(op, l, r), sc), EvalE(Compiled, Bin(op, l, r), env), sc, next)
    decreases ExprSize(l) + ExprSize(r) + 1, 0
  {
    hide Run, Rel, Keeps, Laid, At, CodeE, CodeCond, LenE, LenCond, EvalE, EvalCond, OkE;
    BinEq(op, l, r, sc, st.pc, env);
    var oc := OpCode(op, StaticInt(l, sc) && StaticInt(r, sc));
    BinPieces(code, st.pc, CodeE(l, sc, st.pc), CodeE(r, sc, st.pc + LenE(l, sc)), oc);
    n, t := OperandsSim(code, l, r, sc, next, env, st);
    var a := EvalE(Compiled, l, env);
    if a.Yields? {
      var b := EvalE(Compiled, r, a.env);
      if b.Yields? {
        var m, s1 := n, t;
        assert s1.stack[..|s1.stack| - 2] == st.stack;
        OperatorSim(code, op, oc[0], oc, s1);
        n, t := m + |oc|, s1;
        if EvalBin(op, a.v, b.v).None? {
          n, t := m + 1, s1.(pend := Some(FAULT));
          Then(code, st, m, s1, 1, Unwind(t));
        } else {
          t := s1.(pc := s1.pc + |oc|, stack := st.stack + [EvalBin(op, a.v, b.v).value]);
          Then(code, st, m, s1, |oc|, Running(t));
        }
      }
    }
  }

  /** The int opcodes do what the generic ones do, on any operands. */
  lemma FastPathAgrees(op: BinOp, st: State)
    ensures Exec(IntOp(op), st) == Exec(Generic(op), st)
  {
    hide FloorDiv, FloorMod;
  }

  /** One operator opcode and the operand stack it leaves. */
  lemma OperatorStep(code: seq<Instr>, op: BinOp, i: Instr, st: State, stack: seq<Value>, a: Value, b: Value)
    requires st.stack == stack + [a, b] && (i == Generic(op) || i == IntOp(op)) && At(code, st.pc, [i])
    ensures
      var v := EvalBin(op, a, b);
      Run(code, Running(st), 1) ==
        if v.None? then Unwind(st.(pend := Some(FAULT))) else Running(st.(pc := st.pc + 1, stack := stack + [v.value]))
  {
    hide Run, At, EvalBin, Unwind;
    FastPathAgrees(op, st);
    One(code, st, i);
    assert Exec(i, st) == Exec(Generic(op), st);
    assert st.stack[..|st.stack| - 2] == stack;
  }

  lemma NotStep(code: seq<Instr>, st: State, s1: State, stack: seq<Value>, b: bool)
    requires Run(code, Running(st), 1) == Running(s1) && At(code, s1.pc, [Unary(Not)]) && s1.stack == stack + [Bool(b)]
    ensures Run(code, Running(st), 2) == Running(s1.(pc := s1.pc + 1, stack := stack + [Bool(!b)]))
  {
    hide Run, At;
    After(code, st, 1, s1, Unary(Not));
    assert s1.stack[..|s1.stack| - 1] == stack;
  }

  lemma EqualValues(a: Value, b: Value)
    ensures EvalBin(Eq, a, b) == Some(Bool(a == b)) && EvalBin(Ne, a, b) == Some(Bool(a != b))
  {}

  /** The opcodes of a binary operator, special or generic, compute it. */
  lemma OperatorSim(code: seq<Instr>, op: BinOp, first: Instr, oc: seq<Instr>, st: State)
    requires |st.stack| >= 2 && (oc == OpCode(op, true) || oc == OpCode(op, false)) && first == oc[0]
    requires At(code, st.pc, oc)
    ensures
      var n := |st.stack|;
      var v := EvalBin(op, st.stack[n - 2], st.stack[n - 1]);
      if v.None? then Run(code, Running(st), 1) == Unwind(st.(pend := Some(FAULT)))
      else Run(code, Running(st), |oc|) == Running(st.(pc := st.pc + |oc|, stack := st.stack[..n - 2] + [v.value]))
  {
    hide Run, At, Exec, EvalBin, Unwind, OpCode;
    var n := |st.stack|;
    var stack, a, b := st.stack[..n - 2], st.stack[n - 2], st.stack[n - 1];
    assert st.stack == stack + [a, b];
    OpCodeEq(op, first, oc);
    AtSplit(code, st.pc, [first], oc[1..]);
    if op.Ne? {
      assert oc == [first, Unary(Not)];
      NotEqualSim(code, first, st, stack, a, b);
    } else {
      assert oc == [first];
      OperatorStep(code, op, first, st, stack, a, b);
    }
  }

  lemma NotEqualSim(code: seq<Instr>, first: Instr, st: State, stack: seq<Value>, a: Value, b: Value)
    requires st.stack == stack + [a, b] && (first == Generic(Eq) || first == IntOp(Eq))
    requires At(code, st.pc, [first]) && At(code, st.pc + 1, [Unary(Not)])
    ensures EvalBin(Ne, a, b) == Some(Bool(a != b))
    ensures Run(code, Running(st), 2) == Running(st.(pc := st.pc + 2, stack := stack + [Bool(a != b)]))
  {
    hide Run, At, Exec, EvalBin, Unwind;
    EqualValues(a, b);
    OperatorStep(code, Eq, first, st, stack, a, b);
    NotStep(code, st, st.(pc := st.pc + 1, stack := stack + [Bool(a == b)]), stack, a == b);
  }

  lemma OpCodeEq(op: BinOp, first: Instr, oc: seq<Instr>)
    requires (oc == OpCode(op, true) || oc == OpCode(op, false)) && first == oc[0]
    ensures oc == [first] + oc[1..]
        && (first == Generic(if op.Ne? then Eq else op) || first == IntOp(if op.Ne? then Eq else op))
    ensures oc[1..] == if op.Ne? then [Unary(Not)] else []
  {}

  /** A condition is true: fall through; false: jump to `no`. */
  lemma {:induction false} CondSim(code: seq<Instr>, c: Expr, no: int, sc: Scopes, next: nat, env: Env, st: State)
    returns (n: nat, t: State)
    requires OkE(c, sc) && Laid(sc, next) && Rel(env, sc, st.mem)
    requires At(code, st.pc, CodeCond(c, sc, st.pc, no))
    ensures Tests(code, st, n, t, st.pc + LenCond(c, sc), no, EvalCond(Compiled, c, env), sc, next)
    decreases ExprSize(c), 3
  {
    hide Run, Rel, Keeps, Laid, At, CodeE, CodeCond, LenE, LenCond, EvalE, EvalCond, OkE;
    CondEq(c, env);
    PlainEq(c, no, sc, st.pc);
    if FuseMod(c, sc).Some? {
      n, t := ModSim(code, c, no, sc, next, env, st);
    } else if FusesCompare(c, sc) {
      n, t := CompareSim(code, c, no, sc, next, env, st);
    } else {
      AtSplit(code, st.pc, CodeE(c, sc, st.pc), [JumpIfFalse(no)]);
      n, t := EvalSim(code, c, sc, next, env, st);
      var r := EvalE(Compiled, c, env);
      if r.Yields? {
        After(code, st, n, t, JumpIfFalse(no));
        assert t.stack[..|t.stack| - 1] == st.stack;
        n := n + 1;
        t := if !r.v.Bool? then t.(pend := Some(FAULT))
             else t.(stack := st.stack, pc := if r.v.b then t.pc + 1 else no);
      }
    }
  }

  lemma ModEq(c: Expr, no: int, sc: Scopes, pc: int, env: Env)
    requires FuseMod(c, sc).Some? && OkE(c, sc)
    ensures
      var (slot, d, onZero) := FuseMod(c, sc).value;
      var x := (if IsZero(c.r) then c.l else c.r).l.x;
      CodeCond(c, sc, pc, no) == [JumpMod(onZero, no, slot, d)] && LenCond(c, sc) == 1 && d > 0
      && Resolve(sc, x).Some? && RefOf(sc, x) == Local(slot)
      && (var i := Find(env, x);
          i >= 0 ==>
            EvalCond(Compiled, c, env) ==
              if env[i][x].Int? then Yields(Bool((FloorMod(env[i][x].n, d) == 0) != onZero), env)
                  else Fails(FAULT, env))
  {
    var (slot, d, onZero) := FuseMod(c, sc).value;
    var m := if IsZero(c.r) then c.l else c.r;
    assert OkE(m, sc) && OkE(m.l, sc);
    var i := Find(env, m.l.x);
    if i >= 0 {
      var v := env[i][m.l.x];
      assert EvalE(Compiled, m.l, env) == Yields(v, env) && EvalE(Compiled, m.r, env) == Yields(Int(d), env);
      assert EvalE(Compiled, m, env) == Yield(EvalBin(Mod, v, Int(d)), env);
      assert EvalE(Compiled, if IsZero(c.r) then c.r else c.l, env) == Yields(Int(0), env);
    }
  }

  /** `local % c == 0`, one opcode. */
  lemma ModSim(code: seq<Instr>, c: Expr, no: int, sc: Scopes, next: nat, env: Env, st: State)
    returns (n: nat, t: State)
    requires OkE(c, sc) && Laid(sc, next) && Rel(env, sc, st.mem)
    requires FuseMod(c, sc).Some? && At(code, st.pc, CodeCond(c, sc, st.pc, no))
    ensures Tests(code, st, n, t, st.pc + LenCond(c, sc), no, EvalCond(Compiled, c, env), sc, next)
    ensures n == 1
  {
    hide Run, Rel, Keeps, Laid, At, CodeE, CodeCond, LenE, LenCond, EvalE, EvalCond, OkE;
    ModEq(c, no, sc, st.pc, env);
    var (slot, d, onZero) := FuseMod(c, sc).value;
    Read(env, sc, st.mem, (if IsZero(c.r) then c.l else c.r).l.x);
    KeepsSame(st.mem, sc, next);
    One(code, st, JumpMod(onZero, no, slot, d));
    var v := st.mem[Local(slot)];
    n := 1;
    t := if !v.Int? then st.(pend := Some(FAULT))
         else st.(pc := if (FloorMod(v.n, d) == 0) == onZero then no else st.pc + 1);
    assert st.stack[..|st.stack| - 0] == st.stack;
  }

  lemma {:induction false} CompareSim(code: seq<Instr>, c: Expr, no: int, sc: Scopes, next: nat, env: Env, st: State)
    returns (n: nat, t: State)
    requires OkE(c, sc) && Laid(sc, next) && Rel(env, sc, st.mem)
    requires FuseMod(c, sc).None? && FusesCompare(c, sc) && At(code, st.pc, CodeCond(c, sc, st.pc, no))
    ensures Tests(code, st, n, t, st.pc + LenCond(c, sc), no, EvalCond(Compiled, c, env), sc, next)
    decreases ExprSize(c), 2
  {
    hide Run, Rel, Keeps, Laid, At, CodeE, CodeCond, LenE, LenCond, EvalE, EvalCond, OkE;
    CompareEq(c, no, sc, st.pc, env);
    var lc, rc := CodeE(c.l, sc, st.pc), CodeE(c.r, sc, st.pc + LenE(c.l, sc));
    AtSplit(code, st.pc, lc + rc, [JumpUnless(c.op, no)]);
    AtSplit(code, st.pc, lc, rc);
    n, t := OperandsSim(code, c.l, c.r, sc, next, env, st);
    var a := EvalE(Compiled, c.l, env);
    if a.Yields? {
      var b := EvalE(Compiled, c.r, a.env);
      if b.Yields? {
        After(code, st, n, t, JumpUnless(c.op, no));
        var v := EvalBin(c.op, a.v, b.v);
        assert t.stack[..|t.stack| - 2] == st.stack;
        n := n + 1;
        t := if v.None? then t.(pend := Some(FAULT))
             else t.(stack := st.stack, pc := if v.value == Bool(true) then t.pc + 1 else no);
      }
    }
  }

  /** An operand of && or ||, with the jump that tests it. */
  lemma {:induction false} OperandTest(code: seq<Instr>, e: Expr, no: int, sc: Scopes, next: nat, env: Env, st: State)
    returns (n: nat, t: State)
    requires OkE(e, sc) && Laid(sc, next) && Rel(env, sc, st.mem)
    requires At(code, st.pc, CodeE(e, sc, st.pc)) && At(code, st.pc + LenE(e, sc), [JumpIfFalse(no)])
    ensures Tests(code, st, n, t, st.pc + LenE(e, sc) + 1, no, EvalCond(Compiled, e, env), sc, next)
    decreases ExprSize(e), 3
  {
    hide Run, Rel, Keeps, Laid, At, CodeE, CodeCond, LenE, LenCond, EvalE, EvalCond, OkE;
    CondEq(e, env);
    n, t := EvalSim(code, e, sc, next, env, st);
    var r := EvalE(Compiled, e, env);
    if r.Yields? {
      After(code, st, n, t, JumpIfFalse(no));
      assert t.stack[..|t.stack| - 1] == st.stack;
      n := n + 1;
      t := if !r.v.Bool? then t.(pend := Some(FAULT))
           else t.(stack := st.stack, pc := if r.v.b then t.pc + 1 else no);
    }
  }

  /** Push a constant and, possibly, jump over the code that follows. */
  lemma PushJump(code: seq<Instr>, st: State, m: nat, s1: State, v: Value, end: int, jumps: bool)
    returns (n: nat, t: State)
    requires Run(code, Running(st), m) == Running(s1)
    requires At(code, s1.pc, [Const(v)])
    requires if jumps then At(code, s1.pc + 1, [Jump(end)]) else end == s1.pc + 1
    ensures n >= 1 && Run(code, Running(st), n) == Running(t)
    ensures t == s1.(pc := end, stack := s1.stack + [v])
  {
    hide Run, Rel, Keeps, Laid, At;
    After(code, st, m, s1, Const(v));
    n, t := m + 1, s1.(pc := s1.pc + 1, stack := s1.stack + [v]);
    if jumps {
      After(code, st, n, t, Jump(end));
      n, t := n + 1, t.(pc := end);
    }
  }

  lemma {:induction false} AndSim(code: seq<Instr>, l: Expr, r: Expr, sc: Scopes, next: nat, env: Env, st: State)
    returns (n: nat, t: State)
    requires OkE(l, sc) && OkE(r, sc) && Laid(sc, next) && Rel(env, sc, st.mem)
    requires At(code, st.pc, CodeE(And(l, r), sc, st.pc))
    ensures Does(code, st, n, t, st.pc + LenE(And(l, r), sc), EvalE(Compiled, And(l, r), env), sc, next)
    decreases ExprSize(l) + ExprSize(r) + 1, 0
  {
    hide Run, Rel, Keeps, Laid, At, CodeE, CodeCond, LenE, LenCond, EvalE, EvalCond, OkE;
    AndEq(l, r, sc, st.pc, env);
    var rpc := st.pc + LenE(l, sc) + 1;
    var no := rpc + LenE(r, sc) + 3;
    var lc, rc := CodeE(l, sc, st.pc), CodeE(r, sc, rpc);
    var tail := [JumpIfFalse(no), Const(Bool(true)), Jump(no + 1), Const(Bool(false))];
    AtSplit(code, st.pc, lc + [JumpIfFalse(no)] + rc, tail);
    AtSplit(code, st.pc, lc + [JumpIfFalse(no)], rc);
    AtSplit(code, st.pc, lc, [JumpIfFalse(no)]);
    AtFour(code, no - 3, tail);
    n, t := OperandTest(code, l, no, sc, next, env, st);
    var a := EvalCond(Compiled, l, env);
    if a.Yields? {
      if a.v == Bool(true) {
        var m, s1 := n, t;
        n, t := OperandTest(code, r, no, sc, next, a.env, s1);
        Then(code, st, m, s1, n, Run(code, Running(s1), n));
        n := m + n;
        KeepsTrans(st.mem, s1.mem, t.mem, sc, next);
      }
      var b := if a.v == Bool(true) then EvalCond(Compiled, r, a.env) else a;
      if b.Yields? {
        n, t := PushJump(code, st, n, t, b.v, no + 1, b.v == Bool(true));
      }
    }
  }

  lemma AtSix(code: seq<Instr>, pc: int, ops: seq<Instr>)
    requires |ops| == 6 && At(code, pc, ops)
    ensures At(code, pc, [ops[0]]) && At(code, pc + 1, [ops[1]]) && At(code, pc + 2, [ops[2]])
    ensures At(code, pc + 3, [ops[3]]) && At(code, pc + 4, [ops[4]]) && At(code, pc + 5, [ops[5]])
  {
    assert ops == [ops[0]] + ([ops[1]] + ops[2..]);
    AtSplit(code, pc, [ops[0]], [ops[1]] + ops[2..]);
    AtSplit(code, pc + 1, [ops[1]], ops[2..]);
    AtFour(code, pc + 2, ops[2..]);
  }

  lemma AtFour(code: seq<Instr>, pc: int, ops: seq<Instr>)
    requires |ops| == 4 && At(code, pc, ops)
    ensures At(code, pc, [ops[0]]) && At(code, pc + 1, [ops[1]]) && At(code, pc + 2, [ops[2]])
        && At(code, pc + 3, [ops[3]])
  {
    assert ops == [ops[0]] + ([ops[1]] + ([ops[2]] + [ops[3]]));
    AtSplit(code, pc, [ops[0]], [ops[1]] + ([ops[2]] + [ops[3]]));
    AtSplit(code, pc + 1, [ops[1]], [ops[2]] + [ops[3]]);
    AtSplit(code, pc + 2, [ops[2]], [ops[3]]);
  }

  lemma OrPieces(code: seq<Instr>, lc: seq<Instr>, rc: seq<Instr>, pc: int, rpc: int, no: int)
    requires rpc == pc + |lc| + 3 && no == rpc + |rc| + 3
    requires At(code, pc, lc + [JumpIfFalse(rpc), Const(Bool(true)), Jump(no + 1)] + rc +
                          [JumpIfFalse(no), Const(Bool(true)), Jump(no + 1), Const(Bool(false))])
    ensures At(code, pc, lc) && At(code, rpc, rc)
    ensures At(code, rpc - 3, [JumpIfFalse(rpc)]) && At(code, rpc - 2, [Const(Bool(true))])
        && At(code, rpc - 1, [Jump(no + 1)])
    ensures At(code, no - 3, [JumpIfFalse(no)]) && At(code, no - 2, [Const(Bool(true))])
            && At(code, no - 1, [Jump(no + 1)]) && At(code, no, [Const(Bool(false))])
  {
    hide At;
    var mid := [JumpIfFalse(rpc), Const(Bool(true)), Jump(no + 1)];
    var tail := [JumpIfFalse(no), Const(Bool(true)), Jump(no + 1), Const(Bool(false))];
    AtSplit(code, pc, lc + mid + rc, tail);
    AtSplit(code, pc, lc + mid, rc);
    AtSplit(code, pc, lc, mid);
    AtFour(code, no - 3, tail);
    assert mid == [mid[0]] + ([mid[1]] + [mid[2]]);
    AtSplit(code, rpc - 3, [mid[0]], [mid[1]] + [mid[2]]);
    AtSplit(code, rpc - 2, [mid[1]], [mid[2]]);
  }

  lemma {:induction false} OrSim(code: seq<Instr>, l: Expr, r: Expr, sc: Scopes, next: nat, env: Env, st: State)
    returns (n: nat, t: State)
    requires OkE(l, sc) && OkE(r, sc) && Laid(sc, next) && Rel(env, sc, st.mem)
    requires At(code, st.pc, CodeE(Or(l, r), sc, st.pc))
    ensures Does(code, st, n, t, st.pc + LenE(Or(l, r), sc), EvalE(Compiled, Or(l, r), env), sc, next)
    decreases ExprSize(l) + ExprSize(r) + 1, 0
  {
    hide Run, Rel, Keeps, Laid, At, CodeE, CodeCond, LenE, LenCond, EvalE, EvalCond, OkE;
    OrEq(l, r, sc, st.pc, env);
    var rpc := st.pc + LenE(l, sc) + 3;
    var no := rpc + LenE(r, sc) + 3;
    OrPieces(code, CodeE(l, sc, st.pc), CodeE(r, sc, rpc), st.pc, rpc, no);
    n, t := OperandTest(code, l, rpc, sc, next, env, st);
    var a := EvalCond(Compiled, l, env);
    if a.Yields? {
      if a.v == Bool(true) {
        n, t := PushJump(code, st, n, t, a.v, no + 1, true);
      } else {
        var m, s1 := n, t;
        n, t := OperandTest(code, r, no, sc, next, a.env, s1);
        Then(code, st, m, s1, n, Run(code, Running(s1), n));
        n := m + n;
        KeepsTrans(st.mem, s1.mem, t.mem, sc, next);
        var b := EvalCond(Compiled, r, a.env);
        if b.Yields? {
          n, t := PushJump(code, st, n, t, b.v, no + 1, b.v == Bool(true));
        }
      }
    }
  }

  lemma {:induction false} CoalesceSim(code: seq<Instr>, l: Expr, r: Expr, sc: Scopes, next: nat, env: Env, st: State)
    returns (n: nat, t: State)
    requires OkE(l, sc) && OkE(r, sc) && Laid(sc, next) && Rel(env, sc, st.mem)
    requires At(code, st.pc, CodeE(Coalesce(l, r), sc, st.pc))
    ensures Does(code, st, n, t, st.pc + LenE(Coalesce(l, r), sc), EvalE(Compiled, Coalesce(l, r), env), sc, next)
    decreases ExprSize(l) + ExprSize(r) + 1, 0
  {
    hide Run, Rel, Keeps, Laid, At, CodeE, CodeCond, LenE, LenCond, EvalE, EvalCond, OkE;
    CoalesceEq(l, r, sc, st.pc, env);
    var rpc := st.pc + LenE(l, sc) + 1;
    var end := rpc + LenE(r, sc);
    var lc, rc := CodeE(l, sc, st.pc), CodeE(r, sc, rpc);
    AtSplit(code, st.pc, lc + [NullCoalesce(end)], rc);
    AtSplit(code, st.pc, lc, [NullCoalesce(end)]);
    n, t := EvalSim(code, l, sc, next, env, st);
    var a := EvalE(Compiled, l, env);
    if a.Yields? {
      After(code, st, n, t, NullCoalesce(end));
      if a.v != Null {
        assert t.stack[..|t.stack| - 0] == t.stack;
        n, t := n + 1, t.(pc := end);
      } else {
        assert t.stack[..|t.stack| - 1] == st.stack;
        var m, s1 := n + 1, t.(pc := rpc, stack := st.stack);
        n, t := EvalSim(code, r, sc, next, a.env, s1);
        Then(code, st, m, s1, n, Run(code, Running(s1), n));
        n := m + n;
        KeepsTrans(st.mem, s1.mem, t.mem, sc, next);
      }
    }
  }

  lemma {:induction false} TernarySim(code: seq<Instr>, c: Expr, a: Expr, b: Expr, sc: Scopes, next: nat, env: Env,
          st: State)
    returns (n: nat, t: State)
    requires OkE(c, sc) && OkE(a, sc) && OkE(b, sc) && Laid(sc, next) && Rel(env, sc, st.mem)
    requires At(code, st.pc, CodeE(Ternary(c, a, b), sc, st.pc))
    ensures Does(code, st, n, t, st.pc + LenE(Ternary(c, a, b), sc), EvalE(Compiled, Ternary(c, a, b), env), sc, next)
    decreases ExprSize(c) + ExprSize(a) + ExprSize(b) + 1, 0
  {
    hide Run, Rel, Keeps, Laid, At, CodeE, CodeCond, LenE, LenCond, EvalE, EvalCond, OkE;
    TernaryEq(c, a, b, sc, st.pc, env);
    var tpc := st.pc + LenCond(c, sc);
    var fpc := tpc + LenE(a, sc) + 1;
    var end := fpc + LenE(b, sc);
    var cc, ac, bc := CodeCond(c, sc, st.pc, fpc), CodeE(a, sc, tpc), CodeE(b, sc, fpc);
    AtSplit(code, st.pc, cc + ac + [Jump(end)], bc);
    AtSplit(code, st.pc, cc + ac, [Jump(end)]);
    AtSplit(code, st.pc, cc, ac);
    n, t := CondSim(code, c, fpc, sc, next, env, st);
    var v := EvalCond(Compiled, c, env);
    if v.Yields? {
      var m, s1 := n, t;
      var e := if v.v == Bool(true) then a else b;
      n, t := EvalSim(code, e, sc, next, v.env, s1);
      Then(code, st, m, s1, n, Run(code, Running(s1), n));
      n := m + n;
      KeepsTrans(st.mem, s1.mem, t.mem, sc, next);
      if v.v == Bool(true) && EvalE(Compiled, a, v.env).Yields? {
        After(code, st, n, t, Jump(end));
        n, t := n + 1, t.(pc := end);
      }
    }
  }
}
