/** Emitted code is balanced: how many operands and how many exception handlers there are is
    a function of the program point. */
module Levels {
  import opened Syntax
  import opened Machine
  import opened ExprGen
  import opened StmtGen
  import opened Shapes
  import opened StmtForms
  import opened Closed

  /** Operands on the stack and handlers in force, counted from the start of the function. */
  datatype Level = Level(ops: int, handlers: nat)

  function Up(d: Level, k: int): Level { d.(ops := d.ops + k) }

  /** The operands an instruction takes from the stack, and those it leaves. */
  function Takes(i: Instr): nat {
    match i
    case Set(_) => 1 case Define(_) => 1 case Pop => 1 case Dup => 1 case Unary(_) => 1
    case Generic(_) => 2 case IntOp(_) => 2
    case JumpIfFalse(_) => 1 case JumpUnless(_, _) => 2 case NullCoalesce(_) => 1
    case Println => 1 case Return => 1 case IterInit => 1 case ForRangeIter(_) => 3
    case Raise => 1 case WithEnter => 1 case WithExit => 1
    case _ => 0
  }

  function Leaves(i: Instr): nat {
    match i
    case Const(_) => 1 case Folded(_) => 1 case Get(_) => 1 case Set(_) => 1 case Dup => 2
    case Generic(_) => 1 case IntOp(_) => 1 case Unary(_) => 1
    case SelfArith(_, _, _) => 1 case Step(_, _) => 1
    case IterInit => 1 case ForRangeIter(_) => 1 case WithEnter => 1
    case _ => 0
  }

  /** Can the machine go on to the next instruction? */
  predicate Falls(i: Instr) { !(i.Jump? || i.Return? || i.Raise?) }

  function After(i: Instr, d: Level): Level {
    Level(d.ops - Takes(i) + Leaves(i), d.handlers + (if i.PushHandler? then 1
        else if i.PopHandler? && d.handlers > 0 then -1 else 0))
  }

  /** At the target, or at the handler once an error has been raised under it. */
  function Taken(i: Instr, d: Level): Level {
    match i
    case JumpIfFalse(_) => Up(d, -1)
    case JumpUnless(_, _) => Up(d, -2)
    case _ => d
  }

  /** Enough operands, a handler to pop; a handler is set up with no operand about, and a
      return leaves nothing behind. */
  predicate Allowed(i: Instr, d: Level) {
    && Takes(i) <= d.ops && (i.PopHandler? ==> d.handlers > 0)
    && (i.PushHandler? ==> d.ops == 0) && (i.Return? ==> d == Level(1, 0))
  }

  function Mark(a: seq<Level>, x: Level, k: nat): Level { if k < |a| then a[k] else x }

  ghost predicate Aims(i: Instr, d: Level, a: seq<Level>, x: Level, pc: int, labels: set<(int, Level)>) {
    TargetOf(i).Some? ==>
      var t := TargetOf(i).value;
      (t, Taken(i, d)) in labels || (pc <= t <= pc + |a| && Mark(a, x, t - pc) == Taken(i, d))
  }

  /** Standing at pc, the code runs from level e to level x, with level a[k] before its k-th
      instruction; `labels` are the places outside that it may jump to, and their levels. */
  ghost predicate Fits(code: seq<Instr>, a: seq<Level>, pc: int, e: Level, x: Level, labels: set<(int, Level)>) {
    && |a| == |code| && Mark(a, x, 0) == e
    && forall k :: 0 <= k < |code| ==> Sound(code, a, pc, x, labels, k)
  }

  ghost predicate Sound(code: seq<Instr>, a: seq<Level>, pc: int, x: Level, labels: set<(int, Level)>, k: nat) {
    k < |code| == |a| && Allowed(code[k], a[k]) && (Falls(code[k]) ==> Mark(a, x, k + 1) == After(code[k], a[k])) &&
    Aims(code[k], a[k], a, x, pc, labels)
  }

  // ----- putting code together

  lemma Join(c: seq<Instr>, a: seq<Level>, d: seq<Instr>, b: seq<Level>, pc: int, e: Level, m: Level, x: Level,
          labels: set<(int, Level)>)
    requires Fits(c, a, pc, e, m, labels) && Fits(d, b, pc + |c|, m, x, labels)
    ensures Fits(c + d, a + b, pc, e, x, labels)
  {
    Marks(a, b, m, x);
    forall k | 0 <= k < |c + d| ensures Sound(c + d, a + b, pc, x, labels, k) {
      if k < |c| {
        assert Sound(c, a, pc, m, labels, k);
      } else {
        assert Sound(d, b, pc + |c|, x, labels, k - |c|);
        assert (c + d)[k] == d[k - |c|] && (a + b)[k] == b[k - |c|];
      }
    }
  }

  lemma Marks(a: seq<Level>, b: seq<Level>, m: Level, x: Level)
    requires Mark(b, x, 0) == m
    ensures forall k :: 0 <= k <= |a| ==> Mark(a + b, x, k) == Mark(a, m, k)
    ensures forall k :: |a| <= k ==> Mark(a + b, x, k) == Mark(b, x, k - |a|)
  {}

  lemma More(c: seq<Instr>, a: seq<Level>, pc: int, e: Level, x: Level, labels: set<(int, Level)>,
          wider: set<(int, Level)>)
    requires Fits(c, a, pc, e, x, labels) && labels <= wider
    ensures Fits(c, a, pc, e, x, wider)
  {
    forall k | 0 <= k < |c| ensures Sound(c, a, pc, x, wider, k) { assert Sound(c, a, pc, x, labels, k); }
  }

  /** A label inside the code needs no promise any more. */
  lemma Settle(c: seq<Instr>, a: seq<Level>, pc: int, e: Level, x: Level, labels: set<(int, Level)>, l: (int, Level))
    requires Fits(c, a, pc, e, x, labels + {l}) && pc <= l.0 <= pc + |c| && Mark(a, x, l.0 - pc) == l.1
    ensures Fits(c, a, pc, e, x, labels)
  {
    forall k | 0 <= k < |c| ensures Sound(c, a, pc, x, labels, k) { assert Sound(c, a, pc, x, labels + {l}, k); }
  }

  lemma One(i: Instr, pc: int, e: Level, x: Level, labels: set<(int, Level)>)
    requires Allowed(i, e) && (Falls(i) ==> x == After(i, e))
        && (TargetOf(i).Some? ==> (TargetOf(i).value, Taken(i, e)) in labels)
    ensures Fits([i], [e], pc, e, x, labels)
  {}

  lemma Two(i: Instr, j: Instr, pc: int, e: Level, m: Level, x: Level, labels: set<(int, Level)>)
    requires Fits([i], [e], pc, e, m, labels) && Fits([j], [m], pc + 1, m, x, labels)
    ensures Fits([i, j], [e, m], pc, e, x, labels)
  {
    Join([i], [e], [j], [m], pc, e, m, x, labels);
    assert [i] + [j] == [i, j] && [e] + [m] == [e, m];
  }

  /** Six pieces in a row; piece k runs from level ek to the next. */
  lemma Row(c1: seq<Instr>, a1: seq<Level>, c2: seq<Instr>, a2: seq<Level>, c3: seq<Instr>, a3: seq<Level>,
          c4: seq<Instr>, a4: seq<Level>,
            c5: seq<Instr>, a5: seq<Level>, c6: seq<Instr>, a6: seq<Level>, pc: int,
            e1: Level, e2: Level, e3: Level, e4: Level, e5: Level, e6: Level, x: Level, labels: set<(int, Level)>)
    requires Fits(c1, a1, pc, e1, e2, labels) && Fits(c2, a2, pc + |c1|, e2, e3, labels)
        && Fits(c3, a3, pc + |c1| + |c2|, e3, e4, labels)
    requires Fits(c4, a4, pc + |c1| + |c2| + |c3|, e4, e5, labels)
        && Fits(c5, a5, pc + |c1| + |c2| + |c3| + |c4|, e5, e6, labels)
    requires Fits(c6, a6, pc + |c1| + |c2| + |c3| + |c4| + |c5|, e6, x, labels)
    ensures Fits(c1 + c2 + c3 + c4 + c5 + c6, a1 + a2 + a3 + a4 + a5 + a6, pc, e1, x, labels)
    ensures Mark(a1 + a2 + a3 + a4 + a5 + a6, x, |c1| + |c2| + |c3|) == e4
        && Mark(a1 + a2 + a3 + a4 + a5 + a6, x, |c1| + |c2| + |c3| + |c4| + |c5|) == e6
    ensures |a1 + a2 + a3 + a4 + a5 + a6| == |c1| + |c2| + |c3| + |c4| + |c5| + |c6|
  {
    hide Fits, Mark;
    Join(c1, a1, c2, a2, pc, e1, e2, e3, labels);
    Join(c1 + c2, a1 + a2, c3, a3, pc, e1, e3, e4, labels);
    Join(c4, a4, c5, a5, pc + |c1 + c2 + c3|, e4, e5, e6, labels);
    Join(c4 + c5, a4 + a5, c6, a6, pc + |c1 + c2 + c3|, e4, e6, x, labels);
    Join(c1 + c2 + c3, a1 + a2 + a3, c4 + c5 + c6, a4 + a5 + a6, pc, e1, e4, x, labels);
    Lengths(c1 + c2 + c3, a1 + a2 + a3, pc, e1, e4, labels);
    Lengths(c4 + c5 + c6, a4 + a5 + a6, pc + |c1 + c2 + c3|, e4, x, labels);
    Lengths(c4 + c5, a4 + a5, pc + |c1 + c2 + c3|, e4, e6, labels);
    Lengths(c6, a6, pc + |c1 + c2 + c3 + c4 + c5|, e6, x, labels);
    Marks(a4 + a5, a6, e6, x);
    Marks(a1 + a2 + a3, a4 + a5 + a6, e4, x);
    assert c1 + c2 + c3 + c4 + c5 + c6 == c1 + c2 + c3 + (c4 + c5 + c6);
    assert a1 + a2 + a3 + a4 + a5 + a6 == a1 + a2 + a3 + (a4 + a5 + a6);
  }

  lemma None(pc: int, e: Level, labels: set<(int, Level)>)
    ensures Fits([], [], pc, e, e, labels)
  {}

  // ----- expressions: one operand more

  lemma {:induction false} ExprFits(e: Expr, sc: Scopes, pc: int, d: Level, labels: set<(int, Level)>)
    returns (a: seq<Level>)
    requires d.ops >= 0
    ensures Fits(CodeE(e, sc, pc), a, pc, d, Up(d, 1), labels)
    decreases e, 1
  {
    hide CodeE, LenE, CodeCond, LenCond, Fits, StaticInt, Fold, SelfForm, OpCode;
    match e
    case IntLit(n) => LeafIs(e, sc, pc); One(Const(Int(n)), pc, d, Up(d, 1), labels); a := [d];
    case Lit(v) => LeafIs(e, sc, pc); One(Const(v), pc, d, Up(d, 1), labels); a := [d];
    case Var(x) => VarIs(x, sc, pc); One(Get(RefOf(sc, x)), pc, d, Up(d, 1), labels); a := [d];
    case Assign(x, f) => a := AssignFits(x, f, sc, pc, d, labels);
    case Post(x, inc) => a := PostFits(x, inc, sc, pc, d, labels);
    case Un(op, f) =>
      UnIs(op, f, sc, pc);
      a := ExprFits(f, sc, pc, d, labels);
      One(Unary(op), pc + LenE(f, sc), Up(d, 1), Up(d, 1), labels);
      Join(CodeE(f, sc, pc), a, [Unary(op)], [Up(d, 1)], pc, d, Up(d, 1), Up(d, 1), labels);
      a := a + [Up(d, 1)];
    case Bin(op, l, r) =>
      if Fold(op, l, r).Some? {
        FoldIs(op, l, r, sc, pc);
        One(Folded(Fold(op, l, r).value), pc, d, Up(d, 1), labels);
        a := [d];
      } else {
        a := BinFits(op, l, r, sc, pc, d, labels);
      }
    case And(l, r) => a := AndFits(l, r, sc, pc, d, labels);
    case Or(l, r) => a := OrFits(l, r, sc, pc, d, labels);
    case Coalesce(l, r) => a := CoalesceFits(l, r, sc, pc, d, labels);
    case Ternary(c, t, f) => a := TernaryFits(c, t, f, sc, pc, d, labels);
  }

  lemma VarIs(x: string, sc: Scopes, pc: int)
    ensures CodeE(Var(x), sc, pc) == [Get(RefOf(sc, x))]
  {}

  lemma {:induction false} AssignFits(x: string, f: Expr, sc: Scopes, pc: int, d: Level, labels: set<(int, Level)>)
    returns (a: seq<Level>)
    requires d.ops >= 0
    ensures Fits(CodeE(Assign(x, f), sc, pc), a, pc, d, Up(d, 1), labels)
    decreases f, 2
  {
    var self := SelfForm(x, f, sc);
    if IsIntVar(sc, x) && self.Some? {
      One(SelfArith(f.op.Sub?, RefOf(sc, x), self.value), pc, d, Up(d, 1), labels);
      a := [d];
    } else {
      hide Fits, SelfForm;
      a := ExprFits(f, sc, pc, d, labels);
      One(Set(RefOf(sc, x)), pc + LenE(f, sc), Up(d, 1), Up(d, 1), labels);
      Join(CodeE(f, sc, pc), a, [Set(RefOf(sc, x))], [Up(d, 1)], pc, d, Up(d, 1), Up(d, 1), labels);
      a := a + [Up(d, 1)];
    }
  }

  lemma PostFits(x: string, inc: bool, sc: Scopes, pc: int, d: Level, labels: set<(int, Level)>) returns (a: seq<Level>)
    requires d.ops >= 0
    ensures Fits(CodeE(Post(x, inc), sc, pc), a, pc, d, Up(d, 1), labels)
  {
    var ref := RefOf(sc, x);
    if IsIntVar(sc, x) {
      One(Step(if inc then 1 else -1, ref), pc, d, Up(d, 1), labels);
      a := [d];
    } else {
      a := [d, Up(d, 1), Up(d, 2), Up(d, 3), Up(d, 2), Up(d, 2)];
    }
  }

  lemma {:induction false} BinFits(op: BinOp, l: Expr, r: Expr, sc: Scopes, pc: int, d: Level,
          labels: set<(int, Level)>) returns (a: seq<Level>)
    requires d.ops >= 0 && Fold(op, l, r).None?
    ensures Fits(CodeE(Bin(op, l, r), sc, pc), a, pc, d, Up(d, 1), labels)
    decreases Bin(op, l, r), 0
  {
    hide CodeE, LenE, Fits, StaticInt, Fold, OpCode;
    BinIs(op, l, r, sc, pc);
    var rpc := pc + LenE(l, sc);
    var oc := OpCode(op, StaticInt(l, sc) && StaticInt(r, sc));
    var a1 := ExprFits(l, sc, pc, d, labels);
    var a2 := ExprFits(r, sc, rpc, Up(d, 1), labels);
    var a3 := OpFits(op, StaticInt(l, sc) && StaticInt(r, sc), rpc + LenE(r, sc), d, labels);
    Join(CodeE(l, sc, pc), a1, CodeE(r, sc, rpc), a2, pc, d, Up(d, 1), Up(d, 2), labels);
    Join(CodeE(l, sc, pc) + CodeE(r, sc, rpc), a1 + a2, oc, a3, pc, d, Up(d, 2), Up(d, 1), labels);
    a := a1 + a2 + a3;
  }

  lemma OpFits(op: BinOp, bothInt: bool, pc: int, d: Level, labels: set<(int, Level)>) returns (a: seq<Level>)
    requires d.ops >= 0
    ensures Fits(OpCode(op, bothInt), a, pc, Up(d, 2), Up(d, 1), labels)
  {
    a := if op.Ne? then [Up(d, 2), Up(d, 1)] else [Up(d, 2)];
  }

  lemma {:induction false} AndFits(l: Expr, r: Expr, sc: Scopes, pc: int, d: Level, labels: set<(int, Level)>)
    returns (a: seq<Level>)
    requires d.ops >= 0
    ensures Fits(CodeE(And(l, r), sc, pc), a, pc, d, Up(d, 1), labels)
    decreases And(l, r), 0
  {
    hide CodeE, LenE, Fits;
    AndIs(l, r, sc, pc);
    var rpc := pc + LenE(l, sc) + 1;
    var no := rpc + LenE(r, sc) + 3;
    var inner := labels + {(no, d)};
    var a1 := ExprFits(l, sc, pc, d, inner);
    var a2 := ExprFits(r, sc, rpc, d, inner);
    One(JumpIfFalse(no), rpc - 1, Up(d, 1), d, inner);
    TestFits(no, d, inner);
    Join(CodeE(l, sc, pc), a1, [JumpIfFalse(no)], [Up(d, 1)], pc, d, Up(d, 1), d, inner);
    JoinTail(CodeE(l, sc, pc) + [JumpIfFalse(no)], a1 + [Up(d, 1)], CodeE(r, sc, rpc), a2, no, pc, d, labels);
    a := a1 + [Up(d, 1)] + a2 + [Up(d, 1), d, Up(d, 1), d];
  }

  lemma TestFits(no: int, d: Level, labels: set<(int, Level)>)
    requires d.ops >= 0
    ensures Fits(Test(no), [Up(d, 1), d, Up(d, 1), d], no - 3, Up(d, 1), Up(d, 1), labels)
  {
    var a := [Up(d, 1), d, Up(d, 1), d];
    var c, x := Test(no), Up(d, 1);
    assert Sound(c, a, no - 3, x, labels, 0) && Sound(c, a, no - 3, x, labels, 1) && Sound(c, a, no - 3, x, labels, 2)
        && Sound(c, a, no - 3, x, labels, 3);
  }

  lemma JoinTail(c: seq<Instr>, a: seq<Level>, rc: seq<Instr>, b: seq<Level>, no: int, pc: int, d: Level,
          labels: set<(int, Level)>)
    requires d.ops >= 0 && Fits(c, a, pc, d, d, labels + {(no, d)})
        && Fits(rc, b, pc + |c|, d, Up(d, 1), labels + {(no, d)})
    requires pc + |c| + |rc| + 3 == no
    ensures Fits(c + rc + Test(no), a + b + [Up(d, 1), d, Up(d, 1), d], pc, d, Up(d, 1), labels)
  {
    hide Fits;
    var inner := labels + {(no, d)};
    var t := [Up(d, 1), d, Up(d, 1), d];
    TestFits(no, d, inner);
    Join(c, a, rc, b, pc, d, d, Up(d, 1), inner);
    Join(c + rc, a + b, Test(no), t, pc, d, Up(d, 1), Up(d, 1), inner);
    Lengths(c, a, pc, d, d, inner);
    Lengths(rc, b, pc + |c|, d, Up(d, 1), inner);
    assert Mark(a + b + t, Up(d, 1), no - pc) == d;
    Settle(c + rc + Test(no), a + b + t, pc, d, Up(d, 1), labels, (no, d));
  }

  lemma Lengths(c: seq<Instr>, a: seq<Level>, pc: int, e: Level, x: Level, labels: set<(int, Level)>)
    requires Fits(c, a, pc, e, x, labels)
    ensures |a| == |c| && Mark(a, x, 0) == e
  {}

  lemma {:induction false} OrFits(l: Expr, r: Expr, sc: Scopes, pc: int, d: Level, labels: set<(int, Level)>)
    returns (a: seq<Level>)
    requires d.ops >= 0
    ensures Fits(CodeE(Or(l, r), sc, pc), a, pc, d, Up(d, 1), labels)
    decreases Or(l, r), 0
  {
    hide CodeE, LenE, Fits;
    OrIs(l, r, sc, pc);
    var rpc := pc + LenE(l, sc) + 3;
    var no := rpc + LenE(r, sc) + 3;
    var lc, rc := CodeE(l, sc, pc), CodeE(r, sc, rpc);
    var mid, am := [JumpIfFalse(rpc), Const(Bool(true)), Jump(no + 1)], [Up(d, 1), d, Up(d, 1)];
    var outer := labels + {(no + 1, Up(d, 1))};
    var inner := outer + {(no, d)};
    var a1 := ExprFits(l, sc, pc, d, inner);
    var a2 := ExprFits(r, sc, rpc, d, inner);
    MidFits(rpc, no, d, inner);
    Join(lc, a1, mid, am, pc, d, Up(d, 1), d, inner);
    JoinTail(lc + mid, a1 + am, rc, a2, no, pc, d, outer);
    a := a1 + am + a2 + [Up(d, 1), d, Up(d, 1), d];
    Lengths(lc + mid + rc + Test(no), a, pc, d, Up(d, 1), outer);
    Settle(lc + mid + rc + Test(no), a, pc, d, Up(d, 1), labels, (no + 1, Up(d, 1)));
  }

  lemma MidFits(rpc: int, no: int, d: Level, labels: set<(int, Level)>)
    requires d.ops >= 0 && (no + 1, Up(d, 1)) in labels
    ensures Fits([JumpIfFalse(rpc), Const(Bool(true)), Jump(no + 1)], [Up(d, 1), d, Up(d, 1)], rpc - 3, Up(d, 1), d,
        labels)
  {
    var a := [Up(d, 1), d, Up(d, 1)];
    var c := [JumpIfFalse(rpc), Const(Bool(true)), Jump(no + 1)];
    assert Sound(c, a, rpc - 3, d, labels, 0) && Sound(c, a, rpc - 3, d, labels, 1)
        && Sound(c, a, rpc - 3, d, labels, 2);
  }

  lemma {:induction false} CoalesceFits(l: Expr, r: Expr, sc: Scopes, pc: int, d: Level, labels: set<(int, Level)>)
    returns (a: seq<Level>)
    requires d.ops >= 0
    ensures Fits(CodeE(Coalesce(l, r), sc, pc), a, pc, d, Up(d, 1), labels)
    decreases Coalesce(l, r), 0
  {
    hide CodeE, LenE, Fits;
    CoalesceIs(l, r, sc, pc);
    var rpc := pc + LenE(l, sc) + 1;
    var end := rpc + LenE(r, sc);
    var inner := labels + {(end, Up(d, 1))};
    var lc, op, rc := CodeE(l, sc, pc), [NullCoalesce(end)], CodeE(r, sc, rpc);
    var a1 := ExprFits(l, sc, pc, d, inner);
    var a2 := ExprFits(r, sc, rpc, d, inner);
    One(NullCoalesce(end), rpc - 1, Up(d, 1), d, inner);
    Join(lc, a1, op, [Up(d, 1)], pc, d, Up(d, 1), d, inner);
    Join(lc + op, a1 + [Up(d, 1)], rc, a2, pc, d, d, Up(d, 1), inner);
    a := a1 + [Up(d, 1)] + a2;
    Lengths(lc + op + rc, a, pc, d, Up(d, 1), inner);
    Settle(lc + op + rc, a, pc, d, Up(d, 1), labels, (end, Up(d, 1)));
  }

  lemma {:induction false} TernaryFits(c: Expr, t: Expr, f: Expr, sc: Scopes, pc: int, d: Level,
          labels: set<(int, Level)>) returns (a: seq<Level>)
    requires d.ops >= 0
    ensures Fits(CodeE(Ternary(c, t, f), sc, pc), a, pc, d, Up(d, 1), labels)
    decreases Ternary(c, t, f), 0
  {
    hide CodeE, LenE, CodeCond, LenCond, Fits;
    TernaryIs(c, t, f, sc, pc);
    var tpc := pc + LenCond(c, sc);
    var fpc := tpc + LenE(t, sc) + 1;
    var end := fpc + LenE(f, sc);
    var inner := labels + {(end, Up(d, 1))} + {(fpc, d)};
    var a1 := CondFits(c, sc, pc, fpc, d, inner);
    var a2 := ExprFits(t, sc, tpc, d, inner);
    var a3 := ExprFits(f, sc, fpc, d, inner);
    a := BranchFits(CodeCond(c, sc, pc, fpc), a1, CodeE(t, sc, tpc), a2, CodeE(f, sc, fpc), a3, pc, d, Up(d, 1),
        labels);
  }

  /** A test, the code for true, a jump over the code for false, the code for false. */
  lemma BranchFits(cc: seq<Instr>, a1: seq<Level>, tc: seq<Instr>, a2: seq<Level>, fc: seq<Instr>, a3: seq<Level>,
                   pc: int, d: Level, x: Level, labels: set<(int, Level)>) returns (a: seq<Level>)
    requires
      var fpc := pc + |cc| + |tc| + 1;
      var inner := labels + {(fpc + |fc|, x)} + {(fpc, d)};
      x.ops >= 0 && Fits(cc, a1, pc, d, d, inner) && Fits(tc, a2, pc + |cc|, d, x, inner)
          && Fits(fc, a3, fpc, d, x, inner)
    ensures Fits(cc + tc + [Jump(pc + |cc| + |tc| + 1 + |fc|)] + fc, a, pc, d, x, labels)
  {
    hide Fits;
    var fpc := pc + |cc| + |tc| + 1;
    var end := fpc + |fc|;
    var outer := labels + {(end, x)};
    var inner := outer + {(fpc, d)};
    One(Jump(end), fpc - 1, x, d, inner);
    Join(cc, a1, tc, a2, pc, d, d, x, inner);
    Join(cc + tc, a1 + a2, [Jump(end)], [x], pc, d, x, d, inner);
    Join(cc + tc + [Jump(end)], a1 + a2 + [x], fc, a3, pc, d, d, x, inner);
    a := a1 + a2 + [x] + a3;
    var code := cc + tc + [Jump(end)] + fc;
    Lengths(cc, a1, pc, d, d, inner);
    Lengths(tc, a2, pc + |cc|, d, x, inner);
    Lengths(fc, a3, fpc, d, x, inner);
    Marks(a1 + a2 + [x], a3, d, x);
    Settle(code, a, pc, d, x, outer, (fpc, d));
    Settle(code, a, pc, d, x, labels, (end, x));
  }

  lemma {:induction false} CondFits(c: Expr, sc: Scopes, pc: int, no: int, d: Level, labels: set<(int, Level)>)
    returns (a: seq<Level>)
    requires d.ops >= 0 && (no, d) in labels
    ensures Fits(CodeCond(c, sc, pc, no), a, pc, d, d, labels)
    decreases c, 2
  {
    hide CodeE, LenE, StaticInt, Fits;
    var m := FuseMod(c, sc);
    if m.Some? {
      One(JumpMod(m.value.2, no, m.value.0, m.value.1), pc, d, d, labels);
      a := [d];
    } else if FusesCompare(c, sc) {
      var a1 := ExprFits(c.l, sc, pc, d, labels);
      var a2 := ExprFits(c.r, sc, pc + LenE(c.l, sc), Up(d, 1), labels);
      var lc, rc := CodeE(c.l, sc, pc), CodeE(c.r, sc, pc + LenE(c.l, sc));
      One(JumpUnless(c.op, no), pc + |lc| + |rc|, Up(d, 2), d, labels);
      Join(lc, a1, rc, a2, pc, d, Up(d, 1), Up(d, 2), labels);
      Join(lc + rc, a1 + a2, [JumpUnless(c.op, no)], [Up(d, 2)], pc, d, Up(d, 2), d, labels);
      a := a1 + a2 + [Up(d, 2)];
    } else {
      var cc := CodeE(c, sc, pc);
      a := ExprFits(c, sc, pc, d, labels);
      One(JumpIfFalse(no), pc + |cc|, Up(d, 1), d, labels);
      Join(cc, a, [JumpIfFalse(no)], [Up(d, 1)], pc, d, Up(d, 1), d, labels);
      a := a + [Up(d, 1)];
    }
  }

  // ----- the level of a statement

  /** The handlers that the finalizers in force pop. */
  function Handlers(fins: Fins): nat {
    match fins case Bottom => 0 case On(rest, f) => Handlers(rest) + (if f.popHandler then 1 else 0)
  }

  /** The finalizers that stay when those above `depth` have been run. */
  function Cut(fins: Fins, depth: nat): Fins { if Depth(fins) <= depth then fins else Cut(fins.rest, depth) }

  /** Statements start and end with no operands. */
  function Ground(fins: Fins): Level { Level(0, Handlers(fins)) }

  /** hs: the handlers in force around each enclosing loop. Unwinding to the innermost loop,
      from here or from a finally block on the way, comes back to that. */
  ghost predicate Poised(fins: Fins, loops: seq<nat>, hs: seq<nat>)
    decreases fins, 1
  {
    && |hs| == |loops| && TopLoop(loops) <= Depth(fins)
    && (|loops| > 0 ==> Handlers(Cut(fins, TopLoop(loops))) == hs[|hs| - 1])
    && FinsPoised(fins, loops, hs)
  }

  ghost predicate FinsPoised(fins: Fins, loops: seq<nat>, hs: seq<nat>)
    requires |hs| == |loops|
    decreases fins, 0
  {
    match fins
    case Bottom => true
    case On(rest, f) =>
      if f.body.None? then FinsPoised(rest, loops, hs)
      else f.loops <= |loops| && Poised(rest, loops[..f.loops], hs[..f.loops])
  }

  /** Where break and continue go is among the labels, at the level of the loop. */
  ghost predicate Promised(tg: seq<Target>, hs: seq<nat>, labels: set<(int, Level)>) {
    |tg| == |hs| && forall i ::
        0 <= i < |tg| ==> (tg[i].brk, Level(0, hs[i])) in labels && (tg[i].cnt, Level(0, hs[i])) in labels
  }

  ghost predicate Stands(cx: Ctx, tg: seq<Target>, hs: seq<nat>, labels: set<(int, Level)>) {
    Poised(cx.fins, cx.loops, hs) && Promised(tg, hs, labels)
  }

  lemma Wider(tg: seq<Target>, hs: seq<nat>, labels: set<(int, Level)>, wider: set<(int, Level)>)
    requires Promised(tg, hs, labels) && labels <= wider
    ensures Promised(tg, hs, wider)
  {}

  lemma {:induction false} FinsLonger(fins: Fins, loops: seq<nat>, hs: seq<nat>, loops1: seq<nat>, hs1: seq<nat>)
    requires |hs| == |loops| && |hs1| == |loops1| && loops <= loops1 && hs <= hs1 && FinsPoised(fins, loops, hs)
    ensures FinsPoised(fins, loops1, hs1)
    decreases fins
  {
    if fins.On? {
      if fins.top.body.None? {
        FinsLonger(fins.rest, loops, hs, loops1, hs1);
      } else {
        assert loops1[..fins.top.loops] == loops[..fins.top.loops] && hs1[..fins.top.loops] == hs[..fins.top.loops];
      }
    }
  }

  /** A loop opens; `fins` may have got the finalizer that closes its iterator. */
  lemma EnterLoop(cx: Ctx, tg: seq<Target>, hs: seq<nat>, labels: set<(int, Level)>, fins: Fins, t: Target)
    requires Stands(cx, tg, hs, labels)
    requires fins == cx.fins || (fins.On? && fins.rest == cx.fins && fins.top.body.None? && !fins.top.popHandler)
    ensures
      var h := Handlers(cx.fins);
      var inner := labels + {(t.brk, Level(0, h)), (t.cnt, Level(0, h))};
      Handlers(fins) == h && Poised(fins, cx.loops + [Depth(cx.fins)], hs + [h]) && Promised(tg + [t], hs + [h], inner)
  {
    FinsLonger(cx.fins, cx.loops, hs, cx.loops + [Depth(cx.fins)], hs + [Handlers(cx.fins)]);
    assert Cut(fins, Depth(cx.fins)) == cx.fins;
  }

  /** A finalizer with a finally block is pushed around a try body or a catch body. */
  lemma EnterTry(cx: Ctx, tg: seq<Target>, hs: seq<nat>, labels: set<(int, Level)>, f: Fin)
    requires Stands(cx, tg, hs, labels) && (f.body.Some? ==> f.loops == |cx.loops|)
    ensures Poised(On(cx.fins, f), cx.loops, hs)
  {
    assert cx.loops[..|cx.loops|] == cx.loops && hs[..|hs|] == hs;
  }

  // ----- statements: no operand more, no handler more

  lemma OptFits(e: Option<Expr>, sc: Scopes, pc: int, d: Level, labels: set<(int, Level)>) returns (a: seq<Level>)
    requires d.ops >= 0
    ensures Fits(OptCode(e, sc, pc), a, pc, d, Up(d, 1), labels)
  {
    hide CodeE, Fits;
    if e.Some? {
      a := ExprFits(e.value, sc, pc, d, labels);
    } else {
      One(Const(Null), pc, d, Up(d, 1), labels);
      a := [d];
    }
  }

  lemma {:induction false} StmtFits(s: Stmt, cx: Ctx, tg: seq<Target>, hs: seq<nat>, pc: int,
          labels: set<(int, Level)>) returns (a: seq<Level>)
    requires LayS(s, cx).ok && Stands(cx, tg, hs, labels)
    ensures Fits(CodeS(s, cx, tg, pc), a, pc, Ground(cx.fins), Ground(cx.fins), labels)
    decreases Size(s) + FinSize(cx.fins), 1
  {
    hide LayS, CodeS, Fits, Stands, CodeE, LenE, OkE, OptCode, OptLen, OptOk, Handlers;
    match s
    case Let(_, _, _) => a := LetFits(s, cx, tg, pc, labels);
    case Eval(e) => a := ConsumeFits(s, cx, tg, pc, labels);
    case Print(e) => a := ConsumeFits(s, cx, tg, pc, labels);
    case Throw(e) => a := ConsumeFits(s, cx, tg, pc, labels);
    case If(_, _, _, _) => a := IfFits(s, cx, tg, hs, pc, labels);
    case While(c, b) => a := WhileFits(s, cx, tg, hs, pc, labels);
    case For(_, _, _, _) => a := ForFits(s, cx, tg, hs, pc, labels);
    case ForIn(_, _, _) => a := ForInFits(s, cx, tg, hs, pc, labels);
    case Try(_, _, _) => a := TryFits(s, cx, tg, hs, pc, labels);
    case With(_, _, _) => a := WithFits(s, cx, tg, hs, pc, labels);
    case Break => a := LeaveFits(s, cx, tg, hs, pc, labels);
    case Continue => a := LeaveFits(s, cx, tg, hs, pc, labels);
    case Return(_) => a := ReturnFits(s, cx, tg, hs, pc, labels);
  }

  lemma LetFits(s: Stmt, cx: Ctx, tg: seq<Target>, pc: int, labels: set<(int, Level)>) returns (a: seq<Level>)
    requires s.Let?
    ensures Fits(CodeS(s, cx, tg, pc), a, pc, Ground(cx.fins), Ground(cx.fins), labels)
  {
    hide OptCode, OptLen, OptOk, Fits;
    var d := Ground(cx.fins);
    a := OptFits(s.init, cx.sc, pc, d, labels);
    var i := Define(Local(cx.next));
    One(i, pc + |OptCode(s.init, cx.sc, pc)|, Up(d, 1), d, labels);
    Join(OptCode(s.init, cx.sc, pc), a, [i], [Up(d, 1)], pc, d, Up(d, 1), d, labels);
    a := a + [Up(d, 1)];
  }

  lemma ConsumeFits(s: Stmt, cx: Ctx, tg: seq<Target>, pc: int, labels: set<(int, Level)>) returns (a: seq<Level>)
    requires s.Eval? || s.Print? || s.Throw?
    ensures Fits(CodeS(s, cx, tg, pc), a, pc, Ground(cx.fins), Ground(cx.fins), labels)
  {
    hide LayS, CodeS, CodeE, LenE, OkE, Fits, Handlers;
    ConsumeIs(s, cx, tg, pc);
    a := DropFits(s.e, if s.Eval? then Instr.Pop else if s.Print? then Println
        else Raise, cx.sc, pc, Ground(cx.fins), labels);
  }

  /** An expression and an instruction that takes its value. */
  lemma DropFits(e: Expr, op: Instr, sc: Scopes, pc: int, d: Level, labels: set<(int, Level)>) returns (a: seq<Level>)
    requires d.ops >= 0 && op in {Instr.Pop, Println, Raise}
    ensures Fits(CodeE(e, sc, pc) + [op], a, pc, d, d, labels)
  {
    hide CodeE, LenE, Fits;
    a := ExprFits(e, sc, pc, d, labels);
    One(op, pc + |CodeE(e, sc, pc)|, Up(d, 1), d, labels);
    Join(CodeE(e, sc, pc), a, [op], [Up(d, 1)], pc, d, Up(d, 1), d, labels);
    a := a + [Up(d, 1)];
  }

  lemma {:induction false} BlockFits(b: Stmts, cx: Ctx, tg: seq<Target>, hs: seq<nat>, pc: int,
          labels: set<(int, Level)>) returns (a: seq<Level>)
    requires LayBlock(b, cx).ok && Stands(cx, tg, hs, labels)
    ensures Fits(CodeBlock(b, cx, tg, pc), a, pc, Ground(cx.fins), Ground(cx.fins), labels)
    decreases BlockSize(b) + FinSize(cx.fins), 1
  {
    hide LayList, CodeList, Fits, Handlers, Poised, Promised;
    a := ListFits(b, cx.(sc := cx.sc + [map[]]), tg, hs, pc, labels);
  }

  lemma {:induction false} ListFits(b: Stmts, cx: Ctx, tg: seq<Target>, hs: seq<nat>, pc: int,
          labels: set<(int, Level)>) returns (a: seq<Level>)
    requires LayList(b, cx).ok && Stands(cx, tg, hs, labels)
    ensures Fits(CodeList(b, cx, tg, pc), a, pc, Ground(cx.fins), Ground(cx.fins), labels)
    decreases BlockSize(b) + FinSize(cx.fins), 0
  {
    hide LayS, CodeS, Fits, Handlers, Poised, Promised;
    var d := Ground(cx.fins);
    match b
    case Nil => None(pc, d, labels); a := [];
    case Cons(s, rest) =>
      var l := LayS(s, cx);
      var a1 := StmtFits(s, cx, tg, hs, pc, labels);
      var a2 := ListFits(rest, At0(cx, l), tg, hs, pc + l.len, labels);
      Join(CodeS(s, cx, tg, pc), a1, CodeList(rest, At0(cx, l), tg, pc + l.len), a2, pc, d, d, d, labels);
      a := a1 + a2;
  }

  lemma {:induction false} IfFits(s: Stmt, cx: Ctx, tg: seq<Target>, hs: seq<nat>, pc: int, labels: set<(int, Level)>)
    returns (a: seq<Level>)
    requires s.If? && LayS(s, cx).ok && Stands(cx, tg, hs, labels)
    ensures Fits(CodeS(s, cx, tg, pc), a, pc, Ground(cx.fins), Ground(cx.fins), labels)
    decreases Size(s) + FinSize(cx.fins), 0
  {
    hide LayS, CodeS, LayBlock, CodeBlock, LayElifs, CodeElifs, CodeCond, LenCond, OkE, Fits, Poised, Promised,
        Handlers;
    var If(c, b, es, alt) := s;
    IfIs(c, b, es, alt, cx, tg, pc);
    var tpc := pc + LenCond(c, cx.sc);
    var l1 := LayBlock(b, cx);
    var epc, end := tpc + l1.len + 1, pc + LayS(s, cx).len;
    var d := Ground(cx.fins);
    var inner := labels + {(end, d)} + {(epc, d)};
    Wider(tg, hs, labels, inner);
    var a1 := CondFits(c, cx.sc, pc, epc, d, inner);
    var a2 := BlockFits(b, cx, tg, hs, tpc, inner);
    var a3 := ElifsFits(es, alt, cx.(next := l1.next), tg, hs, epc, end, inner);
    a := BranchFits(CodeCond(c, cx.sc, pc, epc), a1, CodeBlock(b, cx, tg, tpc), a2,
                    CodeElifs(es, alt, cx.(next := l1.next), tg, epc, end), a3, pc, d, d, labels);
  }

  lemma {:induction false} ElifsFits(es: Elifs, alt: Option<Stmts>, cx: Ctx, tg: seq<Target>, hs: seq<nat>, pc: int,
          end: int,
                                     labels: set<(int, Level)>) returns (a: seq<Level>)
    requires LayElifs(es, alt, cx).ok && Stands(cx, tg, hs, labels) && (end, Ground(cx.fins)) in labels
    ensures Fits(CodeElifs(es, alt, cx, tg, pc, end), a, pc, Ground(cx.fins), Ground(cx.fins), labels)
    decreases ElifsSize(es) + (if alt.Some? then BlockSize(alt.value) else 0) + FinSize(cx.fins), 2
  {
    var d := Ground(cx.fins);
    match es
    case NoElif =>
      hide LayBlock, CodeBlock, Fits, Poised, Promised, Handlers;
      if alt.Some? { a := BlockFits(alt.value, cx, tg, hs, pc, labels); } else { None(pc, d, labels); a := []; }
    case Elif(_, _, _) => a := ElifFits(es, alt, cx, tg, hs, pc, end, labels);
  }

  lemma {:induction false} ElifFits(es: Elifs, alt: Option<Stmts>, cx: Ctx, tg: seq<Target>, hs: seq<nat>, pc: int,
          end: int,
                                    labels: set<(int, Level)>) returns (a: seq<Level>)
    requires es.Elif? && LayElifs(es, alt, cx).ok && Stands(cx, tg, hs, labels) && (end, Ground(cx.fins)) in labels
    ensures Fits(CodeElifs(es, alt, cx, tg, pc, end), a, pc, Ground(cx.fins), Ground(cx.fins), labels)
    decreases ElifsSize(es) + (if alt.Some? then BlockSize(alt.value) else 0) + FinSize(cx.fins), 1
  {
    hide LayBlock, CodeBlock, LayElifs, CodeElifs, CodeCond, LenCond, OkE, Fits, Poised, Promised, Handlers;
    var Elif(c, b, rest) := es;
    var d := Ground(cx.fins);
    ElifIs(c, b, rest, alt, cx, tg, pc, end);
    var tpc := pc + LenCond(c, cx.sc);
    var l1 := LayBlock(b, cx);
    var epc := tpc + l1.len + 1;
    var inner := labels + {(epc, d)};
    Wider(tg, hs, labels, inner);
    var a1 := CondFits(c, cx.sc, pc, epc, d, inner);
    var a2 := BlockFits(b, cx, tg, hs, tpc, inner);
    var a3 := ElifsFits(rest, alt, cx.(next := l1.next), tg, hs, epc, end, inner);
    a := ArmFits(CodeCond(c, cx.sc, pc, epc), a1, CodeBlock(b, cx, tg, tpc), a2, end,
                 CodeElifs(rest, alt, cx.(next := l1.next), tg, epc, end), a3, pc, d, labels);
  }

  /** As BranchFits, when the end is a label already. */
  lemma ArmFits(cc: seq<Instr>, a1: seq<Level>, tc: seq<Instr>, a2: seq<Level>, end: int, fc: seq<Instr>,
          a3: seq<Level>,
                pc: int, d: Level, labels: set<(int, Level)>) returns (a: seq<Level>)
    requires
      var fpc := pc + |cc| + |tc| + 1;
      var inner := labels + {(fpc, d)};
      && d.ops >= 0 && (end, d) in labels
      && Fits(cc, a1, pc, d, d, inner) && Fits(tc, a2, pc + |cc|, d, d, inner) && Fits(fc, a3, fpc, d, d, inner)
    ensures Fits(cc + tc + [Jump(end)] + fc, a, pc, d, d, labels)
  {
    hide Fits;
    var fpc := pc + |cc| + |tc| + 1;
    var inner := labels + {(fpc, d)};
    One(Jump(end), fpc - 1, d, d, inner);
    Join(cc, a1, tc, a2, pc, d, d, d, inner);
    Join(cc + tc, a1 + a2, [Jump(end)], [d], pc, d, d, d, inner);
    Join(cc + tc + [Jump(end)], a1 + a2 + [d], fc, a3, pc, d, d, d, inner);
    a := a1 + a2 + [d] + a3;
    Lengths(cc, a1, pc, d, d, inner);
    Lengths(tc, a2, pc + |cc|, d, d, inner);
    Lengths(fc, a3, fpc, d, d, inner);
    Marks(a1 + a2 + [d], a3, d, d);
    Settle(cc + tc + [Jump(end)] + fc, a, pc, d, d, labels, (fpc, d));
  }

  /** The body of a while or for loop, with the two places where its jumps go. */
  lemma {:induction false} BodyFits(b: Stmts, cx: Ctx, cx1: Ctx, tg: seq<Target>, hs: seq<nat>, t: Target, pc: int,
          labels: set<(int, Level)>)
    returns (a: seq<Level>)
    requires Stands(cx, tg, hs, labels) && cx1.fins == cx.fins && cx1.loops == cx.loops + [Depth(cx.fins)]
        && LayBlock(b, cx1).ok
    ensures
      var d := Ground(cx.fins);
      Fits(CodeBlock(b, cx1, tg + [t], pc), a, pc, d, d, labels + {(t.brk, d), (t.cnt, d)})
    decreases BlockSize(b) + FinSize(cx.fins), 2
  {
    hide LayBlock, CodeBlock, Fits, Poised, Promised, Handlers;
    EnterLoop(cx, tg, hs, labels, cx.fins, t);
    var d := Ground(cx.fins);
    a := BlockFits(b, cx1, tg + [t], hs + [Handlers(cx.fins)], pc, labels + {(t.brk, d), (t.cnt, d)});
  }

  lemma {:induction false} WhileFits(s: Stmt, cx: Ctx, tg: seq<Target>, hs: seq<nat>, pc: int,
          labels: set<(int, Level)>) returns (a: seq<Level>)
    requires s.While? && LayS(s, cx).ok && Stands(cx, tg, hs, labels)
    ensures Fits(CodeS(s, cx, tg, pc), a, pc, Ground(cx.fins), Ground(cx.fins), labels)
    decreases Size(s) + FinSize(cx.fins), 0
  {
    hide LayS, CodeS, LayBlock, CodeBlock, CodeCond, LenCond, OkE, Fits, Poised, Promised, Handlers;
    WhileIs(s.c, s.body, cx, tg, pc);
    var bpc, end := pc + LenCond(s.c, cx.sc), pc + LayS(s, cx).len;
    var t := Target(end, pc);
    var cx1 := cx.(loops := cx.loops + [Depth(cx.fins)]);
    var d := Ground(cx.fins);
    var inner := labels + {(end, d), (pc, d)};
    var cc, bc := CodeCond(s.c, cx.sc, pc, end), CodeBlock(s.body, cx1, tg + [t], bpc);
    var a1 := CondFits(s.c, cx.sc, pc, end, d, inner);
    var a2 := BodyFits(s.body, cx, cx1, tg, hs, t, bpc, labels);
    One(Jump(pc), end - 1, d, d, inner);
    Join(cc, a1, bc, a2, pc, d, d, d, inner);
    Join(cc + bc, a1 + a2, [Jump(pc)], [d], pc, d, d, d, inner);
    a := a1 + a2 + [d];
    Lengths(cc + bc + [Jump(pc)], a, pc, d, d, inner);
    SettleLoop(cc + bc + [Jump(pc)], a, pc, d, labels, end, pc);
  }

  /** Code whose two labels are its own two ends. */
  lemma SettleLoop(c: seq<Instr>, a: seq<Level>, pc: int, d: Level, labels: set<(int, Level)>, brk: int, cnt: int)
    requires Fits(c, a, pc, d, d, labels + {(brk, d), (cnt, d)}) && brk == pc + |c| && pc <= cnt <= pc + |c|
        && Mark(a, d, cnt - pc) == d
    ensures Fits(c, a, pc, d, d, labels)
  {
    hide Fits;
    assert labels + {(brk, d), (cnt, d)} == labels + {(brk, d)} + {(cnt, d)};
    Lengths(c, a, pc, d, d, labels + {(brk, d), (cnt, d)});
    Settle(c, a, pc, d, d, labels + {(brk, d)}, (cnt, d));
    Settle(c, a, pc, d, d, labels, (brk, d));
  }

  lemma {:induction false} ForFits(s: Stmt, cx: Ctx, tg: seq<Target>, hs: seq<nat>, pc: int,
          labels: set<(int, Level)>) returns (a: seq<Level>)
    requires s.For? && LayS(s, cx).ok && Stands(cx, tg, hs, labels)
    ensures Fits(CodeS(s, cx, tg, pc), a, pc, Ground(cx.fins), Ground(cx.fins), labels)
    decreases Size(s) + FinSize(cx.fins), 0
  {
    hide LayS, CodeS, LayBlock, CodeBlock, CodeCond, LenCond, OkE, Fits, Poised, Promised, Handlers, LayOpt, CodeOpt,
        UpdateLen, UpdateCode, OptOk;
    var For(first, c, u, b) := s;
    ForLays(first, c, u, b, cx, pc);
    ForEmits(first, c, u, b, cx, tg, pc);
    var cx0 := cx.(sc := cx.sc + [map[]]);
    var l0 := LayOpt(first, cx0);
    var cx2 := At0(cx0, l0).(loops := cx.loops + [Depth(cx.fins)]);
    var top := pc + l0.len;
    var bpc := top + (if c.None? then 0 else LenCond(c.value, l0.sc));
    var upc, end := bpc + LayBlock(b, cx2).len, pc + LayS(s, cx).len;
    var t := Target(end, upc);
    var d := Ground(cx.fins);
    var inner := labels + {(end, d), (upc, d)};
    var fc, bc, uc := CodeOpt(first, cx0, tg, pc), CodeBlock(b, cx2, tg + [t], bpc), UpdateCode(u, l0.sc, upc);
    var cc := if c.None? then [] else CodeCond(c.value, l0.sc, top, end);
    var a1 := FirstFits(first, cx0, tg, hs, pc, labels);
    var a2 := TestedFits(c, l0.sc, top, end, d, inner + {(top, d)});
    var a3 := BodyFits(b, cx, cx2, tg, hs, t, bpc, labels);
    var a4 := UpdateFits(u, l0.sc, upc, d, labels);
    a := LoopFits(fc, a1, cc, a2, bc, a3, uc, a4, pc, d, labels);
  }

  /** A for loop from its parts. */
  lemma LoopFits(fc: seq<Instr>, a1: seq<Level>, cc: seq<Instr>, a2: seq<Level>, bc: seq<Instr>, a3: seq<Level>,
                 uc: seq<Instr>, a4: seq<Level>, pc: int, d: Level, labels: set<(int, Level)>) returns (a: seq<Level>)
    requires
      var top := pc + |fc|;
      var bpc := top + |cc|;
      var upc := bpc + |bc|;
      var inner := labels + {(upc + |uc| + 1, d), (upc, d)};
      && d.ops >= 0 && Fits(fc, a1, pc, d, d, labels) && Fits(cc, a2, top, d, d, inner + {(top, d)})
      && Fits(bc, a3, bpc, d, d, inner) && Fits(uc, a4, upc, d, d, labels)
    ensures Fits(fc + cc + bc + uc + [Jump(pc + |fc|)], a, pc, d, d, labels)
  {
    hide Fits;
    var top := pc + |fc|;
    var upc := top + |cc| + |bc|;
    var end := upc + |uc| + 1;
    var inner := labels + {(end, d), (upc, d)};
    var all := inner + {(top, d)};
    More(fc, a1, pc, d, d, labels, all);
    More(bc, a3, top + |cc|, d, d, inner, all);
    More(uc, a4, upc, d, d, labels, all);
    One(Jump(top), end - 1, d, d, all);
    Join(fc, a1, cc, a2, pc, d, d, d, all);
    Join(fc + cc, a1 + a2, bc, a3, pc, d, d, d, all);
    Join(fc + cc + bc, a1 + a2 + a3, uc, a4, pc, d, d, d, all);
    Join(fc + cc + bc + uc, a1 + a2 + a3 + a4, [Jump(top)], [d], pc, d, d, d, all);
    var code := fc + cc + bc + uc + [Jump(top)];
    a := a1 + a2 + a3 + a4 + [d];
    LoopMarks(fc, a1, cc, a2, bc, a3, uc, a4, pc, d, all);
    Settle(code, a, pc, d, d, inner, (top, d));
    SettleLoop(code, a, pc, d, labels, end, upc);
  }

  lemma LoopMarks(fc: seq<Instr>, a1: seq<Level>, cc: seq<Instr>, a2: seq<Level>, bc: seq<Instr>, a3: seq<Level>,
                  uc: seq<Instr>, a4: seq<Level>, pc: int, d: Level, labels: set<(int, Level)>)
    requires Fits(fc, a1, pc, d, d, labels) && Fits(cc, a2, pc + |fc|, d, d, labels)
    requires Fits(bc, a3, pc + |fc| + |cc|, d, d, labels) && Fits(uc, a4, pc + |fc| + |cc| + |bc|, d, d, labels)
    ensures
      var a := a1 + a2 + a3 + a4 + [d];
      Mark(a, d, |fc|) == d && Mark(a, d, |fc| + |cc| + |bc|) == d
  {
    hide Fits, Mark;
    Lengths(fc, a1, pc, d, d, labels);
    Lengths(cc, a2, pc + |fc|, d, d, labels);
    Lengths(bc, a3, pc + |fc| + |cc|, d, d, labels);
    Lengths(uc, a4, pc + |fc| + |cc| + |bc|, d, d, labels);
    Single(d);
    Marks(a4, [d], d, d);
    Marks(a3, a4 + [d], d, d);
    Marks(a2, a3 + (a4 + [d]), d, d);
    Marks(a1, a2 + (a3 + (a4 + [d])), d, d);
    Marks(a1 + a2 + a3, a4 + [d], d, d);
    assert a1 + a2 + a3 + a4 + [d] == a1 + (a2 + (a3 + (a4 + [d]))) == a1 + a2 + a3 + (a4 + [d]);
  }

  lemma Single(d: Level)
    ensures Mark([d], d, 0) == d
  {}

  lemma {:induction false} FirstFits(first: Option<Simple>, cx: Ctx, tg: seq<Target>, hs: seq<nat>, pc: int,
          labels: set<(int, Level)>) returns (a: seq<Level>)
    requires LayOpt(first, cx).ok && Stands(cx, tg, hs, labels)
    ensures Fits(CodeOpt(first, cx, tg, pc), a, pc, Ground(cx.fins), Ground(cx.fins), labels)
    decreases 1 + FinSize(cx.fins), 2
  {
    hide LayS, CodeS, Fits, Stands, Handlers;
    if first.Some? {
      a := StmtFits(Semantics.AsStmt(first.value), cx, tg, hs, pc, labels);
    } else {
      None(pc, Ground(cx.fins), labels);
      a := [];
    }
  }

  lemma TestedFits(c: Option<Expr>, sc: Scopes, pc: int, no: int, d: Level, labels: set<(int, Level)>)
    returns (a: seq<Level>)
    requires d.ops >= 0 && (no, d) in labels
    ensures Fits(if c.None? then [] else CodeCond(c.value, sc, pc, no), a, pc, d, d, labels)
  {
    hide CodeCond, Fits;
    if c.Some? {
      a := CondFits(c.value, sc, pc, no, d, labels);
    } else {
      None(pc, d, labels);
      a := [];
    }
  }

  lemma UpdateFits(u: Option<Expr>, sc: Scopes, pc: int, d: Level, labels: set<(int, Level)>) returns (a: seq<Level>)
    requires d.ops >= 0
    ensures Fits(UpdateCode(u, sc, pc), a, pc, d, d, labels)
  {
    hide CodeE, LenE, Fits;
    None(pc, d, labels);
    a := [];
    if u.Some? {
      a := ExprFits(u.value, sc, pc, d, labels);
      One(Instr.Pop, pc + |CodeE(u.value, sc, pc)|, Up(d, 1), d, labels);
      Join(CodeE(u.value, sc, pc), a, [Instr.Pop], [Up(d, 1)], pc, d, Up(d, 1), d, labels);
      a := a + [Up(d, 1)];
    }
  }

  lemma IterableFits(it: Iterable, sc: Scopes, pc: int, d: Level, labels: set<(int, Level)>) returns (a: seq<Level>)
    requires d.ops >= 0
    ensures Fits(CodeIterable(it, sc, pc), a, pc, d, Up(d, 1), labels)
  {
    hide CodeE, LenE, OkE, Fits;
    match it
    case Each(e) =>
      a := ExprFits(e, sc, pc, d, labels);
      One(IterInit, pc + |CodeE(e, sc, pc)|, Up(d, 1), Up(d, 1), labels);
      Join(CodeE(e, sc, pc), a, [IterInit], [Up(d, 1)], pc, d, Up(d, 1), Up(d, 1), labels);
      a := a + [Up(d, 1)];
    case Range(x, y, z, ex) =>
      var xe, ye, ze := RangePart(x, IntLit(0)), RangePart(y, Lit(Null)), RangePart(z, IntLit(1));
      RangeIs(x, y, z, ex, sc, pc);
      var ypc := pc + LenE(xe, sc);
      var zpc := ypc + LenE(ye, sc);
      var xc, yc, zc := CodeE(xe, sc, pc), CodeE(ye, sc, ypc), CodeE(ze, sc, zpc);
      var a1 := ExprFits(xe, sc, pc, d, labels);
      var a2 := ExprFits(ye, sc, ypc, Up(d, 1), labels);
      var a3 := ExprFits(ze, sc, zpc, Up(d, 2), labels);
      One(ForRangeIter(ex), zpc + LenE(ze, sc), Up(d, 3), Up(d, 1), labels);
      Join(xc, a1, yc, a2, pc, d, Up(d, 1), Up(d, 2), labels);
      Join(xc + yc, a1 + a2, zc, a3, pc, d, Up(d, 2), Up(d, 3), labels);
      Join(xc + yc + zc, a1 + a2 + a3, [ForRangeIter(ex)], [Up(d, 3)], pc, d, Up(d, 3), Up(d, 1), labels);
      a := a1 + a2 + a3 + [Up(d, 3)];
  }

  lemma {:induction false} ForInFits(s: Stmt, cx: Ctx, tg: seq<Target>, hs: seq<nat>, pc: int,
          labels: set<(int, Level)>) returns (a: seq<Level>)
    requires s.ForIn? && LayS(s, cx).ok && Stands(cx, tg, hs, labels)
    ensures Fits(CodeS(s, cx, tg, pc), a, pc, Ground(cx.fins), Ground(cx.fins), labels)
    decreases Size(s) + FinSize(cx.fins), 0
  {
    hide LayS, CodeS, LayBlock, CodeBlock, CodeIterable, LenIterable, OkIterable, Fits, Poised, Promised, Handlers,
        Bind;
    var ForIn(x, it, b) := s;
    ForInEmits(x, it, b, cx, tg, pc);
    EachSizes(cx, x, b);
    var h := cx.next;
    var sc0 := cx.sc + [map[]];
    var cx1 := EachCtx(cx, x);
    var top := pc + 2 + LenIterable(it, sc0) + 3;
    var end := top + 4 + LayBlock(b, cx1).len + 1;
    var t := Target(end + 1, top);
    var d := Ground(cx.fins);
    EnterLoop(cx, tg, hs, labels, cx1.fins, t);
    var ic, bc := CodeIterable(it, sc0, pc + 2), CodeBlock(b, cx1, tg + [t], top + 4);
    var a1 := IterableFits(it, sc0, pc + 2, d, labels);
    var a2 := BlockFits(b, cx1, tg + [t], hs + [Handlers(cx.fins)], top + 4, labels + {(end + 1, d), (top, d)});
    a := EachFits(ic, a1, bc, a2, h, pc, d, labels);
  }

  /** A for-in loop from its parts. */
  lemma EachFits(ic: seq<Instr>, a1: seq<Level>, bc: seq<Instr>, a2: seq<Level>, h: nat, pc: int, d: Level,
          labels: set<(int, Level)>)
    returns (a: seq<Level>)
    requires
      var top := pc + 2 + |ic| + 3;
      var end := top + 4 + |bc| + 1;
      d.ops >= 0 && Fits(ic, a1, pc + 2, d, Up(d, 1), labels)
          && Fits(bc, a2, top + 4, d, d, labels + {(end + 1, d), (top, d)})
    ensures
      var top := pc + 2 + |ic| + 3;
      var end := top + 4 + |bc| + 1;
      Fits([Const(Null), Define(Local(h))] + ic + [Define(Local(h + 1)), Const(Null), Define(Local(h + 2))] +
           [IterNext(end, h + 1, h), Get(Local(h)), Set(Local(h + 2)), Pop] + bc
               + [Jump(top), IterClose(h + 1)], a, pc, d, d, labels)
  {
    var top := pc + 2 + |ic| + 3;
    var end := top + 4 + |bc| + 1;
    var inner := labels + {(end + 1, d), (top, d)};
    var all := inner + {(end, d)};
    var p1, p3 := [Const(Null), Define(Local(h))], [Define(Local(h + 1)), Const(Null), Define(Local(h + 2))];
    var p4, p6 := [IterNext(end, h + 1, h), Get(Local(h)), Set(Local(h + 2)), Pop], [Jump(top), IterClose(h + 1)];
    var b1, b3, b4, b6 := [d, Up(d, 1)], [Up(d, 1), d, Up(d, 1)], [d, d, Up(d, 1), Up(d, 1)], [d, d];
    hide Fits;
    EachPieces(p1, p3, p4, p6, h, pc, top, end, d, all);
    More(ic, a1, pc + 2, d, Up(d, 1), labels, all);
    More(bc, a2, top + 4, d, d, inner, all);
    EachJoin(p1, b1, ic, a1, p3, b3, p4, b4, bc, a2, p6, b6, pc, d, labels);
    a := b1 + a1 + b3 + b4 + a2 + b6;
  }

  lemma EachJoin(p1: seq<Instr>, b1: seq<Level>, ic: seq<Instr>, a1: seq<Level>, p3: seq<Instr>, b3: seq<Level>,
          p4: seq<Instr>, b4: seq<Level>,
                 bc: seq<Instr>, a2: seq<Level>, p6: seq<Instr>, b6: seq<Level>, pc: int, d: Level,
                     labels: set<(int, Level)>)
    requires |p1| == 2 && |p3| == 3 && |p4| == 4 && |p6| == 2 && b6 == [d, d]
    requires
      var top := pc + 2 + |ic| + 3;
      var end := top + 4 + |bc| + 1;
      var all := labels + {(end + 1, d), (top, d)} + {(end, d)};
      && Fits(p1, b1, pc, d, d, all) && Fits(ic, a1, pc + 2, d, Up(d, 1), all)
          && Fits(p3, b3, top - 3, Up(d, 1), d, all)
      && Fits(p4, b4, top, d, d, all) && Fits(bc, a2, top + 4, d, d, all) && Fits(p6, b6, end - 1, d, d, all)
    ensures Fits(p1 + ic + p3 + p4 + bc + p6, b1 + a1 + b3 + b4 + a2 + b6, pc, d, d, labels)
  {
    hide Fits;
    var top := pc + 2 + |ic| + 3;
    var end := top + 4 + |bc| + 1;
    var inner := labels + {(end + 1, d), (top, d)};
    Row(p1, b1, ic, a1, p3, b3, p4, b4, bc, a2, p6, b6, pc, d, d, Up(d, 1), d, d, d, d, inner + {(end, d)});
    var code, a := p1 + ic + p3 + p4 + bc + p6, b1 + a1 + b3 + b4 + a2 + b6;
    assert a[|a| - 1] == d;
    Settle(code, a, pc, d, d, inner, (end, d));
    SettleLoop(code, a, pc, d, labels, end + 1, top);
  }

  lemma EachPieces(p1: seq<Instr>, p3: seq<Instr>, p4: seq<Instr>, p6: seq<Instr>, h: nat, pc: int, top: int,
          end: int, d: Level,
                   labels: set<(int, Level)>)
    requires p1 == [Const(Null), Define(Local(h))] && p3 == [Define(Local(h + 1)), Const(Null), Define(Local(h + 2))]
    requires p4 == [IterNext(end, h + 1, h), Get(Local(h)), Set(Local(h + 2)), Pop]
        && p6 == [Jump(top), IterClose(h + 1)]
    requires d.ops >= 0 && (end, d) in labels && (top, d) in labels
    ensures Fits(p1, [d, Up(d, 1)], pc, d, d, labels) && Fits(p3, [Up(d, 1), d, Up(d, 1)], top - 3, Up(d, 1), d, labels)
    ensures Fits(p4, [d, d, Up(d, 1), Up(d, 1)], top, d, d, labels) && Fits(p6, [d, d], end - 1, d, d, labels)
  {}

  lemma {:induction false} FinallyFits(f: Option<Stmts>, cx: Ctx, tg: seq<Target>, hs: seq<nat>, pc: int,
          labels: set<(int, Level)>) returns (a: seq<Level>)
    requires LayFinally(f, cx).ok && (f.Some? ==> Stands(cx, tg, hs, labels))
    ensures Fits(CodeFinally(f, cx, tg, pc), a, pc, Ground(cx.fins), Ground(cx.fins), labels)
    decreases (if f.Some? then BlockSize(f.value) else 0) + FinSize(cx.fins), 2
  {
    hide LayBlock, CodeBlock, Fits, Stands, Handlers;
    if f.Some? {
      a := BlockFits(f.value, cx, tg, hs, pc, labels);
    } else {
      None(pc, Ground(cx.fins), labels);
      a := [];
    }
  }

  lemma {:induction false} CatchesFits(cs: Catches, f: Option<Stmts>, cx: Ctx, tg: seq<Target>, hs: seq<nat>, pc: int,
          end: int,
                                       labels: set<(int, Level)>) returns (a: seq<Level>)
    requires LayCatches(cs, f, cx).ok && Stands(cx, tg, hs, labels) && (end, Ground(cx.fins)) in labels
    ensures Fits(CodeCatches(cs, f, cx, tg, pc, end), a, pc, Ground(cx.fins), Ground(cx.fins), labels)
    decreases CatchesSize(cs) + (if f.Some? then BlockSize(f.value) else 0) + FinSize(cx.fins), 3
  {
    var d := Ground(cx.fins);
    match cs
    case NoCatch =>
      hide Fits, Stands, Handlers;
      None(pc, d, labels);
      a := [];
    case Catch(_, _, _, _) => a := CatchFits(cs, f, cx, tg, hs, pc, end, labels);
  }

  lemma {:induction false} CatchFits(cs: Catches, f: Option<Stmts>, cx: Ctx, tg: seq<Target>, hs: seq<nat>, pc: int,
          end: int,
                                     labels: set<(int, Level)>) returns (a: seq<Level>)
    requires cs.Catch? && LayCatches(cs, f, cx).ok && Stands(cx, tg, hs, labels) && (end, Ground(cx.fins)) in labels
    ensures Fits(CodeCatches(cs, f, cx, tg, pc, end), a, pc, Ground(cx.fins), Ground(cx.fins), labels)
    decreases CatchesSize(cs) + (if f.Some? then BlockSize(f.value) else 0) + FinSize(cx.fins), 2
  {
    hide LayList, CodeList, Fits, LayCatches, CodeCatches, Poised, Promised;
    var Catch(kind, name, b, rest) := cs;
    var d := Ground(cx.fins);
    CatchIs(kind, name, b, rest, f, cx, tg, pc, end);
    var cx1 := CatchCtx(cx, name, f);
    var l1 := LayList(b, cx1);
    var npc := pc + 1 + l1.len + 1;
    var cx2 := cx.(next := l1.next);
    var inner := labels + {(npc, d)};
    Wider(tg, hs, labels, inner);
    EnterTry(cx, tg, hs, inner, cx1.fins.top);
    var op := CatchClause(npc, kind, if name.None? then Option.None else Some(cx.next));
    One(op, pc, d, d, inner);
    var a2 := ListFits(b, cx1, tg, hs, pc + 1, inner);
    var a3 := CatchesFits(rest, f, cx2, tg, hs, npc, end, inner);
    a := ArmFits([op], [d], CodeList(b, cx1, tg, pc + 1), a2, end, CodeCatches(rest, f, cx2, tg, npc, end), a3, pc, d,
        labels);
  }

  lemma {:induction false} TryFits(s: Stmt, cx: Ctx, tg: seq<Target>, hs: seq<nat>, pc: int,
          labels: set<(int, Level)>) returns (a: seq<Level>)
    requires s.Try? && LayS(s, cx).ok && Stands(cx, tg, hs, labels)
    ensures Fits(CodeS(s, cx, tg, pc), a, pc, Ground(cx.fins), Ground(cx.fins), labels)
    decreases Size(s) + FinSize(cx.fins), 0
  {
    hide LayS, CodeS, LayBlock, CodeBlock, LayCatches, CodeCatches, LayFinally, CodeFinally, Fits, Poised, Promised;
    var Try(b, cs, f) := s;
    TryLays(b, cs, f, cx, pc);
    TryEmits(b, cs, f, cx, tg, pc);
    var cx1 := TryCtx(cx, f);
    var l1 := LayBlock(b, cx1);
    var cpc := pc + 1 + l1.len + 2;
    var cx2 := cx.(next := l1.next);
    var l2 := LayCatches(cs, f, cx2);
    var fpc := cpc + l2.len;
    var cx3 := cx.(next := l2.next);
    var l3 := LayFinally(f, cx3);
    var end := fpc + l3.len + 1;
    var cx4 := cx.(next := l3.next);
    var d := Ground(cx.fins);
    var inner := labels + {(end, d)} + {(cpc, d)};
    Wider(tg, hs, labels, inner);
    EnterTry(cx, tg, hs, inner, cx1.fins.top);
    var a1 := BlockFits(b, cx1, tg, hs, pc + 1, inner);
    var a2 := CatchesFits(cs, f, cx2, tg, hs, cpc, end, inner);
    var a3 := FinallyFits(f, cx3, tg, hs, fpc, inner);
    var a4 := FinallyFits(f, cx4, tg, hs, end, inner);
    a := GuardFits(CodeBlock(b, cx1, tg, pc + 1), a1, CodeCatches(cs, f, cx2, tg, cpc, end), a2,
                   CodeFinally(f, cx3, tg, fpc), a3, CodeFinally(f, cx4, tg, end), a4, pc, d, labels);
  }

  /** A try statement from its parts. */
  lemma GuardFits(bc: seq<Instr>, a1: seq<Level>, cc: seq<Instr>, a2: seq<Level>, fc: seq<Instr>, a3: seq<Level>,
                  gc: seq<Instr>, a4: seq<Level>, pc: int, d: Level, labels: set<(int, Level)>) returns (a: seq<Level>)
    requires
      var cpc := pc + 1 + |bc| + 2;
      var fpc := cpc + |cc|;
      var end := fpc + |fc| + 1;
      var inner := labels + {(end, d)} + {(cpc, d)};
      var up := d.(handlers := d.handlers + 1);
      && d.ops == 0 && Fits(bc, a1, pc + 1, up, up, inner) && Fits(cc, a2, cpc, d, d, inner)
      && Fits(fc, a3, fpc, d, d, inner) && Fits(gc, a4, end, d, d, inner)
    ensures
      var cpc := pc + 1 + |bc| + 2;
      var end := cpc + |cc| + |fc| + 1;
      Fits([PushHandler(cpc)] + bc + [PopHandler, Jump(end)] + cc + fc + [Rethrow] + gc, a, pc, d, d, labels)
  {
    hide Fits;
    var cpc := pc + 1 + |bc| + 2;
    var end := cpc + |cc| + |fc| + 1;
    var up := d.(handlers := d.handlers + 1);
    var outer := labels + {(end, d)};
    var inner := outer + {(cpc, d)};
    var p1, p2, p3 := [PushHandler(cpc)], [PopHandler, Jump(end)], [Rethrow];
    One(PushHandler(cpc), pc, d, up, inner);
    One(PopHandler, cpc - 2, up, d, inner);
    One(Jump(end), cpc - 1, d, d, inner);
    Two(PopHandler, Jump(end), cpc - 2, up, d, d, inner);
    One(Rethrow, end - 1, d, d, inner);
    Join(p1, [d], bc, a1, pc, d, up, up, inner);
    Join(p1 + bc, [d] + a1, p2, [up, d], pc, d, up, d, inner);
    Join(p1 + bc + p2, [d] + a1 + [up, d], cc, a2, pc, d, d, d, inner);
    Join(p1 + bc + p2 + cc, [d] + a1 + [up, d] + a2, fc, a3, pc, d, d, d, inner);
    Join(p1 + bc + p2 + cc + fc, [d] + a1 + [up, d] + a2 + a3, p3, [d], pc, d, d, d, inner);
    Join(p1 + bc + p2 + cc + fc + p3, [d] + a1 + [up, d] + a2 + a3 + [d], gc, a4, pc, d, d, d, inner);
    var code := p1 + bc + p2 + cc + fc + p3 + gc;
    a := [d] + a1 + [up, d] + a2 + a3 + [d] + a4;
    Lengths(bc, a1, pc + 1, up, up, inner);
    Lengths(cc, a2, cpc, d, d, inner);
    Lengths(fc, a3, cpc + |cc|, d, d, inner);
    Lengths(gc, a4, end, d, d, inner);
    GuardMarks(a1, a2, a3, a4, d, up);
    Settle(code, a, pc, d, d, outer, (cpc, d));
    Settle(code, a, pc, d, d, labels, (end, d));
  }

  lemma GuardMarks(a1: seq<Level>, a2: seq<Level>, a3: seq<Level>, a4: seq<Level>, d: Level, up: Level)
    requires Mark(a2, d, 0) == d && Mark(a3, d, 0) == d && Mark(a4, d, 0) == d
    ensures
      var a := [d] + a1 + [up, d] + a2 + a3 + [d] + a4;
      Mark(a, d, 1 + |a1| + 2) == d && Mark(a, d, 1 + |a1| + 2 + |a2| + |a3| + 1) == d
  {
    hide Mark;
    Single(d);
    Marks([d], a4, d, d);
    Marks(a3, [d] + a4, d, d);
    Marks(a2, a3 + ([d] + a4), d, d);
    Marks([d] + a1 + [up, d], a2 + (a3 + ([d] + a4)), d, d);
    Marks([d] + a1 + [up, d] + a2 + a3 + [d], a4, d, d);
    assert [d] + a1 + [up, d] + a2 + a3 + [d] + a4 == [d] + a1 + [up, d] + (a2 + (a3 + ([d] + a4)));
  }

  lemma {:induction false} WithFits(s: Stmt, cx: Ctx, tg: seq<Target>, hs: seq<nat>, pc: int,
          labels: set<(int, Level)>) returns (a: seq<Level>)
    requires s.With? && LayS(s, cx).ok && Stands(cx, tg, hs, labels)
    ensures Fits(CodeS(s, cx, tg, pc), a, pc, Ground(cx.fins), Ground(cx.fins), labels)
    decreases Size(s) + FinSize(cx.fins), 0
  {
    hide LayS, CodeS, LayBlock, CodeBlock, CodeE, LenE, OkE, Fits, Poised, Promised, Bind;
    var With(name, e, b) := s;
    WithEmits(name, e, b, cx, tg, pc);
    var sc0 := cx.sc + [map[]];
    var hpc := pc + LenE(e, sc0) + 4;
    var cx1 := WithCtx(cx, name);
    var catch := hpc + 1 + LayBlock(b, cx1).len + 4;
    var d := Ground(cx.fins);
    var inner := labels + {(catch + 3, d)} + {(catch, d)};
    Wider(tg, hs, labels, inner);
    EnterTry(cx, tg, hs, inner, cx1.fins.top);
    var a1 := ExprFits(e, sc0, pc, d, inner);
    var a2 := BlockFits(b, cx1, tg, hs, hpc + 1, inner);
    a := HeldFits(CodeE(e, sc0, pc), a1, name.None?, CodeBlock(b, cx1, tg, hpc + 1), a2, cx.next, pc, d, labels);
  }

  /** A with statement from its parts. */
  lemma HeldFits(ec: seq<Instr>, a1: seq<Level>, unnamed: bool, bc: seq<Instr>, a2: seq<Level>, h: nat, pc: int,
          d: Level,
                 labels: set<(int, Level)>) returns (a: seq<Level>)
    requires
      var catch := pc + |ec| + 5 + |bc| + 4;
      var inner := labels + {(catch + 3, d)} + {(catch, d)};
      var up := d.(handlers := d.handlers + 1);
      && d.ops == 0 && Fits(ec, a1, pc, d, Up(d, 1), inner) && Fits(bc, a2, pc + |ec| + 5, up, up, inner)
    ensures
      var catch := pc + |ec| + 5 + |bc| + 4;
      Fits(ec + [Define(Local(h)), Get(Local(h)), WithEnter, if unnamed then Instr.Pop else Define(Local(h + 1))] +
           [PushHandler(catch)] + bc + [PopHandler, Get(Local(h)), WithExit, Jump(catch + 3)] +
           [Get(Local(h)), WithExit, Rethrow], a, pc, d, d, labels)
  {
    hide Fits;
    var catch := pc + |ec| + 5 + |bc| + 4;
    var up := d.(handlers := d.handlers + 1);
    var inner := labels + {(catch + 3, d)} + {(catch, d)};
    assert (catch, d) in inner && (catch + 3, d) in inner;
    HeldStart(h, unnamed, pc + |ec|, catch, d, inner);
    HeldEnd(h, catch, d, inner);
    var p1 := [Define(Local(h)), Get(Local(h)), WithEnter, if unnamed then Instr.Pop else Define(Local(h + 1))];
    var b1, b2, b3, b4 := [Up(d, 1), d, Up(d, 1), Up(d, 1)], [d], [up, d, Up(d, 1), d], [d, Up(d, 1), d];
    HeldJoin(ec, a1, p1, b1, [PushHandler(catch)], b2, bc, a2, [PopHandler, Get(Local(h)), WithExit, Jump(catch + 3)],
        b3,
             [Get(Local(h)), WithExit, Rethrow], b4, pc, d, up, labels);
    a := a1 + b1 + b2 + a2 + b3 + b4;
  }

  lemma HeldJoin(ec: seq<Instr>, a1: seq<Level>, p1: seq<Instr>, b1: seq<Level>, p2: seq<Instr>, b2: seq<Level>,
          bc: seq<Instr>, a2: seq<Level>,
                 p3: seq<Instr>, b3: seq<Level>, p4: seq<Instr>, b4: seq<Level>, pc: int, d: Level, up: Level,
                     labels: set<(int, Level)>)
    requires |p1| == 4 && |p2| == 1 && |p3| == 4 && |p4| == 3
    requires
      var catch := pc + |ec| + 5 + |bc| + 4;
      var inner := labels + {(catch + 3, d)} + {(catch, d)};
      && Fits(ec, a1, pc, d, Up(d, 1), inner) && Fits(p1, b1, pc + |ec|, Up(d, 1), d, inner)
          && Fits(p2, b2, pc + |ec| + 4, d, up, inner)
      && Fits(bc, a2, pc + |ec| + 5, up, up, inner) && Fits(p3, b3, catch - 4, up, d, inner)
          && Fits(p4, b4, catch, d, d, inner)
    ensures Fits(ec + p1 + p2 + bc + p3 + p4, a1 + b1 + b2 + a2 + b3 + b4, pc, d, d, labels)
  {
    hide Fits, Mark;
    var catch := pc + |ec| + 5 + |bc| + 4;
    var outer := labels + {(catch + 3, d)};
    Row(ec, a1, p1, b1, p2, b2, bc, a2, p3, b3, p4, b4, pc, d, Up(d, 1), d, up, up, d, d, outer + {(catch, d)});
    var code, a := ec + p1 + p2 + bc + p3 + p4, a1 + b1 + b2 + a2 + b3 + b4;
    Settle(code, a, pc, d, d, outer, (catch, d));
    End(a, d);
    Settle(code, a, pc, d, d, labels, (catch + 3, d));
  }

  lemma End(a: seq<Level>, x: Level)
    ensures Mark(a, x, |a|) == x
  {}

  lemma HeldStart(h: nat, unnamed: bool, pc: int, catch: int, d: Level, labels: set<(int, Level)>)
    requires d.ops == 0 && (catch, d) in labels
    ensures Fits([Define(Local(h)), Get(Local(h)), WithEnter, if unnamed then Instr.Pop else Define(Local(h + 1))],
                 [Up(d, 1), d, Up(d, 1), Up(d, 1)], pc, Up(d, 1), d, labels)
    ensures Fits([PushHandler(catch)], [d], pc + 4, d, d.(handlers := d.handlers + 1), labels)
  {}

  lemma HeldEnd(h: nat, catch: int, d: Level, labels: set<(int, Level)>)
    requires d.ops >= 0 && (catch + 3, d) in labels
    ensures
      var up := d.(handlers := d.handlers + 1);
      && Fits([PopHandler, Get(Local(h)), WithExit, Jump(catch + 3)], [up, d, Up(d, 1), d], catch - 4, up, d, labels)
      && Fits([Get(Local(h)), WithExit, Rethrow], [d, Up(d, 1), d], catch, d, d, labels)
  {}

  // ----- leaving

  lemma {:induction false} LeaveFits(s: Stmt, cx: Ctx, tg: seq<Target>, hs: seq<nat>, pc: int,
          labels: set<(int, Level)>) returns (a: seq<Level>)
    requires (s.Break? || s.Continue?) && LayS(s, cx).ok && Stands(cx, tg, hs, labels)
    ensures Fits(CodeS(s, cx, tg, pc), a, pc, Ground(cx.fins), Ground(cx.fins), labels)
    decreases Size(s) + FinSize(cx.fins), 0
  {
    hide LayUnwind, CodeUnwind, Fits, FinsPoised, Handlers;
    var depth := TopLoop(cx.loops);
    var d, x := Ground(cx.fins), Ground(Cut(cx.fins, depth));
    a := UnwindFits(cx.fins, depth, s.Break?, cx.sc, cx.next, cx.loops, tg, hs, pc, labels);
    var uc := CodeUnwind(cx.fins, depth, s.Break?, cx.sc, cx.next, cx.loops, tg, pc);
    var op := Jump(if s.Break? then TopTarget(tg).brk else TopTarget(tg).cnt);
    One(op, pc + |uc|, x, d, labels);
    Join(uc, a, [op], [x], pc, d, x, d, labels);
    a := a + [x];
  }

  lemma {:induction false} ReturnFits(s: Stmt, cx: Ctx, tg: seq<Target>, hs: seq<nat>, pc: int,
          labels: set<(int, Level)>) returns (a: seq<Level>)
    requires s.Return? && LayS(s, cx).ok && Stands(cx, tg, hs, labels)
    ensures Fits(CodeS(s, cx, tg, pc), a, pc, Ground(cx.fins), Ground(cx.fins), labels)
    decreases Size(s) + FinSize(cx.fins), 0
  {
    hide LayUnwind, CodeUnwind, Fits, FinsPoised, OptCode, OptLen, OptOk, Promised;
    var d := Ground(cx.fins);
    var oc := OptCode(s.value, cx.sc, pc);
    var a1 := OptFits(s.value, cx.sc, pc, d, labels);
    if cx.fins.Bottom? {
      One(Instr.Return, pc + |oc|, Up(d, 1), d, labels);
      Join(oc, a1, [Instr.Return], [Up(d, 1)], pc, d, Up(d, 1), d, labels);
      a := a1 + [Up(d, 1)];
    } else {
      OptLenOf(s.value, cx.sc, pc);
      CutAll(cx.fins);
      var upc := pc + |oc| + 1;
      var op, slot, zero := Define(Local(cx.next)), Get(Local(cx.next)), Level(0, 0);
      var uc := CodeUnwind(cx.fins, 0, true, cx.sc, cx.next + 1, cx.loops, tg, upc);
      var a2 := UnwindFits(cx.fins, 0, true, cx.sc, cx.next + 1, cx.loops, tg, hs, upc, labels);
      One(op, upc - 1, Up(d, 1), d, labels);
      One(slot, upc + |uc|, zero, Up(zero, 1), labels);
      One(Instr.Return, upc + |uc| + 1, Up(zero, 1), d, labels);
      Two(slot, Instr.Return, upc + |uc|, zero, Up(zero, 1), d, labels);
      Join(oc, a1, [op], [Up(d, 1)], pc, d, Up(d, 1), d, labels);
      Join(oc + [op], a1 + [Up(d, 1)], uc, a2, pc, d, d, zero, labels);
      Join(oc + [op] + uc, a1 + [Up(d, 1)] + a2, [slot, Instr.Return], [zero, Up(zero, 1)], pc, d, zero, d, labels);
      a := a1 + [Up(d, 1)] + a2 + [zero, Up(zero, 1)];
    }
  }

  lemma CutAll(fins: Fins)
    ensures Cut(fins, 0) == Bottom
  {}

  lemma {:induction false} UnwindFits(fins: Fins, depth: nat, iters: bool, sc: Scopes, next: nat, loops: seq<nat>,
          tg: seq<Target>, hs: seq<nat>,
                                      pc: int, labels: set<(int, Level)>) returns (a: seq<Level>)
    requires LayUnwind(fins, depth, iters, sc, next, loops).ok && |hs| == |loops| && FinsPoised(fins, loops, hs)
        && Promised(tg, hs, labels)
    ensures Fits(CodeUnwind(fins, depth, iters, sc, next, loops, tg, pc), a, pc, Ground(fins),
        Ground(Cut(fins, depth)), labels)
    decreases FinSize(fins), 2
  {
    hide LayFin, CodeFin, Fits, Handlers, Promised;
    if Depth(fins) <= depth {
      None(pc, Ground(fins), labels);
      a := [];
    } else {
      var l1 := LayFin(fins.top, fins.rest, iters, sc, next, loops);
      var a1 := FinFits(fins.top, fins.rest, iters, sc, next, loops, tg, hs, pc, labels);
      RestPoised(fins, loops, hs);
      var a2 := UnwindFits(fins.rest, depth, iters, sc, l1.next, loops, tg, hs, pc + l1.len, labels);
      Join(CodeFin(fins.top, fins.rest, iters, sc, next, loops, tg, pc), a1,
           CodeUnwind(fins.rest, depth, iters, sc, l1.next, loops, tg, pc + l1.len), a2, pc,
           Ground(fins), Ground(fins.rest), Ground(Cut(fins, depth)), labels);
      a := a1 + a2;
    }
  }

  lemma RestPoised(fins: Fins, loops: seq<nat>, hs: seq<nat>)
    requires fins.On? && |hs| == |loops| && FinsPoised(fins, loops, hs)
    ensures FinsPoised(fins.rest, loops, hs)
  {
    var f := fins.top;
    if f.body.Some? { FinsLonger(fins.rest, loops[..f.loops], hs[..f.loops], loops, hs); }
  }

  lemma {:induction false} FinFits(f: Fin, rest: Fins, iters: bool, sc: Scopes, next: nat, loops: seq<nat>,
          tg: seq<Target>, hs: seq<nat>,
                                   pc: int, labels: set<(int, Level)>) returns (a: seq<Level>)
    requires LayFin(f, rest, iters, sc, next, loops).ok && |hs| == |loops| && FinsPoised(On(rest, f), loops, hs)
        && Promised(tg, hs, labels)
    ensures Fits(CodeFin(f, rest, iters, sc, next, loops, tg, pc), a, pc, Ground(On(rest, f)), Ground(rest), labels)
    decreases FinSize(rest) + 1 + (if f.body.Some? then BlockSize(f.body.value) else 0), 1
  {
    hide LayFinally, CodeFinally, Fits;
    var own := OwnCode(f, iters);
    var cx, tg1, hs1 := FinCtx(f, rest, sc, next, loops), Take(tg, f.loops), Take(hs, f.loops);
    var a1 := OwnFits(f, rest, iters, pc, labels);
    var a2 := FinallyFits(f.body, cx, tg1, hs1, pc + |own|, labels);
    Join(own, a1, CodeFinally(f.body, cx, tg1, pc + |own|), a2, pc, Ground(On(rest, f)), Ground(rest), Ground(rest),
        labels);
    a := a1 + a2;
  }

  lemma OwnFits(f: Fin, rest: Fins, iters: bool, pc: int, labels: set<(int, Level)>) returns (a: seq<Level>)
    ensures Fits(OwnCode(f, iters), a, pc, Ground(On(rest, f)), Ground(rest), labels)
  {
    hide Fits, Handlers;
    var e, x := Ground(On(rest, f)), Ground(rest);
    var c1 := if f.iter.Some? && iters then [IterClose(f.iter.value)] else [];
    var c2 := if f.popHandler then [PopHandler] else [];
    var c3 := if f.withSlot.Some? then [Get(Local(f.withSlot.value)), WithExit] else [];
    var a1 := if f.iter.Some? && iters then [e] else [];
    var a2 := if f.popHandler then [e] else [];
    var a3 := if f.withSlot.Some? then [x, Up(x, 1)] else [];
    OwnIter(f, iters, e, pc, labels);
    OwnHandler(f, rest, pc + |c1|, labels);
    OwnWith(f, x, pc + |c1| + |c2|, labels);
    a := Three(c1, a1, c2, a2, c3, a3, pc, e, e, x, x, labels);
  }

  lemma Three(c1: seq<Instr>, a1: seq<Level>, c2: seq<Instr>, a2: seq<Level>, c3: seq<Instr>, a3: seq<Level>, pc: int,
              e1: Level, e2: Level, e3: Level, x: Level, labels: set<(int, Level)>) returns (a: seq<Level>)
    requires Fits(c1, a1, pc, e1, e2, labels) && Fits(c2, a2, pc + |c1|, e2, e3, labels)
        && Fits(c3, a3, pc + |c1| + |c2|, e3, x, labels)
    ensures Fits(c1 + c2 + c3, a, pc, e1, x, labels)
  {
    hide Fits;
    Join(c1, a1, c2, a2, pc, e1, e2, e3, labels);
    Join(c1 + c2, a1 + a2, c3, a3, pc, e1, e3, x, labels);
    a := a1 + a2 + a3;
  }

  lemma OwnIter(f: Fin, iters: bool, e: Level, pc: int, labels: set<(int, Level)>)
    requires e.ops >= 0
    ensures if f.iter.Some? && iters then Fits([IterClose(f.iter.value)], [e], pc, e, e, labels)
        else Fits([], [], pc, e, e, labels)
  {}

  lemma OwnHandler(f: Fin, rest: Fins, pc: int, labels: set<(int, Level)>)
    ensures
      var e, x := Ground(On(rest, f)), Ground(rest);
      if f.popHandler then Fits([PopHandler], [e], pc, e, x, labels) else Fits([], [], pc, e, x, labels)
  {}

  lemma OwnWith(f: Fin, x: Level, pc: int, labels: set<(int, Level)>)
    requires x.ops >= 0
    ensures if f.withSlot.Some? then Fits([Get(Local(f.withSlot.value)), WithExit], [x, Up(x, 1)], pc, x, x, labels)
        else Fits([], [], pc, x, x, labels)
  {}

  // ----- functions

  /** The main result on balance: there is a level for every point of a compiled function
      such that every instruction finds its operands, every pop finds its handler, every
      step, jump and raised error leads to a point of that level, and a return leaves nothing
      but its value. */
  lemma FunctionFits(b: Stmts, sc: Scopes, next: nat, pc: int) returns (a: seq<Level>)
    requires LayBlock(b, Ctx(sc, next, Bottom, [])).ok
    ensures Fits(CodeFunction(b, sc, next, pc), a, pc, Level(0, 0), Level(0, 0), {})
  {
    hide LayBlock, CodeBlock, Fits;
    var cx := Ctx(sc, next, Bottom, []);
    var zero := Level(0, 0);
    var bc := CodeBlock(b, cx, [], pc);
    a := BlockFits(b, cx, [], [], pc, {});
    One(Const(Null), pc + |bc|, zero, Up(zero, 1), {});
    One(Instr.Return, pc + |bc| + 1, Up(zero, 1), zero, {});
    Two(Const(Null), Instr.Return, pc + |bc|, zero, Up(zero, 1), zero, {});
    Join(bc, a, [Const(Null), Instr.Return], [zero, Up(zero, 1)], pc, zero, zero, zero, {});
    a := a + [zero, Up(zero, 1)];
  }

  /** A machine that runs the function's code, with `base` operands of its callers below and
      no handler of theirs: the level of its position is the level of its stacks, and every
      handler leads to a point whose level has just the handlers below it. */
  ghost predicate OnLevel(st: State, a: seq<Level>, pc: int, base: nat) {
    && pc <= st.pc < pc + |a|
    && |st.stack| == base + a[st.pc - pc].ops >= base && |st.handlers| == a[st.pc - pc].handlers
    && forall j :: 0 <= j < |st.handlers| ==> Prepared(st.handlers[j], j, a, pc, base)
  }

  ghost predicate Prepared(h: Handler, j: nat, a: seq<Level>, pc: int, base: nat) {
    pc <= h.target < pc + |a| && a[h.target - pc] == Level(0, j) && h.depth == base
  }

  /** The code of a function with its levels; its targets lie strictly inside. */
  ghost predicate Levelled(code: seq<Instr>, f: seq<Instr>, a: seq<Level>, pc: int) {
    && At(code, pc, f) && Fits(f, a, pc, Level(0, 0), Level(0, 0), {}) && |f| > 0 && !Falls(f[|f| - 1])
    && forall k :: 0 <= k < |f| ==> TargetOf(f[k]).Some? ==> pc <= TargetOf(f[k]).value < pc + |f|
  }

  lemma Raised(st: State, a: seq<Level>, pc: int, base: nat)
    requires |st.stack| >= base && (forall j :: 0 <= j < |st.handlers| ==> Prepared(st.handlers[j], j, a, pc, base))
    ensures Unwind(st).Running? ==> OnLevel(Unwind(st).st, a, pc, base)
    ensures Unwind(st).Running? || Unwind(st) == Uncaught(st)
  {}

  /** On its level; or over, with both stacks as at the start, but for an error that nobody
      handled, which may leave operands. */
  ghost predicate Kept(c: Config, a: seq<Level>, pc: int, base: nat) {
    match c
    case Running(t) => OnLevel(t, a, pc, base)
    case Returned(_, t) => |t.stack| == base && t.handlers == []
    case Uncaught(t) => t.handlers == []
    case Stuck => true
  }

  /** One step keeps the machine on the levels, or ends the function. */
  lemma StepOnLevel(code: seq<Instr>, f: seq<Instr>, a: seq<Level>, pc: int, base: nat, st: State)
    requires Levelled(code, f, a, pc) && OnLevel(st, a, pc, base)
    ensures Kept(Step1(code, st), a, pc, base)
  {
    var k := st.pc - pc;
    var i := f[k];
    assert code[st.pc] == code[pc..pc + |f|][k] == i;
    assert Sound(f, a, pc, Level(0, 0), {}, k);
    assert Falls(i) ==> k + 1 < |a| && a[k + 1] == After(i, a[k]);
    Stepped(i, a, pc, base, st, k);
  }

  predicate AboutErrors(i: Instr) { i.PushHandler? || i.PopHandler? || i.CatchClause? || i.Rethrow? || i.Raise? }

  lemma Stepped(i: Instr, a: seq<Level>, pc: int, base: nat, st: State, k: nat)
    requires OnLevel(st, a, pc, base) && k == st.pc - pc && Allowed(i, a[k])
    requires Falls(i) ==> k + 1 < |a| && a[k + 1] == After(i, a[k])
    requires TargetOf(i).Some? ==> pc <= TargetOf(i).value < pc + |a| && a[TargetOf(i).value - pc] == Taken(i, a[k])
    ensures Kept(Exec(i, st), a, pc, base)
  {
    hide OnLevel, Exec, Kept;
    if AboutErrors(i) { SteppedError(i, a, pc, base, st, k); }
    else if TargetOf(i).Some? { SteppedJump(i, a, pc, base, st, k); }
    else { SteppedPlain(i, a, pc, base, st, k); }
  }

  lemma SteppedError(i: Instr, a: seq<Level>, pc: int, base: nat, st: State, k: nat)
    requires OnLevel(st, a, pc, base) && k == st.pc - pc && Allowed(i, a[k])
    requires Falls(i) ==> k + 1 < |a| && a[k + 1] == After(i, a[k])
    requires TargetOf(i).Some? ==> pc <= TargetOf(i).value < pc + |a| && a[TargetOf(i).value - pc] == Taken(i, a[k])
    requires AboutErrors(i)
    ensures Kept(Exec(i, st), a, pc, base)
  {
    if i.Raise? {
      SteppedRaise(i, a, pc, base, st, k);
    } else {
      Raised(st, a, pc, base);
    }
  }

  lemma SteppedRaise(i: Instr, a: seq<Level>, pc: int, base: nat, st: State, k: nat)
    requires OnLevel(st, a, pc, base) && k == st.pc - pc && Allowed(i, a[k])
    requires Falls(i) ==> k + 1 < |a| && a[k + 1] == After(i, a[k])
    requires TargetOf(i).Some? ==> pc <= TargetOf(i).value < pc + |a| && a[TargetOf(i).value - pc] == Taken(i, a[k])
    requires i.Raise?
    ensures Kept(Exec(i, st), a, pc, base)
  {
    var n := |st.stack|;
    Raised(st.(stack := st.stack[..n - 1]).(pend := Some(Thrown(st.stack[n - 1]))), a, pc, base);
  }

  lemma SteppedJump(i: Instr, a: seq<Level>, pc: int, base: nat, st: State, k: nat)
    requires OnLevel(st, a, pc, base) && k == st.pc - pc && Allowed(i, a[k])
    requires Falls(i) ==> k + 1 < |a| && a[k + 1] == After(i, a[k])
    requires TargetOf(i).Some? ==> pc <= TargetOf(i).value < pc + |a| && a[TargetOf(i).value - pc] == Taken(i, a[k])
    requires !AboutErrors(i) && TargetOf(i).Some?
    ensures Kept(Exec(i, st), a, pc, base)
  {
    Raised(st.(pend := Some(FAULT)), a, pc, base);
  }

  /** What an instruction that neither jumps nor has to do with errors makes of the stacks. */
  lemma ExecPlain(i: Instr, st: State)
    requires !AboutErrors(i) && TargetOf(i).None?
    ensures
      var c := Exec(i, st);
      || c == RaiseErr(st, FAULT) || c.Stuck?
      || (i.Return? && c.Returned? && c.st.handlers == st.handlers && |c.st.stack| == |st.stack| - 1)
      || (Falls(i) && c.Running? && c.st.pc == st.pc + 1 && c.st.handlers == st.handlers
          && |c.st.stack| == |st.stack| - Takes(i) + Leaves(i))
  {
    hide EvalBin, EvalIntBin, EvalUn, RangeIter, EachIter, Unwind;
  }

  lemma SteppedPlain(i: Instr, a: seq<Level>, pc: int, base: nat, st: State, k: nat)
    requires OnLevel(st, a, pc, base) && k == st.pc - pc && Allowed(i, a[k])
    requires Falls(i) ==> k + 1 < |a| && a[k + 1] == After(i, a[k])
    requires TargetOf(i).Some? ==> pc <= TargetOf(i).value < pc + |a| && a[TargetOf(i).value - pc] == Taken(i, a[k])
    requires !AboutErrors(i) && TargetOf(i).None?
    ensures Kept(Exec(i, st), a, pc, base)
  {
    hide Exec;
    ExecPlain(i, st);
    Raised(st.(pend := Some(FAULT)), a, pc, base);
  }

  /** For every run of a function, from its first instruction, and every number of steps:
      the depths of both stacks are those of the point where the machine stands; when it has
      stopped, both are as they were at the start, but for an error nobody handled. */
  lemma {:induction false} DepthOfPoint(code: seq<Instr>, f: seq<Instr>, a: seq<Level>, pc: int, st: State, n: nat)
    requires Levelled(code, f, a, pc) && st.pc == pc && st.handlers == []
    ensures Kept(Run(code, Running(st), n), a, pc, |st.stack|)
    decreases n
  {
    hide Levelled, OnLevel, Step1, Fits;
    if n == 0 {
      Starts(code, f, a, pc, st);
    } else {
      DepthOfPoint(code, f, a, pc, st, n - 1);
      RunTrans(code, Running(st), n - 1, 1);
      var c := Run(code, Running(st), n - 1);
      if c.Running? {
        StepOnLevel(code, f, a, pc, |st.stack|, c.st);
        assert Run(code, c, 1) == Run(code, Step1(code, c.st), 0);
      }
    }
  }

  lemma Starts(code: seq<Instr>, f: seq<Instr>, a: seq<Level>, pc: int, st: State)
    requires Levelled(code, f, a, pc) && st.pc == pc && st.handlers == []
    ensures OnLevel(st, a, pc, |st.stack|)
  {}

  /** Every compiled function has such levels. */
  lemma FunctionLevelled(code: seq<Instr>, b: Stmts, sc: Scopes, next: nat, pc: int) returns (a: seq<Level>)
    requires LayBlock(b, Ctx(sc, next, Bottom, [])).ok && At(code, pc, CodeFunction(b, sc, next, pc))
    ensures Levelled(code, CodeFunction(b, sc, next, pc), a, pc)
  {
    a := FunctionFits(b, sc, next, pc);
    FunctionClosed(b, sc, next, pc);
  }
}
