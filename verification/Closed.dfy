/** Emitted code is closed: every jump, handler and clause target of a compiled function lies
    in the function's own region, and none is left open. */
module Closed {
  import opened Syntax
  import opened Machine
  import opened ExprGen
  import opened StmtGen
  import opened Shapes
  import opened Emitter
  import opened StmtForms

  /** Where an instruction may send the machine, other than to the next one. */
  function TargetOf(i: Instr): Option<int> {
    match i
    case Jump(t) => Some(t)
    case JumpIfFalse(t) => Some(t)
    case JumpUnless(_, t) => Some(t)
    case JumpMod(_, t, _, _) => Some(t)
    case NullCoalesce(t) => Some(t)
    case IterNext(t, _, _) => Some(t)
    case PushHandler(t) => Some(t)
    case CatchClause(t, _, _) => Some(t)
    case _ => None
  }

  ghost predicate Inside(code: seq<Instr>, lo: int, hi: int) {
    forall k :: 0 <= k < |code| ==> TargetOf(code[k]).Some? ==> lo <= TargetOf(code[k]).value <= hi
  }

  ghost predicate TargetsIn(tg: seq<Target>, lo: int, hi: int) {
    forall k :: 0 <= k < |tg| ==> lo <= tg[k].brk <= hi && lo <= tg[k].cnt <= hi
  }

  lemma Join(a: seq<Instr>, b: seq<Instr>, lo: int, hi: int)
    requires Inside(a, lo, hi) && Inside(b, lo, hi)
    ensures Inside(a + b, lo, hi)
  {}

  lemma Push1(tg: seq<Target>, t: Target, lo: int, hi: int)
    requires TargetsIn(tg, lo, hi) && lo <= t.brk <= hi && lo <= t.cnt <= hi
    ensures TargetsIn(tg + [t], lo, hi)
  {}

  // ----- expressions

  lemma {:induction false} ExprClosed(e: Expr, sc: Scopes, pc: int, lo: int, hi: int)
    requires lo <= pc && pc + LenE(e, sc) <= hi
    ensures Inside(CodeE(e, sc, pc), lo, hi)
    decreases e, 1
  {
    hide CodeE, LenE, CodeCond, LenCond, Inside, StaticInt, Fold, SelfForm, OpCode;
    match e
    case IntLit(n) => LeafIs(e, sc, pc); Still(CodeE(e, sc, pc), lo, hi);
    case Lit(v) => LeafIs(e, sc, pc); Still(CodeE(e, sc, pc), lo, hi);
    case Var(x) => VarClosed(x, sc, pc, lo, hi);
    case Assign(x, f) => AssignClosed(x, f, sc, pc, lo, hi);
    case Post(x, inc) => PostClosed(x, inc, sc, pc, lo, hi);
    case Un(op, f) =>
      UnIs(op, f, sc, pc);
      ExprClosed(f, sc, pc, lo, hi);
      Still([Unary(op)], lo, hi);
      Join(CodeE(f, sc, pc), [Unary(op)], lo, hi);
    case Bin(op, l, r) =>
      if Fold(op, l, r).Some? {
        FoldIs(op, l, r, sc, pc);
        Still(CodeE(e, sc, pc), lo, hi);
      } else {
        BinIs(op, l, r, sc, pc);
        ExprClosed(l, sc, pc, lo, hi);
        ExprClosed(r, sc, pc + LenE(l, sc), lo, hi);
        var oc := OpCode(op, StaticInt(l, sc) && StaticInt(r, sc));
        OpClosed(op, StaticInt(l, sc) && StaticInt(r, sc), lo, hi);
        Join(CodeE(l, sc, pc), CodeE(r, sc, pc + LenE(l, sc)), lo, hi);
        Join(CodeE(l, sc, pc) + CodeE(r, sc, pc + LenE(l, sc)), oc, lo, hi);
      }
    case And(l, r) => ShortCircuitClosed(e, l, r, sc, pc, lo, hi);
    case Or(l, r) => ShortCircuitClosed(e, l, r, sc, pc, lo, hi);
    case Coalesce(l, r) => CoalesceClosed(l, r, sc, pc, lo, hi);
    case Ternary(c, t, f) => TernaryClosed(c, t, f, sc, pc, lo, hi);
  }

  lemma {:induction false} ShortCircuitClosed(e: Expr, l: Expr, r: Expr, sc: Scopes, pc: int, lo: int, hi: int)
    requires (e == And(l, r) || e == Or(l, r)) && lo <= pc && pc + LenE(e, sc) <= hi
    ensures Inside(CodeE(e, sc, pc), lo, hi)
    decreases e, 0
  {
    hide CodeE, LenE, Inside;
    var rpc := pc + LenE(l, sc) + if e.And? then 1 else 3;
    var no := rpc + LenE(r, sc) + 3;
    AndIs(l, r, sc, pc);
    OrIs(l, r, sc, pc);
    ExprClosed(l, sc, pc, lo, hi);
    ExprClosed(r, sc, rpc, lo, hi);
    var mid := if e.And? then [JumpIfFalse(no)] else [JumpIfFalse(rpc), Const(Bool(true)), Jump(no + 1)];
    var tail := [JumpIfFalse(no), Const(Bool(true)), Jump(no + 1), Const(Bool(false))];
    Small(mid, lo, hi);
    Small(tail, lo, hi);
    ShortClosed(CodeE(l, sc, pc), mid, CodeE(r, sc, rpc), tail, lo, hi);
  }

  lemma {:induction false} CoalesceClosed(l: Expr, r: Expr, sc: Scopes, pc: int, lo: int, hi: int)
    requires lo <= pc && pc + LenE(Coalesce(l, r), sc) <= hi
    ensures Inside(CodeE(Coalesce(l, r), sc, pc), lo, hi)
    decreases Coalesce(l, r), 0
  {
    hide CodeE, LenE, Inside;
    CoalesceIs(l, r, sc, pc);
    var rpc := pc + LenE(l, sc) + 1;
    var op := [NullCoalesce(rpc + LenE(r, sc))];
    ExprClosed(l, sc, pc, lo, hi);
    ExprClosed(r, sc, rpc, lo, hi);
    Small(op, lo, hi);
    Join(CodeE(l, sc, pc), op, lo, hi);
    Join(CodeE(l, sc, pc) + op, CodeE(r, sc, rpc), lo, hi);
  }

  lemma {:induction false} TernaryClosed(c: Expr, t: Expr, f: Expr, sc: Scopes, pc: int, lo: int, hi: int)
    requires lo <= pc && pc + LenE(Ternary(c, t, f), sc) <= hi
    ensures Inside(CodeE(Ternary(c, t, f), sc, pc), lo, hi)
    decreases Ternary(c, t, f), 0
  {
    hide CodeE, LenE, CodeCond, LenCond, Inside;
    TernaryIs(c, t, f, sc, pc);
    var tpc := pc + LenCond(c, sc);
    var fpc := tpc + LenE(t, sc) + 1;
    var op := [Jump(fpc + LenE(f, sc))];
    CondClosed(c, sc, pc, fpc, lo, hi);
    ExprClosed(t, sc, tpc, lo, hi);
    ExprClosed(f, sc, fpc, lo, hi);
    Small(op, lo, hi);
    Small([], lo, hi);
    ShortClosed(CodeCond(c, sc, pc, fpc), CodeE(t, sc, tpc), op, CodeE(f, sc, fpc), lo, hi);
  }

  /** A few instructions, looked at one by one. */
  lemma Small(code: seq<Instr>, lo: int, hi: int)
    requires forall k :: 0 <= k < |code| ==> TargetOf(code[k]).Some? ==> lo <= TargetOf(code[k]).value <= hi
    ensures Inside(code, lo, hi)
  {}

  /** Instructions without targets. */
  lemma Still(code: seq<Instr>, lo: int, hi: int)
    requires forall k :: 0 <= k < |code| ==> TargetOf(code[k]).None?
    ensures Inside(code, lo, hi)
  {}

  lemma OpClosed(op: BinOp, bothInt: bool, lo: int, hi: int)
    ensures Inside(OpCode(op, bothInt), lo, hi)
  {}

  lemma VarClosed(x: string, sc: Scopes, pc: int, lo: int, hi: int)
    ensures Inside(CodeE(Var(x), sc, pc), lo, hi)
  {}

  lemma PostClosed(x: string, inc: bool, sc: Scopes, pc: int, lo: int, hi: int)
    ensures Inside(CodeE(Post(x, inc), sc, pc), lo, hi)
  {}

  lemma {:induction false} AssignClosed(x: string, f: Expr, sc: Scopes, pc: int, lo: int, hi: int)
    requires lo <= pc && pc + LenE(Assign(x, f), sc) <= hi
    ensures Inside(CodeE(Assign(x, f), sc, pc), lo, hi)
    decreases f, 2
  {
    hide SelfForm;
    if !(IsIntVar(sc, x) && SelfForm(x, f, sc).Some?) {
      ExprClosed(f, sc, pc, lo, hi);
      Join(CodeE(f, sc, pc), [Set(RefOf(sc, x))], lo, hi);
    }
  }

  lemma ShortClosed(a: seq<Instr>, b: seq<Instr>, c: seq<Instr>, d: seq<Instr>, lo: int, hi: int)
    requires Inside(a, lo, hi) && Inside(c, lo, hi) && Inside(b, lo, hi) && Inside(d, lo, hi)
    ensures Inside(a + b + c + d, lo, hi)
  {
    Join(a, b, lo, hi);
    Join(a + b, c, lo, hi);
    Join(a + b + c, d, lo, hi);
  }

  lemma {:induction false} CondClosed(c: Expr, sc: Scopes, pc: int, no: int, lo: int, hi: int)
    requires lo <= pc && pc + LenCond(c, sc) <= hi && lo <= no <= hi
    ensures Inside(CodeCond(c, sc, pc, no), lo, hi)
    decreases c, 2
  {
    hide CodeE, LenE, StaticInt, FuseMod;
    if FuseMod(c, sc).Some? {
    } else if FusesCompare(c, sc) {
      ExprClosed(c.l, sc, pc, lo, hi);
      ExprClosed(c.r, sc, pc + LenE(c.l, sc), lo, hi);
    } else {
      ExprClosed(c, sc, pc, lo, hi);
    }
  }

  // ----- statements

  /** The fragment of code that starts at pc and has length n lies in the region, and so do
      the places where the enclosing loops end and continue. */
  ghost predicate Placed(cx: Ctx, tg: seq<Target>, pc: int, n: nat, lo: int, hi: int) {
    lo <= pc && pc + n <= hi && |tg| == |cx.loops| && TargetsIn(tg, lo, hi)
  }

  lemma OptClosed(e: Option<Expr>, sc: Scopes, pc: int, lo: int, hi: int)
    requires lo <= pc && pc + OptLen(e, sc) <= hi
    ensures Inside(OptCode(e, sc, pc), lo, hi)
  {
    hide CodeE, LenE;
    if e.Some? { ExprClosed(e.value, sc, pc, lo, hi); }
  }

  lemma {:induction false} StmtClosed(s: Stmt, cx: Ctx, tg: seq<Target>, pc: int, lo: int, hi: int)
    requires LayS(s, cx).ok && Placed(cx, tg, pc, LayS(s, cx).len, lo, hi)
    ensures Inside(CodeS(s, cx, tg, pc), lo, hi)
    decreases Size(s) + FinSize(cx.fins), 1
  {
    hide LayS, CodeS, Inside, TargetsIn, CodeE, LenE, OkE, OptCode, OptLen, OptOk;
    match s
    case Let(_, _, _) => LetClosed(s, cx, tg, pc, lo, hi);
    case Eval(e) => ConsumeClosed(s, cx, tg, pc, lo, hi);
    case Print(e) => ConsumeClosed(s, cx, tg, pc, lo, hi);
    case Throw(e) => ConsumeClosed(s, cx, tg, pc, lo, hi);
    case If(_, _, _, _) => IfClosed(s, cx, tg, pc, lo, hi);
    case While(c, b) => WhileClosed(s, cx, tg, pc, lo, hi);
    case For(_, _, _, _) => ForClosed(s, cx, tg, pc, lo, hi);
    case ForIn(_, _, _) => ForInClosed(s, cx, tg, pc, lo, hi);
    case Try(_, _, _) => TryClosed(s, cx, tg, pc, lo, hi);
    case With(_, _, _) => WithClosed(s, cx, tg, pc, lo, hi);
    case Break => LeaveClosed(s, cx, tg, pc, lo, hi);
    case Continue => LeaveClosed(s, cx, tg, pc, lo, hi);
    case Return(_) => ReturnClosed(s, cx, tg, pc, lo, hi);
  }

  lemma {:induction false} IfClosed(s: Stmt, cx: Ctx, tg: seq<Target>, pc: int, lo: int, hi: int)
    requires s.If? && LayS(s, cx).ok && Placed(cx, tg, pc, LayS(s, cx).len, lo, hi)
    ensures Inside(CodeS(s, cx, tg, pc), lo, hi)
    decreases Size(s) + FinSize(cx.fins), 0
  {
    hide LayS, CodeS, LayBlock, CodeBlock, LayElifs, CodeElifs, CodeCond, LenCond, OkE, Inside, TargetsIn;
    var If(c, b, es, a) := s;
    IfIs(c, b, es, a, cx, tg, pc);
    var tpc := pc + LenCond(c, cx.sc);
    var l1 := LayBlock(b, cx);
    var epc := tpc + l1.len + 1;
    var end := pc + LayS(s, cx).len;
    CondClosed(c, cx.sc, pc, epc, lo, hi);
    BlockClosed(b, cx, tg, tpc, lo, hi);
    ElifsClosed(es, a, cx.(next := l1.next), tg, epc, end, lo, hi);
    Small([Jump(end)], lo, hi);
    Arm(CodeCond(c, cx.sc, pc, epc), CodeBlock(b, cx, tg, tpc), [Jump(end)],
        CodeElifs(es, a, cx.(next := l1.next), tg, epc, end), lo, hi);
  }

  lemma Arm(a: seq<Instr>, b: seq<Instr>, c: seq<Instr>, d: seq<Instr>, lo: int, hi: int)
    requires Inside(a, lo, hi) && Inside(c, lo, hi) && Inside(b, lo, hi) && Inside(d, lo, hi)
    ensures Inside(a + b + c + d, lo, hi)
  {
    ShortClosed(a, b, c, d, lo, hi);
  }

  lemma LetClosed(s: Stmt, cx: Ctx, tg: seq<Target>, pc: int, lo: int, hi: int)
    requires s.Let? && Placed(cx, tg, pc, LayS(s, cx).len, lo, hi)
    ensures Inside(CodeS(s, cx, tg, pc), lo, hi)
  {
    hide OptCode, OptLen, OptOk, Inside;
    OptClosed(s.init, cx.sc, pc, lo, hi);
    Small([Define(Local(cx.next))], lo, hi);
    Join(OptCode(s.init, cx.sc, pc), [Define(Local(cx.next))], lo, hi);
  }

  lemma ConsumeClosed(s: Stmt, cx: Ctx, tg: seq<Target>, pc: int, lo: int, hi: int)
    requires (s.Eval? || s.Print? || s.Throw?) && Placed(cx, tg, pc, LayS(s, cx).len, lo, hi)
    ensures Inside(CodeS(s, cx, tg, pc), lo, hi)
  {
    hide LayS, CodeS, CodeE, LenE, OkE, Inside;
    ConsumeIs(s, cx, tg, pc);
    ExprClosed(s.e, cx.sc, pc, lo, hi);
    var op := if s.Eval? then Instr.Pop else if s.Print? then Println else Raise;
    Small([op], lo, hi);
    Join(CodeE(s.e, cx.sc, pc), [op], lo, hi);
  }

  lemma {:induction false} BlockClosed(b: Stmts, cx: Ctx, tg: seq<Target>, pc: int, lo: int, hi: int)
    requires LayBlock(b, cx).ok && Placed(cx, tg, pc, LayBlock(b, cx).len, lo, hi)
    ensures Inside(CodeBlock(b, cx, tg, pc), lo, hi)
    decreases BlockSize(b) + FinSize(cx.fins), 1
  {
    hide LayList, CodeList, Inside, TargetsIn;
    ListClosed(b, cx.(sc := cx.sc + [map[]]), tg, pc, lo, hi);
  }

  lemma {:induction false} ListClosed(b: Stmts, cx: Ctx, tg: seq<Target>, pc: int, lo: int, hi: int)
    requires LayList(b, cx).ok && Placed(cx, tg, pc, LayList(b, cx).len, lo, hi)
    ensures Inside(CodeList(b, cx, tg, pc), lo, hi)
    decreases BlockSize(b) + FinSize(cx.fins), 0
  {
    hide LayS, CodeS, Inside, TargetsIn;
    match b
    case Nil => Small([], lo, hi);
    case Cons(s, rest) =>
      var l := LayS(s, cx);
      StmtClosed(s, cx, tg, pc, lo, hi);
      ListClosed(rest, At0(cx, l), tg, pc + l.len, lo, hi);
      Join(CodeS(s, cx, tg, pc), CodeList(rest, At0(cx, l), tg, pc + l.len), lo, hi);
  }

  lemma {:induction false} ElifsClosed(es: Elifs, a: Option<Stmts>, cx: Ctx, tg: seq<Target>, pc: int, end: int,
          lo: int, hi: int)
    requires LayElifs(es, a, cx).ok && Placed(cx, tg, pc, LayElifs(es, a, cx).len, lo, hi) && lo <= end <= hi
    ensures Inside(CodeElifs(es, a, cx, tg, pc, end), lo, hi)
    decreases ElifsSize(es) + (if a.Some? then BlockSize(a.value) else 0) + FinSize(cx.fins), 2
  {
    match es
    case NoElif =>
      hide LayBlock, CodeBlock, Inside, TargetsIn;
      if a.Some? { BlockClosed(a.value, cx, tg, pc, lo, hi); } else { Small([], lo, hi); }
    case Elif(c, b, rest) =>
      hide LayBlock, CodeBlock, LayElifs, CodeElifs, CodeCond, LenCond, OkE, Inside, TargetsIn;
      ElifIs(c, b, rest, a, cx, tg, pc, end);
      var tpc := pc + LenCond(c, cx.sc);
      var l1 := LayBlock(b, cx);
      var epc := tpc + l1.len + 1;
      CondClosed(c, cx.sc, pc, epc, lo, hi);
      BlockClosed(b, cx, tg, tpc, lo, hi);
      ElifsClosed(rest, a, cx.(next := l1.next), tg, epc, end, lo, hi);
      Small([Jump(end)], lo, hi);
      Arm(CodeCond(c, cx.sc, pc, epc), CodeBlock(b, cx, tg, tpc), [Jump(end)],
          CodeElifs(rest, a, cx.(next := l1.next), tg, epc, end), lo, hi);
  }

  lemma {:induction false} WhileClosed(s: Stmt, cx: Ctx, tg: seq<Target>, pc: int, lo: int, hi: int)
    requires s.While? && LayS(s, cx).ok && Placed(cx, tg, pc, LayS(s, cx).len, lo, hi)
    ensures Inside(CodeS(s, cx, tg, pc), lo, hi)
    decreases Size(s) + FinSize(cx.fins), 0
  {
    hide LayS, CodeS, LayBlock, CodeBlock, CodeCond, LenCond, OkE, Inside, TargetsIn;
    WhileIs(s.c, s.body, cx, tg, pc);
    var bpc, end := pc + LenCond(s.c, cx.sc), pc + LayS(s, cx).len;
    var cx1, tg1 := cx.(loops := cx.loops + [Depth(cx.fins)]), tg + [Target(end, pc)];
    CondClosed(s.c, cx.sc, pc, end, lo, hi);
    Push1(tg, Target(end, pc), lo, hi);
    BlockClosed(s.body, cx1, tg1, bpc, lo, hi);
    Small([Jump(pc)], lo, hi);
    Join(CodeCond(s.c, cx.sc, pc, end), CodeBlock(s.body, cx1, tg1, bpc), lo, hi);
    Join(CodeCond(s.c, cx.sc, pc, end) + CodeBlock(s.body, cx1, tg1, bpc), [Jump(pc)], lo, hi);
  }

  lemma {:induction false} ForClosed(s: Stmt, cx: Ctx, tg: seq<Target>, pc: int, lo: int, hi: int)
    requires s.For? && LayS(s, cx).ok && Placed(cx, tg, pc, LayS(s, cx).len, lo, hi)
    ensures Inside(CodeS(s, cx, tg, pc), lo, hi)
    decreases Size(s) + FinSize(cx.fins), 0
  {
    hide LayS, CodeS, LayBlock, CodeBlock, CodeCond, LenCond, OkE, Inside, TargetsIn, LayOpt, CodeOpt, UpdateLen,
        UpdateCode, OptOk;
    var For(first, c, u, b) := s;
    ForLays(first, c, u, b, cx, pc);
    ForEmits(first, c, u, b, cx, tg, pc);
    var cx0 := cx.(sc := cx.sc + [map[]]);
    var l0 := LayOpt(first, cx0);
    var cx1 := At0(cx0, l0);
    var cx2 := cx1.(loops := cx.loops + [Depth(cx.fins)]);
    var top := pc + l0.len;
    var bpc := top + (if c.None? then 0 else LenCond(c.value, l0.sc));
    var upc := bpc + LayBlock(b, cx2).len;
    var end := pc + LayS(s, cx).len;
    var fc := CodeOpt(first, cx0, tg, pc);
    OptStmtClosed(first, cx0, tg, pc, lo, hi);
    var cc := if c.None? then [] else CodeCond(c.value, l0.sc, top, end);
    if c.Some? { CondClosed(c.value, l0.sc, top, end, lo, hi); } else { Small([], lo, hi); }
    Push1(tg, Target(end, upc), lo, hi);
    BlockClosed(b, cx2, tg + [Target(end, upc)], bpc, lo, hi);
    UpdateClosed(u, l0.sc, upc, lo, hi);
    Small([Jump(top)], lo, hi);
    var bc, uc := CodeBlock(b, cx2, tg + [Target(end, upc)], bpc), UpdateCode(u, l0.sc, upc);
    Arm(fc, cc, bc, uc, lo, hi);
    Join(fc + cc + bc + uc, [Jump(top)], lo, hi);
  }

  lemma {:induction false} OptStmtClosed(first: Option<Simple>, cx: Ctx, tg: seq<Target>, pc: int, lo: int, hi: int)
    requires LayOpt(first, cx).ok && Placed(cx, tg, pc, LayOpt(first, cx).len, lo, hi)
    ensures Inside(CodeOpt(first, cx, tg, pc), lo, hi)
    decreases 1 + FinSize(cx.fins), 2
  {
    hide LayS, CodeS, Inside, TargetsIn;
    if first.Some? { StmtClosed(Semantics.AsStmt(first.value), cx, tg, pc, lo, hi); } else { Small([], lo, hi); }
  }

  lemma UpdateClosed(u: Option<Expr>, sc: Scopes, pc: int, lo: int, hi: int)
    requires lo <= pc && pc + UpdateLen(u, sc) <= hi
    ensures Inside(UpdateCode(u, sc, pc), lo, hi)
  {
    hide CodeE, LenE, Inside;
    Small([], lo, hi);
    if u.Some? {
      ExprClosed(u.value, sc, pc, lo, hi);
      Small([Instr.Pop], lo, hi);
      Join(CodeE(u.value, sc, pc), [Instr.Pop], lo, hi);
    }
  }

  lemma IterableClosed(it: Iterable, sc: Scopes, pc: int, lo: int, hi: int)
    requires lo <= pc && pc + LenIterable(it, sc) <= hi
    ensures Inside(CodeIterable(it, sc, pc), lo, hi)
  {
    hide CodeE, LenE, OkE, Inside;
    match it
    case Each(e) =>
      ExprClosed(e, sc, pc, lo, hi);
      Small([IterInit], lo, hi);
      Join(CodeE(e, sc, pc), [IterInit], lo, hi);
    case Range(a, b, c, ex) =>
      var ae, be, ce := RangePart(a, IntLit(0)), RangePart(b, Lit(Null)), RangePart(c, IntLit(1));
      RangeIs(a, b, c, ex, sc, pc);
      ExprClosed(ae, sc, pc, lo, hi);
      ExprClosed(be, sc, pc + LenE(ae, sc), lo, hi);
      ExprClosed(ce, sc, pc + LenE(ae, sc) + LenE(be, sc), lo, hi);
      Small([ForRangeIter(ex)], lo, hi);
      Arm(CodeE(ae, sc, pc), CodeE(be, sc, pc + LenE(ae, sc)), CodeE(ce, sc, pc + LenE(ae, sc) + LenE(be, sc)),
          [ForRangeIter(ex)], lo, hi);
  }

  lemma {:induction false} ForInClosed(s: Stmt, cx: Ctx, tg: seq<Target>, pc: int, lo: int, hi: int)
    requires s.ForIn? && LayS(s, cx).ok && Placed(cx, tg, pc, LayS(s, cx).len, lo, hi)
    ensures Inside(CodeS(s, cx, tg, pc), lo, hi)
    decreases Size(s) + FinSize(cx.fins), 0
  {
    hide LayS, CodeS, LayBlock, CodeBlock, CodeIterable, LenIterable, OkIterable, Inside, TargetsIn, EachCtx, Bind;
    var ForIn(x, it, b) := s;
    ForInEmits(x, it, b, cx, tg, pc);
    EachSizes(cx, x, b);
    var h := cx.next;
    var sc0 := cx.sc + [map[]];
    var cx1 := EachCtx(cx, x);
    var top := pc + 2 + LenIterable(it, sc0) + 3;
    var end := top + 4 + LayBlock(b, cx1).len + 1;
    IterableClosed(it, sc0, pc + 2, lo, hi);
    Push1(tg, Target(end + 1, top), lo, hi);
    BlockClosed(b, cx1, tg + [Target(end + 1, top)], top + 4, lo, hi);
    var p1, p3 := [Const(Null), Define(Local(h))], [Define(Local(h + 1)), Const(Null), Define(Local(h + 2))];
    var p4, p6 := [IterNext(end, h + 1, h), Get(Local(h)), Set(Local(h + 2)), Pop], [Jump(top), IterClose(h + 1)];
    Small(p1, lo, hi);
    Small(p3, lo, hi);
    Small(p4, lo, hi);
    Small(p6, lo, hi);
    var ic, bc := CodeIterable(it, sc0, pc + 2), CodeBlock(b, cx1, tg + [Target(end + 1, top)], top + 4);
    Arm(p1, ic, p3, p4, lo, hi);
    Join(p1 + ic + p3 + p4, bc, lo, hi);
    Join(p1 + ic + p3 + p4 + bc, p6, lo, hi);
  }

  lemma EachSizes(cx: Ctx, x: string, b: Stmts)
    ensures BlockSize(b) + FinSize(EachCtx(cx, x).fins) < Size(ForIn(x, Iterable.Each(IntLit(0)), b)) + FinSize(cx.fins)
    ensures |EachCtx(cx, x).loops| == |cx.loops| + 1
  {}

  lemma {:induction false} FinallyClosed(f: Option<Stmts>, cx: Ctx, tg: seq<Target>, pc: int, lo: int, hi: int)
    requires LayFinally(f, cx).ok && Placed(cx, tg, pc, LayFinally(f, cx).len, lo, hi)
    ensures Inside(CodeFinally(f, cx, tg, pc), lo, hi)
    decreases (if f.Some? then BlockSize(f.value) else 0) + FinSize(cx.fins), 2
  {
    hide LayBlock, CodeBlock, Inside, TargetsIn;
    if f.Some? { BlockClosed(f.value, cx, tg, pc, lo, hi); } else { Small([], lo, hi); }
  }

  lemma {:induction false} CatchesClosed(cs: Catches, f: Option<Stmts>, cx: Ctx, tg: seq<Target>, pc: int, end: int,
          lo: int, hi: int)
    requires LayCatches(cs, f, cx).ok && Placed(cx, tg, pc, LayCatches(cs, f, cx).len, lo, hi) && lo <= end <= hi
    ensures Inside(CodeCatches(cs, f, cx, tg, pc, end), lo, hi)
    decreases CatchesSize(cs) + (if f.Some? then BlockSize(f.value) else 0) + FinSize(cx.fins), 3
  {
    hide LayList, CodeList, Inside, TargetsIn;
    match cs
    case NoCatch => Small([], lo, hi);
    case Catch(kind, name, b, rest) =>
      hide LayCatches, CodeCatches;
      CatchIs(kind, name, b, rest, f, cx, tg, pc, end);
      var cx1 := CatchCtx(cx, name, f);
      var l1 := LayList(b, cx1);
      var npc := pc + 1 + l1.len + 1;
      var cx2 := cx.(next := l1.next);
      var op := [CatchClause(npc, kind, if name.None? then None else Some(cx.next))];
      ListClosed(b, cx1, tg, pc + 1, lo, hi);
      CatchesClosed(rest, f, cx2, tg, npc, end, lo, hi);
      Small(op, lo, hi);
      Small([Jump(end)], lo, hi);
      Arm(op, CodeList(b, cx1, tg, pc + 1), [Jump(end)], CodeCatches(rest, f, cx2, tg, npc, end), lo, hi);
  }

  lemma {:induction false} TryClosed(s: Stmt, cx: Ctx, tg: seq<Target>, pc: int, lo: int, hi: int)
    requires s.Try? && LayS(s, cx).ok && Placed(cx, tg, pc, LayS(s, cx).len, lo, hi)
    ensures Inside(CodeS(s, cx, tg, pc), lo, hi)
    decreases Size(s) + FinSize(cx.fins), 0
  {
    hide LayS, CodeS, LayBlock, CodeBlock, LayCatches, CodeCatches, LayFinally, CodeFinally, Inside, TargetsIn;
    var Try(b, cs, f) := s;
    TryLays(b, cs, f, cx, pc);
    TryEmits(b, cs, f, cx, tg, pc);
    var l1 := LayBlock(b, TryCtx(cx, f));
    var cpc := pc + 1 + l1.len + 2;
    var cx2 := cx.(next := l1.next);
    var l2 := LayCatches(cs, f, cx2);
    var fpc := cpc + l2.len;
    var cx3 := cx.(next := l2.next);
    var l3 := LayFinally(f, cx3);
    var end := fpc + l3.len + 1;
    var cx4 := cx.(next := l3.next);
    BlockClosed(b, TryCtx(cx, f), tg, pc + 1, lo, hi);
    CatchesClosed(cs, f, cx2, tg, cpc, end, lo, hi);
    FinallyClosed(f, cx3, tg, fpc, lo, hi);
    FinallyClosed(f, cx4, tg, end, lo, hi);
    Small([PushHandler(cpc)], lo, hi);
    Small([PopHandler, Jump(end)], lo, hi);
    Small([Rethrow], lo, hi);
    var bc, cc := CodeBlock(b, TryCtx(cx, f), tg, pc + 1), CodeCatches(cs, f, cx2, tg, cpc, end);
    var fc, gc := CodeFinally(f, cx3, tg, fpc), CodeFinally(f, cx4, tg, end);
    Arm([PushHandler(cpc)], bc, [PopHandler, Jump(end)], cc, lo, hi);
    Arm([PushHandler(cpc)] + bc + [PopHandler, Jump(end)] + cc, fc, [Rethrow], gc, lo, hi);
  }

  lemma {:induction false} WithClosed(s: Stmt, cx: Ctx, tg: seq<Target>, pc: int, lo: int, hi: int)
    requires s.With? && LayS(s, cx).ok && Placed(cx, tg, pc, LayS(s, cx).len, lo, hi)
    ensures Inside(CodeS(s, cx, tg, pc), lo, hi)
    decreases Size(s) + FinSize(cx.fins), 0
  {
    hide LayS, CodeS, LayBlock, CodeBlock, CodeE, LenE, OkE, Inside, TargetsIn;
    var With(name, e, b) := s;
    WithEmits(name, e, b, cx, tg, pc);
    var sc0 := cx.sc + [map[]];
    var hpc := pc + LenE(e, sc0) + 4;
    var cx1 := WithCtx(cx, name);
    var catch := hpc + 1 + LayBlock(b, cx1).len + 4;
    var h := cx.next;
    var a := [Define(Local(h)), Get(Local(h)), WithEnter, if name.None? then Instr.Pop else Define(Local(h + 1))];
    var z, y := [PopHandler, Get(Local(h)), WithExit, Jump(catch + 3)], [Get(Local(h)), WithExit, Rethrow];
    ExprClosed(e, sc0, pc, lo, hi);
    BlockClosed(b, cx1, tg, hpc + 1, lo, hi);
    Small(a, lo, hi);
    Small([PushHandler(catch)], lo, hi);
    Small(z, lo, hi);
    Small(y, lo, hi);
    var ec, bc := CodeE(e, sc0, pc), CodeBlock(b, cx1, tg, hpc + 1);
    Arm(ec, a, [PushHandler(catch)], bc, lo, hi);
    Join(ec + a + [PushHandler(catch)] + bc, z, lo, hi);
    Join(ec + a + [PushHandler(catch)] + bc + z, y, lo, hi);
  }

  lemma {:induction false} LeaveClosed(s: Stmt, cx: Ctx, tg: seq<Target>, pc: int, lo: int, hi: int)
    requires (s.Break? || s.Continue?) && LayS(s, cx).ok && Placed(cx, tg, pc, LayS(s, cx).len, lo, hi)
    ensures Inside(CodeS(s, cx, tg, pc), lo, hi)
    decreases Size(s) + FinSize(cx.fins), 0
  {
    hide LayUnwind, CodeUnwind, Inside;
    var d := TopLoop(cx.loops);
    UnwindClosed(cx.fins, d, s.Break?, cx.sc, cx.next, cx.loops, tg, pc, lo, hi);
    var op := [Jump(if s.Break? then TopTarget(tg).brk else TopTarget(tg).cnt)];
    Small(op, lo, hi);
    Join(CodeUnwind(cx.fins, d, s.Break?, cx.sc, cx.next, cx.loops, tg, pc), op, lo, hi);
  }

  lemma {:induction false} ReturnClosed(s: Stmt, cx: Ctx, tg: seq<Target>, pc: int, lo: int, hi: int)
    requires s.Return? && LayS(s, cx).ok && Placed(cx, tg, pc, LayS(s, cx).len, lo, hi)
    ensures Inside(CodeS(s, cx, tg, pc), lo, hi)
    decreases Size(s) + FinSize(cx.fins), 0
  {
    hide LayUnwind, CodeUnwind, Inside, OptCode, OptLen, OptOk, TargetsIn;
    var oc := OptCode(s.value, cx.sc, pc);
    OptLenOf(s.value, cx.sc, pc);
    OptClosed(s.value, cx.sc, pc, lo, hi);
    Small([Instr.Return], lo, hi);
    Small([Define(Local(cx.next))], lo, hi);
    var last := [Get(Local(cx.next)), Instr.Return];
    Small(last, lo, hi);
    if cx.fins.Bottom? {
      Join(oc, [Instr.Return], lo, hi);
    } else {
      var upc := pc + OptLen(s.value, cx.sc) + 1;
      UnwindClosed(cx.fins, 0, true, cx.sc, cx.next + 1, cx.loops, tg, upc, lo, hi);
      Arm(oc, [Define(Local(cx.next))], CodeUnwind(cx.fins, 0, true, cx.sc, cx.next + 1, cx.loops, tg, upc), last, lo,
          hi);
    }
  }

  lemma {:induction false} UnwindClosed(fins: Fins, depth: nat, iters: bool, sc: Scopes, next: nat, loops: seq<nat>,
          tg: seq<Target>,
                                        pc: int, lo: int, hi: int)
    requires
      var l := LayUnwind(fins, depth, iters, sc, next, loops);
      l.ok && lo <= pc && pc + l.len <= hi && |tg| == |loops| && TargetsIn(tg, lo, hi)
    ensures Inside(CodeUnwind(fins, depth, iters, sc, next, loops, tg, pc), lo, hi)
    decreases FinSize(fins), 2
  {
    hide LayFin, CodeFin, Inside, TargetsIn;
    if Depth(fins) <= depth {
      Small([], lo, hi);
    } else {
      var l1 := LayFin(fins.top, fins.rest, iters, sc, next, loops);
      FinClosed(fins.top, fins.rest, iters, sc, next, loops, tg, pc, lo, hi);
      UnwindClosed(fins.rest, depth, iters, sc, l1.next, loops, tg, pc + l1.len, lo, hi);
      Join(CodeFin(fins.top, fins.rest, iters, sc, next, loops, tg, pc),
           CodeUnwind(fins.rest, depth, iters, sc, l1.next, loops, tg, pc + l1.len), lo, hi);
    }
  }

  lemma {:induction false} FinClosed(f: Fin, rest: Fins, iters: bool, sc: Scopes, next: nat, loops: seq<nat>,
          tg: seq<Target>,
                                     pc: int, lo: int, hi: int)
    requires
      var l := LayFin(f, rest, iters, sc, next, loops);
      l.ok && lo <= pc && pc + l.len <= hi && |tg| == |loops| && TargetsIn(tg, lo, hi)
    ensures Inside(CodeFin(f, rest, iters, sc, next, loops, tg, pc), lo, hi)
    decreases FinSize(rest) + 1 + (if f.body.Some? then BlockSize(f.body.value) else 0), 1
  {
    hide LayFinally, CodeFinally;
    var own := OwnCode(f, iters);
    Small(own, lo, hi);
    OwnLen(f, iters);
    FinallyClosed(f.body, FinCtx(f, rest, sc, next, loops), Take(tg, f.loops), pc + |own|, lo, hi);
    Join(own, CodeFinally(f.body, FinCtx(f, rest, sc, next, loops), Take(tg, f.loops), pc + |own|), lo, hi);
  }

  /** A compiled function is closed: with no loop around it there is no way out but return, and
      every target is an instruction of its own. */
  lemma FunctionClosed(b: Stmts, sc: Scopes, next: nat, pc: int)
    requires LayBlock(b, Ctx(sc, next, Bottom, [])).ok
    ensures
      var f := CodeFunction(b, sc, next, pc);
      forall k :: 0 <= k < |f| ==> TargetOf(f[k]).Some? ==> pc <= TargetOf(f[k]).value < pc + |f|
  {
    hide LayBlock, CodeBlock, TargetOf;
    var cx := Ctx(sc, next, Bottom, []);
    var bc := CodeBlock(b, cx, [], pc);
    BlockClosed(b, cx, [], pc, pc, pc + |bc|);
    var f := CodeFunction(b, sc, next, pc);
    forall k | 0 <= k < |f| ensures TargetOf(f[k]).Some? ==> pc <= TargetOf(f[k]).value < pc + |f| {
      if k < |bc| { assert f[k] == bc[k]; } else { NoTarget(); assert f[k] in {Const(Null), Instr.Return}; }
    }
  }

  lemma NoTarget()
    ensures TargetOf(Const(Null)).None? && TargetOf(Instr.Return).None?
  {}

  /** In particular no jump of an accepted function is still open. */
  lemma NothingOpen(b: Stmts, sc: Scopes, next: nat, pc: nat, k: nat)
    requires LayBlock(b, Ctx(sc, next, Bottom, [])).ok && k < |CodeFunction(b, sc, next, pc)|
    ensures TargetOf(CodeFunction(b, sc, next, pc)[k]) != Some(OPEN)
  {
    hide CodeFunction, LayBlock;
    FunctionClosed(b, sc, next, pc);
  }
}
