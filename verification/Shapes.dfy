/** What the definitions of the emitted code say, one form of expression or statement at a
    time: the pieces, where they stand and how long they are. */
module Shapes {
  import opened Syntax
  import opened Machine
  import opened ExprGen
  import opened StmtGen

  lemma LeafIs(e: Expr, sc: Scopes, pc: int)
    requires e.IntLit? || e.Lit?
    ensures var v := if e.IntLit? then Int(e.n) else e.v;
            CodeE(e, sc, pc) == [Const(v)] && LenE(e, sc) == 1
  {}

  lemma FoldIs(op: BinOp, l: Expr, r: Expr, sc: Scopes, pc: int)
    requires Fold(op, l, r).Some?
    ensures var v := Fold(op, l, r).value;
            CodeE(Bin(op, l, r), sc, pc) == [Folded(v)] && LenE(Bin(op, l, r), sc) == 1
  {}

  lemma UnIs(op: UnOp, f: Expr, sc: Scopes, pc: int)
    ensures CodeE(Un(op, f), sc, pc) == CodeE(f, sc, pc) + [Unary(op)]
    ensures LenE(Un(op, f), sc) == LenE(f, sc) + 1 == |CodeE(f, sc, pc)| + 1
  {}

  lemma BinIs(op: BinOp, l: Expr, r: Expr, sc: Scopes, pc: int)
    requires Fold(op, l, r).None?
    ensures
      var oc := OpCode(op, StaticInt(l, sc) && StaticInt(r, sc));
      CodeE(Bin(op, l, r), sc, pc) == CodeE(l, sc, pc) + CodeE(r, sc, pc + LenE(l, sc)) + oc &&
      LenE(Bin(op, l, r), sc) == LenE(l, sc) + LenE(r, sc) + |oc|
    ensures |CodeE(l, sc, pc)| == LenE(l, sc) && |CodeE(r, sc, pc + LenE(l, sc))| == LenE(r, sc)
  {}

  lemma AndIs(l: Expr, r: Expr, sc: Scopes, pc: int)
    ensures
      var rpc := pc + LenE(l, sc) + 1;
      var no := rpc + LenE(r, sc) + 3;
      CodeE(And(l, r), sc, pc) == CodeE(l, sc, pc) + [JumpIfFalse(no)] + CodeE(r, sc, rpc) +
        [JumpIfFalse(no), Const(Bool(true)), Jump(no + 1), Const(Bool(false))]
      && |CodeE(l, sc, pc)| == LenE(l, sc) && |CodeE(r, sc, rpc)| == LenE(r, sc)
      && LenE(And(l, r), sc) == no + 1 - pc
  {
    hide CodeCond, LenCond, OkE;
  }

  lemma OrIs(l: Expr, r: Expr, sc: Scopes, pc: int)
    ensures
      var rpc := pc + LenE(l, sc) + 3;
      var no := rpc + LenE(r, sc) + 3;
      CodeE(Or(l, r), sc, pc) == CodeE(l, sc, pc) + [JumpIfFalse(rpc), Const(Bool(true)), Jump(no + 1)]
          + CodeE(r, sc, rpc) +
        [JumpIfFalse(no), Const(Bool(true)), Jump(no + 1), Const(Bool(false))]
      && |CodeE(l, sc, pc)| == LenE(l, sc) && |CodeE(r, sc, rpc)| == LenE(r, sc)
      && LenE(Or(l, r), sc) == no + 1 - pc
  {
    hide CodeCond, LenCond, OkE;
  }

  lemma CoalesceIs(l: Expr, r: Expr, sc: Scopes, pc: int)
    ensures
      var rpc := pc + LenE(l, sc) + 1;
      CodeE(Coalesce(l, r), sc, pc) == CodeE(l, sc, pc) + [NullCoalesce(rpc + LenE(r, sc))] + CodeE(r, sc, rpc)
      && |CodeE(l, sc, pc)| == LenE(l, sc) && |CodeE(r, sc, rpc)| == LenE(r, sc)
      && LenE(Coalesce(l, r), sc) == LenE(l, sc) + 1 + LenE(r, sc)
  {
    hide CodeCond, LenCond, OkE;
  }

  lemma TernaryIs(c: Expr, a: Expr, b: Expr, sc: Scopes, pc: int)
    ensures
      var tpc := pc + LenCond(c, sc);
      var fpc := tpc + LenE(a, sc) + 1;
      CodeE(Ternary(c, a, b), sc, pc) ==
        CodeCond(c, sc, pc, fpc) + CodeE(a, sc, tpc) + [Jump(fpc + LenE(b, sc))] + CodeE(b, sc, fpc)
      && |CodeCond(c, sc, pc, fpc)| == LenCond(c, sc) && |CodeE(a, sc, tpc)| == LenE(a, sc)
          && |CodeE(b, sc, fpc)| == LenE(b, sc)
      && LenE(Ternary(c, a, b), sc) == LenCond(c, sc) + LenE(a, sc) + 1 + LenE(b, sc)
  {
    hide CodeCond, LenCond, OkE;
  }

  lemma ConsumeIs(s: Stmt, cx: Ctx, tg: seq<Target>, pc: int)
    requires s.Eval? || s.Print? || s.Throw?
    ensures
      var op := if s.Eval? then Instr.Pop else if s.Print? then Println else Raise;
      && LayS(s, cx) == Lay(LenE(s.e, cx.sc) + 1, cx.sc, cx.next, OkE(s.e, cx.sc))
      && |CodeE(s.e, cx.sc, pc)| == LenE(s.e, cx.sc) && CodeS(s, cx, tg, pc) == CodeE(s.e, cx.sc, pc) + [op]
  {
    hide CodeFor, CodeForIn, CodeWith, CodeTry, CodeElifs, LayElifs, CodeCatches, LayCatches, CodeFinally, LayFinally,
        CodeBlock, LayBlock, CodeUnwind, LayUnwind, LayLeave, CodeE;
    hide LenE, OkE, CodeCond, LenCond, OptLen, OptCode, OptOk, LenIterable, OkIterable, CodeIterable, UpdateLen,
        UpdateCode, LayOpt, CodeOpt, Bind, EachCtx, WithCtx, TryCtx;
  }

  lemma IfIs(c: Expr, b: Stmts, es: Elifs, a: Option<Stmts>, cx: Ctx, tg: seq<Target>, pc: int)
    ensures
      var s := If(c, b, es, a);
      var tpc := pc + LenCond(c, cx.sc);
      var l1 := LayBlock(b, cx);
      var epc := tpc + l1.len + 1;
      var cx2 := cx.(next := l1.next);
      var l2 := LayElifs(es, a, cx2);
      var end := epc + l2.len;
      && LayS(s, cx) == Lay(end - pc, cx.sc, l2.next, OkE(c, cx.sc) && l1.ok && l2.ok)
      && |CodeCond(c, cx.sc, pc, epc)| == LenCond(c, cx.sc)
      && |CodeBlock(b, cx, tg, tpc)| == l1.len && |CodeElifs(es, a, cx2, tg, epc, end)| == l2.len
      && CodeS(s, cx, tg, pc) ==
           CodeCond(c, cx.sc, pc, epc) + CodeBlock(b, cx, tg, tpc) + [Jump(end)] + CodeElifs(es, a, cx2, tg, epc, end)
  {
    hide CodeFor, CodeForIn, CodeWith, CodeTry, CodeElifs, LayElifs, CodeCatches, LayCatches, CodeFinally, LayFinally,
        CodeBlock, LayBlock, CodeUnwind, LayUnwind, LayLeave, CodeE;
    hide LenE, OkE, CodeCond, LenCond, OptLen, OptCode, OptOk, LenIterable, OkIterable, CodeIterable, UpdateLen,
        UpdateCode, LayOpt, CodeOpt, Bind, EachCtx, WithCtx, TryCtx;
  }

  lemma ElifIs(c: Expr, b: Stmts, rest: Elifs, a: Option<Stmts>, cx: Ctx, tg: seq<Target>, pc: int, end: int)
    ensures
      var es := Elif(c, b, rest);
      var tpc := pc + LenCond(c, cx.sc);
      var l1 := LayBlock(b, cx);
      var epc := tpc + l1.len + 1;
      var cx2 := cx.(next := l1.next);
      var l2 := LayElifs(rest, a, cx2);
      && LayElifs(es, a, cx) == Lay(epc + l2.len - pc, cx.sc, l2.next, OkE(c, cx.sc) && l1.ok && l2.ok)
      && |CodeCond(c, cx.sc, pc, epc)| == LenCond(c, cx.sc)
      && |CodeBlock(b, cx, tg, tpc)| == l1.len && |CodeElifs(rest, a, cx2, tg, epc, end)| == l2.len
      && CodeElifs(es, a, cx, tg, pc, end) ==
           CodeCond(c, cx.sc, pc, epc) + CodeBlock(b, cx, tg, tpc) + [Jump(end)] + CodeElifs(rest, a, cx2, tg, epc, end)
  {
    hide CodeCond, CodeBlock, LayBlock, OkE, LenCond;
  }

  lemma WhileIs(c: Expr, b: Stmts, cx: Ctx, tg: seq<Target>, pc: int)
    ensures
      var s := While(c, b);
      var cx1 := cx.(loops := cx.loops + [Depth(cx.fins)]);
      var bpc := pc + LenCond(c, cx.sc);
      var l := LayBlock(b, cx1);
      var end := bpc + l.len + 1;
      && LayS(s, cx) == Lay(end - pc, cx.sc, l.next, OkE(c, cx.sc) && l.ok)
      && |CodeCond(c, cx.sc, pc, end)| == LenCond(c, cx.sc) && |CodeBlock(b, cx1, tg + [Target(end, pc)], bpc)| == l.len
      && CodeS(s, cx, tg, pc) == CodeCond(c, cx.sc, pc, end) + CodeBlock(b, cx1, tg + [Target(end, pc)], bpc)
          + [Jump(pc)]
  {
    hide CodeFor, CodeForIn, CodeWith, CodeTry, CodeElifs, LayElifs, CodeCatches, LayCatches, CodeFinally, LayFinally,
        CodeBlock, LayBlock, CodeUnwind, LayUnwind, LayLeave, CodeE;
    hide LenE, OkE, CodeCond, LenCond, OptLen, OptCode, OptOk, LenIterable, OkIterable, CodeIterable, UpdateLen,
        UpdateCode, LayOpt, CodeOpt, Bind, EachCtx, WithCtx, TryCtx;
  }

  lemma RangeIs(a: Option<Expr>, b: Option<Expr>, c: Option<Expr>, ex: bool, sc: Scopes, pc: int)
    ensures
      var ae, be, ce := RangePart(a, IntLit(0)), RangePart(b, Lit(Null)), RangePart(c, IntLit(1));
      var it := Range(a, b, c, ex);
      var bpc := pc + LenE(ae, sc);
      var cpc := bpc + LenE(be, sc);
      && CodeIterable(it, sc, pc) == CodeE(ae, sc, pc) + CodeE(be, sc, bpc) + CodeE(ce, sc, cpc) + [ForRangeIter(ex)]
      && LenIterable(it, sc) == LenE(ae, sc) + LenE(be, sc) + LenE(ce, sc) + 1
      && |CodeE(ae, sc, pc)| == LenE(ae, sc) && |CodeE(be, sc, bpc)| == LenE(be, sc)
          && |CodeE(ce, sc, cpc)| == LenE(ce, sc)
      && (OkIterable(it, sc) ==> OkE(ae, sc) && OkE(be, sc) && OkE(ce, sc))
  {
    hide CodeE, LenE, OkE;
    LiteralsAre(sc, pc);
    LiteralsAre(sc, pc + LenE(RangePart(a, IntLit(0)), sc));
    LiteralsAre(sc, pc + LenE(RangePart(a, IntLit(0)), sc) + LenE(RangePart(b, Lit(Null)), sc));
  }

  lemma LiteralsAre(sc: Scopes, pc: int)
    ensures CodeE(IntLit(0), sc, pc) == [Const(Int(0))] && LenE(IntLit(0), sc) == 1 && OkE(IntLit(0), sc)
    ensures CodeE(IntLit(1), sc, pc) == [Const(Int(1))] && LenE(IntLit(1), sc) == 1 && OkE(IntLit(1), sc)
    ensures CodeE(Lit(Null), sc, pc) == [Const(Null)] && LenE(Lit(Null), sc) == 1 && OkE(Lit(Null), sc)
  {}

  /** A bound of a range that is left out stands for a literal. */
  function RangePart(e: Option<Expr>, default: Expr): Expr { if e.None? then default else e.value }

  lemma ForLays(first: Option<Simple>, c: Option<Expr>, u: Option<Expr>, b: Stmts, cx: Ctx, pc: int)
    ensures
      var s := For(first, c, u, b);
      var cx0 := cx.(sc := cx.sc + [map[]]);
      var l0 := LayOpt(first, cx0);
      var cx1 := At0(cx0, l0);
      var cx2 := cx1.(loops := cx.loops + [Depth(cx.fins)]);
      var top := pc + l0.len;
      var clen := if c.None? then 0 else LenCond(c.value, l0.sc);
      var bpc := top + clen;
      var l1 := LayBlock(b, cx2);
      var upc := bpc + l1.len;
      var end := upc + UpdateLen(u, l0.sc) + 1;
      LayS(s, cx) == Lay(end - pc, cx.sc, l1.next, l0.ok && (c.None? || OkE(c.value, l0.sc)) && l1.ok
          && OptOk(u, l0.sc))
  {
    hide LayElifs, LayCatches, LayFinally, LayBlock, LayUnwind, LayLeave, LenE, OkE, LenCond, OptLen, OptOk,
        LenIterable, OkIterable, UpdateLen, LayOpt, Bind;
    hide EachCtx, WithCtx, TryCtx;
  }

  lemma ForEmits(first: Option<Simple>, c: Option<Expr>, u: Option<Expr>, b: Stmts, cx: Ctx, tg: seq<Target>, pc: int)
    ensures
      var s := For(first, c, u, b);
      var cx0 := cx.(sc := cx.sc + [map[]]);
      var l0 := LayOpt(first, cx0);
      var cx1 := At0(cx0, l0);
      var cx2 := cx1.(loops := cx.loops + [Depth(cx.fins)]);
      var top := pc + l0.len;
      var clen := if c.None? then 0 else LenCond(c.value, l0.sc);
      var bpc := top + clen;
      var l1 := LayBlock(b, cx2);
      var upc := bpc + l1.len;
      var end := upc + UpdateLen(u, l0.sc) + 1;
      && |CodeOpt(first, cx0, tg, pc)| == l0.len && |CodeBlock(b, cx2, tg + [Target(end, upc)], bpc)| == l1.len
      && |UpdateCode(u, l0.sc, upc)| == UpdateLen(u, l0.sc)
      && |if c.None? then [] else CodeCond(c.value, l0.sc, top, end)| == clen
      && CodeS(s, cx, tg, pc) ==
           CodeOpt(first, cx0, tg, pc) + (if c.None? then [] else CodeCond(c.value, l0.sc, top, end)) +
           CodeBlock(b, cx2, tg + [Target(end, upc)], bpc) + UpdateCode(u, l0.sc, upc) + [Jump(top)]
  {
    hide CodeForIn, CodeWith, CodeTry, CodeElifs, LayElifs, CodeCatches, LayCatches, CodeFinally, LayFinally,
        CodeBlock, LayBlock, CodeUnwind, LayUnwind, LayLeave, CodeE, LenE;
    hide OkE, CodeCond, LenCond, OptLen, OptCode, OptOk, LenIterable, OkIterable, CodeIterable, UpdateLen, UpdateCode,
        LayOpt, CodeOpt, Bind, EachCtx, WithCtx;
    hide TryCtx;
  }

  lemma WithEmits(name: Option<string>, e: Expr, b: Stmts, cx: Ctx, tg: seq<Target>, pc: int)
    ensures
      var s := Stmt.With(name, e, b);
      var sc0 := cx.sc + [map[]];
      var hpc := pc + LenE(e, sc0) + 4;
      var cx1 := WithCtx(cx, name);
      var l := LayBlock(b, cx1);
      var catch := hpc + 1 + l.len + 4;
      var a := [Define(Local(cx.next)), Get(Local(cx.next)), WithEnter, if name.None? then Instr.Pop
          else Define(Local(cx.next + 1))];
      && LayS(s, cx) == Lay(catch + 3 - pc, cx.sc, l.next, OkE(e, sc0) && l.ok)
      && |CodeE(e, sc0, pc)| == LenE(e, sc0) && |CodeBlock(b, cx1, tg, hpc + 1)| == l.len
      && CodeS(s, cx, tg, pc) ==
           CodeE(e, sc0, pc) + a + [PushHandler(catch)] + CodeBlock(b, cx1, tg, hpc + 1) +
           [PopHandler, Get(Local(cx.next)), WithExit, Jump(catch + 3)] + [Get(Local(cx.next)), WithExit, Rethrow]
  {
    hide CodeFor, CodeForIn, CodeTry, CodeElifs, LayElifs, CodeCatches, LayCatches, CodeFinally, LayFinally,
        CodeBlock, LayBlock, CodeUnwind, LayUnwind, LayLeave, CodeE, LenE;
    hide OkE, CodeCond, LenCond, OptLen, OptCode, OptOk, LenIterable, OkIterable, CodeIterable, UpdateLen, UpdateCode,
        LayOpt, CodeOpt, Bind, EachCtx, TryCtx;
  }

  lemma ForInEmits(x: string, it: Iterable, b: Stmts, cx: Ctx, tg: seq<Target>, pc: int)
    ensures
      var s := ForIn(x, it, b);
      var h := cx.next;
      var sc0 := cx.sc + [map[]];
      var cx1 := EachCtx(cx, x);
      var top := pc + 2 + LenIterable(it, sc0) + 3;
      var l := LayBlock(b, cx1);
      var end := top + 4 + l.len + 1;
      && LayS(s, cx) == Lay(end + 1 - pc, cx.sc, l.next, OkIterable(it, sc0) && l.ok)
      && |CodeIterable(it, sc0, pc + 2)| == LenIterable(it, sc0)
          && |CodeBlock(b, cx1, tg + [Target(end + 1, top)], top + 4)| == l.len
      && CodeS(s, cx, tg, pc) ==
           [Const(Null), Define(Local(h))] + CodeIterable(it, sc0, pc + 2) +
           [Define(Local(h + 1)), Const(Null), Define(Local(h + 2))] +
           [IterNext(end, h + 1, h), Get(Local(h)), Set(Local(h + 2)), Pop] +
           CodeBlock(b, cx1, tg + [Target(end + 1, top)], top + 4) + [Jump(top), IterClose(h + 1)]
  {
    hide CodeFor, CodeWith, CodeTry, CodeElifs, LayElifs, CodeCatches, LayCatches, CodeFinally, LayFinally, CodeBlock,
        LayBlock, CodeUnwind, LayUnwind, LayLeave, CodeE, LenE;
    hide OkE, CodeCond, LenCond, OptLen, OptCode, OptOk, LenIterable, OkIterable, CodeIterable, UpdateLen, UpdateCode,
        LayOpt, CodeOpt, Bind, WithCtx, TryCtx;
  }

  lemma TryLays(b: Stmts, cs: Catches, f: Option<Stmts>, cx: Ctx, pc: int)
    ensures
      var s := Try(b, cs, f);
      var l1 := LayBlock(b, TryCtx(cx, f));
      var cpc := pc + 1 + l1.len + 2;
      var cx2 := cx.(next := l1.next);
      var l2 := LayCatches(cs, f, cx2);
      var fpc := cpc + l2.len;
      var cx3 := cx.(next := l2.next);
      var l3 := LayFinally(f, cx3);
      var end := fpc + l3.len + 1;
      var cx4 := cx.(next := l3.next);
      var l4 := LayFinally(f, cx4);
      LayS(s, cx) == Lay(end + l4.len - pc, cx.sc, l4.next, l1.ok && l2.ok && l3.ok && l4.ok)
  {
    hide LayElifs, LayCatches, LayFinally, LayBlock, LayUnwind, LayLeave, LenE, OkE, LenCond, OptLen, OptOk,
        LenIterable, OkIterable, UpdateLen, LayOpt, Bind;
    hide EachCtx, WithCtx;
  }

  lemma TryEmits(b: Stmts, cs: Catches, f: Option<Stmts>, cx: Ctx, tg: seq<Target>, pc: int)
    ensures
      var s := Try(b, cs, f);
      var l1 := LayBlock(b, TryCtx(cx, f));
      var cpc := pc + 1 + l1.len + 2;
      var cx2 := cx.(next := l1.next);
      var l2 := LayCatches(cs, f, cx2);
      var fpc := cpc + l2.len;
      var cx3 := cx.(next := l2.next);
      var l3 := LayFinally(f, cx3);
      var end := fpc + l3.len + 1;
      var cx4 := cx.(next := l3.next);
      var l4 := LayFinally(f, cx4);
      && |CodeBlock(b, TryCtx(cx, f), tg, pc + 1)| == l1.len && |CodeCatches(cs, f, cx2, tg, cpc, end)| == l2.len
      && |CodeFinally(f, cx3, tg, fpc)| == l3.len
      && CodeS(s, cx, tg, pc) ==
           [PushHandler(cpc)] + CodeBlock(b, TryCtx(cx, f), tg, pc + 1) + [PopHandler, Jump(end)] +
           CodeCatches(cs, f, cx2, tg, cpc, end) + CodeFinally(f, cx3, tg, fpc) + [Rethrow]
               + CodeFinally(f, cx4, tg, end)
      && cx.next <= l1.next <= l2.next <= l3.next
  {
    hide CodeFor, CodeForIn, CodeWith, CodeElifs, LayElifs, CodeCatches, LayCatches, CodeFinally, LayFinally,
        CodeBlock, LayBlock, CodeUnwind, LayUnwind, LayLeave, CodeE, LenE;
    hide OkE, CodeCond, LenCond, OptLen, OptCode, OptOk, LenIterable, OkIterable, CodeIterable, UpdateLen, UpdateCode,
        LayOpt, CodeOpt, Bind, EachCtx, WithCtx;
  }

  lemma CatchIs(kind: Option<string>, name: Option<string>, b: Stmts, rest: Catches, f: Option<Stmts>, cx: Ctx,
          tg: seq<Target>,
                pc: int, end: int)
    ensures
      var cs := Catch(kind, name, b, rest);
      var cx1 := CatchCtx(cx, name, f);
      var l1 := LayList(b, cx1);
      var cx2 := cx.(next := l1.next);
      var l2 := LayCatches(rest, f, cx2);
      var npc := pc + 1 + l1.len + 1;
      && LayCatches(cs, f, cx) == Lay(1 + l1.len + 1 + l2.len, cx.sc, l2.next, l1.ok && l2.ok)
      && |CodeList(b, cx1, tg, pc + 1)| == l1.len && |CodeCatches(rest, f, cx2, tg, npc, end)| == l2.len
      && CodeCatches(cs, f, cx, tg, pc, end) ==
           [CatchClause(npc, kind, if name.None? then None else Some(cx.next))] + CodeList(b, cx1, tg, pc + 1)
               + [Jump(end)] +
           CodeCatches(rest, f, cx2, tg, npc, end)
      && cx.next <= cx1.next <= l1.next <= l2.next
  {
    hide LayList, CodeList, LayFinally, CodeFinally;
  }
}
