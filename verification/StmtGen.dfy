/** What the compiler emits for a statement. `Lay*` gives the length of the code, the scopes
    and the slot counter it leaves behind and whether the compiler accepts it; `Code*` gives
    the instructions, every jump already carrying the target it ends up with. */
module StmtGen {
  import opened Syntax
  import opened Machine
  import opened ExprGen
  import Semantics

  /** finalizerContext. The Go record keeps the scope and loop stacks of its try statement;
      both are prefixes of the stacks in force wherever it is used, and scope maps are
      shared by reference, so their heights say the same. */
  datatype Fin = Fin(body: Option<Stmts>, popHandler: bool, iter: Option<nat>, withSlot: Option<nat>, scopes: nat,
      loops: nat)

  /** The stack c.finalizers, innermost on top. */
  datatype Fins = Bottom | On(rest: Fins, top: Fin)

  function Depth(f: Fins): nat { match f case Bottom => 0 case On(rest, _) => 1 + Depth(rest) }

  function FinSize(f: Fins): nat {
    match f
    case Bottom => 0
    case On(rest, top) => FinSize(rest) + 1 + (if top.body.Some? then BlockSize(top.body.value) else 0)
  }

  /** The compiler's state between two statements. `loops` holds, for every enclosing loop,
      the height of the finalizer stack outside its body. */
  datatype Ctx = Ctx(sc: Scopes, next: nat, fins: Fins, loops: seq<nat>)

  /** Where break and continue go, per enclosing loop. */
  datatype Target = Target(brk: int, cnt: int)

  datatype Lay = Lay(len: nat, sc: Scopes, next: nat, ok: bool)

  const NO_TARGET := Target(-1, -1)

  function TopLoop(loops: seq<nat>): nat { if |loops| == 0 then 0 else loops[|loops| - 1] }
  function TopTarget(tg: seq<Target>): Target { if |tg| == 0 then NO_TARGET else tg[|tg| - 1] }

  function OptLen(e: Option<Expr>, sc: Scopes): nat { if e.None? then 1 else LenE(e.value, sc) }
  predicate OptOk(e: Option<Expr>, sc: Scopes) { e.None? || OkE(e.value, sc) }
  function OptCode(e: Option<Expr>, sc: Scopes, pc: int): (code: seq<Instr>)
    ensures |code| == OptLen(e, sc)
  {
    if e.None? then [Const(Null)] else CodeE(e.value, sc, pc)
  }

  /** The update clause of a for loop, an expression statement. */
  function UpdateLen(u: Option<Expr>, sc: Scopes): nat { if u.None? then 0 else LenE(u.value, sc) + 1 }
  function UpdateCode(u: Option<Expr>, sc: Scopes, pc: int): (code: seq<Instr>)
    ensures |code| == UpdateLen(u, sc)
  {
    if u.None? then [] else CodeE(u.value, sc, pc) + [Pop]
  }

  function At0(cx: Ctx, l: Lay): Ctx { cx.(sc := l.sc, next := l.next) }

  predicate LetIsInt(d: Decl, init: Option<Expr>, sc: Scopes) {
    d.IntType? || (d.Untyped? && init.Some? && InitIsInt(init.value, sc))
  }

  // ----- iterables

  function LenIterable(it: Iterable, sc: Scopes): nat {
    match it
    case Each(e) => LenE(e, sc) + 1
    case Range(a, b, c, _) => OptLen(a, sc) + OptLen(b, sc) + OptLen(c, sc) + 1
  }

  predicate OkIterable(it: Iterable, sc: Scopes) {
    match it
    case Each(e) => OkE(e, sc)
    case Range(a, b, c, _) => OptOk(a, sc) && OptOk(b, sc) && OptOk(c, sc)
  }

  function CodeIterable(it: Iterable, sc: Scopes, pc: int): (code: seq<Instr>)
    ensures |code| == LenIterable(it, sc)
  {
    match it
    case Each(e) => CodeE(e, sc, pc) + [IterInit]
    case Range(a, b, c, ex) =>
      var bpc := pc + OptLen(a, sc);
      var cpc := bpc + OptLen(b, sc);
      (if a.None? then [Const(Int(0))] else CodeE(a.value, sc, pc)) +
      OptCode(b, sc, bpc) +
      (if c.None? then [Const(Int(1))] else CodeE(c.value, sc, cpc)) +
      [ForRangeIter(ex)]
  }

  // ----- layout

  function LayS(s: Stmt, cx: Ctx): (r: Lay)
    ensures r.next >= cx.next && (!s.Let? ==> r.sc == cx.sc)
    decreases Size(s) + FinSize(cx.fins), 1
  {
    var sc, next := cx.sc, cx.next;
    match s
    case Let(x, d, init) =>
      Lay(OptLen(init, sc) + 1, Bind(sc, x, Binding(Local(next), LetIsInt(d, init, sc))), next + 1, OptOk(init, sc))
    case Eval(e) => Lay(LenE(e, sc) + 1, sc, next, OkE(e, sc))
    case Print(e) => Lay(LenE(e, sc) + 1, sc, next, OkE(e, sc))
    case Throw(e) => Lay(LenE(e, sc) + 1, sc, next, OkE(e, sc))
    case If(c, t, es, a) =>
      var l1 := LayBlock(t, cx);
      var l2 := LayElifs(es, a, cx.(next := l1.next));
      Lay(LenCond(c, sc) + l1.len + 1 + l2.len, sc, l2.next, OkE(c, sc) && l1.ok && l2.ok)
    case While(c, b) =>
      var l := LayBlock(b, cx.(loops := cx.loops + [Depth(cx.fins)]));
      Lay(LenCond(c, sc) + l.len + 1, sc, l.next, OkE(c, sc) && l.ok)
    case For(first, c, u, b) =>
      var cx0 := cx.(sc := sc + [map[]]);
      var l0 := LayOpt(first, cx0);
      var cx1 := At0(cx0, l0);
      var l1 := LayBlock(b, cx1.(loops := cx.loops + [Depth(cx.fins)]));
      Lay(l0.len + (if c.None? then 0 else LenCond(c.value, l0.sc)) + l1.len + UpdateLen(u, l0.sc) + 1, sc, l1.next,
          l0.ok && (c.None? || OkE(c.value, l0.sc)) && l1.ok && OptOk(u, l0.sc))
    case ForIn(x, it, b) =>
      var cx1 := EachCtx(cx, x);
      var l := LayBlock(b, cx1);
      Lay(2 + LenIterable(it, sc + [map[]]) + 3 + 4 + l.len + 2, sc, l.next, OkIterable(it, sc + [map[]]) && l.ok)
    case Try(b, cs, f) =>
      var l1 := LayBlock(b, TryCtx(cx, f));
      var l2 := LayCatches(cs, f, cx.(next := l1.next));
      var l3 := LayFinally(f, cx.(next := l2.next));
      var l4 := LayFinally(f, cx.(next := l3.next));
      Lay(1 + l1.len + 2 + l2.len + l3.len + 1 + l4.len, sc, l4.next, l1.ok && l2.ok && l3.ok && l4.ok)
    case With(name, e, b) =>
      var sc0 := sc + [map[]];
      var l := LayBlock(b, WithCtx(cx, name));
      Lay(LenE(e, sc0) + 4 + 1 + l.len + 7, sc, l.next, OkE(e, sc0) && l.ok)
    case Break => LayLeave(cx, TopLoop(cx.loops), true)
    case Continue => LayLeave(cx, TopLoop(cx.loops), false)
    case Return(e) =>
      if cx.fins.Bottom? then Lay(OptLen(e, sc) + 1, sc, next, OptOk(e, sc))
      else
        var l := LayUnwind(cx.fins, 0, true, sc, next + 1, cx.loops);
        Lay(OptLen(e, sc) + 1 + l.len + 2, sc, l.next, OptOk(e, sc) && l.ok)
  }

  /** break and continue: run the finalizers above the loop, then jump. */
  function LayLeave(cx: Ctx, depth: nat, iters: bool): (r: Lay)
    ensures r.next >= cx.next && r.sc == cx.sc
    decreases FinSize(cx.fins), 3
  {
    var l := LayUnwind(cx.fins, depth, iters, cx.sc, cx.next, cx.loops);
    Lay(l.len + 1, cx.sc, l.next, |cx.loops| > 0 && l.ok)
  }

  function LayOpt(s: Option<Simple>, cx: Ctx): (r: Lay)
    ensures r.next >= cx.next
    decreases 1 + FinSize(cx.fins), 2
  {
    if s.None? then Lay(0, cx.sc, cx.next, true) else LayS(Semantics.AsStmt(s.value), cx)
  }

  function LayBlock(b: Stmts, cx: Ctx): (r: Lay)
    ensures r.next >= cx.next && r.sc == cx.sc
    decreases BlockSize(b) + FinSize(cx.fins), 1
  {
    LayList(b, cx.(sc := cx.sc + [map[]])).(sc := cx.sc)
  }

  function LayList(b: Stmts, cx: Ctx): (r: Lay)
    ensures r.next >= cx.next
    decreases BlockSize(b) + FinSize(cx.fins), 0
  {
    match b
    case Nil => Lay(0, cx.sc, cx.next, true)
    case Cons(s, rest) =>
      var l1 := LayS(s, cx);
      var l2 := LayList(rest, At0(cx, l1));
      Lay(l1.len + l2.len, l2.sc, l2.next, l1.ok && l2.ok)
  }

  function LayElifs(es: Elifs, a: Option<Stmts>, cx: Ctx): (r: Lay)
    ensures r.next >= cx.next && r.sc == cx.sc
    decreases ElifsSize(es) + (if a.Some? then BlockSize(a.value) else 0) + FinSize(cx.fins), 2
  {
    match es
    case NoElif => if a.None? then Lay(0, cx.sc, cx.next, true) else LayBlock(a.value, cx)
    case Elif(c, b, rest) =>
      var l1 := LayBlock(b, cx);
      var l2 := LayElifs(rest, a, cx.(next := l1.next));
      Lay(LenCond(c, cx.sc) + l1.len + 1 + l2.len, cx.sc, l2.next, OkE(c, cx.sc) && l1.ok && l2.ok)
  }

  function LayFinally(f: Option<Stmts>, cx: Ctx): (r: Lay)
    ensures r.next >= cx.next && r.sc == cx.sc
    decreases (if f.Some? then BlockSize(f.value) else 0) + FinSize(cx.fins), 2
  {
    if f.None? then Lay(0, cx.sc, cx.next, true) else LayBlock(f.value, cx)
  }

  /** The scope of a for-in loop: a value slot, an iterator slot, then the variable. */
  function EachCtx(cx: Ctx, x: string): Ctx {
    Ctx(Bind(cx.sc + [map[]], x, Binding(Local(cx.next + 2), false)), cx.next + 3,
        On(cx.fins, Fin(None, false, Some(cx.next + 1), None, 0, 0)), cx.loops + [Depth(cx.fins)])
  }

  function TryCtx(cx: Ctx, f: Option<Stmts>): Ctx {
    cx.(fins := On(cx.fins, Fin(f, true, None, None, |cx.sc|, |cx.loops|)))
  }

  /** The scope of a catch body: the frame that holds the error. */
  function CatchCtx(cx: Ctx, name: Option<string>, f: Option<Stmts>): Ctx {
    var frame := if name.None? then map[] else map[name.value := Binding(Local(cx.next), false)];
    Ctx(cx.sc + [frame], if name.None? then cx.next else cx.next + 1,
        On(cx.fins, Fin(f, false, None, None, |cx.sc| + 1, |cx.loops|)), cx.loops)
  }

  /** The resource sits in a hidden slot; the name, when there is one, in the next. */
  function WithCtx(cx: Ctx, name: Option<string>): Ctx {
    var sc0 := cx.sc + [map[]];
    Ctx(if name.None? then sc0 else Bind(sc0, name.value, Binding(Local(cx.next + 1), false)),
        if name.None? then cx.next + 1 else cx.next + 2,
        On(cx.fins, Fin(None, true, None, Some(cx.next), 0, 0)), cx.loops)
  }

  function LayCatches(cs: Catches, f: Option<Stmts>, cx: Ctx): (r: Lay)
    ensures r.next >= cx.next && r.sc == cx.sc
    decreases CatchesSize(cs) + (if f.Some? then BlockSize(f.value) else 0) + FinSize(cx.fins), 3
  {
    match cs
    case NoCatch => Lay(0, cx.sc, cx.next, true)
    case Catch(_, name, b, rest) =>
      var l1 := LayList(b, CatchCtx(cx, name, f));
      var l2 := LayCatches(rest, f, cx.(next := l1.next));
      Lay(1 + l1.len + 1 + l2.len, cx.sc, l2.next, l1.ok && l2.ok)
  }

  /** compileActiveFinalizers: the finalizers above `depth`, innermost first. */
  function LayUnwind(fins: Fins, depth: nat, iters: bool, sc: Scopes, next: nat, loops: seq<nat>): (r: Lay)
    ensures r.next >= next
    decreases FinSize(fins), 2
  {
    if Depth(fins) <= depth then Lay(0, sc, next, true)
    else
      var l1 := LayFin(fins.top, fins.rest, iters, sc, next, loops);
      var l2 := LayUnwind(fins.rest, depth, iters, sc, l1.next, loops);
      Lay(l1.len + l2.len, sc, l2.next, l1.ok && l2.ok)
  }

  function LayFin(f: Fin, rest: Fins, iters: bool, sc: Scopes, next: nat, loops: seq<nat>): (r: Lay)
    ensures r.next >= next
    decreases FinSize(rest) + 1 + (if f.body.Some? then BlockSize(f.body.value) else 0), 1
  {
    var own := (if f.iter.Some? && iters then 1 else 0) + (if f.popHandler then 1 else 0)
        + (if f.withSlot.Some? then 2 else 0);
    var l := LayFinally(f.body, FinCtx(f, rest, sc, next, loops));
    Lay(own + l.len, sc, l.next, l.ok)
  }

  /** A finally block is compiled in the scopes and loops of its try statement. */
  function FinCtx(f: Fin, rest: Fins, sc: Scopes, next: nat, loops: seq<nat>): Ctx {
    Ctx(Take(sc, f.scopes), next, rest, Take(loops, f.loops))
  }

  // ----- code

  function CodeS(s: Stmt, cx: Ctx, tg: seq<Target>, pc: int): (code: seq<Instr>)
    ensures |code| == LayS(s, cx).len
    decreases Size(s) + FinSize(cx.fins), 1
  {
    var sc, next := cx.sc, cx.next;
    match s
    case Let(x, d, init) => OptCode(init, sc, pc) + [Define(Local(next))]
    case Eval(e) => CodeE(e, sc, pc) + [Pop]
    case Print(e) => CodeE(e, sc, pc) + [Println]
    case Throw(e) => CodeE(e, sc, pc) + [Raise]
    case If(c, t, es, a) =>
      var tpc := pc + LenCond(c, sc);
      var l1 := LayBlock(t, cx);
      var epc := tpc + l1.len + 1;
      var cx2 := cx.(next := l1.next);
      var end := epc + LayElifs(es, a, cx2).len;
      CodeCond(c, sc, pc, epc) + CodeBlock(t, cx, tg, tpc) + [Jump(end)] + CodeElifs(es, a, cx2, tg, epc, end)
    case While(c, b) =>
      var bpc := pc + LenCond(c, sc);
      var cx1 := cx.(loops := cx.loops + [Depth(cx.fins)]);
      var end := bpc + LayBlock(b, cx1).len + 1;
      CodeCond(c, sc, pc, end) + CodeBlock(b, cx1, tg + [Target(end, pc)], bpc) + [Jump(pc)]
    case For(first, c, u, b) => CodeFor(first, c, u, b, cx, tg, pc)
    case ForIn(x, it, b) => CodeForIn(x, it, b, cx, tg, pc)
    case Try(b, cs, f) => CodeTry(b, cs, f, cx, tg, pc)
    case With(name, e, b) => CodeWith(name, e, b, cx, tg, pc)
    case Break => CodeLeave(s, cx, tg, pc)
    case Continue => CodeLeave(s, cx, tg, pc)
    case Return(_) => CodeLeave(s, cx, tg, pc)
  }

  /** The statements that jump out. */
  function CodeLeave(s: Stmt, cx: Ctx, tg: seq<Target>, pc: int): (code: seq<Instr>)
    requires s.Break? || s.Continue? || s.Return?
    ensures |code| == LayS(s, cx).len
    decreases Size(s) + FinSize(cx.fins), 0
  {
    var sc, next := cx.sc, cx.next;
    match s
    case Break =>
      CodeUnwind(cx.fins, TopLoop(cx.loops), true, sc, next, cx.loops, tg, pc) + [Jump(TopTarget(tg).brk)]
    case Continue =>
      CodeUnwind(cx.fins, TopLoop(cx.loops), false, sc, next, cx.loops, tg, pc) + [Jump(TopTarget(tg).cnt)]
    case Return(e) =>
      if cx.fins.Bottom? then OptCode(e, sc, pc) + [Machine.Return]
      else
        OptCode(e, sc, pc) + [Define(Local(next))] +
        CodeUnwind(cx.fins, 0, true, sc, next + 1, cx.loops, tg, pc + OptLen(e, sc) + 1) +
        [Get(Local(next)), Machine.Return]
  }

  function CodeFor(first: Option<Simple>, c: Option<Expr>, u: Option<Expr>, b: Stmts, cx: Ctx, tg: seq<Target>,
          pc: int): (code: seq<Instr>)
    ensures |code| == LayS(For(first, c, u, b), cx).len
    decreases Size(For(first, c, u, b)) + FinSize(cx.fins), 0
  {
    var sc, next := cx.sc, cx.next;
    var cx0 := cx.(sc := sc + [map[]]);
    var l0 := LayOpt(first, cx0);
    var cx1 := At0(cx0, l0);
    var cx2 := cx1.(loops := cx.loops + [Depth(cx.fins)]);
    var top := pc + l0.len;
    var bpc := top + (if c.None? then 0 else LenCond(c.value, l0.sc));
    var l1 := LayBlock(b, cx2);
    var upc := bpc + l1.len;
    var end := upc + UpdateLen(u, l0.sc) + 1;
    CodeOpt(first, cx0, tg, pc) + (if c.None? then [] else CodeCond(c.value, l0.sc, top, end)) +
    CodeBlock(b, cx2, tg + [Target(end, upc)], bpc) + UpdateCode(u, l0.sc, upc) + [Jump(top)]
  }

  function CodeForIn(x: string, it: Iterable, b: Stmts, cx: Ctx, tg: seq<Target>, pc: int): (code: seq<Instr>)
    ensures |code| == LayS(ForIn(x, it, b), cx).len
    decreases Size(ForIn(x, it, b)) + FinSize(cx.fins), 0
  {
    var sc, next := cx.sc, cx.next;
    var sc0 := sc + [map[]];
    var cx1 := EachCtx(cx, x);
    var top := pc + 2 + LenIterable(it, sc0) + 3;
    var end := top + 4 + LayBlock(b, cx1).len + 1;
    [Const(Null), Define(Local(next))] + CodeIterable(it, sc0, pc + 2) +
    [Define(Local(next + 1)), Const(Null), Define(Local(next + 2))] +
    [IterNext(end, next + 1, next), Get(Local(next)), Set(Local(next + 2)), Pop] +
    CodeBlock(b, cx1, tg + [Target(end + 1, top)], top + 4) + [Jump(top), IterClose(next + 1)]
  }

  function CodeTry(b: Stmts, cs: Catches, f: Option<Stmts>, cx: Ctx, tg: seq<Target>, pc: int): (code: seq<Instr>)
    ensures |code| == LayS(Try(b, cs, f), cx).len
    decreases Size(Try(b, cs, f)) + FinSize(cx.fins), 0
  {
    var sc, next := cx.sc, cx.next;
    var l1 := LayBlock(b, TryCtx(cx, f));
    var cpc := pc + 1 + l1.len + 2;
    var cx2 := cx.(next := l1.next);
    var l2 := LayCatches(cs, f, cx2);
    var fpc := cpc + l2.len;
    var cx3 := cx.(next := l2.next);
    var l3 := LayFinally(f, cx3);
    var end := fpc + l3.len + 1;
    [PushHandler(cpc)] + CodeBlock(b, TryCtx(cx, f), tg, pc + 1) + [PopHandler, Jump(end)] +
    CodeCatches(cs, f, cx2, tg, cpc, end) + CodeFinally(f, cx3, tg, fpc) + [Rethrow] +
    CodeFinally(f, cx.(next := l3.next), tg, end)
  }

  function CodeWith(name: Option<string>, e: Expr, b: Stmts, cx: Ctx, tg: seq<Target>, pc: int): (code: seq<Instr>)
    ensures |code| == LayS(Stmt.With(name, e, b), cx).len
    decreases Size(Stmt.With(name, e, b)) + FinSize(cx.fins), 0
  {
    var sc, next := cx.sc, cx.next;
    var sc0 := sc + [map[]];
    var hpc := pc + LenE(e, sc0) + 4;
    var cx1 := WithCtx(cx, name);
    var n := LayBlock(b, cx1).len;
    var catch := hpc + 1 + n + 4;
    CodeE(e, sc0, pc) +
    [Define(Local(next)), Get(Local(next)), WithEnter, if name.None? then Pop else Define(Local(next + 1))] +
    [PushHandler(catch)] + CodeBlock(b, cx1, tg, hpc + 1) +
    [PopHandler, Get(Local(next)), WithExit, Jump(catch + 3)] +
    [Get(Local(next)), WithExit, Rethrow]
  }

  function CodeOpt(s: Option<Simple>, cx: Ctx, tg: seq<Target>, pc: int): (code: seq<Instr>)
    ensures |code| == LayOpt(s, cx).len
    decreases 1 + FinSize(cx.fins), 2
  {
    if s.None? then [] else CodeS(Semantics.AsStmt(s.value), cx, tg, pc)
  }

  function CodeBlock(b: Stmts, cx: Ctx, tg: seq<Target>, pc: int): (code: seq<Instr>)
    ensures |code| == LayBlock(b, cx).len
    decreases BlockSize(b) + FinSize(cx.fins), 1
  {
    CodeList(b, cx.(sc := cx.sc + [map[]]), tg, pc)
  }

  function CodeList(b: Stmts, cx: Ctx, tg: seq<Target>, pc: int): (code: seq<Instr>)
    ensures |code| == LayList(b, cx).len
    decreases BlockSize(b) + FinSize(cx.fins), 0
  {
    match b
    case Nil => []
    case Cons(s, rest) =>
      var l := LayS(s, cx);
      CodeS(s, cx, tg, pc) + CodeList(rest, At0(cx, l), tg, pc + l.len)
  }

  function CodeElifs(es: Elifs, a: Option<Stmts>, cx: Ctx, tg: seq<Target>, pc: int, end: int): (code: seq<Instr>)
    ensures |code| == LayElifs(es, a, cx).len
    decreases ElifsSize(es) + (if a.Some? then BlockSize(a.value) else 0) + FinSize(cx.fins), 2
  {
    match es
    case NoElif => if a.None? then [] else CodeBlock(a.value, cx, tg, pc)
    case Elif(c, b, rest) =>
      var bpc := pc + LenCond(c, cx.sc);
      var l1 := LayBlock(b, cx);
      var epc := bpc + l1.len + 1;
      CodeCond(c, cx.sc, pc, epc) + CodeBlock(b, cx, tg, bpc) + [Jump(end)] +
      CodeElifs(rest, a, cx.(next := l1.next), tg, epc, end)
  }

  function CodeFinally(f: Option<Stmts>, cx: Ctx, tg: seq<Target>, pc: int): (code: seq<Instr>)
    ensures |code| == LayFinally(f, cx).len
    decreases (if f.Some? then BlockSize(f.value) else 0) + FinSize(cx.fins), 2
  {
    if f.None? then [] else CodeBlock(f.value, cx, tg, pc)
  }

  function CodeCatches(cs: Catches, f: Option<Stmts>, cx: Ctx, tg: seq<Target>, pc: int, end: int): (code: seq<Instr>)
    ensures |code| == LayCatches(cs, f, cx).len
    decreases CatchesSize(cs) + (if f.Some? then BlockSize(f.value) else 0) + FinSize(cx.fins), 3
  {
    match cs
    case NoCatch => []
    case Catch(kind, name, b, rest) =>
      var cx1 := CatchCtx(cx, name, f);
      var l1 := LayList(b, cx1);
      var npc := pc + 1 + l1.len + 1;
      [CatchClause(npc, kind, if name.None? then None else Some(cx.next))] + CodeList(b, cx1, tg, pc + 1)
          + [Jump(end)] +
      CodeCatches(rest, f, cx.(next := l1.next), tg, npc, end)
  }

  function CodeUnwind(fins: Fins, depth: nat, iters: bool, sc: Scopes, next: nat, loops: seq<nat>, tg: seq<Target>,
          pc: int)
    : (code: seq<Instr>)
    ensures |code| == LayUnwind(fins, depth, iters, sc, next, loops).len
    decreases FinSize(fins), 2
  {
    if Depth(fins) <= depth then []
    else
      var l1 := LayFin(fins.top, fins.rest, iters, sc, next, loops);
      CodeFin(fins.top, fins.rest, iters, sc, next, loops, tg, pc) +
      CodeUnwind(fins.rest, depth, iters, sc, l1.next, loops, tg, pc + l1.len)
  }

  function CodeFin(f: Fin, rest: Fins, iters: bool, sc: Scopes, next: nat, loops: seq<nat>, tg: seq<Target>, pc: int)
    : (code: seq<Instr>)
    ensures |code| == LayFin(f, rest, iters, sc, next, loops).len
    decreases FinSize(rest) + 1 + (if f.body.Some? then BlockSize(f.body.value) else 0), 1
  {
    var own := OwnCode(f, iters);
    own + CodeFinally(f.body, FinCtx(f, rest, sc, next, loops), Take(tg, f.loops), pc + |own|)
  }

  /** The part of a finalizer that is not its finally block. */
  function OwnCode(f: Fin, iters: bool): seq<Instr> {
    (if f.iter.Some? && iters then [IterClose(f.iter.value)] else []) +
    (if f.popHandler then [PopHandler] else []) +
    (if f.withSlot.Some? then [Get(Local(f.withSlot.value)), WithExit] else [])
  }

  /** What is emitted for a function body: the block, then `return null`. */
  function CodeFunction(b: Stmts, sc: Scopes, next: nat, pc: int): seq<Instr> {
    CodeBlock(b, Ctx(sc, next, Bottom, []), [], pc) + [Const(Null), Machine.Return]
  }
}
