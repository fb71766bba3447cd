/** Which programs are accepted, said of their text alone, and that the compiler accepts those
    and no others. */
module Placement {
  import opened Syntax
  import opened ExprGen
  import opened StmtGen
  import opened Shapes
  import Semantics
  import Machine

  // ----- of the text alone

  /** Where `names` are bound, inside a loop or not: every name that is read or assigned is
      bound, and every break and continue has a loop. A finally block is judged where its try
      statement stands. */
  predicate PlacedS(s: Stmt, names: set<string>, loop: bool) {
    match s
    case Let(_, _, init) => UsesOpt(init) <= names
    case Eval(e) => Uses(e) <= names
    case Print(e) => Uses(e) <= names
    case If(c, t, es, a) =>
      Uses(c) <= names && Placed(t, names, loop) && PlacedElifs(es, names, loop) && PlacedOpt(a, names, loop)
    case While(c, b) => Uses(c) <= names && Placed(b, names, true)
    case For(first, c, u, b) =>
      var inner := names + Starts(first);
      UsesFirst(first) <= names && UsesOpt(c) <= inner && UsesOpt(u) <= inner && Placed(b, inner, true)
    case ForIn(x, it, b) => UsesIterable(it) <= names && Placed(b, names + {x}, true)
    case Try(b, cs, f) => Placed(b, names, loop) && PlacedCatches(cs, names, loop) && PlacedOpt(f, names, loop)
    case With(name, e, b) => Uses(e) <= names && Placed(b, names + Names(name), loop)
    case Throw(e) => Uses(e) <= names
    case Break => loop
    case Continue => loop
    case Return(e) => UsesOpt(e) <= names
  }

  predicate Placed(b: Stmts, names: set<string>, loop: bool) {
    match b
    case Nil => true
    case Cons(s, rest) => PlacedS(s, names, loop) && Placed(rest, names + Declares(s), loop)
  }

  predicate PlacedElifs(es: Elifs, names: set<string>, loop: bool) {
    match es
    case NoElif => true
    case Elif(c, b, rest) => Uses(c) <= names && Placed(b, names, loop) && PlacedElifs(rest, names, loop)
  }

  predicate PlacedOpt(f: Option<Stmts>, names: set<string>, loop: bool) { f.None? || Placed(f.value, names, loop) }

  predicate PlacedCatches(cs: Catches, names: set<string>, loop: bool) {
    match cs
    case NoCatch => true
    case Catch(_, name, b, rest) => Placed(b, names + Names(name), loop) && PlacedCatches(rest, names, loop)
  }

  function Starts(first: Option<Simple>): set<string> {
    if first.Some? && first.value.SLet? then {first.value.x} else {}
  }

  function UsesFirst(first: Option<Simple>): set<string> {
    match first case None => {} case Some(SLet(_, _, init)) => UsesOpt(init) case Some(SEval(e)) => Uses(e)
  }

  function UsesIterable(it: Iterable): set<string> {
    match it case Each(e) => Uses(e) case Range(a, b, c, _) => UsesOpt(a) + UsesOpt(b) + UsesOpt(c)
  }

  // ----- more names, or a loop, do no harm

  lemma {:induction false} MoreS(s: Stmt, a: set<string>, p: bool, b: set<string>, q: bool)
    requires PlacedS(s, a, p) && a <= b && (p ==> q)
    ensures PlacedS(s, b, q)
  {
    match s
    case If(_, t, es, alt) =>
      More(t, a, p, b, q);
      MoreElifs(es, a, p, b, q);
      MoreOpt(alt, a, p, b, q);
    case While(_, body) => More(body, a, true, b, true);
    case For(first, _, _, body) => More(body, a + Starts(first), true, b + Starts(first), true);
    case ForIn(x, _, body) => More(body, a + {x}, true, b + {x}, true);
    case Try(body, cs, f) =>
      More(body, a, p, b, q);
      MoreCatches(cs, a, p, b, q);
      MoreOpt(f, a, p, b, q);
    case With(name, _, body) => More(body, a + Names(name), p, b + Names(name), q);
    case _ =>
  }

  lemma {:induction false} More(c: Stmts, a: set<string>, p: bool, b: set<string>, q: bool)
    requires Placed(c, a, p) && a <= b && (p ==> q)
    ensures Placed(c, b, q)
  {
    if c.Cons? {
      MoreS(c.head, a, p, b, q);
      More(c.tail, a + Declares(c.head), p, b + Declares(c.head), q);
    }
  }

  lemma {:induction false} MoreElifs(es: Elifs, a: set<string>, p: bool, b: set<string>, q: bool)
    requires PlacedElifs(es, a, p) && a <= b && (p ==> q)
    ensures PlacedElifs(es, b, q)
  {
    if es.Elif? {
      More(es.body, a, p, b, q);
      MoreElifs(es.rest, a, p, b, q);
    }
  }

  lemma {:induction false} MoreOpt(f: Option<Stmts>, a: set<string>, p: bool, b: set<string>, q: bool)
    requires PlacedOpt(f, a, p) && a <= b && (p ==> q)
    ensures PlacedOpt(f, b, q)
  {
    if f.Some? { More(f.value, a, p, b, q); }
  }

  lemma {:induction false} MoreCatches(cs: Catches, a: set<string>, p: bool, b: set<string>, q: bool)
    requires PlacedCatches(cs, a, p) && a <= b && (p ==> q)
    ensures PlacedCatches(cs, b, q)
  {
    if cs.Catch? {
      More(cs.body, a + Names(cs.name), p, b + Names(cs.name), q);
      MoreCatches(cs.rest, a, p, b, q);
    }
  }

  // ----- the names in scope

  function ScopeNames(sc: Scopes): set<string> { set i, x | 0 <= i < |sc| && x in sc[i] :: x }

  lemma Pushed(sc: Scopes, frame: map<string, Binding>)
    ensures ScopeNames(sc + [frame]) == ScopeNames(sc) + frame.Keys
  {
    var more := sc + [frame];
    forall x | x in ScopeNames(sc) ensures x in ScopeNames(more) {
      var i :| 0 <= i < |sc| && x in sc[i];
      assert x in more[i];
    }
    forall x | x in frame.Keys ensures x in ScopeNames(more) { assert x in more[|sc|]; }
  }

  lemma Binds(sc: Scopes, x: string, b: Binding)
    requires |sc| > 0
    ensures ScopeNames(Bind(sc, x, b)) == ScopeNames(sc) + {x}
  {
    var more, k := Bind(sc, x, b), |sc| - 1;
    forall y | y in ScopeNames(sc) + {x} ensures y in ScopeNames(more) {
      if y in ScopeNames(sc) {
        var i :| 0 <= i < |sc| && y in sc[i];
        assert y in more[i];
      } else {
        assert y in more[k];
      }
    }
  }

  lemma ResolvedIs(sc: Scopes, x: string)
    ensures Resolve(sc, x).Some? <==> x in ScopeNames(sc)
  {}

  lemma {:induction false} OkIs(e: Expr, sc: Scopes)
    ensures OkE(e, sc) <==> Uses(e) <= ScopeNames(sc)
  {
    hide ScopeNames, Resolve;
    match e
    case Var(x) => ResolvedIs(sc, x);
    case Assign(x, f) => ResolvedIs(sc, x); OkIs(f, sc);
    case Post(x, _) => ResolvedIs(sc, x);
    case Un(_, f) => OkIs(f, sc);
    case Bin(_, l, r) => OkIs(l, sc); OkIs(r, sc);
    case And(l, r) => OkIs(l, sc); OkIs(r, sc);
    case Or(l, r) => OkIs(l, sc); OkIs(r, sc);
    case Coalesce(l, r) => OkIs(l, sc); OkIs(r, sc);
    case Ternary(c, t, f) => OkIs(c, sc); OkIs(t, sc); OkIs(f, sc);
    case _ =>
  }

  lemma OptIs(e: Option<Expr>, sc: Scopes)
    ensures OptOk(e, sc) <==> UsesOpt(e) <= ScopeNames(sc)
  {
    hide OkE, ScopeNames;
    if e.Some? { OkIs(e.value, sc); }
  }

  lemma IterableIs(it: Iterable, sc: Scopes)
    ensures OkIterable(it, sc) <==> UsesIterable(it) <= ScopeNames(sc)
  {
    hide OkE, ScopeNames, OptOk;
    match it
    case Each(e) => OkIs(e, sc);
    case Range(a, b, c, _) => OptIs(a, sc); OptIs(b, sc); OptIs(c, sc);
  }

  // ----- the finalizers in force

  /** Every finally block that a jump would run is placed where its try statement stands: in the
      outer scopes, and in the outer loops, of which there are n in all. */
  ghost predicate FinsPlaced(fins: Fins, sc: Scopes, n: nat) {
    match fins
    case Bottom => true
    case On(rest, top) =>
      if top.body.None? then FinsPlaced(rest, sc, n)
      else
        && top.scopes <= |sc| && top.loops <= n
        && Placed(top.body.value, ScopeNames(sc[..top.scopes]), top.loops > 0)
        && FinsPlaced(rest, sc[..top.scopes], top.loops)
  }

  ghost predicate Extends(a: Scopes, b: Scopes) { |a| <= |b| && forall i :: 0 <= i < |a| ==> a[i].Keys <= b[i].Keys }

  lemma ExtendsNames(a: Scopes, b: Scopes)
    requires Extends(a, b)
    ensures ScopeNames(a) <= ScopeNames(b)
  {}

  lemma {:induction false} FinsLast(fins: Fins, a: Scopes, n: nat, b: Scopes, m: nat)
    requires FinsPlaced(fins, a, n) && Extends(a, b) && n <= m
    ensures FinsPlaced(fins, b, m)
    decreases fins
  {
    hide ScopeNames;
    if fins.On? {
      var top := fins.top;
      if top.body.None? {
        FinsLast(fins.rest, a, n, b, m);
      } else {
        var k := top.scopes;
        ExtendsNames(a[..k], b[..k]);
        More(top.body.value, ScopeNames(a[..k]), top.loops > 0, ScopeNames(b[..k]), top.loops > 0);
        FinsLast(fins.rest, a[..k], top.loops, b[..k], top.loops);
      }
    }
  }

  // ----- the compiler accepts just these

  /** What the compiler stands in is in order. */
  ghost predicate Sane(cx: Ctx) { FinsPlaced(cx.fins, cx.sc, |cx.loops|) }

  lemma SaneOn(cx: Ctx, more: Ctx)
    requires Sane(cx) && more.fins == cx.fins && Extends(cx.sc, more.sc) && |cx.loops| <= |more.loops|
    ensures Sane(more)
  {
    FinsLast(cx.fins, cx.sc, |cx.loops|, more.sc, |more.loops|);
  }

  lemma {:induction false} StmtAccepted(s: Stmt, cx: Ctx)
    requires Sane(cx) && |cx.sc| > 0
    ensures LayS(s, cx).ok <==> PlacedS(s, ScopeNames(cx.sc), |cx.loops| > 0)
    ensures
      var after := At0(cx, LayS(s, cx));
      Sane(after) && |after.sc| > 0 && ScopeNames(after.sc) == ScopeNames(cx.sc) + Declares(s)
    decreases Size(s) + FinSize(cx.fins), 2
  {
    hide LayBlock, LayElifs, LayCatches, LayFinally, LayUnwind, OkE, ScopeNames, Uses, FinsPlaced, Extends, Placed;
    SaneAfter(s, cx);
    match s
    case Let(_, _, init) => OptIs(init, cx.sc);
    case Eval(e) => OkIs(e, cx.sc);
    case Print(e) => OkIs(e, cx.sc);
    case Throw(e) => OkIs(e, cx.sc);
    case If(c, t, es, a) =>
      IfIs(c, t, es, a, cx, [], 0);
      OkIs(c, cx.sc);
      BlockAccepted(t, cx);
      ElifsAccepted(es, a, cx.(next := LayBlock(t, cx).next));
    case While(c, b) =>
      WhileIs(c, b, cx, [], 0);
      OkIs(c, cx.sc);
      LoopSane(cx, cx.sc);
      BlockAccepted(b, cx.(loops := cx.loops + [Depth(cx.fins)]));
    case For(_, _, _, _) => ForAccepted(s, cx);
    case ForIn(_, _, _) => ForInAccepted(s, cx);
    case Try(_, _, _) => TryAccepted(s, cx);
    case With(_, _, _) => WithAccepted(s, cx);
    case Break => UnwindAccepted(cx.fins, TopLoop(cx.loops), true, cx.sc, cx.next, cx.loops);
    case Continue => UnwindAccepted(cx.fins, TopLoop(cx.loops), false, cx.sc, cx.next, cx.loops);
    case Return(e) =>
      OptIs(e, cx.sc);
      UnwindAccepted(cx.fins, 0, true, cx.sc, cx.next + 1, cx.loops);
  }

  lemma SaneAfter(s: Stmt, cx: Ctx)
    requires Sane(cx) && |cx.sc| > 0
    ensures
      var after := At0(cx, LayS(s, cx));
      Sane(after) && |after.sc| > 0 && ScopeNames(after.sc) == ScopeNames(cx.sc) + Declares(s)
  {
    hide LayBlock, LayElifs, LayCatches, LayFinally, LayUnwind, OkE, ScopeNames, FinsPlaced;
    var after := At0(cx, LayS(s, cx));
    if s.Let? { Binds(cx.sc, s.x, Binding(Machine.Local(cx.next), LetIsInt(s.decl, s.init, cx.sc))); }
    SaneOn(cx, after);
  }

  lemma LoopSane(cx: Ctx, sc: Scopes)
    requires Sane(cx) && Extends(cx.sc, sc)
    ensures Sane(cx.(sc := sc, loops := cx.loops + [Depth(cx.fins)]))
  {
    SaneOn(cx, cx.(sc := sc, loops := cx.loops + [Depth(cx.fins)]));
  }

  lemma {:induction false} ForAccepted(s: Stmt, cx: Ctx)
    requires s.For? && Sane(cx)
    ensures LayS(s, cx).ok <==> PlacedS(s, ScopeNames(cx.sc), |cx.loops| > 0)
    decreases Size(s) + FinSize(cx.fins), 1
  {
    hide LayS, LayBlock, OkE, ScopeNames, FinsPlaced, Placed, OptOk;
    ForLays(s.first, s.cond, s.update, s.body, cx, 0);
    var cx0 := cx.(sc := cx.sc + [map[]]);
    Pushed(cx.sc, map[]);
    assert ScopeNames(cx0.sc) == ScopeNames(cx.sc);
    SaneOn(cx, cx0);
    var l0 := LayOpt(s.first, cx0);
    if s.first.Some? { StmtAccepted(Semantics.AsStmt(s.first.value), cx0); }
    var cx1 := At0(cx0, l0);
    assert ScopeNames(cx1.sc) == ScopeNames(cx.sc) + Starts(s.first);
    OptIs(s.cond, cx1.sc);
    OptIs(s.update, cx1.sc);
    assert s.cond.None? || OkE(s.cond.value, l0.sc) <==> OptOk(s.cond, l0.sc) by { OptOkIs(s.cond, l0.sc); }
    LoopSane(cx1, cx1.sc);
    BlockAccepted(s.body, cx1.(loops := cx.loops + [Depth(cx.fins)]));
  }

  lemma OptOkIs(e: Option<Expr>, sc: Scopes)
    ensures OptOk(e, sc) <==> e.None? || OkE(e.value, sc)
  {}

  lemma {:induction false} ForInAccepted(s: Stmt, cx: Ctx)
    requires s.ForIn? && Sane(cx)
    ensures LayS(s, cx).ok <==> PlacedS(s, ScopeNames(cx.sc), |cx.loops| > 0)
    decreases Size(s) + FinSize(cx.fins), 1
  {
    hide LayS, LayBlock, OkIterable, ScopeNames, FinsPlaced, Placed;
    ForInEmits(s.x, s.iterable, s.body, cx, [], 0);
    var sc0 := cx.sc + [map[]];
    Pushed(cx.sc, map[]);
    assert ScopeNames(sc0) == ScopeNames(cx.sc);
    IterableIs(s.iterable, sc0);
    var cx1 := EachCtx(cx, s.x);
    Binds(sc0, s.x, Binding(Machine.Local(cx.next + 2), false));
    BareSane(cx, cx1);
    BlockAccepted(s.body, cx1);
  }

  /** A finalizer without a finally block changes nothing here. */
  lemma BareSane(cx: Ctx, more: Ctx)
    requires Sane(cx) && Extends(cx.sc, more.sc) && |cx.loops| <= |more.loops|
    requires more.fins.On? && more.fins.rest == cx.fins && more.fins.top.body.None?
    ensures Sane(more)
  {
    FinsLast(cx.fins, cx.sc, |cx.loops|, more.sc, |more.loops|);
  }

  lemma {:induction false} WithAccepted(s: Stmt, cx: Ctx)
    requires s.With? && Sane(cx)
    ensures LayS(s, cx).ok <==> PlacedS(s, ScopeNames(cx.sc), |cx.loops| > 0)
    decreases Size(s) + FinSize(cx.fins), 1
  {
    hide LayS, LayBlock, OkE, ScopeNames, FinsPlaced, Placed;
    WithEmits(s.name, s.e, s.body, cx, [], 0);
    var sc0 := cx.sc + [map[]];
    Pushed(cx.sc, map[]);
    assert ScopeNames(sc0) == ScopeNames(cx.sc);
    OkIs(s.e, sc0);
    var cx1 := WithCtx(cx, s.name);
    if s.name.Some? { Binds(sc0, s.name.value, Binding(Machine.Local(cx.next + 1), false)); }
    assert ScopeNames(cx1.sc) == ScopeNames(cx.sc) + Names(s.name);
    BareSane(cx, cx1);
    BlockAccepted(s.body, cx1);
  }

  lemma {:induction false} TryAccepted(s: Stmt, cx: Ctx)
    requires s.Try? && Sane(cx)
    ensures LayS(s, cx).ok <==> PlacedS(s, ScopeNames(cx.sc), |cx.loops| > 0)
    decreases Size(s) + FinSize(cx.fins), 1
  {
    hide LayS, LayBlock, LayCatches, LayFinally, ScopeNames, FinsPlaced, Placed, PlacedCatches;
    TryLays(s.body, s.catches, s.fin, cx, 0);
    var l1 := LayBlock(s.body, TryCtx(cx, s.fin));
    var cx2 := cx.(next := l1.next);
    var l2 := LayCatches(s.catches, s.fin, cx2);
    var cx3 := cx.(next := l2.next);
    var cx4 := cx.(next := LayFinally(s.fin, cx3).next);
    FinallyAccepted(s.fin, cx3);
    FinallyAccepted(s.fin, cx4);
    if PlacedOpt(s.fin, ScopeNames(cx.sc), |cx.loops| > 0) {
      TrySane(cx, s.fin);
      BlockAccepted(s.body, TryCtx(cx, s.fin));
      CatchesAccepted(s.catches, s.fin, cx2);
    }
  }

  lemma TrySane(cx: Ctx, f: Option<Stmts>)
    requires Sane(cx) && PlacedOpt(f, ScopeNames(cx.sc), |cx.loops| > 0)
    ensures Sane(TryCtx(cx, f))
  {
    assert cx.sc[..|cx.sc|] == cx.sc;
  }

  lemma CatchSane(cx: Ctx, name: Option<string>, f: Option<Stmts>)
    requires Sane(cx) && PlacedOpt(f, ScopeNames(cx.sc), |cx.loops| > 0)
    ensures
      var cx1 := CatchCtx(cx, name, f);
      Sane(cx1) && |cx1.sc| > 0 && ScopeNames(cx1.sc) == ScopeNames(cx.sc) + Names(name)
  {
    hide ScopeNames, Placed;
    var cx1 := CatchCtx(cx, name, f);
    Pushed(cx.sc, cx1.sc[|cx.sc|]);
    FinsLast(cx.fins, cx.sc, |cx.loops|, cx1.sc, |cx.loops|);
    assert cx1.sc[..|cx1.sc|] == cx1.sc;
    if f.Some? { More(f.value, ScopeNames(cx.sc), |cx.loops| > 0, ScopeNames(cx1.sc), |cx.loops| > 0); }
  }

  lemma {:induction false} BlockAccepted(b: Stmts, cx: Ctx)
    requires Sane(cx)
    ensures LayBlock(b, cx).ok <==> Placed(b, ScopeNames(cx.sc), |cx.loops| > 0)
    decreases BlockSize(b) + FinSize(cx.fins), 2
  {
    hide LayList, ScopeNames, FinsPlaced, Placed;
    var cx0 := cx.(sc := cx.sc + [map[]]);
    Pushed(cx.sc, map[]);
    assert ScopeNames(cx0.sc) == ScopeNames(cx.sc);
    SaneOn(cx, cx0);
    ListAccepted(b, cx0);
  }

  lemma {:induction false} ListAccepted(b: Stmts, cx: Ctx)
    requires Sane(cx) && |cx.sc| > 0
    ensures LayList(b, cx).ok <==> Placed(b, ScopeNames(cx.sc), |cx.loops| > 0)
    decreases BlockSize(b) + FinSize(cx.fins), 1
  {
    hide LayS, ScopeNames, FinsPlaced, PlacedS, Declares;
    if b.Cons? {
      StmtAccepted(b.head, cx);
      ListAccepted(b.tail, At0(cx, LayS(b.head, cx)));
    }
  }

  lemma {:induction false} ElifsAccepted(es: Elifs, a: Option<Stmts>, cx: Ctx)
    requires Sane(cx)
    ensures LayElifs(es, a, cx).ok <==>
            PlacedElifs(es, ScopeNames(cx.sc), |cx.loops| > 0) && PlacedOpt(a, ScopeNames(cx.sc), |cx.loops| > 0)
    decreases ElifsSize(es) + (if a.Some? then BlockSize(a.value) else 0) + FinSize(cx.fins), 3
  {
    hide LayBlock, OkE, ScopeNames, FinsPlaced, Placed;
    match es
    case NoElif => if a.Some? { BlockAccepted(a.value, cx); }
    case Elif(c, b, rest) =>
      OkIs(c, cx.sc);
      BlockAccepted(b, cx);
      ElifsAccepted(rest, a, cx.(next := LayBlock(b, cx).next));
  }

  lemma {:induction false} FinallyAccepted(f: Option<Stmts>, cx: Ctx)
    requires Sane(cx)
    ensures LayFinally(f, cx).ok <==> PlacedOpt(f, ScopeNames(cx.sc), |cx.loops| > 0)
    decreases (if f.Some? then BlockSize(f.value) else 0) + FinSize(cx.fins), 3
  {
    hide LayBlock, ScopeNames, FinsPlaced, Placed;
    if f.Some? { BlockAccepted(f.value, cx); }
  }

  lemma {:induction false} CatchesAccepted(cs: Catches, f: Option<Stmts>, cx: Ctx)
    requires Sane(cx) && PlacedOpt(f, ScopeNames(cx.sc), |cx.loops| > 0)
    ensures LayCatches(cs, f, cx).ok <==> PlacedCatches(cs, ScopeNames(cx.sc), |cx.loops| > 0)
    decreases CatchesSize(cs) + (if f.Some? then BlockSize(f.value) else 0) + FinSize(cx.fins), 4
  {
    hide LayList, ScopeNames, FinsPlaced, Placed;
    if cs.Catch? {
      var cx1 := CatchCtx(cx, cs.name, f);
      CatchSane(cx, cs.name, f);
      ListAccepted(cs.body, cx1);
      CatchesAccepted(cs.rest, f, cx.(next := LayList(cs.body, cx1).next));
    }
  }

  lemma {:induction false} UnwindAccepted(fins: Fins, depth: nat, iters: bool, sc: Scopes, next: nat, loops: seq<nat>)
    requires FinsPlaced(fins, sc, |loops|)
    ensures LayUnwind(fins, depth, iters, sc, next, loops).ok
    decreases FinSize(fins), 4
  {
    hide LayFinally, ScopeNames, Placed;
    if Depth(fins) > depth {
      var top, rest := fins.top, fins.rest;
      var cx := FinCtx(top, rest, sc, next, loops);
      if top.body.Some? {
        FinallyAccepted(top.body, cx);
        FinsLast(rest, sc[..top.scopes], top.loops, sc, |loops|);
      } else {
        NoFinally(cx);
      }
      UnwindAccepted(rest, depth, iters, sc, LayFin(top, rest, iters, sc, next, loops).next, loops);
    }
  }

  lemma NoFinally(cx: Ctx)
    ensures LayFinally(None, cx).ok
  {}

  /** The main result on acceptance: a function body is accepted if and only if every name is
      bound where it is used and every break and continue stands in a loop of the body. */
  lemma Accepted(b: Stmts, sc: Scopes, next: nat)
    ensures LayBlock(b, Ctx(sc, next, Bottom, [])).ok <==> Placed(b, ScopeNames(sc), false)
  {
    BlockAccepted(b, Ctx(sc, next, Bottom, []));
  }
}
