/** Where compiled code and the tree-walking evaluator part. `Parts` follows a run of the
    reference semantics and says whether it meets one of the places at which the two end
    differently; without such a place they agree, and every such place is a statement that
    they do end differently. Some places are in what is done when a statement is left; the
    others are statements which themselves evaluate something that comes to different things,
    and show it. */
module Agreement {
  import opened Syntax
  import opened Semantics
  import opened Hidden

  // ----- the places

  /** An error leaves a for-in loop over a generator: only the evaluator closes it. */
  predicate LoopParts(o: Outcome, close: seq<Event>) { o.Thr? && close != [] }

  /** A finally block that comes to nothing when an error passes through it. */
  predicate Idle(f: Stmts, w: World, fuel: nat) {
    match ExecBlock(Evaluator, f, w, fuel)
    case Normal(w1) => w1.(pend := w.pend) == w
    case Thr(w1) => w1 == w
    case _ => false
  }

  /** Left by break, continue or return, a catch body has its finally block inlined: does
      the block end otherwise in the catch scope than outside? */
  predicate ScopeParts(f: Stmts, o: Outcome, fuel: nat) {
    ShutAll(Finally(Evaluator, Some(f), o, fuel)) != Finally(Evaluator, Some(f), ShutAll(o), fuel)
  }

  /** A catch body has ended in o: it threw, and compiled code skips the finally block; or
      it is left by a jump. */
  predicate CatchParts(f: Stmts, o: Outcome, fuel: nat)
    requires !o.Timeout?
  {
    if o.Thr? then !Idle(f, Shut(o.w), fuel) else Leaves(o) && ScopeParts(f, o, fuel)
  }

  /** A finally block ran while an error was on its way and ended normally in w1. Compiled
      code goes on with the error that is pending by then; when none is, it runs the block
      again, which may throw the old error by itself. */
  predicate UncaughtParts(f: Stmts, w: World, w1: World, fuel: nat) {
    w1.pend != w.pend && !(w1.pend.None? && ExecBlock(Compiled, f, w1, fuel) == Thr(w1.(pend := w.pend)))
  }

  predicate SameCond(c: Expr, env: Env) { EvalCond(Compiled, c, env) == EvalCond(Evaluator, c, env) }

  /** The conditions of the chain that the evaluator comes to. */
  predicate ChainAgrees(es: Elifs, env: Env) {
    es.Elif? ==>
      var r := EvalCond(Evaluator, es.c, env);
      SameCond(es.c, env) && (r.Yields? && r.v != Bool(true) ==> ChainAgrees(es.rest, r.env))
  }

  /** An update that is evaluated for its effect. */
  predicate SameUpdate(u: Option<Expr>, env: Env) {
    var a, b := OptEval(Compiled, u, env), OptEval(Evaluator, u, env);
    a.env == b.env && a.Fails? == b.Fails? && (a.Fails? ==> a.err == b.err)
  }

  /** The conditions and updates of a for loop, as far as the evaluator's run goes. */
  predicate LoopAgrees(c: Option<Expr>, u: Option<Expr>, b: Stmts, w: World, fuel: nat)
    decreases fuel
  {
    fuel > 0 ==>
      var r := Tested(Evaluator, c, w.env);
      && Tested(Compiled, c, w.env) == r
      && (r.Yields? && r.v != Bool(false) ==>
            var o := ExecBlock(Evaluator, b, w.(env := r.env), fuel);
            o.Normal? || o.Cnt? ==>
              var r1 := OptEval(Evaluator, u, o.w.env);
              SameUpdate(u, o.w.env) && (r1.Yields? ==> LoopAgrees(c, u, b, o.w.(env := r1.env), fuel - 1)))
  }

  /** What the statement itself evaluates - apart from what the statements inside it do - comes to
      the same in both back ends. */
  predicate HeadsAgree(s: Stmt, w: World, fuel: nat) {
    match s
    case If(c, _, es, _) =>
      var r := EvalCond(Evaluator, c, w.env);
      SameCond(c, w.env) && (r.Yields? && r.v != Bool(true) ==> ChainAgrees(es, r.env))
    case While(c, _) => fuel > 0 ==> SameCond(c, w.env)
    case For(first, c, u, b) =>
      var w0 := Open(w, map[]);
      var o := if first.None? then Normal(w0) else ExecS(Evaluator, AsStmt(first.value), w0, fuel);
      && (first.Some? ==> ExecS(Compiled, AsStmt(first.value), w0, fuel) == o)
      && (o.Normal? ==> LoopAgrees(c, u, b, o.w, fuel))
    case ForIn(_, it, _) =>
      var env := Open(w, map[]).env;
      EvalIterable(Compiled, it, env) == EvalIterable(Evaluator, it, env)
    case With(_, e, _) =>
      var env := Open(w, map[]).env;
      EvalE(Compiled, e, env) == EvalE(Evaluator, e, env)
    case Try(_, _, _) => true
    case _ => ExecS(Compiled, s, w, fuel) == ExecS(Evaluator, s, w, fuel)
  }

  /** What the statement itself evaluates shows: it ends differently. */
  predicate HeadParts(s: Stmt, w: World, fuel: nat) {
    !HeadsAgree(s, w, fuel) && ExecS(Compiled, s, w, fuel) != ExecS(Evaluator, s, w, fuel)
  }

  /** Does the evaluator's run of s meet such a place? */
  predicate Parts(s: Stmt, w: World, fuel: nat)
    decreases fuel, Size(s), 2
  {
    if HeadsAgree(s, w, fuel) then PartsInside(s, w, fuel) else HeadParts(s, w, fuel)
  }

  predicate PartsInside(s: Stmt, w: World, fuel: nat)
    decreases fuel, Size(s), 1
  {
    match s
    case If(c, t, es, a) =>
      var r := EvalCond(Evaluator, c, w.env);
      r.Yields? && if r.v == Bool(true) then BlockParts(t, w.(env := r.env), fuel)
          else ElifsPart(es, a, w.(env := r.env), fuel)
    case While(c, b) =>
      var r := EvalCond(Evaluator, c, w.env);
      fuel > 0 && r.Yields? && r.v != Bool(false) &&
      var o := ExecBlock(Evaluator, b, w.(env := r.env), fuel);
      BlockParts(b, w.(env := r.env), fuel) || ((o.Normal? || o.Cnt?) && Parts(s, o.w, fuel - 1))
    case For(first, c, u, b) =>
      var w0 := Open(w, map[]);
      var o := if first.None? then Normal(w0) else ExecS(Evaluator, AsStmt(first.value), w0, fuel);
      o.Normal? && ForParts(c, u, b, o.w, fuel)
    case ForIn(x, it, b) =>
      var w0 := Open(w, map[]);
      var r := EvalIterable(Evaluator, it, w0.env);
      r.Yields? &&
      var w1 := Begun(w0, x, r.env, r.v);
      EachParts(x, b, w1, IterRest(r.v), fuel)
          || LoopParts(ExecEach(Evaluator, x, b, w1, IterRest(r.v), fuel), Close(r.v))
    case Try(b, cs, f) =>
      var o := ExecBlock(Evaluator, b, w, fuel);
      BlockParts(b, w, fuel) || (!o.Timeout? && if o.Thr? then HandlerParts(Select(cs, PendOf(o.w)), f, o.w, fuel)
          else f.Some? && BlockParts(f.value, o.w, fuel))
    case With(name, e, b) =>
      var w0 := Open(w, map[]);
      var r := EvalE(Evaluator, e, w0.env);
      r.Yields? && BlockParts(b,
          Log(w0.(env := if name.None? then r.env else Bind(r.env, name.value, r.v)), EnterEvents(r.v)), fuel)
    case _ => false
  }

  predicate BlockParts(b: Stmts, w: World, fuel: nat)
    decreases fuel, BlockSize(b), 1
  {
    ListParts(b, Open(w, map[]), fuel)
  }

  predicate ListParts(b: Stmts, w: World, fuel: nat)
    decreases fuel, BlockSize(b), 0
  {
    b.Cons? &&
    var o := ExecS(Evaluator, b.head, w, fuel);
    Parts(b.head, w, fuel) || (o.Normal? && ListParts(b.tail, o.w, fuel))
  }

  predicate ElifsPart(es: Elifs, a: Option<Stmts>, w: World, fuel: nat)
    decreases fuel, ElifsSize(es) + (if a.Some? then BlockSize(a.value) else 0), 2
  {
    match es
    case NoElif => a.Some? && BlockParts(a.value, w, fuel)
    case Elif(c, b, rest) =>
      var r := EvalCond(Evaluator, c, w.env);
      r.Yields? && if r.v == Bool(true) then BlockParts(b, w.(env := r.env), fuel)
          else ElifsPart(rest, a, w.(env := r.env), fuel)
  }

  predicate ForParts(c: Option<Expr>, u: Option<Expr>, b: Stmts, w: World, fuel: nat)
    decreases fuel, BlockSize(b), 2
  {
    var r := Tested(Evaluator, c, w.env);
    fuel > 0 && r.Yields? && r.v != Bool(false) &&
    var o := ExecBlock(Evaluator, b, w.(env := r.env), fuel);
    BlockParts(b, w.(env := r.env), fuel) ||
    ((o.Normal? || o.Cnt?) && var r1 := OptEval(Evaluator, u, o.w.env);
        r1.Yields? && ForParts(c, u, b, o.w.(env := r1.env), fuel - 1))
  }

  predicate EachParts(x: string, b: Stmts, w: World, items: seq<Value>, fuel: nat)
    decreases fuel, BlockSize(b), 2, |items|
  {
    items != [] &&
    var w1 := w.(env := Bind(w.env, x, items[0]));
    var o := ExecBlock(Evaluator, b, w1, fuel);
    BlockParts(b, w1, fuel) || ((o.Normal? || o.Cnt?) && EachParts(x, b, o.w, items[1..], fuel))
  }

  /** The world a catch clause starts in. */
  function CatchWorld(name: Option<string>, w: World): World {
    Open(w, if name.Some? then map[name.value := PendOf(w)] else map[]).(pend := None)
  }

  predicate HandlerParts(cs: Catches, f: Option<Stmts>, w: World, fuel: nat)
    decreases fuel, CatchesSize(cs) + (if f.Some? then BlockSize(f.value) else 0), 3
  {
    match cs
    case Catch(_, name, b, _) =>
      var o := ExecList(Evaluator, b, CatchWorld(name, w), fuel);
      || ListParts(b, CatchWorld(name, w), fuel)
      || (f.Some? && !o.Timeout? &&
          (CatchParts(f.value, o, fuel)
              || (!o.Thr? && BlockParts(f.value, if o.Normal? then Shut(o.w) else o.w, fuel))))
    case NoCatch =>
      f.Some? &&
      var o := ExecBlock(Evaluator, f.value, w, fuel);
      BlockParts(f.value, w, fuel) || (o.Normal? && UncaughtParts(f.value, w, o.w, fuel))
  }

  // ----- each place on its own: there, and only there, the two end differently

  ghost predicate Same(s: Stmt, w: World, fuel: nat) { ExecS(Compiled, s, w, fuel) == ExecS(Evaluator, s, w, fuel) }
  ghost predicate SameBlock(b: Stmts, w: World, fuel: nat) {
    ExecBlock(Compiled, b, w, fuel) == ExecBlock(Evaluator, b, w, fuel)
  }
  ghost predicate SameList(b: Stmts, w: World, fuel: nat) {
    ExecList(Compiled, b, w, fuel) == ExecList(Evaluator, b, w, fuel)
  }

  lemma LoopExact(o: Outcome, close: seq<Event>)
    ensures ShutAll(LeaveEach(Compiled, o, close)) == ShutAll(LeaveEach(Evaluator, o, close)) <==> !LoopParts(o, close)
  {
    if o.Thr? {
      if close == [] { assert o.w.trace + close == o.w.trace; }
      else { assert |o.w.trace + close| != |o.w.trace|; }
    }
  }

  /** x++ and x-- come to different values wherever they come to a value, and to the same where only
      their effect counts. */
  lemma StepExact(x: string, inc: bool, env: Env)
    ensures SameUpdate(Some(Post(x, inc)), env)
    ensures EvalE(Compiled, Post(x, inc), env) == EvalE(Evaluator, Post(x, inc), env) <==>
            EvalE(Evaluator, Post(x, inc), env).Fails?
  {
    hide Find, Assigned;
  }

  /** What the bounds that the evaluator does not come to would have changed is nothing. */
  predicate RangeHolds(a: Expr, b: Expr, c: Expr, env: Env) {
    var x := EvalE(Evaluator, a, env);
    x.Yields? ==>
      var y := EvalE(Evaluator, b, x.env);
      if !x.v.Int? then (if y.Fails? then y.env else EvalE(Evaluator, c, y.env).env) == x.env
      else y.Yields? && !y.v.Int? ==> EvalE(Evaluator, c, y.env).env == y.env
  }

  /** A range whose bounds each come to the same. */
  lemma RangeExact(a: Expr, b: Expr, c: Expr, exclusive: bool, env: Env)
    requires
      var x := EvalE(Evaluator, a, env);
      var y := EvalE(Evaluator, b, x.env);
      && EvalE(Compiled, a, env) == x && EvalE(Compiled, b, x.env) == y
      && EvalE(Compiled, c, y.env) == EvalE(Evaluator, c, y.env)
    ensures
      var it := Range(Some(a), Some(b), Some(c), exclusive);
      EvalIterable(Compiled, it, env) == EvalIterable(Evaluator, it, env) <==> RangeHolds(a, b, c, env)
  {
    hide EvalE, RangeItems;
    var x := EvalE(Evaluator, a, env);
    var y := EvalE(Evaluator, b, x.env);
    AFault(Evaluator, b, x.env);
    AFault(Evaluator, c, y.env);
  }

  /** Every failing expression fails with a fault. */
  lemma {:induction false} AFault(d: Dialect, e: Expr, env: Env)
    ensures EvalE(d, e, env).Fails? ==> EvalE(d, e, env).err == FAULT
    decreases ExprSize(e)
  {
    hide Find, Assigned, EvalBin, EvalUn;
    match e
    case Assign(_, f) => AFault(d, f, env);
    case Un(_, f) => AFault(d, f, env);
    case Bin(_, l, r) => AFault(d, l, env); AFault(d, r, EvalE(d, l, env).env);
    case And(l, r) => AFault(d, l, env); AFault(d, r, EvalE(d, l, env).env);
    case Or(l, r) => AFault(d, l, env); AFault(d, r, EvalE(d, l, env).env);
    case Coalesce(l, r) => AFault(d, l, env); AFault(d, r, EvalE(d, l, env).env);
    case Ternary(c, t, f) =>
      AFault(d, c, env);
      AFault(d, t, EvalE(d, c, env).env);
      AFault(d, f, EvalE(d, c, env).env);
    case _ =>
  }

  lemma UncaughtExact(f: Stmts, w: World, fuel: nat)
    requires w.pend.Some? && SameBlock(f, w, fuel)
    ensures
      var o := ExecBlock(Evaluator, f, w, fuel);
      ExecHandler(Compiled, NoCatch, Some(f), w, fuel) == ExecHandler(Evaluator, NoCatch, Some(f), w, fuel) <==>
      !(o.Normal? && UncaughtParts(f, w, o.w, fuel))
  {
    hide ExecBlock;
    var o := ExecBlock(Evaluator, f, w, fuel);
    if o.Normal? && o.w.pend.None? {
      var again := ExecBlock(Compiled, f, o.w, fuel);
      assert Finally(Compiled, Some(f), Normal(o.w), fuel) == again || again.Normal?;
    }
  }

  /** A catch clause whose body has ended in o. */
  lemma CatchExact(f: Stmts, o: Outcome, fuel: nat)
    requires !o.Timeout? && (o.Thr? ==> o.w.pend.Some?)
    requires o.Normal? ==> SameBlock(f, Shut(o.w), fuel)
    requires Leaves(o) ==> SameBlock(f, o.w, fuel)
    ensures AfterCatch(Compiled, Some(f), o, fuel) == AfterCatch(Evaluator, Some(f), o, fuel) <==>
        !CatchParts(f, o, fuel)
  {
    hide ExecBlock;
  }

  // ----- without such a place the two agree, also on runs that do not end

  lemma {:induction false} Statement(s: Stmt, w: World, fuel: nat)
    requires !Parts(s, w, fuel)
    ensures Same(s, w, fuel)
    decreases fuel, Size(s), 2
  {
    hide ExecS, HeadsAgree, PartsInside;
    if HeadsAgree(s, w, fuel) { Insides(s, w, fuel); }
  }

  lemma {:induction false} Insides(s: Stmt, w: World, fuel: nat)
    requires HeadsAgree(s, w, fuel) && !PartsInside(s, w, fuel)
    ensures Same(s, w, fuel)
    decreases fuel, Size(s), 1
  {
    hide EvalE, EvalCond, OptEval, Bind, ExecBlock, ExecElifs, BlockParts, ElifsPart, Parts, LoopAgrees, ChainAgrees,
        EvalIterable;
    match s
    case If(c, t, es, a) =>
      var r := EvalCond(Evaluator, c, w.env);
      if r.Yields? {
        if r.v == Bool(true) { Block(t, w.(env := r.env), fuel); } else { Chain(es, a, w.(env := r.env), fuel); }
      }
    case While(c, b) =>
      if fuel > 0 {
        var r := EvalCond(Evaluator, c, w.env);
        if r.Yields? && r.v != Bool(false) {
          Block(b, w.(env := r.env), fuel);
          var o := ExecBlock(Evaluator, b, w.(env := r.env), fuel);
          if o.Normal? || o.Cnt? { Statement(s, o.w, fuel - 1); }
        }
      }
    case For(_, _, _, _) => Scoped(s, w, fuel);
    case ForIn(_, _, _) => Scoped(s, w, fuel);
    case Try(_, _, _) => Guarded(s, w, fuel);
    case With(_, _, _) => Guarded(s, w, fuel);
    case _ =>
  }

  lemma {:induction false} Scoped(s: Stmt, w: World, fuel: nat)
    requires (s.For? || s.ForIn?) && HeadsAgree(s, w, fuel) && !PartsInside(s, w, fuel)
    ensures Same(s, w, fuel)
    decreases fuel, Size(s), 0
  {
    hide EvalE, EvalIterable, OptEval, Bind, Close, IterRest, ExecFor, ExecEach, LeaveEach, ForParts, EachParts,
        LoopParts, LoopAgrees;
    var w0 := Open(w, map[]);
    if s.For? {
      LoopEqual(Compiled, s.first, s.cond, s.update, s.body, w, fuel);
      LoopEqual(Evaluator, s.first, s.cond, s.update, s.body, w, fuel);
      var o := if s.first.None? then Normal(w0) else ExecS(Evaluator, AsStmt(s.first.value), w0, fuel);
      if o.Normal? { Loop(s.cond, s.update, s.body, o.w, fuel); }
    } else {
      ForInEqual(Compiled, s.x, s.iterable, s.body, w, fuel);
      ForInEqual(Evaluator, s.x, s.iterable, s.body, w, fuel);
      var r := EvalIterable(Evaluator, s.iterable, w0.env);
      if r.Yields? {
        var w1 := Begun(w0, s.x, r.env, r.v);
        Each(s.x, s.body, w1, IterRest(r.v), fuel);
        LoopExact(ExecEach(Evaluator, s.x, s.body, w1, IterRest(r.v), fuel), Close(r.v));
      }
    }
  }

  lemma LoopEqual(d: Dialect, first: Option<Simple>, c: Option<Expr>, u: Option<Expr>, b: Stmts, w: World, fuel: nat)
    ensures
      var o := if first.None? then Normal(Open(w, map[])) else ExecS(d, AsStmt(first.value), Open(w, map[]), fuel);
      ExecS(d, For(first, c, u, b), w, fuel) == ShutAll(if o.Normal? then ExecFor(d, c, u, b, o.w, fuel) else o)
  {
    hide ExecFor, ShutAll, Open, AsStmt;
  }

  lemma ForInEqual(d: Dialect, x: string, it: Iterable, b: Stmts, w: World, fuel: nat)
    ensures
      var w0 := Open(w, map[]);
      var r := EvalIterable(d, it, w0.env);
      ExecS(d, ForIn(x, it, b), w, fuel) ==
        ShutAll(if r.Fails? then Throwing(w0, r.env, r.err)
                else LeaveEach(d, ExecEach(d, x, b, Begun(w0, x, r.env, r.v), IterRest(r.v), fuel), Close(r.v)))
  {
    hide EvalIterable, ExecEach, LeaveEach, Close, IterRest, Begun, ShutAll, Open, Throwing;
  }

  lemma {:induction false} Guarded(s: Stmt, w: World, fuel: nat)
    requires (s.Try? || s.With?) && HeadsAgree(s, w, fuel) && !PartsInside(s, w, fuel)
    ensures Same(s, w, fuel)
    decreases fuel, Size(s), 0
  {
    hide EvalE, Bind, Select, EnterEvents, ExitEvents, ExecBlock, ExecHandler, Finally, BlockParts, HandlerParts;
    if s.Try? {
      TryEqual(Compiled, s.body, s.catches, s.fin, w, fuel);
      TryEqual(Evaluator, s.body, s.catches, s.fin, w, fuel);
      Block(s.body, w, fuel);
      var o := ExecBlock(Evaluator, s.body, w, fuel);
      if o.Thr? { Handler(Select(s.catches, PendOf(o.w)), s.fin, o.w, fuel); } else { Last(s.fin, o, fuel); }
    } else {
      var w0 := Open(w, map[]);
      var r := EvalE(Evaluator, s.e, w0.env);
      WithEqual(Compiled, s.name, s.e, s.body, w, fuel);
      WithEqual(Evaluator, s.name, s.e, s.body, w, fuel);
      if r.Yields? {
        Block(s.body, Log(w0.(env := if s.name.None? then r.env else Bind(r.env, s.name.value, r.v)),
            EnterEvents(r.v)), fuel);
      }
    }
  }

  /** The main result on the two back ends: a run that meets none of the places ends the
      same way in both, or goes on for ever in both. */
  lemma {:induction false} Block(b: Stmts, w: World, fuel: nat)
    requires !BlockParts(b, w, fuel)
    ensures SameBlock(b, w, fuel)
    decreases fuel, BlockSize(b), 1
  {
    hide ExecList, Open, ListParts;
    List(b, Open(w, map[]), fuel);
  }

  lemma {:induction false} List(b: Stmts, w: World, fuel: nat)
    requires !ListParts(b, w, fuel)
    ensures SameList(b, w, fuel)
    decreases fuel, BlockSize(b), 0
  {
    hide ExecS, Parts;
    if b.Cons? {
      Statement(b.head, w, fuel);
      var o := ExecS(Evaluator, b.head, w, fuel);
      if o.Normal? { List(b.tail, o.w, fuel); }
    }
  }

  lemma {:induction false} Chain(es: Elifs, a: Option<Stmts>, w: World, fuel: nat)
    requires !ElifsPart(es, a, w, fuel) && ChainAgrees(es, w.env)
    ensures ExecElifs(Compiled, es, a, w, fuel) == ExecElifs(Evaluator, es, a, w, fuel)
    decreases fuel, ElifsSize(es) + (if a.Some? then BlockSize(a.value) else 0), 2
  {
    hide EvalCond, ExecBlock, BlockParts;
    match es
    case NoElif => if a.Some? { Block(a.value, w, fuel); }
    case Elif(c, b, rest) =>
      var r := EvalCond(Evaluator, c, w.env);
      if r.Yields? {
        if r.v == Bool(true) { Block(b, w.(env := r.env), fuel); } else { Chain(rest, a, w.(env := r.env), fuel); }
      }
  }

  lemma {:induction false} Loop(c: Option<Expr>, u: Option<Expr>, b: Stmts, w: World, fuel: nat)
    requires !ForParts(c, u, b, w, fuel) && LoopAgrees(c, u, b, w, fuel)
    ensures ExecFor(Compiled, c, u, b, w, fuel) == ExecFor(Evaluator, c, u, b, w, fuel)
    decreases fuel, BlockSize(b), 2
  {
    hide EvalCond, OptEval, ExecBlock, BlockParts;
    if fuel > 0 {
      var r := Tested(Evaluator, c, w.env);
      if r.Yields? && r.v != Bool(false) {
        Block(b, w.(env := r.env), fuel);
        var o := ExecBlock(Evaluator, b, w.(env := r.env), fuel);
        if o.Normal? || o.Cnt? {
          var r1 := OptEval(Evaluator, u, o.w.env);
          if r1.Yields? { Loop(c, u, b, o.w.(env := r1.env), fuel - 1); }
        }
      }
    }
  }

  lemma {:induction false} Each(x: string, b: Stmts, w: World, items: seq<Value>, fuel: nat)
    requires !EachParts(x, b, w, items, fuel)
    ensures ExecEach(Compiled, x, b, w, items, fuel) == ExecEach(Evaluator, x, b, w, items, fuel)
    decreases fuel, BlockSize(b), 2, |items|
  {
    hide Bind, ExecBlock, BlockParts;
    if items != [] {
      var w1 := w.(env := Bind(w.env, x, items[0]));
      Block(b, w1, fuel);
      var o := ExecBlock(Evaluator, b, w1, fuel);
      if o.Normal? || o.Cnt? { Each(x, b, o.w, items[1..], fuel); }
    }
  }

  lemma {:induction false} Last(f: Option<Stmts>, o: Outcome, fuel: nat)
    requires f.Some? && !o.Timeout? ==> !BlockParts(f.value, o.w, fuel)
    ensures Finally(Compiled, f, o, fuel) == Finally(Evaluator, f, o, fuel)
    decreases fuel, if f.Some? then BlockSize(f.value) else 0, 2
  {
    hide ExecBlock, BlockParts;
    if f.Some? && !o.Timeout? { Block(f.value, o.w, fuel); }
  }

  lemma {:induction false} Handler(cs: Catches, f: Option<Stmts>, w: World, fuel: nat)
    requires w.pend.Some? && !HandlerParts(cs, f, w, fuel)
    ensures ExecHandler(Compiled, cs, f, w, fuel) == ExecHandler(Evaluator, cs, f, w, fuel)
    decreases fuel, CatchesSize(cs) + (if f.Some? then BlockSize(f.value) else 0), 3
  {
    hide ExecBlock, ExecList, ExecHandler, Finally, BlockParts, ListParts, CatchParts, UncaughtParts, AfterCatch;
    match cs
    case Catch(kind, name, b, rest) =>
      var w1 := CatchWorld(name, w);
      var o := ExecList(Evaluator, b, w1, fuel);
      List(b, w1, fuel);
      CatchEqual(Compiled, kind, name, b, rest, f, w, fuel);
      CatchEqual(Evaluator, kind, name, b, rest, f, w, fuel);
      AfterAgrees(f, o, fuel);
    case NoCatch =>
      if f.Some? {
        Block(f.value, w, fuel);
        UncaughtExact(f.value, w, fuel);
      } else {
        NoFinally(w, fuel);
      }
  }

  lemma {:induction false} AfterAgrees(f: Option<Stmts>, o: Outcome, fuel: nat)
    requires !o.Timeout? ==> (o.Thr? ==> o.w.pend.Some?)
    requires f.Some? && !o.Timeout? ==> !CatchParts(f.value, o, fuel)
    requires f.Some? && !o.Timeout? && !o.Thr? ==> !BlockParts(f.value, if o.Normal? then Shut(o.w) else o.w, fuel)
    ensures AfterCatch(Compiled, f, o, fuel) == AfterCatch(Evaluator, f, o, fuel)
    decreases fuel, if f.Some? then BlockSize(f.value) else 0, 2
  {
    if f.Some? && !o.Timeout? {
      if !o.Thr? { Block(f.value, if o.Normal? then Shut(o.w) else o.w, fuel); }
      CatchExact(f.value, o, fuel);
    }
  }

  lemma NoFinally(w: World, fuel: nat)
    ensures ExecHandler(Compiled, NoCatch, None, w, fuel) == ExecHandler(Evaluator, NoCatch, None, w, fuel)
  {}

  // ----- every such place is a statement of the program that ends differently

  ghost predicate Within(t: Stmt, s: Stmt) {
    t == s ||
    match s
    case If(_, thn, es, a) => WithinBlock(t, thn) || WithinElifs(t, es) || (a.Some? && WithinBlock(t, a.value))
    case While(_, b) => WithinBlock(t, b)
    case For(_, _, _, b) => WithinBlock(t, b)
    case ForIn(_, _, b) => WithinBlock(t, b)
    case Try(b, cs, f) => WithinBlock(t, b) || WithinCatches(t, cs) || (f.Some? && WithinBlock(t, f.value))
    case With(_, _, b) => WithinBlock(t, b)
    case _ => false
  }

  ghost predicate WithinBlock(t: Stmt, b: Stmts) { b.Cons? && (Within(t, b.head) || WithinBlock(t, b.tail)) }

  ghost predicate WithinElifs(t: Stmt, es: Elifs) { es.Elif? && (WithinBlock(t, es.body) || WithinElifs(t, es.rest)) }

  ghost predicate WithinCatches(t: Stmt, cs: Catches) {
    cs.Catch? && (WithinBlock(t, cs.body) || WithinCatches(t, cs.rest))
  }

  /** A statement, and a world and fuel to run it with. */
  datatype Point = Point(s: Stmt, w: World, fuel: nat)

  ghost predicate Differs(p: Point) { !Same(p.s, p.w, p.fuel) }

  /** The converse: where a run meets one of the places, some statement of the program ends
      differently in the two back ends. */
  lemma {:induction false} Parted(s: Stmt, w: World, fuel: nat) returns (p: Point)
    requires Parts(s, w, fuel)
    ensures Within(p.s, s) && Differs(p)
    decreases fuel, Size(s), 2
  {
    hide ExecS, HeadsAgree, PartsInside;
    if HeadsAgree(s, w, fuel) { p := InsideParted(s, w, fuel); } else { p := Point(s, w, fuel); }
  }

  lemma {:induction false} InsideParted(s: Stmt, w: World, fuel: nat) returns (p: Point)
    requires HeadsAgree(s, w, fuel) && PartsInside(s, w, fuel)
    ensures Within(p.s, s) && Differs(p)
    decreases fuel, Size(s), 1
  {
    hide Parts, LoopAgrees, ChainAgrees, EvalIterable, EvalE, EvalCond, OptEval, Bind, ExecBlock, ExecElifs,
        BlockParts, ElifsPart, Same;
    match s
    case If(c, t, es, a) =>
      var r := EvalCond(Evaluator, c, w.env);
      if r.v == Bool(true) {
        p := BlockParted(t, w.(env := r.env), fuel);
      } else {
        p := ElifsParted(es, a, w.(env := r.env), fuel);
      }
    case While(c, b) =>
      var w1 := w.(env := EvalCond(Evaluator, c, w.env).env);
      if BlockParts(b, w1, fuel) {
        p := BlockParted(b, w1, fuel);
      } else {
        p := Parted(s, ExecBlock(Evaluator, b, w1, fuel).w, fuel - 1);
      }
    case For(_, _, _, _) => p := ScopedParted(s, w, fuel);
    case ForIn(_, _, _) => p := ScopedParted(s, w, fuel);
    case Try(_, _, _) => p := GuardedParted(s, w, fuel);
    case With(_, _, _) => p := GuardedParted(s, w, fuel);
  }

  lemma {:induction false} ScopedParted(s: Stmt, w: World, fuel: nat) returns (p: Point)
    requires (s.For? || s.ForIn?) && HeadsAgree(s, w, fuel) && PartsInside(s, w, fuel)
    ensures Within(p.s, s) && Differs(p)
    decreases fuel, Size(s), 0
  {
    hide EvalE, EvalIterable, OptEval, Bind, Close, IterRest, ExecFor, ExecEach, LeaveEach, ForParts, EachParts,
        LoopParts;
    var w0 := Open(w, map[]);
    if s.For? {
      p := ForParted(s.cond, s.update, s.body, (if s.first.None? then Normal(w0)
          else ExecS(Evaluator, AsStmt(s.first.value), w0, fuel)).w, fuel);
    } else {
      var r := EvalIterable(Evaluator, s.iterable, w0.env);
      var w1 := Begun(w0, s.x, r.env, r.v);
      if EachParts(s.x, s.body, w1, IterRest(r.v), fuel) {
        p := EachParted(s.x, s.body, w1, IterRest(r.v), fuel);
      } else {
        Each(s.x, s.body, w1, IterRest(r.v), fuel);
        LoopExact(ExecEach(Evaluator, s.x, s.body, w1, IterRest(r.v), fuel), Close(r.v));
        ForInEqual(Compiled, s.x, s.iterable, s.body, w, fuel);
        ForInEqual(Evaluator, s.x, s.iterable, s.body, w, fuel);
        p := Point(s, w, fuel);
      }
    }
  }

  lemma {:induction false} GuardedParted(s: Stmt, w: World, fuel: nat) returns (p: Point)
    requires (s.Try? || s.With?) && HeadsAgree(s, w, fuel) && PartsInside(s, w, fuel)
    ensures Within(p.s, s) && Differs(p)
    decreases fuel, Size(s), 0
  {
    hide EvalE, Bind, Select, EnterEvents, ExitEvents, ExecBlock, ExecHandler, Finally, BlockParts, HandlerParts,
        ExecS, WithinBlock, WithinCatches;
    if s.With? {
      var w0 := Open(w, map[]);
      var r := EvalE(Evaluator, s.e, w0.env);
      p := BlockParted(s.body, Log(w0.(env := if s.name.None? then r.env
          else Bind(r.env, s.name.value, r.v)), EnterEvents(r.v)), fuel);
      return;
    }
    if BlockParts(s.body, w, fuel) {
      p := BlockParted(s.body, w, fuel);
      return;
    }
    Block(s.body, w, fuel);
    TryEqual(Compiled, s.body, s.catches, s.fin, w, fuel);
    TryEqual(Evaluator, s.body, s.catches, s.fin, w, fuel);
    var o := ExecBlock(Evaluator, s.body, w, fuel);
    if o.Thr? {
      var found;
      found, p := HandlerParted(Select(s.catches, PendOf(o.w)), s.fin, o.w, fuel);
      if found { SelectWithin(p.s, s.catches, PendOf(o.w)); } else { p := Point(s, w, fuel); }
    } else {
      p := BlockParted(s.fin.value, o.w, fuel);
    }
  }

  lemma {:induction false} SelectWithin(t: Stmt, cs: Catches, err: Value)
    ensures WithinCatches(t, Select(cs, err)) ==> WithinCatches(t, cs)
  {
    hide WithinBlock;
    if cs.Catch? && !Matches(cs.kind, err) { SelectWithin(t, cs.rest, err); }
  }

  lemma {:induction false} BlockParted(b: Stmts, w: World, fuel: nat) returns (p: Point)
    requires BlockParts(b, w, fuel)
    ensures WithinBlock(p.s, b) && Differs(p)
    decreases fuel, BlockSize(b), 1
  {
    hide ListParts;
    p := ListParted(b, Open(w, map[]), fuel);
  }

  lemma {:induction false} ListParted(b: Stmts, w: World, fuel: nat) returns (p: Point)
    requires ListParts(b, w, fuel)
    ensures WithinBlock(p.s, b) && Differs(p)
    decreases fuel, BlockSize(b), 0
  {
    hide ExecS, Parts, Within;
    if Parts(b.head, w, fuel) {
      p := Parted(b.head, w, fuel);
    } else {
      p := ListParted(b.tail, ExecS(Evaluator, b.head, w, fuel).w, fuel);
    }
  }

  lemma {:induction false} ElifsParted(es: Elifs, a: Option<Stmts>, w: World, fuel: nat) returns (p: Point)
    requires ElifsPart(es, a, w, fuel)
    ensures (WithinElifs(p.s, es) || (a.Some? && WithinBlock(p.s, a.value))) && Differs(p)
    decreases fuel, ElifsSize(es) + (if a.Some? then BlockSize(a.value) else 0), 2
  {
    hide EvalCond, BlockParts, WithinBlock;
    match es
    case NoElif => p := BlockParted(a.value, w, fuel);
    case Elif(c, b, rest) =>
      var r := EvalCond(Evaluator, c, w.env);
      if r.v == Bool(true) {
        p := BlockParted(b, w.(env := r.env), fuel);
      } else {
        p := ElifsParted(rest, a, w.(env := r.env), fuel);
      }
  }

  lemma {:induction false} ForParted(c: Option<Expr>, u: Option<Expr>, b: Stmts, w: World, fuel: nat) returns (p: Point)
    requires ForParts(c, u, b, w, fuel)
    ensures WithinBlock(p.s, b) && Differs(p)
    decreases fuel, BlockSize(b), 2
  {
    hide OptEval, ExecBlock, BlockParts, WithinBlock, Tested;
    var w1 := w.(env := Tested(Evaluator, c, w.env).env);
    if BlockParts(b, w1, fuel) {
      p := BlockParted(b, w1, fuel);
    } else {
      var w2 := ExecBlock(Evaluator, b, w1, fuel).w;
      p := ForParted(c, u, b, w2.(env := OptEval(Evaluator, u, w2.env).env), fuel - 1);
    }
  }

  lemma {:induction false} EachParted(x: string, b: Stmts, w: World, items: seq<Value>, fuel: nat) returns (p: Point)
    requires EachParts(x, b, w, items, fuel)
    ensures WithinBlock(p.s, b) && Differs(p)
    decreases fuel, BlockSize(b), 2, |items|
  {
    hide Bind, ExecBlock, BlockParts, WithinBlock;
    var w1 := w.(env := Bind(w.env, x, items[0]));
    if BlockParts(b, w1, fuel) {
      p := BlockParted(b, w1, fuel);
    } else {
      p := EachParted(x, b, ExecBlock(Evaluator, b, w1, fuel).w, items[1..], fuel);
    }
  }

  /** Either a statement inside the handler, or the handler as a whole. */
  lemma {:induction false} HandlerParted(cs: Catches, f: Option<Stmts>, w: World, fuel: nat)
    returns (found: bool, p: Point)
    requires w.pend.Some? && HandlerParts(cs, f, w, fuel)
    ensures found ==> (WithinCatches(p.s, cs) || (f.Some? && WithinBlock(p.s, f.value))) && Differs(p)
    ensures !found ==> ExecHandler(Compiled, cs, f, w, fuel) != ExecHandler(Evaluator, cs, f, w, fuel)
    decreases fuel, CatchesSize(cs) + (if f.Some? then BlockSize(f.value) else 0), 3
  {
    hide ExecBlock, ExecList, ExecHandler, Finally, BlockParts, ListParts, CatchParts, UncaughtParts, AfterCatch,
        WithinBlock, Shut;
    p := Point(Break, w, 0);
    match cs
    case Catch(kind, name, b, rest) =>
      var w1 := CatchWorld(name, w);
      var o := ExecList(Evaluator, b, w1, fuel);
      found := true;
      if ListParts(b, w1, fuel) { p := ListParted(b, w1, fuel); return; }
      var w2 := if o.Normal? then Shut(o.w) else o.w;
      if !o.Thr? && BlockParts(f.value, w2, fuel) { p := BlockParted(f.value, w2, fuel); return; }
      found := false;
      List(b, w1, fuel);
      if !o.Thr? { Block(f.value, w2, fuel); }
      CatchEqual(Compiled, kind, name, b, rest, f, w, fuel);
      CatchEqual(Evaluator, kind, name, b, rest, f, w, fuel);
      CatchExact(f.value, o, fuel);
    case NoCatch =>
      found := BlockParts(f.value, w, fuel);
      if found {
        p := BlockParted(f.value, w, fuel);
      } else {
        Block(f.value, w, fuel);
        UncaughtExact(f.value, w, fuel);
      }
  }

  /** Both directions: no run of any statement of the program meets one of the places if and
      only if every statement of the program ends the same way in both back ends, from every
      world and as far as any fuel goes. */
  lemma Exact(b: Stmts)
    ensures (forall p: Point :: WithinBlock(p.s, b) ==> !Parts(p.s, p.w, p.fuel)) <==>
        (forall p: Point :: WithinBlock(p.s, b) ==> !Differs(p))
  {
    hide Parts, Same, WithinBlock;
    if forall p: Point :: WithinBlock(p.s, b) ==> !Parts(p.s, p.w, p.fuel) {
      forall p: Point | WithinBlock(p.s, b) ensures !Differs(p) { Statement(p.s, p.w, p.fuel); }
    }
    if forall p: Point :: WithinBlock(p.s, b) ==> !Differs(p) {
      forall p: Point | WithinBlock(p.s, b) ensures !Parts(p.s, p.w, p.fuel) {
        if Parts(p.s, p.w, p.fuel) {
          var q := Parted(p.s, p.w, p.fuel);
          InnerBlock(q.s, p.s, b);
        }
      }
    }
  }

  lemma {:induction false} Inner(t: Stmt, s: Stmt, r: Stmt)
    requires Within(t, s) && Within(s, r)
    ensures Within(t, r)
    decreases Size(r), 1
  {
    hide WithinBlock, WithinElifs, WithinCatches;
    if s != r {
      match r
      case If(_, thn, es, a) =>
        if WithinBlock(s, thn) {
          InnerBlock(t, s, thn);
        } else if WithinElifs(s, es) {
          InnerElifs(t, s, es);
        } else {
          InnerBlock(t, s, a.value);
        }
      case Try(b, cs, f) =>
        if WithinBlock(s, b) {
          InnerBlock(t, s, b);
        } else if WithinCatches(s, cs) {
          InnerCatches(t, s, cs);
        } else {
          InnerBlock(t, s, f.value);
        }
      case While(_, b) => InnerBlock(t, s, b);
      case For(_, _, _, b) => InnerBlock(t, s, b);
      case ForIn(_, _, b) => InnerBlock(t, s, b);
      case With(_, _, b) => InnerBlock(t, s, b);
    }
  }

  lemma {:induction false} InnerBlock(t: Stmt, s: Stmt, b: Stmts)
    requires Within(t, s) && WithinBlock(s, b)
    ensures WithinBlock(t, b)
    decreases BlockSize(b), 0
  {
    hide Within;
    if Within(s, b.head) { Inner(t, s, b.head); } else { InnerBlock(t, s, b.tail); }
  }

  lemma {:induction false} InnerElifs(t: Stmt, s: Stmt, es: Elifs)
    requires Within(t, s) && WithinElifs(s, es)
    ensures WithinElifs(t, es)
    decreases ElifsSize(es), 0
  {
    hide Within, WithinBlock;
    if WithinBlock(s, es.body) { InnerBlock(t, s, es.body); } else { InnerElifs(t, s, es.rest); }
  }

  lemma {:induction false} InnerCatches(t: Stmt, s: Stmt, cs: Catches)
    requires Within(t, s) && WithinCatches(s, cs)
    ensures WithinCatches(t, cs)
    decreases CatchesSize(cs), 0
  {
    hide Within, WithinBlock;
    if WithinBlock(s, cs.body) { InnerBlock(t, s, cs.body); } else { InnerCatches(t, s, cs.rest); }
  }
}
