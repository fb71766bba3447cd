/** A condition on the text of a program under which compiled code and the evaluator always
    agree. It says where a finally block may stand beside catch clauses, which names it may
    use and which try statements it may hold, and what a for-in loop may run over. */
module Tame {
  import opened Syntax
  import opened Semantics
  import opened Hidden
  import opened Agreement
  import opened Widening

  // ----- expressions that cannot fail, statements that cannot throw

  /** Given that `names` are bound, e has a value. */
  predicate CalmE(e: Expr, names: set<string>) {
    match e
    case IntLit(_) => true
    case Lit(_) => true
    case Var(x) => x in names
    case Assign(_, f) => CalmE(f, names)
    case Bin(op, l, r) => (op.Eq? || op.Ne?) && CalmE(l, names) && CalmE(r, names)
    case And(l, r) => CalmCond(l, names) && CalmCond(r, names)
    case Or(l, r) => CalmCond(l, names) && CalmCond(r, names)
    case Coalesce(l, r) => CalmE(l, names) && CalmE(r, names)
    case Ternary(c, t, f) => CalmCond(c, names) && CalmE(t, names) && CalmE(f, names)
    case _ => false
  }

  /** ... and that value is a bool. */
  predicate CalmCond(e: Expr, names: set<string>) {
    match e
    case Lit(v) => v.Bool?
    case Bin(op, l, r) => (op.Eq? || op.Ne?) && CalmE(l, names) && CalmE(r, names)
    case And(l, r) => CalmCond(l, names) && CalmCond(r, names)
    case Or(l, r) => CalmCond(l, names) && CalmCond(r, names)
    case _ => false
  }

  predicate CalmOpt(e: Option<Expr>, names: set<string>) { e.None? || CalmE(e.value, names) }

  predicate CalmS(s: Stmt, names: set<string>) {
    match s
    case Let(_, _, init) => CalmOpt(init, names)
    case Eval(e) => CalmE(e, names)
    case Print(e) => CalmE(e, names)
    case If(c, t, es, a) => CalmCond(c, names) && CalmBlock(t, names) && CalmElifs(es, names)
        && (a.None? || CalmBlock(a.value, names))
    case While(c, b) => CalmCond(c, names) && CalmBlock(b, names)
    case With(name, e, b) => CalmE(e, names) && CalmBlock(b, names + Names(name))
    case Break => true
    case Continue => true
    case Return(e) => CalmOpt(e, names)
    case _ => false
  }

  predicate CalmBlock(b: Stmts, names: set<string>) {
    b.Nil? || (CalmS(b.head, names) && CalmBlock(b.tail, names + Declares(b.head)))
  }

  predicate CalmElifs(es: Elifs, names: set<string>) {
    es.NoElif? || (CalmCond(es.c, names) && CalmBlock(es.body, names) && CalmElifs(es.rest, names))
  }

  /** The names that the statements of b themselves declare. */
  function Declared(b: Stmts): set<string> { if b.Nil? then {} else Declares(b.head) + Declared(b.tail) }

  // ----- blocks that cannot be left by a jump

  /** No break, continue or return leads out; in a loop, break and continue may. */
  predicate StaysS(s: Stmt, loop: bool) {
    match s
    case If(_, t, es, a) => Stays(t, loop) && StaysElifs(es, loop) && (a.None? || Stays(a.value, loop))
    case While(_, b) => Stays(b, true)
    case For(_, _, _, b) => Stays(b, true)
    case ForIn(_, _, b) => Stays(b, true)
    case Try(b, cs, f) => Stays(b, loop) && StaysCatches(cs, loop) && (f.None? || Stays(f.value, loop))
    case With(_, _, b) => Stays(b, loop)
    case Break => loop
    case Continue => loop
    case Return(_) => false
    case _ => true
  }

  predicate Stays(b: Stmts, loop: bool) { b.Nil? || (StaysS(b.head, loop) && Stays(b.tail, loop)) }

  predicate StaysElifs(es: Elifs, loop: bool) { es.NoElif? || (Stays(es.body, loop) && StaysElifs(es.rest, loop)) }

  predicate StaysCatches(cs: Catches, loop: bool) {
    cs.NoCatch? || (Stays(cs.body, loop) && StaysCatches(cs.rest, loop))
  }

  // ----- blocks that leave the pending error alone

  /** Unless it throws, the statement handles and drops no error of its own. */
  predicate KeepsS(s: Stmt) {
    match s
    case If(_, t, es, a) => Keeps(t) && KeepsElifs(es) && (a.None? || Keeps(a.value))
    case While(_, b) => Keeps(b)
    case For(_, _, _, b) => Keeps(b)
    case ForIn(_, _, b) => Keeps(b)
    case Try(b, cs, f) =>
      || (CalmBlock(b, {}) && Keeps(b) && (f.None? || Keeps(f.value)))
      || (cs.NoCatch? && Keeps(b) && (f.None? || (Keeps(f.value) && Stays(f.value, false))))
    case With(_, _, b) => Keeps(b)
    case _ => true
  }

  predicate Keeps(b: Stmts) { b.Nil? || (KeepsS(b.head) && Keeps(b.tail)) }

  predicate KeepsElifs(es: Elifs) { es.NoElif? || (Keeps(es.body) && KeepsElifs(es.rest)) }

  // ----- loops over anything but a generator

  predicate NoGenerator(it: Iterable) { it.Range? || NeverGen(it.e) }

  predicate NeverGen(e: Expr) {
    match e
    case Var(_) => false
    case Lit(v) => !v.Gen?
    case Assign(_, f) => NeverGen(f)
    case Coalesce(l, r) => NeverGen(l) && NeverGen(r)
    case Ternary(_, t, f) => NeverGen(t) && NeverGen(f)
    case _ => true
  }

  // ----- expressions that have one value

  /** No x++ or x-- in it. */
  predicate Fixed(e: Expr) {
    match e
    case Assign(_, f) => Fixed(f)
    case Post(_, _) => false
    case Un(_, f) => Fixed(f)
    case Bin(_, l, r) => Fixed(l) && Fixed(r)
    case And(l, r) => Fixed(l) && Fixed(r)
    case Or(l, r) => Fixed(l) && Fixed(r)
    case Coalesce(l, r) => Fixed(l) && Fixed(r)
    case Ternary(c, t, f) => Fixed(c) && Fixed(t) && Fixed(f)
    case _ => true
  }

  predicate FixedOpt(e: Option<Expr>) { e.None? || Fixed(e.value) }

  /** Where only the effect counts, x++ and x-- are as good as any. */
  predicate Done(e: Expr) { e.Post? || Fixed(e) }

  /** No assignment in it either. */
  predicate Still(e: Expr) {
    match e
    case Assign(_, _) => false
    case Post(_, _) => false
    case Un(_, f) => Still(f)
    case Bin(_, l, r) => Still(l) && Still(r)
    case And(l, r) => Still(l) && Still(r)
    case Or(l, r) => Still(l) && Still(r)
    case Coalesce(l, r) => Still(l) && Still(r)
    case Ternary(c, t, f) => Still(c) && Still(t) && Still(f)
    case _ => true
  }

  predicate FixedIterable(it: Iterable) {
    match it
    case Each(e) => Fixed(e)
    case Range(a, b, c, _) => FixedOpt(a) && (b.None? || Still(b.value)) && (c.None? || Still(c.value))
  }

  /** What the statement itself evaluates. */
  predicate FixedHeads(s: Stmt) {
    match s
    case Let(_, _, init) => FixedOpt(init)
    case Eval(e) => Done(e)
    case Print(e) => Fixed(e)
    case If(c, _, _, _) => Fixed(c)
    case While(c, _) => Fixed(c)
    case For(first, c, u, _) =>
      && (match first case None => true case Some(SLet(_, _, init)) => FixedOpt(init) case Some(SEval(e)) => Done(e))
      && FixedOpt(c) && (u.None? || Done(u.value))
    case ForIn(_, it, _) => FixedIterable(it)
    case With(_, e, _) => Fixed(e)
    case Throw(e) => Fixed(e)
    case Return(e) => FixedOpt(e)
    case _ => true
  }

  // ----- the condition

  /** Given that `names` are bound. */
  predicate TameS(s: Stmt, names: set<string>) {
    FixedHeads(s) &&
    match s
    case If(_, t, es, a) => TameBlock(t, names) && TameElifs(es, names) && (a.None? || TameBlock(a.value, names))
    case While(_, b) => TameBlock(b, names)
    case For(_, _, _, b) => TameBlock(b, names)
    case ForIn(x, it, b) => TameBlock(b, names + {x}) && (NoGenerator(it) || CalmBlock(b, names + {x}))
    case Try(b, cs, f) => TameBlock(b, names) && TameCatches(cs, names)
        && (f.None? || (TameBlock(f.value, names) && FinallyFits(b, cs, f.value, names)))
    case With(name, _, b) => TameBlock(b, names + Names(name))
    case _ => true
  }

  predicate TameBlock(b: Stmts, names: set<string>) {
    b.Nil? || (TameS(b.head, names) && TameBlock(b.tail, names + Declares(b.head)))
  }

  predicate TameElifs(es: Elifs, names: set<string>) {
    es.NoElif? || (Fixed(es.c) && TameBlock(es.body, names) && TameElifs(es.rest, names))
  }

  predicate TameCatches(cs: Catches, names: set<string>) {
    cs.NoCatch? || (TameBlock(cs.body, names + Names(cs.name)) && TameCatches(cs.rest, names))
  }

  /** A finally block fits its try statement when it is empty, when the guarded block cannot
      throw, or when it leaves the pending error alone and fits every catch clause. */
  predicate FinallyFits(b: Stmts, cs: Catches, f: Stmts, names: set<string>) {
    f.Nil? || CalmBlock(b, names) || (Keeps(f) && CatchesFit(cs, f, names))
  }

  /** A catch body beside a finally block cannot throw; and it is not left by a jump, or
      the finally block uses none of the names of the catch scope. */
  predicate CatchesFit(cs: Catches, f: Stmts, names: set<string>) {
    cs.NoCatch? ||
    (&& CalmBlock(cs.body, names + Names(cs.name))
     && (Stays(cs.body, false) || UsesBlock(f) !! Names(cs.name) + Declared(cs.body))
     && CatchesFit(cs.rest, f, names))
  }

  // ----- calm code

  ghost predicate Bound(names: set<string>, env: Env) { forall x :: x in names ==> Find(env, x) >= 0 }

  ghost predicate SameKeys(a: Env, b: Env) { |a| == |b| && forall i :: 0 <= i < |a| ==> a[i].Keys == b[i].Keys }

  /** b binds what a binds, and in the innermost frame perhaps some of `extra`. */
  ghost predicate Grown(a: Env, b: Env, extra: set<string>) {
    && |a| == |b| > 0 && (forall i :: 0 <= i < |a| - 1 ==> a[i].Keys == b[i].Keys)
    && a[|a| - 1].Keys <= b[|a| - 1].Keys <= a[|a| - 1].Keys + extra
  }

  lemma StillBound(names: set<string>, a: Env, b: Env)
    requires Bound(names, a) && |a| <= |b| && forall i :: 0 <= i < |a| ==> a[i].Keys <= b[i].Keys
    ensures Bound(names, b)
  {
    forall x | x in names ensures Find(b, x) >= 0 {
      var i := Find(a, x);
      assert x in b[i];
    }
  }

  lemma {:induction false} CalmEval(e: Expr, names: set<string>, env: Env)
    requires Bound(names, env) && (CalmE(e, names) || CalmCond(e, names))
    ensures EvalE(Evaluator, e, env).Yields? && SameKeys(env, EvalE(Evaluator, e, env).env)
    ensures CalmCond(e, names) ==>
        EvalE(Evaluator, e, env).v.Bool? && EvalCond(Evaluator, e, env) == EvalE(Evaluator, e, env)
    decreases ExprSize(e), 0
  {
    match e
    case Var(x) =>
    case Assign(_, f) => CalmEval(f, names, env);
    case Bin(_, l, r) => CalmTwo(l, r, names, env);
    case And(l, r) => CalmTwo(l, r, names, env);
    case Or(l, r) => CalmTwo(l, r, names, env);
    case Coalesce(l, r) => CalmTwo(l, r, names, env);
    case Ternary(c, t, f) => CalmTwo(c, t, names, env); CalmTwo(c, f, names, env);
    case _ =>
  }

  lemma {:induction false} CalmTwo(l: Expr, r: Expr, names: set<string>, env: Env)
    requires Bound(names, env) && (CalmE(l, names) || CalmCond(l, names)) && (CalmE(r, names) || CalmCond(r, names))
    ensures
      var a := EvalE(Evaluator, l, env);
      && a.Yields? && SameKeys(env, a.env) && EvalE(Evaluator, r, a.env).Yields?
          && SameKeys(env, EvalE(Evaluator, r, a.env).env)
      && (CalmCond(l, names) ==> a.v.Bool? && EvalCond(Evaluator, l, env) == a)
      && (CalmCond(r, names) ==>
          EvalE(Evaluator, r, a.env).v.Bool? && EvalCond(Evaluator, r, a.env) == EvalE(Evaluator, r, a.env))
    decreases ExprSize(l) + ExprSize(r), 1
  {
    CalmEval(l, names, env);
    StillBound(names, env, EvalE(Evaluator, l, env).env);
    CalmEval(r, names, EvalE(Evaluator, l, env).env);
  }

  lemma CalmOptEval(e: Option<Expr>, names: set<string>, env: Env)
    requires Bound(names, env) && CalmOpt(e, names)
    ensures OptEval(Evaluator, e, env).Yields? && SameKeys(env, OptEval(Evaluator, e, env).env)
  {
    if e.Some? { CalmEval(e.value, names, env); }
  }

  /** A calm statement does not throw, and binds no more than it declares. */
  lemma {:induction false} CalmStmt(s: Stmt, names: set<string>, w: World, fuel: nat)
    requires |w.env| > 0 && Bound(names, w.env) && CalmS(s, names)
    ensures
      var o := ExecS(Evaluator, s, w, fuel);
      && !o.Thr? && (!o.Timeout? ==> Grown(w.env, o.w.env, Declares(s)))
      && (o.Normal? ==> Declares(s) <= o.w.env[|w.env| - 1].Keys)
    decreases fuel, Size(s), 1
  {
    hide Bound, EvalE, EvalCond, OptEval, CalmE, CalmCond, CalmOpt, CalmBlock, CalmElifs, ExecBlock, ExecElifs;
    match s
    case Let(_, _, init) => CalmOptEval(init, names, w.env);
    case Eval(e) => CalmEval(e, names, w.env);
    case Print(e) => CalmEval(e, names, w.env);
    case Return(e) => CalmOptEval(e, names, w.env);
    case If(c, t, es, a) =>
      CalmEval(c, names, w.env);
      var w1 := w.(env := EvalCond(Evaluator, c, w.env).env);
      StillBound(names, w.env, w1.env);
      if EvalCond(Evaluator, c, w.env).v == Bool(true) {
        CalmInner(t, names, w1, fuel);
      } else {
        CalmChain(es, a, names, w1, fuel);
      }
    case While(c, b) =>
      if fuel > 0 {
        CalmEval(c, names, w.env);
        var w1 := w.(env := EvalCond(Evaluator, c, w.env).env);
        StillBound(names, w.env, w1.env);
        CalmInner(b, names, w1, fuel);
        var o := ExecBlock(Evaluator, b, w1, fuel);
        if EvalCond(Evaluator, c, w.env).v != Bool(false) && (o.Normal? || o.Cnt?) {
          StillBound(names, w1.env, o.w.env);
          CalmStmt(s, names, o.w, fuel - 1);
        }
      }
    case With(_, _, _) => CalmWith(s, names, w, fuel);
    case _ =>
  }

  lemma {:induction false} CalmWith(s: Stmt, names: set<string>, w: World, fuel: nat)
    requires s.With? && |w.env| > 0 && Bound(names, w.env) && CalmS(s, names)
    ensures
      var o := ExecS(Evaluator, s, w, fuel);
      !o.Thr? && (!o.Timeout? ==> SameKeys(w.env, o.w.env))
    decreases fuel, Size(s), 0
  {
    hide EvalE, CalmE, CalmBlock, ExecBlock, EnterEvents, ExitEvents, Find;
    var w0 := Open(w, map[]);
    StillBound(names, w.env, w0.env);
    CalmEval(s.e, names, w0.env);
    var r := EvalE(Evaluator, s.e, w0.env);
    var w1 := Log(w0.(env := if s.name.None? then r.env else Bind(r.env, s.name.value, r.v)), EnterEvents(r.v));
    WithEqual(Evaluator, s.name, s.e, s.body, w, fuel);
    assert w1 == HeldWorld(s.name, w0, r.v, r.env);
    StillBound(names, w0.env, w1.env);
    AddBound(names, w1.env, Names(s.name));
    CalmInner(s.body, names + Names(s.name), w1, fuel);
  }

  lemma AddBound(names: set<string>, env: Env, more: set<string>)
    requires Bound(names, env) && |env| > 0 && more <= env[|env| - 1].Keys
    ensures Bound(names + more, env)
  {}

  lemma {:induction false} CalmInner(b: Stmts, names: set<string>, w: World, fuel: nat)
    requires Bound(names, w.env) && CalmBlock(b, names)
    ensures
      var o := ExecBlock(Evaluator, b, w, fuel);
      !o.Thr? && (!o.Timeout? ==> SameKeys(w.env, o.w.env))
    decreases fuel, BlockSize(b), 1
  {
    hide CalmBlock, ExecList, Find;
    var w0 := Open(w, map[]);
    StillBound(names, w.env, w0.env);
    CalmList(b, names, w0, fuel);
  }

  lemma {:induction false} CalmList(b: Stmts, names: set<string>, w: World, fuel: nat)
    requires |w.env| > 0 && Bound(names, w.env) && CalmBlock(b, names)
    ensures
      var o := ExecList(Evaluator, b, w, fuel);
      !o.Thr? && (!o.Timeout? ==> Grown(w.env, o.w.env, Declared(b)))
    decreases fuel, BlockSize(b), 0
  {
    hide Bound, CalmS, ExecS, Declares;
    if b.Cons? {
      CalmStmt(b.head, names, w, fuel);
      var o := ExecS(Evaluator, b.head, w, fuel);
      if o.Normal? {
        StillBound(names, w.env, o.w.env);
        AddBound(names, o.w.env, Declares(b.head));
        CalmList(b.tail, names + Declares(b.head), o.w, fuel);
      }
    }
  }

  lemma {:induction false} CalmChain(es: Elifs, a: Option<Stmts>, names: set<string>, w: World, fuel: nat)
    requires Bound(names, w.env) && CalmElifs(es, names) && (a.None? || CalmBlock(a.value, names))
    ensures
      var o := ExecElifs(Evaluator, es, a, w, fuel);
      !o.Thr? && (!o.Timeout? ==> SameKeys(w.env, o.w.env))
    decreases fuel, ElifsSize(es) + (if a.Some? then BlockSize(a.value) else 0), 2
  {
    hide Bound, EvalCond, CalmE, CalmCond, CalmBlock, ExecBlock;
    match es
    case NoElif => if a.Some? { CalmInner(a.value, names, w, fuel); }
    case Elif(c, b, rest) =>
      CalmEval(c, names, w.env);
      var w1 := w.(env := EvalCond(Evaluator, c, w.env).env);
      StillBound(names, w.env, w1.env);
      if EvalCond(Evaluator, c, w.env).v == Bool(true) {
        CalmInner(b, names, w1, fuel);
      } else {
        CalmChain(rest, a, names, w1, fuel);
      }
  }

  // ----- code that cannot be left by a jump

  /** No break, continue or return has led out. */
  ghost predicate Stayed(o: Outcome, loop: bool) { !o.Ret? && (loop || !Leaves(o)) }

  lemma {:induction false} StayStmt(s: Stmt, loop: bool, w: World, fuel: nat)
    requires StaysS(s, loop)
    ensures Stayed(ExecS(Evaluator, s, w, fuel), loop)
    decreases fuel, Size(s), 1
  {
    hide EvalE, EvalCond, OptEval, Bind, ExecBlock, ExecElifs, Stays, StaysElifs, StaysCatches;
    match s
    case If(c, t, es, a) =>
      var r := EvalCond(Evaluator, c, w.env);
      if r.Yields? { StayBlock(t, loop, w.(env := r.env), fuel); StayChain(es, a, loop, w.(env := r.env), fuel); }
    case While(c, b) =>
      var r := EvalCond(Evaluator, c, w.env);
      if fuel > 0 && r.Yields? {
        StayBlock(b, true, w.(env := r.env), fuel);
        var o := ExecBlock(Evaluator, b, w.(env := r.env), fuel);
        if o.Normal? || o.Cnt? { StayStmt(s, loop, o.w, fuel - 1); }
      }
    case For(_, _, _, _) => StayScoped(s, loop, w, fuel);
    case ForIn(_, _, _) => StayScoped(s, loop, w, fuel);
    case Try(_, _, _) => StayGuarded(s, loop, w, fuel);
    case With(_, _, _) => StayGuarded(s, loop, w, fuel);
    case _ =>
  }

  lemma {:induction false} StayScoped(s: Stmt, loop: bool, w: World, fuel: nat)
    requires (s.For? || s.ForIn?) && StaysS(s, loop)
    ensures Stayed(ExecS(Evaluator, s, w, fuel), false)
    decreases fuel, Size(s), 0
  {
    hide EvalE, EvalIterable, OptEval, Bind, Close, IterRest, ExecFor, ExecEach, Open, Shut;
    var w0 := Open(w, map[]);
    if s.For? {
      LoopEqual(Evaluator, s.first, s.cond, s.update, s.body, w, fuel);
      var o := if s.first.None? then Normal(w0) else ExecS(Evaluator, AsStmt(s.first.value), w0, fuel);
      if o.Normal? { StayLoop(s.cond, s.update, s.body, o.w, fuel); }
    } else {
      ForInEqual(Evaluator, s.x, s.iterable, s.body, w, fuel);
      var r := EvalIterable(Evaluator, s.iterable, w0.env);
      if r.Yields? { StayEach(s.x, s.body, Begun(w0, s.x, r.env, r.v), IterRest(r.v), fuel); }
    }
  }

  lemma {:induction false} StayGuarded(s: Stmt, loop: bool, w: World, fuel: nat)
    requires (s.Try? || s.With?) && StaysS(s, loop)
    ensures Stayed(ExecS(Evaluator, s, w, fuel), loop)
    decreases fuel, Size(s), 0
  {
    hide EvalE, Bind, Select, EnterEvents, ExitEvents, ExecBlock, ExecHandler, Finally, Stays, StaysCatches, Open, Shut;
    if s.Try? {
      TryEqual(Evaluator, s.body, s.catches, s.fin, w, fuel);
      StayBlock(s.body, loop, w, fuel);
      var o := ExecBlock(Evaluator, s.body, w, fuel);
      if o.Thr? {
        SelectStays(s.catches, PendOf(o.w), loop);
        StayHandler(Select(s.catches, PendOf(o.w)), s.fin, loop, o.w, fuel);
      } else {
        StayLast(s.fin, o, loop, fuel);
      }
    } else {
      WithEqual(Evaluator, s.name, s.e, s.body, w, fuel);
      var w0 := Open(w, map[]);
      var r := EvalE(Evaluator, s.e, w0.env);
      if r.Yields? { StayBlock(s.body, loop, HeldWorld(s.name, w0, r.v, r.env), fuel); }
    }
  }

  lemma {:induction false} SelectStays(cs: Catches, err: Value, loop: bool)
    requires StaysCatches(cs, loop)
    ensures StaysCatches(Select(cs, err), loop)
  {
    if cs.Catch? && !Matches(cs.kind, err) { SelectStays(cs.rest, err, loop); }
  }

  lemma {:induction false} StayBlock(b: Stmts, loop: bool, w: World, fuel: nat)
    requires Stays(b, loop)
    ensures Stayed(ExecBlock(Evaluator, b, w, fuel), loop)
    decreases fuel, BlockSize(b), 1
  {
    hide ExecList, Stays, Shut;
    StayList(b, loop, Open(w, map[]), fuel);
  }

  lemma {:induction false} StayList(b: Stmts, loop: bool, w: World, fuel: nat)
    requires Stays(b, loop)
    ensures Stayed(ExecList(Evaluator, b, w, fuel), loop)
    decreases fuel, BlockSize(b), 0
  {
    hide ExecS, StaysS;
    if b.Cons? {
      StayStmt(b.head, loop, w, fuel);
      var o := ExecS(Evaluator, b.head, w, fuel);
      if o.Normal? { StayList(b.tail, loop, o.w, fuel); }
    }
  }

  lemma {:induction false} StayChain(es: Elifs, a: Option<Stmts>, loop: bool, w: World, fuel: nat)
    requires StaysElifs(es, loop) && (a.None? || Stays(a.value, loop))
    ensures Stayed(ExecElifs(Evaluator, es, a, w, fuel), loop)
    decreases fuel, ElifsSize(es) + (if a.Some? then BlockSize(a.value) else 0), 2
  {
    hide EvalCond, ExecBlock, Stays;
    match es
    case NoElif => if a.Some? { StayBlock(a.value, loop, w, fuel); }
    case Elif(c, b, rest) =>
      var r := EvalCond(Evaluator, c, w.env);
      if r.Yields? { StayBlock(b, loop, w.(env := r.env), fuel); StayChain(rest, a, loop, w.(env := r.env), fuel); }
  }

  lemma {:induction false} StayLoop(c: Option<Expr>, u: Option<Expr>, b: Stmts, w: World, fuel: nat)
    requires Stays(b, true)
    ensures Stayed(ExecFor(Evaluator, c, u, b, w, fuel), false)
    decreases fuel, BlockSize(b), 2
  {
    hide EvalCond, OptEval, ExecBlock, Stays;
    var r := Tested(Evaluator, c, w.env);
    if fuel > 0 && r.Yields? {
      StayBlock(b, true, w.(env := r.env), fuel);
      var o := ExecBlock(Evaluator, b, w.(env := r.env), fuel);
      if o.Normal? || o.Cnt? {
        var r1 := OptEval(Evaluator, u, o.w.env);
        if r1.Yields? { StayLoop(c, u, b, o.w.(env := r1.env), fuel - 1); }
      }
    }
  }

  lemma {:induction false} StayEach(x: string, b: Stmts, w: World, items: seq<Value>, fuel: nat)
    requires Stays(b, true)
    ensures var o := ExecEach(Evaluator, x, b, w, items, fuel); !o.Ret? && !o.Cnt?
    decreases fuel, BlockSize(b), 2, |items|
  {
    hide Bind, ExecBlock, Stays;
    if items != [] {
      var w1 := w.(env := Bind(w.env, x, items[0]));
      StayBlock(b, true, w1, fuel);
      var o := ExecBlock(Evaluator, b, w1, fuel);
      if o.Normal? || o.Cnt? { StayEach(x, b, o.w, items[1..], fuel); }
    }
  }

  lemma {:induction false} StayLast(f: Option<Stmts>, o: Outcome, loop: bool, fuel: nat)
    requires (f.None? || Stays(f.value, loop)) && Stayed(o, loop)
    ensures Stayed(Finally(Evaluator, f, o, fuel), loop)
    decreases fuel, if f.Some? then BlockSize(f.value) else 0, 2
  {
    hide ExecBlock, Stays;
    if f.Some? && !o.Timeout? { StayBlock(f.value, loop, o.w, fuel); }
  }

  lemma {:induction false} StayHandler(cs: Catches, f: Option<Stmts>, loop: bool, w: World, fuel: nat)
    requires StaysCatches(cs, loop) && (f.None? || Stays(f.value, loop))
    ensures Stayed(ExecHandler(Evaluator, cs, f, w, fuel), loop)
    decreases fuel, CatchesSize(cs) + (if f.Some? then BlockSize(f.value) else 0), 3
  {
    hide ExecList, Finally, Stays, Shut;
    match cs
    case Catch(kind, name, b, rest) =>
      StayList(b, loop, CatchWorld(name, w), fuel);
      CatchEqual(Evaluator, kind, name, b, rest, f, w, fuel);
      StayLast(f, ShutAll(ExecList(Evaluator, b, CatchWorld(name, w), fuel)), loop, fuel);
    case NoCatch =>
      StayLast(f, Thr(w), loop, fuel);
  }

  // ----- code that leaves the pending error alone

  /** Unless it throws or goes on for ever, the error pending is the same as before. */
  ghost predicate Kept(p: Option<Value>, o: Outcome) { o.Timeout? || o.Thr? || o.w.pend == p }

  lemma {:induction false} KeepStmt(s: Stmt, w: World, fuel: nat)
    requires KeepsS(s)
    ensures Kept(w.pend, ExecS(Evaluator, s, w, fuel))
    decreases fuel, Size(s), 1
  {
    hide EvalE, EvalCond, OptEval, Bind, ExecBlock, ExecElifs, Keeps, KeepsElifs, CalmBlock, Stays;
    match s
    case If(c, t, es, a) =>
      var r := EvalCond(Evaluator, c, w.env);
      if r.Yields? { KeepBlock(t, w.(env := r.env), fuel); KeepChain(es, a, w.(env := r.env), fuel); }
    case While(c, b) =>
      var r := EvalCond(Evaluator, c, w.env);
      if fuel > 0 && r.Yields? {
        KeepBlock(b, w.(env := r.env), fuel);
        var o := ExecBlock(Evaluator, b, w.(env := r.env), fuel);
        if o.Normal? || o.Cnt? { KeepStmt(s, o.w, fuel - 1); }
      }
    case For(_, _, _, _) => KeepScoped(s, w, fuel);
    case ForIn(_, _, _) => KeepScoped(s, w, fuel);
    case Try(_, _, _) => KeepGuarded(s, w, fuel);
    case With(_, _, _) => KeepGuarded(s, w, fuel);
    case _ =>
  }

  lemma {:induction false} KeepScoped(s: Stmt, w: World, fuel: nat)
    requires (s.For? || s.ForIn?) && KeepsS(s)
    ensures Kept(w.pend, ExecS(Evaluator, s, w, fuel))
    decreases fuel, Size(s), 0
  {
    hide EvalE, EvalIterable, OptEval, Bind, Close, IterRest, ExecFor, ExecEach;
    var w0 := Open(w, map[]);
    if s.For? {
      LoopEqual(Evaluator, s.first, s.cond, s.update, s.body, w, fuel);
      var o := if s.first.None? then Normal(w0) else ExecS(Evaluator, AsStmt(s.first.value), w0, fuel);
      if o.Normal? { KeepLoop(s.cond, s.update, s.body, o.w, fuel); }
    } else {
      ForInEqual(Evaluator, s.x, s.iterable, s.body, w, fuel);
      var r := EvalIterable(Evaluator, s.iterable, w0.env);
      if r.Yields? { KeepEach(s.x, s.body, Begun(w0, s.x, r.env, r.v), IterRest(r.v), fuel); }
    }
  }

  lemma {:induction false} KeepGuarded(s: Stmt, w: World, fuel: nat)
    requires (s.Try? || s.With?) && KeepsS(s)
    ensures Kept(w.pend, ExecS(Evaluator, s, w, fuel))
    decreases fuel, Size(s), 0
  {
    hide EvalE, Bind, EnterEvents, ExitEvents, ExecBlock, Finally, Keeps, CalmBlock, Stays, Find;
    if s.Try? {
      TryEqual(Evaluator, s.body, s.catches, s.fin, w, fuel);
      KeepBlock(s.body, w, fuel);
      var o := ExecBlock(Evaluator, s.body, w, fuel);
      if CalmBlock(s.body, {}) { CalmInner(s.body, {}, w, fuel); }
      if o.Thr? { KeepThrown(s.fin, o.w, fuel); } else { KeepLast(s.fin, o, fuel); }
    } else {
      WithEqual(Evaluator, s.name, s.e, s.body, w, fuel);
      var w0 := Open(w, map[]);
      var r := EvalE(Evaluator, s.e, w0.env);
      if r.Yields? { KeepBlock(s.body, HeldWorld(s.name, w0, r.v, r.env), fuel); }
    }
  }

  lemma {:induction false} KeepBlock(b: Stmts, w: World, fuel: nat)
    requires Keeps(b)
    ensures Kept(w.pend, ExecBlock(Evaluator, b, w, fuel))
    decreases fuel, BlockSize(b), 1
  {
    hide ExecList, Keeps;
    KeepList(b, Open(w, map[]), fuel);
  }

  lemma {:induction false} KeepList(b: Stmts, w: World, fuel: nat)
    requires Keeps(b)
    ensures Kept(w.pend, ExecList(Evaluator, b, w, fuel))
    decreases fuel, BlockSize(b), 0
  {
    hide ExecS, KeepsS;
    if b.Cons? {
      KeepStmt(b.head, w, fuel);
      var o := ExecS(Evaluator, b.head, w, fuel);
      if o.Normal? { KeepList(b.tail, o.w, fuel); }
    }
  }

  lemma {:induction false} KeepChain(es: Elifs, a: Option<Stmts>, w: World, fuel: nat)
    requires KeepsElifs(es) && (a.None? || Keeps(a.value))
    ensures Kept(w.pend, ExecElifs(Evaluator, es, a, w, fuel))
    decreases fuel, ElifsSize(es) + (if a.Some? then BlockSize(a.value) else 0), 2
  {
    hide EvalCond, ExecBlock, Keeps;
    match es
    case NoElif => if a.Some? { KeepBlock(a.value, w, fuel); }
    case Elif(c, b, rest) =>
      var r := EvalCond(Evaluator, c, w.env);
      if r.Yields? { KeepBlock(b, w.(env := r.env), fuel); KeepChain(rest, a, w.(env := r.env), fuel); }
  }

  lemma {:induction false} KeepLoop(c: Option<Expr>, u: Option<Expr>, b: Stmts, w: World, fuel: nat)
    requires Keeps(b)
    ensures Kept(w.pend, ExecFor(Evaluator, c, u, b, w, fuel))
    decreases fuel, BlockSize(b), 2
  {
    hide EvalCond, OptEval, ExecBlock, Keeps;
    var r := Tested(Evaluator, c, w.env);
    if fuel > 0 && r.Yields? {
      KeepBlock(b, w.(env := r.env), fuel);
      var o := ExecBlock(Evaluator, b, w.(env := r.env), fuel);
      if o.Normal? || o.Cnt? {
        var r1 := OptEval(Evaluator, u, o.w.env);
        if r1.Yields? { KeepLoop(c, u, b, o.w.(env := r1.env), fuel - 1); }
      }
    }
  }

  lemma {:induction false} KeepEach(x: string, b: Stmts, w: World, items: seq<Value>, fuel: nat)
    requires Keeps(b)
    ensures Kept(w.pend, ExecEach(Evaluator, x, b, w, items, fuel))
    decreases fuel, BlockSize(b), 2, |items|
  {
    hide Bind, ExecBlock, Keeps;
    if items != [] {
      var w1 := w.(env := Bind(w.env, x, items[0]));
      KeepBlock(b, w1, fuel);
      var o := ExecBlock(Evaluator, b, w1, fuel);
      if o.Normal? || o.Cnt? { KeepEach(x, b, o.w, items[1..], fuel); }
    }
  }

  lemma {:induction false} KeepLast(f: Option<Stmts>, o: Outcome, fuel: nat)
    requires !o.Thr? && (f.None? || Keeps(f.value))
    ensures !o.Timeout? ==> Kept(o.w.pend, Finally(Evaluator, f, o, fuel))
    ensures o.Timeout? ==> Finally(Evaluator, f, o, fuel).Timeout?
    decreases fuel, if f.Some? then BlockSize(f.value) else 0, 2
  {
    hide ExecBlock, Keeps;
    if f.Some? && !o.Timeout? { KeepBlock(f.value, o.w, fuel); }
  }

  /** With no clause to take the error, it goes on after a finally block that stays. */
  lemma KeepThrown(f: Option<Stmts>, w: World, fuel: nat)
    requires f.None? || Stays(f.value, false)
    ensures var o := ExecHandler(Evaluator, NoCatch, f, w, fuel); o.Thr? || o.Timeout?
  {
    hide ExecBlock, Stays;
    if f.Some? { StayBlock(f.value, false, w, fuel); }
  }

  // ----- loops with nothing to close

  lemma {:induction false} GenFree(e: Expr, env: Env)
    requires NeverGen(e)
    ensures var r := EvalE(Evaluator, e, env); r.Yields? ==> !r.v.Gen?
  {
    hide Find, Assigned, EvalCond;
    match e
    case Assign(_, f) => GenFree(f, env);
    case Coalesce(l, r) =>
      GenFree(l, env);
      if EvalE(Evaluator, l, env).Yields? { GenFree(r, EvalE(Evaluator, l, env).env); }
    case Ternary(c, t, f) =>
      var a := EvalCond(Evaluator, c, env);
      GenFree(t, a.env);
      GenFree(f, a.env);
    case And(l, r) => CondIs(l, env); if EvalCond(Evaluator, l, env).Yields? {
      CondIs(r, EvalCond(Evaluator, l, env).env);
    }
    case Or(l, r) => CondIs(l, env); if EvalCond(Evaluator, l, env).Yields? {
      CondIs(r, EvalCond(Evaluator, l, env).env);
    }
    case _ =>
  }

  lemma CondIs(e: Expr, env: Env)
    ensures EvalCond(Evaluator, e, env).Yields? ==> EvalCond(Evaluator, e, env).v.Bool?
  {}

  lemma NothingToClose(it: Iterable, env: Env)
    requires NoGenerator(it)
    ensures var r := EvalIterable(Evaluator, it, env); r.Yields? ==> Close(r.v) == []
  {
    hide EvalE, NeverGen;
    if it.Each? { GenFree(it.e, env); }
  }

  /** The names are still bound after a statement that ended so. */
  lemma Onwards(names: set<string>, w: World, o: Outcome)
    requires Bound(names, w.env) && Widens(w.env, o) && !o.Timeout?
    ensures Bound(names, o.w.env)
  {
    StillBound(names, w.env, o.w.env);
  }

  lemma Wide(names: set<string>, a: Env, b: Env)
    requires Bound(names, a) && Wider(a, b)
    ensures Bound(names, b)
  {
    StillBound(names, a, b);
  }

  lemma Opened(names: set<string>, w: World, frame: map<string, Value>, more: set<string>)
    requires Bound(names, w.env) && more <= frame.Keys
    ensures Bound(names + more, Open(w, frame).env)
  {
    StillBound(names, w.env, Open(w, frame).env);
    AddBound(names, Open(w, frame).env, more);
  }

  lemma Declaring(s: Stmt, names: set<string>, w: World, fuel: nat)
    requires Bound(names, w.env) && |w.env| > 0 && ExecS(Evaluator, s, w, fuel).Normal?
    ensures Bound(names + Declares(s), ExecS(Evaluator, s, w, fuel).w.env)
  {
    hide Bound, Find, EvalE, ExecBlock, ExecElifs;
    StmtWider(s, w, fuel);
    var o := ExecS(Evaluator, s, w, fuel);
    Onwards(names, w, o);
    AddBound(names, o.w.env, Declares(s));
  }

  // ----- the heads of tame statements

  lemma {:induction false} FixedSame(e: Expr, env: Env)
    requires Fixed(e)
    ensures EvalE(Compiled, e, env) == EvalE(Evaluator, e, env)
    decreases ExprSize(e), 0
  {
    hide Find, Assigned, EvalBin, EvalUn;
    match e
    case Assign(_, f) => FixedSame(f, env);
    case Un(_, f) => FixedSame(f, env);
    case Bin(_, l, r) => FixedTwo(l, r, env);
    case And(l, r) => FixedTwo(l, r, env);
    case Or(l, r) => FixedTwo(l, r, env);
    case Coalesce(l, r) => FixedTwo(l, r, env);
    case Ternary(c, t, f) => FixedTwo(c, t, env); FixedTwo(c, f, env);
    case _ =>
  }

  lemma {:induction false} FixedTwo(l: Expr, r: Expr, env: Env)
    requires Fixed(l) && Fixed(r)
    ensures
      var a := EvalE(Evaluator, l, env);
      EvalE(Compiled, l, env) == a && EvalE(Compiled, r, a.env) == EvalE(Evaluator, r, a.env)
    decreases ExprSize(l) + ExprSize(r), 1
  {
    hide EvalE;
    FixedSame(l, env);
    FixedSame(r, EvalE(Evaluator, l, env).env);
  }

  lemma FixedCond(c: Expr, env: Env)
    requires Fixed(c)
    ensures SameCond(c, env)
  {
    hide EvalE;
    FixedSame(c, env);
  }

  lemma FixedOptSame(e: Option<Expr>, env: Env)
    requires FixedOpt(e)
    ensures OptEval(Compiled, e, env) == OptEval(Evaluator, e, env)
  {
    hide EvalE;
    if e.Some? { FixedSame(e.value, env); }
  }

  lemma DoneSame(e: Expr, env: Env)
    requires Done(e)
    ensures SameUpdate(Some(e), env)
  {
    hide Find, Assigned;
    if !e.Post? { FixedSame(e, env); }
  }

  /** What makes no assignment leaves the environment, and fails with a fault. */
  lemma {:induction false} StillStays(e: Expr, env: Env)
    requires Still(e)
    ensures Fixed(e)
    ensures var r := EvalE(Compiled, e, env); r.env == env && (r.Fails? ==> r.err == FAULT)
    decreases ExprSize(e)
  {
    hide Find, EvalBin, EvalUn;
    match e
    case Un(_, f) => StillStays(f, env);
    case Bin(_, l, r) => StillStays(l, env); StillStays(r, env);
    case And(l, r) => StillStays(l, env); StillStays(r, env);
    case Or(l, r) => StillStays(l, env); StillStays(r, env);
    case Coalesce(l, r) => StillStays(l, env); StillStays(r, env);
    case Ternary(c, t, f) => StillStays(c, env); StillStays(t, env); StillStays(f, env);
    case _ =>
  }

  lemma IterableSame(it: Iterable, env: Env)
    requires FixedIterable(it)
    ensures EvalIterable(Compiled, it, env) == EvalIterable(Evaluator, it, env)
  {
    hide EvalE, RangeItems, Fixed, Still, EvalIterable;
    if it.Each? {
      EachSame(it.e, env);
    } else {
      var x := if it.start.None? then IntLit(0) else it.start.value;
      var y := if it.end.None? then Lit(Null) else it.end.value;
      var z := if it.step.None? then IntLit(1) else it.step.value;
      Literals();
      FixedSame(x, env);
      var env1 := EvalE(Evaluator, x, env).env;
      StillStays(y, env1);
      StillStays(z, env1);
      FixedSame(y, env1);
      FixedSame(z, env1);
      RangeExact(x, y, z, it.exclusive, env);
      Given(Compiled, it, x, y, z, env);
      Given(Evaluator, it, x, y, z, env);
    }
  }

  lemma EachSame(e: Expr, env: Env)
    requires Fixed(e)
    ensures EvalIterable(Compiled, Each(e), env) == EvalIterable(Evaluator, Each(e), env)
  {
    hide EvalE;
    FixedSame(e, env);
  }

  /** A range with its bounds filled in. */
  lemma Given(d: Dialect, it: Iterable, x: Expr, y: Expr, z: Expr, env: Env)
    requires it.Range? && x == (if it.start.None? then IntLit(0) else it.start.value)
    requires y == (if it.end.None? then Lit(Null) else it.end.value)
    requires z == if it.step.None? then IntLit(1) else it.step.value
    ensures EvalIterable(d, it, env) == EvalIterable(d, Range(Some(x), Some(y), Some(z), it.exclusive), env)
  {
    hide EvalBound, RangeIter;
  }

  lemma Literals()
    ensures Fixed(IntLit(0)) && Still(Lit(Null)) && Still(IntLit(1))
  {}

  lemma {:induction false} ChainHeads(es: Elifs, names: set<string>, env: Env)
    requires TameElifs(es, names)
    ensures ChainAgrees(es, env)
  {
    hide EvalCond, SameCond, TameBlock;
    if es.Elif? {
      FixedCond(es.c, env);
      ChainHeads(es.rest, names, EvalCond(Evaluator, es.c, env).env);
    }
  }

  lemma {:induction false} LoopHeads(c: Option<Expr>, u: Option<Expr>, b: Stmts, w: World, fuel: nat)
    requires FixedOpt(c) && (u.None? || Done(u.value))
    ensures LoopAgrees(c, u, b, w, fuel)
    decreases fuel
  {
    hide EvalCond, OptEval, ExecBlock, Fixed, Done, SameUpdate;
    if fuel > 0 {
      var r := Tested(Evaluator, c, w.env);
      if c.Some? { FixedCond(c.value, w.env); }
      var o := ExecBlock(Evaluator, b, w.(env := r.env), fuel);
      if o.Normal? || o.Cnt? {
        if u.Some? { DoneSame(u.value, o.w.env); } else { NoUpdate(o.w.env); }
        LoopHeads(c, u, b, o.w.(env := OptEval(Evaluator, u, o.w.env).env), fuel - 1);
      }
    }
  }

  lemma NoUpdate(env: Env)
    ensures SameUpdate(None, env)
  {}

  lemma LeafHeads(s: Stmt, w: World, fuel: nat)
    requires FixedHeads(s) && (s.Let? || s.Eval? || s.Print? || s.Throw? || s.Return? || s.Break? || s.Continue?)
    ensures ExecS(Compiled, s, w, fuel) == ExecS(Evaluator, s, w, fuel)
  {
    hide EvalE, Bind, Fixed;
    match s
    case Let(_, _, init) => FixedOptSame(init, w.env);
    case Eval(e) => DoneSame(e, w.env);
    case Print(e) => FixedSame(e, w.env);
    case Throw(e) => FixedSame(e, w.env);
    case Return(e) => FixedOptSame(e, w.env);
    case _ =>
  }

  /** What a tame statement evaluates itself comes to the same. */
  lemma NeverHeads(s: Stmt, names: set<string>, w: World, fuel: nat)
    requires TameS(s, names)
    ensures HeadsAgree(s, w, fuel)
  {
    hide EvalE, EvalCond, EvalIterable, OptEval, ExecS, Fixed, Done, SameCond, TameBlock, TameElifs, ChainAgrees,
        LoopAgrees, FixedIterable;
    match s
    case If(c, _, es, _) =>
      FixedCond(c, w.env);
      ChainHeads(es, names, EvalCond(Evaluator, c, w.env).env);
    case While(c, _) => FixedCond(c, w.env);
    case For(first, c, u, b) =>
      var w0 := Open(w, map[]);
      if first.Some? { LeafHeads(AsStmt(first.value), w0, fuel); }
      var o := if first.None? then Normal(w0) else ExecS(Evaluator, AsStmt(first.value), w0, fuel);
      if o.Normal? { LoopHeads(c, u, b, o.w, fuel); }
    case ForIn(_, it, _) => IterableSame(it, Open(w, map[]).env);
    case With(_, e, _) => FixedSame(e, Open(w, map[]).env);
    case Try(_, _, _) =>
    case _ => LeafHeads(s, w, fuel);
  }

  // ----- tame programs never part

  lemma {:induction false} Never(s: Stmt, names: set<string>, w: World, fuel: nat)
    requires TameS(s, names) && Bound(names, w.env) && |w.env| > 0
    ensures !Parts(s, w, fuel)
    decreases fuel, Size(s), 2
  {
    hide TameS, PartsInside, HeadsAgree, Bound, ExecS;
    NeverHeads(s, names, w, fuel);
    NeverInside(s, names, w, fuel);
  }

  lemma {:induction false} NeverInside(s: Stmt, names: set<string>, w: World, fuel: nat)
    requires TameS(s, names) && Bound(names, w.env) && |w.env| > 0
    ensures !PartsInside(s, w, fuel)
    decreases fuel, Size(s), 1
  {
    hide EvalE, EvalCond, OptEval, Bind, ExecBlock, ExecElifs, BlockParts, ElifsPart, TameBlock, TameElifs, Bound, Find,
        Parts, FixedHeads;
    match s
    case If(c, t, es, a) =>
      var r := EvalCond(Evaluator, c, w.env);
      CondWider(c, w.env);
      Wide(names, w.env, r.env);
      NeverBlock(t, names, w.(env := r.env), fuel);
      NeverChain(es, a, names, w.(env := r.env), fuel);
    case While(c, b) =>
      var w1 := w.(env := EvalCond(Evaluator, c, w.env).env);
      CondWider(c, w.env);
      Wide(names, w.env, w1.env);
      NeverBlock(b, names, w1, fuel);
      var o := ExecBlock(Evaluator, b, w1, fuel);
      if fuel > 0 && (o.Normal? || o.Cnt?) {
        BlockWider(b, w1, fuel);
        Onwards(names, w1, o);
        Never(s, names, o.w, fuel - 1);
      }
    case For(_, _, _, _) => NeverScoped(s, names, w, fuel);
    case ForIn(_, _, _) => NeverScoped(s, names, w, fuel);
    case Try(_, _, _) => NeverTry(s, names, w, fuel);
    case With(_, _, _) => NeverWith(s, names, w, fuel);
    case _ =>
  }

  lemma {:induction false} NeverWith(s: Stmt, names: set<string>, w: World, fuel: nat)
    requires s.With? && TameS(s, names) && Bound(names, w.env)
    ensures !PartsInside(s, w, fuel)
    decreases fuel, Size(s), 0
  {
    hide EvalE, ExecBlock, BlockParts, TameBlock, Bound, Find, EnterEvents;
    var w0 := Open(w, map[]);
    var r := EvalE(Evaluator, s.e, w0.env);
    if r.Yields? {
      Opened(names, w, map[], {});
      assert names + {} == names;
      EvalWider(s.e, w0.env);
      Wide(names, w0.env, r.env);
      var w1 := Log(w0.(env := if s.name.None? then r.env else Bind(r.env, s.name.value, r.v)), EnterEvents(r.v));
      if s.name.Some? { BindWider(r.env, s.name.value, r.v); Wide(names, r.env, w1.env); }
      AddBound(names, w1.env, Names(s.name));
      NeverBlock(s.body, names + Names(s.name), w1, fuel);
    }
  }

  lemma {:induction false} NeverScoped(s: Stmt, names: set<string>, w: World, fuel: nat)
    requires (s.For? || s.ForIn?) && TameS(s, names) && Bound(names, w.env)
    ensures !PartsInside(s, w, fuel)
    decreases fuel, Size(s), 0
  {
    hide EvalE, EvalIterable, OptEval, Close, IterRest, ExecFor, ExecEach, ForParts, EachParts, TameBlock, CalmBlock,
        NoGenerator, Bound, Find, ExecS;
    var w0 := Open(w, map[]);
    Opened(names, w, map[], {});
    assert names + {} == names;
    if s.For? {
      var o := if s.first.None? then Normal(w0) else ExecS(Evaluator, AsStmt(s.first.value), w0, fuel);
      if o.Normal? {
        if s.first.Some? {
          StmtWider(AsStmt(s.first.value), w0, fuel);
          Onwards(names, w0, o);
        }
        NeverLoop(s.cond, s.update, s.body, names, o.w, fuel);
      }
    } else {
      var r := EvalIterable(Evaluator, s.iterable, w0.env);
      if r.Yields? {
        var w1 := Begun(w0, s.x, r.env, r.v);
        IterableWider(s.iterable, w0.env);
        Wide(names, w0.env, r.env);
        BindWider(r.env, s.x, Null);
        Wide(names, r.env, w1.env);
        NeverEach(s.x, s.body, names, w1, IterRest(r.v), fuel);
        if NoGenerator(s.iterable) {
          NothingToClose(s.iterable, w0.env);
        } else {
          CalmEach(s.x, s.body, names, w1, IterRest(r.v), fuel);
        }
      }
    }
  }

  lemma {:induction false} CalmEach(x: string, b: Stmts, names: set<string>, w: World, items: seq<Value>, fuel: nat)
    requires |w.env| > 0 && Bound(names, w.env) && CalmBlock(b, names + {x})
    ensures !ExecEach(Evaluator, x, b, w, items, fuel).Thr?
    decreases |items|
  {
    hide ExecBlock, CalmBlock, Bound, Find;
    if items != [] {
      var w1 := w.(env := Bind(w.env, x, items[0]));
      BindWider(w.env, x, items[0]);
      Wide(names, w.env, w1.env);
      AddBound(names, w1.env, {x});
      CalmInner(b, names + {x}, w1, fuel);
      var o := ExecBlock(Evaluator, b, w1, fuel);
      if o.Normal? || o.Cnt? {
        BlockWider(b, w1, fuel);
        Onwards(names, w1, o);
        CalmEach(x, b, names, o.w, items[1..], fuel);
      }
    }
  }

  /** Tame programs meet none of the places where the back ends part. */
  lemma {:induction false} NeverBlock(b: Stmts, names: set<string>, w: World, fuel: nat)
    requires TameBlock(b, names) && Bound(names, w.env)
    ensures !BlockParts(b, w, fuel)
    decreases fuel, BlockSize(b), 1
  {
    hide TameBlock, ListParts, Bound, Find;
    Opened(names, w, map[], {});
    assert names + {} == names;
    NeverList(b, names, Open(w, map[]), fuel);
  }

  lemma {:induction false} NeverList(b: Stmts, names: set<string>, w: World, fuel: nat)
    requires TameBlock(b, names) && Bound(names, w.env) && |w.env| > 0
    ensures !ListParts(b, w, fuel)
    decreases fuel, BlockSize(b), 0
  {
    hide ExecS, Parts, TameS, Bound, Find, Declares;
    if b.Cons? {
      Never(b.head, names, w, fuel);
      var o := ExecS(Evaluator, b.head, w, fuel);
      if o.Normal? {
        Declaring(b.head, names, w, fuel);
        NeverList(b.tail, names + Declares(b.head), o.w, fuel);
      }
    }
  }

  lemma {:induction false} NeverChain(es: Elifs, a: Option<Stmts>, names: set<string>, w: World, fuel: nat)
    requires TameElifs(es, names) && (a.None? || TameBlock(a.value, names)) && Bound(names, w.env)
    ensures !ElifsPart(es, a, w, fuel)
    decreases fuel, ElifsSize(es) + (if a.Some? then BlockSize(a.value) else 0), 2
  {
    hide EvalCond, TameBlock, BlockParts, Bound, Find;
    match es
    case NoElif => if a.Some? { NeverBlock(a.value, names, w, fuel); }
    case Elif(c, b, rest) =>
      var r := EvalCond(Evaluator, c, w.env);
      CondWider(c, w.env);
      Wide(names, w.env, r.env);
      NeverBlock(b, names, w.(env := r.env), fuel);
      NeverChain(rest, a, names, w.(env := r.env), fuel);
  }

  lemma {:induction false} NeverLoop(c: Option<Expr>, u: Option<Expr>, b: Stmts, names: set<string>, w: World,
          fuel: nat)
    requires TameBlock(b, names) && Bound(names, w.env)
    ensures !ForParts(c, u, b, w, fuel)
    decreases fuel, BlockSize(b), 2
  {
    hide OptEval, ExecBlock, BlockParts, TameBlock, Bound, Find, EvalCond;
    var w1 := w.(env := Tested(Evaluator, c, w.env).env);
    if c.Some? { CondWider(c.value, w.env); Wide(names, w.env, w1.env); }
    NeverBlock(b, names, w1, fuel);
    var o := ExecBlock(Evaluator, b, w1, fuel);
    if fuel > 0 && (o.Normal? || o.Cnt?) {
      BlockWider(b, w1, fuel);
      Onwards(names, w1, o);
      OptWider(u, o.w.env);
      Wide(names, o.w.env, OptEval(Evaluator, u, o.w.env).env);
      NeverLoop(c, u, b, names, o.w.(env := OptEval(Evaluator, u, o.w.env).env), fuel - 1);
    }
  }

  lemma {:induction false} NeverEach(x: string, b: Stmts, names: set<string>, w: World, items: seq<Value>, fuel: nat)
    requires TameBlock(b, names + {x}) && Bound(names, w.env) && |w.env| > 0
    ensures !EachParts(x, b, w, items, fuel)
    decreases fuel, BlockSize(b), 2, |items|
  {
    hide ExecBlock, BlockParts, TameBlock, Bound, Find;
    if items != [] {
      var w1 := w.(env := Bind(w.env, x, items[0]));
      BindWider(w.env, x, items[0]);
      Wide(names, w.env, w1.env);
      AddBound(names, w1.env, {x});
      NeverBlock(b, names + {x}, w1, fuel);
      var o := ExecBlock(Evaluator, b, w1, fuel);
      if o.Normal? || o.Cnt? {
        BlockWider(b, w1, fuel);
        Onwards(names, w1, o);
        NeverEach(x, b, names, o.w, items[1..], fuel);
      }
    }
  }

  lemma {:induction false} NeverTry(s: Stmt, names: set<string>, w: World, fuel: nat)
    requires s.Try? && TameS(s, names) && Bound(names, w.env)
    ensures !PartsInside(s, w, fuel)
    decreases fuel, Size(s), 0
  {
    hide Select, ExecBlock, BlockParts, HandlerParts, TameBlock, TameCatches, CalmBlock, CatchesFit, Keeps, Find, Bound;
    NeverBlock(s.body, names, w, fuel);
    BlockWider(s.body, w, fuel);
    var o := ExecBlock(Evaluator, s.body, w, fuel);
    if !o.Timeout? { Onwards(names, w, o); }
    if o.Thr? {
      if s.fin.Some? && CalmBlock(s.body, names) { CalmInner(s.body, names, w, fuel); assert false; }
      SelectFits(s.catches, PendOf(o.w), s.fin, names);
      NeverHandler(Select(s.catches, PendOf(o.w)), s.fin, names, o.w, fuel);
    } else if !o.Timeout? && s.fin.Some? {
      NeverBlock(s.fin.value, names, o.w, fuel);
    }
  }

  lemma {:induction false} SelectFits(cs: Catches, err: Value, f: Option<Stmts>, names: set<string>)
    ensures TameCatches(cs, names) ==> TameCatches(Select(cs, err), names)
    ensures f.Some? && CatchesFit(cs, f.value, names) ==> CatchesFit(Select(cs, err), f.value, names)
  {
    hide TameBlock, CalmBlock, Stays, UsesBlock;
    if cs.Catch? && !Matches(cs.kind, err) { SelectFits(cs.rest, err, f, names); }
  }

  lemma {:induction false} NeverHandler(cs: Catches, f: Option<Stmts>, names: set<string>, w: World, fuel: nat)
    requires Bound(names, w.env) && TameCatches(cs, names) && (f.Some? ==>
        TameBlock(f.value, names) && (f.value.Nil? || (Keeps(f.value) && CatchesFit(cs, f.value, names))))
    ensures !HandlerParts(cs, f, w, fuel)
    decreases fuel, CatchesSize(cs) + (if f.Some? then BlockSize(f.value) else 0), 3
  {
    hide ExecBlock, ExecList, BlockParts, ListParts, CatchParts, TameBlock, Keeps, CatchesFit, Bound, Find;
    match cs
    case Catch(_, name, b, _) =>
      var w1 := CatchWorld(name, w);
      Caught(names, name, w);
      NeverList(b, names + Names(name), w1, fuel);
      var o := ExecList(Evaluator, b, w1, fuel);
      if f.Some? && !o.Timeout? {
        ListWider(b, w1, fuel);
        LeftCatch(names, name, w, o);
        NeverBlock(f.value, names, if o.Normal? then Shut(o.w) else o.w, fuel);
        if f.value.Nil? { NilCatch(o, fuel); } else { FitCatch(cs, f.value, names, w, fuel); }
      }
    case NoCatch =>
      if f.Some? {
        NeverBlock(f.value, names, w, fuel);
        if f.value.Nil? { NilEnds(w, fuel); } else { KeepBlock(f.value, w, fuel); }
      }
  }

  lemma Caught(names: set<string>, name: Option<string>, w: World)
    requires Bound(names, w.env)
    ensures Bound(names + Names(name), CatchWorld(name, w).env) && |CatchWorld(name, w).env| > 0
  {
    Opened(names, w, if name.Some? then map[name.value := PendOf(w)] else map[], Names(name));
  }

  /** After the catch body the names are bound, in its scope and outside. */
  lemma LeftCatch(names: set<string>, name: Option<string>, w: World, o: Outcome)
    requires Bound(names, w.env) && !o.Timeout? && Widens(CatchWorld(name, w).env, o)
    ensures Bound(names, o.w.env) && Bound(names, Shut(o.w).env)
  {
    StillBound(names, w.env, Shut(o.w).env);
    StillBound(names, w.env, o.w.env);
  }

  lemma NilEnds(w: World, fuel: nat)
    ensures ExecBlock(Evaluator, Nil, w, fuel) == Normal(w)
  {
    assert (w.env + [map[]])[..|w.env|] == w.env;
  }

  lemma NilCatch(o: Outcome, fuel: nat)
    requires !o.Timeout?
    ensures !CatchParts(Nil, o, fuel)
  {
    hide ExecBlock, Shut;
    NilEnds(o.w, fuel);
    NilEnds(Shut(o.w), fuel);
  }

  lemma FitCatch(cs: Catches, f: Stmts, names: set<string>, w: World, fuel: nat)
    requires cs.Catch? && CatchesFit(cs, f, names) && Bound(names, w.env)
    ensures
      var o := ExecList(Evaluator, cs.body, CatchWorld(cs.name, w), fuel);
      !o.Timeout? ==> !CatchParts(f, o, fuel)
  {
    hide ExecList, CalmBlock, Stays, UsesBlock, ScopeParts, Find, Bound;
    var w1 := CatchWorld(cs.name, w);
    Caught(names, cs.name, w);
    CalmList(cs.body, names + Names(cs.name), w1, fuel);
    var o := ExecList(Evaluator, cs.body, w1, fuel);
    if !o.Timeout? && Leaves(o) {
      if Stays(cs.body, false) { StayList(cs.body, false, w1, fuel); assert false; }
      Unseen(f, o, fuel);
    }
  }

  /** A finally block that names nothing of the catch scope runs inside it as outside. */
  lemma Unseen(f: Stmts, o: Outcome, fuel: nat)
    requires Leaves(o) && |o.w.env| > 0 && UsesBlock(f) !! o.w.env[|o.w.env| - 1].Keys
    ensures !ScopeParts(f, o, fuel)
  {
    hide ExecBlock, UsesBlock;
    var k := |o.w.env| - 1;
    var w, extra := Shut(o.w), o.w.env[k];
    assert o.w == InsW(w, k, extra) by { assert o.w.env == Ins(o.w.env[..k], k, extra); }
    BlockIns(Evaluator, f, w, k, extra, fuel);
    var r := ExecBlock(Evaluator, f, w, fuel);
    if !r.Timeout? { assert Shut(InsW(r.w, k, extra)) == r.w by { assert Ins(r.w.env, k, extra)[..k] == r.w.env; } }
  }

  /** The main result on the text of programs: compiled code and the evaluator end every run
      of a tame program the same way, and go on for ever on the same runs. */
  lemma Agree(b: Stmts, names: set<string>, w: World, fuel: nat)
    requires TameBlock(b, names) && Bound(names, w.env)
    ensures ExecBlock(Compiled, b, w, fuel) == ExecBlock(Evaluator, b, w, fuel)
  {
    hide TameBlock, BlockParts, ExecBlock, Bound;
    NeverBlock(b, names, w, fuel);
    Agreement.Block(b, w, fuel);
  }

  // ----- how far the condition goes

  /** No try statement anywhere. */
  predicate TrylessS(s: Stmt) {
    match s
    case If(_, t, es, a) => Tryless(t) && TrylessElifs(es) && (a.None? || Tryless(a.value))
    case While(_, b) => Tryless(b)
    case For(_, _, _, b) => Tryless(b)
    case ForIn(_, _, b) => Tryless(b)
    case Try(_, _, _) => false
    case With(_, _, b) => Tryless(b)
    case _ => true
  }

  predicate Tryless(b: Stmts) { b.Nil? || (TrylessS(b.head) && Tryless(b.tail)) }

  predicate TrylessElifs(es: Elifs) { es.NoElif? || (Tryless(es.body) && TrylessElifs(es.rest)) }

  lemma {:induction false} TrylessKeeps(b: Stmts)
    requires Tryless(b)
    ensures Keeps(b)
    decreases b
  {
    if b.Cons? {
      TrylessKeeps(b.tail);
      match b.head
      case If(_, t, es, a) =>
        TrylessKeeps(t);
        TrylessElifsKeep(es);
        if a.Some? { TrylessKeeps(a.value); }
      case While(_, c) => TrylessKeeps(c);
      case For(_, _, _, c) => TrylessKeeps(c);
      case ForIn(_, _, c) => TrylessKeeps(c);
      case With(_, _, c) => TrylessKeeps(c);
      case _ =>
    }
  }

  lemma {:induction false} TrylessElifsKeep(es: Elifs)
    requires TrylessElifs(es)
    ensures KeepsElifs(es)
    decreases es
  {
    if es.Elif? {
      TrylessKeeps(es.body);
      TrylessElifsKeep(es.rest);
    }
  }

  /** Loops run over ranges, lists and the like, and a finally block has no catch clauses beside it
      and no try statement in it. */
  predicate UnmixedS(s: Stmt) {
    FixedHeads(s) &&
    match s
    case If(_, t, es, a) => Unmixed(t) && UnmixedElifs(es) && (a.None? || Unmixed(a.value))
    case While(_, b) => Unmixed(b)
    case For(_, _, _, b) => Unmixed(b)
    case ForIn(_, it, b) => Unmixed(b) && (it.Range? || (it.e.Lit? && !it.e.v.Gen?))
    case Try(b, cs, f) => Unmixed(b) && UnmixedCatches(cs)
        && (f.None? || (cs.NoCatch? && Tryless(f.value) && Unmixed(f.value)))
    case With(_, _, b) => Unmixed(b)
    case _ => true
  }

  predicate Unmixed(b: Stmts) { b.Nil? || (UnmixedS(b.head) && Unmixed(b.tail)) }

  predicate UnmixedElifs(es: Elifs) { es.NoElif? || (Fixed(es.c) && Unmixed(es.body) && UnmixedElifs(es.rest)) }

  predicate UnmixedCatches(cs: Catches) { cs.NoCatch? || (Unmixed(cs.body) && UnmixedCatches(cs.rest)) }

  /** All such programs are tame, whatever is bound. */
  lemma {:induction false} UnmixedIsTame(b: Stmts, names: set<string>)
    requires Unmixed(b)
    ensures TameBlock(b, names)
    decreases b
  {
    if b.Cons? {
      UnmixedIsTame(b.tail, names + Declares(b.head));
      match b.head
      case If(_, t, es, a) =>
        UnmixedIsTame(t, names);
        UnmixedElifsTame(es, names);
        if a.Some? { UnmixedIsTame(a.value, names); }
      case While(_, c) => UnmixedIsTame(c, names);
      case For(_, _, _, c) => UnmixedIsTame(c, names);
      case ForIn(x, _, c) => UnmixedIsTame(c, names + {x});
      case Try(c, cs, f) =>
        UnmixedIsTame(c, names);
        UnmixedCatchesTame(cs, names);
        if f.Some? {
          UnmixedIsTame(f.value, names);
          TrylessKeeps(f.value);
        }
      case With(name, _, c) => UnmixedIsTame(c, names + Names(name));
      case _ =>
    }
  }

  lemma {:induction false} UnmixedElifsTame(es: Elifs, names: set<string>)
    requires UnmixedElifs(es)
    ensures TameElifs(es, names)
    decreases es
  {
    if es.Elif? {
      UnmixedIsTame(es.body, names);
      UnmixedElifsTame(es.rest, names);
    }
  }

  lemma {:induction false} UnmixedCatchesTame(cs: Catches, names: set<string>)
    requires UnmixedCatches(cs)
    ensures TameCatches(cs, names)
    decreases cs
  {
    if cs.Catch? {
      UnmixedIsTame(cs.body, names + Names(cs.name));
      UnmixedCatchesTame(cs.rest, names);
    }
  }

  /** And so is `try { throw x } catch (e) { m = e; print m } finally { print x }`. */
  lemma CaughtAndDone(kind: Option<string>)
    ensures
      var caught := Cons(Eval(Assign("m", Var("e"))), Cons(Print(Var("m")), Nil));
      var s := Try(Cons(Throw(Var("x")), Nil), Catch(kind, Some("e"), caught, NoCatch),
          Some(Cons(Print(Var("x")), Nil)));
      TameBlock(Cons(s, Nil), {"x", "m"})
  {
    hide CalmBlock, Stays, Keeps, CatchesFit, UsesBlock;
    var last, f := Cons(Print(Var("m")), Nil), Cons(Print(Var("x")), Nil);
    var caught := Cons(Eval(Assign("m", Var("e"))), last);
    var clause, body := Catch(kind, Some("e"), caught, NoCatch), Cons(Throw(Var("x")), Nil);
    CaughtFits(last, caught, clause, f);
    OneTame(body.head);
    OneTame(f.head);
    assert Unmixed(last);
    UnmixedIsTame(caught, {"x", "m"} + Names(Some("e")));
    var s := Try(body, clause, Some(f));
    assert TameCatches(NoCatch, {"x", "m"});
    assert TameCatches(clause, {"x", "m"});
    assert FinallyFits(body, clause, f, {"x", "m"});
    assert TameS(s, {"x", "m"});
    assert TameBlock(Nil, {"x", "m"} + Declares(s));
  }

  lemma OneTame(s: Stmt)
    requires (s.Print? || s.Throw?) && s.e.Var?
    ensures TameBlock(Cons(s, Nil), {"x", "m"})
  {
    assert TameBlock(Nil, {"x", "m"} + Declares(s));
  }

  lemma CaughtFits(last: Stmts, caught: Stmts, clause: Catches, f: Stmts)
    requires last == Cons(Print(Var("m")), Nil) && f == Cons(Print(Var("x")), Nil)
    requires caught == Cons(Eval(Assign("m", Var("e"))), last)
    requires clause.Catch? && clause.name == Some("e") && clause.body == caught && clause.rest == NoCatch
    ensures Keeps(f) && CatchesFit(clause, f, {"x", "m"})
  {
    var names := {"x", "m"} + Names(Some("e"));
    assert Keeps(Nil) && Stays(Nil, false) && CalmBlock(Nil, names + {} + {});
    assert CalmE(Assign("m", Var("e")), names) && CalmE(Var("m"), names + {});
    assert CalmBlock(last, names + {});
    assert Stays(last, false);
    assert CatchesFit(NoCatch, f, {"x", "m"});
  }
}
