/** A structural semantics of the modelled statements, in two dialects: what the
    tree-walking evaluator does (the reference semantics), and what the emitted code is
    meant to do. The two differ in how a try statement and a for-in loop are left, in the
    value of x++ and x--, and in when the bounds of a range are looked at. */
module Semantics {
  import opened Syntax

  datatype Dialect = Evaluator | Compiled

  type Env = Frames<Value>

  datatype ExprResult = Yields(v: Value, env: Env) | Fails(err: Value, env: Env)

  function Yield(r: Option<Value>, env: Env): ExprResult {
    match r case None => Fails(FAULT, env) case Some(v) => Yields(v, env)
  }

  function EvalE(d: Dialect, e: Expr, env: Env): (r: ExprResult)
    ensures |r.env| == |env|
    decreases e, 0
  {
    match e
    case IntLit(n) => Yields(Int(n), env)
    case Lit(v) => Yields(v, env)
    case Var(x) => var i := Find(env, x); if i < 0 then Fails(FAULT, env) else Yields(env[i][x], env)
    case Assign(x, f) =>
      (match EvalE(d, f, env)
       case Fails(err, env1) => Fails(err, env1)
       case Yields(v, env1) => Yields(v, Assigned(env1, x, v)))
    case Post(x, inc) =>
      var i := Find(env, x);
      if i < 0 || !env[i][x].Int? then Fails(FAULT, env)
      else
        var next := Int(env[i][x].n + (if inc then 1 else -1));
        Yields(if d.Evaluator? then next else env[i][x], Assigned(env, x, next))
    case Un(op, f) =>
      (match EvalE(d, f, env)
       case Fails(err, env1) => Fails(err, env1)
       case Yields(v, env1) => Yield(EvalUn(op, v), env1))
    case Bin(op, l, r) =>
      (match EvalE(d, l, env)
       case Fails(err, env1) => Fails(err, env1)
       case Yields(a, env1) =>
         (match EvalE(d, r, env1)
          case Fails(err, env2) => Fails(err, env2)
          case Yields(b, env2) => Yield(EvalBin(op, a, b), env2)))
    case And(l, r) =>
      (match EvalCond(d, l, env)
       case Fails(err, env1) => Fails(err, env1)
       case Yields(a, env1) => if a == Bool(true) then EvalCond(d, r, env1) else Yields(a, env1))
    case Or(l, r) =>
      (match EvalCond(d, l, env)
       case Fails(err, env1) => Fails(err, env1)
       case Yields(a, env1) => if a == Bool(true) then Yields(a, env1) else EvalCond(d, r, env1))
    case Coalesce(l, r) =>
      (match EvalE(d, l, env)
       case Fails(err, env1) => Fails(err, env1)
       case Yields(a, env1) => if a == Null then EvalE(d, r, env1) else Yields(a, env1))
    case Ternary(c, t, f) =>
      (match EvalCond(d, c, env)
       case Fails(err, env1) => Fails(err, env1)
       case Yields(a, env1) => EvalE(d, if a == Bool(true) then t else f, env1))
  }

  /** A condition must be a bool. */
  function EvalCond(d: Dialect, c: Expr, env: Env): (r: ExprResult)
    ensures |r.env| == |env| && (r.Yields? ==> r.v.Bool?)
    decreases c, 1
  {
    match EvalE(d, c, env)
    case Fails(err, env1) => Fails(err, env1)
    case Yields(v, env1) => if v.Bool? then Yields(v, env1) else Fails(FAULT, env1)
  }

  /** `pend` is the error being raised; it is what a Thr outcome carries. */
  datatype World = World(env: Env, trace: seq<Event>, pend: Option<Value>)

  datatype Outcome =
    | Normal(w: World) | Brk(w: World) | Cnt(w: World) | Ret(v: Value, w: World) | Thr(w: World)
    | Timeout  // out of fuel

  function Throwing(w: World, env: Env, err: Value): Outcome { Thr(w.(env := env, pend := Some(err))) }

  /** A break, continue or return on its way out. */
  predicate Leaves(o: Outcome) { o.Brk? || o.Cnt? || o.Ret? }

  function Open(w: World, frame: map<string, Value>): World { w.(env := w.env + [frame]) }

  function Shut(w: World): World { w.(env := Take(w.env, if |w.env| == 0 then 0 else |w.env| - 1)) }

  function Log(w: World, e: seq<Event>): World { w.(trace := w.trace + e) }

  function ShutAll(o: Outcome): Outcome { if o.Timeout? then o else o.(w := Shut(o.w)) }

  function LogAll(o: Outcome, e: seq<Event>): Outcome { if o.Timeout? then o else o.(w := Log(o.w, e)) }

  function AsStmt(s: Simple): Stmt {
    match s case SLet(x, d, i) => Let(x, d, i) case SEval(e) => Eval(e)
  }

  function OptEval(d: Dialect, e: Option<Expr>, env: Env): (r: ExprResult)
    ensures |r.env| == |env|
  {
    if e.None? then Yields(Null, env) else EvalE(d, e.value, env)
  }

  /** A bound of a range; the evaluator looks at each one at once. */
  function EvalBound(d: Dialect, e: Expr, env: Env): (r: ExprResult)
    ensures |r.env| == |env|
  {
    match EvalE(d, e, env)
    case Fails(err, env1) => Fails(err, env1)
    case Yields(v, env1) => if d.Evaluator? && !v.Int? then Fails(FAULT, env1) else Yields(v, env1)
  }

  /** The iterator a for-in loop runs on. */
  function EvalIterable(d: Dialect, it: Iterable, env: Env): (r: ExprResult)
    ensures |r.env| == |env|
  {
    match it
    case Each(e) =>
      (match EvalE(d, e, env)
       case Fails(err, env1) => Fails(err, env1)
       case Yields(v, env1) => Yield(EachIter(v), env1))
    case Range(start, end, step, ex) =>
      match EvalBound(d, if start.None? then IntLit(0) else start.value, env)
      case Fails(err, env1) => Fails(err, env1)
      case Yields(a, env1) =>
        match EvalBound(d, if end.None? then Lit(Null) else end.value, env1)
        case Fails(err, env2) => Fails(err, env2)
        case Yields(b, env2) =>
          match EvalBound(d, if step.None? then IntLit(1) else step.value, env2)
          case Fails(err, env3) => Fails(err, env3)
          case Yields(c, env3) => Yield(RangeIter(a, b, c, ex), env3)
  }

  /** The first clause that takes the error. */
  function Select(cs: Catches, err: Value): (r: Catches)
    ensures CatchesSize(r) <= CatchesSize(cs)
  {
    match cs
    case NoCatch => NoCatch
    case Catch(kind, _, _, rest) => if Matches(kind, err) then cs else Select(rest, err)
  }

  function ExecS(d: Dialect, s: Stmt, w: World, fuel: nat): (o: Outcome)
    ensures !o.Timeout? ==> |o.w.env| == |w.env| && (o.Thr? ==> o.w.pend.Some?)
    decreases fuel, Size(s), 1
  {
    match s
    case Let(x, _, init) =>
      (match OptEval(d, init, w.env)
       case Fails(err, env) => Throwing(w, env, err)
       case Yields(v, env) => Normal(w.(env := Bind(env, x, v))))
    case Eval(e) =>
      (match EvalE(d, e, w.env)
       case Fails(err, env) => Throwing(w, env, err)
       case Yields(_, env) => Normal(w.(env := env)))
    case Print(e) =>
      (match EvalE(d, e, w.env)
       case Fails(err, env) => Throwing(w, env, err)
       case Yields(v, env) => Normal(Log(w.(env := env), [Printed(v)])))
    case If(c, t, es, a) =>
      (match EvalCond(d, c, w.env)
       case Fails(err, env) => Throwing(w, env, err)
       case Yields(v, env) =>
         if v == Bool(true) then ExecBlock(d, t, w.(env := env), fuel)
         else ExecElifs(d, es, a, w.(env := env), fuel))
    case While(c, b) =>
      if fuel == 0 then Timeout
      else
        (match EvalCond(d, c, w.env)
         case Fails(err, env) => Throwing(w, env, err)
         case Yields(v, env) =>
           if v == Bool(false) then Normal(w.(env := env))
           else
             match ExecBlock(d, b, w.(env := env), fuel)
             case Brk(w1) => Normal(w1)
             case Normal(w1) => ExecS(d, s, w1, fuel - 1)
             case Cnt(w1) => ExecS(d, s, w1, fuel - 1)
             case o => o)
    case For(first, c, u, b) => ExecLoop(d, first, c, u, b, w, fuel)
    case ForIn(x, it, b) => ExecForIn(d, x, it, b, w, fuel)
    case Try(b, cs, f) => ExecTry(d, b, cs, f, w, fuel)
    case With(name, e, b) => ExecWith(d, name, e, b, w, fuel)
    case Throw(e) =>
      (match EvalE(d, e, w.env)
       case Fails(err, env) => Throwing(w, env, err)
       case Yields(v, env) => Throwing(w, env, Thrown(v)))
    case Break => Brk(w)
    case Continue => Cnt(w)
    case Return(e) =>
      (match OptEval(d, e, w.env)
       case Fails(err, env) => Throwing(w, env, err)
       case Yields(v, env) => Ret(v, w.(env := env)))
  }

  function ExecLoop(d: Dialect, first: Option<Simple>, c: Option<Expr>, u: Option<Expr>, b: Stmts, w: World,
          fuel: nat): (o: Outcome)
    ensures !o.Timeout? ==> |o.w.env| == |w.env| && (o.Thr? ==> o.w.pend.Some?)
    decreases fuel, Size(For(first, c, u, b)), -1
  {
    var w0 := Open(w, map[]);
    var o0 := if first.None? then Normal(w0) else ExecS(d, AsStmt(first.value), w0, fuel);
    ShutAll(if o0.Normal? then ExecFor(d, c, u, b, o0.w, fuel) else o0)
  }

  function ExecForIn(d: Dialect, x: string, it: Iterable, b: Stmts, w: World, fuel: nat): (o: Outcome)
    ensures !o.Timeout? ==> |o.w.env| == |w.env| && (o.Thr? ==> o.w.pend.Some?)
    decreases fuel, Size(ForIn(x, it, b)), -1
  {
    var w0 := Open(w, map[]);
    (match EvalIterable(d, it, w0.env)
     case Fails(err, env) => ShutAll(Throwing(w0, env, err))
     case Yields(iter, env) =>
       var o := ExecEach(d, x, b, Begun(w0, x, env, iter), IterRest(iter), fuel);
       ShutAll(LeaveEach(d, o, Close(iter))))
  }

  function ExecTry(d: Dialect, b: Stmts, cs: Catches, f: Option<Stmts>, w: World, fuel: nat): (o: Outcome)
    ensures !o.Timeout? ==> |o.w.env| == |w.env| && (o.Thr? ==> o.w.pend.Some?)
    decreases fuel, Size(Try(b, cs, f)), -1
  {
    (match ExecBlock(d, b, w, fuel)
     case Thr(w1) => ExecHandler(d, Select(cs, PendOf(w1)), f, w1, fuel)
     case o => Finally(d, f, o, fuel))
  }

  function ExecWith(d: Dialect, name: Option<string>, e: Expr, b: Stmts, w: World, fuel: nat): (o: Outcome)
    ensures !o.Timeout? ==> |o.w.env| == |w.env| && (o.Thr? ==> o.w.pend.Some?)
    decreases fuel, Size(Stmt.With(name, e, b)), -1
  {
    var w0 := Open(w, map[]);
    (match EvalE(d, e, w0.env)
     case Fails(err, env) => ShutAll(Throwing(w0, env, err))
     case Yields(v, env) =>
       var w1 := Log(w0.(env := if name.None? then env else Bind(env, name.value, v)), EnterEvents(v));
       ShutAll(LogAll(ExecBlock(d, b, w1, fuel), ExitEvents(v))))
  }

  /** A for-in loop about to ask for its first value. */
  function Begun(w: World, x: string, env: Env, iter: Value): World { Log(w.(env := Bind(env, x, Null)), Opens(iter)) }

  function IterRest(it: Value): seq<Value> { if it.Iter? then it.rest else [] }

  function PendOf(w: World): Value { if w.pend.Some? then w.pend.value else FAULT }

  function ExecBlock(d: Dialect, b: Stmts, w: World, fuel: nat): (o: Outcome)
    ensures !o.Timeout? ==> |o.w.env| == |w.env| && (o.Thr? ==> o.w.pend.Some?)
    decreases fuel, BlockSize(b), 1
  {
    ShutAll(ExecList(d, b, Open(w, map[]), fuel))
  }

  /** The statements of b in the innermost frame, which stays open. */
  function ExecList(d: Dialect, b: Stmts, w: World, fuel: nat): (o: Outcome)
    ensures !o.Timeout? ==> |o.w.env| == |w.env| && (o.Thr? ==> o.w.pend.Some?)
    decreases fuel, BlockSize(b), 0
  {
    match b
    case Nil => Normal(w)
    case Cons(s, rest) =>
      match ExecS(d, s, w, fuel)
      case Normal(w1) => ExecList(d, rest, w1, fuel)
      case o => o
  }

  function ExecElifs(d: Dialect, es: Elifs, a: Option<Stmts>, w: World, fuel: nat): (o: Outcome)
    ensures !o.Timeout? ==> |o.w.env| == |w.env| && (o.Thr? ==> o.w.pend.Some?)
    decreases fuel, ElifsSize(es) + (if a.Some? then BlockSize(a.value) else 0), 2
  {
    match es
    case NoElif => if a.None? then Normal(w) else ExecBlock(d, a.value, w, fuel)
    case Elif(c, b, rest) =>
      match EvalCond(d, c, w.env)
      case Fails(err, env) => Throwing(w, env, err)
      case Yields(v, env) =>
        if v == Bool(true) then ExecBlock(d, b, w.(env := env), fuel)
        else ExecElifs(d, rest, a, w.(env := env), fuel)
  }

  /** The iterations of a for loop whose clause has been opened. */
  function ExecFor(d: Dialect, c: Option<Expr>, u: Option<Expr>, b: Stmts, w: World, fuel: nat): (o: Outcome)
    ensures !o.Timeout? ==> |o.w.env| == |w.env| && (o.Thr? ==> o.w.pend.Some?)
    decreases fuel, BlockSize(b), 2
  {
    if fuel == 0 then Timeout
    else
      match (if c.None? then Yields(Bool(true), w.env) else EvalCond(d, c.value, w.env))
      case Fails(err, env) => Throwing(w, env, err)
      case Yields(v, env) =>
        if v == Bool(false) then Normal(w.(env := env))
        else
          match ExecBlock(d, b, w.(env := env), fuel)
          case Brk(w1) => Normal(w1)
          case Normal(w1) => ForUpdate(d, c, u, b, w1, fuel)
          case Cnt(w1) => ForUpdate(d, c, u, b, w1, fuel)
          case o => o
  }

  function ForUpdate(d: Dialect, c: Option<Expr>, u: Option<Expr>, b: Stmts, w: World, fuel: nat): (o: Outcome)
    ensures !o.Timeout? ==> |o.w.env| == |w.env| && (o.Thr? ==> o.w.pend.Some?)
    requires fuel > 0
    decreases fuel, BlockSize(b), 1
  {
    var r := OptEval(d, u, w.env);
    if r.Fails? then Throwing(w, r.env, r.err) else ExecFor(d, c, u, b, w.(env := r.env), fuel - 1)
  }

  /** The iterations of a for-in loop; x lives in the innermost frame. */
  function ExecEach(d: Dialect, x: string, b: Stmts, w: World, items: seq<Value>, fuel: nat): (o: Outcome)
    ensures !o.Timeout? ==> |o.w.env| == |w.env| && (o.Thr? ==> o.w.pend.Some?)
    decreases fuel, BlockSize(b), 2, |items|
  {
    if items == [] then Normal(w)
    else
      match ExecBlock(d, b, w.(env := Bind(w.env, x, items[0])), fuel)
      case Normal(w1) => ExecEach(d, x, b, w1, items[1..], fuel)
      case Cnt(w1) => ExecEach(d, x, b, w1, items[1..], fuel)
      case o => o
  }

  /** Leaving a for-in loop closes its iterator, except that the emitted code has no
      handler that would close it when an error passes through. */
  function LeaveEach(d: Dialect, o: Outcome, close: seq<Event>): Outcome {
    match o
    case Timeout => Timeout
    case Brk(w) => Normal(Log(w, close))
    case Cnt(w) => Normal(Log(w, close))
    case Thr(w) => if d.Evaluator? then Thr(Log(w, close)) else o
    case _ => LogAll(o, close)
  }

  /** Run a finally block, then go on with o unless the block itself leaves or throws. */
  function Finally(d: Dialect, f: Option<Stmts>, o: Outcome, fuel: nat): (r: Outcome)
    ensures !r.Timeout? ==> !o.Timeout? && |r.w.env| == |o.w.env| && (r.Thr? && (o.Thr? ==> o.w.pend.Some?) ==>
        r.w.pend.Some?)
    decreases fuel, if f.Some? then BlockSize(f.value) else 0, 2
  {
    if f.None? || o.Timeout? then o
    else
      match ExecBlock(d, f.value, o.w, fuel)
      case Normal(w) => if o.Thr? then Thr(w.(pend := Some(PendOf(o.w)))) else o.(w := w)
      case o1 => o1
  }

  /** What happens once the body of a try statement has thrown: cs is the clause that
      takes the error followed by the clauses after it, or NoCatch. */
  function ExecHandler(d: Dialect, cs: Catches, f: Option<Stmts>, w: World, fuel: nat): (o: Outcome)
    ensures !o.Timeout? ==> |o.w.env| == |w.env| && (o.Thr? && w.pend.Some? ==> o.w.pend.Some?)
    decreases fuel, CatchesSize(cs) + (if f.Some? then BlockSize(f.value) else 0), 3
  {
    match cs
    case Catch(_, name, b, _) =>
      var frame := if name.Some? then map[name.value := PendOf(w)] else map[];
      var o := ExecList(d, b, Open(w, frame).(pend := None), fuel);
      (match d
       case Evaluator => Finally(d, f, ShutAll(o), fuel)
       case Compiled =>
         if o.Thr? then ShutAll(o)                              // no handler guards a catch body
         else if o.Normal? then Finally(d, f, ShutAll(o), fuel)
         else ShutAll(Finally(d, f, o, fuel)))                  // inlined inside the catch scope
    case NoCatch =>
      if d.Evaluator? || f.None? then Finally(d, f, Thr(w), fuel)
      else
        match ExecBlock(d, f.value, w, fuel)
        case Normal(w1) =>
          if w1.pend.None? then Finally(d, f, Normal(w1), fuel) // nothing left to rethrow: falls through
          else Thr(w1)
        case o => o
  }
}
