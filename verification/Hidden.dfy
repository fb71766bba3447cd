/** A frame of variables that a piece of program never mentions makes no difference to it,
    wherever the frame sits below the innermost one: running with it and without it ends
    the same way. */
module Hidden {
  import opened Syntax
  import opened Semantics

  function Ins(env: Env, k: nat, extra: map<string, Value>): Env
    requires k <= |env|
  {
    env[..k] + [extra] + env[k..]
  }

  function InsW(w: World, k: nat, extra: map<string, Value>): World
    requires k <= |w.env|
  {
    w.(env := Ins(w.env, k, extra))
  }

  function InsR(r: ExprResult, k: nat, extra: map<string, Value>): ExprResult
    requires k <= |r.env|
  {
    r.(env := Ins(r.env, k, extra))
  }

  function InsO(o: Outcome, k: nat, extra: map<string, Value>): Outcome
    requires !o.Timeout? ==> k <= |o.w.env|
  {
    if o.Timeout? then o else o.(w := InsW(o.w, k, extra))
  }

  // ----- environments

  lemma {:induction false} FindIns(env: Env, k: nat, extra: map<string, Value>, x: string)
    requires k <= |env| && x !in extra
    ensures var i := Find(env, x); Find(Ins(env, k, extra), x) == if i >= k then i + 1 else i
    decreases |env|
  {
    var n := |env|;
    var env1 := Ins(env, k, extra);
    if n == k {
      assert env1[..n] == env;
    } else {
      assert env1[n] == env[n - 1] && env1[..n] == Ins(env[..n - 1], k, extra);
      FindIns(env[..n - 1], k, extra, x);
    }
  }

  lemma AssignedIns(env: Env, k: nat, extra: map<string, Value>, x: string, v: Value)
    requires k <= |env| && x !in extra
    ensures Assigned(Ins(env, k, extra), x, v) == Ins(Assigned(env, x, v), k, extra)
  {
    FindIns(env, k, extra, x);
  }

  lemma BindIns(env: Env, k: nat, extra: map<string, Value>, x: string, v: Value)
    requires k < |env|
    ensures |Bind(env, x, v)| == |env| && Bind(Ins(env, k, extra), x, v) == Ins(Bind(env, x, v), k, extra)
  {}

  lemma OpenIns(w: World, k: nat, extra: map<string, Value>, frame: map<string, Value>)
    requires k <= |w.env|
    ensures |Open(w, frame).env| == |w.env| + 1 && Open(InsW(w, k, extra), frame) == InsW(Open(w, frame), k, extra)
  {
    assert Ins(w.env, k, extra) + [frame] == Ins(w.env + [frame], k, extra);
  }

  lemma ShutIns(w: World, k: nat, extra: map<string, Value>)
    requires k < |w.env|
    ensures Shut(InsW(w, k, extra)) == InsW(Shut(w), k, extra)
  {
    assert Ins(w.env, k, extra)[..|w.env|] == Ins(w.env[..|w.env| - 1], k, extra);
  }

  lemma ShutAllIns(o: Outcome, k: nat, extra: map<string, Value>)
    requires !o.Timeout? ==> k < |o.w.env|
    ensures !o.Timeout? ==> |ShutAll(o).w.env| == |o.w.env| - 1
    ensures ShutAll(InsO(o, k, extra)) == InsO(ShutAll(o), k, extra)
  {
    if !o.Timeout? { ShutIns(o.w, k, extra); }
  }

  lemma LeaveIns(d: Dialect, o: Outcome, close: seq<Event>, k: nat, extra: map<string, Value>)
    requires !o.Timeout? ==> k < |o.w.env|
    ensures var o1 := LeaveEach(d, o, close);
            (!o1.Timeout? ==> !o.Timeout? && |o1.w.env| == |o.w.env|)
                && LeaveEach(d, InsO(o, k, extra), close) == InsO(o1, k, extra)
  {
    hide Ins;
  }

  lemma ThrowIns(w: World, env: Env, err: Value, k: nat, extra: map<string, Value>)
    requires k <= |w.env| == |env|
    ensures |Throwing(w, env, err).w.env| == |env|
    ensures Throwing(InsW(w, k, extra), Ins(env, k, extra), err) == InsO(Throwing(w, env, err), k, extra)
  {
    hide Ins;
  }

  // ----- names apart

  ghost predicate Apart(names: set<string>, extra: map<string, Value>) { names !! extra.Keys }

  lemma ExprNames(e: Expr, extra: map<string, Value>)
    requires Apart(Uses(e), extra)
    ensures match e
            case Var(x) => x !in extra
            case Assign(x, f) => x !in extra && Apart(Uses(f), extra)
            case Post(x, _) => x !in extra
            case Un(_, f) => Apart(Uses(f), extra)
            case Bin(_, l, r) => Apart(Uses(l), extra) && Apart(Uses(r), extra)
            case And(l, r) => Apart(Uses(l), extra) && Apart(Uses(r), extra)
            case Or(l, r) => Apart(Uses(l), extra) && Apart(Uses(r), extra)
            case Coalesce(l, r) => Apart(Uses(l), extra) && Apart(Uses(r), extra)
            case Ternary(c, t, f) => Apart(Uses(c), extra) && Apart(Uses(t), extra) && Apart(Uses(f), extra)
            case _ => true
  {}

  lemma StmtNames(s: Stmt, extra: map<string, Value>)
    requires Apart(UsesStmt(s), extra)
    ensures match s
            case Let(_, _, init) => Apart(UsesOpt(init), extra)
            case Eval(e) => Apart(Uses(e), extra)
            case Print(e) => Apart(Uses(e), extra)
            case If(c, t, es, a) =>
              Apart(Uses(c), extra) && Apart(UsesBlock(t), extra) && Apart(UsesElifs(es), extra)
                  && Apart(UsesFinally(a), extra)
            case While(c, b) => Apart(Uses(c), extra) && Apart(UsesBlock(b), extra)
            case For(first, c, u, b) =>
              (first.Some? ==> Apart(UsesStmt(AsStmt(first.value)), extra)) &&
              Apart(UsesOpt(c), extra) && Apart(UsesOpt(u), extra) && Apart(UsesBlock(b), extra)
            case ForIn(_, it, b) => Apart(UsesBlock(b), extra) && Apart(UsesStmt(ForIn("", it, b)), extra)
            case Try(b, cs, f) => Apart(UsesBlock(b), extra) && Apart(UsesCatches(cs), extra)
                && Apart(UsesFinally(f), extra)
            case With(_, e, b) => Apart(Uses(e), extra) && Apart(UsesBlock(b), extra)
            case Throw(e) => Apart(Uses(e), extra)
            case Return(e) => Apart(UsesOpt(e), extra)
            case _ => true
  {
    hide Uses, UsesBlock, UsesElifs, UsesCatches;
  }

  lemma ListNames(b: Stmts, extra: map<string, Value>)
    requires Apart(UsesBlock(b), extra) && b.Cons?
    ensures Apart(UsesStmt(b.head), extra) && Apart(UsesBlock(b.tail), extra)
  {
    hide UsesStmt;
  }

  lemma ElifNames(es: Elifs, extra: map<string, Value>)
    requires Apart(UsesElifs(es), extra) && es.Elif?
    ensures Apart(Uses(es.c), extra) && Apart(UsesBlock(es.body), extra) && Apart(UsesElifs(es.rest), extra)
  {
    hide Uses, UsesBlock;
  }

  lemma SomeUses(e: Option<Expr>, extra: map<string, Value>)
    requires e.Some? && Apart(UsesOpt(e), extra)
    ensures Apart(Uses(e.value), extra)
  {}

  lemma CatchUses(cs: Catches, f: Option<Stmts>, extra: map<string, Value>)
    requires Apart(UsesCatches(cs), extra) && Apart(UsesFinally(f), extra)
    ensures cs.Catch? ==> Apart(UsesBlock(cs.body), extra)
    ensures f.Some? ==> Apart(UsesBlock(f.value), extra)
  {
    hide UsesBlock;
  }

  // ----- expressions

  lemma {:induction false} EvalIns(d: Dialect, e: Expr, env: Env, k: nat, extra: map<string, Value>)
    requires k <= |env| && Apart(Uses(e), extra)
    ensures EvalE(d, e, Ins(env, k, extra)) == InsR(EvalE(d, e, env), k, extra)
    decreases e, 1
  {
    hide Find, Ins, EvalBin, EvalUn, Apart, Uses, Assigned, EvalCond;
    ExprNames(e, extra);
    match e
    case Var(x) => FindIns(env, k, extra, x); InsAt(env, k, extra, x);
    case Assign(x, f) =>
      EvalIns(d, f, env, k, extra);
      var r := EvalE(d, f, env);
      if r.Yields? { AssignedIns(r.env, k, extra, x, r.v); }
    case Post(x, inc) => PostIns(d, x, inc, env, k, extra);
    case Un(_, f) => EvalIns(d, f, env, k, extra);
    case Bin(_, l, r) =>
      EvalIns(d, l, env, k, extra);
      var a := EvalE(d, l, env);
      if a.Yields? { EvalIns(d, r, a.env, k, extra); }
    case And(_, _) => LogicIns(d, e, env, k, extra);
    case Or(_, _) => LogicIns(d, e, env, k, extra);
    case Coalesce(_, _) => LogicIns(d, e, env, k, extra);
    case Ternary(_, _, _) => LogicIns(d, e, env, k, extra);
    case _ =>
  }

  lemma PostIns(d: Dialect, x: string, inc: bool, env: Env, k: nat, extra: map<string, Value>)
    requires k <= |env| && x !in extra
    ensures EvalE(d, Post(x, inc), Ins(env, k, extra)) == InsR(EvalE(d, Post(x, inc), env), k, extra)
  {
    hide Find, Ins, Assigned;
    FindIns(env, k, extra, x);
    InsAt(env, k, extra, x);
    var i := Find(env, x);
    if i >= 0 && env[i][x].Int? { AssignedIns(env, k, extra, x, Int(env[i][x].n + (if inc then 1 else -1))); }
  }

  lemma {:induction false} LogicIns(d: Dialect, e: Expr, env: Env, k: nat, extra: map<string, Value>)
    requires k <= |env| && Apart(Uses(e), extra) && (e.And? || e.Or? || e.Coalesce? || e.Ternary?)
    ensures EvalE(d, e, Ins(env, k, extra)) == InsR(EvalE(d, e, env), k, extra)
    decreases e, 0
  {
    hide Find, Ins, Apart, Uses, EvalCond;
    ExprNames(e, extra);
    match e
    case And(l, r) =>
      CondIns(d, l, env, k, extra);
      var a := EvalCond(d, l, env);
      if a.Yields? { CondIns(d, r, a.env, k, extra); }
    case Or(l, r) =>
      CondIns(d, l, env, k, extra);
      var a := EvalCond(d, l, env);
      if a.Yields? { CondIns(d, r, a.env, k, extra); }
    case Coalesce(l, r) =>
      EvalIns(d, l, env, k, extra);
      var a := EvalE(d, l, env);
      if a.Yields? { EvalIns(d, r, a.env, k, extra); }
    case Ternary(c, t, f) =>
      CondIns(d, c, env, k, extra);
      var a := EvalCond(d, c, env);
      if a.Yields? { EvalIns(d, if a.v == Bool(true) then t else f, a.env, k, extra); }
  }

  lemma InsAt(env: Env, k: nat, extra: map<string, Value>, x: string)
    requires k <= |env|
    ensures |Ins(env, k, extra)| == |env| + 1
    ensures forall i :: 0 <= i < |env| ==> Ins(env, k, extra)[if i >= k then i + 1 else i] == env[i]
  {}

  lemma {:induction false} CondIns(d: Dialect, e: Expr, env: Env, k: nat, extra: map<string, Value>)
    requires k <= |env| && Apart(Uses(e), extra)
    ensures EvalCond(d, e, Ins(env, k, extra)) == InsR(EvalCond(d, e, env), k, extra)
    decreases e, 2
  {
    hide EvalE, Ins, Uses, Apart;
    EvalIns(d, e, env, k, extra);
  }

  lemma OptIns(d: Dialect, e: Option<Expr>, env: Env, k: nat, extra: map<string, Value>)
    requires k <= |env| && Apart(UsesOpt(e), extra)
    ensures OptEval(d, e, Ins(env, k, extra)) == InsR(OptEval(d, e, env), k, extra)
  {
    hide EvalE, Ins;
    if e.Some? { EvalIns(d, e.value, env, k, extra); }
  }

  lemma IterableIns(d: Dialect, it: Iterable, b: Stmts, env: Env, k: nat, extra: map<string, Value>)
    requires k <= |env| && Apart(UsesStmt(ForIn("", it, b)), extra)
    ensures EvalIterable(d, it, Ins(env, k, extra)) == InsR(EvalIterable(d, it, env), k, extra)
  {
    hide EvalE, EvalBound, Ins, EachIter, RangeIter, Uses, UsesBlock;
    match it
    case Each(e) => EvalIns(d, e, env, k, extra);
    case Range(x, y, z, ex) =>
      var xe, ze := if x.None? then IntLit(0) else x.value, if z.None? then IntLit(1) else z.value;
      var ye := if y.None? then Lit(Null) else y.value;
      PartUses(x, xe);
      PartUses(y, ye);
      PartUses(z, ze);
      BoundIns(d, xe, env, k, extra);
      var a := EvalBound(d, xe, env);
      if a.Yields? {
        BoundIns(d, ye, a.env, k, extra);
        var c := EvalBound(d, ye, a.env);
        if c.Yields? { BoundIns(d, ze, c.env, k, extra); }
      }
  }

  lemma BoundIns(d: Dialect, e: Expr, env: Env, k: nat, extra: map<string, Value>)
    requires k <= |env| && Apart(Uses(e), extra)
    ensures EvalBound(d, e, Ins(env, k, extra)) == InsR(EvalBound(d, e, env), k, extra)
  {
    hide EvalE, Ins, Uses;
    EvalIns(d, e, env, k, extra);
  }

  lemma PartUses(x: Option<Expr>, e: Expr)
    requires if x.None? then e.IntLit? || e.Lit? else e == x.value
    ensures Uses(e) <= UsesOpt(x)
  {}

  // ----- statements

  lemma {:induction false} StmtIns(d: Dialect, s: Stmt, w: World, k: nat, extra: map<string, Value>, fuel: nat)
    requires k < |w.env| && Apart(UsesStmt(s), extra)
    ensures ExecS(d, s, InsW(w, k, extra), fuel) == InsO(ExecS(d, s, w, fuel), k, extra)
    decreases fuel, Size(s), 1
  {
    hide Ins, Apart, EvalE, EvalCond, OptEval, Bind, Uses, UsesBlock, UsesElifs, UsesCatches, ExecBlock, ExecElifs,
        UsesStmt;
    StmtNames(s, extra);
    match s
    case Let(x, _, init) =>
      OptIns(d, init, w.env, k, extra);
      var r := OptEval(d, init, w.env);
      if r.Yields? { BindIns(r.env, k, extra, x, r.v); }
    case Eval(e) => EvalIns(d, e, w.env, k, extra);
    case Print(e) => EvalIns(d, e, w.env, k, extra);
    case Throw(e) => EvalIns(d, e, w.env, k, extra);
    case Return(e) => OptIns(d, e, w.env, k, extra);
    case If(c, t, es, a) =>
      CondIns(d, c, w.env, k, extra);
      var r := EvalCond(d, c, w.env);
      if r.Yields? {
        if r.v == Bool(true) { BlockIns(d, t, w.(env := r.env), k, extra, fuel); }
        else { ElifsIns(d, es, a, w.(env := r.env), k, extra, fuel); }
      }
    case While(c, b) => WhileIns(d, s, w, k, extra, fuel);
    case For(_, _, _, _) => ForIns(d, s, w, k, extra, fuel);
    case ForIn(_, _, _) => ForInIns(d, s, w, k, extra, fuel);
    case Try(_, _, _) => TryIns(d, s, w, k, extra, fuel);
    case With(_, _, _) => WithIns(d, s, w, k, extra, fuel);
    case Break =>
    case Continue =>
  }

  lemma {:induction false} WhileIns(d: Dialect, s: Stmt, w: World, k: nat, extra: map<string, Value>, fuel: nat)
    requires s.While? && k < |w.env| && Apart(UsesStmt(s), extra)
    ensures ExecS(d, s, InsW(w, k, extra), fuel) == InsO(ExecS(d, s, w, fuel), k, extra)
    decreases fuel, Size(s), 0
  {
    hide Ins, Apart, EvalCond, Uses, UsesBlock, ExecBlock, UsesStmt;
    StmtNames(s, extra);
    if fuel > 0 {
      CondIns(d, s.c, w.env, k, extra);
      var r := EvalCond(d, s.c, w.env);
      if r.Yields? && r.v != Bool(false) {
        BlockIns(d, s.body, w.(env := r.env), k, extra, fuel);
        var o := ExecBlock(d, s.body, w.(env := r.env), fuel);
        if o.Normal? || o.Cnt? { StmtIns(d, s, o.w, k, extra, fuel - 1); }
      }
    }
  }

  lemma {:induction false} ForIns(d: Dialect, s: Stmt, w: World, k: nat, extra: map<string, Value>, fuel: nat)
    requires s.For? && k < |w.env| && Apart(UsesStmt(s), extra)
    ensures ExecS(d, s, InsW(w, k, extra), fuel) == InsO(ExecS(d, s, w, fuel), k, extra)
    decreases fuel, Size(s), 0
  {
    hide Ins, Apart, EvalE, Uses, UsesBlock, ExecFor, Open, Shut, UsesStmt;
    StmtNames(s, extra);
    var w0 := Open(w, map[]);
    OpenIns(w, k, extra, map[]);
    if s.first.Some? { StmtIns(d, AsStmt(s.first.value), w0, k, extra, fuel); }
    var o := if s.first.None? then Normal(w0) else ExecS(d, AsStmt(s.first.value), w0, fuel);
    if o.Normal? {
      LoopIns(d, s.cond, s.update, s.body, o.w, k, extra, fuel);
      o := ExecFor(d, s.cond, s.update, s.body, o.w, fuel);
    }
    ShutAllIns(o, k, extra);
  }

  /** One round of a for loop, its condition evaluated. */
  function Round(d: Dialect, c: Option<Expr>, u: Option<Expr>, b: Stmts, w: World, r: ExprResult, fuel: nat): Outcome
    requires fuel > 0
  {
    match r
    case Fails(err, env) => Throwing(w, env, err)
    case Yields(v, env) =>
      if v == Bool(false) then Normal(w.(env := env))
          else AfterBody(d, c, u, b, ExecBlock(d, b, w.(env := env), fuel), fuel)
  }

  function AfterBody(d: Dialect, c: Option<Expr>, u: Option<Expr>, b: Stmts, o: Outcome, fuel: nat): Outcome
    requires fuel > 0
  {
    match o
    case Brk(w1) => Normal(w1)
    case Normal(w1) => ForUpdate(d, c, u, b, w1, fuel)
    case Cnt(w1) => ForUpdate(d, c, u, b, w1, fuel)
    case o => o
  }

  function Tested(d: Dialect, c: Option<Expr>, env: Env): (r: ExprResult)
    ensures |r.env| == |env|
  {
    if c.None? then Yields(Bool(true), env) else EvalCond(d, c.value, env)
  }

  lemma ForEqual(d: Dialect, c: Option<Expr>, u: Option<Expr>, b: Stmts, w: World, fuel: nat)
    ensures ExecFor(d, c, u, b, w, fuel) == if fuel == 0 then Timeout
        else Round(d, c, u, b, w, Tested(d, c, w.env), fuel)
  {
    hide ExecBlock, EvalCond, ForUpdate, Throwing;
  }

  lemma TestedIns(d: Dialect, c: Option<Expr>, env: Env, k: nat, extra: map<string, Value>)
    requires k <= |env| && Apart(UsesOpt(c), extra)
    ensures Tested(d, c, Ins(env, k, extra)) == InsR(Tested(d, c, env), k, extra)
  {
    hide EvalCond, Ins, Apart, Uses;
    if c.Some? { SomeUses(c, extra); CondIns(d, c.value, env, k, extra); }
  }

  lemma {:induction false} LoopIns(d: Dialect, c: Option<Expr>, u: Option<Expr>, b: Stmts, w: World, k: nat,
          extra: map<string, Value>, fuel: nat)
    requires k < |w.env| && Apart(UsesOpt(c), extra) && Apart(UsesOpt(u), extra) && Apart(UsesBlock(b), extra)
    ensures ExecFor(d, c, u, b, InsW(w, k, extra), fuel) == InsO(ExecFor(d, c, u, b, w, fuel), k, extra)
    decreases fuel, BlockSize(b), 3
  {
    hide Ins, Apart, Throwing, EvalCond, UsesOpt, UsesBlock, ExecBlock, ExecFor, AfterBody, Tested;
    ForEqual(d, c, u, b, w, fuel);
    ForEqual(d, c, u, b, InsW(w, k, extra), fuel);
    if fuel > 0 {
      TestedIns(d, c, w.env, k, extra);
      var r := Tested(d, c, w.env);
      if r.Fails? {
        ThrowIns(w, r.env, r.err, k, extra);
      } else if r.v != Bool(false) {
        BlockIns(d, b, w.(env := r.env), k, extra, fuel);
        BodyIns(d, c, u, b, ExecBlock(d, b, w.(env := r.env), fuel), k, extra, fuel);
      }
    }
  }

  lemma {:induction false} BodyIns(d: Dialect, c: Option<Expr>, u: Option<Expr>, b: Stmts, o: Outcome, k: nat,
          extra: map<string, Value>, fuel: nat)
    requires fuel > 0 && (!o.Timeout? ==> k < |o.w.env|)
    requires Apart(UsesOpt(c), extra) && Apart(UsesOpt(u), extra) && Apart(UsesBlock(b), extra)
    ensures
      var r := AfterBody(d, c, u, b, o, fuel);
      (!r.Timeout? ==> k <= |r.w.env|) && AfterBody(d, c, u, b, InsO(o, k, extra), fuel) == InsO(r, k, extra)
    decreases fuel, BlockSize(b), 2
  {
    hide Ins, Apart, UsesOpt, UsesBlock, ForUpdate;
    if o.Normal? || o.Cnt? { UpdateIns(d, c, u, b, o.w, k, extra, fuel); }
  }

  lemma {:induction false} UpdateIns(d: Dialect, c: Option<Expr>, u: Option<Expr>, b: Stmts, w: World, k: nat,
          extra: map<string, Value>, fuel: nat)
    requires fuel > 0 && k < |w.env| && Apart(UsesOpt(c), extra) && Apart(UsesOpt(u), extra)
        && Apart(UsesBlock(b), extra)
    ensures ForUpdate(d, c, u, b, InsW(w, k, extra), fuel) == InsO(ForUpdate(d, c, u, b, w, fuel), k, extra)
    decreases fuel, BlockSize(b), 1
  {
    hide Ins, Apart, OptEval, UsesOpt, UsesBlock, ExecFor;
    OptIns(d, u, w.env, k, extra);
    var r := OptEval(d, u, w.env);
    if r.Yields? { LoopIns(d, c, u, b, w.(env := r.env), k, extra, fuel - 1); }
  }

  lemma {:induction false} ForInIns(d: Dialect, s: Stmt, w: World, k: nat, extra: map<string, Value>, fuel: nat)
    requires s.ForIn? && k < |w.env| && Apart(UsesStmt(s), extra)
    ensures ExecS(d, s, InsW(w, k, extra), fuel) == InsO(ExecS(d, s, w, fuel), k, extra)
    decreases fuel, Size(s), 0
  {
    hide Ins, Apart, EvalIterable, Bind, Uses, UsesBlock, ExecEach, Close, IterRest, Open, Shut, UsesStmt, LeaveEach,
        ShutAll, Begun;
    StmtNames(s, extra);
    var w0 := Open(w, map[]);
    OpenIns(w, k, extra, map[]);
    IterableIns(d, s.iterable, s.body, w0.env, k, extra);
    var r := EvalIterable(d, s.iterable, w0.env);
    if r.Yields? {
      BindIns(r.env, k, extra, s.x, Null);
      var w1 := Begun(w0, s.x, r.env, r.v);
      BegunIns(w0, s.x, r, k, extra);
      EachIns(d, s.x, s.body, w1, IterRest(r.v), k, extra, fuel);
      var o := ExecEach(d, s.x, s.body, w1, IterRest(r.v), fuel);
      LeaveIns(d, o, Close(r.v), k, extra);
      ShutAllIns(LeaveEach(d, o, Close(r.v)), k, extra);
    } else {
      ShutAllIns(Throwing(w0, r.env, r.err), k, extra);
    }
  }

  lemma BegunIns(w0: World, x: string, r: ExprResult, k: nat, extra: map<string, Value>)
    requires r.Yields? && k < |w0.env| == |r.env|
    ensures
      var w1 := Begun(w0, x, r.env, r.v);
      |w1.env| == |r.env| && Begun(InsW(w0, k, extra), x, Ins(r.env, k, extra), r.v) == InsW(w1, k, extra)
  {
    hide Ins, Bind;
    BindIns(r.env, k, extra, x, Null);
  }

  lemma {:induction false} EachIns(d: Dialect, x: string, b: Stmts, w: World, items: seq<Value>, k: nat,
          extra: map<string, Value>, fuel: nat)
    requires k < |w.env| && Apart(UsesBlock(b), extra)
    ensures ExecEach(d, x, b, InsW(w, k, extra), items, fuel) == InsO(ExecEach(d, x, b, w, items, fuel), k, extra)
    decreases fuel, BlockSize(b), 2, |items|
  {
    hide Ins, Apart, Bind, UsesBlock, ExecBlock;
    if items != [] {
      BindIns(w.env, k, extra, x, items[0]);
      var w1 := w.(env := Bind(w.env, x, items[0]));
      BlockIns(d, b, w1, k, extra, fuel);
      var o := ExecBlock(d, b, w1, fuel);
      if o.Normal? || o.Cnt? { EachIns(d, x, b, o.w, items[1..], k, extra, fuel); }
    }
  }

  lemma {:induction false} TryIns(d: Dialect, s: Stmt, w: World, k: nat, extra: map<string, Value>, fuel: nat)
    requires s.Try? && k < |w.env| && Apart(UsesStmt(s), extra)
    ensures ExecS(d, s, InsW(w, k, extra), fuel) == InsO(ExecS(d, s, w, fuel), k, extra)
    decreases fuel, Size(s), 0
  {
    hide Ins, Apart, UsesBlock, UsesCatches, ExecBlock, ExecHandler, Finally, Select, UsesStmt;
    StmtNames(s, extra);
    BlockIns(d, s.body, w, k, extra, fuel);
    var o := ExecBlock(d, s.body, w, fuel);
    if o.Thr? {
      SelectUses(s.catches, PendOf(o.w), extra);
      HandlerIns(d, Select(s.catches, PendOf(o.w)), s.fin, o.w, k, extra, fuel);
    } else {
      FinallyIns(d, s.fin, o, k, extra, fuel);
    }
  }

  lemma SelectUses(cs: Catches, err: Value, extra: map<string, Value>)
    requires Apart(UsesCatches(cs), extra)
    ensures Apart(UsesCatches(Select(cs, err)), extra)
  {}

  /** A with statement once its resource has been evaluated. */
  function Held(d: Dialect, name: Option<string>, b: Stmts, w0: World, r: ExprResult, fuel: nat): Outcome {
    match r
    case Fails(err, env) => ShutAll(Throwing(w0, env, err))
    case Yields(v, env) =>
      ShutAll(LogAll(ExecBlock(d, b, HeldWorld(name, w0, v, env), fuel), ExitEvents(v)))
  }

  function HeldWorld(name: Option<string>, w0: World, v: Value, env: Env): World {
    Log(w0.(env := if name.None? then env else Bind(env, name.value, v)), EnterEvents(v))
  }

  lemma WithEqual(d: Dialect, name: Option<string>, e: Expr, b: Stmts, w: World, fuel: nat)
    ensures ExecS(d, Stmt.With(name, e, b), w, fuel) ==
        Held(d, name, b, Open(w, map[]), EvalE(d, e, Open(w, map[]).env), fuel)
  {
    hide ExecBlock, EvalE, Bind, EnterEvents, ExitEvents, LogAll, ShutAll, Throwing, Open;
  }

  lemma HeldIns(name: Option<string>, w0: World, v: Value, env: Env, k: nat, extra: map<string, Value>)
    requires k < |w0.env| == |env|
    ensures
      var w1 := HeldWorld(name, w0, v, env);
      |w1.env| == |env| && HeldWorld(name, InsW(w0, k, extra), v, Ins(env, k, extra)) == InsW(w1, k, extra)
  {
    hide Ins, Bind, EnterEvents;
    if name.Some? { BindIns(env, k, extra, name.value, v); }
  }

  lemma LogAllIns(o: Outcome, e: seq<Event>, k: nat, extra: map<string, Value>)
    requires !o.Timeout? ==> k <= |o.w.env|
    ensures var o1 := LogAll(o, e);
            o1.Timeout? == o.Timeout? && (!o.Timeout? ==> |o1.w.env| == |o.w.env|)
                && LogAll(InsO(o, k, extra), e) == InsO(o1, k, extra)
  {
    hide Ins;
  }

  lemma {:induction false} WithIns(d: Dialect, s: Stmt, w: World, k: nat, extra: map<string, Value>, fuel: nat)
    requires s.With? && k < |w.env| && Apart(UsesStmt(s), extra)
    ensures ExecS(d, s, InsW(w, k, extra), fuel) == InsO(ExecS(d, s, w, fuel), k, extra)
    decreases fuel, Size(s), 0
  {
    hide Ins, Apart, EvalE, Uses, UsesBlock, ExecBlock, ExitEvents, Open, UsesStmt, ExecS, HeldWorld, Throwing,
        LogAll, ShutAll;
    StmtNames(s, extra);
    var w0 := Open(w, map[]);
    WithEqual(d, s.name, s.e, s.body, w, fuel);
    WithEqual(d, s.name, s.e, s.body, InsW(w, k, extra), fuel);
    OpenIns(w, k, extra, map[]);
    EvalIns(d, s.e, w0.env, k, extra);
    var r := EvalE(d, s.e, w0.env);
    if r.Yields? {
      HeldIns(s.name, w0, r.v, r.env, k, extra);
      var w1 := HeldWorld(s.name, w0, r.v, r.env);
      BlockIns(d, s.body, w1, k, extra, fuel);
      var o := ExecBlock(d, s.body, w1, fuel);
      LogAllIns(o, ExitEvents(r.v), k, extra);
      ShutAllIns(LogAll(o, ExitEvents(r.v)), k, extra);
    } else {
      ThrowIns(w0, r.env, r.err, k, extra);
      ShutAllIns(Throwing(w0, r.env, r.err), k, extra);
    }
  }

  lemma {:induction false} BlockIns(d: Dialect, b: Stmts, w: World, k: nat, extra: map<string, Value>, fuel: nat)
    requires k <= |w.env| && Apart(UsesBlock(b), extra)
    ensures ExecBlock(d, b, InsW(w, k, extra), fuel) == InsO(ExecBlock(d, b, w, fuel), k, extra)
    decreases fuel, BlockSize(b), 1
  {
    hide Ins, Apart, UsesBlock, ExecList, Open, Shut;
    OpenIns(w, k, extra, map[]);
    var w0 := Open(w, map[]);
    ListIns(d, b, w0, k, extra, fuel);
    ShutAllIns(ExecList(d, b, w0, fuel), k, extra);
  }

  lemma {:induction false} ListIns(d: Dialect, b: Stmts, w: World, k: nat, extra: map<string, Value>, fuel: nat)
    requires k < |w.env| && Apart(UsesBlock(b), extra)
    ensures ExecList(d, b, InsW(w, k, extra), fuel) == InsO(ExecList(d, b, w, fuel), k, extra)
    decreases fuel, BlockSize(b), 0
  {
    hide Ins, Apart, UsesStmt, ExecS;
    if b.Cons? {
      ListNames(b, extra);
      StmtIns(d, b.head, w, k, extra, fuel);
      var o := ExecS(d, b.head, w, fuel);
      if o.Normal? { ListIns(d, b.tail, o.w, k, extra, fuel); }
    }
  }

  lemma {:induction false} ElifsIns(d: Dialect, es: Elifs, a: Option<Stmts>, w: World, k: nat, extra: map<string,
          Value>, fuel: nat)
    requires k < |w.env| && Apart(UsesElifs(es), extra) && Apart(UsesFinally(a), extra)
    ensures ExecElifs(d, es, a, InsW(w, k, extra), fuel) == InsO(ExecElifs(d, es, a, w, fuel), k, extra)
    decreases fuel, ElifsSize(es) + (if a.Some? then BlockSize(a.value) else 0), 2
  {
    hide Ins, Apart, EvalCond, Uses, UsesBlock, ExecBlock;
    match es
    case NoElif => if a.Some? { BlockIns(d, a.value, w, k, extra, fuel); }
    case Elif(c, b, rest) =>
      ElifNames(es, extra);
      CondIns(d, c, w.env, k, extra);
      var r := EvalCond(d, c, w.env);
      if r.Yields? {
        if r.v == Bool(true) { BlockIns(d, b, w.(env := r.env), k, extra, fuel); }
        else { ElifsIns(d, rest, a, w.(env := r.env), k, extra, fuel); }
      }
  }

  lemma {:induction false} FinallyIns(d: Dialect, f: Option<Stmts>, o: Outcome, k: nat, extra: map<string, Value>,
          fuel: nat)
    requires (!o.Timeout? ==> k <= |o.w.env|) && Apart(UsesFinally(f), extra)
    ensures Finally(d, f, InsO(o, k, extra), fuel) == InsO(Finally(d, f, o, fuel), k, extra)
    decreases fuel, if f.Some? then BlockSize(f.value) else 0, 2
  {
    hide Ins, Apart, UsesBlock, ExecBlock;
    if f.Some? && !o.Timeout? { BlockIns(d, f.value, o.w, k, extra, fuel); }
  }

  lemma {:induction false} HandlerIns(d: Dialect, cs: Catches, f: Option<Stmts>, w: World, k: nat, extra: map<string,
          Value>, fuel: nat)
    requires k < |w.env| && Apart(UsesCatches(cs), extra) && Apart(UsesFinally(f), extra)
    ensures ExecHandler(d, cs, f, InsW(w, k, extra), fuel) == InsO(ExecHandler(d, cs, f, w, fuel), k, extra)
    decreases fuel, CatchesSize(cs) + (if f.Some? then BlockSize(f.value) else 0), 5

  {
    CatchUses(cs, f, extra);
    match cs
    case Catch(kind, name, b, rest) =>
      hide Ins, Apart, UsesBlock, ExecBlock, ExecList, ExecHandler, Finally, Open, Shut, UsesFinally, UsesCatches,
          ShutAll, InsO;
      var frame := if name.Some? then map[name.value := PendOf(w)] else map[];
      var w1 := Open(w, frame).(pend := None);
      OpenIns(w, k, extra, frame);
      ListIns(d, b, w1, k, extra, fuel);
      CatchEqual(d, kind, name, b, rest, f, w, fuel);
      CatchEqual(d, kind, name, b, rest, f, InsW(w, k, extra), fuel);
      AfterIns(d, f, ExecList(d, b, w1, fuel), k, extra, fuel);
    case NoCatch =>
      hide Ins, Apart, UsesBlock, ExecBlock, ExecHandler, Finally, UsesFinally, UsesCatches, Settled, InsO, InsW;
      NoCatchEqual(d, f, w, fuel);
      NoCatchEqual(d, f, InsW(w, k, extra), fuel);
      UncaughtIns(d, f, w, k, extra, fuel);
  }

  /** The error goes on after the finally block has run. */
  function Uncaught(d: Dialect, f: Option<Stmts>, w: World, fuel: nat): Outcome {
    if d.Evaluator? || f.None? then Finally(d, f, Thr(w), fuel)
        else Settled(d, f, w, ExecBlock(d, f.value, w, fuel), fuel)
  }

  function Settled(d: Dialect, f: Option<Stmts>, w: World, o: Outcome, fuel: nat): Outcome {
    match o
    case Normal(w1) =>
      if w1.pend.None? then Finally(d, f, Normal(w1), fuel)
      else Thr(w1)
    case o => o
  }

  lemma NoCatchEqual(d: Dialect, f: Option<Stmts>, w: World, fuel: nat)
    ensures ExecHandler(d, NoCatch, f, w, fuel) == Uncaught(d, f, w, fuel)
  {
    hide ExecBlock, Finally;
  }

  lemma {:induction false} UncaughtIns(d: Dialect, f: Option<Stmts>, w: World, k: nat, extra: map<string, Value>,
          fuel: nat)
    requires k < |w.env| && Apart(UsesFinally(f), extra) && (f.Some? ==> Apart(UsesBlock(f.value), extra))
    ensures
      var r := Uncaught(d, f, w, fuel);
      (!r.Timeout? ==> k <= |r.w.env|) && Uncaught(d, f, InsW(w, k, extra), fuel) == InsO(r, k, extra)
    decreases fuel, if f.Some? then BlockSize(f.value) else 0, 4
  {
    hide Ins, Apart, UsesBlock, ExecBlock, Finally, UsesFinally;
    FinallyIns(d, f, Thr(w), k, extra, fuel);
    if f.Some? {
      BlockIns(d, f.value, w, k, extra, fuel);
      var o := ExecBlock(d, f.value, w, fuel);
      if o.Normal? { FinallyIns(d, f, o, k, extra, fuel); }
    }
  }

  /** What follows the body of a catch clause, in each dialect. */
  function AfterCatch(d: Dialect, f: Option<Stmts>, o: Outcome, fuel: nat): Outcome {
    match d
    case Evaluator => Finally(d, f, ShutAll(o), fuel)
    case Compiled =>
      if o.Thr? then ShutAll(o) else if o.Normal? then Finally(d, f, ShutAll(o), fuel)
          else ShutAll(Finally(d, f, o, fuel))
  }

  lemma TryEqual(d: Dialect, b: Stmts, cs: Catches, f: Option<Stmts>, w: World, fuel: nat)
    ensures
      var o := ExecBlock(d, b, w, fuel);
      ExecS(d, Try(b, cs, f), w, fuel) == if o.Thr? then ExecHandler(d, Select(cs, PendOf(o.w)), f, o.w, fuel)
          else Finally(d, f, o, fuel)
  {
    hide ExecBlock, ExecHandler, Select, Finally;
  }

  lemma CatchEqual(d: Dialect, kind: Option<string>, name: Option<string>, b: Stmts, rest: Catches, f: Option<Stmts>,
          w: World, fuel: nat)
    ensures
      var frame := if name.Some? then map[name.value := PendOf(w)] else map[];
      ExecHandler(d, Catch(kind, name, b, rest), f, w, fuel) ==
          AfterCatch(d, f, ExecList(d, b, Open(w, frame).(pend := None), fuel), fuel)
  {
    hide ExecList, Finally, ShutAll;
  }

  lemma {:induction false} AfterIns(d: Dialect, f: Option<Stmts>, o: Outcome, k: nat, extra: map<string, Value>,
          fuel: nat)
    requires (!o.Timeout? ==> k < |o.w.env| - 1) && Apart(UsesFinally(f), extra)
    ensures
      var r := AfterCatch(d, f, o, fuel);
      (!r.Timeout? ==> k <= |r.w.env|) && AfterCatch(d, f, InsO(o, k, extra), fuel) == InsO(r, k, extra)
    decreases fuel, if f.Some? then BlockSize(f.value) else 0, 3
  {
    hide Ins, Apart, UsesBlock, Finally, Shut, UsesFinally;
    ShutAllIns(o, k, extra);
    FinallyIns(d, f, ShutAll(o), k, extra, fuel);
    FinallyIns(d, f, o, k, extra, fuel);
    ShutAllIns(Finally(d, f, o, fuel), k, extra);
  }
}
