/** What the values and operators that both back ends share come to, said without the functions
    that compute them: laws of evaluation, and small programs with what they print. */
module Laws {
  import opened Syntax
  import opened Semantics
  import opened Machine
  import opened ExprGen
  import opened Relation
  import ExprCorrect
  import Folding
  import StmtGen

  // ----- one operand

  /** -e is the number that adds up to 0 with e; of anything but an int it is a fault. */
  lemma Negation(d: Dialect, e: Expr, env: Env)
    ensures
      var r, s := EvalE(d, e, env), EvalE(d, Un(Neg, e), env);
      && (r.Fails? ==> s == r)
      && (r.Yields? && r.v.Int? ==> s.Yields? && s.env == r.env && s.v.Int? && r.v.n + s.v.n == 0)
      && (r.Yields? && !r.v.Int? ==> s == Fails(FAULT, r.env))
  {}

  /** !e is the other bool; of anything but a bool it is a fault. */
  lemma Complement(d: Dialect, e: Expr, env: Env)
    ensures
      var r, s := EvalE(d, e, env), EvalE(d, Un(Not, e), env);
      && (r.Fails? ==> s == r)
      && (r.Yields? && r.v.Bool? ==> s.Yields? && s.env == r.env && s.v.Bool? && s.v != r.v)
      && (r.Yields? && !r.v.Bool? ==> s == Fails(FAULT, r.env))
  {}

  /** The code of e's negation leaves the number that adds up to 0 with what e comes to. */
  lemma NegationCode(code: seq<Instr>, e: Expr, sc: Scopes, next: nat, env: Env, st: State)
    returns (n: nat, t: State, m: int)
    requires OkE(e, sc) && Laid(sc, next) && Rel(env, sc, st.mem) && At(code, st.pc, CodeE(Un(Neg, e), sc, st.pc))
    requires EvalE(Compiled, e, env).Yields? && EvalE(Compiled, e, env).v.Int?
    ensures Run(code, Running(st), n) == Running(t)
    ensures t.stack == st.stack + [Int(m)] && EvalE(Compiled, e, env).v.n + m == 0 && t.trace == st.trace
  {
    hide Run, Rel, Laid, At, CodeE, EvalUn, EvalE, Keeps;
    Negation(Compiled, e, env);
    n, t := ExprCorrect.EvalSim(code, Un(Neg, e), sc, next, env, st);
    m := EvalE(Compiled, Un(Neg, e), env).v.n;
  }

  /** The code of !e leaves the other bool. */
  lemma ComplementCode(code: seq<Instr>, e: Expr, sc: Scopes, next: nat, env: Env, st: State)
    returns (n: nat, t: State, b: bool)
    requires OkE(e, sc) && Laid(sc, next) && Rel(env, sc, st.mem) && At(code, st.pc, CodeE(Un(Not, e), sc, st.pc))
    requires EvalE(Compiled, e, env).Yields? && EvalE(Compiled, e, env).v.Bool?
    ensures Run(code, Running(st), n) == Running(t)
    ensures t.stack == st.stack + [Bool(b)] && EvalE(Compiled, e, env).v.b != b && t.trace == st.trace
  {
    hide Run, Rel, Laid, At, CodeE, EvalUn, EvalE, Keeps;
    Complement(Compiled, e, env);
    n, t := ExprCorrect.EvalSim(code, Un(Not, e), sc, next, env, st);
    b := EvalE(Compiled, Un(Not, e), env).v.b;
  }

  // ----- two operands

  /** The operands of a binary operator come to a and b. */
  ghost predicate Come(d: Dialect, l: Expr, r: Expr, env: Env, a: Value, b: Value) {
    EvalE(d, l, env).Yields? && EvalE(d, l, env).v == a && EvalE(d, r, EvalE(d, l, env).env).Yields?
    && EvalE(d, r, EvalE(d, l, env).env).v == b
  }

  /** What op comes to on two operands. */
  ghost function On(d: Dialect, op: BinOp, l: Expr, r: Expr, env: Env): ExprResult { EvalE(d, Bin(op, l, r), env) }

  lemma OnIs(d: Dialect, op: BinOp, l: Expr, r: Expr, env: Env, a: Value, b: Value)
    requires Come(d, l, r, env, a, b)
    ensures On(d, op, l, r, env) == Yield(EvalBin(op, a, b), EvalE(d, r, EvalE(d, l, env).env).env)
  {
    hide EvalBin;
  }

  ghost predicate Gives(r: ExprResult, v: Value) { r.Yields? && r.v == v }

  /** Sums and differences undo each other, and a product is a repeated sum. */
  lemma Sums(d: Dialect, l: Expr, r: Expr, env: Env, a: int, b: int)
    requires Come(d, l, r, env, Int(a), Int(b))
    ensures
      var s, d := On(d, Add, l, r, env), On(d, Sub, l, r, env);
      s.Yields? && s.v.Int? && s.v.n - b == a && d.Yields? && d.v.Int? && d.v.n + b == a
    ensures
      var p := On(d, Mul, l, r, env);
      p.Yields? && p.v.Int? && (b >= 0 ==> p.v.n == Repeated(a, b)) && (b < 0 ==> p.v.n == -Repeated(a, -b))
  {
    hide EvalE, On, Come;
    OnIs(d, Add, l, r, env, Int(a), Int(b));
    OnIs(d, Sub, l, r, env, Int(a), Int(b));
    OnIs(d, Mul, l, r, env, Int(a), Int(b));
    RepeatedIs(a, if b >= 0 then b else -b);
  }

  function Repeated(a: int, k: nat): int { if k == 0 then 0 else a + Repeated(a, k - 1) }

  lemma {:induction false} RepeatedIs(a: int, k: nat)
    ensures Repeated(a, k) == a * k
  {
    if k > 0 { RepeatedIs(a, k - 1); }
  }

  /** Quotient and remainder give the dividend back, with the remainder on the divisor's side; by 0
      both are faults. */
  lemma Quotients(d: Dialect, l: Expr, r: Expr, env: Env, a: int, b: int)
    requires Come(d, l, r, env, Int(a), Int(b))
    ensures
      var q, m := On(d, IntDiv, l, r, env), On(d, Mod, l, r, env);
      if b == 0 then q.Fails? && m.Fails?
      else
        q.Yields? && q.v.Int? && m.Yields? && m.v.Int? && q.v.n * b + m.v.n == a
        && if b > 0 then 0 <= m.v.n < b else b < m.v.n <= 0
  {
    hide EvalE, On, Come, FloorDiv, FloorMod;
    OnIs(d, IntDiv, l, r, env, Int(a), Int(b));
    OnIs(d, Mod, l, r, env, Int(a), Int(b));
    if b != 0 { Folding.FloorLaw(a, b); }
  }

  /** Of two ints just one of <, == and > holds, and <= and >= are what is left when > and < do
      not; a is less than b when something is missing to it. */
  lemma Comparisons(d: Dialect, l: Expr, r: Expr, env: Env, a: int, b: int)
    requires Come(d, l, r, env, Int(a), Int(b))
    ensures Gives(On(d, Lt, l, r, env), Bool(b - a > 0)) && Gives(On(d, Gt, l, r, env), Bool(a - b > 0))
    ensures Gives(On(d, Le, l, r, env), Bool(!(a - b > 0))) && Gives(On(d, Ge, l, r, env), Bool(!(b - a > 0)))
    ensures Gives(On(d, Eq, l, r, env), Bool(!(b - a > 0) && !(a - b > 0)))
    ensures Gives(On(d, Ne, l, r, env), Bool(b - a > 0 || a - b > 0))
  {
    hide EvalE, On, Come;
    OnIs(d, Lt, l, r, env, Int(a), Int(b));
    OnIs(d, Gt, l, r, env, Int(a), Int(b));
    OnIs(d, Le, l, r, env, Int(a), Int(b));
    OnIs(d, Ge, l, r, env, Int(a), Int(b));
    OnIs(d, Eq, l, r, env, Int(a), Int(b));
    OnIs(d, Ne, l, r, env, Int(a), Int(b));
  }

  /** Any two values are the same or not. */
  lemma Sameness(d: Dialect, l: Expr, r: Expr, env: Env, a: Value, b: Value)
    requires Come(d, l, r, env, a, b)
    ensures Gives(On(d, Eq, l, r, env), Bool(true)) <==> a == b
    ensures Gives(On(d, Ne, l, r, env), Bool(true)) <==> a != b
    ensures On(d, Eq, l, r, env).Yields? && On(d, Eq, l, r, env).v.Bool? && On(d, Ne, l, r, env).Yields?
            && On(d, Ne, l, r, env).v.Bool?
  {
    hide EvalE, On, Come;
    OnIs(d, Eq, l, r, env, a, b);
    OnIs(d, Ne, l, r, env, a, b);
  }

  /** The other operators take two ints, or two bools for xor, and nothing else. */
  lemma Mismatch(d: Dialect, op: BinOp, l: Expr, r: Expr, env: Env, a: Value, b: Value)
    requires Come(d, l, r, env, a, b) && !op.Eq? && !op.Ne?
    requires if op.Xor? then !(a.Bool? && b.Bool?) else !(a.Int? && b.Int?)
    ensures On(d, op, l, r, env).Fails? && On(d, op, l, r, env).err == FAULT
  {
    hide EvalE, On, Come;
    OnIs(d, op, l, r, env, a, b);
  }

  lemma Exclusive(d: Dialect, l: Expr, r: Expr, env: Env, a: bool, b: bool)
    requires Come(d, l, r, env, Bool(a), Bool(b))
    ensures Gives(On(d, Xor, l, r, env), Bool((a && !b) || (b && !a)))
  {
    hide EvalE, On, Come;
    OnIs(d, Xor, l, r, env, Bool(a), Bool(b));
  }

  // ----- choices

  /** l && r is true when both are; r is only evaluated when l is true. */
  lemma Both(d: Dialect, l: Expr, r: Expr, env: Env, a: bool)
    requires Gives(EvalE(d, l, env), Bool(a))
    ensures !a ==> EvalE(d, And(l, r), env) == Yields(Bool(false), EvalE(d, l, env).env)
    ensures
      var right := EvalE(d, r, EvalE(d, l, env).env);
      a && right.Yields? ==> EvalE(d, And(l, r), env) == if right.v.Bool? then right else Fails(FAULT, right.env)
  {
    hide EvalCond;
    CondIs(d, l, env);
    CondIs(d, r, EvalE(d, l, env).env);
  }

  lemma CondIs(d: Dialect, e: Expr, env: Env)
    ensures
      var r := EvalE(d, e, env);
      EvalCond(d, e, env) == if r.Yields? && !r.v.Bool? then Fails(FAULT, r.env) else r
  {
    hide EvalE;
  }

  /** l || r is true when one is; r is only evaluated when l is false. */
  lemma Either(d: Dialect, l: Expr, r: Expr, env: Env, a: bool)
    requires Gives(EvalE(d, l, env), Bool(a))
    ensures a ==> EvalE(d, Or(l, r), env) == Yields(Bool(true), EvalE(d, l, env).env)
    ensures
      var right := EvalE(d, r, EvalE(d, l, env).env);
      !a && right.Yields? ==> EvalE(d, Or(l, r), env) == if right.v.Bool? then right else Fails(FAULT, right.env)
  {
    hide EvalCond;
    CondIs(d, l, env);
    CondIs(d, r, EvalE(d, l, env).env);
  }

  /** l ?? r is l unless that is null, and c ? t : f is t when c is true and f when it is false. */
  lemma Chosen(d: Dialect, c: Expr, t: Expr, f: Expr, env: Env)
    requires EvalE(d, c, env).Yields?
    ensures
      var r := EvalE(d, c, env);
      && EvalE(d, Coalesce(c, f), env) == (if r.v == Null then EvalE(d, f, r.env) else r)
      && (r.v == Bool(true) ==> EvalE(d, Ternary(c, t, f), env) == EvalE(d, t, r.env))
      && (r.v == Bool(false) ==> EvalE(d, Ternary(c, t, f), env) == EvalE(d, f, r.env))
      && (!r.v.Bool? ==> EvalE(d, Ternary(c, t, f), env) == Fails(FAULT, r.env))
  {}

  /** What is left out is null: the value of a variable, and of a return. */
  lemma Missing(d: Dialect, x: string, t: Decl, w: World, fuel: nat)
    requires |w.env| > 0
    ensures ExecS(d, Stmt.Return(None), w, fuel) == Ret(Null, w)
    ensures
      var o := ExecS(d, Let(x, t, None), w, fuel);
      o.Normal? && EvalE(d, Var(x), o.w.env) == Yields(Null, o.w.env) && o.w.trace == w.trace
  {
    hide Find;
    FindLast(Bind(w.env, x, Null), x);
  }

  // ----- names

  /** An assignment gives the name its value, wherever it is bound, and no other name another. */
  lemma Assigning(d: Dialect, x: string, e: Expr, env: Env, y: string)
    requires EvalE(d, e, env).Yields? && Find(env, x) >= 0
    ensures
      var r, s := EvalE(d, e, env), EvalE(d, Assign(x, e), env);
      && s.Yields? && s.v == r.v
      && (Find(r.env, x) >= 0 ==> EvalE(d, Var(x), s.env) == Yields(r.v, s.env))
      && (y != x && EvalE(d, Var(y), r.env).Yields? ==>
            EvalE(d, Var(y), s.env).Yields? && EvalE(d, Var(y), s.env).v == EvalE(d, Var(y), r.env).v)
  {
    hide Find, EvalE;
    var r := EvalE(d, e, env);
    AssignIs(d, x, e, env);
    var after := Assigned(r.env, x, r.v);
    SameFind(r.env, x, r.v, x);
    SameFind(r.env, x, r.v, y);
    VarIs(d, x, after);
    VarIs(d, y, r.env);
    VarIs(d, y, after);
  }

  lemma AssignIs(d: Dialect, x: string, e: Expr, env: Env)
    requires EvalE(d, e, env).Yields?
    ensures EvalE(d, Assign(x, e), env) ==
        Yields(EvalE(d, e, env).v, Assigned(EvalE(d, e, env).env, x, EvalE(d, e, env).v))
  {
    hide Find, Assigned;
  }

  lemma VarIs(d: Dialect, x: string, env: Env)
    ensures EvalE(d, Var(x), env) == if Find(env, x) < 0 then Fails(FAULT, env) else Yields(env[Find(env, x)][x], env)
  {
    hide Find;
  }

  lemma {:induction false} SameFind(env: Env, x: string, v: Value, y: string)
    ensures Find(Assigned(env, x, v), y) == Find(env, y)
    decreases |env|
  {
    var i, more := Find(env, x), Assigned(env, x, v);
    var j, k := Find(env, y), Find(more, y);
    if j >= 0 { assert y in more[j]; }
    if k >= 0 { assert y in env[k]; }
  }

  /** x++ and x-- leave the number after or before; they yield it in the evaluator, and in compiled
      code the number that was there. */
  lemma Stepping(d: Dialect, x: string, inc: bool, env: Env)
    ensures
      var r, s := EvalE(d, Var(x), env), EvalE(d, Post(x, inc), env);
      if r.Yields? && r.v.Int? then
        && s.Yields? && EvalE(d, Var(x), s.env).Yields?
        && EvalE(d, Var(x), s.env).v == Int(if inc then r.v.n + 1 else r.v.n - 1)
        && s.v == if d.Evaluator? then EvalE(d, Var(x), s.env).v else r.v
      else s.Fails?
  {
    hide Find;
    var i := Find(env, x);
    if i >= 0 && env[i][x].Int? { SameFind(env, x, Int(env[i][x].n + (if inc then 1 else -1)), x); }
  }

  // ----- ranges and lists

  /** How far a range goes: up to its end, or short of it when that is left out. */
  predicate Within(n: int, end: int, step: int, exclusive: bool) {
    if n == end then !exclusive else if step > 0 then n < end else n > end
  }

  /** The items of a range are start, start + step, start + 2 * step and so on, as long as they are
      within its end, and no others. */
  lemma {:induction false} RangeVisits(start: int, end: int, step: int, exclusive: bool, k: nat)
    requires step != 0
    ensures
      var items := RangeItems(start, end, step, exclusive);
      && (k < |items| <==> Within(start + k * step, end, step, exclusive))
      && (k < |items| ==> items[k] == Int(start + k * step))
    decreases k
  {
    if k > 0 {
      assert start + k * step == start + step + (k - 1) * step;
      RangeVisits(start + step, end, step, exclusive, k - 1);
      if !Within(start, end, step, exclusive) { Farther(start, end, step, exclusive, k); }
    }
  }

  lemma {:induction false} Farther(start: int, end: int, step: int, exclusive: bool, k: nat)
    requires step != 0 && !Within(start, end, step, exclusive)
    ensures !Within(start + k * step, end, step, exclusive)
  {
    if k > 0 {
      assert start + k * step == start + (k - 1) * step + step;
      Farther(start, end, step, exclusive, k - 1);
    }
  }

  /** The items are start, start + step and so on, as long as they are within the end. */
  ghost predicate Visits(items: seq<Value>, start: int, end: int, step: int, exclusive: bool) {
    forall k: nat {:trigger items[k]} ::
      (k < |items| <==> Within(start + k * step, end, step, exclusive))
      && (k < |items| ==> items[k] == Int(start + k * step))
  }

  lemma AllVisited(start: int, end: int, step: int, exclusive: bool)
    requires step != 0
    ensures Visits(RangeItems(start, end, step, exclusive), start, end, step, exclusive)
  {
    var items := RangeItems(start, end, step, exclusive);
    forall k: nat
      ensures (k < |items| <==> Within(start + k * step, end, step, exclusive))
              && (k < |items| ==> items[k] == Int(start + k * step))
    {
      RangeVisits(start, end, step, exclusive, k);
    }
  }

  /** A range over ints with a step other than 0 starts an iterator over just these items, and
      anything else is a fault; nothing is opened for it. */
  lemma RangeLoops(a: Expr, b: Expr, c: Expr, exclusive: bool, env: Env)
    requires EvalE(Evaluator, a, env).Yields? && EvalE(Evaluator, b, EvalE(Evaluator, a, env).env).Yields?
    requires EvalE(Evaluator, c, EvalE(Evaluator, b, EvalE(Evaluator, a, env).env).env).Yields?
    ensures
      var x := EvalE(Evaluator, a, env);
      var y := EvalE(Evaluator, b, x.env);
      var z := EvalE(Evaluator, c, y.env);
      var it := EvalIterable(Evaluator, Range(Some(a), Some(b), Some(c), exclusive), env);
      if x.v.Int? && y.v.Int? && z.v.Int? && z.v.n != 0 then
        it.Yields? && Opens(it.v) == [] && Close(it.v) == []
        && Visits(IterRest(it.v), x.v.n, y.v.n, z.v.n, exclusive)
      else it.Fails?
  {
    hide EvalE, RangeItems, Visits;
    var x := EvalE(Evaluator, a, env);
    var y := EvalE(Evaluator, b, x.env);
    var z := EvalE(Evaluator, c, y.env);
    if x.v.Int? && y.v.Int? && z.v.Int? && z.v.n != 0 { AllVisited(x.v.n, y.v.n, z.v.n, exclusive); }
  }

  /** A bound that is left out: a range starts at 0 and goes on by 1. */
  lemma RangeDefaults(b: Expr, exclusive: bool, env: Env)
    ensures EvalIterable(Evaluator, Range(None, Some(b), None, exclusive), env) ==
            EvalIterable(Evaluator, Range(Some(IntLit(0)), Some(b), Some(IntLit(1)), exclusive), env)
  {
    hide RangeItems;
  }

  /** A loop over a list or a generator goes through its values in order; a generator is opened and
      closed, a list is not, and over anything else there is no loop. */
  lemma EachLoops(e: Expr, env: Env)
    requires EvalE(Evaluator, e, env).Yields?
    ensures
      var v, it := EvalE(Evaluator, e, env).v, EvalIterable(Evaluator, Each(e), env);
      match v
      case List(items) => it.Yields? && IterRest(it.v) == items && Opens(it.v) == [] && Close(it.v) == []
      case Gen(id, items) => it.Yields? && IterRest(it.v) == items && Opens(it.v) == [Opened(id)]
          && Close(it.v) == [Closed(id)]
      case _ => it.Fails?
  {}

  // ----- errors and resources

  /** A catch clause without a kind takes every error but a fatal one; a clause for a kind takes
      that kind, every kind when it is for Error, and timeouts and TLS errors when it is for
      IOError. */
  lemma Taken(k: string, c: string)
    ensures Matches(None, Err(c)) <==> c != "FatalError"
    ensures Matches(Some(k), Err(c)) <==>
            c != "FatalError" &&
            (k in {"", "Error", c} || (k == "IOError" && c in {"TimeoutError", "TlsError"}))
  {}

  lemma NotTaken(kind: Option<string>, v: Value)
    requires !v.Err?
    ensures !Matches(kind, v)
  {}

  /** An error is thrown as it is; anything else becomes a fault, which `catch (RuntimeError)` takes. */
  lemma Raising(e: Expr, w: World, fuel: nat)
    requires EvalE(Evaluator, e, w.env).Yields?
    ensures
      var r, o := EvalE(Evaluator, e, w.env), ExecS(Evaluator, Throw(e), w, fuel);
      o.Thr? && o.w.pend.Some? && o.w.env == r.env && o.w.trace == w.trace
      && if r.v.Err? then o.w.pend.value == r.v else Matches(Some("RuntimeError"), o.w.pend.value)
  {}

  /** A with statement shows that its resource is entered before its body and exited after it, on
      every way out; anything but a resource shows nothing. */
  lemma Resources(v: Value)
    ensures if v.Res? then EnterEvents(v) == [Entered(v.rid)] && ExitEvents(v) == [Exited(v.rid)]
            else EnterEvents(v) == [] && ExitEvents(v) == []
  {}

  // ----- which code is chosen

  /** The tests of a remainder for being 0 or not. */
  predicate TestsRemainder(c: Expr, x: string, d: nat) {
    var m, zero := Bin(Mod, Var(x), IntLit(d)), IntLit(0);
    c == Bin(Eq, m, zero) || c == Bin(Eq, zero, m) || c == Bin(Ne, m, zero) || c == Bin(Ne, zero, m)
  }

  predicate LocalInt(sc: Scopes, x: string) {
    var i := Find(sc, x);
    i >= 0 && sc[i][x].isInt && sc[i][x].ref.Local?
  }

  /** The branch on a remainder is fused exactly for a local that counts as an int and a positive
      divisor of 64 bits. */
  lemma FusedWhen(c: Expr, sc: Scopes)
    ensures FuseMod(c, sc).Some? <==>
            exists x, d: nat :: TestsRemainder(c, x, d) && 0 < d < 0x8000_0000_0000_0000 && LocalInt(sc, x)
  {
    if FuseMod(c, sc).Some? {
      var m := if IsZero(c.r) then c.l else c.r;
      assert TestsRemainder(c, m.l.x, m.r.n) && LocalInt(sc, m.l.x);
    }
  }

  /** A variable counts as an int when it is declared int, or is declared without a type and starts
      as an int literal or as a variable that counts as one. */
  lemma CountsAsInt(d: Decl, init: Option<Expr>, sc: Scopes)
    ensures StmtGen.LetIsInt(d, init, sc) <==>
            d == IntType || (d == Untyped && init.Some? && (init.value.IntLit? || IntNamed(init.value, sc)))
  {}

  predicate IntNamed(e: Expr, sc: Scopes) {
    e.Var? && var i := Find(sc, e.x); i >= 0 && sc[i][e.x].isInt
  }

  // ----- small programs

  function Do(s: Stmt): Stmts { Cons(s, Nil) }

  function AllPrinted(items: seq<Value>): (r: seq<Event>)
    ensures |r| == |items| && forall k :: 0 <= k < |r| ==> r[k] == Printed(items[k])
  {
    seq(|items|, k requires 0 <= k < |items| => Printed(items[k]))
  }

  lemma PrintsX(x: string, v: Value, w: World, fuel: nat)
    requires |w.env| > 0 && x in w.env[|w.env| - 1] && w.env[|w.env| - 1][x] == v
    ensures ExecBlock(Evaluator, Do(Print(Var(x))), w, fuel) == Normal(Log(w, [Printed(v)]))
  {
    hide Find;
    var w0 := Open(w, map[]);
    FindUnder(w.env, x);
    assert ExecS(Evaluator, Print(Var(x)), w0, fuel) == Normal(Log(w0, [Printed(v)]));
    var w1 := Log(w0, [Printed(v)]);
    assert ExecList(Evaluator, Nil, w1, fuel) == Normal(w1);
    assert ExecList(Evaluator, Do(Print(Var(x))), w0, fuel) == Normal(w1);
    assert Shut(w1) == Log(w, [Printed(v)]) by { assert (w.env + [map[]])[..|w.env|] == w.env; }
  }

  lemma FindUnder(env: Env, x: string)
    requires |env| > 0 && x in env[|env| - 1]
    ensures Find(env + [map[]], x) == |env| - 1
  {
    var more := env + [map[]];
    assert more[..|env|] == env;
    assert x in more[|env| - 1];
  }

  lemma PrintsValue(v: Value, w: World, fuel: nat)
    ensures ExecBlock(Evaluator, Do(Print(Lit(v))), w, fuel) == Normal(Log(w, [Printed(v)]))
  {
    var w0 := Open(w, map[]);
    var w1 := Log(w0, [Printed(v)]);
    assert ExecS(Evaluator, Print(Lit(v)), w0, fuel) == Normal(w1);
    assert ExecList(Evaluator, Nil, w1, fuel) == Normal(w1);
    assert ExecList(Evaluator, Do(Print(Lit(v))), w0, fuel) == Normal(w1);
    assert Shut(w1) == Log(w, [Printed(v)]) by { assert (w.env + [map[]])[..|w.env|] == w.env; }
  }

  /** `if (b) print a else print c` prints one of the two. */
  lemma IfPrints(b: bool, a: Value, c: Value, w: World, fuel: nat)
    ensures ExecS(Evaluator, If(Lit(Bool(b)), Do(Print(Lit(a))), NoElif, Some(Do(Print(Lit(c))))), w, fuel) ==
              Normal(Log(w, [Printed(if b then a else c)]))
  {
    hide ExecBlock;
    PrintsValue(a, w, fuel);
    PrintsValue(c, w, fuel);
    assert EvalCond(Evaluator, Lit(Bool(b)), w.env) == Yields(Bool(b), w.env);
    assert w.(env := w.env) == w;
    assert ExecElifs(Evaluator, NoElif, Some(Do(Print(Lit(c)))), w, fuel) ==
           ExecBlock(Evaluator, Do(Print(Lit(c))), w, fuel);
  }

  /** `with (r) { print v }` enters r, prints, and exits r. */
  lemma WithPrints(id: nat, v: Value, w: World, fuel: nat)
    ensures ExecS(Evaluator, Stmt.With(None, Lit(Res(id)), Do(Print(Lit(v)))), w, fuel) ==
              Normal(Log(w, [Event.Entered(id), Printed(v), Exited(id)]))
  {
    hide ExecBlock;
    var w0 := Open(w, map[]);
    var w1 := Log(w0, [Event.Entered(id)]);
    PrintsValue(v, w1, fuel);
    assert w0.env[..|w.env|] == w.env;
    assert Log(Log(w1, [Printed(v)]), [Exited(id)]) == Log(w0, [Event.Entered(id), Printed(v), Exited(id)]);
  }

  /** `try { return a } finally { print c }` prints before it returns, and
      `try { throw e } catch { print a } finally { print c }` prints both. */
  lemma TryPrints(a: Value, c: Value, k: string, w: World, fuel: nat)
    requires k != "FatalError"
    ensures
      var fin := Some(Do(Print(Lit(c))));
      && ExecS(Evaluator, Try(Do(Stmt.Return(Some(Lit(a)))), NoCatch, fin), w, fuel) == Ret(a, Log(w, [Printed(c)]))
      && ExecS(Evaluator, Try(Do(Throw(Lit(Err(k)))), Catch(None, None, Do(Print(Lit(a))), NoCatch), fin), w, fuel) ==
         Normal(Log(w.(pend := None), [Printed(a), Printed(c)]))
  {
    hide ExecBlock, ExecList;
    var fin := Do(Print(Lit(c)));
    LeavesBlock(Stmt.Return(Some(Lit(a))), w, fuel);
    PrintsValue(c, w, fuel);
    var first := Try(Do(Stmt.Return(Some(Lit(a)))), NoCatch, Some(fin));
    assert Finally(Evaluator, Some(fin), Ret(a, w), fuel) == Ret(a, Log(w, [Printed(c)]));
    assert ExecS(Evaluator, first, w, fuel) == ExecTry(Evaluator, first.body, NoCatch, Some(fin), w, fuel);
    LeavesBlock(Throw(Lit(Err(k))), w, fuel);
    var w1 := w.(pend := Some(Err(k)));
    var w2 := w.(pend := None);
    var clause := Catch(None, None, Do(Print(Lit(a))), NoCatch);
    assert Select(clause, Err(k)) == clause;
    PrintsValue(a, w2, fuel);
    CatchRuns(Do(Print(Lit(a))), w1, fuel);
    var w3 := Log(w2, [Printed(a)]);
    PrintsValue(c, w3, fuel);
    assert Log(w3, [Printed(c)]) == Log(w2, [Printed(a), Printed(c)]);
    assert Finally(Evaluator, Some(fin), Normal(w3), fuel) == Normal(Log(w2, [Printed(a), Printed(c)]));
    assert ExecHandler(Evaluator, clause, Some(fin), w1, fuel) == Normal(Log(w2, [Printed(a), Printed(c)]));
    var second := Try(Do(Throw(Lit(Err(k)))), clause, Some(fin));
    assert ExecS(Evaluator, second, w, fuel) == ExecTry(Evaluator, second.body, clause, Some(fin), w, fuel);
  }

  lemma LeavesBlock(s: Stmt, w: World, fuel: nat)
    requires (s.Return? && s.value.Some? && s.value.value.Lit?) || (s.Throw? && s.e.Lit? && s.e.v.Err?)
    ensures ExecBlock(Evaluator, Do(s), w, fuel) ==
              if s.Return? then Ret(s.value.value.v, w) else Thr(w.(pend := Some(s.e.v)))
  {
    var w0 := Open(w, map[]);
    var o := ExecS(Evaluator, s, w0, fuel);
    assert ExecList(Evaluator, Do(s), w0, fuel) == o;
    assert w0.env[..|w.env|] == w.env;
  }

  /** A catch body without a name is run like a block, with no error pending. */
  lemma CatchRuns(b: Stmts, w: World, fuel: nat)
    ensures ShutAll(ExecList(Evaluator, b, Open(w, map[]).(pend := None), fuel)) ==
              ExecBlock(Evaluator, b, w.(pend := None), fuel)
  {
    assert Open(w, map[]).(pend := None) == Open(w.(pend := None), map[]);
  }

  /** `for (x in ..) print x` prints what the iterator holds, in order, and nothing else. */
  lemma {:induction false} EachPrints(x: string, w: World, items: seq<Value>, fuel: nat)
    requires |w.env| > 0
    ensures
      var o := ExecEach(Evaluator, x, Do(Print(Var(x))), w, items, fuel);
      o.Normal? && o.w.trace == w.trace + AllPrinted(items) && o.w.pend == w.pend
    decreases |items|
  {
    hide ExecBlock, AllPrinted;
    if items == [] {
      assert AllPrinted(items) == [];
    } else {
      var w1 := w.(env := Bind(w.env, x, items[0]));
      PrintsX(x, items[0], w1, fuel);
      var w2 := Log(w1, [Printed(items[0])]);
      EachPrints(x, w2, items[1..], fuel);
      assert AllPrinted(items) == [Printed(items[0])] + AllPrinted(items[1..]);
    }
  }

  lemma LoopPrints(x: string, it: Iterable, w: World, fuel: nat)
    requires EvalIterable(Evaluator, it, Open(w, map[]).env).Yields?
    ensures
      var v := EvalIterable(Evaluator, it, Open(w, map[]).env).v;
      var o := ExecS(Evaluator, ForIn(x, it, Do(Print(Var(x)))), w, fuel);
      o.Normal? && o.w.trace == w.trace + Opens(v) + AllPrinted(IterRest(v)) + Close(v)
  {
    hide EvalIterable, ExecEach, AllPrinted, Opens, Close, IterRest;
    var r := EvalIterable(Evaluator, it, Open(w, map[]).env);
    var w1 := Begun(Open(w, map[]), x, r.env, r.v);
    EachPrints(x, w1, IterRest(r.v), fuel);
  }

  /** `while (x < n) { print x; x = x + 1 }` prints the numbers from x up to n, in order. */
  lemma {:induction false} WhileCounts(x: string, i: int, n: nat, w: World, fuel: nat)
    requires |w.env| > 0 && x in w.env[|w.env| - 1] && w.env[|w.env| - 1][x] == Int(i)
    requires fuel > n - i && fuel > 0
    ensures
      var body := Cons(Print(Var(x)), Do(Eval(Assign(x, Bin(Add, Var(x), IntLit(1))))));
      var o := ExecS(Evaluator, While(Bin(Lt, Var(x), IntLit(n)), body), w, fuel);
      o.Normal? && o.w.trace == w.trace + AllPrinted(Counted(i, n))
    decreases fuel
  {
    hide ExecBlock, AllPrinted, Find, Counted;
    var body := Cons(Print(Var(x)), Do(Eval(Assign(x, Bin(Add, Var(x), IntLit(1))))));
    FindLast(w.env, x);
    CountedIs(i, n);
    var c := EvalCond(Evaluator, Bin(Lt, Var(x), IntLit(n)), w.env);
    assert c == Yields(Bool(i < n), w.env) by { CountLess(x, i, n, w.env); }
    if i < n {
      var o := ExecBlock(Evaluator, body, w, fuel);
      OneRound(x, i, w, fuel);
      WhileCounts(x, i + 1, n, o.w, fuel - 1);
      assert AllPrinted(Counted(i, n)) == [Printed(Int(i))] + AllPrinted(Counted(i + 1, n));
    } else {
      assert AllPrinted(Counted(i, n)) == [];
    }
  }

  lemma CountLess(x: string, i: int, n: nat, env: Env)
    requires Find(env, x) == |env| - 1 && |env| > 0 && env[|env| - 1][x] == Int(i)
    ensures EvalCond(Evaluator, Bin(Lt, Var(x), IntLit(n)), env) == Yields(Bool(i < n), env)
  {
    hide Find;
    assert EvalE(Evaluator, Var(x), env) == Yields(Int(i), env);
    assert EvalE(Evaluator, IntLit(n), env) == Yields(Int(n), env);
  }

  function Counted(i: int, n: int): seq<Value> { seq(if i < n then n - i else 0, k => Int(i + k)) }

  lemma CountedIs(i: int, n: int)
    ensures i < n ==> Counted(i, n) == [Int(i)] + Counted(i + 1, n)
    ensures i >= n ==> Counted(i, n) == []
  {}

  lemma FindLast(env: Env, x: string)
    requires |env| > 0 && x in env[|env| - 1]
    ensures Find(env, x) == |env| - 1
  {}

  lemma OneRound(x: string, i: int, w: World, fuel: nat)
    requires |w.env| > 0 && x in w.env[|w.env| - 1] && w.env[|w.env| - 1][x] == Int(i)
    ensures
      var body := Cons(Print(Var(x)), Do(Eval(Assign(x, Bin(Add, Var(x), IntLit(1))))));
      var o := ExecBlock(Evaluator, body, w, fuel);
      && o.Normal? && o.w.trace == w.trace + [Printed(Int(i))] && |o.w.env| == |w.env|
      && x in o.w.env[|w.env| - 1] && o.w.env[|w.env| - 1][x] == Int(i + 1)
  {
    hide Find;
    var w0, k := Open(w, map[]), |w.env| - 1;
    FindUnder(w.env, x);
    var step := Eval(Assign(x, Bin(Add, Var(x), IntLit(1))));
    assert ExecS(Evaluator, Print(Var(x)), w0, fuel) == Normal(Log(w0, [Printed(Int(i))]));
    var w1 := Log(w0, [Printed(Int(i))]);
    assert EvalE(Evaluator, Bin(Add, Var(x), IntLit(1)), w1.env) == Yields(Int(i + 1), w1.env);
    var w2 := w1.(env := Assigned(w1.env, x, Int(i + 1)));
    assert ExecS(Evaluator, step, w1, fuel) == Normal(w2);
    assert ExecList(Evaluator, Nil, w2, fuel) == Normal(w2);
    assert ExecList(Evaluator, Do(step), w1, fuel) == Normal(w2);
  }
}
