/** The part of the Geblang syntax tree that the control-flow compiler is modelled on,
    the run-time values it handles and the operators both back ends share. */
module Syntax {

  datatype Option<+T> = None | Some(value: T)

  /** Run-time values. `Gen` is a generator seen as the values it will still yield,
      with an identity so that closing it can be observed; `Res` is a resource with an
      `__enter`/`__exit` pair; `Iter` is the hidden iterator a for-in loop keeps in a slot. */
  datatype Value =
    | Null
    | Bool(b: bool)
    | Int(n: int)
    | Err(kind: string)
    | List(items: seq<Value>)
    | Gen(id: nat, items: seq<Value>)
    | Res(rid: nat)
    | Iter(gen: Option<nat>, rest: seq<Value>)

  /** What a program does that somebody else can see. */
  datatype Event = Printed(v: Value) | Entered(id: nat) | Exited(id: nat) | Opened(id: nat) | Closed(id: nat)

  datatype UnOp = Not | Neg
  datatype BinOp = Add | Sub | Mul | IntDiv | Mod | Eq | Ne | Lt | Le | Gt | Ge | Xor

  datatype Expr =
    | IntLit(n: nat)
    | Lit(v: Value)                 // any other literal, or a call that yields v
    | Var(x: string)
    | Assign(x: string, e: Expr)
    | Post(x: string, inc: bool)    // x++ and x--
    | Un(uop: UnOp, e: Expr)
    | Bin(op: BinOp, l: Expr, r: Expr)
    | And(l: Expr, r: Expr)
    | Or(l: Expr, r: Expr)
    | Coalesce(l: Expr, r: Expr)
    | Ternary(c: Expr, t: Expr, f: Expr)

  /** A declared type, as far as instruction selection looks at it. */
  datatype Decl = Untyped | IntType | OtherType

  datatype Iterable =
    | Each(e: Expr)
    | Range(start: Option<Expr>, end: Option<Expr>, step: Option<Expr>, exclusive: bool)

  datatype Stmt =
    | Let(x: string, decl: Decl, init: Option<Expr>)
    | Eval(e: Expr)
    | Print(e: Expr)
    | If(c: Expr, thn: Stmts, elifs: Elifs, alt: Option<Stmts>)
    | While(c: Expr, body: Stmts)
    | For(first: Option<Simple>, cond: Option<Expr>, update: Option<Expr>, body: Stmts)
    | ForIn(x: string, iterable: Iterable, body: Stmts)
    | Try(body: Stmts, catches: Catches, fin: Option<Stmts>)
    | With(name: Option<string>, e: Expr, body: Stmts)
    | Throw(e: Expr)
    | Break
    | Continue
    | Return(value: Option<Expr>)

  /** The statement forms a for loop starts with. */
  datatype Simple = SLet(x: string, decl: Decl, init: Option<Expr>) | SEval(e: Expr)

  datatype Stmts = Nil | Cons(head: Stmt, tail: Stmts)
  datatype Elifs = NoElif | Elif(c: Expr, body: Stmts, rest: Elifs)
  datatype Catches = NoCatch | Catch(kind: Option<string>, name: Option<string>, body: Stmts, rest: Catches)

  // ----- operators

  /** Floor division and the remainder that takes the divisor's sign. */
  function FloorDiv(a: int, b: int): int
    requires b != 0
  {
    if b > 0 then a / b else (-a) / (-b)
  }

  function FloorMod(a: int, b: int): int
    requires b != 0
  {
    if b > 0 then a % b else -((-a) % (-b))
  }

  /** A fault of a built-in operation, as the catchable error it is turned into. */
  const FAULT: Value := Err("RuntimeError")
  const MAX_INT64: int := 0x7FFF_FFFF_FFFF_FFFF

  predicate IsCompare(op: BinOp) { op.Eq? || op.Ne? || op.Lt? || op.Le? || op.Gt? || op.Ge? }
  predicate IsIntArith(op: BinOp) { op.Add? || op.Sub? || op.Mul? || op.IntDiv? || op.Mod? }

  function EvalIntBin(op: BinOp, a: int, b: int): Option<Value>
    requires !op.Xor?
  {
    match op
    case Add => Some(Int(a + b))
    case Sub => Some(Int(a - b))
    case Mul => Some(Int(a * b))
    case IntDiv => if b == 0 then None else Some(Int(FloorDiv(a, b)))
    case Mod => if b == 0 then None else Some(Int(FloorMod(a, b)))
    case Eq => Some(Bool(a == b))
    case Ne => Some(Bool(a != b))
    case Lt => Some(Bool(a < b))
    case Le => Some(Bool(a <= b))
    case Gt => Some(Bool(a > b))
    case Ge => Some(Bool(a >= b))
  }

  /** The generic binary operators; None is a fault. */
  function EvalBin(op: BinOp, l: Value, r: Value): Option<Value> {
    match op
    case Eq => Some(Bool(l == r))
    case Ne => Some(Bool(l != r))
    case Xor => if l.Bool? && r.Bool? then Some(Bool(l.b != r.b)) else None
    case _ => if l.Int? && r.Int? then EvalIntBin(op, l.n, r.n) else None
  }

  function EvalUn(op: UnOp, v: Value): Option<Value> {
    match op
    case Not => if v.Bool? then Some(Bool(!v.b)) else None
    case Neg => if v.Int? then Some(Int(-v.n)) else None
  }

  /** The values an integer range visits. */
  function RangeItems(start: int, end: int, step: int, exclusive: bool): seq<Value>
    requires step != 0
    decreases if step > 0 then end - start + 1 else start - end + 1
  {
    if (if step > 0 then (if exclusive then start < end else start <= end)
        else if exclusive then start > end else start >= end)
    then [Int(start)] + RangeItems(start + step, end, step, exclusive)
    else []
  }

  function RangeIter(start: Value, end: Value, step: Value, exclusive: bool): Option<Value> {
    if start.Int? && end.Int? && step.Int? && step.n != 0
    then Some(Iter(None, RangeItems(start.n, end.n, step.n, exclusive)))
    else None
  }

  function EachIter(v: Value): Option<Value> {
    match v
    case List(items) => Some(Iter(None, items))
    case Gen(id, items) => Some(Iter(Some(id), items))
    case _ => None
  }

  function Opens(it: Value): seq<Event> {
    if it.Iter? && it.gen.Some? then [Opened(it.gen.value)] else []
  }

  function Close(it: Value): seq<Event> {
    if it.Iter? && it.gen.Some? then [Closed(it.gen.value)] else []
  }

  function EnterEvents(v: Value): seq<Event> { if v.Res? then [Entered(v.rid)] else [] }
  function ExitEvents(v: Value): seq<Event> { if v.Res? then [Exited(v.rid)] else [] }

  predicate Fatal(err: Value) { err == Err("FatalError") }

  /** What `throw` raises: only errors can be thrown, anything else is a fault. */
  function Thrown(v: Value): Value { if v.Err? then v else FAULT }

  function ErrorParent(kind: string): Option<string> {
    if kind in {"TimeoutError", "TlsError"} then Some("IOError")
    else if kind in {"RuntimeError", "TypeError", "ValueError", "IOError", "ParseError", "MatchError",
                      "ImmutableError", "PermissionError", "AssertionError"} then Some("Error")
    else None
  }

  /** Does a catch clause take this error? No clause takes a fatal one. */
  predicate Matches(kind: Option<string>, err: Value) {
    err.Err? && !Fatal(err) &&
    (kind.None? || kind.value == "" || kind.value == "Error" || err.kind == kind.value ||
     (match ErrorParent(err.kind)
      case None => false
      case Some(p) => p == kind.value || ErrorParent(p) == kind))
  }

  // ----- lexical environments

  /** Scopes, innermost last; frame 0 holds the module's globals. */
  type Frames<T> = seq<map<string, T>>

  /** The innermost frame that binds x, or -1. */
  function Find<T>(fs: Frames<T>, x: string): (i: int)
    ensures -1 <= i < |fs|
    ensures i >= 0 ==> x in fs[i]
    ensures forall j :: i < j < |fs| ==> x !in fs[j]
  {
    if |fs| == 0 then -1
    else if x in fs[|fs| - 1] then |fs| - 1
    else Find(fs[..|fs| - 1], x)
  }

  function Assigned<T>(fs: Frames<T>, x: string, v: T): Frames<T> {
    var i := Find(fs, x);
    if i < 0 then fs else fs[i := fs[i][x := v]]
  }

  /** Bind x in the innermost frame. */
  function Bind<T>(fs: Frames<T>, x: string, v: T): Frames<T> {
    if |fs| == 0 then fs else fs[|fs| - 1 := fs[|fs| - 1][x := v]]
  }

  function Take<T>(s: seq<T>, k: nat): seq<T> { if k <= |s| then s[..k] else s }

  // ----- the names a piece of program reads or assigns

  function Uses(e: Expr): set<string> {
    match e
    case Var(x) => {x}
    case Assign(x, f) => {x} + Uses(f)
    case Post(x, _) => {x}
    case Un(_, f) => Uses(f)
    case Bin(_, l, r) => Uses(l) + Uses(r)
    case And(l, r) => Uses(l) + Uses(r)
    case Or(l, r) => Uses(l) + Uses(r)
    case Coalesce(l, r) => Uses(l) + Uses(r)
    case Ternary(c, t, f) => Uses(c) + Uses(t) + Uses(f)
    case _ => {}
  }

  function UsesOpt(e: Option<Expr>): set<string> { if e.None? then {} else Uses(e.value) }

  function UsesStmt(s: Stmt): set<string> {
    match s
    case Let(_, _, init) => UsesOpt(init)
    case Eval(e) => Uses(e)
    case Print(e) => Uses(e)
    case If(c, t, es, a) => Uses(c) + UsesBlock(t) + UsesElifs(es) + UsesFinally(a)
    case While(c, b) => Uses(c) + UsesBlock(b)
    case For(first, c, u, b) =>
      (match first case None => {} case Some(SLet(_, _, init)) => UsesOpt(init) case Some(SEval(e)) => Uses(e)) +
      UsesOpt(c) + UsesOpt(u) + UsesBlock(b)
    case ForIn(_, Each(e), b) => Uses(e) + UsesBlock(b)
    case ForIn(_, Range(x, y, z, _), b) => UsesOpt(x) + UsesOpt(y) + UsesOpt(z) + UsesBlock(b)
    case Try(b, cs, f) => UsesBlock(b) + UsesCatches(cs) + UsesFinally(f)
    case With(_, e, b) => Uses(e) + UsesBlock(b)
    case Throw(e) => Uses(e)
    case Break => {}
    case Continue => {}
    case Return(e) => UsesOpt(e)
  }

  function UsesFinally(f: Option<Stmts>): set<string> { if f.None? then {} else UsesBlock(f.value) }

  function UsesBlock(b: Stmts): set<string> {
    match b case Nil => {} case Cons(s, rest) => UsesStmt(s) + UsesBlock(rest)
  }

  function UsesElifs(es: Elifs): set<string> {
    match es case NoElif => {} case Elif(c, b, rest) => Uses(c) + UsesBlock(b) + UsesElifs(rest)
  }

  function UsesCatches(cs: Catches): set<string> {
    match cs case NoCatch => {} case Catch(_, _, b, rest) => UsesBlock(b) + UsesCatches(rest)
  }

  // ----- the names it binds

  function Names(name: Option<string>): set<string> { if name.None? then {} else {name.value} }

  function Declares(s: Stmt): set<string> { if s.Let? then {s.x} else {} }

  // ----- sizes, for termination

  function ExprSize(e: Expr): nat {
    match e
    case Assign(_, f) => 1 + ExprSize(f)
    case Un(_, f) => 1 + ExprSize(f)
    case Bin(_, l, r) => 1 + ExprSize(l) + ExprSize(r)
    case And(l, r) => 1 + ExprSize(l) + ExprSize(r)
    case Or(l, r) => 1 + ExprSize(l) + ExprSize(r)
    case Coalesce(l, r) => 1 + ExprSize(l) + ExprSize(r)
    case Ternary(c, t, f) => 1 + ExprSize(c) + ExprSize(t) + ExprSize(f)
    case _ => 0
  }

  function Size(s: Stmt): nat
    ensures Size(s) >= 1
  {
    match s
    case If(_, t, es, a) => 1 + BlockSize(t) + ElifsSize(es) + (if a.Some? then BlockSize(a.value) else 0)
    case While(_, b) => 1 + BlockSize(b)
    case For(_, _, _, b) => 1 + BlockSize(b)
    case ForIn(_, _, b) => 3 + BlockSize(b)
    case Try(b, cs, f) => 3 + BlockSize(b) + CatchesSize(cs) + (if f.Some? then BlockSize(f.value) else 0)
    case With(_, _, b) => 3 + BlockSize(b)
    case _ => 1
  }

  function BlockSize(b: Stmts): nat
    ensures BlockSize(b) >= 1
  {
    match b case Nil => 1 case Cons(s, rest) => 1 + Size(s) + BlockSize(rest)
  }

  function ElifsSize(es: Elifs): nat {
    match es case NoElif => 0 case Elif(_, b, rest) => 1 + BlockSize(b) + ElifsSize(rest)
  }

  function CatchesSize(cs: Catches): nat {
    match cs case NoCatch => 0 case Catch(_, _, b, rest) => 1 + BlockSize(b) + CatchesSize(rest)
  }
}
