/** What the compiler emits for an expression: instruction selection, constant folding and
    the fused forms of conditions and self-updates. */
module ExprGen {
  import opened Syntax
  import opened Machine
  import opened Folding

  /** A name's home and whether its declared type is int. */
  datatype Binding = Binding(ref: Ref, isInt: bool)
  type Scopes = Frames<Binding>

  function Resolve(sc: Scopes, x: string): Option<Binding> {
    var i := Find(sc, x);
    if i < 0 then None else Some(sc[i][x])
  }

  function RefOf(sc: Scopes, x: string): Ref {
    match Resolve(sc, x) case None => Local(0) case Some(b) => b.ref
  }

  predicate IsIntVar(sc: Scopes, x: string) {
    var b := Resolve(sc, x);
    b.Some? && b.value.isInt
  }

  /** staticIntExpr: the expression is an int whatever the run does. */
  predicate StaticInt(e: Expr, sc: Scopes) {
    match e
    case IntLit(_) => true
    case Var(x) => IsIntVar(sc, x)
    case Bin(op, l, r) => IsIntArith(op) && StaticInt(l, sc) && StaticInt(r, sc)
    case Un(op, f) => op.Neg? && StaticInt(f, sc)
    case _ => false
  }

  /** The type an untyped declaration takes from its initializer, when that is int. */
  predicate InitIsInt(e: Expr, sc: Scopes) {
    match e
    case IntLit(_) => true
    case Var(x) => IsIntVar(sc, x)
    case _ => false
  }

  /** foldConstantBinary on two literals. */
  function Fold(op: BinOp, l: Expr, r: Expr): Option<Value> {
    if l.IntLit? && l.n <= MAX_INT64 && r.IntLit? && r.n <= MAX_INT64 then FoldIntInt(op, l.n, r.n)
    else if l.Lit? && l.v.Bool? && r.Lit? && r.v.Bool? then
      match op
      case Eq => Some(Bool(l.v.b == r.v.b))
      case Ne => Some(Bool(l.v.b != r.v.b))
      case _ => None
    else None
  }

  /** `x = x + y` and `x = x - y` on int variables and literals, as one opcode. */
  function SelfForm(x: string, e: Expr, sc: Scopes): Option<Rhs> {
    if e.Bin? && (e.op.Add? || e.op.Sub?) && e.l == Var(x) then
      if e.r.Var? && IsIntVar(sc, e.r.x) then Some(Slot(RefOf(sc, e.r.x)))
      else if e.r.IntLit? && e.r.n <= MAX_INT64 then Some(Imm(e.r.n))
      else None
    else None
  }

  predicate IsZero(e: Expr) { e.IntLit? && e.n == 0 }

  /** `local % c == 0` and its variants: the slot, the divisor and when to jump. */
  function FuseMod(c: Expr, sc: Scopes): Option<(nat, int, bool)> {
    if c.Bin? && (c.op.Eq? || c.op.Ne?) && (IsZero(c.r) || IsZero(c.l)) then
      var m := if IsZero(c.r) then c.l else c.r;
      if m.Bin? && m.op.Mod? && m.l.Var? && IsIntVar(sc, m.l.x) && RefOf(sc, m.l.x).Local? &&
         m.r.IntLit? && 0 < m.r.n <= MAX_INT64
      then Some((RefOf(sc, m.l.x).slot, m.r.n, c.op.Ne?))
      else None
    else None
  }

  predicate FusesCompare(c: Expr, sc: Scopes) {
    c.Bin? && IsCompare(c.op) && StaticInt(c.l, sc) && StaticInt(c.r, sc)
  }

  /** The opcodes of a binary operator once both operands are on the stack. */
  function OpCode(op: BinOp, bothInt: bool): seq<Instr> {
    match op
    case Ne => [if bothInt then IntOp(Eq) else Generic(Eq), Unary(Not)]
    case IntDiv => [Generic(IntDiv)]
    case Xor => [Generic(Xor)]
    case _ => [if bothInt then IntOp(op) else Generic(op)]
  }

  /** Every name the expression uses is known; the compiler reports an error otherwise. */
  predicate OkE(e: Expr, sc: Scopes) {
    match e
    case Var(x) => Resolve(sc, x).Some?
    case Assign(x, f) => Resolve(sc, x).Some? && OkE(f, sc)
    case Post(x, _) => Resolve(sc, x).Some?
    case Un(_, f) => OkE(f, sc)
    case Bin(_, l, r) => OkE(l, sc) && OkE(r, sc)
    case And(l, r) => OkE(l, sc) && OkE(r, sc)
    case Or(l, r) => OkE(l, sc) && OkE(r, sc)
    case Coalesce(l, r) => OkE(l, sc) && OkE(r, sc)
    case Ternary(c, t, f) => OkE(c, sc) && OkE(t, sc) && OkE(f, sc)
    case _ => true
  }

  function LenE(e: Expr, sc: Scopes): (n: nat)
    ensures n >= 1
    decreases e, 0
  {
    match e
    case Assign(x, f) => if IsIntVar(sc, x) && SelfForm(x, f, sc).Some? then 1 else LenE(f, sc) + 1
    case Post(x, _) => if IsIntVar(sc, x) then 1 else 6
    case Un(_, f) => LenE(f, sc) + 1
    case Bin(op, l, r) =>
      if Fold(op, l, r).Some? then 1
      else LenE(l, sc) + LenE(r, sc) + (if op.Ne? then 2 else 1)
    case And(l, r) => LenE(l, sc) + LenE(r, sc) + 5
    case Or(l, r) => LenE(l, sc) + LenE(r, sc) + 7
    case Coalesce(l, r) => LenE(l, sc) + 1 + LenE(r, sc)
    case Ternary(c, t, f) => LenCond(c, sc) + LenE(t, sc) + 1 + LenE(f, sc)
    case _ => 1
  }

  function LenCond(c: Expr, sc: Scopes): (n: nat)
    ensures n >= 1
    decreases c, 1
  {
    if FuseMod(c, sc).Some? then 1
    else if FusesCompare(c, sc) then LenE(c.l, sc) + LenE(c.r, sc) + 1
    else LenE(c, sc) + 1
  }

  /** The end of `&&` and `||`: the last operand is tested and true or false is pushed. */
  function Test(no: int): (code: seq<Instr>)
    ensures |code| == 4
  {
    [JumpIfFalse(no), Const(Bool(true)), Jump(no + 1), Const(Bool(false))]
  }

  function OrSkip(rpc: int, end: int): (code: seq<Instr>)
    ensures |code| == 3
  {
    [JumpIfFalse(rpc), Const(Bool(true)), Jump(end)]
  }

  function StepAny(ref: Ref, inc: bool): (code: seq<Instr>)
    ensures |code| == 6
  {
    [Get(ref), Dup, Const(Int(1)), Generic(if inc then Add else Sub), Set(ref), Pop]
  }

  /** The code of e when it stands at pc; it leaves exactly one value. */
  function CodeE(e: Expr, sc: Scopes, pc: int): (code: seq<Instr>)
    ensures |code| == LenE(e, sc)
    decreases e, 1
  {
    match e
    case IntLit(n) => [Const(Int(n))]
    case Lit(v) => [Const(v)]
    case Var(x) => [Get(RefOf(sc, x))]
    case Assign(x, f) =>
      var self := SelfForm(x, f, sc);
      if IsIntVar(sc, x) && self.Some? then [SelfArith(f.op.Sub?, RefOf(sc, x), self.value)]
      else CodeE(f, sc, pc) + [Set(RefOf(sc, x))]
    case Post(x, inc) =>
      var ref := RefOf(sc, x);
      if IsIntVar(sc, x) then [Step(if inc then 1 else -1, ref)]
      else StepAny(ref, inc)
    case Un(op, f) => CodeE(f, sc, pc) + [Unary(op)]
    case Bin(op, l, r) =>
      var folded := Fold(op, l, r);
      if folded.Some? then [Folded(folded.value)]
      else CodeE(l, sc, pc) + CodeE(r, sc, pc + LenE(l, sc)) + OpCode(op, StaticInt(l, sc) && StaticInt(r, sc))
    case And(_, _) => CodeLogic(e, sc, pc)
    case Or(_, _) => CodeLogic(e, sc, pc)
    case Coalesce(_, _) => CodeLogic(e, sc, pc)
    case Ternary(_, _, _) => CodeLogic(e, sc, pc)
  }

  /** The expressions with jumps in them. */
  function CodeLogic(e: Expr, sc: Scopes, pc: int): (code: seq<Instr>)
    requires e.And? || e.Or? || e.Coalesce? || e.Ternary?
    ensures |code| == LenE(e, sc)
    decreases e, 0
  {
    match e
    case And(l, r) =>
      var rpc := pc + LenE(l, sc) + 1;
      var no := rpc + LenE(r, sc) + 3;
      CodeE(l, sc, pc) + [JumpIfFalse(no)] + CodeE(r, sc, rpc) + Test(no)
    case Or(l, r) =>
      var rpc := pc + LenE(l, sc) + 3;
      var no := rpc + LenE(r, sc) + 3;
      CodeE(l, sc, pc) + OrSkip(rpc, no + 1) + CodeE(r, sc, rpc) + Test(no)
    case Coalesce(l, r) =>
      var rpc := pc + LenE(l, sc) + 1;
      CodeE(l, sc, pc) + [NullCoalesce(rpc + LenE(r, sc))] + CodeE(r, sc, rpc)
    case Ternary(c, t, f) =>
      var tpc := pc + LenCond(c, sc);
      var fpc := tpc + LenE(t, sc) + 1;
      CodeCond(c, sc, pc, fpc) + CodeE(t, sc, tpc) + [Jump(fpc + LenE(f, sc))] + CodeE(f, sc, fpc)
  }

  /** A condition and the jump to `no` that is taken when it is false. */
  function CodeCond(c: Expr, sc: Scopes, pc: int, no: int): (code: seq<Instr>)
    ensures |code| == LenCond(c, sc)
    decreases c, 2
  {
    var m := FuseMod(c, sc);
    if m.Some? then [JumpMod(m.value.2, no, m.value.0, m.value.1)]
    else if FusesCompare(c, sc)
    then CodeE(c.l, sc, pc) + CodeE(c.r, sc, pc + LenE(c.l, sc)) + [JumpUnless(c.op, no)]
    else CodeE(c, sc, pc) + [JumpIfFalse(no)]
  }
}
