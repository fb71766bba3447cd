/** The stack machine: the opcodes the control-flow compiler emits and what each one does to
    the machine. The local and the global form of an opcode are one constructor here, and
    the `Ref` it carries says which of the two it is. */
module Machine {
  import opened Syntax

  datatype Ref = Local(slot: nat) | Global(index: nat)

  /** The right operand of a fused self-update. */
  datatype Rhs = Slot(ref: Ref) | Imm(n: int)

  datatype Instr =
    | Const(v: Value)
    | Folded(v: Value)                        // OpConstant of what constant folding left
    | Get(ref: Ref) | Set(ref: Ref) | Define(ref: Ref)
    | Pop | Dup
    | Generic(op: BinOp)                      // OpAdd, OpSub, ..., OpEqual, OpLess, ...
    | IntOp(op: BinOp)                        // OpAddInt, ..., OpEqualInt, OpLessInt, ...
    | Unary(uop: UnOp)
    | SelfArith(sub: bool, dst: Ref, rhs: Rhs) // OpAddLocalIntLocal and its eleven siblings
    | Step(delta: int, ref: Ref)              // OpIncLocalInt, OpDecLocalInt and the global forms
    | Jump(target: int)
    | JumpIfFalse(target: int)
    | JumpUnless(cmp: BinOp, target: int)     // OpJumpIfNotLessInt, ..., OpJumpIfEqualInt
    | JumpMod(onZero: bool, target: int, slot: nat, divisor: int)
    | NullCoalesce(target: int)
    | Println
    | Return
    | IterInit
    | ForRangeIter(exclusive: bool)
    | IterNext(target: int, iter: nat, val: nat)
    | IterClose(iter: nat)
    | PushHandler(target: int)
    | PopHandler
    | Raise
    | CatchClause(target: int, kind: Option<string>, bind: Option<nat>)
    | Rethrow
    | WithEnter
    | WithExit

  datatype Handler = Handler(target: int, depth: nat)

  datatype State = State(
    pc: int, stack: seq<Value>, mem: map<Ref, Value>,
    handlers: seq<Handler>, pend: Option<Value>, trace: seq<Event>)

  /** A machine that runs, that returned a value, that stopped on an uncaught error, or
      whose code is broken (underflow, a jump out of the code, an undefined slot). */
  datatype Config = Running(st: State) | Returned(v: Value, st: State) | Uncaught(st: State) | Stuck

  /** Raise the pending error: resume at the innermost handler with its operand stack. */
  function Unwind(st: State): Config {
    var h := |st.handlers|;
    if h == 0 then Uncaught(st)
    else
      var top := st.handlers[h - 1];
      Running(st.(pc := top.target, handlers := st.handlers[..h - 1], stack := Take(st.stack, top.depth)))
  }

  function RaiseErr(st: State, err: Value): Config { Unwind(st.(pend := Some(err))) }

  /** Replace the top k operands by v and go on. */
  function Push(st: State, k: nat, v: Value): Config
    requires k <= |st.stack|
  {
    Running(st.(pc := st.pc + 1, stack := st.stack[..|st.stack| - k] + [v]))
  }

  function Drop(st: State, k: nat, pc: int): Config
    requires k <= |st.stack|
  {
    Running(st.(pc := pc, stack := st.stack[..|st.stack| - k]))
  }

  /** Replace the top k operands by the result, or raise a fault. */
  function PushResult(st: State, k: nat, r: Option<Value>): Config
    requires k <= |st.stack|
  {
    match r
    case None => RaiseErr(st, FAULT)
    case Some(v) => Push(st, k, v)
  }

  function Next(st: State): Config { Running(st.(pc := st.pc + 1)) }

  function Store(st: State, ref: Ref, v: Value): State { st.(mem := st.mem[ref := v]) }

  /** The value a fused self-update computes; only ints have one. */
  function SelfResult(sub: bool, a: Value, b: Value): Option<Value> {
    if a.Int? && b.Int? then Some(Int(if sub then a.n - b.n else a.n + b.n)) else None
  }

  function Exec(i: Instr, st: State): Config {
    var n := |st.stack|;
    match i
    case Const(v) => Push(st, 0, v)
    case Folded(v) => Push(st, 0, v)
    case Get(ref) => if ref in st.mem then Push(st, 0, st.mem[ref]) else Stuck
    case Set(ref) => if n < 1 then Stuck else Next(Store(st, ref, st.stack[n - 1]))
    case Define(ref) => if n < 1 then Stuck else Drop(Store(st, ref, st.stack[n - 1]), 1, st.pc + 1)
    case Pop => if n < 1 then Stuck else Drop(st, 1, st.pc + 1)
    case Dup => if n < 1 then Stuck else Push(st, 0, st.stack[n - 1])
    case Generic(op) => if n < 2 then Stuck else PushResult(st, 2, EvalBin(op, st.stack[n - 2], st.stack[n - 1]))
    case IntOp(op) =>
      // The fast path for two ints; anything else falls back to the generic operator.
      if n < 2 then Stuck
      else if st.stack[n - 2].Int? && st.stack[n - 1].Int? && !op.Xor?
      then PushResult(st, 2, EvalIntBin(op, st.stack[n - 2].n, st.stack[n - 1].n))
      else PushResult(st, 2, EvalBin(op, st.stack[n - 2], st.stack[n - 1]))
    case Unary(op) => if n < 1 then Stuck else PushResult(st, 1, EvalUn(op, st.stack[n - 1]))
    case SelfArith(sub, dst, rhs) =>
      if dst !in st.mem || (rhs.Slot? && rhs.ref !in st.mem) then Stuck
      else
        (match SelfResult(sub, st.mem[dst], if rhs.Slot? then st.mem[rhs.ref] else Int(rhs.n))
         case None => RaiseErr(st, FAULT)
         case Some(v) => Push(Store(st, dst, v), 0, v))
    case Step(delta, ref) =>
      if ref !in st.mem then Stuck
      else if !st.mem[ref].Int? then RaiseErr(st, FAULT)
      else Push(Store(st, ref, Int(st.mem[ref].n + delta)), 0, st.mem[ref])
    case Jump(t) => Running(st.(pc := t))
    case JumpIfFalse(t) =>
      if n < 1 then Stuck
      else if !st.stack[n - 1].Bool? then RaiseErr(st, FAULT)
      else Drop(st, 1, if st.stack[n - 1].b then st.pc + 1 else t)
    case JumpUnless(cmp, t) =>
      if n < 2 then Stuck
      else
        (match EvalBin(cmp, st.stack[n - 2], st.stack[n - 1])
         case None => RaiseErr(st, FAULT)
         case Some(v) => if v.Bool? then Drop(st, 2, if v.b then st.pc + 1 else t) else RaiseErr(st, FAULT))
    case JumpMod(onZero, t, slot, divisor) =>
      if Local(slot) !in st.mem then Stuck
      else if !st.mem[Local(slot)].Int? || divisor == 0 then RaiseErr(st, FAULT)
      else Drop(st, 0, if (FloorMod(st.mem[Local(slot)].n, divisor) == 0) == onZero then t else st.pc + 1)
    case NullCoalesce(t) =>
      if n < 1 then Stuck
      else if st.stack[n - 1] != Null then Drop(st, 0, t) else Drop(st, 1, st.pc + 1)
    case Println => if n < 1 then Stuck else Drop(st.(trace := st.trace + [Printed(st.stack[n - 1])]), 1, st.pc + 1)
    case Return => if n < 1 then Stuck else Returned(st.stack[n - 1], st.(stack := st.stack[..n - 1]))
    case IterInit =>
      if n < 1 then Stuck
      else
        (match EachIter(st.stack[n - 1])
         case None => RaiseErr(st, FAULT)
         case Some(it) => Push(st.(trace := st.trace + Opens(it)), 1, it))
    case ForRangeIter(ex) =>
      if n < 3 then Stuck
      else PushResult(st, 3, RangeIter(st.stack[n - 3], st.stack[n - 2], st.stack[n - 1], ex))
    case IterNext(t, iter, val) =>
      if Local(iter) !in st.mem || !st.mem[Local(iter)].Iter? then Stuck
      else
        var it := st.mem[Local(iter)];
        if it.rest == [] then Drop(st, 0, t)
        else Next(Store(Store(st, Local(iter), it.(rest := it.rest[1..])), Local(val), it.rest[0]))
    case IterClose(iter) =>
      if Local(iter) !in st.mem then Stuck
      else Next(st.(trace := st.trace + Close(st.mem[Local(iter)])))
    case PushHandler(t) => Next(st.(handlers := st.handlers + [Handler(t, n)]))
    case PopHandler =>
      // The virtual machine raises a fault here; as compiled code never comes to that, it
      // counts as broken code.
      if |st.handlers| == 0 then Stuck
      else Next(st.(handlers := st.handlers[..|st.handlers| - 1]))
    case Raise => if n < 1 then Stuck else RaiseErr(st.(stack := st.stack[..n - 1]), Thrown(st.stack[n - 1]))
    case CatchClause(t, kind, slot) =>
      if st.pend.None? then Next(st)
      else if !Matches(kind, st.pend.value) then Drop(st, 0, t)
      else
        var caught := if slot.Some? then Store(st, Local(slot.value), st.pend.value) else st;
        Next(caught.(pend := None))
    case Rethrow => if st.pend.None? then Next(st) else Unwind(st)
    case WithEnter => if n < 1 then Stuck else Next(st.(trace := st.trace + EnterEvents(st.stack[n - 1])))
    case WithExit => if n < 1 then Stuck else Drop(st.(trace := st.trace + ExitEvents(st.stack[n - 1])), 1, st.pc + 1)
  }

  function Step1(code: seq<Instr>, st: State): Config {
    if 0 <= st.pc < |code| then Exec(code[st.pc], st) else Stuck
  }

  /** The configuration after n steps; a machine that has stopped stays as it is. */
  function Run(code: seq<Instr>, c: Config, n: nat): Config
    decreases n
  {
    if n == 0 || !c.Running? then c else Run(code, Step1(code, c.st), n - 1)
  }

  lemma {:induction false} RunTrans(code: seq<Instr>, c: Config, m: nat, n: nat)
    ensures Run(code, c, m + n) == Run(code, Run(code, c, m), n)
    decreases m
  {
    hide Step1;
    if m > 0 && c.Running? {
      RunTrans(code, Step1(code, c.st), m - 1, n);
    } else if !c.Running? {
      assert Run(code, c, m) == c;
    }
  }

  /** A machine that has stopped has the same outcome however long it is watched. */
  lemma Halted(code: seq<Instr>, c: Config, m: nat, n: nat)
    requires !Run(code, c, m).Running? && m <= n
    ensures Run(code, c, n) == Run(code, c, m)
  {
    RunTrans(code, c, m, n - m);
  }

  /** Chain two runs. */
  lemma Chain(code: seq<Instr>, c: Config, m: nat, d: Config, n: nat, e: Config)
    requires Run(code, c, m) == d && Run(code, d, n) == e
    ensures Run(code, c, m + n) == e
  {
    RunTrans(code, c, m, n);
  }

  /** `frag` stands in `code` from position pc on. */
  ghost predicate At(code: seq<Instr>, pc: int, frag: seq<Instr>) {
    0 <= pc && pc + |frag| <= |code| && code[pc..pc + |frag|] == frag
  }

  lemma AtSplit(code: seq<Instr>, pc: int, a: seq<Instr>, b: seq<Instr>)
    requires At(code, pc, a + b)
    ensures At(code, pc, a) && At(code, pc + |a|, b)
  {
    assert code[pc..pc + |a|] == (a + b)[..|a|] == a;
    assert code[pc + |a|..pc + |a| + |b|] == (a + b)[|a|..] == b;
  }

  /** Execute the instruction that stands at the current position. */
  lemma One(code: seq<Instr>, st: State, i: Instr)
    requires At(code, st.pc, [i])
    ensures Run(code, Running(st), 1) == Exec(i, st)
  {
    assert code[st.pc] == code[st.pc..st.pc + 1][0];
    assert Run(code, Running(st), 1) == Run(code, Step1(code, st), 0);
  }
}
