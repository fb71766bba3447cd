/** The machine with its two representations of ints. Small ints are kept in the slot itself,
    others are boxed, and so are some that would fit: what constant folding left, and what
    arithmetic with a boxed operand gives. All opcodes look through the box but one, the fused
    branch on a remainder, which faults on a boxed local. */
module Boxes {
  import opened Syntax
  import opened Machine
  import opened Folding

  /** Which operands and which slots are boxed; for the hidden iterator of a loop over a
      range, whether its values are. */
  datatype Marks = Marks(stack: seq<bool>, mem: set<Ref>)

  predicate Big(v: Value) { v.Int? && !Int64(v.n) }

  function Note(mem: set<Ref>, ref: Ref, boxed: bool): set<Ref> { if boxed then mem + {ref} else mem - {ref} }

  /** The mark of the k-th operand from the top. */
  function Top(m: Marks, k: nat): bool { k < |m.stack| && m.stack[|m.stack| - 1 - k] }

  function Cut(s: seq<bool>, k: nat): seq<bool> { if k <= |s| then s[..|s| - k] else [] }

  function Pushed(m: Marks, k: nat, boxed: bool): Marks { m.(stack := Cut(m.stack, k) + [boxed]) }

  /** The result of an operator is boxed when an operand was, or when it has to be. */
  predicate Result(t: State, operand: bool) {
    |t.stack| > 0 && var v := t.stack[|t.stack| - 1]; v.Int? && (operand || !Int64(v.n))
  }

  predicate Bounds(st: State) {
    var n := |st.stack|;
    n >= 3 && (Big(st.stack[n - 3]) || Big(st.stack[n - 2]) || Big(st.stack[n - 1]))
  }

  /** The marks after an instruction that has gone on, without an error, from st to t. */
  function Marked(i: Instr, st: State, m: Marks, t: State): Marks {
    match i
    case Const(v) => Pushed(m, 0, Big(v))
    case Folded(v) => Pushed(m, 0, v.Int?)
    case Get(ref) => Pushed(m, 0, ref in m.mem)
    case Set(ref) => m.(mem := Note(m.mem, ref, Top(m, 0)))
    case Define(ref) => Marks(Cut(m.stack, 1), Note(m.mem, ref, Top(m, 0)))
    case Dup => Pushed(m, 0, Top(m, 0))
    case Generic(_) => Pushed(m, 2, Result(t, Top(m, 0) || Top(m, 1)))
    case IntOp(_) => Pushed(m, 2, Result(t, Top(m, 0) || Top(m, 1)))
    case Unary(_) => Pushed(m, 1, Result(t, Top(m, 0)))
    case SelfArith(_, dst, _) => Marks(m.stack + [Result(t, false)], Note(m.mem, dst, Result(t, false)))
    case Step(_, ref) =>
      var next := ref in m.mem || (ref in t.mem && Big(t.mem[ref]));
      Marks(m.stack + [ref in m.mem], Note(m.mem, ref, next))
    case IterInit => Pushed(m, 1, false)
    case ForRangeIter(_) => Pushed(m, 3, Bounds(st))
    case IterNext(_, iter, val) =>
      if t.mem == st.mem then m
      else
        var v := if Local(val) in t.mem then t.mem[Local(val)] else Null;
        m.(mem := Note(m.mem, Local(val), v.Int? && (Local(iter) in m.mem || !Int64(v.n))))
    case CatchClause(_, _, bind) =>
      if bind.Some? && st.pend.Some? && t.pend.None? then m.(mem := Note(m.mem, Local(bind.value), false)) else m
    case _ => m.(stack := Take(m.stack, |t.stack|))
  }

  /** An error that is handled cuts the operands. */
  function MarksAfter(i: Instr, st: State, m: Marks, t: State): Marks {
    if |t.handlers| < |st.handlers| && !i.PopHandler? then m.(stack := Take(m.stack, |t.stack|))
    else Marked(i, st, m, t)
  }

  datatype Boxed = Going(st: State, m: Marks) | Over(c: Config)

  /** The fused branch finds its local boxed. */
  predicate Faults(i: Instr, st: State, m: Marks) {
    i.JumpMod? && i.divisor != 0 && Local(i.slot) in st.mem && st.mem[Local(i.slot)].Int? && Local(i.slot) in m.mem
  }

  function ExecBoxed(i: Instr, st: State, m: Marks): Boxed {
    var c := if Faults(i, st, m) then RaiseErr(st, FAULT) else Exec(i, st);
    if c.Running? then Going(c.st, MarksAfter(i, st, m, c.st)) else Over(c)
  }

  function StepBoxed(code: seq<Instr>, b: Boxed): Boxed {
    match b
    case Over(_) => b
    case Going(st, m) => if 0 <= st.pc < |code| then ExecBoxed(code[st.pc], st, m) else Over(Stuck)
  }

  /** n steps of the machine. */
  function RunBoxed(code: seq<Instr>, b: Boxed, n: nat): (r: Boxed)
    ensures b.Going? && r.Over? ==> !r.c.Running?
    decreases n
  {
    if n == 0 then b else StepBoxed(code, RunBoxed(code, b, n - 1))
  }

  /** The configuration without its boxes. */
  function Erase(b: Boxed): Config {
    match b case Going(st, _) => Running(st) case Over(c) => c
  }

  predicate TripsNext(code: seq<Instr>, b: Boxed) {
    b.Going? && 0 <= b.st.pc < |code| && Faults(code[b.st.pc], b.st, b.m)
  }

  /** The step after the k-th is the fused branch on a boxed local. */
  predicate Trips(code: seq<Instr>, st: State, m: Marks, k: nat) { TripsNext(code, RunBoxed(code, Going(st, m), k)) }

  ghost predicate Smooth(code: seq<Instr>, st: State, m: Marks) { forall k: nat :: !Trips(code, st, m, k) }

  // ----- what is boxed, instruction by instruction

  /** Every operand has its mark. */
  ghost predicate Even(st: State, m: Marks) { |m.stack| == |st.stack| }

  /** The instruction goes on, and not in a handler. */
  ghost predicate GoesOn(i: Instr, st: State, t: State) { Exec(i, st) == Running(t) && t.handlers == st.handlers }

  predicate Wide(v: Value) { v.Int? && (v.n < -0x8000_0000_0000_0000 || v.n >= 0x8000_0000_0000_0000) }

  /** A literal is boxed when it is too wide, an int that was folded always. */
  lemma LiteralBoxed(i: Instr, st: State, m: Marks, t: State)
    requires (i.Const? || i.Folded?) && Even(st, m) && GoesOn(i, st, t)
    ensures MarksAfter(i, st, m, t) == Marks(m.stack + [if i.Const? then Wide(i.v) else i.v.Int?], m.mem)
  {}

  /** The result of an operator is boxed when it is an int and an operand was, or it is too wide. */
  lemma OperatorBoxed(i: Instr, st: State, m: Marks, t: State)
    requires (i.Generic? || i.IntOp? || i.Unary?) && Even(st, m) && GoesOn(i, st, t)
    ensures
      var k, n := if i.Unary? then 1 else 2, |st.stack|;
      && k <= n && |t.stack| == n - k + 1
      && var v, operand := t.stack[n - k], m.stack[n - 1] || (k == 2 && m.stack[n - 2]);
      MarksAfter(i, st, m, t) == Marks(m.stack[..n - k] + [v.Int? && (operand || Wide(v))], m.mem)
  {}

  /** A fused update leaves a box when its result is too wide, whatever it found. */
  lemma UpdateBoxed(i: Instr, st: State, m: Marks, t: State)
    requires i.SelfArith? && Even(st, m) && GoesOn(i, st, t)
    ensures
      var after := MarksAfter(i, st, m, t);
      && i.dst in t.mem && after.stack == m.stack + [Wide(t.mem[i.dst])]
      && (i.dst in after.mem <==> Wide(t.mem[i.dst])) && after.mem - {i.dst} == m.mem - {i.dst}
  {}

  /** x++ and x-- leave a box where there was one, or when the result is too wide. */
  lemma StepBoxes(i: Instr, st: State, m: Marks, t: State)
    requires i.Step? && Even(st, m) && GoesOn(i, st, t)
    ensures
      var after := MarksAfter(i, st, m, t);
      && i.ref in t.mem && after.stack == m.stack + [i.ref in m.mem]
      && (i.ref in after.mem <==> i.ref in m.mem || Wide(t.mem[i.ref])) && after.mem - {i.ref} == m.mem - {i.ref}
  {}

  /** Boxes are moved and copied with their values. */
  lemma MovesBoxes(i: Instr, st: State, m: Marks, t: State)
    requires (i.Get? || i.Set? || i.Define? || i.Dup?) && Even(st, m) && GoesOn(i, st, t)
    ensures
      var after, n := MarksAfter(i, st, m, t), |st.stack|;
      match i
      case Get(ref) => after == Marks(m.stack + [ref in m.mem], m.mem)
      case Dup => after == Marks(m.stack + [m.stack[n - 1]], m.mem)
      case Set(ref) =>
        after.stack == m.stack && (ref in after.mem <==> m.stack[n - 1]) && after.mem - {ref} == m.mem - {ref}
      case Define(ref) =>
        after.stack == m.stack[..n - 1] && (ref in after.mem <==> m.stack[n - 1]) && after.mem - {ref} == m.mem - {ref}
  {}

  /** The values of a range are boxed when a bound of it is too wide, or they are. */
  lemma RangeBoxed(i: Instr, st: State, m: Marks, t: State)
    requires (i.ForRangeIter? || i.IterNext?) && Even(st, m) && GoesOn(i, st, t)
    ensures
      var after, n := MarksAfter(i, st, m, t), |st.stack|;
      match i
      case ForRangeIter(_) =>
        && n >= 3
        && var wide := Wide(st.stack[n - 3]) || Wide(st.stack[n - 2]) || Wide(st.stack[n - 1]);
        after == Marks(m.stack[..n - 3] + [wide], m.mem)
      case IterNext(_, iter, val) =>
        && after.stack == m.stack && after.mem - {Local(val)} == m.mem - {Local(val)}
        && (t.mem != st.mem ==>
              Local(val) in t.mem
              && (Local(val) in after.mem <==>
                  t.mem[Local(val)].Int? && (Local(iter) in m.mem || Wide(t.mem[Local(val)]))))
  {}

  // ----- erasing the boxes

  /** Run, with its last step apart. */
  lemma {:induction false} RunLast(code: seq<Instr>, c: Config, n: nat)
    requires n > 0
    ensures
      var d := Run(code, c, n - 1);
      Run(code, c, n) == if d.Running? then Step1(code, d.st) else d
  {
    RunTrans(code, c, n - 1, 1);
    var d := Run(code, c, n - 1);
    if d.Running? { assert Run(code, d, 1) == Run(code, Step1(code, d.st), 0); }
  }

  lemma StepErased(code: seq<Instr>, b: Boxed)
    requires b.Going? && !TripsNext(code, b)
    ensures Erase(StepBoxed(code, b)) == Step1(code, b.st)
  {
    hide Exec, MarksAfter;
  }

  lemma StepStrays(code: seq<Instr>, b: Boxed)
    requires TripsNext(code, b)
    ensures Erase(StepBoxed(code, b)) == RaiseErr(b.st, FAULT)
    ensures Step1(code, b.st).Running? && RaiseErr(b.st, FAULT) != Step1(code, b.st)
  {
    hide MarksAfter;
    var c := Step1(code, b.st);
    assert c.Running? && c.st.handlers == b.st.handlers;
    var h := |b.st.handlers|;
    var r := RaiseErr(b.st, FAULT);
    if r.Running? { assert |r.st.handlers| == h - 1; }
  }

  lemma {:induction false} Erased(code: seq<Instr>, st: State, m: Marks, n: nat)
    requires forall k: nat :: k < n ==> !Trips(code, st, m, k)
    ensures Erase(RunBoxed(code, Going(st, m), n)) == Run(code, Running(st), n)
    decreases n
  {
    hide Step1, StepBoxed, Run, TripsNext;
    if n == 0 {
      RunNone(code, st);
    } else {
      Erased(code, st, m, n - 1);
      assert !Trips(code, st, m, n - 1);
      RunLast(code, Running(st), n);
      var b := RunBoxed(code, Going(st, m), n - 1);
      if b.Going? { StepErased(code, b); } else { StepOver(code, b); }
    }
  }

  lemma StepOver(code: seq<Instr>, b: Boxed)
    requires b.Over?
    ensures StepBoxed(code, b) == b
  {}

  lemma RunNone(code: seq<Instr>, st: State)
    ensures Run(code, Running(st), 0) == Running(st)
  {}

  /** At the first such branch the machine leaves the course it would have taken. */
  lemma Strays(code: seq<Instr>, st: State, m: Marks, k: nat)
    requires Trips(code, st, m, k) && forall j: nat :: j < k ==> !Trips(code, st, m, j)
    ensures Erase(RunBoxed(code, Going(st, m), k + 1)) != Run(code, Running(st), k + 1)
  {
    hide Step1, StepBoxed, Run, Faults;
    var b := RunBoxed(code, Going(st, m), k);
    StepStrays(code, b);
    Erased(code, st, m, k);
    assert RunBoxed(code, Going(st, m), k + 1) == StepBoxed(code, b);
    RunLast(code, Running(st), k + 1);
    assert Run(code, Running(st), k + 1) == Step1(code, b.st);
  }

  lemma {:induction false} FirstTrip(code: seq<Instr>, st: State, m: Marks, k: nat) returns (j: nat)
    requires Trips(code, st, m, k)
    ensures j <= k && Trips(code, st, m, j) && forall i: nat :: i < j ==> !Trips(code, st, m, i)
    decreases k
  {
    hide Trips;
    if i: nat :| i < k && Trips(code, st, m, i) { j := FirstTrip(code, st, m, i); } else { j := k; }
  }

  ghost predicate SameCourse(code: seq<Instr>, st: State, m: Marks) {
    forall n: nat :: Erase(RunBoxed(code, Going(st, m), n)) == Run(code, Running(st), n)
  }

  /** The boxes do not show if and only if no fused branch that is reached finds its local
      boxed. */
  lemma BoxesShow(code: seq<Instr>, st: State, m: Marks)
    ensures SameCourse(code, st, m) <==> Smooth(code, st, m)
  {
    hide Trips, RunBoxed, Run;
    if Smooth(code, st, m) {
      forall n: nat ensures Erase(RunBoxed(code, Going(st, m), n)) == Run(code, Running(st), n) {
        Erased(code, st, m, n);
      }
    } else {
      var k: nat :| Trips(code, st, m, k);
      var j := FirstTrip(code, st, m, k);
      Strays(code, st, m, j);
    }
  }

  // ----- when the condition holds

  predicate NoModJump(code: seq<Instr>) { forall i :: 0 <= i < |code| ==> !code[i].JumpMod? }

  /** Without a fused branch on a remainder there is nothing to trip over. */
  lemma NoModSmooth(code: seq<Instr>, st: State, m: Marks)
    requires NoModJump(code)
    ensures Smooth(code, st, m)
  {
    hide RunBoxed;
  }

  predicate NothingFolded(code: seq<Instr>) {
    forall i :: 0 <= i < |code| ==> !(code[i].Folded? && code[i].v.Int?)
  }

  /** Every int that is about fits 64 bits. */
  ghost predicate InRange(st: State) {
    && (forall i :: 0 <= i < |st.stack| ==> !Big(st.stack[i]))
    && (forall r :: r in st.mem ==> !Big(st.mem[r]))
  }

  ghost predicate Unmarked(m: Marks) { m.mem == {} && forall i :: 0 <= i < |m.stack| ==> !m.stack[i] }

  lemma StaysUnmarked(i: Instr, st: State, m: Marks, t: State)
    requires Unmarked(m) && InRange(st) && InRange(t) && !(i.Folded? && i.v.Int?)
    requires i.Const? ==> !Big(i.v)
    ensures Unmarked(MarksAfter(i, st, m, t))
  {}

  /** Nor when no folded int is about and every value of the run fits 64 bits. */
  lemma {:induction false} SmallSmooth(code: seq<Instr>, st: State, m: Marks, n: nat)
    requires NothingFolded(code) && Unmarked(m)
    requires forall k: nat :: k <= n && Run(code, Running(st), k).Running? ==> InRange(Run(code, Running(st), k).st)
    ensures forall k: nat :: k <= n ==> !Trips(code, st, m, k)
    ensures var b := RunBoxed(code, Going(st, m), n); b.Going? ==> Unmarked(b.m)
    decreases n
  {
    hide Exec, MarksAfter, Run, InRange;
    RunNone(code, st);
    if n > 0 {
      SmallSmooth(code, st, m, n - 1);
      Erased(code, st, m, n);
      Erased(code, st, m, n - 1);
      var b := RunBoxed(code, Going(st, m), n - 1);
      var c := RunBoxed(code, Going(st, m), n);
      if c.Going? {
        assert b.Going? && 0 <= b.st.pc < |code|;
        var i := code[b.st.pc];
        assert InRange(b.st) && InRange(c.st);
        if i.Const? { ConstInRange(i, b.st, c.st); }
        StaysUnmarked(i, b.st, b.m, c.st);
      }
    }
  }

  lemma ConstInRange(i: Instr, st: State, t: State)
    requires i.Const? && Exec(i, st) == Running(t) && InRange(t)
    ensures !Big(i.v)
  {
    assert t.stack[|t.stack| - 1] == i.v;
  }
}
