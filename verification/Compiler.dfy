/** The one-pass compiler with its mutable state: an instruction buffer that grows and is
    patched in place, the stacks of scopes, loops and finalizers, and the slot counter. */
module Compiler {
  import opened Syntax
  import opened Machine
  import opened ExprGen
  import opened StmtGen
  import opened Shapes
  import opened Emitter
  import opened ExprCorrect
  import opened StmtForms
  import Placement

  class Compiler {
    var instructions: seq<Instr>
    var scopes: Scopes
    var locals: nat
    var loops: seq<LoopContext>
    var finalizers: Fins

    /** A compiler about to start on a function whose parameters are in scope. */
    constructor (sc: Scopes, slots: nat)
      ensures instructions == [] && scopes == sc && locals == slots && loops == [] && finalizers == Bottom
    {
      instructions, scopes, locals, loops, finalizers := [], sc, slots, [], Bottom;
    }

    ghost function Cx(): Ctx
      reads this
    {
      Ctx(scopes, locals, finalizers, Depths(loops))
    }

    /** tg says where the enclosing loops will turn out to end and to continue. */
    ghost predicate Valid(tg: seq<Target>)
      reads this
    {
      |scopes| > 0 && |tg| == |loops| && Tidy(loops, |instructions|) && Aims(loops, tg) && Anchored(finalizers)
    }

    /** The buffer as it will read when the enclosing loops are done. */
    ghost function Seen(tg: seq<Target>): seq<Instr>
      requires |tg| == |loops|
      reads this
    {
      Fill(instructions, loops, tg)
    }

    /** The code has been appended, and l is where the compiler stands now. */
    twostate predicate Emitted(tg: seq<Target>, code: seq<Instr>, l: Lay)
      requires |tg| == |old(loops)|
      reads this
    {
      && Valid(tg) && finalizers == old(finalizers) && Longer(old(loops), loops, |old(instructions)|)
      && Seen(tg) == old(Seen(tg)) + code && scopes == l.sc && locals == l.next
    }

    method Emit(i: Instr)
      modifies this`instructions
      ensures instructions == old(instructions) + [i]
    {
      instructions := instructions + [i];
    }

    /** Emit a jump whose target is not known yet. */
    method EmitJump(i: Instr) returns (index: nat)
      modifies this`instructions
      ensures instructions == old(instructions) + [i] && index == |old(instructions)|
    {
      Emit(i);
      index := |instructions| - 1;
    }

    /** The jump at index goes to the next instruction to be emitted. */
    method PatchJump(index: nat)
      requires index < |instructions|
      modifies this`instructions
      ensures instructions == old(instructions[index := Retarget(instructions[index], |instructions|)])
    {
      instructions := instructions[index := Retarget(instructions[index], |instructions|)];
    }

    method PatchAll(jumps: seq<nat>)
      requires forall p :: p in jumps ==> p < |instructions|
      modifies this`instructions
      ensures instructions == Fix(old(instructions), jumps, |old(instructions)|)
    {
      var i := 0;
      FixNone(instructions, |instructions|);
      while i < |jumps|
        invariant 0 <= i <= |jumps|
        invariant instructions == Fix(old(instructions), jumps[..i], |old(instructions)|)
      {
        assert jumps[i] in jumps;
        FixOne(instructions, jumps[i], |instructions|);
        FixMore(old(instructions), jumps[..i], jumps[i], |instructions|);
        assert jumps[..i + 1] == jumps[..i] + [jumps[i]];
        PatchJump(jumps[i]);
        i := i + 1;
      }
      assert jumps[..i] == jumps;
    }

    // ----- expressions

    method CompileExpression(e: Expr) returns (ok: bool)
      modifies this`instructions
      ensures ok == OkE(e, scopes)
      ensures ok ==> instructions == old(instructions) + CodeE(e, scopes, |old(instructions)|)
      decreases e, 1
    {
      hide StaticInt, Fold, SelfForm, Resolve;
      match e
      case IntLit(n) => Emit(Const(Int(n))); ok := true;
      case Lit(v) => Emit(Const(v)); ok := true;
      case Var(x) =>
        var b := Resolve(scopes, x);
        ok := b.Some?;
        if ok { Emit(Get(b.value.ref)); }
      case Assign(x, f) => ok := CompileAssignment(x, f);
      case Post(x, inc) => ok := CompilePostfix(x, inc);
      case Un(op, f) =>
        ok := CompileExpression(f);
        if ok { Emit(Unary(op)); }
      case Bin(op, l, r) => ok := CompileInfix(op, l, r);
      case And(l, r) => ok := CompileAnd(l, r);
      case Or(l, r) => ok := CompileOr(l, r);
      case Coalesce(l, r) => ok := CompileNullCoalesce(l, r);
      case Ternary(c, t, f) => ok := CompileTernary(c, t, f);
    }

    method CompileAssignment(x: string, f: Expr) returns (ok: bool)
      modifies this`instructions
      ensures ok == OkE(Assign(x, f), scopes)
      ensures ok ==> instructions == old(instructions) + CodeE(Assign(x, f), scopes, |old(instructions)|)
      decreases Assign(x, f), 0
    {
      hide StaticInt, Fold, SelfForm, CodeE, LenE;
      var b := Resolve(scopes, x);
      if b.None? { return false; }
      var self := SelfForm(x, f, scopes);
      if b.value.isInt && self.Some? {
        SelfOk(x, f, scopes);
        SelfEq(x, f, scopes, |instructions|, []);
        Emit(SelfArith(f.op.Sub?, b.value.ref, self.value));
        ok := true;
      } else {
        ghost var pc := |instructions|;
        ok := CompileExpression(f);
        if ok {
          AssignEq(x, f, scopes, pc, []);
          Emit(Set(b.value.ref));
        }
      }
    }

    method CompilePostfix(x: string, inc: bool) returns (ok: bool)
      modifies this`instructions
      ensures ok == OkE(Post(x, inc), scopes)
      ensures ok ==> instructions == old(instructions) + CodeE(Post(x, inc), scopes, |old(instructions)|)
    {
      var b := Resolve(scopes, x);
      if b.None? { return false; }
      var ref := b.value.ref;
      if b.value.isInt {
        Emit(Step(if inc then 1 else -1, ref));
      } else {
        Emit(Get(ref));
        Emit(Dup);
        Emit(Const(Int(1)));
        Emit(Generic(if inc then Add else Sub));
        Emit(Set(ref));
        Emit(Instr.Pop);
      }
      ok := true;
    }

    method CompileInfix(op: BinOp, l: Expr, r: Expr) returns (ok: bool)
      modifies this`instructions
      ensures ok == (OkE(l, scopes) && OkE(r, scopes))
      ensures ok ==> instructions == old(instructions) + CodeE(Bin(op, l, r), scopes, |old(instructions)|)
      decreases Bin(op, l, r), 0
    {
      hide StaticInt, Fold, CodeE, LenE, OkE, OpCode;
      ghost var pc := |instructions|;
      var folded := Fold(op, l, r);
      if folded.Some? {
        FoldOk(op, l, r, scopes);
        FoldIs(op, l, r, scopes, pc);
        Emit(Folded(folded.value));
        ok := true;
      } else {
        var bothInt := StaticInt(l, scopes) && StaticInt(r, scopes);
        BinIs(op, l, r, scopes, pc);
        ok := CompileExpression(l);
        if !ok { return; }
        ok := CompileExpression(r);
        if !ok { return; }
        EmitOperator(op, bothInt);
      }
    }

    method EmitOperator(op: BinOp, bothInt: bool)
      modifies this`instructions
      ensures instructions == old(instructions) + OpCode(op, bothInt)
    {
      match op
      case Ne =>
        Emit(if bothInt then IntOp(Eq) else Generic(Eq));
        Emit(Unary(Not));
      case IntDiv => Emit(Generic(IntDiv));
      case Xor => Emit(Generic(Xor));
      case _ => Emit(if bothInt then IntOp(op) else Generic(op));
    }

    method CompileAnd(l: Expr, r: Expr) returns (ok: bool)
      modifies this`instructions
      ensures ok == (OkE(l, scopes) && OkE(r, scopes))
      ensures ok ==> instructions == old(instructions) + CodeE(And(l, r), scopes, |old(instructions)|)
      decreases And(l, r), 0
    {
      hide CodeE, LenE, OkE, CodeCond, LenCond, Retarget;
      ghost var was := instructions;
      AndIs(l, r, scopes, |was|);
      ok := CompileExpression(l);
      if !ok { return; }
      var falseJump := EmitJump(JumpIfFalse(OPEN));
      ghost var rpc := |instructions|;
      ok := CompileExpression(r);
      if !ok { return; }
      ghost var s0 := instructions;
      var rightFalseJump := EmitJump(JumpIfFalse(OPEN));
      Emit(Const(Bool(true)));
      var endJump := EmitJump(Jump(OPEN));
      ghost var s1 := instructions;
      PatchJump(falseJump);
      ghost var s2 := instructions;
      PatchJump(rightFalseJump);
      ghost var s3 := instructions;
      Emit(Const(Bool(false)));
      PatchJump(endJump);
      AndPatched(was, CodeE(l, scopes, |was|), CodeE(r, scopes, rpc), s0, s1, s2, s3, instructions);
    }

    method CompileOr(l: Expr, r: Expr) returns (ok: bool)
      modifies this`instructions
      ensures ok == (OkE(l, scopes) && OkE(r, scopes))
      ensures ok ==> instructions == old(instructions) + CodeE(Or(l, r), scopes, |old(instructions)|)
      decreases Or(l, r), 0
    {
      hide CodeE, LenE, OkE, CodeCond, LenCond, Retarget;
      ghost var was := instructions;
      ok := CompileExpression(l);
      if !ok { return; }
      ghost var lc := CodeE(l, scopes, |was|);
      var endJump := EmitLeftTest();
      ghost var rpc := |instructions|;
      ok := CompileExpression(r);
      if !ok { return; }
      ghost var s1 := instructions;
      var rightEndJump := EmitRightTest();
      ghost var s2 := instructions;
      PatchJump(endJump);
      ghost var s3 := instructions;
      PatchJump(rightEndJump);
      OrPatched(was, lc, CodeE(r, scopes, rpc), s1, s2, s3, instructions);
      OrIs(l, r, scopes, |was|);
    }

    /** When the left operand is true, push true and skip the right one. */
    method EmitLeftTest() returns (endJump: nat)
      modifies this`instructions
      ensures instructions == old(instructions) + [JumpIfFalse(|old(instructions)| + 3), Const(Bool(true)), Jump(OPEN)]
      ensures endJump == |old(instructions)| + 2
    {
      var rightJump := EmitJump(JumpIfFalse(OPEN));
      Emit(Const(Bool(true)));
      endJump := EmitJump(Jump(OPEN));
      PatchJump(rightJump);
    }

    method EmitRightTest() returns (endJump: nat)
      modifies this`instructions
      ensures instructions == old(instructions)
          + [JumpIfFalse(|old(instructions)| + 3), Const(Bool(true)), Jump(OPEN), Const(Bool(false))]
      ensures endJump == |old(instructions)| + 2
    {
      var falseJump := EmitJump(JumpIfFalse(OPEN));
      Emit(Const(Bool(true)));
      endJump := EmitJump(Jump(OPEN));
      PatchJump(falseJump);
      Emit(Const(Bool(false)));
    }

    method CompileNullCoalesce(l: Expr, r: Expr) returns (ok: bool)
      modifies this`instructions
      ensures ok == (OkE(l, scopes) && OkE(r, scopes))
      ensures ok ==> instructions == old(instructions) + CodeE(Coalesce(l, r), scopes, |old(instructions)|)
      decreases Coalesce(l, r), 0
    {
      hide CodeE, LenE, OkE, CodeCond, LenCond;
      ghost var was := instructions;
      CoalesceIs(l, r, scopes, |was|);
      ok := CompileExpression(l);
      if !ok { return; }
      var endJump := EmitJump(NullCoalesce(OPEN));
      ghost var rpc := |instructions|;
      ok := CompileExpression(r);
      if !ok { return; }
      Mid(was + CodeE(l, scopes, |was|), NullCoalesce(OPEN), CodeE(r, scopes, rpc), |instructions|);
      PatchJump(endJump);
    }

    method CompileTernary(c: Expr, t: Expr, f: Expr) returns (ok: bool)
      modifies this`instructions
      ensures ok == (OkE(c, scopes) && OkE(t, scopes) && OkE(f, scopes))
      ensures ok ==> instructions == old(instructions) + CodeE(Ternary(c, t, f), scopes, |old(instructions)|)
      decreases Ternary(c, t, f), 0
    {
      hide CodeE, LenE, OkE, CodeCond, LenCond, Retarget;
      ghost var was := instructions;
      TernaryIs(c, t, f, scopes, |was|);
      var jumpFalse;
      ok, jumpFalse := CompileCondition(c);
      if !ok { return; }
      ghost var tpc := |instructions|;
      ok := CompileExpression(t);
      if !ok { return; }
      var jump := EmitJump(Jump(OPEN));
      ghost var fpc := |instructions|;
      CondPatched(c, scopes, |was|, fpc);
      ghost var cc, tc := CodeCond(c, scopes, |was|, OPEN), CodeE(t, scopes, tpc);
      CondLen(c, scopes, |was|, fpc);
      MidLast(was, cc, tc + [Jump(OPEN)], fpc);
      assert instructions == was + cc + (tc + [Jump(OPEN)]);
      PatchJump(jumpFalse);
      ghost var cc1 := CodeCond(c, scopes, |was|, fpc);
      assert instructions == was + cc1 + tc + [Jump(OPEN)];
      ok := CompileExpression(f);
      if !ok { return; }
      JumpMid(was + cc1 + tc, CodeE(f, scopes, fpc), |instructions|);
      PatchJump(jump);
    }

    /** The condition and its jump, which the caller patches. */
    method CompileCondition(c: Expr) returns (ok: bool, jump: nat)
      modifies this`instructions
      ensures ok == OkE(c, scopes)
      ensures ok ==> instructions == old(instructions) + CodeCond(c, scopes, |old(instructions)|, OPEN)
      ensures ok ==> jump == |instructions| - 1
      decreases c, 2
    {
      hide CodeE, LenE, FusesCompare, CodeCond, LenCond, OkE, FuseMod;
      jump := 0;
      ghost var pc := |instructions|;
      var m := FuseMod(c, scopes);
      if m.Some? {
        FuseOk(c, scopes, pc);
        jump := EmitJump(JumpMod(m.value.2, OPEN, m.value.0, m.value.1));
        ok := true;
      } else if FusesCompare(c, scopes) {
        FusedParts(c, scopes, pc);
        ok := CompileExpression(c.l);
        if !ok { return; }
        ok := CompileExpression(c.r);
        if !ok { return; }
        jump := EmitJump(JumpUnless(c.op, OPEN));
      } else {
        PlainEq(c, OPEN, scopes, pc);
        ok := CompileExpression(c);
        if !ok { return; }
        jump := EmitJump(JumpIfFalse(OPEN));
      }
    }

    // ----- statements

    method CompileStatement(s: Stmt, ghost tg: seq<Target>) returns (ok: bool)
      requires Valid(tg)
      modifies this
      ensures ok == LayS(s, old(Cx())).ok
      ensures ok ==> Emitted(tg, CodeS(s, old(Cx()), tg, |old(instructions)|), LayS(s, old(Cx())))
      decreases Size(s) + FinSize(finalizers), 3
    {
      hide LayS, CodeS, Fill, Tidy, Longer, Holes, Aims, Depths;
      match s
      case Let(_, _, _) => ok := CompileLet(s, tg);
      case Eval(_) => ok := CompileConsume(s, tg);
      case Print(_) => ok := CompileConsume(s, tg);
      case Throw(_) => ok := CompileConsume(s, tg);
      case If(_, _, _, _) => ok := CompileIf(s, tg);
      case While(_, _) => ok := CompileWhile(s, tg);
      case For(_, _, _, _) => ok := CompileFor(s, tg);
      case ForIn(_, _, _) => ok := CompileForIn(s, tg);
      case Try(_, _, _) => ok := CompileTry(s, tg);
      case With(_, _, _) => ok := CompileWith(s, tg);
      case Break => ok := CompileSimple(s, tg);
      case Continue => ok := CompileSimple(s, tg);
      case Return(_) => ok := CompileReturn(s, tg);
    }

    /** defineLocalWithType. */
    method DefineLocal(x: string, isInt: bool) returns (slot: nat)
      requires |scopes| > 0
      modifies this`scopes, this`locals
      ensures slot == old(locals) && locals == slot + 1 && scopes == Bind(old(scopes), x, Binding(Local(slot), isInt))
    {
      slot := AllocateLocal();
      scopes := Bind(scopes, x, Binding(Local(slot), isInt));
    }

    method AllocateLocal() returns (slot: nat)
      modifies this`locals
      ensures slot == old(locals) && locals == slot + 1
    {
      slot := locals;
      locals := locals + 1;
    }

    method CompileOptional(e: Option<Expr>) returns (ok: bool)
      modifies this`instructions
      ensures ok == OptOk(e, scopes)
      ensures ok ==> instructions == old(instructions) + OptCode(e, scopes, |old(instructions)|)
    {
      hide CodeE, OkE;
      if e.None? {
        Emit(Const(Null));
        ok := true;
      } else {
        ok := CompileExpression(e.value);
      }
    }

    method CompileLet(s: Stmt, ghost tg: seq<Target>) returns (ok: bool)
      requires s.Let? && Valid(tg)
      modifies this
      ensures ok == LayS(s, old(Cx())).ok
      ensures ok ==> Emitted(tg, CodeS(s, old(Cx()), tg, |old(instructions)|), LayS(s, old(Cx())))
    {
      hide Anchored, Fill, Tidy, Longer, Holes, Aims, Depths, OptCode, OptLen, OptOk, Bind, LetIsInt;
      ghost var was := instructions;
      ok := CompileOptional(s.init);
      if !ok { return; }
      var isInt := LetIsInt(s.decl, s.init, scopes);
      var slot := DefineLocal(s.x, isInt);
      BindSize(old(scopes), s.x, Binding(Local(slot), isInt));
      Emit(Define(Local(slot)));
      assert instructions == was + (OptCode(s.init, old(scopes), |was|) + [Define(Local(slot))]);
      Grows(was, OptCode(s.init, old(scopes), |was|) + [Define(Local(slot))], loops, tg);
    }

    method CompileConsume(s: Stmt, ghost tg: seq<Target>) returns (ok: bool)
      requires (s.Eval? || s.Print? || s.Throw?) && Valid(tg)
      modifies this
      ensures ok == LayS(s, old(Cx())).ok
      ensures ok ==> Emitted(tg, CodeS(s, old(Cx()), tg, |old(instructions)|), LayS(s, old(Cx())))
    {
      hide Anchored, Fill, Tidy, Longer, Holes, Aims, Depths, LayS, CodeS, CodeE, LenE, OkE;
      ghost var was := instructions;
      ConsumeIs(s, Cx(), tg, |was|);
      ok := CompileExpression(s.e);
      if !ok { return; }
      Emit(if s.Eval? then Instr.Pop else if s.Print? then Println else Raise);
      assert instructions == was + CodeS(s, Cx(), tg, |was|);
      Grows(was, CodeS(s, Cx(), tg, |was|), loops, tg);
    }

    method CompileBlock(b: Stmts, ghost tg: seq<Target>) returns (ok: bool)
      requires Valid(tg)
      modifies this
      ensures ok == LayBlock(b, old(Cx())).ok
      ensures ok ==> Emitted(tg, CodeBlock(b, old(Cx()), tg, |old(instructions)|), LayBlock(b, old(Cx())))
      decreases BlockSize(b) + FinSize(finalizers), 1
    {
      hide Anchored, Fill, Tidy, Longer, Holes, Aims, Depths, LayList, CodeList;
      ghost var cx1 := Cx().(sc := scopes + [map[]]);
      scopes := scopes + [map[]];
      ListScopes(b, cx1);
      ok := CompileStatements(b, tg);
      if !ok { return; }
      scopes := scopes[..|scopes| - 1];
    }

    method CompileStatements(b: Stmts, ghost tg: seq<Target>) returns (ok: bool)
      requires Valid(tg)
      modifies this
      ensures ok == LayList(b, old(Cx())).ok
      ensures ok ==> Emitted(tg, CodeList(b, old(Cx()), tg, |old(instructions)|), LayList(b, old(Cx())))
      decreases BlockSize(b) + FinSize(finalizers), 0
    {
      hide Anchored, Fill, Tidy, Longer, Holes, Aims, Depths, LayList, CodeList, LayS, CodeS;
      ghost var cx0, n0 := Cx(), |instructions|;
      var rest := b;
      LongerSelf(loops, n0);
      while rest.Cons?
        invariant Valid(tg) && finalizers == cx0.fins && Longer(old(loops), loops, n0) && |instructions| >= n0
        invariant Depths(loops) == cx0.loops
        invariant Seen(tg) + CodeList(rest, Cx(), tg, |instructions|) == old(Seen(tg)) + CodeList(b, cx0, tg, n0)
        invariant Rejoins(LayList(rest, Cx()), LayList(b, cx0))
        decreases BlockSize(rest)
      {
        ghost var cx, n, seen, was := Cx(), |instructions|, Seen(tg), loops;
        ListEq(rest, cx, tg, n);
        ok := CompileStatement(rest.head, tg);
        if !ok { return; }
        LongerDepths(was, loops, n, tg);
        LongerTrans(old(loops), was, loops, n0, n);
        assert seen + CodeList(rest, cx, tg, n) == Seen(tg) + CodeList(rest.tail, Cx(), tg, |instructions|);
        rest := rest.tail;
      }
      ListEq(Nil, Cx(), tg, |instructions|);
      assert Seen(tg) + [] == Seen(tg);
      ok := true;
    }

    /** A condition, the block it guards and the jump to the end of the whole chain. */
    method CompileArm(c: Expr, b: Stmts, ghost tg: seq<Target>) returns (ok: bool, endJump: nat)
      requires Valid(tg)
      modifies this
      ensures ok == (OkE(c, old(scopes)) && LayBlock(b, old(Cx())).ok)
      ensures ok ==>
        var n0 := |old(instructions)|;
        var tpc := n0 + LenCond(c, scopes);
        var l := LayBlock(b, old(Cx()));
        Emitted(tg, CodeCond(c, scopes, n0, tpc + l.len + 1) + CodeBlock(b, old(Cx()), tg, tpc) + [Jump(OPEN)], l) &&
        endJump == |instructions| - 1 == tpc + l.len && endJump !in Holes(loops)
      decreases BlockSize(b) + FinSize(finalizers), 2
    {
      hide Anchored, Fill, Tidy, Longer, Holes, Aims, Depths, LayBlock, CodeBlock, CodeCond, LenCond, OkE, Retarget;
      endJump := 0;
      ghost var cx0, s0, was := Cx(), Seen(tg), instructions;
      var jump;
      ok, jump := CompileCondition(c);
      if !ok { return; }
      ghost var n1 := |instructions|;
      ghost var cc := CodeCond(c, scopes, |was|, OPEN);
      CondLen(c, scopes, |was|, OPEN);
      Grows(was, cc, loops, tg);
      HolesBelow(loops, |was|);
      ok := CompileBlock(b, tg);
      if !ok { return; }
      ghost var bc := CodeBlock(b, cx0, tg, n1);
      HolesLonger(old(loops), loops, n1);
      ghost var was1 := instructions;
      TidyBelow(loops, |was1|);
      endJump := EmitJump(Jump(OPEN));
      Grows(was1, [Jump(OPEN)], loops, tg);
      ghost var was2, end := instructions, |instructions|;
      SeenPatch(was2, loops, tg, jump, end);
      PatchJump(jump);
      CondPatched(c, scopes, |was|, end);
      MidLast(s0, cc, bc + [Jump(OPEN)], end);
      assert s0 + cc + bc + [Jump(OPEN)] == s0 + cc + (bc + [Jump(OPEN)]);
      LongerDown(old(loops), loops, n1, |was|);
    }

    /** One arm of a chain; its jump joins those that go to the end of the chain. */
    method CompileBranch(c: Expr, b: Stmts, ghost tg: seq<Target>, endJumps: seq<nat>, ghost end: int)
      returns (ok: bool, jumps: seq<nat>)
      requires Valid(tg) && Patchable(endJumps)
      modifies this
      ensures ok == (OkE(c, old(scopes)) && LayBlock(b, old(Cx())).ok)
      ensures ok ==>
        var n0 := |old(instructions)|;
        var tpc := n0 + LenCond(c, scopes);
        var l := LayBlock(b, old(Cx()));
        && Emitted(tg, CodeCond(c, scopes, n0, tpc + l.len + 1) + CodeBlock(b, old(Cx()), tg, tpc) + [Jump(OPEN)], l)
        && Fix(Seen(tg), jumps, end) == old(Fix(Seen(tg), endJumps, end)) +
             CodeCond(c, scopes, n0, tpc + l.len + 1) + CodeBlock(b, old(Cx()), tg, tpc) + [Jump(end)]
        && Patchable(jumps) && |instructions| == tpc + l.len + 1
      decreases BlockSize(b) + FinSize(finalizers), 3
    {
      hide Anchored, Fill, Tidy, Longer, Holes, Aims, Depths, LayBlock, CodeBlock, CodeCond, LenCond, OkE, Fix;
      jumps := endJumps;
      ghost var n, seen, cx := |instructions|, Seen(tg), Cx();
      var endJump;
      ok, endJump := CompileArm(c, b, tg);
      if !ok { return; }
      CondLen(c, scopes, n, |instructions|);
      HolesLonger(old(loops), loops, n);
      ghost var cc, bc := CodeCond(c, scopes, n, |instructions|), CodeBlock(b, cx, tg, n + LenCond(c, scopes));
      assert Seen(tg) == seen + (cc + bc) + [Jump(OPEN)];
      FixOpen(seen, cc + bc, endJumps, end);
      assert Fix(seen, endJumps, end) + (cc + bc) + [Jump(end)] == Fix(seen, endJumps, end) + cc + bc + [Jump(end)];
      jumps := endJumps + [endJump];
    }

    /** Open jumps that no loop lists. */
    ghost predicate Patchable(jumps: seq<nat>)
      reads this
    {
      forall p :: p in jumps ==> p < |instructions| && p !in Holes(loops)
    }

    lemma NoJumps()
      ensures Patchable([])
    {}

    lemma Listless(jumps: seq<nat>)
      requires Patchable(jumps)
      ensures forall p :: p in jumps ==> p < |instructions| && p !in Holes(loops)
    {}

    method CompileAlternative(a: Option<Stmts>, ghost tg: seq<Target>, ghost jumps: seq<nat>, ghost end: int)
      returns (ok: bool)
      requires Valid(tg) && Patchable(jumps)
      modifies this
      ensures ok == LayElifs(NoElif, a, old(Cx())).ok
      ensures ok ==>
          Emitted(tg, CodeElifs(NoElif, a, old(Cx()), tg, |old(instructions)|, end), LayElifs(NoElif, a, old(Cx())))
      ensures ok ==>
          Fix(Seen(tg), jumps, end) == old(Fix(Seen(tg), jumps, end))
          + CodeElifs(NoElif, a, old(Cx()), tg, |old(instructions)|, end)
      ensures ok ==> Patchable(jumps)
      decreases (if a.Some? then BlockSize(a.value) else 0) + FinSize(finalizers), 2
    {
      hide Anchored, Fill, Tidy, Longer, Holes, Aims, Depths, LayBlock, CodeBlock, Fix;
      ghost var n, seen := |instructions|, Seen(tg);
      ok := true;
      if a.Some? {
        ok := CompileBlock(a.value, tg);
        if !ok { return; }
        HolesLonger(old(loops), loops, n);
      } else {
        LongerSelf(loops, n);
        assert seen + [] == seen;
      }
      FixLonger(seen, CodeElifs(NoElif, a, old(Cx()), tg, n, end), jumps, end);
    }

    /** The else-if arms and the else block. */
    method CompileElseIfs(es: Elifs, a: Option<Stmts>, ghost tg: seq<Target>, endJumps: seq<nat>, ghost end: int)
      returns (ok: bool, jumps: seq<nat>)
      requires Valid(tg) && Patchable(endJumps) && end == |instructions| + LayElifs(es, a, Cx()).len
      modifies this
      ensures ok == LayElifs(es, a, old(Cx())).ok
      ensures ok ==>
        var l := LayElifs(es, a, old(Cx()));
        && Valid(tg) && finalizers == old(finalizers) && Longer(old(loops), loops, |old(instructions)|)
        && scopes == l.sc && locals == l.next && |instructions| == end && Patchable(jumps)
        && Fix(Seen(tg), jumps, end) == old(Fix(Seen(tg), endJumps, end))
            + CodeElifs(es, a, old(Cx()), tg, |old(instructions)|, end)
      decreases ElifsSize(es) + (if a.Some? then BlockSize(a.value) else 0) + FinSize(finalizers), 4
    {
      hide Anchored, Fill, Tidy, Longer, Holes, Aims, Depths, LayBlock, CodeBlock, CodeCond, LenCond, OkE, LayElifs,
          CodeElifs, Fix, Patchable;
      ghost var cx0, n0 := Cx(), |instructions|;
      jumps := endJumps;
      var rest := es;
      LongerSelf(loops, n0);
      while rest.Elif?
        invariant Valid(tg) && finalizers == cx0.fins && scopes == cx0.sc && Depths(loops) == cx0.loops
        invariant Longer(old(loops), loops, n0) && |instructions| >= n0 && Patchable(jumps)
        invariant Fix(Seen(tg), jumps, end) + CodeElifs(rest, a, Cx(), tg, |instructions|, end) ==
                  old(Fix(Seen(tg), endJumps, end)) + CodeElifs(es, a, cx0, tg, n0, end)
        invariant Rejoins(LayElifs(rest, a, Cx()), LayElifs(es, a, cx0))
        invariant |instructions| + LayElifs(rest, a, Cx()).len == end
        decreases ElifsSize(rest)
      {
        ghost var cx, n, seen, was := Cx(), |instructions|, Fix(Seen(tg), jumps, end), loops;
        ElifIs(rest.c, rest.body, rest.rest, a, cx, tg, n, end);
        ok, jumps := CompileBranch(rest.c, rest.body, tg, jumps, end);
        if !ok { return; }
        LongerDepths(was, loops, n, tg);
        LongerTrans(old(loops), was, loops, n0, n);
        ghost var cc, bc, ec := CodeCond(rest.c, cx.sc, n, |instructions|),
            CodeBlock(rest.body, cx, tg, n + LenCond(rest.c, cx.sc)),
                                CodeElifs(rest.rest, a, Cx(), tg, |instructions|, end);
        assert seen + (cc + bc + [Jump(end)] + ec) == seen + cc + bc + [Jump(end)] + ec;
        rest := rest.rest;
      }
      ghost var n, was := |instructions|, loops;
      ok := CompileAlternative(a, tg, jumps, end);
      if !ok { return; }
      LongerTrans(old(loops), was, loops, n0, n);
    }

    method CompileIf(s: Stmt, ghost tg: seq<Target>) returns (ok: bool)
      requires s.If? && Valid(tg)
      modifies this
      ensures ok == LayS(s, old(Cx())).ok
      ensures ok ==> Emitted(tg, CodeS(s, old(Cx()), tg, |old(instructions)|), LayS(s, old(Cx())))
      decreases Size(s) + FinSize(finalizers), 2
    {
      hide Anchored, Fill, Tidy, Longer, Holes, Aims, Depths, LayBlock, CodeBlock, CodeCond, LenCond, OkE, LayS,
          CodeS, LayElifs, CodeElifs, Fix, Patchable, Tidy;
      var If(c, b, es, a) := s;
      ghost var cx0, n0 := Cx(), |instructions|;
      IfIs(c, b, es, a, cx0, tg, n0);
      ghost var whole, end := CodeS(s, cx0, tg, n0), n0 + LayS(s, cx0).len;
      FixNone(Seen(tg), end);
      NoJumps();
      var endJumps;
      ok, endJumps := CompileBranch(c, b, tg, [], end);
      if !ok { return; }
      LongerDepths(old(loops), loops, n0, tg);
      ghost var n1, was := |instructions|, loops;
      ok, endJumps := CompileElseIfs(es, a, tg, endJumps, end);
      if !ok { return; }
      LongerTrans(old(loops), was, loops, n0, n1);
      Listless(endJumps);
      FillFix(instructions, endJumps, end, loops, tg);
      PatchAll(endJumps);
    }
    /** The body of a loop, with the loop pushed around it; its open jumps come back. */
    method CompileLoopBody(b: Stmts, continueTarget: int, depth: nat, ghost tg: seq<Target>, ghost t: Target)
      returns (ok: bool, loop: LoopContext)
      requires Valid(tg) && (continueTarget >= 0 ==> t.cnt == continueTarget)
      modifies this
      ensures ok == LayBlock(b, InLoop(old(Cx()), depth)).ok
      ensures ok ==>
        var l := LayBlock(b, InLoop(old(Cx()), depth));
        var n := |old(instructions)|;
        && Valid(tg) && finalizers == old(finalizers) && Longer(old(loops), loops, n) && scopes == old(scopes)
            && locals == l.next
        && Tidy(loops + [loop], |instructions|) && (continueTarget >= 0 ==> loop.continueJumps == [])
        && (forall p :: p in Listed(loop) ==> p >= n)
        && Fill(instructions, loops + [loop], tg + [t]) ==
            old(Seen(tg)) + CodeBlock(b, InLoop(old(Cx()), depth), tg + [t], n)
      decreases BlockSize(b) + FinSize(finalizers), 2
    {
      hide Anchored, Fill, Tidy, Holes, Depths, LayBlock, CodeBlock, Aims;
      ghost var n, was := |instructions|, loops;
      loop := LoopContext(continueTarget, depth, [], []);
      FillPush(instructions, loops, continueTarget, depth, tg, t, n);
      loops := loops + [loop];
      ok := CompileBlock(b, tg + [t]);
      if !ok { return; }
      ghost var after := loops;
      LongerLen(was + [LoopContext(continueTarget, depth, [], [])], after, n);
      loop := loops[|loops| - 1];
      loops := loops[..|loops| - 1];
      assert after == loops + [loop];
      Grew(was, LoopContext(continueTarget, depth, [], []), loops, loop, n);
      TidyLess(loops, loop, |instructions|);
      LongerDepths(was, loops, n, tg);
    }

    method CompileWhile(s: Stmt, ghost tg: seq<Target>) returns (ok: bool)
      requires s.While? && Valid(tg)
      modifies this
      ensures ok == LayS(s, old(Cx())).ok
      ensures ok ==> Emitted(tg, CodeS(s, old(Cx()), tg, |old(instructions)|), LayS(s, old(Cx())))
      decreases Size(s) + FinSize(finalizers), 2
    {
      hide Anchored, Fill, Tidy, Longer, Holes, Aims, Depths, LayBlock, CodeBlock, CodeCond, LenCond, OkE, Retarget,
          LayS, CodeS, Fix;
      ghost var cx, was, seen := Cx(), instructions, Seen(tg);
      WhileIs(s.c, s.body, cx, tg, |was|);
      ghost var end := |was| + LayS(s, cx).len;
      var loopStart := |instructions|;
      var exitJump;
      ok, exitJump := CompileCondition(s.c);
      if !ok { return; }
      ghost var cc, n1 := CodeCond(s.c, scopes, |was|, OPEN), |instructions|;
      CondLen(s.c, scopes, |was|, OPEN);
      Grows(was, cc, loops, tg);
      HolesBelow(loops, |was|);
      var loop;
      ok, loop := CompileLoopBody(s.body, loopStart, Depth(finalizers), tg, Target(end, loopStart));
      if !ok { return; }
      ghost var bc := CodeBlock(s.body, InLoop(cx, Depth(finalizers)), tg + [Target(end, loopStart)], n1);
      Emit(Jump(loopStart));
      HolesLonger(old(loops), loops, n1);
      LongerDown(old(loops), loops, n1, |was|);
      FinishLoop(loop, exitJump, tg, Target(end, loopStart), seen + cc + bc, [Jump(loopStart)]);
      CondPatched(s.c, scopes, |was|, end);
      MidLast(seen, cc, bc + [Jump(loopStart)], end);
      assert seen + cc + bc + [Jump(loopStart)] == seen + cc + (bc + [Jump(loopStart)]);
    }

    /** A loop is complete: its exit jump and its break jumps go to the next instruction. */
    method FinishLoop(loop: LoopContext, exitJump: int, ghost tg: seq<Target>, ghost t: Target,
            ghost seen: seq<Instr>, ghost rest: seq<Instr>)
      requires |scopes| > 0 && |tg| == |loops| && Aims(loops, tg) && Anchored(finalizers)
          && |seen| + |rest| == |instructions|
      requires Tidy(loops + [loop], |seen|) && loop.continueJumps == [] && t.brk == |instructions|
      requires Fill(instructions[..|seen|], loops + [loop], tg + [t]) == seen && instructions[|seen|..] == rest
      requires exitJump < |seen| && (exitJump >= 0 ==> exitJump !in Holes(loops) && exitJump !in Listed(loop))
      modifies this`instructions
      ensures Valid(tg) && |instructions| == |old(instructions)|
      ensures Seen(tg) == if exitJump >= 0 then (seen + rest)[exitJump := Retarget(seen[exitJump], t.brk)]
          else seen + rest
    {
      hide Anchored, Fill, Tidy, Holes, Aims, Fix, Retarget;
      ghost var all, n := loops + [loop], |instructions|;
      assert instructions == instructions[..|seen|] + rest;
      Grows(instructions[..|seen|], rest, all, tg + [t]);
      HolesOne(loops, loop);
      if exitJump >= 0 {
        SeenPatch(instructions, all, tg + [t], exitJump, n);
        PatchJump(exitJump);
      }
      TidyList(all, loop, n);
      FillPop(instructions, loops, loop, tg, t, n);
      PatchAll(loop.breakJumps);
    }

    method CompileFor(s: Stmt, ghost tg: seq<Target>) returns (ok: bool)
      requires s.For? && Valid(tg)
      modifies this
      ensures ok == LayS(s, old(Cx())).ok
      ensures ok ==> Emitted(tg, CodeS(s, old(Cx()), tg, |old(instructions)|), LayS(s, old(Cx())))
      decreases Size(s) + FinSize(finalizers), 2
    {
      hide Anchored, Fill, Tidy, Longer, Holes, Aims, Depths, LayBlock, CodeBlock, CodeCond, LenCond, OkE, LayS,
          CodeS, Fix, LoopCode, OptOk, LayOpt, CodeOpt;
      var For(first, c, u, b) := s;
      ghost var cx, n := Cx(), |instructions|;
      ForShape(first, c, u, b, cx, tg, n, Seen(tg));
      ghost var cx0 := cx.(sc := cx.sc + [map[]]);
      scopes := scopes + [map[]];
      OptScopes(first, cx0, tg, n);
      ok := CompileInit(first, tg);
      if !ok { return; }
      LongerDepths(old(loops), loops, n, tg);
      ghost var n1, was := |instructions|, loops;
      assert Cx() == At0(cx0, LayOpt(first, cx0));
      ok := CompileForLoop(c, u, b, tg);
      if !ok { return; }
      LongerTrans(old(loops), was, loops, n, n1);
      scopes := scopes[..|scopes| - 1];
    }

    method CompileInit(first: Option<Simple>, ghost tg: seq<Target>) returns (ok: bool)
      requires Valid(tg)
      modifies this
      ensures ok == LayOpt(first, old(Cx())).ok
      ensures ok ==> Emitted(tg, CodeOpt(first, old(Cx()), tg, |old(instructions)|), LayOpt(first, old(Cx())))
      decreases 1 + FinSize(finalizers), 4
    {
      hide Anchored, Fill, Tidy, Longer, Holes, Aims, Depths, LayS, CodeS;
      OptScopes(first, Cx(), tg, |instructions|);
      ok := true;
      if first.Some? {
        ok := CompileStatement(Semantics.AsStmt(first.value), tg);
      } else {
        LongerSelf(loops, |instructions|);
        assert Seen(tg) + [] == Seen(tg);
      }
    }

    /** Condition, body, update and the jump back, in the scope of the loop's clause. */
    method CompileForLoop(c: Option<Expr>, u: Option<Expr>, b: Stmts, ghost tg: seq<Target>) returns (ok: bool)
      requires Valid(tg)
      modifies this
      ensures ok == ((c.None? || OkE(c.value, old(scopes)))
          && LayBlock(b, InLoop(old(Cx()), Depth(old(finalizers)))).ok && OptOk(u, old(scopes)))
      ensures ok ==>
          Emitted(tg, LoopCode(c, u, b, old(Cx()), tg, |old(instructions)|),
          LayBlock(b, InLoop(old(Cx()), Depth(old(finalizers)))))
      decreases BlockSize(b) + FinSize(finalizers), 3
    {
      hide LoopCode, ExitCode, Anchored, Fill, Tidy, Longer, Holes, Aims, Depths, LayBlock, CodeBlock, CodeCond,
          LenCond, OkE, Retarget, Fix, UpdateCode, UpdateLen, OptOk, Listed;
      ghost var cx, was, seen := Cx(), instructions, Seen(tg);
      ghost var cx2 := InLoop(cx, Depth(finalizers));
      ghost var clen := if c.None? then 0 else LenCond(c.value, scopes);
      ghost var upc := |was| + clen + LayBlock(b, cx2).len;
      ghost var end := upc + UpdateLen(u, scopes) + 1;
      var loopStart := |instructions|;
      var exitJump;
      ok, exitJump := CompileExit(c);
      if !ok { return; }
      ghost var cc := ExitCode(c, scopes, |was|, OPEN);
      ghost var n1 := |instructions|;
      Grows(was, cc, loops, tg);
      HolesBelow(loops, |was|);
      var loop;
      ok, loop := CompileLoopBody(b, -1, Depth(finalizers), tg, Target(end, upc));
      if !ok { return; }
      ghost var bc := CodeBlock(b, cx2, tg + [Target(end, upc)], n1);
      HolesLonger(old(loops), loops, n1);
      LongerDown(old(loops), loops, n1, |was|);
      ok := CompileForTail(u, loop, exitJump, loopStart, tg, end, seen + cc + bc);
      if !ok { return; }
      LoopWhole(c, u, b, cx, tg, |was|, seen, exitJump);
    }

    /** The body is compiled: its continue jumps come here, to the update clause. */
    method CompileForTail(u: Option<Expr>, loop: LoopContext, exitJump: int, loopStart: nat, ghost tg: seq<Target>,
            ghost end: int,
                          ghost seen: seq<Instr>)
      returns (ok: bool)
      requires |scopes| > 0 && |tg| == |loops| && Aims(loops, tg) && Anchored(finalizers)
          && Tidy(loops + [loop], |instructions|)
      requires exitJump < |instructions| && (exitJump >= 0 ==> exitJump !in Holes(loops) && exitJump !in Listed(loop))
      requires end == |instructions| + UpdateLen(u, scopes) + 1
      requires Fill(instructions, loops + [loop], tg + [Target(end, |instructions|)]) == seen
      modifies this`instructions
      ensures ok == OptOk(u, scopes)
      ensures ok ==>
        var raw := seen + (UpdateCode(u, scopes, |old(instructions)|) + [Jump(loopStart)]);
        Valid(tg) && |instructions| == end && Seen(tg) == if exitJump >= 0
            then raw[exitJump := Retarget(seen[exitJump], end)] else raw
    {
      hide Anchored, Fill, Tidy, Holes, Aims, Fix, Retarget, UpdateCode, UpdateLen, OptOk, Listed;
      ghost var t := Target(end, |instructions|);
      FillContinues(instructions, loops, loop, tg, t, |instructions|);
      Lists(loops, loop, |instructions|);
      PatchAll(loop.continueJumps);
      ghost var body, upc := instructions, |instructions|;
      ok := CompileUpdate(u);
      if !ok { return; }
      Emit(Jump(loopStart));
      ghost var rest := UpdateCode(u, scopes, upc) + [Jump(loopStart)];
      assert instructions == body + rest;
      FinishLoop(loop.(continueJumps := []), exitJump, tg, t, seen, rest);
    }

    /** The condition of a for loop, when it has one. */
    method CompileExit(c: Option<Expr>) returns (ok: bool, exitJump: int)
      modifies this`instructions
      ensures ok == (c.None? || OkE(c.value, scopes))
      ensures ok ==> instructions == old(instructions) + ExitCode(c, scopes, |old(instructions)|, OPEN)
      ensures ok ==> |instructions| == |old(instructions)| + (if c.None? then 0 else LenCond(c.value, scopes))
      ensures ok ==> exitJump == if c.None? then -1 else |instructions| - 1
    {
      hide CodeCond, LenCond, OkE;
      ok, exitJump := true, -1;
      if c.Some? {
        CondLen(c.value, scopes, |instructions|, OPEN);
        ok, exitJump := CompileCondition(c.value);
      }
    }

    method CompileUpdate(u: Option<Expr>) returns (ok: bool)
      modifies this`instructions
      ensures ok == OptOk(u, scopes)
      ensures ok ==> instructions == old(instructions) + UpdateCode(u, scopes, |old(instructions)|)
    {
      hide CodeE, OkE;
      ok := true;
      if u.Some? {
        ok := CompileExpression(u.value);
        if ok { Emit(Instr.Pop); }
      }
    }

    method CompileIterable(it: Iterable) returns (ok: bool)
      modifies this`instructions
      ensures ok == OkIterable(it, scopes)
      ensures ok ==> instructions == old(instructions) + CodeIterable(it, scopes, |old(instructions)|)
    {
      hide CodeE, OkE, LenE;
      match it
      case Each(e) =>
        ok := CompileExpression(e);
        if ok { Emit(IterInit); }
      case Range(a, b, c, ex) =>
        ok := CompileRangeOperand(a, 0);
        if !ok { return; }
        ok := CompileOptional(b);
        if !ok { return; }
        ok := CompileRangeOperand(c, 1);
        if !ok { return; }
        Emit(ForRangeIter(ex));
    }

    method CompileRangeOperand(e: Option<Expr>, default: int) returns (ok: bool)
      modifies this`instructions
      ensures ok == OptOk(e, scopes)
      ensures ok ==> instructions == old(instructions) +
                       if e.None? then [Const(Int(default))] else CodeE(e.value, scopes, |old(instructions)|)
    {
      hide CodeE, OkE;
      ok := true;
      if e.None? { Emit(Const(Int(default))); } else { ok := CompileExpression(e.value); }
    }

    method CompileForIn(s: Stmt, ghost tg: seq<Target>) returns (ok: bool)
      requires s.ForIn? && Valid(tg)
      modifies this
      ensures ok == LayS(s, old(Cx())).ok
      ensures ok ==> Emitted(tg, CodeS(s, old(Cx()), tg, |old(instructions)|), LayS(s, old(Cx())))
      decreases Size(s) + FinSize(finalizers), 2
    {
      hide Anchored, Fill, Tidy, Longer, Holes, Aims, Depths, LayBlock, CodeBlock, LayS, CodeS, Fix, CodeIterable,
          LenIterable, OkIterable, Bind, Retarget, Listed, EachHead, EachFetch;
      var ForIn(x, it, b) := s;
      ghost var cx, was, seen, sc0 := Cx(), instructions, Seen(tg), scopes;
      ghost var end := ForInShape(x, it, b, cx, tg, |was|);
      ok := EmitEachSetup(x, it);
      if !ok { return; }
      var loopStart := |instructions|;
      var nextJump := EmitEachFetch();
      ghost var setup, bound := EachHead(cx, x, it, |was|), scopes;
      Unbound(sc0, x, Binding(Local(cx.next + 2), false));
      assert instructions == was + (setup + EachFetch(cx.next, OPEN));
      Grows(was, setup + EachFetch(cx.next, OPEN), loops, tg);
      HolesBelow(loops, |was|);
      ghost var n1, bc := |instructions|,
          CodeBlock(b, EachCtx(cx, x), tg + [Target(end + 1, loopStart)], |instructions|);
      ok := CompileEachBody(b, loopStart, nextJump, tg, end, seen + (setup + EachFetch(cx.next, OPEN)) + bc);
      if !ok { return; }
      LongerDown(old(loops), loops, n1, |was|);
      EachMid(seen, setup, cx.next, bc, loopStart, end);
      ForInWhole(x, it, b, cx, tg, |was|, seen, end);
      scopes := scopes[..|scopes| - 1];
    }

    /** The body of a for-in loop, the jump back and the two ways out. */
    method CompileEachBody(b: Stmts, loopStart: nat, nextJump: nat, ghost tg: seq<Target>, ghost end: int,
            ghost seen: seq<Instr>)
      returns (ok: bool)
      requires Valid(tg) && locals >= 3 && nextJump < |instructions| && nextJump !in Holes(loops)
      requires
        var cx := InLoop(Cx(), Depth(finalizers)).(fins :=
            On(finalizers, Fin(None, false, Some(locals - 2), None, 0, 0)));
        end == |instructions| + LayBlock(b, cx).len + 1 &&
        seen == Seen(tg) + CodeBlock(b, cx, tg + [Target(end + 1, loopStart)], |instructions|)
      modifies this
      ensures
        var cx := InLoop(old(Cx()), Depth(old(finalizers))).(fins :=
            On(old(finalizers), Fin(None, false, Some(old(locals) - 2), None, 0, 0)));
        var raw := seen + [Jump(loopStart)];
        var l := LayBlock(b, cx);
        && ok == l.ok
        && (ok ==>
              && Valid(tg) && finalizers == old(finalizers) && Longer(old(loops), loops, |old(instructions)|)
              && scopes == old(scopes) && locals == l.next
              && Seen(tg) == raw[nextJump := Retarget(raw[nextJump], end)] + [IterClose(old(locals) - 2)])
      decreases BlockSize(b) + FinSize(finalizers) + 1, 3
    {
      hide Fill, Tidy, Longer, Holes, Aims, Depths, LayBlock, CodeBlock, Fix, Retarget, Listed;
      var iterSlot: nat := locals - 2;
      ghost var t, n1 := Target(end + 1, loopStart), |instructions|;
      finalizers := On(finalizers, Fin(None, false, Some(iterSlot), None, 0, 0));
      var loop;
      ok, loop := CompileLoopBody(b, loopStart, Depth(finalizers) - 1, tg, t);
      if !ok { return; }
      finalizers := finalizers.rest;
      ghost var body := instructions;
      Emit(Jump(loopStart));
      ghost var raw := instructions;
      HolesLonger(old(loops), loops, n1);
      Grows(body, [Jump(loopStart)], loops + [loop], tg + [t]);
      HolesOne(loops, loop);
      SeenPatch(raw, loops + [loop], tg + [t], nextJump, end);
      PatchJump(nextJump);
      ghost var patched := instructions;
      Emit(IterClose(iterSlot));
      assert instructions[..|patched|] == patched && instructions[|patched|..] == [IterClose(iterSlot)];
      ghost var whole := seen + [Jump(loopStart)];
      FinishLoop(loop, -1, tg, t, whole[nextJump := Retarget(whole[nextJump], end)], [IterClose(iterSlot)]);
    }

    method EmitEachFetch() returns (nextJump: nat)
      requires locals >= 3
      modifies this`instructions
      ensures instructions == old(instructions) + EachFetch(locals - 3, OPEN) && nextJump == |old(instructions)|
    {
      var valueSlot: nat, iterSlot: nat := locals - 3, locals - 2;
      nextJump := EmitJump(IterNext(OPEN, iterSlot, valueSlot));
      Emit(Get(Local(valueSlot)));
      Emit(Set(Local(locals - 1)));
      Emit(Instr.Pop);
    }

    /** Everything before the loop proper: the hidden slots and the loop variable. */
    method EmitEachSetup(x: string, it: Iterable) returns (ok: bool)
      requires |scopes| > 0
      modifies this`instructions, this`scopes, this`locals
      ensures ok == OkIterable(it, old(scopes) + [map[]])
      ensures ok ==> instructions == old(instructions) + EachHead(old(Cx()), x, it, |old(instructions)|)
      ensures ok ==>
          locals == old(locals) + 3
          && scopes == Bind(old(scopes) + [map[]], x, Binding(Local(old(locals) + 2), false))
    {
      hide CodeIterable, LenIterable, OkIterable, Bind, Depths;
      scopes := scopes + [map[]];
      Emit(Const(Null));
      var valueSlot := AllocateLocal();
      Emit(Define(Local(valueSlot)));
      ok := CompileIterable(it);
      if !ok { return; }
      var iterSlot := AllocateLocal();
      Emit(Define(Local(iterSlot)));
      Emit(Const(Null));
      var slot := DefineLocal(x, false);
      Emit(Define(Local(slot)));
    }

    // ----- leaving a block early

    method CompileSimple(s: Stmt, ghost tg: seq<Target>) returns (ok: bool)
      requires (s.Break? || s.Continue?) && Valid(tg)
      modifies this
      ensures ok == LayS(s, old(Cx())).ok
      ensures ok ==> Emitted(tg, CodeS(s, old(Cx()), tg, |old(instructions)|), LayS(s, old(Cx())))
      decreases Size(s) + FinSize(finalizers), 2
    {
      hide Anchored, Fill, Tidy, Longer, Holes, Aims, LayUnwind, CodeUnwind, Fix, Listed;
      if |loops| == 0 { return false; }
      ghost var n, was := |instructions|, loops;
      var depth := loops[|loops| - 1].finalizerDepth;
      ok := CompileActiveFinalizers(depth, s.Break?, tg);
      if !ok { return; }
      ghost var n1, now := |instructions|, loops;
      LongerDepths(was, loops, n, tg);
      LongerLen(was, loops, n);
      EmitLoopJump(s.Break?, tg);
      LongerTrans(was, now, loops, n, n1);
    }

    /** The jump that leaves or continues the innermost loop; listed with it when the place
        it goes to is not known yet. */
    method EmitLoopJump(isBreak: bool, ghost tg: seq<Target>)
      requires Valid(tg) && |loops| > 0
      modifies this`instructions, this`loops
      ensures Emitted(tg, [Jump(if isBreak then TopTarget(tg).brk else TopTarget(tg).cnt)],
          Lay(1, scopes, locals, true))
    {
      hide Anchored, Fill, Tidy, Longer, Holes, Fix, Listed, Aims;
      var current := |loops| - 1;
      ghost var n, was := |instructions|, loops;
      AimsLast(loops, tg);
      if !isBreak && loops[current].continueTarget >= 0 {
        Grows(instructions, [Jump(loops[current].continueTarget)], loops, tg);
        Emit(Jump(loops[current].continueTarget));
      } else {
        ghost var init, l := loops[..current], loops[current];
        assert loops == init + [l] && tg == tg[..current] + [tg[current]];
        FillJump(instructions, init, l, tg[..current], tg[current], isBreak);
        var jump := EmitJump(Jump(OPEN));
        loops := loops[current := ListJump(loops[current], jump, isBreak)];
        assert loops == init + [ListJump(l, jump, isBreak)];
        LongerDepths(was, loops, n, tg);
      }
    }

    /** compileActiveFinalizers: the finalizers above depth, innermost first. A finalizer
        cannot re-enter itself, so each is compiled with only the outer ones in force. */
    method CompileActiveFinalizers(depth: nat, iters: bool, ghost tg: seq<Target>) returns (ok: bool)
      requires Valid(tg)
      modifies this
      ensures ok == LayUnwind(old(finalizers), depth, iters, old(scopes), old(locals), Depths(old(loops))).ok
      ensures ok ==>
        var l := LayUnwind(old(finalizers), depth, iters, old(scopes), old(locals), Depths(old(loops)));
        var code := CodeUnwind(old(finalizers), depth, iters, old(scopes), old(locals), Depths(old(loops)), tg,
            |old(instructions)|);
        Emitted(tg, code, l.(sc := old(scopes)))
      decreases FinSize(finalizers), 3
    {
      hide Fill, Tidy, Longer, Holes, Aims, Depths, LayUnwind, CodeUnwind, LayFin, CodeFin, Fix;
      var saved := finalizers;
      var rest := saved;
      ghost var n0, depths, sc := |instructions|, Depths(loops), scopes;
      ghost var whole := CodeUnwind(saved, depth, iters, sc, locals, depths, tg, n0);
      ghost var lay := LayUnwind(saved, depth, iters, sc, locals, depths);
      LongerSelf(loops, n0);
      while Depth(rest) > depth
        invariant Valid(tg) && finalizers == rest && scopes == sc && Depths(loops) == depths
            && FinSize(rest) <= FinSize(saved)
        invariant Longer(old(loops), loops, n0) && |instructions| >= n0
        invariant Seen(tg) + CodeUnwind(rest, depth, iters, sc, locals, depths, tg, |instructions|) ==
            old(Seen(tg)) + whole
        invariant LayUnwind(rest, depth, iters, sc, locals, depths).ok == lay.ok
        invariant LayUnwind(rest, depth, iters, sc, locals, depths).next == lay.next
        decreases Depth(rest)
      {
        ghost var n, was, seen, next := |instructions|, loops, Seen(tg), locals;
        UnwindStep(rest, depth, iters, sc, locals, depths, tg, n);
        finalizers := rest.rest;
        ok := CompileFinalizer(rest.top, iters, tg);
        if !ok { return; }
        LongerDepths(was, loops, n, tg);
        LongerTrans(old(loops), was, loops, n0, n);
        ghost var fc, rc := CodeFin(rest.top, rest.rest, iters, sc, next, depths, tg, n),
                            CodeUnwind(rest.rest, depth, iters, sc, locals, depths, tg, |instructions|);
        assert seen + (fc + rc) == seen + fc + rc;
        rest := rest.rest;
      }
      UnwindDone(rest, depth, iters, sc, locals, depths, tg, |instructions|);
      assert Seen(tg) + [] == Seen(tg);
      finalizers := saved;
      ok := true;
    }

    /** One finalizer; its finally block sees the scopes and loops of its try statement. */
    method CompileFinalizer(f: Fin, iters: bool, ghost tg: seq<Target>) returns (ok: bool)
      requires Valid(tg) && (f.body.Some? ==> f.scopes > 0)
      modifies this
      ensures ok == LayFin(f, old(finalizers), iters, old(scopes), old(locals), Depths(old(loops))).ok
      ensures ok ==>
        var l := LayFin(f, old(finalizers), iters, old(scopes), old(locals), Depths(old(loops)));
        Emitted(tg, CodeFin(f, old(finalizers), iters, old(scopes), old(locals), Depths(old(loops)), tg,
            |old(instructions)|), l)
      decreases FinSize(finalizers) + 1 + (if f.body.Some? then BlockSize(f.body.value) else 0), 1
    {
      hide Anchored, Fill, Tidy, Longer, Holes, Aims, Depths, LayFinally, CodeFinally, Fix, OwnCode;
      ghost var was, seen := instructions, Seen(tg);
      OwnLen(f, iters);
      EmitOwn(f, iters);
      ghost var own := OwnCode(f, iters);
      Grows(was, own, loops, tg);
      ghost var n1, now := |instructions|, loops;
      ok := CompileFinallyUnder(f, tg);
      if !ok { return; }
      LongerDown(now, loops, n1, |was|);
      ghost var bc := CodeFinally(f.body, FinCtx(f, finalizers, scopes, old(locals), Depths(now)), Take(tg, f.loops),
          n1);
      assert seen + own + bc == seen + (own + bc);
    }

    method CompileFinallyUnder(f: Fin, ghost tg: seq<Target>) returns (ok: bool)
      requires Valid(tg) && (f.body.Some? ==> f.scopes > 0)
      modifies this
      ensures ok == LayFinally(f.body, FinCtx(f, old(finalizers), old(scopes), old(locals), Depths(old(loops)))).ok
      ensures ok ==>
        var cx := FinCtx(f, old(finalizers), old(scopes), old(locals), Depths(old(loops)));
        Emitted(tg, CodeFinally(f.body, cx, Take(tg, f.loops), |old(instructions)|),
            LayFinally(f.body, cx).(sc := old(scopes)))
      decreases FinSize(finalizers) + 1 + (if f.body.Some? then BlockSize(f.body.value) else 0), 0
    {
      hide Anchored, Fill, Tidy, Longer, Holes, Aims, Depths, LayBlock, CodeBlock, Fix;
      ghost var n1, mid := |instructions|, instructions;
      ok := true;
      if f.body.Some? {
        var savedScopes, savedLoops := scopes, loops;
        var k := if f.loops <= |loops| then f.loops else |loops|;
        scopes := Take(scopes, f.scopes);
        loops := loops[..k];
        TakeLoops(savedLoops, k, f.loops, n1, tg);
        ghost var bc := CodeBlock(f.body.value, Cx(), tg[..k], n1);
        ok := CompileBlock(f.body.value, tg[..k]);
        if !ok { return; }
        ghost var now := loops;
        LongerLen(savedLoops[..k], now, n1);
        FillUnder(mid, instructions, savedLoops, now, k, tg, bc);
        scopes, loops := savedScopes, loops + savedLoops[k..];
        LongerDepths(savedLoops, loops, n1, tg);
      } else {
        LongerSelf(loops, n1);
        assert Seen(tg) + [] == Seen(tg);
      }
    }

    method EmitOwn(f: Fin, iters: bool)
      modifies this`instructions
      ensures instructions == old(instructions) + OwnCode(f, iters)
    {
      if f.iter.Some? && iters { Emit(IterClose(f.iter.value)); }
      if f.popHandler { Emit(PopHandler); }
      if f.withSlot.Some? {
        Emit(Get(Local(f.withSlot.value)));
        Emit(WithExit);
      }
    }

    method CompileReturn(s: Stmt, ghost tg: seq<Target>) returns (ok: bool)
      requires s.Return? && Valid(tg)
      modifies this
      ensures ok == LayS(s, old(Cx())).ok
      ensures ok ==> Emitted(tg, CodeS(s, old(Cx()), tg, |old(instructions)|), LayS(s, old(Cx())))
      decreases Size(s) + FinSize(finalizers), 2
    {
      hide Anchored, Fill, Tidy, Longer, Holes, Aims, Depths, LayUnwind, CodeUnwind, Fix, OptCode, OptLen, OptOk;
      ghost var was, cx := instructions, Cx();
      ok := CompileOptional(s.value);
      if !ok { return; }
      ghost var oc := OptCode(s.value, scopes, |was|);
      OptLenOf(s.value, scopes, |was|);
      if finalizers.Bottom? {
        Emit(Instr.Return);
        assert instructions == was + (oc + [Instr.Return]);
        Grows(was, oc + [Instr.Return], loops, tg);
      } else {
        var returnSlot := AllocateLocal();
        Emit(Define(Local(returnSlot)));
        ghost var head := oc + [Define(Local(returnSlot))];
        assert instructions == was + head;
        Grows(was, head, loops, tg);
        ghost var n1, now := |instructions|, loops;
        ok := CompileActiveFinalizers(0, true, tg);
        if !ok { return; }
        ghost var mid := instructions;
        Emit(Get(Local(returnSlot)));
        Emit(Instr.Return);
        assert instructions == mid + [Get(Local(returnSlot)), Instr.Return];
        Grows(mid, [Get(Local(returnSlot)), Instr.Return], loops, tg);
        LongerDepths(now, loops, n1, tg);
        LongerDown(now, loops, n1, |was|);
      }
    }

    /** compileFunctionWithPrologue, from the body on: loops and finalizers around the
        function are out of sight while it is compiled. */
    method CompileFunction(body: Stmts, ghost tg: seq<Target>) returns (ok: bool)
      requires Valid(tg)
      modifies this
      ensures ok == Placement.Placed(body, Placement.ScopeNames(old(scopes)), false)
      ensures ok == LayBlock(body, Ctx(old(scopes), old(locals), Bottom, [])).ok
      ensures ok ==> Valid(tg) && scopes == old(scopes) && loops == old(loops) && finalizers == old(finalizers)
      ensures ok ==> Seen(tg) == old(Seen(tg)) + CodeFunction(body, old(scopes), old(locals), |old(instructions)|)
      ensures ok && old(loops) == [] ==>
        instructions == old(instructions) + CodeFunction(body, old(scopes), old(locals), |old(instructions)|)
    {
      hide Fill, Tidy, Longer, Holes, Aims, LayBlock, CodeBlock, Fix, Placement.Placed, Placement.ScopeNames;
      Placement.Accepted(body, scopes, locals);
      ghost var was := instructions;
      var savedLoops, savedFinalizers := loops, finalizers;
      loops, finalizers := [], Bottom;
      TakeLoops(savedLoops, 0, 0, |was|, tg);
      ghost var cx := Ctx(scopes, locals, Bottom, []);
      ok := CompileBlock(body, []);
      if !ok { return; }
      ghost var bc, mid := CodeBlock(body, cx, [], |was|), instructions;
      NoLoops(was, mid, bc, loops);
      Emit(Const(Null));
      Emit(Instr.Return);
      ghost var code := CodeFunction(body, scopes, cx.next, |was|);
      assert instructions == was + code;
      loops, finalizers := savedLoops, savedFinalizers;
      Grows(was, code, loops, tg);
      if loops == [] { NoLoops(was, instructions, code, loops); }
    }

    // ----- with and try

    method CompileWith(s: Stmt, ghost tg: seq<Target>) returns (ok: bool)
      requires s.With? && Valid(tg)
      modifies this
      ensures ok == LayS(s, old(Cx())).ok
      ensures ok ==> Emitted(tg, CodeS(s, old(Cx()), tg, |old(instructions)|), LayS(s, old(Cx())))
      decreases Size(s) + FinSize(finalizers), 2
    {
      hide Fill, Tidy, Longer, Holes, Aims, Depths, LayBlock, CodeBlock, LayS, CodeS, Fix, CodeE, LenE, OkE, Bind,
          Retarget, WithHead, WithTail, WithCtx;
      var With(name, e, b) := s;
      ghost var cx, was, seen, sc0 := Cx(), instructions, Seen(tg), scopes;
      WithShape(name, e, b, cx, |was|);
      var hiddenSlot := locals;
      ok := EmitWithHead(name, e);
      if !ok { return; }
      ghost var head := WithHead(cx, name, e, |was|, OPEN);
      WithHeadLast(cx, name, e, |was|);
      WithScopes(cx, name);
      Grows(was, head, loops, tg);
      HolesBelow(loops, |was|);
      var handlerJump := |instructions| - 1;
      ghost var n1 := |instructions|;
      finalizers := On(finalizers, Fin(None, true, None, Some(hiddenSlot), 0, 0));
      ok := CompileBlock(b, tg);
      if !ok { return; }
      finalizers := finalizers.rest;
      ghost var bc, body, catch := CodeBlock(b, WithCtx(cx, name), tg, n1), instructions, |instructions| + 4;
      HolesLonger(old(loops), loops, n1);
      LongerDown(old(loops), loops, n1, |was|);
      SeenPatch(body, loops, tg, handlerJump, catch);
      EmitWithTail(hiddenSlot, handlerJump);
      Grows(body[handlerJump := Retarget(body[handlerJump], catch)], WithTail(hiddenSlot, catch), loops, tg);
      WithWhole(cx, name, e, b, tg, |was|, seen);
      scopes := scopes[..|scopes| - 1];
    }

    method EmitWithHead(name: Option<string>, e: Expr) returns (ok: bool)
      requires |scopes| > 0
      modifies this`instructions, this`scopes, this`locals
      ensures ok == OkE(e, old(scopes) + [map[]])
      ensures ok ==> instructions == old(instructions) + WithHead(old(Cx()), name, e, |old(instructions)|, OPEN)
      ensures ok ==> var cx1 := WithCtx(old(Cx()), name); scopes == cx1.sc && locals == cx1.next
    {
      hide CodeE, OkE, Bind, Depths;
      scopes := scopes + [map[]];
      ok := CompileExpression(e);
      if !ok { return; }
      EmitEnter(name);
    }

    /** The resource goes into a hidden slot, what it is entered as into the named one. */
    method EmitEnter(name: Option<string>)
      requires |scopes| > 0
      modifies this`instructions, this`scopes, this`locals
      ensures
        var h := old(locals);
        instructions == old(instructions) +
          [Define(Local(h)), Get(Local(h)), WithEnter, if name.None? then Instr.Pop else Define(Local(h + 1))]
              + [PushHandler(OPEN)]
      ensures locals == old(locals) + (if name.None? then 1 else 2)
      ensures scopes == if name.None? then old(scopes)
          else Bind(old(scopes), name.value, Binding(Local(old(locals) + 1), false))
    {
      hide Bind, Depths;
      var hiddenSlot := AllocateLocal();
      Emit(Define(Local(hiddenSlot)));
      Emit(Get(Local(hiddenSlot)));
      Emit(WithEnter);
      if name.Some? {
        var nameSlot := DefineLocal(name.value, false);
        Emit(Define(Local(nameSlot)));
      } else {
        Emit(Instr.Pop);
      }
      var handlerJump := EmitJump(PushHandler(OPEN));
    }

    method EmitWithTail(hiddenSlot: nat, handlerJump: nat)
      requires handlerJump < |instructions|
      modifies this`instructions
      ensures
        var catch := |old(instructions)| + 4;
        instructions == old(instructions[handlerJump := Retarget(instructions[handlerJump], catch)])
            + WithTail(hiddenSlot, catch)
    {
      hide Retarget;
      ghost var was := instructions;
      Emit(PopHandler);
      Emit(Get(Local(hiddenSlot)));
      Emit(WithExit);
      var normalJump := EmitJump(Jump(OPEN));
      PatchJump(handlerJump);
      ghost var patched := was[handlerJump := Retarget(was[handlerJump], |was| + 4)];
      assert instructions == patched + [PopHandler, Get(Local(hiddenSlot)), WithExit, Jump(OPEN)];
      Emit(Get(Local(hiddenSlot)));
      Emit(WithExit);
      Emit(Rethrow);
      ghost var a, b := patched + [PopHandler, Get(Local(hiddenSlot)), WithExit],
          [Get(Local(hiddenSlot)), WithExit, Rethrow];
      assert instructions == a + [Jump(OPEN)] + b;
      JumpMid(a, b, |instructions|);
      PatchJump(normalJump);
      assert a + [Jump(|was| + 7)] + b == patched + WithTail(hiddenSlot, |was| + 4);
    }

    method CompileTry(s: Stmt, ghost tg: seq<Target>) returns (ok: bool)
      requires s.Try? && Valid(tg)
      modifies this
      ensures ok == LayS(s, old(Cx())).ok
      ensures ok ==> Emitted(tg, CodeS(s, old(Cx()), tg, |old(instructions)|), LayS(s, old(Cx())))
      decreases Size(s) + FinSize(finalizers), 2
    {
      hide Anchored, Fill, Tidy, Longer, Holes, Aims, Depths, LayBlock, CodeBlock, LayS, CodeS, Fix, LayCatches,
          CodeCatches, LayFinally, CodeFinally, Patchable, TryCtx;
      var Try(b, cs, f) := s;
      ghost var cx, n0, seen := Cx(), |instructions|, Seen(tg);
      TryLays(b, cs, f, cx, n0);
      TryEmits(b, cs, f, cx, tg, n0);
      ghost var l1 := LayBlock(b, TryCtx(cx, f));
      ghost var cpc := n0 + 1 + l1.len + 2;
      ghost var l2 := LayCatches(cs, f, cx.(next := l1.next));
      ghost var l3 := LayFinally(f, cx.(next := l2.next));
      ghost var end := cpc + l2.len + l3.len + 1;
      var normalJump;
      ok, normalJump := CompileGuarded(b, f, tg);
      if !ok { return; }
      LongerDepths(old(loops), loops, n0, tg);
      ghost var arm := [PushHandler(cpc)] + CodeBlock(b, TryCtx(cx, f), tg, n0 + 1) + [PopHandler];
      FixNone(seen, end);
      FixOpen(seen, arm, [], end);
      OneJump(normalJump);
      assert Seen(tg) == seen + arm + [Jump(OPEN)];
      assert Fix(Seen(tg), [] + [normalJump], end) == seen + arm + [Jump(end)];
      ghost var n1, was1 := |instructions|, loops;
      ok := CompileHandlers(cs, f, tg, [] + [normalJump], end);
      if !ok { return; }
      LongerDepths(was1, loops, n1, tg);
      LongerTrans(old(loops), was1, loops, n0, n1);
      NoJumps();
      ghost var n3, was3 := |instructions|, loops;
      ok := CompileFinallyHere(f, tg, [], end);
      if !ok { return; }
      LongerTrans(old(loops), was3, loops, n0, n3);
      TryWhole(b, cs, f, cx, tg, n0, seen);
      assert Seen(tg) == seen + CodeS(s, cx, tg, n0);
    }

    /** The catch clauses and the finally block of an error that none of them takes; then
        the jumps of the other ways out are patched. */
    method CompileHandlers(cs: Catches, f: Option<Stmts>, ghost tg: seq<Target>, jumps: seq<nat>, ghost end: int)
      returns (ok: bool)
      requires Valid(tg) && Patchable(jumps)
      requires
        var l2 := LayCatches(cs, f, Cx());
        end == |instructions| + l2.len + LayFinally(f, Cx().(next := l2.next)).len + 1
      modifies this
      ensures
        var cx := old(Cx());
        var n := |old(instructions)|;
        var l2 := LayCatches(cs, f, cx);
        var cx3 := cx.(next := l2.next);
        var l3 := LayFinally(f, cx3);
        && ok == (l2.ok && l3.ok)
        && (ok ==>
              && Valid(tg) && finalizers == old(finalizers) && Longer(old(loops), loops, n)
              && scopes == old(scopes) && locals == l3.next && |instructions| == end
              && Seen(tg) == old(Fix(Seen(tg), jumps, end)) + CodeCatches(cs, f, cx, tg, n, end) +
                             CodeFinally(f, cx3, tg, n + l2.len) + [Rethrow])
      decreases CatchesSize(cs) + (if f.Some? then BlockSize(f.value) else 0) + FinSize(finalizers), 4
    {
      hide Anchored, Fill, Tidy, Longer, Holes, Aims, Depths, Fix, LayCatches, CodeCatches, LayFinally, CodeFinally,
          Patchable;
      ghost var n := |instructions|;
      var endJumps;
      ok, endJumps := CompileCatches(cs, f, tg, jumps, end);
      if !ok { return; }
      LongerDepths(old(loops), loops, n, tg);
      ghost var n2, was2 := |instructions|, loops;
      ok := CompileFinallyHere(f, tg, endJumps, end);
      if !ok { return; }
      LongerTrans(old(loops), was2, loops, n, n2);
      EmitRethrow(endJumps, tg, end);
      Listless(endJumps);
      FillFix(instructions, endJumps, end, loops, tg);
      PatchAll(endJumps);
    }

    lemma OneJump(p: nat)
      requires p < |instructions| && p !in Holes(loops)
      ensures Patchable([] + [p])
    {
      hide Holes;
    }

    method EmitRethrow(jumps: seq<nat>, ghost tg: seq<Target>, ghost end: int)
      requires Valid(tg) && Patchable(jumps)
      modifies this`instructions
      ensures Valid(tg) && Patchable(jumps) && |instructions| == |old(instructions)| + 1
      ensures Fix(Seen(tg), jumps, end) == old(Fix(Seen(tg), jumps, end)) + [Rethrow]
    {
      hide Anchored, Fill, Tidy, Holes, Aims, Fix;
      Grows(instructions, [Rethrow], loops, tg);
      FixLonger(Seen(tg), [Rethrow], jumps, end);
      Emit(Rethrow);
    }

    /** The guarded block, its handler and the jump taken when it ends normally. */
    method CompileGuarded(b: Stmts, f: Option<Stmts>, ghost tg: seq<Target>) returns (ok: bool, normalJump: nat)
      requires Valid(tg)
      modifies this
      ensures ok == LayBlock(b, TryCtx(old(Cx()), f)).ok
      ensures ok ==>
        var n := |old(instructions)|;
        var l := LayBlock(b, TryCtx(old(Cx()), f));
        && Emitted(tg, [PushHandler(n + 1 + l.len + 2)] + CodeBlock(b, TryCtx(old(Cx()), f), tg, n + 1) + [PopHandler]
            + [Jump(OPEN)],
                   l.(sc := old(scopes)))
        && normalJump == |instructions| - 1 && normalJump !in Holes(loops)
      decreases BlockSize(b) + FinSize(finalizers) + 1 + (if f.Some? then BlockSize(f.value) else 0), 2
    {
      hide Fill, Tidy, Longer, Holes, Aims, LayBlock, CodeBlock, Fix, Retarget;
      normalJump := 0;
      ghost var cx, was, seen := Cx(), instructions, Seen(tg);
      var handlerJump := EmitJump(PushHandler(OPEN));
      Grows(was, [PushHandler(OPEN)], loops, tg);
      HolesBelow(loops, |was|);
      ghost var n1 := |instructions|;
      finalizers := On(finalizers, Fin(f, true, None, None, |scopes|, |loops|));
      ok := CompileBlock(b, tg);
      if !ok { return; }
      finalizers := finalizers.rest;
      ghost var bc, body := CodeBlock(b, TryCtx(cx, f), tg, n1), instructions;
      HolesLonger(old(loops), loops, n1);
      LongerDown(old(loops), loops, n1, |was|);
      HolesBelow(loops, |body|);
      Emit(PopHandler);
      normalJump := EmitJump(Jump(OPEN));
      ghost var raw := instructions;
      assert raw == body + [PopHandler, Jump(OPEN)];
      Grows(body, [PopHandler, Jump(OPEN)], loops, tg);
      SeenPatch(raw, loops, tg, handlerJump, |raw|);
      PatchJump(handlerJump);
      GuardWhole(seen, bc, |raw|);
    }

    /** A finally block compiled where its try statement stands. */
    method CompileFinallyHere(f: Option<Stmts>, ghost tg: seq<Target>, ghost jumps: seq<nat>, ghost end: int)
      returns (ok: bool)
      requires Valid(tg) && Patchable(jumps)
      modifies this
      ensures ok == LayFinally(f, old(Cx())).ok
      ensures ok ==> Emitted(tg, CodeFinally(f, old(Cx()), tg, |old(instructions)|), LayFinally(f, old(Cx())))
      ensures ok ==>
          Fix(Seen(tg), jumps, end) == old(Fix(Seen(tg), jumps, end))
          + CodeFinally(f, old(Cx()), tg, |old(instructions)|)
      ensures ok ==> Patchable(jumps)
      decreases (if f.Some? then BlockSize(f.value) else 0) + FinSize(finalizers), 2
    {
      hide Anchored, Fill, Tidy, Longer, Holes, Aims, Depths, LayBlock, CodeBlock, Fix;
      ghost var n, seen := |instructions|, Seen(tg);
      ok := true;
      if f.Some? {
        ok := CompileBlock(f.value, tg);
        if !ok { return; }
        HolesLonger(old(loops), loops, n);
      } else {
        LongerSelf(loops, n);
        assert seen + [] == seen;
      }
      FixLonger(seen, CodeFinally(f, old(Cx()), tg, n), jumps, end);
    }

    method CompileCatches(cs: Catches, f: Option<Stmts>, ghost tg: seq<Target>, endJumps: seq<nat>, ghost end: int)
      returns (ok: bool, jumps: seq<nat>)
      requires Valid(tg) && Patchable(endJumps)
      modifies this
      ensures ok == LayCatches(cs, f, old(Cx())).ok
      ensures ok ==>
        var l := LayCatches(cs, f, old(Cx()));
        && Valid(tg) && finalizers == old(finalizers) && Longer(old(loops), loops, |old(instructions)|)
        && scopes == l.sc && locals == l.next && |instructions| == |old(instructions)| + l.len && Patchable(jumps)
        && Fix(Seen(tg), jumps, end) == old(Fix(Seen(tg), endJumps, end))
            + CodeCatches(cs, f, old(Cx()), tg, |old(instructions)|, end)
      decreases CatchesSize(cs) + (if f.Some? then BlockSize(f.value) else 0) + FinSize(finalizers), 3
    {
      hide Anchored, Fill, Tidy, Longer, Holes, Aims, Depths, LayList, CodeList, LayCatches, CodeCatches, Fix,
          Patchable, CatchCtx;
      ghost var cx0, n0 := Cx(), |instructions|;
      jumps := endJumps;
      var rest := cs;
      LongerSelf(loops, n0);
      while rest.Catch?
        invariant Valid(tg) && finalizers == cx0.fins && scopes == cx0.sc && Depths(loops) == cx0.loops
        invariant Longer(old(loops), loops, n0) && |instructions| >= n0 && Patchable(jumps)
        invariant Fix(Seen(tg), jumps, end) + CodeCatches(rest, f, Cx(), tg, |instructions|, end) ==
                  old(Fix(Seen(tg), endJumps, end)) + CodeCatches(cs, f, cx0, tg, n0, end)
        invariant Rejoins(LayCatches(rest, f, Cx()), LayCatches(cs, f, cx0))
        invariant |instructions| + LayCatches(rest, f, Cx()).len == n0 + LayCatches(cs, f, cx0).len
        decreases CatchesSize(rest)
      {
        ghost var cx, n, seen, was := Cx(), |instructions|, Fix(Seen(tg), jumps, end), loops;
        CatchIs(rest.kind, rest.name, rest.body, rest.rest, f, cx, tg, n, end);
        ok, jumps := CompileCatch(rest.kind, rest.name, rest.body, f, tg, jumps, end);
        if !ok { return; }
        LongerDepths(was, loops, n, tg);
        LongerTrans(old(loops), was, loops, n0, n);
        ghost var clause := CatchCode(rest.kind, rest.name, rest.body, f, cx, tg, n, end);
        ghost var cc := CodeCatches(rest.rest, f, Cx(), tg, |instructions|, end);
        assert seen + (clause + cc) == seen + clause + cc;
        rest := rest.rest;
      }
      CatchNone(f, Cx(), tg, |instructions|, end);
      ghost var filled := Fix(Seen(tg), jumps, end);
      assert filled + [] == filled;
      ok := true;
    }

    method CompileCatch(kind: Option<string>, name: Option<string>, b: Stmts, f: Option<Stmts>, ghost tg: seq<Target>,
            endJumps: seq<nat>,
                        ghost end: int)
      returns (ok: bool, jumps: seq<nat>)
      requires Valid(tg) && Patchable(endJumps)
      modifies this
      ensures ok == LayList(b, CatchCtx(old(Cx()), name, f)).ok
      ensures ok ==>
        var l := LayList(b, CatchCtx(old(Cx()), name, f));
        && Valid(tg) && finalizers == old(finalizers) && Longer(old(loops), loops, |old(instructions)|)
        && scopes == old(scopes) && locals == l.next && |instructions| == |old(instructions)| + l.len + 2
            && Patchable(jumps)
        && Fix(Seen(tg), jumps, end) == old(Fix(Seen(tg), endJumps, end)) +
             CatchCode(kind, name, b, f, old(Cx()), tg, |old(instructions)|, end)
      decreases 1 + BlockSize(b) + (if f.Some? then BlockSize(f.value) else 0) + FinSize(finalizers), 2
    {
      hide Fill, Tidy, Longer, Holes, Aims, LayList, CodeList, Fix, Retarget, CatchCtx, Anchored, Depths;
      jumps := endJumps;
      ghost var cx, n, seen := Cx(), |instructions|, Seen(tg);
      ghost var op := CatchClause(OPEN, kind, if name.None? then None else Some(cx.next));
      ghost var bc := CodeList(b, CatchCtx(cx, name, f), tg, n + 1);
      var nextCatchJump;
      ok, nextCatchJump := CompileCatchBody(kind, name, b, f, tg);
      if !ok { return; }
      ghost var body := instructions;
      HolesLonger(old(loops), loops, n);
      HolesBelow(loops, |body|);
      var endJump := EmitJump(Jump(OPEN));
      ghost var raw := instructions;
      Grows(body, [Jump(OPEN)], loops, tg);
      SeenPatch(raw, loops, tg, nextCatchJump, |raw|);
      PatchJump(nextCatchJump);
      CatchWhole(seen, op, bc, endJumps, |raw|, end);
      jumps := endJumps + [endJump];
    }

    /** The clause, its target still open, and its body, with the finalizer around it. */
    method CompileCatchBody(kind: Option<string>, name: Option<string>, b: Stmts, f: Option<Stmts>,
            ghost tg: seq<Target>)
      returns (ok: bool, nextCatchJump: nat)
      requires Valid(tg)
      modifies this
      ensures ok == LayList(b, CatchCtx(old(Cx()), name, f)).ok
      ensures ok ==>
        var l := LayList(b, CatchCtx(old(Cx()), name, f));
        var n := |old(instructions)|;
        && Valid(tg) && finalizers == old(finalizers) && Longer(old(loops), loops, n)
        && scopes == old(scopes) && locals == l.next && |instructions| == n + 1 + l.len && nextCatchJump == n
            && n !in Holes(loops)
        && Seen(tg) == old(Seen(tg)) + [CatchClause(OPEN, kind, if name.None? then None else Some(old(locals)))] +
             CodeList(b, CatchCtx(old(Cx()), name, f), tg, n + 1)
      decreases 1 + BlockSize(b) + (if f.Some? then BlockSize(f.value) else 0) + FinSize(finalizers), 1
    {
      hide Fill, Tidy, Longer, Holes, Aims, LayList, CodeList, Fix, Retarget;
      ghost var cx, was := Cx(), instructions;
      ghost var cx1 := CatchCtx(cx, name, f);
      nextCatchJump := EmitCatchHead(kind, name);
      ghost var op := CatchClause(OPEN, kind, if name.None? then None else Some(cx.next));
      Grows(was, [op], loops, tg);
      HolesBelow(loops, |was|);
      ghost var n1 := |instructions|;
      finalizers := On(finalizers, Fin(f, false, None, None, |scopes|, |loops|));
      ListScopes(b, cx1);
      ok := CompileStatements(b, tg);
      if !ok { return; }
      finalizers := finalizers.rest;
      scopes := scopes[..|scopes| - 1];
      assert scopes == cx.sc;
      HolesLonger(old(loops), loops, n1);
      LongerDown(old(loops), loops, n1, |was|);
    }

    method EmitCatchHead(kind: Option<string>, name: Option<string>) returns (nextCatchJump: nat)
      requires |scopes| > 0
      modifies this`instructions, this`scopes, this`locals
      ensures nextCatchJump == |old(instructions)|
      ensures instructions == old(instructions)
          + [CatchClause(OPEN, kind, if name.None? then None else Some(old(locals)))]
      ensures var cx1 := CatchCtx(old(Cx()), name, None); scopes == cx1.sc && locals == cx1.next
    {
      hide Depths;
      nextCatchJump := EmitJump(CatchClause(OPEN, kind, None));
      scopes := scopes + [map[]];
      if name.Some? {
        ghost var sc0 := scopes;
        var slot := DefineLocal(name.value, false);
        instructions := instructions[nextCatchJump := CatchClause(OPEN, kind, Some(slot))];
        assert map[][name.value := Binding(Local(slot), false)] == map[name.value := Binding(Local(slot), false)];
      }
    }
  }

  // ----- facts about the code of expressions

  lemma SelfOk(x: string, f: Expr, sc: Scopes)
    requires SelfForm(x, f, sc).Some? && Resolve(sc, x).Some?
    ensures f.Bin? && OkE(f, sc)
  {
    assert OkE(f.l, sc) && OkE(f.r, sc);
  }

  lemma FoldOk(op: BinOp, l: Expr, r: Expr, sc: Scopes)
    requires Fold(op, l, r).Some?
    ensures OkE(l, sc) && OkE(r, sc)
  {}

  lemma FuseOk(c: Expr, sc: Scopes, pc: int)
    requires FuseMod(c, sc).Some?
    ensures OkE(c, sc)
    ensures var m := FuseMod(c, sc).value; CodeCond(c, sc, pc, OPEN) == [JumpMod(m.2, OPEN, m.0, m.1)]
  {
    var m := if IsZero(c.r) then c.l else c.r;
    assert OkE(m.l, sc) && OkE(m.r, sc);
    assert OkE(m, sc);
  }

  /** The condition's jump is its last instruction. */
  lemma CondPatched(c: Expr, sc: Scopes, pc: int, no: int)
    ensures
      var cc := CodeCond(c, sc, pc, OPEN);
      cc[|cc| - 1 := Retarget(cc[|cc| - 1], no)] == CodeCond(c, sc, pc, no)
  {
    hide CodeE, LenE;
  }

  lemma MidLast(a: seq<Instr>, frag: seq<Instr>, b: seq<Instr>, target: int)
    requires |frag| > 0
    ensures
      var n := |a| + |frag| - 1;
      (a + frag + b)[n := Retarget(frag[|frag| - 1], target)] ==
          a + frag[|frag| - 1 := Retarget(frag[|frag| - 1], target)] + b
  {}

  lemma FusedParts(c: Expr, sc: Scopes, pc: int)
    requires FuseMod(c, sc).None? && FusesCompare(c, sc)
    ensures c.Bin? && OkE(c, sc) == (OkE(c.l, sc) && OkE(c.r, sc))
    ensures CodeCond(c, sc, pc, OPEN) == CodeE(c.l, sc, pc) + CodeE(c.r, sc, pc + LenE(c.l, sc))
        + [JumpUnless(c.op, OPEN)]
    ensures |CodeE(c.l, sc, pc)| == LenE(c.l, sc)
  {
    hide CodeE, LenE, StaticInt, FuseMod;
  }

  lemma CondLen(c: Expr, sc: Scopes, pc: int, no: int)
    ensures |CodeCond(c, sc, pc, OPEN)| == |CodeCond(c, sc, pc, no)| == LenCond(c, sc) >= 1
  {
    var one, two := CodeCond(c, sc, pc, OPEN), CodeCond(c, sc, pc, no);
    assert |one| == |two|;
  }

  lemma JumpMid(a: seq<Instr>, b: seq<Instr>, target: int)
    ensures (a + [Jump(OPEN)] + b)[|a| := Retarget(Jump(OPEN), target)] == a + [Jump(target)] + b
  {}

  /** The open jumps of a conjunction, patched in the order the compiler patches them. */
  lemma AndPatched(was: seq<Instr>, lc: seq<Instr>, rc: seq<Instr>, s0: seq<Instr>, s1: seq<Instr>, s2: seq<Instr>,
          s3: seq<Instr>, s4: seq<Instr>)
    requires s0 == was + lc + [JumpIfFalse(OPEN)] + rc
    requires s1 == s0 + [JumpIfFalse(OPEN)] + [Const(Bool(true))] + [Jump(OPEN)]
    requires s2 == s1[|was| + |lc| := Retarget(s1[|was| + |lc|], |s1|)]
    requires s3 == s2[|s0| := Retarget(s2[|s0|], |s2|)]
    requires s4 == (s3 + [Const(Bool(false))])[|s0| + 2 := Retarget((s3 + [Const(Bool(false))])[|s0| + 2], |s3| + 1)]
    ensures s4 == was + (lc + [JumpIfFalse(|s1|)] + rc
        + [JumpIfFalse(|s1|), Const(Bool(true)), Jump(|s1| + 1), Const(Bool(false))])
  {}

  lemma OrPatched(was: seq<Instr>, lc: seq<Instr>, rc: seq<Instr>, s1: seq<Instr>, s2: seq<Instr>, s3: seq<Instr>,
          s4: seq<Instr>)
    requires s1 == was + lc + [JumpIfFalse(|was| + |lc| + 3), Const(Bool(true)), Jump(OPEN)] + rc
    requires s2 == s1 + [JumpIfFalse(|s1| + 3), Const(Bool(true)), Jump(OPEN), Const(Bool(false))]
    requires s3 == s2[|was| + |lc| + 2 := Retarget(s2[|was| + |lc| + 2], |s2|)]
    requires s4 == s3[|s1| + 2 := Retarget(s3[|s1| + 2], |s3|)]
    ensures s4 == was + (lc + [JumpIfFalse(|was| + |lc| + 3), Const(Bool(true)), Jump(|s2|)] + rc +
                         [JumpIfFalse(|s1| + 3), Const(Bool(true)), Jump(|s2|), Const(Bool(false))])
  {}

  function InLoop(cx: Ctx, depth: nat): Ctx { cx.(loops := cx.loops + [depth]) }

  /** Finally blocks know the scopes they were written in. */
  ghost predicate Anchored(fins: Fins) {
    match fins case Bottom => true case On(rest, f) => (f.body.Some? ==> f.scopes > 0) && Anchored(rest)
  }

  lemma UnwindDone(fins: Fins, depth: nat, iters: bool, sc: Scopes, next: nat, loops: seq<nat>, tg: seq<Target>,
          pc: int)
    requires Depth(fins) <= depth
    ensures LayUnwind(fins, depth, iters, sc, next, loops) == Lay(0, sc, next, true)
    ensures CodeUnwind(fins, depth, iters, sc, next, loops, tg, pc) == []
  {
    hide CodeFin, LayFin;
  }

  /** Hiding the inner loops. */
  lemma TakeLoops(loops: seq<LoopContext>, k: nat, m: nat, n: nat, tg: seq<Target>)
    requires k == (if m <= |loops| then m else |loops|) && Tidy(loops, n) && Aims(loops, tg)
    ensures Tidy(loops[..k], n) && Aims(loops[..k], tg[..k])
    ensures Depths(loops[..k]) == Take(Depths(loops), m) && tg[..k] == Take(tg, m)
  {
    TidyPrefix(loops, k, n);
  }

  lemma {:induction false} TidyPrefix(loops: seq<LoopContext>, k: nat, n: nat)
    requires k <= |loops| && Tidy(loops, n)
    ensures Tidy(loops[..k], n)
    decreases |loops|
  {
    if k == |loops| {
      assert loops[..k] == loops;
    } else {
      TidyPrefix(loops[..|loops| - 1], k, n);
      assert loops[..|loops| - 1][..k] == loops[..k];
    }
  }

  lemma GuardWhole(seen: seq<Instr>, bc: seq<Instr>, next: int)
    ensures
      var raw := seen + [PushHandler(OPEN)] + bc + [PopHandler, Jump(OPEN)];
      raw[|seen| := Retarget(raw[|seen|], next)] == seen + ([PushHandler(next)] + bc + [PopHandler] + [Jump(OPEN)])
  {
    var rest := bc + [PopHandler, Jump(OPEN)];
    assert seen + [PushHandler(OPEN)] + bc + [PopHandler, Jump(OPEN)] == seen + [PushHandler(OPEN)] + rest;
    Mid(seen, PushHandler(OPEN), rest, next);
    assert seen + [PushHandler(next)] + rest == seen + ([PushHandler(next)] + bc + [PopHandler] + [Jump(OPEN)]);
  }

  /** One catch clause. */
  function CatchCode(kind: Option<string>, name: Option<string>, b: Stmts, f: Option<Stmts>, cx: Ctx, tg: seq<Target>,
          pc: int, end: int)
    : seq<Instr>
  {
    var cx1 := CatchCtx(cx, name, f);
    var npc := pc + 1 + LayList(b, cx1).len + 1;
    [CatchClause(npc, kind, if name.None? then None else Some(cx.next))] + CodeList(b, cx1, tg, pc + 1) + [Jump(end)]
  }

  lemma CatchNone(f: Option<Stmts>, cx: Ctx, tg: seq<Target>, pc: int, end: int)
    ensures CodeCatches(NoCatch, f, cx, tg, pc, end) == [] && LayCatches(NoCatch, f, cx) == Lay(0, cx.sc, cx.next, true)
  {}

  lemma CatchWhole(seen: seq<Instr>, op: Instr, bc: seq<Instr>, jumps: seq<nat>, next: int, end: int)
    requires op.CatchClause? && forall p :: p in jumps ==> p < |seen|
    ensures
      var raw := seen + [op] + bc + [Jump(OPEN)];
      Fix(raw[|seen| := Retarget(raw[|seen|], next)], jumps + [|seen| + 1 + |bc|], end) ==
        Fix(seen, jumps, end) + ([CatchClause(next, op.kind, op.bind)] + bc + [Jump(end)])
  {
    hide Fix;
    var raw := seen + [op] + bc + [Jump(OPEN)];
    var clause := [CatchClause(next, op.kind, op.bind)];
    assert raw == seen + [op] + (bc + [Jump(OPEN)]);
    Mid(seen, op, bc + [Jump(OPEN)], next);
    assert seen + clause + (bc + [Jump(OPEN)]) == seen + (clause + bc) + [Jump(OPEN)];
    FixOpen(seen, clause + bc, jumps, end);
    assert Fix(seen, jumps, end) + (clause + bc) + [Jump(end)] == Fix(seen, jumps, end) + (clause + bc + [Jump(end)]);
  }

  lemma TryWhole(b: Stmts, cs: Catches, f: Option<Stmts>, cx: Ctx, tg: seq<Target>, pc: int, seen: seq<Instr>)
    ensures
      var l1 := LayBlock(b, TryCtx(cx, f));
      var cpc := pc + 1 + l1.len + 2;
      var cx2 := cx.(next := l1.next);
      var l2 := LayCatches(cs, f, cx2);
      var cx3 := cx.(next := l2.next);
      var l3 := LayFinally(f, cx3);
      var end := cpc + l2.len + l3.len + 1;
      seen + ([PushHandler(cpc)] + CodeBlock(b, TryCtx(cx, f), tg, pc + 1) + [PopHandler]) + [Jump(end)] +
        CodeCatches(cs, f, cx2, tg, cpc, end) + CodeFinally(f, cx3, tg, cpc + l2.len) + [Rethrow] +
        CodeFinally(f, cx.(next := l3.next), tg, end) ==
      seen + CodeS(Try(b, cs, f), cx, tg, pc)
  {
    hide LayS, CodeS, LayBlock, CodeBlock, LayCatches, CodeCatches, LayFinally, CodeFinally, TryCtx;
    TryLays(b, cs, f, cx, pc);
    TryEmits(b, cs, f, cx, tg, pc);
  }

  lemma NoLoops(was: seq<Instr>, now: seq<Instr>, frag: seq<Instr>, loops: seq<LoopContext>)
    requires Longer([], loops, |was|)
    ensures loops == []
    ensures Fill(now, loops, []) == Fill(was, [], []) + frag <==> now == was + frag
  {}

  /** The pieces of a with statement around its body. */
  function WithHead(cx: Ctx, name: Option<string>, e: Expr, pc: int, catch: int): seq<Instr> {
    CodeE(e, cx.sc + [map[]], pc) +
    [Define(Local(cx.next)), Get(Local(cx.next)), WithEnter, if name.None? then Pop else Define(Local(cx.next + 1))] +
    [PushHandler(catch)]
  }

  function WithTail(h: nat, catch: int): seq<Instr> {
    [PopHandler, Get(Local(h)), WithExit, Jump(catch + 3), Get(Local(h)), WithExit, Rethrow]
  }

  lemma WithHeadLast(cx: Ctx, name: Option<string>, e: Expr, pc: int)
    ensures |WithHead(cx, name, e, pc, OPEN)| == LenE(e, cx.sc + [map[]]) + 5
  {
    hide CodeE, LenE;
  }

  lemma WithScopes(cx: Ctx, name: Option<string>)
    ensures var sc := WithCtx(cx, name).sc; |sc| == |cx.sc| + 1 && sc[..|cx.sc|] == cx.sc
  {
    if name.Some? { Unbound(cx.sc, name.value, Binding(Local(cx.next + 1), false)); }
  }

  lemma WithShape(name: Option<string>, e: Expr, b: Stmts, cx: Ctx, pc: int)
    ensures
      var l := LayBlock(b, WithCtx(cx, name));
      && LayS(Stmt.With(name, e, b), cx).next == l.next && LayS(Stmt.With(name, e, b), cx).sc == cx.sc
      && LayS(Stmt.With(name, e, b), cx).ok == (OkE(e, cx.sc + [map[]]) && l.ok)
      && WithCtx(cx, name).fins == On(cx.fins, Fin(None, true, None, Some(cx.next), 0, 0))
          && WithCtx(cx, name).loops == cx.loops
      && |WithHead(cx, name, e, pc, OPEN)| == LenE(e, cx.sc + [map[]]) + 5
  {
    hide CodeE, LenE, OkE, LayBlock, LayS;
    WithEmits(name, e, b, cx, [], pc);
  }

  lemma WithWhole(cx: Ctx, name: Option<string>, e: Expr, b: Stmts, tg: seq<Target>, pc: int, seen: seq<Instr>)
    ensures
      var head := WithHead(cx, name, e, pc, OPEN);
      var bc := CodeBlock(b, WithCtx(cx, name), tg, pc + |head|);
      var raw := seen + head + bc;
      var n := |seen| + |head| - 1;
      var catch := pc + |head| + |bc| + 4;
      n >= 0 && raw[n := Retarget(raw[n], catch)] + WithTail(cx.next, catch) ==
          seen + CodeS(Stmt.With(name, e, b), cx, tg, pc)
  {
    hide CodeE, LenE, OkE, CodeBlock, LayBlock, WithCtx, CodeS, LayS;
    WithEmits(name, e, b, cx, tg, pc);
    var head := WithHead(cx, name, e, pc, OPEN);
    var bc := CodeBlock(b, WithCtx(cx, name), tg, pc + |head|);
    WithPatched(cx, name, e, pc, seen, bc, pc + |head| + |bc| + 4);
  }

  lemma WithPatched(cx: Ctx, name: Option<string>, e: Expr, pc: int, seen: seq<Instr>, bc: seq<Instr>, catch: int)
    ensures
      var head := WithHead(cx, name, e, pc, OPEN);
      var raw := seen + head + bc;
      var n := |seen| + |head| - 1;
      var h := cx.next;
      raw[n := Retarget(raw[n], catch)] + WithTail(h, catch) ==
        seen + (CodeE(e, cx.sc + [map[]], pc) +
                [Define(Local(h)), Get(Local(h)), WithEnter, if name.None? then Pop else Define(Local(h + 1))] +
                [PushHandler(catch)] + bc + [PopHandler, Get(Local(h)), WithExit, Jump(catch + 3)] +
                [Get(Local(h)), WithExit, Rethrow])
  {
    hide CodeE;
    var head := WithHead(cx, name, e, pc, OPEN);
    var raw := seen + head + bc;
    var init := seen + head[..|head| - 1];
    assert head == head[..|head| - 1] + [PushHandler(OPEN)];
    assert raw == init + [PushHandler(OPEN)] + bc;
    Mid(init, PushHandler(OPEN), bc, catch);
  }

  /** The pieces of a for-in loop that stand before its body. */
  function EachHead(cx: Ctx, x: string, it: Iterable, pc: int): seq<Instr> {
    [Const(Null), Define(Local(cx.next))] + CodeIterable(it, cx.sc + [map[]], pc + 2) +
    [Define(Local(cx.next + 1)), Const(Null), Define(Local(cx.next + 2))]
  }

  function EachFetch(h: nat, end: int): seq<Instr> {
    [IterNext(end, h + 1, h), Get(Local(h)), Set(Local(h + 2)), Pop]
  }

  lemma EachMid(seen: seq<Instr>, setup: seq<Instr>, h: nat, bc: seq<Instr>, top: int, end: int)
    ensures
      var raw := seen + (setup + EachFetch(h, OPEN)) + bc + [Jump(top)];
      raw[|seen| + |setup| := Retarget(raw[|seen| + |setup|], end)] ==
          seen + setup + EachFetch(h, end) + bc + [Jump(top)]
  {
    var raw := seen + (setup + EachFetch(h, OPEN)) + bc + [Jump(top)];
    var next := IterNext(OPEN, h + 1, h);
    var rest := [Get(Local(h)), Set(Local(h + 2)), Pop] + bc + [Jump(top)];
    assert raw == (seen + setup) + [next] + rest;
    Mid(seen + setup, next, rest, end);
  }

  lemma EachWhole(cx: Ctx, x: string, it: Iterable, pc: int, seen: seq<Instr>, bc: seq<Instr>, top: int, end: int)
    ensures seen + EachHead(cx, x, it, pc) + EachFetch(cx.next, end) + bc + [Jump(top)] + [IterClose(cx.next + 1)] ==
      seen + ([Const(Null), Define(Local(cx.next))] + CodeIterable(it, cx.sc + [map[]], pc + 2) +
              [Define(Local(cx.next + 1)), Const(Null), Define(Local(cx.next + 2))] +
              [IterNext(end, cx.next + 1, cx.next), Get(Local(cx.next)), Set(Local(cx.next + 2)), Pop] +
              bc + [Jump(top), IterClose(cx.next + 1)])
  {
    hide CodeIterable;
  }

  /** The layout of a for-in loop; its body starts behind head and fetch, and `end` is where
      the iterator is closed. */
  lemma ForInShape(x: string, it: Iterable, b: Stmts, cx: Ctx, tg: seq<Target>, pc: int) returns (end: int)
    ensures
      var top := pc + LenIterable(it, cx.sc + [map[]]) + 5;
      var l := LayBlock(b, EachCtx(cx, x));
      && end == top + 4 + l.len + 1
      && LayS(ForIn(x, it, b), cx) == Lay(end + 1 - pc, cx.sc, l.next, OkIterable(it, cx.sc + [map[]]) && l.ok)
      && |EachHead(cx, x, it, pc)| == top - pc
      && forall e :: |EachFetch(cx.next, e)| == 4
  {
    hide LayS, CodeS, LayBlock, CodeBlock, LenIterable, CodeIterable, OkIterable, EachCtx;
    ForInEmits(x, it, b, cx, tg, pc);
    end := pc + LenIterable(it, cx.sc + [map[]]) + 10 + LayBlock(b, EachCtx(cx, x)).len;
  }

  lemma ForInWhole(x: string, it: Iterable, b: Stmts, cx: Ctx, tg: seq<Target>, pc: int, seen: seq<Instr>, end: int)
    requires end == pc + LenIterable(it, cx.sc + [map[]]) + 10 + LayBlock(b, EachCtx(cx, x)).len
    ensures
      var top := pc + LenIterable(it, cx.sc + [map[]]) + 5;
      var bc := CodeBlock(b, EachCtx(cx, x), tg + [Target(end + 1, top)], top + 4);
      seen + EachHead(cx, x, it, pc) + EachFetch(cx.next, end) + bc + [Jump(top)] + [IterClose(cx.next + 1)] ==
        seen + CodeS(ForIn(x, it, b), cx, tg, pc)
  {
    hide LayS, CodeS, LayBlock, CodeBlock, LenIterable, CodeIterable, OkIterable, EachCtx, EachHead, EachFetch;
    ForInEmits(x, it, b, cx, tg, pc);
    var top := pc + LenIterable(it, cx.sc + [map[]]) + 5;
    EachWhole(cx, x, it, pc, seen, CodeBlock(b, EachCtx(cx, x), tg + [Target(end + 1, top)], top + 4), top, end);
  }

  lemma Unbound(sc: Scopes, x: string, b: Binding)
    ensures var sc1 := Bind(sc + [map[]], x, b); |sc1| == |sc| + 1 && sc1[..|sc|] == sc
  {}

  function ExitCode(c: Option<Expr>, sc: Scopes, pc: int, no: int): seq<Instr> {
    if c.None? then [] else CodeCond(c.value, sc, pc, no)
  }

  /** A for loop without its first clause. */
  function LoopCode(c: Option<Expr>, u: Option<Expr>, b: Stmts, cx: Ctx, tg: seq<Target>, top: int): seq<Instr> {
    var cx2 := InLoop(cx, Depth(cx.fins));
    var bpc := top + (if c.None? then 0 else LenCond(c.value, cx.sc));
    var upc := bpc + LayBlock(b, cx2).len;
    var end := upc + UpdateLen(u, cx.sc) + 1;
    ExitCode(c, cx.sc, top, end) + CodeBlock(b, cx2, tg + [Target(end, upc)], bpc) +
    UpdateCode(u, cx.sc, upc) + [Jump(top)]
  }

  lemma ExitLen(c: Option<Expr>, sc: Scopes, pc: int, no: int)
    ensures |ExitCode(c, sc, pc, no)| == if c.None? then 0 else LenCond(c.value, sc)
  {
    hide CodeCond, LenCond;
    if c.Some? { CondLen(c.value, sc, pc, no); }
  }

  lemma LoopWhole(c: Option<Expr>, u: Option<Expr>, b: Stmts, cx: Ctx, tg: seq<Target>, top: nat, seen: seq<Instr>,
          exitJump: int)
    requires |seen| == top && exitJump == if c.None? then -1 else top + LenCond(c.value, cx.sc) - 1
    ensures
      var cx2 := InLoop(cx, Depth(cx.fins));
      var bpc := top + (if c.None? then 0 else LenCond(c.value, cx.sc));
      var upc := bpc + LayBlock(b, cx2).len;
      var end := upc + UpdateLen(u, cx.sc) + 1;
      var body := seen + ExitCode(c, cx.sc, top, OPEN) + CodeBlock(b, cx2, tg + [Target(end, upc)], bpc);
      var raw := body + (UpdateCode(u, cx.sc, upc) + [Jump(top)]);
      exitJump < |body| && (if exitJump >= 0 then raw[exitJump := Retarget(body[exitJump], end)] else raw) ==
          seen + LoopCode(c, u, b, cx, tg, top)
  {
    hide CodeBlock, LayBlock, CodeCond, LenCond, UpdateCode, UpdateLen, Retarget, ExitCode;
    var cx2 := InLoop(cx, Depth(cx.fins));
    var bpc := top + (if c.None? then 0 else LenCond(c.value, cx.sc));
    var upc := bpc + LayBlock(b, cx2).len;
    var end := upc + UpdateLen(u, cx.sc) + 1;
    ExitLen(c, cx.sc, top, OPEN);
    ForWhole(c, cx.sc, top, seen, ExitCode(c, cx.sc, top, OPEN), CodeBlock(b, cx2, tg + [Target(end, upc)], bpc),
        UpdateCode(u, cx.sc, upc), top, end);
  }

  lemma ForShape(first: Option<Simple>, c: Option<Expr>, u: Option<Expr>, b: Stmts, cx: Ctx, tg: seq<Target>, pc: int,
          seen: seq<Instr>)
    ensures
      var s := For(first, c, u, b);
      var cx0 := cx.(sc := cx.sc + [map[]]);
      var l0 := LayOpt(first, cx0);
      var cx1 := At0(cx0, l0);
      var l1 := LayBlock(b, InLoop(cx1, Depth(cx.fins)));
      && LayS(s, cx).next == l1.next && LayS(s, cx).sc == cx.sc
      && LayS(s, cx).ok == (l0.ok && (c.None? || OkE(c.value, l0.sc)) && l1.ok && OptOk(u, l0.sc))
      && |CodeOpt(first, cx0, tg, pc)| == l0.len
      && seen + CodeOpt(first, cx0, tg, pc) + LoopCode(c, u, b, cx1, tg, pc + l0.len) == seen + CodeS(s, cx, tg, pc)
  {
    hide LayS, CodeS, LayOpt, CodeOpt, LayBlock, CodeBlock, CodeCond, LenCond, UpdateCode, UpdateLen, OptOk, OkE;
    ForLays(first, c, u, b, cx, pc);
    ForEmits(first, c, u, b, cx, tg, pc);
  }

  /** The parts of a for loop once its exit jump is patched. */
  lemma ForWhole(c: Option<Expr>, sc: Scopes, pc: nat, seen: seq<Instr>, cc: seq<Instr>, bc: seq<Instr>,
          uc: seq<Instr>, top: int, end: int)
    requires cc == ExitCode(c, sc, pc, OPEN)
    ensures
      var raw := seen + cc + bc + (uc + [Jump(top)]);
      var cc1 := ExitCode(c, sc, pc, end);
      var n := |seen| + |cc| - 1;
      (if c.None? then raw else raw[n := Retarget(raw[n], end)]) == seen + (cc1 + bc + uc + [Jump(top)])
  {
    hide CodeCond, Retarget;
    var rest := uc + [Jump(top)];
    if c.Some? {
      CondPatched(c.value, sc, pc, end);
      CondLen(c.value, sc, pc, end);
      MidLast(seen, cc, bc + rest, end);
      assert seen + cc + bc + rest == seen + cc + (bc + rest);
    }
    var cc1 := if c.None? then [] else CodeCond(c.value, sc, pc, end);
    assert seen + cc1 + (bc + rest) == seen + (cc1 + bc + uc + [Jump(top)]);
  }

  lemma OptScopes(first: Option<Simple>, cx: Ctx, tg: seq<Target>, pc: int)
    requires |cx.sc| > 0
    ensures var sc := LayOpt(first, cx).sc; |sc| == |cx.sc| && sc[..|sc| - 1] == cx.sc[..|cx.sc| - 1]
    ensures first.None? ==> LayOpt(first, cx) == Lay(0, cx.sc, cx.next, true) && CodeOpt(first, cx, tg, pc) == []
    ensures first.Some? ==> LayOpt(first, cx) == LayS(Semantics.AsStmt(first.value), cx) &&
                            CodeOpt(first, cx, tg, pc) == CodeS(Semantics.AsStmt(first.value), cx, tg, pc)
  {
    if first.Some? { StmtScopes(Semantics.AsStmt(first.value), cx); }
  }

  lemma Lists(loops: seq<LoopContext>, l: LoopContext, n: nat)
    requires Tidy(loops + [l], n)
    ensures forall p :: p in l.continueJumps ==> p < n
    ensures var l1 := l.(continueJumps := []); Listed(l1) <= Listed(l)
  {
    TidySnoc(loops, l, n);
    ListedIn(l);
  }

  lemma AimsLast(loops: seq<LoopContext>, tg: seq<Target>)
    requires Aims(loops, tg) && |loops| > 0
    ensures var l := loops[|loops| - 1];
            (l.continueTarget >= 0 ==> tg[|tg| - 1].cnt == l.continueTarget)
                && TopLoop(Depths(loops)) == l.finalizerDepth &&
            TopTarget(tg) == tg[|tg| - 1]
  {}

  // ----- the buffer seen through the open loops

  /** The compiler stands where the other layout ends, and accepts what that accepts. */
  predicate Rejoins(l: Lay, whole: Lay) { l.ok == whole.ok && l.sc == whole.sc && l.next == whole.next }

  lemma Grows(was: seq<Instr>, frag: seq<Instr>, loops: seq<LoopContext>, tg: seq<Target>)
    requires |tg| == |loops| && Tidy(loops, |was|)
    ensures Fill(was + frag, loops, tg) == Fill(was, loops, tg) + frag
    ensures Tidy(loops, |was + frag|) && Longer(loops, loops, |was|)
  {
    FillLonger(was, frag, loops, tg);
    TidyMore(loops, |was|, |was + frag|);
    LongerSelf(loops, |was|);
  }

  lemma Grew(was: seq<LoopContext>, l0: LoopContext, now: seq<LoopContext>, l: LoopContext, n: nat)
    requires Longer(was + [l0], now + [l], n) && |was| == |now|
    ensures Longer(was, now, n) && Grown(l0, l, n)
  {
    hide Grown;
    forall k | 0 <= k < |was| ensures Grown(was[k], now[k], n) {
      assert Grown((was + [l0])[k], (now + [l])[k], n);
    }
    assert Grown((was + [l0])[|was|], (now + [l])[|was|], n);
  }

  lemma TidyLess(loops: seq<LoopContext>, l: LoopContext, n: nat)
    requires Tidy(loops + [l], n)
    ensures Tidy(loops, n)
  {
    TidySnoc(loops, l, n);
  }

  lemma TidyList(all: seq<LoopContext>, l: LoopContext, n: nat)
    requires |all| > 0 && Tidy(all, n) && all[|all| - 1] == l
    ensures forall p :: p in l.breakJumps ==> p < n
  {
    ListedIn(l);
  }

  lemma SeenPatch(code: seq<Instr>, loops: seq<LoopContext>, tg: seq<Target>, p: nat, target: int)
    requires |tg| == |loops| && p < |code| && p !in Holes(loops)
    ensures var seen := Fill(code, loops, tg);
            Fill(code[p := Retarget(code[p], target)], loops, tg) == seen[p := Retarget(seen[p], target)]
  {
    hide Fill, Fix, Holes;
    FixOne(code, p, target);
    FillFix(code, [p], target, loops, tg);
    FixOne(Fill(code, loops, tg), p, target);
  }

  lemma TidyBelow(loops: seq<LoopContext>, n: nat)
    requires Tidy(loops, n)
    ensures n !in Holes(loops)
  {
    HolesBelow(loops, n);
  }

  lemma LongerDown(was: seq<LoopContext>, now: seq<LoopContext>, n: nat, m: nat)
    requires Longer(was, now, n) && m <= n
    ensures Longer(was, now, m)
  {
    LongerSelf(was, m);
    LongerTrans(was, was, now, m, n);
  }

  /** One more open jump on the list. */
  lemma FixOpen(seen: seq<Instr>, arm: seq<Instr>, jumps: seq<nat>, target: int)
    requires forall p :: p in jumps ==> p < |seen|
    ensures Fix(seen + arm + [Jump(OPEN)], jumps + [|seen| + |arm|], target) ==
        Fix(seen, jumps, target) + arm + [Jump(target)]
  {
    hide Fix;
    var all, p := seen + arm + [Jump(OPEN)], |seen| + |arm|;
    assert seen + arm + [Jump(OPEN)] == seen + (arm + [Jump(OPEN)]);
    FixLonger(seen, arm + [Jump(OPEN)], jumps, target);
    FixMore(all, jumps, p, target);
    FixOne(Fix(all, jumps, target), p, target);
    var f := Fix(seen, jumps, target);
    assert f + (arm + [Jump(OPEN)]) == f + arm + [Jump(OPEN)];
    JumpMid(f + arm, [], target);
    assert f + arm + [Jump(OPEN)] + [] == f + arm + [Jump(OPEN)];
  }

  lemma BindSize(sc: Scopes, x: string, b: Binding)
    ensures |Bind(sc, x, b)| == |sc|
  {}

  lemma ListEq(b: Stmts, cx: Ctx, tg: seq<Target>, pc: int)
    ensures b.Nil? ==> CodeList(b, cx, tg, pc) == [] && LayList(b, cx) == Lay(0, cx.sc, cx.next, true)
    ensures b.Cons? ==>
      var l1 := LayS(b.head, cx);
      var l2 := LayList(b.tail, At0(cx, l1));
      && LayList(b, cx) == Lay(l1.len + l2.len, l2.sc, l2.next, l1.ok && l2.ok)
      && CodeList(b, cx, tg, pc) == CodeS(b.head, cx, tg, pc) + CodeList(b.tail, At0(cx, l1), tg, pc + l1.len)
      && |CodeS(b.head, cx, tg, pc)| == l1.len
  {
    hide LayS, CodeS;
  }

  /** A list of statements touches only the innermost scope. */
  lemma {:induction false} ListScopes(b: Stmts, cx: Ctx)
    requires |cx.sc| > 0
    ensures var sc := LayList(b, cx).sc; |sc| == |cx.sc| && sc[..|sc| - 1] == cx.sc[..|cx.sc| - 1]
  {
    if b.Cons? {
      StmtScopes(b.head, cx);
      ListScopes(b.tail, At0(cx, LayS(b.head, cx)));
    }
  }

  lemma StmtScopes(s: Stmt, cx: Ctx)
    requires |cx.sc| > 0
    ensures var sc := LayS(s, cx).sc; |sc| == |cx.sc| && sc[..|sc| - 1] == cx.sc[..|cx.sc| - 1]
  {}
}
