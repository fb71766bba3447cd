/** Where the machine stands when a statement is over, for each of the ways it can end. */
module Landing {
  import opened Syntax
  import opened Machine
  import opened ExprGen
  import opened StmtGen
  import opened Semantics
  import opened Relation

  /** The scopes and the slot counter at the place where the machine stands, and the slot
      that holds a value on its way to the caller (`now`: it is already on the stack). */
  datatype Exit = Exit(sc: Scopes, next: nat, slot: nat, now: bool)

  /** Finalizers look only at scopes and loops that enclose them. */
  ghost predicate FinsOk(fins: Fins, k: nat, loops: seq<nat>)
    decreases fins
  {
    match fins
    case Bottom => true
    case On(rest, f) =>
      if f.body.None? then FinsOk(rest, k, loops)
      else
        f.scopes <= k && f.scopes > 0 && f.loops <= |loops| && FinsOk(rest, f.scopes, loops[..f.loops]) &&
        TopLoop(loops[..f.loops]) <= Depth(rest)
  }

  /** The compiler's invariant between statements. */
  ghost predicate Sane(cx: Ctx, tg: seq<Target>) {
    && |cx.sc| > 0 && Laid(cx.sc, cx.next)
    && FinsOk(cx.fins, |cx.sc|, cx.loops)
    && TopLoop(cx.loops) <= Depth(cx.fins)
    && |tg| == |cx.loops|
  }

  /** The machine is in the state w at the start of a statement. */
  ghost predicate Ready(cx: Ctx, st: State, w: World) {
    Rel(w.env, cx.sc, st.mem) && st.trace == w.trace && st.pend == w.pend
  }

  /** An exit differs from the statement's own scopes at most in the innermost frame. */
  ghost predicate ExitOk(cx: Ctx, x: Exit) {
    && |x.sc| == |cx.sc| > 0 && x.sc[..|x.sc| - 1] == cx.sc[..|cx.sc| - 1]
    && Laid(x.sc, x.next) && cx.next <= x.next && Within(x.sc, cx.sc, cx.next)
  }

  function FromDepth(o: Outcome, loops: seq<nat>): nat { if o.Ret? then 0 else TopLoop(loops) }

  function Tail(o: Outcome, tg: seq<Target>, x: Exit): seq<Instr> {
    match o
    case Brk(_) => [Jump(TopTarget(tg).brk)]
    case Cnt(_) => [Jump(TopTarget(tg).cnt)]
    case _ => [Get(Local(x.slot)), Machine.Return]
  }

  /** The machine stands at the code that runs the finalizers `fins` and then leaves. */
  ghost predicate AtLeave(code: seq<Instr>, fins: Fins, loops: seq<nat>, tg: seq<Target>, o: Outcome, x: Exit, pc: int)
  {
    && (!o.Ret? ==> |loops| > 0)
    && At(code, pc, CodeUnwind(fins, FromDepth(o, loops), !o.Cnt?, x.sc, x.next, loops, tg, pc) + Tail(o, tg, x))
    && LayUnwind(fins, FromDepth(o, loops), !o.Cnt?, x.sc, x.next, loops).ok
  }

  ghost predicate Holds(x: Exit, mem: map<Ref, Value>, v: Value) {
    x.slot < x.next && !InScope(Local(x.slot), x.sc) && Local(x.slot) in mem && mem[Local(x.slot)] == v
  }

  /** A break, continue or return under way, with the operand stack of the statement. */
  ghost predicate Leaving(code: seq<Instr>, cx: Ctx, tg: seq<Target>, o: Outcome, x: Exit, t: State,
          stack: seq<Value>) {
    if o.Ret? && x.now then
      cx.fins.Bottom? && t.stack == stack + [o.v] && At(code, t.pc, [Machine.Return])
    else
      && t.stack == stack
      && AtLeave(code, cx.fins, cx.loops, tg, o, x, t.pc)
      && (o.Ret? ==> Holds(x, t.mem, o.v))
  }

  /** Started in st, the machine does what o says: it stands at `end` with scopes sc', or
      at the code that leaves, or raises; if o ran out of fuel, so many steps were made. */
  ghost predicate Lands(code: seq<Instr>, cx: Ctx, tg: seq<Target>, end: int, sc': Scopes, st: State, o: Outcome,
                        fuel: nat, n: nat, t: State, x: Exit)
  {
    if o.Timeout? then n >= fuel && Run(code, Running(st), n).Running?
    else
      && t.handlers == st.handlers && t.trace == o.w.trace && t.pend == o.w.pend
      && Keeps(st.mem, t.mem, cx.sc, cx.next)
      && Rel(o.w.env, x.sc, t.mem)
      && ExitOk(cx, x)
      && (if o.Thr? then Run(code, Running(st), n) == Unwind(t) && st.stack <= t.stack && t.pend.Some?
          else
            && Run(code, Running(st), n) == Running(t)
            && (if o.Normal? then t.pc == end && t.stack == st.stack && x.sc == sc'
                else Leaving(code, cx, tg, o, x, t, st.stack)))
  }

  // ----- moving a landing from one point of view to another

  /** Put the m steps from st to s1 in front. */
  lemma Before(code: seq<Instr>, cx: Ctx, tg: seq<Target>, end: int, sc': Scopes, st: State, m: nat, s1: State,
               o: Outcome, fuel1: nat, fuel: nat, n: nat, t: State, x: Exit)
    requires Run(code, Running(st), m) == Running(s1)
    requires s1.handlers == st.handlers && s1.stack == st.stack && Keeps(st.mem, s1.mem, cx.sc, cx.next)
    requires Lands(code, cx, tg, end, sc', s1, o, fuel1, n, t, x) && m + fuel1 >= fuel
    ensures Lands(code, cx, tg, end, sc', st, o, fuel, m + n, t, x)
  {
    hide Run, Rel, Keeps, ExitOk, Leaving;
    RunTrans(code, Running(st), m, n);
    if !o.Timeout? { KeepsTrans(st.mem, s1.mem, t.mem, cx.sc, cx.next); }
  }

  /** Seen from where the slot counter was lower. */
  lemma Widen(code: seq<Instr>, cx1: Ctx, cx: Ctx, tg: seq<Target>, end: int, sc': Scopes, st: State, o: Outcome,
              fuel: nat, n: nat, t: State, x: Exit)
    requires cx1 == cx.(next := cx1.next) && cx.next <= cx1.next
    requires Lands(code, cx1, tg, end, sc', st, o, fuel, n, t, x)
    ensures Lands(code, cx, tg, end, sc', st, o, fuel, n, t, x)
  {
    hide Run, Rel, Keeps, Laid, At, AtLeave, InScope, Within;
    if !o.Timeout? {
      WithinSame(cx.sc, cx.next);
      KeepsNarrow(st.mem, t.mem, cx1.sc, cx1.next, cx.sc, cx.next);
      WithinSame(cx.sc, cx.next);
      WithinTrans(x.sc, cx1.sc, cx1.next, cx.sc, cx.next);
    }
  }

  lemma FinsGrow(fins: Fins, k: nat, loops: seq<nat>, k': nat, loops': seq<nat>)
    requires FinsOk(fins, k, loops) && k <= k' && loops <= loops'
    ensures FinsOk(fins, k', loops')
    decreases fins
  {
    if fins.On? {
      if fins.top.body.None? {
        FinsGrow(fins.rest, k, loops, k', loops');
      } else {
        assert loops'[..fins.top.loops] == loops[..fins.top.loops];
      }
    }
  }

  ghost predicate Agree(k: nat, lp: seq<nat>, sc1: Scopes, sc2: Scopes, loops1: seq<nat>, loops2: seq<nat>,
                        tg1: seq<Target>, tg2: seq<Target>)
  {
    && k <= |sc1| && k <= |sc2| && sc1[..k] == sc2[..k]
    && lp <= loops1 && lp <= loops2
    && |lp| <= |tg1| && |lp| <= |tg2| && tg1[..|lp|] == tg2[..|lp|]
  }

  lemma FinSame(f: Fin, rest: Fins, iters: bool, sc1: Scopes, sc2: Scopes, next: nat,
                loops1: seq<nat>, loops2: seq<nat>, tg1: seq<Target>, tg2: seq<Target>, pc: int, k: nat, lp: seq<nat>)
    requires FinsOk(On(rest, f), k, lp) && Agree(k, lp, sc1, sc2, loops1, loops2, tg1, tg2)
    ensures
      var l1, l2 := LayFin(f, rest, iters, sc1, next, loops1), LayFin(f, rest, iters, sc2, next, loops2);
      l1.len == l2.len && l1.next == l2.next && l1.ok == l2.ok
    ensures CodeFin(f, rest, iters, sc1, next, loops1, tg1, pc) == CodeFin(f, rest, iters, sc2, next, loops2, tg2, pc)
    ensures f.body.Some? ==> Agree(f.scopes, lp[..f.loops], sc1, sc2, loops1, loops2, tg1, tg2)
  {
    hide LayBlock, CodeBlock;
    if f.body.Some? {
      var a, b := f.scopes, f.loops;
      assert sc1[..a] == sc1[..k][..a] == sc2[..k][..a] == sc2[..a];
      assert loops1[..b] == lp[..b] == loops2[..b];
      assert tg1[..b] == tg1[..|lp|][..b] == tg2[..|lp|][..b] == tg2[..b];
      assert FinCtx(f, rest, sc1, next, loops1) == FinCtx(f, rest, sc2, next, loops2);
    }
  }

  /** The code that unwinds depends only on the scopes and loops that enclose its finalizers. */
  lemma {:induction false} UnwindSame(fins: Fins, depth: nat, iters: bool, sc1: Scopes, sc2: Scopes, next: nat,
                                      loops1: seq<nat>, loops2: seq<nat>, tg1: seq<Target>, tg2: seq<Target>, pc: int,
                                      k: nat, lp: seq<nat>)
    requires FinsOk(fins, k, lp) && Agree(k, lp, sc1, sc2, loops1, loops2, tg1, tg2)
    ensures
      var l1, l2 := LayUnwind(fins, depth, iters, sc1, next, loops1), LayUnwind(fins, depth, iters, sc2, next, loops2);
      l1.len == l2.len && l1.next == l2.next && l1.ok == l2.ok
    ensures CodeUnwind(fins, depth, iters, sc1, next, loops1, tg1, pc) ==
        CodeUnwind(fins, depth, iters, sc2, next, loops2, tg2, pc)
    decreases fins
  {
    hide LayFin, CodeFin, Agree;
    if Depth(fins) > depth {
      var f, rest := fins.top, fins.rest;
      FinSame(f, rest, iters, sc1, sc2, next, loops1, loops2, tg1, tg2, pc, k, lp);
      var l := LayFin(f, rest, iters, sc1, next, loops1);
      if f.body.Some? {
        UnwindSame(rest, depth, iters, sc1, sc2, l.next, loops1, loops2, tg1, tg2, pc + l.len, f.scopes, lp[..f.loops]);
      } else {
        UnwindSame(rest, depth, iters, sc1, sc2, l.next, loops1, loops2, tg1, tg2, pc + l.len, k, lp);
      }
    }
  }

  /** Leave the innermost frame: from the statements of a block to the block. */
  lemma CloseFrame(code: seq<Instr>, cx1: Ctx, cx: Ctx, tg: seq<Target>, end: int, sc1: Scopes, st: State, o: Outcome,
                   fuel: nat, n: nat, t: State, x1: Exit) returns (x: Exit)
    requires Lands(code, cx1, tg, end, sc1, st, o, fuel, n, t, x1)
    requires |cx1.sc| == |cx.sc| + 1 && cx1.sc[..|cx.sc|] == cx.sc && |cx.sc| > 0 && cx.next <= cx1.next
    requires Within(cx1.sc, cx.sc, cx.next)
    requires cx1.fins == cx.fins && cx1.loops == cx.loops && FinsOk(cx.fins, |cx.sc|, cx.loops) && |tg| == |cx.loops|
    ensures Lands(code, cx, tg, end, cx.sc, st, ShutAll(o), fuel, n, t, x)
    ensures !o.Timeout? ==> x.sc == cx.sc
  {
    hide Run, Rel, Keeps, Laid, At, InScope, Within, CodeUnwind, LayUnwind, FinsOk;
    x := x1.(sc := cx.sc);
    if !o.Timeout? {
      assert x1.sc[..|cx.sc|] == cx.sc;
      KeepsNarrow(st.mem, t.mem, cx1.sc, cx1.next, cx.sc, cx.next);
      RelLen(o.w.env, x1.sc, t.mem);
      Popped(o.w.env, x1.sc, t.mem, x1.next, |cx.sc|);
      WithinSame(cx.sc, cx.next);
      if Leaves(o) && !(o.Ret? && x1.now) {
        UnwindSame(cx.fins, FromDepth(o, cx.loops), !o.Cnt?, x1.sc, cx.sc, x1.next, cx.loops, cx.loops, tg, tg, t.pc,
                   |cx.sc|, cx.loops);
        if o.Ret? { NotInPrefix(x1.slot, x1.sc, |cx.sc|); }
      }
    }
  }

  lemma RelLen(env: Env, sc: Scopes, mem: map<Ref, Value>)
    requires Rel(env, sc, mem)
    ensures |env| == |sc|
  {}

  lemma NotInPrefix(s: nat, sc: Scopes, k: nat)
    requires !InScope(Local(s), sc) && k <= |sc|
    ensures !InScope(Local(s), sc[..k])
  {}
}
