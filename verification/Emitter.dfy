/** The instruction buffer while jumps are still open. A loop's break and continue jumps are
    emitted with target -1 and listed in its loopContext; `Fill` is the buffer as it will
    read once every listed jump has been patched. */
module Emitter {
  import opened Machine
  import opened StmtGen

  /** loopContext, without the iterator slot that only its finalizer uses. */
  datatype LoopContext = LoopContext(continueTarget: int, finalizerDepth: nat, breakJumps: seq<nat>,
      continueJumps: seq<nat>)

  const OPEN: int := -1

  /** Operands[0] of a jumping instruction. */
  function Retarget(i: Instr, target: int): Instr {
    match i
    case Jump(_) => Jump(target)
    case JumpIfFalse(_) => JumpIfFalse(target)
    case JumpUnless(cmp, _) => JumpUnless(cmp, target)
    case JumpMod(onZero, _, slot, divisor) => JumpMod(onZero, target, slot, divisor)
    case NullCoalesce(_) => NullCoalesce(target)
    case IterNext(_, iter, val) => IterNext(target, iter, val)
    case PushHandler(_) => PushHandler(target)
    case CatchClause(_, kind, bind) => CatchClause(target, kind, bind)
    case _ => i
  }

  /** Patch all the listed jumps to one target. */
  function Fix(code: seq<Instr>, jumps: seq<nat>, target: int): (r: seq<Instr>)
    ensures |r| == |code|
  {
    seq(|code|, i requires 0 <= i < |code| => if i in jumps then Retarget(code[i], target) else code[i])
  }

  function Fill(code: seq<Instr>, loops: seq<LoopContext>, tg: seq<Target>): (r: seq<Instr>)
    requires |tg| == |loops|
    ensures |r| == |code|
  {
    var n := |loops|;
    if n == 0 then code
    else
      var l, t := loops[n - 1], tg[n - 1];
      Fix(Fix(Fill(code, loops[..n - 1], tg[..n - 1]), l.breakJumps, t.brk), l.continueJumps, t.cnt)
  }

  function Listed(l: LoopContext): set<nat> {
    (set p | p in l.breakJumps) + (set p | p in l.continueJumps)
  }

  function Holes(loops: seq<LoopContext>): set<nat> {
    if |loops| == 0 then {} else Holes(loops[..|loops| - 1]) + Listed(loops[|loops| - 1])
  }

  /** No jump is listed twice, and every one is in the buffer. */
  ghost predicate Tidy(loops: seq<LoopContext>, n: nat) {
    |loops| == 0 ||
    (var l := loops[|loops| - 1];
     Tidy(loops[..|loops| - 1], n) && Listed(l) !! Holes(loops[..|loops| - 1]) &&
     (forall p :: p in l.breakJumps ==> p !in l.continueJumps) && (forall p :: p in Listed(l) ==> p < n))
  }

  /** A loop whose continue target is known jumps there. */
  ghost predicate Aims(loops: seq<LoopContext>, tg: seq<Target>) {
    |tg| == |loops| && forall k ::
        0 <= k < |loops| ==> loops[k].continueTarget >= 0 ==> tg[k].cnt == loops[k].continueTarget
  }

  function Depths(loops: seq<LoopContext>): (r: seq<nat>)
    ensures |r| == |loops|
  {
    seq(|loops|, k requires 0 <= k < |loops| => loops[k].finalizerDepth)
  }

  /** The same loops, with jumps listed from position n on added. */
  ghost predicate Longer(was: seq<LoopContext>, now: seq<LoopContext>, n: nat) {
    |now| == |was| && forall k :: 0 <= k < |was| ==> Grown(was[k], now[k], n)
  }

  ghost predicate Grown(l: LoopContext, l': LoopContext, n: nat) {
    && l'.continueTarget == l.continueTarget && l'.finalizerDepth == l.finalizerDepth
    && (l.continueTarget >= 0 ==> l'.continueJumps == l.continueJumps)
    && Listed(l) <= Listed(l') && (forall p :: p in Listed(l') ==> p in Listed(l) || p >= n)
  }

  // ----- patching

  lemma FixLonger(a: seq<Instr>, b: seq<Instr>, jumps: seq<nat>, target: int)
    requires forall p :: p in jumps ==> p < |a|
    ensures Fix(a + b, jumps, target) == Fix(a, jumps, target) + b
  {}

  lemma FixSwap(a: seq<Instr>, js: seq<nat>, s: int, ks: seq<nat>, t: int)
    requires forall p :: p in js ==> p !in ks
    ensures Fix(Fix(a, js, s), ks, t) == Fix(Fix(a, ks, t), js, s)
  {}

  lemma FixOne(a: seq<Instr>, p: nat, target: int)
    requires p < |a|
    ensures Fix(a, [p], target) == a[p := Retarget(a[p], target)]
  {}

  lemma FixMore(a: seq<Instr>, js: seq<nat>, p: nat, target: int)
    ensures Fix(Fix(a, js, target), [p], target) == Fix(a, js + [p], target)
  {}

  /** A single open jump between two pieces. */
  lemma Mid(a: seq<Instr>, i: Instr, b: seq<Instr>, target: int)
    ensures (a + [i] + b)[|a| := Retarget(i, target)] == a + [Retarget(i, target)] + b
  {}

  // ----- filling

  lemma {:induction false} FillLonger(a: seq<Instr>, b: seq<Instr>, loops: seq<LoopContext>, tg: seq<Target>)
    requires |tg| == |loops| && Tidy(loops, |a|)
    ensures Fill(a + b, loops, tg) == Fill(a, loops, tg) + b
    decreases |loops|
  {
    hide Fix;
    var n := |loops|;
    if n > 0 {
      var l, t := loops[n - 1], tg[n - 1];
      FillLonger(a, b, loops[..n - 1], tg[..n - 1]);
      var f := Fill(a, loops[..n - 1], tg[..n - 1]);
      assert forall p :: p in l.breakJumps ==> p in Listed(l);
      assert forall p :: p in l.continueJumps ==> p in Listed(l);
      FixLonger(f, b, l.breakJumps, t.brk);
      FixLonger(Fix(f, l.breakJumps, t.brk), b, l.continueJumps, t.cnt);
    }
  }

  lemma Unlisted(l: LoopContext)
    ensures forall p :: p !in Listed(l) ==> p !in l.breakJumps && p !in l.continueJumps
  {}

  /** Patching jumps that no loop lists can be done before or after. */
  lemma {:induction false} FillFix(a: seq<Instr>, js: seq<nat>, s: int, loops: seq<LoopContext>, tg: seq<Target>)
    requires |tg| == |loops| && forall p :: p in js ==> p !in Holes(loops)
    ensures Fill(Fix(a, js, s), loops, tg) == Fix(Fill(a, loops, tg), js, s)
    decreases |loops|
  {
    hide Fix;
    var n := |loops|;
    if n > 0 {
      var l, t := loops[n - 1], tg[n - 1];
      FillFix(a, js, s, loops[..n - 1], tg[..n - 1]);
      var f := Fill(a, loops[..n - 1], tg[..n - 1]);
      Unlisted(l);
      FixSwap(f, js, s, l.breakJumps, t.brk);
      FixSwap(Fix(f, l.breakJumps, t.brk), js, s, l.continueJumps, t.cnt);
    }
  }

  /** Leaving a loop: its break jumps are patched in the buffer. */
  lemma FillPop(a: seq<Instr>, loops: seq<LoopContext>, l: LoopContext, tg: seq<Target>, t: Target, n: nat)
    requires |tg| == |loops| && Tidy(loops + [l], n) && l.continueJumps == []
    ensures Fill(a, loops + [l], tg + [t]) == Fill(Fix(a, l.breakJumps, t.brk), loops, tg)
    ensures Tidy(loops, n)
  {
    hide Fix;
    assert (loops + [l])[..|loops|] == loops && (tg + [t])[..|tg|] == tg;
    ListedIn(l);
    FillFix(a, l.breakJumps, t.brk, loops, tg);
    FixNone(Fix(Fill(a, loops, tg), l.breakJumps, t.brk), t.cnt);
  }

  /** A for loop patches its continue jumps as soon as the body is compiled. */
  lemma FillContinues(a: seq<Instr>, loops: seq<LoopContext>, l: LoopContext, tg: seq<Target>, t: Target, n: nat)
    requires |tg| == |loops| && Tidy(loops + [l], n)
    ensures
      var l1 := l.(continueJumps := []);
      Fill(a, loops + [l], tg + [t]) == Fill(Fix(a, l.continueJumps, t.cnt), loops + [l1], tg + [t])
          && Tidy(loops + [l1], n)
  {
    hide Fix;
    var l1 := l.(continueJumps := []);
    assert (loops + [l])[..|loops|] == loops && (loops + [l1])[..|loops|] == loops && (tg + [t])[..|tg|] == tg;
    ListedIn(l);
    assert Listed(l1) <= Listed(l);
    var f := Fill(a, loops, tg);
    FillFix(a, l.continueJumps, t.cnt, loops, tg);
    FixSwap(f, l.continueJumps, t.cnt, l.breakJumps, t.brk);
    FixNone(Fix(Fix(f, l.continueJumps, t.cnt), l.breakJumps, t.brk), t.cnt);
  }

  lemma FillPush(a: seq<Instr>, loops: seq<LoopContext>, target: int, depth: nat, tg: seq<Target>, t: Target, n: nat)
    requires |tg| == |loops| && Tidy(loops, n) && Aims(loops, tg) && (target >= 0 ==> t.cnt == target)
    ensures
      var ls := loops + [LoopContext(target, depth, [], [])];
      Fill(a, ls, tg + [t]) == Fill(a, loops, tg) && Tidy(ls, n) && Aims(ls, tg + [t]) && Holes(ls) == Holes(loops) &&
      Depths(ls) == Depths(loops) + [depth]
  {
    hide Fix;
    var l := LoopContext(target, depth, [], []);
    assert (loops + [l])[..|loops|] == loops && (tg + [t])[..|tg|] == tg;
    assert Listed(l) == {};
    FixNone(Fill(a, loops, tg), t.brk);
    FixNone(Fill(a, loops, tg), t.cnt);
  }

  lemma FixNone(a: seq<Instr>, target: int)
    ensures Fix(a, [], target) == a
  {}

  /** A new open jump, listed with the innermost loop. */
  lemma FillJump(a: seq<Instr>, init: seq<LoopContext>, l: LoopContext, tg: seq<Target>, t: Target, isBreak: bool)
    requires |tg| == |init| && Tidy(init + [l], |a|) && (!isBreak ==> l.continueTarget < 0)
    ensures
      var l1 := ListJump(l, |a|, isBreak);
      && Fill(a + [Jump(OPEN)], init + [l1], tg + [t]) == Fill(a, init + [l], tg + [t])
          + [Jump(if isBreak then t.brk else t.cnt)]
      && Tidy(init + [l1], |a| + 1) && Longer(init + [l], init + [l1], |a|)
  {
    hide Fix;
    var l1 := ListJump(l, |a|, isBreak);
    assert (init + [l])[..|init|] == init && (init + [l1])[..|init|] == init && (tg + [t])[..|tg|] == tg;
    assert Listed(l1) == Listed(l) + {|a|};
    TidyMore(init, |a|, |a| + 1);
    HolesBelow(init, |a|);
    LongerSelf(init, |a|);
    FillLonger(a, [Jump(OPEN)], init, tg);
    FixJump(Fill(a, init, tg), l, t, isBreak);
  }

  function ListJump(l: LoopContext, p: nat, isBreak: bool): LoopContext {
    if isBreak then l.(breakJumps := l.breakJumps + [p]) else l.(continueJumps := l.continueJumps + [p])
  }

  lemma FixJump(f: seq<Instr>, l: LoopContext, t: Target, isBreak: bool)
    requires forall p :: p in Listed(l) ==> p < |f|
    ensures
      var l1 := ListJump(l, |f|, isBreak);
      Fix(Fix(f + [Jump(OPEN)], l1.breakJumps, t.brk), l1.continueJumps, t.cnt) ==
      Fix(Fix(f, l.breakJumps, t.brk), l.continueJumps, t.cnt) + [Jump(if isBreak then t.brk else t.cnt)]
  {
    assert forall p :: p in l.breakJumps ==> p in Listed(l);
    assert forall p :: p in l.continueJumps ==> p in Listed(l);
    FixLonger(f, [Jump(OPEN)], l.breakJumps, t.brk);
    FixLonger(Fix(f, l.breakJumps, t.brk), [Jump(OPEN)], l.continueJumps, t.cnt);
    var g := f + [Jump(OPEN)];
    if isBreak {
      FixMore(g, l.breakJumps, |f|, t.brk);
      FixOne(Fix(g, l.breakJumps, t.brk), |f|, t.brk);
      FixLonger(Fix(f, l.breakJumps, t.brk), [Jump(t.brk)], l.continueJumps, t.cnt);
    } else {
      FixMore(Fix(g, l.breakJumps, t.brk), l.continueJumps, |f|, t.cnt);
      FixOne(Fix(Fix(g, l.breakJumps, t.brk), l.continueJumps, t.cnt), |f|, t.cnt);
    }
  }

  lemma {:induction false} TidyMore(loops: seq<LoopContext>, n: nat, n': nat)
    requires Tidy(loops, n) && n <= n'
    ensures Tidy(loops, n')
    decreases |loops|
  {
    if |loops| > 0 { TidyMore(loops[..|loops| - 1], n, n'); }
  }

  lemma {:induction false} HolesBelow(loops: seq<LoopContext>, n: nat)
    requires Tidy(loops, n)
    ensures forall p :: p in Holes(loops) ==> p < n
    decreases |loops|
  {
    if |loops| > 0 { HolesBelow(loops[..|loops| - 1], n); }
  }

  lemma {:induction false} HolesLonger(was: seq<LoopContext>, now: seq<LoopContext>, n: nat)
    requires Longer(was, now, n)
    ensures forall p :: p in Holes(now) && p < n ==> p in Holes(was)
    decreases |was|
  {
    hide Listed;
    if |was| > 0 {
      var k := |was| - 1;
      HolesLonger(was[..k], now[..k], n);
      assert Grown(was[k], now[k], n);
    }
  }

  lemma LongerSelf(loops: seq<LoopContext>, n: nat)
    ensures Longer(loops, loops, n)
  {}

  lemma LongerTrans(a: seq<LoopContext>, b: seq<LoopContext>, c: seq<LoopContext>, n: nat, m: nat)
    requires Longer(a, b, n) && Longer(b, c, m) && n <= m
    ensures Longer(a, c, n)
  {
    forall k | 0 <= k < |a| ensures Grown(a[k], c[k], n) {
      assert Grown(a[k], b[k], n) && Grown(b[k], c[k], m);
    }
  }

  lemma LongerDepths(a: seq<LoopContext>, b: seq<LoopContext>, n: nat, tg: seq<Target>)
    requires Longer(a, b, n)
    ensures Depths(a) == Depths(b) && (Aims(a, tg) ==> Aims(b, tg))
  {
    forall k | 0 <= k < |a| ensures a[k].continueTarget == b[k].continueTarget
        && a[k].finalizerDepth == b[k].finalizerDepth {
      assert Grown(a[k], b[k], n);
    }
  }

  /** The definitions, one loop at a time. */
  lemma FillSnoc(a: seq<Instr>, loops: seq<LoopContext>, l: LoopContext, tg: seq<Target>, t: Target)
    requires |tg| == |loops|
    ensures Fill(a, loops + [l], tg + [t]) == Fix(Fix(Fill(a, loops, tg), l.breakJumps, t.brk), l.continueJumps, t.cnt)
  {
    hide Fix;
    assert (loops + [l])[..|loops|] == loops && (tg + [t])[..|tg|] == tg;
  }

  lemma TidySnoc(loops: seq<LoopContext>, l: LoopContext, n: nat)
    ensures Tidy(loops + [l], n) <==>
      Tidy(loops, n) && Listed(l) !! Holes(loops) && (forall p :: p in l.breakJumps ==> p !in l.continueJumps) &&
      (forall p :: p in Listed(l) ==> p < n)
  {
    hide Holes, Listed;
    assert (loops + [l])[..|loops|] == loops;
  }

  lemma LongerSnoc(was: seq<LoopContext>, now: seq<LoopContext>, l: LoopContext, n: nat)
    requires Longer(was, now, n)
    ensures Longer(was + [l], now + [l], n)
  {
    hide Listed;
  }

  lemma HolesOne(loops: seq<LoopContext>, l: LoopContext)
    ensures Holes(loops + [l]) == Holes(loops) + Listed(l)
  {
    assert (loops + [l])[..|loops|] == loops;
  }

  lemma AddLoop(a: seq<Instr>, b: seq<Instr>, was: seq<LoopContext>, now: seq<LoopContext>, l: LoopContext,
          tg: seq<Target>, t: Target,
                frag: seq<Instr>)
    requires |tg| == |was| && Tidy(was + [l], |a|) && Longer(was, now, |a|) && Tidy(now, |b|) && |a| <= |b|
    requires Fill(b, now, tg) == Fill(a, was, tg) + frag
    ensures Fill(b, now + [l], tg + [t]) == Fill(a, was + [l], tg + [t]) + frag
    ensures Tidy(now + [l], |b|) && Longer(was + [l], now + [l], |a|)
  {
    hide Fix, Fill, Tidy, Holes, Longer, Listed;
    LongerLen(was, now, |a|);
    TidySnoc(was, l, |a|);
    LongerSnoc(was, now, l, |a|);
    AddTidy(was, now, l, |a|, |b|);
    FillSnoc(a, was, l, tg, t);
    FillSnoc(b, now, l, tg, t);
    ListedIn(l);
    FixBoth(Fill(a, was, tg), frag, l, t);
  }

  lemma AddTidy(was: seq<LoopContext>, now: seq<LoopContext>, l: LoopContext, n: nat, m: nat)
    requires Tidy(was + [l], n) && Longer(was, now, n) && Tidy(now, m) && n <= m
    ensures Tidy(now + [l], m)
  {
    hide Tidy, Holes, Longer, Listed;
    TidySnoc(was, l, n);
    TidySnoc(now, l, m);
    HolesLonger(was, now, n);
  }

  lemma FixBoth(f: seq<Instr>, frag: seq<Instr>, l: LoopContext, t: Target)
    requires forall p :: p in l.breakJumps || p in l.continueJumps ==> p < |f|
    ensures Fix(Fix(f + frag, l.breakJumps, t.brk), l.continueJumps, t.cnt) ==
            Fix(Fix(f, l.breakJumps, t.brk), l.continueJumps, t.cnt) + frag
  {
    hide Fix;
    FixLonger(f, frag, l.breakJumps, t.brk);
    FixLonger(Fix(f, l.breakJumps, t.brk), frag, l.continueJumps, t.cnt);
  }

  lemma ListedIn(l: LoopContext)
    ensures forall p :: p in l.breakJumps ==> p in Listed(l)
    ensures forall p :: p in l.continueJumps ==> p in Listed(l)
  {}

  lemma LongerLen(was: seq<LoopContext>, now: seq<LoopContext>, n: nat)
    requires Longer(was, now, n)
    ensures |was| == |now|
  {}

  lemma TidyInit(loops: seq<LoopContext>, n: nat)
    requires Tidy(loops, n) && |loops| > 0
    ensures Tidy(loops[..|loops| - 1], n)
  {}

  /** Some code was compiled with only the outer k loops in sight: what that means once the
      inner ones are back. */
  lemma {:induction false} FillUnder(a: seq<Instr>, b: seq<Instr>, was: seq<LoopContext>, now: seq<LoopContext>,
          k: nat, tg: seq<Target>,
                                     frag: seq<Instr>)
    requires |tg| == |was| && k <= |was| && Tidy(was, |a|)
    requires Longer(was[..k], now, |a|) && Tidy(now, |b|) && |a| <= |b|
    requires |now| == k && Fill(b, now, tg[..k]) == Fill(a, was[..k], tg[..k]) + frag
    ensures
      var all := now + was[k..];
      Fill(b, all, tg) == Fill(a, was, tg) + frag && Tidy(all, |b|) && Longer(was, all, |a|)
    decreases |was|
  {
    hide Fix, Fill, Tidy, Longer, Holes;
    var n := |was|;
    if k == n {
      assert was[..k] == was && tg[..k] == tg && now + was[k..] == now;
    } else {
      var l, t := was[n - 1], tg[n - 1];
      var was1, tg1 := was[..n - 1], tg[..n - 1];
      assert was1[..k] == was[..k] && tg1[..k] == tg[..k];
      TidyInit(was, |a|);
      FillUnder(a, b, was1, now, k, tg1, frag);
      var all1 := now + was1[k..];
      LongerLen(was1, all1, |a|);
      assert was1 + [l] == was && tg1 + [t] == tg;
      assert was[k..] == was1[k..] + [l];
      assert now + was[k..] == all1 + [l];
      AddLoop(a, b, was1, all1, l, tg1, t, frag);
    }
  }
}
