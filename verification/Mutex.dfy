/** The goroutine-reentrant lock that serializes module loads, one machine instruction at a
    time: any number of goroutines, interleaved in any order. */
module Mutex {

  /** Where a goroutine stands between two atomic operations. */
  datatype Pc =
    | Idle       // outside Lock and Unlock
    | Reenter    // Lock saw its own id in owner: count++ comes next
    | Acquire    // Lock saw another id: the send on sem comes next
    | Own        // sem is held: owner.Store(gid) comes next
    | Count      // count = 1 comes next
    | Test       // Unlock has decremented count: the test for zero comes next
    | Disown     // owner.Store(0) comes next
    | Release    // the receive on sem comes next

  /** depth: how many Lock calls have returned and are not yet matched by an Unlock that
      has begun. */
  datatype Goroutine = Goroutine(pc: Pc, depth: nat)

  /** The lock's three fields (`full`: is there an element in the channel) and everybody's
      position. Goroutine ids are the map's keys. */
  datatype State = State(owner: int, count: int, full: bool, procs: map<int, Goroutine>)

  ghost predicate Init(s: State) {
    s.owner == 0 && s.count == 0 && !s.full && 0 !in s.procs &&
    forall g :: g in s.procs ==> s.procs[g] == Goroutine(Idle, 0)
  }

  function At(s: State, g: int, p: Goroutine): State { s.(procs := s.procs[g := p]) }

  /** One atomic operation of goroutine g. */
  ghost predicate Step(s: State, g: int, t: State) {
    g in s.procs &&
    var p := s.procs[g];
    match p.pc
    case Idle =>
      || t == At(s, g, p.(pc := if s.owner == g then Reenter else Acquire))            // Lock reads owner
      || (p.depth > 0 && t == At(s, g, Goroutine(Test, p.depth - 1)).(count := s.count - 1)) // Unlock: count--
    case Reenter => t == At(s, g, Goroutine(Idle, p.depth + 1)).(count := s.count + 1)
    case Acquire => !s.full && t == At(s, g, p.(pc := Own)).(full := true)
    case Own => t == At(s, g, p.(pc := Count)).(owner := g)
    case Count => t == At(s, g, Goroutine(Idle, p.depth + 1)).(count := 1)
    case Test => t == At(s, g, p.(pc := if s.count == 0 then Disown else Idle))
    case Disown => t == At(s, g, p.(pc := Release)).(owner := 0)
    case Release => s.full && t == At(s, g, p.(pc := Idle)).(full := false)
  }

  /** A run of the lock. */
  ghost predicate Run(states: seq<State>) {
    |states| > 0 && Init(states[0]) &&
    forall i :: 0 <= i < |states| - 1 ==> Steps(states[i], states[i + 1])
  }

  ghost predicate Steps(s: State, t: State) { exists g :: Step(s, g, t) }

  /** Inside the critical section: between a Lock that has returned and its matching Unlock. */
  predicate Inside(p: Goroutine) { p.depth > 0 }

  /** Inside, or on the way in or out. */
  predicate Engaged(p: Goroutine) { p.depth > 0 || p.pc in {Own, Count, Test, Disown, Release, Reenter} }

  /** What the position of the goroutine that has the lock says about the shared fields. */
  ghost predicate Local(s: State, g: int, p: Goroutine) {
    match p.pc
    case Idle => p.depth > 0 && s.owner == g && s.count == p.depth
    case Reenter => p.depth > 0 && s.owner == g && s.count == p.depth
    case Acquire => false
    case Own => p.depth == 0 && s.owner == 0
    case Count => p.depth == 0 && s.owner == g
    case Test => s.owner == g && s.count == p.depth
    case Disown => p.depth == 0 && s.owner == g && s.count == 0
    case Release => p.depth == 0 && s.owner == 0
  }

  /** Outside the lock, or waiting for it. */
  ghost predicate Away(s: State, g: int, p: Goroutine) {
    p.depth == 0 && (p.pc.Idle? || p.pc.Acquire?) && s.owner != g
  }

  ghost predicate Free(s: State) {
    !s.full && s.owner == 0 && forall g :: g in s.procs ==> Away(s, g, s.procs[g])
  }

  ghost predicate HeldBy(s: State, h: int) {
    s.full && h in s.procs && Local(s, h, s.procs[h]) && forall g :: g in s.procs && g != h ==> Away(s, g, s.procs[g])
  }

  /** Nobody has the lock, or exactly one goroutine has. */
  ghost predicate Inv(s: State) {
    0 !in s.procs && (Free(s) || exists h :: HeldBy(s, h))
  }

  lemma InitInv(s: State)
    requires Init(s)
    ensures Inv(s)
  {
    assert Free(s);
  }

  /** Every atomic operation keeps the invariant. */
  lemma StepInv(s: State, g: int, t: State)
    requires Inv(s) && Step(s, g, t)
    ensures Inv(t)
  {
    if Free(s) {
      FreeStep(s, g, t);
    } else {
      var h :| HeldBy(s, h);
      if g == h { HolderStep(s, h, t); } else { OtherStep(s, h, g, t); }
    }
  }

  lemma FreeStep(s: State, g: int, t: State)
    requires 0 !in s.procs && Free(s) && Step(s, g, t)
    ensures Inv(t)
  {
    assert Away(s, g, s.procs[g]);
    forall h | h in s.procs && h != g ensures Away(t, h, t.procs[h]) { assert Away(s, h, s.procs[h]); }
    if s.procs[g].pc.Acquire? { assert HeldBy(t, g); } else { assert Free(t); }
  }

  lemma OtherStep(s: State, h: int, g: int, t: State)
    requires 0 !in s.procs && HeldBy(s, h) && Step(s, g, t) && g != h
    ensures Inv(t)
  {
    assert Away(s, g, s.procs[g]) && s.procs[g].pc.Idle?;
    forall k | k in s.procs && k != h ensures Away(t, k, t.procs[k]) { assert Away(s, k, s.procs[k]); }
    assert HeldBy(t, h);
  }

  lemma HolderStep(s: State, h: int, t: State)
    requires 0 !in s.procs && HeldBy(s, h) && Step(s, h, t)
    ensures Inv(t)
  {
    forall k | k in s.procs && k != h ensures Away(t, k, t.procs[k]) { assert Away(s, k, s.procs[k]); }
    if s.procs[h].pc.Release? { assert Free(t); } else { assert HeldBy(t, h); }
  }

  lemma {:induction false} RunInv(states: seq<State>, i: nat)
    requires Run(states) && i < |states|
    ensures Inv(states[i])
  {
    if i == 0 {
      InitInv(states[0]);
    } else {
      RunInv(states, i - 1);
      assert Steps(states[i - 1], states[i]);
      var g :| Step(states[i - 1], g, states[i]);
      StepInv(states[i - 1], g, states[i]);
    }
  }

  /** Mutual exclusion, in every interleaving: at most one goroutine is between Lock and its
      matching Unlock, `count` is then its nesting depth, and the channel is full exactly
      while somebody is inside or on the way in or out. */
  lemma Exclusion(states: seq<State>, i: nat)
    requires Run(states) && i < |states|
    ensures
      var s := states[i];
      && (forall g, h :: g in s.procs && h in s.procs && Inside(s.procs[g]) && Inside(s.procs[h]) ==> g == h)
      && (forall g :: g in s.procs && s.procs[g].pc.Idle? && s.procs[g].depth > 0 ==> s.count == s.procs[g].depth)
      && (s.full <==> exists g :: g in s.procs && Engaged(s.procs[g]))
  {
    RunInv(states, i);
    var s := states[i];
    if Free(s) {
      assert forall g :: g in s.procs ==> Away(s, g, s.procs[g]);
    } else {
      var h :| HeldBy(s, h);
      assert forall g :: g in s.procs && g != h ==> Away(s, g, s.procs[g]);
      assert Engaged(s.procs[h]);
    }
  }

  /** Lock's test for re-entry succeeds exactly for the goroutine that holds the lock. */
  lemma OwnerTest(states: seq<State>, i: nat, g: int)
    requires Run(states) && i < |states| && g in states[i].procs && states[i].procs[g].pc.Idle?
    ensures states[i].owner == g <==> states[i].procs[g].depth > 0
  {
    RunInv(states, i);
    var s := states[i];
    if Free(s) {
      assert Away(s, g, s.procs[g]);
    } else {
      var h :| HeldBy(s, h);
      assert g != h ==> Away(s, g, s.procs[g]);
    }
  }

  /** Nobody waits for nothing: when a goroutine is stuck at the channel, another one is
      engaged, and that one can go on. */
  lemma NoDeadlock(states: seq<State>, i: nat, g: int)
    requires Run(states) && i < |states| && g in states[i].procs && !(exists t :: Step(states[i], g, t))
    ensures exists h, t :: h != g && h in states[i].procs && Engaged(states[i].procs[h]) && Step(states[i], h, t)
  {
    var s := states[i];
    RunInv(states, i);
    Stuck(s, g);
    assert !Free(s);
    var h :| HeldBy(s, h);
    var t := Move(s, h);
    assert Engaged(s.procs[h]);
  }

  /** Only a send on the full channel blocks. */
  lemma Stuck(s: State, g: int)
    requires Inv(s) && g in s.procs && !(exists t :: Step(s, g, t))
    ensures s.procs[g].pc.Acquire? && s.full
  {
    if !(s.procs[g].pc.Acquire? && s.full) { var t := Move(s, g); }
  }

  lemma Move(s: State, g: int) returns (t: State)
    requires Inv(s) && g in s.procs && !(s.procs[g].pc.Acquire? && s.full)
    ensures Step(s, g, t)
  {
    var p := s.procs[g];
    assert p.pc.Release? ==> s.full by {
      if Free(s) { assert Away(s, g, p); } else { var h :| HeldBy(s, h); assert g != h ==> Away(s, g, p); }
    }
    match p.pc
    case Idle => t := At(s, g, p.(pc := if s.owner == g then Reenter else Acquire));
    case Reenter => t := At(s, g, Goroutine(Idle, p.depth + 1)).(count := s.count + 1);
    case Acquire => t := At(s, g, p.(pc := Own)).(full := true);
    case Own => t := At(s, g, p.(pc := Count)).(owner := g);
    case Count => t := At(s, g, Goroutine(Idle, p.depth + 1)).(count := 1);
    case Test => t := At(s, g, p.(pc := if s.count == 0 then Disown else Idle));
    case Disown => t := At(s, g, p.(pc := Release)).(owner := 0);
    case Release => t := At(s, g, p.(pc := Idle)).(full := false);
  }

  /** The ids must not be 0: a goroutine with that id walks into the section while another
      one, which has taken the channel but not yet written its id, walks in as well. */
  lemma ZeroIdBreaks()
    ensures
      var s0 := State(0, 0, false, map[0 := Goroutine(Idle, 0), 1 := Goroutine(Idle, 0)]);
      exists s1, s2, s3, s4, s5, s6 ::
        Step(s0, 1, s1) && Step(s1, 1, s2) && Step(s2, 0, s3) && Step(s3, 0, s4) && Step(s4, 1, s5)
            && Step(s5, 1, s6) &&
        s6.procs[0].depth > 0 && s6.procs[1].depth > 0
  {
    var s0 := State(0, 0, false, map[0 := Goroutine(Idle, 0), 1 := Goroutine(Idle, 0)]);
    var s1 := At(s0, 1, Goroutine(Acquire, 0));
    var s2 := At(s1, 1, Goroutine(Own, 0)).(full := true);
    var s3 := At(s2, 0, Goroutine(Reenter, 0));
    var s4 := At(s3, 0, Goroutine(Idle, 1)).(count := 1);
    var s5 := At(s4, 1, Goroutine(Count, 0)).(owner := 1);
    var s6 := At(s5, 1, Goroutine(Idle, 1)).(count := 1);
    assert Step(s0, 1, s1) && Step(s1, 1, s2) && Step(s2, 0, s3) && Step(s3, 0, s4) && Step(s4, 1, s5)
        && Step(s5, 1, s6);
  }
}
