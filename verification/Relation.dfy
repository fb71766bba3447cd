/** How a lexical environment is laid out in the machine's slots. */
module Relation {
  import opened Syntax
  import opened Machine
  import opened ExprGen
  import opened Semantics

  /** Distinct live bindings have distinct homes, all below the next free slot. */
  ghost predicate Laid(sc: Scopes, next: nat) {
    && (forall i, x :: 0 <= i < |sc| && x in sc[i] && sc[i][x].ref.Local? ==> sc[i][x].ref.slot < next)
    && (forall i, x, j, y ::
          (0 <= i < |sc| && x in sc[i] && 0 <= j < |sc| && y in sc[j] && sc[i][x].ref == sc[j][y].ref) ==>
            (i == j && x == y))
  }

  ghost predicate InScope(r: Ref, sc: Scopes) {
    exists i, x :: 0 <= i < |sc| && x in sc[i] && sc[i][x].ref == r
  }

  /** Every live binding's home holds its value. */
  ghost predicate Rel(env: Env, sc: Scopes, mem: map<Ref, Value>) {
    && |env| == |sc|
    && (forall i :: 0 <= i < |sc| ==> env[i].Keys == sc[i].Keys)
    && (forall i, x :: 0 <= i < |sc| && x in sc[i] ==> sc[i][x].ref in mem && mem[sc[i][x].ref] == env[i][x])
  }

  /** Slots below `next` that hold no live binding are somebody's temporaries: they keep
      their contents, and no slot ever becomes undefined. */
  ghost predicate Keeps(mem: map<Ref, Value>, mem': map<Ref, Value>, sc: Scopes, next: nat) {
    && mem.Keys <= mem'.Keys
    && (forall s: nat :: s < next && !InScope(Local(s), sc) && Local(s) in mem ==> mem'[Local(s)] == mem[Local(s)])
  }

  lemma KeepsSame(mem: map<Ref, Value>, sc: Scopes, next: nat)
    ensures Keeps(mem, mem, sc, next)
  {}

  lemma KeepsTrans(m0: map<Ref, Value>, m1: map<Ref, Value>, m2: map<Ref, Value>, sc: Scopes, next: nat)
    requires Keeps(m0, m1, sc, next) && Keeps(m1, m2, sc, next)
    ensures Keeps(m0, m2, sc, next)
  {}

  lemma FindSame(env: Env, sc: Scopes, mem: map<Ref, Value>, x: string)
    requires Rel(env, sc, mem)
    ensures Find(env, x) == Find(sc, x)
  {
    var i, j := Find(env, x), Find(sc, x);
    assert i >= 0 ==> x in sc[i];
    assert j >= 0 ==> x in env[j];
  }

  lemma Read(env: Env, sc: Scopes, mem: map<Ref, Value>, x: string)
    requires Rel(env, sc, mem) && Resolve(sc, x).Some?
    ensures var i := Find(env, x);
        0 <= i < |env| && x in env[i] && RefOf(sc, x) in mem && mem[RefOf(sc, x)] == env[i][x]
    ensures InScope(RefOf(sc, x), sc)
  {
    FindSame(env, sc, mem, x);
    var i := Find(sc, x);
    assert sc[i][x].ref == RefOf(sc, x);
  }

  lemma Write(env: Env, sc: Scopes, mem: map<Ref, Value>, next: nat, x: string, v: Value)
    requires Rel(env, sc, mem) && Laid(sc, next) && Resolve(sc, x).Some?
    ensures Rel(Assigned(env, x, v), sc, mem[RefOf(sc, x) := v])
    ensures Keeps(mem, mem[RefOf(sc, x) := v], sc, next)
  {
    FindSame(env, sc, mem, x);
    var i := Find(sc, x);
    var ref := RefOf(sc, x);
    assert sc[i][x].ref == ref;
    assert InScope(ref, sc);
    var env1, mem1 := Assigned(env, x, v), mem[ref := v];
    forall j, y | 0 <= j < |sc| && y in sc[j]
      ensures sc[j][y].ref in mem1 && mem1[sc[j][y].ref] == env1[j][y]
    {
      if sc[j][y].ref == ref { assert j == i && y == x; }
    }
  }

  lemma BindLaid(sc: Scopes, next: nat, x: string, s: nat, isInt: bool)
    requires Laid(sc, next) && |sc| > 0 && next <= s
    ensures Laid(Bind(sc, x, Binding(Local(s), isInt)), s + 1)
  {
    var sc1: Scopes := Bind(sc, x, Binding(Local(s), isInt));
    forall i, y, j, z | 0 <= i < |sc1| && y in sc1[i] && 0 <= j < |sc1| && z in sc1[j] && sc1[i][y].ref == sc1[j][z].ref
      ensures i == j && y == z
    {
      if i < |sc| - 1 || y != x { assert sc1[i][y] == sc[i][y]; }
      if j < |sc| - 1 || z != x { assert sc1[j][z] == sc[j][z]; }
    }
  }

  /** A new binding in the innermost frame takes a fresh slot. */
  lemma Declare(env: Env, sc: Scopes, mem: map<Ref, Value>, next: nat, x: string, s: nat, v: Value, isInt: bool)
    requires Rel(env, sc, mem) && Laid(sc, next) && |sc| > 0 && next <= s
    ensures Rel(Bind(env, x, v), Bind(sc, x, Binding(Local(s), isInt)), mem[Local(s) := v])
    ensures Keeps(mem, mem[Local(s) := v], sc, next)
  {
    var sc1: Scopes := Bind(sc, x, Binding(Local(s), isInt));
    var env1, mem1 := Bind(env, x, v), mem[Local(s) := v];
    forall i, y | 0 <= i < |sc1| && y in sc1[i]
      ensures sc1[i][y].ref in mem1 && mem1[sc1[i][y].ref] == env1[i][y]
    {
      if i < |sc| - 1 || y != x { assert sc1[i][y] == sc[i][y]; }
    }
  }

  /** A temporary slot: writing one that holds no live binding disturbs nothing. */
  lemma Scratch(env: Env, sc: Scopes, mem: map<Ref, Value>, next: nat, s: nat, v: Value)
    requires Rel(env, sc, mem) && Laid(sc, next) && next <= s
    ensures Rel(env, sc, mem[Local(s) := v]) && Keeps(mem, mem[Local(s) := v], sc, next)
  {}

  /** Every binding of sc' is one of sc or lives in a slot allocated since. */
  ghost predicate Within(sc': Scopes, sc: Scopes, next: nat) {
    forall i, x :: 0 <= i < |sc'| && x in sc'[i] ==>
      InScope(sc'[i][x].ref, sc) || (sc'[i][x].ref.Local? && sc'[i][x].ref.slot >= next)
  }

  lemma WithinSame(sc: Scopes, next: nat)
    ensures Within(sc, sc, next)
  {
    forall i, x | 0 <= i < |sc| && x in sc[i] ensures InScope(sc[i][x].ref, sc) {}
  }

  lemma WithinTrans(sc2: Scopes, sc1: Scopes, next1: nat, sc0: Scopes, next0: nat)
    requires Within(sc2, sc1, next1) && Within(sc1, sc0, next0) && next0 <= next1
    ensures Within(sc2, sc0, next0)
  {
    forall i, x | 0 <= i < |sc2| && x in sc2[i]
      ensures InScope(sc2[i][x].ref, sc0) || (sc2[i][x].ref.Local? && sc2[i][x].ref.slot >= next0)
    {
      if InScope(sc2[i][x].ref, sc1) {
        var j, y :| 0 <= j < |sc1| && y in sc1[j] && sc1[j][y].ref == sc2[i][x].ref;
      }
    }
  }

  /** What code for inner scopes keeps, code for the outer ones may rely on. */
  lemma KeepsNarrow(mem: map<Ref, Value>, mem': map<Ref, Value>, sc1: Scopes, next1: nat, sc0: Scopes, next0: nat)
    requires Keeps(mem, mem', sc1, next1) && Within(sc1, sc0, next0) && next0 <= next1
    ensures Keeps(mem, mem', sc0, next0)
  {
    forall s: nat | s < next0 && !InScope(Local(s), sc0) && Local(s) in mem
      ensures mem'[Local(s)] == mem[Local(s)]
    {
      assert !InScope(Local(s), sc1);
    }
  }

  lemma Pushed(env: Env, sc: Scopes, mem: map<Ref, Value>, next: nat)
    requires Rel(env, sc, mem) && Laid(sc, next)
    ensures Rel(env + [map[]], sc + [map[]], mem) && Laid(sc + [map[]], next) && Within(sc + [map[]], sc, next)
  {
    WithinSame(sc, next);
    var sc1: Scopes := sc + [map[]];
    forall i, x | 0 <= i < |sc1| && x in sc1[i]
      ensures i < |sc| && sc1[i] == sc[i]
    {}
  }

  lemma Popped(env: Env, sc: Scopes, mem: map<Ref, Value>, next: nat, k: nat)
    requires Rel(env, sc, mem) && Laid(sc, next) && k <= |sc|
    ensures Rel(env[..k], sc[..k], mem) && Laid(sc[..k], next)
  {
    forall i, x | 0 <= i < k && x in sc[..k][i]
      ensures sc[..k][i][x] == sc[i][x]
    {}
  }

  lemma LaidMore(sc: Scopes, next: nat, next': nat)
    requires Laid(sc, next) && next <= next'
    ensures Laid(sc, next')
  {}

  lemma BindWithin(sc: Scopes, next: nat, x: string, s: nat, isInt: bool)
    requires |sc| > 0 && next <= s
    ensures Within(Bind(sc, x, Binding(Local(s), isInt)), sc, next)
  {
    WithinSame(sc, next);
    var sc1: Scopes := Bind(sc, x, Binding(Local(s), isInt));
    forall i, y | 0 <= i < |sc1| && y in sc1[i]
      ensures InScope(sc1[i][y].ref, sc) || (sc1[i][y].ref.Local? && sc1[i][y].ref.slot >= next)
    {
      if i < |sc| - 1 || y != x { assert sc1[i][y] == sc[i][y]; }
    }
  }

  lemma ScopeBelow(r: nat, sc: Scopes, next: nat)
    requires Laid(sc, next) && next <= r
    ensures !InScope(Local(r), sc)
  {}
}
