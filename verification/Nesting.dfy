/** With-resources and loop iterators are given back innermost first and exactly once each:
    the trace of a run, replayed as pushes and pops, comes back to where it was, however the
    run ends. In compiled code an error that leaves a for-in loop does not close its iterator;
    there the resources on their own come back. */
module Nesting {
  import opened Syntax
  import opened Semantics

  /** Something that has been taken and has to be given back. */
  datatype Held = Resource(id: nat) | Iterator(id: nat)

  /** What is still held after the trace, innermost last; None once something was given back
      that was not the innermost. `loops`: iterators count too. */
  function Replay(trace: seq<Event>, loops: bool): Option<seq<Held>>
    decreases |trace|
  {
    if trace == [] then Some([]) else Step(Replay(trace[..|trace| - 1], loops), trace[|trace| - 1], loops)
  }

  function Step(held: Option<seq<Held>>, e: Event, loops: bool): Option<seq<Held>> {
    match held
    case None => None
    case Some(s) =>
      match e
      case Entered(id) => Some(s + [Resource(id)])
      case Exited(id) => GiveBack(s, Resource(id))
      case Opened(id) => if loops then Some(s + [Iterator(id)]) else held
      case Closed(id) => if loops then GiveBack(s, Iterator(id)) else held
      case Printed(_) => held
  }

  function GiveBack(s: seq<Held>, h: Held): Option<seq<Held>> {
    if |s| > 0 && s[|s| - 1] == h then Some(s[..|s| - 1]) else None
  }

  /** Unless the order was wrong, what is held is what was entered and not exited, and where
      iterators count, what was opened and not closed, as often as that. */
  lemma {:induction false} HeldIs(trace: seq<Event>, loops: bool, id: nat)
    requires Replay(trace, loops).Some?
    ensures
      var held, all := multiset(Replay(trace, loops).value), multiset(trace);
      && held[Resource(id)] + all[Exited(id)] == all[Event.Entered(id)]
      && (if loops then held[Iterator(id)] + all[Closed(id)] == all[Event.Opened(id)] else held[Iterator(id)] == 0)
    decreases |trace|
  {
    hide Replay, Step;
    if trace != [] {
      var before, e := trace[..|trace| - 1], trace[|trace| - 1];
      assert trace == before + [e];
      ReplayOne(before, e, loops);
      StepNone(e, loops);
      HeldIs(before, loops, id);
      HeldStep(Replay(before, loops).value, e, loops, id);
      CountOn(before, e, Event.Entered(id));
      CountOn(before, e, Exited(id));
      CountOn(before, e, Event.Opened(id));
      CountOn(before, e, Closed(id));
    } else {
      Empty(loops);
    }
  }

  lemma StepNone(e: Event, loops: bool)
    ensures Step(None, e, loops) == None
  {}

  lemma CountOn<T>(s: seq<T>, e: T, x: T)
    ensures multiset(s + [e])[x] == multiset(s)[x] + if e == x then 1 else 0
  {}

  lemma HeldStep(s: seq<Held>, e: Event, loops: bool, id: nat)
    requires Step(Some(s), e, loops).Some?
    ensures
      var was, now := multiset(s), multiset(Step(Some(s), e, loops).value);
      var r, it := Resource(id), Iterator(id);
      && now[r] + (if e == Exited(id) then 1 else 0) == was[r] + (if e == Event.Entered(id) then 1 else 0)
      && (if loops then
            now[it] + (if e == Closed(id) then 1 else 0) == was[it] + (if e == Event.Opened(id) then 1 else 0)
          else now[it] == was[it])
  {
    hide GiveBack;
    match e
    case Entered(k) => CountOn(s, Resource(k), Resource(id)); CountOn(s, Resource(k), Iterator(id));
    case Exited(k) => GivenBack(s, Resource(k), Resource(id)); GivenBack(s, Resource(k), Iterator(id));
    case Opened(k) => CountOn(s, Iterator(k), Resource(id)); CountOn(s, Iterator(k), Iterator(id));
    case Closed(k) =>
      if loops {
        GivenBack(s, Iterator(k), Resource(id));
        GivenBack(s, Iterator(k), Iterator(id));
      }
    case Printed(_) =>
  }

  lemma GivenBack(s: seq<Held>, h: Held, x: Held)
    requires GiveBack(s, h).Some?
    ensures multiset(GiveBack(s, h).value)[x] + (if h == x then 1 else 0) == multiset(s)[x]
  {
    var t := s[..|s| - 1];
    assert s == t + [h];
    CountOn(t, h, x);
  }

  lemma Empty(loops: bool)
    ensures Replay([], loops) == Some([])
  {}

  /** Of two resources the inner one has to be given back first. */
  lemma InnerFirst(a: nat, b: nat)
    requires a != b
    ensures Replay([Event.Entered(a), Event.Entered(b), Exited(b), Exited(a)], false) == Some([])
    ensures Replay([Event.Entered(a), Event.Entered(b), Exited(a), Exited(b)], false) == None
    ensures Replay([Event.Entered(a)], false) == Some([Resource(a)]) && Replay([Exited(a)], false) == None
  {
    hide Replay, Step;
    Empty(false);
    var one, two := [Event.Entered(a)], [Event.Entered(a), Event.Entered(b)];
    OneMore([], one, Event.Entered(a));
    OneMore([], [Exited(a)], Exited(a));
    OneMore(one, two, Event.Entered(b));
    OneMore(two, two + [Exited(b)], Exited(b));
    OneMore(two, two + [Exited(a)], Exited(a));
    OneMore(two + [Exited(b)], [Event.Entered(a), Event.Entered(b), Exited(b), Exited(a)], Exited(a));
    OneMore(two + [Exited(a)], [Event.Entered(a), Event.Entered(b), Exited(a), Exited(b)], Exited(b));
    TwoHeld(a, b);
  }

  lemma OneMore(trace: seq<Event>, more: seq<Event>, e: Event)
    requires more == trace + [e]
    ensures Replay(more, false) == Step(Replay(trace, false), e, false)
  {
    hide Replay, Step;
    ReplayOne(trace, e, false);
  }

  lemma TwoHeld(a: nat, b: nat)
    requires a != b
    ensures
      var one, two := [Resource(a)], [Resource(a), Resource(b)];
      && Step(Some([]), Event.Entered(a), false) == Some(one) && Step(Some([]), Exited(a), false) == None
      && Step(Some(one), Event.Entered(b), false) == Some(two) && Step(Some(two), Exited(b), false) == Some(one)
      && Step(Some(two), Exited(a), false) == None && Step(Some(one), Exited(a), false) == Some([])
      && Step(None, Exited(b), false) == None
  {
    var none: seq<Held>, one, two := [], [Resource(a)], [Resource(a), Resource(b)];
    assert two[..1] == one && one[..0] == none && none + [Resource(a)] == one && one + [Resource(b)] == two;
  }

  predicate Same(w: World, o: Outcome, loops: bool) { o.Timeout? || Replay(o.w.trace, loops) == Replay(w.trace, loops) }

  lemma ReplayOne(trace: seq<Event>, e: Event, loops: bool)
    ensures Replay(trace + [e], loops) == Step(Replay(trace, loops), e, loops)
  {
    assert (trace + [e])[..|trace|] == trace;
  }

  /** Nothing, or an event that does not count. */
  lemma Plain(trace: seq<Event>, e: seq<Event>, loops: bool)
    requires |e| <= 1 && forall x :: x in e ==> x.Printed? || (!loops && (x.Opened? || x.Closed?))
    ensures Replay(trace + e, loops) == Replay(trace, loops)
  {
    if |e| == 1 {
      assert e == [e[0]];
      ReplayOne(trace, e[0], loops);
    } else {
      assert trace + e == trace;
    }
  }

  /** Entering, then something that comes back, then exiting, comes back. */
  lemma Bracket(trace: seq<Event>, v: Value, inner: seq<Event>, loops: bool)
    requires Replay(inner, loops) == Replay(trace + EnterEvents(v), loops)
    ensures Replay(inner + ExitEvents(v), loops) == Replay(trace, loops)
  {
    if v.Res? {
      ReplayOne(trace, Event.Entered(v.rid), loops);
      ReplayOne(inner, Exited(v.rid), loops);
    } else {
      assert trace + EnterEvents(v) == trace && inner + ExitEvents(v) == inner;
    }
  }

  /** So does opening an iterator, and so on; where iterators do not count, closing or not. */
  lemma LoopBracket(trace: seq<Event>, it: Value, inner: seq<Event>, loops: bool)
    requires Replay(inner, loops) == Replay(trace + Opens(it), loops)
    ensures Replay(inner + Close(it), loops) == Replay(trace, loops)
    ensures !loops ==> Replay(inner, loops) == Replay(trace, loops)
  {
    if it.Iter? && it.gen.Some? {
      ReplayOne(trace, Opened(it.gen.value), loops);
      ReplayOne(inner, Closed(it.gen.value), loops);
    } else {
      assert trace + Opens(it) == trace && inner + Close(it) == inner;
    }
  }

  lemma {:induction false} Statement(d: Dialect, loops: bool, s: Stmt, w: World, fuel: nat)
    requires loops ==> d.Evaluator?
    ensures Same(w, ExecS(d, s, w, fuel), loops)
    decreases fuel, Size(s), 1
  {
    hide Replay, EvalE, EvalCond, EvalIterable, OptEval, Bind, Thrown, ExecBlock, ExecElifs;
    match s
    case Print(e) =>
      var r := EvalE(d, e, w.env);
      if r.Yields? { Plain(w.trace, [Printed(r.v)], loops); }
    case If(c, t, es, a) =>
      var r := EvalCond(d, c, w.env);
      if r.Yields? { Block(d, loops, t, w.(env := r.env), fuel); Chain(d, loops, es, a, w.(env := r.env), fuel); }
    case While(c, b) =>
      if fuel > 0 {
        var r := EvalCond(d, c, w.env);
        if r.Yields? && r.v != Bool(false) {
          Block(d, loops, b, w.(env := r.env), fuel);
          var o := ExecBlock(d, b, w.(env := r.env), fuel);
          if o.Normal? || o.Cnt? { Statement(d, loops, s, o.w, fuel - 1); }
        }
      }
    case For(_, _, _, _) => Scoped(d, loops, s, w, fuel);
    case ForIn(_, _, _) => Scoped(d, loops, s, w, fuel);
    case Try(_, _, _) => Guarded(d, loops, s, w, fuel);
    case With(_, _, _) => Guarded(d, loops, s, w, fuel);
    case _ =>
  }

  lemma {:induction false} Scoped(d: Dialect, loops: bool, s: Stmt, w: World, fuel: nat)
    requires loops ==> d.Evaluator?
    requires s.For? || s.ForIn?
    ensures Same(w, ExecS(d, s, w, fuel), loops)
    decreases fuel, Size(s), 0
  {
    hide Replay, EvalE, EvalCond, EvalIterable, OptEval, Bind, Close, IterRest, ExecFor, ExecEach;
    var w0 := Open(w, map[]);
    if s.For? {
      if s.first.Some? { Statement(d, loops, AsStmt(s.first.value), w0, fuel); }
      var o := if s.first.None? then Normal(w0) else ExecS(d, AsStmt(s.first.value), w0, fuel);
      if o.Normal? { Loop(d, loops, s.cond, s.update, s.body, o.w, fuel); }
    } else {
      var r := EvalIterable(d, s.iterable, w0.env);
      if r.Yields? {
        var w1 := Begun(w0, s.x, r.env, r.v);
        Each(d, loops, s.x, s.body, w1, IterRest(r.v), fuel);
        var o := ExecEach(d, s.x, s.body, w1, IterRest(r.v), fuel);
        if !o.Timeout? { LoopBracket(w.trace, r.v, o.w.trace, loops); }
      }
    }
  }

  lemma {:induction false} Guarded(d: Dialect, loops: bool, s: Stmt, w: World, fuel: nat)
    requires loops ==> d.Evaluator?
    requires s.Try? || s.With?
    ensures Same(w, ExecS(d, s, w, fuel), loops)
    decreases fuel, Size(s), 0
  {
    hide Replay, EvalE, Bind, Select, EnterEvents, ExitEvents, ExecBlock, ExecHandler, Finally;
    if s.Try? {
      Block(d, loops, s.body, w, fuel);
      var o := ExecBlock(d, s.body, w, fuel);
      if o.Thr? {
        Handler(d, loops, Select(s.catches, PendOf(o.w)), s.fin, o.w, fuel);
      } else {
        Last(d, loops, s.fin, o, fuel);
      }
    } else {
      var w0 := Open(w, map[]);
      var r := EvalE(d, s.e, w0.env);
      if r.Yields? {
        var w1 := Log(w0.(env := if s.name.None? then r.env else Bind(r.env, s.name.value, r.v)), EnterEvents(r.v));
        Block(d, loops, s.body, w1, fuel);
        var o := ExecBlock(d, s.body, w1, fuel);
        if !o.Timeout? { Bracket(w.trace, r.v, o.w.trace, loops); }
      }
    }
  }

  lemma {:induction false} Block(d: Dialect, loops: bool, b: Stmts, w: World, fuel: nat)
    requires loops ==> d.Evaluator?
    ensures Same(w, ExecBlock(d, b, w, fuel), loops)
    decreases fuel, BlockSize(b), 1
  {
    Statements(d, loops, b, Open(w, map[]), fuel);
  }

  lemma {:induction false} Statements(d: Dialect, loops: bool, b: Stmts, w: World, fuel: nat)
    requires loops ==> d.Evaluator?
    ensures Same(w, ExecList(d, b, w, fuel), loops)
    decreases fuel, BlockSize(b), 0
  {
    if b.Cons? {
      Statement(d, loops, b.head, w, fuel);
      var o := ExecS(d, b.head, w, fuel);
      if o.Normal? { Statements(d, loops, b.tail, o.w, fuel); }
    }
  }

  lemma {:induction false} Chain(d: Dialect, loops: bool, es: Elifs, a: Option<Stmts>, w: World, fuel: nat)
    requires loops ==> d.Evaluator?
    ensures Same(w, ExecElifs(d, es, a, w, fuel), loops)
    decreases fuel, ElifsSize(es) + (if a.Some? then BlockSize(a.value) else 0), 2
  {
    match es
    case NoElif => if a.Some? { Block(d, loops, a.value, w, fuel); }
    case Elif(c, b, rest) =>
      var r := EvalCond(d, c, w.env);
      if r.Yields? { Block(d, loops, b, w.(env := r.env), fuel); Chain(d, loops, rest, a, w.(env := r.env), fuel); }
  }

  lemma {:induction false} Loop(d: Dialect, loops: bool, c: Option<Expr>, u: Option<Expr>, b: Stmts, w: World,
          fuel: nat)
    requires loops ==> d.Evaluator?
    ensures Same(w, ExecFor(d, c, u, b, w, fuel), loops)
    decreases fuel, BlockSize(b), 2
  {
    if fuel > 0 {
      var r := if c.None? then Yields(Bool(true), w.env) else EvalCond(d, c.value, w.env);
      if r.Yields? && r.v != Bool(false) {
        Block(d, loops, b, w.(env := r.env), fuel);
        var o := ExecBlock(d, b, w.(env := r.env), fuel);
        if o.Normal? || o.Cnt? {
          var r1 := OptEval(d, u, o.w.env);
          if r1.Yields? { Loop(d, loops, c, u, b, o.w.(env := r1.env), fuel - 1); }
        }
      }
    }
  }

  lemma {:induction false} Each(d: Dialect, loops: bool, x: string, b: Stmts, w: World, items: seq<Value>, fuel: nat)
    requires loops ==> d.Evaluator?
    ensures Same(w, ExecEach(d, x, b, w, items, fuel), loops)
    decreases fuel, BlockSize(b), 2, |items|
  {
    if items != [] {
      var w1 := w.(env := Bind(w.env, x, items[0]));
      Block(d, loops, b, w1, fuel);
      var o := ExecBlock(d, b, w1, fuel);
      if o.Normal? || o.Cnt? { Each(d, loops, x, b, o.w, items[1..], fuel); }
    }
  }

  lemma {:induction false} Last(d: Dialect, loops: bool, f: Option<Stmts>, o: Outcome, fuel: nat)
    requires loops ==> d.Evaluator?
    ensures !o.Timeout? ==> Same(o.w, Finally(d, f, o, fuel), loops)
    ensures o.Timeout? ==> Finally(d, f, o, fuel).Timeout?
    decreases fuel, if f.Some? then BlockSize(f.value) else 0, 2
  {
    if f.Some? && !o.Timeout? { Block(d, loops, f.value, o.w, fuel); }
  }

  lemma {:induction false} Handler(d: Dialect, loops: bool, cs: Catches, f: Option<Stmts>, w: World, fuel: nat)
    requires loops ==> d.Evaluator?
    ensures Same(w, ExecHandler(d, cs, f, w, fuel), loops)
    decreases fuel, CatchesSize(cs) + (if f.Some? then BlockSize(f.value) else 0), 3
  {
    match cs
    case Catch(_, name, b, _) =>
      var frame := if name.Some? then map[name.value := PendOf(w)] else map[];
      var w1 := Open(w, frame).(pend := None);
      Statements(d, loops, b, w1, fuel);
      var o := ExecList(d, b, w1, fuel);
      Last(d, loops, f, o, fuel);
      Last(d, loops, f, ShutAll(o), fuel);
    case NoCatch =>
      Last(d, loops, f, Thr(w), fuel);
      if f.Some? {
        Block(d, loops, f.value, w, fuel);
        var o := ExecBlock(d, f.value, w, fuel);
        if o.Normal? { Last(d, loops, f, o, fuel); }
      }
  }
}
