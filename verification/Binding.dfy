/** Call-site arguments, positional and named, bound to parameter slots. */
module Binding {

  /** `params` and `hasDefault` are parallel, though the latter may be shorter; with
      `variadic` the last parameter collects what is left over. */
  datatype Signature = Signature(params: seq<string>, hasDefault: seq<bool>, variadic: bool)

  /** A call-site argument; positional ones have no name. */
  datatype Arg = Arg(name: string)

  /** Per parameter the index of the argument that fills it, or DEFAULT; `tail` holds the
      positional overflow. */
  datatype Result = Result(slots: seq<int>, tail: seq<nat>)

  datatype Failure = TooMany | Missing(param: nat) | Unknown(arg: nat) | Twice(arg: nat)

  datatype Outcome<+T> = Bound(value: T) | Failed(why: Failure)

  const DEFAULT: int := -1

  function LowerChar(c: char): char { if 'A' <= c <= 'Z' then c + 32 as char else c }
  function Lower(s: string): string { seq(|s|, i requires 0 <= i < |s| => LowerChar(s[i])) }

  const SMALL := "abcdefghijklmnopqrstuvwxyz"
  const LARGE := "ABCDEFGHIJKLMNOPQRSTUVWXYZ"

  /** The same character, or the small and the large form of one letter. */
  predicate SameLetter(c: char, d: char) {
    c == d || exists n :: 0 <= n < 26 && ((SMALL[n] == c && LARGE[n] == d) || (SMALL[n] == d && LARGE[n] == c))
  }

  /** The same up to case. */
  predicate SameName(a: string, b: string) { |a| == |b| && forall i :: 0 <= i < |a| ==> SameLetter(a[i], b[i]) }

  lemma Letters()
    ensures |SMALL| == |LARGE| == 26
    ensures forall n :: 0 <= n < 26 ==> SMALL[n] as int == 97 + n && LARGE[n] as int == 65 + n
  {}

  lemma LowerLetter(c: char, d: char)
    ensures SameLetter(c, d) <==> LowerChar(c) == LowerChar(d)
  {
    hide SMALL, LARGE;
    Letters();
    if c != d && LowerChar(c) == LowerChar(d) {
      var n := (if 'A' <= c <= 'Z' then c as int else d as int) - 65;
      assert SMALL[n] as int == 97 + n && LARGE[n] as int == 65 + n;
    }
  }

  lemma LowerName(a: string, b: string)
    ensures SameName(a, b) <==> Lower(a) == Lower(b)
  {
    hide SameLetter, LowerChar;
    forall i | 0 <= i < |a| && i < |b| ensures SameLetter(a[i], b[i]) <==> Lower(a)[i] == Lower(b)[i] {
      LowerLetter(a[i], b[i]);
    }
    if Lower(a) == Lower(b) { assert |a| == |Lower(a)| == |b|; }
  }

  function VariadicIndex(sig: Signature): int {
    if sig.variadic && |sig.params| > 0 then |sig.params| - 1 else -1
  }

  predicate HasDefaultAt(sig: Signature, i: nat) { i < |sig.hasDefault| && sig.hasDefault[i] }

  /** The name means the i-th parameter: the last one that is the same up to case. */
  ghost predicate Means(params: seq<string>, name: string, i: int) {
    0 <= i < |params| && SameName(params[i], name) && forall j :: i < j < |params| ==> !SameName(params[j], name)
  }

  /** The parameter a name means, as it is found; of two that differ in case only, the later one. */
  function Position(params: seq<string>, name: string): (i: int)
    ensures -1 <= i < |params|
    ensures i >= 0 ==> Lower(params[i]) == Lower(name)
    ensures forall j :: i < j < |params| ==> Lower(params[j]) != Lower(name)
  {
    var n := |params|;
    if n == 0 then -1 else if Lower(params[n - 1]) == Lower(name) then n - 1 else Position(params[..n - 1], name)
  }

  /** The parameter that is found is the one that is meant, and none is found exactly when none
      is the same up to case. */
  lemma PositionMeans(params: seq<string>, name: string)
    ensures
      var i := Position(params, name);
      && (i >= 0 <==> exists j :: 0 <= j < |params| && SameName(params[j], name))
      && forall k :: Means(params, name, k) <==> i >= 0 && k == i
  {
    hide SameName, Lower;
    forall j | 0 <= j < |params| ensures SameName(params[j], name) <==> Lower(params[j]) == Lower(name) {
      LowerName(params[j], name);
    }
  }

  predicate HasNamed(args: seq<Arg>) { exists a :: 0 <= a < |args| && args[a].name != "" }

  /** What a binding must be, without saying how it is found: every argument is used exactly
      once, named ones by the parameter they name, positional ones by the leftmost parameter
      that is not already taken by an argument before them, and what is left unfilled has a
      default or is the variadic parameter. */
  ghost predicate IsBinding(sig: Signature, args: seq<Arg>, r: Result) {
    var n := |args|;
    && |r.slots| == |sig.params|
    && (forall i :: 0 <= i < |r.slots| ==> r.slots[i] == DEFAULT || 0 <= r.slots[i] < n)
    && (forall i, j :: 0 <= i < j < |r.slots| ==> r.slots[i] == r.slots[j] ==> r.slots[i] == DEFAULT)
    && (forall i :: 0 <= i < |r.slots| && r.slots[i] == DEFAULT ==> HasDefaultAt(sig, i) || i == VariadicIndex(sig))
    && (if HasNamed(args) then
          && r.tail == []
          && (forall a :: 0 <= a < n ==> Placed(sig, args, r.slots, a))
        else
          var fixed := FixedCount(sig);
          && (forall i :: 0 <= i < |r.slots| ==> r.slots[i] == if i < fixed && i < n then i else DEFAULT)
          && r.tail == (if n > fixed then seq(n - fixed, k requires 0 <= k < n - fixed => fixed + k) else [])
          && (n > fixed ==> VariadicIndex(sig) >= 0))
  }

  function FixedCount(sig: Signature): nat { if VariadicIndex(sig) >= 0 then |sig.params| - 1 else |sig.params| }

  /** The argument in slot i belongs there. */
  ghost predicate InPlace(sig: Signature, args: seq<Arg>, slots: seq<int>, i: nat)
    requires |slots| == |sig.params| && i < |slots| && 0 <= slots[i] < |args|
  {
    var arg := args[slots[i]];
    if arg.name != "" then Means(sig.params, arg.name, i)
    else forall j :: 0 <= j < i ==> 0 <= slots[j] < slots[i]
  }

  ghost predicate Takes(sig: Signature, args: seq<Arg>, slots: seq<int>, i: nat, a: int) {
    |slots| == |sig.params| && i < |slots| && 0 <= a < |args| && slots[i] == a && InPlace(sig, args, slots, i)
  }

  ghost predicate Placed(sig: Signature, args: seq<Arg>, slots: seq<int>, a: int) {
    exists i: nat :: Takes(sig, args, slots, i, a)
  }

  /** slots holds the arguments before k as r does, and nothing else. */
  ghost predicate SoFar(slots: seq<int>, r: seq<int>, k: nat) {
    |slots| == |r| && forall i :: 0 <= i < |r| ==> slots[i] == if 0 <= r[i] < k then r[i] else DEFAULT
  }

  /** What a refusal says is so. */
  ghost predicate Explains(sig: Signature, args: seq<Arg>, why: Failure) {
    match why
    case TooMany => |args| > |sig.params| && (HasNamed(args) || VariadicIndex(sig) < 0)
    case Missing(i) =>
      && i < |sig.params| && i != VariadicIndex(sig) && !HasDefaultAt(sig, i)
      && (if HasNamed(args) then
            forall a :: 0 <= a < |args| && args[a].name != "" ==> !Means(sig.params, args[a].name, i)
          else |args| <= i)
    case Unknown(a) =>
      a < |args| && args[a].name != "" && forall i :: 0 <= i < |sig.params| ==> !SameName(sig.params[i], args[a].name)
    case Twice(a) =>
      a < |args| && args[a].name != "" && exists i, b :: Taken(sig, args, i, b, a)
  }

  /** Argument a means parameter i, which b, an argument before it, has taken. */
  ghost predicate Taken(sig: Signature, args: seq<Arg>, i: int, b: int, a: int) {
    && 0 <= b < a < |args| && Means(sig.params, args[a].name, i)
    && (args[b].name == "" || Means(sig.params, args[b].name, i))
  }

  /** Order. It finds the binding whenever there is one. */
  method Order(sig: Signature, args: seq<Arg>) returns (out: Outcome<Result>)
    ensures out.Failed? ==> Explains(sig, args, out.why)
    ensures out.Bound? ==> IsBinding(sig, args, out.value)
    ensures out.Bound? <==> exists r :: IsBinding(sig, args, r)
  {
    var paramCount := |sig.params|;
    var hasNamed := false;
    for i := 0 to |args|
      invariant hasNamed <==> exists a :: 0 <= a < i && args[a].name != ""
    {
      if args[i].name != "" { hasNamed := true; break; }
    }
    if hasNamed {
      out := OrderNamed(sig, args);
    } else {
      out := OrderPositional(sig, args);
    }
  }

  method OrderPositional(sig: Signature, args: seq<Arg>) returns (out: Outcome<Result>)
    requires !HasNamed(args)
    ensures out.Failed? ==> Explains(sig, args, out.why)
    ensures out.Bound? ==> IsBinding(sig, args, out.value)
    ensures out.Bound? <==> exists r :: IsBinding(sig, args, r)
  {
    var slots := seq(|sig.params|, _ => DEFAULT);
    var fixed := FixedCount(sig);
    if |args| > fixed && VariadicIndex(sig) < 0 { return Failed(TooMany); }
    for i := 0 to fixed
      invariant |slots| == |sig.params|
      invariant forall j :: 0 <= j < |slots| ==> slots[j] == if j < i && j < |args| then j else DEFAULT
      invariant forall j :: |args| <= j < i ==> HasDefaultAt(sig, j)
    {
      if i < |args| {
        slots := slots[i := i];
      } else if !HasDefaultAt(sig, i) {
        forall r ensures !IsBinding(sig, args, r) { NothingFor(sig, args, r, i); }
        return Failed(Missing(i));
      }
    }
    var tail: seq<nat> := [];
    var i := fixed;
    while i < |args|
      invariant fixed <= i
      invariant i <= |args| || i == fixed
      invariant tail == seq(i - fixed, k requires 0 <= k < i - fixed => fixed + k)
    {
      tail := tail + [i];
      i := i + 1;
    }
    out := Bound(Result(slots, tail));
    assert IsBinding(sig, args, out.value);
  }

  /** The slots after the arguments before k. */
  ghost predicate Progress(sig: Signature, args: seq<Arg>, slots: seq<int>, k: nat) {
    && |slots| == |sig.params| && k <= |args|
    && (forall i :: 0 <= i < |slots| ==> slots[i] == DEFAULT || 0 <= slots[i] < k)
    && (forall i, j :: 0 <= i < j < |slots| ==> slots[i] == slots[j] ==> slots[i] == DEFAULT)
    && (forall a :: 0 <= a < k ==> Placed(sig, args, slots, a))
    && (forall r :: IsBinding(sig, args, r) ==> SoFar(slots, r.slots, k))
  }

  method OrderNamed(sig: Signature, args: seq<Arg>) returns (out: Outcome<Result>)
    requires HasNamed(args)
    ensures out.Failed? ==> Explains(sig, args, out.why)
    ensures out.Bound? ==> IsBinding(sig, args, out.value)
    ensures out.Bound? <==> exists r :: IsBinding(sig, args, r)
  {
    var slots := seq(|sig.params|, _ => DEFAULT);
    var nextPositional := 0;
    hide InPlace, Explains;
    for k := 0 to |args|
      invariant Progress(sig, args, slots, k) && nextPositional <= |slots|
      invariant forall j :: 0 <= j < nextPositional ==> slots[j] != DEFAULT
    {
      if args[k].name == "" {
        while nextPositional < |slots| && slots[nextPositional] != DEFAULT
          invariant nextPositional <= |slots|
          invariant forall j :: 0 <= j < nextPositional ==> slots[j] != DEFAULT
        {
          nextPositional := nextPositional + 1;
        }
        if nextPositional >= |slots| {
          forall r ensures !IsBinding(sig, args, r) { NoPlace(sig, args, slots, r, k); }
          NoneFree(sig, args, slots, k);
          return Failed(TooMany);
        }
        Advance(sig, args, slots, k, nextPositional);
        slots := slots[nextPositional := k];
        nextPositional := nextPositional + 1;
      } else {
        var position := Position(sig.params, args[k].name);
        if position < 0 || slots[position] != DEFAULT {
          forall r ensures !IsBinding(sig, args, r) { NoPlace(sig, args, slots, r, k); }
          NotFree(sig, args, slots, k);
          return Failed(if position < 0 then Unknown(k) else Twice(k));
        }
        Advance(sig, args, slots, k, position);
        slots := slots[position := k];
      }
    }
    for i := 0 to |slots|
      invariant forall j :: 0 <= j < i && slots[j] == DEFAULT ==> HasDefaultAt(sig, j) || j == VariadicIndex(sig)
    {
      if i != VariadicIndex(sig) && slots[i] == DEFAULT && !HasDefaultAt(sig, i) {
        forall r ensures !IsBinding(sig, args, r) { StillOpen(sig, args, slots, r, i); }
        NotGiven(sig, args, slots, i);
        return Failed(Missing(i));
      }
    }
    out := Bound(Result(slots, []));
    assert IsBinding(sig, args, out.value);
  }

  /** A required parameter that no positional argument reaches. */
  lemma NothingFor(sig: Signature, args: seq<Arg>, r: Result, i: nat)
    requires !HasNamed(args) && |args| <= i < FixedCount(sig) && !HasDefaultAt(sig, i)
    ensures !IsBinding(sig, args, r)
  {}

  /** The next argument has nowhere to go. */
  lemma NoPlace(sig: Signature, args: seq<Arg>, slots: seq<int>, r: Result, k: nat)
    requires HasNamed(args) && k < |args| && Progress(sig, args, slots, k)
    requires
      if args[k].name == "" then forall j :: 0 <= j < |slots| ==> slots[j] != DEFAULT
      else var p := Position(sig.params, args[k].name); p < 0 || slots[p] != DEFAULT
    ensures !IsBinding(sig, args, r)
  {
    if IsBinding(sig, args, r) { var i := HasSlot(sig, args, slots, r, k); }
  }

  /** The parameters are all taken, by as many arguments. */
  lemma NoneFree(sig: Signature, args: seq<Arg>, slots: seq<int>, k: nat)
    requires HasNamed(args) && k < |args| && Progress(sig, args, slots, k)
    requires forall j :: 0 <= j < |slots| ==> slots[j] != DEFAULT
    ensures Explains(sig, args, TooMany)
  {
    Pigeons(slots, k);
  }

  lemma {:induction false} Pigeons(s: seq<int>, k: nat)
    requires forall i :: 0 <= i < |s| ==> 0 <= s[i] < k
    requires forall i, j :: 0 <= i < j < |s| ==> s[i] != s[j]
    ensures |s| <= k
  {
    if |s| > 0 {
      assert 0 <= s[0] < k;
      if i :| 0 <= i < |s| && s[i] == k - 1 { Pigeons(s[..i] + s[i + 1..], k - 1); } else { Pigeons(s, k - 1); }
    }
  }

  /** The parameter that is named does not exist, or is taken. */
  lemma NotFree(sig: Signature, args: seq<Arg>, slots: seq<int>, k: nat)
    requires HasNamed(args) && k < |args| && Progress(sig, args, slots, k) && args[k].name != ""
    ensures
      var p := Position(sig.params, args[k].name);
      if p < 0 then Explains(sig, args, Unknown(k)) else slots[p] != DEFAULT ==> Explains(sig, args, Twice(k))
  {
    hide SameName, Position;
    PositionMeans(sig.params, args[k].name);
    var p := Position(sig.params, args[k].name);
    if p >= 0 && slots[p] != DEFAULT {
      var b := slots[p];
      assert Placed(sig, args, slots, b);
      var i: nat :| Takes(sig, args, slots, i, b);
      assert i == p;
      assert Taken(sig, args, p, b, k);
    }
  }

  /** No argument means a parameter that is open once all arguments are placed. */
  lemma NotGiven(sig: Signature, args: seq<Arg>, slots: seq<int>, i: nat)
    requires HasNamed(args) && Progress(sig, args, slots, |args|)
    requires i < |slots| && slots[i] == DEFAULT && i != VariadicIndex(sig) && !HasDefaultAt(sig, i)
    ensures Explains(sig, args, Missing(i))
  {
    hide SameName, Position;
    forall a | 0 <= a < |args| && args[a].name != "" ensures !Means(sig.params, args[a].name, i) {
      PositionMeans(sig.params, args[a].name);
      assert Placed(sig, args, slots, a);
      var j: nat :| Takes(sig, args, slots, j, a);
    }
  }

  /** A required parameter that is open once all arguments are placed. */
  lemma StillOpen(sig: Signature, args: seq<Arg>, slots: seq<int>, r: Result, i: nat)
    requires HasNamed(args) && Progress(sig, args, slots, |args|)
    requires i < |slots| && slots[i] == DEFAULT && i != VariadicIndex(sig) && !HasDefaultAt(sig, i)
    ensures !IsBinding(sig, args, r)
  {
    hide InPlace;
    var filled := SoFar(slots, r.slots, |args|);
  }

  /** In any binding the next argument has a slot, which is still free. */
  lemma HasSlot(sig: Signature, args: seq<Arg>, slots: seq<int>, r: Result, k: nat) returns (i: nat)
    requires HasNamed(args) && k < |args| && Progress(sig, args, slots, k) && IsBinding(sig, args, r)
    ensures i < |slots| && r.slots[i] == k && slots[i] == DEFAULT && InPlace(sig, args, r.slots, i)
    ensures args[k].name == "" ==> forall j :: 0 <= j < i ==> slots[j] != DEFAULT
    ensures args[k].name != "" ==> i == Position(sig.params, args[k].name)
  {
    PositionMeans(sig.params, args[k].name);
    assert Placed(sig, args, r.slots, k);
    i :| Takes(sig, args, r.slots, i, k);
    assert SoFar(slots, r.slots, k);
  }

  /** Putting argument k where it belongs. */
  lemma Advance(sig: Signature, args: seq<Arg>, slots: seq<int>, k: nat, p: nat)
    requires HasNamed(args) && k < |args| && Progress(sig, args, slots, k) && p < |slots| && slots[p] == DEFAULT
    requires if args[k].name == "" then forall j :: 0 <= j < p ==> slots[j] != DEFAULT
        else p == Position(sig.params, args[k].name)
    ensures Progress(sig, args, slots[p := k], k + 1)
  {
    hide SameName, Position;
    PositionMeans(sig.params, args[k].name);
    var slots1 := slots[p := k];
    forall a | 0 <= a < k + 1
      ensures Placed(sig, args, slots1, a)
    {
      if a == k {
        assert Takes(sig, args, slots1, p, a);
      } else {
        assert Placed(sig, args, slots, a);
        var i: nat :| Takes(sig, args, slots, i, a);
        assert Takes(sig, args, slots1, i, a);
      }
    }
    forall r | IsBinding(sig, args, r)
      ensures SoFar(slots1, r.slots, k + 1)
    {
      var i := HasSlot(sig, args, slots, r, k);
      assert i == p;
      assert SoFar(slots, r.slots, k);
      forall j | 0 <= j < |slots1|
        ensures slots1[j] == if 0 <= r.slots[j] < k + 1 then r.slots[j] else DEFAULT
      {
        assert j == p || r.slots[j] != r.slots[p];
      }
    }
  }

  /** A call has at most one binding. */
  lemma Unique(sig: Signature, args: seq<Arg>, r: Result, s: Result)
    requires IsBinding(sig, args, r) && IsBinding(sig, args, s)
    ensures r == s
  {
    hide InPlace;
    if HasNamed(args) {
      var k := 0;
      var slots := seq(|sig.params|, _ => DEFAULT);
      assert Progress(sig, args, slots, 0);
      while k < |args|
        invariant k <= |args| && Progress(sig, args, slots, k)
      {
        var i := HasSlot(sig, args, slots, r, k);
        Advance(sig, args, slots, k, i);
        slots, k := slots[i := k], k + 1;
      }
      assert SoFar(slots, r.slots, k) && SoFar(slots, s.slots, k);
      assert r.slots == slots == s.slots;
    } else {
      assert r.slots == s.slots;
    }
  }

  // ----- which calls have a binding

  predicate DefaultsFrom(hasDefault: seq<bool>, from: nat, to: nat) {
    |hasDefault| >= to && forall i :: from <= i < to ==> hasDefault[i]
  }

  /** A call by position has a binding exactly when it has no more arguments than there are
      parameters, but for a variadic last one, and those it does not reach have defaults. */
  lemma ByPosition(sig: Signature, args: seq<Arg>)
    requires !HasNamed(args)
    ensures
      var p, n := |sig.params|, |args|;
      (exists r :: IsBinding(sig, args, r)) <==>
      if sig.variadic && p > 0 then n >= p - 1 || DefaultsFrom(sig.hasDefault, n, p - 1)
      else n == p || (n < p && DefaultsFrom(sig.hasDefault, n, p))
  {
    var p, n, fixed := |sig.params|, |args|, FixedCount(sig);
    assert fixed == if sig.variadic && p > 0 then p - 1 else p;
    if (fixed == p ==> n <= p) && forall i :: n <= i < fixed ==> HasDefaultAt(sig, i) {
      var r := Result(seq(p, i requires 0 <= i < p => if i < fixed && i < n then i else DEFAULT),
                      if n > fixed then seq(n - fixed, k requires 0 <= k < n - fixed => fixed + k) else []);
      assert IsBinding(sig, args, r);
    }
    if i :| n <= i < fixed && !HasDefaultAt(sig, i) {
      forall r ensures !IsBinding(sig, args, r) { NothingFor(sig, args, r, i); }
    } else if n < fixed {
      assert HasDefaultAt(sig, fixed - 1);
      forall i | n <= i < fixed ensures i < |sig.hasDefault| && sig.hasDefault[i] { assert HasDefaultAt(sig, i); }
    }
  }

  /** f(name), called as f(Name: 1), binds the argument; called as f(game: 1) it is refused. */
  lemma CaseInput()
    ensures IsBinding(Signature(["name"], [], false), [Arg("Name")], Result([0], []))
    ensures !exists r :: IsBinding(Signature(["name"], [], false), [Arg("game")], r)
  {
    hide SameName;
    CaseNames();
    var sig, args, other := Signature(["name"], [], false), [Arg("Name")], [Arg("game")];
    assert HasNamed(args) by { assert args[0].name != ""; }
    assert Takes(sig, args, [0], 0, 0);
    assert Placed(sig, args, [0], 0);
    assert HasNamed(other) by { assert other[0].name != ""; }
    forall r ensures !IsBinding(sig, other, r) { assert !Placed(sig, other, r.slots, 0); }
  }

  lemma CaseNames()
    ensures SameName("name", "Name") && !SameName("name", "game")
  {
    hide SMALL, LARGE;
    Letters();
    assert SMALL[13] == 'n' && LARGE[13] == 'N';
    assert SameLetter('n', 'N');
    LowerLetter("name"[0], "game"[0]);
    assert LowerChar('n') != LowerChar('g');
  }

  /** f(a, b = .., ...rest): a call with one argument leaves b to its default, a call with four
      passes two on to rest, and a call with none is refused. */
  lemma RestInput()
    ensures
      var sig := Signature(["a", "b", "rest"], [false, true], true);
      && IsBinding(sig, [Arg("")], Result([0, DEFAULT, DEFAULT], []))
      && IsBinding(sig, [Arg(""), Arg(""), Arg(""), Arg("")], Result([0, 1, DEFAULT], [2, 3]))
      && !exists r :: IsBinding(sig, [], r)
  {
    var sig := Signature(["a", "b", "rest"], [false, true], true);
    var four := [Arg(""), Arg(""), Arg(""), Arg("")];
    assert !HasNamed([Arg("")]) && !HasNamed(four);
    assert seq(2, k requires 0 <= k < 2 => 2 + k) == [2, 3];
    ByPosition(sig, []);
    assert !sig.hasDefault[0];
  }

  // ----- arguments of native functions

  /** The filled slots before i, in parameter order, the variadic one left out. */
  function Collected(slots: seq<int>, i: nat, skip: int): (r: seq<int>)
    requires i <= |slots|
    ensures forall k :: 0 <= k < |r| ==> r[k] >= 0
  {
    if i == 0 then []
    else Collected(slots, i - 1, skip) + (if i - 1 != skip && slots[i - 1] >= 0 then [slots[i - 1]] else [])
  }

  /** A parameter was left out and a later one, which is passed after it, was not. */
  ghost predicate HasGap(sig: Signature, r: Result)
    requires |r.slots| == |sig.params|
  {
    exists i, j :: 0 <= i < j < |r.slots| && i != VariadicIndex(sig) && r.slots[i] < 0 && r.slots[j] >= 0
  }

  /** g is the first parameter that was left out, and a later one was not. */
  ghost predicate FirstGap(sig: Signature, r: Result, g: nat)
    requires |r.slots| == |sig.params|
  {
    && g < |r.slots| && g != VariadicIndex(sig) && r.slots[g] < 0
    && (forall i :: 0 <= i < g && i != VariadicIndex(sig) ==> r.slots[i] >= 0)
    && exists j :: g < j < |r.slots| && r.slots[j] >= 0
  }

  /** The parameters before i that are passed by position: all of them, up to a gap. */
  ghost predicate Contiguous(sig: Signature, slots: seq<int>, i: nat, gapAt: int)
    requires i <= |slots|
  {
    if gapAt < 0 then forall j :: 0 <= j < i && j != VariadicIndex(sig) ==> slots[j] >= 0
    else
      && gapAt < i && gapAt != VariadicIndex(sig) && slots[gapAt] < 0
      && forall j :: 0 <= j < i && j != VariadicIndex(sig) ==> (slots[j] >= 0 <==> j < gapAt)
  }

  /** NativeArgOrder. */
  method NativeArgOrder(sig: Signature, r: Result) returns (out: Outcome<seq<int>>)
    requires |r.slots| == |sig.params|
    ensures out.Failed? <==> HasGap(sig, r)
    ensures out.Failed? ==> out.why.Missing? && FirstGap(sig, r, out.why.param)
    ensures out.Bound? ==> out.value == Collected(r.slots, |r.slots|, -1) + r.tail
  {
    var n, variadicIndex := |r.slots|, VariadicIndex(sig);
    var indices, gapAt := [], -1;
    for i := 0 to n
      invariant -1 <= gapAt && Contiguous(sig, r.slots, i, gapAt) && indices == Collected(r.slots, i, variadicIndex)
    {
      if i == variadicIndex { continue; }
      if r.slots[i] >= 0 {
        if gapAt >= 0 { return Failed(Missing(gapAt)); }
        indices := indices + [r.slots[i]];
      } else if gapAt < 0 {
        gapAt := i;
      }
    }
    if variadicIndex >= 0 && r.slots[variadicIndex] >= 0 {
      if gapAt >= 0 { return Failed(Missing(gapAt)); }
      indices := indices + [r.slots[variadicIndex]];
    }
    VariadicLast(r.slots, variadicIndex);
    out := Bound(indices + r.tail);
  }

  /** The variadic parameter is the last one, so passing it after the others changes nothing. */
  lemma VariadicLast(slots: seq<int>, v: int)
    requires v < 0 || v == |slots| - 1
    ensures
      var c := Collected(slots, |slots|, v);
      (if v >= 0 && slots[v] >= 0 then c + [slots[v]] else c) == Collected(slots, |slots|, -1)
  {
    SkipsNothing(slots, if v >= 0 then v else |slots|, v);
  }

  lemma {:induction false} SkipsNothing(slots: seq<int>, i: nat, skip: int)
    requires i <= |slots| && (skip < 0 || skip >= i)
    ensures Collected(slots, i, skip) == Collected(slots, i, -1)
  {
    if i > 0 { SkipsNothing(slots, i - 1, skip); }
  }

  /** How often x is among the collected slots. */
  lemma {:induction false} CollectedCount(slots: seq<int>, i: nat, x: int)
    requires i <= |slots| && x >= 0
    ensures multiset(Collected(slots, i, -1))[x] == multiset(slots[..i])[x]
  {
    hide Collected;
    CollectedLast(slots, i);
    if i > 0 {
      CollectedCount(slots, i - 1, x);
      var c, v := Collected(slots, i - 1, -1), slots[i - 1];
      assert slots[..i] == slots[..i - 1] + [v];
      CountPlus(slots[..i - 1], v, x);
      if v >= 0 { CountPlus(c, v, x); }
    }
  }

  lemma CollectedLast(slots: seq<int>, i: nat)
    requires i <= |slots|
    ensures i == 0 ==> Collected(slots, i, -1) == []
    ensures i > 0 ==>
              Collected(slots, i, -1) ==
              if slots[i - 1] >= 0 then Collected(slots, i - 1, -1) + [slots[i - 1]] else Collected(slots, i - 1, -1)
  {
    if i > 0 && slots[i - 1] < 0 { assert Collected(slots, i - 1, -1) + [] == Collected(slots, i - 1, -1); }
  }

  lemma CountPlus(a: seq<int>, v: int, x: int)
    ensures multiset(a + [v])[x] == multiset(a)[x] + if v == x then 1 else 0
  {}

  lemma {:induction false} CountOnce(s: seq<int>, i: nat, x: int)
    requires i < |s| && s[i] == x && forall j :: 0 <= j < |s| && j != i ==> s[j] != x
    ensures multiset(s)[x] == 1
  {
    assert s == s[..i] + [x] + s[i + 1..];
    assert x !in s[..i] && x !in s[i + 1..];
  }

  /** Nothing is lost and nothing is passed twice: what a bound call passes to a native
      function is a permutation of its arguments, in source order when none is named. */
  lemma Conserved(sig: Signature, args: seq<Arg>, r: Result, x: int)
    requires IsBinding(sig, args, r)
    ensures
      var passed := Collected(r.slots, |r.slots|, -1) + r.tail;
      multiset(passed)[x] == if 0 <= x < |args| then 1 else 0
  {
    hide IsBinding, Collected;
    var c := Collected(r.slots, |r.slots|, -1);
    assert multiset(c + r.tail)[x] == multiset(c)[x] + multiset(r.tail)[x];
    Among(sig, args, r, x);
    if x < 0 {
      assert x !in c;
    } else {
      assert r.slots[..|r.slots|] == r.slots;
      CollectedCount(r.slots, |r.slots|, x);
    }
  }

  /** In which of the two parts an argument is. */
  lemma Among(sig: Signature, args: seq<Arg>, r: Result, x: int)
    requires IsBinding(sig, args, r)
    ensures x < 0 ==> multiset(r.tail)[x] == 0
    ensures x >= |args| ==> multiset(r.slots)[x] == 0 && multiset(r.tail)[x] == 0
    ensures 0 <= x < |args| ==> multiset(r.slots)[x] + multiset(r.tail)[x] == 1
  {
    if x < 0 {
      assert x !in r.tail;
    } else if x >= |args| {
      assert x !in r.slots && x !in r.tail;
    } else if HasNamed(args) {
      assert Placed(sig, args, r.slots, x);
      var i: nat :| Takes(sig, args, r.slots, i, x);
      CountOnce(r.slots, i, x);
    } else if x < FixedCount(sig) {
      CountOnce(r.slots, x, x);
      assert x !in r.tail;
    } else {
      assert x !in r.slots;
      CountOnce(r.tail, x - FixedCount(sig), x);
    }
  }

  lemma {:induction false} InSourceOrder(sig: Signature, args: seq<Arg>, r: Result)
    requires IsBinding(sig, args, r) && !HasNamed(args)
    ensures !HasGap(sig, r)
    ensures Collected(r.slots, |r.slots|, -1) + r.tail == seq(|args|, k => k)
  {
    var fixed, n := FixedCount(sig), |args|;
    var m := if n < fixed then n else fixed;
    Prefix(r.slots, |r.slots|, m);
  }

  lemma {:induction false} Prefix(slots: seq<int>, i: nat, m: nat)
    requires i <= |slots| && forall j :: 0 <= j < |slots| ==> slots[j] == if j < m then j else DEFAULT
    ensures Collected(slots, i, -1) == seq(if i < m then i else m, k => k)
  {
    if i > 0 { Prefix(slots, i - 1, m); }
  }

  // ----- the holes a call site leaves for the callee's defaults

  /** orderFunctionArguments: one slot per parameter, trailing holes trimmed. */
  method TrimHoles(slots: seq<int>) returns (ordered: seq<int>)
    ensures ordered <= slots && forall i :: |ordered| <= i < |slots| ==> slots[i] == DEFAULT
    ensures |ordered| > 0 ==> ordered[|ordered| - 1] != DEFAULT
  {
    ordered := slots;
    while |ordered| > 0 && ordered[|ordered| - 1] == DEFAULT
      invariant ordered <= slots && forall i :: |ordered| <= i < |slots| ==> slots[i] == DEFAULT
    {
      ordered := ordered[..|ordered| - 1];
    }
  }

  /** What a call site pushes for a parameter: an argument, or a constant of the pool. */
  datatype Push = Argument(index: nat) | Default(constant: int)

  /** The parameters from `offset` on; those with a constant of the pool have a default. */
  function SignatureAt(names: seq<string>, constants: seq<int>, variadic: bool, offset: nat): Signature {
    var params := if offset < |names| then names[offset..] else [];
    Signature(params, seq(|params|, (i: nat) => i + offset < |constants| && constants[i + offset] >= 0), variadic)
  }

  /** What is pushed for the slots of a binding: arguments where they belong, for every hole before
      the last of them a default that is in the pool, and nothing after. */
  ghost predicate Passes(slots: seq<int>, constants: seq<int>, offset: nat, pushed: seq<Push>) {
    && |pushed| <= |slots|
    && (forall i :: 0 <= i < |pushed| ==>
          if slots[i] != DEFAULT then 0 <= slots[i] && pushed[i] == Argument(slots[i])
          else i + offset < |constants| && constants[i + offset] >= 0 && pushed[i] == Default(constants[i + offset]))
    && (forall i :: |pushed| <= i < |slots| ==> slots[i] == DEFAULT)
  }

  /** Every argument is pushed, and only once. */
  ghost predicate PushedOnce(pushed: seq<Push>, n: nat) {
    && (forall a: nat :: a < n <==> Argument(a) in pushed)
    && (forall i, j :: 0 <= i < j < |pushed| && pushed[i].Argument? ==> pushed[i] != pushed[j])
  }

  /** orderFunctionArguments and compileOrderedArguments, one after the other. A call is refused
      only when it has no binding. */
  method PassArguments(names: seq<string>, constants: seq<int>, variadic: bool, offset: nat, args: seq<Arg>)
    returns (out: Outcome<seq<Push>>)
    ensures
      var sig := SignatureAt(names, constants, variadic, offset);
      && (out.Bound? <==> exists r :: IsBinding(sig, args, r))
      && (out.Failed? ==> Explains(sig, args, out.why))
      && (out.Bound? ==> forall r :: IsBinding(sig, args, r) ==>
            PushedOnce(out.value, |args|)
            && if HasNamed(args) then Passes(r.slots, constants, offset, out.value)
               else out.value == seq(|args|, (k: nat) => Argument(k)))
  {
    hide IsBinding, Passes, PushedOnce, Explains;
    var sig := SignatureAt(names, constants, variadic, offset);
    var bound := Order(sig, args);
    if bound.Failed? { return Failed(bound.why); }
    ghost var r := bound.value;
    forall s | IsBinding(sig, args, s) ensures s == r { Unique(sig, args, s, r); }
    if !HasNamed(args) {
      out := Bound(seq(|args|, (k: nat) => Argument(k)));
      AllOnce(out.value, |args|);
      return;
    }
    var ordered := TrimHoles(bound.value.slots);
    var pushed: seq<Push> := [];
    NothingYet(r.slots, constants, offset);
    for i := 0 to |ordered|
      invariant |pushed| == i && Passes(r.slots[..i], constants, offset, pushed)
    {
      HoleHasDefault(names, constants, variadic, offset, args, r, ordered, i);
      ghost var before := pushed;
      pushed := pushed + [if ordered[i] == DEFAULT then Default(constants[i + offset]) else Argument(ordered[i])];
      PassesOn(r.slots, constants, offset, before, pushed);
    }
    PassesAll(sig, args, r, constants, offset, pushed);
    out := Bound(pushed);
  }

  lemma NothingYet(slots: seq<int>, constants: seq<int>, offset: nat)
    ensures Passes(slots[..0], constants, offset, [])
  {}

  lemma AllOnce(pushed: seq<Push>, n: nat)
    requires pushed == seq(n, (k: nat) => Argument(k))
    ensures PushedOnce(pushed, n)
  {
    forall a: nat ensures a < n <==> Argument(a) in pushed {
      if a < n { assert pushed[a] == Argument(a); }
    }
  }

  /** A hole that is still there is not the variadic parameter, so the compiler knows its default:
      the index of it in the constant pool is not negative. */
  lemma HoleHasDefault(names: seq<string>, constants: seq<int>, variadic: bool, offset: nat, args: seq<Arg>, r: Result,
                       ordered: seq<int>, i: nat)
    requires IsBinding(SignatureAt(names, constants, variadic, offset), args, r)
    requires ordered <= r.slots && (|ordered| > 0 ==> ordered[|ordered| - 1] != DEFAULT) && i < |ordered|
    ensures ordered[i] == r.slots[i] && (ordered[i] == DEFAULT || 0 <= ordered[i])
    ensures ordered[i] == DEFAULT ==> i + offset < |constants| && constants[i + offset] >= 0
  {
    var sig := SignatureAt(names, constants, variadic, offset);
    if ordered[i] == DEFAULT {
      assert i != VariadicIndex(sig);
      assert HasDefaultAt(sig, i);
    }
  }

  lemma PassesOn(slots: seq<int>, constants: seq<int>, offset: nat, before: seq<Push>, after: seq<Push>)
    requires |before| < |slots| && Passes(slots[..|before|], constants, offset, before)
    requires slots[|before|] == DEFAULT || 0 <= slots[|before|]
    requires slots[|before|] == DEFAULT ==>
               |before| + offset < |constants| && constants[|before| + offset] >= 0
    requires after == before + [if slots[|before|] == DEFAULT then Default(constants[|before| + offset])
                                else Argument(slots[|before|])]
    ensures Passes(slots[..|after|], constants, offset, after)
  {}

  lemma PassesAll(sig: Signature, args: seq<Arg>, r: Result, constants: seq<int>, offset: nat, pushed: seq<Push>)
    requires IsBinding(sig, args, r) && HasNamed(args) && |pushed| <= |r.slots|
    requires Passes(r.slots[..|pushed|], constants, offset, pushed)
    requires forall i :: |pushed| <= i < |r.slots| ==> r.slots[i] == DEFAULT
    ensures Passes(r.slots, constants, offset, pushed) && PushedOnce(pushed, |args|)
  {
    forall a: nat ensures a < |args| <==> Argument(a) in pushed {
      if a < |args| {
        assert Placed(sig, args, r.slots, a);
        var i: nat :| Takes(sig, args, r.slots, i, a);
        assert pushed[i] == Argument(a);
      }
    }
  }
}
