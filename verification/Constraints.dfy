/** Generic constraints are trees of names joined by `|` and `&`; the compiler stores them as
    strings and the machine takes them apart again at every check. Printing and taking apart
    are inverse: the string is satisfied exactly when the tree is. */
module Constraints {

  datatype Constraint = Name(name: string) | Either(left: Constraint, right: Constraint) | Both(left: Constraint,
      right: Constraint)

  /** typeRefConstraintString. */
  function Show(c: Constraint): string {
    match c
    case Name(n) => n
    case Either(l, r) => "(" + Show(l) + "|" + Show(r) + ")"
    case Both(l, r) => "(" + Show(l) + "&" + Show(r) + ")"
  }

  /** What a constraint means, given which names are satisfied. */
  predicate Holds(c: Constraint, atom: string -> bool) {
    match c
    case Name(n) => atom(n)
    case Either(l, r) => Holds(l, atom) || Holds(r, atom)
    case Both(l, r) => Holds(l, atom) && Holds(r, atom)
  }

  /** Unicode white space. */
  predicate IsSpace(c: char) {
    || '\t' <= c <= '\r' || c == ' ' || c == '\U{85}' || c == '\U{A0}' || c == '\U{1680}'
    || '\U{2000}' <= c <= '\U{200A}' || c == '\U{2028}' || c == '\U{2029}' || c == '\U{202F}'
    || c == '\U{205F}' || c == '\U{3000}'
  }

  function TrimLeft(s: string): (r: string)
    ensures |r| <= |s|
  {
    if |s| > 0 && IsSpace(s[0]) then TrimLeft(s[1..]) else s
  }

  function TrimRight(s: string): (r: string)
    ensures |r| <= |s|
  {
    if |s| > 0 && IsSpace(s[|s| - 1]) then TrimRight(s[..|s| - 1]) else s
  }

  function Trim(s: string): (r: string)
    ensures |r| <= |s|
  {
    TrimRight(TrimLeft(s))
  }

  /** The parenthesis depth after s, from depth d. */
  function Depth(s: string, d: int): int
    decreases |s|
  {
    if s == "" then d else Depth(s[1..], d + Delta(s[0]))
  }

  function Delta(c: char): int { if c == '(' then 1 else if c == ')' then -1 else 0 }

  /** Do the outer parentheses of s belong together? s[i..] is still to be read, at depth d. */
  predicate Closes(s: string, i: nat, d: int)
    requires i <= |s|
    decreases |s| - i
  {
    if i == |s| then d == 0
    else
      var d1 := d + Delta(s[i]);
      d1 >= 0 && (s[i] == ')' && d1 == 0 ==> i == |s| - 1) && Closes(s, i + 1, d1)
  }

  predicate Wrapped(s: string) { |s| >= 2 && s[0] == '(' && s[|s| - 1] == ')' && Closes(s, 0, 0) }

  function Strip(s: string): (r: string)
    ensures |r| <= |s|
    decreases |s|
  {
    if Wrapped(s) then Strip(Trim(s[1..|s| - 1])) else s
  }

  /** The first op outside all parentheses, or -1. */
  function TopLevel(s: string, op: char, i: nat, d: int): (r: int)
    requires i <= |s|
    ensures r == -1 || i <= r < |s|
    decreases |s| - i
  {
    if i == |s| then -1
    else if s[i] == '(' || s[i] == ')' then TopLevel(s, op, i + 1, d + Delta(s[i]))
    else if d == 0 && s[i] == op then i
    else TopLevel(s, op, i + 1, d)
  }

  /** constraintExprSatisfied: an `|` splits before an `&`. */
  predicate Satisfied(expr: string, atom: string -> bool)
    decreases |expr|
  {
    var s := Strip(Trim(expr));
    var either := TopLevel(s, '|', 0, 0);
    if either >= 0 then Satisfied(s[..either], atom) || Satisfied(s[either + 1..], atom)
    else
      var both := TopLevel(s, '&', 0, 0);
      if both >= 0 then Satisfied(s[..both], atom) && Satisfied(s[both + 1..], atom)
      else atom(s)
  }

  // ----- the loops that do this

  /** stripOuterConstraintParens. */
  method StripOuterConstraintParens(input: string) returns (expr: string)
    ensures expr == Strip(input)
  {
    expr := input;
    while |expr| > 0 && expr[0] == '(' && expr[|expr| - 1] == ')'
      invariant Strip(expr) == Strip(input)
      decreases |expr|
    {
      var depth, wraps, i := 0, true, 0;
      while i < |expr|
        invariant 0 <= i <= |expr| && depth >= 0
        invariant wraps ==> Closes(expr, 0, 0) == Closes(expr, i, depth)
        invariant !wraps ==> !Closes(expr, 0, 0)
      {
        if expr[i] == '(' {
          depth := depth + 1;
        } else if expr[i] == ')' {
          depth := depth - 1;
          if depth == 0 && i != |expr| - 1 { wraps := false; }
        }
        if depth < 0 { return; }
        i := i + 1;
      }
      if !wraps || depth != 0 { return; }
      expr := Trim(expr[1..|expr| - 1]);
    }
  }

  /** topLevelConstraintOperator. */
  method TopLevelConstraintOperator(expr: string, op: char) returns (index: int)
    ensures index == TopLevel(expr, op, 0, 0)
  {
    var depth, i := 0, 0;
    while i < |expr|
      invariant 0 <= i <= |expr|
      invariant TopLevel(expr, op, 0, 0) == TopLevel(expr, op, i, depth)
    {
      if expr[i] == '(' {
        depth := depth + 1;
      } else if expr[i] == ')' {
        depth := depth - 1;
      } else if depth == 0 && expr[i] == op {
        return i;
      }
      i := i + 1;
    }
    return -1;
  }

  method ConstraintExprSatisfied(input: string, atom: string -> bool) returns (ok: bool)
    ensures ok == Satisfied(input, atom)
    decreases |input|
  {
    var expr := StripOuterConstraintParens(Trim(input));
    var either := TopLevelConstraintOperator(expr, '|');
    if either >= 0 {
      ok := ConstraintExprSatisfied(expr[..either], atom);
      if !ok { ok := ConstraintExprSatisfied(expr[either + 1..], atom); }
      return;
    }
    var both := TopLevelConstraintOperator(expr, '&');
    if both >= 0 {
      ok := ConstraintExprSatisfied(expr[..both], atom);
      if ok { ok := ConstraintExprSatisfied(expr[both + 1..], atom); }
      return;
    }
    return atom(expr);
  }

  // ----- blanks

  const BLANKS := "\t\n\U{B}\U{C}\r \U{85}\U{A0}\U{1680}" + WIDE + "\U{2028}\U{2029}\U{202F}\U{205F}\U{3000}"
  const WIDE := "\U{2000}\U{2001}\U{2002}\U{2003}\U{2004}\U{2005}\U{2006}\U{2007}\U{2008}\U{2009}\U{200A}"

  lemma BlankIs(c: char)
    ensures IsSpace(c) <==> c in BLANKS
  {
    assert c in WIDE <==> '\U{2000}' <= c <= '\U{200A}';
  }

  /** What is cut off at the two ends of a string is blank, and no blank is left there. */
  lemma {:induction false} TrimIs(s: string) returns (i: nat, j: nat)
    ensures i <= j <= |s| && Trim(s) == s[i..j]
    ensures forall k :: 0 <= k < i || j <= k < |s| ==> s[k] in BLANKS
    ensures i < j ==> s[i] !in BLANKS && s[j - 1] !in BLANKS
  {
    hide BLANKS, IsSpace, Trim;
    i := LeftIs(s);
    var rest := s[i..];
    j := RightIs(rest);
    assert Trim(s) == rest[..j] == s[i..i + j] by { assert TrimLeft(s) == rest; TrimOnce(s); }
    forall k | i + j <= k < |s| ensures s[k] in BLANKS { assert s[k] == rest[k - i]; }
    if j > 0 {
      BlankIs(s[i]);
      assert rest[0] == s[i];
    }
    j := i + j;
  }

  lemma TrimOnce(s: string)
    ensures Trim(s) == TrimRight(TrimLeft(s))
  {}

  lemma {:induction false} LeftIs(s: string) returns (i: nat)
    ensures i <= |s| && TrimLeft(s) == s[i..] && forall k :: 0 <= k < i ==> s[k] in BLANKS
    ensures i < |s| ==> !IsSpace(s[i])
  {
    hide BLANKS, IsSpace;
    i := 0;
    if |s| > 0 {
      BlankIs(s[0]);
      if IsSpace(s[0]) {
        i := LeftIs(s[1..]);
        assert forall k :: 0 < k < i + 1 ==> s[k] == s[1..][k - 1];
        i := i + 1;
      }
    }
  }

  lemma {:induction false} RightIs(s: string) returns (j: nat)
    ensures j <= |s| && TrimRight(s) == s[..j] && forall k :: j <= k < |s| ==> s[k] in BLANKS
    ensures j > 0 ==> s[j - 1] !in BLANKS
  {
    hide BLANKS, IsSpace;
    j := |s|;
    if |s| > 0 {
      BlankIs(s[|s| - 1]);
      if IsSpace(s[|s| - 1]) {
        var most := s[..|s| - 1];
        j := RightIs(most);
        assert forall k :: j <= k < |most| ==> s[k] == most[k];
      }
    }
  }

  // ----- printed constraints

  /** A name that printing cannot confuse with syntax. */
  predicate Plain(n: string) {
    (forall c :: c in n ==> c !in {'(', ')', '|', '&'}) && Trim(n) == n
  }

  predicate WellNamed(c: Constraint) {
    match c
    case Name(n) => Plain(n)
    case Either(l, r) => WellNamed(l) && WellNamed(r)
    case Both(l, r) => WellNamed(l) && WellNamed(r)
  }

  /** One character further. */
  lemma Step(s: string, i: nat, d: nat, op: char)
    requires i < |s|
    ensures TopLevel(s, op, i, d) ==
      if s[i] == '(' || s[i] == ')' then TopLevel(s, op, i + 1, d + Delta(s[i]))
      else if d == 0 && s[i] == op then i
      else TopLevel(s, op, i + 1, d)
    ensures Closes(s, i, d) ==
      (d + Delta(s[i]) >= 0 && (s[i] == ')' && d + Delta(s[i]) == 0 ==> i == |s| - 1)
          && Closes(s, i + 1, d + Delta(s[i])))
  {}

  lemma AtEnd(s: string, d: int, op: char)
    ensures TopLevel(s, op, |s|, d) == -1 && Closes(s, |s|, d) == (d == 0)
  {}

  /** Scanning over a plain name changes nothing. */
  lemma {:induction false} PassName(n: string, s: string, i: nat, d: nat, op: char)
    requires forall c :: c in n ==> c !in {'(', ')', '|', '&'}
    requires i + |n| <= |s| && s[i..i + |n|] == n && op in {'|', '&'}
    ensures TopLevel(s, op, i, d) == TopLevel(s, op, i + |n|, d)
    ensures Closes(s, i, d) == Closes(s, i + |n|, d)
    decreases |n|
  {
    hide TopLevel, Closes;
    if n != "" {
      assert s[i] == n[0] && n[0] in n;
      assert s[i + 1..i + 1 + |n[1..]|] == n[1..];
      assert forall c :: c in n[1..] ==> c in n;
      Step(s, i, d, op);
      PassName(n[1..], s, i + 1, d, op);
    }
  }

  /** Scanning over a printed constraint finds no operator outside its parentheses and, from
      inside some parentheses, does not close them. */
  lemma {:induction false} Pass(c: Constraint, s: string, i: nat, d: nat, op: char)
    requires WellNamed(c) && i + |Show(c)| <= |s| && s[i..i + |Show(c)|] == Show(c) && op in {'|', '&'}
    ensures TopLevel(s, op, i, d) == TopLevel(s, op, i + |Show(c)|, d)
    ensures d >= 1 ==> Closes(s, i, d) == Closes(s, i + |Show(c)|, d)
  {
    hide TopLevel, Closes, Show, WellNamed, Trim;
    if c.Name? {
      PlainShow(c);
      PassName(c.name, s, i, d, op);
    } else {
      NamedParts(c);
      var j, k := Parts(c, s, i);
      Step(s, i, d, op);
      Pass(c.left, s, i + 1, d + 1, op);
      Step(s, j, d + 1, op);
      Pass(c.right, s, j + 1, d + 1, op);
      Step(s, k, d + 1, op);
    }
  }

  lemma PlainShow(c: Constraint)
    requires c.Name? && WellNamed(c)
    ensures Show(c) == c.name && Plain(c.name)
  {}

  /** Where the operator and the closing parenthesis of a printed pair stand. */
  lemma Parts(c: Constraint, s: string, i: nat) returns (j: nat, k: nat)
    requires !c.Name? && i + |Show(c)| <= |s| && s[i..i + |Show(c)|] == Show(c)
    ensures
      && j == i + 1 + |Show(c.left)| && k == j + 1 + |Show(c.right)| && k + 1 == i + |Show(c)|
      && s[i] == '(' && s[j] == (if c.Either? then '|' else '&') && s[k] == ')'
      && s[i + 1..j] == Show(c.left) && s[j + 1..k] == Show(c.right)
  {
    var l, r := Show(c.left), Show(c.right);
    j := i + 1 + |l|;
    k := j + 1 + |r|;
    var whole := Show(c);
    assert forall m :: 0 <= m < |whole| ==> s[i + m] == whole[m];
    assert whole[1..1 + |l|] == l && whole[2 + |l|..2 + |l| + |r|] == r;
    assert s[i + 1..j] == whole[1..1 + |l|];
    assert s[j + 1..k] == whole[2 + |l|..2 + |l| + |r|];
  }

  lemma Edges(c: Constraint)
    requires WellNamed(c)
    ensures Show(c) == "" || (!IsSpace(Show(c)[0]) && !IsSpace(Show(c)[|Show(c)| - 1]))
  {
    hide Trim;
    if c.Name? && c.name != "" { TrimmedEdges(c.name); }
  }

  lemma TrimmedEdges(n: string)
    requires Trim(n) == n && n != ""
    ensures !IsSpace(n[0]) && !IsSpace(n[|n| - 1])
  {
    if IsSpace(n[0]) { TrimShrinks(n); }
  }

  lemma TrimShrinks(n: string)
    requires n != "" && IsSpace(n[0])
    ensures |Trim(n)| < |n|
  {
    assert |TrimLeft(n)| <= |n[1..]|;
  }

  lemma Untrimmed(s: string)
    requires s == "" || (!IsSpace(s[0]) && !IsSpace(s[|s| - 1]))
    ensures Trim(s) == s
  {}

  /** What is left of a printed pair once its outer parentheses are gone. */
  function Inner(c: Constraint): string
    requires !c.Name?
  {
    Show(c.left) + [if c.Either? then '|' else '&'] + Show(c.right)
  }

  lemma ShowIs(c: Constraint)
    requires !c.Name?
    ensures var s, n := Show(c), |Show(c.left)|;
            |s| >= 3 && s[0] == '(' && s[|s| - 1] == ')' && s[1..|s| - 1] == Inner(c)
                && |Inner(c)| == n + 1 + |Show(c.right)|
  {}

  lemma StripOnce(s: string)
    ensures Strip(s) == if Wrapped(s) then Strip(Trim(s[1..|s| - 1])) else s
  {
    hide Wrapped, Trim;
  }

  lemma StripShow(c: Constraint)
    requires !c.Name? && WellNamed(c)
    ensures Strip(Trim(Show(c))) == Inner(c)
  {
    hide Closes, TopLevel, Strip, Trim, Show, Inner, WellNamed, Delta;
    var s := Show(c);
    ShowIs(c);
    Untrimmed(s);
    assert s[0..|s|] == s;
    OuterClose(c, s, true);
    StripOnce(s);
    InnerTrimmed(c);
    InnerStays(c);
  }

  /** The parentheses of a printed pair are closed by its last character and not before. */
  lemma OuterClose(c: Constraint, s: string, whole: bool)
    requires !c.Name? && WellNamed(c) && |Show(c)| <= |s| && s[0..|Show(c)|] == Show(c)
    requires whole == (|s| == |Show(c)|)
    ensures Closes(s, 0, 0) == whole
  {
    hide Closes, TopLevel, Show, WellNamed, Delta, Trim;
    NamedParts(c);
    assert Delta('(') == 1 && Delta('|') == 0 && Delta('&') == 0 by { Deltas(); }
    var j, k := Parts(c, s, 0);
    Step(s, 0, 0, '|');
    Pass(c.left, s, 1, 1, '|');
    Step(s, j, 1, '|');
    Pass(c.right, s, j + 1, 1, '|');
    LastParen(s, k);
  }

  lemma Deltas()
    ensures Delta('(') == 1 && Delta('|') == 0 && Delta('&') == 0 && Delta(')') == -1
  {}

  lemma LastParen(s: string, k: nat)
    requires k < |s| && s[k] == ')'
    ensures Closes(s, k, 1) == (k == |s| - 1)
  {}

  lemma NamedParts(c: Constraint)
    requires !c.Name? && WellNamed(c)
    ensures WellNamed(c.left) && WellNamed(c.right)
  {}

  lemma InnerTrimmed(c: Constraint)
    requires !c.Name? && WellNamed(c)
    ensures Trim(Inner(c)) == Inner(c)
  {
    hide Trim, Show;
    NamedParts(c);
    Edges(c.left);
    Edges(c.right);
    Untrimmed(Inner(c));
  }

  /** The parentheses at the two ends of the inner part, if any, are not a pair. */
  lemma InnerStays(c: Constraint)
    requires !c.Name? && WellNamed(c)
    ensures Strip(Inner(c)) == Inner(c)
  {
    hide Closes, Strip, Trim;
    var s, l := Inner(c), c.left;
    StripOnce(s);
    if Wrapped(s) {
      if l.Name? {
        NameStart(l.name, s);
      } else {
        assert s[0..|Show(l)|] == Show(l);
        OuterClose(l, s, false);
      }
    }
  }

  lemma NameStart(n: string, s: string)
    requires Plain(n) && n < s && s[|n|] != '('
    ensures s[0] != '('
  {
    hide Trim;
    if n != "" { assert s[0] == n[0] && n[0] in n; }
  }

  /** Where the inner part is split. */
  lemma Splits(c: Constraint)
    requires !c.Name? && WellNamed(c)
    ensures var s := Inner(c);
            var i := |Show(c.left)|;
            && i < |s| && s[..i] == Show(c.left) && s[i + 1..] == Show(c.right)
            && TopLevel(s, '|', 0, 0) == (if c.Either? then i else -1)
            && (c.Both? ==> TopLevel(s, '&', 0, 0) == i)
  {
    hide Closes, TopLevel, Show, Strip, Trim;
    var s, i := Inner(c), |Show(c.left)|;
    NamedParts(c);
    assert s[0..i] == Show(c.left) && s[i + 1..i + 1 + |Show(c.right)|] == Show(c.right);
    Pass(c.left, s, 0, 0, '|');
    Pass(c.left, s, 0, 0, '&');
    Step(s, i, 0, '|');
    Step(s, i, 0, '&');
    Pass(c.right, s, i + 1, 0, '|');
    AtEnd(s, 0, '|');
  }

  lemma PlainName(n: string)
    requires Plain(n)
    ensures Strip(Trim(n)) == n && TopLevel(n, '|', 0, 0) == -1 && TopLevel(n, '&', 0, 0) == -1
  {
    hide Closes, TopLevel, Strip, Trim;
    assert n[0..|n|] == n;
    PassName(n, n, 0, 0, '|');
    PassName(n, n, 0, 0, '&');
    AtEnd(n, 0, '|');
    AtEnd(n, 0, '&');
    StripOnce(n);
    if n != "" { assert n[0] in n; }
  }

  /** One round of the evaluation. */
  lemma SatisfiedOnce(expr: string, atom: string -> bool)
    ensures
      var s := Strip(Trim(expr));
      var either, both := TopLevel(s, '|', 0, 0), TopLevel(s, '&', 0, 0);
      Satisfied(expr, atom) ==
        if either >= 0 then Satisfied(s[..either], atom) || Satisfied(s[either + 1..], atom)
        else if both >= 0 then Satisfied(s[..both], atom) && Satisfied(s[both + 1..], atom)
        else atom(s)
  {
    hide Strip, Trim, TopLevel;
  }

  /** The stored string is satisfied exactly when the constraint is, at any nesting depth. */
  lemma {:induction false} ShowMeans(c: Constraint, atom: string -> bool)
    requires WellNamed(c)
    ensures Satisfied(Show(c), atom) == Holds(c, atom)
  {
    hide Satisfied, Strip, Trim, TopLevel, Closes, Inner;
    SatisfiedOnce(Show(c), atom);
    if c.Name? {
      PlainName(c.name);
    } else {
      StripShow(c);
      Splits(c);
      ShowMeans(c.left, atom);
      ShowMeans(c.right, atom);
    }
  }

  /** A constraint that was written without parentheses: `&` binds tighter than `|`. */
  lemma Unbracketed(a: string, b: string, c: string, atom: string -> bool)
    requires Plain(a) && Plain(b) && Plain(c)
    ensures Satisfied(a + "|" + b + "&" + c, atom) == (atom(a) || (atom(b) && atom(c)))
  {
    hide Satisfied, Strip, Trim, TopLevel, Closes, Inner;
    var s, both := a + "|" + b + "&" + c, Both(Name(b), Name(c));
    InnerTrimmed(both);
    assert Inner(both) == b + "&" + c by { InnerIs(b, c); }
    Outer(a, b, c);
    SatisfiedOnce(s, atom);
    assert s[..|a|] == a && s[|a| + 1..] == b + "&" + c;
    ShowMeans(Name(a), atom);
    SatisfiedOnce(Inner(both), atom);
    InnerStays(both);
    Splits(both);
    ShowMeans(Name(b), atom);
    ShowMeans(Name(c), atom);
  }

  lemma InnerIs(b: string, c: string)
    ensures Inner(Both(Name(b), Name(c))) == b + "&" + c
  {}

  lemma Outer(a: string, b: string, c: string)
    requires Plain(a) && Plain(b) && Plain(c)
    ensures
      var s := a + "|" + b + "&" + c;
      Strip(Trim(s)) == s && TopLevel(s, '|', 0, 0) == |a|
  {
    hide TopLevel, Strip, Trim, Closes, IsSpace;
    var s := a + "|" + b + "&" + c;
    if a != "" { TrimmedEdges(a); }
    if c != "" { TrimmedEdges(c); }
    assert !IsSpace('|') && !IsSpace('&') by { NoBlanks(); }
    Untrimmed(s);
    NameStart(a, s);
    StripOnce(s);
    PassName(a, s, 0, 0, '|');
    Step(s, |a|, 0, '|');
  }

  lemma NoBlanks()
    ensures !IsSpace('|') && !IsSpace('&')
  {}

  /** The string of a small constraint, and what it means. */
  lemma ShowInput(atom: string -> bool)
    ensures Show(Both(Either(Name("a"), Name("b")), Name("c"))) == "((a|b)&c)"
    ensures Satisfied("((a|b)&c)", atom) == ((atom("a") || atom("b")) && atom("c"))
  {
    hide Satisfied, Trim;
    var c := Both(Either(Name("a"), Name("b")), Name("c"));
    assert Show(c) == "((a|b)&c)";
    assert Plain("a") && Plain("b") && Plain("c") by { Untrimmed("a"); Untrimmed("b"); Untrimmed("c"); }
    ShowMeans(c, atom);
  }

  /** Only names no longer than the string are ever looked up. */
  lemma {:induction false} LooksUpShorter(t: string, n: string)
    requires |t| < |n|
    ensures !Satisfied(t, x => x == n)
    decreases |t|
  {
    hide Satisfied, Strip, Trim, TopLevel, Closes;
    SatisfiedOnce(t, x => x == n);
    var s := Strip(Trim(t));
    var either, both := TopLevel(s, '|', 0, 0), TopLevel(s, '&', 0, 0);
    if either >= 0 {
      LooksUpShorter(s[..either], n);
      LooksUpShorter(s[either + 1..], n);
    } else if both >= 0 {
      LooksUpShorter(s[..both], n);
    }
  }

  /** Exactly which names are stored safely: those that have no blanks or parentheses around
      them and no operator outside parentheses. */
  predicate Safe(n: string) { Strip(Trim(n)) == n && TopLevel(n, '|', 0, 0) == -1 && TopLevel(n, '&', 0, 0) == -1 }

  lemma NameIsSafe(n: string)
    ensures Safe(n) ==> forall atom: string -> bool :: Satisfied(Show(Name(n)), atom) == Holds(Name(n), atom)
    ensures !Safe(n) ==> exists atom: string -> bool :: Satisfied(Show(Name(n)), atom) != Holds(Name(n), atom)
  {
    hide Satisfied, Strip, Trim, TopLevel, Closes;
    if Safe(n) {
      forall atom: string -> bool ensures Satisfied(Show(Name(n)), atom) == Holds(Name(n), atom) {
        SatisfiedOnce(n, atom);
      }
    } else {
      var atom := (x: string) => x == n;
      SatisfiedOnce(n, atom);
      var s := Strip(Trim(n));
      var either, both := TopLevel(s, '|', 0, 0), TopLevel(s, '&', 0, 0);
      if either >= 0 {
        LooksUpShorter(s[..either], n);
        LooksUpShorter(s[either + 1..], n);
      } else if both >= 0 {
        LooksUpShorter(s[..both], n);
      }
      assert Satisfied(Show(Name(n)), atom) != Holds(Name(n), atom);
    }
  }
}
