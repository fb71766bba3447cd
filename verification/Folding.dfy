/** Constant folding of two 64-bit integer literals: division that truncates, corrected by
    the sign of an exclusive or, against the language's floor arithmetic. */
module Folding {
  import opened Syntax

  const MIN_INT64: int := -0x8000_0000_0000_0000

  predicate Int64(n: int) { MIN_INT64 <= n <= MAX_INT64 }

  function Doubled(k: nat): int { if k == 0 then 1 else 2 * Doubled(k - 1) }

  /** These are the numbers of 64 bits: 63 doublings of 1 lead from -1 past the largest one, and of
      -1 to the smallest. */
  lemma Bits()
    ensures MAX_INT64 + 1 == Doubled(63) && MIN_INT64 == -Doubled(63)
  {
    hide Doubled;
    Byte();
    DoubledSum(8, 8);
    DoubledSum(16, 16);
    DoubledSum(32, 16);
    DoubledSum(48, 8);
    DoubledSum(56, 7);
  }

  lemma Byte()
    ensures Doubled(7) == 128 && Doubled(8) == 256
  {
    assert Doubled(4) == 16;
  }

  lemma {:induction false} DoubledSum(j: nat, k: nat)
    ensures Doubled(j + k) == Doubled(j) * Doubled(k)
  {
    if k > 0 {
      DoubledSum(j, k - 1);
      assert Doubled(j + k) == 2 * Doubled(j + k - 1) == 2 * (Doubled(j) * Doubled(k - 1));
    }
  }

  /** An int64 computation keeps the low 64 bits. */
  function Wrap(n: int): int { (n - MIN_INT64) % 0x1_0000_0000_0000_0000 + MIN_INT64 }

  function Abs(n: int): nat { if n < 0 then -n else n }

  /** Exclusive or of two's complement numbers, bit by bit. */
  function BitXor(a: int, b: int): int
    decreases Abs(a) + Abs(b)
  {
    if (a == 0 || a == -1) && (b == 0 || b == -1) then (if a == b then 0 else -1)
    else 2 * BitXor(a / 2, b / 2) + (a + b) % 2
  }

  /** Division and remainder as the compiler's host language has them: toward zero. */
  function Quo(l: int, r: int): int
    requires r != 0
  {
    if (l < 0) == (r < 0) then Abs(l) / Abs(r) else -(Abs(l) / Abs(r))
  }

  function Rem(l: int, r: int): int
    requires r != 0
  {
    if l < 0 then -(Abs(l) % Abs(r)) else Abs(l) % Abs(r)
  }

  /** foldIntInt: None leaves the operation to run time. */
  function FoldIntInt(op: BinOp, l: int, r: int): Option<Value> {
    match op
    case Add => Some(Int(l + r))
    case Sub => Some(Int(l - r))
    case Mul => Some(Int(l * r))
    case IntDiv =>
      if r == 0 then None
      else if l == MIN_INT64 && r == -1 then Some(Int(-l))
      else
        var q := Wrap(Quo(l, r));
        Some(Int(if BitXor(l, r) < 0 && Wrap(q * r) != l then Wrap(q - 1) else q))
    case Mod =>
      if r == 0 then None
      else
        var m := Wrap(Rem(l, r));
        Some(Int(if m != 0 && BitXor(m, r) < 0 then Wrap(m + r) else m))
    case Eq => Some(Bool(l == r))
    case Ne => Some(Bool(l != r))
    case Lt => Some(Bool(l < r))
    case Le => Some(Bool(l <= r))
    case Gt => Some(Bool(l > r))
    case Ge => Some(Bool(l >= r))
    case Xor => None
  }

  /** The sign bit of an exclusive or: set when exactly one operand is negative. */
  lemma {:induction false} XorSign(a: int, b: int)
    ensures BitXor(a, b) < 0 <==> (a < 0) != (b < 0)
    decreases Abs(a) + Abs(b)
  {
    if !((a == 0 || a == -1) && (b == 0 || b == -1)) { XorSign(a / 2, b / 2); }
  }

  lemma WrapSame(n: int)
    requires Int64(n)
    ensures Wrap(n) == n
  {}

  lemma OnlyZero(k: int, d: int)
    requires d > 0 && -d < k * d < d
    ensures k == 0
  {
    assert k >= 1 ==> k * d >= d;
    assert k <= -1 ==> k * d <= -d;
  }

  lemma DivMod(a: int, d: int)
    requires d > 0
    ensures a == (a / d) * d + a % d && 0 <= a % d < d
  {}

  /** Quotient and remainder, from their defining property. */
  lemma Unique(a: int, d: int, q: int, m: int)
    requires d > 0 && a == q * d + m && 0 <= m < d
    ensures a / d == q && a % d == m
  {
    DivMod(a, d);
    UniqueTwo(d, q, m, a / d, a % d);
  }

  lemma UniqueTwo(d: int, q: int, m: int, q1: int, m1: int)
    requires d > 0 && q * d + m == q1 * d + m1 && 0 <= m < d && 0 <= m1 < d
    ensures q == q1 && m == m1
  {
    assert (q - q1) * d == q * d - q1 * d;
    OnlyZero(q - q1, d);
  }

  /** The language's law of division: exact, with the remainder on the divisor's side. */
  lemma FloorLaw(l: int, r: int)
    requires r != 0
    ensures l == FloorDiv(l, r) * r + FloorMod(l, r)
    ensures if r > 0 then 0 <= FloorMod(l, r) < r else r < FloorMod(l, r) <= 0
  {
    if r > 0 {
      assert l == r * (l / r) + l % r;
    } else {
      assert -l == -r * ((-l) / (-r)) + (-l) % (-r);
      assert -r * ((-l) / (-r)) == -(((-l) / (-r)) * r);
    }
  }

  /** ... and nothing else obeys that law. */
  lemma FloorUnique(l: int, r: int, q: int, m: int)
    requires r != 0 && l == q * r + m && (if r > 0 then 0 <= m < r else r < m <= 0)
    ensures q == FloorDiv(l, r) && m == FloorMod(l, r)
  {
    if r > 0 {
      Unique(l, r, q, m);
    } else {
      assert -l == q * -r + -m;
      Unique(-l, -r, q, -m);
    }
  }

  /** A product is no smaller than its factors, and larger unless the other factor is 1. */
  lemma Times(q: nat, d: int)
    requires d > 0
    ensures q * d >= q && (q > 0 && d > 1 ==> q * d > q)
  {
    assert q * d == q * (d - 1) + q;
    if q > 0 && d > 1 { assert q * (d - 1) >= 1; } else { assert q * (d - 1) >= 0; }
  }

  lemma Signs(q: int, d: int)
    ensures -q * -d == q * d && -q * d == -(q * d) && q * -d == -(q * d)
  {}

  lemma Trunc(l: int, r: int)
    requires r != 0
    ensures l == Quo(l, r) * r + Rem(l, r) && Abs(Rem(l, r)) < Abs(r)
    ensures if l < 0 then Rem(l, r) <= 0 else Rem(l, r) >= 0
    ensures Abs(Quo(l, r)) <= Abs(l) && (l != 0 && Abs(r) > 1 ==> Abs(Quo(l, r)) < Abs(l))
    ensures if l < 0 then l <= Quo(l, r) * r <= 0 else 0 <= Quo(l, r) * r <= l
  {
    var a, d := Abs(l), Abs(r);
    DivMod(a, d);
    Natural(a, d);
    Signs(a / d, d);
  }

  lemma Natural(a: nat, d: int)
    requires d > 0
    ensures 0 <= a / d <= a && 0 <= (a / d) * d <= a && (a > 0 && d > 1 ==> a / d < a)
  {
    DivMod(a, d);
    Times(a / d, d);
  }

  /** The corrected quotient and remainder are the floor quotient and remainder. */
  lemma Corrected(l: int, r: int)
    requires r != 0
    ensures
      var q, m := Quo(l, r), Rem(l, r);
      && FloorDiv(l, r) == (if m != 0 && (l < 0) != (r < 0) then q - 1 else q)
      && FloorMod(l, r) == (if m != 0 && (m < 0) != (r < 0) then m + r else m)
  {
    hide Quo, Rem, FloorDiv, FloorMod;
    Trunc(l, r);
    var q, m := Quo(l, r), Rem(l, r);
    if m != 0 && (l < 0) != (r < 0) {
      assert l == (q - 1) * r + (m + r) by { assert (q - 1) * r == q * r - r; }
      FloorUnique(l, r, q - 1, m + r);
    } else {
      FloorUnique(l, r, q, m);
    }
  }

  /** The main result on folding: over all 64-bit operands the folded value is the exact
      value of the operator, no intermediate result overflows, and a division by zero, and
      nothing else, is left to run time. */
  lemma FoldExact(op: BinOp, l: int, r: int)
    requires Int64(l) && Int64(r) && !op.Xor?
    ensures FoldIntInt(op, l, r) == EvalIntBin(op, l, r)
    ensures FoldIntInt(op, l, r).None? <==> (op.IntDiv? || op.Mod?) && r == 0
  {
    if op.IntDiv? && r != 0 {
      if l == MIN_INT64 && r == -1 {
        FloorUnique(l, r, -l, 0);
      } else {
        DivExact(l, r);
      }
    } else if op.Mod? && r != 0 {
      ModExact(l, r);
    }
  }

  lemma DivExact(l: int, r: int)
    requires Int64(l) && Int64(r) && r != 0 && !(l == MIN_INT64 && r == -1)
    ensures FoldIntInt(IntDiv, l, r) == Some(Int(FloorDiv(l, r)))
  {
    hide FloorDiv, FloorMod, Rem, Wrap;
    Corrected(l, r);
    Trunc(l, r);
    XorSign(l, r);
    var q := Quo(l, r);
    if r == 1 || r == -1 { ByOne(l, r); }
    WrapSame(q);
    WrapSame(q * r);
    if q > MIN_INT64 { WrapSame(q - 1); }
  }

  lemma ByOne(l: int, r: int)
    requires r == 1 || r == -1
    ensures Quo(l, r) == l * r && Quo(l, r) * r == l
  {}

  lemma ModExact(l: int, r: int)
    requires Int64(l) && Int64(r) && r != 0
    ensures FoldIntInt(Mod, l, r) == Some(Int(FloorMod(l, r)))
  {
    hide FloorDiv, FloorMod, Quo, Rem, Wrap;
    Corrected(l, r);
    Trunc(l, r);
    var m := Rem(l, r);
    XorSign(m, r);
    WrapSame(m);
    if (m < 0) != (r < 0) { WrapSame(m + r); }
  }
}
