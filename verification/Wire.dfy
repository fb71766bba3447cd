/** Bytes, big-endian numbers and length prefixes: what the printer appends and the parser takes. */
module Wire {
  import Folding

  type Byte = b: int | 0 <= b < 256
  type Bytes = seq<Byte>
  type Hash = b: Bytes | |b| == 32 witness seq(32, _ => 0)

  const HALF := 0x8000_0000_0000_0000
  type Int64 = n: int | -HALF <= n < HALF
  type Word16 = n: nat | n < 0x1_0000

  datatype Result<+T> = Ok(value: T) | Bad {
    predicate IsFailure() { Bad? }
    function PropagateFailure<U>(): Result<U>
      requires Bad?
    {
      Bad
    }
    function Extract(): T
      requires Ok?
    {
      value
    }
  }

  /** A value found at a position, and the position after it. */
  type Found<T> = Result<(T, nat)>
  type Reader<T> = (Bytes, nat) -> Found<T>
  type Appender<!T> = (Bytes, T) -> Result<Bytes>

  // ----- numbers

  function Room(width: nat): (r: nat)
    ensures r >= 1
  {
    if width == 0 then 1 else 256 * Room(width - 1)
  }

  /** The low bytes of n, most significant first. */
  function Put(width: nat, n: int): (b: Bytes)
    ensures |b| == width
    decreases width
  {
    if width == 0 then [] else Put(width - 1, n / 256) + [n % 256]
  }

  function Get(b: Bytes): nat
    decreases |b|
  {
    if b == [] then 0 else 256 * Get(b[..|b| - 1]) + b[|b| - 1]
  }

  function Signed(n: nat): int { if n < HALF then n else n - 2 * HALF }

  lemma {:induction false} GetPut(width: nat, n: int)
    ensures Get(Put(width, n)) == n % Room(width)
    decreases width
  {
    if width > 0 {
      var b := Put(width, n);
      assert b[..|b| - 1] == Put(width - 1, n / 256);
      GetPut(width - 1, n / 256);
      Digits(n, Room(width - 1));
    }
  }

  lemma Digits(n: int, m: int)
    requires m > 0
    ensures 256 * (n / 256 % m) + n % 256 == n % (256 * m)
  {
    var q := n / 256;
    var k, r := q / m, q % m;
    assert q == m * k + r;
    assert n == 256 * q + n % 256;
    assert n == k * (256 * m) + (256 * r + n % 256) by { assert 256 * (m * k) == k * (256 * m); }
    assert 0 <= 256 * r + n % 256 < 256 * m;
    Folding.Unique(n, 256 * m, k, 256 * r + n % 256);
  }

  lemma {:induction false} GetRoom(b: Bytes)
    ensures Get(b) < Room(|b|)
    decreases |b|
  {
    if b != [] { GetRoom(b[..|b| - 1]); }
  }

  lemma SmallMod(n: int, m: int)
    requires 0 <= n < m
    ensures n % m == n
  {}

  lemma Rooms()
    ensures Room(1) == 256 && Room(2) == 0x1_0000 && Room(4) == 0x1_0000_0000 && Room(8) == 2 * HALF
  {
    assert Room(1) == 256 && Room(2) == 256 * 256 && Room(3) == 256 * Room(2) && Room(4) == 256 * Room(3);
    assert Room(5) == 256 * Room(4) && Room(6) == 256 * Room(5) && Room(7) == 256 * Room(6) && Room(8) == 256 * Room(7);
  }

  // ----- what is appended

  function AppendWord(out: Bytes, width: nat, n: int): Bytes { out + Put(width, n) }

  function AppendLong(out: Bytes, n: Int64): Bytes { out + Put(8, n) }

  function AppendFlag(out: Bytes, b: bool): Bytes { out + [if b then 1 else 0] }

  /** A length that is too large for its width loses its high bytes; nothing checks. */
  function AppendText(out: Bytes, width: nat, s: Bytes): Bytes { AppendWord(out, width, |s|) + s }

  function AppendString(out: Bytes, s: Bytes): Bytes { AppendText(out, 2, s) }

  function AppendEach<T>(append: (Bytes, T) -> Bytes, out: Bytes, xs: seq<T>): Bytes
    decreases |xs|
  {
    if xs == [] then out else append(AppendEach(append, out, xs[..|xs| - 1]), xs[|xs| - 1])
  }

  /** As AppendEach, for items that can be refused. */
  function AppendAll<T>(append: Appender<T>, out: Bytes, xs: seq<T>): Result<Bytes>
    decreases |xs|
  {
    if xs == [] then Ok(out) else
      var out :- AppendAll(append, out, xs[..|xs| - 1]);
      append(out, xs[|xs| - 1])
  }

  function AppendStrings(out: Bytes, ss: seq<Bytes>): Bytes { AppendEach(AppendString, AppendWord(out, 2, |ss|), ss) }

  function AppendLongs(out: Bytes, ns: seq<Int64>): Bytes { AppendEach(AppendLong, AppendWord(out, 2, |ns|), ns) }

  // ----- what is found

  function Take(data: Bytes, pos: nat, n: nat): Found<Bytes> {
    if pos + n > |data| then Bad else Ok((data[pos..pos + n], pos + n))
  }

  function Word(data: Bytes, pos: nat, width: nat): Found<nat> {
    var (b, pos) :- Take(data, pos, width);
    Ok((Get(b), pos))
  }

  function Long(data: Bytes, pos: nat): Found<Int64> {
    var (b, pos) :- Take(data, pos, 8);
    SignedRange(b);
    Ok((Signed(Get(b)), pos))
  }

  /** A byte; any but 0 is read as true. */
  function Flag(data: Bytes, pos: nat): Found<bool> {
    var (n, pos) :- Word(data, pos, 1);
    Ok((n != 0, pos))
  }

  function Text(data: Bytes, pos: nat, width: nat): Found<Bytes> {
    var (n, pos) :- Word(data, pos, width);
    Take(data, pos, n)
  }

  function String(data: Bytes, pos: nat): Found<Bytes> { Text(data, pos, 2) }

  function ReadAll<T>(read: Reader<T>, data: Bytes, pos: nat, n: nat): Found<seq<T>>
    decreases n
  {
    if n == 0 then Ok(([], pos)) else
      var (xs, pos) :- ReadAll(read, data, pos, n - 1);
      var (x, pos) :- read(data, pos);
      Ok((xs + [x], pos))
  }

  function ReadList<T>(read: Reader<T>, width: nat, data: Bytes, pos: nat): Found<seq<T>> {
    var (n, pos) :- Word(data, pos, width);
    ReadAll(read, data, pos, n)
  }

  function Strings(data: Bytes, pos: nat): Found<seq<Bytes>> { ReadList(String, 2, data, pos) }

  function Longs(data: Bytes, pos: nat): Found<seq<Int64>> { ReadList(Long, 2, data, pos) }

  lemma SignedRange(b: Bytes)
    requires |b| == 8
    ensures -HALF <= Signed(Get(b)) < HALF
  {
    Rooms();
    GetRoom(b);
  }

  // ----- what was appended is found

  ghost predicate Begins(out: Bytes, data: Bytes) { out <= data }

  predicate FitsString(s: Bytes) { |s| < 0x1_0000 }
  predicate FitsStrings(ss: seq<Bytes>) { |ss| < 0x1_0000 && forall s :: s in ss ==> FitsString(s) }
  predicate FitsLongs(ns: seq<Int64>) { |ns| < 0x1_0000 }

  lemma TakeBack(out: Bytes, b: Bytes, data: Bytes)
    requires Begins(out + b, data)
    ensures Begins(out, data) && Take(data, |out|, |b|) == Ok((b, |out + b|))
  {
    assert (out + b)[..|out|] == out;
    assert data[|out|..|out| + |b|] == (out + b)[|out|..];
  }

  lemma WordBack(out: Bytes, width: nat, n: int, data: Bytes)
    requires 0 <= n < Room(width) && Begins(AppendWord(out, width, n), data)
    ensures Begins(out, data) && Word(data, |out|, width) == Ok((n, |AppendWord(out, width, n)|))
  {
    TakeBack(out, Put(width, n), data);
    GetPut(width, n);
    SmallMod(n, Room(width));
  }

  lemma TextBack(out: Bytes, width: nat, s: Bytes, data: Bytes)
    requires |s| < Room(width) && Begins(AppendText(out, width, s), data)
    ensures Begins(out, data) && Text(data, |out|, width) == Ok((s, |AppendText(out, width, s)|))
  {
    hide Put, Get, Begins;
    TakeBack(AppendWord(out, width, |s|), s, data);
    WordBack(out, width, |s|, data);
  }

  lemma LongBack(out: Bytes, n: Int64, data: Bytes)
    requires Begins(AppendLong(out, n), data)
    ensures Begins(out, data) && Long(data, |out|) == Ok((n, |AppendLong(out, n)|))
  {
    TakeBack(out, Put(8, n), data);
    Rooms();
    GetPut(8, n);
    if n >= 0 { SmallMod(n, 2 * HALF); } else { Folding.Unique(n, 2 * HALF, -1, n + 2 * HALF); }
  }

  lemma FlagBack(out: Bytes, b: bool, data: Bytes)
    requires Begins(AppendFlag(out, b), data)
    ensures Begins(out, data) && Flag(data, |out|) == Ok((b, |AppendFlag(out, b)|))
  {
    var byte: Byte := if b then 1 else 0;
    TakeBack(out, [byte], data);
    assert [byte][..0] == [];
    assert Get([byte]) == byte;
  }

  /** Wherever x was appended in this file, y is found. */
  ghost predicate Undone<T, U>(append: (Bytes, T) -> Bytes, read: Reader<U>, x: T, y: U, data: Bytes) {
    forall out :: Begins(append(out, x), data) ==>
                    Begins(out, data) && read(data, |out|) == Ok((y, |append(out, x)|))
  }

  /** Something was appended, and if the file begins with the result, y is found there. */
  ghost predicate Back<U>(appended: Result<Bytes>, found: Found<U>, y: U, out: Bytes, data: Bytes) {
    && appended.Ok?
    && (Begins(appended.value, data) ==> Begins(out, data) && found == Ok((y, |appended.value|)))
  }

  ghost predicate Returns<T, U>(append: Appender<T>, read: Reader<U>, x: T, y: U, data: Bytes) {
    forall out :: Back(append(out, x), read(data, |out|), y, out, data)
  }

  lemma {:induction false} EachBack<T,
          U>(append: (Bytes, T) -> Bytes, read: Reader<U>, out: Bytes, xs: seq<T>, ys: seq<U>,
                                          data: Bytes)
    requires |xs| == |ys| && forall i :: 0 <= i < |xs| ==> Undone(append, read, xs[i], ys[i], data)
    requires Begins(AppendEach(append, out, xs), data)
    ensures Begins(out, data) && ReadAll(read, data, |out|, |xs|) == Ok((ys, |AppendEach(append, out, xs)|))
    decreases |xs|
  {
    hide Begins;
    if xs != [] {
      var k := |xs| - 1;
      var before := AppendEach(append, out, xs[..k]);
      assert Undone(append, read, xs[k], ys[k], data);
      assert Begins(append(before, xs[k]), data);
      EachBack(append, read, out, xs[..k], ys[..k], data);
      assert ys == ys[..k] + [ys[k]];
    } else {
      assert ys == [];
    }
  }

  lemma {:induction false} AllBack<T, U>(append: Appender<T>, read: Reader<U>, out: Bytes, xs: seq<T>, ys: seq<U>,
                                         data: Bytes)
    requires |xs| == |ys| && forall i :: 0 <= i < |xs| ==> Returns(append, read, xs[i], ys[i], data)
    ensures Back(AppendAll(append, out, xs), ReadAll(read, data, |out|, |xs|), ys, out, data)
    decreases |xs|
  {
    hide Begins;
    if xs != [] {
      var k := |xs| - 1;
      AllBack(append, read, out, xs[..k], ys[..k], data);
      var before := AppendAll(append, out, xs[..k]).value;
      assert Returns(append, read, xs[k], ys[k], data);
      assert Back(append(before, xs[k]), read(data, |before|), ys[k], before, data);
      assert ys == ys[..k] + [ys[k]];
    } else {
      assert ys == [];
    }
  }

  /** For all texts and numbers of a file at once. */
  lemma StringBack(data: Bytes)
    ensures forall out, s {:trigger AppendString(out, s)} ::
              FitsString(s) && Begins(AppendString(out, s), data) ==>
                Begins(out, data) && String(data, |out|) == Ok((s, |AppendString(out, s)|))
  {
    hide Begins, AppendText, Text;
    Rooms();
    forall out, s | FitsString(s) && Begins(AppendString(out, s), data)
      ensures Begins(out, data) && String(data, |out|) == Ok((s, |AppendString(out, s)|))
    {
      TextBack(out, 2, s, data);
    }
  }

  lemma NumbersBack(data: Bytes)
    ensures forall out, n: Int64 {:trigger AppendLong(out, n)} ::
              Begins(AppendLong(out, n), data) ==>
                Begins(out, data) && Long(data, |out|) == Ok((n, |AppendLong(out, n)|))
    ensures forall out, b {:trigger AppendFlag(out, b)} ::
              Begins(AppendFlag(out, b), data) ==>
                Begins(out, data) && Flag(data, |out|) == Ok((b, |AppendFlag(out, b)|))
    ensures forall out, width, n {:trigger AppendWord(out, width, n)} ::
              0 <= n < Room(width) && Begins(AppendWord(out, width, n), data) ==>
                Begins(out, data) && Word(data, |out|, width) == Ok((n, |AppendWord(out, width, n)|))
  {
    hide *;
    forall out, n: Int64 | Begins(AppendLong(out, n), data)
      ensures Begins(out, data) && Long(data, |out|) == Ok((n, |AppendLong(out, n)|))
    {
      LongBack(out, n, data);
    }
    forall out, b | Begins(AppendFlag(out, b), data)
      ensures Begins(out, data) && Flag(data, |out|) == Ok((b, |AppendFlag(out, b)|))
    {
      FlagBack(out, b, data);
    }
    forall out, width: nat, n: int | 0 <= n < Room(width) && Begins(AppendWord(out, width, n), data)
      ensures Begins(out, data) && Word(data, |out|, width) == Ok((n, |AppendWord(out, width, n)|))
    {
      WordBack(out, width, n, data);
    }
  }

  lemma StringsBack(data: Bytes)
    ensures forall out, ss {:trigger AppendStrings(out, ss)} ::
              FitsStrings(ss) && Begins(AppendStrings(out, ss), data) ==>
                Begins(out, data) && Strings(data, |out|) == Ok((ss, |AppendStrings(out, ss)|))
  {
    hide Begins, AppendString, String, AppendWord, Word, AppendEach, ReadAll;
    Rooms();
    StringBack(data);
    forall out, ss | FitsStrings(ss) && Begins(AppendStrings(out, ss), data)
      ensures Begins(out, data) && Strings(data, |out|) == Ok((ss, |AppendStrings(out, ss)|))
    {
      var start := AppendWord(out, 2, |ss|);
      EachBack(AppendString, String, start, ss, ss, data);
      WordBack(out, 2, |ss|, data);
    }
  }

  lemma LongsBack(data: Bytes)
    ensures forall out, ns {:trigger AppendLongs(out, ns)} ::
              FitsLongs(ns) && Begins(AppendLongs(out, ns), data) ==>
                Begins(out, data) && Longs(data, |out|) == Ok((ns, |AppendLongs(out, ns)|))
  {
    hide Begins, AppendLong, Long, AppendWord, Word, AppendEach, ReadAll;
    Rooms();
    NumbersBack(data);
    forall out, ns | FitsLongs(ns) && Begins(AppendLongs(out, ns), data)
      ensures Begins(out, data) && Longs(data, |out|) == Ok((ns, |AppendLongs(out, ns)|))
    {
      var start := AppendWord(out, 2, |ns|);
      EachBack(AppendLong, Long, start, ns, ns, data);
      WordBack(out, 2, |ns|, data);
    }
  }

  // ----- what is found fits, and more bytes after it change nothing

  /** A value found in `data` lies within it, and is found there when more bytes follow. */
  ghost predicate Stays<T>(found: Found<T>, again: Found<T>, pos: nat, data: Bytes) {
    found.Ok? ==> pos <= found.value.1 <= |data| && again == found
  }

  ghost predicate Firm<T(!new)>(read: Reader<T>, fits: T -> bool, data: Bytes, more: Bytes) {
    forall pos: nat :: pos <= |data| ==>
                         Stays(read(data, pos), read(data + more, pos), pos, data)
                         && (read(data, pos).Ok? ==> fits(read(data, pos).value.0))
  }

  lemma TakeStays(data: Bytes, more: Bytes, pos: nat, n: nat)
    ensures Stays(Take(data, pos, n), Take(data + more, pos, n), pos, data)
  {
    if pos + n <= |data| { assert (data + more)[pos..pos + n] == data[pos..pos + n]; }
  }

  lemma WordStays(data: Bytes, more: Bytes, pos: nat, width: nat)
    ensures Stays(Word(data, pos, width), Word(data + more, pos, width), pos, data)
    ensures Word(data, pos, width).Ok? ==> Word(data, pos, width).value.0 < Room(width)
  {
    TakeStays(data, more, pos, width);
    if pos + width <= |data| { GetRoom(data[pos..pos + width]); }
  }

  lemma TextStays(data: Bytes, more: Bytes, pos: nat, width: nat)
    ensures Stays(Text(data, pos, width), Text(data + more, pos, width), pos, data)
    ensures Text(data, pos, width).Ok? ==> |Text(data, pos, width).value.0| < Room(width)
  {
    hide Get;
    WordStays(data, more, pos, width);
    var r := Word(data, pos, width);
    if r.Ok? { TakeStays(data, more, r.value.1, r.value.0); }
  }

  lemma {:induction false} AllStays<T(!new)>(read: Reader<T>, fits: T -> bool, data: Bytes, more: Bytes, pos: nat,
          n: nat)
    requires pos <= |data| && Firm(read, fits, data, more)
    ensures Stays(ReadAll(read, data, pos, n), ReadAll(read, data + more, pos, n), pos, data)
    ensures
      var r := ReadAll(read, data, pos, n);
      r.Ok? ==> |r.value.0| == n && forall x :: x in r.value.0 ==> fits(x)
    decreases n
  {
    if n > 0 {
      AllStays(read, fits, data, more, pos, n - 1);
    }
  }

  lemma ListStays<T(!new)>(read: Reader<T>, fits: T -> bool, width: nat, data: Bytes, more: Bytes)
    requires Firm(read, fits, data, more)
    ensures forall pos: nat {:trigger ReadList(read, width, data, pos)} :: pos <= |data| ==>
              Stays(ReadList(read, width, data, pos), ReadList(read, width, data + more, pos), pos, data)
    ensures forall pos: nat {:trigger ReadList(read, width, data, pos)} :: pos <= |data| ==>
              var r := ReadList(read, width, data, pos);
              r.Ok? ==> |r.value.0| < Room(width) && forall x :: x in r.value.0 ==> fits(x)
  {
    hide Word, ReadAll;
    forall pos: nat | pos <= |data|
      ensures Stays(ReadList(read, width, data, pos), ReadList(read, width, data + more, pos), pos, data)
      ensures
        var r := ReadList(read, width, data, pos);
        r.Ok? ==> |r.value.0| < Room(width) && forall x :: x in r.value.0 ==> fits(x)
    {
      WordStays(data, more, pos, width);
      var r := Word(data, pos, width);
      if r.Ok? { AllStays(read, fits, data, more, r.value.1, r.value.0); }
    }
  }

  lemma LeavesStay(data: Bytes, more: Bytes)
    ensures forall pos: nat {:trigger String(data, pos)} ::
              Stays(String(data, pos), String(data + more, pos), pos, data)
              && (String(data, pos).Ok? ==> FitsString(String(data, pos).value.0))
    ensures forall pos: nat {:trigger Long(data, pos)} :: Stays(Long(data, pos), Long(data + more, pos), pos, data)
    ensures forall pos: nat {:trigger Flag(data, pos)} :: Stays(Flag(data, pos), Flag(data + more, pos), pos, data)
    ensures forall pos: nat, width: nat {:trigger Word(data, pos, width)} ::
              Stays(Word(data, pos, width), Word(data + more, pos, width), pos, data)
              && (Word(data, pos, width).Ok? ==> Word(data, pos, width).value.0 < Room(width))
  {
    hide Get, Text, Word, Room;
    Rooms();
    forall pos: nat
      ensures Stays(String(data, pos), String(data + more, pos), pos, data)
      ensures String(data, pos).Ok? ==> FitsString(String(data, pos).value.0)
      ensures Stays(Long(data, pos), Long(data + more, pos), pos, data)
      ensures Stays(Flag(data, pos), Flag(data + more, pos), pos, data)
    {
      TextStays(data, more, pos, 2);
      TakeStays(data, more, pos, 8);
      WordStays(data, more, pos, 1);
    }
    forall pos: nat, width: nat
      ensures Stays(Word(data, pos, width), Word(data + more, pos, width), pos, data)
      ensures Word(data, pos, width).Ok? ==> Word(data, pos, width).value.0 < Room(width)
    {
      WordStays(data, more, pos, width);
    }
  }

  lemma ListsStay(data: Bytes, more: Bytes)
    ensures forall pos: nat {:trigger Strings(data, pos)} :: pos <= |data| ==>
              Stays(Strings(data, pos), Strings(data + more, pos), pos, data)
              && (Strings(data, pos).Ok? ==> FitsStrings(Strings(data, pos).value.0))
    ensures forall pos: nat {:trigger Longs(data, pos)} :: pos <= |data| ==>
              Stays(Longs(data, pos), Longs(data + more, pos), pos, data)
              && (Longs(data, pos).Ok? ==> FitsLongs(Longs(data, pos).value.0))
  {
    hide String, Long, Room, ReadList, Stays, FitsString;
    Rooms();
    LeavesStay(data, more);
    assert Firm(String, FitsString, data, more);
    ListStays(String, FitsString, 2, data, more);
    assert Firm(Long, (n: Int64) => true, data, more);
    ListStays(Long, (n: Int64) => true, 2, data, more);
  }
}
