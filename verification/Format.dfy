/** The binary form byte for byte: the header, the numbers, the tags, and one small record of each
    kind with its bytes in the order of the file. */
module Format {
  import opened Wire
  import opened Records
  import opened Printing
  import Fitting
  import Parsing
  import Stable

  // ----- the header and the numbers

  /** Whatever is read starts with GEBBC, version 92 and the hash of the source. */
  lemma Header(data: Bytes)
    requires Parsing.Parse(data).Ok?
    ensures |data| >= 39 && data[..7] == [71, 69, 66, 66, 67, 0, 92]
    ensures data[7..39] == Parsing.Parse(data).value.sourceHash
  {
    hide Parsing.ReadCode, Get, Parsing.ReadTable, ReadList, String, Long;
    HeadIs(data);
    assert data[..7] == data[..5] + data[5..7];
  }

  lemma HeadIs(data: Bytes)
    requires Parsing.ReadChunkHead(data, 0).Ok?
    ensures |data| >= 39 && data[..5] == [71, 69, 66, 66, 67] && data[5..7] == [0, 92]
    ensures data[7..39] == Parsing.ReadChunkHead(data, 0).value.0.sourceHash
  {
    hide Get, ReadList, String, Long;
    TwoBytes(data[5..7]);
  }

  lemma TwoBytes(b: Bytes)
    requires |b| == 2
    ensures Get(b) == 256 * (b[0] as nat) + b[1] as nat
  {
    assert b[..1][..0] == [];
    assert Get(b[..1]) == b[0];
  }

  /** Numbers are printed with their most significant byte first. */
  lemma Big(out: Bytes, a: Byte, b: Byte, c: Byte, d: Byte)
    ensures AppendWord(out, 1, a) == out + [a]
    ensures AppendWord(out, 2, 256 * a + b) == out + [a, b]
    ensures AppendWord(out, 4, 0x1_000000 * a + 0x1_0000 * b + 256 * c + d) == out + [a, b, c, d]
  {
    hide Put;
    PutNone(0);
    PutOn(0, 0, a);
    PutOn(1, a, b);
    PutOn(2, 256 * a + b, c);
    PutOn(3, 0x1_0000 * a + 256 * b + c, d);
  }

  lemma PutNone(n: int)
    ensures Put(0, n) == []
  {}

  lemma PutOn(width: nat, n: int, d: Byte)
    ensures Put(width + 1, 256 * n + d) == Put(width, n) + [d]
  {
    assert (256 * n + d) / 256 == n && (256 * n + d) % 256 == d;
  }

  /** A small number has seven zeros in front, and -1 is eight times 255. */
  lemma Small(d: Byte)
    ensures Put(8, d) == [0, 0, 0, 0, 0, 0, 0, d] && Put(8, -1) == [255, 255, 255, 255, 255, 255, 255, 255]
  {
    hide Put;
    Seven(0, 0);
    Seven(-1, 255);
    PutOn(7, 0, d);
    PutOn(7, -1, 255);
  }

  lemma Seven(n: int, d: Byte)
    requires n == 256 * n + d
    ensures Put(7, n) == [d, d, d, d, d, d, d]
  {
    hide Put;
    PutNone(n);
    PutOn(0, n, d);
    PutOn(1, n, d);
    PutOn(2, n, d);
    PutOn(3, n, d);
    PutOn(4, n, d);
    PutOn(5, n, d);
    PutOn(6, n, d);
  }

  // ----- the small parts of a record

  /** A text of one byte, a number, a list of one text or number, a flag, an empty list. */
  function S(c: Byte): Bytes { [0, 1, c] }
  function L(k: Byte): Bytes { [0, 0, 0, 0, 0, 0, 0, k] }
  function Ss(c: Byte): Bytes { [0, 1, 0, 1, c] }
  function Ls(k: Byte): Bytes { [0, 1, 0, 0, 0, 0, 0, 0, 0, k] }
  function F(b: bool): Bytes { [if b then 1 else 0] }
  const NONE: Bytes := [0, 0]

  lemma OneText(out: Bytes, c: Byte)
    ensures AppendString(out, [c]) == out + S(c) && AppendStrings(out, [[c]]) == out + Ss(c)
  {
    hide AppendWord;
    var one: seq<Bytes> := [[c]];
    assert one[..0] == [];
    Big(out, 0, 1, 0, 0);
    Big(out + [0, 1], 0, 1, 0, 0);
    assert AppendString(out, [c]) == out + [0, 1] + [c];
    assert AppendString(out + [0, 1], [c]) == out + [0, 1] + [0, 1] + [c];
    assert AppendEach(AppendString, out + [0, 1], one[..0]) == out + [0, 1];
    assert AppendStrings(out, one) == AppendString(out + [0, 1], [c]);
  }

  lemma OneLong(out: Bytes, k: Byte)
    ensures AppendLong(out, k) == out + L(k) && AppendLongs(out, [k]) == out + Ls(k)
  {
    hide AppendWord, Put;
    var one: seq<Int64> := [k];
    assert one[..0] == [];
    Small(k);
    Big(out, 0, 1, 0, 0);
    assert AppendLong(out + [0, 1], k) == out + [0, 1] + L(k);
    assert AppendEach(AppendLong, out + [0, 1], one[..0]) == out + [0, 1];
    assert AppendLongs(out, one) == AppendLong(out + [0, 1], k);
  }

  lemma Nothing(order: Order, out: Bytes)
    ensures AppendString(out, []) == out + NONE && AppendStrings(out, []) == out + NONE
    ensures AppendLongs(out, []) == out + NONE
    ensures AppendDecorators(order, out, []) == Ok(out + NONE) && AppendDecoratorLists(order, out, []) == Ok(out + NONE)
  {
    hide AppendWord, AppendDecorator;
    Big(out, 0, 0, 0, 0);
  }

  lemma Parts(order: Order)
    ensures forall out: Bytes, c: Byte {:trigger AppendString(out, [c])} :: AppendString(out, [c]) == out + S(c)
    ensures forall out: Bytes {:trigger AppendString(out, [])} :: AppendString(out, []) == out + NONE
    ensures forall out: Bytes, k: Byte {:trigger AppendLong(out, k)} :: AppendLong(out, k) == out + L(k)
    ensures forall out: Bytes, c: Byte {:trigger AppendStrings(out, [[c]])} :: AppendStrings(out, [[c]]) == out + Ss(c)
    ensures forall out: Bytes, k: Byte {:trigger AppendLongs(out, [k])} :: AppendLongs(out, [k]) == out + Ls(k)
    ensures forall out: Bytes, b: bool {:trigger AppendFlag(out, b)} :: AppendFlag(out, b) == out + F(b)
    ensures forall out: Bytes {:trigger AppendDecorators(order, out, [])} ::
              AppendDecorators(order, out, []) == Ok(out + NONE)
    ensures forall out: Bytes {:trigger AppendDecoratorLists(order, out, [])} ::
              AppendDecoratorLists(order, out, []) == Ok(out + NONE)
  {
    hide AppendString, AppendLong, AppendLongs, AppendStrings, AppendDecorators, AppendDecoratorLists;
    forall out: Bytes, c: Byte
      ensures AppendString(out, [c]) == out + S(c) && AppendStrings(out, [[c]]) == out + Ss(c)
    {
      OneText(out, c);
    }
    forall out: Bytes, k: Byte ensures AppendLong(out, k) == out + L(k) && AppendLongs(out, [k]) == out + Ls(k) {
      OneLong(out, k);
    }
    forall out: Bytes
      ensures AppendString(out, []) == out + NONE && AppendDecorators(order, out, []) == Ok(out + NONE)
      ensures AppendDecoratorLists(order, out, []) == Ok(out + NONE)
    {
      Nothing(order, out);
    }
  }

  // ----- lower case

  /** Match names are lowered letter by letter, and nothing else is. */
  lemma LowerLetters(b: Byte)
    ensures
      var small, large := "abcdefghijklmnopqrstuvwxyz", "ABCDEFGHIJKLMNOPQRSTUVWXYZ";
      && (forall n :: 0 <= n < 26 ==> LowerByte(large[n] as int) == small[n] as int)
      && ((forall n :: 0 <= n < 26 ==> large[n] as int != b) ==> LowerByte(b) == b)
  {
    var small, large := "abcdefghijklmnopqrstuvwxyz", "ABCDEFGHIJKLMNOPQRSTUVWXYZ";
    assert forall n :: 0 <= n < 26 ==> large[n] as int == 65 + n && small[n] as int == 97 + n;
    if 65 <= b <= 90 { assert large[b - 65] as int == b; }
  }

  /** Whatever is read has no capital letter in a method name or a parameter name. */
  lemma ReadLower(data: Bytes, name: Bytes, j: nat)
    requires Parsing.Parse(data).Ok? && j < |name| && 65 <= name[j] <= 90
    ensures
      var c := Parsing.Parse(data).value;
      && (forall k :: k in c.classes ==> name !in k.methods && name !in k.staticMethods)
      && (forall f :: f in c.functions ==> name !in f.paramNames)
  {
    hide Parsing.ReadChunk, Fitting.FitsChunk, Lower, Fitting.ClassRead, Fitting.FunctionRead;
    Stable.ChunkStays(data, []);
    var c := Parsing.Parse(data).value;
    var again := Fitting.ChunkRead(c);
    assert again == c;
    forall k | k in c.classes ensures name !in k.methods && name !in k.staticMethods {
      var i :| 0 <= i < |c.classes| && c.classes[i] == k;
      assert again.classes[i] == Fitting.ClassRead(k);
      ClassLower(k, name, j);
    }
    forall f | f in c.functions ensures name !in f.paramNames {
      var i :| 0 <= i < |c.functions| && c.functions[i] == f;
      assert again.functions[i] == Fitting.FunctionRead(f);
      FunctionLower(f, name, j);
    }
  }

  lemma ClassLower(c: ClassInfo, name: Bytes, j: nat)
    requires Fitting.ClashFreeClass(c) && c == Fitting.ClassRead(c) && j < |name| && 65 <= name[j] <= 90
    ensures name !in c.methods && name !in c.staticMethods
  {
    hide Lower, Fitting.LowerKeys, Fitting.Distinct, Fitting.Padded;
    NotLower(c.methods, name, j);
    NotLower(c.staticMethods, name, j);
  }

  lemma NotLower<V>(m: map<Bytes, V>, name: Bytes, j: nat)
    requires Fitting.Distinct(m) && j < |name| && 65 <= name[j] <= 90
    ensures name !in Fitting.LowerKeys(m)
  {
    hide Lower;
    if name in Fitting.LowerKeys(m) {
      var k :| k in m && Lower(k) == name;
      NoCapital(k, j);
    }
  }

  lemma FunctionLower(f: FunctionInfo, name: Bytes, j: nat)
    requires f == Fitting.FunctionRead(f) && j < |name| && 65 <= name[j] <= 90
    ensures name !in f.paramNames
  {
    hide Lower;
    if name in f.paramNames {
      var k :| 0 <= k < |f.paramNames| && f.paramNames[k] == name;
      assert name == LowerAll(f.paramNames)[k] == Lower(name);
      NoCapital(name, j);
    }
  }

  lemma NoCapital(k: Bytes, j: nat)
    requires j < |Lower(k)|
    ensures !(65 <= Lower(k)[j] <= 90)
  {}

  // ----- the records

  /** 7 is the opcode; the line is 258, the column 3. */
  lemma InstructionBytes()
    ensures AppendInstruction([], Instruction(7, 258, 3, [4])) == [7, 1, 2, 0, 3, 0, 1, 0, 0, 0, 0, 0, 0, 0, 4]
  {
    hide AppendWord, AppendLongs;
    Big([], 7, 0, 0, 0);
    Big([7], 1, 2, 0, 0);
    Big([7, 1, 2], 0, 3, 0, 0);
    OneLong([7, 1, 2, 0, 3], 4);
    assert AppendWord([], 1, 7) == [7];
    assert AppendWord([7], 2, 258) == [7, 1, 2];
    assert AppendWord([7, 1, 2], 2, 3) == [7, 1, 2, 0, 3];
  }

  lemma ExportBytes()
    ensures AppendExport([], Export([1], 2, 3, 4, 5, [6])) == [] + S(1) + L(2) + L(3) + L(4) + L(5) + Ls(6)
  {
    hide AppendString, AppendLong, AppendLongs, S, L, Ls;
    Parts((out, keys) => SomeOrder(keys));
  }

  /** The fields of the record are numbered as they are printed. */
  lemma FunctionBytes(order: Order, out: Bytes, a: bool, b: bool, c: bool, d: bool)
    ensures AppendFunction(order, out, FunctionInfo(
        [1], [2], [[3]], [[4]], 5, [[6]], [[7]], [8], [[9]], [[10]], [], [11], [12], [13], 14, 15, a, b, c, d, 16,
        17, [])) ==
      Ok(out + S(1) + S(2) + Ss(3) + Ss(4) + L(5) + Ss(6) + Ss(7) + Ls(8) + Ss(9) + Ss(10) + NONE + S(11) + S(12)
         + Ls(13) + L(14) + L(15) + F(a) + F(b) + F(c) + F(d) + L(16) + L(17) + NONE)
  {
    hide AppendString, AppendLong, AppendLongs, AppendStrings, AppendFlag, AppendDecorators, AppendDecoratorLists,
         S, L, Ls, Ss, F, NONE;
    Parts(order);
  }

  /** What a class's fields lack is printed as -1 or as an empty text. */
  lemma ClassBytes(order: Order, out: Bytes, b: bool)
    ensures AppendClass(order, out, ClassInfo(
        [1], [2], 4, [3], [[5]], [[6]], [[7]], [[8], [9]], [[12]], [[13]], [[14]], [], [10, 15], [11], [16], 17,
        map[[18] := [19]], map[[20] := 21], map[[22] := [23]], map[[24] := [25]], [[26]], [], map[[27] := []],
        map[[28] := []], b, [[29]], 30, 31)) ==
      Ok(out + S(1) + S(2) + S(3) + L(4) + Ss(5) + Ss(6) + Ss(7)
         + [0, 2] + S(8) + L(10) + L(11) + S(12) + S(13) + S(14)
         + S(9) + L(15) + [255, 255, 255, 255, 255, 255, 255, 255] + NONE + NONE + NONE
         + Ls(16) + L(17) + ONE + S(18) + Ls(19) + ONE + S(20) + L(21) + ONE + S(22) + S(23) + ONE + S(24) + Ls(25)
         + Ss(26) + NONE + ONE + S(27) + NONE + ONE + S(28) + NONE + NONE + F(b) + Ss(29) + L(30) + L(31))
  {
    hide AppendClassHead, AppendClassTables, AppendClassTail, S, L, Ls, Ss, F, NONE, ONE;
    var c := ClassInfo(
        [1], [2], 4, [3], [[5]], [[6]], [[7]], [[8], [9]], [[12]], [[13]], [[14]], [], [10, 15], [11], [16], 17,
        map[[18] := [19]], map[[20] := 21], map[[22] := [23]], map[[24] := [25]], [[26]], [], map[[27] := []],
        map[[28] := []], b, [[29]], 30, 31);
    HeadBytes(out, c);
    var out1 := AppendClassHead(out, c);
    TableBytes(order, out1, c);
    TailBytes(order, AppendClassTables(order, out1, c), c, b);
  }

  const ONE: Bytes := [0, 1]

  lemma HeadBytes(out: Bytes, c: ClassInfo)
    requires c.name == [1] && c.doc == [2] && c.parentName == [3] && c.parentIndex == 4
    requires c.parentArguments == [[5]] && c.typeParameters == [[6]] && c.typeParamConstraintExprs == [[7]]
    requires c.fieldNames == [[8], [9]] && c.fieldDefaults == [10, 15] && c.fieldDefaultFuncs == [11]
    requires c.fieldTypes == [[12]] && c.fieldCheckTypes == [[13]] && c.fieldDocs == [[14]]
    ensures AppendClassHead(out, c) ==
      out + S(1) + S(2) + S(3) + L(4) + Ss(5) + Ss(6) + Ss(7) + [0, 2] + S(8) + L(10) + L(11) + S(12) + S(13) + S(14)
      + S(9) + L(15) + [255, 255, 255, 255, 255, 255, 255, 255] + NONE + NONE + NONE
  {
    hide AppendString, AppendLong, AppendLongs, AppendStrings, AppendWord, AppendEach, S, L, Ls, Ss, NONE, Rows;
    Parts((out, keys) => SomeOrder(keys));
    var out1 := out + S(1) + S(2) + S(3) + L(4) + Ss(5) + Ss(6) + Ss(7);
    Big(out1, 0, 2, 0, 0);
    assert AppendWord(out1, 2, 2) == out1 + [0, 2];
    var first, second := Field([8], 10, 11, [12], [13], [14]), Field([9], 15, -1, [], [], []);
    RowsAre(c, first, second);
    TwoFields(out1 + [0, 2], first, second);
    var out2 := AppendField(out1 + [0, 2], first);
    MinusOne(out2 + S(9) + L(15));
  }

  lemma RowsAre(c: ClassInfo, first: Field, second: Field)
    requires c.fieldNames == [[8], [9]] && c.fieldDefaults == [10, 15] && c.fieldDefaultFuncs == [11]
    requires c.fieldTypes == [[12]] && c.fieldCheckTypes == [[13]] && c.fieldDocs == [[14]]
    requires first == Field([8], 10, 11, [12], [13], [14]) && second == Field([9], 15, -1, [], [], [])
    ensures Rows(c) == [first, second]
  {
    assert Rows(c)[0] == first;
    assert Rows(c)[1] == second;
  }

  lemma TwoFields(out: Bytes, first: Field, second: Field)
    ensures AppendEach(AppendField, out, [first, second]) == AppendField(AppendField(out, first), second)
  {
    hide AppendField;
    var both := [first, second];
    assert both[..1] == [first] && [first][..0] == [];
    assert AppendEach(AppendField, out, [first]) == AppendField(out, first);
  }

  lemma MinusOne(out: Bytes)
    ensures AppendLong(out, -1) == out + [255, 255, 255, 255, 255, 255, 255, 255]
  {
    hide Put;
    Small(0);
  }

  lemma TableBytes(order: Order, out: Bytes, c: ClassInfo)
    requires c.constructorIndices == [16] && c.destructorIndex == 17 && c.methods == map[[18] := [19]]
    requires c.staticValues == map[[20] := 21] && c.staticTypes == map[[22] := [23]]
    requires c.staticMethods == map[[24] := [25]]
    ensures AppendClassTables(order, out, c) ==
      out + Ls(16) + L(17) + ONE + S(18) + Ls(19) + ONE + S(20) + L(21) + ONE + S(22) + S(23) + ONE + S(24) + Ls(25)
  {
    hide AppendString, AppendLong, AppendLongs, AppendStrings, AppendTable, S, L, Ls, Ss, NONE, ONE;
    Parts(order);
    var out1 := out + Ls(16) + L(17);
    OneRow(AppendNamedLongs, order, out1, [18], [19]);
    var out2 := out1 + ONE + S(18) + Ls(19);
    OneRow(AppendNamedLong, order, out2, [20], 21);
    var out3 := out2 + ONE + S(20) + L(21);
    OneRow(AppendNamedString, order, out3, [22], [23]);
    OneRow(AppendNamedLongs, order, out3 + ONE + S(22) + S(23), [24], [25]);
  }

  lemma OneRow<V>(append: (Bytes, (Bytes, V)) -> Bytes, order: Order, out: Bytes, k: Bytes, v: V)
    ensures AppendTable(append, order, out, map[k := v]) == append(out + ONE, (k, v))
  {
    hide AppendWord;
    var m := map[k := v];
    Big(out, 0, 1, 0, 0);
    assert |m| == 1;
    var rows := Entries(order, out + ONE, m);
    assert rows == [(k, v)];
    assert rows[..0] == [];
    assert AppendEach(append, out + ONE, rows[..0]) == out + ONE;
  }

  lemma OneMapped<V>(append: Appender<(Bytes, V)>, order: Order, out: Bytes, k: Bytes, v: V)
    ensures AppendMap(append, order, out, map[k := v]) == append(out + ONE, (k, v))
  {
    hide AppendWord;
    var m := map[k := v];
    Big(out, 0, 1, 0, 0);
    assert |m| == 1;
    var rows := Entries(order, out + ONE, m);
    assert rows == [(k, v)];
    assert rows[..0] == [];
    assert AppendAll(append, out + ONE, rows[..0]) == Ok(out + ONE);
  }

  lemma TailBytes(order: Order, out: Bytes, c: ClassInfo, b: bool)
    requires c.implements == [[26]] && c.decorators == [] && c.methodDecorators == map[[27] := []]
    requires c.staticDecorators == map[[28] := []] && c.fieldDecorators == [] && c.immutable_ == b
    requires c.immutableFields == [[29]] && c.defLine == 30 && c.defColumn == 31
    ensures AppendClassTail(order, out, c) ==
      Ok(out + Ss(26) + NONE + ONE + S(27) + NONE + ONE + S(28) + NONE + NONE + F(b) + Ss(29) + L(30) + L(31))
  {
    hide AppendString, AppendLong, AppendStrings, AppendFlag, AppendDecorators, AppendDecoratorLists, AppendMap,
         S, L, Ss, F, NONE, ONE;
    Parts(order);
    var out1 := out + Ss(26) + NONE;
    OneMapped(NamedDecoratorsAppender(order), order, out1, [27], []);
    OneMapped(NamedDecoratorsAppender(order), order, out1 + ONE + S(27) + NONE, [28], []);
  }

  lemma InterfaceBytes(order: Order, out: Bytes)
    ensures AppendInterface(order, out, InterfaceInfo(
        [1], [2], [[3]], [[4]], [], map[[5] := 6], [[7]], [[8]])) ==
      Ok(out + S(1) + S(2) + Ss(3) + Ss(4) + NONE + ONE + S(5) + L(6) + ONE + S(7) + S(8))
  {
    hide AppendString, AppendLong, AppendStrings, AppendTable, AppendWord, AppendEach, AppendAll, S, L, Ss, NONE, ONE,
         InterfaceRows;
    Parts(order);
    var i := InterfaceInfo([1], [2], [[3]], [[4]], [], map[[5] := 6], [[7]], [[8]]);
    var out1 := out + S(1) + S(2) + Ss(3) + Ss(4);
    Big(out1, 0, 0, 0, 0);
    NoMethods(order, out1 + NONE);
    OneRow(AppendNamedLong, order, out1 + NONE, [5], 6);
    var out2 := out1 + NONE + ONE + S(5) + L(6);
    Big(out2, 0, 1, 0, 0);
    InterfaceRow(i, out2 + ONE);
  }

  lemma NoMethods(order: Order, out: Bytes)
    ensures NONE == [0, 0] && ONE == [0, 1] && AppendAll(MethodAppender(order), out, []) == Ok(out)
  {}

  lemma InterfaceRow(i: InterfaceInfo, out: Bytes)
    requires i.fields == [[7]] && i.fieldTypes == [[8]]
    ensures AppendEach(AppendNamedString, out, InterfaceRows(i)) == AppendNamedString(out, ([7], [8]))
  {
    hide AppendNamedString;
    var rows := InterfaceRows(i);
    assert rows == [([7], [8])];
    assert rows[..0] == [];
  }

  // ----- constants

  /** The tags of the constants that hold one value, or none. */
  lemma ConstantBytes(order: Order, out: Bytes, b: bool, c: Byte)
    ensures AppendConstant(order, out, Literal(Null)) == Ok(out + [0])
    ensures AppendConstant(order, out, Literal(Bool(b))) == Ok(out + [1] + F(b))
    ensures AppendConstant(order, out, Literal(Str([c]))) == Ok(out + [3] + [0, 0, 0, 1, c])
    ensures AppendConstant(order, out, Literal(Decimal([c]))) == Ok(out + [4] + [0, 0, 0, 1, c])
    ensures AppendConstant(order, out, Literal(Float(c))) == Ok(out + [5] + L(c))
    ensures AppendConstant(order, out, TypeName([c])) == Ok(out + [8] + S(c))
    ensures AppendConstant(order, out, EmptyDict) == Ok(out + [10])
    ensures AppendConstant(order, out, EmptyList) == Ok(out + [11])
    ensures AppendConstant(order, out, EmptySet) == Ok(out + [12])
    ensures AppendConstant(order, out, Binary([c])) == Ok(out + [13] + [0, 0, 0, 1, c])
    ensures AppendConstant(order, out, Pending) == Ok(out + [14])
    ensures AppendConstant(order, out, Foreign) == Bad
  {
    hide AppendWord, AppendString, AppendLong, AppendText, L, S, F;
    Tags(out);
    Parts(order);
    Long1(out + [3], c);
    Long1(out + [4], c);
    Long1(out + [13], c);
  }

  lemma Tags(out: Bytes)
    ensures forall t: Byte {:trigger AppendWord(out, 1, t)} :: AppendWord(out, 1, t) == out + [t]
  {
    forall t: Byte ensures AppendWord(out, 1, t) == out + [t] { Big(out, t, 0, 0, 0); }
  }

  lemma Long1(out: Bytes, c: Byte)
    ensures AppendText(out, 4, [c]) == out + [0, 0, 0, 1, c]
  {
    hide AppendWord;
    Big(out, 0, 0, 0, 1);
    assert AppendWord(out, 4, 1) == out + [0, 0, 0, 1];
  }

  /** An int is printed as its decimal digits, so -12 as "-12". */
  lemma IntBytes(out: Bytes)
    ensures Printed(-12) == [45, 49, 50] && Printed(0) == [48]
    ensures AppendScalar(out, Int(-12)) == out + [2, 0, 0, 0, 3, 45, 49, 50]
  {
    hide AppendWord;
    assert DigitsOf(12) == DigitsOf(1) + [50] == [49, 50];
    Tags(out);
    Big(out + [2], 0, 0, 0, 3);
    assert AppendWord(out + [2], 4, 3) == out + [2] + [0, 0, 0, 3];
  }

  /** Underscores in a literal are skipped, and 0x, 0o and 0b give its base. */
  lemma LiteralInts()
    ensures ParseInt([49, 95, 48]) == Ok(10) && ParseInt([43, 55]) == Ok(7) && ParseInt([45, 55]) == Ok(-7)
    ensures ParseInt([48, 120, 70, 97]) == Ok(250) && ParseInt([48, 88, 49]) == Ok(1)
    ensures ParseInt([48, 111, 49, 55]) == Ok(15) && ParseInt([48, 98, 49, 48]) == Ok(2)
    ensures ParseInt([48, 98, 50]) == Bad && ParseInt([]) == Bad && ParseInt([45]) == Bad
  {
    hide ParseDigits, Plain;
    PlainDigits([43, 55]);
    PlainDigits([45, 55]);
    PlainDigits([48, 120, 70, 97]);
    PlainDigits([48, 88, 49]);
    PlainDigits([48, 111, 49, 55]);
    PlainDigits([48, 98, 49, 48]);
    PlainDigits([48, 98, 50]);
    PlainDigits([]);
    PlainDigits([45]);
    assert Plain([49, 95, 48]) == [49, 48] by { Underscore(); }
    TwoDigits(49, 48, 10);
    TwoDigits(70, 97, 16);
    TwoDigits(49, 55, 8);
    TwoDigits(49, 48, 2);
    OneDigitIs(55, 10);
    OneDigitIs(49, 16);
    OneDigitIs(50, 2);
    assert [43, 55][1..] == [55] && [45, 55][1..] == [55] && [48, 120, 70, 97][2..] == [70, 97];
    assert [48, 88, 49][2..] == [49] && [48, 111, 49, 55][2..] == [49, 55] && [48, 98, 49, 48][2..] == [49, 48];
    assert [48, 98, 50][2..] == [50];
  }

  lemma Underscore()
    ensures Plain([49, 95, 48]) == [49, 48]
  {
    var t: Bytes := [49, 95, 48];
    assert t[..2] == [49, 95] && [49, 95][..1] == [49] && [49][..0] == [];
    assert Plain([49]) == [49] && Plain([49, 95]) == [49];
  }

  lemma OneDigitIs(a: Byte, base: nat)
    ensures ParseDigits([a], base) == if DigitValue(a) < base then Ok(DigitValue(a)) else Bad
  {
    assert [a][..0] == [];
  }

  lemma TwoDigits(a: Byte, b: Byte, base: nat)
    requires DigitValue(a) < base && DigitValue(b) < base
    ensures ParseDigits([a, b], base) == Ok(base * DigitValue(a) + DigitValue(b))
  {
    OneDigitIs(a, base);
    assert [a, b][..1] == [a];
  }

  lemma TargetBytes(order: Order, out: Bytes)
    ensures AppendConstant(order, out, Target([1], Option.None, Option.None, [])) ==
      Ok(out + [6] + S(1) + [0] + [0] + NONE)
  {
    hide AppendWord, AppendString, AppendDecorators, S, NONE;
    Parts(order);
    Tags(out);
    Tags(out + [6] + S(1));
    Tags(out + [6] + S(1) + [0]);
  }

  lemma FunctionMetadataBytes(order: Order, out: Bytes, a: bool, b: bool, c: bool, d: bool)
    ensures AppendFunctionMetadata(order, out, Option.Some(FunctionMetadata(
        [1], [2], [3], [[5]], [Parameter([6], [7], c, d, [])], [4], a, b, []))) ==
      Ok(out + [1] + S(1) + S(2) + S(3) + S(4) + Ss(5) + F(a) + F(b) + ONE + S(6) + S(7) + F(c) + F(d) + NONE + NONE)
  {
    hide AppendWord, AppendString, AppendStrings, AppendFlag, AppendDecorators, AppendAll, S, Ss, F, NONE, ONE;
    Parts(order);
    Tags(out);
    var p := Parameter([6], [7], c, d, []);
    var out1 := out + [1] + S(1) + S(2) + S(3) + S(4) + Ss(5) + F(a) + F(b);
    Big(out1, 0, 1, 0, 0);
    assert AppendWord(out1, 2, 1) == out1 + ONE by { NoMethods(order, out); }
    OneOf(ParameterAppender(order), out1 + ONE, p);
  }

  lemma OneOf<T>(append: Appender<T>, out: Bytes, x: T)
    ensures AppendAll(append, out, [x]) == append(out, x)
  {
    assert [x][..0] == [];
    assert AppendAll(append, out, [x][..0]) == Ok(out);
  }

  lemma ClassMetadataBytes(out: Bytes)
    ensures AppendClassMetadata(out, Option.Some(ClassMetadata([1], [2], [3], [[4]], [[5]], [[6]], [[7]]))) ==
      out + [1] + S(1) + S(2) + S(3) + Ss(4) + Ss(5) + Ss(6) + Ss(7)
  {
    hide AppendWord, AppendString, AppendStrings, S, Ss;
    Parts((out, keys) => SomeOrder(keys));
    Tags(out);
  }

  lemma EnumBytes(order: Order, out: Bytes)
    ensures AppendConstant(order, out, Enum(
        [1], [2], [3], [Variant([4], 5, Option.None)], [[6]], map[[7] := [8]])) ==
      Ok(out + [7] + S(1) + S(2) + S(3) + ONE + S(4) + [0, 5] + [0] + Ss(6) + ONE + S(7) + Ls(8))
  {
    hide AppendWord, AppendString, AppendStrings, AppendLongs, AppendTable, AppendAll, S, Ss, Ls, NONE, ONE;
    Parts(order);
    Tags(out);
    var v := Variant([4], 5, Option.None);
    var out1 := out + [7] + S(1) + S(2) + S(3);
    Big(out1, 0, 1, 0, 0);
    assert AppendWord(out1, 2, 1) == out1 + ONE by { NoMethods(order, out); }
    OneOf(AppendVariant, out1 + ONE, v);
    Big(out1 + ONE + S(4), 0, 5, 0, 0);
    Tags(out1 + ONE + S(4) + [0, 5]);
    OneRow(AppendNamedLongs, order, out1 + ONE + S(4) + [0, 5] + [0] + Ss(6), [7], [8]);
  }

  lemma ClassRefBytes(order: Order, out: Bytes)
    ensures AppendConstant(order, out, ClassRef([1], [2], 3, [], map[[4] := []], map[[5] := []])) ==
      Ok(out + [9] + S(1) + S(2) + L(3) + NONE + ONE + S(4) + NONE + ONE + S(5) + NONE)
  {
    hide AppendWord, AppendString, AppendLong, AppendDecorators, AppendMap, S, L, NONE, ONE;
    Parts(order);
    Tags(out);
    var out1 := out + [9] + S(1) + S(2) + L(3) + NONE;
    OneMapped(NamedDecoratorsAppender(order), order, out1, [4], []);
    OneMapped(NamedDecoratorsAppender(order), order, out1 + ONE + S(4) + NONE, [5], []);
  }

  // ----- decorators

  lemma ArgBytes(out: Bytes)
    ensures AppendArg(out, Arg.List([Simple(Null)])) == Ok(out + [7] + ONE + [0])
    ensures AppendArg(out, Dict([Pair(Simple(Null), Simple(Bool(true)))])) == Ok(out + [8] + ONE + [0] + [1] + F(true))
    ensures AppendArg(out, Arg.Set([Simple(Null)])) == Ok(out + [9] + ONE + [0])
    ensures AppendArg(out, Opaque) == Bad
  {
    hide AppendWord, AppendFlag, F;
    Tags(out);
    Parts((out, keys) => SomeOrder(keys));
    Counted(out, 7);
    Counted(out, 8);
    Counted(out, 9);
    Tags(out + [8] + ONE + [0]);
  }

  lemma Counted(out: Bytes, t: Byte)
    ensures AppendWord(out + [t], 2, 1) == out + [t] + ONE
    ensures forall u: Byte {:trigger AppendWord(out + [t] + ONE, 1, u)} ::
              AppendWord(out + [t] + ONE, 1, u) == out + [t] + ONE + [u]
  {
    Big(out + [t], 0, 1, 0, 0);
    Tags(out + [t] + ONE);
  }

  lemma DecoratorBytes(order: Order, out: Bytes)
    ensures AppendDecorator(order, out, Decorator(
        [1], [2], 3, 4, [Simple(Null)], map[[7] := Simple(Null)], 5, 6)) ==
      Ok(out + S(1) + S(2) + L(3) + L(4) + L(5) + L(6) + ONE + [0] + ONE + S(7) + [0])
  {
    hide AppendWord, AppendString, AppendLong, AppendMap, AppendScalar, S, L, ONE;
    Parts(order);
    var out1 := out + S(1) + S(2) + L(3) + L(4) + L(5) + L(6);
    Big(out1, 0, 1, 0, 0);
    assert AppendWord(out1, 2, 1) == out1 + ONE by { NoMethods(order, out); }
    NullBytes(out1 + ONE);
    var out2 := out1 + ONE + [0];
    assert AppendArgs(out1 + ONE, [Simple(Null)], 1) == Ok(out2);
    OneMapped(AppendNamedArg, order, out2, [7], Simple(Null));
    NullBytes(out2 + ONE + S(7));
  }

  lemma NullBytes(out: Bytes)
    ensures AppendScalar(out, Null) == out + [0]
  {
    hide AppendWord;
    Tags(out);
  }

  // ----- the chunk

  lemma ChunkHeadBytes(out: Bytes, c: Chunk)
    requires c.compiler == [1] && c.topLevelLocalCount == 2 && c.globalCount == 3 && c.globalNames == [[4]]
    ensures AppendChunkHead(out, c) ==
      out + [71, 69, 66, 66, 67] + [0, 92] + c.sourceHash + S(1) + L(2) + L(3) + [0, 0, 0, 1] + S(4)
  {
    hide AppendWord, AppendString, AppendLong, S, L;
    Parts((out, keys) => SomeOrder(keys));
    Big(out + MAGIC, 0, 92, 0, 0);
    var out1 := out + MAGIC + [0, 92] + c.sourceHash + S(1) + L(2) + L(3);
    Big(out1, 0, 0, 0, 1);
    var names: seq<Bytes> := [[4]];
    assert names[..0] == [];
    assert AppendEach(AppendString, out1 + [0, 0, 0, 1], names[..0]) == out1 + [0, 0, 0, 1];
  }

  /** Constants, then instructions, then functions, classes and interfaces, each after its number. */
  lemma CodeBytes(order: Order, out: Bytes, c: Chunk)
    requires c.constants == [EmptyList] && c.instructions == [Instruction(7, 0, 0, [])]
    requires c.functions == [] && c.classes == [] && c.interfaces == []
    ensures AppendCode(order, out, c) ==
      Ok(out + [0, 0, 0, 1] + [11] + [0, 0, 0, 1] + [7] + NONE + NONE + NONE + [0, 0, 0, 0] + [0, 0, 0, 0]
         + [0, 0, 0, 0])
  {
    hide AppendWord, AppendConstant, AppendFunction, AppendClass, AppendInterface, NONE;
    NoMethods(order, out);
    Big(out, 0, 0, 0, 1);
    var out1 := out + [0, 0, 0, 1];
    ConstantBytes(order, out1, true, 0);
    OneOf(ConstantAppender(order), out1, EmptyList);
    var out2 := out1 + [11];
    Big(out2, 0, 0, 0, 1);
    OneInstruction(out2 + [0, 0, 0, 1], c.instructions[0]);
    var out3 := out2 + [0, 0, 0, 1] + [7] + NONE + NONE + NONE;
    Big(out3, 0, 0, 0, 0);
    Big(out3 + [0, 0, 0, 0], 0, 0, 0, 0);
    Big(out3 + [0, 0, 0, 0] + [0, 0, 0, 0], 0, 0, 0, 0);
  }

  lemma OneInstruction(out: Bytes, i: Instruction)
    requires i == Instruction(7, 0, 0, [])
    ensures AppendEach(AppendInstruction, out, [i]) == out + [7] + NONE + NONE + NONE
  {
    hide AppendWord;
    Tags(out);
    Big(out + [7], 0, 0, 0, 0);
    Big(out + [7] + NONE, 0, 0, 0, 0);
    Big(out + [7] + NONE + NONE, 0, 0, 0, 0);
    assert [i][..0] == [];
    assert AppendEach(AppendInstruction, out, [i][..0]) == out;
  }

  lemma ChunkTailBytes(order: Order, out: Bytes, c: Chunk)
    requires c.exports == [] && c.embeds == [Embed([1], c.sourceHash)] && c.moduleAliases == map[[2] := [3]]
    requires c.fromImports == map[[4] := [5]] && c.typeAliasDeps == map[[6] := [7]]
    ensures AppendChunkTail(order, out, c) ==
      out + NONE + ONE + S(1) + c.sourceHash + ONE + S(2) + S(3) + ONE + S(4) + S(5) + ONE + S(6) + S(7)
  {
    hide AppendWord, AppendString, AppendTable, AppendExport, S, NONE, ONE;
    Parts(order);
    Big(out, 0, 0, 0, 0);
    NoMethods(order, out);
    Big(out + NONE, 0, 1, 0, 0);
    assert c.embeds[..0] == [];
    assert AppendEach(AppendEmbed, out + NONE + ONE, c.embeds[..0]) == out + NONE + ONE;
    var out1 := out + NONE + ONE + S(1) + c.sourceHash;
    OneRow(AppendNamedString, order, out1, [2], [3]);
    var out2 := out1 + ONE + S(2) + S(3);
    OneRow(AppendNamedString, order, out2, [4], [5]);
    OneRow(AppendNamedString, order, out2 + ONE + S(4) + S(5), [6], [7]);
  }
}
