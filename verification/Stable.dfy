/** Whatever the parser finds fits, and is found again when more bytes follow. */
module Stable {
  import opened Wire
  import opened Records
  import opened Parsing
  import opened Fitting
  import opened RoundTrip

  // ----- lists and maps

  function FitsEntry<V>(fits: V -> bool): ((Bytes, V)) -> bool { (e: (Bytes, V)) => FitsString(e.0) && fits(e.1) }

  lemma {:induction false} InsertedFits<V>(es: seq<(Bytes, V)>, fits: V -> bool)
    requires forall e :: e in es ==> FitsString(e.0) && fits(e.1)
    ensures |Inserted(es)| <= |es| && forall k :: k in Inserted(es) ==> FitsString(k) && fits(Inserted(es)[k])
    decreases |es|
  {
    if es != [] {
      var rest, e := es[..|es| - 1], es[|es| - 1];
      InsertedFits(rest, fits);
      assert Inserted(es).Keys == Inserted(rest).Keys + {e.0};
      assert e in es;
    }
  }

  lemma TableStays<V(!new)>(read: Reader<(Bytes, V)>, fits: V -> bool, data: Bytes, more: Bytes)
    requires Firm(read, FitsEntry(fits), data, more)
    ensures forall pos: nat {:trigger ReadTable(read, data, pos)} :: pos <= |data| ==>
              Stays(ReadTable(read, data, pos), ReadTable(read, data + more, pos), pos, data)
              && (ReadTable(read, data, pos).Ok? ==> FitsMap(ReadTable(read, data, pos).value.0, fits))
  {
    hide ReadList, Inserted, FitsString, Room;
    Rooms();
    ListStays(read, FitsEntry(fits), 2, data, more);
    forall pos: nat | pos <= |data|
      ensures Stays(ReadTable(read, data, pos), ReadTable(read, data + more, pos), pos, data)
      ensures ReadTable(read, data, pos).Ok? ==> FitsMap(ReadTable(read, data, pos).value.0, fits)
    {
      var r := ReadList(read, 2, data, pos);
      if r.Ok? { InsertedFits(r.value.0, fits); }
    }
  }

  lemma TablesStay(data: Bytes, more: Bytes)
    ensures forall pos: nat {:trigger ReadTable(NamedLong, data, pos)} :: pos <= |data| ==>
              Stays(ReadTable(NamedLong, data, pos), ReadTable(NamedLong, data + more, pos), pos, data)
              && (ReadTable(NamedLong, data, pos).Ok? ==> FitsMap(ReadTable(NamedLong, data, pos).value.0, AnyLong))
    ensures forall pos: nat {:trigger ReadTable(NamedLongs, data, pos)} :: pos <= |data| ==>
              Stays(ReadTable(NamedLongs, data, pos), ReadTable(NamedLongs, data + more, pos), pos, data)
              && (ReadTable(NamedLongs, data, pos).Ok? ==> FitsMap(ReadTable(NamedLongs, data, pos).value.0, FitsLongs))
    ensures forall pos: nat {:trigger ReadTable(LowerNamedLongs, data, pos)} :: pos <= |data| ==>
              Stays(ReadTable(LowerNamedLongs, data, pos), ReadTable(LowerNamedLongs, data + more, pos), pos, data)
              && (ReadTable(LowerNamedLongs, data, pos).Ok? ==>
                    FitsMap(ReadTable(LowerNamedLongs, data, pos).value.0, FitsLongs))
    ensures forall pos: nat {:trigger ReadTable(NamedString, data, pos)} :: pos <= |data| ==>
              Stays(ReadTable(NamedString, data, pos), ReadTable(NamedString, data + more, pos), pos, data)
              && (ReadTable(NamedString, data, pos).Ok? ==>
                  FitsMap(ReadTable(NamedString, data, pos).value.0, FitsString))
  {
    hide *;
    EntriesStay(data, more);
    LowerEntriesStay(data, more);
    NamedStringStays(data, more);
    TableStays(NamedLong, AnyLong, data, more);
    TableStays(NamedLongs, FitsLongs, data, more);
    TableStays(LowerNamedLongs, FitsLongs, data, more);
    TableStays(NamedString, FitsString, data, more);
  }

  lemma EntriesStay(data: Bytes, more: Bytes)
    ensures Firm(NamedLong, FitsEntry(AnyLong), data, more) && Firm(NamedLongs, FitsEntry(FitsLongs), data, more)
  {
    hide String, Long, Longs, FitsLongs, FitsString;
    LeavesStay(data, more);
    ListsStay(data, more);
    forall pos: nat | pos <= |data|
      ensures Stays(NamedLong(data, pos), NamedLong(data + more, pos), pos, data)
      ensures NamedLong(data, pos).Ok? ==> FitsEntry(AnyLong)(NamedLong(data, pos).value.0)
    {
      var r := NamedLong(data, pos);
      if r.Ok? { EntryFits(r.value.0, AnyLong); }
    }
    forall pos: nat | pos <= |data|
      ensures Stays(NamedLongs(data, pos), NamedLongs(data + more, pos), pos, data)
      ensures NamedLongs(data, pos).Ok? ==> FitsEntry(FitsLongs)(NamedLongs(data, pos).value.0)
    {
      var r := NamedLongs(data, pos);
      if r.Ok? { EntryFits(r.value.0, FitsLongs); }
    }
  }

  lemma EntryFits<V>(e: (Bytes, V), fits: V -> bool)
    requires FitsString(e.0) && fits(e.1)
    ensures FitsEntry(fits)(e)
  {}

  lemma LowerEntriesStay(data: Bytes, more: Bytes)
    ensures Firm(LowerNamedLongs, FitsEntry(FitsLongs), data, more)
  {
    hide String, Longs, FitsLongs;
    LeavesStay(data, more);
    ListsStay(data, more);
    forall pos: nat | pos <= |data|
      ensures Stays(LowerNamedLongs(data, pos), LowerNamedLongs(data + more, pos), pos, data)
      ensures LowerNamedLongs(data, pos).Ok? ==> FitsEntry(FitsLongs)(LowerNamedLongs(data, pos).value.0)
    {
      var name := String(data, pos);
      var r := LowerNamedLongs(data, pos);
      if r.Ok? {
        assert r.value.0.0 == Lower(name.value.0) && |Lower(name.value.0)| == |name.value.0|;
        EntryFits(r.value.0, FitsLongs);
      }
    }
  }

  // ----- decorators

  lemma ScalarStays(tag: nat, data: Bytes, more: Bytes, pos: nat)
    requires pos <= |data|
    ensures Stays(ReadScalar(tag, data, pos), ReadScalar(tag, data + more, pos), pos, data)
    ensures ReadScalar(tag, data, pos).Ok? ==> FitsScalar(ReadScalar(tag, data, pos).value.0)
  {
    hide Text, Flag, Long, ParseInt, Printed, Room;
    Rooms();
    LeavesStay(data, more);
    TextStays(data, more, pos, 4);
  }

  lemma {:induction false} ArgStays(data: Bytes, more: Bytes, pos: nat)
    requires pos <= |data|
    ensures Stays(ReadArg(data, pos), ReadArg(data + more, pos), pos, data)
    ensures ReadArg(data, pos).Ok? ==> FitsArg(ReadArg(data, pos).value.0)
    decreases Left(data, pos), 0, 0
  {
    hide Word, ReadScalar, ReadArgs, ReadPairs, Room, FitsScalar;
    Rooms();
    LeavesStay(data, more);
    var t := Word(data, pos, 1);
    if t.Ok? {
      var next := t.value.1;
      assert pos < next by { OneOn(data, pos); }
      if t.value.0 in {7, 8, 9} {
        var n := Word(data, next, 2);
        if n.Ok? {
          if t.value.0 == 8 {
            PairsStay(data, more, n.value.1, n.value.0);
          } else {
            ArgsStay(data, more, n.value.1, n.value.0);
          }
        }
      } else {
        ScalarStays(t.value.0, data, more, next);
      }
    }
  }

  lemma OneOn(data: Bytes, pos: nat)
    requires Word(data, pos, 1).Ok?
    ensures Word(data, pos, 1).value.1 == pos + 1
  {}

  lemma {:induction false} ArgsStay(data: Bytes, more: Bytes, pos: nat, n: nat)
    requires pos <= |data|
    ensures Stays(ReadArgs(data, pos, n), ReadArgs(data + more, pos, n), pos, data)
    ensures
      var r := ReadArgs(data, pos, n);
      r.Ok? ==> |r.value.0| == n && forall i :: 0 <= i < n ==> FitsArg(r.value.0[i])
    decreases Left(data, pos), 1, n
  {
    hide FitsArg, ReadArg;
    if n > 0 {
      ArgsStay(data, more, pos, n - 1);
      var r := ReadArgs(data, pos, n - 1);
      if r.Ok? { ArgStays(data, more, r.value.1); }
    }
  }

  lemma {:induction false} PairsStay(data: Bytes, more: Bytes, pos: nat, n: nat)
    requires pos <= |data|
    ensures Stays(ReadPairs(data, pos, n), ReadPairs(data + more, pos, n), pos, data)
    ensures
      var r := ReadPairs(data, pos, n);
      r.Ok? ==> |r.value.0| == n && forall i :: 0 <= i < n ==> FitsPair(r.value.0[i])
    decreases Left(data, pos), 1, n
  {
    hide FitsArg, ReadArg;
    if n > 0 {
      PairsStay(data, more, pos, n - 1);
      var r := ReadPairs(data, pos, n - 1);
      if r.Ok? {
        ArgStays(data, more, r.value.1);
        var key := ReadArg(data, r.value.1);
        if key.Ok? { ArgStays(data, more, key.value.1); }
      }
    }
  }

  lemma DecoratorStays(data: Bytes, more: Bytes)
    ensures Firm(ReadDecorator, FitsDecorator, data, more)
  {
    hide String, Long, Word, ReadArg, ReadArgs, ReadTable, FitsArg, FitsString, FitsMap, Room;
    Rooms();
    LeavesStay(data, more);
    forall pos: nat | pos <= |data|
      ensures Stays(ReadNamedArg(data, pos), ReadNamedArg(data + more, pos), pos, data)
      ensures ReadNamedArg(data, pos).Ok? ==> FitsEntry(FitsArg)(ReadNamedArg(data, pos).value.0)
    {
      var name := String(data, pos);
      if name.Ok? { ArgStays(data, more, name.value.1); }
    }
    assert Firm(ReadNamedArg, FitsEntry(FitsArg), data, more);
    TableStays(ReadNamedArg, FitsArg, data, more);
    forall pos: nat, n: nat | pos <= |data|
      ensures Stays(ReadArgs(data, pos, n), ReadArgs(data + more, pos, n), pos, data)
      ensures
        var r := ReadArgs(data, pos, n);
        r.Ok? ==> |r.value.0| == n && forall i :: 0 <= i < n ==> FitsArg(r.value.0[i])
    {
      ArgsStay(data, more, pos, n);
    }
    forall pos: nat | pos <= |data|
      ensures Stays(ReadDecorator(data, pos), ReadDecorator(data + more, pos), pos, data)
      ensures ReadDecorator(data, pos).Ok? ==> FitsDecorator(ReadDecorator(data, pos).value.0)
    {}
  }

  lemma DecoratorsStay(data: Bytes, more: Bytes)
    ensures forall pos: nat {:trigger ReadDecorators(data, pos)} :: pos <= |data| ==>
              Stays(ReadDecorators(data, pos), ReadDecorators(data + more, pos), pos, data)
              && (ReadDecorators(data, pos).Ok? ==> FitsDecorators(ReadDecorators(data, pos).value.0))
    ensures forall pos: nat {:trigger ReadDecoratorLists(data, pos)} :: pos <= |data| ==>
              Stays(ReadDecoratorLists(data, pos), ReadDecoratorLists(data + more, pos), pos, data)
              && (ReadDecoratorLists(data, pos).Ok? ==> FitsDecoratorLists(ReadDecoratorLists(data, pos).value.0))
    ensures forall pos: nat {:trigger ReadDecoratorMap(data, pos)} :: pos <= |data| ==>
              Stays(ReadDecoratorMap(data, pos), ReadDecoratorMap(data + more, pos), pos, data)
              && (ReadDecoratorMap(data, pos).Ok? ==> FitsDecoratorMap(ReadDecoratorMap(data, pos).value.0))
  {
    hide String, ReadList, ReadTable, FitsDecorator, FitsString, FitsMap, Room, ReadDecorator;
    Rooms();
    LeavesStay(data, more);
    DecoratorStays(data, more);
    ListStays(ReadDecorator, FitsDecorator, 2, data, more);
    assert Firm(ReadDecorators, FitsDecorators, data, more);
    ListStays(ReadDecorators, FitsDecorators, 2, data, more);
    assert Firm(ReadNamedDecorators, FitsEntry(FitsDecorators), data, more);
    TableStays(ReadNamedDecorators, FitsDecorators, data, more);
  }

  // ----- metadata

  lemma ParameterStays(data: Bytes, more: Bytes)
    ensures Firm(ReadParameter, FitsParameter, data, more)
  {
    hide String, Flag, FitsString, ReadDecorators, FitsDecorators;
    LeavesStay(data, more);
    DecoratorsStay(data, more);
  }

  function FitsMethod(m: Option<FunctionMetadata>): bool { FitsOptional(m, FitsFunctionMetadata) }

  lemma FunctionMetadataStays(data: Bytes, more: Bytes)
    ensures Firm(ReadFunctionMetadata, FitsMethod, data, more)
  {
    hide String, Flag, Strings, FitsString, FitsStrings, ReadDecorators, FitsDecorators, ReadList, Room, ReadParameter,
         FitsParameter;
    Rooms();
    LeavesStay(data, more);
    ListsStay(data, more);
    DecoratorsStay(data, more);
    ParameterStays(data, more);
    ListStays(ReadParameter, FitsParameter, 2, data, more);
  }

  lemma MetadataStays(data: Bytes, more: Bytes)
    ensures forall pos: nat {:trigger ReadFunctionMetadata(data, pos)} :: pos <= |data| ==>
              Stays(ReadFunctionMetadata(data, pos), ReadFunctionMetadata(data + more, pos), pos, data)
              && (ReadFunctionMetadata(data, pos).Ok? ==> FitsMethod(ReadFunctionMetadata(data, pos).value.0))
    ensures forall pos: nat {:trigger ReadClassMetadata(data, pos)} :: pos <= |data| ==>
              Stays(ReadClassMetadata(data, pos), ReadClassMetadata(data + more, pos), pos, data)
              && (ReadClassMetadata(data, pos).Ok? ==>
                    FitsOptional(ReadClassMetadata(data, pos).value.0, FitsClassMetadata))
  {
    hide String, Flag, Strings, FitsString, FitsStrings, ReadFunctionMetadata, FitsMethod;
    LeavesStay(data, more);
    ListsStay(data, more);
    FunctionMetadataStays(data, more);
  }

  // ----- the parts of a chunk

  lemma VariantStays(data: Bytes, more: Bytes)
    ensures Firm(ReadVariant, FitsVariant, data, more)
  {
    hide String, Flag, Word, FitsString, ReadArg, FitsArg, Room;
    Rooms();
    LeavesStay(data, more);
    forall pos: nat | pos <= |data|
      ensures Stays(ReadArg(data, pos), ReadArg(data + more, pos), pos, data)
      ensures ReadArg(data, pos).Ok? ==> FitsArg(ReadArg(data, pos).value.0)
    {
      ArgStays(data, more, pos);
    }
  }

  lemma CompositesStay(data: Bytes, more: Bytes, pos: nat)
    requires pos <= |data|
    ensures Stays(ReadTarget(data, pos), ReadTarget(data + more, pos), pos, data)
    ensures ReadTarget(data, pos).Ok? ==> FitsConstant(ReadTarget(data, pos).value.0)
    ensures Stays(ReadEnum(data, pos), ReadEnum(data + more, pos), pos, data)
    ensures ReadEnum(data, pos).Ok? ==> FitsConstant(ReadEnum(data, pos).value.0)
    ensures Stays(ReadClassRef(data, pos), ReadClassRef(data + more, pos), pos, data)
    ensures ReadClassRef(data, pos).Ok? ==> FitsConstant(ReadClassRef(data, pos).value.0)
  {
    hide String, Long, Strings, FitsString, FitsStrings, ReadDecorators, FitsDecorators, ReadDecoratorMap,
        FitsDecoratorMap,
         ReadFunctionMetadata, ReadClassMetadata, FitsFunctionMetadata, FitsClassMetadata, ReadList, ReadTable, FitsMap,
         ReadVariant, FitsVariant, Room, FitsScalar;
    Rooms();
    LeavesStay(data, more);
    ListsStay(data, more);
    DecoratorsStay(data, more);
    MetadataStays(data, more);
    VariantStays(data, more);
    ListStays(ReadVariant, FitsVariant, 2, data, more);
    TablesStay(data, more);
  }

  lemma ConstantStays(data: Bytes, more: Bytes)
    ensures Firm(ReadConstant, FitsConstant, data, more)
  {
    hide String, Word, Text, FitsString, ReadTarget, ReadEnum, ReadClassRef, ReadScalar, FitsScalar, Room, FitsConstant;
    forall pos: nat | pos <= |data|
      ensures Stays(ReadConstant(data, pos), ReadConstant(data + more, pos), pos, data)
      ensures ReadConstant(data, pos).Ok? ==> FitsConstant(ReadConstant(data, pos).value.0)
    {
      Rooms();
      LeavesStay(data, more);
      var t := Word(data, pos, 1);
      if t.Ok? {
        var tag, next := t.value.0, t.value.1;
        CompositesStay(data, more, next);
        ScalarStays(tag, data, more, next);
        TextStays(data, more, next, 4);
        ConstantFits();
      }
    }
  }

  /** Which of the simple constants fit. */
  lemma ConstantFits()
    ensures forall s :: FitsScalar(s) ==> FitsConstant(Literal(s))
    ensures forall name :: FitsString(name) ==> FitsConstant(TypeName(name))
    ensures forall b :: FitsText(b) ==> FitsConstant(Binary(b))
    ensures FitsConstant(EmptyDict) && FitsConstant(EmptyList) && FitsConstant(EmptySet) && FitsConstant(Pending)
  {}

  lemma InstructionStays(data: Bytes, more: Bytes)
    ensures Firm(ReadInstruction, FitsInstruction, data, more)
  {
    hide Word, Longs, FitsLongs, Room;
    Rooms();
    LeavesStay(data, more);
    ListsStay(data, more);
  }

  lemma LowerFits(ss: Names)
    requires FitsStrings(ss)
    ensures FitsStrings(LowerAll(ss))
  {
    forall s | s in LowerAll(ss) ensures FitsString(s) {
      var i :| 0 <= i < |ss| && LowerAll(ss)[i] == s;
      assert ss[i] in ss;
    }
  }

  lemma LowerTwice(ss: Names)
    ensures LowerAll(LowerAll(ss)) == LowerAll(ss)
  {
    forall i | 0 <= i < |ss| ensures Lower(Lower(ss[i])) == Lower(ss[i]) {}
  }

  /** It fits, and comes back as itself. */
  predicate SettledFunction(f: FunctionInfo) { FitsFunction(f) && FunctionRead(f) == f }

  predicate SettledClass(c: ClassInfo) { FitsClass(c) && ClashFreeClass(c) && ClassRead(c) == c }

  predicate SettledInterface(i: InterfaceInfo) { FitsInterface(i) && InterfaceRead(i) == i }

  predicate Settled(c: Chunk) { FitsChunk(c) && ClashFree(c) && ChunkRead(c) == c }

  lemma FunctionStays(data: Bytes, more: Bytes)
    ensures Firm(ReadFunction, SettledFunction, data, more)
  {
    hide String, Long, Flag, Strings, Longs, FitsString, FitsStrings, FitsLongs, ReadDecorators, FitsDecorators,
         ReadDecoratorLists, FitsDecoratorLists, LowerAll;
    LeavesStay(data, more);
    ListsStay(data, more);
    DecoratorsStay(data, more);
    forall ss | FitsStrings(ss) ensures FitsStrings(LowerAll(ss)) && LowerAll(LowerAll(ss)) == LowerAll(ss) {
      LowerFits(ss);
      LowerTwice(ss);
    }
  }

  lemma FieldStays(data: Bytes, more: Bytes)
    ensures Firm(ReadField, FitsField, data, more)
  {
    hide String, Long, FitsString;
    LeavesStay(data, more);
  }

  lemma ClassHeadStays(data: Bytes, more: Bytes, pos: nat)
    requires pos <= |data|
    ensures Stays(ReadClassHead(data, pos), ReadClassHead(data + more, pos), pos, data)
    ensures ReadClassHead(data, pos).Ok? ==> FitsClassHead(ReadClassHead(data, pos).value.0)
  {
    hide String, Long, Strings, FitsString, FitsStrings, ReadList, Room, ReadField, FitsField;
    Rooms();
    LeavesStay(data, more);
    ListsStay(data, more);
    FieldStays(data, more);
    ListStays(ReadField, FitsField, 2, data, more);
  }

  predicate LowKeys<V>(m: map<Bytes, V>) { forall k :: k in m ==> Lower(k) == k }

  predicate LowEntry<V>(e: (Bytes, V)) { Lower(e.0) == e.0 }

  lemma LowTablesStay(data: Bytes, more: Bytes)
    ensures forall pos: nat {:trigger ReadTable(LowerNamedLongs, data, pos)} :: pos <= |data| ==>
              ReadTable(LowerNamedLongs, data, pos).Ok? ==> LowKeys(ReadTable(LowerNamedLongs, data, pos).value.0)
  {
    hide String, Longs, FitsLongs, ReadList, Inserted;
    LeavesStay(data, more);
    ListsStay(data, more);
    assert Firm(LowerNamedLongs, LowEntry, data, more);
    ListStays(LowerNamedLongs, LowEntry, 2, data, more);
    forall pos: nat | pos <= |data| && ReadTable(LowerNamedLongs, data, pos).Ok?
      ensures LowKeys(ReadTable(LowerNamedLongs, data, pos).value.0)
    {
      var es := ReadList(LowerNamedLongs, 2, data, pos).value.0;
      InsertedIs(es);
      forall k | k in Inserted(es) ensures Lower(k) == k { assert LowEntry((k, Inserted(es)[k])); }
    }
  }

  lemma LowStays<V>(m: map<Bytes, V>)
    requires LowKeys(m)
    ensures Distinct(m) && LowerKeys(m) == m
  {
    hide Lower;
    assert Distinct(m);
    forall k ensures k in LowerKeys(m) <==> k in m { if k in m { assert Lower(k) == k; } }
  }

  lemma ClassTablesStay(data: Bytes, more: Bytes, pos: nat)
    requires pos <= |data|
    ensures Stays(ReadClassTables(data, pos), ReadClassTables(data + more, pos), pos, data)
    ensures
      var r := ReadClassTables(data, pos);
      r.Ok? ==> FitsClassTables(r.value.0) && LowKeys(r.value.0.methods) && LowKeys(r.value.0.staticMethods)
  {
    hide Long, Longs, FitsLongs, ReadTable, FitsMap, LowKeys;
    LowTablesStay(data, more);
    LeavesStay(data, more);
    ListsStay(data, more);
    TablesStay(data, more);
  }

  lemma ClassStays(data: Bytes, more: Bytes)
    ensures Firm(ReadClass, SettledClass, data, more)
  {
    hide ReadClassHead, ReadClassTables, Flag, Long, Strings, FitsStrings, ReadDecorators, FitsDecorators,
        ReadDecoratorMap,
         FitsDecoratorMap, ReadDecoratorLists, FitsDecoratorLists, FitsClassHead, FitsClassTables, Rows, LowKeys,
             LowerKeys, Distinct;
    forall pos: nat | pos <= |data|
      ensures Stays(ReadClass(data, pos), ReadClass(data + more, pos), pos, data)
      ensures ReadClass(data, pos).Ok? ==> SettledClass(ReadClass(data, pos).value.0)
    {
      LeavesStay(data, more);
      ListsStay(data, more);
      DecoratorsStay(data, more);
      ClassHeadStays(data, more, pos);
      var h := ReadClassHead(data, pos);
      if h.Ok? { ClassTablesStay(data, more, h.value.1); }
      var c := ReadClass(data, pos);
      if c.Ok? {
        RowsBack(c.value.0, h.value.0.rows);
        LowStays(c.value.0.methods);
        LowStays(c.value.0.staticMethods);
      }
    }
  }

  lemma RowsBack(c: ClassInfo, rows: seq<Field>)
    requires c.fieldNames == Column(rows, (r: Field) => r.name) && c.fieldTypes == Column(rows, (r: Field) => r.typ)
    requires c.fieldCheckTypes == Column(rows, (r: Field) => r.checkType)
        && c.fieldDocs == Column(rows, (r: Field) => r.doc)
    requires c.fieldDefaults == Column(rows, (r: Field) => r.default_)
    requires c.fieldDefaultFuncs == Column(rows, (r: Field) => r.defaultFunc)
    ensures Rows(c) == rows
  {
    forall i | 0 <= i < |rows| ensures Rows(c)[i] == rows[i] {}
  }

  lemma {:induction false} KeptFits(xs: seq<Option<FunctionMetadata>>)
    requires forall m :: m in xs ==> FitsMethod(m)
    ensures forall m :: m in Kept(xs) ==> FitsFunctionMetadata(m)
    decreases |xs|
  {
    hide FitsFunctionMetadata;
    if xs != [] {
      assert xs[|xs| - 1] in xs;
      KeptFits(xs[..|xs| - 1]);
    }
  }

  lemma InterfaceStays(data: Bytes, more: Bytes)
    ensures Firm(ReadInterface, SettledInterface, data, more)
  {
    hide String, Strings, FitsString, FitsStrings, ReadList, Room, ReadTable, FitsMap, ReadFunctionMetadata, FitsMethod,
         FitsFunctionMetadata, Kept, NamedString, InterfaceRows;
    forall pos: nat | pos <= |data|
      ensures Stays(ReadInterface(data, pos), ReadInterface(data + more, pos), pos, data)
      ensures ReadInterface(data, pos).Ok? ==> SettledInterface(ReadInterface(data, pos).value.0)
    {
      Rooms();
      LeavesStay(data, more);
      ListsStay(data, more);
      TablesStay(data, more);
      FunctionMetadataStays(data, more);
      ListStays(ReadFunctionMetadata, FitsMethod, 2, data, more);
      NamedStringStays(data, more);
      ListStays(NamedString, FitsEntry(FitsString), 2, data, more);
      forall xs: seq<Option<FunctionMetadata>> | forall m :: m in xs ==> FitsMethod(m)
        ensures |Kept(xs)| <= |xs| && forall m :: m in Kept(xs) ==> FitsFunctionMetadata(m)
      {
        KeptFits(xs);
      }
    }
  }

  lemma NamedStringStays(data: Bytes, more: Bytes)
    ensures Firm(NamedString, FitsEntry(FitsString), data, more)
  {
    hide String, FitsString;
    LeavesStay(data, more);
  }

  lemma ExportStays(data: Bytes, more: Bytes)
    ensures Firm(ReadExport, FitsExport, data, more)
  {
    hide String, Long, Longs, FitsString, FitsLongs;
    LeavesStay(data, more);
    ListsStay(data, more);
  }

  lemma EmbedStays(data: Bytes, more: Bytes)
    ensures Firm(ReadEmbed, FitsEmbed, data, more)
  {
    hide String, FitsString, Take;
    LeavesStay(data, more);
    forall pos: nat ensures Stays(ReadHash(data, pos), ReadHash(data + more, pos), pos, data) {
      TakeStays(data, more, pos, 32);
    }
  }

  // ----- the chunk

  predicate FitsChunkHead(h: ChunkHead) { FitsString(h.compiler) && FitsMany(h.globalNames, 0x1_0000_0000, FitsString) }

  lemma ChunkHeadStays(data: Bytes, more: Bytes, pos: nat)
    requires pos <= |data|
    ensures Stays(ReadChunkHead(data, pos), ReadChunkHead(data + more, pos), pos, data)
    ensures ReadChunkHead(data, pos).Ok? ==> FitsChunkHead(ReadChunkHead(data, pos).value.0)
  {
    hide String, Long, Word, FitsString, ReadList, Room, Take;
    Rooms();
    LeavesStay(data, more);
    assert Firm(String, FitsString, data, more);
    ListStays(String, FitsString, 4, data, more);
    forall p: nat, n: nat ensures Stays(Take(data, p, n), Take(data + more, p, n), p, data) {
      TakeStays(data, more, p, n);
    }
  }

  predicate FitsCode(c: Code) {
    && FitsMany(c.constants, 0x1_0000_0000, FitsConstant) && FitsMany(c.instructions, 0x1_0000_0000, FitsInstruction)
    && FitsMany(c.functions, 0x1_0000_0000, SettledFunction) && FitsMany(c.classes, 0x1_0000_0000, SettledClass)
    && FitsMany(c.interfaces, 0x1_0000_0000, SettledInterface)
  }

  lemma CodeStays(data: Bytes, more: Bytes, pos: nat)
    requires pos <= |data|
    ensures Stays(ReadCode(data, pos), ReadCode(data + more, pos), pos, data)
    ensures ReadCode(data, pos).Ok? ==> FitsCode(ReadCode(data, pos).value.0)
  {
    hide ReadList, Room, FitsConstant, FitsInstruction, SettledFunction, SettledClass, SettledInterface, Firm;
    Rooms();
    ConstantStays(data, more);
    ListStays(ReadConstant, FitsConstant, 4, data, more);
    InstructionStays(data, more);
    ListStays(ReadInstruction, FitsInstruction, 4, data, more);
    FunctionStays(data, more);
    ListStays(ReadFunction, SettledFunction, 4, data, more);
    ClassStays(data, more);
    ListStays(ReadClass, SettledClass, 4, data, more);
    InterfaceStays(data, more);
    ListStays(ReadInterface, SettledInterface, 4, data, more);
  }

  lemma ChunkStays(data: Bytes, more: Bytes)
    ensures Stays(ReadChunk(data, 0), ReadChunk(data + more, 0), 0, data)
    ensures ReadChunk(data, 0).Ok? ==> Settled(ReadChunk(data, 0).value.0)
  {
    hide ReadList, ReadTable, Room, FitsConstant, FitsInstruction, FitsFunction, FitsClass, FitsInterface, FitsExport,
         FitsEmbed, FitsMap, FitsString, Firm, ReadChunkHead, ReadCode, Settled, FitsChunk, FitsCode;
    Rooms();
    ChunkHeadStays(data, more, 0);
    var h := ReadChunkHead(data, 0);
    if h.Ok? { CodeStays(data, more, h.value.1); }
    ExportStays(data, more);
    ListStays(ReadExport, FitsExport, 2, data, more);
    EmbedStays(data, more);
    ListStays(ReadEmbed, FitsEmbed, 2, data, more);
    TablesStay(data, more);
    var c := ReadChunk(data, 0);
    if c.Ok? { PartsSettled(c.value.0, h.value.0, ReadCode(data, h.value.1).value.0); }
  }

  lemma PartsSettled(c: Chunk, h: ChunkHead, code: Code)
    requires FitsChunkHead(h) && FitsCode(code)
    requires c.compiler == h.compiler && c.globalNames == h.globalNames
    requires Code(c.constants, c.instructions, c.functions, c.classes, c.interfaces) == code
    requires FitsMany(c.exports, 0x1_0000, FitsExport) && FitsMany(c.embeds, 0x1_0000, FitsEmbed)
    requires FitsMap(c.moduleAliases, FitsString) && FitsMap(c.fromImports, FitsString)
    requires FitsMap(c.typeAliasDeps, FitsString)
    ensures Settled(c)
  {
    hide FitsConstant, FitsInstruction, FitsFunction, FitsClass, FitsInterface, FitsExport, FitsEmbed, FitsMap,
        FitsString,
         FunctionRead, ClassRead, InterfaceRead, ClashFreeClass;
    assert c.functions == code.functions && c.classes == code.classes && c.interfaces == code.interfaces;
    forall i | 0 <= i < |c.functions|
        ensures FitsFunction(c.functions[i]) && FunctionRead(c.functions[i]) == c.functions[i] {
      assert SettledFunction(c.functions[i]);
    }
    forall i | 0 <= i < |c.classes| ensures SettledClass(c.classes[i]) {}
    assert ClashFree(c);
    forall i | 0 <= i < |c.classes| ensures FitsClass(c.classes[i]) && ClassRead(c.classes[i]) == c.classes[i] {}
    forall i | 0 <= i < |c.interfaces|
      ensures FitsInterface(c.interfaces[i]) && InterfaceRead(c.interfaces[i]) == c.interfaces[i]
    {
      assert SettledInterface(c.interfaces[i]);
    }
    var r := ChunkRead(c);
    assert r.functions == c.functions && r.classes == c.classes && r.interfaces == c.interfaces;
  }
}
