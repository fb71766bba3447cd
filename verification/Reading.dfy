/** The parser as it runs: a reader with a position and one failure, which is for good. */
module Reading {
  import opened Wire
  import opened Records
  import opened Parsing

  class ByteReader {
    const data: Bytes
    var pos: nat
    /** Once something has gone wrong, nothing more is read. */
    var failed: bool

    constructor (b: Bytes)
      ensures data == b && pos == 0 && !failed
    {
      data, pos, failed := b, 0, false;
    }

    /** The reader has come upon x as the parser does, or has failed. */
    twostate predicate Went<T>(new found: Found<T>, new x: T)
      reads this
    {
      if old(failed) || found.Bad? then failed else !failed && x == found.value.0 && pos == found.value.1
    }

    /** The first items of a list that starts at `start`; `sunk`: the reader had failed before. */
    ghost predicate SoFar<T>(found: Found<seq<T>>, sunk: bool, xs: seq<T>)
      reads this
    {
      if sunk || found.Bad? then failed else !failed && xs == found.value.0 && pos == found.value.1
    }

    // ----- numbers and texts

    method Read(n: nat) returns (b: Bytes)
      modifies this`pos, this`failed
      ensures Went(Take(data, old(pos), n), b) && (failed ==> b == []) && pos >= old(pos)
    {
      if failed { return []; }
      if pos + n > |data| {
        failed := true;
        return [];
      }
      b := data[pos..pos + n];
      pos := pos + n;
    }

    method NextWord(width: nat) returns (n: nat)
      modifies this`pos, this`failed
      ensures Went(Word(data, old(pos), width), n) && (failed ==> n == 0) && pos >= old(pos)
    {
      hide Get;
      var b := Read(width);
      n := if failed then 0 else Get(b);
    }

    method NextOctet() returns (n: Byte)
      modifies this`pos, this`failed
      ensures Went(Octet(data, old(pos)), n)
    {
      hide Word;
      Limits(data, pos);
      var w := NextWord(1);
      n := if failed then 0 else w;
    }

    method NextShort() returns (n: Word16)
      modifies this`pos, this`failed
      ensures Went(Short(data, old(pos)), n)
    {
      hide Word;
      Limits(data, pos);
      var w := NextWord(2);
      n := if failed then 0 else w;
    }

    method NextLong() returns (n: Int64)
      modifies this`pos, this`failed
      ensures Went(Long(data, old(pos)), n) && pos >= old(pos)
    {
      hide Get;
      var b := Read(8);
      if failed { return 0; }
      SignedRange(b);
      n := Signed(Get(b));
    }

    method NextFlag() returns (b: bool)
      modifies this`pos, this`failed
      ensures Went(Flag(data, old(pos)), b) && pos >= old(pos)
    {
      hide Word;
      var n := NextWord(1);
      b := n != 0;
    }

    method NextText(width: nat) returns (s: Bytes)
      modifies this`pos, this`failed
      ensures Went(Text(data, old(pos), width), s) && pos >= old(pos)
    {
      hide Word, Take;
      var n := NextWord(width);
      s := Read(n);
    }

    method NextString() returns (s: Bytes)
      modifies this`pos, this`failed
      ensures Went(String(data, old(pos)), s)
    {
      s := NextText(2);
    }

    method NextNames(width: nat) returns (ss: Names)
      modifies this`pos, this`failed
      ensures Went(ReadList(String, width, data, old(pos)), ss)
    {
      hide Word, String;
      var n := NextWord(width);
      ghost var start, sunk := pos, failed;
      ss := [];
      for i := 0 to n
        invariant SoFar(ReadAll(String, data, start, i), sunk, ss)
      {
        var s := NextString();
        ss := ss + [s];
      }
    }

    method NextStrings() returns (ss: Names)
      modifies this`pos, this`failed
      ensures Went(Strings(data, old(pos)), ss)
    {
      ss := NextNames(2);
    }

    method NextLongs() returns (ns: seq<Int64>)
      modifies this`pos, this`failed
      ensures Went(Longs(data, old(pos)), ns)
    {
      hide Word, Long;
      var n := NextWord(2);
      ghost var start, sunk := pos, failed;
      ns := [];
      for i := 0 to n
        invariant SoFar(ReadAll(Long, data, start, i), sunk, ns)
      {
        var x := NextLong();
        ns := ns + [x];
      }
    }

    // ----- tables

    method NextLongTable() returns (m: map<Bytes, Int64>)
      modifies this`pos, this`failed
      ensures Went(ReadTable(NamedLong, data, old(pos)), m)
    {
      hide Word, String, Long, Inserted;
      var n := NextWord(2);
      ghost var start, sunk, es := pos, failed, [];
      m := map[];
      Nothing<Int64>();
      for i := 0 to n
        invariant SoFar(ReadAll(NamedLong, data, start, i), sunk, es) && m == Inserted(es)
      {
        var name := NextString();
        var x := NextLong();
        InsertedStep(es, (name, x));
        es := es + [(name, x)];
        m := m[name := x];
      }
    }

    method NextLongsTable() returns (m: map<Bytes, seq<Int64>>)
      modifies this`pos, this`failed
      ensures Went(ReadTable(NamedLongs, data, old(pos)), m)
    {
      hide Word, String, Longs, Inserted;
      var n := NextWord(2);
      ghost var start, sunk, es := pos, failed, [];
      m := map[];
      Nothing<seq<Int64>>();
      for i := 0 to n
        invariant SoFar(ReadAll(NamedLongs, data, start, i), sunk, es) && m == Inserted(es)
      {
        var name := NextString();
        var x := NextLongs();
        InsertedStep(es, (name, x));
        es := es + [(name, x)];
        m := m[name := x];
      }
    }

    method NextLowerTable() returns (m: map<Bytes, seq<Int64>>)
      modifies this`pos, this`failed
      ensures Went(ReadTable(LowerNamedLongs, data, old(pos)), m)
    {
      hide Word, String, Longs, Lower, Inserted;
      var n := NextWord(2);
      ghost var start, sunk, es := pos, failed, [];
      m := map[];
      Nothing<seq<Int64>>();
      for i := 0 to n
        invariant SoFar(ReadAll(LowerNamedLongs, data, start, i), sunk, es) && m == Inserted(es)
      {
        var name := NextString();
        var x := NextLongs();
        InsertedStep(es, (Lower(name), x));
        es := es + [(Lower(name), x)];
        m := m[Lower(name) := x];
      }
    }

    method NextStringTable() returns (m: map<Bytes, Bytes>)
      modifies this`pos, this`failed
      ensures Went(ReadTable(NamedString, data, old(pos)), m)
    {
      hide Word, String, Inserted;
      var n := NextWord(2);
      ghost var start, sunk, es := pos, failed, [];
      m := map[];
      Nothing<Bytes>();
      for i := 0 to n
        invariant SoFar(ReadAll(NamedString, data, start, i), sunk, es) && m == Inserted(es)
      {
        var name := NextString();
        var x := NextString();
        InsertedStep(es, (name, x));
        es := es + [(name, x)];
        m := m[name := x];
      }
    }

    method NextNamedString() returns (e: (Bytes, Bytes))
      modifies this`pos, this`failed
      ensures Went(NamedString(data, old(pos)), e)
    {
      hide String;
      var name := NextString();
      var s := NextString();
      e := (name, s);
    }

    // ----- decorators

    method NextScalar(tag: nat) returns (s: Scalar)
      modifies this`pos, this`failed
      ensures Went(ReadScalar(tag, data, old(pos)), s) && pos >= old(pos)
    {
      hide Flag, Text, Long, ParseInt, Printed;
      s := Null;
      match tag
      case 0 =>
      case 1 =>
        var b := NextFlag();
        s := Bool(b);
      case 2 =>
        var text := NextText(4);
        var n := ParseInt(text);
        if n.Bad? || |Printed(n.value)| >= 0x1_0000_0000 {
          failed := true;
        } else {
          s := Int(n.value);
        }
      case 3 =>
        var text := NextText(4);
        s := Str(text);
      case 4 =>
        var text := NextText(4);
        s := Decimal(text);
      case 5 =>
        var bits := NextLong();
        s := Float(bits);
      case _ =>
        failed := true;
    }

    method NextArg() returns (a: Arg)
      modifies this`pos, this`failed
      ensures Went(ReadArg(data, old(pos)), a) && pos >= old(pos)
      decreases Left(data, pos), 0, 0
    {
      hide Word, ReadScalar, ReadArgs, ReadPairs;
      OneOn(data, pos);
      var tag := NextWord(1);
      match tag
      case 7 =>
        var n := NextWord(2);
        var items := NextArgs(n);
        a := List(items);
      case 8 =>
        var n := NextWord(2);
        var entries := NextPairs(n);
        a := Dict(entries);
      case 9 =>
        var n := NextWord(2);
        var items := NextArgs(n);
        a := Set(items);
      case _ =>
        var s := NextScalar(tag);
        a := Simple(s);
    }

    method NextArgs(n: nat) returns (args: seq<Arg>)
      modifies this`pos, this`failed
      ensures Went(ReadArgs(data, old(pos), n), args) && pos >= old(pos)
      decreases Left(data, pos), 1, n
    {
      hide ReadArg;
      ghost var start, sunk := pos, failed;
      args := [];
      for i := 0 to n
        invariant SoFar(ReadArgs(data, start, i), sunk, args) && pos >= start
      {
        var a := NextArg();
        args := args + [a];
      }
    }

    method NextPairs(n: nat) returns (entries: seq<Pair>)
      modifies this`pos, this`failed
      ensures Went(ReadPairs(data, old(pos), n), entries) && pos >= old(pos)
      decreases Left(data, pos), 1, n
    {
      hide ReadArg;
      ghost var start, sunk := pos, failed;
      entries := [];
      for i := 0 to n
        invariant SoFar(ReadPairs(data, start, i), sunk, entries) && pos >= start
      {
        var key := NextArg();
        var value := NextArg();
        entries := entries + [Pair(key, value)];
      }
    }

    method NextNamedArgs() returns (m: map<Bytes, Arg>)
      modifies this`pos, this`failed
      ensures Went(ReadTable(ReadNamedArg, data, old(pos)), m)
    {
      hide Word, String, ReadArg, Inserted;
      var n := NextWord(2);
      ghost var start, sunk, es := pos, failed, [];
      m := map[];
      Nothing<Arg>();
      for i := 0 to n
        invariant SoFar(ReadAll(ReadNamedArg, data, start, i), sunk, es) && m == Inserted(es)
      {
        var name := NextString();
        var x := NextArg();
        InsertedStep(es, (name, x));
        es := es + [(name, x)];
        m := m[name := x];
      }
    }

    method NextDecorator() returns (d: Decorator)
      modifies this`pos, this`failed
      ensures Went(ReadDecorator(data, old(pos)), d)
    {
      hide String, Long, Word, ReadArgs, ReadTable;
      var name := NextString();
      var target := NextString();
      var position := NextLong();
      var overload := NextLong();
      var line := NextLong();
      var column := NextLong();
      var n := NextWord(2);
      var args := NextArgs(n);
      var namedArgs := NextNamedArgs();
      d := Decorator(name, target, position, overload, args, namedArgs, line, column);
    }

    method NextDecorators() returns (ds: seq<Decorator>)
      modifies this`pos, this`failed
      ensures Went(ReadDecorators(data, old(pos)), ds)
    {
      hide Word, ReadDecorator;
      var n := NextWord(2);
      ghost var start, sunk := pos, failed;
      ds := [];
      for i := 0 to n
        invariant SoFar(ReadAll(ReadDecorator, data, start, i), sunk, ds)
      {
        var x := NextDecorator();
        ds := ds + [x];
      }
    }

    method NextDecoratorLists() returns (lists: seq<Decorators>)
      modifies this`pos, this`failed
      ensures Went(ReadDecoratorLists(data, old(pos)), lists)
    {
      hide Word, ReadDecorators;
      var n := NextWord(2);
      ghost var start, sunk := pos, failed;
      lists := [];
      for i := 0 to n
        invariant SoFar(ReadAll(ReadDecorators, data, start, i), sunk, lists)
      {
        var x := NextDecorators();
        lists := lists + [x];
      }
    }

    method NextDecoratorMap() returns (m: map<Bytes, Decorators>)
      modifies this`pos, this`failed
      ensures Went(ReadDecoratorMap(data, old(pos)), m)
    {
      hide Word, String, ReadDecorators, Inserted;
      var n := NextWord(2);
      ghost var start, sunk, es := pos, failed, [];
      m := map[];
      Nothing<Decorators>();
      for i := 0 to n
        invariant SoFar(ReadAll(ReadNamedDecorators, data, start, i), sunk, es) && m == Inserted(es)
      {
        var name := NextString();
        var x := NextDecorators();
        InsertedStep(es, (name, x));
        es := es + [(name, x)];
        m := m[name := x];
      }
    }

    // ----- metadata

    method NextParameter() returns (p: Parameter)
      modifies this`pos, this`failed
      ensures Went(ReadParameter(data, old(pos)), p)
    {
      hide String, Flag, ReadDecorators;
      var name := NextString();
      var typ := NextString();
      var variadic := NextFlag();
      var hasDefault := NextFlag();
      var decorators := NextDecorators();
      p := Parameter(name, typ, variadic, hasDefault, decorators);
    }

    method NextParameters() returns (ps: seq<Parameter>)
      modifies this`pos, this`failed
      ensures Went(ReadList(ReadParameter, 2, data, old(pos)), ps)
    {
      hide Word, ReadParameter;
      var n := NextWord(2);
      ghost var start, sunk := pos, failed;
      ps := [];
      for i := 0 to n
        invariant SoFar(ReadAll(ReadParameter, data, start, i), sunk, ps)
      {
        var x := NextParameter();
        ps := ps + [x];
      }
    }

    method NextFunctionMetadata() returns (m: Option<FunctionMetadata>)
      modifies this`pos, this`failed
      ensures Went(ReadFunctionMetadata(data, old(pos)), m)
    {
      hide Flag, String, Strings, ReadList, ReadDecorators;
      var present := NextFlag();
      m := Option.None;
      if failed || !present { return; }
      var name := NextString();
      var target := NextString();
      var doc := NextString();
      var returnType := NextString();
      var typeParameters := NextStrings();
      var async := NextFlag();
      var variadic := NextFlag();
      var parameters := NextParameters();
      var decorators := NextDecorators();
      m := Option.Some(
        FunctionMetadata(name, target, doc, typeParameters, parameters, returnType, async, variadic, decorators));
    }

    method NextClassMetadata() returns (m: Option<ClassMetadata>)
      modifies this`pos, this`failed
      ensures Went(ReadClassMetadata(data, old(pos)), m)
    {
      hide Flag, String, Strings;
      var present := NextFlag();
      m := Option.None;
      if failed || !present { return; }
      var name := NextString();
      var doc := NextString();
      var parent := NextString();
      var fields := NextStrings();
      var methods := NextStrings();
      var staticMethods := NextStrings();
      var interfaces := NextStrings();
      m := Option.Some(ClassMetadata(name, doc, parent, fields, methods, staticMethods, interfaces));
    }

    // ----- the parts of a chunk

    method NextVariant() returns (v: Variant)
      modifies this`pos, this`failed
      ensures Went(ReadVariant(data, old(pos)), v)
    {
      hide Flag, Word, String, ReadArg;
      var name := NextString();
      var fieldCount := NextWord(2);
      var backed := NextFlag();
      v := Variant(name, fieldCount, Option.None);
      if failed || !backed { return; }
      var backing := NextArg();
      v := Variant(name, fieldCount, Option.Some(backing));
    }

    method NextVariants() returns (vs: seq<Variant>)
      modifies this`pos, this`failed
      ensures Went(ReadList(ReadVariant, 2, data, old(pos)), vs)
    {
      hide Word, ReadVariant;
      var n := NextWord(2);
      ghost var start, sunk := pos, failed;
      vs := [];
      for i := 0 to n
        invariant SoFar(ReadAll(ReadVariant, data, start, i), sunk, vs)
      {
        var x := NextVariant();
        vs := vs + [x];
      }
    }

    method NextTarget() returns (c: Constant)
      modifies this`pos, this`failed
      ensures Went(ReadTarget(data, old(pos)), c)
    {
      hide String, ReadFunctionMetadata, ReadClassMetadata, ReadDecorators;
      var target := NextString();
      var function_ := NextFunctionMetadata();
      var class_ := NextClassMetadata();
      var decorators := NextDecorators();
      c := Target(target, function_, class_, decorators);
    }

    method NextEnum() returns (c: Constant)
      modifies this`pos, this`failed
      ensures Went(ReadEnum(data, old(pos)), c)
    {
      hide String, ReadList, Strings, ReadTable;
      var name := NextString();
      var home := NextString();
      var backingType := NextString();
      var variants := NextVariants();
      var implements := NextStrings();
      var methodIndices := NextLongsTable();
      c := Enum(name, home, backingType, variants, implements, methodIndices);
    }

    method NextClassRef() returns (c: Constant)
      modifies this`pos, this`failed
      ensures Went(ReadClassRef(data, old(pos)), c)
    {
      hide String, Long, ReadDecorators, ReadDecoratorMap;
      var name := NextString();
      var doc := NextString();
      var index := NextLong();
      var decorators := NextDecorators();
      var methodDecorators := NextDecoratorMap();
      var staticDecorators := NextDecoratorMap();
      c := ClassRef(name, doc, index, decorators, methodDecorators, staticDecorators);
    }

    method NextConstant() returns (c: Constant)
      modifies this`pos, this`failed
      ensures Went(ReadConstant(data, old(pos)), c)
    {
      hide Word, String, Text, ReadScalar, ReadTarget, ReadEnum, ReadClassRef;
      var tag := NextWord(1);
      c := Pending;
      match tag
      case 6 => c := NextTarget();
      case 7 => c := NextEnum();
      case 8 =>
        var name := NextString();
        c := TypeName(name);
      case 9 => c := NextClassRef();
      case 10 => c := EmptyDict;
      case 11 => c := EmptyList;
      case 12 => c := EmptySet;
      case 13 =>
        var bytes := NextText(4);
        c := Binary(bytes);
      case 14 =>
      case _ =>
        var s := NextScalar(tag);
        c := Literal(s);
    }

    /** The methods that are there. */
    method NextMethods() returns (ms: seq<FunctionMetadata>, ghost all: seq<Option<FunctionMetadata>>)
      modifies this`pos, this`failed
      ensures Went(ReadList(ReadFunctionMetadata, 2, data, old(pos)), all) && ms == Kept(all)
    {
      hide Word, ReadFunctionMetadata;
      var n := NextWord(2);
      ghost var start, sunk := pos, failed;
      ms, all := [], [];
      for i := 0 to n
        invariant SoFar(ReadAll(ReadFunctionMetadata, data, start, i), sunk, all) && ms == Kept(all)
      {
        var m := NextFunctionMetadata();
        if m.Some? { ms := ms + [m.value]; }
        ghost var more := all + [m];
        assert more[..|more| - 1] == all;
        all := more;
      }
    }

    method NextHash() returns (h: Hash)
      modifies this`pos, this`failed
      ensures Went(ReadHash(data, old(pos)), h)
    {
      var b := Read(32);
      h := if failed then seq(32, _ => 0) else b;
    }

    method NextChunkHead() returns (h: ChunkHead)
      modifies this`pos, this`failed
      ensures Went(ReadChunkHead(data, old(pos)), h)
    {
      hide Take, Word, String, Long, ReadHash, ReadList;
      var magic := Read(|MAGIC|);
      if magic != MAGIC { failed := true; }
      var version := NextWord(2);
      if version != VERSION { failed := true; }
      var sourceHash := NextHash();
      var compiler := NextString();
      var topLevelLocalCount := NextLong();
      var globalCount := NextLong();
      var globalNames := NextNames(4);
      h := ChunkHead(sourceHash, compiler, topLevelLocalCount, globalCount, globalNames);
    }

    method NextConstants() returns (cs: seq<Constant>)
      modifies this`pos, this`failed
      ensures Went(ReadList(ReadConstant, 4, data, old(pos)), cs)
    {
      hide Word, ReadConstant;
      var n := NextWord(4);
      ghost var start, sunk := pos, failed;
      cs := [];
      for i := 0 to n
        invariant SoFar(ReadAll(ReadConstant, data, start, i), sunk, cs)
      {
        var x := NextConstant();
        cs := cs + [x];
      }
    }

    method NextInstruction() returns (i: Instruction)
      modifies this`pos, this`failed
      ensures Went(ReadInstruction(data, old(pos)), i)
    {
      hide Octet, Word, Short, Longs;
      var op := NextOctet();
      var line := NextWord(2);
      var column := NextShort();
      var operands := NextLongs();
      i := Instruction(op, line, column, operands);
    }

    method NextInstructions() returns (code: seq<Instruction>)
      modifies this`pos, this`failed
      ensures Went(ReadList(ReadInstruction, 4, data, old(pos)), code)
    {
      hide Word, ReadInstruction;
      var n := NextWord(4);
      ghost var start, sunk := pos, failed;
      code := [];
      for i := 0 to n
        invariant SoFar(ReadAll(ReadInstruction, data, start, i), sunk, code)
      {
        var x := NextInstruction();
        code := code + [x];
      }
    }

    method NextFunction() returns (f: FunctionInfo)
      modifies this`pos, this`failed
      ensures Went(ReadFunction(data, old(pos)), f)
    {
      hide String, Strings, Long, Longs, ReadDecoratorLists, Flag, ReadDecorators;
      var name := NextString();
      var doc := NextString();
      var typeParameters := NextStrings();
      var typeParamConstraintExprs := NextStrings();
      var entry := NextLong();
      var paramNames := NextStrings();
      var paramDisplayNames := NextStrings();
      var paramSlots := NextLongs();
      var paramTypes := NextStrings();
      var paramDisplayTypes := NextStrings();
      var paramDecorators := NextDecoratorLists();
      var returnType := NextString();
      var returnCheckType := NextString();
      var defaultConstants := NextLongs();
      var upvalueCount := NextLong();
      var localCount := NextLong();
      var variadic := NextFlag();
      var async := NextFlag();
      var isGenerator := NextFlag();
      var sharesParentFrame := NextFlag();
      var defLine := NextLong();
      var defColumn := NextLong();
      var decorators := NextDecorators();
      f := FunctionInfo(
          name, doc, typeParameters, typeParamConstraintExprs, entry, LowerAll(paramNames), paramDisplayNames,
          paramSlots, paramTypes, paramDisplayTypes, paramDecorators, returnType, returnCheckType, defaultConstants,
          upvalueCount, localCount, variadic, async, isGenerator, sharesParentFrame, defLine, defColumn, decorators);
    }

    method NextFunctions() returns (fs: seq<FunctionInfo>)
      modifies this`pos, this`failed
      ensures Went(ReadList(ReadFunction, 4, data, old(pos)), fs)
    {
      hide Word, ReadFunction;
      var n := NextWord(4);
      ghost var start, sunk := pos, failed;
      fs := [];
      for i := 0 to n
        invariant SoFar(ReadAll(ReadFunction, data, start, i), sunk, fs)
      {
        var x := NextFunction();
        fs := fs + [x];
      }
    }

    method NextField() returns (f: Field)
      modifies this`pos, this`failed
      ensures Went(ReadField(data, old(pos)), f)
    {
      hide String, Long;
      var name := NextString();
      var default_ := NextLong();
      var defaultFunc := NextLong();
      var typ := NextString();
      var checkType := NextString();
      var doc := NextString();
      f := Field(name, default_, defaultFunc, typ, checkType, doc);
    }

    method NextFields() returns (fs: seq<Field>)
      modifies this`pos, this`failed
      ensures Went(ReadList(ReadField, 2, data, old(pos)), fs)
    {
      hide Word, ReadField;
      var n := NextWord(2);
      ghost var start, sunk := pos, failed;
      fs := [];
      for i := 0 to n
        invariant SoFar(ReadAll(ReadField, data, start, i), sunk, fs)
      {
        var x := NextField();
        fs := fs + [x];
      }
    }

    method NextClassHead() returns (h: ClassHead)
      modifies this`pos, this`failed
      ensures Went(ReadClassHead(data, old(pos)), h)
    {
      hide String, Long, Strings, ReadList;
      var name := NextString();
      var doc := NextString();
      var parentName := NextString();
      var parentIndex := NextLong();
      var parentArguments := NextStrings();
      var typeParameters := NextStrings();
      var typeParamConstraintExprs := NextStrings();
      var rows := NextFields();
      h := ClassHead(name, doc, parentName, parentIndex, parentArguments, typeParameters, typeParamConstraintExprs,
          rows);
    }

    method NextClassTables() returns (t: ClassTables)
      modifies this`pos, this`failed
      ensures Went(ReadClassTables(data, old(pos)), t)
    {
      hide Longs, Long, ReadTable;
      var constructorIndices := NextLongs();
      var destructorIndex := NextLong();
      var methods := NextLowerTable();
      var staticValues := NextLongTable();
      var staticTypes := NextStringTable();
      var staticMethods := NextLowerTable();
      t := ClassTables(constructorIndices, destructorIndex, methods, staticValues, staticTypes, staticMethods);
    }

    method NextClass() returns (c: ClassInfo)
      modifies this`pos, this`failed
      ensures Went(ReadClass(data, old(pos)), c)
    {
      hide ReadClassHead, ReadClassTables, Strings, ReadDecorators, ReadDecoratorMap, ReadDecoratorLists, Flag, Long;
      var h := NextClassHead();
      var t := NextClassTables();
      var implements := NextStrings();
      var decorators := NextDecorators();
      var methodDecorators := NextDecoratorMap();
      var staticDecorators := NextDecoratorMap();
      var fieldDecorators := NextDecoratorLists();
      var immutable_ := NextFlag();
      var immutableFields := NextStrings();
      var defLine := NextLong();
      var defColumn := NextLong();
      c := ClassInfo(
          h.name, h.doc, h.parentIndex, h.parentName, h.parentArguments, h.typeParameters, h.typeParamConstraintExprs,
          Column(h.rows, (r: Field) => r.name), Column(h.rows, (r: Field) => r.typ),
          Column(h.rows, (r: Field) => r.checkType), Column(h.rows, (r: Field) => r.doc), fieldDecorators,
          Column(h.rows, (r: Field) => r.default_), Column(h.rows, (r: Field) => r.defaultFunc),
          t.constructorIndices, t.destructorIndex, t.methods, t.staticValues, t.staticTypes, t.staticMethods,
          implements, decorators, methodDecorators, staticDecorators, immutable_, immutableFields, defLine, defColumn);
    }

    method NextClasses() returns (cs: seq<ClassInfo>)
      modifies this`pos, this`failed
      ensures Went(ReadList(ReadClass, 4, data, old(pos)), cs)
    {
      hide Word, ReadClass;
      var n := NextWord(4);
      ghost var start, sunk := pos, failed;
      cs := [];
      for i := 0 to n
        invariant SoFar(ReadAll(ReadClass, data, start, i), sunk, cs)
      {
        var x := NextClass();
        cs := cs + [x];
      }
    }

    method NextInterfaceFields() returns (rows: seq<(Bytes, Bytes)>)
      modifies this`pos, this`failed
      ensures Went(ReadList(NamedString, 2, data, old(pos)), rows)
    {
      hide Word, NamedString;
      var n := NextWord(2);
      ghost var start, sunk := pos, failed;
      rows := [];
      for i := 0 to n
        invariant SoFar(ReadAll(NamedString, data, start, i), sunk, rows)
      {
        var x := NextNamedString();
        rows := rows + [x];
      }
    }

    method NextInterface() returns (i: InterfaceInfo)
      modifies this`pos, this`failed
      ensures Went(ReadInterface(data, old(pos)), i)
    {
      hide String, Strings, ReadList, ReadTable;
      var name := NextString();
      var doc := NextString();
      var typeParameters := NextStrings();
      var parents := NextStrings();
      var methods, all := NextMethods();
      var defaults := NextLongTable();
      var rows := NextInterfaceFields();
      i := InterfaceOf(name, doc, typeParameters, parents, methods, defaults, rows);
    }

    method NextInterfaces() returns (faces: seq<InterfaceInfo>)
      modifies this`pos, this`failed
      ensures Went(ReadList(ReadInterface, 4, data, old(pos)), faces)
    {
      hide Word, ReadInterface;
      var n := NextWord(4);
      ghost var start, sunk := pos, failed;
      faces := [];
      for i := 0 to n
        invariant SoFar(ReadAll(ReadInterface, data, start, i), sunk, faces)
      {
        var x := NextInterface();
        faces := faces + [x];
      }
    }

    method NextExport() returns (e: Export)
      modifies this`pos, this`failed
      ensures Went(ReadExport(data, old(pos)), e)
    {
      hide String, Long, Longs;
      var name := NextString();
      var slot := NextLong();
      var functionIndex := NextLong();
      var classIndex := NextLong();
      var interfaceIndex := NextLong();
      var overloadIndices := NextLongs();
      e := Export(name, slot, functionIndex, classIndex, interfaceIndex, overloadIndices);
    }

    method NextExports() returns (es: seq<Export>)
      modifies this`pos, this`failed
      ensures Went(ReadList(ReadExport, 2, data, old(pos)), es)
    {
      hide Word, ReadExport;
      var n := NextWord(2);
      ghost var start, sunk := pos, failed;
      es := [];
      for i := 0 to n
        invariant SoFar(ReadAll(ReadExport, data, start, i), sunk, es)
      {
        var x := NextExport();
        es := es + [x];
      }
    }

    method NextEmbed() returns (e: Embed)
      modifies this`pos, this`failed
      ensures Went(ReadEmbed(data, old(pos)), e)
    {
      hide String, ReadHash;
      var path := NextString();
      var hash := NextHash();
      e := Embed(path, hash);
    }

    method NextEmbeds() returns (es: seq<Embed>)
      modifies this`pos, this`failed
      ensures Went(ReadList(ReadEmbed, 2, data, old(pos)), es)
    {
      hide Word, ReadEmbed;
      var n := NextWord(2);
      ghost var start, sunk := pos, failed;
      es := [];
      for i := 0 to n
        invariant SoFar(ReadAll(ReadEmbed, data, start, i), sunk, es)
      {
        var x := NextEmbed();
        es := es + [x];
      }
    }

    method NextCode() returns (c: Code)
      modifies this`pos, this`failed
      ensures Went(ReadCode(data, old(pos)), c)
    {
      hide ReadList;
      var constants := NextConstants();
      var instructions := NextInstructions();
      var functions := NextFunctions();
      var classes := NextClasses();
      var interfaces := NextInterfaces();
      c := Code(constants, instructions, functions, classes, interfaces);
    }

    method NextChunk() returns (c: Chunk)
      modifies this`pos, this`failed
      ensures Went(ReadChunk(data, old(pos)), c)
    {
      hide ReadChunkHead, ReadCode, ReadList, ReadTable;
      var h := NextChunkHead();
      var code := NextCode();
      var exports := NextExports();
      var embeds := NextEmbeds();
      var moduleAliases := NextStringTable();
      var fromImports := NextStringTable();
      var typeAliasDeps := NextStringTable();
      c := Chunk(
          h.sourceHash, h.compiler, code.constants, code.instructions, code.functions, code.classes, code.interfaces,
          exports, h.topLevelLocalCount, h.globalCount, h.globalNames, embeds, moduleAliases, fromImports,
              typeAliasDeps);
    }
  }

  lemma Nothing<V>()
    ensures Inserted<V>([]) == map[]
  {}

  lemma InsertedStep<V>(es: seq<(Bytes, V)>, e: (Bytes, V))
    ensures Inserted(es + [e]) == Inserted(es)[e.0 := e.1]
  {
    assert (es + [e])[..|es|] == es;
  }

  lemma OneOn(data: Bytes, pos: nat)
    ensures Word(data, pos, 1).Ok? ==> Word(data, pos, 1).value.1 == pos + 1 <= |data|
  {}

  /** Decode: the reader, with its one failure, accepts exactly the files that parse, and gives
      their content. */
  method Decode(data: Bytes) returns (chunk: Result<Chunk>)
    ensures chunk == Parse(data)
  {
    hide ReadChunk;
    var reader := new ByteReader(data);
    var c := reader.NextChunk();
    chunk := if reader.failed || reader.pos != |data| then Bad else Ok(c);
  }
}
